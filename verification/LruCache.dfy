/** SetAssociativeCache and LRUSetAssociativeCache of inc/bakshalipour_framework.h: entries, CAMs and
    LRU stamps updated in place, proved against LruTable. */
module LruCache {
  import opened Counting
  import opened LruTable
  import opened CamSet

  /** How many bits it takes to write n. */
  function Bits(n: nat): nat {
    if n == 0 then 0 else 1 + Bits(n / 2)
  }

  class LruSetAssociativeCache<T(!new)> {
    const numSets: nat
    const numWays: nat
    const indexLen: nat
    const entries: array2<Entry<T>>
    const cams: array<map<nat, nat>>
    const lru: array2<nat>
    var t: nat
    ghost var contents: map<nat, T>
    ghost var order: seq<nat>
    ghost var stamps: map<nat, nat>

    ghost function Repr(): set<object> { {this, entries, cams, lru} }

    ghost predicate Shape() {
      && 0 < numSets && 0 < numWays && indexLen == Bits(numSets - 1)
      && entries.Length0 == lru.Length0 == cams.Length == numSets
      && entries.Length1 == lru.Length1 == numWays
    }

    ghost function Row(i: nat): (row: seq<Entry<T>>)
      requires Shape() && i < numSets
      reads entries
      ensures |row| == numWays && forall w :: 0 <= w < numWays ==> row[w] == entries[i, w]
    {
      seq(numWays, w requires 0 <= w < numWays && Shape() && i < numSets reads entries => entries[i, w])
    }

    /** Entries and CAM of one set agree with the contents. */
    ghost predicate SetOk(i: nat)
      requires Shape() && i < numSets
      reads `contents, entries, cams
    {
      Agrees(numSets, i, Row(i), cams[i], contents)
    }

    ghost predicate StampOk(k: nat)
      requires Shape()
      reads `stamps, cams, lru
    {
      var i := k % numSets;
      k in stamps && k / numSets in cams[i] && cams[i][k / numSets] < numWays
      && stamps[k] == lru[i, cams[i][k / numSets]]
    }

    /** The base class: entries and CAMs. */
    ghost predicate CamsOk()
      reads `contents, entries, cams
    {
      Shape() && forall i :: 0 <= i < numSets ==> SetOk(i)
    }

    ghost function Stamp(): nat -> nat
      reads `stamps
    {
      var m := stamps;
      (k: nat) => if k in m then m[k] else 0
    }

    /** The LRU stamps rise along an order of the given keys. */
    ghost predicate OrderOk(o: seq<nat>)
      requires Shape()
      reads `contents, `stamps, `t, cams, lru
    {
      && Rising(o, Stamp())
      && (forall k :: k in o ==> k in contents && Stamp()(k) < t)
      && StampsOk()
    }

    ghost predicate Valid()
      reads Repr()
    {
      CamsOk() && OrderOk(order) && forall k :: k in order <==> k in contents
    }

    /** Valid except that `k` has no recency yet. */
    ghost predicate ValidBut(k: nat)
      reads Repr()
    {
      && CamsOk() && OrderOk(Without(order, k)) && k in contents
      && forall x :: x in Without(order, k) || x == k <==> x in contents
    }

    ghost function View(): (v: Table<T>)
      reads `contents, `order
    {
      Table(numSets, numWays, contents, order)
    }

    /** The constructor: `blank` is the default entry data of a vector. */
    constructor (size: nat, numWays: nat, blank: T)
      requires 0 < numWays <= size && size % numWays == 0
      ensures Valid() && fresh(Repr()) && View() == Table(size / numWays, numWays, map[], [])
      ensures indexLen == Bits(size / numWays - 1)
    {
      var n := size / numWays;
      SomeSets(size, numWays);
      numSets, this.numWays := n, numWays;
      entries := new Entry<T>[n, numWays]((i, w) => Entry(0, 0, false, blank));
      cams := new map<nat, nat>[n](_ => map[]);
      lru := new nat[n, numWays]((i, w) => 0);
      t := 1;
      contents, order, stamps := map[], [], map[];
      var len: nat, maxIndex: nat := 0, n - 1;
      while maxIndex > 0
        invariant len + Bits(maxIndex) == Bits(n - 1)
      {
        len, maxIndex := len + 1, maxIndex / 2;
      }
      indexLen := len;
      new;
      forall i | 0 <= i < numSets ensures SetOk(i) {
        EmptyAgrees(i);
      }
    }

    lemma EmptyAgrees(i: nat)
      requires Shape() && i < numSets && contents == map[] && cams[i] == map[]
      requires forall w :: 0 <= w < numWays ==> !entries[i, w].valid
      ensures SetOk(i)
    {
      CountZero(Row(i), IsValid());
      assert InSet(contents.Keys, numSets, i) == {};
    }

    /** The way holds the key with its data, and the CAM says so. */
    ghost predicate HoldsAt(key: nat, way: nat)
      requires Shape() && way < numWays
      reads `contents, entries, cams
    {
      var i := key % numSets;
      && key in contents && entries[i, way] == Entry(key, key / numSets, true, contents[key])
      && key / numSets in cams[i] && cams[i][key / numSets] == way
    }

    /** find: the way of a key, or -1. */
    method FindWay(key: nat) returns (way: int)
      requires CamsOk()
      ensures way == -1 <==> key !in contents
      ensures way != -1 ==> 0 <= way < numWays && HoldsAt(key, way)
    {
      var index, tag := key % numSets, key / numSets;
      assert SetOk(index);
      CamDecides(numSets, index, Row(index), cams[index], contents, key);
      way := -1;
      if tag in cams[index] {
        way := cams[index][tag];
      }
    }

    method Find(key: nat) returns (r: Option<T>)
      requires Valid()
      ensures r == LruTable.Find(View(), key)
    {
      var way := FindWay(key);
      r := if way == -1 then None else Some(entries[key % numSets, way].data);
    }

    /** Two keys never share a way. */
    lemma OtherWay(a: nat, b: nat)
      requires CamsOk() && a in contents && b in contents && a != b && a % numSets == b % numSets
      ensures a / numSets != b / numSets
      ensures var i := a % numSets;
        && a / numSets in cams[i] && b / numSets in cams[i]
        && cams[i][a / numSets] != cams[i][b / numSets]
    {
      var i := a % numSets;
      assert SetOk(i);
      CamDecides(numSets, i, Row(i), cams[i], contents, a);
      CamDecides(numSets, i, Row(i), cams[i], contents, b);
      TagsDiffer(a, b, numSets);
    }

    ghost predicate StampsOk()
      requires Shape()
      reads `contents, `stamps, cams, lru
    {
      forall k :: k in contents ==> StampOk(k)
    }

    /** The LRU stamp of a key becomes the current time. */
    method Restamp(key: nat)
      requires CamsOk() && key in contents && StampsOk()
      modifies `t, `stamps, lru
      ensures StampsOk() && t == old(t) + 1 && stamps == old(stamps)[key := old(t)]
    {
      hide SetOk;
      assert StampOk(key);
      var index, way := key % numSets, cams[key % numSets][key / numSets];
      forall x | x in contents && x != key && x % numSets == index ensures cams[index][x / numSets] != way {
        assert StampOk(x);
        OtherWay(x, key);
      }
      lru[index, way] := t;
      stamps := stamps[key := t];
      t := t + 1;
      forall x | x in contents ensures StampOk(x) {
        assert old(StampOk(x));
      }
    }

    /** set_mru */
    method SetMru(key: nat)
      requires ValidBut(key)
      modifies `t, `order, `stamps, lru
      ensures Valid() && View() == Touch(old(View()), key)
    {
      hide SetOk, StampOk;
      ghost var o, before := Without(order, key), Stamp();
      Restamp(key);
      order := o + [key];
      RisingAppend(o, before, Stamp(), key);
    }

    /** Touching a key that has a recency already. */
    lemma ValidButAny(key: nat)
      requires Valid() && key in contents
      ensures ValidBut(key)
    {
      WithoutRising(order, Stamp(), key);
    }

    /** The agreement after a change of one set, by which only key `k` came or went. */
    twostate lemma CamsAgree(k: nat)
      requires old(CamsOk()) && Shape()
      requires forall x: nat :: x != k ==> Same(old(contents), contents, x)
      requires forall i, w | 0 <= i < numSets && 0 <= w < numWays && i != k % numSets :: entries[i, w] == old(entries[i, w])
      requires forall i | 0 <= i < numSets && i != k % numSets :: cams[i] == old(cams[i])
      requires SetOk(k % numSets)
      ensures CamsOk()
    {
      forall i | 0 <= i < numSets ensures SetOk(i) {
        if i != k % numSets {
          assert old(SetOk(i));
          assert Row(i) == old(Row(i));
          OtherAgrees(numSets, i, Row(i), cams[i], old(contents), contents);
        }
      }
    }

    /** Invalidates one way, in the entries and in the CAM. */
    method Clear(index: nat, way: nat)
      requires CamsOk() && StampsOk() && index < numSets && way < numWays && entries[index, way].valid
      modifies entries, cams, `contents
      ensures CamsOk() && StampsOk()
      ensures var key := old(entries[index, way]).key;
        key in old(contents) && key % numSets == index && contents == old(contents) - {key}
      ensures entries[index, way] == old(entries[index, way]).(valid := false)
    {
      hide Agrees;
      ghost var row, e := Row(index), entries[index, way];
      assert SetOk(index);
      HoldsKey(index, way);
      DropAgrees(numSets, index, row, cams[index], contents, way);
      forall x | x in contents && x != e.key && x % numSets == index ensures x / numSets != e.tag {
        TagsDiffer(x, e.key, numSets);
      }
      cams[index] := cams[index] - {entries[index, way].tag};
      entries[index, way] := entries[index, way].(valid := false);
      contents := contents - {e.key};
      assert Row(index) == row[way := e.(valid := false)];
      CamsAgree(e.key);
      forall x | x in contents ensures StampOk(x) {
        assert old(StampOk(x));
      }
    }

    lemma HoldsKey(index: nat, way: nat)
      requires CamsOk() && index < numSets && way < numWays && entries[index, way].valid
      ensures entries[index, way].key % numSets == index && HoldsAt(entries[index, way].key, way)
    {
      assert SetOk(index);
      assert WayOk(numSets, index, way, Row(index)[way], cams[index], contents);
    }

    lemma KnownWay(key: nat)
      requires CamsOk() && key in contents
      ensures var i := key % numSets;
        key / numSets in cams[i] && cams[i][key / numSets] < numWays && HoldsAt(key, cams[i][key / numSets])
    {
      assert SetOk(key % numSets);
      CamDecides(numSets, key % numSets, Row(key % numSets), cams[key % numSets], contents, key);
    }

    /** Stores a new key in an invalid way, whose old stamp it inherits. */
    method Fill(way: nat, key: nat, data: T)
      requires CamsOk() && StampsOk() && way < numWays && !entries[key % numSets, way].valid && key !in contents
      modifies entries, cams, `contents, `stamps
      ensures CamsOk() && StampsOk() && contents == old(contents)[key := data]
      ensures forall k :: k in old(contents) ==> Stamp()(k) == old(Stamp())(k)
    {
      hide Agrees;
      ghost var row := Row(key % numSets);
      var index, tag := key % numSets, key / numSets;
      assert SetOk(index);
      FillAgrees(numSets, index, row, cams[index], contents, way, key, data);
      forall x | x in contents && x % numSets == index ensures x / numSets != tag {
        TagsDiffer(x, key, numSets);
      }
      entries[index, way] := Entry(key, tag, true, data);
      cams[index] := cams[index][tag := way];
      contents := contents[key := data];
      stamps := stamps[key := lru[index, way]];
      assert Row(index) == row[way := Entry(key, tag, true, data)];
      CamsAgree(key);
      forall x | x in contents ensures StampOk(x) && (x != key ==> Stamp()(x) == old(Stamp())(x)) {
        if x != key {
          assert old(StampOk(x));
        }
      }
    }

    /** New data for a key that is present. */
    method Overwrite(way: nat, key: nat, data: T)
      requires CamsOk() && StampsOk() && way < numWays && HoldsAt(key, way)
      modifies entries, `contents
      ensures CamsOk() && StampsOk() && contents == old(contents)[key := data]
    {
      hide Agrees;
      ghost var row, index := Row(key % numSets), key % numSets;
      assert SetOk(index);
      OverwriteAgrees(numSets, index, row, cams[index], contents, key, data);
      entries[key % numSets, way] := entries[key % numSets, way].(data := data);
      contents := contents[key := data];
      assert Row(index) == row[way := row[way].(data := data)];
      CamsAgree(key);
      forall x | x in contents ensures StampOk(x) {
        assert old(StampOk(x));
      }
    }

    /** New data, recency to follow. */
    method Refresh(way: nat, key: nat, data: T)
      requires Valid() && way < numWays && HoldsAt(key, way)
      modifies entries, `contents
      ensures ValidBut(key) && View() == Store(old(View()), key, data)
    {
      hide SetOk, StampsOk;
      ValidButAny(key);
      Overwrite(way, key, data);
    }

    /** Invalidates one way; its key loses its recency. */
    method Drop(index: nat, way: nat)
      requires Valid() && index < numSets && way < numWays && entries[index, way].valid
      modifies entries, cams, `contents, `order
      ensures Valid() && View() == LruTable.Erase(old(View()), old(entries[index, way]).key)
      ensures entries[index, way] == old(entries[index, way]).(valid := false)
    {
      hide SetOk, StampOk, StampsOk, Rising, Agrees;
      ghost var key := entries[index, way].key;
      WithoutRising(order, Stamp(), key);
      Clear(index, way);
      order := Without(order, key);
    }

    /** erase: the data of the entry that was invalidated. */
    method Erase(key: nat) returns (r: Option<T>)
      requires Valid()
      modifies entries, cams, `contents, `order
      ensures Valid() && View() == LruTable.Erase(old(View()), key) && r == LruTable.Find(old(View()), key)
    {
      hide SetOk, OrderOk;
      var way := FindWay(key);
      if way == -1 {
        WithoutAbsent(order, key);
        assert contents - {key} == contents;
        r := None;
      } else {
        r := Some(entries[key % numSets, way].data);
        assert HoldsAt(key, way);
        Drop(key % numSets, way);
      }
    }

    /** select_victim: the first way with the least stamp. */
    method SelectVictim(index: nat) returns (way: nat)
      requires Shape() && index < numSets
      ensures way < numWays && forall w :: 0 <= w < numWays ==> lru[index, way] <= lru[index, w]
    {
      way := 0;
      var w := 1;
      while w < numWays
        invariant 1 <= w <= numWays && way < w
        invariant forall x :: 0 <= x < w ==> lru[index, way] <= lru[index, x]
      {
        if lru[index, w] < lru[index, way] {
          way := w;
        }
        w := w + 1;
      }
    }

    /** In a full set, the way with the least stamp holds the least recent key. */
    lemma LeastStampIsOldest(index: nat, way: nat, key: nat)
      requires Valid() && index < numSets && way < numWays && index == key % numSets && key !in contents
      requires forall w :: 0 <= w < numWays ==> entries[index, w].valid && lru[index, way] <= lru[index, w]
      ensures Victim(View(), key) == Some(entries[index, way].key)
    {
      var v := entries[index, way].key;
      HoldsKey(index, way);
      assert StampOk(v) && v in order;
      OldestLeast(order, Stamp(), numSets, index, v);
      var oldest := Oldest(order, numSets, index).value;
      assert StampOk(oldest);
      assert SetOk(index);
      FullMeaning(numSets, index, Row(index), cams[index], contents);
      assert Stamp()(v) <= Stamp()(oldest);
      SameStamp(order, Stamp(), v, oldest);
    }

    /** The way insert takes for a new key: an invalid one, else the victim's. */
    method ChooseWay(key: nat) returns (way: nat)
      requires Valid() && key !in contents
      ensures way < numWays
      ensures if entries[key % numSets, way].valid then Victim(View(), key) == Some(entries[key % numSets, way].key)
              else Victim(View(), key) == None
    {
      hide OrderOk;
      var index := key % numSets;
      assert SetOk(index);
      FullMeaning(numSets, index, Row(index), cams[index], contents);
      way := 0;
      while way < numWays && entries[index, way].valid
        invariant 0 <= way <= numWays && forall w :: 0 <= w < way ==> entries[index, w].valid
      {
        way := way + 1;
      }
      if way == numWays {
        way := SelectVictim(index);
        LeastStampIsOldest(index, way, key);
      } else {
        assert !Row(index)[way].valid;
      }
    }

    /** A new key in a way that is invalid. */
    method FillNew(way: nat, key: nat, data: T)
      requires Valid() && way < numWays && !entries[key % numSets, way].valid && key !in contents
      modifies entries, cams, `contents, `stamps
      ensures ValidBut(key) && View() == Store(old(View()), key, data)
    {
      hide SetOk, CamsOk, StampsOk;
      WithoutAbsent(order, key);
      ghost var before := Stamp();
      Fill(way, key, data);
      SameRising(order, before, Stamp());
    }

    /** A new key, in an invalid way or in place of the victim. */
    method InsertNew(key: nat, data: T) returns (old_: Entry<T>)
      requires Valid() && key !in contents
      modifies entries, cams, `contents, `order, `stamps
      ensures ValidBut(key) && View() == Store(Room(old(View()), key), key, data)
      ensures old_.valid <==> Victim(old(View()), key).Some?
      ensures old_.valid ==>
        old_.key == Victim(old(View()), key).value && old_.key in old(contents) && old_.data == old(contents)[old_.key]
    {
      hide SetOk, OrderOk, ValidBut, Victim;
      var way := ChooseWay(key);
      old_ := entries[key % numSets, way];
      if old_.valid {
        HoldsKey(key % numSets, way);
        Drop(key % numSets, way);
      }
      FillNew(way, key, data);
    }

    /** insert. What is left to make the table valid is the set_mru that always follows. */
    method Insert(key: nat, data: T) returns (old_: Entry<T>)
      requires Valid()
      modifies entries, cams, `contents, `order, `stamps
      ensures ValidBut(key) && View() == Store(Room(old(View()), key), key, data)
      ensures old_.valid <==> key in old(contents) || Victim(old(View()), key).Some?
      ensures key in old(contents) ==> old_.data == old(contents)[key]
      ensures Victim(old(View()), key).Some? ==>
        old_.key == Victim(old(View()), key).value && old_.key in old(contents) && old_.data == old(contents)[old_.key]
    {
      hide SetOk, OrderOk, ValidBut, Oldest;
      var way := FindWay(key);
      if way != -1 {
        old_ := entries[key % numSets, way];
        Refresh(way, key, data);
      } else {
        old_ := InsertNew(key, data);
      }
    }

    /** set_mru of a key that is present. */
    method Use(key: nat)
      requires Valid() && key in View().data
      modifies `t, `order, `stamps, lru
      ensures Valid() && View() == Touch(old(View()), key)
    {
      hide CamsOk, OrderOk;
      ValidButAny(key);
      SetMru(key);
    }

    /** New data through the pointer that find returned. */
    method Update(key: nat, data: T)
      requires Valid() && key in View().data
      modifies entries, `contents
      ensures Valid() && View() == Store(old(View()), key, data)
    {
      hide SetOk, StampsOk;
      var way := FindWay(key);
      Overwrite(way, key, data);
    }

    /** New data through the pointer that find returned, then set_mru. */
    method Rewrite(key: nat, data: T)
      requires Valid() && key in View().data
      modifies entries, `contents, `t, `order, `stamps, lru
      ensures Valid() && View() == Touch(Store(old(View()), key, data), key)
    {
      hide SetOk, OrderOk, Touch;
      var way := FindWay(key);
      Refresh(way, key, data);
      SetMru(key);
    }

    /** insert followed by set_mru. */
    method InsertMru(key: nat, data: T) returns (old_: Entry<T>)
      requires Valid()
      modifies entries, cams, `contents, `order, `stamps, `t, lru
      ensures Valid() && View() == LruTable.Insert(old(View()), key, data)
      ensures old_.valid <==> key in old(contents) || Victim(old(View()), key).Some?
      ensures key in old(contents) ==> old_.data == old(contents)[key]
      ensures Victim(old(View()), key).Some? ==>
        old_.key == Victim(old(View()), key).value && old_.key in old(contents) && old_.data == old(contents)[old_.key]
    {
      hide Valid, ValidBut;
      old_ := Insert(key, data);
      SetMru(key);
    }
  }

  /** A valid cache is a table whose sets are bounded. */
  lemma CacheOk<T(!new)>(c: LruSetAssociativeCache<T>)
    requires c.Valid()
    ensures Ok(c.View())
  {
    forall i | 0 <= i < c.numSets ensures SetSize(c.View().data.Keys, c.numSets, i) <= c.numWays {
      assert c.SetOk(i);
      FullMeaning(c.numSets, i, c.Row(i), c.cams[i], c.contents);
    }
    RisingDistinct(c.order, c.Stamp());
  }

  lemma RisingDistinct(order: seq<nat>, stamp: nat -> nat)
    requires Rising(order, stamp)
    ensures Distinct(order)
  {
    forall a, b | 0 <= a < b < |order| ensures order[a] != order[b] {
      assert stamp(order[a]) < stamp(order[b]);
    }
  }

  lemma SomeSets(size: nat, ways: nat)
    requires 0 < ways <= size && size % ways == 0
    ensures size / ways > 0
  {
  }
}
