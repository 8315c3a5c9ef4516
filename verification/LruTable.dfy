/** What a hashed LRU table (inc/bakshalipour_framework.h) means: a finite map whose keys fall into sets
    of bounded size, with a recency order from which a full set loses its least recent key. */
module LruTable {
  import opened Counting

  /** `order` lists the keys, least recently used first. */
  datatype Table<T> = Table(sets: nat, ways: nat, data: map<nat, T>, order: seq<nat>)

  function InSet(keys: set<nat>, sets: nat, i: nat): set<nat>
    requires sets > 0
  {
    set k | k in keys && k % sets == i
  }

  function Without(order: seq<nat>, k: nat): (r: seq<nat>)
    ensures forall x :: x in r <==> x in order && x != k
  {
    if |order| == 0 then []
    else if order[0] == k then Without(order[1..], k)
    else
      var r := [order[0]] + Without(order[1..], k);
      assert forall x :: x in order <==> x == order[0] || x in order[1..];
      r
  }

  /** The least recently used key of a set. */
  function Oldest(order: seq<nat>, sets: nat, i: nat): (r: Option<nat>)
    requires sets > 0
    ensures r.Some? ==> r.value in order && r.value % sets == i
    ensures r.None? ==> forall k :: k in order ==> k % sets != i
  {
    if |order| == 0 then None
    else if order[0] % sets == i then Some(order[0])
    else
      assert forall x :: x in order <==> x == order[0] || x in order[1..];
      Oldest(order[1..], sets, i)
  }

  function SetSize(keys: set<nat>, sets: nat, i: nat): nat
    requires sets > 0
  {
    |InSet(keys, sets, i)|
  }

  ghost predicate Distinct(order: seq<nat>) {
    forall a, b :: 0 <= a < b < |order| ==> order[a] != order[b]
  }

  ghost predicate Ok<T>(t: Table<T>) {
    && t.sets > 0 && t.ways > 0 && Distinct(t.order)
    && (forall k :: k in t.order <==> k in t.data)
    && forall i :: 0 <= i < t.sets ==> SetSize(t.data.Keys, t.sets, i) <= t.ways
  }

  // ---- Operations ----

  function Find<T>(t: Table<T>, k: nat): Option<T> {
    if k in t.data then Some(t.data[k]) else None
  }

  /** set_mru */
  function Touch<T>(t: Table<T>, k: nat): Table<T> {
    t.(order := Without(t.order, k) + [k])
  }

  function Erase<T>(t: Table<T>, k: nat): Table<T> {
    t.(data := t.data - {k}, order := Without(t.order, k))
  }

  /** A key stored in place. */
  function Store<T>(t: Table<T>, k: nat, v: T): Table<T> {
    t.(data := t.data[k := v])
  }

  /** Whether inserting a new key must evict another one. */
  predicate Full<T>(t: Table<T>, k: nat)
    requires t.sets > 0
  {
    k !in t.data && SetSize(t.data.Keys, t.sets, k % t.sets) >= t.ways
  }

  /** The key an insertion evicts. */
  function Victim<T>(t: Table<T>, k: nat): Option<nat>
    requires t.sets > 0
  {
    if Full(t, k) then Oldest(t.order, t.sets, k % t.sets) else None
  }

  /** The table without the victim. */
  function Room<T>(t: Table<T>, k: nat): (r: Table<T>)
    requires t.sets > 0
    ensures r.sets == t.sets
  {
    var victim := Victim(t, k);
    if victim.Some? then Erase(t, victim.value) else t
  }

  /** insert followed by set_mru, as every table of the prefetcher does. */
  function Insert<T>(t: Table<T>, k: nat, v: T): Table<T>
    requires t.sets > 0
  {
    Touch(Store(Room(t, k), k, v), k)
  }

  // ---- What they keep ----

  lemma {:induction false} WithoutDistinct(order: seq<nat>, k: nat)
    requires Distinct(order)
    ensures Distinct(Without(order, k))
  {
    if |order| > 0 {
      WithoutDistinct(order[1..], k);
      assert order[0] !in order[1..];
    }
  }

  lemma {:induction false} WithoutAbsent(order: seq<nat>, k: nat)
    requires k !in order
    ensures Without(order, k) == order
  {
    if |order| > 0 {
      WithoutAbsent(order[1..], k);
    }
  }

  lemma TouchOk<T>(t: Table<T>, k: nat)
    requires Ok(t) && k in t.data
    ensures Ok(Touch(t, k))
  {
    hide SetSize;
    WithoutDistinct(t.order, k);
  }

  lemma StoreOk<T>(t: Table<T>, k: nat, v: T)
    requires Ok(t) && k in t.data
    ensures Ok(Store(t, k, v))
  {
    hide SetSize;
    assert t.data[k := v].Keys == t.data.Keys;
  }

  lemma SmallerSet(keys: set<nat>, k: nat, sets: nat, i: nat)
    requires sets > 0
    ensures SetSize(keys - {k}, sets, i) == SetSize(keys, sets, i) - (if k in keys && k % sets == i then 1 else 0)
  {
    var s := InSet(keys, sets, i);
    assert InSet(keys - {k}, sets, i) == s - {k};
  }

  lemma LargerSet(keys: set<nat>, k: nat, sets: nat, i: nat)
    requires sets > 0
    ensures SetSize(keys + {k}, sets, i) == SetSize(keys, sets, i) + (if k !in keys && k % sets == i then 1 else 0)
  {
    var s := InSet(keys, sets, i);
    assert InSet(keys + {k}, sets, i) == if k % sets == i then s + {k} else s;
    if k in keys {
      assert keys + {k} == keys;
    }
  }

  lemma EraseOk<T>(t: Table<T>, k: nat)
    requires Ok(t)
    ensures Ok(Erase(t, k))
  {
    hide SetSize;
    WithoutDistinct(t.order, k);
    forall i | 0 <= i < t.sets ensures SetSize(t.data.Keys - {k}, t.sets, i) <= t.ways {
      SmallerSet(t.data.Keys, k, t.sets, i);
    }
  }

  /** A full set has a least recent key, of the same set. */
  lemma VictimOk<T>(t: Table<T>, k: nat)
    requires Ok(t)
    ensures Full(t, k) <==> Victim(t, k).Some?
    ensures Victim(t, k).Some? ==> Victim(t, k).value in t.data && Victim(t, k).value % t.sets == k % t.sets
  {
    if Full(t, k) {
      var s := InSet(t.data.Keys, t.sets, k % t.sets);
      assert s != {};
      var x :| x in s;
      assert x in t.order;
    }
  }

  lemma InsertOk<T>(t: Table<T>, k: nat, v: T)
    requires Ok(t)
    ensures Ok(Insert(t, k, v))
  {
    hide SetSize;
    var victim := Victim(t, k);
    VictimOk(t, k);
    var room := Room(t, k);
    if victim.Some? {
      EraseOk(t, victim.value);
    }
    WithoutDistinct(room.order, k);
    var keys := room.data.Keys + {k};
    forall i | 0 <= i < t.sets ensures SetSize(keys, t.sets, i) <= t.ways {
      LargerSet(room.data.Keys, k, t.sets, i);
      if victim.Some? {
        SmallerSet(t.data.Keys, victim.value, t.sets, i);
      }
    }
    var after := Insert(t, k, v);
    assert after.data == room.data[k := v] && after.data.Keys == keys;
    assert Distinct(after.order);
    assert forall x :: x in after.order <==> x in room.order || x == k;
    assert forall x :: x in after.order <==> x in after.data;
  }

  /** Inserting keeps every other key with its value, except the one victim. */
  lemma InsertMeaning<T>(t: Table<T>, k: nat, v: T)
    requires Ok(t)
    ensures Find(Insert(t, k, v), k) == Some(v)
    ensures forall x :: x != k && Victim(t, k) != Some(x) ==> Find(Insert(t, k, v), x) == Find(t, x)
    ensures Victim(t, k).Some? ==> Victim(t, k).value != k && Find(Insert(t, k, v), Victim(t, k).value).None?
  {
    VictimOk(t, k);
    assert Full(t, k) ==> k !in t.data;
  }

  // ---- Recency ----

  /** `uses` is the history of set_mru calls; a key's last use is its latest position. */
  function LastUse(uses: seq<nat>, k: nat): (n: nat)
    ensures n <= |uses|
    ensures n == 0 <==> k !in uses
    ensures n > 0 ==> uses[n - 1] == k
    ensures forall i :: n <= i < |uses| ==> uses[i] != k
  {
    if |uses| == 0 then 0
    else if uses[|uses| - 1] == k then |uses|
    else LastUse(uses[..|uses| - 1], k)
  }

  /** Later keys of the order carry larger stamps. */
  ghost predicate Rising(order: seq<nat>, stamp: nat -> nat) {
    forall a, b :: 0 <= a < b < |order| ==> stamp(order[a]) < stamp(order[b])
  }

  lemma {:induction false} WithoutRising(order: seq<nat>, stamp: nat -> nat, k: nat)
    requires Rising(order, stamp)
    ensures Rising(Without(order, k), stamp)
  {
    if |order| > 0 {
      var rest := order[1..];
      TailRising(order, stamp);
      WithoutRising(rest, stamp, k);
      var w := Without(rest, k);
      forall b | 0 <= b < |w| ensures stamp(order[0]) < stamp(w[b]) {
        assert w[b] in rest;
      }
    }
  }

  lemma TailRising(order: seq<nat>, stamp: nat -> nat)
    requires Rising(order, stamp) && |order| > 0
    ensures Rising(order[1..], stamp)
  {
    var rest := order[1..];
    forall a, b | 0 <= a < b < |rest| ensures stamp(rest[a]) < stamp(rest[b]) {
      assert rest[a] == order[a + 1] && rest[b] == order[b + 1];
    }
  }

  /** A key with a larger stamp goes to the end. */
  lemma RisingAppend(order: seq<nat>, before: nat -> nat, after: nat -> nat, k: nat)
    requires Rising(order, before)
    requires forall x :: x in order ==> after(x) == before(x) < after(k)
    ensures Rising(order + [k], after)
  {
    var more := order + [k];
    forall a, b | 0 <= a < b < |more| ensures after(more[a]) < after(more[b]) {
      assert more[a] == order[a] && order[a] in order;
      if b < |order| {
        assert more[b] == order[b] && order[b] in order;
        assert before(order[a]) < before(order[b]);
      }
    }
  }

  lemma SameStamp(order: seq<nat>, stamp: nat -> nat, a: nat, b: nat)
    requires Rising(order, stamp) && a in order && b in order && stamp(a) == stamp(b)
    ensures a == b
  {
    var i :| 0 <= i < |order| && order[i] == a;
    var j :| 0 <= j < |order| && order[j] == b;
    if i < j {
      assert stamp(order[i]) < stamp(order[j]);
    } else if j < i {
      assert stamp(order[j]) < stamp(order[i]);
    }
  }

  lemma SameRising(order: seq<nat>, before: nat -> nat, after: nat -> nat)
    requires Rising(order, before) && forall k :: k in order ==> after(k) == before(k)
    ensures Rising(order, after)
  {
    forall a, b | 0 <= a < b < |order| ensures after(order[a]) < after(order[b]) {
      assert before(order[a]) < before(order[b]);
    }
  }

  lemma {:induction false} OldestLeast(order: seq<nat>, stamp: nat -> nat, sets: nat, i: nat, k: nat)
    requires sets > 0 && Rising(order, stamp) && k in order && k % sets == i
    ensures Oldest(order, sets, i).Some?
    ensures stamp(Oldest(order, sets, i).value) <= stamp(k)
  {
    if order[0] % sets != i {
      TailRising(order, stamp);
      OldestLeast(order[1..], stamp, sets, i, k);
    }
  }

  function UseStamp(uses: seq<nat>): nat -> nat { (k: nat) => LastUse(uses, k) }

  /** The order of a table follows the history of uses. */
  ghost predicate Follows(order: seq<nat>, uses: seq<nat>) {
    Rising(order, UseStamp(uses)) && forall k :: k in order ==> k in uses
  }

  lemma WithoutFollows(order: seq<nat>, uses: seq<nat>, k: nat)
    requires Follows(order, uses)
    ensures Follows(Without(order, k), uses)
  {
    WithoutRising(order, UseStamp(uses), k);
  }

  /** Touching a key is one more use. */
  lemma TouchFollows<T>(t: Table<T>, uses: seq<nat>, k: nat)
    requires Follows(t.order, uses)
    ensures Follows(Touch(t, k).order, uses + [k])
  {
    WithoutFollows(t.order, uses, k);
    var w, more := Without(t.order, k), uses + [k];
    assert more[..|more| - 1] == uses;
    assert forall x :: x != k ==> LastUse(more, x) == LastUse(uses, x);
    assert LastUse(more, k) == |more|;
    forall x | x in w ensures UseStamp(more)(x) == UseStamp(uses)(x) < UseStamp(more)(k) {
    }
    RisingAppend(w, UseStamp(uses), UseStamp(more), k);
  }

  lemma InsertFollows<T>(t: Table<T>, uses: seq<nat>, k: nat, v: T)
    requires Follows(t.order, uses) && t.sets > 0
    ensures Follows(Insert(t, k, v).order, uses + [k])
  {
    var victim := Victim(t, k);
    if victim.Some? {
      WithoutFollows(t.order, uses, victim.value);
      TouchFollows(Store(Erase(t, victim.value), k, v), uses, k);
    } else {
      TouchFollows(Store(t, k, v), uses, k);
    }
  }

  lemma {:induction false} WithoutTwice(order: seq<nat>, k: nat)
    ensures Without(Without(order, k) + [k], k) == Without(order, k)
    decreases |order|
  {
    if |order| > 0 {
      WithoutTwice(order[1..], k);
      var w := Without(order[1..], k);
      if order[0] != k {
        assert ([order[0]] + w) + [k] == [order[0]] + (w + [k]);
        assert ([order[0]] + (w + [k]))[1..] == w + [k];
      }
    } else {
      assert ([] + [k])[1..] == [];
    }
  }

  /** Touching a key again changes no order, and a touch before an erasure is lost. */
  lemma TouchAgain<T>(t: Table<T>, k: nat)
    ensures Touch(Touch(t, k), k).order == Touch(t, k).order && Erase(Touch(t, k), k).order == Erase(t, k).order
  {
    WithoutTwice(t.order, k);
  }

  /** An insertion into a full set evicts the key whose last use is the longest ago. */
  lemma EvictsLeastRecent<T>(t: Table<T>, uses: seq<nat>, k: nat, x: nat)
    requires Ok(t) && Follows(t.order, uses) && Victim(t, k).Some?
    requires x in t.data && x % t.sets == k % t.sets
    ensures LastUse(uses, Victim(t, k).value) <= LastUse(uses, x)
  {
    OldestLeast(t.order, UseStamp(uses), t.sets, k % t.sets, x);
  }

  lemma EraseFollows<T>(t: Table<T>, uses: seq<nat>, k: nat)
    requires Follows(t.order, uses)
    ensures Follows(Erase(t, k).order, uses)
  {
    WithoutFollows(t.order, uses, k);
  }

  // ---- Whole histories ----

  /** An insertion with its set_mru, a set_mru of a key that is present, and an erasure. */
  datatype Op<T> = Put(k: nat, v: T) | Use(k: nat) | Remove(k: nat)

  function Apply<T>(t: Table<T>, op: Op<T>): (r: Table<T>)
    requires t.sets > 0
    ensures r.sets == t.sets
  {
    match op
    case Put(k, v) => Insert(t, k, v)
    case Use(k) => if k in t.data then Touch(t, k) else t
    case Remove(k) => Erase(t, k)
  }

  /** The use that an operation is. */
  function UseOf<T>(t: Table<T>, op: Op<T>): seq<nat> {
    match op
    case Put(k, _) => [k]
    case Use(k) => if k in t.data then [k] else []
    case Remove(_) => []
  }

  function ApplyAll<T>(t: Table<T>, ops: seq<Op<T>>): (r: Table<T>)
    requires t.sets > 0
    ensures r.sets == t.sets
    decreases |ops|
  {
    if |ops| == 0 then t else ApplyAll(Apply(t, ops[0]), ops[1..])
  }

  function UsesOf<T>(t: Table<T>, ops: seq<Op<T>>): seq<nat>
    requires t.sets > 0
    decreases |ops|
  {
    if |ops| == 0 then [] else UseOf(t, ops[0]) + UsesOf(Apply(t, ops[0]), ops[1..])
  }

  lemma ApplyFollows<T>(t: Table<T>, uses: seq<nat>, op: Op<T>)
    requires Ok(t) && Follows(t.order, uses)
    ensures Ok(Apply(t, op)) && Follows(Apply(t, op).order, uses + UseOf(t, op))
  {
    hide Ok, Follows, Insert, Touch, Erase;
    assert uses + [] == uses;
    match op
    case Put(k, v) =>
      OkSets(t);
      InsertOk(t, k, v);
      InsertFollows(t, uses, k, v);
    case Use(k) =>
      if k in t.data {
        TouchOk(t, k);
        TouchFollows(t, uses, k);
      }
    case Remove(k) =>
      EraseOk(t, k);
      EraseFollows(t, uses, k);
  }

  lemma OkSets<T>(t: Table<T>)
    requires Ok(t)
    ensures t.sets > 0
  {
  }

  lemma {:induction false} HistoryFollows<T>(t: Table<T>, uses: seq<nat>, ops: seq<Op<T>>)
    requires Ok(t) && Follows(t.order, uses)
    ensures Ok(ApplyAll(t, ops)) && Follows(ApplyAll(t, ops).order, uses + UsesOf(t, ops))
    decreases |ops|
  {
    hide Follows, Apply, UseOf;
    if |ops| == 0 {
      assert uses + [] == uses;
    } else {
      ApplyFollows(t, uses, ops[0]);
      HistoryFollows(Apply(t, ops[0]), uses + UseOf(t, ops[0]), ops[1..]);
      assert uses + UseOf(t, ops[0]) + UsesOf(Apply(t, ops[0]), ops[1..]) == uses + UsesOf(t, ops);
    }
  }

  /** After any history of insertions, uses and erasures on an empty table, an insertion into a full set
      evicts the key of the set whose last use in that history is the longest ago. */
  lemma EvictsLeastRecentEver<T>(t: Table<T>, ops: seq<Op<T>>, k: nat, x: nat)
    requires Ok(t) && t.data == map[] && t.order == []
    requires Victim(ApplyAll(t, ops), k).Some? && x in ApplyAll(t, ops).data && x % t.sets == k % t.sets
    ensures LastUse(UsesOf(t, ops), Victim(ApplyAll(t, ops), k).value) <= LastUse(UsesOf(t, ops), x)
  {
    HistoryFollows(t, [], ops);
    assert [] + UsesOf(t, ops) == UsesOf(t, ops);
    EvictsLeastRecent(ApplyAll(t, ops), UsesOf(t, ops), k, x);
  }
}
