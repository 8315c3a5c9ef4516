/** PatternHistoryTable of inc/bingo.h over the in-place LRU table, proved against PatternHistory. */
module PatternHistoryDevice {
  import opened Counting
  import opened HashIndex
  import opened LruTable
  import opened CamSet
  import opened LruCache
  import opened Footprints
  import opened PatternHistory

  datatype Event = PC_ADDRESS | PC_OFFSET | MISS

  /** my_rotate */
  method MyRotate<T>(x: seq<T>, n: int) returns (y: seq<T>)
    requires |x| > 0
    ensures y == Rotate(x, n)
  {
    y := [];
    var len := |x|;
    var r := Rem(n, len);
    var i := 0;
    while i < len
      invariant 0 <= i <= len && |y| == i
      invariant forall j :: 0 <= j < i ==> y[j] == Rotate(x, n)[j]
    {
      y := y + [x[(i - r + len) % len]];
      i := i + 1;
    }
  }

  class PatternHistoryTable {
    const cache: LruSetAssociativeCache<Pattern>
    const patternLen: nat
    const w: Widths

    ghost function Repr(): set<object> { {this} + cache.Repr() }

    ghost predicate Valid()
      reads Repr()
    {
      cache.Valid() && w.indexLen == cache.indexLen && PhtOk(cache.View(), w, patternLen)
    }

    ghost function View(): Table<Pattern>
      reads cache
    {
      cache.View()
    }

    /** The table needs a power of two of sets and a region of 2^min_addr_width blocks. */
    constructor (cache: LruSetAssociativeCache<Pattern>, patternLen: nat, w: Widths)
      requires cache.Valid() && cache.View().data == map[]
      requires WidthsOk(w) && w.indexLen == cache.indexLen && cache.numSets == Pow2(w.indexLen)
      requires patternLen == Pow2(w.minAddr)
      ensures Valid() && this.cache == cache && this.patternLen == patternLen && this.w == w
    {
      this.cache, this.patternLen, this.w := cache, patternLen, w;
      new;
      EmptyOk();
    }

    lemma EmptyOk()
      requires cache.Valid() && cache.View().data == map[]
      requires WidthsOk(w) && w.indexLen == cache.indexLen && cache.numSets == Pow2(w.indexLen)
      requires patternLen == Pow2(w.minAddr)
      ensures Valid()
    {
      CacheOk(cache);
    }

    /** build_key */
    method MakeKey(pc: nat, address: nat) returns (key: nat)
      requires Valid()
      ensures Valid() && View() == old(View()) && key == BuildKey(w, pc, address)
    {
      TriggerBelow(w, pc, address);
      Pow2Mono(w.pc + w.minAddr, 64);
      var indexKey := HashIndex.HashIndex(Trigger(w, pc, address), w.indexLen);
      key := Join(Base(w, address), indexKey, Pow2(w.pc + w.minAddr));
    }

    /** insert */
    method Insert(pc: nat, address: nat, pattern: Pattern)
      requires Valid() && |pattern| == patternLen
      modifies cache.Repr()
      ensures Valid() && View() == PhtInsert(old(View()), w, pc, address, pattern)
    {
      hide BuildKey, Rotate, LruTable.Insert, cache.Valid, Pow2;
      PhtInsertOk(View(), w, patternLen, pc, address, pattern);
      var offset := address % patternLen;
      var rotated := MyRotate(pattern, -offset);
      var key := MakeKey(pc, address);
      var _ := cache.InsertMru(key, rotated);
    }

    ghost function WayOf(k: nat): nat
      requires cache.Shape()
      reads cache.cams
    {
      var i := k % cache.numSets;
      if k / cache.numSets in cache.cams[i] then cache.cams[i][k / cache.numSets] else cache.numWays
    }

    /** The scan for `key` has passed `n` ways without a full match: `keys` agree on the trigger. */
    ghost predicate Scanned(key: nat, keys: seq<nat>, n: nat)
      requires cache.Shape()
      reads cache`contents, cache.cams
    {
      && Distinct(keys)
      && (forall x :: x in keys <==> x in cache.contents && SameLow(w, x, key) && WayOf(x) < n)
      && (key in cache.contents ==> WayOf(key) >= n)
    }

    /** Way n of the set of `key` holds `x` exactly when the CAM says so. */
    lemma AtWay(key: nat, n: nat, x: nat)
      requires Valid() && n < cache.numWays && x in cache.contents && SameLow(w, x, key)
      ensures WayOf(x) < cache.numWays && x % cache.numSets == key % cache.numSets
      ensures var e := cache.entries[key % cache.numSets, n]; WayOf(x) == n <==> e.valid && e.key == x
    {
      hide Pow2;
      SameTriggerSameSet(w, x, key);
      cache.KnownWay(x);
      if cache.entries[key % cache.numSets, n].valid {
        cache.HoldsKey(key % cache.numSets, n);
      }
    }

    /** What one more way adds. */
    lemma ScanStep(key: nat, keys: seq<nat>, n: nat)
      requires Valid() && n < cache.numWays && Scanned(key, keys, n)
      ensures var e := cache.entries[key % cache.numSets, n];
        && (!e.valid || !SameLow(w, e.key, key) ==> Scanned(key, keys, n + 1))
        && (e.valid && SameLow(w, e.key, key) && e.key != key ==> Scanned(key, keys + [e.key], n + 1))
    {
      hide Pow2, SameLow, WayOf;
      var e := cache.entries[key % cache.numSets, n];
      if e.valid {
        cache.HoldsKey(key % cache.numSets, n);
      }
      forall x | x in cache.contents && SameLow(w, x, key)
        ensures WayOf(x) == n <==> e.valid && e.key == x
      {
        AtWay(key, n, x);
      }
      SelfLow(key);
    }

    lemma SelfLow(key: nat)
      ensures SameLow(w, key, key)
    {
    }

    /** What the two masks of find compare. */
    lemma Masks(key: nat, n: nat)
      requires Valid() && key < Pow2(w.pc + w.maxAddr) && n < cache.numWays && cache.entries[key % cache.numSets, n].valid
      ensures var e, tag := cache.entries[key % cache.numSets, n], key / cache.numSets;
        && e.key in cache.contents && e.data == cache.contents[e.key]
        && (e.tag % Pow2(w.pc + w.minAddr - w.indexLen) == tag % Pow2(w.pc + w.minAddr - w.indexLen) <==> SameLow(w, e.key, key))
        && (e.tag % Pow2(w.pc + w.maxAddr - w.indexLen) == tag % Pow2(w.pc + w.maxAddr - w.indexLen) <==> e.key == key)
    {
      hide Pow2;
      cache.HoldsKey(key % cache.numSets, n);
      MinMatch(w, cache.entries[key % cache.numSets, n].key, key);
      MaxMatch(w, cache.entries[key % cache.numSets, n].key, key);
    }

    lemma ScanStart(key: nat)
      requires Valid()
      ensures Scanned(key, [], 0)
    {
    }

    lemma ScanEnd(key: nat, keys: seq<nat>)
      requires Valid() && Scanned(key, keys, cache.numWays)
      ensures Selects(View(), w, key, keys) && key !in View().data
    {
      hide Pow2, SameLow;
      forall x | x in cache.contents ensures WayOf(x) < cache.numWays {
        cache.KnownWay(x);
      }
    }

    lemma WidthsFit()
      requires Valid()
      ensures WidthsOk(w) && PhtOk(View(), w, patternLen)
    {
    }

    /** The scan of find over the ways of a set: the patterns of the selected keys, as stored. */
    method Collect(key: nat) returns (matches: seq<Pattern>, event: Event, ghost keys: seq<nat>)
      requires Valid() && key < Pow2(w.pc + w.maxAddr)
      modifies cache`t, cache`order, cache`stamps, cache.lru
      ensures Valid() && View() == if key in old(View()).data then Touch(old(View()), key) else old(View())
      ensures Selects(View(), w, key, keys) && |matches| == |keys|
      ensures forall i :: 0 <= i < |keys| ==> keys[i] in View().data && matches[i] == View().data[keys[i]]
      ensures event == if key in View().data then PC_ADDRESS else if matches == [] then MISS else PC_OFFSET
    {
      hide Pow2, SameLow, Scanned, Selects, PhtOk, cache.SetOk, cache.OrderOk;
      ScanStart(key);
      WidthsFit();
      var index, tag := key % cache.numSets, key / cache.numSets;
      var minTagMask := Pow2(w.pc + w.minAddr - w.indexLen);
      var maxTagMask := Pow2(w.pc + w.maxAddr - w.indexLen);
      matches, event, keys := [], MISS, [];
      var i := 0;
      while i < cache.numWays
        invariant 0 <= i <= cache.numWays && Valid() && View() == old(View())
        invariant Scanned(key, keys, i) && |matches| == |keys|
        invariant forall j :: 0 <= j < |keys| ==> keys[j] in View().data && matches[j] == View().data[keys[j]]
        invariant event == if matches == [] then MISS else PC_OFFSET
      {
        ScanStep(key, keys, i);
        var e := cache.entries[index, i];
        if e.valid {
          Masks(key, i);
          if e.tag % maxTagMask == tag % maxTagMask {
            matches, event, keys := [e.data], PC_ADDRESS, [key];
            Hit(key);
            return;
          }
          if e.tag % minTagMask == tag % minTagMask {
            matches, event, keys := matches + [e.data], PC_OFFSET, keys + [e.key];
          }
        }
        i := i + 1;
      }
      ScanEnd(key, keys);
    }

    /** A PC+address match is used. */
    method Hit(key: nat)
      requires Valid() && key in View().data
      modifies cache`t, cache`order, cache`stamps, cache.lru
      ensures Valid() && View() == Touch(old(View()), key) && Selects(View(), w, key, [key])
    {
      hide PhtOk, Touch, SameLow, cache.CamsOk, cache.OrderOk;
      PhtTouchOk(View(), w, patternLen, key);
      cache.ValidButAny(key);
      cache.SetMru(key);
    }

    method RotateAll(found: seq<Pattern>, offset: nat) returns (matches: seq<Pattern>)
      requires Valid() && forall j :: 0 <= j < |found| ==> |found[j]| > 0
      ensures Valid() && View() == old(View())
      ensures |matches| == |found| && forall j :: 0 <= j < |found| ==> matches[j] == Rotate(found[j], offset)
    {
      matches := [];
      var i := 0;
      while i < |found|
        invariant 0 <= i <= |found| && |matches| == i
        invariant forall j :: 0 <= j < i ==> matches[j] == Rotate(found[j], offset)
      {
        var m := MyRotate(found[i], offset);
        matches := matches + [m];
        i := i + 1;
      }
    }

    /** find: exactly the stored patterns selected, each rotated back. */
    method Find(pc: nat, address: nat) returns (matches: seq<Pattern>, event: Event, ghost keys: seq<nat>)
      requires Valid()
      modifies cache`t, cache`order, cache`stamps, cache.lru
      ensures Valid() && PhtOk(View(), w, patternLen) && Exact(View(), w, patternLen, pc, address, keys, matches)
      ensures var key := BuildKey(w, pc, address);
        View() == if key in old(View()).data then Touch(old(View()), key) else old(View())
      ensures var key := BuildKey(w, pc, address);
        event == if key in View().data then PC_ADDRESS else if matches == [] then MISS else PC_OFFSET
    {
      hide BuildKey, Exact, Selects, Rotate, PhtOk, Valid, Touch;
      WidthsFit();
      KeyParts(w, pc, address);
      var key := MakeKey(pc, address);
      var found;
      found, event, keys := Collect(key);
      WidthsFit();
      PatternsFit(keys);
      matches := RotateAll(found, address % patternLen);
      RotatedBackIsExact(View(), w, patternLen, pc, address, keys, found, matches);
    }

    lemma PatternsFit(keys: seq<nat>)
      requires Valid()
      ensures patternLen > 0
      ensures forall i :: 0 <= i < |keys| && keys[i] in View().data ==> |View().data[keys[i]]| == patternLen
    {
    }
  }

  lemma Pow2Mono(m: nat, n: nat)
    requires m <= n
    ensures Pow2(m) <= Pow2(n)
  {
    if m < n {
      Pow2Mono(m, n - 1);
    }
  }
}
