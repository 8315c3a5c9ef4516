/** The Bingo prefetcher over its four in-place tables (prefetcher/bingo.cc, inc/bingo.h), proved against
    Bingo and Streamer. */
module BingoDevice {
  import opened Counting
  import opened HashIndex
  import opened LruTable
  import opened CamSet
  import opened LruCache
  import opened Footprints
  import opened PatternHistory
  import PatternHistoryDevice
  import opened Bingo
  import opened Streamer

  class BingoPrefetcher {
    const filterTable: LruSetAssociativeCache<Seen>
    const accumulationTable: LruSetAssociativeCache<Gathered>
    const pht: PatternHistoryDevice.PatternHistoryTable
    const pfStreamer: LruSetAssociativeCache<seq<int>>
    const params: Params
    const pcAddressFillLevel: int
    /** The fill level of a block that `cnt` of `n` voters have marked. */
    const level: (nat, nat) -> int

    ghost function Repr(): set<object> {
      {this} + filterTable.Repr() + accumulationTable.Repr() + pht.Repr() + pfStreamer.Repr()
    }

    /** The tables are well-formed and share nothing. */
    ghost predicate Wired()
      reads Repr()
    {
      && filterTable.Valid() && accumulationTable.Valid() && pht.Valid() && pfStreamer.Valid()
      && filterTable.Repr() !! accumulationTable.Repr() !! pht.Repr() !! pfStreamer.Repr()
      && params.ftIndex == filterTable.indexLen && params.atIndex == accumulationTable.indexLen
      && params.psIndex == pfStreamer.indexLen && params.w == pht.w && params.len == pht.patternLen
      && ParamsOk(params)
    }

    ghost function View(): (s: State)
      reads filterTable, accumulationTable, pht.cache, pfStreamer
    {
      State(filterTable.View(), accumulationTable.View(), pht.View(), pfStreamer.View())
    }

    ghost predicate Valid()
      reads Repr()
    {
      Wired() && LifeOk(params, View())
    }

    constructor (ft: LruSetAssociativeCache<Seen>, at: LruSetAssociativeCache<Gathered>,
                 pht: PatternHistoryDevice.PatternHistoryTable, ps: LruSetAssociativeCache<seq<int>>,
                 params: Params, pcAddressFillLevel: int, level: (nat, nat) -> int)
      requires ft.Valid() && at.Valid() && pht.Valid() && ps.Valid()
      requires ft.Repr() !! at.Repr() !! pht.Repr() !! ps.Repr()
      requires params.ftIndex == ft.indexLen && params.atIndex == at.indexLen && params.psIndex == ps.indexLen
      requires params.w == pht.w && params.len == pht.patternLen && ParamsOk(params)
      requires ft.View().data == map[] && at.View().data == map[] && pht.View().data == map[] && ps.View().data == map[]
      ensures Valid() && IsInitial(params, View())
    {
      hide ft.Valid, Ok;
      filterTable, accumulationTable, this.pht, pfStreamer := ft, at, pht, ps;
      this.params, this.pcAddressFillLevel, this.level := params, pcAddressFillLevel, level;
      new;
      CacheOk(ft);
      CacheOk(at);
      CacheOk(ps);
    }

    // ---- The tables, one at a time ----

    /** build_key of a region number */
    method RegionKey(region: nat, indexLen: nat) returns (key: nat)
      requires Wired() && region < Pow2(64) && indexLen <= 30
      ensures Wired() && View() == old(View()) && key == Hash(region, indexLen)
    {
      hide filterTable.Valid, pht.Valid, Hash, Pow2;
      key := HashIndex.HashIndex(region, indexLen);
    }

    method FilterInsert(key: nat, e: Seen)
      requires Wired()
      modifies filterTable.Repr()
      ensures Wired() && View() == old(View()).(ft := Insert(old(View()).ft, key, e))
    {
      hide filterTable.Valid, pht.Valid, Insert;
      var _ := filterTable.InsertMru(key, e);
    }

    /** FilterTable::find uses what it finds. */
    method FilterFind(key: nat) returns (r: Option<Seen>)
      requires Wired()
      modifies filterTable.Repr()
      ensures Wired() && r == Find(old(View()).ft, key)
      ensures View() == if r.Some? then old(View()).(ft := Touch(old(View()).ft, key)) else old(View())
    {
      hide filterTable.Valid, pht.Valid, Touch;
      r := filterTable.Find(key);
      if r.Some? {
        filterTable.Use(key);
      }
    }

    method FilterErase(key: nat)
      requires Wired()
      modifies filterTable.Repr()
      ensures Wired() && View() == old(View()).(ft := Erase(old(View()).ft, key))
    {
      hide filterTable.Valid, pht.Valid, Erase;
      var _ := filterTable.Erase(key);
    }

    /** AccumulationTable::set_pattern */
    method SetPattern(key: nat, offset: nat) returns (success: bool)
      requires Wired() && offset < params.len
      requires forall k :: k in View().at.data ==> |View().at.data[k].pattern| == params.len
      modifies accumulationTable.Repr()
      ensures Wired() && success == (key in old(View()).at.data)
      ensures View() == if success then old(View()).(at := Mark(old(View()).at, key, offset)) else old(View())
    {
      hide filterTable.Valid, pht.Valid, Touch;
      var g := accumulationTable.Find(key);
      success := g.Some?;
      if success {
        assert key in View().at.data && g.value == View().at.data[key];
        accumulationTable.Rewrite(key, g.value.(pattern := g.value.pattern[offset := true]));
      }
    }

    /** AccumulationTable::insert: the entry it evicts, if any. */
    method AccumulationInsert(key: nat, g: Gathered) returns (victim: Entry<Gathered>)
      requires Wired() && key !in View().at.data
      modifies accumulationTable.Repr()
      ensures Wired() && View() == old(View()).(at := Insert(old(View()).at, key, g))
      ensures victim.valid <==> Victim(old(View()).at, key).Some?
      ensures victim.valid ==> victim.key in old(View()).at.data && victim.data == old(View()).at.data[victim.key]
      ensures victim.valid ==> Victim(old(View()).at, key).value == victim.key
    {
      hide filterTable.Valid, pht.Valid, Insert, Victim;
      victim := accumulationTable.InsertMru(key, g);
    }

    method AccumulationErase(key: nat) returns (r: Option<Gathered>)
      requires Wired()
      modifies accumulationTable.Repr()
      ensures Wired() && View() == old(View()).(at := Erase(old(View()).at, key))
      ensures r == Find(old(View()).at, key)
    {
      hide filterTable.Valid, pht.Valid, Erase;
      r := accumulationTable.Erase(key);
    }

    /** insert_in_pht, of an entry that left the accumulation table under `key`. */
    method InsertInPht(key: nat, g: Gathered)
      requires Wired() && |g.pattern| == params.len && key < Pow2(64)
      modifies pht.cache.Repr()
      ensures Wired() && View() == old(View()).(pht := Learn(params, old(View()).pht, Some(FootprintOf(params, key, g))))
    {
      hide filterTable.Valid, pht.Valid, PhtInsert;
      var region := RegionKey(key, params.atIndex);
      pht.Insert(g.pc, Join(region, g.offset, params.len), g.pattern);
    }

    method StreamerInsert(key: nat, pattern: seq<int>)
      requires Wired()
      modifies pfStreamer.Repr()
      ensures Wired() && View() == old(View()).(ps := Insert(old(View()).ps, key, pattern))
    {
      hide filterTable.Valid, pht.Valid, Insert;
      var _ := pfStreamer.InsertMru(key, pattern);
    }

    // ---- access and eviction ----

    /** vote: a level for every block, by how many of the patterns mark it; empty if no level is given. */
    method Vote(x: seq<Pattern>) returns (res: seq<int>)
      requires Wired() && forall j :: 0 <= j < |x| ==> |x[j]| == params.len
      ensures Wired() && View() == old(View()) && res == VoteOf(level, x, params.len)
      ensures res == [] || |res| == params.len
    {
      res := [];
      if |x| == 0 {
        return;
      }
      var pfFlag := false;
      var votes: seq<int> := [];
      var i := 0;
      while i < params.len
        invariant 0 <= i <= params.len && |votes| == i
        invariant forall k :: 0 <= k < i ==> votes[k] == level(Voters(x, k, |x|), |x|)
        invariant pfFlag <==> exists k :: 0 <= k < i && votes[k] != 0
      {
        var cnt, j := 0, 0;
        while j < |x|
          invariant 0 <= j <= |x| && cnt == Voters(x, i, j)
        {
          if x[j][i] {
            cnt := cnt + 1;
          }
          j := j + 1;
        }
        votes := votes + [level(cnt, |x|)];
        if votes[i] != 0 {
          pfFlag := true;
        }
        i := i + 1;
      }
      if pfFlag {
        res := votes;
      }
      assert votes == Levels(level, x, params.len);
    }

    /** A PC+address match marks its blocks for one fill level. */
    method FillLevels(match_: Pattern) returns (pattern: seq<int>)
      requires Wired()
      ensures Wired() && View() == old(View()) && pattern == Uniform(match_, pcAddressFillLevel) && |pattern| == |match_|
    {
      pattern := [];
      var i := 0;
      while i < |match_|
        invariant 0 <= i <= |match_| && |pattern| == i
        invariant forall k :: 0 <= k < i ==> pattern[k] == if match_[k] then pcAddressFillLevel else 0
      {
        pattern := pattern + [if match_[i] then pcAddressFillLevel else 0];
        i := i + 1;
      }
    }

    /** find_in_pht: an exact lookup, turned into fill levels. */
    method FindInPht(pc: nat, address: nat) returns (pattern: seq<int>, ghost keys: seq<nat>, ghost matches: seq<Pattern>)
      requires Wired()
      modifies pht.cache.Repr()
      ensures Wired()
      ensures var key := BuildKey(params.w, pc, address);
        View() == if key in old(View()).pht.data then old(View()).(pht := Touch(old(View()).pht, key)) else old(View())
      ensures Looked(params, pcAddressFillLevel, level, View().pht, pc, address, keys, matches, pattern)
      ensures pattern == [] || |pattern| == params.len
    {
      hide filterTable.Valid, pht.Valid, Touch, BuildKey, Exact, PhtOk, Uniform, VoteOf;
      var found, event;
      found, event, keys := pht.Find(pc, address);
      matches := found;
      SelectedSize(View().pht, params.w, params.len, pc, address, keys, matches);
      if event == PatternHistoryDevice.PC_ADDRESS {
        pattern := FillLevels(found[0]);
      } else {
        pattern := Vote(found);
      }
    }

    /** A trigger access. */
    method StartRegion(block: nat, pc: nat, r: nat, ftKey: nat)
      returns (found: seq<int>, ghost keys: seq<nat>, ghost matches: seq<Pattern>)
      requires Wired() && block < Pow2(64) && r == Region(params, block) && ftKey == FtKey(params, r)
      modifies Repr()
      ensures Wired() && View() == Start(params, old(View()), block, pc, found)
      ensures Looked(params, pcAddressFillLevel, level, View().pht, pc, block, keys, matches, found)
      ensures found == [] || |found| == params.len
    {
      hide filterTable.Valid, pht.Valid, Insert, Touch, BuildKey, Looked, Pow2, Hash;
      FilterInsert(ftKey, Seen(pc, block % params.len));
      found, keys, matches := FindInPht(pc, block);
      if found != [] {
        RegionBelow(block, params.len);
        var psKey := RegionKey(Quotient(block, params.len), params.psIndex);
        StreamerInsert(psKey, found);
      }
    }

    /** The second block of a region moves it to the accumulation table; what that evicts is learned. */
    method PromoteRegion(ftKey: nat, r: nat, e: Seen, offset: nat) returns (ghost learned: Option<Footprint>)
      requires Wired() && r < Pow2(REGION_BITS) && ftKey == FtKey(params, r) && e.offset < params.len && offset < params.len
      requires AtOk(params, View().at) && AtKey(params, r) !in View().at.data
      modifies Repr()
      ensures Wired()
      ensures Promoted(params, old(View()), ftKey, r, e, offset, View(), learned)
    {
      hide filterTable.Valid, pht.Valid, Insert, Victim, Erase, Mark, PhtInsert, Hash, Pow2, SetSize;
      ghost var s := View();
      VictimOk(s.at, AtKey(params, r));
      RegionKeysBelow(params, r);
      // the filter entry's key gives back the truncated region number
      HashSelfInverse(r, params.ftIndex);
      var region := RegionKey(ftKey, params.ftIndex);
      var atKey := RegionKey(region, params.atIndex);
      var pattern := seq(params.len, i => i == e.offset);
      assert pattern == Blank(params.len)[e.offset := true];
      var g := Gathered(e.pc, e.offset, pattern);
      AtInsertOk(params, s.at, r, g);
      InsertKeys(s.at, atKey, g);
      var victim := AccumulationInsert(atKey, g);
      var _ := SetPattern(atKey, offset);
      var erased := RegionKey(region, params.ftIndex);
      FilterErase(erased);
      learned := None;
      if victim.valid {
        learned := Some(FootprintOf(params, victim.key, victim.data));
        AtKeyBelow(params, s.at, victim.key);
        InsertInPht(victim.key, victim.data);
      }
    }

    /** access: the outcome is Bingo.Access, where what a trigger access finds is exact. */
    method Access(block: nat, pc: nat)
      returns (ghost found: seq<int>, ghost learned: Option<Footprint>, ghost keys: seq<nat>, ghost matches: seq<Pattern>)
      requires Valid() && block < Pow2(64)
      modifies Repr()
      ensures Valid() && (View(), learned) == Bingo.Access(params, old(View()), block, pc, found)
      ensures !Tracked(params, old(View()), Region(params, block)) ==>
        Looked(params, pcAddressFillLevel, level, View().pht, pc, block, keys, matches, found)
    {
      hide filterTable.Valid, pht.Valid, Insert, Touch, Erase, Victim, Mark, Learn, BuildKey, Looked, Hash, Pow2;
      ghost var s := View();
      found, learned, keys, matches := [], None, [], [];
      var regionOffset := block % params.len;
      var r := Region(params, block);
      RegionKeysBelow(params, r);
      var atKey := RegionKey(r, params.atIndex);
      var success := SetPattern(atKey, regionOffset);
      if !success {
        var ftKey := RegionKey(r, params.ftIndex);
        var entry := FilterFind(ftKey);
        if entry.None? {
          found, keys, matches := StartRegion(block, pc, r, ftKey);
        } else if entry.value.offset != regionOffset {
          learned := PromoteRegion(ftKey, r, entry.value, regionOffset);
        }
      }
      AccessOk(params, s, block, pc, found);
    }

    /** eviction: the footprint of a region being gathered is learned. */
    method Eviction(block: nat) returns (ghost learned: Option<Footprint>)
      requires Valid() && block < Pow2(64)
      modifies Repr()
      ensures Valid() && (View(), learned) == Bingo.Eviction(params, old(View()), block)
    {
      hide filterTable.Valid, pht.Valid, Erase, PhtInsert, Hash, Pow2;
      ghost var s := View();
      var r := Region(params, block);
      RegionKeysBelow(params, r);
      var ftKey := RegionKey(r, params.ftIndex);
      FilterErase(ftKey);
      var atKey := RegionKey(r, params.atIndex);
      var entry := AccumulationErase(atKey);
      learned := None;
      if entry.Some? {
        learned := Some(FootprintOf(params, atKey, entry.value));
        InsertInPht(atKey, entry.value);
      }
      EvictionOk(params, s, block);
    }

    // ---- The streamer ----

    /** PrefetchStreamer::prefetch for one region: `room(n)` is whether the cache takes one more
        prefetch after n. Issues exactly what Streamer.Prefetch says, and erases the entry when done. */
    method PrefetchRegion(key: nat, regionOffset: nat, room: nat -> bool) returns (issued: seq<Request>)
      requires Wired() && regionOffset < params.len && PsOk(params, View().ps)
      modifies pfStreamer.Repr()
      ensures Wired() && PsOk(params, View().ps)
      ensures View() == old(View()).(ps := Streamed(params, old(View()).ps, key, regionOffset, room).0)
      ensures issued == Streamed(params, old(View()).ps, key, regionOffset, room).1
    {
      hide filterTable.Valid, pht.Valid, Touch, Erase, Drain, Nearest, Ok;
      ghost var t := View().ps;
      issued := [];
      var entry := StreamerFind(key);
      if entry.None? {
        return;
      }
      assert key in t.data && entry.value == t.data[key];
      var pattern, done;
      // the accessed block itself needs no prefetch
      pattern, issued, done := DrainRegion(entry.value[regionOffset := 0], regionOffset, room);
      PsRewriteOk(params, t, key, pattern);
      StreamerRewrite(key, pattern);
      if done {
        RewriteThenErase(t, key, pattern);
        PsEraseOk(params, View().ps, key);
        StreamerErase(key);
      }
    }

    lemma ParamsFit()
      requires Wired()
      ensures ParamsOk(params)
    {
    }

    /** prefetch: the region of the accessed block. */
    method PrefetchBlock(block: nat, room: nat -> bool) returns (issued: seq<Request>)
      requires Valid() && block < Pow2(64)
      modifies Repr()
      ensures Valid()
      ensures (View(), issued) == Stream(params, old(View()), block, room)
    {
      hide Wired, Streamed, FtOk, AtOk, PhtOk, PsOk, Pow2, Hash;
      ParamsFit();
      RegionBelow(block, params.len);
      var key := RegionKey(Quotient(block, params.len), params.psIndex);
      issued := PrefetchRegion(key, block % params.len, room);
    }

    method StreamerFind(key: nat) returns (r: Option<seq<int>>)
      requires Wired()
      ensures Wired() && View() == old(View()) && r == Find(View().ps, key)
    {
      r := pfStreamer.Find(key);
    }

    method StreamerRewrite(key: nat, pattern: seq<int>)
      requires Wired() && key in View().ps.data
      modifies pfStreamer.Repr()
      ensures Wired() && View() == old(View()).(ps := Touch(Store(old(View()).ps, key, pattern), key))
    {
      hide filterTable.Valid, pht.Valid, Touch;
      pfStreamer.Rewrite(key, pattern);
    }

    method StreamerErase(key: nat)
      requires Wired()
      modifies pfStreamer.Repr()
      ensures Wired() && View() == old(View()).(ps := Erase(old(View()).ps, key))
    {
      hide filterTable.Valid, pht.Valid, Erase;
      var _ := pfStreamer.Erase(key);
    }
  }

  /** Region r has moved to the accumulation table, and what that evicted is learned. */
  ghost predicate Promoted(p: Params, s: State, ftKey: nat, r: nat, e: Seen, offset: nat, t: State, learned: Option<Footprint>)
    requires e.offset < p.len && offset < p.len && AtOk(p, s.at) && s.pht.sets > 0
  {
    VictimOk(s.at, AtKey(p, r));
    && learned == Leaving(p, s, r)
    && t == State(Erase(s.ft, ftKey), Admit(p, s.at, r, e, offset), Learn(p, s.pht, learned), s.ps)
  }

  /** What a trigger access looked up: exactly the stored patterns it selects, as fill levels. */
  ghost predicate Looked(p: Params, fill: int, level: (nat, nat) -> int, t: Table<Pattern>, pc: nat, address: nat,
                         keys: seq<nat>, matches: seq<Pattern>, found: seq<int>)
  {
    && PhtOk(t, p.w, p.len) && Exact(t, p.w, p.len, pc, address, keys, matches)
    && (forall j :: 0 <= j < |matches| ==> |matches[j]| == p.len)
    && if BuildKey(p.w, pc, address) in t.data then |matches| == 1 && found == Uniform(matches[0], fill)
       else found == VoteOf(level, matches, p.len)
  }

  lemma RegionKeysBelow(p: Params, r: nat)
    requires r < Pow2(REGION_BITS) && p.ftIndex <= 30 && p.atIndex <= 30
    ensures r < Pow2(64) && FtKey(p, r) < Pow2(64) && AtKey(p, r) < Pow2(64)
  {
    hide Pow2, Hash;
    PatternHistoryDevice.Pow2Mono(REGION_BITS, 64);
    HashBelow(r, p.ftIndex, 64);
    HashBelow(r, p.atIndex, 64);
  }

  lemma AtKeyBelow(p: Params, at: Table<Gathered>, k: nat)
    requires AtOk(p, at) && k in at.data && p.ftIndex <= 30 && p.atIndex <= 30
    ensures k < Pow2(64)
  {
    hide Pow2, Hash, Ok;
    HashSelfInverse(k, p.atIndex);
    RegionKeysBelow(p, Hash(k, p.atIndex));
  }

  lemma RewriteThenErase<T>(t: Table<T>, k: nat, v: T)
    requires k in t.data
    ensures Erase(Touch(Store(t, k, v), k), k) == Erase(Touch(t, k), k)
  {
    assert t.data[k := v] - {k} == t.data - {k};
  }

  lemma RegionBelow(block: nat, len: nat)
    requires len > 0 && block < Pow2(64)
    ensures Quotient(block, len) < Pow2(64)
  {
    assert block == len * (block / len) + block % len;
    if block / len > block {
      MulMono(1, len, block / len);
    }
  }

  /** How many of the first n patterns mark block i. */
  function Voters(x: seq<Pattern>, i: nat, n: nat): nat
    requires n <= |x| && forall j :: 0 <= j < |x| ==> i < |x[j]|
  {
    if n == 0 then 0 else Voters(x, i, n - 1) + (if x[n - 1][i] then 1 else 0)
  }

  function Levels(level: (nat, nat) -> int, x: seq<Pattern>, len: nat): seq<int>
    requires forall j :: 0 <= j < |x| ==> |x[j]| == len
  {
    seq(len, i requires 0 <= i < len => level(Voters(x, i, |x|), |x|))
  }

  ghost function VoteOf(level: (nat, nat) -> int, x: seq<Pattern>, len: nat): seq<int>
    requires forall j :: 0 <= j < |x| ==> |x[j]| == len
  {
    if |x| == 0 || forall i :: 0 <= i < len ==> Levels(level, x, len)[i] == 0 then [] else Levels(level, x, len)
  }

  function Uniform(pattern: Pattern, fill: int): seq<int> {
    seq(|pattern|, i requires 0 <= i < |pattern| => if pattern[i] then fill else 0)
  }

  /** The patterns that mark block i. */
  function Markers(x: seq<Pattern>, i: nat): set<nat> {
    set j | 0 <= j < |x| && i < |x[j]| && x[j][i]
  }

  lemma {:induction false} VotersAre(x: seq<Pattern>, i: nat, n: nat)
    requires n <= |x| && forall j :: 0 <= j < |x| ==> i < |x[j]|
    ensures Voters(x, i, n) == |Markers(x[..n], i)|
  {
    if n > 0 {
      VotersAre(x, i, n - 1);
      assert x[..n] == x[..n - 1] + [x[n - 1]];
      assert Markers(x[..n], i) == if x[n - 1][i] then Markers(x[..n - 1], i) + {n - 1} else Markers(x[..n - 1], i);
    }
  }

  /** What a trigger access finds. With an exact match, a level for the blocks of its pattern and for no others;
      otherwise the level that the share of the selected patterns with this block gives, or nothing if no
      block gets a level. */
  lemma FoundMeaning(p: Params, fill: int, level: (nat, nat) -> int, t: Table<Pattern>, pc: nat, address: nat,
                     keys: seq<nat>, matches: seq<Pattern>, found: seq<int>)
    requires Looked(p, fill, level, t, pc, address, keys, matches, found)
    ensures BuildKey(p.w, pc, address) in t.data ==>
      |matches| == 1 && |found| == p.len && forall i :: 0 <= i < p.len ==> found[i] == if matches[0][i] then fill else 0
    ensures BuildKey(p.w, pc, address) !in t.data && found != [] ==>
      |found| == p.len && forall i :: 0 <= i < p.len ==> found[i] == level(|Markers(matches, i)|, |matches|)
    ensures BuildKey(p.w, pc, address) !in t.data && found == [] ==>
      matches == [] || forall i :: 0 <= i < p.len ==> level(|Markers(matches, i)|, |matches|) == 0
  {
    hide BuildKey, PhtOk, Exact, Voters, Markers;
    forall i | 0 <= i < p.len
      ensures Levels(level, matches, p.len)[i] == level(|Markers(matches, i)|, |matches|)
    {
      VotersAre(matches, i, |matches|);
      assert matches[..|matches|] == matches;
    }
  }

  /** Where no vote gives no level, the marks found are blocks that some selected pattern has; with an exact
      match they are the blocks of its footprint. */
  lemma FoundMarks(p: Params, fill: int, level: (nat, nat) -> int, t: Table<Pattern>, pc: nat, address: nat,
                   keys: seq<nat>, matches: seq<Pattern>, found: seq<int>, i: nat)
    requires Looked(p, fill, level, t, pc, address, keys, matches, found) && fill > 0 && forall n: nat :: level(0, n) == 0
    ensures i in Marks(found) ==> exists j :: 0 <= j < |matches| && i < |matches[j]| && matches[j][i]
    ensures BuildKey(p.w, pc, address) in t.data ==> |matches| == 1 && Marks(found) == Bingo.Bits(matches[0])
  {
    hide BuildKey, PhtOk, Exact;
    FoundMeaning(p, fill, level, t, pc, address, keys, matches, found);
    if i in Marks(found) && BuildKey(p.w, pc, address) !in t.data {
      assert Markers(matches, i) != {};
      var j :| j in Markers(matches, i);
    }
  }

  lemma SelectedSize(t: Table<Pattern>, w: Widths, len: nat, pc: nat, address: nat, keys: seq<nat>, matches: seq<Pattern>)
    requires PhtOk(t, w, len) && Exact(t, w, len, pc, address, keys, matches)
    ensures forall j :: 0 <= j < |matches| ==> |matches[j]| == len
    ensures BuildKey(w, pc, address) in t.data ==> |matches| == 1
  {
    hide Pow2, BuildKey, OffsetOf;
  }
}
