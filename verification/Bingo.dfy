/** The life of a region in Bingo (prefetcher/bingo.cc): trigger access, footprint gathering, and the
    pattern history table that learns every gathered footprint. */
module Bingo {
  import opened Counting
  import opened HashIndex
  import opened LruTable
  import opened Footprints
  import opened PatternHistory
  import opened Streamer

  /** FilterTableData: a region with one accessed block. */
  datatype Seen = Seen(pc: nat, offset: nat)

  /** AccumulationTableData: a region whose footprint is being gathered. */
  datatype Gathered = Gathered(pc: nat, offset: nat, pattern: Pattern)

  datatype Footprint = Footprint(pc: nat, address: nat, pattern: Pattern)

  datatype Params = Params(len: nat, ftIndex: nat, atIndex: nat, psIndex: nat, w: Widths)

  datatype State = State(ft: Table<Seen>, at: Table<Gathered>, pht: Table<Pattern>, ps: Table<seq<int>>)

  /** The tables keep 37 bits of a region number. */
  const REGION_BITS := 37

  function Region(p: Params, block: nat): (r: nat)
    requires p.len > 0
    ensures r < Pow2(REGION_BITS)
  {
    Quotient(block, p.len) % Pow2(REGION_BITS)
  }

  function FtKey(p: Params, r: nat): nat { Hash(r, p.ftIndex) }

  function AtKey(p: Params, r: nat): nat { Hash(r, p.atIndex) }

  /** The access that insert_in_pht reconstructs from an entry of the accumulation table. */
  function FootprintOf(p: Params, k: nat, g: Gathered): Footprint {
    Footprint(g.pc, Join(Hash(k, p.atIndex), g.offset, p.len), g.pattern)
  }

  /** The region a footprint is of. */
  function RegionOf(p: Params, f: Footprint): nat
    requires p.len > 0
  {
    Quotient(f.address, p.len)
  }

  function Learn(p: Params, pht: Table<Pattern>, learned: Option<Footprint>): Table<Pattern>
    requires pht.sets > 0 && (learned.Some? ==> |learned.value.pattern| > 0)
  {
    if learned.None? then pht else PhtInsert(pht, p.w, learned.value.pc, learned.value.address, learned.value.pattern)
  }

  // ---- Steps ----

  function Blank(len: nat): Pattern { seq(len, _ => false) }

  /** set_pattern of a region being gathered. */
  function Mark(at: Table<Gathered>, k: nat, offset: nat): Table<Gathered>
    requires k in at.data && offset < |at.data[k].pattern|
  {
    Touch(Store(at, k, at.data[k].(pattern := at.data[k].pattern[offset := true])), k)
  }

  /** A region in neither table: its trigger access. `found` is what find_in_pht voted for. */
  function Start(p: Params, s: State, block: nat, pc: nat, found: seq<int>): State
    requires p.len > 0 && s.ft.sets > 0 && s.ps.sets > 0
  {
    var key := BuildKey(p.w, pc, block);
    State(Insert(s.ft, FtKey(p, Region(p, block)), Seen(pc, block % p.len)), s.at,
          if key in s.pht.data then Touch(s.pht, key) else s.pht,
          if found == [] then s.ps else Insert(s.ps, PsKey(p, Quotient(block, p.len)), found))
  }

  /** What the accumulation table gives up for region r. */
  function Leaving(p: Params, s: State, r: nat): Option<Footprint>
    requires s.at.sets > 0
    requires Victim(s.at, AtKey(p, r)).Some? ==> Victim(s.at, AtKey(p, r)).value in s.at.data
  {
    var victim := Victim(s.at, AtKey(p, r));
    if victim.None? then None else Some(FootprintOf(p, victim.value, s.at.data[victim.value]))
  }

  /** The accumulation table with region r, which the filter table has seen, and one more block. */
  function Admit(p: Params, at: Table<Gathered>, r: nat, e: Seen, offset: nat): Table<Gathered>
    requires e.offset < p.len && offset < p.len && at.sets > 0
  {
    var k := AtKey(p, r);
    Mark(Insert(at, k, Gathered(e.pc, e.offset, Blank(p.len)[e.offset := true])), k, offset)
  }

  /** The second block of a region: from the filter table to the accumulation table. */
  function Promote(p: Params, s: State, r: nat, offset: nat): (State, Option<Footprint>)
    requires p.len > 0 && offset < p.len && s.ft.sets > 0 && s.at.sets > 0 && s.pht.sets > 0
    requires Victim(s.at, AtKey(p, r)).Some? ==>
      Victim(s.at, AtKey(p, r)).value in s.at.data && |s.at.data[Victim(s.at, AtKey(p, r)).value].pattern| > 0
    requires FtKey(p, r) in s.ft.data && s.ft.data[FtKey(p, r)].offset < p.len
  {
    var learned := Leaving(p, s, r);
    (State(Erase(Touch(s.ft, FtKey(p, r)), FtKey(p, r)), Admit(p, s.at, r, s.ft.data[FtKey(p, r)], offset),
           Learn(p, s.pht, learned), s.ps), learned)
  }

  /** access */
  function Access(p: Params, s: State, block: nat, pc: nat, found: seq<int>): (State, Option<Footprint>)
    requires LifeOk(p, s)
  {
    var r, offset := Region(p, block), block % p.len;
    if AtKey(p, r) in s.at.data then (s.(at := Mark(s.at, AtKey(p, r), offset)), None)
    else if FtKey(p, r) !in s.ft.data then (Start(p, s, block, pc, found), None)
    else if s.ft.data[FtKey(p, r)].offset == offset then (s.(ft := Touch(s.ft, FtKey(p, r))), None)
    else
      VictimOk(s.at, AtKey(p, r));
      Promote(p, s, r, offset)
  }

  /** eviction */
  function Eviction(p: Params, s: State, block: nat): (State, Option<Footprint>)
    requires LifeOk(p, s)
  {
    var r := Region(p, block);
    var k := AtKey(p, r);
    var learned := if k in s.at.data then Some(FootprintOf(p, k, s.at.data[k])) else None;
    (State(Erase(s.ft, FtKey(p, r)), Erase(s.at, k), Learn(p, s.pht, learned), s.ps), learned)
  }

  /** The key of a region in the streamer. */
  function PsKey(p: Params, q: nat): nat { Hash(q, p.psIndex) }

  /** The streamer after a call for one region, and what it issued. */
  function Streamed(p: Params, ps: Table<seq<int>>, key: nat, offset: nat, room: nat -> bool): (Table<seq<int>>, seq<Request>)
    requires offset < p.len && PsOk(p, ps)
  {
    if key !in ps.data then (ps, [])
    else
      var (after, requests) := Prefetch(ps.data[key], offset, room);
      (if after.None? then Erase(Touch(ps, key), key) else Touch(Store(ps, key, after.value), key), requests)
  }

  /** prefetch, called for an accessed block; `room(n)` says whether the cache takes one more after n. */
  function Stream(p: Params, s: State, block: nat, room: nat -> bool): (State, seq<Request>)
    requires LifeOk(p, s)
  {
    var after := Streamed(p, s.ps, PsKey(p, Quotient(block, p.len)), block % p.len, room);
    (s.(ps := after.0), after.1)
  }

  // ---- Invariants ----

  ghost predicate ParamsOk(p: Params) {
    p.len > 0 && p.len == Pow2(p.w.minAddr) && p.ftIndex <= 30 && p.atIndex <= 30 && p.psIndex <= 30
  }

  /** A filter entry is of a 37-bit region. */
  ghost predicate FtOk(p: Params, ft: Table<Seen>) {
    Ok(ft) && forall k :: k in ft.data ==> Hash(k, p.ftIndex) < Pow2(REGION_BITS) && ft.data[k].offset < p.len
  }

  ghost predicate AtOk(p: Params, at: Table<Gathered>) {
    Ok(at) && forall k :: k in at.data ==>
      Hash(k, p.atIndex) < Pow2(REGION_BITS) && at.data[k].offset < p.len && |at.data[k].pattern| == p.len
  }

  ghost predicate PsOk(p: Params, ps: Table<seq<int>>) {
    Ok(ps) && forall k :: k in ps.data ==> |ps.data[k]| == p.len
  }

  /** No region is in both tables. */
  ghost predicate Apart(p: Params, s: State) {
    forall r: nat :: !(FtKey(p, r) in s.ft.data && AtKey(p, r) in s.at.data)
  }

  ghost predicate LifeOk(p: Params, s: State) {
    ParamsOk(p) && FtOk(p, s.ft) && AtOk(p, s.at) && PhtOk(s.pht, p.w, p.len) && PsOk(p, s.ps) && Apart(p, s)
  }

  // ---- Table facts ----

  lemma FtInsertOk(p: Params, ft: Table<Seen>, r: nat, e: Seen)
    requires FtOk(p, ft) && r < Pow2(REGION_BITS) && e.offset < p.len
    ensures FtOk(p, Insert(ft, FtKey(p, r), e))
    ensures forall k :: k in Insert(ft, FtKey(p, r), e).data ==> k in ft.data || k == FtKey(p, r)
  {
    hide Pow2, Hash, Insert;
    InsertOk(ft, FtKey(p, r), e);
    InsertKeys(ft, FtKey(p, r), e);
    HashSelfInverse(r, p.ftIndex);
  }

  lemma AtInsertOk(p: Params, at: Table<Gathered>, r: nat, g: Gathered)
    requires AtOk(p, at) && r < Pow2(REGION_BITS) && g.offset < p.len && |g.pattern| == p.len
    ensures AtOk(p, Insert(at, AtKey(p, r), g))
    ensures forall k :: k in Insert(at, AtKey(p, r), g).data ==> k in at.data || k == AtKey(p, r)
  {
    hide Pow2, Hash, Insert;
    InsertOk(at, AtKey(p, r), g);
    InsertKeys(at, AtKey(p, r), g);
    HashSelfInverse(r, p.atIndex);
  }

  lemma MarkOk(p: Params, at: Table<Gathered>, k: nat, offset: nat)
    requires AtOk(p, at) && k in at.data && offset < p.len
    ensures AtOk(p, Mark(at, k, offset)) && Mark(at, k, offset).data.Keys == at.data.Keys
  {
    hide Pow2, Hash;
    StoreOk(at, k, at.data[k].(pattern := at.data[k].pattern[offset := true]));
    TouchOk(Store(at, k, at.data[k].(pattern := at.data[k].pattern[offset := true])), k);
  }

  lemma PsInsertOk(p: Params, ps: Table<seq<int>>, k: nat, v: seq<int>)
    requires PsOk(p, ps) && |v| == p.len
    ensures PsOk(p, Insert(ps, k, v))
  {
    InsertOk(ps, k, v);
    InsertKeys(ps, k, v);
  }

  lemma PsRewriteOk(p: Params, t: Table<seq<int>>, k: nat, v: seq<int>)
    requires PsOk(p, t) && k in t.data && |v| == p.len
    ensures PsOk(p, Touch(Store(t, k, v), k))
  {
    hide Ok, Without;
    StoreOk(t, k, v);
    TouchOk(Store(t, k, v), k);
  }

  lemma PsEraseOk(p: Params, t: Table<seq<int>>, k: nat)
    requires PsOk(p, t)
    ensures PsOk(p, Erase(t, k))
  {
    hide Ok, Without;
    EraseOk(t, k);
  }

  lemma StreamOk(p: Params, s: State, block: nat, room: nat -> bool)
    requires LifeOk(p, s)
    ensures LifeOk(p, Stream(p, s, block, room).0)
  {
    hide Prefetch, Hash, Ok, Touch, Erase, FtOk, AtOk, PhtOk;
    var k, offset := PsKey(p, Quotient(block, p.len)), block % p.len;
    if k in s.ps.data {
      var after := Prefetch(s.ps.data[k], offset, room).0;
      if after.Some? {
        PsRewriteOk(p, s.ps, k, after.value);
      } else {
        PsTouchOk(p, s.ps, k);
        PsEraseOk(p, Touch(s.ps, k), k);
      }
    }
  }

  lemma PsTouchOk(p: Params, t: Table<seq<int>>, k: nat)
    requires PsOk(p, t) && k in t.data
    ensures PsOk(p, Touch(t, k))
  {
    TouchOk(t, k);
  }

  lemma LearnOk(p: Params, pht: Table<Pattern>, learned: Option<Footprint>)
    requires ParamsOk(p) && PhtOk(pht, p.w, p.len) && (learned.Some? ==> |learned.value.pattern| == p.len)
    ensures PhtOk(Learn(p, pht, learned), p.w, p.len)
  {
    if learned.Some? {
      PhtInsertOk(pht, p.w, p.len, learned.value.pc, learned.value.address, learned.value.pattern);
    }
  }

  // ---- No region is in both tables ----

  lemma AccessOk(p: Params, s: State, block: nat, pc: nat, found: seq<int>)
    requires LifeOk(p, s) && (found == [] || |found| == p.len)
    ensures LifeOk(p, Access(p, s, block, pc, found).0)
  {
    hide Pow2, Hash, Insert, Touch, Erase, BuildKey, Mark;
    var r, offset := Region(p, block), block % p.len;
    if AtKey(p, r) in s.at.data {
      MarkOk(p, s.at, AtKey(p, r), offset);
    } else if FtKey(p, r) !in s.ft.data {
      TriggerOk(p, s, block, pc, found);
    } else if s.ft.data[FtKey(p, r)].offset == offset {
      FtTouchOk(p, s.ft, FtKey(p, r));
    } else {
      PromoteOk(p, s, r, offset);
    }
  }

  lemma FtTouchOk(p: Params, ft: Table<Seen>, k: nat)
    requires FtOk(p, ft) && k in ft.data
    ensures FtOk(p, Touch(ft, k)) && Touch(ft, k).data == ft.data
  {
    hide Hash, Pow2;
    TouchOk(ft, k);
  }

  lemma TriggerOk(p: Params, s: State, block: nat, pc: nat, found: seq<int>)
    requires LifeOk(p, s) && (found == [] || |found| == p.len)
    requires AtKey(p, Region(p, block)) !in s.at.data
    ensures LifeOk(p, Start(p, s, block, pc, found))
  {
    hide Pow2, Hash, Insert, Touch, BuildKey;
    var r, key := Region(p, block), BuildKey(p.w, pc, block);
    FtInsertOk(p, s.ft, r, Seen(pc, block % p.len));
    if key in s.pht.data {
      PhtTouchOk(s.pht, p.w, p.len, key);
    }
    if found != [] {
      PsInsertOk(p, s.ps, PsKey(p, Quotient(block, p.len)), found);
    }
    forall x: nat | FtKey(p, x) == FtKey(p, r) ensures x == r {
      HashInjective(x, r, p.ftIndex);
    }
  }

  lemma AdmitOk(p: Params, at: Table<Gathered>, r: nat, e: Seen, offset: nat)
    requires AtOk(p, at) && r < Pow2(REGION_BITS) && e.offset < p.len && offset < p.len
    ensures AtOk(p, Admit(p, at, r, e, offset))
    ensures forall k :: k in Admit(p, at, r, e, offset).data ==> k in at.data || k == AtKey(p, r)
  {
    hide Pow2, Hash, Insert, Mark;
    var k, g := AtKey(p, r), Gathered(e.pc, e.offset, Blank(p.len)[e.offset := true]);
    AtInsertOk(p, at, r, g);
    InsertKeys(at, k, g);
    MarkOk(p, Insert(at, k, g), k, offset);
  }

  lemma FtEraseOk(p: Params, ft: Table<Seen>, k: nat)
    requires FtOk(p, ft)
    ensures FtOk(p, Erase(ft, k)) && Erase(ft, k).data == ft.data - {k}
  {
    hide Hash, Pow2;
    EraseOk(ft, k);
  }

  lemma PromoteOk(p: Params, s: State, r: nat, offset: nat)
    requires LifeOk(p, s) && offset < p.len && r < Pow2(REGION_BITS) && FtKey(p, r) in s.ft.data
    ensures Victim(s.at, AtKey(p, r)).Some? ==> Victim(s.at, AtKey(p, r)).value in s.at.data
    ensures LifeOk(p, Promote(p, s, r, offset).0)
  {
    hide Pow2, Hash, Victim, Admit, Learn, Touch, Erase, SetSize;
    LeavingOk(p, s, r);
    AdmitOk(p, s.at, r, s.ft.data[FtKey(p, r)], offset);
    FtTouchOk(p, s.ft, FtKey(p, r));
    FtEraseOk(p, Touch(s.ft, FtKey(p, r)), FtKey(p, r));
    LearnOk(p, s.pht, Leaving(p, s, r));
    forall x: nat | AtKey(p, x) == AtKey(p, r) ensures x == r {
      HashInjective(x, r, p.atIndex);
    }
  }

  lemma LeavingOk(p: Params, s: State, r: nat)
    requires LifeOk(p, s)
    ensures var v := Victim(s.at, AtKey(p, r)); v.Some? ==> v.value in s.at.data && |s.at.data[v.value].pattern| == p.len
    ensures Leaving(p, s, r).Some? ==> |Leaving(p, s, r).value.pattern| == p.len
  {
    VictimOk(s.at, AtKey(p, r));
  }

  lemma EvictionOk(p: Params, s: State, block: nat)
    requires LifeOk(p, s)
    ensures LifeOk(p, Eviction(p, s, block).0)
  {
    hide Pow2, Hash, Learn;
    var r := Region(p, block);
    EraseOk(s.ft, FtKey(p, r));
    EraseOk(s.at, AtKey(p, r));
    LearnOk(p, s.pht, Eviction(p, s, block).1);
  }

  // ---- What the pattern history learns ----

  /** A load that the prefetcher sees, with what the lookup for it found; a block leaving the cache; or a
      call of the streamer for an accessed block. */
  datatype Event =
    | Load(block: nat, pc: nat, found: seq<int>)
    | Evict(block: nat)
    | Prefetches(block: nat, room: nat -> bool)

  ghost predicate EventOk(p: Params, e: Event) { e.Load? ==> e.found == [] || |e.found| == p.len }

  function Step(p: Params, s: State, e: Event): (State, Option<Footprint>)
    requires LifeOk(p, s)
  {
    match e
    case Load(block, pc, found) => Access(p, s, block, pc, found)
    case Evict(block) => Eviction(p, s, block)
    case Prefetches(block, room) => (Stream(p, s, block, room).0, None)
  }

  lemma StepOk(p: Params, s: State, e: Event)
    requires LifeOk(p, s) && EventOk(p, e)
    ensures LifeOk(p, Step(p, s, e).0)
  {
    hide LifeOk, Access, Eviction, Stream;
    match e
    case Load(block, pc, found) => AccessOk(p, s, block, pc, found);
    case Evict(block) => EvictionOk(p, s, block);
    case Prefetches(block, room) => StreamOk(p, s, block, room);
  }

  /** The table key of a footprint is recovered from its address. */
  lemma FootprintKey(p: Params, at: Table<Gathered>, k: nat)
    requires ParamsOk(p) && AtOk(p, at) && k in at.data
    ensures var f := FootprintOf(p, k, at.data[k]); AtKey(p, RegionOf(p, f)) == k && |f.pattern| == p.len
  {
    hide Hash, Pow2, Ok, Join;
    HashSelfInverse(k, p.atIndex);
    Pair(Hash(k, p.atIndex), at.data[k].offset, 0, 0, p.len);
  }

  /** Exactly the regions that leave the accumulation table are learned, each once, with the footprint
      they had; and the pattern history changes by nothing else. */
  ghost predicate LearnsExactly(p: Params, s: State, t: State, learned: Option<Footprint>)
    requires LifeOk(p, s)
  {
    if learned.None? then s.at.data.Keys <= t.at.data.Keys && t.pht.data == s.pht.data
    else
      var k := AtKey(p, RegionOf(p, learned.value));
      && s.at.data.Keys - t.at.data.Keys == {k}
      && k in s.at.data && learned.value == FootprintOf(p, k, s.at.data[k])
      && |learned.value.pattern| == p.len
      && t.pht == PhtInsert(s.pht, p.w, learned.value.pc, learned.value.address, learned.value.pattern)
  }

  lemma StepLearns(p: Params, s: State, e: Event)
    requires LifeOk(p, s)
    ensures LearnsExactly(p, s, Step(p, s, e).0, Step(p, s, e).1)
  {
    hide Hash, Pow2, Ok, BuildKey, PhtOk, PhtInsert;
    match e
    case Load(block, pc, found) =>
      var r, offset := Region(p, block), block % p.len;
      if AtKey(p, r) !in s.at.data && FtKey(p, r) in s.ft.data && s.ft.data[FtKey(p, r)].offset != offset {
        PromoteLearns(p, s, r, offset);
      }
    case Evict(block) =>
      var k := AtKey(p, Region(p, block));
      if k in s.at.data {
        FootprintKey(p, s.at, k);
      }
    case Prefetches(block, room) =>
  }

  lemma AtTableOk(p: Params, at: Table<Gathered>)
    requires AtOk(p, at)
    ensures Ok(at)
  {
  }

  /** Admitting a region makes room by at most the one victim. */
  lemma AdmitKeys(p: Params, at: Table<Gathered>, r: nat, e: Seen, offset: nat)
    requires AtOk(p, at) && AtKey(p, r) !in at.data && e.offset < p.len && offset < p.len
    ensures var v := Victim(at, AtKey(p, r));
      Admit(p, at, r, e, offset).data.Keys == (if v.Some? then at.data.Keys - {v.value} else at.data.Keys) + {AtKey(p, r)}
  {
    hide Hash, Pow2, Victim, SetSize;
  }

  lemma PromoteLearns(p: Params, s: State, r: nat, offset: nat)
    requires LifeOk(p, s) && offset < p.len && r < Pow2(REGION_BITS)
    requires AtKey(p, r) !in s.at.data && FtKey(p, r) in s.ft.data
    ensures Victim(s.at, AtKey(p, r)).Some? ==> Victim(s.at, AtKey(p, r)).value in s.at.data
    ensures LearnsExactly(p, s, Promote(p, s, r, offset).0, Promote(p, s, r, offset).1)
  {
    hide Hash, Pow2, Victim, SetSize, PhtInsert, Admit, Touch, Erase, Ok, PhtOk, PsOk, Apart;
    AtTableOk(p, s.at);
    VictimOk(s.at, AtKey(p, r));
    var v := Victim(s.at, AtKey(p, r));
    AdmitKeys(p, s.at, r, s.ft.data[FtKey(p, r)], offset);
    if v.Some? {
      FootprintKey(p, s.at, v.value);
    }
  }

  // ---- Footprints are generations ----

  /** The trigger access of a region and the blocks accessed since. */
  datatype Generation = Generation(pc: nat, offset: nat, touched: set<nat>)

  function Bits(pattern: Pattern): set<nat> {
    set i | 0 <= i < |pattern| && pattern[i]
  }

  predicate Tracked(p: Params, s: State, r: nat) {
    FtKey(p, r) in s.ft.data || AtKey(p, r) in s.at.data
  }

  /** A record kept beside the prefetcher: a load of an untracked region starts its next generation. */
  function Observe(p: Params, s: State, gen: map<nat, Generation>, e: Event): map<nat, Generation>
    requires p.len > 0
  {
    match e
    case Evict(_) => gen
    case Prefetches(_, _) => gen
    case Load(block, pc, _) =>
      var r, offset := Region(p, block), block % p.len;
      if Tracked(p, s, r) && r in gen then gen[r := gen[r].(touched := gen[r].touched + {offset})]
      else gen[r := Generation(pc, offset, {offset})]
  }

  predicate Describes(g: Generation, a: Gathered) {
    g.pc == a.pc && g.offset == a.offset && g.touched == Bits(a.pattern)
  }

  ghost predicate FtGen(p: Params, ft: map<nat, Seen>, gen: map<nat, Generation>) {
    forall r: nat :: FtKey(p, r) in ft ==>
      r in gen && gen[r] == Generation(ft[FtKey(p, r)].pc, ft[FtKey(p, r)].offset, {ft[FtKey(p, r)].offset})
  }

  ghost predicate AtGen(p: Params, at: map<nat, Gathered>, gen: map<nat, Generation>) {
    forall r: nat :: AtKey(p, r) in at ==> r in gen && Describes(gen[r], at[AtKey(p, r)])
  }

  ghost predicate GenOk(p: Params, s: State, gen: map<nat, Generation>) {
    FtGen(p, s.ft.data, gen) && AtGen(p, s.at.data, gen)
  }

  /** Apart from `k`, `b` has no other entries than `a`. */
  ghost predicate WithinBut<T(!new)>(a: map<nat, T>, b: map<nat, T>, k: nat) {
    forall x :: x in b && x != k ==> x in a && b[x] == a[x]
  }

  lemma FtGenUpdate(p: Params, a: map<nat, Seen>, b: map<nat, Seen>, gen: map<nat, Generation>, r: nat, g: Generation)
    requires FtGen(p, a, gen) && WithinBut(a, b, FtKey(p, r))
    requires FtKey(p, r) in b ==> var e := b[FtKey(p, r)]; g == Generation(e.pc, e.offset, {e.offset})
    ensures FtGen(p, b, gen[r := g])
  {
    hide Hash;
    forall x: nat | FtKey(p, x) in b && x != r ensures FtKey(p, x) in a && b[FtKey(p, x)] == a[FtKey(p, x)] {
      HashInjective(x, r, p.ftIndex);
    }
  }

  lemma AtGenUpdate(p: Params, a: map<nat, Gathered>, b: map<nat, Gathered>, gen: map<nat, Generation>, r: nat, g: Generation)
    requires AtGen(p, a, gen) && WithinBut(a, b, AtKey(p, r))
    requires AtKey(p, r) in b ==> Describes(g, b[AtKey(p, r)])
    ensures AtGen(p, b, gen[r := g])
  {
    hide Hash, Describes;
    forall x: nat | AtKey(p, x) in b && x != r ensures AtKey(p, x) in a && b[AtKey(p, x)] == a[AtKey(p, x)] {
      HashInjective(x, r, p.atIndex);
    }
  }

  lemma BitsMark(pattern: Pattern, offset: nat)
    requires offset < |pattern|
    ensures Bits(pattern[offset := true]) == Bits(pattern) + {offset}
  {
  }

  lemma BitsBlank(len: nat)
    ensures Bits(Blank(len)) == {}
  {
  }

  /** Every learned footprint is exactly the generation of its region. */
  lemma LearnedIsGeneration(p: Params, s: State, gen: map<nat, Generation>, e: Event)
    requires LifeOk(p, s) && GenOk(p, s, gen) && Step(p, s, e).1.Some?
    ensures var f := Step(p, s, e).1.value;
      var r := RegionOf(p, f);
      r in gen && f.pc == gen[r].pc && f.address % p.len == gen[r].offset && Bits(f.pattern) == gen[r].touched
  {
    hide Hash, Pow2, Step, Ok, PhtInsert;
    StepLearns(p, s, e);
    var f := Step(p, s, e).1.value;
    var k := AtKey(p, RegionOf(p, f));
    Pair(Hash(k, p.atIndex), s.at.data[k].offset, 0, 0, p.len);
  }

  lemma GatherObserved(p: Params, s: State, gen: map<nat, Generation>, block: nat, pc: nat, found: seq<int>)
    requires LifeOk(p, s) && GenOk(p, s, gen) && AtKey(p, Region(p, block)) in s.at.data
    ensures GenOk(p, Access(p, s, block, pc, found).0, Observe(p, s, gen, Load(block, pc, found)))
  {
    hide Hash, Pow2, Ok, PhtOk, Touch, FtGen, AtGen;
    var r, offset := Region(p, block), block % p.len;
    var k := AtKey(p, r);
    GenKnown(p, s, gen, r);
    var g := gen[r].(touched := gen[r].touched + {offset});
    BitsMark(s.at.data[k].pattern, offset);
    var at := Mark(s.at, k, offset);
    MarkData(s.at, k, offset);
    AtGenUpdate(p, s.at.data, at.data, gen, r, g);
    FtGenUpdate(p, s.ft.data, s.ft.data, gen, r, g);
  }

  lemma MarkData(at: Table<Gathered>, k: nat, offset: nat)
    requires k in at.data && offset < |at.data[k].pattern|
    ensures Mark(at, k, offset).data == at.data[k := at.data[k].(pattern := at.data[k].pattern[offset := true])]
  {
  }

  lemma GenKnown(p: Params, s: State, gen: map<nat, Generation>, r: nat)
    requires GenOk(p, s, gen) && Tracked(p, s, r)
    ensures r in gen
    ensures AtKey(p, r) in s.at.data ==> Describes(gen[r], s.at.data[AtKey(p, r)])
    ensures FtKey(p, r) in s.ft.data ==>
      var e := s.ft.data[FtKey(p, r)]; gen[r] == Generation(e.pc, e.offset, {e.offset})
  {
  }

  lemma StartObserved(p: Params, s: State, gen: map<nat, Generation>, block: nat, pc: nat, found: seq<int>)
    requires LifeOk(p, s) && GenOk(p, s, gen) && !Tracked(p, s, Region(p, block))
    ensures GenOk(p, Access(p, s, block, pc, found).0, Observe(p, s, gen, Load(block, pc, found)))
  {
    hide Hash, Pow2, PhtOk, Insert, BuildKey, FtGen, AtGen;
    var r, offset := Region(p, block), block % p.len;
    var g := Generation(pc, offset, {offset});
    InsertKeys(s.ft, FtKey(p, r), Seen(pc, offset));
    FtGenUpdate(p, s.ft.data, Insert(s.ft, FtKey(p, r), Seen(pc, offset)).data, gen, r, g);
    AtGenUpdate(p, s.at.data, s.at.data, gen, r, g);
  }

  lemma PromoteObserved(p: Params, s: State, gen: map<nat, Generation>, block: nat, pc: nat, found: seq<int>)
    requires LifeOk(p, s) && GenOk(p, s, gen) && AtKey(p, Region(p, block)) !in s.at.data
    requires FtKey(p, Region(p, block)) in s.ft.data
    ensures GenOk(p, Access(p, s, block, pc, found).0, Observe(p, s, gen, Load(block, pc, found)))
  {
    hide Hash, Pow2, PhtOk, Insert, Victim, Learn, SetSize, FtGen, AtGen, Admit, Touch;
    var r, offset := Region(p, block), block % p.len;
    var e := s.ft.data[FtKey(p, r)];
    GenKnown(p, s, gen, r);
    LeavingOk(p, s, r);
    FtTouchOk(p, s.ft, FtKey(p, r));
    var g := gen[r].(touched := gen[r].touched + {offset});
    if e.offset == offset {
      assert {offset} + {offset} == {offset};
      FtGenUpdate(p, s.ft.data, s.ft.data, gen, r, g);
      AtGenUpdate(p, s.at.data, s.at.data, gen, r, g);
    } else {
      FtEraseOk(p, Touch(s.ft, FtKey(p, r)), FtKey(p, r));
      FtGenUpdate(p, s.ft.data, s.ft.data - {FtKey(p, r)}, gen, r, g);
      AdmitDescribes(p, s.at, r, e, offset);
      AtGenUpdate(p, s.at.data, Admit(p, s.at, r, e, offset).data, gen, r, g);
    }
  }

  /** The admitted region starts with its two blocks. */
  lemma AdmitDescribes(p: Params, at: Table<Gathered>, r: nat, e: Seen, offset: nat)
    requires AtOk(p, at) && e.offset < p.len && offset < p.len
    ensures var k, t := AtKey(p, r), Admit(p, at, r, e, offset);
      && WithinBut(at.data, t.data, k) && k in t.data
      && Describes(Generation(e.pc, e.offset, {e.offset} + {offset}), t.data[k])
  {
    hide Hash, Pow2, Insert;
    var k, pattern := AtKey(p, r), Blank(p.len)[e.offset := true];
    InsertKeys(at, k, Gathered(e.pc, e.offset, pattern));
    MarkData(Insert(at, k, Gathered(e.pc, e.offset, pattern)), k, offset);
    BitsBlank(p.len);
    BitsMark(Blank(p.len), e.offset);
    BitsMark(pattern, offset);
  }

  lemma EvictObserved(p: Params, s: State, gen: map<nat, Generation>, block: nat)
    requires LifeOk(p, s) && GenOk(p, s, gen)
    ensures GenOk(p, Eviction(p, s, block).0, Observe(p, s, gen, Evict(block)))
  {
    hide Hash, Pow2, Ok, PhtOk, Learn, AtOk, FtOk, PsOk;
    var t := Eviction(p, s, block).0;
    assert t.ft.data == s.ft.data - {FtKey(p, Region(p, block))};
    assert t.at.data == s.at.data - {AtKey(p, Region(p, block))};
  }

  lemma StepObserved(p: Params, s: State, gen: map<nat, Generation>, e: Event)
    requires LifeOk(p, s) && GenOk(p, s, gen)
    ensures GenOk(p, Step(p, s, e).0, Observe(p, s, gen, e))
  {
    hide Hash, Pow2, Ok, PhtOk, Learn, Access, Streamed;
    match e
    case Load(block, pc, found) =>
      var r := Region(p, block);
      if AtKey(p, r) in s.at.data {
        GatherObserved(p, s, gen, block, pc, found);
      } else if FtKey(p, r) !in s.ft.data {
        StartObserved(p, s, gen, block, pc, found);
      } else {
        PromoteObserved(p, s, gen, block, pc, found);
      }
    case Evict(block) =>
      EvictObserved(p, s, gen, block);
    case Prefetches(block, room) =>
  }

  // ---- Runs ----

  ghost predicate EventsOk(p: Params, events: seq<Event>) {
    forall i :: 0 <= i < |events| ==> EventOk(p, events[i])
  }

  /** The state after a run, the generations observed, and every footprint learned, in order. */
  ghost function Run(p: Params, s: State, gen: map<nat, Generation>, events: seq<Event>): (State, map<nat, Generation>, seq<Footprint>)
    requires LifeOk(p, s) && EventsOk(p, events)
    decreases |events|
  {
    if |events| == 0 then (s, gen, [])
    else
      StepOk(p, s, events[0]);
      var (t, learned) := Step(p, s, events[0]);
      var r := Run(p, t, Observe(p, s, gen, events[0]), events[1..]);
      (r.0, r.1, (if learned.Some? then [learned.value] else []) + r.2)
  }

  /** Over every run the tables stay apart and describe the generations observed. */
  lemma {:induction false} RunKeeps(p: Params, s: State, gen: map<nat, Generation>, events: seq<Event>)
    requires LifeOk(p, s) && GenOk(p, s, gen) && EventsOk(p, events)
    ensures LifeOk(p, Run(p, s, gen, events).0) && GenOk(p, Run(p, s, gen, events).0, Run(p, s, gen, events).1)
    decreases |events|
  {
    hide FtOk, AtOk, PhtOk, PsOk, Apart, GenOk, Step, Observe;
    if |events| > 0 {
      StepOk(p, s, events[0]);
      StepObserved(p, s, gen, events[0]);
      RunKeeps(p, Step(p, s, events[0]).0, Observe(p, s, gen, events[0]), events[1..]);
    }
  }

  /** How many regions a run moves into the accumulation table. */
  ghost function Admissions(p: Params, s: State, events: seq<Event>): nat
    requires LifeOk(p, s) && EventsOk(p, events)
    decreases |events|
  {
    if |events| == 0 then 0
    else
      StepOk(p, s, events[0]);
      var t := Step(p, s, events[0]).0;
      |t.at.data.Keys - s.at.data.Keys| + Admissions(p, t, events[1..])
  }

  /** Every footprint is learned exactly once or is still being gathered. */
  lemma {:induction false} EveryFootprintOnce(p: Params, s: State, gen: map<nat, Generation>, events: seq<Event>)
    requires LifeOk(p, s) && EventsOk(p, events)
    ensures var (t, _, learned) := Run(p, s, gen, events);
      |t.at.data.Keys| + |learned| == |s.at.data.Keys| + Admissions(p, s, events)
    decreases |events|
  {
    hide FtOk, AtOk, PhtOk, PsOk, Apart, Step, Observe;
    if |events| > 0 {
      StepOk(p, s, events[0]);
      StepBalance(p, s, events[0]);
      EveryFootprintOnce(p, Step(p, s, events[0]).0, Observe(p, s, gen, events[0]), events[1..]);
    }
  }

  lemma StepBalance(p: Params, s: State, e: Event)
    requires LifeOk(p, s)
    ensures var (t, learned) := Step(p, s, e);
      |t.at.data.Keys| + (if learned.Some? then 1 else 0) == |s.at.data.Keys| + |t.at.data.Keys - s.at.data.Keys|
  {
    hide Step, PhtOk, FtOk, AtOk, PsOk, PhtInsert;
    StepLearns(p, s, e);
    var a, b := s.at.data.Keys, Step(p, s, e).0.at.data.Keys;
    DifferenceSizes(a, b);
    if Step(p, s, e).1.None? {
      assert a - b == {};
    }
  }

  lemma DifferenceSizes(a: set<nat>, b: set<nat>)
    ensures |b| + |a - b| == |a| + |b - a|
  {
    assert b == (b - a) + (a * b);
    assert a == (a - b) + (a * b);
  }

  // ---- The generations that end, in order ----

  datatype Ended = Ended(region: nat, g: Generation)

  /** The generation whose entry has left the accumulation table between two states. */
  ghost function Leaves(p: Params, s: State, gen: map<nat, Generation>, t: State): seq<Ended> {
    var gone := s.at.data.Keys - t.at.data.Keys;
    if gone == {} then []
    else
      var k :| k in gone;
      var r := Hash(k, p.atIndex);
      if r in gen then [Ended(r, gen[r])] else []
  }

  /** All the generations that leave the accumulation table in a run, in the order in which they leave. */
  ghost function EndedIn(p: Params, s: State, gen: map<nat, Generation>, events: seq<Event>): seq<Ended>
    requires LifeOk(p, s) && EventsOk(p, events)
    decreases |events|
  {
    if |events| == 0 then []
    else
      StepOk(p, s, events[0]);
      var t := Step(p, s, events[0]).0;
      Leaves(p, s, gen, t) + EndedIn(p, t, Observe(p, s, gen, events[0]), events[1..])
  }

  /** The footprint is that of the generation. */
  ghost predicate Records(p: Params, f: Footprint, e: Ended)
    requires p.len > 0
  {
    RegionOf(p, f) == e.region && f.pc == e.g.pc && f.address % p.len == e.g.offset && Bits(f.pattern) == e.g.touched
  }

  ghost predicate RecordsAll(p: Params, learned: seq<Footprint>, ended: seq<Ended>)
    requires p.len > 0
  {
    |learned| == |ended| && forall i :: 0 <= i < |learned| ==> Records(p, learned[i], ended[i])
  }

  lemma StepRecords(p: Params, s: State, gen: map<nat, Generation>, e: Event)
    requires LifeOk(p, s) && GenOk(p, s, gen)
    ensures var (t, learned) := Step(p, s, e);
      RecordsAll(p, if learned.Some? then [learned.value] else [], Leaves(p, s, gen, t))
  {
    hide Step, Hash, Pow2, PhtInsert, GenOk, FtOk, PhtOk, PsOk;
    StepLearns(p, s, e);
    var (t, learned) := Step(p, s, e);
    if learned.Some? {
      LearnedIsGeneration(p, s, gen, e);
      var r := RegionOf(p, learned.value);
      var k := AtKey(p, r);
      assert k in s.at.data.Keys - t.at.data.Keys;
      assert forall x :: x in s.at.data.Keys - t.at.data.Keys ==> x == k;
      HashSelfInverse(r, p.atIndex);
    }
  }

  lemma RecordsJoin(p: Params, a: seq<Footprint>, b: seq<Footprint>, x: seq<Ended>, y: seq<Ended>)
    requires p.len > 0 && RecordsAll(p, a, x) && RecordsAll(p, b, y)
    ensures RecordsAll(p, a + b, x + y)
  {
  }

  /** Over every run the footprints learned are exactly those of the generations that left the
      accumulation table, one each and in order. */
  lemma {:induction false} LearnedInOrder(p: Params, s: State, gen: map<nat, Generation>, events: seq<Event>)
    requires LifeOk(p, s) && GenOk(p, s, gen) && EventsOk(p, events)
    ensures RecordsAll(p, Run(p, s, gen, events).2, EndedIn(p, s, gen, events))
    decreases |events|
  {
    hide FtOk, AtOk, PhtOk, PsOk, Apart, GenOk, Step, Observe, Leaves, Records;
    if |events| > 0 {
      StepOk(p, s, events[0]);
      StepObserved(p, s, gen, events[0]);
      StepRecords(p, s, gen, events[0]);
      var (t, learned) := Step(p, s, events[0]);
      var next := Observe(p, s, gen, events[0]);
      LearnedInOrder(p, t, next, events[1..]);
      RecordsJoin(p, if learned.Some? then [learned.value] else [], Run(p, t, next, events[1..]).2,
                  Leaves(p, s, gen, t), EndedIn(p, t, next, events[1..]));
    }
  }

  ghost predicate IsInitial(p: Params, s: State) {
    && ParamsOk(p) && s.ft.data == map[] && s.at.data == map[] && s.pht.data == map[] && s.ps.data == map[]
    && Ok(s.ft) && Ok(s.at) && Ok(s.pht) && Ok(s.ps) && WidthsOk(p.w) && s.pht.sets == Pow2(p.w.indexLen)
  }

  lemma InitialOk(p: Params, s: State)
    requires IsInitial(p, s)
    ensures LifeOk(p, s) && GenOk(p, s, map[])
  {
  }
}
