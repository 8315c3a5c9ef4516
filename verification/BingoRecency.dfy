/** Which entries Bingo's four tables give up: those used the longest ago, over whole runs
    (prefetcher/bingo.cc, inc/bingo.h, inc/bakshalipour_framework.h). */
module BingoRecency {
  import opened Counting
  import opened HashIndex
  import opened LruTable
  import opened Footprints
  import opened PatternHistory
  import opened Streamer
  import opened Bingo

  /** The keys used in each table, in order. */
  datatype Uses = Uses(ft: seq<nat>, at: seq<nat>, pht: seq<nat>, ps: seq<nat>)

  ghost predicate FollowsUses(s: State, u: Uses) {
    Follows(s.ft.order, u.ft) && Follows(s.at.order, u.at) && Follows(s.pht.order, u.pht) && Follows(s.ps.order, u.ps)
  }

  /** A load of a region that the filter table has or gets. */
  ghost function FtUse(p: Params, s: State, e: Event): seq<nat>
    requires LifeOk(p, s)
  {
    if e.Load? && FtKey(p, Region(p, e.block)) in Step(p, s, e).0.ft.data then [FtKey(p, Region(p, e.block))] else []
  }

  /** A load of a region that is being gathered. */
  ghost function AtUse(p: Params, s: State, e: Event): seq<nat>
    requires LifeOk(p, s)
  {
    if e.Load? && AtKey(p, Region(p, e.block)) in Step(p, s, e).0.at.data then [AtKey(p, Region(p, e.block))] else []
  }

  /** A trigger access whose exact key is stored, and a footprint learned. */
  ghost function PhtUse(p: Params, s: State, e: Event): seq<nat>
    requires LifeOk(p, s)
  {
    var learned := Step(p, s, e).1;
    if e.Load? && !Tracked(p, s, Region(p, e.block)) && BuildKey(p.w, e.pc, e.block) in s.pht.data then [BuildKey(p.w, e.pc, e.block)]
    else if learned.Some? then [BuildKey(p.w, learned.value.pc, learned.value.address)] else []
  }

  /** A pattern handed over, and a call of the streamer that leaves marks. */
  ghost function PsUse(p: Params, s: State, e: Event): seq<nat>
    requires LifeOk(p, s)
  {
    if e.Load? && !Tracked(p, s, Region(p, e.block)) && e.found != [] then [PsKey(p, Quotient(e.block, p.len))]
    else if e.Prefetches? && PsKey(p, Quotient(e.block, p.len)) in Step(p, s, e).0.ps.data then [PsKey(p, Quotient(e.block, p.len))]
    else []
  }

  lemma Nothing(order: seq<nat>, uses: seq<nat>)
    requires Follows(order, uses)
    ensures Follows(order, uses + [])
  {
    assert uses + [] == uses;
  }

  lemma FtFollows(p: Params, s: State, e: Event, uses: seq<nat>)
    requires LifeOk(p, s) && Follows(s.ft.order, uses)
    ensures Follows(Step(p, s, e).0.ft.order, uses + FtUse(p, s, e))
  {
    hide Hash, Insert, Follows, BuildKey, Mark, Admit, Learn, Streamed, SetSize, AtOk, PhtOk, PsOk, Without;
    Nothing(s.ft.order, uses);
    if e.Load? || e.Evict? {
      var k := FtKey(p, Region(p, e.block));
      EraseFollows(s.ft, uses, k);
      Nothing(Erase(s.ft, k).order, uses);
      TouchFollows(s.ft, uses, k);
      TouchAgain(s.ft, k);
      if e.Load? {
        var seen := Seen(e.pc, e.block % p.len);
        InsertFollows(s.ft, uses, k, seen);
        InsertHas(s.ft, k, seen);
      }
    }
  }

  lemma InsertHas<T>(t: Table<T>, k: nat, v: T)
    requires t.sets > 0
    ensures k in Insert(t, k, v).data
  {
  }

  lemma AtFollows(p: Params, s: State, e: Event, uses: seq<nat>)
    requires LifeOk(p, s) && Follows(s.at.order, uses)
    ensures Follows(Step(p, s, e).0.at.order, uses + AtUse(p, s, e))
  {
    hide Hash, Pow2, Follows, BuildKey, Learn, Streamed, SetSize, PhtOk, PsOk, Without, Insert;
    Nothing(s.at.order, uses);
    if e.Load? || e.Evict? {
      var r := Region(p, e.block);
      var k := AtKey(p, r);
      EraseFollows(s.at, uses, k);
      Nothing(Erase(s.at, k).order, uses);
      if e.Load? {
        var offset := e.block % p.len;
        if k in s.at.data {
          TouchFollows(Store(s.at, k, s.at.data[k].(pattern := s.at.data[k].pattern[offset := true])), uses, k);
        } else if FtKey(p, r) in s.ft.data && s.ft.data[FtKey(p, r)].offset != offset {
          AdmitFollows(p, s.at, r, s.ft.data[FtKey(p, r)], offset, uses);
        }
      }
    }
  }

  lemma AdmitFollows(p: Params, at: Table<Gathered>, r: nat, e: Seen, offset: nat, uses: seq<nat>)
    requires e.offset < p.len && offset < p.len && at.sets > 0 && Follows(at.order, uses)
    ensures var t := Admit(p, at, r, e, offset); Follows(t.order, uses + [AtKey(p, r)]) && AtKey(p, r) in t.data
  {
    hide Hash, Follows, Without, Victim;
    var k, g := AtKey(p, r), Gathered(e.pc, e.offset, Blank(p.len)[e.offset := true]);
    InsertFollows(at, uses, k, g);
    TouchAgain(Store(Room(at, k), k, g), k);
  }

  lemma PhtFollows(p: Params, s: State, e: Event, uses: seq<nat>)
    requires LifeOk(p, s) && Follows(s.pht.order, uses)
    ensures Follows(Step(p, s, e).0.pht.order, uses + PhtUse(p, s, e))
  {
    hide Hash, Insert, Follows, BuildKey, Mark, Admit, Streamed, Touch, Erase, SetSize, FtOk, AtOk, PsOk, Without, Rotate;
    Nothing(s.pht.order, uses);
    StepLearns(p, s, e);
    var learned := Step(p, s, e).1;
    if learned.Some? {
      var f := learned.value;
      InsertFollows(s.pht, uses, BuildKey(p.w, f.pc, f.address), Rotate(f.pattern, -(f.address % |f.pattern|)));
    } else if e.Load? {
      TouchFollows(s.pht, uses, BuildKey(p.w, e.pc, e.block));
    }
  }

  lemma PsFollows(p: Params, s: State, e: Event, uses: seq<nat>)
    requires LifeOk(p, s) && Follows(s.ps.order, uses)
    ensures Follows(Step(p, s, e).0.ps.order, uses + PsUse(p, s, e))
  {
    hide Hash, Insert, Follows, BuildKey, Mark, Admit, Learn, SetSize, FtOk, AtOk, PhtOk, Without, Prefetch;
    Nothing(s.ps.order, uses);
    if e.Prefetches? {
      var k := PsKey(p, Quotient(e.block, p.len));
      EraseFollows(s.ps, uses, k);
      Nothing(Erase(s.ps, k).order, uses);
      TouchFollows(s.ps, uses, k);
      TouchAgain(s.ps, k);
    } else if e.Load? && !Tracked(p, s, Region(p, e.block)) && e.found != [] {
      InsertFollows(s.ps, uses, PsKey(p, Quotient(e.block, p.len)), e.found);
    }
  }

  ghost function UsesAfter(p: Params, s: State, e: Event, u: Uses): Uses
    requires LifeOk(p, s)
  {
    Uses(u.ft + FtUse(p, s, e), u.at + AtUse(p, s, e), u.pht + PhtUse(p, s, e), u.ps + PsUse(p, s, e))
  }

  /** All the uses of a run, in order. */
  ghost function UsesIn(p: Params, s: State, events: seq<Event>, u: Uses): Uses
    requires LifeOk(p, s) && EventsOk(p, events)
    decreases |events|
  {
    if |events| == 0 then u
    else
      StepOk(p, s, events[0]);
      UsesIn(p, Step(p, s, events[0]).0, events[1..], UsesAfter(p, s, events[0], u))
  }

  lemma {:induction false} RunFollows(p: Params, s: State, gen: map<nat, Generation>, events: seq<Event>, u: Uses)
    requires LifeOk(p, s) && EventsOk(p, events) && FollowsUses(s, u)
    ensures FollowsUses(Run(p, s, gen, events).0, UsesIn(p, s, events, u)) && LifeOk(p, Run(p, s, gen, events).0)
    decreases |events|
  {
    hide FtOk, AtOk, PhtOk, PsOk, Apart, Step, Observe, Follows, FtUse, AtUse, PhtUse, PsUse;
    if |events| > 0 {
      var e := events[0];
      StepOk(p, s, e);
      FtFollows(p, s, e, u.ft);
      AtFollows(p, s, e, u.at);
      PhtFollows(p, s, e, u.pht);
      PsFollows(p, s, e, u.ps);
      RunFollows(p, Step(p, s, e).0, Observe(p, s, gen, e), events[1..], UsesAfter(p, s, e, u));
    }
  }

  /** Of a full set, key x was used no earlier than the one that the next insertion of k evicts. */
  ghost predicate OldestLeaves<T>(t: Table<T>, uses: seq<nat>, k: nat, x: nat)
    requires t.sets > 0
  {
    Victim(t, k).Some? && x in t.data && x % t.sets == k % t.sets ==> LastUse(uses, Victim(t, k).value) <= LastUse(uses, x)
  }

  lemma OldestLeavesOk<T>(t: Table<T>, uses: seq<nat>, k: nat, x: nat)
    requires Ok(t) && Follows(t.order, uses)
    ensures OldestLeaves(t, uses, k, x)
  {
    if Victim(t, k).Some? && x in t.data && x % t.sets == k % t.sets {
      EvictsLeastRecent(t, uses, k, x);
    }
  }

  lemma TablesOk(p: Params, s: State)
    requires LifeOk(p, s)
    ensures Ok(s.ft) && Ok(s.at) && Ok(s.pht) && Ok(s.ps) && s.ft.sets > 0 && s.at.sets > 0 && s.pht.sets > 0 && s.ps.sets > 0
  {
  }

  /** After every run from empty tables, each of the four evicts the entry of the set that the run used the
      longest ago. */
  lemma LeastRecentLeaves(p: Params, s: State, events: seq<Event>, k: nat, x: nat)
    requires IsInitial(p, s) && EventsOk(p, events) && s.ft.order == s.at.order == s.pht.order == s.ps.order == []
    ensures LifeOk(p, s)
    ensures var t, u := Run(p, s, map[], events).0, UsesIn(p, s, events, Uses([], [], [], []));
      && LifeOk(p, t)
      && OldestLeaves(t.ft, u.ft, k, x) && OldestLeaves(t.at, u.at, k, x)
      && OldestLeaves(t.pht, u.pht, k, x) && OldestLeaves(t.ps, u.ps, k, x)
  {
    hide LifeOk, OldestLeaves, Run, UsesIn;
    InitialOk(p, s);
    RunFollows(p, s, map[], events, Uses([], [], [], []));
    var t, u := Run(p, s, map[], events).0, UsesIn(p, s, events, Uses([], [], [], []));
    TablesOk(p, t);
    OldestLeavesOk(t.ft, u.ft, k, x);
    OldestLeavesOk(t.at, u.at, k, x);
    OldestLeavesOk(t.pht, u.pht, k, x);
    OldestLeavesOk(t.ps, u.ps, k, x);
  }

  /** Region and offset name the block, as long as the region number fits its bits; otherwise they name it but
      for multiples of that many regions. */
  lemma RegionRecovers(p: Params, block: nat)
    requires ParamsOk(p)
    ensures block / p.len < Pow2(REGION_BITS) ==> Region(p, block) * p.len + block % p.len == block
    ensures exists n: nat :: block == (n * Pow2(REGION_BITS) + Region(p, block)) * p.len + block % p.len
  {
    hide Pow2;
    var q, m := block / p.len, Pow2(REGION_BITS);
    assert block == p.len * q + block % p.len;
    assert q == m * (q / m) + q % m;
    assert block == ((q / m) * m + Region(p, block)) * p.len + block % p.len;
    if q < m {
      DivModUnique(q, m, 0, q);
    }
  }
}
