/** The LRU fields over whole runs of the two caches: each set's counters are those of a recency list of the
    ways that the handlers hit and filled (src/cache.cc, replacement/base_replacement.cc). */
module LruHistory {
  import opened Counting
  import opened Packets
  import opened Replacement
  import opened MshrFile
  import opened CacheModel
  import opened CacheInvariant
  import opened Hierarchy
  import opened MissProtocol
  import L1Residency
  import DirtyOwnership
  import LruOrder

  /** A way that is hit or filled. */
  datatype Use = Use(index: nat, way: nat)

  // ---- What one round uses ----

  function FillUse(c: Cache, now: nat, full: bool): Option<Use>
    requires Shape(c)
  {
    var e := FillStep(c, now, full);
    if e.Effect? && e.c != c && c.mshr.nextFillIndex < |c.mshr.entry| then
      var s := GetSet(c.cfg, c.mshr.entry[c.mshr.nextFillIndex].address);
      Some(Use(s, LruVictim(c.blocks[s])))
    else None
  }

  predicate Hits(c: Cache, q: seq<Packet>, now: nat)
    requires Shape(c)
  {
    |q| > 0 && q[0].eventCycle <= now && CheckHit(c, q[0].address) >= 0
  }

  /** A hit of a writeback leaves the order alone. */
  function HitUse(c: Cache, q: seq<Packet>, now: nat): Option<Use>
    requires Shape(c)
  {
    if Hits(c, q, now) && q[0].kind != WRITEBACK then
      Some(Use(GetSet(c.cfg, q[0].address), CheckHit(c, q[0].address)))
    else None
  }

  /** A writeback that misses fills a way of the L2. */
  function WritebackUse(c: Cache, now: nat, full: bool): Option<Use>
    requires Shape(c)
  {
    if Hits(c, c.wq, now) then HitUse(c, c.wq, now)
    else
      var e := WritebackStep(c, now, full);
      if |c.wq| > 0 && !c.cfg.isL1D && e.Effect? && e.c.wq != c.wq then
        var s := GetSet(c.cfg, c.wq[0].address);
        Some(Use(s, LruVictim(c.blocks[s])))
      else None
  }

  /** The order of set k is that before, with one more promotion if the use is of this set. */
  ghost predicate Used(c: Cache, d: Cache, u: Option<Use>, k: nat)
    requires k < |c.blocks|
  {
    && k < |d.blocks| && |d.blocks[k]| == |c.blocks[k]|
    && if u.Some? && u.value.index == k
       then u.value.way < |c.blocks[k]| && Lrus(d.blocks[k]) == LruOrder.Promote(Lrus(c.blocks[k]), u.value.way)
       else Lrus(d.blocks[k]) == Lrus(c.blocks[k])
  }

  lemma SetUsed(c: Cache, s: nat, w: nat, t: seq<Block>, d: Cache, k: nat)
    requires k < |c.blocks| && s < |c.blocks| && w < |c.blocks[s]| && d.blocks == c.blocks[s := t] && |t| == |c.blocks[s]|
    requires forall v :: 0 <= v < |t| ==> t[v].lru == LruUpdate(c.blocks[s], w)[v].lru
    ensures Used(c, d, Some(Use(s, w)), k)
  {
    UpdatedLrus(c.blocks[s], w);
    assert Lrus(t) == Lrus(LruUpdate(c.blocks[s], w));
  }

  lemma SameUsed(c: Cache, d: Cache, k: nat)
    requires k < |c.blocks| && d.blocks == c.blocks
    ensures Used(c, d, None, k)
  {
  }

  lemma FillUses(c: Cache, now: nat, full: bool, k: nat)
    requires CacheOk(c) && now < UINT64_MAX && k < |c.blocks|
    ensures FillStep(c, now, full).Effect? && Used(c, FillStep(c, now, full).c, FillUse(c, now, full), k)
  {
    hide SetOk, MshrOk, QueueOk, Conserved, Release;
    FillStepOk(c, now, full);
    var d := FillStep(c, now, full).c;
    if d != c {
      var p := c.mshr.entry[c.mshr.nextFillIndex];
      var s := GetSet(c.cfg, p.address);
      VictimInRange(c, s);
      SetUsed(c, s, LruVictim(c.blocks[s]), d.blocks[s], d, k);
    } else {
      SameUsed(c, d, k);
    }
  }

  lemma ReadUses(c: Cache, now: nat, k: nat)
    requires CacheOk(c) && k < |c.blocks|
    ensures ReadStep(c, now).Effect? && Used(c, ReadStep(c, now).c, HitUse(c, c.rq, now), k)
  {
    hide SetOk, MshrOk, QueueOk, Conserved, AddMshr, Merge, CheckHit, LruUpdate;
    ReadStepOk(c, now);
    var d, u := ReadStep(c, now).c, HitUse(c, c.rq, now);
    if u.Some? {
      SetUsed(c, u.value.index, u.value.way, d.blocks[u.value.index], d, k);
    }
  }

  lemma PrefetchUses(c: Cache, now: nat, full: bool, k: nat)
    requires CacheOk(c) && k < |c.blocks|
    ensures PrefetchStep(c, now, full).Effect? && Used(c, PrefetchStep(c, now, full).c, HitUse(c, c.pq, now), k)
  {
    hide SetOk, MshrOk, QueueOk, Conserved, AddMshr, Merge, CheckHit, LruUpdate;
    PrefetchStepOk(c, now, full);
    var d, u := PrefetchStep(c, now, full).c, HitUse(c, c.pq, now);
    if u.Some? {
      SetUsed(c, u.value.index, u.value.way, d.blocks[u.value.index], d, k);
    }
  }

  lemma WritebackUses(c: Cache, now: nat, full: bool, k: nat)
    requires CacheOk(c) && k < |c.blocks|
    ensures WritebackStep(c, now, full).Effect? && Used(c, WritebackStep(c, now, full).c, WritebackUse(c, now, full), k)
  {
    hide SetOk, MshrOk, QueueOk, Conserved, AddMshr, Merge, CheckHit, LruUpdate;
    WritebackStepOk(c, now, full);
    var d, u := WritebackStep(c, now, full).c, WritebackUse(c, now, full);
    if u.Some? {
      VictimInRange(c, u.value.index);
      SetUsed(c, u.value.index, u.value.way, d.blocks[u.value.index], d, k);
    }
  }

  // ---- Steps of the system ----

  function UseOfL1(s: Sys, e: Event): Option<Use>
    requires Shape(s.l1)
  {
    match e
    case L1Fill(now) => FillUse(s.l1, now, L2WqFull(s))
    case L1Writeback(now) => WritebackUse(s.l1, now, L2WqFull(s))
    case L1Read(now) => HitUse(s.l1, s.l1.rq, now)
    case L1Prefetch(now) => HitUse(s.l1, s.l1.pq, now)
    case _ => None
  }

  function UseOfL2(s: Sys, e: Event): Option<Use>
    requires Shape(s.l2)
  {
    match e
    case L2Fill(now) => FillUse(s.l2, now, LowerWqFull(s))
    case L2Writeback(now) => WritebackUse(s.l2, now, LowerWqFull(s))
    case L2Read(now, _) => HitUse(s.l2, s.l2.rq, now)
    case L2Prefetch(now, _, _) => HitUse(s.l2, s.l2.pq, now)
    case _ => None
  }

  lemma ThenSame(c: Cache, d: Cache, e: Cache, u: Option<Use>, k: nat)
    requires k < |c.blocks| && Used(c, d, u, k) && e.blocks == d.blocks
    ensures Used(c, e, u, k)
  {
  }

  lemma StepUsesL1(s: Sys, e: Event, k: nat)
    requires Inv(s) && Allowed(s, e) && Shape(s.l1) && Shape(s.l2) && k < |s.l1.blocks|
    ensures Step(s, e).Next? && Used(s.l1, Step(s, e).s.l1, UseOfL1(s, e), k)
  {
    hide Inv, FillStep, WritebackStep, ReadStep, PrefetchStep, SendToL2Wq, SendToL2Rq, SendToL2Pq, FillUse, WritebackUse, HitUse, Used;
    L1Residency.InvParts(s);
    StepKeepsInv(s, e);
    var t := Step(s, e).s;
    if e.L1Fill? {
      FillUses(s.l1, e.now, L2WqFull(s), k);
      var f := FillStep(s.l1, e.now, L2WqFull(s));
      L1Residency.RequestOnlyCompletes(s.(l1 := f.c), f.victim, e.now);
      ThenSame(s.l1, f.c, t.l1, UseOfL1(s, e), k);
    } else if e.L1Writeback? {
      WritebackUses(s.l1, e.now, L2WqFull(s), k);
      var f := WritebackStep(s.l1, e.now, L2WqFull(s));
      L1Residency.RequestOnlyCompletes(s.(l1 := f.c), f.down, e.now);
      ThenSame(s.l1, f.c, t.l1, UseOfL1(s, e), k);
    } else if e.L1Read? {
      ReadUses(s.l1, e.now, k);
      var f := ReadStep(s.l1, e.now);
      L1Residency.RequestOnlyCompletes(s.(l1 := f.c), f.down, e.now);
      ThenSame(s.l1, f.c, t.l1, UseOfL1(s, e), k);
    } else if e.L1Prefetch? {
      PrefetchUses(s.l1, e.now, L2PqFull(s), k);
      var f := PrefetchStep(s.l1, e.now, L2PqFull(s));
      L1Residency.RequestOnlyCompletes(s.(l1 := f.c), f.down, e.now);
      ThenSame(s.l1, f.c, t.l1, UseOfL1(s, e), k);
    } else {
      L1Residency.OtherStepOnlyCompletes(s, e);
      SameUsed(s.l1, t.l1, k);
    }
  }

  /** What the L1D sends down leaves the blocks of the L2 alone. */
  lemma RequestsKeepL2(s: Sys, m: Option<Packet>, now: nat)
    ensures var o := SendToL2Rq(s, m, now); o.Next? ==> o.s.l2.blocks == s.l2.blocks
    ensures var o := SendToL2Pq(s, m, now); o.Next? ==> o.s.l2.blocks == s.l2.blocks
    ensures var o := SendToL2Wq(s, m, now); o.Next? ==> o.s.l2.blocks == s.l2.blocks
  {
    hide SendToL2Rq, SendToL2Pq;
    DirtyOwnership.RequestsKeepOwners(s, m, now);
  }

  lemma L1StepKeepsL2(s: Sys, e: Event)
    requires Shape(s.l1) && Shape(s.l2) && Step(s, e).Next? && (e.L1Fill? || e.L1Writeback? || e.L1Read? || e.L1Prefetch?)
    ensures Step(s, e).s.l2.blocks == s.l2.blocks
  {
    hide FillStep, WritebackStep, ReadStep, PrefetchStep, SendToL2Wq, SendToL2Rq, SendToL2Pq;
    var f := if e.L1Fill? then FillStep(s.l1, e.now, L2WqFull(s)) else if e.L1Writeback? then WritebackStep(s.l1, e.now, L2WqFull(s))
             else if e.L1Read? then ReadStep(s.l1, e.now) else PrefetchStep(s.l1, e.now, L2PqFull(s));
    if f.Effect? {
      RequestsKeepL2(s.(l1 := f.c), f.down, e.now);
      RequestsKeepL2(s.(l1 := f.c), f.victim, e.now);
    }
  }

  /** After an L2 handler its messages leave its blocks alone. */
  lemma MessagesKeepL2(s: Sys, f: Effect, answered: bool, now: nat)
    requires f.Effect?
    ensures EvictAndReturn(s, f, now).Next? ==> EvictAndReturn(s, f, now).s.l2.blocks == f.c.blocks
    ensures AskAndReturn(s, f, answered, now).Next? ==> AskAndReturn(s, f, answered, now).s.l2.blocks == f.c.blocks
  {
    hide ReturnData;
    var t := s.(l2 := f.c);
    DirtyOwnership.AnswerKeepsOwners(t, f.down, answered, now);
  }

  lemma StepUsesL2(s: Sys, e: Event, k: nat)
    requires Inv(s) && Allowed(s, e) && Shape(s.l1) && Shape(s.l2) && CacheOk(s.l2) && k < |s.l2.blocks|
    ensures Step(s, e).Next? && Used(s.l2, Step(s, e).s.l2, UseOfL2(s, e), k)
  {
    hide Inv, FillStep, WritebackStep, ReadStep, PrefetchStep, EvictAndReturn, AskAndReturn, FillUse, WritebackUse, HitUse, Used;
    hide L1FillOutcome, L1WritebackOutcome, L1ReadOutcome, L1PrefetchOutcome, IssueL2Outcome, CacheOk;
    StepKeepsInv(s, e);
    var t := Step(s, e).s;
    if e.L2Fill? {
      FillUses(s.l2, e.now, LowerWqFull(s), k);
      MessagesKeepL2(s, FillStep(s.l2, e.now, LowerWqFull(s)), false, e.now);
      ThenSame(s.l2, FillStep(s.l2, e.now, LowerWqFull(s)).c, t.l2, UseOfL2(s, e), k);
    } else if e.L2Writeback? {
      WritebackUses(s.l2, e.now, LowerWqFull(s), k);
      MessagesKeepL2(s, WritebackStep(s.l2, e.now, LowerWqFull(s)), false, e.now);
      ThenSame(s.l2, WritebackStep(s.l2, e.now, LowerWqFull(s)).c, t.l2, UseOfL2(s, e), k);
    } else if e.L2Read? {
      ReadUses(s.l2, e.now, k);
      MessagesKeepL2(s, ReadStep(s.l2, e.now), e.answered, e.now);
      ThenSame(s.l2, ReadStep(s.l2, e.now).c, t.l2, UseOfL2(s, e), k);
    } else if e.L2Prefetch? {
      PrefetchUses(s.l2, e.now, e.lowerPqFull, k);
      MessagesKeepL2(s, PrefetchStep(s.l2, e.now, e.lowerPqFull), e.answered, e.now);
      ThenSame(s.l2, PrefetchStep(s.l2, e.now, e.lowerPqFull).c, t.l2, UseOfL2(s, e), k);
    } else {
      OtherKeepsL2(s, e);
      SameUsed(s.l2, t.l2, k);
    }
  }

  lemma OtherKeepsL2(s: Sys, e: Event)
    requires Shape(s.l1) && Shape(s.l2) && Step(s, e).Next? && !(e.L2Fill? || e.L2Writeback? || e.L2Read? || e.L2Prefetch?)
    ensures Step(s, e).s.l2.blocks == s.l2.blocks
  {
    hide AddPq, ReturnData;
    if e.L1Fill? || e.L1Writeback? || e.L1Read? || e.L1Prefetch? {
      L1StepKeepsL2(s, e);
    } else if e.IssueL2Prefetch? || e.LowerReturn? {
      DirtyOwnership.RequestsKeepBlocks(s.l2, e.p, e.now);
    }
  }

  // ---- Runs ----

  /** The ways of set k of the L1D, or of the L2, used in a run, in order. */
  ghost function WaysUsed(l1: bool, s: Sys, events: seq<Event>, t: Sys, k: nat): seq<nat>
    requires Run(s, events, t)
    decreases |events|
  {
    if |events| == 0 then []
    else
      WaysOf(UseOf(l1, s, events[0]), k) + WaysUsed(l1, Step(s, events[0]).s, events[1..], t, k)
  }

  function WaysOf(u: Option<Use>, k: nat): seq<nat> {
    if u.Some? && u.value.index == k then [u.value.way] else []
  }

  function UseOf(l1: bool, s: Sys, e: Event): Option<Use>
    requires Shape(s.l1) && Shape(s.l2)
  {
    if l1 then UseOfL1(s, e) else UseOfL2(s, e)
  }

  function Level(l1: bool, s: Sys): Cache { if l1 then s.l1 else s.l2 }

  lemma StepUses(l1: bool, s: Sys, e: Event, k: nat)
    requires Inv(s) && Allowed(s, e) && Shape(s.l1) && Shape(s.l2) && k < |Level(l1, s).blocks|
    ensures Step(s, e).Next? && Used(Level(l1, s), Level(l1, Step(s, e).s), UseOf(l1, s, e), k)
  {
    hide Step, Used, UseOfL1, UseOfL2, ExactlyOnce, L1Levels, L2Levels;
    if l1 {
      StepUsesL1(s, e, k);
    } else {
      StepUsesL2(s, e, k);
    }
  }

  /** Promoting these ways in order leads from one order of the ways to the other. */
  ghost predicate Promoted(before: seq<nat>, uses: seq<nat>, after: seq<nat>) {
    && (forall i :: 0 <= i < |uses| ==> uses[i] < |before|)
    && after == LruOrder.PromoteAll(before, uses)
  }

  lemma UseThenPromoted(c: Cache, d: Cache, u: Option<Use>, k: nat, rest: seq<nat>, after: seq<nat>)
    requires k < |c.blocks| && Used(c, d, u, k) && Promoted(Lrus(d.blocks[k]), rest, after)
    ensures Promoted(Lrus(c.blocks[k]), WaysOf(u, k) + rest, after)
  {
    if u.Some? && u.value.index == k {
      LruOrder.PromoteThenAll(Lrus(c.blocks[k]), u.value.way, rest);
    } else {
      assert [] + rest == rest;
    }
  }

  /** Over every run the lru fields of a set are those it had, with the ways used in the run promoted in
      order. */
  lemma {:induction false} RunPromotes(l1: bool, s: Sys, events: seq<Event>, t: Sys, k: nat)
    requires Inv(s) && Run(s, events, t) && k < |Level(l1, s).blocks|
    ensures k < |Level(l1, t).blocks|
    ensures Promoted(Lrus(Level(l1, s).blocks[k]), WaysUsed(l1, s, events, t, k), Lrus(Level(l1, t).blocks[k]))
    decreases |events|
  {
    hide Inv, Step, Allowed, UseOf, Promoted, Shape, WaysOf;
    if |events| == 0 {
      NonePromoted(Lrus(Level(l1, s).blocks[k]));
    } else {
      var next, u := Step(s, events[0]).s, UseOf(l1, s, events[0]);
      StepUses(l1, s, events[0], k);
      StepKeepsInv(s, events[0]);
      RunPromotes(l1, next, events[1..], t, k);
      UseThenPromoted(Level(l1, s), Level(l1, next), u, k, WaysUsed(l1, next, events[1..], t, k), Lrus(Level(l1, t).blocks[k]));
    }
  }

  lemma NonePromoted(order: seq<nat>)
    ensures Promoted(order, [], order)
  {
  }

  /** In every state that a run reaches, the victim of a set without invalid ways is the way that every other
      way was used after in that run. */
  lemma VictimLeastRecentlyUsed(l1: bool, s: Sys, events: seq<Event>, t: Sys, k: nat, other: nat)
    requires IsInitialSys(s) && Run(s, events, t) && k < |Level(l1, t).blocks| && k < |Level(l1, s).blocks|
    requires other < |Level(l1, t).blocks[k]| && forall w :: 0 <= w < |Level(l1, t).blocks[k]| ==> Level(l1, t).blocks[k][w].valid
    ensures var v := LruVictim(Level(l1, t).blocks[k]);
      v < |Level(l1, t).blocks[k]| && (other == v || LruOrder.MoreRecent(WaysUsed(l1, s, events, t, k), other, v))
  {
    hide Inv, Run, LruVictim, LruOrder.MoreRecent;
    InitialInv(s);
    RunPromotes(l1, s, events, t, k);
    assert IsInitialSet(Level(l1, s).blocks[k], Level(l1, s).cfg.numWays);
    VictimLeastRecent(Level(l1, t).blocks[k], Lrus(Level(l1, s).blocks[k]), WaysUsed(l1, s, events, t, k), other);
  }
}
