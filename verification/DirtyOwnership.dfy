/** No dirty line is dropped: a line that is dirty in a cache, or on its way down in a write queue,
    stays in one of those places until the lower level drains it. */
module DirtyOwnership {
  import opened Counting
  import opened Packets
  import opened Replacement
  import opened MshrFile
  import opened CacheModel
  import opened CacheInvariant
  import opened Hierarchy
  import opened MissProtocol

  ghost predicate DirtyAt(blocks: seq<seq<Block>>, s: nat, w: nat, a: nat) {
    s < |blocks| && w < |blocks[s]| && blocks[s][w].dirty && blocks[s][w].address == a
  }

  ghost predicate DirtyIn(c: Cache, a: nat) {
    exists s, w :: DirtyAt(c.blocks, s, w, a)
  }

  ghost predicate Queued(q: seq<Packet>, a: nat) {
    exists i :: 0 <= i < |q| && q[i].address == a
  }

  ghost predicate Carries(m: Option<Packet>, a: nat) { m.Some? && m.value.address == a }

  /** The L2, or the lower level it handed the line to, is responsible for writing line `a` back. */
  ghost predicate L2Owned(s: Sys, a: nat) {
    Queued(s.l2.wq, a) || DirtyIn(s.l2, a) || a in s.lowerWq
  }

  /** Somebody is responsible for it. */
  ghost predicate Owned(s: Sys, a: nat) { DirtyIn(s.l1, a) || L2Owned(s, a) }

  /** What had an owner keeps one, and what the L2 owned does not fall back on the L1D. */
  ghost predicate OwnersKept(s: Sys, t: Sys, a: nat) {
    (Owned(s, a) ==> Owned(t, a)) && (L2Owned(s, a) ==> L2Owned(t, a))
  }

  // ---- One cache ----

  /** The L1D keeps its dirty lines, or hands them down as the victim. */
  ghost predicate KeepsDirty(c: Cache, e: Effect, a: nat) {
    e.Effect? && (DirtyIn(c, a) ==> DirtyIn(e.c, a) || Carries(e.victim, a))
  }

  lemma DirtyBitsKept(c: Cache, d: Cache, a: nat)
    requires DirtyIn(c, a) && |d.blocks| == |c.blocks|
    requires forall s :: 0 <= s < |c.blocks| ==> |d.blocks[s]| == |c.blocks[s]|
    requires forall s, w | 0 <= s < |c.blocks| && 0 <= w < |c.blocks[s]| ::
      c.blocks[s][w].dirty ==> d.blocks[s][w].dirty && d.blocks[s][w].address == c.blocks[s][w].address
    ensures DirtyIn(d, a)
  {
    var s, w :| DirtyAt(c.blocks, s, w, a);
    assert DirtyAt(d.blocks, s, w, a);
  }

  /** A fill replaces one block: a line dirty elsewhere stays, the replaced one is the victim. */
  lemma InstallKeepsDirty(c: Cache, s: nat, way: nat, p: Packet, dirty: bool, a: nat)
    requires Shape(c) && s < c.cfg.numSets && way < c.cfg.numWays && DirtyIn(c, a)
    ensures DirtyIn(Install(c, s, way, p, dirty), a)
            || (c.blocks[s][way].dirty && c.blocks[s][way].address == a)
  {
    var t, w :| DirtyAt(c.blocks, t, w, a);
    if t != s || w != way {
      assert DirtyAt(Install(c, s, way, p, dirty).blocks, t, w, a);
    }
  }

  lemma FillKeepsDirty(c: Cache, now: nat, full: bool, a: nat)
    requires CacheOk(c) && now < UINT64_MAX
    ensures KeepsDirty(c, FillStep(c, now, full), a)
  {
    FillStepOk(c, now, full);
    var d := FillStep(c, now, full).c;
    if d != c && DirtyIn(c, a) {
      var p := c.mshr.entry[c.mshr.nextFillIndex];
      var s := GetSet(c.cfg, p.address);
      VictimInRange(c, s);
      InstallKeepsDirty(c, s, LruVictim(c.blocks[s]), p, c.cfg.isL1D && p.kind == RFO, a);
    }
  }

  lemma ReadKeepsDirty(c: Cache, now: nat, a: nat)
    requires CacheOk(c)
    ensures KeepsDirty(c, ReadStep(c, now), a)
  {
    hide SetOk, MshrOk, QueueOk, Conserved, LruOk, DirtyIn;
    ReadStepOk(c, now);
    if DirtyIn(c, a) {
      DirtyBitsKept(c, ReadStep(c, now).c, a);
    }
  }

  lemma PrefetchKeepsDirty(c: Cache, now: nat, full: bool, a: nat)
    requires CacheOk(c)
    ensures KeepsDirty(c, PrefetchStep(c, now, full), a)
  {
    hide SetOk, MshrOk, QueueOk, Conserved, LruOk, DirtyIn;
    PrefetchStepOk(c, now, full);
    if DirtyIn(c, a) {
      DirtyBitsKept(c, PrefetchStep(c, now, full).c, a);
    }
  }

  /** The line leaving the write queue becomes dirty in a way. */
  lemma WritebackKeepsDirty(c: Cache, now: nat, full: bool, a: nat)
    requires CacheOk(c)
    ensures KeepsDirty(c, WritebackStep(c, now, full), a)
    ensures !c.cfg.isL1D ==> var e := WritebackStep(c, now, full);
      Queued(c.wq, a) ==> Queued(e.c.wq, a) || DirtyIn(e.c, a)
  {
    WritebackStepOk(c, now, full);
    var d := WritebackStep(c, now, full).c;
    if d != c {
      var p := c.wq[0];
      var s := GetSet(c.cfg, p.address);
      var w := CheckHit(c, p.address);
      if w >= 0 {
        HitKeepsDirty(c, s, w, p, d, a);
      } else if c.cfg.isL1D {
        if DirtyIn(c, a) { DirtyBitsKept(c, d, a); }
      } else {
        VictimInRange(c, s);
        var way := LruVictim(c.blocks[s]);
        if DirtyIn(c, a) { InstallKeepsDirty(c.(wq := c.wq[1..]), s, way, p, true, a); }
        assert DirtyAt(d.blocks, s, way, p.address);
      }
      if !c.cfg.isL1D && Queued(c.wq, a) { PopQueued(c.wq, a); }
    }
  }

  lemma HitKeepsDirty(c: Cache, s: nat, w: nat, p: Packet, d: Cache, a: nat)
    requires CacheOk(c) && s < |c.blocks| && w < c.cfg.numWays && Holds(c.blocks[s][w], p.address)
    requires var t := Touch(c.blocks[s], w, p.kind, true);
      d.blocks == PutSet(c, s, t[w := t[w].(dirty := true)]).blocks
    ensures DirtyIn(c, a) ==> DirtyIn(d, a)
    ensures DirtyIn(d, p.address)
  {
    if DirtyIn(c, a) { DirtyBitsKept(c, d, a); }
    assert SetOk(c.cfg, s, c.blocks[s]);
    assert BlockOk(c.cfg, s, c.blocks[s][w]);
    assert DirtyAt(d.blocks, s, w, p.address);
  }

  ghost predicate Holds(b: Block, a: nat) { b.valid && b.tag == a }

  lemma PopQueued(q: seq<Packet>, a: nat)
    requires Queued(q, a)
    ensures q[0].address == a || Queued(q[1..], a)
  {
    var i :| 0 <= i < |q| && q[i].address == a;
    if i > 0 { assert q[1..][i - 1].address == a; }
  }

  // ---- Messages ----

  /** A victim accepted by the L2's write queue is queued there, with everything queued before. */
  lemma WqAccepts(c: Cache, p: Packet, now: nat, a: nat)
    requires CacheOk(c) && !c.cfg.isL1D && p.address != 0 && |c.wq| < c.cfg.wqSize
    ensures var e := AddWq(c, p, now);
      e.Effect? && e.c.blocks == c.blocks && Queued(e.c.wq, p.address) && (Queued(c.wq, a) ==> Queued(e.c.wq, a))
  {
    AddWqOk(c, p, now);
    var e := AddWq(c, p, now);
    var i := WqIndex(c, p);
    if i >= 0 {
      assert e.c.wq[i].address == p.address;
    } else {
      assert e.c.wq[|c.wq|].address == p.address;
      if Queued(c.wq, a) {
        var j :| 0 <= j < |c.wq| && c.wq[j].address == a;
        assert e.c.wq[j].address == a;
      }
    }
  }

  /** Apart from the block arrays and the L2's write queue, nothing here matters. */
  ghost predicate SameOwners(s: Sys, t: Sys) {
    s.l1.blocks == t.l1.blocks && s.l2.blocks == t.l2.blocks && s.l2.wq == t.l2.wq && s.lowerWq == t.lowerWq
  }

  lemma SameOwnersOwned(s: Sys, t: Sys, a: nat)
    requires SameOwners(s, t)
    ensures OwnersKept(s, t, a)
  {
    if DirtyIn(s.l1, a) {
      var i, w :| DirtyAt(s.l1.blocks, i, w, a);
      assert DirtyAt(t.l1.blocks, i, w, a);
    }
    if DirtyIn(s.l2, a) {
      var i, w :| DirtyAt(s.l2.blocks, i, w, a);
      assert DirtyAt(t.l2.blocks, i, w, a);
    }
  }

  /** Requests and returns leave blocks and write queues alone. */
  lemma RequestsKeepBlocks(c: Cache, p: Packet, now: nat)
    ensures var e := AddRq(c, p, now); e.Effect? ==> e.c.blocks == c.blocks && e.c.wq == c.wq
    ensures var e := AddPq(c, p, now); e.Effect? ==> e.c.blocks == c.blocks && e.c.wq == c.wq
    ensures var e := ReturnData(c, p, now); e.Effect? ==> e.c.blocks == c.blocks && e.c.wq == c.wq
  {
    hide FirstMatch, Return;
  }

  lemma ReturnKeepsOwners(s: Sys, m: Option<Packet>, now: nat)
    ensures var o := ReturnToL1(s, m, now); o.Next? ==> SameOwners(s, o.s)
  {
    hide ReturnData;
    if m.Some? {
      RequestsKeepBlocks(s.l1, m.value, now);
    }
  }

  lemma RequestsKeepOwners(s: Sys, m: Option<Packet>, now: nat)
    ensures var o := SendToL2Rq(s, m, now); o.Next? ==> SameOwners(s, o.s)
    ensures var o := SendToL2Pq(s, m, now); o.Next? ==> SameOwners(s, o.s)
  {
    hide AddRq, AddPq, ReturnToL1;
    if m.Some? {
      RequestsKeepBlocks(s.l2, m.value, now);
      var e := AddRq(s.l2, m.value, now);
      if e.Effect? {
        ReturnKeepsOwners(s.(l2 := e.c), e.up, now);
      }
      var f := AddPq(s.l2, m.value, now);
      if f.Effect? {
        ReturnKeepsOwners(s.(l2 := f.c), f.up, now);
      }
    }
  }

  lemma AnswerKeepsOwners(s: Sys, m: Option<Packet>, answered: bool, now: nat)
    ensures var o := AnswerL2(s, m, answered, now); o.Next? ==> SameOwners(s, o.s)
  {
    hide ReturnData;
    if m.Some? {
      RequestsKeepBlocks(s.l2, m.value, now);
    }
  }

  // ---- Steps ----

  /** An L1D step whose request went down. */
  lemma L1SentKeepsOwned(s: Sys, f: Effect, t: Sys, a: nat)
    requires KeepsDirty(s.l1, f, a) && f.victim == None && SameOwners(s.(l1 := f.c), t)
    ensures OwnersKept(s, t, a)
  {
    hide DirtyIn, Queued;
    SameOwnersOwned(s.(l1 := f.c), t, a);
  }

  lemma L1WritebackKeepsOwned(s: Sys, now: nat, a: nat)
    requires Inv(s) && L1WritebackOutcome(s, now).Next?
    ensures OwnersKept(s, L1WritebackOutcome(s, now).s, a)
  {
    hide WritebackStep, Owned, SendToL2Rq, CacheOk;
    InvShapes(s);
    L1WritebackAnnounces(s.l1, now, L2WqFull(s));
    WritebackKeepsDirty(s.l1, now, L2WqFull(s), a);
    var f := WritebackStep(s.l1, now, L2WqFull(s));
    RequestsKeepOwners(s.(l1 := f.c), f.down, now);
    L1SentKeepsOwned(s, f, L1WritebackOutcome(s, now).s, a);
  }

  lemma NoVictims(c: Cache, now: nat, full: bool)
    requires Shape(c)
    ensures ReadStep(c, now).Effect? ==> ReadStep(c, now).victim == None
    ensures PrefetchStep(c, now, full).Effect? ==> PrefetchStep(c, now, full).victim == None
  {
    hide CheckHit, AddMshr, Merge, Touch;
  }

  lemma L1ReadKeepsOwned(s: Sys, now: nat, a: nat)
    requires Inv(s) && L1ReadOutcome(s, now).Next?
    ensures OwnersKept(s, L1ReadOutcome(s, now).s, a)
  {
    hide ReadStep, Owned, SendToL2Rq, CacheOk;
    InvShapes(s);
    NoVictims(s.l1, now, false);
    ReadKeepsDirty(s.l1, now, a);
    var f := ReadStep(s.l1, now);
    RequestsKeepOwners(s.(l1 := f.c), f.down, now);
    L1SentKeepsOwned(s, f, L1ReadOutcome(s, now).s, a);
  }

  lemma L1PrefetchKeepsOwned(s: Sys, now: nat, a: nat)
    requires Inv(s) && L1PrefetchOutcome(s, now).Next?
    ensures OwnersKept(s, L1PrefetchOutcome(s, now).s, a)
  {
    hide PrefetchStep, Owned, SendToL2Pq, CacheOk;
    InvShapes(s);
    NoVictims(s.l1, now, L2PqFull(s));
    PrefetchKeepsDirty(s.l1, now, L2PqFull(s), a);
    var f := PrefetchStep(s.l1, now, L2PqFull(s));
    RequestsKeepOwners(s.(l1 := f.c), f.down, now);
    L1SentKeepsOwned(s, f, L1PrefetchOutcome(s, now).s, a);
  }

  lemma InvShapes(s: Sys)
    requires Inv(s)
    ensures Shape(s.l1) && Shape(s.l2)
  {
  }

  lemma L1FillKeepsOwned(s: Sys, now: nat, a: nat)
    requires Inv(s) && now < UINT64_MAX && L1FillOutcome(s, now).Next?
    ensures OwnersKept(s, L1FillOutcome(s, now).s, a)
  {
    L1FillAnnounces(s.l1, now, L2WqFull(s));
    FillKeepsDirty(s.l1, now, L2WqFull(s), a);
    var f := FillStep(s.l1, now, L2WqFull(s));
    var t := s.(l1 := f.c);
    if f.victim.Some? {
      WqAccepts(s.l2, f.victim.value, now, a);
      var u := L1FillOutcome(s, now).s;
      if DirtyIn(s.l2, a) {
        var i, w :| DirtyAt(s.l2.blocks, i, w, a);
        assert DirtyAt(u.l2.blocks, i, w, a);
      }
    }
  }

  /** An L2 step that may evict: what it held, it holds, or the lower queue does. */
  lemma EvictKeepsOwned(s: Sys, f: Effect, now: nat, a: nat)
    requires Inv(s) && KeepsDirty(s.l2, f, a)
    requires Queued(s.l2.wq, a) ==> Queued(f.c.wq, a) || DirtyIn(f.c, a)
    requires EvictAndReturn(s, f, now).Next?
    ensures OwnersKept(s, EvictAndReturn(s, f, now).s, a)
  {
    var t := SendToLowerWq(s.(l2 := f.c), f.victim).s;
    assert OwnersKept(s, t, a);
    ReturnKeepsOwners(t, f.up, now);
    SameOwnersOwned(t, EvictAndReturn(s, f, now).s, a);
  }

  lemma AskKeepsOwned(s: Sys, f: Effect, answered: bool, now: nat, a: nat)
    requires Inv(s) && KeepsDirty(s.l2, f, a) && f.victim == None && f.c.wq == s.l2.wq
    requires AskAndReturn(s, f, answered, now).Next?
    ensures OwnersKept(s, AskAndReturn(s, f, answered, now).s, a)
  {
    hide AnswerL2, ReturnToL1, DirtyIn;
    var t := s.(l2 := f.c);
    assert OwnersKept(s, t, a);
    AnswerKeepsOwners(t, f.down, answered, now);
    var u := AnswerL2(t, f.down, answered, now).s;
    SameOwnersOwned(t, u, a);
    ReturnKeepsOwners(u, f.up, now);
    SameOwnersOwned(u, AskAndReturn(s, f, answered, now).s, a);
  }

  lemma L2EvictStepsKeepOwned(s: Sys, e: Event, a: nat)
    requires Inv(s) && Allowed(s, e) && Step(s, e).Next?
    requires e.L2Fill? || e.L2Writeback?
    ensures OwnersKept(s, Step(s, e).s, a)
  {
    hide FillStep, WritebackStep, EvictAndReturn, Owned;
    if e.L2Fill? {
      FillKeepsDirty(s.l2, e.now, LowerWqFull(s), a);
      FillKeepsWq(s.l2, e.now, LowerWqFull(s));
      EvictKeepsOwned(s, FillStep(s.l2, e.now, LowerWqFull(s)), e.now, a);
    } else {
      WritebackKeepsDirty(s.l2, e.now, LowerWqFull(s), a);
      EvictKeepsOwned(s, WritebackStep(s.l2, e.now, LowerWqFull(s)), e.now, a);
    }
  }

  lemma FillKeepsWq(c: Cache, now: nat, full: bool)
    requires Shape(c)
    ensures FillStep(c, now, full).Effect? ==> FillStep(c, now, full).c.wq == c.wq
  {
  }

  lemma ReadAndPrefetchKeepWq(c: Cache, now: nat, full: bool)
    requires Shape(c)
    ensures ReadStep(c, now).Effect? ==> ReadStep(c, now).c.wq == c.wq
    ensures PrefetchStep(c, now, full).Effect? ==> PrefetchStep(c, now, full).c.wq == c.wq
  {
    hide CheckHit, AddMshr, Merge, Touch;
  }

  lemma L2AskStepsKeepOwned(s: Sys, e: Event, a: nat)
    requires Inv(s) && Allowed(s, e) && Step(s, e).Next?
    requires e.L2Read? || e.L2Prefetch?
    ensures OwnersKept(s, Step(s, e).s, a)
  {
    hide ReadStep, PrefetchStep, AskAndReturn, Owned;
    var full := if e.L2Prefetch? then e.lowerPqFull else false;
    NoVictims(s.l2, e.now, full);
    ReadAndPrefetchKeepWq(s.l2, e.now, full);
    if e.L2Read? {
      ReadKeepsDirty(s.l2, e.now, a);
      AskKeepsOwned(s, ReadStep(s.l2, e.now), e.answered, e.now, a);
    } else {
      PrefetchKeepsDirty(s.l2, e.now, e.lowerPqFull, a);
      AskKeepsOwned(s, PrefetchStep(s.l2, e.now, e.lowerPqFull), e.answered, e.now, a);
    }
  }

  /** The lower level drains line `a`, the oldest of its write queue. */
  ghost predicate Drains(s: Sys, e: Event, a: nat) {
    e.LowerDrain? && |s.lowerWq| > 0 && s.lowerWq[0] == a
  }

  /** Every step keeps every dirty line in somebody's hands, and a line that the L2 owns in those of the
      L2 or the level below, unless the lower level drains it. */
  lemma StepKeepsOwned(s: Sys, e: Event, a: nat)
    requires Inv(s) && Allowed(s, e) && !Drains(s, e, a)
    ensures Step(s, e).Next? && OwnersKept(s, Step(s, e).s, a)
  {
    hide Inv, L1FillOutcome, L1WritebackOutcome, L1ReadOutcome, L1PrefetchOutcome, IssueL2Outcome, OwnersKept;
    InvShapes(s);
    StepKeepsInv(s, e);
    if e.L1Writeback? {
      L1WritebackKeepsOwned(s, e.now, a);
    } else if e.L1Read? {
      L1ReadKeepsOwned(s, e.now, a);
    } else if e.L1Prefetch? {
      L1PrefetchKeepsOwned(s, e.now, a);
    } else if e.L1Fill? {
      L1FillKeepsOwned(s, e.now, a);
    } else if e.L2Fill? || e.L2Writeback? {
      L2EvictStepsKeepOwned(s, e, a);
    } else if e.L2Read? || e.L2Prefetch? {
      L2AskStepsKeepOwned(s, e, a);
    } else if e.LowerDrain? {
      DrainKeepsOwned(s, a);
    } else if e.IssueL2Prefetch? {
      IssueKeepsOwned(s, e.p, e.now, a);
    } else {
      SameOwnersOwned(s, Step(s, e).s, a);
    }
  }

  lemma DrainKeepsOwned(s: Sys, a: nat)
    requires Shape(s.l1) && Shape(s.l2) && !Drains(s, LowerDrain, a)
    ensures OwnersKept(s, Step(s, LowerDrain).s, a)
  {
    var t := Step(s, LowerDrain).s;
    SameOwnersOwned(s, t.(lowerWq := s.lowerWq), a);
    assert a in s.lowerWq ==> a in t.lowerWq;
  }

  lemma IssueKeepsOwned(s: Sys, p: Packet, now: nat, a: nat)
    requires IssueL2Outcome(s, p, now).Next?
    ensures OwnersKept(s, IssueL2Outcome(s, p, now).s, a)
  {
    if |s.l2.pq| < s.l2.cfg.pqSize {
      var e := AddPq(s.l2, p, now);
      RequestsKeepBlocks(s.l2, p, now);
      SameOwnersOwned(s, s.(l2 := e.c), a);
      ReturnKeepsOwners(s.(l2 := e.c), e.up, now);
      SameOwnersOwned(s.(l2 := e.c), IssueL2Outcome(s, p, now).s, a);
    }
  }

  /** The lower level does not drain line `a` during the run. */
  ghost predicate Undrained(s: Sys, events: seq<Event>, t: Sys, a: nat)
    requires Run(s, events, t)
    decreases |events|
  {
    |events| == 0 || (!Drains(s, events[0], a) && Undrained(Step(s, events[0]).s, events[1..], t, a))
  }

  lemma {:induction false} RunKeepsOwned(s: Sys, events: seq<Event>, t: Sys, a: nat)
    requires Inv(s) && Run(s, events, t) && Undrained(s, events, t, a)
    ensures OwnersKept(s, t, a)
    decreases |events|
  {
    hide Inv, Allowed, Step, Owned, L2Owned, Drains;
    if |events| > 0 {
      InvShapes(s);
      StepKeepsInv(s, events[0]);
      StepKeepsOwned(s, events[0], a);
      RunKeepsOwned(Step(s, events[0]).s, events[1..], t, a);
    }
  }

  /** From any reachable state, over any run in which the lower level does not drain line `a`: if the line
      is dirty anywhere or on its way down, it stays so. */
  lemma NoDirtyLineDropped(s: Sys, events: seq<Event>, t: Sys, a: nat)
    requires Reachable(s) && Run(s, events, t) && Undrained(s, events, t, a) && Owned(s, a)
    ensures Owned(t, a)
  {
    hide Inv, Run, Owned, Undrained;
    ReachableInv(s);
    RunKeepsOwned(s, events, t, a);
  }

  /** In particular no line is dropped at the L2: dirty in one of its blocks or queued to be written there,
      a line stays dirty in its blocks, in its write queue or in the one below. */
  lemma NoDirtyLineDroppedAtL2(s: Sys, events: seq<Event>, t: Sys, a: nat)
    requires Reachable(s) && Run(s, events, t) && Undrained(s, events, t, a) && L2Owned(s, a)
    ensures L2Owned(t, a)
  {
    hide Inv, Run, L2Owned, Undrained;
    ReachableInv(s);
    RunKeepsOwned(s, events, t, a);
  }
}
