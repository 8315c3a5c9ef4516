/** The two cache levels wired together. Each handler of src/cache.cc is a step of the machine in
    Hierarchy; no assert of the source can fail, and one cycle of operate() is a run. */
module HierarchyDevice {
  import opened Counting
  import opened Packets
  import opened PacketQueues
  import opened Replacement
  import opened MshrFile
  import opened CacheModel
  import opened CacheInvariant
  import opened CacheDevice
  import opened Hierarchy
  import opened MissProtocol
  import opened RequestLife

  // ---- What the invariant gives each handler ----

  lemma L1FillGoes(s: Sys, now: nat)
    requires Inv(s) && now < UINT64_MAX
    ensures Shape(s.l1) && Shape(s.l2) && FillStep(s.l1, now, L2WqFull(s)).Effect?
    ensures L1FillOutcome(s, now).Next? && Inv(L1FillOutcome(s, now).s)
    ensures var d := FillStep(s.l1, now, L2WqFull(s)).victim; d.Some? ==> d.value.address != 0
  {
    L1FillKeepsInv(s, now);
    L1FillAnnounces(s.l1, now, L2WqFull(s));
  }

  lemma L1WritebackGoes(s: Sys, now: nat)
    requires Inv(s)
    ensures Shape(s.l1) && Shape(s.l2) && WritebackStep(s.l1, now, L2WqFull(s)).Effect?
    ensures L1WritebackOutcome(s, now).Next? && Inv(L1WritebackOutcome(s, now).s)
    ensures var d := WritebackStep(s.l1, now, L2WqFull(s)).down; d.Some? ==> d.value.address != 0
  {
    L1WritebackKeepsInv(s, now);
    L1WritebackAnnounces(s.l1, now, L2WqFull(s));
  }

  lemma L1ReadGoes(s: Sys, now: nat)
    requires Inv(s)
    ensures Shape(s.l1) && Shape(s.l2) && ReadStep(s.l1, now).Effect?
    ensures L1ReadOutcome(s, now).Next? && Inv(L1ReadOutcome(s, now).s)
    ensures var d := ReadStep(s.l1, now).down; d.Some? ==> d.value.address != 0
  {
    L1ReadKeepsInv(s, now);
    L1ReadAnnounces(s.l1, now);
  }

  lemma L1PrefetchGoes(s: Sys, now: nat)
    requires Inv(s)
    ensures Shape(s.l1) && Shape(s.l2) && PrefetchStep(s.l1, now, L2PqFull(s)).Effect?
    ensures L1PrefetchOutcome(s, now).Next? && Inv(L1PrefetchOutcome(s, now).s)
    ensures var d := PrefetchStep(s.l1, now, L2PqFull(s)).down; d.Some? ==> d.value.address != 0
  {
    L1PrefetchKeepsInv(s, now);
    L1PrefetchAnnounces(s.l1, now, L2PqFull(s));
  }

  lemma L2FillGoes(s: Sys, now: nat)
    requires Inv(s) && now < UINT64_MAX
    ensures Shape(s.l1) && Shape(s.l2) && FillStep(s.l2, now, LowerWqFull(s)).Effect?
    ensures L2FillOutcome(s, now).Next? && Inv(L2FillOutcome(s, now).s)
  {
    L2FillKeepsInv(s, now);
  }

  lemma L2WritebackGoes(s: Sys, now: nat)
    requires Inv(s)
    ensures Shape(s.l1) && Shape(s.l2) && WritebackStep(s.l2, now, LowerWqFull(s)).Effect?
    ensures L2WritebackOutcome(s, now).Next? && Inv(L2WritebackOutcome(s, now).s)
  {
    L2WritebackKeepsInv(s, now);
  }

  lemma L2ReadGoes(s: Sys, now: nat, answered: bool)
    requires Inv(s)
    ensures Shape(s.l1) && Shape(s.l2) && ReadStep(s.l2, now).Effect?
    ensures L2ReadOutcome(s, now, answered).Next? && Inv(L2ReadOutcome(s, now, answered).s)
  {
    L2ReadKeepsInv(s, now, answered);
  }

  lemma L2PrefetchGoes(s: Sys, now: nat, full: bool, answered: bool)
    requires Inv(s)
    ensures Shape(s.l1) && Shape(s.l2) && PrefetchStep(s.l2, now, full).Effect?
    ensures L2PrefetchOutcome(s, now, full, answered).Next? && Inv(L2PrefetchOutcome(s, now, full, answered).s)
  {
    L2PrefetchKeepsInv(s, now, full, answered);
  }

  function L1Start(now: nat): seq<Event> { [Event.L1Fill(now), Event.L1Writeback(now)] }

  lemma RunNone(s: Sys)
    ensures Run(s, [], s)
  {
  }

  ghost predicate AreReads(events: seq<Event>, now: nat) {
    forall i :: 0 <= i < |events| ==> events[i].L2Read? && events[i].now == now
  }

  ghost predicate ArePrefetches(events: seq<Event>, now: nat) {
    forall i :: 0 <= i < |events| ==> events[i].L2Prefetch? && events[i].now == now
  }

  /** Two runs, one after the other. */
  lemma {:induction false} RunJoin(s: Sys, a: seq<Event>, t: Sys, b: seq<Event>, u: Sys)
    requires Run(s, a, t) && Run(t, b, u)
    ensures Run(s, a + b, u)
    decreases |a|
  {
    hide Step, Allowed;
    if |a| == 0 {
      assert a + b == b;
    } else {
      RunJoin(Step(s, a[0]).s, a[1..], t, b, u);
      assert (a + b)[1..] == a[1..] + b;
    }
  }

  lemma NoPrefetchIdles(s: Sys, now: nat)
    requires Inv(s) && Shape(s.l1) && Shape(s.l2) && |s.l1.pq| == 0
    ensures Step(s, Event.L1Prefetch(now)) == Next(s)
  {
    hide Inv;
    PrefetchTakesOrIdles(s, now);
  }

  /** A cycle from s over mid to t takes at most maxRead requests from the read and prefetch queues, the reads
      first. It takes fewer reads than that only if the next one is not due or cannot go on, and fewer of both
      only if the next prefetch is not due or cannot go on either. */
  ghost predicate Cycled(s: Sys, now: nat, maxRead: nat, mid: Sys, t: Sys) {
    && |mid.l1.rq| == |t.l1.rq| <= |s.l1.rq| && |t.l1.pq| <= |mid.l1.pq| == |s.l1.pq|
    && var loads, both := |s.l1.rq| - |t.l1.rq|, |s.l1.rq| - |t.l1.rq| + |s.l1.pq| - |t.l1.pq|;
    && both <= maxRead
    && (loads < maxRead ==> Shape(mid.l1) && Shape(mid.l2) && Step(mid, Event.L1Read(now)) == Next(mid))
    && (both < maxRead ==> Shape(t.l1) && Shape(t.l2) && Step(t, Event.L1Prefetch(now)) == Next(t))
  }

  function L2Start(now: nat): seq<Event> { [Event.L2Fill(now), Event.L2Writeback(now)] }

  /** The next read of the L2 is not due or cannot go on, whatever the lower level answers. */
  ghost predicate IdlesL2(s: Sys, now: nat) {
    Shape(s.l1) && Shape(s.l2) && forall answered: bool :: Step(s, Event.L2Read(now, answered)) == Next(s)
  }

  /** A cycle of the L2: at most maxRead requests, fewer reads only if the next one cannot be served. */
  ghost predicate CycledL2(s: Sys, now: nat, maxRead: nat, mid: Sys, t: Sys) {
    && |mid.l2.rq| == |t.l2.rq| <= |s.l2.rq| && |t.l2.pq| <= |mid.l2.pq| == |s.l2.pq|
    && |s.l2.rq| - |t.l2.rq| + |s.l2.pq| - |t.l2.pq| <= maxRead
    && (|s.l2.rq| - |t.l2.rq| < maxRead ==> IdlesL2(mid, now))
  }

  class MemorySystem {
    const L1D: CacheLevel
    const L2C: CacheLevel
    var lowerWq: seq<nat>     // addresses in the lower level's write queue
    const lowerWqSize: nat

    ghost function Repr(): set<object> { {this} + L1D.Repr() + L2C.Repr() }

    ghost predicate Valid()
      reads Repr()
    {
      L1D.Valid() && L2C.Valid() && L1D.Repr() !! L2C.Repr() && this !in L1D.Repr() && this !in L2C.Repr()
    }

    ghost function View(): (s: Sys)
      requires Valid()
      reads Repr()
      ensures s.l1.cfg == L1D.cfg && s.l2.cfg == L2C.cfg && s.lowerWqSize == lowerWqSize && s.lowerWq == lowerWq
      ensures Shape(s.l1) && Shape(s.l2)
      ensures |s.l1.rq| == L1D.RQ.occupancy && |s.l1.pq| == L1D.PQ.occupancy <= s.l1.cfg.pqSize
      ensures |s.l2.rq| == L2C.RQ.occupancy && |s.l2.pq| == L2C.PQ.occupancy <= s.l2.cfg.pqSize
      ensures |s.l2.wq| == L2C.WQ.occupancy && |s.l1.wq| == L1D.WQ.occupancy
    {
      Sys(L1D.View(), L2C.View(), lowerWq, lowerWqSize)
    }

    /** Two freshly constructed caches, wired together. The shipping configurations fit: 16 registers in
        the L1D under 32 read slots in the L2 (Hierarchy.ShippingConfigs). */
    constructor (l1d: CacheLevel, l2c: CacheLevel, lowerWqSize: nat)
      requires l1d.Valid() && l2c.Valid() && l1d.Repr() !! l2c.Repr()
      requires IsInitial(l1d.View()) && IsInitial(l2c.View()) && ConfigsOk(l1d.cfg, l2c.cfg)
      ensures Valid() && IsInitialSys(View()) && Inv(View())
      ensures L1D == l1d && L2C == l2c && this.lowerWqSize == lowerWqSize
    {
      hide IsInitial, Inv, l1d.Valid, l1d.View;
      L1D, L2C := l1d, l2c;
      lowerWq := [];
      this.lowerWqSize := lowerWqSize;
      new;
      InitialInv(View());
    }

    // ---- Messages ----

    method ReturnUp(up: Option<Packet>, now: nat)
      requires Valid() && ReturnToL1(View(), up, now).Next?
      modifies L1D.Repr()
      ensures Valid() && View() == ReturnToL1(old(View()), up, now).s
    {
      hide L1D.Valid, L1D.View;
      if up.Some? {
        L1D.ReturnData(up.value, now);
      }
    }

    method SendRq(down: Option<Packet>, now: nat)
      requires Valid() && (down.Some? ==> down.value.address != 0) && SendToL2Rq(View(), down, now).Next?
      modifies Repr()
      ensures Valid() && View() == SendToL2Rq(old(View()), down, now).s
    {
      hide L1D.Valid, L1D.View;
      if down.Some? {
        var code, up := L2C.AddRq(down.value, now);
        ReturnUp(up, now);
      }
    }

    method SendPq(down: Option<Packet>, now: nat)
      requires Valid() && (down.Some? ==> down.value.address != 0) && SendToL2Pq(View(), down, now).Next?
      modifies Repr()
      ensures Valid() && View() == SendToL2Pq(old(View()), down, now).s
    {
      hide L1D.Valid, L1D.View;
      if down.Some? {
        var code, up := L2C.AddPq(down.value, now);
        ReturnUp(up, now);
      }
    }

    method SendWq(victim: Option<Packet>, now: nat)
      requires Valid() && (victim.Some? ==> victim.value.address != 0) && SendToL2Wq(View(), victim, now).Next?
      modifies L2C.Repr()
      ensures Valid() && View() == SendToL2Wq(old(View()), victim, now).s
    {
      hide L1D.Valid, L1D.View;
      if victim.Some? {
        var code := L2C.AddWq(victim.value, now);
      }
    }

    /** add_wq of the lower level, which must not be full. */
    method SendLower(victim: Option<Packet>)
      requires Valid() && SendToLowerWq(View(), victim).Next?
      modifies this
      ensures Valid() && View() == SendToLowerWq(old(View()), victim).s
    {
      if victim.Some? && victim.value.address !in lowerWq {
        assert |lowerWq| < lowerWqSize;
        lowerWq := lowerWq + [victim.value.address];
      }
    }

    method AskLower(down: Option<Packet>, answered: bool, now: nat)
      requires Valid() && AnswerL2(View(), down, answered, now).Next?
      modifies L2C.Repr()
      ensures Valid() && View() == AnswerL2(old(View()), down, answered, now).s
    {
      if down.Some? && answered && down.value.fillLevel < FILL_LLC {
        L2C.ReturnData(down.value, now);
      }
    }

    /** What an L2 handler that evicts sends: the victim down, then the data up. */
    method SendVictimAndData(ghost s: Sys, ghost e: Effect, up: Option<Packet>, victim: Option<Packet>, now: nat)
      requires Valid() && e.Effect? && View() == s.(l2 := e.c) && up == e.up && victim == e.victim
      requires EvictAndReturn(s, e, now).Next?
      modifies Repr()
      ensures Valid() && View() == EvictAndReturn(s, e, now).s
    {
      hide Valid, View, SendToLowerWq, ReturnToL1;
      SendLower(victim);
      ReturnUp(up, now);
    }

    /** What an L2 handler that may miss sends: the request down, or the data up. */
    method SendRequestOrData(ghost s: Sys, ghost e: Effect, up: Option<Packet>, down: Option<Packet>, answered: bool, now: nat)
      requires Valid() && e.Effect? && View() == s.(l2 := e.c) && up == e.up && down == e.down
      requires AskAndReturn(s, e, answered, now).Next?
      modifies Repr()
      ensures Valid() && View() == AskAndReturn(s, e, answered, now).s
    {
      hide Valid, View, AnswerL2, ReturnToL1;
      AskLower(down, answered, now);
      ReturnUp(up, now);
    }

    // ---- One level's part of a handler ----

    method L1FillRound(now: nat, lowerWqFull: bool) returns (up: Option<Packet>, victim: Option<Packet>)
      requires Valid() && FillStep(View().l1, now, lowerWqFull).Effect?
      modifies L1D.Repr()
      ensures Valid()
      ensures var e := FillStep(old(View()).l1, now, lowerWqFull);
        View() == old(View()).(l1 := e.c) && up == e.up && victim == e.victim
    {
      up, victim := L1D.HandleFill(now, lowerWqFull);
    }

    method L1WritebackRound(now: nat, lowerWqFull: bool) returns (up: Option<Packet>, down: Option<Packet>, victim: Option<Packet>)
      requires Valid() && WritebackStep(View().l1, now, lowerWqFull).Effect?
      modifies L1D.Repr()
      ensures Valid()
      ensures var e := WritebackStep(old(View()).l1, now, lowerWqFull);
        View() == old(View()).(l1 := e.c) && up == e.up && down == e.down && victim == e.victim
    {
      up, down, victim := L1D.HandleWriteback(now, lowerWqFull);
    }

    method L1ReadRound(now: nat) returns (up: Option<Packet>, down: Option<Packet>)
      requires Valid() && ReadStep(View().l1, now).Effect?
      modifies L1D.Repr()
      ensures Valid()
      ensures var e := ReadStep(old(View()).l1, now);
        View() == old(View()).(l1 := e.c) && up == e.up && down == e.down
    {
      up, down := L1D.HandleRead(now);
    }

    method L1PrefetchRound(now: nat, lowerPqFull: bool) returns (up: Option<Packet>, down: Option<Packet>)
      requires Valid() && PrefetchStep(View().l1, now, lowerPqFull).Effect?
      modifies L1D.Repr()
      ensures Valid()
      ensures var e := PrefetchStep(old(View()).l1, now, lowerPqFull);
        View() == old(View()).(l1 := e.c) && up == e.up && down == e.down
    {
      up, down := L1D.HandlePrefetch(now, lowerPqFull);
    }

    method L2FillRound(now: nat, lowerWqFull: bool) returns (up: Option<Packet>, victim: Option<Packet>)
      requires Valid() && FillStep(View().l2, now, lowerWqFull).Effect?
      modifies L2C.Repr()
      ensures Valid()
      ensures var e := FillStep(old(View()).l2, now, lowerWqFull);
        View() == old(View()).(l2 := e.c) && up == e.up && victim == e.victim
    {
      up, victim := L2C.HandleFill(now, lowerWqFull);
    }

    method L2WritebackRound(now: nat, lowerWqFull: bool) returns (up: Option<Packet>, down: Option<Packet>, victim: Option<Packet>)
      requires Valid() && WritebackStep(View().l2, now, lowerWqFull).Effect?
      modifies L2C.Repr()
      ensures Valid()
      ensures var e := WritebackStep(old(View()).l2, now, lowerWqFull);
        View() == old(View()).(l2 := e.c) && up == e.up && down == e.down && victim == e.victim
    {
      up, down, victim := L2C.HandleWriteback(now, lowerWqFull);
    }

    method L2ReadRound(now: nat) returns (up: Option<Packet>, down: Option<Packet>)
      requires Valid() && ReadStep(View().l2, now).Effect?
      modifies L2C.Repr()
      ensures Valid()
      ensures var e := ReadStep(old(View()).l2, now);
        View() == old(View()).(l2 := e.c) && up == e.up && down == e.down
    {
      up, down := L2C.HandleRead(now);
    }

    method L2PrefetchRound(now: nat, lowerPqFull: bool) returns (up: Option<Packet>, down: Option<Packet>)
      requires Valid() && PrefetchStep(View().l2, now, lowerPqFull).Effect?
      modifies L2C.Repr()
      ensures Valid()
      ensures var e := PrefetchStep(old(View()).l2, now, lowerPqFull);
        View() == old(View()).(l2 := e.c) && up == e.up && down == e.down
    {
      up, down := L2C.HandlePrefetch(now, lowerPqFull);
    }

    // ---- Handlers: each is one step of the machine, and none fails ----

    method FillL1D(now: nat)
      requires Valid() && Inv(View()) && now < UINT64_MAX
      modifies Repr()
      ensures Valid() && Inv(View()) && Step(old(View()), Event.L1Fill(now)) == Next(View())
    {
      hide Valid, View, Inv, FillStep, SendToL2Rq, SendToL2Pq, SendToL2Wq, SendToLowerWq, AnswerL2, ReturnToL1;
      L1FillGoes(View(), now);
      var up, victim := L1FillRound(now, L2C.WQ.occupancy == L2C.cfg.wqSize);
      SendWq(victim, now);
    }

    method WritebackL1D(now: nat)
      requires Valid() && Inv(View())
      modifies Repr()
      ensures Valid() && Inv(View()) && Step(old(View()), Event.L1Writeback(now)) == Next(View())
    {
      hide Valid, View, Inv, WritebackStep, SendToL2Rq, SendToL2Pq, SendToL2Wq, SendToLowerWq, AnswerL2, ReturnToL1;
      L1WritebackGoes(View(), now);
      var up, down, victim := L1WritebackRound(now, L2C.WQ.occupancy == L2C.cfg.wqSize);
      SendRq(down, now);
    }

    method ReadL1D(now: nat)
      requires Valid() && Inv(View())
      modifies Repr()
      ensures Valid() && Inv(View()) && Step(old(View()), Event.L1Read(now)) == Next(View())
    {
      hide Valid, View, Inv, ReadStep, SendToL2Rq, SendToL2Pq, SendToL2Wq, SendToLowerWq, AnswerL2, ReturnToL1;
      L1ReadGoes(View(), now);
      var up, down := L1ReadRound(now);
      SendRq(down, now);
    }

    method PrefetchL1D(now: nat)
      requires Valid() && Inv(View())
      modifies Repr()
      ensures Valid() && Inv(View()) && Step(old(View()), Event.L1Prefetch(now)) == Next(View())
    {
      hide Valid, View, Inv, PrefetchStep, SendToL2Rq, SendToL2Pq, SendToL2Wq, SendToLowerWq, AnswerL2, ReturnToL1;
      L1PrefetchGoes(View(), now);
      var up, down := L1PrefetchRound(now, L2C.PQ.occupancy == L2C.cfg.pqSize);
      SendPq(down, now);
    }

    method FillL2C(now: nat)
      requires Valid() && Inv(View()) && now < UINT64_MAX
      modifies Repr()
      ensures Valid() && Inv(View()) && Step(old(View()), Event.L2Fill(now)) == Next(View())
    {
      hide Valid, View, Inv, FillStep, EvictAndReturn;
      ghost var s := View();
      L2FillGoes(s, now);
      var up, victim := L2FillRound(now, |lowerWq| == lowerWqSize);
      SendVictimAndData(s, FillStep(s.l2, now, LowerWqFull(s)), up, victim, now);
    }

    method WritebackL2C(now: nat)
      requires Valid() && Inv(View())
      modifies Repr()
      ensures Valid() && Inv(View()) && Step(old(View()), Event.L2Writeback(now)) == Next(View())
    {
      hide Valid, View, Inv, WritebackStep, EvictAndReturn;
      ghost var s := View();
      L2WritebackGoes(s, now);
      var up, down, victim := L2WritebackRound(now, |lowerWq| == lowerWqSize);
      SendVictimAndData(s, WritebackStep(s.l2, now, LowerWqFull(s)), up, victim, now);
    }

    method ReadL2C(now: nat, answered: bool)
      requires Valid() && Inv(View())
      modifies Repr()
      ensures Valid() && Inv(View()) && Step(old(View()), Event.L2Read(now, answered)) == Next(View())
    {
      hide Valid, View, Inv, ReadStep, AskAndReturn;
      ghost var s := View();
      L2ReadGoes(s, now, answered);
      var up, down := L2ReadRound(now);
      SendRequestOrData(s, ReadStep(s.l2, now), up, down, answered, now);
    }

    method PrefetchL2C(now: nat, lowerPqFull: bool, answered: bool)
      requires Valid() && Inv(View())
      modifies Repr()
      ensures Valid() && Inv(View()) && Step(old(View()), Event.L2Prefetch(now, lowerPqFull, answered)) == Next(View())
    {
      hide Valid, View, Inv, PrefetchStep, AskAndReturn;
      ghost var s := View();
      L2PrefetchGoes(s, now, lowerPqFull, answered);
      var up, down := L2PrefetchRound(now, lowerPqFull);
      SendRequestOrData(s, PrefetchStep(s.l2, now, lowerPqFull), up, down, answered, now);
    }

    // ---- Requests from the core and the prefetchers, answers from below ----

    method TakeRead(p: Packet, now: nat) returns (code: int)
      requires Valid() && p.address != 0
      modifies L1D.Repr()
      ensures Valid()
      ensures var e := CacheModel.AddRq(old(View()).l1, p, now); e.Effect? && View() == old(View()).(l1 := e.c)
      ensures code == -2 <==> RqAdmission(old(View()).l1, p) == Refused
    {
      hide L1D.Valid, L1D.View;
      var up;
      code, up := L1D.AddRq(p, now);
    }

    method TakeStore(p: Packet, now: nat)
      requires Valid() && p.address != 0 && |View().l1.wq| < L1D.cfg.wqSize
      modifies L1D.Repr()
      ensures Valid()
      ensures var e := CacheModel.AddWq(old(View()).l1, p, now); e.Effect? && View() == old(View()).(l1 := e.c)
    {
      hide L1D.Valid, L1D.View;
      var code := L1D.AddWq(p, now);
    }

    method TakeData(p: Packet, now: nat)
      requires Valid() && CacheModel.ReturnData(View().l2, p, now).Effect?
      modifies L2C.Repr()
      ensures Valid() && View() == old(View()).(l2 := CacheModel.ReturnData(old(View()).l2, p, now).c)
    {
      hide L1D.Valid, L1D.View;
      L2C.ReturnData(p, now);
    }

    /** execute_load: a load enters the L1D's read queue, or is told to retry (-2). */
    method Load(p: Packet, now: nat) returns (code: int)
      requires Valid() && Inv(View()) && Allowed(View(), CoreRead(p, now))
      modifies Repr()
      ensures Valid() && Inv(View()) && Step(old(View()), CoreRead(p, now)) == Next(View())
      ensures code == -2 <==> RqAdmission(old(View()).l1, p) == Refused
    {
      hide Valid, View, Inv, CacheModel.AddRq;
      StepKeepsInv(View(), CoreRead(p, now));
      code := TakeRead(p, now);
    }

    /** A retiring store enters the L1D's write queue; the core has checked for room. */
    method Store(p: Packet, now: nat)
      requires Valid() && Inv(View()) && Allowed(View(), CoreWrite(p, now))
      modifies Repr()
      ensures Valid() && Inv(View()) && Step(old(View()), CoreWrite(p, now)) == Next(View())
    {
      hide Valid, View, Inv, CacheModel.AddWq;
      StepKeepsInv(View(), CoreWrite(p, now));
      TakeStore(p, now);
    }

    /** The lower level answers a miss of the L2. */
    method ReturnFromBelow(p: Packet, now: nat)
      requires Valid() && Inv(View()) && Allowed(View(), LowerReturn(p, now))
      modifies Repr()
      ensures Valid() && Inv(View()) && Step(old(View()), LowerReturn(p, now)) == Next(View())
    {
      hide Valid, View, Inv, CacheModel.ReturnData;
      StepKeepsInv(View(), LowerReturn(p, now));
      TakeData(p, now);
    }

    // ---- One cycle ----

    /** handle_fill and handle_writeback of the L1D. */
    method StartL1D(now: nat)
      requires Valid() && Inv(View()) && now < UINT64_MAX
      modifies Repr()
      ensures Valid() && Inv(View()) && Run(old(View()), L1Start(now), View())
      ensures View().l1.rq == old(View()).l1.rq && View().l1.pq == old(View()).l1.pq
    {
      hide Valid, View, Inv, FillStep, WritebackStep, Run, Step;
      ghost var s := View();
      RunNone(s);
      FillAndStoreKeepQueues(s, Event.L1Fill(now));
      FillL1D(now);
      ghost var t := View();
      RunExtend(s, [], s, Event.L1Fill(now));
      FillAndStoreKeepQueues(t, Event.L1Writeback(now));
      WritebackL1D(now);
      assert [] + [Event.L1Fill(now)] == [Event.L1Fill(now)];
      RunExtend(s, [Event.L1Fill(now)], t, Event.L1Writeback(now));
      assert [Event.L1Fill(now)] + [Event.L1Writeback(now)] == L1Start(now);
    }

    /** handle_read of the L1D, up to MAX_READ rounds. */
    method ReadsL1D(now: nat, maxRead: nat) returns (available: nat, ghost loads: nat)
      requires Valid() && Inv(View())
      modifies Repr()
      ensures Valid() && Inv(View()) && Run(old(View()), seq(loads, _ => Event.L1Read(now)), View())
      ensures |View().l1.rq| + (maxRead - available) == |old(View()).l1.rq| && View().l1.pq == old(View()).l1.pq
      ensures available <= maxRead && (available > 0 ==> Step(View(), Event.L1Read(now)) == Next(View()))
    {
      hide Valid, View, Inv, Run, Step;
      ghost var s0, s := View(), View();
      RunNone(s0);
      available, loads := maxRead, 0;
      assert seq(0, _ => Event.L1Read(now)) == [];
      var i := 0;
      while i < maxRead && available > 0
        invariant Valid() && Inv(View()) && s == View() && i == loads
        invariant Run(s0, seq(loads, _ => Event.L1Read(now)), s)
        invariant i <= maxRead && available <= maxRead && maxRead - available <= loads
        invariant |s.l1.rq| + (maxRead - available) == |s0.l1.rq| && s.l1.pq == s0.l1.pq
        invariant maxRead - available < loads ==> Step(s, Event.L1Read(now)) == Next(s)
      {
        var before := L1D.RQ.occupancy;
        ReadTakesOrIdles(s, now);
        ReadL1D(now);
        RunExtend(s0, seq(loads, _ => Event.L1Read(now)), s, Event.L1Read(now));
        assert seq(loads, _ => Event.L1Read(now)) + [Event.L1Read(now)] == seq(loads + 1, _ => Event.L1Read(now));
        s, loads := View(), loads + 1;
        if L1D.RQ.occupancy < before {
          available := available - 1;
        }
        i := i + 1;
      }
    }

    /** handle_prefetch of the L1D with what the reads have left. */
    method PrefetchesL1D(now: nat, maxRead: nat, left: nat) returns (available: nat, ghost prefetches: nat)
      requires Valid() && Inv(View()) && left <= maxRead
      modifies Repr()
      ensures Valid() && Inv(View()) && Run(old(View()), seq(prefetches, _ => Event.L1Prefetch(now)), View())
      ensures |View().l1.pq| + (left - available) == |old(View()).l1.pq| && View().l1.rq == old(View()).l1.rq
      ensures available <= left && (available > 0 ==> Step(View(), Event.L1Prefetch(now)) == Next(View()))
    {
      hide Valid, View, Inv, Run, Step;
      ghost var s0, s := View(), View();
      RunNone(s0);
      available, prefetches := left, 0;
      assert seq(0, _ => Event.L1Prefetch(now)) == [];
      var i := 0;
      while i < maxRead && available > 0 && L1D.PQ.occupancy > 0
        invariant Valid() && Inv(View()) && s == View() && i == prefetches
        invariant Run(s0, seq(prefetches, _ => Event.L1Prefetch(now)), s)
        invariant i <= maxRead && available <= left && left - available <= i
        invariant |s.l1.pq| + (left - available) == |s0.l1.pq| && s.l1.rq == s0.l1.rq
        invariant left - available < i ==> Step(s, Event.L1Prefetch(now)) == Next(s)
      {
        var before := L1D.PQ.occupancy;
        PrefetchTakesOrIdles(s, now);
        PrefetchL1D(now);
        RunExtend(s0, seq(prefetches, _ => Event.L1Prefetch(now)), s, Event.L1Prefetch(now));
        assert seq(prefetches, _ => Event.L1Prefetch(now)) + [Event.L1Prefetch(now)] == seq(prefetches + 1, _ => Event.L1Prefetch(now));
        s, prefetches := View(), prefetches + 1;
        if L1D.PQ.occupancy < before {
          available := available - 1;
        }
        i := i + 1;
      }
      if L1D.PQ.occupancy == 0 {
        NoPrefetchIdles(s, now);
      }
    }

    /** operate() of the L1D: fill, store, up to MAX_READ reads, then prefetches with what is left. */
    method OperateL1D(now: nat, maxRead: nat) returns (ghost loads: nat, ghost prefetches: nat, ghost mid: Sys)
      requires Valid() && Inv(View()) && now < UINT64_MAX
      modifies Repr()
      ensures Valid() && Inv(View())
      ensures Run(old(View()), L1Start(now) + seq(loads, _ => Event.L1Read(now)), mid)
      ensures Run(mid, seq(prefetches, _ => Event.L1Prefetch(now)), View())
      ensures Cycled(old(View()), now, maxRead, mid, View())
    {
      hide Valid, View, Inv, Run, Step;
      ghost var s := View();
      StartL1D(now);
      ghost var started := View();
      var available;
      available, loads := ReadsL1D(now, maxRead);
      mid := View();
      RunJoin(s, L1Start(now), started, seq(loads, _ => Event.L1Read(now)), mid);
      var rest;
      rest, prefetches := PrefetchesL1D(now, maxRead, available);
    }

    method StartL2C(now: nat)
      requires Valid() && Inv(View()) && now < UINT64_MAX
      modifies Repr()
      ensures Valid() && Inv(View()) && Run(old(View()), L2Start(now), View())
      ensures View().l2.rq == old(View()).l2.rq && View().l2.pq == old(View()).l2.pq
    {
      hide Valid, View, Inv, FillStep, WritebackStep, Run, Step;
      ghost var s := View();
      RunNone(s);
      L2FillAndWritebackKeepQueues(s, Event.L2Fill(now));
      FillL2C(now);
      ghost var t := View();
      RunExtend(s, [], s, Event.L2Fill(now));
      L2FillAndWritebackKeepQueues(t, Event.L2Writeback(now));
      WritebackL2C(now);
      assert [] + [Event.L2Fill(now)] == [Event.L2Fill(now)];
      RunExtend(s, [Event.L2Fill(now)], t, Event.L2Writeback(now));
      assert [Event.L2Fill(now)] + [Event.L2Writeback(now)] == L2Start(now);
    }

    /** handle_read of the L2, up to MAX_READ rounds; the lower level decides when it answers. */
    method ReadsL2C(now: nat, maxRead: nat) returns (available: nat, ghost loads: seq<Event>)
      requires Valid() && Inv(View())
      modifies Repr()
      ensures Valid() && Inv(View()) && Run(old(View()), loads, View()) && AreReads(loads, now)
      ensures |View().l2.rq| + (maxRead - available) == |old(View()).l2.rq| && View().l2.pq == old(View()).l2.pq
      ensures available <= maxRead && (available > 0 ==> IdlesL2(View(), now))
    {
      hide Valid, View, Inv, Run, Step;
      ghost var s0, s := View(), View();
      RunNone(s0);
      available, loads := maxRead, [];
      var i := 0;
      while i < maxRead && available > 0
        invariant Valid() && Inv(View()) && s == View()
        invariant Run(s0, loads, s) && AreReads(loads, now)
        invariant i <= maxRead && available <= maxRead && maxRead - available <= i
        invariant |s.l2.rq| + (maxRead - available) == |s0.l2.rq| && s.l2.pq == s0.l2.pq
        invariant maxRead - available < i ==> IdlesL2(s, now)
      {
        var before := L2C.RQ.occupancy;
        var answered: bool := *;
        L2ReadTakesOrIdles(s, now, answered);
        ReadL2C(now, answered);
        RunExtend(s0, loads, s, Event.L2Read(now, answered));
        s, loads := View(), loads + [Event.L2Read(now, answered)];
        if L2C.RQ.occupancy < before {
          available := available - 1;
        }
        i := i + 1;
      }
    }

    /** handle_prefetch of the L2; the lower level decides whether it has room. */
    method PrefetchesL2C(now: nat, maxRead: nat, left: nat) returns (available: nat, ghost prefetches: seq<Event>)
      requires Valid() && Inv(View()) && left <= maxRead
      modifies Repr()
      ensures Valid() && Inv(View()) && Run(old(View()), prefetches, View()) && ArePrefetches(prefetches, now)
      ensures available <= left && View().l2.rq == old(View()).l2.rq
      ensures |View().l2.pq| + (left - available) == |old(View()).l2.pq|
    {
      hide Valid, View, Inv, Run, Step;
      ghost var s0, s := View(), View();
      RunNone(s0);
      available, prefetches := left, [];
      var i := 0;
      while i < maxRead && available > 0 && L2C.PQ.occupancy > 0
        invariant Valid() && Inv(View()) && s == View()
        invariant Run(s0, prefetches, s) && ArePrefetches(prefetches, now)
        invariant available <= left && s.l2.rq == s0.l2.rq
        invariant |s.l2.pq| + (left - available) == |s0.l2.pq|
      {
        var before := L2C.PQ.occupancy;
        var lowerPqFull: bool, answered: bool := *, *;
        L2PrefetchTakesOrIdles(s, now, lowerPqFull, answered);
        PrefetchL2C(now, lowerPqFull, answered);
        RunExtend(s0, prefetches, s, Event.L2Prefetch(now, lowerPqFull, answered));
        s, prefetches := View(), prefetches + [Event.L2Prefetch(now, lowerPqFull, answered)];
        if L2C.PQ.occupancy < before {
          available := available - 1;
        }
        i := i + 1;
      }
    }

    /** operate() of the L2. */
    method OperateL2C(now: nat, maxRead: nat)
      returns (ghost loads: seq<Event>, ghost prefetches: seq<Event>, ghost mid: Sys)
      requires Valid() && Inv(View()) && now < UINT64_MAX
      modifies Repr()
      ensures Valid() && Inv(View()) && AreReads(loads, now) && ArePrefetches(prefetches, now)
      ensures Run(old(View()), L2Start(now) + loads, mid) && Run(mid, prefetches, View())
      ensures CycledL2(old(View()), now, maxRead, mid, View())
    {
      hide Valid, View, Inv, Run, Step, IdlesL2;
      ghost var s := View();
      StartL2C(now);
      ghost var started := View();
      var available;
      available, loads := ReadsL2C(now, maxRead);
      mid := View();
      RunJoin(s, L2Start(now), started, loads, mid);
      var rest;
      rest, prefetches := PrefetchesL2C(now, maxRead, available);
    }
  }
}
