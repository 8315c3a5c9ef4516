/** An L1D above an L2 above an unspecified lower level, as one step machine (src/cache.cc).
    A handler's messages reach the neighbouring level in the same step. The core, the
    prefetchers, the clock and the lower level are the events. */
module Hierarchy {
  import opened Counting
  import opened Packets
  import opened MshrFile
  import opened CacheModel
  import HashIndex

  /** `lowerWq` holds the addresses queued in the lower level's write queue. */
  datatype Sys = Sys(l1: Cache, l2: Cache, lowerWq: seq<nat>, lowerWqSize: nat)

  datatype Event =
    | CoreRead(p: Packet, now: nat)
    | CoreWrite(p: Packet, now: nat)
    | IssueL1Prefetch(p: Packet, now: nat)
    | IssueL2Prefetch(p: Packet, now: nat)
    | L1Fill(now: nat)
    | L1Writeback(now: nat)
    | L1Read(now: nat)
    | L1Prefetch(now: nat)
    | L2Fill(now: nat)
    | L2Writeback(now: nat)
    | L2Read(now: nat, answered: bool)
    | L2Prefetch(now: nat, lowerPqFull: bool, answered: bool)
    | LowerReturn(p: Packet, now: nat)
    | LowerDrain

  /** Failed is a failed assert, or data returned to a level that does not exist. */
  datatype Outcome = Next(s: Sys) | Failed

  // ---- Delivery of messages ----

  /** return_data at the L1D. */
  function ReturnToL1(s: Sys, up: Option<Packet>, now: nat): Outcome {
    match up
    case None => Next(s)
    case Some(p) =>
      var e := ReturnData(s.l1, p, now);
      if e.Abort? then Failed else Next(s.(l1 := e.c))
  }

  function SendToL2Rq(s: Sys, down: Option<Packet>, now: nat): Outcome {
    match down
    case None => Next(s)
    case Some(p) =>
      var e := AddRq(s.l2, p, now);
      if e.Abort? then Failed else ReturnToL1(s.(l2 := e.c), e.up, now)
  }

  function SendToL2Pq(s: Sys, down: Option<Packet>, now: nat): Outcome {
    match down
    case None => Next(s)
    case Some(p) =>
      var e := AddPq(s.l2, p, now);
      if e.Abort? then Failed else ReturnToL1(s.(l2 := e.c), e.up, now)
  }

  function SendToL2Wq(s: Sys, victim: Option<Packet>, now: nat): Outcome {
    match victim
    case None => Next(s)
    case Some(p) =>
      var e := AddWq(s.l2, p, now);
      if e.Abort? then Failed else Next(s.(l2 := e.c))
  }

  /** add_wq of the lower level: merges, or appends to a queue that must not be full. */
  function SendToLowerWq(s: Sys, victim: Option<Packet>): Outcome {
    match victim
    case None => Next(s)
    case Some(p) =>
      if p.address in s.lowerWq then Next(s)
      else if |s.lowerWq| >= s.lowerWqSize then Failed
      else Next(s.(lowerWq := s.lowerWq + [p.address]))
  }

  /** The lower level may answer a request at once, from its own write queue. */
  function AnswerL2(s: Sys, down: Option<Packet>, answered: bool, now: nat): Outcome {
    if down.Some? && answered && down.value.fillLevel < FILL_LLC then
      var e := ReturnData(s.l2, down.value, now);
      if e.Abort? then Failed else Next(s.(l2 := e.c))
    else Next(s)
  }

  // ---- Steps ----

  function L2WqFull(s: Sys): bool { |s.l2.wq| == s.l2.cfg.wqSize }

  function L2PqFull(s: Sys): bool { |s.l2.pq| == s.l2.cfg.pqSize }

  function LowerWqFull(s: Sys): bool { |s.lowerWq| == s.lowerWqSize }

  /** The L1D has no upper cache: an upward message from it would go nowhere. */
  function FromL1(s: Sys, e: Effect): Outcome {
    if e.Abort? || e.up.Some? then Failed else Next(s.(l1 := e.c))
  }

  function FromL2(s: Sys, e: Effect): Outcome {
    if e.Abort? then Failed else Next(s.(l2 := e.c))
  }

  function L1FillOutcome(s: Sys, now: nat): Outcome
    requires Shape(s.l1)
  {
    var e := FillStep(s.l1, now, L2WqFull(s));
    var o := FromL1(s, e);
    if o.Failed? then Failed else SendToL2Wq(o.s, e.victim, now)
  }

  function L1WritebackOutcome(s: Sys, now: nat): Outcome
    requires Shape(s.l1)
  {
    var e := WritebackStep(s.l1, now, L2WqFull(s));
    var o := FromL1(s, e);
    if o.Failed? then Failed else SendToL2Rq(o.s, e.down, now)
  }

  function L1ReadOutcome(s: Sys, now: nat): Outcome
    requires Shape(s.l1)
  {
    var e := ReadStep(s.l1, now);
    var o := FromL1(s, e);
    if o.Failed? then Failed else SendToL2Rq(o.s, e.down, now)
  }

  function L1PrefetchOutcome(s: Sys, now: nat): Outcome
    requires Shape(s.l1)
  {
    var e := PrefetchStep(s.l1, now, L2PqFull(s));
    var o := FromL1(s, e);
    if o.Failed? then Failed else SendToL2Pq(o.s, e.down, now)
  }

  /** An L2 handler that evicts: the victim goes down before the data goes up. */
  function EvictAndReturn(s: Sys, e: Effect, now: nat): Outcome {
    var o := FromL2(s, e);
    if o.Failed? then Failed else
      var o' := SendToLowerWq(o.s, e.victim);
      if o'.Failed? then Failed else ReturnToL1(o'.s, e.up, now)
  }

  /** An L2 handler that may miss: the request goes down, or the data goes up. */
  function AskAndReturn(s: Sys, e: Effect, answered: bool, now: nat): Outcome {
    var o := FromL2(s, e);
    if o.Failed? then Failed else
      var o' := AnswerL2(o.s, e.down, answered, now);
      if o'.Failed? then Failed else ReturnToL1(o'.s, e.up, now)
  }

  function L2FillOutcome(s: Sys, now: nat): Outcome
    requires Shape(s.l2)
  {
    EvictAndReturn(s, FillStep(s.l2, now, LowerWqFull(s)), now)
  }

  function L2WritebackOutcome(s: Sys, now: nat): Outcome
    requires Shape(s.l2)
  {
    EvictAndReturn(s, WritebackStep(s.l2, now, LowerWqFull(s)), now)
  }

  function L2ReadOutcome(s: Sys, now: nat, answered: bool): Outcome
    requires Shape(s.l2)
  {
    AskAndReturn(s, ReadStep(s.l2, now), answered, now)
  }

  function L2PrefetchOutcome(s: Sys, now: nat, lowerPqFull: bool, answered: bool): Outcome
    requires Shape(s.l2)
  {
    AskAndReturn(s, PrefetchStep(s.l2, now, lowerPqFull), answered, now)
  }

  /** prefetch_line drops the request when its queue is full. */
  function IssueL1Outcome(s: Sys, p: Packet, now: nat): Outcome {
    if |s.l1.pq| < s.l1.cfg.pqSize then FromL1(s, AddPq(s.l1, p, now)) else Next(s)
  }

  function IssueL2Outcome(s: Sys, p: Packet, now: nat): Outcome {
    if |s.l2.pq| < s.l2.cfg.pqSize then
      var e := AddPq(s.l2, p, now);
      var o := FromL2(s, e);
      if o.Failed? then Failed else ReturnToL1(o.s, e.up, now)
    else Next(s)
  }

  function Step(s: Sys, e: Event): Outcome
    requires Shape(s.l1) && Shape(s.l2)
  {
    match e
    case CoreRead(p, now) => FromL1(s, AddRq(s.l1, p, now))
    case CoreWrite(p, now) => FromL1(s, AddWq(s.l1, p, now))
    case IssueL1Prefetch(p, now) => IssueL1Outcome(s, p, now)
    case IssueL2Prefetch(p, now) => IssueL2Outcome(s, p, now)
    case L1Fill(now) => L1FillOutcome(s, now)
    case L1Writeback(now) => L1WritebackOutcome(s, now)
    case L1Read(now) => L1ReadOutcome(s, now)
    case L1Prefetch(now) => L1PrefetchOutcome(s, now)
    case L2Fill(now) => L2FillOutcome(s, now)
    case L2Writeback(now) => L2WritebackOutcome(s, now)
    case L2Read(now, answered) => L2ReadOutcome(s, now, answered)
    case L2Prefetch(now, full, answered) => L2PrefetchOutcome(s, now, full, answered)
    case LowerReturn(p, now) => FromL2(s, ReturnData(s.l2, p, now))
    case LowerDrain => if |s.lowerWq| == 0 then Next(s) else Next(s.(lowerWq := s.lowerWq[1..]))
  }

  // ---- What the environment may do ----

  /** Fill levels are single bits: L1, L2, LLC or below. */
  predicate FillBit(level: int) {
    level == FILL_L1 || level == FILL_L2 || level >= FILL_LLC
  }

  /** The core issues loads and stores that fill the L1D, and checks the write queue for room;
      the L2's own prefetcher fills the L2 or below; the lower level answers an in-flight request. */
  predicate Allowed(s: Sys, e: Event) {
    match e
    case CoreRead(p, now) => p.address != 0 && p.fillLevel == FILL_L1 && (p.kind == LOAD || p.kind == RFO)
    case CoreWrite(p, now) => p.address != 0 && p.fillLevel == FILL_L1 && p.kind == RFO && |s.l1.wq| < s.l1.cfg.wqSize
    case IssueL1Prefetch(p, now) => p.address != 0 && FillBit(p.fillLevel) && p.kind == PREFETCH
    case IssueL2Prefetch(p, now) => p.address != 0 && FillBit(p.fillLevel) && p.fillLevel >= FILL_L2 && p.kind == PREFETCH
    case L1Fill(now) => now < UINT64_MAX
    case L2Fill(now) => now < UINT64_MAX
    case LowerReturn(p, now) => p.address != 0 && Count(s.l2.mshr.entry, InflightAt(p.address)) > 0
    case _ => true
  }

  const L1DConfig := Config(true, FILL_L1, 64, 8, 16, 64, 64, 8, 4)
  const L2CConfig := Config(false, FILL_L2, 512, 8, 32, 32, 32, 32, 10)

  /** An L1D over an L2 whose read queue can hold all the misses the L1D can have in flight. */
  ghost predicate ConfigsOk(c1: Config, c2: Config) {
    && c1.isL1D && c1.fillLevel == FILL_L1 && !c2.isL1D && c2.fillLevel == FILL_L2
    && c1.mshrSize <= c2.rqSize
  }

  /** The shipping caches have 64 and 512 sets, selected by the low bits of the line. */
  lemma ShippingConfigs(a: nat)
    ensures ConfigsOk(L1DConfig, L2CConfig)
    ensures GetSet(L1DConfig, a) == a % 64 && GetSet(L2CConfig, a) == a % 512
  {
    assert HashIndex.Pow2(6) == 64 && HashIndex.Pow2(9) == 512;
    SetMeaning(L1DConfig, 6, a);
    SetMeaning(L2CConfig, 9, a);
  }

  ghost predicate IsInitialSys(s: Sys) {
    IsInitial(s.l1) && IsInitial(s.l2) && ConfigsOk(s.l1.cfg, s.l2.cfg) && |s.lowerWq| == 0
  }

  // ---- Runs ----

  /** `events` lead from `s` to `t`, each allowed when it happens, none failing an assert. */
  ghost predicate Run(s: Sys, events: seq<Event>, t: Sys)
    decreases |events|
  {
    if |events| == 0 then s == t
    else
      && Shape(s.l1) && Shape(s.l2) && Allowed(s, events[0])
      && Step(s, events[0]).Next?
      && Run(Step(s, events[0]).s, events[1..], t)
  }

  /** One more step at the end of a run. */
  lemma {:induction false} RunExtend(s: Sys, events: seq<Event>, t: Sys, e: Event)
    requires Run(s, events, t) && Shape(t.l1) && Shape(t.l2) && Allowed(t, e) && Step(t, e).Next?
    ensures Run(s, events + [e], Step(t, e).s)
    decreases |events|
  {
    if |events| > 0 {
      RunExtend(Step(s, events[0]).s, events[1..], t, e);
      assert (events + [e])[1..] == events[1..] + [e];
    } else {
      assert [e][1..] == [] && ([] + [e])[0] == e;
      assert Run(Step(t, e).s, [], Step(t, e).s);
    }
  }

  ghost predicate Reachable(s: Sys) {
    exists s0, events :: IsInitialSys(s0) && Run(s0, events, s)
  }
}
