/** When a store leaves its line dirty in the L1D, and when it does not (src/cache.cc). */
module StoreDirtiness {
  import opened Packets
  import opened Replacement
  import opened MshrFile
  import opened CacheModel
  import opened CacheInvariant
  import Counting
  import opened Hierarchy
  import opened MissProtocol
  import opened L1Residency
  import opened DirtyOwnership

  /** A store that hits makes its line dirty; so does a writeback from above that hits. */
  lemma StoreHitMakesDirty(c: Cache, now: nat, full: bool)
    requires CacheOk(c) && |c.wq| > 0 && c.wq[0].eventCycle <= now && CheckHit(c, c.wq[0].address) >= 0
    ensures var e := WritebackStep(c, now, full); e.Effect? && DirtyIn(e.c, c.wq[0].address)
  {
    hide MshrOk, QueueOk, Conserved, SetOk;
    var p := c.wq[0];
    HitKeepsDirty(c, GetSet(c.cfg, p.address), CheckHit(c, p.address), p, WritebackStep(c, now, full).c, p.address);
  }

  /** The line a fill round installs, and where. */
  ghost predicate FillsNow(c: Cache, now: nat) {
    var m := c.mshr;
    m.nextFillIndex < |m.entry| && m.entry[m.nextFillIndex].address != 0 && m.nextFillCycle <= now
  }

  /** The block a fill installs is valid, marked as prefetched exactly for a prefetch, and in the L1D dirty
      exactly for a store. */
  lemma FillInstalls(c: Cache, now: nat, full: bool)
    requires CacheOk(c) && FillsNow(c, now) && now < UINT64_MAX
    ensures var p := c.mshr.entry[c.mshr.nextFillIndex];
      var s := GetSet(c.cfg, p.address);
      var way := LruVictim(c.blocks[s]);
      var e := FillStep(c, now, full);
      && way < c.cfg.numWays && e.Effect?
      && if c.blocks[s][way].dirty && full then e.c == c
         else
           var b := e.c.blocks[s][way];
           && b.valid && b.tag == b.address == p.address && b.dirty == (c.cfg.isL1D && p.kind == RFO)
           && b.prefetch == (p.kind == PREFETCH) && !b.used
  {
    hide MshrOk, QueueOk, Conserved, SetOk;
    FillStepOk(c, now, full);
    VictimInRange(c, GetSet(c.cfg, c.mshr.entry[c.mshr.nextFillIndex].address));
  }

  /** In an L1D whose in-flight lines are not resident, the filled line is dirty exactly for a store. */
  lemma FilledDirtyExactlyForStores(c: Cache, now: nat, full: bool)
    requires CacheOk(c) && c.cfg.isL1D && Resident(c) && FillsNow(c, now) && now < UINT64_MAX
    requires FillStep(c, now, full).Effect? && FillStep(c, now, full).c != c
    ensures var p := c.mshr.entry[c.mshr.nextFillIndex];
      DirtyIn(FillStep(c, now, full).c, p.address) <==> p.kind == RFO
  {
    hide MshrOk, QueueOk, Conserved;
    var p := c.mshr.entry[c.mshr.nextFillIndex];
    var s := GetSet(c.cfg, p.address);
    var way := LruVictim(c.blocks[s]);
    var d := FillStep(c, now, full).c;
    FillInstalls(c, now, full);
    if p.kind == RFO {
      assert DirtyAt(d.blocks, s, way, p.address);
    }
    forall t, v | 0 <= t < |d.blocks| && 0 <= v < |d.blocks[t]| && DirtyAt(d.blocks, t, v, p.address)
      ensures t == s && v == way
    {
      NotDirtyBefore(c, t, v, p.address);
    }
  }

  /** A line that is nowhere resident is nowhere dirty. */
  lemma NotDirtyBefore(c: Cache, t: nat, v: nat, a: nat)
    requires CacheOk(c) && Unheld(c.blocks, a) && t < |c.blocks| && v < |c.blocks[t]|
    ensures !(c.blocks[t][v].dirty && c.blocks[t][v].address == a)
  {
    assert SetOk(c.cfg, t, c.blocks[t]);
    assert BlockOk(c.cfg, t, c.blocks[t][v]);
    assert !L1Residency.Holds(c.blocks[t][v], a);
  }

  // ---- The kind of a register ----

  /** A register waits for line `a` on behalf of an access of kind `k`. */
  ghost predicate Registered(c: Cache, a: nat, k: Kind) {
    exists i :: 0 <= i < |c.mshr.entry| && c.mshr.entry[i].address == a && c.mshr.entry[i].kind == k
  }

  /** The kind of the register that a store miss on line `a` waits in: a demand load that is in flight for
      the line keeps its register. */
  function KindAfterStore(m: Mshr, a: nat): Kind {
    var i := CheckMshr(m, a);
    if i == -1 || m.entry[i].kind == PREFETCH then RFO else m.entry[i].kind
  }

  /** A store miss that does not stall waits in a register. */
  lemma StoreMissRegisters(c: Cache, p: Packet, popped: Cache)
    requires CacheOk(c) && p.address != 0 && p.kind == RFO
    requires c.mshr.occupancy < c.cfg.mshrSize || CheckMshr(c.mshr, p.address) != -1
    ensures DemandMiss(c, p, popped).Effect? && Registered(DemandMiss(c, p, popped).c, p.address, KindAfterStore(c.mshr, p.address))
  {
    hide QueueOk, SetOk, Conserved;
    var i, m := CheckMshr(c.mshr, p.address), DemandMiss(c, p, popped).c.mshr;
    if i == -1 {
      FreeRegister(c.mshr);
      assert m.entry[FirstMatch(c.mshr.entry, 0, false)].kind == RFO;
    } else {
      assert m.entry[i].address == p.address;
    }
  }

  lemma FreeRegister(m: Mshr)
    requires MshrOk(m) && m.occupancy < |m.entry|
    ensures FirstMatch(m.entry, 0, false) >= 0
  {
    Counting.CountBound(m.entry, IsUsed());
    var k :| 0 <= k < |m.entry| && !IsUsed()(m.entry[k]);
    assert KeyOf(m.entry[k], false) == 0;
  }

  /** A demand's register keeps its kind through every miss of the same cache. */
  lemma DemandMissKeepsKind(c: Cache, p: Packet, popped: Cache, a: nat, k: Kind)
    requires a != 0 && k != PREFETCH && Registered(c, a, k) && popped.mshr == c.mshr
    ensures var e := DemandMiss(c, p, popped); e.Effect? ==> Registered(e.c, a, k)
  {
    var i :| 0 <= i < |c.mshr.entry| && c.mshr.entry[i].address == a && c.mshr.entry[i].kind == k;
    var e := DemandMiss(c, p, popped);
    assert e.Effect? ==> e.c.mshr.entry[i].address == a && e.c.mshr.entry[i].kind == k;
  }

  lemma PrefetchMissKeepsKind(c: Cache, p: Packet, popped: Cache, full: bool, a: nat, k: Kind)
    requires a != 0 && Registered(c, a, k) && popped.mshr == c.mshr
    ensures var e := PrefetchMiss(c, p, popped, full); e.Effect? ==> Registered(e.c, a, k)
  {
    var i :| 0 <= i < |c.mshr.entry| && c.mshr.entry[i].address == a && c.mshr.entry[i].kind == k;
    var e := PrefetchMiss(c, p, popped, full);
    assert e.Effect? ==> e.c.mshr.entry[i].address == a && e.c.mshr.entry[i].kind == k;
  }

  lemma HandlersKeepKind(c: Cache, now: nat, full: bool, a: nat, k: Kind)
    requires Shape(c) && a != 0 && k != PREFETCH && Registered(c, a, k)
    ensures ReadStep(c, now).Effect? ==> Registered(ReadStep(c, now).c, a, k)
    ensures PrefetchStep(c, now, full).Effect? ==> Registered(PrefetchStep(c, now, full).c, a, k)
    ensures c.cfg.isL1D && WritebackStep(c, now, full).Effect? ==> Registered(WritebackStep(c, now, full).c, a, k)
  {
    hide DemandMiss, PrefetchMiss, Registered, Touch, GetSet;
    if |c.rq| > 0 {
      DemandMissKeepsKind(c, c.rq[0], c.(rq := c.rq[1..], stats := c.stats.CountMiss(c.rq[0].kind)), a, k);
      SameRegisters(c, ReadStep(c, now), a, k);
    }
    if |c.pq| > 0 {
      PrefetchMissKeepsKind(c, c.pq[0], c.(pq := c.pq[1..], stats := c.stats.CountMiss(c.pq[0].kind)), full, a, k);
      SameRegisters(c, PrefetchStep(c, now, full), a, k);
    }
    if |c.wq| > 0 {
      DemandMissKeepsKind(c, c.wq[0], c.(wq := c.wq[1..], stats := c.stats.CountMiss(c.wq[0].kind)), a, k);
      SameRegisters(c, WritebackStep(c, now, full), a, k);
    }
  }

  lemma SameRegisters(c: Cache, e: Effect, a: nat, k: Kind)
    requires Registered(c, a, k)
    ensures e.Effect? && e.c.mshr == c.mshr ==> Registered(e.c, a, k)
  {
  }

  lemma CompletesKeepsKind(c: Cache, d: Cache, a: nat, k: Kind)
    requires Registered(c, a, k) && OnlyCompletes(c, d)
    ensures Registered(d, a, k)
  {
    var i :| 0 <= i < |c.mshr.entry| && c.mshr.entry[i].address == a && c.mshr.entry[i].kind == k;
    assert d.mshr.entry[i].address == a;
  }

  // ---- From the miss to the fill ----

  /** The event is the fill of line `a` into the L1D, and it does not wait for a dirty victim. */
  ghost predicate FillsLine(s: Sys, e: Event, a: nat)
    requires Shape(s.l1)
  {
    && e.L1Fill? && FillsNow(s.l1, e.now) && s.l1.mshr.entry[s.l1.mshr.nextFillIndex].address == a
    && FillStep(s.l1, e.now, L2WqFull(s)).Effect? && FillStep(s.l1, e.now, L2WqFull(s)).c != s.l1
  }

  lemma OtherFillKeepsKind(s: Sys, now: nat, a: nat, k: Kind)
    requires Inv(s) && now < UINT64_MAX && a != 0 && Registered(s.l1, a, k) && !FillsLine(s, L1Fill(now), a)
    ensures FillStep(s.l1, now, L2WqFull(s)).Effect? && Registered(FillStep(s.l1, now, L2WqFull(s)).c, a, k)
  {
    hide BlocksOk, QueuesOk, MshrOk, Conserved, Install;
    InvParts(s);
    FillStepOk(s.l1, now, L2WqFull(s));
    var c, d := s.l1, FillStep(s.l1, now, L2WqFull(s)).c;
    if d != c {
      var i :| 0 <= i < |c.mshr.entry| && c.mshr.entry[i].address == a && c.mshr.entry[i].kind == k;
      assert d.mshr.entry[i].address == a && d.mshr.entry[i].kind == k;
    }
  }

  /** Every step other than the fill of the line keeps the kind of a demand's register. */
  lemma StepKeepsKind(s: Sys, e: Event, a: nat, k: Kind)
    requires Inv(s) && Allowed(s, e) && a != 0 && k != PREFETCH && Registered(s.l1, a, k)
    requires Shape(s.l1) && !FillsLine(s, e, a)
    ensures Step(s, e).Next? && Registered(Step(s, e).s.l1, a, k)
  {
    hide Inv, FillStep, WritebackStep, ReadStep, PrefetchStep, SendToL2Wq, SendToL2Rq, SendToL2Pq, Registered, FillsLine;
    InvParts(s);
    StepKeepsInv(s, e);
    if e.L1Fill? {
      OtherFillKeepsKind(s, e.now, a, k);
      var f := FillStep(s.l1, e.now, L2WqFull(s));
      RequestOnlyCompletes(s.(l1 := f.c), f.victim, e.now);
      CompletesKeepsKind(f.c, Step(s, e).s.l1, a, k);
    } else if e.L1Writeback? || e.L1Read? || e.L1Prefetch? {
      HandlersKeepKind(s.l1, e.now, if e.L1Prefetch? then L2PqFull(s) else L2WqFull(s), a, k);
      var f := if e.L1Writeback? then WritebackStep(s.l1, e.now, L2WqFull(s))
               else if e.L1Read? then ReadStep(s.l1, e.now) else PrefetchStep(s.l1, e.now, L2PqFull(s));
      RequestOnlyCompletes(s.(l1 := f.c), f.down, e.now);
      CompletesKeepsKind(f.c, Step(s, e).s.l1, a, k);
    } else {
      OtherStepOnlyCompletes(s, e);
      CompletesKeepsKind(s.l1, Step(s, e).s.l1, a, k);
    }
  }

  /** The fill of the line makes it dirty exactly for a register of kind RFO. */
  lemma FillEndsWait(s: Sys, e: Event, a: nat, k: Kind)
    requires Inv(s) && Resident(s.l1) && Allowed(s, e) && a != 0 && Registered(s.l1, a, k)
    requires Shape(s.l1) && FillsLine(s, e, a)
    ensures Shape(s.l2) && Step(s, e).Next? && (DirtyIn(Step(s, e).s.l1, a) <==> k == RFO)
  {
    hide BlocksOk, QueuesOk, Conserved, Install, Resident;
    InvParts(s);
    StepKeepsInv(s, e);
    FilledDirtyExactlyForStores(s.l1, e.now, L2WqFull(s));
    var f := FillStep(s.l1, e.now, L2WqFull(s));
    RequestOnlyCompletes(s.(l1 := f.c), f.victim, e.now);
    SameBlocksDirty(f.c, Step(s, e).s.l1, a);
  }

  lemma SameBlocksDirty(c: Cache, d: Cache, a: nat)
    requires c.blocks == d.blocks
    ensures DirtyIn(c, a) <==> DirtyIn(d, a)
  {
  }

  /** The line is not filled during the run. */
  ghost predicate Waits(s: Sys, events: seq<Event>, t: Sys, a: nat)
    requires Run(s, events, t)
    decreases |events|
  {
    |events| == 0 || (!FillsLine(s, events[0], a) && Waits(Step(s, events[0]).s, events[1..], t, a))
  }

  lemma {:induction false} RunKeepsKind(s: Sys, events: seq<Event>, t: Sys, a: nat, k: Kind)
    requires Inv(s) && Run(s, events, t) && Waits(s, events, t, a) && a != 0 && k != PREFETCH && Registered(s.l1, a, k)
    ensures Inv(t) && Registered(t.l1, a, k)
    decreases |events|
  {
    hide Inv, Allowed, Step, Registered, FillsLine;
    if |events| > 0 {
      StepKeepsInv(s, events[0]);
      StepKeepsKind(s, events[0], a, k);
      RunKeepsKind(Step(s, events[0]).s, events[1..], t, a, k);
    }
  }

  /** The store at the head of the L1D's write queue misses, and finds or gets a register. */
  ghost predicate StoreMisses(c: Cache, now: nat)
    requires Shape(c)
  {
    && |c.wq| > 0 && c.wq[0].eventCycle <= now && c.wq[0].kind == RFO && CheckHit(c, c.wq[0].address) < 0
    && (c.mshr.occupancy < c.cfg.mshrSize || CheckMshr(c.mshr, c.wq[0].address) != -1)
  }

  lemma StoreMissStep(s: Sys, now: nat)
    requires Inv(s) && Shape(s.l1) && Shape(s.l2) && StoreMisses(s.l1, now)
    ensures var a := s.l1.wq[0].address;
      a != 0 && Step(s, L1Writeback(now)).Next? && Registered(Step(s, L1Writeback(now)).s.l1, a, KindAfterStore(s.l1.mshr, a))
  {
    hide DemandMiss, Registered, SendToL2Rq, MshrOk, BlocksOk, Conserved;
    StepKeepsInv(s, L1Writeback(now));
    var c := s.l1;
    FirstQueued(c.wq, c.cfg.wqSize, c.cfg.isL1D);
    StoreMissRegisters(c, c.wq[0], c.(wq := c.wq[1..], stats := c.stats.CountMiss(c.wq[0].kind)));
    var f := WritebackStep(c, now, L2WqFull(s));
    RequestOnlyCompletes(s.(l1 := f.c), f.down, now);
    CompletesKeepsKind(f.c, Step(s, L1Writeback(now)).s.l1, c.wq[0].address, KindAfterStore(c.mshr, c.wq[0].address));
  }

  /** From any reachable state, over any run from a store miss to the fill of its line: the store leaves the
      line dirty in the L1D exactly when no demand load was in flight for the line when the store missed. */
  lemma StoreLeavesDirtyExactlyWhen(s: Sys, now: nat, events: seq<Event>, t: Sys, fill: Event)
    requires Reachable(s) && Shape(s.l1) && Shape(s.l2) && StoreMisses(s.l1, now) && Step(s, L1Writeback(now)).Next?
    requires var u := Step(s, L1Writeback(now)).s;
      Run(u, events, t) && Waits(u, events, t, s.l1.wq[0].address)
    requires Shape(t.l1) && Shape(t.l2) && Allowed(t, fill) && FillsLine(t, fill, s.l1.wq[0].address)
    ensures var a := s.l1.wq[0].address;
      Step(t, fill).Next? && (DirtyIn(Step(t, fill).s.l1, a) <==>
        CheckMshr(s.l1.mshr, a) == -1 || s.l1.mshr.entry[CheckMshr(s.l1.mshr, a)].kind in {PREFETCH, RFO})
  {
    hide Inv, Step, Registered, Run, Waits, FillsLine, Resident, DirtyIn;
    var a := s.l1.wq[0].address;
    ReachableInv(s);
    InFlightOrResident(s);
    StoreMissStep(s, now);
    StepKeepsInv(s, L1Writeback(now));
    StepKeepsResident(s, L1Writeback(now));
    var u := Step(s, L1Writeback(now)).s;
    RunKeepsKind(u, events, t, a, KindAfterStore(s.l1.mshr, a));
    RunKeepsResident(u, events, t);
    FillEndsWait(t, fill, a, KindAfterStore(s.l1.mshr, a));
  }
}
