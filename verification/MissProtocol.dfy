/** The miss request/return protocol between the L1D and the L2: in every reachable state the L2
    owes the L1D one return for each miss the L1D has in flight, and none for any other line. */
module MissProtocol {
  import opened Counting
  import opened Packets
  import opened Replacement
  import opened MshrFile
  import opened CacheModel
  import opened CacheInvariant
  import opened Hierarchy

  // ---- What the L2 owes, and what the L1D waits for ----

  /** An item for line `a` that fills a level above the L2 will be returned to the L1D. */
  function Owes(a: nat): Packet -> bool {
    (p: Packet) => p.address == a && p.fillLevel < FILL_L2
  }

  function Owed(l2: Cache, a: nat): nat {
    Count(l2.rq, Owes(a)) + Count(l2.pq, Owes(a)) + Count(l2.mshr.entry, Owes(a))
  }

  function Waiting(l1: Cache, a: nat): nat {
    Count(l1.mshr.entry, InflightAt(a))
  }

  /** One message that will lead to a return, or is one. */
  function Asks(m: Option<Packet>, a: nat): nat {
    if m.Some? && m.value.address == a && m.value.fillLevel < FILL_L2 then 1 else 0
  }

  /** The central invariant. */
  ghost predicate ExactlyOnce(l1: Cache, l2: Cache) {
    forall a: nat :: a != 0 ==> Owed(l2, a) == Waiting(l1, a)
  }

  /** With one message under way from the L2 to the L1D. */
  ghost predicate OnceWith(l1: Cache, l2: Cache, up: Option<Packet>) {
    forall a: nat :: a != 0 ==> Owed(l2, a) + Asks(up, a) == Waiting(l1, a)
  }

  // ---- Fill levels ----

  ghost predicate AllLevel(q: seq<Packet>, level: int) {
    forall i :: 0 <= i < |q| ==> q[i].fillLevel == level
  }

  ghost predicate AllBits(q: seq<Packet>) {
    forall i :: 0 <= i < |q| ==> FillBit(q[i].fillLevel)
  }

  ghost predicate L1Levels(c: Cache) {
    && c.cfg.isL1D && c.cfg.fillLevel == FILL_L1
    && AllLevel(c.rq, FILL_L1) && AllLevel(c.wq, FILL_L1) && AllBits(c.pq)
    && forall i :: 0 <= i < |c.mshr.entry| && c.mshr.entry[i].address != 0 ==> c.mshr.entry[i].fillLevel == FILL_L1
  }

  ghost predicate L2Levels(c: Cache) {
    && !c.cfg.isL1D && c.cfg.fillLevel == FILL_L2
    && AllLevel(c.rq, FILL_L1) && AllLevel(c.wq, FILL_L2) && AllBits(c.pq)
    && forall i :: 0 <= i < |c.mshr.entry| && c.mshr.entry[i].address != 0 ==>
         c.mshr.entry[i].fillLevel == FILL_L1 || c.mshr.entry[i].fillLevel == FILL_L2
  }

  ghost predicate L1Ok(c: Cache) { CacheOk(c) && L1Levels(c) }

  ghost predicate L2Ok(c: Cache) { CacheOk(c) && L2Levels(c) }

  ghost predicate Inv(s: Sys) {
    && L1Ok(s.l1) && L2Ok(s.l2)
    && s.l1.cfg.mshrSize <= s.l2.cfg.rqSize
    && |s.lowerWq| <= s.lowerWqSize
    && ExactlyOnce(s.l1, s.l2)
  }

  // ---- The L1D's own steps: each new miss is announced by exactly one downward request ----

  /** What an L1D step does to the misses it waits for. */
  ghost predicate L1Announces(c: Cache, e: Effect) {
    && e.Effect? && L1Ok(e.c) && e.c.cfg == c.cfg && e.up == None
    && (forall a: nat :: a != 0 ==> Waiting(e.c, a) == Waiting(c, a) + Asks(e.down, a))
    && (e.down.Some? ==> e.down.value.address != 0 && Waiting(c, e.down.value.address) == 0)
  }

  lemma L1DemandMissAnnounces(c: Cache, p: Packet, popped: Cache)
    requires L1Ok(c) && L1Ok(popped) && p.address != 0 && p.fillLevel == FILL_L1
    requires popped.cfg == c.cfg && popped.mshr == c.mshr
    ensures L1Announces(c, DemandMiss(c, p, popped))
    ensures DemandMiss(c, p, popped).down.Some? ==> DemandMiss(c, p, popped).down.value.fillLevel == FILL_L1
  {
    hide SetOk, QueueOk, Conserved, MshrOk;
    DemandMissOk(c, p, popped);
    var i := CheckMshr(c.mshr, p.address);
    if i == -1 {
      AddMshrOk(c.mshr, p);
      InflightCount(c.mshr, p.address);
    } else {
      MergeOk(c.mshr, i, p, true);
    }
  }

  lemma L1ReadAnnounces(c: Cache, now: nat)
    requires L1Ok(c)
    ensures L1Announces(c, ReadStep(c, now))
    ensures ReadStep(c, now).down.Some? ==> ReadStep(c, now).down.value.fillLevel == FILL_L1
  {
    hide SetOk, MshrOk;
    ReadStepOk(c, now);
    if |c.rq| > 0 && c.rq[0].eventCycle <= now && CheckHit(c, c.rq[0].address) < 0 {
      var popped := c.(rq := c.rq[1..], stats := c.stats.CountMiss(c.rq[0].kind));
      PopOk(c.rq, c.cfg.rqSize, false);
      L1DemandMissAnnounces(c, c.rq[0], popped);
    }
  }

  lemma L1WritebackAnnounces(c: Cache, now: nat, full: bool)
    requires L1Ok(c)
    ensures L1Announces(c, WritebackStep(c, now, full)) && WritebackStep(c, now, full).victim == None
    ensures WritebackStep(c, now, full).down.Some? ==> WritebackStep(c, now, full).down.value.fillLevel == FILL_L1
  {
    WritebackStepOk(c, now, full);
    if |c.wq| > 0 && c.wq[0].eventCycle <= now && CheckHit(c, c.wq[0].address) < 0 {
      PoppedWqOk(c, c.stats.CountMiss(c.wq[0].kind));
      L1DemandMissAnnounces(c, c.wq[0], c.(wq := c.wq[1..], stats := c.stats.CountMiss(c.wq[0].kind)));
    }
  }

  lemma L1PrefetchMissAnnounces(c: Cache, p: Packet, popped: Cache, full: bool)
    requires L1Ok(c) && L1Ok(popped) && p.address != 0 && FillBit(p.fillLevel)
    requires popped.cfg == c.cfg && popped.mshr == c.mshr
    ensures L1Announces(c, PrefetchMiss(c, p, popped, full))
    ensures var d := PrefetchMiss(c, p, popped, full).down; d.Some? ==> FillBit(d.value.fillLevel) && !full
  {
    hide SetOk, QueueOk, Conserved, MshrOk;
    PrefetchMissOk(c, p, popped, full);
    var i := CheckMshr(c.mshr, p.address);
    if i == -1 {
      AddMshrOk(c.mshr, p);
      InflightCount(c.mshr, p.address);
    } else {
      MergeOk(c.mshr, i, p, false);
    }
  }

  lemma L1PrefetchAnnounces(c: Cache, now: nat, full: bool)
    requires L1Ok(c)
    ensures L1Announces(c, PrefetchStep(c, now, full))
    ensures var d := PrefetchStep(c, now, full).down; d.Some? ==> FillBit(d.value.fillLevel) && !full
  {
    hide SetOk, MshrOk;
    PrefetchStepOk(c, now, full);
    if |c.pq| > 0 && c.pq[0].eventCycle <= now && CheckHit(c, c.pq[0].address) < 0 {
      PopOk(c.pq, c.cfg.pqSize, false);
      L1PrefetchMissAnnounces(c, c.pq[0], c.(pq := c.pq[1..], stats := c.stats.CountMiss(c.pq[0].kind)), full);
    }
  }

  lemma L1FillAnnounces(c: Cache, now: nat, full: bool)
    requires L1Ok(c) && now < UINT64_MAX
    ensures L1Announces(c, FillStep(c, now, full)) && FillStep(c, now, full).down == None
    ensures FillStep(c, now, full).victim.Some? ==>
      var v := FillStep(c, now, full).victim.value; v.address != 0 && v.fillLevel == FILL_L2 && !full
  {
    FillStepOk(c, now, full);
    var m := c.mshr;
    if m.nextFillIndex < |m.entry| && m.entry[m.nextFillIndex].address != 0 && m.nextFillCycle <= now {
      ReleaseOk(m, m.nextFillIndex);
      var s := GetSet(c.cfg, m.entry[m.nextFillIndex].address);
      VictimInRange(c, s);
      assert BlockOk(c.cfg, s, c.blocks[s][LruVictim(c.blocks[s])]);
    }
  }

  // ---- The L2's own steps: what it no longer owes, it has just returned ----

  ghost predicate L2Pays(c: Cache, e: Effect) {
    && e.Effect? && L2Ok(e.c) && e.c.cfg == c.cfg
    && (forall a: nat :: a != 0 ==> Owed(e.c, a) + Asks(e.up, a) == Owed(c, a))
    && (e.up.Some? ==> e.up.value.address != 0 && e.up.value.fillLevel < FILL_L2)
  }

  /** Releasing a register forgets exactly what it owed. */
  lemma L2FillPays(c: Cache, now: nat, full: bool)
    requires L2Ok(c) && now < UINT64_MAX
    ensures L2Pays(c, FillStep(c, now, full)) && FillStep(c, now, full).down == None
    ensures FillStep(c, now, full).victim.Some? ==> !full
  {
    FillStepOk(c, now, full);
    var m := c.mshr;
    if m.nextFillIndex < |m.entry| && m.entry[m.nextFillIndex].address != 0 && m.nextFillCycle <= now {
      forall a: nat | a != 0
        ensures Count(m.entry[m.nextFillIndex := EmptyPacket], Owes(a))
                + Asks(Upward(c, m.entry[m.nextFillIndex]), a) == Count(m.entry, Owes(a))
      {
        CountUpdate(m.entry, m.nextFillIndex, EmptyPacket, Owes(a));
      }
    }
  }

  lemma L2WritebackPays(c: Cache, now: nat, full: bool)
    requires L2Ok(c)
    ensures L2Pays(c, WritebackStep(c, now, full))
    ensures WritebackStep(c, now, full).victim.Some? ==> !full
  {
    WritebackStepOk(c, now, full);
  }

  /** A registered miss owes what the queue item owed. */
  lemma AddMshrOwes(m: Mshr, p: Packet, a: nat)
    requires MshrOk(m) && m.occupancy < |m.entry| && a != 0
    ensures Count(AddMshr(m, p).entry, Owes(a)) == Count(m.entry, Owes(a)) + Asks(Some(p), a)
  {
    CountBound(m.entry, IsUsed());
    var k :| 0 <= k < |m.entry| && !IsUsed()(m.entry[k]);
    assert KeyOf(m.entry[k], false) == 0;
    CountUpdate(m.entry, FirstMatch(m.entry, 0, false), p.(returned := Inflight), Owes(a));
  }

  /** A merge moves the debt of the queue item to the register, unless both owed. */
  lemma MergeOwes(m: Mshr, i: nat, p: Packet, takeOver: bool, a: nat)
    requires MshrOk(m) && i < |m.entry| && p.address == m.entry[i].address != 0
    requires Asks(Some(p), p.address) + Count(m.entry, Owes(p.address)) <= 1
    requires takeOver ==> p.fillLevel < FILL_L2
    ensures Count(Merge(m, i, p, takeOver).entry, Owes(a)) == Count(m.entry, Owes(a)) + Asks(Some(p), a)
  {
    if m.entry[i].fillLevel < FILL_L2 {
      CountPositive(m.entry, i, Owes(p.address));
    }
    CountUpdate(m.entry, i, Merge(m, i, p, takeOver).entry[i], Owes(a));
  }

  /** What the L2 asks of the lower level, it holds in flight. */
  ghost predicate L2Asks(e: Effect) {
    e.Effect? && (e.down.Some? && e.down.value.fillLevel < FILL_LLC ==>
      e.down.value.address != 0 && Waiting(e.c, e.down.value.address) == 1)
  }

  /** A miss pays for the queue item it removes with a register, unless it stalls. */
  ghost predicate L2MissMoves(c: Cache, p: Packet, popped: Cache, e: Effect) {
    && e.Effect? && e.up == None && L2Asks(e)
    && (e.c == c || (e.c.rq == popped.rq && e.c.pq == popped.pq
          && forall a: nat :: a != 0 ==>
               Count(e.c.mshr.entry, Owes(a)) == Count(c.mshr.entry, Owes(a)) + Asks(Some(p), a)))
  }

  lemma AddMshrMoves(c: Cache, p: Packet)
    requires CacheOk(c) && p.address != 0 && CheckMshr(c.mshr, p.address) == -1 && c.mshr.occupancy < c.cfg.mshrSize
    ensures Count(AddMshr(c.mshr, p).entry, InflightAt(p.address)) == 1
    ensures forall a: nat :: a != 0 ==>
      Count(AddMshr(c.mshr, p).entry, Owes(a)) == Count(c.mshr.entry, Owes(a)) + Asks(Some(p), a)
  {
    AddMshrOk(c.mshr, p);
    InflightCount(c.mshr, p.address);
    forall a: nat | a != 0
      ensures Count(AddMshr(c.mshr, p).entry, Owes(a)) == Count(c.mshr.entry, Owes(a)) + Asks(Some(p), a)
    {
      AddMshrOwes(c.mshr, p, a);
    }
  }

  lemma MergeMoves(c: Cache, p: Packet, takeOver: bool)
    requires CacheOk(c) && p.address != 0 && CheckMshr(c.mshr, p.address) != -1
    requires Asks(Some(p), p.address) + Count(c.mshr.entry, Owes(p.address)) <= 1
    requires takeOver ==> p.fillLevel < FILL_L2
    ensures forall a: nat :: a != 0 ==>
      Count(Merge(c.mshr, CheckMshr(c.mshr, p.address), p, takeOver).entry, Owes(a))
      == Count(c.mshr.entry, Owes(a)) + Asks(Some(p), a)
  {
    var i := CheckMshr(c.mshr, p.address);
    forall a: nat | a != 0
      ensures Count(Merge(c.mshr, i, p, takeOver).entry, Owes(a)) == Count(c.mshr.entry, Owes(a)) + Asks(Some(p), a)
    {
      MergeOwes(c.mshr, i, p, takeOver, a);
    }
  }

  lemma L2DemandMissMoves(c: Cache, p: Packet, popped: Cache)
    requires L2Ok(c) && p.address != 0 && p.fillLevel == FILL_L1
    requires 1 + Count(c.mshr.entry, Owes(p.address)) <= 1
    ensures L2MissMoves(c, p, popped, DemandMiss(c, p, popped))
  {
    var i := CheckMshr(c.mshr, p.address);
    if i != -1 {
      MergeMoves(c, p, true);
    } else if c.mshr.occupancy < c.cfg.mshrSize {
      AddMshrMoves(c, p);
    }
  }

  lemma L2PrefetchMissMoves(c: Cache, p: Packet, popped: Cache, full: bool)
    requires L2Ok(c) && p.address != 0 && FillBit(p.fillLevel) && popped.mshr == c.mshr
    requires Asks(Some(p), p.address) + Count(c.mshr.entry, Owes(p.address)) <= 1
    ensures L2MissMoves(c, p, popped, PrefetchMiss(c, p, popped, full))
  {
    var i := CheckMshr(c.mshr, p.address);
    if i != -1 {
      MergeMoves(c, p, false);
    } else if c.mshr.occupancy < c.cfg.mshrSize {
      AddMshrMoves(c, p);
    }
  }

  lemma PoppedOwes(q: seq<Packet>)
    requires |q| > 0
    ensures forall a: nat :: Count(q[1..], Owes(a)) + Asks(Some(q[0]), a) == Count(q, Owes(a))
  {
    forall a: nat ensures Count(q[1..], Owes(a)) + Asks(Some(q[0]), a) == Count(q, Owes(a)) {
      CountTail(q, Owes(a));
    }
  }

  lemma L2ReadKeepsOk(c: Cache, now: nat)
    requires L2Ok(c)
    ensures var e := ReadStep(c, now); e.Effect? && L2Ok(e.c) && e.c.cfg == c.cfg
    ensures var e := ReadStep(c, now); e.up.Some? ==> e.up.value.address != 0 && e.up.value.fillLevel < FILL_L2
  {
    ReadStepOk(c, now);
  }

  lemma L2ReadPays(c: Cache, now: nat)
    requires L2Ok(c) && forall a: nat :: a != 0 ==> Owed(c, a) <= 1
    ensures L2Pays(c, ReadStep(c, now))
    ensures L2Asks(ReadStep(c, now))
  {
    hide Count, DemandMiss, Conserved, SetOk, MshrOk;
    L2ReadKeepsOk(c, now);
    if |c.rq| > 0 && c.rq[0].eventCycle <= now {
      var p := c.rq[0];
      PoppedOwes(c.rq);
      if CheckHit(c, p.address) < 0 {
        assert Owed(c, p.address) <= 1 && Asks(Some(p), p.address) == 1;
        var popped := c.(rq := c.rq[1..], stats := c.stats.CountMiss(p.kind));
        L2DemandMissMoves(c, p, popped);
        MovedDemandPays(c, popped, p, DemandMiss(c, p, popped));
      }
    }
  }

  lemma MovedDemandPays(c: Cache, popped: Cache, p: Packet, e: Effect)
    requires L2MissMoves(c, p, popped, e) && popped.pq == c.pq
    requires forall a: nat :: Count(popped.rq, Owes(a)) + Asks(Some(p), a) == Count(c.rq, Owes(a))
    ensures forall a: nat :: a != 0 ==> Owed(e.c, a) + Asks(e.up, a) == Owed(c, a)
  {
  }

  lemma L2PrefetchKeepsOk(c: Cache, now: nat, full: bool)
    requires L2Ok(c)
    ensures var e := PrefetchStep(c, now, full); e.Effect? && L2Ok(e.c) && e.c.cfg == c.cfg
    ensures var e := PrefetchStep(c, now, full); e.up.Some? ==> e.up.value.address != 0 && e.up.value.fillLevel < FILL_L2
  {
    PrefetchStepOk(c, now, full);
  }

  lemma L2PrefetchPays(c: Cache, now: nat, full: bool)
    requires L2Ok(c) && forall a: nat :: a != 0 ==> Owed(c, a) <= 1
    ensures L2Pays(c, PrefetchStep(c, now, full))
    ensures L2Asks(PrefetchStep(c, now, full))
  {
    L2PrefetchKeepsOk(c, now, full);
    if |c.pq| > 0 && c.pq[0].eventCycle <= now {
      var p := c.pq[0];
      PoppedOwes(c.pq);
      if CheckHit(c, p.address) < 0 {
        assert Owed(c, p.address) <= 1;
        assert Count(c.pq[1..], Owes(p.address)) + Asks(Some(p), p.address) == Count(c.pq, Owes(p.address));
        var popped := c.(pq := c.pq[1..], stats := c.stats.CountMiss(p.kind));
        L2PrefetchMissMoves(c, p, popped, full);
        MovedPays(c, popped, p, PrefetchMiss(c, p, popped, full));
      }
    }
  }

  lemma MovedPays(c: Cache, popped: Cache, p: Packet, e: Effect)
    requires L2MissMoves(c, p, popped, e) && popped.rq == c.rq
    requires forall a: nat :: Count(popped.pq, Owes(a)) + Asks(Some(p), a) == Count(c.pq, Owes(a))
    ensures forall a: nat :: a != 0 ==> Owed(e.c, a) + Asks(e.up, a) == Owed(c, a)
  {
  }

  // ---- The L2 taking a request from the L1D ----

  /** A taken request is owed, or was answered on the spot. */
  ghost predicate L2Takes(c: Cache, p: Packet, e: Effect) {
    && e.Effect? && L2Ok(e.c) && e.c.cfg == c.cfg
    && (forall a: nat :: a != 0 ==> Owed(e.c, a) + Asks(e.up, a) == Owed(c, a) + Asks(Some(p), a))
    && (e.up.Some? ==> e.up.value.address != 0 && e.up.value.fillLevel < FILL_L2)
  }

  lemma L2AddRqTakes(c: Cache, p: Packet, now: nat)
    requires L2Ok(c) && p.address != 0 && p.fillLevel == FILL_L1
    requires Owed(c, p.address) == 0 && |c.rq| < c.cfg.rqSize
    ensures L2Takes(c, p, AddRq(c, p, now))
    ensures RqAdmission(c, p) == Forwarded || RqAdmission(c, p) == Queued
  {
    hide BlocksOk, QueuesOk, Conserved, MshrOk;
    AddRqOk(c, p, now);
    var i := FirstMatch(c.rq, p.address, false);
    if i >= 0 {
      CountPositive(c.rq, i, Owes(p.address));
    }
    forall a: nat ensures Count(c.rq + [Aged(c, p, now)], Owes(a)) == Count(c.rq, Owes(a)) + Asks(Some(p), a) {
      CountAppend(c.rq, Aged(c, p, now), Owes(a));
    }
  }

  /** A queued prefetch that takes over a nearer fill level owes what the new one asks. */
  lemma PqMergeOwes(c: Cache, p: Packet, i: nat)
    requires i < |c.pq| && c.pq[i].address == p.address && FillBit(p.fillLevel) && p.address != 0
    requires p.fillLevel < FILL_L2 ==> Owed(c, p.address) == 0
    ensures p.fillLevel < FILL_L2 ==> c.pq[i].fillLevel >= FILL_L2
    ensures p.fillLevel < c.pq[i].fillLevel ==>
      forall a: nat :: Count(c.pq[i := c.pq[i].(fillLevel := p.fillLevel)], Owes(a)) == Count(c.pq, Owes(a)) + Asks(Some(p), a)
  {
    if p.fillLevel < FILL_L2 && c.pq[i].fillLevel < FILL_L2 {
      CountPositive(c.pq, i, Owes(p.address));
    }
    var q := c.pq[i].(fillLevel := p.fillLevel);
    forall a: nat | p.fillLevel < c.pq[i].fillLevel
      ensures Count(c.pq[i := q], Owes(a)) == Count(c.pq, Owes(a)) + Asks(Some(p), a)
    {
      CountUpdate(c.pq, i, q, Owes(a));
    }
  }

  lemma L2AddPqTakes(c: Cache, p: Packet, now: nat)
    requires L2Ok(c) && p.address != 0 && FillBit(p.fillLevel)
    requires p.fillLevel < FILL_L2 ==> Owed(c, p.address) == 0
    requires |c.pq| < c.cfg.pqSize
    ensures L2Takes(c, p, AddPq(c, p, now))
  {
    hide L2Ok, Owed, AddPq;
    L2AddPqOk(c, p, now);
    L2AddPqOwes(c, p, now);
  }

  lemma L2AddPqOk(c: Cache, p: Packet, now: nat)
    requires L2Ok(c) && p.address != 0 && FillBit(p.fillLevel)
    ensures var e := AddPq(c, p, now); e.Effect? && L2Ok(e.c) && e.c.cfg == c.cfg
    ensures var e := AddPq(c, p, now); e.up.Some? ==> e.up.value.address != 0 && e.up.value.fillLevel < FILL_L2
  {
    hide CacheOk, FirstMatch;
    AddPqOk(c, p, now);
  }

  lemma L2AddPqOwes(c: Cache, p: Packet, now: nat)
    requires L2Ok(c) && p.address != 0 && FillBit(p.fillLevel)
    requires p.fillLevel < FILL_L2 ==> Owed(c, p.address) == 0
    requires |c.pq| < c.cfg.pqSize
    ensures var e := AddPq(c, p, now);
      e.Effect? && forall a: nat :: a != 0 ==> Owed(e.c, a) + Asks(e.up, a) == Owed(c, a) + Asks(Some(p), a)
  {
    hide CacheOk, FirstMatch, Count;
    var i := FirstMatch(c.pq, p.address, false);
    if i >= 0 {
      PqMergeOwes(c, p, i);
    }
    forall a: nat ensures Count(c.pq + [Aged(c, p, now)], Owes(a)) == Count(c.pq, Owes(a)) + Asks(Some(p), a) {
      CountAppend(c.pq, Aged(c, p, now), Owes(a));
    }
  }

  lemma L2AddWqKeeps(c: Cache, p: Packet, now: nat)
    requires L2Ok(c) && p.address != 0 && p.fillLevel == FILL_L2 && |c.wq| < c.cfg.wqSize
    ensures var e := AddWq(c, p, now);
      e.Effect? && L2Ok(e.c) && e.c.cfg == c.cfg && forall a: nat :: Owed(e.c, a) == Owed(c, a)
  {
    AddWqOk(c, p, now);
  }

  /** Data coming back from below changes no debt. */
  lemma L2ReturnKeeps(c: Cache, p: Packet, now: nat)
    requires L2Ok(c) && p.address != 0 && Waiting(c, p.address) == 1
    ensures var e := ReturnData(c, p, now);
      e.Effect? && L2Ok(e.c) && e.c.cfg == c.cfg && forall a: nat :: Owed(e.c, a) == Owed(c, a)
  {
    ReturnDataOk(c, p, now);
    var i := CheckMshr(c.mshr, p.address);
    InflightCount(c.mshr, p.address);
    var x := Return(c.mshr, i, now, c.cfg.latency).entry[i];
    forall a: nat ensures Count(c.mshr.entry[i := x], Owes(a)) == Count(c.mshr.entry, Owes(a)) {
      CountUpdate(c.mshr.entry, i, x, Owes(a));
    }
  }

  // ---- Delivery ----

  lemma WaitingAtMostOne(c: Cache, a: nat)
    requires CacheOk(c) && a != 0
    ensures Waiting(c, a) <= 1
  {
    InflightCount(c.mshr, a);
  }

  /** Whatever the L2 returns, the L1D is waiting for: the lookup in return_data succeeds. */
  lemma DeliverToL1(s: Sys, up: Option<Packet>, now: nat)
    requires L1Ok(s.l1) && L2Ok(s.l2) && OnceWith(s.l1, s.l2, up)
    requires up.Some? ==> up.value.address != 0 && up.value.fillLevel < FILL_L2
    ensures var o := ReturnToL1(s, up, now);
      && o.Next? && L1Ok(o.s.l1) && o.s.l1.cfg == s.l1.cfg && o.s.l2 == s.l2
      && o.s.lowerWq == s.lowerWq && o.s.lowerWqSize == s.lowerWqSize
      && ExactlyOnce(o.s.l1, o.s.l2)
  {
    if up.Some? {
      var p := up.value;
      assert Owed(s.l2, p.address) + Asks(up, p.address) == Waiting(s.l1, p.address);
      WaitingAtMostOne(s.l1, p.address);
      ReturnDataOk(s.l1, p, now);
      InflightCount(s.l1.mshr, p.address);
      ReturnOk(s.l1.mshr, CheckMshr(s.l1.mshr, p.address), now, s.l1.cfg.latency);
    }
  }

  // ---- Room in the L2's read queue ----

  ghost function Addresses(q: seq<Packet>): set<nat> {
    set i | 0 <= i < |q| :: q[i].address
  }

  lemma {:induction false} DistinctAddresses(q: seq<Packet>)
    requires DistinctKeys(q, false)
    ensures |Addresses(q)| == |q|
  {
    if |q| > 0 {
      var r, last := q[..|q| - 1], q[|q| - 1];
      forall i, j | 0 <= i < j < |r| ensures KeyOf(r[i], false) != KeyOf(r[j], false) {
        assert KeyOf(q[i], false) != KeyOf(q[j], false);
      }
      DistinctAddresses(r);
      AddressesLast(q);
      forall i | 0 <= i < |r| ensures r[i].address != last.address {
        assert KeyOf(q[i], false) != KeyOf(last, false);
      }
    }
  }

  lemma AddressesLast(q: seq<Packet>)
    requires |q| > 0
    ensures Addresses(q) == Addresses(q[..|q| - 1]) + {q[|q| - 1].address}
  {
    var r := q[..|q| - 1];
    forall i | 0 <= i < |q| ensures q[i].address in Addresses(r) + {q[|q| - 1].address} {
      if i < |r| { assert r[i] == q[i]; }
    }
    forall i | 0 <= i < |r| ensures r[i].address in Addresses(q) { assert q[i] == r[i]; }
    assert q[|q| - 1].address in Addresses(q);
  }

  lemma {:induction false} AddressesBound(q: seq<Packet>)
    ensures |Addresses(q)| <= |q|
  {
    if |q| > 0 {
      var r, last := q[..|q| - 1], q[|q| - 1];
      AddressesBound(r);
      assert Addresses(q) <= Addresses(r) + {last.address} by {
        forall i | 0 <= i < |q| ensures q[i].address in Addresses(r) + {last.address} {
          if i < |r| { assert r[i] == q[i]; }
        }
      }
      SubsetCardinality(Addresses(q), Addresses(r) + {last.address});
    }
  }

  lemma {:induction false} SubsetCardinality(x: set<nat>, y: set<nat>)
    requires x <= y
    ensures |x| <= |y|
  {
    if x != {} {
      var e :| e in x;
      SubsetCardinality(x - {e}, y - {e});
    }
  }

  lemma WaitedForIsRegistered(c: Cache, a: nat)
    requires CacheOk(c) && a != 0 && Waiting(c, a) > 0
    ensures a in Addresses(c.mshr.entry)
  {
    InflightCount(c.mshr, a);
    assert c.mshr.entry[CheckMshr(c.mshr, a)].address == a;
  }

  /** Each queued read in the L2 belongs to a different in-flight register of the L1D, and the miss
      being sent has one more: the read queue cannot be full. */
  lemma L2RqHasRoom(l1: Cache, l2: Cache, p: Packet)
    requires L1Ok(l1) && L2Ok(l2) && p.address != 0 && p.fillLevel < FILL_L2
    requires forall a: nat :: a != 0 ==> Owed(l2, a) + Asks(Some(p), a) == Waiting(l1, a)
    requires l1.cfg.mshrSize <= l2.cfg.rqSize
    ensures |l2.rq| < l2.cfg.rqSize
  {
    hide SetOk, MshrOk, Conserved, Count;
    var entry := l1.mshr.entry;
    forall a: nat | a in Addresses(l2.rq) || a == p.address ensures a in Addresses(entry) {
      if a != p.address {
        var i :| 0 <= i < |l2.rq| && l2.rq[i].address == a;
        CountPositive(l2.rq, i, Owes(a));
      }
      WaitedForIsRegistered(l1, a);
    }
    WaitingAtMostOne(l1, p.address);
    forall i | 0 <= i < |l2.rq| ensures l2.rq[i].address != p.address {
      if l2.rq[i].address == p.address { CountPositive(l2.rq, i, Owes(p.address)); }
    }
    DistinctAddresses(l2.rq);
    AddressesBound(entry);
    SubsetCardinality(Addresses(l2.rq) + {p.address}, Addresses(entry));
  }

  // ---- Steps of the whole system ----

  lemma OwedAtMostOne(s: Sys)
    requires Inv(s)
    ensures forall a: nat :: a != 0 ==> Owed(s.l2, a) <= 1
  {
    forall a: nat | a != 0 ensures Owed(s.l2, a) <= 1 {
      WaitingAtMostOne(s.l1, a);
      assert Owed(s.l2, a) == Waiting(s.l1, a);
    }
  }

  /** An L1D step that ends with a read request to the L2. */
  lemma SendRqKeepsInv(s: Sys, e: Effect, now: nat)
    requires Inv(s) && L1Announces(s.l1, e) && (e.down.Some? ==> e.down.value.fillLevel == FILL_L1)
    ensures var o := SendToL2Rq(s.(l1 := e.c), e.down, now); o.Next? && Inv(o.s)
    ensures e.down.Some? ==> RqAdmission(s.l2, e.down.value) == Forwarded || RqAdmission(s.l2, e.down.value) == Queued
  {
    var t := s.(l1 := e.c);
    if e.down.Some? {
      var p := e.down.value;
      forall a: nat | a != 0 ensures Owed(s.l2, a) + Asks(Some(p), a) == Waiting(e.c, a) {
        assert Owed(s.l2, a) == Waiting(s.l1, a);
      }
      L2RqHasRoom(e.c, s.l2, p);
      L2AddRqTakes(s.l2, p, now);
      var e2 := AddRq(s.l2, p, now);
      DeliverToL1(t.(l2 := e2.c), e2.up, now);
    } else {
      forall a: nat | a != 0 ensures Owed(s.l2, a) == Waiting(e.c, a) {
        assert Owed(s.l2, a) == Waiting(s.l1, a);
      }
    }
  }

  lemma SendPqKeepsInv(s: Sys, e: Effect, now: nat)
    requires Inv(s) && L1Announces(s.l1, e)
    requires e.down.Some? ==> FillBit(e.down.value.fillLevel) && !L2PqFull(s)
    ensures var o := SendToL2Pq(s.(l1 := e.c), e.down, now); o.Next? && Inv(o.s)
  {
    var t := s.(l1 := e.c);
    if e.down.Some? {
      var p := e.down.value;
      L2AddPqTakes(s.l2, p, now);
      var e2 := AddPq(s.l2, p, now);
      forall a: nat | a != 0 ensures Owed(e2.c, a) + Asks(e2.up, a) == Waiting(e.c, a) {
        assert Owed(s.l2, a) == Waiting(s.l1, a);
      }
      DeliverToL1(t.(l2 := e2.c), e2.up, now);
    } else {
      forall a: nat | a != 0 ensures Owed(s.l2, a) == Waiting(e.c, a) {
        assert Owed(s.l2, a) == Waiting(s.l1, a);
      }
    }
  }

  /** An L1D step that sends no request down, perhaps a dirty victim. */
  lemma SendWqKeepsInv(s: Sys, e: Effect, now: nat)
    requires Inv(s) && L1Announces(s.l1, e) && e.down == None
    requires e.victim.Some? ==> e.victim.value.address != 0 && e.victim.value.fillLevel == FILL_L2 && !L2WqFull(s)
    ensures var o := SendToL2Wq(s.(l1 := e.c), e.victim, now); o.Next? && Inv(o.s)
  {
    forall a: nat | a != 0 ensures Owed(s.l2, a) == Waiting(e.c, a) {
      assert Owed(s.l2, a) == Waiting(s.l1, a);
    }
    if e.victim.Some? {
      L2AddWqKeeps(s.l2, e.victim.value, now);
    }
  }

  /** An L2 step that returns what it paid. */
  lemma ReturnKeepsInv(s: Sys, e: Effect, t: Sys, now: nat)
    requires Inv(s) && L2Pays(s.l2, e)
    requires t.l1 == s.l1 && L2Ok(t.l2) && t.l2.cfg == s.l2.cfg && |t.lowerWq| <= t.lowerWqSize
    requires forall a: nat :: Owed(t.l2, a) == Owed(e.c, a)
    ensures var o := ReturnToL1(t, e.up, now); o.Next? && Inv(o.s)
  {
    forall a: nat | a != 0 ensures Owed(t.l2, a) + Asks(e.up, a) == Waiting(t.l1, a) {
      assert Owed(s.l2, a) == Waiting(s.l1, a);
    }
    DeliverToL1(t, e.up, now);
  }

  lemma AskKeepsInv(s: Sys, e: Effect, answered: bool, now: nat)
    requires Inv(s) && L2Pays(s.l2, e) && L2Asks(e)
    ensures AskAndReturn(s, e, answered, now).Next? && Inv(AskAndReturn(s, e, answered, now).s)
  {
    var t := s.(l2 := e.c);
    if e.down.Some? && answered && e.down.value.fillLevel < FILL_LLC {
      L2ReturnKeeps(e.c, e.down.value, now);
    }
    ReturnKeepsInv(s, e, AnswerL2(t, e.down, answered, now).s, now);
  }

  lemma EvictKeepsInv(s: Sys, e: Effect, now: nat)
    requires Inv(s) && L2Pays(s.l2, e) && (e.victim.Some? ==> !LowerWqFull(s))
    ensures EvictAndReturn(s, e, now).Next? && Inv(EvictAndReturn(s, e, now).s)
  {
    ReturnKeepsInv(s, e, SendToLowerWq(s.(l2 := e.c), e.victim).s, now);
  }

  lemma IssueL1KeepsInv(s: Sys, p: Packet, now: nat)
    requires Inv(s) && Allowed(s, IssueL1Prefetch(p, now))
    ensures IssueL1Outcome(s, p, now).Next? && Inv(IssueL1Outcome(s, p, now).s)
  {
    hide CacheOk, ExactlyOnce, AddPq;
    if |s.l1.pq| < s.l1.cfg.pqSize {
      L1TakesPrefetch(s.l1, p, now);
      CoreKeepsInv(s, AddPq(s.l1, p, now));
    }
  }

  lemma L1TakesPrefetch(c: Cache, p: Packet, now: nat)
    requires L1Ok(c) && p.address != 0 && FillBit(p.fillLevel) && p.kind == PREFETCH
    ensures var e := AddPq(c, p, now); e.Effect? && L1Ok(e.c) && e.c.cfg == c.cfg && e.c.mshr == c.mshr && e.up == None
  {
    hide CacheOk, MshrOk;
    AddPqOk(c, p, now);
  }

  lemma IssueL2KeepsInv(s: Sys, p: Packet, now: nat)
    requires Inv(s) && Allowed(s, IssueL2Prefetch(p, now))
    ensures IssueL2Outcome(s, p, now).Next? && Inv(IssueL2Outcome(s, p, now).s)
  {
    if |s.l2.pq| < s.l2.cfg.pqSize {
      L2AddPqTakes(s.l2, p, now);
      var e := AddPq(s.l2, p, now);
      forall a: nat | a != 0 ensures Owed(e.c, a) + Asks(e.up, a) == Waiting(s.l1, a) {
        assert Owed(s.l2, a) == Waiting(s.l1, a);
      }
      DeliverToL1(s.(l2 := e.c), e.up, now);
    }
  }

  lemma CoreKeepsInv(s: Sys, e: Effect)
    requires Inv(s) && e.Effect? && L1Ok(e.c) && e.c.cfg == s.l1.cfg && e.c.mshr == s.l1.mshr && e.up == None
    ensures FromL1(s, e).Next? && Inv(FromL1(s, e).s)
  {
    forall a: nat | a != 0 ensures Owed(s.l2, a) == Waiting(e.c, a) {
      assert Owed(s.l2, a) == Waiting(s.l1, a);
    }
  }

  lemma L1FillKeepsInv(s: Sys, now: nat)
    requires Inv(s) && now < UINT64_MAX
    ensures L1FillOutcome(s, now).Next? && Inv(L1FillOutcome(s, now).s)
  {
    hide FillStep, L1Levels, L2Levels, SendToL2Wq, ExactlyOnce, Waiting;
    L1FillAnnounces(s.l1, now, L2WqFull(s));
    SendWqKeepsInv(s, FillStep(s.l1, now, L2WqFull(s)), now);
  }

  lemma L1WritebackKeepsInv(s: Sys, now: nat)
    requires Inv(s)
    ensures L1WritebackOutcome(s, now).Next? && Inv(L1WritebackOutcome(s, now).s)
  {
    hide WritebackStep, SendToL2Rq;
    L1WritebackAnnounces(s.l1, now, L2WqFull(s));
    SendRqKeepsInv(s, WritebackStep(s.l1, now, L2WqFull(s)), now);
  }

  lemma L1ReadKeepsInv(s: Sys, now: nat)
    requires Inv(s)
    ensures L1ReadOutcome(s, now).Next? && Inv(L1ReadOutcome(s, now).s)
  {
    hide ReadStep, L1Levels, L2Levels, SendToL2Rq, ExactlyOnce, Waiting;
    L1ReadAnnounces(s.l1, now);
    SendRqKeepsInv(s, ReadStep(s.l1, now), now);
  }

  lemma L1PrefetchKeepsInv(s: Sys, now: nat)
    requires Inv(s)
    ensures L1PrefetchOutcome(s, now).Next? && Inv(L1PrefetchOutcome(s, now).s)
  {
    L1PrefetchAnnounces(s.l1, now, L2PqFull(s));
    SendPqKeepsInv(s, PrefetchStep(s.l1, now, L2PqFull(s)), now);
  }

  lemma L2FillKeepsInv(s: Sys, now: nat)
    requires Inv(s) && now < UINT64_MAX
    ensures L2FillOutcome(s, now).Next? && Inv(L2FillOutcome(s, now).s)
  {
    L2FillPays(s.l2, now, LowerWqFull(s));
    EvictKeepsInv(s, FillStep(s.l2, now, LowerWqFull(s)), now);
  }

  lemma L2WritebackKeepsInv(s: Sys, now: nat)
    requires Inv(s)
    ensures L2WritebackOutcome(s, now).Next? && Inv(L2WritebackOutcome(s, now).s)
  {
    L2WritebackPays(s.l2, now, LowerWqFull(s));
    EvictKeepsInv(s, WritebackStep(s.l2, now, LowerWqFull(s)), now);
  }

  lemma L2ReadKeepsInv(s: Sys, now: nat, answered: bool)
    requires Inv(s)
    ensures L2ReadOutcome(s, now, answered).Next? && Inv(L2ReadOutcome(s, now, answered).s)
  {
    OwedAtMostOne(s);
    L2ReadPays(s.l2, now);
    AskKeepsInv(s, ReadStep(s.l2, now), answered, now);
  }

  lemma L2PrefetchKeepsInv(s: Sys, now: nat, full: bool, answered: bool)
    requires Inv(s)
    ensures L2PrefetchOutcome(s, now, full, answered).Next? && Inv(L2PrefetchOutcome(s, now, full, answered).s)
  {
    OwedAtMostOne(s);
    L2PrefetchPays(s.l2, now, full);
    AskKeepsInv(s, PrefetchStep(s.l2, now, full), answered, now);
  }

  lemma CoreEventKeepsInv(s: Sys, e: Event)
    requires Inv(s) && Allowed(s, e) && (e.CoreRead? || e.CoreWrite?)
    ensures Step(s, e).Next? && Inv(Step(s, e).s)
  {
    hide CacheOk, ExactlyOnce, AddRq, AddWq;
    if e.CoreRead? {
      L1TakesRead(s.l1, e.p, e.now);
      CoreKeepsInv(s, AddRq(s.l1, e.p, e.now));
    } else {
      L1TakesWrite(s.l1, e.p, e.now);
      CoreKeepsInv(s, AddWq(s.l1, e.p, e.now));
    }
  }

  lemma L1TakesRead(c: Cache, p: Packet, now: nat)
    requires L1Ok(c) && p.address != 0 && p.fillLevel == FILL_L1 && (p.kind == LOAD || p.kind == RFO)
    ensures var e := AddRq(c, p, now); e.Effect? && L1Ok(e.c) && e.c.cfg == c.cfg && e.c.mshr == c.mshr && e.up == None
  {
    hide CacheOk, MshrOk;
    AddRqOk(c, p, now);
  }

  lemma L1TakesWrite(c: Cache, p: Packet, now: nat)
    requires L1Ok(c) && p.address != 0 && p.fillLevel == FILL_L1 && p.kind == RFO && |c.wq| < c.cfg.wqSize
    ensures var e := AddWq(c, p, now); e.Effect? && L1Ok(e.c) && e.c.cfg == c.cfg && e.c.mshr == c.mshr && e.up == None
  {
    hide CacheOk, MshrOk;
    AddWqOk(c, p, now);
  }

  lemma LowerReturnKeepsInv(s: Sys, p: Packet, now: nat)
    requires Inv(s) && Allowed(s, LowerReturn(p, now))
    ensures Step(s, LowerReturn(p, now)).Next? && Inv(Step(s, LowerReturn(p, now)).s)
  {
    WaitingAtMostOne(s.l2, p.address);
    L2ReturnKeeps(s.l2, p, now);
  }

  /** No assert fails, and the invariant is kept, whatever step is taken next. */
  lemma StepKeepsInv(s: Sys, e: Event)
    requires Inv(s) && Allowed(s, e)
    ensures Step(s, e).Next? && Inv(Step(s, e).s)
  {
    match e
    case CoreRead(p, now) => CoreEventKeepsInv(s, e);
    case CoreWrite(p, now) => CoreEventKeepsInv(s, e);
    case IssueL1Prefetch(p, now) => IssueL1KeepsInv(s, p, now);
    case IssueL2Prefetch(p, now) => IssueL2KeepsInv(s, p, now);
    case L1Fill(now) => L1FillKeepsInv(s, now);
    case L1Writeback(now) => L1WritebackKeepsInv(s, now);
    case L1Read(now) => L1ReadKeepsInv(s, now);
    case L1Prefetch(now) => L1PrefetchKeepsInv(s, now);
    case L2Fill(now) => L2FillKeepsInv(s, now);
    case L2Writeback(now) => L2WritebackKeepsInv(s, now);
    case L2Read(now, answered) => L2ReadKeepsInv(s, now, answered);
    case L2Prefetch(now, full, answered) => L2PrefetchKeepsInv(s, now, full, answered);
    case LowerReturn(p, now) => LowerReturnKeepsInv(s, p, now);
    case LowerDrain =>
  }

  // ---- Runs ----

  lemma NothingOwed(c: Cache, a: nat)
    requires IsInitial(c) && a != 0
    ensures Owed(c, a) == 0 && Waiting(c, a) == 0
  {
    CountZero(c.mshr.entry, Owes(a));
    CountZero(c.mshr.entry, InflightAt(a));
  }

  lemma InitialLevels(c: Cache)
    requires IsInitial(c)
    ensures c.cfg.isL1D && c.cfg.fillLevel == FILL_L1 ==> L1Levels(c)
    ensures !c.cfg.isL1D && c.cfg.fillLevel == FILL_L2 ==> L2Levels(c)
  {
    assert forall i :: 0 <= i < |c.mshr.entry| ==> c.mshr.entry[i].address == 0;
  }

  lemma InitialInv(s: Sys)
    requires IsInitialSys(s)
    ensures Inv(s)
  {
    InitialLevels(s.l1);
    InitialLevels(s.l2);
    InitialCacheOk(s.l1);
    InitialCacheOk(s.l2);
    forall a: nat | a != 0 ensures Owed(s.l2, a) == Waiting(s.l1, a) {
      NothingOwed(s.l1, a);
      NothingOwed(s.l2, a);
    }
  }

  lemma {:induction false} RunKeepsInv(s: Sys, events: seq<Event>, t: Sys)
    requires Inv(s) && Run(s, events, t)
    ensures Inv(t)
    decreases |events|
  {
    if |events| > 0 {
      StepKeepsInv(s, events[0]);
      RunKeepsInv(Step(s, events[0]).s, events[1..], t);
    }
  }

  lemma ReachableInv(s: Sys)
    requires Reachable(s)
    ensures Inv(s)
  {
    var s0, events :| IsInitialSys(s0) && Run(s0, events, s);
    InitialInv(s0);
    RunKeepsInv(s0, events, s);
  }

  /** In every reachable state the L2 holds exactly one item owing a return for each line the L1D
      has in flight, and none for any other line. */
  lemma MissesAnsweredExactlyOnce(s: Sys, a: nat)
    requires Reachable(s) && a != 0
    ensures (exists i :: 0 <= i < |s.l1.mshr.entry| && InflightAt(a)(s.l1.mshr.entry[i])) ==> Owed(s.l2, a) == 1
    ensures (forall i :: 0 <= i < |s.l1.mshr.entry| ==> !InflightAt(a)(s.l1.mshr.entry[i])) ==> Owed(s.l2, a) == 0
  {
    ReachableInv(s);
    WaitingAtMostOne(s.l1, a);
    CountZero(s.l1.mshr.entry, InflightAt(a));
    assert Owed(s.l2, a) == Waiting(s.l1, a);
  }

  /** From a reachable state no allowed step fails an assert: not the "cannot find a matching
      entry" of return_data, not the full-queue assert of add_wq, not "no victim". */
  lemma NoAssertFails(s: Sys, e: Event)
    requires Reachable(s) && Allowed(s, e)
    ensures Shape(s.l1) && Shape(s.l2) && Step(s, e).Next?
  {
    ReachableInv(s);
    StepKeepsInv(s, e);
  }

  ghost predicate NotLost(s: Sys, e: Effect) {
    e.Effect? && (e.down.Some? ==> RqAdmission(s.l2, e.down.value) in {Forwarded, Queued})
  }

  /** No demand miss of the L1D is ever refused by, or merged in, the L2's read queue. */
  lemma NoMissRefused(s: Sys, now: nat)
    requires Reachable(s)
    ensures Shape(s.l1) && NotLost(s, ReadStep(s.l1, now)) && NotLost(s, WritebackStep(s.l1, now, L2WqFull(s)))
  {
    ReachableInv(s);
    hide ReadStep, L1Levels, L2Levels, SendToL2Rq, ExactlyOnce, Waiting;
    L1ReadAnnounces(s.l1, now);
    SendRqKeepsInv(s, ReadStep(s.l1, now), now);
    L1WritebackAnnounces(s.l1, now, L2WqFull(s));
    SendRqKeepsInv(s, WritebackStep(s.l1, now, L2WqFull(s)), now);
  }

  /** In every reachable state both caches are well-formed: blocks in their own sets with an lru order,
      queues of distinct keys, register bookkeeping exact, and every packet taken in accounted for. */
  lemma CachesStayOk(s: Sys)
    requires Reachable(s)
    ensures CacheOk(s.l1) && CacheOk(s.l2)
  {
    ReachableInv(s);
  }
}
