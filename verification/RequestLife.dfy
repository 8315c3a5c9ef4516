/** What becomes of a request in a cache: it stays queued until its line is found in the cache, waits in a
    register, or is passed on; and a load or store of the core is in one of these places in every state of
    every run until its line is there (src/cache.cc). */
module RequestLife {
  import opened Counting
  import opened Packets
  import opened Replacement
  import opened MshrFile
  import opened CacheModel
  import opened CacheInvariant
  import opened Hierarchy
  import opened MissProtocol
  import opened L1Residency
  import StoreDirtiness

  /** Some way of the cache validly holds the line. */
  ghost predicate Held(c: Cache, a: nat) {
    exists s, w :: 0 <= s < |c.blocks| && 0 <= w < |c.blocks[s]| && Holds(c.blocks[s][w], a)
  }

  ghost predicate InFile(m: Mshr, a: nat) {
    exists i :: 0 <= i < |m.entry| && m.entry[i].address == a
  }

  /** A register waits for the line and will fill at least as near as `level`. */
  ghost predicate Waits(m: Mshr, a: nat, level: int) {
    exists i :: 0 <= i < |m.entry| && m.entry[i].address == a && m.entry[i].fillLevel <= level
  }

  /** A register of address 0 is free. */
  ghost predicate HasFree(m: Mshr) { InFile(m, 0) }

  ghost predicate KeepsLines(x: Mshr, y: Mshr) {
    forall a: nat :: a != 0 && InFile(x, a) ==> InFile(y, a)
  }

  lemma HeldExactlyWhen(c: Cache, a: nat)
    requires BlocksOk(c)
    ensures CheckHit(c, a) >= 0 <==> Held(c, a)
  {
    if CheckHit(c, a) < 0 {
      MissUnheld(c, a);
    } else {
      assert Holds(c.blocks[GetSet(c.cfg, a)][CheckHit(c, a)], a);
    }
  }

  lemma InFileExactlyWhen(m: Mshr, a: nat)
    ensures CheckMshr(m, a) >= 0 <==> InFile(m, a)
  {
    if CheckMshr(m, a) < 0 {
      forall i | 0 <= i < |m.entry| ensures m.entry[i].address != a {
        assert KeyOf(m.entry[i], false) != a;
      }
    }
  }

  lemma FreeExactlyWhen(m: Mshr)
    requires MshrOk(m)
    ensures HasFree(m) <==> m.occupancy < |m.entry|
    ensures m.occupancy <= |m.entry|
  {
    CountBound(m.entry, IsUsed());
    if m.occupancy < |m.entry| {
      var k :| 0 <= k < |m.entry| && !IsUsed()(m.entry[k]);
    }
  }

  // ---- What leaves a queue ----

  /** One more access of this kind, a hit or a miss. */
  ghost predicate CountsOne(s: Stats, k: Kind, hit: bool, t: Stats) {
    t == s.(access := s.access.Bump(k), hit := if hit then s.hit.Bump(k) else s.hit, miss := if hit then s.miss else s.miss.Bump(k))
  }

  /** The line is held, and no longer counts as a prefetch that no demand has used. */
  ghost predicate HeldAndUsed(c: Cache, a: nat) {
    exists s, w :: 0 <= s < |c.blocks| && 0 <= w < |c.blocks[s]| && Holds(c.blocks[s][w], a)
                   && c.blocks[s][w].used && !c.blocks[s][w].prefetch
  }

  /** A demand at the head of a queue: it is taken exactly when its line is held or in flight or a register is
      free; then the line is held or a register waits for it, and it is asked for below exactly when it was
      neither. Otherwise nothing changes. */
  ghost predicate DemandServed(c: Cache, p: Packet, taken: bool, e: Effect) {
    && e.Effect?
    && (taken <==> Held(c, p.address) || InFile(c.mshr, p.address) || HasFree(c.mshr))
    && (taken ==> Held(c, p.address) || Waits(e.c.mshr, p.address, p.fillLevel))
    && e.down == (if taken && !Held(c, p.address) && !InFile(c.mshr, p.address) then Some(p) else None)
    && (if taken then CountsOne(c.stats, p.kind, Held(c, p.address), e.c.stats) else e.c == c)
  }

  ghost predicate Due(q: seq<Packet>, now: nat) { |q| > 0 && q[0].eventCycle <= now }

  /** Nothing but the head leaves a queue, and not before its time. */
  ghost predicate OnlyHeadLeaves(q: seq<Packet>, r: seq<Packet>, now: nat) {
    r == q || (Due(q, now) && r == q[1..])
  }

  lemma DemandMissServes(c: Cache, p: Packet, popped: Cache)
    requires CacheOk(c) && p.address != 0 && !Held(c, p.address) && popped.mshr == c.mshr
    requires CountsOne(c.stats, p.kind, false, popped.stats)
    ensures var e := DemandMiss(c, p, popped);
      && DemandServed(c, p, InFile(c.mshr, p.address) || HasFree(c.mshr), e)
      && KeepsLines(c.mshr, e.c.mshr)
      && (e.c == c || e.c == popped.(mshr := e.c.mshr))
      && (InFile(c.mshr, p.address) || HasFree(c.mshr) ==> e.c == popped.(mshr := e.c.mshr))
  {
    hide SetOk, QueuesOk, Conserved;
    var i, m := CheckMshr(c.mshr, p.address), c.mshr;
    InFileExactlyWhen(m, p.address);
    FreeExactlyWhen(m);
    var d := DemandMiss(c, p, popped).c.mshr;
    if i >= 0 {
      assert d.entry[i].address == p.address && d.entry[i].fillLevel <= p.fillLevel;
      SameAddressesKept(m, d);
    } else if m.occupancy < c.cfg.mshrSize {
      StoreDirtiness.FreeRegister(m);
      assert d.entry[FirstMatch(m.entry, 0, false)].address == p.address;
      AddKeepsLines(m, p);
    }
  }

  lemma SameAddressesKept(x: Mshr, y: Mshr)
    requires |x.entry| == |y.entry| && forall i :: 0 <= i < |x.entry| ==> x.entry[i].address == y.entry[i].address
    ensures KeepsLines(x, y)
  {
    forall a: nat | InFile(x, a) ensures InFile(y, a) {
      var i :| 0 <= i < |x.entry| && x.entry[i].address == a;
      assert y.entry[i].address == a;
    }
  }

  lemma AddKeepsLines(m: Mshr, p: Packet)
    ensures KeepsLines(m, AddMshr(m, p))
  {
    var n := AddMshr(m, p);
    forall a: nat | a != 0 && InFile(m, a) ensures InFile(n, a) {
      var i :| 0 <= i < |m.entry| && m.entry[i].address == a;
      assert n.entry[i].address == a;
    }
  }

  /** handle_read, at both levels. */
  ghost predicate ReadServed(c: Cache, now: nat, e: Effect) {
    && e.Effect? && e.c.wq == c.wq && e.c.pq == c.pq
    && OnlyHeadLeaves(c.rq, e.c.rq, now)
    && (if Due(c.rq, now) then DemandServed(c, c.rq[0], e.c.rq != c.rq, e) else e.c == c && e.down == None)
    && (Due(c.rq, now) && Held(c, c.rq[0].address) ==> HeldAndUsed(e.c, c.rq[0].address))
    && KeepsLines(c.mshr, e.c.mshr)
  }

  lemma ReadServes(c: Cache, now: nat)
    requires CacheOk(c)
    ensures ReadServed(c, now, ReadStep(c, now))
  {
    hide SetOk, MshrOk, Conserved;
    if Due(c.rq, now) {
      var p := c.rq[0];
      HeldExactlyWhen(c, p.address);
      if CheckHit(c, p.address) < 0 {
        DemandMissServes(c, p, c.(rq := c.rq[1..], stats := c.stats.CountMiss(p.kind)));
      } else {
        var s, d := GetSet(c.cfg, p.address), ReadStep(c, now).c;
        assert Holds(d.blocks[s][CheckHit(c, p.address)], p.address);
      }
      assert |c.rq[1..]| != |c.rq|;
    }
  }

  /** handle_writeback of the L1D. */
  ghost predicate StoreServed(c: Cache, now: nat, e: Effect) {
    && e.Effect? && e.c.rq == c.rq && e.c.pq == c.pq
    && OnlyHeadLeaves(c.wq, e.c.wq, now)
    && (if Due(c.wq, now) then DemandServed(c, c.wq[0], e.c.wq != c.wq, e) else e.c == c && e.down == None)
    && KeepsLines(c.mshr, e.c.mshr)
  }

  lemma StoreServes(c: Cache, now: nat, full: bool)
    requires CacheOk(c) && c.cfg.isL1D
    ensures StoreServed(c, now, WritebackStep(c, now, full))
  {
    hide SetOk, MshrOk, Conserved;
    if Due(c.wq, now) {
      var p := c.wq[0];
      HeldExactlyWhen(c, p.address);
      if CheckHit(c, p.address) < 0 {
        DemandMissServes(c, p, c.(wq := c.wq[1..], stats := c.stats.CountMiss(p.kind)));
      }
      assert |c.wq[1..]| != |c.wq|;
    }
  }

  /** handle_writeback of the L2: a due writeback waits only for a full lower write queue, and leaves its line
      in the cache. */
  ghost predicate WritebackServed(c: Cache, now: nat, full: bool, e: Effect) {
    && e.Effect? && e.down == None && e.c.rq == c.rq && e.c.pq == c.pq && e.c.mshr == c.mshr
    && OnlyHeadLeaves(c.wq, e.c.wq, now)
    && (Due(c.wq, now) && (Held(c, c.wq[0].address) || !full) ==> e.c.wq != c.wq)
    && (e.c.wq != c.wq ==> Held(e.c, c.wq[0].address))
    && (if e.c.wq == c.wq then e.c == c else CountsOne(c.stats, c.wq[0].kind, Held(c, c.wq[0].address), e.c.stats))
  }

  lemma WritebackServes(c: Cache, now: nat, full: bool)
    requires CacheOk(c) && !c.cfg.isL1D
    ensures WritebackServed(c, now, full, WritebackStep(c, now, full))
  {
    hide MshrOk, QueuesOk, Conserved;
    if Due(c.wq, now) {
      var p := c.wq[0];
      var s := GetSet(c.cfg, p.address);
      HeldExactlyWhen(c, p.address);
      VictimInRange(c, s);
      var d := WritebackStep(c, now, full).c;
      var way := if CheckHit(c, p.address) >= 0 then CheckHit(c, p.address) else LruVictim(c.blocks[s]);
      assert d.wq != c.wq ==> Holds(d.blocks[s][way], p.address);
    }
  }

  /** handle_prefetch: also a prefetch that misses waits for room below; one that fills only lower levels is
      passed on without a register. */
  ghost predicate PrefetchServed(c: Cache, now: nat, full: bool, e: Effect) {
    && e.Effect? && e.c.rq == c.rq && e.c.wq == c.wq
    && OnlyHeadLeaves(c.pq, e.c.pq, now)
    && (e.c.pq == c.pq ==> e.c == c && e.down == None)
    && KeepsLines(c.mshr, e.c.mshr)
    && (Due(c.pq, now) ==>
          var p, taken := c.pq[0], e.c.pq != c.pq;
          var known := Held(c, p.address) || InFile(c.mshr, p.address);
          && (taken <==> known || (HasFree(c.mshr) && !full))
          && (taken && !Held(c, p.address) ==> Waits(e.c.mshr, p.address, p.fillLevel) || p.fillLevel > c.cfg.fillLevel)
          && (taken ==> CountsOne(c.stats, p.kind, Held(c, p.address), e.c.stats))
          && e.down == if taken && !known then Some(p) else None)
  }

  lemma PrefetchMissServes(c: Cache, p: Packet, popped: Cache, full: bool)
    requires CacheOk(c) && p.address != 0 && popped.mshr == c.mshr
    ensures var e := PrefetchMiss(c, p, popped, full);
      && e.Effect? && KeepsLines(c.mshr, e.c.mshr)
      && (if InFile(c.mshr, p.address) || (HasFree(c.mshr) && !full)
          then e.c == popped.(mshr := e.c.mshr) && (Waits(e.c.mshr, p.address, p.fillLevel) || p.fillLevel > c.cfg.fillLevel)
          else e.c == c)
      && e.down == if !InFile(c.mshr, p.address) && HasFree(c.mshr) && !full then Some(p) else None
  {
    hide SetOk, QueuesOk, Conserved;
    var i, m := CheckMshr(c.mshr, p.address), c.mshr;
    InFileExactlyWhen(m, p.address);
    FreeExactlyWhen(m);
    var d := PrefetchMiss(c, p, popped, full).c.mshr;
    if i >= 0 {
      assert d.entry[i].address == p.address && d.entry[i].fillLevel <= p.fillLevel;
      SameAddressesKept(m, d);
    } else if m.occupancy < c.cfg.mshrSize {
      StoreDirtiness.FreeRegister(m);
      AddKeepsLines(m, p);
      assert AddMshr(m, p).entry[FirstMatch(m.entry, 0, false)].address == p.address;
    }
  }

  lemma PrefetchServes(c: Cache, now: nat, full: bool)
    requires CacheOk(c)
    ensures PrefetchServed(c, now, full, PrefetchStep(c, now, full))
  {
    hide SetOk, MshrOk, Conserved;
    if Due(c.pq, now) {
      var p := c.pq[0];
      HeldExactlyWhen(c, p.address);
      if CheckHit(c, p.address) < 0 {
        PrefetchMissServes(c, p, c.(pq := c.pq[1..], stats := c.stats.CountMiss(p.kind)), full);
      }
      assert |c.pq[1..]| != |c.pq|;
    }
  }

  // ---- What enters a queue ----

  ghost predicate HasKey(q: seq<Packet>, key: nat, byFullAddr: bool) {
    exists i :: 0 <= i < |q| && KeyOf(q[i], byFullAddr) == key
  }

  function Later(a: nat, b: nat): nat { if a < b then b else a }

  /** Exactly this packet joins at the end, to be served after the access latency. */
  ghost predicate Joins(q: seq<Packet>, p: Packet, now: nat, latency: nat, r: seq<Packet>) {
    && |r| == |q| + 1 && r[..|q|] == q
    && r[|q|] == p.(eventCycle := r[|q|].eventCycle)
    && (Later(p.eventCycle, now) + latency <= UINT64_MAX ==> r[|q|].eventCycle == Later(p.eventCycle, now) + latency)
  }

  lemma FirstMatchFinds(q: seq<Packet>, key: nat, byFullAddr: bool)
    ensures FirstMatch(q, key, byFullAddr) >= 0 <==> HasKey(q, key, byFullAddr)
  {
  }

  lemma AgedJoins(c: Cache, q: seq<Packet>, p: Packet, now: nat)
    ensures Joins(q, p, now, c.cfg.latency, q + [Aged(c, p, now)])
  {
  }

  /** add_rq: a read whose line waits in the write queue is answered from there; it joins the read queue exactly
      when the line is not queued there yet and there is room; otherwise nothing changes. */
  lemma ReadEnters(c: Cache, p: Packet, now: nat)
    requires CacheOk(c) && p.address != 0
    ensures var e := AddRq(c, p, now);
      && e.Effect? && e.down == None && e.victim == None
      && if HasKey(c.wq, KeyOf(p, c.cfg.isL1D), c.cfg.isL1D)
         then e.c == c.(stats := e.c.stats) && e.up == if p.fillLevel < c.cfg.fillLevel then Some(p) else None
         else
           && e.up == None
           && if HasKey(c.rq, p.address, false) || |c.rq| >= c.cfg.rqSize then e.c == c
              else e.c == c.(rq := e.c.rq, stats := e.c.stats) && Joins(c.rq, p, now, c.cfg.latency, e.c.rq)
  {
    hide BlocksOk, MshrOk, Conserved, Joins;
    FirstMatchFinds(c.wq, KeyOf(p, c.cfg.isL1D), c.cfg.isL1D);
    FirstMatchFinds(c.rq, p.address, false);
    AgedJoins(c, c.rq, p, now);
  }

  /** add_wq: a write joins exactly when its key is not queued yet, and there must be room for it. */
  lemma WriteEnters(c: Cache, p: Packet, now: nat)
    requires CacheOk(c) && p.address != 0 && |c.wq| < c.cfg.wqSize
    ensures var e := AddWq(c, p, now);
      && e.Effect? && e.up == None && e.down == None && e.victim == None
      && if HasKey(c.wq, KeyOf(p, c.cfg.isL1D), c.cfg.isL1D) then e.c == c
         else e.c == c.(wq := e.c.wq, stats := e.c.stats) && Joins(c.wq, p, now, c.cfg.latency, e.c.wq)
  {
    hide BlocksOk, MshrOk, Conserved, Joins;
    FirstMatchFinds(c.wq, KeyOf(p, c.cfg.isL1D), c.cfg.isL1D);
    AgedJoins(c, c.wq, p, now);
  }

  /** The queued prefetch of line `a` fills as near as both; the other packets are as before. */
  ghost predicate Nearer(q: seq<Packet>, a: nat, level: int, r: seq<Packet>) {
    && |r| == |q|
    && forall i :: 0 <= i < |q| ==>
         r[i] == if q[i].address == a && level < q[i].fillLevel then q[i].(fillLevel := level) else q[i]
  }

  /** add_pq: as add_rq, but a queued prefetch of the line takes over the nearer fill level. */
  lemma PrefetchEnters(c: Cache, p: Packet, now: nat)
    requires CacheOk(c) && p.address != 0
    ensures var e := AddPq(c, p, now);
      && e.Effect? && e.down == None && e.victim == None
      && if HasKey(c.wq, KeyOf(p, c.cfg.isL1D), c.cfg.isL1D)
         then e.c == c.(stats := e.c.stats) && e.up == if p.fillLevel < c.cfg.fillLevel then Some(p) else None
         else
           && e.up == None
           && if HasKey(c.pq, p.address, false) then e.c == c.(pq := e.c.pq) && Nearer(c.pq, p.address, p.fillLevel, e.c.pq)
              else if |c.pq| >= c.cfg.pqSize then e.c == c
              else e.c == c.(pq := e.c.pq, stats := e.c.stats) && Joins(c.pq, p, now, c.cfg.latency, e.c.pq)
  {
    hide BlocksOk, MshrOk, Conserved, Joins;
    FirstMatchFinds(c.wq, KeyOf(p, c.cfg.isL1D), c.cfg.isL1D);
    FirstMatchFinds(c.pq, p.address, false);
    AgedJoins(c, c.pq, p, now);
    var i := FirstMatch(c.pq, p.address, false);
    if i >= 0 {
      forall j | 0 <= j < |c.pq| && c.pq[j].address == p.address ensures j == i {
        assert KeyOf(c.pq[i], false) == KeyOf(c.pq[j], false);
      }
    }
  }

  /** What a cache sends to the write queue below it is one of its dirty blocks, with both its addresses. */
  ghost predicate SendsDirty(c: Cache, now: nat, victim: Option<Packet>) {
    victim.None?
    || exists s, w ::
         && 0 <= s < |c.blocks| && 0 <= w < |c.blocks[s]| && c.blocks[s][w].dirty
         && victim.value == Packet(c.blocks[s][w].address, c.blocks[s][w].fullAddr, 2 * c.cfg.fillLevel, WRITEBACK, Fresh, now)
  }

  lemma DirtySent(c: Cache, now: nat, full: bool)
    requires CacheOk(c)
    ensures FillStep(c, now, full).Effect? ==> SendsDirty(c, now, FillStep(c, now, full).victim)
    ensures WritebackStep(c, now, full).Effect? ==> SendsDirty(c, now, WritebackStep(c, now, full).victim)
  {
    hide QueuesOk, Conserved, MshrOk, SetOk;
    var f, b := FillStep(c, now, full), WritebackStep(c, now, full);
    if f.Effect? && f.victim.Some? {
      var s := GetSet(c.cfg, c.mshr.entry[c.mshr.nextFillIndex].address);
      assert c.blocks[s][LruVictim(c.blocks[s])].dirty;
    }
    if b.Effect? && b.victim.Some? {
      var s := GetSet(c.cfg, c.wq[0].address);
      assert c.blocks[s][LruVictim(c.blocks[s])].dirty;
    }
  }

  /** A fill takes no line from a set that has an invalid way; from a full set it takes at most one. */
  lemma FillEvicts(c: Cache, now: nat, full: bool, a: nat, b: nat)
    requires CacheOk(c) && now < UINT64_MAX && FillStep(c, now, full).Effect?
    requires Held(c, a) && Held(c, b) && !Held(FillStep(c, now, full).c, a) && !Held(FillStep(c, now, full).c, b)
    ensures var s := GetSet(c.cfg, c.mshr.entry[c.mshr.nextFillIndex].address);
      a == b && forall w :: 0 <= w < |c.blocks[s]| ==> c.blocks[s][w].valid
  {
    hide QueuesOk, Conserved, MshrOk;
    var d := FillStep(c, now, full).c;
    var s := GetSet(c.cfg, c.mshr.entry[c.mshr.nextFillIndex].address);
    var v := LruVictim(c.blocks[s]);
    VictimInRange(c, s);
    forall x, t, w | 0 <= t < |c.blocks| && 0 <= w < |c.blocks[t]| && (t != s || w != v) && Holds(c.blocks[t][w], x)
      ensures Held(d, x)
    {
      assert Holds(d.blocks[t][w], x);
    }
    assert forall x :: Held(c, x) && !Held(d, x) ==> Holds(c.blocks[s][v], x);
    if w :| 0 <= w < |c.blocks[s]| && !c.blocks[s][w].valid {
      VictimIsInvalid(c.blocks[s], w);
    }
  }

  /** A returned line is not filled before the access latency has passed. */
  lemma ReturnedLater(m: Mshr, i: nat, now: nat, latency: nat)
    requires i < |m.entry| && Later(m.entry[i].eventCycle, now) + latency <= UINT64_MAX
    ensures Return(m, i, now, latency).entry[i].eventCycle == Later(m.entry[i].eventCycle, now) + latency
  {
  }

  /** A fill round takes a completed register whose time has come, the earliest of all. */
  lemma FillIsDue(c: Cache, now: nat, full: bool)
    requires CacheOk(c) && now < UINT64_MAX && FillStep(c, now, full).Effect? && FillStep(c, now, full).c != c
    ensures var p := c.mshr.entry[c.mshr.nextFillIndex];
      && p.returned == Completed && p.eventCycle <= now
      && forall j :: 0 <= j < |c.mshr.entry| && c.mshr.entry[j].returned == Completed ==> p.eventCycle <= c.mshr.entry[j].eventCycle
  {
    hide BlocksOk, QueuesOk, Conserved, Install;
  }

  // ---- Loads and stores of the core, over whole runs ----

  /** The L1D's write queue holds stores, its read queue loads. */
  function QueueOf(s: Sys, store: bool): seq<Packet> { if store then s.l1.wq else s.l1.rq }

  /** A request for the line is queued, and not to be served before cycle `ready`. */
  ghost predicate QueuedFor(q: seq<Packet>, a: nat, ready: nat) {
    exists i :: 0 <= i < |q| && q[i].address == a && q[i].eventCycle >= ready
  }

  /** The event takes the request for line `a` from the head of its queue, not before cycle `ready`; the line
      is held, or a register waits for it from now on. */
  ghost predicate TakesRequest(s: Sys, e: Event, store: bool, a: nat, ready: nat) {
    && Shape(s.l1) && Shape(s.l2) && Step(s, e).Next?
    && (if store then e.L1Writeback? else e.L1Read?) && ready <= e.now
    && Due(QueueOf(s, store), e.now) && QueueOf(s, store)[0].address == a
    && QueueOf(Step(s, e).s, store) == QueueOf(s, store)[1..]
    && (Held(s.l1, a) || InFile(Step(s, e).s.l1.mshr, a))
  }

  /** A register waits for the line in every state of the run, until a fill brings it into the cache. */
  ghost predicate InFileUntilFilled(s: Sys, events: seq<Event>, t: Sys, a: nat)
    requires Run(s, events, t)
    decreases |events|
  {
    && InFile(s.l1.mshr, a)
    && (|events| == 0
        || (StoreDirtiness.FillsLine(s, events[0], a) && Held(Step(s, events[0]).s.l1, a))
        || InFileUntilFilled(Step(s, events[0]).s, events[1..], t, a))
  }

  /** The request is queued in every state of the run until it is taken; then its line is held, or in flight
      until it is filled. */
  ghost predicate Served(s: Sys, events: seq<Event>, t: Sys, store: bool, a: nat, ready: nat)
    requires Run(s, events, t)
    decreases |events|
  {
    && QueuedFor(QueueOf(s, store), a, ready)
    && (|events| == 0
        || (TakesRequest(s, events[0], store, a, ready)
            && (Held(s.l1, a) || InFileUntilFilled(Step(s, events[0]).s, events[1..], t, a)))
        || Served(Step(s, events[0]).s, events[1..], t, store, a, ready))
  }

  lemma MessagesKeepQueues(s: Sys, m: Option<Packet>, now: nat)
    ensures var o := ReturnToL1(s, m, now); o.Next? ==> o.s.l1.rq == s.l1.rq && o.s.l1.wq == s.l1.wq && o.s.l1.pq == s.l1.pq
    ensures var o := SendToL2Rq(s, m, now); o.Next? ==> o.s.l1.rq == s.l1.rq && o.s.l1.wq == s.l1.wq && o.s.l1.pq == s.l1.pq
    ensures var o := SendToL2Pq(s, m, now); o.Next? ==> o.s.l1.rq == s.l1.rq && o.s.l1.wq == s.l1.wq && o.s.l1.pq == s.l1.pq
    ensures var o := SendToL2Wq(s, m, now); o.Next? ==> o.s.l1 == s.l1
  {
  }

  lemma L2StepsKeepQueues(s: Sys, f: Effect, answered: bool, now: nat)
    ensures var o := EvictAndReturn(s, f, now); o.Next? ==> o.s.l1.rq == s.l1.rq && o.s.l1.wq == s.l1.wq && o.s.l1.pq == s.l1.pq
    ensures var o := AskAndReturn(s, f, answered, now); o.Next? ==> o.s.l1.rq == s.l1.rq && o.s.l1.wq == s.l1.wq && o.s.l1.pq == s.l1.pq
  {
  }

  /** Steps of the L2, its prefetcher and the lower level. */
  lemma OtherKeepsQueues(s: Sys, e: Event)
    requires Shape(s.l1) && Shape(s.l2) && Step(s, e).Next?
    requires !(e.CoreRead? || e.CoreWrite? || e.IssueL1Prefetch? || e.L1Fill? || e.L1Writeback? || e.L1Read? || e.L1Prefetch?)
    ensures Step(s, e).s.l1.rq == s.l1.rq && Step(s, e).s.l1.wq == s.l1.wq
  {
    hide FillStep, WritebackStep, ReadStep, PrefetchStep, EvictAndReturn, AskAndReturn;
    match e
    case L2Fill(now) => L2StepsKeepQueues(s, FillStep(s.l2, now, LowerWqFull(s)), false, now);
    case L2Writeback(now) => L2StepsKeepQueues(s, WritebackStep(s.l2, now, LowerWqFull(s)), false, now);
    case L2Read(now, answered) => L2StepsKeepQueues(s, ReadStep(s.l2, now), answered, now);
    case L2Prefetch(now, full, answered) => L2StepsKeepQueues(s, PrefetchStep(s.l2, now, full), answered, now);
    case _ =>
  }

  lemma ExtendedKeeps(q: seq<Packet>, r: seq<Packet>, a: nat, ready: nat)
    requires QueuedFor(q, a, ready) && q <= r
    ensures QueuedFor(r, a, ready)
  {
    var i :| 0 <= i < |q| && q[i].address == a && q[i].eventCycle >= ready;
    assert r[i] == q[i];
  }

  /** Popping the head keeps every request but that of the head. */
  lemma PoppedKeeps(q: seq<Packet>, a: nat, ready: nat)
    requires |q| > 0 && QueuedFor(q, a, ready) && !(q[0].address == a && q[0].eventCycle >= ready)
    ensures QueuedFor(q[1..], a, ready)
  {
    var i :| 0 <= i < |q| && q[i].address == a && q[i].eventCycle >= ready;
    assert q[1..][i - 1] == q[i];
  }

  lemma CompletesKeepsInFile(c: Cache, d: Cache, a: nat)
    requires OnlyCompletes(c, d)
    ensures InFile(c.mshr, a) ==> InFile(d.mshr, a)
    ensures Held(c, a) ==> Held(d, a)
  {
    if InFile(c.mshr, a) {
      var i :| 0 <= i < |c.mshr.entry| && c.mshr.entry[i].address == a;
      assert d.mshr.entry[i].address == a;
    }
  }

  /** A handler of the L1D that takes the request takes it as the cache does. */
  lemma HandlerTakes(s: Sys, e: Event, store: bool, a: nat, ready: nat)
    requires Inv(s) && Allowed(s, e) && QueuedFor(QueueOf(s, store), a, ready) && (if store then e.L1Writeback? else e.L1Read?)
    ensures Shape(s.l1) && Shape(s.l2) && Step(s, e).Next?
    ensures QueuedFor(QueueOf(Step(s, e).s, store), a, ready) || TakesRequest(s, e, store, a, ready)
  {
    hide Inv, ReadStep, WritebackStep, SendToL2Rq, QueuedFor, Held, InFile;
    InvParts(s);
    StepKeepsInv(s, e);
    ReadServes(s.l1, e.now);
    StoreServes(s.l1, e.now, L2WqFull(s));
    var f := if store then WritebackStep(s.l1, e.now, L2WqFull(s)) else ReadStep(s.l1, e.now);
    var u := s.(l1 := f.c);
    MessagesKeepQueues(u, f.down, e.now);
    RequestOnlyCompletes(u, f.down, e.now);
    var q := QueueOf(s, store);
    var next := Step(s, e).s;
    assert QueueOf(next, store) == QueueOf(u, store);
    if QueueOf(u, store) != q {
      if q[0].address == a && q[0].eventCycle >= ready {
        CompletesKeepsInFile(f.c, next.l1, a);
        WaitingIsInFile(f.c.mshr, a, q[0].fillLevel);
      } else {
        PoppedKeeps(q, a, ready);
      }
    }
  }

  lemma WaitingIsInFile(m: Mshr, a: nat, level: int)
    ensures Waits(m, a, level) ==> InFile(m, a)
  {
  }

  /** The other handlers of the L1D, and the core. */
  lemma OtherL1KeepsQueue(s: Sys, e: Event, store: bool, a: nat, ready: nat)
    requires Inv(s) && Allowed(s, e) && QueuedFor(QueueOf(s, store), a, ready) && !(if store then e.L1Writeback? else e.L1Read?)
    requires e.CoreRead? || e.CoreWrite? || e.IssueL1Prefetch? || e.L1Fill? || e.L1Writeback? || e.L1Read? || e.L1Prefetch?
    ensures Shape(s.l1) && Shape(s.l2) && Step(s, e).Next?
    ensures QueuedFor(QueueOf(Step(s, e).s, store), a, ready)
  {
    hide Inv, ReadStep, WritebackStep, PrefetchStep, SendToL2Rq, SendToL2Pq, SendToL2Wq, QueuedFor;
    hide AddRq, AddPq, AddWq, Joins, HasKey, DemandServed, PrefetchServed, KeepsLines;
    InvParts(s);
    StepKeepsInv(s, e);
    var q := QueueOf(s, store);
    match e
    case CoreRead(p, now) =>
      ReadEnters(s.l1, p, now);
      JoinsExtends(s.l1.rq, p, now, s.l1.cfg.latency, AddRq(s.l1, p, now).c.rq);
      ExtendedKeeps(q, QueueOf(Step(s, e).s, store), a, ready);
    case CoreWrite(p, now) =>
      WriteEnters(s.l1, p, now);
      JoinsExtends(s.l1.wq, p, now, s.l1.cfg.latency, AddWq(s.l1, p, now).c.wq);
      ExtendedKeeps(q, QueueOf(Step(s, e).s, store), a, ready);
    case IssueL1Prefetch(p, now) =>
      PrefetchEnters(s.l1, p, now);
    case L1Fill(now) =>
      FillKeepsQueues(s.l1, now, L2WqFull(s));
      MessagesKeepQueues(s.(l1 := FillStep(s.l1, now, L2WqFull(s)).c), FillStep(s.l1, now, L2WqFull(s)).victim, now);
    case L1Writeback(now) =>
      StoreServes(s.l1, now, L2WqFull(s));
      MessagesKeepQueues(s.(l1 := WritebackStep(s.l1, now, L2WqFull(s)).c), WritebackStep(s.l1, now, L2WqFull(s)).down, now);
    case L1Read(now) =>
      ReadServes(s.l1, now);
      MessagesKeepQueues(s.(l1 := ReadStep(s.l1, now).c), ReadStep(s.l1, now).down, now);
    case L1Prefetch(now) =>
      PrefetchKeepsQueues(s.l1, now, L2PqFull(s));
      MessagesKeepQueues(s.(l1 := PrefetchStep(s.l1, now, L2PqFull(s)).c), PrefetchStep(s.l1, now, L2PqFull(s)).down, now);
  }

  lemma JoinsExtends(q: seq<Packet>, p: Packet, now: nat, latency: nat, r: seq<Packet>)
    ensures Joins(q, p, now, latency, r) ==> q <= r
  {
  }

  lemma FillKeepsQueues(c: Cache, now: nat, full: bool)
    requires Shape(c)
    ensures var e := FillStep(c, now, full); e.Effect? ==> e.c.rq == c.rq && e.c.wq == c.wq
  {
  }

  lemma PrefetchKeepsQueues(c: Cache, now: nat, full: bool)
    requires CacheOk(c)
    ensures var e := PrefetchStep(c, now, full); e.Effect? && e.c.rq == c.rq && e.c.wq == c.wq
  {
    PrefetchServes(c, now, full);
  }

  lemma StepServes(s: Sys, e: Event, store: bool, a: nat, ready: nat)
    requires Inv(s) && Allowed(s, e) && QueuedFor(QueueOf(s, store), a, ready)
    ensures Shape(s.l1) && Shape(s.l2) && Step(s, e).Next?
    ensures QueuedFor(QueueOf(Step(s, e).s, store), a, ready) || TakesRequest(s, e, store, a, ready)
  {
    hide Inv, Step, QueuedFor, TakesRequest;
    InvParts(s);
    StepKeepsInv(s, e);
    if (if store then e.L1Writeback? else e.L1Read?) {
      HandlerTakes(s, e, store, a, ready);
    } else if e.CoreRead? || e.CoreWrite? || e.IssueL1Prefetch? || e.L1Fill? || e.L1Writeback? || e.L1Read? || e.L1Prefetch? {
      OtherL1KeepsQueue(s, e, store, a, ready);
    } else {
      OtherKeepsQueues(s, e);
    }
  }

  // ---- From the register to the fill ----

  lemma FillEndsInFile(c: Cache, now: nat, full: bool, a: nat)
    requires CacheOk(c) && now < UINT64_MAX && a != 0 && InFile(c.mshr, a)
    ensures var e := FillStep(c, now, full);
      e.Effect? && (InFile(e.c.mshr, a) || (StoreDirtiness.FillsNow(c, now) && c.mshr.entry[c.mshr.nextFillIndex].address == a
                                            && e.c != c && Held(e.c, a)))
  {
    hide QueuesOk, Conserved, SetOk;
    FillStepOk(c, now, full);
    var d := FillStep(c, now, full).c;
    if d != c {
      StoreDirtiness.FillInstalls(c, now, full);
      var p := c.mshr.entry[c.mshr.nextFillIndex];
      var s := GetSet(c.cfg, p.address);
      assert Holds(d.blocks[s][LruVictim(c.blocks[s])], p.address);
      var i :| 0 <= i < |c.mshr.entry| && c.mshr.entry[i].address == a;
      if i != c.mshr.nextFillIndex {
        assert d.mshr.entry[i].address == a;
      }
    }
  }

  lemma StepKeepsInFile(s: Sys, e: Event, a: nat)
    requires Inv(s) && Allowed(s, e) && a != 0 && InFile(s.l1.mshr, a)
    ensures Shape(s.l1) && Shape(s.l2) && Step(s, e).Next?
    ensures InFile(Step(s, e).s.l1.mshr, a) || (StoreDirtiness.FillsLine(s, e, a) && Held(Step(s, e).s.l1, a))
  {
    hide Inv, FillStep, ReadStep, WritebackStep, PrefetchStep, SendToL2Rq, SendToL2Pq, SendToL2Wq, InFile, Held, DemandServed;
    InvParts(s);
    StepKeepsInv(s, e);
    if e.L1Fill? {
      FillEndsInFile(s.l1, e.now, L2WqFull(s), a);
      var f := FillStep(s.l1, e.now, L2WqFull(s));
      RequestOnlyCompletes(s.(l1 := f.c), f.victim, e.now);
      CompletesKeepsInFile(f.c, Step(s, e).s.l1, a);
    } else if e.L1Writeback? || e.L1Read? || e.L1Prefetch? {
      ReadServes(s.l1, e.now);
      StoreServes(s.l1, e.now, L2WqFull(s));
      PrefetchServes(s.l1, e.now, L2PqFull(s));
      var f := if e.L1Writeback? then WritebackStep(s.l1, e.now, L2WqFull(s))
               else if e.L1Read? then ReadStep(s.l1, e.now) else PrefetchStep(s.l1, e.now, L2PqFull(s));
      RequestOnlyCompletes(s.(l1 := f.c), f.down, e.now);
      CompletesKeepsInFile(f.c, Step(s, e).s.l1, a);
    } else {
      OtherStepOnlyCompletes(s, e);
      CompletesKeepsInFile(s.l1, Step(s, e).s.l1, a);
    }
  }

  lemma {:induction false} RunKeepsInFile(s: Sys, events: seq<Event>, t: Sys, a: nat)
    requires Inv(s) && Run(s, events, t) && a != 0 && InFile(s.l1.mshr, a)
    ensures InFileUntilFilled(s, events, t, a)
    decreases |events|
  {
    hide Inv, Step, InFile, Held, StoreDirtiness.FillsLine;
    if |events| > 0 {
      StepKeepsInv(s, events[0]);
      StepKeepsInFile(s, events[0], a);
      if InFile(Step(s, events[0]).s.l1.mshr, a) {
        RunKeepsInFile(Step(s, events[0]).s, events[1..], t, a);
      }
    }
  }

  lemma QueuedAddress(s: Sys, store: bool, a: nat, ready: nat)
    requires Inv(s) && QueuedFor(QueueOf(s, store), a, ready)
    ensures a != 0
  {
  }

  /** Over every run, a queued load or store of the core stays queued, in place and no earlier than its time,
      until its line is held when it is taken, or in flight from then until it is filled: no request is lost. */
  lemma {:induction false} RequestNeverLost(s: Sys, events: seq<Event>, t: Sys, store: bool, a: nat, ready: nat)
    requires Inv(s) && Run(s, events, t) && QueuedFor(QueueOf(s, store), a, ready)
    ensures Served(s, events, t, store, a, ready)
    decreases |events|
  {
    hide Inv, Step, InFile, Held, TakesRequest, QueuedFor;
    if |events| > 0 {
      StepKeepsInv(s, events[0]);
      StepServes(s, events[0], store, a, ready);
      var next := Step(s, events[0]).s;
      if TakesRequest(s, events[0], store, a, ready) {
        QueuedAddress(s, store, a, ready);
        TakenHow(s, events[0], store, a, ready);
        if !Held(s.l1, a) {
          RunKeepsInFile(next, events[1..], t, a);
        }
      } else {
        RequestNeverLost(next, events[1..], t, store, a, ready);
      }
    }
  }

  lemma TakenHow(s: Sys, e: Event, store: bool, a: nat, ready: nat)
    requires TakesRequest(s, e, store, a, ready)
    ensures Held(s.l1, a) || InFile(Step(s, e).s.l1.mshr, a)
  {
  }

  /** A load that the core issues and the cache takes or merges is queued; with no other load for the line
      queued, it is not served before the access latency has passed. */
  lemma LoadIsQueued(s: Sys, p: Packet, now: nat)
    requires Inv(s) && Allowed(s, CoreRead(p, now)) && !HasKey(s.l1.wq, p.fullAddr, true)
    requires HasKey(s.l1.rq, p.address, false) || |s.l1.rq| < s.l1.cfg.rqSize
    ensures Shape(s.l1) && Shape(s.l2) && Step(s, CoreRead(p, now)).Next?
    ensures var t := Step(s, CoreRead(p, now)).s;
      && QueuedFor(t.l1.rq, p.address, 0)
      && (!HasKey(s.l1.rq, p.address, false) && Later(p.eventCycle, now) + s.l1.cfg.latency <= UINT64_MAX ==>
            QueuedFor(t.l1.rq, p.address, now + s.l1.cfg.latency))
  {
    hide AddRq, CacheOk, ExactlyOnce;
    InvParts(s);
    ReadEnters(s.l1, p, now);
    var r := AddRq(s.l1, p, now).c.rq;
    if HasKey(s.l1.rq, p.address, false) {
      var i :| 0 <= i < |r| && KeyOf(r[i], false) == p.address;
      assert r[i].address == p.address;
    } else {
      assert r[|r| - 1].address == p.address;
    }
  }

  lemma StoreIsQueued(s: Sys, p: Packet, now: nat)
    requires Inv(s) && Allowed(s, CoreWrite(p, now)) && !HasKey(s.l1.wq, p.fullAddr, true)
    ensures Shape(s.l1) && Shape(s.l2) && Step(s, CoreWrite(p, now)).Next?
    ensures var t := Step(s, CoreWrite(p, now)).s;
      && QueuedFor(t.l1.wq, p.address, 0)
      && (Later(p.eventCycle, now) + s.l1.cfg.latency <= UINT64_MAX ==>
            QueuedFor(t.l1.wq, p.address, now + s.l1.cfg.latency))
  {
    hide AddWq, CacheOk, ExactlyOnce;
    InvParts(s);
    WriteEnters(s.l1, p, now);
    var r := AddWq(s.l1, p, now).c.wq;
    assert r[|r| - 1].address == p.address;
  }

  /** A prefetch that either cache's prefetcher issues while its queue has room is queued, unless the line waits in
      the write queue. */
  lemma PrefetchIsQueued(s: Sys, l1: bool, p: Packet, now: nat)
    requires Inv(s) && Allowed(s, if l1 then IssueL1Prefetch(p, now) else IssueL2Prefetch(p, now))
    requires var c := if l1 then s.l1 else s.l2; |c.pq| < c.cfg.pqSize && !HasKey(c.wq, KeyOf(p, l1), l1)
    ensures Shape(s.l1) && Shape(s.l2) && Step(s, if l1 then IssueL1Prefetch(p, now) else IssueL2Prefetch(p, now)).Next?
    ensures var t := Step(s, if l1 then IssueL1Prefetch(p, now) else IssueL2Prefetch(p, now)).s;
      QueuedFor(if l1 then t.l1.pq else t.l2.pq, p.address, 0)
  {
    hide AddPq, CacheOk, ExactlyOnce;
    InvParts(s);
    StepKeepsInv(s, if l1 then IssueL1Prefetch(p, now) else IssueL2Prefetch(p, now));
    var c := if l1 then s.l1 else s.l2;
    PrefetchEnters(c, p, now);
    var r := AddPq(c, p, now).c.pq;
    if HasKey(c.pq, p.address, false) {
      var i :| 0 <= i < |c.pq| && KeyOf(c.pq[i], false) == p.address;
      assert r[i].address == p.address;
    } else {
      assert r[|r| - 1].address == p.address;
    }
  }

  // ---- One cycle ----

  /** The steps of a cycle that take nothing from the read and prefetch queues. */
  lemma FillAndStoreKeepQueues(s: Sys, e: Event)
    requires Inv(s) && Allowed(s, e) && (e.L1Fill? || e.L1Writeback?) && Shape(s.l1) && Shape(s.l2)
    ensures Step(s, e).Next? && Step(s, e).s.l1.rq == s.l1.rq && Step(s, e).s.l1.pq == s.l1.pq
  {
    hide Inv, FillStep, WritebackStep, SendToL2Rq, SendToL2Wq, DemandServed, Due;
    InvParts(s);
    StepKeepsInv(s, e);
    if e.L1Fill? {
      FillKeepsAllQueues(s.l1, e.now, L2WqFull(s));
      var f := FillStep(s.l1, e.now, L2WqFull(s));
      MessagesKeepQueues(s.(l1 := f.c), f.victim, e.now);
    } else {
      StoreServes(s.l1, e.now, L2WqFull(s));
      var f := WritebackStep(s.l1, e.now, L2WqFull(s));
      MessagesKeepQueues(s.(l1 := f.c), f.down, e.now);
    }
  }

  lemma FillKeepsAllQueues(c: Cache, now: nat, full: bool)
    requires Shape(c)
    ensures var e := FillStep(c, now, full); e.Effect? ==> e.c.rq == c.rq && e.c.wq == c.wq && e.c.pq == c.pq
  {
  }

  /** One round of handle_read takes the head of the read queue or changes nothing at all. */
  lemma ReadTakesOrIdles(s: Sys, now: nat)
    requires Inv(s) && Shape(s.l1) && Shape(s.l2)
    ensures var o := Step(s, L1Read(now));
      o.Next? && (o == Next(s) || (|o.s.l1.rq| + 1 == |s.l1.rq| && o.s.l1.pq == s.l1.pq))
  {
    hide Inv, ReadStep, SendToL2Rq, Held, HeldAndUsed, InFile, KeepsLines, CountsOne;
    InvParts(s);
    StepKeepsInv(s, L1Read(now));
    ReadServes(s.l1, now);
    var f := ReadStep(s.l1, now);
    MessagesKeepQueues(s.(l1 := f.c), f.down, now);
    if f.c.rq == s.l1.rq {
      NoneSent(s, now);
    }
  }

  lemma NoneSent(s: Sys, now: nat)
    ensures SendToL2Rq(s, None, now) == Next(s) && SendToL2Pq(s, None, now) == Next(s)
  {
  }

  /** One round of handle_prefetch takes the head of the prefetch queue or changes nothing at all. */
  lemma PrefetchTakesOrIdles(s: Sys, now: nat)
    requires Inv(s) && Shape(s.l1) && Shape(s.l2)
    ensures var o := Step(s, L1Prefetch(now));
      o.Next? && (o == Next(s) || (|o.s.l1.pq| + 1 == |s.l1.pq| && o.s.l1.rq == s.l1.rq))
  {
    hide Inv, PrefetchStep, SendToL2Pq, Held, InFile, KeepsLines, CountsOne, Waits;
    InvParts(s);
    StepKeepsInv(s, L1Prefetch(now));
    PrefetchServes(s.l1, now, L2PqFull(s));
    var f := PrefetchStep(s.l1, now, L2PqFull(s));
    MessagesKeepQueues(s.(l1 := f.c), f.down, now);
    if f.c.pq == s.l1.pq {
      NoneSent(s, now);
    }
  }

  lemma L2MessagesKeepQueues(s: Sys, f: Effect, answered: bool, now: nat)
    requires f.Effect?
    ensures var o := EvictAndReturn(s, f, now); o.Next? ==> o.s.l2 == f.c
    ensures var o := AskAndReturn(s, f, answered, now); o.Next? ==> o.s.l2.rq == f.c.rq && o.s.l2.pq == f.c.pq
  {
  }

  lemma L2FillAndWritebackKeepQueues(s: Sys, e: Event)
    requires Inv(s) && Allowed(s, e) && (e.L2Fill? || e.L2Writeback?) && Shape(s.l1) && Shape(s.l2)
    ensures Step(s, e).Next? && Step(s, e).s.l2.rq == s.l2.rq && Step(s, e).s.l2.pq == s.l2.pq
  {
    hide FillStep, WritebackStep, EvictAndReturn, CacheOk, ExactlyOnce;
    StepKeepsInv(s, e);
    if e.L2Fill? {
      FillKeepsAllQueues(s.l2, e.now, LowerWqFull(s));
      L2FillPays(s.l2, e.now, LowerWqFull(s));
      L2MessagesKeepQueues(s, FillStep(s.l2, e.now, LowerWqFull(s)), false, e.now);
    } else {
      WritebackServes(s.l2, e.now, LowerWqFull(s));
      L2MessagesKeepQueues(s, WritebackStep(s.l2, e.now, LowerWqFull(s)), false, e.now);
    }
  }

  lemma L2Idle(s: Sys, f: Effect, answered: bool, now: nat)
    requires f == Effect(s.l2, None, None, None)
    ensures AskAndReturn(s, f, answered, now) == Next(s)
  {
  }

  /** One round of the L2's handle_read takes the head of its read queue or changes nothing at all. */
  lemma L2ReadTakesOrIdles(s: Sys, now: nat, answered: bool)
    requires Inv(s) && Shape(s.l1) && Shape(s.l2)
    ensures var o := Step(s, L2Read(now, answered));
      && o.Next?
      && ((forall b: bool :: Step(s, L2Read(now, b)) == Next(s)) || (|o.s.l2.rq| + 1 == |s.l2.rq| && o.s.l2.pq == s.l2.pq))
  {
    hide ReadStep, AskAndReturn, CacheOk, ExactlyOnce, Held, HeldAndUsed, InFile, KeepsLines, CountsOne, Waits;
    StepKeepsInv(s, L2Read(now, answered));
    ReadServes(s.l2, now);
    ReadUp(s.l2, now);
    var f := ReadStep(s.l2, now);
    L2MessagesKeepQueues(s, f, answered, now);
    if f.c.rq == s.l2.rq {
      forall b: bool ensures Step(s, L2Read(now, b)) == Next(s) {
        L2Idle(s, f, b, now);
      }
    }
  }

  /** Nothing is returned for a request that stays queued. */
  lemma ReadUp(c: Cache, now: nat)
    requires Shape(c)
    ensures var e := ReadStep(c, now); e.Effect? ==> e.victim == None && (e.c.rq == c.rq ==> e.up == None)
  {
    if |c.rq| > 0 {
      assert |c.rq[1..]| != |c.rq|;
    }
  }

  lemma L2PrefetchTakesOrIdles(s: Sys, now: nat, full: bool, answered: bool)
    requires Inv(s) && Shape(s.l1) && Shape(s.l2)
    ensures var o := Step(s, L2Prefetch(now, full, answered));
      o.Next? && o.s.l2.rq == s.l2.rq && (o.s.l2.pq == s.l2.pq || |o.s.l2.pq| + 1 == |s.l2.pq|)
  {
    hide PrefetchStep, AskAndReturn, CacheOk, ExactlyOnce, Held, InFile, KeepsLines, CountsOne, Waits;
    StepKeepsInv(s, L2Prefetch(now, full, answered));
    PrefetchServes(s.l2, now, full);
    L2MessagesKeepQueues(s, PrefetchStep(s.l2, now, full), answered, now);
  }
}
