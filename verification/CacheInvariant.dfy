/** What every handler and every request keeps about one cache level on its own:
    block array and LRU order, queues, miss registers, and the packet counters. */
module CacheInvariant {
  import opened Counting
  import opened Packets
  import opened Replacement
  import opened MshrFile
  import opened CacheModel

  /** A valid block sits in the set its address selects; only valid blocks are dirty. */
  ghost predicate BlockOk(cfg: Config, s: nat, b: Block)
    requires cfg.numSets > 0
  {
    && b.address == b.tag
    && (b.dirty ==> b.valid)
    && (b.valid ==> b.address != 0 && GetSet(cfg, b.address) == s)
  }

  ghost predicate SetOk(cfg: Config, s: nat, t: seq<Block>)
    requires cfg.numSets > 0
  {
    && |t| == cfg.numWays
    && LruOk(t)
    && forall w :: 0 <= w < |t| ==> BlockOk(cfg, s, t[w])
  }

  ghost predicate BlocksOk(c: Cache) {
    && Shape(c)
    && forall s :: 0 <= s < |c.blocks| ==> SetOk(c.cfg, s, c.blocks[s])
  }

  ghost predicate QueueOk(q: seq<Packet>, size: nat, byFullAddr: bool) {
    && |q| <= size
    && DistinctKeys(q, byFullAddr)
    && forall i :: 0 <= i < |q| ==> q[i].address != 0
  }

  ghost predicate QueuesOk(c: Cache) {
    && QueueOk(c.rq, c.cfg.rqSize, false)
    && QueueOk(c.wq, c.cfg.wqSize, c.cfg.isL1D)
    && QueueOk(c.pq, c.cfg.pqSize, false)
  }

  /** Every packet taken in is still queued, or was counted as an access exactly once;
      every access is a hit or a miss. */
  ghost predicate Conserved(c: Cache) {
    && c.stats.wqToCache + c.stats.rqToCache + c.stats.pqToCache + c.stats.wqForward
       == c.stats.access.Sum() + |c.rq| + |c.wq| + |c.pq|
    && Splits(c.stats.access, c.stats.hit, c.stats.miss)
  }

  ghost predicate Splits(access: Tally, hit: Tally, miss: Tally) {
    && access.load == hit.load + miss.load
    && access.rfo == hit.rfo + miss.rfo
    && access.prefetch == hit.prefetch + miss.prefetch
    && access.writeback == hit.writeback + miss.writeback
  }

  ghost predicate CacheOk(c: Cache) {
    BlocksOk(c) && QueuesOk(c) && MshrOk(c.mshr) && c.mshr.occupancy <= c.cfg.mshrSize && Conserved(c)
  }

  lemma InitialCacheOk(c: Cache)
    requires IsInitial(c)
    ensures CacheOk(c)
  {
    hide BlocksOk, MshrOk, IsInitialSet, EmptyMshr, Conserved;
    EmptyMshrOk(c.cfg.mshrSize);
    InitialBlocksOk(c);
    InitialConserved(c);
  }

  lemma InitialBlocksOk(c: Cache)
    requires IsInitial(c)
    ensures BlocksOk(c)
  {
    hide SetOk, IsInitialSet, EmptyMshr;
    EmptyMshrOk(c.cfg.mshrSize);
    forall s | 0 <= s < |c.blocks| ensures SetOk(c.cfg, s, c.blocks[s]) && |c.blocks[s]| == c.cfg.numWays {
      assert IsInitialSet(c.blocks[s], c.cfg.numWays);
      InitialSetOk(c.cfg, s, c.blocks[s]);
    }
  }

  lemma InitialSetOk(cfg: Config, s: nat, t: seq<Block>)
    requires cfg.numSets > 0 && IsInitialSet(t, cfg.numWays)
    ensures SetOk(cfg, s, t) && |t| == cfg.numWays
  {
    InitialLru(t);
  }

  lemma InitialConserved(c: Cache)
    requires IsInitial(c)
    ensures Conserved(c)
  {
  }

  // ---- Queues ----

  lemma PopOk(q: seq<Packet>, size: nat, byFullAddr: bool)
    requires QueueOk(q, size, byFullAddr) && |q| > 0
    ensures QueueOk(q[1..], size, byFullAddr)
  {
  }

  lemma FirstQueued(q: seq<Packet>, size: nat, byFullAddr: bool)
    requires QueueOk(q, size, byFullAddr) && |q| > 0
    ensures q[0].address != 0
  {
  }

  lemma MergedPqOk(q: seq<Packet>, size: nat, i: nat, fillLevel: int)
    requires QueueOk(q, size, false) && i < |q|
    ensures QueueOk(q[i := q[i].(fillLevel := fillLevel)], size, false)
  {
  }

  /** A packet whose key is not queued yet may join. */
  lemma PushOk(q: seq<Packet>, size: nat, byFullAddr: bool, p: Packet)
    requires QueueOk(q, size, byFullAddr) && |q| < size && p.address != 0
    requires FirstMatch(q, KeyOf(p, byFullAddr), byFullAddr) == -1
    ensures QueueOk(q + [p], size, byFullAddr)
  {
  }

  // ---- Blocks ----

  /** A hit promotes the way and may set its dirty, prefetch and used bits. */
  lemma HitOk(c: Cache, s: nat, w: nat, kind: Kind, b: Block)
    requires BlocksOk(c) && s < |c.blocks| && w < c.cfg.numWays && c.blocks[s][w].valid
    requires var t := Touch(c.blocks[s], w, kind, true);
      b.address == t[w].address && b.tag == t[w].tag && b.valid && b.lru == t[w].lru
    ensures BlocksOk(PutSet(c, s, Touch(c.blocks[s], w, kind, true)[w := b]))
  {
    var u := c.blocks[s];
    var t := Touch(u, w, kind, true);
    LruOkKept(u, w);
    LruOkFrame(t, t[w := b]);
    assert BlockOk(c.cfg, s, u[w]) && BlockOk(c.cfg, s, b);
    forall v | 0 <= v < |t| && v != w ensures BlockOk(c.cfg, s, t[v]) {
      assert BlockOk(c.cfg, s, u[v]);
    }
  }

  /** A fill puts a line with a nonzero address into a way of its own set. */
  lemma InstallOk(c: Cache, way: nat, p: Packet, dirty: bool)
    requires BlocksOk(c) && way < c.cfg.numWays && p.address != 0
    ensures BlocksOk(Install(c, GetSet(c.cfg, p.address), way, p, dirty))
  {
    var s := GetSet(c.cfg, p.address);
    var u := c.blocks[s];
    var t := Touch(u, way, p.kind, false);
    LruOkKept(u, way);
    LruOkFrame(t, t[way := FillBlock(t[way], p, dirty)]);
    forall v | 0 <= v < |t| && v != way ensures BlockOk(c.cfg, s, t[v]) {
      assert BlockOk(c.cfg, s, u[v]);
    }
  }

  lemma VictimInRange(c: Cache, s: nat)
    requires BlocksOk(c) && s < |c.blocks|
    ensures LruVictim(c.blocks[s]) < c.cfg.numWays
  {
    LruOkKept(c.blocks[s], 0);
  }

  // ---- Handlers ----

  lemma FillStepOk(c: Cache, now: nat, lowerWqFull: bool)
    requires CacheOk(c) && now < UINT64_MAX
    ensures var e := FillStep(c, now, lowerWqFull); e.Effect? && CacheOk(e.c) && e.c.cfg == c.cfg
  {
    var m := c.mshr;
    if m.nextFillIndex < |m.entry| && m.entry[m.nextFillIndex].address != 0 && m.nextFillCycle <= now {
      var p := m.entry[m.nextFillIndex];
      var s := GetSet(c.cfg, p.address);
      VictimInRange(c, s);
      InstallOk(c, LruVictim(c.blocks[s]), p, c.cfg.isL1D && p.kind == RFO);
      ReleaseOk(m, m.nextFillIndex);
    }
  }

  lemma DemandMissOk(c: Cache, p: Packet, popped: Cache)
    requires CacheOk(c) && CacheOk(popped) && p.address != 0
    requires popped.cfg == c.cfg && popped.mshr == c.mshr
    ensures var e := DemandMiss(c, p, popped); e.Effect? && CacheOk(e.c) && e.c.cfg == c.cfg
  {
    var i := CheckMshr(c.mshr, p.address);
    if i == -1 {
      AddMshrOk(c.mshr, p);
    } else {
      MergeOk(c.mshr, i, p, true);
    }
  }

  lemma SameBlocks(c: Cache, d: Cache)
    requires BlocksOk(c) && d.cfg == c.cfg && d.blocks == c.blocks && d.mshr == c.mshr
    ensures BlocksOk(d)
  {
  }

  lemma PoppedWqOk(c: Cache, st: Stats)
    requires CacheOk(c) && |c.wq| > 0 && (st == c.stats.CountHit(c.wq[0].kind) || st == c.stats.CountMiss(c.wq[0].kind))
    ensures CacheOk(c.(wq := c.wq[1..], stats := st))
  {
    hide BlocksOk, MshrOk, QueueOk;
    SameBlocks(c, c.(wq := c.wq[1..], stats := st));
    PopOk(c.wq, c.cfg.wqSize, c.cfg.isL1D);
  }

  lemma WritebackStepOk(c: Cache, now: nat, lowerWqFull: bool)
    requires CacheOk(c)
    ensures var e := WritebackStep(c, now, lowerWqFull); e.Effect? && CacheOk(e.c) && e.c.cfg == c.cfg
  {
    if |c.wq| > 0 && c.wq[0].eventCycle <= now {
      var p := c.wq[0];
      var s := GetSet(c.cfg, p.address);
      var w := CheckHit(c, p.address);
      if w >= 0 {
        PoppedWqOk(c, c.stats.CountHit(p.kind));
        var t := Touch(c.blocks[s], w, p.kind, true);
        HitOk(c, s, w, p.kind, t[w].(dirty := true));
      } else {
        PoppedWqOk(c, c.stats.CountMiss(p.kind));
        if c.cfg.isL1D {
          DemandMissOk(c, p, c.(wq := c.wq[1..], stats := c.stats.CountMiss(p.kind)));
        } else {
          VictimInRange(c, s);
          InstallOk(c, LruVictim(c.blocks[s]), p, true);
        }
      }
    }
  }

  lemma ReadStepOk(c: Cache, now: nat)
    requires CacheOk(c)
    ensures var e := ReadStep(c, now); e.Effect? && CacheOk(e.c) && e.c.cfg == c.cfg
  {
    hide SetOk, MshrOk, QueueOk;
    if |c.rq| > 0 && c.rq[0].eventCycle <= now {
      var p := c.rq[0];
      FirstQueued(c.rq, c.cfg.rqSize, false);
      var s := GetSet(c.cfg, p.address);
      var w := CheckHit(c, p.address);
      PopOk(c.rq, c.cfg.rqSize, false);
      if w >= 0 {
        var t := Touch(c.blocks[s], w, p.kind, true);
        HitOk(c, s, w, p.kind, t[w].(prefetch := false, used := true));
      } else {
        DemandMissOk(c, p, c.(rq := c.rq[1..], stats := c.stats.CountMiss(p.kind)));
      }
    }
  }

  lemma PrefetchStepOk(c: Cache, now: nat, lowerPqFull: bool)
    requires CacheOk(c)
    ensures var e := PrefetchStep(c, now, lowerPqFull); e.Effect? && CacheOk(e.c) && e.c.cfg == c.cfg
  {
    hide SetOk, MshrOk;
    if |c.pq| > 0 && c.pq[0].eventCycle <= now {
      var p := c.pq[0];
      PopOk(c.pq, c.cfg.pqSize, false);
      if CheckHit(c, p.address) >= 0 {
        PrefetchHitOk(c);
      } else {
        PrefetchMissOk(c, p, c.(pq := c.pq[1..], stats := c.stats.CountMiss(p.kind)), lowerPqFull);
      }
    }
  }

  lemma PrefetchMissOk(c: Cache, p: Packet, popped: Cache, lowerPqFull: bool)
    requires CacheOk(c) && CacheOk(popped) && p.address != 0
    requires popped.cfg == c.cfg && popped.mshr == c.mshr
    ensures var e := PrefetchMiss(c, p, popped, lowerPqFull); e.Effect? && CacheOk(e.c) && e.c.cfg == c.cfg
  {
    var i := CheckMshr(c.mshr, p.address);
    if i == -1 {
      AddMshrOk(c.mshr, p);
    } else {
      MergeOk(c.mshr, i, p, false);
    }
  }

  lemma PrefetchHitOk(c: Cache)
    requires CacheOk(c) && |c.pq| > 0 && CheckHit(c, c.pq[0].address) >= 0
    ensures var p := c.pq[0];
      var s := GetSet(c.cfg, p.address);
      CacheOk(PutSet(c.(pq := c.pq[1..]), s, Touch(c.blocks[s], CheckHit(c, p.address), p.kind, true))
                .(stats := c.stats.CountHit(p.kind)))
  {
    var p := c.pq[0];
    var s, w := GetSet(c.cfg, p.address), CheckHit(c, p.address);
    var t := Touch(c.blocks[s], w, p.kind, true);
    PopOk(c.pq, c.cfg.pqSize, false);
    HitOk(c, s, w, p.kind, t[w]);
    assert t[w := t[w]] == t;
  }

  // ---- Requests ----

  lemma AddRqOk(c: Cache, p: Packet, now: nat)
    requires CacheOk(c) && p.address != 0
    ensures var e := AddRq(c, p, now); e.Effect? && CacheOk(e.c) && e.c.cfg == c.cfg
  {
    hide SetOk, MshrOk, DistinctKeys;
    if RqAdmission(c, p) == Queued {
      PushOk(c.rq, c.cfg.rqSize, false, Aged(c, p, now));
    }
  }

  lemma AddPqOk(c: Cache, p: Packet, now: nat)
    requires CacheOk(c) && p.address != 0
    ensures var e := AddPq(c, p, now); e.Effect? && CacheOk(e.c) && e.c.cfg == c.cfg
  {
    hide SetOk, MshrOk, DistinctKeys;
    if PqAdmission(c, p) == Queued {
      PushOk(c.pq, c.cfg.pqSize, false, Aged(c, p, now));
    } else if PqAdmission(c, p) == Merged {
      MergedPqOk(c.pq, c.cfg.pqSize, FirstMatch(c.pq, p.address, false), p.fillLevel);
    }
  }

  /** add_wq fails only on a full queue that does not hold the line already. */
  lemma AddWqOk(c: Cache, p: Packet, now: nat)
    requires CacheOk(c) && p.address != 0
    ensures var e := AddWq(c, p, now);
      && (e.Abort? <==> |c.wq| == c.cfg.wqSize && WqIndex(c, p) == -1)
      && (e.Effect? ==> CacheOk(e.c) && e.c.cfg == c.cfg)
  {
    if WqIndex(c, p) == -1 && |c.wq| < c.cfg.wqSize {
      PushOk(c.wq, c.cfg.wqSize, c.cfg.isL1D, Aged(c, p, now));
    }
  }

  lemma ReturnDataOk(c: Cache, p: Packet, now: nat)
    requires CacheOk(c) && p.address != 0 && Count(c.mshr.entry, InflightAt(p.address)) == 1
    ensures var e := ReturnData(c, p, now); e.Effect? && CacheOk(e.c) && e.c.cfg == c.cfg
  {
    InflightCount(c.mshr, p.address);
    ReturnOk(c.mshr, CheckMshr(c.mshr, p.address), now, c.cfg.latency);
  }
}
