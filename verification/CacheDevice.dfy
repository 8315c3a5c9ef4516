/** One cache level as the source keeps it: ring queues, a register file and a block array updated
    in place. Every method is proved against the state machine of CacheModel. */
module CacheDevice {
  import opened Counting
  import opened Packets
  import opened PacketQueues
  import opened Replacement
  import opened MshrFile
  import opened CacheModel
  import opened CacheInvariant

  class CacheLevel {
    const cfg: Config
    const RQ: PacketQueue
    const WQ: PacketQueue
    const PQ: PacketQueue
    const entry: array<Packet>      // MSHR.entry
    const block: array2<Block>
    var occupancy: int              // MSHR.occupancy
    var numReturned: int
    var nextFillCycle: nat
    var nextFillIndex: nat
    var stats: Stats

    ghost function Repr(): set<object> {
      {this, RQ, RQ.entry, WQ, WQ.entry, PQ, PQ.entry, entry, block}
    }

    /** The queues, the registers and the blocks share no storage. */
    ghost predicate Separate() {
      && RQ != WQ && RQ != PQ && WQ != PQ
      && RQ.entry != WQ.entry && RQ.entry != PQ.entry && WQ.entry != PQ.entry
      && entry != RQ.entry && entry != WQ.entry && entry != PQ.entry
    }

    ghost predicate Valid()
      reads Repr()
    {
      && Separate()
      && RQ.Valid() && RQ.SIZE == cfg.rqSize && !RQ.byFullAddr
      && WQ.Valid() && WQ.SIZE == cfg.wqSize && WQ.byFullAddr == cfg.isL1D
      && PQ.Valid() && PQ.SIZE == cfg.pqSize && !PQ.byFullAddr
      && entry.Length == cfg.mshrSize
      && 0 < cfg.numSets == block.Length0 && 0 < cfg.numWays == block.Length1
    }

    ghost function SetView(s: nat): (t: seq<Block>)
      requires s < block.Length0
      reads block
      ensures |t| == block.Length1 && forall w :: 0 <= w < |t| ==> t[w] == block[s, w]
    {
      seq(block.Length1, w requires 0 <= w < block.Length1 reads block => block[s, w])
    }

    ghost function BlocksView(): (b: seq<seq<Block>>)
      reads block
      ensures |b| == block.Length0 && forall s :: 0 <= s < |b| ==> b[s] == SetView(s)
    {
      seq(block.Length0, s requires 0 <= s < block.Length0 reads block => SetView(s))
    }

    ghost function MshrView(): Mshr
      reads this, entry
    {
      Mshr(entry[..], occupancy, numReturned, nextFillCycle, nextFillIndex)
    }

    /** The value the state machine works on. */
    ghost function View(): (c: Cache)
      requires Valid()
      reads Repr()
      ensures c.cfg == cfg && c.stats == stats && Shape(c)
      ensures |c.rq| == RQ.occupancy <= RQ.SIZE == cfg.rqSize
      ensures |c.wq| == WQ.occupancy <= WQ.SIZE == cfg.wqSize
      ensures |c.pq| == PQ.occupancy <= PQ.SIZE == cfg.pqSize
      ensures c.mshr == MshrView() && entry.Length == cfg.mshrSize
    {
      Cache(cfg, RQ.Contents(), WQ.Contents(), PQ.Contents(), MshrView(), BlocksView(), stats)
    }

    constructor (cfg: Config)
      requires cfg.numSets > 0 && cfg.numWays > 0 && cfg.rqSize > 0 && cfg.wqSize > 0 && cfg.pqSize > 0
      ensures this.cfg == cfg && Valid() && IsInitial(View()) && fresh(Repr())
    {
      hide IsInitial, Valid, View;
      this.cfg := cfg;
      var rq := new PacketQueue(cfg.rqSize, false);
      hide rq.Valid;
      var wq := new PacketQueue(cfg.wqSize, cfg.isL1D);
      var pq := new PacketQueue(cfg.pqSize, false);
      RQ, WQ, PQ := rq, wq, pq;
      entry := new Packet[cfg.mshrSize](_ => EmptyPacket);
      block := new Block[cfg.numSets, cfg.numWays]((s: nat, w: nat) => Block(false, false, false, false, 0, 0, 0, w));
      occupancy, numReturned, nextFillCycle, nextFillIndex := 0, 0, UINT64_MAX, 0;
      stats := Stats(0, 0, 0, 0, Tally(0, 0, 0, 0), Tally(0, 0, 0, 0), Tally(0, 0, 0, 0));
      new;
      FreshIsInitial();
    }

    lemma FreshIsInitial()
      requires Separate() && 0 < cfg.numSets && 0 < cfg.numWays
      requires RQ.Valid() && RQ.SIZE == cfg.rqSize && !RQ.byFullAddr && RQ.Contents() == []
      requires WQ.Valid() && WQ.SIZE == cfg.wqSize && WQ.byFullAddr == cfg.isL1D && WQ.Contents() == []
      requires PQ.Valid() && PQ.SIZE == cfg.pqSize && !PQ.byFullAddr && PQ.Contents() == []
      requires entry.Length == cfg.mshrSize && block.Length0 == cfg.numSets && block.Length1 == cfg.numWays
      requires forall i :: 0 <= i < entry.Length ==> entry[i] == EmptyPacket
      requires forall s, w | 0 <= s < block.Length0 && 0 <= w < block.Length1 ::
        block[s, w] == Block(false, false, false, false, 0, 0, 0, w)
      requires occupancy == 0 && numReturned == 0 && nextFillCycle == UINT64_MAX && nextFillIndex == 0
      requires stats == Stats(0, 0, 0, 0, Tally(0, 0, 0, 0), Tally(0, 0, 0, 0), Tally(0, 0, 0, 0))
      ensures Valid() && IsInitial(View())
    {
      hide IsInitialSet, EmptyMshr, RQ.Valid;
      FreshViews();
    }

    lemma FreshViews()
      requires entry.Length == cfg.mshrSize && block.Length0 == cfg.numSets && block.Length1 == cfg.numWays
      requires forall i :: 0 <= i < entry.Length ==> entry[i] == EmptyPacket
      requires forall s, w | 0 <= s < block.Length0 && 0 <= w < block.Length1 ::
        block[s, w] == Block(false, false, false, false, 0, 0, 0, w)
      requires occupancy == 0 && numReturned == 0 && nextFillCycle == UINT64_MAX && nextFillIndex == 0
      ensures MshrView() == EmptyMshr(cfg.mshrSize)
      ensures forall s :: 0 <= s < block.Length0 ==> IsInitialSet(SetView(s), cfg.numWays)
    {
      assert entry[..] == EmptyMshr(cfg.mshrSize).entry;
    }

    // ---- Block array ----

    method CheckHit(address: nat) returns (way: int)
      requires Valid() && Shape(View())
      ensures Valid() && View() == old(View())
      ensures way == CacheModel.CheckHit(View(), address)
    {
      hide RQ.Valid, RQ.Contents;
      var s := GetSet(cfg, address);
      ghost var t := SetView(s);
      var w := 0;
      while w < cfg.numWays
        invariant 0 <= w <= cfg.numWays
        invariant FindWay(t, address, 0) == FindWay(t, address, w)
      {
        if block[s, w].valid && block[s, w].tag == address {
          return w;
        }
        w := w + 1;
      }
      return -1;
    }

    /** find_victim: an invalid way, otherwise the LRU way. */
    method FindVictim(s: nat) returns (way: nat)
      requires Valid() && s < cfg.numSets
      ensures Valid() && View() == old(View())
      ensures way == LruVictim(View().blocks[s])
    {
      hide RQ.Valid, RQ.Contents;
      ghost var t := SetView(s);
      way := 0;
      while way < cfg.numWays && block[s, way].valid
        invariant 0 <= way <= cfg.numWays
        invariant FirstInvalid(t, 0) == FirstInvalid(t, way)
      {
        way := way + 1;
      }
      if way == cfg.numWays {
        way := 0;
        while way < cfg.numWays && block[s, way].lru != cfg.numWays - 1
          invariant 0 <= way <= cfg.numWays
          invariant FirstOldest(t, 0) == FirstOldest(t, way)
        {
          way := way + 1;
        }
      }
    }

    /** lru_update: ages the younger ways one by one, then promotes the given way. */
    method UpdateLru(s: nat, way: nat)
      requires Valid() && s < cfg.numSets && way < cfg.numWays
      modifies block
      ensures Valid() && View() == PutSet(old(View()), s, LruUpdate(old(View()).blocks[s], way))
    {
      hide RQ.Valid, RQ.Contents;
      ghost var before := BlocksView();
      ghost var u := LruUpdate(before[s], way);
      var i := 0;
      while i < cfg.numWays
        invariant 0 <= i <= cfg.numWays
        invariant forall t, w | 0 <= t < cfg.numSets && 0 <= w < cfg.numWays ::
          block[t, w] == if t == s && w < i && w != way then u[w] else before[t][w]
      {
        if block[s, i].lru < block[s, way].lru {
          block[s, i] := block[s, i].(lru := block[s, i].lru + 1);
        }
        i := i + 1;
      }
      block[s, way] := block[s, way].(lru := 0);
      SameBlocks(before[s := u]);
    }

    /** Reading back the block array. */
    lemma SameBlocks(b: seq<seq<Block>>)
      requires |b| == block.Length0 && forall s :: 0 <= s < |b| ==> |b[s]| == block.Length1
      requires forall s, w | 0 <= s < |b| && 0 <= w < |b[s]| :: block[s, w] == b[s][w]
      ensures BlocksView() == b
    {
      forall s | 0 <= s < |b| ensures BlocksView()[s] == b[s] {
      }
    }

    /** update_replacement_state */
    method UpdateReplacement(s: nat, way: nat, kind: Kind, hit: bool)
      requires Valid() && s < cfg.numSets && way < cfg.numWays
      modifies block
      ensures Valid() && View() == PutSet(old(View()), s, Touch(old(View()).blocks[s], way, kind, hit))
    {
      hide RQ.Valid, RQ.Contents;
      if kind == WRITEBACK && hit {
        assert BlocksView()[s := SetView(s)] == BlocksView();
        return;
      }
      UpdateLru(s, way);
    }

    method SetBlock(s: nat, way: nat, b: Block)
      requires Valid() && s < cfg.numSets && way < cfg.numWays
      modifies block
      ensures Valid() && View() == PutSet(old(View()), s, old(View()).blocks[s][way := b])
    {
      ghost var before := BlocksView();
      block[s, way] := b;
      SameBlocks(before[s := before[s][way := b]]);
    }

    /** The replacement update and fill_cache of a miss. */
    method InstallLine(s: nat, way: nat, p: Packet, dirty: bool)
      requires Valid() && s < cfg.numSets && way < cfg.numWays && Shape(View())
      modifies block
      ensures Valid() && View() == Install(old(View()), s, way, p, dirty)
    {
      hide RQ.Valid, RQ.Contents;
      UpdateReplacement(s, way, p.kind, false);
      SetBlock(s, way, FillBlock(block[s, way], p, dirty));
      assert old(View()).blocks[s := Touch(old(View()).blocks[s], way, p.kind, false)][s := View().blocks[s]]
             == old(View()).blocks[s := View().blocks[s]];
    }

    // ---- Registers ----

    /** First register holding the address (0 finds a free one), or -1. */
    method FindRegister(address: nat) returns (index: int)
      requires Valid()
      ensures Valid() && View() == old(View())
      ensures index == FirstMatch(View().mshr.entry, address, false)
    {
      hide RQ.Valid, RQ.Contents;
      var i := 0;
      while i < entry.Length
        invariant 0 <= i <= entry.Length
        invariant forall j :: 0 <= j < i ==> KeyOf(entry[j], false) != address
      {
        if entry[i].address == address {
          FirstMatchUnique(entry[..], address, false, i);
          return i;
        }
        i := i + 1;
      }
      FirstMatchUnique(entry[..], address, false, -1);
      return -1;
    }

    method AddRegister(p: Packet)
      requires Valid()
      modifies this`occupancy, entry
      ensures Valid() && View() == old(View()).(mshr := AddMshr(old(View()).mshr, p))
    {
      hide RQ.Valid, RQ.Contents;
      var i := FindRegister(0);
      if i != -1 {
        entry[i] := p.(returned := Inflight);
        occupancy := occupancy + 1;
      }
    }

    method MergeRegister(i: nat, p: Packet, takeOver: bool)
      requires Valid() && i < entry.Length
      modifies entry
      ensures Valid() && View() == old(View()).(mshr := Merge(old(View()).mshr, i, p, takeOver))
    {
      hide RQ.Valid, RQ.Contents;
      ghost var m := MshrView();
      if p.fillLevel < entry[i].fillLevel {
        entry[i] := entry[i].(fillLevel := p.fillLevel);
      }
      if takeOver && entry[i].kind == PREFETCH {
        var priorReturned, priorEventCycle := entry[i].returned, entry[i].eventCycle;
        entry[i] := p;
        entry[i] := entry[i].(returned := priorReturned, eventCycle := priorEventCycle);
      }
      assert entry[..] == Merge(m, i, p, takeOver).entry;
    }

    /** Rescans the registers for the earliest completed one. */
    method UpdateFillCycle()
      requires Valid()
      modifies this`nextFillCycle, this`nextFillIndex
      ensures Valid() && View() == old(View()).(mshr := MshrFile.UpdateFillCycle(old(View()).mshr))
    {
      hide RQ.Valid, RQ.Contents;
      var minCycle, minIndex := UINT64_MAX, entry.Length;
      var i := 0;
      while i < entry.Length
        invariant 0 <= i <= entry.Length
        invariant (minCycle, minIndex) == NextFill(entry[..], i)
      {
        if entry[i].returned == Completed && entry[i].eventCycle < minCycle {
          minCycle, minIndex := entry[i].eventCycle, i;
        }
        i := i + 1;
      }
      nextFillCycle, nextFillIndex := minCycle, minIndex;
    }

    /** return_data. Its caller must send data for a line that has a register. */
    method ReturnData(p: Packet, now: nat)
      requires Valid() && CacheModel.ReturnData(View(), p, now).Effect?
      modifies this, entry
      ensures Valid() && View() == CacheModel.ReturnData(old(View()), p, now).c
    {
      hide RQ.Valid, RQ.Contents;
      var i := FindRegister(p.address);
      assert i != -1;
      ghost var m := MshrView();
      numReturned := numReturned + 1;
      entry[i] := entry[i].(returned := Completed);
      entry[i] := entry[i].(eventCycle := Delayed(entry[i].eventCycle, now, cfg.latency));
      assert entry[..] == m.entry[i := entry[i]];
      UpdateFillCycle();
    }

    /** remove_queue on a completed register. */
    method ReleaseRegister(i: nat)
      requires Valid() && i < entry.Length
      modifies this, entry
      ensures Valid() && View() == old(View()).(mshr := Release(old(View()).mshr, i))
    {
      hide RQ.Valid, RQ.Contents;
      entry[i] := EmptyPacket;
      occupancy := occupancy - 1;
      numReturned := numReturned - 1;
      UpdateFillCycle();
    }

    method SetStats(st: Stats)
      requires Valid()
      modifies this`stats
      ensures Valid() && View() == old(View()).(stats := st)
    {
      hide RQ.Valid, RQ.Contents;
      stats := st;
    }

    // ---- Queues ----

    method PopRq()
      requires Valid() && RQ.occupancy > 0
      modifies RQ, RQ.entry
      ensures Valid() && View() == old(View()).(rq := old(View()).rq[1..])
    {
      RQ.RemoveQueue();
    }

    method PopWq()
      requires Valid() && WQ.occupancy > 0
      modifies WQ, WQ.entry
      ensures Valid() && View() == old(View()).(wq := old(View()).wq[1..])
    {
      WQ.RemoveQueue();
    }

    method PopPq()
      requires Valid() && PQ.occupancy > 0
      modifies PQ, PQ.entry
      ensures Valid() && View() == old(View()).(pq := old(View()).pq[1..])
    {
      PQ.RemoveQueue();
    }

    /** add_latency and enqueue, as add_rq does after its checks. */
    method PushRq(p: Packet, now: nat)
      requires Valid() && RQ.occupancy < RQ.SIZE
      modifies RQ, RQ.entry
      ensures Valid() && View() == old(View()).(rq := old(View()).rq + [Aged(old(View()), p, now)])
    {
      RQ.AddQueue(p.(eventCycle := Delayed(p.eventCycle, now, cfg.latency)));
    }

    method PushWq(p: Packet, now: nat)
      requires Valid() && WQ.occupancy < WQ.SIZE
      modifies WQ, WQ.entry
      ensures Valid() && View() == old(View()).(wq := old(View()).wq + [Aged(old(View()), p, now)])
    {
      WQ.AddQueue(p.(eventCycle := Delayed(p.eventCycle, now, cfg.latency)));
    }

    method PushPq(p: Packet, now: nat)
      requires Valid() && PQ.occupancy < PQ.SIZE
      modifies PQ, PQ.entry
      ensures Valid() && View() == old(View()).(pq := old(View()).pq + [Aged(old(View()), p, now)])
    {
      PQ.AddQueue(p.(eventCycle := Delayed(p.eventCycle, now, cfg.latency)));
    }

    // ---- Requests ----

    method WqHolds(p: Packet) returns (found: bool)
      requires Valid()
      ensures Valid() && View() == old(View())
      ensures found == (WqIndex(View(), p) != -1)
    {
      var index := WQ.CheckQueue(p);
      found := index != -1;
    }

    /** Slot of a queued read of the same line, or -1. */
    method RqSlot(p: Packet) returns (index: int)
      requires Valid()
      ensures Valid() && View() == old(View())
      ensures index == -1 <==> FirstMatch(View().rq, p.address, false) == -1
      ensures index != -1 ==> 0 <= index < RQ.SIZE && RQ.entry[index].address == p.address
    {
      index := RQ.CheckQueue(p);
    }

    /** The write queue serves a request for a line it holds. */
    method ForwardFromWq(p: Packet) returns (served: bool, up: Option<Packet>)
      requires Valid()
      modifies this`stats
      ensures Valid() && served == (WqIndex(old(View()), p) != -1)
      ensures up == if served then Upward(old(View()), p) else None
      ensures View() == if served
        then old(View()).(stats := old(stats).CountHit(p.kind).(wqForward := old(stats).wqForward + 1))
        else old(View())
    {
      hide View, Valid;
      served := WqHolds(p);
      up := None;
      if served {
        if p.fillLevel < cfg.fillLevel {
          up := Some(p);
        }
        SetStats(stats.CountHit(p.kind).(wqForward := stats.wqForward + 1));
      }
    }

    /** The part of add_rq for a line the write queue does not hold. */
    method QueueRq(p: Packet, now: nat) returns (code: int)
      requires Valid() && p.address != 0 && WqIndex(View(), p) == -1
      modifies this`stats, RQ, RQ.entry
      ensures Valid()
      ensures View() == CacheModel.AddRq(old(View()), p, now).c
      ensures code == -2 <==> RqAdmission(old(View()), p) == Refused
      ensures code == -1 <==> RqAdmission(old(View()), p) == Queued
      ensures code >= 0 ==> code < RQ.SIZE && RQ.entry[code].address == p.address
    {
      hide View, Valid;
      code := RqSlot(p);
      if code != -1 {
        return;
      }
      if RQ.occupancy == RQ.SIZE {
        return -2;
      }
      PushRq(p, now);
      SetStats(stats.(rqToCache := stats.rqToCache + 1));
    }

    /** add_rq: -1 when served or queued, the slot merged with, -2 when refused. */
    method AddRq(p: Packet, now: nat) returns (code: int, up: Option<Packet>)
      requires Valid() && p.address != 0
      modifies this`stats, RQ, RQ.entry
      ensures Valid()
      ensures var e := CacheModel.AddRq(old(View()), p, now); e.Effect? && View() == e.c && up == e.up
      ensures code == -2 <==> RqAdmission(old(View()), p) == Refused
      ensures code == -1 <==> RqAdmission(old(View()), p) in {Forwarded, Queued}
      ensures code >= 0 ==> code < RQ.SIZE && RQ.entry[code].address == p.address
    {
      hide View, Valid;
      var served;
      served, up := ForwardFromWq(p);
      if served {
        code := -1;
      } else {
        code := QueueRq(p, now);
      }
    }

    /** Merging a prefetch with a queued one may lower its fill level. */
    method MergePq(p: Packet) returns (index: int)
      requires Valid()
      modifies PQ.entry
      ensures Valid()
      ensures var i := FirstMatch(old(View()).pq, p.address, false);
        if i == -1 then index == -1 && View() == old(View())
        else
          && 0 <= index < PQ.SIZE && PQ.entry[index].address == p.address
          && View() == if p.fillLevel < old(View()).pq[i].fillLevel
             then old(View()).(pq := old(View()).pq[i := old(View()).pq[i].(fillLevel := p.fillLevel)])
             else old(View())
    {
      hide View, Valid;
      ghost var k;
      index, k := PqSlot(p);
      if index != -1 {
        LowerPq(index, p.fillLevel, k);
      }
    }

    /** Slot and age of a queued prefetch of the same line, or -1. */
    method PqSlot(p: Packet) returns (index: int, ghost k: int)
      requires Valid()
      ensures Valid() && View() == old(View())
      ensures k == FirstMatch(View().pq, p.address, false)
      ensures index == if k == -1 then -1 else Slot(PQ.head, k, PQ.SIZE)
      ensures index != -1 ==> 0 <= index < PQ.SIZE && PQ.entry[index].address == p.address
    {
      index := PQ.CheckQueue(p);
      k := FirstMatch(View().pq, p.address, false);
    }

    method LowerPq(index: nat, level: int, ghost k: nat)
      requires Valid() && k < |View().pq| && index == Slot(PQ.head, k, PQ.SIZE)
      modifies PQ.entry
      ensures Valid() && index < PQ.SIZE && PQ.entry[index].address == old(PQ.entry[index].address)
      ensures var q := old(View()).pq;
        View() == if level < q[k].fillLevel then old(View()).(pq := q[k := q[k].(fillLevel := level)]) else old(View())
    {
      assert View().pq[k] == PQ.entry[index];
      if level < PQ.entry[index].fillLevel {
        PQ.SetFillLevel(index, level, k);
        assert View().pq[k] == PQ.entry[index];
      }
    }

    /** The part of add_pq for a line the write queue does not hold. */
    method QueuePq(p: Packet, now: nat) returns (code: int)
      requires Valid() && p.address != 0 && WqIndex(View(), p) == -1
      modifies this`stats, PQ, PQ.entry
      ensures Valid()
      ensures View() == CacheModel.AddPq(old(View()), p, now).c
      ensures code == -2 <==> PqAdmission(old(View()), p) == Refused
      ensures code == -1 <==> PqAdmission(old(View()), p) == Queued
      ensures code >= 0 ==> code < PQ.SIZE && PQ.entry[code].address == p.address
    {
      hide View, Valid;
      code := MergePq(p);
      if code != -1 {
        return;
      }
      if PQ.occupancy == PQ.SIZE {
        return -2;
      }
      PushPq(p, now);
      SetStats(stats.(pqToCache := stats.pqToCache + 1));
    }

    /** add_pq: -1 when served or queued, the slot merged with, -2 when refused. */
    method AddPq(p: Packet, now: nat) returns (code: int, up: Option<Packet>)
      requires Valid() && p.address != 0
      modifies this`stats, PQ, PQ.entry
      ensures Valid()
      ensures var e := CacheModel.AddPq(old(View()), p, now); e.Effect? && View() == e.c && up == e.up
      ensures code == -2 <==> PqAdmission(old(View()), p) == Refused
      ensures code == -1 <==> PqAdmission(old(View()), p) in {Forwarded, Queued}
      ensures code >= 0 ==> code < PQ.SIZE && PQ.entry[code].address == p.address
    {
      hide View, Valid;
      var served;
      served, up := ForwardFromWq(p);
      if served {
        code := -1;
      } else {
        code := QueuePq(p, now);
      }
    }

    /** add_wq: its callers check for room first. */
    method AddWq(p: Packet, now: nat) returns (code: int)
      requires Valid() && p.address != 0
      requires WqIndex(View(), p) != -1 || |View().wq| < cfg.wqSize
      modifies this`stats, WQ, WQ.entry
      ensures Valid()
      ensures var e := CacheModel.AddWq(old(View()), p, now); e.Effect? && View() == e.c
      ensures code == -1 <==> WqIndex(old(View()), p) == -1
    {
      code := WQ.CheckQueue(p);
      if code != -1 {
        return;
      }
      PushWq(p, now);
      SetStats(stats.(wqToCache := stats.wqToCache + 1));
      code := -1;
    }

    // ---- Handlers ----

    /** One round of handle_fill: the victim for the lower level, the data for the upper level. */
    method HandleFill(now: nat, lowerWqFull: bool) returns (up: Option<Packet>, victim: Option<Packet>)
      requires Valid() && FillStep(View(), now, lowerWqFull).Effect?
      modifies this, entry, block
      ensures Valid()
      ensures var e := FillStep(old(View()), now, lowerWqFull);
              View() == e.c && up == e.up && victim == e.victim
    {
      hide View, Valid;
      up, victim := None, None;
      if nextFillIndex >= entry.Length || entry[nextFillIndex].address == 0 || now < nextFillCycle {
        return;
      }
      up, victim := FillFrom(nextFillIndex, now, lowerWqFull);
    }

    /** Installs the line of a completed register and releases it, if the victim can leave. */
    method FillFrom(i: nat, now: nat, lowerWqFull: bool) returns (up: Option<Packet>, victim: Option<Packet>)
      requires Valid() && i < entry.Length
      requires LruVictim(View().blocks[GetSet(cfg, entry[i].address)]) != cfg.numWays
      modifies this, entry, block
      ensures Valid()
      ensures var c := old(View()); var p := c.mshr.entry[i];
        var s := GetSet(cfg, p.address); var way := LruVictim(c.blocks[s]);
        var b := c.blocks[s][way];
        if b.dirty && lowerWqFull then View() == c && up == None && victim == None
        else
          && View() == Install(c, s, way, p, cfg.isL1D && p.kind == RFO).(mshr := Release(c.mshr, i))
          && up == Upward(c, p) && victim == if b.dirty then Some(WritebackPacket(c, b, now)) else None
    {
      hide View, Valid;
      var p := entry[i];
      var s := GetSet(cfg, p.address);
      var way := FindVictim(s);
      var room;
      up := None;
      room, victim := EvictDirty(s, way, now, lowerWqFull);
      if room {
        InstallLine(s, way, p, cfg.isL1D && p.kind == RFO);
        up := Answer(p);
        ReleaseRegister(i);
      }
    }

    /** A demand miss: a new register, a merge, or a stall (handled is false). */
    method Miss(p: Packet) returns (handled: bool, down: Option<Packet>)
      requires Valid() && DemandMiss(View(), p, View()).Effect?
      modifies this`occupancy, entry
      ensures Valid()
      ensures var i := CheckMshr(old(View()).mshr, p.address);
        if i == -1 && old(occupancy) < cfg.mshrSize then
          handled && down == Some(p) && View() == old(View()).(mshr := AddMshr(old(View()).mshr, p))
        else if i == -1 then
          !handled && down == None && View() == old(View()) && old(occupancy) == cfg.mshrSize
        else
          handled && down == None && View() == old(View()).(mshr := Merge(old(View()).mshr, i, p, true))
    {
      hide View, Valid;
      handled, down := true, None;
      var i := FindRegister(p.address);
      if i == -1 && occupancy < cfg.mshrSize {
        AddRegister(p);
        down := Some(p);
      } else if i == -1 {
        assert occupancy == cfg.mshrSize;
        handled := false;
      } else {
        MergeRegister(i, p, true);
      }
    }

    /** A hit promotes the way; a read also clears its prefetch bit, a store sets its dirty bit. */
    method MarkHit(s: nat, way: nat, kind: Kind, store: bool)
      requires Valid() && s < cfg.numSets && way < cfg.numWays
      modifies block
      ensures Valid()
      ensures var t := Touch(old(View()).blocks[s], way, kind, true);
        View() == PutSet(old(View()), s, t[way := if store then t[way].(dirty := true)
                                                  else t[way].(prefetch := false, used := true)])
    {
      ghost var blocks := View().blocks;
      UpdateReplacement(s, way, kind, true);
      ghost var t := View().blocks[s];
      SetBlock(s, way, if store then block[s, way].(dirty := true)
                       else block[s, way].(prefetch := false, used := true));
      assert blocks[s := t][s := View().blocks[s]] == blocks[s := View().blocks[s]];
    }

    /** The oldest read leaves its queue, counted as a hit or a miss. */
    method RetireRq(hit: bool)
      requires Valid() && RQ.occupancy > 0
      modifies this`stats, RQ, RQ.entry
      ensures Valid()
      ensures var c := old(View()); var k := c.rq[0].kind;
        View() == c.(rq := c.rq[1..], stats := if hit then c.stats.CountHit(k) else c.stats.CountMiss(k))
    {
      var k := RQ.entry[RQ.head].kind;
      assert k == View().rq[0].kind;
      PopRq();
      SetStats(if hit then stats.CountHit(k) else stats.CountMiss(k));
    }

    method RetireWq(hit: bool)
      requires Valid() && WQ.occupancy > 0
      modifies this`stats, WQ, WQ.entry
      ensures Valid()
      ensures var c := old(View()); var k := c.wq[0].kind;
        View() == c.(wq := c.wq[1..], stats := if hit then c.stats.CountHit(k) else c.stats.CountMiss(k))
    {
      var k := WQ.entry[WQ.head].kind;
      assert k == View().wq[0].kind;
      PopWq();
      SetStats(if hit then stats.CountHit(k) else stats.CountMiss(k));
    }

    method RetirePq(hit: bool)
      requires Valid() && PQ.occupancy > 0
      modifies this`stats, PQ, PQ.entry
      ensures Valid()
      ensures var c := old(View()); var k := c.pq[0].kind;
        View() == c.(pq := c.pq[1..], stats := if hit then c.stats.CountHit(k) else c.stats.CountMiss(k))
    {
      var k := PQ.entry[PQ.head].kind;
      assert k == View().pq[0].kind;
      PopPq();
      SetStats(if hit then stats.CountHit(k) else stats.CountMiss(k));
    }

    method Answer(p: Packet) returns (up: Option<Packet>)
      requires Valid()
      ensures Valid() && View() == old(View())
      ensures up == Upward(View(), p)
    {
      up := if p.fillLevel < cfg.fillLevel then Some(p) else None;
    }

    /** The oldest read, if it is due. */
    method DueRead(now: nat) returns (due: Option<Packet>)
      requires Valid()
      ensures Valid() && View() == old(View())
      ensures var q := View().rq; due == if |q| == 0 || now < q[0].eventCycle then None else Some(q[0])
    {
      if RQ.occupancy == 0 || now < RQ.entry[RQ.head].eventCycle {
        return None;
      }
      return Some(RQ.entry[RQ.head]);
    }

    method DueWriteback(now: nat) returns (due: Option<Packet>)
      requires Valid()
      ensures Valid() && View() == old(View())
      ensures var q := View().wq; due == if |q| == 0 || now < q[0].eventCycle then None else Some(q[0])
    {
      if WQ.occupancy == 0 || now < WQ.entry[WQ.head].eventCycle {
        return None;
      }
      return Some(WQ.entry[WQ.head]);
    }

    method DuePrefetch(now: nat) returns (due: Option<Packet>)
      requires Valid()
      ensures Valid() && View() == old(View())
      ensures var q := View().pq; due == if |q| == 0 || now < q[0].eventCycle then None else Some(q[0])
    {
      if PQ.occupancy == 0 || now < PQ.entry[PQ.head].eventCycle {
        return None;
      }
      return Some(PQ.entry[PQ.head]);
    }

    /** One round of handle_read. */
    method HandleRead(now: nat) returns (up: Option<Packet>, down: Option<Packet>)
      requires Valid() && ReadStep(View(), now).Effect?
      modifies this, RQ, RQ.entry, entry, block
      ensures Valid()
      ensures var e := ReadStep(old(View()), now); View() == e.c && up == e.up && down == e.down
    {
      hide View, Valid;
      up, down := None, None;
      var due := DueRead(now);
      if due == None {
        return;
      }
      var p := due.value;
      var way := CheckHit(p.address);
      if way >= 0 {
        MarkHit(GetSet(cfg, p.address), way, p.kind, false);
        up := Answer(p);
        RetireRq(true);
      } else {
        var handled;
        handled, down := Miss(p);
        if handled {
          RetireRq(false);
        }
      }
    }

    /** A prefetch miss: as a demand miss, but it stalls on a full lower prefetch queue, never takes
        over a register, and takes none if it only fills lower levels. */
    method MissPrefetch(p: Packet, lowerPqFull: bool) returns (handled: bool, down: Option<Packet>)
      requires Valid() && PrefetchMiss(View(), p, View(), lowerPqFull).Effect?
      modifies this`occupancy, entry
      ensures Valid()
      ensures var c := old(View()); var i := CheckMshr(c.mshr, p.address);
        if i == -1 && old(occupancy) < cfg.mshrSize then
          && handled == !lowerPqFull && down == (if handled then Some(p) else None)
          && View() == if handled && p.fillLevel <= cfg.fillLevel then c.(mshr := AddMshr(c.mshr, p)) else c
        else if i == -1 then
          !handled && down == None && View() == c && old(occupancy) == cfg.mshrSize
        else
          handled && down == None && View() == c.(mshr := Merge(c.mshr, i, p, false))
    {
      hide View, Valid;
      handled, down := true, None;
      var i := FindRegister(p.address);
      if i == -1 && occupancy < cfg.mshrSize {
        if lowerPqFull {
          handled := false;
        } else {
          if p.fillLevel <= cfg.fillLevel {
            AddRegister(p);
          }
          down := Some(p);
        }
      } else if i == -1 {
        assert occupancy == cfg.mshrSize;
        handled := false;
      } else {
        MergeRegister(i, p, false);
      }
    }

    method HandlePrefetchMiss(p: Packet, lowerPqFull: bool) returns (down: Option<Packet>)
      requires Valid() && |View().pq| > 0 && p == View().pq[0]
      requires var c := View();
        PrefetchMiss(c, p, c.(pq := c.pq[1..], stats := c.stats.CountMiss(p.kind)), lowerPqFull).Effect?
      modifies this`stats, this`occupancy, PQ, PQ.entry, entry
      ensures Valid()
      ensures var c := old(View());
        var e := PrefetchMiss(c, p, c.(pq := c.pq[1..], stats := c.stats.CountMiss(p.kind)), lowerPqFull);
        View() == e.c && down == e.down
    {
      hide View, Valid;
      var handled;
      handled, down := MissPrefetch(p, lowerPqFull);
      if handled {
        RetirePq(false);
      }
    }

    /** One round of handle_prefetch. */
    method HandlePrefetch(now: nat, lowerPqFull: bool) returns (up: Option<Packet>, down: Option<Packet>)
      requires Valid() && PrefetchStep(View(), now, lowerPqFull).Effect?
      modifies this, PQ, PQ.entry, entry, block
      ensures Valid()
      ensures var e := PrefetchStep(old(View()), now, lowerPqFull);
              View() == e.c && up == e.up && down == e.down
    {
      hide View, Valid;
      up, down := None, None;
      var due := DuePrefetch(now);
      if due == None {
        return;
      }
      var p := due.value;
      var way := CheckHit(p.address);
      if way >= 0 {
        UpdateReplacement(GetSet(cfg, p.address), way, p.kind, true);
        up := Answer(p);
        RetirePq(true);
      } else {
        down := HandlePrefetchMiss(p, lowerPqFull);
      }
    }

    /** The writeback packet of a block about to be replaced, unless it cannot be sent. */
    method EvictDirty(s: nat, way: nat, now: nat, lowerWqFull: bool) returns (room: bool, victim: Option<Packet>)
      requires Valid() && s < cfg.numSets && way < cfg.numWays
      ensures Valid() && View() == old(View())
      ensures var b := View().blocks[s][way];
        && room == !(b.dirty && lowerWqFull)
        && (room ==> victim == if b.dirty then Some(WritebackPacket(View(), b, now)) else None)
        && (!room ==> victim == None)
    {
      room, victim := true, None;
      if block[s, way].dirty {
        if lowerWqFull {
          room := false;
        } else {
          var b := block[s, way];
          victim := Some(Packet(b.address, b.fullAddr, cfg.fillLevel * 2, WRITEBACK, Fresh, now));
        }
      }
    }

    /** One round of handle_writeback: stores in the L1D, dirty lines from above elsewhere. */
    method HandleWriteback(now: nat, lowerWqFull: bool)
      returns (up: Option<Packet>, down: Option<Packet>, victim: Option<Packet>)
      requires Valid() && WritebackStep(View(), now, lowerWqFull).Effect?
      modifies this, WQ, WQ.entry, entry, block
      ensures Valid()
      ensures var e := WritebackStep(old(View()), now, lowerWqFull);
              View() == e.c && up == e.up && down == e.down && victim == e.victim
    {
      hide View, Valid;
      up, down, victim := None, None, None;
      var due := DueWriteback(now);
      if due == None {
        return;
      }
      var p := due.value;
      var s := GetSet(cfg, p.address);
      var way := CheckHit(p.address);
      if way >= 0 {
        MarkHit(s, way, p.kind, true);
        up := Answer(p);
        RetireWq(true);
      } else if cfg.isL1D {
        down := StoreMiss(p);
      } else {
        up, victim := WritebackFill(p, now, lowerWqFull);
      }
    }

    /** A store miss in the L1D is a demand miss. */
    method StoreMiss(p: Packet) returns (down: Option<Packet>)
      requires Valid() && |View().wq| > 0 && p == View().wq[0]
      requires var c := View(); DemandMiss(c, p, c.(wq := c.wq[1..], stats := c.stats.CountMiss(p.kind))).Effect?
      modifies this`stats, this`occupancy, WQ, WQ.entry, entry
      ensures Valid()
      ensures var c := old(View()); var e := DemandMiss(c, p, c.(wq := c.wq[1..], stats := c.stats.CountMiss(p.kind)));
        View() == e.c && down == e.down
    {
      hide View, Valid;
      var handled;
      handled, down := Miss(p);
      if handled {
        RetireWq(false);
      }
    }

    /** A writeback miss below the L1D installs the line at once, if its victim can leave. */
    method WritebackFill(p: Packet, now: nat, lowerWqFull: bool) returns (up: Option<Packet>, victim: Option<Packet>)
      requires Valid() && |View().wq| > 0 && p == View().wq[0]
      requires LruVictim(View().blocks[GetSet(cfg, p.address)]) != cfg.numWays
      modifies this`stats, WQ, WQ.entry, block
      ensures Valid()
      ensures var c := old(View()); var s := GetSet(cfg, p.address); var way := LruVictim(c.blocks[s]);
        var b := c.blocks[s][way];
        if b.dirty && lowerWqFull then View() == c && up == None && victim == None
        else
          && View() == Install(c.(wq := c.wq[1..]), s, way, p, true).(stats := c.stats.CountMiss(p.kind))
          && up == Upward(c, p) && victim == if b.dirty then Some(WritebackPacket(c, b, now)) else None
    {
      hide View, Valid;
      var s := GetSet(cfg, p.address);
      var way := FindVictim(s);
      var room;
      up := None;
      room, victim := EvictDirty(s, way, now, lowerWqFull);
      if room {
        InstallLine(s, way, p, true);
        up := Answer(p);
        RetireWq(false);
      }
    }
  }
}
