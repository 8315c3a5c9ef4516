/** A reachable run in which a store is lost: merged into a load in flight, it leaves its line clean
    (src/cache.cc). Two caches with room for one line each suffice. */
module LostStore {
  import opened Counting
  import opened Packets
  import opened Replacement
  import opened MshrFile
  import opened CacheModel
  import opened Hierarchy
  import opened DirtyOwnership
  import LruOrder

  function TinyConfig(isL1D: bool): Config {
    Config(isL1D, if isL1D then FILL_L1 else FILL_L2, 1, 1, 1, 1, 1, 1, 0)
  }

  /** The load and the store that the core issues to line 1. */
  function Access(kind: Kind): Packet { Packet(1, 1, FILL_L1, kind, Fresh, 0) }

  function EmptyBlock(): Block { Block(false, false, false, false, 0, 0, 0, 0) }

  /** Line 1, clean. */
  function CleanLine(): Block { Block(true, false, false, false, 1, 1, 1, 0) }

  function Idle(): Mshr { Mshr([EmptyPacket], 0, 0, UINT64_MAX, 0) }

  function InFlight(): Mshr { Mshr([Access(LOAD).(returned := Inflight)], 1, 0, UINT64_MAX, 0) }

  function Answered(): Mshr { Mshr([Access(LOAD).(returned := Completed)], 1, 1, 0, 0) }

  /** The register file after the line was filled. */
  function Filled(): Mshr { Mshr([EmptyPacket], 0, 0, UINT64_MAX, 1) }

  /** One of the two caches, apart from its counters. */
  ghost predicate Looks(c: Cache, isL1D: bool, rq: seq<Packet>, wq: seq<Packet>, m: Mshr, b: Block) {
    && c.cfg == TinyConfig(isL1D) && c.rq == rq && c.wq == wq && c.pq == [] && c.mshr == m && c.blocks == [[b]]
  }

  lemma OneSet(a: nat)
    ensures GetSet(TinyConfig(true), a) == GetSet(TinyConfig(false), a) == 0
  {
  }

  lemma OneShape(c: Cache, isL1D: bool, rq: seq<Packet>, wq: seq<Packet>, m: Mshr, b: Block)
    requires Looks(c, isL1D, rq, wq, m, b) && |m.entry| == 1
    ensures Shape(c)
  {
  }

  lemma OneWay(b: Block)
    requires b.lru == 0
    ensures LruVictim([b]) == 0
    ensures LruUpdate([b], 0) == [b]
  {
    assert LruOrder.Promote([0], 0) == [0];
    assert Lrus([b]) == [0];
    assert FirstInvalid([b], 0) == if b.valid then 1 else 0;
    assert FirstOldest([b], 0) == 0;
  }

  /** A load or store that finds nothing in the cache and takes the only register. */
  lemma ReadMisses(c: Cache, isL1D: bool)
    requires Looks(c, isL1D, [Access(LOAD)], [], Idle(), EmptyBlock())
    ensures Shape(c)
    ensures var e := ReadStep(c, 0);
      e.Effect? && e.up == None && e.down == Some(Access(LOAD)) && e.victim == None
      && Looks(e.c, isL1D, [], [], InFlight(), EmptyBlock())
  {
    OneSet(1);
    OneShape(c, isL1D, [Access(LOAD)], [], Idle(), EmptyBlock());
    assert CheckMshr(Idle(), 1) == -1;
    assert FirstMatch(Idle().entry, 0, false) == 0;
  }

  /** A read that an empty cache takes. */
  lemma ReadQueued(c: Cache, isL1D: bool)
    requires Looks(c, isL1D, [], [], Idle(), EmptyBlock())
    ensures var e := AddRq(c, Access(LOAD), 0);
      e.Effect? && e.up == None && Looks(e.c, isL1D, [Access(LOAD)], [], Idle(), EmptyBlock())
  {
  }

  lemma DataReturns(c: Cache, isL1D: bool, p: Packet)
    requires Looks(c, isL1D, [], [], InFlight(), EmptyBlock()) && p.address == 1
    ensures var e := ReturnData(c, p, 0); e.Effect? && Looks(e.c, isL1D, [], [], Answered(), EmptyBlock())
  {
    assert CheckMshr(InFlight(), 1) == 0;
    var entry := [Access(LOAD).(returned := Completed)];
    assert NextFill(entry, 0) == (UINT64_MAX, 1);
    assert NextFill(entry, 1) == (0, 0);
    assert InFlight().entry[0 := entry[0]] == entry;
  }

  /** The fill of a register that waits for a load: the line is clean. */
  lemma FillsClean(c: Cache, isL1D: bool)
    requires Looks(c, isL1D, [], [], Answered(), EmptyBlock())
    ensures Shape(c)
    ensures var e := FillStep(c, 0, false);
      e.Effect? && e.victim == None && e.up == (if isL1D then None else Some(Access(LOAD).(returned := Completed)))
      && Looks(e.c, isL1D, [], [], Filled(), CleanLine())
  {
    OneSet(1);
    OneShape(c, isL1D, [], [], Answered(), EmptyBlock());
    OneWay(EmptyBlock());
    assert NextFill([EmptyPacket], 0) == (UINT64_MAX, 1);
    assert NextFill([EmptyPacket], 1) == (UINT64_MAX, 1);
    assert Answered().entry[0 := EmptyPacket] == [EmptyPacket];
    assert Release(Answered(), 0) == Filled();
    assert Install(c, 0, 0, Answered().entry[0], false).blocks == [[CleanLine()]] by {
      assert [EmptyBlock()][0 := CleanLine()] == [CleanLine()];
    }
  }

  /** The store leaves the write queue for the load's register, which stays a load's. */
  lemma StoreMerges(c: Cache)
    requires Looks(c, true, [], [Access(RFO)], InFlight(), EmptyBlock())
    ensures Shape(c)
    ensures var e := WritebackStep(c, 0, false);
      e.Effect? && e.up == e.down == e.victim == None && Looks(e.c, true, [], [], InFlight(), EmptyBlock())
  {
    OneSet(1);
    OneShape(c, true, [], [Access(RFO)], InFlight(), EmptyBlock());
    assert CheckMshr(InFlight(), 1) == 0;
    assert InFlight().entry[0 := InFlight().entry[0]] == InFlight().entry;
  }

  /** The whole system, apart from counters. */
  ghost predicate At(s: Sys, rq1: seq<Packet>, wq1: seq<Packet>, m1: Mshr, b1: Block, rq2: seq<Packet>, m2: Mshr, b2: Block) {
    Looks(s.l1, true, rq1, wq1, m1, b1) && Looks(s.l2, false, rq2, [], m2, b2) && s.lowerWq == [] && s.lowerWqSize == 1
  }

  /** The load, the store that meets it, and the way of the data from below. */
  function Events(): seq<Event> {
    [CoreRead(Access(LOAD), 0), L1Read(0), CoreWrite(Access(RFO), 0), L1Writeback(0),
     L2Read(0, false), LowerReturn(Access(LOAD), 0), L2Fill(0), L1Fill(0)]
  }

  // ---- The steps of the run ----

  lemma LoadArrives(s: Sys)
    requires At(s, [], [], Idle(), EmptyBlock(), [], Idle(), EmptyBlock())
    ensures var o := Steps(s, Events()[0]); o.Next? && At(o.s, [Access(LOAD)], [], Idle(), EmptyBlock(), [], Idle(), EmptyBlock())
  {
    Shapes(s, [], [], Idle(), EmptyBlock(), [], Idle(), EmptyBlock());
    ReadQueued(s.l1, true);
  }

  lemma LoadMisses(s: Sys)
    requires At(s, [Access(LOAD)], [], Idle(), EmptyBlock(), [], Idle(), EmptyBlock())
    ensures var o := Steps(s, Events()[1]); o.Next? && At(o.s, [], [], InFlight(), EmptyBlock(), [Access(LOAD)], Idle(), EmptyBlock())
  {
    hide Looks, ReadStep, AddRq;
    Shapes(s, [Access(LOAD)], [], Idle(), EmptyBlock(), [], Idle(), EmptyBlock());
    ReadMisses(s.l1, true);
    ReadQueued(s.l2, false);
  }

  lemma StoreArrives(s: Sys)
    requires At(s, [], [], InFlight(), EmptyBlock(), [Access(LOAD)], Idle(), EmptyBlock())
    ensures Allowed(s, Events()[2])
    ensures var o := Steps(s, Events()[2]);
      o.Next? && At(o.s, [], [Access(RFO)], InFlight(), EmptyBlock(), [Access(LOAD)], Idle(), EmptyBlock())
  {
    Shapes(s, [], [], InFlight(), EmptyBlock(), [Access(LOAD)], Idle(), EmptyBlock());
  }

  lemma StoreMisses(s: Sys)
    requires At(s, [], [Access(RFO)], InFlight(), EmptyBlock(), [Access(LOAD)], Idle(), EmptyBlock())
    ensures var o := Steps(s, Events()[3]); o.Next? && At(o.s, [], [], InFlight(), EmptyBlock(), [Access(LOAD)], Idle(), EmptyBlock())
  {
    Shapes(s, [], [Access(RFO)], InFlight(), EmptyBlock(), [Access(LOAD)], Idle(), EmptyBlock());
    assert !L2WqFull(s);
    hide Looks, WritebackStep;
    StoreMerges(s.l1);
  }

  lemma LoadMissesBelow(s: Sys)
    requires At(s, [], [], InFlight(), EmptyBlock(), [Access(LOAD)], Idle(), EmptyBlock())
    ensures var o := Steps(s, Events()[4]); o.Next? && At(o.s, [], [], InFlight(), EmptyBlock(), [], InFlight(), EmptyBlock())
  {
    hide Looks, ReadStep;
    Shapes(s, [], [], InFlight(), EmptyBlock(), [Access(LOAD)], Idle(), EmptyBlock());
    ReadMisses(s.l2, false);
  }

  lemma DataArrives(s: Sys)
    requires At(s, [], [], InFlight(), EmptyBlock(), [], InFlight(), EmptyBlock())
    ensures Allowed(s, Events()[5])
    ensures var o := Steps(s, Events()[5]);
      o.Next? && At(o.s, [], [], InFlight(), EmptyBlock(), [], Answered(), EmptyBlock())
  {
    Shapes(s, [], [], InFlight(), EmptyBlock(), [], InFlight(), EmptyBlock());
    CountPositive(s.l2.mshr.entry, 0, InflightAt(1));
    DataReturns(s.l2, false, Access(LOAD));
  }

  lemma L2Fills(s: Sys)
    requires At(s, [], [], InFlight(), EmptyBlock(), [], Answered(), EmptyBlock())
    ensures var o := Steps(s, Events()[6]); o.Next? && At(o.s, [], [], Answered(), EmptyBlock(), [], Filled(), CleanLine())
  {
    hide Looks, FillStep, ReturnData;
    Shapes(s, [], [], InFlight(), EmptyBlock(), [], Answered(), EmptyBlock());
    FillsClean(s.l2, false);
    DataReturns(s.l1, true, Access(LOAD).(returned := Completed));
  }

  lemma L1DFills(s: Sys)
    requires At(s, [], [], Answered(), EmptyBlock(), [], Filled(), CleanLine())
    ensures var o := Steps(s, Events()[7]); o.Next? && At(o.s, [], [], Filled(), CleanLine(), [], Filled(), CleanLine())
  {
    Shapes(s, [], [], Answered(), EmptyBlock(), [], Filled(), CleanLine());
    assert !L2WqFull(s);
    hide Looks, FillStep;
    FillsClean(s.l1, true);
  }

  /** The step, where the system has its shape. */
  ghost function Steps(s: Sys, e: Event): Outcome {
    if Shape(s.l1) && Shape(s.l2) then Step(s, e) else Failed
  }

  lemma Shapes(s: Sys, rq1: seq<Packet>, wq1: seq<Packet>, m1: Mshr, b1: Block, rq2: seq<Packet>, m2: Mshr, b2: Block)
    requires At(s, rq1, wq1, m1, b1, rq2, m2, b2) && |m1.entry| == |m2.entry| == 1
    ensures Shape(s.l1) && Shape(s.l2) && !L2WqFull(s) && !LowerWqFull(s)
  {
  }

  lemma Ahead(s: Sys, n: nat, u: Sys, t: Sys)
    requires n < 8 && Steps(s, Events()[n]) == Next(u) && Shape(s.l1) && Shape(s.l2) && Allowed(s, Events()[n]) && Run(u, Events()[n + 1..], t)
    ensures Run(s, Events()[n..], t)
  {
    hide Step, Allowed;
    assert Events()[n..][0] == Events()[n] && Events()[n..][1..] == Events()[n + 1..];
  }

  /** The start: nothing is queued, in flight or resident. */
  function ZeroStats(): Stats {
    var z := Tally(0, 0, 0, 0);
    Stats(0, 0, 0, 0, z, z, z)
  }

  function Start(isL1D: bool): Cache {
    Cache(TinyConfig(isL1D), [], [], [], Idle(), [[EmptyBlock()]], ZeroStats())
  }

  lemma StartsInitial(isL1D: bool)
    ensures IsInitial(Start(isL1D)) && Looks(Start(isL1D), isL1D, [], [], Idle(), EmptyBlock())
  {
    assert Idle() == EmptyMshr(1);
  }

  /** A line that is clean in both caches and in no write queue has no owner. */
  lemma CleanHasNoOwner(s: Sys)
    requires At(s, [], [], Filled(), CleanLine(), [], Filled(), CleanLine())
    ensures !Owned(s, 1)
  {
  }

  /** A reachable run in which the core stores to line 1, and in the end nothing is queued or in flight and
      the line is dirty nowhere: the store is lost. */
  lemma StoreIsLost()
    ensures exists s, t :: IsInitialSys(s) && Run(s, Events(), t) && Drained(t) && !Owned(t, 1)
  {
    hide Looks, Step, Run, Owned, IsInitial;
    StartsInitial(true);
    StartsInitial(false);
    var s := Sys(Start(true), Start(false), [], 1);
    var t := AllSteps(s);
    CleanHasNoOwner(t);
    Emptied(t);
    assert Events()[0..] == Events();
  }

  /** Nothing is queued or in flight. */
  ghost predicate Drained(t: Sys) {
    && t.l1.rq == t.l1.wq == t.l1.pq == [] && t.l2.rq == t.l2.wq == t.l2.pq == [] && t.lowerWq == []
    && t.l1.mshr.occupancy == t.l2.mshr.occupancy == 0
  }

  lemma Emptied(t: Sys)
    requires At(t, [], [], Filled(), CleanLine(), [], Filled(), CleanLine())
    ensures Drained(t)
  {
  }

  lemma AllSteps(s: Sys) returns (t: Sys)
    requires At(s, [], [], Idle(), EmptyBlock(), [], Idle(), EmptyBlock())
    ensures Run(s, Events()[0..], t) && At(t, [], [], Filled(), CleanLine(), [], Filled(), CleanLine())
  {
    hide At, Step, Run;
    LoadArrives(s);
    var s1 := Steps(s, Events()[0]).s;
    LoadMisses(s1);
    var s2 := Steps(s1, Events()[1]).s;
    StoreArrives(s2);
    var s3 := Steps(s2, Events()[2]).s;
    StoreMisses(s3);
    var s4 := Steps(s3, Events()[3]).s;
    LoadMissesBelow(s4);
    var s5 := Steps(s4, Events()[4]).s;
    DataArrives(s5);
    var s6 := Steps(s5, Events()[5]).s;
    L2Fills(s6);
    var s7 := Steps(s6, Events()[6]).s;
    L1DFills(s7);
    t := Steps(s7, Events()[7]).s;
    Ended(t);
    Ahead(s7, 7, t, t);
    Ahead(s6, 6, s7, t);
    Ahead(s5, 5, s6, t);
    Ahead(s4, 4, s5, t);
    Ahead(s3, 3, s4, t);
    Ahead(s2, 2, s3, t);
    Ahead(s1, 1, s2, t);
    Ahead(s, 0, s1, t);
  }

  lemma Ended(t: Sys)
    ensures Run(t, Events()[8..], t)
  {
  }
}
