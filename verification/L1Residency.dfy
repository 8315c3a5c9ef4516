/** In the L1D a line is either in flight in one register or resident in one way, never both. */
module L1Residency {
  import opened Counting
  import opened Packets
  import opened Replacement
  import opened MshrFile
  import opened CacheModel
  import opened CacheInvariant
  import opened Hierarchy
  import opened MissProtocol
  import opened HashIndex

  ghost predicate Holds(b: Block, a: nat) { b.valid && b.tag == a }

  ghost predicate Unheld(blocks: seq<seq<Block>>, a: nat) {
    forall s, w :: 0 <= s < |blocks| && 0 <= w < |blocks[s]| ==> !Holds(blocks[s][w], a)
  }

  /** No two ways of the whole cache validly hold the same line. */
  ghost predicate UniqueTags(blocks: seq<seq<Block>>) {
    forall s, w, t, v | 0 <= s < |blocks| && 0 <= w < |blocks[s]| && 0 <= t < |blocks| && 0 <= v < |blocks[t]| ::
      blocks[s][w].valid && Holds(blocks[t][v], blocks[s][w].tag) ==> s == t && w == v
  }

  ghost predicate Resident(c: Cache) {
    && UniqueTags(c.blocks)
    && forall i :: 0 <= i < |c.mshr.entry| && c.mshr.entry[i].address != 0 ==> Unheld(c.blocks, c.mshr.entry[i].address)
  }

  ghost predicate SameLines(x: seq<seq<Block>>, y: seq<seq<Block>>) {
    && |x| == |y|
    && (forall s :: 0 <= s < |x| ==> |x[s]| == |y[s]|)
    && (forall s, w :: 0 <= s < |x| && 0 <= w < |x[s]| ==> x[s][w].valid == y[s][w].valid && x[s][w].tag == y[s][w].tag)
  }

  /** Every line registered in `y` was registered in `x`, or is `a`. */
  ghost predicate RegistersWithin(x: seq<Packet>, y: seq<Packet>, a: nat) {
    forall i :: 0 <= i < |y| && y[i].address != 0 && y[i].address != a
      ==> exists j :: 0 <= j < |x| && x[j].address == y[i].address
  }

  lemma ResidentFrame(c: Cache, d: Cache, a: nat)
    requires Resident(c) && SameLines(c.blocks, d.blocks)
    requires RegistersWithin(c.mshr.entry, d.mshr.entry, a)
    requires Unheld(c.blocks, a) || RegistersWithin(c.mshr.entry, d.mshr.entry, 0)
    ensures Resident(d)
  {
    forall i | 0 <= i < |d.mshr.entry| && d.mshr.entry[i].address != 0
      ensures Unheld(d.blocks, d.mshr.entry[i].address)
    {
      assert Unheld(c.blocks, d.mshr.entry[i].address);
    }
  }

  /** A failed lookup means that no way of any set holds the line. */
  lemma MissUnheld(c: Cache, a: nat)
    requires BlocksOk(c) && CheckHit(c, a) < 0
    ensures Unheld(c.blocks, a)
  {
    forall s, w | 0 <= s < |c.blocks| && 0 <= w < |c.blocks[s]| ensures !Holds(c.blocks[s][w], a) {
      assert SetOk(c.cfg, s, c.blocks[s]);
      assert BlockOk(c.cfg, s, c.blocks[s][w]);
    }
  }

  lemma TouchSameLines(c: Cache, s: nat, t: seq<Block>)
    requires s < |c.blocks| && |t| == |c.blocks[s]|
    requires forall w :: 0 <= w < |t| ==> t[w].valid == c.blocks[s][w].valid && t[w].tag == c.blocks[s][w].tag
    ensures SameLines(c.blocks, PutSet(c, s, t).blocks)
  {
  }

  lemma AddMshrWithin(m: Mshr, p: Packet)
    ensures RegistersWithin(m.entry, AddMshr(m, p).entry, p.address)
  {
    var d := AddMshr(m, p);
    forall i | 0 <= i < |d.entry| && d.entry[i].address != 0 && d.entry[i].address != p.address
      ensures exists j :: 0 <= j < |m.entry| && m.entry[j].address == d.entry[i].address
    {
      assert m.entry[i].address == d.entry[i].address;
    }
  }

  lemma SameAddressesWithin(x: seq<Packet>, y: seq<Packet>)
    requires |x| == |y| && forall i :: 0 <= i < |x| ==> x[i].address == y[i].address
    ensures RegistersWithin(x, y, 0)
  {
    forall i | 0 <= i < |y| ensures exists j :: 0 <= j < |x| && x[j].address == y[i].address {
      assert x[i].address == y[i].address;
    }
  }

  lemma MissKeepsResident(c: Cache, p: Packet, d: Cache)
    requires Resident(c) && BlocksOk(c) && CheckHit(c, p.address) < 0 && d.blocks == c.blocks
    requires d.mshr == c.mshr || d.mshr == AddMshr(c.mshr, p)
             || (exists i: nat, b :: i < |c.mshr.entry| && p.address == c.mshr.entry[i].address && d.mshr == Merge(c.mshr, i, p, b))
    ensures Resident(d)
  {
    MissUnheld(c, p.address);
    if d.mshr == AddMshr(c.mshr, p) {
      AddMshrWithin(c.mshr, p);
      ResidentFrame(c, d, p.address);
    } else {
      SameAddressesWithin(c.mshr.entry, d.mshr.entry);
      ResidentFrame(c, d, 0);
    }
  }

  /** One way now holds line `a`, the others are as before. */
  ghost predicate OneChanged(x: seq<seq<Block>>, y: seq<seq<Block>>, s: nat, way: nat, a: nat) {
    && |x| == |y| && (forall t :: 0 <= t < |x| ==> |x[t]| == |y[t]|)
    && s < |y| && way < |y[s]| && Holds(y[s][way], a)
    && forall t, v | 0 <= t < |x| && 0 <= v < |x[t]| ::
         (t == s && v == way) || (y[t][v].valid == x[t][v].valid && y[t][v].tag == x[t][v].tag)
  }

  lemma OneChangedUnheld(x: seq<seq<Block>>, y: seq<seq<Block>>, s: nat, way: nat, a: nat, b: nat)
    requires OneChanged(x, y, s, way, a) && Unheld(x, b) && a != b
    ensures Unheld(y, b)
  {
    forall t, v | 0 <= t < |y| && 0 <= v < |y[t]| ensures !Holds(y[t][v], b) {
      assert !Holds(x[t][v], b);
    }
  }

  lemma OneChangedUnique(x: seq<seq<Block>>, y: seq<seq<Block>>, s: nat, way: nat, a: nat)
    requires OneChanged(x, y, s, way, a) && Unheld(x, a) && UniqueTags(x)
    ensures UniqueTags(y)
  {
    forall t, v | 0 <= t < |y| && 0 <= v < |y[t]| && Holds(y[t][v], a) ensures t == s && v == way {
      assert !Holds(x[t][v], a);
    }
  }

  /** Installing the completed line: it was nowhere, and now is in one way only. */
  lemma FillKeepsResident(c: Cache, now: nat, full: bool)
    requires CacheOk(c) && Resident(c) && now < UINT64_MAX
    ensures FillStep(c, now, full).Effect? && Resident(FillStep(c, now, full).c)
  {
    FillStepOk(c, now, full);
    var m := c.mshr;
    var d := FillStep(c, now, full).c;
    if d != c {
      var p := m.entry[m.nextFillIndex];
      var s := GetSet(c.cfg, p.address);
      VictimInRange(c, s);
      InstallResident(c, s, LruVictim(c.blocks[s]), m.nextFillIndex, d);
    }
  }

  lemma InstallResident(c: Cache, s: nat, way: nat, i: nat, d: Cache)
    requires CacheOk(c) && Resident(c) && s < |c.blocks| && way < c.cfg.numWays
    requires i < |c.mshr.entry| && c.mshr.entry[i].address != 0 && d.mshr == Release(c.mshr, i)
    requires exists dirty :: d.blocks == Install(c, s, way, c.mshr.entry[i], dirty).blocks
    ensures Resident(d)
  {
    var a := c.mshr.entry[i].address;
    assert OneChanged(c.blocks, d.blocks, s, way, a);
    OneChangedUnique(c.blocks, d.blocks, s, way, a);
    forall j | 0 <= j < |d.mshr.entry| && d.mshr.entry[j].address != 0
      ensures Unheld(d.blocks, d.mshr.entry[j].address)
    {
      assert j != i && d.mshr.entry[j] == c.mshr.entry[j];
      OneChangedUnheld(c.blocks, d.blocks, s, way, a, d.mshr.entry[j].address);
    }
  }

  lemma ReadKeepsResident(c: Cache, now: nat)
    requires CacheOk(c) && Resident(c)
    ensures ReadStep(c, now).Effect? && Resident(ReadStep(c, now).c)
  {
    ReadStepOk(c, now);
    var d := ReadStep(c, now).c;
    if d != c {
      var p := c.rq[0];
      var s := GetSet(c.cfg, p.address);
      if CheckHit(c, p.address) < 0 {
        MissKeepsResident(c, p, d);
      } else {
        TouchSameLines(c, s, d.blocks[s]);
        SameAddressesWithin(c.mshr.entry, d.mshr.entry);
        ResidentFrame(c, d, 0);
      }
    }
  }

  lemma PrefetchKeepsResident(c: Cache, now: nat, full: bool)
    requires CacheOk(c) && Resident(c)
    ensures PrefetchStep(c, now, full).Effect? && Resident(PrefetchStep(c, now, full).c)
  {
    PrefetchStepOk(c, now, full);
    var d := PrefetchStep(c, now, full).c;
    if d != c {
      var p := c.pq[0];
      var s := GetSet(c.cfg, p.address);
      if CheckHit(c, p.address) < 0 {
        MissKeepsResident(c, p, d);
      } else {
        TouchSameLines(c, s, d.blocks[s]);
        SameAddressesWithin(c.mshr.entry, d.mshr.entry);
        ResidentFrame(c, d, 0);
      }
    }
  }

  lemma WritebackKeepsResident(c: Cache, now: nat, full: bool)
    requires CacheOk(c) && c.cfg.isL1D && Resident(c)
    ensures WritebackStep(c, now, full).Effect? && Resident(WritebackStep(c, now, full).c)
  {
    WritebackStepOk(c, now, full);
    var d := WritebackStep(c, now, full).c;
    if d != c {
      var p := c.wq[0];
      var s := GetSet(c.cfg, p.address);
      if CheckHit(c, p.address) < 0 {
        MissKeepsResident(c, p, d);
      } else {
        TouchSameLines(c, s, d.blocks[s]);
        SameAddressesWithin(c.mshr.entry, d.mshr.entry);
        ResidentFrame(c, d, 0);
      }
    }
  }

  /** What other levels do to the L1D: at most complete registers. */
  ghost predicate OnlyCompletes(c: Cache, d: Cache) {
    && d.blocks == c.blocks && |d.mshr.entry| == |c.mshr.entry|
    && forall i :: 0 <= i < |c.mshr.entry| ==>
         d.mshr.entry[i].address == c.mshr.entry[i].address && d.mshr.entry[i].kind == c.mshr.entry[i].kind
  }

  lemma CompletesKeepsResident(c: Cache, d: Cache)
    requires Resident(c) && OnlyCompletes(c, d)
    ensures Resident(d)
  {
    SameAddressesWithin(c.mshr.entry, d.mshr.entry);
    ResidentFrame(c, d, 0);
  }

  lemma ReturnOnlyCompletes(s: Sys, m: Option<Packet>, now: nat)
    ensures var o := ReturnToL1(s, m, now); o.Next? ==> OnlyCompletes(s.l1, o.s.l1)
  {
  }

  lemma RequestOnlyCompletes(s: Sys, m: Option<Packet>, now: nat)
    ensures var o := SendToL2Rq(s, m, now); o.Next? ==> OnlyCompletes(s.l1, o.s.l1)
    ensures var o := SendToL2Pq(s, m, now); o.Next? ==> OnlyCompletes(s.l1, o.s.l1)
    ensures var o := SendToL2Wq(s, m, now); o.Next? ==> OnlyCompletes(s.l1, o.s.l1)
  {
    if m.Some? {
      var e, f := AddRq(s.l2, m.value, now), AddPq(s.l2, m.value, now);
      if e.Effect? { ReturnOnlyCompletes(s.(l2 := e.c), e.up, now); }
      if f.Effect? { ReturnOnlyCompletes(s.(l2 := f.c), f.up, now); }
    }
  }

  lemma L2OnlyCompletes(s: Sys, e: Effect, answered: bool, now: nat)
    ensures var o := EvictAndReturn(s, e, now); o.Next? ==> OnlyCompletes(s.l1, o.s.l1)
    ensures var o := AskAndReturn(s, e, answered, now); o.Next? ==> OnlyCompletes(s.l1, o.s.l1)
  {
    if e.Effect? {
      var t := s.(l2 := e.c);
      var x, y := SendToLowerWq(t, e.victim), AnswerL2(t, e.down, answered, now);
      if x.Next? { ReturnOnlyCompletes(x.s, e.up, now); }
      if y.Next? { ReturnOnlyCompletes(y.s, e.up, now); }
    }
  }

  /** Steps of the core, the prefetchers, the L2 and the lower level. */
  lemma OtherStepOnlyCompletes(s: Sys, e: Event)
    requires Shape(s.l1) && Shape(s.l2) && !(e.L1Fill? || e.L1Writeback? || e.L1Read? || e.L1Prefetch?)
    ensures Step(s, e).Next? ==> OnlyCompletes(s.l1, Step(s, e).s.l1)
  {
    if e.L2Fill? {
      L2OnlyCompletes(s, FillStep(s.l2, e.now, LowerWqFull(s)), false, e.now);
    } else if e.L2Writeback? {
      L2OnlyCompletes(s, WritebackStep(s.l2, e.now, LowerWqFull(s)), false, e.now);
    } else if e.L2Read? {
      L2OnlyCompletes(s, ReadStep(s.l2, e.now), e.answered, e.now);
    } else if e.L2Prefetch? {
      L2OnlyCompletes(s, PrefetchStep(s.l2, e.now, e.lowerPqFull), e.answered, e.now);
    } else if e.IssueL2Prefetch? && |s.l2.pq| < s.l2.cfg.pqSize {
      var f := AddPq(s.l2, e.p, e.now);
      if f.Effect? { ReturnOnlyCompletes(s.(l2 := f.c), f.up, e.now); }
    }
  }

  lemma L1StepKeepsResident(s: Sys, e: Event)
    requires Inv(s) && Allowed(s, e) && Resident(s.l1)
    requires e.L1Fill? || e.L1Writeback? || e.L1Read? || e.L1Prefetch?
    ensures Step(s, e).Next? && Resident(Step(s, e).s.l1)
  {
    hide Inv, FillStep, WritebackStep, ReadStep, PrefetchStep, SendToL2Wq, SendToL2Rq, SendToL2Pq, Resident;
    InvParts(s);
    StepKeepsInv(s, e);
    var f: Effect;
    if e.L1Fill? {
      f := FillStep(s.l1, e.now, L2WqFull(s));
      FillKeepsResident(s.l1, e.now, L2WqFull(s));
      RequestOnlyCompletes(s.(l1 := f.c), f.victim, e.now);
    } else if e.L1Writeback? {
      f := WritebackStep(s.l1, e.now, L2WqFull(s));
      WritebackKeepsResident(s.l1, e.now, L2WqFull(s));
      RequestOnlyCompletes(s.(l1 := f.c), f.down, e.now);
    } else if e.L1Read? {
      f := ReadStep(s.l1, e.now);
      ReadKeepsResident(s.l1, e.now);
      RequestOnlyCompletes(s.(l1 := f.c), f.down, e.now);
    } else {
      f := PrefetchStep(s.l1, e.now, L2PqFull(s));
      PrefetchKeepsResident(s.l1, e.now, L2PqFull(s));
      RequestOnlyCompletes(s.(l1 := f.c), f.down, e.now);
    }
    CompletesKeepsResident(f.c, Step(s, e).s.l1);
  }

  lemma InvParts(s: Sys)
    requires Inv(s)
    ensures CacheOk(s.l1) && s.l1.cfg.isL1D && Shape(s.l1) && Shape(s.l2)
  {
  }

  lemma StepKeepsResident(s: Sys, e: Event)
    requires Inv(s) && Allowed(s, e) && Resident(s.l1)
    ensures Step(s, e).Next? && Resident(Step(s, e).s.l1)
  {
    StepKeepsInv(s, e);
    if e.L1Fill? || e.L1Writeback? || e.L1Read? || e.L1Prefetch? {
      L1StepKeepsResident(s, e);
    } else {
      OtherStepOnlyCompletes(s, e);
      CompletesKeepsResident(s.l1, Step(s, e).s.l1);
    }
  }

  lemma {:induction false} RunKeepsResident(s: Sys, events: seq<Event>, t: Sys)
    requires Inv(s) && Resident(s.l1) && Run(s, events, t)
    ensures Resident(t.l1)
    decreases |events|
  {
    if |events| > 0 {
      StepKeepsInv(s, events[0]);
      StepKeepsResident(s, events[0]);
      RunKeepsResident(Step(s, events[0]).s, events[1..], t);
    }
  }

  lemma InitialResident(c: Cache)
    requires IsInitial(c)
    ensures Resident(c)
  {
    forall s, w | 0 <= s < |c.blocks| && 0 <= w < |c.blocks[s]| ensures !c.blocks[s][w].valid {
      assert IsInitialSet(c.blocks[s], c.cfg.numWays);
    }
    assert forall i :: 0 <= i < |c.mshr.entry| ==> c.mshr.entry[i].address == 0;
  }

  /** Every valid line is in the set that its address gives modulo the number of sets, or modulo the greatest
      power of two up to it. */
  ghost predicate Placed(c: Cache) {
    forall k: nat, s, w | Pow2(k) <= c.cfg.numSets < 2 * Pow2(k) && 0 <= s < |c.blocks| && 0 <= w < |c.blocks[s]| ::
      c.blocks[s][w].valid ==> c.blocks[s][w].tag % Pow2(k) == s
  }

  lemma BlocksPlaced(c: Cache)
    requires BlocksOk(c)
    ensures Placed(c)
  {
    hide GetSet, LruOk;
    forall k: nat, s, w | Pow2(k) <= c.cfg.numSets < 2 * Pow2(k) && 0 <= s < |c.blocks| && 0 <= w < |c.blocks[s]| && c.blocks[s][w].valid
      ensures c.blocks[s][w].tag % Pow2(k) == s
    {
      assert SetOk(c.cfg, s, c.blocks[s]);
      assert BlockOk(c.cfg, s, c.blocks[s][w]);
      SetMeaning(c.cfg, k, c.blocks[s][w].tag);
    }
  }

  /** In every reachable state: one way per resident line, in its own set; one register per line in
      flight; and no line is both. */
  lemma InFlightOrResident(s: Sys)
    requires Reachable(s)
    ensures BlocksOk(s.l1) && Placed(s.l1) && Placed(s.l2) && Slots(s.l1.mshr.entry) && Resident(s.l1)
  {
    ReachableInv(s);
    BlocksPlaced(s.l1);
    BlocksPlaced(s.l2);
    var s0, events :| IsInitialSys(s0) && Run(s0, events, s);
    InitialInv(s0);
    InitialResident(s0.l1);
    RunKeepsResident(s0, events, s);
  }
}
