/** The miss status holding registers of one cache (src/cache.cc, check_mshr to update_fill_cycle). */
module MshrFile {
  import opened Counting
  import opened Packets

  datatype Mshr = Mshr(entry: seq<Packet>, occupancy: int, numReturned: int,
                       nextFillCycle: nat, nextFillIndex: nat)

  function IsUsed(): Packet -> bool { (p: Packet) => p.address != 0 }

  function IsCompleted(): Packet -> bool { (p: Packet) => p.returned == Completed }

  function InflightAt(a: nat): Packet -> bool {
    (p: Packet) => p.address == a && p.returned == Inflight
  }

  function EmptyMshr(size: nat): Mshr {
    Mshr(seq(size, _ => EmptyPacket), 0, 0, UINT64_MAX, 0)
  }

  /** check_mshr: the first register holding the address, or -1. */
  function CheckMshr(m: Mshr, address: nat): (r: int)
    ensures -1 <= r < |m.entry|
  {
    FirstMatch(m.entry, address, false)
  }

  /** add_mshr: takes the first free register, if there is one. */
  function AddMshr(m: Mshr, p: Packet): Mshr {
    var i := FirstMatch(m.entry, 0, false);
    if i < 0 then m
    else m.(entry := m.entry[i := p.(returned := Inflight)], occupancy := m.occupancy + 1)
  }

  /** The scan of update_fill_cycle over the first n registers: earliest completion cycle and its place. */
  function NextFill(entry: seq<Packet>, n: nat): (nat, nat)
    requires n <= |entry|
  {
    if n == 0 then (UINT64_MAX, |entry|)
    else
      var (c, i) := NextFill(entry, n - 1);
      if entry[n - 1].returned == Completed && entry[n - 1].eventCycle < c
      then (entry[n - 1].eventCycle, n - 1) else (c, i)
  }

  function UpdateFillCycle(m: Mshr): Mshr {
    var (c, i) := NextFill(m.entry, |m.entry|);
    m.(nextFillCycle := c, nextFillIndex := i)
  }

  /** The bookkeeping of return_data on a register that was found. */
  function Return(m: Mshr, i: nat, now: nat, latency: nat): Mshr
    requires i < |m.entry|
  {
    var e := m.entry[i];
    UpdateFillCycle(m.(
      entry := m.entry[i := e.(returned := Completed, eventCycle := Delayed(e.eventCycle, now, latency))],
      numReturned := m.numReturned + 1))
  }

  /** A second miss on an in-flight line: the fill level drops; a demand takes over a prefetch. */
  function Merge(m: Mshr, i: nat, p: Packet, takeOver: bool): Mshr
    requires i < |m.entry|
  {
    var e := m.entry[i];
    var e' := if p.fillLevel < e.fillLevel then e.(fillLevel := p.fillLevel) else e;
    m.(entry := m.entry[i := if takeOver && e.kind == PREFETCH
                             then p.(returned := e.returned, eventCycle := e.eventCycle) else e'])
  }

  /** remove_queue on a register, with the bookkeeping handle_fill does after it. */
  function Release(m: Mshr, i: nat): Mshr
    requires i < |m.entry|
  {
    UpdateFillCycle(m.(entry := m.entry[i := EmptyPacket],
                       occupancy := m.occupancy - 1, numReturned := m.numReturned - 1))
  }

  /** next_fill_cycle is the least event cycle of a completed register, and the index attains it. */
  ghost predicate NextFillOk(m: Mshr) {
    && m.nextFillCycle <= UINT64_MAX
    && (forall i :: 0 <= i < |m.entry| && m.entry[i].returned == Completed
          ==> m.nextFillCycle <= m.entry[i].eventCycle)
    && (m.nextFillCycle < UINT64_MAX ==> Attains(m.entry, m.nextFillIndex, m.nextFillCycle))
  }

  ghost predicate Attains(entry: seq<Packet>, i: nat, cycle: nat) {
    i < |entry| && entry[i].returned == Completed && entry[i].eventCycle == cycle
  }

  ghost predicate Slots(entry: seq<Packet>) {
    && (forall i :: 0 <= i < |entry| && entry[i].address == 0 ==> entry[i] == EmptyPacket)
    && (forall i :: 0 <= i < |entry| && entry[i].address != 0 ==> entry[i].returned != Fresh)
    && (forall i, j :: 0 <= i < j < |entry| && entry[i].address != 0 ==> entry[i].address != entry[j].address)
  }

  ghost predicate MshrOk(m: Mshr) {
    && Slots(m.entry)
    && m.occupancy == Count(m.entry, IsUsed())
    && m.numReturned == Count(m.entry, IsCompleted())
    && NextFillOk(m)
  }

  lemma EmptyMshrOk(size: nat)
    ensures MshrOk(EmptyMshr(size)) && EmptyMshr(size).occupancy == 0 && |EmptyMshr(size).entry| == size
  {
    CountZero(EmptyMshr(size).entry, IsUsed());
    CountZero(EmptyMshr(size).entry, IsCompleted());
  }

  /** What the scan computes: a least completed event cycle below UINT64_MAX, if there is one. */
  lemma {:induction false} NextFillLeast(entry: seq<Packet>, n: nat)
    requires n <= |entry|
    ensures NextFill(entry, n).0 <= UINT64_MAX
    ensures forall j :: 0 <= j < n && entry[j].returned == Completed ==> NextFill(entry, n).0 <= entry[j].eventCycle
    ensures NextFill(entry, n).0 < UINT64_MAX ==> Attains(entry, NextFill(entry, n).1, NextFill(entry, n).0)
    ensures NextFill(entry, n).0 == UINT64_MAX ==> NextFill(entry, n).1 == |entry|
  {
    if n > 0 {
      NextFillLeast(entry, n - 1);
    }
  }

  lemma UpdateFillCycleOk(m: Mshr)
    requires Slots(m.entry)
    requires m.occupancy == Count(m.entry, IsUsed()) && m.numReturned == Count(m.entry, IsCompleted())
    ensures MshrOk(UpdateFillCycle(m))
  {
    NextFillLeast(m.entry, |m.entry|);
  }

  /** A file that is not full has a free register, and taking it keeps the bookkeeping. */
  lemma AddMshrOk(m: Mshr, p: Packet)
    requires MshrOk(m) && p.address != 0 && CheckMshr(m, p.address) == -1
    ensures MshrOk(AddMshr(m, p))
    ensures m.occupancy < |m.entry| ==> AddMshr(m, p) != m
    ensures forall a: nat :: a != 0 && m.occupancy < |m.entry| ==>
      Count(AddMshr(m, p).entry, InflightAt(a)) ==
      Count(m.entry, InflightAt(a)) + (if a == p.address then 1 else 0)
  {
    var i := FirstMatch(m.entry, 0, false);
    CountBound(m.entry, IsUsed());
    if i >= 0 {
      var q := p.(returned := Inflight);
      CountUpdate(m.entry, i, q, IsUsed());
      CountUpdate(m.entry, i, q, IsCompleted());
      forall a: nat | a != 0
        ensures Count(AddMshr(m, p).entry, InflightAt(a)) ==
                Count(m.entry, InflightAt(a)) + (if a == p.address then 1 else 0)
      {
        CountUpdate(m.entry, i, q, InflightAt(a));
      }
    } else {
      forall k | 0 <= k < |m.entry| ensures IsUsed()(m.entry[k]) {
        assert KeyOf(m.entry[k], false) != 0;
      }
    }
  }

  /** Completing an in-flight register takes one in-flight miss away. */
  lemma ReturnOk(m: Mshr, i: nat, now: nat, latency: nat)
    requires MshrOk(m) && i < |m.entry| && m.entry[i].returned == Inflight && m.entry[i].address != 0
    ensures MshrOk(Return(m, i, now, latency))
    ensures forall a: nat :: Count(Return(m, i, now, latency).entry, InflightAt(a))
                        + (if a == m.entry[i].address then 1 else 0) == Count(m.entry, InflightAt(a))
  {
    var e := m.entry[i].(returned := Completed, eventCycle := Delayed(m.entry[i].eventCycle, now, latency));
    CountUpdate(m.entry, i, e, IsUsed());
    CountUpdate(m.entry, i, e, IsCompleted());
    UpdateFillCycleOk(m.(entry := m.entry[i := e], numReturned := m.numReturned + 1));
    forall a: nat ensures Count(m.entry[i := e], InflightAt(a))
                        + (if a == m.entry[i].address then 1 else 0) == Count(m.entry, InflightAt(a)) {
      CountUpdate(m.entry, i, e, InflightAt(a));
    }
  }

  /** Merging changes neither the address nor the completion state of a register. */
  lemma MergeOk(m: Mshr, i: nat, p: Packet, takeOver: bool)
    requires MshrOk(m) && i < |m.entry| && p.address == m.entry[i].address != 0
    ensures MshrOk(Merge(m, i, p, takeOver))
    ensures forall a: nat :: Count(Merge(m, i, p, takeOver).entry, InflightAt(a)) == Count(m.entry, InflightAt(a))
  {
    var e := Merge(m, i, p, takeOver).entry[i];
    CountUpdate(m.entry, i, e, IsUsed());
    CountUpdate(m.entry, i, e, IsCompleted());
    forall a: nat ensures Count(m.entry[i := e], InflightAt(a)) == Count(m.entry, InflightAt(a)) {
      CountUpdate(m.entry, i, e, InflightAt(a));
    }
  }

  lemma ReleaseOk(m: Mshr, i: nat)
    requires MshrOk(m) && i < |m.entry| && m.entry[i].returned == Completed
    ensures MshrOk(Release(m, i))
    ensures forall a: nat :: Count(Release(m, i).entry, InflightAt(a)) == Count(m.entry, InflightAt(a))
  {
    assert m.entry[i].address != 0;
    CountUpdate(m.entry, i, EmptyPacket, IsUsed());
    CountUpdate(m.entry, i, EmptyPacket, IsCompleted());
    UpdateFillCycleOk(m.(entry := m.entry[i := EmptyPacket],
                         occupancy := m.occupancy - 1, numReturned := m.numReturned - 1));
    forall a: nat ensures Count(m.entry[i := EmptyPacket], InflightAt(a)) == Count(m.entry, InflightAt(a)) {
      CountUpdate(m.entry, i, EmptyPacket, InflightAt(a));
    }
  }

  /** At most one miss is in flight per address, and it is the one check_mshr finds. */
  lemma InflightCount(m: Mshr, a: nat)
    requires MshrOk(m) && a != 0
    ensures Count(m.entry, InflightAt(a)) ==
            if CheckMshr(m, a) >= 0 && m.entry[CheckMshr(m, a)].returned == Inflight then 1 else 0
  {
    var i := CheckMshr(m, a);
    if i >= 0 && m.entry[i].returned == Inflight {
      CountPositive(m.entry, i, InflightAt(a));
      CountAtMostOne(m.entry, InflightAt(a));
    } else {
      CountZero(m.entry, InflightAt(a));
      forall k | 0 <= k < |m.entry| ensures !InflightAt(a)(m.entry[k]) {
        if i >= 0 && k != i {
          assert KeyOf(m.entry[k], false) == m.entry[k].address;
        } else if i < 0 {
          assert KeyOf(m.entry[k], false) != a;
        }
      }
    }
  }
}
