/** A run of ordinary accesses from the initial state after which an invocation of SPP writes past its fixed
    candidate queues (prefetcher/spp_dev2.cc, prefetcher/spp_dev2_helper.cc). One delta is trained, one line of
    each of many pages is prefetched, which halves the counters, and then the prefetched lines are demanded. */
module SppOverrun {
  import opened Counting
  import LruOrder
  import opened SppSignature
  import opened SppPattern
  import opened SppFilter
  import opened Spp

  /** All signatures in one pattern set, all lines of a page in one filter entry, threshold 25. */
  function Settings(fill: nat): Params {
    Params((sig: bv32) => 0, (line: nat) => line / 64 * 64 + 1, 25, fill)
  }

  function AddrOf(page: nat, offset: nat): nat { page * 4096 + offset * 64 }

  lemma Located(fill: nat, page: nat, offset: nat)
    requires offset < 64 && page < 1024
    ensures var a := AddrOf(page, offset);
      && a / 4096 == page && a / 64 % 64 == offset && a % 64 == 0
      && Quotient(Settings(fill), a) == page && Remainder(Settings(fill), a) == 1
  {
    var a := AddrOf(page, offset);
    assert a / 64 == page * 64 + offset;
    assert a / 64 / 64 == page;
  }

  // ---- The pattern set: one delta ----

  /** c of c + 1 updates have hit the delta 1. */
  function OneDelta(c: nat): PtSet { PtSet([1, 0, 0, 0], [c, 0, 0, 0], c + 1) }

  lemma OneDeltaGrows(c: nat)
    requires c < 14
    ensures Update(OneDelta(c), 1) == Some(OneDelta(c + 1))
  {
    assert HitWay([1, 0, 0, 0], 1, 0) == 0;
    assert [c, 0, 0, 0][0 := c + 1] == [c + 1, 0, 0, 0];
  }

  lemma OneDeltaStarts(t: PtSet)
    requires ZeroSet(t)
    ensures Update(t, 1) == Some(OneDelta(0))
  {
    assert t.delta == [0, 0, 0, 0] && t.cDelta == [0, 0, 0, 0];
    assert MinWay(t.cDelta, 1) == (0, 0);
    assert MinWay(t.cDelta, 2) == (0, 0);
    assert MinWay(t.cDelta, 3) == (0, 0);
    assert MinWay(t.cDelta, 4) == (0, 0);
    assert [0, 0, 0, 0][0 := 1] == [1, 0, 0, 0];
    assert [0, 0, 0, 0][0 := 0] == [0, 0, 0, 0];
  }

  ghost predicate SingleDelta(t: PtSet) {
    ZeroSet(t) || exists c: nat :: c <= 14 && t == OneDelta(c)
  }

  lemma OneScan(c: nat, ga: nat, depth: nat, conf: nat)
    requires c <= 14
    ensures var r := ScanWays(OneDelta(c), ga, 25, depth, conf, PT_WAY);
      var mine := Confidence(OneDelta(c), 0, ga, depth, conf);
      if mine < 25 then r.queue == [] else r == Scan([Candidate(mine, 1)], 0, mine)
  {
    var t, mine := OneDelta(c), Confidence(OneDelta(c), 0, ga, depth, conf);
    NoShare(c, ga, depth, conf);
    hide Confidence;
    var one := if mine < 25 then Scan([], PT_WAY, 0) else Scan([Candidate(mine, 1)], 0, mine);
    assert ScanWays(t, ga, 25, depth, conf, 0) == Scan([], PT_WAY, 0);
    assert ScanWays(t, ga, 25, depth, conf, 1) == one;
    assert ScanWays(t, ga, 25, depth, conf, 2) == one;
    assert ScanWays(t, ga, 25, depth, conf, 3) == one;
  }

  lemma NoShare(c: nat, ga: nat, depth: nat, conf: nat)
    ensures forall w :: 0 < w < PT_WAY ==> Confidence(OneDelta(c), w, ga, depth, conf) == 0
  {
    assert Share(0, c + 1, ga) == 0 && Share(0, c + 1, 100) == 0;
  }

  // ---- Paths: one candidate per level, block after block ----

  ghost predicate Strides(levels: seq<Level>, base: nat)
    decreases |levels|
  {
    |levels| == 0 || (
      && levels[0].base == base && |levels[0].queue| == 1 && levels[0].queue[0].delta == 1
      && Strides(levels[1..], base + 64))
  }

  /** Unfolding a path by one level. */
  lemma PathHead(fill: nat, pt: seq<PtSet>, c: nat, sig: bv32, base: nat, ga: nat, depth: nat, conf: nat, levels: seq<Level>)
    requires TableOk(pt) && c <= 14 && pt[0] == OneDelta(c) && levels != [] && base + 64 < 0x1_0000_0000_0000_0000
    requires IsPath(pt, Settings(fill).hash, sig, base, ga, 25, depth, conf, levels)
    ensures var mine := Confidence(OneDelta(c), 0, ga, depth, conf);
      && levels[0] == Level(sig, base, [Candidate(mine, 1)])
      && IsPath(pt, Settings(fill).hash, NextSig(sig, 1), base + 64, ga, 25, depth + 1, mine, levels[1..])
  {
    hide NextSig, ScanWays, Confidence, TableOk;
    OneScan(c, ga, depth, conf);
    assert Advance(base, 1) == base + 64;
  }

  lemma UntouchedEnds(fill: nat, pt: seq<PtSet>, sig: bv32, base: nat, ga: nat, depth: nat, conf: nat, levels: seq<Level>)
    requires TableOk(pt) && ZeroSet(pt[0]) && IsPath(pt, Settings(fill).hash, sig, base, ga, 25, depth, conf, levels)
    ensures levels == []
  {
    hide ScanWays, NextSig, Advance, SppPattern.SetOk;
  }

  lemma {:induction false} PathStrides(fill: nat, pt: seq<PtSet>, sig: bv32, base: nat, ga: nat, depth: nat, conf: nat, levels: seq<Level>)
    requires TableOk(pt) && SingleDelta(pt[0]) && base + 64 * |levels| < 0x1_0000_0000_0000_0000
    requires IsPath(pt, Settings(fill).hash, sig, base, ga, 25, depth, conf, levels)
    ensures Strides(levels, base)
    decreases |levels|
  {
    hide NextSig, Confidence, SppPattern.SetOk, IsPath, ZeroSet;
    if levels != [] {
      if ZeroSet(pt[0]) {
        UntouchedEnds(fill, pt, sig, base, ga, depth, conf, levels);
      } else {
        var c: nat :| c <= 14 && pt[0] == OneDelta(c);
        PathHead(fill, pt, c, sig, base, ga, depth, conf, levels);
        PathStrides(fill, pt, NextSig(sig, 1), base + 64, ga, depth + 1, Confidence(OneDelta(c), 0, ga, depth, conf), levels[1..]);
      }
    }
  }

  /** The first level of a path from the hottest set. */
  lemma HotStart(fill: nat, pt: seq<PtSet>, sig: bv32, base: nat, ga: nat, levels: seq<Level>)
    requires TableOk(pt) && pt[0] == OneDelta(14)
    requires IsPath(pt, Settings(fill).hash, sig, base, ga, 25, 0, 100, levels)
    ensures levels != [] && levels[0].queue == [Candidate(93, 1)]
  {
    hide NextSig, ScanWays;
    OneScan(14, ga, 0, 100);
    assert Confidence(OneDelta(14), 0, ga, 0, 100) == 93;
  }

  // ---- What such a path issues ----

  /** At most one prefetch into the L2: all targets are in the page, and share its filter entry. */
  ghost predicate IssuesInPage(x: Issue, y: Issue, page: nat)
    requires page < |x.filter.slots|
  {
    && y.history == x.history
    && (y.filter == x.filter || (Passes(x.filter, page, 1) && y.filter == IssueL2(x.filter, page, 1)))
  }

  lemma OneIssue(fill: nat, x: Issue, addr: nat, sig: bv32, page: nat, offset: nat, c: Candidate)
    requires |x.filter.slots| == FILTER_SET && page < 1024 && offset < 63 && addr / 4096 == page && c.delta == 1
    ensures var y := IssueOne(Settings(fill), x, addr, sig, AddrOf(page, offset), c);
      && y.Some? && IssuesInPage(x, y.value, page)
      && (c.conf >= fill && Passes(x.filter, page, 1) ==> y.value.filter == IssueL2(x.filter, page, 1))
  {
    hide IssueL2, Passes, Quotient, Remainder;
    Located(fill, page, offset);
    Located(fill, page, offset + 1);
    assert TargetOf(AddrOf(page, offset), 1) == AddrOf(page, offset + 1);
  }

  lemma {:induction false} StridesIssue(fill: nat, x: Issue, addr: nat, page: nat, offset: nat, levels: seq<Level>)
    requires |x.filter.slots| == FILTER_SET && page < 1024 && offset + |levels| < 64 && addr / 4096 == page
    requires Strides(levels, AddrOf(page, offset))
    ensures var y := IssueLevels(Settings(fill), x, addr, levels);
      && y.Some? && IssuesInPage(x, y.value, page)
      && (levels != [] && levels[0].queue[0].conf >= fill && Passes(x.filter, page, 1) ==>
        y.value.filter == IssueL2(x.filter, page, 1))
    decreases |levels|
  {
    hide IssueOne;
    if levels != [] {
      var l := levels[0];
      OneIssue(fill, x, addr, l.sig, page, offset, l.queue[0]);
      assert IssueQueue(Settings(fill), x, addr, l, 0) == Some(x);
      var y := IssueQueue(Settings(fill), x, addr, l, 1).value;
      assert AddrOf(page, offset) + 64 == AddrOf(page, offset + 1);
      StridesIssue(fill, y, addr, page, offset + 1, levels[1..]);
    }
  }

  // ---- One access ----

  ghost predicate NoHistory(h: seq<History>) { forall i :: 0 <= i < |h| ==> h[i].conf == 0 }

  /** The accuracy is at most 103, so the invocation returns. */
  lemma MayAccess(fill: nat, s: State)
    requires Accuracy(s.filter.meter) <= 103
    ensures MayInvoke(Settings(fill), s)
  {
    HoldsAt25(Accuracy(s.filter.meter));
  }

  /** The path of an access, as an event. */
  function Touch(fill: nat, s: State, page: nat, offset: nat): Event
    requires Sound(s) && MayInvoke(Settings(fill), s)
  {
    Access(AddrOf(page, offset), PathOf(Settings(fill), s, AddrOf(page, offset)))
  }

  lemma TouchEffect(fill: nat, s: State, page: nat, offset: nat)
    requires Sound(s) && NoHistory(s.history) && Accuracy(s.filter.meter) <= 103 && page < 1024 && offset <= 32
    requires Learn(Settings(fill), s, AddrOf(page, offset)).Some?
    requires SingleDelta(Learn(Settings(fill), s, AddrOf(page, offset)).value.pt[0])
    ensures MayInvoke(Settings(fill), s) && Happens(Settings(fill), s, Touch(fill, s, page, offset))
    ensures var x, t := Learn(Settings(fill), s, AddrOf(page, offset)).value, Next(Settings(fill), s, Touch(fill, s, page, offset));
      && Sound(t) && t.st == x.st && t.pt == x.pt && t.history == s.history
      && (t.filter == x.filter || (Passes(x.filter, page, 1) && t.filter == IssueL2(x.filter, page, 1)))
      && (x.pt[0] == OneDelta(14) && fill <= 93 && Passes(x.filter, page, 1) ==> t.filter == IssueL2(x.filter, page, 1))
  {
    hide Learn, IssueLevels, IsPath, QueuesHold, Accounted, Lookahead, Passes, IssueL2, Accuracy, SingleDelta;
    var p, addr := Settings(fill), AddrOf(page, offset);
    MayAccess(fill, s);
    InvokeOk(p, s, addr);
    NextKeeps(p, s, Touch(fill, s, page, offset));
    var x, levels := Learn(p, s, addr).value, PathOf(p, s, addr);
    SomeStrides(fill, x.pt, x.sig, page, offset, Accuracy(s.filter.meter), levels);
    Located(fill, page, offset);
    StridesIssue(fill, Issue(x.filter, s.history, []), addr, page, offset, levels);
    if x.pt[0] == OneDelta(14) {
      HotStart(fill, x.pt, x.sig, addr, Accuracy(s.filter.meter), levels);
    }
  }

  /** A path below 32 candidates. */
  lemma SomeStrides(fill: nat, pt: seq<PtSet>, sig: bv32, page: nat, offset: nat, ga: nat, levels: seq<Level>)
    requires TableOk(pt) && SingleDelta(pt[0]) && page < 1024 && offset <= 32
    requires IsPath(pt, Settings(fill).hash, sig, AddrOf(page, offset), ga, 25, 0, 100, levels) && |Queued(levels)| < L2C_MSHR_SIZE
    ensures |levels| < L2C_MSHR_SIZE && Strides(levels, AddrOf(page, offset))
  {
    QueuedAtLeast(pt, Settings(fill).hash, sig, AddrOf(page, offset), ga, 25, 0, 100, levels);
    PathStrides(fill, pt, sig, AddrOf(page, offset), ga, 0, 100, levels);
  }

  /** Every level queues something. */
  lemma {:induction false} QueuedAtLeast(pt: seq<PtSet>, hash: bv32 -> nat, sig: bv32, base: nat, ga: nat, thr: nat, depth: nat, conf: nat,
                                         levels: seq<Level>)
    requires TableOk(pt) && IsPath(pt, hash, sig, base, ga, thr, depth, conf, levels)
    ensures |Queued(levels)| >= |levels|
    decreases |levels|
  {
    hide NextSig, Advance, ScanWays;
    if levels != [] {
      var t := pt[hash(sig) % PT_SET];
      var r := ScanWays(t, ga, thr, depth, conf, PT_WAY);
      if r.way < PT_WAY {
        QueuedAtLeast(pt, hash, NextSig(sig, t.delta[r.way]), Advance(base, t.delta[r.way]), ga, thr, depth + 1, r.max, levels[1..]);
      } else {
        QueuedAtLeast(pt, hash, sig, base, ga, thr, depth + 1, r.max, levels[1..]);
      }
    }
  }

  // ---- Training: one page, block after block ----

  /** Before and after the first prefetch into page 0, and after its demand. */
  ghost predicate TrainFilter(f: Filter) {
    && |f.slots| == FILTER_SET && (forall q :: 0 < q < FILTER_SET ==> f.slots[q] == Slot(false, false, 0))
    && ((f.slots[0] == Slot(false, false, 0) && f.meter == Meter(0, 0))
        || (f.slots[0] == Slot(true, false, 1) && f.meter == Meter(0, 1))
        || (f.slots[0] == Slot(true, true, 1) && f.meter == Meter(1, 1)))
  }

  /** After n accesses to the blocks 0 to n - 1 of page 0. */
  ghost predicate Training(s: State, n: nat) {
    && Sound(s) && NoHistory(s.history) && TrainFilter(s.filter)
    && (n <= 2 ==> ZeroSet(s.pt[0])) && (2 < n <= 17 ==> s.pt[0] == OneDelta(n - 3))
    && (forall w :: 0 < w < ST_WAY ==> !s.st.track[w].valid)
    && if n == 0 then !s.st.track[0].valid
       else
         var e := s.st.track[0];
         e.valid && e.tag == 0 && e.lastOffset == n - 1 && (e.sig == 0 <==> n == 1)
  }

  lemma OddSig(sig: bv32)
    ensures NextSig(sig, 1) != 0
  {
    assert SigDelta(1) == 1;
    Odd(sig);
  }

  lemma Odd(sig: bv32)
    ensures ((sig << 3) ^ 1) & 0xFFF != 0
  {
  }

  lemma NoRecall(h: seq<History>, offset: nat, n: nat)
    requires n <= |h| && NoHistory(h)
    ensures Recall(h, offset, n) == (|h|, 0)
    decreases n
  {
    if n > 0 {
      NoRecall(h, offset, n - 1);
    }
  }

  /** The signature table after the first access to a page. */
  lemma TrainFirst(st: SigTable, h: seq<History>, page: nat, offset: nat) returns (l: Learned)
    requires SigTableOk(st) && NoHistory(h) && forall w :: 0 <= w < ST_WAY ==> !st.track[w].valid
    ensures ReadAndUpdate(st, page, offset, h) == Some(l) && l.lastSig == 0 && l.currSig == 0
    ensures l.st.track == st.track[0 := Track(true, PageTag(page), offset, 0)]
  {
    hide LruOrder.Promote;
    NoneTracked(st.track, PageTag(page), 0);
    NoRecall(h, offset, |h|);
    assert FindFree(st.track, 0) == 0;
    l := ReadAndUpdate(st, page, offset, h).value;
  }

  lemma {:induction false} NoneTracked(t: seq<Track>, tag: nat, from: nat)
    requires from <= |t| && forall w :: from <= w < |t| ==> !(t[w].valid && t[w].tag == tag)
    ensures FindPage(t, tag, from) == |t|
    decreases |t| - from
  {
    if from < |t| {
      NoneTracked(t, tag, from + 1);
    }
  }

  lemma TrainNext(st: SigTable, h: seq<History>, n: nat)
    requires SigTableOk(st) && 0 < n && st.track[0].valid && st.track[0].tag == 0 && st.track[0].lastOffset == n - 1
    ensures var e := st.track[0];
      var sig := NextSig(e.sig, 1);
      ReadAndUpdate(st, 0, n, h)
      == Some(Learned(SigTable(st.track[0 := e.(sig := sig, lastOffset := n)], LruOrder.Promote(st.lru, 0)), e.sig, sig, 1))
  {
    hide LruOrder.Promote, NextSig;
    assert FindPage(st.track, 0, 0) == 0;
  }

  /** The learning stages after the signature table. */
  lemma LearnFrom(fill: nat, s: State, addr: nat, l: Learned)
    requires Sound(s) && ReadAndUpdate(s.st, addr / 4096, addr / 64 % 64, s.history) == Some(l)
    ensures var f := Demand(s.filter, Quotient(Settings(fill), addr), Remainder(Settings(fill), addr));
      Learn(Settings(fill), s, addr) ==
        if l.lastSig == 0 then Some(Start(l.st, s.pt, f, l.currSig))
        else if Update(s.pt[0], l.delta).None? then None
        else Some(Start(l.st, s.pt[0 := Update(s.pt[0], l.delta).value], f, l.currSig))
  {
    hide ReadAndUpdate, Update, Demand, Accounted, SppPattern.SetOk, Quotient, Remainder;
  }

  /** What the learning stages make of the next block of the page. */
  ghost predicate Trains(s: State, n: nat, x: Option<Start>)
    requires |s.pt| > 0
  {
    && x.Some? && |s.filter.slots| == FILTER_SET && x.value.filter == Demand(s.filter, 0, 1)
    && |x.value.st.track| == ST_WAY && (forall w :: 0 < w < ST_WAY ==> !x.value.st.track[w].valid)
    && |x.value.pt| > 0 && (if n < 2 then x.value.pt[0] == s.pt[0] else x.value.pt[0] == OneDelta(n - 2))
    && var e := x.value.st.track[0];
    && e.valid && e.tag == 0 && e.lastOffset == n && (e.sig == 0 <==> n == 0)
  }

  lemma TrainLearns(fill: nat, s: State, n: nat)
    requires Training(s, n) && n < 17
    ensures Trains(s, n, Learn(Settings(fill), s, AddrOf(0, n)))
  {
    hide Learn, Training, Trains, AddrOf, Quotient, Remainder;
    if n == 0 {
      UntrainedState(s);
      Located(fill, 0, n);
      TrainLearnsFirst(fill, s, AddrOf(0, n));
    } else {
      TrainLearnsNext(fill, s, n);
    }
  }

  lemma TrainLearnsFirst(fill: nat, s: State, addr: nat)
    requires Sound(s) && NoHistory(s.history) && forall w :: 0 <= w < ST_WAY ==> !s.st.track[w].valid
    requires addr / 4096 == addr / 64 % 64 == Quotient(Settings(fill), addr) == 0 && Remainder(Settings(fill), addr) == 1
    ensures Trains(s, 0, Learn(Settings(fill), s, addr))
  {
    hide Learn, ReadAndUpdate, LruOrder.Promote, Quotient, Remainder;
    var l := TrainFirst(s.st, s.history, addr / 4096, addr / 64 % 64);
    LearnFrom(fill, s, addr, l);
  }

  lemma UntrainedState(s: State)
    requires Training(s, 0)
    ensures Sound(s) && NoHistory(s.history) && forall w :: 0 <= w < ST_WAY ==> !s.st.track[w].valid
  {
  }

  lemma TrainLearnsNext(fill: nat, s: State, n: nat)
    requires Training(s, n) && 0 < n < 17
    ensures Trains(s, n, Learn(Settings(fill), s, AddrOf(0, n)))
  {
    hide NextSig, Demand, Accounted, Learn, TrainFilter, SppPattern.SetOk, ZeroSet, ReadAndUpdate, Update;
    hide LruOrder.Promote, LruOrder.Permutation;
    Located(fill, 0, n);
    if n > 1 {
      TrainUpdates(s, n);
    }
    TrainNext(s.st, s.history, n);
    LearnFrom(fill, s, AddrOf(0, n), ReadAndUpdate(s.st, 0, n, s.history).value);
    OddSig(s.st.track[0].sig);
  }

  lemma TrainUpdates(s: State, n: nat)
    requires Training(s, n) && 2 <= n < 17
    ensures Update(s.pt[0], 1) == Some(OneDelta(n - 2))
  {
    if n == 2 {
      OneDeltaStarts(s.pt[0]);
    } else {
      OneDeltaGrows(n - 3);
    }
  }

  lemma TrainFilterKept(f: Filter, g: Filter)
    requires TrainFilter(f)
    requires var d := Demand(f, 0, 1); g == d || (Passes(d, 0, 1) && g == IssueL2(d, 0, 1))
    ensures TrainFilter(g) && Accuracy(f.meter) <= 100
  {
  }

  lemma TrainStep(fill: nat, s: State, n: nat)
    requires Training(s, n) && n < 17 && fill <= 93
    ensures MayInvoke(Settings(fill), s) && Happens(Settings(fill), s, Touch(fill, s, 0, n))
    ensures var t := Next(Settings(fill), s, Touch(fill, s, 0, n));
      Training(t, n + 1) && (n == 16 ==> t.filter.slots[0].valid)
  {
    hide Learn, Accounted, Happens, Next, Touch, IssueL2, Demand, Passes, Accuracy, MayInvoke, ZeroSet, TrainFilter;
    TrainLearns(fill, s, n);
    var x := Learn(Settings(fill), s, AddrOf(0, n)).value;
    TrainFilterKept(s.filter, x.filter);
    TrainedSet(x.pt[0], n);
    TouchEffect(fill, s, 0, n);
    var t := Next(Settings(fill), s, Touch(fill, s, 0, n));
    TrainFilterKept(s.filter, t.filter);
    if n == 16 {
      LastIssues(x.filter, t.filter);
    }
  }

  lemma TrainedSet(t: PtSet, n: nat)
    requires n <= 16 && if n < 2 then ZeroSet(t) else t == OneDelta(n - 2)
    ensures SingleDelta(t)
  {
  }

  lemma LastIssues(f: Filter, g: Filter)
    requires TrainFilter(f) && TrainFilter(g) && (g == f || g == IssueL2(f, 0, 1)) && (Passes(f, 0, 1) ==> g == IssueL2(f, 0, 1))
    ensures g.slots[0].valid
  {
  }

  ghost predicate OnlyAccesses(events: seq<Event>) { forall i :: 0 <= i < |events| ==> events[i].Access? }

  lemma {:induction false} Train(fill: nat, s: State, n: nat) returns (events: seq<Event>, t: State)
    requires Training(s, n) && n <= 17 && fill <= 93 && (n == 17 ==> s.filter.slots[0].valid)
    ensures Run(Settings(fill), s, events, t) && OnlyAccesses(events) && |events| == 17 - n
    ensures Training(t, 17) && t.filter.slots[0].valid
    decreases 17 - n
  {
    hide Training, Next, Happens, Touch;
    events, t := [], s;
    TrainingSound(s, n);
    if n < 17 {
      TrainStep(fill, s, n);
      var e := Touch(fill, s, 0, n);
      IsAccess(fill, s, 0, n);
      var rest;
      rest, t := Train(fill, Next(Settings(fill), s, e), n + 1);
      events := [e] + rest;
      assert events[1..] == rest;
    }
  }

  lemma TrainingSound(s: State, n: nat)
    requires Training(s, n)
    ensures Sound(s)
  {
  }

  lemma IsAccess(fill: nat, s: State, page: nat, offset: nat)
    requires Sound(s) && MayInvoke(Settings(fill), s)
    ensures Touch(fill, s, page, offset).Access?
  {
  }

  // ---- The first block of one page after the other ----

  /** The trained set, and no page but 0 tracked anywhere but at its first block. */
  ghost predicate Trained(s: State) {
    && Sound(s) && NoHistory(s.history) && s.pt[0] == OneDelta(14)
    && forall w :: 0 <= w < ST_WAY && s.st.track[w].valid ==> s.st.track[w].tag == 0 || s.st.track[w].lastOffset == 0
  }

  lemma TrainingDone(s: State)
    requires Training(s, 17)
    ensures Trained(s)
  {
  }

  /** An access to the first block of a page brings no delta, whether the page is still tracked or not. */
  lemma VisitLearns(fill: nat, s: State, page: nat)
    requires Trained(s) && 0 < page < 1024
    ensures var x := Learn(Settings(fill), s, AddrOf(page, 0));
      && x.Some? && x.value.pt == s.pt && x.value.sig == 0 && x.value.filter == Demand(s.filter, page, 1)
      && |x.value.st.track| == ST_WAY
      && forall w :: 0 <= w < ST_WAY && x.value.st.track[w].valid ==>
           x.value.st.track[w].tag == 0 || x.value.st.track[w].lastOffset == 0
  {
    hide Update, Demand, Accounted, TableOk, LruOrder.Promote, LruOrder.Permutation, NextSig;
    Located(fill, page, 0);
    NoRecall(s.history, 0, |s.history|);
    ReadAndUpdateOk(s.st, page, 0, s.history);
  }

  lemma Visit(fill: nat, s: State, page: nat)
    requires Trained(s) && Accuracy(s.filter.meter) <= 103 && 0 < page < 1024 && fill <= 93
    ensures MayInvoke(Settings(fill), s) && Happens(Settings(fill), s, Touch(fill, s, page, 0))
    ensures var t, f := Next(Settings(fill), s, Touch(fill, s, page, 0)), Demand(s.filter, page, 1);
      Trained(t) && t.filter == if Passes(f, page, 1) then IssueL2(f, page, 1) else f
  {
    hide Learn, Accounted, Happens, Next, Touch, IssueL2, Demand, Passes, Accuracy, MayInvoke, SppPattern.SetOk;
    VisitLearns(fill, s, page);
    TrainedSet(s.pt[0], 16);
    TouchEffect(fill, s, page, 0);
  }

  /** Pages 1 to k have an unused prefetch each; the counters are halved at the last. */
  ghost predicate Prefetched(f: Filter, k: nat, u: nat) {
    && |f.slots| == FILTER_SET && k < FILTER_SET && u <= 1
    && (forall q :: 0 < q <= k ==> f.slots[q] == Slot(true, false, 1))
    && (forall q :: k < q < FILTER_SET ==> f.slots[q] == Slot(false, false, 0))
    && f.meter == if k == GLOBAL_COUNTER_MAX then Meter(0, 512) else Meter(u, k + 1)
  }

  /** Of these, the first k have been demanded. */
  ghost predicate Demanded(f: Filter, k: nat) {
    && |f.slots| == FILTER_SET && f.meter == Meter(k, 512)
    && (forall q :: 0 < q < FILTER_SET ==> f.slots[q] == Slot(true, q <= k, 1))
  }

  lemma PrefetchStep(f: Filter, k: nat, u: nat)
    requires Prefetched(f, k, u) && k < GLOBAL_COUNTER_MAX
    ensures Accuracy(f.meter) <= 100
    ensures var d := Demand(f, k + 1, 1); Passes(d, k + 1, 1) && Prefetched(IssueL2(d, k + 1, 1), k + 1, u)
  {
    PercentageExactlyWhen(f.meter);
  }

  lemma DemandStep(f: Filter, k: nat)
    requires Demanded(f, k) && k < 533
    ensures Accuracy(f.meter) <= 103
    ensures var d := Demand(f, k + 1, 1); !Passes(d, k + 1, 1) && Demanded(d, k + 1)
  {
  }

  lemma {:induction false} PrefetchAll(fill: nat, s: State, k: nat, u: nat) returns (events: seq<Event>, t: State)
    requires Trained(s) && Prefetched(s.filter, k, u) && fill <= 93
    ensures Run(Settings(fill), s, events, t) && OnlyAccesses(events) && |events| == GLOBAL_COUNTER_MAX - k
    ensures Trained(t) && Demanded(t.filter, 0)
    decreases GLOBAL_COUNTER_MAX - k
  {
    hide Trained, Next, Happens, Touch, Demand, IssueL2, Passes, Accuracy;
    events, t := [], s;
    TrainedSound(s);
    if k < GLOBAL_COUNTER_MAX {
      PrefetchStep(s.filter, k, u);
      Visit(fill, s, k + 1);
      var e := Touch(fill, s, k + 1, 0);
      IsAccess(fill, s, k + 1, 0);
      var rest;
      rest, t := PrefetchAll(fill, Next(Settings(fill), s, e), k + 1, u);
      events := [e] + rest;
      assert events[1..] == rest;
    }
  }

  lemma TrainedSound(s: State)
    requires Trained(s)
    ensures Sound(s) && |s.filter.slots| == FILTER_SET
  {
  }

  lemma {:induction false} DemandMany(fill: nat, s: State, k: nat) returns (events: seq<Event>, t: State)
    requires Trained(s) && Demanded(s.filter, k) && k <= 533 && fill <= 93
    ensures Run(Settings(fill), s, events, t) && OnlyAccesses(events) && |events| == 533 - k
    ensures Trained(t) && Demanded(t.filter, 533)
    decreases 533 - k
  {
    hide Trained, Next, Happens, Touch, Demand, IssueL2, Passes, Accuracy;
    events, t := [], s;
    TrainedSound(s);
    if k < 533 {
      DemandStep(s.filter, k);
      Visit(fill, s, k + 1);
      var e := Touch(fill, s, k + 1, 0);
      IsAccess(fill, s, k + 1, 0);
      var rest;
      rest, t := DemandMany(fill, Next(Settings(fill), s, e), k + 1);
      events := [e] + rest;
      assert events[1..] == rest;
    }
  }

  lemma {:induction false} RunThen(p: Params, s: State, one: seq<Event>, t: State, two: seq<Event>, u: State)
    requires Run(p, s, one, t) && Run(p, t, two, u)
    ensures Run(p, s, one + two, u)
    decreases |one|
  {
    hide Next, Happens, Sound;
    if |one| == 0 {
      assert one + two == two;
    } else {
      RunThen(p, Next(p, s, one[0]), one[1..], t, two, u);
      assert (one + two)[1..] == one[1..] + two;
    }
  }

  // ---- The overrun ----

  /** The next invocation passes its learning stages, and its loop ends after queueing more candidates than
      the arrays hold: it has written past them. */
  ghost predicate Overruns(p: Params, s: State, addr: nat)
    requires Sound(s)
  {
    && Learn(p, s, addr).Some?
    && var x := Learn(p, s, addr).value;
    exists levels ::
      && IsPath(x.pt, p.hash, x.sig, addr, Accuracy(s.filter.meter), p.pfThreshold, 0, 100, levels)
      && |Queued(levels)| > L2C_MSHR_SIZE
  }

  lemma VisitOverruns(fill: nat, s: State, page: nat)
    requires Trained(s) && Accuracy(s.filter.meter) == 104 && 0 < page < 1024
    ensures Overruns(Settings(fill), s, AddrOf(page, 0))
  {
    hide Learn, Accounted, IsPath, Lookahead, Straight, Accuracy;
    var p, addr := Settings(fill), AddrOf(page, 0);
    VisitLearns(fill, s, page);
    var x := Learn(p, s, addr).value;
    var levels := Lookahead(x.pt, p.hash, x.sig, addr, 104, 25, 0, 100);
    LookaheadIsPath(x.pt, p.hash, x.sig, addr, 104, 25, 0, 100);
    assert Hot(OneDelta(14), 14);
    assert TopShare(104) == 97;
    StraightQueues(x.pt, OneDelta(14), p.hash, x.sig, addr, 104, 25, levels);
    StraightAt97();
  }

  /** From every initial state, 1573 accesses that each return lead to an accuracy of 104, where the next
      access to any of the pages overruns the candidate queues: at the default threshold of 25, for every
      fill threshold up to 93. */
  lemma OrdinaryAccessesOverrun(fill: nat, s: State)
    requires IsInitial(s) && fill <= 93
    ensures Sound(s)
    ensures exists events, t ::
      && Run(Settings(fill), s, events, t) && OnlyAccesses(events) && |events| == 1573
      && Sound(t) && Accuracy(t.filter.meter) == 104
      && forall page: nat | 0 < page < 1024 :: Overruns(Settings(fill), t, AddrOf(page, 0))
  {
    hide Run, Overruns, Training, Trained;
    InitialOk(s);
    StartsTraining(s);
    var one, t := Train(fill, s, 0);
    TrainingDone(t);
    var u := StartsPrefetching(t);
    var two, v := PrefetchAll(fill, t, 0, u);
    var three, w := DemandMany(fill, v, 0);
    RunThen(Settings(fill), s, one, t, two, v);
    RunThen(Settings(fill), s, one + two, v, three, w);
    TrainedSound(w);
    assert Accuracy(w.filter.meter) == 104;
    forall page: nat | 0 < page < 1024 ensures Overruns(Settings(fill), w, AddrOf(page, 0)) {
      VisitOverruns(fill, w, page);
    }
  }

  lemma StartsTraining(s: State)
    requires IsInitial(s) && Sound(s)
    ensures Training(s, 0)
  {
  }

  lemma StartsPrefetching(s: State) returns (u: nat)
    requires Training(s, 17) && s.filter.slots[0].valid
    ensures Prefetched(s.filter, 0, u)
  {
    u := s.filter.meter.useful;
  }
}
