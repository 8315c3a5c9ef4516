/** One invocation of the SPP prefetcher, and whole runs of it (prefetcher/spp_dev2.cc,
    prefetcher/spp_dev2_helper.cc). */
module Spp {
  import opened Counting
  import LruOrder
  import opened SppSignature
  import opened SppPattern
  import opened SppFilter

  const ST_WAY := 256
  const MAX_GHR_ENTRY := 8
  const FILL_L2 := 2
  const FILL_LLC := 4

  // ---- Signature table ----

  datatype Track = Track(valid: bool, tag: nat, lastOffset: int, sig: bv32)

  datatype SigTable = SigTable(track: seq<Track>, lru: seq<nat>)

  /** First way from `from` on tracking the page, or ST_WAY. */
  function FindPage(t: seq<Track>, tag: nat, from: nat): (w: nat)
    requires from <= |t|
    ensures from <= w <= |t|
    ensures w < |t| ==> t[w].valid && t[w].tag == tag
    decreases |t| - from
  {
    if from == |t| || (t[from].valid && t[from].tag == tag) then from else FindPage(t, tag, from + 1)
  }

  function FindFree(t: seq<Track>, from: nat): (w: nat)
    requires from <= |t|
    ensures from <= w <= |t|
    decreases |t| - from
  {
    if from == |t| || !t[from].valid then from else FindFree(t, from + 1)
  }

  function FindOldest(lru: seq<nat>, from: nat): (w: nat)
    requires from <= |lru|
    ensures from <= w <= |lru|
    ensures forall i :: from <= i < w ==> lru[i] != |lru| - 1
    decreases |lru| - from
  {
    if from == |lru| || lru[from] == |lru| - 1 then from else FindOldest(lru, from + 1)
  }

  // ---- Global history register ----

  datatype History = History(valid: bool, sig: bv32, conf: nat, offset: nat, delta: int)

  /** update_entry looks for the offset and for the least confidence below 100 in one scan. */
  function FindOffset(h: seq<History>, offset: nat, from: nat): (i: nat)
    requires from <= |h|
    ensures from <= i <= |h|
    decreases |h| - from
  {
    if from == |h| || (h[from].valid && h[from].offset == offset) then from else FindOffset(h, offset, from + 1)
  }

  function LeastConf(h: seq<History>, n: nat): (nat, nat)
    requires n <= |h|
  {
    if n == 0 then (|h|, 100)
    else
      var (v, m) := LeastConf(h, n - 1);
      if h[n - 1].conf < m then (n - 1, h[n - 1].conf) else (v, m)
  }

  /** update_entry; None is its "cannot find a replacement victim" assert. */
  function Remember(h: seq<History>, sig: bv32, conf: nat, offset: nat, delta: int): Option<seq<History>> {
    var i := FindOffset(h, offset, 0);
    if i < |h| then Some(h[i := h[i].(sig := sig, conf := conf, delta := delta)])
    else
      var v := LeastConf(h, |h|).0;
      if v >= |h| then None else Some(h[v := History(true, sig, conf, offset, delta)])
  }

  /** check_entry over the first n entries: the most confident one with the offset, if any. */
  function Recall(h: seq<History>, offset: nat, n: nat): (nat, nat)
    requires n <= |h|
    ensures Recall(h, offset, n).0 <= |h|
  {
    if n == 0 then (|h|, 0)
    else
      var (i, m) := Recall(h, offset, n - 1);
      if h[n - 1].offset == offset && m < h[n - 1].conf then (n - 1, h[n - 1].conf) else (i, m)
  }

  // ---- read_and_update_sig ----

  datatype Learned = Learned(st: SigTable, lastSig: bv32, currSig: bv32, delta: int)

  function PageTag(page: nat): nat { page % 65536 }

  /** None is the "cannot find a replacement victim" assert. */
  function ReadAndUpdate(st: SigTable, page: nat, offset: nat, h: seq<History>): Option<Learned>
    requires |st.lru| == |st.track|
  {
    var tag := PageTag(page);
    var hit := FindPage(st.track, tag, 0);
    if hit < |st.track| then
      var e := st.track[hit];
      var delta := offset - e.lastOffset;
      if delta != 0 then
        var sig := NextSig(e.sig, delta);
        Some(Learned(SigTable(st.track[hit := e.(sig := sig, lastOffset := offset)], LruOrder.Promote(st.lru, hit)),
                     e.sig, sig, delta))
      else
        Some(Learned(SigTable(st.track, LruOrder.Promote(st.lru, hit)), 0, 0, 0))
    else
      var free := FindFree(st.track, 0);
      var way := if free < |st.track| then free else FindOldest(st.lru, 0);
      if way >= |st.track| then None
      else
        // a new page may start from a signature that crossed into it
        var i := Recall(h, offset, |h|).0;
        var sig := if i < |h| then NextSig(h[i].sig, h[i].delta) else 0;
        Some(Learned(SigTable(st.track[way := Track(true, tag, offset, sig)], LruOrder.Promote(st.lru, way)), 0, sig, 0))
  }

  /** A nonzero last signature always comes with a nonzero delta. */
  lemma LastSigMeansDelta(st: SigTable, page: nat, offset: nat, h: seq<History>)
    requires |st.lru| == |st.track| && ReadAndUpdate(st, page, offset, h).Some?
    ensures var l := ReadAndUpdate(st, page, offset, h).value; l.lastSig != 0 ==> l.delta != 0
  {
  }

  // ---- The prefetcher ----

  datatype State = State(st: SigTable, pt: seq<PtSet>, filter: Filter, history: seq<History>)

  /** A call of prefetch_line. */
  datatype Prefetch = Prefetch(addr: nat, level: int)

  datatype Params = Params(hash: bv32 -> nat, lineHash: nat -> nat, pfThreshold: nat, fillThreshold: nat)

  function Quotient(p: Params, addr: nat): (q: nat)
    ensures q < FILTER_SET
  {
    p.lineHash(addr / 64) / 64 % FILTER_SET
  }

  function Remainder(p: Params, addr: nat): nat {
    p.lineHash(addr / 64) % 64
  }

  /** What the candidates change: the filter, the history and the list of issued prefetches. */
  datatype Issue = Issue(filter: Filter, history: seq<History>, issued: seq<Prefetch>)

  function TargetOf(base: nat, delta: int): (a: nat)
  {
    (base - base % 64 + delta * 64) % 0x1_0000_0000_0000_0000
  }

  /** One candidate: inside the page it is filtered and issued, across it is remembered. */
  function IssueOne(p: Params, x: Issue, addr: nat, sig: bv32, base: nat, c: Candidate): Option<Issue>
    requires |x.filter.slots| == FILTER_SET
  {
    var target := TargetOf(base, c.delta);
    if addr / 4096 == target / 4096 then
      var q, r := Quotient(p, target), Remainder(p, target);
      if !Passes(x.filter, q, r) then Some(x)
      else if c.conf >= p.fillThreshold then
        Some(Issue(IssueL2(x.filter, q, r), x.history, x.issued + [Prefetch(target, FILL_L2)]))
      else
        Some(Issue(x.filter, x.history, x.issued + [Prefetch(target, FILL_LLC)]))
    else
      var h := Remember(x.history, sig, c.conf, target / 64 % 64, c.delta);
      if h.None? then None else Some(Issue(x.filter, h.value, x.issued))
  }

  function IssueQueue(p: Params, x: Issue, addr: nat, l: Level, n: nat): (r: Option<Issue>)
    requires |x.filter.slots| == FILTER_SET && n <= |l.queue|
    ensures r.Some? ==> |r.value.filter.slots| == FILTER_SET
  {
    if n == 0 then Some(x)
    else
      var y := IssueQueue(p, x, addr, l, n - 1);
      if y.None? then None else IssueOne(p, y.value, addr, l.sig, l.base, l.queue[n - 1])
  }

  function IssueLevels(p: Params, x: Issue, addr: nat, levels: seq<Level>): (r: Option<Issue>)
    requires |x.filter.slots| == FILTER_SET
    ensures r.Some? ==> |r.value.filter.slots| == FILTER_SET
    decreases |levels|
  {
    if |levels| == 0 then Some(x)
    else
      var y := IssueQueue(p, x, addr, levels[0], |levels[0].queue|);
      if y.None? then None else IssueLevels(p, y.value, addr, levels[1..])
  }

  ghost predicate SigTableOk(st: SigTable) {
    |st.track| == ST_WAY && |st.lru| == ST_WAY && LruOrder.Permutation(st.lru)
  }

  /** What every run keeps, whatever the accuracy. */
  ghost predicate Sound(s: State) {
    SigTableOk(s.st) && TableOk(s.pt) && Accounted(s.filter) && |s.history| == MAX_GHR_ENTRY
  }

  // ---- invoke_prefetcher ----

  /** What the first two stages leave: the two tables, the filter, and the signature to start from. */
  datatype Start = Start(st: SigTable, pt: seq<PtSet>, filter: Filter, sig: bv32)

  /** Stages 1 and 2 of invoke_prefetcher; None is a failed assert. */
  function Learn(p: Params, s: State, addr: nat): (r: Option<Start>)
    requires Sound(s)
    ensures r.Some? ==> TableOk(r.value.pt) && |r.value.filter.slots| == FILTER_SET
  {
    var learned := ReadAndUpdate(s.st, addr / 4096, addr / 64 % 64, s.history);
    if learned.None? then None else
    var l := learned.value;
    var filter := Demand(s.filter, Quotient(p, addr), Remainder(p, addr));
    if l.lastSig == 0 then Some(Start(l.st, s.pt, filter, l.currSig)) else
    var k := p.hash(l.lastSig) % PT_SET;
    var updated := Update(s.pt[k], l.delta);
    if updated.None? then None else
    LastSigMeansDelta(s.st, addr / 4096, addr / 64 % 64, s.history);
    UpdateOk(s.pt[k], l.delta);
    Some(Start(l.st, s.pt[k := updated.value], filter, l.currSig))
  }

  /** Stage 3 along a given path of the lookahead loop. */
  function IssueAlong(p: Params, x: Start, history: seq<History>, addr: nat, levels: seq<Level>): Option<(State, seq<Prefetch>)>
    requires |x.filter.slots| == FILTER_SET
  {
    var y := IssueLevels(p, Issue(x.filter, history, []), addr, levels);
    if y.None? then None else Some((State(x.st, x.pt, y.value.filter, y.value.history), y.value.issued))
  }

  /** invoke_prefetcher whose loop visits `levels`. */
  function InvokeAlong(p: Params, s: State, addr: nat, levels: seq<Level>): Option<(State, seq<Prefetch>)>
    requires Sound(s)
  {
    var x := Learn(p, s, addr);
    if x.None? then None else IssueAlong(p, x.value, s.history, addr, levels)
  }

  /** `levels` is what the loop visits, pf_q_tail stays below the size of the candidate queues, and no
      assert fails: the invocation returns. Nothing is asked of the accuracy or of the threshold. */
  ghost predicate Returns(p: Params, s: State, addr: nat, levels: seq<Level>)
    requires Sound(s)
  {
    && Learn(p, s, addr).Some?
    && var x := Learn(p, s, addr).value;
    && IsPath(x.pt, p.hash, x.sig, addr, Accuracy(s.filter.meter), p.pfThreshold, 0, 100, levels)
    && |Queued(levels)| < L2C_MSHR_SIZE
    && InvokeAlong(p, s, addr, levels).Some?
  }

  // ---- The lookahead loop, one round at a time ----

  /** What the rest of the lookahead will do, from the top of the loop: visit `levels`, which leaves the
      candidate queues below their end, and reach `goal`. */
  ghost predicate Remaining(p: Params, pt: seq<PtSet>, x: Issue, goal: Issue, addr: nat, sig: bv32, base: nat,
                            ga: nat, depth: nat, conf: nat, tail: nat, levels: seq<Level>)
    requires TableOk(pt) && |x.filter.slots| == FILTER_SET
  {
    && IsPath(pt, p.hash, sig, base, ga, p.pfThreshold, depth, conf, levels)
    && IssueLevels(p, x, addr, levels) == Some(goal)
    && tail + |Queued(levels)| < L2C_MSHR_SIZE
  }

  /** The signature and the base address follow the best way, if there is one. */
  function FollowSig(t: PtSet, sig: bv32, way: nat): bv32
    requires |t.delta| == PT_WAY
  {
    if way < PT_WAY then NextSig(sig, t.delta[way]) else sig
  }

  function FollowBase(t: PtSet, base: nat, way: nat): nat
    requires |t.delta| == PT_WAY
  {
    if way < PT_WAY then Advance(base, t.delta[way]) else base
  }

  /** Unfolding the lookahead by one level. */
  lemma OneLevel(p: Params, pt: seq<PtSet>, x: Issue, goal: Issue, addr: nat, sig: bv32, base: nat, ga: nat, depth: nat, conf: nat,
                 tail: nat, levels: seq<Level>)
    requires TableOk(pt) && |x.filter.slots| == FILTER_SET
    requires Remaining(p, pt, x, goal, addr, sig, base, ga, depth, conf, tail, levels)
    ensures var t := pt[p.hash(sig) % PT_SET];
      if t.cSig == 0 then levels == [] && goal == x
      else
        var r := ScanWays(t, ga, p.pfThreshold, depth, conf, PT_WAY);
        && tail + |r.queue| < L2C_MSHR_SIZE
        && (forall i :: 0 <= i < |r.queue| ==> p.pfThreshold <= r.queue[i].conf)
        && (r.queue == [] ==> levels == [] && goal == x)
        && var y := IssueQueue(p, x, addr, Level(sig, base, r.queue), |r.queue|);
        && y.Some?
        && (r.queue != [] ==> levels != [] && p.pfThreshold <= r.max)
        && (r.queue != [] ==> Remaining(p, pt, y.value, goal, addr, FollowSig(t, sig, r.way), FollowBase(t, base, r.way),
                                        ga, depth + 1, r.max, tail + |r.queue|, levels[1..]))
  {
    hide NextSig, Advance, ScanWays, Accounted, IssueOne;
    var t := pt[p.hash(sig) % PT_SET];
    if t.cSig > 0 {
      var r := ScanWays(t, ga, p.pfThreshold, depth, conf, PT_WAY);
      ScanFinds(t, ga, p.pfThreshold, depth, conf, PT_WAY);
      if r.queue != [] {
        assert p.pfThreshold <= r.queue[0].conf <= r.max;
        assert levels[0] == Level(sig, base, r.queue);
      }
    }
  }

  lemma NothingQueued(p: Params, x: Issue, addr: nat, l: Level)
    requires |x.filter.slots| == FILTER_SET && l.queue == []
    ensures IssueQueue(p, x, addr, l, 0) == Some(x)
  {
  }

  lemma TailBelow(p: Params, pt: seq<PtSet>, x: Issue, goal: Issue, addr: nat, sig: bv32, base: nat, ga: nat, depth: nat, conf: nat,
                  tail: nat, levels: seq<Level>)
    requires TableOk(pt) && |x.filter.slots| == FILTER_SET
    requires Remaining(p, pt, x, goal, addr, sig, base, ga, depth, conf, tail, levels)
    ensures tail < L2C_MSHR_SIZE
  {
  }

  /** A queue issued without a failed assert is issued candidate by candidate without one. */
  lemma {:induction false} IssuePrefix(p: Params, x: Issue, addr: nat, l: Level, n: nat, m: nat)
    requires |x.filter.slots| == FILTER_SET && n <= m <= |l.queue| && IssueQueue(p, x, addr, l, m).Some?
    ensures IssueQueue(p, x, addr, l, n).Some?
    decreases m
  {
    if n < m {
      IssuePrefix(p, x, addr, l, n, m - 1);
    }
  }

  /** cache_fill: the evicted line leaves the filter. */
  function CacheFill(p: Params, s: State, evicted: nat): State
    requires |s.filter.slots| == FILTER_SET
  {
    s.(filter := Evict(s.filter, Quotient(p, evicted)))
  }

  lemma TableUpdateOk(pt: seq<PtSet>, s: nat, delta: int, lastSig: bv32)
    requires TableOk(pt) && s < PT_SET && (lastSig != 0 ==> delta != 0)
    ensures lastSig != 0 ==> Update(pt[s], delta).Some? && TableOk(pt[s := Update(pt[s], delta).value])
  {
    if lastSig != 0 {
      UpdateOk(pt[s], delta);
    }
  }

  // ---- What the learning stages keep ----

  lemma ReadAndUpdateOk(st: SigTable, page: nat, offset: nat, h: seq<History>)
    requires SigTableOk(st)
    ensures var l := ReadAndUpdate(st, page, offset, h); l.Some? && SigTableOk(l.value.st)
  {
    LruOrder.PromoteKeepsPermutation(st.lru, 0);
    var oldest := FindOldest(st.lru, 0);
    assert oldest < ST_WAY;
    forall w | 0 <= w < ST_WAY ensures LruOrder.Permutation(LruOrder.Promote(st.lru, w)) {
      LruOrder.PromoteKeepsPermutation(st.lru, w);
    }
  }

  /** Both "cannot find a replacement victim" asserts of the learning stages are unreachable. */
  lemma LearnOk(p: Params, s: State, addr: nat)
    requires Sound(s)
    ensures var x := Learn(p, s, addr);
      && x.Some? && SigTableOk(x.value.st) && TableOk(x.value.pt) && Accounted(x.value.filter)
      && x.value.filter == Demand(s.filter, Quotient(p, addr), Remainder(p, addr))
  {
    hide ReadAndUpdate, Update, Demand;
    ReadAndUpdateOk(s.st, addr / 4096, addr / 64 % 64, s.history);
    LastSigMeansDelta(s.st, addr / 4096, addr / 64 % 64, s.history);
    var l := ReadAndUpdate(s.st, addr / 4096, addr / 64 % 64, s.history).value;
    TableUpdateOk(s.pt, p.hash(l.lastSig) % PT_SET, l.delta, l.lastSig);
    DemandAccounted(s.filter, Quotient(p, addr), Remainder(p, addr));
  }

  // ---- The history register ----

  /** Every remembered confidence is below 100, so a victim for the next one exists. */
  ghost predicate HistoryOk(h: seq<History>) {
    |h| == MAX_GHR_ENTRY && forall i :: 0 <= i < |h| ==> h[i].conf <= 93
  }

  lemma {:induction false} LeastConfFound(h: seq<History>, n: nat)
    requires 0 < n <= |h| && forall i :: 0 <= i < |h| ==> h[i].conf <= 93
    ensures LeastConf(h, n).0 < n && LeastConf(h, n).1 <= 93
  {
    if n > 1 {
      LeastConfFound(h, n - 1);
    }
  }

  lemma RememberOk(h: seq<History>, sig: bv32, conf: nat, offset: nat, delta: int)
    requires HistoryOk(h) && conf <= 93
    ensures var r := Remember(h, sig, conf, offset, delta); r.Some? && HistoryOk(r.value)
  {
    LeastConfFound(h, |h|);
  }

  lemma RememberLength(h: seq<History>, sig: bv32, conf: nat, offset: nat, delta: int)
    ensures var r := Remember(h, sig, conf, offset, delta); r.Some? ==> |r.value| == |h|
  {
  }

  // ---- What issuing keeps ----

  /** Prefetches stay in the page of the access. */
  ghost predicate InPage(issued: seq<Prefetch>, addr: nat) {
    forall i :: 0 <= i < |issued| ==> issued[i].addr / 4096 == addr / 4096
  }

  ghost predicate IssueOk(x: Issue, addr: nat) {
    Accounted(x.filter) && |x.history| == MAX_GHR_ENTRY && InPage(x.issued, addr)
  }

  function IsL2(): Prefetch -> bool { (f: Prefetch) => f.level == FILL_L2 }

  /** At most `n` more prefetches are issued. The counter follows those into the L2, falls behind when
      it is halved, and as long as it does not fall behind the accounting stays exact. */
  ghost predicate Grows(x: Issue, y: Issue, n: nat) {
    && |y.issued| <= |x.issued| + n
    && Count(x.issued, IsL2()) <= Count(y.issued, IsL2())
    && Follows(x.filter, y.filter, Count(y.issued, IsL2()) - Count(x.issued, IsL2()))
  }

  ghost predicate Follows(f: Filter, g: Filter, n: nat) {
    && g.meter.issued <= f.meter.issued + n
    && (g.meter.issued == f.meter.issued + n && Exact(f) ==> Exact(g))
  }

  lemma IssueOneKeeps(p: Params, x: Issue, addr: nat, sig: bv32, base: nat, c: Candidate)
    requires IssueOk(x, addr) && IssueOne(p, x, addr, sig, base, c).Some?
    ensures var y := IssueOne(p, x, addr, sig, base, c).value; IssueOk(y, addr) && Grows(x, y, 1)
  {
    hide Remember;
    var target := TargetOf(base, c.delta);
    IssueAccounted(x.filter, Quotient(p, target), Remainder(p, target));
    RememberLength(x.history, sig, c.conf, target / 64 % 64, c.delta);
    CountAppend(x.issued, Prefetch(target, FILL_L2), IsL2());
    CountAppend(x.issued, Prefetch(target, FILL_LLC), IsL2());
  }

  lemma {:induction false} IssueQueueKeeps(p: Params, x: Issue, addr: nat, l: Level, n: nat)
    requires IssueOk(x, addr) && n <= |l.queue| && IssueQueue(p, x, addr, l, n).Some?
    ensures var y := IssueQueue(p, x, addr, l, n).value; IssueOk(y, addr) && Grows(x, y, n)
  {
    hide IssueOne;
    if n > 0 {
      IssueQueueKeeps(p, x, addr, l, n - 1);
      IssueOneKeeps(p, IssueQueue(p, x, addr, l, n - 1).value, addr, l.sig, l.base, l.queue[n - 1]);
    }
  }

  lemma {:induction false} IssueLevelsKeep(p: Params, x: Issue, addr: nat, levels: seq<Level>)
    requires IssueOk(x, addr) && IssueLevels(p, x, addr, levels).Some?
    ensures var y := IssueLevels(p, x, addr, levels).value; IssueOk(y, addr) && Grows(x, y, |Queued(levels)|)
    decreases |levels|
  {
    hide IssueQueue;
    if |levels| > 0 {
      var n := |levels[0].queue|;
      IssueQueueKeeps(p, x, addr, levels[0], n);
      IssueLevelsKeep(p, IssueQueue(p, x, addr, levels[0], n).value, addr, levels[1..]);
    }
  }

  /** Every invocation that returns, whatever the accuracy and the threshold, keeps the tables and the
      accounting, and issues no more prefetches than it queued, none outside the page. */
  lemma InvokeKeeps(p: Params, s: State, addr: nat, levels: seq<Level>)
    requires Sound(s) && Returns(p, s, addr, levels)
    ensures var r := InvokeAlong(p, s, addr, levels).value;
      && Sound(r.0) && InPage(r.1, addr) && |r.1| <= |Queued(levels)|
      && Follows(s.filter, r.0.filter, Count(r.1, IsL2()))
  {
    hide Learn, IssueLevels, Demand, Unused, IsPath, Queued;
    LearnOk(p, s, addr);
    var x := Learn(p, s, addr).value;
    DemandAccounted(s.filter, Quotient(p, addr), Remainder(p, addr));
    IssueLevelsKeep(p, Issue(x.filter, s.history, []), addr, levels);
  }

  // ---- Accuracies that make the path lose confidence ----

  lemma IssueOneOk(p: Params, x: Issue, addr: nat, sig: bv32, base: nat, c: Candidate)
    requires |x.filter.slots| == FILTER_SET && HistoryOk(x.history) && c.conf <= 93
    ensures var y := IssueOne(p, x, addr, sig, base, c); y.Some? && HistoryOk(y.value.history)
  {
    RememberOk(x.history, sig, c.conf, TargetOf(base, c.delta) / 64 % 64, c.delta);
  }

  lemma {:induction false} IssueQueueOk(p: Params, x: Issue, addr: nat, l: Level, n: nat)
    requires |x.filter.slots| == FILTER_SET && HistoryOk(x.history) && n <= |l.queue|
    requires forall i :: 0 <= i < |l.queue| ==> l.queue[i].conf <= 93
    ensures var y := IssueQueue(p, x, addr, l, n); y.Some? && HistoryOk(y.value.history)
  {
    hide IssueOne;
    if n > 0 {
      IssueQueueOk(p, x, addr, l, n - 1);
      IssueOneOk(p, IssueQueue(p, x, addr, l, n - 1).value, addr, l.sig, l.base, l.queue[n - 1]);
    }
  }

  lemma {:induction false} IssueLevelsOk(p: Params, x: Issue, addr: nat, levels: seq<Level>)
    requires |x.filter.slots| == FILTER_SET && HistoryOk(x.history)
    requires forall k, i | 0 <= k < |levels| && 0 <= i < |levels[k].queue| :: levels[k].queue[i].conf <= 93
    ensures var y := IssueLevels(p, x, addr, levels); y.Some? && HistoryOk(y.value.history)
    decreases |levels|
  {
    hide IssueQueue;
    if |levels| > 0 {
      var n := |levels[0].queue|;
      IssueQueueOk(p, x, addr, levels[0], n);
      IssueLevelsOk(p, IssueQueue(p, x, addr, levels[0], n).value, addr, levels[1..]);
    }
  }

  /** A threshold of at least 7 and an accuracy at which the candidate queues hold: 103 at threshold 25
      (SppPattern.HoldsAt25). */
  ghost predicate MayInvoke(p: Params, s: State) {
    SIBLING_COST <= p.pfThreshold && QueuesHold(Accuracy(s.filter.meter), p.pfThreshold)
  }

  /** The path of an invocation that may be made. */
  function PathOf(p: Params, s: State, addr: nat): seq<Level>
    requires Sound(s) && MayInvoke(p, s)
  {
    var x := Learn(p, s, addr);
    if x.None? then []
    else Lookahead(x.value.pt, p.hash, x.value.sig, addr, Accuracy(s.filter.meter), p.pfThreshold, 0, 100)
  }

  /** Such an invocation terminates, keeps within its queues and fails no assert. */
  lemma InvokeOk(p: Params, s: State, addr: nat)
    requires Sound(s) && HistoryOk(s.history) && MayInvoke(p, s)
    ensures var levels := PathOf(p, s, addr);
      && Returns(p, s, addr, levels)
      && HistoryOk(InvokeAlong(p, s, addr, levels).value.0.history)
  {
    hide Learn, Demand, Lookahead, IssueLevels, Queued, Accuracy, IsPath, Accounted;
    var ga := Accuracy(s.filter.meter);
    LearnOk(p, s, addr);
    var x := Learn(p, s, addr).value;
    var levels := Lookahead(x.pt, p.hash, x.sig, addr, ga, p.pfThreshold, 0, 100);
    LookaheadIsPath(x.pt, p.hash, x.sig, addr, ga, p.pfThreshold, 0, 100);
    forall k, i | 0 <= k < |levels| && 0 <= i < |levels[k].queue| ensures levels[k].queue[i].conf <= 93 {
      CandidatesBelow94(x.pt, p.hash, x.sig, addr, ga, p.pfThreshold, 0, 100, k, i);
    }
    IssueLevelsOk(p, Issue(x.filter, s.history, []), addr, levels);
    QueueIsBounded(x.pt, p.hash, x.sig, addr, ga, p.pfThreshold);
  }

  // ---- Runs ----

  /** An access carries the path its lookahead takes. */
  datatype Event = Access(addr: nat, levels: seq<Level>) | Fill(evicted: nat)

  /** The event can happen: an access returns. */
  ghost predicate Happens(p: Params, s: State, e: Event)
    requires Sound(s)
  {
    match e
    case Access(addr, levels) => Returns(p, s, addr, levels)
    case Fill(_) => true
  }

  function Next(p: Params, s: State, e: Event): State
    requires Sound(s) && Happens(p, s, e)
  {
    match e
    case Access(addr, levels) => InvokeAlong(p, s, addr, levels).value.0
    case Fill(evicted) => CacheFill(p, s, evicted)
  }

  /** How many prefetches into the L2 the event issues. */
  function IssuedL2(p: Params, s: State, e: Event): nat
    requires Sound(s) && Happens(p, s, e)
  {
    match e
    case Access(addr, levels) => Count(InvokeAlong(p, s, addr, levels).value.1, IsL2())
    case Fill(_) => 0
  }

  lemma NextKeeps(p: Params, s: State, e: Event)
    requires Sound(s) && Happens(p, s, e)
    ensures Sound(Next(p, s, e)) && Follows(s.filter, Next(p, s, e).filter, IssuedL2(p, s, e))
  {
    match e
    case Access(addr, levels) =>
      hide InvokeAlong, Returns, Exact, Accounted;
      InvokeKeeps(p, s, addr, levels);
    case Fill(evicted) => EvictAccounted(s.filter, Quotient(p, evicted));
  }

  /** `events` lead from `s` to `t`. */
  ghost predicate Run(p: Params, s: State, events: seq<Event>, t: State)
    decreases |events|
  {
    if |events| == 0 then s == t
    else Sound(s) && Happens(p, s, events[0]) && Run(p, Next(p, s, events[0]), events[1..], t)
  }

  ghost predicate IsInitial(s: State) {
    && |s.st.track| == ST_WAY && |s.st.lru| == ST_WAY
    && (forall w :: 0 <= w < ST_WAY ==> !s.st.track[w].valid && s.st.lru[w] == w)
    && |s.pt| == PT_SET && (forall k :: 0 <= k < PT_SET ==> ZeroSet(s.pt[k]))
    && IsEmptyFilter(s.filter)
    && |s.history| == MAX_GHR_ENTRY && (forall i :: 0 <= i < |s.history| ==> s.history[i] == History(false, 0, 0, 0, 0))
  }

  lemma InitialOk(s: State)
    requires IsInitial(s)
    ensures Sound(s) && HistoryOk(s.history) && Exact(s.filter)
  {
    LruOrder.InitialPermutation(s.st.lru);
    EmptyAccounted(s.filter);
  }

  /** Over every run of accesses and fills, at every accuracy and every threshold: pf_useful plus the
      unused filter entries never exceed pf_issued plus FILTER_SET, the accuracy never exceeds 300, and
      the counters of the pattern table stay apart. */
  lemma {:induction false} RunKeepsAccounting(p: Params, s: State, events: seq<Event>, t: State)
    requires Sound(s) && Run(p, s, events, t)
    ensures Sound(t) && t.filter.meter.useful + Unused(t.filter) <= t.filter.meter.issued + FILTER_SET
    ensures Accuracy(t.filter.meter) <= 300
    decreases |events|
  {
    hide Next, Happens, Accuracy;
    if |events| == 0 {
      AccuracyAtMost300(t.filter);
    } else {
      NextKeeps(p, s, events[0]);
      RunKeepsAccounting(p, Next(p, s, events[0]), events[1..], t);
    }
  }

  /** Every access of the run is made with an accuracy at which the candidate queues hold. */
  ghost predicate Steady(p: Params, s: State, events: seq<Event>, t: State)
    requires Run(p, s, events, t)
    decreases |events|
  {
    |events| == 0 || ((events[0].Access? ==> MayInvoke(p, s)) && Steady(p, Next(p, s, events[0]), events[1..], t))
  }

  /** Over such runs the history register always has a victim, so the next access may be made: it returns. */
  lemma {:induction false} SteadyRunNeverFails(p: Params, s: State, events: seq<Event>, t: State, addr: nat)
    requires Sound(s) && HistoryOk(s.history) && Run(p, s, events, t) && Steady(p, s, events, t)
    ensures Sound(t) && HistoryOk(t.history)
    ensures MayInvoke(p, t) ==> Returns(p, t, addr, PathOf(p, t, addr))
    decreases |events|
  {
    hide InvokeAlong, Returns, MayInvoke, Sound, HistoryOk, PathOf;
    if |events| == 0 {
      if MayInvoke(p, t) {
        InvokeOk(p, t, addr);
      }
    } else {
      NextKeeps(p, s, events[0]);
      StepKeepsHistory(p, s, events[0]);
      SteadyRunNeverFails(p, Next(p, s, events[0]), events[1..], t, addr);
    }
  }

  lemma StepKeepsHistory(p: Params, s: State, e: Event)
    requires Sound(s) && HistoryOk(s.history) && Happens(p, s, e) && (e.Access? ==> MayInvoke(p, s))
    ensures HistoryOk(Next(p, s, e).history)
  {
    hide InvokeAlong, Learn, IsPath, Accounted, Lookahead;
    if e.Access? {
      InvokeOk(p, s, e.addr);
      var x := Learn(p, s, e.addr).value;
      PathUnique(x.pt, p.hash, x.sig, e.addr, Accuracy(s.filter.meter), p.pfThreshold, 0, 100, e.levels, PathOf(p, s, e.addr));
    }
  }

  /** How many prefetches into the L2 a run issues. */
  ghost function TotalL2(p: Params, s: State, events: seq<Event>, t: State): nat
    requires Run(p, s, events, t)
    decreases |events|
  {
    if |events| == 0 then 0
    else IssuedL2(p, s, events[0]) + TotalL2(p, Next(p, s, events[0]), events[1..], t)
  }

  /** The counter never overtakes the prefetches issued. As long as it still counts every one of them
      (nothing has been halved), the accounting is exact: pf_useful plus the unused filter entries is at
      most pf_issued, and the accuracy is a percentage. */
  lemma {:induction false} ExactUntilHalving(p: Params, s: State, events: seq<Event>, t: State)
    requires Sound(s) && Run(p, s, events, t)
    ensures t.filter.meter.issued <= s.filter.meter.issued + TotalL2(p, s, events, t)
    ensures Exact(s.filter) && t.filter.meter.issued == s.filter.meter.issued + TotalL2(p, s, events, t) ==>
      Exact(t.filter) && Accuracy(t.filter.meter) <= 100
    decreases |events|
  {
    hide Next, Happens, Accuracy, IssuedL2, Exact, Sound;
    if |events| == 0 {
      if Exact(s.filter) {
        ExactIsPercentage(s.filter);
      }
    } else {
      NextKeeps(p, s, events[0]);
      ExactUntilHalving(p, Next(p, s, events[0]), events[1..], t);
    }
  }
}
