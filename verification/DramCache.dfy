/** The DRAM cache of src/dram_cache.cc and inc/base_cache.h: set-associative lookup, replacement and the
    counters it reports. `tag` is the number of the memory line, addr >> cache_line_shifts. */
module DramCache {
  import opened Counting
  import HashIndex

  datatype Line = Line(valid: bool, tag: nat, dirty: bool, count: nat)

  datatype Algo = CACHE_FIFO | CACHE_LRU | CACHE_RAND

  datatype Op = READ | WRITE

  // ---- One set ----

  /** get_cache_free_line: the first invalid way from `from` on. */
  function Free(lines: seq<Line>, from: nat): (w: nat)
    requires from <= |lines|
    ensures from <= w <= |lines|
    ensures forall i :: from <= i < w ==> lines[i].valid
    ensures w < |lines| ==> !lines[w].valid
    decreases |lines| - from
  {
    if from == |lines| || !lines[from].valid then from else Free(lines, from + 1)
  }

  predicate Holds(line: Line, tag: nat) { line.valid && line.tag == tag }

  /** check_cache_hit */
  predicate Hit(lines: seq<Line>, tag: nat) {
    exists w :: 0 <= w < |lines| && Holds(lines[w], tag)
  }

  /** A count stored in an int and compared as unsigned 64-bit again. */
  function Narrow(count: nat): nat {
    var low := count % 0x1_0000_0000;
    if low < 0x8000_0000 then low else 0x1_0000_0000_0000_0000 - 0x1_0000_0000 + low
  }

  /** The scan of find_victim over the first n ways. */
  function Least(lines: seq<Line>, n: nat): (r: (nat, nat))
    requires 0 < |lines| && n <= |lines|
    ensures r.0 < |lines|
  {
    if n == 0 then (0, Narrow(lines[0].count))
    else
      var r := Least(lines, n - 1);
      if lines[n - 1].count < r.1 then (n - 1, Narrow(lines[n - 1].count)) else r
  }

  function VictimWay(lines: seq<Line>, algo: Algo, random: nat): (w: nat)
    requires 0 < |lines|
    ensures w < |lines|
  {
    if Free(lines, 0) < |lines| then Free(lines, 0)
    else if algo == CACHE_RAND then random % |lines|
    else Least(lines, |lines|).0
  }

  /** A hit updates the first line of the set, whichever line was hit. */
  function Touched(lines: seq<Line>, algo: Algo, op: Op, tick: nat): seq<Line>
    requires 0 < |lines|
  {
    lines[0 := lines[0].(dirty := lines[0].dirty || op == WRITE,
                         count := if algo == CACHE_FIFO then lines[0].count else tick)]
  }

  function Filled(lines: seq<Line>, w: nat, tag: nat, op: Op, tick: nat): seq<Line>
    requires w < |lines|
  {
    lines[w := Line(true, tag, op == WRITE, tick)]
  }

  function AfterOp(lines: seq<Line>, algo: Algo, random: nat, tag: nat, op: Op, tick: nat): (r: seq<Line>)
    requires 0 < |lines|
    ensures |r| == |lines|
  {
    if Hit(lines, tag) then Touched(lines, algo, op, tick)
    else Filled(lines, VictimWay(lines, algo, random), tag, op, tick)
  }

  /** The valid lines of a set are a prefix, hold different tags, and only tags of this set. */
  ghost predicate SetOk(lines: seq<Line>, sets: nat, i: nat)
    requires sets > 0
  {
    && (forall w :: 0 <= w < |lines| ==> (lines[w].valid <==> w < Free(lines, 0)))
    && (forall v, w :: 0 <= v < w < Free(lines, 0) ==> lines[v].tag != lines[w].tag)
    && (forall w :: 0 <= w < Free(lines, 0) ==> lines[w].tag % sets == i)
  }

  lemma FreeIs(lines: seq<Line>, n: nat)
    requires n <= |lines| && (forall w :: 0 <= w < n ==> lines[w].valid) && (n < |lines| ==> !lines[n].valid)
    ensures Free(lines, 0) == n
  {
    var f := Free(lines, 0);
    assert f <= n && n <= f;
  }

  /** Every operation keeps it, and adds a valid line exactly on a miss in a set that is not full. */
  lemma AfterOpOk(lines: seq<Line>, sets: nat, algo: Algo, random: nat, tag: nat, op: Op, tick: nat)
    requires sets > 0 && 0 < |lines| && SetOk(lines, sets, tag % sets)
    ensures SetOk(AfterOp(lines, algo, random, tag, op, tick), sets, tag % sets)
    ensures Free(AfterOp(lines, algo, random, tag, op, tick), 0)
            == Free(lines, 0) + (if !Hit(lines, tag) && Free(lines, 0) < |lines| then 1 else 0)
  {
    hide Least, SetOk;
    if Hit(lines, tag) {
      TouchedOk(lines, sets, tag % sets, algo, op, tick);
    } else {
      FilledOk(lines, sets, VictimWay(lines, algo, random), tag, op, tick);
    }
  }

  lemma TouchedOk(lines: seq<Line>, sets: nat, i: nat, algo: Algo, op: Op, tick: nat)
    requires sets > 0 && 0 < |lines| && SetOk(lines, sets, i)
    ensures SetOk(Touched(lines, algo, op, tick), sets, i) && Free(Touched(lines, algo, op, tick), 0) == Free(lines, 0)
  {
    FreeIs(Touched(lines, algo, op, tick), Free(lines, 0));
  }

  lemma FilledOk(lines: seq<Line>, sets: nat, w: nat, tag: nat, op: Op, tick: nat)
    requires sets > 0 && SetOk(lines, sets, tag % sets) && w < |lines| && !Hit(lines, tag)
    requires Free(lines, 0) < |lines| ==> w == Free(lines, 0)
    ensures SetOk(Filled(lines, w, tag, op, tick), sets, tag % sets)
    ensures Free(Filled(lines, w, tag, op, tick), 0) == Free(lines, 0) + (if Free(lines, 0) < |lines| then 1 else 0)
  {
    var v := Free(lines, 0);
    assert forall x :: 0 <= x < v ==> !Holds(lines[x], tag);
    FreeIs(Filled(lines, w, tag, op, tick), if v < |lines| then v + 1 else v);
  }

  /** So a hit always finds the first line valid, and is counted as a read or write hit. */
  lemma HitFindsFirst(lines: seq<Line>, sets: nat, i: nat, tag: nat)
    requires sets > 0 && SetOk(lines, sets, i) && Hit(lines, tag)
    ensures 0 < |lines| && lines[0].valid
  {
  }

  // ---- The cache and its counters ----

  datatype Stats = Stats(tick: nat, r: nat, w: nat, hitR: nat, hitW: nat, hit: nat, miss: nat,
                         capacityMiss: nat, conflictMiss: nat, toNextMem: nat)

  datatype State = State(sets: seq<seq<Line>>, stats: Stats)

  function SetOf(s: State, tag: nat): (i: nat)
    requires |s.sets| > 0
    ensures i < |s.sets|
  {
    tag % |s.sets|
  }

  function Counted(lines: seq<Line>, t: Stats, algo: Algo, random: nat, tag: nat, op: Op): Stats
    requires 0 < |lines|
  {
    var u := t.(tick := t.tick + 1, r := t.r + (if op == READ then 1 else 0), w := t.w + (if op == WRITE then 1 else 0));
    if Hit(lines, tag) then
      var first := if lines[0].valid then 1 else 0;
      u.(hit := t.hit + 1,
         hitR := t.hitR + (if op == READ then first else 0),
         hitW := t.hitW + (if op == WRITE then first else 0))
    else if Free(lines, 0) < |lines| then u.(miss := t.miss + 1, capacityMiss := t.capacityMiss + 1)
    else
      var v := lines[VictimWay(lines, algo, random)];
      u.(miss := t.miss + 1, conflictMiss := t.conflictMiss + 1,
         toNextMem := t.toNextMem + (if v.dirty && v.valid then 1 else 0))
  }

  /** do_cache_op */
  function Step(algo: Algo, random: nat, s: State, tag: nat, op: Op): State
    requires |s.sets| > 0 && forall i :: 0 <= i < |s.sets| ==> |s.sets[i]| > 0
  {
    var i := SetOf(s, tag);
    State(s.sets[i := AfterOp(s.sets[i], algo, random, tag, op, s.stats.tick + 1)],
          Counted(s.sets[i], s.stats, algo, random, tag, op))
  }

  /** All valid lines. */
  function ValidLines(sets: seq<seq<Line>>): nat {
    if |sets| == 0 then 0 else ValidLines(sets[..|sets| - 1]) + Free(sets[|sets| - 1], 0)
  }

  /** The counters fit together, and the capacity misses are the valid lines. */
  ghost predicate Balanced(s: State) {
    var t := s.stats;
    && t.r + t.w == t.tick && t.hit + t.miss == t.tick && t.hitR + t.hitW == t.hit
    && t.capacityMiss + t.conflictMiss == t.miss && t.capacityMiss == ValidLines(s.sets)
  }

  ghost predicate CacheOk(s: State, ways: nat) {
    && |s.sets| > 0 && ways > 0
    && (forall i :: 0 <= i < |s.sets| ==> |s.sets[i]| == ways && SetOk(s.sets[i], |s.sets|, i))
    && Balanced(s)
  }

  lemma {:induction false} ValidLinesUpdate(sets: seq<seq<Line>>, i: nat, lines: seq<Line>)
    requires i < |sets|
    ensures ValidLines(sets[i := lines]) + Free(sets[i], 0) == ValidLines(sets) + Free(lines, 0)
  {
    var n := |sets| - 1;
    if i == n {
      assert sets[i := lines][..n] == sets[..n];
    } else {
      ValidLinesUpdate(sets[..n], i, lines);
      assert sets[i := lines][..n] == sets[..n][i := lines];
    }
  }

  /** Every operation, under every replacement policy, keeps the sets well-formed and the counters
      balanced. */
  lemma StepOk(algo: Algo, random: nat, s: State, ways: nat, tag: nat, op: Op)
    requires CacheOk(s, ways)
    ensures CacheOk(Step(algo, random, s, tag, op), ways)
  {
    hide SetOk, AfterOp, VictimWay, Hit, ValidLines, Free;
    var i := SetOf(s, tag);
    var lines := s.sets[i];
    AfterOpOk(lines, |s.sets|, algo, random, tag, op, s.stats.tick + 1);
    ValidLinesUpdate(s.sets, i, AfterOp(lines, algo, random, tag, op, s.stats.tick + 1));
    if Hit(lines, tag) {
      HitFindsFirst(lines, |s.sets|, i, tag);
    }
  }

  // ---- FIFO ----

  /** The valid lines in the order in which they were filled, when `k` is the next way to be evicted. */
  function InOrder(lines: seq<Line>, k: nat): seq<Line>
    requires k <= Free(lines, 0)
  {
    lines[k..Free(lines, 0)] + lines[..k]
  }

  function Tags(lines: seq<Line>): seq<nat> {
    seq(|lines|, i requires 0 <= i < |lines| => lines[i].tag)
  }

  /** The tags of a set, first in first. */
  function Queue(lines: seq<Line>, k: nat): seq<nat>
    requires k <= Free(lines, 0)
  {
    Tags(InOrder(lines, k))
  }

  /** A full set evicts its ways in turn. */
  function NextHead(lines: seq<Line>, k: nat, tag: nat): nat {
    if Hit(lines, tag) || Free(lines, 0) < |lines| then k else if k + 1 == |lines| then 0 else k + 1
  }

  /** A bounded first-in first-out list of tags. */
  function Push(q: seq<nat>, tag: nat, ways: nat): seq<nat>
    requires ways > 0
  {
    if tag in q then q else (if |q| >= ways then q[1..] else q) + [tag]
  }

  ghost predicate RisingCounts(ls: seq<Line>, tick: nat) {
    && (forall a, b :: 0 <= a < b < |ls| ==> ls[a].count < ls[b].count)
    && forall a :: 0 <= a < |ls| ==> ls[a].count <= tick
  }

  /** Counts rise in the order of filling. */
  ghost predicate FifoOk(lines: seq<Line>, k: nat, tick: nat) {
    && k <= Free(lines, 0) && (Free(lines, 0) < |lines| ==> k == 0) && (|lines| > 0 ==> k < |lines|)
    && RisingCounts(InOrder(lines, k), tick)
  }

  lemma HitIsMember(lines: seq<Line>, sets: nat, i: nat, k: nat, tag: nat)
    requires sets > 0 && SetOk(lines, sets, i) && k <= Free(lines, 0)
    ensures Hit(lines, tag) <==> tag in Queue(lines, k)
  {
    hide Free;
    var v, r, q := Free(lines, 0), InOrder(lines, k), Queue(lines, k);
    if Hit(lines, tag) {
      var w :| 0 <= w < |lines| && Holds(lines[w], tag);
      var j := if w >= k then w - k else w - k + v;
      assert r[j] == lines[w];
      assert q[j] == tag;
    }
    if tag in q {
      var j :| 0 <= j < |q| && q[j] == tag;
      var w := if j < v - k then j + k else j - (v - k);
      assert r[j] == lines[w];
      assert Holds(lines[w], tag);
    }
  }

  // ---- When the scan of find_victim finds the oldest way ----

  /** Up to here every count is below every value that a negative int turns into. */
  const MAX_TICK: nat := 0xFFFF_FFFF_8000_0000

  /** The low half of the count is not negative as an int. */
  predicate Fits(count: nat) { count % 0x1_0000_0000 < 0x8000_0000 }

  predicate FirstFitting(lines: seq<Line>, j: nat) {
    j < |lines| && Fits(lines[j].count) && forall i :: 0 <= i < j ==> !Fits(lines[i].count)
  }

  /** The first fitting count before way k, if any, was not cut down to k's count or below. */
  predicate NotUndercut(lines: seq<Line>, k: nat)
    requires k < |lines|
  {
    forall j :: 0 <= j < k && FirstFitting(lines, j) ==> lines[k].count < Narrow(lines[j].count)
  }

  /** What the narrow minimum asks of the counts when k is the oldest way. */
  predicate OldestGoes(lines: seq<Line>, k: nat) {
    k < |lines| && (Fits(lines[k].count) || k == |lines| - 1) && NotUndercut(lines, k)
  }

  /** Counts rising from the first way on: the scan stays with the first one that fits, and moves on
      until there is one. */
  lemma {:induction false} LeastRising(lines: seq<Line>, n: nat)
    requires 0 < n <= |lines| && forall i :: 0 <= i < n ==> lines[i].count < MAX_TICK
    requires forall i, j :: 0 <= i < j < n ==> lines[i].count < lines[j].count
    ensures forall j :: 0 <= j < n && FirstFitting(lines, j) ==> Least(lines, n) == (j, Narrow(lines[j].count))
    ensures (forall j :: 0 <= j < n ==> !Fits(lines[j].count)) ==> Least(lines, n) == (n - 1, Narrow(lines[n - 1].count))
  {
    hide Fits, Narrow, Least;
    NarrowIs(lines[n - 1].count);
    if n == 1 {
      FirstScanned(lines);
    } else {
      LeastRising(lines, n - 1);
      NarrowIs(lines[n - 2].count);
      if j: nat :| j < n - 1 && FirstFitting(lines, j) {
        assert forall i :: 0 <= i < n && FirstFitting(lines, i) ==> i == j;
        NarrowIs(lines[j].count);
        LeastStays(lines, n - 1, n);
      } else {
        NoneFits(lines, n - 1);
        OneMore(lines, n - 1);
      }
    }
  }

  lemma {:induction false} NoneFits(lines: seq<Line>, n: nat)
    requires n <= |lines| && forall j :: 0 <= j < n ==> !FirstFitting(lines, j)
    ensures forall j :: 0 <= j < n ==> !Fits(lines[j].count)
  {
    if n > 0 {
      NoneFits(lines, n - 1);
      assert !FirstFitting(lines, n - 1);
    }
  }

  /** The scan stays where no later count is below its minimum. */
  lemma {:induction false} LeastStays(lines: seq<Line>, m: nat, n: nat)
    requires 0 < |lines| && m <= n <= |lines| && forall i :: m <= i < n ==> Least(lines, m).1 <= lines[i].count
    ensures Least(lines, n) == Least(lines, m)
    decreases n
  {
    if m < n {
      LeastStays(lines, m, n - 1);
    }
  }

  /** The scan never goes back. */
  lemma {:induction false} LeastMovesOn(lines: seq<Line>, k: nat, m: nat, n: nat)
    requires k < m <= n <= |lines| && Least(lines, m).0 > k
    ensures Least(lines, n).0 > k
    decreases n
  {
    if m < n {
      LeastMovesOn(lines, k, m, n - 1);
    }
  }

  /** The counts of a full set, seen from the oldest way. */
  ghost predicate Rotated(lines: seq<Line>, k: nat) {
    && k < |lines|
    && (forall i :: 0 <= i < |lines| ==> lines[i].count < MAX_TICK)
    && (forall i :: 0 <= i < |lines| && i != k ==> lines[k].count < lines[i].count)
    && (forall i, j :: 0 <= i < j < k ==> lines[i].count < lines[j].count)
  }

  /** Where a way of a full set stands in the order of filling. */
  function Place(n: nat, k: nat, w: nat): nat
    requires k < n && w < n
  {
    if w >= k then w - k else w - k + n
  }

  lemma AtPlace(lines: seq<Line>, k: nat, w: nat)
    requires k < |lines| && w < |lines| && Free(lines, 0) == |lines|
    ensures Place(|lines|, k, w) < |InOrder(lines, k)| && InOrder(lines, k)[Place(|lines|, k, w)] == lines[w]
  {
  }

  lemma PlacesOrder(lines: seq<Line>, k: nat, tick: nat, v: nat, w: nat)
    requires FifoOk(lines, k, tick) && Free(lines, 0) == |lines| && v < |lines| && w < |lines|
    ensures lines[v].count <= tick
    ensures Place(|lines|, k, v) < Place(|lines|, k, w) ==> lines[v].count < lines[w].count
  {
    hide InOrder, Place;
    AtPlace(lines, k, v);
    AtPlace(lines, k, w);
  }

  lemma FullIsRotated(lines: seq<Line>, k: nat, tick: nat)
    requires FifoOk(lines, k, tick) && Free(lines, 0) == |lines| && 0 < |lines| && tick < MAX_TICK
    ensures Rotated(lines, k)
  {
    hide FifoOk;
    FifoFacts(lines, k, tick);
    forall i | 0 <= i < |lines| ensures lines[i].count < MAX_TICK && (i != k ==> lines[k].count < lines[i].count) {
      PlacesOrder(lines, k, tick, i, k);
      PlacesOrder(lines, k, tick, k, i);
    }
    forall i, j | 0 <= i < j < k ensures lines[i].count < lines[j].count {
      PlacesOrder(lines, k, tick, i, j);
    }
  }

  /** The minimum before the oldest way is looked at. */
  lemma LeastBefore(lines: seq<Line>, k: nat)
    requires Rotated(lines, k) && k > 0
    ensures lines[k].count < Least(lines, k).1 <==> NotUndercut(lines, k)
  {
    hide Least, Fits, Narrow;
    LeastRising(lines, k);
    NarrowIs(lines[k - 1].count);
    if j: nat :| j < k && FirstFitting(lines, j) {
      assert forall i :: 0 <= i < k && FirstFitting(lines, i) ==> i == j;
    } else {
      NoneFits(lines, k);
    }
  }

  /** find_victim takes the oldest way exactly when the int that holds the minimum lets it. */
  lemma OldestGoesExactlyWhen(lines: seq<Line>, k: nat, tick: nat)
    requires FifoOk(lines, k, tick) && Free(lines, 0) == |lines| && 0 < |lines| && tick < MAX_TICK
    ensures VictimWay(lines, CACHE_FIFO, 0) == k <==> OldestGoes(lines, k)
  {
    hide FifoOk;
    FullIsRotated(lines, k, tick);
    ScanEndsAtOldest(lines, k);
  }

  lemma ScanEndsAtOldest(lines: seq<Line>, k: nat)
    requires Rotated(lines, k)
    ensures Least(lines, |lines|).0 == k <==> OldestGoes(lines, k)
  {
    hide NotUndercut, Least, Fits, Narrow;
    if k > 0 {
      LeastBefore(lines, k);
      if NotUndercut(lines, k) {
        OneMore(lines, k);
        ScanFromOldest(lines, k);
      } else {
        LeastStays(lines, k, |lines|);
        LeastBelow(lines, k);
      }
    } else {
      NothingBefore(lines);
      FirstScanned(lines);
      ScanFromOldest(lines, 0);
    }
  }

  lemma FirstScanned(lines: seq<Line>)
    requires 0 < |lines|
    ensures Least(lines, 1) == (0, Narrow(lines[0].count))
  {
    assert Least(lines, 0) == (0, Narrow(lines[0].count));
  }

  lemma NarrowIs(count: nat)
    ensures Fits(count) ==> Narrow(count) <= count
    ensures !Fits(count) ==> Narrow(count) >= MAX_TICK
  {
  }

  lemma ScanFromOldest(lines: seq<Line>, k: nat)
    requires Rotated(lines, k) && Least(lines, k + 1) == (k, Narrow(lines[k].count))
    ensures Least(lines, |lines|).0 == k <==> Fits(lines[k].count) || k == |lines| - 1
  {
    hide Narrow, Fits, Least;
    NarrowIs(lines[k].count);
    if Fits(lines[k].count) {
      LeastStays(lines, k + 1, |lines|);
    } else if k + 1 < |lines| {
      OneMore(lines, k + 1);
      LeastMovesOn(lines, k, k + 2, |lines|);
    }
  }

  lemma OneMore(lines: seq<Line>, n: nat)
    requires n < |lines| && lines[n].count < Least(lines, n).1
    ensures Least(lines, n + 1) == (n, Narrow(lines[n].count))
  {
  }

  lemma NothingBefore(lines: seq<Line>)
    requires 0 < |lines|
    ensures NotUndercut(lines, 0)
  {
  }

  lemma {:induction false} LeastBelow(lines: seq<Line>, n: nat)
    requires 0 < n <= |lines|
    ensures Least(lines, n).0 < n
  {
    if n > 1 {
      LeastBelow(lines, n - 1);
    }
  }

  /** Below 2^32 ticks: when its count is below 2^31, or it is the last way. */
  lemma OldestGoesBelow32Bits(lines: seq<Line>, k: nat, tick: nat)
    requires FifoOk(lines, k, tick) && Free(lines, 0) == |lines| && 0 < |lines| && tick < 0x1_0000_0000
    ensures VictimWay(lines, CACHE_FIFO, 0) == k <==> lines[k].count < 0x8000_0000 || k == |lines| - 1
  {
    hide FifoOk, FirstFitting, VictimWay;
    OldestGoesExactlyWhen(lines, k, tick);
    FullIsRotated(lines, k, tick);
    CountsBelow(lines, k, tick);
    assert NotUndercut(lines, k);
  }

  lemma CountsBelow(lines: seq<Line>, k: nat, tick: nat)
    requires FifoOk(lines, k, tick) && Free(lines, 0) == |lines| && 0 < |lines|
    ensures forall w :: 0 <= w < |lines| ==> lines[w].count <= tick
  {
    hide FifoOk;
    forall w | 0 <= w < |lines| ensures lines[w].count <= tick {
      PlacesOrder(lines, k, tick, w, w);
    }
  }

  lemma VictimIgnoresRandom(lines: seq<Line>, random: nat)
    requires 0 < |lines|
    ensures VictimWay(lines, CACHE_FIFO, random) == VictimWay(lines, CACHE_FIFO, 0)
  {
  }

  /** A miss in a full set evicts the oldest way. */
  predicate Orderly(lines: seq<Line>, k: nat, tag: nat) {
    Hit(lines, tag) || Free(lines, 0) < |lines| || OldestGoes(lines, k)
  }

  /** The order after an operation. */
  lemma OrderAfter(lines: seq<Line>, sets: nat, k: nat, random: nat, tag: nat, op: Op, tick: nat)
    requires sets > 0 && 0 < |lines| && SetOk(lines, sets, tag % sets) && FifoOk(lines, k, tick) && tick < MAX_TICK
    requires Orderly(lines, k, tag)
    ensures var after := AfterOp(lines, CACHE_FIFO, random, tag, op, tick + 1);
      var head := NextHead(lines, k, tag);
      head <= Free(after, 0) && FifoOk(after, head, tick + 1)
      && if Hit(lines, tag) then Queue(after, head) == Queue(lines, k)
         else
           var line := Line(true, tag, op == WRITE, tick + 1);
           InOrder(after, head) == (if Free(lines, 0) == |lines| then InOrder(lines, k)[1..] else InOrder(lines, k)) + [line]
  {
    hide Hit, FifoOk, InOrder, OldestGoes;
    var after := AfterOp(lines, CACHE_FIFO, random, tag, op, tick + 1);
    AfterOpOk(lines, sets, CACHE_FIFO, random, tag, op, tick + 1);
    FifoFacts(lines, k, tick);
    if Hit(lines, tag) {
      SameTagsAndCounts(lines, after, k, tick);
    } else {
      var line := Line(true, tag, op == WRITE, tick + 1);
      if Free(lines, 0) < |lines| {
        FillAppends(lines, line, tick);
      } else {
        OldestGoesExactlyWhen(lines, k, tick);
        VictimIgnoresRandom(lines, random);
        EvictRotates(lines, k, line, tick);
      }
    }
  }

  lemma FifoFacts(lines: seq<Line>, k: nat, tick: nat)
    requires FifoOk(lines, k, tick)
    ensures k <= Free(lines, 0) && (Free(lines, 0) < |lines| ==> k == 0) && (|lines| > 0 ==> k < |lines|)
  {
  }

  lemma AppendRising(ls: seq<Line>, line: Line, tick: nat)
    requires RisingCounts(ls, tick) && line.count == tick + 1
    ensures RisingCounts(ls + [line], tick + 1)
  {
  }

  lemma FillAppends(lines: seq<Line>, line: Line, tick: nat)
    requires FifoOk(lines, 0, tick) && line.valid && line.count == tick + 1
    requires Free(lines, 0) < |lines| && Free(lines[Free(lines, 0) := line], 0) == Free(lines, 0) + 1
    ensures var after := lines[Free(lines, 0) := line];
      InOrder(after, 0) == InOrder(lines, 0) + [line] && FifoOk(after, 0, tick + 1)
  {
    var after := lines[Free(lines, 0) := line];
    AppendRising(InOrder(lines, 0), line, tick);
    assert InOrder(after, 0) == InOrder(lines, 0) + [line];
  }

  lemma EvictRotates(lines: seq<Line>, k: nat, line: Line, tick: nat)
    requires FifoOk(lines, k, tick) && line.valid && line.count == tick + 1 && 0 < |lines|
    requires Free(lines, 0) == |lines| && Free(lines[k := line], 0) == |lines|
    ensures var after, head := lines[k := line], if k + 1 == |lines| then 0 else k + 1;
      InOrder(after, head) == InOrder(lines, k)[1..] + [line] && FifoOk(after, head, tick + 1)
  {
    var after, head := lines[k := line], if k + 1 == |lines| then 0 else k + 1;
    var r := InOrder(lines, k);
    assert RisingCounts(r[1..], tick) by {
      assert forall a :: 0 <= a < |r[1..]| ==> r[1..][a] == r[a + 1];
    }
    AppendRising(r[1..], line, tick);
    assert InOrder(after, head) == r[1..] + [line];
  }

  lemma SameTagsAndCounts(lines: seq<Line>, after: seq<Line>, k: nat, tick: nat)
    requires |after| == |lines| && Free(after, 0) == Free(lines, 0) && FifoOk(lines, k, tick)
    requires forall w :: 0 <= w < |lines| ==> after[w].tag == lines[w].tag && after[w].count == lines[w].count
    ensures Queue(after, k) == Queue(lines, k) && FifoOk(after, k, tick + 1)
  {
    var a, b := InOrder(after, k), InOrder(lines, k);
    assert forall j :: 0 <= j < |a| ==> a[j].tag == b[j].tag && a[j].count == b[j].count;
  }

  /** In FIFO mode a set is a bounded first-in first-out list of tags exactly as long as find_victim takes
      the oldest way: then hits leave the list alone, misses append, and a full set loses the tag that was
      filled first. Otherwise that tag stays, and no order of the ways gives the list. */
  lemma FifoStep(lines: seq<Line>, sets: nat, k: nat, random: nat, tag: nat, op: Op, tick: nat)
    requires sets > 0 && 0 < |lines| && SetOk(lines, sets, tag % sets) && FifoOk(lines, k, tick) && tick < MAX_TICK
    ensures var after := AfterOp(lines, CACHE_FIFO, random, tag, op, tick + 1);
      if Orderly(lines, k, tag) then
        var head := NextHead(lines, k, tag);
        head <= Free(after, 0) && FifoOk(after, head, tick + 1) && Queue(after, head) == Push(Queue(lines, k), tag, |lines|)
      else
        Hit(after, lines[k].tag) && lines[k].tag !in Push(Queue(lines, k), tag, |lines|)
  {
    hide Hit, NextHead, OldestGoes;
    HitIsMember(lines, sets, tag % sets, k, tag);
    if Orderly(lines, k, tag) {
      OrderAfter(lines, sets, k, random, tag, op, tick);
    } else {
      OldestGoesExactlyWhen(lines, k, tick);
      VictimIgnoresRandom(lines, random);
      OldestStays(lines, sets, k, VictimWay(lines, CACHE_FIFO, 0), tag, op, tick);
    }
  }

  lemma OldestStays(lines: seq<Line>, sets: nat, k: nat, w: nat, tag: nat, op: Op, tick: nat)
    requires sets > 0 && SetOk(lines, sets, tag % sets) && FifoOk(lines, k, tick) && Free(lines, 0) == |lines|
    requires w < |lines| && w != k && !Hit(lines, tag)
    ensures Hit(Filled(lines, w, tag, op, tick + 1), lines[k].tag)
    ensures tag !in Queue(lines, k) ==> lines[k].tag !in Push(Queue(lines, k), tag, |lines|)
  {
    var after, q := Filled(lines, w, tag, op, tick + 1), Queue(lines, k);
    assert Holds(after[k], lines[k].tag);
    assert Holds(lines[k], lines[k].tag);
    var r := InOrder(lines, k);
    assert r[0] == lines[k];
    forall j | 0 < j < |q| ensures q[j] != lines[k].tag {
      assert r[j] == lines[if j + k < |lines| then j + k else j + k - |lines|];
    }
  }

  // ---- FIFO over runs ----

  datatype Request = Request(tag: nat, op: Op, random: nat)

  ghost predicate FifoCache(s: State, heads: seq<nat>, ways: nat) {
    && CacheOk(s, ways) && |heads| == |s.sets|
    && forall i :: 0 <= i < |heads| ==> FifoOk(s.sets[i], heads[i], s.stats.tick)
  }

  /** The first-in first-out lists of all sets. */
  ghost function Queues(s: State, heads: seq<nat>, ways: nat): (q: seq<seq<nat>>)
    requires FifoCache(s, heads, ways)
    ensures |q| == |s.sets|
  {
    seq(|s.sets|, i requires 0 <= i < |s.sets| => Queue(s.sets[i], heads[i]))
  }

  ghost function After(s: State, ways: nat, requests: seq<Request>): (t: State)
    requires CacheOk(s, ways)
    ensures CacheOk(t, ways)
    decreases |requests|
  {
    if |requests| == 0 then s
    else
      StepOk(CACHE_FIFO, requests[0].random, s, ways, requests[0].tag, requests[0].op);
      After(Step(CACHE_FIFO, requests[0].random, s, requests[0].tag, requests[0].op), ways, requests[1..])
  }

  /** The reference: bounded lists, one per set, and nothing else. */
  function PushAll(queues: seq<seq<nat>>, ways: nat, requests: seq<Request>): seq<seq<nat>>
    requires |queues| > 0 && ways > 0
    decreases |requests|
  {
    if |requests| == 0 then queues
    else PushAll(PushOne(queues, ways, requests[0].tag), ways, requests[1..])
  }

  /** The next operation finds its oldest way, if it has to evict. */
  ghost predicate OrderlyNext(s: State, heads: seq<nat>, r: Request)
    requires |s.sets| > 0 && |heads| == |s.sets|
  {
    Orderly(s.sets[SetOf(s, r.tag)], heads[SetOf(s, r.tag)], r.tag)
  }

  function NextHeads(s: State, heads: seq<nat>, r: Request): (h: seq<nat>)
    requires |s.sets| > 0 && |heads| == |s.sets|
    ensures |h| == |heads|
  {
    var i := SetOf(s, r.tag);
    heads[i := NextHead(s.sets[i], heads[i], r.tag)]
  }

  /** One operation on first-in first-out lists. */
  function PushOne(queues: seq<seq<nat>>, ways: nat, tag: nat): (q: seq<seq<nat>>)
    requires |queues| > 0 && ways > 0
    ensures |q| == |queues|
  {
    var i := tag % |queues|;
    queues[i := Push(queues[i], tag, ways)]
  }

  /** The cache holds exactly the tags of the lists. */
  ghost predicate Matches(s: State, queues: seq<seq<nat>>) {
    |queues| == |s.sets| && forall i, tag: nat | 0 <= i < |queues| :: Hit(s.sets[i], tag) <==> tag in queues[i]
  }

  lemma QueuesMatch(s: State, heads: seq<nat>, ways: nat)
    requires FifoCache(s, heads, ways)
    ensures Matches(s, Queues(s, heads, ways))
  {
    hide Hit, Queue;
    forall i, tag: nat | 0 <= i < |s.sets| ensures Hit(s.sets[i], tag) <==> tag in Queues(s, heads, ways)[i] {
      HitIsMember(s.sets[i], |s.sets|, i, heads[i], tag);
    }
  }

  lemma StepFifo(s: State, heads: seq<nat>, ways: nat, r: Request)
    requires FifoCache(s, heads, ways) && s.stats.tick < MAX_TICK
    ensures var t, more := Step(CACHE_FIFO, r.random, s, r.tag, r.op), NextHeads(s, heads, r);
      if OrderlyNext(s, heads, r) then
        FifoCache(t, more, ways) && Queues(t, more, ways) == PushOne(Queues(s, heads, ways), ways, r.tag)
      else !Matches(t, PushOne(Queues(s, heads, ways), ways, r.tag))
  {
    hide Hit, NextHead, Push, SetOk, Balanced, OldestGoes, Orderly;
    var i := SetOf(s, r.tag);
    StepOk(CACHE_FIFO, r.random, s, ways, r.tag, r.op);
    FifoStep(s.sets[i], |s.sets|, heads[i], r.random, r.tag, r.op, s.stats.tick);
    var t, more := Step(CACHE_FIFO, r.random, s, r.tag, r.op), NextHeads(s, heads, r);
    if OrderlyNext(s, heads, r) {
      forall j | 0 <= j < |more| && j != i ensures FifoOk(t.sets[j], more[j], t.stats.tick) {
        LaterOk(s.sets[j], heads[j], s.stats.tick);
      }
    } else {
      var tag := s.sets[i][heads[i]].tag;
      assert Hit(t.sets[i], tag) && tag !in PushOne(Queues(s, heads, ways), ways, r.tag)[i];
    }
  }

  lemma LaterOk(lines: seq<Line>, k: nat, tick: nat)
    requires FifoOk(lines, k, tick)
    ensures FifoOk(lines, k, tick + 1)
  {
  }

  /** The heads after a run. */
  ghost function HeadsAfter(s: State, heads: seq<nat>, ways: nat, requests: seq<Request>): seq<nat>
    requires CacheOk(s, ways) && |heads| == |s.sets|
    decreases |requests|
  {
    if |requests| == 0 then heads
    else
      var r := requests[0];
      StepOk(CACHE_FIFO, r.random, s, ways, r.tag, r.op);
      HeadsAfter(Step(CACHE_FIFO, r.random, s, r.tag, r.op), NextHeads(s, heads, r), ways, requests[1..])
  }

  /** Every eviction of the run finds its oldest way. */
  ghost predicate OrderlyRun(s: State, heads: seq<nat>, ways: nat, requests: seq<Request>)
    requires CacheOk(s, ways) && |heads| == |s.sets|
    decreases |requests|
  {
    |requests| == 0 || (
      var r := requests[0];
      StepOk(CACHE_FIFO, r.random, s, ways, r.tag, r.op);
      OrderlyNext(s, heads, r)
      && OrderlyRun(Step(CACHE_FIFO, r.random, s, r.tag, r.op), NextHeads(s, heads, r), ways, requests[1..]))
  }

  /** After every request of the run the cache holds exactly the tags of the lists. */
  ghost predicate FifoThroughout(s: State, queues: seq<seq<nat>>, ways: nat, requests: seq<Request>)
    requires CacheOk(s, ways)
    decreases |requests|
  {
    Matches(s, queues) && (|requests| == 0 || (
      var r := requests[0];
      StepOk(CACHE_FIFO, r.random, s, ways, r.tag, r.op);
      FifoThroughout(Step(CACHE_FIFO, r.random, s, r.tag, r.op), PushOne(queues, ways, r.tag), ways, requests[1..])))
  }

  /** A run is first-in first-out in every set exactly when each of its evictions is orderly. */
  lemma {:induction false} FifoExactlyWhen(s: State, heads: seq<nat>, ways: nat, requests: seq<Request>)
    requires FifoCache(s, heads, ways) && s.stats.tick + |requests| <= MAX_TICK
    ensures FifoThroughout(s, Queues(s, heads, ways), ways, requests) <==> OrderlyRun(s, heads, ways, requests)
    decreases |requests|
  {
    hide Step, OrderlyNext, PushOne, Matches;
    QueuesMatch(s, heads, ways);
    if |requests| > 0 {
      var r := requests[0];
      StepFifo(s, heads, ways, r);
      StepOk(CACHE_FIFO, r.random, s, ways, r.tag, r.op);
      TickGoesUp(s, r);
      if OrderlyNext(s, heads, r) {
        FifoExactlyWhen(Step(CACHE_FIFO, r.random, s, r.tag, r.op), NextHeads(s, heads, r), ways, requests[1..]);
      }
    }
  }

  lemma TickGoesUp(s: State, r: Request)
    requires |s.sets| > 0 && forall i :: 0 <= i < |s.sets| ==> |s.sets[i]| > 0
    ensures Step(CACHE_FIFO, r.random, s, r.tag, r.op).stats.tick == s.stats.tick + 1
  {
  }

  /** Such a run ends with the lists and their order. */
  lemma {:induction false} RunIsFifo(s: State, heads: seq<nat>, ways: nat, requests: seq<Request>)
    requires FifoCache(s, heads, ways) && s.stats.tick + |requests| <= MAX_TICK && OrderlyRun(s, heads, ways, requests)
    ensures var (t, after) := (After(s, ways, requests), HeadsAfter(s, heads, ways, requests));
      FifoCache(t, after, ways) && Queues(t, after, ways) == PushAll(Queues(s, heads, ways), ways, requests)
    decreases |requests|
  {
    hide Step, OrderlyNext, PushOne;
    if |requests| > 0 {
      var r := requests[0];
      StepFifo(s, heads, ways, r);
      StepOk(CACHE_FIFO, r.random, s, ways, r.tag, r.op);
      TickGoesUp(s, r);
      RunIsFifo(Step(CACHE_FIFO, r.random, s, r.tag, r.op), NextHeads(s, heads, r), ways, requests[1..]);
    }
  }

  /** Every run that stays within 2^31 ticks is orderly. */
  lemma {:induction false} EarlyRunIsOrderly(s: State, heads: seq<nat>, ways: nat, requests: seq<Request>)
    requires FifoCache(s, heads, ways) && s.stats.tick + |requests| <= 0x8000_0000
    ensures OrderlyRun(s, heads, ways, requests)
    decreases |requests|
  {
    hide Step, PushOne, OldestGoes;
    if |requests| > 0 {
      var r := requests[0];
      var i := SetOf(s, r.tag);
      if Free(s.sets[i], 0) == |s.sets[i]| {
        EarlyGoes(s.sets[i], heads[i], s.stats.tick);
      }
      StepFifo(s, heads, ways, r);
      StepOk(CACHE_FIFO, r.random, s, ways, r.tag, r.op);
      TickGoesUp(s, r);
      EarlyRunIsOrderly(Step(CACHE_FIFO, r.random, s, r.tag, r.op), NextHeads(s, heads, r), ways, requests[1..]);
    }
  }

  lemma EarlyGoes(lines: seq<Line>, k: nat, tick: nat)
    requires FifoOk(lines, k, tick) && Free(lines, 0) == |lines| && 0 < |lines| && tick < 0x8000_0000
    ensures OldestGoes(lines, k)
  {
    OldestGoesBelow32Bits(lines, k, tick);
    OldestGoesExactlyWhen(lines, k, tick);
    CountsBelow(lines, k, tick);
  }

  ghost predicate IsEmpty(s: State, ways: nat) {
    && |s.sets| > 0 && ways > 0 && s.stats == Stats(0, 0, 0, 0, 0, 0, 0, 0, 0, 0)
    && forall i :: 0 <= i < |s.sets| ==> |s.sets[i]| == ways && forall w :: 0 <= w < ways ==> !s.sets[i][w].valid
  }

  lemma {:induction false} NoValidLines(sets: seq<seq<Line>>)
    requires forall i :: 0 <= i < |sets| ==> Free(sets[i], 0) == 0
    ensures ValidLines(sets) == 0
  {
    if |sets| > 0 {
      NoValidLines(sets[..|sets| - 1]);
    }
  }

  lemma EmptyOk(s: State, ways: nat)
    requires IsEmpty(s, ways)
    ensures CacheOk(s, ways) && FifoCache(s, seq(|s.sets|, _ => 0), ways)
  {
    NoValidLines(s.sets);
  }

  // ---- A run from an empty cache that is not first-in first-out ----

  /** A step and the rest of an orderly run. */
  lemma OrderlySplit(s: State, heads: seq<nat>, ways: nat, r: Request, rest: seq<Request>)
    requires CacheOk(s, ways) && |heads| == |s.sets|
    ensures var t := Step(CACHE_FIFO, r.random, s, r.tag, r.op);
      && CacheOk(t, ways) && |t.sets| == |s.sets| && t.stats.tick == s.stats.tick + 1
      && (OrderlyRun(s, heads, ways, [r] + rest) <==> OrderlyNext(s, heads, r) && OrderlyRun(t, NextHeads(s, heads, r), ways, rest))
  {
    hide CacheOk, OrderlyNext, Counted, AfterOp, NextHead;
    StepOk(CACHE_FIFO, r.random, s, ways, r.tag, r.op);
    SetsThere(s, ways);
    var t := Step(CACHE_FIFO, r.random, s, r.tag, r.op);
    TickGoesUp(s, r);
    assert ([r] + rest)[1..] == rest;
  }

  lemma SetsThere(s: State, ways: nat)
    requires CacheOk(s, ways)
    ensures |s.sets| > 0 && forall i :: 0 <= i < |s.sets| ==> |s.sets[i]| > 0
  {
  }

  /** Reading the same resident line again and again changes nothing but the tick. */
  lemma {:induction false} ReadsOnlyTick(s: State, heads: seq<nat>, ways: nat, r: Request, n: nat, rest: seq<Request>) returns (t: State)
    requires CacheOk(s, ways) && |heads| == |s.sets| && r.op == READ && Hit(s.sets[SetOf(s, r.tag)], r.tag)
    ensures CacheOk(t, ways) && t.sets == s.sets && t.stats.tick == s.stats.tick + n
    ensures OrderlyRun(s, heads, ways, seq(n, _ => r) + rest) ==> OrderlyRun(t, heads, ways, rest)
    decreases n
  {
    hide CacheOk, OrderlyRun, Hit, SetOk;
    t := s;
    if n == 0 {
      assert seq(0, _ => r) + rest == rest;
    } else {
      SetsThere(s, ways);
      var later := seq(n - 1, _ => r) + rest;
      assert seq(n, _ => r) + rest == [r] + later;
      OrderlySplit(s, heads, ways, r, later);
      var next := Step(CACHE_FIFO, r.random, s, r.tag, r.op);
      var lines := s.sets[SetOf(s, r.tag)];
      assert Touched(lines, CACHE_FIFO, READ, s.stats.tick + 1) == lines by {
        assert lines[0] == Line(lines[0].valid, lines[0].tag, lines[0].dirty, lines[0].count);
      }
      assert next.sets == s.sets;
      assert NextHeads(s, heads, r) == heads;
      t := ReadsOnlyTick(next, heads, ways, r, n - 1, rest);
    }
  }

  lemma TwoWayVictim(lines: seq<Line>, random: nat)
    requires |lines| == 2 && lines[0].valid && lines[1].valid
    ensures VictimWay(lines, CACHE_FIFO, random) == if lines[1].count < Narrow(lines[0].count) then 1 else 0
  {
    hide Narrow;
    FreeIs(lines, 2);
    FirstScanned(lines);
    assert Least(lines, 2) == if lines[1].count < Least(lines, 1).1 then (1, Narrow(lines[1].count)) else Least(lines, 1);
  }

  /** A read miss in set 0 of two ways. */
  lemma MissInTwo(s: State, heads: seq<nat>, tag: nat, w: nat, rest: seq<Request>) returns (t: State, more: seq<nat>)
    requires CacheOk(s, 2) && |heads| == |s.sets| && SetOf(s, tag) == 0 && w < 2
    requires !Holds(s.sets[0][0], tag) && !Holds(s.sets[0][1], tag) && VictimWay(s.sets[0], CACHE_FIFO, 0) == w
    ensures CacheOk(t, 2) && |t.sets| == |s.sets| == |more| && t.stats.tick == s.stats.tick + 1
    ensures t.sets[0] == s.sets[0][w := Line(true, tag, false, s.stats.tick + 1)]
    ensures more[0] == if Free(s.sets[0], 0) < 2 then heads[0] else if heads[0] == 1 then 0 else heads[0] + 1
    ensures OrderlyRun(s, heads, 2, [Request(tag, READ, 0)] + rest) ==>
      (Free(s.sets[0], 0) < 2 || OldestGoes(s.sets[0], heads[0])) && OrderlyRun(t, more, 2, rest)
  {
    hide CacheOk, OrderlyRun, OldestGoes, VictimWay, Free;
    var r := Request(tag, READ, 0);
    SetsThere(s, 2);
    TwoWays(s);
    OrderlySplit(s, heads, 2, r, rest);
    assert !Hit(s.sets[0], tag);
    t, more := Step(CACHE_FIFO, 0, s, tag, READ), NextHeads(s, heads, r);
  }

  lemma TwoWays(s: State)
    requires CacheOk(s, 2)
    ensures |s.sets| > 0 && |s.sets[0]| == 2
  {
  }

  lemma Multiple(j: nat, n: nat)
    requires n > 0
    ensures j * n % n == 0
  {
    HashIndex.DivModUnique(j * n, n, j, 0);
  }

  /** The requests: one line, read until the tick is 2^31 - 1, and then four more lines of its set. */
  function LateRequests(sets: nat): (q: seq<Request>)
    ensures |q| == 0x8000_0003
  {
    [Request(0, READ, 0)] + (seq(0x7FFF_FFFE, _ => Request(0, READ, 0)) + LateMisses(sets))
  }

  function LateMisses(sets: nat): (q: seq<Request>)
    ensures |q| == 4
  {
    [Request(sets, READ, 0)] + ([Request(2 * sets, READ, 0)] + ([Request(3 * sets, READ, 0)] + ([Request(4 * sets, READ, 0)] + [])))
  }

  /** A read miss in a full set 0 of two ways with the given tags and counts. */
  lemma MissWhenFull(s: State, heads: seq<nat>, tag: nat, w: nat, rest: seq<Request>) returns (t: State, more: seq<nat>)
    requires CacheOk(s, 2) && |heads| == |s.sets| && SetOf(s, tag) == 0 && w < 2
    requires s.sets[0][0].valid && s.sets[0][1].valid && s.sets[0][0].tag != tag && s.sets[0][1].tag != tag
    requires w == 1 <==> s.sets[0][1].count < Narrow(s.sets[0][0].count)
    ensures CacheOk(t, 2) && |t.sets| == |s.sets| == |more| && t.stats.tick == s.stats.tick + 1
    ensures t.sets[0] == s.sets[0][w := Line(true, tag, false, s.stats.tick + 1)]
    ensures more[0] == if heads[0] == 1 then 0 else heads[0] + 1
    ensures OrderlyRun(s, heads, 2, [Request(tag, READ, 0)] + rest) ==>
      OldestGoes(s.sets[0], heads[0]) && OrderlyRun(t, more, 2, rest)
  {
    hide CacheOk, OrderlyRun, VictimWay, OldestGoes, Narrow;
    TwoWays(s);
    TwoWayVictim(s.sets[0], 0);
    FreeIs(s.sets[0], 2);
    t, more := MissInTwo(s, heads, tag, w, rest);
  }

  /** The four late misses in a set that has held one line since tick 1. */
  lemma LateMissesFail(s: State, heads: seq<nat>)
    requires CacheOk(s, 2) && |heads| == |s.sets| && heads[0] == 0 && s.stats.tick == 0x7FFF_FFFF
    requires s.sets[0][0] == Line(true, 0, false, 1) && !s.sets[0][1].valid
    ensures !OrderlyRun(s, heads, 2, LateMisses(|s.sets|))
  {
    hide CacheOk, OrderlyRun, VictimWay, OldestGoes, Free, Narrow, SetOf;
    var n := |s.sets|;
    TwoWays(s);
    InSetZero(s, 1);
    InSetZero(s, 2);
    InSetZero(s, 3);
    InSetZero(s, 4);
    FreeIs(s.sets[0], 1);
    VictimIsFree(s.sets[0]);
    LateNarrows();
    var three := [Request(4 * n, READ, 0)] + [];
    var two := [Request(3 * n, READ, 0)] + three;
    var one := [Request(2 * n, READ, 0)] + two;
    var t, more := MissInTwo(s, heads, n, 1, one);
    t, more := MissWhenFull(t, more, 2 * n, 0, two);
    t, more := MissWhenFull(t, more, 3 * n, 1, three);
    var u, last := MissWhenFull(t, more, 4 * n, 1, []);
    NewestGoes(t.sets[0]);
  }

  lemma InSetZero(s: State, j: nat)
    requires |s.sets| > 0
    ensures forall t: State | |t.sets| == |s.sets| :: SetOf(t, j * |s.sets|) == 0
  {
    Multiple(j, |s.sets|);
  }

  lemma LateNarrows()
    ensures Narrow(1) == 1 && Narrow(0x8000_0001) >= MAX_TICK
  {
  }

  lemma NewestGoes(lines: seq<Line>)
    requires |lines| == 2 && lines[0].count == 0x8000_0001
    ensures !OldestGoes(lines, 0)
  {
  }

  lemma VictimIsFree(lines: seq<Line>)
    requires 0 < |lines| && Free(lines, 0) < |lines|
    ensures VictimWay(lines, CACHE_FIFO, 0) == Free(lines, 0)
  {
  }

  /** From an empty cache of two ways, whatever its number of sets, a run of 2^31 + 3 reads is not first-in
      first-out: with counts above 2^31 the int of find_victim evicts the line filled last. */
  lemma FifoFailsFromEmpty(s: State)
    requires IsEmpty(s, 2)
    ensures CacheOk(s, 2) && FifoCache(s, seq(|s.sets|, _ => 0), 2)
    ensures !FifoThroughout(s, Queues(s, seq(|s.sets|, _ => 0), 2), 2, LateRequests(|s.sets|))
  {
    hide FifoCache, CacheOk, OrderlyRun, FifoThroughout, VictimWay, SetOk;
    var heads, n := seq(|s.sets|, _ => 0), |s.sets|;
    EmptyOk(s, 2);
    TwoWays(s);
    Multiple(0, n);
    FreeIs(s.sets[0], 0);
    VictimIsFree(s.sets[0]);
    var r := Request(0, READ, 0);
    var t, more := MissInTwo(s, heads, 0, 0, seq(0x7FFF_FFFE, _ => r) + LateMisses(n));
    assert Holds(t.sets[0][0], 0);
    var u := ReadsOnlyTick(t, more, 2, r, 0x7FFF_FFFE, LateMisses(n));
    LateMissesFail(u, more);
    FifoExactlyWhen(s, heads, 2, LateRequests(n));
  }
}
