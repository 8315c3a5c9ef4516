/** The Sandbox prefetcher's rotation of candidate offsets (prefetcher/sandbox.cc): sixteen are under
    evaluation, sixteen wait, and every round exchanges n of them. */
module Sandbox {
  import HashIndex

  const SLOTS := 16

  datatype Score = Score(offset: int, score: nat)

  /** `called` and `rounds` are the source's own statistics. */
  datatype State = State(evaluated: seq<Score>, waiting: seq<int>, currPtr: nat, totalDemand: nat, called: nat, rounds: nat)

  /** Accesses in a phase, and offsets exchanged per round. */
  datatype Params = Params(accesses: nat, cycle: nat)

  function Offsets(ss: seq<Score>): seq<int> {
    seq(|ss|, i requires 0 <= i < |ss| => ss[i].offset)
  }

  /** The offsets the prefetcher ever considers. */
  predicate Candidate(o: int) { -16 <= o <= 16 && o != 0 }

  ghost predicate Different(q: seq<int>) {
    forall i, j :: 0 <= i < j < |q| ==> q[i] != q[j]
  }

  /** Evaluated and waiting offsets partition the candidates into two halves. */
  ghost predicate Partition(s: State) {
    && |s.evaluated| == SLOTS && |s.waiting| == SLOTS
    && Different(Offsets(s.evaluated) + s.waiting)
    && forall i :: 0 <= i < 2 * SLOTS ==> Candidate((Offsets(s.evaluated) + s.waiting)[i])
  }

  ghost predicate Ok(p: Params, s: State) {
    Partition(s) && s.currPtr < SLOTS && s.totalDemand < p.accesses
  }

  // ---- The end of a round ----

  /** What std::sort may return: a permutation, in descending order of score. */
  ghost predicate Sorted(evaluated: seq<Score>, sorted: seq<Score>) {
    && multiset(sorted) == multiset(evaluated)
    && forall i, j :: 0 <= i < j < |sorted| ==> sorted[i].score >= sorted[j].score
  }

  function Reversed(q: seq<int>): (r: seq<int>)
    ensures |r| == |q|
  {
    seq(|q|, i requires 0 <= i < |q| => q[|q| - 1 - i])
  }

  /** How many offsets a round can cycle out of the sorted list. */
  function Out(sorted: seq<Score>, n: nat): nat { if n <= |sorted| then n else |sorted| }

  /** The lowest scores leave, last one first, to the end of the waiting list. */
  function Waiting(sorted: seq<Score>, waiting: seq<int>, n: nat): seq<int> {
    waiting + Reversed(Offsets(sorted[|sorted| - Out(sorted, n)..]))
  }

  /** The first n waiting offsets, with score 0. */
  function Newcomers(w: seq<int>, n: nat): seq<Score>
    requires n <= |w|
  {
    seq(n, i requires 0 <= i < n => Score(w[i], 0))
  }

  /** end_of_round: the first waiting offsets take their place, with score 0. */
  function EndOfRound(sorted: seq<Score>, waiting: seq<int>, n: nat): (seq<Score>, seq<int>)
    requires n <= |waiting| + Out(sorted, n)
  {
    var w := Waiting(sorted, waiting, n);
    (sorted[..|sorted| - Out(sorted, n)] + Newcomers(w, n), w[n..])
  }

  /** The sixteen evaluated offsets stay sixteen exactly when n is at most sixteen: a larger setting
      fails the assert at the next access. */
  lemma SixteenExactlyWhen(sorted: seq<Score>, waiting: seq<int>, n: nat)
    requires |sorted| == |waiting| == SLOTS && n <= 2 * SLOTS
    ensures |EndOfRound(sorted, waiting, n).0| == SLOTS <==> n <= SLOTS
  {
  }

  /** What leaves scores no better than what stays. */
  lemma DropsLowest(evaluated: seq<Score>, sorted: seq<Score>, n: nat, i: nat, j: nat)
    requires Sorted(evaluated, sorted) && n <= |sorted| && i < |sorted| - n <= j < |sorted|
    ensures sorted[j].score <= sorted[i].score && sorted[i] in evaluated && sorted[j] in evaluated
  {
    assert sorted[i] in multiset(sorted) && sorted[j] in multiset(sorted);
  }

  /** Taking out one entry takes out its offset. */
  lemma TakeOut(b: seq<Score>, j: nat)
    requires j < |b|
    ensures var rest := b[..j] + b[j + 1..];
      && multiset(rest) == multiset(b) - multiset{b[j]}
      && multiset(Offsets(b)) == multiset(Offsets(rest)) + multiset{b[j].offset}
  {
    var rest := b[..j] + b[j + 1..];
    assert b == b[..j] + [b[j]] + b[j + 1..];
    assert Offsets(b) == Offsets(b[..j]) + [b[j].offset] + Offsets(b[j + 1..]);
    assert Offsets(rest) == Offsets(b[..j]) + Offsets(b[j + 1..]);
  }

  lemma {:induction false} PermutedOffsets(a: seq<Score>, b: seq<Score>)
    requires multiset(a) == multiset(b)
    ensures multiset(Offsets(a)) == multiset(Offsets(b))
    decreases |a|
  {
    hide Offsets;
    if |a| == 0 {
      assert |multiset(b)| == 0;
    } else {
      var j := PlaceOf(b, a[0], a);
      TakeOut(a, 0);
      TakeOut(b, j);
      PermutedOffsets(a[..0] + a[1..], b[..j] + b[j + 1..]);
    }
  }

  lemma PlaceOf(b: seq<Score>, x: Score, a: seq<Score>) returns (j: nat)
    requires multiset(a) == multiset(b) && x in a
    ensures j < |b| && b[j] == x
  {
    assert x in multiset(b);
    j :| 0 <= j < |b| && b[j] == x;
  }

  /** Distinctness and range depend on the elements only. */
  lemma {:induction false} DifferentByMultiset(a: seq<int>, b: seq<int>)
    requires multiset(a) == multiset(b) && Different(a)
    ensures Different(b)
  {
    forall i, j | 0 <= i < j < |b| ensures b[i] != b[j] {
      if b[i] == b[j] {
        TwiceIn(b, i, j);
        OnceIn(a, b[i]);
      }
    }
  }

  lemma TwiceIn(b: seq<int>, i: nat, j: nat)
    requires i < j < |b| && b[i] == b[j]
    ensures multiset(b)[b[i]] >= 2
  {
    assert b == b[..j] + [b[j]] + b[j + 1..];
    assert b[i] in b[..j];
  }

  lemma {:induction false} OnceIn(a: seq<int>, x: int)
    requires Different(a)
    ensures multiset(a)[x] <= 1
  {
    if |a| > 0 {
      OnceIn(a[1..], x);
      assert a == [a[0]] + a[1..];
      if a[0] == x {
        assert x !in a[1..];
        assert multiset(a[1..])[x] == 0;
      }
    }
  }

  lemma ReversedSame(q: seq<int>)
    ensures multiset(Reversed(q)) == multiset(q)
  {
    if |q| > 0 {
      var n := |q| - 1;
      ReversedSame(q[..n]);
      assert q == q[..n] + [q[n]];
      assert Reversed(q) == [q[n]] + Reversed(q[..n]);
    }
  }

  /** A round only moves offsets. */
  lemma RoundMoves(evaluated: seq<Score>, sorted: seq<Score>, waiting: seq<int>, n: nat)
    requires Sorted(evaluated, sorted) && n <= |sorted| && n <= |waiting|
    ensures var (e, w) := EndOfRound(sorted, waiting, n);
      && |e| == |evaluated| && |w| == |waiting|
      && multiset(Offsets(e) + w) == multiset(Offsets(evaluated) + waiting)
  {
    assert |sorted| == |evaluated| by {
      assert |multiset(sorted)| == |multiset(evaluated)|;
    }
    PermutedOffsets(sorted, evaluated);
    var keep, leave := sorted[..|sorted| - n], sorted[|sorted| - n..];
    var (e, w) := EndOfRound(sorted, waiting, n);
    var all := Waiting(sorted, waiting, n);
    ReversedSame(Offsets(leave));
    assert Offsets(e) == Offsets(keep) + all[..n];
    assert Offsets(sorted) == Offsets(keep) + Offsets(leave);
    Exchange(Offsets(keep), Offsets(leave), Reversed(Offsets(leave)), waiting, all, n);
  }

  lemma Exchange(keep: seq<int>, leave: seq<int>, reversed: seq<int>, waiting: seq<int>, all: seq<int>, n: nat)
    requires multiset(reversed) == multiset(leave) && all == waiting + reversed && n <= |all|
    ensures multiset(keep + all[..n] + all[n..]) == multiset(keep + leave + waiting)
  {
    assert all == all[..n] + all[n..];
    assert keep + all[..n] + all[n..] == keep + all;
  }

  lemma RoundKeepsPartition(s: State, sorted: seq<Score>, n: nat)
    requires Partition(s) && Sorted(s.evaluated, sorted) && n <= SLOTS
    ensures |sorted| == SLOTS
    ensures var (e, w) := EndOfRound(sorted, s.waiting, n); Partition(s.(evaluated := e, waiting := w))
  {
    assert |multiset(sorted)| == |multiset(s.evaluated)|;
    var (e, w) := EndOfRound(sorted, s.waiting, n);
    RoundMoves(s.evaluated, sorted, s.waiting, n);
    var before, after := Offsets(s.evaluated) + s.waiting, Offsets(e) + w;
    DifferentByMultiset(before, after);
    forall i | 0 <= i < 2 * SLOTS ensures Candidate(after[i]) {
      assert after[i] in multiset(after);
      assert after[i] in multiset(before);
    }
  }

  // ---- The phases ----

  /** Phase and round stepping of invoke_prefetcher. `gain` is what the Bloom filter lookups add to the
      score under evaluation, `sorted` what std::sort makes of the list at the end of a round. */
  datatype Event = Event(gain: nat, sorted: seq<Score>)

  function Gained(s: State, gain: nat): seq<Score>
    requires s.currPtr < |s.evaluated|
  {
    var e := s.evaluated[s.currPtr];
    s.evaluated[s.currPtr := Score(e.offset, e.score + gain)]
  }

  predicate EndsPhase(p: Params, s: State) { s.totalDemand + 1 == p.accesses }

  predicate EndsRound(p: Params, s: State) { EndsPhase(p, s) && s.currPtr + 1 >= |s.evaluated| }

  ghost predicate EventOk(p: Params, s: State, e: Event)
    requires s.currPtr < |s.evaluated|
  {
    EndsRound(p, s) ==> Sorted(Gained(s, e.gain), e.sorted)
  }

  function Step(p: Params, s: State, e: Event): State
    requires Ok(p, s) && p.cycle <= SLOTS && |e.sorted| == SLOTS
  {
    var t := s.(evaluated := Gained(s, e.gain), called := s.called + 1);
    if EndsRound(p, s) then
      var (ev, w) := EndOfRound(e.sorted, s.waiting, p.cycle);
      t.(evaluated := ev, waiting := w, currPtr := 0, totalDemand := 0, rounds := s.rounds + 1)
    else if EndsPhase(p, s) then t.(currPtr := s.currPtr + 1, totalDemand := 0)
    else t.(totalDemand := s.totalDemand + 1)
  }

  lemma GainedOffsets(s: State, gain: nat)
    requires s.currPtr < |s.evaluated|
    ensures Offsets(Gained(s, gain)) == Offsets(s.evaluated)
  {
  }

  /** Every access passes the asserts of invoke_prefetcher and keeps the partition. */
  lemma StepOk(p: Params, s: State, e: Event)
    requires Ok(p, s) && EventOk(p, s, e) && p.cycle <= SLOTS && |e.sorted| == SLOTS
    ensures Ok(p, Step(p, s, e))
  {
    GainedOffsets(s, e.gain);
    if EndsRound(p, s) {
      RoundKeepsPartition(s.(evaluated := Gained(s, e.gain)), e.sorted, p.cycle);
    }
  }

  // ---- Rotation ----

  /** `events` lead from s to t. */
  ghost predicate Run(p: Params, s: State, events: seq<Event>, t: State)
    decreases |events|
  {
    if |events| == 0 then s == t
    else
      && Ok(p, s) && p.cycle <= SLOTS && |events[0].sorted| == SLOTS && EventOk(p, s, events[0])
      && Run(p, Step(p, s, events[0]), events[1..], t)
  }

  lemma {:induction false} RunKeepsOk(p: Params, s: State, events: seq<Event>, t: State)
    requires Ok(p, s) && Run(p, s, events, t)
    ensures Ok(p, t) && t.rounds >= s.rounds
    decreases |events|
  {
    hide Ok, EventOk, EndOfRound;
    if |events| > 0 {
      StepOk(p, s, events[0]);
      RunKeepsOk(p, Step(p, s, events[0]), events[1..], t);
    }
  }

  /** In how many rounds the offset at waiting position k comes under evaluation. */
  function RoundsNeeded(k: nat, n: nat): nat
    requires n > 0
  {
    if k < n then 1 else 1 + RoundsNeeded(k - n, n)
  }

  lemma {:induction false} RoundsNeededIs(k: nat, n: nat)
    requires n > 0
    ensures RoundsNeeded(k, n) == k / n + 1
  {
    if k >= n {
      RoundsNeededIs(k - n, n);
      DivStep(k, n);
    } else {
      assert k / n == 0;
    }
  }

  lemma DivStep(k: nat, n: nat)
    requires 0 < n <= k
    ensures k / n == (k - n) / n + 1
  {
    var q, r := (k - n) / n, (k - n) % n;
    assert k - n == n * q + r;
    OneMore(q, n);
    HashIndex.DivModUnique(k, n, q + 1, r);
  }

  ghost predicate WaitsAt(s: State, k: int, o: int) { 0 <= k < |s.waiting| && s.waiting[k] == o }

  /** How far an offset moves up in r rounds: r * n places. */
  function Moved(r: nat, n: nat): nat { if r == 0 then 0 else n + Moved(r - 1, n) }

  lemma {:induction false} MovedIs(r: nat, n: nat)
    ensures Moved(r, n) == r * n
  {
    if r > 0 {
      MovedIs(r - 1, n);
      OneMore(r - 1, n);
    }
  }

  ghost predicate UnderEvaluation(s: State, o: int) { o in Offsets(s.evaluated) }

  /** A round brings the first n waiting offsets under evaluation and moves the others up by n. */
  lemma RoundRotates(sorted: seq<Score>, waiting: seq<int>, n: nat, k: nat)
    requires |sorted| == |waiting| == SLOTS && n <= SLOTS && k < SLOTS
    ensures var (e, w) := EndOfRound(sorted, waiting, n);
      if k < n then waiting[k] in Offsets(e) else k - n < |w| && w[k - n] == waiting[k]
  {
    var (e, w) := EndOfRound(sorted, waiting, n);
    if k < n {
      assert Offsets(e)[SLOTS - n + k] == waiting[k];
    }
  }

  /** While no round ends, the same offsets are under evaluation. */
  lemma {:induction false} SameRound(p: Params, s: State, events: seq<Event>, t: State)
    requires Ok(p, s) && Run(p, s, events, t) && t.rounds == s.rounds
    ensures Offsets(t.evaluated) == Offsets(s.evaluated) && t.waiting == s.waiting
    decreases |events|
  {
    hide Ok, EventOk, EndOfRound;
    if |events| > 0 {
      var u := Step(p, s, events[0]);
      StepOk(p, s, events[0]);
      RunKeepsOk(p, u, events[1..], t);
      Slot(p, s);
      GainedOffsets(s, events[0].gain);
      SameRound(p, u, events[1..], t);
    }
  }

  /** The access that ends a round keeps the best offsets with their scores; the others start with score 0. */
  lemma RoundStarts(p: Params, s: State, e: Event, i: nat)
    requires Ok(p, s) && EventOk(p, s, e) && p.cycle <= SLOTS && |e.sorted| == SLOTS && EndsRound(p, s) && i < SLOTS
    ensures var t := Step(p, s, e);
      && |t.evaluated| == |s.waiting| == SLOTS && t.rounds == s.rounds + 1 && t.currPtr == 0
      && t.evaluated[i] == if i < SLOTS - p.cycle then e.sorted[i] else Score(s.waiting[i - (SLOTS - p.cycle)], 0)
  {
  }

  /** What the accesses of a run gain for the offset at place i: those of its own phase. */
  ghost function GainsOf(p: Params, s: State, events: seq<Event>, t: State, i: nat): nat
    requires Run(p, s, events, t)
    decreases |events|
  {
    if |events| == 0 then 0
    else (if s.currPtr == i then events[0].gain else 0) + GainsOf(p, Step(p, s, events[0]), events[1..], t, i)
  }

  /** While no round ends, the score of each offset is its earlier one and the gains of its own phase. */
  lemma {:induction false} ScoresAddUp(p: Params, s: State, events: seq<Event>, t: State, i: nat)
    requires Ok(p, s) && Run(p, s, events, t) && t.rounds == s.rounds && i < SLOTS
    ensures |t.evaluated| == |s.evaluated| == SLOTS
    ensures t.evaluated[i].score == s.evaluated[i].score + GainsOf(p, s, events, t, i)
    decreases |events|
  {
    hide Ok, EventOk, EndOfRound;
    Slot(p, s);
    if |events| > 0 {
      var u := Step(p, s, events[0]);
      StepOk(p, s, events[0]);
      RunKeepsOk(p, u, events[1..], t);
      ScoresAddUp(p, u, events[1..], t, i);
    }
  }

  lemma Slot(p: Params, s: State)
    requires Ok(p, s)
    ensures s.currPtr < |s.evaluated| == SLOTS == |s.waiting|
  {
  }

  /** The offset at waiting position k is under evaluation after floor(k/n) + 1 rounds, whatever the
      scores; until then it has moved up by n places a round. */
  lemma {:induction false} Rotation(p: Params, s: State, events: seq<Event>, t: State, k: nat)
    requires 0 < p.cycle && Ok(p, s) && Run(p, s, events, t) && k < SLOTS && |s.waiting| == SLOTS
    requires t.rounds - s.rounds <= RoundsNeeded(k, p.cycle)
    ensures s.rounds <= t.rounds
    ensures t.rounds - s.rounds == RoundsNeeded(k, p.cycle) ==> UnderEvaluation(t, s.waiting[k])
    ensures t.rounds - s.rounds < RoundsNeeded(k, p.cycle) ==> WaitsAt(t, k - Moved(t.rounds - s.rounds, p.cycle), s.waiting[k])
    decreases |events|
  {
    hide Ok, EventOk, EndOfRound;
    if |events| > 0 {
      var u := Step(p, s, events[0]);
      StepOk(p, s, events[0]);
      RunKeepsOk(p, u, events[1..], t);
      Slot(p, s);
      Slot(p, u);
      if EndsRound(p, s) {
        RoundRotates(events[0].sorted, s.waiting, p.cycle, k);
        if k < p.cycle {
          SameRound(p, u, events[1..], t);
        } else {
          Rotation(p, u, events[1..], t, k - p.cycle);
        }
      } else {
        Rotation(p, u, events[1..], t, k);
      }
    }
  }

  lemma OneMore(r: nat, n: nat)
    ensures (r + 1) * n == r * n + n
  {
  }

  // ---- How long a round takes ----

  /** Position within the round. */
  function Position(p: Params, s: State): nat { s.currPtr * p.accesses + s.totalDemand }

  /** Every access is one step of its phase, and sixteen phases make a round. */
  ghost predicate OnSchedule(p: Params, s: State) {
    s.called == s.rounds * (SLOTS * p.accesses) + Position(p, s)
  }

  lemma StepOnSchedule(p: Params, s: State, e: Event)
    requires Ok(p, s) && EventOk(p, s, e) && p.cycle <= SLOTS && |e.sorted| == SLOTS && OnSchedule(p, s)
    ensures OnSchedule(p, Step(p, s, e))
  {
    hide EndOfRound;
    OneMore(s.rounds, SLOTS * p.accesses);
    OneMore(s.currPtr, p.accesses);
  }

  /** At the start 1..8 and -8..-1 are evaluated, */
  function FirstEvaluated(i: nat): int { if i < 8 then i + 1 else i - 16 }

  /** and 9..16 and -16..-9 wait. */
  function FirstWaiting(i: nat): int { if i < 8 then i + 9 else i - 24 }

  ghost predicate IsInitial(p: Params, s: State) {
    && |s.evaluated| == |s.waiting| == SLOTS && p.accesses > 0
    && (forall i :: 0 <= i < SLOTS ==> s.evaluated[i] == Score(FirstEvaluated(i), 0) && s.waiting[i] == FirstWaiting(i))
    && s.currPtr == s.totalDemand == s.called == s.rounds == 0
  }

  lemma InitialOk(p: Params, s: State)
    requires IsInitial(p, s)
    ensures Ok(p, s) && OnSchedule(p, s)
  {
    var all := Offsets(s.evaluated) + s.waiting;
    assert forall i :: 0 <= i < 2 * SLOTS ==> all[i] == if i < SLOTS then FirstEvaluated(i) else FirstWaiting(i - SLOTS);
  }
}
