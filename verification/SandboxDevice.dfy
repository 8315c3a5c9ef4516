/** The Sandbox prefetcher's deques and counters (prefetcher/sandbox.cc), proved against Sandbox. */
module SandboxDevice {
  import opened Sandbox

  class SandboxPrefetcher {
    const params: Params
    var evaluatedOffsets: seq<Score>
    var nonEvaluatedOffsets: seq<int>
    var currPtr: nat
    var totalDemand: nat
    var called: nat
    var rounds: nat

    ghost function View(): State
      reads this
    {
      State(evaluatedOffsets, nonEvaluatedOffsets, currPtr, totalDemand, called, rounds)
    }

    ghost predicate Valid()
      reads this
    {
      Ok(params, View()) && OnSchedule(params, View()) && 1 <= params.cycle <= SLOTS
    }

    /** init_evaluated_offsets, init_non_evaluated_offsets and reset_eval */
    constructor (params: Params)
      requires params.accesses > 0 && 1 <= params.cycle <= SLOTS
      ensures Valid() && IsInitial(params, View()) && this.params == params
    {
      this.params := params;
      currPtr, totalDemand, called, rounds := 0, 0, 0, 0;
      var evaluated: seq<Score>, waiting: seq<int> := [], [];
      var index: int := 1;
      while index <= 8
        invariant 1 <= index <= 9 && |evaluated| == index - 1
        invariant forall i :: 0 <= i < |evaluated| ==> evaluated[i] == Score(FirstEvaluated(i), 0)
      {
        evaluated := evaluated + [Score(index, 0)];
        index := index + 1;
      }
      index := -8;
      while index <= -1
        invariant -8 <= index <= 0 && |evaluated| == index + 16
        invariant forall i :: 0 <= i < |evaluated| ==> evaluated[i] == Score(FirstEvaluated(i), 0)
      {
        evaluated := evaluated + [Score(index, 0)];
        index := index + 1;
      }
      index := 9;
      while index <= 16
        invariant 9 <= index <= 17 && |waiting| == index - 9
        invariant forall i :: 0 <= i < |waiting| ==> waiting[i] == FirstWaiting(i)
      {
        waiting := waiting + [index];
        index := index + 1;
      }
      index := -16;
      while index <= -9
        invariant -16 <= index <= -8 && |waiting| == index + 24
        invariant forall i :: 0 <= i < |waiting| ==> waiting[i] == FirstWaiting(i)
      {
        waiting := waiting + [index];
        index := index + 1;
      }
      evaluatedOffsets, nonEvaluatedOffsets := evaluated, waiting;
      new;
      InitialOk(params, View());
    }

    /** Cycles out the n lowest scores, last one first. */
    method CycleOut(sorted: seq<Score>)
      requires |sorted| == SLOTS && params.cycle <= SLOTS
      modifies `evaluatedOffsets, `nonEvaluatedOffsets
      ensures evaluatedOffsets == sorted[..SLOTS - params.cycle]
      ensures nonEvaluatedOffsets == Waiting(sorted, old(nonEvaluatedOffsets), params.cycle)
    {
      hide Reversed, Offsets;
      ghost var waiting := nonEvaluatedOffsets;
      evaluatedOffsets := sorted;
      NothingOut(sorted);
      assert waiting + [] == waiting;
      var count := 0;
      while count < params.cycle
        invariant 0 <= count <= params.cycle && evaluatedOffsets == sorted[..SLOTS - count]
        invariant nonEvaluatedOffsets == waiting + Reversed(Offsets(sorted[SLOTS - count..]))
      {
        var score := evaluatedOffsets[|evaluatedOffsets| - 1];
        evaluatedOffsets := evaluatedOffsets[..|evaluatedOffsets| - 1];
        ReversedMore(sorted, SLOTS - count - 1);
        nonEvaluatedOffsets := nonEvaluatedOffsets + [score.offset];
        count := count + 1;
      }
    }

    /** Cycles in the n offsets that have waited longest. */
    method CycleIn()
      requires params.cycle <= |nonEvaluatedOffsets|
      modifies `evaluatedOffsets, `nonEvaluatedOffsets
      ensures nonEvaluatedOffsets == old(nonEvaluatedOffsets)[params.cycle..]
      ensures evaluatedOffsets == old(evaluatedOffsets) + Newcomers(old(nonEvaluatedOffsets), params.cycle)
    {
      ghost var kept, all := evaluatedOffsets, nonEvaluatedOffsets;
      var count := 0;
      while count < params.cycle
        invariant 0 <= count <= params.cycle && nonEvaluatedOffsets == all[count..]
        invariant evaluatedOffsets == kept + Newcomers(all, count)
      {
        var offset := nonEvaluatedOffsets[0];
        nonEvaluatedOffsets := nonEvaluatedOffsets[1..];
        evaluatedOffsets := evaluatedOffsets + [Score(offset, 0)];
        count := count + 1;
      }
    }

    /** end_of_round, given what std::sort made of the evaluated list. */
    method EndOfRound(sorted: seq<Score>)
      requires |sorted| == SLOTS && |nonEvaluatedOffsets| == SLOTS && params.cycle <= SLOTS
      modifies `evaluatedOffsets, `nonEvaluatedOffsets
      ensures (evaluatedOffsets, nonEvaluatedOffsets) == Sandbox.EndOfRound(sorted, old(nonEvaluatedOffsets), params.cycle)
    {
      CycleOut(sorted);
      CycleIn();
    }

    /** The scoring and stepping of invoke_prefetcher: both of its asserts hold. */
    method Access(gain: nat, sorted: seq<Score>)
      requires Valid() && |sorted| == SLOTS && EventOk(params, View(), Event(gain, sorted))
      modifies this
      ensures Valid() && View() == Step(params, old(View()), Event(gain, sorted))
    {
      ghost var s, e := View(), Event(gain, sorted);
      StepOk(params, s, e);
      StepOnSchedule(params, s, e);
      assert |evaluatedOffsets| == 16;
      assert 0 <= currPtr < |evaluatedOffsets|;
      called := called + 1;
      totalDemand := totalDemand + 1;
      var current := evaluatedOffsets[currPtr];
      evaluatedOffsets := evaluatedOffsets[currPtr := Score(current.offset, current.score + gain)];
      if totalDemand == params.accesses {
        var nextPtr := currPtr + 1;
        if nextPtr < |evaluatedOffsets| {
          totalDemand := 0;
          currPtr := nextPtr;
        } else {
          rounds := rounds + 1;
          EndOfRound(sorted);
          totalDemand := 0;
          currPtr := 0;
        }
      }
    }
  }

  lemma NothingOut(sorted: seq<Score>)
    ensures Reversed(Offsets(sorted[|sorted|..])) == []
  {
  }

  /** Popping one more. */
  lemma ReversedMore(sorted: seq<Score>, i: nat)
    requires i < |sorted|
    ensures Reversed(Offsets(sorted[i..])) == Reversed(Offsets(sorted[i + 1..])) + [sorted[i].offset]
  {
    assert sorted[i..] == [sorted[i]] + sorted[i + 1..];
    assert Offsets(sorted[i..]) == [sorted[i].offset] + Offsets(sorted[i + 1..]);
  }
}
