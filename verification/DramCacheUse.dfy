/** What a hit of the DRAM cache updates, and what its counters then say about recency and dirty lines
    (src/dram_cache.cc): a hit changes the first line of the set, whichever line was hit. */
module DramCacheUse {
  import opened Counting
  import opened DramCache

  // ---- Dirty lines ----

  function DirtyTags(lines: seq<Line>): set<nat> {
    set w | 0 <= w < |lines| && lines[w].valid && lines[w].dirty :: lines[w].tag
  }

  function ValidTags(lines: seq<Line>): set<nat> {
    set w | 0 <= w < |lines| && lines[w].valid :: lines[w].tag
  }

  /** What the dirty lines should be: those still there, and the line written. */
  function ShouldBeDirty(lines: seq<Line>, after: seq<Line>, tag: nat, op: Op): set<nat> {
    DirtyTags(lines) * ValidTags(after) + (if op == WRITE then {tag} else {})
  }

  /** An operation leaves exactly the right lines dirty, except that a write that hits another line than the first
      marks the first: unless both are dirty already. */
  lemma DirtyExactlyWhen(lines: seq<Line>, sets: nat, algo: Algo, random: nat, tag: nat, op: Op, tick: nat)
    requires sets > 0 && 0 < |lines| && SetOk(lines, sets, tag % sets)
    ensures var after := AfterOp(lines, algo, random, tag, op, tick);
      DirtyTags(after) == ShouldBeDirty(lines, after, tag, op) <==>
        || op == READ || tag !in ValidTags(lines) || lines[0].tag == tag
        || (tag in DirtyTags(lines) && lines[0].dirty)
  {
    HitTags(lines, tag);
    if Hit(lines, tag) {
      TouchedDirty(lines, sets, algo, tag, op, tick);
    } else {
      FilledDirty(lines, sets, VictimWay(lines, algo, random), tag, op, tick);
    }
  }

  lemma HitTags(lines: seq<Line>, tag: nat)
    ensures Hit(lines, tag) <==> tag in ValidTags(lines)
  {
    if Hit(lines, tag) {
      var w :| 0 <= w < |lines| && Holds(lines[w], tag);
    }
  }

  lemma TouchedDirty(lines: seq<Line>, sets: nat, algo: Algo, tag: nat, op: Op, tick: nat)
    requires sets > 0 && 0 < |lines| && SetOk(lines, sets, tag % sets) && Hit(lines, tag)
    ensures var after := Touched(lines, algo, op, tick);
      && DirtyTags(after) == DirtyTags(lines) + (if op == WRITE then {lines[0].tag} else {})
      && ValidTags(after) == ValidTags(lines)
    ensures lines[0].valid && DirtyTags(lines) <= ValidTags(lines)
    ensures lines[0].tag in DirtyTags(lines) <==> lines[0].dirty
  {
    var after := Touched(lines, algo, op, tick);
    HitFindsFirst(lines, sets, tag % sets, tag);
    forall x ensures x in DirtyTags(after) <==> x in DirtyTags(lines) || (op == WRITE && x == lines[0].tag) {
      if x in DirtyTags(lines) {
        var w :| 0 <= w < |lines| && lines[w].valid && lines[w].dirty && lines[w].tag == x;
        assert after[w].valid && after[w].dirty && after[w].tag == x;
      }
      if op == WRITE {
        assert after[0].dirty;
      }
    }
    forall x ensures x in ValidTags(after) <==> x in ValidTags(lines) {
      if x in ValidTags(lines) {
        var w :| 0 <= w < |lines| && lines[w].valid && lines[w].tag == x;
        assert after[w].valid && after[w].tag == x;
      }
    }
  }

  lemma FilledDirty(lines: seq<Line>, sets: nat, w: nat, tag: nat, op: Op, tick: nat)
    requires sets > 0 && SetOk(lines, sets, tag % sets) && w < |lines| && !Hit(lines, tag)
    requires Free(lines, 0) < |lines| ==> w == Free(lines, 0)
    ensures var after := Filled(lines, w, tag, op, tick);
      && DirtyTags(after) == ShouldBeDirty(lines, after, tag, op)
      && DirtyTags(lines) - ValidTags(after) == if lines[w].valid && lines[w].dirty then {lines[w].tag} else {}
  {
    var after := Filled(lines, w, tag, op, tick);
    assert forall v :: 0 <= v < |lines| ==> !Holds(lines[v], tag);
    forall x ensures x in ValidTags(after) <==> x == tag || (x in ValidTags(lines) && !(lines[w].valid && lines[w].tag == x)) {
      assert after[w].valid && after[w].tag == tag;
      if x in ValidTags(lines) && x != tag {
        var v :| 0 <= v < |lines| && lines[v].valid && lines[v].tag == x;
        assert v != w ==> after[v] == lines[v];
      }
    }
    forall x ensures x in DirtyTags(after) <==> x in ShouldBeDirty(lines, after, tag, op) {
      if x in DirtyTags(lines) && x in ValidTags(after) {
        var v :| 0 <= v < |lines| && lines[v].valid && lines[v].dirty && lines[v].tag == x;
        assert v != w ==> after[v] == lines[v];
      }
      assert after[w].dirty <==> op == WRITE;
    }
  }

  /** cache_to_next_mem counts exactly the dirty lines that leave. */
  lemma DirtyLossCounted(lines: seq<Line>, t: Stats, sets: nat, algo: Algo, random: nat, tag: nat, op: Op, tick: nat)
    requires sets > 0 && 0 < |lines| && SetOk(lines, sets, tag % sets)
    ensures var after := AfterOp(lines, algo, random, tag, op, tick);
      Counted(lines, t, algo, random, tag, op).toNextMem == t.toNextMem + |DirtyTags(lines) - ValidTags(after)|
  {
    if Hit(lines, tag) {
      TouchedDirty(lines, sets, algo, tag, op, tick);
      assert DirtyTags(lines) - ValidTags(Touched(lines, algo, op, tick)) == {};
    } else {
      FilledDirty(lines, sets, VictimWay(lines, algo, random), tag, op, tick);
    }
  }

  // ---- Recency ----

  /** `uses` are the ticks of the latest operations on the lines of a set. */
  ghost predicate CountsAreUses(lines: seq<Line>, uses: seq<nat>) {
    |uses| == |lines| && forall w :: 0 <= w < |lines| && lines[w].valid ==> lines[w].count == uses[w]
  }

  ghost predicate UsesWithin(uses: seq<nat>, tick: nat) {
    forall w :: 0 <= w < |uses| ==> uses[w] <= tick
  }

  /** The way that an operation uses: the one it hits, or the one it fills. */
  ghost function WayUsed(lines: seq<Line>, algo: Algo, random: nat, tag: nat): (w: nat)
    requires 0 < |lines|
    ensures w < |lines|
  {
    if Hit(lines, tag) then
      var w: nat :| w < |lines| && Holds(lines[w], tag);
      w
    else VictimWay(lines, algo, random)
  }

  /** Unless the policy is FIFO, the counts stay the ticks of the last uses exactly through misses and through hits
      of the first way. */
  lemma UsesKeptExactlyWhen(lines: seq<Line>, uses: seq<nat>, sets: nat, algo: Algo, random: nat, tag: nat, op: Op, tick: nat)
    requires sets > 0 && 0 < |lines| && SetOk(lines, sets, tag % sets) && algo != CACHE_FIFO
    requires CountsAreUses(lines, uses) && UsesWithin(uses, tick)
    ensures CountsAreUses(AfterOp(lines, algo, random, tag, op, tick + 1), uses[WayUsed(lines, algo, random, tag) := tick + 1])
            <==> tag !in ValidTags(lines) || lines[0].tag == tag
  {
    hide VictimWay;
    HitTags(lines, tag);
    var after, w := AfterOp(lines, algo, random, tag, op, tick + 1), WayUsed(lines, algo, random, tag);
    if Hit(lines, tag) {
      HitFindsFirst(lines, sets, tag % sets, tag);
      assert after[w].valid && lines[w].tag == tag;
      if w > 0 {
        assert after[w].count == uses[w] <= tick;
        assert lines[0].tag != lines[w].tag;
      } else {
        assert forall v :: 0 < v < |lines| ==> after[v] == lines[v];
      }
    } else {
      assert after == lines[w := after[w]] && after[w].count == tick + 1;
    }
  }

  /** With true last uses below 2^31, LRU evicts the line used the longest ago. */
  lemma LruEvictsOldestUse(lines: seq<Line>, uses: seq<nat>, random: nat, w: nat)
    requires 0 < |lines| && Free(lines, 0) == |lines| && CountsAreUses(lines, uses) && UsesWithin(uses, 0x7FFF_FFFF) && w < |lines|
    ensures uses[VictimWay(lines, CACHE_LRU, random)] <= uses[w]
  {
    LeastIsLeast(lines, |lines|);
    assert lines[w].valid && lines[Least(lines, |lines|).0].valid;
  }

  lemma {:induction false} LeastIsLeast(lines: seq<Line>, n: nat)
    requires 0 < |lines| && n <= |lines| && forall w :: 0 <= w < |lines| ==> lines[w].count < 0x8000_0000
    ensures Least(lines, n).1 == lines[Least(lines, n).0].count
    ensures forall w :: 0 <= w < n ==> Least(lines, n).1 <= lines[w].count
  {
    if n > 0 {
      LeastIsLeast(lines, n - 1);
    }
  }

  /** RAND can evict every way of a full set. */
  lemma RandomEvictsAny(lines: seq<Line>, w: nat)
    requires w < |lines| && Free(lines, 0) == |lines|
    ensures VictimWay(lines, CACHE_RAND, w) == w
  {
  }

  // ---- Recency over runs ----

  ghost predicate UsesOk(s: State, uses: seq<seq<nat>>) {
    |uses| == |s.sets| && forall i :: 0 <= i < |uses| ==> |uses[i]| == |s.sets[i]| && UsesWithin(uses[i], s.stats.tick)
  }

  /** The counts of all sets are the ticks of the last uses. */
  ghost predicate TrueCounts(s: State, uses: seq<seq<nat>>) {
    |uses| == |s.sets| && forall i :: 0 <= i < |uses| ==> CountsAreUses(s.sets[i], uses[i])
  }

  ghost function UsesAfter(s: State, uses: seq<seq<nat>>, algo: Algo, r: Request): seq<seq<nat>>
    requires |uses| == |s.sets| > 0 && forall i :: 0 <= i < |uses| ==> |uses[i]| == |s.sets[i]| > 0
  {
    var i := SetOf(s, r.tag);
    var one: seq<nat> := uses[i][WayUsed(s.sets[i], algo, r.random, r.tag) := s.stats.tick + 1];
    uses[i := one]
  }

  /** The request misses, or hits the first way of its set. */
  predicate HitsFirst(s: State, tag: nat)
    requires |s.sets| > 0 && forall i :: 0 <= i < |s.sets| ==> |s.sets[i]| > 0
  {
    tag !in ValidTags(s.sets[SetOf(s, tag)]) || s.sets[SetOf(s, tag)][0].tag == tag
  }

  lemma StepUses(s: State, uses: seq<seq<nat>>, ways: nat, algo: Algo, r: Request)
    requires CacheOk(s, ways) && UsesOk(s, uses) && TrueCounts(s, uses) && algo != CACHE_FIFO
    ensures var t, more := Step(algo, r.random, s, r.tag, r.op), UsesAfter(s, uses, algo, r);
      CacheOk(t, ways) && UsesOk(t, more) && (TrueCounts(t, more) <==> HitsFirst(s, r.tag))
  {
    hide SetOk, AfterOp, Balanced, CountsAreUses, Counted, WayUsed;
    var i := SetOf(s, r.tag);
    StepOk(algo, r.random, s, ways, r.tag, r.op);
    UsesKeptExactlyWhen(s.sets[i], uses[i], |s.sets|, algo, r.random, r.tag, r.op, s.stats.tick);
    Ticks(s, algo, r);
    var t, more := Step(algo, r.random, s, r.tag, r.op), UsesAfter(s, uses, algo, r);
    forall j | 0 <= j < |more| && j != i ensures CountsAreUses(t.sets[j], more[j]) {
      assert CountsAreUses(s.sets[j], uses[j]);
    }
    assert t.sets[i] == AfterOp(s.sets[i], algo, r.random, r.tag, r.op, s.stats.tick + 1);
    assert HitsFirst(s, r.tag) ==> forall j :: 0 <= j < |more| ==> CountsAreUses(t.sets[j], more[j]);
  }

  lemma CacheShape(s: State, ways: nat)
    requires CacheOk(s, ways)
    ensures |s.sets| > 0 && forall i :: 0 <= i < |s.sets| ==> |s.sets[i]| > 0
  {
  }

  lemma Ticks(s: State, algo: Algo, r: Request)
    requires |s.sets| > 0 && forall i :: 0 <= i < |s.sets| ==> |s.sets[i]| > 0
    ensures Step(algo, r.random, s, r.tag, r.op).stats.tick == s.stats.tick + 1
  {
  }

  /** In every state of the run the counts are the ticks of the last uses. */
  ghost predicate TrueThroughout(s: State, uses: seq<seq<nat>>, ways: nat, algo: Algo, requests: seq<Request>)
    requires CacheOk(s, ways) && UsesOk(s, uses)
    decreases |requests|
  {
    TrueCounts(s, uses) && (|requests| == 0 || (
      var r := requests[0];
      StepOk(algo, r.random, s, ways, r.tag, r.op);
      UsesOk(Step(algo, r.random, s, r.tag, r.op), UsesAfter(s, uses, algo, r))
      && TrueThroughout(Step(algo, r.random, s, r.tag, r.op), UsesAfter(s, uses, algo, r), ways, algo, requests[1..])))
  }

  /** Every hit of the run hits the first way. */
  ghost predicate FirstHitsOnly(s: State, ways: nat, algo: Algo, requests: seq<Request>)
    requires CacheOk(s, ways)
    decreases |requests|
  {
    |requests| == 0 || (
      var r := requests[0];
      StepOk(algo, r.random, s, ways, r.tag, r.op);
      HitsFirst(s, r.tag) && FirstHitsOnly(Step(algo, r.random, s, r.tag, r.op), ways, algo, requests[1..]))
  }

  /** Under LRU and RAND the counts tell the last uses throughout a run exactly when each of its hits is of the
      first way of a set. */
  lemma {:induction false} RecencyExactlyWhen(s: State, uses: seq<seq<nat>>, ways: nat, algo: Algo, requests: seq<Request>)
    requires CacheOk(s, ways) && UsesOk(s, uses) && TrueCounts(s, uses) && algo != CACHE_FIFO
    ensures TrueThroughout(s, uses, ways, algo, requests) <==> FirstHitsOnly(s, ways, algo, requests)
    decreases |requests|
  {
    hide Step, CacheOk, TrueCounts, HitsFirst, UsesAfter, UsesWithin;
    CacheShape(s, ways);
    if |requests| > 0 {
      var r := requests[0];
      StepUses(s, uses, ways, algo, r);
      if HitsFirst(s, r.tag) {
        RecencyExactlyWhen(Step(algo, r.random, s, r.tag, r.op), UsesAfter(s, uses, algo, r), ways, algo, requests[1..]);
      }
    }
  }

  /** In a two-way set under LRU: after filling two lines and hitting the second, a third evicts the line that
      was just used and keeps the other. */
  lemma LruEvictsLastUsed(sets: nat, tick: nat)
    requires sets > 0 && tick + 4 < 0x8000_0000
    ensures var a := [Line(false, 0, false, 0), Line(false, 0, false, 0)];
      var b := AfterOp(a, CACHE_LRU, 0, 0, READ, tick + 1);
      var c := AfterOp(b, CACHE_LRU, 0, sets, READ, tick + 2);
      var d := AfterOp(c, CACHE_LRU, 0, sets, READ, tick + 3);
      var e := AfterOp(d, CACHE_LRU, 0, 2 * sets, READ, tick + 4);
      Hit(d, sets) && Hit(e, 0) && !Hit(e, sets)
  {
    var a := [Line(false, 0, false, 0), Line(false, 0, false, 0)];
    var b := [Line(true, 0, false, tick + 1), Line(false, 0, false, 0)];
    var c := [Line(true, 0, false, tick + 1), Line(true, sets, false, tick + 2)];
    var d := [Line(true, 0, false, tick + 3), Line(true, sets, false, tick + 2)];
    FreeIs(a, 0);
    assert AfterOp(a, CACHE_LRU, 0, 0, READ, tick + 1) == b;
    FreeIs(b, 1);
    assert AfterOp(b, CACHE_LRU, 0, sets, READ, tick + 2) == c;
    assert Holds(c[1], sets);
    assert AfterOp(c, CACHE_LRU, 0, sets, READ, tick + 3) == d;
    assert Holds(d[1], sets);
    FreeIs(d, 2);
    assert Least(d, 1) == (0, tick + 3);
    assert Least(d, 2) == (1, tick + 2);
    var e := AfterOp(d, CACHE_LRU, 0, 2 * sets, READ, tick + 4);
    assert Holds(e[0], 0);
  }
}
