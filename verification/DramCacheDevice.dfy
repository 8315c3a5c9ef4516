/** DRAM_Cache over one flat array of lines (src/dram_cache.cc), proved against DramCache. */
module DramCacheDevice {
  import opened DramCache

  /** Where set i starts in the array: sets do not overlap and fit in. */
  lemma SetBounds(i: nat, j: nat, sets: nat, ways: nat)
    requires i < sets && j < sets
    ensures 0 <= i * ways && i * ways + ways <= sets * ways
    ensures i < j ==> i * ways + ways <= j * ways
  {
    Times(i + 1, sets, ways);
    if i < j {
      Times(i + 1, j, ways);
    }
  }

  lemma Times(a: nat, b: nat, w: nat)
    requires a <= b
    ensures a * w <= b * w && (a > 0 ==> (a - 1) * w + w == a * w)
  {
  }

  class DramCacheArray {
    const caches: array<Line>
    const cacheSetNum: nat
    const cacheWays: nat
    const replacementAlgo: Algo
    var stats: Stats

    ghost function Repr(): set<object> { {this, caches} }

    ghost predicate Shape() {
      cacheSetNum > 0 && cacheWays > 0 && cacheSetNum * cacheWays <= caches.Length
    }

    ghost function SetView(i: nat): (lines: seq<Line>)
      requires Shape() && i < cacheSetNum
      reads caches
      ensures |lines| == cacheWays
    {
      SetBounds(i, i, cacheSetNum, cacheWays);
      caches[i * cacheWays..i * cacheWays + cacheWays]
    }

    ghost function View(): (s: State)
      requires Shape()
      reads this, caches
      ensures |s.sets| == cacheSetNum && s.stats == stats
      ensures forall i :: 0 <= i < cacheSetNum ==> s.sets[i] == SetView(i)
    {
      State(seq(cacheSetNum, i requires 0 <= i < cacheSetNum && Shape() reads caches => SetView(i)), stats)
    }

    ghost predicate Valid()
      reads this, caches
    {
      Shape() && CacheOk(View(), cacheWays)
    }

    constructor (lineNum: nat, ways: nat, algo: Algo)
      requires 0 < ways <= lineNum
      ensures Valid() && fresh(Repr()) && IsEmpty(View(), ways) && cacheWays == ways
      ensures replacementAlgo == algo
    {
      WholeSets(lineNum, ways);
      caches := new Line[lineNum](_ => Line(false, 0, false, 0));
      cacheSetNum, cacheWays, replacementAlgo := lineNum / ways, ways, algo;
      stats := Stats(0, 0, 0, 0, 0, 0, 0, 0, 0, 0);
      new;
      Empty();
      EmptyOk(View(), ways);
    }

    lemma Empty()
      requires Shape() && stats == Stats(0, 0, 0, 0, 0, 0, 0, 0, 0, 0)
      requires forall k :: 0 <= k < caches.Length ==> !caches[k].valid
      ensures IsEmpty(View(), cacheWays)
    {
      forall i | 0 <= i < cacheSetNum
        ensures |View().sets[i]| == cacheWays && forall w :: 0 <= w < cacheWays ==> !View().sets[i][w].valid
      {
        SetBounds(i, i, cacheSetNum, cacheWays);
      }
    }

    /** check_cache_hit */
    method CheckCacheHit(i: nat, tag: nat) returns (hit: bool)
      requires Shape() && i < cacheSetNum
      ensures hit == Hit(SetView(i), tag)
    {
      SetBounds(i, i, cacheSetNum, cacheWays);
      ghost var lines := SetView(i);
      var line := i * cacheWays;
      var w := 0;
      while w < cacheWays
        invariant 0 <= w <= cacheWays && forall x :: 0 <= x < w ==> !Holds(lines[x], tag)
      {
        assert caches[line + w] == lines[w];
        if caches[line + w].valid && caches[line + w].tag == tag {
          assert Holds(lines[w], tag);
          return true;
        }
        w := w + 1;
      }
      return false;
    }

    /** get_cache_free_line, as a way of the set; cacheWays if there is none. */
    method GetCacheFreeLine(i: nat) returns (w: nat)
      requires Shape() && i < cacheSetNum
      ensures w == Free(SetView(i), 0)
    {
      SetBounds(i, i, cacheSetNum, cacheWays);
      ghost var lines := SetView(i);
      w := 0;
      while w < cacheWays && caches[i * cacheWays + w].valid
        invariant 0 <= w <= cacheWays && Free(lines, 0) == Free(lines, w)
      {
        assert caches[i * cacheWays + w] == lines[w];
        w := w + 1;
      }
      assert w < cacheWays ==> caches[i * cacheWays + w] == lines[w];
    }

    /** The victim scan of find_victim, whose running minimum is an int. */
    method LeastCount(i: nat) returns (way: nat)
      requires Shape() && i < cacheSetNum
      ensures way == Least(SetView(i), cacheWays).0
    {
      SetBounds(i, i, cacheSetNum, cacheWays);
      ghost var lines := SetView(i);
      var line := i * cacheWays;
      assert caches[line] == lines[0];
      way := 0;
      var count := Narrow(caches[line].count);
      var w := 0;
      while w < cacheWays
        invariant 0 <= w <= cacheWays && (way, count) == Least(lines, w)
      {
        assert caches[line + w] == lines[w];
        if caches[line + w].count < count {
          count := Narrow(caches[line + w].count);
          way := w;
        }
        w := w + 1;
      }
    }

    /** find_victim: the way to fill, with its counters. */
    method FindVictim(i: nat, random: nat) returns (way: nat)
      requires Shape() && i < cacheSetNum
      modifies `stats
      ensures way == VictimWay(SetView(i), replacementAlgo, random)
      ensures stats == (
        if Free(SetView(i), 0) < cacheWays then old(stats).(capacityMiss := old(stats).capacityMiss + 1)
        else old(stats).(conflictMiss := old(stats).conflictMiss + 1,
                         toNextMem := old(stats).toNextMem + (if SetView(i)[way].dirty && SetView(i)[way].valid then 1 else 0)))
    {
      SetBounds(i, i, cacheSetNum, cacheWays);
      way := GetCacheFreeLine(i);
      if way < cacheWays {
        stats := stats.(capacityMiss := stats.capacityMiss + 1);
        return;
      }
      if replacementAlgo == CACHE_RAND {
        way := random % cacheWays;
      } else {
        way := LeastCount(i);
      }
      stats := stats.(conflictMiss := stats.conflictMiss + 1);
      assert caches[i * cacheWays + way] == SetView(i)[way];
      if caches[i * cacheWays + way].dirty && caches[i * cacheWays + way].valid {
        stats := stats.(toNextMem := stats.toNextMem + 1);
      }
    }

    /** Writing one line changes its set only. */
    method SetLine(i: nat, w: nat, line: Line)
      requires Shape() && i < cacheSetNum && w < cacheWays
      modifies caches
      ensures View() == State(old(View()).sets[i := old(View()).sets[i][w := line]], stats)
    {
      SetBounds(i, i, cacheSetNum, cacheWays);
      ghost var before := View();
      caches[i * cacheWays + w] := line;
      forall j | 0 <= j < cacheSetNum && j != i ensures SetView(j) == before.sets[j] {
        SetBounds(j, j, cacheSetNum, cacheWays);
        SetBounds(j, i, cacheSetNum, cacheWays);
        SetBounds(i, j, cacheSetNum, cacheWays);
      }
      assert SetView(i) == before.sets[i][w := line];
    }

    /** read_cache and write_cache, on the first line of the set. */
    method TouchFirst(i: nat, op: Op)
      requires Shape() && i < cacheSetNum && SetView(i)[0].valid
      modifies `stats, caches
      ensures var s := old(View());
        View() == State(s.sets[i := Touched(s.sets[i], replacementAlgo, op, s.stats.tick)],
                        if op == READ then s.stats.(hitR := s.stats.hitR + 1) else s.stats.(hitW := s.stats.hitW + 1))
    {
      SetBounds(i, i, cacheSetNum, cacheWays);
      var line := i * cacheWays;
      assert caches[line] == SetView(i)[0];
      if caches[line].valid {
        var c := caches[line];
        if op == READ {
          stats := stats.(hitR := stats.hitR + 1);
        } else {
          stats := stats.(hitW := stats.hitW + 1);
          if !c.dirty {
            c := c.(dirty := true);
          }
        }
        if replacementAlgo != CACHE_FIFO {
          c := c.(count := stats.tick);
        }
        SetLine(i, 0, c);
      }
    }

    /** do_cache_op, for the line number of the address. */
    method DoCacheOp(tag: nat, op: Op, random: nat)
      requires Valid()
      modifies `stats, caches
      ensures Valid() && View() == Step(replacementAlgo, random, old(View()), tag, op)
    {
      hide CacheOk, VictimWay, Touched, Free, Hit;
      ghost var s := View();
      StepOk(replacementAlgo, random, s, cacheWays, tag, op);
      stats := stats.(tick := stats.tick + 1, r := stats.r + (if op == READ then 1 else 0), w := stats.w + (if op == WRITE then 1 else 0));
      var i := tag % cacheSetNum;
      assert SetView(i) == s.sets[i];
      var hit := CheckCacheHit(i, tag);
      if hit {
        CacheHitFindsFirst(s, cacheWays, i, tag);
        TouchFirst(i, op);
        stats := stats.(hit := stats.hit + 1);
      } else {
        stats := stats.(miss := stats.miss + 1);
        var victim := FindVictim(i, random);
        SetLine(i, victim, Line(true, tag, op == WRITE, stats.tick));
      }
      assert View() == Step(replacementAlgo, random, s, tag, op);
    }
  }

  lemma CacheHitFindsFirst(s: State, ways: nat, i: nat, tag: nat)
    requires CacheOk(s, ways) && i < |s.sets| && Hit(s.sets[i], tag)
    ensures 0 < |s.sets[i]| && s.sets[i][0].valid
  {
    HitFindsFirst(s.sets[i], |s.sets|, i, tag);
  }

  lemma WholeSets(lines: nat, ways: nat)
    requires 0 < ways <= lines
    ensures lines / ways > 0 && lines / ways * ways <= lines
  {
    assert lines == ways * (lines / ways) + lines % ways;
  }
}
