/** What one invocation of SPP issues: the deltas of the pattern sets along its path, as block addresses in the
    page of the access, for every candidate that passes the filter (prefetcher/spp_dev2.cc). */
module SppMeaning {
  import opened Counting
  import opened SppSignature
  import opened SppPattern
  import opened SppFilter
  import opened Spp

  // ---- The levels of a path ----

  /** The set that a signature selects. */
  function SetOf(pt: seq<PtSet>, hash: bv32 -> nat, sig: bv32): PtSet
    requires |pt| == PT_SET
  {
    pt[hash(sig) % PT_SET]
  }

  /** A level queues exactly the ways of its set that reach the threshold, of which there is one. */
  ghost predicate LevelQueues(t: PtSet, ga: nat, thr: nat, depth: nat, conf: nat, queue: seq<Candidate>) {
    && Shape(t) && t.cSig > 0 && queue != []
    && exists ways :: Reaching(t, ga, thr, depth, conf, PT_WAY, ways) && Offers(t, ga, depth, conf, ways, queue)
  }

  /** The next level has the signature of the delta of the most confident way, its confidence, and the base
      that many blocks further; where no way has any confidence, which only a threshold of 0 lets go on, it
      stays. */
  ghost predicate Continues(t: PtSet, ga: nat, depth: nat, conf: nat, l: Level, sig: bv32, base: nat, max: nat) {
    && Shape(t) && t.cSig > 0
    && if forall w: nat | w < PT_WAY :: Confidence(t, w, ga, depth, conf) == 0 then sig == l.sig && base == l.base && max == 0
       else
         exists w: nat ::
           && Leads(t, ga, depth, conf, PT_WAY, w) && max == Confidence(t, w, ga, depth, conf)
           && sig == NextSig(l.sig, t.delta[w]) && base == (l.base + 64 * t.delta[w]) % 0x1_0000_0000_0000_0000
  }

  /** The loop ends where no way reaches the threshold. */
  ghost predicate NothingReaches(t: PtSet, ga: nat, thr: nat, depth: nat, conf: nat) {
    Shape(t) && (t.cSig > 0 ==> forall w: nat | w < PT_WAY :: Confidence(t, w, ga, depth, conf) < thr)
  }

  /** `levels` start at this signature, base and confidence, and go on from level to level until no way reaches
      the threshold. */
  ghost predicate Walks(pt: seq<PtSet>, hash: bv32 -> nat, sig: bv32, base: nat, ga: nat, thr: nat, depth: nat, conf: nat,
                        levels: seq<Level>)
    requires |pt| == PT_SET
    decreases |levels|
  {
    var t := SetOf(pt, hash, sig);
    if levels == [] then NothingReaches(t, ga, thr, depth, conf)
    else
      && levels[0].sig == sig && levels[0].base == base && LevelQueues(t, ga, thr, depth, conf, levels[0].queue)
      && exists sig', base', max ::
        && Continues(t, ga, depth, conf, levels[0], sig', base', max)
        && Walks(pt, hash, sig', base', ga, thr, depth + 1, max, levels[1..])
  }

  lemma QueuedNone(t: PtSet, ga: nat, thr: nat, depth: nat, conf: nat)
    requires Shape(t) && t.cSig > 0 && ScanWays(t, ga, thr, depth, conf, PT_WAY).queue == []
    ensures NothingReaches(t, ga, thr, depth, conf)
  {
    hide Confidence;
    ScanIsExact(t, ga, thr, depth, conf);
  }

  lemma QueuedSome(t: PtSet, ga: nat, thr: nat, depth: nat, conf: nat, queue: seq<Candidate>)
    requires Shape(t) && t.cSig > 0 && queue == ScanWays(t, ga, thr, depth, conf, PT_WAY).queue != []
    ensures LevelQueues(t, ga, thr, depth, conf, queue)
  {
    hide Confidence, ScanWays, Reaching, Offers;
    ScanIsExact(t, ga, thr, depth, conf);
  }

  lemma FollowedGoesOn(t: PtSet, ga: nat, thr: nat, depth: nat, conf: nat, l: Level)
    requires Shape(t) && t.cSig > 0 && ScanWays(t, ga, thr, depth, conf, PT_WAY).way < PT_WAY
    ensures var r := ScanWays(t, ga, thr, depth, conf, PT_WAY);
      Continues(t, ga, depth, conf, l, NextSig(l.sig, t.delta[r.way]), Advance(l.base, t.delta[r.way]), r.max)
  {
    hide Confidence, NextSig, ScanWays, Reaching, Offers;
    ScanIsExact(t, ga, thr, depth, conf);
    var r := ScanWays(t, ga, thr, depth, conf, PT_WAY);
    assert Confidence(t, r.way, ga, depth, conf) > 0;
  }

  lemma NoneFollowedStays(t: PtSet, ga: nat, thr: nat, depth: nat, conf: nat, l: Level)
    requires Shape(t) && t.cSig > 0
    requires var r := ScanWays(t, ga, thr, depth, conf, PT_WAY); r.way == PT_WAY && r.queue != []
    ensures Continues(t, ga, depth, conf, l, l.sig, l.base, ScanWays(t, ga, thr, depth, conf, PT_WAY).max)
  {
    hide Confidence, ScanWays;
    ScanIsExact(t, ga, thr, depth, conf);
    var ways := ReachingWays(t, ga, thr, depth, conf, PT_WAY);
    assert ways[0] in ways;
    forall w: nat | w < PT_WAY ensures Confidence(t, w, ga, depth, conf) == 0 {
      assert w in ways;
    }
  }

  /** The path that the loop takes is such a walk, at every accuracy. */
  lemma {:induction false} PathWalks(pt: seq<PtSet>, hash: bv32 -> nat, sig: bv32, base: nat, ga: nat, thr: nat, depth: nat, conf: nat,
                                     levels: seq<Level>)
    requires TableOk(pt) && IsPath(pt, hash, sig, base, ga, thr, depth, conf, levels)
    ensures Walks(pt, hash, sig, base, ga, thr, depth, conf, levels)
    decreases |levels|
  {
    hide NextSig, Advance, ScanWays, Continues, LevelQueues, NothingReaches;
    var t := SetOf(pt, hash, sig);
    assert SetOk(t);
    if t.cSig > 0 {
      var r := ScanWays(t, ga, thr, depth, conf, PT_WAY);
      if r.queue == [] {
        QueuedNone(t, ga, thr, depth, conf);
      } else {
        QueuedSome(t, ga, thr, depth, conf, levels[0].queue);
        if r.way < PT_WAY {
          FollowedGoesOn(t, ga, thr, depth, conf, levels[0]);
          PathWalks(pt, hash, NextSig(sig, t.delta[r.way]), Advance(base, t.delta[r.way]), ga, thr, depth + 1, r.max, levels[1..]);
        } else {
          NoneFollowedStays(t, ga, thr, depth, conf, levels[0]);
          PathWalks(pt, hash, sig, base, ga, thr, depth + 1, r.max, levels[1..]);
        }
      }
    } else {
      EmptySetNothing(t, ga, thr, depth, conf);
    }
  }

  lemma EmptySetNothing(t: PtSet, ga: nat, thr: nat, depth: nat, conf: nat)
    requires SetOk(t) && t.cSig == 0
    ensures NothingReaches(t, ga, thr, depth, conf)
  {
  }

  // ---- The turns of an invocation ----

  /** The turn of one candidate: the level it was queued at, and the filter and history register it meets. */
  datatype Turn = Turn(level: Level, c: Candidate, filter: Filter, history: seq<History>)

  /** The block that the candidate names: that of the base, delta blocks further. */
  function BlockOf(turn: Turn): nat {
    (turn.level.base / 64 * 64 + 64 * turn.c.delta) % 0x1_0000_0000_0000_0000
  }

  /** It is in the page of the access, and the filter has its line neither as prefetched nor as demanded. */
  ghost predicate Wanted(p: Params, addr: nat, turn: Turn)
    requires |turn.filter.slots| == FILTER_SET
  {
    BlockOf(turn) / 4096 == addr / 4096 && Passes(turn.filter, Quotient(p, BlockOf(turn)), Remainder(p, BlockOf(turn)))
  }

  /** What it then issues: into the L2 from the fill threshold on, else into the LLC. */
  function PrefetchOf(p: Params, turn: Turn): Prefetch {
    Prefetch(BlockOf(turn), if turn.c.conf >= p.fillThreshold then FILL_L2 else FILL_LLC)
  }

  ghost predicate TurnsOk(turns: seq<Turn>) {
    forall i :: 0 <= i < |turns| ==> |turns[i].filter.slots| == FILTER_SET
  }

  ghost predicate Increasing(sites: seq<nat>) {
    forall i, j :: 0 <= i < j < |sites| ==> sites[i] < sites[j]
  }

  /** The prefetches `issued` are those of the wanted turns, one each and in order. */
  ghost predicate Serves(p: Params, addr: nat, turns: seq<Turn>, sites: seq<nat>, issued: seq<Prefetch>)
    requires TurnsOk(turns)
  {
    && |sites| == |issued| && Increasing(sites)
    && (forall i :: 0 <= i < |sites| ==> sites[i] < |turns| && issued[i] == PrefetchOf(p, turns[sites[i]]))
    && forall k: nat | k < |turns| :: k in sites <==> Wanted(p, addr, turns[k])
  }

  /** The filter after the turn: an L2 prefetch marks its line, nothing else changes it. */
  ghost function AfterTurn(p: Params, addr: nat, turn: Turn): (f: Filter)
    requires |turn.filter.slots| == FILTER_SET
    ensures |f.slots| == FILTER_SET
  {
    if Wanted(p, addr, turn) && turn.c.conf >= p.fillThreshold
    then IssueL2(turn.filter, Quotient(p, BlockOf(turn)), Remainder(p, BlockOf(turn))) else turn.filter
  }

  /** The history register after the turn: a candidate of another page is remembered under the offset at which it
      enters that page, with its signature, confidence and delta (SppLearning.RememberMeaning). */
  ghost function HistoryAfter(addr: nat, turn: Turn): seq<History> {
    var r := Remember(turn.history, turn.level.sig, turn.c.conf, BlockOf(turn) / 64 % 64, turn.c.delta);
    if BlockOf(turn) / 4096 == addr / 4096 || r.None? then turn.history else r.value
  }

  /** What the turns share: the filter and the history register. */
  datatype Shared = Shared(filter: Filter, history: seq<History>)

  /** The turns meet what their predecessors leave, from a to b. */
  ghost predicate Meets(p: Params, addr: nat, a: Shared, turns: seq<Turn>, b: Shared)
    requires TurnsOk(turns)
    decreases |turns|
  {
    if |turns| == 0 then a == b
    else
      && Shared(turns[0].filter, turns[0].history) == a
      && Meets(p, addr, Shared(AfterTurn(p, addr, turns[0]), HistoryAfter(addr, turns[0])), turns[1..], b)
  }

  /** The turns are those of all the candidates of the levels, in order. */
  ghost predicate TurnsOf(levels: seq<Level>, turns: seq<Turn>)
    decreases |levels|
  {
    if |levels| == 0 then turns == []
    else
      var n := |levels[0].queue|;
      && n <= |turns| && TurnsOf(levels[1..], turns[n..])
      && forall i :: 0 <= i < n ==> turns[i].level == levels[0] && turns[i].c == levels[0].queue[i]
  }

  lemma TargetIsBlock(base: nat, delta: int, f: Filter, h: seq<History>, l: Level, c: Candidate)
    requires l.base == base && c.delta == delta
    ensures TargetOf(base, delta) == BlockOf(Turn(l, c, f, h))
  {
    assert base - base % 64 == base / 64 * 64;
  }

  lemma TurnServes(p: Params, x: Issue, addr: nat, l: Level, c: Candidate)
    requires |x.filter.slots| == FILTER_SET && IssueOne(p, x, addr, l.sig, l.base, c).Some?
    ensures var y, turn := IssueOne(p, x, addr, l.sig, l.base, c).value, Turn(l, c, x.filter, x.history);
      && y.issued == x.issued + (if Wanted(p, addr, turn) then [PrefetchOf(p, turn)] else [])
      && y.filter == AfterTurn(p, addr, turn) && y.history == HistoryAfter(addr, turn)
  {
    hide Passes, IssueL2, Remember;
    TargetIsBlock(l.base, c.delta, x.filter, x.history, l, c);
    assert x.issued + [] == x.issued;
  }

  // ---- Joining turns ----

  function Moved(sites: seq<nat>, n: nat): (r: seq<nat>)
    ensures |r| == |sites|
  {
    seq(|sites|, i requires 0 <= i < |sites| => sites[i] + n)
  }

  lemma MovedMembers(x: seq<nat>, y: seq<nat>, n: nat, k: nat)
    requires forall i :: 0 <= i < |x| ==> x[i] < n
    ensures k in x + Moved(y, n) <==> if k < n then k in x else k - n in y
  {
    var sites := x + Moved(y, n);
    if k >= n && k - n in y {
      var l :| 0 <= l < |y| && y[l] == k - n;
      assert sites[|x| + l] == k;
    }
    if k < n && k in x {
      var l :| 0 <= l < |x| && x[l] == k;
      assert sites[l] == k;
    }
  }

  lemma MovedIncreasing(x: seq<nat>, y: seq<nat>, n: nat)
    requires Increasing(x) && Increasing(y) && forall i :: 0 <= i < |x| ==> x[i] < n
    ensures Increasing(x + Moved(y, n))
  {
  }

  lemma ServesJoin(p: Params, addr: nat, a: seq<Turn>, x: seq<nat>, i: seq<Prefetch>, b: seq<Turn>, y: seq<nat>, j: seq<Prefetch>)
    requires TurnsOk(a) && TurnsOk(b) && Serves(p, addr, a, x, i) && Serves(p, addr, b, y, j)
    ensures TurnsOk(a + b) && Serves(p, addr, a + b, x + Moved(y, |a|), i + j)
  {
    hide Wanted, PrefetchOf, Increasing;
    var turns, sites, issued := a + b, x + Moved(y, |a|), i + j;
    MovedIncreasing(x, y, |a|);
    forall k | 0 <= k < |sites| ensures sites[k] < |turns| && issued[k] == PrefetchOf(p, turns[sites[k]]) {
      if k < |x| {
        assert sites[k] == x[k] && turns[x[k]] == a[x[k]];
      } else {
        assert sites[k] == y[k - |x|] + |a| && turns[sites[k]] == b[y[k - |x|]];
      }
    }
    forall k: nat | k < |turns| ensures k in sites <==> Wanted(p, addr, turns[k]) {
      MovedMembers(x, y, |a|, k);
      assert turns[k] == if k < |a| then a[k] else b[k - |a|];
    }
  }

  lemma {:induction false} MeetsJoin(p: Params, addr: nat, f: Shared, a: seq<Turn>, g: Shared, b: seq<Turn>, h: Shared)
    requires TurnsOk(a) && TurnsOk(b) && Meets(p, addr, f, a, g) && Meets(p, addr, g, b, h)
    ensures TurnsOk(a + b) && Meets(p, addr, f, a + b, h)
    decreases |a|
  {
    hide AfterTurn, HistoryAfter;
    if |a| == 0 {
      assert a + b == b;
    } else {
      MeetsJoin(p, addr, Shared(AfterTurn(p, addr, a[0]), HistoryAfter(addr, a[0])), a[1..], g, b, h);
      assert (a + b)[1..] == a[1..] + b;
    }
  }

  /** What some candidates make of an issue. */
  ghost predicate Made(p: Params, addr: nat, x: Issue, turns: seq<Turn>, sites: seq<nat>, y: Issue) {
    && TurnsOk(turns) && x.issued <= y.issued
    && Serves(p, addr, turns, sites, y.issued[|x.issued|..])
    && Meets(p, addr, Shared(x.filter, x.history), turns, Shared(y.filter, y.history))
  }

  lemma MadeJoin(p: Params, addr: nat, x: Issue, a: seq<Turn>, u: seq<nat>, y: Issue, b: seq<Turn>, v: seq<nat>, z: Issue)
    requires Made(p, addr, x, a, u, y) && Made(p, addr, y, b, v, z)
    ensures Made(p, addr, x, a + b, u + Moved(v, |a|), z)
  {
    hide Serves, Meets;
    ServesJoin(p, addr, a, u, y.issued[|x.issued|..], b, v, z.issued[|y.issued|..]);
    MeetsJoin(p, addr, Shared(x.filter, x.history), a, Shared(y.filter, y.history), b, Shared(z.filter, z.history));
    assert z.issued[|x.issued|..] == y.issued[|x.issued|..] + z.issued[|y.issued|..];
  }

  lemma OneMade(p: Params, x: Issue, addr: nat, l: Level, c: Candidate) returns (sites: seq<nat>)
    requires |x.filter.slots| == FILTER_SET && IssueOne(p, x, addr, l.sig, l.base, c).Some?
    ensures Made(p, addr, x, [Turn(l, c, x.filter, x.history)], sites, IssueOne(p, x, addr, l.sig, l.base, c).value)
  {
    hide Wanted, PrefetchOf, AfterTurn, HistoryAfter, IssueOne;
    TurnServes(p, x, addr, l, c);
    var turn, y := Turn(l, c, x.filter, x.history), IssueOne(p, x, addr, l.sig, l.base, c).value;
    sites := if Wanted(p, addr, turn) then [0] else [];
    assert y.issued[|x.issued|..] == if Wanted(p, addr, turn) then [PrefetchOf(p, turn)] else [];
    assert Meets(p, addr, Shared(AfterTurn(p, addr, turn), HistoryAfter(addr, turn)), [turn][1..], Shared(y.filter, y.history));
  }

  lemma NoneMade(p: Params, addr: nat, x: Issue)
    ensures Made(p, addr, x, [], [], x)
  {
    assert x.issued[|x.issued|..] == [];
  }

  lemma {:induction false} QueueMade(p: Params, x: Issue, addr: nat, l: Level, n: nat) returns (turns: seq<Turn>, sites: seq<nat>)
    requires |x.filter.slots| == FILTER_SET && n <= |l.queue| && IssueQueue(p, x, addr, l, n).Some?
    ensures Made(p, addr, x, turns, sites, IssueQueue(p, x, addr, l, n).value)
    ensures |turns| == n && forall i :: 0 <= i < n ==> turns[i].level == l && turns[i].c == l.queue[i]
  {
    hide IssueOne, Made;
    turns, sites := [], [];
    if n == 0 {
      NoneMade(p, addr, x);
    } else {
      var y := IssueQueue(p, x, addr, l, n - 1).value;
      var a, u := QueueMade(p, x, addr, l, n - 1);
      var v := OneMade(p, y, addr, l, l.queue[n - 1]);
      var b := [Turn(l, l.queue[n - 1], y.filter, y.history)];
      MadeJoin(p, addr, x, a, u, y, b, v, IssueQueue(p, x, addr, l, n).value);
      turns, sites := a + b, u + Moved(v, |a|);
    }
  }

  lemma {:induction false} LevelsMade(p: Params, x: Issue, addr: nat, levels: seq<Level>) returns (turns: seq<Turn>, sites: seq<nat>)
    requires |x.filter.slots| == FILTER_SET && IssueLevels(p, x, addr, levels).Some?
    ensures Made(p, addr, x, turns, sites, IssueLevels(p, x, addr, levels).value) && TurnsOf(levels, turns)
    decreases |levels|
  {
    hide IssueQueue, Made;
    turns, sites := [], [];
    if |levels| == 0 {
      NoneMade(p, addr, x);
    } else {
      var n := |levels[0].queue|;
      var y := IssueQueue(p, x, addr, levels[0], n).value;
      var a, u := QueueMade(p, x, addr, levels[0], n);
      var b, v := LevelsMade(p, y, addr, levels[1..]);
      MadeJoin(p, addr, x, a, u, y, b, v, IssueLevels(p, y, addr, levels[1..]).value);
      turns, sites := a + b, u + Moved(v, |a|);
      assert turns[n..] == b;
    }
  }

  // ---- Whole invocations ----

  /** An invocation that returns walks from the signature it learned and its address, and issues exactly the
      blocks of its candidates that are in the page and that the filter does not have when their turn comes,
      one prefetch each and in order. */
  lemma InvocationIssues(p: Params, s: State, addr: nat, levels: seq<Level>) returns (turns: seq<Turn>, sites: seq<nat>)
    requires Sound(s) && Returns(p, s, addr, levels)
    ensures var x, y := Learn(p, s, addr).value, InvokeAlong(p, s, addr, levels).value;
      && Walks(x.pt, p.hash, x.sig, addr, Accuracy(s.filter.meter), p.pfThreshold, 0, 100, levels)
      && TurnsOf(levels, turns) && TurnsOk(turns)
      && Serves(p, addr, turns, sites, y.1)
      && Meets(p, addr, Shared(x.filter, s.history), turns, Shared(y.0.filter, y.0.history))
  {
    hide Learn, IsPath, Walks, IssueLevels, Serves, Meets, TurnsOf, Accuracy;
    var x, y := Learn(p, s, addr).value, InvokeAlong(p, s, addr, levels).value;
    PathWalks(x.pt, p.hash, x.sig, addr, Accuracy(s.filter.meter), p.pfThreshold, 0, 100, levels);
    turns, sites := LevelsMade(p, Issue(x.filter, s.history, []), addr, levels);
    assert y.1[0..] == y.1;
  }

  /** Way w of the set names this block for a level, with a confidence that reaches the threshold. */
  ghost predicate Names(t: PtSet, ga: nat, thr: nat, depth: nat, conf: nat, w: nat, base: nat, block: nat) {
    && Shape(t) && t.cSig > 0 && w < PT_WAY && Confidence(t, w, ga, depth, conf) >= thr
    && block == (base / 64 * 64 + 64 * t.delta[w]) % 0x1_0000_0000_0000_0000
  }

  /** Some way of the set that the level's signature selects does. */
  ghost predicate Named(pt: seq<PtSet>, hash: bv32 -> nat, ga: nat, thr: nat, depth: nat, l: Level, block: nat)
    requires |pt| == PT_SET
  {
    exists w, conf :: Names(SetOf(pt, hash, l.sig), ga, thr, depth, conf, w, l.base, block)
  }

  lemma OfferedIsNamed(t: PtSet, ga: nat, thr: nat, depth: nat, conf: nat, ways: seq<nat>, queue: seq<Candidate>, i: nat, base: nat, block: nat) returns (w: nat)
    requires Shape(t) && t.cSig > 0 && Reaching(t, ga, thr, depth, conf, PT_WAY, ways) && Offers(t, ga, depth, conf, ways, queue)
    requires i < |queue| && block == (base / 64 * 64 + 64 * queue[i].delta) % 0x1_0000_0000_0000_0000
    ensures Names(t, ga, thr, depth, conf, w, base, block)
  {
    hide Confidence;
    w := ways[i];
    assert w in ways;
  }

  lemma QueuedIsNamed(pt: seq<PtSet>, hash: bv32 -> nat, ga: nat, thr: nat, depth: nat, conf: nat, turn: Turn, i: nat)
    requires |pt| == PT_SET && LevelQueues(SetOf(pt, hash, turn.level.sig), ga, thr, depth, conf, turn.level.queue)
    requires i < |turn.level.queue| && turn.c == turn.level.queue[i]
    ensures Named(pt, hash, ga, thr, depth, turn.level, BlockOf(turn))
  {
    hide Reaching, Offers, Names;
    var t := SetOf(pt, hash, turn.level.sig);
    var ways :| Reaching(t, ga, thr, depth, conf, PT_WAY, ways) && Offers(t, ga, depth, conf, ways, turn.level.queue);
    var w := OfferedIsNamed(t, ga, thr, depth, conf, ways, turn.level.queue, i, turn.level.base, BlockOf(turn));
  }

  /** Every turn's block is named by a way of the set of its level. */
  lemma {:induction false} TurnsNamed(pt: seq<PtSet>, hash: bv32 -> nat, sig: bv32, base: nat, ga: nat, thr: nat, depth: nat, conf: nat,
                                      levels: seq<Level>, turns: seq<Turn>, i: nat)
    requires |pt| == PT_SET && Walks(pt, hash, sig, base, ga, thr, depth, conf, levels) && TurnsOf(levels, turns) && i < |turns|
    ensures exists k: nat :: k < |levels| && turns[i].level == levels[k] && Named(pt, hash, ga, thr, depth + k, levels[k], BlockOf(turns[i]))
    decreases |levels|
  {
    hide Confidence, Continues, LevelQueues, Named, BlockOf, NothingReaches;
    var n := |levels[0].queue|;
    if i < n {
      QueuedIsNamed(pt, hash, ga, thr, depth, conf, turns[i], i);
      assert depth + 0 == depth;
    } else {
      var sig', base', max :| Continues(SetOf(pt, hash, sig), ga, depth, conf, levels[0], sig', base', max)
        && Walks(pt, hash, sig', base', ga, thr, depth + 1, max, levels[1..]);
      TurnsNamed(pt, hash, sig', base', ga, thr, depth + 1, max, levels[1..], turns[n..], i - n);
      var k: nat :| k < |levels[1..]| && turns[n..][i - n].level == levels[1..][k]
        && Named(pt, hash, ga, thr, depth + 1 + k, levels[1..][k], BlockOf(turns[n..][i - n]));
      assert levels[k + 1] == levels[1..][k] && turns[i] == turns[n..][i - n] && depth + (k + 1) == depth + 1 + k;
    }
  }

  /** Every prefetch issued is of a block that some level's set names, in the page of the access. */
  lemma IssuedIsNamed(p: Params, s: State, addr: nat, levels: seq<Level>, i: nat)
    requires Sound(s) && Returns(p, s, addr, levels) && i < |InvokeAlong(p, s, addr, levels).value.1|
    ensures var x, f := Learn(p, s, addr).value, InvokeAlong(p, s, addr, levels).value.1[i];
      && f.addr / 4096 == addr / 4096
      && exists k: nat :: k < |levels| && Named(x.pt, p.hash, Accuracy(s.filter.meter), p.pfThreshold, k, levels[k], f.addr)
  {
    hide Learn, IsPath, Walks, TurnsOf, Meets, Named, Accuracy, InvokeAlong;
    var turns, sites := InvocationIssues(p, s, addr, levels);
    var x := Learn(p, s, addr).value;
    assert sites[i] in sites;
    TurnsNamed(x.pt, p.hash, x.sig, addr, Accuracy(s.filter.meter), p.pfThreshold, 0, 100, levels, turns, sites[i]);
    var k: nat :| k < |levels| && turns[sites[i]].level == levels[k]
      && Named(x.pt, p.hash, Accuracy(s.filter.meter), p.pfThreshold, 0 + k, levels[k], BlockOf(turns[sites[i]]));
    assert 0 + k == k;
  }
}
