/** LRU counters: a permutation of 0..n-1 aged by lru_update (replacement/base_replacement.cc);
    the SPP signature table keeps the same counters (prefetcher/spp_dev2_helper.cc). */
module LruOrder {

  /** The recency list `r` names the ways from most to least recently promoted. */
  ghost predicate Recency(l: seq<nat>, r: seq<nat>) {
    && |r| == |l|
    && (forall k :: 0 <= k < |r| ==> r[k] < |l| && l[r[k]] == k)
    && (forall w :: 0 <= w < |l| ==> l[w] < |r| && r[l[w]] == w)
  }

  /** The counters are a permutation of 0..n-1. */
  ghost predicate Permutation(l: seq<nat>) {
    exists r :: Recency(l, r)
  }

  function MoveToFront(r: seq<nat>, k: nat): seq<nat>
    requires k < |r|
  {
    [r[k]] + r[..k] + r[k + 1..]
  }

  /** Promotes one way: everything younger than it ages by one. */
  function Promote(l: seq<nat>, way: nat): (t: seq<nat>)
    requires way < |l|
    ensures |t| == |l|
  {
    seq(|l|, i requires 0 <= i < |l| => if i == way then 0 else if l[i] < l[way] then l[i] + 1 else l[i])
  }

  /** Fresh counters hold lru == way. */
  lemma InitialPermutation(l: seq<nat>)
    requires forall w :: 0 <= w < |l| ==> l[w] == w
    ensures Permutation(l)
  {
    assert Recency(l, seq(|l|, w => w));
  }

  /** Promotion is move-to-front on the recency list. */
  lemma PromoteIsMoveToFront(l: seq<nat>, r: seq<nat>, way: nat)
    requires Recency(l, r) && way < |l|
    ensures Recency(Promote(l, way), MoveToFront(r, l[way]))
  {
    var k, t, f := l[way], Promote(l, way), MoveToFront(r, l[way]);
    assert f[0] == way;
    forall j | 0 <= j < |f| ensures f[j] < |t| && t[f[j]] == j {
      if 0 < j <= k {
        assert f[j] == r[j - 1];
      } else if k < j {
        assert f[j] == r[j];
      }
    }
    forall w | 0 <= w < |t| ensures t[w] < |f| && f[t[w]] == w {
      if w != way {
        assert l[w] != k;
      }
    }
  }

  /** Promotion keeps a permutation, whose last position some way always occupies. */
  lemma PromoteKeepsPermutation(l: seq<nat>, way: nat)
    requires Permutation(l) && way < |l|
    ensures Permutation(Promote(l, way))
    ensures exists w :: 0 <= w < |l| && l[w] == |l| - 1
    ensures forall w, v :: 0 <= w < |l| && 0 <= v < |l| && l[w] == l[v] ==> w == v
  {
    var r :| Recency(l, r);
    PromoteIsMoveToFront(l, r, way);
    assert l[r[|l| - 1]] == |l| - 1;
  }

  // ---- Whole histories of promotions ----

  function PromoteAll(l: seq<nat>, history: seq<nat>): (t: seq<nat>)
    requires forall i :: 0 <= i < |history| ==> history[i] < |l|
    ensures |t| == |l|
  {
    if |history| == 0 then l
    else Promote(PromoteAll(l, history[..|history| - 1]), history[|history| - 1])
  }

  /** One promotion and then a history are the longer history. */
  lemma {:induction false} PromoteThenAll(l: seq<nat>, way: nat, history: seq<nat>)
    requires way < |l| && forall i :: 0 <= i < |history| ==> history[i] < |l|
    ensures PromoteAll(l, [way] + history) == PromoteAll(Promote(l, way), history)
  {
    var longer := [way] + history;
    if |history| == 0 {
      assert longer[..0] == [] && longer[0] == way;
    } else {
      var n := |history| - 1;
      PromoteThenAll(l, way, history[..n]);
      assert longer[..|longer| - 1] == [way] + history[..n];
    }
  }

  /** Way `a` was promoted after the last promotion of way `b`; before any, the initial order counts. */
  ghost predicate MoreRecent(history: seq<nat>, a: nat, b: nat) {
    if |history| == 0 then a < b
    else
      var h := history[|history| - 1];
      h == a || (h != b && MoreRecent(history[..|history| - 1], a, b))
  }

  /** What MoreRecent means: whenever `b` was promoted, `a` was promoted later. */
  lemma {:induction false} MoreRecentMeaning(history: seq<nat>, a: nat, b: nat, i: nat)
    requires a != b && MoreRecent(history, a, b) && i < |history| && history[i] == b
    ensures exists j :: i < j < |history| && history[j] == a
  {
    var n := |history| - 1;
    if history[n] != a {
      MoreRecentMeaning(history[..n], a, b, i);
      var j :| i < j < n && history[..n][j] == a;
      assert history[j] == a;
    }
  }

  lemma {:induction false} PromoteAllPermutation(l: seq<nat>, history: seq<nat>)
    requires Permutation(l)
    requires forall i :: 0 <= i < |history| ==> history[i] < |l|
    ensures Permutation(PromoteAll(l, history))
  {
    if |history| > 0 {
      PromoteAllPermutation(l, history[..|history| - 1]);
      PromoteKeepsPermutation(PromoteAll(l, history[..|history| - 1]), history[|history| - 1]);
    }
  }

  /** From fresh counters, the counters order the ways by their latest promotion. */
  lemma {:induction false} CountersOrderByRecency(l: seq<nat>, history: seq<nat>, a: nat, b: nat)
    requires forall w :: 0 <= w < |l| ==> l[w] == w
    requires forall i :: 0 <= i < |history| ==> history[i] < |l|
    requires a < |l| && b < |l| && a != b
    ensures PromoteAll(l, history)[a] < PromoteAll(l, history)[b] <==> MoreRecent(history, a, b)
  {
    if |history| > 0 {
      var older, h := history[..|history| - 1], history[|history| - 1];
      CountersOrderByRecency(l, older, a, b);
      InitialPermutation(l);
      PromoteAllPermutation(l, older);
      PromoteKeepsPermutation(PromoteAll(l, older), h);
    }
  }

  /** The way at the last position is the one all others were promoted after. */
  lemma OldestLeastRecent(l: seq<nat>, history: seq<nat>, oldest: nat, other: nat)
    requires forall w :: 0 <= w < |l| ==> l[w] == w
    requires forall i :: 0 <= i < |history| ==> history[i] < |l|
    requires oldest < |l| && other < |l| && PromoteAll(l, history)[oldest] == |l| - 1
    ensures other == oldest || MoreRecent(history, other, oldest)
  {
    if other != oldest {
      InitialPermutation(l);
      PromoteAllPermutation(l, history);
      PromoteKeepsPermutation(PromoteAll(l, history), other);
      var p := PromoteAll(l, history);
      var r :| Recency(p, r);
      assert p[other] < |l| && p[other] != p[oldest];
      CountersOrderByRecency(l, history, other, oldest);
    }
  }
}
