/** Optional values, and the number of places of a sequence that satisfy a predicate. */
module Counting {

  datatype Option<+T> = None | Some(value: T)

  function Count<T>(q: seq<T>, f: T -> bool): nat {
    if |q| == 0 then 0 else Count(q[..|q| - 1], f) + (if f(q[|q| - 1]) then 1 else 0)
  }

  /** Appending counts the new place. */
  lemma CountAppend<T>(q: seq<T>, x: T, f: T -> bool)
    ensures Count(q + [x], f) == Count(q, f) + (if f(x) then 1 else 0)
  {
    assert (q + [x])[..|q|] == q;
  }

  /** Removing the first place takes away exactly what it counted for. */
  lemma {:induction false} CountTail<T>(q: seq<T>, f: T -> bool)
    requires |q| > 0
    ensures Count(q[1..], f) + (if f(q[0]) then 1 else 0) == Count(q, f)
  {
    if |q| > 1 {
      CountTail(q[..|q| - 1], f);
      assert q[1..][..|q| - 2] == q[..|q| - 1][1..];
    } else {
      assert q[..0] == q[1..] == [];
    }
  }

  /** Overwriting one place exchanges one contribution. */
  lemma {:induction false} CountUpdate<T>(q: seq<T>, i: nat, x: T, f: T -> bool)
    requires i < |q|
    ensures Count(q[i := x], f) + (if f(q[i]) then 1 else 0) == Count(q, f) + (if f(x) then 1 else 0)
  {
    var n := |q| - 1;
    if i == n {
      assert q[i := x][..n] == q[..n];
    } else {
      CountUpdate(q[..n], i, x, f);
      assert q[i := x][..n] == q[..n][i := x];
    }
  }

  /** A place that satisfies the predicate makes the count positive. */
  lemma {:induction false} CountPositive<T>(q: seq<T>, i: nat, f: T -> bool)
    requires i < |q| && f(q[i])
    ensures Count(q, f) > 0
  {
    if i < |q| - 1 {
      CountPositive(q[..|q| - 1], i, f);
    }
  }

  /** Two different places that satisfy the predicate count at least twice. */
  lemma {:induction false} CountTwo<T>(q: seq<T>, i: nat, j: nat, f: T -> bool)
    requires i < j < |q| && f(q[i]) && f(q[j])
    ensures Count(q, f) >= 2
  {
    if j < |q| - 1 {
      CountTwo(q[..|q| - 1], i, j, f);
    } else {
      CountPositive(q[..|q| - 1], i, f);
    }
  }

  /** No place satisfies the predicate exactly when the count is zero. */
  lemma {:induction false} CountZero<T>(q: seq<T>, f: T -> bool)
    ensures Count(q, f) == 0 <==> forall i :: 0 <= i < |q| ==> !f(q[i])
  {
    if |q| > 0 {
      var r := q[..|q| - 1];
      CountZero(r, f);
      if forall i :: 0 <= i < |q| ==> !f(q[i]) {
        forall i | 0 <= i < |r| ensures !f(r[i]) { assert r[i] == q[i]; }
      } else {
        var i :| 0 <= i < |q| && f(q[i]);
        if i < |r| { assert r[i] == q[i]; }
      }
    }
  }

  /** The count is bounded by the length; it reaches the length only if every place satisfies. */
  lemma {:induction false} CountBound<T>(q: seq<T>, f: T -> bool)
    ensures Count(q, f) <= |q|
    ensures Count(q, f) == |q| <==> forall i :: 0 <= i < |q| ==> f(q[i])
  {
    if |q| > 0 {
      var r := q[..|q| - 1];
      CountBound(r, f);
      if forall i :: 0 <= i < |q| ==> f(q[i]) {
        assert forall i :: 0 <= i < |r| ==> f(r[i]) by {
          forall i | 0 <= i < |r| ensures f(r[i]) { assert r[i] == q[i]; }
        }
      } else {
        var i :| 0 <= i < |q| && !f(q[i]);
        if i < |r| { assert r[i] == q[i]; }
      }
    }
  }

  /** At most one place satisfies the predicate when no two different places do. */
  lemma {:induction false} CountAtMostOne<T>(q: seq<T>, f: T -> bool)
    requires forall i, j :: 0 <= i < j < |q| ==> !(f(q[i]) && f(q[j]))
    ensures Count(q, f) <= 1
  {
    if |q| > 0 {
      var r := q[..|q| - 1];
      assert forall i, j :: 0 <= i < j < |r| ==> r[i] == q[i] && r[j] == q[j];
      if f(q[|q| - 1]) {
        CountZero(r, f);
        assert forall i :: 0 <= i < |r| ==> !f(r[i]) by {
          forall i | 0 <= i < |r| ensures !f(r[i]) { assert r[i] == q[i]; }
        }
      } else {
        CountAtMostOne(r, f);
      }
    }
  }
}
