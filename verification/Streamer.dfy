/** PrefetchStreamer::prefetch (inc/bingo.h): draining the marks of one region, nearest first. */
module Streamer {
  import opened Counting

  /** A prefetch of one block of the region into a fill level. */
  datatype Request = Request(offset: nat, level: int)

  /** The offsets at distance d and more, nearest first, positive stride first. */
  function Nearest(offset: nat, len: nat, d: nat): seq<nat>
    requires offset < len && 0 < d
    decreases len - d
  {
    if d >= len then []
    else (if offset + d < len then [offset + d] else []) + (if offset >= d then [offset - d] else []) + Nearest(offset, len, d + 1)
  }

  datatype Drained = Drained(pattern: seq<int>, issued: seq<Request>, done: bool)

  /** Goes through the candidates; `room(n)` says whether the cache takes another prefetch after n. */
  function Drain(pattern: seq<int>, cs: seq<nat>, room: nat -> bool, n: nat): (r: Drained)
    requires forall i :: 0 <= i < |cs| ==> cs[i] < |pattern|
    ensures |r.pattern| == |pattern|
    decreases |cs|
  {
    if |cs| == 0 then Drained(pattern, [], true)
    else if pattern[cs[0]] > 0 then
      if room(n) then
        var r := Drain(pattern[cs[0] := 0], cs[1..], room, n + 1);
        Drained(r.pattern, [Request(cs[0], pattern[cs[0]])] + r.issued, r.done)
      else Drained(pattern, [], false)
    else Drain(pattern, cs[1..], room, n)
  }

  /** A call for an accessed block: its own mark goes, the others are issued while there is room; None
      once no mark remains. */
  function Prefetch(pattern: seq<int>, offset: nat, room: nat -> bool): (r: (Option<seq<int>>, seq<Request>))
    requires offset < |pattern|
    ensures r.0.Some? ==> |r.0.value| == |pattern|
  {
    NearestBelow(offset, |pattern|, 1);
    var r := Drain(pattern[offset := 0], Nearest(offset, |pattern|, 1), room, 0);
    (if r.done then None else Some(r.pattern), r.issued)
  }

  lemma {:induction false} NearestBelow(offset: nat, len: nat, d: nat)
    requires offset < len && 0 < d
    ensures forall i :: 0 <= i < |Nearest(offset, len, d)| ==> Nearest(offset, len, d)[i] < len
    decreases len - d
  {
    if d < len {
      NearestBelow(offset, len, d + 1);
    }
  }

  predicate Distance(offset: nat, x: nat, d: nat) { x >= offset + d || x + d <= offset }

  /** Every other block of the region is a candidate. */
  lemma {:induction false} NearestCovers(offset: nat, len: nat, d: nat, x: nat)
    requires offset < len && 0 < d && x < len && Distance(offset, x, d)
    ensures x in Nearest(offset, len, d)
    decreases len - d
  {
    if d < len && x != offset + d && x + d != offset {
      NearestCovers(offset, len, d + 1, x);
    }
  }

  /** The marks that are left. */
  function Marks(pattern: seq<int>): set<nat> {
    set x | 0 <= x < |pattern| && pattern[x] > 0
  }

  function Offsets(issued: seq<Request>): set<nat> {
    set i | 0 <= i < |issued| :: issued[i].offset
  }

  ghost predicate DistinctOffsets(issued: seq<Request>) {
    forall i, j :: 0 <= i < j < |issued| ==> issued[i].offset != issued[j].offset
  }

  /** Requests carry the marks they consume, each once; what is not requested stays. */
  ghost predicate Consumes(pattern: seq<int>, issued: seq<Request>, after: seq<int>) {
    && |after| == |pattern| && DistinctOffsets(issued)
    && (forall i :: 0 <= i < |issued| ==> issued[i].offset < |pattern| && pattern[issued[i].offset] == issued[i].level > 0)
    && forall x :: 0 <= x < |pattern| ==> after[x] == if x in Offsets(issued) then 0 else pattern[x]
  }

  lemma {:induction false} DrainConsumes(pattern: seq<int>, cs: seq<nat>, room: nat -> bool, n: nat)
    requires forall i :: 0 <= i < |cs| ==> cs[i] < |pattern|
    ensures var r := Drain(pattern, cs, room, n);
      && Consumes(pattern, r.issued, r.pattern)
      && (r.done ==> forall c :: c in cs ==> r.pattern[c] <= 0)
      && (!r.done ==> exists c :: c in cs && r.pattern[c] > 0)
    decreases |cs|
  {
    if |cs| > 0 {
      var c := cs[0];
      assert forall x :: x in cs <==> x == c || x in cs[1..];
      if pattern[c] > 0 {
        if room(n) {
          var p1 := pattern[c := 0];
          DrainConsumes(p1, cs[1..], room, n + 1);
          var r := Drain(p1, cs[1..], room, n + 1);
          Prepend(pattern, c, r.issued, r.pattern);
        } else {
          assert c in cs;
        }
      } else {
        DrainConsumes(pattern, cs[1..], room, n);
        var r := Drain(pattern, cs[1..], room, n);
        assert r.pattern[c] <= 0;
      }
    }
  }

  lemma Prepend(pattern: seq<int>, c: nat, issued: seq<Request>, after: seq<int>)
    requires c < |pattern| && pattern[c] > 0 && Consumes(pattern[c := 0], issued, after)
    ensures Consumes(pattern, [Request(c, pattern[c])] + issued, after) && after[c] == 0
  {
    var more := [Request(c, pattern[c])] + issued;
    forall i | 0 <= i < |issued| ensures issued[i].offset != c && pattern[issued[i].offset] == issued[i].level {
      assert pattern[c := 0][issued[i].offset] > 0;
    }
    OffsetsPrepend(Request(c, pattern[c]), issued);
    forall i, j | 0 <= i < j < |more| ensures more[i].offset != more[j].offset {
      assert more[j] == issued[j - 1];
      if i > 0 {
        assert more[i] == issued[i - 1];
      }
    }
  }

  lemma OffsetsPrepend(r: Request, issued: seq<Request>)
    ensures Offsets([r] + issued) == {r.offset} + Offsets(issued)
  {
    var more := [r] + issued;
    forall x ensures x in Offsets(more) <==> x == r.offset || x in Offsets(issued) {
      if x in Offsets(issued) {
        var i :| 0 <= i < |issued| && issued[i].offset == x;
        assert more[i + 1].offset == x;
      }
      if x in Offsets(more) && x != r.offset {
        var i :| 0 <= i < |more| && more[i].offset == x;
        assert issued[i - 1].offset == x;
      }
      assert more[0].offset == r.offset;
    }
  }

  lemma ConsumesMarks(pattern: seq<int>, issued: seq<Request>, after: seq<int>)
    requires Consumes(pattern, issued, after)
    ensures Offsets(issued) <= Marks(pattern) && Marks(after) == Marks(pattern) - Offsets(issued)
  {
    forall x ensures x in Marks(after) <==> x in Marks(pattern) - Offsets(issued) {
    }
  }

  /** The drain is done exactly when no mark remains. */
  lemma DrainDone(pattern: seq<int>, offset: nat, room: nat -> bool)
    requires offset < |pattern| && pattern[offset] <= 0
    ensures forall i :: 0 <= i < |Nearest(offset, |pattern|, 1)| ==> Nearest(offset, |pattern|, 1)[i] < |pattern|
    ensures var r := Drain(pattern, Nearest(offset, |pattern|, 1), room, 0);
      r.done <==> Marks(r.pattern) == {}
  {
    var cs := Nearest(offset, |pattern|, 1);
    NearestBelow(offset, |pattern|, 1);
    DrainConsumes(pattern, cs, room, 0);
    var r := Drain(pattern, cs, room, 0);
    if r.done {
      forall x | 0 <= x < |pattern| ensures r.pattern[x] <= 0 {
        if x != offset {
          NearestCovers(offset, |pattern|, 1, x);
        }
      }
    } else {
      var c :| c in cs && r.pattern[c] > 0;
      assert c in Marks(r.pattern);
    }
  }

  /** One call issues marked blocks only, each at most once and never the accessed one; the entry goes
      exactly when no mark remains. */
  lemma PrefetchMeaning(pattern: seq<int>, offset: nat, room: nat -> bool)
    requires offset < |pattern|
    ensures var (after, issued) := Prefetch(pattern, offset, room);
      && DistinctOffsets(issued)
      && (forall i :: 0 <= i < |issued| ==> issued[i].offset < |pattern| && pattern[issued[i].offset] == issued[i].level > 0)
      && Offsets(issued) <= Marks(pattern) - {offset}
      && (after.None? <==> Offsets(issued) == Marks(pattern) - {offset})
      && (after.Some? ==> Marks(after.value) == Marks(pattern) - {offset} - Offsets(issued))
  {
    var start := pattern[offset := 0];
    NearestBelow(offset, |pattern|, 1);
    DrainConsumes(start, Nearest(offset, |pattern|, 1), room, 0);
    DrainDone(start, offset, room);
    var r := Drain(start, Nearest(offset, |pattern|, 1), room, 0);
    ConsumesMarks(start, r.issued, r.pattern);
    assert Marks(start) == Marks(pattern) - {offset};
    forall i | 0 <= i < |r.issued|
      ensures r.issued[i].offset < |pattern| && pattern[r.issued[i].offset] == r.issued[i].level > 0
    {
      assert start[r.issued[i].offset] > 0;
    }
  }

  // ---- Order, and what ends a call ----

  /** Block x is nearer to the accessed one than y, or as near and on the positive side. */
  predicate Sooner(offset: nat, x: nat, y: nat) {
    var a, b := if x < offset then offset - x else x - offset, if y < offset then offset - y else y - offset;
    a < b || (a == b && y < offset < x)
  }

  ghost predicate InOrder(offset: nat, cs: seq<nat>) {
    forall i, j :: 0 <= i < j < |cs| ==> Sooner(offset, cs[i], cs[j])
  }

  lemma {:induction false} NearestInOrder(offset: nat, len: nat, d: nat)
    requires offset < len && 0 < d
    ensures InOrder(offset, Nearest(offset, len, d))
    ensures forall i :: 0 <= i < |Nearest(offset, len, d)| ==> Distance(offset, Nearest(offset, len, d)[i], d)
    decreases len - d
  {
    if d < len {
      NearestInOrder(offset, len, d + 1);
    }
  }

  /** A drain issues while there is room, and stops only when there is none. */
  lemma {:induction false} DrainHasRoom(pattern: seq<int>, cs: seq<nat>, room: nat -> bool, n: nat, i: nat)
    requires forall i :: 0 <= i < |cs| ==> cs[i] < |pattern|
    ensures var r := Drain(pattern, cs, room, n);
      && (i < |r.issued| ==> room(n + i) && r.issued[i].offset in cs)
      && (!r.done ==> !room(n + |r.issued|))
    decreases |cs|
  {
    if |cs| > 0 {
      if pattern[cs[0]] > 0 {
        if room(n) {
          DrainHasRoom(pattern[cs[0] := 0], cs[1..], room, n + 1, if i > 0 then i - 1 else 0);
        }
      } else {
        DrainHasRoom(pattern, cs[1..], room, n, i);
      }
    }
  }

  /** Candidates in order are issued in order. */
  lemma {:induction false} DrainInOrder(pattern: seq<int>, offset: nat, cs: seq<nat>, room: nat -> bool, n: nat, i: nat, j: nat)
    requires (forall i :: 0 <= i < |cs| ==> cs[i] < |pattern|) && InOrder(offset, cs)
    ensures var r := Drain(pattern, cs, room, n);
      i < j < |r.issued| ==> Sooner(offset, r.issued[i].offset, r.issued[j].offset)
    decreases |cs|
  {
    if |cs| > 0 {
      if pattern[cs[0]] > 0 {
        if room(n) && i < j {
          DrainHasRoom(pattern[cs[0] := 0], cs[1..], room, n + 1, j - 1);
          if i > 0 {
            DrainInOrder(pattern[cs[0] := 0], offset, cs[1..], room, n + 1, i - 1, j - 1);
          }
        }
      } else {
        DrainInOrder(pattern, offset, cs[1..], room, n, i, j);
      }
    }
  }

  /** What a drain leaves comes after all it issued. */
  lemma {:induction false} DrainLeavesLater(pattern: seq<int>, offset: nat, cs: seq<nat>, room: nat -> bool, n: nat, i: nat, x: nat)
    requires (forall i :: 0 <= i < |cs| ==> cs[i] < |pattern|) && InOrder(offset, cs) && x in cs
    ensures var r := Drain(pattern, cs, room, n);
      i < |r.issued| && r.pattern[x] > 0 ==> Sooner(offset, r.issued[i].offset, x)
    decreases |cs|
  {
    var c := cs[0];
    if pattern[c] > 0 {
      if room(n) {
        DrainConsumes(pattern[c := 0], cs[1..], room, n + 1);
        if i > 0 && x in cs[1..] {
          DrainLeavesLater(pattern[c := 0], offset, cs[1..], room, n + 1, i - 1, x);
        }
      }
    } else {
      DrainConsumes(pattern, cs[1..], room, n);
      if x in cs[1..] {
        DrainLeavesLater(pattern, offset, cs[1..], room, n, i, x);
      }
    }
  }

  /** One call issues nearest first, positive side first, and stops only when there is no room; what it leaves
      is farther than all it issued. */
  lemma PrefetchInOrder(pattern: seq<int>, offset: nat, room: nat -> bool)
    requires offset < |pattern|
    ensures var (after, issued) := Prefetch(pattern, offset, room);
      && (forall i, j :: 0 <= i < j < |issued| ==> Sooner(offset, issued[i].offset, issued[j].offset))
      && (forall i :: 0 <= i < |issued| ==> room(i))
      && (after.Some? ==> !room(|issued|))
      && (after.Some? ==> forall i, x :: 0 <= i < |issued| && x in Marks(after.value) ==> Sooner(offset, issued[i].offset, x))
  {
    hide Drain, Nearest, Sooner;
    var start, cs := pattern[offset := 0], Nearest(offset, |pattern|, 1);
    NearestBelow(offset, |pattern|, 1);
    NearestInOrder(offset, |pattern|, 1);
    var r := Drain(start, cs, room, 0);
    DrainHasRoom(start, cs, room, 0, 0);
    forall i | 0 <= i < |r.issued| ensures room(i) {
      DrainHasRoom(start, cs, room, 0, i);
    }
    forall i, j | 0 <= i < j < |r.issued| ensures Sooner(offset, r.issued[i].offset, r.issued[j].offset) {
      DrainInOrder(start, offset, cs, room, 0, i, j);
    }
    DrainConsumes(start, cs, room, 0);
    forall i, x | 0 <= i < |r.issued| && x in Marks(r.pattern) ensures Sooner(offset, r.issued[i].offset, x) {
      assert x != offset;
      NearestCovers(offset, |pattern|, 1, x);
      DrainLeavesLater(start, offset, cs, room, 0, i, x);
    }
  }

  // ---- Several calls ----

  lemma JoinDistinct(a: seq<Request>, b: seq<Request>)
    requires DistinctOffsets(a) && DistinctOffsets(b) && Offsets(a) !! Offsets(b)
    ensures DistinctOffsets(a + b) && Offsets(a + b) == Offsets(a) + Offsets(b)
  {
    var c := a + b;
    forall i, j | 0 <= i < j < |c| ensures c[i].offset != c[j].offset {
      if i < |a| <= j {
        assert a[i].offset in Offsets(a) && b[j - |a|].offset in Offsets(b);
      }
    }
    forall x ensures x in Offsets(c) <==> x in Offsets(a) + Offsets(b) {
      if x in Offsets(a) {
        var i :| 0 <= i < |a| && a[i].offset == x;
        assert c[i].offset == x;
      }
      if x in Offsets(b) {
        var i :| 0 <= i < |b| && b[i].offset == x;
        assert c[|a| + i].offset == x;
      }
    }
  }

  // ---- The loops of prefetch ----

  /** What is still to be tried at distance d, from the given sign on. */
  function After(offset: nat, len: nat, d: nat, sgn: int): seq<nat>
    requires offset < len && 0 < d
  {
    if d >= len then []
    else
      (if sgn > 0 && offset + d < len then [offset + d] else [])
      + (if sgn >= -1 && offset >= d then [offset - d] else []) + Nearest(offset, len, d + 1)
  }

  /** The drain continues from a state of the loops. */
  ghost predicate Continues(goal: Drained, pattern: seq<int>, cs: seq<nat>, room: nat -> bool, issued: seq<Request>) {
    && (forall i :: 0 <= i < |cs| ==> cs[i] < |pattern|)
    && var r := Drain(pattern, cs, room, |issued|);
    goal == Drained(r.pattern, issued + r.issued, r.done)
  }

  lemma ContinuesStep(goal: Drained, pattern: seq<int>, c: nat, rest: seq<nat>, room: nat -> bool, issued: seq<Request>)
    requires Continues(goal, pattern, [c] + rest, room, issued)
    ensures c < |pattern|
    ensures if pattern[c] <= 0 then Continues(goal, pattern, rest, room, issued)
            else if room(|issued|) then Continues(goal, pattern[c := 0], rest, room, issued + [Request(c, pattern[c])])
            else goal == Drained(pattern, issued, false)
  {
    var cs := [c] + rest;
    assert cs[0] == c && cs[1..] == rest;
    assert forall i :: 0 <= i < |rest| ==> rest[i] == cs[i + 1];
    if pattern[c] > 0 && room(|issued|) {
      var r := Drain(pattern[c := 0], rest, room, |issued| + 1);
      assert issued + ([Request(c, pattern[c])] + r.issued) == issued + [Request(c, pattern[c])] + r.issued;
    } else {
      assert issued + [] == issued;
    }
  }

  lemma AfterEnds(offset: nat, len: nat, d: nat)
    requires offset < len && 0 < d < len
    ensures After(offset, len, d, 1) == Nearest(offset, len, d)
    ensures After(offset, len, d, -3) == Nearest(offset, len, d + 1)
  {
  }

  lemma AfterStep(offset: nat, len: nat, d: nat, sgn: int)
    requires offset < len && 0 < d < len && (sgn == 1 || sgn == -1)
    ensures var x: int := offset + sgn * d;
      After(offset, len, d, sgn) == (if 0 <= x < len then [x as nat] else []) + After(offset, len, d, sgn - 2)
  {
    hide Nearest;
    var rest := Nearest(offset, len, d + 1);
    if sgn == 1 {
      assert offset + sgn * d == offset + d;
    } else {
      assert offset + sgn * d == offset - d;
    }
  }

  /** The two candidates at one distance, positive stride first. */
  method DrainDistance(pattern0: seq<int>, regionOffset: nat, d: nat, room: nat -> bool, issued0: seq<Request>, ghost goal: Drained)
    returns (pattern: seq<int>, issued: seq<Request>, stopped: bool)
    requires regionOffset < |pattern0| && 0 < d < |pattern0|
    requires Continues(goal, pattern0, Nearest(regionOffset, |pattern0|, d), room, issued0)
    ensures |pattern| == |pattern0|
    ensures if stopped then goal == Drained(pattern, issued, false)
            else Continues(goal, pattern, Nearest(regionOffset, |pattern0|, d + 1), room, issued)
  {
    hide Continues, Nearest, After;
    var len := |pattern0|;
    pattern, issued, stopped := pattern0, issued0, false;
    AfterEnds(regionOffset, len, d);
    var sgn := 1;
    while sgn >= -1
      invariant sgn == 1 || sgn == -1 || sgn == -3
      invariant |pattern| == len && !stopped
      invariant Continues(goal, pattern, After(regionOffset, len, d, sgn), room, issued)
      decreases sgn + 3
    {
      var pfOffset: int := regionOffset + sgn * d;
      AfterStep(regionOffset, len, d, sgn);
      if 0 <= pfOffset < len {
        ContinuesStep(goal, pattern, pfOffset, After(regionOffset, len, d, sgn - 2), room, issued);
        if pattern[pfOffset] > 0 {
          if room(|issued|) {
            issued, pattern := issued + [Request(pfOffset, pattern[pfOffset])], pattern[pfOffset := 0];
          } else {
            stopped := true;
            return;
          }
        }
      } else {
        assert [] + After(regionOffset, len, d, sgn - 2) == After(regionOffset, len, d, sgn - 2);
      }
      sgn := sgn - 2;
    }
  }

  /** The loop over distances. */
  method DrainRegion(start: seq<int>, regionOffset: nat, room: nat -> bool)
    returns (pattern: seq<int>, issued: seq<Request>, done: bool)
    requires regionOffset < |start|
    ensures forall i :: 0 <= i < |Nearest(regionOffset, |start|, 1)| ==> Nearest(regionOffset, |start|, 1)[i] < |start|
    ensures Drained(pattern, issued, done) == Drain(start, Nearest(regionOffset, |start|, 1), room, 0)
  {
    var len := |start|;
    NearestBelow(regionOffset, len, 1);
    ghost var goal := Drain(start, Nearest(regionOffset, len, 1), room, 0);
    pattern, issued, done := start, [], false;
    assert [] + goal.issued == goal.issued;
    var d := 1;
    while d < len
      invariant 1 <= d && |pattern| == len
      invariant Continues(goal, pattern, Nearest(regionOffset, len, d), room, issued)
    {
      var stopped;
      pattern, issued, stopped := DrainDistance(pattern, regionOffset, d, room, issued, goal);
      if stopped {
        return;
      }
      d := d + 1;
    }
    done := true;
    assert issued + [] == issued;
  }
}
