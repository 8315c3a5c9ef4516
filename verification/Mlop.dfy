/** MLOP's learning machine (prefetcher/mlop.cc, inc/mlop.h): offsets are scored per lookahead degree,
    and at the end of a round the best offsets of every degree are selected. */
module Mlop {
  import opened Counting
  import opened LruTable
  import opened HashIndex

  datatype BlockState = INIT | ACCESS | PREFTCH

  /** AccessMapData: the states of the blocks of a zone and its latest accesses, newest first. */
  datatype Zone = Zone(accessMap: seq<BlockState>, prefetchMap: seq<int>, histQueue: seq<nat>)

  /** Degrees, blocks in a zone, updates in a round, and the two thresholds that are in use. */
  datatype Params = Params(degree: nat, zone: nat, updates: nat, l2c: nat, llc: nat)

  const FILL_L2 := 2
  const FILL_LLC := 4

  ghost predicate ParamsOk(p: Params) { p.degree > 0 && p.zone > 0 && p.updates > 0 }

  function Origin(p: Params): nat
    requires p.zone > 0
  {
    p.zone - 1
  }

  function Columns(p: Params): nat
    requires p.zone > 0
  {
    2 * p.zone - 1
  }

  // ---- Access maps ----

  ghost predicate ZoneOk(p: Params, z: Zone) {
    && |z.accessMap| == |z.prefetchMap| == p.zone
    && |z.histQueue| < p.degree && forall i :: 0 <= i < |z.histQueue| ==> z.histQueue[i] < p.zone
  }

  /** A zone is kept only while some block is not in state INIT. */
  predicate Alive(z: Zone) { exists i :: 0 <= i < |z.accessMap| && z.accessMap[i] != INIT }

  ghost predicate TableOk(p: Params, t: Table<Zone>) {
    Ok(t) && forall k :: k in t.data ==> ZoneOk(p, t.data[k]) && Alive(t.data[k])
  }

  function Fresh(p: Params): Zone {
    Zone(seq(p.zone, _ => INIT), seq(p.zone, _ => 0), [])
  }

  /** The history of accesses, bounded by the number of degrees that can use it. */
  function Push(queue: seq<nat>, offset: nat, size: nat): seq<nat> {
    var longer := [offset] + queue;
    if |longer| > size then longer[..|longer| - 1] else longer
  }

  /** One block of a zone changes its state. */
  function Changed(p: Params, z: Zone, offset: nat, state: BlockState, fill: int): Zone
    requires p.degree > 0 && offset < |z.accessMap| == |z.prefetchMap|
  {
    Zone(z.accessMap[offset := state], z.prefetchMap[offset := fill],
         if state == ACCESS then Push(z.histQueue, offset, p.degree - 1) else z.histQueue)
  }

  /** set_state. A zone is entered only by an access, used by every access, and leaves when it is idle.
      Its callers mark a prefetch only in a zone that is present. */
  function SetState(p: Params, t: Table<Zone>, k: nat, offset: nat, state: BlockState, fill: int): Table<Zone>
    requires TableOk(p, t) && ParamsOk(p) && offset < p.zone && (state == PREFTCH ==> k in t.data)
  {
    if k !in t.data then
      if state != ACCESS then t else Insert(t, k, Changed(p, Fresh(p), offset, ACCESS, fill))
    else
      var z := Changed(p, t.data[k], offset, state, fill);
      if state == ACCESS then Touch(Store(t, k, z), k)
      else if state == INIT && !Alive(z) then Erase(t, k)
      else Store(t, k, z)
  }

  lemma ChangedOk(p: Params, z: Zone, offset: nat, state: BlockState, fill: int)
    requires ParamsOk(p) && ZoneOk(p, z) && offset < p.zone
    ensures ZoneOk(p, Changed(p, z, offset, state, fill))
    ensures state != INIT ==> Alive(Changed(p, z, offset, state, fill))
  {
    var c := Changed(p, z, offset, state, fill);
    assert c.accessMap[offset] == state;
  }

  /** Every state change keeps the history within its bound and in the zone, and drops idle zones. */
  lemma SetStateOk(p: Params, t: Table<Zone>, k: nat, offset: nat, state: BlockState, fill: int)
    requires ParamsOk(p) && TableOk(p, t) && offset < p.zone && (state == PREFTCH ==> k in t.data)
    ensures TableOk(p, SetState(p, t, k, offset, state, fill))
  {
    hide Ok, Insert, Alive;
    if k !in t.data {
      if state == ACCESS {
        FreshOk(p);
        var z := Changed(p, Fresh(p), offset, ACCESS, fill);
        ChangedOk(p, Fresh(p), offset, ACCESS, fill);
        InsertOk(t, k, z);
        InsertedOk(t, k, z);
      }
    } else {
      var z := Changed(p, t.data[k], offset, state, fill);
      ChangedOk(p, t.data[k], offset, state, fill);
      StoreOk(t, k, z);
      TouchOk(Store(t, k, z), k);
      EraseOk(t, k);
    }
  }

  lemma FreshOk(p: Params)
    requires ParamsOk(p)
    ensures ZoneOk(p, Fresh(p))
  {
  }

  lemma InsertedOk<T>(t: Table<T>, k: nat, v: T)
    requires Ok(t)
    ensures forall x :: x in Insert(t, k, v).data ==> Insert(t, k, v).data[x] == v || (x in t.data && Insert(t, k, v).data[x] == t.data[x])
  {
  }

  // ---- What a state change means ----

  /** Zone z with one block in a new state, as every reader of its access map sees it. */
  ghost predicate BlockChanged(z: Zone, offset: nat, state: BlockState, fill: int, y: Zone) {
    && |y.accessMap| == |z.accessMap| && |y.prefetchMap| == |z.prefetchMap|
    && (forall x :: 0 <= x < |y.accessMap| ==> y.accessMap[x] == if x == offset then state else z.accessMap[x])
    && (forall x :: 0 <= x < |y.prefetchMap| ==> y.prefetchMap[x] == if x == offset then fill else z.prefetchMap[x])
  }

  /** The history starts with the block just accessed and goes on as before; it forgets only its oldest entry,
      and only when it is as long as the degrees that use it. */
  ghost predicate HistoryPushed(queue: seq<nat>, offset: nat, size: nat, r: seq<nat>) {
    && |r| == (if |queue| < size then |queue| + 1 else size)
    && (|r| > 0 ==> r[0] == offset) && forall i :: 0 < i < |r| ==> r[i] == queue[i - 1]
  }

  /** An idle zone: every block INIT, nothing prefetched, no history. */
  ghost predicate Idle(p: Params, z: Zone) {
    && |z.accessMap| == |z.prefetchMap| == p.zone && z.histQueue == []
    && forall x :: 0 <= x < p.zone ==> z.accessMap[x] == INIT && z.prefetchMap[x] == 0
  }

  /** What set_state makes of the zone: none if no block of it is in use any more. */
  ghost predicate ZoneAfter(p: Params, z: Zone, offset: nat, state: BlockState, fill: int, r: Option<Zone>)
    requires p.degree > 0
  {
    exists y ::
      && BlockChanged(z, offset, state, fill, y)
      && (if state == ACCESS then HistoryPushed(z.histQueue, offset, p.degree - 1, y.histQueue) else y.histQueue == z.histQueue)
      && r == if forall x :: 0 <= x < |y.accessMap| ==> y.accessMap[x] == INIT then None else Some(y)
  }

  /** set_state, reader by reader: the zone after it; the other zones, of which only the one that makes room for
      a new one goes; and which zone is the most recent. */
  lemma SetStateMeaning(p: Params, t: Table<Zone>, k: nat, offset: nat, state: BlockState, fill: int)
    requires ParamsOk(p) && TableOk(p, t) && offset < p.zone && (state == PREFTCH ==> k in t.data)
    ensures var r := SetState(p, t, k, offset, state, fill);
      && (k in t.data ==> ZoneAfter(p, t.data[k], offset, state, fill, Find(r, k)))
      && (k !in t.data && state != ACCESS ==> r == t)
      && (k !in t.data && state == ACCESS ==> exists z :: Idle(p, z) && ZoneAfter(p, z, offset, state, fill, Find(r, k)))
      && (forall x :: x != k && Victim(t, k) != Some(x) ==> Find(r, x) == Find(t, x))
      && (k in t.data || state != ACCESS ==> forall x :: x != k ==> Find(r, x) == Find(t, x))
      && (state == ACCESS ==> |r.order| > 0 && r.order[|r.order| - 1] == k)
      && (state != ACCESS && k in r.data ==> r.order == t.order)
  {
    hide Ok, Insert, Victim, Without;
    var r := SetState(p, t, k, offset, state, fill);
    if k in t.data {
      ChangedMeaning(p, t.data[k], offset, state, fill);
      ChangedOk(p, t.data[k], offset, state, fill);
    } else if state == ACCESS {
      var z := Fresh(p);
      FreshOk(p);
      ChangedMeaning(p, z, offset, state, fill);
      ChangedOk(p, z, offset, state, fill);
      InsertMeaning(t, k, Changed(p, z, offset, ACCESS, fill));
      InsertLast(t, k, Changed(p, z, offset, ACCESS, fill));
      assert Idle(p, z);
    }
  }

  lemma ChangedMeaning(p: Params, z: Zone, offset: nat, state: BlockState, fill: int)
    requires ParamsOk(p) && ZoneOk(p, z) && offset < p.zone
    ensures var y := Changed(p, z, offset, state, fill);
      && ZoneAfter(p, z, offset, state, fill, if Alive(y) then Some(y) else None)
  {
    var y := Changed(p, z, offset, state, fill);
    assert BlockChanged(z, offset, state, fill, y);
    assert state == ACCESS ==> HistoryPushed(z.histQueue, offset, p.degree - 1, y.histQueue);
  }

  lemma InsertLast<T>(t: Table<T>, k: nat, v: T)
    requires Ok(t)
    ensures var r := Insert(t, k, v); |r.order| > 0 && r.order[|r.order| - 1] == k
  {
  }

  // ---- Scores ----

  /** The access map with the d latest accesses unmarked. */
  function Unmarked(map_: seq<BlockState>, queue: seq<nat>, d: nat): (m: seq<BlockState>)
    requires d <= |queue| && forall i :: 0 <= i < |queue| ==> queue[i] < |map_|
    ensures |m| == |map_|
  {
    if d == 0 then map_ else Unmarked(map_, queue, d - 1)[queue[d - 1] := INIT]
  }

  /** At degree d, the offset of column c would have predicted this access. */
  predicate Predicts(p: Params, z: Zone, offset: nat, d: nat, c: nat)
    requires p.zone > 0 && |z.accessMap| == p.zone && forall i :: 0 <= i < |z.histQueue| ==> z.histQueue[i] < p.zone
  {
    d <= |z.histQueue| && c != Origin(p) && 0 <= offset - (c - Origin(p)) < p.zone
    && Unmarked(z.accessMap, z.histQueue, d)[offset - (c - Origin(p))] == ACCESS
  }

  function Scored(p: Params, scores: seq<seq<nat>>, z: Zone, offset: nat): (r: seq<seq<nat>>)
    requires ScoresShape(p, scores) && p.zone > 0 && |z.accessMap| == p.zone
    requires forall i :: 0 <= i < |z.histQueue| ==> z.histQueue[i] < p.zone
  {
    seq(p.degree, d requires 0 <= d < p.degree =>
      seq(Columns(p), c requires 0 <= c < Columns(p) => scores[d][c] + (if Predicts(p, z, offset, d, c) then 1 else 0)))
  }

  ghost predicate ScoresShape(p: Params, scores: seq<seq<nat>>) {
    p.zone > 0 && |scores| == p.degree && forall d :: 0 <= d < p.degree ==> |scores[d]| == Columns(p)
  }

  /** Scores fall with the degree, never exceed the updates so far, and offset 0 scores nothing. */
  ghost predicate ScoresOk(p: Params, scores: seq<seq<nat>>, cnt: nat) {
    && ScoresShape(p, scores)
    && (forall d, c | 0 <= d < p.degree && 0 <= c < Columns(p) :: scores[d][c] <= cnt)
    && (forall d, e, c | 0 <= d < e < p.degree && 0 <= c < Columns(p) :: scores[e][c] <= scores[d][c])
    && (forall d :: 0 <= d < p.degree ==> scores[d][Origin(p)] == 0)
  }

  lemma {:induction false} UnmarkedFewer(map_: seq<BlockState>, queue: seq<nat>, d: nat, e: nat, x: nat)
    requires d <= e <= |queue| && (forall i :: 0 <= i < |queue| ==> queue[i] < |map_|) && x < |map_|
    ensures Unmarked(map_, queue, e)[x] == ACCESS ==> Unmarked(map_, queue, d)[x] == ACCESS
    decreases e - d
  {
    if d < e {
      UnmarkedFewer(map_, queue, d, e - 1, x);
    }
  }

  /** One more update keeps the scores in order. */
  lemma ScoredOk(p: Params, scores: seq<seq<nat>>, cnt: nat, z: Zone, offset: nat)
    requires ParamsOk(p) && ScoresOk(p, scores, cnt) && ZoneOk(p, z) && offset < p.zone
    ensures ScoresOk(p, Scored(p, scores, z, offset), cnt + 1)
  {
    hide Unmarked;
    var after := Scored(p, scores, z, offset);
    forall d, e, c | 0 <= d < e < p.degree && 0 <= c < Columns(p) ensures after[e][c] <= after[d][c] {
      assert scores[e][c] <= scores[d][c];
      if Predicts(p, z, offset, e, c) {
        UnmarkedFewer(z.accessMap, z.histQueue, d, e, offset - (c - Origin(p)));
      }
    }
  }

  lemma {:induction false} UnmarkedAt(map_: seq<BlockState>, queue: seq<nat>, d: nat, x: nat)
    requires d <= |queue| && (forall i :: 0 <= i < |queue| ==> queue[i] < |map_|) && x < |map_|
    ensures Unmarked(map_, queue, d)[x] == if x in queue[..d] then INIT else map_[x]
  {
    if d > 0 {
      UnmarkedAt(map_, queue, d - 1, x);
      assert queue[..d] == queue[..d - 1] + [queue[d - 1]];
    }
  }

  /** What an access is worth to the offset o at degree d: one, exactly when o is not 0 and the block o before the
      accessed one has been accessed, but is not among the d latest accesses of a history that long. */
  ghost function Credit(p: Params, z: Zone, offset: nat, d: nat, o: int): nat
    requires |z.accessMap| == p.zone
  {
    if o != 0 && d <= |z.histQueue| && 0 <= offset - o < p.zone
       && z.accessMap[offset - o] == ACCESS && offset - o !in z.histQueue[..d] then 1 else 0
  }

  /** Every score grows by exactly that. */
  ghost predicate Credited(p: Params, scores: seq<seq<nat>>, z: Zone, offset: nat, after: seq<seq<nat>>)
    requires ScoresShape(p, scores) && |z.accessMap| == p.zone
  {
    && ScoresShape(p, after)
    && forall d, o | 0 <= d < p.degree && 0 <= p.zone - 1 + o < Columns(p) ::
         after[d][p.zone - 1 + o] == scores[d][p.zone - 1 + o] + Credit(p, z, offset, d, o)
  }

  lemma ScoredExactly(p: Params, scores: seq<seq<nat>>, z: Zone, offset: nat)
    requires ParamsOk(p) && ScoresShape(p, scores) && ZoneOk(p, z) && offset < p.zone
    ensures Credited(p, scores, z, offset, Scored(p, scores, z, offset))
  {
    hide Unmarked;
    forall d, o | 0 <= d < p.degree && 0 <= p.zone - 1 + o < Columns(p)
      ensures Scored(p, scores, z, offset)[d][p.zone - 1 + o] == scores[d][p.zone - 1 + o] + Credit(p, z, offset, d, o)
    {
      if d <= |z.histQueue| && 0 <= offset - o < p.zone {
        UnmarkedAt(z.accessMap, z.histQueue, d, offset - o);
      }
    }
  }

  // ---- The end of a round ----

  /** max_element over the first n columns. */
  function Max(row: seq<nat>, n: nat): nat
    requires 0 < n <= |row|
  {
    if n == 1 then row[0] else if row[n - 1] > Max(row, n - 1) then row[n - 1] else Max(row, n - 1)
  }

  lemma {:induction false} MaxMeaning(row: seq<nat>, n: nat)
    requires 0 < n <= |row|
    ensures forall c :: 0 <= c < n ==> row[c] <= Max(row, n)
    ensures exists c :: 0 <= c < n && row[c] == Max(row, n)
  {
    if n > 1 {
      MaxMeaning(row, n - 1);
      if row[n - 1] <= Max(row, n - 1) {
        var c :| 0 <= c < n - 1 && row[c] == Max(row, n - 1);
      } else {
        assert row[n - 1] == Max(row, n);
      }
    } else {
      assert row[0] == Max(row, 1);
    }
  }

  function LevelOf(p: Params, max: nat): int {
    if max >= p.l2c then FILL_L2 else if max >= p.llc then FILL_LLC else 0
  }

  /** The untaken columns of the greatest score among the first n, in increasing order. */
  function Best(row: seq<nat>, max: nat, taken: set<nat>, n: nat): (b: seq<nat>)
    requires n <= |row|
    ensures forall c: nat :: c in b <==> c < n && row[c] == max && c !in taken
    ensures forall i, j :: 0 <= i < j < |b| ==> b[i] < b[j]
  {
    if n == 0 then []
    else
      var b := Best(row, max, taken, n - 1);
      if row[n - 1] == max && n - 1 !in taken then
        assert forall i :: 0 <= i < |b| ==> b[i] in b;
        b + [n - 1]
      else b
  }

  /** The selection at one degree: its fill level and its columns. */
  datatype Pick = Pick(level: int, columns: seq<nat>)

  function Elements(b: seq<nat>): set<nat> { set c | c in b }

  function NoPicks(n: nat): seq<Pick> { seq(n, _ => Pick(0, [])) }

  /** The selections of the degrees from d on, deepest first, and all columns they took. */
  function Select(p: Params, scores: seq<seq<nat>>, d: nat): (r: (seq<Pick>, set<nat>))
    requires ScoresShape(p, scores) && d <= p.degree
    ensures |r.0| == p.degree
    decreases p.degree - d
  {
    if d == p.degree then (NoPicks(p.degree), {})
    else
      var (picks, taken) := Select(p, scores, d + 1);
      var max := Max(scores[d], Columns(p));
      if LevelOf(p, max) == 0 then (picks, taken)
      else
        var best := Best(scores[d], max, taken, Columns(p));
        (picks[d := Pick(LevelOf(p, max), best)], taken + Elements(best))
  }

  // ---- What a selection means ----

  ghost predicate In(picks: seq<Pick>, d: nat, c: nat) {
    d < |picks| && c in picks[d].columns
  }

  /** Column c has the greatest score of degree d. */
  ghost predicate IsBest(p: Params, scores: seq<seq<nat>>, d: nat, c: nat)
    requires ScoresShape(p, scores)
  {
    d < p.degree && c < Columns(p) && scores[d][c] == Max(scores[d], Columns(p))
  }

  /** The best score of degree d passes a threshold. */
  ghost predicate Passes(p: Params, scores: seq<seq<nat>>, d: nat)
    requires ScoresShape(p, scores)
  {
    d < p.degree && LevelOf(p, Max(scores[d], Columns(p))) != 0
  }

  ghost predicate ChosenFrom(picks: seq<Pick>, d: nat, c: nat) {
    exists e :: d <= e && In(picks, e, c)
  }

  ghost predicate Selected(p: Params, scores: seq<seq<nat>>, d: nat, picks: seq<Pick>)
    requires ScoresShape(p, scores)
  {
    && |picks| == p.degree
    // the lists of different degrees are disjoint
    && (forall e, f, c :: In(picks, e, c) && In(picks, f, c) ==> e == f)
    // a selected column is of the greatest score of its degree, which passes a threshold
    && (forall e, c :: In(picks, e, c) ==> d <= e && Passes(p, scores, e) && IsBest(p, scores, e, c))
    // every such column is selected, at its degree or at a deeper one
    && (forall e, c :: d <= e && Passes(p, scores, e) && IsBest(p, scores, e, c) ==> ChosenFrom(picks, e, c))
    && (forall e :: d <= e < p.degree ==> picks[e].level == LevelOf(p, Max(scores[e], Columns(p))))
    && (forall e :: 0 <= e < d && e < p.degree ==> picks[e] == Pick(0, []))
  }

  ghost predicate Takes(picks: seq<Pick>, taken: set<nat>) {
    forall c :: c in taken <==> ChosenFrom(picks, 0, c)
  }

  /** The selection of a round, from any degree on. */
  lemma {:induction false} SelectMeaning(p: Params, scores: seq<seq<nat>>, d: nat)
    requires ScoresShape(p, scores) && d <= p.degree
    ensures Selected(p, scores, d, Select(p, scores, d).0)
    ensures Takes(Select(p, scores, d).0, Select(p, scores, d).1)
    decreases p.degree - d
  {
    if d < p.degree {
      SelectMeaning(p, scores, d + 1);
      var (picks, taken) := Select(p, scores, d + 1);
      var max := Max(scores[d], Columns(p));
      if LevelOf(p, max) != 0 {
        PickOne(p, scores, d, picks, taken, Best(scores[d], max, taken, Columns(p)));
      } else {
        PickNone(p, scores, d, picks);
      }
    } else {
      assert forall e, c :: !In(NoPicks(p.degree), e, c);
    }
  }

  lemma PickNone(p: Params, scores: seq<seq<nat>>, d: nat, picks: seq<Pick>)
    requires ScoresShape(p, scores) && d < p.degree && Selected(p, scores, d + 1, picks) && !Passes(p, scores, d)
    ensures Selected(p, scores, d, picks)
  {
    hide Max, LevelOf;
    assert LevelOf(p, Max(scores[d], Columns(p))) == 0;
  }

  lemma PickOne(p: Params, scores: seq<seq<nat>>, d: nat, picks: seq<Pick>, taken: set<nat>, best: seq<nat>)
    requires ScoresShape(p, scores) && d < p.degree && Passes(p, scores, d)
    requires Selected(p, scores, d + 1, picks) && Takes(picks, taken)
    requires forall c :: c in best <==> IsBest(p, scores, d, c) && c !in taken
    ensures var more := picks[d := Pick(LevelOf(p, Max(scores[d], Columns(p))), best)];
      Selected(p, scores, d, more) && Takes(more, taken + Elements(best))
  {
    hide Max, LevelOf, IsBest, Passes;
    var more := picks[d := Pick(LevelOf(p, Max(scores[d], Columns(p))), best)];
    assert forall c :: !In(picks, d, c);
    forall e, c ensures In(more, e, c) <==> In(picks, e, c) || (e == d && c in best) {
    }
    forall e, c | In(picks, e, c) ensures c in taken {
      assert ChosenFrom(picks, 0, c);
    }
    forall e, c | d <= e && Passes(p, scores, e) && IsBest(p, scores, e, c) ensures ChosenFrom(more, e, c) {
      if e > d {
        assert ChosenFrom(picks, e, c);
        var f :| e <= f && In(picks, f, c);
        assert In(more, f, c);
      } else if c in taken {
        assert ChosenFrom(picks, 0, c);
        var f :| 0 <= f && In(picks, f, c);
        assert In(more, f, c);
      } else {
        assert In(more, d, c);
      }
    }
    forall c ensures c in taken + Elements(best) <==> ChosenFrom(more, 0, c) {
      if c in taken {
        var f :| 0 <= f && In(picks, f, c);
        assert In(more, f, c);
      }
      if c in best {
        assert In(more, d, c);
      }
    }
  }

  /** The best scores fall with the degree. */
  lemma MaxFalls(p: Params, scores: seq<seq<nat>>, cnt: nat, d: nat, e: nat)
    requires ScoresOk(p, scores, cnt) && d < e < p.degree
    ensures Max(scores[e], Columns(p)) <= Max(scores[d], Columns(p)) <= cnt
  {
    MaxMeaning(scores[d], Columns(p));
    MaxMeaning(scores[e], Columns(p));
    var c :| 0 <= c < Columns(p) && scores[e][c] == Max(scores[e], Columns(p));
    assert scores[e][c] <= scores[d][c];
  }

  /** So a deeper degree never prefetches into a nearer level. */
  lemma LevelsFall(p: Params, scores: seq<seq<nat>>, cnt: nat, d: nat, e: nat)
    requires ScoresOk(p, scores, cnt) && d < e < p.degree && Passes(p, scores, e)
    ensures Passes(p, scores, d)
    ensures LevelOf(p, Max(scores[d], Columns(p))) <= LevelOf(p, Max(scores[e], Columns(p)))
  {
    MaxFalls(p, scores, cnt, d, e);
  }

  /** Offset 0 is never selected when a zero score passes no threshold. */
  lemma OriginNeverSelected(p: Params, scores: seq<seq<nat>>, cnt: nat, d: nat)
    requires ScoresOk(p, scores, cnt) && p.llc > 0 && p.l2c > 0
    ensures !In(Select(p, scores, 0).0, d, Origin(p))
  {
    SelectMeaning(p, scores, 0);
    if IsBest(p, scores, d, Origin(p)) {
      assert scores[d][Origin(p)] == 0;
    }
  }

  // ---- The machine ----

  datatype State = State(table: Table<Zone>, scores: seq<seq<nat>>, updateCnt: nat, picks: seq<Pick>)

  function NoScores(p: Params): seq<seq<nat>>
    requires p.zone > 0
  {
    seq(p.degree, _ => seq(Columns(p), _ => 0))
  }

  ghost predicate StateOk(p: Params, s: State) {
    ParamsOk(p) && TableOk(p, s.table) && ScoresOk(p, s.scores, s.updateCnt) && s.updateCnt < p.updates
    && |s.picks| == p.degree
  }

  /** Whether access counts this block: its zone is known and the block is not accessed already. */
  predicate Counts(s: State, k: nat, offset: nat)
    requires k in s.table.data ==> offset < |s.table.data[k].accessMap|
  {
    k in s.table.data && s.table.data[k].accessMap[offset] != ACCESS
  }

  /** access; k is the key of the zone. */
  function Access(p: Params, s: State, k: nat, offset: nat): State
    requires StateOk(p, s) && offset < p.zone
  {
    if !Counts(s, k, offset) then s
    else
      var scores := Scored(p, s.scores, s.table.data[k], offset);
      if s.updateCnt + 1 == p.updates then s.(scores := NoScores(p), updateCnt := 0, picks := Select(p, scores, 0).0)
      else s.(scores := scores, updateCnt := s.updateCnt + 1)
  }

  lemma AccessOk(p: Params, s: State, k: nat, offset: nat)
    requires StateOk(p, s) && offset < p.zone
    ensures StateOk(p, Access(p, s, k, offset))
  {
    hide Unmarked, Ok;
    if Counts(s, k, offset) {
      ScoredOk(p, s.scores, s.updateCnt, s.table.data[k], offset);
    }
  }

  /** access: a block of a known zone that is not accessed already credits the offsets that would have
      predicted it; the access that completes a round selects from those scores and starts again from zero; any
      other access changes nothing. */
  lemma AccessMeaning(p: Params, s: State, k: nat, offset: nat)
    requires StateOk(p, s) && offset < p.zone
    ensures var t := Access(p, s, k, offset);
      && t.table == s.table
      && if k in s.table.data && s.table.data[k].accessMap[offset] != ACCESS then
           exists scores | Credited(p, s.scores, s.table.data[k], offset, scores) ::
             if s.updateCnt + 1 == p.updates
             then t.updateCnt == 0 && Selected(p, scores, 0, t.picks) && ScoresShape(p, t.scores)
                  && forall d, c | 0 <= d < p.degree && 0 <= c < Columns(p) :: t.scores[d][c] == 0
             else t.updateCnt == s.updateCnt + 1 && t.picks == s.picks && t.scores == scores
         else t == s
  {
    hide Ok, Scored, Select, Selected, Credit;
    if k in s.table.data && s.table.data[k].accessMap[offset] != ACCESS {
      var scores := Scored(p, s.scores, s.table.data[k], offset);
      ScoredExactly(p, s.scores, s.table.data[k], offset);
      SelectMeaning(p, scores, 0);
      assert Credited(p, s.scores, s.table.data[k], offset, scores);
    }
  }

  /** Some offset of degree d has at least this score. */
  ghost predicate Scores(p: Params, scores: seq<seq<nat>>, d: nat, least: nat)
    requires ScoresShape(p, scores) && d < p.degree
  {
    exists c :: 0 <= c < Columns(p) && scores[d][c] >= least
  }

  /** A degree prefetches into the L2 exactly when one of its offsets reaches the L2's threshold, into the LLC
      exactly when one reaches only the LLC's, and otherwise not at all. */
  lemma LevelsSelected(p: Params, scores: seq<seq<nat>>, picks: seq<Pick>, d: nat)
    requires ParamsOk(p) && ScoresShape(p, scores) && Selected(p, scores, 0, picks) && d < p.degree
    ensures picks[d].level ==
      if Scores(p, scores, d, p.l2c) then FILL_L2 else if Scores(p, scores, d, p.llc) then FILL_LLC else 0
    ensures picks[d].level == 0 ==> picks[d].columns == []
  {
    MaxMeaning(scores[d], Columns(p));
    if picks[d].level == 0 && picks[d].columns != [] {
      assert In(picks, d, picks[d].columns[0]);
    }
  }

  datatype Event = Trigger(k: nat, offset: nat) | Mark(k: nat, offset: nat, state: BlockState, fill: int)

  ghost predicate EventOk(p: Params, s: State, e: Event) {
    e.offset < p.zone && (e.Mark? && e.state == PREFTCH ==> e.k in s.table.data)
  }

  function Step(p: Params, s: State, e: Event): State
    requires StateOk(p, s) && EventOk(p, s, e)
  {
    match e
    case Trigger(k, offset) => Access(p, s, k, offset)
    case Mark(k, offset, state, fill) => s.(table := SetState(p, s.table, k, offset, state, fill))
  }

  lemma StepOk(p: Params, s: State, e: Event)
    requires StateOk(p, s) && EventOk(p, s, e)
    ensures StateOk(p, Step(p, s, e))
  {
    hide Access, SetState, ScoresOk, TableOk;
    match e
    case Trigger(k, offset) => AccessOk(p, s, k, offset);
    case Mark(k, offset, state, fill) => SetStateOk(p, s.table, k, offset, state, fill);
  }

  /** Each round's selection is made from ordered scores that every run keeps. */
  ghost predicate Reaches(p: Params, s: State, events: seq<Event>, t: State)
    decreases |events|
  {
    if |events| == 0 then s == t
    else StateOk(p, s) && EventOk(p, s, events[0]) && Reaches(p, Step(p, s, events[0]), events[1..], t)
  }

  lemma {:induction false} RunKeepsOk(p: Params, s: State, events: seq<Event>, t: State)
    requires StateOk(p, s) && Reaches(p, s, events, t)
    ensures StateOk(p, t)
    decreases |events|
  {
    hide StateOk, Step;
    if |events| > 0 {
      StepOk(p, s, events[0]);
      RunKeepsOk(p, Step(p, s, events[0]), events[1..], t);
    }
  }

  ghost predicate IsInitial(p: Params, s: State) {
    && ParamsOk(p) && s.table.data == map[] && Ok(s.table) && s.scores == NoScores(p) && s.updateCnt == 0
    && s.picks == NoPicks(p.degree)
  }

  lemma InitialOk(p: Params, s: State)
    requires IsInitial(p, s)
    ensures StateOk(p, s)
  {
  }

  /** The access that ends a round selects, for every degree over a threshold, exactly the offsets of
      greatest score that no deeper degree has selected. */
  lemma RoundSelects(p: Params, s: State, k: nat, offset: nat)
    requires StateOk(p, s) && offset < p.zone && Counts(s, k, offset) && s.updateCnt + 1 == p.updates
    ensures var scores := Scored(p, s.scores, s.table.data[k], offset);
      ScoresOk(p, scores, p.updates) && Selected(p, scores, 0, Access(p, s, k, offset).picks)
  {
    var scores := Scored(p, s.scores, s.table.data[k], offset);
    ScoredOk(p, s.scores, s.updateCnt, s.table.data[k], offset);
    SelectMeaning(p, scores, 0);
  }

  /** The selection of a round that ended with ordered scores, or none so far. */
  ghost predicate PicksFrom(p: Params, picks: seq<Pick>) {
    picks == NoPicks(p.degree) || exists scores :: ScoresOk(p, scores, p.updates) && Selected(p, scores, 0, picks)
  }

  lemma StepPicks(p: Params, s: State, e: Event)
    requires StateOk(p, s) && EventOk(p, s, e) && PicksFrom(p, s.picks)
    ensures PicksFrom(p, Step(p, s, e).picks)
  {
    hide Scored, Select, Selected, ScoresOk, SetState;
    if e.Trigger? && Counts(s, e.k, e.offset) && s.updateCnt + 1 == p.updates {
      RoundSelects(p, s, e.k, e.offset);
    }
  }

  /** In every state of a run from the initial one the selected offsets are none, or those of a selection
      from ordered scores: pairwise disjoint, of the greatest score of their degree, and all of those. */
  lemma {:induction false} RunKeepsPicks(p: Params, s: State, events: seq<Event>, t: State)
    requires StateOk(p, s) && PicksFrom(p, s.picks) && Reaches(p, s, events, t)
    ensures PicksFrom(p, t.picks)
    decreases |events|
  {
    hide StateOk, Step, PicksFrom;
    if |events| > 0 {
      StepOk(p, s, events[0]);
      StepPicks(p, s, events[0]);
      RunKeepsPicks(p, Step(p, s, events[0]), events[1..], t);
    }
  }

  lemma ReachablePicks(p: Params, s: State, events: seq<Event>, t: State)
    requires IsInitial(p, s) && Reaches(p, s, events, t)
    ensures StateOk(p, t) && PicksFrom(p, t.picks)
  {
    hide StateOk, Reaches;
    InitialOk(p, s);
    RunKeepsOk(p, s, events, t);
    RunKeepsPicks(p, s, events, t);
  }
}
