/** MLOP with its scores and selections in place (prefetcher/mlop.cc, inc/mlop.h), proved against Mlop. */
module MlopDevice {
  import opened Counting
  import opened HashIndex
  import opened LruTable
  import opened CamSet
  import opened LruCache
  import opened Mlop

  /** Columns of the score table as offsets. */
  function ToOffsets(columns: seq<nat>, origin: nat): seq<int> {
    seq(|columns|, i requires 0 <= i < |columns| => columns[i] - origin)
  }

  class MlopPrefetcher {
    const params: Params
    const accessMapTable: LruSetAssociativeCache<Zone>
    const offsetScores: array2<nat>
    const pfLevel: array<int>
    const pfOffset: array<seq<int>>
    var updateCnt: nat
    ghost var picks: seq<Pick>

    ghost function Repr(): set<object> { {this, offsetScores, pfLevel, pfOffset} + accessMapTable.Repr() }

    ghost predicate Shape() {
      && ParamsOk(params)
      && offsetScores.Length0 == params.degree && offsetScores.Length1 == Columns(params)
      && pfLevel.Length == pfOffset.Length == params.degree
      && this !in accessMapTable.Repr() && offsetScores !in accessMapTable.Repr()
      && pfLevel !in accessMapTable.Repr() && pfOffset !in accessMapTable.Repr()
      && pfLevel as object != pfOffset && pfLevel as object != offsetScores && pfOffset as object != offsetScores
    }

    ghost function Scores(): (s: seq<seq<nat>>)
      requires Shape()
      reads offsetScores
      ensures ScoresShape(params, s)
      ensures forall d, c | 0 <= d < params.degree && 0 <= c < Columns(params) :: s[d][c] == offsetScores[d, c]
    {
      seq(params.degree, d requires 0 <= d < params.degree && Shape() reads offsetScores =>
        seq(Columns(params), c requires 0 <= c < Columns(params) && Shape() && 0 <= d < params.degree reads offsetScores =>
          offsetScores[d, c]))
    }

    /** The levels and the offset lists are the last selection. */
    ghost predicate PicksOk()
      requires Shape()
      reads `picks, pfLevel, pfOffset
    {
      |picks| == params.degree && forall d :: 0 <= d < params.degree ==>
        pfLevel[d] == picks[d].level && pfOffset[d] == ToOffsets(picks[d].columns, Origin(params))
    }

    ghost function View(): State
      requires Shape()
      reads `updateCnt, `picks, offsetScores, accessMapTable
    {
      State(accessMapTable.View(), Scores(), updateCnt, picks)
    }

    ghost predicate Valid()
      reads Repr()
    {
      Shape() && accessMapTable.Valid() && PicksOk() && StateOk(params, View())
    }

    constructor (params: Params, table: LruSetAssociativeCache<Zone>)
      requires ParamsOk(params) && table.Valid() && table.View().data == map[]
      ensures Valid() && IsInitial(params, View()) && this.params == params && accessMapTable == table
    {
      this.params, accessMapTable := params, table;
      offsetScores := new nat[params.degree, Columns(params)]((d, c) => 0);
      pfLevel := new int[params.degree](_ => 0);
      pfOffset := new seq<int>[params.degree](_ => []);
      updateCnt, picks := 0, NoPicks(params.degree);
      new;
      Started();
    }

    lemma Started()
      requires Shape() && accessMapTable.Valid() && accessMapTable.View().data == map[]
      requires forall d, c | 0 <= d < params.degree && 0 <= c < Columns(params) :: offsetScores[d, c] == 0
      requires forall d :: 0 <= d < params.degree ==> pfLevel[d] == 0 && pfOffset[d] == []
      requires updateCnt == 0 && picks == NoPicks(params.degree)
      ensures Valid() && IsInitial(params, View())
    {
      hide accessMapTable.Valid, StateOk, Ok;
      CacheOk(accessMapTable);
      SameScores(params, Scores(), NoScores(params));
      InitialOk(params, View());
    }

    /** The score updates of one access: a loop over lookahead degrees, each without one more of the
        latest accesses, and over the blocks of the zone. */
    method UpdateScores(z: Zone, zoneOffset: nat)
      requires Shape() && ZoneOk(params, z) && zoneOffset < params.zone
      modifies offsetScores
      ensures Scores() == Scored(params, old(Scores()), z, zoneOffset)
    {
      ghost var before := Scores();
      var accessMap := z.accessMap;
      var d := 0;
      while d <= |z.histQueue|
        invariant 0 <= d <= |z.histQueue| + 1
        invariant d > 0 ==> accessMap == Unmarked(z.accessMap, z.histQueue, d - 1)
        invariant d == 0 ==> accessMap == z.accessMap
        invariant forall e, c | 0 <= e < params.degree && 0 <= c < Columns(params) ::
          offsetScores[e, c] == before[e][c] + (if e < d && Predicts(params, z, zoneOffset, e, c) then 1 else 0)
      {
        if d != 0 {
          accessMap := accessMap[z.histQueue[d - 1] := INIT];
        }
        ScoreRow(z, zoneOffset, d, accessMap);
        d := d + 1;
      }
      SameScores(params, Scores(), Scored(params, before, z, zoneOffset));
    }

    /** The score updates of one degree. */
    method ScoreRow(z: Zone, zoneOffset: nat, d: nat, accessMap: seq<BlockState>)
      requires Shape() && ZoneOk(params, z) && zoneOffset < params.zone && d <= |z.histQueue|
      requires accessMap == Unmarked(z.accessMap, z.histQueue, d)
      modifies offsetScores
      ensures forall e, c | 0 <= e < params.degree && 0 <= c < Columns(params) ::
        offsetScores[e, c] == old(offsetScores[e, c]) + (if e == d && Predicts(params, z, zoneOffset, e, c) then 1 else 0)
    {
      var origin: int := Origin(params);
      var i := 0;
      while i < params.zone
        invariant 0 <= i <= params.zone
        invariant forall e, c | 0 <= e < params.degree && 0 <= c < Columns(params) ::
          offsetScores[e, c] == old(offsetScores[e, c])
            + (if e == d && Predicts(params, z, zoneOffset, e, c) && zoneOffset - (c - origin) < i then 1 else 0)
      {
        if accessMap[i] == ACCESS {
          var offset: int := zoneOffset - i;
          if -origin <= offset <= origin && offset != 0 {
            offsetScores[d, origin + offset] := offsetScores[d, origin + offset] + 1;
          }
        }
        i := i + 1;
      }
    }

    /** max_element of one row. */
    method MaxElement(d: nat) returns (max: nat)
      requires Shape() && d < params.degree
      ensures max == Max(Scores()[d], Columns(params))
    {
      ghost var row := Scores()[d];
      max := offsetScores[d, 0];
      var c := 1;
      while c < Columns(params)
        invariant 1 <= c <= Columns(params) && max == Max(row, c)
      {
        if offsetScores[d, c] > max {
          max := offsetScores[d, c];
        }
        c := c + 1;
      }
    }

    /** The offsets of greatest score of one degree that are not taken yet. */
    method BestOffsets(d: nat, max: nat, pfOffsetMap: array<bool>, ghost taken: set<nat>) returns (bestOffsets: seq<int>)
      requires Shape() && d < params.degree && pfOffsetMap.Length == Columns(params)
      requires forall c :: 0 <= c < pfOffsetMap.Length ==> (pfOffsetMap[c] <==> c in taken)
      ensures bestOffsets == ToOffsets(Best(Scores()[d], max, taken, Columns(params)), Origin(params))
    {
      hide BestUpTo;
      ghost var row := Scores()[d];
      var origin: int := Origin(params);
      bestOffsets := [];
      BestStart(row, max, taken, origin);
      var i: int := -origin;
      while i <= origin
        invariant -origin <= i <= origin + 1
        invariant bestOffsets == BestUpTo(row, max, taken, origin + i, origin)
      {
        BestNext(row, max, taken, origin + i, origin);
        if offsetScores[d, origin + i] == max && !pfOffsetMap[origin + i] {
          bestOffsets := bestOffsets + [i];
        }
        i := i + 1;
      }
      BestEnd(row, max, taken, origin);
    }

    method MarkTaken(pfOffsetMap: array<bool>, bestOffsets: seq<int>, ghost best: seq<nat>, ghost taken: set<nat>)
      requires Shape() && pfOffsetMap.Length == Columns(params) && bestOffsets == ToOffsets(best, Origin(params))
      requires forall i :: 0 <= i < |best| ==> best[i] < Columns(params)
      requires forall c :: 0 <= c < pfOffsetMap.Length ==> (pfOffsetMap[c] <==> c in taken)
      modifies pfOffsetMap
      ensures forall c :: 0 <= c < pfOffsetMap.Length ==> (pfOffsetMap[c] <==> c in taken + Elements(best))
    {
      var i := 0;
      while i < |bestOffsets|
        invariant 0 <= i <= |bestOffsets|
        invariant forall c :: 0 <= c < pfOffsetMap.Length ==> (pfOffsetMap[c] <==> c in taken || c in best[..i])
      {
        pfOffsetMap[Origin(params) + bestOffsets[i]] := true;
        i := i + 1;
      }
      assert best[..i] == best;
    }

    /** One degree gets its level and its offsets. */
    method SetPick(d: nat, fillLevel: int, bestOffsets: seq<int>, ghost best: seq<nat>)
      requires Shape() && d < params.degree && PicksOk() && bestOffsets == ToOffsets(best, Origin(params))
      modifies pfLevel, pfOffset, `picks
      ensures PicksOk() && picks == old(picks)[d := Pick(fillLevel, best)]
    {
      hide ToOffsets;
      pfLevel[d], pfOffset[d] := fillLevel, bestOffsets;
      picks := picks[d := Pick(fillLevel, best)];
    }

    /** The selection of one degree, after the deeper ones. */
    method SelectDegree(d: nat, pfOffsetMap: array<bool>, ghost taken: set<nat>) returns (ghost taken': set<nat>)
      requires Shape() && d < params.degree && PicksOk()
      requires pfOffsetMap.Length == Columns(params) && pfOffsetMap !in Repr()
      requires (picks, taken) == Select(params, Scores(), d + 1)
      requires forall c :: 0 <= c < pfOffsetMap.Length ==> (pfOffsetMap[c] <==> c in taken)
      modifies pfLevel, pfOffset, `picks, pfOffsetMap
      ensures Scores() == old(Scores()) && PicksOk() && (picks, taken') == Select(params, Scores(), d)
      ensures forall c :: 0 <= c < pfOffsetMap.Length ==> (pfOffsetMap[c] <==> c in taken')
    {
      hide Max, Best, ToOffsets, PicksOk;
      var max := MaxElement(d);
      var fillLevel := LevelOf(params, max);
      taken' := taken;
      if fillLevel != 0 {
        ghost var best := Best(Scores()[d], max, taken, Columns(params));
        var bestOffsets := BestOffsets(d, max, pfOffsetMap, taken);
        assert forall i :: 0 <= i < |best| ==> best[i] in best;
        SetPick(d, fillLevel, bestOffsets, best);
        MarkTaken(pfOffsetMap, bestOffsets, best, taken);
        taken' := taken + Elements(best);
      }
    }

    /** Clears the last selection. */
    method ClearSelection()
      requires Shape()
      modifies pfLevel, pfOffset, `picks
      ensures picks == NoPicks(params.degree) && PicksOk()
    {
      var d := 0;
      while d < params.degree
        invariant 0 <= d <= params.degree
        invariant forall e :: 0 <= e < d ==> pfLevel[e] == 0 && pfOffset[e] == []
      {
        pfLevel[d], pfOffset[d] := 0, [];
        d := d + 1;
      }
      picks := NoPicks(params.degree);
    }

    /** The end of a round: the selection, deepest degree first. */
    method SelectOffsets()
      requires Shape()
      modifies pfLevel, pfOffset, `picks
      ensures Scores() == old(Scores()) && picks == Select(params, Scores(), 0).0 && PicksOk()
    {
      hide Max, Best, PicksOk;
      ClearSelection();
      var pfOffsetMap := new bool[Columns(params)](_ => false);
      ghost var taken: set<nat> := {};
      var d := params.degree;
      while d > 0
        invariant 0 <= d <= params.degree && fresh(pfOffsetMap) && pfOffsetMap.Length == Columns(params)
        invariant Scores() == old(Scores()) && PicksOk() && (picks, taken) == Select(params, Scores(), d)
        invariant forall c :: 0 <= c < pfOffsetMap.Length ==> (pfOffsetMap[c] <==> c in taken)
      {
        d := d - 1;
        taken := SelectDegree(d, pfOffsetMap, taken);
      }
    }

    method ResetScores()
      requires Shape()
      modifies offsetScores
      ensures Scores() == NoScores(params)
    {
      var d := 0;
      while d < params.degree
        invariant 0 <= d <= params.degree
        invariant forall e, c | 0 <= e < d && 0 <= c < Columns(params) :: offsetScores[e, c] == 0
      {
        var i := 0;
        while i < Columns(params)
          invariant 0 <= i <= Columns(params)
          invariant forall e, c | 0 <= e < d && 0 <= c < Columns(params) :: offsetScores[e, c] == 0
          invariant forall c :: 0 <= c < i ==> offsetScores[d, c] == 0
        {
          offsetScores[d, i] := 0;
          i := i + 1;
        }
        d := d + 1;
      }
      SameScores(params, Scores(), NoScores(params));
    }

    /** The key of a zone. */
    method ZoneKey(blockNumber: nat) returns (key: nat)
      requires Valid() && blockNumber < Pow2(64) && accessMapTable.indexLen <= 30
      ensures Valid() && View() == old(View()) && key == KeyOf(params, accessMapTable.indexLen, blockNumber)
    {
      ZoneBelow(blockNumber, params.zone);
      key := HashIndex.HashIndex(ZoneOf(blockNumber, params.zone), accessMapTable.indexLen);
    }

    /** The counted part of access. */
    method Count(z: Zone, zoneOffset: nat)
      requires Valid() && ZoneOk(params, z) && zoneOffset < params.zone
      modifies offsetScores, pfLevel, pfOffset, `updateCnt, `picks
      ensures Shape() && accessMapTable.Valid() && PicksOk() && accessMapTable.View() == old(accessMapTable.View())
      ensures var s, scores := old(View()), Scored(params, old(Scores()), z, zoneOffset);
        View() == if s.updateCnt + 1 == params.updates
                  then s.(scores := NoScores(params), updateCnt := 0, picks := Select(params, scores, 0).0)
                  else s.(scores := scores, updateCnt := s.updateCnt + 1)
    {
      hide accessMapTable.Valid, StateOk, Select, Scored, NoScores;
      updateCnt := updateCnt + 1;
      UpdateScores(z, zoneOffset);
      if updateCnt == params.updates {
        updateCnt := 0;
        SelectOffsets();
        ResetScores();
      }
    }

    /** access */
    method Access(blockNumber: nat)
      requires Valid() && blockNumber < Pow2(64) && accessMapTable.indexLen <= 30
      modifies offsetScores, pfLevel, pfOffset, `updateCnt, `picks
      ensures Valid()
      ensures View() == Mlop.Access(params, old(View()), KeyOf(params, accessMapTable.indexLen, blockNumber), OffsetIn(blockNumber, params.zone))
    {
      hide accessMapTable.Valid, PicksOk, ScoresOk, TableOk, Select, Scored, KeyOf, Pow2;
      ghost var s := View();
      var zoneOffset := OffsetIn(blockNumber, params.zone);
      var key := ZoneKey(blockNumber);
      AccessOk(params, s, key, zoneOffset);
      var entry := accessMapTable.Find(key);
      if entry.None? {
        return;
      }
      assert entry.value == s.table.data[key];
      ZoneFits(params, s.table, key);
      if entry.value.accessMap[zoneOffset] == ACCESS {
        return;
      }
      Count(entry.value, zoneOffset);
    }

    /** set_state */
    method SetState(blockNumber: nat, newState: BlockState, newFillLevel: int)
      requires Valid() && blockNumber < Pow2(64) && accessMapTable.indexLen <= 30
      requires newState == PREFTCH ==> KeyOf(params, accessMapTable.indexLen, blockNumber) in View().table.data
      modifies accessMapTable.Repr()
      ensures Valid()
      ensures View() == old(View()).(table := Mlop.SetState(params, old(View()).table,
        KeyOf(params, accessMapTable.indexLen, blockNumber), OffsetIn(blockNumber, params.zone), newState, newFillLevel))
    {
      hide accessMapTable.Valid, PicksOk, ScoresOk, TableOk, Insert, Touch, Erase, Store, Alive, Changed, KeyOf, Pow2;
      ghost var s := View();
      var zoneOffset := OffsetIn(blockNumber, params.zone);
      var key := ZoneKey(blockNumber);
      SetStateOk(params, s.table, key, zoneOffset, newState, newFillLevel);
      var entry := accessMapTable.Find(key);
      if entry.None? {
        if newState == ACCESS {
          var _ := accessMapTable.InsertMru(key, Changed(params, Fresh(params), zoneOffset, ACCESS, newFillLevel));
        }
        return;
      }
      assert entry.value == s.table.data[key];
      ZoneFits(params, s.table, key);
      StoreZone(key, Changed(params, entry.value, zoneOffset, newState, newFillLevel), newState);
    }

    /** The changed zone goes back into the table, or out of it when it is idle. */
    method StoreZone(key: nat, z: Zone, newState: BlockState)
      requires Shape() && accessMapTable.Valid() && key in accessMapTable.View().data
      modifies accessMapTable.Repr()
      ensures accessMapTable.Valid()
      ensures accessMapTable.View() == (
        if newState == ACCESS then Touch(Store(old(accessMapTable.View()), key, z), key)
        else if newState == INIT && !Alive(z) then Erase(old(accessMapTable.View()), key)
        else Store(old(accessMapTable.View()), key, z))
    {
      hide accessMapTable.Valid, Touch, Erase, Store, Alive;
      if newState == ACCESS {
        accessMapTable.Rewrite(key, z);
        return;
      }
      if newState == INIT {
        var allInit := AllInit(z);
        if allInit {
          var _ := accessMapTable.Erase(key);
          return;
        }
      }
      accessMapTable.Update(key, z);
    }

    method AllInit(z: Zone) returns (r: bool)
      requires accessMapTable.Valid()
      ensures accessMapTable.Valid() && accessMapTable.View() == old(accessMapTable.View()) && r == !Alive(z)
    {
      var i := 0;
      while i < |z.accessMap|
        invariant 0 <= i <= |z.accessMap| && forall k :: 0 <= k < i ==> z.accessMap[k] == INIT
      {
        if z.accessMap[i] != INIT {
          return false;
        }
        i := i + 1;
      }
      return true;
    }
  }

  lemma ZoneFits(p: Params, t: Table<Zone>, k: nat)
    requires TableOk(p, t) && k in t.data
    ensures ZoneOk(p, t.data[k])
  {
  }

  function ZoneOf(block: nat, zone: nat): nat
    requires zone > 0
  {
    block / zone
  }

  function OffsetIn(block: nat, zone: nat): (o: nat)
    requires zone > 0
    ensures o < zone
  {
    block % zone
  }

  /** build_key: zone numbers are not truncated. */
  function KeyOf(p: Params, indexLen: nat, block: nat): nat
    requires p.zone > 0
  {
    Hash(ZoneOf(block, p.zone), indexLen)
  }

  lemma ZoneBelow(block: nat, zone: nat)
    requires zone > 0 && block < Pow2(64)
    ensures ZoneOf(block, zone) < Pow2(64)
  {
    assert block == zone * (block / zone) + block % zone;
    if block / zone > block {
      MulMono(1, zone, block / zone);
    }
  }

  lemma SameScores(p: Params, a: seq<seq<nat>>, b: seq<seq<nat>>)
    requires ScoresShape(p, a) && ScoresShape(p, b)
    requires forall d, c | 0 <= d < p.degree && 0 <= c < Columns(p) :: a[d][c] == b[d][c]
    ensures a == b
  {
    forall d | 0 <= d < p.degree ensures a[d] == b[d] {
      assert forall c :: 0 <= c < Columns(p) ==> a[d][c] == b[d][c];
    }
  }

  /** The best offsets among the first n columns. */
  function BestUpTo(row: seq<nat>, max: nat, taken: set<nat>, n: nat, origin: nat): seq<int>
    requires n <= |row|
  {
    ToOffsets(Best(row, max, taken, n), origin)
  }

  lemma BestStart(row: seq<nat>, max: nat, taken: set<nat>, origin: nat)
    ensures BestUpTo(row, max, taken, 0, origin) == []
  {
  }

  lemma BestNext(row: seq<nat>, max: nat, taken: set<nat>, n: nat, origin: nat)
    requires n < |row|
    ensures BestUpTo(row, max, taken, n + 1, origin) ==
      if row[n] == max && n !in taken then BestUpTo(row, max, taken, n, origin) + [n - origin]
      else BestUpTo(row, max, taken, n, origin)
  {
    var best := Best(row, max, taken, n);
    if row[n] == max && n !in taken {
      assert Best(row, max, taken, n + 1) == best + [n];
      assert ToOffsets(best + [n], origin) == ToOffsets(best, origin) + [n - origin];
    } else {
      assert Best(row, max, taken, n + 1) == best;
    }
  }

  lemma BestEnd(row: seq<nat>, max: nat, taken: set<nat>, origin: nat)
    ensures BestUpTo(row, max, taken, |row|, origin) == ToOffsets(Best(row, max, taken, |row|), origin)
  {
  }
}
