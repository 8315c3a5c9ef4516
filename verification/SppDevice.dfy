/** The SPP tables as the source keeps them: arrays updated in place, and the do-while lookahead loop
    over the fixed candidate queues. Each method is proved against Spp and SppPattern. */
module SppDevice {
  import opened Counting
  import LruOrder
  import opened SppSignature
  import opened SppPattern
  import opened SppFilter
  import opened Spp

  /** Five arrays that share no storage. */
  ghost predicate Distinct(a: object, b: object, c: object, d: object, e: object) {
    a != b && a != c && a != d && a != e && b != c && b != d && b != e && c != d && c != e && d != e
  }

  class PatternTable {
    const delta: array2<int>
    const cDelta: array2<nat>
    const cSig: array<nat>

    ghost function Repr(): set<object> { {this, delta, cDelta, cSig} }

    ghost predicate Valid()
      reads Repr()
    {
      && delta.Length0 == cDelta.Length0 == cSig.Length == PT_SET
      && delta.Length1 == cDelta.Length1 == PT_WAY
    }

    ghost function SetView(s: nat): (t: PtSet)
      requires Valid() && s < PT_SET
      reads Repr()
      ensures SppPattern.Shape(t) && t.cSig == cSig[s]
      ensures forall w :: 0 <= w < PT_WAY ==> t.delta[w] == delta[s, w] && t.cDelta[w] == cDelta[s, w]
    {
      PtSet([delta[s, 0], delta[s, 1], delta[s, 2], delta[s, 3]],
            [cDelta[s, 0], cDelta[s, 1], cDelta[s, 2], cDelta[s, 3]], cSig[s])
    }

    ghost function View(): (v: seq<PtSet>)
      requires Valid()
      reads Repr()
      ensures |v| == PT_SET && forall s :: 0 <= s < PT_SET ==> v[s] == SetView(s)
    {
      seq(PT_SET, s requires 0 <= s < PT_SET && Valid() reads Repr() => SetView(s))
    }

    ghost predicate IsZero()
      requires Valid()
      reads Repr()
    {
      forall s :: 0 <= s < PT_SET ==> ZeroSet(View()[s])
    }

    constructor ()
      ensures Valid() && fresh(Repr())
      ensures IsZero()
    {
      delta := new int[PT_SET, PT_WAY]((s, w) => 0);
      cDelta := new nat[PT_SET, PT_WAY]((s, w) => 0);
      cSig := new nat[PT_SET](_ => 0);
      new;
      assert forall s :: 0 <= s < PT_SET ==> ZeroSet(SetView(s));
    }

    /** Halves the counters of a set when its signature counter overflows. */
    method HalveOnOverflow(s: nat)
      requires Valid() && s < PT_SET
      modifies cDelta, cSig
      ensures Valid() && View() == old(View())[s := Halved(old(View())[s])]
    {
      ghost var before := View();
      if cSig[s] > C_SIG_MAX {
        var way := 0;
        while way < PT_WAY
          invariant 0 <= way <= PT_WAY
          invariant forall w :: 0 <= w < PT_WAY ==>
            cDelta[s, w] == if w < way then before[s].cDelta[w] / 2 else before[s].cDelta[w]
          invariant forall k, w | 0 <= k < PT_SET && 0 <= w < PT_WAY && k != s :: cDelta[k, w] == old(cDelta[k, w])
          modifies cDelta
        {
          cDelta[s, way] := cDelta[s, way] / 2;
          way := way + 1;
        }
        cSig[s] := cSig[s] / 2;
      }
      assert SetView(s) == Halved(before[s]);
      assert forall k :: 0 <= k < PT_SET && k != s ==> SetView(k) == before[k];
    }

    method FindDelta(s: nat, currDelta: int) returns (way: nat)
      requires Valid() && s < PT_SET
      ensures Valid() && View() == old(View()) && way == HitWay(View()[s].delta, currDelta, 0)
    {
      ghost var t := View()[s];
      way := 0;
      while way < PT_WAY && delta[s, way] != currDelta
        invariant 0 <= way <= PT_WAY
        invariant HitWay(t.delta, currDelta, 0) == HitWay(t.delta, currDelta, way)
      {
        way := way + 1;
      }
    }

    method FindVictim(s: nat) returns (victimWay: nat)
      requires Valid() && s < PT_SET
      ensures Valid() && View() == old(View()) && victimWay == MinWay(View()[s].cDelta, PT_WAY).0
    {
      ghost var t := View()[s];
      var minCounter := C_SIG_MAX;
      victimWay := PT_WAY;
      var way := 0;
      while way < PT_WAY
        invariant 0 <= way <= PT_WAY && victimWay <= PT_WAY
        invariant (victimWay, minCounter) == MinWay(t.cDelta, way)
      {
        if cDelta[s, way] < minCounter {
          victimWay, minCounter := way, cDelta[s, way];
        }
        way := way + 1;
      }
    }

    /** One delta slot and its counter change, and the signature counter goes up. */
    method SetWay(s: nat, way: nat, newDelta: int, counter: nat)
      requires Valid() && s < PT_SET && way < PT_WAY
      modifies delta, cDelta, cSig
      ensures Valid()
      ensures View() == old(View())[s := var t := old(View())[s];
        PtSet(t.delta[way := newDelta], t.cDelta[way := counter], t.cSig + 1)]
    {
      ghost var before := View();
      delta[s, way] := newDelta;
      cDelta[s, way] := counter;
      cSig[s] := cSig[s] + 1;
      ghost var t := before[s];
      assert SetView(s) == PtSet(t.delta[way := newDelta], t.cDelta[way := counter], t.cSig + 1);
      assert forall k :: 0 <= k < PT_SET && k != s ==> SetView(k) == before[k];
    }

    /** update_pattern; its replacement victim must exist. */
    method UpdatePattern(s: nat, currDelta: int)
      requires Valid() && s < PT_SET && Update(View()[s], currDelta).Some?
      modifies delta, cDelta, cSig
      ensures Valid() && View() == old(View())[s := Update(old(View())[s], currDelta).value]
    {
      hide View, Halved, MinWay;
      ghost var t := View()[s];
      var match_ := FindDelta(s, currDelta);
      if match_ < PT_WAY {
        SetWay(s, match_, delta[s, match_], cDelta[s, match_] + 1);
        assert t.delta[match_ := currDelta] == t.delta;
      } else {
        var victimWay := FindVictim(s);
        assert victimWay < PT_WAY;
        SetWay(s, victimWay, currDelta, 0);
      }
      HalveOnOverflow(s);
    }

    /** local_conf at the start of the path, pf_conf along it. */
    method PathConfidence(s: nat, way: nat, ga: nat, conf: nat, depth: nat) returns (pfConf: nat)
      requires Valid() && s < PT_SET && way < PT_WAY && View()[s].cSig > 0
      ensures Valid() && View() == old(View()) && pfConf == Confidence(View()[s], way, ga, depth, conf)
    {
      pfConf := if depth > 0 then Share(cDelta[s, way], cSig[s], ga) * conf / 100 % 0x1_0000_0000 else Share(cDelta[s, way], cSig[s], 100);
    }

    /** read_pattern on a touched set: queues the confident candidates behind the tail. */
    method ReadPattern(s: nat, deltaQ: array<int>, confQ: array<nat>, ga: nat, thr: nat,
                       conf: nat, tail: nat, depth: nat)
      returns (lookaheadWay: nat, conf': nat, tail': nat, depth': nat)
      requires Valid() && s < PT_SET && View()[s].cSig > 0
      requires deltaQ != cSig as object && confQ != cSig && deltaQ as object != confQ
      requires deltaQ.Length == confQ.Length
      requires tail + |ScanWays(View()[s], ga, thr, depth, conf, PT_WAY).queue| <= confQ.Length
      modifies deltaQ, confQ
      ensures var r := ScanWays(old(View()[s]), ga, thr, depth, conf, PT_WAY);
        && lookaheadWay == r.way && conf' == r.max && tail' == tail + |r.queue|
        && depth' == (if r.max >= thr then depth + 1 else depth)
        && (forall i :: 0 <= i < tail ==> confQ[i] == old(confQ[i]) && deltaQ[i] == old(deltaQ[i]))
        && (forall i :: 0 <= i < |r.queue| ==> confQ[tail + i] == r.queue[i].conf && deltaQ[tail + i] == r.queue[i].delta)
    {
      hide Confidence;
      ghost var t := View()[s];
      lookaheadWay, conf', tail', depth' := PT_WAY, 0, tail, depth;
      var way := 0;
      ghost var r := ScanWays(t, ga, thr, depth, conf, 0);
      while way < PT_WAY
        invariant 0 <= way <= PT_WAY
        invariant r == ScanWays(t, ga, thr, depth, conf, way)
        invariant lookaheadWay == r.way && conf' == r.max && tail' == tail + |r.queue|
        invariant tail' <= confQ.Length
        invariant forall i :: 0 <= i < tail ==> confQ[i] == old(confQ[i]) && deltaQ[i] == old(deltaQ[i])
        invariant forall i :: 0 <= i < |r.queue| ==> confQ[tail + i] == r.queue[i].conf && deltaQ[tail + i] == r.queue[i].delta
      {
        ScanGrows(t, ga, thr, depth, conf, way + 1);
        var pfConf := PathConfidence(s, way, ga, conf, depth);
        if pfConf >= thr {
          confQ[tail'] := pfConf;
          deltaQ[tail'] := delta[s, way];
          if pfConf > conf' {
            lookaheadWay, conf' := way, pfConf;
          }
          tail' := tail' + 1;
        }
        way := way + 1;
        r := ScanWays(t, ga, thr, depth, conf, way);
      }
      if conf' >= thr {
        depth' := depth + 1;
      }
    }
  }

  /** Scanning more ways queues at least as much. */
  lemma {:induction false} ScanGrows(t: PtSet, ga: nat, thr: nat, depth: nat, conf: nat, n: nat)
    requires SppPattern.Shape(t) && t.cSig > 0 && n <= PT_WAY
    ensures |ScanWays(t, ga, thr, depth, conf, n).queue| <= |ScanWays(t, ga, thr, depth, conf, PT_WAY).queue|
    decreases PT_WAY - n
  {
    if n < PT_WAY {
      ScanGrows(t, ga, thr, depth, conf, n + 1);
    }
  }

  class GlobalRegister {
    var pfUseful: nat
    var pfIssued: nat
    var globalAccuracy: nat
    const valid: array<bool>
    const sig: array<bv32>
    const confidence: array<nat>
    const offset: array<nat>
    const delta: array<int>

    ghost function Repr(): set<object> { {this, valid, sig, confidence, offset, delta} }

    ghost predicate Valid()
      reads Repr()
    {
      && valid.Length == sig.Length == confidence.Length == offset.Length == delta.Length == MAX_GHR_ENTRY
      && Distinct(valid, sig, confidence, offset, delta)
    }

    ghost function Entry(i: nat): History
      requires Valid() && i < MAX_GHR_ENTRY
      reads Repr()
    {
      History(valid[i], sig[i], confidence[i], offset[i], delta[i])
    }

    ghost function View(): (h: seq<History>)
      requires Valid()
      reads Repr()
      ensures |h| == MAX_GHR_ENTRY && forall i :: 0 <= i < MAX_GHR_ENTRY ==> h[i] == Entry(i)
    {
      seq(MAX_GHR_ENTRY, i requires 0 <= i < MAX_GHR_ENTRY && Valid() reads Repr() => Entry(i))
    }

    ghost predicate IsZero()
      requires Valid()
      reads Repr()
    {
      forall i :: 0 <= i < MAX_GHR_ENTRY ==> View()[i] == History(false, 0, 0, 0, 0)
    }

    constructor ()
      ensures Valid() && fresh(Repr()) && pfUseful == pfIssued == 0
      ensures IsZero()
    {
      pfUseful, pfIssued, globalAccuracy := 0, 0, 0;
      valid := new bool[MAX_GHR_ENTRY](_ => false);
      sig := new bv32[MAX_GHR_ENTRY](_ => 0);
      confidence := new nat[MAX_GHR_ENTRY](_ => 0);
      offset := new nat[MAX_GHR_ENTRY](_ => 0);
      delta := new int[MAX_GHR_ENTRY](_ => 0);
    }

    method UpdateEntry(pfSig: bv32, pfConf: nat, pfOffset: nat, pfDelta: int)
      requires Valid() && Remember(View(), pfSig, pfConf, pfOffset, pfDelta).Some?
      modifies valid, sig, confidence, offset, delta
      ensures Valid() && View() == Remember(old(View()), pfSig, pfConf, pfOffset, pfDelta).value
    {
      ghost var h := View();
      var minConf, victimWay := 100, MAX_GHR_ENTRY;
      var i := 0;
      while i < MAX_GHR_ENTRY
        invariant 0 <= i <= MAX_GHR_ENTRY && victimWay <= MAX_GHR_ENTRY
        invariant View() == h
        invariant FindOffset(h, pfOffset, 0) == FindOffset(h, pfOffset, i)
        invariant (victimWay, minConf) == LeastConf(h, i)
      {
        if valid[i] && offset[i] == pfOffset {
          sig[i], confidence[i], delta[i] := pfSig, pfConf, pfDelta;
          assert forall k :: 0 <= k < MAX_GHR_ENTRY && k != i ==> Entry(k) == h[k];
          return;
        }
        if confidence[i] < minConf {
          minConf, victimWay := confidence[i], i;
        }
        i := i + 1;
      }
      assert victimWay < MAX_GHR_ENTRY;
      valid[victimWay], sig[victimWay], confidence[victimWay] := true, pfSig, pfConf;
      offset[victimWay], delta[victimWay] := pfOffset, pfDelta;
      assert forall k :: 0 <= k < MAX_GHR_ENTRY && k != victimWay ==> Entry(k) == h[k];
    }

    method CheckEntry(pageOffset: nat) returns (way: nat)
      requires Valid()
      ensures way == Recall(View(), pageOffset, MAX_GHR_ENTRY).0
    {
      ghost var h := View();
      var maxConf := 0;
      way := MAX_GHR_ENTRY;
      var i := 0;
      while i < MAX_GHR_ENTRY
        invariant 0 <= i <= MAX_GHR_ENTRY
        invariant (way, maxConf) == Recall(h, pageOffset, i)
      {
        if offset[i] == pageOffset && maxConf < confidence[i] {
          maxConf, way := confidence[i], i;
        }
        i := i + 1;
      }
    }
  }

  class PrefetchFilter {
    const remainderTag: array<nat>
    const valid: array<bool>
    const useful: array<bool>

    ghost function Repr(): set<object> { {this, remainderTag, valid, useful} }

    ghost predicate Valid()
      reads Repr()
    {
      remainderTag.Length == valid.Length == useful.Length == FILTER_SET && valid != useful
    }

    ghost function View(): (f: seq<Slot>)
      requires Valid()
      reads Repr()
      ensures |f| == FILTER_SET
      ensures forall i :: 0 <= i < FILTER_SET ==> f[i] == Slot(valid[i], useful[i], remainderTag[i])
    {
      seq(FILTER_SET, i requires 0 <= i < FILTER_SET && Valid() reads Repr() =>
        Slot(valid[i], useful[i], remainderTag[i]))
    }

    ghost predicate IsZero()
      requires Valid()
      reads Repr()
    {
      forall i :: 0 <= i < FILTER_SET ==> View()[i] == Slot(false, false, 0)
    }

    constructor ()
      ensures Valid() && fresh(Repr())
      ensures IsZero()
    {
      remainderTag := new nat[FILTER_SET](_ => 0);
      valid := new bool[FILTER_SET](_ => false);
      useful := new bool[FILTER_SET](_ => false);
    }

    /** check(L2C_DEMAND) */
    method CheckDemand(q: nat, r: nat, ghr: GlobalRegister)
      requires Valid() && q < FILTER_SET && ghr.Repr() !! Repr() && ghr.Valid()
      modifies useful, ghr`pfUseful
      ensures Valid() && ghr.Valid() && ghr.View() == old(ghr.View())
      ensures var f := Demand(Filter(old(View()), Meter(old(ghr.pfUseful), ghr.pfIssued)), q, r);
        View() == f.slots && ghr.pfUseful == f.meter.useful
    {
      if remainderTag[q] == r && !useful[q] {
        useful[q] := true;
        if valid[q] {
          ghr.pfUseful := ghr.pfUseful + 1;
        }
      }
    }

    /** check(SPP_L2C_PREFETCH): a line that passes is marked as prefetched. */
    method CheckL2Prefetch(q: nat, r: nat) returns (pass: bool)
      requires Valid() && q < FILTER_SET
      modifies remainderTag, valid, useful
      ensures Valid() && forall m: Meter :: pass == Passes(Filter(old(View()), m), q, r)
      ensures View() == if pass then old(View())[q := Slot(true, false, r)] else old(View())
    {
      if (valid[q] || useful[q]) && remainderTag[q] == r {
        return false;
      }
      valid[q] := true;
      useful[q] := false;
      remainderTag[q] := r;
      return true;
    }

    /** check(SPP_LLC_PREFETCH): marks nothing. */
    method CheckLlcPrefetch(q: nat, r: nat) returns (pass: bool)
      requires Valid() && q < FILTER_SET
      ensures forall m: Meter :: pass == Passes(Filter(View(), m), q, r)
    {
      pass := !((valid[q] || useful[q]) && remainderTag[q] == r);
    }

    /** check(L2C_EVICT) */
    method CheckEvict(q: nat, ghr: GlobalRegister)
      requires Valid() && q < FILTER_SET && ghr.Repr() !! Repr() && ghr.Valid()
      modifies remainderTag, valid, useful, ghr`pfUseful
      ensures Valid() && ghr.Valid() && ghr.View() == old(ghr.View())
      ensures var f := Evict(Filter(old(View()), Meter(old(ghr.pfUseful), ghr.pfIssued)), q);
        View() == f.slots && ghr.pfUseful == f.meter.useful
    {
      if valid[q] && !useful[q] && ghr.pfUseful > 0 {
        ghr.pfUseful := ghr.pfUseful - 1;
      }
      valid[q] := false;
      useful[q] := false;
      remainderTag[q] := 0;
    }
  }

  class SignatureTable {
    const valid: array<bool>
    const tag: array<nat>
    const lastOffset: array<int>
    const sig: array<bv32>
    const lru: array<nat>

    ghost function Repr(): set<object> { {this, valid, tag, lastOffset, sig, lru} }

    ghost predicate Valid()
      reads Repr()
    {
      && valid.Length == tag.Length == lastOffset.Length == sig.Length == lru.Length == ST_WAY
      && Distinct(valid, tag, lastOffset, sig, lru)
    }

    ghost function TrackAt(w: nat): Track
      requires Valid() && w < ST_WAY
      reads Repr()
    {
      Track(valid[w], tag[w], lastOffset[w], sig[w])
    }

    ghost function Tracks(): (t: seq<Track>)
      requires Valid()
      reads Repr()
      ensures |t| == ST_WAY && forall w :: 0 <= w < ST_WAY ==> t[w] == TrackAt(w)
    {
      seq(ST_WAY, w requires 0 <= w < ST_WAY && Valid() reads Repr() => TrackAt(w))
    }

    ghost function View(): (st: SigTable)
      requires Valid()
      reads Repr()
      ensures |st.track| == |st.lru| == ST_WAY
    {
      SigTable(Tracks(), lru[..])
    }

    ghost predicate IsZero()
      requires Valid()
      reads Repr()
    {
      forall w :: 0 <= w < ST_WAY ==> !View().track[w].valid && View().lru[w] == w
    }

    constructor ()
      ensures Valid() && fresh(Repr())
      ensures IsZero()
    {
      valid := new bool[ST_WAY](_ => false);
      tag := new nat[ST_WAY](_ => 0);
      lastOffset := new int[ST_WAY](_ => 0);
      sig := new bv32[ST_WAY](_ => 0);
      lru := new nat[ST_WAY](w => w);
    }

    /** The LRU update at the end of read_and_update_sig. */
    method PromoteWay(way: nat)
      requires Valid() && way < ST_WAY
      modifies lru
      ensures Valid() && View() == old(View()).(lru := LruOrder.Promote(old(View()).lru, way))
    {
      ghost var before := lru[..];
      ghost var after := LruOrder.Promote(before, way);
      var w := 0;
      while w < ST_WAY
        invariant 0 <= w <= ST_WAY
        invariant forall k :: 0 <= k < ST_WAY ==> lru[k] == if k < w && k != way then after[k] else before[k]
      {
        if lru[w] < lru[way] {
          lru[w] := lru[w] + 1;
        }
        w := w + 1;
      }
      lru[way] := 0;
      assert lru[..] == after;
    }

    method FindPageWay(partialPage: nat) returns (way: nat)
      requires Valid()
      ensures Valid() && View() == old(View()) && way == FindPage(View().track, partialPage, 0)
    {
      ghost var t := Tracks();
      way := 0;
      while way < ST_WAY && !(valid[way] && tag[way] == partialPage)
        invariant 0 <= way <= ST_WAY && FindPage(t, partialPage, 0) == FindPage(t, partialPage, way)
      {
        way := way + 1;
      }
    }

    /** The invalid way, or the oldest one, that a new page takes. */
    method FindVictim() returns (way: nat)
      requires Valid()
      ensures Valid() && View() == old(View())
      ensures var t, l := View().track, View().lru;
        way == if FindFree(t, 0) < ST_WAY then FindFree(t, 0) else FindOldest(l, 0)
    {
      ghost var t, l := Tracks(), lru[..];
      way := 0;
      while way < ST_WAY && valid[way]
        invariant 0 <= way <= ST_WAY && FindFree(t, 0) == FindFree(t, way)
      {
        way := way + 1;
      }
      if way == ST_WAY {
        way := 0;
        while way < ST_WAY && lru[way] != ST_WAY - 1
          invariant 0 <= way <= ST_WAY && FindOldest(l, 0) == FindOldest(l, way)
        {
          way := way + 1;
        }
      }
    }

    method SetTrack(way: nat, t: Track)
      requires Valid() && way < ST_WAY
      modifies valid, tag, lastOffset, sig
      ensures Valid() && View() == SigTable(old(View()).track[way := t], old(View()).lru)
    {
      ghost var before := Tracks();
      valid[way], tag[way], lastOffset[way], sig[way] := t.valid, t.tag, t.lastOffset, t.sig;
      assert forall w :: 0 <= w < ST_WAY && w != way ==> TrackAt(w) == before[w];
    }

    /** A tracked page: its signature absorbs a nonzero delta. */
    method TrackAgain(way: nat, pageOffset: nat) returns (lastSig: bv32, currSig: bv32, delta: int)
      requires Valid() && way < ST_WAY && View().track[way].valid
      modifies valid, tag, lastOffset, sig
      ensures Valid()
      ensures var e := old(View()).track[way]; var d := pageOffset - e.lastOffset;
        if d != 0 then
          && lastSig == e.sig && currSig == NextSig(e.sig, d) && delta == d
          && View() == old(View()).(track := old(View()).track[way := e.(sig := currSig, lastOffset := pageOffset)])
        else lastSig == 0 && currSig == 0 && delta == 0 && View() == old(View())
    {
      hide NextSig;
      lastSig, currSig := 0, 0;
      delta := pageOffset - lastOffset[way];
      if delta != 0 {
        lastSig := sig[way];
        currSig := NextSig(lastSig, delta);
        SetTrack(way, Track(true, tag[way], pageOffset, currSig));
      }
    }

    /** A new page: it may start from a remembered signature that crossed into it. */
    method TrackNew(way: nat, partialPage: nat, pageOffset: nat, ghr: GlobalRegister) returns (currSig: bv32)
      requires Valid() && ghr.Valid() && ghr.Repr() !! Repr() && way < ST_WAY
      modifies valid, tag, lastOffset, sig
      ensures Valid()
      ensures var h := ghr.View(); var i := Recall(h, pageOffset, |h|).0;
        currSig == if i < |h| then NextSig(h[i].sig, h[i].delta) else 0
      ensures View() == old(View()).(track := old(View()).track[way := Track(true, partialPage, pageOffset, currSig)])
    {
      hide NextSig, Recall;
      currSig := 0;
      var found := ghr.CheckEntry(pageOffset);
      if found < MAX_GHR_ENTRY {
        currSig := NextSig(ghr.sig[found], ghr.delta[found]);
      }
      SetTrack(way, Track(true, partialPage, pageOffset, currSig));
    }

    method ReadAndUpdateSig(page: nat, pageOffset: nat, ghr: GlobalRegister)
      returns (lastSig: bv32, currSig: bv32, delta: int)
      requires Valid() && ghr.Valid() && ghr.Repr() !! Repr()
      requires ReadAndUpdate(View(), page, pageOffset, ghr.View()).Some?
      modifies valid, tag, lastOffset, sig, lru
      ensures Valid()
      ensures ReadAndUpdate(old(View()), page, pageOffset, ghr.View()) == Some(Learned(View(), lastSig, currSig, delta))
    {
      hide Valid, View, NextSig, Recall, LruOrder.Promote, FindPage, FindFree, FindOldest;
      lastSig, currSig, delta := 0, 0, 0;
      var partialPage := PageTag(page);
      var way := FindPageWay(partialPage);
      if way < ST_WAY {
        lastSig, currSig, delta := TrackAgain(way, pageOffset);
        PromoteWay(way);
      } else {
        way := FindVictim();
        assert way < ST_WAY;
        currSig := TrackNew(way, partialPage, pageOffset, ghr);
        PromoteWay(way);
      }
    }
  }

  class SppDev2 {
    const ST: SignatureTable
    const PT: PatternTable
    const FILTER: PrefetchFilter
    const GHR: GlobalRegister
    const params: Params

    ghost function Repr(): set<object> { {this} + ST.Repr() + PT.Repr() + FILTER.Repr() + GHR.Repr() }

    ghost predicate Valid()
      reads Repr()
    {
      && ST.Valid() && PT.Valid() && FILTER.Valid() && GHR.Valid()
      && ST.Repr() !! PT.Repr() !! FILTER.Repr() !! GHR.Repr()
    }

    ghost function FilterView(): (f: Filter)
      requires Valid()
      reads FILTER.Repr(), GHR.Repr(), Repr()
      ensures |f.slots| == FILTER_SET && f.meter == Meter(GHR.pfUseful, GHR.pfIssued)
    {
      Filter(FILTER.View(), Meter(GHR.pfUseful, GHR.pfIssued))
    }

    ghost function View(): (s: State)
      requires Valid()
      reads Repr()
      ensures s.filter == FilterView() && s.history == GHR.View() && s.pt == PT.View() && s.st == ST.View()
    {
      State(ST.View(), PT.View(), FilterView(), GHR.View())
    }

    /** The prefetcher starts from freshly constructed tables. */
    constructor (params: Params, st: SignatureTable, pt: PatternTable, filter: PrefetchFilter, ghr: GlobalRegister)
      requires st.Valid() && pt.Valid() && filter.Valid() && ghr.Valid()
      requires st.Repr() !! pt.Repr() !! filter.Repr() !! ghr.Repr()
      requires st.IsZero() && pt.IsZero() && filter.IsZero() && ghr.IsZero() && ghr.pfUseful == ghr.pfIssued == 0
      ensures Valid() && this.params == params && IsInitial(View())
      ensures ST == st && PT == pt && FILTER == filter && GHR == ghr
    {
      this.params := params;
      ST, PT, FILTER, GHR := st, pt, filter, ghr;
      new;
      ZeroIsInitial();
    }

    lemma ZeroIsInitial()
      requires Valid() && ST.IsZero() && PT.IsZero() && FILTER.IsZero() && GHR.IsZero()
      requires GHR.pfUseful == GHR.pfIssued == 0
      ensures IsInitial(View())
    {
    }

    /** The counters after an L2 prefetch has been issued. */
    method CountIssued()
      requires Valid()
      modifies GHR`pfUseful, GHR`pfIssued
      ensures Valid() && FILTER.View() == old(FILTER.View()) && GHR.View() == old(GHR.View())
      ensures Meter(GHR.pfUseful, GHR.pfIssued) == CountIssue(old(Meter(GHR.pfUseful, GHR.pfIssued)))
    {
      GHR.pfIssued := GHR.pfIssued + 1;
      if GHR.pfIssued > GLOBAL_COUNTER_MAX {
        GHR.pfIssued := GHR.pfIssued / 2;
        GHR.pfUseful := GHR.pfUseful / 2;
      }
    }

    /** One candidate of the queue. */
    method IssueCandidate(addr: nat, sig: bv32, base: nat, conf: nat, delta: int, issued: seq<Prefetch>)
      returns (issued': seq<Prefetch>)
      requires Valid()
      requires IssueOne(params, Issue(FilterView(), GHR.View(), issued), addr, sig, base, Candidate(conf, delta)).Some?
      modifies FILTER.Repr(), GHR.Repr()
      ensures Valid()
      ensures IssueOne(params, Issue(old(FilterView()), old(GHR.View()), issued), addr, sig, base, Candidate(conf, delta))
              == Some(Issue(FilterView(), GHR.View(), issued'))
    {
      issued' := issued;
      var target := TargetOf(base, delta);
      if addr / 4096 == target / 4096 {
        var q, r := Quotient(params, target), Remainder(params, target);
        if conf >= params.fillThreshold {
          var pass := FILTER.CheckL2Prefetch(q, r);
          if pass {
            issued' := issued + [Prefetch(target, FILL_L2)];
            CountIssued();
          }
        } else {
          var pass := FILTER.CheckLlcPrefetch(q, r);
          if pass {
            issued' := issued + [Prefetch(target, FILL_LLC)];
          }
        }
      } else {
        GHR.UpdateEntry(sig, conf, target / 64 % 64, delta);
      }
    }

    /** The for loop over the candidates of one level. */
    method IssueLevel(addr: nat, sig: bv32, base: nat, deltaQ: array<int>, confQ: array<nat>,
                      head: nat, tail: nat, issued: seq<Prefetch>, ghost level: Level)
      returns (head': nat, doLookahead: bool, issued': seq<Prefetch>)
      requires Valid() && head <= tail <= confQ.Length == deltaQ.Length
      requires deltaQ !in Repr() && confQ !in Repr()
      requires level.sig == sig && level.base == base && |level.queue| == tail - head
      requires forall i :: 0 <= i < |level.queue| ==>
        && confQ[head + i] == level.queue[i].conf && deltaQ[head + i] == level.queue[i].delta
        && params.pfThreshold <= level.queue[i].conf
      requires IssueQueue(params, Issue(FilterView(), GHR.View(), issued), addr, level, |level.queue|).Some?
      modifies FILTER.Repr(), GHR.Repr()
      ensures Valid() && head' == tail && doLookahead == (head < tail)
      ensures IssueQueue(params, Issue(old(FilterView()), old(GHR.View()), issued), addr, level, |level.queue|)
              == Some(Issue(FilterView(), GHR.View(), issued'))
    {
      hide FilterView, IssueOne, View;
      ghost var x0 := Issue(FilterView(), GHR.View(), issued);
      head', doLookahead, issued' := head, false, issued;
      var i := head;
      while i < tail
        invariant head <= i <= tail && head' == i && doLookahead == (head < i)
        invariant Valid()
        invariant IssueQueue(params, x0, addr, level, i - head) == Some(Issue(FilterView(), GHR.View(), issued'))
        invariant forall k :: 0 <= k < |level.queue| ==>
          && confQ[head + k] == level.queue[k].conf && deltaQ[head + k] == level.queue[k].delta
      {
        assert confQ[head + (i - head)] == level.queue[i - head].conf;
        assert deltaQ[head + (i - head)] == level.queue[i - head].delta;
        assert confQ[i] >= params.pfThreshold;
        IssuePrefix(params, x0, addr, level, i - head + 1, |level.queue|);
        if confQ[i] >= params.pfThreshold {
          issued' := IssueCandidate(addr, sig, base, confQ[i], deltaQ[i], issued');
          doLookahead := true;
          head' := head' + 1;
        }
        i := i + 1;
      }
    }

    /** cache_fill */
    method CacheFill(evictedAddr: nat)
      requires Valid()
      modifies Repr()
      ensures Valid() && View() == Spp.CacheFill(params, old(View()), evictedAddr)
    {
      FILTER.CheckEvict(Quotient(params, evictedAddr), GHR);
    }

    /** Stage 2: the pattern table learns the delta of the last signature, if there is one. */
    method LearnDelta(lastSig: bv32, delta: int)
      requires Valid() && TableOk(PT.View()) && (lastSig != 0 ==> delta != 0)
      modifies PT.Repr()
      ensures Valid() && TableOk(PT.View())
      ensures ST.View() == old(ST.View()) && FilterView() == old(FilterView()) && GHR.View() == old(GHR.View())
      ensures var pt, k := old(PT.View()), params.hash(lastSig) % PT_SET;
        if lastSig == 0 then PT.View() == pt
        else Update(pt[k], delta).Some? && PT.View() == pt[k := Update(pt[k], delta).value]
    {
      hide Update;
      TableUpdateOk(PT.View(), params.hash(lastSig) % PT_SET, delta, lastSig);
      if lastSig != 0 {
        PT.UpdatePattern(params.hash(lastSig) % PT_SET, delta);
      }
    }

    /** Stage 1, the signature table. */
    method LearnSignature(addr: nat) returns (lastSig: bv32, currSig: bv32, delta: int)
      requires Valid() && ReadAndUpdate(ST.View(), addr / 4096, addr / 64 % 64, GHR.View()).Some?
      modifies ST.Repr()
      ensures Valid()
      ensures PT.View() == old(PT.View()) && FilterView() == old(FilterView()) && GHR.View() == old(GHR.View())
      ensures ReadAndUpdate(old(ST.View()), addr / 4096, addr / 64 % 64, GHR.View())
              == Some(Learned(ST.View(), lastSig, currSig, delta))
    {
      hide ReadAndUpdate;
      lastSig, currSig, delta := ST.ReadAndUpdateSig(addr / 4096, addr / 64 % 64, GHR);
    }

    /** The demand check beside it. */
    method CheckDemand(addr: nat)
      requires Valid()
      modifies FILTER.Repr(), GHR`pfUseful
      ensures Valid()
      ensures PT.View() == old(PT.View()) && ST.View() == old(ST.View()) && GHR.View() == old(GHR.View())
      ensures FilterView() == Demand(old(FilterView()), Quotient(params, addr), Remainder(params, addr))
    {
      FILTER.CheckDemand(Quotient(params, addr), Remainder(params, addr), GHR);
    }

    /** Stages 1 and 2 of an invocation. */
    method LearnAccess(addr: nat) returns (currSig: bv32)
      requires Valid() && Sound(View())
      modifies ST.Repr(), PT.Repr(), FILTER.Repr(), GHR`pfUseful
      ensures Valid() && GHR.View() == old(GHR.View())
      ensures Learn(params, old(View()), addr) == Some(Start(ST.View(), PT.View(), FilterView(), currSig))
    {
      hide Update, ReadAndUpdate, Valid, FilterView, Demand;
      ghost var s := View();
      ReadAndUpdateOk(s.st, addr / 4096, addr / 64 % 64, s.history);
      LastSigMeansDelta(s.st, addr / 4096, addr / 64 % 64, s.history);
      var lastSig, delta;
      lastSig, currSig, delta := LearnSignature(addr);
      CheckDemand(addr);
      LearnDelta(lastSig, delta);
    }

    /** read_pattern on any set: an untouched one queues nothing. */
    method ReadLevel(k: nat, deltaQ: array<int>, confQ: array<nat>, ga: nat, conf: nat, tail: nat, depth: nat)
      returns (lookaheadWay: nat, conf': nat, tail': nat, depth': nat, ghost queue: seq<Candidate>)
      requires Valid() && k < PT_SET && deltaQ !in Repr() && confQ !in Repr() && deltaQ as object != confQ
      requires confQ.Length == deltaQ.Length == L2C_MSHR_SIZE && tail < L2C_MSHR_SIZE
      requires PT.View()[k].cSig > 0 ==>
        tail + |ScanWays(PT.View()[k], ga, params.pfThreshold, depth, conf, PT_WAY).queue| < L2C_MSHR_SIZE
      modifies deltaQ, confQ
      ensures Valid() && FilterView() == old(FilterView()) && GHR.View() == old(GHR.View())
      ensures PT.View() == old(PT.View()) && ST.View() == old(ST.View())
      ensures tail' == tail + |queue| < L2C_MSHR_SIZE
      ensures forall i :: 0 <= i < |queue| ==> confQ[tail + i] == queue[i].conf && deltaQ[tail + i] == queue[i].delta
      ensures PT.View()[k].cSig == 0 ==> queue == [] && lookaheadWay == PT_WAY
      ensures PT.View()[k].cSig > 0 ==>
        var r := ScanWays(PT.View()[k], ga, params.pfThreshold, depth, conf, PT_WAY);
        && queue == r.queue && lookaheadWay == r.way && conf' == r.max
        && depth' == (if r.max >= params.pfThreshold then depth + 1 else depth)
    {
      hide ScanWays, View;
      lookaheadWay, conf', tail', depth', queue := PT_WAY, conf, tail, depth, [];
      if PT.cSig[k] > 0 {
        queue := ScanWays(PT.View()[k], ga, params.pfThreshold, depth, conf, PT_WAY).queue;
        lookaheadWay, conf', tail', depth' := PT.ReadPattern(k, deltaQ, confQ, ga, params.pfThreshold, conf, tail, depth);
      } else {
        confQ[tail] := 0;
      }
    }

    /** One round of the do-while loop: read the pattern, issue what it queued, follow the best way. */
    method LookaheadRound(addr: nat, sig: bv32, base: nat, deltaQ: array<int>, confQ: array<nat>, ga: nat,
                          conf: nat, tail: nat, depth: nat, issued: seq<Prefetch>,
                          ghost goal: Issue, ghost levels: seq<Level>)
      returns (doLookahead: bool, sig': bv32, base': nat, conf': nat, tail': nat, depth': nat, issued': seq<Prefetch>)
      requires Valid() && TableOk(PT.View())
      requires deltaQ !in Repr() && confQ !in Repr() && deltaQ as object != confQ
      requires confQ.Length == deltaQ.Length == L2C_MSHR_SIZE
      requires Remaining(params, PT.View(), Issue(FilterView(), GHR.View(), issued), goal, addr, sig, base, ga, depth, conf, tail, levels)
      modifies FILTER.Repr(), GHR.Repr(), deltaQ, confQ
      ensures Valid() && PT.View() == old(PT.View()) && ST.View() == old(ST.View())
      ensures doLookahead == (levels != [])
      ensures !doLookahead ==> goal == Issue(FilterView(), GHR.View(), issued')
      ensures doLookahead ==>
        Remaining(params, PT.View(), Issue(FilterView(), GHR.View(), issued'), goal, addr, sig', base', ga, depth', conf', tail', levels[1..])
    {
      hide View, FilterView, NextSig, Advance, ScanWays, IssueQueue, Remaining, ST.Valid, FILTER.Valid, GHR.Valid;
      ghost var x := Issue(FilterView(), GHR.View(), issued);
      OneLevel(params, PT.View(), x, goal, addr, sig, base, ga, depth, conf, tail, levels);
      TailBelow(params, PT.View(), x, goal, addr, sig, base, ga, depth, conf, tail, levels);
      var k := params.hash(sig) % PT_SET;
      ghost var t := PT.View()[k];
      sig', base' := sig, base;
      var lookaheadWay;
      ghost var queue;
      lookaheadWay, conf', tail', depth', queue := ReadLevel(k, deltaQ, confQ, ga, conf, tail, depth);
      if queue == [] {
        NothingQueued(params, x, addr, Level(sig, base, queue));
      }
      var head;
      head, doLookahead, issued' := IssueLevel(addr, sig, base, deltaQ, confQ, tail, tail', issued, Level(sig, base, queue));
      if lookaheadWay < PT_WAY {
        base' := Advance(base, PT.delta[k, lookaheadWay]);
        sig' := NextSig(sig, PT.delta[k, lookaheadWay]);
      }
    }

    /** The local candidate queues of an invocation. */
    method NewQueues() returns (deltaQ: array<int>, confQ: array<nat>)
      requires Valid()
      ensures fresh(deltaQ) && fresh(confQ) && deltaQ as object != confQ
      ensures deltaQ.Length == confQ.Length == L2C_MSHR_SIZE
      ensures Valid() && View() == old(View())
    {
      deltaQ := new int[L2C_MSHR_SIZE](_ => 0);
      confQ := new nat[L2C_MSHR_SIZE](_ => 0);
      confQ[0] := 100;
    }

    /** The do-while loop over the fixed candidate queues. */
    method LookaheadLoop(addr: nat, currSig: bv32, ga: nat, ghost goal: Issue, ghost levels: seq<Level>)
      returns (issued: seq<Prefetch>)
      requires Valid() && TableOk(PT.View())
      requires Remaining(params, PT.View(), Issue(FilterView(), GHR.View(), []), goal, addr, currSig, addr, ga, 0, 100, 0, levels)
      modifies FILTER.Repr(), GHR.Repr()
      ensures Valid() && PT.View() == old(PT.View()) && ST.View() == old(ST.View())
      ensures goal == Issue(FilterView(), GHR.View(), issued)
    {
      hide View, Remaining, FilterView, ST.Valid, PT.Valid, FILTER.Valid, GHR.Valid, TableOk, IssueLevels;
      var deltaQ, confQ := NewQueues();
      var doLookahead, sig, base, conf, tail, depth := true, currSig, addr, 100, 0, 0;
      issued := [];
      ghost var rest := levels;
      while doLookahead
        invariant Valid() && PT.View() == old(PT.View()) && ST.View() == old(ST.View())
        invariant deltaQ !in Repr() && confQ !in Repr()
        invariant !doLookahead ==> goal == Issue(FilterView(), GHR.View(), issued)
        invariant doLookahead ==>
          Remaining(params, PT.View(), Issue(FilterView(), GHR.View(), issued), goal, addr, sig, base, ga, depth, conf, tail, rest)
        decreases doLookahead, |rest|
        modifies FILTER.Repr(), GHR.Repr(), deltaQ, confQ
      {
        doLookahead, sig, base, conf, tail, depth, issued :=
          LookaheadRound(addr, sig, base, deltaQ, confQ, ga, conf, tail, depth, issued, goal, rest);
        rest := if doLookahead then rest[1..] else rest;
      }
    }

    method SetAccuracy(ga: nat)
      requires Valid()
      modifies GHR`globalAccuracy
      ensures Valid() && View() == old(View()) && GHR.globalAccuracy == ga
    {
      GHR.globalAccuracy := ga;
    }

    /** After the first two stages the lookahead may start. */
    lemma StartsOk(s: State, addr: nat, currSig: bv32, levels: seq<Level>)
      requires Valid() && Sound(s) && Returns(params, s, addr, levels) && GHR.View() == s.history
      requires Learn(params, s, addr) == Some(Start(ST.View(), PT.View(), FilterView(), currSig))
      ensures TableOk(PT.View())
      ensures
        var x := Issue(FilterView(), GHR.View(), []);
        var y := IssueLevels(params, x, addr, levels);
        && y.Some?
        && Remaining(params, PT.View(), x, y.value, addr, currSig, addr, Accuracy(s.filter.meter), 0, 100, 0, levels)
        && InvokeAlong(params, s, addr, levels) ==
             Some((State(ST.View(), PT.View(), y.value.filter, y.value.history), y.value.issued))
    {
      hide Learn, IsPath, IssueLevels, Accuracy, Queued;
    }

    /** invoke_prefetcher, whenever the lookahead ends with pf_q_tail still below L2C_MSHR_SIZE and no
        assert fails: in place, exactly the specified invocation. */
    method InvokePrefetcher(addr: nat, ghost levels: seq<Level>) returns (issued: seq<Prefetch>)
      requires Valid() && Sound(View()) && Returns(params, View(), addr, levels)
      modifies Repr()
      ensures Valid() && InvokeAlong(params, old(View()), addr, levels) == Some((View(), issued))
    {
      hide IssueLevels, Learn, FilterView, Sound, IsPath, Returns, InvokeAlong;
      ghost var s0 := View();
      var ga := if GHR.pfIssued > 0 then 100 * GHR.pfUseful / GHR.pfIssued else 0;
      assert ga == Accuracy(s0.filter.meter);
      SetAccuracy(ga);
      var currSig := LearnAccess(addr);
      StartsOk(s0, addr, currSig, levels);
      ghost var goal := IssueLevels(params, Issue(FilterView(), GHR.View(), []), addr, levels).value;
      issued := LookaheadLoop(addr, currSig, ga, goal, levels);
    }

    /** A threshold of 25 or more, an accuracy of at most 103, and a history register of a run that has always
        had them are enough. */
    lemma MayBeInvoked(addr: nat)
      requires Valid() && Sound(View()) && HistoryOk(View().history)
      requires 25 <= params.pfThreshold && Accuracy(View().filter.meter) <= 103
      ensures MayInvoke(params, View())
      ensures Returns(params, View(), addr, PathOf(params, View(), addr))
    {
      HoldsAt25(103);
      HoldsBelow(Accuracy(View().filter.meter), params.pfThreshold, 103, 25);
      InvokeOk(params, View(), addr);
    }
  }
}
