/** What SPP learns: the deltas of a page's consecutive accesses under the signatures they follow, and where a
    path goes on in another page (prefetcher/spp_dev2_helper.cc). */
module SppLearning {
  import opened Counting
  import LruOrder
  import opened SppSignature
  import opened SppPattern
  import opened SppFilter
  import opened Spp

  // ---- The pattern table ----

  /** All counters, halved when the signature counter overflows. */
  ghost predicate Counts(c: seq<nat>, n: nat, u: PtSet) {
    && |u.cDelta| == |c|
    && if n <= C_SIG_MAX then u.cDelta == c && u.cSig == n
       else u.cSig == n / 2 && forall v :: 0 <= v < |c| ==> u.cDelta[v] == c[v] / 2
  }

  /** One more hit of delta d at way w: where d is recorded, or else instead of the first least delta. */
  ghost predicate RecordsAt(t: PtSet, d: int, w: nat, u: PtSet)
    requires Shape(t)
  {
    && w < PT_WAY && u.delta == t.delta[w := d]
    && Counts(t.cDelta[w := if t.delta[w] == d then t.cDelta[w] + 1 else 0], t.cSig + 1, u)
    && if d in t.delta then t.delta[w] == d && forall v :: 0 <= v < w ==> t.delta[v] != d
       else
         && (forall v :: 0 <= v < w ==> t.cDelta[w] < t.cDelta[v])
         && (forall v :: w <= v < PT_WAY ==> t.cDelta[w] <= t.cDelta[v])
  }

  ghost predicate Records(t: PtSet, d: int, u: PtSet)
    requires Shape(t)
  {
    exists w :: RecordsAt(t, d, w, u)
  }

  lemma {:induction false} MinWayIsLeast(c: seq<nat>, n: nat)
    requires |c| == PT_WAY && n <= PT_WAY
    ensures var (w, m) := MinWay(c, n);
      && (w < PT_WAY ==> w < n && m == c[w] < C_SIG_MAX && forall v :: 0 <= v < w ==> m < c[v])
      && (w >= PT_WAY ==> w == PT_WAY && m == C_SIG_MAX)
      && forall v :: 0 <= v < n ==> m <= c[v]
  {
    if n > 0 {
      MinWayIsLeast(c, n - 1);
    }
  }

  /** update_pattern counts one more hit of the delta, and forgets a delta only for a new one. */
  lemma UpdateRecords(t: PtSet, d: int)
    requires SetOk(t) && d != 0
    ensures Update(t, d).Some? && Records(t, d, Update(t, d).value)
  {
    UpdateOk(t, d);
    var u := Update(t, d).value;
    var w := HitWay(t.delta, d, 0);
    if w < PT_WAY {
      assert RecordsAt(t, d, w, u);
    } else {
      var v := MinWay(t.cDelta, PT_WAY).0;
      MinWayIsLeast(t.cDelta, PT_WAY);
      assert RecordsAt(t, d, v, u);
    }
  }

  // ---- The signature table ----

  /** Way w tracks the page with this tag. */
  ghost predicate TracksAt(st: SigTable, w: nat, tag: nat) {
    w < |st.track| && st.track[w].valid && st.track[w].tag == tag
  }

  ghost predicate Tracks(st: SigTable, tag: nat) { exists w :: TracksAt(st, w, tag) }

  /** Each page is tracked at most once. */
  ghost predicate PagesDiffer(st: SigTable) {
    forall v, w, tag :: TracksAt(st, v, tag) && TracksAt(st, w, tag) ==> v == w
  }

  lemma {:induction false} FindPageIs(t: seq<Track>, tag: nat, from: nat)
    requires from <= |t|
    ensures forall v :: from <= v < FindPage(t, tag, from) ==> !(t[v].valid && t[v].tag == tag)
    decreases |t| - from
  {
    if from < |t| {
      FindPageIs(t, tag, from + 1);
    }
  }

  lemma {:induction false} FindFreeIs(t: seq<Track>, from: nat)
    requires from <= |t|
    ensures var w := FindFree(t, from); (w < |t| ==> !t[w].valid) && forall v :: from <= v < w ==> t[v].valid
    decreases |t| - from
  {
    if from < |t| {
      FindFreeIs(t, from + 1);
    }
  }

  lemma {:induction false} FindOldestIs(lru: seq<nat>, from: nat)
    requires from <= |lru|
    ensures var w := FindOldest(lru, from); w < |lru| ==> lru[w] == |lru| - 1
    decreases |lru| - from
  {
    if from < |lru| {
      FindOldestIs(lru, from + 1);
    }
  }

  /** The signature a page starts with: 0, or that of the most confident remembered path into this offset. */
  function StartSig(h: seq<History>, offset: nat): bv32 {
    var i := Recall(h, offset, |h|).0;
    if i < |h| then NextSig(h[i].sig, h[i].delta) else 0
  }

  /** An access to a page that way w tracks: the distance from its last access is learned under the signature
      before it, and both go on. A second access to the same block teaches nothing. */
  ghost predicate LearnsAt(st: SigTable, w: nat, offset: nat, l: Learned)
    requires w < |st.track|
  {
    var e := st.track[w];
    if offset == e.lastOffset then l.lastSig == 0 && l.currSig == 0 && l.st.track == st.track
    else
      && l.lastSig == e.sig && l.delta == offset - e.lastOffset && l.currSig == NextSig(e.sig, l.delta)
      && l.st.track == st.track[w := Track(true, e.tag, offset, l.currSig)]
  }

  /** An access to a page not tracked: it takes an invalid way, or that of the page accessed the longest ago. */
  ghost predicate StartsAt(st: SigTable, w: nat, tag: nat, offset: nat, h: seq<History>, l: Learned)
    requires w < |st.track| == |st.lru|
  {
    && l.lastSig == 0 && l.currSig == StartSig(h, offset)
    && l.st.track == st.track[w := Track(true, tag, offset, l.currSig)]
    && (st.track[w].valid ==> st.lru[w] == |st.lru| - 1 && forall v :: 0 <= v < |st.track| ==> st.track[v].valid)
  }

  lemma OneWayChanged(st: SigTable, t: SigTable, w: nat, tag: nat)
    requires PagesDiffer(st) && |t.track| == |st.track| && TracksAt(t, w, tag)
    requires forall v :: 0 <= v < |st.track| && v != w ==> t.track[v] == st.track[v] && !TracksAt(st, v, tag)
    ensures PagesDiffer(t)
  {
    forall u, v, g | TracksAt(t, u, g) && TracksAt(t, v, g) ensures u == v {
      assert u != w ==> TracksAt(st, u, g);
      assert v != w ==> TracksAt(st, v, g);
    }
  }

  /** read_and_update_sig touches the one way of the page, which becomes the most recent. */
  lemma AccessLearns(st: SigTable, page: nat, offset: nat, h: seq<History>) returns (w: nat)
    requires SigTableOk(st) && PagesDiffer(st)
    ensures var r := ReadAndUpdate(st, page, offset, h);
      && r.Some? && w < ST_WAY && PagesDiffer(r.value.st) && TracksAt(r.value.st, w, PageTag(page))
      && r.value.st.track[w].lastOffset == offset
      && r.value.st.lru == LruOrder.Promote(st.lru, w)
      && if Tracks(st, PageTag(page)) then TracksAt(st, w, PageTag(page)) && LearnsAt(st, w, offset, r.value)
         else StartsAt(st, w, PageTag(page), offset, h, r.value)
  {
    hide LruOrder.Permutation, LruOrder.Promote, NextSig, Recall;
    var tag := PageTag(page);
    ReadAndUpdateOk(st, page, offset, h);
    FindPageIs(st.track, tag, 0);
    FindFreeIs(st.track, 0);
    FindOldestIs(st.lru, 0);
    var hit, free := FindPage(st.track, tag, 0), FindFree(st.track, 0);
    w := if hit < |st.track| then hit else if free < |st.track| then free else FindOldest(st.lru, 0);
    if hit < |st.track| {
      assert TracksAt(st, hit, tag);
    }
    var t := ReadAndUpdate(st, page, offset, h).value.st;
    assert forall v :: 0 <= v < ST_WAY && v != w ==> t.track[v] == st.track[v] && !TracksAt(st, v, tag);
    OneWayChanged(st, t, w, tag);
  }

  // ---- The history register ----

  /** Valid entries are of different offsets, and invalid ones have confidence 0. */
  ghost predicate HistoryDiffers(h: seq<History>) {
    && |h| == MAX_GHR_ENTRY
    && (forall i, j :: 0 <= i < j < |h| && h[i].valid && h[j].valid ==> h[i].offset != h[j].offset)
    && forall i :: 0 <= i < |h| && !h[i].valid ==> h[i].conf == 0
  }

  lemma {:induction false} FindOffsetIs(h: seq<History>, offset: nat, from: nat)
    requires from <= |h|
    ensures var i := FindOffset(h, offset, from);
      (i < |h| ==> h[i].valid && h[i].offset == offset) && forall j :: from <= j < i ==> !(h[j].valid && h[j].offset == offset)
    decreases |h| - from
  {
    if from < |h| {
      FindOffsetIs(h, offset, from + 1);
    }
  }

  lemma {:induction false} LeastConfIs(h: seq<History>, n: nat)
    requires n <= |h|
    ensures var (v, m) := LeastConf(h, n);
      (v < |h| ==> v < n && m == h[v].conf) && (forall j :: 0 <= j < n ==> m <= h[j].conf) && (v >= |h| ==> v == |h| && m == 100)
  {
    if n > 0 {
      LeastConfIs(h, n - 1);
    }
  }

  /** update_entry overwrites the entry of the offset, or else one of the least confidence. */
  lemma RememberMeaning(h: seq<History>, sig: bv32, conf: nat, offset: nat, delta: int) returns (i: nat)
    requires HistoryDiffers(h) && Remember(h, sig, conf, offset, delta).Some?
    ensures var r := Remember(h, sig, conf, offset, delta).value;
      && i < |h| && r == h[i := History(true, sig, conf, offset, delta)] && HistoryDiffers(r)
      && if exists j :: 0 <= j < |h| && h[j].valid && h[j].offset == offset then h[i].valid && h[i].offset == offset
         else forall j :: 0 <= j < |h| ==> h[i].conf <= h[j].conf
  {
    FindOffsetIs(h, offset, 0);
    LeastConfIs(h, |h|);
    i := FindOffset(h, offset, 0);
    if i >= |h| {
      i := LeastConf(h, |h|).0;
    }
  }

  lemma {:induction false} RecallIs(h: seq<History>, offset: nat, n: nat)
    requires n <= |h|
    ensures var (i, m) := Recall(h, offset, n);
      && (i < |h| ==> i < n && h[i].offset == offset && 0 < m == h[i].conf) && (i >= |h| ==> i == |h| && m == 0)
      && forall j :: 0 <= j < n && h[j].offset == offset ==> h[j].conf <= m
  {
    if n > 0 {
      RecallIs(h, offset, n - 1);
    }
  }

  /** A path that left its page goes on: the page it enters starts from the signature that follows it. */
  lemma CrossingContinues(h: seq<History>, sig: bv32, conf: nat, offset: nat, delta: int)
    requires HistoryDiffers(h) && 0 < conf && Remember(h, sig, conf, offset, delta).Some?
    ensures StartSig(Remember(h, sig, conf, offset, delta).value, offset) == NextSig(sig, delta)
  {
    hide NextSig;
    var i := RememberMeaning(h, sig, conf, offset, delta);
    var r := Remember(h, sig, conf, offset, delta).value;
    RecallIs(r, offset, |r|);
    assert r[i].offset == offset;
    assert Recall(r, offset, |r|).0 == i;
  }

  /** With no confident path remembered into its offset, a page starts from signature 0. */
  lemma FreshStart(h: seq<History>, offset: nat)
    requires forall j :: 0 <= j < |h| && h[j].offset == offset ==> h[j].conf == 0
    ensures StartSig(h, offset) == 0
  {
    RecallIs(h, offset, |h|);
  }

  // ---- The two learning stages ----

  /** What an access teaches the pattern table: nothing, or one hit of the delta under the page's signature. */
  ghost predicate Teaches(p: Params, s: State, addr: nat, w: nat, pt: seq<PtSet>)
    requires w < |s.st.track| && TableOk(s.pt)
  {
    var e, offset := s.st.track[w], addr / 64 % 64;
    if !Tracks(s.st, PageTag(addr / 4096)) || offset == e.lastOffset || e.sig == 0 then pt == s.pt
    else
      var k := p.hash(e.sig) % PT_SET;
      |pt| == PT_SET && pt == s.pt[k := pt[k]] && Records(s.pt[k], offset - e.lastOffset, pt[k])
  }

  /** The signature that the lookahead starts from. */
  ghost function LookaheadSig(s: State, tag: nat, offset: nat, w: nat): bv32
    requires w < |s.st.track|
  {
    if !Tracks(s.st, tag) then StartSig(s.history, offset)
    else if offset == s.st.track[w].lastOffset then 0
    else NextSig(s.st.track[w].sig, offset - s.st.track[w].lastOffset)
  }

  /** The learning stages: the delta since the page's last access is recorded in the set of the signature before
      it, the lookahead starts from the signature after it, and the filter has seen the demand. */
  lemma LearnTeaches(p: Params, s: State, addr: nat) returns (w: nat)
    requires Sound(s) && PagesDiffer(s.st)
    ensures var x, tag, offset := Learn(p, s, addr), PageTag(addr / 4096), addr / 64 % 64;
      && x.Some? && w < ST_WAY == |s.st.track| && (Tracks(s.st, tag) ==> TracksAt(s.st, w, tag))
      && PagesDiffer(x.value.st) && Teaches(p, s, addr, w, x.value.pt)
      && TracksAt(x.value.st, w, tag) && x.value.st.track[w].lastOffset == offset
      && (forall v :: 0 <= v < ST_WAY && v != w ==> x.value.st.track[v] == s.st.track[v])
      && x.value.filter == Demand(s.filter, Quotient(p, addr), Remainder(p, addr))
      && x.value.sig == LookaheadSig(s, tag, offset, w)
      && (x.value.sig == x.value.st.track[w].sig || (x.value.sig == 0 && x.value.st.track[w] == s.st.track[w]))
  {
    hide ReadAndUpdate, Demand, Update, NextSig, StartSig, Records, Tracks, PagesDiffer, LruOrder.Promote, Accounted;
    LearnOk(p, s, addr);
    var page, offset := addr / 4096, addr / 64 % 64;
    w := AccessLearns(s.st, page, offset, s.history);
    var l := ReadAndUpdate(s.st, page, offset, s.history).value;
    LastSigMeansDelta(s.st, page, offset, s.history);
    if l.lastSig != 0 {
      UpdateRecords(s.pt[p.hash(l.lastSig) % PT_SET], l.delta);
    }
  }

  // ---- The filter ----

  /** Entry and remainder are sixteen bits of the line's hash: lines whose hashes agree there share them, and only
      those. */
  lemma FilterPlace(p: Params, a: nat, b: nat)
    ensures Quotient(p, a) * 64 + Remainder(p, a) == p.lineHash(a / 64) % 65536
    ensures Quotient(p, a) == Quotient(p, b) && Remainder(p, a) == Remainder(p, b)
            <==> p.lineHash(a / 64) % 65536 == p.lineHash(b / 64) % 65536
  {
    SixteenBits(p.lineHash(a / 64));
    SixteenBits(p.lineHash(b / 64));
  }

  lemma SixteenBits(h: nat)
    ensures h / 64 % 1024 * 64 + h % 64 == h % 65536 && h % 64 < 64
  {
  }

  /** An evicted line passes the filter again, and the other entries are as before. */
  lemma EvictedPasses(p: Params, s: State, evicted: nat, other: nat)
    requires Sound(s)
    ensures var t := CacheFill(p, s, evicted);
      && Passes(t.filter, Quotient(p, evicted), Remainder(p, evicted))
      && t.st == s.st && t.pt == s.pt && t.history == s.history
      && (Quotient(p, other) != Quotient(p, evicted) ==>
            Passes(t.filter, Quotient(p, other), Remainder(p, other)) == Passes(s.filter, Quotient(p, other), Remainder(p, other)))
  {
  }

  // ---- Candidates that leave the page ----

  /** A candidate of another page is remembered under the offset it enters that page at; one of this page changes
      no history. */
  lemma CrossingRemembered(p: Params, x: Issue, addr: nat, l: Level, c: Candidate) returns (i: nat)
    requires |x.filter.slots| == FILTER_SET && HistoryDiffers(x.history) && IssueOne(p, x, addr, l.sig, l.base, c).Some?
    ensures var y, block := IssueOne(p, x, addr, l.sig, l.base, c).value, (l.base / 64 * 64 + 64 * c.delta) % 0x1_0000_0000_0000_0000;
      && HistoryDiffers(y.history)
      && if block / 4096 == addr / 4096 then y.history == x.history
         else i < |x.history| && y.history == x.history[i := History(true, l.sig, c.conf, block / 64 % 64, c.delta)]
  {
    hide Remember, HistoryDiffers, Passes, IssueL2;
    var block := TargetOf(l.base, c.delta);
    assert l.base - l.base % 64 == l.base / 64 * 64;
    i := 0;
    if block / 4096 != addr / 4096 {
      i := RememberMeaning(x.history, l.sig, c.conf, block / 64 % 64, c.delta);
    }
  }

  lemma {:induction false} QueueKeepsHistory(p: Params, x: Issue, addr: nat, l: Level, n: nat)
    requires |x.filter.slots| == FILTER_SET && HistoryDiffers(x.history) && n <= |l.queue| && IssueQueue(p, x, addr, l, n).Some?
    ensures HistoryDiffers(IssueQueue(p, x, addr, l, n).value.history)
  {
    hide IssueOne, HistoryDiffers;
    if n > 0 {
      QueueKeepsHistory(p, x, addr, l, n - 1);
      var _ := CrossingRemembered(p, IssueQueue(p, x, addr, l, n - 1).value, addr, l, l.queue[n - 1]);
    }
  }

  lemma {:induction false} LevelsKeepHistory(p: Params, x: Issue, addr: nat, levels: seq<Level>)
    requires |x.filter.slots| == FILTER_SET && HistoryDiffers(x.history) && IssueLevels(p, x, addr, levels).Some?
    ensures HistoryDiffers(IssueLevels(p, x, addr, levels).value.history)
    decreases |levels|
  {
    hide IssueQueue, HistoryDiffers;
    if |levels| > 0 {
      var n := |levels[0].queue|;
      QueueKeepsHistory(p, x, addr, levels[0], n);
      LevelsKeepHistory(p, IssueQueue(p, x, addr, levels[0], n).value, addr, levels[1..]);
    }
  }

  // ---- Runs ----

  /** The latest offset accessed in each page, kept beside the prefetcher. */
  function Latest(last: map<nat, nat>, e: Event): map<nat, nat> {
    match e
    case Access(addr, _) => last[PageTag(addr / 4096) := addr / 64 % 64]
    case Fill(_) => last
  }

  function LatestAll(last: map<nat, nat>, events: seq<Event>): map<nat, nat>
    decreases |events|
  {
    if |events| == 0 then last else LatestAll(Latest(last, events[0]), events[1..])
  }

  /** Each page is tracked once, with its latest offset; and history entries differ. */
  ghost predicate Remembers(s: State, last: map<nat, nat>) {
    && PagesDiffer(s.st) && HistoryDiffers(s.history)
    && forall w: nat, tag: nat :: TracksAt(s.st, w, tag) ==> tag in last && s.st.track[w].lastOffset == last[tag]
  }

  lemma AccessRemembers(p: Params, s: State, addr: nat, levels: seq<Level>, last: map<nat, nat>)
    requires Sound(s) && Remembers(s, last) && Returns(p, s, addr, levels)
    ensures Remembers(InvokeAlong(p, s, addr, levels).value.0, Latest(last, Access(addr, levels)))
  {
    hide Learn, IssueLevels, IsPath, HistoryDiffers, PagesDiffer, Teaches, LookaheadSig, Accounted, Demand;
    var w := LearnTeaches(p, s, addr);
    var x := Learn(p, s, addr).value;
    LevelsKeepHistory(p, Issue(x.filter, s.history, []), addr, levels);
    var t, more, tag := InvokeAlong(p, s, addr, levels).value.0, Latest(last, Access(addr, levels)), PageTag(addr / 4096);
    LearnKeepsSizes(p, s, addr);
    forall v: nat, g: nat | TracksAt(t.st, v, g) ensures g in more && t.st.track[v].lastOffset == more[g] {
      if v != w {
        assert TracksAt(s.st, v, g);
        OtherPage(t.st, v, w, g, tag);
      }
    }
  }

  lemma OtherPage(st: SigTable, v: nat, w: nat, g: nat, tag: nat)
    requires PagesDiffer(st) && TracksAt(st, v, g) && TracksAt(st, w, tag) && v != w
    ensures g != tag
  {
  }

  lemma LearnKeepsSizes(p: Params, s: State, addr: nat)
    requires Sound(s) && Learn(p, s, addr).Some?
    ensures |Learn(p, s, addr).value.st.track| == ST_WAY
  {
    LearnOk(p, s, addr);
  }

  /** Over every run of accesses that return and fills, what a page's entry says is its latest access. */
  lemma {:induction false} RunRemembers(p: Params, s: State, events: seq<Event>, t: State, last: map<nat, nat>)
    requires Sound(s) && Remembers(s, last) && Run(p, s, events, t)
    ensures Sound(t) && Remembers(t, LatestAll(last, events))
    decreases |events|
  {
    hide Sound, Remembers, InvokeAlong, Returns, CacheFill;
    if |events| > 0 {
      NextKeeps(p, s, events[0]);
      if events[0].Access? {
        AccessRemembers(p, s, events[0].addr, events[0].levels, last);
      } else {
        FillRemembers(p, s, events[0].evicted, last);
      }
      RunRemembers(p, Next(p, s, events[0]), events[1..], t, Latest(last, events[0]));
    }
  }

  lemma FillRemembers(p: Params, s: State, evicted: nat, last: map<nat, nat>)
    requires Sound(s) && Remembers(s, last)
    ensures Remembers(CacheFill(p, s, evicted), last)
  {
  }

  lemma InitialRemembers(s: State)
    requires IsInitial(s)
    ensures Remembers(s, map[])
  {
  }

  /** After every run from the start, the next access to a page that is still tracked teaches the set of the page's
      signature the distance from the page's latest access in the run. */
  lemma LearnsDistance(p: Params, s: State, events: seq<Event>, t: State, addr: nat) returns (w: nat)
    requires IsInitial(s) && Run(p, s, events, t) && Tracks(t.st, PageTag(addr / 4096))
    ensures var last, tag, offset := LatestAll(map[], events), PageTag(addr / 4096), addr / 64 % 64;
      && Sound(t) && Learn(p, t, addr).Some? && tag in last && w < |t.st.track|
      && var pt, sig := Learn(p, t, addr).value.pt, t.st.track[w].sig;
      if offset == last[tag] || sig == 0 then pt == t.pt
      else
        var k := p.hash(sig) % PT_SET;
        |pt| == PT_SET && pt == t.pt[k := pt[k]] && Records(t.pt[k], offset - last[tag], pt[k])
        && Learn(p, t, addr).value.sig == NextSig(sig, offset - last[tag])
  {
    hide Learn, Run, LatestAll, Sound, Records, NextSig, StartSig, PagesDiffer, HistoryDiffers;
    InitialOk(s);
    InitialRemembers(s);
    RunRemembers(p, s, events, t, map[]);
    w := LearnTeaches(p, t, addr);
  }
}
