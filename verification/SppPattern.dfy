/** The SPP pattern table (prefetcher/spp_dev2_helper.cc): saturating, halving counters, and the
    confidences the lookahead multiplies along its path (prefetcher/spp_dev2.cc). */
module SppPattern {
  import opened Counting
  import opened SppSignature

  const PT_SET := 512
  const PT_WAY := 4
  const C_SIG_MAX := 15
  const L2C_MSHR_SIZE := 32

  /** One set: four deltas with their counters, and the counter of the signature. */
  datatype PtSet = PtSet(delta: seq<int>, cDelta: seq<nat>, cSig: nat)

  ghost predicate Shape(t: PtSet) { |t.delta| == PT_WAY && |t.cDelta| == PT_WAY }

  function Sum4(c: seq<nat>): nat
    requires |c| == PT_WAY
  {
    c[0] + c[1] + c[2] + c[3]
  }

  /** An untouched set is all zero; a touched one has seen more signatures than delta hits. */
  ghost predicate SetOk(t: PtSet) {
    && Shape(t)
    && if t.cSig == 0 then forall w :: 0 <= w < PT_WAY ==> t.delta[w] == 0 && t.cDelta[w] == 0
       else Sum4(t.cDelta) < t.cSig <= C_SIG_MAX
  }

  /** An untouched set. */
  ghost predicate ZeroSet(t: PtSet) {
    Shape(t) && t.cSig == 0 && forall w :: 0 <= w < PT_WAY ==> t.delta[w] == 0 && t.cDelta[w] == 0
  }

  ghost predicate TableOk(pt: seq<PtSet>) {
    |pt| == PT_SET && forall s :: 0 <= s < PT_SET ==> SetOk(pt[s])
  }

  // ---- update_pattern ----

  /** First way from `from` on that records the delta, or PT_WAY. */
  function HitWay(delta: seq<int>, d: int, from: nat): (w: nat)
    requires |delta| == PT_WAY && from <= PT_WAY
    ensures from <= w <= PT_WAY
    ensures forall i :: from <= i < w ==> delta[i] != d
    ensures w < PT_WAY ==> delta[w] == d
    decreases PT_WAY - from
  {
    if from == PT_WAY || delta[from] == d then from else HitWay(delta, d, from + 1)
  }

  /** The victim scan over the first n ways: the first least counter below C_SIG_MAX, and its value. */
  function MinWay(c: seq<nat>, n: nat): (nat, nat)
    requires |c| == PT_WAY && n <= PT_WAY
  {
    if n == 0 then (PT_WAY, C_SIG_MAX)
    else
      var (w, m) := MinWay(c, n - 1);
      if c[n - 1] < m then (n - 1, c[n - 1]) else (w, m)
  }

  /** On overflow of the signature counter everything is halved. */
  function Halved(t: PtSet): PtSet {
    if t.cSig > C_SIG_MAX then
      PtSet(t.delta, seq(|t.cDelta|, w requires 0 <= w < |t.cDelta| => t.cDelta[w] / 2), t.cSig / 2)
    else t
  }

  /** update_pattern; None is its "cannot find a replacement victim" assert. */
  function Update(t: PtSet, d: int): Option<PtSet>
    requires Shape(t)
  {
    var w := HitWay(t.delta, d, 0);
    if w < PT_WAY then
      Some(Halved(PtSet(t.delta, t.cDelta[w := t.cDelta[w] + 1], t.cSig + 1)))
    else
      var v := MinWay(t.cDelta, PT_WAY).0;
      if v >= PT_WAY then None
      else Some(Halved(PtSet(t.delta[v := d], t.cDelta[v := 0], t.cSig + 1)))
  }

  lemma HalvedOk(t: PtSet)
    requires Shape(t) && 0 < t.cSig <= C_SIG_MAX + 1 && Sum4(t.cDelta) < t.cSig
    ensures SetOk(Halved(t)) && Halved(t).cSig > 0
  {
  }

  /** A counter below C_SIG_MAX is always found as a victim. */
  lemma {:induction false} MinWayFinds(c: seq<nat>, n: nat)
    requires |c| == PT_WAY && n <= PT_WAY && c[0] < C_SIG_MAX
    ensures n > 0 ==> MinWay(c, n).0 < n
    ensures MinWay(c, n).1 <= C_SIG_MAX
  {
    if n > 0 {
      MinWayFinds(c, n - 1);
    }
  }

  /** A real delta (never 0, because the signature table reports signature 0 for delta 0) keeps the
      counters apart, and always finds a victim. */
  lemma UpdateOk(t: PtSet, d: int)
    requires SetOk(t) && d != 0
    ensures Update(t, d).Some? && SetOk(Update(t, d).value) && Update(t, d).value.cSig > 0
  {
    var w := HitWay(t.delta, d, 0);
    if w < PT_WAY {
      HalvedOk(PtSet(t.delta, t.cDelta[w := t.cDelta[w] + 1], t.cSig + 1));
    } else {
      var v := MinWay(t.cDelta, PT_WAY).0;
      MinWayFinds(t.cDelta, PT_WAY);
      HalvedOk(PtSet(t.delta[v := d], t.cDelta[v := 0], t.cSig + 1));
    }
  }

  /** With delta 0 the first update of a set would reach full confidence. */
  lemma ZeroDeltaBreaks()
    ensures var t := PtSet([0, 0, 0, 0], [0, 0, 0, 0], 0);
      SetOk(t) && Update(t, 0).Some? && !SetOk(Update(t, 0).value) && Confidence(Update(t, 0).value, 0, 0, 0, 100) == 100
  {
    var u := Update(PtSet([0, 0, 0, 0], [0, 0, 0, 0], 0), 0).value;
    assert HitWay([0, 0, 0, 0], 0, 0) == 0;
    assert u.cDelta == [1, 0, 0, 0] && u.cSig == 1;
  }

  // ---- read_pattern ----

  /** The share of one delta among the hits of its signature, scaled by `g` percent. */
  function Share(c: nat, s: nat, g: nat): nat
    requires s > 0
  {
    g * c / s
  }

  /** Confidence of one way: local at depth 0, multiplied along the path below and kept in 32 bits. */
  function Confidence(t: PtSet, w: nat, ga: nat, depth: nat, conf: nat): nat
    requires Shape(t) && w < PT_WAY && t.cSig > 0
  {
    if depth > 0 then Share(t.cDelta[w], t.cSig, ga) * conf / 100 % 0x1_0000_0000 else Share(t.cDelta[w], t.cSig, 100)
  }

  /** A queued prefetch candidate. */
  datatype Candidate = Candidate(conf: nat, delta: int)

  /** The scan over the first n ways: candidates at or above the threshold, the most confident way
      (PT_WAY if none) and its confidence. */
  datatype Scan = Scan(queue: seq<Candidate>, way: nat, max: nat)

  function ScanWays(t: PtSet, ga: nat, thr: nat, depth: nat, conf: nat, n: nat): (r: Scan)
    requires Shape(t) && t.cSig > 0 && n <= PT_WAY
    ensures |r.queue| <= n && r.way <= PT_WAY
  {
    if n == 0 then Scan([], PT_WAY, 0)
    else
      var r := ScanWays(t, ga, thr, depth, conf, n - 1);
      var c := Confidence(t, n - 1, ga, depth, conf);
      if c < thr then r
      else if c > r.max then Scan(r.queue + [Candidate(c, t.delta[n - 1])], n - 1, c)
      else Scan(r.queue + [Candidate(c, t.delta[n - 1])], r.way, r.max)
  }

  /** What every scan finds, whatever the accuracy: candidates between the threshold and the greatest
      confidence, every way at the threshold, and with a positive threshold a way to follow. */
  lemma {:induction false} ScanFinds(t: PtSet, ga: nat, thr: nat, depth: nat, conf: nat, n: nat)
    requires Shape(t) && t.cSig > 0 && n <= PT_WAY
    ensures var r := ScanWays(t, ga, thr, depth, conf, n);
      && (forall i :: 0 <= i < |r.queue| ==> thr <= r.queue[i].conf <= r.max)
      && (forall w :: 0 <= w < n && Confidence(t, w, ga, depth, conf) >= thr ==>
            r.queue != [] && Confidence(t, w, ga, depth, conf) <= r.max)
      && (r.queue == [] ==> r.way == PT_WAY && r.max == 0)
      && (r.queue != [] && 1 <= thr ==> r.way < PT_WAY && thr <= r.max)
      && (r.way < PT_WAY ==> r.way < n && r.max == Confidence(t, r.way, ga, depth, conf))
      && (r.way == PT_WAY ==> r.max == 0)
  {
    if n > 0 {
      ScanFinds(t, ga, thr, depth, conf, n - 1);
    }
  }

  /** These are, in order, the ways below n whose confidence reaches the threshold. */
  ghost predicate Reaching(t: PtSet, ga: nat, thr: nat, depth: nat, conf: nat, n: nat, ways: seq<nat>)
    requires Shape(t) && t.cSig > 0 && n <= PT_WAY
  {
    && (forall i :: 0 <= i < |ways| ==> ways[i] < n)
    && (forall i, j :: 0 <= i < j < |ways| ==> ways[i] < ways[j])
    && forall w: nat | w < n :: w in ways <==> Confidence(t, w, ga, depth, conf) >= thr
  }

  /** One candidate for each of the ways, with its own confidence and its own delta. */
  ghost predicate Offers(t: PtSet, ga: nat, depth: nat, conf: nat, ways: seq<nat>, queue: seq<Candidate>)
    requires Shape(t) && t.cSig > 0
  {
    && |queue| == |ways| && (forall i :: 0 <= i < |ways| ==> ways[i] < PT_WAY)
    && forall i :: 0 <= i < |ways| ==> queue[i] == Candidate(Confidence(t, ways[i], ga, depth, conf), t.delta[ways[i]])
  }

  /** The first way of the greatest confidence. */
  ghost predicate Leads(t: PtSet, ga: nat, depth: nat, conf: nat, n: nat, way: nat)
    requires Shape(t) && t.cSig > 0 && n <= PT_WAY
  {
    && way < n
    && forall w: nat | w < n ::
         var c, m := Confidence(t, w, ga, depth, conf), Confidence(t, way, ga, depth, conf);
         if w < way then c < m else c <= m
  }

  /** Those ways. */
  function ReachingWays(t: PtSet, ga: nat, thr: nat, depth: nat, conf: nat, n: nat): seq<nat>
    requires Shape(t) && t.cSig > 0 && n <= PT_WAY
  {
    if n == 0 then []
    else ReachingWays(t, ga, thr, depth, conf, n - 1) + (if Confidence(t, n - 1, ga, depth, conf) >= thr then [n - 1] else [])
  }

  lemma {:induction false} ReachingWaysAre(t: PtSet, ga: nat, thr: nat, depth: nat, conf: nat, n: nat)
    requires Shape(t) && t.cSig > 0 && n <= PT_WAY
    ensures Reaching(t, ga, thr, depth, conf, n, ReachingWays(t, ga, thr, depth, conf, n))
  {
    hide Confidence;
    if n > 0 {
      ReachingWaysAre(t, ga, thr, depth, conf, n - 1);
      var shorter, ways := ReachingWays(t, ga, thr, depth, conf, n - 1), ReachingWays(t, ga, thr, depth, conf, n);
      forall w: nat | w < n ensures w in ways <==> Confidence(t, w, ga, depth, conf) >= thr {
        assert w == n - 1 ==> w !in shorter;
      }
    }
  }

  lemma {:induction false} ReachingWaysOffered(t: PtSet, ga: nat, thr: nat, depth: nat, conf: nat, n: nat)
    requires Shape(t) && t.cSig > 0 && n <= PT_WAY
    ensures Offers(t, ga, depth, conf, ReachingWays(t, ga, thr, depth, conf, n), ScanWays(t, ga, thr, depth, conf, n).queue)
  {
    hide Confidence;
    if n > 0 {
      ReachingWaysOffered(t, ga, thr, depth, conf, n - 1);
    }
  }

  lemma {:induction false} ScanLeads(t: PtSet, ga: nat, thr: nat, depth: nat, conf: nat, n: nat)
    requires Shape(t) && t.cSig > 0 && n <= PT_WAY
    ensures var r := ScanWays(t, ga, thr, depth, conf, n);
      && (r.way < PT_WAY ==> Leads(t, ga, depth, conf, n, r.way) && Confidence(t, r.way, ga, depth, conf) == r.max >= thr && r.max > 0)
      && (r.way == PT_WAY ==> r.max == 0 && forall w: nat | w < n :: Confidence(t, w, ga, depth, conf) < thr || Confidence(t, w, ga, depth, conf) == 0)
  {
    hide Confidence;
    if n > 0 {
      ScanLeads(t, ga, thr, depth, conf, n - 1);
      ScanFinds(t, ga, thr, depth, conf, n - 1);
    }
  }

  /** read_pattern queues exactly the ways that reach the threshold, each with its own confidence and delta
      and in order, and follows the first of the greatest confidence, unless all of them have none. */
  lemma ScanIsExact(t: PtSet, ga: nat, thr: nat, depth: nat, conf: nat)
    requires Shape(t) && t.cSig > 0
    ensures var r, ways := ScanWays(t, ga, thr, depth, conf, PT_WAY), ReachingWays(t, ga, thr, depth, conf, PT_WAY);
      && Reaching(t, ga, thr, depth, conf, PT_WAY, ways) && Offers(t, ga, depth, conf, ways, r.queue)
      && (r.way < PT_WAY ==> Leads(t, ga, depth, conf, PT_WAY, r.way) && r.max == Confidence(t, r.way, ga, depth, conf) > 0)
      && (r.way == PT_WAY ==> r.max == 0 && forall i :: 0 <= i < |ways| ==> Confidence(t, ways[i], ga, depth, conf) == 0)
      && r.way <= PT_WAY && (r.way < PT_WAY ==> r.way in ways)
  {
    hide Confidence;
    ReachingWaysAre(t, ga, thr, depth, conf, PT_WAY);
    ReachingWaysOffered(t, ga, thr, depth, conf, PT_WAY);
    ScanLeads(t, ga, thr, depth, conf, PT_WAY);
    ScanFinds(t, ga, thr, depth, conf, PT_WAY);
  }

  // ---- Confidence bounds ----

  /** The greatest accuracy at which no share of a well-formed set reaches 100. */
  const LOSING_ACCURACY := 107

  lemma ScaledMono(a: nat, b: nat, c: nat)
    requires a <= b
    ensures a * c <= b * c
  {
  }

  /** A local confidence stays at 93 or below, and a scaled one below 100 up to accuracy 107. */
  lemma LocalBound(c: nat, s: nat, ga: nat)
    requires c < s <= C_SIG_MAX && ga <= LOSING_ACCURACY
    ensures Share(c, s, ga) <= if ga <= 100 then 93 else 99
  {
    var top := if ga <= 100 then 100 else LOSING_ACCURACY;
    var bound := if ga <= 100 then 94 else 100;
    ScaledMono(ga, top, c);
    DivTimes(ga * c, s);
    if ga * c / s >= bound {
      ScaledMono(bound, ga * c / s, s);
    }
  }

  /** Where a path stands: confidence 100 at its start, and an accuracy that makes it lose confidence. */
  ghost predicate Losing(ga: nat, depth: nat, conf: nat) {
    ga <= LOSING_ACCURACY && conf <= 100 && (depth == 0 ==> conf == 100)
  }

  /** What is left of the confidence at most: 93 after the first level, and then 93 percent, or 99
      percent with an accuracy above 100. */
  function Ceiling(ga: nat, depth: nat, conf: nat): nat {
    if depth == 0 then 93 else if ga <= 100 then 93 * conf / 100 else 99 * conf / 100
  }

  lemma ConfidenceDrops(t: PtSet, w: nat, ga: nat, depth: nat, conf: nat)
    requires SetOk(t) && t.cSig > 0 && w < PT_WAY && Losing(ga, depth, conf)
    ensures Confidence(t, w, ga, depth, conf) <= Ceiling(ga, depth, conf)
    ensures depth > 0 ==> Confidence(t, w, ga, depth, conf) == Share(t.cDelta[w], t.cSig, ga) * conf / 100
  {
    hide Share;
    assert t.cDelta[w] < t.cSig;
    if depth > 0 {
      LocalBound(t.cDelta[w], t.cSig, ga);
      ScaledBelow(Share(t.cDelta[w], t.cSig, ga), if ga <= 100 then 93 else 99, conf);
    } else {
      LocalBound(t.cDelta[w], t.cSig, 100);
    }
  }

  lemma ScaledBelow(q: nat, top: nat, conf: nat)
    requires q <= top < 100 && conf <= 100
    ensures q * conf / 100 <= top * conf / 100 < 100 && q * conf / 100 % 0x1_0000_0000 == q * conf / 100
  {
    ScaledMono(q, top, conf);
    ScaledMono(top, 99, conf);
    Hundredths(q * conf, top * conf);
  }

  lemma Hundredths(x: nat, y: nat)
    requires x <= y <= 9900
    ensures x / 100 <= y / 100 < 100 && x / 100 % 0x1_0000_0000 == x / 100
  {
  }

  /** A set in which one delta has nearly all hits. */
  function HotSet(c: nat): (t: PtSet)
    requires c < C_SIG_MAX
    ensures SetOk(t) && t.cSig > 0
  {
    PtSet([1, 2, 3, 4], [c, 0, 0, 0], C_SIG_MAX)
  }

  /** Every way of every set loses confidence below the first level exactly with an accuracy of at
      most 107 (an accuracy above 300 cannot occur: SppFilter.RunAccuracy). */
  lemma LosesExactlyWhen(ga: nat)
    requires ga <= 300
    ensures (forall t: PtSet, w: nat, conf: nat | SetOk(t) && t.cSig > 0 && w < PT_WAY && 0 < conf <= 100 ::
               Confidence(t, w, ga, 1, conf) < conf)
            <==> ga <= LOSING_ACCURACY
  {
    if ga <= LOSING_ACCURACY {
      forall t: PtSet, w: nat, conf: nat | SetOk(t) && t.cSig > 0 && w < PT_WAY && 0 < conf <= 100
        ensures Confidence(t, w, ga, 1, conf) < conf
      {
        ConfidenceDrops(t, w, ga, 1, conf);
      }
    } else {
      var q := Share(14, C_SIG_MAX, ga);
      assert 100 <= q <= 280;
      assert Confidence(HotSet(14), 0, ga, 1, 100) == q;
    }
  }

  /** What the shares of one set add up to at most: fourteen fifteenths of the accuracy. */
  function TopShare(g: nat): nat { 14 * g / 15 }

  /** The confidences of one set add up to at most that part of the confidence of the path, and to at most 93
      at the start. */
  lemma ConfidencesAddUp(t: PtSet, ga: nat, depth: nat, conf: nat)
    requires SetOk(t) && t.cSig > 0 && Losing(ga, depth, conf)
    ensures Confidence(t, 0, ga, depth, conf) + Confidence(t, 1, ga, depth, conf)
          + Confidence(t, 2, ga, depth, conf) + Confidence(t, 3, ga, depth, conf)
          <= if depth == 0 then 93 else TopShare(ga) * conf / 100
  {
    hide Share;
    var s, c := t.cSig, t.cDelta;
    var g := if depth > 0 then ga else 100;
    forall w | 0 <= w < PT_WAY
      ensures depth > 0 ==> Confidence(t, w, ga, depth, conf) == Share(c[w], s, ga) * conf / 100
    {
      ConfidenceDrops(t, w, ga, depth, conf);
    }
    SharesAddUp(c[0], c[1], c[2], c[3], s, g);
    ScaledShares(Share(c[0], s, g), Share(c[1], s, g), Share(c[2], s, g), Share(c[3], s, g), TopShare(g), conf);
  }

  lemma SharesAddUp(c0: nat, c1: nat, c2: nat, c3: nat, s: nat, g: nat)
    requires c0 + c1 + c2 + c3 < s <= C_SIG_MAX
    ensures Share(c0, s, g) + Share(c1, s, g) + Share(c2, s, g) + Share(c3, s, g) <= TopShare(g)
  {
    hide TopShare, Share;
    var q0, q1, q2, q3 := Share(c0, s, g), Share(c1, s, g), Share(c2, s, g), Share(c3, s, g);
    ShareTimes(c0, s, g);
    ShareTimes(c1, s, g);
    ShareTimes(c2, s, g);
    ShareTimes(c3, s, g);
    ProductsAddUp(c0, c1, c2, c3, s - 1, g);
    QuotientsAddUp(q0, q1, q2, q3, g * c0, g * c1, g * c2, g * c3, s, g * (s - 1));
    UnderTopShare(q0 + q1 + q2 + q3, s, g);
  }

  lemma ShareTimes(c: nat, s: nat, g: nat)
    requires s > 0
    ensures Share(c, s, g) * s <= g * c
  {
    DivTimes(g * c, s);
  }

  lemma ProductsAddUp(c0: nat, c1: nat, c2: nat, c3: nat, n: nat, g: nat)
    requires c0 + c1 + c2 + c3 <= n
    ensures g * c0 + g * c1 + g * c2 + g * c3 <= g * n
  {
    Distribute(c0, c1, c2, c3, g);
    ScaledMono(c0 + c1 + c2 + c3, n, g);
  }

  lemma QuotientsAddUp(q0: nat, q1: nat, q2: nat, q3: nat, p0: nat, p1: nat, p2: nat, p3: nat, s: nat, p: nat)
    requires q0 * s <= p0 && q1 * s <= p1 && q2 * s <= p2 && q3 * s <= p3 && p0 + p1 + p2 + p3 <= p
    ensures (q0 + q1 + q2 + q3) * s <= p
  {
    Distribute(q0, q1, q2, q3, s);
  }

  lemma UnderTopShare(q: nat, s: nat, g: nat)
    requires 0 < s <= C_SIG_MAX && q * s <= g * (s - 1)
    ensures q <= TopShare(g)
  {
    if 15 * q > 14 * g {
      ScaledMono(14 * g + 1, 15 * q, s);
      ScaledMono(s, C_SIG_MAX, g);
    }
  }

  lemma Distribute(a: nat, b: nat, c: nat, d: nat, x: nat)
    ensures (a + b + c + d) * x == a * x + b * x + c * x + d * x
    ensures x * a == a * x && x * b == b * x && x * c == c * x && x * d == d * x
  {
  }

  lemma ScaledShares(q0: nat, q1: nat, q2: nat, q3: nat, q: nat, conf: nat)
    requires q0 + q1 + q2 + q3 <= q
    ensures q0 * conf / 100 + q1 * conf / 100 + q2 * conf / 100 + q3 * conf / 100 <= q * conf / 100
  {
    Distribute(q0, q1, q2, q3, conf);
    ScaledMono(q0 + q1 + q2 + q3, q, conf);
  }

  lemma DivTimes(a: nat, s: nat)
    requires s > 0
    ensures a / s * s <= a
  {
    assert a == s * (a / s) + a % s;
  }

  /** What a scan found: every candidate is confident enough and its confidence has dropped; the
      lookahead way is a candidate of the greatest confidence. */
  ghost predicate ScanOk(r: Scan, thr: nat, bound: nat) {
    && (forall i :: 0 <= i < |r.queue| ==> thr <= r.queue[i].conf <= r.max)
    && r.max <= bound
    && (r.queue != [] ==> r.way < PT_WAY && thr <= r.max)
    && (r.queue == [] ==> r.way == PT_WAY && r.max == 0)
  }

  lemma ScanMeaning(t: PtSet, ga: nat, thr: nat, depth: nat, conf: nat)
    requires SetOk(t) && t.cSig > 0 && 1 <= thr && Losing(ga, depth, conf)
    ensures ScanOk(ScanWays(t, ga, thr, depth, conf, PT_WAY), thr, Ceiling(ga, depth, conf))
  {
    hide ScanWays, Confidence, Ceiling;
    var r := ScanWays(t, ga, thr, depth, conf, PT_WAY);
    ScanFinds(t, ga, thr, depth, conf, PT_WAY);
    if r.way < PT_WAY {
      ConfidenceDrops(t, r.way, ga, depth, conf);
    }
  }

  /** All candidates of a scan but the most confident take at least a threshold each. */
  lemma ScanCount(t: PtSet, ga: nat, thr: nat, depth: nat, conf: nat)
    requires SetOk(t) && t.cSig > 0 && Losing(ga, depth, conf)
    ensures var r := ScanWays(t, ga, thr, depth, conf, PT_WAY);
      r.queue != [] ==> (|r.queue| - 1) * thr + r.max <= if depth == 0 then 93 else TopShare(ga) * conf / 100
  {
    ConfidencesAddUp(t, ga, depth, conf);
    ScanSum(t, ga, thr, depth, conf, PT_WAY);
    SumToFour(t, ga, depth, conf, 0);
  }

  function SumTo(t: PtSet, ga: nat, depth: nat, conf: nat, n: nat): nat
    requires Shape(t) && t.cSig > 0 && n <= PT_WAY
  {
    if n == 0 then 0 else SumTo(t, ga, depth, conf, n - 1) + Confidence(t, n - 1, ga, depth, conf)
  }

  lemma {:induction false} ScanSum(t: PtSet, ga: nat, thr: nat, depth: nat, conf: nat, n: nat)
    requires Shape(t) && t.cSig > 0 && n <= PT_WAY
    ensures var r := ScanWays(t, ga, thr, depth, conf, n);
      r.queue != [] ==> (|r.queue| - 1) * thr + r.max <= SumTo(t, ga, depth, conf, n)
  {
    hide Confidence;
    if n > 0 {
      ScanSum(t, ga, thr, depth, conf, n - 1);
      ScanFinds(t, ga, thr, depth, conf, n - 1);
      var q := ScanWays(t, ga, thr, depth, conf, n - 1).queue;
      if q != [] {
        assert thr <= q[0].conf;
        assert |q| * thr == (|q| - 1) * thr + thr;
      }
    }
  }

  lemma SumToFour(t: PtSet, ga: nat, depth: nat, conf: nat, n: nat)
    requires Shape(t) && t.cSig > 0 && n == 0
    ensures SumTo(t, ga, depth, conf, n + 4)
            == Confidence(t, n, ga, depth, conf) + Confidence(t, n + 1, ga, depth, conf)
               + Confidence(t, n + 2, ga, depth, conf) + Confidence(t, n + 3, ga, depth, conf)
  {
    assert SumTo(t, ga, depth, conf, n + 1) == Confidence(t, n, ga, depth, conf);
    assert SumTo(t, ga, depth, conf, n + 2) == SumTo(t, ga, depth, conf, n + 1) + Confidence(t, n + 1, ga, depth, conf);
    assert SumTo(t, ga, depth, conf, n + 3) == SumTo(t, ga, depth, conf, n + 2) + Confidence(t, n + 2, ga, depth, conf);
  }

  // ---- The lookahead path ----

  /** One level of the lookahead: the signature and base address it used and what it queued. */
  datatype Level = Level(sig: bv32, base: nat, queue: seq<Candidate>)

  /** base_addr advances by whole blocks, in 64-bit arithmetic. */
  function Advance(base: nat, delta: int): nat {
    (base + delta * 64) % 0x1_0000_0000_0000_0000
  }

  /** `levels` is what the do-while loop of invoke_prefetcher visits before it ends. A set without
      candidates ends it; with threshold 0 there may be no way to follow, and the loop stays. */
  ghost predicate IsPath(pt: seq<PtSet>, hash: bv32 -> nat, sig: bv32, base: nat, ga: nat, thr: nat, depth: nat, conf: nat,
                         levels: seq<Level>)
    requires TableOk(pt)
    decreases |levels|
  {
    var t := pt[hash(sig) % PT_SET];
    if t.cSig == 0 then levels == []
    else
      var r := ScanWays(t, ga, thr, depth, conf, PT_WAY);
      if r.queue == [] then levels == []
      else
        && levels != [] && levels[0] == Level(sig, base, r.queue)
        && if r.way < PT_WAY
           then IsPath(pt, hash, NextSig(sig, t.delta[r.way]), Advance(base, t.delta[r.way]), ga, thr, depth + 1, r.max, levels[1..])
           else IsPath(pt, hash, sig, base, ga, thr, depth + 1, r.max, levels[1..])
  }

  /** The path itself. That this function terminates for every table, every hash, every threshold of at
      least 1 and every accuracy of at most 107 is the termination of the loop. */
  function Lookahead(pt: seq<PtSet>, hash: bv32 -> nat, sig: bv32, base: nat, ga: nat, thr: nat, depth: nat, conf: nat): seq<Level>
    requires TableOk(pt) && 1 <= thr && Losing(ga, depth, conf)
    decreases conf
  {
    var t := pt[hash(sig) % PT_SET];
    if t.cSig == 0 then []
    else
      ScanMeaning(t, ga, thr, depth, conf);
      var r := ScanWays(t, ga, thr, depth, conf, PT_WAY);
      if r.queue == [] then []
      else
        [Level(sig, base, r.queue)]
        + Lookahead(pt, hash, NextSig(sig, t.delta[r.way]), Advance(base, t.delta[r.way]), ga, thr, depth + 1, r.max)
  }

  /** The loop's path is determined. */
  lemma {:induction false} PathUnique(pt: seq<PtSet>, hash: bv32 -> nat, sig: bv32, base: nat, ga: nat, thr: nat, depth: nat, conf: nat,
                                      one: seq<Level>, two: seq<Level>)
    requires TableOk(pt)
    requires IsPath(pt, hash, sig, base, ga, thr, depth, conf, one)
    requires IsPath(pt, hash, sig, base, ga, thr, depth, conf, two)
    ensures one == two
    decreases |one|
  {
    hide ScanWays, NextSig, Advance;
    var t := pt[hash(sig) % PT_SET];
    if one != [] {
      var r := ScanWays(t, ga, thr, depth, conf, PT_WAY);
      if r.way < PT_WAY {
        PathUnique(pt, hash, NextSig(sig, t.delta[r.way]), Advance(base, t.delta[r.way]), ga, thr, depth + 1, r.max, one[1..], two[1..]);
      } else {
        PathUnique(pt, hash, sig, base, ga, thr, depth + 1, r.max, one[1..], two[1..]);
      }
      assert one == [one[0]] + one[1..] && two == [two[0]] + two[1..];
    }
  }

  /** Up to accuracy 107 and from threshold 1 on, the loop ends from every table. */
  lemma {:induction false} LookaheadIsPath(pt: seq<PtSet>, hash: bv32 -> nat, sig: bv32, base: nat, ga: nat, thr: nat, depth: nat, conf: nat)
    requires TableOk(pt) && 1 <= thr && Losing(ga, depth, conf)
    ensures IsPath(pt, hash, sig, base, ga, thr, depth, conf, Lookahead(pt, hash, sig, base, ga, thr, depth, conf))
    decreases conf
  {
    hide NextSig, Advance;
    var t := pt[hash(sig) % PT_SET];
    if t.cSig > 0 {
      ScanMeaning(t, ga, thr, depth, conf);
      var r := ScanWays(t, ga, thr, depth, conf, PT_WAY);
      if r.queue != [] {
        var next, to := NextSig(sig, t.delta[r.way]), Advance(base, t.delta[r.way]);
        LookaheadIsPath(pt, hash, next, to, ga, thr, depth + 1, r.max);
        var rest := Lookahead(pt, hash, next, to, ga, thr, depth + 1, r.max);
        assert ([Level(sig, base, r.queue)] + rest)[1..] == rest;
      }
    }
  }

  function Queued(levels: seq<Level>): seq<Candidate> {
    if |levels| == 0 then [] else levels[0].queue + Queued(levels[1..])
  }

  // ---- The queue bound ----

  /** How many levels a path visits that keeps q percent of its confidence at each level, from the level of
      confidence c on. */
  function Straight(q: nat, thr: nat, c: nat): nat
    requires q < 100 && 1 <= thr
    decreases c
  {
    if c < thr then 0
    else
      ScaledMono(q, 99, c);
      1 + Straight(q, thr, q * c / 100)
  }

  lemma {:induction false} StraightMono(q: nat, q': nat, thr: nat, thr': nat, c: nat, c': nat)
    requires q <= q' < 100 && 1 <= thr' <= thr && c <= c'
    ensures Straight(q, thr, c) <= Straight(q', thr', c')
    decreases c
  {
    if c >= thr {
      ScaledMono(q, 99, c);
      ScaledMono(q', 99, c');
      ScaledMono(q, q', c);
      ScaledMono(c, c', q');
      StraightMono(q, q', thr, thr', q * c / 100, q' * c' / 100);
    }
  }

  /** From this threshold on a further candidate costs no less confidence than a further level. */
  const SIBLING_COST := 7

  /** Queueing k candidates on one level and following one of confidence m is no better than a straight
      path: the other candidates cost more confidence than the levels they replace. */
  lemma {:induction false} StraightGain(q: nat, thr: nat, m: nat, k: nat, c: nat)
    requires 93 <= q < 100 && SIBLING_COST <= thr <= m && (k * thr) + m <= c <= 93
    ensures k + Straight(q, thr, m) <= Straight(q, thr, c)
    decreases k
  {
    if k == 0 {
      StraightMono(q, q, thr, thr, m, c);
    } else {
      ScaledMono(93, q, c);
      ScaledMono(q, 99, c);
      ScaledMono(0, k, thr);
      assert k * thr == (k - 1) * thr + thr;
      StraightGain(q, thr, m, k - 1, q * c / 100);
    }
  }

  /** The most candidates one invocation can queue. */
  function MostQueued(ga: nat, thr: nat): nat
    requires ga <= LOSING_ACCURACY && 1 <= thr
  {
    Straight(KeptPercent(ga), thr, 93)
  }

  /** What a path can keep of its confidence at each level, in percent; at least 93. */
  function KeptPercent(ga: nat): (q: nat)
    requires ga <= LOSING_ACCURACY
    ensures 93 <= q < 100 && TopShare(ga) <= q
  {
    if TopShare(ga) < 93 then 93 else TopShare(ga)
  }

  lemma {:induction false} PathIsBounded(pt: seq<PtSet>, hash: bv32 -> nat, sig: bv32, base: nat, ga: nat, thr: nat, depth: nat, conf: nat)
    requires TableOk(pt) && SIBLING_COST <= thr && Losing(ga, depth, conf) && 0 < depth && conf <= 93
    ensures |Queued(Lookahead(pt, hash, sig, base, ga, thr, depth, conf))| <= Straight(KeptPercent(ga), thr, KeptPercent(ga) * conf / 100)
    decreases conf
  {
    hide NextSig, Advance, KeptPercent, TopShare, ScanWays, Straight;
    var t := pt[hash(sig) % PT_SET];
    if t.cSig > 0 {
      ScanMeaning(t, ga, thr, depth, conf);
      ScanCount(t, ga, thr, depth, conf);
      var r, q := ScanWays(t, ga, thr, depth, conf, PT_WAY), KeptPercent(ga);
      if r.queue != [] {
        ScaledMono(TopShare(ga), q, conf);
        ScaledMono(q, 99, conf);
        PathIsBounded(pt, hash, NextSig(sig, t.delta[r.way]), Advance(base, t.delta[r.way]), ga, thr, depth + 1, r.max);
        OneLevelGain(q, thr, r.max, |r.queue|, q * conf / 100);
      }
    }
  }

  lemma OneLevelGain(q: nat, thr: nat, m: nat, n: nat, c: nat)
    requires 93 <= q < 100 && SIBLING_COST <= thr <= m && n > 0 && (n - 1) * thr + m <= c <= 93
    ensures n + Straight(q, thr, q * m / 100) <= Straight(q, thr, c)
  {
    ScaledMono(q, 99, m);
    StraightGain(q, thr, m, n - 1, c);
  }

  /** With the threshold at 7 or more and an accuracy of at most 107, no invocation queues more. */
  lemma QueueIsBounded(pt: seq<PtSet>, hash: bv32 -> nat, sig: bv32, base: nat, ga: nat, thr: nat)
    requires TableOk(pt) && SIBLING_COST <= thr && ga <= LOSING_ACCURACY
    ensures |Queued(Lookahead(pt, hash, sig, base, ga, thr, 0, 100))| <= MostQueued(ga, thr)
  {
    hide NextSig, Advance, KeptPercent, ScanWays, Straight;
    var t := pt[hash(sig) % PT_SET];
    if t.cSig > 0 {
      ScanMeaning(t, ga, thr, 0, 100);
      ScanCount(t, ga, thr, 0, 100);
      var r := ScanWays(t, ga, thr, 0, 100, PT_WAY);
      if r.queue != [] {
        PathIsBounded(pt, hash, NextSig(sig, t.delta[r.way]), Advance(base, t.delta[r.way]), ga, thr, 1, r.max);
        OneLevelGain(KeptPercent(ga), thr, r.max, |r.queue|, 93);
      }
    }
  }

  // ---- Tables that attain it ----

  /** One delta has c of the hits of a signature counter that is about to overflow, the others none. */
  ghost predicate Hot(t: PtSet, c: nat) {
    |t.delta| == PT_WAY && t.cDelta == [c, 0, 0, 0] && t.cSig == C_SIG_MAX && c < C_SIG_MAX
  }

  /** Every signature leads to the same set. */
  ghost predicate Everywhere(pt: seq<PtSet>, hash: bv32 -> nat, t: PtSet) {
    |pt| == PT_SET && forall sig: bv32 :: pt[hash(sig) % PT_SET] == t
  }

  lemma HotScan(t: PtSet, c: nat, ga: nat, thr: nat, depth: nat, conf: nat)
    requires Hot(t, c) && thr <= Confidence(t, 0, ga, depth, conf) && 0 < Confidence(t, 0, ga, depth, conf)
    ensures var r := ScanWays(t, ga, thr, depth, conf, PT_WAY);
      r.queue != [] && r.way == 0 && r.max == Confidence(t, 0, ga, depth, conf)
  {
    hide Confidence, ScanWays;
    ScanFinds(t, ga, thr, depth, conf, PT_WAY);
    ColdWays(t, c, ga, depth, conf);
  }

  lemma ColdWays(t: PtSet, c: nat, ga: nat, depth: nat, conf: nat)
    requires Hot(t, c)
    ensures forall w :: 0 < w < PT_WAY ==> Confidence(t, w, ga, depth, conf) == 0
  {
    assert Share(0, C_SIG_MAX, ga) == 0 && Share(0, C_SIG_MAX, 100) == 0;
  }

  /** The confidence of the hot way below the first level, while it is losing. */
  lemma HotLoses(t: PtSet, ga: nat, depth: nat, conf: nat)
    requires Hot(t, 14) && ga <= LOSING_ACCURACY && depth > 0 && conf <= 93
    ensures Confidence(t, 0, ga, depth, conf) == TopShare(ga) * conf / 100 && TopShare(ga) < 100
  {
    assert Share(14, C_SIG_MAX, ga) == TopShare(ga) <= 99;
    ScaledMono(TopShare(ga), 99, conf);
  }

  lemma {:induction false} StraightPath(pt: seq<PtSet>, t: PtSet, hash: bv32 -> nat, sig: bv32, base: nat, ga: nat, thr: nat,
                                        depth: nat, conf: nat, levels: seq<Level>)
    requires TableOk(pt) && Hot(t, 14) && Everywhere(pt, hash, t)
    requires 1 <= thr && ga <= LOSING_ACCURACY && depth > 0 && conf <= 93
    requires IsPath(pt, hash, sig, base, ga, thr, depth, conf, levels)
    ensures TopShare(ga) < 100 && |Queued(levels)| >= Straight(TopShare(ga), thr, TopShare(ga) * conf / 100)
    decreases |levels|
  {
    hide NextSig, Advance, ScanWays, Confidence, TopShare;
    HotLoses(t, ga, depth, conf);
    assert pt[hash(sig) % PT_SET] == t;
    var next := TopShare(ga) * conf / 100;
    if next >= thr {
      ScaledMono(TopShare(ga), 99, conf);
      HotScan(t, 14, ga, thr, depth, conf);
      StraightPath(pt, t, hash, NextSig(sig, t.delta[0]), Advance(base, t.delta[0]), ga, thr, depth + 1, next, levels[1..]);
    }
  }

  /** An invocation that ends with pf_q_tail below L2C_MSHR_SIZE. */
  ghost predicate Fits(pt: seq<PtSet>, hash: bv32 -> nat, sig: bv32, base: nat, ga: nat, thr: nat)
    requires TableOk(pt)
  {
    exists levels :: IsPath(pt, hash, sig, base, ga, thr, 0, 100, levels) && |Queued(levels)| < L2C_MSHR_SIZE
  }

  /** From a hot set the whole path is straight. */
  lemma StraightQueues(pt: seq<PtSet>, t: PtSet, hash: bv32 -> nat, sig: bv32, base: nat, ga: nat, thr: nat, levels: seq<Level>)
    requires TableOk(pt) && Hot(t, 14) && Everywhere(pt, hash, t) && 1 <= thr && ga <= LOSING_ACCURACY
    requires IsPath(pt, hash, sig, base, ga, thr, 0, 100, levels)
    ensures TopShare(ga) < 100 && |Queued(levels)| >= Straight(TopShare(ga), thr, 93)
  {
    hide NextSig, Advance, ScanWays;
    assert pt[hash(sig) % PT_SET] == t;
    assert Confidence(t, 0, ga, 0, 100) == 93;
    if thr <= 93 {
      HotScan(t, 14, ga, thr, 0, 100);
      StraightPath(pt, t, hash, NextSig(sig, t.delta[0]), Advance(base, t.delta[0]), ga, thr, 1, 93, levels[1..]);
    }
  }

  lemma StraightOverruns(pt: seq<PtSet>, t: PtSet, hash: bv32 -> nat, sig: bv32, base: nat, ga: nat, thr: nat)
    requires TableOk(pt) && Hot(t, 14) && Everywhere(pt, hash, t) && 1 <= thr && ga <= LOSING_ACCURACY
    requires TopShare(ga) < 100 && Straight(TopShare(ga), thr, 93) >= L2C_MSHR_SIZE
    ensures !Fits(pt, hash, sig, base, ga, thr)
  {
    hide IsPath, TopShare;
    forall levels | IsPath(pt, hash, sig, base, ga, thr, 0, 100, levels) ensures |Queued(levels)| >= L2C_MSHR_SIZE {
      StraightQueues(pt, t, hash, sig, base, ga, thr, levels);
    }
  }

  // ---- Accuracies above 107 ----

  /** The most confidence that still fits into 32 bits after r more levels that add at most a fifth. */
  function Cap(r: nat): nat {
    if r == 0 then 0xFFFF_FFFF else 5 * Cap(r - 1) / 6
  }

  /** Four levels cost less than two thirds. */
  lemma CapFour(r: nat, x: nat)
    requires Cap(r) >= 3 * x && x >= 10
    ensures Cap(r + 4) >= x
  {
    assert Cap(r + 2) == 5 * (5 * Cap(r) / 6) / 6;
    assert Cap(r + 4) == 5 * (5 * Cap(r + 2) / 6) / 6;
  }

  lemma CapHolds()
    ensures Cap(31) >= 100
  {
    assert Cap(3) >= 218700;
    CapFour(3, 72900);
    CapFour(7, 24300);
    CapFour(11, 8100);
    CapFour(15, 2700);
    CapFour(19, 900);
    CapFour(23, 300);
    CapFour(27, 100);
  }

  lemma {:induction false} CapBound(r: nat)
    ensures Cap(r) < 0x1_0000_0000
  {
    if r > 0 {
      CapBound(r - 1);
    }
  }

  /** A path through hot sets that does not lose confidence goes on as long as its confidence fits. */
  lemma {:induction false} GrowingPath(pt: seq<PtSet>, t: PtSet, c: nat, hash: bv32 -> nat, sig: bv32, base: nat, ga: nat, thr: nat,
                                       depth: nat, conf: nat, levels: seq<Level>, r: nat)
    requires TableOk(pt) && Hot(t, c) && Everywhere(pt, hash, t)
    requires 100 <= Share(c, C_SIG_MAX, ga) <= 120 && depth > 0 && thr <= conf && 0 < conf <= Cap(r)
    requires IsPath(pt, hash, sig, base, ga, thr, depth, conf, levels)
    ensures |Queued(levels)| >= r
    decreases r
  {
    hide NextSig, Advance, ScanWays, Confidence;
    assert pt[hash(sig) % PT_SET] == t;
    if r > 0 {
      HotGrows(t, c, ga, depth, conf, r);
      HotScan(t, c, ga, thr, depth, conf);
      var next := Confidence(t, 0, ga, depth, conf);
      GrowingPath(pt, t, c, hash, NextSig(sig, t.delta[0]), Advance(base, t.delta[0]), ga, thr, depth + 1, next, levels[1..], r - 1);
    }
  }

  lemma HotGrows(t: PtSet, c: nat, ga: nat, depth: nat, conf: nat, r: nat)
    requires Hot(t, c) && 100 <= Share(c, C_SIG_MAX, ga) <= 120 && depth > 0 && conf <= Cap(r) && r > 0
    ensures conf <= Confidence(t, 0, ga, depth, conf) <= Cap(r - 1)
  {
    hide Share;
    var q := Share(c, C_SIG_MAX, ga);
    ScaledMono(100, q, conf);
    ScaledMono(q, 120, conf);
    CapBound(r - 1);
    GrowsWithin(q * conf, conf, Cap(r - 1));
  }

  lemma GrowsWithin(p: nat, conf: nat, top: nat)
    requires 100 * conf <= p <= 120 * conf && conf <= 5 * top / 6 && top < 0x1_0000_0000
    ensures conf <= p / 100 % 0x1_0000_0000 <= top
  {
  }

  lemma GrowingOverruns(pt: seq<PtSet>, t: PtSet, c: nat, hash: bv32 -> nat, sig: bv32, base: nat, ga: nat, thr: nat)
    requires TableOk(pt) && Hot(t, c) && Everywhere(pt, hash, t)
    requires 100 <= Share(c, C_SIG_MAX, ga) <= 120 && 6 <= c && thr <= 40
    ensures !Fits(pt, hash, sig, base, ga, thr)
  {
    hide NextSig, Advance, ScanWays;
    CapHolds();
    forall levels | IsPath(pt, hash, sig, base, ga, thr, 0, 100, levels) ensures |Queued(levels)| >= L2C_MSHR_SIZE {
      var conf := Confidence(t, 0, ga, 0, 100);
      assert pt[hash(sig) % PT_SET] == t;
      assert 40 <= conf <= 93;
      HotScan(t, c, ga, thr, 0, 100);
      GrowingPath(pt, t, c, hash, NextSig(sig, t.delta[0]), Advance(base, t.delta[0]), ga, thr, 1, conf, levels[1..], 31);
    }
  }

  lemma HotShare(ga: nat) returns (c: nat)
    requires LOSING_ACCURACY < ga <= 300
    ensures 6 <= c < C_SIG_MAX && 100 <= Share(c, C_SIG_MAX, ga) <= 120
  {
    c := (1500 + ga - 1) / ga;
    assert 1499 + ga == ga * c + (1499 + ga) % ga;
    HotProduct(ga, c, ga * c);
    c := if c == 5 then 6 else c;
  }

  lemma HotProduct(ga: nat, c: nat, p: nat)
    requires LOSING_ACCURACY < ga <= 300 && p == ga * c && 1500 <= p < 1500 + ga
    ensures 5 <= c < C_SIG_MAX && 100 <= p / C_SIG_MAX <= 120
  {
    Product(ga, c);
  }

  lemma Product(ga: nat, c: nat)
    ensures c <= 4 ==> ga * c <= 4 * ga
    ensures c >= 15 ==> ga * c >= 15 * ga
  {
    if c <= 4 {
      ScaledMono(c, 4, ga);
    } else if c >= 15 {
      ScaledMono(15, c, ga);
    }
  }

  // ---- The exact condition ----

  /** A table of hot sets. */
  function HotTable(c: nat): (pt: seq<PtSet>)
    requires c < C_SIG_MAX
    ensures TableOk(pt) && forall k :: 0 <= k < PT_SET ==> pt[k] == HotSet(c)
  {
    seq(PT_SET, _ => HotSet(c))
  }

  /** The fixed queues hold the candidates of every invocation. */
  predicate QueuesHold(ga: nat, thr: nat) {
    1 <= thr && ga <= LOSING_ACCURACY && MostQueued(ga, thr) < L2C_MSHR_SIZE
  }

  /** From every well-formed table the lookahead ends with pf_q_tail below L2C_MSHR_SIZE exactly when the
      straight path of the greatest share does. For every threshold of at least 7 with an accuracy of at
      most 107, and up to threshold 40 with every accuracy that occurs. */
  lemma QueuesHoldExactlyWhen(ga: nat, thr: nat, hash: bv32 -> nat, sig: bv32, base: nat)
    requires SIBLING_COST <= thr && ga <= 300 && (ga <= LOSING_ACCURACY || thr <= 40)
    ensures (forall pt :: TableOk(pt) ==> Fits(pt, hash, sig, base, ga, thr)) <==> QueuesHold(ga, thr)
  {
    hide IsPath, Lookahead, Straight, TopShare;
    if QueuesHold(ga, thr) {
      forall pt | TableOk(pt) ensures Fits(pt, hash, sig, base, ga, thr) {
        LookaheadIsPath(pt, hash, sig, base, ga, thr, 0, 100);
        QueueIsBounded(pt, hash, sig, base, ga, thr);
      }
    } else if ga <= LOSING_ACCURACY {
      AtLeastHundred(ga, thr);
      StraightOverruns(HotTable(14), HotSet(14), hash, sig, base, ga, thr);
    } else {
      var c := HotShare(ga);
      GrowingOverruns(HotTable(c), HotSet(c), c, hash, sig, base, ga, thr);
    }
  }

  lemma AtLeastHundred(ga: nat, thr: nat)
    requires SIBLING_COST <= thr && ga <= LOSING_ACCURACY && MostQueued(ga, thr) >= L2C_MSHR_SIZE
    ensures KeptPercent(ga) == TopShare(ga)
  {
    if TopShare(ga) < 93 {
      StraightMono(93, 93, thr, SIBLING_COST, 93, 93);
      StraightAt93Of7();
    }
  }

  /** Where q percent of the confidence means losing k, n levels lose k each. */
  lemma {:induction false} StraightRun(q: nat, thr: nat, c: nat, k: nat, n: nat)
    requires q < 100 && 1 <= thr && 0 < n && k * n <= c && thr <= c - k * (n - 1)
    requires 100 * (k - 1) < (100 - q) * (c - k * (n - 1)) && (100 - q) * c <= 100 * k
    ensures Straight(q, thr, c) == n + Straight(q, thr, c - k * n)
    decreases n
  {
    LosesExactly(q, c, k, c - k * (n - 1));
    if n > 1 {
      assert k * n == k * (n - 1) + k && k * (n - 1) == k * (n - 2) + k;
      ScaledMono(c - k, c, 100 - q);
      StraightRun(q, thr, c - k, k, n - 1);
    }
  }

  lemma LosesExactly(q: nat, c: nat, k: nat, low: nat)
    requires q < 100 && low <= c && 100 * (k - 1) < (100 - q) * low && (100 - q) * c <= 100 * k
    ensures k <= c && q * c / 100 == c - k
  {
    ScaledMono(low, c, 100 - q);
    assert (100 - q) * c == 100 * c - q * c;
  }

  lemma StraightEnd(q: nat, thr: nat, c: nat)
    requires q < 100 && 1 <= thr && c < thr
    ensures Straight(q, thr, c) == 0
  {
  }

  lemma StraightAt96()
    ensures Straight(96, 25, 93) == 26
  {
    hide Straight;
    StraightRun(96, 25, 93, 4, 5);
    StraightRun(96, 25, 73, 3, 8);
    StraightRun(96, 25, 49, 2, 12);
    StraightRun(96, 25, 25, 1, 1);
    StraightEnd(96, 25, 24);
  }

  lemma StraightAt97()
    ensures Straight(97, 25, 93) == 34
  {
    hide Straight;
    StraightRun(97, 25, 93, 3, 9);
    StraightRun(97, 25, 66, 2, 17);
    StraightRun(97, 25, 32, 1, 8);
    StraightEnd(97, 25, 24);
  }

  lemma StraightAt97Of40()
    ensures Straight(97, 40, 93) == 23
  {
    hide Straight;
    StraightRun(97, 40, 93, 3, 9);
    StraightRun(97, 40, 66, 2, 14);
    StraightEnd(97, 40, 38);
  }

  lemma StraightAt98()
    ensures Straight(98, 40, 93) == 32
  {
    hide Straight;
    StraightRun(98, 40, 93, 2, 22);
    StraightRun(98, 40, 49, 1, 10);
    StraightEnd(98, 40, 39);
  }

  lemma StraightAt93()
    ensures Straight(93, 4, 93) == 32
  {
    hide Straight;
    StraightRun(93, 4, 93, 7, 2);
    StraightRun(93, 4, 79, 6, 2);
    StraightRun(93, 4, 67, 5, 2);
    StraightRun(93, 4, 57, 4, 4);
    StraightRun(93, 4, 41, 3, 5);
    StraightRun(93, 4, 26, 2, 6);
    StraightRun(93, 4, 14, 1, 11);
    StraightEnd(93, 4, 3);
  }

  lemma StraightAt93Of7()
    ensures Straight(93, 7, 93) == 29
  {
    hide Straight;
    StraightRun(93, 7, 93, 7, 2);
    StraightRun(93, 7, 79, 6, 2);
    StraightRun(93, 7, 67, 5, 2);
    StraightRun(93, 7, 57, 4, 4);
    StraightRun(93, 7, 41, 3, 5);
    StraightRun(93, 7, 26, 2, 6);
    StraightRun(93, 7, 14, 1, 8);
    StraightEnd(93, 7, 6);
  }

  /** At the default threshold of 25 the queues hold exactly up to accuracy 103. */
  lemma HoldsAt25(ga: nat)
    ensures QueuesHold(ga, 25) <==> ga <= 103
  {
    hide Straight;
    if ga <= 103 {
      StraightAt96();
      StraightMono(KeptPercent(ga), 96, 25, 25, 93, 93);
    } else if ga <= LOSING_ACCURACY {
      StraightAt97();
      StraightMono(97, KeptPercent(ga), 25, 25, 93, 93);
    }
  }

  /** At the threshold of 40 in config/spp_dev2.ini, exactly up to accuracy 104. */
  lemma HoldsAt40(ga: nat)
    ensures QueuesHold(ga, 40) <==> ga <= 104
  {
    hide Straight;
    if ga <= 104 {
      StraightAt97Of40();
      StraightMono(KeptPercent(ga), 97, 40, 40, 93, 93);
    } else if ga <= LOSING_ACCURACY {
      StraightAt98();
      StraightMono(98, KeptPercent(ga), 40, 40, 93, 93);
    }
  }

  /** With a larger threshold or a smaller accuracy they hold as well. */
  lemma HoldsBelow(ga: nat, thr: nat, ga': nat, thr': nat)
    requires QueuesHold(ga', thr') && ga <= ga' && thr' <= thr
    ensures QueuesHold(ga, thr)
  {
    StraightMono(KeptPercent(ga), KeptPercent(ga'), thr, thr', 93, 93);
  }

  /** Below the thresholds that are used, even a percentage can overrun them. */
  lemma LowThresholdOverruns(thr: nat, hash: bv32 -> nat, sig: bv32, base: nat)
    requires 1 <= thr <= 4
    ensures TableOk(HotTable(14)) && !Fits(HotTable(14), hash, sig, base, 100, thr)
  {
    hide Straight, IsPath, HotTable;
    StraightAt93();
    StraightMono(93, 93, 4, thr, 93, 93);
    StraightOverruns(HotTable(14), HotSet(14), hash, sig, base, 100, thr);
  }

  /** No candidate reaches the confidence 100 that would defeat the history register's victim scan. */
  lemma {:induction false} CandidatesBelow94(pt: seq<PtSet>, hash: bv32 -> nat, sig: bv32, base: nat, ga: nat, thr: nat, depth: nat, conf: nat, l: nat, i: nat)
    requires TableOk(pt) && 1 <= thr && Losing(ga, depth, conf) && (depth > 0 ==> conf <= 93)
    requires var p := Lookahead(pt, hash, sig, base, ga, thr, depth, conf); l < |p| && i < |p[l].queue|
    ensures thr <= Lookahead(pt, hash, sig, base, ga, thr, depth, conf)[l].queue[i].conf <= 93
    decreases conf
  {
    var t := pt[hash(sig) % PT_SET];
    ScanMeaning(t, ga, thr, depth, conf);
    var r := ScanWays(t, ga, thr, depth, conf, PT_WAY);
    if l > 0 {
      CandidatesBelow94(pt, hash, NextSig(sig, t.delta[r.way]), Advance(base, t.delta[r.way]), ga, thr, depth + 1, r.max, l - 1, i);
    }
  }
}
