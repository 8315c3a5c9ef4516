/** The SPP prefetch filter and the two accuracy counters (prefetcher/spp_dev2_helper.cc,
    prefetcher/spp_dev2.cc): how many prefetches can be counted useful. */
module SppFilter {
  import opened Counting

  const FILTER_SET := 1024
  const GLOBAL_COUNTER_MAX := 1023

  /** `valid` means prefetched, `useful` means demanded. */
  datatype Slot = Slot(valid: bool, useful: bool, tag: nat)

  /** GHR.pf_useful and GHR.pf_issued */
  datatype Meter = Meter(useful: nat, issued: nat)

  datatype Filter = Filter(slots: seq<Slot>, meter: Meter)

  function Accuracy(m: Meter): nat {
    if m.issued > 0 then 100 * m.useful / m.issued else 0
  }

  // ---- PREFETCH_FILTER::check, one function per request type ----

  /** L2C_DEMAND */
  function Demand(f: Filter, q: nat, r: nat): (g: Filter)
    requires q < |f.slots|
    ensures |g.slots| == |f.slots|
  {
    var s := f.slots[q];
    if s.tag == r && !s.useful then
      Filter(f.slots[q := s.(useful := true)],
             if s.valid then f.meter.(useful := f.meter.useful + 1) else f.meter)
    else f
  }

  /** SPP_L2C_PREFETCH and SPP_LLC_PREFETCH: false means the line is already in the filter. */
  function Passes(f: Filter, q: nat, r: nat): bool
    requires q < |f.slots|
  {
    var s := f.slots[q];
    !((s.valid || s.useful) && s.tag == r)
  }

  /** L2C_EVICT */
  function Evict(f: Filter, q: nat): (g: Filter)
    requires q < |f.slots|
    ensures |g.slots| == |f.slots|
  {
    var s := f.slots[q];
    Filter(f.slots[q := Slot(false, false, 0)],
           if s.valid && !s.useful && f.meter.useful > 0 then f.meter.(useful := f.meter.useful - 1) else f.meter)
  }

  /** Counting an issued prefetch; at 1024 both counters are halved. */
  function CountIssue(m: Meter): Meter {
    if m.issued + 1 > GLOBAL_COUNTER_MAX then Meter(m.useful / 2, (m.issued + 1) / 2)
    else Meter(m.useful, m.issued + 1)
  }

  /** A prefetch into the L2 that passed: marked in the filter, then counted. */
  function IssueL2(f: Filter, q: nat, r: nat): (g: Filter)
    requires q < |f.slots|
    ensures |g.slots| == |f.slots|
  {
    Filter(f.slots[q := Slot(true, false, r)], CountIssue(f.meter))
  }

  // ---- Accounting ----

  function IsUnused(): Slot -> bool { (s: Slot) => s.valid && !s.useful }

  function Unused(f: Filter): nat { Count(f.slots, IsUnused()) }

  /** Exact accounting: every prefetch counted useful, or still able to be, is an issued one. */
  ghost predicate Exact(f: Filter) {
    f.meter.useful + Unused(f) <= f.meter.issued
  }

  /** The accounting that survives halving: up to one filter's worth of issued prefetches may have been
      forgotten, and then at least 512 are still counted. */
  ghost predicate Accounted(f: Filter) {
    && |f.slots| == FILTER_SET
    && f.meter.issued <= GLOBAL_COUNTER_MAX
    && f.meter.useful + Unused(f) <= f.meter.issued + FILTER_SET
    && (Exact(f) || f.meter.issued >= 512)
  }

  lemma DemandAccounted(f: Filter, q: nat, r: nat)
    requires q < |f.slots|
    ensures Demand(f, q, r).meter.useful + Unused(Demand(f, q, r)) == f.meter.useful + Unused(f)
    ensures Demand(f, q, r).meter.issued == f.meter.issued
  {
    CountUpdate(f.slots, q, f.slots[q].(useful := true), IsUnused());
  }

  lemma EvictAccounted(f: Filter, q: nat)
    requires q < |f.slots|
    ensures Evict(f, q).meter.useful + Unused(Evict(f, q)) <= f.meter.useful + Unused(f)
    ensures Unused(Evict(f, q)) == Unused(f) - (if IsUnused()(f.slots[q]) then 1 else 0)
    ensures Evict(f, q).meter.useful == if IsUnused()(f.slots[q]) && f.meter.useful > 0 then f.meter.useful - 1 else f.meter.useful
    ensures Evict(f, q).meter.issued == f.meter.issued
  {
    CountUpdate(f.slots, q, Slot(false, false, 0), IsUnused());
  }

  lemma IssueAccounted(f: Filter, q: nat, r: nat)
    requires Accounted(f) && q < |f.slots|
    ensures Accounted(IssueL2(f, q, r))
    ensures Exact(f) && f.meter.issued < GLOBAL_COUNTER_MAX ==> Exact(IssueL2(f, q, r))
  {
    CountUpdate(f.slots, q, Slot(true, false, r), IsUnused());
    CountBound(IssueL2(f, q, r).slots, IsUnused());
  }

  /** Halving forgets issued prefetches while the entries they left are still unused. An issue keeps the
      accounting exact exactly when it does not halve, or what stays counted useful and the unused entries
      after it fit into the 512 that stay counted as issued. */
  lemma IssueKeepsExactWhen(f: Filter, q: nat, r: nat)
    requires q < |f.slots| && Exact(f) && f.meter.issued <= GLOBAL_COUNTER_MAX
    ensures Exact(IssueL2(f, q, r)) <==>
      || f.meter.issued < GLOBAL_COUNTER_MAX
      || f.meter.useful / 2 + Unused(f) + (if IsUnused()(f.slots[q]) then 0 else 1) <= 512
  {
    CountUpdate(f.slots, q, Slot(true, false, r), IsUnused());
  }

  // ---- The accuracy ----

  /** The accuracy, a quotient, is at most 100 while the useful prefetches stay below 101 percent. */
  lemma PercentageExactlyWhen(m: Meter)
    ensures Accuracy(m) <= 100 <==> m.issued == 0 || 100 * m.useful < 101 * m.issued
  {
    if m.issued > 0 {
      QuotientBound(100 * m.useful, m.issued, 100);
    }
  }

  lemma QuotientBound(a: nat, b: nat, k: nat)
    requires 0 < b
    ensures a / b <= k <==> a < (k + 1) * b
  {
    var q := a / b;
    assert a == b * q + a % b;
    if q <= k {
      Times(b, k, q);
    } else {
      Times(b, q, k + 1);
    }
  }

  lemma Times(b: nat, q: nat, k: nat)
    requires q >= k
    ensures b * q >= b * k
  {
  }

  /** Exact accounting is what keeps the accuracy a percentage. */
  lemma ExactIsPercentage(f: Filter)
    requires Exact(f)
    ensures Accuracy(f.meter) <= 100
  {
    PercentageExactlyWhen(f.meter);
  }

  /** A demand takes the accuracy over 100 exactly when it finds a prefetch not demanded before, and
      that one brings the useful prefetches to 101 percent of the issued. */
  lemma DemandExceedsExactlyWhen(f: Filter, q: nat, r: nat)
    requires q < |f.slots| && Accuracy(f.meter) <= 100
    ensures Accuracy(Demand(f, q, r).meter) > 100 <==>
      && f.slots[q].valid && !f.slots[q].useful && f.slots[q].tag == r
      && f.meter.issued > 0 && 100 * (f.meter.useful + 1) >= 101 * f.meter.issued
  {
    PercentageExactlyWhen(f.meter);
    PercentageExactlyWhen(Demand(f, q, r).meter);
  }

  /** Issuing, halving and evicting never do. */
  lemma OnlyDemandsExceed(f: Filter, q: nat, r: nat)
    requires Accounted(f) && q < FILTER_SET && Accuracy(f.meter) <= 100
    ensures Accuracy(IssueL2(f, q, r).meter) <= 100 && Accuracy(Evict(f, q).meter) <= 100
  {
    PercentageExactlyWhen(f.meter);
    PercentageExactlyWhen(IssueL2(f, q, r).meter);
    PercentageExactlyWhen(Evict(f, q).meter);
  }

  /** No accounted filter has an accuracy above 300. */
  lemma AccuracyAtMost300(f: Filter)
    requires Accounted(f)
    ensures Accuracy(f.meter) <= 300
  {
    if Exact(f) {
      ExactIsPercentage(f);
    } else {
      QuotientBound(100 * f.meter.useful, f.meter.issued, 300);
    }
  }

  // ---- Runs of the filter ----

  datatype Request = Issued(q: nat, r: nat) | Demanded(q: nat, r: nat) | Evicted(q: nat)

  /** A prefetch is issued into the L2 only when it passes the filter. */
  predicate Possible(f: Filter, e: Request) {
    e.q < |f.slots| && (e.Issued? ==> Passes(f, e.q, e.r))
  }

  function Apply(f: Filter, e: Request): (g: Filter)
    requires Possible(f, e)
    ensures |g.slots| == |f.slots|
  {
    match e
    case Issued(q, r) => IssueL2(f, q, r)
    case Demanded(q, r) => Demand(f, q, r)
    case Evicted(q) => Evict(f, q)
  }

  /** `requests` lead from `f` to `g`. */
  ghost predicate FilterRun(f: Filter, requests: seq<Request>, g: Filter)
    decreases |requests|
  {
    if |requests| == 0 then f == g
    else Possible(f, requests[0]) && FilterRun(Apply(f, requests[0]), requests[1..], g)
  }

  ghost predicate IsEmptyFilter(f: Filter) {
    && |f.slots| == FILTER_SET && (forall q :: 0 <= q < FILTER_SET ==> f.slots[q] == Slot(false, false, 0))
    && f.meter == Meter(0, 0)
  }

  lemma EmptyAccounted(f: Filter)
    requires IsEmptyFilter(f)
    ensures Accounted(f) && Exact(f)
  {
    CountZero(f.slots, IsUnused());
  }

  lemma ApplyAccounted(f: Filter, e: Request)
    requires Accounted(f) && Possible(f, e)
    ensures Accounted(Apply(f, e))
  {
    match e
    case Issued(q, r) => IssueAccounted(f, q, r);
    case Demanded(q, r) => DemandAccounted(f, q, r);
    case Evicted(q) => EvictAccounted(f, q);
  }

  /** Over every run of the filter from empty, whatever is issued, demanded and evicted. */
  lemma {:induction false} RunAccuracy(f: Filter, requests: seq<Request>, g: Filter)
    requires Accounted(f) && FilterRun(f, requests, g)
    ensures Accounted(g) && Accuracy(g.meter) <= 300
    decreases |requests|
  {
    hide Apply, Accounted, Accuracy;
    if |requests| == 0 {
      AccuracyAtMost300(f);
    } else {
      ApplyAccounted(f, requests[0]);
      RunAccuracy(Apply(f, requests[0]), requests[1..], g);
    }
  }

  /** A line that the filter refuses, it goes on refusing until its entry is evicted or taken by another
      line. */
  lemma {:induction false} RefusedUntilReplaced(f: Filter, requests: seq<Request>, g: Filter, q: nat, r: nat)
    requires q < |f.slots| && FilterRun(f, requests, g) && !Passes(f, q, r)
    requires forall i :: 0 <= i < |requests| ==> requests[i].q != q || requests[i].Demanded?
    ensures q < |g.slots| && !Passes(g, q, r)
    decreases |requests|
  {
    if |requests| > 0 {
      RefusedUntilReplaced(Apply(f, requests[0]), requests[1..], g, q, r);
    }
  }

  /** The line that an entry stands for: the one last prefetched into it since its last eviction, whether demanded
      or not. An entry without a prefetch stands for a line only when a demand finds the cleared tag 0. */
  function Owner(owner: Option<nat>, e: Request, q: nat): Option<nat> {
    if e.q != q then owner
    else
      match e
      case Issued(_, r) => Some(r)
      case Demanded(_, r) => if owner.None? && r == 0 then Some(0) else owner
      case Evicted(_) => None
  }

  function OwnerAfter(owner: Option<nat>, requests: seq<Request>, q: nat): Option<nat>
    decreases |requests|
  {
    if |requests| == 0 then owner else OwnerAfter(Owner(owner, requests[0], q), requests[1..], q)
  }

  ghost predicate StandsFor(s: Slot, owner: Option<nat>) {
    if owner.None? then !s.valid && !s.useful && s.tag == 0 else (s.valid || s.useful) && s.tag == owner.value
  }

  /** Over every run, the filter refuses exactly the lines that its entries stand for. */
  lemma {:induction false} RefusesExactly(f: Filter, requests: seq<Request>, g: Filter, q: nat, r: nat, owner: Option<nat>)
    requires q < |f.slots| && FilterRun(f, requests, g) && StandsFor(f.slots[q], owner)
    ensures q < |g.slots| && StandsFor(g.slots[q], OwnerAfter(owner, requests, q))
    ensures !Passes(g, q, r) <==> OwnerAfter(owner, requests, q) == Some(r)
    decreases |requests|
  {
    if |requests| > 0 {
      RefusesExactly(Apply(f, requests[0]), requests[1..], g, q, r, Owner(owner, requests[0], q));
    }
  }

  /** In particular from an empty filter. */
  lemma RefusesOwners(f: Filter, requests: seq<Request>, g: Filter, q: nat, r: nat)
    requires IsEmptyFilter(f) && FilterRun(f, requests, g) && q < FILTER_SET
    ensures q < |g.slots| && (!Passes(g, q, r) <==> OwnerAfter(None, requests, q) == Some(r))
  {
    RefusesExactly(f, requests, g, q, r, None);
  }

  lemma {:induction false} RunThen(f: Filter, one: seq<Request>, g: Filter, two: seq<Request>, h: Filter)
    requires FilterRun(f, one, g) && FilterRun(g, two, h)
    ensures FilterRun(f, one + two, h)
    decreases |one|
  {
    if |one| == 0 {
      assert one + two == two;
    } else {
      RunThen(Apply(f, one[0]), one[1..], g, two, h);
      assert (one + two)[1..] == one[1..] + two;
    }
  }

  /** The first n entries prefetched, of these the first k demanded. */
  function Prefilled(n: nat, k: nat, m: Meter): (f: Filter)
    ensures |f.slots| == FILTER_SET
  {
    Filter(seq(FILTER_SET, i => Slot(i < n, i < k, 0)), m)
  }

  /** Prefetches into every entry from the n-th on. */
  lemma {:induction false} IssueAll(n: nat) returns (requests: seq<Request>)
    requires n <= GLOBAL_COUNTER_MAX
    ensures FilterRun(Prefilled(n, 0, Meter(0, n)), requests, Prefilled(FILTER_SET, 0, Meter(0, 512)))
    decreases FILTER_SET - n
  {
    var f, e := Prefilled(n, 0, Meter(0, n)), Issued(n, 0);
    var next := if n == GLOBAL_COUNTER_MAX then Meter(0, 512) else Meter(0, n + 1);
    assert Apply(f, e) == Prefilled(n + 1, 0, next) by {
      assert Apply(f, e).slots == Prefilled(n + 1, 0, next).slots;
    }
    var rest := [];
    if n < GLOBAL_COUNTER_MAX {
      rest := IssueAll(n + 1);
    }
    requests := [e] + rest;
    assert requests[1..] == rest;
  }

  /** Demands for every entry from the k-th on. */
  lemma {:induction false} DemandAll(k: nat) returns (requests: seq<Request>)
    requires k <= FILTER_SET
    ensures FilterRun(Prefilled(FILTER_SET, k, Meter(k, 512)), requests, Prefilled(FILTER_SET, FILTER_SET, Meter(FILTER_SET, 512)))
    decreases FILTER_SET - k
  {
    requests := [];
    if k < FILTER_SET {
      var f, e := Prefilled(FILTER_SET, k, Meter(k, 512)), Demanded(k, 0);
      assert Apply(f, e) == Prefilled(FILTER_SET, k + 1, Meter(k + 1, 512)) by {
        assert Apply(f, e).slots == Prefilled(FILTER_SET, k + 1, Meter(k + 1, 512)).slots;
      }
      var rest := DemandAll(k + 1);
      requests := [e] + rest;
      assert requests[1..] == rest;
    }
  }

  /** From an empty filter, issuing into all 1024 entries halves the counters once; when all the lines are
      demanded then, the accuracy is 200: exact accounting does not survive halving. */
  lemma HalvingReaches200(f: Filter)
    requires IsEmptyFilter(f)
    ensures exists requests, g :: FilterRun(f, requests, g) && !Exact(g) && Accuracy(g.meter) == 200
  {
    assert f == Prefilled(0, 0, Meter(0, 0)) by {
      assert f.slots == Prefilled(0, 0, Meter(0, 0)).slots;
    }
    var one := IssueAll(0);
    var two := DemandAll(0);
    var g := Prefilled(FILTER_SET, FILTER_SET, Meter(FILTER_SET, 512));
    RunThen(f, one, Prefilled(FILTER_SET, 0, Meter(0, 512)), two, g);
    assert Accuracy(g.meter) == 200;
  }
}
