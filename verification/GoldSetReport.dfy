/** The comparison itself: it collects the faults in a list, then reports them in
    canonical order. */
module GoldSetReport {
  import opened Common
  import opened Collections
  import opened Sorting
  import opened GoldSetTypes
  import opened GoldSetFaults
  import opened GoldSetExpiry

  lemma ElementsAppend<T>(a: seq<T>, b: seq<T>)
    ensures Elements(a + b) == Elements(a) + Elements(b)
  {
  }

  lemma WholePrefix<T>(s: seq<T>)
    ensures s[..|s|] == s
  {
  }

  lemma UnionStep<T, U>(s: seq<T>, i: nat, f: T -> set<U>)
    requires i < |s|
    ensures UnionOf(s[..i + 1], f) == UnionOf(s[..i], f) + f(s[i])
  {
    assert s[..i + 1][..i] == s[..i];
  }

  lemma SumStep<T, U>(s: seq<T>, i: nat, f: T -> multiset<U>)
    requires i < |s|
    ensures SumOf(s[..i + 1], f) == SumOf(s[..i], f) + f(s[i])
  {
    assert s[..i + 1][..i] == s[..i];
  }

  // ---------- One plan ----------

  method CompareFields(sha: Hash, gold: GoldPlan, plan: VendorPlan) returns (faults: seq<Item>)
    ensures Elements(faults) == MissingFields(sha, gold, plan)
  {
    faults := [];
    var rest := plan.material.Keys;
    ghost var done: set<Id> := {};
    while rest != {}
      invariant rest + done == plan.material.Keys && rest !! done
      invariant Elements(faults) == set f | f in done && f in plan.material && !IsLabelled(gold, f) :: UnlabelledField(sha, plan, f)
      decreases |rest|
    {
      var f :| f in rest;
      rest := rest - {f};
      if !IsLabelled(gold, f) {
        ElementsAppend(faults, [UnlabelledField(sha, plan, f)]);
        faults := faults + [UnlabelledField(sha, plan, f)];
      }
      done := done + {f};
    }
    assert done == plan.material.Keys;
  }

  method CompareLabel(sha: Hash, plan: VendorPlan, at: Time, l: Label) returns (faults: seq<Item>)
    ensures Elements(faults) == LabelFaults(sha, plan, at, l)
  {
    var subject := PlanPart(plan.vendor, plan.plan, l.field);
    if l.field !in plan.material {
      return [Fault(sha, ExtraField, subject, Some(Hex(l.value)), None)];
    }
    faults := [];
    var actual := plan.material[l.field];
    if l.value != actual {
      faults := faults + [Fault(sha, FieldMismatch, subject, Some(Hex(l.value)), Some(Hex(actual)))];
    }
    var sources := SourcesOf(plan, l.field);
    if sources != l.sources {
      faults := faults + [Fault(sha, SourceMismatch, subject, Some(Sources(l.sources)), Some(Sources(sources)))];
    }
    if l.labeledAt > at || l.expiresAt <= at {
      faults := faults + [Fault(sha, LabelNotCurrent, subject, Some(CurrentAt(at)),
                                Some(Period(Labeled, l.labeledAt, l.expiresAt)))];
    }
  }

  method CompareLabels(sha: Hash, gold: GoldPlan, plan: VendorPlan, at: Time) returns (faults: seq<Item>)
    ensures Elements(faults) == UnionOf(gold.labels, (l: Label) => LabelFaults(sha, plan, at, l))
  {
    faults := [];
    ghost var f := (l: Label) => LabelFaults(sha, plan, at, l);
    for i := 0 to |gold.labels|
      invariant Elements(faults) == UnionOf(gold.labels[..i], f)
    {
      var more := CompareLabel(sha, plan, at, gold.labels[i]);
      ElementsAppend(faults, more);
      UnionStep(gold.labels, i, f);
      faults := faults + more;
    }
    WholePrefix(gold.labels);
  }

  method CollectEvidence(e: Evidence, capturedAt: Time, at: Time)
    returns (future: multiset<(Id, Digest)>, denied: multiset<(Id, Denial)>)
    ensures future == FutureAt(e, at) && denied == DenialsAt(e, capturedAt, at)
  {
    future, denied := multiset{}, multiset{};
    ghost var f := (p: Pointer) => if p.retrievedAt > at then multiset{(e.field, p.sha)} else multiset{};
    ghost var d := (p: Pointer) => PointerDenials(p, e.field, capturedAt, at);
    for i := 0 to |e.pointers|
      invariant future == SumOf(e.pointers[..i], f) && denied == SumOf(e.pointers[..i], d)
    {
      var p := e.pointers[i];
      SumStep(e.pointers, i, f);
      SumStep(e.pointers, i, d);
      if p.retrievedAt > at {
        future := future + multiset{(e.field, p.sha)};
      }
      denied := denied + PointerDenials(p, e.field, capturedAt, at);
    }
    WholePrefix(e.pointers);
  }

  method CompareEvidence(sha: Hash, plan: VendorPlan, at: Time) returns (faults: seq<Item>)
    ensures Elements(faults) == EvidenceFaults(sha, plan, at)
  {
    var future: multiset<(Id, Digest)>, denied: multiset<(Id, Denial)> := multiset{}, multiset{};
    ghost var f := (e: Evidence) => FutureAt(e, at);
    ghost var d := (e: Evidence) => DenialsAt(e, plan.capturedAt, at);
    for i := 0 to |plan.evidence|
      invariant future == SumOf(plan.evidence[..i], f) && denied == SumOf(plan.evidence[..i], d)
    {
      var moreFuture, moreDenied := CollectEvidence(plan.evidence[i], plan.capturedAt, at);
      SumStep(plan.evidence, i, f);
      SumStep(plan.evidence, i, d);
      future, denied := future + moreFuture, denied + moreDenied;
    }
    WholePrefix(plan.evidence);
    var key := PlanKey(plan.vendor, plan.plan);
    faults := [];
    if future != multiset{} {
      faults := faults + [Fault(sha, CandidateNotCurrent, key, Some(RetrievedBy(at)), Some(Future(future)))];
    }
    if denied != multiset{} {
      faults := faults + [Fault(sha, RightsInvalid, key, Some(RequiredRights), Some(Denied(denied)))];
    }
  }

  method CompareExpectations(sha: Hash, tco: Tco, gold: GoldPlan, plan: VendorPlan, at: Time) returns (faults: seq<Item>)
    ensures Elements(faults) == UnionOf(gold.expectations, (e: Expectation) => ExpectationFaults(sha, tco, plan, at, e))
  {
    faults := [];
    ghost var f := (e: Expectation) => ExpectationFaults(sha, tco, plan, at, e);
    for i := 0 to |gold.expectations|
      invariant Elements(faults) == UnionOf(gold.expectations[..i], f)
    {
      var e := gold.expectations[i];
      var more: seq<Item> := [];
      if e.labeledAt > at || e.expiresAt <= at {
        more := [Fault(sha, LabelNotCurrent, PlanPart(plan.vendor, plan.plan, e.scenario), Some(CurrentAt(at)),
                       Some(Period(Labeled, e.labeledAt, e.expiresAt)))];
      }
      var cost := TcoFault(sha, tco, plan, e);
      if cost.Some? {
        more := more + [cost.value];
      }
      ElementsAppend(faults, more);
      UnionStep(gold.expectations, i, f);
      faults := faults + more;
    }
    WholePrefix(gold.expectations);
  }

  method ComparePlan(sha: Hash, tco: Tco, gold: GoldPlan, plan: VendorPlan, at: Time) returns (faults: seq<Item>)
    ensures Elements(faults) == PlanFaults(sha, tco, gold, plan, at)
  {
    var fields := CompareFields(sha, gold, plan);
    var labels := CompareLabels(sha, gold, plan, at);
    var evidence := CompareEvidence(sha, plan, at);
    var expectations := CompareExpectations(sha, tco, gold, plan, at);
    ElementsAppend(fields, labels);
    ElementsAppend(fields + labels, evidence);
    ElementsAppend(fields + labels + evidence, expectations);
    faults := fields + labels + evidence + expectations;
  }

  // ---------- The batch ----------

  method CompareGoldPlans(sha: Hash, tco: Tco, g: GoldSet, c: Batch, at: Time) returns (faults: seq<Item>)
    ensures Elements(faults) == UnionOf(g.plans, (p: GoldPlan) => GoldPlanFaults(sha, tco, c, at, p))
  {
    faults := [];
    ghost var f := (p: GoldPlan) => GoldPlanFaults(sha, tco, c, at, p);
    for i := 0 to |g.plans|
      invariant Elements(faults) == UnionOf(g.plans[..i], f)
    {
      var gold := g.plans[i];
      var found := Find(c.plans, Key(gold));
      var more: seq<Item> := [];
      if found.None? {
        more := [Fault(sha, MissingPlan, PlanKey(gold.vendor, gold.plan), Some(Hex(GoldPlanHash(sha, gold))), None)];
      } else {
        var plan := found.value.plan;
        var late: seq<Item> := [];
        if plan.capturedAt > at || plan.effectiveAt > at {
          late := [Fault(sha, CandidateNotCurrent, PlanKey(gold.vendor, gold.plan), Some(NotFutureAt(at)),
                         Some(Period(CapturedEffective, plan.capturedAt, plan.effectiveAt)))];
        }
        more := ComparePlan(sha, tco, gold, plan, at);
        ElementsAppend(late, more);
        more := late + more;
      }
      ElementsAppend(faults, more);
      UnionStep(g.plans, i, f);
      faults := faults + more;
    }
    WholePrefix(g.plans);
  }

  method CompareCandidates(sha: Hash, g: GoldSet, c: Batch) returns (faults: seq<Item>)
    ensures Elements(faults) == UnionOf(c.plans, (q: CandidatePlan) => CandidateFaults(sha, g, q))
  {
    faults := [];
    ghost var f := (q: CandidatePlan) => CandidateFaults(sha, g, q);
    for i := 0 to |c.plans|
      invariant Elements(faults) == UnionOf(c.plans[..i], f)
    {
      var q := c.plans[i];
      UnionStep(c.plans, i, f);
      if !Expected(g.plans, CandidateKey(q)) {
        var more := [Fault(sha, ExtraPlan, PlanKey(q.plan.vendor, q.plan.plan), None, Some(Hex(q.sha)))];
        ElementsAppend(faults, more);
        faults := faults + more;
      }
    }
    WholePrefix(c.plans);
  }

  method CollectFailures(sha: Hash, c: Batch) returns (faults: seq<Item>)
    ensures Elements(faults) == UnionOf(c.failures, (f: Failure) => {ParseFault(sha, f)})
  {
    faults := [];
    ghost var f := (f: Failure) => {ParseFault(sha, f)};
    for i := 0 to |c.failures|
      invariant Elements(faults) == UnionOf(c.failures[..i], f)
    {
      UnionStep(c.failures, i, f);
      ElementsAppend(faults, [ParseFault(sha, c.failures[i])]);
      faults := faults + [ParseFault(sha, c.failures[i])];
    }
    WholePrefix(c.failures);
  }

  function When(fails: bool, fault: Item): (faults: seq<Item>)
    ensures Elements(faults) == if fails then {fault} else {}
  {
    if fails then [fault] else []
  }

  method CheckHeader(sha: Hash, g: GoldSet, c: Batch, at: Time, coverage: bool) returns (faults: seq<Item>)
    requires |c.plans| + |c.failures| > 0 && coverage == FullCoverage(g.plans)
    ensures Elements(faults) == HeaderFaults(sha, g, c, at)
  {
    var partial := When(!coverage, Fault(sha, PartialGoldset, Named(GoldsetName, g.id), Some(CoverageRule),
                                         Some(CoverageOf(g.plans))));
    var stale := When(g.createdAt > at || g.expiresAt <= at,
                      Fault(sha, GoldsetNotCurrent, Named(GoldsetName, g.id), Some(CurrentAt(at)),
                            Some(Period(Created, g.createdAt, g.expiresAt))));
    var late := When(c.capturedAt > at || c.expiresAt <= at,
                     Fault(sha, CandidateNotCurrent, Named(CandidateName, c.receipt), Some(CurrentAt(at)),
                           Some(Period(Captured, c.capturedAt, c.expiresAt))));
    var manifest := RightsManifest(sha, CandidatePlans(c));
    var rights := When(manifest != Some(g.rights),
                       Fault(sha, RightsInvalid, Named(RightsBundleName, g.id), Some(Hex(g.rights)),
                             Some(if manifest.Some? then Hex(manifest.value) else ErrorName(0))));
    var rate := When(FailureStop(c), Fault(sha, ParserFailureRate, Named(ParserName, c.parser), Some(Ratio(0.20)),
                                           Some(Ratio(FailureRate(c)))));
    ElementsAppend(partial, stale);
    ElementsAppend(partial + stale, late);
    ElementsAppend(partial + stale + late, rights);
    ElementsAppend(partial + stale + late + rights, rate);
    faults := partial + stale + late + rights + rate;
  }

  method CheckCoverage(plans: seq<GoldPlan>) returns (ok: bool)
    ensures ok == FullCoverage(plans)
  {
    if |Vendors(plans)| < 3 {
      return false;
    }
    var rest := Vendors(plans);
    while rest != {}
      invariant rest <= Vendors(plans)
      invariant forall v | v in Vendors(plans) - rest :: PlansOf(plans, v) >= 6 && 60 <= LabelsOf(plans, v) <= 150
      decreases |rest|
    {
      var v :| v in rest;
      if PlansOf(plans, v) < 6 || !(60 <= LabelsOf(plans, v) <= 150) {
        return false;
      }
      rest := rest - {v};
    }
    return true;
  }

  // ---------- Expiry ----------

  function PointerExpiries(p: Pointer, capturedAt: Time): (deadlines: seq<Time>)
    ensures Elements(deadlines) == PointerDeadlines(p, capturedAt)
  {
    [p.policy.reviewDueAt]
    + (if p.policy.retentionDays.Some? then [capturedAt + p.policy.retentionDays.value * DAY] else [])
    + (if p.deleteAfter.Some? then [p.deleteAfter.value] else [])
  }

  method EvidenceExpiries(e: Evidence, capturedAt: Time) returns (deadlines: seq<Time>)
    ensures Elements(deadlines) == EvidenceDeadlines(e, capturedAt)
  {
    deadlines := [];
    ghost var f := (p: Pointer) => PointerDeadlines(p, capturedAt);
    for i := 0 to |e.pointers|
      invariant Elements(deadlines) == UnionOf(e.pointers[..i], f)
    {
      var more := PointerExpiries(e.pointers[i], capturedAt);
      ElementsAppend(deadlines, more);
      UnionStep(e.pointers, i, f);
      deadlines := deadlines + more;
    }
    WholePrefix(e.pointers);
  }

  method CandidateExpiries(q: CandidatePlan) returns (deadlines: seq<Time>)
    ensures Elements(deadlines) == CandidateDeadlines(q)
  {
    deadlines := [];
    ghost var f := (e: Evidence) => EvidenceDeadlines(e, q.plan.capturedAt);
    for i := 0 to |q.plan.evidence|
      invariant Elements(deadlines) == UnionOf(q.plan.evidence[..i], f)
    {
      var more := EvidenceExpiries(q.plan.evidence[i], q.plan.capturedAt);
      UnionStep(q.plan.evidence, i, f);
      ElementsAppend(deadlines, more);
      deadlines := deadlines + more;
    }
    WholePrefix(q.plan.evidence);
  }

  method GoldExpiries(p: GoldPlan) returns (deadlines: seq<Time>)
    ensures Elements(deadlines) == GoldDeadlines(p)
  {
    deadlines := [];
    for i := 0 to |p.labels|
      invariant Elements(deadlines) == set l | l in p.labels[..i] :: l.expiresAt
    {
      assert p.labels[..i + 1] == p.labels[..i] + [p.labels[i]];
      ElementsAppend(deadlines, [p.labels[i].expiresAt]);
      deadlines := deadlines + [p.labels[i].expiresAt];
    }
    WholePrefix(p.labels);
    for i := 0 to |p.expectations|
      invariant Elements(deadlines) == (set l | l in p.labels :: l.expiresAt) + set e | e in p.expectations[..i] :: e.expiresAt
    {
      assert p.expectations[..i + 1] == p.expectations[..i] + [p.expectations[i]];
      ElementsAppend(deadlines, [p.expectations[i].expiresAt]);
      deadlines := deadlines + [p.expectations[i].expiresAt];
    }
    WholePrefix(p.expectations);
  }

  method ReportExpiry(g: GoldSet, c: Batch) returns (expiry: Time)
    ensures IsLeast(expiry, Deadlines(g, c))
  {
    var deadlines := [g.expiresAt, c.expiresAt];
    for i := 0 to |g.plans|
      invariant Elements(deadlines) == {g.expiresAt, c.expiresAt} + UnionOf(g.plans[..i], GoldDeadlines)
    {
      var more := GoldExpiries(g.plans[i]);
      ElementsAppend(deadlines, more);
      UnionStep(g.plans, i, GoldDeadlines);
      deadlines := deadlines + more;
    }
    WholePrefix(g.plans);
    for i := 0 to |c.plans|
      invariant Elements(deadlines) == {g.expiresAt, c.expiresAt} + UnionOf(g.plans, GoldDeadlines)
                                       + UnionOf(c.plans[..i], CandidateDeadlines)
    {
      var more := CandidateExpiries(c.plans[i]);
      ElementsAppend(deadlines, more);
      UnionStep(c.plans, i, CandidateDeadlines);
      deadlines := deadlines + more;
    }
    WholePrefix(c.plans);
    NoElements(deadlines);
    expiry := Minimum(deadlines);
  }

  // ---------- The report ----------

  /** Everything a report reads off its inputs. */
  datatype Parts = Parts(
    goldset: Digest, content: Digest, rights: Digest, batch: Digest, at: Time, deadlines: set<Time>,
    vendors: nat, plans: nat, labels: nat, candidates: nat, failures: nat, failureRate: real,
    failureStop: bool, coverage: bool, faults: set<Item>)

  ghost function PartsOf(sha: Hash, tco: Tco, g: GoldSet, c: Batch, at: Time): Parts
    requires |c.plans| + |c.failures| > 0
  {
    PartsWith(sha, g, c, at, Deadlines(g, c), Faults(sha, tco, g, c, at))
  }

  ghost function PartsWith(sha: Hash, g: GoldSet, c: Batch, at: Time, deadlines: set<Time>, faults: set<Item>): Parts
    requires |c.plans| + |c.failures| > 0
  {
    Parts(g.id, GoldSetHash(sha, g), g.rights, BatchHash(sha, c), at, deadlines, |Vendors(g.plans)|, |g.plans|,
          LabelCount(g.plans), |c.plans|, |c.failures|, FailureRate(c), FailureStop(c), FullCoverage(g.plans), faults)
  }

  /** The counts and digests as they are, the least deadline, the faults in canonical
      order, ready when there is nothing to hold, and sealed with its own digest. */
  ghost predicate Reports(sha: Hash, p: Parts, sealed: SealedReport) {
    var r := sealed.report;
    && r.goldset == p.goldset && r.content == p.content && r.rights == p.rights && r.batch == p.batch && r.at == p.at
    && IsLeast(r.expiresAt, p.deadlines)
    && r.vendors == p.vendors && r.plans == p.plans && r.labels == p.labels
    && r.candidates == p.candidates && r.failures == p.failures && r.failureRate == p.failureRate
    && r.failureStop == p.failureStop && r.coverage == p.coverage
    && Sorted(r.quarantines, Before) && Elements(r.quarantines) == p.faults
    && (r.ready <==> r.coverage && !r.failureStop && r.quarantines == [])
    && sealed.sha == sha(ReportPayload(r))
  }

  ghost predicate Correct(sha: Hash, tco: Tco, g: GoldSet, c: Batch, at: Time, sealed: SealedReport)
    requires |c.plans| + |c.failures| > 0
  {
    Reports(sha, PartsOf(sha, tco, g, c, at), sealed)
  }

  /** The report's own validator. */
  ghost predicate ValidReport(sha: Hash, sealed: SealedReport) {
    var r := sealed.report;
    && Sorted(r.quarantines, Before)
    && (r.ready <==> r.coverage && !r.failureStop && r.quarantines == [])
    && sealed.sha == sha(ReportPayload(r))
  }

  method CollectFaults(sha: Hash, tco: Tco, g: GoldSet, c: Batch, at: Time, coverage: bool) returns (faults: seq<Item>)
    requires |c.plans| + |c.failures| > 0 && coverage == FullCoverage(g.plans)
    ensures Elements(faults) == Faults(sha, tco, g, c, at)
  {
    var header := CheckHeader(sha, g, c, at, coverage);
    var failures := CollectFailures(sha, c);
    var plans := CompareGoldPlans(sha, tco, g, c, at);
    var extra := CompareCandidates(sha, g, c);
    ElementsAppend(header, failures);
    ElementsAppend(header + failures, plans);
    ElementsAppend(header + failures + plans, extra);
    faults := header + failures + plans + extra;
  }

  method EvaluateGoldSet(sha: Hash, tco: Tco, g: GoldSet, c: Batch, at: Time) returns (sealed: SealedReport)
    requires |c.plans| + |c.failures| > 0
    ensures Correct(sha, tco, g, c, at, sealed) && ValidReport(sha, sealed)
  {
    var coverage := CheckCoverage(g.plans);
    var faults := CollectFaults(sha, tco, g, c, at, coverage);
    var expiry := ReportExpiry(g, c);
    BeforeIsStrict(faults);
    SortSorts(faults, Before);
    var quarantines := Sort(faults, Before);
    var report := Report(
      g.id, GoldSetHash(sha, g), g.rights, BatchHash(sha, c), at, expiry, |Vendors(g.plans)|, |g.plans|,
      LabelCount(g.plans), |c.plans|, |c.failures|, FailureRate(c), FailureStop(c), coverage,
      coverage && !FailureStop(c) && quarantines == [], quarantines);
    sealed := SealedReport(report, sha(ReportPayload(report)));
  }

  /** A ready report is a ready comparison. */
  lemma ReportReadyIff(sha: Hash, tco: Tco, g: GoldSet, c: Batch, at: Time, sealed: SealedReport)
    requires |c.plans| + |c.failures| > 0 && Correct(sha, tco, g, c, at, sealed)
    ensures sealed.report.ready <==> Ready(sha, tco, g, c, at)
  {
    NoElements(sealed.report.quarantines);
  }

  /** The report of ready inputs is ready again at every instant up to its expiry. */
  lemma ReadyReportLasts(sha: Hash, tco: Tco, g: GoldSet, c: Batch, at: Time, first: SealedReport, later: Time,
                         second: SealedReport)
    requires |c.plans| + |c.failures| > 0
    requires Correct(sha, tco, g, c, at, first) && Correct(sha, tco, g, c, later, second)
    requires first.report.ready && at <= later < first.report.expiresAt
    ensures second.report.ready && second.report.expiresAt == first.report.expiresAt
  {
    ReportReadyIff(sha, tco, g, c, at, first);
    ReportReadyIff(sha, tco, g, c, later, second);
    ReadyUntilExpiry(sha, tco, g, c, at, later, first.report.expiresAt);
  }
}
