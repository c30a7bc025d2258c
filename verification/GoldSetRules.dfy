/** Which fault the comparison raises for which input, with what it says was expected and
    found. */
module GoldSetRules {
  import opened Common
  import opened Collections
  import opened Sorting
  import opened GoldSetTypes
  import opened GoldSetFaults
  import opened GoldSetExpiry
  import opened GoldSetReport
  import opened GoldSetOrder

  function Both(sha: Hash, reason: Reason, subject: Value, expected: Value, actual: Value): Item {
    Item(reason, sha(subject), Some(sha(expected)), Some(sha(actual)))
  }

  function OnlyExpected(sha: Hash, reason: Reason, subject: Value, expected: Value): Item {
    Item(reason, sha(subject), Some(sha(expected)), None)
  }

  function OnlyActual(sha: Hash, reason: Reason, subject: Value, actual: Value): Item {
    Item(reason, sha(subject), None, Some(sha(actual)))
  }

  // ---------- One plan ----------

  /** What a labelled field of the plan is faulted for. */
  ghost predicate LabelRaises(sha: Hash, plan: VendorPlan, at: Time, l: Label, x: Item) {
    var subject := PlanPart(plan.vendor, plan.plan, l.field);
    var sources := set e, p | e in plan.evidence && e.field == l.field && p in e.pointers :: p.sha;
    || (l.field !in plan.material && x == OnlyExpected(sha, ExtraField, subject, Hex(l.value)))
    || (&& l.field in plan.material
        && (|| (l.value != plan.material[l.field] && x == Both(sha, FieldMismatch, subject, Hex(l.value), Hex(plan.material[l.field])))
            || (l.sources != sources && x == Both(sha, SourceMismatch, subject, Sources(l.sources), Sources(sources)))
            || (&& !(l.labeledAt <= at < l.expiresAt)
                && x == Both(sha, LabelNotCurrent, subject, CurrentAt(at), Period(Labeled, l.labeledAt, l.expiresAt)))))
  }

  ghost predicate ScenarioRaises(sha: Hash, tco: Tco, plan: VendorPlan, at: Time, e: Expectation, x: Item) {
    var subject := PlanPart(plan.vendor, plan.plan, e.scenario);
    || (&& !(e.labeledAt <= at < e.expiresAt)
        && x == Both(sha, LabelNotCurrent, subject, CurrentAt(at), Period(Labeled, e.labeledAt, e.expiresAt)))
    || (tco(plan, e).Err? && x == Both(sha, TcoError, subject, Hex(e.tco), ErrorName(tco(plan, e).error)))
    || (&& tco(plan, e).Ok?
        && !(tco(plan, e).value.hash == e.tco && tco(plan, e).value.total == e.total && tco(plan, e).value.currency == e.currency)
        && x == Both(sha, TcoMismatch, subject, CostOf(Cost(e.tco, e.total, e.currency)), CostOf(tco(plan, e).value)))
  }

  /** Some evidence was retrieved later than now. */
  ghost predicate Premature(plan: VendorPlan, at: Time) {
    exists e, p | e in plan.evidence && p in e.pointers :: at < p.retrievedAt
  }

  /** Some evidence lacks one of the three rights now, or is not retained any more. */
  ghost predicate Unlicensed(plan: VendorPlan, at: Time) {
    exists e, p | e in plan.evidence && p in e.pointers ::
      || !(p.policy.reviewedAt <= at < p.policy.reviewDueAt) || !p.policy.derive || !p.policy.publish || !p.policy.retainHistory
      || p.policy.retentionDays.None? || plan.capturedAt + p.policy.retentionDays.value * 86_400 <= at
  }

  ghost predicate PlanRaises(sha: Hash, tco: Tco, gold: GoldPlan, plan: VendorPlan, at: Time, x: Item) {
    var key := PlanKey(plan.vendor, plan.plan);
    || (exists f | f in plan.material && (forall l | l in gold.labels :: l.field != f) ::
          x == OnlyActual(sha, MissingField, PlanPart(plan.vendor, plan.plan, f), Hex(plan.material[f])))
    || (exists l | l in gold.labels :: LabelRaises(sha, plan, at, l, x))
    || (Premature(plan, at) && x == Both(sha, CandidateNotCurrent, key, RetrievedBy(at), Future(AllFuture(plan, at))))
    || (Unlicensed(plan, at) && x == Both(sha, RightsInvalid, key, RequiredRights, Denied(AllDenials(plan, at))))
    || (exists e | e in gold.expectations :: ScenarioRaises(sha, tco, plan, at, e, x))
  }

  lemma PrematureRules(plan: VendorPlan, at: Time)
    ensures AllFuture(plan, at) != multiset{} <==> Premature(plan, at)
  {
    NoFuture(plan, at);
    if e, p :| e in plan.evidence && p in e.pointers && at < p.retrievedAt {
      assert HasPointer(plan, p);
    }
  }

  lemma UnlicensedRules(plan: VendorPlan, at: Time)
    ensures AllDenials(plan, at) != multiset{} <==> Unlicensed(plan, at)
  {
    NoDenial(plan, at);
    if p :| HasPointer(plan, p) && !PointerLicensed(p, plan.capturedAt, at) {
      var e :| e in plan.evidence && p in e.pointers;
    }
    if !Unlicensed(plan, at) {
      forall p | HasPointer(plan, p) ensures PointerLicensed(p, plan.capturedAt, at) {
        var e :| e in plan.evidence && p in e.pointers;
      }
    } else {
      var e, p :| e in plan.evidence && p in e.pointers
        && (|| !(p.policy.reviewedAt <= at < p.policy.reviewDueAt) || !p.policy.derive || !p.policy.publish || !p.policy.retainHistory
            || p.policy.retentionDays.None? || plan.capturedAt + p.policy.retentionDays.value * 86_400 <= at);
      assert HasPointer(plan, p) && !PointerLicensed(p, plan.capturedAt, at);
    }
  }

  lemma LabelRules(sha: Hash, plan: VendorPlan, at: Time, l: Label, x: Item)
    ensures x in LabelFaults(sha, plan, at, l) <==> LabelRaises(sha, plan, at, l, x)
  {
  }

  lemma ScenarioRules(sha: Hash, tco: Tco, plan: VendorPlan, at: Time, e: Expectation, x: Item)
    ensures x in ExpectationFaults(sha, tco, plan, at, e) <==> ScenarioRaises(sha, tco, plan, at, e, x)
  {
  }

  lemma MissingRules(sha: Hash, gold: GoldPlan, plan: VendorPlan, x: Item)
    ensures x in MissingFields(sha, gold, plan) <==>
            exists f | f in plan.material && (forall l | l in gold.labels :: l.field != f) ::
              x == OnlyActual(sha, MissingField, PlanPart(plan.vendor, plan.plan, f), Hex(plan.material[f]))
  {
  }

  lemma PlanRules(sha: Hash, tco: Tco, gold: GoldPlan, plan: VendorPlan, at: Time, x: Item)
    ensures x in PlanFaults(sha, tco, gold, plan, at) <==> PlanRaises(sha, tco, gold, plan, at, x)
  {
    MissingRules(sha, gold, plan, x);
    UnionMembers(gold.labels, (l: Label) => LabelFaults(sha, plan, at, l), x);
    forall l ensures x in LabelFaults(sha, plan, at, l) <==> LabelRaises(sha, plan, at, l, x) {
      LabelRules(sha, plan, at, l, x);
    }
    PrematureRules(plan, at);
    UnlicensedRules(plan, at);
    UnionMembers(gold.expectations, (e: Expectation) => ExpectationFaults(sha, tco, plan, at, e), x);
    forall e ensures x in ExpectationFaults(sha, tco, plan, at, e) <==> ScenarioRaises(sha, tco, plan, at, e, x) {
      ScenarioRules(sha, tco, plan, at, e, x);
    }
  }

  // ---------- Gold set and batch ----------

  /** The plans of a vendor, its labels and all labels, counted one plan at a time. */
  lemma CountRules(p: GoldPlan, rest: seq<GoldPlan>, v: Id)
    ensures PlansOf([], v) == 0 && LabelsOf([], v) == 0 && LabelCount([]) == 0
    ensures PlansOf([p] + rest, v) == PlansOf(rest, v) + if p.vendor == v then 1 else 0
    ensures LabelsOf([p] + rest, v) == LabelsOf(rest, v) + if p.vendor == v then |p.labels| else 0
    ensures LabelCount([p] + rest) == LabelCount(rest) + |p.labels|
  {
    assert ([p] + rest)[1..] == rest;
  }

  ghost predicate IsCovered(plans: seq<GoldPlan>) {
    var vendors := set p | p in plans :: p.vendor;
    |vendors| >= 3 && forall v | v in vendors :: PlansOf(plans, v) >= 6 && LabelsOf(plans, v) >= 60 && LabelsOf(plans, v) <= 150
  }

  ghost predicate HeaderRaises(sha: Hash, g: GoldSet, c: Batch, at: Time, x: Item)
    requires |c.plans| + |c.failures| > 0
  {
    var manifest := RightsManifest(sha, CandidatePlans(c));
    var attempts := |c.plans| + |c.failures|;
    || (&& !IsCovered(g.plans)
        && x == Both(sha, PartialGoldset, Named(GoldsetName, g.id), CoverageRule, CoverageOf(g.plans)))
    || (&& !(g.createdAt <= at < g.expiresAt)
        && x == Both(sha, GoldsetNotCurrent, Named(GoldsetName, g.id), CurrentAt(at), Period(Created, g.createdAt, g.expiresAt)))
    || (&& !(c.capturedAt <= at < c.expiresAt)
        && x == Both(sha, CandidateNotCurrent, Named(CandidateName, c.receipt), CurrentAt(at), Period(Captured, c.capturedAt, c.expiresAt)))
    || (manifest.None? && x == Both(sha, RightsInvalid, Named(RightsBundleName, g.id), Hex(g.rights), ErrorName(0)))
    || (&& manifest.Some? && manifest.value != g.rights
        && x == Both(sha, RightsInvalid, Named(RightsBundleName, g.id), Hex(g.rights), Hex(manifest.value)))
    || (&& 5 * |c.failures| > attempts
        && x == Both(sha, ParserFailureRate, Named(ParserName, c.parser), Ratio(0.20), Ratio(|c.failures| as real / attempts as real)))
  }

  /** The rate is failures by attempts, and stops the parser exactly above one in five. */
  lemma FailureRules(c: Batch)
    requires |c.plans| + |c.failures| > 0
    ensures FailureRate(c) == |c.failures| as real / (|c.plans| + |c.failures|) as real
    ensures FailureStop(c) <==> 5 * |c.failures| > |c.plans| + |c.failures|
  {
    AboveAFifth(|c.failures|, |c.plans| + |c.failures|);
  }

  lemma AboveAFifth(part: nat, all: nat)
    requires all > 0
    ensures part as real / all as real > 0.20 <==> 5 * part > all
  {
    var rate, n := part as real / all as real, all as real;
    Scaled(0.20, rate, n);
    assert 0.20 * n < rate * n <==> n < 5.0 * part as real;
  }

  lemma Scaled(a: real, b: real, n: real)
    requires n > 0.0
    ensures a < b <==> a * n < b * n
  {
    assert b * n - a * n == (b - a) * n;
    if a < b {
      assert (b - a) * n > 0.0;
    } else {
      assert (a - b) * n >= 0.0;
    }
  }

  lemma HeaderRules(sha: Hash, g: GoldSet, c: Batch, at: Time, x: Item)
    requires |c.plans| + |c.failures| > 0
    ensures x in HeaderFaults(sha, g, c, at) <==> HeaderRaises(sha, g, c, at, x)
  {
    FailureRules(c);
    CoverageRules(g.plans);
  }

  // ---------- What the manifest holds ----------

  /** A plan's manifest names vendor and plan, and with each field the digests of all
      policies its evidence was retrieved under. */
  lemma ManifestRules(sha: Hash, p: VendorPlan)
    requires ValidVendorPlan(p)
    ensures ManifestOf(sha, p).vendor == p.vendor && ManifestOf(sha, p).plan == p.plan
    ensures |ManifestOf(sha, p).fields| == |Sort(p.evidence, EvidenceBefore)|
    ensures forall e | e in p.evidence :: exists f | f in ManifestOf(sha, p).fields ::
              f.field == e.field && Elements(f.policies) == set x | x in e.pointers :: sha(PolicyPayload(x.policy))
  {
    var fields := ManifestOf(sha, p).fields;
    var sorted := Sort(p.evidence, EvidenceBefore);
    UniqueMeansComparable(p.evidence, (e: Evidence) => e.field, EvidenceBefore);
    forall e | e in p.evidence
      ensures exists f | f in fields :: f.field == e.field && Elements(f.policies) == set x | x in e.pointers :: sha(PolicyPayload(x.policy))
    {
      SortMembers(p.evidence, EvidenceBefore, e);
      var i :| 0 <= i < |sorted| && sorted[i] == e;
      PolicyDigests(sha, e.pointers);
      assert fields[i] in fields && fields[i].field == e.field;
    }
  }

  lemma PolicyDigests(sha: Hash, pointers: seq<Pointer>)
    ensures Elements(Sort(Map(pointers, (x: Pointer) => sha(PolicyPayload(x.policy))), DigestBefore))
         == set x | x in pointers :: sha(PolicyPayload(x.policy))
  {
    var digests := Map(pointers, (x: Pointer) => sha(PolicyPayload(x.policy)));
    SortSorts(digests, DigestBefore);
    assert forall d :: d in Elements(digests) <==> exists i | 0 <= i < |digests| :: digests[i] == d;
    assert forall x | x in pointers :: exists i | 0 <= i < |pointers| :: pointers[i] == x;
  }

  // ---------- The whole comparison ----------

  predicate SameKey(gold: GoldPlan, q: CandidatePlan) {
    gold.vendor == q.plan.vendor && gold.plan == q.plan.plan
  }

  /** What a gold plan raises: missing, or compared with its candidate. */
  ghost predicate GoldRaises(sha: Hash, tco: Tco, c: Batch, at: Time, gold: GoldPlan, x: Item) {
    || (&& (forall q | q in c.plans :: !SameKey(gold, q))
        && x == OnlyExpected(sha, MissingPlan, PlanKey(gold.vendor, gold.plan), Hex(GoldPlanHash(sha, gold))))
    || exists q | q in c.plans && SameKey(gold, q) ::
         || (&& !(q.plan.capturedAt <= at && q.plan.effectiveAt <= at)
             && x == Both(sha, CandidateNotCurrent, PlanKey(gold.vendor, gold.plan), NotFutureAt(at),
                          Period(CapturedEffective, q.plan.capturedAt, q.plan.effectiveAt)))
         || PlanRaises(sha, tco, gold, q.plan, at, x)
  }

  ghost predicate Raises(sha: Hash, tco: Tco, g: GoldSet, c: Batch, at: Time, x: Item)
    requires |c.plans| + |c.failures| > 0
  {
    || HeaderRaises(sha, g, c, at, x)
    || (exists f | f in c.failures :: x == OnlyActual(sha, ParseFailure, PlanPart(f.vendor, f.plan, f.input), Hex(f.error)))
    || (exists gold | gold in g.plans :: GoldRaises(sha, tco, c, at, gold, x))
    || (exists q | q in c.plans && (forall gold | gold in g.plans :: !SameKey(gold, q)) ::
          x == OnlyActual(sha, ExtraPlan, PlanKey(q.plan.vendor, q.plan.plan), Hex(q.sha)))
  }

  lemma FindRules(c: Batch, gold: GoldPlan)
    requires Unique(c.plans, CandidateKey)
    ensures forall q :: Find(c.plans, Key(gold)) == Some(q) <==> q in c.plans && SameKey(gold, q)
  {
    FoundIsListed(c.plans, Key(gold));
    forall q | q in c.plans && SameKey(gold, q) ensures Find(c.plans, Key(gold)) == Some(q) {
      FindsOwnKey(c.plans, q);
    }
  }

  lemma GoldRules(sha: Hash, tco: Tco, c: Batch, at: Time, gold: GoldPlan, x: Item)
    requires Unique(c.plans, CandidateKey)
    ensures x in GoldPlanFaults(sha, tco, c, at, gold) <==> GoldRaises(sha, tco, c, at, gold, x)
  {
    FindRules(c, gold);
    match Find(c.plans, Key(gold))
    case Some(q) => PlanRules(sha, tco, gold, q.plan, at, x);
    case None => assert forall q | q in c.plans :: !SameKey(gold, q);
  }

  lemma CandidateRules(sha: Hash, g: GoldSet, q: CandidatePlan, x: Item)
    ensures x in CandidateFaults(sha, g, q) <==>
            && (forall gold | gold in g.plans :: !SameKey(gold, q))
            && x == OnlyActual(sha, ExtraPlan, PlanKey(q.plan.vendor, q.plan.plan), Hex(q.sha))
  {
  }

  lemma FaultRules(sha: Hash, tco: Tco, g: GoldSet, c: Batch, at: Time, x: Item)
    requires |c.plans| + |c.failures| > 0 && Unique(c.plans, CandidateKey)
    ensures x in Faults(sha, tco, g, c, at) <==> Raises(sha, tco, g, c, at, x)
  {
    HeaderRules(sha, g, c, at, x);
    UnionMembers(c.failures, (f: Failure) => {ParseFault(sha, f)}, x);
    UnionMembers(g.plans, (p: GoldPlan) => GoldPlanFaults(sha, tco, c, at, p), x);
    forall p ensures x in GoldPlanFaults(sha, tco, c, at, p) <==> GoldRaises(sha, tco, c, at, p, x) {
      GoldRules(sha, tco, c, at, p, x);
    }
    UnionMembers(c.plans, (q: CandidatePlan) => CandidateFaults(sha, g, q), x);
    forall q: CandidatePlan
      ensures x in CandidateFaults(sha, g, q) <==>
              && (forall gold | gold in g.plans :: !SameKey(gold, q))
              && x == OnlyActual(sha, ExtraPlan, PlanKey(q.plan.vendor, q.plan.plan), Hex(q.sha))
    {
      CandidateRules(sha, g, q, x);
    }
  }

  /** The report quarantines exactly the raised faults, and is ready exactly for a covered
      gold set, a parser not stopped, and no fault. */
  lemma ReportRules(sha: Hash, tco: Tco, g: GoldSet, c: Batch, at: Time, sealed: SealedReport)
    requires |c.plans| + |c.failures| > 0 && Unique(c.plans, CandidateKey) && Correct(sha, tco, g, c, at, sealed)
    ensures forall x :: x in sealed.report.quarantines <==> Raises(sha, tco, g, c, at, x)
    ensures sealed.report.ready <==>
            IsCovered(g.plans) && 5 * |c.failures| <= |c.plans| + |c.failures| && forall x :: !Raises(sha, tco, g, c, at, x)
  {
    FailureRules(c);
    var faults := sealed.report.quarantines;
    forall x ensures x in faults <==> Raises(sha, tco, g, c, at, x) {
      FaultRules(sha, tco, g, c, at, x);
      QuarantinesAreFaults(sha, tco, g, c, at, sealed, x);
    }
    assert faults == [] || faults[0] in faults;
    FigureRules(sha, tco, g, c, at, sealed);
  }

  lemma QuarantinesAreFaults(sha: Hash, tco: Tco, g: GoldSet, c: Batch, at: Time, sealed: SealedReport, x: Item)
    requires |c.plans| + |c.failures| > 0 && Correct(sha, tco, g, c, at, sealed)
    ensures x in sealed.report.quarantines <==> x in Faults(sha, tco, g, c, at)
  {
    assert x in sealed.report.quarantines <==> x in Elements(sealed.report.quarantines);
  }

  /** It counts vendors, plans, labels, candidates and failures. */
  lemma FigureRules(sha: Hash, tco: Tco, g: GoldSet, c: Batch, at: Time, sealed: SealedReport)
    requires |c.plans| + |c.failures| > 0 && Correct(sha, tco, g, c, at, sealed)
    ensures var r := sealed.report;
            && r.goldset == g.id && r.rights == g.rights && r.at == at
            && r.vendors == |set p | p in g.plans :: p.vendor| && r.plans == |g.plans| && r.labels == LabelCount(g.plans)
            && r.candidates == |c.plans| && r.failures == |c.failures|
            && r.failureRate == FailureRate(c) && r.failureStop == FailureStop(c)
            && (r.coverage <==> IsCovered(g.plans))
            && (r.ready <==> r.coverage && !r.failureStop && r.quarantines == [])
  {
    CoverageRules(g.plans);
  }

  lemma CoverageRules(plans: seq<GoldPlan>)
    ensures FullCoverage(plans) <==> IsCovered(plans)
  {
  }

  /** Faults come by reason, then by subject, expected and actual digest, each once, and
      the report is sealed with its own digest. */
  lemma ListRules(sha: Hash, tco: Tco, g: GoldSet, c: Batch, at: Time, sealed: SealedReport)
    requires |c.plans| + |c.failures| > 0 && Correct(sha, tco, g, c, at, sealed)
    ensures forall i, j | 0 <= i < j < |sealed.report.quarantines| ::
              Precedes(sealed.report.quarantines[i], sealed.report.quarantines[j])
    ensures sealed.sha == sha(ReportPayload(sealed.report))
    ensures ValidReport(sha, sealed)
  {
  }

  /** An absent digest comes before every other. */
  predicate Precedes(a: Item, b: Item) {
    if a.reason != b.reason then Rank(a.reason) < Rank(b.reason)
    else if a.subject != b.subject then a.subject < b.subject
    else if a.expected != b.expected then b.expected.Some? && (a.expected.None? || a.expected.value < b.expected.value)
    else b.actual.Some? && (a.actual.None? || a.actual.value < b.actual.value)
  }

  /** What the report's own validator demands. */
  lemma ValidatorRules(sha: Hash, sealed: SealedReport)
    ensures ValidReport(sha, sealed) <==>
            var r := sealed.report;
            && (forall i, j | 0 <= i < j < |r.quarantines| :: Precedes(r.quarantines[i], r.quarantines[j]))
            && (r.ready <==> r.coverage && !r.failureStop && |r.quarantines| == 0)
            && sealed.sha == sha(ReportPayload(r))
  {
    forall a, b ensures Before(a, b) <==> Precedes(a, b) {
      RankIsInjective(a.reason, b.reason);
    }
  }

  /** A report's expiry is the first of all nested dates. */
  lemma ExpiryRules(sha: Hash, tco: Tco, g: GoldSet, c: Batch, at: Time, sealed: SealedReport)
    requires |c.plans| + |c.failures| > 0 && Correct(sha, tco, g, c, at, sealed)
    ensures forall d :: IsDate(g, c, d) ==> sealed.report.expiresAt <= d
    ensures IsDate(g, c, sealed.report.expiresAt)
  {
    forall d ensures d in Deadlines(g, c) <==> IsDate(g, c, d) {
      DateRules(g, c, d);
    }
  }

  /** Expiry of gold set, batch, a label or a scenario; of a pointer's review, retention or
      raw archive. */
  ghost predicate IsDate(g: GoldSet, c: Batch, d: Time) {
    || d == g.expiresAt || d == c.expiresAt
    || (exists p, l | p in g.plans && l in p.labels :: d == l.expiresAt)
    || (exists p, e | p in g.plans && e in p.expectations :: d == e.expiresAt)
    || exists q | q in c.plans :: IsPointerDate(q, d)
  }

  predicate PointerDate(p: Pointer, capturedAt: Time, d: Time) {
    || d == p.policy.reviewDueAt
    || (p.policy.retentionDays.Some? && d == capturedAt + p.policy.retentionDays.value * 86_400)
    || (p.deleteAfter.Some? && d == p.deleteAfter.value)
  }

  ghost predicate IsPointerDate(q: CandidatePlan, d: Time) {
    exists e, p | e in q.plan.evidence && p in e.pointers :: PointerDate(p, q.plan.capturedAt, d)
  }

  lemma PointerDateRules(q: CandidatePlan, d: Time)
    ensures d in CandidateDeadlines(q) <==> IsPointerDate(q, d)
  {
    if d in CandidateDeadlines(q) {
      var p := CandidateDeadline(q, d);
      var e :| e in q.plan.evidence && p in e.pointers;
      assert PointerDate(p, q.plan.capturedAt, d);
    }
    if e, p :| e in q.plan.evidence && p in e.pointers && PointerDate(p, q.plan.capturedAt, d) {
      assert HasPointer(q.plan, p);
      PointerDeadline(q, p, d);
    }
  }

  lemma DateRules(g: GoldSet, c: Batch, d: Time)
    ensures d in Deadlines(g, c) <==> IsDate(g, c, d)
  {
    UnionMembers(g.plans, GoldDeadlines, d);
    UnionMembers(c.plans, CandidateDeadlines, d);
    forall q ensures d in CandidateDeadlines(q) <==> IsPointerDate(q, d) {
      PointerDateRules(q, d);
    }
  }

  // ---------- Inputs ----------

  ghost predicate PlanFits(p: GoldPlan) {
    && (forall i, j | 0 <= i < j < |p.labels| :: p.labels[i].id != p.labels[j].id && p.labels[i].field != p.labels[j].field)
    && (forall i, j | 0 <= i < j < |p.expectations| :: p.expectations[i].scenario != p.expectations[j].scenario)
    && (forall l | l in p.labels :: l.labeledAt < l.expiresAt)
    && (forall e | e in p.expectations :: e.labeledAt < e.expiresAt)
  }

  /** What the gold set's model demands: plans named once, labels named once over all
      plans, and everything labelled before the set was made. */
  lemma GoldSetRules(g: GoldSet)
    ensures ValidGoldSet(g) <==>
            && |g.plans| > 0 && g.createdAt < g.expiresAt
            && (forall i, j | 0 <= i < j < |g.plans| :: g.plans[i].vendor != g.plans[j].vendor || g.plans[i].plan != g.plans[j].plan)
            && (forall p | p in g.plans :: PlanFits(p))
            && (forall p, q, l, m | p in g.plans && q in g.plans && l in p.labels && m in q.labels && l.id == m.id :: p == q)
            && (forall p, l | p in g.plans && l in p.labels :: l.labeledAt <= g.createdAt)
            && (forall p, e | p in g.plans && e in p.expectations :: e.labeledAt <= g.createdAt)
  {
    forall p ensures ValidGoldPlan(p) <==> PlanFits(p) {
    }
  }

  ghost predicate CandidateFits(p: VendorPlan) {
    && (forall i, j | 0 <= i < j < |p.evidence| :: p.evidence[i].field != p.evidence[j].field)
    && (forall f | f in p.material :: exists e | e in p.evidence :: e.field == f)
    && (forall e | e in p.evidence :: |e.pointers| > 0)
  }

  /** And the batch's: at least one attempt, plans and inputs named once, no input both
      parsed and failed, and evidence for every material field. */
  lemma BatchRules(c: Batch)
    ensures ValidBatch(c) <==>
            && c.capturedAt < c.expiresAt && |c.plans| + |c.failures| > 0
            && (forall i, j | 0 <= i < j < |c.plans| ::
                  c.plans[i].plan.vendor != c.plans[j].plan.vendor || c.plans[i].plan.plan != c.plans[j].plan.plan)
            && (forall i, j | 0 <= i < j < |c.plans| :: c.plans[i].input != c.plans[j].input)
            && (forall i, j | 0 <= i < j < |c.failures| :: c.failures[i].input != c.failures[j].input)
            && (forall p, f | p in c.plans && f in c.failures :: p.input != f.input)
            && (forall p | p in c.plans :: CandidateFits(p.plan))
  {
    forall p ensures ValidVendorPlan(p) <==> CandidateFits(p) {
    }
  }
}
