/** Which faults a comparison raises at one instant, and when it raises none. */
module GoldSetFaults {
  import opened Common
  import opened Collections
  import opened Sorting
  import opened GoldSetTypes

  type Hash = Value -> Digest

  type Tco = (VendorPlan, Expectation) -> Result<Cost, Id>

  // ---------- One plan ----------

  function Fault(sha: Hash, reason: Reason, subject: Value, expected: Option<Value>, actual: Option<Value>): Item {
    Item(reason, sha(subject), if expected.Some? then Some(sha(expected.value)) else None,
         if actual.Some? then Some(sha(actual.value)) else None)
  }

  predicate Current(from: Time, to: Time, at: Time) {
    from <= at < to
  }

  function UnlabelledField(sha: Hash, plan: VendorPlan, f: Id): Item
    requires f in plan.material
  {
    Fault(sha, MissingField, PlanPart(plan.vendor, plan.plan, f), None, Some(Hex(plan.material[f])))
  }

  predicate IsLabelled(gold: GoldPlan, f: Id) {
    exists l | l in gold.labels :: l.field == f
  }

  ghost function MissingFields(sha: Hash, gold: GoldPlan, plan: VendorPlan): set<Item> {
    set f | f in plan.material && !IsLabelled(gold, f) :: UnlabelledField(sha, plan, f)
  }

  function SourcesOf(plan: VendorPlan, field: Id): set<Digest> {
    set e, p | e in plan.evidence && e.field == field && p in e.pointers :: p.sha
  }

  ghost function LabelFaults(sha: Hash, plan: VendorPlan, at: Time, l: Label): set<Item> {
    var subject := PlanPart(plan.vendor, plan.plan, l.field);
    if l.field !in plan.material then {Fault(sha, ExtraField, subject, Some(Hex(l.value)), None)}
    else
      (if l.value != plan.material[l.field]
       then {Fault(sha, FieldMismatch, subject, Some(Hex(l.value)), Some(Hex(plan.material[l.field])))} else {})
      + (if SourcesOf(plan, l.field) != l.sources
         then {Fault(sha, SourceMismatch, subject, Some(Sources(l.sources)), Some(Sources(SourcesOf(plan, l.field))))}
         else {})
      + (if !Current(l.labeledAt, l.expiresAt, at)
         then {Fault(sha, LabelNotCurrent, subject, Some(CurrentAt(at)), Some(Period(Labeled, l.labeledAt, l.expiresAt)))}
         else {})
  }

  ghost function FutureAt(e: Evidence, at: Time): multiset<(Id, Digest)> {
    SumOf(e.pointers, (p: Pointer) => if p.retrievedAt > at then multiset{(e.field, p.sha)} else multiset{})
  }

  predicate Permits(p: Policy, decision: bool, at: Time) {
    p.reviewedAt <= at < p.reviewDueAt && decision
  }

  function PointerDenials(p: Pointer, field: Id, capturedAt: Time, at: Time): multiset<(Id, Denial)> {
    (if Permits(p.policy, p.policy.derive, at) then multiset{} else multiset{(field, NotPermitted(0))})
    + (if Permits(p.policy, p.policy.publish, at) then multiset{} else multiset{(field, NotPermitted(1))})
    + (if Permits(p.policy, p.policy.retainHistory, at) then multiset{} else multiset{(field, NotPermitted(2))})
    + (if p.policy.retentionDays.None? || capturedAt + p.policy.retentionDays.value * DAY <= at
       then multiset{(field, RetentionExpired)} else multiset{})
  }

  ghost function DenialsAt(e: Evidence, capturedAt: Time, at: Time): multiset<(Id, Denial)> {
    SumOf(e.pointers, (p: Pointer) => PointerDenials(p, e.field, capturedAt, at))
  }

  ghost function AllFuture(plan: VendorPlan, at: Time): multiset<(Id, Digest)> {
    SumOf(plan.evidence, (e: Evidence) => FutureAt(e, at))
  }

  ghost function AllDenials(plan: VendorPlan, at: Time): multiset<(Id, Denial)> {
    SumOf(plan.evidence, (e: Evidence) => DenialsAt(e, plan.capturedAt, at))
  }

  ghost function EvidenceFaults(sha: Hash, plan: VendorPlan, at: Time): set<Item> {
    (if AllFuture(plan, at) != multiset{}
     then {Fault(sha, CandidateNotCurrent, PlanKey(plan.vendor, plan.plan), Some(RetrievedBy(at)),
                 Some(Future(AllFuture(plan, at))))} else {})
    + (if AllDenials(plan, at) != multiset{}
       then {Fault(sha, RightsInvalid, PlanKey(plan.vendor, plan.plan), Some(RequiredRights),
                   Some(Denied(AllDenials(plan, at))))} else {})
  }

  function TcoFault(sha: Hash, tco: Tco, plan: VendorPlan, e: Expectation): Option<Item> {
    var subject := PlanPart(plan.vendor, plan.plan, e.scenario);
    match tco(plan, e)
    case Err(error) => Some(Fault(sha, TcoError, subject, Some(Hex(e.tco)), Some(ErrorName(error))))
    case Ok(cost) =>
      if cost == Cost(e.tco, e.total, e.currency) then None
      else Some(Fault(sha, TcoMismatch, subject, Some(CostOf(Cost(e.tco, e.total, e.currency))), Some(CostOf(cost))))
  }

  ghost function ExpectationFaults(sha: Hash, tco: Tco, plan: VendorPlan, at: Time, e: Expectation): set<Item> {
    (if !Current(e.labeledAt, e.expiresAt, at)
     then {Fault(sha, LabelNotCurrent, PlanPart(plan.vendor, plan.plan, e.scenario), Some(CurrentAt(at)),
                 Some(Period(Labeled, e.labeledAt, e.expiresAt)))} else {})
    + (var f := TcoFault(sha, tco, plan, e); if f.Some? then {f.value} else {})
  }

  ghost function PlanFaults(sha: Hash, tco: Tco, gold: GoldPlan, plan: VendorPlan, at: Time): set<Item> {
    MissingFields(sha, gold, plan)
    + UnionOf(gold.labels, (l: Label) => LabelFaults(sha, plan, at, l))
    + EvidenceFaults(sha, plan, at)
    + UnionOf(gold.expectations, (e: Expectation) => ExpectationFaults(sha, tco, plan, at, e))
  }

  // ---------- The batch ----------

  function Find(plans: seq<CandidatePlan>, key: (Id, Id)): Option<CandidatePlan> {
    if plans == [] then None
    else if CandidateKey(plans[0]) == key then Some(plans[0])
    else Find(plans[1..], key)
  }

  function Expected(plans: seq<GoldPlan>, key: (Id, Id)): bool {
    exists p | p in plans :: Key(p) == key
  }

  predicate LabelBefore(a: Label, b: Label) {
    a.field < b.field
  }

  predicate ScenarioBefore(a: Expectation, b: Expectation) {
    a.scenario < b.scenario
  }

  predicate GoldBefore(a: GoldPlan, b: GoldPlan) {
    a.vendor < b.vendor || (a.vendor == b.vendor && a.plan < b.plan)
  }

  /** What is hashed for the content digest: each plan, then the whole. */
  function PlanPayload(p: GoldPlan): Value {
    GoldPlanPayload(p.vendor, p.plan, Sort(p.labels, LabelBefore), Sort(p.expectations, ScenarioBefore))
  }

  function GoldPlanHash(sha: Hash, p: GoldPlan): Digest {
    sha(PlanPayload(p))
  }

  function SetPayload(sha: Hash, g: GoldSet): Value {
    GoldPayload(g.id, g.rights, g.createdAt, g.expiresAt, Map(Sort(g.plans, GoldBefore), (p: GoldPlan) => GoldPlanHash(sha, p)))
  }

  function GoldSetHash(sha: Hash, g: GoldSet): Digest {
    sha(SetPayload(sha, g))
  }

  predicate InputBefore(a: CandidatePlan, b: CandidatePlan) {
    a.input < b.input
  }

  predicate FailureBefore(a: Failure, b: Failure) {
    a.input < b.input
  }

  function BatchContent(c: Batch): Value {
    BatchPayload(c.receipt, c.parser, c.version, c.capturedAt, c.expiresAt,
                 Map(Sort(c.plans, InputBefore), (q: CandidatePlan) => (q.input, q.sha)),
                 Sort(c.failures, FailureBefore))
  }

  function BatchHash(sha: Hash, c: Batch): Digest {
    sha(BatchContent(c))
  }

  ghost function GoldPlanFaults(sha: Hash, tco: Tco, c: Batch, at: Time, gold: GoldPlan): set<Item> {
    match Find(c.plans, Key(gold))
    case None => {Fault(sha, MissingPlan, PlanKey(gold.vendor, gold.plan), Some(Hex(GoldPlanHash(sha, gold))), None)}
    case Some(q) =>
      (if q.plan.capturedAt > at || q.plan.effectiveAt > at
       then {Fault(sha, CandidateNotCurrent, PlanKey(gold.vendor, gold.plan), Some(NotFutureAt(at)),
                   Some(Period(CapturedEffective, q.plan.capturedAt, q.plan.effectiveAt)))} else {})
      + PlanFaults(sha, tco, gold, q.plan, at)
  }

  ghost function CandidateFaults(sha: Hash, g: GoldSet, q: CandidatePlan): set<Item> {
    if Expected(g.plans, CandidateKey(q)) then {}
    else {Fault(sha, ExtraPlan, PlanKey(q.plan.vendor, q.plan.plan), None, Some(Hex(q.sha)))}
  }

  function ParseFault(sha: Hash, f: Failure): Item {
    Fault(sha, ParseFailure, PlanPart(f.vendor, f.plan, f.input), None, Some(Hex(f.error)))
  }

  // ---------- Counts and coverage ----------

  function Vendors(plans: seq<GoldPlan>): set<Id> {
    set p | p in plans :: p.vendor
  }

  function PlansOf(plans: seq<GoldPlan>, vendor: Id): nat {
    Total(plans, (p: GoldPlan) => if p.vendor == vendor then 1 else 0)
  }

  function LabelsOf(plans: seq<GoldPlan>, vendor: Id): nat {
    Total(plans, (p: GoldPlan) => if p.vendor == vendor then |p.labels| else 0)
  }

  function LabelCount(plans: seq<GoldPlan>): nat {
    Total(plans, (p: GoldPlan) => |p.labels|)
  }

  /** Three vendors, each with six plans and 60 to 150 labels. */
  predicate FullCoverage(plans: seq<GoldPlan>) {
    |Vendors(plans)| >= 3
    && forall v | v in Vendors(plans) :: PlansOf(plans, v) >= 6 && 60 <= LabelsOf(plans, v) <= 150
  }

  function CoverageOf(plans: seq<GoldPlan>): Value {
    Coverage(|Vendors(plans)|, |plans|, map v | v in Vendors(plans) :: LabelsOf(plans, v))
  }

  function FailureRate(c: Batch): real
    requires |c.plans| + |c.failures| > 0
  {
    |c.failures| as real / (|c.plans| + |c.failures|) as real
  }

  predicate FailureStop(c: Batch)
    requires |c.plans| + |c.failures| > 0
  {
    FailureRate(c) > 0.20
  }

  // ---------- The rights manifest ----------

  predicate PlanBefore(a: VendorPlan, b: VendorPlan) {
    a.vendor < b.vendor || (a.vendor == b.vendor && a.plan < b.plan)
  }

  predicate EvidenceBefore(a: Evidence, b: Evidence) {
    a.field < b.field
  }

  predicate DigestBefore(a: Digest, b: Digest) {
    a < b
  }

  function Map<T, U>(s: seq<T>, f: T -> U): (r: seq<U>)
    ensures |r| == |s| && forall i | 0 <= i < |s| :: r[i] == f(s[i])
  {
    if s == [] then [] else [f(s[0])] + Map(s[1..], f)
  }

  function ManifestOf(sha: Hash, p: VendorPlan): ManifestPlan {
    ManifestPlan(p.vendor, p.plan,
                 Map(Sort(p.evidence, EvidenceBefore),
                     (e: Evidence) => ManifestField(e.field, Sort(Map(e.pointers, (x: Pointer) => sha(PolicyPayload(x.policy))),
                                                                  DigestBefore))))
  }

  /** Observation times and source hashes stay out of the manifest. */
  function RightsManifest(sha: Hash, plans: seq<VendorPlan>): Option<Digest> {
    if plans == [] then None
    else Some(sha(Manifest(Map(Sort(plans, PlanBefore), (p: VendorPlan) => ManifestOf(sha, p)))))
  }

  function CandidatePlans(c: Batch): seq<VendorPlan> {
    Map(c.plans, (q: CandidatePlan) => q.plan)
  }

  // ---------- All faults ----------

  ghost function HeaderFaults(sha: Hash, g: GoldSet, c: Batch, at: Time): set<Item>
    requires |c.plans| + |c.failures| > 0
  {
    HeaderFaultsWith(sha, g, c, at, FullCoverage(g.plans), CoverageOf(g.plans), RightsManifest(sha, CandidatePlans(c)),
                     FailureRate(c))
  }

  ghost function HeaderFaultsWith(sha: Hash, g: GoldSet, c: Batch, at: Time, complete: bool, coverage: Value,
                                  manifest: Option<Digest>, rate: real): set<Item>
  {
    (if complete then {}
     else {Fault(sha, PartialGoldset, Named(GoldsetName, g.id), Some(CoverageRule), Some(coverage))})
    + (if Current(g.createdAt, g.expiresAt, at) then {}
       else {Fault(sha, GoldsetNotCurrent, Named(GoldsetName, g.id), Some(CurrentAt(at)),
                   Some(Period(Created, g.createdAt, g.expiresAt)))})
    + (if Current(c.capturedAt, c.expiresAt, at) then {}
       else {Fault(sha, CandidateNotCurrent, Named(CandidateName, c.receipt), Some(CurrentAt(at)),
                   Some(Period(Captured, c.capturedAt, c.expiresAt)))})
    + (if manifest == Some(g.rights) then {}
       else {Fault(sha, RightsInvalid, Named(RightsBundleName, g.id), Some(Hex(g.rights)),
                   Some(if manifest.Some? then Hex(manifest.value) else ErrorName(0)))})
    + (if rate > 0.20
       then {Fault(sha, ParserFailureRate, Named(ParserName, c.parser), Some(Ratio(0.20)), Some(Ratio(rate)))}
       else {})
  }

  /** Every fault the comparison raises. */
  ghost function Faults(sha: Hash, tco: Tco, g: GoldSet, c: Batch, at: Time): set<Item>
    requires |c.plans| + |c.failures| > 0
  {
    HeaderFaults(sha, g, c, at)
    + UnionOf(c.failures, (f: Failure) => {ParseFault(sha, f)})
    + UnionOf(g.plans, (p: GoldPlan) => GoldPlanFaults(sha, tco, c, at, p))
    + UnionOf(c.plans, (q: CandidatePlan) => CandidateFaults(sha, g, q))
  }
}
