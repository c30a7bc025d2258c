/** Human gold set, candidate batch and the hash-only faults of their comparison. */
module GoldSetTypes {
  import opened Common
  import opened Sorting

  /** Hexadecimal digests of one length compare as numbers. */
  type Digest = nat

  const DAY: int := 86_400

  datatype Label = Label(id: Digest, field: Id, value: Digest, sources: set<Digest>, receipt: Digest,
                         labeledAt: Time, expiresAt: Time)

  /** "inputs" stands for seats, usage, unit and add-ons. */
  datatype Expectation = Expectation(scenario: Digest, receipt: Digest, labeledAt: Time, expiresAt: Time, inputs: Id,
                                     tco: Digest, total: nat, currency: Id)

  datatype GoldPlan = GoldPlan(vendor: Id, plan: Id, labels: seq<Label>, expectations: seq<Expectation>)

  datatype GoldSet = GoldSet(id: Digest, rights: Digest, createdAt: Time, expiresAt: Time, plans: seq<GoldPlan>)

  /** A source policy; "identity" stands for the fields no time check reads. */
  datatype Policy = Policy(identity: Id, reviewedAt: Time, reviewDueAt: Time, derive: bool, publish: bool,
                           retainHistory: bool, retentionDays: Option<nat>)

  /** deleteAfter belongs to the pointer's raw archive, when there is one. */
  datatype Pointer = Pointer(sha: Digest, retrievedAt: Time, policy: Policy, deleteAfter: Option<Time>)

  datatype Evidence = Evidence(field: Id, pointers: seq<Pointer>)

  /** material: each material field with the digest of its value. */
  datatype VendorPlan = VendorPlan(vendor: Id, plan: Id, capturedAt: Time, effectiveAt: Time,
                                   material: map<Id, Digest>, evidence: seq<Evidence>)

  datatype CandidatePlan = CandidatePlan(input: Digest, sha: Digest, plan: VendorPlan)

  datatype Failure = Failure(input: Digest, vendor: Id, plan: Id, code: Id, error: Digest)

  datatype Batch = Batch(receipt: Digest, parser: Digest, version: Id, capturedAt: Time, expiresAt: Time,
                         plans: seq<CandidatePlan>, failures: seq<Failure>)

  // ---------- What the constructors check ----------

  ghost predicate Unique<T, K>(s: seq<T>, key: T -> K) {
    forall i, j | 0 <= i < j < |s| :: key(s[i]) != key(s[j])
  }

  ghost predicate ValidGoldPlan(p: GoldPlan) {
    && Unique(p.labels, (l: Label) => l.id) && Unique(p.labels, (l: Label) => l.field)
    && Unique(p.expectations, (e: Expectation) => e.scenario)
    && (forall l | l in p.labels :: l.labeledAt < l.expiresAt)
    && (forall e | e in p.expectations :: e.labeledAt < e.expiresAt)
  }

  function Key(p: GoldPlan): (Id, Id) {
    (p.vendor, p.plan)
  }

  function CandidateKey(c: CandidatePlan): (Id, Id) {
    (c.plan.vendor, c.plan.plan)
  }

  ghost predicate ValidGoldSet(g: GoldSet) {
    && g.plans != [] && g.createdAt < g.expiresAt && Unique(g.plans, Key)
    && (forall p | p in g.plans :: ValidGoldPlan(p))
    && (forall p, q, l, m | p in g.plans && q in g.plans && l in p.labels && m in q.labels && l.id == m.id :: p == q)
    && (forall p, l | p in g.plans && l in p.labels :: l.labeledAt <= g.createdAt)
    && (forall p, e | p in g.plans && e in p.expectations :: e.labeledAt <= g.createdAt)
  }

  /** Every material field has its evidence, and no field has two. */
  ghost predicate ValidVendorPlan(p: VendorPlan) {
    && Unique(p.evidence, (e: Evidence) => e.field)
    && (forall f | f in p.material :: exists e | e in p.evidence :: e.field == f)
    && (forall e | e in p.evidence :: e.pointers != [])
  }

  ghost predicate ValidBatch(c: Batch) {
    && c.capturedAt < c.expiresAt && |c.plans| + |c.failures| > 0 && Unique(c.plans, CandidateKey)
    && Unique(c.plans, (p: CandidatePlan) => p.input) && Unique(c.failures, (f: Failure) => f.input)
    && (forall p, f | p in c.plans && f in c.failures :: p.input != f.input)
    && (forall p | p in c.plans :: ValidVendorPlan(p.plan))
  }

  // ---------- Faults and reports ----------

  /** In the order of the reasons' names. */
  datatype Reason =
    | CandidateNotCurrent | ExtraField | ExtraPlan | FieldMismatch | GoldsetNotCurrent | LabelNotCurrent
    | MissingField | MissingPlan | ParseFailure | ParserFailureRate | PartialGoldset | RightsInvalid
    | SourceMismatch | TcoError | TcoMismatch

  function Rank(r: Reason): nat {
    match r
    case CandidateNotCurrent => 0
    case ExtraField => 1
    case ExtraPlan => 2
    case FieldMismatch => 3
    case GoldsetNotCurrent => 4
    case LabelNotCurrent => 5
    case MissingField => 6
    case MissingPlan => 7
    case ParseFailure => 8
    case ParserFailureRate => 9
    case PartialGoldset => 10
    case RightsInvalid => 11
    case SourceMismatch => 12
    case TcoError => 13
    case TcoMismatch => 14
  }

  datatype Item = Item(reason: Reason, subject: Digest, expected: Option<Digest>, actual: Option<Digest>)

  function Code(d: Option<Digest>): int {
    if d.Some? then d.value else -1
  }

  /** The quarantine order: by reason, subject, expected and actual digest. */
  predicate Before(a: Item, b: Item) {
    || Rank(a.reason) < Rank(b.reason)
    || (a.reason == b.reason
        && (|| a.subject < b.subject
            || (a.subject == b.subject
                && (|| Code(a.expected) < Code(b.expected)
                    || (a.expected == b.expected && Code(a.actual) < Code(b.actual))))))
  }

  datatype Denial = NotPermitted(action: Id) | RetentionExpired

  datatype Name = GoldsetName | CandidateName | RightsBundleName | ParserName

  datatype Stamp = Created | Captured | Labeled | CapturedEffective

  datatype Cost = Cost(hash: Digest, total: nat, currency: Id)

  datatype ManifestField = ManifestField(field: Id, policies: seq<Digest>)

  datatype ManifestPlan = ManifestPlan(vendor: Id, plan: Id, fields: seq<ManifestField>)

  datatype Report = Report(
    goldset: Digest, content: Digest, rights: Digest, batch: Digest, at: Time, expiresAt: Time,
    vendors: nat, plans: nat, labels: nat, candidates: nat, failures: nat, failureRate: real,
    failureStop: bool, coverage: bool, ready: bool, quarantines: seq<Item>)

  datatype SealedReport = SealedReport(report: Report, sha: Digest)

  /** Everything that is hashed canonically. */
  datatype Value =
    | Named(name: Name, id: Digest)
    | PlanKey(vendor: Id, plan: Id)
    | PlanPart(vendor: Id, plan: Id, part: Digest)
    | CoverageRule
    | Coverage(vendors: nat, plans: nat, labels: map<Id, nat>)
    | CurrentAt(at: Time)
    | NotFutureAt(at: Time)
    | RetrievedBy(at: Time)
    | Period(stamp: Stamp, from: Time, to: Time)
    | Hex(digest: Digest)
    | ErrorName(error: Id)
    | Ratio(value: real)
    | Sources(sources: set<Digest>)
    | Future(future: multiset<(Id, Digest)>)
    | RequiredRights
    | Denied(denied: multiset<(Id, Denial)>)
    | CostOf(cost: Cost)
    | GoldPlanPayload(vendor: Id, plan: Id, sorted: seq<Label>, scenarios: seq<Expectation>)
    | GoldPayload(goldset: Digest, rights: Digest, from: Time, to: Time, hashes: seq<Digest>)
    | PolicyPayload(policy: Policy)
    | Manifest(manifest: seq<ManifestPlan>)
    | BatchPayload(receipt: Digest, parser: Digest, version: Id, from: Time, to: Time,
                   inputs: seq<(Digest, Digest)>, failed: seq<Failure>)
    | ReportPayload(report: Report)

  /** The canonical order is a strict order, total on items. */
  lemma BeforeIsStrict(items: seq<Item>)
    ensures StrictOrder(Before) && Comparable(items, Before)
  {
    forall x: Item, y: Item | x != y ensures Before(x, y) || Before(y, x) {
      RankIsInjective(x.reason, y.reason);
    }
  }

  lemma RankIsInjective(r: Reason, q: Reason)
    ensures Rank(r) == Rank(q) ==> r == q
  {
  }
}
