/** Plan, receipts and findings of the eight-gate launch handoff, and the reasons each
    gate can be held for. */
module LaunchHandoffTypes {
  import opened Common
  import RepositoryAcceptance

  const GATES: nat := 8

  /** The gates in their fixed order; gate 0 is the local candidate's acceptance. */
  type Gate = g: nat | g < GATES

  datatype Role = HumanApprover | TcoQa

  function RoleOf(g: Gate): Role {
    if 3 <= g <= 6 then TcoQa else HumanApprover
  }

  /** Production integration and deployment carry the shorter lifetime. */
  predicate IsLive(g: Gate) {
    g == 6 || g == 7
  }

  datatype Key = Key(issuer: Id, keyId: Id, role: Role)

  datatype Trust = Trust(human: Key, qa: Key)

  datatype Policy = Policy(trust: Sha<Trust>, maxPlanTtl: nat, maxEvidenceTtl: nat, maxLiveTtl: nat, maxReportTtl: nat)

  datatype Requirement = Requirement(gate: Gate, evidence: Id, components: seq<Id>, artifact: Sha<seq<Id>>, subject: Id,
                                     role: Role, keyId: Id, command: Id, tool: Id, version: Id)

  /** The identities a receipt repeats, and those only the semantic evidence repeats. */
  datatype Scope = Scope(candidate: Id, property: Id, environment: Id, deployment: Id, release: Id)

  datatype Plan = Plan(policy: Sha<Policy>, trust: Sha<Trust>, repositoryPins: Id, semanticPins: Id, scope: Scope,
                       issuedAt: Time, notBefore: Time, expiresAt: Time, requirements: seq<Requirement>)

  datatype ReceiptBody = ReceiptBody(
    id: Id, gate: Gate, predecessor: Sha<ReceiptBody>, plan: Sha<Plan>, policy: Sha<Policy>,
    requirement: Sha<Requirement>, evidence: Id, candidate: Id, property: Id, environment: Id, deployment: Id,
    artifact: Sha<seq<Id>>, subject: Id, command: Id, tool: Id, version: Id, synthetic: bool,
    observedAt: Time, expiresAt: Time, issuer: Id, keyId: Id, role: Role)

  datatype Receipt = Receipt(body: ReceiptBody, signature: Signature<ReceiptBody>)

  type Repository = RepositoryAcceptance.Repository

  datatype Packet = Packet(scope: Scope, evidence: Id)

  datatype Bundle = Bundle(plan: Sha<Plan>, policy: Sha<Policy>, repository: Option<Repository>,
                           semantics: Option<Packet>, receipts: seq<Receipt>)

  /** One gate's result of the semantic evaluator. */
  datatype Semantic = Semantic(passed: bool, components: seq<Id>, evidence: Id, subject: Id, expiresAt: Time)

  type SemanticOracle = (Packet, Gate, Time) -> Semantic

  type Residual = RepositoryAcceptance.Residual

  /** expectedAuthority, expectedRepository and expectedSemantics are the consumer's own
      roots; semanticPins are the supplied ones. */
  datatype Input = Input(bundle: Bundle, plan: Plan, policy: Policy, trust: Trust,
                         expectedAuthority: Sha<(Plan, Policy, Trust)>, expectedRepository: Id,
                         semanticPins: Option<Id>, expectedSemantics: Option<Id>)

  // ---------- What the models check ----------

  predicate ValidTrust(t: Trust) {
    t.human.role == HumanApprover && t.qa.role == TcoQa && t.human.keyId != t.qa.keyId
  }

  predicate ValidPolicy(p: Policy) {
    p.maxPlanTtl > 0 && p.maxEvidenceTtl > 0 && p.maxLiveTtl > 0 && p.maxReportTtl > 0
  }

  predicate ValidPlan(p: Plan) {
    && p.issuedAt <= p.notBefore < p.expiresAt && |p.requirements| == GATES
    && (forall g: Gate :: p.requirements[g].gate == g && p.requirements[g].role == RoleOf(g)
                          && |p.requirements[g].components| >= 1
                          && p.requirements[g].artifact == Sha(p.requirements[g].components))
    && forall i, j | 0 <= i < j < GATES :: p.requirements[i].evidence != p.requirements[j].evidence
  }

  predicate ValidReceipt(r: Receipt) {
    && r.body.observedAt < r.body.expiresAt && r.body.role == RoleOf(r.body.gate)
    && (r.body.gate == 0 <==> r.body.predecessor == Zero)
  }

  /** Canonical order, by gate first. */
  predicate ValidBundle(b: Bundle) {
    && (forall r | r in b.receipts :: ValidReceipt(r) && r.body.plan == b.plan && r.body.policy == b.policy)
    && forall i, j | 0 <= i < j < |b.receipts| :: b.receipts[i].body.gate <= b.receipts[j].body.gate
  }

  predicate ValidInput(inp: Input) {
    ValidTrust(inp.trust) && ValidPolicy(inp.policy) && ValidPlan(inp.plan) && ValidBundle(inp.bundle)
  }

  /** Plan, policy, trust store, bundle and the consumer's roots name each other. */
  predicate Bound(inp: Input) {
    && inp.expectedAuthority == Sha((inp.plan, inp.policy, inp.trust))
    && inp.policy.trust == Sha(inp.trust) && inp.plan.trust == Sha(inp.trust)
    && inp.plan.policy == Sha(inp.policy) && inp.bundle.policy == Sha(inp.policy) && inp.bundle.plan == Sha(inp.plan)
    && inp.plan.repositoryPins == inp.expectedRepository
    && (inp.semanticPins.Some? ==>
          inp.expectedSemantics == inp.semanticPins && inp.plan.semanticPins == inp.semanticPins.value)
  }

  // ---------- Findings ----------

  /** In the order of the reasons' names. */
  datatype Reason =
    | ConflictingReceipt | DuplicateReceipt | MissingReceipt | OutOfOrderReceipt | PlanExpired | PlanFuture
    | PlanTtlExceeded | PrerequisiteNotMet | ReceiptBeforePlan | ReceiptExpired | ReceiptFuture
    | ReceiptSignatureInvalid | ReceiptTtlExceeded | RepositoryAcceptanceInvalid | RepositoryAcceptanceMissing
    | RequirementMismatch | SemanticEvidenceInvalid | SemanticEvidenceMissing | SemanticExpiryExceeded
    | SemanticRequirementMismatch | SemanticScopeMismatch | SyntheticReceipt

  datatype Finding = Finding(gate: Gate, reason: Reason)

  function Rank(r: Reason): nat {
    match r
    case ConflictingReceipt => 0
    case DuplicateReceipt => 1
    case MissingReceipt => 2
    case OutOfOrderReceipt => 3
    case PlanExpired => 4
    case PlanFuture => 5
    case PlanTtlExceeded => 6
    case PrerequisiteNotMet => 7
    case ReceiptBeforePlan => 8
    case ReceiptExpired => 9
    case ReceiptFuture => 10
    case ReceiptSignatureInvalid => 11
    case ReceiptTtlExceeded => 12
    case RepositoryAcceptanceInvalid => 13
    case RepositoryAcceptanceMissing => 14
    case RequirementMismatch => 15
    case SemanticEvidenceInvalid => 16
    case SemanticEvidenceMissing => 17
    case SemanticExpiryExceeded => 18
    case SemanticRequirementMismatch => 19
    case SemanticScopeMismatch => 20
    case SyntheticReceipt => 21
  }

  predicate FindingBefore(a: Finding, b: Finding) {
    a.gate < b.gate || (a.gate == b.gate && Rank(a.reason) < Rank(b.reason))
  }

  function KeyOf(t: Trust, g: Gate): Key {
    if RoleOf(g) == HumanApprover then t.human else t.qa
  }

  function MaxTtl(p: Policy, g: Gate): nat {
    if IsLive(g) then p.maxLiveTtl else p.maxEvidenceTtl
  }

  predicate MatchesRequirement(r: Receipt, q: Requirement, p: Plan) {
    && r.body.gate == q.gate && r.body.requirement == Sha(q) && r.body.evidence == q.evidence
    && r.body.candidate == p.scope.candidate && r.body.property == p.scope.property
    && r.body.environment == p.scope.environment && r.body.deployment == p.scope.deployment
    && r.body.artifact == q.artifact && r.body.subject == q.subject && r.body.command == q.command
    && r.body.tool == q.tool && r.body.version == q.version && r.body.role == q.role && r.body.keyId == q.keyId
  }

  predicate SignatureOk(r: Receipt, k: Key, q: Requirement) {
    && r.body.issuer == k.issuer && r.body.keyId == k.keyId && r.body.role == k.role && q.keyId == k.keyId
    && r.signature.key == k.keyId && r.signature.message == r.body
  }

  /** The receipts of one gate, in bundle order. */
  function Of(receipts: seq<Receipt>, g: Gate): (rs: seq<Receipt>)
    ensures forall r | r in rs :: r in receipts && r.body.gate == g
    ensures forall r | r in receipts && r.body.gate == g :: r in rs
  {
    if receipts == [] then []
    else Of(receipts[..|receipts| - 1], g)
         + if receipts[|receipts| - 1].body.gate == g then [receipts[|receipts| - 1]] else []
  }

  function Single(b: Bundle, g: Gate): Option<Receipt> {
    if |Of(b.receipts, g)| == 1 then Some(Of(b.receipts, g)[0]) else None
  }

  predicate DuplicateId(b: Bundle, id: Id) {
    exists i, j | 0 <= i < j < |b.receipts| :: b.receipts[i].body.id == id && b.receipts[j].body.id == id
  }

  predicate HasSemantics(inp: Input) {
    inp.bundle.semantics.Some? && inp.semanticPins.Some?
  }

  function Reasons(holds: bool, r: Reason): set<Reason> {
    if holds then {r} else {}
  }

  function SemanticReasons(inp: Input, semantic: SemanticOracle, at: Time, g: Gate): set<Reason>
    requires ValidInput(inp)
  {
    if g == 0 then {}
    else if !HasSemantics(inp) then {SemanticEvidenceMissing}
    else
      var s := semantic(inp.bundle.semantics.value, g, at);
      var q := inp.plan.requirements[g];
      Reasons(inp.bundle.semantics.value.scope != inp.plan.scope, SemanticScopeMismatch)
      + Reasons(!s.passed, SemanticEvidenceInvalid)
      + Reasons(q.components != s.components || q.evidence != s.evidence || q.subject != s.subject,
                SemanticRequirementMismatch)
  }

  predicate RepositoryBound(inp: Input, residual: Residual, at: Time, p: Repository)
    requires ValidInput(inp)
  {
    var q := inp.plan.requirements[0];
    && q.components[0] == p.component && q.evidence == p.receipt && q.subject == p.tree
    && inp.plan.scope.candidate == p.manifest && RepositoryAcceptance.Accepts(p, residual, at)
  }

  function RepositoryReasons(inp: Input, residual: Residual, at: Time, g: Gate): set<Reason>
    requires ValidInput(inp)
  {
    if g != 0 then {}
    else if inp.bundle.repository.None? then {RepositoryAcceptanceMissing}
    else Reasons(!RepositoryBound(inp, residual, at, inp.bundle.repository.value), RepositoryAcceptanceInvalid)
  }

  function PlanReasons(inp: Input, at: Time): set<Reason> {
    Reasons(inp.plan.notBefore > at, PlanFuture) + Reasons(inp.plan.expiresAt <= at, PlanExpired)
    + Reasons(inp.plan.expiresAt - inp.plan.issuedAt > inp.policy.maxPlanTtl, PlanTtlExceeded)
  }

  function BindingReasons(inp: Input, g: Gate, r: Receipt): set<Reason>
    requires ValidInput(inp)
  {
    var q := inp.plan.requirements[g];
    Reasons(DuplicateId(inp.bundle, r.body.id), DuplicateReceipt)
    + Reasons(r.body.synthetic, SyntheticReceipt)
    + Reasons(!MatchesRequirement(r, q, inp.plan), RequirementMismatch)
    + Reasons(!SignatureOk(r, KeyOf(inp.trust, g), q), ReceiptSignatureInvalid)
  }

  function TimeReasons(inp: Input, semantic: SemanticOracle, at: Time, g: Gate, r: ReceiptBody): set<Reason>
    requires ValidInput(inp)
  {
    Reasons(r.observedAt < inp.plan.issuedAt, ReceiptBeforePlan)
    + Reasons(r.observedAt > at, ReceiptFuture)
    + Reasons(r.expiresAt <= at, ReceiptExpired)
    + Reasons(r.expiresAt - r.observedAt > MaxTtl(inp.policy, g), ReceiptTtlExceeded)
    + Reasons(g > 0 && HasSemantics(inp) && r.expiresAt > semantic(inp.bundle.semantics.value, g, at).expiresAt,
              SemanticExpiryExceeded)
  }

  function ReceiptReasons(inp: Input, semantic: SemanticOracle, at: Time, g: Gate): set<Reason>
    requires ValidInput(inp)
  {
    var rs := Of(inp.bundle.receipts, g);
    if rs == [] then {MissingReceipt}
    else if |rs| > 1 then
      {DuplicateReceipt} + Reasons(exists r | r in rs :: r.body != rs[0].body, ConflictingReceipt)
    else
      BindingReasons(inp, g, rs[0]) + TimeReasons(inp, semantic, at, g, rs[0].body)
  }

  /** The predecessor digest a gate's receipt must carry; None when there is no single
      preceding receipt, which no digest matches. */
  function ExpectedPredecessor(b: Bundle, g: Gate): Option<Sha<ReceiptBody>> {
    if g == 0 then Some(Zero)
    else if Single(b, g - 1).Some? then Some(Sha(Single(b, g - 1).value.body))
    else None
  }

  /** Some earlier gate's single receipt was observed later. */
  predicate IsLate(b: Bundle, g: Gate, observed: Time) {
    exists h: nat | h < g :: Single(b, h).Some? && observed < Single(b, h).value.body.observedAt
  }

  function ChainReasons(inp: Input, g: Gate): set<Reason> {
    var r := Single(inp.bundle, g);
    if r.None? then {}
    else Reasons(Some(r.value.body.predecessor) != ExpectedPredecessor(inp.bundle, g)
                 || IsLate(inp.bundle, g, r.value.body.observedAt), OutOfOrderReceipt)
  }

  /** Every reason a gate is held for by itself. */
  function DirectReasons(inp: Input, semantic: SemanticOracle, residual: Residual, at: Time, g: Gate): set<Reason>
    requires ValidInput(inp)
  {
    SemanticReasons(inp, semantic, at, g) + RepositoryReasons(inp, residual, at, g) + PlanReasons(inp, at)
    + ReceiptReasons(inp, semantic, at, g) + ChainReasons(inp, g)
  }

  /** An earlier gate is held. */
  predicate Blocked(inp: Input, semantic: SemanticOracle, residual: Residual, at: Time, g: Gate)
    requires ValidInput(inp)
  {
    exists h: nat | h < g :: DirectReasons(inp, semantic, residual, at, h) != {}
  }

  function AllReasons(inp: Input, semantic: SemanticOracle, residual: Residual, at: Time, g: Gate): set<Reason>
    requires ValidInput(inp)
  {
    DirectReasons(inp, semantic, residual, at, g) + Reasons(Blocked(inp, semantic, residual, at, g), PrerequisiteNotMet)
  }
}
