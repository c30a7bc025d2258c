/** Which input holds a gate for which reason, gate by gate and field by field. */
module LaunchHandoffRules {
  import opened Common
  import opened Sorting
  import opened LaunchHandoffTypes
  import opened LaunchHandoff
  import opened LaunchHandoffReady
  import RepositoryAcceptance

  // ---------- The receipts of a gate ----------

  /** How many receipts the gate has. */
  function CountAt(receipts: seq<Receipt>, g: nat): nat {
    if receipts == [] then 0
    else CountAt(receipts[..|receipts| - 1], g) + if receipts[|receipts| - 1].body.gate == g then 1 else 0
  }

  /** y is the gate's only receipt. */
  predicate IsOnly(b: Bundle, g: nat, y: Receipt) {
    CountAt(b.receipts, g) == 1 && y in b.receipts && y.body.gate == g
  }

  /** Two receipts of the gate say different things. */
  predicate Conflicting(b: Bundle, g: nat) {
    exists y, z | y in b.receipts && z in b.receipts && y.body.gate == g && z.body.gate == g :: y.body != z.body
  }

  /** The predecessor digest is zero at gate 0, and elsewhere that of the only receipt of
      the gate before. */
  ghost predicate Follows(b: Bundle, g: nat, predecessor: Sha<ReceiptBody>) {
    if g > 0 then exists y :: IsOnly(b, g - 1, y) && predecessor == Sha(y.body) else predecessor == Zero
  }

  /** The only receipt of some earlier gate was observed later. */
  ghost predicate Overtaken(b: Bundle, g: nat, observedAt: Time) {
    exists h: nat, y | h < g && IsOnly(b, h, y) :: observedAt < y.body.observedAt
  }

  lemma {:induction false} OfCount(receipts: seq<Receipt>, g: Gate)
    ensures |Of(receipts, g)| == CountAt(receipts, g)
  {
    if receipts != [] {
      OfCount(receipts[..|receipts| - 1], g);
    }
  }

  lemma OnlyIsSingle(b: Bundle, g: Gate)
    ensures forall y :: IsOnly(b, g, y) <==> Single(b, g) == Some(y)
  {
    OfCount(b.receipts, g);
  }

  lemma ConflictRules(b: Bundle, g: Gate)
    requires Of(b.receipts, g) != []
    ensures (exists r | r in Of(b.receipts, g) :: r.body != Of(b.receipts, g)[0].body) <==> Conflicting(b, g)
  {
    var mine := Of(b.receipts, g);
    assert mine[0] in mine;
    if y, z :| y in b.receipts && z in b.receipts && y.body.gate == g && z.body.gate == g && y.body != z.body {
      assert y in mine && z in mine;
    }
  }

  // ---------- Reasons ----------

  /** The key that signs for a gate: TCO/QA for gates 3 to 6, the Human for the others. */
  function SignerOf(t: Trust, g: Gate): Key {
    if g == 3 || g == 4 || g == 5 || g == 6 then t.qa else t.human
  }

  /** The receipt's lifetime limit: the shorter one for the two live gates. */
  function LifetimeOf(p: Policy, g: Gate): nat {
    if g == 6 || g == 7 then p.maxLiveTtl else p.maxEvidenceTtl
  }

  /** Gates 0 to 2 and 7 are the Human's, 3 to 6 TCO/QA's; 6 and 7 are live. */
  lemma GateTable(t: Trust, p: Policy)
    ensures forall g: Gate | g <= 2 || g == 7 :: RoleOf(g) == HumanApprover && KeyOf(t, g) == t.human
    ensures forall g: Gate | 3 <= g <= 6 :: RoleOf(g) == TcoQa && KeyOf(t, g) == t.qa
    ensures forall g: Gate | g <= 5 :: MaxTtl(p, g) == p.maxEvidenceTtl
    ensures forall g: Gate | g >= 6 :: MaxTtl(p, g) == p.maxLiveTtl
    ensures forall g: Gate :: KeyOf(t, g) == SignerOf(t, g) && MaxTtl(p, g) == LifetimeOf(p, g)
  {
  }

  /** The receipt repeats its requirement and the plan's scope. */
  predicate Repeats(r: ReceiptBody, q: Requirement, s: Scope) {
    && r.gate == q.gate && r.requirement == Sha(q) && r.evidence == q.evidence && r.artifact == q.artifact
    && r.subject == q.subject && r.command == q.command && r.tool == q.tool && r.version == q.version
    && r.role == q.role && r.keyId == q.keyId
    && r.candidate == s.candidate && r.property == s.property && r.environment == s.environment && r.deployment == s.deployment
  }

  predicate SignedBy(y: Receipt, k: Key, q: Requirement) {
    && y.body.issuer == k.issuer && y.body.keyId == k.keyId && y.body.role == k.role && q.keyId == k.keyId
    && y.signature.key == k.keyId && y.signature.message == y.body
  }

  predicate SharesId(b: Bundle, id: Id) {
    exists i, j | 0 <= i < j < |b.receipts| :: b.receipts[i].body.id == id && b.receipts[j].body.id == id
  }

  /** The gate's only receipt y carries the fault. */
  ghost predicate Faulty(inp: Input, semantic: SemanticOracle, at: Time, g: Gate, y: Receipt, q: Requirement, x: Reason) {
    var r := y.body;
    match x
    case DuplicateReceipt => SharesId(inp.bundle, r.id)
    case SyntheticReceipt => r.synthetic
    case RequirementMismatch => !Repeats(r, q, inp.plan.scope)
    case ReceiptSignatureInvalid => !SignedBy(y, SignerOf(inp.trust, g), q)
    case ReceiptBeforePlan => r.observedAt < inp.plan.issuedAt
    case ReceiptFuture => at < r.observedAt
    case ReceiptExpired => r.expiresAt <= at
    case ReceiptTtlExceeded => r.observedAt + LifetimeOf(inp.policy, g) < r.expiresAt
    case SemanticExpiryExceeded =>
      && g > 0 && inp.bundle.semantics.Some? && inp.semanticPins.Some?
      && semantic(inp.bundle.semantics.value, g, at).expiresAt < r.expiresAt
    case OutOfOrderReceipt => !Follows(inp.bundle, g, r.predecessor) || Overtaken(inp.bundle, g, r.observedAt)
    case _ => false
  }

  /** The gate is held for the reason by itself. */
  ghost predicate Raised(inp: Input, semantic: SemanticOracle, residual: Residual, at: Time, g: Gate, x: Reason)
    requires ValidInput(inp)
  {
    var b, p, q := inp.bundle, inp.plan, inp.plan.requirements[g];
    var evident := b.semantics.Some? && inp.semanticPins.Some?;
    match x
    case SemanticEvidenceMissing => g > 0 && !evident
    case SemanticScopeMismatch => g > 0 && evident && b.semantics.value.scope != p.scope
    case SemanticEvidenceInvalid => g > 0 && evident && !semantic(b.semantics.value, g, at).passed
    case SemanticRequirementMismatch =>
      && g > 0 && evident
      && var s := semantic(b.semantics.value, g, at);
      !(s.components == q.components && s.evidence == q.evidence && s.subject == q.subject)
    case RepositoryAcceptanceMissing => g == 0 && b.repository.None?
    case RepositoryAcceptanceInvalid =>
      && g == 0 && b.repository.Some?
      && var y := b.repository.value;
      !(&& q.components[0] == y.component && q.evidence == y.receipt && q.subject == y.tree && p.scope.candidate == y.manifest
        && RepositoryAcceptance.Accepts(y, residual, at))
    case PlanFuture => at < p.notBefore
    case PlanExpired => p.expiresAt <= at
    case PlanTtlExceeded => p.issuedAt + inp.policy.maxPlanTtl < p.expiresAt
    case MissingReceipt => CountAt(b.receipts, g) == 0
    case ConflictingReceipt => Conflicting(b, g)
    case DuplicateReceipt => CountAt(b.receipts, g) > 1 || exists y :: IsOnly(b, g, y) && Faulty(inp, semantic, at, g, y, q, x)
    case _ => exists y :: IsOnly(b, g, y) && Faulty(inp, semantic, at, g, y, q, x)
  }

  lemma SemanticRules(inp: Input, semantic: SemanticOracle, residual: Residual, at: Time, g: Gate, x: Reason)
    requires ValidInput(inp)
    ensures x in SemanticReasons(inp, semantic, at, g) <==>
            && x in {SemanticEvidenceMissing, SemanticScopeMismatch, SemanticEvidenceInvalid, SemanticRequirementMismatch}
            && Raised(inp, semantic, residual, at, g, x)
  {
  }

  lemma RepositoryRules(inp: Input, semantic: SemanticOracle, residual: Residual, at: Time, g: Gate, x: Reason)
    requires ValidInput(inp)
    ensures x in RepositoryReasons(inp, residual, at, g) + PlanReasons(inp, at) <==>
            && x in {RepositoryAcceptanceMissing, RepositoryAcceptanceInvalid, PlanFuture, PlanExpired, PlanTtlExceeded}
            && Raised(inp, semantic, residual, at, g, x)
  {
  }

  lemma BindingRules(inp: Input, semantic: SemanticOracle, at: Time, g: Gate, y: Receipt, x: Reason)
    requires ValidInput(inp)
    ensures x in BindingReasons(inp, g, y) <==>
            && x in {DuplicateReceipt, SyntheticReceipt, RequirementMismatch, ReceiptSignatureInvalid}
            && Faulty(inp, semantic, at, g, y, inp.plan.requirements[g], x)
  {
    GateTable(inp.trust, inp.policy);
  }

  lemma TimeRules(inp: Input, semantic: SemanticOracle, at: Time, g: Gate, y: Receipt, x: Reason)
    requires ValidInput(inp)
    ensures x in TimeReasons(inp, semantic, at, g, y.body) <==>
            && x in {ReceiptBeforePlan, ReceiptFuture, ReceiptExpired, ReceiptTtlExceeded, SemanticExpiryExceeded}
            && Faulty(inp, semantic, at, g, y, inp.plan.requirements[g], x)
  {
    GateTable(inp.trust, inp.policy);
  }

  lemma OvertakenRules(b: Bundle, g: Gate, observedAt: Time)
    ensures IsLate(b, g, observedAt) <==> Overtaken(b, g, observedAt)
  {
    if h: nat :| h < g && Single(b, h).Some? && observedAt < Single(b, h).value.body.observedAt {
      OnlyIsSingle(b, h);
      assert IsOnly(b, h, Single(b, h).value);
    }
    if h: nat, y :| h < g && IsOnly(b, h, y) && observedAt < y.body.observedAt {
      OnlyIsSingle(b, h);
    }
  }

  lemma FollowsRules(b: Bundle, g: Gate, predecessor: Sha<ReceiptBody>)
    ensures Some(predecessor) == ExpectedPredecessor(b, g) <==> Follows(b, g, predecessor)
  {
    if g > 0 {
      OnlyIsSingle(b, g - 1);
      if Single(b, g - 1).Some? {
        assert IsOnly(b, g - 1, Single(b, g - 1).value);
      }
    }
  }

  predicate IsReceiptReason(x: Reason) {
    x in {DuplicateReceipt, SyntheticReceipt, RequirementMismatch, ReceiptSignatureInvalid, ReceiptBeforePlan, ReceiptFuture,
          ReceiptExpired, ReceiptTtlExceeded, SemanticExpiryExceeded, OutOfOrderReceipt}
  }

  lemma SingleRules(inp: Input, semantic: SemanticOracle, at: Time, g: Gate, y: Receipt, x: Reason)
    requires ValidInput(inp) && Single(inp.bundle, g) == Some(y)
    ensures x in ReceiptReasons(inp, semantic, at, g) + ChainReasons(inp, g) <==>
            IsReceiptReason(x) && Faulty(inp, semantic, at, g, y, inp.plan.requirements[g], x)
  {
    BindingRules(inp, semantic, at, g, y, x);
    TimeRules(inp, semantic, at, g, y, x);
    FollowsRules(inp.bundle, g, y.body.predecessor);
    OvertakenRules(inp.bundle, g, y.body.observedAt);
  }

  lemma SingleRaises(inp: Input, semantic: SemanticOracle, residual: Residual, at: Time, g: Gate, y: Receipt, x: Reason)
    requires ValidInput(inp) && Single(inp.bundle, g) == Some(y) && IsReceiptReason(x)
    ensures Raised(inp, semantic, residual, at, g, x) <==> Faulty(inp, semantic, at, g, y, inp.plan.requirements[g], x)
  {
    OnlyIsSingle(inp.bundle, g);
    OfCount(inp.bundle.receipts, g);
    assert IsOnly(inp.bundle, g, y);
  }

  /** A gate with one receipt neither misses one nor has conflicting ones. */
  lemma SingleIsCalm(b: Bundle, g: Gate)
    requires Single(b, g).Some?
    ensures CountAt(b.receipts, g) == 1 && !Conflicting(b, g)
  {
    OfCount(b.receipts, g);
    ConflictRules(b, g);
  }

  lemma NoReceiptReasons(inp: Input, semantic: SemanticOracle, at: Time, g: Gate)
    requires ValidInput(inp) && Of(inp.bundle.receipts, g) == []
    ensures ReceiptReasons(inp, semantic, at, g) == {MissingReceipt} && !Conflicting(inp.bundle, g)
  {
  }

  lemma ManyReceiptReasons(inp: Input, semantic: SemanticOracle, at: Time, g: Gate)
    requires ValidInput(inp) && |Of(inp.bundle.receipts, g)| > 1
    ensures ReceiptReasons(inp, semantic, at, g)
         == {DuplicateReceipt} + if Conflicting(inp.bundle, g) then {ConflictingReceipt} else {}
  {
    ConflictRules(inp.bundle, g);
  }

  lemma NoChainReasons(inp: Input, g: Gate)
    requires Single(inp.bundle, g).None?
    ensures ChainReasons(inp, g) == {}
  {
  }

  /** What is said of a gate without an only receipt. */
  function WithoutReceipt(b: Bundle, g: Gate): set<Reason> {
    if CountAt(b.receipts, g) == 0 then {MissingReceipt}
    else {DuplicateReceipt} + if Conflicting(b, g) then {ConflictingReceipt} else {}
  }

  lemma NoSingleRules(inp: Input, semantic: SemanticOracle, at: Time, g: Gate)
    requires ValidInput(inp) && Single(inp.bundle, g).None?
    ensures ReceiptReasons(inp, semantic, at, g) == WithoutReceipt(inp.bundle, g)
  {
    OfCount(inp.bundle.receipts, g);
    if Of(inp.bundle.receipts, g) == [] {
      NoReceiptReasons(inp, semantic, at, g);
    } else {
      ManyReceiptReasons(inp, semantic, at, g);
    }
  }

  lemma NoSingleShape(b: Bundle, g: Gate)
    requires Single(b, g).None?
    ensures CountAt(b.receipts, g) == 0 ==> !Conflicting(b, g)
    ensures CountAt(b.receipts, g) != 1
  {
    OfCount(b.receipts, g);
    if Of(b.receipts, g) == [] {
      assert !Conflicting(b, g);
    }
  }

  lemma NoSingleRaises(inp: Input, semantic: SemanticOracle, residual: Residual, at: Time, g: Gate, x: Reason)
    requires ValidInput(inp) && Single(inp.bundle, g).None? && IsReceiptReason(x)
    ensures Raised(inp, semantic, residual, at, g, x) <==> x == DuplicateReceipt && CountAt(inp.bundle.receipts, g) > 1
  {
    OnlyIsSingle(inp.bundle, g);
  }

  predicate IsReceiptCheck(x: Reason) {
    IsReceiptReason(x) || x == MissingReceipt || x == ConflictingReceipt
  }

  lemma WithReceipt(inp: Input, semantic: SemanticOracle, residual: Residual, at: Time, g: Gate, x: Reason)
    requires ValidInput(inp) && Single(inp.bundle, g).Some?
    ensures x in ReceiptReasons(inp, semantic, at, g) + ChainReasons(inp, g) <==>
            IsReceiptCheck(x) && Raised(inp, semantic, residual, at, g, x)
  {
    var y := Single(inp.bundle, g).value;
    SingleRules(inp, semantic, at, g, y, x);
    SingleIsCalm(inp.bundle, g);
    if IsReceiptReason(x) {
      SingleRaises(inp, semantic, residual, at, g, y, x);
    }
  }

  lemma WithoutMembers(b: Bundle, g: Gate, x: Reason)
    requires Single(b, g).None?
    ensures x in WithoutReceipt(b, g) <==>
            || (x == MissingReceipt && CountAt(b.receipts, g) == 0)
            || (x == DuplicateReceipt && CountAt(b.receipts, g) > 1)
            || (x == ConflictingReceipt && Conflicting(b, g))
  {
    NoSingleShape(b, g);
  }

  lemma WithoutRaises(inp: Input, semantic: SemanticOracle, residual: Residual, at: Time, g: Gate, x: Reason)
    requires ValidInput(inp) && Single(inp.bundle, g).None?
    ensures x in WithoutReceipt(inp.bundle, g) <==> IsReceiptCheck(x) && Raised(inp, semantic, residual, at, g, x)
  {
    WithoutMembers(inp.bundle, g, x);
    if IsReceiptReason(x) {
      NoSingleRaises(inp, semantic, residual, at, g, x);
    }
  }

  lemma ReceiptRules(inp: Input, semantic: SemanticOracle, residual: Residual, at: Time, g: Gate, x: Reason)
    requires ValidInput(inp)
    ensures x in ReceiptReasons(inp, semantic, at, g) + ChainReasons(inp, g) <==>
            IsReceiptCheck(x) && Raised(inp, semantic, residual, at, g, x)
  {
    if Single(inp.bundle, g).Some? {
      WithReceipt(inp, semantic, residual, at, g, x);
    } else {
      NoSingleRules(inp, semantic, at, g);
      NoChainReasons(inp, g);
      WithoutRaises(inp, semantic, residual, at, g, x);
    }
  }

  /** Each gate is held by itself exactly for the raised reasons. */
  lemma DirectRules(inp: Input, semantic: SemanticOracle, residual: Residual, at: Time, g: Gate, x: Reason)
    requires ValidInput(inp)
    ensures x in DirectReasons(inp, semantic, residual, at, g) <==> Raised(inp, semantic, residual, at, g, x)
  {
    DirectUnion(inp, semantic, residual, at, g, x);
    SemanticRules(inp, semantic, residual, at, g, x);
    RepositoryRules(inp, semantic, residual, at, g, x);
    ReceiptRules(inp, semantic, residual, at, g, x);
    if x == PrerequisiteNotMet {
      assert forall y :: !Faulty(inp, semantic, at, g, y, inp.plan.requirements[g], x);
    }
  }

  lemma DirectUnion(inp: Input, semantic: SemanticOracle, residual: Residual, at: Time, g: Gate, x: Reason)
    requires ValidInput(inp)
    ensures x in DirectReasons(inp, semantic, residual, at, g) <==>
            || x in SemanticReasons(inp, semantic, at, g)
            || x in RepositoryReasons(inp, residual, at, g) + PlanReasons(inp, at)
            || x in ReceiptReasons(inp, semantic, at, g) + ChainReasons(inp, g)
  {
  }

  lemma BlockedRules(inp: Input, semantic: SemanticOracle, residual: Residual, at: Time, g: Gate)
    requires ValidInput(inp)
    ensures Blocked(inp, semantic, residual, at, g) <==> exists h: Gate, y | h < g :: Raised(inp, semantic, residual, at, h, y)
  {
    if h: nat :| h < g && DirectReasons(inp, semantic, residual, at, h) != {} {
      var y :| y in DirectReasons(inp, semantic, residual, at, h);
      DirectRules(inp, semantic, residual, at, h, y);
    }
    if h: Gate, y :| h < g && Raised(inp, semantic, residual, at, h, y) {
      DirectRules(inp, semantic, residual, at, h, y);
    }
  }

  lemma NothingRaised(inp: Input, semantic: SemanticOracle, residual: Residual, at: Time)
    requires ValidInput(inp)
    ensures Ready(inp, semantic, residual, at) <==> forall g: Gate, x :: !Raised(inp, semantic, residual, at, g, x)
  {
    if g: Gate :| DirectReasons(inp, semantic, residual, at, g) != {} {
      var x :| x in DirectReasons(inp, semantic, residual, at, g);
      DirectRules(inp, semantic, residual, at, g, x);
    }
    if g: Gate, x :| Raised(inp, semantic, residual, at, g, x) {
      DirectRules(inp, semantic, residual, at, g, x);
    }
  }

  lemma FindingRules(inp: Input, semantic: SemanticOracle, residual: Residual, at: Time, g: Gate, x: Reason)
    requires ValidInput(inp)
    ensures x in AllReasons(inp, semantic, residual, at, g) <==>
            || Raised(inp, semantic, residual, at, g, x)
            || (x == PrerequisiteNotMet && exists h: Gate, y | h < g :: Raised(inp, semantic, residual, at, h, y))
  {
    DirectRules(inp, semantic, residual, at, g, x);
    BlockedRules(inp, semantic, residual, at, g);
  }

  /** A report holds a gate for a reason exactly when the input raises it there, or, as a
      missing prerequisite, when an earlier gate is held for anything; it is ready exactly
      when nothing is raised anywhere. */
  lemma ReportRules(inp: Input, semantic: SemanticOracle, residual: Residual, at: Time, r: Report)
    requires ValidInput(inp) && Correct(inp, semantic, residual, at, r)
    ensures forall g: Gate, x :: Finding(g, x) in r.findings <==>
            || Raised(inp, semantic, residual, at, g, x)
            || (x == PrerequisiteNotMet && exists h: Gate, y | h < g :: Raised(inp, semantic, residual, at, h, y))
    ensures r.ready <==> forall g: Gate, x :: !Raised(inp, semantic, residual, at, g, x)
  {
    NothingRaised(inp, semantic, residual, at);
    forall g: Gate, x
      ensures Finding(g, x) in r.findings <==>
              || Raised(inp, semantic, residual, at, g, x)
              || (x == PrerequisiteNotMet && exists h: Gate, y | h < g :: Raised(inp, semantic, residual, at, h, y))
    {
      FindingRules(inp, semantic, residual, at, g, x);
      assert Finding(g, x).gate == g && Finding(g, x).reason == x;
    }
  }

  /** Findings come by gate and then by the reason's name, each once; passed and failed
      gates come in order, and each gate is in one of the two lists. */
  lemma ListRules(inp: Input, semantic: SemanticOracle, residual: Residual, at: Time, r: Report)
    requires ValidInput(inp) && Correct(inp, semantic, residual, at, r)
    ensures forall i, j | 0 <= i < j < |r.findings| ::
              || r.findings[i].gate < r.findings[j].gate
              || (r.findings[i].gate == r.findings[j].gate && Rank(r.findings[i].reason) < Rank(r.findings[j].reason))
    ensures forall i, j | 0 <= i < j < |r.passed| :: r.passed[i] < r.passed[j]
    ensures forall i, j | 0 <= i < j < |r.failed| :: r.failed[i] < r.failed[j]
    ensures forall g: Gate :: g in r.passed <==> g !in r.failed
    ensures forall g: Gate :: g in r.failed <==> exists x :: Finding(g, x) in r.findings
    ensures r.at == at && r.authority == Sha((inp.plan, inp.policy, inp.trust)) && r.bundle == Sha(inp.bundle)
    ensures !r.ready ==> r.expiresAt == at
  {
    FailedIsFound(inp, semantic, residual, at, r);
    forall g: Gate ensures g in r.failed <==> exists x :: Finding(g, x) in r.findings {
      if f :| f in r.findings && f.gate == g {
        assert f == Finding(g, f.reason);
      }
    }
  }

  /** What the report's own validator demands. */
  lemma ValidatorRules(r: Report)
    ensures ValidReport(r) <==>
            && (forall i, j | 0 <= i < j < |r.findings| ::
                  || r.findings[i].gate < r.findings[j].gate
                  || (r.findings[i].gate == r.findings[j].gate && Rank(r.findings[i].reason) < Rank(r.findings[j].reason)))
            && (forall i, j | 0 <= i < j < |r.passed| :: r.passed[i] < r.passed[j])
            && (forall i, j | 0 <= i < j < |r.failed| :: r.failed[i] < r.failed[j])
            && (forall g: Gate :: g in r.passed <==> g !in r.failed)
            && (r.ready <==> |r.failed| == 0 && |r.findings| == 0) && (r.ready ==> r.at < r.expiresAt)
  {
    assert Sorted(r.findings, FindingBefore) <==> forall i, j | 0 <= i < j < |r.findings| ::
        || r.findings[i].gate < r.findings[j].gate
        || (r.findings[i].gate == r.findings[j].gate && Rank(r.findings[i].reason) < Rank(r.findings[j].reason));
  }

  // ---------- Expiry ----------

  /** A ready report ends at the first of: the plan's expiry, the report lifetime, a gate's
      semantic expiry, a receipt's expiry, an expiry of the repository bundle. */
  lemma ReadyExpiry(inp: Input, semantic: SemanticOracle, residual: Residual, at: Time, r: Report)
    requires ValidInput(inp) && Correct(inp, semantic, residual, at, r) && r.ready
    ensures |inp.bundle.receipts| == GATES && inp.bundle.semantics.Some? && inp.bundle.repository.Some?
    ensures IsLeast(r.expiresAt,
              {inp.plan.expiresAt, at + inp.policy.maxReportTtl}
              + (set g: Gate | g > 0 :: semantic(inp.bundle.semantics.value, g, at).expiresAt)
              + (set i | 0 <= i < GATES :: inp.bundle.receipts[i].body.expiresAt)
              + Elements(RepositoryAcceptance.Expiries(inp.bundle.repository.value)))
  {
    ReadyShape(inp, semantic, residual, at);
    DeadlineRules(inp, semantic, at);
  }

  lemma ReadyShape(inp: Input, semantic: SemanticOracle, residual: Residual, at: Time)
    requires ValidInput(inp) && Ready(inp, semantic, residual, at)
    ensures InOrder(inp.bundle.receipts) && HasSemantics(inp) && inp.bundle.repository.Some?
  {
    ReadyIff(inp, semantic, residual, at);
  }

  lemma DeadlineRules(inp: Input, semantic: SemanticOracle, at: Time)
    requires InOrder(inp.bundle.receipts) && HasSemantics(inp) && inp.bundle.repository.Some?
    ensures Deadlines(inp, semantic, at) ==
            {inp.plan.expiresAt, at + inp.policy.maxReportTtl}
            + (set g: Gate | g > 0 :: semantic(inp.bundle.semantics.value, g, at).expiresAt)
            + (set i | 0 <= i < GATES :: inp.bundle.receipts[i].body.expiresAt)
            + Elements(RepositoryAcceptance.Expiries(inp.bundle.repository.value))
  {
    ReceiptDates(inp.bundle);
    SemanticDates(inp.bundle.semantics.value, semantic, at);
    var a, b := SemanticDeadlines(inp.bundle.semantics.value, semantic, at, GATES), ReceiptDeadlines(inp.bundle, GATES);
    var c, d := Elements(RepositoryAcceptance.Expiries(inp.bundle.repository.value)), {inp.plan.expiresAt, at + inp.policy.maxReportTtl};
    assert Deadlines(inp, semantic, at) == a + c + b + d == d + a + b + c;
  }

  lemma SemanticDates(p: Packet, semantic: SemanticOracle, at: Time)
    ensures SemanticDeadlines(p, semantic, at, GATES) == set g: Gate | g > 0 :: semantic(p, g, at).expiresAt
  {
  }

  lemma ReceiptDates(b: Bundle)
    requires InOrder(b.receipts)
    ensures ReceiptDeadlines(b, GATES) == set i | 0 <= i < GATES :: b.receipts[i].body.expiresAt
  {
    forall g: Gate ensures Single(b, g) == Some(b.receipts[g]) {
      OfOrdered(b, g);
    }
  }

  // ---------- Inputs ----------

  /** What the models of trust store, policy, plan and receipts demand. */
  lemma InputRules(inp: Input)
    ensures ValidInput(inp) <==>
            var t, p, l, rs := inp.trust, inp.policy, inp.plan, inp.bundle.receipts;
            && t.human.role == HumanApprover && t.qa.role == TcoQa && t.human.keyId != t.qa.keyId
            && p.maxPlanTtl >= 1 && p.maxEvidenceTtl >= 1 && p.maxLiveTtl >= 1 && p.maxReportTtl >= 1
            && l.issuedAt <= l.notBefore && l.notBefore < l.expiresAt && |l.requirements| == 8
            && (forall g: Gate ::
                  && l.requirements[g].gate == g && |l.requirements[g].components| > 0
                  && l.requirements[g].artifact == Sha(l.requirements[g].components)
                  && l.requirements[g].role == if 3 <= g && g <= 6 then TcoQa else HumanApprover)
            && (forall g: Gate, h: Gate | g != h :: l.requirements[g].evidence != l.requirements[h].evidence)
            && (forall r | r in rs ::
                  && r.body.plan == inp.bundle.plan && r.body.policy == inp.bundle.policy && r.body.observedAt < r.body.expiresAt
                  && r.body.role == (if 3 <= r.body.gate && r.body.gate <= 6 then TcoQa else HumanApprover)
                  && (r.body.gate == 0 <==> r.body.predecessor == Zero))
            && (forall i, j | 0 <= i < j < |rs| :: rs[i].body.gate <= rs[j].body.gate)
  {
    assert ValidPlan(inp.plan) <==>
           && inp.plan.issuedAt <= inp.plan.notBefore < inp.plan.expiresAt && |inp.plan.requirements| == 8
           && (forall g: Gate ::
                 && inp.plan.requirements[g].gate == g && |inp.plan.requirements[g].components| > 0
                 && inp.plan.requirements[g].artifact == Sha(inp.plan.requirements[g].components)
                 && inp.plan.requirements[g].role == if 3 <= g && g <= 6 then TcoQa else HumanApprover)
           && (forall g: Gate, h: Gate | g != h :: inp.plan.requirements[g].evidence != inp.plan.requirements[h].evidence);
  }

  // ---------- Roots and signing ----------

  /** The roots bind when policy, trust store, plan, bundle and the consumer's digests name
      each other, and supplied semantic pins are the expected and the planned ones. */
  lemma RootRules(inp: Input)
    ensures Bound(inp) <==>
            && inp.expectedAuthority == Sha((inp.plan, inp.policy, inp.trust))
            && inp.policy.trust == Sha(inp.trust) && inp.plan.trust == Sha(inp.trust)
            && inp.plan.policy == Sha(inp.policy) && inp.bundle.policy == Sha(inp.policy) && inp.bundle.plan == Sha(inp.plan)
            && inp.expectedRepository == inp.plan.repositoryPins
            && (inp.semanticPins.None?
                || (inp.expectedSemantics == inp.semanticPins && inp.semanticPins == Some(inp.plan.semanticPins)))
  {
  }

  /** A receipt can be signed exactly for a requirement of the plan, on top of the receipt
      of the gate before it under the same plan and policy, and for gate 0 on nothing; it
      then repeats requirement, scope and the signer's own choices. */
  lemma SigningRules(plan: Plan, policy: Policy, q: Requirement, s: Signing, predecessor: Option<Receipt>)
    ensures var y := SignReceipt(plan, policy, q, s, predecessor);
            && (y.Ok? <==>
                  && plan.policy == Sha(policy) && q in plan.requirements
                  && (q.gate == 0 ==> predecessor.None?)
                  && (q.gate > 0 ==>
                        && predecessor.Some? && predecessor.value.body.gate + 1 == q.gate
                        && predecessor.value.body.plan == Sha(plan) && predecessor.value.body.policy == Sha(policy)))
            && (y.Ok? ==>
                  && var r := y.value.body;
                  && (s.keyId == q.keyId ==> Repeats(r, q, plan.scope)) && r.plan == Sha(plan) && r.policy == Sha(policy)
                  && (q.gate == 0 ==> r.predecessor == Zero) && (q.gate > 0 ==> r.predecessor == Sha(predecessor.value.body))
                  && r.id == s.id && r.issuer == s.issuer && r.keyId == s.keyId && r.synthetic == s.synthetic
                  && r.observedAt == s.observedAt && r.expiresAt == s.expiresAt
                  && y.value.signature.key == s.keyId && y.value.signature.message == r)
  {
  }
}
