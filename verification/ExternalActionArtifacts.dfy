/** Signed artifacts of one external action: request, Human approval, controller
    grant, claim, revocation and receipt, with the issuer and the fixed verifier. */
module ExternalActionArtifacts {
  import opened Common

  datatype Action = SendRightsInquiry | SubmitAffiliateApplication | ActivatePublicRelease | DisablePublicRelease

  datatype Environment = VendorContact | Production

  datatype Decision = Go | Stop | Conditional

  datatype ActionResult = Succeeded | Failed | Partial | Unknown

  datatype ActionError =
    | RequestInvalid | PolicyMismatch | TargetNotAllowed | NotExecutable | RequestTtlExceeded
    | ApprovalInvalid | NotGo | ReleaseReportInvalid | UnexpectedReleaseReport | NoPositiveValidity

  /** The verification key a trust store holds for one role. */
  datatype Key = Key(issuer: Id, keyId: Id)

  /** A target rule, and the same six fields of a request. */
  datatype Target = Target(action: Action, environment: Environment, environmentHash: Id,
                           vendor: Option<Id>, property: Id, target: Id)

  datatype Policy = Policy(controllerKeyId: Id, humanKeyId: Id, executorKeyId: Id, rules: set<Target>,
                           maxRequestTtl: nat, maxApprovalTtl: nat, maxGrantTtl: nat, maxReceiptDelay: nat)

  datatype Trust = Trust(controller: Key, human: Key, executor: Key)

  /** Release, manifest and artifact; an activation adds the public report and authorization. */
  datatype Release = Release(release: Id, manifest: Id, artifact: Id, publicReport: Option<(Id, Id)>)

  datatype Request = Request(requestId: Id, requester: Id, target: Target, policy: Sha<Policy>, payload: Id,
                             idempotencyKey: Id, preState: Id, postState: Id, release: Option<Release>,
                             requestedAt: Time, notBefore: Time, expiresAt: Time)

  datatype ApprovalBody = ApprovalBody(issuer: Id, keyId: Id, requestId: Id, request: Sha<Request>,
                                       policy: Sha<Policy>, action: Action, environment: Environment,
                                       decision: Decision, record: Id, issuedAt: Time, expiresAt: Time)

  datatype Approval = Approval(body: ApprovalBody, signature: Signature<ApprovalBody>)

  datatype GrantId = GrantId(request: Sha<Request>, approval: Sha<ApprovalBody>, issuedAt: Time, executor: Id)

  datatype GrantBody = GrantBody(issuer: Id, keyId: Id, grantId: Sha<GrantId>, requestId: Id,
                                 request: Sha<Request>, approval: Sha<ApprovalBody>, policy: Sha<Policy>,
                                 action: Action, environment: Environment, idempotencyKey: Id,
                                 executorKeyId: Id, release: Option<Release>, issuedAt: Time, expiresAt: Time)

  datatype Grant = Grant(body: GrantBody, signature: Signature<GrantBody>)

  type GrantHash = Sha<GrantBody>

  datatype RevocationBody = RevocationBody(issuer: Id, keyId: Id, request: Sha<Request>, grant: GrantHash,
                                           policy: Sha<Policy>, reason: Id, issuedAt: Time, effectiveAt: Time)

  datatype Revocation = Revocation(body: RevocationBody, signature: Signature<RevocationBody>)

  datatype ClaimId = ClaimId(request: Sha<Request>, approval: Sha<ApprovalBody>, grant: GrantHash, claimedAt: Time)

  datatype Claim = Claim(claimId: Sha<ClaimId>, requestId: Id, request: Sha<Request>,
                         approval: Sha<ApprovalBody>, grant: GrantHash, policy: Sha<Policy>, action: Action,
                         environment: Environment, idempotencyKey: Id, preState: Id, claimedAt: Time)

  datatype ReceiptId = ReceiptId(request: Sha<Request>, grant: GrantHash, claim: Sha<Claim>,
                                 completedAt: Time, result: ActionResult)

  datatype ReceiptBody = ReceiptBody(issuer: Id, keyId: Id, receiptId: Sha<ReceiptId>, requestId: Id,
                                     request: Sha<Request>, grant: GrantHash, claim: Sha<Claim>,
                                     policy: Sha<Policy>, action: Action, environment: Environment,
                                     idempotencyKey: Id, result: ActionResult, preState: Id, postState: Id,
                                     operation: Id, audit: Id, startedAt: Time, completedAt: Time)

  datatype Receipt = Receipt(body: ReceiptBody, signature: Signature<ReceiptBody>)

  /** The fixed verifier: policy and trust store, pinned to each other. */
  datatype Runtime = Runtime(policy: Policy, trust: Trust)

  // ---------- Signatures and shapes ----------

  predicate Signed<T(==)>(issuer: Id, keyId: Id, body: T, signature: Signature<T>, key: Key) {
    signature.key == key.keyId && signature.message == body && issuer == key.issuer && keyId == key.keyId
  }

  predicate ApprovalSigned(a: Approval, key: Key) {
    Signed(a.body.issuer, a.body.keyId, a.body, a.signature, key)
  }

  predicate GrantSigned(g: Grant, key: Key) {
    Signed(g.body.issuer, g.body.keyId, g.body, g.signature, key)
  }

  predicate RevocationSigned(r: Revocation, key: Key) {
    Signed(r.body.issuer, r.body.keyId, r.body, r.signature, key)
  }

  predicate ReceiptSigned(r: Receipt, key: Key) {
    Signed(r.body.issuer, r.body.keyId, r.body, r.signature, key)
  }

  predicate IsVendorAction(a: Action) {
    a.SendRightsInquiry? || a.SubmitAffiliateApplication?
  }

  predicate ValidRequest(r: Request) {
    && r.requestedAt <= r.notBefore < r.expiresAt
    && if IsVendorAction(r.target.action) then
         r.target.environment.VendorContact? && r.target.vendor.Some? && r.release.None?
       else
         && r.target.environment.Production? && r.target.vendor.None? && r.release.Some?
         && (r.target.action.ActivatePublicRelease? <==> r.release.value.publicReport.Some?)
  }

  predicate ValidApproval(a: Approval) {
    a.body.issuedAt < a.body.expiresAt
  }

  predicate ValidGrant(g: Grant) {
    g.body.issuedAt < g.body.expiresAt
  }

  predicate ValidRevocation(r: Revocation) {
    r.body.issuedAt <= r.body.effectiveAt
  }

  predicate ApprovalMatches(r: Request, a: Approval, rt: Runtime, at: Time) {
    && a.body.requestId == r.requestId
    && a.body.request == Sha(r)
    && a.body.policy == r.policy
    && a.body.action == r.target.action
    && a.body.environment == r.target.environment
    && r.requestedAt <= a.body.issuedAt <= at < a.body.expiresAt
    && a.body.expiresAt - a.body.issuedAt <= rt.policy.maxApprovalTtl
    && ApprovalSigned(a, rt.trust.human)
  }

  predicate GrantBindingsMatch(r: Request, g: Grant) {
    && g.body.requestId == r.requestId
    && g.body.request == Sha(r)
    && g.body.policy == r.policy
    && g.body.action == r.target.action
    && g.body.environment == r.target.environment
    && g.body.idempotencyKey == r.idempotencyKey
    && g.body.release == r.release
  }

  // ---------- The P10 public report ----------

  /** A release assurance report, as far as it is read here.  Whether it verifies at
      an instant is an oracle's answer, passed along as "verified". */
  datatype PublicReport = PublicReport(binding: Release, authorized: bool, isGo: bool, expiresAt: Time)

  predicate ReportBinds(r: Request, p: PublicReport, verified: bool) {
    verified && p.authorized && r.release == Some(p.binding) && p.binding.publicReport.Some?
  }

  // ---------- Issuing ----------

  function ExpiryOf(r: Request, a: Approval, publicExpiry: Time, rt: Runtime, at: Time): Time {
    Min(Min(r.expiresAt, a.body.expiresAt), Min(publicExpiry, at + rt.policy.maxGrantTtl))
  }

  function IssueGrant(r: Request, a: Approval, rt: Runtime, report: Option<PublicReport>, verified: bool,
                      nonce: nat, at: Time)
    : (result: Result<Grant, ActionError>)
  {
    if !ValidRequest(r) then Err(RequestInvalid)
    else if !ValidApproval(a) then Err(ApprovalInvalid)
    else if r.policy != Sha(rt.policy) then Err(PolicyMismatch)
    else if r.target !in rt.policy.rules then Err(TargetNotAllowed)
    else if !(r.notBefore <= at < r.expiresAt) then Err(NotExecutable)
    else if r.expiresAt - r.requestedAt > rt.policy.maxRequestTtl then Err(RequestTtlExceeded)
    else if !ApprovalMatches(r, a, rt, at) then Err(ApprovalInvalid)
    else if a.body.decision != Go then Err(NotGo)
    else if r.target.action.ActivatePublicRelease? then
      if report.None? || !ReportBinds(r, report.value, verified) || !report.value.isGo then Err(ReleaseReportInvalid)
      else SignGrant(r, a, rt, report.value.expiresAt, nonce, at)
    else if report.Some? then Err(UnexpectedReleaseReport)
    else SignGrant(r, a, rt, r.expiresAt, nonce, at)
  }

  function SignGrant(r: Request, a: Approval, rt: Runtime, publicExpiry: Time, nonce: nat, at: Time)
    : Result<Grant, ActionError>
  {
    var expiresAt := ExpiryOf(r, a, publicExpiry, rt, at);
    if expiresAt <= at then Err(NoPositiveValidity)
    else
      var body := GrantBody(
        rt.trust.controller.issuer, rt.trust.controller.keyId,
        Sha(GrantId(Sha(r), Sha(a.body), at, rt.trust.executor.keyId)),
        r.requestId, Sha(r), Sha(a.body), Sha(rt.policy), r.target.action, r.target.environment,
        r.idempotencyKey, rt.trust.executor.keyId, r.release, at, expiresAt);
      Ok(Grant(body, Signature(rt.trust.controller.keyId, body, nonce)))
  }

  // ---------- Verifying ----------

  predicate VerifiesGrantArtifact(rt: Runtime, r: Request, a: Approval, g: Grant) {
    && r.policy == Sha(rt.policy)
    && g.body.policy == Sha(rt.policy)
    && r.target in rt.policy.rules
    && r.expiresAt - r.requestedAt <= rt.policy.maxRequestTtl
    && a.body.decision == Go
    && Sha(a.body) == g.body.approval
    && ApprovalMatches(r, a, rt, g.body.issuedAt)
    && GrantBindingsMatch(r, g)
    && g.body.executorKeyId == rt.trust.executor.keyId
    && r.notBefore <= g.body.issuedAt < r.expiresAt
    && a.body.issuedAt <= g.body.issuedAt < a.body.expiresAt
    && g.body.issuedAt < g.body.expiresAt <= r.expiresAt
    && g.body.expiresAt <= a.body.expiresAt
    && g.body.expiresAt - g.body.issuedAt <= rt.policy.maxGrantTtl
    && GrantSigned(g, rt.trust.controller)
  }

  predicate VerifiesArtifacts(rt: Runtime, r: Request, a: Approval, g: Grant, at: Time, observedPreState: Id,
                              report: Option<PublicReport>, verified: bool)
  {
    && ValidRequest(r) && ValidApproval(a) && ValidGrant(g)
    && VerifiesGrantArtifact(rt, r, a, g)
    && observedPreState == r.preState
    && r.notBefore <= at < r.expiresAt
    && g.body.issuedAt <= at < g.body.expiresAt
    && ApprovalMatches(r, a, rt, at)
    && if r.target.action.ActivatePublicRelease? then report.Some? && ReportBinds(r, report.value, verified)
       else report.None?
  }

  /** For the actions that need no public report: the issuer's grant is accepted at
      every instant of its window, with the expected pre-state, and never otherwise. */
  lemma IssuedGrantWindow(r: Request, a: Approval, rt: Runtime, nonce: nat, issuedAt: Time, at: Time, observed: Id)
    requires !r.target.action.ActivatePublicRelease?
    requires IssueGrant(r, a, rt, None, false, nonce, issuedAt).Ok?
    ensures var g := IssueGrant(r, a, rt, None, false, nonce, issuedAt).value;
            && g.body.issuedAt == issuedAt
            && (VerifiesArtifacts(rt, r, a, g, at, observed, None, false)
                <==> issuedAt <= at < g.body.expiresAt && observed == r.preState)
  {
  }

  /** The accepted window lies inside the request's, the approval's and the policy's. */
  lemma AcceptedWindowIsInside(rt: Runtime, r: Request, a: Approval, g: Grant, at: Time, observed: Id,
                               report: Option<PublicReport>, verified: bool)
    requires VerifiesArtifacts(rt, r, a, g, at, observed, report, verified)
    ensures r.notBefore <= g.body.issuedAt <= at < g.body.expiresAt <= r.expiresAt
    ensures r.requestedAt <= a.body.issuedAt <= g.body.issuedAt && g.body.expiresAt <= a.body.expiresAt
    ensures g.body.expiresAt <= g.body.issuedAt + rt.policy.maxGrantTtl
    ensures g.body.expiresAt <= r.requestedAt + rt.policy.maxRequestTtl
    ensures g.body.expiresAt <= a.body.issuedAt + rt.policy.maxApprovalTtl
  {
  }

  /** An activation grant is accepted while, in addition, its public report verifies. */
  lemma IssuedActivationWindow(r: Request, a: Approval, rt: Runtime, report: PublicReport, verifies: Time -> bool,
                               nonce: nat, issuedAt: Time, at: Time, observed: Id)
    requires r.target.action.ActivatePublicRelease?
    requires IssueGrant(r, a, rt, Some(report), verifies(issuedAt), nonce, issuedAt).Ok?
    ensures var g := IssueGrant(r, a, rt, Some(report), verifies(issuedAt), nonce, issuedAt).value;
            && g.body.expiresAt <= report.expiresAt
            && (VerifiesArtifacts(rt, r, a, g, at, observed, Some(report), verifies(at))
                <==> issuedAt <= at < g.body.expiresAt && observed == r.preState && verifies(at))
  {
  }

  /** Whatever the runtime accepts under one grant is one request, one approval and
      one pre-state. */
  lemma GrantNamesOneAuthority(rt: Runtime, r1: Request, a1: Approval, r2: Request, a2: Approval, g: Grant,
                               at1: Time, at2: Time, o1: Id, o2: Id,
                               p1: Option<PublicReport>, p2: Option<PublicReport>, v1: bool, v2: bool)
    requires VerifiesArtifacts(rt, r1, a1, g, at1, o1, p1, v1)
    requires VerifiesArtifacts(rt, r2, a2, g, at2, o2, p2, v2)
    ensures r1 == r2 && a1.body == a2.body && o1 == o2
  {
    assert Sha(r1) == Sha(r2) && Sha(a1.body) == Sha(a2.body);
  }

  // ---------- Claims, revocations and receipts ----------

  function BuildClaim(r: Request, a: Approval, g: Grant, observedPreState: Id, at: Time): Claim {
    Claim(Sha(ClaimId(Sha(r), Sha(a.body), Sha(g.body), at)), r.requestId, Sha(r), Sha(a.body), Sha(g.body),
          g.body.policy, r.target.action, r.target.environment, r.idempotencyKey, observedPreState, at)
  }

  predicate ClaimArtifactMatches(rt: Runtime, r: Request, a: Approval, g: Grant, c: Claim) {
    && c.claimId == Sha(ClaimId(Sha(r), Sha(a.body), Sha(g.body), c.claimedAt))
    && c.requestId == r.requestId
    && c.request == Sha(r)
    && c.approval == Sha(a.body)
    && c.grant == Sha(g.body)
    && c.policy == g.body.policy
    && c.action == r.target.action
    && c.environment == r.target.environment
    && c.idempotencyKey == r.idempotencyKey
    && c.preState == r.preState
    && r.notBefore <= c.claimedAt < r.expiresAt
    && a.body.issuedAt <= c.claimedAt < a.body.expiresAt
    && g.body.issuedAt <= c.claimedAt < g.body.expiresAt
    && ApprovalSigned(a, rt.trust.human)
    && GrantSigned(g, rt.trust.controller)
  }

  predicate RevocationMatches(rt: Runtime, r: Request, g: Grant, v: Revocation) {
    && v.body.request == Sha(r)
    && v.body.grant == Sha(g.body)
    && v.body.policy == Sha(rt.policy)
    && g.body.issuedAt <= v.body.issuedAt
    && RevocationSigned(v, rt.trust.controller)
  }

  /** What the executor reports; the guard adds the bindings and its own clock. */
  datatype Evidence = Evidence(issuer: Id, keyId: Id, nonce: nat, result: ActionResult, preState: Id,
                               postState: Id, operation: Id, audit: Id)

  function BuildReceipt(r: Request, g: Grant, c: Claim, e: Evidence, at: Time): Receipt {
    var body := ReceiptBody(
      e.issuer, e.keyId, Sha(ReceiptId(Sha(r), Sha(g.body), Sha(c), at, e.result)), r.requestId, Sha(r),
      Sha(g.body), Sha(c), g.body.policy, r.target.action, r.target.environment, r.idempotencyKey,
      e.result, e.preState, e.postState, e.operation, e.audit, c.claimedAt, at);
    Receipt(body, Signature(e.keyId, body, e.nonce))
  }

  predicate ReceiptEvidenceMatches(rt: Runtime, r: Request, g: Grant, c: Claim, x: Receipt) {
    && x.body.requestId == r.requestId
    && x.body.request == Sha(r)
    && x.body.grant == Sha(g.body)
    && x.body.claim == Sha(c)
    && x.body.policy == g.body.policy
    && x.body.action == r.target.action
    && x.body.environment == r.target.environment
    && x.body.idempotencyKey == r.idempotencyKey
    && x.body.preState == c.preState
    && x.body.startedAt == c.claimedAt
    && x.body.receiptId == Sha(ReceiptId(Sha(r), Sha(g.body), Sha(c), x.body.completedAt, x.body.result))
    && c.preState == r.preState
    && x.body.completedAt - c.claimedAt <= rt.policy.maxReceiptDelay
    && (x.body.result == Succeeded ==> x.body.postState == r.postState)
    && ReceiptSigned(x, rt.trust.executor)
  }

  /** A verified authority yields a claim that every later check accepts. */
  lemma BuiltClaimMatches(rt: Runtime, r: Request, a: Approval, g: Grant, at: Time, observed: Id,
                          report: Option<PublicReport>, verified: bool)
    requires VerifiesArtifacts(rt, r, a, g, at, observed, report, verified)
    ensures ClaimArtifactMatches(rt, r, a, g, BuildClaim(r, a, g, observed, at))
  {
  }
}
