/** What issuing, verifying and the store's mutations accept and what they record,
    spelled out field by field. */
module ExternalActionRules {
  import opened Common
  import opened ExternalActionArtifacts
  import opened ExternalActionStore

  // ---------- Signed artifacts ----------

  /** A grant's own conditions, approval and policy limits; at is the instant of issue. */
  ghost predicate Authorized(rt: Runtime, r: Request, a: Approval, at: Time) {
    var t, b := r.target, a.body;
    // the request: window, environment, vendor or release
    && r.requestedAt <= r.notBefore <= at < r.expiresAt <= r.requestedAt + rt.policy.maxRequestTtl
    && (t.action == SendRightsInquiry || t.action == SubmitAffiliateApplication ==>
          t.environment == VendorContact && t.vendor.Some? && r.release.None?)
    && (t.action == ActivatePublicRelease || t.action == DisablePublicRelease ==>
          t.environment == Production && t.vendor.None? && r.release.Some?)
    && (t.action == ActivatePublicRelease ==> r.release.value.publicReport.Some?)
    && (t.action == DisablePublicRelease ==> r.release.value.publicReport.None?)
    // the policy: pinned, and listing the target
    && r.policy == Sha(rt.policy) && t in rt.policy.rules
    // the approval: of this request, a Go, current, within its lifetime, signed by the Human
    && b.requestId == r.requestId && b.request == Sha(r) && b.policy == r.policy
    && b.action == t.action && b.environment == t.environment && b.decision == Go
    && r.requestedAt <= b.issuedAt <= at < b.expiresAt <= b.issuedAt + rt.policy.maxApprovalTtl
    && b.issuer == rt.trust.human.issuer && b.keyId == rt.trust.human.keyId
    && a.signature.key == rt.trust.human.keyId && a.signature.message == b
  }

  /** A grant is issued exactly under an authorized request; an activation also takes a
      verified, authorizing GO report of that release, and the others take none.  The
      least of the four deadlines must lie ahead. */
  lemma IssuedIff(r: Request, a: Approval, rt: Runtime, report: Option<PublicReport>, verified: bool, nonce: nat, at: Time)
    ensures IssueGrant(r, a, rt, report, verified, nonce, at).Ok? <==>
            && Authorized(rt, r, a, at)
            && rt.policy.maxGrantTtl > 0
            && (r.target.action != ActivatePublicRelease ==> report.None?)
            && (r.target.action == ActivatePublicRelease ==>
                  && report.Some? && verified && report.value.authorized && report.value.isGo
                  && r.release == Some(report.value.binding) && at < report.value.expiresAt)
  {
  }

  /** What the issued grant says, and until when. */
  lemma IssuedGrantSays(r: Request, a: Approval, rt: Runtime, report: Option<PublicReport>, verified: bool, nonce: nat, at: Time)
    requires IssueGrant(r, a, rt, report, verified, nonce, at).Ok?
    ensures var g := IssueGrant(r, a, rt, report, verified, nonce, at).value;
            var b := g.body;
            && b.request == Sha(r) && b.approval == Sha(a.body) && b.policy == Sha(rt.policy) && b.requestId == r.requestId
            && b.action == r.target.action && b.environment == r.target.environment && b.release == r.release
            && b.idempotencyKey == r.idempotencyKey && b.issuedAt == at
            && b.issuer == rt.trust.controller.issuer && b.keyId == rt.trust.controller.keyId
            && g.signature.key == rt.trust.controller.keyId && g.signature.message == b
            && b.executorKeyId == rt.trust.executor.keyId
            && IsLeast(b.expiresAt, {r.expiresAt, a.body.expiresAt, at + rt.policy.maxGrantTtl}
                                    + if r.target.action == ActivatePublicRelease then {report.value.expiresAt} else {})
  {
  }

  /** The runtime accepts exactly a grant of an authorized request, inside its window,
      with the expected pre-state and, for an activation alone, its verified report. */
  lemma VerifiedIff(rt: Runtime, r: Request, a: Approval, g: Grant, at: Time, observed: Id, report: Option<PublicReport>, verified: bool)
    ensures VerifiesArtifacts(rt, r, a, g, at, observed, report, verified) <==>
            var b := g.body;
            && Authorized(rt, r, a, b.issuedAt)
            && b.request == Sha(r) && b.approval == Sha(a.body) && b.policy == Sha(rt.policy) && b.requestId == r.requestId
            && b.action == r.target.action && b.environment == r.target.environment && b.release == r.release
            && b.idempotencyKey == r.idempotencyKey && b.executorKeyId == rt.trust.executor.keyId
            && b.issuer == rt.trust.controller.issuer && b.keyId == rt.trust.controller.keyId
            && g.signature.key == rt.trust.controller.keyId && g.signature.message == b
            && b.issuedAt <= at < b.expiresAt <= b.issuedAt + rt.policy.maxGrantTtl
            && b.expiresAt <= r.expiresAt && b.expiresAt <= a.body.expiresAt
            && observed == r.preState
            && (r.target.action != ActivatePublicRelease ==> report.None?)
            && (r.target.action == ActivatePublicRelease ==>
                  report.Some? && verified && report.value.authorized && r.release == Some(report.value.binding))
  {
  }

  // ---------- Claims ----------

  /** The claim that request, approval and grant make of a pre-state at one instant. */
  function ClaimAt(r: Request, a: Approval, g: Grant, preState: Id, at: Time): Claim {
    Claim(Sha(ClaimId(Sha(r), Sha(a.body), Sha(g.body), at)), r.requestId, Sha(r), Sha(a.body), Sha(g.body), g.body.policy,
          r.target.action, r.target.environment, r.idempotencyKey, preState, at)
  }

  /** A claim matches exactly when it is the one these artifacts make of the expected
      pre-state, at an instant inside all three windows, and both are signed. */
  lemma ClaimMatchesIff(rt: Runtime, r: Request, a: Approval, g: Grant, c: Claim)
    ensures ClaimArtifactMatches(rt, r, a, g, c) <==>
            && c == ClaimAt(r, a, g, r.preState, c.claimedAt)
            && r.notBefore <= c.claimedAt < r.expiresAt
            && a.body.issuedAt <= c.claimedAt < a.body.expiresAt
            && g.body.issuedAt <= c.claimedAt < g.body.expiresAt
            && a.body.issuer == rt.trust.human.issuer && a.body.keyId == rt.trust.human.keyId
            && a.signature.key == rt.trust.human.keyId && a.signature.message == a.body
            && g.body.issuer == rt.trust.controller.issuer && g.body.keyId == rt.trust.controller.keyId
            && g.signature.key == rt.trust.controller.keyId && g.signature.message == g.body
  {
  }

  /** A stored revocation of the grant that is genuine and not yet effective. */
  ghost predicate StillAhead(rt: Runtime, r: Request, g: Grant, v: Revocation, at: Time) {
    && v.body.request == Sha(r) && v.body.policy == Sha(rt.policy) && g.body.issuedAt <= v.body.issuedAt
    && v.body.issuer == rt.trust.controller.issuer && v.body.keyId == rt.trust.controller.keyId
    && v.signature.key == rt.trust.controller.keyId && v.signature.message == v.body
    && at < v.body.effectiveAt
  }

  ghost predicate Applied(rt: Runtime, c: Content, op: Op, now: Time) {
    Attempt(rt, c, op, now).Ok? && Attempt(rt, c, op, now).value.Some?
  }

  /** A claim is applied exactly when the authority verifies now, every stored revocation
      of the grant is still ahead, and grant, key and request ID are unused; it adds its
      row, without a receipt, and nothing else. */
  lemma ClaimAppliedIff(rt: Runtime, c: Content, op: Op, now: Time)
    requires op.ClaimOp?
    ensures Applied(rt, c, op, now) <==>
            && VerifiesArtifacts(rt, op.request, op.approval, op.grant, now, op.preState, op.report, op.verified)
            && (forall v | v in c.revocations && v.body.grant == Sha(op.grant.body) :: StillAhead(rt, op.request, op.grant, v, now))
            && Sha(op.grant.body) !in c.claims
            && (forall h | h in c.claims ::
                  && c.claims[h].claim.idempotencyKey != op.request.idempotencyKey
                  && c.claims[h].claim.requestId != op.request.requestId)
    ensures Attempt(rt, c, op, now) != Ok(None)
    ensures Applied(rt, c, op, now) ==>
              var claim := ClaimAt(op.request, op.approval, op.grant, op.request.preState, now);
              Attempt(rt, c, op, now).value.value
              == Content(c.claims[Sha(op.grant.body) := ClaimRow(claim, None)], c.revocations, c.revision + 1)
  {
  }

  // ---------- Revocations ----------

  /** A revocation is accepted exactly for a well-formed request and grant of this policy,
      signed by the controller, unless another signature of its body is stored; it is
      added once, and nothing else changes. */
  lemma RevocationAppliedIff(rt: Runtime, c: Content, op: Op, now: Time)
    requires op.RevokeOp?
    ensures Attempt(rt, c, op, now).Ok? <==>
            var r, g, v := op.request, op.grant, op.revocation;
            && ValidRequest(r) && g.body.issuedAt < g.body.expiresAt && v.body.issuedAt <= v.body.effectiveAt
            && r.policy == Sha(rt.policy) && g.body.policy == Sha(rt.policy) && v.body.policy == Sha(rt.policy)
            && g.body.request == Sha(r) && g.body.requestId == r.requestId && g.body.idempotencyKey == r.idempotencyKey
            && g.body.action == r.target.action && g.body.environment == r.target.environment && g.body.release == r.release
            && g.body.issuer == rt.trust.controller.issuer && g.body.keyId == rt.trust.controller.keyId
            && g.signature.key == rt.trust.controller.keyId && g.signature.message == g.body
            && v.body.request == Sha(r) && v.body.grant == Sha(g.body) && g.body.issuedAt <= v.body.issuedAt
            && v.body.issuer == rt.trust.controller.issuer && v.body.keyId == rt.trust.controller.keyId
            && v.signature.key == rt.trust.controller.keyId && v.signature.message == v.body
            && (v in c.revocations || forall w | w in c.revocations :: w.body != v.body)
    ensures Attempt(rt, c, op, now).Ok? ==>
              Attempt(rt, c, op, now).value
              == if op.revocation in c.revocations then None
                 else Some(Content(c.claims, c.revocations + {op.revocation}, c.revision + 1))
  {
  }

  // ---------- Receipts ----------

  /** A receipt is applied exactly for a matching, durable claim without one, inside the
      delay, over the claimed pre-state, signed by the executor, and with the expected
      post-state if it reports success. */
  lemma ReceiptAppliedIff(rt: Runtime, c: Content, op: Op, now: Time)
    requires op.ReceiptOp?
    ensures Applied(rt, c, op, now) <==>
            var claim, e := op.claim, op.evidence;
            && ClaimArtifactMatches(rt, op.request, op.approval, op.grant, claim)
            && claim.grant in c.claims && c.claims[claim.grant] == ClaimRow(claim, None)
            && claim.claimedAt <= now <= claim.claimedAt + rt.policy.maxReceiptDelay
            && e.preState == claim.preState
            && e.issuer == rt.trust.executor.issuer && e.keyId == rt.trust.executor.keyId
            && (e.result == Succeeded ==> e.postState == op.request.postState)
  {
  }

  /** The stored receipt is the executor's evidence, bound to request, grant and claim and
      completed now; only its claim's row changes. */
  lemma AppliedReceiptSays(rt: Runtime, c: Content, op: Op, now: Time)
    requires op.ReceiptOp? && Applied(rt, c, op, now)
    ensures var claim, e, d := op.claim, op.evidence, Attempt(rt, c, op, now).value.value;
            && claim.grant in d.claims && d.claims[claim.grant].receipt.Some?
            && var x := d.claims[claim.grant].receipt.value.body;
            && x.result == e.result && x.preState == e.preState && x.postState == e.postState
            && x.operation == e.operation && x.audit == e.audit
            && x.startedAt == claim.claimedAt && x.completedAt == now
            && x.request == Sha(op.request) && x.grant == Sha(op.grant.body) && x.claim == Sha(claim)
            && x.requestId == op.request.requestId && x.policy == op.grant.body.policy
            && x.action == op.request.target.action && x.environment == op.request.target.environment
            && x.idempotencyKey == op.request.idempotencyKey
            && x.issuer == rt.trust.executor.issuer && x.keyId == rt.trust.executor.keyId
            && d.claims[claim.grant].receipt.value.signature == Signature(rt.trust.executor.keyId, x, e.nonce)
            && d == Content(c.claims[claim.grant := ClaimRow(claim, d.claims[claim.grant].receipt)], c.revocations, c.revision + 1)
  {
  }

  /** What is checked at an applied receipt's time, named by the refusal it causes. */
  lemma ReceiptRefusals(rt: Runtime, c: Content, op: Op, now: Time)
    requires op.ReceiptOp? && ClaimArtifactMatches(rt, op.request, op.approval, op.grant, op.claim)
    requires op.claim.grant in c.claims && c.claims[op.claim.grant].claim == op.claim
    ensures var claim, e := op.claim, op.evidence;
            var late := now < claim.claimedAt || claim.claimedAt + rt.policy.maxReceiptDelay < now;
            var wrong := e.result == Succeeded && e.postState != op.request.postState;
            && (Attempt(rt, c, op, now) == Err(ReceiptTimeInvalid) <==> late)
            && (Attempt(rt, c, op, now) == Err(PostStateMismatch) <==> !late && wrong)
            && (Attempt(rt, c, op, now) == Err(ReceiptInvalid) <==>
                  && !late && !wrong
                  && !(&& e.preState == claim.preState
                       && e.issuer == rt.trust.executor.issuer && e.keyId == rt.trust.executor.keyId))
  {
  }

  // ---------- The dispatch fence ----------

  /** A free, intact store opens a fence exactly for a durable, matching claim, a deadline
      ahead inside all three windows, and genuine revocations not effective before it. */
  lemma FenceOpensIff(cfg: Config, s: State, h: Handle, r: Request, a: Approval, g: Grant, claim: Claim, at: Time, notAfter: Time)
    requires s.lock.Free? && Integrity(cfg, s.disk, s.pin)
    ensures Enabled(cfg, s, FenceEnter(h, r, a, g, claim, at, notAfter)) <==>
            var c := s.disk.db.content;
            && at < notAfter && notAfter <= r.expiresAt && notAfter <= a.body.expiresAt && notAfter <= g.body.expiresAt
            && ClaimArtifactMatches(cfg.rt, r, a, g, claim)
            && Sha(g.body) in c.claims && c.claims[Sha(g.body)].claim == claim
            && forall v | v in c.revocations && v.body.grant == Sha(g.body) :: StillAhead(cfg.rt, r, g, v, notAfter - 1)
  {
  }
}
