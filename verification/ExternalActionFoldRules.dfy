/** What the journal's append and fold accept and report, spelled out field by field. */
module ExternalActionFoldRules {
  import opened Common
  import opened ExternalActionArtifacts
  import opened ExternalActionStore
  import opened ExternalActionLifecycle
  import opened ExternalActionJournal
  import opened ExternalActionFold

  /** An entry can be appended under a well-formed request and grant of this policy alone. */
  lemma AppendRules(rt: Runtime, r: Request, g: Grant)
    ensures GrantBelongs(rt, r, g) <==>
            && ValidRequest(r) && g.body.issuedAt < g.body.expiresAt && r.policy == Sha(rt.policy)
            && g.body.policy == r.policy && g.body.request == Sha(r) && g.body.requestId == r.requestId
            && g.body.action == r.target.action && g.body.environment == r.target.environment
            && g.body.idempotencyKey == r.idempotencyKey && g.body.release == r.release
            && g.body.issuer == rt.trust.controller.issuer && g.body.keyId == rt.trust.controller.keyId
            && g.signature.key == rt.trust.controller.keyId && g.signature.message == g.body
  {
  }

  // ---------- Entries ----------

  /** Entry i continues the chain of its journal under the controller's signature. */
  predicate Continues(x: FoldInput, i: nat)
    requires i < |x.entries|
  {
    var e, k := x.entries[i], x.rt.trust.controller;
    && e.body.sequence == i + 1 && e.body.journal == x.entries[0].body.journal
    && (i == 0 ==> e.body.previous == Zero) && (i > 0 ==> e.body.previous == Sha(x.entries[i - 1].body))
    && e.body.request == Sha(x.request) && e.body.grant == Sha(x.grant.body) && e.body.idempotencyKey == x.request.idempotencyKey
    && e.body.issuer == k.issuer && e.body.keyId == k.keyId && e.signature.key == k.keyId && e.signature.message == e.body
    && e.body.recordedAt <= x.at && (i > 0 ==> x.entries[i - 1].body.recordedAt <= e.body.recordedAt)
    && (forall j | 0 <= j < i :: x.entries[j].body.payload != e.body.payload)
  }

  /** Entry i stands for an event that is there, and was recorded after it: the grant
      first, the claim and one receipt in this order, revocations anywhere after. */
  predicate Stands(x: FoldInput, i: nat)
    requires i < |x.entries|
  {
    var e := x.entries[i].body;
    var noReceiptYet := forall j | 0 <= j < i :: x.entries[j].body.kind != ReceiptEvent;
    match e.kind
    case GrantEvent => i == 0 && e.payload == GrantPayload(Sha(x.grant.body)) && x.grant.body.issuedAt <= e.recordedAt
    case ClaimEvent =>
      && noReceiptYet && x.claim.Some? && e.payload == ClaimPayload(Sha(x.claim.value))
      && x.claim.value.claimedAt <= e.recordedAt
    case RevocationEvent =>
      exists v | v in x.revocations ::
        && e.payload == RevocationPayload(Sha(v.body)) && v.body.issuedAt <= e.recordedAt
        && v.body.request == Sha(x.request) && v.body.grant == Sha(x.grant.body) && v.body.policy == Sha(x.rt.policy)
        && x.grant.body.issuedAt <= v.body.issuedAt
        && v.body.issuer == x.rt.trust.controller.issuer && v.body.keyId == x.rt.trust.controller.keyId
        && v.signature.key == x.rt.trust.controller.keyId && v.signature.message == v.body
    case ReceiptEvent =>
      && noReceiptYet && x.claim.Some?
      && exists y | y in x.receipts :: e.payload == ReceiptPayload(Sha(y.body)) && y.body.completedAt <= e.recordedAt
  }

  lemma EarlierPayloads(x: FoldInput, i: nat)
    requires i < |x.entries|
    ensures x.entries[i].body.payload !in Payloads(x.entries[..i]) <==>
            forall j | 0 <= j < i :: x.entries[j].body.payload != x.entries[i].body.payload
  {
    forall j | 0 <= j < i ensures x.entries[j].body.payload in Payloads(x.entries[..i]) {
      assert x.entries[..i][j] == x.entries[j];
    }
  }

  lemma EventRules(x: FoldInput, i: nat)
    requires i < |x.entries|
    ensures EventOk(x, i) <==> Stands(x, i)
  {
    ReceiptInPrefix(x.entries, i);
  }

  lemma EntryRules(x: FoldInput, i: nat)
    requires i < |x.entries|
    ensures EntryOk(x, i) <==> Continues(x, i) && Stands(x, i)
  {
    EarlierPayloads(x, i);
    EventRules(x, i);
  }

  // ---------- The fold ----------

  /** Authority, claim and sidecars are exactly what the snapshot holds of the grant. */
  ghost predicate Reflects(x: FoldInput, c: Content) {
    var h := Sha(x.grant.body);
    && VerifiesArtifacts(x.rt, x.request, x.approval, x.grant, x.grant.body.issuedAt, x.request.preState, x.report, x.verified)
    && (h !in c.claims ==> x.claim.None? && |x.receipts| == 0)
    && (h in c.claims ==>
          && x.claim == Some(c.claims[h].claim) && ClaimArtifactMatches(x.rt, x.request, x.approval, x.grant, x.claim.value)
          && forall y :: y in x.receipts <==> c.claims[h].receipt == Some(y))
    && (forall v :: v in x.revocations <==> v in c.revocations && v.body.grant == h)
    && (forall i, j | 0 <= i < j < |x.revocations| :: x.revocations[i].body != x.revocations[j].body)
    && (forall i, j | 0 <= i < j < |x.receipts| :: x.receipts[i].body != x.receipts[j].body)
  }

  lemma BoundRules(x: FoldInput, c: Content)
    ensures Bound(x, c) <==> Reflects(x, c)
  {
    var receipts := if DurableReceipt(c, x.grant).Some? then {DurableReceipt(c, x.grant).value} else {};
    assert Elements(x.receipts) == receipts <==> forall y :: y in x.receipts <==> y in receipts by {
      ElementsByMember(x.receipts, receipts);
    }
    ElementsByMember(x.revocations, DurableRevocations(c, x.grant));
    assert |x.receipts| == 0 <==> forall y :: y !in x.receipts by {
      if |x.receipts| > 0 {
        assert x.receipts[0] in x.receipts;
      }
    }
  }

  lemma ElementsByMember<T(!new)>(s: seq<T>, t: set<T>)
    ensures Elements(s) == t <==> forall y :: y in s <==> y in t
  {
    forall y ensures y in s <==> y in Elements(s) {
    }
  }

  /** Every event is listed. */
  ghost predicate ListsAll(x: FoldInput) {
    && Listed(x, GrantPayload(Sha(x.grant.body)))
    && (x.claim.Some? ==> Listed(x, ClaimPayload(Sha(x.claim.value))))
    && (forall v | v in x.revocations :: Listed(x, RevocationPayload(Sha(v.body))))
    && forall y | y in x.receipts :: Listed(x, ReceiptPayload(Sha(y.body)))
  }

  predicate Listed(x: FoldInput, p: Payload) {
    exists i | 0 <= i < |x.entries| :: x.entries[i].body.payload == p
  }

  /** The receipt is the executor's, of this claim, in time, and with the expected
      post-state if it reports success. */
  ghost predicate Evidenced(x: FoldInput, y: Receipt) {
    && x.claim.Some?
    && var r, g, c, b, k := x.request, x.grant, x.claim.value, y.body, x.rt.trust.executor;
    && b.completedAt <= x.at && b.completedAt - c.claimedAt <= x.rt.policy.maxReceiptDelay && b.startedAt == c.claimedAt
    && b.requestId == r.requestId && b.request == Sha(r) && b.grant == Sha(g.body) && b.claim == Sha(c)
    && b.policy == g.body.policy && b.action == r.target.action && b.environment == r.target.environment
    && b.idempotencyKey == r.idempotencyKey && b.preState == c.preState && c.preState == r.preState
    && b.receiptId == Sha(ReceiptId(Sha(r), Sha(g.body), Sha(c), b.completedAt, b.result))
    && (b.result == Succeeded ==> b.postState == r.postState)
    && b.issuer == k.issuer && b.keyId == k.keyId && y.signature.key == k.keyId && y.signature.message == b
  }

  /** The fold accepts exactly a non-empty journal whose entries continue the chain and
      stand for events, that reflects the snapshot and lists all of it, with proven
      receipts, while a second look finds the snapshot current. */
  lemma FoldRules(x: FoldInput, c: Content, stillCurrent: bool)
    ensures FoldAccepts(x, c, stillCurrent) <==>
            && Reflects(x, c) && |x.entries| > 0
            && (forall i: nat | i < |x.entries| :: Continues(x, i) && Stands(x, i))
            && ListsAll(x) && (forall y | y in x.receipts :: Evidenced(x, y)) && stillCurrent
  {
    BoundRules(x, c);
    forall i: nat | i < |x.entries| ensures EntryOk(x, i) <==> Continues(x, i) && Stands(x, i) {
      EntryRules(x, i);
    }
    forall p ensures p in Payloads(x.entries) <==> Listed(x, p) {
    }
    ProofRules(x);
  }

  lemma ProofRules(x: FoldInput)
    ensures ReceiptProven(x) <==> forall y | y in x.receipts :: Evidenced(x, y)
  {
  }

  // ---------- The verdict and the report ----------

  /** Revoked comes before claimed, claimed before expired. */
  lemma VerdictRules(c: Content, g: Grant, at: Time)
    ensures var revoked := exists v | v in c.revocations :: v.body.grant == Sha(g.body) && v.body.effectiveAt <= at;
            var claimed := Sha(g.body) in c.claims;
            && (AuthorityOf(c, g, at) == Revoked <==> revoked)
            && (AuthorityOf(c, g, at) == Claimed <==> !revoked && claimed)
            && (AuthorityOf(c, g, at) == Expired <==> !revoked && !claimed && g.body.expiresAt <= at)
            && (AuthorityOf(c, g, at) == Granted <==> !revoked && !claimed && at < g.body.expiresAt)
  {
  }

  /** The report names its journal and head, counts the entries, and repeats the store's
      revision, anchor, verdict, result, receipt and revocations. */
  lemma ReportRules(cfg: Config, x: FoldInput, c: Content)
    requires x.entries != []
    ensures var y, h := ReportOf(cfg, x, c), Sha(x.grant.body);
            && y.journal == x.entries[0].body.journal && y.count == |x.entries| && y.at == x.at
            && y.head == Sha(x.entries[|x.entries| - 1].body)
            && y.revision == c.revision && y.anchor == Sha(AnchorFor(cfg, c)) && y.authority == AuthorityOf(c, x.grant, x.at)
            && (h in c.claims && c.claims[h].receipt.Some? ==>
                  && y.outcome == Some(c.claims[h].receipt.value.body.result)
                  && y.receipt == Some(Sha(c.claims[h].receipt.value.body)))
            && (!(h in c.claims && c.claims[h].receipt.Some?) ==> y.outcome == None && y.receipt == None)
            && y.revocations == set v | v in c.revocations && v.body.grant == h :: Sha(v.body)
  {
    assert (set v | v in DurableRevocations(c, x.grant) :: Sha(v.body))
        == set v | v in c.revocations && v.body.grant == Sha(x.grant.body) :: Sha(v.body);
  }
}
