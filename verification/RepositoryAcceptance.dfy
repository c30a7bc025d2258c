/** The acceptance evaluator of a pinned repository bundle: its dated inputs one by one,
    and one residual answer for everything no date of the bundle decides. */
module RepositoryAcceptance {
  import opened Common

  datatype HumanDecision = Go | Conditional | Stop

  datatype Attestation = Attestation(issuedAt: Time, expiresAt: Time)

  /** A Human receipt; chain holds the superseded ones, oldest first. */
  datatype HumanReceipt = HumanReceipt(decision: HumanDecision, issuedAt: Time, expiresAt: Time)

  /** The four identities the handoff binds, the manifest's window, the last instant of
      each verification fact, both attestations and the receipts. */
  datatype Repository = Repository(
    component: Id, receipt: Id, tree: Id, manifest: Id, assembledAt: Time, expiresAt: Time, facts: seq<Time>,
    integration: Option<Attestation>, tcoQa: Option<Attestation>, chain: seq<HumanReceipt>, human: HumanReceipt)

  /** Whether every remaining check passes: digests, pins, signatures, lifetimes, scope,
      runner evidence. */
  type Residual = (Repository, Time) -> bool

  datatype Reason =
    | ManifestFuture | ManifestExpired | VerificationExpired | AttestationMissing | AttestationInvalid
    | ReceiptFuture | ReceiptExpired | HumanConditional | HumanStop | OtherFault

  datatype Decision = Accepted | ConditionalPending | Pending | Rejected | Stopped

  // ---------- What is accepted ----------

  predicate AttestationCurrent(a: Option<Attestation>, at: Time) {
    a.Some? && a.value.issuedAt <= at < a.value.expiresAt
  }

  /** Everything dated has begun, and nothing that can run out has. */
  predicate InDate(p: Repository, at: Time) {
    && p.assembledAt <= at < p.expiresAt
    && (forall f | f in p.facts :: at < f)
    && AttestationCurrent(p.integration, at) && AttestationCurrent(p.tcoQa, at)
    && (forall r | r in p.chain :: r.issuedAt <= at)
    && p.human.issuedAt <= at < p.human.expiresAt
  }

  predicate Accepts(p: Repository, residual: Residual, at: Time) {
    InDate(p, at) && residual(p, at) && p.human.decision == Go
  }

  /** The expiries the handoff takes from a bundle. */
  function Expiries(p: Repository): seq<Time> {
    [p.expiresAt, p.human.expiresAt] + p.facts + ExpiryOf(p.integration) + ExpiryOf(p.tcoQa)
  }

  function ExpiryOf(a: Option<Attestation>): seq<Time> {
    if a.Some? then [a.value.expiresAt] else []
  }

  // ---------- The evaluator ----------

  method CheckFacts(facts: seq<Time>, at: Time) returns (reasons: set<Reason>)
    ensures reasons <= {VerificationExpired}
    ensures reasons == {} <==> forall f | f in facts :: at < f
  {
    reasons := {};
    for i := 0 to |facts|
      invariant reasons <= {VerificationExpired}
      invariant reasons == {} <==> forall k | 0 <= k < i :: at < facts[k]
    {
      if facts[i] <= at {
        reasons := reasons + {VerificationExpired};
        assert VerificationExpired in reasons;
      }
    }
    assert forall k | 0 <= k < |facts| :: facts[k] in facts;
  }

  method CheckAttestations(p: Repository, at: Time) returns (reasons: set<Reason>)
    ensures reasons <= {AttestationMissing, AttestationInvalid}
    ensures reasons == {} <==> AttestationCurrent(p.integration, at) && AttestationCurrent(p.tcoQa, at)
  {
    if p.integration.None? || p.tcoQa.None? {
      return {AttestationMissing};
    }
    reasons := {};
    if p.integration.value.issuedAt > at || p.integration.value.expiresAt <= at {
      reasons := {AttestationInvalid};
    }
    if p.tcoQa.value.issuedAt > at || p.tcoQa.value.expiresAt <= at {
      reasons := {AttestationInvalid};
    }
  }

  method CheckReceipts(p: Repository, at: Time) returns (reasons: set<Reason>)
    ensures reasons <= {ReceiptFuture, ReceiptExpired}
    ensures reasons == {} <==> (forall r | r in p.chain :: r.issuedAt <= at) && p.human.issuedAt <= at < p.human.expiresAt
  {
    var receipts := p.chain + [p.human];
    reasons := {};
    for i := 0 to |receipts|
      invariant reasons <= {ReceiptFuture}
      invariant reasons == {} <==> forall k | 0 <= k < i :: receipts[k].issuedAt <= at
    {
      if receipts[i].issuedAt > at {
        reasons := reasons + {ReceiptFuture};
        assert ReceiptFuture in reasons;
      }
    }
    assert reasons == {} <==> forall r | r in receipts :: r.issuedAt <= at;
    assert forall r :: r in receipts <==> r in p.chain || r == p.human;
    if p.human.expiresAt <= at {
      reasons := reasons + {ReceiptExpired};
      assert ReceiptExpired in reasons;
    }
  }

  method CollectHardReasons(p: Repository, residual: Residual, at: Time) returns (reasons: set<Reason>)
    ensures HumanConditional !in reasons && HumanStop !in reasons
    ensures reasons == {} <==> InDate(p, at) && residual(p, at)
  {
    var facts := CheckFacts(p.facts, at);
    var attestations := CheckAttestations(p, at);
    var receipts := CheckReceipts(p, at);
    var window := if p.assembledAt > at then {ManifestFuture} else {};
    if p.expiresAt <= at {
      window := window + {ManifestExpired};
      assert ManifestExpired in window;
    }
    var others := if residual(p, at) then {} else {OtherFault};
    reasons := window + facts + attestations + receipts + others;
    assert reasons == {} <==> window == {} && facts == {} && attestations == {} && receipts == {} && others == {} by {
      assert window <= reasons && facts <= reasons && attestations <= reasons && receipts <= reasons && others <= reasons;
    }
  }

  /** A bundle is accepted exactly when all of it is in date, every other check passes and
      the Human said go; a fault stops it, and otherwise the Human's decision stands. */
  method EvaluateBundle(p: Repository, residual: Residual, at: Time) returns (d: Decision)
    ensures d == Accepted <==> Accepts(p, residual, at)
    ensures d == Stopped <==> !(InDate(p, at) && residual(p, at))
    ensures d == ConditionalPending <==> InDate(p, at) && residual(p, at) && p.human.decision == Conditional
    ensures d == Rejected <==> InDate(p, at) && residual(p, at) && p.human.decision == HumanDecision.Stop
  {
    var hard := CollectHardReasons(p, residual, at);
    var reasons := hard;
    if p.human.decision == Conditional {
      reasons := reasons + {HumanConditional};
    } else if p.human.decision == HumanDecision.Stop {
      reasons := reasons + {HumanStop};
    }
    var hardReasons := reasons - {HumanConditional, HumanStop};
    assert hardReasons == hard;
    if hardReasons != {} {
      return Stopped;
    }
    if p.human.decision == Go && reasons == {} {
      return Accepted;
    }
    return if p.human.decision == Conditional then ConditionalPending
           else if p.human.decision == HumanDecision.Stop then Rejected
           else Pending;
  }

  // ---------- What acceptance says about the dates ----------

  /** What must have begun: the manifest, both attestations, every receipt. */
  function Beginnings(p: Repository): set<Time> {
    {p.assembledAt, p.human.issuedAt}
    + (if p.integration.Some? then {p.integration.value.issuedAt} else {})
    + (if p.tcoQa.Some? then {p.tcoQa.value.issuedAt} else {})
    + set r | r in p.chain :: r.issuedAt
  }

  /** A bundle is in date exactly when it has both attestations, all of it has begun and
      none of its expiries is reached. */
  lemma InDateRules(p: Repository, at: Time)
    ensures InDate(p, at) <==>
            && p.integration.Some? && p.tcoQa.Some?
            && (forall b | b in Beginnings(p) :: b <= at) && (forall e | e in Expiries(p) :: at < e)
  {
    ExpiriesAreAll(p, at);
    if forall b | b in Beginnings(p) :: b <= at {
      assert p.assembledAt in Beginnings(p) && p.human.issuedAt in Beginnings(p);
      forall r | r in p.chain ensures r.issuedAt <= at {
        assert r.issuedAt in Beginnings(p);
      }
    }
  }

  /** From an instant of acceptance on, a bundle is accepted as long as none of its
      expiries has been reached and the residual answer stays, and no longer. */
  lemma AcceptedUntilExpiry(p: Repository, residual: Residual, at: Time, later: Time)
    requires Accepts(p, residual, at) && at <= later
    ensures Accepts(p, residual, later) <==> (forall e | e in Expiries(p) :: later < e) && residual(p, later)
  {
    ExpiriesAreAll(p, later);
  }

  lemma ExpiriesAreAll(p: Repository, at: Time)
    ensures (forall e | e in Expiries(p) :: at < e) <==>
            && at < p.expiresAt && at < p.human.expiresAt && (forall f | f in p.facts :: at < f)
            && (p.integration.Some? ==> at < p.integration.value.expiresAt)
            && (p.tcoQa.Some? ==> at < p.tcoQa.value.expiresAt)
  {
    var fixed, a, b := [p.expiresAt, p.human.expiresAt], ExpiryOf(p.integration), ExpiryOf(p.tcoQa);
    assert Expiries(p) == fixed + p.facts + a + b;
    assert forall e :: e in Expiries(p) <==> e in fixed || e in p.facts || e in a || e in b;
    assert p.integration.Some? ==> p.integration.value.expiresAt in a;
    assert p.tcoQa.Some? ==> p.tcoQa.value.expiresAt in b;
    assert p.expiresAt in fixed && p.human.expiresAt in fixed;
  }

  /** So no accepted bundle has a passed expiry. */
  lemma AcceptedIsUnexpired(p: Repository, residual: Residual, at: Time)
    requires Accepts(p, residual, at)
    ensures forall e | e in Expiries(p) :: at < e
  {
    AcceptedUntilExpiry(p, residual, at, at);
  }
}
