/** What every run of the one-shot store keeps: at most one claim, nothing lost,
    rollback refused, and revocation ordered against claim and dispatch. */
module ExternalActionSafety {
  import opened Common
  import opened ExternalActionArtifacts
  import opened ExternalActionStore

  // ---------- Nothing stored is changed or removed ----------

  /** Claims and revocations stay; a receipt goes from none to one value and stays. */
  ghost predicate Grows(c: Content, d: Content) {
    && c.revocations <= d.revocations
    && forall g | g in c.claims ::
         && g in d.claims && d.claims[g].claim == c.claims[g].claim
         && (c.claims[g].receipt.Some? ==> d.claims[g].receipt == c.claims[g].receipt)
  }

  lemma WriteGrows(cfg: Config, w: Write)
    requires Accepted(cfg, w)
    ensures Grows(w.base, w.next)
  {
  }

  lemma {:induction false} LogGrows(cfg: Config, log: seq<Write>, i: nat, j: nat)
    requires Linked(log) && (forall w | w in log :: Accepted(cfg, w)) && i <= j <= |log|
    ensures Grows(ContentAt(log, i), ContentAt(log, j))
    decreases j - i
  {
    if i < j {
      LogGrows(cfg, log, i, j - 1);
      WriteGrows(cfg, log[j - 1]);
      GrowsTransitive(ContentAt(log, i), ContentAt(log, j - 1), ContentAt(log, j));
    }
  }

  lemma GrowsTransitive(c: Content, d: Content, e: Content)
    requires Grows(c, d) && Grows(d, e)
    ensures Grows(c, e)
  {
  }

  // ---------- Well-formed content ----------

  ghost predicate WellFormed(rt: Runtime, c: Content) {
    && (forall g | g in c.claims :: c.claims[g].claim.grant == g)
    && (forall g, h | g in c.claims && h in c.claims && g != h ::
          && c.claims[g].claim.idempotencyKey != c.claims[h].claim.idempotencyKey
          && c.claims[g].claim.requestId != c.claims[h].claim.requestId)
    && (forall g | g in c.claims && c.claims[g].receipt.Some? ::
          && c.claims[g].receipt.value.body.claim == Sha(c.claims[g].claim)
          && ReceiptSigned(c.claims[g].receipt.value, rt.trust.executor))
    && (forall v | v in c.revocations :: ValidRevocation(v) && RevocationSigned(v, rt.trust.controller))
    && (forall v, w | v in c.revocations && w in c.revocations && v.body == w.body :: v == w)
  }

  lemma WriteKeepsWellFormed(cfg: Config, w: Write)
    requires Accepted(cfg, w) && WellFormed(cfg.rt, w.base)
    ensures WellFormed(cfg.rt, w.next)
  {
    match w.op
    case ClaimOp(r, a, g, preState, report, verified) =>
      assert w.next.revocations == w.base.revocations;
    case RevokeOp(r, g, v) =>
      assert w.next.claims == w.base.claims;
    case ReceiptOp(r, a, g, claim, e) =>
      assert w.next.revocations == w.base.revocations;
  }

  lemma {:induction false} LogWellFormed(cfg: Config, log: seq<Write>, i: nat)
    requires Linked(log) && (forall w | w in log :: Accepted(cfg, w)) && i <= |log|
    ensures WellFormed(cfg.rt, ContentAt(log, i))
  {
    if i > 0 {
      LogWellFormed(cfg, log, i - 1);
      WriteKeepsWellFormed(cfg, log[i - 1]);
    }
  }

  // ---------- At most one claim ----------

  /** The claims of two writes share a grant, a request ID or an idempotency key. */
  ghost predicate Collide(v: Write, w: Write)
    requires v.op.ClaimOp? && w.op.ClaimOp?
  {
    || v.op.grant.body == w.op.grant.body
    || v.op.request.requestId == w.op.request.requestId
    || v.op.request.idempotencyKey == w.op.request.idempotencyKey
  }

  /** A claim accepted on grown content collides with no claim made before. */
  lemma LaterClaimIsFresh(cfg: Config, v: Write, w: Write)
    requires Accepted(cfg, v) && Accepted(cfg, w) && v.op.ClaimOp? && w.op.ClaimOp?
    requires Grows(v.next, w.base)
    ensures !Collide(v, w)
  {
    var g := Sha(v.op.grant.body);
    assert g in v.next.claims && v.next.claims[g].claim == BuildClaim(v.op.request, v.op.approval, v.op.grant, v.op.preState, v.at);
    assert g in w.base.claims;
  }

  lemma LandedClaimsDiffer(cfg: Config, log: seq<Write>, i: nat, j: nat)
    requires Linked(log) && (forall w | w in log :: Accepted(cfg, w))
    requires i < j < |log| && log[i].op.ClaimOp? && log[j].op.ClaimOp?
    ensures !Collide(log[i], log[j])
  {
    LogGrows(cfg, log, i + 1, j);
    LaterClaimIsFresh(cfg, log[i], log[j]);
  }

  lemma AcknowledgedClaimsDiffer(cfg: Config, log: seq<Write>, v: Write, w: Write)
    requires Linked(log) && (forall w | w in log :: Accepted(cfg, w)) && Accepted(cfg, v) && Accepted(cfg, w)
    requires Branches(log, v) && v.next.revision <= |log| && log[v.base.revision].next == v.next
    requires Branches(log, w) && v.next.revision < w.next.revision && v.op.ClaimOp? && w.op.ClaimOp?
    ensures !Collide(v, w)
  {
    LogGrows(cfg, log, v.next.revision, w.base.revision);
    LaterClaimIsFresh(cfg, v, w);
  }

  /** No two landed claims and no two acknowledged claims collide. */
  ghost predicate ClaimedOnce(s: State) {
    && (forall i, j | 0 <= i < j < |s.log| && s.log[i].op.ClaimOp? && s.log[j].op.ClaimOp? ::
          !Collide(s.log[i], s.log[j]))
    && (forall i, j | 0 <= i < j < |s.acks| && s.acks[i].op.ClaimOp? && s.acks[j].op.ClaimOp? ::
          !Collide(s.acks[i], s.acks[j]))
  }

  lemma InvMeansClaimedOnce(cfg: Config, s: State)
    requires Inv(cfg, s)
    ensures ClaimedOnce(s)
  {
    forall i, j | 0 <= i < j < |s.log| && s.log[i].op.ClaimOp? && s.log[j].op.ClaimOp?
      ensures !Collide(s.log[i], s.log[j])
    {
      LandedClaimsDiffer(cfg, s.log, i, j);
    }
    forall i, j | 0 <= i < j < |s.acks| && s.acks[i].op.ClaimOp? && s.acks[j].op.ClaimOp?
      ensures !Collide(s.acks[i], s.acks[j])
    {
      assert s.acks[i] in s.acks && s.acks[j] in s.acks;
      AcknowledgedClaimsDiffer(cfg, s.log, s.acks[i], s.acks[j]);
    }
  }

  /** In every interleaving of handles, crashes, late pins and replaced files, each
      grant, request ID and idempotency key is claimed at most once. */
  lemma AtMostOneClaim(cfg: Config, clock: Time, steps: seq<Step>, s: State)
    requires Reaches(cfg, Init(cfg, clock), steps, s)
    ensures ClaimedOnce(s)
  {
    InitInv(cfg, clock);
    RunKeepsInv(cfg, Init(cfg, clock), steps, s);
    InvMeansClaimedOnce(cfg, s);
  }

  lemma LandedIsDurable(cfg: Config, log: seq<Write>, w: Write)
    requires Linked(log) && forall v | v in log :: Accepted(cfg, v)
    requires Branches(log, w) && w.next.revision <= |log| && log[w.base.revision].next == w.next
    ensures Grows(w.next, ContentAt(log, |log|)) && w.next.revision <= ContentAt(log, |log|).revision
  {
    CurrentRevision(log, |log|);
    LogGrows(cfg, log, w.next.revision, |log|);
  }

  lemma AcknowledgedHasLanded(s: State, w: Write)
    requires Acknowledged(s.log, s.acks) && w in s.acks
    ensures Branches(s.log, w) && w.next.revision <= |s.log| && s.log[w.base.revision].next == w.next
  {
  }

  /** Whoever was told of success finds the effect in the durable content from then on. */
  lemma AcknowledgedIsDurable(cfg: Config, s: State, w: Write)
    requires Inv(cfg, s) && w in s.acks
    ensures Grows(w.next, Current(s)) && w.next.revision <= Current(s).revision
  {
    AcknowledgedHasLanded(s, w);
    LandedIsDurable(cfg, s.log, w);
  }

  /** The durable content of a later state extends that of an earlier one, its revision
      is the number of landed writes, and its claims and revocations are well formed. */
  lemma {:induction false} RunGrows(cfg: Config, s: State, steps: seq<Step>, s': State)
    requires Inv(cfg, s) && Reaches(cfg, s, steps, s')
    ensures s.log <= s'.log && s.clock <= s'.clock && Inv(cfg, s')
    ensures Grows(Current(s), Current(s'))
    ensures Current(s').revision == |s'.log| && WellFormed(cfg.rt, Current(s'))
    decreases |steps|
  {
    RunKeepsInv(cfg, s, steps, s');
    CurrentRevision(s'.log, |s'.log|);
    LogWellFormed(cfg, s'.log, |s'.log|);
    LogIsPrefix(cfg, s, steps, s');
    assert ContentAt(s'.log, |s.log|) == Current(s);
    LogGrows(cfg, s'.log, |s.log|, |s'.log|);
  }

  lemma {:induction false} LogIsPrefix(cfg: Config, s: State, steps: seq<Step>, s': State)
    requires Reaches(cfg, s, steps, s')
    ensures s.log <= s'.log && s.clock <= s'.clock
    decreases |steps|
  {
    if steps != [] {
      LogIsPrefix(cfg, Next(cfg, s, steps[0]), steps[1..], s');
    }
  }

  // ---------- Replays ----------

  /** A stored revocation is accepted again without a new revision, a stored claim is
      never accepted again, and a stored receipt only with its own completion time. */
  lemma Replays(cfg: Config, w: Write, c: Content, now: Time)
    requires Accepted(cfg, w) && Grows(w.next, c)
    ensures w.op.RevokeOp? ==> Attempt(cfg.rt, c, w.op, now) == Ok(None)
    ensures w.op.ClaimOp? ==> Attempt(cfg.rt, c, w.op, now).Err?
    ensures w.op.ReceiptOp? ==>
              (Attempt(cfg.rt, c, w.op, now) == Ok(None) <==> now == w.at)
              && (now != w.at ==> Attempt(cfg.rt, c, w.op, now).Err?)
  {
    match w.op
    case ClaimOp(r, a, g, preState, report, verified) =>
      assert Sha(g.body) in w.next.claims;
    case RevokeOp(r, g, v) =>
    case ReceiptOp(r, a, g, claim, e) =>
      var stored := BuildReceipt(r, g, claim, e, w.at);
      assert w.next.claims[claim.grant] == ClaimRow(claim, Some(stored));
      assert c.claims[claim.grant] == ClaimRow(claim, Some(stored));
      assert BuildReceipt(r, g, claim, e, now).body.completedAt == now;
  }

  /** Once a claim has its receipt, whatever is offered for it later is accepted only if
      it builds that very receipt, and then changes nothing. */
  lemma ReceiptIsFinal(cfg: Config, w: Write, c: Content, op: Op, now: Time)
    requires Accepted(cfg, w) && w.op.ReceiptOp? && Grows(w.next, c) && op.ReceiptOp? && op.claim.grant == w.op.claim.grant
    ensures Attempt(cfg.rt, c, op, now).Ok? ==>
              && Attempt(cfg.rt, c, op, now).value == None
              && c.claims[op.claim.grant].receipt == Some(BuildReceipt(op.request, op.grant, op.claim, op.evidence, now))
  {
    var stored := BuildReceipt(w.op.request, w.op.grant, w.op.claim, w.op.evidence, w.at);
    assert w.next.claims[w.op.claim.grant] == ClaimRow(w.op.claim, Some(stored));
    assert c.claims[w.op.claim.grant].receipt == Some(stored);
  }

  // ---------- Rollback ----------

  /** The check passes exactly when both files are those of the write the pin names. */
  lemma IntegrityIsExact(cfg: Config, s: State)
    requires Inv(cfg, s)
    ensures Integrity(cfg, s.disk, s.pin) <==> s.disk == Disk(DbFor(cfg, Current(s)), AnchorFor(cfg, Current(s)))
  {
    if Integrity(cfg, s.disk, s.pin) {
      IntegrityMeansCurrent(cfg, s);
    }
  }

  /** A restored older database is refused, whatever anchor file comes with it. */
  lemma OlderCopyIsRefused(cfg: Config, s: State, i: nat, anchor: AnchorFile, h: Handle, op: Op)
    requires Inv(cfg, s) && i < |s.log|
    ensures !Integrity(cfg, Disk(DbFor(cfg, ContentAt(s.log, i)), anchor), s.pin)
    ensures s.disk == Disk(DbFor(cfg, ContentAt(s.log, i)), anchor) ==> !Enabled(cfg, s, Begin(h, op))
  {
    var t := s.(disk := Disk(DbFor(cfg, ContentAt(s.log, i)), anchor));
    CurrentRevision(s.log, i);
    CurrentRevision(s.log, |s.log|);
    if Integrity(cfg, t.disk, t.pin) {
      IntegrityMeansCurrent(cfg, t);
    }
  }

  // ---------- Revocation against claim ----------

  /** Every claim was made before the effective time of each revocation of its grant
      that was stored before it. */
  lemma {:induction false} ClaimPrecedesRevocations(cfg: Config, log: seq<Write>, i: nat, j: nat, g: GrantHash, v: Revocation)
    requires Linked(log) && (forall w | w in log :: Accepted(cfg, w)) && i <= j <= |log|
    requires v in ContentAt(log, i).revocations && v.body.grant == g
    requires g !in ContentAt(log, i).claims && g in ContentAt(log, j).claims
    ensures ContentAt(log, j).claims[g].claim.claimedAt < v.body.effectiveAt
    decreases j
  {
    LogGrows(cfg, log, i, j - 1);
    var w := log[j - 1];
    if g in w.base.claims {
      ClaimPrecedesRevocations(cfg, log, i, j - 1, g, v);
      WriteGrows(cfg, w);
    } else {
      NewClaimRow(cfg, w, g);
    }
  }

  /** Only a claim of that very grant adds a row, stamped with the clock of its check. */
  lemma NewClaimRow(cfg: Config, w: Write, g: GrantHash)
    requires Accepted(cfg, w) && g !in w.base.claims && g in w.next.claims
    ensures w.op.ClaimOp? && g == Sha(w.op.grant.body) && w.next.claims[g].claim.claimedAt == w.at
    ensures !RevocationBlocks(cfg.rt, w.base, w.op.request, w.op.grant, w.at)
    ensures forall v | v in w.base.revocations && v.body.grant == g :: w.at < v.body.effectiveAt
  {
  }
}
