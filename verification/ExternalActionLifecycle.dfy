/** The folded lifecycle of one grant over whole runs. */
module ExternalActionLifecycle {
  import opened Common
  import opened ExternalActionArtifacts
  import opened ExternalActionStore
  import opened ExternalActionSafety
  import opened ExternalActionFaults

  datatype Authority = Granted | Claimed | Expired | Revoked

  /** The fold's verdict on durable content. */
  function AuthorityOf(c: Content, g: Grant, at: Time): Authority {
    if exists v | v in c.revocations :: v.body.grant == Sha(g.body) && v.body.effectiveAt <= at then Revoked
    else if Sha(g.body) in c.claims then Claimed
    else if at >= g.body.expiresAt then Expired
    else Granted
  }

  /** The recorded outcome; None while pending. */
  function OutcomeOf(c: Content, g: Grant): Option<ActionResult> {
    if Sha(g.body) in c.claims && c.claims[Sha(g.body)].receipt.Some?
    then Some(c.claims[Sha(g.body)].receipt.value.body.result) else None
  }

  predicate Forward(a: Authority, b: Authority) {
    match a
    case Granted => true
    case Claimed => b.Claimed? || b.Revoked?
    case Expired => b.Expired? || b.Revoked?
    case Revoked => b.Revoked?
  }

  // ---------- Which claims can still be made ----------

  predicate ClaimsGrant(w: Write, g: Grant) {
    w.op.ClaimOp? && w.op.grant.body == g.body
  }

  /** A claim of the grant whose pin request would still move the pin if it landed. */
  ghost predicate ClaimPending(s: State, g: Grant) {
    exists w :: Pending(s, w) && ClaimsGrant(w, g)
  }

  /** The one request and approval that a grant names, claimed under good signatures and,
      for an activation, some public report that the oracle verifies. */
  function ClaimNamedBy(rt: Runtime, g: Grant): Op
    requires g.body.request.Sha? && g.body.approval.Sha?
  {
    var r := g.body.request.of;
    var report := if r.target.action.ActivatePublicRelease? && r.release.Some?
                  then Some(PublicReport(r.release.value, true, true, g.body.expiresAt)) else None;
    ClaimOp(r, Approval(g.body.approval.of, Signature(rt.trust.human.keyId, g.body.approval.of, 0)),
            Grant(g.body, Signature(rt.trust.controller.keyId, g.body, 0)), r.preState, report, true)
  }

  /** The earliest claim that can still begin would be accepted. */
  predicate Claimable(rt: Runtime, c: Content, g: Grant, clock: Time) {
    && g.body.request.Sha? && g.body.approval.Sha?
    && Attempt(rt, c, ClaimNamedBy(rt, g), Max(clock, g.body.issuedAt)).Ok?
  }

  /** Whoever claims the grant, at whatever later time and on whatever grown content,
      could have made the earliest claim on this content. */
  lemma EarliestClaim(rt: Runtime, c: Content, d: Content, op: Op, g: Grant, clock: Time, at: Time)
    requires op.ClaimOp? && op.grant.body == g.body && clock <= at && Grows(c, d)
    requires Attempt(rt, d, op, at).Ok?
    ensures Claimable(rt, c, g, clock)
  {
    var early := Max(clock, g.body.issuedAt);
    var named := ClaimNamedBy(rt, g);
    assert op.request == named.request && op.approval.body == named.approval.body;
    assert VerifiesArtifacts(rt, named.request, named.approval, named.grant, early, named.preState, named.report, true);
    assert !RevocationBlocks(rt, c, named.request, named.grant, early);
    forall k | k in c.claims
      ensures c.claims[k].claim.idempotencyKey != op.request.idempotencyKey
      ensures c.claims[k].claim.requestId != op.request.requestId
    {
      assert k in d.claims;
    }
  }

  // ---------- When an unclaimed grant is claimed later ----------

  /** From landed write n on, every claim of the grant under way or landed was checked
      at t or later. */
  ghost predicate ClaimsLater(s: State, n: nat, t: Time, g: Grant) {
    && t <= s.clock
    && (forall i | n <= i < |s.log| && ClaimsGrant(s.log[i], g) :: t <= s.log[i].at)
    && (forall w | w in s.inFlight && w.next.revision > n && ClaimsGrant(w, g) :: t <= w.at)
    && (s.lock.Writing? && s.lock.write.next.revision > n && ClaimsGrant(s.lock.write, g) ==> t <= s.lock.write.at)
  }

  lemma StepKeepsLater(cfg: Config, s: State, step: Step, n: nat, t: Time, g: Grant)
    requires Inv(cfg, s) && ClaimsLater(s, n, t, g) && Enabled(cfg, s, step) && n <= |s.log|
    ensures ClaimsLater(Next(cfg, s, step), n, t, g)
  {
    CurrentRevisionInv(cfg, s);
  }

  lemma {:induction false} RunKeepsLater(cfg: Config, s: State, steps: seq<Step>, s': State, n: nat, t: Time, g: Grant)
    requires Inv(cfg, s) && ClaimsLater(s, n, t, g) && n <= |s.log| && Reaches(cfg, s, steps, s')
    ensures ClaimsLater(s', n, t, g)
    decreases |steps|
  {
    if steps != [] {
      StepKeepsLater(cfg, s, steps[0], n, t, g);
      StepKeepsInv(cfg, s, steps[0]);
      RunKeepsLater(cfg, Next(cfg, s, steps[0]), steps[1..], s', n, t, g);
    }
  }

  /** A claim that appears between two points of the history was written between them. */
  lemma {:induction false} NewClaimWrite(cfg: Config, log: seq<Write>, i: nat, j: nat, g: Grant) returns (k: nat)
    requires Linked(log) && (forall w | w in log :: Accepted(cfg, w)) && i <= j <= |log|
    requires Sha(g.body) !in ContentAt(log, i).claims && Sha(g.body) in ContentAt(log, j).claims
    ensures i <= k < j && ClaimsGrant(log[k], g) && Grows(ContentAt(log, i), log[k].base)
    decreases j
  {
    if Sha(g.body) in log[j - 1].base.claims {
      k := NewClaimWrite(cfg, log, i, j - 1, g);
    } else {
      k := j - 1;
      NewClaimRow(cfg, log[k], Sha(g.body));
      LogGrows(cfg, log, i, k);
    }
  }

  /** A run after which the grant is claimed. */
  ghost predicate LeadsToClaim(cfg: Config, s: State, g: Grant, steps: seq<Step>, s': State) {
    Reaches(cfg, s, steps, s') && Sha(g.body) in Current(s').claims
  }

  lemma NothingPendingIsLater(s: State, g: Grant)
    requires !s.lock.Writing? && !ClaimPending(s, g)
    ensures ClaimsLater(s, |s.log|, s.clock, g)
  {
    assert forall w | w in s.inFlight && w.next.revision > |s.log| :: Pending(s, w);
  }

  lemma {:induction false} NewClaimLater(cfg: Config, s: State, c: Content, n: nat, g: Grant, clock: Time)
    requires Inv(cfg, s) && ClaimsLater(s, n, clock, g) && n <= |s.log| && c == ContentAt(s.log, n)
    requires Sha(g.body) !in c.claims && Sha(g.body) in Current(s).claims
    ensures Claimable(cfg.rt, c, g, clock)
  {
    var k := NewClaimWrite(cfg, s.log, n, |s.log|, g);
    var w := s.log[k];
    assert w in s.log;
    EarliestClaim(cfg.rt, c, w.base, w.op, g, clock, w.at);
  }

  lemma ClaimNeedsAuthority(cfg: Config, s: State, g: Grant, steps: seq<Step>, s': State)
    requires Inv(cfg, s) && !s.lock.Writing? && Sha(g.body) !in Current(s).claims
    requires LeadsToClaim(cfg, s, g, steps, s') && !ClaimPending(s, g)
    ensures Claimable(cfg.rt, Current(s), g, s.clock)
  {
    RunGrows(cfg, s, steps, s');
    NothingPendingIsLater(s, g);
    RunKeepsLater(cfg, s, steps, s', |s.log|, s.clock, g);
    NewClaimLater(cfg, s', Current(s), |s.log|, g, s.clock);
  }

  lemma PendingClaimLands(cfg: Config, s: State, g: Grant, w: Write)
    requires Inv(cfg, s) && Pending(s, w) && ClaimsGrant(w, g)
    ensures LeadsToClaim(cfg, s, g, [LandPin(w)], Next(cfg, s, LandPin(w)))
    ensures Current(Next(cfg, s, LandPin(w))).revocations == Current(s).revocations
  {
    PendingLandsHere(cfg, s, w);
    WriteAdds(cfg, w);
  }

  lemma EarliestClaimBegins(cfg: Config, s: State, g: Grant, h: Handle)
    requires s.lock.Free? && Integrity(cfg, s.disk, s.pin) && s.disk.db.content == Current(s)
    requires Claimable(cfg.rt, Current(s), g, s.clock) && s.clock >= g.body.issuedAt && s.pin.revision == Current(s).revision
    ensures Enabled(cfg, s, Begin(h, ClaimNamedBy(cfg.rt, g)))
    ensures var c := Current(CompleteWrite(cfg, Next(cfg, s, Begin(h, ClaimNamedBy(cfg.rt, g)))));
            Sha(g.body) in c.claims && c.revocations == Current(s).revocations
  {
  }

  /** From a usable store with a free lock, the earliest claim runs to its end. */
  lemma ClaimRuns(cfg: Config, s: State, g: Grant, h: Handle) returns (steps: seq<Step>, s': State)
    requires Inv(cfg, s) && s.lock.Free? && Integrity(cfg, s.disk, s.pin) && Claimable(cfg.rt, Current(s), g, s.clock)
    ensures NoTamper(steps) && LeadsToClaim(cfg, s, g, steps, s')
    ensures Current(s').revocations == Current(s).revocations
  {
    var tick, begin := Tick(Max(s.clock, g.body.issuedAt)), Begin(h, ClaimNamedBy(cfg.rt, g));
    IntegrityMeansCurrent(cfg, s);
    CurrentRevisionInv(cfg, s);
    var s1 := Next(cfg, s, tick);
    EarliestClaimBegins(cfg, s1, g, h);
    var s2 := Next(cfg, s1, begin);
    var w := s2.lock.write;
    s' := CompleteWrite(cfg, s2);
    steps := [tick, begin, Commit, WriteAnchor, RequestPin, LandPin(w)];
    CompleteWriteRuns(cfg, s2);
    ReachesStep(cfg, s1, begin, [Commit, WriteAnchor, RequestPin, LandPin(w)], s');
    ReachesStep(cfg, s, tick, [begin, Commit, WriteAnchor, RequestPin, LandPin(w)], s');
    assert steps == [tick] + [begin, Commit, WriteAnchor, RequestPin, LandPin(w)];
  }

  /** A checked write committed, anchored and pinned without interruption. */
  function CompleteWrite(cfg: Config, s: State): State
    requires s.lock.Writing? && s.lock.stage.Checked?
  {
    var w := s.lock.write;
    Next(cfg, s.(disk := Disk(DbFor(cfg, w.next), AnchorFor(cfg, w.next)), lock := s.lock.(stage := Requested),
                 inFlight := s.inFlight + {w}), LandPin(w))
  }

  lemma CompleteWriteRuns(cfg: Config, s: State)
    requires s.lock.Writing? && s.lock.stage.Checked?
    ensures Reaches(cfg, s, [Commit, WriteAnchor, RequestPin, LandPin(s.lock.write)], CompleteWrite(cfg, s))
  {
    var w := s.lock.write;
    var s1 := Next(cfg, s, Commit);
    var s2 := Next(cfg, s1, WriteAnchor);
    var s3 := Next(cfg, s2, RequestPin);
    var s4 := CompleteWrite(cfg, s);
    assert Next(cfg, s3, LandPin(w)) == s4;
    ReachesStep(cfg, s3, LandPin(w), [], s4);
    ReachesStep(cfg, s2, RequestPin, [LandPin(w)], s4);
    ReachesStep(cfg, s1, WriteAnchor, [RequestPin, LandPin(w)], s4);
    ReachesStep(cfg, s, Commit, [WriteAnchor, RequestPin, LandPin(w)], s4);
  }

  /** Restoring the current files makes any store usable. */
  lemma ClaimRunsAnywhere(cfg: Config, s: State, g: Grant) returns (steps: seq<Step>, s': State)
    requires Inv(cfg, s) && Claimable(cfg.rt, Current(s), g, s.clock)
    ensures LeadsToClaim(cfg, s, g, steps, s')
    ensures Current(s').revocations == Current(s).revocations
  {
    var restore := Tamper(Disk(DbFor(cfg, Current(s)), AnchorFor(cfg, Current(s))));
    var t := Next(cfg, s, restore);
    StepKeepsInv(cfg, s, restore);
    var u := if t.lock.Free? then t else Next(cfg, t, GiveUp);
    if !t.lock.Free? {
      StepKeepsInv(cfg, t, GiveUp);
    }
    IntegrityIsExact(cfg, u);
    steps, s' := ClaimRuns(cfg, u, g, 0);
    if !t.lock.Free? {
      ReachesStep(cfg, t, GiveUp, steps, s');
      steps := [GiveUp] + steps;
    }
    ReachesStep(cfg, s, restore, steps, s');
    steps := [restore] + steps;
  }

  /** An unclaimed grant is claimed in some later state exactly when a claim of it is in
      flight or its earliest claim would still be accepted now. */
  lemma ClaimedLaterIff(cfg: Config, s: State, g: Grant)
    requires Inv(cfg, s) && !s.lock.Writing? && Sha(g.body) !in Current(s).claims
    ensures (exists steps, s' :: LeadsToClaim(cfg, s, g, steps, s'))
       <==> ClaimPending(s, g) || Claimable(cfg.rt, Current(s), g, s.clock)
  {
    forall steps, s' | LeadsToClaim(cfg, s, g, steps, s') && !ClaimPending(s, g)
      ensures Claimable(cfg.rt, Current(s), g, s.clock)
    {
      ClaimNeedsAuthority(cfg, s, g, steps, s');
    }
    if ClaimPending(s, g) {
      var w :| Pending(s, w) && ClaimsGrant(w, g);
      PendingClaimLands(cfg, s, g, w);
    } else if Claimable(cfg.rt, Current(s), g, s.clock) {
      var steps, s' := ClaimRunsAnywhere(cfg, s, g);
    }
  }

  /** A grant that a report not ahead of the guard's clock calls expired or revoked can
      begin no claim any more. */
  lemma ReportEndsClaims(cfg: Config, s: State, g: Grant, at: Time)
    requires at <= s.clock && AuthorityOf(Current(s), g, at) in {Expired, Revoked}
    ensures !Claimable(cfg.rt, Current(s), g, s.clock)
  {
  }

  /** So a grant once reported expired or revoked while unclaimed is claimed later
      exactly when a claim of it is in flight. */
  lemma ReportedThenClaimedIff(cfg: Config, s: State, g: Grant, at: Time)
    requires Inv(cfg, s) && !s.lock.Writing? && at <= s.clock
    requires Sha(g.body) !in Current(s).claims && AuthorityOf(Current(s), g, at) in {Expired, Revoked}
    ensures (exists steps, s' :: LeadsToClaim(cfg, s, g, steps, s')) <==> ClaimPending(s, g)
  {
    ReportEndsClaims(cfg, s, g, at);
    ClaimedLaterIff(cfg, s, g);
  }

  // ---------- When the lifecycle moves back ----------

  /** A later report, not dated before the first, that contradicts it. */
  ghost predicate MovesBack(cfg: Config, s: State, g: Grant, at: Time, steps: seq<Step>, s': State, at': Time) {
    && Reaches(cfg, s, steps, s') && at <= at'
    && !Forward(AuthorityOf(Current(s), g, at), AuthorityOf(Current(s'), g, at'))
  }

  /** Only an expired grant that is claimed after all contradicts its report. */
  lemma BackMeansClaimed(cfg: Config, s: State, g: Grant, at: Time, steps: seq<Step>, s': State, at': Time)
    requires Inv(cfg, s) && MovesBack(cfg, s, g, at, steps, s', at')
    ensures AuthorityOf(Current(s), g, at) == Expired && LeadsToClaim(cfg, s, g, steps, s')
  {
    RunGrows(cfg, s, steps, s');
  }

  lemma ClaimedMeansBack(cfg: Config, s: State, g: Grant, at: Time, steps: seq<Step>, s': State)
    requires AuthorityOf(Current(s), g, at) == Expired && LeadsToClaim(cfg, s, g, steps, s')
    requires Current(s').revocations == Current(s).revocations
    ensures MovesBack(cfg, s, g, at, steps, s', at)
  {
  }

  /** Two reports of one run, of whatever dates, contradict the order of the lifecycle
      for some continuation exactly when the first calls the grant expired while a claim
      of it is in flight or can still be made. */
  lemma MovesBackIff(cfg: Config, s: State, g: Grant, at: Time)
    requires Inv(cfg, s) && !s.lock.Writing?
    ensures (exists steps, s', at' :: MovesBack(cfg, s, g, at, steps, s', at'))
       <==> AuthorityOf(Current(s), g, at) == Expired
            && (ClaimPending(s, g) || Claimable(cfg.rt, Current(s), g, s.clock))
  {
    forall steps, s', at' | MovesBack(cfg, s, g, at, steps, s', at')
      ensures AuthorityOf(Current(s), g, at) == Expired
      ensures ClaimPending(s, g) || Claimable(cfg.rt, Current(s), g, s.clock)
    {
      BackMeansClaimed(cfg, s, g, at, steps, s', at');
      ClaimedLaterIff(cfg, s, g);
    }
    if AuthorityOf(Current(s), g, at) == Expired {
      if ClaimPending(s, g) {
        var w :| Pending(s, w) && ClaimsGrant(w, g);
        PendingClaimLands(cfg, s, g, w);
        ClaimedMeansBack(cfg, s, g, at, [LandPin(w)], Next(cfg, s, LandPin(w)));
      } else if Claimable(cfg.rt, Current(s), g, s.clock) {
        var steps, s' := ClaimRunsAnywhere(cfg, s, g);
        ClaimedMeansBack(cfg, s, g, at, steps, s');
      }
    }
  }

  /** For a report not ahead of the guard's clock only a claim in flight is left. */
  lemma ForwardOnlyIff(cfg: Config, s: State, g: Grant, at: Time)
    requires Inv(cfg, s) && !s.lock.Writing? && at <= s.clock
    ensures (exists steps, s', at' :: MovesBack(cfg, s, g, at, steps, s', at'))
       <==> AuthorityOf(Current(s), g, at) == Expired && ClaimPending(s, g)
  {
    MovesBackIff(cfg, s, g, at);
    if AuthorityOf(Current(s), g, at) == Expired {
      ReportEndsClaims(cfg, s, g, at);
    }
  }

  /** A recorded outcome never changes, whatever happens to files and pins. */
  lemma OutcomeIsFinal(cfg: Config, s: State, steps: seq<Step>, s': State, g: Grant)
    requires Inv(cfg, s) && Reaches(cfg, s, steps, s') && OutcomeOf(Current(s), g).Some?
    ensures OutcomeOf(Current(s'), g) == OutcomeOf(Current(s), g)
  {
    RunGrows(cfg, s, steps, s');
  }

  /** With no claim of the grant in flight, no later report contradicts one not ahead of
      the clock, and a grant it calls expired or revoked while unclaimed stays unclaimed. */
  lemma ForwardOnly(cfg: Config, s: State, steps: seq<Step>, s': State, g: Grant, at: Time, at': Time)
    requires Inv(cfg, s) && !s.lock.Writing? && !ClaimPending(s, g) && Reaches(cfg, s, steps, s')
    requires at <= s.clock && at <= at'
    ensures Forward(AuthorityOf(Current(s), g, at), AuthorityOf(Current(s'), g, at'))
    ensures AuthorityOf(Current(s), g, at) in {Expired, Revoked} && Sha(g.body) !in Current(s).claims ==>
              Sha(g.body) !in Current(s').claims
  {
    ForwardOnlyIff(cfg, s, g, at);
    assert !MovesBack(cfg, s, g, at, steps, s', at');
    if AuthorityOf(Current(s), g, at) in {Expired, Revoked} && Sha(g.body) !in Current(s).claims {
      ReportedThenClaimedIff(cfg, s, g, at);
      assert !LeadsToClaim(cfg, s, g, steps, s');
    }
  }

  // ---------- Runs whose files only the handles write ----------

  /** There a usable store with a free lock has nothing in flight. */
  lemma HonestIsQuiescent(cfg: Config, clock: Time, before: seq<Step>, s: State)
    requires Reaches(cfg, Init(cfg, clock), before, s) && NoTamper(before)
    requires s.lock.Free? && Integrity(cfg, s.disk, s.pin)
    ensures Inv(cfg, s) && Quiescent(s)
  {
    InitInv(cfg, clock);
    RunKeepsInv(cfg, Init(cfg, clock), before, s);
    InterruptionOutcome(cfg, clock, before, s);
  }

  lemma QuiescentHasNoClaim(s: State, g: Grant)
    requires Quiescent(s)
    ensures !ClaimPending(s, g)
  {
  }

  /** With no file replaced before it, a report from a usable store with a free lock is
      contradicted exactly when it runs ahead of the clock past the expiry of a grant
      that can still be claimed. */
  lemma HonestForwardIff(cfg: Config, clock: Time, before: seq<Step>, s: State, g: Grant, at: Time)
    requires Reaches(cfg, Init(cfg, clock), before, s) && NoTamper(before)
    requires s.lock.Free? && Integrity(cfg, s.disk, s.pin)
    ensures (exists after, s', at' :: NoTamper(after) && MovesBack(cfg, s, g, at, after, s', at'))
       <==> AuthorityOf(Current(s), g, at) == Expired && Claimable(cfg.rt, Current(s), g, s.clock)
    ensures AuthorityOf(Current(s), g, at) == Expired && Claimable(cfg.rt, Current(s), g, s.clock) ==> s.clock < at
  {
    HonestIsQuiescent(cfg, clock, before, s);
    QuiescentHasNoClaim(s, g);
    MovesBackIff(cfg, s, g, at);
    if AuthorityOf(Current(s), g, at) == Expired && Claimable(cfg.rt, Current(s), g, s.clock) {
      var after, s' := ClaimRuns(cfg, s, g, 0);
      ClaimedMeansBack(cfg, s, g, at, after, s');
    }
  }

  /** There, a grant reported expired or revoked while unclaimed, at a time not ahead of
      the clock, is never claimed, and no later report contradicts the first. */
  lemma HonestForwardOnly(cfg: Config, clock: Time, before: seq<Step>, s: State, after: seq<Step>, s': State,
                          g: Grant, at: Time, at': Time)
    requires Reaches(cfg, Init(cfg, clock), before, s) && NoTamper(before)
    requires s.lock.Free? && Integrity(cfg, s.disk, s.pin) && Reaches(cfg, s, after, s')
    requires at <= s.clock && at <= at'
    ensures Forward(AuthorityOf(Current(s), g, at), AuthorityOf(Current(s'), g, at'))
    ensures OutcomeOf(Current(s), g).Some? ==> OutcomeOf(Current(s'), g) == OutcomeOf(Current(s), g)
    ensures AuthorityOf(Current(s), g, at) in {Expired, Revoked} && Sha(g.body) !in Current(s).claims ==>
              Sha(g.body) !in Current(s').claims
  {
    HonestIsQuiescent(cfg, clock, before, s);
    QuiescentHasNoClaim(s, g);
    ForwardOnly(cfg, s, after, s', g, at, at');
    if OutcomeOf(Current(s), g).Some? {
      OutcomeIsFinal(cfg, s, after, s', g);
    }
  }

  /** A report dated ahead of the guard's clock can call a grant expired that is then
      claimed. */
  lemma ReportAheadOfClock(cfg: Config, s: State, h: Handle, op: Op)
    requires Inv(cfg, s) && op.ClaimOp? && Enabled(cfg, s, Begin(h, op))
    requires forall v | v in Current(s).revocations && v.body.grant == Sha(op.grant.body) ::
               op.grant.body.expiresAt < v.body.effectiveAt
    ensures var at := op.grant.body.expiresAt;
            var w := Next(cfg, s, Begin(h, op)).lock.write;
            && s.clock < at
            && AuthorityOf(Current(s), op.grant, at) == Expired
            && AuthorityOf(w.next, op.grant, at) == Claimed
  {
    IntegrityMeansCurrent(cfg, s);
  }

  /** A claim abandoned before a restore can land after the grant was reported expired. */
  lemma LateClaimAfterExpiry(cfg: Config, s: State, h: Handle, op: Op)
    requires Inv(cfg, s) && op.ClaimOp? && Enabled(cfg, s, Begin(h, op))
    requires forall v | v in Current(s).revocations && v.body.grant == Sha(op.grant.body) ::
               op.grant.body.expiresAt < v.body.effectiveAt
    ensures var at := op.grant.body.expiresAt;
            var t := AbandonedWrite(cfg, s, h, op);
            var w := Next(cfg, s, Begin(h, op)).lock.write;
            Enabled(cfg, t, Tick(at)) &&
            var u := Next(cfg, t, Tick(at));
            Integrity(cfg, u.disk, u.pin) && AuthorityOf(Current(u), op.grant, at) == Expired && Enabled(cfg, u, LandPin(w)) &&
            AuthorityOf(Current(Next(cfg, u, LandPin(w))), op.grant, at) == Claimed
  {
    IntegrityMeansCurrent(cfg, s);
    CurrentRevisionInv(cfg, s);
    ReportAheadOfClock(cfg, s, h, op);
  }
}
