/** Interrupted writes, late pins and the dispatch fence. */
module ExternalActionFaults {
  import opened Common
  import opened ExternalActionArtifacts
  import opened ExternalActionStore
  import opened ExternalActionSafety

  /** A pin request that would still move the pin if it landed. */
  ghost predicate Pending(s: State, w: Write) {
    w in s.inFlight && w.next.revision > |s.log|
  }

  ghost predicate Quiescent(s: State) {
    forall w | w in s.inFlight :: !Pending(s, w)
  }

  ghost predicate NoTamper(steps: seq<Step>) {
    forall step | step in steps :: !step.Tamper?
  }

  // ---------- Runs whose files only the handles write ----------

  /** Nothing is under way, or a write has not reached the database, or its pin landed. */
  ghost predicate Settled(cfg: Config, s: State) {
    && s.disk == Disk(DbFor(cfg, Current(s)), AnchorFor(cfg, Current(s)))
    && Quiescent(s)
    && (s.lock.Writing? ==>
          if s.lock.stage.Checked? then s.lock.write.base == Current(s)
          else s.lock.stage.Requested? && s.lock.write.next == Current(s))
  }

  /** The database holds the content of a write one revision ahead of the pin. */
  ghost predicate Interrupted(cfg: Config, s: State, next: Content) {
    && next.revision == |s.log| + 1
    && s.disk.db == DbFor(cfg, next)
    && (forall v | Pending(s, v) :: v.next == next && s.disk.anchor == AnchorFor(cfg, next))
    && !s.lock.Fencing?
    && (s.lock.Writing? ==>
          && s.lock.write.next == next
          && !s.lock.stage.Checked?
          && (!s.lock.stage.Requested? ==> Quiescent(s))
          && (!s.lock.stage.Committed? ==> s.disk.anchor == AnchorFor(cfg, next)))
  }

  ghost predicate Honest(cfg: Config, s: State) {
    Settled(cfg, s) || exists next :: Interrupted(cfg, s, next)
  }

  lemma CurrentRevisionInv(cfg: Config, s: State)
    requires Inv(cfg, s)
    ensures Current(s).revision == |s.log| && s.pin.revision == |s.log|
  {
    CurrentRevision(s.log, |s.log|);
  }

  /** An interrupted store refuses every operation. */
  lemma InterruptedRefuses(cfg: Config, s: State, next: Content)
    requires Inv(cfg, s) && Interrupted(cfg, s, next)
    ensures !Integrity(cfg, s.disk, s.pin)
  {
    CurrentRevisionInv(cfg, s);
    IntegrityIsExact(cfg, s);
  }

  lemma PendingLanding(cfg: Config, s: State, next: Content, v: Write)
    requires Interrupted(cfg, s, next) && s.pin.revision == |s.log| && Pending(s, v)
    ensures Settled(cfg, Next(cfg, s, LandPin(v)))
  {
    var s' := Next(cfg, s, LandPin(v));
    assert Current(s') == next;
    forall u | u in s'.inFlight ensures !Pending(s', u) {
      assert Pending(s, u) ==> u.next == next;
    }
  }

  lemma StaleLanding(cfg: Config, s: State, next: Content, v: Write)
    requires Interrupted(cfg, s, next) && s.pin.revision == |s.log| && v in s.inFlight && !Pending(s, v)
    ensures Interrupted(cfg, Next(cfg, s, LandPin(v)), next)
  {
    var s' := Next(cfg, s, LandPin(v));
    forall u | Pending(s', u) ensures u.next == next && s'.disk.anchor == AnchorFor(cfg, next) {
      assert Pending(s, u);
    }
  }

  lemma RequestKeepsInterrupted(cfg: Config, s: State, next: Content)
    requires Interrupted(cfg, s, next) && Enabled(cfg, s, RequestPin)
    ensures Interrupted(cfg, Next(cfg, s, RequestPin), next)
  {
    var s' := Next(cfg, s, RequestPin);
    forall u | Pending(s', u) ensures u.next == next && s'.disk.anchor == AnchorFor(cfg, next) {
      assert u == s.lock.write || Pending(s, u);
    }
  }

  predicate IsQuiet(step: Step) {
    step.TearAnchor? || step.WriteAnchor? || step.LosePin? || step.Acknowledge? || step.GiveUp? || step.Tick?
  }

  /** What an interrupted store can still do. */
  lemma InterruptedSteps(cfg: Config, s: State, next: Content, step: Step)
    requires Inv(cfg, s) && Interrupted(cfg, s, next) && Enabled(cfg, s, step) && !step.Tamper?
    ensures step.LandPin? || step.RequestPin? || IsQuiet(step)
  {
    InterruptedRefuses(cfg, s, next);
  }

  lemma QuietStepKeepsInterrupted(cfg: Config, s: State, next: Content, step: Step)
    requires Interrupted(cfg, s, next) && Enabled(cfg, s, step)
    requires IsQuiet(step)
    ensures Interrupted(cfg, Next(cfg, s, step), next)
  {
    var s' := Next(cfg, s, step);
    forall u | Pending(s', u) ensures u.next == next && s'.disk.anchor == AnchorFor(cfg, next) {
      assert Pending(s, u);
    }
  }

  lemma StepKeepsHonestSettled(cfg: Config, s: State, step: Step)
    requires Inv(cfg, s) && Settled(cfg, s) && Enabled(cfg, s, step) && !step.Tamper?
    ensures Honest(cfg, Next(cfg, s, step))
  {
    var s' := Next(cfg, s, step);
    CurrentRevisionInv(cfg, s);
    match step
    case Commit => assert Interrupted(cfg, s', s.lock.write.next);
    case Begin(h, op) => BeginKeepsInv(cfg, s, h, op);
    case LandPin(v) => assert !Pending(s, v);
    case _ =>
  }

  lemma StepKeepsHonestInterrupted(cfg: Config, s: State, next: Content, step: Step)
    requires Inv(cfg, s) && Interrupted(cfg, s, next) && Enabled(cfg, s, step) && !step.Tamper?
    ensures Honest(cfg, Next(cfg, s, step))
  {
    InterruptedSteps(cfg, s, next, step);
    CurrentRevisionInv(cfg, s);
    if step.LandPin? {
      if Pending(s, step.w) {
        PendingLanding(cfg, s, next, step.w);
      } else {
        StaleLanding(cfg, s, next, step.w);
      }
    } else if step.RequestPin? {
      RequestKeepsInterrupted(cfg, s, next);
    } else {
      QuietStepKeepsInterrupted(cfg, s, next, step);
    }
  }

  lemma {:induction false} HonestRun(cfg: Config, s: State, steps: seq<Step>, s': State)
    requires Inv(cfg, s) && Honest(cfg, s) && Reaches(cfg, s, steps, s') && NoTamper(steps)
    ensures Inv(cfg, s') && Honest(cfg, s')
    decreases |steps|
  {
    if steps != [] {
      var t := Next(cfg, s, steps[0]);
      StepKeepsInv(cfg, s, steps[0]);
      if Settled(cfg, s) {
        StepKeepsHonestSettled(cfg, s, steps[0]);
      } else {
        var next :| Interrupted(cfg, s, next);
        StepKeepsHonestInterrupted(cfg, s, next, steps[0]);
      }
      HonestRun(cfg, t, steps[1..], s');
    }
  }

  /** With files written by the handles alone, an interruption leaves either the state
      still usable, or every operation refused until that same write's pin lands. */
  lemma InterruptionOutcome(cfg: Config, clock: Time, steps: seq<Step>, s: State)
    requires Reaches(cfg, Init(cfg, clock), steps, s) && NoTamper(steps) && s.lock.Free?
    ensures Integrity(cfg, s.disk, s.pin) ==> Settled(cfg, s)
    ensures !Integrity(cfg, s.disk, s.pin) ==>
              exists next :: Interrupted(cfg, s, next) && forall v | Pending(s, v) ::
                v.next == next && Settled(cfg, Next(cfg, s, LandPin(v)))
  {
    InitInv(cfg, clock);
    HonestRun(cfg, Init(cfg, clock), steps, s);
    if !Settled(cfg, s) {
      var next :| Interrupted(cfg, s, next);
      InterruptedRefuses(cfg, s, next);
      CurrentRevisionInv(cfg, s);
      forall v | Pending(s, v) ensures v.next == next && Settled(cfg, Next(cfg, s, LandPin(v))) {
        PendingLanding(cfg, s, next, v);
      }
    }
  }

  // ---------- When an interrupted store recovers ----------

  ghost predicate Stuck(cfg: Config, s: State, next: Content) {
    Inv(cfg, s) && Interrupted(cfg, s, next) && Quiescent(s) && s.lock.Free?
  }

  lemma StuckStep(cfg: Config, s: State, next: Content, step: Step)
    requires Stuck(cfg, s, next) && Enabled(cfg, s, step) && !step.Tamper?
    ensures Stuck(cfg, Next(cfg, s, step), next)
  {
    var s' := Next(cfg, s, step);
    StepKeepsInv(cfg, s, step);
    InterruptedSteps(cfg, s, next, step);
    CurrentRevisionInv(cfg, s);
    if step.LandPin? {
      StaleLanding(cfg, s, next, step.w);
    } else {
      QuietStepKeepsInterrupted(cfg, s, next, step);
    }
    assert forall u | u in s'.inFlight :: u in s.inFlight;
  }

  lemma {:induction false} StuckForever(cfg: Config, s: State, next: Content, steps: seq<Step>, s': State)
    requires Stuck(cfg, s, next) && Reaches(cfg, s, steps, s') && NoTamper(steps)
    ensures !Integrity(cfg, s'.disk, s'.pin)
    decreases |steps|
  {
    if steps == [] {
      InterruptedRefuses(cfg, s, next);
    } else {
      StuckStep(cfg, s, next, steps[0]);
      StuckForever(cfg, Next(cfg, s, steps[0]), next, steps[1..], s');
    }
  }

  lemma PinRecovers(cfg: Config, s: State, next: Content) returns (steps: seq<Step>, s': State)
    requires Inv(cfg, s) && Interrupted(cfg, s, next) && !Quiescent(s)
    ensures NoTamper(steps) && Reaches(cfg, s, steps, s') && Integrity(cfg, s'.disk, s'.pin)
  {
    var w :| w in s.inFlight && Pending(s, w);
    CurrentRevisionInv(cfg, s);
    PendingLanding(cfg, s, next, w);
    StepKeepsInv(cfg, s, LandPin(w));
    steps, s' := [LandPin(w)], Next(cfg, s, LandPin(w));
    IntegrityIsExact(cfg, s');
    ReachesStep(cfg, s, LandPin(w), [], s');
  }

  ghost predicate CanRecover(cfg: Config, s: State) {
    exists steps, s' :: NoTamper(steps) && Reaches(cfg, s, steps, s') && Integrity(cfg, s'.disk, s'.pin)
  }

  /** With files written by the handles alone and the lock free, an interrupted store comes
      back exactly when its pin request is still in flight.  A crash between the database
      commit and the request, or a lost request, therefore refuses every operation for good
      unless the files are replaced. */
  lemma RecoversIffPinInFlight(cfg: Config, s: State, next: Content)
    requires Inv(cfg, s) && Interrupted(cfg, s, next) && s.lock.Free?
    ensures CanRecover(cfg, s) <==> !Quiescent(s)
  {
    if !Quiescent(s) {
      var steps, s' := PinRecovers(cfg, s, next);
    } else {
      forall steps, s' | NoTamper(steps) && Reaches(cfg, s, steps, s') ensures !Integrity(cfg, s'.disk, s'.pin) {
        StuckForever(cfg, s, next, steps, s');
      }
    }
  }

  // ---------- The dispatch fence ----------

  /** No durable revocation of the grant is effective before the deadline. */
  ghost predicate UnrevokedUntil(c: Content, g: GrantHash, notAfter: Time) {
    forall v | v in c.revocations && v.body.grant == g :: notAfter <= v.body.effectiveAt
  }

  /** At entry the claim is durable, the deadline lies inside all three signed windows,
      and nothing revokes the grant before it. */
  lemma FenceEntry(cfg: Config, s: State, h: Handle, r: Request, a: Approval, g: Grant, claim: Claim, at: Time, notAfter: Time)
    requires Inv(cfg, s) && Enabled(cfg, s, FenceEnter(h, r, a, g, claim, at, notAfter))
    ensures at < notAfter <= Min(r.expiresAt, Min(a.body.expiresAt, g.body.expiresAt))
    ensures Sha(g.body) in Current(s).claims && Current(s).claims[Sha(g.body)].claim == claim
    ensures UnrevokedUntil(Current(s), Sha(g.body), notAfter)
  {
    IntegrityMeansCurrent(cfg, s);
  }

  ghost predicate HoldsFence(steps: seq<Step>) {
    forall step | step in steps :: !step.FenceExit? && !step.GiveUp?
  }

  lemma {:induction false} FenceKeepsOut(cfg: Config, s: State, steps: seq<Step>, s': State)
    requires Inv(cfg, s) && s.lock.Fencing? && Reaches(cfg, s, steps, s') && HoldsFence(steps) && Quiescent(s)
    ensures s'.lock == s.lock && s'.log == s.log && Quiescent(s')
    ensures NoTamper(steps) ==> s'.disk == s.disk
    decreases |steps|
  {
    if steps != [] {
      var t := Next(cfg, s, steps[0]);
      StepKeepsInv(cfg, s, steps[0]);
      CurrentRevisionInv(cfg, s);
      assert forall u | u in t.inFlight :: u in s.inFlight;
      assert steps[0].LandPin? ==> !Pending(s, steps[0].w);
      FenceKeepsOut(cfg, t, steps[1..], s');
    }
  }

  /** At most one write lands during a fence: everything in flight starts from the
      content at entry, so the first landing makes the rest stale. */
  lemma {:induction false} FenceAdmitsOne(cfg: Config, s: State, steps: seq<Step>, s': State)
    requires Inv(cfg, s) && s.lock.Fencing? && Reaches(cfg, s, steps, s') && HoldsFence(steps)
    ensures s'.log == s.log || exists w :: Pending(s, w) && s'.log == s.log + [w]
    decreases |steps|
  {
    if steps != [] {
      var t := Next(cfg, s, steps[0]);
      StepKeepsInv(cfg, s, steps[0]);
      CurrentRevisionInv(cfg, s);
      if t.log == s.log {
        FenceAdmitsOne(cfg, t, steps[1..], s');
        assert forall w | Pending(t, w) :: Pending(s, w);
      } else {
        var w := steps[0].w;
        assert Pending(s, w) && t.log == s.log + [w];
        assert Quiescent(t);
        FenceKeepsOut(cfg, t, steps[1..], s');
      }
    }
  }

  /** A run under a held fence in which the revocation enters the store. */
  ghost predicate RevokesInside(cfg: Config, s: State, v: Revocation, steps: seq<Step>, s': State) {
    && HoldsFence(steps) && Reaches(cfg, s, steps, s')
    && v !in Current(s).revocations && v in Current(s').revocations
  }

  ghost predicate RevocationPending(s: State, v: Revocation) {
    exists w :: Pending(s, w) && w.op.RevokeOp? && w.op.revocation == v
  }

  lemma RevokedByPending(cfg: Config, s: State, v: Revocation, steps: seq<Step>, s': State)
    requires Inv(cfg, s) && s.lock.Fencing? && RevokesInside(cfg, s, v, steps, s')
    ensures RevocationPending(s, v)
  {
    FenceAdmitsOne(cfg, s, steps, s');
    var w :| Pending(s, w) && s'.log == s.log + [w];
    PendingStartsHere(cfg, s, w);
    WriteAdds(cfg, w);
    assert Current(s') == w.next;
  }

  /** What is in flight and not stale started from the current content. */
  lemma PendingStartsHere(cfg: Config, s: State, w: Write)
    requires Inv(cfg, s) && Pending(s, w)
    ensures w.base == Current(s) && Accepted(cfg, w) && w.next.revision == |s.log| + 1
  {
    assert Branches(s.log, w);
  }

  /** Claims and revocations add what they are for, and no other write adds a revocation. */
  lemma WriteAdds(cfg: Config, w: Write)
    requires Accepted(cfg, w)
    ensures w.op.ClaimOp? ==> Sha(w.op.grant.body) in w.next.claims
    ensures !w.op.RevokeOp? ==> w.next.revocations == w.base.revocations
    ensures w.op.RevokeOp? ==> w.op.revocation !in w.base.revocations
    ensures w.op.RevokeOp? ==> w.next.revocations == w.base.revocations + {w.op.revocation}
  {
  }

  lemma PendingLandsHere(cfg: Config, s: State, w: Write)
    requires Inv(cfg, s) && Pending(s, w)
    ensures Reaches(cfg, s, [LandPin(w)], Next(cfg, s, LandPin(w)))
    ensures Current(Next(cfg, s, LandPin(w))) == w.next && w.base == Current(s)
  {
    CurrentRevisionInv(cfg, s);
    PendingStartsHere(cfg, s, w);
    ReachesStep(cfg, s, LandPin(w), [], Next(cfg, s, LandPin(w)));
    assert [LandPin(w)] + [] == [LandPin(w)];
  }

  lemma PendingRevokes(cfg: Config, s: State, v: Revocation, w: Write)
    requires Inv(cfg, s) && s.lock.Fencing? && Pending(s, w) && w.op.RevokeOp? && w.op.revocation == v
    ensures RevokesInside(cfg, s, v, [LandPin(w)], Next(cfg, s, LandPin(w)))
  {
    PendingLandsHere(cfg, s, w);
    WriteAdds(cfg, w);
  }

  /** While a fence is held, a revocation can enter the store exactly when it is already
      in flight: its write checked before the fence, its pin request neither answered
      nor overtaken. */
  lemma FenceAdmitsRevocationIff(cfg: Config, s: State, v: Revocation)
    requires Inv(cfg, s) && s.lock.Fencing?
    ensures (exists steps, s' :: RevokesInside(cfg, s, v, steps, s')) <==> RevocationPending(s, v)
  {
    forall steps, s' | RevokesInside(cfg, s, v, steps, s') ensures RevocationPending(s, v) {
      RevokedByPending(cfg, s, v, steps, s');
    }
    if RevocationPending(s, v) {
      var w :| Pending(s, w) && w.op.RevokeOp? && w.op.revocation == v;
      PendingRevokes(cfg, s, v, w);
    }
  }

  /** A run under a held fence after which the grant is revoked before the deadline. */
  ghost predicate BreaksFence(cfg: Config, s: State, steps: seq<Step>, s': State)
    requires s.lock.Fencing?
  {
    HoldsFence(steps) && Reaches(cfg, s, steps, s') && !UnrevokedUntil(Current(s'), s.lock.grant, s.lock.notAfter)
  }

  /** The dispatch the fence protects can meet a revocation effective before its deadline
      exactly when such a revocation of that grant is in flight. */
  lemma FenceBreaksIff(cfg: Config, s: State)
    requires Inv(cfg, s) && s.lock.Fencing? && UnrevokedUntil(Current(s), s.lock.grant, s.lock.notAfter)
    ensures (exists steps, s' :: BreaksFence(cfg, s, steps, s'))
       <==> exists v :: RevocationPending(s, v) && v.body.grant == s.lock.grant && v.body.effectiveAt < s.lock.notAfter
  {
    forall steps, s' | BreaksFence(cfg, s, steps, s')
      ensures exists v :: RevocationPending(s, v) && v.body.grant == s.lock.grant && v.body.effectiveAt < s.lock.notAfter
    {
      var v :| v in Current(s').revocations && v.body.grant == s.lock.grant && v.body.effectiveAt < s.lock.notAfter;
      RevokedByPending(cfg, s, v, steps, s');
    }
    forall v | RevocationPending(s, v) && v.body.grant == s.lock.grant && v.body.effectiveAt < s.lock.notAfter
      ensures exists steps, s' :: BreaksFence(cfg, s, steps, s')
    {
      var w :| Pending(s, w) && w.op.RevokeOp? && w.op.revocation == v;
      PendingRevokes(cfg, s, v, w);
      assert BreaksFence(cfg, s, [LandPin(w)], Next(cfg, s, LandPin(w)));
    }
  }

  /** With files written by the handles alone, no pin is in flight at fence entry, so no
      revocation enters the store and none is effective before the deadline while the
      fence is held. */
  lemma DispatchFence(cfg: Config, clock: Time, before: seq<Step>, s: State, h: Handle, r: Request, a: Approval,
                      g: Grant, claim: Claim, at: Time, notAfter: Time, during: seq<Step>, s': State)
    requires Reaches(cfg, Init(cfg, clock), before, s) && NoTamper(before)
    requires Enabled(cfg, s, FenceEnter(h, r, a, g, claim, at, notAfter))
    requires Reaches(cfg, Next(cfg, s, FenceEnter(h, r, a, g, claim, at, notAfter)), during, s') && HoldsFence(during)
    ensures Current(s') == Current(s) && UnrevokedUntil(Current(s'), Sha(g.body), notAfter)
  {
    var enter := FenceEnter(h, r, a, g, claim, at, notAfter);
    InitInv(cfg, clock);
    RunKeepsInv(cfg, Init(cfg, clock), before, s);
    InterruptionOutcome(cfg, clock, before, s);
    FenceEntry(cfg, s, h, r, a, g, claim, at, notAfter);
    StepKeepsInv(cfg, s, enter);
    FenceKeepsOut(cfg, Next(cfg, s, enter), during, s');
  }

  lemma ReachesStep(cfg: Config, s: State, step: Step, steps: seq<Step>, s': State)
    requires Enabled(cfg, s, step) && Reaches(cfg, Next(cfg, s, step), steps, s')
    ensures Reaches(cfg, s, [step] + steps, s')
  {
    assert ([step] + steps)[1..] == steps;
  }

  /** A write whose pin request outlives its caller, followed by a restored copy of both
      files: the store is usable again and the request is still in flight. */
  function AbandonedWrite(cfg: Config, s: State, h: Handle, op: Op): State
    requires Enabled(cfg, s, Begin(h, op))
  {
    s.(inFlight := s.inFlight + {Next(cfg, s, Begin(h, op)).lock.write})
  }

  lemma AbandonedWriteIsReachable(cfg: Config, s: State, h: Handle, op: Op)
    requires Enabled(cfg, s, Begin(h, op))
    ensures Reaches(cfg, s, [Begin(h, op), Commit, WriteAnchor, RequestPin, GiveUp, Tamper(s.disk)],
                    AbandonedWrite(cfg, s, h, op))
  {
    var s1 := Next(cfg, s, Begin(h, op));
    var s2 := Next(cfg, s1, Commit);
    var s3 := Next(cfg, s2, WriteAnchor);
    var s4 := Next(cfg, s3, RequestPin);
    var s5 := Next(cfg, s4, GiveUp);
    var s6 := Next(cfg, s5, Tamper(s.disk));
    assert s6 == AbandonedWrite(cfg, s, h, op);
    ReachesStep(cfg, s5, Tamper(s.disk), [], s6);
    ReachesStep(cfg, s4, GiveUp, [Tamper(s.disk)], s6);
    ReachesStep(cfg, s3, RequestPin, [GiveUp, Tamper(s.disk)], s6);
    ReachesStep(cfg, s2, WriteAnchor, [RequestPin, GiveUp, Tamper(s.disk)], s6);
    ReachesStep(cfg, s1, Commit, [WriteAnchor, RequestPin, GiveUp, Tamper(s.disk)], s6);
    ReachesStep(cfg, s, Begin(h, op), [Commit, WriteAnchor, RequestPin, GiveUp, Tamper(s.disk)], s6);
  }

  /** The fence does not survive a replaced file: a revocation abandoned before the
      restore lands while the fence is held. */
  lemma LateRevocationInsideFence(cfg: Config, s: State, h: Handle, op: Op, k: Handle, r: Request, a: Approval,
                                  g: Grant, claim: Claim, at: Time, notAfter: Time)
    requires Inv(cfg, s) && op.RevokeOp? && Enabled(cfg, s, Begin(h, op))
    requires Enabled(cfg, s, FenceEnter(k, r, a, g, claim, at, notAfter))
    ensures var t := AbandonedWrite(cfg, s, h, op);
            var enter := FenceEnter(k, r, a, g, claim, at, notAfter);
            Enabled(cfg, t, enter) &&
            var u := Next(cfg, t, enter);
            var w := Next(cfg, s, Begin(h, op)).lock.write;
            Enabled(cfg, u, LandPin(w)) &&
            var v := Next(cfg, u, LandPin(w));
            v.lock.Fencing? && Current(v).revocations == Current(s).revocations + {op.revocation} != Current(s).revocations
  {
    IntegrityMeansCurrent(cfg, s);
    CurrentRevisionInv(cfg, s);
  }
}
