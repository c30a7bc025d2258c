/** Concrete runs, from a fresh store, in which the properties that replaced files or
    early reports break are in fact broken. */
module ExternalActionWitness {
  import opened Common
  import opened ExternalActionArtifacts
  import opened ExternalActionStore
  import opened ExternalActionSafety
  import opened ExternalActionFaults
  import opened ExternalActionLifecycle
  import opened ExternalActionJournal
  import opened ExternalActionFold

  const CONTROLLER := Key(1, 11)
  const HUMAN := Key(2, 12)
  const EXECUTOR := Key(3, 13)

  const TARGET := Target(SendRightsInquiry, VendorContact, 21, Some(22), 23, 24)
  const POLICY := Policy(11, 12, 13, {TARGET}, 1000, 1000, 100, 100)
  const RT := Runtime(POLICY, Trust(CONTROLLER, HUMAN, EXECUTOR))
  const CFG := Config(RT, 31, 32)

  const REQUEST := Request(41, 42, TARGET, Sha(POLICY), 43, 44, 45, 46, None, 0, 0, 1000)
  const DECISION := ApprovalBody(2, 12, 41, Sha(REQUEST), Sha(POLICY), SendRightsInquiry, VendorContact, Go, 51, 0, 1000)
  const APPROVAL := Approval(DECISION, Signature(12, DECISION, 0))
  const TERMS := GrantBody(1, 11, Sha(GrantId(Sha(REQUEST), Sha(DECISION), 0, 13)), 41, Sha(REQUEST), Sha(DECISION),
                           Sha(POLICY), SendRightsInquiry, VendorContact, 44, 13, None, 0, 100)
  const GRANT := Grant(TERMS, Signature(11, TERMS, 0))
  const CLAIM := ClaimOp(REQUEST, APPROVAL, GRANT, 45, None, true)

  const NOTICE := RevocationBody(1, 11, Sha(REQUEST), Sha(TERMS), Sha(POLICY), 61, 10, 50)
  const REVOCATION := Revocation(NOTICE, Signature(11, NOTICE, 0))
  const REVOKE := RevokeOp(REQUEST, GRANT, REVOCATION)

  lemma GrantIsIssued()
    ensures IssueGrant(REQUEST, APPROVAL, RT, None, false, 0, 0) == Ok(GRANT)
  {
  }

  lemma {:induction false} RunsJoin(cfg: Config, s: State, xs: seq<Step>, t: State, ys: seq<Step>, u: State)
    requires Reaches(cfg, s, xs, t) && Reaches(cfg, t, ys, u)
    ensures Reaches(cfg, s, xs + ys, u)
    decreases |xs|
  {
    if xs == [] {
      assert xs + ys == ys;
    } else {
      RunsJoin(cfg, Next(cfg, s, xs[0]), xs[1..], t, ys, u);
      assert (xs + ys)[0] == xs[0] && (xs + ys)[1..] == xs[1..] + ys;
    }
  }

  /** A state of some run from a fresh store at time 10. */
  ghost predicate Reachable(s: State) {
    exists steps :: Reaches(CFG, Init(CFG, 10), steps, s)
  }

  lemma ReachableInv(s: State)
    requires Reachable(s)
    ensures Inv(CFG, s)
  {
    var steps :| Reaches(CFG, Init(CFG, 10), steps, s);
    InitInv(CFG, 10);
    RunKeepsInv(CFG, Init(CFG, 10), steps, s);
  }

  lemma ReachableNext(s: State, step: Step)
    requires Reachable(s) && Enabled(CFG, s, step)
    ensures Reachable(Next(CFG, s, step))
  {
    var steps :| Reaches(CFG, Init(CFG, 10), steps, s);
    ReachesStep(CFG, s, step, [], Next(CFG, s, step));
    RunsJoin(CFG, Init(CFG, 10), steps, s, [step] + [], Next(CFG, s, step));
  }

  lemma ReachableAbandoned(s: State, op: Op)
    requires Reachable(s) && Enabled(CFG, s, Begin(0, op))
    ensures Reachable(AbandonedWrite(CFG, s, 0, op))
  {
    var steps :| Reaches(CFG, Init(CFG, 10), steps, s);
    AbandonedWriteIsReachable(CFG, s, 0, op);
    RunsJoin(CFG, Init(CFG, 10), steps, s,
             [Begin(0, op), Commit, WriteAnchor, RequestPin, GiveUp, Tamper(s.disk)], AbandonedWrite(CFG, s, 0, op));
  }

  /** A mutation from check to acknowledgement. */
  function Applied(s: State, op: Op): State
    requires Enabled(CFG, s, Begin(0, op))
  {
    var w := Next(CFG, s, Begin(0, op)).lock.write;
    s.(disk := Disk(DbFor(CFG, w.next), AnchorFor(CFG, w.next)), pin := PinFor(CFG, w.next), inFlight := s.inFlight - {w},
       log := s.log + [w], acks := s.acks + [w])
  }

  lemma AppliedIsAcknowledged(s: State, op: Op)
    requires s.pin.revision == s.disk.db.content.revision && Enabled(CFG, s, Begin(0, op))
    ensures var t := CompleteWrite(CFG, Next(CFG, s, Begin(0, op)));
            Enabled(CFG, t, Acknowledge) && Next(CFG, t, Acknowledge) == Applied(s, op)
  {
    AttemptAdvances(RT, s.disk.db.content, op, s.clock);
    var w := Next(CFG, s, Begin(0, op)).lock.write;
    assert s.inFlight + {w} - {w} == s.inFlight - {w};
  }

  lemma ReachableComplete(s: State)
    requires Reachable(s) && s.lock.Writing? && s.lock.stage.Checked?
    ensures Reachable(CompleteWrite(CFG, s))
  {
    CompleteWriteRuns(CFG, s);
    var steps :| Reaches(CFG, Init(CFG, 10), steps, s);
    RunsJoin(CFG, Init(CFG, 10), steps, s, [Commit, WriteAnchor, RequestPin, LandPin(s.lock.write)], CompleteWrite(CFG, s));
  }

  lemma ReachableApplied(s: State, op: Op)
    requires Reachable(s) && Enabled(CFG, s, Begin(0, op))
    ensures Reachable(Applied(s, op)) && Integrity(CFG, Applied(s, op).disk, Applied(s, op).pin)
    ensures Current(Applied(s, op)) == NewContent(CFG, s, op).value
  {
    ReachableInv(s);
    CurrentRevisionInv(CFG, s);
    IntegrityMeansCurrent(CFG, s);
    ReachableNext(s, Begin(0, op));
    ReachableComplete(Next(CFG, s, Begin(0, op)));
    AppliedIsAcknowledged(s, op);
    ReachableNext(CompleteWrite(CFG, Next(CFG, s, Begin(0, op))), Acknowledge);
  }

  lemma FreshStore()
    ensures Reachable(Init(CFG, 10)) && Enabled(CFG, Init(CFG, 10), Begin(0, CLAIM)) && Enabled(CFG, Init(CFG, 10), Begin(0, REVOKE))
  {
    assert Reaches(CFG, Init(CFG, 10), [], Init(CFG, 10));
  }

  /** At time 10 a report dated 100 calls the grant expired; it is then claimed, without
      any file replaced. */
  lemma EarlyReportIsContradicted()
    ensures exists steps, s', at' :: NoTamper(steps) && MovesBack(CFG, Init(CFG, 10), GRANT, 100, steps, s', at')
  {
    FreshStore();
    assert Claimable(RT, EMPTY, GRANT, 10);
    HonestForwardIff(CFG, 10, [], Init(CFG, 10), GRANT, 100);
  }

  /** A usable store at time 100 reports the grant expired; a claim abandoned at time 10
      then lands. */
  lemma ExpiredIsContradicted()
    ensures exists s, steps, s', at' ::
              && Reachable(s) && s.lock.Free? && Integrity(CFG, s.disk, s.pin) && s.clock == 100
              && MovesBack(CFG, s, GRANT, 100, steps, s', at')
  {
    FreshStore();
    ReachableAbandoned(Init(CFG, 10), CLAIM);
    var t := AbandonedWrite(CFG, Init(CFG, 10), 0, CLAIM);
    ReachableNext(t, Tick(100));
    var s := Next(CFG, t, Tick(100));
    ReachableInv(s);
    var w := Next(CFG, Init(CFG, 10), Begin(0, CLAIM)).lock.write;
    assert Pending(s, w) && ClaimsGrant(w, GRANT);
    ForwardOnlyIff(CFG, s, GRANT, 100);
  }

  /** A usable store at time 60 reports an unclaimed grant revoked; a claim abandoned
      before the revocation took effect then lands. */
  lemma RevokedIsClaimed()
    ensures exists s, steps, s' ::
              && Reachable(s) && s.lock.Free? && Integrity(CFG, s.disk, s.pin) && s.clock == 60
              && AuthorityOf(Current(s), GRANT, 60) == Revoked && Sha(TERMS) !in Current(s).claims
              && LeadsToClaim(CFG, s, GRANT, steps, s')
  {
    FreshStore();
    ReachableApplied(Init(CFG, 10), REVOKE);
    var r := Applied(Init(CFG, 10), REVOKE);
    ReachableAbandoned(r, CLAIM);
    var t := AbandonedWrite(CFG, r, 0, CLAIM);
    ReachableNext(t, Tick(60));
    var s := Next(CFG, t, Tick(60));
    ReachableInv(s);
    var w := Next(CFG, r, Begin(0, CLAIM)).lock.write;
    assert Pending(s, w) && ClaimsGrant(w, GRANT);
    assert REVOCATION in Current(s).revocations;
    ReportedThenClaimedIff(CFG, s, GRANT, 60);
  }

  /** A fence is entered on a claimed grant without revocations; one abandoned at time 10
      and effective at 50 lands under it, before the deadline 90. */
  lemma FenceIsBroken()
    ensures exists s, steps, s' ::
              && Reachable(s) && s.lock == Fencing(0, Sha(TERMS), 90) && UnrevokedUntil(Current(s), Sha(TERMS), 90)
              && BreaksFence(CFG, s, steps, s')
  {
    FreshStore();
    ReachableApplied(Init(CFG, 10), CLAIM);
    var c := Applied(Init(CFG, 10), CLAIM);
    ReachableAbandoned(c, REVOKE);
    var t := AbandonedWrite(CFG, c, 0, REVOKE);
    var enter := FenceEnter(0, REQUEST, APPROVAL, GRANT, BuildClaim(REQUEST, APPROVAL, GRANT, 45, 10), 20, 90);
    ReachableNext(t, enter);
    var s := Next(CFG, t, enter);
    ReachableInv(s);
    var w := Next(CFG, c, Begin(0, REVOKE)).lock.write;
    assert Pending(s, w) && w.op.RevokeOp? && w.op.revocation == REVOCATION;
    assert RevocationPending(s, REVOCATION);
    FenceBreaksIff(CFG, s);
  }

  const FIRST := EntryBody(1, 11, 71, 1, Zero, GrantEvent, GrantPayload(Sha(TERMS)), Sha(REQUEST), Sha(TERMS), 44, 10)
  const JOURNAL := FoldInput(RT, REQUEST, APPROVAL, GRANT, None, false, None, [Entry(FIRST, Signature(11, FIRST, 0))], [], [], 10)

  /** Two journals of the fresh store's one event, accepted with one head digest and
      different signatures. */
  lemma OneHeadTwoJournals()
    ensures FoldAccepts(JOURNAL, EMPTY, true) && FoldAccepts(Twin(JOURNAL), EMPTY, true)
    ensures ReportOf(CFG, JOURNAL, EMPTY).head == ReportOf(CFG, Twin(JOURNAL), EMPTY).head
    ensures JOURNAL.entries != Twin(JOURNAL).entries
  {
    assert DurableRevocations(EMPTY, GRANT) == {};
    assert JOURNAL.entries[0].body.payload in Payloads(JOURNAL.entries);
    assert Payloads(JOURNAL.entries[..0]) == {};
    assert EntryOk(JOURNAL, 0);
    AcceptedHasTwin(CFG, JOURNAL, EMPTY);
  }
}
