/** Which input raises which reason, and what each reason does to the decision. */
module ControlCycleRules {
  import opened Common
  import opened ControlCycle

  // ---------- The models' own conditions ----------

  ghost predicate ConfigOk(c: Config) {
    && 1 <= c.leaseSeconds <= 3600 && 1 <= c.heartbeatTtl <= 86_400 && 1 <= c.goldTtl <= 86_400
    && 0 <= c.scheduleGrace <= 3600 && 1 <= c.maxInterval <= 86_400
  }

  ghost predicate TrustOk(t: TrustStore) {
    && t.controller.role == Controller && t.gold.role == TcoQa && t.human.role == HumanApprover
    && t.controller.keyId != t.gold.keyId && t.controller.keyId != t.human.keyId && t.gold.keyId != t.human.keyId
  }

  ghost predicate DossierOk(d: Dossier) {
    d.expiries != [] && forall e | e in d.expiries :: d.asOf < e
  }

  ghost predicate GoldOk(g: GoldReport) {
    g.sealed && (g.ready <==> g.coverage && !g.failureStop && g.faults == 0)
  }

  /** The TCO/QA key signs exactly this report, now. */
  ghost predicate GoldAttested(inp: Inputs, at: Time) {
    && inp.goldAttestation.Some? && TrustOk(inp.trust)
    && var b, k := inp.goldAttestation.value.body, inp.trust.gold;
    && b.issuer == k.issuer && b.keyId == k.keyId
    && b.report == inp.gold.sha && b.rights == inp.gold.rights && b.batch == inp.gold.batch
    && b.issuedAt <= at < b.expiresAt
    && inp.goldAttestation.value.signature.key == k.keyId && inp.goldAttestation.value.signature.message == b
  }

  /** The Human's key signs the last event that made the current release current, now. */
  ghost predicate ReleaseAttested(inp: Inputs, m: Manifest, at: Time) {
    && inp.releaseAttestation.Some? && TrustOk(inp.trust)
    && var b, k := inp.releaseAttestation.value.body, inp.trust.human;
    && b.issuer == k.issuer && b.keyId == k.keyId
    && b.release == m.release && b.manifest == m.sha
    && (exists i | 0 <= i < |inp.release.events| :: IsLastMove(inp.release.events, m.release, i, b))
    && b.issuedAt <= at < b.expiresAt
    && inp.releaseAttestation.value.signature.key == k.keyId && inp.releaseAttestation.value.signature.message == b
  }

  ghost predicate IsLastMove(events: seq<Event>, release: Id, i: int, b: ReleaseBody) {
    && 0 <= i < |events| && events[i].release == release && events[i].action in {Promoted, RolledBack}
    && (forall j | i < j < |events| :: events[j].release == release ==> events[j].action == Prepared)
    && b.event == Sha(events[i]) && events[i].record == Some(b.record)
  }

  // ---------- Reasons ----------

  /** The conditions that stop serving. */
  ghost predicate StopsServing(inp: Inputs, month: Time -> Id, at: Time, x: Reason)
    requires ValidRelease(inp.release)
  {
    var c, t, d, g, s := inp.config, inp.trust, inp.dossier, inp.gold, inp.release;
    match x
    case ConfigInvalid => !ConfigOk(c)
    case TrustStoreInvalid => !TrustOk(t)
    case ControllerKeyInvalid => ConfigOk(c) && TrustOk(t) && !(c.issuer == t.controller.issuer && c.keyId == t.controller.keyId)
    case TrustStoreMismatch => ConfigOk(c) && TrustOk(t) && c.trust != Sha(t)
    case DossierInvalid => !DossierOk(d)
    case BusinessStop =>
      DossierOk(d) && (at < d.asOf || (exists e | e in d.expiries :: e <= at) || d.economics == Stop)
    case GoldReportInvalid => !GoldOk(g)
    case ParserFailureStop => GoldOk(g) && g.failureStop
    case GoldAttestationInvalid => inp.goldAttestation.None? || (GoldOk(g) && !GoldAttested(inp, at))
    case RightsBindingMismatch =>
      DossierOk(d) && ((GoldOk(g) && g.rights != d.rights) || (s.current.Some? && CurrentManifest(s).rights != d.rights))
    case OpenSev0 => exists i | i in inp.incidents :: i.severity == Sev0 && !i.resolved
    case BudgetExhausted => inp.budget.Some? && inp.budget.value.month == month(at) && inp.budget.value.exhausted
    case ReleaseFuture =>
      s.current.Some? && (at < CurrentManifest(s).preparedAt || exists e | e in s.events :: at < e.occurredAt)
    case ReleaseHidden =>
      && s.current.Some?
      && var m := CurrentManifest(s); !(at < m.dataExpiresAt && at < m.rightsExpiresAt && at < m.affiliateExpiresAt)
    case AffiliateBindingMismatch => DossierOk(d) && s.current.Some? && CurrentManifest(s).affiliate != d.affiliate
    case CandidateBindingMismatch => GoldOk(g) && s.current.Some? && g.batch !in CurrentManifest(s).snapshots
    case ReleaseAttestationInvalid => s.current.Some? && !ReleaseAttested(inp, CurrentManifest(s), at)
    case _ => false
  }

  /** The conditions that only hold a release. */
  ghost predicate OnlyHolds(inp: Inputs, month: Time -> Id, at: Time, x: Reason) {
    var c, d, g, h := inp.config, inp.dossier, inp.gold, inp.heartbeat;
    match x
    case BusinessContinue =>
      DossierOk(d) && d.asOf <= at && (forall e | e in d.expiries :: at < e) && d.economics == Continue
    case GoldReportFuture => GoldOk(g) && at < g.evaluatedAt
    case GoldReportStale => GoldOk(g) && (g.expiresAt <= at || (ConfigOk(c) && g.evaluatedAt + c.goldTtl <= at))
    case GoldNotReady => GoldOk(g) && !g.failureStop && !g.ready
    case HeartbeatInvalid => h.nextRunAt <= h.observedAt
    case HeartbeatFuture => h.observedAt < h.nextRunAt && ConfigOk(c) && at < h.observedAt
    case HeartbeatStale => h.observedAt < h.nextRunAt && ConfigOk(c) && h.observedAt + c.heartbeatTtl <= at
    case SchedulerIntervalExceeded => h.observedAt < h.nextRunAt && ConfigOk(c) && h.observedAt + c.maxInterval < h.nextRunAt
    case SchedulerLag => h.observedAt < h.nextRunAt && ConfigOk(c) && h.nextRunAt + c.scheduleGrace <= at
    case OpenSev1 => exists i | i in inp.incidents :: i.severity == Sev1 && !i.resolved
    case BudgetMonthMismatch => inp.budget.None? || inp.budget.value.month != month(at)
    case _ => false
  }

  lemma {:induction false} LastMoveIsCurrent(events: seq<Event>, release: Id, b: ReleaseBody)
    ensures (exists i | 0 <= i < |events| :: IsLastMove(events, release, i, b)) <==>
            var e := CurrentEvent(events, release); e.Some? && b.event == Sha(e.value) && e.value.record == Some(b.record)
  {
    if events != [] {
      var n := |events| - 1;
      LastMoveIsCurrent(events[..n], release, b);
      if MakesCurrent(events[n], release) {
        assert forall i | 0 <= i < |events| && IsLastMove(events, release, i, b) :: i == n;
        assert IsLastMove(events, release, n, b) <==> b.event == Sha(events[n]) && events[n].record == Some(b.record);
      } else {
        assert forall i | 0 <= i < n :: IsLastMove(events[..n], release, i, b) <==> IsLastMove(events, release, i, b);
        assert !IsLastMove(events, release, n, b);
      }
    }
  }

  lemma AttestationRules(inp: Inputs, at: Time)
    ensures GoldAttested(inp, at) <==>
            inp.goldAttestation.Some? && ValidTrust(inp.trust) && VerifiesGold(inp.goldAttestation.value, inp.gold, inp.trust.gold, at)
    ensures forall m :: ReleaseAttested(inp, m, at) <==>
            var e := CurrentEvent(inp.release.events, m.release);
            && e.Some? && inp.releaseAttestation.Some? && ValidTrust(inp.trust)
            && VerifiesRelease(inp.releaseAttestation.value, m, e.value, inp.trust.human, at)
  {
    if inp.releaseAttestation.Some? {
      forall m ensures ReleaseAttested(inp, m, at) <==>
              var e := CurrentEvent(inp.release.events, m.release);
              && e.Some? && ValidTrust(inp.trust)
              && VerifiesRelease(inp.releaseAttestation.value, m, e.value, inp.trust.human, at)
      {
        LastMoveIsCurrent(inp.release.events, m.release, inp.releaseAttestation.value.body);
      }
    }
  }

  lemma ExpiredByIndex(expiries: seq<Time>, at: Time)
    ensures (exists k | 0 <= k < |expiries| :: expiries[k] <= at) <==> exists e | e in expiries :: e <= at
  {
    if k :| 0 <= k < |expiries| && expiries[k] <= at {
      assert expiries[k] in expiries;
    }
  }

  lemma AuthorityRules(inp: Inputs, month: Time -> Id, at: Time, x: Reason)
    requires ValidRelease(inp.release)
    ensures x in AuthorityStops(inp) <==>
            x in {ConfigInvalid, TrustStoreInvalid, ControllerKeyInvalid, TrustStoreMismatch} && StopsServing(inp, month, at, x)
  {
  }

  lemma DossierRules(inp: Inputs, month: Time -> Id, at: Time, x: Reason)
    requires ValidRelease(inp.release)
    ensures x in DossierStops(inp, at) <==> x in {DossierInvalid, BusinessStop} && StopsServing(inp, month, at, x)
    ensures x in DossierHolds(inp, at) <==> x == BusinessContinue && OnlyHolds(inp, month, at, x)
  {
    ExpiredByIndex(inp.dossier.expiries, at);
  }

  lemma GoldRules(inp: Inputs, month: Time -> Id, at: Time, x: Reason)
    requires ValidRelease(inp.release)
    ensures x in GoldStops(inp, at) <==>
            || (x in {GoldReportInvalid, ParserFailureStop, GoldAttestationInvalid} && StopsServing(inp, month, at, x))
            || (x == RightsBindingMismatch && DossierOk(inp.dossier) && GoldOk(inp.gold) && inp.gold.rights != inp.dossier.rights)
    ensures x in GoldHolds(inp, at) <==>
            x in {GoldReportFuture, GoldReportStale, GoldNotReady} && OnlyHolds(inp, month, at, x)
  {
    AttestationRules(inp, at);
  }

  lemma HeartbeatRules(inp: Inputs, month: Time -> Id, at: Time, x: Reason)
    ensures x in HeartbeatHolds(inp, at) <==>
            && x in {HeartbeatInvalid, HeartbeatFuture, HeartbeatStale, SchedulerIntervalExceeded, SchedulerLag}
            && OnlyHolds(inp, month, at, x)
  {
  }

  lemma BudgetRules(inp: Inputs, month: Time -> Id, at: Time, x: Reason)
    requires ValidRelease(inp.release)
    ensures x in BudgetStops(inp, month, at) <==> x == BudgetExhausted && StopsServing(inp, month, at, x)
    ensures x in BudgetHolds(inp, month, at) <==> x == BudgetMonthMismatch && OnlyHolds(inp, month, at, x)
    ensures x in When(Open(inp.incidents, Sev0), OpenSev0) <==> x == OpenSev0 && StopsServing(inp, month, at, x)
    ensures x in When(Open(inp.incidents, Sev1), OpenSev1) <==> x == OpenSev1 && OnlyHolds(inp, month, at, x)
  {
  }

  lemma ManifestRules(inp: Inputs, month: Time -> Id, at: Time, x: Reason)
    requires ValidRelease(inp.release) && inp.release.current.Some?
    ensures x in ManifestStops(inp, CurrentManifest(inp.release), at) <==>
            x in {ReleaseFuture, ReleaseHidden} && StopsServing(inp, month, at, x)
  {
  }

  lemma BindingRules(inp: Inputs, month: Time -> Id, at: Time, x: Reason)
    requires ValidRelease(inp.release) && inp.release.current.Some?
    ensures x in BindingStops(inp, CurrentManifest(inp.release)) <==>
            || (x in {AffiliateBindingMismatch, CandidateBindingMismatch} && StopsServing(inp, month, at, x))
            || (x == RightsBindingMismatch && DossierOk(inp.dossier) && CurrentManifest(inp.release).rights != inp.dossier.rights)
  {
  }

  lemma ReleaseRules(inp: Inputs, month: Time -> Id, at: Time, x: Reason)
    requires ValidRelease(inp.release)
    ensures x in ReleaseStops(inp, at) <==>
            && inp.release.current.Some?
            && (|| x in ManifestStops(inp, CurrentManifest(inp.release), at)
                || x in BindingStops(inp, CurrentManifest(inp.release))
                || (x == ReleaseAttestationInvalid && StopsServing(inp, month, at, x)))
  {
    AttestationRules(inp, at);
  }

  lemma HardStopsUnion(inp: Inputs, month: Time -> Id, at: Time, x: Reason)
    requires ValidRelease(inp.release)
    ensures x in HardStops(inp, month, at) <==>
            || x in AuthorityStops(inp) || x in DossierStops(inp, at) || x in GoldStops(inp, at)
            || x in When(Open(inp.incidents, Sev0), OpenSev0) || x in BudgetStops(inp, month, at) || x in ReleaseStops(inp, at)
  {
  }

  lemma InputStops(inp: Inputs, month: Time -> Id, at: Time, x: Reason)
    requires ValidRelease(inp.release) && x != RightsBindingMismatch
    ensures || x in AuthorityStops(inp) || x in DossierStops(inp, at) || x in GoldStops(inp, at)
            || x in When(Open(inp.incidents, Sev0), OpenSev0) || x in BudgetStops(inp, month, at)
       <==> && x in {ConfigInvalid, TrustStoreInvalid, ControllerKeyInvalid, TrustStoreMismatch, DossierInvalid, BusinessStop,
                     GoldReportInvalid, ParserFailureStop, GoldAttestationInvalid, OpenSev0, BudgetExhausted}
            && StopsServing(inp, month, at, x)
  {
    AuthorityRules(inp, month, at, x);
    DossierRules(inp, month, at, x);
    GoldRules(inp, month, at, x);
    BudgetRules(inp, month, at, x);
  }

  lemma CurrentStops(inp: Inputs, month: Time -> Id, at: Time, x: Reason)
    requires ValidRelease(inp.release) && x != RightsBindingMismatch
    ensures x in ReleaseStops(inp, at) <==>
            && x in {ReleaseFuture, ReleaseHidden, AffiliateBindingMismatch, CandidateBindingMismatch, ReleaseAttestationInvalid}
            && StopsServing(inp, month, at, x)
  {
    ReleaseRules(inp, month, at, x);
    if inp.release.current.Some? {
      ManifestRules(inp, month, at, x);
      BindingRules(inp, month, at, x);
    }
  }

  lemma RightsRules(inp: Inputs, month: Time -> Id, at: Time)
    requires ValidRelease(inp.release)
    ensures RightsBindingMismatch in HardStops(inp, month, at) <==> StopsServing(inp, month, at, RightsBindingMismatch)
  {
    var x := RightsBindingMismatch;
    HardStopsUnion(inp, month, at, x);
    AuthorityRules(inp, month, at, x);
    DossierRules(inp, month, at, x);
    GoldRules(inp, month, at, x);
    BudgetRules(inp, month, at, x);
    ReleaseRules(inp, month, at, x);
    if inp.release.current.Some? {
      ManifestRules(inp, month, at, x);
      BindingRules(inp, month, at, x);
    }
  }

  lemma StopsAreHardStops(inp: Inputs, month: Time -> Id, at: Time, x: Reason)
    requires ValidRelease(inp.release)
    ensures x in HardStops(inp, month, at) <==> StopsServing(inp, month, at, x)
  {
    if x == RightsBindingMismatch {
      RightsRules(inp, month, at);
    } else {
      HardStopsUnion(inp, month, at, x);
      InputStops(inp, month, at, x);
      CurrentStops(inp, month, at, x);
    }
  }

  lemma HoldsAreHolds(inp: Inputs, month: Time -> Id, at: Time, x: Reason)
    requires ValidRelease(inp.release)
    ensures x in Holds(inp, month, at) <==> OnlyHolds(inp, month, at, x)
  {
    DossierRules(inp, month, at, x);
    GoldRules(inp, month, at, x);
    HeartbeatRules(inp, month, at, x);
    BudgetRules(inp, month, at, x);
  }

  /** Serving stops exactly when some stop condition holds, and is held exactly when none
      does and some hold condition does; the report names each condition that holds. */
  lemma ReportRules(inp: Inputs, month: Time -> Id, signer: Id, nonce: nat, at: Time, r: Report)
    requires ValidRelease(inp.release) && Reports(inp, month, signer, nonce, at, r)
    ensures var stop := exists x :: StopsServing(inp, month, at, x);
            var hold := exists x :: OnlyHolds(inp, month, at, x);
            var current := inp.release.current.Some?;
            && (r.decision == StopServing <==> stop)
            && (r.decision == Hold <==> !stop && hold)
            && (r.decision == HumanApprovalRequired <==> !stop && !hold && !current)
            && (r.decision == MaintainCurrent <==> !stop && !hold && current)
            && forall x :: x in r.reasons <==>
                 || StopsServing(inp, month, at, x) || OnlyHolds(inp, month, at, x)
                 || (x == NoCurrentRelease && !stop && !hold && !current)
  {
    forall x ensures x in HardStops(inp, month, at) <==> StopsServing(inp, month, at, x) {
      StopsAreHardStops(inp, month, at, x);
    }
    forall x ensures x in Holds(inp, month, at) <==> OnlyHolds(inp, month, at, x) {
      HoldsAreHolds(inp, month, at, x);
    }
  }

  /** The date d bounds a lease made at the instant. */
  predicate BoundsLease(inp: Inputs, m: Manifest, at: Time, d: Time)
    requires inp.goldAttestation.Some? && inp.releaseAttestation.Some?
  {
    || d == at + inp.config.leaseSeconds
    || d == inp.heartbeat.observedAt + inp.config.heartbeatTtl || d == inp.heartbeat.nextRunAt + inp.config.scheduleGrace
    || d == inp.gold.expiresAt || d == inp.gold.evaluatedAt + inp.config.goldTtl
    || d == inp.goldAttestation.value.body.expiresAt || d == inp.releaseAttestation.value.body.expiresAt
    || d == m.dataExpiresAt || d == m.rightsExpiresAt || d == m.affiliateExpiresAt || d in inp.dossier.expiries
  }

  lemma LeaseDates(inp: Inputs, m: Manifest, at: Time, d: Time)
    requires inp.goldAttestation.Some? && inp.releaseAttestation.Some?
    ensures d in FixedDeadlines(inp, m) + {at + inp.config.leaseSeconds} <==> BoundsLease(inp, m, at, d)
  {
  }

  /** A cycle that serves signs a lease of the current release, for its inputs and instant,
      from then until the first date that bounds it. */
  lemma LeaseRules(inp: Inputs, month: Time -> Id, signer: Id, nonce: nat, at: Time, r: Report)
    requires ValidRelease(inp.release) && Reports(inp, month, signer, nonce, at, r)
    ensures r.at == at && (r.lease.Some? <==> r.decision == MaintainCurrent)
    ensures r.lease.Some? ==>
              && inp.release.current.Some? && inp.goldAttestation.Some? && inp.releaseAttestation.Some?
              && var b, m := r.lease.value.body, CurrentManifest(inp.release);
              && b.issuer == inp.config.issuer && b.keyId == inp.config.keyId && b.input == Sha((inp, at))
              && b.release == m.release && b.manifest == m.sha && b.artifact == m.artifact && b.issuedAt == at
              && m.release == inp.release.current.value && m in inp.release.manifests
              && r.lease.value.signature == Signature(signer, b, nonce)
              && BoundsLease(inp, m, at, b.expiresAt) && forall d | BoundsLease(inp, m, at, d) :: b.expiresAt <= d
  {
    if r.lease.Some? {
      forall d ensures d in FixedDeadlines(inp, CurrentManifest(inp.release)) + {at + inp.config.leaseSeconds} <==>
                       BoundsLease(inp, CurrentManifest(inp.release), at, d)
      {
        LeaseDates(inp, CurrentManifest(inp.release), at, d);
      }
    }
  }

  /** A lease verifies exactly under the expected controller's key, for a lifetime within
      the limit, inside its window. */
  lemma LeaseVerifiedIff(l: Lease, k: Key, expectedIssuer: Id, maxTtl: int, at: Time)
    ensures VerifiesLease(l, k, expectedIssuer, maxTtl, at) <==>
            && k.role == Controller && k.issuer == expectedIssuer
            && l.body.issuer == expectedIssuer && l.body.keyId == k.keyId
            && l.signature.key == k.keyId && l.signature.message == l.body
            && l.body.issuedAt <= at < l.body.expiresAt <= l.body.issuedAt + maxTtl
  {
  }
}
