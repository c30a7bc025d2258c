/** The controller's cycle: hard stops and holds from every input, and the dead-man
    serving lease it signs when there are none. */
module ControlCycle {
  import opened Common

  datatype Role = Controller | TcoQa | HumanApprover

  datatype Key = Key(issuer: Id, keyId: Id, role: Role)

  datatype TrustStore = TrustStore(controller: Key, gold: Key, human: Key)

  datatype Config = Config(issuer: Id, keyId: Id, trust: Sha<TrustStore>, leaseSeconds: int, heartbeatTtl: int,
                           goldTtl: int, scheduleGrace: int, maxInterval: int)

  datatype Business = Go | Continue | Stop

  /** "economics" is the decision of the time-independent evaluation. */
  datatype Dossier = Dossier(asOf: Time, expiries: seq<Time>, rights: Id, affiliate: Id, economics: Business)

  datatype GoldReport = GoldReport(sha: Id, sealed: bool, rights: Id, batch: Id, evaluatedAt: Time, expiresAt: Time,
                                   failureStop: bool, coverage: bool, faults: nat, ready: bool)

  datatype Heartbeat = Heartbeat(observedAt: Time, nextRunAt: Time)

  datatype Severity = Sev0 | Sev1 | Lower

  datatype Incident = Incident(severity: Severity, resolved: bool)

  datatype Budget = Budget(month: Id, exhausted: bool)

  datatype GoldBody = GoldBody(issuer: Id, keyId: Id, report: Id, rights: Id, batch: Id, issuedAt: Time, expiresAt: Time)

  datatype GoldAttestation = GoldAttestation(body: GoldBody, signature: Signature<GoldBody>)

  datatype Action = Prepared | Promoted | RolledBack

  datatype Event = Event(action: Action, release: Id, occurredAt: Time, previous: Option<Id>, record: Option<Id>)

  datatype Manifest = Manifest(release: Id, sha: Id, artifact: Id, preparedAt: Time, dataExpiresAt: Time,
                               rightsExpiresAt: Time, affiliateExpiresAt: Time, rights: Id, affiliate: Id, snapshots: set<Id>)

  datatype ReleaseState = ReleaseState(manifests: seq<Manifest>, events: seq<Event>, current: Option<Id>)

  datatype ReleaseBody = ReleaseBody(issuer: Id, keyId: Id, release: Id, manifest: Id, event: Sha<Event>, record: Id,
                                     issuedAt: Time, expiresAt: Time)

  datatype ReleaseAttestation = ReleaseAttestation(body: ReleaseBody, signature: Signature<ReleaseBody>)

  datatype Inputs = Inputs(config: Config, trust: TrustStore, dossier: Dossier, gold: GoldReport, release: ReleaseState,
                           heartbeat: Heartbeat, incidents: seq<Incident>, budget: Option<Budget>,
                           goldAttestation: Option<GoldAttestation>, releaseAttestation: Option<ReleaseAttestation>)

  datatype LeaseBody = LeaseBody(issuer: Id, keyId: Id, input: Sha<(Inputs, Time)>, release: Id, manifest: Id,
                                 artifact: Id, issuedAt: Time, expiresAt: Time)

  datatype Lease = Lease(body: LeaseBody, signature: Signature<LeaseBody>)

  datatype Reason =
    | ConfigInvalid | TrustStoreInvalid | TrustStoreMismatch | ControllerKeyInvalid | BusinessStop | BusinessContinue
    | DossierInvalid | GoldReportInvalid | GoldReportFuture | GoldReportStale | GoldNotReady | GoldAttestationInvalid
    | ParserFailureStop | RightsBindingMismatch | AffiliateBindingMismatch | CandidateBindingMismatch | HeartbeatInvalid
    | HeartbeatFuture | HeartbeatStale | SchedulerIntervalExceeded | SchedulerLag | OpenSev0 | OpenSev1
    | BudgetMonthMismatch | BudgetExhausted | NoCurrentRelease | ReleaseFuture | ReleaseHidden
    | ReleaseAttestationInvalid | LeaseDeadlineReached

  datatype Decision = StopServing | Hold | HumanApprovalRequired | MaintainCurrent

  datatype Report = Report(decision: Decision, at: Time, reasons: set<Reason>, lease: Option<Lease>)

  // ---------- What the models check ----------

  predicate ValidConfig(c: Config) {
    1 <= c.leaseSeconds <= 3600 && 1 <= c.heartbeatTtl <= 86_400 && 1 <= c.goldTtl <= 86_400
    && 0 <= c.scheduleGrace <= 3600 && 1 <= c.maxInterval <= 86_400
  }

  predicate ValidTrust(t: TrustStore) {
    && t.controller.role == Controller && t.gold.role == TcoQa && t.human.role == HumanApprover
    && t.controller.keyId != t.gold.keyId && t.controller.keyId != t.human.keyId && t.gold.keyId != t.human.keyId
  }

  predicate ValidDossier(d: Dossier) {
    d.expiries != [] && forall e | e in d.expiries :: d.asOf < e
  }

  predicate ValidGold(g: GoldReport) {
    g.sealed && (g.ready <==> g.coverage && !g.failureStop && g.faults == 0)
  }

  predicate ValidHeartbeat(h: Heartbeat) {
    h.observedAt < h.nextRunAt
  }

  /** The current release, when there is one, is among the manifests. */
  predicate ValidRelease(s: ReleaseState) {
    s.current.Some? ==> exists m | m in s.manifests :: m.release == s.current.value
  }

  function Get(manifests: seq<Manifest>, id: Id): (m: Manifest)
    requires exists m | m in manifests :: m.release == id
    ensures m in manifests && m.release == id
  {
    if manifests[0].release == id then manifests[0] else Get(manifests[1..], id)
  }

  /** The last promotion of, or rollback to, the release. */
  function CurrentEvent(events: seq<Event>, id: Id): Option<Event> {
    if events == [] then None
    else
      var last := events[|events| - 1];
      if MakesCurrent(last, id) then Some(last) else CurrentEvent(events[..|events| - 1], id)
  }

  // ---------- Verification ----------

  predicate VerifiesGold(a: GoldAttestation, g: GoldReport, k: Key, at: Time) {
    && a.body.issuedAt < a.body.expiresAt
    && k.role == TcoQa && a.body.issuer == k.issuer && a.body.keyId == k.keyId
    && a.body.report == g.sha && a.body.rights == g.rights && a.body.batch == g.batch
    && a.body.issuedAt <= at < a.body.expiresAt
    && a.signature.key == k.keyId && a.signature.message == a.body
  }

  predicate VerifiesRelease(a: ReleaseAttestation, m: Manifest, e: Event, k: Key, at: Time) {
    && a.body.issuedAt < a.body.expiresAt
    && k.role == HumanApprover && a.body.issuer == k.issuer && a.body.keyId == k.keyId
    && a.body.release == m.release && a.body.manifest == m.sha && a.body.event == Sha(e) && e.record == Some(a.body.record)
    && a.body.issuedAt <= at < a.body.expiresAt
    && a.signature.key == k.keyId && a.signature.message == a.body
  }

  predicate VerifiesLease(l: Lease, k: Key, expectedIssuer: Id, maxTtl: int, at: Time) {
    && l.body.issuedAt < l.body.expiresAt
    && k.role == Controller && l.body.issuer == expectedIssuer == k.issuer && l.body.keyId == k.keyId
    && l.body.issuedAt <= at < l.body.expiresAt && l.body.expiresAt - l.body.issuedAt <= maxTtl
    && l.signature.key == k.keyId && l.signature.message == l.body
  }

  // ---------- Reasons ----------

  function When(holds: bool, r: Reason): set<Reason> {
    if holds then {r} else {}
  }

  function AuthorityStops(inp: Inputs): set<Reason> {
    var c, t := inp.config, inp.trust;
    When(!ValidConfig(c), ConfigInvalid) + When(!ValidTrust(t), TrustStoreInvalid)
    + When(ValidConfig(c) && ValidTrust(t) && (c.issuer != t.controller.issuer || c.keyId != t.controller.keyId),
           ControllerKeyInvalid)
    + When(ValidConfig(c) && ValidTrust(t) && c.trust != Sha(t), TrustStoreMismatch)
  }

  function BusinessDecision(d: Dossier, at: Time): Business {
    if d.asOf > at || exists k | 0 <= k < |d.expiries| :: d.expiries[k] <= at then Stop else d.economics
  }

  function DossierStops(inp: Inputs, at: Time): set<Reason> {
    if !ValidDossier(inp.dossier) then {DossierInvalid}
    else When(BusinessDecision(inp.dossier, at) == Stop, BusinessStop)
  }

  function DossierHolds(inp: Inputs, at: Time): set<Reason> {
    When(ValidDossier(inp.dossier) && BusinessDecision(inp.dossier, at) == Continue, BusinessContinue)
  }

  function GoldStops(inp: Inputs, at: Time): set<Reason> {
    var g := inp.gold;
    if !ValidGold(g) then {GoldReportInvalid} + When(inp.goldAttestation.None?, GoldAttestationInvalid)
    else
      When(g.failureStop, ParserFailureStop)
      + When(ValidDossier(inp.dossier) && g.rights != inp.dossier.rights, RightsBindingMismatch)
      + When(inp.goldAttestation.None? || !ValidTrust(inp.trust)
             || !VerifiesGold(inp.goldAttestation.value, g, inp.trust.gold, at), GoldAttestationInvalid)
  }

  function GoldHolds(inp: Inputs, at: Time): set<Reason> {
    var g := inp.gold;
    if !ValidGold(g) then {}
    else
      When(g.evaluatedAt > at, GoldReportFuture)
      + When(at >= g.expiresAt || (ValidConfig(inp.config) && at >= g.evaluatedAt + inp.config.goldTtl), GoldReportStale)
      + When(!g.failureStop && !g.ready, GoldNotReady)
  }

  function HeartbeatHolds(inp: Inputs, at: Time): set<Reason> {
    var h, c := inp.heartbeat, inp.config;
    if !ValidHeartbeat(h) then {HeartbeatInvalid}
    else if !ValidConfig(c) then {}
    else
      When(h.observedAt > at, HeartbeatFuture) + When(at >= h.observedAt + c.heartbeatTtl, HeartbeatStale)
      + When(h.nextRunAt - h.observedAt > c.maxInterval, SchedulerIntervalExceeded)
      + When(at >= h.nextRunAt + c.scheduleGrace, SchedulerLag)
  }

  predicate Open(incidents: seq<Incident>, s: Severity) {
    exists i | i in incidents :: i.severity == s && !i.resolved
  }

  function BudgetStops(inp: Inputs, month: Time -> Id, at: Time): set<Reason> {
    When(inp.budget.Some? && inp.budget.value.month == month(at) && inp.budget.value.exhausted, BudgetExhausted)
  }

  function BudgetHolds(inp: Inputs, month: Time -> Id, at: Time): set<Reason> {
    When(inp.budget.None? || inp.budget.value.month != month(at), BudgetMonthMismatch)
  }

  function ManifestStops(inp: Inputs, m: Manifest, at: Time): set<Reason> {
    When(m.preparedAt > at || exists x | x in inp.release.events :: x.occurredAt > at, ReleaseFuture)
    + When(at >= m.dataExpiresAt || at >= m.rightsExpiresAt || at >= m.affiliateExpiresAt, ReleaseHidden)
  }

  function BindingStops(inp: Inputs, m: Manifest): set<Reason> {
    When(ValidDossier(inp.dossier) && m.rights != inp.dossier.rights, RightsBindingMismatch)
    + When(ValidDossier(inp.dossier) && m.affiliate != inp.dossier.affiliate, AffiliateBindingMismatch)
    + When(ValidGold(inp.gold) && inp.gold.batch !in m.snapshots, CandidateBindingMismatch)
  }

  function ReleaseStops(inp: Inputs, at: Time): set<Reason>
    requires ValidRelease(inp.release)
  {
    if inp.release.current.None? then {}
    else
      var m := Get(inp.release.manifests, inp.release.current.value);
      var e := CurrentEvent(inp.release.events, m.release);
      ManifestStops(inp, m, at) + BindingStops(inp, m)
      + When(e.None? || inp.releaseAttestation.None? || !ValidTrust(inp.trust)
             || !VerifiesRelease(inp.releaseAttestation.value, m, e.value, inp.trust.human, at), ReleaseAttestationInvalid)
  }

  function HardStops(inp: Inputs, month: Time -> Id, at: Time): set<Reason>
    requires ValidRelease(inp.release)
  {
    AuthorityStops(inp) + DossierStops(inp, at) + GoldStops(inp, at) + When(Open(inp.incidents, Sev0), OpenSev0)
    + BudgetStops(inp, month, at) + ReleaseStops(inp, at)
  }

  function Holds(inp: Inputs, month: Time -> Id, at: Time): set<Reason> {
    DossierHolds(inp, at) + GoldHolds(inp, at) + HeartbeatHolds(inp, at) + When(Open(inp.incidents, Sev1), OpenSev1)
    + BudgetHolds(inp, month, at)
  }

  // ---------- The cycle ----------

  method CheckAuthority(inp: Inputs) returns (stops: set<Reason>)
    ensures stops == AuthorityStops(inp)
  {
    var c, t := inp.config, inp.trust;
    stops := {};
    if !ValidConfig(c) {
      stops := stops + {ConfigInvalid};
    }
    if !ValidTrust(t) {
      stops := stops + {TrustStoreInvalid};
    }
    if ValidConfig(c) && ValidTrust(t) {
      if c.issuer != t.controller.issuer || c.keyId != t.controller.keyId {
        stops := stops + {ControllerKeyInvalid};
      }
      if c.trust != Sha(t) {
        stops := stops + {TrustStoreMismatch};
      }
    }
  }

  method CheckDossier(inp: Inputs, at: Time) returns (stops: set<Reason>, holds: set<Reason>)
    ensures stops == DossierStops(inp, at) && holds == DossierHolds(inp, at)
  {
    stops, holds := {}, {};
    var d := inp.dossier;
    if !ValidDossier(d) {
      return {DossierInvalid}, {};
    }
    var stale := d.asOf > at;
    for i := 0 to |d.expiries|
      invariant stale <==> d.asOf > at || exists k | 0 <= k < i :: d.expiries[k] <= at
    {
      if d.expiries[i] <= at {
        stale := true;
      }
    }
    var decision := if stale then Stop else d.economics;
    if decision == Stop {
      stops := {BusinessStop};
    } else if decision == Continue {
      holds := {BusinessContinue};
    }
  }

  method CheckGold(inp: Inputs, at: Time) returns (stops: set<Reason>, holds: set<Reason>)
    ensures stops == GoldStops(inp, at) && holds == GoldHolds(inp, at)
  {
    var g := inp.gold;
    if !ValidGold(g) {
      return if inp.goldAttestation.None? then {GoldReportInvalid, GoldAttestationInvalid} else {GoldReportInvalid}, {};
    }
    stops, holds := {}, {};
    if g.evaluatedAt > at {
      holds := holds + {GoldReportFuture};
    }
    if at >= g.expiresAt {
      holds := holds + {GoldReportStale};
    }
    if ValidConfig(inp.config) && at >= g.evaluatedAt + inp.config.goldTtl {
      holds := holds + {GoldReportStale};
    }
    if g.failureStop {
      stops := stops + {ParserFailureStop};
    } else if !g.ready {
      holds := holds + {GoldNotReady};
    }
    if ValidDossier(inp.dossier) && g.rights != inp.dossier.rights {
      stops := stops + {RightsBindingMismatch};
    }
    if inp.goldAttestation.None? || !ValidTrust(inp.trust)
       || !VerifiesGold(inp.goldAttestation.value, g, inp.trust.gold, at) {
      stops := stops + {GoldAttestationInvalid};
    }
  }

  method CheckHeartbeat(inp: Inputs, at: Time) returns (holds: set<Reason>)
    ensures holds == HeartbeatHolds(inp, at)
  {
    var h, c := inp.heartbeat, inp.config;
    holds := {};
    if !ValidHeartbeat(h) {
      holds := holds + {HeartbeatInvalid};
    } else if ValidConfig(c) {
      if h.observedAt > at {
        holds := holds + {HeartbeatFuture};
      }
      if at >= h.observedAt + c.heartbeatTtl {
        holds := holds + {HeartbeatStale};
      }
      if h.nextRunAt - h.observedAt > c.maxInterval {
        holds := holds + {SchedulerIntervalExceeded};
      }
      if at >= h.nextRunAt + c.scheduleGrace {
        holds := holds + {SchedulerLag};
      }
    }
  }

  method CountOpen(incidents: seq<Incident>, s: Severity) returns (count: nat)
    ensures count > 0 <==> Open(incidents, s)
  {
    count := 0;
    for i := 0 to |incidents|
      invariant count > 0 <==> exists k | 0 <= k < i :: incidents[k].severity == s && !incidents[k].resolved
    {
      if incidents[i].severity == s && !incidents[i].resolved {
        count := count + 1;
      }
    }
    assert count > 0 <==> Open(incidents, s);
  }

  predicate MakesCurrent(e: Event, id: Id) {
    e.release == id && !e.action.Prepared?
  }

  /** The event at position k is the last that made the release current. */
  ghost predicate IsLastEvent(events: seq<Event>, id: Id, k: nat) {
    k < |events| && MakesCurrent(events[k], id) && forall j | k < j < |events| :: !MakesCurrent(events[j], id)
  }

  /** The events from the last one back: the one found is the last promotion of, or
      rollback to, the release, and none is found only when there is none. */
  method FindCurrentEvent(events: seq<Event>, id: Id) returns (e: Option<Event>)
    ensures e.Some? ==> exists k: nat :: IsLastEvent(events, id, k) && events[k] == e.value
    ensures e.None? ==> forall k | 0 <= k < |events| :: !MakesCurrent(events[k], id)
  {
    var i := |events|;
    while i > 0
      invariant 0 <= i <= |events| && forall j | i <= j < |events| :: !MakesCurrent(events[j], id)
    {
      i := i - 1;
      if MakesCurrent(events[i], id) {
        assert IsLastEvent(events, id, i);
        return Some(events[i]);
      }
    }
    return None;
  }

  lemma {:induction false} CurrentEventIsLast(events: seq<Event>, id: Id, k: nat)
    requires IsLastEvent(events, id, k)
    ensures CurrentEvent(events, id) == Some(events[k])
  {
    if k < |events| - 1 {
      CurrentEventIsLast(events[..|events| - 1], id, k);
    }
  }

  lemma {:induction false} NoCurrentEvent(events: seq<Event>, id: Id)
    requires forall k | 0 <= k < |events| :: !MakesCurrent(events[k], id)
    ensures CurrentEvent(events, id) == None
  {
    if events != [] {
      NoCurrentEvent(events[..|events| - 1], id);
    }
  }

  lemma FoundIsCurrent(events: seq<Event>, id: Id, e: Option<Event>)
    requires e.Some? ==> exists k: nat :: IsLastEvent(events, id, k) && events[k] == e.value
    requires e.None? ==> forall k | 0 <= k < |events| :: !MakesCurrent(events[k], id)
    ensures e == CurrentEvent(events, id)
  {
    if e.Some? {
      var k: nat :| IsLastEvent(events, id, k) && events[k] == e.value;
      CurrentEventIsLast(events, id, k);
    } else {
      NoCurrentEvent(events, id);
    }
  }

  method CheckRelease(inp: Inputs, at: Time) returns (stops: set<Reason>)
    requires ValidRelease(inp.release)
    ensures stops == ReleaseStops(inp, at)
  {
    if inp.release.current.None? {
      return {};
    }
    var m := Get(inp.release.manifests, inp.release.current.value);
    var e := FindCurrentEvent(inp.release.events, m.release);
    FoundIsCurrent(inp.release.events, m.release, e);
    var state := CheckManifest(inp, m, at);
    var bindings := CheckBindings(inp, m);
    stops := state + bindings;
    if e.None? || inp.releaseAttestation.None? || !ValidTrust(inp.trust)
       || !VerifiesRelease(inp.releaseAttestation.value, m, e.value, inp.trust.human, at) {
      stops := stops + {ReleaseAttestationInvalid};
    }
  }

  method CheckManifest(inp: Inputs, m: Manifest, at: Time) returns (stops: set<Reason>)
    ensures stops == ManifestStops(inp, m, at)
  {
    stops := {};
    if m.preparedAt > at || exists x | x in inp.release.events :: x.occurredAt > at {
      stops := stops + {ReleaseFuture};
    }
    if at >= m.dataExpiresAt || at >= m.rightsExpiresAt || at >= m.affiliateExpiresAt {
      stops := stops + {ReleaseHidden};
    }
  }

  method CheckBindings(inp: Inputs, m: Manifest) returns (stops: set<Reason>)
    ensures stops == BindingStops(inp, m)
  {
    stops := {};
    if ValidDossier(inp.dossier) {
      if m.rights != inp.dossier.rights {
        stops := stops + {RightsBindingMismatch};
      }
      if m.affiliate != inp.dossier.affiliate {
        stops := stops + {AffiliateBindingMismatch};
      }
    }
    if ValidGold(inp.gold) && inp.gold.batch !in m.snapshots {
      stops := stops + {CandidateBindingMismatch};
    }
  }

  method CollectReasons(inp: Inputs, month: Time -> Id, at: Time) returns (stops: set<Reason>, holds: set<Reason>)
    requires ValidRelease(inp.release)
    ensures stops == HardStops(inp, month, at) && holds == Holds(inp, month, at)
  {
    var authority := CheckAuthority(inp);
    var dossierStops, dossierHolds := CheckDossier(inp, at);
    var goldStops, goldHolds := CheckGold(inp, at);
    var heartbeat := CheckHeartbeat(inp, at);
    var sev0 := CountOpen(inp.incidents, Sev0);
    var sev1 := CountOpen(inp.incidents, Sev1);
    var budgetStops, budgetHolds := BudgetStops(inp, month, at), BudgetHolds(inp, month, at);
    var release := CheckRelease(inp, at);
    stops := authority + dossierStops + goldStops + (if sev0 > 0 then {OpenSev0} else {}) + budgetStops + release;
    holds := dossierHolds + goldHolds + heartbeat + (if sev1 > 0 then {OpenSev1} else {}) + budgetHolds;
  }

  /** Every deadline a lease is derived from, its own length aside. */
  ghost function FixedDeadlines(inp: Inputs, m: Manifest): set<Time>
    requires inp.goldAttestation.Some? && inp.releaseAttestation.Some?
  {
    {inp.heartbeat.observedAt + inp.config.heartbeatTtl, inp.heartbeat.nextRunAt + inp.config.scheduleGrace,
     inp.gold.expiresAt, inp.gold.evaluatedAt + inp.config.goldTtl, inp.goldAttestation.value.body.expiresAt,
     inp.releaseAttestation.value.body.expiresAt, m.dataExpiresAt, m.rightsExpiresAt, m.affiliateExpiresAt}
    + Elements(inp.dossier.expiries)
  }

  method LeaseExpiry(inp: Inputs, m: Manifest, at: Time) returns (expiry: Time)
    requires inp.goldAttestation.Some? && inp.releaseAttestation.Some? && inp.dossier.expiries != []
    ensures IsLeast(expiry, FixedDeadlines(inp, m) + {at + inp.config.leaseSeconds})
  {
    var deadlines := [at + inp.config.leaseSeconds, inp.heartbeat.observedAt + inp.config.heartbeatTtl,
                      inp.heartbeat.nextRunAt + inp.config.scheduleGrace, inp.gold.expiresAt,
                      inp.gold.evaluatedAt + inp.config.goldTtl, inp.goldAttestation.value.body.expiresAt,
                      inp.releaseAttestation.value.body.expiresAt, m.dataExpiresAt, m.rightsExpiresAt, m.affiliateExpiresAt]
                     + inp.dossier.expiries;
    assert Elements(deadlines) == FixedDeadlines(inp, m) + {at + inp.config.leaseSeconds};
    expiry := Minimum(deadlines);
  }

  function CurrentManifest(s: ReleaseState): Manifest
    requires s.current.Some? && ValidRelease(s)
  {
    Get(s.manifests, s.current.value)
  }

  ghost predicate IsLeaseOf(inp: Inputs, at: Time, signer: Id, nonce: nat, lease: Lease)
    requires ValidRelease(inp.release) && inp.release.current.Some?
    requires inp.goldAttestation.Some? && inp.releaseAttestation.Some?
  {
    var m := CurrentManifest(inp.release);
    && lease.body == LeaseBody(inp.config.issuer, inp.config.keyId, Sha((inp, at)), m.release, m.sha, m.artifact, at,
                               lease.body.expiresAt)
    && IsLeast(lease.body.expiresAt, FixedDeadlines(inp, m) + {at + inp.config.leaseSeconds})
    && lease.signature == Signature(signer, lease.body, nonce)
  }

  /** One cycle.  The authority's signer holds the controller's key. */
  method EvaluateCycle(inp: Inputs, month: Time -> Id, signer: Id, nonce: nat, at: Time) returns (r: Report)
    requires ValidRelease(inp.release)
    ensures Reports(inp, month, signer, nonce, at, r)
  {
    var stops, holds := CollectReasons(inp, month, at);
    if stops != {} {
      return Report(StopServing, at, stops + holds, None);
    }
    if holds != {} {
      return Report(Hold, at, holds, None);
    }
    if inp.release.current.None? {
      return Report(HumanApprovalRequired, at, {NoCurrentRelease}, None);
    }
    CleanIff(inp, month, at);
    var m := CurrentManifest(inp.release);
    var expiry := LeaseExpiry(inp, m, at);
    // The fallback for a lease that would already have ended is never needed.
    assert at < expiry;
    var body := LeaseBody(inp.config.issuer, inp.config.keyId, Sha((inp, at)), m.release, m.sha, m.artifact, at, expiry);
    return Report(MaintainCurrent, at, {}, Some(Lease(body, Signature(signer, body, nonce))));
  }

  // ---------- When there is no reason ----------

  /** What does not depend on the time. */
  ghost predicate Static(inp: Inputs)
    requires ValidRelease(inp.release)
  {
    var c, t, g, s := inp.config, inp.trust, inp.gold, inp.release;
    && ValidConfig(c) && ValidTrust(t) && c.issuer == t.controller.issuer && c.keyId == t.controller.keyId && c.trust == Sha(t)
    && ValidDossier(inp.dossier) && inp.dossier.economics == Go
    && ValidGold(g) && g.ready && g.rights == inp.dossier.rights && inp.goldAttestation.Some?
    && ValidHeartbeat(inp.heartbeat) && inp.heartbeat.nextRunAt - inp.heartbeat.observedAt <= c.maxInterval
    && !Open(inp.incidents, Sev0) && !Open(inp.incidents, Sev1)
    && inp.budget.Some? && !inp.budget.value.exhausted
    && s.current.Some? && inp.releaseAttestation.Some? && StaticRelease(inp, CurrentManifest(s))
    && SignedGold(inp.goldAttestation.value, g, t.gold)
  }

  predicate SignedGold(a: GoldAttestation, g: GoldReport, k: Key) {
    && a.body.issuer == k.issuer && a.body.keyId == k.keyId && k.role == TcoQa
    && a.body.report == g.sha && a.body.rights == g.rights && a.body.batch == g.batch
    && a.signature.key == k.keyId && a.signature.message == a.body
  }

  predicate SignedRelease(a: ReleaseAttestation, m: Manifest, e: Event, k: Key) {
    && a.body.issuer == k.issuer && a.body.keyId == k.keyId && k.role == HumanApprover
    && a.body.release == m.release && a.body.manifest == m.sha && a.body.event == Sha(e) && e.record == Some(a.body.record)
    && a.signature.key == k.keyId && a.signature.message == a.body
  }

  ghost predicate StaticRelease(inp: Inputs, m: Manifest)
    requires inp.releaseAttestation.Some?
  {
    var e := CurrentEvent(inp.release.events, m.release);
    && m.rights == inp.dossier.rights && m.affiliate == inp.dossier.affiliate && inp.gold.batch in m.snapshots
    && e.Some? && SignedRelease(inp.releaseAttestation.value, m, e.value, inp.trust.human)
  }

  /** Nothing it rests on lies in the future. */
  ghost predicate Started(inp: Inputs, at: Time)
    requires ValidRelease(inp.release) && inp.release.current.Some?
    requires inp.goldAttestation.Some? && inp.releaseAttestation.Some?
  {
    && inp.dossier.asOf <= at && inp.gold.evaluatedAt <= at && inp.heartbeat.observedAt <= at
    && inp.goldAttestation.value.body.issuedAt <= at && inp.releaseAttestation.value.body.issuedAt <= at
    && CurrentManifest(inp.release).preparedAt <= at && forall x | x in inp.release.events :: x.occurredAt <= at
  }

  ghost predicate Clean(inp: Inputs, month: Time -> Id, at: Time)
    requires ValidRelease(inp.release)
  {
    HardStops(inp, month, at) == {} && Holds(inp, month, at) == {} && inp.release.current.Some?
  }

  /** The static part, the started part, and no deadline reached. */
  ghost predicate Serves(inp: Inputs, at: Time)
    requires ValidRelease(inp.release)
  {
    Static(inp) && Started(inp, at) && forall d | d in FixedDeadlines(inp, CurrentManifest(inp.release)) :: at < d
  }

  lemma EmptyUnion6<T>(a: set<T>, b: set<T>, c: set<T>, d: set<T>, e: set<T>, f: set<T>)
    ensures a + b + c + d + e + f == {} <==> a == {} && b == {} && c == {} && d == {} && e == {} && f == {}
  {
    var all := a + b + c + d + e + f;
    assert a <= all && b <= all && c <= all && d <= all && e <= all && f <= all;
  }

  lemma AuthorityIsEmpty(inp: Inputs)
    ensures AuthorityStops(inp) == {} <==>
            && ValidConfig(inp.config) && ValidTrust(inp.trust) && inp.config.issuer == inp.trust.controller.issuer
            && inp.config.keyId == inp.trust.controller.keyId && inp.config.trust == Sha(inp.trust)
  {
  }

  lemma DossierIsEmpty(inp: Inputs, at: Time)
    ensures DossierStops(inp, at) == {} && DossierHolds(inp, at) == {} <==>
            && ValidDossier(inp.dossier) && inp.dossier.economics == Go && inp.dossier.asOf <= at
            && forall e | e in inp.dossier.expiries :: at < e
  {
    assert forall k | 0 <= k < |inp.dossier.expiries| :: inp.dossier.expiries[k] in inp.dossier.expiries;
  }

  lemma GoldIsEmpty(inp: Inputs, at: Time)
    requires ValidConfig(inp.config) && ValidTrust(inp.trust) && ValidDossier(inp.dossier)
    ensures GoldStops(inp, at) == {} && GoldHolds(inp, at) == {} <==>
            var g := inp.gold;
            && ValidGold(g) && g.ready && g.rights == inp.dossier.rights && inp.goldAttestation.Some?
            && SignedGold(inp.goldAttestation.value, g, inp.trust.gold)
            && g.evaluatedAt <= at < g.expiresAt && at < g.evaluatedAt + inp.config.goldTtl
            && inp.goldAttestation.value.body.issuedAt <= at < inp.goldAttestation.value.body.expiresAt
  {
  }

  lemma HeartbeatIsEmpty(inp: Inputs, at: Time)
    requires ValidConfig(inp.config)
    ensures HeartbeatHolds(inp, at) == {} <==>
            var h, c := inp.heartbeat, inp.config;
            && ValidHeartbeat(h) && h.nextRunAt - h.observedAt <= c.maxInterval && h.observedAt <= at
            && at < h.observedAt + c.heartbeatTtl && at < h.nextRunAt + c.scheduleGrace
  {
  }

  lemma ReleaseIsEmpty(inp: Inputs, at: Time)
    requires ValidRelease(inp.release) && inp.release.current.Some?
    requires ValidTrust(inp.trust) && ValidDossier(inp.dossier) && ValidGold(inp.gold)
    ensures ReleaseStops(inp, at) == {} <==>
            var m := CurrentManifest(inp.release);
            && inp.releaseAttestation.Some? && StaticRelease(inp, m)
            && m.preparedAt <= at && (forall x | x in inp.release.events :: x.occurredAt <= at)
            && at < m.dataExpiresAt && at < m.rightsExpiresAt && at < m.affiliateExpiresAt
            && inp.releaseAttestation.value.body.issuedAt <= at < inp.releaseAttestation.value.body.expiresAt
  {
    var m := CurrentManifest(inp.release);
    var x := CurrentEvent(inp.release.events, m.release);
    var f := When(x.None? || inp.releaseAttestation.None?
                  || !VerifiesRelease(inp.releaseAttestation.value, m, x.value, inp.trust.human, at), ReleaseAttestationInvalid);
    assert ReleaseStops(inp, at) == ManifestStops(inp, m, at) + BindingStops(inp, m) + f;
    ManifestIsEmpty(inp, m, at);
    BindingsAreEmpty(inp, m);
  }

  lemma ManifestIsEmpty(inp: Inputs, m: Manifest, at: Time)
    ensures ManifestStops(inp, m, at) == {} <==>
            && m.preparedAt <= at && (forall x | x in inp.release.events :: x.occurredAt <= at)
            && at < m.dataExpiresAt && at < m.rightsExpiresAt && at < m.affiliateExpiresAt
  {
  }

  lemma BindingsAreEmpty(inp: Inputs, m: Manifest)
    requires ValidDossier(inp.dossier) && ValidGold(inp.gold)
    ensures BindingStops(inp, m) == {} <==>
            m.rights == inp.dossier.rights && m.affiliate == inp.dossier.affiliate && inp.gold.batch in m.snapshots
  {
  }

  lemma DeadlinesPassed(inp: Inputs, m: Manifest, at: Time)
    requires inp.goldAttestation.Some? && inp.releaseAttestation.Some?
    ensures (forall d | d in FixedDeadlines(inp, m) :: at < d) <==>
            && at < inp.heartbeat.observedAt + inp.config.heartbeatTtl && at < inp.heartbeat.nextRunAt + inp.config.scheduleGrace
            && at < inp.gold.expiresAt && at < inp.gold.evaluatedAt + inp.config.goldTtl
            && at < inp.goldAttestation.value.body.expiresAt && at < inp.releaseAttestation.value.body.expiresAt
            && at < m.dataExpiresAt && at < m.rightsExpiresAt && at < m.affiliateExpiresAt
            && forall e | e in inp.dossier.expiries :: at < e
  {
    var ds := FixedDeadlines(inp, m);
    assert inp.heartbeat.observedAt + inp.config.heartbeatTtl in ds && inp.heartbeat.nextRunAt + inp.config.scheduleGrace in ds;
    assert inp.gold.expiresAt in ds && inp.gold.evaluatedAt + inp.config.goldTtl in ds;
    assert inp.goldAttestation.value.body.expiresAt in ds && inp.releaseAttestation.value.body.expiresAt in ds;
    assert m.dataExpiresAt in ds && m.rightsExpiresAt in ds && m.affiliateExpiresAt in ds;
    assert forall e | e in inp.dossier.expiries :: e in Elements(inp.dossier.expiries) && e in ds;
  }

  lemma CleanParts(inp: Inputs, month: Time -> Id, at: Time)
    requires ValidRelease(inp.release)
    ensures Clean(inp, month, at) <==>
            && AuthorityStops(inp) == {} && DossierStops(inp, at) == {} && DossierHolds(inp, at) == {}
            && GoldStops(inp, at) == {} && GoldHolds(inp, at) == {} && HeartbeatHolds(inp, at) == {}
            && !Open(inp.incidents, Sev0) && !Open(inp.incidents, Sev1)
            && BudgetStops(inp, month, at) == {} && BudgetHolds(inp, month, at) == {} && ReleaseStops(inp, at) == {}
            && inp.release.current.Some?
  {
    EmptyUnion6(AuthorityStops(inp), DossierStops(inp, at), GoldStops(inp, at), When(Open(inp.incidents, Sev0), OpenSev0),
                BudgetStops(inp, month, at), ReleaseStops(inp, at));
    EmptyUnion6(DossierHolds(inp, at), GoldHolds(inp, at), HeartbeatHolds(inp, at), When(Open(inp.incidents, Sev1), OpenSev1),
                BudgetHolds(inp, month, at), {});
  }

  lemma BudgetIsEmpty(inp: Inputs, month: Time -> Id, at: Time)
    ensures BudgetStops(inp, month, at) == {} && BudgetHolds(inp, month, at) == {} <==>
            inp.budget.Some? && !inp.budget.value.exhausted && inp.budget.value.month == month(at)
  {
  }

  lemma CleanMeansServes(inp: Inputs, month: Time -> Id, at: Time)
    requires ValidRelease(inp.release) && Clean(inp, month, at)
    ensures Serves(inp, at) && inp.budget.value.month == month(at)
  {
    CleanParts(inp, month, at);
    AuthorityIsEmpty(inp);
    DossierIsEmpty(inp, at);
    GoldIsEmpty(inp, at);
    HeartbeatIsEmpty(inp, at);
    BudgetIsEmpty(inp, month, at);
    ReleaseIsEmpty(inp, at);
    DeadlinesPassed(inp, CurrentManifest(inp.release), at);
  }

  lemma ServesMeansClean(inp: Inputs, month: Time -> Id, at: Time)
    requires ValidRelease(inp.release) && Serves(inp, at) && inp.budget.value.month == month(at)
    ensures Clean(inp, month, at)
  {
    DeadlinesPassed(inp, CurrentManifest(inp.release), at);
    AuthorityIsEmpty(inp);
    DossierIsEmpty(inp, at);
    GoldIsEmpty(inp, at);
    HeartbeatIsEmpty(inp, at);
    BudgetIsEmpty(inp, month, at);
    ReleaseIsEmpty(inp, at);
    CleanParts(inp, month, at);
  }

  /** No reason is raised exactly when everything is in order, started and unexpired, and
      the budget is this month's. */
  lemma CleanIff(inp: Inputs, month: Time -> Id, at: Time)
    requires ValidRelease(inp.release)
    ensures Clean(inp, month, at) <==> Serves(inp, at) && inp.budget.value.month == month(at)
  {
    if Clean(inp, month, at) {
      CleanMeansServes(inp, month, at);
    }
    if Serves(inp, at) && inp.budget.value.month == month(at) {
      ServesMeansClean(inp, month, at);
    }
  }

  // ---------- The dead-man lease ----------

  /** What a cycle reports, as the method's contract states it. */
  ghost predicate Reports(inp: Inputs, month: Time -> Id, signer: Id, nonce: nat, at: Time, r: Report)
    requires ValidRelease(inp.release)
  {
    && r.at == at
    && (var stops, holds := HardStops(inp, month, at), Holds(inp, month, at);
        if stops != {} then r.decision == StopServing && r.reasons == stops + holds
        else if holds != {} then r.decision == Hold && r.reasons == holds
        else if inp.release.current.None? then r.decision == HumanApprovalRequired && r.reasons == {NoCurrentRelease}
        else r.decision == MaintainCurrent && r.reasons == {})
    && (r.decision == MaintainCurrent <==> r.lease.Some?)
    && (r.lease.Some? ==>
          && inp.release.current.Some? && inp.goldAttestation.Some? && inp.releaseAttestation.Some?
          && IsLeaseOf(inp, at, signer, nonce, r.lease.value))
  }

  /** From a serving instant on, the same inputs serve exactly until the first fixed
      deadline, in the budget's month: the lease never outlives a deadline and every
      instant before them all raises no reason but the month's. */
  lemma ServesUntilFirstDeadline(inp: Inputs, month: Time -> Id, at: Time, later: Time)
    requires ValidRelease(inp.release) && Clean(inp, month, at) && at <= later
    ensures Clean(inp, month, later) <==>
            && (forall d | d in FixedDeadlines(inp, CurrentManifest(inp.release)) :: later < d)
            && month(later) == inp.budget.value.month
  {
    CleanIff(inp, month, at);
    CleanIff(inp, month, later);
  }

  lemma OnlyTheMonth(inp: Inputs, month: Time -> Id, at: Time)
    requires ValidRelease(inp.release) && Serves(inp, at)
    ensures HardStops(inp, month, at) == {}
    ensures Holds(inp, month, at) == When(inp.budget.value.month != month(at), BudgetMonthMismatch)
  {
    var same := (t: Time) => inp.budget.value.month;
    ServesMeansClean(inp, same, at);
    CleanParts(inp, same, at);
    EmptyUnion6(AuthorityStops(inp), DossierStops(inp, at), GoldStops(inp, at), When(Open(inp.incidents, Sev0), OpenSev0),
                BudgetStops(inp, month, at), ReleaseStops(inp, at));
  }

  /** Inside the lease's window the same inputs raise nothing but, across a month's end,
      the budget's month. */
  lemma LeaseWindowIsClean(inp: Inputs, month: Time -> Id, signer: Id, nonce: nat, at: Time, r: Report, later: Time)
    requires ValidRelease(inp.release) && Reports(inp, month, signer, nonce, at, r) && r.lease.Some?
    requires at <= later < r.lease.value.body.expiresAt
    ensures HardStops(inp, month, later) == {}
    ensures Holds(inp, month, later) == When(inp.budget.value.month != month(later), BudgetMonthMismatch)
  {
    CleanIff(inp, month, at);
    OnlyTheMonth(inp, month, later);
  }

  /** A lease never outlives a deadline, nor its length; a lease of a later cycle on the
      same inputs is bounded by the same deadlines. */
  lemma LeaseIsBounded(inp: Inputs, month: Time -> Id, signer: Id, nonce: nat, at: Time, r: Report)
    requires ValidRelease(inp.release) && Reports(inp, month, signer, nonce, at, r) && r.lease.Some?
    ensures var b := r.lease.value.body;
            && at == b.issuedAt < b.expiresAt <= at + inp.config.leaseSeconds
            && (forall d | d in FixedDeadlines(inp, CurrentManifest(inp.release)) :: b.expiresAt <= d)
            && (b.expiresAt == at + inp.config.leaseSeconds
                || b.expiresAt in FixedDeadlines(inp, CurrentManifest(inp.release)))
  {
    CleanIff(inp, month, at);
  }

  /** The controller's lease verifies, under any maximum lifetime that is at least the
      configured one, exactly at the instants of its window. */
  lemma LeaseVerifiesInWindow(inp: Inputs, month: Time -> Id, nonce: nat, at: Time, r: Report, maxTtl: int, later: Time)
    requires ValidRelease(inp.release) && r.lease.Some?
    requires Reports(inp, month, inp.trust.controller.keyId, nonce, at, r)
    requires inp.config.leaseSeconds <= maxTtl <= 3600
    ensures VerifiesLease(r.lease.value, inp.trust.controller, inp.config.issuer, maxTtl, later) <==>
            at <= later < r.lease.value.body.expiresAt
  {
    CleanIff(inp, month, at);
    LeaseIsBounded(inp, month, inp.trust.controller.keyId, nonce, at, r);
  }

  lemma StopsLackLeaseDeadline(inp: Inputs, month: Time -> Id, at: Time)
    requires ValidRelease(inp.release)
    ensures LeaseDeadlineReached !in HardStops(inp, month, at)
  {
    assert LeaseDeadlineReached !in AuthorityStops(inp) && LeaseDeadlineReached !in DossierStops(inp, at);
    assert LeaseDeadlineReached !in GoldStops(inp, at);
    assert LeaseDeadlineReached !in BudgetStops(inp, month, at);
    ReleaseLacksLeaseDeadline(inp, at);
  }

  lemma ReleaseLacksLeaseDeadline(inp: Inputs, at: Time)
    requires ValidRelease(inp.release)
    ensures LeaseDeadlineReached !in ReleaseStops(inp, at)
  {
  }

  lemma HoldsLackLeaseDeadline(inp: Inputs, month: Time -> Id, at: Time)
    ensures LeaseDeadlineReached !in Holds(inp, month, at)
  {
    assert LeaseDeadlineReached !in DossierHolds(inp, at) && LeaseDeadlineReached !in GoldHolds(inp, at);
    assert LeaseDeadlineReached !in HeartbeatHolds(inp, at) && LeaseDeadlineReached !in BudgetHolds(inp, month, at);
  }

  /** The reason for a lease that would already have ended is never given. */
  lemma LeaseDeadlineIsNeverReached(inp: Inputs, month: Time -> Id, signer: Id, nonce: nat, at: Time, r: Report)
    requires ValidRelease(inp.release) && Reports(inp, month, signer, nonce, at, r)
    ensures LeaseDeadlineReached !in r.reasons
  {
    StopsLackLeaseDeadline(inp, month, at);
    HoldsLackLeaseDeadline(inp, month, at);
  }

  /** A serving cycle's lease has not ended when it is signed. */
  lemma LeaseStartsOpen(inp: Inputs, month: Time -> Id, at: Time)
    requires ValidRelease(inp.release) && Clean(inp, month, at)
    ensures inp.config.leaseSeconds > 0 && forall d | d in FixedDeadlines(inp, CurrentManifest(inp.release)) :: at < d
  {
    CleanIff(inp, month, at);
  }
}
