/** When a comparison is ready for release, and how the computed expiry bounds it. */
module GoldSetExpiry {
  import opened Common
  import opened Collections
  import opened Sorting
  import opened GoldSetTypes
  import opened GoldSetFaults

  ghost predicate Ready(sha: Hash, tco: Tco, g: GoldSet, c: Batch, at: Time)
    requires |c.plans| + |c.failures| > 0
  {
    FullCoverage(g.plans) && !FailureStop(c) && Faults(sha, tco, g, c, at) == {}
  }

  // ---------- Readiness without the fault sets ----------

  ghost predicate PointerApproved(p: Pointer) {
    p.policy.derive && p.policy.publish && p.policy.retainHistory && p.policy.retentionDays.Some?
  }

  ghost predicate PointerCurrent(p: Pointer, capturedAt: Time, at: Time) {
    && p.retrievedAt <= at
    && p.policy.reviewedAt <= at < p.policy.reviewDueAt
    && p.policy.retentionDays.Some? && at < capturedAt + p.policy.retentionDays.value * DAY
  }

  ghost predicate HasPointer(plan: VendorPlan, p: Pointer) {
    exists e :: e in plan.evidence && p in e.pointers
  }

  /** Values, sources, rights and costs of one plan are the labelled ones. */
  ghost predicate PlanMatches(tco: Tco, gold: GoldPlan, plan: VendorPlan) {
    && (forall f | f in plan.material :: IsLabelled(gold, f))
    && (forall l | l in gold.labels ::
          l.field in plan.material && l.value == plan.material[l.field] && l.sources == SourcesOf(plan, l.field))
    && (forall e | e in gold.expectations :: tco(plan, e) == Ok(Cost(e.tco, e.total, e.currency)))
    && (forall p | HasPointer(plan, p) :: PointerApproved(p))
  }

  /** Nothing about the plan is in the future or run out. */
  ghost predicate PlanCurrent(gold: GoldPlan, plan: VendorPlan, at: Time) {
    && plan.capturedAt <= at && plan.effectiveAt <= at
    && (forall l | l in gold.labels :: Current(l.labeledAt, l.expiresAt, at))
    && (forall e | e in gold.expectations :: Current(e.labeledAt, e.expiresAt, at))
    && (forall p | HasPointer(plan, p) :: PointerCurrent(p, plan.capturedAt, at))
  }

  lemma NoFuture(plan: VendorPlan, at: Time)
    ensures AllFuture(plan, at) == multiset{} <==> forall p | HasPointer(plan, p) :: p.retrievedAt <= at
  {
    SumIsEmpty(plan.evidence, (e: Evidence) => FutureAt(e, at));
    forall e: Evidence ensures FutureAt(e, at) == multiset{} <==> forall p | p in e.pointers :: p.retrievedAt <= at {
      SumIsEmpty(e.pointers, (p: Pointer) => if p.retrievedAt > at then multiset{(e.field, p.sha)} else multiset{});
    }
  }

  /** A pointer's policy approves all three uses, is under review, and is retained. */
  ghost predicate PointerLicensed(p: Pointer, capturedAt: Time, at: Time) {
    PointerApproved(p) && p.policy.reviewedAt <= at < p.policy.reviewDueAt
    && at < capturedAt + p.policy.retentionDays.value * DAY
  }

  lemma NoDenial(plan: VendorPlan, at: Time)
    ensures AllDenials(plan, at) == multiset{} <==>
            forall p | HasPointer(plan, p) :: PointerLicensed(p, plan.capturedAt, at)
  {
    SumIsEmpty(plan.evidence, (e: Evidence) => DenialsAt(e, plan.capturedAt, at));
    forall e: Evidence
      ensures DenialsAt(e, plan.capturedAt, at) == multiset{} <==>
              forall p | p in e.pointers :: PointerLicensed(p, plan.capturedAt, at)
    {
      SumIsEmpty(e.pointers, (p: Pointer) => PointerDenials(p, e.field, plan.capturedAt, at));
      forall p: Pointer
        ensures PointerDenials(p, e.field, plan.capturedAt, at) == multiset{} <==> PointerLicensed(p, plan.capturedAt, at)
      {
      }
    }
  }

  lemma NoPlanFaults(sha: Hash, tco: Tco, gold: GoldPlan, plan: VendorPlan, at: Time)
    ensures PlanFaults(sha, tco, gold, plan, at) == {} && plan.capturedAt <= at && plan.effectiveAt <= at
            <==> PlanMatches(tco, gold, plan) && PlanCurrent(gold, plan, at)
  {
    NoFuture(plan, at);
    NoDenial(plan, at);
    UnionIsEmpty(gold.labels, (l: Label) => LabelFaults(sha, plan, at, l));
    UnionIsEmpty(gold.expectations, (e: Expectation) => ExpectationFaults(sha, tco, plan, at, e));
    NoMissingFields(sha, gold, plan);
    assert EvidenceFaults(sha, plan, at) == {} <==>
           forall p | HasPointer(plan, p) :: PointerApproved(p) && PointerCurrent(p, plan.capturedAt, at);
  }

  lemma NoMissingFields(sha: Hash, gold: GoldPlan, plan: VendorPlan)
    ensures MissingFields(sha, gold, plan) == {} <==> forall f | f in plan.material :: IsLabelled(gold, f)
  {
    forall f | f in plan.material && !IsLabelled(gold, f) ensures MissingFields(sha, gold, plan) != {} {
      assert UnlabelledField(sha, plan, f) in MissingFields(sha, gold, plan);
    }
  }

  // ---------- The whole comparison ----------

  /** What does not depend on the evaluation time. */
  ghost predicate Matches(sha: Hash, tco: Tco, g: GoldSet, c: Batch)
    requires |c.plans| + |c.failures| > 0
  {
    && FullCoverage(g.plans) && c.failures == [] && RightsManifest(sha, CandidatePlans(c)) == Some(g.rights)
    && PlansMatch(tco, g, c) && NoExtraPlan(g, c)
  }

  /** What does: nothing is in the future or run out. */
  ghost predicate Fresh(g: GoldSet, c: Batch, at: Time) {
    && Current(g.createdAt, g.expiresAt, at) && Current(c.capturedAt, c.expiresAt, at)
    && PlansCurrent(g, c, at)
  }

  ghost predicate PlansMatch(tco: Tco, g: GoldSet, c: Batch) {
    forall p | p in g.plans ::
      var q := Find(c.plans, Key(p)); q.Some? && PlanMatches(tco, p, q.value.plan)
  }

  ghost predicate PlansCurrent(g: GoldSet, c: Batch, at: Time) {
    forall p | p in g.plans && Find(c.plans, Key(p)).Some? :: PlanCurrent(p, Find(c.plans, Key(p)).value.plan, at)
  }

  lemma NoGoldPlanFaults(sha: Hash, tco: Tco, g: GoldSet, c: Batch, at: Time)
    ensures UnionOf(g.plans, (p: GoldPlan) => GoldPlanFaults(sha, tco, c, at, p)) == {} <==>
            PlansReady(tco, g, c, at)
  {
    UnionIsEmpty(g.plans, (p: GoldPlan) => GoldPlanFaults(sha, tco, c, at, p));
    forall p | p in g.plans
      ensures GoldPlanFaults(sha, tco, c, at, p) == {} <==>
              var q := Find(c.plans, Key(p));
              q.Some? && PlanMatches(tco, p, q.value.plan) && PlanCurrent(p, q.value.plan, at)
    {
      var q := Find(c.plans, Key(p));
      if q.Some? {
        NoPlanFaults(sha, tco, p, q.value.plan, at);
      }
    }
  }

  lemma NoHeaderFaults(sha: Hash, g: GoldSet, c: Batch, at: Time)
    requires |c.plans| + |c.failures| > 0
    ensures HeaderFaults(sha, g, c, at) == {} <==>
            && FullCoverage(g.plans) && !FailureStop(c) && RightsManifest(sha, CandidatePlans(c)) == Some(g.rights)
            && Current(g.createdAt, g.expiresAt, at) && Current(c.capturedAt, c.expiresAt, at)
  {
  }

  lemma NoBatchFaults(sha: Hash, g: GoldSet, c: Batch)
    ensures UnionOf(c.failures, (f: Failure) => {ParseFault(sha, f)}) == {} <==> c.failures == []
    ensures UnionOf(c.plans, (q: CandidatePlan) => CandidateFaults(sha, g, q)) == {} <==>
            forall q | q in c.plans :: Expected(g.plans, CandidateKey(q))
  {
    UnionIsEmpty(c.failures, (f: Failure) => {ParseFault(sha, f)});
    UnionIsEmpty(c.plans, (q: CandidatePlan) => CandidateFaults(sha, g, q));
    assert c.failures != [] ==> c.failures[0] in c.failures;
  }

  lemma NoFaults(sha: Hash, tco: Tco, g: GoldSet, c: Batch, at: Time)
    requires |c.plans| + |c.failures| > 0
    ensures Faults(sha, tco, g, c, at) == {} <==>
            && HeaderFaults(sha, g, c, at) == {}
            && UnionOf(c.failures, (f: Failure) => {ParseFault(sha, f)}) == {}
            && UnionOf(g.plans, (p: GoldPlan) => GoldPlanFaults(sha, tco, c, at, p)) == {}
            && UnionOf(c.plans, (q: CandidatePlan) => CandidateFaults(sha, g, q)) == {}
  {
    EmptyUnion(HeaderFaults(sha, g, c, at), UnionOf(c.failures, (f: Failure) => {ParseFault(sha, f)}),
               UnionOf(g.plans, (p: GoldPlan) => GoldPlanFaults(sha, tco, c, at, p)),
               UnionOf(c.plans, (q: CandidatePlan) => CandidateFaults(sha, g, q)));
  }

  lemma EmptyUnion<T>(a: set<T>, b: set<T>, c: set<T>, d: set<T>)
    ensures a + b + c + d == {} <==> a == {} && b == {} && c == {} && d == {}
  {
    if a + b + c + d == {} {
      assert a <= a + b + c + d && b <= a + b + c + d && c <= a + b + c + d && d <= a + b + c + d;
    }
  }

  /** Every plan both sides know matches and is current. */
  ghost predicate PlansReady(tco: Tco, g: GoldSet, c: Batch, at: Time) {
    forall p | p in g.plans ::
      var q := Find(c.plans, Key(p));
      q.Some? && PlanMatches(tco, p, q.value.plan) && PlanCurrent(p, q.value.plan, at)
  }

  ghost predicate NoExtraPlan(g: GoldSet, c: Batch) {
    forall q | q in c.plans :: Expected(g.plans, CandidateKey(q))
  }

  lemma ReadyParts(sha: Hash, tco: Tco, g: GoldSet, c: Batch, at: Time)
    requires |c.plans| + |c.failures| > 0
    ensures Ready(sha, tco, g, c, at) <==>
            HeaderFaults(sha, g, c, at) == {} && PlansReady(tco, g, c, at) && c.failures == [] && NoExtraPlan(g, c)
  {
    NoHeaderFaults(sha, g, c, at);
    NoFaults(sha, tco, g, c, at);
    NoBatchFaults(sha, g, c);
    NoGoldPlanFaults(sha, tco, g, c, at);
  }

  lemma PlansReadyParts(tco: Tco, g: GoldSet, c: Batch, at: Time)
    ensures PlansReady(tco, g, c, at) <==> PlansMatch(tco, g, c) && PlansCurrent(g, c, at)
  {
  }

  /** Ready exactly when everything matches and everything is current. */
  lemma ReadyIff(sha: Hash, tco: Tco, g: GoldSet, c: Batch, at: Time)
    requires |c.plans| + |c.failures| > 0
    ensures Ready(sha, tco, g, c, at) <==> Matches(sha, tco, g, c) && Fresh(g, c, at)
  {
    ReadyParts(sha, tco, g, c, at);
    NoHeaderFaults(sha, g, c, at);
    PlansReadyParts(tco, g, c, at);
    assert c.failures == [] ==> FailureRate(c) == 0.0;
  }

  // ---------- The computed expiry ----------

  ghost function PointerDeadlines(p: Pointer, capturedAt: Time): set<Time> {
    {p.policy.reviewDueAt}
    + (if p.policy.retentionDays.Some? then {capturedAt + p.policy.retentionDays.value * DAY} else {})
    + (if p.deleteAfter.Some? then {p.deleteAfter.value} else {})
  }

  ghost function EvidenceDeadlines(e: Evidence, capturedAt: Time): set<Time> {
    UnionOf(e.pointers, (p: Pointer) => PointerDeadlines(p, capturedAt))
  }

  ghost function CandidateDeadlines(q: CandidatePlan): set<Time> {
    UnionOf(q.plan.evidence, (e: Evidence) => EvidenceDeadlines(e, q.plan.capturedAt))
  }

  ghost function GoldDeadlines(p: GoldPlan): set<Time> {
    (set l | l in p.labels :: l.expiresAt) + (set e | e in p.expectations :: e.expiresAt)
  }

  ghost function Deadlines(g: GoldSet, c: Batch): set<Time> {
    {g.expiresAt, c.expiresAt} + UnionOf(g.plans, GoldDeadlines) + UnionOf(c.plans, CandidateDeadlines)
  }

  lemma PointerDeadline(q: CandidatePlan, p: Pointer, d: Time)
    requires HasPointer(q.plan, p) && d in PointerDeadlines(p, q.plan.capturedAt)
    ensures d in CandidateDeadlines(q)
  {
    var e :| e in q.plan.evidence && p in e.pointers;
    UnionMembers(e.pointers, (p: Pointer) => PointerDeadlines(p, q.plan.capturedAt), d);
    UnionMembers(q.plan.evidence, (e: Evidence) => EvidenceDeadlines(e, q.plan.capturedAt), d);
  }

  lemma CandidateDeadline(q: CandidatePlan, d: Time) returns (p: Pointer)
    requires d in CandidateDeadlines(q)
    ensures HasPointer(q.plan, p) && d in PointerDeadlines(p, q.plan.capturedAt)
  {
    UnionMembers(q.plan.evidence, (e: Evidence) => EvidenceDeadlines(e, q.plan.capturedAt), d);
    var e :| e in q.plan.evidence && d in EvidenceDeadlines(e, q.plan.capturedAt);
    UnionMembers(e.pointers, (p: Pointer) => PointerDeadlines(p, q.plan.capturedAt), d);
    p :| p in e.pointers && d in PointerDeadlines(p, q.plan.capturedAt);
  }

  lemma GoldDeadline(g: GoldSet, c: Batch, p: GoldPlan, d: Time)
    requires p in g.plans && d in GoldDeadlines(p)
    ensures d in Deadlines(g, c)
  {
    UnionMembers(g.plans, GoldDeadlines, d);
  }

  lemma BatchDeadline(g: GoldSet, c: Batch, q: CandidatePlan, d: Time)
    requires q in c.plans && d in CandidateDeadlines(q)
    ensures d in Deadlines(g, c)
  {
    UnionMembers(c.plans, CandidateDeadlines, d);
  }

  lemma {:induction false} FoundIsListed(plans: seq<CandidatePlan>, key: (Id, Id))
    ensures var q := Find(plans, key);
            if q.Some? then q.value in plans && CandidateKey(q.value) == key
            else forall p | p in plans :: CandidateKey(p) != key
  {
    if plans != [] {
      FoundIsListed(plans[1..], key);
    }
  }

  lemma PlanStaysCurrent(g: GoldSet, c: Batch, gold: GoldPlan, q: CandidatePlan, at: Time, later: Time)
    requires gold in g.plans && q in c.plans && PlanCurrent(gold, q.plan, at)
    requires at <= later && forall d | d in Deadlines(g, c) :: later < d
    ensures PlanCurrent(gold, q.plan, later)
  {
    forall l | l in gold.labels ensures Current(l.labeledAt, l.expiresAt, later) {
      GoldDeadline(g, c, gold, l.expiresAt);
    }
    forall e | e in gold.expectations ensures Current(e.labeledAt, e.expiresAt, later) {
      assert Current(e.labeledAt, e.expiresAt, at);
      GoldDeadline(g, c, gold, e.expiresAt);
    }
    forall p | HasPointer(q.plan, p) ensures PointerCurrent(p, q.plan.capturedAt, later) {
      assert PointerCurrent(p, q.plan.capturedAt, at);
      forall d | d in PointerDeadlines(p, q.plan.capturedAt) ensures later < d {
        PointerDeadline(q, p, d);
        BatchDeadline(g, c, q, d);
      }
      assert p.policy.reviewDueAt in PointerDeadlines(p, q.plan.capturedAt);
    }
  }

  lemma PlansStayCurrent(g: GoldSet, c: Batch, at: Time, later: Time)
    requires PlansCurrent(g, c, at) && at <= later && forall d | d in Deadlines(g, c) :: later < d
    ensures PlansCurrent(g, c, later)
  {
    forall p | p in g.plans && Find(c.plans, Key(p)).Some?
      ensures PlanCurrent(p, Find(c.plans, Key(p)).value.plan, later)
    {
      FoundIsListed(c.plans, Key(p));
      PlanStaysCurrent(g, c, p, Find(c.plans, Key(p)).value, at, later);
    }
  }

  /** A comparison that is ready stays ready, for the same inputs, up to its computed
      expiry: the minimum over all nested dates covers every time-dependent fault. */
  lemma ReadyUntilExpiry(sha: Hash, tco: Tco, g: GoldSet, c: Batch, at: Time, later: Time, expiry: Time)
    requires |c.plans| + |c.failures| > 0 && Ready(sha, tco, g, c, at)
    requires IsLeast(expiry, Deadlines(g, c)) && at <= later < expiry
    ensures Ready(sha, tco, g, c, later)
  {
    ReadyIff(sha, tco, g, c, at);
    ReadyIff(sha, tco, g, c, later);
    PlansStayCurrent(g, c, at, later);
  }

  // ---------- A ready report that has already expired ----------

  /** Every raw archive is still to be deleted. */
  ghost predicate ArchivesKept(c: Batch, at: Time) {
    forall q, p | q in c.plans && HasPointer(q.plan, p) && p.deleteAfter.Some? :: at < p.deleteAfter.value
  }

  lemma UniqueTail<T, K>(s: seq<T>, key: T -> K)
    requires Unique(s, key) && s != []
    ensures Unique(s[1..], key)
  {
  }

  lemma {:induction false} FindsOwnKey(plans: seq<CandidatePlan>, q: CandidatePlan)
    requires q in plans && Unique(plans, CandidateKey)
    ensures Find(plans, CandidateKey(q)) == Some(q)
  {
    if plans[0] != q {
      var k :| 0 <= k < |plans| && plans[k] == q;
      assert CandidateKey(plans[0]) != CandidateKey(plans[k]);
      UniqueTail(plans, CandidateKey);
      FindsOwnKey(plans[1..], q);
    }
  }

  lemma ReadyCandidateIsCurrent(sha: Hash, tco: Tco, g: GoldSet, c: Batch, at: Time, q: CandidatePlan)
    requires ValidBatch(c) && Ready(sha, tco, g, c, at) && q in c.plans
    ensures exists gold :: gold in g.plans && PlanCurrent(gold, q.plan, at)
  {
    ReadyIff(sha, tco, g, c, at);
    var gold :| gold in g.plans && Key(gold) == CandidateKey(q);
    FindsOwnKey(c.plans, q);
  }

  lemma ReadyGoldDeadline(g: GoldSet, c: Batch, at: Time, gold: GoldPlan, d: Time)
    requires gold in g.plans && d in GoldDeadlines(gold) && Find(c.plans, Key(gold)).Some? && PlansCurrent(g, c, at)
    ensures at < d
  {
    assert PlanCurrent(gold, Find(c.plans, Key(gold)).value.plan, at);
  }

  lemma ReadyBatchDeadline(sha: Hash, tco: Tco, g: GoldSet, c: Batch, at: Time, q: CandidatePlan, d: Time)
    requires ValidBatch(c) && Ready(sha, tco, g, c, at) && ArchivesKept(c, at) && q in c.plans && d in CandidateDeadlines(q)
    ensures at < d
  {
    ReadyCandidateIsCurrent(sha, tco, g, c, at, q);
    var p := CandidateDeadline(q, d);
    assert PointerCurrent(p, q.plan.capturedAt, at);
  }

  lemma DeadlineKinds(g: GoldSet, c: Batch, d: Time)
    requires d in Deadlines(g, c)
    ensures d == g.expiresAt || d == c.expiresAt || (exists p | p in g.plans :: d in GoldDeadlines(p))
            || exists q | q in c.plans :: d in CandidateDeadlines(q)
  {
    UnionMembers(g.plans, GoldDeadlines, d);
    UnionMembers(c.plans, CandidateDeadlines, d);
  }

  lemma ReadyDeadlines(sha: Hash, tco: Tco, g: GoldSet, c: Batch, at: Time, d: Time)
    requires ValidBatch(c) && Ready(sha, tco, g, c, at) && ArchivesKept(c, at) && d in Deadlines(g, c)
    ensures at < d
  {
    ReadyIff(sha, tco, g, c, at);
    DeadlineKinds(g, c, d);
    if gold :| gold in g.plans && d in GoldDeadlines(gold) {
      assert Find(c.plans, Key(gold)).Some?;
      ReadyGoldDeadline(g, c, at, gold, d);
    } else if q :| q in c.plans && d in CandidateDeadlines(q) {
      ReadyBatchDeadline(sha, tco, g, c, at, q, d);
    }
  }

  /** No fault reads the archives' deletion dates but the expiry does: a ready report
      is unexpired at its own evaluation exactly while every archive is kept. */
  lemma ReadyIsUnexpiredIff(sha: Hash, tco: Tco, g: GoldSet, c: Batch, at: Time, expiry: Time)
    requires ValidBatch(c) && Ready(sha, tco, g, c, at) && IsLeast(expiry, Deadlines(g, c))
    ensures at < expiry <==> ArchivesKept(c, at)
  {
    if ArchivesKept(c, at) {
      ReadyDeadlines(sha, tco, g, c, at, expiry);
    }
    if at < expiry {
      forall q, p | q in c.plans && HasPointer(q.plan, p) && p.deleteAfter.Some? ensures at < p.deleteAfter.value {
        PointerDeadline(q, p, p.deleteAfter.value);
        BatchDeadline(g, c, q, p.deleteAfter.value);
      }
    }
  }
}
