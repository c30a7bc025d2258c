/** What the gold set's digests identify, and what they leave out. */
module GoldSetDigest {
  import opened Common
  import opened Sorting
  import opened GoldSetTypes
  import opened GoldSetFaults
  import opened GoldSetOrder

  /** The values hashed for the content digest of a gold set. */
  ghost function Hashed(sha: Hash, g: GoldSet): set<Value> {
    {SetPayload(sha, g)} + set p | p in g.plans :: PlanPayload(p)
  }

  /** Among the finitely many values hashed for two gold sets no two collide. */
  ghost predicate CollisionFree(sha: Hash, g: GoldSet, h: GoldSet) {
    forall x, y | x in Hashed(sha, g) && y in Hashed(sha, h) && sha(x) == sha(y) :: x == y
  }

  // ---------- The content digest names the gold set, order aside ----------

  lemma SamePayloadSamePlan(p: GoldPlan, q: GoldPlan)
    requires ValidGoldPlan(p) && ValidGoldPlan(q) && PlanPayload(p) == PlanPayload(q)
    ensures SamePlan(p, q)
  {
    CanonIsStable(p);
    CanonIsStable(q);
  }

  /** Every plan of one gold set is, in another order, one of the other's. */
  lemma HashesCover(sha: Hash, ps: seq<GoldPlan>, qs: seq<GoldPlan>)
    requires Tidy(ps) && Tidy(qs)
    requires forall p, q | p in ps && q in qs && sha(PlanPayload(p)) == sha(PlanPayload(q)) :: PlanPayload(p) == PlanPayload(q)
    requires Map(Sort(ps, GoldBefore), (p: GoldPlan) => GoldPlanHash(sha, p))
          == Map(Sort(qs, GoldBefore), (p: GoldPlan) => GoldPlanHash(sha, p))
    ensures Covered(ps, qs)
  {
    var hash := (p: GoldPlan) => GoldPlanHash(sha, p);
    var xs, ys := Sort(ps, GoldBefore), Sort(qs, GoldBefore);
    PlansComparable(ps);
    PlansComparable(qs);
    forall p | p in ps ensures exists q | q in qs :: SamePlan(p, q) {
      SortMembers(ps, GoldBefore, p);
      var i :| 0 <= i < |xs| && xs[i] == p;
      assert |Map(xs, hash)| == |Map(ys, hash)| && Map(xs, hash)[i] == Map(ys, hash)[i];
      SortMembers(qs, GoldBefore, ys[i]);
      assert sha(PlanPayload(p)) == sha(PlanPayload(ys[i]));
      SamePayloadSamePlan(p, ys[i]);
    }
  }

  /** Two gold sets whose hashed values do not collide have one content digest if and
      only if they differ in nothing but the order of plans, labels and scenarios. */
  lemma ContentDigestIdentifies(sha: Hash, g: GoldSet, h: GoldSet)
    requires ValidGoldSet(g) && ValidGoldSet(h) && CollisionFree(sha, g, h)
    ensures GoldSetHash(sha, g) == GoldSetHash(sha, h) <==> SameGoldSet(g, h)
  {
    if SameGoldSet(g, h) {
      CoveredMeansSame(g.plans, h.plans);
      SameGoldSetHash(sha, g, h);
    }
    if GoldSetHash(sha, g) == GoldSetHash(sha, h) {
      assert SetPayload(sha, g) in Hashed(sha, g) && SetPayload(sha, h) in Hashed(sha, h);
      assert SetPayload(sha, g) == SetPayload(sha, h);
      PlansDoNotCollide(sha, g, h);
      HashesCover(sha, g.plans, h.plans);
      HashesCover(sha, h.plans, g.plans);
    }
  }

  lemma PlansDoNotCollide(sha: Hash, g: GoldSet, h: GoldSet)
    requires CollisionFree(sha, g, h)
    ensures forall p, q | p in g.plans && q in h.plans && sha(PlanPayload(p)) == sha(PlanPayload(q)) :: PlanPayload(p) == PlanPayload(q)
  {
    forall p, q | p in g.plans && q in h.plans && sha(PlanPayload(p)) == sha(PlanPayload(q)) ensures PlanPayload(p) == PlanPayload(q) {
      assert PlanPayload(p) in Hashed(sha, g) && PlanPayload(q) in Hashed(sha, h);
    }
  }

  /** For any hash whatever: equal digests of different gold sets exhibit a collision. */
  lemma EqualDigestsCollide(sha: Hash, g: GoldSet, h: GoldSet) returns (x: Value, y: Value)
    requires ValidGoldSet(g) && ValidGoldSet(h) && GoldSetHash(sha, g) == GoldSetHash(sha, h) && !SameGoldSet(g, h)
    ensures x in Hashed(sha, g) && y in Hashed(sha, h) && x != y && sha(x) == sha(y)
  {
    if CollisionFree(sha, g, h) {
      ContentDigestIdentifies(sha, g, h);
    }
    x, y :| x in Hashed(sha, g) && y in Hashed(sha, h) && x != y && sha(x) == sha(y);
  }

  // ---------- The batch digest names the attempts ----------

  /** Batches with one digest, and no collision, have one source receipt, parser and window,
      the same parsed inputs with the same plan digests, and the same failures. */
  lemma BatchDigestIdentifies(sha: Hash, c: Batch, d: Batch)
    requires ValidBatch(c) && ValidBatch(d) && BatchHash(sha, c) == BatchHash(sha, d)
    requires sha(BatchContent(c)) == sha(BatchContent(d)) ==> BatchContent(c) == BatchContent(d)
    ensures c.receipt == d.receipt && c.parser == d.parser && c.version == d.version
    ensures c.capturedAt == d.capturedAt && c.expiresAt == d.expiresAt
    ensures forall q | q in c.plans :: exists r | r in d.plans :: r.input == q.input && r.sha == q.sha
    ensures forall f :: f in c.failures <==> f in d.failures
  {
    CandidatesComparable(c);
    CandidatesComparable(d);
    var pair := (q: CandidatePlan) => (q.input, q.sha);
    var xs, ys := Sort(c.plans, InputBefore), Sort(d.plans, InputBefore);
    assert Map(xs, pair) == Map(ys, pair) && Sort(c.failures, FailureBefore) == Sort(d.failures, FailureBefore);
    forall q | q in c.plans ensures exists r | r in d.plans :: r.input == q.input && r.sha == q.sha {
      SortMembers(c.plans, InputBefore, q);
      var i :| 0 <= i < |xs| && xs[i] == q;
      assert |Map(xs, pair)| == |Map(ys, pair)| && Map(xs, pair)[i] == Map(ys, pair)[i];
      SortMembers(d.plans, InputBefore, ys[i]);
    }
    forall f ensures f in c.failures <==> f in d.failures {
      SortMembers(c.failures, FailureBefore, f);
      SortMembers(d.failures, FailureBefore, f);
    }
  }

  // ---------- The rights manifest leaves observations out ----------

  /** The same pointer, retrieved at another time, from other content, archived or not. */
  function ErasePointer(p: Pointer): Pointer {
    Pointer(0, 0, p.policy, None)
  }

  function EraseEvidence(e: Evidence): Evidence {
    Evidence(e.field, Map(e.pointers, ErasePointer))
  }

  /** A plan without anything observed: only keys, fields and policies stay. */
  function Erase(p: VendorPlan): VendorPlan {
    VendorPlan(p.vendor, p.plan, 0, 0, map[], Map(p.evidence, EraseEvidence))
  }

  lemma EvidenceManifest(sha: Hash, e: Evidence)
    ensures Map(EraseEvidence(e).pointers, (x: Pointer) => sha(PolicyPayload(x.policy)))
         == Map(e.pointers, (x: Pointer) => sha(PolicyPayload(x.policy)))
  {
    var digest := (x: Pointer) => sha(PolicyPayload(x.policy));
    assert forall i | 0 <= i < |e.pointers| :: Map(Map(e.pointers, ErasePointer), digest)[i] == Map(e.pointers, digest)[i];
  }

  lemma ErasedEvidenceSorts(p: VendorPlan)
    requires ValidVendorPlan(p)
    ensures Sort(Erase(p).evidence, EvidenceBefore) == Map(Sort(p.evidence, EvidenceBefore), EraseEvidence)
  {
    UniqueMeansComparable(p.evidence, (e: Evidence) => e.field, EvidenceBefore);
    assert Unique(Map(p.evidence, EraseEvidence), (e: Evidence) => e.field);
    UniqueMeansComparable(Map(p.evidence, EraseEvidence), (e: Evidence) => e.field, EvidenceBefore);
    SortMaps(p.evidence, EraseEvidence, EvidenceBefore);
  }

  lemma ErasedManifest(sha: Hash, p: VendorPlan)
    requires ValidVendorPlan(p)
    ensures ManifestOf(sha, Erase(p)) == ManifestOf(sha, p)
  {
    ErasedEvidenceSorts(p);
    forall e ensures Map(EraseEvidence(e).pointers, (x: Pointer) => sha(PolicyPayload(x.policy)))
                  == Map(e.pointers, (x: Pointer) => sha(PolicyPayload(x.policy))) {
      EvidenceManifest(sha, e);
    }
    var sorted := Sort(p.evidence, EvidenceBefore);
    var field := (e: Evidence) => ManifestField(e.field, Sort(Map(e.pointers, (x: Pointer) => sha(PolicyPayload(x.policy))), DigestBefore));
    assert forall i | 0 <= i < |sorted| :: Map(Map(sorted, EraseEvidence), field)[i] == Map(sorted, field)[i];
  }

  lemma ErasedPlansSort(plans: seq<VendorPlan>)
    requires Unique(plans, VendorPlanKey)
    ensures Sort(Map(plans, Erase), PlanBefore) == Map(Sort(plans, PlanBefore), Erase)
    ensures forall p | p in Sort(plans, PlanBefore) :: p in plans
  {
    UniqueMeansComparable(plans, VendorPlanKey, PlanBefore);
    assert Unique(Map(plans, Erase), VendorPlanKey);
    UniqueMeansComparable(Map(plans, Erase), VendorPlanKey, PlanBefore);
    SortMaps(plans, Erase, PlanBefore);
    forall p | p in Sort(plans, PlanBefore) ensures p in plans {
      SortMembers(plans, PlanBefore, p);
    }
  }

  lemma ErasedManifests(sha: Hash, plans: seq<VendorPlan>)
    requires forall p | p in plans :: ValidVendorPlan(p)
    ensures Map(Map(plans, Erase), (p: VendorPlan) => ManifestOf(sha, p)) == Map(plans, (p: VendorPlan) => ManifestOf(sha, p))
  {
    var manifest := (p: VendorPlan) => ManifestOf(sha, p);
    forall i | 0 <= i < |plans| ensures Map(Map(plans, Erase), manifest)[i] == Map(plans, manifest)[i] {
      assert plans[i] in plans;
      ErasedManifest(sha, plans[i]);
    }
  }

  /** The manifest digest reads no capture, effective or retrieval time, no content digest
      and no archive: a re-observed batch under the same policies has the same one. */
  lemma ManifestIgnoresObservations(sha: Hash, plans: seq<VendorPlan>)
    requires Unique(plans, VendorPlanKey) && forall p | p in plans :: ValidVendorPlan(p)
    ensures RightsManifest(sha, Map(plans, Erase)) == RightsManifest(sha, plans)
  {
    ErasedPlansSort(plans);
    ErasedManifests(sha, Sort(plans, PlanBefore));
  }
}
