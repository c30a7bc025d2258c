/** The report does not depend on the order in which plans, labels, scenarios,
    candidate plans or failures are listed. */
module GoldSetOrder {
  import opened Common
  import opened Collections
  import opened Sorting
  import opened GoldSetTypes
  import opened GoldSetFaults
  import opened GoldSetExpiry
  import opened GoldSetReport

  // ---------- Reordered inputs ----------

  /** The same labels and scenarios; their identifiers are distinct, so this is a
      permutation of both lists. */
  ghost predicate SamePlan(p: GoldPlan, q: GoldPlan) {
    Key(p) == Key(q) && Elements(p.labels) == Elements(q.labels) && Elements(p.expectations) == Elements(q.expectations)
  }

  /** Every plan of the one is a plan of the other, lists reordered. */
  ghost predicate Covered(ps: seq<GoldPlan>, qs: seq<GoldPlan>) {
    forall p | p in ps :: exists q | q in qs :: SamePlan(p, q)
  }

  /** Plan keys are distinct too, so this is a permutation of permuted plans. */
  ghost predicate SameGoldSet(g: GoldSet, h: GoldSet) {
    h == g.(plans := h.plans) && Covered(g.plans, h.plans) && Covered(h.plans, g.plans)
  }

  ghost predicate SameBatch(c: Batch, d: Batch) {
    && d == c.(plans := d.plans, failures := d.failures)
    && Elements(c.plans) == Elements(d.plans) && Elements(c.failures) == Elements(d.failures)
  }

  // ---------- Canonical plans ----------

  function Canon(p: GoldPlan): GoldPlan {
    p.(labels := Sort(p.labels, LabelBefore), expectations := Sort(p.expectations, ScenarioBefore))
  }

  lemma UniqueMeansComparable<T(!new), K>(s: seq<T>, key: T -> K, lt: (T, T) -> bool)
    requires Unique(s, key) && forall x: T, y: T | key(x) != key(y) :: lt(x, y) || lt(y, x)
    ensures Comparable(s, lt) && NoRepeats(s)
  {
    forall x, y | x in s && y in s && x != y ensures lt(x, y) || lt(y, x) {
      var i :| 0 <= i < |s| && s[i] == x;
      var j :| 0 <= j < |s| && s[j] == y;
      assert key(s[i]) != key(s[j]);
    }
  }

  lemma LabelsComparable(p: GoldPlan)
    requires ValidGoldPlan(p)
    ensures StrictOrder(LabelBefore) && Comparable(p.labels, LabelBefore) && NoRepeats(p.labels)
  {
    UniqueMeansComparable(p.labels, (l: Label) => l.field, LabelBefore);
  }

  lemma ScenariosComparable(p: GoldPlan)
    requires ValidGoldPlan(p)
    ensures StrictOrder(ScenarioBefore) && Comparable(p.expectations, ScenarioBefore) && NoRepeats(p.expectations)
  {
    UniqueMeansComparable(p.expectations, (e: Expectation) => e.scenario, ScenarioBefore);
  }

  lemma SameCanon(p: GoldPlan, q: GoldPlan)
    requires ValidGoldPlan(p) && SamePlan(p, q)
    ensures Canon(p) == Canon(q)
  {
    LabelsComparable(p);
    ScenariosComparable(p);
    SortForgetsOrder(p.labels, q.labels, LabelBefore);
    SortForgetsOrder(p.expectations, q.expectations, ScenarioBefore);
  }

  lemma MapMembers<T, U>(s: seq<T>, f: T -> U, y: U)
    ensures y in Map(s, f) <==> exists x | x in s :: f(x) == y
  {
    if y in Map(s, f) {
      var i :| 0 <= i < |s| && Map(s, f)[i] == y;
      assert s[i] in s;
    }
    forall x | x in s && f(x) == y ensures y in Map(s, f) {
      var i :| 0 <= i < |s| && s[i] == x;
      assert Map(s, f)[i] == y;
    }
  }

  lemma CoveredCanonPlans(ps: seq<GoldPlan>, qs: seq<GoldPlan>)
    requires (forall p | p in ps :: ValidGoldPlan(p)) && Covered(ps, qs)
    ensures Elements(Map(ps, Canon)) <= Elements(Map(qs, Canon))
  {
    forall y | y in Map(ps, Canon) ensures y in Map(qs, Canon) {
      MapMembers(ps, Canon, y);
      MapMembers(qs, Canon, y);
      var p :| p in ps && Canon(p) == y;
      var q :| q in qs && SamePlan(p, q);
      SameCanon(p, q);
    }
  }

  ghost predicate Tidy(ps: seq<GoldPlan>) {
    Unique(ps, Key) && forall p | p in ps :: ValidGoldPlan(p)
  }

  /** The same plans up to the canonical order of their lists. */
  ghost predicate SamePlans(ps: seq<GoldPlan>, qs: seq<GoldPlan>) {
    Tidy(ps) && Tidy(qs) && Elements(Map(ps, Canon)) == Elements(Map(qs, Canon))
  }

  lemma CoveredMeansSame(ps: seq<GoldPlan>, qs: seq<GoldPlan>)
    requires Tidy(ps) && Tidy(qs) && Covered(ps, qs) && Covered(qs, ps)
    ensures SamePlans(ps, qs)
  {
    CoveredCanonPlans(ps, qs);
    CoveredCanonPlans(qs, ps);
  }

  lemma Twin(ps: seq<GoldPlan>, qs: seq<GoldPlan>, p: GoldPlan) returns (q: GoldPlan)
    requires SamePlans(ps, qs) && p in ps
    ensures q in qs && Canon(q) == Canon(p)
  {
    MapMembers(ps, Canon, Canon(p));
    assert Canon(p) in Elements(Map(qs, Canon));
    MapMembers(qs, Canon, Canon(p));
    q :| q in qs && Canon(q) == Canon(p);
  }

  // ---------- Counts ----------

  lemma PlansComparable(ps: seq<GoldPlan>)
    requires Tidy(ps)
    ensures StrictOrder(GoldBefore) && Comparable(ps, GoldBefore) && NoRepeats(ps)
    ensures Comparable(Map(ps, Canon), GoldBefore) && NoRepeats(Map(ps, Canon))
  {
    UniqueMeansComparable(ps, Key, GoldBefore);
    assert Unique(Map(ps, Canon), Key);
    UniqueMeansComparable(Map(ps, Canon), Key, GoldBefore);
  }

  lemma {:induction false} TotalOfMap<T, U>(s: seq<T>, f: T -> U, weight: T -> nat, mapped: U -> nat)
    requires forall x | x in s :: mapped(f(x)) == weight(x)
    ensures Total(Map(s, f), mapped) == Total(s, weight)
  {
    if s != [] {
      assert s[0] in s;
      assert forall x | x in s[1..] :: x in s;
      TotalOfMap(s[1..], f, weight, mapped);
      assert Map(s, f)[1..] == Map(s[1..], f);
    }
  }

  lemma CanonKeepsLength(p: GoldPlan)
    requires ValidGoldPlan(p)
    ensures |Canon(p).labels| == |p.labels|
  {
    LabelsComparable(p);
    TotalSort(p.labels, LabelBefore, x => 1);
    TotalOfOnes(p.labels);
    TotalOfOnes(Canon(p).labels);
  }

  ghost predicate ReadsLabelCount(weight: GoldPlan -> nat) {
    forall p, q | Key(p) == Key(q) && |p.labels| == |q.labels| :: weight(p) == weight(q)
  }

  lemma CanonTotal(ps: seq<GoldPlan>, weight: GoldPlan -> nat)
    requires Tidy(ps) && ReadsLabelCount(weight)
    ensures Total(Map(ps, Canon), weight) == Total(ps, weight)
  {
    forall p | p in ps ensures weight(Canon(p)) == weight(p) {
      CanonKeepsLength(p);
    }
    TotalOfMap(ps, Canon, weight, weight);
  }

  /** A total whose weight reads only key and number of labels. */
  lemma PlanTotal(ps: seq<GoldPlan>, qs: seq<GoldPlan>, weight: GoldPlan -> nat)
    requires SamePlans(ps, qs) && ReadsLabelCount(weight)
    ensures Total(ps, weight) == Total(qs, weight)
  {
    CanonTotal(ps, weight);
    CanonTotal(qs, weight);
    PlansComparable(ps);
    PlansComparable(qs);
    TotalForgetsOrder(Map(ps, Canon), Map(qs, Canon), GoldBefore, weight);
  }

  lemma SameLength(ps: seq<GoldPlan>, qs: seq<GoldPlan>)
    requires SamePlans(ps, qs)
    ensures |ps| == |qs|
  {
    PlansComparable(ps);
    PlansComparable(qs);
    LengthForgetsOrder(Map(ps, Canon), Map(qs, Canon), GoldBefore);
  }

  lemma KeyCovered(ps: seq<GoldPlan>, qs: seq<GoldPlan>, k: (Id, Id))
    requires SamePlans(ps, qs)
    ensures Expected(ps, k) ==> Expected(qs, k)
  {
    if p :| p in ps && Key(p) == k {
      var q := Twin(ps, qs, p);
      assert Key(q) == k;
    }
  }

  lemma VendorsCovered(ps: seq<GoldPlan>, qs: seq<GoldPlan>)
    requires SamePlans(ps, qs)
    ensures Vendors(ps) <= Vendors(qs)
  {
    forall v | v in Vendors(ps) ensures v in Vendors(qs) {
      var p :| p in ps && p.vendor == v;
      var q := Twin(ps, qs, p);
      assert q.vendor == v;
    }
  }

  lemma SameVendorCounts(ps: seq<GoldPlan>, qs: seq<GoldPlan>, v: Id)
    requires SamePlans(ps, qs)
    ensures PlansOf(ps, v) == PlansOf(qs, v) && LabelsOf(ps, v) == LabelsOf(qs, v)
  {
    PlanTotal(ps, qs, (p: GoldPlan) => if p.vendor == v then 1 else 0);
    PlanTotal(ps, qs, (p: GoldPlan) => if p.vendor == v then |p.labels| else 0);
  }

  lemma SameLabelCount(ps: seq<GoldPlan>, qs: seq<GoldPlan>)
    requires SamePlans(ps, qs)
    ensures LabelCount(ps) == LabelCount(qs)
  {
    PlanTotal(ps, qs, (p: GoldPlan) => |p.labels|);
  }

  lemma CoverageReadsCounts(ps: seq<GoldPlan>, qs: seq<GoldPlan>)
    requires Vendors(ps) == Vendors(qs) && |ps| == |qs|
    requires forall v | v in Vendors(ps) :: PlansOf(ps, v) == PlansOf(qs, v) && LabelsOf(ps, v) == LabelsOf(qs, v)
    ensures FullCoverage(ps) == FullCoverage(qs) && CoverageOf(ps) == CoverageOf(qs)
  {
  }

  lemma SameCoverage(ps: seq<GoldPlan>, qs: seq<GoldPlan>)
    requires SamePlans(ps, qs)
    ensures Vendors(ps) == Vendors(qs) && FullCoverage(ps) == FullCoverage(qs) && CoverageOf(ps) == CoverageOf(qs)
  {
    VendorsCovered(ps, qs);
    VendorsCovered(qs, ps);
    SameLength(ps, qs);
    forall v | v in Vendors(ps) ensures PlansOf(ps, v) == PlansOf(qs, v) && LabelsOf(ps, v) == LabelsOf(qs, v) {
      SameVendorCounts(ps, qs, v);
    }
    CoverageReadsCounts(ps, qs);
  }

  // ---------- Content digest ----------

  lemma CanonIsStable(p: GoldPlan)
    requires ValidGoldPlan(p)
    ensures Canon(Canon(p)) == Canon(p)
    ensures SamePlan(p, Canon(p))
  {
    LabelsComparable(p);
    ScenariosComparable(p);
    SortSorts(p.labels, LabelBefore);
    SortSorts(p.expectations, ScenarioBefore);
    SortForgetsOrder(p.labels, Canon(p).labels, LabelBefore);
    SortForgetsOrder(p.expectations, Canon(p).expectations, ScenarioBefore);
  }

  /** Sorting commutes with a map that keeps the order. */
  lemma SortMaps<T(!new)>(s: seq<T>, f: T -> T, lt: (T, T) -> bool)
    requires StrictOrder(lt) && Comparable(s, lt) && Comparable(Map(s, f), lt)
    requires forall x: T, y: T | lt(x, y) :: lt(f(x), f(y))
    ensures Map(Sort(s, lt), f) == Sort(Map(s, f), lt)
  {
    var a, b := Map(Sort(s, lt), f), Sort(Map(s, f), lt);
    SortSorts(s, lt);
    SortSorts(Map(s, f), lt);
    forall y ensures y in a <==> y in Map(s, f) {
      MapMembers(Sort(s, lt), f, y);
      MapMembers(s, f, y);
      forall x ensures x in Sort(s, lt) <==> x in s {
        SortMembers(s, lt, x);
      }
    }
    assert Elements(a) == Elements(Map(s, f));
    SortedIsUnique(a, b, lt);
  }

  lemma SortMapsCanon(ps: seq<GoldPlan>)
    requires Tidy(ps)
    ensures Map(Sort(ps, GoldBefore), Canon) == Sort(Map(ps, Canon), GoldBefore)
  {
    PlansComparable(ps);
    SortMaps(ps, Canon, GoldBefore);
  }

  lemma {:induction false} HashesReadCanon(sha: Hash, ps: seq<GoldPlan>, qs: seq<GoldPlan>)
    requires Map(ps, Canon) == Map(qs, Canon)
    ensures Map(ps, (p: GoldPlan) => GoldPlanHash(sha, p)) == Map(qs, (p: GoldPlan) => GoldPlanHash(sha, p))
  {
    forall i | 0 <= i < |ps| ensures GoldPlanHash(sha, ps[i]) == GoldPlanHash(sha, qs[i]) {
      assert Map(ps, Canon)[i] == Map(qs, Canon)[i];
      GoldPlanHashReadsCanon(sha, ps[i]);
      GoldPlanHashReadsCanon(sha, qs[i]);
    }
    assert |Map(ps, Canon)| == |Map(qs, Canon)|;
  }

  lemma GoldPlanHashReadsCanon(sha: Hash, p: GoldPlan)
    ensures GoldPlanHash(sha, p) == sha(GoldPlanPayload(Canon(p).vendor, Canon(p).plan, Canon(p).labels, Canon(p).expectations))
  {
  }

  lemma SameGoldSetHash(sha: Hash, g: GoldSet, h: GoldSet)
    requires h == g.(plans := h.plans) && SamePlans(g.plans, h.plans)
    ensures GoldSetHash(sha, g) == GoldSetHash(sha, h)
  {
    PlansComparable(g.plans);
    PlansComparable(h.plans);
    SortMapsCanon(g.plans);
    SortMapsCanon(h.plans);
    SortForgetsOrder(Map(g.plans, Canon), Map(h.plans, Canon), GoldBefore);
    HashesReadCanon(sha, Sort(g.plans, GoldBefore), Sort(h.plans, GoldBefore));
  }

  // ---------- The batch ----------

  lemma CandidatesComparable(c: Batch)
    requires ValidBatch(c)
    ensures StrictOrder(InputBefore) && Comparable(c.plans, InputBefore) && NoRepeats(c.plans)
    ensures StrictOrder(FailureBefore) && Comparable(c.failures, FailureBefore) && NoRepeats(c.failures)
  {
    UniqueMeansComparable(c.plans, (q: CandidatePlan) => q.input, InputBefore);
    UniqueMeansComparable(c.failures, (f: Failure) => f.input, FailureBefore);
  }

  lemma SameBatchParts(sha: Hash, c: Batch, d: Batch)
    requires ValidBatch(c) && ValidBatch(d) && SameBatch(c, d)
    ensures |c.plans| == |d.plans| && |c.failures| == |d.failures| && BatchHash(sha, c) == BatchHash(sha, d)
  {
    CandidatesComparable(c);
    CandidatesComparable(d);
    LengthForgetsOrder(c.plans, d.plans, InputBefore);
    LengthForgetsOrder(c.failures, d.failures, FailureBefore);
    SortForgetsOrder(c.plans, d.plans, InputBefore);
    SortForgetsOrder(c.failures, d.failures, FailureBefore);
  }

  lemma FindCarries(ps: seq<CandidatePlan>, qs: seq<CandidatePlan>, k: (Id, Id))
    requires Unique(qs, CandidateKey) && Elements(ps) == Elements(qs)
    ensures Find(ps, k).Some? ==> Find(qs, k) == Find(ps, k)
  {
    FoundIsListed(ps, k);
    if Find(ps, k).Some? {
      assert Find(ps, k).value in Elements(qs);
      FindsOwnKey(qs, Find(ps, k).value);
    }
  }

  lemma SameFind(ps: seq<CandidatePlan>, qs: seq<CandidatePlan>, k: (Id, Id))
    requires Unique(ps, CandidateKey) && Unique(qs, CandidateKey) && Elements(ps) == Elements(qs)
    ensures Find(ps, k) == Find(qs, k)
  {
    FindCarries(ps, qs, k);
    FindCarries(qs, ps, k);
  }

  function PlanOf(q: CandidatePlan): VendorPlan {
    q.plan
  }

  function VendorPlanKey(p: VendorPlan): (Id, Id) {
    (p.vendor, p.plan)
  }

  lemma MapForgetsOrder<T, U(!new)>(s: seq<T>, t: seq<T>, f: T -> U)
    requires Elements(s) == Elements(t)
    ensures Elements(Map(s, f)) == Elements(Map(t, f))
  {
    assert forall x | x in s :: x in Elements(t);
    assert forall x | x in t :: x in Elements(s);
    forall y ensures y in Map(s, f) <==> y in Map(t, f) {
      MapMembers(s, f, y);
      MapMembers(t, f, y);
    }
  }

  lemma PlansOfBatchComparable(ps: seq<CandidatePlan>)
    requires Unique(ps, CandidateKey)
    ensures StrictOrder(PlanBefore) && Comparable(Map(ps, PlanOf), PlanBefore)
  {
    forall i, j | 0 <= i < j < |ps| ensures VendorPlanKey(Map(ps, PlanOf)[i]) != VendorPlanKey(Map(ps, PlanOf)[j]) {
      assert CandidateKey(ps[i]) != CandidateKey(ps[j]);
    }
    UniqueMeansComparable(Map(ps, PlanOf), VendorPlanKey, PlanBefore);
  }

  lemma SameManifest(sha: Hash, ps: seq<CandidatePlan>, qs: seq<CandidatePlan>)
    requires Unique(ps, CandidateKey) && Elements(ps) == Elements(qs)
    ensures RightsManifest(sha, Map(ps, PlanOf)) == RightsManifest(sha, Map(qs, PlanOf))
  {
    PlansOfBatchComparable(ps);
    MapForgetsOrder(ps, qs, PlanOf);
    NoElements(Map(ps, PlanOf));
    NoElements(Map(qs, PlanOf));
    SortForgetsOrder(Map(ps, PlanOf), Map(qs, PlanOf), PlanBefore);
  }

  // ---------- Faults ----------

  lemma SamePlanFaults(sha: Hash, tco: Tco, p: GoldPlan, q: GoldPlan, plan: VendorPlan, at: Time)
    requires SamePlan(p, q)
    ensures PlanFaults(sha, tco, p, plan, at) == PlanFaults(sha, tco, q, plan, at)
  {
    UnionForgetsOrder(p.labels, q.labels, (l: Label) => LabelFaults(sha, plan, at, l));
    UnionForgetsOrder(p.expectations, q.expectations, (e: Expectation) => ExpectationFaults(sha, tco, plan, at, e));
    assert forall l | l in p.labels :: l in Elements(q.labels);
    assert forall l | l in q.labels :: l in Elements(p.labels);
    assert forall f :: IsLabelled(p, f) == IsLabelled(q, f);
  }

  lemma CanonGoldPlanFaults(sha: Hash, tco: Tco, c: Batch, d: Batch, at: Time, p: GoldPlan)
    requires ValidGoldPlan(p) && Find(c.plans, Key(p)) == Find(d.plans, Key(p))
    ensures GoldPlanFaults(sha, tco, c, at, p) == GoldPlanFaults(sha, tco, d, at, Canon(p))
  {
    CanonIsStable(p);
    var q := Find(c.plans, Key(p));
    if q.Some? {
      SamePlanFaults(sha, tco, p, Canon(p), q.value.plan, at);
    }
    GoldPlanHashReadsCanon(sha, p);
    GoldPlanHashReadsCanon(sha, Canon(p));
  }

  lemma {:induction false} UnionOfMap<T, U, V>(s: seq<T>, m: T -> U, f: T -> set<V>, g: U -> set<V>)
    requires forall x | x in s :: f(x) == g(m(x))
    ensures UnionOf(s, f) == UnionOf(Map(s, m), g)
  {
    if s != [] {
      var n := |s| - 1;
      assert s[n] in s;
      UnionOfMap(s[..n], m, f, g);
      assert Map(s, m)[..n] == Map(s[..n], m);
    }
  }

  lemma SameGoldPlanFaults(sha: Hash, tco: Tco, ps: seq<GoldPlan>, qs: seq<GoldPlan>, c: Batch, d: Batch, at: Time)
    requires SamePlans(ps, qs) && forall k :: Find(c.plans, k) == Find(d.plans, k)
    ensures UnionOf(ps, (p: GoldPlan) => GoldPlanFaults(sha, tco, c, at, p))
         == UnionOf(qs, (p: GoldPlan) => GoldPlanFaults(sha, tco, d, at, p))
  {
    var f := (p: GoldPlan) => GoldPlanFaults(sha, tco, c, at, p);
    var g := (p: GoldPlan) => GoldPlanFaults(sha, tco, d, at, p);
    forall p | p in ps ensures f(p) == g(Canon(p)) {
      CanonGoldPlanFaults(sha, tco, c, d, at, p);
    }
    forall p | p in qs ensures g(p) == g(Canon(p)) {
      CanonGoldPlanFaults(sha, tco, d, d, at, p);
    }
    UnionOfMap(ps, Canon, f, g);
    UnionOfMap(qs, Canon, g, g);
    UnionForgetsOrder(Map(ps, Canon), Map(qs, Canon), g);
  }

  lemma SameCandidateFaults(sha: Hash, g: GoldSet, h: GoldSet, ps: seq<CandidatePlan>, qs: seq<CandidatePlan>)
    requires (forall k :: Expected(g.plans, k) == Expected(h.plans, k)) && Elements(ps) == Elements(qs)
    ensures UnionOf(ps, (q: CandidatePlan) => CandidateFaults(sha, g, q))
         == UnionOf(qs, (q: CandidatePlan) => CandidateFaults(sha, h, q))
  {
    var a := (q: CandidatePlan) => CandidateFaults(sha, g, q);
    var b := (q: CandidatePlan) => CandidateFaults(sha, h, q);
    UnionForgetsOrder(ps, qs, a);
    UnionAgrees(qs, a, b);
  }

  lemma {:induction false} UnionAgrees<T, U>(s: seq<T>, f: T -> set<U>, g: T -> set<U>)
    requires forall x | x in s :: f(x) == g(x)
    ensures UnionOf(s, f) == UnionOf(s, g)
  {
    if s != [] {
      UnionAgrees(s[..|s| - 1], f, g);
    }
  }

  lemma CanonDeadlines(p: GoldPlan)
    requires ValidGoldPlan(p)
    ensures GoldDeadlines(p) == GoldDeadlines(Canon(p))
  {
    CanonIsStable(p);
    var q := Canon(p);
    forall l ensures l in p.labels <==> l in q.labels {
      assert l in Elements(p.labels) <==> l in Elements(q.labels);
    }
    forall e ensures e in p.expectations <==> e in q.expectations {
      assert e in Elements(p.expectations) <==> e in Elements(q.expectations);
    }
  }

  lemma SameDeadlines(g: GoldSet, h: GoldSet, c: Batch, d: Batch)
    requires h == g.(plans := h.plans) && SamePlans(g.plans, h.plans) && SameBatch(c, d)
    ensures Deadlines(g, c) == Deadlines(h, d)
  {
    UnionForgetsOrder(c.plans, d.plans, CandidateDeadlines);
    forall p | p in g.plans || p in h.plans ensures GoldDeadlines(p) == GoldDeadlines(Canon(p)) {
      CanonDeadlines(p);
    }
    UnionOfMap(g.plans, Canon, GoldDeadlines, GoldDeadlines);
    UnionOfMap(h.plans, Canon, GoldDeadlines, GoldDeadlines);
    UnionForgetsOrder(Map(g.plans, Canon), Map(h.plans, Canon), GoldDeadlines);
  }

  // ---------- The report ----------

  lemma SameHeaderFaults(sha: Hash, g: GoldSet, h: GoldSet, c: Batch, d: Batch, at: Time)
    requires |c.plans| + |c.failures| > 0 && |c.plans| == |d.plans| && |c.failures| == |d.failures|
    requires h == g.(plans := h.plans) && d == c.(plans := d.plans, failures := d.failures)
    requires FullCoverage(g.plans) == FullCoverage(h.plans) && CoverageOf(g.plans) == CoverageOf(h.plans)
    requires RightsManifest(sha, CandidatePlans(c)) == RightsManifest(sha, CandidatePlans(d))
    ensures HeaderFaults(sha, g, c, at) == HeaderFaults(sha, h, d, at)
  {
    var complete, coverage := FullCoverage(g.plans), CoverageOf(g.plans);
    var manifest, rate := RightsManifest(sha, CandidatePlans(c)), FailureRate(c);
    SameRate(c, d);
    assert HeaderFaults(sha, g, c, at) == HeaderFaultsWith(sha, g, c, at, complete, coverage, manifest, rate);
    assert HeaderFaults(sha, h, d, at) == HeaderFaultsWith(sha, h, d, at, complete, coverage, manifest, rate);
    SameHeaderParts(sha, g, h, c, d, at, complete, coverage, manifest, rate);
  }

  lemma SameRate(c: Batch, d: Batch)
    requires |c.plans| + |c.failures| > 0 && |c.plans| == |d.plans| && |c.failures| == |d.failures|
    ensures FailureRate(c) == FailureRate(d)
  {
  }

  lemma SameHeaderParts(sha: Hash, g: GoldSet, h: GoldSet, c: Batch, d: Batch, at: Time, complete: bool, coverage: Value,
                        manifest: Option<Digest>, rate: real)
    requires h == g.(plans := h.plans) && d == c.(plans := d.plans, failures := d.failures)
    ensures HeaderFaultsWith(sha, g, c, at, complete, coverage, manifest, rate)
         == HeaderFaultsWith(sha, h, d, at, complete, coverage, manifest, rate)
  {
  }

  lemma SameHeader(sha: Hash, g: GoldSet, h: GoldSet, c: Batch, d: Batch, at: Time)
    requires h == g.(plans := h.plans) && SamePlans(g.plans, h.plans)
    requires ValidBatch(c) && ValidBatch(d) && SameBatch(c, d)
    ensures HeaderFaults(sha, g, c, at) == HeaderFaults(sha, h, d, at)
  {
    SameBatchParts(sha, c, d);
    SameCoverage(g.plans, h.plans);
    CandidatePlansAreMapped(c);
    CandidatePlansAreMapped(d);
    SameManifest(sha, c.plans, d.plans);
    SameHeaderFaults(sha, g, h, c, d, at);
  }

  lemma SameFaults(sha: Hash, tco: Tco, g: GoldSet, h: GoldSet, c: Batch, d: Batch, at: Time)
    requires h == g.(plans := h.plans) && SamePlans(g.plans, h.plans)
    requires ValidBatch(c) && ValidBatch(d) && SameBatch(c, d)
    ensures |d.plans| + |d.failures| > 0 && Faults(sha, tco, g, c, at) == Faults(sha, tco, h, d, at)
  {
    SameHeader(sha, g, h, c, d, at);
    forall k ensures Find(c.plans, k) == Find(d.plans, k) {
      SameFind(c.plans, d.plans, k);
    }
    forall k ensures Expected(g.plans, k) == Expected(h.plans, k) {
      KeyCovered(g.plans, h.plans, k);
      KeyCovered(h.plans, g.plans, k);
    }
    SameGoldPlanFaults(sha, tco, g.plans, h.plans, c, d, at);
    SameCandidateFaults(sha, g, h, c.plans, d.plans);
    UnionForgetsOrder(c.failures, d.failures, (f: Failure) => {ParseFault(sha, f)});
  }

  lemma CandidatePlansAreMapped(c: Batch)
    ensures CandidatePlans(c) == Map(c.plans, PlanOf)
  {
  }

  lemma LeastIsUnique(m: Time, n: Time, s: set<Time>)
    requires IsLeast(m, s) && IsLeast(n, s)
    ensures m == n
  {
  }

  lemma SameNumbers(sha: Hash, g: GoldSet, h: GoldSet, c: Batch, d: Batch)
    requires h == g.(plans := h.plans) && SamePlans(g.plans, h.plans)
    requires ValidBatch(c) && ValidBatch(d) && SameBatch(c, d)
    ensures GoldSetHash(sha, g) == GoldSetHash(sha, h) && BatchHash(sha, c) == BatchHash(sha, d)
    ensures Vendors(g.plans) == Vendors(h.plans) && |g.plans| == |h.plans| && LabelCount(g.plans) == LabelCount(h.plans)
    ensures |c.plans| == |d.plans| && |c.failures| == |d.failures| && FullCoverage(g.plans) == FullCoverage(h.plans)
  {
    SameGoldSetHash(sha, g, h);
    SameBatchParts(sha, c, d);
    SameCoverage(g.plans, h.plans);
    SameLength(g.plans, h.plans);
    SameLabelCount(g.plans, h.plans);
  }

  lemma PartsAreEqual(sha: Hash, g: GoldSet, h: GoldSet, c: Batch, d: Batch, at: Time, deadlines: set<Time>, faults: set<Item>)
    requires |c.plans| + |c.failures| > 0 && g.id == h.id && g.rights == h.rights
    requires GoldSetHash(sha, g) == GoldSetHash(sha, h) && BatchHash(sha, c) == BatchHash(sha, d)
    requires Vendors(g.plans) == Vendors(h.plans) && |g.plans| == |h.plans| && LabelCount(g.plans) == LabelCount(h.plans)
    requires |c.plans| == |d.plans| && |c.failures| == |d.failures| && FullCoverage(g.plans) == FullCoverage(h.plans)
    ensures PartsWith(sha, g, c, at, deadlines, faults) == PartsWith(sha, h, d, at, deadlines, faults)
  {
    assert FailureRate(c) == FailureRate(d);
  }

  lemma PartsAgree(sha: Hash, tco: Tco, g: GoldSet, h: GoldSet, c: Batch, d: Batch, at: Time)
    requires h == g.(plans := h.plans) && SamePlans(g.plans, h.plans)
    requires ValidBatch(c) && ValidBatch(d) && SameBatch(c, d)
    ensures PartsOf(sha, tco, g, c, at) == PartsOf(sha, tco, h, d, at)
  {
    SameFaults(sha, tco, g, h, c, d, at);
    SameDeadlines(g, h, c, d);
    SameNumbers(sha, g, h, c, d);
    PartsAreEqual(sha, g, h, c, d, at, Deadlines(g, c), Faults(sha, tco, g, c, at));
  }

  lemma PartsDetermineReport(sha: Hash, p: Parts, first: SealedReport, second: SealedReport)
    requires Reports(sha, p, first) && Reports(sha, p, second)
    ensures first == second
  {
    BeforeIsStrict(first.report.quarantines);
    SortedIsUnique(first.report.quarantines, second.report.quarantines, Before);
    LeastIsUnique(first.report.expiresAt, second.report.expiresAt, p.deadlines);
  }

  /** Reordering plans, labels, scenarios, candidate plans or parse failures changes
      nothing in the report, its digest included. */
  lemma OrderDoesNotMatter(sha: Hash, tco: Tco, g: GoldSet, h: GoldSet, c: Batch, d: Batch, at: Time,
                           first: SealedReport, second: SealedReport)
    requires ValidGoldSet(g) && ValidGoldSet(h) && SameGoldSet(g, h)
    requires ValidBatch(c) && ValidBatch(d) && SameBatch(c, d)
    requires Correct(sha, tco, g, c, at, first) && Correct(sha, tco, h, d, at, second)
    ensures first == second
  {
    CoveredMeansSame(g.plans, h.plans);
    PartsAgree(sha, tco, g, h, c, d, at);
    PartsDetermineReport(sha, PartsOf(sha, tco, g, c, at), first, second);
  }
}
