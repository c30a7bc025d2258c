/** What READY means, for how long it lasts, and which receipts bring it about. */
module LaunchHandoffReady {
  import opened Common
  import opened Sorting
  import opened LaunchHandoffTypes
  import opened LaunchHandoff
  import RepositoryAcceptance

  // ---------- One receipt per gate, in order ----------

  predicate InOrder(receipts: seq<Receipt>) {
    |receipts| == GATES && forall g: Gate :: receipts[g].body.gate == g
  }

  lemma {:induction false} OfOrderedPrefix(receipts: seq<Receipt>, n: nat, g: Gate)
    requires InOrder(receipts) && n <= GATES
    ensures Of(receipts[..n], g) == if g < n then [receipts[g]] else []
  {
    if n > 0 {
      OfOrderedPrefix(receipts, n - 1, g);
      var prefix, last := receipts[..n], receipts[n - 1];
      assert prefix[..n - 1] == receipts[..n - 1] && prefix[n - 1] == last;
      assert Of(prefix, g) == Of(receipts[..n - 1], g) + if last.body.gate == g then [last] else [];
    }
  }

  lemma OfOrdered(b: Bundle, g: Gate)
    requires InOrder(b.receipts)
    ensures Of(b.receipts, g) == [b.receipts[g]] && Single(b, g) == Some(b.receipts[g])
  {
    OfOrderedPrefix(b.receipts, GATES, g);
    assert b.receipts[..GATES] == b.receipts;
  }

  /** Sorted receipts with exactly one for each gate below n and none above. */
  lemma {:induction false} OneEachIsOrdered(receipts: seq<Receipt>, n: nat)
    requires n <= GATES && forall i, j | 0 <= i < j < |receipts| :: receipts[i].body.gate <= receipts[j].body.gate
    requires forall g: Gate :: |Of(receipts, g)| == if g < n then 1 else 0
    ensures |receipts| == n && forall i: nat | i < n :: receipts[i].body.gate == i
  {
    assert receipts == [] ==> |Of(receipts, 0)| == 0;
    if receipts != [] {
      var m := |receipts| - 1;
      var last := receipts[m].body.gate;
      assert receipts[m] in Of(receipts, last);
      LastGate(receipts, n);
      forall g: Gate ensures |Of(receipts[..m], g)| == if g < n - 1 then 1 else 0 {
        assert Of(receipts, g) == Of(receipts[..m], g) + if last == g then [receipts[m]] else [];
      }
      OneEachIsOrdered(receipts[..m], n - 1);
    }
  }

  lemma LastGate(receipts: seq<Receipt>, n: nat)
    requires receipts != [] && n <= GATES
    requires forall i, j | 0 <= i < j < |receipts| :: receipts[i].body.gate <= receipts[j].body.gate
    requires forall g: Gate :: |Of(receipts, g)| == if g < n then 1 else 0
    ensures n > 0 && receipts[|receipts| - 1].body.gate == n - 1
  {
    var last := receipts[|receipts| - 1];
    assert last in Of(receipts, last.body.gate);
    var top := Of(receipts, n - 1)[0];
    assert top in receipts && top.body.gate == n - 1;
  }

  // ---------- READY, declared ----------

  predicate SemanticsHold(inp: Input, semantic: SemanticOracle, at: Time)
    requires ValidInput(inp)
  {
    HasSemantics(inp) && inp.bundle.semantics.value.scope == inp.plan.scope
    && forall g: Gate | g > 0 :: SemanticHolds(inp, semantic, at, g)
  }

  predicate RepositoryHolds(inp: Input, residual: Residual, at: Time)
    requires ValidInput(inp)
  {
    inp.bundle.repository.Some? && RepositoryBound(inp, residual, at, inp.bundle.repository.value)
  }

  predicate PlanHolds(inp: Input, at: Time) {
    inp.plan.notBefore <= at < inp.plan.expiresAt && inp.plan.expiresAt - inp.plan.issuedAt <= inp.policy.maxPlanTtl
  }

  /** A verified, matching and current receipt. */
  predicate ReceiptHolds(inp: Input, semantic: SemanticOracle, at: Time, g: Gate, r: Receipt)
    requires ValidInput(inp) && HasSemantics(inp)
  {
    var q := inp.plan.requirements[g];
    && !r.body.synthetic && MatchesRequirement(r, q, inp.plan) && SignatureOk(r, KeyOf(inp.trust, g), q)
    && inp.plan.issuedAt <= r.body.observedAt <= at < r.body.expiresAt
    && r.body.expiresAt - r.body.observedAt <= MaxTtl(inp.policy, g)
    && (g > 0 ==> r.body.expiresAt <= semantic(inp.bundle.semantics.value, g, at).expiresAt)
  }

  /** Each receipt names the digest of the one before it, and none was observed earlier. */
  predicate Chained(receipts: seq<Receipt>) {
    forall g: nat | g < |receipts| :: FollowsAt(receipts, g)
  }

  predicate FollowsAt(receipts: seq<Receipt>, g: nat)
    requires g < |receipts|
  {
    && receipts[g].body.predecessor == PredecessorOf(receipts, g)
    && (g > 0 ==> receipts[g - 1].body.observedAt <= receipts[g].body.observedAt)
  }

  function PredecessorOf(receipts: seq<Receipt>, g: nat): Sha<ReceiptBody>
    requires g < |receipts|
  {
    if g == 0 then Zero else Sha(receipts[g - 1].body)
  }

  /** The receipt names its predecessor and no earlier one was observed later. */
  predicate LinkHolds(receipts: seq<Receipt>, g: nat)
    requires g < |receipts|
  {
    && receipts[g].body.predecessor == PredecessorOf(receipts, g)
    && forall h: nat | h < g :: receipts[h].body.observedAt <= receipts[g].body.observedAt
  }

  predicate DistinctIds(receipts: seq<Receipt>) {
    forall i, j | 0 <= i < j < |receipts| :: receipts[i].body.id != receipts[j].body.id
  }

  predicate Declared(inp: Input, semantic: SemanticOracle, residual: Residual, at: Time)
    requires ValidInput(inp)
  {
    && SemanticsHold(inp, semantic, at) && RepositoryHolds(inp, residual, at) && PlanHolds(inp, at)
    && InOrder(inp.bundle.receipts)
    && (forall g: Gate :: ReceiptHolds(inp, semantic, at, g, inp.bundle.receipts[g]))
    && DistinctIds(inp.bundle.receipts) && Chained(inp.bundle.receipts)
  }

  lemma DirectIsEmpty(inp: Input, semantic: SemanticOracle, residual: Residual, at: Time, g: Gate)
    requires ValidInput(inp)
    ensures DirectReasons(inp, semantic, residual, at, g) == {} <==>
            && SemanticReasons(inp, semantic, at, g) == {} && RepositoryReasons(inp, residual, at, g) == {}
            && PlanReasons(inp, at) == {} && ReceiptReasons(inp, semantic, at, g) == {} && ChainReasons(inp, g) == {}
  {
    var a, b, c := SemanticReasons(inp, semantic, at, g), RepositoryReasons(inp, residual, at, g), PlanReasons(inp, at);
    var d, e := ReceiptReasons(inp, semantic, at, g), ChainReasons(inp, g);
    var all := DirectReasons(inp, semantic, residual, at, g);
    assert all == a + b + c + d + e;
    assert a <= all && b <= all && c <= all && d <= all && e <= all;
  }

  /** The semantic evidence is what the requirement names. */
  predicate SemanticHolds(inp: Input, semantic: SemanticOracle, at: Time, g: Gate)
    requires ValidInput(inp) && HasSemantics(inp)
  {
    var s, q := semantic(inp.bundle.semantics.value, g, at), inp.plan.requirements[g];
    s.passed && q.components == s.components && q.evidence == s.evidence && q.subject == s.subject
  }

  lemma SemanticGate(inp: Input, semantic: SemanticOracle, at: Time, g: Gate)
    requires ValidInput(inp) && g > 0
    ensures SemanticReasons(inp, semantic, at, g) == {} <==>
            HasSemantics(inp) && inp.bundle.semantics.value.scope == inp.plan.scope && SemanticHolds(inp, semantic, at, g)
  {
  }

  lemma SemanticIsEmpty(inp: Input, semantic: SemanticOracle, at: Time)
    requires ValidInput(inp)
    ensures (forall g: Gate :: SemanticReasons(inp, semantic, at, g) == {}) <==> SemanticsHold(inp, semantic, at)
  {
    forall g: Gate | g > 0
      ensures SemanticReasons(inp, semantic, at, g) == {} <==>
              HasSemantics(inp) && inp.bundle.semantics.value.scope == inp.plan.scope && SemanticHolds(inp, semantic, at, g)
    {
      SemanticGate(inp, semantic, at, g);
    }
    SemanticGate(inp, semantic, at, 1);
  }

  lemma ReceiptIsEmpty(inp: Input, semantic: SemanticOracle, at: Time, g: Gate)
    requires ValidInput(inp) && HasSemantics(inp)
    ensures ReceiptReasons(inp, semantic, at, g) == {} <==>
            var rs := Of(inp.bundle.receipts, g);
            |rs| == 1 && !DuplicateId(inp.bundle, rs[0].body.id) && ReceiptHolds(inp, semantic, at, g, rs[0])
  {
    var rs := Of(inp.bundle.receipts, g);
    if |rs| == 1 {
      BindingIsEmpty(inp, g, rs[0]);
      TimesAreEmpty(inp, semantic, at, g, rs[0].body);
    }
  }

  lemma BindingIsEmpty(inp: Input, g: Gate, r: Receipt)
    requires ValidInput(inp)
    ensures var q := inp.plan.requirements[g];
            BindingReasons(inp, g, r) == {} <==>
            && !DuplicateId(inp.bundle, r.body.id) && !r.body.synthetic && MatchesRequirement(r, q, inp.plan)
            && SignatureOk(r, KeyOf(inp.trust, g), q)
  {
  }

  lemma TimesAreEmpty(inp: Input, semantic: SemanticOracle, at: Time, g: Gate, r: ReceiptBody)
    requires ValidInput(inp) && HasSemantics(inp)
    ensures TimeReasons(inp, semantic, at, g, r) == {} <==>
            && inp.plan.issuedAt <= r.observedAt <= at < r.expiresAt && r.expiresAt - r.observedAt <= MaxTtl(inp.policy, g)
            && (g > 0 ==> r.expiresAt <= semantic(inp.bundle.semantics.value, g, at).expiresAt)
  {
  }

  // ---------- The chain ----------

  lemma {:induction false} AdjacentIsMonotone(receipts: seq<Receipt>, h: nat, g: nat)
    requires h <= g < |receipts| && Chained(receipts)
    ensures receipts[h].body.observedAt <= receipts[g].body.observedAt
  {
    if h < g {
      AdjacentIsMonotone(receipts, h, g - 1);
      assert FollowsAt(receipts, g);
    }
  }

  lemma ChainGate(inp: Input, g: Gate)
    requires InOrder(inp.bundle.receipts)
    ensures ChainReasons(inp, g) == {} <==> LinkHolds(inp.bundle.receipts, g)
  {
    var b := inp.bundle;
    forall h: Gate ensures Single(b, h) == Some(b.receipts[h]) {
      OfOrdered(b, h);
    }
  }

  lemma ChainIsEmpty(inp: Input)
    requires InOrder(inp.bundle.receipts)
    ensures (forall g: Gate :: ChainReasons(inp, g) == {}) <==> Chained(inp.bundle.receipts)
  {
    var rs := inp.bundle.receipts;
    forall g: Gate ensures ChainReasons(inp, g) == {} <==> LinkHolds(rs, g) {
      ChainGate(inp, g);
    }
    LinksAreChain(rs);
  }

  lemma LinksAreChain(receipts: seq<Receipt>)
    requires |receipts| == GATES
    ensures (forall g: Gate :: LinkHolds(receipts, g)) <==> Chained(receipts)
  {
    if Chained(receipts) {
      forall g: Gate ensures LinkHolds(receipts, g) {
        assert FollowsAt(receipts, g);
        forall h: nat | h < g ensures receipts[h].body.observedAt <= receipts[g].body.observedAt {
          AdjacentIsMonotone(receipts, h, g);
        }
      }
    }
    if forall g: Gate :: LinkHolds(receipts, g) {
      forall g: nat | g < |receipts| ensures FollowsAt(receipts, g) {
        assert LinkHolds(receipts, g);
      }
    }
  }

  lemma RepositoryIsEmpty(inp: Input, residual: Residual, at: Time)
    requires ValidInput(inp)
    ensures (forall g: Gate :: RepositoryReasons(inp, residual, at, g) == {}) <==> RepositoryHolds(inp, residual, at)
  {
    assert RepositoryReasons(inp, residual, at, 0) == {} <==> RepositoryHolds(inp, residual, at);
  }

  // ---------- READY is what is declared ----------

  lemma NoReceiptReasonIsOrdered(inp: Input, semantic: SemanticOracle, at: Time)
    requires ValidInput(inp) && HasSemantics(inp)
    requires forall g: Gate :: ReceiptReasons(inp, semantic, at, g) == {}
    ensures InOrder(inp.bundle.receipts)
  {
    forall g: Gate ensures |Of(inp.bundle.receipts, g)| == 1 {
      ReceiptIsEmpty(inp, semantic, at, g);
    }
    OneEachIsOrdered(inp.bundle.receipts, GATES);
  }

  lemma OrderedReceiptIsEmpty(inp: Input, semantic: SemanticOracle, at: Time, g: Gate)
    requires ValidInput(inp) && HasSemantics(inp) && InOrder(inp.bundle.receipts)
    ensures var r := inp.bundle.receipts[g];
            ReceiptReasons(inp, semantic, at, g) == {} <==>
            !DuplicateId(inp.bundle, r.body.id) && ReceiptHolds(inp, semantic, at, g, r)
  {
    OfOrdered(inp.bundle, g);
    ReceiptIsEmpty(inp, semantic, at, g);
  }

  lemma ReceiptsAreEmpty(inp: Input, semantic: SemanticOracle, at: Time)
    requires ValidInput(inp) && HasSemantics(inp)
    ensures (forall g: Gate :: ReceiptReasons(inp, semantic, at, g) == {}) <==>
            && InOrder(inp.bundle.receipts) && DistinctIds(inp.bundle.receipts)
            && forall g: Gate :: ReceiptHolds(inp, semantic, at, g, inp.bundle.receipts[g])
  {
    var rs := inp.bundle.receipts;
    if forall g: Gate :: ReceiptReasons(inp, semantic, at, g) == {} {
      NoReceiptReasonIsOrdered(inp, semantic, at);
    }
    if InOrder(rs) {
      forall g: Gate
        ensures ReceiptReasons(inp, semantic, at, g) == {} <==>
                !DuplicateId(inp.bundle, rs[g].body.id) && ReceiptHolds(inp, semantic, at, g, rs[g])
      {
        OrderedReceiptIsEmpty(inp, semantic, at, g);
      }
      assert DistinctIds(rs) <==> forall g: Gate :: !DuplicateId(inp.bundle, rs[g].body.id);
    }
  }

  lemma ReadyParts(inp: Input, semantic: SemanticOracle, residual: Residual, at: Time)
    requires ValidInput(inp)
    ensures Ready(inp, semantic, residual, at) <==>
            && (forall g: Gate :: SemanticReasons(inp, semantic, at, g) == {})
            && (forall g: Gate :: RepositoryReasons(inp, residual, at, g) == {})
            && PlanReasons(inp, at) == {}
            && (forall g: Gate :: ReceiptReasons(inp, semantic, at, g) == {})
            && forall g: Gate :: ChainReasons(inp, g) == {}
  {
    if Ready(inp, semantic, residual, at) {
      forall g: Gate
        ensures SemanticReasons(inp, semantic, at, g) == {} && RepositoryReasons(inp, residual, at, g) == {}
        ensures PlanReasons(inp, at) == {} && ReceiptReasons(inp, semantic, at, g) == {} && ChainReasons(inp, g) == {}
      {
        assert DirectReasons(inp, semantic, residual, at, g) == {};
        DirectIsEmpty(inp, semantic, residual, at, g);
      }
      DirectIsEmpty(inp, semantic, residual, at, 0);
    } else {
      var g: Gate :| DirectReasons(inp, semantic, residual, at, g) != {};
      DirectIsEmpty(inp, semantic, residual, at, g);
    }
  }

  /** READY holds exactly when the evidence, the plan and the receipt chain are as declared. */
  lemma ReadyIff(inp: Input, semantic: SemanticOracle, residual: Residual, at: Time)
    requires ValidInput(inp)
    ensures Ready(inp, semantic, residual, at) <==> Declared(inp, semantic, residual, at)
  {
    ReadyParts(inp, semantic, residual, at);
    SemanticIsEmpty(inp, semantic, at);
    RepositoryIsEmpty(inp, residual, at);
    assert PlanReasons(inp, at) == {} <==> PlanHolds(inp, at);
    if HasSemantics(inp) {
      ReceiptsAreEmpty(inp, semantic, at);
    }
    if InOrder(inp.bundle.receipts) {
      ChainIsEmpty(inp);
    }
  }

  // ---------- Shape and validity of every report ----------

  /** Passed gates are an initial segment of the order, and a gate fails exactly when
      some finding names it. */
  lemma PassedIsPrefix(inp: Input, semantic: SemanticOracle, residual: Residual, at: Time, r: Report) returns (n: nat)
    requires ValidInput(inp) && Correct(inp, semantic, residual, at, r)
    ensures n <= GATES && forall g: Gate :: (g in r.passed <==> g < n) && (g in r.failed <==> n <= g)
    ensures forall g: Gate :: g in r.failed <==> exists f :: f in r.findings && f.gate == g
  {
    n := 0;
    while n < GATES && DirectReasons(inp, semantic, residual, at, n) == {}
      invariant n <= GATES && forall g: nat | g < n :: DirectReasons(inp, semantic, residual, at, g) == {}
    {
      n := n + 1;
    }
    forall g: Gate ensures AllReasons(inp, semantic, residual, at, g) == {} <==> g < n {
      HeldFrom(inp, semantic, residual, at, n, g);
    }
    FailedIsFound(inp, semantic, residual, at, r);
  }

  lemma FailedIsFound(inp: Input, semantic: SemanticOracle, residual: Residual, at: Time, r: Report)
    requires ValidInput(inp) && Correct(inp, semantic, residual, at, r)
    ensures forall g: Gate :: g in r.failed <==> exists f :: f in r.findings && f.gate == g
  {
    forall g: Gate | g in r.failed ensures exists f :: f in r.findings && f.gate == g {
      var reason :| reason in AllReasons(inp, semantic, residual, at, g);
      assert Finding(g, reason) in r.findings;
    }
  }

  /** The first directly held gate blocks every later one. */
  lemma HeldFrom(inp: Input, semantic: SemanticOracle, residual: Residual, at: Time, n: nat, g: Gate)
    requires ValidInput(inp) && n <= GATES
    requires forall h: nat | h < n :: DirectReasons(inp, semantic, residual, at, h) == {}
    requires n < GATES ==> DirectReasons(inp, semantic, residual, at, n) != {}
    ensures AllReasons(inp, semantic, residual, at, g) == {} <==> g < n
  {
    var all := AllReasons(inp, semantic, residual, at, g);
    assert DirectReasons(inp, semantic, residual, at, g) <= all;
    if g < n {
      assert !Blocked(inp, semantic, residual, at, g);
    } else if g > n {
      assert Blocked(inp, semantic, residual, at, g);
      assert PrerequisiteNotMet in all;
    }
  }

  lemma ReceiptDeadlineIsLater(inp: Input, semantic: SemanticOracle, at: Time, d: Time)
    requires ValidInput(inp) && HasSemantics(inp) && InOrder(inp.bundle.receipts)
    requires forall g: Gate :: ReceiptHolds(inp, semantic, at, g, inp.bundle.receipts[g])
    requires d in ReceiptDeadlines(inp.bundle, GATES)
    ensures at < d
  {
    var g: Gate :| g < GATES && Single(inp.bundle, g).Some? && Single(inp.bundle, g).value.body.expiresAt == d;
    OfOrdered(inp.bundle, g);
    assert ReceiptHolds(inp, semantic, at, g, inp.bundle.receipts[g]);
  }

  lemma SemanticDeadlineIsLater(inp: Input, semantic: SemanticOracle, at: Time, d: Time)
    requires ValidInput(inp) && HasSemantics(inp) && InOrder(inp.bundle.receipts)
    requires forall g: Gate :: ReceiptHolds(inp, semantic, at, g, inp.bundle.receipts[g])
    requires d in SemanticDeadlines(inp.bundle.semantics.value, semantic, at, GATES)
    ensures at < d
  {
    var g: Gate :| 0 < g < GATES && semantic(inp.bundle.semantics.value, g, at).expiresAt == d;
    assert ReceiptHolds(inp, semantic, at, g, inp.bundle.receipts[g]);
  }

  lemma DeadlineKinds(inp: Input, semantic: SemanticOracle, at: Time, d: Time)
    requires HasSemantics(inp) && inp.bundle.repository.Some? && d in Deadlines(inp, semantic, at)
    ensures || d in SemanticDeadlines(inp.bundle.semantics.value, semantic, at, GATES)
            || d in RepositoryAcceptance.Expiries(inp.bundle.repository.value)
            || d in ReceiptDeadlines(inp.bundle, GATES)
            || d == inp.plan.expiresAt || d == at + inp.policy.maxReportTtl
  {
  }

  lemma ReadyDeadlines(inp: Input, semantic: SemanticOracle, residual: Residual, at: Time, d: Time)
    requires ValidInput(inp) && Declared(inp, semantic, residual, at)
    requires d in Deadlines(inp, semantic, at)
    ensures at < d
  {
    DeadlineKinds(inp, semantic, at, d);
    RepositoryAcceptance.AcceptedIsUnexpired(inp.bundle.repository.value, residual, at);
    if d in SemanticDeadlines(inp.bundle.semantics.value, semantic, at, GATES) {
      SemanticDeadlineIsLater(inp, semantic, at, d);
    } else if d in ReceiptDeadlines(inp.bundle, GATES) {
      ReceiptDeadlineIsLater(inp, semantic, at, d);
    }
  }

  /** The report's own validator accepts every output: no evidence of a ready report,
      the accepted repository bundle included, has run out. */
  lemma EveryReportIsValid(inp: Input, semantic: SemanticOracle, residual: Residual, at: Time, r: Report)
    requires ValidInput(inp) && Correct(inp, semantic, residual, at, r)
    ensures ValidReport(r)
  {
    ReadyMeansEmpty(inp, semantic, residual, at, r);
    if r.ready {
      ReadyIff(inp, semantic, residual, at);
      ReadyDeadlines(inp, semantic, residual, at, r.expiresAt);
    }
  }

  /** The evaluation raises exactly when the consumer's roots do not bind. */
  method EvaluateHandoff(inp: Input, semantic: SemanticOracle, residual: Residual, at: Time)
    returns (r: Result<Report, HandoffError>)
    requires ValidInput(inp)
    ensures r == Err(BindingMismatch) <==> !Bound(inp)
    ensures r.Ok? <==> Bound(inp)
    ensures r.Ok? ==> Correct(inp, semantic, residual, at, r.value) && ValidReport(r.value)
  {
    if !Bound(inp) {
      return Err(BindingMismatch);
    }
    var report := BuildReport(inp, semantic, residual, at);
    EveryReportIsValid(inp, semantic, residual, at, report);
    r := ValidateReport(report);
  }

  // ---------- How long READY lasts ----------

  /** The undated checks of a repository bundle keep passing until one of its expiries. */
  ghost predicate ResidualContract(residual: Residual) {
    forall p, t, u :: residual(p, t) && t <= u && (forall e | e in RepositoryAcceptance.Expiries(p) :: u < e) ==> residual(p, u)
  }

  /** A passing semantic result stays what it is until its own expiry. */
  ghost predicate SemanticContract(semantic: SemanticOracle) {
    forall p, g, t, u :: semantic(p, g, t).passed && t <= u < semantic(p, g, t).expiresAt ==> semantic(p, g, u) == semantic(p, g, t)
  }

  lemma ReceiptStillHolds(inp: Input, semantic: SemanticOracle, at: Time, later: Time, g: Gate)
    requires ValidInput(inp) && SemanticsHold(inp, semantic, at) && InOrder(inp.bundle.receipts) && SemanticContract(semantic)
    requires ReceiptHolds(inp, semantic, at, g, inp.bundle.receipts[g])
    requires at <= later && forall d | d in Deadlines(inp, semantic, at) :: later < d
    ensures ReceiptHolds(inp, semantic, later, g, inp.bundle.receipts[g])
    ensures g > 0 ==> SemanticHolds(inp, semantic, later, g)
  {
    OfOrdered(inp.bundle, g);
    var r := Single(inp.bundle, g).value.body;
    assert r.expiresAt in ReceiptDeadlines(inp.bundle, GATES);
    assert r.expiresAt in Deadlines(inp, semantic, at);
    if g > 0 {
      var s := semantic(inp.bundle.semantics.value, g, at);
      assert SemanticHolds(inp, semantic, at, g);
      assert later < r.expiresAt <= s.expiresAt;
      assert semantic(inp.bundle.semantics.value, g, later) == s;
    }
  }

  lemma RepositoryStillHolds(inp: Input, semantic: SemanticOracle, residual: Residual, at: Time, later: Time)
    requires ValidInput(inp) && RepositoryHolds(inp, residual, at) && ResidualContract(residual)
    requires at <= later && forall d | d in Deadlines(inp, semantic, at) :: later < d
    ensures RepositoryHolds(inp, residual, later)
  {
    var p := inp.bundle.repository.value;
    forall e | e in RepositoryAcceptance.Expiries(p) ensures later < e {
      assert e in Elements(RepositoryAcceptance.Expiries(p)) && e in Deadlines(inp, semantic, at);
    }
    RepositoryAcceptance.AcceptedUntilExpiry(p, residual, at, later);
  }

  /** READY at one instant is READY at every later one before the report's expiry, if the
      two evaluators keep their answers until their own expiries. */
  lemma ReadyLasts(inp: Input, semantic: SemanticOracle, residual: Residual, at: Time, r: Report, later: Time)
    requires ValidInput(inp) && Correct(inp, semantic, residual, at, r) && r.ready
    requires ResidualContract(residual) && SemanticContract(semantic)
    requires at <= later < r.expiresAt
    ensures Ready(inp, semantic, residual, later)
  {
    ReadyIff(inp, semantic, residual, at);
    ReadyIff(inp, semantic, residual, later);
    assert inp.plan.expiresAt in Deadlines(inp, semantic, at);
    RepositoryStillHolds(inp, semantic, residual, at, later);
    forall g: Gate
      ensures ReceiptHolds(inp, semantic, later, g, inp.bundle.receipts[g])
      ensures g > 0 ==> SemanticHolds(inp, semantic, later, g)
    {
      ReceiptStillHolds(inp, semantic, at, later, g);
    }
  }

  // ---------- The last receipt names the chain ----------

  lemma {:induction false} ChainIsNamed(xs: seq<Receipt>, ys: seq<Receipt>, n: nat, i: nat)
    requires Chained(xs) && Chained(ys) && i <= n < |xs| && n < |ys| && xs[n].body == ys[n].body
    ensures xs[i].body == ys[i].body
  {
    if i < n {
      SamePredecessor(xs, ys, n);
      ChainIsNamed(xs, ys, n - 1, i);
    }
  }

  lemma SamePredecessor(xs: seq<Receipt>, ys: seq<Receipt>, n: nat)
    requires Chained(xs) && Chained(ys) && 0 < n < |xs| && n < |ys| && xs[n].body == ys[n].body
    ensures xs[n - 1].body == ys[n - 1].body
  {
    assert FollowsAt(xs, n) && FollowsAt(ys, n);
  }

  /** Two READY bundles whose last receipts have one digest hold the same eight receipts,
      signatures aside. */
  lemma LastReceiptNamesAll(x: Input, y: Input, semantic: SemanticOracle, residual: Residual, at: Time, u: Time)
    requires ValidInput(x) && ValidInput(y) && Ready(x, semantic, residual, at) && Ready(y, semantic, residual, u)
    requires x.bundle.receipts != [] && y.bundle.receipts != []
    requires Sha(x.bundle.receipts[|x.bundle.receipts| - 1].body) == Sha(y.bundle.receipts[|y.bundle.receipts| - 1].body)
    ensures |x.bundle.receipts| == |y.bundle.receipts| == GATES
    ensures forall g: Gate :: x.bundle.receipts[g].body == y.bundle.receipts[g].body
  {
    ReadyIff(x, semantic, residual, at);
    ReadyIff(y, semantic, residual, u);
    forall g: Gate ensures x.bundle.receipts[g].body == y.bundle.receipts[g].body {
      ChainIsNamed(x.bundle.receipts, y.bundle.receipts, GATES - 1, g);
    }
  }

  // ---------- Signing in order ----------

  datatype SigningError = PolicyMismatch | UnknownRequirement | WrongPredecessor

  /** What one signer chooses. */
  datatype Signing = Signing(id: Id, issuer: Id, keyId: Id, synthetic: bool, observedAt: Time, expiresAt: Time, nonce: nat)

  function SignReceipt(plan: Plan, policy: Policy, q: Requirement, s: Signing, predecessor: Option<Receipt>)
    : Result<Receipt, SigningError>
  {
    if plan.policy != Sha(policy) then Err(PolicyMismatch)
    else if q !in plan.requirements then Err(UnknownRequirement)
    else if q.gate == 0 && predecessor.Some? then Err(WrongPredecessor)
    else if q.gate > 0 && (predecessor.None? || predecessor.value.body.gate != q.gate - 1
                           || predecessor.value.body.plan != Sha(plan) || predecessor.value.body.policy != plan.policy)
    then Err(WrongPredecessor)
    else
      var previous := if q.gate == 0 then Zero else Sha(predecessor.value.body);
      var body := ReceiptBody(
        s.id, q.gate, previous, Sha(plan), plan.policy, Sha(q), q.evidence, plan.scope.candidate, plan.scope.property,
        plan.scope.environment, plan.scope.deployment, q.artifact, q.subject, q.command, q.tool, q.version,
        s.synthetic, s.observedAt, s.expiresAt, s.issuer, s.keyId, q.role);
      Ok(Receipt(body, Signature(s.keyId, body, s.nonce)))
  }

  /** Each receipt was signed for its gate's requirement on top of the one before it. */
  predicate SignedInOrder(plan: Plan, policy: Policy, signings: seq<Signing>, receipts: seq<Receipt>)
    requires ValidPlan(plan)
  {
    && |signings| == |receipts| == GATES
    && forall g: Gate ::
         SignReceipt(plan, policy, plan.requirements[g], signings[g], Prior(receipts, g)) == Ok(receipts[g])
  }

  /** The receipt a signer is handed as predecessor. */
  function Prior(receipts: seq<Receipt>, g: nat): Option<Receipt>
    requires g <= |receipts|
  {
    if g > 0 then Some(receipts[g - 1]) else None
  }

  /** The signer holds the gate's key, did not mark the record synthetic, and chose times
      inside the plan, the policy and the semantic evidence. */
  predicate SigningAllowed(inp: Input, semantic: SemanticOracle, at: Time, g: Gate, s: Signing)
    requires ValidInput(inp) && HasSemantics(inp)
  {
    var key, q := KeyOf(inp.trust, g), inp.plan.requirements[g];
    && s.issuer == key.issuer && s.keyId == key.keyId == q.keyId && !s.synthetic
    && inp.plan.issuedAt <= s.observedAt <= at < s.expiresAt && s.expiresAt - s.observedAt <= MaxTtl(inp.policy, g)
    && (g > 0 ==> s.expiresAt <= semantic(inp.bundle.semantics.value, g, at).expiresAt)
  }

  /** What a successful signer has put into the receipt. */
  predicate IsSignedAs(plan: Plan, q: Requirement, s: Signing, predecessor: Option<Receipt>, r: Receipt) {
    && r.body.gate == q.gate && (s.keyId == q.keyId ==> MatchesRequirement(r, q, plan))
    && r.signature == Signature(s.keyId, r.body, s.nonce)
    && r.body.plan == Sha(plan) && r.body.policy == plan.policy
    && (if q.gate == 0 then r.body.predecessor == Zero
        else predecessor.Some? && r.body.predecessor == Sha(predecessor.value.body))
    && r.body.id == s.id && r.body.issuer == s.issuer && r.body.keyId == s.keyId && r.body.role == q.role
    && r.body.synthetic == s.synthetic && r.body.observedAt == s.observedAt && r.body.expiresAt == s.expiresAt
  }

  lemma SignedBody(plan: Plan, policy: Policy, q: Requirement, s: Signing, predecessor: Option<Receipt>)
    requires SignReceipt(plan, policy, q, s, predecessor).Ok?
    ensures IsSignedAs(plan, q, s, predecessor, SignReceipt(plan, policy, q, s, predecessor).value)
  {
  }

  lemma SignedReceiptHolds(inp: Input, semantic: SemanticOracle, at: Time, signings: seq<Signing>, g: Gate)
    requires ValidInput(inp) && HasSemantics(inp) && SignedInOrder(inp.plan, inp.policy, signings, inp.bundle.receipts)
    requires SigningAllowed(inp, semantic, at, g, signings[g])
    ensures SignedAs(inp, semantic, at, g, signings[g])
  {
    var receipts, q := inp.bundle.receipts, inp.plan.requirements[g];
    assert SignReceipt(inp.plan, inp.policy, q, signings[g], Prior(receipts, g)) == Ok(receipts[g]);
    SignedBody(inp.plan, inp.policy, q, signings[g], Prior(receipts, g));
    IsSignedHolds(inp, semantic, at, signings[g], g);
  }

  lemma IsSignedHolds(inp: Input, semantic: SemanticOracle, at: Time, s: Signing, g: Gate)
    requires ValidInput(inp) && HasSemantics(inp) && |inp.bundle.receipts| == GATES
    requires IsSignedAs(inp.plan, inp.plan.requirements[g], s, Prior(inp.bundle.receipts, g), inp.bundle.receipts[g])
    requires SigningAllowed(inp, semantic, at, g, s)
    ensures SignedAs(inp, semantic, at, g, s)
  {
    assert inp.plan.requirements[g].gate == g && inp.plan.requirements[g].role == RoleOf(g);
  }

  predicate GateBefore(a: Receipt, b: Receipt) {
    a.body.gate < b.body.gate
  }

  /** With one receipt per gate the bundle builder's sort gives the gate order, whatever
      order the receipts arrive in. */
  lemma BuilderRestoresOrder(arrived: seq<Receipt>, receipts: seq<Receipt>)
    requires InOrder(receipts) && Elements(arrived) == Elements(receipts)
    ensures Sort(arrived, GateBefore) == receipts
  {
    forall x, y | x in arrived && y in arrived && x != y ensures GateBefore(x, y) || GateBefore(y, x) {
      assert x in Elements(receipts) && y in Elements(receipts);
      var i: nat :| i < |receipts| && receipts[i] == x;
      var j: nat :| j < |receipts| && receipts[j] == y;
      assert receipts[i].body.gate == i && receipts[j].body.gate == j;
    }
    SortSorts(arrived, GateBefore);
    SortedIsUnique(Sort(arrived, GateBefore), receipts, GateBefore);
  }

  predicate SignedAs(inp: Input, semantic: SemanticOracle, at: Time, g: Gate, s: Signing)
    requires ValidInput(inp) && HasSemantics(inp) && |inp.bundle.receipts| == GATES
  {
    var r := inp.bundle.receipts[g];
    && r.body.gate == g && ReceiptHolds(inp, semantic, at, g, r)
    && r.body.predecessor == PredecessorOf(inp.bundle.receipts, g)
    && r.body.observedAt == s.observedAt && r.body.id == s.id
  }

  lemma SignedLink(inp: Input, semantic: SemanticOracle, at: Time, signings: seq<Signing>, g: Gate)
    requires ValidInput(inp) && HasSemantics(inp) && |inp.bundle.receipts| == |signings| == GATES
    requires forall h: Gate :: SignedAs(inp, semantic, at, h, signings[h])
    requires forall i, j | 0 <= i < j < GATES :: signings[i].observedAt <= signings[j].observedAt
    ensures FollowsAt(inp.bundle.receipts, g)
  {
    assert SignedAs(inp, semantic, at, g, signings[g]);
    if g > 0 {
      assert SignedAs(inp, semantic, at, g - 1, signings[g - 1]);
    }
  }

  lemma SignedIds(inp: Input, semantic: SemanticOracle, at: Time, signings: seq<Signing>)
    requires ValidInput(inp) && HasSemantics(inp) && |inp.bundle.receipts| == |signings| == GATES
    requires forall h: Gate :: SignedAs(inp, semantic, at, h, signings[h])
    requires forall i, j | 0 <= i < j < GATES :: signings[i].id != signings[j].id
    ensures DistinctIds(inp.bundle.receipts)
  {
    var rs := inp.bundle.receipts;
    forall i, j | 0 <= i < j < |rs| ensures rs[i].body.id != rs[j].body.id {
      assert SignedAs(inp, semantic, at, i, signings[i]) && SignedAs(inp, semantic, at, j, signings[j]);
    }
  }

  lemma SignedChain(inp: Input, semantic: SemanticOracle, at: Time, signings: seq<Signing>)
    requires ValidInput(inp) && HasSemantics(inp) && |inp.bundle.receipts| == |signings| == GATES
    requires forall g: Gate :: SignedAs(inp, semantic, at, g, signings[g])
    requires forall i, j | 0 <= i < j < GATES :: signings[i].id != signings[j].id && signings[i].observedAt <= signings[j].observedAt
    ensures InOrder(inp.bundle.receipts) && DistinctIds(inp.bundle.receipts) && Chained(inp.bundle.receipts)
    ensures forall g: Gate :: ReceiptHolds(inp, semantic, at, g, inp.bundle.receipts[g])
  {
    SignedIds(inp, semantic, at, signings);
    forall g: nat | g < |inp.bundle.receipts| ensures FollowsAt(inp.bundle.receipts, g) {
      SignedLink(inp, semantic, at, signings, g);
    }
    forall g: Gate ensures inp.bundle.receipts[g].body.gate == g && ReceiptHolds(inp, semantic, at, g, inp.bundle.receipts[g]) {
      assert SignedAs(inp, semantic, at, g, signings[g]);
    }
  }

  /** Receipts signed gate after gate evaluate to READY whenever both evaluators pass. */
  lemma SignedInOrderIsReady(inp: Input, semantic: SemanticOracle, residual: Residual, at: Time, signings: seq<Signing>)
    requires ValidInput(inp) && SignedInOrder(inp.plan, inp.policy, signings, inp.bundle.receipts)
    requires SemanticsHold(inp, semantic, at) && RepositoryHolds(inp, residual, at) && PlanHolds(inp, at)
    requires forall g: Gate :: SigningAllowed(inp, semantic, at, g, signings[g])
    requires forall i, j | 0 <= i < j < GATES :: signings[i].id != signings[j].id && signings[i].observedAt <= signings[j].observedAt
    ensures Ready(inp, semantic, residual, at)
  {
    forall g: Gate ensures SignedAs(inp, semantic, at, g, signings[g]) {
      SignedReceiptHolds(inp, semantic, at, signings, g);
    }
    SignedChain(inp, semantic, at, signings);
    ReadyIff(inp, semantic, residual, at);
  }
}
