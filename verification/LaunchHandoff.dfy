/** The handoff evaluator: five passes over the gates, each growing the findings and
    the failed gates, then the decision and its expiry. */
module LaunchHandoff {
  import opened Common
  import opened Sorting
  import opened LaunchHandoffTypes
  import RepositoryAcceptance

  /** The raised errors: the roots do not bind, or the report's own validator refuses it. */
  datatype HandoffError = BindingMismatch | ReportInvalid

  datatype Report = Report(ready: bool, at: Time, authority: Sha<(Plan, Policy, Trust)>, bundle: Sha<Bundle>,
                           findings: seq<Finding>, passed: seq<Gate>, failed: seq<Gate>, expiresAt: Time)

  datatype Tally = Tally(findings: set<Finding>, failed: set<Gate>)

  // ---------- Passes over the gates ----------

  ghost function FindingsBelow(n: nat, f: Gate -> set<Reason>): set<Finding> {
    set g: Gate, r: Reason | g < n && r in f(g) :: Finding(g, r)
  }

  ghost function GatesBelow(n: nat, f: Gate -> set<Reason>): set<Gate> {
    set g: Gate | g < n && f(g) != {}
  }

  ghost predicate Extends(t: Tally, t': Tally, n: nat, f: Gate -> set<Reason>) {
    t'.findings == t.findings + FindingsBelow(n, f) && t'.failed == t.failed + GatesBelow(n, f)
  }

  function Hold(t: Tally, g: Gate, reasons: set<Reason>): Tally {
    if reasons == {} then t else Tally(t.findings + (set r | r in reasons :: Finding(g, r)), t.failed + {g})
  }

  lemma HoldExtends(t: Tally, u: Tally, g: Gate, f: Gate -> set<Reason>)
    requires Extends(t, u, g, f)
    ensures Extends(t, Hold(u, g, f(g)), g + 1, f)
  {
    var v := Hold(u, g, f(g));
    assert FindingsBelow(g + 1, f) == FindingsBelow(g, f) + set r | r in f(g) :: Finding(g, r);
    assert GatesBelow(g + 1, f) == GatesBelow(g, f) + if f(g) == {} then {} else {g};
  }

  method CheckSemantics(inp: Input, semantic: SemanticOracle, at: Time, t: Tally) returns (u: Tally)
    requires ValidInput(inp)
    ensures Extends(t, u, GATES, (g: Gate) => SemanticReasons(inp, semantic, at, g))
  {
    ghost var f := (g: Gate) => SemanticReasons(inp, semantic, at, g);
    u := t;
    for g := 0 to GATES
      invariant Extends(t, u, g, f)
    {
      HoldExtends(t, u, g, f);
      if g > 0 {
        if !HasSemantics(inp) {
          u := Hold(u, g, {SemanticEvidenceMissing});
        } else {
          var packet, requirement := inp.bundle.semantics.value, inp.plan.requirements[g];
          var result := semantic(packet, g, at);
          var reasons: set<Reason> := {};
          if packet.scope != inp.plan.scope {
            reasons := reasons + {SemanticScopeMismatch};
          }
          if !result.passed {
            reasons := reasons + {SemanticEvidenceInvalid};
          }
          if requirement.components != result.components || requirement.evidence != result.evidence
             || requirement.subject != result.subject {
            reasons := reasons + {SemanticRequirementMismatch};
          }
          assert reasons == f(g);
          u := Hold(u, g, reasons);
        }
      }
    }
  }

  method CheckRepository(inp: Input, residual: Residual, at: Time, t: Tally) returns (u: Tally)
    requires ValidInput(inp)
    ensures Extends(t, u, GATES, (g: Gate) => RepositoryReasons(inp, residual, at, g))
  {
    ghost var f := (g: Gate) => RepositoryReasons(inp, residual, at, g);
    var reasons: set<Reason> := {};
    if inp.bundle.repository.None? {
      reasons := {RepositoryAcceptanceMissing};
    } else {
      var p, q := inp.bundle.repository.value, inp.plan.requirements[0];
      var decision := RepositoryAcceptance.EvaluateBundle(p, residual, at);
      if q.components[0] != p.component || q.evidence != p.receipt || q.subject != p.tree
         || inp.plan.scope.candidate != p.manifest || !decision.Accepted? {
        reasons := {RepositoryAcceptanceInvalid};
      }
    }
    u := Hold(t, 0, reasons);
    assert FindingsBelow(GATES, f) == set r | r in reasons :: Finding(0, r);
    assert GatesBelow(GATES, f) == if reasons == {} then {} else {0};
  }

  /** One reason for every gate. */
  method FailAll(t: Tally, reason: Reason) returns (u: Tally)
    ensures Extends(t, u, GATES, (g: Gate) => {reason})
  {
    ghost var f := (g: Gate) => {reason};
    u := t;
    for g := 0 to GATES
      invariant Extends(t, u, g, f)
    {
      HoldExtends(t, u, g, f);
      u := Hold(u, g, {reason});
    }
  }

  method FailAllIf(holds: bool, t: Tally, reason: Reason) returns (u: Tally)
    ensures Extends(t, u, GATES, (g: Gate) => Reasons(holds, reason))
  {
    if holds {
      u := FailAll(t, reason);
      SameExtends(t, u, GATES, (g: Gate) => {reason}, (g: Gate) => Reasons(holds, reason));
    } else {
      u := t;
    }
  }

  lemma SameExtends(t: Tally, u: Tally, n: nat, f: Gate -> set<Reason>, h: Gate -> set<Reason>)
    requires Extends(t, u, n, f) && forall g: Gate :: f(g) == h(g)
    ensures Extends(t, u, n, h)
  {
    assert FindingsBelow(n, f) == FindingsBelow(n, h) && GatesBelow(n, f) == GatesBelow(n, h);
  }

  lemma ExtendsTwice(t: Tally, u: Tally, v: Tally, n: nat, f: Gate -> set<Reason>, h: Gate -> set<Reason>, both: Gate -> set<Reason>)
    requires Extends(t, u, n, f) && Extends(u, v, n, h) && forall g: Gate :: both(g) == f(g) + h(g)
    ensures Extends(t, v, n, both)
  {
    assert FindingsBelow(n, both) == FindingsBelow(n, f) + FindingsBelow(n, h);
    assert GatesBelow(n, both) == GatesBelow(n, f) + GatesBelow(n, h);
  }

  method CheckPlan(inp: Input, at: Time, t: Tally) returns (u: Tally)
    ensures Extends(t, u, GATES, (g: Gate) => PlanReasons(inp, at))
  {
    var future, expired := inp.plan.notBefore > at, inp.plan.expiresAt <= at;
    var long := inp.plan.expiresAt - inp.plan.issuedAt > inp.policy.maxPlanTtl;
    var first := FailAllIf(future, t, PlanFuture);
    var second := FailAllIf(expired, first, PlanExpired);
    u := FailAllIf(long, second, PlanTtlExceeded);
    ghost var a, b := (g: Gate) => Reasons(future, PlanFuture), (g: Gate) => Reasons(expired, PlanExpired);
    ghost var c := (g: Gate) => Reasons(long, PlanTtlExceeded);
    ghost var ab := (g: Gate) => Reasons(future, PlanFuture) + Reasons(expired, PlanExpired);
    ExtendsTwice(t, first, second, GATES, a, b, ab);
    ExtendsTwice(t, second, u, GATES, ab, c, (g: Gate) => PlanReasons(inp, at));
  }

  method CheckBinding(inp: Input, g: Gate, r: Receipt) returns (reasons: set<Reason>)
    requires ValidInput(inp)
    ensures reasons == BindingReasons(inp, g, r)
  {
    var q := inp.plan.requirements[g];
    reasons := {};
    if DuplicateId(inp.bundle, r.body.id) {
      reasons := reasons + {DuplicateReceipt};
    }
    if r.body.synthetic {
      reasons := reasons + {SyntheticReceipt};
    }
    if !MatchesRequirement(r, q, inp.plan) {
      reasons := reasons + {RequirementMismatch};
    }
    if !SignatureOk(r, KeyOf(inp.trust, g), q) {
      reasons := reasons + {ReceiptSignatureInvalid};
    }
  }

  method CheckTimes(inp: Input, semantic: SemanticOracle, at: Time, g: Gate, r: ReceiptBody) returns (reasons: set<Reason>)
    requires ValidInput(inp)
    ensures reasons == TimeReasons(inp, semantic, at, g, r)
  {
    reasons := {};
    if r.observedAt < inp.plan.issuedAt {
      reasons := reasons + {ReceiptBeforePlan};
    }
    if r.observedAt > at {
      reasons := reasons + {ReceiptFuture};
    }
    if r.expiresAt <= at {
      reasons := reasons + {ReceiptExpired};
    }
    if r.expiresAt - r.observedAt > MaxTtl(inp.policy, g) {
      reasons := reasons + {ReceiptTtlExceeded};
    }
    if g > 0 && HasSemantics(inp) && r.expiresAt > semantic(inp.bundle.semantics.value, g, at).expiresAt {
      reasons := reasons + {SemanticExpiryExceeded};
    }
  }

  method CheckReceipt(inp: Input, semantic: SemanticOracle, at: Time, g: Gate) returns (reasons: set<Reason>)
    requires ValidInput(inp)
    ensures reasons == ReceiptReasons(inp, semantic, at, g)
  {
    var receipts := Of(inp.bundle.receipts, g);
    if receipts == [] {
      return {MissingReceipt};
    }
    if |receipts| > 1 {
      reasons := {DuplicateReceipt};
      if |set r | r in receipts :: r.body| > 1 {
        reasons := reasons + {ConflictingReceipt};
      }
      DigestsDiffer(receipts);
      return;
    }
    var binding := CheckBinding(inp, g, receipts[0]);
    var times := CheckTimes(inp, semantic, at, g, receipts[0].body);
    return binding + times;
  }

  lemma DigestsDiffer(receipts: seq<Receipt>)
    requires receipts != []
    ensures |set r | r in receipts :: r.body| > 1 <==> exists r | r in receipts :: r.body != receipts[0].body
  {
    var bodies := set r | r in receipts :: r.body;
    var first := receipts[0].body;
    assert first in bodies;
    if forall r | r in receipts :: r.body == first {
      assert bodies == {first};
    } else {
      var r :| r in receipts && r.body != first;
      assert {first, r.body} <= bodies;
      SubsetSize({first, r.body}, bodies);
    }
  }

  lemma {:induction false} SubsetSize<T>(a: set<T>, b: set<T>)
    requires a <= b
    ensures |a| <= |b|
  {
    if a != {} {
      var x :| x in a;
      SubsetSize(a - {x}, b - {x});
    }
  }

  method CheckReceipts(inp: Input, semantic: SemanticOracle, at: Time, t: Tally) returns (u: Tally)
    requires ValidInput(inp)
    ensures Extends(t, u, GATES, (g: Gate) => ReceiptReasons(inp, semantic, at, g))
  {
    ghost var f := (g: Gate) => ReceiptReasons(inp, semantic, at, g);
    u := t;
    for g := 0 to GATES
      invariant Extends(t, u, g, f)
    {
      HoldExtends(t, u, g, f);
      var reasons := CheckReceipt(inp, semantic, at, g);
      u := Hold(u, g, reasons);
    }
  }

  /** The latest observation time of the single receipts before gate g. */
  ghost predicate LatestBefore(b: Bundle, g: nat, latest: Option<Time>)
    requires g <= GATES
  {
    && (latest.None? <==> forall h: nat | h < g :: Single(b, h).None?)
    && (latest.Some? ==>
          && (exists h: nat | h < g :: Single(b, h).Some? && Single(b, h).value.body.observedAt == latest.value)
          && forall h: nat | h < g :: Single(b, h).Some? ==> Single(b, h).value.body.observedAt <= latest.value)
  }

  /** The running maximum of the observation times. */
  function Later(latest: Option<Time>, r: Option<Receipt>): Option<Time> {
    if r.None? then latest
    else if latest.None? then Some(r.value.body.observedAt)
    else Some(Max(latest.value, r.value.body.observedAt))
  }

  lemma LatestAdvances(b: Bundle, g: Gate, latest: Option<Time>)
    requires LatestBefore(b, g, latest)
    ensures LatestBefore(b, g + 1, Later(latest, Single(b, g)))
  {
    var r := Single(b, g);
    if r.Some? && latest.Some? {
      var h: nat :| h < g && Single(b, h).Some? && Single(b, h).value.body.observedAt == latest.value;
      assert h < g + 1;
    }
  }

  lemma LateIffBeforeLatest(b: Bundle, g: Gate, latest: Option<Time>, observed: Time)
    requires LatestBefore(b, g, latest)
    ensures latest.Some? && observed < latest.value <==> IsLate(b, g, observed)
  {
  }

  method CheckLink(inp: Input, g: Gate, previous: Option<Receipt>, previousTime: Option<Time>) returns (reasons: set<Reason>)
    requires LatestBefore(inp.bundle, g, previousTime) && (g > 0 ==> previous == Single(inp.bundle, g - 1))
    ensures reasons == ChainReasons(inp, g)
  {
    var receipt := Single(inp.bundle, g);
    if receipt.None? {
      return {};
    }
    var r := receipt.value.body;
    LateIffBeforeLatest(inp.bundle, g, previousTime, r.observedAt);
    var expected := if g == 0 then Some(Zero) else if previous.Some? then Some(Sha(previous.value.body)) else None;
    var late := previousTime.Some? && r.observedAt < previousTime.value;
    assert expected == ExpectedPredecessor(inp.bundle, g);
    return if Some(r.predecessor) != expected || late then {OutOfOrderReceipt} else {};
  }

  method HoldAll(t: Tally, reasons: seq<set<Reason>>) returns (u: Tally)
    requires |reasons| == GATES
    ensures Extends(t, u, GATES, (g: Gate) => reasons[g])
  {
    ghost var f := (g: Gate) => reasons[g];
    u := t;
    for g := 0 to GATES
      invariant Extends(t, u, g, f)
    {
      HoldExtends(t, u, g, f);
      u := Hold(u, g, reasons[g]);
    }
  }

  method CheckLinks(inp: Input) returns (reasons: seq<set<Reason>>)
    ensures |reasons| == GATES && forall g: Gate :: reasons[g] == ChainReasons(inp, g)
  {
    reasons := [];
    var previousTime: Option<Time> := None;
    var previous: Option<Receipt> := None;
    for g := 0 to GATES
      invariant |reasons| == g && forall h: nat | h < g :: reasons[h] == ChainReasons(inp, h)
      invariant LatestBefore(inp.bundle, g, previousTime) && (g > 0 ==> previous == Single(inp.bundle, g - 1))
    {
      var more := CheckLink(inp, g, previous, previousTime);
      LatestAdvances(inp.bundle, g, previousTime);
      reasons := reasons + [more];
      previous := Single(inp.bundle, g);
      previousTime := Later(previousTime, previous);
    }
  }

  method CheckChain(inp: Input, t: Tally) returns (u: Tally)
    ensures Extends(t, u, GATES, (g: Gate) => ChainReasons(inp, g))
  {
    var reasons := CheckLinks(inp);
    u := HoldAll(t, reasons);
    SameExtends(t, u, GATES, (g: Gate) => reasons[g], (g: Gate) => ChainReasons(inp, g));
  }

  // ---------- Prerequisites ----------

  ghost predicate SomeBelow(direct: Gate -> set<Reason>, g: nat)
    requires g <= GATES
  {
    exists h: nat | h < g :: direct(h) != {}
  }

  ghost function Prerequisites(direct: Gate -> set<Reason>): Gate -> set<Reason> {
    (g: Gate) => Reasons(SomeBelow(direct, g), PrerequisiteNotMet)
  }

  method CheckPrerequisites(ghost direct: Gate -> set<Reason>, t: Tally) returns (u: Tally)
    requires t.failed == GatesBelow(GATES, direct)
    ensures Extends(t, u, GATES, Prerequisites(direct))
  {
    ghost var f := Prerequisites(direct);
    u := t;
    var priorFailed := false;
    for g := 0 to GATES
      invariant Extends(t, u, g, f)
      invariant priorFailed <==> SomeBelow(direct, g)
    {
      HoldExtends(t, u, g, f);
      if priorFailed {
        u := Hold(u, g, {PrerequisiteNotMet});
      }
      if g in u.failed {
        priorFailed := true;
      }
    }
  }

  // ---------- The report ----------

  ghost function SemanticDeadlines(p: Packet, semantic: SemanticOracle, at: Time, n: nat): set<Time> {
    set g: Gate | 0 < g < n :: semantic(p, g, at).expiresAt
  }

  ghost function ReceiptDeadlines(b: Bundle, n: nat): set<Time> {
    set g: Gate | g < n && Single(b, g).Some? :: Single(b, g).value.body.expiresAt
  }

  lemma DeadlinesGrow(b: Bundle, p: Packet, semantic: SemanticOracle, at: Time, g: Gate)
    ensures g > 0 ==> SemanticDeadlines(p, semantic, at, g + 1) == SemanticDeadlines(p, semantic, at, g) + {semantic(p, g, at).expiresAt}
    ensures var r := Single(b, g);
            ReceiptDeadlines(b, g + 1) == ReceiptDeadlines(b, g) + if r.Some? then {r.value.body.expiresAt} else {}
  {
  }

  lemma ElementsAppend(s: seq<Time>, t: Time)
    ensures Elements(s + [t]) == Elements(s) + {t}
  {
  }

  /** Everything whose expiry bounds a ready report. */
  ghost function Deadlines(inp: Input, semantic: SemanticOracle, at: Time): set<Time> {
    (if HasSemantics(inp) then SemanticDeadlines(inp.bundle.semantics.value, semantic, at, GATES) else {})
    + (if inp.bundle.repository.Some? then Elements(RepositoryAcceptance.Expiries(inp.bundle.repository.value)) else {})
    + ReceiptDeadlines(inp.bundle, GATES)
    + {inp.plan.expiresAt, at + inp.policy.maxReportTtl}
  }

  ghost predicate Ready(inp: Input, semantic: SemanticOracle, residual: Residual, at: Time)
    requires ValidInput(inp)
  {
    forall g: Gate :: DirectReasons(inp, semantic, residual, at, g) == {}
  }

  /** What the report of these inputs says. */
  ghost predicate Correct(inp: Input, semantic: SemanticOracle, residual: Residual, at: Time, r: Report)
    requires ValidInput(inp)
  {
    && r.at == at && r.authority == Sha((inp.plan, inp.policy, inp.trust)) && r.bundle == Sha(inp.bundle)
    && Sorted(r.findings, FindingBefore)
    && (forall f :: f in r.findings <==> f.reason in AllReasons(inp, semantic, residual, at, f.gate))
    && Ascending(r.passed) && (forall g: Gate :: g in r.passed <==> AllReasons(inp, semantic, residual, at, g) == {})
    && Ascending(r.failed) && (forall g: Gate :: g in r.failed <==> AllReasons(inp, semantic, residual, at, g) != {})
    && (r.ready <==> Ready(inp, semantic, residual, at))
    && if r.ready then IsLeast(r.expiresAt, Deadlines(inp, semantic, at)) else r.expiresAt == at
  }

  predicate Ascending(gates: seq<Gate>) {
    forall i, j | 0 <= i < j < |gates| :: gates[i] < gates[j]
  }

  lemma FindingOrder(findings: seq<Finding>)
    ensures StrictOrder(FindingBefore) && Comparable(findings, FindingBefore)
  {
    forall x: Finding, y: Finding | x != y ensures FindingBefore(x, y) || FindingBefore(y, x) {
      assert Rank(x.reason) == Rank(y.reason) ==> x.reason == y.reason;
    }
  }

  method SortFindings(findings: set<Finding>) returns (sorted: seq<Finding>)
    ensures Sorted(sorted, FindingBefore) && Elements(sorted) == findings
  {
    sorted := [];
    var rest := findings;
    while rest != {}
      invariant rest !! Elements(sorted) && rest + Elements(sorted) == findings && Sorted(sorted, FindingBefore)
      decreases |rest|
    {
      var f :| f in rest;
      FindingOrder([f] + sorted);
      assert forall y | y in Elements(sorted) && y != f :: y in [f] + sorted && f in [f] + sorted;
      InsertSorts(f, sorted, FindingBefore);
      InsertElements(f, sorted, FindingBefore);
      sorted := Insert(f, sorted, FindingBefore);
      rest := rest - {f};
    }
  }

  /** The gates in fixed order that are in the set, or those that are not. */
  method Listed(gates: set<Gate>, member: bool) returns (list: seq<Gate>)
    ensures Ascending(list) && forall g: Gate :: g in list <==> (g in gates <==> member)
  {
    list := [];
    for g := 0 to GATES
      invariant Ascending(list) && forall h: Gate :: h in list <==> (h in gates <==> member) && h < g
      invariant forall i | 0 <= i < |list| :: list[i] < g
    {
      if g in gates <==> member {
        list := list + [g];
      }
    }
  }

  method CollectDeadlines(inp: Input, semantic: SemanticOracle, at: Time) returns (deadlines: seq<Time>)
    ensures Elements(deadlines) == Deadlines(inp, semantic, at)
  {
    var semantics: seq<Time> := [];
    if HasSemantics(inp) {
      var packet := inp.bundle.semantics.value;
      for g := 1 to GATES
        invariant Elements(semantics) == SemanticDeadlines(packet, semantic, at, g)
      {
        DeadlinesGrow(inp.bundle, packet, semantic, at, g);
        ElementsAppend(semantics, semantic(packet, g, at).expiresAt);
        semantics := semantics + [semantic(packet, g, at).expiresAt];
      }
    }
    var repository := if inp.bundle.repository.Some? then RepositoryAcceptance.Expiries(inp.bundle.repository.value) else [];
    var receipts := ReceiptExpiries(inp.bundle);
    deadlines := semantics + repository + receipts + [inp.plan.expiresAt, at + inp.policy.maxReportTtl];
  }

  method ReceiptExpiries(b: Bundle) returns (deadlines: seq<Time>)
    ensures Elements(deadlines) == ReceiptDeadlines(b, GATES)
  {
    deadlines := [];
    for g := 0 to GATES
      invariant Elements(deadlines) == ReceiptDeadlines(b, g)
    {
      var single := Single(b, g);
      if single.Some? {
        ElementsAppend(deadlines, single.value.body.expiresAt);
        deadlines := deadlines + [single.value.body.expiresAt];
      }
    }
  }

  lemma BelowMembers(n: nat, f: Gate -> set<Reason>)
    ensures forall x: Finding :: x in FindingsBelow(n, f) <==> x.gate < n && x.reason in f(x.gate)
    ensures forall g: Gate :: g in GatesBelow(n, f) <==> g < n && f(g) != {}
  {
  }

  /** The five passes together give each gate's direct reasons. */
  lemma FivePasses(inp: Input, semantic: SemanticOracle, residual: Residual, at: Time,
                   t0: Tally, t1: Tally, t2: Tally, t3: Tally, t4: Tally, t5: Tally)
    requires ValidInput(inp)
    requires Extends(t0, t1, GATES, (g: Gate) => SemanticReasons(inp, semantic, at, g))
    requires Extends(t1, t2, GATES, (g: Gate) => RepositoryReasons(inp, residual, at, g))
    requires Extends(t2, t3, GATES, (g: Gate) => PlanReasons(inp, at))
    requires Extends(t3, t4, GATES, (g: Gate) => ReceiptReasons(inp, semantic, at, g))
    requires Extends(t4, t5, GATES, (g: Gate) => ChainReasons(inp, g))
    ensures Extends(t0, t5, GATES, Direct(inp, semantic, residual, at))
  {
    var f1, r2 := (g: Gate) => SemanticReasons(inp, semantic, at, g), (g: Gate) => RepositoryReasons(inp, residual, at, g);
    var r3, r4 := (g: Gate) => PlanReasons(inp, at), (g: Gate) => ReceiptReasons(inp, semantic, at, g);
    var r5 := (g: Gate) => ChainReasons(inp, g);
    ExtendsTwice(t0, t1, t2, GATES, f1, r2, Both(f1, r2));
    ExtendsTwice(t0, t2, t3, GATES, Both(f1, r2), r3, Both(Both(f1, r2), r3));
    ExtendsTwice(t0, t3, t4, GATES, Both(Both(f1, r2), r3), r4, Both(Both(Both(f1, r2), r3), r4));
    ExtendsTwice(t0, t4, t5, GATES, Both(Both(Both(f1, r2), r3), r4), r5,
                 Direct(inp, semantic, residual, at));
  }

  ghost function Both(f: Gate -> set<Reason>, h: Gate -> set<Reason>): Gate -> set<Reason> {
    (g: Gate) => f(g) + h(g)
  }

  method CollectDirect(inp: Input, semantic: SemanticOracle, residual: Residual, at: Time) returns (t: Tally)
    requires ValidInput(inp)
    ensures Extends(Tally({}, {}), t, GATES, Direct(inp, semantic, residual, at))
  {
    var t0 := Tally({}, {});
    var t1 := CheckSemantics(inp, semantic, at, t0);
    var t2 := CheckRepository(inp, residual, at, t1);
    var t3 := CheckPlan(inp, at, t2);
    var t4 := CheckReceipts(inp, semantic, at, t3);
    t := CheckChain(inp, t4);
    FivePasses(inp, semantic, residual, at, t0, t1, t2, t3, t4, t);
  }

  /** The tally of all six passes. */
  ghost predicate Complete(inp: Input, semantic: SemanticOracle, residual: Residual, at: Time, t: Tally)
    requires ValidInput(inp)
  {
    && (forall x: Finding :: x in t.findings <==> x.reason in AllReasons(inp, semantic, residual, at, x.gate))
    && (forall g: Gate :: g in t.failed <==> AllReasons(inp, semantic, residual, at, g) != {})
  }

  ghost function Direct(inp: Input, semantic: SemanticOracle, residual: Residual, at: Time): Gate -> set<Reason>
    requires ValidInput(inp)
  {
    (g: Gate) => DirectReasons(inp, semantic, residual, at, g)
  }

  lemma TwoPasses(f: Gate -> set<Reason>, h: Gate -> set<Reason>, t: Tally, u: Tally)
    requires Extends(Tally({}, {}), t, GATES, f) && Extends(t, u, GATES, h)
    ensures forall x: Finding :: x in u.findings <==> x.reason in f(x.gate) + h(x.gate)
    ensures forall g: Gate :: g in u.failed <==> f(g) + h(g) != {}
  {
    BelowMembers(GATES, f);
    BelowMembers(GATES, h);
    forall g: Gate ensures f(g) + h(g) == {} <==> f(g) == {} && h(g) == {} {
      assert f(g) <= f(g) + h(g) && h(g) <= f(g) + h(g);
    }
  }

  lemma AllIsDirectAndPrerequisite(inp: Input, semantic: SemanticOracle, residual: Residual, at: Time, g: Gate)
    requires ValidInput(inp)
    ensures var f := Direct(inp, semantic, residual, at);
            AllReasons(inp, semantic, residual, at, g) == f(g) + Prerequisites(f)(g)
  {
    var f := Direct(inp, semantic, residual, at);
    assert forall h: Gate :: f(h) == DirectReasons(inp, semantic, residual, at, h);
    assert SomeBelow(f, g) <==> Blocked(inp, semantic, residual, at, g);
  }

  lemma AllBelow(inp: Input, semantic: SemanticOracle, residual: Residual, at: Time, direct: Tally, t: Tally)
    requires ValidInput(inp)
    requires Extends(Tally({}, {}), direct, GATES, Direct(inp, semantic, residual, at))
    requires Extends(direct, t, GATES, Prerequisites(Direct(inp, semantic, residual, at)))
    ensures Complete(inp, semantic, residual, at, t)
  {
    var f := Direct(inp, semantic, residual, at);
    var h := Prerequisites(f);
    TwoPasses(f, h, direct, t);
    forall x: Finding ensures x in t.findings <==> x.reason in AllReasons(inp, semantic, residual, at, x.gate) {
      AllIsDirectAndPrerequisite(inp, semantic, residual, at, x.gate);
    }
    forall g: Gate ensures g in t.failed <==> AllReasons(inp, semantic, residual, at, g) != {} {
      AllIsDirectAndPrerequisite(inp, semantic, residual, at, g);
    }
  }

  method CollectFindings(inp: Input, semantic: SemanticOracle, residual: Residual, at: Time) returns (t: Tally)
    requires ValidInput(inp)
    ensures Complete(inp, semantic, residual, at, t)
  {
    var direct := CollectDirect(inp, semantic, residual, at);
    ghost var f := Direct(inp, semantic, residual, at);
    assert direct.failed == GatesBelow(GATES, f);
    t := CheckPrerequisites(f, direct);
    AllBelow(inp, semantic, residual, at, direct, t);
  }

  lemma ReadyMeansNoReason(inp: Input, semantic: SemanticOracle, residual: Residual, at: Time)
    requires ValidInput(inp)
    ensures Ready(inp, semantic, residual, at) <==> forall g: Gate :: AllReasons(inp, semantic, residual, at, g) == {}
  {
    if Ready(inp, semantic, residual, at) {
      assert forall g: Gate :: !Blocked(inp, semantic, residual, at, g);
    } else {
      var g: Gate :| DirectReasons(inp, semantic, residual, at, g) != {};
      var r :| r in DirectReasons(inp, semantic, residual, at, g);
      assert r in AllReasons(inp, semantic, residual, at, g);
    }
  }

  lemma NothingHeld(inp: Input, semantic: SemanticOracle, residual: Residual, at: Time, t: Tally)
    requires ValidInput(inp) && Complete(inp, semantic, residual, at, t)
    ensures t.failed == {} && t.findings == {} <==> Ready(inp, semantic, residual, at)
  {
    ReadyMeansNoReason(inp, semantic, residual, at);
    if t.failed != {} {
      var g :| g in t.failed;
    }
    if t.findings != {} {
      var x :| x in t.findings;
      assert AllReasons(inp, semantic, residual, at, x.gate) != {};
    }
  }

  /** The report's own validator. */
  predicate ValidReport(r: Report) {
    && Sorted(r.findings, FindingBefore) && Ascending(r.passed) && Ascending(r.failed)
    && (forall g: Gate :: g in r.passed || g in r.failed)
    && (forall g: Gate :: !(g in r.passed && g in r.failed))
    && (r.ready <==> r.failed == [] && r.findings == [])
    && (r.ready ==> r.at < r.expiresAt)
  }

  lemma ReadyMeansEmpty(inp: Input, semantic: SemanticOracle, residual: Residual, at: Time, r: Report)
    requires ValidInput(inp) && Correct(inp, semantic, residual, at, r)
    ensures r.ready <==> r.failed == [] && r.findings == []
  {
    ReadyMeansNoReason(inp, semantic, residual, at);
    if r.failed != [] {
      assert r.failed[0] in r.failed;
    }
    if r.findings != [] {
      assert r.findings[0] in r.findings;
    }
    if !Ready(inp, semantic, residual, at) {
      var g: Gate :| AllReasons(inp, semantic, residual, at, g) != {};
      assert g in r.failed;
    }
  }

  /** What the evaluator reports, before its validator sees it. */
  method BuildReport(inp: Input, semantic: SemanticOracle, residual: Residual, at: Time) returns (report: Report)
    requires ValidInput(inp)
    ensures Correct(inp, semantic, residual, at, report)
  {
    var t := CollectFindings(inp, semantic, residual, at);
    NothingHeld(inp, semantic, residual, at, t);
    var passed := Listed(t.failed, false);
    var failed := Listed(t.failed, true);
    var findings := SortFindings(t.findings);
    var ready := t.failed == {} && t.findings == {};
    var expiresAt := at;
    if ready {
      var deadlines := CollectDeadlines(inp, semantic, at);
      expiresAt := Minimum(deadlines);
    }
    assert forall x: Finding :: x in findings <==> x in Elements(findings);
    report := Report(ready, at, Sha((inp.plan, inp.policy, inp.trust)), Sha(inp.bundle), findings, passed, failed, expiresAt);
  }

  method ValidateReport(report: Report) returns (r: Result<Report, HandoffError>)
    ensures r == if ValidReport(report) then Ok(report) else Err(ReportInvalid)
  {
    if !ValidReport(report) {
      return Err(ReportInvalid);
    }
    return Ok(report);
  }
}
