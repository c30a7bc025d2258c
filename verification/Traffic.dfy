/** Demand and traffic arithmetic on exact rationals, and how the twice-rounded session
    requirement of the export validator relates to the once-rounded one here. */
module Traffic {
  import opened Common
  import opened Rounding
  import DemandBatches

  datatype Assumptions = Assumptions(deduplicated: bool, volume: real, visibility: real, rankCtr: real,
                                     qualifiedRate: real, outboundRate: real)

  datatype Demand = Demand(volume: real, organic: real, qualified: real, outbound: real)

  datatype Projection = Projection(demand: Demand, revenue: Option<real>)

  datatype Requirement = Requirement(clicksExact: real, clicks: int, sessionsExact: real, sessions: int)

  datatype EconomicsError = NotDeduplicated | BadVolume | BadRatio | BadTarget | BadEpc | BadOrdering

  predicate IsRatio(x: real) {
    0.0 <= x <= 1.0
  }

  predicate ValidAssumptions(a: Assumptions) {
    a.deduplicated && a.volume >= 0.0 && IsRatio(a.visibility) && IsRatio(a.rankCtr) && IsRatio(a.qualifiedRate)
    && IsRatio(a.outboundRate)
  }

  function DemandOf(a: Assumptions): Demand {
    var organic := a.volume * a.visibility * a.rankCtr;
    Demand(a.volume, organic, organic * a.qualifiedRate, organic * a.qualifiedRate * a.outboundRate)
  }

  function CalculateDemand(a: Assumptions): (r: Result<Demand, EconomicsError>)
    ensures r.Ok? <==> ValidAssumptions(a)
    ensures r.Ok? ==> r.value == DemandOf(a)
  {
    if !a.deduplicated then Err(NotDeduplicated)
    else if a.volume < 0.0 then Err(BadVolume)
    else if !IsRatio(a.visibility) || !IsRatio(a.rankCtr) || !IsRatio(a.qualifiedRate) || !IsRatio(a.outboundRate) then
      Err(BadRatio)
    else Ok(DemandOf(a))
  }

  function RequiredTraffic(target: real, epc: real, rate: real): Result<Requirement, EconomicsError> {
    if target <= 0.0 then Err(BadTarget)
    else if epc <= 0.0 then Err(BadEpc)
    else if !(0.0 < rate <= 1.0) then Err(BadRatio)
    else Ok(Requirement(target / epc, Ceil(target / epc), target / epc / rate, Ceil(target / epc / rate)))
  }

  /** The projection is volume by visibility by click rate, then by the qualified and the
      outbound share; only non-negative volumes and rates within [0, 1] are projected. */
  lemma DemandRules(a: Assumptions)
    ensures CalculateDemand(a).Ok? <==>
            && a.deduplicated && a.volume >= 0.0 && 0.0 <= a.visibility && a.visibility <= 1.0 && 0.0 <= a.rankCtr && a.rankCtr <= 1.0
            && 0.0 <= a.qualifiedRate && a.qualifiedRate <= 1.0 && 0.0 <= a.outboundRate && a.outboundRate <= 1.0
    ensures CalculateDemand(a).Ok? ==>
              var d := CalculateDemand(a).value;
              && d.volume == a.volume && d.organic == a.volume * a.visibility * a.rankCtr
              && d.qualified == d.organic * a.qualifiedRate && d.outbound == d.qualified * a.outboundRate
  {
  }

  /** A positive target, a positive EPC and a rate in (0, 1] give target by EPC clicks and
      that by the rate sessions, exactly and rounded up. */
  lemma RequirementRules(target: real, epc: real, rate: real)
    ensures RequiredTraffic(target, epc, rate).Ok? <==> target > 0.0 && epc > 0.0 && rate > 0.0 && rate <= 1.0
    ensures RequiredTraffic(target, epc, rate).Ok? ==>
              var r := RequiredTraffic(target, epc, rate).value;
              && r.clicksExact == target / epc && r.sessionsExact == target / epc / rate
              && r.clicks as real - 1.0 < r.clicksExact <= r.clicks as real
              && r.sessions as real - 1.0 < r.sessionsExact <= r.sessions as real
  {
  }

  // ---------- Once and twice rounded ----------

  lemma DivideMonotone(x: real, y: real, rate: real)
    requires x <= y && rate > 0.0
    ensures x / rate <= y / rate
  {
    assert y / rate - x / rate == (y - x) / rate;
  }

  lemma DivideSum(x: real, rate: real)
    requires rate > 0.0
    ensures (x + 1.0) / rate == x / rate + 1.0 / rate
  {
  }

  lemma CeilOfSum(x: real, y: real)
    ensures Ceil(x + y) <= Ceil(x) + Ceil(y)
  {
    CeilIsLeast(x + y, Ceil(x) + Ceil(y));
  }

  lemma TwiceRounded(x: real, rate: real)
    requires rate > 0.0
    ensures Ceil(x / rate) <= Ceil(Ceil(x) as real / rate) <= Ceil(x / rate) + Ceil(1.0 / rate)
  {
    var c := Ceil(x) as real;
    DivideMonotone(x, c, rate);
    CeilIsMonotone(x / rate, c / rate);
    DivideMonotone(c, x + 1.0, rate);
    DivideSum(x, rate);
    CeilIsMonotone(c / rate, x / rate + 1.0 / rate);
    CeilOfSum(x / rate, 1.0 / rate);
  }

  /** The export validator's sessions are at least this module's and exceed them by no
      more than the sessions of one click; the clicks are the same. */
  lemma SessionRequirementsAgree(p: DemandBatches.Parameters)
    requires p.target > 0 && p.epc > 0.0 && 0.0 < p.ctr <= 1.0
    ensures var r := RequiredTraffic(p.target as real, p.epc, p.ctr);
            && r.Ok? && r.value.clicks == DemandBatches.RequiredClicks(p)
            && r.value.sessions <= DemandBatches.RequiredSessions(p) <= r.value.sessions + Ceil(1.0 / p.ctr)
  {
    TwiceRounded(p.target as real / p.epc, p.ctr);
  }

  /** The requirement is the least whole number of clicks that earns the target. */
  lemma ClicksAreLeast(target: real, epc: real, rate: real, clicks: int)
    requires target > 0.0 && epc > 0.0 && 0.0 < rate <= 1.0
    ensures RequiredTraffic(target, epc, rate).value.clicks <= clicks <==> target <= clicks as real * epc
  {
    CeilIsLeast(target / epc, clicks);
    CrossMultiply(target, epc, clicks as real);
  }

  lemma CrossMultiply(a: real, b: real, c: real)
    requires b > 0.0
    ensures a / b <= c <==> a <= c * b
  {
    var q := a / b;
    assert q * b == a;
    if q <= c {
      assert (c - q) * b >= 0.0;
    } else {
      assert (q - c) * b > 0.0;
    }
  }

  // ---------- Capacity ----------

  /** The capacity check on exact sessions says exactly that the projected revenue
      reaches the target. */
  lemma CapacityIsRevenue(a: Assumptions, target: real, epc: real)
    requires ValidAssumptions(a) && target > 0.0 && epc > 0.0 && a.outboundRate > 0.0
    ensures var r := RequiredTraffic(target, epc, a.outboundRate);
            && r.Ok?
            && (r.value.sessionsExact <= DemandOf(a).qualified <==> target <= DemandOf(a).outbound * epc)
  {
    var q, rate := DemandOf(a).qualified, a.outboundRate;
    CrossMultiply(target / epc, rate, q);
    CrossMultiply(target, epc, q * rate);
  }

  // ---------- Scenarios ----------

  /** Sessions and clicks grow from bear to base to bull. */
  predicate InOrder(scenarios: seq<Assumptions>)
    requires |scenarios| == 3
  {
    var bear, base, bull := DemandOf(scenarios[0]), DemandOf(scenarios[1]), DemandOf(scenarios[2]);
    bear.qualified <= base.qualified <= bull.qualified && bear.outbound <= base.outbound <= bull.outbound
  }

  function Project(d: Demand, epc: Option<real>): Projection {
    Projection(d, if epc.None? then None else Some(d.outbound * epc.value))
  }

  /** Sessions and clicks in order give projected revenues in order. */
  lemma RevenueIsOrdered(scenarios: seq<Assumptions>, epc: real)
    requires |scenarios| == 3 && InOrder(scenarios) && epc >= 0.0
    ensures forall i, j | 0 <= i < j < 3 ::
              Project(DemandOf(scenarios[i]), Some(epc)).revenue.value <= Project(DemandOf(scenarios[j]), Some(epc)).revenue.value
  {
    forall i, j | 0 <= i < j < 3
      ensures DemandOf(scenarios[i]).outbound * epc <= DemandOf(scenarios[j]).outbound * epc
    {
      Scale(DemandOf(scenarios[i]).outbound, DemandOf(scenarios[j]).outbound, epc);
    }
  }

  lemma Scale(x: real, y: real, epc: real)
    requires x <= y && epc >= 0.0
    ensures x * epc <= y * epc
  {
    assert y * epc - x * epc == (y - x) * epc;
  }

  /** Scenarios in the order bear, base, bull. */
  method ProjectScenarios(scenarios: seq<Assumptions>, epc: Option<real>) returns (r: Result<seq<Projection>, EconomicsError>)
    requires |scenarios| == 3
    ensures r.Ok? <==>
              && (epc.Some? ==> epc.value >= 0.0) && (forall k | 0 <= k < 3 :: ValidAssumptions(scenarios[k]))
              && InOrder(scenarios)
    ensures r.Ok? ==> |r.value| == 3 && forall k | 0 <= k < 3 :: r.value[k] == Project(DemandOf(scenarios[k]), epc)
  {
    if epc.Some? && epc.value < 0.0 {
      return Err(BadEpc);
    }
    var results: seq<Projection> := [];
    for i := 0 to 3
      invariant |results| == i
      invariant forall k | 0 <= k < i :: ValidAssumptions(scenarios[k])
      invariant forall k | 0 <= k < i :: results[k] == Project(DemandOf(scenarios[k]), epc)
    {
      var demand := CalculateDemand(scenarios[i]);
      if demand.Err? {
        return Err(demand.error);
      }
      results := results + [Project(demand.value, epc)];
    }
    assert results[0].demand == DemandOf(scenarios[0]) && results[1].demand == DemandOf(scenarios[1]);
    assert results[2].demand == DemandOf(scenarios[2]);
    if !(results[0].demand.qualified <= results[1].demand.qualified <= results[2].demand.qualified) {
      return Err(BadOrdering);
    }
    if !(results[0].demand.outbound <= results[1].demand.outbound <= results[2].demand.outbound) {
      return Err(BadOrdering);
    }
    return Ok(results);
  }

  lemma ProductIsMonotone(a: real, b: real, x: real, y: real)
    requires 0.0 <= a <= b && 0.0 <= x <= y
    ensures 0.0 <= a * x <= b * y
  {
    assert b * y - a * x == (b - a) * y + a * (y - x);
    assert (b - a) * y >= 0.0 && a * (y - x) >= 0.0 && a * x >= 0.0;
  }

  /** Scenarios whose assumptions are ordered are never rejected for their order. */
  lemma OrderedAssumptionsGiveOrderedDemand(a: Assumptions, b: Assumptions)
    requires ValidAssumptions(a) && ValidAssumptions(b)
    requires a.volume <= b.volume && a.visibility <= b.visibility && a.rankCtr <= b.rankCtr
    requires a.qualifiedRate <= b.qualifiedRate && a.outboundRate <= b.outboundRate
    ensures DemandOf(a).qualified <= DemandOf(b).qualified && DemandOf(a).outbound <= DemandOf(b).outbound
  {
    ProductIsMonotone(a.volume, b.volume, a.visibility, b.visibility);
    ProductIsMonotone(a.volume * a.visibility, b.volume * b.visibility, a.rankCtr, b.rankCtr);
    ProductIsMonotone(DemandOf(a).organic, DemandOf(b).organic, a.qualifiedRate, b.qualifiedRate);
    ProductIsMonotone(DemandOf(a).qualified, DemandOf(b).qualified, a.outboundRate, b.outboundRate);
  }
}
