/** The scorecard's settled revenue: one event per transaction, whatever the order. */
module FunnelScorecard {
  import opened Common
  import opened Funnel

  datatype Operations = Operations(humanMinutes: nat, tasksTotal: nat, tasksAutomated: nat, jobsTotal: nat,
                                   jobsSucceeded: nat, misstatements: nat, cost: nat)

  datatype Scorecard = Scorecard(at: Time, currency: Option<Id>, counts: map<Stage, nat>, revenue: nat,
                                 epc: Option<real>, perSession: Option<real>, profit: int,
                                 automation: Option<real>, jobSuccess: Option<real>)

  datatype ScorecardError = PredatesBatch | BatchExpired | MixedCurrencies

  // ---------- The latest event of a transaction ----------

  /** Later in time, or at the same time at a later stage. */
  predicate Later(a: Event, b: Event) {
    a.at > b.at || (a.at == b.at && a.stage > b.stage)
  }

  /** The one event of the transaction that is maximal in (time, stage). */
  ghost predicate IsLatest(events: seq<Event>, t: Id, e: Event) {
    && e in events && e.transaction == Some(t)
    && forall f | f in events && f.transaction == Some(t) && f != e :: Later(e, f)
  }

  function Transactions(events: seq<Event>): set<Id> {
    set e | e in events && e.transaction.Some? :: e.transaction.value
  }

  /** The dictionary after a prefix of the fold. */
  ghost predicate IsLatestMap(m: map<Id, Event>, events: seq<Event>) {
    m.Keys == Transactions(events) && forall t | t in m :: IsLatest(events, t, m[t])
  }

  lemma LatestIsUnique(events: seq<Event>, t: Id, e: Event, f: Event)
    requires IsLatest(events, t, e) && IsLatest(events, t, f)
    ensures e == f
  {
  }

  lemma LatestExtends(m: map<Id, Event>, events: seq<Event>, e: Event)
    requires IsLatestMap(m, events) && DistinctStages(events + [e])
    ensures var m' := if e.transaction.Some? && (e.transaction.value !in m || Later(e, m[e.transaction.value]))
                      then m[e.transaction.value := e] else m;
            IsLatestMap(m', events + [e])
  {
    var more := events + [e];
    var m' := if e.transaction.Some? && (e.transaction.value !in m || Later(e, m[e.transaction.value]))
              then m[e.transaction.value := e] else m;
    assert forall f :: f in more <==> f in events || f == e;
    forall t | t in m' ensures IsLatest(more, t, m'[t]) {
      if e.transaction == Some(t) {
        NewEventOfTransaction(m, events, e, t);
      }
    }
    assert Transactions(more) == Transactions(events) + if e.transaction.Some? then {e.transaction.value} else {};
  }

  lemma NewEventOfTransaction(m: map<Id, Event>, events: seq<Event>, e: Event, t: Id)
    requires IsLatestMap(m, events) && DistinctStages(events + [e]) && e.transaction == Some(t)
    ensures t !in m ==> forall f | f in events :: f.transaction != Some(t)
    ensures t in m ==> Later(e, m[t]) || Later(m[t], e)
  {
    if t in m {
      var k :| 0 <= k < |events| && events[k] == m[t];
      assert (events + [e])[k] == m[t] && (events + [e])[|events|] == e;
    } else {
      forall f | f in events ensures f.transaction != Some(t) {
        assert f.transaction.Some? ==> f.transaction.value in Transactions(events);
      }
    }
  }

  // ---------- Sums over a set of transactions ----------

  ghost function Total(ts: set<Id>, amount: Id -> nat): nat {
    if ts == {} then 0 else var t :| t in ts; amount(t) + Total(ts - {t}, amount)
  }

  /** The sum can be taken in any order. */
  lemma {:induction false} TotalRemoves(ts: set<Id>, amount: Id -> nat, t: Id)
    requires t in ts
    ensures Total(ts, amount) == amount(t) + Total(ts - {t}, amount)
  {
    var u :| u in ts && Total(ts, amount) == amount(u) + Total(ts - {u}, amount);
    if u != t {
      TotalRemoves(ts - {u}, amount, t);
      TotalRemoves(ts - {t}, amount, u);
      assert ts - {u} - {t} == ts - {t} - {u};
    }
  }

  lemma {:induction false} TotalAgrees(ts: set<Id>, f: Id -> nat, g: Id -> nat)
    requires forall t | t in ts :: f(t) == g(t)
    ensures Total(ts, f) == Total(ts, g)
  {
    if ts != {} {
      var t :| t in ts;
      TotalRemoves(ts, f, t);
      TotalRemoves(ts, g, t);
      TotalAgrees(ts - {t}, f, g);
    }
  }

  // ---------- Revenue ----------

  ghost predicate HasLatest(events: seq<Event>, t: Id) {
    exists e :: IsLatest(events, t, e)
  }

  /** What the transaction contributes: its latest event's amount when confirmed or paid. */
  ghost function Settled(events: seq<Event>): Id -> nat {
    t => if HasLatest(events, t) then
           var e :| IsLatest(events, t, e);
           if e.stage >= CONFIRMED then e.amount else 0
         else 0
  }

  ghost function Revenue(events: seq<Event>): nat {
    Total(Transactions(events), Settled(events))
  }

  lemma SettledIsLatest(events: seq<Event>, t: Id, e: Event)
    requires IsLatest(events, t, e)
    ensures Settled(events)(t) == if e.stage >= CONFIRMED then e.amount else 0
  {
    assert HasLatest(events, t);
    var f :| IsLatest(events, t, f) && Settled(events)(t) == if f.stage >= CONFIRMED then f.amount else 0;
    LatestIsUnique(events, t, e, f);
  }

  /** The order of the events does not matter. */
  lemma RevenueForgetsOrder(events: seq<Event>, other: seq<Event>)
    requires Elements(events) == Elements(other)
    ensures Revenue(events) == Revenue(other)
  {
    forall e ensures e in events <==> e in other {
      assert e in Elements(events) <==> e in Elements(other);
    }
    forall t, e ensures IsLatest(events, t, e) <==> IsLatest(other, t, e) {
    }
    assert Transactions(events) == Transactions(other);
    forall t ensures Settled(events)(t) == Settled(other)(t) {
      if e :| IsLatest(events, t, e) {
        SettledIsLatest(events, t, e);
        SettledIsLatest(other, t, e);
      } else {
        assert !HasLatest(events, t) && !HasLatest(other, t);
      }
    }
    TotalAgrees(Transactions(events), Settled(events), Settled(other));
  }

  // ---------- The folds ----------

  function CountOf(events: seq<Event>, s: Stage): nat {
    if events == [] then 0
    else CountOf(events[..|events| - 1], s) + if events[|events| - 1].stage == s then 1 else 0
  }

  method CountStages(events: seq<Event>) returns (counts: map<Stage, nat>)
    ensures forall s: Stage :: s in counts && counts[s] == CountOf(events, s)
  {
    counts := map[0 := 0, 1 := 0, 2 := 0, 3 := 0, 4 := 0, 5 := 0, 6 := 0, 7 := 0, 8 := 0];
    for i := 0 to |events|
      invariant forall s: Stage :: s in counts && counts[s] == CountOf(events[..i], s)
    {
      assert events[..i + 1][..i] == events[..i];
      var s := events[i].stage;
      counts := counts[s := counts[s] + 1];
    }
    assert events[..|events|] == events;
  }

  lemma DistinctPrefix(events: seq<Event>, i: nat)
    requires DistinctStages(events) && i <= |events|
    ensures DistinctStages(events[..i])
  {
  }

  method LatestTransactions(events: seq<Event>) returns (latest: map<Id, Event>)
    requires DistinctStages(events)
    ensures IsLatestMap(latest, events)
  {
    latest := map[];
    for i := 0 to |events|
      invariant IsLatestMap(latest, events[..i])
    {
      var e := events[i];
      DistinctPrefix(events, i + 1);
      assert events[..i + 1] == events[..i] + [e];
      LatestExtends(latest, events[..i], e);
      if e.transaction.Some? {
        var t := e.transaction.value;
        if t !in latest || Later(e, latest[t]) {
          latest := latest[t := e];
        }
      }
    }
    assert events[..|events|] == events;
  }

  function SettledCurrencies(latest: map<Id, Event>): set<Option<Id>> {
    set t | t in latest && latest[t].stage >= CONFIRMED :: latest[t].currency
  }

  /** The sum over the dictionary's values, in whatever order it yields them. */
  method SumSettled(latest: map<Id, Event>, ghost events: seq<Event>) returns (revenue: nat)
    requires IsLatestMap(latest, events)
    ensures revenue == Revenue(events)
  {
    revenue := 0;
    var rest := latest.Keys;
    while rest != {}
      invariant rest <= latest.Keys && revenue + Total(rest, Settled(events)) == Revenue(events)
      decreases |rest|
    {
      var t :| t in rest;
      TotalRemoves(rest, Settled(events), t);
      SettledIsLatest(events, t, latest[t]);
      if latest[t].stage >= CONFIRMED {
        revenue := revenue + latest[t].amount;
      }
      rest := rest - {t};
    }
  }

  function Ratio(a: nat, b: nat): Option<real> {
    if b == 0 then None else Some(a as real / b as real)
  }

  // ---------- Currencies ----------

  /** A transaction whose latest event is confirmed or paid. */
  ghost predicate IsSettled(events: seq<Event>, t: Id, e: Event) {
    IsLatest(events, t, e) && e.stage >= CONFIRMED
  }

  ghost predicate MixesCurrencies(events: seq<Event>) {
    exists t, d, u, e :: IsSettled(events, t, d) && IsSettled(events, u, e) && d.currency != e.currency
  }

  /** Some settled event bears the currency, and every one does. */
  ghost predicate IsSettledCurrency(events: seq<Event>, currency: Option<Id>) {
    && (currency.None? <==> forall t, e :: !IsSettled(events, t, e))
    && forall t, e | IsSettled(events, t, e) :: e.currency == currency
  }

  lemma CurrenciesOfSettled(latest: map<Id, Event>, events: seq<Event>, currency: Option<Id>)
    requires IsLatestMap(latest, events)
    ensures currency in SettledCurrencies(latest) <==> exists t, e :: IsSettled(events, t, e) && e.currency == currency
  {
    if currency in SettledCurrencies(latest) {
      var t :| t in latest && latest[t].stage >= CONFIRMED && latest[t].currency == currency;
      assert IsSettled(events, t, latest[t]);
    }
    forall t, e | IsSettled(events, t, e) && e.currency == currency ensures currency in SettledCurrencies(latest) {
      assert t in Transactions(events);
      LatestIsUnique(events, t, latest[t], e);
    }
  }

  lemma AtMostOne<T>(s: set<T>)
    ensures |s| > 1 <==> exists c, d :: c in s && d in s && c != d
  {
    if c :| c in s {
      assert s == {c} + (s - {c});
      if d :| d in s - {c} {
        assert s == {c, d} + (s - {c, d});
      }
    }
  }

  /** The one currency of the settled events, or the refusal to mix them. */
  method SettledCurrency(latest: map<Id, Event>, ghost events: seq<Event>) returns (r: Result<Option<Id>, ScorecardError>)
    requires IsLatestMap(latest, events)
    ensures r.Err? <==> MixesCurrencies(events)
    ensures r.Err? ==> r.error == MixedCurrencies
    ensures r.Ok? ==> forall t, e | IsSettled(events, t, e) :: e.currency == r.value
    ensures r.Ok? && r.value.Some? ==> exists t, e :: IsSettled(events, t, e)
  {
    var currencies := SettledCurrencies(latest);
    forall c ensures c in currencies <==> exists t, e :: IsSettled(events, t, e) && e.currency == c {
      CurrenciesOfSettled(latest, events, c);
    }
    assert forall t, e | IsSettled(events, t, e) :: e.currency in currencies;
    AtMostOne(currencies);
    if |currencies| > 1 {
      return Err(MixedCurrencies);
    }
    if currencies == {} {
      return Ok(None);
    }
    var currency :| currency in currencies;
    return Ok(currency);
  }

  /** Settled transactions of one batch never mix currencies, and each bears one. */
  lemma SettledAgree(b: Batch)
    requires ValidBatch(b)
    ensures !MixesCurrencies(b.events)
    ensures forall t, e | IsSettled(b.events, t, e) :: e.currency.Some?
  {
    forall t, e | IsSettled(b.events, t, e) ensures e.currency.Some? {
      assert ValidEvent(e);
    }
  }

  /** What a scorecard over these events says. */
  ghost predicate Scores(events: seq<Event>, ops: Operations, at: Time, c: Scorecard) {
    && c.at == at && (forall s: Stage :: s in c.counts && c.counts[s] == CountOf(events, s))
    && c.revenue == Revenue(events) && (forall t, e | IsSettled(events, t, e) :: e.currency == c.currency)
    && (c.currency.Some? ==> exists t, e :: IsSettled(events, t, e))
    && c.epc == Ratio(c.revenue, CountOf(events, OUTBOUND))
    && c.perSession == Ratio(c.revenue, CountOf(events, QUALIFIED)) && c.profit == c.revenue - ops.cost
    && c.automation == Ratio(ops.tasksAutomated, ops.tasksTotal)
    && c.jobSuccess == Ratio(ops.jobsSucceeded, ops.jobsTotal)
  }

  /** Events whose transactions take each stage at most once are scored unless their
      settled currencies differ. */
  method ScoreEvents(events: seq<Event>, ops: Operations, at: Time) returns (r: Result<Scorecard, ScorecardError>)
    requires DistinctStages(events)
    ensures r.Err? <==> MixesCurrencies(events)
    ensures r.Err? ==> r.error == MixedCurrencies
    ensures r.Ok? ==> Scores(events, ops, at, r.value)
  {
    var counts := CountStages(events);
    var latest := LatestTransactions(events);
    var currency := SettledCurrency(latest, events);
    if currency.Err? {
      return Err(currency.error);
    }
    var revenue := SumSettled(latest, events);
    return Ok(Scorecard(at, currency.value, counts, revenue, Ratio(revenue, counts[OUTBOUND]),
                        Ratio(revenue, counts[QUALIFIED]), revenue - ops.cost,
                        Ratio(ops.tasksAutomated, ops.tasksTotal), Ratio(ops.jobsSucceeded, ops.jobsTotal)));
  }

  method BuildScorecard(b: Batch, ops: Operations, at: Time) returns (r: Result<Scorecard, ScorecardError>)
    requires ValidBatch(b)
    ensures r == Err(PredatesBatch) <==> at < b.capturedAt
    ensures r == Err(BatchExpired) <==> b.capturedAt <= at && b.expiresAt <= at
    ensures r != Err(MixedCurrencies)
    ensures r.Ok? ==> Scores(b.events, ops, at, r.value) && IsSettledCurrency(b.events, r.value.currency)
  {
    if at < b.capturedAt {
      return Err(PredatesBatch);
    }
    if at >= b.expiresAt {
      return Err(BatchExpired);
    }
    r := ScoreEvents(b.events, ops, at);
    SettledAgree(b);
  }
}
