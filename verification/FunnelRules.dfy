/** What a valid batch is and what a scorecard says of it, with the stages written out. */
module FunnelRules {
  import opened Common
  import opened Funnel
  import opened FunnelScorecard

  // ---------- Valid batches ----------

  /** The event's own shape: pending (6), confirmed (7) and paid (8) carry a transaction
      and a currency, earlier stages nothing of the kind. */
  predicate Shaped(e: Event) {
    && (e.stage == 6 || e.stage == 7 || e.stage == 8 ==> e.transaction.Some? && e.currency.Some?)
    && (e.stage <= 5 ==> e.transaction.None? && e.currency.None? && e.amount == 0)
  }

  /** An impression without parent, or a child of an earlier event of its identity at a
      smaller stage. */
  ghost predicate Rooted(events: seq<Event>, e: Event) {
    && (e.parent.None? ==> e.stage == 0)
    && (e.parent.Some? ==> exists p | p in events ::
          p.id == e.parent.value && p.at <= e.at && p.identity == e.identity && p.stage < e.stage)
  }

  lemma BatchRules(b: Batch)
    ensures ValidBatch(b) <==>
            && b.capturedAt < b.expiresAt
            && (forall e | e in b.events :: Shaped(e) && Rooted(b.events, e) && e.at <= b.capturedAt)
            && (forall i, j | 0 <= i < j < |b.events| ::
                  && (b.events[i].at < b.events[j].at || (b.events[i].at == b.events[j].at && b.events[i].id < b.events[j].id))
                  && b.events[i].id != b.events[j].id)
            && (forall i, j | 0 <= i < j < |b.events| && b.events[i].transaction.Some? ::
                  b.events[i].transaction == b.events[j].transaction ==> b.events[i].stage != b.events[j].stage)
            && (forall e, f | e in b.events && f in b.events && e.currency.Some? && f.currency.Some? :: e.currency == f.currency)
  {
    forall e | e in b.events ensures ValidEvent(e) <==> Shaped(e) {
    }
    forall e | e in b.events ensures ParentOk(b.events, e) <==> Rooted(b.events, e) {
      RootedRules(b.events, e);
    }
    EventsByMember(b);
  }

  lemma RootedRules(events: seq<Event>, e: Event)
    ensures ParentOk(events, e) <==> Rooted(events, e)
  {
    if p :| p in events && IsParent(p, e) {
      assert p.id == e.parent.value;
    }
    if e.parent.Some? {
      if p :| p in events && p.id == e.parent.value && p.at <= e.at && p.identity == e.identity && p.stage < e.stage {
        assert IsParent(p, e);
      }
    }
  }

  lemma EventsByMember(b: Batch)
    ensures EventsOk(b, |b.events|) <==> forall e | e in b.events :: EventOk(b, e)
  {
  }

  // ---------- The latest event of a transaction ----------

  /** No event of the transaction is later in time, nor at the same time at a later stage. */
  ghost predicate IsLast(events: seq<Event>, t: Id, e: Event) {
    && e in events && e.transaction == Some(t)
    && forall f | f in events && f.transaction == Some(t) :: f.at < e.at || (f.at == e.at && f.stage <= e.stage)
  }

  /** What the scorecard keeps of a transaction is its last event. */
  lemma LatestIsLast(events: seq<Event>, t: Id, e: Event)
    requires DistinctStages(events)
    ensures IsLatest(events, t, e) <==> IsLast(events, t, e)
  {
    if IsLast(events, t, e) {
      forall f | f in events && f.transaction == Some(t) && f != e ensures f.at < e.at || (f.at == e.at && f.stage < e.stage) {
        var i :| 0 <= i < |events| && events[i] == e;
        var j :| 0 <= j < |events| && events[j] == f;
        assert events[i].transaction == events[j].transaction;
      }
    }
  }

  /** A transaction counts with its last event's amount when that is confirmed (7) or paid
      (8), and with nothing while it is pending (6). */
  lemma Contribution(events: seq<Event>, t: Id, e: Event)
    requires DistinctStages(events) && IsLast(events, t, e)
    ensures e.stage == 7 || e.stage == 8 ==> Settled(events)(t) == e.amount
    ensures e.stage <= 6 ==> Settled(events)(t) == 0
  {
    LatestIsLast(events, t, e);
    SettledIsLatest(events, t, e);
  }

  // ---------- How one event changes the revenue ----------

  lemma OthersKeepTheirs(events: seq<Event>, e: Event, t: Id)
    requires e.transaction != Some(t)
    ensures Settled(events + [e])(t) == Settled(events)(t)
  {
    forall f ensures IsLatest(events + [e], t, f) <==> IsLatest(events, t, f) {
    }
    if f :| IsLatest(events, t, f) {
      SettledIsLatest(events, t, f);
      SettledIsLatest(events + [e], t, f);
    } else {
      assert !HasLatest(events, t) && !HasLatest(events + [e], t);
    }
  }

  /** An event without transaction leaves the revenue as it is; another replaces what its
      transaction contributed, and nothing else. */
  lemma RevenueStep(events: seq<Event>, e: Event)
    requires DistinctStages(events + [e])
    ensures Revenue([]) == 0
    ensures e.transaction.None? ==> Revenue(events + [e]) == Revenue(events)
    ensures e.transaction.Some? ==>
              var t := e.transaction.value;
              Revenue(events + [e]) - Settled(events + [e])(t)
              == Revenue(events) - if t in Transactions(events) then Settled(events)(t) else 0
  {
    var more := events + [e];
    var ts := Transactions(events);
    NoRevenue();
    assert Transactions(more) == ts + if e.transaction.Some? then {e.transaction.value} else {};
    forall t: Id | e.transaction != Some(t) ensures Settled(more)(t) == Settled(events)(t) {
      OthersKeepTheirs(events, e, t);
    }
    if e.transaction.Some? {
      var t := e.transaction.value;
      TotalAgrees(ts - {t}, Settled(more), Settled(events));
      TotalRemoves(ts + {t}, Settled(more), t);
      assert ts + {t} - {t} == ts - {t};
      if t in ts {
        TotalRemoves(ts, Settled(events), t);
      } else {
        assert ts - {t} == ts;
      }
    } else {
      assert Transactions(more) == ts;
      TotalAgrees(ts, Settled(more), Settled(events));
    }
  }

  /** No event earns nothing. */
  lemma NoRevenue()
    ensures Revenue([]) == 0
  {
    assert Transactions([]) == {};
  }

  /** How many events reached a stage, one event at a time. */
  lemma CountStep(events: seq<Event>, e: Event, s: Stage)
    ensures CountOf([], s) == 0
    ensures CountOf(events + [e], s) == CountOf(events, s) + if e.stage == s then 1 else 0
  {
    assert (events + [e])[..|events|] == events;
  }

  /** r times the base is the amount, and r is absent exactly when the base is zero. */
  predicate IsShare(r: Option<real>, amount: nat, base: nat) {
    (r.Some? <==> base > 0) && (r.Some? ==> r.value * base as real == amount as real)
  }

  lemma RatioIsShare(amount: nat, base: nat)
    ensures IsShare(Ratio(amount, base), amount, base)
  {
  }

  /** The instant, one count for each stage, and the currency of every last event that is
      confirmed or paid. */
  lemma ScoreRules(events: seq<Event>, ops: Operations, at: Time, c: Scorecard)
    requires Scores(events, ops, at, c) && DistinctStages(events)
    ensures c.at == at && forall s: Stage :: s in c.counts && c.counts[s] == CountOf(events, s)
    ensures c.revenue == Revenue(events)
    ensures forall t, e | IsLast(events, t, e) && e.stage in {7, 8} :: e.currency == c.currency
    ensures c.currency.Some? ==> exists t, e :: IsLast(events, t, e) && e.stage in {7, 8}
  {
    forall t, e ensures IsSettled(events, t, e) <==> IsLast(events, t, e) && e.stage in {7, 8} {
      LatestIsLast(events, t, e);
    }
    if c.currency.Some? {
      var t, e :| IsSettled(events, t, e);
      assert IsLast(events, t, e);
    }
  }

  /** There is a currency exactly when some last event is confirmed or paid. */
  lemma CurrencyRules(events: seq<Event>, currency: Option<Id>)
    requires IsSettledCurrency(events, currency) && DistinctStages(events)
    ensures currency.Some? <==> exists t, e :: IsLast(events, t, e) && e.stage in {7, 8}
    ensures forall t, e | IsLast(events, t, e) && e.stage in {7, 8} :: e.currency == currency
  {
    forall t, e ensures IsSettled(events, t, e) <==> IsLast(events, t, e) && e.stage in {7, 8} {
      LatestIsLast(events, t, e);
    }
    if currency.Some? {
      var t, e :| IsSettled(events, t, e);
      assert IsLast(events, t, e);
    }
  }

  /** Revenue per outbound click (stage 4) and per qualified session (2), tasks automated
      and jobs succeeded, and what is left after the cost. */
  lemma RatioRules(events: seq<Event>, ops: Operations, at: Time, c: Scorecard)
    requires Scores(events, ops, at, c)
    ensures IsShare(c.epc, c.revenue, CountOf(events, 4)) && IsShare(c.perSession, c.revenue, CountOf(events, 2))
    ensures IsShare(c.automation, ops.tasksAutomated, ops.tasksTotal) && IsShare(c.jobSuccess, ops.jobsSucceeded, ops.jobsTotal)
    ensures c.profit + ops.cost == c.revenue
  {
    RatioIsShare(c.revenue, CountOf(events, 4));
    RatioIsShare(c.revenue, CountOf(events, 2));
    RatioIsShare(ops.tasksAutomated, ops.tasksTotal);
    RatioIsShare(ops.jobsSucceeded, ops.jobsTotal);
  }
}
