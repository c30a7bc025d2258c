/** Feedback events of the growth funnel: parent chains back to a search impression,
    and the settled revenue of a scorecard. */
module Funnel {
  import opened Common

  /** Search impression 0, organic click 1, qualified session 2, comparison 3, outbound
      click 4, merchant event 5, pending 6, confirmed 7, paid 8. */
  type Stage = s: nat | s < 9

  const QUALIFIED: Stage := 2
  const OUTBOUND: Stage := 4
  const PENDING: Stage := 6
  const CONFIRMED: Stage := 7

  datatype Event = Event(id: Id, parent: Option<Id>, identity: Id, stage: Stage, at: Time,
                         transaction: Option<Id>, amount: nat, currency: Option<Id>)

  datatype Batch = Batch(capturedAt: Time, expiresAt: Time, events: seq<Event>)

  // ---------- Valid batches ----------

  predicate ValidEvent(e: Event) {
    if e.stage >= PENDING then e.transaction.Some? && e.currency.Some?
    else e.transaction.None? && e.amount == 0 && e.currency.None?
  }

  /** By time, then by identifier. */
  predicate Before(a: Event, b: Event) {
    a.at < b.at || (a.at == b.at && a.id <= b.id)
  }

  predicate Ordered(events: seq<Event>) {
    forall i, j | 0 <= i < j < |events| :: Before(events[i], events[j])
  }

  predicate DistinctIds(events: seq<Event>) {
    forall i, j | 0 <= i < j < |events| :: events[i].id != events[j].id
  }

  /** A transaction reaches each stage at most once. */
  predicate DistinctStages(events: seq<Event>) {
    forall i, j | 0 <= i < j < |events| && events[i].transaction.Some? ::
      !(events[i].transaction == events[j].transaction && events[i].stage == events[j].stage)
  }

  predicate OneCurrency(events: seq<Event>) {
    forall e, f | e in events && f in events && e.currency.Some? && f.currency.Some? :: e.currency == f.currency
  }

  predicate IsParent(p: Event, e: Event) {
    Some(p.id) == e.parent && p.at <= e.at && p.identity == e.identity && p.stage < e.stage
  }

  predicate ParentOk(events: seq<Event>, e: Event) {
    if e.parent.None? then e.stage == 0 else exists p | p in events :: IsParent(p, e)
  }

  predicate EventOk(b: Batch, e: Event) {
    e.at <= b.capturedAt && ParentOk(b.events, e)
  }

  predicate EventsOk(b: Batch, n: nat)
    requires n <= |b.events|
  {
    forall k | 0 <= k < n :: EventOk(b, b.events[k])
  }

  predicate ValidBatch(b: Batch) {
    && b.capturedAt < b.expiresAt && (forall e | e in b.events :: ValidEvent(e))
    && Ordered(b.events) && DistinctIds(b.events) && OneCurrency(b.events)
    && EventsOk(b, |b.events|) && DistinctStages(b.events)
  }

  /** The events by identifier. */
  ghost predicate IsIndex(m: map<Id, Event>, events: seq<Event>) {
    && (forall e | e in events :: e.id in m && m[e.id] == e)
    && (forall k | k in m :: m[k] in events && m[k].id == k)
  }

  method IndexEvents(events: seq<Event>) returns (m: map<Id, Event>)
    requires DistinctIds(events)
    ensures IsIndex(m, events)
  {
    m := map[];
    for i := 0 to |events|
      invariant IsIndex(m, events[..i])
    {
      assert events[..i + 1] == events[..i] + [events[i]];
      assert forall e | e in events[..i] :: e.id != events[i].id;
      m := m[events[i].id := events[i]];
    }
    assert events[..|events|] == events;
  }

  method CheckOrder(events: seq<Event>) returns (ok: bool)
    ensures ok <==> Ordered(events)
  {
    for i := 0 to |events|
      invariant forall j, k | 0 <= j < k < i :: Before(events[j], events[k])
    {
      if i > 0 && !Before(events[i - 1], events[i]) {
        return false;
      }
    }
    return true;
  }

  method CheckEvent(b: Batch, byId: map<Id, Event>, e: Event) returns (ok: bool)
    requires IsIndex(byId, b.events)
    ensures ok <==> EventOk(b, e)
  {
    if e.at > b.capturedAt {
      return false;
    }
    if e.parent.None? {
      return e.stage == 0;
    }
    if e.parent.value !in byId {
      return false;
    }
    var p := byId[e.parent.value];
    return IsParent(p, e);
  }

  ghost function StagesBefore(events: seq<Event>, i: nat): set<(Id, Stage)>
    requires i <= |events|
  {
    set k | 0 <= k < i && events[k].transaction.Some? :: (events[k].transaction.value, events[k].stage)
  }

  ghost predicate StagesDistinctBefore(events: seq<Event>, i: nat)
    requires i <= |events|
  {
    forall j, k | 0 <= j < k < i && events[j].transaction.Some? ::
      !(events[j].transaction == events[k].transaction && events[j].stage == events[k].stage)
  }

  /** The (transaction, stage) pair of an event, if it has one. */
  function StageKey(e: Event): set<(Id, Stage)> {
    if e.transaction.Some? then {(e.transaction.value, e.stage)} else {}
  }

  lemma StagesExtend(events: seq<Event>, i: nat)
    requires i < |events| && StagesDistinctBefore(events, i)
    ensures StagesBefore(events, i + 1) == StagesBefore(events, i) + StageKey(events[i])
    ensures StagesDistinctBefore(events, i + 1) <==> StageKey(events[i]) !! StagesBefore(events, i)
  {
    var e := events[i];
    if e.transaction.Some? && (e.transaction.value, e.stage) in StagesBefore(events, i) {
      var k :| 0 <= k < i && events[k].transaction.Some? && (events[k].transaction.value, events[k].stage) == (e.transaction.value, e.stage);
      assert events[k].transaction == e.transaction;
    }
  }

  lemma DistinctBefore(events: seq<Event>, i: nat)
    requires i <= |events|
    ensures DistinctStages(events) ==> StagesDistinctBefore(events, i)
    ensures i == |events| && StagesDistinctBefore(events, i) ==> DistinctStages(events)
  {
  }

  /** The source's one loop over the events, as one for parents and one for stages. */
  method CheckParents(b: Batch) returns (ok: bool)
    requires DistinctIds(b.events)
    ensures ok <==> EventsOk(b, |b.events|)
  {
    var byId := IndexEvents(b.events);
    for i := 0 to |b.events|
      invariant EventsOk(b, i)
    {
      var fine := CheckEvent(b, byId, b.events[i]);
      if !fine {
        return false;
      }
    }
    return true;
  }

  method CheckStages(events: seq<Event>) returns (ok: bool)
    ensures ok <==> DistinctStages(events)
  {
    var seen: set<(Id, Stage)> := {};
    for i := 0 to |events|
      invariant seen == StagesBefore(events, i) && StagesDistinctBefore(events, i)
    {
      StagesExtend(events, i);
      DistinctBefore(events, i + 1);
      if !(StageKey(events[i]) !! seen) {
        return false;
      }
      seen := seen + StageKey(events[i]);
    }
    DistinctBefore(events, |events|);
    return true;
  }

  method CheckBatch(b: Batch) returns (ok: bool)
    ensures ok <==> ValidBatch(b)
  {
    if b.expiresAt <= b.capturedAt {
      return false;
    }
    if !(forall e | e in b.events :: ValidEvent(e)) {
      return false;
    }
    var ordered := CheckOrder(b.events);
    if !ordered || !DistinctIds(b.events) || !OneCurrency(b.events) {
      return false;
    }
    var parents := CheckParents(b);
    var stages := CheckStages(b.events);
    return parents && stages;
  }

  // ---------- Parent chains ----------

  /** Each event is the child of the next; the last is a search impression. */
  ghost predicate IsChain(events: seq<Event>, chain: seq<Event>) {
    && chain != [] && (forall e | e in chain :: e in events)
    && (forall i | 0 <= i < |chain| - 1 :: IsParent(chain[i + 1], chain[i]))
    && chain[|chain| - 1].stage == 0 && chain[|chain| - 1].parent.None?
  }

  /** Every event of a valid batch hangs on a search impression of its own identity,
      through parents of strictly smaller stage. */
  lemma {:induction false} ChainToImpression(b: Batch, e: Event) returns (chain: seq<Event>)
    requires ValidBatch(b) && e in b.events
    ensures IsChain(b.events, chain) && chain[0] == e && |chain| <= e.stage + 1
    ensures chain[|chain| - 1].stage == 0 && chain[|chain| - 1].parent.None?
    ensures forall i | 0 <= i < |chain| - 1 :: chain[i].parent == Some(chain[i + 1].id) && chain[i + 1].stage < chain[i].stage
    ensures forall c | c in chain :: c.identity == e.identity && c.at <= e.at
    decreases e.stage
  {
    var k :| 0 <= k < |b.events| && b.events[k] == e;
    assert EventOk(b, b.events[k]);
    if e.parent.None? {
      chain := [e];
    } else {
      var p :| p in b.events && IsParent(p, e);
      var rest := ChainToImpression(b, p);
      chain := [e] + rest;
    }
  }

  lemma SameParent(events: seq<Event>, p: Event, q: Event, e: Event)
    requires DistinctIds(events) && p in events && q in events && IsParent(p, e) && IsParent(q, e)
    ensures p == q
  {
  }

  lemma TailIsChain(events: seq<Event>, chain: seq<Event>)
    requires IsChain(events, chain) && |chain| > 1
    ensures IsChain(events, chain[1..]) && chain[1] in events && IsParent(chain[1], chain[0])
  {
    var tail := chain[1..];
    assert forall e | e in tail :: e in chain;
    assert forall i | 0 <= i < |tail| :: tail[i] == chain[i + 1];
    forall i | 0 <= i < |tail| - 1 ensures IsParent(tail[i + 1], tail[i]) {
      assert IsParent(chain[i + 1 + 1], chain[i + 1]);
    }
    assert IsParent(chain[0 + 1], chain[0]);
  }

  /** An event has one chain. */
  lemma {:induction false} ChainIsUnique(events: seq<Event>, a: seq<Event>, b: seq<Event>)
    requires DistinctIds(events) && IsChain(events, a) && IsChain(events, b) && a[0] == b[0]
    ensures a == b
    decreases |a|
  {
    if |a| > 1 {
      TailIsChain(events, a);
    }
    if |b| > 1 {
      TailIsChain(events, b);
    }
    if |a| > 1 && |b| > 1 {
      SameParent(events, a[1], b[1], a[0]);
      ChainIsUnique(events, a[1..], b[1..]);
      assert a == [a[0]] + a[1..] && b == [b[0]] + b[1..];
    } else {
      assert |a| == |b| == 1;
    }
  }
}
