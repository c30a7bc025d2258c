/** Completeness of journals: whatever a run has stored about an issued grant, appending
    can write down so that the fold accepts it. */
module ExternalActionJournaling {
  import opened Common
  import opened ExternalActionArtifacts
  import opened ExternalActionStore
  import opened ExternalActionSafety
  import opened ExternalActionLifecycle
  import opened ExternalActionJournal
  import opened ExternalActionFold

  // ---------- What is stored was checked ----------

  /** The artifacts under which the row of grant h was claimed, and its receipt given. */
  ghost predicate ClaimProof(rt: Runtime, h: GrantHash, row: ClaimRow, r: Request, a: Approval, g: Grant) {
    && h == Sha(g.body) && g.body.request == Sha(r) && g.body.approval == Sha(a.body)
    && ClaimArtifactMatches(rt, r, a, g, row.claim)
    && (row.receipt.Some? ==> ReceiptEvidenceMatches(rt, r, g, row.claim, row.receipt.value))
  }

  ghost predicate ClaimProven(rt: Runtime, h: GrantHash, row: ClaimRow) {
    exists r, a, g :: ClaimProof(rt, h, row, r, a, g)
  }

  ghost predicate RevocationProven(rt: Runtime, v: Revocation) {
    exists r, g :: RevocationAdmissible(rt, r, g, v)
  }

  ghost predicate Proven(rt: Runtime, c: Content) {
    && (forall h | h in c.claims :: ClaimProven(rt, h, c.claims[h]))
    && forall v | v in c.revocations :: RevocationProven(rt, v)
  }

  lemma ClaimRowIsProven(cfg: Config, w: Write)
    requires Accepted(cfg, w) && w.op.ClaimOp?
    ensures var h := Sha(w.op.grant.body); h in w.next.claims && ClaimProven(cfg.rt, h, w.next.claims[h])
  {
    var op := w.op;
    BuiltClaimMatches(cfg.rt, op.request, op.approval, op.grant, w.at, op.preState, op.report, op.verified);
    assert ClaimProof(cfg.rt, Sha(op.grant.body), w.next.claims[Sha(op.grant.body)], op.request, op.approval, op.grant);
  }

  lemma ReceiptRowIsProven(cfg: Config, w: Write)
    requires Accepted(cfg, w) && w.op.ReceiptOp?
    requires forall h | h in w.base.claims :: ClaimProven(cfg.rt, h, w.base.claims[h])
    ensures var h := w.op.claim.grant; h in w.next.claims && ClaimProven(cfg.rt, h, w.next.claims[h])
  {
    var h := w.op.claim.grant;
    var r, a, g :| ClaimProof(cfg.rt, h, w.base.claims[h], r, a, g);
    assert Sha(r) == w.op.claim.request == Sha(w.op.request) && Sha(g.body) == Sha(w.op.grant.body);
    assert ClaimProof(cfg.rt, h, w.next.claims[h], r, a, g);
  }

  lemma WriteKeepsProven(cfg: Config, w: Write)
    requires Accepted(cfg, w) && Proven(cfg.rt, w.base)
    ensures Proven(cfg.rt, w.next)
  {
    match w.op
    case ClaimOp(_, _, _, _, _, _) => ClaimRowIsProven(cfg, w);
    case RevokeOp(r, g, v) => assert RevocationAdmissible(cfg.rt, r, g, v);
    case ReceiptOp(_, _, _, _, _) => ReceiptRowIsProven(cfg, w);
  }

  lemma {:induction false} LogProven(cfg: Config, log: seq<Write>, i: nat)
    requires Linked(log) && (forall w | w in log :: Accepted(cfg, w)) && i <= |log|
    ensures Proven(cfg.rt, ContentAt(log, i))
  {
    if i > 0 {
      LogProven(cfg, log, i - 1);
      assert log[i - 1] in log;
      WriteKeepsProven(cfg, log[i - 1]);
    }
  }

  /** A verified authority is the one under which its grant's row was claimed. */
  lemma ClaimIsOurs(x: FoldInput, row: ClaimRow)
    requires VerifiesAuthority(x) && ClaimProven(x.rt, Sha(x.grant.body), row)
    ensures ClaimProof(x.rt, Sha(x.grant.body), row, x.request, x.approval, x.grant)
  {
    var r, a, g :| ClaimProof(x.rt, Sha(x.grant.body), row, r, a, g);
    assert Sha(r) == Sha(x.request) && Sha(a.body) == Sha(x.approval.body);
  }

  lemma RevocationIsOurs(x: FoldInput, v: Revocation)
    requires VerifiesAuthority(x) && RevocationProven(x.rt, v) && v.body.grant == Sha(x.grant.body)
    ensures RevocationMatches(x.rt, x.request, x.grant, v)
  {
    var r, g :| RevocationAdmissible(x.rt, r, g, v);
    assert Sha(r) == Sha(x.request);
  }

  // ---------- Appending a list of events ----------

  function KindOf(p: Payload): Kind {
    match p
    case GrantPayload(_) => GrantEvent
    case ClaimPayload(_) => ClaimEvent
    case RevocationPayload(_) => RevocationEvent
    case ReceiptPayload(_) => ReceiptEvent
  }

  /** One entry after the other, all recorded at one time. */
  function Recorded(rt: Runtime, journal: Id, r: Request, g: Grant, events: seq<Payload>, at: Time): (entries: seq<Entry>)
    ensures |entries| == |events|
  {
    if events == [] then []
    else
      var n := |events| - 1;
      var before := Recorded(rt, journal, r, g, events[..n], at);
      before + [NewEntry(rt, journal, before, KindOf(events[n]), events[n], r, g, 0, at)]
  }

  lemma {:induction false} RecordedAt(rt: Runtime, journal: Id, r: Request, g: Grant, events: seq<Payload>, at: Time, i: nat)
    requires i < |events|
    ensures var b := Recorded(rt, journal, r, g, events, at)[i].body;
            b.payload == events[i] && b.kind == KindOf(events[i]) && b.recordedAt == at && b.journal == journal
  {
    if i < |events| - 1 {
      RecordedAt(rt, journal, r, g, events[..|events| - 1], at, i);
    }
  }

  lemma {:induction false} RecordedIsGrown(rt: Runtime, journal: Id, r: Request, g: Grant, events: seq<Payload>, at: Time)
    requires GrantBelongs(rt, r, g) && g.body.issuedAt <= at
    ensures Grown(rt, journal, r, g, Recorded(rt, journal, r, g, events, at))
    decreases |events|
  {
    if events != [] {
      var n := |events| - 1;
      var entries := Recorded(rt, journal, r, g, events, at);
      var before := Recorded(rt, journal, r, g, events[..n], at);
      RecordedIsGrown(rt, journal, r, g, events[..n], at);
      assert entries[..n] == before;
      RecordedAt(rt, journal, r, g, events, at, n);
      if n > 0 {
        RecordedAt(rt, journal, r, g, events, at, n - 1);
      }
      assert entries[n] == NewEntry(rt, journal, before, KindOf(events[n]), events[n], r, g, 0, at);
    }
  }

  // ---------- The events of a durable history ----------

  function RevocationEvents(vs: seq<Revocation>): (events: seq<Payload>)
    ensures |events| == |vs| && forall i | 0 <= i < |vs| :: events[i] == RevocationPayload(Sha(vs[i].body))
  {
    if vs == [] then [] else RevocationEvents(vs[..|vs| - 1]) + [RevocationPayload(Sha(vs[|vs| - 1].body))]
  }

  function ClaimEvents(c: Content, g: Grant): seq<Payload> {
    if DurableClaim(c, g).Some? then [ClaimPayload(Sha(DurableClaim(c, g).value))] else []
  }

  function ReceiptEvents(c: Content, g: Grant): seq<Payload> {
    if DurableReceipt(c, g).Some? then [ReceiptPayload(Sha(DurableReceipt(c, g).value.body))] else []
  }

  /** The grant, its claim, its revocations in the given order, its receipt. */
  function EventsOf(c: Content, g: Grant, vs: seq<Revocation>): seq<Payload> {
    [GrantPayload(Sha(g.body))] + ClaimEvents(c, g) + RevocationEvents(vs) + ReceiptEvents(c, g)
  }

  /** What the i-th event is. */
  ghost predicate EventIs(c: Content, g: Grant, vs: seq<Revocation>, p: Payload, i: nat, n: nat) {
    match p
    case GrantPayload(h) => i == 0 && h == Sha(g.body)
    case ClaimPayload(h) => i == 1 && DurableClaim(c, g).Some? && h == Sha(DurableClaim(c, g).value)
    case RevocationPayload(h) => exists v | v in vs :: h == Sha(v.body)
    case ReceiptPayload(h) => i == n - 1 && DurableReceipt(c, g).Some? && h == Sha(DurableReceipt(c, g).value.body)
  }

  lemma EventAt(c: Content, g: Grant, vs: seq<Revocation>, i: nat)
    requires i < |EventsOf(c, g, vs)|
    ensures EventIs(c, g, vs, EventsOf(c, g, vs)[i], i, |EventsOf(c, g, vs)|)
  {
    var k := 1 + |ClaimEvents(c, g)|;
    if k <= i < k + |vs| {
      assert EventsOf(c, g, vs)[i] == RevocationEvents(vs)[i - k];
      assert vs[i - k] in vs;
    }
  }

  ghost predicate DistinctBodies(vs: seq<Revocation>) {
    forall i, j | 0 <= i < j < |vs| :: vs[i].body != vs[j].body
  }

  lemma EventsDiffer(c: Content, g: Grant, vs: seq<Revocation>, i: nat, j: nat)
    requires DistinctBodies(vs) && i < j < |EventsOf(c, g, vs)|
    ensures EventsOf(c, g, vs)[i] != EventsOf(c, g, vs)[j]
  {
    var k := 1 + |ClaimEvents(c, g)|;
    EventAt(c, g, vs, i);
    EventAt(c, g, vs, j);
    if k <= i && j < k + |vs| {
      assert EventsOf(c, g, vs)[i] == RevocationEvents(vs)[i - k] && EventsOf(c, g, vs)[j] == RevocationEvents(vs)[j - k];
    }
  }

  // ---------- The journal that records them ----------

  /** Everything stored about the grant lies in the past. */
  ghost predicate Happened(c: Content, g: Grant, at: Time) {
    && g.body.issuedAt <= at
    && (DurableClaim(c, g).Some? ==> DurableClaim(c, g).value.claimedAt <= at)
    && (DurableReceipt(c, g).Some? ==> DurableReceipt(c, g).value.body.completedAt <= at)
    && forall v | v in DurableRevocations(c, g) :: v.body.issuedAt <= at
  }

  /** A fold input that lists the durable events of its grant, in a journal recorded at
      its own time. */
  ghost predicate Records(x: FoldInput, c: Content, journal: Id) {
    && x.entries == Recorded(x.rt, journal, x.request, x.grant, EventsOf(c, x.grant, x.revocations), x.at)
    && x.claim == DurableClaim(c, x.grant)
    && DistinctBodies(x.revocations) && Elements(x.revocations) == DurableRevocations(c, x.grant)
    && x.receipts == (if DurableReceipt(c, x.grant).Some? then [DurableReceipt(c, x.grant).value] else [])
  }

  lemma RecordedPayload(x: FoldInput, c: Content, journal: Id, i: nat)
    requires Records(x, c, journal) && i < |x.entries|
    ensures var b := x.entries[i].body;
            && b.recordedAt == x.at && b.journal == journal && b.kind == KindOf(b.payload)
            && EventIs(c, x.grant, x.revocations, b.payload, i, |x.entries|)
  {
    RecordedAt(x.rt, journal, x.request, x.grant, EventsOf(c, x.grant, x.revocations), x.at, i);
    EventAt(c, x.grant, x.revocations, i);
  }

  lemma RecordedPayloadsDiffer(x: FoldInput, c: Content, journal: Id, i: nat)
    requires Records(x, c, journal) && i < |x.entries|
    ensures x.entries[i].body.payload !in Payloads(x.entries[..i])
  {
    var events := EventsOf(c, x.grant, x.revocations);
    RecordedAt(x.rt, journal, x.request, x.grant, events, x.at, i);
    forall k: nat | k < i ensures x.entries[..i][k].body.payload != x.entries[i].body.payload {
      RecordedAt(x.rt, journal, x.request, x.grant, events, x.at, k);
      EventsDiffer(c, x.grant, x.revocations, k, i);
    }
  }

  lemma NoEarlierReceipt(x: FoldInput, c: Content, journal: Id, i: nat)
    requires Records(x, c, journal) && i < |x.entries|
    ensures !HasReceiptEvent(x.entries[..i])
  {
    forall k: nat | k < i ensures x.entries[..i][k].body.kind != ReceiptEvent {
      RecordedPayload(x, c, journal, k);
    }
  }

  lemma RecordedEventOk(x: FoldInput, c: Content, journal: Id, i: nat)
    requires VerifiesAuthority(x) && Proven(x.rt, c) && Happened(c, x.grant, x.at)
    requires Records(x, c, journal) && i < |x.entries|
    ensures EventOk(x, i)
  {
    RecordedPayload(x, c, journal, i);
    NoEarlierReceipt(x, c, journal, i);
    if x.entries[i].body.kind == RevocationEvent {
      var v :| v in x.revocations && x.entries[i].body.payload == RevocationPayload(Sha(v.body));
      assert v in Elements(x.revocations) && v in DurableRevocations(c, x.grant);
      RevocationIsOurs(x, v);
    }
  }

  lemma AuthorityBelongs(x: FoldInput)
    requires VerifiesAuthority(x)
    ensures GrantBelongs(x.rt, x.request, x.grant)
  {
  }

  lemma RecordedEntriesOk(x: FoldInput, c: Content, journal: Id)
    requires VerifiesAuthority(x) && Proven(x.rt, c) && Happened(c, x.grant, x.at) && Records(x, c, journal)
    ensures Grown(x.rt, journal, x.request, x.grant, x.entries)
    ensures x.entries != [] && forall i: nat | i < |x.entries| :: EntryOk(x, i)
  {
    AuthorityBelongs(x);
    RecordedIsGrown(x.rt, journal, x.request, x.grant, EventsOf(c, x.grant, x.revocations), x.at);
    GrownPassesChainChecks(x.rt, journal, x.request, x.grant, x.entries);
    RecordedPayload(x, c, journal, 0);
    forall i: nat | i < |x.entries| ensures EntryOk(x, i) {
      assert LinkOk(x.entries, i, journal, x.request, x.grant, x.rt.trust.controller);
      RecordedPayload(x, c, journal, i);
      if i > 0 {
        RecordedPayload(x, c, journal, i - 1);
      }
      RecordedPayloadsDiffer(x, c, journal, i);
      RecordedEventOk(x, c, journal, i);
    }
  }

  lemma RecordedIsComplete(x: FoldInput, c: Content, journal: Id)
    requires Records(x, c, journal)
    ensures Complete(x)
  {
    var events := EventsOf(c, x.grant, x.revocations);
    forall p | p in events ensures p in Payloads(x.entries) {
      var i: nat :| i < |events| && events[i] == p;
      RecordedAt(x.rt, journal, x.request, x.grant, events, x.at, i);
    }
    forall v | v in x.revocations ensures RevocationPayload(Sha(v.body)) in events {
      var i :| 0 <= i < |x.revocations| && x.revocations[i] == v;
      assert RevocationEvents(x.revocations)[i] in RevocationEvents(x.revocations);
    }
  }

  lemma RecordedIsBound(x: FoldInput, c: Content, journal: Id)
    requires VerifiesAuthority(x) && Proven(x.rt, c) && Happened(c, x.grant, x.at) && Records(x, c, journal)
    ensures Bound(x, c) && ReceiptProven(x)
  {
    var h := Sha(x.grant.body);
    if h in c.claims {
      ClaimIsOurs(x, c.claims[h]);
    }
  }

  lemma RecordedIsAccepted(x: FoldInput, c: Content, journal: Id)
    requires VerifiesAuthority(x) && Proven(x.rt, c) && Happened(c, x.grant, x.at) && Records(x, c, journal)
    ensures Grown(x.rt, journal, x.request, x.grant, x.entries) && FoldAccepts(x, c, true)
  {
    RecordedIsBound(x, c, journal);
    RecordedEntriesOk(x, c, journal);
    RecordedIsComplete(x, c, journal);
  }

  // ---------- Every history can be journaled ----------

  lemma {:induction false} ListRevocations(s: set<Revocation>) returns (vs: seq<Revocation>)
    requires forall v, w | v in s && w in s && v.body == w.body :: v == w
    ensures Elements(vs) == s && DistinctBodies(vs)
    decreases |s|
  {
    if s == {} {
      return [];
    }
    var v :| v in s;
    var rest := ListRevocations(s - {v});
    vs := rest + [v];
    assert forall w :: w in vs <==> w in Elements(rest) || w == v;
    forall i, j | 0 <= i < j < |vs| ensures vs[i].body != vs[j].body {
      assert vs[i] in Elements(rest);
      assert j < |rest| ==> vs[j] == rest[j];
    }
  }

  lemma {:induction false} AfterAll(vs: seq<Revocation>, since: Time) returns (at: Time)
    ensures since <= at && forall v | v in vs :: v.body.issuedAt <= at
  {
    at := since;
    if vs != [] {
      at := AfterAll(vs[1..], Max(since, vs[0].body.issuedAt));
      assert forall v | v in vs :: v == vs[0] || v in vs[1..];
    }
  }

  lemma LateEnough(c: Content, g: Grant, vs: seq<Revocation>, since: Time) returns (at: Time)
    requires Elements(vs) == DurableRevocations(c, g)
    ensures since <= at && Happened(c, g, at)
  {
    var claimed := if DurableClaim(c, g).Some? then DurableClaim(c, g).value.claimedAt else since;
    var completed := if DurableReceipt(c, g).Some? then DurableReceipt(c, g).value.body.completedAt else since;
    at := AfterAll(vs, Max(Max(since, g.body.issuedAt), Max(claimed, completed)));
    forall v | v in DurableRevocations(c, g) ensures v.body.issuedAt <= at {
      assert v in Elements(vs);
    }
  }

  /** For every reachable content and every grant that verifies, some journal grown by
      appends alone is accepted by the fold, at a time as late as one likes. */
  lemma EveryHistoryCanBeJournaled(cfg: Config, clock: Time, steps: seq<Step>, s: State, r: Request, a: Approval, g: Grant,
                                   report: Option<PublicReport>, verified: bool, journal: Id, since: Time)
    returns (x: FoldInput)
    requires Reaches(cfg, Init(cfg, clock), steps, s)
    requires VerifiesArtifacts(cfg.rt, r, a, g, g.body.issuedAt, r.preState, report, verified)
    ensures x.rt == cfg.rt && x.request == r && x.approval == a && x.grant == g && since <= x.at
    ensures Grown(cfg.rt, journal, r, g, x.entries) && FoldAccepts(x, Current(s), true)
  {
    InitInv(cfg, clock);
    RunKeepsInv(cfg, Init(cfg, clock), steps, s);
    LogProven(cfg, s.log, |s.log|);
    LogWellFormed(cfg, s.log, |s.log|);
    x := Journaled(cfg, Current(s), r, a, g, report, verified, journal, since);
  }

  lemma Journaled(cfg: Config, c: Content, r: Request, a: Approval, g: Grant, report: Option<PublicReport>, verified: bool,
                  journal: Id, since: Time)
    returns (x: FoldInput)
    requires Proven(cfg.rt, c) && WellFormed(cfg.rt, c)
    requires VerifiesArtifacts(cfg.rt, r, a, g, g.body.issuedAt, r.preState, report, verified)
    ensures x.rt == cfg.rt && x.request == r && x.approval == a && x.grant == g && since <= x.at
    ensures Grown(cfg.rt, journal, r, g, x.entries) && FoldAccepts(x, c, true)
  {
    var vs := ListRevocations(DurableRevocations(c, g));
    var at := LateEnough(c, g, vs, since);
    var durable := DurableReceipt(c, g);
    x := FoldInput(cfg.rt, r, a, g, report, verified, DurableClaim(c, g),
                   Recorded(cfg.rt, journal, r, g, EventsOf(c, g, vs), at), vs,
                   if durable.Some? then [durable.value] else [], at);
    RecordedIsAccepted(x, c, journal);
  }

  /** In particular for whatever the issuer issued. */
  lemma IssuedGrantCanBeJournaled(cfg: Config, clock: Time, steps: seq<Step>, s: State, r: Request, a: Approval, g: Grant,
                                  report: Option<PublicReport>, verified: bool, nonce: nat, issuedAt: Time, journal: Id,
                                  since: Time)
    returns (x: FoldInput)
    requires Reaches(cfg, Init(cfg, clock), steps, s)
    requires IssueGrant(r, a, cfg.rt, report, verified, nonce, issuedAt) == Ok(g)
    ensures x.rt == cfg.rt && x.request == r && x.approval == a && x.grant == g && since <= x.at
    ensures Grown(cfg.rt, journal, r, g, x.entries) && FoldAccepts(x, Current(s), true)
  {
    IssuedVerifiesAtIssue(cfg.rt, r, a, g, report, verified, nonce, issuedAt);
    x := EveryHistoryCanBeJournaled(cfg, clock, steps, s, r, a, g, report, verified, journal, since);
  }

  lemma IssuedVerifiesAtIssue(rt: Runtime, r: Request, a: Approval, g: Grant, report: Option<PublicReport>, verified: bool,
                              nonce: nat, issuedAt: Time)
    requires IssueGrant(r, a, rt, report, verified, nonce, issuedAt) == Ok(g)
    ensures VerifiesArtifacts(rt, r, a, g, g.body.issuedAt, r.preState, report, verified)
  {
  }
}
