/** Folding an action journal against one durable snapshot of the store. */
module ExternalActionFold {
  import opened Common
  import opened ExternalActionArtifacts
  import opened ExternalActionStore
  import opened ExternalActionSafety
  import opened ExternalActionLifecycle
  import opened ExternalActionJournal

  datatype FoldInput = FoldInput(
    rt: Runtime, request: Request, approval: Approval, grant: Grant, report: Option<PublicReport>, verified: bool,
    claim: Option<Claim>, entries: seq<Entry>, revocations: seq<Revocation>, receipts: seq<Receipt>, at: Time)

  datatype JournalReport = JournalReport(
    journal: Id, revision: nat, anchor: Sha<AnchorFile>, authority: Authority, outcome: Option<ActionResult>, count: nat,
    head: Sha<EntryBody>, receipt: Option<Sha<ReceiptBody>>, revocations: set<Sha<RevocationBody>>, at: Time)

  /** What one snapshot of the store says about the grant. */
  function DurableClaim(c: Content, g: Grant): Option<Claim> {
    if Sha(g.body) in c.claims then Some(c.claims[Sha(g.body)].claim) else None
  }

  function DurableReceipt(c: Content, g: Grant): Option<Receipt> {
    if Sha(g.body) in c.claims then c.claims[Sha(g.body)].receipt else None
  }

  function DurableRevocations(c: Content, g: Grant): set<Revocation> {
    set v | v in c.revocations && v.body.grant == Sha(g.body)
  }

  predicate HasReceiptEvent(entries: seq<Entry>) {
    exists k | 0 <= k < |entries| :: entries[k].body.kind == ReceiptEvent
  }

  predicate EventOk(x: FoldInput, i: nat)
    requires i < |x.entries|
  {
    var b := x.entries[i].body;
    match b.kind
    case GrantEvent =>
      i == 0 && b.payload == GrantPayload(Sha(x.grant.body)) && x.grant.body.issuedAt <= b.recordedAt
    case ClaimEvent =>
      && x.claim.Some? && b.payload == ClaimPayload(Sha(x.claim.value)) && x.claim.value.claimedAt <= b.recordedAt
      && !HasReceiptEvent(x.entries[..i])
    case RevocationEvent =>
      exists v | v in x.revocations ::
        && b.payload == RevocationPayload(Sha(v.body)) && RevocationMatches(x.rt, x.request, x.grant, v)
        && v.body.issuedAt <= b.recordedAt
    case ReceiptEvent =>
      && x.claim.Some? && !HasReceiptEvent(x.entries[..i])
      && exists y | y in x.receipts :: b.payload == ReceiptPayload(Sha(y.body)) && y.body.completedAt <= b.recordedAt
  }

  function Payloads(entries: seq<Entry>): set<Payload> {
    set i | 0 <= i < |entries| :: entries[i].body.payload
  }

  predicate EntryOk(x: FoldInput, i: nat)
    requires i < |x.entries|
  {
    && LinkOk(x.entries, i, x.entries[0].body.journal, x.request, x.grant, x.rt.trust.controller)
    && x.entries[i].body.payload !in Payloads(x.entries[..i])
    && x.entries[i].body.recordedAt <= x.at
    && (i > 0 ==> x.entries[i - 1].body.recordedAt <= x.entries[i].body.recordedAt)
    && EventOk(x, i)
  }

  /** Sidecar payloads are unique. */
  predicate UniqueSidecars(x: FoldInput) {
    && (forall i, j | 0 <= i < j < |x.revocations| :: x.revocations[i].body != x.revocations[j].body)
    && (forall i, j | 0 <= i < j < |x.receipts| :: x.receipts[i].body != x.receipts[j].body)
  }

  /** The grant was good at its issue, for the pre-state the request expects. */
  predicate VerifiesAuthority(x: FoldInput) {
    VerifiesArtifacts(x.rt, x.request, x.approval, x.grant, x.grant.body.issuedAt, x.request.preState, x.report, x.verified)
  }

  /** Authority, claim and sidecars are those of the snapshot. */
  ghost predicate Bound(x: FoldInput, c: Content) {
    && VerifiesAuthority(x)
    && (x.claim.Some? ==> ClaimArtifactMatches(x.rt, x.request, x.approval, x.grant, x.claim.value))
    && x.claim == DurableClaim(c, x.grant)
    && UniqueSidecars(x)
    && Elements(x.revocations) == DurableRevocations(c, x.grant)
    && Elements(x.receipts) == (if DurableReceipt(c, x.grant).Some? then {DurableReceipt(c, x.grant).value} else {})
  }

  /** Every durable event has its entry. */
  ghost predicate Complete(x: FoldInput) {
    && GrantPayload(Sha(x.grant.body)) in Payloads(x.entries)
    && (x.claim.Some? ==> ClaimPayload(Sha(x.claim.value)) in Payloads(x.entries))
    && (forall v | v in x.revocations :: RevocationPayload(Sha(v.body)) in Payloads(x.entries))
    && (forall y | y in x.receipts :: ReceiptPayload(Sha(y.body)) in Payloads(x.entries))
  }

  ghost predicate ReceiptProven(x: FoldInput) {
    forall y | y in x.receipts ::
      y.body.completedAt <= x.at && x.claim.Some? && ReceiptEvidenceMatches(x.rt, x.request, x.grant, x.claim.value, y)
  }

  ghost predicate FoldAccepts(x: FoldInput, c: Content, stillCurrent: bool) {
    && Bound(x, c)
    && x.entries != []
    && (forall i: nat | i < |x.entries| :: EntryOk(x, i))
    && Complete(x)
    && ReceiptProven(x)
    && stillCurrent
  }

  // ---------- What an accepted journal is ----------

  /** The payloads of every durable event. */
  ghost function DurablePayloads(c: Content, g: Grant): set<Payload> {
    {GrantPayload(Sha(g.body))}
    + (if DurableClaim(c, g).Some? then {ClaimPayload(Sha(DurableClaim(c, g).value))} else {})
    + RevocationPayloads(DurableRevocations(c, g))
    + (if DurableReceipt(c, g).Some? then {ReceiptPayload(Sha(DurableReceipt(c, g).value.body))} else {})
  }

  ghost function RevocationPayloads(vs: set<Revocation>): set<Payload> {
    set v | v in vs :: RevocationPayload(Sha(v.body))
  }

  lemma EntryPayloadIsDurable(x: FoldInput, c: Content, i: nat)
    requires Bound(x, c) && i < |x.entries| && EventOk(x, i)
    ensures x.entries[i].body.payload in DurablePayloads(c, x.grant)
  {
    var b := x.entries[i].body;
    match b.kind
    case RevocationEvent =>
      var v :| v in x.revocations && b.payload == RevocationPayload(Sha(v.body));
      assert v in Elements(x.revocations);
    case ReceiptEvent =>
      var y :| y in x.receipts && b.payload == ReceiptPayload(Sha(y.body));
      assert y in Elements(x.receipts);
    case _ =>
  }

  lemma DurablePayloadIsListed(x: FoldInput, c: Content, p: Payload)
    requires Bound(x, c) && Complete(x) && p in DurablePayloads(c, x.grant)
    ensures p in Payloads(x.entries)
  {
    match p
    case RevocationPayload(h) =>
      var v :| v in DurableRevocations(c, x.grant) && p == RevocationPayload(Sha(v.body));
      assert v in Elements(x.revocations);
    case ReceiptPayload(h) =>
      assert DurableReceipt(c, x.grant).value in Elements(x.receipts);
    case _ =>
  }

  lemma AcceptedPayloads(x: FoldInput, c: Content)
    requires FoldAccepts(x, c, true)
    ensures Payloads(x.entries) == DurablePayloads(c, x.grant)
  {
    forall p | p in Payloads(x.entries) ensures p in DurablePayloads(c, x.grant) {
      var i: nat :| i < |x.entries| && x.entries[i].body.payload == p;
      assert EntryOk(x, i);
      EntryPayloadIsDurable(x, c, i);
    }
    forall p | p in DurablePayloads(c, x.grant) ensures p in Payloads(x.entries) {
      DurablePayloadIsListed(x, c, p);
    }
  }

  lemma {:induction false} DistinctPayloadCount(entries: seq<Entry>)
    requires forall i: nat | i < |entries| :: entries[i].body.payload !in Payloads(entries[..i])
    ensures |Payloads(entries)| == |entries|
    decreases |entries|
  {
    if entries != [] {
      var n := |entries| - 1;
      var less := entries[..n];
      forall i: nat | i < n ensures less[i].body.payload !in Payloads(less[..i]) {
        assert less[..i] == entries[..i];
      }
      DistinctPayloadCount(less);
      PayloadsExtend(entries, n);
      assert entries[..n + 1] == entries;
    } else {
      assert Payloads(entries) == {};
    }
  }

  lemma PayloadsExtend(entries: seq<Entry>, i: nat)
    requires i < |entries|
    ensures Payloads(entries[..i + 1]) == Payloads(entries[..i]) + {entries[i].body.payload}
  {
    var more, less := entries[..i + 1], entries[..i];
    assert forall k | 0 <= k < i :: more[k] == less[k];
    assert more[i] == entries[i];
    forall p | p in Payloads(less) ensures p in Payloads(more) {
      var k: nat :| k < |less| && less[k].body.payload == p;
      assert more[k].body.payload == p;
    }
  }

  lemma {:induction false} RevocationPayloadCount(vs: set<Revocation>)
    requires forall v, w | v in vs && w in vs && v.body == w.body :: v == w
    ensures |RevocationPayloads(vs)| == |vs|
    decreases |vs|
  {
    if vs == {} {
      assert RevocationPayloads(vs) == {};
    } else {
      var v :| v in vs;
      RevocationPayloadCount(vs - {v});
      assert RevocationPayloads(vs) == RevocationPayloads(vs - {v}) + {RevocationPayload(Sha(v.body))};
    }
  }

  lemma DurablePayloadCount(c: Content, g: Grant)
    requires forall v, w | v in c.revocations && w in c.revocations && v.body == w.body :: v == w
    ensures |DurablePayloads(c, g)| == DurableEvents(c, g)
  {
    var a := {GrantPayload(Sha(g.body))};
    var b := if DurableClaim(c, g).Some? then {ClaimPayload(Sha(DurableClaim(c, g).value))} else {};
    var d := RevocationPayloads(DurableRevocations(c, g));
    var e := if DurableReceipt(c, g).Some? then {ReceiptPayload(Sha(DurableReceipt(c, g).value.body))} else {};
    RevocationPayloadCount(DurableRevocations(c, g));
    assert a !! b && (a + b) !! d && (a + b + d) !! e;
    assert DurablePayloads(c, g) == a + b + d + e;
  }

  /** One grant, its claim and receipt if there are any, and each of its revocations. */
  ghost function DurableEvents(c: Content, g: Grant): nat {
    1 + (if DurableClaim(c, g).Some? then 1 else 0) + |DurableRevocations(c, g)|
    + (if DurableReceipt(c, g).Some? then 1 else 0)
  }

  ghost predicate Distinct(entries: seq<Entry>) {
    forall i, j | 0 <= i < j < |entries| :: entries[i].body.payload != entries[j].body.payload
  }

  ghost predicate ClaimBeforeReceipt(entries: seq<Entry>) {
    forall i, j | 0 <= i < |entries| && 0 <= j < |entries|
                  && entries[i].body.kind == ClaimEvent && entries[j].body.kind == ReceiptEvent :: i < j
  }

  lemma AcceptedOrder(x: FoldInput, c: Content)
    requires FoldAccepts(x, c, true)
    ensures Distinct(x.entries) && ClaimBeforeReceipt(x.entries)
  {
    forall i, j | 0 <= i < j < |x.entries| ensures x.entries[i].body.payload != x.entries[j].body.payload {
      assert x.entries[..j][i] == x.entries[i];
      assert EntryOk(x, j);
    }
    forall i, j | 0 <= i < |x.entries| && 0 <= j < |x.entries|
                  && x.entries[i].body.kind == ClaimEvent && x.entries[j].body.kind == ReceiptEvent
      ensures i < j
    {
      ReceiptInPrefix(x.entries, i);
      assert EntryOk(x, i) && EventOk(x, i);
    }
  }

  lemma ReceiptInPrefix(entries: seq<Entry>, i: nat)
    requires i <= |entries|
    ensures HasReceiptEvent(entries[..i]) <==> exists j :: 0 <= j < i && entries[j].body.kind == ReceiptEvent
  {
    forall j | 0 <= j < i && entries[j].body.kind == ReceiptEvent ensures HasReceiptEvent(entries[..i]) {
      assert entries[..i][j].body.kind == ReceiptEvent;
    }
  }

  /** An accepted journal lists the grant first and each durable event exactly once, and
      nothing else; the claim precedes the receipt. */
  lemma AcceptedJournalShape(x: FoldInput, c: Content)
    requires FoldAccepts(x, c, true) && WellFormed(x.rt, c)
    ensures |x.entries| == DurableEvents(c, x.grant)
    ensures Payloads(x.entries) == DurablePayloads(c, x.grant) && Distinct(x.entries)
    ensures x.entries[0].body.payload == GrantPayload(Sha(x.grant.body)) && ClaimBeforeReceipt(x.entries)
  {
    forall i: nat | i < |x.entries| ensures x.entries[i].body.payload !in Payloads(x.entries[..i]) {
      assert EntryOk(x, i);
    }
    DistinctPayloadCount(x.entries);
    AcceptedPayloads(x, c);
    DurablePayloadCount(c, x.grant);
    GrantComesFirst(x, c);
    AcceptedOrder(x, c);
  }

  lemma GrantComesFirst(x: FoldInput, c: Content)
    requires FoldAccepts(x, c, true)
    ensures x.entries[0].body.payload == GrantPayload(Sha(x.grant.body))
  {
    var p := GrantPayload(Sha(x.grant.body));
    var i: nat :| i < |x.entries| && x.entries[i].body.payload == p;
    assert EntryOk(x, i) && EventOk(x, i);
  }

  // ---------- The fold itself ----------

  /** The accumulators of the fold after entries with the given payloads. */
  datatype Tally = Tally(grants: nat, claims: nat, revocations: set<Sha<RevocationBody>>, receipt: Option<Receipt>)

  ghost predicate TallyOf(x: FoldInput, t: Tally, seen: set<Payload>) {
    && t.grants == (if GrantPayload(Sha(x.grant.body)) in seen then 1 else 0)
    && t.claims == (if x.claim.Some? && ClaimPayload(Sha(x.claim.value)) in seen then 1 else 0)
    && (forall h :: h in t.revocations <==> RevocationPayload(h) in seen)
    && (forall h :: ReceiptPayload(h) in seen <==> t.receipt.Some? && h == Sha(t.receipt.value.body))
    && (t.receipt.Some? ==> t.receipt.value in x.receipts)
  }

  /** The sidecars by digest of their content. */
  function RevocationMap(vs: seq<Revocation>): (m: map<Sha<RevocationBody>, Revocation>)
    requires forall i, j | 0 <= i < j < |vs| :: vs[i].body != vs[j].body
    ensures forall v | v in vs :: Sha(v.body) in m && m[Sha(v.body)] == v
    ensures forall h | h in m :: m[h] in vs && h == Sha(m[h].body)
  {
    if vs == [] then map[] else RevocationMap(vs[..|vs| - 1])[Sha(vs[|vs| - 1].body) := vs[|vs| - 1]]
  }

  function ReceiptMap(ys: seq<Receipt>): (m: map<Sha<ReceiptBody>, Receipt>)
    requires forall i, j | 0 <= i < j < |ys| :: ys[i].body != ys[j].body
    ensures forall y | y in ys :: Sha(y.body) in m && m[Sha(y.body)] == y
    ensures forall h | h in m :: m[h] in ys && h == Sha(m[h].body)
  {
    if ys == [] then map[] else ReceiptMap(ys[..|ys| - 1])[Sha(ys[|ys| - 1].body) := ys[|ys| - 1]]
  }

  /** How one new payload changes the tally. */
  ghost predicate TallyStep(x: FoldInput, t: Tally, t': Tally, p: Payload) {
    match p
    case GrantPayload(h) => h == Sha(x.grant.body) && t' == t.(grants := t.grants + 1)
    case ClaimPayload(h) => x.claim.Some? && h == Sha(x.claim.value) && t' == t.(claims := t.claims + 1)
    case RevocationPayload(h) => t' == t.(revocations := t.revocations + {h})
    case ReceiptPayload(h) =>
      && t.receipt.None? && t'.receipt.Some? && t'.receipt.value in x.receipts && h == Sha(t'.receipt.value.body)
      && t' == t.(receipt := t'.receipt)
  }

  lemma TallyAdvances(x: FoldInput, t: Tally, t': Tally, i: nat)
    requires i < |x.entries| && TallyOf(x, t, Payloads(x.entries[..i]))
    requires x.entries[i].body.payload !in Payloads(x.entries[..i])
    requires TallyStep(x, t, t', x.entries[i].body.payload)
    ensures TallyOf(x, t', Payloads(x.entries[..i + 1]))
  {
    PayloadsExtend(x.entries, i);
  }

  /** One entry, after its chain checks: the event it stands for, added to the tally. */
  method FoldEvent(x: FoldInput, i: nat, t: Tally) returns (r: Result<Tally, JournalError>)
    requires i < |x.entries| && UniqueSidecars(x)
    requires t.receipt.Some? <==> HasReceiptEvent(x.entries[..i])
    ensures r.Ok? <==> EventOk(x, i)
    ensures r.Ok? ==> TallyStep(x, t, r.value, x.entries[i].body.payload)
    ensures r.Ok? ==> (r.value.receipt.Some? <==> t.receipt.Some? || x.entries[i].body.kind == ReceiptEvent)
  {
    var b := x.entries[i].body;
    match b.kind
    case GrantEvent =>
      if i != 0 || b.payload != GrantPayload(Sha(x.grant.body)) || b.recordedAt < x.grant.body.issuedAt {
        return Err(GrantNotFirst);
      }
      return Ok(t.(grants := t.grants + 1));
    case ClaimEvent =>
      if x.claim.None? || b.payload != ClaimPayload(Sha(x.claim.value)) || b.recordedAt < x.claim.value.claimedAt
         || t.receipt.Some? {
        return Err(ClaimEventInvalid);
      }
      return Ok(t.(claims := t.claims + 1));
    case RevocationEvent =>
      var revocations := RevocationMap(x.revocations);
      if !b.payload.RevocationPayload? || b.payload.revocation !in revocations {
        return Err(RevocationMissing);
      }
      var v := revocations[b.payload.revocation];
      if !RevocationMatches(x.rt, x.request, x.grant, v) || b.recordedAt < v.body.issuedAt {
        return Err(RevocationMissing);
      }
      return Ok(t.(revocations := t.revocations + {Sha(v.body)}));
    case ReceiptEvent =>
      var receipts := ReceiptMap(x.receipts);
      if !b.payload.ReceiptPayload? || b.payload.receipt !in receipts || t.receipt.Some? || x.claim.None? {
        return Err(ReceiptEventInvalid);
      }
      var y := receipts[b.payload.receipt];
      if b.recordedAt < y.body.completedAt {
        return Err(ReceiptEventInvalid);
      }
      return Ok(t.(receipt := Some(y)));
  }

  method FoldEntries(x: FoldInput) returns (r: Result<Tally, JournalError>)
    requires x.entries != [] && UniqueSidecars(x)
    ensures r.Ok? <==> forall i: nat | i < |x.entries| :: EntryOk(x, i)
    ensures r.Ok? ==> TallyOf(x, r.value, Payloads(x.entries))
  {
    var tally := Tally(0, 0, {}, None);
    var seen: set<Payload> := {};
    var journal := x.entries[0].body.journal;
    for i := 0 to |x.entries|
      invariant seen == Payloads(x.entries[..i]) && TallyOf(x, tally, seen)
      invariant tally.receipt.Some? <==> HasReceiptEvent(x.entries[..i])
      invariant forall k: nat | k < i :: EntryOk(x, k)
    {
      var e := x.entries[i].body;
      if !LinkOk(x.entries, i, journal, x.request, x.grant, x.rt.trust.controller) || e.payload in seen
         || x.at < e.recordedAt || (i > 0 && e.recordedAt < x.entries[i - 1].body.recordedAt) {
        assert !EntryOk(x, i);
        return Err(ChainInvalid);
      }
      var event := FoldEvent(x, i, tally);
      if event.Err? {
        assert !EntryOk(x, i);
        return event;
      }
      PayloadsExtend(x.entries, i);
      TallyAdvances(x, tally, event.value, i);
      ReceiptInPrefix(x.entries, i);
      ReceiptInPrefix(x.entries, i + 1);
      seen := seen + {e.payload};
      tally := event.value;
    }
    assert x.entries[..|x.entries|] == x.entries;
    return Ok(tally);
  }

  /** A snapshot is taken under the lock, after the integrity check. */
  function Snapshot(cfg: Config, s: State): Option<Content> {
    if s.lock.Free? && Integrity(cfg, s.disk, s.pin) then Some(s.disk.db.content) else None
  }

  /** A second snapshot shows the same revision and anchor. */
  predicate StillCurrent(cfg: Config, c: Content, later: Option<Content>) {
    later.Some? && later.value.revision == c.revision && Sha(AnchorFor(cfg, later.value)) == Sha(AnchorFor(cfg, c))
  }

  /** The report of an accepted journal, from the durable content alone. */
  ghost function ReportOf(cfg: Config, x: FoldInput, c: Content): JournalReport
    requires x.entries != []
  {
    JournalReport(
      x.entries[0].body.journal, c.revision, Sha(AnchorFor(cfg, c)), AuthorityOf(c, x.grant, x.at),
      OutcomeOf(c, x.grant), |x.entries|, Sha(x.entries[|x.entries| - 1].body),
      if DurableReceipt(c, x.grant).Some? then Some(Sha(DurableReceipt(c, x.grant).value.body)) else None,
      set v | v in DurableRevocations(c, x.grant) :: Sha(v.body), x.at)
  }

  /** The checks before the entries: claim and sidecars against the snapshot. */
  method CheckBindings(x: FoldInput, c: Content) returns (error: Option<JournalError>)
    requires VerifiesAuthority(x)
    ensures error.None? <==> Bound(x, c)
  {
    if x.claim.Some? && !ClaimArtifactMatches(x.rt, x.request, x.approval, x.grant, x.claim.value) {
      return Some(JournalError.ClaimInvalid);
    }
    if x.claim != DurableClaim(c, x.grant) {
      return Some(JournalError.ClaimNotDurable);
    }
    if !UniqueSidecars(x) {
      return Some(SidecarsNotUnique);
    }
    if Elements(x.revocations) != DurableRevocations(c, x.grant) {
      return Some(RevocationsNotDurable);
    }
    var durable := DurableReceipt(c, x.grant);
    if Elements(x.receipts) != (if durable.Some? then {durable.value} else {}) {
      return Some(ReceiptsNotDurable);
    }
    return None;
  }

  /** The checks after the entries: the accumulators against claim and sidecars. */
  method CheckTally(x: FoldInput, t: Tally) returns (error: Option<JournalError>)
    requires TallyOf(x, t, Payloads(x.entries)) && (forall i: nat | i < |x.entries| :: EntryOk(x, i))
    ensures error.None? <==> Complete(x)
  {
    if t.grants != 1 {
      return Some(GrantCardinality);
    }
    if t.claims != (if x.claim.Some? then 1 else 0) {
      return Some(ClaimCardinality);
    }
    var revocations := set v | v in x.revocations :: Sha(v.body);
    if revocations != t.revocations {
      SidecarsExact(x, t);
      return Some(SidecarsNotExact);
    }
    assert forall v | v in x.revocations :: Sha(v.body) in revocations;
    var receipts := set y | y in x.receipts :: Sha(y.body);
    if receipts != (if t.receipt.Some? then {Sha(t.receipt.value.body)} else {}) {
      return Some(SidecarsNotExact);
    }
    assert forall y | y in x.receipts :: Sha(y.body) in receipts;
    return None;
  }

  /** Every listed revocation has its sidecar. */
  lemma SidecarsExact(x: FoldInput, t: Tally)
    requires TallyOf(x, t, Payloads(x.entries)) && (forall i: nat | i < |x.entries| :: EntryOk(x, i))
    ensures t.revocations <= set v | v in x.revocations :: Sha(v.body)
  {
    forall h | h in t.revocations ensures h in set v | v in x.revocations :: Sha(v.body) {
      var i: nat :| i < |x.entries| && x.entries[i].body.payload == RevocationPayload(h);
      assert EntryOk(x, i) && EventOk(x, i);
    }
  }

  /** The verdict, from the claim and revocations handed in. */
  method Judge(x: FoldInput, c: Content) returns (a: Authority)
    requires Bound(x, c)
    ensures a == AuthorityOf(c, x.grant, x.at)
  {
    for i := 0 to |x.revocations|
      invariant forall k | 0 <= k < i :: x.at < x.revocations[k].body.effectiveAt
    {
      assert x.revocations[i] in Elements(x.revocations) && x.revocations[i] in DurableRevocations(c, x.grant);
      if x.revocations[i].body.effectiveAt <= x.at {
        return Revoked;
      }
    }
    forall v | v in c.revocations && v.body.grant == Sha(x.grant.body) ensures x.at < v.body.effectiveAt {
      assert v in DurableRevocations(c, x.grant) && v in Elements(x.revocations);
    }
    return if x.claim.Some? then Claimed else if x.at >= x.grant.body.expiresAt then Expired else Granted;
  }

  /** The fold accepts exactly the journals the declarative conditions describe, and its
      report is the one the durable content determines. */
  method FoldJournal(cfg: Config, x: FoldInput, snapshot: Option<Content>, later: Option<Content>)
    returns (r: Result<JournalReport, JournalError>)
    ensures r.Ok? <==> snapshot.Some? && FoldAccepts(x, snapshot.value, StillCurrent(cfg, snapshot.value, later))
    ensures r.Ok? ==> r.value == ReportOf(cfg, x, snapshot.value)
  {
    if !VerifiesAuthority(x) {
      return Err(JournalError.AuthorityInvalid);
    }
    if snapshot.None? {
      return Err(StateRefused);
    }
    var c := snapshot.value;
    var unbound := CheckBindings(x, c);
    if unbound.Some? {
      return Err(unbound.value);
    }
    if x.entries == [] {
      return Err(Empty);
    }
    var tally := FoldEntries(x);
    if tally.Err? {
      return Err(tally.error);
    }
    var t := tally.value;
    var inexact := CheckTally(x, t);
    if inexact.Some? {
      return Err(inexact.value);
    }
    SelectedReceipt(x, c, t);
    if t.receipt.Some? && (x.at < t.receipt.value.body.completedAt
         || !ReceiptEvidenceMatches(x.rt, x.request, x.grant, x.claim.value, t.receipt.value)) {
      return Err(ReceiptEvidenceInvalid);
    }
    var authority := Judge(x, c);
    ListedRevocations(x, c, t);
    var report := JournalReport(
      x.entries[0].body.journal, c.revision, Sha(AnchorFor(cfg, c)), authority,
      if t.receipt.Some? then Some(t.receipt.value.body.result) else None,
      |x.entries|, Sha(x.entries[|x.entries| - 1].body),
      if t.receipt.Some? then Some(Sha(t.receipt.value.body)) else None, t.revocations, x.at);
    if !StillCurrent(cfg, c, later) {
      return Err(StateChanged);
    }
    return Ok(report);
  }

  /** The receipt the fold selected is the durable one. */
  lemma SelectedReceipt(x: FoldInput, c: Content, t: Tally)
    requires Bound(x, c) && Complete(x) && TallyOf(x, t, Payloads(x.entries))
    ensures t.receipt == DurableReceipt(c, x.grant)
    ensures ReceiptProven(x) <==>
              (t.receipt.Some? ==>
                 && t.receipt.value.body.completedAt <= x.at && x.claim.Some?
                 && ReceiptEvidenceMatches(x.rt, x.request, x.grant, x.claim.value, t.receipt.value))
    ensures t.receipt.Some? ==> x.claim.Some?
  {
    if t.receipt.Some? {
      assert t.receipt.value in Elements(x.receipts);
    }
    if DurableReceipt(c, x.grant).Some? {
      assert DurableReceipt(c, x.grant).value in Elements(x.receipts);
    }
    assert forall y | y in x.receipts :: y in Elements(x.receipts);
  }

  lemma ListedRevocations(x: FoldInput, c: Content, t: Tally)
    requires Bound(x, c) && Complete(x) && TallyOf(x, t, Payloads(x.entries))
    requires forall i: nat | i < |x.entries| :: EntryOk(x, i)
    ensures t.revocations == set v | v in DurableRevocations(c, x.grant) :: Sha(v.body)
  {
    SidecarsExact(x, t);
    assert forall v | v in x.revocations :: v in Elements(x.revocations);
    assert forall v | v in DurableRevocations(c, x.grant) :: v in Elements(x.revocations);
  }

  /** The report meets its own validator. */
  lemma ReportIsConsistent(cfg: Config, x: FoldInput, c: Content)
    requires FoldAccepts(x, c, true)
    ensures var report := ReportOf(cfg, x, c);
            && (report.authority == Revoked ==> report.revocations != {})
            && (report.outcome.Some? <==> report.receipt.Some?)
            && (report.outcome.Some? ==> x.claim.Some?)
  {
    if AuthorityOf(c, x.grant, x.at) == Revoked {
      var v :| v in c.revocations && v.body.grant == Sha(x.grant.body) && v.body.effectiveAt <= x.at;
      assert v in DurableRevocations(c, x.grant);
      assert Sha(v.body) in ReportOf(cfg, x, c).revocations;
    }
  }

  // ---------- The head leaves signatures out ----------

  /** Another signature of the same body by the same key. */
  function Resigned(e: Entry): Entry {
    e.(signature := e.signature.(nonce := e.signature.nonce + 1))
  }

  /** The same journal with its last entry signed again. */
  function Twin(x: FoldInput): FoldInput
    requires x.entries != []
  {
    var n := |x.entries| - 1;
    x.(entries := x.entries[..n] + [Resigned(x.entries[n])])
  }

  lemma TwinBodies(x: FoldInput)
    requires x.entries != []
    ensures |Twin(x).entries| == |x.entries|
    ensures forall i | 0 <= i < |x.entries| :: Twin(x).entries[i].body == x.entries[i].body
    ensures forall i: nat | i <= |x.entries| :: Payloads(Twin(x).entries[..i]) == Payloads(x.entries[..i])
    ensures Payloads(Twin(x).entries) == Payloads(x.entries)
  {
    forall i: nat | i <= |x.entries| ensures Payloads(Twin(x).entries[..i]) == Payloads(x.entries[..i]) {
      var xs, ys := x.entries[..i], Twin(x).entries[..i];
      assert forall k | 0 <= k < i :: xs[k].body == ys[k].body;
    }
    assert Twin(x).entries[..|x.entries|] == Twin(x).entries && x.entries[..|x.entries|] == x.entries;
  }

  lemma TwinEntry(x: FoldInput, i: nat)
    requires i < |x.entries| && EntryOk(x, i)
    ensures EntryOk(Twin(x), i)
  {
    TwinBodies(x);
    ReceiptInPrefix(x.entries, i);
    ReceiptInPrefix(Twin(x).entries, i);
    assert LinkOk(Twin(x).entries, i, x.entries[0].body.journal, x.request, x.grant, x.rt.trust.controller);
    assert EventOk(Twin(x), i);
  }

  /** Every accepted journal has a twin, accepted with the same report, head included,
      that is not the same sequence. */
  lemma AcceptedHasTwin(cfg: Config, x: FoldInput, c: Content)
    requires FoldAccepts(x, c, true)
    ensures FoldAccepts(Twin(x), c, true) && ReportOf(cfg, Twin(x), c) == ReportOf(cfg, x, c)
    ensures Twin(x).entries != x.entries
  {
    TwinBodies(x);
    forall i: nat | i < |x.entries| ensures EntryOk(Twin(x), i) {
      assert EntryOk(x, i);
      TwinEntry(x, i);
    }
    var n := |x.entries| - 1;
    assert Twin(x).entries[n].signature.nonce != x.entries[n].signature.nonce;
  }

  // ---------- One store state ----------

  /** When the second snapshot agrees with the first, nothing landed in between: the
      report is about the content every state between them held. */
  lemma OneStateThroughout(cfg: Config, clock: Time, before: seq<Step>, s: State, first: seq<Step>, u: State,
                           second: seq<Step>, s': State)
    requires Reaches(cfg, Init(cfg, clock), before, s) && Reaches(cfg, s, first, u) && Reaches(cfg, u, second, s')
    requires Snapshot(cfg, s).Some? && StillCurrent(cfg, Snapshot(cfg, s).value, Snapshot(cfg, s'))
    ensures Current(u) == Snapshot(cfg, s).value && s.log == u.log == s'.log
  {
    InitInv(cfg, clock);
    RunKeepsInv(cfg, Init(cfg, clock), before, s);
    RunGrows(cfg, s, first, u);
    RunGrows(cfg, u, second, s');
    IntegrityMeansCurrent(cfg, s);
    IntegrityMeansCurrent(cfg, s');
    CurrentRevision(s.log, |s.log|);
  }
}
