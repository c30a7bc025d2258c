/** The hash-chained action journal and appending to it. */
module ExternalActionJournal {
  import opened Common
  import opened ExternalActionArtifacts
  import opened ExternalActionStore
  import opened ExternalActionSafety
  import opened ExternalActionLifecycle

  /** The event an entry stands for, as the digest of the event's artifact. */
  datatype Payload =
    | GrantPayload(grant: GrantHash)
    | ClaimPayload(claim: Sha<Claim>)
    | RevocationPayload(revocation: Sha<RevocationBody>)
    | ReceiptPayload(receipt: Sha<ReceiptBody>)

  datatype Kind = GrantEvent | ClaimEvent | RevocationEvent | ReceiptEvent

  datatype EntryBody = EntryBody(issuer: Id, keyId: Id, journal: Id, sequence: nat, previous: Sha<EntryBody>,
                                 kind: Kind, payload: Payload, request: Sha<Request>, grant: GrantHash,
                                 idempotencyKey: Id, recordedAt: Time)

  datatype Entry = Entry(body: EntryBody, signature: Signature<EntryBody>)

  datatype JournalError =
    | GrantMismatch | ChainInvalid | NotMonotonic | PredatesGrant
    | AuthorityInvalid | StateRefused | ClaimInvalid | ClaimNotDurable | Empty | SidecarsNotUnique | RevocationsNotDurable
    | ReceiptsNotDurable | GrantNotFirst | ClaimEventInvalid | RevocationMissing | ReceiptEventInvalid
    | GrantCardinality | ClaimCardinality | SidecarsNotExact | ReceiptEvidenceInvalid | StateChanged

  /** A digest of the entry's content without its signature; none before the first. */
  function PreviousOf(entries: seq<Entry>, i: nat): Sha<EntryBody>
    requires i <= |entries|
  {
    if i == 0 then Zero else Sha(entries[i - 1].body)
  }

  /** Links, numbering, bindings and signature of entry i. */
  predicate LinkOk(entries: seq<Entry>, i: nat, journal: Id, r: Request, g: Grant, key: Key)
    requires i < |entries|
  {
    var b := entries[i].body;
    && b.sequence == i + 1
    && b.previous == PreviousOf(entries, i)
    && b.journal == journal
    && b.request == Sha(r)
    && b.grant == Sha(g.body)
    && b.idempotencyKey == r.idempotencyKey
    && Signed(b.issuer, b.keyId, b, entries[i].signature, key)
  }

  ghost predicate Links(entries: seq<Entry>, journal: Id, r: Request, g: Grant, key: Key) {
    forall i: nat | i < |entries| :: LinkOk(entries, i, journal, r, g, key)
  }

  ghost predicate Monotone(entries: seq<Entry>) {
    forall i | 0 < i < |entries| :: entries[i - 1].body.recordedAt <= entries[i].body.recordedAt
  }

  // ---------- Appending ----------

  predicate GrantBelongs(rt: Runtime, r: Request, g: Grant) {
    && ValidRequest(r) && ValidGrant(g) && GrantBindingsMatch(r, g) && r.policy == Sha(rt.policy)
    && GrantSigned(g, rt.trust.controller)
  }

  function NewEntry(rt: Runtime, journal: Id, entries: seq<Entry>, kind: Kind, payload: Payload,
                    r: Request, g: Grant, nonce: nat, at: Time): Entry
  {
    var key := rt.trust.controller;
    var body := EntryBody(key.issuer, key.keyId, journal, |entries| + 1, PreviousOf(entries, |entries|), kind, payload,
                          Sha(r), Sha(g.body), r.idempotencyKey, at);
    Entry(body, Signature(key.keyId, body, nonce))
  }

  /** Appending accepts exactly the chains the fold accepts, times aside: it compares the
      new time with the last entry's only. */
  method AppendEntry(rt: Runtime, journal: Id, entries: seq<Entry>, kind: Kind, payload: Payload,
                     r: Request, g: Grant, nonce: nat, at: Time) returns (e: Result<Entry, JournalError>)
    ensures e.Ok? <==>
              && GrantBelongs(rt, r, g)
              && Links(entries, journal, r, g, rt.trust.controller)
              && (entries != [] ==> entries[|entries| - 1].body.recordedAt <= at)
              && g.body.issuedAt <= at
    ensures e.Ok? ==>
              && e.value.body.kind == kind && e.value.body.payload == payload && e.value.body.recordedAt == at
              && Links(entries + [e.value], journal, r, g, rt.trust.controller)
              && (Monotone(entries) ==> Monotone(entries + [e.value]))
  {
    if !GrantBelongs(rt, r, g) {
      return Err(GrantMismatch);
    }
    var expectedPrevious: Sha<EntryBody> := Zero;
    for i := 0 to |entries|
      invariant expectedPrevious == PreviousOf(entries, i)
      invariant forall k: nat | k < i :: LinkOk(entries, k, journal, r, g, rt.trust.controller)
    {
      if !LinkOk(entries, i, journal, r, g, rt.trust.controller) {
        return Err(ChainInvalid);
      }
      expectedPrevious := Sha(entries[i].body);
    }
    if entries != [] && at < entries[|entries| - 1].body.recordedAt {
      return Err(NotMonotonic);
    }
    if at < g.body.issuedAt {
      return Err(PredatesGrant);
    }
    var entry := NewEntry(rt, journal, entries, kind, payload, r, g, nonce, at);
    LinksExtend(entries, entry, journal, r, g, rt.trust.controller);
    return Ok(entry);
  }

  lemma LinksExtend(entries: seq<Entry>, e: Entry, journal: Id, r: Request, g: Grant, key: Key)
    requires Links(entries, journal, r, g, key)
    requires LinkOk(entries + [e], |entries|, journal, r, g, key)
    ensures Links(entries + [e], journal, r, g, key)
  {
    var more := entries + [e];
    forall i: nat | i < |more| ensures LinkOk(more, i, journal, r, g, key) {
      if i < |entries| {
        assert LinkOk(entries, i, journal, r, g, key);
        assert more[i] == entries[i] && PreviousOf(more, i) == PreviousOf(entries, i);
      }
    }
  }

  /** A journal grown from nothing by accepted appends. */
  ghost predicate Grown(rt: Runtime, journal: Id, r: Request, g: Grant, entries: seq<Entry>) {
    entries == [] ||
    (var n := |entries| - 1;
     && Grown(rt, journal, r, g, entries[..n])
     && GrantBelongs(rt, r, g)
     && g.body.issuedAt <= entries[n].body.recordedAt
     && (n > 0 ==> entries[n - 1].body.recordedAt <= entries[n].body.recordedAt)
     && exists nonce: nat :: entries[n] == NewEntry(rt, journal, entries[..n], entries[n].body.kind,
                                                    entries[n].body.payload, r, g, nonce, entries[n].body.recordedAt))
  }

  /** Every journal built by repeated appending passes the fold's chain checks. */
  lemma {:induction false} GrownPassesChainChecks(rt: Runtime, journal: Id, r: Request, g: Grant, entries: seq<Entry>)
    requires Grown(rt, journal, r, g, entries)
    ensures Links(entries, journal, r, g, rt.trust.controller) && Monotone(entries)
    ensures forall e | e in entries :: g.body.issuedAt <= e.body.recordedAt
    decreases |entries|
  {
    if entries != [] {
      var n := |entries| - 1;
      GrownPassesChainChecks(rt, journal, r, g, entries[..n]);
      assert entries == entries[..n] + [entries[n]];
      LinksExtend(entries[..n], entries[n], journal, r, g, rt.trust.controller);
      forall i | 0 < i < |entries| ensures entries[i - 1].body.recordedAt <= entries[i].body.recordedAt {
        if i < n {
          assert entries[..n][i - 1] == entries[i - 1] && entries[..n][i] == entries[i];
        }
      }
    }
  }

  /** Two linked journals with one head digest agree on every entry; only signatures,
      which no digest covers, may differ. */
  lemma {:induction false} HeadNamesJournal(xs: seq<Entry>, ys: seq<Entry>, j: Id, k: Id, r: Request, q: Request,
                                            g: Grant, h: Grant, key: Key, other: Key)
    requires Links(xs, j, r, g, key) && Links(ys, k, q, h, other)
    requires PreviousOf(xs, |xs|) == PreviousOf(ys, |ys|)
    ensures |xs| == |ys| && forall i | 0 <= i < |xs| :: xs[i].body == ys[i].body
    decreases |xs|
  {
    if xs != [] && ys != [] {
      var n, m := |xs| - 1, |ys| - 1;
      assert LinkOk(xs, n, j, r, g, key) && LinkOk(ys, m, k, q, h, other);
      assert xs[n].body == ys[m].body && n == m;
      LinksPrefix(xs, j, r, g, key);
      LinksPrefix(ys, k, q, h, other);
      assert PreviousOf(xs[..n], n) == PreviousOf(xs, n) && PreviousOf(ys[..m], m) == PreviousOf(ys, m);
      HeadNamesJournal(xs[..n], ys[..m], j, k, r, q, g, h, key, other);
      forall i | 0 <= i < |xs| ensures xs[i].body == ys[i].body {
        if i < n {
          assert xs[..n][i].body == ys[..m][i].body;
        }
      }
    }
  }

  /** When every body is signed in one way, as Ed25519 prescribes, the head digest names
      the whole journal. */
  lemma OneSignerOneJournal(xs: seq<Entry>, ys: seq<Entry>, j: Id, k: Id, r: Request, q: Request,
                            g: Grant, h: Grant, key: Key, other: Key, sign: EntryBody -> Signature<EntryBody>)
    requires Links(xs, j, r, g, key) && Links(ys, k, q, h, other)
    requires forall e | e in xs + ys :: e.signature == sign(e.body)
    ensures PreviousOf(xs, |xs|) == PreviousOf(ys, |ys|) <==> xs == ys
  {
    if PreviousOf(xs, |xs|) == PreviousOf(ys, |ys|) {
      HeadNamesJournal(xs, ys, j, k, r, q, g, h, key, other);
      forall i | 0 <= i < |xs| ensures xs[i] == ys[i] {
        assert xs[i] in xs + ys && ys[i] in xs + ys;
      }
    }
  }

  lemma LinksPrefix(entries: seq<Entry>, journal: Id, r: Request, g: Grant, key: Key)
    requires Links(entries, journal, r, g, key) && entries != []
    ensures Links(entries[..|entries| - 1], journal, r, g, key)
  {
    var less := entries[..|entries| - 1];
    forall i: nat | i < |less| ensures LinkOk(less, i, journal, r, g, key) {
      assert LinkOk(entries, i, journal, r, g, key);
      assert less[i] == entries[i] && PreviousOf(less, i) == PreviousOf(entries, i);
    }
  }
}
