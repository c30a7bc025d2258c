/** The store's methods over its mutable rows, anchor file and pin.  Each mutation takes
    a fault that says where its process stops; what it does is a run of the transition
    system, so every property of runs is a property of the object. */
module ExternalActionStateStore {
  import opened Common
  import opened ExternalActionArtifacts
  import opened ExternalActionStore
  import opened ExternalActionSafety
  import opened ExternalActionFaults

  datatype Fault =
    | NoFault | CrashBeforeCommit | CrashAfterCommit | CrashInAnchor | CrashAfterAnchor
    | PinDelayed | PinRequestLost | CrashAfterPin

  datatype Failure = IntegrityRefused | Refused(error: StoreError) | Interrupted

  /** The revocation rows of the grant, read one by one. */
  method AnyRevocationBlocks(rt: Runtime, c: Content, r: Request, g: Grant, deadline: Time) returns (blocked: bool)
    ensures blocked <==> RevocationBlocks(rt, c, r, g, deadline)
  {
    var rows := c.revocations;
    while rows != {}
      invariant rows <= c.revocations
      invariant RevocationBlocks(rt, c, r, g, deadline) <==>
                exists v | v in rows ::
                  v.body.grant == Sha(g.body) && (!RevocationMatches(rt, r, g, v) || v.body.effectiveAt <= deadline)
      decreases |rows|
    {
      var v :| v in rows;
      if v.body.grant == Sha(g.body) {
        if !RevocationMatches(rt, r, g, v) {
          return true;
        }
        if v.body.effectiveAt <= deadline {
          return true;
        }
      }
      rows := rows - {v};
    }
    return false;
  }

  /** The two uniqueness queries over the claim rows. */
  method FindCollision(c: Content, r: Request) returns (key: bool, requestId: bool)
    ensures key <==> exists k | k in c.claims :: c.claims[k].claim.idempotencyKey == r.idempotencyKey
    ensures requestId <==> exists k | k in c.claims :: c.claims[k].claim.requestId == r.requestId
  {
    key, requestId := false, false;
    var rest := c.claims.Keys;
    while rest != {}
      invariant rest <= c.claims.Keys
      invariant (exists k | k in c.claims :: c.claims[k].claim.idempotencyKey == r.idempotencyKey) <==>
                key || exists k | k in rest :: c.claims[k].claim.idempotencyKey == r.idempotencyKey
      invariant (exists k | k in c.claims :: c.claims[k].claim.requestId == r.requestId) <==>
                requestId || exists k | k in rest :: c.claims[k].claim.requestId == r.requestId
      decreases |rest|
    {
      var k :| k in rest;
      if c.claims[k].claim.idempotencyKey == r.idempotencyKey {
        key := true;
      }
      if c.claims[k].claim.requestId == r.requestId {
        requestId := true;
      }
      rest := rest - {k};
    }
  }

  class StateStore {
    const cfg: Config
    var db: Db
    var anchor: AnchorFile
    var pin: Pin
    var inFlight: set<Write>
    var clock: Time
    ghost var log: seq<Write>
    ghost var acks: seq<Write>

    /** The abstract state under a given lock. */
    ghost function World(lock: Lock): State
      reads this
    {
      State(Disk(db, anchor), pin, inFlight, lock, clock, log, acks)
    }

    ghost predicate Valid()
      reads this
    {
      Inv(cfg, World(Free))
    }

    /** The content every later check will accept. */
    ghost function Durable(): Content
      reads this
    {
      ContentAt(log, |log|)
    }

    constructor (cfg: Config, clock: Time)
      ensures this.cfg == cfg && Valid() && World(Free) == Init(cfg, clock)
    {
      this.cfg := cfg;
      this.db := DbFor(cfg, EMPTY);
      this.anchor := AnchorFor(cfg, EMPTY);
      this.pin := PinFor(cfg, EMPTY);
      this.inFlight := {};
      this.clock := clock;
      this.log := [];
      this.acks := [];
    }

    method AssertIntegrity() returns (ok: bool)
      requires Valid()
      ensures ok <==> db == DbFor(cfg, Durable()) && anchor == AnchorFor(cfg, Durable())
      ensures ok <==> Integrity(cfg, Disk(db, anchor), pin)
    {
      IntegrityIsExact(cfg, World(Free));
      if !db.schemaOk || db.storeId != cfg.storeId || db.generation != 1 {
        return false;
      }
      var actualMac := Mac(cfg.authKey, StatePayload(db.storeId, db.generation, db.content));
      if actualMac != db.mac {
        return false;
      }
      if anchor.Torn? || anchor.mac != Mac(cfg.authKey, anchor.payload) {
        return false;
      }
      return anchor.payload == AnchorPayload(cfg.storeId, 1, db.content.revision, actualMac)
             && Sha(anchor) == pin.anchor;
    }

    /** One consistent reading of the store, refused unless both files are the pin's. */
    method ReadSnapshot() returns (c: Option<Content>)
      requires Valid()
      ensures c.Some? <==> Integrity(cfg, Disk(db, anchor), pin)
      ensures c.Some? ==> c.value == db.content == Durable()
    {
      var sound := AssertIntegrity();
      return if sound then Some(db.content) else None;
    }

    /** The checks at the entry of the dispatch fence: signed windows, durable claim, and no
        revocation effective before the deadline. */
    method CheckFence(h: Handle, r: Request, a: Approval, g: Grant, claim: Claim, at: Time, notAfter: Time) returns (ok: bool)
      requires Valid()
      ensures ok <==> Enabled(cfg, World(Free), FenceEnter(h, r, a, g, claim, at, notAfter))
      ensures ok ==> at < notAfter <= Min(r.expiresAt, Min(a.body.expiresAt, g.body.expiresAt))
      ensures ok ==> Sha(g.body) in Durable().claims && UnrevokedUntil(Durable(), Sha(g.body), notAfter)
    {
      if notAfter <= at || notAfter > r.expiresAt || notAfter > a.body.expiresAt || notAfter > g.body.expiresAt {
        return false;
      }
      if !ClaimArtifactMatches(cfg.rt, r, a, g, claim) {
        return false;
      }
      var sound := AssertIntegrity();
      if !sound {
        return false;
      }
      if Sha(g.body) !in db.content.claims || db.content.claims[Sha(g.body)].claim != claim {
        return false;
      }
      var blocked := AnyRevocationBlocks(cfg.rt, db.content, r, g, notAfter - 1);
      return !blocked;
    }

    /** A pin request that was sent earlier lands now, or is found lost. */
    method LatePin(w: Write, lost: bool)
      requires Valid() && w in inFlight
      modifies this`pin, this`inFlight, this`log
      ensures World(Free) == Next(cfg, old(World(Free)), if lost then LosePin(w) else LandPin(w))
      ensures Valid()
    {
      StepKeepsInv(cfg, World(Free), if lost then LosePin(w) else LandPin(w));
      inFlight := inFlight - {w};
      if !lost && pin.revision < w.next.revision {
        pin := PinFor(cfg, w.next);
        log := log + [w];
      }
    }

    /** Either file replaced by anything, a restored copy included. */
    method ReplaceFiles(disk: Disk)
      requires Valid()
      modifies this`db, this`anchor
      ensures World(Free) == Next(cfg, old(World(Free)), Tamper(disk)) && Valid()
    {
      StepKeepsInv(cfg, World(Free), Tamper(disk));
      db, anchor := disk.db, disk.anchor;
    }

    /** The commit, the anchor file and the pin, each a point where the process can stop. */
    method CommitAndAnchor(w: Write, fault: Fault) returns (done: bool)
      requires pin.revision < w.next.revision
      modifies this`db, this`anchor, this`pin, this`inFlight, this`log, this`acks
      ensures World(Free) == After(cfg, old(World(Free)), w, fault)
      ensures done <==> fault == NoFault
    {
      if fault == CrashBeforeCommit {
        return false;
      }
      var c := w.next;
      db := Db(true, cfg.storeId, 1, c, Mac(cfg.authKey, StatePayload(cfg.storeId, 1, c)));
      if fault == CrashAfterCommit {
        return false;
      }
      if fault == CrashInAnchor {
        anchor := Torn;
        return false;
      }
      var payload := AnchorPayload(cfg.storeId, 1, c.revision, db.mac);
      anchor := Record(payload, Mac(cfg.authKey, payload));
      if fault == CrashAfterAnchor {
        return false;
      }
      inFlight := inFlight + {w};
      if fault == PinDelayed {
        return false;
      }
      inFlight := inFlight - {w};
      if fault == PinRequestLost {
        return false;
      }
      pin := Pin(c.revision, Sha(anchor));
      log := log + [w];
      if fault == CrashAfterPin {
        return false;
      }
      acks := acks + [w];
      return true;
    }

    /** One guarded mutation: the integrity check, the transaction, then the writes.
        Refusals and identical replays change nothing. */
    method Mutate(h: Handle, op: Op, fault: Fault) returns (r: Result<Content, Failure>)
      requires Valid()
      modifies this`db, this`anchor, this`pin, this`inFlight, this`log, this`acks
      ensures Valid()
      ensures old(Enabled(cfg, World(Free), Begin(h, op))) ==>
                && Reaches(cfg, old(World(Free)), old(FaultSteps(cfg, World(Free), h, op, fault)), World(Free))
                && World(Free) == old(AfterFault(cfg, World(Free), h, op, fault))
                && (r.Ok? <==> fault == NoFault)
                && (r.Ok? ==> r.value == Durable())
      ensures !old(Enabled(cfg, World(Free), Begin(h, op))) ==>
                && World(Free) == old(World(Free))
                && (r == Err(IntegrityRefused) <==> !old(Integrity(cfg, Disk(db, anchor), pin)))
                && (r.Ok? <==> old(Integrity(cfg, Disk(db, anchor), pin)) && Attempt(cfg.rt, old(Durable()), op, clock) == Ok(None))
                && (r.Ok? ==> r.value == Durable())
    {
      ghost var s0 := World(Free);
      var sound := AssertIntegrity();
      if !sound {
        return Err(IntegrityRefused);
      }
      var attempt := Transaction(cfg.rt, db.content, op, clock);
      if attempt.Err? {
        return Err(Refused(attempt.error));
      }
      if attempt.value.None? {
        return Ok(db.content);
      }
      var w := Write(db.content, attempt.value.value, op, clock);
      MutationRun(cfg, s0, h, op, w, fault);
      var done := CommitAndAnchor(w, fault);
      return if done then Ok(db.content) else Err(Interrupted);
    }
  }

  lemma MutationRun(cfg: Config, s: State, h: Handle, op: Op, w: Write, fault: Fault)
    requires Inv(cfg, s) && Enabled(cfg, s, Begin(h, op)) && w == WriteOf(cfg, s, h, op)
    ensures s.pin.revision < w.next.revision
    ensures After(cfg, s, w, fault) == AfterFault(cfg, s, h, op, fault)
    ensures Reaches(cfg, s, FaultSteps(cfg, s, h, op, fault), AfterFault(cfg, s, h, op, fault))
    ensures Inv(cfg, AfterFault(cfg, s, h, op, fault))
    ensures fault == NoFault ==> Current(AfterFault(cfg, s, h, op, fault)) == w.next
  {
    PinIsBehind(cfg, s, h, op);
    FaultRun(cfg, s, h, op, fault);
    RunKeepsInv(cfg, s, FaultSteps(cfg, s, h, op, fault), AfterFault(cfg, s, h, op, fault));
  }

  // ---------- The three transactions ----------

  method ClaimTransaction(rt: Runtime, c: Content, op: Op, now: Time) returns (r: Result<Option<Content>, StoreError>)
    requires op.ClaimOp?
    ensures r == Attempt(rt, c, op, now)
  {
    var ClaimOp(request, approval, grant, preState, report, verified) := op;
    if !VerifiesArtifacts(rt, request, approval, grant, now, preState, report, verified) {
      return Err(AuthorityInvalid);
    }
    var claim := BuildClaim(request, approval, grant, preState, now);
    var blocked := AnyRevocationBlocks(rt, c, request, grant, now);
    if blocked {
      return Err(GrantRevoked);
    }
    if claim.grant in c.claims {
      return Err(GrantClaimed);
    }
    var key, requestId := FindCollision(c, request);
    if key {
      return Err(IdempotencyKeyClaimed);
    }
    if requestId {
      return Err(RequestIdClaimed);
    }
    var rows := c.claims[claim.grant := ClaimRow(claim, None)];
    return Ok(Some(Content(rows, c.revocations, c.revision + 1)));
  }

  method RevocationTransaction(rt: Runtime, c: Content, op: Op, now: Time) returns (r: Result<Option<Content>, StoreError>)
    requires op.RevokeOp?
    ensures r == Attempt(rt, c, op, now)
  {
    var RevokeOp(request, grant, revocation) := op;
    if !RevocationAdmissible(rt, request, grant, revocation) {
      return Err(RevocationInvalid);
    }
    if revocation in c.revocations {
      return Ok(None);
    }
    var rows := c.revocations;
    while rows != {}
      invariant rows <= c.revocations
      invariant (exists w | w in c.revocations :: w.body == revocation.body) <==> exists w | w in rows :: w.body == revocation.body
      decreases |rows|
    {
      var w :| w in rows;
      if w.body == revocation.body {
        return Err(RevocationConflict);
      }
      rows := rows - {w};
    }
    return Ok(Some(Content(c.claims, c.revocations + {revocation}, c.revision + 1)));
  }

  method ReceiptTransaction(rt: Runtime, c: Content, op: Op, now: Time) returns (r: Result<Option<Content>, StoreError>)
    requires op.ReceiptOp?
    ensures r == Attempt(rt, c, op, now)
  {
    var ReceiptOp(request, approval, grant, claim, evidence) := op;
    if !ClaimArtifactMatches(rt, request, approval, grant, claim) {
      return Err(ClaimInvalid);
    }
    if claim.grant !in c.claims || c.claims[claim.grant].claim != claim {
      return Err(ClaimNotDurable);
    }
    var fault := ReceiptFault(rt, request, grant, claim, evidence, now);
    if fault.Some? {
      return Err(fault.value);
    }
    var receipt := BuildReceipt(request, grant, claim, evidence, now);
    var stored := c.claims[claim.grant].receipt;
    if stored.Some? {
      return if stored.value == receipt then Ok(None) else Err(ReceiptConflict);
    }
    var rows := c.claims[claim.grant := ClaimRow(claim, Some(receipt))];
    return Ok(Some(Content(rows, c.revocations, c.revision + 1)));
  }

  method Transaction(rt: Runtime, c: Content, op: Op, now: Time) returns (r: Result<Option<Content>, StoreError>)
    ensures r == Attempt(rt, c, op, now)
  {
    match op
    case ClaimOp(_, _, _, _, _, _) => r := ClaimTransaction(rt, c, op, now);
    case RevokeOp(_, _, _) => r := RevocationTransaction(rt, c, op, now);
    case ReceiptOp(_, _, _, _, _) => r := ReceiptTransaction(rt, c, op, now);
  }

  // ---------- One mutation and its fault, as a run ----------

  function WriteOf(cfg: Config, s: State, h: Handle, op: Op): Write
    requires Enabled(cfg, s, Begin(h, op))
  {
    Next(cfg, s, Begin(h, op)).lock.write
  }

  function FaultSteps(cfg: Config, s: State, h: Handle, op: Op, fault: Fault): seq<Step>
    requires Enabled(cfg, s, Begin(h, op))
  {
    var w := WriteOf(cfg, s, h, op);
    match fault
    case CrashBeforeCommit => [Begin(h, op), GiveUp]
    case CrashAfterCommit => [Begin(h, op), Commit, GiveUp]
    case CrashInAnchor => [Begin(h, op), Commit, TearAnchor, GiveUp]
    case CrashAfterAnchor => [Begin(h, op), Commit, WriteAnchor, GiveUp]
    case PinDelayed => [Begin(h, op), Commit, WriteAnchor, RequestPin, GiveUp]
    case PinRequestLost => [Begin(h, op), Commit, WriteAnchor, RequestPin, LosePin(w), GiveUp]
    case CrashAfterPin => [Begin(h, op), Commit, WriteAnchor, RequestPin, LandPin(w), GiveUp]
    case NoFault => [Begin(h, op), Commit, WriteAnchor, RequestPin, LandPin(w), Acknowledge]
  }

  /** Where the three places stand once the process has stopped. */
  function AfterFault(cfg: Config, s: State, h: Handle, op: Op, fault: Fault): State
    requires Enabled(cfg, s, Begin(h, op))
  {
    After(cfg, s, WriteOf(cfg, s, h, op), fault)
  }

  function After(cfg: Config, s: State, w: Write, fault: Fault): State {
    var written := Disk(DbFor(cfg, w.next), AnchorFor(cfg, w.next));
    match fault
    case CrashBeforeCommit => s
    case CrashAfterCommit => s.(disk := s.disk.(db := written.db))
    case CrashInAnchor => s.(disk := Disk(written.db, Torn))
    case CrashAfterAnchor => s.(disk := written)
    case PinDelayed => s.(disk := written, inFlight := s.inFlight + {w})
    case PinRequestLost => s.(disk := written, inFlight := s.inFlight + {w} - {w})
    case CrashAfterPin =>
      s.(disk := written, inFlight := s.inFlight + {w} - {w}, pin := PinFor(cfg, w.next), log := s.log + [w])
    case NoFault =>
      s.(disk := written, inFlight := s.inFlight + {w} - {w}, pin := PinFor(cfg, w.next), log := s.log + [w],
         acks := s.acks + [w])
  }

  lemma PinIsBehind(cfg: Config, s: State, h: Handle, op: Op)
    requires Inv(cfg, s) && Enabled(cfg, s, Begin(h, op))
    ensures s.pin.revision < WriteOf(cfg, s, h, op).next.revision
  {
    IntegrityMeansCurrent(cfg, s);
    CurrentRevisionInv(cfg, s);
    AttemptAdvances(cfg.rt, s.disk.db.content, op, s.clock);
  }

  lemma RunToCommit(cfg: Config, s: State, h: Handle, op: Op)
    requires Enabled(cfg, s, Begin(h, op))
    ensures var w := WriteOf(cfg, s, h, op);
            Reaches(cfg, s, [Begin(h, op), Commit],
                    s.(disk := s.disk.(db := DbFor(cfg, w.next)), lock := Writing(h, Committed, w)))
  {
    var t := Next(cfg, s, Begin(h, op));
    ReachesStep(cfg, t, Commit, [], Next(cfg, t, Commit));
    ReachesStep(cfg, s, Begin(h, op), [Commit], Next(cfg, t, Commit));
    assert [Begin(h, op)] + [Commit] == [Begin(h, op), Commit];
  }

  lemma RunToRequest(cfg: Config, s: State, h: Handle, op: Op)
    requires Enabled(cfg, s, Begin(h, op))
    ensures var w := WriteOf(cfg, s, h, op);
            var t := s.(disk := Disk(DbFor(cfg, w.next), AnchorFor(cfg, w.next)), lock := Writing(h, Anchored, w));
            && Reaches(cfg, s, [Begin(h, op), Commit, WriteAnchor], t)
            && Reaches(cfg, s, [Begin(h, op), Commit, WriteAnchor, RequestPin],
                       t.(inFlight := s.inFlight + {w}, lock := Writing(h, Requested, w)))
  {
    RunToCommit(cfg, s, h, op);
    var w := WriteOf(cfg, s, h, op);
    var t := s.(disk := s.disk.(db := DbFor(cfg, w.next)), lock := Writing(h, Committed, w));
    ReachesMore(cfg, s, [Begin(h, op), Commit], t, WriteAnchor);
    assert [Begin(h, op), Commit] + [WriteAnchor] == [Begin(h, op), Commit, WriteAnchor];
    var u := Next(cfg, t, WriteAnchor);
    ReachesMore(cfg, s, [Begin(h, op), Commit, WriteAnchor], u, RequestPin);
    assert [Begin(h, op), Commit, WriteAnchor] + [RequestPin] == [Begin(h, op), Commit, WriteAnchor, RequestPin];
  }

  lemma TornRun(cfg: Config, s: State, h: Handle, op: Op)
    requires Enabled(cfg, s, Begin(h, op))
    ensures Reaches(cfg, s, FaultSteps(cfg, s, h, op, CrashInAnchor), AfterFault(cfg, s, h, op, CrashInAnchor))
  {
    var w := WriteOf(cfg, s, h, op);
    var t := s.(disk := s.disk.(db := DbFor(cfg, w.next)), lock := Writing(h, Committed, w));
    RunToCommit(cfg, s, h, op);
    var start := [Begin(h, op), Commit];
    ReachesMore(cfg, s, start, t, TearAnchor);
    ReachesMore(cfg, s, start + [TearAnchor], Next(cfg, t, TearAnchor), GiveUp);
    assert start + [TearAnchor] + [GiveUp] == FaultSteps(cfg, s, h, op, CrashInAnchor);
  }

  lemma CrashEarly(cfg: Config, s: State, h: Handle, op: Op, fault: Fault)
    requires Enabled(cfg, s, Begin(h, op)) && fault in {CrashBeforeCommit, CrashAfterCommit}
    ensures Reaches(cfg, s, FaultSteps(cfg, s, h, op, fault), AfterFault(cfg, s, h, op, fault))
  {
    var w := WriteOf(cfg, s, h, op);
    if fault == CrashBeforeCommit {
      ReachesStep(cfg, Next(cfg, s, Begin(h, op)), GiveUp, [], s);
      ReachesStep(cfg, s, Begin(h, op), [GiveUp], s);
      assert [Begin(h, op)] + [GiveUp] == FaultSteps(cfg, s, h, op, fault);
    } else {
      RunToCommit(cfg, s, h, op);
      var t := s.(disk := s.disk.(db := DbFor(cfg, w.next)), lock := Writing(h, Committed, w));
      ReachesMore(cfg, s, [Begin(h, op), Commit], t, GiveUp);
      assert [Begin(h, op), Commit] + [GiveUp] == FaultSteps(cfg, s, h, op, fault);
    }
  }

  lemma CrashLate(cfg: Config, s: State, h: Handle, op: Op, fault: Fault)
    requires Enabled(cfg, s, Begin(h, op)) && fault in {CrashAfterAnchor, PinDelayed}
    ensures Reaches(cfg, s, FaultSteps(cfg, s, h, op, fault), AfterFault(cfg, s, h, op, fault))
  {
    var w := WriteOf(cfg, s, h, op);
    var u := s.(disk := Disk(DbFor(cfg, w.next), AnchorFor(cfg, w.next)), lock := Writing(h, Anchored, w));
    RunToRequest(cfg, s, h, op);
    var start := [Begin(h, op), Commit, WriteAnchor];
    match fault
    case CrashAfterAnchor =>
      ReachesMore(cfg, s, start, u, GiveUp);
      assert start + [GiveUp] == FaultSteps(cfg, s, h, op, fault);
    case PinDelayed =>
      assert start + [RequestPin] == [Begin(h, op), Commit, WriteAnchor, RequestPin];
      ReachesMore(cfg, s, start + [RequestPin],
                  u.(inFlight := s.inFlight + {w}, lock := Writing(h, Requested, w)), GiveUp);
      assert start + [RequestPin] + [GiveUp] == FaultSteps(cfg, s, h, op, fault);
  }

  /** The state in which the pin request has been sent. */
  function RequestSent(cfg: Config, s: State, h: Handle, w: Write): State {
    s.(disk := Disk(DbFor(cfg, w.next), AnchorFor(cfg, w.next)), inFlight := s.inFlight + {w}, lock := Writing(h, Requested, w))
  }

  lemma AnswerRun(cfg: Config, s: State, h: Handle, op: Op, answer: Step)
    requires Enabled(cfg, s, Begin(h, op)) && answer in {LosePin(WriteOf(cfg, s, h, op)), LandPin(WriteOf(cfg, s, h, op))}
    ensures var t := RequestSent(cfg, s, h, WriteOf(cfg, s, h, op));
            && Enabled(cfg, t, answer)
            && Reaches(cfg, s, [Begin(h, op), Commit, WriteAnchor, RequestPin, answer], Next(cfg, t, answer))
  {
    RunToRequest(cfg, s, h, op);
    var start := [Begin(h, op), Commit, WriteAnchor, RequestPin];
    ReachesMore(cfg, s, start, RequestSent(cfg, s, h, WriteOf(cfg, s, h, op)), answer);
    assert start + [answer] == [Begin(h, op), Commit, WriteAnchor, RequestPin, answer];
  }

  lemma LostRun(cfg: Config, s: State, h: Handle, op: Op)
    requires Enabled(cfg, s, Begin(h, op))
    ensures Reaches(cfg, s, FaultSteps(cfg, s, h, op, PinRequestLost), AfterFault(cfg, s, h, op, PinRequestLost))
  {
    var w := WriteOf(cfg, s, h, op);
    AnswerRun(cfg, s, h, op, LosePin(w));
    var steps := [Begin(h, op), Commit, WriteAnchor, RequestPin, LosePin(w)];
    ReachesMore(cfg, s, steps, Next(cfg, RequestSent(cfg, s, h, w), LosePin(w)), GiveUp);
    assert steps + [GiveUp] == FaultSteps(cfg, s, h, op, PinRequestLost);
  }

  /** The state right after the pin moved. */
  function PinMoved(cfg: Config, s: State, h: Handle, w: Write): State {
    s.(disk := Disk(DbFor(cfg, w.next), AnchorFor(cfg, w.next)), inFlight := s.inFlight + {w} - {w},
       pin := PinFor(cfg, w.next), log := s.log + [w], lock := Writing(h, Requested, w))
  }

  lemma LandedRun(cfg: Config, s: State, h: Handle, op: Op)
    requires Inv(cfg, s) && Enabled(cfg, s, Begin(h, op))
    ensures var w := WriteOf(cfg, s, h, op);
            Reaches(cfg, s, [Begin(h, op), Commit, WriteAnchor, RequestPin, LandPin(w)], PinMoved(cfg, s, h, w))
  {
    PinIsBehind(cfg, s, h, op);
    AnswerRun(cfg, s, h, op, LandPin(WriteOf(cfg, s, h, op)));
  }

  lemma PinRun(cfg: Config, s: State, h: Handle, op: Op, fault: Fault)
    requires Inv(cfg, s) && Enabled(cfg, s, Begin(h, op)) && fault in {CrashAfterPin, NoFault}
    ensures Reaches(cfg, s, FaultSteps(cfg, s, h, op, fault), AfterFault(cfg, s, h, op, fault))
  {
    var w := WriteOf(cfg, s, h, op);
    LandedRun(cfg, s, h, op);
    var steps := [Begin(h, op), Commit, WriteAnchor, RequestPin, LandPin(w)];
    var finish := if fault == NoFault then Acknowledge else GiveUp;
    ReachesMore(cfg, s, steps, PinMoved(cfg, s, h, w), finish);
    assert steps + [finish] == FaultSteps(cfg, s, h, op, fault);
  }

  lemma FaultRun(cfg: Config, s: State, h: Handle, op: Op, fault: Fault)
    requires Inv(cfg, s) && Enabled(cfg, s, Begin(h, op))
    ensures Reaches(cfg, s, FaultSteps(cfg, s, h, op, fault), AfterFault(cfg, s, h, op, fault))
  {
    if fault in {CrashAfterPin, NoFault} {
      PinRun(cfg, s, h, op, fault);
    } else if fault == PinRequestLost {
      LostRun(cfg, s, h, op);
    } else if fault in {CrashAfterAnchor, PinDelayed} {
      CrashLate(cfg, s, h, op, fault);
    } else if fault == CrashInAnchor {
      TornRun(cfg, s, h, op);
    } else {
      CrashEarly(cfg, s, h, op, fault);
    }
  }

  lemma {:induction false} ReachesMore(cfg: Config, s: State, steps: seq<Step>, t: State, step: Step)
    requires Reaches(cfg, s, steps, t) && Enabled(cfg, t, step)
    ensures Reaches(cfg, s, steps + [step], Next(cfg, t, step))
    decreases |steps|
  {
    if steps == [] {
      ReachesStep(cfg, s, step, [], Next(cfg, t, step));
      assert steps + [step] == [step] + [];
    } else {
      ReachesMore(cfg, Next(cfg, s, steps[0]), steps[1..], t, step);
      assert (steps + [step])[1..] == steps[1..] + [step];
    }
  }
}
