/** The durable one-shot store as a transition system.  Its state lies in three
    places that change at different moments: the database, the companion anchor file
    and an external monotonic pin.  Any number of handles write, one at a time under
    the file lock; a crash may fall between any two writes; a pin request may land
    long after its caller gave up; and the two files may be replaced by anything. */
module ExternalActionStore {
  import opened Common
  import opened ExternalActionArtifacts

  // ---------- Content ----------

  datatype ClaimRow = ClaimRow(claim: Claim, receipt: Option<Receipt>)

  datatype Content = Content(claims: map<GrantHash, ClaimRow>, revocations: set<Revocation>, revision: nat)

  const EMPTY := Content(map[], {}, 0)

  /** A mutation requested through the guard. */
  datatype Op =
    | ClaimOp(request: Request, approval: Approval, grant: Grant, preState: Id,
              report: Option<PublicReport>, verified: bool)
    | RevokeOp(request: Request, grant: Grant, revocation: Revocation)
    | ReceiptOp(request: Request, approval: Approval, grant: Grant, claim: Claim, evidence: Evidence)

  datatype StoreError =
    | AuthorityInvalid | GrantRevoked | GrantClaimed | IdempotencyKeyClaimed | RequestIdClaimed
    | RevocationInvalid | RevocationConflict
    | ClaimInvalid | ClaimNotDurable | ReceiptTimeInvalid | PostStateMismatch | ReceiptInvalid | ReceiptConflict

  /** Some stored revocation of the grant is invalid or already effective. */
  predicate RevocationBlocks(rt: Runtime, c: Content, r: Request, g: Grant, deadline: Time) {
    exists v | v in c.revocations ::
      v.body.grant == Sha(g.body) && (!RevocationMatches(rt, r, g, v) || v.body.effectiveAt <= deadline)
  }

  predicate RevocationAdmissible(rt: Runtime, r: Request, g: Grant, v: Revocation) {
    && ValidRequest(r) && ValidGrant(g) && ValidRevocation(v)
    && r.policy == Sha(rt.policy)
    && GrantBindingsMatch(r, g)
    && GrantSigned(g, rt.trust.controller)
    && RevocationMatches(rt, r, g, v)
  }

  /** What the guard's receipt factory checks at its own clock. */
  function ReceiptFault(rt: Runtime, r: Request, g: Grant, c: Claim, e: Evidence, at: Time): Option<StoreError> {
    if at < c.claimedAt || at - c.claimedAt > rt.policy.maxReceiptDelay then Some(ReceiptTimeInvalid)
    else if e.result == Succeeded && e.postState != r.postState then Some(PostStateMismatch)
    else if !ReceiptEvidenceMatches(rt, r, g, c, BuildReceipt(r, g, c, e, at)) then Some(ReceiptInvalid)
    else None
  }

  /** The transaction of one mutation: the new content, None for an identical replay. */
  function Attempt(rt: Runtime, c: Content, op: Op, now: Time): Result<Option<Content>, StoreError> {
    match op
    case ClaimOp(r, a, g, preState, report, verified) =>
      if !VerifiesArtifacts(rt, r, a, g, now, preState, report, verified) then Err(AuthorityInvalid)
      else if RevocationBlocks(rt, c, r, g, now) then Err(GrantRevoked)
      else if Sha(g.body) in c.claims then Err(GrantClaimed)
      else if exists k | k in c.claims :: c.claims[k].claim.idempotencyKey == r.idempotencyKey then
        Err(IdempotencyKeyClaimed)
      else if exists k | k in c.claims :: c.claims[k].claim.requestId == r.requestId then Err(RequestIdClaimed)
      else
        var row := ClaimRow(BuildClaim(r, a, g, preState, now), None);
        Ok(Some(Content(c.claims[Sha(g.body) := row], c.revocations, c.revision + 1)))
    case RevokeOp(r, g, v) =>
      if !RevocationAdmissible(rt, r, g, v) then Err(RevocationInvalid)
      else if v in c.revocations then Ok(None)
      else if exists w | w in c.revocations :: w.body == v.body then Err(RevocationConflict)
      else Ok(Some(Content(c.claims, c.revocations + {v}, c.revision + 1)))
    case ReceiptOp(r, a, g, claim, e) =>
      if !ClaimArtifactMatches(rt, r, a, g, claim) then Err(ClaimInvalid)
      else if claim.grant !in c.claims || c.claims[claim.grant].claim != claim then Err(ClaimNotDurable)
      else
        var fault := ReceiptFault(rt, r, g, claim, e, now);
        if fault.Some? then Err(fault.value)
        else
          var receipt := BuildReceipt(r, g, claim, e, now);
          match c.claims[claim.grant].receipt
          case Some(stored) => if stored == receipt then Ok(None) else Err(ReceiptConflict)
          case None =>
            Ok(Some(Content(c.claims[claim.grant := ClaimRow(claim, Some(receipt))], c.revocations, c.revision + 1)))
  }

  // ---------- Database, anchor file, pin ----------

  datatype StatePayload = StatePayload(storeId: Id, generation: nat, content: Content)

  /** The authenticated database file. */
  datatype Db = Db(schemaOk: bool, storeId: Id, generation: nat, content: Content, mac: Mac<StatePayload>)

  datatype AnchorPayload = AnchorPayload(storeId: Id, generation: nat, revision: nat, stateMac: Mac<StatePayload>)

  /** The companion anchor file; Torn is any file that does not parse. */
  datatype AnchorFile = Torn | Record(payload: AnchorPayload, mac: Mac<AnchorPayload>)

  datatype Disk = Disk(db: Db, anchor: AnchorFile)

  datatype Pin = Pin(revision: nat, anchor: Sha<AnchorFile>)

  datatype Config = Config(rt: Runtime, storeId: Id, authKey: Id)

  function StateMac(cfg: Config, c: Content): Mac<StatePayload> {
    Mac(cfg.authKey, StatePayload(cfg.storeId, 1, c))
  }

  function DbFor(cfg: Config, c: Content): Db {
    Db(true, cfg.storeId, 1, c, StateMac(cfg, c))
  }

  function AnchorFor(cfg: Config, c: Content): AnchorFile {
    var payload := AnchorPayload(cfg.storeId, 1, c.revision, StateMac(cfg, c));
    Record(payload, Mac(cfg.authKey, payload))
  }

  function PinFor(cfg: Config, c: Content): Pin {
    Pin(c.revision, Sha(AnchorFor(cfg, c)))
  }

  /** The integrity check made before every operation. */
  predicate Integrity(cfg: Config, disk: Disk, pin: Pin) {
    && disk.db.schemaOk && disk.db.storeId == cfg.storeId && disk.db.generation == 1
    && disk.db.mac == Mac(cfg.authKey, StatePayload(disk.db.storeId, disk.db.generation, disk.db.content))
    && disk.anchor.Record?
    && disk.anchor.mac == Mac(cfg.authKey, disk.anchor.payload)
    && disk.anchor.payload == AnchorPayload(cfg.storeId, 1, disk.db.content.revision, disk.db.mac)
    && Sha(disk.anchor) == pin.anchor
  }

  // ---------- States and steps ----------

  type Handle = nat

  /** One mutation past its transaction's checks. */
  datatype Write = Write(base: Content, next: Content, op: Op, at: Time)

  datatype Stage = Checked | Committed | Anchored | Requested

  /** The holder of the file lock. */
  datatype Lock =
    | Free
    | Writing(holder: Handle, stage: Stage, write: Write)
    | Fencing(holder: Handle, grant: GrantHash, notAfter: Time)

  /** inFlight: pin requests sent and not yet answered.  log: the writes whose pins
      landed, in order.  acks: the writes whose callers were told of success. */
  datatype State = State(disk: Disk, pin: Pin, inFlight: set<Write>, lock: Lock, clock: Time,
                         log: seq<Write>, acks: seq<Write>)

  datatype Step =
    | Begin(h: Handle, op: Op)
    | Commit
    | TearAnchor
    | WriteAnchor
    | RequestPin
    | LandPin(w: Write)
    | LosePin(w: Write)
    | Acknowledge
    | GiveUp
    | FenceEnter(h: Handle, request: Request, approval: Approval, grant: Grant, claim: Claim, at: Time, notAfter: Time)
    | FenceExit
    | Tick(to: Time)
    | Tamper(disk: Disk)

  /** The content after the first i landed writes. */
  function ContentAt(log: seq<Write>, i: nat): Content
    requires i <= |log|
  {
    if i == 0 then EMPTY else log[i - 1].next
  }

  function Current(s: State): Content {
    ContentAt(s.log, |s.log|)
  }

  predicate FenceAllowed(cfg: Config, s: State, r: Request, a: Approval, g: Grant, claim: Claim, at: Time, notAfter: Time) {
    && at < notAfter <= r.expiresAt && notAfter <= a.body.expiresAt && notAfter <= g.body.expiresAt
    && ClaimArtifactMatches(cfg.rt, r, a, g, claim)
    && Sha(g.body) in s.disk.db.content.claims && s.disk.db.content.claims[Sha(g.body)].claim == claim
    && !RevocationBlocks(cfg.rt, s.disk.db.content, r, g, notAfter - 1)
  }

  function NewContent(cfg: Config, s: State, op: Op): Option<Content> {
    var attempt := Attempt(cfg.rt, s.disk.db.content, op, s.clock);
    if attempt.Ok? then attempt.value else None
  }

  predicate Enabled(cfg: Config, s: State, step: Step) {
    match step
    case Begin(h, op) => s.lock.Free? && Integrity(cfg, s.disk, s.pin) && NewContent(cfg, s, op).Some?
    case Commit => s.lock.Writing? && s.lock.stage.Checked?
    case TearAnchor => s.lock.Writing? && s.lock.stage.Committed?
    case WriteAnchor => s.lock.Writing? && s.lock.stage.Committed?
    case RequestPin => s.lock.Writing? && s.lock.stage.Anchored?
    case LandPin(w) => w in s.inFlight
    case LosePin(w) => w in s.inFlight
    case Acknowledge =>
      s.lock.Writing? && s.lock.stage.Requested? && s.pin.anchor == Sha(AnchorFor(cfg, s.lock.write.next))
    case GiveUp => !s.lock.Free?
    case FenceEnter(h, r, a, g, claim, at, notAfter) =>
      s.lock.Free? && Integrity(cfg, s.disk, s.pin) && FenceAllowed(cfg, s, r, a, g, claim, at, notAfter)
    case FenceExit => s.lock.Fencing?
    case Tick(to) => s.clock <= to
    case Tamper(disk) => true
  }

  /** The external pin never moves back and never changes within one revision: a
      request for a revision it has reached leaves it as it is. */
  function Next(cfg: Config, s: State, step: Step): State
    requires Enabled(cfg, s, step)
  {
    match step
    case Begin(h, op) =>
      s.(lock := Writing(h, Checked, Write(s.disk.db.content, NewContent(cfg, s, op).value, op, s.clock)))
    case Commit =>
      s.(disk := s.disk.(db := DbFor(cfg, s.lock.write.next)), lock := s.lock.(stage := Committed))
    case TearAnchor => s.(disk := s.disk.(anchor := Torn))
    case WriteAnchor =>
      s.(disk := s.disk.(anchor := AnchorFor(cfg, s.lock.write.next)), lock := s.lock.(stage := Anchored))
    case RequestPin => s.(inFlight := s.inFlight + {s.lock.write}, lock := s.lock.(stage := Requested))
    case LandPin(w) =>
      var p := PinFor(cfg, w.next);
      if s.pin.revision < p.revision then s.(inFlight := s.inFlight - {w}, pin := p, log := s.log + [w])
      else s.(inFlight := s.inFlight - {w})
    case LosePin(w) => s.(inFlight := s.inFlight - {w})
    case Acknowledge => s.(lock := Free, acks := s.acks + [s.lock.write])
    case GiveUp => s.(lock := Free)
    case FenceEnter(h, r, a, g, claim, at, notAfter) => s.(lock := Fencing(h, Sha(g.body), notAfter))
    case FenceExit => s.(lock := Free)
    case Tick(to) => s.(clock := to)
    case Tamper(disk) => s.(disk := disk)
  }

  /** A correctly provisioned store: revision 0 everywhere. */
  function Init(cfg: Config, clock: Time): State {
    State(Disk(DbFor(cfg, EMPTY), AnchorFor(cfg, EMPTY)), PinFor(cfg, EMPTY), {}, Free, clock, [], [])
  }

  /** s' is reached from s by the given steps, each enabled where it is taken. */
  ghost predicate Reaches(cfg: Config, s: State, steps: seq<Step>, s': State)
    decreases |steps|
  {
    if steps == [] then s == s'
    else Enabled(cfg, s, steps[0]) && Reaches(cfg, Next(cfg, s, steps[0]), steps[1..], s')
  }

  // ---------- The invariant ----------

  /** A write whose transaction accepted its operation. */
  ghost predicate Accepted(cfg: Config, w: Write) {
    Attempt(cfg.rt, w.base, w.op, w.at) == Ok(Some(w.next))
  }

  /** Each landed write starts from the content its predecessor left. */
  ghost predicate Linked(log: seq<Write>) {
    forall i | 0 <= i < |log| :: log[i].base == ContentAt(log, i) && log[i].next.revision == i + 1
  }

  /** A write that started from some landed content. */
  ghost predicate Branches(log: seq<Write>, w: Write) {
    && w.base.revision <= |log|
    && w.base == ContentAt(log, w.base.revision)
    && w.next.revision == w.base.revision + 1
  }

  ghost predicate Acknowledged(log: seq<Write>, acks: seq<Write>) {
    && (forall w | w in acks ::
          Branches(log, w) && w.next.revision <= |log| && log[w.base.revision].next == w.next)
    && forall i, j | 0 <= i < j < |acks| :: acks[i].next.revision < acks[j].next.revision
  }

  ghost predicate Genuine(cfg: Config, s: State) {
    && (forall w | w in s.log :: Accepted(cfg, w))
    && (forall w | w in s.inFlight :: Accepted(cfg, w))
    && (forall w | w in s.acks :: Accepted(cfg, w))
    && (s.lock.Writing? ==> Accepted(cfg, s.lock.write))
  }

  ghost predicate Inv(cfg: Config, s: State) {
    && Genuine(cfg, s)
    && Linked(s.log)
    && s.pin == PinFor(cfg, Current(s))
    && (forall w | w in s.inFlight :: Branches(s.log, w))
    && Acknowledged(s.log, s.acks)
    && (s.lock.Writing? ==>
          && Branches(s.log, s.lock.write)
          && forall a | a in s.acks :: a.next.revision < s.lock.write.next.revision)
  }

  lemma AttemptAdvances(rt: Runtime, c: Content, op: Op, now: Time)
    ensures var r := Attempt(rt, c, op, now); r.Ok? && r.value.Some? ==> r.value.value.revision == c.revision + 1
  {
  }

  lemma CurrentRevision(log: seq<Write>, i: nat)
    requires Linked(log) && i <= |log|
    ensures ContentAt(log, i).revision == i
  {
  }

  /** The check passes only on exactly the content that the pin names. */
  lemma IntegrityMeansCurrent(cfg: Config, s: State)
    requires s.pin == PinFor(cfg, Current(s)) && Integrity(cfg, s.disk, s.pin)
    ensures s.disk == Disk(DbFor(cfg, Current(s)), AnchorFor(cfg, Current(s)))
  {
    assert s.disk.anchor == AnchorFor(cfg, Current(s));
    assert s.disk.db.mac == StateMac(cfg, Current(s));
  }

  lemma BranchesExtend(log: seq<Write>, w: Write, v: Write)
    requires Branches(log, w)
    ensures Branches(log + [v], w)
  {
    assert ContentAt(log + [v], w.base.revision) == ContentAt(log, w.base.revision);
  }

  lemma LinkedExtend(log: seq<Write>, w: Write)
    requires Linked(log) && Branches(log, w) && w.base.revision == |log|
    ensures Linked(log + [w])
  {
    var more := log + [w];
    forall i | 0 <= i < |more| ensures more[i].base == ContentAt(more, i) && more[i].next.revision == i + 1 {
      assert ContentAt(more, i) == ContentAt(log, i);
      if i < |log| {
        assert more[i] == log[i];
      }
    }
  }

  lemma LandingKeepsInv(cfg: Config, s: State, w: Write)
    requires Inv(cfg, s) && w in s.inFlight && s.pin.revision < w.next.revision
    ensures Inv(cfg, Next(cfg, s, LandPin(w)))
  {
    var s' := Next(cfg, s, LandPin(w));
    CurrentRevision(s.log, |s.log|);
    assert w.base.revision == |s.log|;
    LinkedExtend(s.log, w);
    forall v | v in s'.inFlight ensures Branches(s'.log, v) {
      BranchesExtend(s.log, v, w);
    }
    forall a | a in s.acks ensures Branches(s'.log, a) {
      BranchesExtend(s.log, a, w);
    }
    if s.lock.Writing? {
      BranchesExtend(s.log, s.lock.write, w);
    }
    assert forall i | 0 <= i < |s.log| :: s'.log[i] == s.log[i];
    assert Current(s') == w.next;
  }

  lemma BeginKeepsInv(cfg: Config, s: State, h: Handle, op: Op)
    requires Inv(cfg, s) && Enabled(cfg, s, Begin(h, op))
    ensures Inv(cfg, Next(cfg, s, Begin(h, op)))
    ensures Next(cfg, s, Begin(h, op)).lock.write.base == Current(s)
  {
    var w := Next(cfg, s, Begin(h, op)).lock.write;
    IntegrityMeansCurrent(cfg, s);
    CurrentRevision(s.log, |s.log|);
    AttemptAdvances(cfg.rt, w.base, op, s.clock);
    forall a | a in s.acks ensures a.next.revision < w.next.revision {
      var i :| 0 <= i < |s.acks| && s.acks[i] == a;
    }
  }

  /** Two contents with one anchor are one content. */
  lemma AnchorInjective(cfg: Config, c: Content, d: Content)
    requires Sha(AnchorFor(cfg, c)) == Sha(AnchorFor(cfg, d))
    ensures c == d
  {
    assert AnchorFor(cfg, c).payload == AnchorFor(cfg, d).payload;
    assert StateMac(cfg, c) == StateMac(cfg, d);
  }

  lemma AcknowledgedExtend(log: seq<Write>, acks: seq<Write>, w: Write)
    requires Acknowledged(log, acks)
    requires Branches(log, w) && w.next.revision <= |log| && log[w.base.revision].next == w.next
    requires forall a | a in acks :: a.next.revision < w.next.revision
    ensures Acknowledged(log, acks + [w])
  {
    var more := acks + [w];
    forall i, j | 0 <= i < j < |more| ensures more[i].next.revision < more[j].next.revision {
      assert more[i] == acks[i] && acks[i] in acks;
      assert j < |acks| ==> more[j] == acks[j];
    }
  }

  /** The acknowledged write is the latest landed one. */
  lemma AcknowledgedIsCurrent(cfg: Config, s: State)
    requires Linked(s.log) && s.pin == PinFor(cfg, Current(s))
    requires s.lock.Writing? && Branches(s.log, s.lock.write)
    requires s.pin.anchor == Sha(AnchorFor(cfg, s.lock.write.next))
    ensures var w := s.lock.write; |s.log| > 0 && w.next.revision == |s.log| && s.log[w.base.revision].next == w.next
  {
    AnchorInjective(cfg, s.lock.write.next, Current(s));
    CurrentRevision(s.log, |s.log|);
  }

  lemma AcknowledgeIsGenuine(cfg: Config, s: State)
    requires Genuine(cfg, s) && Enabled(cfg, s, Acknowledge)
    ensures Genuine(cfg, Next(cfg, s, Acknowledge))
  {
    forall w | w in s.acks + [s.lock.write] ensures Accepted(cfg, w) {
      assert w in s.acks || w == s.lock.write;
    }
  }

  lemma AcknowledgeKeepsInv(cfg: Config, s: State)
    requires Inv(cfg, s) && Enabled(cfg, s, Acknowledge)
    ensures Inv(cfg, Next(cfg, s, Acknowledge))
  {
    AcknowledgeIsGenuine(cfg, s);
    AcknowledgedIsCurrent(cfg, s);
    AcknowledgedExtend(s.log, s.acks, s.lock.write);
  }

  /** Every step, by any handle, crash, late pin or replaced file, keeps the invariant. */
  lemma StepKeepsInv(cfg: Config, s: State, step: Step)
    requires Inv(cfg, s) && Enabled(cfg, s, step)
    ensures Inv(cfg, Next(cfg, s, step))
  {
    match step
    case Begin(h, op) => BeginKeepsInv(cfg, s, h, op);
    case LandPin(w) =>
      if s.pin.revision < w.next.revision {
        LandingKeepsInv(cfg, s, w);
      }
    case Acknowledge => AcknowledgeKeepsInv(cfg, s);
    case RequestPin =>
    case _ =>
  }

  lemma InitInv(cfg: Config, clock: Time)
    ensures Inv(cfg, Init(cfg, clock))
  {
  }

  lemma {:induction false} RunKeepsInv(cfg: Config, s: State, steps: seq<Step>, s': State)
    requires Inv(cfg, s) && Reaches(cfg, s, steps, s')
    ensures Inv(cfg, s')
    decreases |steps|
  {
    if steps != [] {
      StepKeepsInv(cfg, s, steps[0]);
      RunKeepsInv(cfg, Next(cfg, s, steps[0]), steps[1..], s');
    }
  }
}
