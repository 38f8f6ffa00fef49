/**
 The admission store: its tables, and what each store call does to them.

 Every operation is one transaction under the ticket row locks it takes.  It is specified
 by a function from the tables before to the tables after; an error means a rollback.
 `Postgres` holds the same operations as the methods of an object that owns the tables.
 */
module Store {
  import opened Basics
  import opened Canonical
  import opened Trail
  import A = Appending
  import C = Checkpoints

  // ---------------------------------------------------------------- tables

  datatype Decision =
    | Accepted | AlreadyRedeemed | AdmittedDegraded | IntegrityQuarantined
    | OperatorControlled | EntryLimitReached | ExitRequired | NotInside
    | ExitNotApplicable | ExitUnverified | OccurrenceRequired | RefundedTicket | ExchangedTicket

  datatype Mode = Normal | OperatorDeny | OperatorAdmit

  datatype Alarm =
    | IntegrityAlarm(organizer: Uuid, ticket: Uuid, reason: AlarmReason, disposition: Decision, mode: Mode)
    | ConflictAlarm(organizer: Uuid, ticket: Uuid, occurrence: EventId, deviceAt: Time, skewed: bool)

  /** One quarantine row.  `admittedAt` marks a live degraded admission; a row without it
      records an occurrence that reconciliation learned of.  `Nil` is a NULL occurrence. */
  datatype QuarantineRow = QuarantineRow(
    ticket: Uuid, organizer: Uuid, reason: AlarmReason, admittedAt: Option<Time>,
    occurrence: EventId, occurredAt: Option<Time>, kind: EventType)

  datatype RefusalRow = RefusalRow(ticket: Uuid, organizer: Uuid, at: Time)

  datatype BatchRow = BatchRow(order: Uuid, quantity: int)

  /** The tables.  Checkpoint ids are positions in `checkpoints`; `passes` holds the slots
      whose policy is a pass (`multi` or `count_limited`). */
  datatype Db = Db(
    tickets: Tickets,
    trail: Trail,
    epochs: C.Epochs,
    checkpoints: seq<C.CheckpointRow>,
    quarantine: seq<QuarantineRow>,
    refusals: map<EventId, RefusalRow>,
    modes: map<Uuid, Mode>,
    alarms: seq<Alarm>,
    consumed: set<Uuid>,
    batches: map<(Uuid, Uuid), BatchRow>,
    passes: set<Uuid>)

  datatype Config = Config(keys: Keys, signer: Option<string>, failureThreshold: int, failureWindow: int)
  {
    /** A policy that is not positive falls back to three failures in a minute. */
    function Threshold(): int {
      if failureThreshold <= 0 || failureWindow <= 0 then 3 else failureThreshold
    }

    function Window(): int {
      if failureThreshold <= 0 || failureWindow <= 0 then 60_000_000 else failureWindow
    }
  }

  datatype StoreError =
    | TicketCredential | OccurrenceCollision | InvalidOccurrence | BadDirection | NotApplicable
    | Unsigned | EventTaken | Damaged | RowExists
    | BadQuantity | RefundConflict | TicketsNotIssued
    | ExchangeNotIssued | SourceVoided | SourceAdmitted

  // ---------------------------------------------------------------- reads

  predicate Has(db: Db, t: Uuid, kind: EventType) {
    A.HasEvent(db.trail.events, t, kind)
  }

  predicate CommerciallyVoid(db: Db, t: Uuid) {
    Has(db, t, Refunded) || Has(db, t, Exchanged)
  }

  predicate Admitting(kind: EventType) {
    kind == Redeemed || kind == Entry
  }

  /** The admission union: has this ticket been used to go through a door, by any route? */
  predicate AdmittedUnion(db: Db, t: Uuid) {
    || Has(db, t, Redeemed) || Has(db, t, Entry)
    || exists q | q in db.quarantine :: q.ticket == t && (q.admittedAt.Some? || Admitting(q.kind))
  }

  function ModeOf(db: Db, organizer: Uuid): Mode {
    if organizer in db.modes then db.modes[organizer] else Normal
  }

  /** The live degraded admission of a ticket, if it took one. */
  function Degraded(q: seq<QuarantineRow>, t: Uuid): (row: Option<QuarantineRow>)
    ensures row.Some? ==> row.value in q && row.value.ticket == t && row.value.admittedAt.Some?
    ensures row.None? ==> forall r | r in q :: !(r.ticket == t && r.admittedAt.Some?)
  {
    if q == [] then None
    else if q[0].ticket == t && q[0].admittedAt.Some? then Some(q[0])
    else Degraded(q[1..], t)
  }

  /** The quarantine row of an occurrence, if there is one. */
  function Quarantined(q: seq<QuarantineRow>, occ: EventId): (row: Option<QuarantineRow>)
    ensures row.Some? ==> row.value in q && row.value.occurrence == occ
    ensures row.None? ==> forall r | r in q :: r.occurrence != occ
  {
    if q == [] then None
    else if q[0].occurrence == occ then Some(q[0])
    else Quarantined(q[1..], occ)
  }

  /** Degraded admissions of an organizer after a point in time. */
  function RecentDegraded(q: seq<QuarantineRow>, organizer: Uuid, after: Time): nat {
    if q == [] then 0
    else
      var n := |q| - 1;
      RecentDegraded(q[..n], organizer, after)
      + if q[n].organizer == organizer && q[n].admittedAt.Some? && q[n].admittedAt.value > after then 1 else 0
  }

  function OrderTickets(db: Db, order: Uuid, organizer: Uuid): seq<Uuid> {
    Ascending(set t | t in db.tickets && db.tickets[t].order == order && db.tickets[t].organizer == organizer)
  }

  /** The time of a ticket's event of a type it has at most once. */
  ghost function EventTime(db: Db, t: Uuid, kind: EventType): Time
    requires Has(db, t, kind)
  {
    var id :| id in db.trail.events && db.trail.events[id].ticket == t && db.trail.events[id].kind == kind;
    db.trail.events[id].at
  }

  // ---------------------------------------------------------------- appends

  ghost function AppendEvent(cfg: Config, db: Db, x: A.Input): Result<Db, StoreError> {
    if cfg.signer.None? then Err(Unsigned)
    else
      match A.Append(cfg.keys.suite, cfg.signer.value, db.trail, x)
      case Err(EventIdTaken) => Err(EventTaken)
      case Err(ChainDamaged) => Err(Damaged)
      case Ok(tr) => Ok(db.(trail := tr))
  }

  /** An append under an occurrence id: a taken id is a collision. */
  ghost function AppendOccurrence(cfg: Config, db: Db, x: A.Input): Result<Db, StoreError> {
    match AppendEvent(cfg, db, x)
    case Err(EventTaken) => Err(OccurrenceCollision)
    case other => other
  }

  ghost function OweAlarm(db: Db, a: Alarm): Db {
    db.(alarms := db.alarms + [a])
  }

  ghost function AddQuarantine(db: Db, row: QuarantineRow): Db {
    db.(quarantine := db.quarantine + [row])
  }

  // ---------------------------------------------------------------- issuance and delivery

  datatype NewTicket = NewTicket(id: Uuid, who: Identity, issuedAt: Time)

  ghost function InsertIssued(cfg: Config, db: Db, t: NewTicket): Result<Db, StoreError> {
    if t.id in db.tickets then Err(RowExists)
    else AppendEvent(cfg, db.(tickets := db.tickets[t.id := t.who]), A.Input(t.id, t.who, IssuedId(t.id), Issued, t.issuedAt))
  }

  ghost function InsertAll(cfg: Config, db: Db, ts: seq<NewTicket>): Result<Db, StoreError>
    decreases |ts|
  {
    if ts == [] then Ok(db)
    else
      match InsertIssued(cfg, db, ts[0])
      case Err(e) => Err(e)
      case Ok(next) => InsertAll(cfg, next, ts[1..])
  }

  ghost function Issue(cfg: Config, db: Db, event: Uuid, ts: seq<NewTicket>): Result<Db, StoreError> {
    if event in db.consumed then Ok(db)
    else InsertAll(cfg, db.(consumed := db.consumed + {event}), ts)
  }

  ghost function MarkDelivered(cfg: Config, db: Db, t: Uuid, now: Time): Result<Db, StoreError> {
    if t !in db.tickets then Err(TicketCredential)
    else if Has(db, t, Delivered) then Ok(db)
    else AppendEvent(cfg, db, A.Input(t, db.tickets[t], DeliveredId(t), Delivered, now))
  }

  // ---------------------------------------------------------------- live redemption

  datatype ScanInput = ScanInput(ticket: Uuid, who: Identity, occurrence: EventId, at: Option<Time>)

  datatype ScanResult = ScanResult(accepted: bool, decision: Decision, at: Time, replayed: bool)

  ghost function Denied(d: Decision, at: Time): ScanResult {
    ScanResult(false, d, at, false)
  }

  /** The stored types that answer a request of this direction at the gate.  A conflict
      recording is not an acceptance and is refused there; the pass path and reconciliation
      accept it for an entry. */
  predicate GateMatches(direction: EventType, stored: EventType) {
    if direction == Exit then stored == Exit else stored == Entry || stored == Redeemed
  }

  predicate RecordMatches(direction: EventType, stored: EventType) {
    GateMatches(direction, stored) || (direction != Exit && stored == DuplicateAdmit)
  }

  /** What the admission record already says of an occurrence: the trail first, then the
      quarantine side, then the local refusals. */
  datatype Recorded =
    | NotRecorded
    | Collision
    | InTrail(at: Time)
    | AsDegraded(at: Time)
    | AsRecording(at: Time)

  ghost function Lookup(db: Db, t: Uuid, occ: EventId, direction: EventType, duplicates: bool): Recorded {
    if occ in db.trail.events then
      var row := db.trail.events[occ];
      if row.ticket != t || !(if duplicates then RecordMatches(direction, row.kind) else GateMatches(direction, row.kind))
      then Collision else InTrail(row.at)
    else
      var q := Quarantined(db.quarantine, occ);
      if q.Some? then
        if q.value.ticket != t then Collision
        else if q.value.admittedAt.Some? then AsDegraded(q.value.admittedAt.value)
        else if !(if duplicates then RecordMatches(direction, q.value.kind) else GateMatches(direction, q.value.kind))
        then Collision
        else AsRecording(if q.value.occurredAt.Some? then q.value.occurredAt.value else 0)
      else if occ in db.refusals then Collision
      else NotRecorded
  }

  /** A replay hands back the original result. */
  ghost function Replay(r: Recorded): ScanResult
    requires !r.NotRecorded? && !r.Collision?
  {
    match r
    case InTrail(at) => ScanResult(true, Accepted, at, true)
    case AsDegraded(at) => ScanResult(true, AdmittedDegraded, at, true)
    case AsRecording(at) => ScanResult(true, Accepted, at, true)
  }

  /** The flip leaves every mode but `Normal` alone. */
  ghost function FlipMode(db: Db, organizer: Uuid): Db {
    if ModeOf(db, organizer) == Normal then db.(modes := db.modes[organizer := OperatorDeny]) else db
  }

  /** A scan of a ticket whose chain did not verify. */
  ghost function DegradedScan(cfg: Config, db: Db, t: Uuid, who: Identity, occ: EventId, direction: EventType,
                        reason: AlarmReason, now: Time): Result<(Db, ScanResult), StoreError> {
    var seen := if occ == Nil then NotRecorded else Lookup(db, t, occ, direction, false);
    if seen.Collision? then Err(OccurrenceCollision)
    else if !seen.NotRecorded? then Ok((db, Replay(seen)))
    else
      var mode := ModeOf(db, who.organizer);
      var taken := Degraded(db.quarantine, t);
      if taken.Some? then
        Ok((OweAlarm(db, IntegrityAlarm(who.organizer, t, reason, IntegrityQuarantined, mode)),
            Denied(IntegrityQuarantined, taken.value.admittedAt.value)))
      else if mode == OperatorDeny then
        Ok((OweAlarm(db, IntegrityAlarm(who.organizer, t, reason, OperatorControlled, mode)),
            Denied(OperatorControlled, now)))
      else
        Ok((AdmitDegraded(cfg, db, t, who, occ, reason, now), ScanResult(true, AdmittedDegraded, now, false)))
  }

  /** The one degraded admission: its quarantine row, the mode flip it may trigger, its alarm. */
  ghost function AdmitDegraded(cfg: Config, db: Db, t: Uuid, who: Identity, occ: EventId, reason: AlarmReason, now: Time): Db {
    var admitted := AddQuarantine(db, QuarantineRow(t, who.organizer, reason, Some(now), occ, None, Redeemed));
    var flipped := if RecentDegraded(admitted.quarantine, who.organizer, now - cfg.Window()) >= cfg.Threshold()
                   then FlipMode(admitted, who.organizer) else admitted;
    OweAlarm(flipped, IntegrityAlarm(who.organizer, t, reason, AdmittedDegraded, ModeOf(flipped, who.organizer)))
  }

  predicate BadOccurrence(x: ScanInput) {
    x.occurrence != Nil && (!x.occurrence.Occurrence? || x.at.None?)
  }

  /** Live redemption on a single-entry slot.  `verdict` is the gate's answer about the
      chain; `now` is the clock, `dbNow` the time the database supplies. */
  ghost function RedeemSingle(cfg: Config, db: Db, x: ScanInput, verdict: Option<AlarmReason>, now: Time, dbNow: Time)
    : Result<(Db, ScanResult), StoreError>
  {
    if BadOccurrence(x) then Err(InvalidOccurrence)
    else if x.ticket !in db.tickets || db.tickets[x.ticket] != x.who then Err(TicketCredential)
    else if Has(db, x.ticket, Refunded) then Ok((db, Denied(RefundedTicket, now)))
    else if Has(db, x.ticket, Exchanged) then Ok((db, Denied(ExchangedTicket, now)))
    else if verdict.Some? then DegradedScan(cfg, db, x.ticket, x.who, x.occurrence, Entry, verdict.value, now)
    else RedeemVerified(cfg, db, x, dbNow)
  }

  ghost function RedeemVerified(cfg: Config, db: Db, x: ScanInput, dbNow: Time): Result<(Db, ScanResult), StoreError>
    requires !BadOccurrence(x)
  {
    var seen := if x.occurrence == Nil then NotRecorded else Lookup(db, x.ticket, x.occurrence, Entry, false);
    if seen.Collision? then Err(OccurrenceCollision)
    else if !seen.NotRecorded? then Ok((db, Replay(seen)))
    else
      var taken := Degraded(db.quarantine, x.ticket);
      if taken.Some? then
        Ok((OweAlarm(db, IntegrityAlarm(x.who.organizer, x.ticket, taken.value.reason, IntegrityQuarantined,
                                        ModeOf(db, x.who.organizer))),
            Denied(IntegrityQuarantined, taken.value.admittedAt.value)))
      else if Has(db, x.ticket, Redeemed) then Ok((db, Denied(AlreadyRedeemed, EventTime(db, x.ticket, Redeemed))))
      else if x.occurrence == Nil then
        match AppendEvent(cfg, db, A.Input(x.ticket, x.who, RedeemedId(x.ticket), Redeemed, dbNow))
        case Err(e) => Err(e)
        case Ok(next) => Ok((next, ScanResult(true, Accepted, dbNow, false)))
      else
        match AppendOccurrence(cfg, db, A.Input(x.ticket, x.who, x.occurrence, Redeemed, x.at.value))
        case Err(e) => Err(e)
        case Ok(next) => Ok((next, ScanResult(true, Accepted, x.at.value, false)))
  }

  /** Live admission on a pass slot.  `live` is the answer of the pass policy over the facts
      known so far, which `Conflicts` models. */
  ghost function AdmitPass(cfg: Config, db: Db, x: ScanInput, direction: EventType, verdict: Option<AlarmReason>,
                           live: Decision, now: Time): Result<(Db, ScanResult), StoreError>
  {
    if x.occurrence == Nil then Ok((db, Denied(OccurrenceRequired, now)))
    else if BadOccurrence(x) then Err(InvalidOccurrence)
    else if x.ticket !in db.tickets || db.tickets[x.ticket] != x.who then Err(TicketCredential)
    else if Has(db, x.ticket, Refunded) then Ok((db, Denied(RefundedTicket, now)))
    else if Has(db, x.ticket, Exchanged) then Ok((db, Denied(ExchangedTicket, now)))
    else if verdict.Some? && direction == Exit then ExitUnverifiedScan(db, x, verdict.value, now)
    else if verdict.Some? then DegradedScan(cfg, db, x.ticket, x.who, x.occurrence, direction, verdict.value, now)
    else PassVerified(cfg, db, x, direction, live, now)
  }

  /** An exit admits nobody: it never consumes the degraded admission. */
  ghost function ExitUnverifiedScan(db: Db, x: ScanInput, reason: AlarmReason, now: Time): Result<(Db, ScanResult), StoreError> {
    var seen := Lookup(db, x.ticket, x.occurrence, Exit, true);
    if seen.Collision? then Err(OccurrenceCollision)
    else if !seen.NotRecorded? then Ok((db, Replay(seen)))
    else Ok((OweAlarm(db, IntegrityAlarm(x.who.organizer, x.ticket, reason, ExitUnverified, ModeOf(db, x.who.organizer))),
             Denied(ExitUnverified, now)))
  }

  ghost function PassVerified(cfg: Config, db: Db, x: ScanInput, direction: EventType, live: Decision, now: Time)
    : Result<(Db, ScanResult), StoreError>
    requires !BadOccurrence(x) && x.occurrence != Nil
  {
    var seen := Lookup(db, x.ticket, x.occurrence, direction, true);
    if seen.Collision? then Err(OccurrenceCollision)
    else if !seen.NotRecorded? then Ok((db, Replay(seen)))
    else
      var taken := Degraded(db.quarantine, x.ticket);
      if taken.Some? then
        Ok((OweAlarm(db, IntegrityAlarm(x.who.organizer, x.ticket, taken.value.reason, IntegrityQuarantined,
                                        ModeOf(db, x.who.organizer))),
            Denied(IntegrityQuarantined, taken.value.admittedAt.value)))
      else if live != Accepted then Ok((db, Denied(live, now)))
      else
        match AppendOccurrence(cfg, db, A.Input(x.ticket, x.who, x.occurrence, direction, x.at.value))
        case Err(e) => Err(e)
        case Ok(next) => Ok((next, ScanResult(true, Accepted, x.at.value, false)))
  }

  /** The policy-aware gate.  The policy is that of the slot the credential names. */
  ghost function Scan(cfg: Config, db: Db, x: ScanInput, direction: EventType, verdict: Option<AlarmReason>,
                      live: Decision, now: Time, dbNow: Time): Result<(Db, ScanResult), StoreError>
  {
    if direction != Entry && direction != Exit then Err(BadDirection)
    else if x.who.slot in db.passes then AdmitPass(cfg, db, x, direction, verdict, live, now)
    else if direction == Exit then Ok((db, Denied(ExitNotApplicable, now)))
    else RedeemSingle(cfg, db, x, verdict, now, dbNow)
  }

  // ---------------------------------------------------------------- recording

  datatype Stored = Stored(kind: EventType, at: Time, replayed: bool)

  /** Recording one repeatable event.  Its replay check reads the trail and the refusals. */
  ghost function RecordAdmission(cfg: Config, db: Db, x: ScanInput, kind: EventType): Result<(Db, Stored), StoreError> {
    if kind !in {Entry, Exit, DuplicateAdmit} then Err(BadDirection)
    else if !x.occurrence.Occurrence? || x.at.None? then Err(InvalidOccurrence)
    else if x.ticket !in db.tickets || db.tickets[x.ticket] != x.who then Err(TicketCredential)
    else if x.occurrence in db.trail.events then
      var row := db.trail.events[x.occurrence];
      if row.ticket != x.ticket || row.kind != kind then Err(OccurrenceCollision) else Ok((db, Stored(kind, row.at, true)))
    else if x.occurrence in db.refusals then Err(OccurrenceCollision)
    else
      match AppendOccurrence(cfg, db, A.Input(x.ticket, x.who, x.occurrence, kind, x.at.value))
      case Err(e) => Err(e)
      case Ok(next) => Ok((next, Stored(kind, x.at.value, false)))
  }

  datatype Outcome = RecordedNow | Conflict | Synced

  datatype SyncResult = SyncResult(outcome: Outcome, at: Time, skewed: bool)

  const SKEW_BOUND: Time := 24 * 3_600_000_000

  function Skewed(at: Time, now: Time): bool {
    at - now > SKEW_BOUND || now - at > SKEW_BOUND
  }

  /** The type a quarantine-side record carries. */
  function QuarantineKind(pass: bool, direction: EventType): EventType {
    if pass then direction else Redeemed
  }

  /** Reconciling one offline occurrence: recording, not deciding. */
  ghost function Reconcile(cfg: Config, db: Db, x: ScanInput, direction: EventType, verdict: Option<AlarmReason>, now: Time)
    : Result<(Db, SyncResult), StoreError>
  {
    if !x.occurrence.Occurrence? || x.at.None? then Err(InvalidOccurrence)
    else if direction != Entry && direction != Exit then Err(BadDirection)
    else if x.ticket !in db.tickets || db.tickets[x.ticket] != x.who then Err(TicketCredential)
    else if x.who.slot !in db.passes && direction == Exit then Err(NotApplicable)
    else
      var skewed := Skewed(x.at.value, now);
      match Lookup(db, x.ticket, x.occurrence, direction, true)
      case Collision => Err(OccurrenceCollision)
      case InTrail(at) => Ok((db, SyncResult(Synced, at, skewed)))
      case AsDegraded(at) => Ok((db, SyncResult(Synced, at, skewed)))
      case AsRecording(at) => Ok((db, SyncResult(Synced, at, skewed)))
      case NotRecorded =>
        if verdict.Some? then Ok((QuarantineOccurrence(db, x, direction, verdict.value), SyncResult(RecordedNow, x.at.value, skewed)))
        else ReconcileVerified(cfg, db, x, direction, skewed)
  }

  ghost function QuarantineOccurrence(db: Db, x: ScanInput, direction: EventType, reason: AlarmReason): Db {
    AddQuarantine(db, QuarantineRow(x.ticket, x.who.organizer, reason, None, x.occurrence, x.at,
                                    QuarantineKind(x.who.slot in db.passes, direction)))
  }

  /** Recording onto a chain that verifies. */
  ghost function ReconcileVerified(cfg: Config, db: Db, x: ScanInput, direction: EventType, skewed: bool)
    : Result<(Db, SyncResult), StoreError>
    requires x.at.Some?
  {
    var pass := x.who.slot in db.passes;
    var admitted := AdmittedUnion(db, x.ticket);
    var kind := if pass then direction else if admitted then DuplicateAdmit else Redeemed;
    match AppendOccurrence(cfg, db, A.Input(x.ticket, x.who, x.occurrence, kind, x.at.value))
    case Err(e) => Err(e)
    case Ok(next) =>
      var owed := !pass && (admitted || CommerciallyVoid(db, x.ticket));
      var alarm := ConflictAlarm(x.who.organizer, x.ticket, x.occurrence, x.at.value, skewed);
      Ok((if owed then OweAlarm(next, alarm) else next,
          SyncResult(if !pass && admitted then Conflict else RecordedNow, x.at.value, skewed)))
  }

  /** A local scanner denial: recorded beside the admission record, never in it. */
  ghost function RecordRefusal(db: Db, x: ScanInput): Result<(Db, SyncResult), StoreError> {
    if !x.occurrence.Occurrence? || x.at.None? then Err(OccurrenceCollision)
    else if x.ticket !in db.tickets || db.tickets[x.ticket] != x.who then Err(TicketCredential)
    else
      var row := RefusalRow(x.ticket, x.who.organizer, x.at.value);
      if x.occurrence in db.refusals then
        if db.refusals[x.occurrence] != row then Err(OccurrenceCollision) else Ok((db, SyncResult(Synced, row.at, false)))
      else if x.occurrence in db.trail.events || Quarantined(db.quarantine, x.occurrence).Some? then Err(OccurrenceCollision)
      else Ok((db.(refusals := db.refusals[x.occurrence := row]), SyncResult(RecordedNow, row.at, false)))
  }

  // ---------------------------------------------------------------- refunds

  /** Voiding a list of tickets, each under the id `voidId` gives it. */
  datatype Voiding = ByRefund(refund: Uuid) | ByExchange(exchange: Uuid)
  {
    function Id(t: Uuid): EventId {
      match this
      case ByRefund(r) => RefundedId(r, t)
      case ByExchange(x) => ExchangedId(x, t)
    }

    function Kind(): EventType {
      if ByRefund? then Refunded else Exchanged
    }
  }

  ghost function VoidAll(cfg: Config, db: Db, ts: seq<Uuid>, who: Identity, v: Voiding, now: Time): Result<Db, StoreError>
    decreases |ts|
  {
    if ts == [] then Ok(db)
    else
      match AppendEvent(cfg, db, A.Input(ts[0], who, v.Id(ts[0]), v.Kind(), now))
      case Err(e) => Err(e)
      case Ok(next) => VoidAll(cfg, next, ts[1..], who, v, now)
  }

  /** The tickets this refund voided, and those no refund has voided. */
  function Mine(db: Db, ts: seq<Uuid>, refund: Uuid): (mine: seq<Uuid>) {
    if ts == [] then []
    else if Has(db, ts[0], Refunded) && VoidedBy(db, ts[0], refund) then [ts[0]] + Mine(db, ts[1..], refund)
    else Mine(db, ts[1..], refund)
  }

  function Free(db: Db, ts: seq<Uuid>): (free: seq<Uuid>) {
    if ts == [] then []
    else if !Has(db, ts[0], Refunded) then [ts[0]] + Free(db, ts[1..])
    else Free(db, ts[1..])
  }

  lemma {:induction false} FreeAreListed(db: Db, ts: seq<Uuid>)
    ensures forall t :: t in Free(db, ts) <==> t in ts && !Has(db, t, Refunded)
  {
    if ts != [] {
      FreeAreListed(db, ts[1..]);
      assert ts == [ts[0]] + ts[1..];
    }
  }

  /** Whose identity a void takes: the first ticket of the order, or the first free one. */
  lemma FirstIsIssued(db: Db, order: Uuid, organizer: Uuid)
    ensures var all := OrderTickets(db, order, organizer); |all| > 0 ==> all[0] in db.tickets
    ensures var free := Free(db, OrderTickets(db, order, organizer)); |free| > 0 ==> free[0] in db.tickets
  {
    var all := OrderTickets(db, order, organizer);
    FreeAreListed(db, all);
    assert |all| > 0 ==> all[0] in all;
    assert |Free(db, all)| > 0 ==> Free(db, all)[0] in Free(db, all);
  }

  /** The refund a ticket was voided by, read off the event id. */
  predicate VoidedBy(db: Db, t: Uuid, refund: Uuid) {
    var id := RefundedId(refund, t);
    id in db.trail.events && db.trail.events[id].ticket == t && db.trail.events[id].kind == Refunded
  }

  const MAX_BATCH := 50

  datatype Refund = Refund(tickets: seq<Uuid>, replayed: bool)

  ghost function RefundOrder(cfg: Config, db: Db, organizer: Uuid, order: Uuid, refund: Uuid, quantity: int, now: Time)
    : Result<(Db, Refund), StoreError>
  {
    if quantity < 1 then Err(BadQuantity)
    else if (organizer, refund) in db.batches && db.batches[(organizer, refund)] != BatchRow(order, quantity) then Err(RefundConflict)
    else
      var all := OrderTickets(db, order, organizer);
      var mine := Mine(db, all, refund);
      if mine != [] then
        if |mine| != quantity then Err(RefundConflict) else Ok((db, Refund(mine, true)))
      else
        FreeAreListed(db, all);
        RefundFresh(cfg, db, organizer, order, refund, quantity, Free(db, all), now)
  }

  ghost function RefundFresh(cfg: Config, db: Db, organizer: Uuid, order: Uuid, refund: Uuid, quantity: int,
                             free: seq<Uuid>, now: Time): Result<(Db, Refund), StoreError>
    requires quantity >= 1 && forall t | t in free :: t in db.tickets
  {
    if |free| < quantity then Err(TicketsNotIssued)
    else if (organizer, refund) in db.batches then Err(RefundConflict)
    else if quantity > MAX_BATCH then Err(BadQuantity)
    else
      var claimed := db.(batches := db.batches[(organizer, refund) := BatchRow(order, quantity)]);
      assert free[0] in free;
      match VoidAll(cfg, claimed, free[..quantity], db.tickets[free[0]], ByRefund(refund), now)
      case Err(e) => Err(e)
      case Ok(next) => Ok((next, Refund(free[..quantity], false)))
  }

  // ---------------------------------------------------------------- exchanges

  datatype Switch = Switch(event: Uuid, exchange: Uuid, order: Uuid, organizer: Uuid, tickets: seq<NewTicket>)

  /** Why the source tickets cannot be switched: the first ticket that stands in the way. */
  function Obstacle(db: Db, ts: seq<Uuid>): Option<StoreError> {
    if ts == [] then None
    else if CommerciallyVoid(db, ts[0]) then Some(SourceVoided)
    else if AdmittedUnion(db, ts[0]) then Some(SourceAdmitted)
    else Obstacle(db, ts[1..])
  }

  /** Voiding the whole source order and issuing its replacement, together or not at all. */
  ghost function SwitchExchange(cfg: Config, db: Db, x: Switch, now: Time): Result<Db, StoreError> {
    if x.event in db.consumed then Ok(db)
    else
      var source := OrderTickets(db, x.order, x.organizer);
      if |source| == 0 || |source| < |x.tickets| then Err(ExchangeNotIssued)
      else if Obstacle(db, source).Some? then Err(Obstacle(db, source).value)
      else
        assert source[0] in source;
        var received := db.(consumed := db.consumed + {x.event});
        match VoidAll(cfg, received, source, db.tickets[source[0]], ByExchange(x.exchange), now)
        case Err(e) => Err(e)
        case Ok(voided) => InsertAll(cfg, voided, x.tickets)
  }

  // ---------------------------------------------------------------- operators

  function SetMode(db: Db, organizer: Uuid, mode: Mode): Db {
    db.(modes := db.modes[organizer := mode])
  }

  function SetPolicy(db: Db, slot: Uuid, pass: bool): Db {
    db.(passes := if pass then db.passes + {slot} else db.passes - {slot})
  }

  function SealEpoch(db: Db): Db {
    db.(epochs := C.Seal(db.trail.heads, db.epochs))
  }

  /** One run of the checkpoint worker. */
  function TakeCheckpoint(cfg: Config, db: Db, organizer: Uuid, observed: C.Position, now: Time): Result<(Db, Option<C.Position>), C.Refusal> {
    match C.CheckpointOrganizer(cfg.keys, cfg.signer, db.tickets, db.trail.changes, db.checkpoints, organizer, observed, now)
    case Err(e) => Err(e)
    case Ok(signed) =>
      Ok((db.(trail := db.trail.(changes := signed.changes), checkpoints := signed.rows), signed.position))
  }
}
