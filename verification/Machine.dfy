/** The store as a state machine: every call, in any order, as one atomic step. */
module Machine {
  import opened Basics
  import opened Canonical
  import opened Trail
  import opened Store
  import A = Appending
  import C = Checkpoints

  /** A call with its inputs.  `verdict` is what the gate says about the ticket's chain when
      the call runs, `live` what the pass policy says. */
  datatype Step =
    | IssueStep(event: Uuid, issued: seq<NewTicket>)
    | DeliverStep(ticket: Uuid, now: Time)
    | ScanStep(scan: ScanInput, direction: EventType, verdict: Option<AlarmReason>, live: Decision, now: Time, dbNow: Time)
    | RecordStep(scan: ScanInput, kind: EventType)
    | ReconcileStep(scan: ScanInput, direction: EventType, verdict: Option<AlarmReason>, now: Time)
    | RefuseStep(scan: ScanInput)
    | RefundStep(organizer: Uuid, order: Uuid, refund: Uuid, quantity: int, now: Time)
    | ExchangeStep(exchange: Switch, now: Time)
    | CheckpointStep(organizer: Uuid, observed: C.Position, now: Time)
    | SealStep
    | ModeStep(organizer: Uuid, mode: Mode)
    | PolicyStep(slot: Uuid, pass: bool)

  /** The tables after a call; a call that fails leaves them as they were. */
  ghost function Next(cfg: Config, db: Db, s: Step): Db {
    match s
    case IssueStep(event, ts) => var r := Issue(cfg, db, event, ts); if r.Ok? then r.value else db
    case DeliverStep(t, now) => var r := MarkDelivered(cfg, db, t, now); if r.Ok? then r.value else db
    case ScanStep(x, direction, verdict, live, now, dbNow) =>
      var r := Scan(cfg, db, x, direction, verdict, live, now, dbNow); if r.Ok? then r.value.0 else db
    case RecordStep(x, kind) => var r := RecordAdmission(cfg, db, x, kind); if r.Ok? then r.value.0 else db
    case ReconcileStep(x, direction, verdict, now) =>
      var r := Reconcile(cfg, db, x, direction, verdict, now); if r.Ok? then r.value.0 else db
    case RefuseStep(x) => var r := RecordRefusal(db, x); if r.Ok? then r.value.0 else db
    case RefundStep(organizer, order, refund, quantity, now) =>
      var r := RefundOrder(cfg, db, organizer, order, refund, quantity, now); if r.Ok? then r.value.0 else db
    case ExchangeStep(x, now) => var r := SwitchExchange(cfg, db, x, now); if r.Ok? then r.value else db
    case CheckpointStep(organizer, observed, now) =>
      var r := TakeCheckpoint(cfg, db, organizer, observed, now); if r.Ok? then r.value.0 else db
    case SealStep => SealEpoch(db)
    case ModeStep(organizer, mode) => SetMode(db, organizer, mode)
    case PolicyStep(slot, pass) => SetPolicy(db, slot, pass)
  }

  type Run = seq<(Config, Step)>

  ghost function After(db: Db, run: Run): Db
    decreases |run|
  {
    if run == [] then db
    else
      var n := |run| - 1;
      Next(run[n].0, After(db, run[..n]), run[n].1)
  }
}
