/** What every run of the store keeps, and how often it can let somebody in. */
module Admission {
  import opened Basics
  import opened Canonical
  import opened Trail
  import opened Store
  import opened Machine
  import A = Appending
  import C = Checkpoints

  // ---------------------------------------------------------------- records are kept

  predicate KeepsEvents(a: Db, b: Db) {
    forall id | id in a.trail.events :: id in b.trail.events && b.trail.events[id] == a.trail.events[id]
  }

  predicate KeepsTickets(a: Db, b: Db) {
    forall t | t in a.tickets :: t in b.tickets && b.tickets[t] == a.tickets[t]
  }

  predicate KeepsRefusals(a: Db, b: Db) {
    forall o | o in a.refusals :: o in b.refusals && b.refusals[o] == a.refusals[o]
  }

  predicate KeepsBatches(a: Db, b: Db) {
    forall k | k in a.batches :: k in b.batches && b.batches[k] == a.batches[k]
  }

  /** Nothing the store has recorded is ever changed or dropped. */
  predicate Keeps(a: Db, b: Db) {
    && KeepsTickets(a, b) && KeepsEvents(a, b) && KeepsRefusals(a, b) && KeepsBatches(a, b)
    && a.consumed <= b.consumed && a.quarantine <= b.quarantine && a.alarms <= b.alarms
  }

  lemma KeepsTransitive(a: Db, b: Db, c: Db)
    requires Keeps(a, b) && Keeps(b, c)
    ensures Keeps(a, c)
  {
  }

  lemma AppendKeeps(cfg: Config, db: Db, x: A.Input)
    ensures AppendEvent(cfg, db, x).Ok? ==>
              && Keeps(db, AppendEvent(cfg, db, x).value)
              && AppendEvent(cfg, db, x).value.trail.events == db.trail.events[x.id := EventRow(x.ticket, x.kind, x.at)]
              && AppendEvent(cfg, db, x).value == db.(trail := AppendEvent(cfg, db, x).value.trail)
  {
    hide A.NewLink, A.NewHead, A.NewChange;
  }

  lemma {:induction false} InsertAllKeeps(cfg: Config, db: Db, ts: seq<NewTicket>)
    ensures InsertAll(cfg, db, ts).Ok? ==> Keeps(db, InsertAll(cfg, db, ts).value)
    decreases |ts|
  {
    hide AppendEvent, Keeps;
    if ts != [] && InsertIssued(cfg, db, ts[0]).Ok? {
      var next := InsertIssued(cfg, db, ts[0]).value;
      InsertKeeps(cfg, db, ts[0]);
      InsertAllKeeps(cfg, next, ts[1..]);
      if InsertAll(cfg, next, ts[1..]).Ok? {
        KeepsTransitive(db, next, InsertAll(cfg, next, ts[1..]).value);
      }
    } else {
      KeepsSelf(db);
    }
  }

  lemma KeepsSelf(db: Db)
    ensures Keeps(db, db)
  {
  }

  lemma InsertKeeps(cfg: Config, db: Db, t: NewTicket)
    ensures InsertIssued(cfg, db, t).Ok? ==> Keeps(db, InsertIssued(cfg, db, t).value)
  {
    hide AppendEvent;
    AppendKeeps(cfg, db.(tickets := db.tickets[t.id := t.who]), A.Input(t.id, t.who, IssuedId(t.id), Issued, t.issuedAt));
  }

  lemma {:induction false} VoidAllKeeps(cfg: Config, db: Db, ts: seq<Uuid>, who: Identity, v: Voiding, now: Time)
    ensures VoidAll(cfg, db, ts, who, v, now).Ok? ==> Keeps(db, VoidAll(cfg, db, ts, who, v, now).value)
    decreases |ts|
  {
    hide AppendEvent, Keeps;
    if ts != [] {
      var x := A.Input(ts[0], who, v.Id(ts[0]), v.Kind(), now);
      AppendKeeps(cfg, db, x);
      if AppendEvent(cfg, db, x).Ok? {
        var next := AppendEvent(cfg, db, x).value;
        VoidAllKeeps(cfg, next, ts[1..], who, v, now);
        if VoidAll(cfg, next, ts[1..], who, v, now).Ok? {
          KeepsTransitive(db, next, VoidAll(cfg, next, ts[1..], who, v, now).value);
        }
      }
    } else {
      KeepsSelf(db);
    }
  }

  // ---------------------------------------------------------------- one scan

  /** A degraded admission adds its row; any other outcome of a degraded scan adds none. */
  lemma DegradedEffect(cfg: Config, db: Db, t: Uuid, who: Identity, occ: EventId, direction: EventType,
                       reason: AlarmReason, now: Time)
    ensures var r := DegradedScan(cfg, db, t, who, occ, direction, reason, now);
            r.Ok? ==>
              && Keeps(db, r.value.0)
              && r.value.0 == db.(quarantine := r.value.0.quarantine, modes := r.value.0.modes, alarms := r.value.0.alarms)
              && (r.value.1.replayed || !r.value.1.accepted ==> r.value.0.quarantine == db.quarantine && r.value.0.modes == db.modes)
              && (r.value.1.accepted && !r.value.1.replayed ==>
                    && r.value.1 == ScanResult(true, AdmittedDegraded, now, false)
                    && Degraded(db.quarantine, t).None?
                    && ModeOf(db, who.organizer) != OperatorDeny
                    && r.value.0.quarantine == db.quarantine + [QuarantineRow(t, who.organizer, reason, Some(now), occ, None, Redeemed)]
                    && (occ == Nil || Lookup(db, t, occ, direction, false).NotRecorded?))
  {
    hide Lookup, Degraded, ModeOf, AdmitDegraded, Keeps;
    AdmitDegradedEffect(cfg, db, t, who, occ, reason, now);
    KeepsSelf(db);
    forall a {
      AlarmKeeps(db, a);
    }
  }

  lemma AlarmKeeps(db: Db, a: Alarm)
    ensures Keeps(db, OweAlarm(db, a))
  {
  }

  lemma AdmitDegradedEffect(cfg: Config, db: Db, t: Uuid, who: Identity, occ: EventId, reason: AlarmReason, now: Time)
    ensures var after := AdmitDegraded(cfg, db, t, who, occ, reason, now);
            && Keeps(db, after)
            && after == db.(quarantine := after.quarantine, modes := after.modes, alarms := after.alarms)
            && after.quarantine == db.quarantine + [QuarantineRow(t, who.organizer, reason, Some(now), occ, None, Redeemed)]
  {
    hide RecentDegraded;
  }

  /** A verified redemption either appends one event, or records nothing. */
  lemma RedeemEffect(cfg: Config, db: Db, x: ScanInput, dbNow: Time)
    requires !BadOccurrence(x)
    ensures var r := RedeemVerified(cfg, db, x, dbNow);
            r.Ok? ==>
              && Keeps(db, r.value.0)
              && r.value.0 == db.(trail := r.value.0.trail, alarms := r.value.0.alarms)
              && (r.value.1.replayed || !r.value.1.accepted ==> r.value.0.trail == db.trail)
              && (r.value.1.accepted && !r.value.1.replayed ==>
                    && r.value.1.decision == Accepted
                    && Degraded(db.quarantine, x.ticket).None? && !Has(db, x.ticket, Redeemed)
                    && (x.occurrence == Nil || Lookup(db, x.ticket, x.occurrence, Entry, false).NotRecorded?)
                    && r.value.0.trail.events == db.trail.events[
                         (if x.occurrence == Nil then RedeemedId(x.ticket) else x.occurrence)
                           := EventRow(x.ticket, Redeemed, r.value.1.at)])
  {
    hide AppendEvent, Lookup, Degraded, ModeOf, EventTime, Has;
    KeepsSelf(db);
    if x.occurrence == Nil {
      AppendKeeps(cfg, db, A.Input(x.ticket, x.who, RedeemedId(x.ticket), Redeemed, dbNow));
    } else {
      AppendKeeps(cfg, db, A.Input(x.ticket, x.who, x.occurrence, Redeemed, x.at.value));
    }
  }

  lemma PassEffect(cfg: Config, db: Db, x: ScanInput, direction: EventType, live: Decision, now: Time)
    requires !BadOccurrence(x) && x.occurrence != Nil
    ensures var r := PassVerified(cfg, db, x, direction, live, now);
            r.Ok? ==>
              && Keeps(db, r.value.0)
              && r.value.0 == db.(trail := r.value.0.trail, alarms := r.value.0.alarms)
              && (r.value.1.replayed || !r.value.1.accepted ==> r.value.0.trail == db.trail)
              && (r.value.1.accepted && !r.value.1.replayed ==>
                    && r.value.1.decision == Accepted && live == Accepted
                    && Degraded(db.quarantine, x.ticket).None?
                    && Lookup(db, x.ticket, x.occurrence, direction, true).NotRecorded?
                    && r.value.0.trail.events == db.trail.events[x.occurrence := EventRow(x.ticket, direction, r.value.1.at)])
  {
    hide AppendEvent, Lookup, Degraded, ModeOf;
    KeepsSelf(db);
    AppendKeeps(cfg, db, A.Input(x.ticket, x.who, x.occurrence, direction, x.at.value));
  }

  lemma ExitEffect(db: Db, x: ScanInput, reason: AlarmReason, now: Time)
    ensures var r := ExitUnverifiedScan(db, x, reason, now);
            r.Ok? ==> Keeps(db, r.value.0) && r.value.0 == db.(alarms := r.value.0.alarms)
                      && (r.value.1.accepted ==> r.value.1.replayed)
  {
    hide Lookup, ModeOf;
  }

  lemma ScanKeeps(cfg: Config, db: Db, x: ScanInput, direction: EventType, verdict: Option<AlarmReason>,
                  live: Decision, now: Time, dbNow: Time)
    ensures var r := Scan(cfg, db, x, direction, verdict, live, now, dbNow); r.Ok? ==> Keeps(db, r.value.0)
  {
    hide Has, DegradedScan, RedeemVerified, PassVerified, ExitUnverifiedScan, Keeps;
    KeepsSelf(db);
    if verdict.Some? {
      DegradedEffect(cfg, db, x.ticket, x.who, x.occurrence, Entry, verdict.value, now);
      DegradedEffect(cfg, db, x.ticket, x.who, x.occurrence, direction, verdict.value, now);
      ExitEffect(db, x, verdict.value, now);
    }
    if !BadOccurrence(x) {
      RedeemEffect(cfg, db, x, dbNow);
      if x.occurrence != Nil {
        PassEffect(cfg, db, x, direction, live, now);
      }
    }
  }

  // ---------------------------------------------------------------- the other steps

  lemma RecordKeeps(cfg: Config, db: Db, x: ScanInput, kind: EventType)
    ensures var r := RecordAdmission(cfg, db, x, kind); r.Ok? ==> Keeps(db, r.value.0)
  {
    hide AppendEvent, Keeps;
    KeepsSelf(db);
    if x.at.Some? {
      AppendKeeps(cfg, db, A.Input(x.ticket, x.who, x.occurrence, kind, x.at.value));
    }
  }

  lemma ReconcileKeeps(cfg: Config, db: Db, x: ScanInput, direction: EventType, verdict: Option<AlarmReason>, now: Time)
    ensures var r := Reconcile(cfg, db, x, direction, verdict, now); r.Ok? ==> Keeps(db, r.value.0)
  {
    hide AppendEvent, Lookup, AdmittedUnion, CommerciallyVoid, Skewed;
    if x.at.Some? {
      var kind := if x.who.slot in db.passes then direction else if AdmittedUnion(db, x.ticket) then DuplicateAdmit else Redeemed;
      AppendKeeps(cfg, db, A.Input(x.ticket, x.who, x.occurrence, kind, x.at.value));
    }
  }

  lemma RefundKeeps(cfg: Config, db: Db, organizer: Uuid, order: Uuid, refund: Uuid, quantity: int, now: Time)
    ensures var r := RefundOrder(cfg, db, organizer, order, refund, quantity, now); r.Ok? ==> Keeps(db, r.value.0)
  {
    hide OrderTickets, Free, Mine, VoidAll, Keeps;
    KeepsSelf(db);
    var free := Free(db, OrderTickets(db, order, organizer));
    FirstIsIssued(db, order, organizer);
    if 1 <= quantity <= |free| && (organizer, refund) !in db.batches {
      var claimed := db.(batches := db.batches[(organizer, refund) := BatchRow(order, quantity)]);
      ClaimKeeps(db, (organizer, refund), BatchRow(order, quantity));
      VoidAllKeeps(cfg, claimed, free[..quantity], db.tickets[free[0]], ByRefund(refund), now);
      var r := VoidAll(cfg, claimed, free[..quantity], db.tickets[free[0]], ByRefund(refund), now);
      if r.Ok? {
        KeepsTransitive(db, claimed, r.value);
      }
    }
  }

  lemma ClaimKeeps(db: Db, key: (Uuid, Uuid), row: BatchRow)
    requires key !in db.batches
    ensures Keeps(db, db.(batches := db.batches[key := row]))
  {
  }

  lemma ExchangeKeeps(cfg: Config, db: Db, x: Switch, now: Time)
    ensures SwitchExchange(cfg, db, x, now).Ok? ==> Keeps(db, SwitchExchange(cfg, db, x, now).value)
  {
    hide OrderTickets, VoidAll, InsertAll, Obstacle, Keeps;
    KeepsSelf(db);
    var source := OrderTickets(db, x.order, x.organizer);
    FirstIsIssued(db, x.order, x.organizer);
    if |source| > 0 {
      var received := db.(consumed := db.consumed + {x.event});
      ReceiptKeeps(db, x.event);
      VoidAllKeeps(cfg, received, source, db.tickets[source[0]], ByExchange(x.exchange), now);
      var voided := VoidAll(cfg, received, source, db.tickets[source[0]], ByExchange(x.exchange), now);
      if voided.Ok? {
        InsertAllKeeps(cfg, voided.value, x.tickets);
        KeepsTransitive(db, received, voided.value);
        if InsertAll(cfg, voided.value, x.tickets).Ok? {
          KeepsTransitive(db, voided.value, InsertAll(cfg, voided.value, x.tickets).value);
        }
      }
    }
  }

  lemma ReceiptKeeps(db: Db, event: Uuid)
    ensures Keeps(db, db.(consumed := db.consumed + {event}))
  {
  }

  /** Whatever is called, and whatever the gate answers, records are kept. */
  lemma NextKeeps(cfg: Config, db: Db, s: Step)
    ensures Keeps(db, Next(cfg, db, s))
  {
    hide Scan, Reconcile, RecordAdmission, RefundOrder, SwitchExchange, InsertAll, AppendEvent, Keeps, Has;
    KeepsSelf(db);
    match s {
      case IssueStep(event, ts) =>
        var received := db.(consumed := db.consumed + {event});
        ReceiptKeeps(db, event);
        InsertAllKeeps(cfg, received, ts);
        if InsertAll(cfg, received, ts).Ok? {
          KeepsTransitive(db, received, InsertAll(cfg, received, ts).value);
        }
      case DeliverStep(t, now) =>
        if t in db.tickets {
          AppendKeeps(cfg, db, A.Input(t, db.tickets[t], DeliveredId(t), Delivered, now));
        }
      case ScanStep(x, direction, verdict, live, now, dbNow) => ScanKeeps(cfg, db, x, direction, verdict, live, now, dbNow);
      case RecordStep(x, kind) => RecordKeeps(cfg, db, x, kind);
      case ReconcileStep(x, direction, verdict, now) => ReconcileKeeps(cfg, db, x, direction, verdict, now);
      case RefundStep(organizer, order, refund, quantity, now) => RefundKeeps(cfg, db, organizer, order, refund, quantity, now);
      case ExchangeStep(x, now) => ExchangeKeeps(cfg, db, x, now);
      case RefuseStep(_) => QuietStepKeeps(cfg, db, s);
      case CheckpointStep(_, _, _) => QuietStepKeeps(cfg, db, s);
      case SealStep => QuietStepKeeps(cfg, db, s);
      case ModeStep(_, _) => QuietStepKeeps(cfg, db, s);
      case PolicyStep(_, _) => QuietStepKeeps(cfg, db, s);
    }
  }

  lemma QuietStepKeeps(cfg: Config, db: Db, s: Step)
    requires s.RefuseStep? || s.CheckpointStep? || s.SealStep? || s.ModeStep? || s.PolicyStep?
    ensures Keeps(db, Next(cfg, db, s)) && Next(cfg, db, s).trail.events == db.trail.events
    ensures Next(cfg, db, s).quarantine == db.quarantine
    ensures !s.RefuseStep? ==> Next(cfg, db, s).refusals == db.refusals
  {
    hide TakeCheckpoint, RecordRefusal, C.Seal, Keeps;
    KeepsSelf(db);
    match s {
      case RefuseStep(x) => RefusalKeeps(db, x);
      case CheckpointStep(organizer, observed, now) => CheckpointKeeps(cfg, db, organizer, observed, now);
      case SealStep => OthersKeep(db, SealEpoch(db));
      case ModeStep(_, _) => OthersKeep(db, Next(cfg, db, s));
      case PolicyStep(_, _) => OthersKeep(db, Next(cfg, db, s));
    }
  }

  /** A change of epochs, modes or policies touches no record. */
  lemma OthersKeep(a: Db, b: Db)
    requires b == a.(epochs := b.epochs, modes := b.modes, passes := b.passes)
    ensures Keeps(a, b)
  {
  }

  lemma RefusalKeeps(db: Db, x: ScanInput)
    ensures var r := RecordRefusal(db, x); r.Ok? ==> Keeps(db, r.value.0) && r.value.0 == db.(refusals := r.value.0.refusals)
  {
    hide Quarantined;
  }

  lemma CheckpointKeeps(cfg: Config, db: Db, organizer: Uuid, observed: C.Position, now: Time)
    ensures var r := TakeCheckpoint(cfg, db, organizer, observed, now);
            r.Ok? ==> Keeps(db, r.value.0) && r.value.0.trail.events == db.trail.events
                      && r.value.0 == db.(trail := r.value.0.trail, checkpoints := r.value.0.checkpoints)
  {
    hide C.CheckpointOrganizer;
  }

  lemma {:induction false} RunKeeps(db: Db, run: Run, j: nat, k: nat)
    requires j <= k <= |run|
    ensures Keeps(After(db, run[..j]), After(db, run[..k]))
    decreases k
  {
    hide Next, Keeps;
    if j == k {
      KeepsSelf(After(db, run[..j]));
    } else {
      RunKeeps(db, run, j, k - 1);
      assert run[..k][..k - 1] == run[..k - 1];
      NextKeeps(run[k - 1].0, After(db, run[..k - 1]), run[k - 1].1);
      KeepsTransitive(After(db, run[..j]), After(db, run[..k - 1]), After(db, run[..k]));
    }
  }

  // ---------------------------------------------------------------- bounded live admission

  lemma HasIsKept(a: Db, b: Db, t: Uuid, kind: EventType)
    requires Keeps(a, b) && Has(a, t, kind)
    ensures Has(b, t, kind)
  {
    hide KeepsTickets, KeepsRefusals, KeepsBatches;
    var id :| id in a.trail.events && a.trail.events[id].ticket == t && a.trail.events[id].kind == kind;
    assert id in b.trail.events;
  }

  lemma {:induction false} DegradedIsKept(q: seq<QuarantineRow>, more: seq<QuarantineRow>, t: Uuid)
    requires Degraded(q, t).Some?
    ensures Degraded(q + more, t) == Degraded(q, t)
  {
    assert q + more == [q[0]] + (q[1..] + more);
    if !(q[0].ticket == t && q[0].admittedAt.Some?) {
      DegradedIsKept(q[1..], more, t);
    }
  }

  lemma {:induction false} QuarantinedIsKept(q: seq<QuarantineRow>, more: seq<QuarantineRow>, occ: EventId)
    requires Quarantined(q, occ).Some?
    ensures Quarantined(q + more, occ) == Quarantined(q, occ)
  {
    assert q + more == [q[0]] + (q[1..] + more);
    if q[0].occurrence != occ {
      QuarantinedIsKept(q[1..], more, occ);
    }
  }

  ghost function ScanOf(cfg: Config, db: Db, s: Step): Result<(Db, ScanResult), StoreError>
    requires s.ScanStep?
  {
    Scan(cfg, db, s.scan, s.direction, s.verdict, s.live, s.now, s.dbNow)
  }

  /** A live entry on a single-entry slot that lets this ticket in, for the first time. */
  ghost predicate Admits(cfg: Config, db: Db, s: Step, t: Uuid, d: Decision) {
    && s.ScanStep? && s.direction == Entry && s.scan.ticket == t && s.scan.who.slot !in db.passes
    && ScanOf(cfg, db, s).Ok?
    && var r := ScanOf(cfg, db, s).value.1; r.accepted && !r.replayed && r.decision == d
  }

  /** What a fresh live admission needs and leaves behind. */
  lemma AdmissionEffect(cfg: Config, db: Db, s: Step, t: Uuid, d: Decision)
    requires Admits(cfg, db, s, t, d)
    ensures !CommerciallyVoid(db, t) && Degraded(db.quarantine, t).None?
    ensures d == Accepted || d == AdmittedDegraded
    ensures d == Accepted ==> !Has(db, t, Redeemed) && Has(Next(cfg, db, s), t, Redeemed)
    ensures d == AdmittedDegraded ==> Degraded(Next(cfg, db, s).quarantine, t).Some?
  {
    hide Has, Lookup, DegradedScan, RedeemVerified, Keeps;
    var x := s.scan;
    if s.verdict.Some? {
      DegradedEffect(cfg, db, x.ticket, x.who, x.occurrence, Entry, s.verdict.value, s.now);
      var row := QuarantineRow(t, x.who.organizer, s.verdict.value, Some(s.now), x.occurrence, None, Redeemed);
      assert Next(cfg, db, s).quarantine == db.quarantine + [row];
      assert row in Next(cfg, db, s).quarantine;
    } else {
      RedeemEffect(cfg, db, x, s.dbNow);
      RedeemedIsThere(Next(cfg, db, s), if x.occurrence == Nil then RedeemedId(t) else x.occurrence, t);
    }
  }

  lemma RedeemedIsThere(db: Db, id: EventId, t: Uuid)
    requires id in db.trail.events && db.trail.events[id].ticket == t && db.trail.events[id].kind == Redeemed
    ensures Has(db, t, Redeemed)
  {
  }

  lemma {:induction false} StepTaken(db: Db, run: Run, j: nat)
    requires j < |run|
    ensures After(db, run[..j + 1]) == Next(run[j].0, After(db, run[..j]), run[j].1)
  {
    assert run[..j + 1][..j] == run[..j];
  }

  /** Whatever the gate answers at each call, two fresh live admissions of one single-entry
      ticket are a clean one and, after it, a degraded one: at most one of each, and never
      clean after degraded. */
  lemma LiveAdmissionIsBounded(db: Db, run: Run, t: Uuid, j: nat, first: Decision, k: nat, second: Decision)
    requires j < k < |run|
    requires Admits(run[j].0, After(db, run[..j]), run[j].1, t, first)
    requires Admits(run[k].0, After(db, run[..k]), run[k].1, t, second)
    ensures first == Accepted && second == AdmittedDegraded
  {
    hide Next, Has, Keeps, Admits;
    AdmissionEffect(run[j].0, After(db, run[..j]), run[j].1, t, first);
    AdmissionEffect(run[k].0, After(db, run[..k]), run[k].1, t, second);
    StepTaken(db, run, j);
    RunKeeps(db, run, j + 1, k);
    if first == AdmittedDegraded {
      DegradedRowStays(After(db, run[..j + 1]), After(db, run[..k]), t);
    } else {
      HasIsKept(After(db, run[..j + 1]), After(db, run[..k]), t, Redeemed);
    }
  }

  lemma DegradedRowStays(a: Db, b: Db, t: Uuid)
    requires Keeps(a, b) && Degraded(a.quarantine, t).Some?
    ensures Degraded(b.quarantine, t) == Degraded(a.quarantine, t)
  {
    hide KeepsTickets, KeepsEvents, KeepsRefusals, KeepsBatches;
    DegradedIsKept(a.quarantine, b.quarantine[|a.quarantine|..], t);
    assert b.quarantine == a.quarantine + b.quarantine[|a.quarantine|..];
  }

  /** Once a ticket is refunded or exchanged, no later scan of it is accepted, on any slot,
      in any direction, whatever the gate answers. */
  lemma NoAdmissionOnceVoid(db: Db, run: Run, t: Uuid, j: nat, k: nat)
    requires j <= k < |run| && CommerciallyVoid(After(db, run[..j]), t)
    requires run[k].1.ScanStep? && run[k].1.scan.ticket == t
    ensures var r := ScanOf(run[k].0, After(db, run[..k]), run[k].1); r.Ok? ==> !r.value.1.accepted
  {
    hide Next, Has, Keeps;
    RunKeeps(db, run, j, k);
    if Has(After(db, run[..j]), t, Refunded) {
      HasIsKept(After(db, run[..j]), After(db, run[..k]), t, Refunded);
    } else {
      HasIsKept(After(db, run[..j]), After(db, run[..k]), t, Exchanged);
    }
  }

  // ---------------------------------------------------------------- new occurrences

  /** An occurrence enters the trail only through a scan or a reconciliation of something not
      recorded yet, or through a recording, which reads less. */
  ghost predicate Brings(db: Db, s: Step, occ: EventId) {
    match s
    case ScanStep(x, direction, _, _, _, _) =>
      x.occurrence == occ && exists d :: Lookup(db, x.ticket, occ, direction, d).NotRecorded?
    case ReconcileStep(x, direction, _, _) => x.occurrence == occ && Lookup(db, x.ticket, occ, direction, true).NotRecorded?
    case RecordStep(x, _) => x.occurrence == occ && occ !in db.refusals
    case _ => false
  }

  lemma ScanBrings(cfg: Config, db: Db, s: Step, occ: EventId)
    requires s.ScanStep? && occ.Occurrence? && occ !in db.trail.events && occ in Next(cfg, db, s).trail.events
    ensures Brings(db, s, occ)
  {
    hide Has, DegradedScan, RedeemVerified, PassVerified, ExitUnverifiedScan, Lookup, Keeps;
    var x := s.scan;
    if s.verdict.Some? {
      DegradedEffect(cfg, db, x.ticket, x.who, x.occurrence, Entry, s.verdict.value, s.now);
      DegradedEffect(cfg, db, x.ticket, x.who, x.occurrence, s.direction, s.verdict.value, s.now);
      ExitEffect(db, x, s.verdict.value, s.now);
    } else if !BadOccurrence(x) {
      RedeemEffect(cfg, db, x, s.dbNow);
      if x.occurrence != Nil {
        PassEffect(cfg, db, x, s.direction, s.live, s.now);
      }
    }
  }

  lemma {:induction false} InsertAllBringsNone(cfg: Config, db: Db, ts: seq<NewTicket>, occ: EventId)
    requires occ.Occurrence? && InsertAll(cfg, db, ts).Ok?
    ensures occ in InsertAll(cfg, db, ts).value.trail.events ==> occ in db.trail.events
    decreases |ts|
  {
    hide AppendEvent, Keeps;
    if ts != [] {
      var t := ts[0];
      AppendKeeps(cfg, db.(tickets := db.tickets[t.id := t.who]), A.Input(t.id, t.who, IssuedId(t.id), Issued, t.issuedAt));
      InsertAllBringsNone(cfg, InsertIssued(cfg, db, t).value, ts[1..], occ);
    }
  }

  lemma {:induction false} VoidAllBringsNone(cfg: Config, db: Db, ts: seq<Uuid>, who: Identity, v: Voiding, now: Time, occ: EventId)
    requires occ.Occurrence? && VoidAll(cfg, db, ts, who, v, now).Ok?
    ensures occ in VoidAll(cfg, db, ts, who, v, now).value.trail.events ==> occ in db.trail.events
    decreases |ts|
  {
    hide AppendEvent, Keeps;
    if ts != [] {
      var x := A.Input(ts[0], who, v.Id(ts[0]), v.Kind(), now);
      AppendKeeps(cfg, db, x);
      VoidAllBringsNone(cfg, AppendEvent(cfg, db, x).value, ts[1..], who, v, now, occ);
    }
  }

  lemma ReconcileBrings(cfg: Config, db: Db, s: Step, occ: EventId)
    requires s.ReconcileStep? && occ.Occurrence? && occ !in db.trail.events && occ in Next(cfg, db, s).trail.events
    ensures Brings(db, s, occ)
  {
    hide AppendEvent, Lookup, AdmittedUnion, CommerciallyVoid, Skewed, Keeps;
    var x := s.scan;
    if x.at.Some? {
      var kind := if x.who.slot in db.passes then s.direction else if AdmittedUnion(db, x.ticket) then DuplicateAdmit else Redeemed;
      AppendKeeps(cfg, db, A.Input(x.ticket, x.who, x.occurrence, kind, x.at.value));
    }
  }

  lemma VoidsBringNone(cfg: Config, db: Db, s: Step, occ: EventId)
    requires (s.RefundStep? || s.ExchangeStep?) && occ.Occurrence?
    ensures occ in Next(cfg, db, s).trail.events ==> occ in db.trail.events
  {
    hide OrderTickets, Free, Mine, VoidAll, InsertAll, Obstacle;
    if s.RefundStep? && RefundOrder(cfg, db, s.organizer, s.order, s.refund, s.quantity, s.now).Ok? {
      var free := Free(db, OrderTickets(db, s.order, s.organizer));
      FirstIsIssued(db, s.order, s.organizer);
      if 1 <= s.quantity <= |free| {
        var claimed := db.(batches := db.batches[(s.organizer, s.refund) := BatchRow(s.order, s.quantity)]);
        if VoidAll(cfg, claimed, free[..s.quantity], db.tickets[free[0]], ByRefund(s.refund), s.now).Ok? {
          VoidAllBringsNone(cfg, claimed, free[..s.quantity], db.tickets[free[0]], ByRefund(s.refund), s.now, occ);
        }
      }
    }
    if s.ExchangeStep? && SwitchExchange(cfg, db, s.exchange, s.now).Ok? && s.exchange.event !in db.consumed {
      var x, source := s.exchange, OrderTickets(db, s.exchange.order, s.exchange.organizer);
      FirstIsIssued(db, x.order, x.organizer);
      var received := db.(consumed := db.consumed + {x.event});
      VoidAllBringsNone(cfg, received, source, db.tickets[source[0]], ByExchange(x.exchange), s.now, occ);
      var voided := VoidAll(cfg, received, source, db.tickets[source[0]], ByExchange(x.exchange), s.now).value;
      InsertAllBringsNone(cfg, voided, x.tickets, occ);
    }
  }

  lemma NewOccurrence(cfg: Config, db: Db, s: Step, occ: EventId)
    requires occ.Occurrence? && occ !in db.trail.events && occ in Next(cfg, db, s).trail.events
    ensures Brings(db, s, occ)
  {
    hide Scan, Reconcile, RefundOrder, SwitchExchange, InsertAll, AppendEvent, Has, Keeps, Lookup;
    match s {
      case IssueStep(event, ts) =>
        var received := db.(consumed := db.consumed + {event});
        if InsertAll(cfg, received, ts).Ok? {
          InsertAllBringsNone(cfg, received, ts, occ);
        }
      case DeliverStep(t, now) =>
        if t in db.tickets {
          AppendKeeps(cfg, db, A.Input(t, db.tickets[t], DeliveredId(t), Delivered, now));
        }
      case ScanStep(_, _, _, _, _, _) => ScanBrings(cfg, db, s, occ);
      case RecordStep(x, kind) =>
        if x.at.Some? {
          AppendKeeps(cfg, db, A.Input(x.ticket, x.who, x.occurrence, kind, x.at.value));
        }
      case ReconcileStep(_, _, _, _) => ReconcileBrings(cfg, db, s, occ);
      case RefundStep(_, _, _, _, _) => VoidsBringNone(cfg, db, s, occ);
      case ExchangeStep(_, _) => VoidsBringNone(cfg, db, s, occ);
      case RefuseStep(_) => QuietStepKeeps(cfg, db, s);
      case CheckpointStep(_, _, _) => QuietStepKeeps(cfg, db, s);
      case SealStep => QuietStepKeeps(cfg, db, s);
      case ModeStep(_, _) => QuietStepKeeps(cfg, db, s);
      case PolicyStep(_, _) => QuietStepKeeps(cfg, db, s);
    }
  }

  // ---------------------------------------------------------------- retries

  /** An answer is on record when looking the occurrence up replays it. */
  ghost predicate OnRecord(db: Db, t: Uuid, occ: EventId, d: Decision, at: Time) {
    var seen := Lookup(db, t, occ, Entry, false);
    !seen.NotRecorded? && !seen.Collision? && Replay(seen) == ScanResult(true, d, at, true)
  }

  /** An accepted scan of an occurrence leaves its answer on record. */
  lemma AcceptedIsOnRecord(cfg: Config, db: Db, s: Step)
    requires s.ScanStep? && s.direction == Entry && s.scan.who.slot !in db.passes && s.scan.occurrence != Nil
    requires ScanOf(cfg, db, s).Ok? && ScanOf(cfg, db, s).value.1.accepted
    ensures var r := ScanOf(cfg, db, s).value.1; OnRecord(Next(cfg, db, s), s.scan.ticket, s.scan.occurrence, r.decision, r.at)
  {
    hide Has, DegradedScan, RedeemVerified, Keeps, Lookup;
    var x, r, db' := s.scan, ScanOf(cfg, db, s).value.1, Next(cfg, db, s);
    if s.verdict.Some? {
      DegradedEffect(cfg, db, x.ticket, x.who, x.occurrence, Entry, s.verdict.value, s.now);
      if r.replayed {
        DegradedReplays(cfg, db, x.ticket, x.who, x.occurrence, Entry, s.verdict.value, s.now);
        LookupIsOfTables(db, db', x.ticket, x.occurrence, Entry, false);
      } else {
        NewRowIsFound(db, db', x.ticket, x.occurrence, s.now);
      }
    } else {
      RedeemEffect(cfg, db, x, s.dbNow);
      if r.replayed {
        RedeemReplays(cfg, db, x, s.dbNow);
        LookupIsOfTables(db, db', x.ticket, x.occurrence, Entry, false);
      } else {
        NewEventIsFound(db', x.ticket, x.occurrence, r.at);
      }
    }
  }

  lemma DegradedReplays(cfg: Config, db: Db, t: Uuid, who: Identity, occ: EventId, direction: EventType, reason: AlarmReason, now: Time)
    requires var r := DegradedScan(cfg, db, t, who, occ, direction, reason, now); r.Ok? && r.value.1.replayed
    ensures var seen := Lookup(db, t, occ, direction, false);
            occ != Nil && !seen.NotRecorded? && !seen.Collision?
            && DegradedScan(cfg, db, t, who, occ, direction, reason, now) == Ok((db, Replay(seen)))
  {
    hide Lookup, Degraded, ModeOf, AdmitDegraded;
  }

  lemma RedeemReplays(cfg: Config, db: Db, x: ScanInput, dbNow: Time)
    requires !BadOccurrence(x)
    requires var r := RedeemVerified(cfg, db, x, dbNow); r.Ok? && r.value.1.replayed
    ensures var seen := Lookup(db, x.ticket, x.occurrence, Entry, false);
            x.occurrence != Nil && !seen.NotRecorded? && !seen.Collision?
            && RedeemVerified(cfg, db, x, dbNow) == Ok((db, Replay(seen)))
  {
    hide Lookup, Degraded, ModeOf, AppendEvent, Has, EventTime;
  }

  lemma LookupIsOfTables(a: Db, b: Db, t: Uuid, occ: EventId, direction: EventType, duplicates: bool)
    requires a.trail.events == b.trail.events && a.quarantine == b.quarantine && a.refusals == b.refusals
    ensures Lookup(a, t, occ, direction, duplicates) == Lookup(b, t, occ, direction, duplicates)
  {
  }

  lemma {:induction false} QuarantinedLast(q: seq<QuarantineRow>, row: QuarantineRow)
    requires forall r | r in q :: r.occurrence != row.occurrence
    ensures Quarantined(q + [row], row.occurrence) == Some(row)
  {
    if q != [] {
      assert q + [row] == [q[0]] + (q[1..] + [row]);
      QuarantinedLast(q[1..], row);
    }
  }

  lemma NewRowIsFound(db: Db, db': Db, t: Uuid, occ: EventId, now: Time)
    requires Lookup(db, t, occ, Entry, false).NotRecorded?
    requires db'.trail == db.trail && |db'.quarantine| > 0 && db'.quarantine[..|db'.quarantine| - 1] == db.quarantine
    requires var row := db'.quarantine[|db'.quarantine| - 1]; row.ticket == t && row.occurrence == occ && row.admittedAt == Some(now)
    ensures OnRecord(db', t, occ, AdmittedDegraded, now)
  {
    var row := db'.quarantine[|db'.quarantine| - 1];
    assert db'.quarantine == db.quarantine + [row];
    QuarantinedLast(db.quarantine, row);
  }

  lemma NewEventIsFound(db: Db, t: Uuid, occ: EventId, at: Time)
    requires occ in db.trail.events && db.trail.events[occ] == EventRow(t, Redeemed, at)
    ensures OnRecord(db, t, occ, Accepted, at)
  {
  }

  /** An answer on record is kept by every step that does not record the occurrence again. */
  lemma RecordStays(cfg: Config, db: Db, s: Step, t: Uuid, occ: EventId, d: Decision, at: Time)
    requires occ.Occurrence? && OnRecord(db, t, occ, d, at)
    requires !(s.RecordStep? && s.scan.occurrence == occ)
    ensures OnRecord(Next(cfg, db, s), t, occ, d, at)
  {
    hide Next, Replay;
    NextKeeps(cfg, db, s);
    var db' := Next(cfg, db, s);
    assert db'.quarantine == db.quarantine + db'.quarantine[|db.quarantine|..];
    if occ !in db.trail.events {
      QuarantinedIsKept(db.quarantine, db'.quarantine[|db.quarantine|..], occ);
      if occ in db'.trail.events {
        NewOccurrence(cfg, db, s, occ);
      }
    }
  }

  lemma {:induction false} RecordStaysOverRun(db: Db, run: Run, j: nat, k: nat, t: Uuid, occ: EventId, d: Decision, at: Time)
    requires j <= k <= |run| && occ.Occurrence? && OnRecord(After(db, run[..j]), t, occ, d, at)
    requires forall i | j <= i < k :: !(run[i].1.RecordStep? && run[i].1.scan.occurrence == occ)
    ensures OnRecord(After(db, run[..k]), t, occ, d, at)
    decreases k
  {
    hide Next, OnRecord;
    if j < k {
      RecordStaysOverRun(db, run, j, k - 1, t, occ, d, at);
      StepTaken(db, run, k - 1);
      RecordStays(run[k - 1].0, After(db, run[..k - 1]), run[k - 1].1, t, occ, d, at);
    }
  }

  /** With its answer on record, a scan of an unvoided ticket replays it, whatever the chain
      health, the operator mode or by now the slot's policy. */
  lemma RecordedScanReplays(cfg: Config, db: Db, x: ScanInput, d: Decision, at: Time,
                            verdict: Option<AlarmReason>, live: Decision, now: Time, dbNow: Time)
    requires !BadOccurrence(x) && x.occurrence != Nil && x.ticket in db.tickets && db.tickets[x.ticket] == x.who
    requires !CommerciallyVoid(db, x.ticket) && OnRecord(db, x.ticket, x.occurrence, d, at)
    ensures Scan(cfg, db, x, Entry, verdict, live, now, dbNow) == Ok((db, ScanResult(true, d, at, true)))
  {
    hide Has, AppendEvent, Degraded, ModeOf, EventTime, AdmitDegraded;
    assert Lookup(db, x.ticket, x.occurrence, Entry, true) == Lookup(db, x.ticket, x.occurrence, Entry, false);
  }

  /** Stable retry: after any run, repeating an accepted scan of an unvoided ticket returns
      the same decision and time and changes nothing, unless a recording of the same
      occurrence came between. */
  lemma RetryIsStable(db: Db, run: Run, j: nat, k: nat, cfg: Config,
                      verdict: Option<AlarmReason>, live: Decision, now: Time, dbNow: Time)
    requires j < k <= |run|
    requires run[j].1.ScanStep? && run[j].1.direction == Entry && run[j].1.scan.occurrence != Nil
    requires run[j].1.scan.who.slot !in After(db, run[..j]).passes
    requires var r := ScanOf(run[j].0, After(db, run[..j]), run[j].1); r.Ok? && r.value.1.accepted
    requires forall i | j < i < k :: !(run[i].1.RecordStep? && run[i].1.scan.occurrence == run[j].1.scan.occurrence)
    requires !CommerciallyVoid(After(db, run[..k]), run[j].1.scan.ticket)
    ensures var r := ScanOf(run[j].0, After(db, run[..j]), run[j].1).value.1;
            Scan(cfg, After(db, run[..k]), run[j].1.scan, Entry, verdict, live, now, dbNow)
            == Ok((After(db, run[..k]), ScanResult(true, r.decision, r.at, true)))
  {
    hide Next, OnRecord, CommerciallyVoid;
    var x := run[j].1.scan;
    var r := ScanOf(run[j].0, After(db, run[..j]), run[j].1).value.1;
    AcceptedScanIsWellFormed(run[j].0, After(db, run[..j]), run[j].1);
    AcceptedIsOnRecord(run[j].0, After(db, run[..j]), run[j].1);
    StepTaken(db, run, j);
    RecordStaysOverRun(db, run, j + 1, k, x.ticket, x.occurrence, r.decision, r.at);
    RunKeeps(db, run, j, k);
    RecordedScanReplays(cfg, After(db, run[..k]), x, r.decision, r.at, verdict, live, now, dbNow);
  }

  lemma AcceptedScanIsWellFormed(cfg: Config, db: Db, s: Step)
    requires s.ScanStep? && s.direction == Entry && s.scan.who.slot !in db.passes && ScanOf(cfg, db, s).Ok?
    ensures !BadOccurrence(s.scan) && s.scan.ticket in db.tickets && db.tickets[s.scan.ticket] == s.scan.who
  {
    hide Has, DegradedScan, RedeemVerified;
  }

  /** The exact condition for a degraded admission: its retry is answered as before if and
      only if the occurrence has not been recorded into the trail since. */
  lemma DegradedRetryIff(cfg: Config, db: Db, x: ScanInput, at: Time, verdict: Option<AlarmReason>, live: Decision,
                         now: Time, dbNow: Time)
    requires !BadOccurrence(x) && x.occurrence != Nil && x.ticket in db.tickets && db.tickets[x.ticket] == x.who
    requires !CommerciallyVoid(db, x.ticket)
    requires var q := Quarantined(db.quarantine, x.occurrence);
             q.Some? && q.value.ticket == x.ticket && q.value.admittedAt == Some(at)
    ensures Scan(cfg, db, x, Entry, verdict, live, now, dbNow) == Ok((db, ScanResult(true, AdmittedDegraded, at, true)))
            <==> x.occurrence !in db.trail.events
  {
    hide Has, AppendEvent, Degraded, ModeOf, EventTime, AdmitDegraded;
    if x.occurrence !in db.trail.events {
      RecordedScanReplays(cfg, db, x, AdmittedDegraded, at, verdict, live, now, dbNow);
    }
  }

  /** What the source asks of a recording that is not a replay: it reads the trail and the
      refusals, and not the quarantine. */
  predicate Recordable(cfg: Config, db: Db, x: ScanInput, kind: EventType) {
    && kind in {Entry, Exit, DuplicateAdmit} && x.occurrence.Occurrence? && x.at.Some?
    && x.ticket in db.tickets && db.tickets[x.ticket] == x.who
    && x.occurrence !in db.trail.events && x.occurrence !in db.refusals
    && cfg.signer.Some? && A.LinkFree(db.trail, x.ticket, x.occurrence)
  }

  /** A recording enters the trail exactly under these guards, whatever the quarantine holds. */
  lemma RecordingPassesQuarantine(cfg: Config, db: Db, x: ScanInput, kind: EventType)
    requires x.occurrence !in db.trail.events
    ensures RecordAdmission(cfg, db, x, kind).Ok? <==> Recordable(cfg, db, x, kind)
    ensures Recordable(cfg, db, x, kind) ==>
              var next := RecordAdmission(cfg, db, x, kind).value.0;
              x.occurrence in next.trail.events && next.quarantine == db.quarantine
  {
    hide A.Append, A.LinkFree;
    if cfg.signer.Some? && x.at.Some? {
      var input := A.Input(x.ticket, x.who, x.occurrence, kind, x.at.value);
      A.AppendFitsIff(cfg.keys.suite, cfg.signer.value, db.trail, input);
      AppendKeeps(cfg, db, input);
    }
  }
}
