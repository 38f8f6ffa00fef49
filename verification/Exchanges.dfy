/** A switch excludes admission, and admission excludes a switch. */
module Exchanges {
  import opened Basics
  import opened Canonical
  import opened Trail
  import opened Store
  import opened Machine
  import opened Admission
  import A = Appending

  /** The switch took effect here: it succeeded and its receipt is new. */
  ghost predicate Switches(cfg: Config, db: Db, s: Step) {
    s.ExchangeStep? && s.exchange.event !in db.consumed && SwitchExchange(cfg, db, s.exchange, s.now).Ok?
  }

  function Source(db: Db, x: Switch): seq<Uuid> {
    OrderTickets(db, x.order, x.organizer)
  }

  // ---------------------------------------------------------------- all or nothing

  lemma EventIsThere(db: Db, id: EventId, t: Uuid, kind: EventType)
    requires id in db.trail.events && db.trail.events[id].ticket == t && db.trail.events[id].kind == kind
    ensures Has(db, t, kind)
  {
  }

  lemma {:induction false} VoidAllVoids(cfg: Config, db: Db, ts: seq<Uuid>, who: Identity, v: Voiding, now: Time)
    requires VoidAll(cfg, db, ts, who, v, now).Ok?
    ensures forall t | t in ts :: Has(VoidAll(cfg, db, ts, who, v, now).value, t, v.Kind())
    decreases |ts|
  {
    hide AppendEvent, Has, Keeps;
    if ts != [] {
      var x := A.Input(ts[0], who, v.Id(ts[0]), v.Kind(), now);
      AppendKeeps(cfg, db, x);
      var next := AppendEvent(cfg, db, x).value;
      var after := VoidAll(cfg, next, ts[1..], who, v, now).value;
      VoidAllVoids(cfg, next, ts[1..], who, v, now);
      VoidAllKeeps(cfg, next, ts[1..], who, v, now);
      EventIsThere(next, x.id, ts[0], v.Kind());
      HasIsKept(next, after, ts[0], v.Kind());
      assert ts == [ts[0]] + ts[1..];
    }
  }

  lemma {:induction false} InsertAllIssues(cfg: Config, db: Db, ts: seq<NewTicket>)
    requires InsertAll(cfg, db, ts).Ok?
    ensures var after := InsertAll(cfg, db, ts).value;
            forall n | n in ts :: n.id !in db.tickets && n.id in after.tickets && after.tickets[n.id] == n.who && Has(after, n.id, Issued)
    decreases |ts|
  {
    hide AppendEvent, Has, Keeps;
    if ts != [] {
      var t := ts[0];
      var next, after := InsertIssued(cfg, db, t).value, InsertAll(cfg, db, ts).value;
      AppendKeeps(cfg, db.(tickets := db.tickets[t.id := t.who]), A.Input(t.id, t.who, IssuedId(t.id), Issued, t.issuedAt));
      InsertAllIssues(cfg, next, ts[1..]);
      InsertAllKeeps(cfg, next, ts[1..]);
      EventIsThere(next, IssuedId(t.id), t.id, Issued);
      HasIsKept(next, after, t.id, Issued);
      TicketIsKept(next, after, t.id);
      assert ts == [t] + ts[1..];
    }
  }

  lemma TicketIsKept(a: Db, b: Db, t: Uuid)
    requires Keeps(a, b) && t in a.tickets
    ensures t in b.tickets && b.tickets[t] == a.tickets[t]
  {
  }

  lemma {:induction false} NoObstacle(db: Db, ts: seq<Uuid>)
    ensures Obstacle(db, ts).None? <==> forall t | t in ts :: !CommerciallyVoid(db, t) && !AdmittedUnion(db, t)
  {
    hide CommerciallyVoid, AdmittedUnion;
    if ts != [] {
      NoObstacle(db, ts[1..]);
      assert ts == [ts[0]] + ts[1..];
    }
  }

  /** A switch voids every ticket of the source order, none of which was void or admitted,
      and issues every replacement; otherwise it changes nothing at all. */
  lemma SwitchIsAllOrNothing(cfg: Config, db: Db, s: Step)
    requires s.ExchangeStep?
    ensures !Switches(cfg, db, s) ==> Next(cfg, db, s) == db
    ensures Switches(cfg, db, s) ==>
              var db' := Next(cfg, db, s);
              && Source(db, s.exchange) != [] && s.exchange.event in db'.consumed
              && (forall t | t in Source(db, s.exchange) ::
                    !CommerciallyVoid(db, t) && !AdmittedUnion(db, t) && Has(db', t, Exchanged))
              && (forall n | n in s.exchange.tickets ::
                    n.id !in db.tickets && n.id in db'.tickets && db'.tickets[n.id] == n.who && Has(db', n.id, Issued))
  {
    hide OrderTickets, Has, AdmittedUnion, CommerciallyVoid, VoidAll, InsertAll, Keeps;
    if Switches(cfg, db, s) {
      var x, source := s.exchange, Source(db, s.exchange);
      FirstIsIssued(db, x.order, x.organizer);
      var received := db.(consumed := db.consumed + {x.event});
      var voided := VoidAll(cfg, received, source, db.tickets[source[0]], ByExchange(x.exchange), s.now).value;
      var db' := Next(cfg, db, s);
      NoObstacle(db, source);
      VoidAllVoids(cfg, received, source, db.tickets[source[0]], ByExchange(x.exchange), s.now);
      VoidAllKeeps(cfg, received, source, db.tickets[source[0]], ByExchange(x.exchange), s.now);
      InsertAllIssues(cfg, voided, x.tickets);
      InsertAllKeeps(cfg, voided, x.tickets);
      forall t | t in source
        ensures Has(db', t, Exchanged)
      {
        HasIsKept(voided, db', t, Exchanged);
      }
      forall n | n in x.tickets
        ensures n.id !in db.tickets
      {
        if n.id in db.tickets {
          TicketIsKept(received, voided, n.id);
        }
      }
      ReceiptIsKept(received, voided, x.event);
      ReceiptIsKept(voided, db', x.event);
    }
  }

  lemma ReceiptIsKept(a: Db, b: Db, event: Uuid)
    requires Keeps(a, b) && event in a.consumed
    ensures event in b.consumed
  {
  }

  lemma SourceIsKept(a: Db, b: Db, x: Switch, t: Uuid)
    requires Keeps(a, b) && t in Source(a, x)
    ensures t in Source(b, x)
  {
  }

  /** A switch of an order takes effect once in a run, however often its event is delivered
      and under whatever exchange id. */
  lemma SwitchTakesEffectOnce(db: Db, run: Run, j: nat, k: nat)
    requires j < k < |run|
    requires Switches(run[j].0, After(db, run[..j]), run[j].1) && Switches(run[k].0, After(db, run[..k]), run[k].1)
    ensures (run[j].1.exchange.order, run[j].1.exchange.organizer) != (run[k].1.exchange.order, run[k].1.exchange.organizer)
    ensures run[j].1.exchange.event != run[k].1.exchange.event
  {
    hide Next, Has, Keeps, OrderTickets, AdmittedUnion, Switches;
    SwitchesIs(run[j].0, After(db, run[..j]), run[j].1);
    SwitchesIs(run[k].0, After(db, run[..k]), run[k].1);
    var x := run[j].1.exchange;
    SwitchIsAllOrNothing(run[j].0, After(db, run[..j]), run[j].1);
    SwitchIsAllOrNothing(run[k].0, After(db, run[..k]), run[k].1);
    StepTaken(db, run, j);
    RunKeeps(db, run, j, j + 1);
    RunKeeps(db, run, j + 1, k);
    if x.event == run[k].1.exchange.event {
      ReceiptIsKept(After(db, run[..j + 1]), After(db, run[..k]), x.event);
    }
    var t := Source(After(db, run[..j]), x)[0];
    assert t in Source(After(db, run[..j]), x);
    SourceIsKept(After(db, run[..j]), After(db, run[..j + 1]), x, t);
    SourceIsKept(After(db, run[..j + 1]), After(db, run[..k]), x, t);
    HasIsKept(After(db, run[..j + 1]), After(db, run[..k]), t, Exchanged);
  }

  lemma SwitchesIs(cfg: Config, db: Db, s: Step)
    requires Switches(cfg, db, s)
    ensures s.ExchangeStep? && s.exchange.event !in db.consumed
  {
  }

  // ---------------------------------------------------------------- never both

  /** A live entry that lets a ticket in for the first time, clean or degraded, single-entry
      or pass. */
  ghost predicate LetsIn(cfg: Config, db: Db, s: Step, t: Uuid) {
    && s.ScanStep? && s.direction == Entry && s.scan.ticket == t && ScanOf(cfg, db, s).Ok?
    && var r := ScanOf(cfg, db, s).value.1; r.accepted && !r.replayed
  }

  lemma RowAdmits(db: Db, q: QuarantineRow)
    requires q in db.quarantine && q.admittedAt.Some?
    ensures AdmittedUnion(db, q.ticket)
  {
  }

  /** Whoever is let in enters the admission union, and was not void. */
  lemma LettingInAdmits(cfg: Config, db: Db, s: Step, t: Uuid)
    requires LetsIn(cfg, db, s, t)
    ensures !CommerciallyVoid(db, t) && AdmittedUnion(Next(cfg, db, s), t)
  {
    hide Has, Lookup, DegradedScan, RedeemVerified, PassVerified, ExitUnverifiedScan, Keeps, AdmittedUnion;
    var x, db' := s.scan, Next(cfg, db, s);
    if s.verdict.Some? {
      DegradedEffect(cfg, db, x.ticket, x.who, x.occurrence, Entry, s.verdict.value, s.now);
      var row := QuarantineRow(t, x.who.organizer, s.verdict.value, Some(s.now), x.occurrence, None, Redeemed);
      assert db'.quarantine == db.quarantine + [row];
      RowAdmits(db', row);
    } else if x.who.slot in db.passes {
      PassEffect(cfg, db, x, Entry, s.live, s.now);
      EventIsThere(db', x.occurrence, t, Entry);
      EventAdmits(db', t);
    } else {
      RedeemEffect(cfg, db, x, s.dbNow);
      EventIsThere(db', if x.occurrence == Nil then RedeemedId(t) else x.occurrence, t, Redeemed);
      EventAdmits(db', t);
    }
  }

  lemma EventAdmits(db: Db, t: Uuid)
    requires Has(db, t, Redeemed) || Has(db, t, Entry)
    ensures AdmittedUnion(db, t)
  {
  }

  lemma AdmittedIsKept(a: Db, b: Db, t: Uuid)
    requires Keeps(a, b) && AdmittedUnion(a, t)
    ensures AdmittedUnion(b, t)
  {
    hide Has, KeepsTickets, KeepsEvents, KeepsRefusals, KeepsBatches;
    if Has(a, t, Redeemed) {
      HasIsKept(a, b, t, Redeemed);
    } else if Has(a, t, Entry) {
      HasIsKept(a, b, t, Entry);
    } else {
      var q :| q in a.quarantine && q.ticket == t && (q.admittedAt.Some? || Admitting(q.kind));
      assert q in b.quarantine;
    }
  }

  /** No run has both a fresh live admission of a source ticket and its replacement issued,
      in either order. */
  lemma NeverBothAdmittedAndSwitched(db: Db, run: Run, j: nat, k: nat, t: Uuid)
    requires j < |run| && k < |run|
    requires LetsIn(run[j].0, After(db, run[..j]), run[j].1, t)
    requires Switches(run[k].0, After(db, run[..k]), run[k].1)
    ensures t !in Source(After(db, run[..k]), run[k].1.exchange)
  {
    hide Next, Has, Keeps, OrderTickets, AdmittedUnion, Switches, LetsIn;
    LettingInAdmits(run[j].0, After(db, run[..j]), run[j].1, t);
    SwitchesIs(run[k].0, After(db, run[..k]), run[k].1);
    LetsInIs(run[j].0, After(db, run[..j]), run[j].1, t);
    SwitchIsAllOrNothing(run[k].0, After(db, run[..k]), run[k].1);
    if t in Source(After(db, run[..k]), run[k].1.exchange) {
      if j < k {
        StepTaken(db, run, j);
        RunKeeps(db, run, j + 1, k);
        AdmittedIsKept(After(db, run[..j + 1]), After(db, run[..k]), t);
      } else if k < j {
        StepTaken(db, run, k);
        RunKeeps(db, run, k + 1, j);
        HasIsKept(After(db, run[..k + 1]), After(db, run[..j]), t, Exchanged);
      }
    }
  }

  lemma LetsInIs(cfg: Config, db: Db, s: Step, t: Uuid)
    requires LetsIn(cfg, db, s, t)
    ensures s.ScanStep?
  {
  }

  // ---------------------------------------------------------------- late offline entries

  /** The alarm owed for an offline entry on a ticket that should not have got in. */
  function LateEntryAlarm(x: ScanInput, now: Time): Alarm
    requires x.at.Some?
  {
    ConflictAlarm(x.who.organizer, x.ticket, x.occurrence, x.at.value, Skewed(x.at.value, now))
  }

  /** Reconciling something new on a single-entry ticket owes a conflict alarm exactly when
      the chain verifies and the ticket is void or already admitted. */
  lemma LateEntryOwesAlarmIff(cfg: Config, db: Db, x: ScanInput, direction: EventType, verdict: Option<AlarmReason>, now: Time)
    requires var r := Reconcile(cfg, db, x, direction, verdict, now); r.Ok? && r.value.1.outcome != Synced
    requires x.who.slot !in db.passes
    ensures x.at.Some?
    ensures var db' := Reconcile(cfg, db, x, direction, verdict, now).value.0;
            db'.alarms == (if verdict.None? && (CommerciallyVoid(db, x.ticket) || AdmittedUnion(db, x.ticket))
                           then db.alarms + [LateEntryAlarm(x, now)] else db.alarms)
  {
    hide AppendEvent, Lookup, AdmittedUnion, CommerciallyVoid, Skewed, Keeps;
    var kind := if AdmittedUnion(db, x.ticket) then DuplicateAdmit else Redeemed;
    AppendKeeps(cfg, db, A.Input(x.ticket, x.who, x.occurrence, kind, x.at.value));
  }

  lemma LateEntryStep(cfg: Config, db: Db, s: Step)
    requires s.ReconcileStep? && s.verdict.None? && s.scan.who.slot !in db.passes && CommerciallyVoid(db, s.scan.ticket)
    requires var r := Reconcile(cfg, db, s.scan, s.direction, None, s.now); r.Ok? && r.value.1.outcome != Synced
    ensures s.scan.at.Some? && LateEntryAlarm(s.scan, s.now) in Next(cfg, db, s).alarms
  {
    hide AdmittedUnion, Reconcile, CommerciallyVoid;
    LateEntryOwesAlarmIff(cfg, db, s.scan, s.direction, None, s.now);
  }

  /** After a switch, a new offline entry of a source ticket with a valid chain leaves an
      owed conflict alarm in every later state. */
  lemma LateEntryIsReported(db: Db, run: Run, j: nat, k: nat, m: nat)
    requires j < k < m <= |run|
    requires Switches(run[j].0, After(db, run[..j]), run[j].1)
    requires run[k].1.ReconcileStep? && run[k].1.verdict.None?
    requires run[k].1.scan.ticket in Source(After(db, run[..j]), run[j].1.exchange)
    requires run[k].1.scan.who.slot !in After(db, run[..k]).passes
    requires var r := Reconcile(run[k].0, After(db, run[..k]), run[k].1.scan, run[k].1.direction, None, run[k].1.now);
             r.Ok? && r.value.1.outcome != Synced
    ensures run[k].1.scan.at.Some? && LateEntryAlarm(run[k].1.scan, run[k].1.now) in After(db, run[..m]).alarms
  {
    hide Has, Keeps, OrderTickets, AdmittedUnion, Switches, Reconcile, Next;
    var s := run[k].1;
    SwitchesIs(run[j].0, After(db, run[..j]), run[j].1);
    SwitchIsAllOrNothing(run[j].0, After(db, run[..j]), run[j].1);
    StepTaken(db, run, j);
    RunKeeps(db, run, j + 1, k);
    HasIsKept(After(db, run[..j + 1]), After(db, run[..k]), s.scan.ticket, Exchanged);
    LateEntryStep(run[k].0, After(db, run[..k]), s);
    StepTaken(db, run, k);
    RunKeeps(db, run, k + 1, m);
    AlarmIsKept(After(db, run[..k + 1]), After(db, run[..m]), LateEntryAlarm(s.scan, s.now));
  }

  lemma AlarmIsKept(a: Db, b: Db, alarm: Alarm)
    requires Keeps(a, b) && alarm in a.alarms
    ensures alarm in b.alarms
  {
  }
}
