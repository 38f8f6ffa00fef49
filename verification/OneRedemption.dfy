/** One redemption a ticket, across the live route and the offline one. */
module OneRedemption {
  import opened Basics
  import opened Canonical
  import opened Trail
  import opened Store
  import opened Machine
  import opened Admission
  import opened Answers
  import A = Appending
  import C = Checkpoints

  /** No ticket has two redemptions. */
  ghost predicate OnceRedeemed(events: map<EventId, EventRow>) {
    forall a, b | a in events && b in events ::
      events[a].kind == Redeemed && events[b].kind == Redeemed && events[a].ticket == events[b].ticket ==> a == b
  }

  /** What a step may do to redemptions: nothing, or add one for a ticket without one. */
  ghost predicate Redeems(db: Db, events: map<EventId, EventRow>) {
    && (forall id | id in db.trail.events :: id in events && events[id] == db.trail.events[id])
    && ((forall id | id in events && id !in db.trail.events :: events[id].kind != Redeemed)
        || exists id :: events.Keys == db.trail.events.Keys + {id} && id in events && !Did(db, events[id].ticket, Redeemed))
  }

  lemma RedeemsKeepsOnce(db: Db, events: map<EventId, EventRow>)
    requires OnceRedeemed(db.trail.events) && Redeems(db, events)
    ensures OnceRedeemed(events)
  {
  }

  /** One append, whatever it is of. */
  lemma AppendRedeems(cfg: Config, db: Db, x: A.Input)
    requires AppendEvent(cfg, db, x).Ok?
    ensures Redeems(db, AppendEvent(cfg, db, x).value.trail.events)
  {
    hide Room, AppendEvent;
    AppendIff(cfg, db, x);
  }

  lemma RedeemPathRedeems(cfg: Config, db: Db, x: ScanInput, dbNow: Time)
    requires !BadOccurrence(x) && RedeemVerified(cfg, db, x, dbNow).Ok?
    ensures Redeems(db, RedeemVerified(cfg, db, x, dbNow).value.0.trail.events)
  {
    hide AppendEvent, Lookup, Degraded, ModeOf, EventTime, Has, Redeems;
    Unchanged(db);
    var input := A.Input(x.ticket, x.who, RedemptionId(x), Redeemed, RedemptionTime(x, dbNow));
    if AppendEvent(cfg, db, input).Ok? {
      AppendRedeems(cfg, db, input);
    }
  }

  lemma PassPathRedeems(cfg: Config, db: Db, x: ScanInput, direction: EventType, live: Decision, now: Time)
    requires !BadOccurrence(x) && x.occurrence != Nil && PassVerified(cfg, db, x, direction, live, now).Ok?
    ensures Redeems(db, PassVerified(cfg, db, x, direction, live, now).value.0.trail.events)
  {
    hide AppendEvent, Lookup, Degraded, ModeOf, EventTime, Has, Redeems;
    Unchanged(db);
    var input := A.Input(x.ticket, x.who, x.occurrence, direction, x.at.value);
    if AppendEvent(cfg, db, input).Ok? {
      AppendRedeems(cfg, db, input);
    }
  }

  lemma ScanRedeems(cfg: Config, db: Db, s: Step)
    requires s.ScanStep?
    ensures Redeems(db, Next(cfg, db, s).trail.events)
  {
    hide Has, DegradedScan, RedeemVerified, PassVerified, ExitUnverifiedScan, Keeps, Redeems;
    var x := s.scan;
    Unchanged(db);
    if BadOccurrence(x) {
    } else if s.verdict.Some? {
      DegradedEffect(cfg, db, x.ticket, x.who, x.occurrence, Entry, s.verdict.value, s.now);
      DegradedEffect(cfg, db, x.ticket, x.who, x.occurrence, s.direction, s.verdict.value, s.now);
      ExitEffect(db, x, s.verdict.value, s.now);
    } else if x.who.slot !in db.passes {
      if RedeemVerified(cfg, db, x, s.dbNow).Ok? {
        RedeemPathRedeems(cfg, db, x, s.dbNow);
      }
    } else if x.occurrence != Nil && PassVerified(cfg, db, x, s.direction, s.live, s.now).Ok? {
      PassPathRedeems(cfg, db, x, s.direction, s.live, s.now);
    }
  }

  lemma ReconcileRedeems(cfg: Config, db: Db, s: Step)
    requires s.ReconcileStep?
    ensures Redeems(db, Next(cfg, db, s).trail.events)
  {
    hide AppendEvent, Lookup, AdmittedUnion, CommerciallyVoid, Skewed, Redeems;
    Unchanged(db);
    var x := s.scan;
    if x.at.Some? {
      var kind := if x.who.slot in db.passes then s.direction else if AdmittedUnion(db, x.ticket) then DuplicateAdmit else Redeemed;
      var input := A.Input(x.ticket, x.who, x.occurrence, kind, x.at.value);
      if AppendEvent(cfg, db, input).Ok? {
        AppendRedeems(cfg, db, input);
      }
    }
  }

  lemma Unchanged(db: Db)
    ensures Redeems(db, db.trail.events)
  {
  }

  lemma {:induction false} IssuingRedeemsNone(cfg: Config, db: Db, ts: seq<NewTicket>)
    requires InsertAll(cfg, db, ts).Ok?
    ensures var after := InsertAll(cfg, db, ts).value.trail.events;
            && (forall id | id in db.trail.events :: id in after && after[id] == db.trail.events[id])
            && (forall id | id in after && id !in db.trail.events :: after[id].kind == Issued)
    decreases |ts|
  {
    hide AppendEvent, Room, Did;
    if ts != [] {
      var t := ts[0];
      AppendIff(cfg, db.(tickets := db.tickets[t.id := t.who]), A.Input(t.id, t.who, IssuedId(t.id), Issued, t.issuedAt));
      IssuingRedeemsNone(cfg, InsertIssued(cfg, db, t).value, ts[1..]);
    }
  }

  lemma {:induction false} VoidingRedeemsNone(cfg: Config, db: Db, ts: seq<Uuid>, who: Identity, v: Voiding, now: Time)
    requires VoidAll(cfg, db, ts, who, v, now).Ok?
    ensures var after := VoidAll(cfg, db, ts, who, v, now).value.trail.events;
            && (forall id | id in db.trail.events :: id in after && after[id] == db.trail.events[id])
            && (forall id | id in after && id !in db.trail.events :: after[id].kind == v.Kind())
    decreases |ts|
  {
    hide AppendEvent, Room, Did;
    if ts != [] {
      var x := A.Input(ts[0], who, v.Id(ts[0]), v.Kind(), now);
      AppendIff(cfg, db, x);
      VoidingRedeemsNone(cfg, AppendEvent(cfg, db, x).value, ts[1..], who, v, now);
    }
  }

  lemma VoidsRedeemNone(cfg: Config, db: Db, s: Step)
    requires s.RefundStep? || s.ExchangeStep?
    ensures Redeems(db, Next(cfg, db, s).trail.events)
  {
    hide OrderTickets, Free, Mine, VoidAll, InsertAll, Obstacle;
    if s.RefundStep? && RefundOrder(cfg, db, s.organizer, s.order, s.refund, s.quantity, s.now).Ok? {
      var free := Free(db, OrderTickets(db, s.order, s.organizer));
      FirstIsIssued(db, s.order, s.organizer);
      if 1 <= s.quantity <= |free| {
        var claimed := db.(batches := db.batches[(s.organizer, s.refund) := BatchRow(s.order, s.quantity)]);
        if VoidAll(cfg, claimed, free[..s.quantity], db.tickets[free[0]], ByRefund(s.refund), s.now).Ok? {
          VoidingRedeemsNone(cfg, claimed, free[..s.quantity], db.tickets[free[0]], ByRefund(s.refund), s.now);
        }
      }
    }
    if s.ExchangeStep? && SwitchExchange(cfg, db, s.exchange, s.now).Ok? && s.exchange.event !in db.consumed {
      var x, source := s.exchange, OrderTickets(db, s.exchange.order, s.exchange.organizer);
      FirstIsIssued(db, x.order, x.organizer);
      var received := db.(consumed := db.consumed + {x.event});
      VoidingRedeemsNone(cfg, received, source, db.tickets[source[0]], ByExchange(x.exchange), s.now);
      var voided := VoidAll(cfg, received, source, db.tickets[source[0]], ByExchange(x.exchange), s.now).value;
      IssuingRedeemsNone(cfg, voided, x.tickets);
    }
  }

  lemma StepRedeems(cfg: Config, db: Db, s: Step)
    ensures Redeems(db, Next(cfg, db, s).trail.events)
  {
    hide Redeems, Scan, Reconcile, RefundOrder, SwitchExchange, InsertAll, AppendEvent, Has, Keeps;
    Unchanged(db);
    match s {
      case IssueStep(event, ts) =>
        var received := db.(consumed := db.consumed + {event});
        if InsertAll(cfg, received, ts).Ok? {
          IssuingRedeemsNone(cfg, received, ts);
          OthersRedeem(db, InsertAll(cfg, received, ts).value.trail.events);
        }
      case DeliverStep(t, now) =>
        if t in db.tickets && MarkDelivered(cfg, db, t, now).Ok? && !Has(db, t, Delivered) {
          AppendRedeems(cfg, db, A.Input(t, db.tickets[t], DeliveredId(t), Delivered, now));
        }
      case RecordStep(x, kind) =>
        if x.at.Some? && AppendEvent(cfg, db, A.Input(x.ticket, x.who, x.occurrence, kind, x.at.value)).Ok? {
          AppendRedeems(cfg, db, A.Input(x.ticket, x.who, x.occurrence, kind, x.at.value));
        }
      case ScanStep(_, _, _, _, _, _) => ScanRedeems(cfg, db, s);
      case ReconcileStep(_, _, _, _) => ReconcileRedeems(cfg, db, s);
      case RefundStep(_, _, _, _, _) => VoidsRedeemNone(cfg, db, s);
      case ExchangeStep(_, _) => VoidsRedeemNone(cfg, db, s);
      case _ => QuietEvents(cfg, db, s);
    }
  }

  lemma OthersRedeem(db: Db, events: map<EventId, EventRow>)
    requires forall id | id in db.trail.events :: id in events && events[id] == db.trail.events[id]
    requires forall id | id in events && id !in db.trail.events :: events[id].kind == Issued
    ensures Redeems(db, events)
  {
  }

  lemma QuietEvents(cfg: Config, db: Db, s: Step)
    requires s.RefuseStep? || s.CheckpointStep? || s.SealStep? || s.ModeStep? || s.PolicyStep?
    ensures Next(cfg, db, s).trail.events == db.trail.events
  {
    hide C.CheckpointOrganizer, Quarantined;
  }

  /** In every run a ticket is redeemed at most once, over both routes together. */
  lemma {:induction false} RedeemedOnce(db: Db, run: Run)
    requires OnceRedeemed(db.trail.events)
    ensures OnceRedeemed(After(db, run).trail.events)
    decreases |run|
  {
    hide Next, OnceRedeemed, Redeems;
    if run != [] {
      var n := |run| - 1;
      RedeemedOnce(db, run[..n]);
      StepRedeems(run[n].0, After(db, run[..n]), run[n].1);
      RedeemsKeepsOnce(After(db, run[..n]), After(db, run).trail.events);
    }
  }

  // ---------------------------------------------------------------- across the routes

  /** A clean, fresh live admission on a single-entry slot. */
  ghost predicate LetsInClean(cfg: Config, db: Db, s: Step, t: Uuid) {
    && s.ScanStep? && s.scan.ticket == t && s.scan.who.slot !in db.passes && ScanOf(cfg, db, s).Ok?
    && ScanOf(cfg, db, s).value.1.accepted && !ScanOf(cfg, db, s).value.1.replayed
    && ScanOf(cfg, db, s).value.1.decision == Accepted
  }

  /** The ticket is used up for a clean live admission. */
  ghost predicate Spent(db: Db, t: Uuid) {
    Did(db, t, Redeemed) || !Untaken(db, t)
  }

  /** The ticket went in, but only by an entry from when its slot was a pass, or by what was
      learnt of while its chain was suspect: the live gate looks at neither. */
  ghost predicate OnlyBeside(db: Db, t: Uuid) {
    WentIn(db, t) && !Did(db, t, Redeemed) && Untaken(db, t)
  }

  lemma SpentIsNotLetIn(cfg: Config, db: Db, s: Step, t: Uuid)
    requires LetsInClean(cfg, db, s, t)
    ensures !Spent(db, t)
  {
    hide Has, Did, Lookup, DegradedScan, RedeemVerified, PassVerified, ExitUnverifiedScan, Keeps, Degraded;
    var x := s.scan;
    NotVoid(db, t);
    TakenIs(db, t);
    SuspectIsNotClean(cfg, db, s);
    RedeemEffect(cfg, db, x, s.dbNow);
  }

  /** On a suspect chain nobody is let in as clean. */
  lemma SuspectIsNotClean(cfg: Config, db: Db, s: Step)
    requires s.ScanStep? && s.scan.who.slot !in db.passes && ScanOf(cfg, db, s).Ok?
    requires var r := ScanOf(cfg, db, s).value.1; r.accepted && !r.replayed && r.decision == Accepted
    ensures s.verdict.None? && !BadOccurrence(s.scan)
  {
    hide Has, DegradedScan, RedeemVerified, PassVerified, ExitUnverifiedScan;
    if s.verdict.Some? {
      SuspectIsDegraded(cfg, db, s.scan, s.verdict.value, s.now);
    }
  }

  lemma SuspectIsDegraded(cfg: Config, db: Db, x: ScanInput, reason: AlarmReason, now: Time)
    ensures var r := DegradedScan(cfg, db, x.ticket, x.who, x.occurrence, Entry, reason, now);
            r.Ok? && r.value.1.accepted && !r.value.1.replayed ==> r.value.1.decision == AdmittedDegraded
  {
    hide Lookup, Degraded, ModeOf, AdmitDegraded;
  }

  lemma SpentStays(a: Db, b: Db, t: Uuid)
    requires Keeps(a, b) && Spent(a, t)
    ensures Spent(b, t)
  {
    hide KeepsTickets, KeepsRefusals, KeepsBatches;
    if Did(a, t, Redeemed) {
      var id :| id in a.trail.events && a.trail.events[id].ticket == t && a.trail.events[id].kind == Redeemed;
      assert id in b.trail.events;
    } else {
      var q :| q in a.quarantine && q.ticket == t && q.admittedAt.Some?;
      assert q in b.quarantine;
    }
  }

  /** The exact condition across the routes: what a first reconciliation on a verified chain of a
      single-entry ticket leaves is spent for clean live admission if and only if the ticket had
      not gone in beside the trail only. */
  lemma ReconciledIsSpentIff(cfg: Config, db: Db, x: ScanInput, now: Time)
    requires Reconcile(cfg, db, x, Entry, None, now).Ok? && Unknown(db, x.occurrence) && x.who.slot !in db.passes
    ensures Spent(Reconcile(cfg, db, x, Entry, None, now).value.0, x.ticket) <==> !OnlyBeside(db, x.ticket)
  {
    hide Reconcile, Room, Unknown;
    var after := Reconcile(cfg, db, x, Entry, None, now).value.0;
    ReconciledIsFormed(cfg, db, x, Entry, None, now);
    FreshReconciliationIff(cfg, db, x, Entry, now);
    assert x.occurrence in after.trail.events;
    if Did(db, x.ticket, Redeemed) {
      var id :| id in db.trail.events && db.trail.events[id].ticket == x.ticket && db.trail.events[id].kind == Redeemed;
      NotUnknown(db, id, x.occurrence);
      assert id in after.trail.events;
    }
  }

  lemma NotUnknown(db: Db, id: EventId, occ: EventId)
    requires Unknown(db, occ) && id in db.trail.events
    ensures id != occ
  {
  }

  lemma ReconciledIsFormed(cfg: Config, db: Db, x: ScanInput, direction: EventType, verdict: Option<AlarmReason>, now: Time)
    requires Reconcile(cfg, db, x, direction, verdict, now).Ok?
    ensures x.occurrence.Occurrence? && x.at.Some?
  {
  }

  /** Once an offline entry of a single-entry ticket was reconciled on a verified chain, and the
      ticket had not gone in beside the trail only, no later live scan of it is freshly
      accepted as clean, in any run. */
  lemma OfflineThenNotLive(db: Db, run: Run, j: nat, k: nat, t: Uuid)
    requires j < k < |run| && run[j].1.ReconcileStep? && run[j].1.scan.ticket == t
    requires run[j].1.direction == Entry && run[j].1.verdict.None?
    requires var before := After(db, run[..j]);
             && run[j].1.scan.who.slot !in before.passes && Unknown(before, run[j].1.scan.occurrence) && !OnlyBeside(before, t)
             && Reconcile(run[j].0, before, run[j].1.scan, Entry, None, run[j].1.now).Ok?
    ensures !LetsInClean(run[k].0, After(db, run[..k]), run[k].1, t)
  {
    hide Reconcile, Unknown, OnlyBeside, Spent, LetsInClean, Keeps, Scan;
    var s, before := run[j].1, After(db, run[..j]);
    StepTaken(db, run, j);
    ReconciledIsSpentIff(run[j].0, before, s.scan, s.now);
    assert After(db, run[..j + 1]) == Reconcile(run[j].0, before, s.scan, Entry, None, s.now).value.0;
    RunKeeps(db, run, j + 1, k);
    SpentStays(After(db, run[..j + 1]), After(db, run[..k]), t);
    if LetsInClean(run[k].0, After(db, run[..k]), run[k].1, t) {
      SpentIsNotLetIn(run[k].0, After(db, run[..k]), run[k].1, t);
    }
  }

  /** The failing case: a ticket that went in beside the trail only.  Its next offline entry is
      reconciled as a duplicate, and a live scan after that is accepted as clean all the same. */
  lemma BesideIsLetInAgain(cfg: Config, db: Db, x: ScanInput, now: Time, y: ScanInput, now': Time, dbNow: Time)
    requires A.Honest(cfg.keys, db.tickets, db.trail) && cfg.signer.Some? && A.CanSign(cfg.keys, cfg.signer.value)
    requires Holder(db, x) && x.occurrence.Occurrence? && x.at.Some? && Unknown(db, x.occurrence) && x.who.slot !in db.passes
    requires OnlyBeside(db, x.ticket) && !Did(db, x.ticket, Refunded) && !Did(db, x.ticket, Exchanged)
    requires y.ticket == x.ticket && y.who == x.who && y.occurrence.Occurrence? && y.at.Some?
    requires Unknown(db, y.occurrence) && y.occurrence != x.occurrence
    ensures var r := Reconcile(cfg, db, x, Entry, None, now);
            && r.Ok? && r.value.1.outcome == Conflict
            && LetsInClean(cfg, r.value.0, ScanStep(y, Entry, None, Accepted, now', dbNow), x.ticket)
  {
    hide A.Honest, A.CanSign, Reconcile, RedeemSingle, Room, AdmitPass;
    HonestRoom(cfg.keys, db, x.ticket, x.occurrence);
    FreshReconciliationIff(cfg, db, x, Entry, now);
    var after := Reconcile(cfg, db, x, Entry, None, now).value.0;
    DuplicateStaysHonest(cfg, db, x, now);
    StillUnvoided(db, after, x);
    HonestRedemptionIff(cfg, after, y, now', dbNow);
    FreshRedemptionIff(cfg, after, y, now', dbNow);
  }

  lemma StillUnvoided(db: Db, after: Db, x: ScanInput)
    requires OnlyTrail(db, after) && x.at.Some? && x.occurrence !in db.trail.events
    requires after.trail.events == db.trail.events[x.occurrence := EventRow(x.ticket, DuplicateAdmit, x.at.value)]
    ensures forall kind | kind != DuplicateAdmit :: Did(after, x.ticket, kind) <==> Did(db, x.ticket, kind)
  {
    forall kind | kind != DuplicateAdmit
      ensures Did(after, x.ticket, kind) <==> Did(db, x.ticket, kind)
    {
      if Did(db, x.ticket, kind) {
        var id :| id in db.trail.events && db.trail.events[id].ticket == x.ticket && db.trail.events[id].kind == kind;
        assert id in after.trail.events;
      }
      if Did(after, x.ticket, kind) {
        var id :| id in after.trail.events && after.trail.events[id].ticket == x.ticket && after.trail.events[id].kind == kind;
        assert id in db.trail.events;
      }
    }
  }

  lemma DuplicateStaysHonest(cfg: Config, db: Db, x: ScanInput, now: Time)
    requires A.Honest(cfg.keys, db.tickets, db.trail) && cfg.signer.Some? && A.CanSign(cfg.keys, cfg.signer.value)
    requires Holder(db, x) && x.at.Some? && Reconcile(cfg, db, x, Entry, None, now).Ok? && Unknown(db, x.occurrence)
    requires x.who.slot !in db.passes && WentIn(db, x.ticket)
    ensures var after := Reconcile(cfg, db, x, Entry, None, now).value.0;
            A.Honest(cfg.keys, after.tickets, after.trail)
  {
    hide A.Honest, A.CanSign, A.Append, Lookup, Has, Quarantined, Skewed, Room;
    KnownIs(db, x.ticket, x.occurrence, Entry, true);
    NotVoid(db, x.ticket);
    assert AdmittedUnion(db, x.ticket);
    var input := A.Input(x.ticket, x.who, x.occurrence, DuplicateAdmit, x.at.value);
    A.AppendKeepsHonest(cfg.keys, db.tickets, cfg.signer.value, db.trail, input);
    A.AppendFitsIff(cfg.keys.suite, cfg.signer.value, db.trail, input);
  }
}
