/** An occurrence is on record in one place at most. */
module OnceOnly {
  import opened Basics
  import opened Canonical
  import opened Trail
  import opened Store
  import opened Machine
  import opened Admission
  import A = Appending

  /** Quarantine rows of different occurrences, refused occurrences and trail events never
      share an id, except that a trail event may repeat a quarantined one. */
  ghost predicate Separate(db: Db) {
    && (forall i, j | 0 <= i < j < |db.quarantine| ::
          db.quarantine[i].occurrence == db.quarantine[j].occurrence ==> db.quarantine[i].occurrence == Nil)
    && (forall q | q in db.quarantine :: q.occurrence == Nil || (q.occurrence.Occurrence? && q.occurrence !in db.refusals))
    && (forall o | o in db.refusals :: o.Occurrence? && o !in db.trail.events)
  }

  ghost predicate Exclusive(db: Db) {
    Separate(db) && forall q | q in db.quarantine && q.occurrence != Nil :: q.occurrence !in db.trail.events
  }

  lemma {:induction false} InsertAllParts(cfg: Config, db: Db, ts: seq<NewTicket>)
    ensures var r := InsertAll(cfg, db, ts); r.Ok? ==> r.value == db.(tickets := r.value.tickets, trail := r.value.trail)
    decreases |ts|
  {
    hide AppendEvent, Keeps;
    if ts != [] {
      var t := ts[0];
      AppendKeeps(cfg, db.(tickets := db.tickets[t.id := t.who]), A.Input(t.id, t.who, IssuedId(t.id), Issued, t.issuedAt));
      if InsertIssued(cfg, db, t).Ok? {
        InsertAllParts(cfg, InsertIssued(cfg, db, t).value, ts[1..]);
      }
    }
  }

  lemma {:induction false} VoidAllParts(cfg: Config, db: Db, ts: seq<Uuid>, who: Identity, v: Voiding, now: Time)
    ensures var r := VoidAll(cfg, db, ts, who, v, now); r.Ok? ==> r.value == db.(trail := r.value.trail)
    decreases |ts|
  {
    hide AppendEvent, Keeps;
    if ts != [] {
      var x := A.Input(ts[0], who, v.Id(ts[0]), v.Kind(), now);
      AppendKeeps(cfg, db, x);
      if AppendEvent(cfg, db, x).Ok? {
        VoidAllParts(cfg, AppendEvent(cfg, db, x).value, ts[1..], who, v, now);
      }
    }
  }

  /** What a step may do to the quarantine: nothing, or add one row for an occurrence that
      is not on record, leaving the trail alone. */
  ghost predicate QuarantineStep(db: Db, db': Db, occ: EventId) {
    || db'.quarantine == db.quarantine
    || (exists row :: db'.quarantine == db.quarantine + [row] && row.occurrence == occ
          && db'.trail == db.trail && (occ == Nil || (occ.Occurrence? && Unrecorded(db, occ))))
  }

  predicate Unrecorded(db: Db, occ: EventId) {
    occ !in db.trail.events && Quarantined(db.quarantine, occ).None? && occ !in db.refusals
  }

  lemma NotRecordedMeans(db: Db, t: Uuid, occ: EventId, direction: EventType, duplicates: bool)
    requires Lookup(db, t, occ, direction, duplicates).NotRecorded?
    ensures Unrecorded(db, occ)
  {
  }

  lemma DegradedQuarantines(cfg: Config, db: Db, x: ScanInput, direction: EventType, reason: AlarmReason, now: Time)
    requires !BadOccurrence(x)
    ensures var r := DegradedScan(cfg, db, x.ticket, x.who, x.occurrence, direction, reason, now);
            r.Ok? ==> QuarantineStep(db, r.value.0, x.occurrence) && r.value.0.refusals == db.refusals
  {
    hide Lookup, DegradedScan, Keeps, Unrecorded;
    DegradedEffect(cfg, db, x.ticket, x.who, x.occurrence, direction, reason, now);
    var r := DegradedScan(cfg, db, x.ticket, x.who, x.occurrence, direction, reason, now);
    if r.Ok? && r.value.1.accepted && !r.value.1.replayed && x.occurrence != Nil {
      NotRecordedMeans(db, x.ticket, x.occurrence, direction, false);
    }
  }

  lemma ScanQuarantines(cfg: Config, db: Db, s: Step)
    requires s.ScanStep?
    ensures QuarantineStep(db, Next(cfg, db, s), s.scan.occurrence) && Next(cfg, db, s).refusals == db.refusals
  {
    hide Has, DegradedScan, RedeemVerified, PassVerified, ExitUnverifiedScan, Keeps, Unrecorded;
    var x := s.scan;
    if !BadOccurrence(x) {
      if s.verdict.Some? {
        DegradedQuarantines(cfg, db, x, Entry, s.verdict.value, s.now);
        DegradedQuarantines(cfg, db, x, s.direction, s.verdict.value, s.now);
        ExitEffect(db, x, s.verdict.value, s.now);
      } else {
        RedeemEffect(cfg, db, x, s.dbNow);
        if x.occurrence != Nil {
          PassEffect(cfg, db, x, s.direction, s.live, s.now);
        }
      }
    }
  }

  lemma ReconcileQuarantines(cfg: Config, db: Db, s: Step)
    requires s.ReconcileStep?
    ensures QuarantineStep(db, Next(cfg, db, s), s.scan.occurrence) && Next(cfg, db, s).refusals == db.refusals
  {
    hide AppendEvent, Lookup, AdmittedUnion, CommerciallyVoid, Skewed, Keeps, Unrecorded;
    var x := s.scan;
    if x.at.Some? {
      var kind := if x.who.slot in db.passes then s.direction else if AdmittedUnion(db, x.ticket) then DuplicateAdmit else Redeemed;
      AppendKeeps(cfg, db, A.Input(x.ticket, x.who, x.occurrence, kind, x.at.value));
      if Lookup(db, x.ticket, x.occurrence, s.direction, true).NotRecorded? {
        NotRecordedMeans(db, x.ticket, x.occurrence, s.direction, true);
        if s.verdict.Some? {
          var db' := QuarantineOccurrence(db, x, s.direction, s.verdict.value);
          var row := db'.quarantine[|db.quarantine|];
          assert db'.quarantine == db.quarantine + [row];
        }
      }
    }
  }

  /** No other step touches the quarantine, and only a refusal adds a refusal. */
  lemma OtherStepsLeave(cfg: Config, db: Db, s: Step)
    requires !s.ScanStep? && !s.ReconcileStep?
    ensures Next(cfg, db, s).quarantine == db.quarantine
    ensures !s.RefuseStep? ==> Next(cfg, db, s).refusals == db.refusals
  {
    hide OrderTickets, Free, Mine, VoidAll, InsertAll, Obstacle, AppendEvent, Has, Keeps, RecordRefusal;
    match s {
      case IssueStep(event, ts) => InsertAllParts(cfg, db.(consumed := db.consumed + {event}), ts);
      case DeliverStep(t, now) =>
        if t in db.tickets {
          AppendKeeps(cfg, db, A.Input(t, db.tickets[t], DeliveredId(t), Delivered, now));
        }
      case RecordStep(x, kind) =>
        if x.at.Some? {
          AppendKeeps(cfg, db, A.Input(x.ticket, x.who, x.occurrence, kind, x.at.value));
        }
      case RefundStep(organizer, order, refund, quantity, now) =>
        var free := Free(db, OrderTickets(db, order, organizer));
        FirstIsIssued(db, order, organizer);
        if 1 <= quantity <= |free| {
          var claimed := db.(batches := db.batches[(organizer, refund) := BatchRow(order, quantity)]);
          VoidAllParts(cfg, claimed, free[..quantity], db.tickets[free[0]], ByRefund(refund), now);
        }
      case ExchangeStep(x, now) =>
        var source := OrderTickets(db, x.order, x.organizer);
        FirstIsIssued(db, x.order, x.organizer);
        if |source| > 0 {
          var received := db.(consumed := db.consumed + {x.event});
          VoidAllParts(cfg, received, source, db.tickets[source[0]], ByExchange(x.exchange), now);
          var voided := VoidAll(cfg, received, source, db.tickets[source[0]], ByExchange(x.exchange), now);
          if voided.Ok? {
            InsertAllParts(cfg, voided.value, x.tickets);
          }
        }
      case _ => QuietStepKeeps(cfg, db, s);
    }
  }

  lemma QuarantineStepIs(cfg: Config, db: Db, s: Step)
    ensures QuarantineStep(db, Next(cfg, db, s), if s.ScanStep? || s.ReconcileStep? then s.scan.occurrence else Nil)
    ensures !s.RefuseStep? ==> Next(cfg, db, s).refusals == db.refusals
  {
    hide Next, Unrecorded;
    if s.ScanStep? {
      ScanQuarantines(cfg, db, s);
    } else if s.ReconcileStep? {
      ReconcileQuarantines(cfg, db, s);
    } else {
      OtherStepsLeave(cfg, db, s);
    }
  }

  lemma RefusalSeparates(cfg: Config, db: Db, s: Step)
    requires s.RefuseStep? && Separate(db)
    ensures Separate(Next(cfg, db, s)) && Next(cfg, db, s).trail == db.trail && Next(cfg, db, s).quarantine == db.quarantine
  {
    hide Quarantined;
  }

  /** A trail event is new only for an occurrence nobody refused. */
  lemma BroughtIsNotRefused(db: Db, s: Step, occ: EventId)
    requires Brings(db, s, occ)
    ensures occ !in db.refusals && (!s.RecordStep? ==> Quarantined(db.quarantine, occ).None?)
  {
    hide GateMatches, RecordMatches;
  }

  /** Every step keeps the records separate. */
  lemma NextSeparate(cfg: Config, db: Db, s: Step)
    requires Separate(db)
    ensures Separate(Next(cfg, db, s))
  {
    hide Next, Brings;
    if s.RefuseStep? {
      RefusalSeparates(cfg, db, s);
    } else {
      QuarantineStepIs(cfg, db, s);
      var db' := Next(cfg, db, s);
      forall o | o in db'.refusals
        ensures o.Occurrence? && o !in db'.trail.events
      {
        if o in db'.trail.events {
          NewOccurrence(cfg, db, s, o);
          BroughtIsNotRefused(db, s, o);
        }
      }
    }
  }

  /** Recording an occurrence that sits in quarantine is the one way it enters both. */
  lemma NextExclusive(cfg: Config, db: Db, s: Step)
    requires Exclusive(db)
    requires s.RecordStep? ==> Quarantined(db.quarantine, s.scan.occurrence).None?
    ensures Exclusive(Next(cfg, db, s))
  {
    hide Next, Brings, Separate;
    NextSeparate(cfg, db, s);
    QuarantineStepIs(cfg, db, s);
    var db' := Next(cfg, db, s);
    forall q | q in db'.quarantine && q.occurrence != Nil
      ensures q.occurrence !in db'.trail.events
    {
      if q in db.quarantine && q.occurrence in db'.trail.events {
        OccurrenceOrNil(db, q);
        StaysOut(cfg, db, s, q.occurrence);
      }
    }
  }

  lemma OccurrenceOrNil(db: Db, q: QuarantineRow)
    requires Separate(db) && q in db.quarantine
    ensures q.occurrence == Nil || q.occurrence.Occurrence?
  {
  }

  lemma StaysOut(cfg: Config, db: Db, s: Step, occ: EventId)
    requires occ !in db.trail.events && Quarantined(db.quarantine, occ).Some? && occ.Occurrence?
    requires s.RecordStep? ==> Quarantined(db.quarantine, s.scan.occurrence).None?
    ensures occ !in Next(cfg, db, s).trail.events
  {
    hide Next;
    if occ in Next(cfg, db, s).trail.events {
      NewOccurrence(cfg, db, s, occ);
      BroughtIsNotRefused(db, s, occ);
    }
  }

  /** A recording of a quarantined occurrence that `RecordAdmission` has no reason to refuse:
      it does not read the quarantine. */
  ghost predicate RecordsQuarantined(cfg: Config, db: Db, s: Step) {
    s.RecordStep? && Quarantined(db.quarantine, s.scan.occurrence).Some? && Recordable(cfg, db, s.scan, s.kind)
  }

  /** The exact condition: one step keeps every occurrence in one place if and only if it is
      not such a recording. */
  lemma ExclusiveIff(cfg: Config, db: Db, s: Step)
    requires Exclusive(db)
    ensures Exclusive(Next(cfg, db, s)) <==> !RecordsQuarantined(cfg, db, s)
  {
    hide Exclusive, RecordAdmission, Recordable, Quarantined;
    if s.RecordStep? && Quarantined(db.quarantine, s.scan.occurrence).Some? {
      if s.scan.occurrence == Nil {
        NothingIsRecorded(cfg, db, s);
      } else {
        QuarantinedIsNew(db, s.scan.occurrence);
        RecordingPassesQuarantine(cfg, db, s.scan, s.kind);
        if Recordable(cfg, db, s.scan, s.kind) {
          BothPlaces(Next(cfg, db, s), s.scan.occurrence);
        }
      }
    } else {
      NextExclusive(cfg, db, s);
    }
  }

  lemma NothingIsRecorded(cfg: Config, db: Db, s: Step)
    requires s.RecordStep? && s.scan.occurrence == Nil
    ensures Next(cfg, db, s) == db && !Recordable(cfg, db, s.scan, s.kind)
  {
  }

  lemma QuarantinedIsNew(db: Db, occ: EventId)
    requires Exclusive(db) && Quarantined(db.quarantine, occ).Some? && occ != Nil
    ensures occ !in db.trail.events
  {
    hide Separate;
  }

  lemma BothPlaces(db: Db, occ: EventId)
    requires occ != Nil && occ in db.trail.events && Quarantined(db.quarantine, occ).Some?
    ensures !Exclusive(db)
  {
    hide Separate;
    assert Quarantined(db.quarantine, occ).value in db.quarantine;
  }

  /** A store of before the trail was signed, with one ticket: its history has no links. */
  ghost predicate Unsigned(db: Db, t: Uuid, who: Identity, at: Time) {
    && db.tickets == map[t := who] && db.trail.events == map[IssuedId(t) := EventRow(t, Issued, at)]
    && db.trail.links == map[] && db.trail.heads == map[]
    && db.quarantine == [] && db.refusals == map[]
  }

  lemma UnsignedIsRefused(keys: Keys, db: Db, t: Uuid, who: Identity, at: Time)
    requires Unsigned(db, t, who, at)
    ensures Lists(db.trail.events, t, [IssuedId(t)]) && InSequence(db.trail, t, true, [IssuedId(t)])
    ensures GateVerdict(keys, who, t, db.trail, [IssuedId(t)]) == Some(MissingIntegrityRow)
  {
    var rows := [IssuedId(t)];
    assert rows[0] in rows;
    assert !LinkOk(keys.suite, who, t, db.trail, true, rows, 0);
    assert Linked(keys.suite, who, t, db.trail, true, rows, 0);
    assert RowReason(keys.suite, who, t, db.trail, rows, 0, MissingIntegrityRow);
    assert RefusedFor(keys, who, t, db.trail, rows, MissingIntegrityRow);
    RefusedIffReason(keys, who, t, db.trail, rows);
    ReasonIsUnique(keys, who, t, db.trail, rows, MissingIntegrityRow, GateVerdict(keys, who, t, db.trail, rows).value);
  }

  /** Such a recording is reachable: an offline entry on a ticket whose history is not yet
      chained is quarantined by its reconciliation, and recorded as well by a recording. */
  lemma QuarantinedThenRecorded(cfg: Config, db: Db, t: Uuid, who: Identity, at: Time, x: ScanInput, now: Time)
    requires Unsigned(db, t, who, at) && cfg.signer.Some?
    requires x.ticket == t && x.who == who && x.occurrence.Occurrence? && x.at.Some?
    ensures Lists(db.trail.events, t, [IssuedId(t)]) && InSequence(db.trail, t, true, [IssuedId(t)])
    ensures var verdict := GateVerdict(cfg.keys, who, t, db.trail, [IssuedId(t)]);
            var run := [(cfg, ReconcileStep(x, Entry, verdict, now)), (cfg, RecordStep(x, Entry))];
            Exclusive(db) && Exclusive(After(db, run[..1])) && !Exclusive(After(db, run))
  {
    hide Exclusive, Next, GateVerdict;
    UnsignedIsRefused(cfg.keys, db, t, who, at);
    var verdict := GateVerdict(cfg.keys, who, t, db.trail, [IssuedId(t)]);
    var first, second := ReconcileStep(x, Entry, verdict, now), RecordStep(x, Entry);
    var run := [(cfg, first), (cfg, second)];
    assert run[..1] == [(cfg, first)] && run[..0] == [];
    assert After(db, run[..1]) == Next(cfg, db, first);
    assert After(db, run) == Next(cfg, Next(cfg, db, first), second);
    NothingIsShared(db);
    ExclusiveIff(cfg, db, first);
    ReconciledIsQuarantined(cfg, db, t, who, at, x, verdict, now);
    ExclusiveIff(cfg, Next(cfg, db, first), second);
  }

  lemma NothingIsShared(db: Db)
    requires db.quarantine == [] && db.refusals == map[]
    ensures Exclusive(db)
  {
  }

  lemma ReconciledIsQuarantined(cfg: Config, db: Db, t: Uuid, who: Identity, at: Time, x: ScanInput,
                                verdict: Option<AlarmReason>, now: Time)
    requires Unsigned(db, t, who, at) && cfg.signer.Some? && verdict.Some?
    requires x.ticket == t && x.who == who && x.occurrence.Occurrence? && x.at.Some?
    ensures var db' := Next(cfg, db, ReconcileStep(x, Entry, verdict, now));
            Quarantined(db'.quarantine, x.occurrence).Some? && Recordable(cfg, db', x, Entry)
  {
    hide AppendEvent, AdmittedUnion, CommerciallyVoid, Skewed;
    var row := QuarantineOccurrence(db, x, Entry, verdict.value).quarantine[0];
    assert QuarantineOccurrence(db, x, Entry, verdict.value).quarantine == [row] && row in [row];
  }

  lemma {:induction false} RunSeparate(db: Db, run: Run)
    requires Separate(db)
    ensures Separate(After(db, run))
    decreases |run|
  {
    hide Next, Separate;
    if run != [] {
      var n := |run| - 1;
      RunSeparate(db, run[..n]);
      NextSeparate(run[n].0, After(db, run[..n]), run[n].1);
    }
  }

  /** Without such recordings, every state of a run has each occurrence in one place at most. */
  lemma {:induction false} RunExclusive(db: Db, run: Run)
    requires Exclusive(db)
    requires forall k | 0 <= k < |run| :: !RecordsQuarantined(run[k].0, After(db, run[..k]), run[k].1)
    ensures Exclusive(After(db, run))
    decreases |run|
  {
    hide Next, Exclusive, RecordsQuarantined;
    if run != [] {
      var n := |run| - 1;
      forall k | 0 <= k < n
        ensures !RecordsQuarantined(run[..n][k].0, After(db, run[..n][..k]), run[..n][k].1)
      {
        assert run[..n][..k] == run[..k];
      }
      RunExclusive(db, run[..n]);
      ExclusiveIff(run[n].0, After(db, run[..n]), run[n].1);
    }
  }
}
