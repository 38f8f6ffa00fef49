/** Refund batches: what each one voids, over every run of the store. */
module Refunds {
  import opened Basics
  import opened Canonical
  import opened Trail
  import opened Store
  import opened Machine
  import opened Admission
  import O = OnceOnly
  import A = Appending

  // ---------------------------------------------------------------- what a batch voided

  /** The tickets of the order that this refund voided. */
  function Voided(db: Db, organizer: Uuid, order: Uuid, refund: Uuid): set<Uuid> {
    set t | t in db.tickets && db.tickets[t].order == order && db.tickets[t].organizer == organizer
            && RefundedId(refund, t) in db.trail.events
  }

  predicate BatchOk(db: Db, key: (Uuid, Uuid), row: BatchRow) {
    1 <= row.quantity <= MAX_BATCH && |Voided(db, key.0, row.order, key.1)| == row.quantity
  }

  /** A void is filed under its refund, and its refund claimed the order it belongs to. */
  predicate VoidOk(db: Db, id: EventId)
    requires id in db.trail.events
  {
    var row := db.trail.events[id];
    (id.RefundedId? || row.kind == Refunded) ==>
      && id.RefundedId? && row.kind == Refunded && id.ticket == row.ticket && row.ticket in db.tickets
      && var who := db.tickets[row.ticket];
         (who.organizer, id.refund) in db.batches && db.batches[(who.organizer, id.refund)].order == who.order
  }

  /** A ticket is refunded once. */
  ghost predicate VoidedOnce(db: Db) {
    forall t, r, r' :: RefundedId(r, t) in db.trail.events && RefundedId(r', t) in db.trail.events ==> r == r'
  }

  ghost predicate RefundsOk(db: Db) {
    && (forall id | id in db.trail.events :: VoidOk(db, id))
    && VoidedOnce(db)
    && (forall k | k in db.batches :: BatchOk(db, k, db.batches[k]))
  }

  lemma VoidFacts(db: Db, t: Uuid, r: Uuid)
    requires RefundsOk(db)
    ensures RefundedId(r, t) in db.trail.events ==>
              && t in db.tickets && Has(db, t, Refunded) && VoidedBy(db, t, r)
              && (db.tickets[t].organizer, r) in db.batches
              && db.batches[(db.tickets[t].organizer, r)].order == db.tickets[t].order
  {
    hide BatchOk, VoidedOnce;
    if RefundedId(r, t) in db.trail.events {
      assert VoidOk(db, RefundedId(r, t));
    }
  }

  /** The selections of different refunds of an organizer share no ticket. */
  lemma SelectionsAreDisjoint(db: Db, organizer: Uuid, a: (Uuid, Uuid), b: (Uuid, Uuid))
    requires RefundsOk(db) && a.1 != b.1
    ensures Voided(db, organizer, a.0, a.1) !! Voided(db, organizer, b.0, b.1)
    ensures Voided(db, organizer, a.0, a.1) <= db.tickets.Keys
  {
    hide VoidOk, BatchOk;
    assert VoidedOnce(db);
  }

  // ---------------------------------------------------------------- what the replay reads

  lemma {:induction false} MineIsFiltered(db: Db, ts: seq<Uuid>, refund: Uuid)
    requires Increasing(ts)
    ensures var mine := Mine(db, ts, refund);
            Increasing(mine) && forall t :: t in mine <==> t in ts && Has(db, t, Refunded) && VoidedBy(db, t, refund)
  {
    hide Has, VoidedBy;
    if ts != [] {
      TailIncreases(ts);
      MineIsFiltered(db, ts[1..], refund);
      assert ts == [ts[0]] + ts[1..];
      IncreasingCons(ts[0], Mine(db, ts[1..], refund));
    }
  }

  lemma {:induction false} FreeIsFiltered(db: Db, ts: seq<Uuid>)
    requires Increasing(ts)
    ensures var free := Free(db, ts); Increasing(free) && forall t :: t in free <==> t in ts && !Has(db, t, Refunded)
  {
    hide Has;
    if ts != [] {
      TailIncreases(ts);
      FreeIsFiltered(db, ts[1..]);
      assert ts == [ts[0]] + ts[1..];
      IncreasingCons(ts[0], Free(db, ts[1..]));
    }
  }

  /** A replay finds exactly the tickets the refund voided, in ticket order. */
  lemma MineIsVoided(db: Db, organizer: Uuid, order: Uuid, refund: Uuid)
    requires RefundsOk(db)
    ensures Mine(db, OrderTickets(db, order, organizer), refund) == Ascending(Voided(db, organizer, order, refund))
  {
    hide RefundsOk, Has;
    var all := OrderTickets(db, order, organizer);
    MineIsFiltered(db, all, refund);
    forall t | t in Voided(db, organizer, order, refund)
      ensures Has(db, t, Refunded) && VoidedBy(db, t, refund)
    {
      VoidFacts(db, t, refund);
    }
    IncreasingIsUnique(Mine(db, all, refund), Ascending(Voided(db, organizer, order, refund)));
  }

  /** A refund's own voided set is empty or complete: the size mismatch cannot happen. */
  lemma OwnSetIsEmptyOrComplete(db: Db, organizer: Uuid, order: Uuid, refund: Uuid, quantity: int)
    requires RefundsOk(db)
    requires (organizer, refund) in db.batches ==> db.batches[(organizer, refund)] == BatchRow(order, quantity)
    ensures var mine := Mine(db, OrderTickets(db, order, organizer), refund);
            mine == [] <==> (organizer, refund) !in db.batches
    ensures var mine := Mine(db, OrderTickets(db, order, organizer), refund);
            mine == [] || |mine| == quantity
  {
    hide Has, Voided, Mine, OrderTickets;
    MineIsVoided(db, organizer, order, refund);
    VoidedHasBatch(db, organizer, order, refund);
    if (organizer, refund) in db.batches {
      assert BatchOk(db, (organizer, refund), db.batches[(organizer, refund)]);
    }
  }

  lemma VoidedHasBatch(db: Db, organizer: Uuid, order: Uuid, refund: Uuid)
    requires RefundsOk(db)
    ensures Voided(db, organizer, order, refund) != {} ==> (organizer, refund) in db.batches
  {
    hide RefundsOk;
    if t :| t in Voided(db, organizer, order, refund) {
      VoidFacts(db, t, refund);
    }
  }

  // ---------------------------------------------------------------- steps that refund nothing

  /** Every new event of the step is neither named nor typed as a refund. */
  ghost predicate RefundsNothing(db: Db, db': Db) {
    && db'.batches == db.batches
    && forall id | id in db'.trail.events && id !in db.trail.events ::
         !id.RefundedId? && db'.trail.events[id].kind != Refunded
  }

  lemma {:induction false} InsertAllRefundsNothing(cfg: Config, db: Db, ts: seq<NewTicket>)
    requires InsertAll(cfg, db, ts).Ok?
    ensures RefundsNothing(db, InsertAll(cfg, db, ts).value)
    decreases |ts|
  {
    hide AppendEvent, Keeps;
    if ts != [] {
      var t, next := ts[0], InsertIssued(cfg, db, ts[0]).value;
      AppendKeeps(cfg, db.(tickets := db.tickets[t.id := t.who]), A.Input(t.id, t.who, IssuedId(t.id), Issued, t.issuedAt));
      InsertAllRefundsNothing(cfg, next, ts[1..]);
      InsertAllKeeps(cfg, next, ts[1..]);
      TwoQuietParts(db, next, InsertAll(cfg, db, ts).value);
    }
  }

  lemma {:induction false} VoidAllAdds(cfg: Config, db: Db, ts: seq<Uuid>, who: Identity, v: Voiding, now: Time)
    requires VoidAll(cfg, db, ts, who, v, now).Ok?
    ensures var after := VoidAll(cfg, db, ts, who, v, now).value;
            && (forall id | id in after.trail.events && id !in db.trail.events ::
                  after.trail.events[id].ticket in ts && id == v.Id(after.trail.events[id].ticket)
                  && after.trail.events[id].kind == v.Kind())
            && (forall t | t in ts :: v.Id(t) !in db.trail.events && !Has(db, t, v.Kind()) && v.Id(t) in after.trail.events
                  && after.trail.events[v.Id(t)] == EventRow(t, v.Kind(), now))
    decreases |ts|
  {
    hide AppendEvent, Keeps;
    if ts != [] {
      var x := A.Input(ts[0], who, v.Id(ts[0]), v.Kind(), now);
      AppendKeeps(cfg, db, x);
      AppendNeedsNew(cfg, db, x);
      var next := AppendEvent(cfg, db, x).value;
      VoidAllAdds(cfg, next, ts[1..], who, v, now);
      VoidAllKeeps(cfg, next, ts[1..], who, v, now);
      assert ts == [ts[0]] + ts[1..];
      VoidAllStep(db, next, VoidAll(cfg, next, ts[1..], who, v, now).value, ts, v, now);
    }
  }

  lemma AppendNeedsNew(cfg: Config, db: Db, x: A.Input)
    requires AppendEvent(cfg, db, x).Ok?
    ensures x.id !in db.trail.events && (A.Singleton(x.kind) ==> !Has(db, x.ticket, x.kind))
  {
    hide A.NewLink, A.Appended;
  }

  lemma VoidAllStep(db: Db, next: Db, after: Db, ts: seq<Uuid>, v: Voiding, now: Time)
    requires ts != [] && ts == [ts[0]] + ts[1..] && Keeps(next, after)
    requires v.Id(ts[0]) !in db.trail.events && !Has(db, ts[0], v.Kind())
    requires next.trail.events == db.trail.events[v.Id(ts[0]) := EventRow(ts[0], v.Kind(), now)]
    requires forall id | id in after.trail.events && id !in next.trail.events ::
               after.trail.events[id].ticket in ts[1..] && id == v.Id(after.trail.events[id].ticket)
               && after.trail.events[id].kind == v.Kind()
    requires forall t | t in ts[1..] :: v.Id(t) !in next.trail.events && !Has(next, t, v.Kind()) && v.Id(t) in after.trail.events
               && after.trail.events[v.Id(t)] == EventRow(t, v.Kind(), now)
    ensures forall id | id in after.trail.events && id !in db.trail.events ::
               after.trail.events[id].ticket in ts && id == v.Id(after.trail.events[id].ticket)
               && after.trail.events[id].kind == v.Kind()
    ensures forall t | t in ts :: v.Id(t) !in db.trail.events && !Has(db, t, v.Kind()) && v.Id(t) in after.trail.events
               && after.trail.events[v.Id(t)] == EventRow(t, v.Kind(), now)
  {
    hide KeepsTickets, KeepsRefusals, KeepsBatches, Has;
    forall t | t in ts
      ensures v.Id(t) !in db.trail.events && !Has(db, t, v.Kind()) && v.Id(t) in after.trail.events
              && after.trail.events[v.Id(t)] == EventRow(t, v.Kind(), now)
    {
      if t in ts[1..] && Has(db, t, v.Kind()) {
        HasGrows(db, next, t, v.Kind());
      }
    }
  }

  lemma HasGrows(db: Db, next: Db, t: Uuid, kind: EventType)
    requires Has(db, t, kind) && KeepsEvents(db, next)
    ensures Has(next, t, kind)
  {
  }

  lemma ScanRefundsNothing(cfg: Config, db: Db, s: Step)
    requires s.ScanStep?
    ensures RefundsNothing(db, Next(cfg, db, s))
  {
    hide Has, DegradedScan, RedeemVerified, PassVerified, ExitUnverifiedScan, Lookup, Keeps;
    var x := s.scan;
    if BadOccurrence(x) {
    } else if s.verdict.Some? {
      if x.who.slot !in db.passes {
        DegradedEffect(cfg, db, x.ticket, x.who, x.occurrence, Entry, s.verdict.value, s.now);
      } else if s.direction == Exit {
        ExitEffect(db, x, s.verdict.value, s.now);
      } else {
        DegradedEffect(cfg, db, x.ticket, x.who, x.occurrence, s.direction, s.verdict.value, s.now);
      }
    } else if x.who.slot !in db.passes {
      RedeemEffect(cfg, db, x, s.dbNow);
    } else if x.occurrence != Nil {
      PassEffect(cfg, db, x, s.direction, s.live, s.now);
    }
  }

  lemma ReconcileRefundsNothing(cfg: Config, db: Db, s: Step)
    requires s.ReconcileStep?
    ensures RefundsNothing(db, Next(cfg, db, s))
  {
    hide AppendEvent, Lookup, AdmittedUnion, CommerciallyVoid, Skewed, Keeps;
    var x := s.scan;
    if x.at.Some? {
      var kind := if x.who.slot in db.passes then s.direction else if AdmittedUnion(db, x.ticket) then DuplicateAdmit else Redeemed;
      AppendKeeps(cfg, db, A.Input(x.ticket, x.who, x.occurrence, kind, x.at.value));
    }
  }

  lemma ExchangeRefundsNothing(cfg: Config, db: Db, s: Step)
    requires s.ExchangeStep?
    ensures RefundsNothing(db, Next(cfg, db, s))
  {
    hide OrderTickets, VoidAll, InsertAll, Obstacle, Has, Keeps;
    if SwitchExchange(cfg, db, s.exchange, s.now).Ok? && s.exchange.event !in db.consumed {
      var x, source := s.exchange, OrderTickets(db, s.exchange.order, s.exchange.organizer);
      FirstIsIssued(db, x.order, x.organizer);
      var received := db.(consumed := db.consumed + {x.event});
      VoidAllAdds(cfg, received, source, db.tickets[source[0]], ByExchange(x.exchange), s.now);
      O.VoidAllParts(cfg, received, source, db.tickets[source[0]], ByExchange(x.exchange), s.now);
      var voided := VoidAll(cfg, received, source, db.tickets[source[0]], ByExchange(x.exchange), s.now).value;
      InsertAllRefundsNothing(cfg, voided, x.tickets);
      InsertAllKeeps(cfg, voided, x.tickets);
      TwoQuietParts(received, voided, Next(cfg, db, s));
    }
  }

  lemma TwoQuietParts(a: Db, b: Db, c: Db)
    requires RefundsNothing(a, b) && RefundsNothing(b, c) && Keeps(b, c)
    ensures RefundsNothing(a, c)
  {
    hide KeepsTickets, KeepsRefusals, KeepsBatches;
  }

  lemma OtherStepsRefundNothing(cfg: Config, db: Db, s: Step)
    requires !s.RefundStep?
    ensures RefundsNothing(db, Next(cfg, db, s))
  {
    hide Scan, Reconcile, SwitchExchange, InsertAll, AppendEvent, Has, Keeps, RecordRefusal, TakeCheckpoint;
    match s {
      case IssueStep(event, ts) =>
        var received := db.(consumed := db.consumed + {event});
        if InsertAll(cfg, received, ts).Ok? {
          InsertAllRefundsNothing(cfg, received, ts);
        }
      case DeliverStep(t, now) =>
        if t in db.tickets {
          AppendKeeps(cfg, db, A.Input(t, db.tickets[t], DeliveredId(t), Delivered, now));
        }
      case ScanStep(_, _, _, _, _, _) => ScanRefundsNothing(cfg, db, s);
      case RecordStep(x, kind) =>
        if x.at.Some? {
          AppendKeeps(cfg, db, A.Input(x.ticket, x.who, x.occurrence, kind, x.at.value));
        }
      case ReconcileStep(_, _, _, _) => ReconcileRefundsNothing(cfg, db, s);
      case ExchangeStep(_, _) => ExchangeRefundsNothing(cfg, db, s);
      case RefuseStep(x) => RefusalKeeps(db, x);
      case CheckpointStep(organizer, observed, now) => CheckpointKeeps(cfg, db, organizer, observed, now);
      case SealStep =>
      case ModeStep(_, _) =>
      case PolicyStep(_, _) =>
    }
  }

  /** Steps that refund nothing leave every batch's voided set as it is. */
  lemma QuietStepKeepsRefunds(db: Db, db': Db)
    requires RefundsOk(db) && Keeps(db, db') && RefundsNothing(db, db')
    ensures RefundsOk(db') && forall o, order, r :: Voided(db', o, order, r) == Voided(db, o, order, r)
  {
    hide KeepsRefusals, KeepsBatches;
    forall o, order, r
      ensures Voided(db', o, order, r) == Voided(db, o, order, r)
    {
      VoidedIsKept(db, db', o, order, r);
    }
    forall id | id in db'.trail.events
      ensures VoidOk(db', id)
    {
      assert id in db.trail.events ==> VoidOk(db, id);
    }
    VoidedOnceIsKept(db, db');
  }

  lemma VoidedOnceIsKept(db: Db, db': Db)
    requires VoidedOnce(db) && RefundsNothing(db, db')
    ensures VoidedOnce(db')
  {
  }

  lemma VoidedIsKept(db: Db, db': Db, organizer: Uuid, order: Uuid, refund: Uuid)
    requires RefundsOk(db) && KeepsTickets(db, db') && KeepsEvents(db, db')
    requires forall t | t in db.tickets && db.tickets[t].organizer == organizer && db.tickets[t].order == order ::
               RefundedId(refund, t) in db'.trail.events ==> RefundedId(refund, t) in db.trail.events
    requires forall t | t !in db.tickets :: RefundedId(refund, t) in db'.trail.events ==> RefundedId(refund, t) in db.trail.events
    ensures Voided(db', organizer, order, refund) == Voided(db, organizer, order, refund)
  {
    hide RefundsOk;
    forall t | t in Voided(db', organizer, order, refund)
      ensures t in Voided(db, organizer, order, refund)
    {
      VoidFacts(db, t, refund);
    }
  }

  // ---------------------------------------------------------------- a fresh refund

  ghost predicate Fresh(cfg: Config, db: Db, organizer: Uuid, order: Uuid, refund: Uuid, quantity: int, now: Time) {
    var r := RefundOrder(cfg, db, organizer, order, refund, quantity, now);
    r.Ok? && !r.value.1.replayed
  }

  /** What a fresh refund adds: its batch row, and one void per selected ticket. */
  ghost predicate RefundAdds(db: Db, db': Db, organizer: Uuid, order: Uuid, refund: Uuid, quantity: int, voided: seq<Uuid>) {
    && 1 <= quantity <= MAX_BATCH && |voided| == quantity && Increasing(voided)
    && (organizer, refund) !in db.batches
    && db'.batches == db.batches[(organizer, refund) := BatchRow(order, quantity)]
    && db'.tickets == db.tickets && KeepsEvents(db, db')
    && (forall t | t in voided :: t in db.tickets && db.tickets[t].order == order && db.tickets[t].organizer == organizer
          && !Has(db, t, Refunded) && RefundedId(refund, t) in db'.trail.events
          && db'.trail.events[RefundedId(refund, t)].ticket == t && db'.trail.events[RefundedId(refund, t)].kind == Refunded)
    && (forall id | id in db'.trail.events && id !in db.trail.events ::
          id.RefundedId? && id.refund == refund && id.ticket in voided)
  }

  /** The selection of a fresh refund: the first unrefunded tickets of the order. */
  function Selection(db: Db, organizer: Uuid, order: Uuid, quantity: nat): seq<Uuid> {
    var free := Free(db, OrderTickets(db, order, organizer));
    if quantity <= |free| then free[..quantity] else []
  }

  lemma SelectionIs(db: Db, organizer: Uuid, order: Uuid, quantity: nat)
    ensures var voided := Selection(db, organizer, order, quantity);
            Increasing(voided) && forall t | t in voided ::
              t in db.tickets && db.tickets[t].order == order && db.tickets[t].organizer == organizer && !Has(db, t, Refunded)
  {
    hide Has;
    var all := OrderTickets(db, order, organizer);
    FreeIsFiltered(db, all);
    var voided := Selection(db, organizer, order, quantity);
    assert forall t | t in voided :: t in Free(db, all);
  }

  function Claimed(db: Db, organizer: Uuid, order: Uuid, refund: Uuid, quantity: int): Db {
    db.(batches := db.batches[(organizer, refund) := BatchRow(order, quantity)])
  }

  lemma FreshIs(cfg: Config, db: Db, organizer: Uuid, order: Uuid, refund: Uuid, quantity: int, now: Time)
    requires Fresh(cfg, db, organizer, order, refund, quantity, now)
    ensures 1 <= quantity <= MAX_BATCH && (organizer, refund) !in db.batches
    ensures var voided := Selection(db, organizer, order, quantity);
            && |voided| == quantity && voided[0] in db.tickets
            && var r := VoidAll(cfg, Claimed(db, organizer, order, refund, quantity), voided, db.tickets[voided[0]], ByRefund(refund), now);
               r.Ok? && RefundOrder(cfg, db, organizer, order, refund, quantity, now) == Ok((r.value, Refund(voided, false)))
  {
    hide Mine, VoidAll, OrderTickets, Free;
    FirstIsIssued(db, order, organizer);
  }

  lemma FreshRefundAdds(cfg: Config, db: Db, organizer: Uuid, order: Uuid, refund: Uuid, quantity: int, now: Time)
    requires Fresh(cfg, db, organizer, order, refund, quantity, now)
    ensures var r := RefundOrder(cfg, db, organizer, order, refund, quantity, now).value;
            RefundAdds(db, r.0, organizer, order, refund, quantity, r.1.tickets)
  {
    hide RefundOrder, VoidAll, Has, Keeps, KeepsEvents, Selection, Fresh;
    FreshIs(cfg, db, organizer, order, refund, quantity, now);
    SelectionIs(db, organizer, order, quantity);
    var voided, claimed := Selection(db, organizer, order, quantity), Claimed(db, organizer, order, refund, quantity);
    VoidAllAdds(cfg, claimed, voided, db.tickets[voided[0]], ByRefund(refund), now);
    O.VoidAllParts(cfg, claimed, voided, db.tickets[voided[0]], ByRefund(refund), now);
    VoidAllKeeps(cfg, claimed, voided, db.tickets[voided[0]], ByRefund(refund), now);
    KeepsEventsOf(claimed, VoidAll(cfg, claimed, voided, db.tickets[voided[0]], ByRefund(refund), now).value, db);
  }

  lemma KeepsEventsOf(claimed: Db, db': Db, db: Db)
    requires Keeps(claimed, db') && claimed.trail == db.trail
    ensures KeepsEvents(db, db')
  {
  }

  /** A fresh refund voids exactly its quantity. */
  lemma FreshVoidsItsQuantity(db: Db, db': Db, organizer: Uuid, order: Uuid, refund: Uuid, quantity: int, voided: seq<Uuid>)
    requires RefundsOk(db) && RefundAdds(db, db', organizer, order, refund, quantity, voided)
    ensures Voided(db', organizer, order, refund) == (set t | t in voided)
    ensures voided == Ascending(Voided(db', organizer, order, refund)) && |Voided(db', organizer, order, refund)| == quantity
  {
    hide RefundsOk, Has, KeepsEvents, Increasing;
    forall t | t in Voided(db', organizer, order, refund)
      ensures t in voided
    {
      VoidFacts(db, t, refund);
    }
    AscendingIncreases(Voided(db', organizer, order, refund));
    IncreasingIsUnique(voided, Ascending(Voided(db', organizer, order, refund)));
  }

  lemma FreshVoidsOnce(db: Db, db': Db, organizer: Uuid, order: Uuid, refund: Uuid, quantity: int, voided: seq<Uuid>)
    requires RefundsOk(db) && RefundAdds(db, db', organizer, order, refund, quantity, voided)
    ensures VoidedOnce(db')
  {
    hide BatchOk, KeepsEvents;
    forall t, r, r' | RefundedId(r, t) in db'.trail.events && RefundedId(r', t) in db'.trail.events
      ensures r == r'
    {
      VoidFacts(db, t, r);
      VoidFacts(db, t, r');
    }
  }

  lemma FreshKeepsOtherBatches(db: Db, db': Db, organizer: Uuid, order: Uuid, refund: Uuid, quantity: int, voided: seq<Uuid>,
                               o: Uuid, ord: Uuid, r: Uuid)
    requires RefundsOk(db) && RefundAdds(db, db', organizer, order, refund, quantity, voided)
    requires (o, r) != (organizer, refund)
    ensures Voided(db', o, ord, r) == Voided(db, o, ord, r)
  {
    hide BatchOk, VoidedOnce, Has, VoidOk;
    VoidedIsKept(db, db', o, ord, r);
  }

  lemma FreshKeepsVoidsOk(db: Db, db': Db, organizer: Uuid, order: Uuid, refund: Uuid, quantity: int, voided: seq<Uuid>)
    requires RefundsOk(db) && RefundAdds(db, db', organizer, order, refund, quantity, voided)
    ensures forall id | id in db'.trail.events :: VoidOk(db', id)
  {
    hide BatchOk, VoidedOnce, Has;
    forall id | id in db'.trail.events
      ensures VoidOk(db', id)
    {
      if id in db.trail.events {
        assert VoidOk(db, id);
      } else {
        assert id == RefundedId(refund, id.ticket);
      }
    }
  }

  lemma FreshKeepsRefunds(db: Db, db': Db, organizer: Uuid, order: Uuid, refund: Uuid, quantity: int, voided: seq<Uuid>)
    requires RefundsOk(db) && RefundAdds(db, db', organizer, order, refund, quantity, voided)
    ensures RefundsOk(db')
  {
    hide VoidedOnce, Has, VoidOk, Voided, KeepsEvents;
    FreshVoidsItsQuantity(db, db', organizer, order, refund, quantity, voided);
    FreshVoidsOnce(db, db', organizer, order, refund, quantity, voided);
    FreshKeepsVoidsOk(db, db', organizer, order, refund, quantity, voided);
    forall k | k in db'.batches
      ensures BatchOk(db', k, db'.batches[k])
    {
      if k != (organizer, refund) {
        assert BatchOk(db, k, db.batches[k]);
        FreshKeepsOtherBatches(db, db', organizer, order, refund, quantity, voided, k.0, db.batches[k].order, k.1);
      }
    }
  }

  // ---------------------------------------------------------------- runs

  lemma ReplayChangesNothing(cfg: Config, db: Db, s: Step)
    requires s.RefundStep? && !Fresh(cfg, db, s.organizer, s.order, s.refund, s.quantity, s.now)
    ensures Next(cfg, db, s) == db
  {
    hide Mine, OrderTickets, Free, VoidAll;
  }

  lemma NextKeepsRefunds(cfg: Config, db: Db, s: Step)
    requires RefundsOk(db)
    ensures RefundsOk(Next(cfg, db, s))
    ensures forall k | k in db.batches ::
              Voided(Next(cfg, db, s), k.0, db.batches[k].order, k.1) == Voided(db, k.0, db.batches[k].order, k.1)
  {
    hide Next, RefundsOk, Fresh, Voided, RefundOrder, Keeps;
    if s.RefundStep? {
      if Fresh(cfg, db, s.organizer, s.order, s.refund, s.quantity, s.now) {
        FreshStep(cfg, db, s);
      } else {
        ReplayChangesNothing(cfg, db, s);
      }
    } else {
      NextKeeps(cfg, db, s);
      OtherStepsRefundNothing(cfg, db, s);
      QuietStepKeepsRefunds(db, Next(cfg, db, s));
    }
  }

  lemma FreshStep(cfg: Config, db: Db, s: Step)
    requires RefundsOk(db) && s.RefundStep? && Fresh(cfg, db, s.organizer, s.order, s.refund, s.quantity, s.now)
    ensures RefundsOk(Next(cfg, db, s))
    ensures forall k | k in db.batches ::
              Voided(Next(cfg, db, s), k.0, db.batches[k].order, k.1) == Voided(db, k.0, db.batches[k].order, k.1)
  {
    hide RefundsOk, Voided, RefundOrder, KeepsEvents, Has;
    FreshRefundAdds(cfg, db, s.organizer, s.order, s.refund, s.quantity, s.now);
    var r := RefundOrder(cfg, db, s.organizer, s.order, s.refund, s.quantity, s.now).value;
    FreshKeepsRefunds(db, r.0, s.organizer, s.order, s.refund, s.quantity, r.1.tickets);
    forall k | k in db.batches
      ensures Voided(r.0, k.0, db.batches[k].order, k.1) == Voided(db, k.0, db.batches[k].order, k.1)
    {
      FreshKeepsOtherBatches(db, r.0, s.organizer, s.order, s.refund, s.quantity, r.1.tickets, k.0, db.batches[k].order, k.1);
    }
  }

  /** An accepted refund answers with its own voided set, which has exactly its quantity. */
  lemma RefundAnswers(cfg: Config, db: Db, organizer: Uuid, order: Uuid, refund: Uuid, quantity: int, now: Time)
    requires RefundsOk(db) && RefundOrder(cfg, db, organizer, order, refund, quantity, now).Ok?
    ensures var r := RefundOrder(cfg, db, organizer, order, refund, quantity, now).value;
            && r.1.tickets == Ascending(Voided(r.0, organizer, order, refund)) && |r.1.tickets| == quantity
            && (organizer, refund) in r.0.batches && r.0.batches[(organizer, refund)] == BatchRow(order, quantity)
            && (r.1.replayed ==> r.0 == db)
  {
    hide RefundsOk, RefundOrder, Has, Voided, Increasing, KeepsEvents;
    var r := RefundOrder(cfg, db, organizer, order, refund, quantity, now).value;
    if Fresh(cfg, db, organizer, order, refund, quantity, now) {
      FreshRefundAdds(cfg, db, organizer, order, refund, quantity, now);
      FreshVoidsItsQuantity(db, r.0, organizer, order, refund, quantity, r.1.tickets);
    } else {
      ReplayAnswers(cfg, db, organizer, order, refund, quantity, now);
    }
  }

  lemma ReplayAnswers(cfg: Config, db: Db, organizer: Uuid, order: Uuid, refund: Uuid, quantity: int, now: Time)
    requires RefundsOk(db) && RefundOrder(cfg, db, organizer, order, refund, quantity, now).Ok?
    requires !Fresh(cfg, db, organizer, order, refund, quantity, now)
    ensures (organizer, refund) in db.batches && db.batches[(organizer, refund)] == BatchRow(order, quantity)
    ensures |Ascending(Voided(db, organizer, order, refund))| == quantity
    ensures RefundOrder(cfg, db, organizer, order, refund, quantity, now)
            == Ok((db, Refund(Ascending(Voided(db, organizer, order, refund)), true)))
  {
    hide RefundsOk, VoidAll, Voided, Mine, OrderTickets, Free;
    OwnSetIsEmptyOrComplete(db, organizer, order, refund, quantity);
    MineIsVoided(db, organizer, order, refund);
  }

  /** A refund whose batch is on record replays: same tickets, same order, nothing appended. */
  lemma RecordedRefundReplays(cfg: Config, db: Db, organizer: Uuid, order: Uuid, refund: Uuid, quantity: int, now: Time)
    requires RefundsOk(db)
    requires (organizer, refund) in db.batches && db.batches[(organizer, refund)] == BatchRow(order, quantity)
    ensures RefundOrder(cfg, db, organizer, order, refund, quantity, now)
            == Ok((db, Refund(Ascending(Voided(db, organizer, order, refund)), true)))
  {
    hide Has, VoidAll, Voided, Mine, OrderTickets;
    assert BatchOk(db, (organizer, refund), db.batches[(organizer, refund)]);
    OwnSetIsEmptyOrComplete(db, organizer, order, refund, quantity);
    MineIsVoided(db, organizer, order, refund);
  }

  lemma {:induction false} VoidedSetIsFinal(db: Db, run: Run, j: nat, k: nat, key: (Uuid, Uuid))
    requires j <= k <= |run| && RefundsOk(After(db, run[..j])) && key in After(db, run[..j]).batches
    ensures var a, b := After(db, run[..j]), After(db, run[..k]);
            RefundsOk(b) && key in b.batches && b.batches[key] == a.batches[key]
            && Voided(b, key.0, a.batches[key].order, key.1) == Voided(a, key.0, a.batches[key].order, key.1)
    decreases k
  {
    hide Next, RefundsOk, Voided, Keeps;
    if j < k {
      VoidedSetIsFinal(db, run, j, k - 1, key);
      StepTaken(db, run, k - 1);
      NextKeepsRefunds(run[k - 1].0, After(db, run[..k - 1]), run[k - 1].1);
      NextKeeps(run[k - 1].0, After(db, run[..k - 1]), run[k - 1].1);
      BatchIsKept(After(db, run[..k - 1]), After(db, run[..k]), key);
    }
  }

  lemma BatchIsKept(a: Db, b: Db, key: (Uuid, Uuid))
    requires Keeps(a, b) && key in a.batches
    ensures key in b.batches && b.batches[key] == a.batches[key]
  {
  }

  /** Stable replay: however many refunds, issues or other calls come between, repeating an
      accepted refund returns the same tickets in the same order and appends nothing. */
  lemma RefundReplayIsStable(db: Db, run: Run, j: nat, k: nat, cfg: Config, now: Time)
    requires j < k <= |run| && run[j].1.RefundStep? && RefundsOk(After(db, run[..j]))
    requires var s := run[j].1; RefundOrder(run[j].0, After(db, run[..j]), s.organizer, s.order, s.refund, s.quantity, s.now).Ok?
    ensures var s := run[j].1;
            var first := RefundOrder(run[j].0, After(db, run[..j]), s.organizer, s.order, s.refund, s.quantity, s.now).value.1;
            RefundOrder(cfg, After(db, run[..k]), s.organizer, s.order, s.refund, s.quantity, now)
            == Ok((After(db, run[..k]), Refund(first.tickets, true)))
  {
    hide RefundsOk, Voided, RefundOrder;
    var s := run[j].1;
    StepTaken(db, run, j);
    RefundAnswers(run[j].0, After(db, run[..j]), s.organizer, s.order, s.refund, s.quantity, s.now);
    NextKeepsRefunds(run[j].0, After(db, run[..j]), s);
    VoidedSetIsFinal(db, run, j + 1, k, (s.organizer, s.refund));
    RecordedRefundReplays(cfg, After(db, run[..k]), s.organizer, s.order, s.refund, s.quantity, now);
  }

  /** Every state of a run keeps the invariant, from any store without refunds. */
  lemma {:induction false} RunsKeepRefunds(db: Db, run: Run)
    requires RefundsOk(db)
    ensures RefundsOk(After(db, run))
    decreases |run|
  {
    hide Next, RefundsOk;
    if run != [] {
      RunsKeepRefunds(db, run[..|run| - 1]);
      NextKeepsRefunds(run[|run| - 1].0, After(db, run[..|run| - 1]), run[|run| - 1].1);
    }
  }

  lemma NoRefundsIsOk(db: Db)
    requires db.batches == map[]
    requires forall id | id in db.trail.events :: !id.RefundedId? && db.trail.events[id].kind != Refunded
    ensures RefundsOk(db)
  {
  }
}
