/** Runs of the store's own operations always verify. */
module HonestRuns {
  import opened Basics
  import opened Canonical
  import opened Trail
  import opened Store
  import opened Machine
  import A = Appending
  import C = Checkpoints
  import B = Backfill
  import opened Verifier

  /** An order of an organizer is for one slot. */
  type SlotOf = (Uuid, Uuid) -> Uuid

  predicate Fits(slotOf: SlotOf, who: Identity) {
    who.slot == slotOf(who.order, who.organizer)
  }

  ghost predicate Filed(slotOf: SlotOf, tickets: Tickets) {
    forall t | t in tickets :: Fits(slotOf, tickets[t])
  }

  ghost predicate HonestTables(keys: Keys, slotOf: SlotOf, tickets: Tickets, tr: Trail,
                               epochs: C.Epochs, checkpoints: seq<C.CheckpointRow>) {
    && A.Honest(keys, tickets, tr)
    && C.Sound(keys, tickets, tr.changes, checkpoints)
    && C.EpochsOk(keys, epochs)
    && Filed(slotOf, tickets)
  }

  ghost predicate Honest(keys: Keys, slotOf: SlotOf, db: Db) {
    HonestTables(keys, slotOf, db.tickets, db.trail, db.epochs, db.checkpoints)
  }

  lemma HonestIsClean(keys: Keys, slotOf: SlotOf, db: Db)
    requires Honest(keys, slotOf, db)
    ensures AuditClean(keys, db)
  {
    hide AuditAccepts, C.ChainsOk, C.EpochsOk;
    A.HonestIsAudited(keys, db.tickets, db.trail);
  }

  /** The process signs with a key of the keyring, or not at all. */
  ghost predicate Allowed(keys: Keys, cfg: Config) {
    cfg.keys == keys && keys.suite.WellFormed() && (cfg.signer.Some? ==> A.CanSign(keys, cfg.signer.value))
  }

  // ---------------------------------------------------------------- appends

  lemma AppendStaysHonest(keys: Keys, slotOf: SlotOf, cfg: Config, db: Db, x: A.Input)
    requires Honest(keys, slotOf, db) && Allowed(keys, cfg)
    requires x.ticket in db.tickets && x.who == db.tickets[x.ticket]
    ensures var r := AppendEvent(cfg, db, x);
            && (r.Ok? <==> cfg.signer.Some? && !A.Taken(db.trail.events, x))
            && (r.Ok? ==> Honest(keys, slotOf, r.value)
                          && r.value == db.(trail := A.Appended(keys.suite, cfg.signer.value, db.trail, x)))
  {
    hide A.Honest, A.Taken, C.Sound, C.EpochsOk, Filed, A.CanSign, A.Append;
    if cfg.signer.Some? {
      A.AppendKeepsHonest(keys, db.tickets, cfg.signer.value, db.trail, x);
      ChangesStaySound(keys, db.tickets, cfg.signer.value, db.trail, x, db.checkpoints);
    }
  }

  lemma ChangesStaySound(keys: Keys, tickets: Tickets, kid: string, tr: Trail, x: A.Input, rows: seq<C.CheckpointRow>)
    requires A.Honest(keys, tickets, tr) && C.Sound(keys, tickets, tr.changes, rows)
    ensures C.Sound(keys, tickets, A.Appended(keys.suite, kid, tr, x).changes, rows)
  {
    hide C.Sound, A.NewLink, A.NewHead, GateAccepts;
    forall k | 0 <= k < |tr.changes|
      ensures tr.changes[k].ticket in tickets
    {
      assert A.ChangeOk(keys, tickets, tr.changes[k]);
    }
    var tr' := A.Appended(keys.suite, kid, tr, x);
    C.ArchiveIsStable(keys, tickets, tr.changes, rows, tickets, tr'.changes[|tr.changes|..]);
    assert tr'.changes == tr.changes + tr'.changes[|tr.changes|..];
  }

  lemma NewTicketStaysHonest(keys: Keys, slotOf: SlotOf, db: Db, t: Uuid, who: Identity)
    requires Honest(keys, slotOf, db) && t !in db.tickets && Fits(slotOf, who)
    ensures Honest(keys, slotOf, db.(tickets := db.tickets[t := who]))
  {
    hide C.Sound, GateAccepts;
    A.NewTicketKeepsHonest(keys, db.tickets, t, who, db.trail);
    forall k | 0 <= k < |db.trail.changes|
      ensures db.trail.changes[k].ticket in db.tickets
    {
      assert A.ChangeOk(keys, db.tickets, db.trail.changes[k]);
    }
    C.ArchiveIsStable(keys, db.tickets, db.trail.changes, db.checkpoints, db.tickets[t := who], []);
    assert db.trail.changes + [] == db.trail.changes;
  }

  // ---------------------------------------------------------------- issuance, voiding

  lemma InsertIssuedHonest(keys: Keys, slotOf: SlotOf, cfg: Config, db: Db, t: NewTicket)
    requires Honest(keys, slotOf, db) && Allowed(keys, cfg) && Fits(slotOf, t.who)
    ensures InsertIssued(cfg, db, t).Ok? ==> Honest(keys, slotOf, InsertIssued(cfg, db, t).value)
  {
    hide HonestTables, AppendEvent;
    if t.id !in db.tickets {
      NewTicketStaysHonest(keys, slotOf, db, t.id, t.who);
      AppendStaysHonest(keys, slotOf, cfg, db.(tickets := db.tickets[t.id := t.who]),
                        A.Input(t.id, t.who, IssuedId(t.id), Issued, t.issuedAt));
    }
  }

  lemma {:induction false} InsertAllHonest(keys: Keys, slotOf: SlotOf, cfg: Config, db: Db, ts: seq<NewTicket>)
    requires Honest(keys, slotOf, db) && Allowed(keys, cfg) && forall t | t in ts :: Fits(slotOf, t.who)
    ensures InsertAll(cfg, db, ts).Ok? ==> Honest(keys, slotOf, InsertAll(cfg, db, ts).value)
    decreases |ts|
  {
    hide HonestTables, InsertIssued, Allowed;
    if ts != [] {
      InsertIssuedHonest(keys, slotOf, cfg, db, ts[0]);
      if InsertIssued(cfg, db, ts[0]).Ok? {
        InsertAllHonest(keys, slotOf, cfg, InsertIssued(cfg, db, ts[0]).value, ts[1..]);
      }
    }
  }

  lemma {:induction false} VoidAllHonest(keys: Keys, slotOf: SlotOf, cfg: Config, db: Db, ts: seq<Uuid>, who: Identity,
                                         v: Voiding, now: Time)
    requires Honest(keys, slotOf, db) && Allowed(keys, cfg)
    requires forall t | t in ts :: t in db.tickets && db.tickets[t] == who
    ensures VoidAll(cfg, db, ts, who, v, now).Ok? ==> Honest(keys, slotOf, VoidAll(cfg, db, ts, who, v, now).value)
    decreases |ts|
  {
    hide HonestTables, AppendEvent, Allowed, A.Appended, A.Taken;
    if ts != [] {
      var x := A.Input(ts[0], who, v.Id(ts[0]), v.Kind(), now);
      AppendStaysHonest(keys, slotOf, cfg, db, x);
      if AppendEvent(cfg, db, x).Ok? {
        VoidAllHonest(keys, slotOf, cfg, AppendEvent(cfg, db, x).value, ts[1..], who, v, now);
      }
    }
  }

  /** Tickets of one order are one identity, so the first one's identity fits them all. */
  lemma OneIdentityPerOrder(slotOf: SlotOf, db: Db, order: Uuid, organizer: Uuid)
    requires Filed(slotOf, db.tickets)
    ensures forall t | t in OrderTickets(db, order, organizer) ::
              t in db.tickets && db.tickets[t] == Identity(order, organizer, slotOf(order, organizer))
  {
    forall t | t in OrderTickets(db, order, organizer)
      ensures t in db.tickets && db.tickets[t] == Identity(order, organizer, slotOf(order, organizer))
    {
      assert t in db.tickets && Fits(slotOf, db.tickets[t]);
    }
  }

  lemma RefundHonest(keys: Keys, slotOf: SlotOf, cfg: Config, db: Db, organizer: Uuid, order: Uuid, refund: Uuid,
                     quantity: int, now: Time)
    requires Honest(keys, slotOf, db) && Allowed(keys, cfg)
    ensures var r := RefundOrder(cfg, db, organizer, order, refund, quantity, now);
            r.Ok? ==> Honest(keys, slotOf, r.value.0)
  {
    hide A.Honest, C.Sound, C.EpochsOk, Allowed, OrderTickets, Free, Mine, VoidAll;
    var all := OrderTickets(db, order, organizer);
    var free := Free(db, all);
    OneIdentityPerOrder(slotOf, db, order, organizer);
    FreeAreListed(db, all);
    if 1 <= quantity <= |free| {
      var claimed := db.(batches := db.batches[(organizer, refund) := BatchRow(order, quantity)]);
      assert free[0] in free && forall t | t in free[..quantity] :: t in free;
      VoidAllHonest(keys, slotOf, cfg, claimed, free[..quantity], db.tickets[free[0]], ByRefund(refund), now);
    }
  }

  lemma ExchangeHonest(keys: Keys, slotOf: SlotOf, cfg: Config, db: Db, x: Switch, now: Time)
    requires Honest(keys, slotOf, db) && Allowed(keys, cfg) && forall t | t in x.tickets :: Fits(slotOf, t.who)
    ensures SwitchExchange(cfg, db, x, now).Ok? ==> Honest(keys, slotOf, SwitchExchange(cfg, db, x, now).value)
  {
    hide A.Honest, C.Sound, C.EpochsOk, Allowed, OrderTickets, VoidAll, InsertAll, Obstacle;
    var source := OrderTickets(db, x.order, x.organizer);
    OneIdentityPerOrder(slotOf, db, x.order, x.organizer);
    if |source| > 0 {
      assert source[0] in source;
      var received := db.(consumed := db.consumed + {x.event});
      VoidAllHonest(keys, slotOf, cfg, received, source, db.tickets[source[0]], ByExchange(x.exchange), now);
      var voided := VoidAll(cfg, received, source, db.tickets[source[0]], ByExchange(x.exchange), now);
      if voided.Ok? {
        InsertAllHonest(keys, slotOf, cfg, voided.value, x.tickets);
      }
    }
  }

  // ---------------------------------------------------------------- admission

  lemma RedeemHonest(keys: Keys, slotOf: SlotOf, cfg: Config, db: Db, x: ScanInput, dbNow: Time)
    requires Honest(keys, slotOf, db) && Allowed(keys, cfg) && !BadOccurrence(x)
    requires x.ticket in db.tickets && db.tickets[x.ticket] == x.who
    ensures var r := RedeemVerified(cfg, db, x, dbNow); r.Ok? ==> Honest(keys, slotOf, r.value.0)
  {
    hide HonestTables, AppendEvent, Allowed, Has, Lookup, Degraded, ModeOf, EventTime, A.Appended, A.Taken;
    if x.occurrence == Nil {
      AppendStaysHonest(keys, slotOf, cfg, db, A.Input(x.ticket, x.who, RedeemedId(x.ticket), Redeemed, dbNow));
    } else {
      AppendStaysHonest(keys, slotOf, cfg, db, A.Input(x.ticket, x.who, x.occurrence, Redeemed, x.at.value));
    }
  }

  lemma PassHonest(keys: Keys, slotOf: SlotOf, cfg: Config, db: Db, x: ScanInput, direction: EventType, live: Decision, now: Time)
    requires Honest(keys, slotOf, db) && Allowed(keys, cfg) && !BadOccurrence(x) && x.occurrence != Nil
    requires x.ticket in db.tickets && db.tickets[x.ticket] == x.who
    ensures var r := PassVerified(cfg, db, x, direction, live, now); r.Ok? ==> Honest(keys, slotOf, r.value.0)
  {
    hide HonestTables, AppendEvent, Allowed, Lookup, Degraded, ModeOf, A.Appended, A.Taken;
    AppendStaysHonest(keys, slotOf, cfg, db, A.Input(x.ticket, x.who, x.occurrence, direction, x.at.value));
  }

  predicate SameTables(a: Db, b: Db) {
    a.tickets == b.tickets && a.trail == b.trail && a.epochs == b.epochs && a.checkpoints == b.checkpoints
  }

  lemma AdmitDegradedTables(cfg: Config, db: Db, t: Uuid, who: Identity, occ: EventId, reason: AlarmReason, now: Time)
    ensures SameTables(db, AdmitDegraded(cfg, db, t, who, occ, reason, now))
  {
    hide RecentDegraded, ModeOf;
  }

  lemma DegradedHonest(keys: Keys, slotOf: SlotOf, cfg: Config, db: Db, t: Uuid, who: Identity, occ: EventId,
                       direction: EventType, reason: AlarmReason, now: Time)
    requires Honest(keys, slotOf, db)
    ensures var r := DegradedScan(cfg, db, t, who, occ, direction, reason, now); r.Ok? ==> Honest(keys, slotOf, r.value.0)
  {
    hide HonestTables, Lookup, Degraded, AdmitDegraded, ModeOf;
    AdmitDegradedTables(cfg, db, t, who, occ, reason, now);
  }

  lemma ScanHonest(keys: Keys, slotOf: SlotOf, cfg: Config, db: Db, x: ScanInput, direction: EventType,
                   verdict: Option<AlarmReason>, live: Decision, now: Time, dbNow: Time)
    requires Honest(keys, slotOf, db) && Allowed(keys, cfg)
    ensures var r := Scan(cfg, db, x, direction, verdict, live, now, dbNow); r.Ok? ==> Honest(keys, slotOf, r.value.0)
  {
    hide HonestTables, Allowed, Has, Lookup, DegradedScan, RedeemVerified, PassVerified, ModeOf;
    if x.ticket in db.tickets && db.tickets[x.ticket] == x.who && !BadOccurrence(x) {
      RedeemHonest(keys, slotOf, cfg, db, x, dbNow);
      if x.occurrence != Nil {
        PassHonest(keys, slotOf, cfg, db, x, direction, live, now);
      }
      if verdict.Some? {
        DegradedHonest(keys, slotOf, cfg, db, x.ticket, x.who, x.occurrence, direction, verdict.value, now);
        DegradedHonest(keys, slotOf, cfg, db, x.ticket, x.who, x.occurrence, Entry, verdict.value, now);
      }
    }
  }

  lemma RecordHonest(keys: Keys, slotOf: SlotOf, cfg: Config, db: Db, x: ScanInput, kind: EventType)
    requires Honest(keys, slotOf, db) && Allowed(keys, cfg)
    ensures var r := RecordAdmission(cfg, db, x, kind); r.Ok? ==> Honest(keys, slotOf, r.value.0)
  {
    hide HonestTables, AppendEvent, Allowed, A.Appended, A.Taken;
    if x.ticket in db.tickets && db.tickets[x.ticket] == x.who && x.at.Some? {
      AppendStaysHonest(keys, slotOf, cfg, db, A.Input(x.ticket, x.who, x.occurrence, kind, x.at.value));
    }
  }

  lemma ReconcileHonest(keys: Keys, slotOf: SlotOf, cfg: Config, db: Db, x: ScanInput, direction: EventType,
                        verdict: Option<AlarmReason>, now: Time)
    requires Honest(keys, slotOf, db) && Allowed(keys, cfg)
    ensures var r := Reconcile(cfg, db, x, direction, verdict, now); r.Ok? ==> Honest(keys, slotOf, r.value.0)
  {
    hide HonestTables, AppendEvent, Allowed, Lookup, AdmittedUnion, CommerciallyVoid, A.Appended, A.Taken, Skewed;
    if x.ticket in db.tickets && db.tickets[x.ticket] == x.who && x.at.Some? {
      var pass := x.who.slot in db.passes;
      var kind := if pass then direction else if AdmittedUnion(db, x.ticket) then DuplicateAdmit else Redeemed;
      AppendStaysHonest(keys, slotOf, cfg, db, A.Input(x.ticket, x.who, x.occurrence, kind, x.at.value));
    }
  }

  // ---------------------------------------------------------------- sealing, checkpoints

  lemma HonestHeadsVerify(keys: Keys, tickets: Tickets, tr: Trail)
    requires A.Honest(keys, tickets, tr)
    ensures forall t | t in tr.heads :: tr.heads[t].version == CANONICAL_VERSION
              && keys.VerifyHead(t, tr.heads[t].sequence, tr.heads[t].kid, tr.heads[t].hash, tr.heads[t].signature)
  {
    hide LinkOk, Keys.VerifyHead;
    forall t | t in tr.heads
      ensures tr.heads[t].version == CANONICAL_VERSION
              && keys.VerifyHead(t, tr.heads[t].sequence, tr.heads[t].kid, tr.heads[t].hash, tr.heads[t].signature)
    {
      assert GateAccepts(keys, tickets[t], t, tr);
      var es :| Verifies(keys, tickets[t], t, tr, es);
    }
  }

  lemma SealHonest(keys: Keys, slotOf: SlotOf, db: Db)
    requires Honest(keys, slotOf, db)
    ensures Honest(keys, slotOf, SealEpoch(db))
  {
    hide A.Honest, C.Sound, Filed, Keys.VerifyHead;
    HonestHeadsVerify(keys, db.tickets, db.trail);
    C.SealKeepsEpochs(keys, db.trail.heads, db.epochs);
  }

  lemma CheckpointHonest(keys: Keys, slotOf: SlotOf, cfg: Config, db: Db, organizer: Uuid, observed: C.Position, now: Time)
    requires Honest(keys, slotOf, db) && Allowed(keys, cfg)
    ensures var r := TakeCheckpoint(cfg, db, organizer, observed, now); r.Ok? ==> Honest(keys, slotOf, r.value.0)
  {
    hide C.Sound, C.EpochsOk, Filed, GateAccepts, Keys.VerifyHead, A.CanSign, C.CheckpointOrganizer;
    var r := C.CheckpointOrganizer(keys, cfg.signer, db.tickets, db.trail.changes, db.checkpoints, organizer, observed, now);
    forall k | 0 <= k < |db.trail.changes|
      ensures db.trail.changes[k].version == CANONICAL_VERSION
    {
      assert A.ChangeOk(keys, db.tickets, db.trail.changes[k]);
    }
    C.WorkerKeepsSound(keys, cfg.signer, db.tickets, db.trail.changes, db.checkpoints, organizer, observed, now);
    if r.Ok? {
      AssignmentKeepsHonest(keys, cfg.signer, db.tickets, db.trail, db.checkpoints, organizer, observed, now);
    }
  }

  lemma AssignmentKeepsHonest(keys: Keys, signer: Option<string>, tickets: Tickets, tr: Trail, rows: seq<C.CheckpointRow>,
                              organizer: Uuid, observed: C.Position, now: Time)
    requires A.Honest(keys, tickets, tr)
    requires C.CheckpointOrganizer(keys, signer, tickets, tr.changes, rows, organizer, observed, now).Ok?
    ensures var r := C.CheckpointOrganizer(keys, signer, tickets, tr.changes, rows, organizer, observed, now);
            A.Honest(keys, tickets, tr.(changes := r.value.changes))
  {
    hide LinkOk, HeadOk, Keys.VerifyHead, C.LatestOf, C.Selected, C.FirstFlaw, C.LastOf, C.NewCheckpoint;
    var r := C.CheckpointOrganizer(keys, signer, tickets, tr.changes, rows, organizer, observed, now);
    var tr' := tr.(changes := r.value.changes);
    forall t | t in tickets
      ensures GateAccepts(keys, tickets[t], t, tr')
    {
      assert GateAccepts(keys, tickets[t], t, tr);
      var es :| Verifies(keys, tickets[t], t, tr, es);
      ChangesAreNotRead(keys, tickets[t], t, tr, tr', es);
    }
    forall i | 0 <= i < |tr'.changes|
      ensures A.ChangeOk(keys, tickets, tr'.changes[i])
    {
      assert A.ChangeOk(keys, tickets, tr.changes[i]);
    }
  }

  lemma ChangesAreNotRead(keys: Keys, who: Identity, t: Uuid, tr: Trail, tr': Trail, es: seq<EventId>)
    requires Verifies(keys, who, t, tr, es) && tr' == tr.(changes := tr'.changes)
    ensures Verifies(keys, who, t, tr', es)
  {
    forall k | 0 <= k < |es|
      ensures LinkOk(keys.suite, who, t, tr', true, es, k)
    {
      assert LinkOk(keys.suite, who, t, tr, true, es, k);
    }
  }

  // ---------------------------------------------------------------- runs

  /** The gate's answer is its own; new tickets respect the slots of their orders. */
  ghost predicate Faithful(keys: Keys, slotOf: SlotOf, cfg: Config, db: Db, s: Step) {
    Allowed(keys, cfg) &&
    match s
    case IssueStep(_, ts) => forall t | t in ts :: Fits(slotOf, t.who)
    case ExchangeStep(x, _) => forall t | t in x.tickets :: Fits(slotOf, t.who)
    case ScanStep(x, _, verdict, _, _, _) => FaithfulVerdict(keys, db, x.ticket, verdict)
    case ReconcileStep(x, _, verdict, _) => FaithfulVerdict(keys, db, x.ticket, verdict)
    case _ => true
  }

  ghost predicate FaithfulVerdict(keys: Keys, db: Db, t: Uuid, verdict: Option<AlarmReason>) {
    t in db.tickets ==> (verdict.None? <==> GateAccepts(keys, db.tickets[t], t, db.trail))
  }

  ghost predicate FaithfulRun(keys: Keys, slotOf: SlotOf, db: Db, run: Run) {
    forall k | 0 <= k < |run| :: Faithful(keys, slotOf, run[k].0, After(db, run[..k]), run[k].1)
  }

  lemma StepStaysHonest(keys: Keys, slotOf: SlotOf, cfg: Config, db: Db, s: Step)
    requires Honest(keys, slotOf, db) && Faithful(keys, slotOf, cfg, db, s)
    ensures Honest(keys, slotOf, Next(cfg, db, s))
  {
    hide HonestTables, Allowed, AppendEvent, Scan, Reconcile, RecordAdmission, RefundOrder, SwitchExchange, TakeCheckpoint, InsertAll, A.Taken, FaithfulVerdict;
    match s {
      case IssueStep(event, ts) =>
        InsertAllHonest(keys, slotOf, cfg, db.(consumed := db.consumed + {event}), ts);
      case DeliverStep(t, now) =>
        if t in db.tickets {
          AppendStaysHonest(keys, slotOf, cfg, db, A.Input(t, db.tickets[t], DeliveredId(t), Delivered, now));
        }
      case ScanStep(x, direction, verdict, live, now, dbNow) =>
        ScanHonest(keys, slotOf, cfg, db, x, direction, verdict, live, now, dbNow);
      case RecordStep(x, kind) => RecordHonest(keys, slotOf, cfg, db, x, kind);
      case ReconcileStep(x, direction, verdict, now) => ReconcileHonest(keys, slotOf, cfg, db, x, direction, verdict, now);
      case RefundStep(organizer, order, refund, quantity, now) =>
        RefundHonest(keys, slotOf, cfg, db, organizer, order, refund, quantity, now);
      case ExchangeStep(x, now) => ExchangeHonest(keys, slotOf, cfg, db, x, now);
      case CheckpointStep(organizer, observed, now) => CheckpointHonest(keys, slotOf, cfg, db, organizer, observed, now);
      case SealStep => SealHonest(keys, slotOf, db);
      case RefuseStep(_) =>
      case ModeStep(_, _) =>
      case PolicyStep(_, _) =>
    }
  }

  lemma {:induction false} RunStaysHonest(keys: Keys, slotOf: SlotOf, db: Db, run: Run)
    requires Honest(keys, slotOf, db) && FaithfulRun(keys, slotOf, db, run)
    ensures Honest(keys, slotOf, After(db, run))
    decreases |run|
  {
    hide HonestTables, Faithful, Next;
    if run != [] {
      var n := |run| - 1;
      forall k | 0 <= k < n
        ensures Faithful(keys, slotOf, run[..n][k].0, After(db, run[..n][..k]), run[..n][k].1)
      {
        assert run[..n][..k] == run[..k];
      }
      RunStaysHonest(keys, slotOf, db, run[..n]);
      StepStaysHonest(keys, slotOf, run[n].0, After(db, run[..n]), run[n].1);
    }
  }

  lemma PrefixIsFaithful(keys: Keys, slotOf: SlotOf, db: Db, run: Run, k: nat)
    requires FaithfulRun(keys, slotOf, db, run) && k <= |run|
    ensures FaithfulRun(keys, slotOf, db, run[..k])
  {
    hide Faithful;
    forall i | 0 <= i < k
      ensures Faithful(keys, slotOf, run[..k][i].0, After(db, run[..k][..i]), run[..k][i].1)
    {
      assert run[..k][..i] == run[..i];
    }
  }

  /** Honest runs always verify: from an honest store, every state of every run of the
      store's operations passes the chain, head, orphan, epoch and checkpoint passes. */
  lemma HonestRunsVerify(keys: Keys, slotOf: SlotOf, db: Db, run: Run, k: nat)
    requires Honest(keys, slotOf, db) && FaithfulRun(keys, slotOf, db, run) && k <= |run|
    ensures AuditClean(keys, After(db, run[..k]))
  {
    hide Honest, FaithfulRun, Next, AuditClean;
    PrefixIsFaithful(keys, slotOf, db, run, k);
    RunStaysHonest(keys, slotOf, db, run[..k]);
    HonestIsClean(keys, slotOf, After(db, run[..k]));
  }

  /** The two starting points: an empty store, and one whose history has been adopted. */
  lemma EmptyStoreIsHonest(keys: Keys, slotOf: SlotOf, db: Db)
    requires db.tickets == map[] && db.trail.events == map[] && db.trail.links == map[] && db.trail.heads == map[] && db.trail.changes == [] && db.epochs == map[] && db.checkpoints == []
    ensures Honest(keys, slotOf, db)
  {
  }

  lemma AdoptedStoreIsHonest(keys: Keys, slotOf: SlotOf, db: Db)
    requires B.InAdoption(keys, db.tickets, db.trail) && (forall t | t in db.tickets :: !B.Waiting(db.trail, t))
    requires Filed(slotOf, db.tickets) && db.epochs == map[] && db.checkpoints == []
    requires forall k | 0 <= k < |db.trail.changes| :: db.trail.changes[k].checkpoint.None?
    ensures Honest(keys, slotOf, db)
  {
    hide B.InAdoption, A.Honest, B.Waiting;
    B.CompleteBackfillIsHonest(keys, db.tickets, db.trail);
  }

  /** On an honest run no scan ever degrades: in every state the gate has nothing against any
      ticket, whatever order its query returns the rows in. */
  lemma HonestRunsNeverDegrade(keys: Keys, slotOf: SlotOf, db: Db, run: Run, k: nat, t: Uuid, rows: seq<EventId>)
    requires Honest(keys, slotOf, db) && FaithfulRun(keys, slotOf, db, run) && k <= |run|
    requires t in After(db, run[..k]).tickets
    requires Lists(After(db, run[..k]).trail.events, t, rows) && InSequence(After(db, run[..k]).trail, t, true, rows)
    ensures GateVerdict(keys, After(db, run[..k]).tickets[t], t, After(db, run[..k]).trail, rows) == None
  {
    hide HonestTables, Faithful, Next, GateVerdict, GateAccepts, InSequence;
    PrefixIsFaithful(keys, slotOf, db, run, k);
    RunStaysHonest(keys, slotOf, db, run[..k]);
    HonestIsAccepted(keys, slotOf, After(db, run[..k]), t);
  }

  lemma HonestIsAccepted(keys: Keys, slotOf: SlotOf, db: Db, t: Uuid)
    requires Honest(keys, slotOf, db) && t in db.tickets
    ensures GateAccepts(keys, db.tickets[t], t, db.trail)
  {
    hide GateAccepts, C.Sound, C.EpochsOk;
  }
}
