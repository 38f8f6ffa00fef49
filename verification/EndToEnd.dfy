/**
 Scanner rows and the admission store together, over a network that may lose, delay,
 duplicate and reorder.

 Every request may reach the server at any time and any number of times, from these scanners
 or from others; an answer, once given, may arrive at any later time, or never, or again.  So
 `answers` and `admitted` only grow, and a scanner acts on any subset of them.
 */
module EndToEnd {
  import opened Basics
  import opened Canonical
  import opened Trail
  import opened Store
  import opened Admission
  import opened OnceOnly
  import Machine
  import A = Appending
  import M = OccurrenceModel
  import O = OccurrenceStore

  /** The answer to one submitted occurrence, of a row of this type. */
  datatype Answer = Answer(id: string, scan: M.ScanType, result: M.Word)

  /** `wire` reads the id a row carries; `admitted` holds the ids a live scan was accepted under. */
  datatype World = World(
    db: Db, rows: O.Rows, legacy: O.Legacy, answers: set<Answer>, admitted: set<string>, wire: string -> EventId)

  datatype Step =
    | Serves(cfg: Config, call: Machine.Step, id: string)
    | Refuses(id: string, scan: M.ScanType)
    | Mints(c: M.Captured, owner: string, lease: real)
    | Reserves(owner: string, id: string, at: string)
    | Decides(owner: string, id: string, outcome: M.Outcome, at: string)
    | Explains(owner: string, id: string, outcome: M.Outcome, at: string, reason: string)
    | Recovers(owner: string, reload: Option<string>, id: string, dead: M.Value, now: real)
    | Renews(owner: string, lease: real)
    | Retires(plan: O.Plan)
    | Deletes

  // ---------------------------------------------------------------- the server's answers

  function WordOf(o: Store.Outcome): M.Word {
    match o
    case RecordedNow => M.WRecorded
    case Conflict => M.WConflict
    case Synced => M.WSyncedResult
  }

  /** What the handler makes of a store error; other errors fail the batch without an answer. */
  function WordOfError(e: StoreError): Option<M.Word> {
    if e == TicketCredential || e == OccurrenceCollision || e == NotApplicable then Some(M.WRejected) else None
  }

  ghost function Replied(r: Result<(Db, SyncResult), StoreError>): Option<M.Word> {
    match r
    case Ok(done) => Some(WordOf(done.1.outcome))
    case Err(e) => WordOfError(e)
  }

  /** The answer to a reconciled item. */
  ghost function Reply(cfg: Config, db: Db, s: Machine.Step, wire: EventId): Option<(M.ScanType, M.Word)> {
    match s
    case ReconcileStep(x, direction, verdict, now) =>
      var r := Replied(Reconcile(cfg, db, x, direction, verdict, now));
      if x.occurrence == wire && r.Some? then Some((M.NormalScan, r.value)) else None
    case RefuseStep(x) =>
      var r := Replied(RecordRefusal(db, x));
      if x.occurrence == wire && r.Some? then Some((M.RefusalScan, r.value)) else None
    case _ => None
  }

  /** A live scan accepted under an occurrence id. */
  ghost predicate AcceptedLive(cfg: Config, db: Db, s: Machine.Step, wire: EventId) {
    && s.ScanStep? && s.scan.occurrence == wire && wire != Nil
    && ScanOf(cfg, db, s).Ok? && ScanOf(cfg, db, s).value.1.accepted
  }

  // ---------------------------------------------------------------- steps

  predicate Answered(answers: set<Answer>, id: string, scan: Option<M.ScanType>, result: M.Word) {
    exists a | a in answers :: a.id == id && a.result == result && (scan.Some? ==> a.scan == scan.value)
  }

  /** The type of a row in the current format. */
  function RowType(rows: O.Rows, legacy: O.Legacy, id: string): Option<M.ScanType> {
    if id !in legacy && id in rows && rows[id].Object? then M.TypeOf(rows[id].fields) else None
  }

  ghost predicate Enabled(w: World, s: Step) {
    match s
    case Serves(_, call, _) => !call.RecordStep?
    case Refuses(_, _) => true
    case Mints(c, _, _) => c.occurrenceId !in w.rows
    case Reserves(owner, id, _) => O.ReserveBody(w.rows, owner, id, true).WillReserve? && id in w.admitted
    case Decides(_, _, _, _) => true
    case Explains(_, _, _, _, _) => true
    case Recovers(owner, reload, id, dead, now) => O.Recover(w.rows, w.legacy, owner, reload, id, dead, now).Some?
    case Renews(_, _) => true
    case Deletes => true
    case Retires(plan) =>
      && O.Retire(w.rows, w.legacy, plan).Some?
      && forall id | id in plan :: plan[id] in M.RESULTS && Answered(w.answers, id, RowType(w.rows, w.legacy, id), plan[id])
  }

  ghost function Served(w: World, cfg: Config, call: Machine.Step, id: string): World {
    var reply := Reply(cfg, w.db, call, w.wire(id));
    w.(db := Machine.Next(cfg, w.db, call),
       answers := if reply.Some? then w.answers + {Answer(id, reply.value.0, reply.value.1)} else w.answers,
       admitted := if AcceptedLive(cfg, w.db, call, w.wire(id)) then w.admitted + {id} else w.admitted)
  }

  ghost function NextRows(w: World, s: Step): O.Rows
    requires Enabled(w, s)
  {
    match s
    case Mints(c, owner, lease) => w.rows[c.occurrenceId := M.Object(M.MintRow(c, owner, lease))]
    case Reserves(owner, id, at) => O.Reserve(w.rows, id, at)
    case Decides(owner, id, o, at) => O.Persist(w.rows, owner, id, o, at).1
    case Explains(owner, id, o, at, reason) => O.Enrich(w.rows, owner, id, o, at, reason).1
    case Recovers(owner, reload, id, dead, now) => O.Recover(w.rows, w.legacy, owner, reload, id, dead, now).value
    case Renews(owner, lease) => O.Renew(w.rows, owner, lease)
    case Retires(plan) => O.Retire(w.rows, w.legacy, plan).value
    case Deletes => map[]
    case _ => w.rows
  }

  ghost function Next(w: World, s: Step): World
    requires Enabled(w, s)
  {
    match s
    case Serves(cfg, call, id) => Served(w, cfg, call, id)
    case Refuses(id, scan) => w.(answers := w.answers + {Answer(id, scan, M.WRejected)})
    case Deletes => w.(rows := map[], legacy := map[])
    case _ => w.(rows := NextRows(w, s))
  }

  ghost predicate IsRun(run: seq<Step>, states: seq<World>) {
    && |states| == |run| + 1 && Sound(states[0])
    && forall i | 0 <= i < |run| :: Enabled(states[i], run[i]) && states[i + 1] == Next(states[i], run[i])
  }

  // ---------------------------------------------------------------- the invariant

  /** The admission record holds the occurrence: in the trail or on the quarantine side. */
  ghost predicate Held(db: Db, occ: EventId) {
    occ in db.trail.events || Quarantined(db.quarantine, occ).Some?
  }

  /** An answer the record bears out. */
  ghost predicate BornOut(db: Db, occ: EventId, scan: M.ScanType, result: M.Word) {
    && (result == M.WRecorded || result == M.WSyncedResult ==>
          occ.Occurrence? && if scan == M.NormalScan then Held(db, occ) else occ in db.refusals)
    && (result == M.WConflict ==>
          scan == M.NormalScan && occ.Occurrence? && occ in db.trail.events && db.trail.events[occ].kind == DuplicateAdmit)
  }

  function StateOf(rows: O.Rows, id: string): M.Value {
    if id in rows && rows[id].Object? then M.Get(rows[id].fields, M.KState) else M.Undefined
  }

  function ResultOf(rows: O.Rows, id: string): M.Value {
    if id in rows && rows[id].Object? then M.Get(rows[id].fields, M.KResult) else M.Undefined
  }

  /** A row says no more than the answers its scanner has seen. */
  ghost predicate Backed(rows: O.Rows, legacy: O.Legacy, answers: set<Answer>, admitted: set<string>, id: string) {
    && (StateOf(rows, id) == M.Word(M.WSynced) ==>
          || Answered(answers, id, RowType(rows, legacy, id), M.WRecorded)
          || Answered(answers, id, RowType(rows, legacy, id), M.WSyncedResult))
    && (ResultOf(rows, id) == M.Word(M.WConflict) ==> Answered(answers, id, RowType(rows, legacy, id), M.WConflict))
    && (StateOf(rows, id) == M.Word(M.WActuated) ==> id in admitted)
  }

  ghost predicate AllBornOut(w: World) {
    && (forall a | a in w.answers :: BornOut(w.db, w.wire(a.id), a.scan, a.result))
    && (forall id | id in w.admitted :: w.wire(id).Occurrence? && Held(w.db, w.wire(id)))
  }

  ghost predicate AllBacked(w: World) {
    forall id | id in w.rows :: Backed(w.rows, w.legacy, w.answers, w.admitted, id)
  }

  ghost predicate Sound(w: World) {
    Exclusive(w.db) && AllBornOut(w) && AllBacked(w)
  }

  /** Empty tables on both sides are sound, whatever was issued before. */
  lemma NothingRecordedIsSound(db: Db, legacy: O.Legacy, wire: string -> EventId)
    requires db.quarantine == [] && db.refusals == map[]
    ensures Sound(World(db, map[], legacy, {}, {}, wire))
  {
  }

  // ---------------------------------------------------------------- steps of the server

  lemma HeldIsKept(a: Db, b: Db, occ: EventId)
    requires Keeps(a, b) && Held(a, occ)
    ensures Held(b, occ)
  {
    hide KeepsTickets, KeepsRefusals, KeepsBatches, Quarantined;
    if occ !in a.trail.events {
      assert b.quarantine == a.quarantine + b.quarantine[|a.quarantine|..];
      QuarantinedIsKept(a.quarantine, b.quarantine[|a.quarantine|..], occ);
    }
  }

  lemma BornOutIsKept(a: Db, b: Db, occ: EventId, scan: M.ScanType, result: M.Word)
    requires Keeps(a, b) && BornOut(a, occ, scan, result)
    ensures BornOut(b, occ, scan, result)
  {
    hide KeepsTickets, KeepsBatches, Held;
    if Held(a, occ) {
      HeldIsKept(a, b, occ);
    }
  }

  lemma ReconcileIsBornOut(cfg: Config, db: Db, x: ScanInput, direction: EventType, verdict: Option<AlarmReason>, now: Time)
    requires Reconcile(cfg, db, x, direction, verdict, now).Ok?
    ensures var r := Reconcile(cfg, db, x, direction, verdict, now).value;
            BornOut(r.0, x.occurrence, M.NormalScan, WordOf(r.1.outcome))
  {
    hide AppendEvent, AdmittedUnion, CommerciallyVoid, Skewed, Keeps;
    var kind := if x.who.slot in db.passes then direction else if AdmittedUnion(db, x.ticket) then DuplicateAdmit else Redeemed;
    AppendKeeps(cfg, db, A.Input(x.ticket, x.who, x.occurrence, kind, x.at.value));
    if verdict.Some? {
      QuarantinedIsHeld(db, x, direction, verdict.value);
    }
  }

  lemma QuarantinedIsHeld(db: Db, x: ScanInput, direction: EventType, reason: AlarmReason)
    ensures Held(QuarantineOccurrence(db, x, direction, reason), x.occurrence)
  {
    var db' := QuarantineOccurrence(db, x, direction, reason);
    assert db'.quarantine[|db.quarantine|] in db'.quarantine;
  }

  lemma ReplyIsBornOut(cfg: Config, db: Db, s: Machine.Step, wire: EventId)
    ensures var r := Reply(cfg, db, s, wire);
            r.Some? ==> BornOut(Machine.Next(cfg, db, s), wire, r.value.0, r.value.1)
  {
    hide Reconcile, Quarantined, BornOut;
    if s.ReconcileStep? && Reconcile(cfg, db, s.scan, s.direction, s.verdict, s.now).Ok? {
      ReconcileIsBornOut(cfg, db, s.scan, s.direction, s.verdict, s.now);
    }
    if s.RefuseStep? && RecordRefusal(db, s.scan).Ok? {
      RefusalIsBornOut(db, s.scan);
    }
    forall scan {
      RejectionIsBornOut(Machine.Next(cfg, db, s), wire, scan);
    }
  }

  lemma RejectionIsBornOut(db: Db, occ: EventId, scan: M.ScanType)
    ensures BornOut(db, occ, scan, M.WRejected)
  {
    hide Held;
  }

  lemma RefusalIsBornOut(db: Db, x: ScanInput)
    requires RecordRefusal(db, x).Ok?
    ensures BornOut(RecordRefusal(db, x).value.0, x.occurrence, M.RefusalScan, WordOf(RecordRefusal(db, x).value.1.outcome))
  {
    hide Held, Quarantined;
  }

  lemma SeenIsHeld(db: Db, t: Uuid, occ: EventId, direction: EventType, duplicates: bool)
    requires !Lookup(db, t, occ, direction, duplicates).NotRecorded? && !Lookup(db, t, occ, direction, duplicates).Collision?
    ensures Held(db, occ)
  {
  }

  lemma DegradedIsHeld(cfg: Config, db: Db, t: Uuid, who: Identity, occ: EventId, direction: EventType, reason: AlarmReason, now: Time)
    requires var r := DegradedScan(cfg, db, t, who, occ, direction, reason, now); r.Ok? && r.value.1.accepted && occ != Nil
    ensures Held(DegradedScan(cfg, db, t, who, occ, direction, reason, now).value.0, occ)
  {
    hide Keeps, Lookup, Quarantined, DegradedScan;
    var r := DegradedScan(cfg, db, t, who, occ, direction, reason, now).value;
    DegradedEffect(cfg, db, t, who, occ, direction, reason, now);
    if r.1.replayed {
      DegradedReplays(cfg, db, t, who, occ, direction, reason, now);
      SeenIsHeld(db, t, occ, direction, false);
    } else {
      assert r.0.quarantine[|db.quarantine|] in r.0.quarantine;
    }
  }

  lemma RedeemIsHeld(cfg: Config, db: Db, x: ScanInput, dbNow: Time)
    requires !BadOccurrence(x) && x.occurrence != Nil
    requires RedeemVerified(cfg, db, x, dbNow).Ok? && RedeemVerified(cfg, db, x, dbNow).value.1.accepted
    ensures Held(RedeemVerified(cfg, db, x, dbNow).value.0, x.occurrence)
  {
    hide Keeps, Lookup, Quarantined, RedeemVerified, Has;
    RedeemEffect(cfg, db, x, dbNow);
    if RedeemVerified(cfg, db, x, dbNow).value.1.replayed {
      RedeemReplays(cfg, db, x, dbNow);
      SeenIsHeld(db, x.ticket, x.occurrence, Entry, false);
    }
  }

  lemma PassIsHeld(cfg: Config, db: Db, x: ScanInput, direction: EventType, live: Decision, now: Time)
    requires !BadOccurrence(x) && x.occurrence != Nil
    requires PassVerified(cfg, db, x, direction, live, now).Ok? && PassVerified(cfg, db, x, direction, live, now).value.1.accepted
    ensures Held(PassVerified(cfg, db, x, direction, live, now).value.0, x.occurrence)
  {
    hide Keeps, Lookup, Quarantined, AppendEvent, Degraded, ModeOf;
    PassEffect(cfg, db, x, direction, live, now);
    var seen := Lookup(db, x.ticket, x.occurrence, direction, true);
    if !seen.NotRecorded? {
      SeenIsHeld(db, x.ticket, x.occurrence, direction, true);
    }
  }

  lemma ExitIsHeld(db: Db, x: ScanInput, reason: AlarmReason, now: Time)
    requires ExitUnverifiedScan(db, x, reason, now).Ok? && ExitUnverifiedScan(db, x, reason, now).value.1.accepted
    ensures Held(ExitUnverifiedScan(db, x, reason, now).value.0, x.occurrence)
  {
    hide Lookup, Quarantined, ModeOf;
    SeenIsHeld(db, x.ticket, x.occurrence, Exit, true);
  }

  /** Whatever path accepts a live scan under an occurrence id, the record holds that id. */
  lemma AcceptedIsHeld(cfg: Config, db: Db, s: Machine.Step, wire: EventId)
    requires AcceptedLive(cfg, db, s, wire)
    ensures wire.Occurrence? && Held(Machine.Next(cfg, db, s), wire)
  {
    hide Held, Has, DegradedScan, RedeemVerified, PassVerified, ExitUnverifiedScan;
    var x := s.scan;
    if x.who.slot in db.passes {
      if s.verdict.None? {
        PassIsHeld(cfg, db, x, s.direction, s.live, s.now);
      } else if s.direction == Exit {
        ExitIsHeld(db, x, s.verdict.value, s.now);
      } else {
        DegradedIsHeld(cfg, db, x.ticket, x.who, x.occurrence, s.direction, s.verdict.value, s.now);
      }
    } else if s.verdict.Some? {
      DegradedIsHeld(cfg, db, x.ticket, x.who, x.occurrence, Entry, s.verdict.value, s.now);
    } else {
      RedeemIsHeld(cfg, db, x, s.dbNow);
    }
  }

  lemma ServingKeepsSound(w: World, cfg: Config, call: Machine.Step, id: string)
    requires Sound(w) && !call.RecordStep?
    ensures Sound(Served(w, cfg, call, id))
  {
    hide Exclusive, BornOut, Held, Keeps, Reply, AcceptedLive, Machine.Next, Backed, RecordsQuarantined;
    ExclusiveIff(cfg, w.db, call);
    NotARecording(cfg, w.db, call);
    NextKeeps(cfg, w.db, call);
    ReplyIsBornOut(cfg, w.db, call, w.wire(id));
    if AcceptedLive(cfg, w.db, call, w.wire(id)) {
      AcceptedIsHeld(cfg, w.db, call, w.wire(id));
    }
    var v := Served(w, cfg, call, id);
    forall a | a in w.answers ensures BornOut(v.db, v.wire(a.id), a.scan, a.result) {
      BornOutIsKept(w.db, v.db, w.wire(a.id), a.scan, a.result);
    }
    forall k | k in w.admitted ensures Held(v.db, v.wire(k)) {
      HeldIsKept(w.db, v.db, w.wire(k));
    }
    MoreAnswersBack(w, v);
  }

  lemma NotARecording(cfg: Config, db: Db, s: Machine.Step)
    requires !s.RecordStep?
    ensures !RecordsQuarantined(cfg, db, s)
  {
  }

  lemma MoreAnswersBack(w: World, v: World)
    requires AllBacked(w) && v.rows == w.rows && v.legacy == w.legacy && w.answers <= v.answers && w.admitted <= v.admitted
    ensures AllBacked(v)
  {
    hide RowType, StateOf, ResultOf;
    forall id | id in v.rows ensures Backed(v.rows, v.legacy, v.answers, v.admitted, id) {
      MoreIsAnswered(w.answers, v.answers, id, RowType(w.rows, w.legacy, id));
      assert Backed(w.rows, w.legacy, w.answers, w.admitted, id);
    }
  }

  lemma MoreIsAnswered(some: set<Answer>, more: set<Answer>, id: string, scan: Option<M.ScanType>)
    requires some <= more
    ensures forall result | Answered(some, id, scan, result) :: Answered(more, id, scan, result)
  {
  }

  // ---------------------------------------------------------------- steps of the scanners

  /** What a rewritten row may claim, given what the row said before. */
  ghost predicate Rewrites(w: World, id: string, f: M.Fields) {
    && (M.Get(f, M.KState) != M.Word(M.WSynced)
        || Answered(w.answers, id, RowType(w.rows, w.legacy, id), M.WRecorded)
        || Answered(w.answers, id, RowType(w.rows, w.legacy, id), M.WSyncedResult))
    && (M.Get(f, M.KResult) != M.Word(M.WConflict) || Answered(w.answers, id, RowType(w.rows, w.legacy, id), M.WConflict))
    && (M.Get(f, M.KState) != M.Word(M.WActuated) || id in w.admitted)
    && (id in w.rows && w.rows[id].Object? ==> M.TypeOf(f) == M.TypeOf(w.rows[id].fields))
    && (id !in w.rows || w.rows[id].Object?)
    && (id !in w.rows ==> M.Get(f, M.KState) == M.Word(M.WPending) && M.KResult !in f)
  }

  /** Rows that are unchanged or rewritten that way stay backed. */
  lemma RewritingKeepsBacked(w: World, rows: O.Rows)
    requires AllBacked(w)
    requires forall id | id in rows ::
               (id in w.rows && rows[id] == w.rows[id]) || (rows[id].Object? && Rewrites(w, id, rows[id].fields))
    ensures AllBacked(w.(rows := rows))
  {
    hide Answered;
    forall id | id in rows ensures Backed(rows, w.legacy, w.answers, w.admitted, id) {
      if id in w.rows && rows[id] == w.rows[id] {
        assert Backed(w.rows, w.legacy, w.answers, w.admitted, id);
      } else {
        assert Rewrites(w, id, rows[id].fields);
      }
    }
  }

  /** A write that leaves the type and the result alone, and whose state claims nothing new. */
  lemma PlainRewrite(w: World, id: string, f: M.Fields)
    requires AllBacked(w) && id in w.rows && w.rows[id].Object?
    requires var g := w.rows[id].fields;
             && M.TypeOf(f) == M.TypeOf(g) && M.Get(f, M.KResult) == M.Get(g, M.KResult)
             && (M.Get(f, M.KState) == M.Get(g, M.KState) || M.Get(f, M.KState) == M.Word(M.WQueued)
                 || M.Get(f, M.KState) == M.Word(M.WResolved) || (M.Get(f, M.KState) == M.Word(M.WActuated) && id in w.admitted))
    ensures Rewrites(w, id, f)
  {
    hide Answered, M.TypeOf;
    assert Backed(w.rows, w.legacy, w.answers, w.admitted, id);
  }

  lemma OneRewrite(w: World, id: string, f: M.Fields)
    requires AllBacked(w) && Rewrites(w, id, f)
    ensures AllBacked(w.(rows := w.rows[id := M.Object(f)]))
  {
    hide Rewrites, AllBacked;
    RewritingKeepsBacked(w, w.rows[id := M.Object(f)]);
  }

  lemma MintBacks(w: World, c: M.Captured, owner: string, lease: real)
    requires AllBacked(w) && c.occurrenceId !in w.rows
    ensures AllBacked(w.(rows := w.rows[c.occurrenceId := M.Object(M.MintRow(c, owner, lease))]))
  {
    hide M.MintRow, AllBacked, M.TypeOf, Answered;
    M.MintFields(c, owner, lease);
    OneRewrite(w, c.occurrenceId, M.MintRow(c, owner, lease));
  }

  lemma ReserveBacks(w: World, owner: string, id: string, at: string)
    requires AllBacked(w) && O.ReserveBody(w.rows, owner, id, true).WillReserve? && id in w.admitted
    ensures AllBacked(w.(rows := O.Reserve(w.rows, id, at)))
  {
    hide AllBacked, O.ReadRow, M.TypeOf, Rewrites;
    O.ReadableParts(w.rows, id);
    O.SameType(w.rows[id].fields, M.ReserveRow(w.rows[id].fields, at));
    PlainRewrite(w, id, M.ReserveRow(w.rows[id].fields, at));
    OneRewrite(w, id, M.ReserveRow(w.rows[id].fields, at));
  }

  lemma DecideBacks(w: World, owner: string, id: string, o: M.Outcome, at: string)
    requires AllBacked(w)
    ensures AllBacked(w.(rows := O.Persist(w.rows, owner, id, o, at).1))
  {
    hide AllBacked, O.ReadRow, M.TypeOf, Rewrites, M.Outcome.Tag, M.DecisionFits, O.SameTag, O.IsDenial;
    if O.Persist(w.rows, owner, id, o, at).0 == O.Changed {
      O.ReadableParts(w.rows, id);
      O.SameType(w.rows[id].fields, M.DecideRow(w.rows[id].fields, o, at));
      PlainRewrite(w, id, M.DecideRow(w.rows[id].fields, o, at));
      OneRewrite(w, id, M.DecideRow(w.rows[id].fields, o, at));
    } else {
      assert w.(rows := w.rows) == w;
    }
  }

  lemma ExplainBacks(w: World, owner: string, id: string, o: M.Outcome, at: string, reason: string)
    requires AllBacked(w)
    ensures AllBacked(w.(rows := O.Enrich(w.rows, owner, id, o, at, reason).1))
  {
    hide AllBacked, O.ReadRow, M.TypeOf, Rewrites, M.Outcome.Tag, O.IsDenial;
    if O.Enrich(w.rows, owner, id, o, at, reason).0 == O.Changed {
      O.ReadableParts(w.rows, id);
      O.SameType(w.rows[id].fields, M.EnrichRow(w.rows[id].fields, reason));
      PlainRewrite(w, id, M.EnrichRow(w.rows[id].fields, reason));
      OneRewrite(w, id, M.EnrichRow(w.rows[id].fields, reason));
    } else {
      assert w.(rows := w.rows) == w;
    }
  }

  lemma RecoverBacks(w: World, owner: string, reload: Option<string>, id: string, dead: M.Value, now: real)
    requires AllBacked(w) && O.Recover(w.rows, w.legacy, owner, reload, id, dead, now).Some?
    ensures AllBacked(w.(rows := O.Recover(w.rows, w.legacy, owner, reload, id, dead, now).value))
  {
    hide AllBacked, O.ReadRow, M.TypeOf, Rewrites, M.Outcome.Tag;
    O.ReadableParts(w.rows, id);
    O.SameType(w.rows[id].fields, M.RecoverRow(w.rows[id].fields));
    PlainRewrite(w, id, M.RecoverRow(w.rows[id].fields));
    OneRewrite(w, id, M.RecoverRow(w.rows[id].fields));
  }

  lemma RenewBacks(w: World, owner: string, lease: real)
    requires AllBacked(w)
    ensures AllBacked(w.(rows := O.Renew(w.rows, owner, lease)))
  {
    hide AllBacked, O.ReadRow, M.TypeOf, Rewrites;
    forall id | id in w.rows && O.OwnedPending(w.rows[id], owner)
      ensures Rewrites(w, id, M.RenewRow(O.FieldsIn(w.rows, id), lease))
    {
      O.ReadableParts(w.rows, id);
      O.SameType(w.rows[id].fields, M.RenewRow(w.rows[id].fields, lease));
      PlainRewrite(w, id, M.RenewRow(w.rows[id].fields, lease));
    }
    RewritingKeepsBacked(w, O.Renew(w.rows, owner, lease));
  }

  lemma RetireBacks(w: World, plan: O.Plan)
    requires AllBacked(w) && Enabled(w, Retires(plan))
    ensures AllBacked(w.(rows := O.Retire(w.rows, w.legacy, plan).value))
  {
    hide AllBacked, O.ReadRow, M.TypeOf, Rewrites, Answered, O.AlreadyRetired, O.Retirable;
    forall id | id in w.rows && id in plan && O.Retirable(w.rows, w.legacy, id)
      ensures Rewrites(w, id, M.ReconcileRow(O.FieldsIn(w.rows, id), plan[id]))
    {
      RetiredIsBacked(w, id, plan[id]);
    }
    RewritingKeepsBacked(w, O.Retire(w.rows, w.legacy, plan).value);
  }

  lemma RetiredIsBacked(w: World, id: string, result: M.Word)
    requires AllBacked(w) && O.Retirable(w.rows, w.legacy, id) && result in M.RESULTS
    requires Answered(w.answers, id, RowType(w.rows, w.legacy, id), result)
    ensures Rewrites(w, id, M.ReconcileRow(O.FieldsIn(w.rows, id), result))
  {
    hide M.TypeOf, Answered, M.DecisionOk, AllBacked;
    if id !in w.legacy {
      O.ReadableParts(w.rows, id);
    }
    O.SameType(w.rows[id].fields, M.ReconcileRow(w.rows[id].fields, result));
  }

  lemma NoRowsAreBacked(w: World)
    ensures AllBacked(w.(rows := map[], legacy := map[]))
  {
  }

  /** Every step keeps both sides sound. */
  lemma StepKeepsSound(w: World, s: Step)
    requires Sound(w) && Enabled(w, s)
    ensures Sound(Next(w, s))
  {
    hide Exclusive, AllBacked, O.ReserveBody, O.Reserve, O.Persist, O.Enrich, O.Recover, O.Renew, O.Retire, M.MintRow,
         Served, BornOut, Held, Answered;
    match s {
      case Serves(cfg, call, id) => ServingKeepsSound(w, cfg, call, id);
      case Refuses(id, scan) =>
        RejectionIsBornOut(w.db, w.wire(id), scan);
        MoreAnswersBack(w, Next(w, s));
      case Mints(c, owner, lease) => MintBacks(w, c, owner, lease);
      case Reserves(owner, id, at) => ReserveBacks(w, owner, id, at);
      case Decides(owner, id, o, at) => DecideBacks(w, owner, id, o, at);
      case Explains(owner, id, o, at, reason) => ExplainBacks(w, owner, id, o, at, reason);
      case Recovers(owner, reload, id, dead, now) => RecoverBacks(w, owner, reload, id, dead, now);
      case Renews(owner, lease) => RenewBacks(w, owner, lease);
      case Retires(plan) => RetireBacks(w, plan);
      case Deletes => NoRowsAreBacked(w);
    }
  }

  lemma {:induction false} RunKeepsSound(run: seq<Step>, states: seq<World>, i: nat)
    requires IsRun(run, states) && i <= |run|
    ensures Sound(states[i])
  {
    hide Enabled, Next, Sound;
    if i > 0 {
      RunKeepsSound(run, states, i - 1);
      StepKeepsSound(states[i - 1], run[i - 1]);
    }
  }

  // ---------------------------------------------------------------- at most once, and kept

  /** How many records of an occurrence there are, in the trail and on the quarantine side. */
  function Copies(db: Db, occ: EventId): nat {
    (if occ in db.trail.events then 1 else 0) + RowsOf(db.quarantine, occ)
  }

  function RowsOf(q: seq<QuarantineRow>, occ: EventId): nat {
    if q == [] then 0 else (if q[0].occurrence == occ then 1 else 0) + RowsOf(q[1..], occ)
  }

  lemma {:induction false} RowsAre(q: seq<QuarantineRow>, occ: EventId)
    requires forall i, j | 0 <= i < j < |q| :: q[i].occurrence == q[j].occurrence ==> q[i].occurrence != occ
    ensures RowsOf(q, occ) == if Quarantined(q, occ).Some? then 1 else 0
  {
    if q != [] {
      RowsAre(q[1..], occ);
    }
  }

  lemma CopiesAre(db: Db, occ: EventId)
    requires Exclusive(db) && occ.Occurrence?
    ensures Copies(db, occ) == if Held(db, occ) then 1 else 0
  {
    RowsAre(db.quarantine, occ);
  }

  lemma Bounds(run: seq<Step>, states: seq<World>, i: nat)
    requires IsRun(run, states) && i <= |run|
    ensures i < |states|
  {
  }

  lemma StepKeepsRecords(w: World, s: Step)
    requires Enabled(w, s)
    ensures Keeps(w.db, Next(w, s).db) && Next(w, s).wire == w.wire && (!s.Deletes? ==> Next(w, s).legacy == w.legacy)
    ensures w.answers <= Next(w, s).answers
  {
    hide Keeps, Machine.Next, Reply, AcceptedLive, NextRows;
    KeepsSelf(w.db);
    if s.Serves? {
      NextKeeps(s.cfg, w.db, s.call);
    }
  }

  lemma {:induction false} RunKeepsRecords(run: seq<Step>, states: seq<World>, i: nat, j: nat)
    requires IsRun(run, states) && i <= j <= |run|
    ensures Keeps(states[i].db, states[j].db) && states[i].wire == states[j].wire
  {
    hide Enabled, Next, Sound, Keeps;
    if i == j {
      KeepsSelf(states[i].db);
    } else {
      RunKeepsRecords(run, states, i, j - 1);
      StepKeepsRecords(states[j - 1], run[j - 1]);
      KeepsTransitive(states[i].db, states[j - 1].db, states[j].db);
    }
  }

  /** Exactly once: in every state of every run an occurrence has at most one record, and from
      the moment it has one it keeps it, in the trail or on the quarantine side as it began. */
  lemma RecordedOnce(run: seq<Step>, states: seq<World>, i: nat, j: nat, occ: EventId)
    requires IsRun(run, states) && i <= j <= |run| && occ.Occurrence?
    ensures Copies(states[i].db, occ) <= Copies(states[j].db, occ) <= 1
    ensures Held(states[i].db, occ) ==> Copies(states[i].db, occ) == 1
    ensures Held(states[i].db, occ) ==> (occ in states[i].db.trail.events <==> occ in states[j].db.trail.events)
  {
    hide Keeps, Held, Exclusive, Sound, IsRun;
    Bounds(run, states, j);
    ExclusiveAt(run, states, i);
    ExclusiveAt(run, states, j);
    RunKeepsRecords(run, states, i, j);
    CopiesAre(states[i].db, occ);
    CopiesAre(states[j].db, occ);
    if Held(states[i].db, occ) {
      HeldIsKept(states[i].db, states[j].db, occ);
      SideIsKept(states[i].db, states[j].db, occ);
    }
  }

  lemma ExclusiveAt(run: seq<Step>, states: seq<World>, i: nat)
    requires IsRun(run, states) && i <= |run|
    ensures i < |states| && Exclusive(states[i].db) && AllBornOut(states[i]) && AllBacked(states[i])
  {
    hide IsRun, Exclusive, AllBornOut, AllBacked;
    Bounds(run, states, i);
    RunKeepsSound(run, states, i);
  }

  lemma SideIsKept(a: Db, b: Db, occ: EventId)
    requires Keeps(a, b) && Held(a, occ) && Exclusive(b) && occ.Occurrence?
    ensures occ in a.trail.events <==> occ in b.trail.events
  {
    hide KeepsTickets, KeepsRefusals, KeepsBatches, Separate;
    var row := Quarantined(a.quarantine, occ);
    if occ !in a.trail.events {
      assert row.value in b.quarantine;
    }
  }

  // ---------------------------------------------------------------- what a row proves

  /** A row is SYNCED only if the server holds its occurrence: an admission exactly once in
      the admission record, a local refusal among the refusals and nowhere in that record.  A
      row of the old format does not say which of the two it is. */
  lemma SyncedMeansHeld(run: seq<Step>, states: seq<World>, i: nat, id: string)
    requires IsRun(run, states) && i <= |run|
    requires StateOf(states[i].rows, id) == M.Word(M.WSynced)
    ensures var w := states[i];
            var occ := w.wire(id);
            match RowType(w.rows, w.legacy, id)
            case Some(NormalScan) => Copies(w.db, occ) == 1 && occ !in w.db.refusals
            case Some(RefusalScan) => occ in w.db.refusals && Copies(w.db, occ) == 0
            case None => (Copies(w.db, occ) == 1 && occ !in w.db.refusals) || (occ in w.db.refusals && Copies(w.db, occ) == 0)
  {
    hide IsRun, Exclusive, AllBornOut, AllBacked, RowType, Held;
    ExclusiveAt(run, states, i);
    var w := states[i];
    SyncedIsAnswered(w, id);
    var result := if Answered(w.answers, id, RowType(w.rows, w.legacy, id), M.WRecorded) then M.WRecorded else M.WSyncedResult;
    AnsweredIsBornOut(w, id, RowType(w.rows, w.legacy, id), result);
    CopiesAre(w.db, w.wire(id));
    RefusedIsApart(w.db, w.wire(id));
  }

  lemma SyncedIsAnswered(w: World, id: string)
    requires AllBacked(w) && id in w.rows && StateOf(w.rows, id) == M.Word(M.WSynced)
    ensures Answered(w.answers, id, RowType(w.rows, w.legacy, id), M.WRecorded)
            || Answered(w.answers, id, RowType(w.rows, w.legacy, id), M.WSyncedResult)
  {
    hide Answered, RowType;
    assert Backed(w.rows, w.legacy, w.answers, w.admitted, id);
  }

  lemma AnsweredIsBornOut(w: World, id: string, scan: Option<M.ScanType>, result: M.Word)
    requires AllBornOut(w) && Answered(w.answers, id, scan, result)
    ensures scan.Some? ==> BornOut(w.db, w.wire(id), scan.value, result)
    ensures scan.None? ==> BornOut(w.db, w.wire(id), M.NormalScan, result) || BornOut(w.db, w.wire(id), M.RefusalScan, result)
  {
    hide BornOut, Held;
    var a :| a in w.answers && a.id == id && a.result == result && (scan.Some? ==> a.scan == scan.value);
    assert BornOut(w.db, w.wire(id), a.scan, result);
    assert a.scan == M.NormalScan || a.scan == M.RefusalScan;
  }

  lemma RefusedIsApart(db: Db, occ: EventId)
    requires Exclusive(db) && occ.Occurrence?
    ensures Held(db, occ) ==> occ !in db.refusals
  {
  }

  /** A row is RESOLVED as a conflict only if the trail holds its duplicate. */
  lemma ConflictMeansDuplicate(run: seq<Step>, states: seq<World>, i: nat, id: string)
    requires IsRun(run, states) && i <= |run| && ResultOf(states[i].rows, id) == M.Word(M.WConflict)
    ensures var w := states[i];
            w.wire(id) in w.db.trail.events && w.db.trail.events[w.wire(id)].kind == DuplicateAdmit && Copies(w.db, w.wire(id)) == 1
  {
    hide IsRun, Exclusive, AllBornOut, RowType, Held;
    ExclusiveAt(run, states, i);
    var w := states[i];
    assert Backed(w.rows, w.legacy, w.answers, w.admitted, id);
    AnsweredIsBornOut(w, id, RowType(w.rows, w.legacy, id), M.WConflict);
    CopiesAre(w.db, w.wire(id));
    InTrailIsHeld(w.db, w.wire(id));
  }

  lemma InTrailIsHeld(db: Db, occ: EventId)
    ensures occ in db.trail.events ==> Held(db, occ)
  {
  }

  /** A row is ACTUATED only if the server accepted its scan, and holds it exactly once. */
  lemma ActuatedMeansHeld(run: seq<Step>, states: seq<World>, i: nat, id: string)
    requires IsRun(run, states) && i <= |run| && StateOf(states[i].rows, id) == M.Word(M.WActuated)
    ensures id in states[i].admitted && Copies(states[i].db, states[i].wire(id)) == 1
  {
    hide IsRun, Exclusive, RowType, Held, BornOut, Answered;
    ExclusiveAt(run, states, i);
    var w := states[i];
    assert Backed(w.rows, w.legacy, w.answers, w.admitted, id);
    CopiesAre(w.db, w.wire(id));
  }

  // ---------------------------------------------------------------- final states

  predicate Final(rows: O.Rows, id: string) {
    StateOf(rows, id) == M.Word(M.WSynced) || StateOf(rows, id) == M.Word(M.WResolved)
  }

  /** The part of a row that a final state fixes. */
  predicate SameEnd(a: O.Rows, b: O.Rows, id: string) {
    StateOf(a, id) == StateOf(b, id) && ResultOf(a, id) == ResultOf(b, id)
  }

  lemma ReadableState(rows: O.Rows, id: string)
    requires O.RecordOf(rows, id).Some?
    ensures StateOf(rows, id) == M.Word(O.RecordOf(rows, id).value.state)
  {
    hide M.DecisionOk;
  }

  lemma WritesKeepEnd(w: World, s: Step, id: string)
    requires Enabled(w, s) && Final(w.rows, id) && (s.Reserves? || s.Explains? || s.Recovers?)
    ensures SameEnd(w.rows, NextRows(w, s), id)
  {
    hide O.ReadRow, M.Outcome.Tag, M.DecisionFits, O.SameTag, O.IsDenial;
    if O.RecordOf(w.rows, id).Some? {
      ReadableState(w.rows, id);
    }
  }

  lemma DecidingKeepsEnd(rows: O.Rows, owner: string, k: string, o: M.Outcome, at: string, id: string)
    requires Final(rows, id)
    ensures SameEnd(rows, O.Persist(rows, owner, k, o, at).1, id)
  {
    hide O.ReadRow, M.Outcome.Tag, M.DecisionFits, O.SameTag, O.IsDenial, M.DecideRow;
    if O.RecordOf(rows, id).Some? {
      ReadableState(rows, id);
    }
  }

  lemma TableKeepsEnd(w: World, s: Step, id: string)
    requires Enabled(w, s) && Final(w.rows, id) && (s.Renews? || s.Retires?)
    ensures SameEnd(w.rows, NextRows(w, s), id)
  {
    hide O.ReadRow, Answered, O.AlreadyRetired;
    if O.RecordOf(w.rows, id).Some? {
      ReadableState(w.rows, id);
    }
  }

  /** The exact condition: a step keeps a row SYNCED or RESOLVED, with its result, if and only
      if it is not the deletion of the scanner's database. */
  lemma EndStaysIff(w: World, s: Step, id: string)
    requires Enabled(w, s) && Final(w.rows, id)
    ensures SameEnd(w.rows, Next(w, s).rows, id) <==> !s.Deletes?
  {
    hide Enabled, Served, O.Persist;
    if s.Deletes? {
      return;
    }
    if s.Decides? {
      DecidingKeepsEnd(w.rows, s.owner, s.id, s.outcome, s.at, id);
      return;
    }
    hide NextRows;
    if s.Reserves? || s.Explains? || s.Recovers? {
      WritesKeepEnd(w, s, id);
    } else if s.Renews? || s.Retires? {
      TableKeepsEnd(w, s, id);
    } else {
      QuietKeepsEnd(w, s, id);
    }
  }

  lemma QuietKeepsEnd(w: World, s: Step, id: string)
    requires Enabled(w, s) && Final(w.rows, id) && (s.Serves? || s.Refuses? || s.Mints?)
    ensures SameEnd(w.rows, Next(w, s).rows, id)
  {
    hide M.MintRow, Reply, AcceptedLive, Machine.Next;
  }

  /** While the database is not deleted, no row leaves SYNCED or RESOLVED. */
  lemma {:induction false} FinalStays(run: seq<Step>, states: seq<World>, i: nat, j: nat, id: string)
    requires IsRun(run, states) && i <= j <= |run| && Final(states[i].rows, id)
    requires forall k | i <= k < j :: !run[k].Deletes?
    ensures SameEnd(states[i].rows, states[j].rows, id)
  {
    hide Enabled, Next, Sound, StateOf, ResultOf;
    if i < j {
      FinalStays(run, states, i, j - 1, id);
      EndStaysIff(states[j - 1], run[j - 1], id);
    }
  }

  // ---------------------------------------------------------------- resends

  /** The record answers for the occurrence, with this time. */
  predicate Seen(r: Recorded, at: Time) {
    (r.InTrail? || r.AsDegraded? || r.AsRecording?) && r.at == at
  }

  lemma AnswerIsOnRecord(cfg: Config, db: Db, x: ScanInput, direction: EventType, verdict: Option<AlarmReason>, now: Time)
    requires Reconcile(cfg, db, x, direction, verdict, now).Ok?
    ensures var r := Reconcile(cfg, db, x, direction, verdict, now).value;
            Seen(Lookup(r.0, x.ticket, x.occurrence, direction, true), r.1.at)
  {
    hide AppendEvent, AdmittedUnion, CommerciallyVoid, Skewed, Keeps;
    var kind := if x.who.slot in db.passes then direction else if AdmittedUnion(db, x.ticket) then DuplicateAdmit else Redeemed;
    AppendKeeps(cfg, db, A.Input(x.ticket, x.who, x.occurrence, kind, x.at.value));
    if verdict.Some? && Lookup(db, x.ticket, x.occurrence, direction, true).NotRecorded? {
      var db' := QuarantineOccurrence(db, x, direction, verdict.value);
      QuarantinedLast(db.quarantine, db'.quarantine[|db.quarantine|]);
    }
  }

  lemma AnswerStaysOnRecord(a: Db, b: Db, t: Uuid, occ: EventId, direction: EventType, at: Time)
    requires Keeps(a, b) && Exclusive(b) && occ.Occurrence? && Seen(Lookup(a, t, occ, direction, true), at)
    ensures Seen(Lookup(b, t, occ, direction, true), at)
  {
    hide KeepsTickets, KeepsRefusals, KeepsBatches, Exclusive;
    SideIsKept(a, b, occ);
    if occ !in a.trail.events {
      assert b.quarantine == a.quarantine + b.quarantine[|a.quarantine|..];
      QuarantinedIsKept(a.quarantine, b.quarantine[|a.quarantine|..], occ);
    }
  }

  lemma ReconciledInput(cfg: Config, db: Db, x: ScanInput, direction: EventType, verdict: Option<AlarmReason>, now: Time)
    requires Reconcile(cfg, db, x, direction, verdict, now).Ok?
    ensures x.occurrence.Occurrence? && x.at.Some? && (direction == Entry || direction == Exit)
    ensures x.ticket in db.tickets && db.tickets[x.ticket] == x.who
  {
  }

  /** The exact condition for a resend: a reconciled item that was answered is answered
      `synced` with the same time, and changes nothing, if and only if it is an entry or its
      slot is still a pass; otherwise its exit is now refused although the record holds it. */
  lemma ResendIff(cfg: Config, db: Db, x: ScanInput, direction: EventType, verdict: Option<AlarmReason>, now: Time,
                  cfg': Config, later: Db, verdict': Option<AlarmReason>, now': Time)
    requires Reconcile(cfg, db, x, direction, verdict, now).Ok?
    requires Keeps(Reconcile(cfg, db, x, direction, verdict, now).value.0, later) && Exclusive(later)
    ensures Reconcile(cfg', later, x, direction, verdict', now')
            == Ok((later, SyncResult(Synced, Reconcile(cfg, db, x, direction, verdict, now).value.1.at, Skewed(x.at.value, now'))))
            <==> direction == Entry || x.who.slot in later.passes
    ensures Held(later, x.occurrence)
  {
    hide Keeps, Held, Exclusive, Skewed, Lookup, Reconcile;
    var r := Reconcile(cfg, db, x, direction, verdict, now).value;
    ReconcileIsBornOut(cfg, db, x, direction, verdict, now);
    AnswerIsOnRecord(cfg, db, x, direction, verdict, now);
    ReconciledInput(cfg, db, x, direction, verdict, now);
    ReconciledIsHeld(cfg, db, x, direction, verdict, now);
    HeldIsKept(r.0, later, x.occurrence);
    AnswerStaysOnRecord(r.0, later, x.ticket, x.occurrence, direction, r.1.at);
    TicketIsKept(cfg, db, x, direction, verdict, now, later);
    RecordedReplays(cfg', later, x, direction, verdict', now', r.1.at);
  }

  lemma ReconciledIsHeld(cfg: Config, db: Db, x: ScanInput, direction: EventType, verdict: Option<AlarmReason>, now: Time)
    requires Reconcile(cfg, db, x, direction, verdict, now).Ok?
    ensures Held(Reconcile(cfg, db, x, direction, verdict, now).value.0, x.occurrence)
  {
    hide Held, Reconcile;
    ReconcileIsBornOut(cfg, db, x, direction, verdict, now);
    InTrailIsHeld(Reconcile(cfg, db, x, direction, verdict, now).value.0, x.occurrence);
  }

  lemma TicketIsKept(cfg: Config, db: Db, x: ScanInput, direction: EventType, verdict: Option<AlarmReason>, now: Time, later: Db)
    requires Reconcile(cfg, db, x, direction, verdict, now).Ok?
    requires Keeps(Reconcile(cfg, db, x, direction, verdict, now).value.0, later)
    ensures x.ticket in later.tickets && later.tickets[x.ticket] == x.who
  {
    hide KeepsEvents, KeepsRefusals, KeepsBatches, Reconcile;
    ReconciledInput(cfg, db, x, direction, verdict, now);
    ReconcileKeeps(cfg, db, x, direction, verdict, now);
  }

  lemma RecordedReplays(cfg: Config, db: Db, x: ScanInput, direction: EventType, verdict: Option<AlarmReason>, now: Time, at: Time)
    requires x.occurrence.Occurrence? && x.at.Some? && (direction == Entry || direction == Exit)
    requires x.ticket in db.tickets && db.tickets[x.ticket] == x.who
    requires Seen(Lookup(db, x.ticket, x.occurrence, direction, true), at)
    ensures Reconcile(cfg, db, x, direction, verdict, now) == Ok((db, SyncResult(Synced, at, Skewed(x.at.value, now))))
            <==> direction == Entry || x.who.slot in db.passes
  {
    hide Lookup, AppendEvent, Skewed;
  }

  /** The refused resend: an exit was reconciled while its slot was a pass; the slot stops
      being one, and the same item is refused, which its answer says as `rejected`, although
      the record holds it. */
  lemma ExitIsRefusedAfterwards(cfg: Config, db: Db, x: ScanInput, verdict: Option<AlarmReason>, now: Time,
                                verdict': Option<AlarmReason>, now': Time)
    requires Reconcile(cfg, db, x, Exit, verdict, now).Ok?
    ensures var later := SetPolicy(Reconcile(cfg, db, x, Exit, verdict, now).value.0, x.who.slot, false);
            && Reconcile(cfg, later, x, Exit, verdict', now') == Err(NotApplicable)
            && Replied(Reconcile(cfg, later, x, Exit, verdict', now')) == Some(M.WRejected)
            && Held(later, x.occurrence)
  {
    hide Held, Keeps, Reconcile;
    var r := Reconcile(cfg, db, x, Exit, verdict, now).value;
    var later := SetPolicy(r.0, x.who.slot, false);
    ReconciledInput(cfg, db, x, Exit, verdict, now);
    ReconciledIsHeld(cfg, db, x, Exit, verdict, now);
    PolicyKeeps(r.0, x.who.slot);
    HeldIsKept(r.0, later, x.occurrence);
    TicketIsKept(cfg, db, x, Exit, verdict, now, later);
    NoExitOffAPass(cfg, later, x, verdict', now');
  }

  lemma PolicyKeeps(db: Db, slot: Uuid)
    ensures Keeps(db, SetPolicy(db, slot, false))
  {
  }

  lemma NoExitOffAPass(cfg: Config, db: Db, x: ScanInput, verdict: Option<AlarmReason>, now: Time)
    requires x.occurrence.Occurrence? && x.at.Some? && x.ticket in db.tickets && db.tickets[x.ticket] == x.who
    requires x.who.slot !in db.passes
    ensures Reconcile(cfg, db, x, Exit, verdict, now) == Err(NotApplicable)
  {
  }
}
