/**
 What each transaction on the scanner's rows does, exactly, property by property, and what no
 transaction ever changes.
 */
module RowLaws {
  import opened Basics
  import opened OccurrenceModel
  import opened OccurrenceStore
  import E = EndToEnd

  // ---------------------------------------------------------------- the capture

  /** The properties a row is minted with for good. */
  predicate Lasting(key: Key) {
    match key
    case KRecordFormat => true
    case KOccurrenceId => true
    case KQrPayload => true
    case KOccurredAt => true
    case KCreatedAt => true
    case KOwnerId => true
    case KDirection => true
    case KLocalDecision => true
    case _ => false
  }

  /** The two rows agree on a property, present or not. */
  predicate Agree(f: Fields, g: Fields, key: Key) {
    (key in f <==> key in g) && (key in f ==> f[key] == g[key])
  }

  ghost predicate SameCapture(f: Fields, g: Fields) {
    forall key | Lasting(key) :: Agree(f, g, key)
  }

  /** What was captured: the payload and its times, and the way through the door, unless the
      credential was refused on the spot. */
  predicate Holds(f: Fields, c: Captured, owner: string) {
    && Get(f, KRecordFormat) == Number(1.0) && Get(f, KOwnerId) == Text(owner)
    && Get(f, KOccurrenceId) == Text(c.occurrenceId) && Get(f, KQrPayload) == Text(c.qrPayload)
    && Get(f, KOccurredAt) == Text(c.occurredAt) && Get(f, KCreatedAt) == Text(c.createdAt)
    && match c.scan
       case NormalScan => KLocalDecision !in f && Get(f, KDirection) == Word(if c.exit then WExit else WEntry)
       case RefusalScan => KDirection !in f && Get(f, KLocalDecision) == Word(WRevocationRefused)
  }

  /** A minted row is the capture, undecided, with its lease. */
  lemma MintedIsCapture(c: Captured, owner: string, lease: real)
    ensures var f := MintRow(c, owner, lease);
            && Holds(f, c, owner)
            && Get(f, KState) == Word(WPending) && Get(f, KActuated) == Bool(false) && Get(f, KLeaseExpiresAt) == Number(lease)
            && KLocalOutcome !in f && KDecidedAt !in f && KResult !in f
  {
    hide MintRow, TypeOf;
    MintFields(c, owner, lease);
    MintedDirection(c, owner, lease);
  }

  lemma MintedDirection(c: Captured, owner: string, lease: real)
    ensures var f := MintRow(c, owner, lease);
            match c.scan
            case NormalScan => KLocalDecision !in f && Get(f, KDirection) == Word(if c.exit then WExit else WEntry)
            case RefusalScan => KDirection !in f && Get(f, KLocalDecision) == Word(WRevocationRefused)
  {
  }

  lemma CaptureIsKept(f: Fields, g: Fields, c: Captured, owner: string)
    requires Holds(f, c, owner) && SameCapture(f, g)
    ensures Holds(g, c, owner)
  {
    assert Agree(f, g, KRecordFormat) && Agree(f, g, KOwnerId) && Agree(f, g, KOccurrenceId) && Agree(f, g, KQrPayload);
    assert Agree(f, g, KOccurredAt) && Agree(f, g, KCreatedAt) && Agree(f, g, KDirection) && Agree(f, g, KLocalDecision);
  }

  // ---------------------------------------------------------------- what reads as a record

  /** A capture of this format by some page, in one of the two types. */
  predicate Captures(f: Fields) {
    && Get(f, KRecordFormat) == Number(1.0) && Get(f, KLeaseExpiresAt).Number?
    && NonEmpty(Get(f, KOccurrenceId)) && NonEmpty(Get(f, KQrPayload)) && NonEmpty(Get(f, KOwnerId))
    && NonEmpty(Get(f, KOccurredAt)) && NonEmpty(Get(f, KCreatedAt))
    && ((KDirection in f && KLocalDecision !in f && (f[KDirection] == Word(WEntry) || f[KDirection] == Word(WExit)))
        || (KDirection !in f && KLocalDecision in f && f[KLocalDecision] == Word(WRevocationRefused)))
  }

  /** Nothing is decided. */
  predicate Undecided(f: Fields) {
    KLocalOutcome !in f && KDecidedAt !in f && KResult !in f && Get(f, KActuated) == Bool(false)
  }

  /** A decision of this family, with its time, unless a recovery made it. */
  predicate DecidedIn(f: Fields, family: Word) {
    && Get(f, KLocalOutcome).Object? && Get(TagOf(f), KFamily) == Word(family)
    && if family == WQueue && Get(TagOf(f), KCause) == Word(WUncertainRecovery) then KDecidedAt !in f else NonEmpty(Get(f, KDecidedAt))
  }

  /** What each state of a row holds, and nothing else reads as a record. */
  lemma ReadableIff(f: Fields)
    ensures Readable(f) <==>
              && Captures(f)
              && ((Get(f, KState) == Word(WPending) && Undecided(f))
                 || (Get(f, KState) == Word(WActuated) && ActuatedRow(f))
                 || (Get(f, KState) == Word(WQueued) && QueuedRow(f) && KResult !in f)
                 || (Get(f, KState) == Word(WSynced) && QueuedRow(f)
                     && (Get(f, KResult) == Word(WRecorded) || Get(f, KResult) == Word(WSyncedResult)))
                 || (Get(f, KState) == Word(WResolved) && QueuedRow(f)
                     && (Get(f, KResult) == Word(WConflict) || Get(f, KResult) == Word(WRejected)))
                 || (Get(f, KState) == Word(WResolved) && TerminalRow(f)))
  {
    hide QueueOk, TerminalOk, OccurrenceModel.StoppedBeforeSend, NonEmpty;
  }

  predicate ActuatedRow(f: Fields) {
    && KDirection in f && Get(f, KActuated) == Bool(true) && KResult !in f
    && DecidedIn(f, WActuation) && Get(TagOf(f), KCause) == Word(WReserved)
  }

  predicate QueuedRow(f: Fields) {
    && Get(f, KActuated) == Bool(false) && DecidedIn(f, WQueue)
    && QueueOk(TagOf(f), if KDirection in f then NormalScan else RefusalScan)
  }

  predicate TerminalRow(f: Fields) {
    && Get(f, KActuated) == Bool(false) && DecidedIn(f, WTerminal) && KResult !in f
    && TerminalOk(TagOf(f)) && (KDirection in f || OccurrenceModel.StoppedBeforeSend(TagOf(f)))
  }

  // ---------------------------------------------------------------- one row, one transaction

  /** The rows but this one, and its capture, are as they were. */
  ghost predicate Rewritten(a: Rows, b: Rows, id: string) {
    && id in a && a[id].Object? && id in b && b[id].Object?
    && b == a[id := b[id]] && SameCapture(a[id].fields, b[id].fields)
  }

  /** A row this page may write to: its own, and readable. */
  predicate Mine(rows: Rows, id: string, me: string) {
    id in rows && rows[id].Object? && Readable(rows[id].fields) && Get(rows[id].fields, KOwnerId) == Text(me)
  }

  /** A refused credential takes only its refusal or a stop before anything was sent. */
  predicate Suits(f: Fields, o: Outcome) {
    if KDirection in f then o != LocalRefusal
    else o == LocalRefusal || o == Cancelled(false) || (o.Stopped? && o.atSend && !o.sent)
  }

  predicate Waits(o: Outcome) {
    match o
    case TransportFailure => true
    case ServerUnavailable(_) => true
    case LocalRefusal => true
    case UncertainRecovery => true
    case _ => false
  }

  /** The stored decision answers for this one: the same tag, or the same denial, of which the
      reason was learned since. */
  predicate AnsweredBy(f: Fields, o: Outcome, decidedAt: string) {
    && Get(f, KDecidedAt) == Text(decidedAt)
    && (SameTag(TagOf(f), o.Tag()) || (o.Denied? && o.reason.None? && DenialIs(f, o)))
  }

  predicate DenialIs(f: Fields, o: Outcome)
    requires o.Denied?
  {
    var tag := TagOf(f);
    && Get(tag, KFamily) == Word(WTerminal) && Get(tag, KCause) == Word(WDenied)
    && Get(tag, KLatchId) == Text(o.latchId) && Get(tag, KStatus) == Number(o.status as real)
  }

  lemma ReadingIs(rows: Rows, id: string)
    ensures RecordOf(rows, id).Some? <==> id in rows && rows[id].Object? && Readable(rows[id].fields)
    ensures RecordOf(rows, id).Some? ==>
              var f, r := rows[id].fields, RecordOf(rows, id).value;
              && r.owner == Get(f, KOwnerId) && Word(r.state) == Get(f, KState) && r.tag == TagOf(f)
              && r.decidedAt == Get(f, KDecidedAt) && r.lease == Get(f, KLeaseExpiresAt)
              && r.scan == (if KDirection in f then NormalScan else RefusalScan)
  {
    hide DecisionOk;
  }

  /** A decision is written if and only if the row is this page's, pending and of the right
      type; it answers for itself if and only if it was written before. */
  lemma PersistIff(rows: Rows, me: string, id: string, o: Outcome, decidedAt: string)
    ensures var t := Persist(rows, me, id, o, decidedAt).0;
            && (t == Changed <==> Mine(rows, id, me) && Get(rows[id].fields, KState) == Word(WPending) && Suits(rows[id].fields, o))
            && (t == AlreadySame <==> && Mine(rows, id, me) && Suits(rows[id].fields, o)
                                      && Get(rows[id].fields, KState) == Word(if Waits(o) then WQueued else WResolved)
                                      && AnsweredBy(rows[id].fields, o, decidedAt))
            && (t == Missing <==> id !in rows)
            && (t == Foreign <==> id in rows && rows[id].Object? && Readable(rows[id].fields) && !Mine(rows, id, me))
  {
    hide Readable, Outcome.Tag, SameTag, DecideRow, ReadRow, TagOf;
    ReadingIs(rows, id);
  }

  /** Then its state, outcome and time are the decision's, and nothing else changes. */
  lemma PersistWrites(rows: Rows, me: string, id: string, o: Outcome, decidedAt: string)
    ensures var (t, next) := Persist(rows, me, id, o, decidedAt);
            if t == Changed then Rewritten(rows, next, id) && DecidedAs(rows[id].fields, next[id].fields, o, decidedAt) else next == rows
  {
    hide Readable, Outcome.Tag, SameTag, SameCapture, ReadRow, DecideRow, DecidedAs, DecisionFits;
    if Persist(rows, me, id, o, decidedAt).0 == Changed {
      ReadingIs(rows, id);
      Redecided(rows[id].fields, o, decidedAt);
    }
  }

  predicate DecidedAs(f: Fields, g: Fields, o: Outcome, decidedAt: string) {
    && Get(g, KState) == Word(if Waits(o) then WQueued else WResolved)
    && Get(g, KLocalOutcome) == Object(o.Tag()) && Get(g, KDecidedAt) == Text(decidedAt)
    && Agree(f, g, KActuated) && Agree(f, g, KResult) && Agree(f, g, KLeaseExpiresAt)
  }

  lemma Redecided(f: Fields, o: Outcome, decidedAt: string)
    ensures SameCapture(f, DecideRow(f, o, decidedAt)) && DecidedAs(f, DecideRow(f, o, decidedAt), o, decidedAt)
  {
    hide Outcome.Tag;
  }

  /** A mark is set if and only if the row is this page's pending scan and the page may mark. */
  lemma ReserveIff(rows: Rows, me: string, id: string, mayReserve: bool)
    ensures var body := ReserveBody(rows, me, id, mayReserve);
            && (body.WillReserve? <==> && mayReserve && Mine(rows, id, me) && KDirection in rows[id].fields
                                       && Get(rows[id].fields, KState) == Word(WPending))
            && (body.AlreadyActuated? <==> Mine(rows, id, me) && KDirection in rows[id].fields
                                           && Get(rows[id].fields, KState) == Word(WActuated))
  {
    hide Readable, ReadRow, TagOf;
    ReadingIs(rows, id);
  }

  /** It actuates the row at the given time. */
  lemma ReserveWrites(rows: Rows, id: string, decidedAt: string)
    requires RecordOf(rows, id).Some?
    ensures var next := Reserve(rows, id, decidedAt);
            var f, g := rows[id].fields, next[id].fields;
            && Rewritten(rows, next, id)
            && Get(g, KState) == Word(WActuated) && Get(g, KActuated) == Bool(true)
            && Get(g, KLocalOutcome) == Object(map[KFamily := Word(WActuation), KCause := Word(WReserved)])
            && Get(g, KDecidedAt) == Text(decidedAt) && Agree(f, g, KResult) && Agree(f, g, KLeaseExpiresAt)
  {
    hide Readable, TagOf, TypeOf;
  }

  /** A reason is added if and only if it is one, the row is this page's, and it stores that very
      denial without a reason; only the reason changes. */
  lemma EnrichIff(rows: Rows, me: string, id: string, target: Outcome, decidedAt: string, reason: string)
    ensures var (t, next) := Enrich(rows, me, id, target, decidedAt, reason);
            var fits := target.Denied? && target.reason.None? && reason != "" && Mine(rows, id, me)
                        && Get(rows[id].fields, KState) == Word(WResolved) && DenialIs(rows[id].fields, target)
                        && Get(rows[id].fields, KDecidedAt) == Text(decidedAt);
            && (t == Changed <==> fits && Get(TagOf(rows[id].fields), KReason) == Null)
            && (t == AlreadySame <==> fits && Get(TagOf(rows[id].fields), KReason) == Text(reason))
            && (t != Changed ==> next == rows)
            && (t == Changed ==> Rewritten(rows, next, id) && ExplainedBy(rows[id].fields, next[id].fields, reason))
  {
    hide Readable, SameCapture;
    ReadingIs(rows, id);
    if Enrich(rows, me, id, target, decidedAt, reason).0 == Changed {
      Explained(rows[id].fields, reason);
    }
  }

  /** The same row and the same tag, but for the reason. */
  ghost predicate ExplainedBy(f: Fields, g: Fields, reason: string) {
    && (forall key | key != KLocalOutcome :: Agree(f, g, key))
    && Get(g, KLocalOutcome).Object? && Get(TagOf(g), KReason) == Text(reason)
    && (forall key | key != KReason :: Agree(TagOf(f), TagOf(g), key))
  }

  lemma Explained(f: Fields, reason: string)
    ensures SameCapture(f, EnrichRow(f, reason)) && ExplainedBy(f, EnrichRow(f, reason), reason)
  {
  }

  /** A row is recovered if and only if it is a readable pending row of the current format, of
      the dead owner and not of this page, and its owner is the page that reloaded or its lease
      is over; it is queued as uncertain, with no time of decision of its own. */
  lemma RecoverIff(rows: Rows, legacy: Legacy, me: string, reload: Option<string>, id: string, dead: Value, now: real)
    ensures var next := Recover(rows, legacy, me, reload, id, dead, now);
            && (next.Some? <==>
                  && id !in legacy && id in rows && rows[id].Object? && Readable(rows[id].fields)
                  && var f := rows[id].fields;
                  && Get(f, KState) == Word(WPending) && Get(f, KOwnerId) == dead && dead != Text(me)
                  && ((reload.Some? && dead == Text(reload.value))
                      || (Get(f, KLeaseExpiresAt).Number? && Get(f, KLeaseExpiresAt).n <= now)))
            && (next.Some? ==>
                  var f, g := rows[id].fields, next.value[id].fields;
                  && Rewritten(rows, next.value, id)
                  && Get(g, KState) == Word(WQueued)
                  && Get(g, KLocalOutcome) == Object(map[KFamily := Word(WQueue), KCause := Word(WUncertainRecovery)])
                  && Agree(f, g, KDecidedAt) && Agree(f, g, KActuated) && Agree(f, g, KResult) && Agree(f, g, KLeaseExpiresAt))
  {
    hide Readable;
    ReadingIs(rows, id);
  }

  /** A renewal moves the lease of this page's pending rows, and nothing else. */
  lemma RenewIs(rows: Rows, me: string, lease: real)
    ensures var next := Renew(rows, me, lease);
            && next.Keys == rows.Keys
            && forall id | id in rows ::
                 if Mine(rows, id, me) && Get(rows[id].fields, KState) == Word(WPending) then
                   next[id].Object? && Get(next[id].fields, KLeaseExpiresAt) == Number(lease)
                   && forall key | key != KLeaseExpiresAt :: Agree(rows[id].fields, next[id].fields, key)
                 else next[id] == rows[id]
  {
    hide Readable;
    forall id | id in rows
      ensures OwnedPending(rows[id], me) <==> Mine(rows, id, me) && Get(rows[id].fields, KState) == Word(WPending)
    {
      ReadingIs(rows, id);
    }
  }

  /** A row a sync result can still retire: queued, and readable or of the one old class that
      was sent. */
  predicate StillQueued(rows: Rows, legacy: Legacy, id: string) {
    && id in rows && rows[id].Object? && Get(rows[id].fields, KState) == Word(WQueued)
    && if id in legacy then legacy[id] == M02 else Readable(rows[id].fields)
  }

  /** The row ended in just this way before. */
  predicate EndedAs(rows: Rows, id: string, result: Word) {
    && id in rows && rows[id].Object? && Get(rows[id].fields, KResult) == Word(result)
    && Get(rows[id].fields, KState) == Word(if result == WRecorded || result == WSyncedResult then WSynced else WResolved)
  }

  /** The results are applied if and only if each finds its row still queued or ended in just
      that way; then the queued ones end so, and nothing else changes. */
  lemma RetireIff(rows: Rows, legacy: Legacy, plan: Plan)
    ensures var next := Retire(rows, legacy, plan);
            && (next.Some? <==> forall id | id in plan :: StillQueued(rows, legacy, id) || EndedAs(rows, id, plan[id]))
            && (next.Some? ==>
                  && next.value.Keys == rows.Keys
                  && forall id | id in rows ::
                       if id in plan && StillQueued(rows, legacy, id) then
                         EndedAs(next.value, id, plan[id])
                         && forall key | key != KState && key != KResult :: Agree(rows[id].fields, next.value[id].fields, key)
                       else next.value[id] == rows[id])
  {
    hide Readable, Retirable, StillQueued, AlreadyRetired;
    forall id
      ensures Retirable(rows, legacy, id) <==> StillQueued(rows, legacy, id)
      ensures StillQueued(rows, legacy, id) ==> id in rows && rows[id].Object?
    {
      RetirableIs(rows, legacy, id);
    }
    forall id, result
      ensures AlreadyRetired(rows, id, result) <==> EndedAs(rows, id, result)
    {
      RetiredIs(rows, id, result);
    }
  }

  lemma RetirableIs(rows: Rows, legacy: Legacy, id: string)
    ensures Retirable(rows, legacy, id) <==> StillQueued(rows, legacy, id)
    ensures StillQueued(rows, legacy, id) ==> id in rows && rows[id].Object?
  {
    hide Readable;
    ReadingIs(rows, id);
  }

  lemma RetiredIs(rows: Rows, id: string, result: Word)
    ensures AlreadyRetired(rows, id, result) <==> EndedAs(rows, id, result)
  {
  }

  // ---------------------------------------------------------------- over whole runs

  /** What the row holds of its capture is what it held. */
  ghost predicate KeepsCapture(a: Rows, b: Rows, id: string) {
    id in a && a[id].Object? ==> id in b && b[id].Object? && SameCapture(a[id].fields, b[id].fields)
  }

  lemma UntouchedKeepsCapture(a: Rows, b: Rows, id: string)
    requires id in a ==> id in b && b[id] == a[id]
    ensures KeepsCapture(a, b, id)
  {
  }

  lemma RewritingKeepsCapture(a: Rows, b: Rows, k: string, id: string)
    requires Rewritten(a, b, k)
    ensures KeepsCapture(a, b, id)
  {
    hide SameCapture;
    if k != id {
      UntouchedKeepsCapture(a, b, id);
    }
  }

  lemma ReservingKeepsCapture(rows: Rows, owner: string, k: string, at: string, id: string)
    requires ReserveBody(rows, owner, k, true).WillReserve?
    ensures KeepsCapture(rows, Reserve(rows, k, at), id)
  {
    hide Readable, ReserveRow, Rewritten, KeepsCapture, Mine;
    ReserveWrites(rows, k, at);
    RewritingKeepsCapture(rows, Reserve(rows, k, at), k, id);
  }

  lemma TableKeepsCapture(w: E.World, s: E.Step, id: string)
    requires E.Enabled(w, s) && (s.Renews? || s.Retires?)
    ensures KeepsCapture(w.rows, E.NextRows(w, s), id)
  {
    hide Readable, Retire, Renew, StillQueued, Mine;
    match s {
      case Renews(owner, lease) => RenewIs(w.rows, owner, lease);
      case Retires(plan) =>
        RetireIff(w.rows, w.legacy, plan);
        assert E.NextRows(w, s) == Retire(w.rows, w.legacy, plan).value;
    }
  }

  /** Every step but the deletion of the database keeps what a row was captured with. */
  lemma StepKeepsCapture(w: E.World, s: E.Step, id: string)
    requires E.Enabled(w, s) && !s.Deletes?
    ensures KeepsCapture(w.rows, E.Next(w, s).rows, id)
  {
    hide Persist, Enrich, Recover, Retire, Renew, ReserveBody, Reserve, Rewritten, KeepsCapture, MintRow, Mine, E.Reply, E.AcceptedLive;
    match s {
      case Reserves(owner, k, at) =>
        ReservingKeepsCapture(w.rows, owner, k, at, id);
      case Decides(owner, k, o, at) =>
        PersistWrites(w.rows, owner, k, o, at);
        ChangedKeepsCapture(w.rows, Persist(w.rows, owner, k, o, at), k, id);
      case Explains(owner, k, o, at, reason) =>
        EnrichIff(w.rows, owner, k, o, at, reason);
        ChangedKeepsCapture(w.rows, Enrich(w.rows, owner, k, o, at, reason), k, id);
      case Recovers(owner, reload, k, dead, now) =>
        RecoverIff(w.rows, w.legacy, owner, reload, k, dead, now);
        RewritingKeepsCapture(w.rows, Recover(w.rows, w.legacy, owner, reload, k, dead, now).value, k, id);
      case Renews(_, _) => TableKeepsCapture(w, s, id);
      case Retires(_) => TableKeepsCapture(w, s, id);
      case Serves(_, _, _) => UntouchedKeepsCapture(w.rows, E.Next(w, s).rows, id);
      case Refuses(_, _) => UntouchedKeepsCapture(w.rows, E.Next(w, s).rows, id);
      case Mints(_, _, _) => UntouchedKeepsCapture(w.rows, E.Next(w, s).rows, id);
      case Deletes =>
    }
  }

  lemma ChangedKeepsCapture(rows: Rows, r: (Transition, Rows), k: string, id: string)
    requires if r.0 == Changed then Rewritten(rows, r.1, k) else r.1 == rows
    ensures KeepsCapture(rows, r.1, id)
  {
    hide Rewritten, KeepsCapture;
    if r.0 == Changed {
      RewritingKeepsCapture(rows, r.1, k, id);
    } else {
      UntouchedKeepsCapture(rows, r.1, id);
    }
  }

  lemma {:induction false} CaptureKeptOverRuns(run: seq<E.Step>, states: seq<E.World>, i: nat, j: nat, id: string)
    requires E.IsRun(run, states) && i <= j <= |run| && forall k | i <= k < j :: !run[k].Deletes?
    ensures KeepsCapture(states[i].rows, states[j].rows, id)
  {
    hide E.Enabled, E.Next, E.Sound, SameCapture;
    if i == j {
      UntouchedKeepsCapture(states[i].rows, states[j].rows, id);
    } else {
      CaptureKeptOverRuns(run, states, i, j - 1, id);
      StepKeepsCapture(states[j - 1], run[j - 1], id);
      CapturesCompose(states[i].rows, states[j - 1].rows, states[j].rows, id);
    }
  }

  lemma CapturesCompose(a: Rows, b: Rows, c: Rows, id: string)
    requires KeepsCapture(a, b, id) && KeepsCapture(b, c, id)
    ensures KeepsCapture(a, c, id)
  {
    if id in a && a[id].Object? {
      forall key | Lasting(key) ensures Agree(a[id].fields, c[id].fields, key) {
        assert Agree(a[id].fields, b[id].fields, key) && Agree(b[id].fields, c[id].fields, key);
      }
    }
  }

  /** In every run a row goes on holding what was captured, in the direction it was captured
      in, whatever becomes of it, until the database is deleted. */
  lemma MintedStaysCaptured(run: seq<E.Step>, states: seq<E.World>, i: nat, j: nat)
    requires E.IsRun(run, states) && i < j <= |run| && run[i].Mints? && forall k | i <= k < j :: !run[k].Deletes?
    ensures var id := run[i].c.occurrenceId;
            id in states[j].rows && states[j].rows[id].Object? && Holds(states[j].rows[id].fields, run[i].c, run[i].owner)
  {
    hide E.Enabled, E.Sound, MintRow, Holds, SameCapture;
    var id, c, f := run[i].c.occurrenceId, run[i].c, MintRow(run[i].c, run[i].owner, run[i].lease);
    assert states[i + 1].rows[id] == Object(f);
    MintedIsCapture(c, run[i].owner, run[i].lease);
    CaptureKeptOverRuns(run, states, i + 1, j, id);
    CaptureIsKept(f, states[j].rows[id].fields, c, run[i].owner);
  }
}
