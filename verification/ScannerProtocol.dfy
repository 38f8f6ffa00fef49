/**
 One scanner page among other tabs, as a step system.

 A mint or mark transaction is in flight from its start until it commits or aborts at any
 later step; stops, late responses, failed writers, drains and other tabs' transactions come
 in between.  Two writers never share a row: the database serialises transactions that write
 the same store, so no other write falls between the body of a mark and its end.
 */
module ScannerProtocol {
  import opened Basics
  import opened OccurrenceModel
  import opened OccurrenceStore
  import opened Coordinator

  datatype Shown = ShownAccepted | ShownOther

  /** A scan run: what it knows, whether it was stopped, what it has told the operator. */
  datatype Scan = Scan(run: Run, stopped: bool, shown: Option<Shown>)

  /** `staged` is the result of a mark's body, `results` what a mark that ended answered;
      `lost` remembers the minted occurrences whose row went with a deleted database. */
  datatype Sys = Sys(
    page: Page, rows: Rows, legacy: Legacy, notices: set<string>, scans: map<string, Scan>,
    staged: map<string, Reservation>, results: map<string, Reservation>, me: string, ready: bool, lost: set<string>)

  /** How a write attempt meets the database. */
  datatype Fate = NoConnection | Fails | Commits

  datatype Step =
    | LockPage
    | SetReady(ready: bool)
    | Capture(c: Captured)
    | MintStarts(id: string)
    | MintCommits(id: string, lease: real)
    | MintAborts(id: string)
    | Sends(id: string)
    | Responds(id: string, status: int)
    | Accepts(id: string)
    | Decides(id: string, outcome: Outcome, at: string, stop: bool)
    | StopsAfterDenial(id: string)
    | BeginsMarking(id: string)
    | MarkStarts(id: string)
    | MarkReads(id: string)
    | MarkCommits(id: string, at: string)
    | MarkAborts(id: string)
    | ShowsAccepted(id: string)
    | ShowsOther(id: string)
    | LearnsReason(id: string, reason: string)
    | Writes(id: string, fate: Fate)
    | WritesReason(id: string, fate: Fate)
    | Renews(lease: real)
    | Recovers(id: string, tab: string, dead: Value, reload: Option<string>, now: real)
    | Retires(plan: Plan)
    | OtherTab(id: string, v: Value)
    | Deletes

  predicate Active(s: Sys, id: string) {
    id in s.page.entries && id in s.scans && !s.scans[id].stopped && s.scans[id].shown.None?
  }

  predicate Minted(s: Sys, id: string) {
    id in s.page.entries && s.page.entries[id].mint == MintCommitted
  }

  /** A mint or a mark is in flight. */
  predicate InFlight(s: Sys) {
    exists id | id in s.page.entries :: s.page.entries[id].mint == MintPending || s.page.entries[id].mark == MarkPending
  }

  /** A database is deleted once every connection to it has closed, and a connection closes
      once its transactions have ended. */
  predicate Enabled(s: Sys, a: Step) {
    match a
    case LockPage => true
    case SetReady(ready) => ready ==> s.page.held
    case Capture(c) => CapturedOk(c) && !Known(s.page, c.occurrenceId)
    case MintStarts(id) => id in s.page.entries && s.page.entries[id].mint == Unstarted && s.ready
    case MintCommits(id, _) => id in s.page.entries && s.page.entries[id].mint == MintPending && id !in s.rows && id !in s.legacy
    case MintAborts(id) => id in s.page.entries && s.page.entries[id].mint == MintPending
    case Sends(id) => Active(s, id) && Minted(s, id) && !s.scans[id].run.listed && s.page.entries[id].final.None?
    case Responds(id, _) => Active(s, id) && s.scans[id].run.sent && s.scans[id].run.status.None?
    case Accepts(id) => Active(s, id) && s.scans[id].run.status == Some(200)
    case Decides(id, o, at, _) =>
      && Known(s.page, id) && id in s.scans && !s.scans[id].stopped && s.scans[id].shown.None?
      && CanLatch(s.scans[id].run, o) && at != ""
    case StopsAfterDenial(id) =>
      Active(s, id) && (s.scans[id].run.status == Some(409) || s.scans[id].run.status == Some(422))
    case BeginsMarking(id) => Active(s, id) && s.scans[id].run.accepted && CanBeginMarking(s.page, id)
    case MarkStarts(id) => CanReserve(s.page, id) && s.page.entries[id].mark == NoMark
    case MarkReads(id) => id in s.page.entries && s.page.entries[id].mark == MarkPending && id !in s.staged
    case MarkCommits(id, at) => id in s.page.entries && s.page.entries[id].mark == MarkPending && id in s.staged && at != ""
    case MarkAborts(id) => id in s.page.entries && s.page.entries[id].mark == MarkPending
    case ShowsAccepted(id) => Active(s, id) && id in s.results && s.results[id].WillReserve?
    case ShowsOther(id) => Active(s, id) && s.page.entries[id].final.Some?
    case LearnsReason(id, _) => id in s.page.entries
    case Writes(id, _) => id in s.page.entries && CanAttempt(s.page.entries[id])
    case WritesReason(id, _) => id in s.page.entries && CanEnrich(s.page.entries[id])
    case Renews(_) => s.ready && s.staged == map[]
    case Recovers(id, tab, dead, reload, now) =>
      && (dead == Text(s.me) ==> !s.page.held)
      && Recover(s.rows, s.legacy, tab, reload, id, dead, now).Some?
    case Retires(plan) => (forall id | id in plan :: plan[id] in RESULTS) && Retire(s.rows, s.legacy, plan).Some?
    case OtherTab(id, v) => !Minted(s, id) && (ReadRow(v).Some? ==> ReadRow(v).value.owner != Text(s.me))
    case Deletes => !s.ready && !InFlight(s)
  }

  function Ran(s: Sys, id: string, run: Run): Sys
    requires id in s.scans
  {
    s.(scans := s.scans[id := s.scans[id].(run := run)])
  }

  function Told(s: Sys, id: string, stopped: bool, shown: Option<Shown>): Sys
    requires id in s.scans
  {
    s.(scans := s.scans[id := s.scans[id].(stopped := stopped, shown := shown)])
  }

  function Captures(s: Sys, c: Captured): Sys {
    s.(page := Register(s.page, c), scans := s.scans[c.occurrenceId := Scan(Run(c.scan == RefusalScan, false, None, false), false, None)])
  }

  /** A denial is latched before its body is read; everything else is told at once. */
  function Decided(s: Sys, id: string, o: Outcome, at: string, stop: bool): Sys
    requires id in s.scans
  {
    var latched := s.(page := Latch(s.page, id, o, at));
    if o.Denied? && !stop then latched else Told(latched, id, stop, Some(ShownOther))
  }

  /** The end of a mark transaction that completed. */
  function MarkEnded(s: Sys, id: string, at: string): Sys
    requires id in s.page.entries && id in s.staged
  {
    var ended := s.(staged := s.staged - {id}, results := s.results[id := s.staged[id]]);
    match s.staged[id]
    case WillReserve =>
      if RecordOf(s.rows, id).None? then ended
      else ended.(rows := Reserve(s.rows, id, at), page := SettleMark(s.page, id, Some(Text(at))))
    case AlreadyActuated(t) => ended.(page := SettleMark(s.page, id, Some(t)))
    case WontReserve => ended.(page := SettleMark(s.page, id, None))
  }

  function Next(s: Sys, a: Step): Sys
    requires Enabled(s, a)
  {
    match a
    case LockPage => s.(page := s.page.(held := true))
    case SetReady(ready) => s.(ready := ready)
    case Capture(c) => Captures(s, c)
    case MintStarts(id) => s.(page := StartMint(s.page, id))
    case MintCommits(id, lease) => MintEnded(s, id, lease)
    case MintAborts(id) => s.(page := AbortMint(s.page, id))
    case Sends(id) => Ran(s, id, s.scans[id].run.(sent := true))
    case Responds(id, status) => Ran(s, id, s.scans[id].run.(status := Some(status)))
    case Accepts(id) => Ran(s, id, s.scans[id].run.(accepted := true))
    case Decides(id, o, at, stop) => Decided(s, id, o, at, stop)
    case StopsAfterDenial(id) => Told(s, id, true, Some(ShownOther))
    case BeginsMarking(id) => s.(page := BeginMarking(s.page, id))
    case MarkStarts(id) => s.(page := StartMark(s.page, id))
    case MarkReads(id) => s.(staged := s.staged[id := ReserveBody(s.rows, s.me, id, CanReserve(s.page, id))])
    case MarkCommits(id, at) => MarkEnded(s, id, at)
    case MarkAborts(id) => MarkDropped(s, id)
    case ShowsAccepted(id) => Told(s, id, s.scans[id].stopped, Some(ShownAccepted))
    case ShowsOther(id) => Told(s, id, s.scans[id].stopped, Some(ShownOther))
    case LearnsReason(id, reason) => s.(page := CaptureReason(s.page, id, reason))
    case Writes(id, fate) => WriteDecision(s, id, fate)
    case WritesReason(id, fate) => WriteReason(s, id, fate)
    case Renews(lease) => s.(rows := Renew(s.rows, s.me, lease))
    case Recovers(id, tab, dead, reload, now) =>
      s.(rows := Recover(s.rows, s.legacy, tab, reload, id, dead, now).value, notices := s.notices + {id})
    case Retires(plan) => s.(rows := Retire(s.rows, s.legacy, plan).value)
    case OtherTab(id, v) => s.(rows := s.rows[id := v])
    case Deletes => Deleted(s)
  }

  /** Rows, notices and the classes of old rows go together; the page keeps what it knows. */
  function Deleted(s: Sys): Sys {
    s.(rows := map[], notices := {}, legacy := map[], lost := s.lost + set id | id in s.page.entries && Minted(s, id))
  }

  /** One attempt at the latched decision: the write, if the entry still needs one, and what
      the page makes of its end. */
  function WriteDecision(s: Sys, id: string, fate: Fate): Sys
    requires id in s.page.entries && CanAttempt(s.page.entries[id])
  {
    var e := s.page.entries[id];
    if NeedsWrite(e) && fate == Commits then
      var (t, rows) := Persist(s.rows, s.me, id, e.final.value.outcome, e.final.value.decidedAt);
      s.(rows := rows, page := Attempted(s.page, id, Answered(t)))
    else s.(page := Attempted(s.page, id, if fate == NoConnection then NoWriter else Threw))
  }

  function WriteReason(s: Sys, id: string, fate: Fate): Sys
    requires id in s.page.entries && CanEnrich(s.page.entries[id])
  {
    var e := s.page.entries[id];
    if fate == Commits then
      var (t, rows) := Enrich(s.rows, s.me, id, e.final.value.outcome, e.final.value.decidedAt, e.reason);
      s.(rows := rows, page := Enriched(s.page, id, Answered(t)))
    else s.(page := Enriched(s.page, id, if fate == NoConnection then NoWriter else Threw))
  }

  // ---------------------------------------------------------------- the invariant

  /** Everything the system knows of one occurrence of the page. */
  datatype Slice = Slice(
    entry: Entry, scan: Scan, record: Option<Record>, isLegacy: bool,
    staged: Option<Reservation>, result: Option<Reservation>, lost: bool)

  function Opt<V>(m: map<string, V>, id: string): Option<V> {
    if id in m then Some(m[id]) else None
  }

  function SliceOf(s: Sys, id: string): Slice
    requires id in s.page.entries && id in s.scans
  {
    Slice(s.page.entries[id], s.scans[id], RecordOf(s.rows, id), id in s.legacy, Opt(s.staged, id), Opt(s.results, id),
          id in s.lost)
  }

  predicate RunOk(e: Entry, scan: Scan) {
    && CapturedOk(e.captured) && Possible(scan.run)
    && (scan.run.listed <==> e.captured.scan == RefusalScan)
    && (scan.run.sent ==> e.mint == MintCommitted)
  }

  predicate FinalOk(e: Entry) {
    && (e.final.Some? && e.final.value.Decide? ==>
          && TagOk(e.final.value.outcome, e.captured.scan) && DecisionFits(e.captured.scan, e.final.value.outcome)
          && e.final.value.outcome.Family() != Actuation && e.final.value.outcome != UncertainRecovery
          && e.final.value.decidedAt != "")
    && (e.final.Some? && e.final.value.Act? ==> e.mark == MarkReserved)
  }

  predicate MarkOk(x: Slice) {
    var e := x.entry;
    && (e.marking ==> e.mint == MintCommitted && x.scan.run.accepted)
    && (e.mark != NoMark ==> e.marking)
    && (x.staged.Some? ==> e.mark == MarkPending)
    && (x.result.Some? ==> e.mark == MarkReserved || e.mark == MarkNotReserved)
    && (x.result == Some(WillReserve) ==> e.mark == MarkReserved)
    && (e.mark == MarkReserved ==> e.final.Some?)
    && (e.mint != MintCommitted ==> e.durable == NoneYet && e.enrichment != ReasonCommitted && !x.lost)
    && (e.durable == Unrepairable ==> x.lost)
    && (x.lost ==> x.staged != Some(WillReserve))
  }

  /** While a run is neither stopped nor told, only a denial can have been latched. */
  predicate ToldOk(x: Slice) {
    && (!x.scan.stopped && x.scan.shown.None? && x.entry.final.Some? && x.entry.final.value.Decide? ==>
          x.entry.final.value.outcome.Denied? && (x.scan.run.status == Some(409) || x.scan.run.status == Some(422)))
    && (x.scan.shown == Some(ShownAccepted) ==>
          x.result == Some(WillReserve) && x.entry.final.Some? && x.entry.final.value.Act?)
  }

  /** The latched outcome, or the same denial with its reason added. */
  ghost predicate TagOfDecision(tag: Fields, o: Outcome) {
    tag == o.Tag() || (o.Denied? && o.reason.None? && exists reason :: tag == o.Tag()[KReason := Text(reason)])
  }

  /** The row agrees with the latch. */
  ghost predicate RowOk(x: Slice, r: Record) {
    var e := x.entry;
    if r.state == WPending then
      && r.tag == map[] && e.mark != MarkReserved
      && e.durable != Committed && e.durable != SettledAsActuation && e.durable != Unrepairable
    else if r.state == WActuated then
      && e.mark == MarkReserved && r.tag == Reserved.Tag() && e.final.Some?
      && (if e.final.value.Act? then e.durable == Committed && e.final.value.at == r.decidedAt
          else e.durable == SettledAsActuation)
    else
      && e.mark != MarkReserved && e.mark != MarkPending && e.durable == Committed
      && e.final.Some? && e.final.value.Decide?
      && r.decidedAt == Text(e.final.value.decidedAt) && TagOfDecision(r.tag, e.final.value.outcome)
      && (r.state == TargetState(e.final.value.outcome)
          || (e.final.value.outcome.Family() == Queue && (r.state == WSynced || r.state == WResolved)))
  }

  ghost predicate SliceOk(me: string, x: Slice) {
    && RunOk(x.entry, x.scan) && FinalOk(x.entry) && MarkOk(x) && ToldOk(x)
    && (x.staged.Some? ==> !x.staged.value.AlreadyActuated?)
    && (x.entry.mint == MintCommitted ==>
          && !x.isLegacy && (x.record.None? <==> x.lost)
          && (!x.lost ==>
                && x.record.value.owner == Text(me) && x.record.value.scan == x.entry.captured.scan
                && RowOk(x, x.record.value)))
  }

  ghost predicate Invariant(s: Sys) {
    && s.me != "" && s.page.entries.Keys !! s.page.aborted.Keys && (s.ready ==> s.page.held)
    && (forall id | id in s.page.entries :: id in s.scans && SliceOk(s.me, SliceOf(s, id)))
    && (forall id | id in s.page.entries :: s.page.entries[id].captured.occurrenceId == id)
    && (forall id | id in s.page.entries && s.page.entries[id].mint != Unstarted :: s.page.held)
    && (forall id | id in s.scans || id in s.staged || id in s.results :: Known(s.page, id))
    && s.lost <= s.page.entries.Keys
  }

  /** A step that leaves an occurrence's slice alone keeps what the invariant says of it. */
  ghost predicate OnlyTouches(s: Sys, s': Sys, id: string) {
    && s'.me == s.me && s'.page.entries.Keys == s.page.entries.Keys && s'.page.aborted == s.page.aborted
    && s'.page.held == s.page.held && s'.ready == s.ready && s'.legacy == s.legacy
    && s'.lost == s.lost
    && s'.scans.Keys == s.scans.Keys
    && (forall k | k in s'.staged || k in s'.results :: k in s.staged || k in s.results || k == id)
    && forall k | k in s.page.entries && k != id && k in s.scans :: SliceOf(s', k) == SliceOf(s, k)
  }

  lemma OneSliceSuffices(s: Sys, s': Sys, id: string)
    requires Invariant(s) && OnlyTouches(s, s', id) && id in s.page.entries
    requires SliceOk(s.me, SliceOf(s', id)) && s'.page.entries[id].captured == s.page.entries[id].captured
    requires s'.page.entries[id].mint != Unstarted ==> s.page.held
    ensures Invariant(s')
  {
    hide SliceOk, RecordOf;
    forall k | k in s'.page.entries
      ensures k in s'.scans && SliceOk(s'.me, SliceOf(s', k)) && s'.page.entries[k].captured.occurrenceId == k
      ensures s'.page.entries[k].mint != Unstarted ==> s'.page.held
    {
      if k != id {
        assert SliceOf(s', k) == SliceOf(s, k) && SliceOf(s', k).entry == s'.page.entries[k];
      }
    }
  }

  // ---------------------------------------------------------------- steps of the page

  lemma CaptureKeeps(s: Sys, c: Captured)
    requires Invariant(s) && CapturedOk(c) && !Known(s.page, c.occurrenceId)
    ensures Invariant(Captures(s, c))
  {
    hide RecordOf, SliceOk, CapturedOk;
    var s' := Captures(s, c);
    forall k | k in s'.page.entries
      ensures k in s'.scans && SliceOk(s'.me, SliceOf(s', k))
    {
      if k != c.occurrenceId {
        assert SliceOf(s', k) == SliceOf(s, k);
      } else {
        NewSliceOk(s.me, SliceOf(s', k), c);
      }
    }
  }

  lemma NewSliceOk(me: string, x: Slice, c: Captured)
    requires CapturedOk(c) && x.entry == NewEntry(c) && x.staged.None? && x.result.None? && !x.lost
    requires x.scan == Scan(Run(c.scan == RefusalScan, false, None, false), false, None)
    ensures SliceOk(me, x)
  {
  }

  lemma MintStartsKeeps(s: Sys, id: string)
    requires Invariant(s) && id in s.page.entries && s.page.entries[id].mint == Unstarted && s.ready
    ensures Invariant(s.(page := StartMint(s.page, id)))
  {
    hide RecordOf, TagOk, DecisionFits, RowOk, Invariant;
    SliceAt(s, id);
    OneSliceSuffices(s, s.(page := StartMint(s.page, id)), id);
  }

  /** What the invariant says of one occurrence, and of the page's lock. */
  lemma SliceAt(s: Sys, id: string)
    requires Invariant(s) && id in s.page.entries
    ensures id in s.scans && SliceOk(s.me, SliceOf(s, id)) && s.page.entries[id].captured.occurrenceId == id
    ensures s.me != "" && (s.page.entries[id].mint != Unstarted || s.ready ==> s.page.held)
    ensures id !in s.page.aborted && (s.page.entries[id].mint != MintCommitted ==> id !in s.lost)
  {
    hide RunOk, FinalOk, ToldOk, RowOk, RecordOf;
  }

  function MintEnded(s: Sys, id: string, lease: real): Sys
    requires id in s.page.entries
  {
    s.(page := CommitMint(s.page, id), rows := s.rows[id := Object(MintRow(s.page.entries[id].captured, s.me, lease))])
  }

  lemma MintCommitsKeeps(s: Sys, id: string, lease: real)
    requires Invariant(s) && id in s.page.entries && s.page.entries[id].mint == MintPending && id !in s.rows && id !in s.legacy
    ensures Invariant(MintEnded(s, id, lease))
  {
    hide SliceOk, RecordOf, MintRow, Invariant;
    SliceAt(s, id);
    var s' := MintEnded(s, id, lease);
    MintedRecord(s, id, lease);
    OtherRows(s.rows, s'.rows, id);
    MintedSliceOk(s.me, SliceOf(s, id), SliceOf(s', id), lease);
    OneSliceSuffices(s, s', id);
  }

  lemma MintedRecord(s: Sys, id: string, lease: real)
    requires Invariant(s) && id in s.page.entries
    ensures RecordOf(MintEnded(s, id, lease).rows, id)
            == Some(Record(Text(s.me), s.page.entries[id].captured.scan, WPending, map[], Undefined, Number(lease)))
  {
    hide ReadRow, MintRow, Invariant, FinalOk, MarkOk, ToldOk, RowOk;
    SliceAt(s, id);
    MintedReads(s.page.entries[id].captured, s.me, lease);
  }

  lemma MintedSliceOk(me: string, x: Slice, y: Slice, lease: real)
    requires SliceOk(me, x) && x.entry.mint == MintPending && !y.isLegacy
    requires y == x.(entry := x.entry.(mint := MintCommitted), record := y.record, isLegacy := y.isLegacy)
    requires y.record == Some(Record(Text(me), x.entry.captured.scan, WPending, map[], Undefined, Number(lease)))
    ensures SliceOk(me, y)
  {
    hide TagOk, DecisionFits, TagOfDecision;
  }

  lemma MintAbortsKeeps(s: Sys, id: string)
    requires Invariant(s) && id in s.page.entries && s.page.entries[id].mint == MintPending
    ensures Invariant(s.(page := AbortMint(s.page, id)))
  {
    hide SliceOk, RecordOf;
    SliceAt(s, id);
    var s' := s.(page := AbortMint(s.page, id));
    forall k | k in s'.page.entries
      ensures k in s'.scans && SliceOk(s'.me, SliceOf(s', k))
    {
      assert SliceOf(s', k) == SliceOf(s, k);
    }
  }

  /** A run that goes on: a request is sent, answered, or its body accepted. */
  predicate GoesOn(e: Entry, scan: Scan, next: Run) {
    var run := scan.run;
    || (next == run.(sent := true) && e.mint == MintCommitted && !run.listed && e.final.None?)
    || (next.status.Some? && next == run.(status := next.status) && run.sent && run.status.None?)
    || (next == run.(accepted := true) && run.status == Some(200))
  }

  lemma RunStepsKeep(s: Sys, id: string, next: Run)
    requires Invariant(s) && Active(s, id) && GoesOn(s.page.entries[id], s.scans[id], next)
    ensures Invariant(Ran(s, id, next))
  {
    hide RecordOf, SliceOk, Invariant, GoesOn;
    SliceAt(s, id);
    RanSliceOk(s.me, SliceOf(s, id), SliceOf(Ran(s, id, next), id), next);
    OneSliceSuffices(s, Ran(s, id, next), id);
  }

  lemma RanSliceOk(me: string, x: Slice, y: Slice, next: Run)
    requires SliceOk(me, x) && GoesOn(x.entry, x.scan, next) && y == x.(scan := x.scan.(run := next))
    ensures SliceOk(me, y)
  {
    hide TagOk, DecisionFits, RowOk;
    SameRow(x, y);
  }

  /** Rows and the fields of the entry that speak of them are all `RowOk` reads. */
  lemma SameRow(x: Slice, y: Slice)
    requires x.record == y.record && x.entry.mark == y.entry.mark && x.entry.final == y.entry.final && x.entry.durable == y.entry.durable
    ensures x.record.Some? ==> (RowOk(x, x.record.value) <==> RowOk(y, y.record.value))
  {
    hide TagOfDecision, TargetState;
  }

  lemma TellingKeeps(s: Sys, id: string, stopped: bool, shown: Shown)
    requires Invariant(s) && Active(s, id)
    requires shown == ShownAccepted ==> Opt(s.results, id) == Some(WillReserve)
    ensures Invariant(Told(s, id, stopped, Some(shown)))
  {
    hide RecordOf, SliceOk, Invariant;
    SliceAt(s, id);
    var x, y := SliceOf(s, id), SliceOf(Told(s, id, stopped, Some(shown)), id);
    if shown == ShownAccepted {
      AcceptedIsActuated(s, id);
    }
    ToldSliceOk(s.me, x, y, stopped, shown);
    OneSliceSuffices(s, Told(s, id, stopped, Some(shown)), id);
  }

  lemma ToldSliceOk(me: string, x: Slice, y: Slice, stopped: bool, shown: Shown)
    requires SliceOk(me, x) && y == x.(scan := x.scan.(stopped := stopped, shown := Some(shown)))
    requires shown == ShownAccepted ==> x.result == Some(WillReserve) && x.entry.final.Some? && x.entry.final.value.Act?
    ensures SliceOk(me, y)
  {
    hide TagOk, DecisionFits, RowOk;
    SameRow(x, y);
  }

  /** A mark that reserved, of a run that was not stopped, is the latched decision. */
  lemma AcceptedIsActuated(s: Sys, id: string)
    requires Invariant(s) && Active(s, id) && Opt(s.results, id) == Some(WillReserve)
    ensures s.page.entries[id].final.Some? && s.page.entries[id].final.value.Act?
    ensures id !in s.lost ==> RecordOf(s.rows, id).Some? && RecordOf(s.rows, id).value.state == WActuated
  {
    hide RecordOf, TagOk, DecisionFits, Invariant;
    SliceAt(s, id);
  }

  /** What a decision changes for a registered occurrence. */
  lemma DecidedShape(s: Sys, id: string, o: Outcome, at: string, stop: bool)
    requires id in s.scans && id in s.page.entries && id !in s.page.aborted
    ensures var s', e := Decided(s, id, o, at, stop), s.page.entries[id];
            && s' == s.(page := s'.page, scans := s'.scans) && s'.page == s.page.(entries := s'.page.entries, targets := s'.page.targets)
            && s'.page.entries == s.page.entries[id := if e.final.Some? then e else e.(final := Some(Decide(o, at)))]
            && s'.scans == s.scans[id := if o.Denied? && !stop then s.scans[id]
                                         else s.scans[id].(stopped := stop, shown := Some(ShownOther))]
  {
    assert s.page.entries == s.page.entries[id := s.page.entries[id]] && s.scans == s.scans[id := s.scans[id]];
  }

  lemma DecidesKeeps(s: Sys, id: string, o: Outcome, at: string, stop: bool)
    requires Invariant(s) && Active(s, id) && CanLatch(s.scans[id].run, o) && at != ""
    ensures Invariant(Decided(s, id, o, at, stop))
  {
    hide RecordOf, SliceOk, Invariant, CanLatch, Decided;
    SliceAt(s, id);
    DecidedShape(s, id, o, at, stop);
    var s' := Decided(s, id, o, at, stop);
    LatchedSliceOk(s.me, SliceOf(s, id), SliceOf(s', id), o, at);
    OneSliceSuffices(s, s', id);
  }

  /** Latching the first decision of a run, and telling it unless it is an unread denial. */
  lemma LatchedSliceOk(me: string, x: Slice, y: Slice, o: Outcome, at: string)
    requires SliceOk(me, x) && CanLatch(x.scan.run, o) && at != "" && !x.scan.stopped && x.scan.shown.None?
    requires y.entry == (if x.entry.final.Some? then x.entry else x.entry.(final := Some(Decide(o, at))))
    requires y == x.(entry := y.entry, scan := y.scan) && y.scan.run == x.scan.run
    requires (y.scan == x.scan && o.Denied?) || y.scan.shown == Some(ShownOther)
    ensures SliceOk(me, y)
  {
    hide TagOk, DecisionFits, CanLatch, Outcome.Tag;
    LatchedTagsAreOk(x.scan.run, o);
    FittingDecision(x.scan.run, o);
    DenialHasStatus(x.scan.run, o);
    assert ScanOf(x.scan.run) == x.entry.captured.scan;
  }

  lemma DenialHasStatus(run: Run, o: Outcome)
    requires CanLatch(run, o)
    ensures o.Denied? ==> run.status == Some(409) || run.status == Some(422)
  {
  }

  lemma AbortedShape(s: Sys, id: string, o: Outcome, at: string, stop: bool)
    requires id in s.scans && id in s.page.aborted
    ensures var s' := Decided(s, id, o, at, stop);
            && s' == s.(page := s'.page, scans := s'.scans) && s'.page == s.page.(aborted := s'.page.aborted)
            && s'.page.aborted.Keys == s.page.aborted.Keys && s'.scans.Keys == s.scans.Keys
            && forall k | k in s.scans && k != id :: s'.scans[k] == s.scans[k]
  {
    hide Latch;
    LatchAfterAbort(s.page, id, o, at);
  }

  /** After its mint aborted, a decision is kept beside the released credential. */
  lemma DecidesAborted(s: Sys, id: string, o: Outcome, at: string, stop: bool)
    requires Invariant(s) && id in s.page.aborted && id in s.scans
    ensures Invariant(Decided(s, id, o, at, stop))
  {
    hide SliceOk, RecordOf, Decided;
    AbortedShape(s, id, o, at, stop);
    var s' := Decided(s, id, o, at, stop);
    forall k | k in s'.page.entries
      ensures k in s'.scans && SliceOk(s'.me, SliceOf(s', k))
    {
      assert SliceOf(s', k) == SliceOf(s, k);
    }
  }

  lemma BeginsMarkingKeeps(s: Sys, id: string)
    requires Invariant(s) && Active(s, id) && s.scans[id].run.accepted && CanBeginMarking(s.page, id)
    ensures Invariant(s.(page := BeginMarking(s.page, id)))
  {
    hide RecordOf, SliceOk, Invariant;
    SliceAt(s, id);
    var s' := s.(page := BeginMarking(s.page, id));
    MarkingSliceOk(s.me, SliceOf(s, id), SliceOf(s', id));
    OneSliceSuffices(s, s', id);
  }

  lemma MarkingSliceOk(me: string, x: Slice, y: Slice)
    requires SliceOk(me, x) && x.scan.run.accepted && x.entry.mint == MintCommitted && x.entry.final.None?
    requires y == x.(entry := x.entry.(marking := true))
    ensures SliceOk(me, y)
  {
    hide TagOk, DecisionFits, RowOk;
    SameRow(x, y);
  }

  lemma MarkStartsKeeps(s: Sys, id: string)
    requires Invariant(s) && CanReserve(s.page, id) && s.page.entries[id].mark == NoMark
    ensures Invariant(s.(page := StartMark(s.page, id)))
  {
    hide RecordOf, SliceOk, Invariant;
    SliceAt(s, id);
    var s' := s.(page := StartMark(s.page, id));
    StartedSliceOk(s.me, SliceOf(s, id), SliceOf(s', id));
    OneSliceSuffices(s, s', id);
  }

  lemma StartedSliceOk(me: string, x: Slice, y: Slice)
    requires SliceOk(me, x) && x.entry.mint == MintCommitted && x.entry.marking && x.entry.mark == NoMark && x.entry.final.None?
    requires y == x.(entry := x.entry.(mark := MarkPending))
    ensures SliceOk(me, y)
  {
    hide TagOk, DecisionFits, TagOfDecision;
  }

  /** A row with a mark in flight is still pending, and it is not a refusal. */
  lemma MarkedIsPending(s: Sys, id: string)
    requires Invariant(s) && id in s.page.entries && s.page.entries[id].mark == MarkPending
    ensures RecordOf(s.rows, id).None? <==> id in s.lost
    ensures id !in s.lost ==>
              && RecordOf(s.rows, id).value.state == WPending && RecordOf(s.rows, id).value.scan == NormalScan
              && RecordOf(s.rows, id).value.owner == Text(s.me)
    ensures id in s.staged ==> !s.staged[id].AlreadyActuated? && (id in s.lost ==> s.staged[id].WontReserve?)
  {
    hide RecordOf, TagOk, DecisionFits, Invariant;
    SliceAt(s, id);
  }

  lemma MarkReadsKeeps(s: Sys, id: string)
    requires Invariant(s) && id in s.page.entries && s.page.entries[id].mark == MarkPending
    ensures Invariant(s.(staged := s.staged[id := ReserveBody(s.rows, s.me, id, CanReserve(s.page, id))]))
  {
    hide RecordOf, SliceOk, Invariant;
    SliceAt(s, id);
    MarkedIsPending(s, id);
    var s' := s.(staged := s.staged[id := ReserveBody(s.rows, s.me, id, CanReserve(s.page, id))]);
    StagedSliceOk(s.me, SliceOf(s, id), SliceOf(s', id));
    OneSliceSuffices(s, s', id);
  }

  lemma StagedSliceOk(me: string, x: Slice, y: Slice)
    requires SliceOk(me, x) && x.entry.mark == MarkPending
    requires y == x.(staged := y.staged) && (y.staged.Some? ==> !y.staged.value.AlreadyActuated?)
    requires x.lost ==> y.staged != Some(WillReserve)
    ensures SliceOk(me, y)
  {
    hide TagOk, DecisionFits, RowOk;
    SameRow(x, y);
  }

  function MarkDropped(s: Sys, id: string): Sys
    requires id in s.page.entries
  {
    s.(staged := s.staged - {id}, page := SettleMark(s.page, id, None))
  }

  lemma MarkAbortsKeeps(s: Sys, id: string)
    requires Invariant(s) && id in s.page.entries && s.page.entries[id].mark == MarkPending
    ensures Invariant(MarkDropped(s, id))
  {
    hide RecordOf, SliceOk, Invariant;
    SliceAt(s, id);
    DroppedSliceOk(s.me, SliceOf(s, id), SliceOf(MarkDropped(s, id), id));
    OneSliceSuffices(s, MarkDropped(s, id), id);
  }

  lemma DroppedSliceOk(me: string, x: Slice, y: Slice)
    requires SliceOk(me, x) && x.entry.mark == MarkPending
    requires y == x.(entry := x.entry.(mark := MarkNotReserved), staged := None)
    ensures SliceOk(me, y)
  {
    hide TagOk, DecisionFits, TagOfDecision;
  }

  /** What the end of a completed mark changes. */
  lemma EndedShape(s: Sys, id: string, at: string)
    requires id in s.page.entries && id in s.staged && s.page.entries[id].mark == MarkPending
    requires !s.staged[id].AlreadyActuated? && (s.staged[id].WillReserve? ==> RecordOf(s.rows, id).Some?)
    ensures var s', e := MarkEnded(s, id, at), s.page.entries[id];
            var e' := if s.staged[id].WontReserve? then e.(mark := MarkNotReserved)
                      else if e.final.None? then e.(mark := MarkReserved, final := Some(Act(Text(at))), durable := Committed)
                      else if e.final.value.Act? then e.(mark := MarkReserved)
                      else e.(mark := MarkReserved, durable := SettledAsActuation);
            && s' == s.(page := s'.page, rows := s'.rows, staged := s.staged - {id}, results := s.results[id := s.staged[id]])
            && s'.page == s.page.(entries := s.page.entries[id := e'], targets := s'.page.targets)
            && s'.rows == if s.staged[id].WillReserve? then Reserve(s.rows, id, at) else s.rows
  {
    hide RecordOf, Reserve;
  }

  lemma MarkCommitsKeeps(s: Sys, id: string, at: string)
    requires Invariant(s) && id in s.page.entries && s.page.entries[id].mark == MarkPending && id in s.staged && at != ""
    ensures Invariant(MarkEnded(s, id, at))
  {
    hide RecordOf, SliceOk, Invariant, MarkEnded, Outcome.Tag, Reserve;
    SliceAt(s, id);
    MarkedIsPending(s, id);
    EndedShape(s, id, at);
    EndedIsOk(s, id, at);
    EndedTouches(s, id, at);
    OneSliceSuffices(s, MarkEnded(s, id, at), id);
  }

  lemma EndedIsOk(s: Sys, id: string, at: string)
    requires Invariant(s) && id in s.page.entries && s.page.entries[id].mark == MarkPending && id in s.staged && at != ""
    ensures id in MarkEnded(s, id, at).page.entries && id in MarkEnded(s, id, at).scans && id in s.scans
    ensures SliceOk(s.me, SliceOf(MarkEnded(s, id, at), id))
  {
    hide RecordOf, SliceOk, Invariant, MarkEnded, Outcome.Tag, Reserve;
    SliceAt(s, id);
    MarkedIsPending(s, id);
    EndedShape(s, id, at);
    if s.staged[id].WillReserve? {
      ReservedRecord(s.rows, id, at);
    }
    EndedSliceOk(s.me, SliceOf(s, id), SliceOf(MarkEnded(s, id, at), id), at);
  }

  lemma EndedTouches(s: Sys, id: string, at: string)
    requires Invariant(s) && id in s.page.entries && s.page.entries[id].mark == MarkPending && id in s.staged && at != ""
    ensures OnlyTouches(s, MarkEnded(s, id, at), id)
  {
    hide RecordOf, SliceOk, Invariant, MarkEnded, Outcome.Tag, Reserve;
    SliceAt(s, id);
    MarkedIsPending(s, id);
    EndedShape(s, id, at);
    if s.staged[id].WillReserve? {
      ReservedRecord(s.rows, id, at);
    }
  }

  lemma ReservedRecord(rows: Rows, id: string, at: string)
    requires RecordOf(rows, id).Some? && RecordOf(rows, id).value.state == WPending
    requires RecordOf(rows, id).value.scan == NormalScan && at != ""
    ensures RecordOf(Reserve(rows, id, at), id)
            == Some(RecordOf(rows, id).value.(state := WActuated, tag := Reserved.Tag(), decidedAt := Text(at)))
    ensures forall k | k != id :: RecordOf(Reserve(rows, id, at), k) == RecordOf(rows, k)
  {
    hide ReadRow, ReserveRow, Outcome.Tag;
    ReadableParts(rows, id);
    ReservedReads(rows[id].fields, at);
  }

  /** A reservation that committed: the first decision, or actuation behind another one. */
  lemma EndedSliceOk(me: string, x: Slice, y: Slice, at: string)
    requires SliceOk(me, x) && x.entry.mark == MarkPending && x.staged.Some? && at != ""
    requires !x.lost ==> x.record.Some? && x.record.value.state == WPending
    requires y.scan == x.scan && y.isLegacy == x.isLegacy && y.staged.None? && y.result == x.staged && y.lost == x.lost
    requires x.staged.value.WillReserve? ==>
               && y.record == Some(x.record.value.(state := WActuated, tag := Reserved.Tag(), decidedAt := Text(at)))
               && y.entry == (if x.entry.final.None?
                              then x.entry.(mark := MarkReserved, final := Some(Act(Text(at))), durable := Committed)
                              else if x.entry.final.value.Act? then x.entry.(mark := MarkReserved)
                              else x.entry.(mark := MarkReserved, durable := SettledAsActuation))
    requires x.staged.value.WontReserve? ==> y.record == x.record && y.entry == x.entry.(mark := MarkNotReserved)
    requires !x.staged.value.AlreadyActuated?
    ensures SliceOk(me, y)
  {
    hide TagOk, DecisionFits, Outcome.Tag;
  }

  lemma LearnsReasonKeeps(s: Sys, id: string, reason: string)
    requires Invariant(s) && id in s.page.entries
    ensures Invariant(s.(page := CaptureReason(s.page, id, reason)))
  {
    hide RecordOf, TagOk, DecisionFits, RowOk, Invariant;
    SliceAt(s, id);
    var s' := s.(page := CaptureReason(s.page, id, reason));
    SameRow(SliceOf(s, id), SliceOf(s', id));
    OneSliceSuffices(s, s', id);
  }

  /** A decision that still needs its write finds its own pending row, so the write changes it. */
  lemma NeededWriteChanges(s: Sys, id: string)
    requires Invariant(s) && id in s.page.entries && CanAttempt(s.page.entries[id]) && NeedsWrite(s.page.entries[id])
    requires id !in s.lost
    ensures var e := s.page.entries[id];
            var (t, rows) := Persist(s.rows, s.me, id, e.final.value.outcome, e.final.value.decidedAt);
            && t == Changed && id in s.rows && s.rows[id].Object? && RecordOf(s.rows, id).Some?
            && rows == s.rows[id := Object(DecideRow(s.rows[id].fields, e.final.value.outcome, e.final.value.decidedAt))]
            && RecordOf(rows, id) == Some(RecordOf(s.rows, id).value.(state := TargetState(e.final.value.outcome),
                 tag := e.final.value.outcome.Tag(), decidedAt := Text(e.final.value.decidedAt)))
  {
    hide ReadRow, TagOk, DecisionFits, Invariant, DecideRow, Outcome.Tag, TagOfDecision;
    SliceAt(s, id);
    var e := s.page.entries[id];
    ReadableParts(s.rows, id);
    assert RecordOf(s.rows, id).value.state == WPending;
    DecidedReads(s.rows[id].fields, e.final.value.outcome, e.final.value.decidedAt);
  }

  lemma WritesKeeps(s: Sys, id: string, fate: Fate)
    requires Invariant(s) && id in s.page.entries && CanAttempt(s.page.entries[id])
    ensures Invariant(WriteDecision(s, id, fate))
  {
    hide Invariant, WriteDecision, NeedsWrite, CanAttempt;
    if NeedsWrite(s.page.entries[id]) && fate == Commits {
      if id in s.lost {
        UnrepairableWriteKeeps(s, id);
      } else {
        CommittedWriteKeeps(s, id);
      }
    } else {
      LostWriteKeeps(s, id, fate);
    }
  }

  /** A write whose row went with the database answers that it is missing. */
  lemma LostRowIsMissing(s: Sys, id: string)
    requires Invariant(s) && id in s.page.entries && id in s.lost && CanAttempt(s.page.entries[id]) && NeedsWrite(s.page.entries[id])
    ensures var e := s.page.entries[id];
            var (t, rows) := Persist(s.rows, s.me, id, e.final.value.outcome, e.final.value.decidedAt);
            !Done(t) && rows == s.rows
  {
    hide ReadRow, TagOk, DecisionFits, Invariant, DecideRow, Outcome.Tag, TagOfDecision;
    SliceAt(s, id);
  }

  lemma UnrepairableWriteKeeps(s: Sys, id: string)
    requires Invariant(s) && id in s.page.entries && id in s.lost && CanAttempt(s.page.entries[id]) && NeedsWrite(s.page.entries[id])
    ensures Invariant(WriteDecision(s, id, Commits)) && WriteDecision(s, id, Commits).page.entries[id].durable == Unrepairable
  {
    hide RecordOf, SliceOk, Invariant, Persist, Outcome.Tag;
    SliceAt(s, id);
    var s' := WriteDecision(s, id, Commits);
    LostRowIsMissing(s, id);
    UnrepairableSliceOk(s.me, SliceOf(s, id), SliceOf(s', id));
    OneSliceSuffices(s, s', id);
  }

  lemma UnrepairableSliceOk(me: string, x: Slice, y: Slice)
    requires SliceOk(me, x) && CanAttempt(x.entry) && x.lost && y == x.(entry := x.entry.(durable := Unrepairable))
    ensures SliceOk(me, y)
  {
    hide TagOk, DecisionFits, RowOk;
  }

  lemma CommittedWriteKeeps(s: Sys, id: string)
    requires Invariant(s) && id in s.page.entries && CanAttempt(s.page.entries[id]) && NeedsWrite(s.page.entries[id])
    requires id !in s.lost
    ensures Invariant(WriteDecision(s, id, Commits))
  {
    hide RecordOf, SliceOk, Invariant, Persist, Outcome.Tag, DecideRow;
    SliceAt(s, id);
    var s' := WriteDecision(s, id, Commits);
    NeededWriteChanges(s, id);
    OtherRows(s.rows, s'.rows, id);
    WrittenSliceOk(s.me, SliceOf(s, id), SliceOf(s', id));
    OneSliceSuffices(s, s', id);
  }

  lemma LostWriteKeeps(s: Sys, id: string, fate: Fate)
    requires Invariant(s) && id in s.page.entries && CanAttempt(s.page.entries[id])
    requires !(NeedsWrite(s.page.entries[id]) && fate == Commits)
    ensures Invariant(WriteDecision(s, id, fate))
  {
    hide RecordOf, SliceOk, Invariant, Persist, Outcome.Tag, DecideRow;
    SliceAt(s, id);
    var s' := WriteDecision(s, id, fate);
    AttemptedSliceOk(s.me, SliceOf(s, id), SliceOf(s', id), if fate == NoConnection then NoWriter else Threw);
    OneSliceSuffices(s, s', id);
  }

  lemma WrittenSliceOk(me: string, x: Slice, y: Slice)
    requires SliceOk(me, x) && CanAttempt(x.entry) && NeedsWrite(x.entry) && x.record.Some? && !x.lost
    requires y == x.(entry := x.entry.(durable := Committed), record := y.record)
    requires y.record == Some(x.record.value.(state := TargetState(x.entry.final.value.outcome),
                                              tag := x.entry.final.value.outcome.Tag(),
                                              decidedAt := Text(x.entry.final.value.decidedAt)))
    ensures SliceOk(me, y)
  {
    hide TagOk, DecisionFits, Outcome.Tag;
  }

  lemma AttemptedSliceOk(me: string, x: Slice, y: Slice, a: Attempt)
    requires SliceOk(me, x) && CanAttempt(x.entry) && !a.Answered?
    requires y == x.(entry := x.entry.(durable := DurableAfter(x.entry, a)))
    ensures SliceOk(me, y)
  {
    hide TagOk, DecisionFits, Outcome.Tag, TagOfDecision;
  }

  lemma OtherRows(rows: Rows, rows': Rows, id: string)
    requires id in rows' && rows' == rows[id := rows'[id]]
    ensures forall k | k != id :: RecordOf(rows', k) == RecordOf(rows, k)
  {
    hide ReadRow;
  }

  lemma WritesReasonKeeps(s: Sys, id: string, fate: Fate)
    requires Invariant(s) && id in s.page.entries && CanEnrich(s.page.entries[id])
    ensures Invariant(WriteReason(s, id, fate))
  {
    hide RecordOf, SliceOk, Invariant, Outcome.Tag, Enrich;
    SliceAt(s, id);
    var e, s' := s.page.entries[id], WriteReason(s, id, fate);
    if fate == Commits {
      EnrichmentReads(s, id);
      if s'.rows != s.rows {
        OtherRows(s.rows, s'.rows, id);
      }
    }
    EnrichedSliceOk(s.me, SliceOf(s, id), SliceOf(s', id));
    OneSliceSuffices(s, s', id);
  }

  /** An enrichment that changes the row adds the reason to its tag and nothing else. */
  lemma EnrichmentReads(s: Sys, id: string)
    requires Invariant(s) && id in s.page.entries && CanEnrich(s.page.entries[id])
    ensures var e := s.page.entries[id];
            var (t, rows) := Enrich(s.rows, s.me, id, e.final.value.outcome, e.final.value.decidedAt, e.reason);
            && (t != Changed ==> rows == s.rows)
            && (t == Changed ==>
                  && id in rows && rows == s.rows[id := rows[id]]
                  && e.final.value.outcome.Denied? && e.final.value.outcome.reason.None?
                  && RecordOf(s.rows, id).Some? && Get(RecordOf(s.rows, id).value.tag, KReason) == Null
                  && RecordOf(rows, id) == Some(RecordOf(s.rows, id).value.(tag := RecordOf(s.rows, id).value.tag[KReason := Text(e.reason)])))
  {
    hide ReadRow, TagOk, DecisionFits, Invariant, Outcome.Tag, EnrichRow, TagOfDecision;
    SliceAt(s, id);
    var e := s.page.entries[id];
    if Enrich(s.rows, s.me, id, e.final.value.outcome, e.final.value.decidedAt, e.reason).0 == Changed {
      ReadableParts(s.rows, id);
      EnrichedReads(s.rows[id].fields, e.final.value.outcome, e.reason);
    }
  }

  lemma EnrichedSliceOk(me: string, x: Slice, y: Slice)
    requires SliceOk(me, x) && CanEnrich(x.entry)
    requires y == x.(entry := x.entry.(enrichment := y.entry.enrichment), record := y.record)
    requires y.record != x.record ==>
               && x.record.Some? && x.entry.final.value.outcome.Denied? && x.entry.final.value.outcome.reason.None?
               && Get(x.record.value.tag, KReason) == Null
               && y.record == Some(x.record.value.(tag := x.record.value.tag[KReason := Text(x.entry.reason)]))
    ensures SliceOk(me, y)
  {
    hide TagOk, DecisionFits, Outcome.Tag, TagOfDecision;
    if y.record != x.record && x.record.value.state != WPending && x.record.value.state != WActuated {
      ReasonAdded(x.record.value.tag, x.entry.final.value.outcome, x.entry.reason);
    }
  }

  /** The reason is added once, to the tag of the unknown denial. */
  lemma ReasonAdded(tag: Fields, o: Outcome, reason: string)
    requires TagOfDecision(tag, o) && o.Denied? && o.reason.None? && Get(tag, KReason) == Null
    ensures TagOfDecision(tag[KReason := Text(reason)], o)
  {
    hide Outcome.Tag;
    if tag == o.Tag() {
      assert tag[KReason := Text(reason)] == o.Tag()[KReason := Text(reason)];
    }
  }

  // ---------------------------------------------------------------- steps on many rows

  /** Rows may be rewritten if what they read back as keeps the invariant. */
  lemma RowsSuffice(s: Sys, s': Sys)
    requires Invariant(s) && s' == s.(rows := s'.rows, notices := s'.notices)
    requires forall k | k in s.page.entries && Minted(s, k) && RecordOf(s.rows, k).None? :: RecordOf(s'.rows, k).None?
    requires forall k | k in s.page.entries && Minted(s, k) && RecordOf(s.rows, k).Some? ::
               RecordOf(s'.rows, k) == RecordOf(s.rows, k)
               || (RecordOf(s'.rows, k).Some? && SameButLease(RecordOf(s.rows, k).value, RecordOf(s'.rows, k).value))
               || (RecordOf(s'.rows, k).Some? && Retired(RecordOf(s.rows, k).value, RecordOf(s'.rows, k).value))
    ensures Invariant(s')
  {
    hide RecordOf, RunOk, FinalOk, MarkOk, ToldOk, TagOfDecision;
    forall k | k in s'.page.entries
      ensures k in s'.scans && SliceOk(s'.me, SliceOf(s', k))
    {
      assert SliceOk(s.me, SliceOf(s, k));
      SlicesAgree(s, s', k);
    }
  }

  predicate SameButLease(a: Record, b: Record) {
    b == a.(lease := b.lease)
  }

  predicate Retired(a: Record, b: Record) {
    a.state == WQueued && (b == a.(state := WSynced) || b == a.(state := WResolved))
  }

  lemma SlicesAgree(s: Sys, s': Sys, k: string)
    requires s' == s.(rows := s'.rows, notices := s'.notices) && k in s.page.entries && k in s.scans
    requires SliceOk(s.me, SliceOf(s, k))
    requires Minted(s, k) && RecordOf(s.rows, k).None? ==> RecordOf(s'.rows, k).None?
    requires Minted(s, k) && RecordOf(s.rows, k).Some? ==>
               RecordOf(s'.rows, k) == RecordOf(s.rows, k)
               || (RecordOf(s'.rows, k).Some? && SameButLease(RecordOf(s.rows, k).value, RecordOf(s'.rows, k).value))
               || (RecordOf(s'.rows, k).Some? && Retired(RecordOf(s.rows, k).value, RecordOf(s'.rows, k).value))
    ensures SliceOk(s'.me, SliceOf(s', k))
  {
    hide RecordOf, RunOk, FinalOk, ToldOk, TagOfDecision;
    var x, y := SliceOf(s, k), SliceOf(s', k);
    assert RunOk(y.entry, y.scan) && FinalOk(y.entry);
    assert ToldOk(y) by { SameTelling(x, y); }
    assert x.entry.mint == MintCommitted && !x.lost && x.record.value.state == WQueued ==> x.entry.final.value.outcome.Family() == Queue by {
      QueuedIsQueue(x);
    }
  }

  lemma SameTelling(x: Slice, y: Slice)
    requires ToldOk(x) && y == x.(record := y.record)
    ensures ToldOk(y)
  {
  }

  /** Only a queue decision leaves a row queued. */
  lemma QueuedIsQueue(x: Slice)
    ensures x.record.Some? && x.record.value.state == WQueued && RowOk(x, x.record.value) ==>
              x.entry.final.Some? && x.entry.final.value.Decide? && x.entry.final.value.outcome.Family() == Queue
  {
    hide TagOfDecision;
  }

  lemma RenewsKeeps(s: Sys, lease: real)
    requires Invariant(s)
    ensures Invariant(s.(rows := Renew(s.rows, s.me, lease)))
  {
    hide ReadRow, Invariant, RenewRow;
    forall k | k in s.page.entries && RecordOf(s.rows, k).Some?
      ensures RecordOf(Renew(s.rows, s.me, lease), k).Some?
              && SameButLease(RecordOf(s.rows, k).value, RecordOf(Renew(s.rows, s.me, lease), k).value)
    {
      ReadableParts(s.rows, k);
      RenewedReads(s.rows[k].fields, lease);
    }
    UnreadStaysUnread(s.rows, s.me, lease);
    RowsSuffice(s, s.(rows := Renew(s.rows, s.me, lease)));
  }

  lemma UnreadStaysUnread(rows: Rows, me: string, lease: real)
    ensures forall k | RecordOf(rows, k).None? :: RecordOf(Renew(rows, me, lease), k).None?
  {
    hide ReadRow, RenewRow;
  }

  lemma RetiresKeeps(s: Sys, plan: Plan)
    requires Invariant(s) && (forall id | id in plan :: plan[id] in RESULTS) && Retire(s.rows, s.legacy, plan).Some?
    ensures Invariant(s.(rows := Retire(s.rows, s.legacy, plan).value))
  {
    hide RecordOf, Invariant, Retire;
    forall k | k in s.page.entries && Minted(s, k) && RecordOf(s.rows, k).Some?
      ensures var r := RecordOf(Retire(s.rows, s.legacy, plan).value, k);
              r == RecordOf(s.rows, k) || (r.Some? && Retired(RecordOf(s.rows, k).value, r.value))
    {
      NotLegacy(s, k);
      RetiredRecord(s.rows, s.legacy, plan, k);
    }
    forall k | k in s.page.entries && Minted(s, k) && RecordOf(s.rows, k).None?
      ensures RecordOf(Retire(s.rows, s.legacy, plan).value, k).None?
    {
      NotLegacy(s, k);
      UnreadIsNotRetired(s.rows, s.legacy, plan, k);
    }
    RowsSuffice(s, s.(rows := Retire(s.rows, s.legacy, plan).value));
  }

  lemma NotLegacy(s: Sys, id: string)
    requires Invariant(s) && Minted(s, id)
    ensures id !in s.legacy
  {
    hide RunOk, FinalOk, MarkOk, ToldOk, RowOk, RecordOf, Invariant;
    SliceAt(s, id);
  }

  lemma RetiredRecord(rows: Rows, legacy: Legacy, plan: Plan, k: string)
    requires (forall id | id in plan :: plan[id] in RESULTS) && Retire(rows, legacy, plan).Some?
    requires RecordOf(rows, k).Some? && k !in legacy
    ensures var r := RecordOf(Retire(rows, legacy, plan).value, k);
            r == RecordOf(rows, k) || (r.Some? && Retired(RecordOf(rows, k).value, r.value))
  {
    hide ReadRow, ReconcileRow, AlreadyRetired;
    ReadableParts(rows, k);
    if k in plan && Retirable(rows, legacy, k) {
      RetiredReads(rows[k].fields, plan[k]);
    }
  }

  lemma UnreadIsNotRetired(rows: Rows, legacy: Legacy, plan: Plan, k: string)
    requires Retire(rows, legacy, plan).Some? && RecordOf(rows, k).None? && k !in legacy
    ensures RecordOf(Retire(rows, legacy, plan).value, k).None?
  {
    hide ReadRow, ReconcileRow, AlreadyRetired;
  }

  /** Recovery never touches a row of the page: its lock is held while it has one. */
  lemma RecoversKeeps(s: Sys, id: string, tab: string, dead: Value, reload: Option<string>, now: real)
    requires Invariant(s) && Enabled(s, Recovers(id, tab, dead, reload, now))
    ensures !Minted(s, id) && Invariant(Next(s, Recovers(id, tab, dead, reload, now)))
  {
    hide ReadRow, Invariant, RecoverRow, RowOk, RunOk, FinalOk, MarkOk, ToldOk;
    if id in s.page.entries {
      SliceAt(s, id);
    }
    RowsSuffice(s, Next(s, Recovers(id, tab, dead, reload, now)));
  }

  lemma OtherTabKeeps(s: Sys, id: string, v: Value)
    requires Invariant(s) && Enabled(s, OtherTab(id, v))
    ensures Invariant(Next(s, OtherTab(id, v)))
  {
    hide ReadRow, Invariant;
    RowsSuffice(s, Next(s, OtherTab(id, v)));
  }

  lemma LockKeeps(s: Sys, a: Step)
    requires Invariant(s) && Enabled(s, a) && (a.LockPage? || a.SetReady?)
    ensures Invariant(Next(s, a))
  {
    hide SliceOk, RecordOf;
    forall k | k in s.page.entries
      ensures k in s.scans && SliceOf(Next(s, a), k) == SliceOf(s, k) && SliceOk(s.me, SliceOf(s, k))
    {
    }
  }

  /** A deletion takes every row of the page, and changes nothing the page knows. */
  lemma DeletesKeeps(s: Sys)
    requires Invariant(s) && Enabled(s, Deletes)
    ensures Invariant(Deleted(s))
  {
    hide SliceOk, RecordOf;
    var s' := Deleted(s);
    forall k | k in s'.page.entries
      ensures k in s'.scans && SliceOk(s'.me, SliceOf(s', k))
    {
      DeletedSlice(s, k);
    }
  }

  lemma DeletedSlice(s: Sys, k: string)
    requires Invariant(s) && Enabled(s, Deletes) && k in s.page.entries
    ensures k in s.scans && SliceOk(s.me, SliceOf(Deleted(s), k))
  {
    hide SliceOk, ReadRow, Invariant;
    SliceAt(s, k);
    DeletedSliceOk(s.me, SliceOf(s, k), SliceOf(Deleted(s), k));
  }

  lemma DeletedSliceOk(me: string, x: Slice, y: Slice)
    requires SliceOk(me, x) && x.entry.mark != MarkPending
    requires y == x.(record := None, isLegacy := false, lost := x.lost || x.entry.mint == MintCommitted)
    ensures SliceOk(me, y)
  {
    hide TagOk, DecisionFits, RowOk;
  }

  lemma MintStepKeeps(s: Sys, a: Step)
    requires Invariant(s) && Enabled(s, a) && (a.Capture? || a.MintStarts? || a.MintCommits? || a.MintAborts?)
    ensures Invariant(Next(s, a))
  {
    hide Invariant, CapturedOk, MintEnded, Captures, StartMint, AbortMint;
    match a {
      case Capture(c) => CaptureKeeps(s, c);
      case MintStarts(id) => MintStartsKeeps(s, id);
      case MintCommits(id, lease) => MintCommitsKeeps(s, id, lease);
      case MintAborts(id) => MintAbortsKeeps(s, id);
    }
  }

  lemma RunStepKeeps(s: Sys, a: Step)
    requires Invariant(s) && Enabled(s, a)
    requires a.Sends? || a.Responds? || a.Accepts? || a.StopsAfterDenial? || a.ShowsAccepted? || a.ShowsOther?
    ensures Invariant(Next(s, a))
  {
    hide Invariant, Told, Ran;
    match a {
      case Sends(id) => RunStepsKeep(s, id, s.scans[id].run.(sent := true));
      case Responds(id, status) => RunStepsKeep(s, id, s.scans[id].run.(status := Some(status)));
      case Accepts(id) => RunStepsKeep(s, id, s.scans[id].run.(accepted := true));
      case StopsAfterDenial(id) => TellingKeeps(s, id, true, ShownOther);
      case ShowsAccepted(id) => TellingKeeps(s, id, s.scans[id].stopped, ShownAccepted);
      case ShowsOther(id) => TellingKeeps(s, id, s.scans[id].stopped, ShownOther);
    }
  }

  lemma MarkStepKeeps(s: Sys, a: Step)
    requires Invariant(s) && Enabled(s, a)
    requires a.BeginsMarking? || a.MarkStarts? || a.MarkReads? || a.MarkCommits? || a.MarkAborts?
    ensures Invariant(Next(s, a))
  {
    hide Invariant, MarkEnded, MarkDropped, BeginMarking, StartMark, ReserveBody;
    match a {
      case BeginsMarking(id) => BeginsMarkingKeeps(s, id);
      case MarkStarts(id) => MarkStartsKeeps(s, id);
      case MarkReads(id) => MarkReadsKeeps(s, id);
      case MarkCommits(id, at) => MarkCommitsKeeps(s, id, at);
      case MarkAborts(id) => MarkAbortsKeeps(s, id);
    }
  }

  lemma DecisionStepKeeps(s: Sys, a: Step)
    requires Invariant(s) && Enabled(s, a) && (a.Decides? || a.LearnsReason? || a.Writes? || a.WritesReason?)
    ensures Invariant(Next(s, a))
  {
    hide Invariant, CanLatch, Decided, WriteDecision, WriteReason, CaptureReason, CanAttempt, CanEnrich;
    match a {
      case Decides(id, o, at, stop) =>
        if id in s.page.entries {
          DecidesKeeps(s, id, o, at, stop);
        } else {
          DecidesAborted(s, id, o, at, stop);
        }
      case LearnsReason(id, reason) => LearnsReasonKeeps(s, id, reason);
      case Writes(id, fate) => WritesKeeps(s, id, fate);
      case WritesReason(id, fate) => WritesReasonKeeps(s, id, fate);
    }
  }

  lemma TableStepKeeps(s: Sys, a: Step)
    requires Invariant(s) && Enabled(s, a)
    requires a.LockPage? || a.SetReady? || a.Renews? || a.Recovers? || a.Retires? || a.OtherTab? || a.Deletes?
    ensures Invariant(Next(s, a))
  {
    hide Invariant, Renew, Retire, Recover, ReadRow, Deleted, InFlight;
    match a {
      case LockPage => LockKeeps(s, a);
      case SetReady(_) => LockKeeps(s, a);
      case Renews(lease) => RenewsKeeps(s, lease);
      case Recovers(id, tab, dead, reload, now) => RecoversKeeps(s, id, tab, dead, reload, now);
      case Retires(plan) => RetiresKeeps(s, plan);
      case OtherTab(id, v) => OtherTabKeeps(s, id, v);
      case Deletes => DeletesKeeps(s);
    }
  }

  /** Every step keeps the invariant. */
  lemma StepKeepsInvariant(s: Sys, a: Step)
    requires Invariant(s) && Enabled(s, a)
    ensures Invariant(Next(s, a))
  {
    hide Invariant, Enabled, Next;
    if a.Capture? || a.MintStarts? || a.MintCommits? || a.MintAborts? {
      MintStepKeeps(s, a);
    } else if a.Sends? || a.Responds? || a.Accepts? || a.StopsAfterDenial? || a.ShowsAccepted? || a.ShowsOther? {
      RunStepKeeps(s, a);
    } else if a.BeginsMarking? || a.MarkStarts? || a.MarkReads? || a.MarkCommits? || a.MarkAborts? {
      MarkStepKeeps(s, a);
    } else if a.Decides? || a.LearnsReason? || a.Writes? || a.WritesReason? {
      DecisionStepKeeps(s, a);
    } else {
      TableStepKeeps(s, a);
    }
  }

  // ---------------------------------------------------------------- runs

  /** A page that has just started: nothing captured, no lock yet. */
  ghost predicate Start(s: Sys) {
    s.page == Page(map[], map[], {}, false) && s.scans == map[] && s.staged == map[] && s.results == map[] && s.me != "" && !s.ready
    && s.lost == {}
  }

  ghost predicate IsRun(run: seq<Step>, states: seq<Sys>) {
    && |states| == |run| + 1 && Start(states[0])
    && forall i | 0 <= i < |run| :: Enabled(states[i], run[i]) && states[i + 1] == Next(states[i], run[i])
  }

  lemma {:induction false} RunKeepsInvariant(run: seq<Step>, states: seq<Sys>, i: nat)
    requires IsRun(run, states) && i <= |run|
    ensures Invariant(states[i])
  {
    hide Enabled, Next, SliceOk;
    if i > 0 {
      RunKeepsInvariant(run, states, i - 1);
      StepKeepsInvariant(states[i - 1], run[i - 1]);
    }
  }

  // ---------------------------------------------------------------- the latch rule

  lemma MarkEndKeepsDecisions(s: Sys, id: string, at: string)
    requires Apart(s.page) && id in s.page.entries && id in s.staged
    ensures KeepsDecisions(s.page, MarkEnded(s, id, at).page) && KeepsDecisions(s.page, MarkDropped(s, id).page)
  {
    hide Reserve, RecordOf, KeepsDecisions, SettleMark;
    SamePageKeeps(s.page, s.page);
    SettlingKeepsDecisions(s.page, id, None);
    SettlingKeepsDecisions(s.page, id, Some(Text(at)));
    if s.staged[id].AlreadyActuated? {
      SettlingKeepsDecisions(s.page, id, Some(s.staged[id].decidedAt));
    }
  }

  lemma WriteKeepsDecisions(s: Sys, id: string, fate: Fate)
    requires id in s.page.entries
    ensures CanAttempt(s.page.entries[id]) ==> KeepsDecisions(s.page, WriteDecision(s, id, fate).page)
    ensures CanEnrich(s.page.entries[id]) ==> KeepsDecisions(s.page, WriteReason(s, id, fate).page)
  {
    hide Persist, Enrich, KeepsDecisions, Attempted, Enriched;
    var e := s.page.entries[id];
    AttemptsKeepDecisions(s.page, id, NoWriter);
    AttemptsKeepDecisions(s.page, id, Threw);
    if e.final.Some? && e.final.value.Decide? {
      var o, at := e.final.value.outcome, e.final.value.decidedAt;
      AttemptsKeepDecisions(s.page, id, Answered(Persist(s.rows, s.me, id, o, at).0));
      AttemptsKeepDecisions(s.page, id, Answered(Enrich(s.rows, s.me, id, o, at, e.reason).0));
    }
  }

  lemma WritesKeepDecisions(s: Sys, a: Step)
    requires Apart(s.page) && Enabled(s, a) && (a.MarkCommits? || a.MarkAborts? || a.Writes? || a.WritesReason?)
    ensures KeepsDecisions(s.page, Next(s, a).page)
  {
    hide KeepsDecisions, MarkEnded, MarkDropped, WriteDecision, WriteReason, CanAttempt, CanEnrich, SettleMark;
    match a {
      case MarkCommits(id, at) => MarkEndKeepsDecisions(s, id, at);
      case MarkAborts(id) => DroppedKeepsDecisions(s, id);
      case Writes(id, fate) => WriteKeepsDecisions(s, id, fate);
      case WritesReason(id, fate) => WriteKeepsDecisions(s, id, fate);
    }
  }

  lemma DroppedKeepsDecisions(s: Sys, id: string)
    requires Apart(s.page) && id in s.page.entries
    ensures KeepsDecisions(s.page, MarkDropped(s, id).page)
  {
    hide KeepsDecisions, SettleMark;
    SettlingKeepsDecisions(s.page, id, None);
  }

  lemma PageStepsKeepDecisions(s: Sys, a: Step)
    requires Apart(s.page) && Enabled(s, a)
    requires a.Capture? || a.MintStarts? || a.MintCommits? || a.MintAborts? || a.BeginsMarking? || a.MarkStarts?
             || a.Decides? || a.LearnsReason?
    ensures KeepsDecisions(s.page, Next(s, a).page)
  {
    hide CanLatch, KeepsDecisions, Register, StartMint, CommitMint, AbortMint, BeginMarking, StartMark, Latch, CaptureReason, MintRow;
    match a {
      case Capture(c) => RegisterKeeps(s.page, c);
      case MintStarts(id) => MintKeepsDecisions(s.page, id);
      case MintCommits(id, _) => MintKeepsDecisions(s.page, id);
      case MintAborts(id) => AbortKeepsDecisions(s.page, id);
      case BeginsMarking(id) => MarkingKeepsDecisions(s.page, id);
      case MarkStarts(id) => MarkingKeepsDecisions(s.page, id);
      case Decides(id, o, at, _) => LatchKeepsDecisions(s.page, id, o, at);
      case LearnsReason(id, reason) => ReasonKeepsDecisions(s.page, id, reason);
    }
  }

  lemma OtherStepsKeepDecisions(s: Sys, a: Step)
    requires Enabled(s, a)
    requires !a.Capture? && !a.MintStarts? && !a.MintCommits? && !a.MintAborts? && !a.BeginsMarking? && !a.MarkStarts?
    requires !a.Decides? && !a.LearnsReason? && !a.MarkCommits? && !a.MarkAborts? && !a.Writes? && !a.WritesReason?
    ensures KeepsDecisions(s.page, Next(s, a).page)
  {
    hide KeepsDecisions, Recover, Retire, Renew, ReserveBody, ReadRow;
    SamePageKeeps(s.page, Next(s, a).page);
  }

  /** No step takes back a decision or a committed mint. */
  lemma StepKeepsDecisions(s: Sys, a: Step)
    requires Apart(s.page) && Enabled(s, a)
    ensures KeepsDecisions(s.page, Next(s, a).page)
  {
    hide Enabled, Next, KeepsDecisions;
    if a.MarkCommits? || a.MarkAborts? || a.Writes? || a.WritesReason? {
      WritesKeepDecisions(s, a);
    } else if a.Capture? || a.MintStarts? || a.MintCommits? || a.MintAborts? || a.BeginsMarking? || a.MarkStarts?
              || a.Decides? || a.LearnsReason? {
      PageStepsKeepDecisions(s, a);
    } else {
      OtherStepsKeepDecisions(s, a);
    }
  }

  lemma InvariantIsApart(s: Sys)
    requires Invariant(s)
    ensures Apart(s.page) && forall k | k in s.scans :: Known(s.page, k)
  {
    hide SliceOk;
  }

  lemma DecisionKept(p: Page, q: Page, id: string)
    requires KeepsDecisions(p, q)
    ensures Latched(p, id).Some? ==> Latched(q, id) == Latched(p, id)
    ensures id in p.entries && p.entries[id].mint == MintCommitted ==> id in q.entries && q.entries[id].mint == MintCommitted
  {
    hide Latched;
  }

  /** The latch rule: in every interleaving, the first final decision of an occurrence stays
      fixed for the life of the page. */
  lemma {:induction false} LatchedDecisionNeverChanges(run: seq<Step>, states: seq<Sys>, i: nat, j: nat, id: string, f: Final)
    requires IsRun(run, states) && i <= j <= |run| && Latched(states[i].page, id) == Some(f)
    ensures Latched(states[j].page, id) == Some(f)
  {
    hide Enabled, Next, Invariant, Latched, KeepsDecisions;
    if i < j {
      LatchedDecisionNeverChanges(run, states, i, j - 1, id, f);
      RunKeepsInvariant(run, states, j - 1);
      InvariantIsApart(states[j - 1]);
      StepKeepsDecisions(states[j - 1], run[j - 1]);
      DecisionKept(states[j - 1].page, states[j].page, id);
    }
  }

  // ---------------------------------------------------------------- deletion

  /** The database was deleted after the mint of this occurrence had committed. */
  ghost predicate DeletedSince(run: seq<Step>, states: seq<Sys>, i: nat, id: string)
    requires IsRun(run, states) && i <= |run|
  {
    exists k | 0 <= k < i :: run[k].Deletes? && Minted(states[k], id)
  }

  lemma StepKeepsLost(s: Sys, a: Step)
    requires Enabled(s, a)
    ensures !a.Deletes? ==> Next(s, a).lost == s.lost
    ensures a.Deletes? ==> forall id :: id in Next(s, a).lost <==> id in s.lost || Minted(s, id)
  {
    hide CanLatch, ReserveBody, Captures, StartMint, AbortMint, BeginMarking, StartMark, Decided, CaptureReason, MarkDropped, Told, Ran,
         Recover, Retire, Renew, ReadRow, MintEnded, MarkEnded, WriteDecision, WriteReason, CanAttempt, CanEnrich;
    TransactionsLeaveLost(s, a);
  }

  lemma TransactionsLeaveLost(s: Sys, a: Step)
    requires Enabled(s, a)
    ensures a.MintCommits? ==> MintEnded(s, a.id, a.lease).lost == s.lost
    ensures a.MarkCommits? ==> MarkEnded(s, a.id, a.at).lost == s.lost
    ensures a.MarkAborts? ==> MarkDropped(s, a.id).lost == s.lost
    ensures a.Writes? ==> WriteDecision(s, a.id, a.fate).lost == s.lost
    ensures a.WritesReason? ==> WriteReason(s, a.id, a.fate).lost == s.lost
    ensures a.Capture? ==> Captures(s, a.c).lost == s.lost
    ensures a.Decides? ==> Decided(s, a.id, a.outcome, a.at, a.stop).lost == s.lost
    ensures forall id, run | id in s.scans :: Ran(s, id, run).lost == s.lost
    ensures forall id, stopped, shown | id in s.scans :: Told(s, id, stopped, shown).lost == s.lost
  {
    hide Next, RecordOf, Reserve, Persist, Enrich, MintRow, SettleMark, CommitMint, Attempted, Enriched, Register, Latch, CanLatch;
  }

  lemma {:induction false} LostIsDeleted(run: seq<Step>, states: seq<Sys>, i: nat, id: string)
    requires IsRun(run, states) && i <= |run|
    ensures id in states[i].lost <==> DeletedSince(run, states, i, id)
  {
    hide Enabled, Next, Minted;
    if i > 0 {
      LostIsDeleted(run, states, i - 1, id);
      StepKeepsLost(states[i - 1], run[i - 1]);
    }
  }

  // ---------------------------------------------------------------- what is stored

  /** The exact condition for a row to be there: in every state of every run, the row of a
      minted occurrence is missing if and only if the database was deleted after its mint
      committed.  Otherwise it is the page's own, and it holds no decision yet, or the latched
      one, or the latched denial with its reason added, or an actuation whose mark committed
      behind another decision; and what the page believes durable is. */
  lemma StoredIsLatched(run: seq<Step>, states: seq<Sys>, i: nat, id: string)
    requires IsRun(run, states) && i <= |run| && Minted(states[i], id)
    ensures RecordOf(states[i].rows, id).None? <==> DeletedSince(run, states, i, id)
    ensures states[i].page.entries[id].durable == Unrepairable ==> DeletedSince(run, states, i, id)
    ensures !DeletedSince(run, states, i, id) ==>
              var s := states[i];
              var e, r := s.page.entries[id], RecordOf(s.rows, id);
              && r.value.owner == Text(s.me)
              && (e.durable == Committed <==> r.value.state != WPending && e.durable != SettledAsActuation)
              && (e.durable == SettledAsActuation ==> r.value.state == WActuated)
              && (r.value.state != WPending ==> e.final.Some?)
              && (e.final.Some? && e.final.value.Act? ==> r.value.state == WActuated)
              && (r.value.state != WPending && r.value.state != WActuated ==>
                    e.final.value.Decide? && TagOfDecision(r.value.tag, e.final.value.outcome)
                    && r.value.decidedAt == Text(e.final.value.decidedAt))
  {
    hide TagOk, DecisionFits, RecordOf, Invariant, IsRun, TagOfDecision, DeletedSince;
    RunKeepsInvariant(run, states, i);
    Bounds(run, states, i);
    SliceAt(states[i], id);
    LostIsDeleted(run, states, i, id);
  }

  /** The exact condition for a write beyond repair: a completed write of a latched decision
      ends unrepairable if and only if the database was deleted after the mint committed. */
  lemma UnrepairableIff(run: seq<Step>, states: seq<Sys>, i: nat, id: string)
    requires IsRun(run, states) && i < |run| && run[i] == Writes(id, Commits) && NeedsWrite(states[i].page.entries[id])
    ensures id in states[i + 1].page.entries
    ensures states[i + 1].page.entries[id].durable == Unrepairable <==> DeletedSince(run, states, i, id)
  {
    hide TagOk, DecisionFits, RecordOf, Invariant, TagOfDecision, DeletedSince, Persist, Outcome.Tag, DecideRow;
    RunKeepsInvariant(run, states, i);
    LostIsDeleted(run, states, i, id);
    SliceAt(states[i], id);
    if id in states[i].lost {
      UnrepairableWriteKeeps(states[i], id);
    } else {
      NeededWriteChanges(states[i], id);
    }
  }

  lemma Bounds(run: seq<Step>, states: seq<Sys>, i: nat)
    requires IsRun(run, states) && i <= |run|
    ensures i < |states|
  {
  }

  /** A live page's rows are never recovered: none that is there carries the recovery tag. */
  lemma LiveRowsAreNeverRecovered(run: seq<Step>, states: seq<Sys>, i: nat, id: string)
    requires IsRun(run, states) && i <= |run| && Minted(states[i], id)
    ensures RecordOf(states[i].rows, id).Some? ==> !Recovered(RecordOf(states[i].rows, id).value.tag)
  {
    hide TagOk, DecisionFits, RecordOf, Invariant, Outcome.Tag, Recovered;
    RunKeepsInvariant(run, states, i);
    SliceAt(states[i], id);
    if id !in states[i].lost {
      var e, r := states[i].page.entries[id], RecordOf(states[i].rows, id).value;
      RecoveredIsItsOwn(Reserved);
      NothingRecovered();
      if r.state != WPending && r.state != WActuated {
        DecisionIsNotRecovery(r.tag, e.final.value.outcome);
      }
    }
  }

  lemma NothingRecovered()
    ensures !Recovered(map[])
  {
  }

  lemma DecisionIsNotRecovery(tag: Fields, o: Outcome)
    requires TagOfDecision(tag, o) && o != UncertainRecovery
    ensures !Recovered(tag)
  {
    hide Outcome.Tag;
    RecoveredIsItsOwn(o);
    assert Get(tag, KFamily) == Get(o.Tag(), KFamily) && Get(tag, KCause) == Get(o.Tag(), KCause);
  }

  // ---------------------------------------------------------------- actuation

  lemma StepKeepsMinted(s: Sys, a: Step, id: string)
    requires Invariant(s) && Enabled(s, a) && Minted(s, id)
    ensures Minted(Next(s, a), id)
  {
    hide Invariant, Enabled, Next, KeepsDecisions;
    InvariantIsApart(s);
    StepKeepsDecisions(s, a);
    DecisionKept(s.page, Next(s, a).page, id);
  }

  /** The exact condition for one step: an actuated row of the page stays as it is, never
      queued, resolved or rewritten, if and only if the step is not the deletion. */
  lemma ActuatedStaysIff(s: Sys, a: Step, id: string)
    requires Invariant(s) && Enabled(s, a) && Minted(s, id) && RecordOf(s.rows, id).Some?
    requires RecordOf(s.rows, id).value.state == WActuated
    ensures RecordOf(Next(s, a).rows, id) == RecordOf(s.rows, id) <==> !a.Deletes?
  {
    hide Invariant, Enabled, RecordOf;
    if a.Deletes? {
      NothingRead(id);
      assert Next(s, a).rows == map[];
      return;
    }
    hide Next;
    if a.Renews? || a.Recovers? || a.Retires? || a.OtherTab? {
      TableKeepsActuated(s, a, id);
    } else if a.Writes? || a.WritesReason? {
      WriteKeepsActuated(s, a, id);
    } else if a.MarkCommits? || a.MintCommits? {
      TransactionKeepsActuated(s, a, id);
    } else {
      PageKeepsRows(s, a, id);
    }
  }

  lemma NothingRead(id: string)
    ensures RecordOf(map[], id).None?
  {
  }

  lemma PageKeepsRows(s: Sys, a: Step, id: string)
    requires Enabled(s, a)
    requires !a.Renews? && !a.Recovers? && !a.Retires? && !a.OtherTab? && !a.Deletes?
    requires !a.MarkCommits? && !a.Writes? && !a.WritesReason? && !a.MintCommits?
    ensures Next(s, a).rows == s.rows
  {
    hide CanLatch, ReserveBody, Captures, StartMint, AbortMint, BeginMarking, StartMark, Decided, CaptureReason, MarkDropped, Told, Ran;
    PageFunctionsLeaveRows(s, a);
  }

  lemma PageFunctionsLeaveRows(s: Sys, a: Step)
    requires Enabled(s, a)
    ensures a.Capture? ==> Captures(s, a.c).rows == s.rows
    ensures a.MarkAborts? ==> MarkDropped(s, a.id).rows == s.rows
    ensures a.Decides? ==> Decided(s, a.id, a.outcome, a.at, a.stop).rows == s.rows
    ensures forall id, run | id in s.scans :: Ran(s, id, run).rows == s.rows
    ensures forall id, stopped, shown | id in s.scans :: Told(s, id, stopped, shown).rows == s.rows
  {
    hide Next, Register, SettleMark, Latch, CanLatch;
  }

  lemma TableKeepsActuated(s: Sys, a: Step, id: string)
    requires Invariant(s) && Enabled(s, a) && Minted(s, id) && RecordOf(s.rows, id).Some?
    requires RecordOf(s.rows, id).value.state == WActuated
    requires a.Renews? || a.Recovers? || a.Retires? || a.OtherTab?
    ensures RecordOf(Next(s, a).rows, id) == RecordOf(s.rows, id)
  {
    hide ReadRow, Invariant, ReconcileRow, RenewRow, RecoverRow, AlreadyRetired, Retirable;
    if a.Recovers? {
      RecoversKeeps(s, a.id, a.tab, a.dead, a.reload, a.now);
    }
    if a.Retires? {
      NotLegacy(s, id);
      NotRetirable(s.rows, s.legacy, id);
    }
  }

  lemma NotRetirable(rows: Rows, legacy: Legacy, id: string)
    requires id !in legacy && RecordOf(rows, id).Some? && RecordOf(rows, id).value.state != WQueued
    ensures !Retirable(rows, legacy, id)
  {
    hide ReadRow;
  }

  lemma WriteKeepsActuated(s: Sys, a: Step, id: string)
    requires Invariant(s) && Enabled(s, a) && Minted(s, id) && RecordOf(s.rows, id).Some?
    requires RecordOf(s.rows, id).value.state == WActuated
    requires a.Writes? || a.WritesReason?
    ensures RecordOf(Next(s, a).rows, id) == RecordOf(s.rows, id)
  {
    hide RecordOf, Invariant, WriteDecision, WriteReason, CanAttempt, CanEnrich;
    if a.Writes? {
      DecisionKeepsActuated(s, a.id, a.fate, id);
    } else {
      ReasonKeepsActuated(s, a.id, a.fate, id);
    }
  }

  lemma DecisionKeepsActuated(s: Sys, at: string, fate: Fate, id: string)
    requires Invariant(s) && at in s.page.entries && CanAttempt(s.page.entries[at])
    requires Minted(s, id) && RecordOf(s.rows, id).Some? && RecordOf(s.rows, id).value.state == WActuated
    ensures RecordOf(WriteDecision(s, at, fate).rows, id) == RecordOf(s.rows, id)
  {
    hide RecordOf, Invariant, Persist, Attempted, TagOk, DecisionFits, Outcome.Tag, DecideRow;
    if NeedsWrite(s.page.entries[at]) && fate == Commits {
      if at in s.lost {
        LostRowIsMissing(s, at);
      } else {
        NeededWriteChanges(s, at);
        OtherRows(s.rows, WriteDecision(s, at, fate).rows, at);
        if at == id {
          ActuatedNeedsNoWrite(s, id);
        }
      }
    }
  }

  lemma ActuatedNeedsNoWrite(s: Sys, id: string)
    requires Invariant(s) && Minted(s, id) && RecordOf(s.rows, id).Some? && RecordOf(s.rows, id).value.state == WActuated
    ensures !NeedsWrite(s.page.entries[id])
  {
    hide RecordOf, Invariant, TagOk, DecisionFits;
    SliceAt(s, id);
  }

  lemma ReasonKeepsActuated(s: Sys, at: string, fate: Fate, id: string)
    requires Invariant(s) && at in s.page.entries && CanEnrich(s.page.entries[at])
    requires Minted(s, id) && RecordOf(s.rows, id).Some? && RecordOf(s.rows, id).value.state == WActuated
    ensures RecordOf(WriteReason(s, at, fate).rows, id) == RecordOf(s.rows, id)
  {
    hide RecordOf, Invariant, Enrich, Enriched, TagOk, DecisionFits, Outcome.Tag, EnrichRow;
    if fate == Commits {
      EnrichmentReads(s, at);
      if WriteReason(s, at, fate).rows != s.rows {
        OtherRows(s.rows, WriteReason(s, at, fate).rows, at);
        if at == id {
          ActuatedIsNoDenial(s, id);
        }
      }
    }
  }

  lemma ActuatedIsNoDenial(s: Sys, id: string)
    requires Invariant(s) && Minted(s, id) && RecordOf(s.rows, id).Some? && RecordOf(s.rows, id).value.state == WActuated
    ensures !(CanEnrich(s.page.entries[id]) && s.page.entries[id].final.value.outcome.Denied?)
  {
    hide RecordOf, Invariant, TagOk, DecisionFits;
    SliceAt(s, id);
  }

  lemma TransactionKeepsActuated(s: Sys, a: Step, id: string)
    requires Invariant(s) && Enabled(s, a) && Minted(s, id) && RecordOf(s.rows, id).Some?
    requires RecordOf(s.rows, id).value.state == WActuated
    requires a.MarkCommits? || a.MintCommits?
    ensures RecordOf(Next(s, a).rows, id) == RecordOf(s.rows, id)
  {
    hide RecordOf, Invariant, Reserve, SettleMark, MintRow, CommitMint;
    if a.MarkCommits? {
      MarkedIsPending(s, a.id);
      if s.staged[a.id].WillReserve? {
        ReservedRecord(s.rows, a.id, a.at);
      }
    } else {
      OtherRows(s.rows, Next(s, a).rows, a.id);
    }
  }

  /** Until the database is deleted, an actuated row of the page stays as it is. */
  lemma {:induction false} ActuatedStays(run: seq<Step>, states: seq<Sys>, i: nat, j: nat, id: string)
    requires IsRun(run, states) && i <= j <= |run| && Minted(states[i], id)
    requires RecordOf(states[i].rows, id).Some? && RecordOf(states[i].rows, id).value.state == WActuated
    requires forall k | i <= k < j :: !run[k].Deletes?
    ensures Minted(states[j], id) && RecordOf(states[j].rows, id) == RecordOf(states[i].rows, id)
  {
    hide Enabled, Next, Invariant, RecordOf, Minted;
    if i < j {
      ActuatedStays(run, states, i, j - 1, id);
      RunKeepsInvariant(run, states, j - 1);
      StepKeepsMinted(states[j - 1], run[j - 1], id);
      ActuatedStaysIff(states[j - 1], run[j - 1], id);
    }
  }

  lemma DecidedScans(s: Sys, id: string, o: Outcome, at: string, stop: bool)
    requires id in s.scans
    ensures Decided(s, id, o, at, stop).scans.Keys == s.scans.Keys
    ensures forall k | k in s.scans && k != id :: Decided(s, id, o, at, stop).scans[k] == s.scans[k]
  {
    hide Latch;
  }

  lemma DecidingKeepsTold(s: Sys, a: Step, id: string, shown: Shown)
    requires Enabled(s, a) && id in s.scans && s.scans[id].shown == Some(shown)
    requires a.Decides? || a.Sends? || a.Responds? || a.Accepts? || a.StopsAfterDenial? || a.ShowsAccepted? || a.ShowsOther? || a.Capture?
    requires forall k | k in s.scans :: Known(s.page, k)
    ensures id in Next(s, a).scans && Next(s, a).scans[id].shown == Some(shown)
  {
    hide CanLatch, Decided, Register;
    if a.Decides? {
      DecidedScans(s, a.id, a.outcome, a.at, a.stop);
    }
  }

  /** What was told to the operator is told once. */
  lemma StepKeepsTold(s: Sys, a: Step, id: string, shown: Shown)
    requires Enabled(s, a) && id in s.scans && s.scans[id].shown == Some(shown)
    requires forall k | k in s.scans :: Known(s.page, k)
    ensures id in Next(s, a).scans && Next(s, a).scans[id].shown == Some(shown)
  {
    hide CanLatch, Known;
    if a.Decides? || a.Sends? || a.Responds? || a.Accepts? || a.StopsAfterDenial? || a.ShowsAccepted? || a.ShowsOther? || a.Capture? {
      DecidingKeepsTold(s, a, id, shown);
    } else {
      ScansStay(s, a);
    }
  }

  lemma ScansStay(s: Sys, a: Step)
    requires Enabled(s, a)
    requires !a.Decides? && !a.Sends? && !a.Responds? && !a.Accepts? && !a.StopsAfterDenial? && !a.ShowsAccepted? && !a.ShowsOther? && !a.Capture?
    ensures Next(s, a).scans == s.scans
  {
    hide Recover, Retire, Renew, ReserveBody, ReadRow, MintEnded, MarkEnded, MarkDropped, WriteDecision, WriteReason, CanAttempt, CanEnrich,
         CaptureReason, StartMint, AbortMint, BeginMarking, StartMark;
    TransactionsLeaveScans(s, a);
  }

  lemma TransactionsLeaveScans(s: Sys, a: Step)
    requires Enabled(s, a)
    ensures a.MintCommits? ==> MintEnded(s, a.id, a.lease).scans == s.scans
    ensures a.MarkCommits? ==> MarkEnded(s, a.id, a.at).scans == s.scans
    ensures a.MarkAborts? ==> MarkDropped(s, a.id).scans == s.scans
    ensures a.Writes? ==> WriteDecision(s, a.id, a.fate).scans == s.scans
    ensures a.WritesReason? ==> WriteReason(s, a.id, a.fate).scans == s.scans
  {
    hide Next, RecordOf, Reserve, Persist, Enrich, MintRow, SettleMark, CommitMint, Attempted, Enriched;
  }

  lemma {:induction false} ToldOnce(run: seq<Step>, states: seq<Sys>, i: nat, j: nat, id: string, shown: Shown)
    requires IsRun(run, states) && i <= j <= |run| && id in states[i].scans && states[i].scans[id].shown == Some(shown)
    ensures id in states[j].scans && states[j].scans[id].shown == Some(shown)
  {
    hide Enabled, Next, Invariant;
    if i < j {
      ToldOnce(run, states, i, j - 1, id, shown);
      RunKeepsInvariant(run, states, j - 1);
      InvariantIsApart(states[j - 1]);
      StepKeepsTold(states[j - 1], run[j - 1], id, shown);
    }
  }

  /** Only the step that shows it tells "accepted". */
  lemma NewlyAccepted(s: Sys, a: Step, id: string)
    requires Invariant(s) && Enabled(s, a)
    requires id in Next(s, a).scans && Next(s, a).scans[id].shown == Some(ShownAccepted)
    requires !(id in s.scans && s.scans[id].shown == Some(ShownAccepted))
    ensures a == ShowsAccepted(id)
  {
    hide Invariant, CanLatch, Register, Decided;
    if a.Sends? || a.Responds? || a.Accepts? || a.StopsAfterDenial? || a.ShowsAccepted? || a.ShowsOther? || a.Capture? {
    } else if a.Decides? {
      InvariantIsApart(s);
      DecidedTellsOther(s, a.id, a.outcome, a.at, a.stop);
    } else {
      ScansStay(s, a);
    }
  }

  lemma DecidedTellsOther(s: Sys, id: string, o: Outcome, at: string, stop: bool)
    requires id in s.scans
    ensures var t := Decided(s, id, o, at, stop);
            && t.scans.Keys == s.scans.Keys && (forall k | k in s.scans && k != id :: t.scans[k] == s.scans[k])
            && (t.scans[id] == s.scans[id] || t.scans[id].shown == Some(ShownOther))
  {
    hide Latch;
  }

  /** Whoever was told "accepted" has a committed mint. */
  lemma {:induction false} AcceptedIsMinted(run: seq<Step>, states: seq<Sys>, i: nat, id: string)
    requires IsRun(run, states) && i <= |run| && id in states[i].scans && states[i].scans[id].shown == Some(ShownAccepted)
    ensures Minted(states[i], id)
  {
    hide Enabled, Next, Invariant, Minted, Start;
    if i == 0 {
      NobodyTold(states[0]);
    } else {
      var s, a := states[i - 1], run[i - 1];
      RunKeepsInvariant(run, states, i - 1);
      if id in s.scans && s.scans[id].shown == Some(ShownAccepted) {
        AcceptedIsMinted(run, states, i - 1, id);
      } else {
        NewlyAccepted(s, a, id);
        ShownIsMinted(s, id);
      }
      StepKeepsMinted(s, a, id);
    }
  }

  lemma NobodyTold(s: Sys)
    requires Start(s)
    ensures s.scans == map[]
  {
  }

  lemma ShownIsMinted(s: Sys, id: string)
    requires Invariant(s) && Enabled(s, ShowsAccepted(id))
    ensures Minted(s, id)
  {
    hide Invariant, TagOk, DecisionFits, RecordOf, RowOk;
    SliceAt(s, id);
  }

  /** "Accepted" is told at most once, never beside anything else, and only with actuation
      latched, which both stay; and with the page's own row committed as actuated, which is
      there in every later state exactly if the database was not deleted since the mint. */
  lemma AcceptedMeansActuated(run: seq<Step>, states: seq<Sys>, i: nat, j: nat, id: string)
    requires IsRun(run, states) && i <= j <= |run|
    requires id in states[i].scans && states[i].scans[id].shown == Some(ShownAccepted)
    ensures id in states[j].scans && states[j].scans[id].shown == Some(ShownAccepted)
    ensures Latched(states[j].page, id).Some? && Latched(states[j].page, id).value.Act?
    ensures RecordOf(states[j].rows, id).Some? && RecordOf(states[j].rows, id).value.state == WActuated
            <==> !DeletedSince(run, states, j, id)
  {
    hide Enabled, Next, Invariant, RecordOf, TagOk, DecisionFits, DeletedSince;
    ToldOnce(run, states, i, j, id, ShownAccepted);
    AcceptedIsMinted(run, states, j, id);
    RunKeepsInvariant(run, states, j);
    SliceAt(states[j], id);
    StoredIsLatched(run, states, j, id);
  }

  // ---------------------------------------------------------------- a mark follows an answer

  /** Only taking an accepted body in makes a run accepted. */
  lemma NewlyAnswered(s: Sys, a: Step, id: string)
    requires Invariant(s) && Enabled(s, a)
    requires id in Next(s, a).scans && Next(s, a).scans[id].run.accepted
    requires !(id in s.scans && s.scans[id].run.accepted)
    ensures a == Accepts(id)
  {
    hide Invariant, CanLatch, Register, Decided;
    if a.Sends? || a.Responds? || a.Accepts? || a.StopsAfterDenial? || a.ShowsAccepted? || a.ShowsOther? || a.Capture? {
    } else if a.Decides? {
      InvariantIsApart(s);
      DecidedRuns(s, a.id, a.outcome, a.at, a.stop);
    } else {
      ScansStay(s, a);
    }
  }

  lemma DecidedRuns(s: Sys, id: string, o: Outcome, at: string, stop: bool)
    requires id in s.scans
    ensures var t := Decided(s, id, o, at, stop);
            t.scans.Keys == s.scans.Keys && forall k | k in s.scans :: t.scans[k].run == s.scans[k].run
  {
    hide Latch;
  }

  lemma {:induction false} AcceptedWasAnswered(run: seq<Step>, states: seq<Sys>, i: nat, id: string)
    requires IsRun(run, states) && i <= |run| && id in states[i].scans && states[i].scans[id].run.accepted
    ensures exists k | 0 <= k < i :: run[k] == Accepts(id)
  {
    hide Enabled, Next, Invariant, Start;
    if i == 0 {
      NobodyTold(states[0]);
    } else {
      var s := states[i - 1];
      if id in s.scans && s.scans[id].run.accepted {
        AcceptedWasAnswered(run, states, i - 1, id);
      } else {
        RunKeepsInvariant(run, states, i - 1);
        NewlyAnswered(s, run[i - 1], id);
      }
    }
  }

  /** A row of the page is actuated only after its run took in an accepted body. */
  lemma ActuatedWasAnswered(run: seq<Step>, states: seq<Sys>, i: nat, id: string)
    requires IsRun(run, states) && i <= |run| && Minted(states[i], id)
    requires RecordOf(states[i].rows, id).Some? && RecordOf(states[i].rows, id).value.state == WActuated
    ensures exists k | 0 <= k < i :: run[k] == Accepts(id)
  {
    hide Enabled, Next, Invariant, RecordOf, TagOk, DecisionFits;
    RunKeepsInvariant(run, states, i);
    SliceAt(states[i], id);
    AcceptedWasAnswered(run, states, i, id);
  }
}
