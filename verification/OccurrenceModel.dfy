/** Scanner rows as they are stored, their validator, and every write the scanner makes. */
module OccurrenceModel {
  import opened Basics

  // ---------------------------------------------------------------- stored values

  /** Property names: those the format knows, and any other. */
  datatype Key =
    | KRecordFormat | KOccurrenceId | KQrPayload | KOccurredAt | KCreatedAt | KState | KActuated
    | KOwnerId | KLeaseExpiresAt | KDirection | KLocalDecision | KLocalOutcome | KDecidedAt | KResult
    | KFamily | KCause | KStatus | KLatchId | KReason | KRequestMayHaveBeenSent | KCheckpoint
    | KOther(name: string)

  /** The strings the format gives a meaning to.  `Text` is any other string. */
  datatype Word =
    | WPending | WActuated | WQueued | WSynced | WResolved | WEntry | WExit | WRevocationRefused
    | WQueue | WTerminal | WActuation | WTransportFailure | WServerUnavailable | WLocalRefusal | WUncertainRecovery
    | WDenied | WAuthRefused | WUnconfirmedAcceptedBody | WUnconfirmedServerError | WUnconfirmedStatus | WLocalFailure | WMarkFailure
    | WCancelled | WMintUnconfirmed | WStopped | WReserved | WDeadline | WClock | WFailure
    | WSend | WDecision | WRecorded | WSyncedResult | WConflict | WRejected

  /** A stored value of unknown provenance.  `Undefined` is both an absent property and a
      property that holds `undefined`; whether a property is there at all is `in`. */
  datatype Value =
    | Undefined | Null | Bool(b: bool) | Number(n: real) | NotFinite | Word(w: Word) | Text(s: string) | List
    | Object(fields: Fields)

  type Fields = map<Key, Value>

  function Get(f: Fields, key: Key): Value {
    if key in f then f[key] else Undefined
  }

  predicate NonEmpty(v: Value) {
    v.Word? || (v.Text? && v.s != "")
  }

  predicate IsStatus(v: Value, status: int) {
    v == Number(status as real)
  }

  // ---------------------------------------------------------------- outcomes

  datatype ScanType = NormalScan | RefusalScan

  datatype StopReason = Deadline | Clock | Failure
  {
    function Name(): Word {
      match this
      case Deadline => WDeadline
      case Clock => WClock
      case Failure => WFailure
    }
  }

  datatype Family = Queue | Terminal | Actuation
  {
    function Name(): Word {
      match this
      case Queue => WQueue
      case Terminal => WTerminal
      case Actuation => WActuation
    }
  }

  /** The local outcome tags. */
  datatype Outcome =
    | TransportFailure | ServerUnavailable(status: int) | LocalRefusal | UncertainRecovery
    | Denied(status: int, latchId: string, reason: Option<string>)
    | AuthRefused | UnconfirmedAcceptedBody | UnconfirmedServerError(status: int) | UnconfirmedStatus(status: int)
    | LocalFailure(sent: bool) | MarkFailure | Cancelled(sent: bool) | MintUnconfirmed
    | Stopped(atSend: bool, why: StopReason, sent: bool)
    | Reserved
  {
    function Family(): Family {
      match this
      case TransportFailure => Queue
      case ServerUnavailable(_) => Queue
      case LocalRefusal => Queue
      case UncertainRecovery => Queue
      case Reserved => Actuation
      case _ => Terminal
    }

    function Cause(): Word {
      match this
      case TransportFailure => WTransportFailure
      case ServerUnavailable(_) => WServerUnavailable
      case LocalRefusal => WLocalRefusal
      case UncertainRecovery => WUncertainRecovery
      case Denied(_, _, _) => WDenied
      case AuthRefused => WAuthRefused
      case UnconfirmedAcceptedBody => WUnconfirmedAcceptedBody
      case UnconfirmedServerError(_) => WUnconfirmedServerError
      case UnconfirmedStatus(_) => WUnconfirmedStatus
      case LocalFailure(_) => WLocalFailure
      case MarkFailure => WMarkFailure
      case Cancelled(_) => WCancelled
      case MintUnconfirmed => WMintUnconfirmed
      case Stopped(_, _, _) => WStopped
      case Reserved => WReserved
    }

    /** The tag as it is stored. */
    function Tag(): Fields {
      var base: Fields := map[KFamily := Word(Family().Name()), KCause := Word(Cause())];
      match this
      case ServerUnavailable(s) => base[KStatus := Number(s as real)]
      case Denied(s, latch, reason) =>
        base[KStatus := Number(s as real)][KLatchId := Text(latch)][KReason := if reason.Some? then Text(reason.value) else Null]
      case UnconfirmedServerError(s) => base[KStatus := Number(s as real)]
      case UnconfirmedStatus(s) => base[KStatus := Number(s as real)]
      case LocalFailure(sent) => base[KRequestMayHaveBeenSent := Bool(sent)]
      case Cancelled(sent) => base[KRequestMayHaveBeenSent := Bool(sent)]
      case Stopped(atSend, why, sent) =>
        base[KCheckpoint := Word(if atSend then WSend else WDecision)][KReason := Word(why.Name())][KRequestMayHaveBeenSent := Bool(sent)]
      case _ => base
    }
  }

  predicate QueueOk(o: Fields, scan: ScanType) {
    match Get(o, KCause)
    case Word(WTransportFailure) => scan == NormalScan
    case Word(WServerUnavailable) =>
      scan == NormalScan && (IsStatus(Get(o, KStatus), 502) || IsStatus(Get(o, KStatus), 503) || IsStatus(Get(o, KStatus), 504))
    case Word(WLocalRefusal) => scan == RefusalScan
    case Word(WUncertainRecovery) => true
    case _ => false
  }

  predicate ServerErrorStatus(v: Value) {
    v.Number? && (v.n == 500.0 || v.n == 501.0 || 505.0 <= v.n <= 599.0)
  }

  predicate OtherStatus(v: Value) {
    && v.Number? && v.n.Floor as real == v.n
    && !(500.0 <= v.n <= 599.0) && v.n != 200.0 && v.n != 401.0 && v.n != 409.0 && v.n != 422.0
  }

  predicate TerminalOk(o: Fields) {
    match Get(o, KCause)
    case Word(WDenied) =>
      && (IsStatus(Get(o, KStatus), 409) || IsStatus(Get(o, KStatus), 422))
      && NonEmpty(Get(o, KLatchId)) && (Get(o, KReason) == Null || NonEmpty(Get(o, KReason)))
    case Word(WAuthRefused) => true
    case Word(WUnconfirmedAcceptedBody) => true
    case Word(WMarkFailure) => true
    case Word(WMintUnconfirmed) => true
    case Word(WUnconfirmedServerError) => ServerErrorStatus(Get(o, KStatus))
    case Word(WUnconfirmedStatus) => OtherStatus(Get(o, KStatus))
    case Word(WStopped) =>
      && (Get(o, KCheckpoint) == Word(WSend) || Get(o, KCheckpoint) == Word(WDecision))
      && (Get(o, KReason) == Word(WDeadline) || Get(o, KReason) == Word(WClock) || Get(o, KReason) == Word(WFailure))
      && (Get(o, KCheckpoint) == Word(WSend) ==> Get(o, KRequestMayHaveBeenSent) == Bool(false))
      && Get(o, KRequestMayHaveBeenSent).Bool?
    case Word(WLocalFailure) => Get(o, KRequestMayHaveBeenSent).Bool?
    case Word(WCancelled) => Get(o, KRequestMayHaveBeenSent).Bool?
    case _ => false
  }

  // ---------------------------------------------------------------- the validator

  const STATES := {WPending, WActuated, WQueued, WSynced, WResolved}

  function TypeOf(f: Fields): Option<ScanType> {
    if KDirection in f && KLocalDecision !in f && (f[KDirection] == Word(WEntry) || f[KDirection] == Word(WExit)) then Some(NormalScan)
    else if KLocalDecision in f && KDirection !in f && f[KLocalDecision] == Word(WRevocationRefused) then Some(RefusalScan)
    else None
  }

  predicate IdentityOk(f: Fields) {
    && Get(f, KRecordFormat) == Number(1.0)
    && NonEmpty(Get(f, KOccurrenceId)) && NonEmpty(Get(f, KQrPayload))
    && NonEmpty(Get(f, KOccurredAt)) && NonEmpty(Get(f, KCreatedAt))
    && Get(f, KState).Word? && Get(f, KState).w in STATES
    && Get(f, KActuated).Bool?
    && NonEmpty(Get(f, KOwnerId))
    && Get(f, KLeaseExpiresAt).Number?
    && TypeOf(f).Some?
  }

  predicate Recovered(o: Fields) {
    Get(o, KFamily) == Word(WQueue) && Get(o, KCause) == Word(WUncertainRecovery)
  }

  /** A terminal tag a refusal may carry: it stopped before anything was sent. */
  predicate StoppedBeforeSend(o: Fields) {
    && (Get(o, KCause) == Word(WCancelled) || (Get(o, KCause) == Word(WStopped) && Get(o, KCheckpoint) == Word(WSend)))
    && Get(o, KRequestMayHaveBeenSent) == Bool(false)
  }

  /** What a decided row must hold in each state. */
  predicate DecisionOk(f: Fields, o: Fields, scan: ScanType) {
    var state, result := Get(f, KState), Get(f, KResult);
    && (if Recovered(o) then KDecidedAt !in f else NonEmpty(Get(f, KDecidedAt)))
    && if state == Word(WActuated) then
         && scan == NormalScan && Get(f, KActuated) == Bool(true)
         && Get(o, KFamily) == Word(WActuation) && Get(o, KCause) == Word(WReserved) && KResult !in f
       else
         && Get(f, KActuated) == Bool(false)
         && if Get(o, KFamily) == Word(WQueue) then
              && QueueOk(o, scan)
              && (if state == Word(WQueued) then KResult !in f
                  else if state == Word(WSynced) then result == Word(WRecorded) || result == Word(WSyncedResult)
                  else result == Word(WConflict) || result == Word(WRejected))
            else
              && Get(o, KFamily) == Word(WTerminal) && state == Word(WResolved)
              && (scan == RefusalScan ==> StoppedBeforeSend(o))
              && KResult !in f && TerminalOk(o)
  }

  /** The stored outcome tag. */
  function TagOf(f: Fields): Fields {
    if Get(f, KLocalOutcome).Object? then Get(f, KLocalOutcome).fields else map[]
  }

  /** A row that reads as a current-format record. */
  predicate Readable(f: Fields) {
    && IdentityOk(f)
    && if Get(f, KState) == Word(WPending) then
         KLocalOutcome !in f && KDecidedAt !in f && KResult !in f && Get(f, KActuated) == Bool(false)
       else
         Get(f, KLocalOutcome).Object? && DecisionOk(f, Get(f, KLocalOutcome).fields, TypeOf(f).value)
  }

  /** The row as the validator's branches reach it. */
  method ReadCurrentRecord(raw: Value) returns (ok: bool)
    ensures ok <==> raw.Object? && Readable(raw.fields)
  {
    hide QueueOk, TerminalOk;
    if !raw.Object? {
      return false;
    }
    var f := raw.fields;
    if !IdentityOk(f) {
      return false;
    }
    var scan, state := TypeOf(f).value, Get(f, KState).w;
    if state == WPending {
      if KLocalOutcome in f || KDecidedAt in f || KResult in f {
        return false;
      }
      return Get(f, KActuated) == Bool(false);
    }
    if !Get(f, KLocalOutcome).Object? {
      return false;
    }
    var o := Get(f, KLocalOutcome).fields;
    if (if Recovered(o) then KDecidedAt in f else !NonEmpty(Get(f, KDecidedAt))) {
      return false;
    }
    if state == WActuated {
      if scan != NormalScan || Get(f, KActuated) != Bool(true) {
        return false;
      }
      return Get(o, KFamily) == Word(WActuation) && Get(o, KCause) == Word(WReserved) && KResult !in f;
    }
    if Get(f, KActuated) != Bool(false) {
      return false;
    }
    var result := Get(f, KResult);
    if Get(o, KFamily) == Word(WQueue) {
      if !QueueOk(o, scan) {
        return false;
      }
      return if state == WQueued then KResult !in f
             else if state == WSynced then result == Word(WRecorded) || result == Word(WSyncedResult)
             else result == Word(WConflict) || result == Word(WRejected);
    }
    ok := Get(o, KFamily) == Word(WTerminal) && state == WResolved
          && (scan == RefusalScan ==> StoppedBeforeSend(o)) && KResult !in f && TerminalOk(o);
  }

  // ---------------------------------------------------------------- what a scan run can latch

  /** What a scan run knows when it decides. */
  datatype Run = Run(listed: bool, sent: bool, status: Option<int>, accepted: bool)

  /** A listed credential is refused before anything is sent; only a sent request has a
      status, and only a 200 an accepted body. */
  predicate Possible(r: Run) {
    (r.listed ==> !r.sent) && (r.status.Some? ==> r.sent) && (r.accepted ==> r.status == Some(200))
  }

  datatype StatusClass = AuthClass | DenialClass | OfflineClass | ServerErrorClass | UnconfirmedClass | AnswerClass

  /** How the run classifies the status of a response. */
  function Classify(status: int): StatusClass {
    if status == 401 then AuthClass
    else if status == 409 || status == 422 then DenialClass
    else if status == 502 || status == 503 || status == 504 then OfflineClass
    else if status != 200 then
      if status == 500 || status == 501 || 505 <= status <= 599 then ServerErrorClass else UnconfirmedClass
    else AnswerClass
  }

  datatype Stop = CancelStop | TimedStop(why: StopReason)

  /** What stopping a run latches.  A denial was latched before its body was read, so
      stopping then latches nothing. */
  function StopOutcome(r: Run, stop: Stop): Option<Outcome> {
    if stop.CancelStop? then Some(Cancelled(r.sent))
    else if r.listed then Some(Stopped(!r.sent, stop.why, r.sent))
    else if r.status == Some(409) || r.status == Some(422) then None
    else if r.accepted then Some(if stop.why == Failure then MarkFailure else Stopped(!r.sent, stop.why, r.sent))
    else if r.status == Some(200) then Some(UnconfirmedAcceptedBody)
    else if stop.why == Failure then Some(LocalFailure(r.sent))
    else Some(Stopped(!r.sent, stop.why, r.sent))
  }

  /** The outcomes a scan run can latch in this situation, by any of its paths. */
  predicate CanLatch(r: Run, o: Outcome) {
    || o == StopOutcome(r, CancelStop).value
    || StopOutcome(r, TimedStop(Deadline)) == Some(o) || StopOutcome(r, TimedStop(Clock)) == Some(o)
    || StopOutcome(r, TimedStop(Failure)) == Some(o)
    || (r.listed && o == LocalRefusal)
    || (!r.listed && !r.sent && o == MintUnconfirmed)
    || (!r.listed && r.sent && r.status.None? && o == TransportFailure)
    || (!r.listed && r.accepted && o == MarkFailure)
    || (!r.listed && r.status == Some(200) && o == UnconfirmedAcceptedBody)
    || (!r.listed && r.status.Some? && Classify(r.status.value) == AuthClass && o == AuthRefused)
    || (!r.listed && r.status.Some? && Classify(r.status.value) == OfflineClass && o == ServerUnavailable(r.status.value))
    || (!r.listed && r.status.Some? && Classify(r.status.value) == ServerErrorClass && o == UnconfirmedServerError(r.status.value))
    || (!r.listed && r.status.Some? && Classify(r.status.value) == UnconfirmedClass && o == UnconfirmedStatus(r.status.value))
    || (!r.listed && r.status.Some? && Classify(r.status.value) == DenialClass && o.Denied? && o.status == r.status.value
        && o.latchId != "" && o.reason == None)
  }

  /** Reading a stored tag back. */
  lemma TagFields(o: Outcome)
    ensures Get(o.Tag(), KFamily) == Word(o.Family().Name()) && Get(o.Tag(), KCause) == Word(o.Cause())
    ensures o.ServerUnavailable? || o.Denied? || o.UnconfirmedServerError? || o.UnconfirmedStatus? ==>
              Get(o.Tag(), KStatus) == Number(o.status as real)
    ensures o.Denied? ==>
              Get(o.Tag(), KLatchId) == Text(o.latchId)
              && Get(o.Tag(), KReason) == if o.reason.Some? then Text(o.reason.value) else Null
    ensures o.Cancelled? || o.LocalFailure? || o.Stopped? ==> Get(o.Tag(), KRequestMayHaveBeenSent) == Bool(o.sent)
    ensures o.Stopped? ==>
              && Get(o.Tag(), KReason) == Word(o.why.Name())
              && Get(o.Tag(), KCheckpoint) == Word(if o.atSend then WSend else WDecision)
  {
  }

  /** What the validator makes of each tag. */
  lemma TagVerdict(o: Outcome, scan: ScanType)
    ensures o.Family() == Queue ==>
              (QueueOk(o.Tag(), scan) <==>
                match o
                case TransportFailure => scan == NormalScan
                case ServerUnavailable(s) => scan == NormalScan && Classify(s) == OfflineClass
                case LocalRefusal => scan == RefusalScan
                case _ => true)
  {
    hide Outcome.Tag;
    TagFields(o);
  }

  lemma TerminalVerdict(o: Outcome)
    ensures o.Family() == Terminal ==>
              (TerminalOk(o.Tag()) <==>
                match o
                case Denied(s, latch, reason) => Classify(s) == DenialClass && latch != "" && reason != Some("")
                case UnconfirmedServerError(s) => Classify(s) == ServerErrorClass
                case UnconfirmedStatus(s) => Classify(s) == UnconfirmedClass
                case Stopped(atSend, _, sent) => atSend ==> !sent
                case _ => true)
  {
    hide Outcome.Tag;
    TagFields(o);
    if o.UnconfirmedStatus? {
      assert (o.status as real).Floor == o.status;
    }
  }

  /** The classification covers every status and matches the validator: each kind of tag is
      accepted with a status exactly when the run would put that status under it. */
  lemma ClassificationMatchesValidator(status: int, latch: string)
    requires latch != ""
    ensures QueueOk(ServerUnavailable(status).Tag(), NormalScan) <==> Classify(status) == OfflineClass
    ensures TerminalOk(UnconfirmedServerError(status).Tag()) <==> Classify(status) == ServerErrorClass
    ensures TerminalOk(UnconfirmedStatus(status).Tag()) <==> Classify(status) == UnconfirmedClass
    ensures TerminalOk(Denied(status, latch, None).Tag()) <==> Classify(status) == DenialClass
  {
    hide Outcome.Tag, QueueOk, TerminalOk, Classify;
    TagVerdict(ServerUnavailable(status), NormalScan);
    TerminalVerdict(UnconfirmedServerError(status));
    TerminalVerdict(UnconfirmedStatus(status));
    TerminalVerdict(Denied(status, latch, None));
  }

  function ScanOf(r: Run): ScanType {
    if r.listed then RefusalScan else NormalScan
  }

  /** A tag that fits a row of this type. */
  predicate TagOk(o: Outcome, scan: ScanType) {
    match o.Family()
    case Queue => QueueOk(o.Tag(), scan)
    case Terminal => TerminalOk(o.Tag()) && (scan == RefusalScan ==> StoppedBeforeSend(o.Tag()))
    case Actuation => scan == NormalScan
  }

  /** Every decision a scan run can latch has a tag the validator accepts for its scan type. */
  lemma LatchedTagsAreOk(r: Run, o: Outcome)
    requires Possible(r) && CanLatch(r, o)
    ensures TagOk(o, ScanOf(r)) && o.Family() != Actuation && o != UncertainRecovery
  {
    hide Outcome.Tag, QueueOk, TerminalOk;
    TagVerdict(o, ScanOf(r));
    TerminalVerdict(o);
    TagFields(o);
  }

  // ---------------------------------------------------------------- the writes

  datatype Captured = Captured(occurrenceId: string, qrPayload: string, occurredAt: string, createdAt: string, scan: ScanType, exit: bool)

  /** What the page captured and the identity it has are never empty. */
  predicate CapturedOk(c: Captured) {
    c.occurrenceId != "" && c.qrPayload != "" && c.occurredAt != "" && c.createdAt != ""
  }

  function MintRow(c: Captured, owner: string, lease: real): Fields {
    var base: Fields := map[
      KOccurrenceId := Text(c.occurrenceId), KQrPayload := Text(c.qrPayload),
      KOccurredAt := Text(c.occurredAt), KCreatedAt := Text(c.createdAt),
      KState := Word(WPending), KActuated := Bool(false), KOwnerId := Text(owner),
      KLeaseExpiresAt := Number(lease), KRecordFormat := Number(1.0)];
    if c.scan == NormalScan then base[KDirection := Word(if c.exit then WExit else WEntry)]
    else base[KLocalDecision := Word(WRevocationRefused)]
  }

  function ReserveRow(f: Fields, decidedAt: string): Fields {
    f[KState := Word(WActuated)][KActuated := Bool(true)][KLocalOutcome := Object(Reserved.Tag())][KDecidedAt := Text(decidedAt)]
  }

  function TargetState(o: Outcome): Word {
    if o.Family() == Queue then WQueued else WResolved
  }

  function DecideRow(f: Fields, o: Outcome, decidedAt: string): Fields {
    f[KState := Word(TargetState(o))][KLocalOutcome := Object(o.Tag())][KDecidedAt := Text(decidedAt)]
  }

  /** Only the reason of the stored tag changes. */
  function EnrichRow(f: Fields, reason: string): Fields {
    f[KLocalOutcome := Object(TagOf(f)[KReason := Text(reason)])]
  }

  function RecoverRow(f: Fields): Fields {
    f[KState := Word(WQueued)][KLocalOutcome := Object(UncertainRecovery.Tag())]
  }

  function RenewRow(f: Fields, lease: real): Fields {
    f[KLeaseExpiresAt := Number(lease)]
  }

  const RESULTS := {WRecorded, WSyncedResult, WConflict, WRejected}

  function RetiredState(result: Word): Word {
    if result == WRecorded || result == WSyncedResult then WSynced else WResolved
  }

  function ReconcileRow(f: Fields, result: Word): Fields {
    f[KState := Word(RetiredState(result))][KResult := Word(result)]
  }

  /** The type guard of a final write. */
  predicate DecisionFits(scan: ScanType, o: Outcome) {
    var refusal := o == LocalRefusal;
    var stopped := (o.Cancelled? || (o.Stopped? && o.atSend)) && !o.sent;
    if scan == RefusalScan then refusal || stopped else !refusal
  }

  // ---------------------------------------------------------------- every write keeps the row readable

  lemma MintFields(c: Captured, owner: string, lease: real)
    ensures var f := MintRow(c, owner, lease);
            && Get(f, KOccurrenceId) == Text(c.occurrenceId) && Get(f, KQrPayload) == Text(c.qrPayload)
            && Get(f, KOccurredAt) == Text(c.occurredAt) && Get(f, KCreatedAt) == Text(c.createdAt)
            && Get(f, KState) == Word(WPending) && Get(f, KActuated) == Bool(false) && Get(f, KOwnerId) == Text(owner)
            && Get(f, KLeaseExpiresAt) == Number(lease) && Get(f, KRecordFormat) == Number(1.0)
            && KLocalOutcome !in f && KDecidedAt !in f && KResult !in f && TypeOf(f) == Some(c.scan)
  {
  }

  lemma MintIsReadable(c: Captured, owner: string, lease: real)
    requires CapturedOk(c) && owner != ""
    ensures Readable(MintRow(c, owner, lease)) && Get(MintRow(c, owner, lease), KState) == Word(WPending)
  {
    hide MintRow;
    MintFields(c, owner, lease);
  }

  lemma SameIdentity(f: Fields, g: Fields)
    requires IdentityOk(f)
    requires forall k | k !in {KState, KActuated, KLocalOutcome, KDecidedAt, KResult, KLeaseExpiresAt} ::
               (k in f <==> k in g) && Get(f, k) == Get(g, k)
    requires Get(g, KState).Word? && Get(g, KState).w in STATES
    requires Get(g, KActuated).Bool? || Get(g, KActuated) == Get(f, KActuated)
    requires Get(g, KLeaseExpiresAt).Number? || Get(g, KLeaseExpiresAt) == Get(f, KLeaseExpiresAt)
    ensures IdentityOk(g) && TypeOf(g) == TypeOf(f)
  {
    assert Get(f, KRecordFormat) == Get(g, KRecordFormat) && Get(f, KOwnerId) == Get(g, KOwnerId);
    assert Get(f, KOccurrenceId) == Get(g, KOccurrenceId) && Get(f, KQrPayload) == Get(g, KQrPayload);
    assert Get(f, KOccurredAt) == Get(g, KOccurredAt) && Get(f, KCreatedAt) == Get(g, KCreatedAt);
    assert Get(f, KDirection) == Get(g, KDirection) && Get(f, KLocalDecision) == Get(g, KLocalDecision);
  }

  lemma ReservationStaysReadable(f: Fields, decidedAt: string)
    requires Readable(f) && Get(f, KState) == Word(WPending) && TypeOf(f) == Some(NormalScan) && decidedAt != ""
    ensures Readable(ReserveRow(f, decidedAt))
  {
    SameIdentity(f, ReserveRow(f, decidedAt));
    TagFields(Reserved);
  }

  /** A decision whose tag is right for the row's type, which is all a scan run can latch. */
  lemma DecisionStaysReadable(f: Fields, o: Outcome, decidedAt: string)
    requires Readable(f) && Get(f, KState) == Word(WPending) && decidedAt != ""
    requires TagOk(o, TypeOf(f).value) && o.Family() != Actuation && o != UncertainRecovery
    ensures Readable(DecideRow(f, o, decidedAt))
  {
    hide QueueOk, TerminalOk, Outcome.Tag, IdentityOk, DecisionOk;
    SameIdentity(f, DecideRow(f, o, decidedAt));
    NewDecision(f, o, decidedAt);
  }

  lemma NewDecision(f: Fields, o: Outcome, decidedAt: string)
    requires Readable(f) && Get(f, KState) == Word(WPending) && decidedAt != ""
    requires TagOk(o, TypeOf(f).value) && o.Family() != Actuation && o != UncertainRecovery
    ensures DecisionOk(DecideRow(f, o, decidedAt), o.Tag(), TypeOf(f).value)
  {
    hide QueueOk, TerminalOk, Outcome.Tag, IdentityOk;
    TagFields(o);
    CauseIsItsOwn(o);
  }

  lemma CauseIsItsOwn(o: Outcome)
    ensures o.Cause() == WUncertainRecovery <==> o == UncertainRecovery
  {
  }

  lemma EnrichmentStaysReadable(f: Fields, reason: string)
    requires Readable(f) && Get(f, KState) == Word(WResolved) && reason != ""
    requires Get(TagOf(f), KFamily) == Word(WTerminal) && Get(TagOf(f), KCause) == Word(WDenied)
    ensures Readable(EnrichRow(f, reason))
  {
    SameIdentity(f, EnrichRow(f, reason));
  }

  lemma RecoveryStaysReadable(f: Fields)
    requires Readable(f) && Get(f, KState) == Word(WPending)
    ensures Readable(RecoverRow(f)) && Recovered(Get(RecoverRow(f), KLocalOutcome).fields)
  {
    SameIdentity(f, RecoverRow(f));
    TagFields(UncertainRecovery);
  }

  lemma RenewalStaysReadable(f: Fields, lease: real)
    requires Readable(f)
    ensures Readable(RenewRow(f, lease))
  {
    hide DecisionOk, QueueOk, TerminalOk;
    SameIdentity(f, RenewRow(f, lease));
    if Get(f, KState) != Word(WPending) {
      SameDecision(f, RenewRow(f, lease), Get(f, KLocalOutcome).fields, TypeOf(f).value);
    }
  }

  lemma SameDecision(f: Fields, g: Fields, o: Fields, scan: ScanType)
    requires DecisionOk(f, o, scan)
    requires Get(f, KState) == Get(g, KState) && Get(f, KActuated) == Get(g, KActuated)
    requires Get(f, KResult) == Get(g, KResult) && (KResult in f <==> KResult in g)
    requires Get(f, KDecidedAt) == Get(g, KDecidedAt) && (KDecidedAt in f <==> KDecidedAt in g)
    ensures DecisionOk(g, o, scan)
  {
  }

  lemma RetiredDecision(f: Fields, o: Fields, scan: ScanType, result: Word)
    requires DecisionOk(f, o, scan) && Get(f, KState) == Word(WQueued) && result in RESULTS
    ensures DecisionOk(ReconcileRow(f, result), o, scan)
  {
    hide QueueOk, TerminalOk;
  }

  /** A reconcile result retires a queued row into a readable one, whatever the result. */
  lemma ReconciliationStaysReadable(f: Fields, result: Word)
    requires Readable(f) && Get(f, KState) == Word(WQueued) && result in RESULTS
    ensures Readable(ReconcileRow(f, result))
  {
    hide DecisionOk, IdentityOk;
    SameIdentity(f, ReconcileRow(f, result));
    RetiredDecision(f, Get(f, KLocalOutcome).fields, TypeOf(f).value, result);
  }

  /** Whatever a scan run latches for a row of its own type is written as a readable row, and
      the type guard of the write lets exactly the fitting decisions through. */
  lemma ScanRunsStayReadable(r: Run, o: Outcome, f: Fields, decidedAt: string)
    requires Possible(r) && CanLatch(r, o) && decidedAt != ""
    requires Readable(f) && Get(f, KState) == Word(WPending) && TypeOf(f) == Some(ScanOf(r))
    ensures DecisionFits(ScanOf(r), o) && Readable(DecideRow(f, o, decidedAt))
  {
    hide Readable, TagOk;
    LatchedTagsAreOk(r, o);
    FittingDecision(r, o);
    DecisionStaysReadable(f, o, decidedAt);
  }

  lemma FittingDecision(r: Run, o: Outcome)
    requires Possible(r) && CanLatch(r, o)
    ensures DecisionFits(ScanOf(r), o)
  {
  }
}
