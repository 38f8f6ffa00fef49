/** The scanner's durable rows: what each guarded transaction writes when it commits. */
module OccurrenceStore {
  import opened Basics
  import opened OccurrenceModel

  type Rows = map<string, Value>

  /** Rows from before the current format keep the class the upgrade gave them. */
  datatype LegacyClass = M01 | M02 | OtherLegacy | Unclassifiable

  type Legacy = map<string, LegacyClass>

  /** What the validator hands on of a readable row. */
  datatype Record = Record(owner: Value, scan: ScanType, state: Word, tag: Fields, decidedAt: Value, lease: Value)

  function ReadRow(v: Value): Option<Record> {
    if v.Object? && Readable(v.fields) then
      var f := v.fields;
      Some(Record(Get(f, KOwnerId), TypeOf(f).value, Get(f, KState).w, TagOf(f), Get(f, KDecidedAt), Get(f, KLeaseExpiresAt)))
    else None
  }

  function RecordOf(rows: Rows, id: string): Option<Record> {
    if id in rows then ReadRow(rows[id]) else None
  }

  function FieldsOf(rows: Rows, id: string): Fields
    requires RecordOf(rows, id).Some?
  {
    rows[id].fields
  }

  datatype Transition = Changed | AlreadySame | Missing | Foreign | Ineligible

  predicate Done(t: Transition) {
    t == Changed || t == AlreadySame
  }

  /** Structural equality of tags; an absent property and `undefined` are the same. */
  predicate SameTag(a: Fields, b: Fields) {
    forall k | k in a.Keys + b.Keys :: Get(a, k) == Get(b, k)
  }

  /** A stored denial of this latch, whatever its reason. */
  predicate IsDenial(tag: Fields, target: Outcome) {
    && target.Denied?
    && Get(tag, KFamily) == Word(WTerminal) && Get(tag, KCause) == Word(WDenied)
    && Get(tag, KLatchId) == Text(target.latchId) && IsStatus(Get(tag, KStatus), target.status)
  }

  // ---------------------------------------------------------------- transactions

  /** Writing a latched queue or terminal decision. */
  function Persist(rows: Rows, me: string, id: string, o: Outcome, decidedAt: string): (Transition, Rows) {
    if id !in rows then (Missing, rows)
    else
      var read := ReadRow(rows[id]);
      if read.None? then (Ineligible, rows)
      else
        var r := read.value;
        if r.owner != Text(me) then (Foreign, rows)
        else if !DecisionFits(r.scan, o) then (Ineligible, rows)
        else if r.state == WPending then (Changed, rows[id := Object(DecideRow(rows[id].fields, o, decidedAt))])
        else if r.state == TargetState(o) && r.decidedAt == Text(decidedAt)
                && (SameTag(r.tag, o.Tag()) || (o.Denied? && o.reason.None? && IsDenial(r.tag, o))) then (AlreadySame, rows)
        else (Ineligible, rows)
  }

  /** Adding the reason to a denial that was written without one. */
  function Enrich(rows: Rows, me: string, id: string, target: Outcome, decidedAt: string, reason: string): (Transition, Rows) {
    if !target.Denied? || target.reason.Some? || reason == "" then (Ineligible, rows)
    else if id !in rows then (Missing, rows)
    else
      var read := ReadRow(rows[id]);
      if read.None? then (Ineligible, rows)
      else
        var r := read.value;
        if r.owner != Text(me) then (Foreign, rows)
        else if r.state != WResolved || !IsDenial(r.tag, target) || r.decidedAt != Text(decidedAt) then (Ineligible, rows)
        else if Get(r.tag, KReason) == Text(reason) then (AlreadySame, rows)
        else if Get(r.tag, KReason) != Null then (Ineligible, rows)
        else (Changed, rows[id := Object(EnrichRow(rows[id].fields, reason))])
  }

  datatype Reservation = WillReserve | AlreadyActuated(decidedAt: Value) | WontReserve

  /** What the body of the actuation transaction decides. */
  function ReserveBody(rows: Rows, me: string, id: string, mayReserve: bool): Reservation {
    var read := RecordOf(rows, id);
    if read.None? || read.value.owner != Text(me) || read.value.scan != NormalScan then WontReserve
    else if read.value.state == WActuated then AlreadyActuated(read.value.decidedAt)
    else if read.value.state != WPending || !mayReserve then WontReserve
    else WillReserve
  }

  function Reserve(rows: Rows, id: string, decidedAt: string): Rows
    requires RecordOf(rows, id).Some?
  {
    rows[id := Object(ReserveRow(rows[id].fields, decidedAt))]
  }

  /** Recovering one row of a dead owner, every predicate read again under that owner's lock. */
  function Recover(rows: Rows, legacy: Legacy, me: string, reload: Option<string>, id: string, dead: Value, now: real): Option<Rows> {
    var read := RecordOf(rows, id);
    if id in legacy || read.None? then None
    else
      var r := read.value;
      var reloaded := reload.Some? && r.owner == Text(reload.value);
      if r.state != WPending || r.owner != dead || r.owner == Text(me) then None
      else if !reloaded && !(r.lease.Number? && r.lease.n <= now) then None
      else Some(rows[id := Object(RecoverRow(rows[id].fields))])
  }

  predicate OwnedPending(v: Value, me: string) {
    var read := ReadRow(v);
    read.Some? && read.value.state == WPending && read.value.owner == Text(me)
  }

  function Renew(rows: Rows, me: string, lease: real): Rows {
    map id | id in rows :: if OwnedPending(rows[id], me) then Object(RenewRow(FieldsIn(rows, id), lease)) else rows[id]
  }

  /** The pending rows of this page. */
  function Owned(rows: Rows, me: string): set<string> {
    set id | id in rows && OwnedPending(rows[id], me)
  }

  type Plan = map<string, Word>

  /** A row a result may retire. */
  predicate Retirable(rows: Rows, legacy: Legacy, id: string) {
    if id in legacy then legacy[id] == M02 && id in rows && rows[id].Object? && Get(rows[id].fields, KState) == Word(WQueued)
    else RecordOf(rows, id).Some? && RecordOf(rows, id).value.state == WQueued
  }

  /** The rows of a plan that its results retire; the others are there already. */
  function Retiring(rows: Rows, legacy: Legacy, plan: Plan): set<string> {
    set id | id in plan && Retirable(rows, legacy, id)
  }

  predicate AlreadyRetired(rows: Rows, id: string, result: Word) {
    && id in rows && rows[id].Object?
    && Get(rows[id].fields, KState) == Word(RetiredState(result)) && Get(rows[id].fields, KResult) == Word(result)
  }

  /** All results are applied, or none is. */
  function Retire(rows: Rows, legacy: Legacy, plan: Plan): Option<Rows> {
    if exists id | id in plan :: !Retirable(rows, legacy, id) && !AlreadyRetired(rows, id, plan[id]) then None
    else Some(map id | id in rows ::
                if id in plan && Retirable(rows, legacy, id) then Object(ReconcileRow(FieldsIn(rows, id), plan[id])) else rows[id])
  }

  function FieldsIn(rows: Rows, id: string): Fields {
    if id in rows && rows[id].Object? then rows[id].fields else map[]
  }

  /** A response that answers every submitted id once, in the contract's words. */
  ghost predicate Answers(submitted: seq<string>, results: seq<(string, Word)>) {
    && NoRepeats(submitted)
    && |results| == |submitted|
    && (forall i | 0 <= i < |results| :: results[i].0 in submitted && results[i].1 in RESULTS)
    && (forall i, j | 0 <= i < j < |results| :: results[i].0 != results[j].0)
  }

  // ---------------------------------------------------------------- what the writes read back as

  lemma ReservedReads(f: Fields, decidedAt: string)
    requires ReadRow(Object(f)).Some? && ReadRow(Object(f)).value.state == WPending
    requires ReadRow(Object(f)).value.scan == NormalScan && decidedAt != ""
    ensures ReadRow(Object(ReserveRow(f, decidedAt)))
            == Some(ReadRow(Object(f)).value.(state := WActuated, tag := Reserved.Tag(), decidedAt := Text(decidedAt)))
  {
    hide Readable, Outcome.Tag, TypeOf;
    PendingField(f);
    ReservationStaysReadable(f, decidedAt);
    SameType(f, ReserveRow(f, decidedAt));
  }

  lemma DecidedReads(f: Fields, o: Outcome, decidedAt: string)
    requires ReadRow(Object(f)).Some? && ReadRow(Object(f)).value.state == WPending && decidedAt != ""
    requires TagOk(o, TypeOf(f).value) && o.Family() != Actuation && o != UncertainRecovery
    ensures ReadRow(Object(DecideRow(f, o, decidedAt)))
            == Some(ReadRow(Object(f)).value.(state := TargetState(o), tag := o.Tag(), decidedAt := Text(decidedAt)))
  {
    hide Readable, Outcome.Tag, TagOk, TypeOf;
    PendingField(f);
    DecisionStaysReadable(f, o, decidedAt);
    SameType(f, DecideRow(f, o, decidedAt));
  }

  lemma PendingField(f: Fields)
    requires Readable(f)
    ensures Get(f, KState).Word? && TypeOf(f).Some?
  {
    hide DecisionOk;
  }

  lemma SameType(f: Fields, g: Fields)
    requires (KDirection in f <==> KDirection in g) && (KLocalDecision in f <==> KLocalDecision in g)
    requires Get(f, KDirection) == Get(g, KDirection) && Get(f, KLocalDecision) == Get(g, KLocalDecision)
    ensures TypeOf(f) == TypeOf(g)
  {
  }

  lemma EnrichedReads(f: Fields, target: Outcome, reason: string)
    requires ReadRow(Object(f)).Some? && ReadRow(Object(f)).value.state == WResolved && reason != ""
    requires IsDenial(TagOf(f), target)
    ensures ReadRow(Object(EnrichRow(f, reason))) == Some(ReadRow(Object(f)).value.(tag := TagOf(f)[KReason := Text(reason)]))
  {
    hide Readable, TypeOf;
    PendingField(f);
    EnrichmentStaysReadable(f, reason);
    SameType(f, EnrichRow(f, reason));
  }

  lemma RecoveredReads(f: Fields)
    requires ReadRow(Object(f)).Some? && ReadRow(Object(f)).value.state == WPending
    ensures ReadRow(Object(RecoverRow(f))) == Some(ReadRow(Object(f)).value.(state := WQueued, tag := UncertainRecovery.Tag()))
  {
    hide Readable, TypeOf, Outcome.Tag;
    PendingField(f);
    RecoveryStaysReadable(f);
    SameType(f, RecoverRow(f));
  }

  lemma RenewedReads(f: Fields, lease: real)
    requires ReadRow(Object(f)).Some?
    ensures ReadRow(Object(RenewRow(f, lease))) == Some(ReadRow(Object(f)).value.(lease := Number(lease)))
  {
    hide Readable, TypeOf;
    PendingField(f);
    RenewalStaysReadable(f, lease);
    SameType(f, RenewRow(f, lease));
  }

  lemma RetiredReads(f: Fields, result: Word)
    requires ReadRow(Object(f)).Some? && ReadRow(Object(f)).value.state == WQueued && result in RESULTS
    ensures ReadRow(Object(ReconcileRow(f, result))) == Some(ReadRow(Object(f)).value.(state := RetiredState(result)))
  {
    hide Readable, TypeOf;
    PendingField(f);
    ReconciliationStaysReadable(f, result);
    SameType(f, ReconcileRow(f, result));
  }

  lemma MintedReads(c: Captured, owner: string, lease: real)
    requires CapturedOk(c) && owner != ""
    ensures ReadRow(Object(MintRow(c, owner, lease)))
            == Some(Record(Text(owner), c.scan, WPending, map[], Undefined, Number(lease)))
  {
    hide Readable, TypeOf, MintRow;
    MintFields(c, owner, lease);
    MintIsReadable(c, owner, lease);
  }

  // ---------------------------------------------------------------- notices

  /** Current-format rows carry the recovery outcome exactly when a recovery notice names
      them. */
  ghost predicate NoticesMatch(rows: Rows, legacy: Legacy, notices: set<string>) {
    forall id | id in rows && id !in legacy && ReadRow(rows[id]).Some? ::
      Recovered(ReadRow(rows[id]).value.tag) <==> id in notices
  }

  /** Current-format rows are readable. */
  ghost predicate AllReadable(rows: Rows, legacy: Legacy) {
    forall id | id in rows && id !in legacy :: ReadRow(rows[id]).Some?
  }

  /** One row rewritten, with its recovery status unchanged, keeps both. */
  lemma OneRowKeeps(rows: Rows, legacy: Legacy, notices: set<string>, id: string, v: Value)
    requires NoticesMatch(rows, legacy, notices) && AllReadable(rows, legacy)
    requires ReadRow(v).Some? && (Recovered(ReadRow(v).value.tag) <==> id in notices)
    ensures NoticesMatch(rows[id := v], legacy, notices) && AllReadable(rows[id := v], legacy)
  {
  }

  lemma RecoveredIsItsOwn(o: Outcome)
    ensures Recovered(o.Tag()) <==> o == UncertainRecovery
  {
    hide Outcome.Tag;
    TagFields(o);
    CauseIsItsOwn(o);
  }

  lemma PendingIsNotRecovered(rows: Rows, legacy: Legacy, notices: set<string>, id: string)
    requires NoticesMatch(rows, legacy, notices) && id !in legacy
    requires RecordOf(rows, id).Some? && RecordOf(rows, id).value.state == WPending
    ensures id !in notices && RecordOf(rows, id).value.tag == map[]
  {
    hide DecisionOk;
  }

  /** Final writes keep notices and rows in step: no scan run can latch the recovery tag. */
  lemma PersistKeeps(rows: Rows, legacy: Legacy, notices: set<string>, me: string, id: string, o: Outcome, decidedAt: string)
    requires NoticesMatch(rows, legacy, notices) && AllReadable(rows, legacy) && id !in legacy && decidedAt != ""
    requires RecordOf(rows, id).Some? ==> TagOk(o, RecordOf(rows, id).value.scan)
    requires o.Family() != Actuation && o != UncertainRecovery
    ensures var rows' := Persist(rows, me, id, o, decidedAt).1; NoticesMatch(rows', legacy, notices) && AllReadable(rows', legacy)
  {
    hide ReadRow, TagOk, DecisionFits, NoticesMatch, AllReadable, Outcome.Tag, Recovered;
    if Persist(rows, me, id, o, decidedAt).0 == Changed {
      ReadableParts(rows, id);
      PendingIsNotRecovered(rows, legacy, notices, id);
      DecidedReads(rows[id].fields, o, decidedAt);
      RecoveredIsItsOwn(o);
      OneRowKeeps(rows, legacy, notices, id, Object(DecideRow(rows[id].fields, o, decidedAt)));
    }
  }

  lemma ReadableParts(rows: Rows, id: string)
    requires RecordOf(rows, id).Some?
    ensures id in rows && rows[id] == Object(rows[id].fields) && TypeOf(rows[id].fields) == Some(RecordOf(rows, id).value.scan)
    ensures RecordOf(rows, id).value.tag == TagOf(rows[id].fields)
  {
    hide DecisionOk;
  }

  lemma EnrichKeeps(rows: Rows, legacy: Legacy, notices: set<string>, me: string, id: string, target: Outcome, decidedAt: string, reason: string)
    requires NoticesMatch(rows, legacy, notices) && AllReadable(rows, legacy) && id !in legacy
    ensures var rows' := Enrich(rows, me, id, target, decidedAt, reason).1; NoticesMatch(rows', legacy, notices) && AllReadable(rows', legacy)
  {
    hide ReadRow, AllReadable, Outcome.Tag;
    if Enrich(rows, me, id, target, decidedAt, reason).0 == Changed {
      ReadableParts(rows, id);
      EnrichedReads(rows[id].fields, target, reason);
      OneRowKeeps(rows, legacy, notices, id, Object(EnrichRow(rows[id].fields, reason)));
    }
  }

  lemma ReserveKeeps(rows: Rows, legacy: Legacy, notices: set<string>, me: string, id: string, decidedAt: string)
    requires NoticesMatch(rows, legacy, notices) && AllReadable(rows, legacy) && id !in legacy && decidedAt != ""
    requires ReserveBody(rows, me, id, true).WillReserve?
    ensures NoticesMatch(Reserve(rows, id, decidedAt), legacy, notices) && AllReadable(Reserve(rows, id, decidedAt), legacy)
  {
    hide ReadRow, NoticesMatch, AllReadable, Outcome.Tag, Recovered;
    ReadableParts(rows, id);
    PendingIsNotRecovered(rows, legacy, notices, id);
    ReservedReads(rows[id].fields, decidedAt);
    RecoveredIsItsOwn(Reserved);
    OneRowKeeps(rows, legacy, notices, id, Object(ReserveRow(rows[id].fields, decidedAt)));
  }

  /** Recovery writes the row and its notice together. */
  lemma RecoverKeeps(rows: Rows, legacy: Legacy, notices: set<string>, me: string, reload: Option<string>, id: string, dead: Value, now: real)
    requires NoticesMatch(rows, legacy, notices) && AllReadable(rows, legacy)
    requires Recover(rows, legacy, me, reload, id, dead, now).Some?
    ensures var rows' := Recover(rows, legacy, me, reload, id, dead, now).value;
            NoticesMatch(rows', legacy, notices + {id}) && AllReadable(rows', legacy)
  {
    hide ReadRow, Outcome.Tag, Recovered;
    ReadableParts(rows, id);
    RecoveredReads(rows[id].fields);
    RecoveredIsItsOwn(UncertainRecovery);
  }

  lemma RenewKeeps(rows: Rows, legacy: Legacy, notices: set<string>, me: string, lease: real)
    requires NoticesMatch(rows, legacy, notices) && AllReadable(rows, legacy)
    ensures NoticesMatch(Renew(rows, me, lease), legacy, notices) && AllReadable(Renew(rows, me, lease), legacy)
  {
    hide ReadRow, Recovered;
    forall id | id in rows && OwnedPending(rows[id], me)
      ensures ReadRow(Object(RenewRow(FieldsIn(rows, id), lease))) == Some(ReadRow(rows[id]).value.(lease := Number(lease)))
    {
      ReadableParts(rows, id);
      RenewedReads(rows[id].fields, lease);
    }
  }

  lemma RetireKeeps(rows: Rows, legacy: Legacy, notices: set<string>, plan: Plan)
    requires NoticesMatch(rows, legacy, notices) && AllReadable(rows, legacy)
    requires forall id | id in plan :: plan[id] in RESULTS
    requires Retire(rows, legacy, plan).Some?
    ensures var rows' := Retire(rows, legacy, plan).value; NoticesMatch(rows', legacy, notices) && AllReadable(rows', legacy)
  {
    hide ReadRow, Recovered;
    forall id | id in rows && id in plan && id !in legacy && Retirable(rows, legacy, id)
      ensures ReadRow(Object(ReconcileRow(FieldsIn(rows, id), plan[id]))) == Some(ReadRow(rows[id]).value.(state := RetiredState(plan[id])))
    {
      ReadableParts(rows, id);
      RetiredReads(rows[id].fields, plan[id]);
    }
  }

  lemma MintKeeps(rows: Rows, legacy: Legacy, notices: set<string>, c: Captured, owner: string, lease: real)
    requires NoticesMatch(rows, legacy, notices) && AllReadable(rows, legacy)
    requires CapturedOk(c) && owner != "" && c.occurrenceId !in rows && c.occurrenceId !in notices
    ensures var rows' := rows[c.occurrenceId := Object(MintRow(c, owner, lease))];
            NoticesMatch(rows', legacy, notices) && AllReadable(rows', legacy)
  {
    hide ReadRow;
    MintedReads(c, owner, lease);
  }

  // ---------------------------------------------------------------- the store

  function PlanOf(results: seq<(string, Word)>): Plan {
    if results == [] then map[] else PlanOf(results[..|results| - 1])[results[|results| - 1].0 := results[|results| - 1].1]
  }

  datatype Applied = AppliedAll(retired: nat, already: nat) | Invalid | Incompatible(id: string)

  datatype Actuation = ReservedNow | NotReserved(existing: bool)

  class Store {
    var rows: Rows
    var notices: set<string>
    const legacy: Legacy
    const me: string

    ghost predicate Valid()
      reads this
    {
      NoticesMatch(rows, legacy, notices) && AllReadable(rows, legacy) && notices <= rows.Keys && me != ""
    }

    constructor (rows: Rows, legacy: Legacy, notices: set<string>, me: string)
      requires NoticesMatch(rows, legacy, notices) && AllReadable(rows, legacy) && notices <= rows.Keys && me != ""
      ensures Valid() && this.rows == rows && this.legacy == legacy && this.notices == notices && this.me == me
    {
      this.rows, this.legacy, this.notices, this.me := rows, legacy, notices, me;
    }

    /** `add`, not `put`: a duplicate id aborts. */
    method Mint(c: Captured, lease: real) returns (committed: bool)
      requires Valid() && CapturedOk(c)
      modifies this`rows
      ensures Valid() && (committed <==> c.occurrenceId !in old(rows))
      ensures rows == if committed then old(rows)[c.occurrenceId := Object(MintRow(c, me, lease))] else old(rows)
    {
      hide NoticesMatch, AllReadable, MintRow;
      committed := c.occurrenceId !in rows;
      if committed {
        MintKeeps(rows, legacy, notices, c, me, lease);
        rows := rows[c.occurrenceId := Object(MintRow(c, me, lease))];
      }
    }

    method ReserveActuation(id: string, mayReserve: bool, decidedAt: string) returns (result: Actuation)
      requires Valid() && id !in legacy && decidedAt != ""
      modifies this`rows
      ensures Valid()
      ensures rows == if ReserveBody(old(rows), me, id, mayReserve).WillReserve? then Reserve(old(rows), id, decidedAt) else old(rows)
      ensures result == match ReserveBody(old(rows), me, id, mayReserve)
                        case WillReserve => ReservedNow
                        case AlreadyActuated(_) => NotReserved(true)
                        case WontReserve => NotReserved(false)
    {
      hide NoticesMatch, AllReadable, ReadRow, ReserveRow;
      var read := RecordOf(rows, id);
      if read.None? || read.value.owner != Text(me) || read.value.scan != NormalScan {
        return NotReserved(false);
      }
      if read.value.state == WActuated {
        return NotReserved(true);
      }
      if read.value.state != WPending || !mayReserve {
        return NotReserved(false);
      }
      ReserveKeeps(rows, legacy, notices, me, id, decidedAt);
      ReadableParts(rows, id);
      rows := rows[id := Object(ReserveRow(rows[id].fields, decidedAt))];
      result := ReservedNow;
    }

    method PersistDecision(id: string, o: Outcome, decidedAt: string) returns (t: Transition)
      requires Valid() && id !in legacy && decidedAt != ""
      requires RecordOf(rows, id).Some? ==> TagOk(o, RecordOf(rows, id).value.scan)
      requires o.Family() != Actuation && o != UncertainRecovery
      modifies this`rows
      ensures Valid() && (t, rows) == Persist(old(rows), me, id, o, decidedAt)
    {
      hide NoticesMatch, AllReadable, ReadRow, TagOk, DecideRow, Outcome.Tag;
      PersistKeeps(rows, legacy, notices, me, id, o, decidedAt);
      if id !in rows {
        return Missing;
      }
      var read := ReadRow(rows[id]);
      if read.None? {
        return Ineligible;
      }
      var r := read.value;
      if r.owner != Text(me) {
        return Foreign;
      }
      if !DecisionFits(r.scan, o) {
        return Ineligible;
      }
      if r.state == WPending {
        ReadableParts(rows, id);
        rows := rows[id := Object(DecideRow(rows[id].fields, o, decidedAt))];
        return Changed;
      }
      if r.state == TargetState(o) && r.decidedAt == Text(decidedAt) {
        if SameTag(r.tag, o.Tag()) || (o.Denied? && o.reason.None? && IsDenial(r.tag, o)) {
          return AlreadySame;
        }
      }
      t := Ineligible;
    }

    method EnrichDenial(id: string, target: Outcome, decidedAt: string, reason: string) returns (t: Transition)
      requires Valid() && id !in legacy
      modifies this`rows
      ensures Valid() && (t, rows) == Enrich(old(rows), me, id, target, decidedAt, reason)
    {
      hide NoticesMatch, AllReadable, ReadRow, EnrichRow, Outcome.Tag;
      EnrichKeeps(rows, legacy, notices, me, id, target, decidedAt, reason);
      if !target.Denied? || target.reason.Some? || reason == "" {
        return Ineligible;
      }
      if id !in rows {
        return Missing;
      }
      var read := ReadRow(rows[id]);
      if read.None? {
        return Ineligible;
      }
      var r := read.value;
      if r.owner != Text(me) {
        return Foreign;
      }
      if r.state != WResolved || !IsDenial(r.tag, target) || r.decidedAt != Text(decidedAt) {
        return Ineligible;
      }
      if Get(r.tag, KReason) == Text(reason) {
        return AlreadySame;
      }
      if Get(r.tag, KReason) != Null {
        return Ineligible;
      }
      ReadableParts(rows, id);
      rows := rows[id := Object(EnrichRow(rows[id].fields, reason))];
      t := Changed;
    }

    method RenewOwnedPending(lease: real) returns (renewed: nat)
      requires Valid()
      modifies this`rows
      ensures Valid() && rows == Renew(old(rows), me, lease)
      ensures renewed == |Owned(old(rows), me)|
    {
      hide NoticesMatch, AllReadable, ReadRow, RenewRow;
      RenewKeeps(rows, legacy, notices, me, lease);
      var next;
      next, renewed := Renewed(lease);
      rows := next;
    }

    method Renewed(lease: real) returns (next: Rows, renewed: nat)
      ensures next == Renew(rows, me, lease) && renewed == |Owned(rows, me)|
    {
      hide ReadRow, RenewRow, OwnedPending;
      next, renewed := rows, 0;
      ghost var done: set<string> := {};
      var unread := rows.Keys;
      while unread != {}
        invariant unread <= rows.Keys && next.Keys == rows.Keys
        invariant done == Owned(rows, me) - unread && renewed == |done|
        invariant forall id | id in rows :: next[id] == if id in unread then rows[id] else Renew(rows, me, lease)[id]
      {
        var id :| id in unread;
        unread := unread - {id};
        if OwnedPending(rows[id], me) {
          next, renewed := next[id := Object(RenewRow(FieldsIn(rows, id), lease))], renewed + 1;
          done := done + {id};
        }
      }
    }

    /** One candidate, inside the lock of its dead owner. */
    method RecoverDeadOwner(reload: Option<string>, id: string, dead: Value, now: real) returns (recovered: bool)
      requires Valid()
      modifies this`rows, this`notices
      ensures Valid()
      ensures match Recover(old(rows), legacy, me, reload, id, dead, now)
              case None => !recovered && rows == old(rows) && notices == old(notices)
              case Some(next) => recovered && rows == next && notices == old(notices) + {id}
    {
      hide NoticesMatch, AllReadable, ReadRow, RecoverRow;
      var read := RecordOf(rows, id);
      if id in legacy || read.None? {
        return false;
      }
      var r := read.value;
      if r.state != WPending || r.owner != dead || r.owner == Text(me) {
        return false;
      }
      var reloaded := reload.Some? && r.owner == Text(reload.value);
      if !reloaded && !(r.lease.Number? && r.lease.n <= now) {
        return false;
      }
      RecoverKeeps(rows, legacy, notices, me, reload, id, dead, now);
      ReadableParts(rows, id);
      rows, notices := rows[id := Object(RecoverRow(rows[id].fields))], notices + {id};
      recovered := true;
    }

    /** Validates the whole response, then applies every result or none. */
    method ApplyReconcileResults(submitted: seq<string>, results: seq<(string, Word)>) returns (applied: Applied)
      requires Valid()
      modifies this`rows
      ensures Valid()
      ensures applied.Invalid? <==> !Answers(submitted, results)
      ensures applied.Invalid? ==> rows == old(rows)
      ensures !applied.Invalid? ==>
                match Retire(old(rows), legacy, PlanOf(results))
                case None =>
                  && rows == old(rows) && applied.Incompatible? && applied.id in PlanOf(results)
                  && !Retirable(rows, legacy, applied.id) && !AlreadyRetired(rows, applied.id, PlanOf(results)[applied.id])
                case Some(next) =>
                  && rows == next && applied.AppliedAll?
                  && applied.retired == |Retiring(old(rows), legacy, PlanOf(results))|
                  && applied.retired + applied.already == |results|
    {
      hide NoticesMatch, AllReadable, Retirable, AlreadyRetired, ReconcileRow;
      var valid, plan := ValidateResponse(submitted, results);
      if !valid {
        return Invalid;
      }
      var bad := FirstIncompatible(plan);
      if bad.Some? {
        return Incompatible(bad.value);
      }
      RetireKeeps(rows, legacy, notices, plan);
      var next, retired := RetireAll(plan);
      applied := AppliedAll(retired, |plan| - retired);
      rows := next;
    }

    method ValidateResponse(submitted: seq<string>, results: seq<(string, Word)>) returns (valid: bool, plan: Plan)
      ensures valid <==> Answers(submitted, results)
      ensures valid ==> plan == PlanOf(results) && |plan| == |results| && forall id | id in plan :: plan[id] in RESULTS
    {
      hide NoRepeats;
      plan := map[];
      var keys;
      valid, keys := SubmittedKeys(submitted);
      if !valid {
        return;
      }
      valid, plan := PlanResults(keys, results);
      valid := valid && |plan| == |keys|;
    }

    method SubmittedKeys(submitted: seq<string>) returns (valid: bool, keys: set<string>)
      ensures valid <==> NoRepeats(submitted)
      ensures valid ==> keys == (set id | id in submitted) && |keys| == |submitted|
    {
      keys := {};
      for i := 0 to |submitted|
        invariant NoRepeats(submitted[..i]) && keys == (set id | id in submitted[..i]) && |keys| == i
      {
        if submitted[i] in keys {
          RepeatAt(submitted, i);
          return false, keys;
        }
        assert submitted[..i + 1] == submitted[..i] + [submitted[i]];
        keys := keys + {submitted[i]};
      }
      assert submitted[..|submitted|] == submitted;
      valid := true;
    }

    method PlanResults(keys: set<string>, results: seq<(string, Word)>) returns (valid: bool, plan: Plan)
      ensures valid <==> Planned(keys, results)
      ensures valid ==> plan == PlanOf(results) && |plan| == |results| && forall id | id in plan :: plan[id] in RESULTS
    {
      hide Planned;
      plan := map[];
      PlanStart(keys);
      for i := 0 to |results|
        invariant Planned(keys, results[..i])
        invariant plan == PlanOf(results[..i]) && |plan| == i && forall id | id in plan :: plan[id] in RESULTS
      {
        PlanStep(keys, results, i);
        if results[i].0 !in keys || results[i].0 in plan || results[i].1 !in RESULTS {
          return false, plan;
        }
        assert results[..i + 1][..i] == results[..i];
        plan := plan[results[i].0 := results[i].1];
      }
      assert results[..|results|] == results;
      valid := true;
    }

    method FirstIncompatible(plan: Plan) returns (bad: Option<string>)
      ensures bad.None? <==> forall id | id in plan :: Retirable(rows, legacy, id) || AlreadyRetired(rows, id, plan[id])
      ensures bad.Some? ==> bad.value in plan && !Retirable(rows, legacy, bad.value) && !AlreadyRetired(rows, bad.value, plan[bad.value])
    {
      hide Retirable, AlreadyRetired;
      var unread := plan.Keys;
      while unread != {}
        invariant unread <= plan.Keys
        invariant forall id | id in plan && id !in unread :: Retirable(rows, legacy, id) || AlreadyRetired(rows, id, plan[id])
      {
        var id :| id in unread;
        unread := unread - {id};
        if !Retirable(rows, legacy, id) && !AlreadyRetired(rows, id, plan[id]) {
          return Some(id);
        }
      }
      bad := None;
    }

    method RetireAll(plan: Plan) returns (next: Rows, retired: nat)
      requires Retire(rows, legacy, plan).Some?
      ensures next == Retire(rows, legacy, plan).value && retired == |Retiring(rows, legacy, plan)| <= |plan|
    {
      hide Retirable, AlreadyRetired, ReconcileRow;
      next, retired := rows, 0;
      ghost var done: set<string> := {};
      var unread := plan.Keys;
      while unread != {}
        invariant unread <= plan.Keys && next.Keys == rows.Keys && retired + |unread| <= |plan|
        invariant done == Retiring(rows, legacy, plan) - unread && retired == |done|
        invariant forall id | id in rows :: next[id] == if id in unread then rows[id] else Retire(rows, legacy, plan).value[id]
      {
        var id :| id in unread;
        unread := unread - {id};
        if Retirable(rows, legacy, id) {
          RetirableIsThere(rows, legacy, id);
          next, retired := next[id := Object(ReconcileRow(FieldsIn(rows, id), plan[id]))], retired + 1;
          done := done + {id};
        }
      }
    }
  }

  ghost predicate Planned(keys: set<string>, results: seq<(string, Word)>) {
    && (forall i | 0 <= i < |results| :: results[i].0 in keys && results[i].1 in RESULTS)
    && (forall i, j | 0 <= i < j < |results| :: results[i].0 != results[j].0)
  }

  lemma PlanStart(keys: set<string>)
    ensures Planned(keys, [])
  {
  }

  lemma {:induction false} PlanKeys(results: seq<(string, Word)>, id: string)
    ensures id in PlanOf(results) <==> exists j :: 0 <= j < |results| && results[j].0 == id
  {
    if results != [] {
      var n := |results| - 1;
      PlanKeys(results[..n], id);
      if id in PlanOf(results[..n]) {
        var j :| 0 <= j < n && results[..n][j].0 == id;
        assert results[j].0 == id;
      } else if exists j :: 0 <= j < n && results[j].0 == id {
        var j :| 0 <= j < n && results[j].0 == id;
        assert results[..n][j].0 == id;
      }
    }
  }

  /** One more result keeps the plan in order, or spoils the whole response. */
  lemma PlanStep(keys: set<string>, results: seq<(string, Word)>, i: nat)
    requires i < |results| && Planned(keys, results[..i])
    ensures var (id, result) := results[i];
            var ok := id in keys && id !in PlanOf(results[..i]) && result in RESULTS;
            (Planned(keys, results[..i + 1]) <==> ok) && (Planned(keys, results) ==> ok)
  {
    PlanKeys(results[..i], results[i].0);
    assert results[..i + 1] == results[..i] + [results[i]];
    if results[i].0 in PlanOf(results[..i]) {
      var j :| 0 <= j < i && results[..i][j].0 == results[i].0;
      assert results[j].0 == results[i].0 && results[..i + 1][j].0 == results[..i + 1][i].0;
    }
  }

  lemma RetirableIsThere(rows: Rows, legacy: Legacy, id: string)
    requires Retirable(rows, legacy, id)
    ensures id in rows
  {
    hide ReadRow;
  }

  lemma RepeatAt(s: seq<string>, i: nat)
    requires i < |s| && s[i] in s[..i]
    ensures !NoRepeats(s)
  {
    var j :| 0 <= j < i && s[..i][j] == s[i];
    assert s[j] == s[i];
  }
}
