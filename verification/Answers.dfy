/**
 What each call at the gate answers, as a table over the rows the store holds.

 Everything here is said of events, links, quarantine rows, refusals and modes as they lie in
 the tables, and in both directions: who is let in, who is not, why, and at what time.
 */
module Answers {
  import opened Basics
  import opened Canonical
  import opened Trail
  import opened Store
  import opened Admission
  import A = Appending

  // ---------------------------------------------------------------- rows

  /** The ticket has an event of this type. */
  ghost predicate Did(db: Db, t: Uuid, kind: EventType) {
    exists id | id in db.trail.events :: db.trail.events[id].ticket == t && db.trail.events[id].kind == kind
  }

  /** The ticket has an event of this type at this time. */
  ghost predicate DidAt(db: Db, t: Uuid, kind: EventType, at: Time) {
    exists id | id in db.trail.events :: db.trail.events[id] == EventRow(t, kind, at)
  }

  /** The ticket was let in live while its chain was suspect, at this time. */
  ghost predicate TookDegraded(db: Db, t: Uuid, at: Time) {
    exists q | q in db.quarantine :: q.ticket == t && q.admittedAt == Some(at)
  }

  ghost predicate Untaken(db: Db, t: Uuid) {
    forall q | q in db.quarantine && q.ticket == t :: q.admittedAt.None?
  }

  /** No table knows the occurrence. */
  ghost predicate Unknown(db: Db, occ: EventId) {
    occ !in db.trail.events && occ !in db.refusals && forall q | q in db.quarantine :: q.occurrence != occ
  }

  /** The credential names a ticket and its identity. */
  predicate Holder(db: Db, x: ScanInput) {
    x.ticket in db.tickets && db.tickets[x.ticket] == x.who
  }

  /** An occurrence id of a scanner comes with its claimed time. */
  predicate Formed(x: ScanInput) {
    x.occurrence == Nil || (x.occurrence.Occurrence? && x.at.Some?)
  }

  /** The integrity table has room for the event at the end of the ticket's chain. */
  ghost predicate Room(db: Db, t: Uuid, id: EventId) {
    && id !in db.trail.links
    && forall l | l in db.trail.links && db.trail.links[l].ticket == t ::
         db.trail.links[l].sequence != (if t in db.trail.heads then db.trail.heads[t].sequence else 0) + 1
  }

  /** What a ticket may happen to only once. */
  predicate Unrepeatable(kind: EventType) {
    match kind
    case Issued => true
    case Delivered => true
    case Redeemed => true
    case Refunded => true
    case Exchanged => true
    case _ => false
  }

  /** Everything but the trail and the owed alarms is as it was. */
  predicate OnlyTrail(a: Db, b: Db) {
    b == a.(trail := b.trail, alarms := b.alarms)
  }

  lemma AppendIff(cfg: Config, db: Db, x: A.Input)
    ensures AppendEvent(cfg, db, x).Ok? <==>
            && cfg.signer.Some? && x.id !in db.trail.events && (Unrepeatable(x.kind) ==> !Did(db, x.ticket, x.kind))
            && Room(db, x.ticket, x.id)
    ensures AppendEvent(cfg, db, x).Ok? ==>
              var next := AppendEvent(cfg, db, x).value;
              next == db.(trail := next.trail) && next.trail.events == db.trail.events[x.id := EventRow(x.ticket, x.kind, x.at)]
  {
    hide A.Append, Keeps;
    if cfg.signer.Some? {
      A.AppendFitsIff(cfg.keys.suite, cfg.signer.value, db.trail, x);
      AppendKeeps(cfg, db, x);
    }
  }

  /** On an honest store there is room for every new event. */
  lemma HonestRoom(keys: Keys, db: Db, t: Uuid, id: EventId)
    requires A.Honest(keys, db.tickets, db.trail) && t in db.tickets && id !in db.trail.events
    ensures Room(db, t, id)
  {
    hide A.Honest, HashEntry;
    var x := A.Input(t, db.tickets[t], id, Entry, 0);
    A.HonestAppendFits(keys, db.tickets, db.trail, x);
    var l := A.NewLink(keys.suite, db.trail, x);
    assert l.ticket == t && l.sequence == (if t in db.trail.heads then db.trail.heads[t].sequence else 0) + 1;
  }

  // ---------------------------------------------------------------- known occurrences

  /** A recorded type that answers a request in this direction. */
  predicate Fits(direction: EventType, kind: EventType, duplicates: bool) {
    if direction == Exit then kind == Exit else kind == Entry || kind == Redeemed || (duplicates && kind == DuplicateAdmit)
  }

  /** What the record says of an occurrence: the trail first, then the quarantine, then the
      refusals. */
  lemma KnownIs(db: Db, t: Uuid, occ: EventId, direction: EventType, duplicates: bool)
    ensures Lookup(db, t, occ, direction, duplicates).NotRecorded? <==> Unknown(db, occ)
    ensures occ in db.trail.events ==>
              var row := db.trail.events[occ];
              Lookup(db, t, occ, direction, duplicates)
              == if row.ticket == t && Fits(direction, row.kind, duplicates) then InTrail(row.at) else Collision
    ensures forall q | q in db.quarantine && q.occurrence == occ && occ !in db.trail.events
                       && (forall p | p in db.quarantine && p.occurrence == occ :: p == q) ::
              Lookup(db, t, occ, direction, duplicates)
              == if q.ticket != t then Collision
                 else if q.admittedAt.Some? then AsDegraded(q.admittedAt.value)
                 else if !Fits(direction, q.kind, duplicates) then Collision
                 else AsRecording(if q.occurredAt.Some? then q.occurredAt.value else 0)
    ensures occ in db.refusals && occ !in db.trail.events && (forall q | q in db.quarantine :: q.occurrence != occ) ==>
              Lookup(db, t, occ, direction, duplicates) == Collision
  {
    hide Quarantined;
  }

  /** How a known occurrence is answered: as it was recorded, or as a collision. */
  ghost predicate AnswersRecord(db: Db, seen: Recorded, r: Result<(Db, ScanResult), StoreError>) {
    match seen
    case NotRecorded => true
    case Collision => r == Err(OccurrenceCollision)
    case InTrail(at) => r == Ok((db, ScanResult(true, Accepted, at, true)))
    case AsRecording(at) => r == Ok((db, ScanResult(true, Accepted, at, true)))
    case AsDegraded(at) => r == Ok((db, ScanResult(true, AdmittedDegraded, at, true)))
  }

  /** On an unvoided ticket a known occurrence is answered from the record and changes nothing,
      whatever the gate says, on a pass too. */
  lemma KnownIsAnswered(cfg: Config, db: Db, x: ScanInput, direction: EventType, verdict: Option<AlarmReason>, live: Decision,
                        now: Time, dbNow: Time)
    requires Holder(db, x) && x.occurrence != Nil && Formed(x) && !Did(db, x.ticket, Refunded) && !Did(db, x.ticket, Exchanged)
    ensures x.who.slot !in db.passes ==>
              AnswersRecord(db, Lookup(db, x.ticket, x.occurrence, Entry, false), RedeemSingle(cfg, db, x, verdict, now, dbNow))
    ensures AnswersRecord(db, Lookup(db, x.ticket, x.occurrence, direction, verdict.None? || direction == Exit),
                          AdmitPass(cfg, db, x, direction, verdict, live, now))
  {
    hide Lookup, Degraded, ModeOf, AppendEvent, EventTime, AdmitDegraded;
    NotVoid(db, x.ticket);
  }

  lemma NotVoid(db: Db, t: Uuid)
    ensures forall kind :: Did(db, t, kind) <==> Has(db, t, kind)
  {
  }

  lemma TakenIs(db: Db, t: Uuid)
    ensures Degraded(db.quarantine, t).None? <==> Untaken(db, t)
    ensures Degraded(db.quarantine, t).Some? ==> TookDegraded(db, t, Degraded(db.quarantine, t).value.admittedAt.value)
  {
    hide Degraded;
  }

  // ---------------------------------------------------------------- live redemption

  /** The id and time a redemption is recorded under. */
  function RedemptionId(x: ScanInput): EventId {
    if x.occurrence == Nil then RedeemedId(x.ticket) else x.occurrence
  }

  function RedemptionTime(x: ScanInput, dbNow: Time): Time
    requires Formed(x)
  {
    if x.occurrence == Nil then dbNow else x.at.value
  }

  /** Who is let in: on a single-entry slot, with nothing against the chain, a scan that is not
      a repeat is accepted if and only if the credential is the ticket's, the ticket is neither
      refunded nor exchanged, has neither a degraded admission nor a redemption, and the
      redemption can be signed onto its chain. */
  lemma FreshRedemptionIff(cfg: Config, db: Db, x: ScanInput, now: Time, dbNow: Time)
    requires Formed(x) && (x.occurrence == Nil || Unknown(db, x.occurrence))
    ensures var r := RedeemSingle(cfg, db, x, None, now, dbNow);
            var id := RedemptionId(x);
            && (r.Ok? && r.value.1.accepted <==>
                  && Holder(db, x) && !Did(db, x.ticket, Refunded) && !Did(db, x.ticket, Exchanged)
                  && Untaken(db, x.ticket) && !Did(db, x.ticket, Redeemed)
                  && cfg.signer.Some? && id !in db.trail.events && Room(db, x.ticket, id))
            && (r.Ok? && r.value.1.accepted ==>
                  && r.value.1 == ScanResult(true, Accepted, RedemptionTime(x, dbNow), false)
                  && r.value.0 == db.(trail := r.value.0.trail)
                  && r.value.0.trail.events == db.trail.events[id := EventRow(x.ticket, Redeemed, RedemptionTime(x, dbNow))])
  {
    hide AppendEvent, Degraded, Lookup, ModeOf, Has, EventTime, Did, Room, Unknown;
    NotVoid(db, x.ticket);
    TakenIs(db, x.ticket);
    KnownIs(db, x.ticket, x.occurrence, Entry, false);
    if Formed(x) {
      AppendIff(cfg, db, A.Input(x.ticket, x.who, RedemptionId(x), Redeemed, RedemptionTime(x, dbNow)));
    }
  }

  /** On an honest store with a signer, room is a matter of the id alone. */
  lemma HonestRedemptionIff(cfg: Config, db: Db, x: ScanInput, now: Time, dbNow: Time)
    requires A.Honest(cfg.keys, db.tickets, db.trail) && cfg.signer.Some?
    requires Formed(x) && (x.occurrence == Nil || Unknown(db, x.occurrence))
    ensures var r := RedeemSingle(cfg, db, x, None, now, dbNow);
            r.Ok? && r.value.1.accepted <==>
              && Holder(db, x) && !Did(db, x.ticket, Refunded) && !Did(db, x.ticket, Exchanged)
              && Untaken(db, x.ticket) && !Did(db, x.ticket, Redeemed) && RedemptionId(x) !in db.trail.events
  {
    hide A.Honest, RedeemSingle, Did, Room;
    FreshRedemptionIff(cfg, db, x, now, dbNow);
    if Holder(db, x) && RedemptionId(x) !in db.trail.events {
      HonestRoom(cfg.keys, db, x.ticket, RedemptionId(x));
    }
  }

  /** A scan of a void ticket is denied by name at once, whatever the gate says. */
  lemma VoidIsDenied(cfg: Config, db: Db, x: ScanInput, direction: EventType, verdict: Option<AlarmReason>, live: Decision,
                     now: Time, dbNow: Time)
    requires Formed(x) && Holder(db, x)
    ensures Did(db, x.ticket, Refunded) ==>
              && RedeemSingle(cfg, db, x, verdict, now, dbNow) == Ok((db, ScanResult(false, RefundedTicket, now, false)))
              && (x.occurrence != Nil ==>
                    AdmitPass(cfg, db, x, direction, verdict, live, now) == Ok((db, ScanResult(false, RefundedTicket, now, false))))
    ensures Did(db, x.ticket, Exchanged) && !Did(db, x.ticket, Refunded) ==>
              && RedeemSingle(cfg, db, x, verdict, now, dbNow) == Ok((db, ScanResult(false, ExchangedTicket, now, false)))
              && (x.occurrence != Nil ==>
                    AdmitPass(cfg, db, x, direction, verdict, live, now) == Ok((db, ScanResult(false, ExchangedTicket, now, false))))
  {
    hide Has, Did, DegradedScan, RedeemVerified, PassVerified, ExitUnverifiedScan;
    NotVoid(db, x.ticket);
  }

  /** A malformed scan or a credential that is not the ticket's is an error and changes nothing. */
  lemma StrangerIsRefused(cfg: Config, db: Db, x: ScanInput, direction: EventType, verdict: Option<AlarmReason>, live: Decision,
                          now: Time, dbNow: Time)
    ensures !Formed(x) ==> RedeemSingle(cfg, db, x, verdict, now, dbNow) == Err(InvalidOccurrence)
    ensures Formed(x) && !Holder(db, x) ==> RedeemSingle(cfg, db, x, verdict, now, dbNow) == Err(TicketCredential)
    ensures x.occurrence == Nil ==>
              AdmitPass(cfg, db, x, direction, verdict, live, now) == Ok((db, ScanResult(false, OccurrenceRequired, now, false)))
    ensures !Formed(x) ==> AdmitPass(cfg, db, x, direction, verdict, live, now) == Err(InvalidOccurrence)
    ensures x.occurrence != Nil && Formed(x) && !Holder(db, x) ==>
              AdmitPass(cfg, db, x, direction, verdict, live, now) == Err(TicketCredential)
  {
    hide Has, DegradedScan, RedeemVerified, PassVerified, ExitUnverifiedScan;
  }

  /** The other denials of a ticket with nothing against its chain: a degraded admission is
      answered at its time and reported again, a redemption at the time of its event. */
  lemma UsedIsDenied(cfg: Config, db: Db, x: ScanInput, now: Time, dbNow: Time)
    requires Formed(x) && Holder(db, x) && (x.occurrence == Nil || Unknown(db, x.occurrence))
    requires !Did(db, x.ticket, Refunded) && !Did(db, x.ticket, Exchanged)
    ensures var r := RedeemSingle(cfg, db, x, None, now, dbNow);
            && (!Untaken(db, x.ticket) ==>
                  && r.Ok? && OnlyTrail(db, r.value.0) && r.value.0.trail == db.trail
                  && !r.value.1.accepted && !r.value.1.replayed && r.value.1.decision == IntegrityQuarantined
                  && TookDegraded(db, x.ticket, r.value.1.at)
                  && exists reason :: r.value.0.alarms
                       == db.alarms + [IntegrityAlarm(x.who.organizer, x.ticket, reason, IntegrityQuarantined, ModeOf(db, x.who.organizer))])
            && (Untaken(db, x.ticket) && Did(db, x.ticket, Redeemed) ==>
                  && r.Ok? && r.value.0 == db && !r.value.1.accepted && !r.value.1.replayed
                  && r.value.1.decision == AlreadyRedeemed && DidAt(db, x.ticket, Redeemed, r.value.1.at))
  {
    hide AppendEvent, Lookup, ModeOf, Did, Unknown, Degraded;
    NotVoid(db, x.ticket);
    TakenIs(db, x.ticket);
    KnownIs(db, x.ticket, x.occurrence, Entry, false);
  }

  // ---------------------------------------------------------------- a suspect chain

  /** A degraded admission of this organizer after this point in time. */
  predicate IsRecent(q: QuarantineRow, organizer: Uuid, after: Time) {
    q.organizer == organizer && q.admittedAt.Some? && q.admittedAt.value > after
  }

  ghost function Recent(q: seq<QuarantineRow>, organizer: Uuid, after: Time): nat {
    |set i | 0 <= i < |q| && IsRecent(q[i], organizer, after)|
  }

  lemma {:induction false} RecentIs(q: seq<QuarantineRow>, organizer: Uuid, after: Time)
    ensures RecentDegraded(q, organizer, after) == Recent(q, organizer, after)
  {
    if q != [] {
      var n := |q| - 1;
      RecentIs(q[..n], organizer, after);
      OneMoreRecent(q, organizer, after);
    }
  }

  lemma OneMoreRecent(q: seq<QuarantineRow>, organizer: Uuid, after: Time)
    requires q != []
    ensures var n := |q| - 1;
            Recent(q, organizer, after) == Recent(q[..n], organizer, after) + if IsRecent(q[n], organizer, after) then 1 else 0
  {
    hide IsRecent;
    var n := |q| - 1;
    var before := set i | 0 <= i < n && IsRecent(q[..n][i], organizer, after);
    var all := set i | 0 <= i < |q| && IsRecent(q[i], organizer, after);
    assert all == before + if IsRecent(q[n], organizer, after) then {n} else {};
  }

  /** The policy in force: three failures in a minute unless a positive one is configured. */
  function Failures(cfg: Config): int {
    if cfg.failureThreshold > 0 && cfg.failureWindow > 0 then cfg.failureThreshold else 3
  }

  function Within(cfg: Config): int {
    if cfg.failureThreshold > 0 && cfg.failureWindow > 0 then cfg.failureWindow else 60_000_000
  }

  function ModeIn(db: Db, organizer: Uuid): Mode {
    if organizer in db.modes then db.modes[organizer] else Normal
  }

  /** A scan of a ticket whose chain is suspect, not a repeat: it is let in once, if its
      organizer is not set to deny; the row that says so, the mode it may flip and the alarm
      it owes are exactly these. */
  lemma SuspectIsAnswered(cfg: Config, db: Db, t: Uuid, who: Identity, occ: EventId, direction: EventType, reason: AlarmReason, now: Time)
    requires occ == Nil || Unknown(db, occ)
    ensures var r := DegradedScan(cfg, db, t, who, occ, direction, reason, now);
            && r.Ok? && !r.value.1.replayed
            && (r.value.1.accepted <==> Untaken(db, t) && ModeIn(db, who.organizer) != OperatorDeny)
            && (r.value.1.accepted ==>
                  var rows := db.quarantine + [QuarantineRow(t, who.organizer, reason, Some(now), occ, None, Redeemed)];
                  var flips := ModeIn(db, who.organizer) == Normal && Recent(rows, who.organizer, now - Within(cfg)) >= Failures(cfg);
                  && r.value.1 == ScanResult(true, AdmittedDegraded, now, false)
                  && r.value.0 == db.(quarantine := rows,
                                      modes := if flips then db.modes[who.organizer := OperatorDeny] else db.modes,
                                      alarms := db.alarms + [IntegrityAlarm(who.organizer, t, reason, AdmittedDegraded,
                                                   if flips then OperatorDeny else ModeIn(db, who.organizer))]))
            && (!Untaken(db, t) ==>
                  && r.value.1.decision == IntegrityQuarantined && TookDegraded(db, t, r.value.1.at)
                  && r.value.0 == db.(alarms := db.alarms + [IntegrityAlarm(who.organizer, t, reason, IntegrityQuarantined,
                                                                           ModeIn(db, who.organizer))]))
            && (Untaken(db, t) && ModeIn(db, who.organizer) == OperatorDeny ==>
                  && r.value.1 == ScanResult(false, OperatorControlled, now, false)
                  && r.value.0 == db.(alarms := db.alarms + [IntegrityAlarm(who.organizer, t, reason, OperatorControlled, OperatorDeny)]))
  {
    hide Lookup, Degraded, Unknown, RecentDegraded, Recent;
    TakenIs(db, t);
    KnownIs(db, t, occ, direction, false);
    RecentIs(db.quarantine + [QuarantineRow(t, who.organizer, reason, Some(now), occ, None, Redeemed)], who.organizer, now - Within(cfg));
  }

  /** That is how a single-entry scan of a suspect, unvoided ticket is decided, and a pass entry. */
  lemma SuspectScan(cfg: Config, db: Db, x: ScanInput, direction: EventType, reason: AlarmReason, live: Decision, now: Time, dbNow: Time)
    requires Formed(x) && Holder(db, x) && !Did(db, x.ticket, Refunded) && !Did(db, x.ticket, Exchanged)
    ensures RedeemSingle(cfg, db, x, Some(reason), now, dbNow) == DegradedScan(cfg, db, x.ticket, x.who, x.occurrence, Entry, reason, now)
    ensures x.occurrence != Nil && direction != Exit ==>
              AdmitPass(cfg, db, x, direction, Some(reason), live, now)
              == DegradedScan(cfg, db, x.ticket, x.who, x.occurrence, direction, reason, now)
  {
    hide Has, Did, DegradedScan;
    NotVoid(db, x.ticket);
  }

  /** An exit of a suspect chain that is not a repeat is denied and reported, and lets nobody in. */
  lemma SuspectExit(cfg: Config, db: Db, x: ScanInput, reason: AlarmReason, live: Decision, now: Time)
    requires Formed(x) && Holder(db, x) && !Did(db, x.ticket, Refunded) && !Did(db, x.ticket, Exchanged)
    requires x.occurrence != Nil && Unknown(db, x.occurrence)
    ensures AdmitPass(cfg, db, x, Exit, Some(reason), live, now)
            == Ok((db.(alarms := db.alarms + [IntegrityAlarm(x.who.organizer, x.ticket, reason, ExitUnverified, ModeIn(db, x.who.organizer))]),
                   ScanResult(false, ExitUnverified, now, false)))
  {
    hide Has, Did, Lookup, Unknown;
    NotVoid(db, x.ticket);
    KnownIs(db, x.ticket, x.occurrence, Exit, true);
  }

  // ---------------------------------------------------------------- passes

  /** Who passes: on a pass slot, with nothing against the chain, a scan that is not a repeat is
      accepted if and only if the credential is the ticket's, the ticket is not void and has no
      degraded admission, the policy accepts, and the event can be signed onto the chain; it is
      recorded in its own direction at its claimed time. */
  lemma FreshPassIff(cfg: Config, db: Db, x: ScanInput, direction: EventType, live: Decision, now: Time)
    requires Formed(x) && x.occurrence != Nil && Unknown(db, x.occurrence) && (direction == Entry || direction == Exit)
    ensures var r := AdmitPass(cfg, db, x, direction, None, live, now);
            && (r.Ok? && r.value.1.accepted <==>
                  && Holder(db, x) && !Did(db, x.ticket, Refunded) && !Did(db, x.ticket, Exchanged)
                  && Untaken(db, x.ticket) && live == Accepted && cfg.signer.Some? && Room(db, x.ticket, x.occurrence))
            && (r.Ok? && r.value.1.accepted ==>
                  && r.value.1 == ScanResult(true, Accepted, x.at.value, false) && r.value.0 == db.(trail := r.value.0.trail)
                  && r.value.0.trail.events == db.trail.events[x.occurrence := EventRow(x.ticket, direction, x.at.value)])
            && (Holder(db, x) && !Did(db, x.ticket, Refunded) && !Did(db, x.ticket, Exchanged) ==>
                  && (Untaken(db, x.ticket) && live != Accepted ==> r == Ok((db, ScanResult(false, live, now, false))))
                  && (!Untaken(db, x.ticket) ==>
                        r.Ok? && r.value.0.trail == db.trail && OnlyTrail(db, r.value.0) && !r.value.1.accepted
                        && r.value.1.decision == IntegrityQuarantined && TookDegraded(db, x.ticket, r.value.1.at)))
  {
    hide AppendEvent, Degraded, Lookup, ModeOf, Has, Did, Room;
    NotVoid(db, x.ticket);
    TakenIs(db, x.ticket);
    KnownIs(db, x.ticket, x.occurrence, direction, true);
    AppendIff(cfg, db, A.Input(x.ticket, x.who, x.occurrence, direction, x.at.value));
  }

  /** The slot's policy picks the path, and only a pass has exits. */
  lemma ScanPicksPath(cfg: Config, db: Db, x: ScanInput, direction: EventType, verdict: Option<AlarmReason>, live: Decision,
                      now: Time, dbNow: Time)
    ensures var r := Scan(cfg, db, x, direction, verdict, live, now, dbNow);
            && (direction != Entry && direction != Exit ==> r == Err(BadDirection))
            && (direction == Entry || direction == Exit ==>
                  && (x.who.slot in db.passes ==> r == AdmitPass(cfg, db, x, direction, verdict, live, now))
                  && (x.who.slot !in db.passes && direction == Entry ==> r == RedeemSingle(cfg, db, x, verdict, now, dbNow))
                  && (x.who.slot !in db.passes && direction == Exit ==> r == Ok((db, ScanResult(false, ExitNotApplicable, now, false)))))
  {
    hide AdmitPass, RedeemSingle;
  }

  // ---------------------------------------------------------------- reconciliation

  /** The ticket has gone through a door, by any route: a redemption or an entry in the trail,
      a degraded admission, or one learnt of while its chain was suspect. */
  ghost predicate WentIn(db: Db, t: Uuid) {
    || Did(db, t, Redeemed) || Did(db, t, Entry)
    || exists q | q in db.quarantine :: q.ticket == t && (q.admittedAt.Some? || q.kind == Redeemed || q.kind == Entry)
  }

  /** What a first reconciliation records. */
  ghost function RecordedKind(db: Db, x: ScanInput, direction: EventType): EventType {
    if x.who.slot in db.passes then direction else if WentIn(db, x.ticket) then DuplicateAdmit else Redeemed
  }

  predicate FarOff(at: Time, now: Time) {
    at > now + 86_400_000_000 || at < now - 86_400_000_000
  }

  /** What is reconciled, and as what: with nothing against the chain, an item that is not a
      repeat is recorded if and only if the credential is the ticket's, its direction exists on
      its slot and it can be signed onto the chain.  On a pass it is its own direction; on a
      single entry the first way in is the redemption and every further one a duplicate.  A
      conflict alarm is owed for a duplicate and for a void ticket, on single entries. */
  lemma FreshReconciliationIff(cfg: Config, db: Db, x: ScanInput, direction: EventType, now: Time)
    requires x.occurrence.Occurrence? && x.at.Some? && Unknown(db, x.occurrence) && (direction == Entry || direction == Exit)
    ensures var r := Reconcile(cfg, db, x, direction, None, now);
            var kind := RecordedKind(db, x, direction);
            var owed := x.who.slot !in db.passes && (WentIn(db, x.ticket) || Did(db, x.ticket, Refunded) || Did(db, x.ticket, Exchanged));
            && (r.Ok? <==> Holder(db, x) && (x.who.slot in db.passes || direction == Entry)
                           && cfg.signer.Some? && Room(db, x.ticket, x.occurrence))
            && (r.Ok? ==>
                  && OnlyTrail(db, r.value.0)
                  && r.value.0.trail.events == db.trail.events[x.occurrence := EventRow(x.ticket, kind, x.at.value)]
                  && r.value.0.alarms == (if owed then db.alarms + [ConflictAlarm(x.who.organizer, x.ticket, x.occurrence, x.at.value,
                                                                                FarOff(x.at.value, now))] else db.alarms)
                  && r.value.1 == SyncResult(if kind == DuplicateAdmit then Conflict else RecordedNow, x.at.value, FarOff(x.at.value, now)))
            && (!Holder(db, x) ==> r == Err(TicketCredential))
            && (Holder(db, x) && x.who.slot !in db.passes && direction == Exit ==> r == Err(NotApplicable))
  {
    hide AppendEvent, Lookup, Did, Room, Has, Quarantined;
    NotVoid(db, x.ticket);
    KnownIs(db, x.ticket, x.occurrence, direction, true);
    assert AdmittedUnion(db, x.ticket) <==> WentIn(db, x.ticket);
    AppendIff(cfg, db, A.Input(x.ticket, x.who, x.occurrence, RecordedKind(db, x, direction), x.at.value));
  }

  /** An item of a suspect chain is kept beside the trail, with its direction on a pass and as a
      redemption on a single entry, and owes no alarm of its own. */
  lemma SuspectReconciliation(cfg: Config, db: Db, x: ScanInput, direction: EventType, reason: AlarmReason, now: Time)
    requires x.occurrence.Occurrence? && x.at.Some? && Unknown(db, x.occurrence) && (direction == Entry || direction == Exit)
    requires Holder(db, x) && (x.who.slot in db.passes || direction == Entry)
    ensures Reconcile(cfg, db, x, direction, Some(reason), now)
            == Ok((db.(quarantine := db.quarantine + [QuarantineRow(x.ticket, x.who.organizer, reason, None, x.occurrence, x.at,
                                        if x.who.slot in db.passes then direction else Redeemed)]),
                   SyncResult(RecordedNow, x.at.value, FarOff(x.at.value, now))))
  {
    hide Lookup;
    KnownIs(db, x.ticket, x.occurrence, direction, true);
  }

  /** A known item is synced at its recorded time, or collides; either way nothing changes. */
  lemma KnownReconciliation(cfg: Config, db: Db, x: ScanInput, direction: EventType, verdict: Option<AlarmReason>, now: Time)
    requires x.occurrence.Occurrence? && x.at.Some? && !Unknown(db, x.occurrence) && (direction == Entry || direction == Exit)
    requires Holder(db, x) && (x.who.slot in db.passes || direction == Entry)
    ensures var seen := Lookup(db, x.ticket, x.occurrence, direction, true);
            var r := Reconcile(cfg, db, x, direction, verdict, now);
            && !seen.NotRecorded?
            && (seen.Collision? ==> r == Err(OccurrenceCollision))
            && (!seen.Collision? ==> r == Ok((db, SyncResult(Synced, seen.at, FarOff(x.at.value, now)))))
  {
    hide Lookup;
    KnownIs(db, x.ticket, x.occurrence, direction, true);
  }

  /** A local refusal is recorded if and only if the credential is the ticket's and no table
      knows the occurrence; its repeat is synced, and anything else collides. */
  lemma RefusalIff(db: Db, x: ScanInput)
    requires x.occurrence.Occurrence? && x.at.Some?
    ensures var r := RecordRefusal(db, x);
            var row := RefusalRow(x.ticket, x.who.organizer, x.at.value);
            && (r.Ok? && r.value.1.outcome == RecordedNow <==> Holder(db, x) && Unknown(db, x.occurrence))
            && (Holder(db, x) && Unknown(db, x.occurrence) ==>
                  r == Ok((db.(refusals := db.refusals[x.occurrence := row]), SyncResult(RecordedNow, x.at.value, false))))
            && (!Holder(db, x) ==> r == Err(TicketCredential))
            && (Holder(db, x) && !Unknown(db, x.occurrence) ==>
                  r == if x.occurrence in db.refusals && db.refusals[x.occurrence] == row
                       then Ok((db, SyncResult(Synced, x.at.value, false))) else Err(OccurrenceCollision))
  {
    hide Quarantined;
  }

  // ---------------------------------------------------------------- recording, delivery

  /** A recording under a known id is its repeat, of the same ticket and type, or a collision. */
  lemma RepeatedRecording(cfg: Config, db: Db, x: ScanInput, kind: EventType)
    requires kind in {Entry, Exit, DuplicateAdmit} && x.occurrence.Occurrence? && x.at.Some? && Holder(db, x)
    ensures x.occurrence in db.trail.events ==>
              var row := db.trail.events[x.occurrence];
              RecordAdmission(cfg, db, x, kind)
              == if row.ticket == x.ticket && row.kind == kind then Ok((db, Stored(kind, row.at, true))) else Err(OccurrenceCollision)
    ensures x.occurrence !in db.trail.events && RecordAdmission(cfg, db, x, kind).Ok? ==>
              var r := RecordAdmission(cfg, db, x, kind).value;
              && r.1 == Stored(kind, x.at.value, false) && r.0 == db.(trail := r.0.trail)
              && r.0.trail.events == db.trail.events[x.occurrence := EventRow(x.ticket, kind, x.at.value)]
  {
    hide AppendEvent;
    AppendIff(cfg, db, A.Input(x.ticket, x.who, x.occurrence, kind, x.at.value));
  }

  /** A delivery is recorded if and only if the ticket exists, was not delivered before and the
      event can be signed onto its chain; repeating it changes nothing. */
  lemma DeliveryIff(cfg: Config, db: Db, t: Uuid, now: Time)
    ensures var r := MarkDelivered(cfg, db, t, now);
            && (t !in db.tickets ==> r == Err(TicketCredential))
            && (t in db.tickets && Did(db, t, Delivered) ==> r == Ok(db))
            && (t in db.tickets && !Did(db, t, Delivered) ==>
                  && (r.Ok? <==> cfg.signer.Some? && DeliveredId(t) !in db.trail.events && Room(db, t, DeliveredId(t)))
                  && (r.Ok? ==> r.value == db.(trail := r.value.trail)
                                && r.value.trail.events == db.trail.events[DeliveredId(t) := EventRow(t, Delivered, now)]))
  {
    hide AppendEvent, Did, Room, Has;
    NotVoid(db, t);
    if t in db.tickets {
      AppendIff(cfg, db, A.Input(t, db.tickets[t], DeliveredId(t), Delivered, now));
    }
  }
}
