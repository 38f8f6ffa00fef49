/**
 The store as an object that owns the tables.

 A method works on a local copy of the tables, its transaction, and assigns it to the field
 when it commits; returning an error without the assignment is the rollback.  Each method is
 proved against the function in `Store` that specifies it.
 */
module AccessStore {
  import opened Basics
  import opened Canonical
  import opened Trail
  import opened Store
  import A = Appending
  import B = Backfill
  import C = Checkpoints
  import Merkle

  /** What a transaction leaves behind and answers, given its specification. */
  ghost predicate Commits<T>(before: Db, after: Db, spec: Result<(Db, T), StoreError>, answer: Result<T, StoreError>) {
    match spec
    case Ok((tables, value)) => after == tables && answer == Ok(value)
    case Err(e) => after == before && answer == Err(e)
  }

  ghost predicate CommitsQuietly(before: Db, after: Db, spec: Result<Db, StoreError>, answer: Result<(), StoreError>) {
    match spec
    case Ok(tables) => after == tables && answer == Ok(())
    case Err(e) => after == before && answer == Err(e)
  }

  /** The unique index on the events a ticket has at most once. */
  ghost predicate OneEach(events: map<EventId, EventRow>) {
    forall a, b | a in events && b in events ::
      events[a].ticket == events[b].ticket && events[a].kind == events[b].kind && A.Singleton(events[a].kind) ==> a == b
  }

  /** What the ordered event query of the gate returns. */
  ghost predicate QueryResult(tr: Trail, t: Uuid, rows: seq<EventId>) {
    Lists(tr.events, t, rows) && InSequence(tr, t, true, rows)
  }

  class Postgres {
    var db: Db
    const cfg: Config

    ghost predicate Valid()
      reads this
    {
      OneEach(db.trail.events)
    }

    constructor (cfg: Config, db: Db)
      requires OneEach(db.trail.events)
      ensures Valid() && this.cfg == cfg && this.db == db
    {
      this.cfg, this.db := cfg, db;
    }

    // -------------------------------------------------------------- appending

    /** Event, link, head and queued snapshot, in this order; the first insert that hits a
        unique index decides the error. */
    method AppendLifecycle(tx: Db, x: A.Input) returns (r: Result<Db, StoreError>)
      ensures r == AppendEvent(cfg, tx, x)
      ensures r.Ok? && OneEach(tx.trail.events) ==> OneEach(r.value.trail.events)
    {
      hide HashEntry, CanonicalHead;
      if cfg.signer.None? {
        return Err(Unsigned);
      }
      var kid := cfg.signer.value;
      var last, previous := 0, GENESIS;
      if x.ticket in tx.trail.heads {
        last, previous := tx.trail.heads[x.ticket].sequence, tx.trail.heads[x.ticket].hash;
      }
      var tr := tx.trail;
      if A.Taken(tr.events, x) {
        return Err(EventTaken);
      }
      tr := tr.(events := tr.events[x.id := EventRow(x.ticket, x.kind, x.at)]);

      var sequence := last + 1;
      var entry := HashEntry(cfg.keys.suite, previous, EventOf(x.ticket, x.who, last, x.id, EventRow(x.ticket, x.kind, x.at)));
      var link := LinkRow(x.ticket, sequence, CANONICAL_VERSION, previous, entry);
      if A.LinkTaken(tr, x, link) {
        return Err(Damaged);
      }
      tr := tr.(links := tr.links[x.id := link]);

      var signature := cfg.keys.suite.sign(kid, CanonicalHead(cfg.keys.suite, x.ticket, sequence, kid, entry));
      var organizer := if x.ticket in tr.heads then tr.heads[x.ticket].organizer else x.who.organizer;
      tr := tr.(heads := tr.heads[x.ticket := HeadRow(organizer, sequence, CANONICAL_VERSION, entry, kid, signature)]);

      var change := ChangeRow(x.ticket, x.who.organizer, sequence, entry, CANONICAL_VERSION, kid, signature, None);
      tr := tr.(changes := tr.changes + [change]);
      r := Ok(tx.(trail := tr));
    }

    /** A taken id under an occurrence is a collision, whatever took it. */
    method AppendUnderOccurrence(tx: Db, x: A.Input) returns (r: Result<Db, StoreError>)
      ensures r == AppendOccurrence(cfg, tx, x)
      ensures r.Ok? && OneEach(tx.trail.events) ==> OneEach(r.value.trail.events)
    {
      hide AppendEvent;
      r := AppendLifecycle(tx, x);
      if r == Err(EventTaken) {
        r := Err(OccurrenceCollision);
      }
    }

    // -------------------------------------------------------------- issuance, delivery

    method InsertIssuedTicket(tx: Db, t: NewTicket) returns (r: Result<Db, StoreError>)
      ensures r == InsertIssued(cfg, tx, t)
      ensures r.Ok? && OneEach(tx.trail.events) ==> OneEach(r.value.trail.events)
    {
      hide AppendEvent, OneEach;
      if t.id in tx.tickets {
        return Err(RowExists);
      }
      var inserted := tx.(tickets := tx.tickets[t.id := t.who]);
      r := AppendLifecycle(inserted, A.Input(t.id, t.who, IssuedId(t.id), Issued, t.issuedAt));
    }

    method InsertTickets(tx: Db, ts: seq<NewTicket>) returns (r: Result<Db, StoreError>)
      ensures r == InsertAll(cfg, tx, ts)
      ensures r.Ok? && OneEach(tx.trail.events) ==> OneEach(r.value.trail.events)
    {
      hide InsertIssued, OneEach;
      var next := tx;
      for i := 0 to |ts|
        invariant InsertAll(cfg, tx, ts) == InsertAll(cfg, next, ts[i..])
        invariant OneEach(tx.trail.events) ==> OneEach(next.trail.events)
      {
        var inserted := InsertIssuedTicket(next, ts[i]);
        if inserted.Err? {
          return inserted;
        }
        assert ts[i..][1..] == ts[i + 1..];
        next := inserted.value;
      }
      r := Ok(next);
    }

    method Issue(event: Uuid, ts: seq<NewTicket>) returns (r: Result<(), StoreError>)
      requires Valid()
      modifies this`db
      ensures Valid() && CommitsQuietly(old(db), db, Store.Issue(cfg, old(db), event, ts), r)
    {
      hide InsertAll, OneEach;
      if event in db.consumed {
        return Ok(());
      }
      var tx := db.(consumed := db.consumed + {event});
      var inserted := InsertTickets(tx, ts);
      if inserted.Err? {
        return Err(inserted.error);
      }
      db := inserted.value;
      r := Ok(());
    }

    method MarkDelivered(t: Uuid, now: Time) returns (r: Result<(), StoreError>)
      requires Valid()
      modifies this`db
      ensures Valid() && CommitsQuietly(old(db), db, Store.MarkDelivered(cfg, old(db), t, now), r)
    {
      hide AppendEvent, Has, OneEach;
      if t !in db.tickets {
        return Err(TicketCredential);
      }
      if Has(db, t, Delivered) {
        return Ok(());
      }
      var appended := AppendLifecycle(db, A.Input(t, db.tickets[t], DeliveredId(t), Delivered, now));
      if appended.Err? {
        return Err(appended.error);
      }
      db := appended.value;
      r := Ok(());
    }

    // -------------------------------------------------------------- replay

    /** The trail first, then the quarantine side, then the local refusals. */
    method ReplayByOccurrence(tx: Db, t: Uuid, occ: EventId, direction: EventType, duplicates: bool) returns (seen: Recorded)
      ensures seen == Lookup(tx, t, occ, direction, duplicates)
    {
      if occ in tx.trail.events {
        var row := tx.trail.events[occ];
        var matches := if duplicates then RecordMatches(direction, row.kind) else GateMatches(direction, row.kind);
        if row.ticket != t || !matches {
          return Collision;
        }
        return InTrail(row.at);
      }
      var q := Quarantined(tx.quarantine, occ);
      if q.Some? {
        if q.value.ticket != t {
          return Collision;
        }
        if q.value.admittedAt.Some? {
          return AsDegraded(q.value.admittedAt.value);
        }
        var matches := if duplicates then RecordMatches(direction, q.value.kind) else GateMatches(direction, q.value.kind);
        if !matches {
          return Collision;
        }
        return AsRecording(if q.value.occurredAt.Some? then q.value.occurredAt.value else 0);
      }
      seen := if occ in tx.refusals then Collision else NotRecorded;
    }

    method Replayed(seen: Recorded) returns (result: ScanResult)
      requires !seen.NotRecorded? && !seen.Collision?
      ensures result == Replay(seen)
    {
      result := match seen
                case InTrail(at) => ScanResult(true, Accepted, at, true)
                case AsDegraded(at) => ScanResult(true, AdmittedDegraded, at, true)
                case AsRecording(at) => ScanResult(true, Accepted, at, true);
    }

    /** The time of the one event of this type. */
    method OccurredAt(tx: Db, t: Uuid, kind: EventType) returns (at: Time)
      requires OneEach(tx.trail.events) && A.Singleton(kind) && Has(tx, t, kind)
      ensures at == EventTime(tx, t, kind)
    {
      var id :| id in tx.trail.events.Keys && tx.trail.events[id].ticket == t && tx.trail.events[id].kind == kind;
      at := tx.trail.events[id].at;
    }

    // -------------------------------------------------------------- degraded scans

    /** The flip leaves any mode but `Normal` alone. */
    method Flip(tx: Db, organizer: Uuid) returns (next: Db)
      ensures next == FlipMode(tx, organizer)
    {
      next := tx;
      if ModeOf(tx, organizer) == Normal {
        next := tx.(modes := tx.modes[organizer := OperatorDeny]);
      }
    }

    method CountRecent(q: seq<QuarantineRow>, organizer: Uuid, after: Time) returns (recent: nat)
      ensures recent == RecentDegraded(q, organizer, after)
    {
      recent := 0;
      for i := 0 to |q|
        invariant recent == RecentDegraded(q[..i], organizer, after)
      {
        assert q[..i + 1][..i] == q[..i];
        if q[i].organizer == organizer && q[i].admittedAt.Some? && q[i].admittedAt.value > after {
          recent := recent + 1;
        }
      }
      assert q[..|q|] == q;
    }

    method AdmitOnce(tx: Db, t: Uuid, who: Identity, occ: EventId, reason: AlarmReason, now: Time) returns (next: Db)
      ensures next == AdmitDegraded(cfg, tx, t, who, occ, reason, now)
    {
      hide RecentDegraded;
      next := tx.(quarantine := tx.quarantine + [QuarantineRow(t, who.organizer, reason, Some(now), occ, None, Redeemed)]);
      var recent := CountRecent(next.quarantine, who.organizer, now - cfg.Window());
      if recent >= cfg.Threshold() {
        next := Flip(next, who.organizer);
      }
      var alarm := IntegrityAlarm(who.organizer, t, reason, AdmittedDegraded, ModeOf(next, who.organizer));
      next := next.(alarms := next.alarms + [alarm]);
    }

    method Degrade(tx: Db, t: Uuid, who: Identity, occ: EventId, direction: EventType, reason: AlarmReason, now: Time)
      returns (r: Result<(Db, ScanResult), StoreError>)
      ensures r == DegradedScan(cfg, tx, t, who, occ, direction, reason, now)
      ensures r.Ok? ==> r.value.0.trail == tx.trail
    {
      hide Lookup, Replay, Degraded, AdmitDegraded, ModeOf;
      AdmissionLeavesTrail(cfg, tx, t, who, occ, reason, now);
      if occ != Nil {
        var seen := ReplayByOccurrence(tx, t, occ, direction, false);
        if seen.Collision? {
          return Err(OccurrenceCollision);
        }
        if !seen.NotRecorded? {
          var result := Replayed(seen);
          return Ok((tx, result));
        }
      }
      var taken := Degraded(tx.quarantine, t);
      var mode := ModeOf(tx, who.organizer);
      if taken.Some? {
        var owed := tx.(alarms := tx.alarms + [IntegrityAlarm(who.organizer, t, reason, IntegrityQuarantined, mode)]);
        return Ok((owed, ScanResult(false, IntegrityQuarantined, taken.value.admittedAt.value, false)));
      }
      if mode == OperatorDeny {
        var owed := tx.(alarms := tx.alarms + [IntegrityAlarm(who.organizer, t, reason, OperatorControlled, mode)]);
        return Ok((owed, ScanResult(false, OperatorControlled, now, false)));
      }
      var admitted := AdmitOnce(tx, t, who, occ, reason, now);
      r := Ok((admitted, ScanResult(true, AdmittedDegraded, now, false)));
    }

    // -------------------------------------------------------------- live redemption

    /** The quarantine and redemption checks of a chain that verified, and the append. */
    method Redeem(tx: Db, x: ScanInput, dbNow: Time) returns (r: Result<(Db, ScanResult), StoreError>)
      requires OneEach(tx.trail.events) && !BadOccurrence(x)
      ensures r == RedeemVerified(cfg, tx, x, dbNow)
      ensures r.Ok? ==> OneEach(r.value.0.trail.events)
    {
      hide Lookup, Replay, Degraded, ModeOf, Has, OneEach, AppendEvent;
      if x.occurrence != Nil {
        var seen := ReplayByOccurrence(tx, x.ticket, x.occurrence, Entry, false);
        if seen.Collision? {
          return Err(OccurrenceCollision);
        }
        if !seen.NotRecorded? {
          var result := Replayed(seen);
          return Ok((tx, result));
        }
      }
      var taken := Degraded(tx.quarantine, x.ticket);
      if taken.Some? {
        var alarm := IntegrityAlarm(x.who.organizer, x.ticket, taken.value.reason, IntegrityQuarantined, ModeOf(tx, x.who.organizer));
        return Ok((tx.(alarms := tx.alarms + [alarm]), ScanResult(false, IntegrityQuarantined, taken.value.admittedAt.value, false)));
      }
      if Has(tx, x.ticket, Redeemed) {
        var at := OccurredAt(tx, x.ticket, Redeemed);
        return Ok((tx, ScanResult(false, AlreadyRedeemed, at, false)));
      }
      var appended, at := Ok(tx), dbNow;
      if x.occurrence == Nil {
        appended := AppendLifecycle(tx, A.Input(x.ticket, x.who, RedeemedId(x.ticket), Redeemed, dbNow));
      } else {
        at := x.at.value;
        appended := AppendUnderOccurrence(tx, A.Input(x.ticket, x.who, x.occurrence, Redeemed, at));
      }
      if appended.Err? {
        return Err(appended.error);
      }
      r := Ok((appended.value, ScanResult(true, Accepted, at, false)));
    }

    method RedeemSingle(x: ScanInput, rows: seq<EventId>, now: Time, dbNow: Time)
      returns (r: Result<ScanResult, StoreError>)
      requires Valid() && QueryResult(db.trail, x.ticket, rows)
      modifies this`db
      ensures Valid()
      ensures Commits(old(db), db, Store.RedeemSingle(cfg, old(db), x, Verdict(old(db), x, rows), now, dbNow), r)
    {
      hide GateVerdict, DegradedScan, RedeemVerified, Has, OneEach, QueryResult;
      if BadOccurrence(x) {
        return Err(InvalidOccurrence);
      }
      if x.ticket !in db.tickets || db.tickets[x.ticket] != x.who {
        return Err(TicketCredential);
      }
      if Has(db, x.ticket, Refunded) {
        return Ok(ScanResult(false, RefundedTicket, now, false));
      }
      if Has(db, x.ticket, Exchanged) {
        return Ok(ScanResult(false, ExchangedTicket, now, false));
      }
      var health := Gate(db.trail, x, rows);
      var decided;
      if health.Some? {
        decided := Degrade(db, x.ticket, x.who, x.occurrence, Entry, health.value, now);
      } else {
        decided := Redeem(db, x, dbNow);
      }
      if decided.Err? {
        return Err(decided.error);
      }
      db := decided.value.0;
      r := Ok(decided.value.1);
    }

    ghost function Verdict(tables: Db, x: ScanInput, rows: seq<EventId>): Option<AlarmReason>
      requires QueryResult(tables.trail, x.ticket, rows)
    {
      GateVerdict(cfg.keys, x.who, x.ticket, tables.trail, rows)
    }

    method Gate(tr: Trail, x: ScanInput, rows: seq<EventId>) returns (verdict: Option<AlarmReason>)
      requires QueryResult(tr, x.ticket, rows)
      ensures verdict == GateVerdict(cfg.keys, x.who, x.ticket, tr, rows)
    {
      verdict := VerifyTicketChain(cfg.keys, x.who, x.ticket, tr, rows);
    }

    // -------------------------------------------------------------- pass slots

    /** An exit of an unverified chain is denied and reported; it never consumes the degraded
        admission. */
    method DenyExit(tx: Db, x: ScanInput, reason: AlarmReason, now: Time) returns (r: Result<(Db, ScanResult), StoreError>)
      ensures r == ExitUnverifiedScan(tx, x, reason, now)
      ensures r.Ok? ==> r.value.0.trail == tx.trail
    {
      hide Lookup, Replay, ModeOf;
      var seen := ReplayByOccurrence(tx, x.ticket, x.occurrence, Exit, true);
      if seen.Collision? {
        return Err(OccurrenceCollision);
      }
      if !seen.NotRecorded? {
        var result := Replayed(seen);
        return Ok((tx, result));
      }
      var alarm := IntegrityAlarm(x.who.organizer, x.ticket, reason, ExitUnverified, ModeOf(tx, x.who.organizer));
      r := Ok((tx.(alarms := tx.alarms + [alarm]), ScanResult(false, ExitUnverified, now, false)));
    }

    /** The replay, quarantine and policy checks of a chain that verified, and the append. */
    method AdmitVerified(tx: Db, x: ScanInput, direction: EventType, live: Decision, now: Time)
      returns (r: Result<(Db, ScanResult), StoreError>)
      requires OneEach(tx.trail.events) && !BadOccurrence(x) && x.occurrence != Nil
      ensures r == PassVerified(cfg, tx, x, direction, live, now)
      ensures r.Ok? ==> OneEach(r.value.0.trail.events)
    {
      hide Lookup, Replay, Degraded, ModeOf, OneEach, AppendEvent;
      var seen := ReplayByOccurrence(tx, x.ticket, x.occurrence, direction, true);
      if seen.Collision? {
        return Err(OccurrenceCollision);
      }
      if !seen.NotRecorded? {
        var result := Replayed(seen);
        return Ok((tx, result));
      }
      var taken := Degraded(tx.quarantine, x.ticket);
      if taken.Some? {
        var alarm := IntegrityAlarm(x.who.organizer, x.ticket, taken.value.reason, IntegrityQuarantined, ModeOf(tx, x.who.organizer));
        return Ok((tx.(alarms := tx.alarms + [alarm]), ScanResult(false, IntegrityQuarantined, taken.value.admittedAt.value, false)));
      }
      if live != Accepted {
        return Ok((tx, ScanResult(false, live, now, false)));
      }
      var appended := AppendUnderOccurrence(tx, A.Input(x.ticket, x.who, x.occurrence, direction, x.at.value));
      if appended.Err? {
        return Err(appended.error);
      }
      r := Ok((appended.value, ScanResult(true, Accepted, x.at.value, false)));
    }

    method AdmitPass(x: ScanInput, direction: EventType, rows: seq<EventId>, live: Decision, now: Time)
      returns (r: Result<ScanResult, StoreError>)
      requires Valid() && QueryResult(db.trail, x.ticket, rows)
      modifies this`db
      ensures Valid()
      ensures Commits(old(db), db, Store.AdmitPass(cfg, old(db), x, direction, Verdict(old(db), x, rows), live, now), r)
    {
      hide GateVerdict, DegradedScan, PassVerified, ExitUnverifiedScan, Has, OneEach, QueryResult;
      if x.occurrence == Nil {
        return Ok(ScanResult(false, OccurrenceRequired, now, false));
      }
      if BadOccurrence(x) {
        return Err(InvalidOccurrence);
      }
      if x.ticket !in db.tickets || db.tickets[x.ticket] != x.who {
        return Err(TicketCredential);
      }
      if Has(db, x.ticket, Refunded) {
        return Ok(ScanResult(false, RefundedTicket, now, false));
      }
      if Has(db, x.ticket, Exchanged) {
        return Ok(ScanResult(false, ExchangedTicket, now, false));
      }
      var health := Gate(db.trail, x, rows);
      var decided;
      if health.Some? && direction == Exit {
        decided := DenyExit(db, x, health.value, now);
      } else if health.Some? {
        decided := Degrade(db, x.ticket, x.who, x.occurrence, direction, health.value, now);
      } else {
        decided := AdmitVerified(db, x, direction, live, now);
      }
      if decided.Err? {
        return Err(decided.error);
      }
      db := decided.value.0;
      r := Ok(decided.value.1);
    }

    /** The live gate: the slot's policy picks the path, whatever the caller asked for. */
    method Scan(x: ScanInput, direction: EventType, rows: seq<EventId>, live: Decision, now: Time, dbNow: Time)
      returns (r: Result<ScanResult, StoreError>)
      requires Valid() && QueryResult(db.trail, x.ticket, rows)
      modifies this`db
      ensures Valid()
      ensures Commits(old(db), db, Store.Scan(cfg, old(db), x, direction, Verdict(old(db), x, rows), live, now, dbNow), r)
    {
      hide GateVerdict, Store.AdmitPass, Store.RedeemSingle, OneEach, QueryResult;
      if direction != Entry && direction != Exit {
        return Err(BadDirection);
      }
      if x.who.slot in db.passes {
        r := AdmitPass(x, direction, rows, live, now);
      } else if direction == Exit {
        return Ok(ScanResult(false, ExitNotApplicable, now, false));
      } else {
        r := RedeemSingle(x, rows, now, dbNow);
      }
    }

    // -------------------------------------------------------------- recording

    method RecordAdmission(x: ScanInput, kind: EventType) returns (r: Result<Stored, StoreError>)
      requires Valid()
      modifies this`db
      ensures Valid() && Commits(old(db), db, Store.RecordAdmission(cfg, old(db), x, kind), r)
    {
      hide AppendEvent, OneEach;
      if kind !in {Entry, Exit, DuplicateAdmit} {
        return Err(BadDirection);
      }
      if !x.occurrence.Occurrence? || x.at.None? {
        return Err(InvalidOccurrence);
      }
      if x.ticket !in db.tickets || db.tickets[x.ticket] != x.who {
        return Err(TicketCredential);
      }
      if x.occurrence in db.trail.events {
        var row := db.trail.events[x.occurrence];
        if row.ticket != x.ticket || row.kind != kind {
          return Err(OccurrenceCollision);
        }
        return Ok(Stored(kind, row.at, true));
      }
      if x.occurrence in db.refusals {
        return Err(OccurrenceCollision);
      }
      var appended := AppendUnderOccurrence(db, A.Input(x.ticket, x.who, x.occurrence, kind, x.at.value));
      if appended.Err? {
        return Err(appended.error);
      }
      db := appended.value;
      r := Ok(Stored(kind, x.at.value, false));
    }

    /** The part of a reconciliation that records onto a chain that verified. */
    method Reconciled(tx: Db, x: ScanInput, direction: EventType, skewed: bool) returns (r: Result<(Db, SyncResult), StoreError>)
      requires x.at.Some? && OneEach(tx.trail.events)
      ensures r == ReconcileVerified(cfg, tx, x, direction, skewed)
      ensures r.Ok? ==> OneEach(r.value.0.trail.events)
    {
      hide AppendEvent, AdmittedUnion, Has, OneEach;
      var at := x.at.value;
      if x.who.slot in tx.passes {
        var appended := AppendUnderOccurrence(tx, A.Input(x.ticket, x.who, x.occurrence, direction, at));
        if appended.Err? {
          return Err(appended.error);
        }
        return Ok((appended.value, SyncResult(RecordedNow, at, skewed)));
      }
      var alarm := ConflictAlarm(x.who.organizer, x.ticket, x.occurrence, at, skewed);
      var admitted := AdmittedUnion(tx, x.ticket);
      if !admitted {
        var appended := AppendUnderOccurrence(tx, A.Input(x.ticket, x.who, x.occurrence, Redeemed, at));
        if appended.Err? {
          return Err(appended.error);
        }
        var next := appended.value;
        if Has(tx, x.ticket, Refunded) || Has(tx, x.ticket, Exchanged) {
          next := next.(alarms := next.alarms + [alarm]);
        }
        return Ok((next, SyncResult(RecordedNow, at, skewed)));
      }
      var appended := AppendUnderOccurrence(tx, A.Input(x.ticket, x.who, x.occurrence, DuplicateAdmit, at));
      if appended.Err? {
        return Err(appended.error);
      }
      r := Ok((appended.value.(alarms := appended.value.alarms + [alarm]), SyncResult(Conflict, at, skewed)));
    }

    method ReconcileAdmission(x: ScanInput, direction: EventType, rows: seq<EventId>, now: Time)
      returns (r: Result<SyncResult, StoreError>)
      requires Valid() && QueryResult(db.trail, x.ticket, rows)
      modifies this`db
      ensures Valid()
      ensures Commits(old(db), db, Reconcile(cfg, old(db), x, direction, Verdict(old(db), x, rows), now), r)
    {
      hide GateVerdict, Lookup, ReconcileVerified, OneEach, QueryResult, Skewed;
      if !x.occurrence.Occurrence? || x.at.None? {
        return Err(InvalidOccurrence);
      }
      if direction != Entry && direction != Exit {
        return Err(BadDirection);
      }
      if x.ticket !in db.tickets || db.tickets[x.ticket] != x.who {
        return Err(TicketCredential);
      }
      if x.who.slot !in db.passes && direction == Exit {
        return Err(NotApplicable);
      }
      var skewed := Skewed(x.at.value, now);
      var seen := ReplayByOccurrence(db, x.ticket, x.occurrence, direction, true);
      if seen.Collision? {
        return Err(OccurrenceCollision);
      }
      if !seen.NotRecorded? {
        return Ok(SyncResult(Synced, seen.at, skewed));
      }
      var health := Gate(db.trail, x, rows);
      if health.Some? {
        var kind := if x.who.slot in db.passes then direction else Redeemed;
        var row := QuarantineRow(x.ticket, x.who.organizer, health.value, None, x.occurrence, x.at, kind);
        db := db.(quarantine := db.quarantine + [row]);
        return Ok(SyncResult(RecordedNow, x.at.value, skewed));
      }
      var recorded := Reconciled(db, x, direction, skewed);
      if recorded.Err? {
        return Err(recorded.error);
      }
      db := recorded.value.0;
      r := Ok(recorded.value.1);
    }

    method RecordRevocationRefusal(x: ScanInput) returns (r: Result<SyncResult, StoreError>)
      requires Valid()
      modifies this`db
      ensures Valid() && Commits(old(db), db, RecordRefusal(old(db), x), r)
    {
      hide OneEach;
      if !x.occurrence.Occurrence? || x.at.None? {
        return Err(OccurrenceCollision);
      }
      if x.ticket !in db.tickets || db.tickets[x.ticket] != x.who {
        return Err(TicketCredential);
      }
      if x.occurrence in db.refusals {
        var stored := db.refusals[x.occurrence];
        if stored.ticket != x.ticket || stored.organizer != x.who.organizer || stored.at != x.at.value {
          return Err(OccurrenceCollision);
        }
        return Ok(SyncResult(Synced, stored.at, false));
      }
      if x.occurrence in db.trail.events || Quarantined(db.quarantine, x.occurrence).Some? {
        return Err(OccurrenceCollision);
      }
      db := db.(refusals := db.refusals[x.occurrence := RefusalRow(x.ticket, x.who.organizer, x.at.value)]);
      r := Ok(SyncResult(RecordedNow, x.at.value, false));
    }

    // -------------------------------------------------------------- refunds, exchanges

    method VoidTickets(tx: Db, ts: seq<Uuid>, who: Identity, v: Voiding, now: Time) returns (r: Result<Db, StoreError>)
      ensures r == VoidAll(cfg, tx, ts, who, v, now)
      ensures r.Ok? && OneEach(tx.trail.events) ==> OneEach(r.value.trail.events)
    {
      hide AppendEvent, OneEach;
      var next := tx;
      for i := 0 to |ts|
        invariant VoidAll(cfg, tx, ts, who, v, now) == VoidAll(cfg, next, ts[i..], who, v, now)
        invariant OneEach(tx.trail.events) ==> OneEach(next.trail.events)
      {
        var appended := AppendLifecycle(next, A.Input(ts[i], who, v.Id(ts[i]), v.Kind(), now));
        if appended.Err? {
          return appended;
        }
        assert ts[i..][1..] == ts[i + 1..];
        next := appended.value;
      }
      r := Ok(next);
    }

    /** The loop that splits the order into this refund's tickets and the free ones. */
    method Split(tx: Db, all: seq<Uuid>, refund: Uuid) returns (mine: seq<Uuid>, free: seq<Uuid>)
      ensures mine == Mine(tx, all, refund) && free == Free(tx, all)
    {
      hide Has, VoidedBy;
      mine, free := [], [];
      for i := 0 to |all|
        invariant mine + Mine(tx, all[i..], refund) == Mine(tx, all, refund)
        invariant free + Free(tx, all[i..]) == Free(tx, all)
      {
        assert all[i..][1..] == all[i + 1..];
        if !Has(tx, all[i], Refunded) {
          free := free + [all[i]];
        } else if VoidedBy(tx, all[i], refund) {
          mine := mine + [all[i]];
        }
      }
    }

    method RefundOrderTickets(organizer: Uuid, order: Uuid, refund: Uuid, quantity: int, now: Time)
      returns (r: Result<Refund, StoreError>)
      requires Valid()
      modifies this`db
      ensures Valid() && Commits(old(db), db, RefundOrder(cfg, old(db), organizer, order, refund, quantity, now), r)
    {
      hide OrderTickets, Mine, Free, VoidAll, OneEach;
      if quantity < 1 {
        return Err(BadQuantity);
      }
      var all := OrderTickets(db, order, organizer);
      if (organizer, refund) in db.batches && db.batches[(organizer, refund)] != BatchRow(order, quantity) {
        return Err(RefundConflict);
      }
      var mine, free := Split(db, all, refund);
      if |mine| > 0 {
        if |mine| != quantity {
          return Err(RefundConflict);
        }
        return Ok(Refund(mine, true));
      }
      if |free| < quantity {
        return Err(TicketsNotIssued);
      }
      if (organizer, refund) in db.batches {
        return Err(RefundConflict);
      }
      if quantity > MAX_BATCH {
        return Err(BadQuantity);
      }
      FirstIsIssued(db, order, organizer);
      var tx := db.(batches := db.batches[(organizer, refund) := BatchRow(order, quantity)]);
      var voided := VoidTickets(tx, free[..quantity], db.tickets[free[0]], ByRefund(refund), now);
      if voided.Err? {
        return Err(voided.error);
      }
      db := voided.value;
      r := Ok(Refund(free[..quantity], false));
    }

    method CheckSource(tx: Db, source: seq<Uuid>) returns (obstacle: Option<StoreError>)
      ensures obstacle == Obstacle(tx, source)
    {
      hide CommerciallyVoid, AdmittedUnion;
      for i := 0 to |source|
        invariant Obstacle(tx, source) == Obstacle(tx, source[i..])
      {
        assert source[i..][1..] == source[i + 1..];
        if CommerciallyVoid(tx, source[i]) {
          return Some(SourceVoided);
        }
        if AdmittedUnion(tx, source[i]) {
          return Some(SourceAdmitted);
        }
      }
      obstacle := None;
    }

    method SwitchExchange(x: Switch, now: Time) returns (r: Result<(), StoreError>)
      requires Valid()
      modifies this`db
      ensures Valid() && CommitsQuietly(old(db), db, Store.SwitchExchange(cfg, old(db), x, now), r)
    {
      hide OrderTickets, Obstacle, VoidAll, InsertAll, OneEach, AdmittedUnion, CommerciallyVoid;
      if x.event in db.consumed {
        return Ok(());
      }
      var source := OrderTickets(db, x.order, x.organizer);
      if |source| == 0 || |source| < |x.tickets| {
        return Err(ExchangeNotIssued);
      }
      var obstacle := CheckSource(db, source);
      if obstacle.Some? {
        return Err(obstacle.value);
      }
      FirstIsIssued(db, x.order, x.organizer);
      var tx := db.(consumed := db.consumed + {x.event});
      var voided := VoidTickets(tx, source, db.tickets[source[0]], ByExchange(x.exchange), now);
      if voided.Err? {
        return Err(voided.error);
      }
      var issued := InsertTickets(voided.value, x.tickets);
      if issued.Err? {
        return Err(issued.error);
      }
      db := issued.value;
      r := Ok(());
    }

    // -------------------------------------------------------------- operators, workers

    method SetMode(organizer: Uuid, mode: Mode)
      requires Valid()
      modifies this`db
      ensures Valid() && db == Store.SetMode(old(db), organizer, mode)
    {
      db := db.(modes := db.modes[organizer := mode]);
    }

    method SealEpoch()
      requires Valid()
      modifies this`db
      ensures Valid() && db == Store.SealEpoch(old(db))
    {
      db := db.(epochs := C.Seal(db.trail.heads, db.epochs));
    }

    /** One checkpoint of an organizer; nothing pending is a commit without a checkpoint. */
    method CheckpointOrganizer(organizer: Uuid, observed: C.Position, now: Time) returns (r: Result<Option<C.Position>, C.Refusal>)
      requires Valid()
      modifies this`db
      ensures Valid()
      ensures match TakeCheckpoint(cfg, old(db), organizer, observed, now)
              case Ok((tables, position)) => db == tables && r == Ok(position)
              case Err(e) => db == old(db) && r == Err(e)
    {
      hide OneEach, C.LatestOf, C.LatestAmong, C.Selected, C.FirstFlaw, C.LastOf, C.LeavesOf, Merkle.Root, CanonicalCheckpoint, C.Assign;
      if cfg.signer.None? {
        return Err(C.NoSigner);
      }
      var pending := C.PendingOf(organizer);
      var ids := C.Selected(db.tickets, db.trail.changes, pending);
      C.LatestOfSelected(db.tickets, db.trail.changes, pending);
      NothingSelected(db, pending);
      if |ids| == 0 {
        return Ok(None);
      }
      if cfg.keys.keyring.None? {
        return Err(C.NoKeyring);
      }
      var flaw := C.Authenticate(cfg.keys, db.tickets, organizer, db.trail.changes, ids);
      if flaw.Some? {
        return Err(flaw.value);
      }
      var prev := C.LastOf(db.checkpoints, organizer);
      if C.Regressed(prev, observed) {
        return Err(C.Regression);
      }
      var leaves, latest := C.LatestLeaves(db.trail.changes, ids);
      C.LatestIsKeyed(db.tickets, db.trail.changes, pending);
      var root := RootOf(leaves, latest);
      var c := Checkpoint(organizer, prev.sequence + 1, prev.root, root, |leaves|, cfg.signer.value, now);
      var row := C.CheckpointRow(c, CANONICAL_VERSION, cfg.keys.suite.sign(cfg.signer.value, CanonicalCheckpoint(cfg.keys.suite, c)));
      db := db.(trail := db.trail.(changes := C.Assign(db.tickets, db.trail.changes, pending, |db.checkpoints|)),
                checkpoints := db.checkpoints + [row]);
      r := Ok(Some(C.Position(c.sequence, root)));
    }

    /** The root of the leaves in map order is the root of the leaves in ticket order. */
    method RootOf(leaves: seq<Leaf>, ghost latest: C.Latest) returns (root: Digest)
      requires C.Keyed(latest) && |latest| > 0
      requires Merkle.SameLeaves(leaves, C.LeavesOf(latest)) && Merkle.DistinctTickets(leaves)
      ensures root == Merkle.Root(cfg.keys.suite, C.LeavesOf(latest)) && |leaves| == |latest|
    {
      hide Merkle.Root, C.LeavesOf, Merkle.DistinctTickets;
      C.LeavesAreAccepted(latest);
      Merkle.RootIgnoresOrder(cfg.keys.suite, leaves, C.LeavesOf(latest));
      var computed := Merkle.MerkleRoot(cfg.keys.suite, leaves);
      root := computed.value;
    }

    // -------------------------------------------------------------- backfill

    /** Adopts one ticket's history, in one transaction. */
    method BackfillTicket(t: Uuid, rows: seq<EventId>) returns (failure: Option<B.Failure>)
      requires Valid() && cfg.signer.Some? && t in db.tickets && Lists(db.trail.events, t, rows)
      modifies this`db
      ensures Valid()
      ensures match B.BackfillTicket(cfg.keys.suite, cfg.signer.value, old(db).tickets[t], t, old(db).trail, rows)
              case Ok(trail) => failure == None && db == old(db).(trail := trail)
              case Err(e) => failure == Some(e) && db == old(db)
    {
      hide OneEach, CanonicalHead, HashEntry;
      var who, kid, s := db.tickets[t], cfg.signer.value, cfg.keys.suite;
      if exists id | id in db.trail.links.Keys :: db.trail.links[id].ticket == t {
        return Some(B.PartialCoverage);
      }
      if rows == [] {
        return None;
      }
      if exists id | id in rows :: id in db.trail.links {
        return Some(B.LinkTaken);
      }
      var links, last := AdoptRows(t, who, rows);
      var signature := s.sign(kid, CanonicalHead(s, t, |rows|, kid, last));
      var head := HeadRow(who.organizer, |rows|, CANONICAL_VERSION, last, kid, signature);
      var change := ChangeRow(t, who.organizer, |rows|, last, CANONICAL_VERSION, kid, signature, None);
      db := db.(trail := db.trail.(links := links, heads := db.trail.heads[t := head], changes := db.trail.changes + [change]));
      failure := None;
    }

    method AdoptRows(t: Uuid, who: Identity, rows: seq<EventId>) returns (links: map<EventId, LinkRow>, last: Digest)
      requires NoRepeats(rows) && forall id | id in rows :: id in db.trail.events
      ensures links == B.AdoptedLinks(cfg.keys.suite, who, t, db.trail.events, db.trail.links, rows)
      ensures last == Predecessor(links, rows, |rows|)
    {
      hide HashEntry;
      links, last := db.trail.links, GENESIS;
      for i := 0 to |rows|
        invariant links == B.AdoptedLinks(cfg.keys.suite, who, t, db.trail.events, db.trail.links, rows[..i])
        invariant last == Predecessor(links, rows, i)
      {
        assert rows[..i + 1][..i] == rows[..i];
        var entry := HashEntry(cfg.keys.suite, last, EventOf(t, who, i, rows[i], db.trail.events[rows[i]]));
        links := links[rows[i] := LinkRow(t, i + 1, CANONICAL_VERSION, last, entry)];
        last := entry;
      }
      assert rows[..|rows|] == rows;
    }

    /** `ORDER BY id`: the tickets with history and no head. */
    method WaitingTickets() returns (waiting: seq<Uuid>)
      ensures NoRepeats(waiting) && forall t :: t in waiting <==> t in db.tickets && B.Waiting(db.trail, t)
    {
      hide B.Waiting;
      waiting := Ascending(set t | t in db.tickets.Keys && B.Waiting(db.trail, t));
    }

    method AdoptBatch(ids: seq<Uuid>, history: map<Uuid, seq<EventId>>) returns (r: Result<nat, B.Failure>)
      requires Valid() && cfg.signer.Some? && A.CanSign(cfg.keys, cfg.signer.value) && NoRepeats(ids)
      requires forall t | t in ids :: t in db.tickets && B.Waiting(db.trail, t)
      requires forall t | t in db.tickets :: t in history && Lists(db.trail.events, t, history[t])
      modifies this`db
      ensures Valid() && db == old(db).(trail := db.trail) && db.trail.events == old(db).trail.events
      ensures r.Ok? ==> db.trail.heads.Keys == old(db).trail.heads.Keys + (set t | t in ids) && r.value == |ids|
      ensures B.InAdoption(cfg.keys, old(db).tickets, old(db).trail) ==> r.Ok? && B.InAdoption(cfg.keys, db.tickets, db.trail)
    {
      hide OneEach, B.InAdoption, A.CanSign, B.BackfillTicket, Lists;
      for i := 0 to |ids|
        invariant Valid() && db == old(db).(trail := db.trail) && db.trail.events == old(db).trail.events
        invariant db.trail.heads.Keys == old(db).trail.heads.Keys + (set t | t in ids[..i])
        invariant B.InAdoption(cfg.keys, old(db).tickets, old(db).trail) ==> B.InAdoption(cfg.keys, db.tickets, db.trail)
      {
        var t := ids[i];
        assert t in ids && t !in ids[..i];
        assert B.Waiting(old(db).trail, t);
        StillWaiting(old(db).trail, db.trail, t);
        Advance(cfg, db, t, history[t]);
        var failure := BackfillTicket(t, history[t]);
        if failure.Some? {
          return Err(failure.value);
        }
        assert ids[..i + 1] == ids[..i] + [t];
      }
      assert ids[..|ids|] == ids;
      r := Ok(|ids|);
    }

    /** Adopts batch after batch until no ticket with history lacks a head.  `history` gives
        what the ordered event query returns for each ticket. */
    method BackfillLifecycle(batch: int, history: map<Uuid, seq<EventId>>) returns (r: Result<nat, B.Failure>)
      requires Valid() && cfg.signer.Some? && A.CanSign(cfg.keys, cfg.signer.value)
      requires forall t | t in db.tickets :: t in history && Lists(db.trail.events, t, history[t])
      modifies this`db
      ensures Valid() && db == old(db).(trail := db.trail) && db.trail.events == old(db).trail.events
      ensures r.Ok? ==> forall t | t in db.tickets :: !B.Waiting(db.trail, t)
      ensures B.InAdoption(cfg.keys, old(db).tickets, old(db).trail) ==> r.Ok? && A.Honest(cfg.keys, db.tickets, db.trail)
    {
      hide OneEach, B.InAdoption, B.Waiting, A.Honest, A.CanSign;
      var total := 0;
      var limit := if batch <= 0 then 128 else batch;
      var waiting := WaitingTickets();
      while waiting != []
        invariant Valid() && db == old(db).(trail := db.trail) && db.trail.events == old(db).trail.events
        invariant B.InAdoption(cfg.keys, old(db).tickets, old(db).trail) ==> B.InAdoption(cfg.keys, db.tickets, db.trail)
        invariant NoRepeats(waiting) && forall t | t in waiting :: t in db.tickets && B.Waiting(db.trail, t)
        invariant waiting == [] ==> forall t | t in db.tickets :: !B.Waiting(db.trail, t)
        decreases db.tickets.Keys - db.trail.heads.Keys
      {
        var ids := if |waiting| < limit then waiting else waiting[..limit];
        ghost var first, chained := ids[0], db.trail.heads.Keys;
        assert first in waiting && first in ids;
        NotYetChained(db.trail, first);
        var done := AdoptBatch(ids, history);
        if done.Err? {
          return Err(done.error);
        }
        assert first in db.trail.heads.Keys && first !in chained && chained <= db.trail.heads.Keys;
        total := total + done.value;
        waiting := WaitingTickets();
      }
      if B.InAdoption(cfg.keys, db.tickets, db.trail) {
        B.CompleteBackfillIsHonest(cfg.keys, db.tickets, db.trail);
      }
      r := Ok(total);
    }
  }

  lemma AdmissionLeavesTrail(cfg: Config, tx: Db, t: Uuid, who: Identity, occ: EventId, reason: AlarmReason, now: Time)
    ensures AdmitDegraded(cfg, tx, t, who, occ, reason, now).trail == tx.trail
  {
    hide RecentDegraded, ModeOf;
  }

  lemma NotYetChained(tr: Trail, t: Uuid)
    requires B.Waiting(tr, t)
    ensures t !in tr.heads
  {
  }

  lemma StillWaiting(before: Trail, after: Trail, t: Uuid)
    requires B.Waiting(before, t) && after.events == before.events && t !in after.heads
    ensures B.Waiting(after, t)
  {
  }

  /** A waiting ticket that is adopted gains its head; in a store in adoption it always is. */
  lemma Advance(cfg: Config, db: Db, t: Uuid, rows: seq<EventId>)
    requires cfg.signer.Some? && A.CanSign(cfg.keys, cfg.signer.value) && t in db.tickets
    requires B.Waiting(db.trail, t) && Lists(db.trail.events, t, rows)
    ensures var r := B.BackfillTicket(cfg.keys.suite, cfg.signer.value, db.tickets[t], t, db.trail, rows);
            && (r.Ok? ==> r.value.events == db.trail.events && r.value.heads.Keys == db.trail.heads.Keys + {t})
            && (B.InAdoption(cfg.keys, db.tickets, db.trail) ==> r.Ok? && B.InAdoption(cfg.keys, db.tickets, r.value))
  {
    hide B.InAdoption, A.CanSign, B.Adopted, B.Covered;
    if B.InAdoption(cfg.keys, db.tickets, db.trail) {
      B.BackfillAdvances(cfg.keys, cfg.signer.value, db.tickets, db.trail, t, rows);
    }
    B.AdoptedShape(cfg.keys.suite, cfg.signer.value, db.tickets[t], t, db.trail, rows);
    var id :| id in db.trail.events && db.trail.events[id].ticket == t;
    assert id in rows;
  }

  lemma NothingSelected(db: Db, p: C.Pick)
    ensures |C.Selected(db.tickets, db.trail.changes, p)| == 0 <==> |C.LatestOf(db.tickets, db.trail.changes, p)| == 0
  {
    C.LatestOfSelected(db.tickets, db.trail.changes, p);
  }
}
