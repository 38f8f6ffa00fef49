/** The alarm outbox: claims, leases, backoff and dead letters. */
module Outbox {
  import opened Basics

  type AlarmId = nat

  type ClaimId = nat

  /** Seconds. */
  type Time = int

  datatype Row = Row(
    published: Option<Time>, claim: Option<ClaimId>, lease: Option<Time>,
    attempts: nat, nextAttempt: Time, dead: Option<Time>)

  type Table = map<AlarmId, Row>

  const MAX_ATTEMPTS := 10

  function Owed(now: Time): Row {
    Row(None, None, None, 0, now, None)
  }

  predicate Eligible(r: Row, now: Time) {
    && r.published.None? && r.dead.None? && r.nextAttempt <= now
    && (r.lease.None? || r.lease.value <= now)
  }

  function Claimed(r: Row, claim: ClaimId, until: Time): Row {
    r.(claim := Some(claim), lease := Some(until), attempts := r.attempts + 1)
  }

  function Backoff(attempts: nat): Time {
    5 * (if attempts < 6 then attempts else 6)
  }

  function Released(r: Row, now: Time): Row {
    r.(claim := None, lease := None, nextAttempt := now + Backoff(r.attempts),
       dead := if r.attempts >= MAX_ATTEMPTS then Some(now) else None)
  }

  function Retired(r: Row, now: Time): Row {
    r.(published := Some(now), claim := None, lease := None)
  }

  /** The oldest eligible rows, at most a batch of them. */
  ghost predicate OldestEligible(t: Table, now: Time, batch: nat, picked: set<AlarmId>) {
    && (forall id | id in picked :: id in t && Eligible(t[id], now))
    && |picked| <= batch
    && (forall id | id in t && id !in picked && Eligible(t[id], now) ::
          |picked| == batch && forall p | p in picked :: t[p].nextAttempt <= t[id].nextAttempt)
  }

  function Claim(t: Table, picked: set<AlarmId>, claim: ClaimId, until: Time): Table
    requires picked <= t.Keys
  {
    map id | id in t :: if id in picked then Claimed(t[id], claim, until) else t[id]
  }

  predicate Holds(t: Table, id: AlarmId, claim: ClaimId) {
    id in t && t[id].claim == Some(claim)
  }

  function Release(t: Table, id: AlarmId, claim: ClaimId, now: Time): Table {
    if Holds(t, id, claim) then t[id := Released(t[id], now)] else t
  }

  function Mark(t: Table, id: AlarmId, claim: ClaimId, now: Time): Table {
    if Holds(t, id, claim) && t[id].published.None? then t[id := Retired(t[id], now)] else t
  }

  // ---------------------------------------------------------------- the store's side

  class Alarms {
    var rows: Table

    constructor ()
      ensures rows == map[]
    {
      rows := map[];
    }

    /** Leases the oldest unpublished alarms; a concurrent claimant skips locked rows, so one
        claim is one step. */
    method ClaimAlarms(claim: ClaimId, batch: nat, lease: Time, now: Time) returns (messages: map<AlarmId, nat>)
      modifies this
      ensures OldestEligible(old(rows), now, batch, messages.Keys) && messages.Keys <= old(rows).Keys
      ensures rows == Claim(old(rows), messages.Keys, claim, now + lease)
      ensures forall id | id in messages :: messages[id] == rows[id].attempts
    {
      var picked := Oldest(now, batch);
      rows := map id | id in rows :: if id in picked then Claimed(rows[id], claim, now + lease) else rows[id];
      messages := map id | id in picked :: rows[id].attempts;
      assert messages.Keys == picked;
    }

    /** `ORDER BY next_attempt_at LIMIT batch`. */
    method Oldest(now: Time, batch: nat) returns (picked: set<AlarmId>)
      ensures picked <= rows.Keys && OldestEligible(rows, now, batch, picked)
    {
      picked := {};
      var waiting := set id | id in rows.Keys && Eligible(rows[id], now);
      while |picked| < batch && waiting != {}
        invariant picked !! waiting && |picked| <= batch
        invariant forall id :: id in picked || id in waiting <==> id in rows && Eligible(rows[id], now)
        invariant forall p, w | p in picked && w in waiting :: rows[p].nextAttempt <= rows[w].nextAttempt
        decreases |waiting|
      {
        var first := Earliest(waiting);
        picked, waiting := picked + {first}, waiting - {first};
      }
    }

    method Earliest(waiting: set<AlarmId>) returns (first: AlarmId)
      requires waiting != {} && waiting <= rows.Keys
      ensures first in waiting && forall w | w in waiting :: rows[first].nextAttempt <= rows[w].nextAttempt
    {
      first :| first in waiting;
      var unread := waiting - {first};
      while unread != {}
        invariant unread <= waiting && first in waiting
        invariant forall w | w in waiting && w !in unread :: rows[first].nextAttempt <= rows[w].nextAttempt
      {
        var w :| w in unread;
        unread := unread - {w};
        if rows[w].nextAttempt < rows[first].nextAttempt {
          first := w;
        }
      }
    }

    method ReleaseAlarm(id: AlarmId, claim: ClaimId, now: Time)
      modifies this
      ensures rows == Release(old(rows), id, claim, now)
    {
      if id in rows && rows[id].claim == Some(claim) {
        var r := rows[id];
        var dead := if r.attempts >= MAX_ATTEMPTS then Some(now) else None;
        rows := rows[id := r.(claim := None, lease := None, nextAttempt := now + Backoff(r.attempts), dead := dead)];
      }
    }

    method MarkAlarmPublished(id: AlarmId, claim: ClaimId, now: Time) returns (retired: bool)
      modifies this
      ensures rows == Mark(old(rows), id, claim, now)
      ensures retired <==> Holds(old(rows), id, claim) && old(rows)[id].published.None?
    {
      retired := id in rows && rows[id].claim == Some(claim) && rows[id].published.None?;
      if retired {
        rows := rows[id := rows[id].(published := Some(now), claim := None, lease := None)];
      }
    }

    /** One pass of a drainer that nobody disturbs: claim, then publish and retire, or
        release, each message.  `delivers` says which publications succeed; `at` is the time
        of every later statement. */
    method Once(claim: ClaimId, batch: nat, lease: Time, now: Time, delivers: set<AlarmId>, at: Time)
      returns (claimed: set<AlarmId>, published: set<AlarmId>)
      requires forall id | id in rows :: rows[id].claim != Some(claim)
      modifies this
      ensures OldestEligible(old(rows), now, batch, claimed) && rows.Keys == old(rows).Keys
      ensures published == claimed * delivers
      ensures forall id | id in rows ::
        rows[id] == if id !in claimed then old(rows)[id]
                    else var r := Claimed(old(rows)[id], claim, now + lease);
                         if id in delivers then Retired(r, at) else Released(r, at)
    {
      var messages := ClaimAlarms(claim, batch, lease, now);
      ghost var taken := rows;
      claimed, published := messages.Keys, {};
      var unread := claimed;
      while unread != {}
        invariant unread <= claimed && rows.Keys == taken.Keys && published == (claimed - unread) * delivers
        invariant forall id | id in rows ::
          rows[id] == if id !in claimed || id in unread then taken[id]
                      else if id in delivers then Retired(taken[id], at) else Released(taken[id], at)
      {
        var id :| id in unread;
        unread := unread - {id};
        assert Holds(rows, id, claim) && rows[id].published.None?;
        if id !in delivers {
          ReleaseAlarm(id, claim, at);
        } else {
          var retired := MarkAlarmPublished(id, claim, at);
          if retired {
            published := published + {id};
          }
        }
      }
    }
  }

  // ---------------------------------------------------------------- drainers as a system

  /** Messages a drainer holds and has not published, and publications that happened. */
  datatype System = System(
    rows: Table, held: set<(AlarmId, ClaimId)>, delivered: set<(AlarmId, ClaimId)>,
    used: set<ClaimId>, claims: map<AlarmId, nat>, clock: Time)

  /** Any number of drainers interleave; one that crashes simply takes no more steps. */
  datatype Step =
    | Owe(id: AlarmId)
    | Take(claim: ClaimId, picked: set<AlarmId>, batch: nat, lease: nat)
    | Publish(id: AlarmId, claim: ClaimId)
    | GiveBack(id: AlarmId, claim: ClaimId)
    | Retire(id: AlarmId, claim: ClaimId)
    | Tick(now: Time)

  ghost predicate Enabled(s: System, a: Step) {
    match a
    case Owe(id) => id !in s.rows
    case Take(claim, picked, batch, _) => claim !in s.used && OldestEligible(s.rows, s.clock, batch, picked) && picked <= s.rows.Keys
    case Publish(id, claim) => (id, claim) in s.held
    case GiveBack(id, claim) => (id, claim) in s.held
    case Retire(id, claim) => (id, claim) in s.delivered
    case Tick(now) => s.clock <= now
  }

  function Count(claims: map<AlarmId, nat>, id: AlarmId): nat {
    if id in claims then claims[id] else 0
  }

  ghost function Next(s: System, a: Step): System
    requires Enabled(s, a)
  {
    match a
    case Owe(id) => s.(rows := s.rows[id := Owed(s.clock)])
    case Take(claim, picked, _, lease) =>
      s.(rows := Claim(s.rows, picked, claim, s.clock + lease),
         held := s.held + (set id | id in picked :: (id, claim)),
         used := s.used + {claim},
         claims := map id | id in s.rows.Keys :: Count(s.claims, id) + if id in picked then 1 else 0)
    case Publish(id, claim) => s.(held := s.held - {(id, claim)}, delivered := s.delivered + {(id, claim)})
    case GiveBack(id, claim) => s.(held := s.held - {(id, claim)}, rows := Release(s.rows, id, claim, s.clock))
    case Retire(id, claim) => s.(rows := Mark(s.rows, id, claim, s.clock))
    case Tick(now) => s.(clock := now)
  }

  predicate Superseded(s: System, id: AlarmId, claim: ClaimId) {
    claim in s.used && !Holds(s.rows, id, claim)
  }

  predicate RowOk(s: System, id: AlarmId, r: Row) {
    && (r.claim.Some? ==> r.published.None? && r.dead.None? && r.claim.value in s.used)
    && !(r.published.Some? && r.dead.Some?)
    && (r.dead.Some? ==> r.attempts >= MAX_ATTEMPTS)
    && r.attempts == Count(s.claims, id)
    && (r.published.Some? ==> exists d | d in s.delivered :: d.0 == id)
    && (r.lease.Some? <==> r.claim.Some?)
    && (r.lease.None? ==> r.nextAttempt <= s.clock + Backoff(6))
    && (r.lease.Some? ==> r.nextAttempt <= s.clock)
  }

  ghost predicate Invariant(s: System) {
    && (forall id | id in s.rows :: RowOk(s, id, s.rows[id]))
    && (forall id | id in s.claims :: id in s.rows)
    && (forall h | h in s.held || h in s.delivered :: h.1 in s.used)
  }

  lemma OweKeeps(s: System, id: AlarmId)
    requires Invariant(s) && id !in s.rows
    ensures Invariant(Next(s, Owe(id)))
  {
    var s' := Next(s, Owe(id));
    forall k | k in s'.rows
      ensures RowOk(s', k, s'.rows[k])
    {
      assert k != id ==> RowOk(s, k, s.rows[k]);
    }
  }

  lemma TakeKeeps(s: System, a: Step)
    requires Invariant(s) && a.Take? && Enabled(s, a)
    ensures Invariant(Next(s, a))
  {
    var s' := Next(s, a);
    forall k | k in s'.rows
      ensures RowOk(s', k, s'.rows[k])
    {
      assert RowOk(s, k, s.rows[k]);
    }
  }

  lemma OneRowKeeps(s: System, a: Step)
    requires Invariant(s) && Enabled(s, a) && !a.Owe? && !a.Take?
    ensures Invariant(Next(s, a))
  {
    var s' := Next(s, a);
    forall k | k in s'.rows
      ensures RowOk(s', k, s'.rows[k])
    {
      assert RowOk(s, k, s.rows[k]);
      if a.Retire? && k == a.id {
        assert (a.id, a.claim) in s'.delivered;
      }
      if s.rows[k].published.Some? {
        var d :| d in s.delivered && d.0 == k;
        assert d in s'.delivered;
      }
    }
  }

  lemma StepKeepsInvariant(s: System, a: Step)
    requires Invariant(s) && Enabled(s, a)
    ensures Invariant(Next(s, a))
  {
    hide Invariant;
    match a {
      case Owe(id) => OweKeeps(s, id);
      case Take(_, _, _, _) => TakeKeeps(s, a);
      case _ => OneRowKeeps(s, a);
    }
  }

  // ---------------------------------------------------------------- runs

  ghost predicate IsRun(s: System, run: seq<Step>, states: seq<System>) {
    && |states| == |run| + 1 && states[0] == s
    && forall i | 0 <= i < |run| :: Enabled(states[i], run[i]) && states[i + 1] == Next(states[i], run[i])
  }

  const EMPTY: System := System(map[], {}, {}, {}, map[], 0)

  lemma {:induction false} RunKeepsInvariant(s: System, run: seq<Step>, states: seq<System>, i: nat)
    requires Invariant(s) && IsRun(s, run, states) && i <= |run|
    ensures Invariant(states[i])
  {
    hide Invariant, Next, Enabled;
    if i > 0 {
      RunKeepsInvariant(s, run, states, i - 1);
      StepKeepsInvariant(states[i - 1], run[i - 1]);
    }
  }

  /** Every state of every run: no alarm is both published and dead-lettered; a dead-lettered
      alarm was claimed at least the maximum number of times; a retired alarm was really
      published by some drainer. */
  lemma OutboxIsSafe(run: seq<Step>, states: seq<System>, i: nat, id: AlarmId)
    requires IsRun(EMPTY, run, states) && i <= |run| && id in states[i].rows
    ensures var r := states[i].rows[id];
            && !(r.published.Some? && r.dead.Some?)
            && (r.dead.Some? ==> Count(states[i].claims, id) >= MAX_ATTEMPTS)
            && (r.published.Some? ==> exists d | d in states[i].delivered :: d.0 == id)
  {
    RunKeepsInvariant(EMPTY, run, states, i);
    assert RowOk(states[i], id, states[i].rows[id]);
  }

  lemma SupersededStays(s: System, a: Step, id: AlarmId, claim: ClaimId)
    requires Enabled(s, a) && Superseded(s, id, claim)
    ensures Superseded(Next(s, a), id, claim)
  {
  }

  lemma {:induction false} SupersededForever(s: System, run: seq<Step>, states: seq<System>, j: nat, k: nat, id: AlarmId, claim: ClaimId)
    requires IsRun(s, run, states) && j <= k <= |run| && Superseded(states[j], id, claim)
    ensures Superseded(states[k], id, claim)
  {
    hide Next, Enabled, Superseded;
    if j < k {
      SupersededForever(s, run, states, j, k - 1, id, claim);
      SupersededStays(states[k - 1], run[k - 1], id, claim);
    }
  }

  /** Lease safety: once a newer claim has taken an alarm, the older claim can neither retire
      nor release it at any later point of the run. */
  lemma StaleClaimIsPowerless(s: System, run: seq<Step>, states: seq<System>, j: nat, k: nat, id: AlarmId, stale: ClaimId)
    requires IsRun(s, run, states) && j < k < |run|
    requires stale in states[j].used && run[j].Take? && id in run[j].picked
    ensures run[k] == Retire(id, stale) || run[k] == GiveBack(id, stale) ==> states[k + 1].rows == states[k].rows
  {
    assert Superseded(states[j + 1], id, stale);
    SupersededForever(s, run, states, j + 1, k, id, stale);
  }

  /** When an untouched row can be claimed again. */
  function WakeTime(r: Row): Time {
    if r.lease.Some? && r.lease.value > r.nextAttempt then r.lease.value else r.nextAttempt
  }

  /** Every alarm that is neither published nor dead is claimable again as time passes: from
      its wake time on, which is at most its lease or half a minute away. */
  lemma OwedAlarmsWake(run: seq<Step>, states: seq<System>, i: nat, id: AlarmId, now: Time)
    requires IsRun(EMPTY, run, states) && i <= |run| && id in states[i].rows
    requires states[i].rows[id].published.None? && states[i].rows[id].dead.None?
    ensures WakeTime(states[i].rows[id]) <= now ==> Eligible(states[i].rows[id], now)
    ensures var r := states[i].rows[id];
            WakeTime(r) <= (if r.lease.Some? && r.lease.value > states[i].clock then r.lease.value else states[i].clock + 30)
  {
    RunKeepsInvariant(EMPTY, run, states, i);
    assert RowOk(states[i], id, states[i].rows[id]);
  }
}
