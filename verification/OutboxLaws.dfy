/** What each call on the alarm outbox does to a row, and when an alarm is given up. */
module OutboxLaws {
  import opened Basics
  import opened Outbox

  /** The row is on lease to this claim. */
  predicate HeldBy(t: Table, id: AlarmId, claim: ClaimId) {
    id in t && t[id].claim == Some(claim)
  }

  predicate OthersStay(a: Table, b: Table, id: AlarmId) {
    a.Keys == b.Keys && forall k | k in a && k != id :: b[k] == a[k]
  }

  /** How long an alarm rests after a failed attempt: five seconds more each time, up to thirty. */
  predicate Rests(attempts: nat, wait: Time) {
    (attempts <= 6 ==> wait == 5 * attempts) && (attempts > 6 ==> wait == 30)
  }

  /** Only the claim that holds a row gives it back: the row is free, rests, and is dead from its
      tenth attempt on. */
  lemma ReleaseIs(t: Table, id: AlarmId, claim: ClaimId, now: Time)
    ensures var next := Release(t, id, claim, now);
            && OthersStay(t, next, id)
            && (!HeldBy(t, id, claim) ==> next == t)
            && (HeldBy(t, id, claim) ==>
                  && next[id].claim.None? && next[id].lease.None? && next[id].published == t[id].published
                  && next[id].attempts == t[id].attempts && Rests(t[id].attempts, next[id].nextAttempt - now)
                  && next[id].dead == if t[id].attempts < 10 then None else Some(now))
  {
  }

  /** Only the claim that holds an unpublished row retires it, and its time is kept. */
  lemma MarkIs(t: Table, id: AlarmId, claim: ClaimId, now: Time)
    ensures var next := Mark(t, id, claim, now);
            && OthersStay(t, next, id)
            && (HeldBy(t, id, claim) && t[id].published.None? ==>
                  && next[id].published == Some(now) && next[id].claim.None? && next[id].lease.None?
                  && next[id].attempts == t[id].attempts && next[id].nextAttempt == t[id].nextAttempt && next[id].dead == t[id].dead)
            && (!HeldBy(t, id, claim) || t[id].published.Some? ==> next == t)
  {
  }

  /** A claim takes, of the rows that are unpublished, alive, due and not on a running lease, the
      ones that are due longest, as many as it may; each is an attempt. */
  lemma ClaimIs(t: Table, picked: set<AlarmId>, claim: ClaimId, now: Time, batch: nat, lease: Time)
    requires picked <= t.Keys && OldestEligible(t, now, batch, picked)
    ensures var next := Claim(t, picked, claim, now + lease);
            && next.Keys == t.Keys
            && (forall id | id in t && id !in picked :: next[id] == t[id])
            && (forall id | id in picked ::
                  && t[id].published.None? && t[id].dead.None? && t[id].nextAttempt <= now
                  && (t[id].lease.Some? ==> t[id].lease.value <= now)
                  && next[id] == Row(None, Some(claim), Some(now + lease), t[id].attempts + 1, t[id].nextAttempt, None))
            && (|picked| < batch ==> forall id | id in t && id !in picked ::
                  t[id].published.Some? || t[id].dead.Some? || t[id].nextAttempt > now || (t[id].lease.Some? && t[id].lease.value > now))
            && |picked| <= batch
  {
  }

  /** An alarm is given up in a step if and only if that step is its holder giving it back after
      it was claimed at least ten times. */
  lemma GivenUpIff(s: System, a: Step, id: AlarmId)
    requires Invariant(s) && Enabled(s, a) && id in s.rows && s.rows[id].dead.None?
    ensures id in Next(s, a).rows
    ensures Next(s, a).rows[id].dead.Some? <==> a.GiveBack? && a.id == id && Holds(s.rows, id, a.claim) && Count(s.claims, id) >= 10
  {
    assert RowOk(s, id, s.rows[id]);
  }

  /** An alarm is retired in a step if and only if its holder says so of one it published. */
  lemma RetiredIff(s: System, a: Step, id: AlarmId)
    requires Invariant(s) && Enabled(s, a) && id in s.rows && s.rows[id].published.None?
    ensures id in Next(s, a).rows
    ensures Next(s, a).rows[id].published.Some? <==> a.Retire? && a.id == id && Holds(s.rows, id, a.claim)
  {
  }
}
