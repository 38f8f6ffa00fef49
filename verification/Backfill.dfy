/** Adopting history that was written before the trail existed. */
module Backfill {
  import opened Basics
  import opened Canonical
  import opened Trail
  import A = Appending

  /** The links of a ticket's existing events, in the order the history shows them. */
  function AdoptedLinks(s: Suite, who: Identity, t: Uuid, events: map<EventId, EventRow>,
                        links: map<EventId, LinkRow>, rows: seq<EventId>): map<EventId, LinkRow>
    requires forall id | id in rows :: id in events
  {
    if rows == [] then links
    else
      var n := |rows| - 1;
      var before := AdoptedLinks(s, who, t, events, links, rows[..n]);
      var previous := Predecessor(before, rows, n);
      before[rows[n] := LinkRow(t, n + 1, CANONICAL_VERSION, previous,
                                HashEntry(s, previous, EventOf(t, who, n, rows[n], events[rows[n]])))]
  }

  /** One head and one queued snapshot close the adopted chain. */
  function Adopted(s: Suite, kid: string, who: Identity, t: Uuid, tr: Trail, rows: seq<EventId>): Trail
    requires forall id | id in rows :: id in tr.events
  {
    var links := AdoptedLinks(s, who, t, tr.events, tr.links, rows);
    var last := Predecessor(links, rows, |rows|);
    var signature := s.sign(kid, CanonicalHead(s, t, |rows|, kid, last));
    tr.(links := links,
        heads := tr.heads[t := HeadRow(who.organizer, |rows|, CANONICAL_VERSION, last, kid, signature)],
        changes := tr.changes + [ChangeRow(t, who.organizer, |rows|, last, CANONICAL_VERSION, kid, signature, None)])
  }

  predicate Covered(tr: Trail, t: Uuid) {
    exists id | id in tr.links :: tr.links[id].ticket == t
  }

  /** A ticket the trail has not adopted yet. */
  predicate Unchained(tr: Trail, t: Uuid) {
    t !in tr.heads && !Covered(tr, t)
  }

  datatype Failure = PartialCoverage | LinkTaken

  /** `rows` is what the ordered query returns for the ticket. */
  function BackfillTicket(s: Suite, kid: string, who: Identity, t: Uuid, tr: Trail, rows: seq<EventId>): Result<Trail, Failure>
    requires forall id | id in rows :: id in tr.events
  {
    if Covered(tr, t) then Err(PartialCoverage)
    else if rows == [] then Ok(tr)
    else if exists id | id in rows :: id in tr.links then Err(LinkTaken)
    else Ok(Adopted(s, kid, who, t, tr, rows))
  }

  /** Adoption adds one link per event and leaves the others alone. */
  lemma {:induction false} AdoptionAdds(s: Suite, who: Identity, t: Uuid, events: map<EventId, EventRow>,
                                        links: map<EventId, LinkRow>, rows: seq<EventId>)
    requires forall id | id in rows :: id in events
    ensures var adopted := AdoptedLinks(s, who, t, events, links, rows);
            && adopted.Keys == links.Keys + (set id | id in rows)
            && (forall id | id in adopted && id !in rows :: adopted[id] == links[id])
            && (forall id | id in rows :: adopted[id].ticket == t)
  {
    if rows != [] {
      var n := |rows| - 1;
      AdoptionAdds(s, who, t, events, links, rows[..n]);
      assert rows == rows[..n] + [rows[n]];
    }
  }

  /** Whether a link is in order depends on its own row and the one before it. */
  lemma LinkFrame(s: Suite, who: Identity, t: Uuid, tr: Trail, es: seq<EventId>, tr': Trail, es': seq<EventId>, k: nat)
    requires k < |es| && k < |es'| && LinkOk(s, who, t, tr, true, es, k)
    requires es'[k] == es[k] && (k > 0 ==> es'[k - 1] == es[k - 1])
    requires es[k] in tr'.events && tr'.events[es[k]] == tr.events[es[k]]
    requires es[k] in tr'.links && tr'.links[es[k]] == tr.links[es[k]]
    requires k > 0 ==> es[k - 1] in tr'.links && tr'.links[es[k - 1]] == tr.links[es[k - 1]]
    ensures LinkOk(s, who, t, tr', true, es', k)
  {
    hide HashEntry;
  }

  lemma {:induction false} AdoptedIsLinked(s: Suite, who: Identity, t: Uuid, tr: Trail, rows: seq<EventId>)
    requires NoRepeats(rows) && forall id | id in rows :: id in tr.events
    ensures Linked(s, who, t, tr.(links := AdoptedLinks(s, who, t, tr.events, tr.links, rows)), true, rows, |rows|)
  {
    hide HashEntry, LinkOk;
    if rows != [] {
      var n := |rows| - 1;
      AdoptedIsLinked(s, who, t, tr, rows[..n]);
      forall k | 0 <= k < n
        ensures LinkOk(s, who, t, tr.(links := AdoptedLinks(s, who, t, tr.events, tr.links, rows)), true, rows, k)
      {
        AdoptedBefore(s, who, t, tr, rows, k);
      }
      LastAdopted(s, who, t, tr, rows);
    }
  }

  /** Adopting one more row leaves the links of the rows before it in order. */
  lemma AdoptedBefore(s: Suite, who: Identity, t: Uuid, tr: Trail, rows: seq<EventId>, k: nat)
    requires NoRepeats(rows) && (forall id | id in rows :: id in tr.events) && k < |rows| - 1
    requires var front := rows[..|rows| - 1];
             LinkOk(s, who, t, tr.(links := AdoptedLinks(s, who, t, tr.events, tr.links, front)), true, front, k)
    ensures LinkOk(s, who, t, tr.(links := AdoptedLinks(s, who, t, tr.events, tr.links, rows)), true, rows, k)
  {
    hide HashEntry, LinkOk;
    var front := rows[..|rows| - 1];
    AdoptionAdds(s, who, t, tr.events, tr.links, front);
    assert front[k] == rows[k] && (k > 0 ==> front[k - 1] == rows[k - 1]);
    assert rows[k] in front && (k > 0 ==> rows[k - 1] in front);
    LinkFrame(s, who, t, tr.(links := AdoptedLinks(s, who, t, tr.events, tr.links, front)), front,
              tr.(links := AdoptedLinks(s, who, t, tr.events, tr.links, rows)), rows, k);
  }

  lemma LastAdopted(s: Suite, who: Identity, t: Uuid, tr: Trail, rows: seq<EventId>)
    requires rows != [] && NoRepeats(rows) && forall id | id in rows :: id in tr.events
    ensures LinkOk(s, who, t, tr.(links := AdoptedLinks(s, who, t, tr.events, tr.links, rows)), true, rows, |rows| - 1)
  {
    hide HashEntry;
    var n := |rows| - 1;
    AdoptionAdds(s, who, t, tr.events, tr.links, rows[..n]);
    assert n > 0 ==> rows[n - 1] in rows[..n];
  }

  /** An adopted chain verifies, and every other ticket's chain is as it was. */
  lemma AdoptedVerifies(keys: Keys, kid: string, who: Identity, t: Uuid, tr: Trail, rows: seq<EventId>)
    requires A.CanSign(keys, kid) && Lists(tr.events, t, rows) && rows != [] && Unchained(tr, t)
    ensures Verifies(keys, who, t, Adopted(keys.suite, kid, who, t, tr, rows), rows)
  {
    hide HashEntry, LinkOk, CanonicalHead;
    var tr' := Adopted(keys.suite, kid, who, t, tr, rows);
    AdoptedIsLinked(keys.suite, who, t, tr, rows);
    AdoptionAdds(keys.suite, who, t, tr.events, tr.links, rows);
    forall k | 0 <= k < |rows|
      ensures LinkOk(keys.suite, who, t, tr', true, rows, k)
    {
      assert rows[k] in rows && (k > 0 ==> rows[k - 1] in rows);
      LinkFrame(keys.suite, who, t, tr.(links := tr'.links), rows, tr', rows, k);
    }
  }

  lemma AdoptionLeavesChain(keys: Keys, kid: string, who: Identity, t: Uuid, tr: Trail, rows: seq<EventId>,
                            other: Identity, u: Uuid, es: seq<EventId>)
    requires Lists(tr.events, t, rows) && rows != [] && u != t && Verifies(keys, other, u, tr, es)
    requires forall id | id in rows :: id !in tr.links
    ensures Verifies(keys, other, u, Adopted(keys.suite, kid, who, t, tr, rows), es)
  {
    hide HashEntry, LinkOk, CanonicalHead;
    var tr' := Adopted(keys.suite, kid, who, t, tr, rows);
    AdoptionAdds(keys.suite, who, t, tr.events, tr.links, rows);
    forall k | 0 <= k < |es|
      ensures LinkOk(keys.suite, other, u, tr', true, es, k)
    {
      assert LinkOk(keys.suite, other, u, tr, true, es, k);
      assert es[k] in es && (k > 0 ==> es[k - 1] in es);
      assert es[k] !in rows && (k > 0 ==> es[k - 1] !in rows);
      LinkIsThere(keys.suite, other, u, tr, es, k);
      LinkFrame(keys.suite, other, u, tr, es, tr', es, k);
    }
    LastIsThere(keys.suite, other, u, tr, es);
    assert es != [] ==> es[|es| - 1] in es;
    assert Predecessor(tr'.links, es, |es|) == Predecessor(tr.links, es, |es|);
  }

  lemma LinkIsThere(s: Suite, who: Identity, t: Uuid, tr: Trail, es: seq<EventId>, k: nat)
    requires k < |es| && LinkOk(s, who, t, tr, true, es, k)
    ensures es[k] in tr.links && (k > 0 ==> es[k - 1] in tr.links)
  {
  }

  lemma LastIsThere(s: Suite, who: Identity, t: Uuid, tr: Trail, es: seq<EventId>)
    requires Linked(s, who, t, tr, true, es, |es|)
    ensures es != [] ==> es[|es| - 1] in tr.links
  {
    hide HashEntry;
    assert es != [] ==> LinkOk(s, who, t, tr, true, es, |es| - 1);
  }

  // ---------------------------------------------------------------- a legacy store

  /** A store in adoption: every ticket either verifies or has not been adopted at all. */
  ghost predicate InAdoption(keys: Keys, tickets: Tickets, tr: Trail) {
    && KeysIntact(tickets, tr)
    && (forall id | id in tr.links :: !Orphan(tr, id))
    && (forall t | t in tickets :: Unchained(tr, t) || GateAccepts(keys, tickets[t], t, tr))
    && (forall i | 0 <= i < |tr.changes| :: A.ChangeOk(keys, tickets, tr.changes[i]))
  }

  predicate HasHistory(tr: Trail, t: Uuid) {
    exists id | id in tr.events :: tr.events[id].ticket == t
  }

  /** What the loop looks for: history without a head. */
  predicate Waiting(tr: Trail, t: Uuid) {
    HasHistory(tr, t) && t !in tr.heads
  }

  /** A store whose integrity tables are still empty can be adopted. */
  lemma LegacyCanBeAdopted(keys: Keys, tickets: Tickets, tr: Trail)
    requires KeysIntact(tickets, tr) && tr.links == map[] && tr.heads == map[] && tr.changes == []
    ensures InAdoption(keys, tickets, tr)
  {
  }

  /** A waiting ticket of a store in adoption is chained, never refused. */
  lemma BackfillAdvances(keys: Keys, kid: string, tickets: Tickets, tr: Trail, t: Uuid, rows: seq<EventId>)
    requires A.CanSign(keys, kid) && InAdoption(keys, tickets, tr)
    requires t in tickets && Waiting(tr, t) && Lists(tr.events, t, rows)
    ensures var r := BackfillTicket(keys.suite, kid, tickets[t], t, tr, rows);
            && r.Ok? && InAdoption(keys, tickets, r.value)
            && r.value.events == tr.events && r.value.heads.Keys == tr.heads.Keys + {t}
  {
    hide Adopted, InAdoption, A.CanSign, Lists, HasHistory;
    WaitingIsUnchained(keys, tickets, tr, t);
    HistoryIsUnlinked(keys, tickets, tr, t, rows);
    AdoptionStaysInAdoption(keys, kid, tickets, tr, t, rows);
    AdoptedShape(keys.suite, kid, tickets[t], t, tr, rows);
  }

  lemma AdoptedShape(s: Suite, kid: string, who: Identity, t: Uuid, tr: Trail, rows: seq<EventId>)
    requires forall id | id in rows :: id in tr.events
    ensures var tr' := Adopted(s, kid, who, t, tr, rows);
            tr'.events == tr.events && tr'.heads.Keys == tr.heads.Keys + {t}
  {
    hide CanonicalHead, AdoptedLinks;
  }

  lemma HistoryIsUnlinked(keys: Keys, tickets: Tickets, tr: Trail, t: Uuid, rows: seq<EventId>)
    requires InAdoption(keys, tickets, tr) && Unchained(tr, t) && HasHistory(tr, t) && Lists(tr.events, t, rows)
    ensures rows != [] && forall id | id in rows :: id in tr.events && id !in tr.links
  {
    hide GateAccepts, KeysIntact, A.ChangeOk;
    forall id | id in rows
      ensures id !in tr.links
    {
      assert id in tr.links ==> !Orphan(tr, id);
    }
    var id :| id in tr.events && tr.events[id].ticket == t;
    assert id in rows;
  }

  lemma NoHeadNoHistory(keys: Keys, who: Identity, t: Uuid, tr: Trail)
    requires GateAccepts(keys, who, t, tr) && t !in tr.heads
    ensures !HasHistory(tr, t)
  {
    hide LinkOk;
    var es :| Verifies(keys, who, t, tr, es);
    assert es == [];
  }

  lemma WaitingIsUnchained(keys: Keys, tickets: Tickets, tr: Trail, t: Uuid)
    requires InAdoption(keys, tickets, tr) && t in tickets && Waiting(tr, t)
    ensures Unchained(tr, t)
  {
    hide GateAccepts;
    if GateAccepts(keys, tickets[t], t, tr) {
      NoHeadNoHistory(keys, tickets[t], t, tr);
    }
  }

  lemma AdoptionStaysInAdoption(keys: Keys, kid: string, tickets: Tickets, tr: Trail, t: Uuid, rows: seq<EventId>)
    requires A.CanSign(keys, kid) && InAdoption(keys, tickets, tr) && t in tickets && Unchained(tr, t)
    requires Lists(tr.events, t, rows) && rows != [] && forall id | id in rows :: id !in tr.links
    ensures InAdoption(keys, tickets, Adopted(keys.suite, kid, tickets[t], t, tr, rows))
  {
    hide HashEntry, LinkOk, CanonicalHead, Verifies, AdoptedLinks;
    var tr' := Adopted(keys.suite, kid, tickets[t], t, tr, rows);
    AdoptionAdds(keys.suite, tickets[t], t, tr.events, tr.links, rows);
    AdoptedVerifies(keys, kid, tickets[t], t, tr, rows);
    forall u | u in tickets
      ensures Unchained(tr', u) || GateAccepts(keys, tickets[u], u, tr')
    {
      if u != t && !Unchained(tr, u) {
        var es :| Verifies(keys, tickets[u], u, tr, es);
        AdoptionLeavesChain(keys, kid, tickets[t], t, tr, rows, tickets[u], u, es);
      }
    }
    forall id | id in tr'.links
      ensures !Orphan(tr', id)
    {
      assert id !in rows ==> !Orphan(tr, id);
    }
  }

  /** A ticket without history, links or head verifies as the empty chain. */
  lemma EmptyVerifies(keys: Keys, who: Identity, t: Uuid, tr: Trail)
    requires Unchained(tr, t) && !HasHistory(tr, t)
    ensures GateAccepts(keys, who, t, tr)
  {
    assert Verifies(keys, who, t, tr, []);
  }

  /** When nothing waits any more, the store is honest: every ticket verifies. */
  lemma CompleteBackfillIsHonest(keys: Keys, tickets: Tickets, tr: Trail)
    requires InAdoption(keys, tickets, tr) && forall t | t in tickets :: !Waiting(tr, t)
    ensures A.Honest(keys, tickets, tr)
  {
    hide GateAccepts, A.ChangeOk;
    forall t | t in tickets
      ensures GateAccepts(keys, tickets[t], t, tr)
    {
      if Unchained(tr, t) {
        EmptyVerifies(keys, tickets[t], t, tr);
      }
    }
  }
}
