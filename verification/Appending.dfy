/** Appending one lifecycle event: the only way a chain grows. */
module Appending {
  import opened Basics
  import opened Canonical
  import opened Trail

  datatype Input = Input(ticket: Uuid, who: Identity, id: EventId, kind: EventType, at: Time)

  datatype Refusal = EventIdTaken | ChainDamaged

  /** The types a ticket may have at most one event of. */
  predicate Singleton(kind: EventType) {
    kind in {Issued, Delivered, Redeemed, Refunded, Exchanged}
  }

  predicate HasEvent(events: map<EventId, EventRow>, t: Uuid, kind: EventType) {
    exists id | id in events :: events[id].ticket == t && events[id].kind == kind
  }

  /** The unique indexes that guard the event table. */
  predicate Taken(events: map<EventId, EventRow>, x: Input) {
    x.id in events || (Singleton(x.kind) && HasEvent(events, x.ticket, x.kind))
  }

  function HeadSequence(tr: Trail, t: Uuid): nat {
    if t in tr.heads then tr.heads[t].sequence else 0
  }

  function HeadHash(tr: Trail, t: Uuid): Digest {
    if t in tr.heads then tr.heads[t].hash else GENESIS
  }

  function NewLink(s: Suite, tr: Trail, x: Input): LinkRow {
    var sequence, previous := HeadSequence(tr, x.ticket), HeadHash(tr, x.ticket);
    LinkRow(x.ticket, sequence + 1, CANONICAL_VERSION, previous,
            HashEntry(s, previous, EventOf(x.ticket, x.who, sequence, x.id, EventRow(x.ticket, x.kind, x.at))))
  }

  /** The unique indexes that guard the integrity table. */
  predicate LinkTaken(tr: Trail, x: Input, l: LinkRow) {
    x.id in tr.links || exists id | id in tr.links :: tr.links[id].ticket == l.ticket && tr.links[id].sequence == l.sequence
  }

  /** Neither this event nor the next place in the ticket's chain has a link yet. */
  predicate LinkFree(tr: Trail, t: Uuid, id: EventId) {
    id !in tr.links && forall l | l in tr.links && tr.links[l].ticket == t :: tr.links[l].sequence != HeadSequence(tr, t) + 1
  }

  /** The upsert of the head keeps the organizer of an existing row. */
  function NewHead(s: Suite, kid: string, tr: Trail, x: Input, l: LinkRow): HeadRow {
    HeadRow(if x.ticket in tr.heads then tr.heads[x.ticket].organizer else x.who.organizer,
            l.sequence, CANONICAL_VERSION, l.entry, kid,
            s.sign(kid, CanonicalHead(s, x.ticket, l.sequence, kid, l.entry)))
  }

  function NewChange(x: Input, h: HeadRow): ChangeRow {
    ChangeRow(x.ticket, x.who.organizer, h.sequence, h.hash, h.version, h.kid, h.signature, None)
  }

  /** What the trail tables hold after the append. */
  function Appended(s: Suite, kid: string, tr: Trail, x: Input): Trail {
    var link := NewLink(s, tr, x);
    var head := NewHead(s, kid, tr, x, link);
    Trail(tr.events[x.id := EventRow(x.ticket, x.kind, x.at)],
          tr.links[x.id := link],
          tr.heads[x.ticket := head],
          tr.changes + [NewChange(x, head)])
  }

  function Append(s: Suite, kid: string, tr: Trail, x: Input): Result<Trail, Refusal> {
    if Taken(tr.events, x) then Err(EventIdTaken)
    else if LinkTaken(tr, x, NewLink(s, tr, x)) then Err(ChainDamaged)
    else Ok(Appended(s, kid, tr, x))
  }

  /** An append succeeds exactly when the unique indexes of both tables are free. */
  lemma AppendFitsIff(s: Suite, kid: string, tr: Trail, x: Input)
    ensures Append(s, kid, tr, x).Ok? <==> !Taken(tr.events, x) && LinkFree(tr, x.ticket, x.id)
  {
    hide HashEntry, Appended;
  }

  // ---------------------------------------------------------------- an honest trail

  /** A queued snapshot is a signed head of a ticket of the organizer it is filed under. */
  predicate ChangeOk(keys: Keys, tickets: Tickets, c: ChangeRow) {
    && c.ticket in tickets && tickets[c.ticket].organizer == c.organizer
    && c.version == CANONICAL_VERSION
    && keys.VerifyHead(c.ticket, c.sequence, c.kid, c.hash, c.signature)
  }

  ghost predicate Honest(keys: Keys, tickets: Tickets, tr: Trail) {
    && KeysIntact(tickets, tr)
    && (forall t | t in tickets :: GateAccepts(keys, tickets[t], t, tr))
    && (forall i | 0 <= i < |tr.changes| :: ChangeOk(keys, tickets, tr.changes[i]))
  }

  lemma HonestIsAudited(keys: Keys, tickets: Tickets, tr: Trail)
    requires Honest(keys, tickets, tr)
    ensures AuditAccepts(keys, tickets, tr)
  {
    GateAndAuditAgree(keys, tickets, tr);
  }

  ghost predicate CanSign(keys: Keys, kid: string) {
    keys.suite.WellFormed() && keys.keyring.Some? && kid in keys.keyring.value
  }

  lemma LinksHaveEvents(keys: Keys, tickets: Tickets, tr: Trail)
    requires Honest(keys, tickets, tr)
    ensures forall id | id in tr.links :: id in tr.events
  {
    hide LinkOk, HeadMatches;
    forall id | id in tr.links
      ensures id in tr.events
    {
      var owner := tr.links[id].ticket;
      assert GateAccepts(keys, tickets[owner], owner, tr);
      var es :| Verifies(keys, tickets[owner], owner, tr, es);
      assert !Orphan(tr, id);
    }
  }

  /** On an honest trail an append fails only because the event is already there. */
  lemma HonestAppendFits(keys: Keys, tickets: Tickets, tr: Trail, x: Input)
    requires Honest(keys, tickets, tr) && x.ticket in tickets && x.id !in tr.events
    ensures !LinkTaken(tr, x, NewLink(keys.suite, tr, x))
  {
    hide HashEntry, Keys.VerifyHead;
    var t := x.ticket;
    assert GateAccepts(keys, tickets[t], t, tr);
    var es :| Verifies(keys, tickets[t], t, tr, es);
    LinksHaveEvents(keys, tickets, tr);
    forall id | id in tr.links && tr.links[id].ticket == t
      ensures tr.links[id].sequence <= |es|
    {
      assert !Orphan(tr, id);
      assert id in es;
      var k :| 0 <= k < |es| && es[k] == id;
      assert LinkOk(keys.suite, tickets[t], t, tr, true, es, k);
    }
  }

  lemma ListsAfterAppend(events: map<EventId, EventRow>, x: Input, es: seq<EventId>, t: Uuid)
    requires x.id !in events && Lists(events, t, es)
    ensures Lists(events[x.id := EventRow(x.ticket, x.kind, x.at)], t, if t == x.ticket then es + [x.id] else es)
  {
    assert x.id !in es;
  }

  /** The appended ticket's chain grows by one link. */
  lemma AppendExtendsChain(keys: Keys, kid: string, who: Identity, tr: Trail, x: Input, es: seq<EventId>)
    requires CanSign(keys, kid) && x.who == who && Verifies(keys, who, x.ticket, tr, es)
    requires x.id !in tr.events && x.id !in tr.links
    ensures Verifies(keys, who, x.ticket, Appended(keys.suite, kid, tr, x), es + [x.id])
  {
    hide HashEntry, CanonicalHead;
    var t, tr' := x.ticket, Appended(keys.suite, kid, tr, x);
    var es' := es + [x.id];
    ListsAfterAppend(tr.events, x, es, t);
    forall k | 0 <= k < |es'|
      ensures LinkOk(keys.suite, who, t, tr', true, es', k)
    {
      assert k < |es| ==> LinkOk(keys.suite, who, t, tr, true, es, k);
      assert k > 0 ==> LinkOk(keys.suite, who, t, tr, true, es, k - 1);
      assert forall i | 0 <= i < |es| :: es[i] in es;
    }
  }

  /** Every other ticket's chain is untouched. */
  lemma AppendLeavesChain(keys: Keys, kid: string, who: Identity, t: Uuid, tr: Trail, x: Input, es: seq<EventId>)
    requires t != x.ticket && Verifies(keys, who, t, tr, es)
    requires x.id !in tr.events && x.id !in tr.links
    ensures Verifies(keys, who, t, Appended(keys.suite, kid, tr, x), es)
  {
    hide HashEntry, CanonicalHead;
    var tr' := Appended(keys.suite, kid, tr, x);
    ListsAfterAppend(tr.events, x, es, t);
    forall k | 0 <= k < |es|
      ensures LinkOk(keys.suite, who, t, tr', true, es, k)
    {
      assert LinkOk(keys.suite, who, t, tr, true, es, k);
      assert forall i | 0 <= i < |es| :: es[i] in es;
    }
  }

  lemma AppendKeepsHonest(keys: Keys, tickets: Tickets, kid: string, tr: Trail, x: Input)
    requires Honest(keys, tickets, tr) && CanSign(keys, kid)
    requires x.ticket in tickets && x.who == tickets[x.ticket]
    ensures Append(keys.suite, kid, tr, x).Ok? <==> !Taken(tr.events, x)
    ensures !Taken(tr.events, x) ==>
              Append(keys.suite, kid, tr, x).value == Appended(keys.suite, kid, tr, x)
              && Honest(keys, tickets, Appended(keys.suite, kid, tr, x))
  {
    hide HashEntry, CanonicalHead, Verifies;
    if !Taken(tr.events, x) {
      HonestAppendFits(keys, tickets, tr, x);
      var tr' := Appended(keys.suite, kid, tr, x);
      forall t | t in tickets
        ensures GateAccepts(keys, tickets[t], t, tr')
      {
        assert GateAccepts(keys, tickets[t], t, tr);
        var es :| Verifies(keys, tickets[t], t, tr, es);
        if t == x.ticket {
          AppendExtendsChain(keys, kid, tickets[t], tr, x, es);
        } else {
          AppendLeavesChain(keys, kid, tickets[t], t, tr, x, es);
        }
      }
    }
  }

  /** A new ticket starts without events, links or head. */
  lemma NewTicketKeepsHonest(keys: Keys, tickets: Tickets, t: Uuid, who: Identity, tr: Trail)
    requires Honest(keys, tickets, tr) && t !in tickets
    ensures Honest(keys, tickets[t := who], tr)
  {
    hide LinkOk, HeadOk;
    var tickets' := tickets[t := who];
    forall u | u in tickets'
      ensures GateAccepts(keys, tickets'[u], u, tr)
    {
      if u == t {
        assert Verifies(keys, who, t, tr, []);
      } else {
        assert GateAccepts(keys, tickets[u], u, tr);
      }
    }
  }
}
