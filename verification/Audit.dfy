/** The offline verifier's passes over chains, heads and orphaned links. */
module Audit {
  import opened Basics
  import opened Canonical
  import opened Trail

  // ---------------------------------------------------------------- one ordered pass

  predicate Of(events: map<EventId, EventRow>, t: Uuid, id: EventId) {
    id in events && events[id].ticket == t
  }

  /** The rows of one ticket, in the order they occur. */
  function Sub(events: map<EventId, EventRow>, rows: seq<EventId>, t: Uuid): (sub: seq<EventId>) {
    if rows == [] then []
    else
      var n := |rows| - 1;
      if Of(events, t, rows[n]) then Sub(events, rows[..n], t) + [rows[n]] else Sub(events, rows[..n], t)
  }

  lemma {:induction false} SubMembers(events: map<EventId, EventRow>, rows: seq<EventId>, t: Uuid)
    ensures forall id :: id in Sub(events, rows, t) <==> id in rows && Of(events, t, id)
  {
    if rows != [] {
      var n := |rows| - 1;
      assert rows == rows[..n] + [rows[n]];
      SubMembers(events, rows[..n], t);
    }
  }

  lemma SubStep(events: map<EventId, EventRow>, read: seq<EventId>, id: EventId, t: Uuid)
    ensures Sub(events, read + [id], t) == if Of(events, t, id) then Sub(events, read, t) + [id] else Sub(events, read, t)
  {
    assert (read + [id])[..|read|] == read;
  }

  lemma {:induction false} SubGrows(events: map<EventId, EventRow>, read: seq<EventId>, rest: seq<EventId>, t: Uuid)
    ensures Sub(events, read, t) <= Sub(events, read + rest, t)
  {
    if rest == [] {
      assert read + rest == read;
    } else {
      var n := |rest| - 1;
      assert (read + rest)[..|read| + n] == read + rest[..n];
      SubGrows(events, read, rest[..n], t);
    }
  }

  /** `ORDER BY t.id, i.sequence` over every event, joined by event id alone. */
  ghost predicate AllInOrder(tr: Trail, rows: seq<EventId>) {
    && NoRepeats(rows)
    && (forall id :: id in rows <==> id in tr.events)
    && Ordered(tr, rows)
  }

  ghost predicate Ordered(tr: Trail, rows: seq<EventId>) {
    forall i, j | 0 <= i < j < |rows| :: RowBefore(tr, rows[i], rows[j])
  }

  ghost predicate RowBefore(tr: Trail, a: EventId, b: EventId) {
    && a in tr.events && b in tr.events
    && tr.events[a].ticket <= tr.events[b].ticket
    && (tr.events[a].ticket == tr.events[b].ticket && b in tr.links ==>
          a in tr.links && tr.links[a].sequence <= tr.links[b].sequence)
  }

  lemma {:induction false} SubIsOrdered(tr: Trail, rows: seq<EventId>, t: Uuid)
    requires NoRepeats(rows) && Ordered(tr, rows)
    ensures NoRepeats(Sub(tr.events, rows, t)) && InSequence(tr, t, false, Sub(tr.events, rows, t))
  {
    if rows != [] {
      var n := |rows| - 1;
      SubIsOrdered(tr, rows[..n], t);
      SubMembers(tr.events, rows[..n], t);
      if Of(tr.events, t, rows[n]) {
        AppendInOrder(tr, t, rows, Sub(tr.events, rows[..n], t));
      }
    }
  }

  lemma AppendInOrder(tr: Trail, t: Uuid, rows: seq<EventId>, front: seq<EventId>)
    requires rows != [] && NoRepeats(rows) && Ordered(tr, rows) && Of(tr.events, t, rows[|rows| - 1])
    requires forall id | id in front :: id in rows[..|rows| - 1] && Of(tr.events, t, id)
    requires NoRepeats(front) && InSequence(tr, t, false, front)
    ensures NoRepeats(front + [rows[|rows| - 1]]) && InSequence(tr, t, false, front + [rows[|rows| - 1]])
  {
    var n := |rows| - 1;
    forall k | 0 <= k < |front|
      ensures front[k] != rows[n] && RowBefore(tr, front[k], rows[n])
    {
      assert front[k] in front;
      var j :| 0 <= j < n && rows[..n][j] == front[k];
      assert rows[j] == front[k];
    }
    var all := front + [rows[n]];
    forall i, j | 0 <= i < j < |all| && Joined(tr, t, false, all[j])
      ensures Joined(tr, t, false, all[i]) && tr.links[all[i]].sequence <= tr.links[all[j]].sequence
    {
      if j < |front| {
        assert Joined(tr, t, false, front[j]);
      } else {
        assert front[i] in front && RowBefore(tr, front[i], rows[n]);
      }
    }
  }

  lemma WholeSub(tr: Trail, rows: seq<EventId>, t: Uuid)
    requires AllInOrder(tr, rows)
    ensures Lists(tr.events, t, Sub(tr.events, rows, t))
    ensures InSequence(tr, t, false, Sub(tr.events, rows, t))
  {
    SubIsOrdered(tr, rows, t);
    SubMembers(tr.events, rows, t);
  }

  /** If the ticket has a chain, the next row read for it is the next link. */
  lemma NextIsLinked(s: Suite, who: Identity, t: Uuid, tr: Trail, rows: seq<EventId>,
                     read: seq<EventId>, id: EventId, es: seq<EventId>)
    requires AllInOrder(tr, rows) && read + [id] <= rows && Of(tr.events, t, id)
    requires Chained(s, who, t, tr, false, es)
    ensures var front := Sub(tr.events, read, t); LinkOk(s, who, t, tr, false, front + [id], |front|)
  {
    hide HashEntry;
    WholeSub(tr, rows, t);
    SortedRowsAreTheChain(s, who, t, tr, false, Sub(tr.events, rows, t), es);
    var rest := rows[|read| + 1..];
    assert read + [id] + rest == rows;
    SubGrows(tr.events, read + [id], rest, t);
    SubStep(tr.events, read, id, t);
    var front := Sub(tr.events, read, t);
    assert front + [id] <= es;
    assert LinkOk(s, who, t, tr, false, es, |front|);
  }

  type Computed = map<Uuid, (nat, Digest)>

  /** What the pass knows of one ticket once `sub` of its rows are read. */
  ghost predicate ReadSoFar(s: Suite, who: Identity, t: Uuid, tr: Trail, sub: seq<EventId>, computed: Computed) {
    && Linked(s, who, t, tr, false, sub, |sub|)
    && (t in computed <==> sub != [])
    && (t in computed ==> computed[t] == (|sub|, Predecessor(tr.links, sub, |sub|)))
  }

  ghost predicate PassState(s: Suite, tickets: Tickets, tr: Trail, read: seq<EventId>, computed: Computed) {
    && computed.Keys <= tickets.Keys
    && forall t | t in tickets :: ReadSoFar(s, tickets[t], t, tr, Sub(tr.events, read, t), computed)
  }

  /** The running predecessor and count belong to the ticket of the last row. */
  ghost predicate Running(tr: Trail, read: seq<EventId>, current: Uuid, prev: Digest, count: nat) {
    if read == [] then count == 0 && prev == GENESIS
    else
      var sub := Sub(tr.events, read, current);
      Of(tr.events, current, read[|read| - 1]) && count == |sub| && prev == Predecessor(tr.links, sub, |sub|)
  }

  /** Reading a row of another ticket starts that ticket's chain afresh. */
  lemma FreshTicket(tr: Trail, read: seq<EventId>, id: EventId)
    requires Ordered(tr, read + [id]) && id in tr.events
    requires read != [] ==> !Of(tr.events, tr.events[id].ticket, read[|read| - 1])
    ensures Sub(tr.events, read, tr.events[id].ticket) == []
  {
    var t := tr.events[id].ticket;
    forall r | r in read
      ensures !Of(tr.events, t, r)
    {
      var j :| 0 <= j < |read| && read[j] == r;
      EarlierTicket(tr, read, id, j);
    }
    NoneOfTicket(tr.events, read, t);
  }

  lemma EarlierTicket(tr: Trail, read: seq<EventId>, id: EventId, j: nat)
    requires Ordered(tr, read + [id]) && id in tr.events && j < |read|
    requires !Of(tr.events, tr.events[id].ticket, read[|read| - 1])
    ensures !Of(tr.events, tr.events[id].ticket, read[j])
  {
    var rows, n := read + [id], |read| - 1;
    assert RowBefore(tr, rows[n], rows[n + 1]);
    assert j < n ==> RowBefore(tr, rows[j], rows[n]);
  }

  lemma {:induction false} NoneOfTicket(events: map<EventId, EventRow>, rows: seq<EventId>, t: Uuid)
    requires forall r | r in rows :: !Of(events, t, r)
    ensures Sub(events, rows, t) == []
  {
    if rows != [] {
      NoneOfTicket(events, rows[..|rows| - 1], t);
    }
  }

  lemma ExtendLinked(s: Suite, who: Identity, t: Uuid, tr: Trail, sub: seq<EventId>, id: EventId)
    requires Linked(s, who, t, tr, false, sub, |sub|) && LinkOk(s, who, t, tr, false, sub + [id], |sub|)
    ensures Linked(s, who, t, tr, false, sub + [id], |sub| + 1)
    ensures id in tr.links && Predecessor(tr.links, sub + [id], |sub| + 1) == tr.links[id].entry
  {
    hide HashEntry;
    forall k | 0 <= k < |sub|
      ensures LinkOk(s, who, t, tr, false, sub + [id], k)
    {
      assert LinkOk(s, who, t, tr, false, sub, k);
    }
  }

  /** Accepting one row keeps the state of the pass. */
  lemma PassStep(s: Suite, tickets: Tickets, tr: Trail, read: seq<EventId>, id: EventId, current: Uuid,
                 computed: Computed, computed': Computed)
    requires PassState(s, tickets, tr, read, computed)
    requires Of(tr.events, current, id) && current in tickets
    requires var sub := Sub(tr.events, read, current);
             && LinkOk(s, tickets[current], current, tr, false, sub + [id], |sub|)
             && id in tr.links && computed' == computed[current := (|sub| + 1, tr.links[id].entry)]
    ensures PassState(s, tickets, tr, read + [id], computed')
    ensures Running(tr, read + [id], current, tr.links[id].entry, |Sub(tr.events, read, current)| + 1)
  {
    hide LinkOk;
    var sub := Sub(tr.events, read, current);
    assert ReadSoFar(s, tickets[current], current, tr, sub, computed);
    ExtendLinked(s, tickets[current], current, tr, sub, id);
    forall t | t in tickets
      ensures ReadSoFar(s, tickets[t], t, tr, Sub(tr.events, read + [id], t), computed')
    {
      SubStep(tr.events, read, id, t);
      assert ReadSoFar(s, tickets[t], t, tr, Sub(tr.events, read, t), computed);
    }
    SubStep(tr.events, read, id, current);
  }

  lemma PassStart(s: Suite, tickets: Tickets, tr: Trail)
    ensures PassState(s, tickets, tr, [], map[]) && Running(tr, [], 0, GENESIS, 0)
  {
  }

  /** Before a row is checked, the running values describe its ticket. */
  lemma BeforeRow(s: Suite, tickets: Tickets, tr: Trail, read: seq<EventId>, id: EventId,
                  current: Uuid, prev: Digest, count: nat, computed: Computed)
    requires PassState(s, tickets, tr, read, computed) && Running(tr, read, current, prev, count)
    requires Ordered(tr, read + [id]) && id in tr.events && tr.events[id].ticket in tickets
    ensures var t := tr.events[id].ticket;
            var sub := Sub(tr.events, read, t);
            && (if t == current then count else 0) == |sub|
            && (if t == current then prev else GENESIS) == Predecessor(tr.links, sub, |sub|)
            && (sub != [] ==> sub[|sub| - 1] in tr.links)
  {
    hide HashEntry;
    var t := tr.events[id].ticket;
    if t != current {
      FreshTicket(tr, read, id);
    }
    var sub := Sub(tr.events, read, t);
    assert ReadSoFar(s, tickets[t], t, tr, sub, computed);
    assert sub != [] ==> LinkOk(s, tickets[t], t, tr, false, sub, |sub| - 1);
  }

  /** The pass over every chain, with coverage required. */
  method VerifyChains(s: Suite, tickets: Tickets, tr: Trail, rows: seq<EventId>)
    returns (ok: bool, computed: Computed)
    requires AllInOrder(tr, rows) && KeysIntact(tickets, tr)
    ensures ok <==> forall t | t in tickets :: exists es :: Chained(s, tickets[t], t, tr, false, es)
    ensures ok ==> PassState(s, tickets, tr, rows, computed)
  {
    hide LinkOk, Sub, PassState, Running, Chained, AllInOrder, Ordered, KeysIntact;
    computed := map[];
    PassStart(s, tickets, tr);
    assert rows[..0] == [];
    var current, prev, count := 0, GENESIS, 0;
    for i := 0 to |rows|
      invariant PassState(s, tickets, tr, rows[..i], computed)
      invariant Running(tr, rows[..i], current, prev, count)
    {
      var id := rows[i];
      RowAt(tickets, tr, rows, i);
      var ticket := tr.events[id].ticket;
      BeforeRow(s, tickets, tr, rows[..i], id, current, prev, count, computed);
      if ticket != current {
        current, prev, count := ticket, GENESIS, 0;
      }
      var accepted := CheckRow(s, tickets[ticket], ticket, tr, Sub(tr.events, rows[..i], ticket), id, prev, count);
      if !accepted {
        RefusedRow(s, tickets[ticket], ticket, tr, rows, rows[..i], id);
        return false, computed;
      }
      count := count + 1;
      prev := tr.links[id].entry;
      ghost var before := computed;
      computed := computed[ticket := (count, prev)];
      PassStep(s, tickets, tr, rows[..i], id, current, before, computed);
    }
    assert rows[..|rows|] == rows;
    PassEnd(s, tickets, tr, rows, computed);
    ok := true;
  }

  lemma RowAt(tickets: Tickets, tr: Trail, rows: seq<EventId>, i: nat)
    requires AllInOrder(tr, rows) && KeysIntact(tickets, tr) && i < |rows|
    ensures rows[i] in tr.events && tr.events[rows[i]].ticket in tickets
    ensures rows[..i + 1] == rows[..i] + [rows[i]] && Ordered(tr, rows[..i] + [rows[i]])
  {
    assert rows[i] in rows;
    assert rows[..i + 1] == rows[..i] + [rows[i]];
  }

  lemma PassEnd(s: Suite, tickets: Tickets, tr: Trail, rows: seq<EventId>, computed: Computed)
    requires AllInOrder(tr, rows) && PassState(s, tickets, tr, rows, computed)
    ensures forall t | t in tickets :: exists es :: Chained(s, tickets[t], t, tr, false, es)
  {
    hide LinkOk;
    forall t | t in tickets
      ensures exists es :: Chained(s, tickets[t], t, tr, false, es)
    {
      WholeSub(tr, rows, t);
      assert ReadSoFar(s, tickets[t], t, tr, Sub(tr.events, rows, t), computed);
      assert Chained(s, tickets[t], t, tr, false, Sub(tr.events, rows, t));
    }
  }

  method CheckRow(s: Suite, who: Identity, t: Uuid, tr: Trail, ghost sub: seq<EventId>, id: EventId, prev: Digest, count: nat)
    returns (ok: bool)
    requires Of(tr.events, t, id)
    requires count == |sub| && prev == Predecessor(tr.links, sub, |sub|)
    requires sub != [] ==> sub[|sub| - 1] in tr.links
    ensures ok <==> LinkOk(s, who, t, tr, false, sub + [id], |sub|)
    ensures ok ==> id in tr.links
  {
    hide HashEntry;
    if id !in tr.links {
      return false;
    }
    var link := tr.links[id];
    if link.version != CANONICAL_VERSION || link.sequence != count + 1 || link.previous != prev {
      return false;
    }
    ok := HashEntry(s, prev, EventOf(t, who, count, id, tr.events[id])) == link.entry;
  }

  lemma RefusedRow(s: Suite, who: Identity, t: Uuid, tr: Trail, rows: seq<EventId>, read: seq<EventId>, id: EventId)
    requires AllInOrder(tr, rows) && read + [id] <= rows && Of(tr.events, t, id)
    requires var sub := Sub(tr.events, read, t); !LinkOk(s, who, t, tr, false, sub + [id], |sub|)
    ensures !exists es :: Chained(s, who, t, tr, false, es)
  {
    hide LinkOk;
    if exists es :: Chained(s, who, t, tr, false, es) {
      var es :| Chained(s, who, t, tr, false, es);
      NextIsLinked(s, who, t, tr, rows, read, id, es);
    }
  }

  // ---------------------------------------------------------------- heads, orphans

  predicate HeadsMatch(keys: Keys, heads: map<Uuid, HeadRow>, computed: Computed) {
    && (forall t | t in heads :: t in computed && HeadOk(keys, t, heads[t], computed[t].0, computed[t].1))
    && (forall t | t in computed :: t in heads)
  }

  method VerifyHeads(keys: Keys, heads: map<Uuid, HeadRow>, computed: Computed) returns (ok: bool)
    ensures ok <==> HeadsMatch(keys, heads, computed)
  {
    hide Keys.VerifyHead;
    var unread := heads.Keys;
    var seen: set<Uuid> := {};
    while unread != {}
      invariant unread + seen == heads.Keys
      invariant forall t | t in seen :: t in computed && HeadOk(keys, t, heads[t], computed[t].0, computed[t].1)
    {
      var t :| t in unread;
      var head := heads[t];
      if head.version != CANONICAL_VERSION {
        return false;
      }
      unread, seen := unread - {t}, seen + {t};
      if t !in computed || computed[t].0 != head.sequence || computed[t].1 != head.hash {
        return false;
      }
      if !keys.VerifyHead(t, head.sequence, head.kid, head.hash, head.signature) {
        return false;
      }
    }
    ok := forall t | t in computed.Keys :: t in seen;
  }

  /** The head pass and the chain pass together say that every head matches its chain. */
  lemma HeadsMatchChains(keys: Keys, tickets: Tickets, tr: Trail, rows: seq<EventId>, computed: Computed)
    requires AllInOrder(tr, rows) && KeysIntact(tickets, tr)
    requires PassState(keys.suite, tickets, tr, rows, computed)
    ensures HeadsMatch(keys, tr.heads, computed) <==>
            forall t | t in tickets :: exists es :: AuditedTicket(keys, tickets[t], t, tr, es)
  {
    hide LinkOk, HeadOk, AllInOrder;
    forall t | t in tickets
      ensures (exists es :: AuditedTicket(keys, tickets[t], t, tr, es)) <==>
              var sub := Sub(tr.events, rows, t);
              HeadMatches(keys, t, tr.heads, |sub|, Predecessor(tr.links, sub, |sub|))
      ensures ReadSoFar(keys.suite, tickets[t], t, tr, Sub(tr.events, rows, t), computed)
    {
      OneChainPerTicket(keys, tickets[t], t, tr, rows, computed);
    }
  }

  lemma OneChainPerTicket(keys: Keys, who: Identity, t: Uuid, tr: Trail, rows: seq<EventId>, computed: Computed)
    requires AllInOrder(tr, rows) && ReadSoFar(keys.suite, who, t, tr, Sub(tr.events, rows, t), computed)
    ensures (exists es :: AuditedTicket(keys, who, t, tr, es)) <==>
            var sub := Sub(tr.events, rows, t);
            HeadMatches(keys, t, tr.heads, |sub|, Predecessor(tr.links, sub, |sub|))
  {
    hide LinkOk, HeadOk;
    var sub := Sub(tr.events, rows, t);
    WholeSub(tr, rows, t);
    if exists es :: AuditedTicket(keys, who, t, tr, es) {
      var es :| AuditedTicket(keys, who, t, tr, es);
      SortedRowsAreTheChain(keys.suite, who, t, tr, false, sub, es);
    }
    if HeadMatches(keys, t, tr.heads, |sub|, Predecessor(tr.links, sub, |sub|)) {
      assert AuditedTicket(keys, who, t, tr, sub);
    }
  }

  /** The chain, head and orphan passes of the offline verifier. */
  method VerifyTickets(keys: Keys, tickets: Tickets, tr: Trail, rows: seq<EventId>) returns (ok: bool)
    requires AllInOrder(tr, rows) && KeysIntact(tickets, tr)
    ensures ok <==> AuditAccepts(keys, tickets, tr)
  {
    hide Chained, HeadMatches, LinkOk;
    var computed;
    ok, computed := VerifyChains(keys.suite, tickets, tr, rows);
    if !ok {
      AuditNeedsChains(keys, tickets, tr);
      return;
    }
    HeadsMatchChains(keys, tickets, tr, rows, computed);
    ok := VerifyHeads(keys, tr.heads, computed);
    if ok {
      ok := forall id | id in tr.links.Keys :: !Orphan(tr, id);
    }
  }

  lemma AuditNeedsChains(keys: Keys, tickets: Tickets, tr: Trail)
    ensures AuditAccepts(keys, tickets, tr) ==>
            forall t | t in tickets :: exists es :: Chained(keys.suite, tickets[t], t, tr, false, es)
  {
    hide LinkOk, HeadMatches;
    if AuditAccepts(keys, tickets, tr) {
      forall t | t in tickets
        ensures exists es :: Chained(keys.suite, tickets[t], t, tr, false, es)
      {
        var es :| AuditedTicket(keys, tickets[t], t, tr, es);
        assert Chained(keys.suite, tickets[t], t, tr, false, es);
      }
    }
  }
}
