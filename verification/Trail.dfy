/**
 The signed lifecycle trail: one hash chain per ticket, its head, and the two verifiers
 that read it.
 */
module Trail {
  import opened Basics
  import opened Canonical

  datatype EventRow = EventRow(ticket: Uuid, kind: EventType, at: Time)

  /** One row of `lifecycle_event_integrity`, keyed by event id. */
  datatype LinkRow = LinkRow(ticket: Uuid, sequence: nat, version: nat, previous: Digest, entry: Digest)

  datatype HeadRow = HeadRow(
    organizer: Uuid, sequence: nat, version: nat, hash: Digest, kid: string, signature: string)

  /** One queued head snapshot; `checkpoint` is the index of the checkpoint that took it. */
  datatype ChangeRow = ChangeRow(
    ticket: Uuid, organizer: Uuid, sequence: nat, hash: Digest, version: nat,
    kid: string, signature: string, checkpoint: Option<nat>)

  /** The four trail tables.  Change ids are positions in `changes`. */
  datatype Trail = Trail(
    events: map<EventId, EventRow>,
    links: map<EventId, LinkRow>,
    heads: map<Uuid, HeadRow>,
    changes: seq<ChangeRow>)

  type Tickets = map<Uuid, Identity>

  /** Verification keys, if any are configured. */
  datatype Keys = Keys(suite: Suite, keyring: Option<set<string>>)
  {
    predicate VerifyHead(ticket: Uuid, sequence: nat, kid: string, hash: Digest, signature: string) {
      && keyring.Some? && kid in keyring.value
      && suite.verify(kid, CanonicalHead(suite, ticket, sequence, kid, hash), signature)
    }

    predicate VerifyCheckpoint(c: Checkpoint, signature: string) {
      && keyring.Some? && c.kid in keyring.value
      && suite.verify(c.kid, CanonicalCheckpoint(suite, c), signature)
    }
  }

  /** The reasons the gate gives for refusing a chain. */
  datatype AlarmReason =
    | MissingIntegrityRow | UnsupportedVersion | SequenceGap | BrokenChainLink
    | EntryHashMismatch | OrphanIntegrityRow | MissingHead | HeadWithoutEvents
    | HeadMismatch | MissingKeyring | UnknownKey | InvalidHeadSignature
    | Unavailable | Unclassified | LegacyQuarantine

  // ---------------------------------------------------------------- what a chain is

  /** `es` lists the events of one ticket, each once. */
  ghost predicate Lists(events: map<EventId, EventRow>, t: Uuid, es: seq<EventId>) {
    && NoRepeats(es)
    && forall id :: id in es <==> id in events && events[id].ticket == t
  }

  function EventOf(t: Uuid, who: Identity, k: nat, id: EventId, row: EventRow): Event {
    Event(t, who, k + 1, id, row.kind, row.at)
  }

  /** The hash the k-th link must name as its predecessor. */
  function Predecessor(links: map<EventId, LinkRow>, es: seq<EventId>, k: nat): Digest
    requires k <= |es|
  {
    if k == 0 || es[k - 1] !in links then GENESIS else links[es[k - 1]].entry
  }

  /** The k-th event of the listing carries the k-th link of a chain.  A `bound` join also
      asks that the link names the ticket. */
  predicate LinkOk(s: Suite, who: Identity, t: Uuid, tr: Trail, bound: bool, es: seq<EventId>, k: nat)
    requires k < |es|
  {
    && es[k] in tr.events && es[k] in tr.links
    && (k > 0 ==> es[k - 1] in tr.links)
    && var l := tr.links[es[k]];
    && (bound ==> l.ticket == t)
    && l.version == CANONICAL_VERSION
    && l.sequence == k + 1
    && l.previous == Predecessor(tr.links, es, k)
    && l.entry == HashEntry(s, l.previous, EventOf(t, who, k, es[k], tr.events[es[k]]))
  }

  ghost predicate Linked(s: Suite, who: Identity, t: Uuid, tr: Trail, bound: bool, es: seq<EventId>, n: nat)
    requires n <= |es|
  {
    forall k | 0 <= k < n :: LinkOk(s, who, t, tr, bound, es, k)
  }

  /** Every event of the ticket is linked, in this order, from the genesis hash. */
  ghost predicate Chained(s: Suite, who: Identity, t: Uuid, tr: Trail, bound: bool, es: seq<EventId>) {
    Lists(tr.events, t, es) && Linked(s, who, t, tr, bound, es, |es|)
  }

  predicate Orphan(tr: Trail, id: EventId)
    requires id in tr.links
  {
    !(id in tr.events && tr.events[id].ticket == tr.links[id].ticket)
  }

  predicate HeadOk(keys: Keys, t: Uuid, h: HeadRow, count: nat, last: Digest) {
    && h.version == CANONICAL_VERSION
    && h.sequence == count && h.hash == last
    && keys.VerifyHead(t, h.sequence, h.kid, h.hash, h.signature)
  }

  /** A chain of `count` events that ends in `last` has the head it should have. */
  predicate HeadMatches(keys: Keys, t: Uuid, heads: map<Uuid, HeadRow>, count: nat, last: Digest) {
    if t !in heads then count == 0 else count > 0 && HeadOk(keys, t, heads[t], count, last)
  }

  /** A chain that verifies, with its order as a witness. */
  ghost predicate Verifies(keys: Keys, who: Identity, t: Uuid, tr: Trail, es: seq<EventId>) {
    && Chained(keys.suite, who, t, tr, true, es)
    && NoOrphans(tr, t)
    && HeadMatches(keys, t, tr.heads, |es|, Predecessor(tr.links, es, |es|))
  }

  ghost predicate NoOrphans(tr: Trail, t: Uuid) {
    forall id | id in tr.links && tr.links[id].ticket == t :: !Orphan(tr, id)
  }

  /** What the gate decides about one ticket. */
  ghost predicate GateAccepts(keys: Keys, who: Identity, t: Uuid, tr: Trail) {
    exists es :: Verifies(keys, who, t, tr, es)
  }

  /** What the audit's chain, head and orphan passes decide about all tickets.  Its join
      reads a link by event id alone. */
  ghost predicate AuditAccepts(keys: Keys, tickets: Tickets, tr: Trail) {
    && (forall t | t in tickets :: exists es :: AuditedTicket(keys, tickets[t], t, tr, es))
    && (forall id | id in tr.links :: !Orphan(tr, id))
  }

  ghost predicate AuditedTicket(keys: Keys, who: Identity, t: Uuid, tr: Trail, es: seq<EventId>) {
    Chained(keys.suite, who, t, tr, false, es) && HeadMatches(keys, t, tr.heads, |es|, Predecessor(tr.links, es, |es|))
  }

  /** Foreign keys: every row of the three tables names a ticket that exists. */
  ghost predicate KeysIntact(tickets: Tickets, tr: Trail) {
    && (forall id | id in tr.events :: tr.events[id].ticket in tickets)
    && (forall id | id in tr.links :: tr.links[id].ticket in tickets)
    && (forall t | t in tr.heads :: t in tickets)
  }

  /** Without orphans the looser join finds only the ticket's own links. */
  lemma BindWithoutOrphans(s: Suite, who: Identity, t: Uuid, tr: Trail, es: seq<EventId>)
    requires Chained(s, who, t, tr, false, es)
    requires forall id | id in tr.links :: !Orphan(tr, id)
    ensures Chained(s, who, t, tr, true, es)
  {
    forall k | 0 <= k < |es|
      ensures LinkOk(s, who, t, tr, true, es, k)
    {
      assert LinkOk(s, who, t, tr, false, es, k);
      assert es[k] in es && !Orphan(tr, es[k]);
    }
  }

  lemma UnbindChain(s: Suite, who: Identity, t: Uuid, tr: Trail, es: seq<EventId>)
    requires Chained(s, who, t, tr, true, es)
    ensures Chained(s, who, t, tr, false, es)
  {
    forall k | 0 <= k < |es|
      ensures LinkOk(s, who, t, tr, false, es, k)
    {
      assert LinkOk(s, who, t, tr, true, es, k);
    }
  }

  /** Gate and audit agree on arbitrary table contents, although they join links
      differently: the audit is clean exactly when the gate accepts every ticket. */
  lemma GateAndAuditAgree(keys: Keys, tickets: Tickets, tr: Trail)
    requires KeysIntact(tickets, tr)
    ensures AuditAccepts(keys, tickets, tr) <==> forall t | t in tickets :: GateAccepts(keys, tickets[t], t, tr)
  {
    hide LinkOk, HeadMatches;
    if AuditAccepts(keys, tickets, tr) {
      forall t | t in tickets
        ensures GateAccepts(keys, tickets[t], t, tr)
      {
        var es :| AuditedTicket(keys, tickets[t], t, tr, es);
        BindWithoutOrphans(keys.suite, tickets[t], t, tr, es);
        assert Verifies(keys, tickets[t], t, tr, es);
      }
    }
    if forall t | t in tickets :: GateAccepts(keys, tickets[t], t, tr) {
      forall t | t in tickets
        ensures exists es :: AuditedTicket(keys, tickets[t], t, tr, es)
      {
        assert GateAccepts(keys, tickets[t], t, tr);
        var es :| Verifies(keys, tickets[t], t, tr, es);
        UnbindChain(keys.suite, tickets[t], t, tr, es);
        assert AuditedTicket(keys, tickets[t], t, tr, es);
      }
      forall id | id in tr.links
        ensures !Orphan(tr, id)
      {
        var t := tr.links[id].ticket;
        assert GateAccepts(keys, tickets[t], t, tr);
        var es :| Verifies(keys, tickets[t], t, tr, es);
      }
    }
  }

  // ---------------------------------------------------------------- the order is forced

  /** A link the join finds: the gate asks for the ticket too, the audit does not. */
  predicate Joined(tr: Trail, t: Uuid, bound: bool, id: EventId) {
    id in tr.links && (bound ==> tr.links[id].ticket == t)
  }

  /** `ORDER BY i.sequence`: unlinked events come last. */
  ghost predicate InSequence(tr: Trail, t: Uuid, bound: bool, rows: seq<EventId>) {
    forall i, j | 0 <= i < j < |rows| && Joined(tr, t, bound, rows[j]) ::
      Joined(tr, t, bound, rows[i]) && tr.links[rows[i]].sequence <= tr.links[rows[j]].sequence
  }

  lemma ChainPosition(s: Suite, who: Identity, t: Uuid, tr: Trail, bound: bool,
                      rows: seq<EventId>, es: seq<EventId>, j: nat) returns (k: nat)
    requires Chained(s, who, t, tr, bound, es) && Lists(tr.events, t, rows) && j < |rows|
    ensures k < |es| && es[k] == rows[j] && Joined(tr, t, bound, rows[j])
    ensures tr.links[rows[j]].sequence == k + 1
  {
    assert rows[j] in rows;
    assert rows[j] in es;
    k :| 0 <= k < |es| && es[k] == rows[j];
    assert LinkOk(s, who, t, tr, bound, es, k);
  }

  lemma {:induction false} SequenceAtLeast(s: Suite, who: Identity, t: Uuid, tr: Trail, bound: bool,
                                           rows: seq<EventId>, es: seq<EventId>, j: nat)
    requires Chained(s, who, t, tr, bound, es) && Lists(tr.events, t, rows)
    requires InSequence(tr, t, bound, rows) && j < |rows|
    ensures rows[j] in tr.links && tr.links[rows[j]].sequence >= j + 1
  {
    var k := ChainPosition(s, who, t, tr, bound, rows, es, j);
    if j > 0 {
      SequenceAtLeast(s, who, t, tr, bound, rows, es, j - 1);
      var m := ChainPosition(s, who, t, tr, bound, rows, es, j - 1);
      assert tr.links[rows[j - 1]].sequence <= tr.links[rows[j]].sequence;
      assert rows[j - 1] != rows[j];
    }
  }

  /** If a chain exists, every sorted listing of the ticket's events is that chain. */
  lemma {:induction false} SortedRowsAreTheChain(s: Suite, who: Identity, t: Uuid, tr: Trail, bound: bool,
                                                 rows: seq<EventId>, es: seq<EventId>)
    requires Chained(s, who, t, tr, bound, es) && Lists(tr.events, t, rows)
    requires InSequence(tr, t, bound, rows)
    ensures rows == es
  {
    for i := 0 to |es|
      invariant i <= |rows| && forall k | 0 <= k < i :: rows[k] == es[k]
    {
      assert es[i] in es;
      assert es[i] in rows;
      var j :| 0 <= j < |rows| && rows[j] == es[i];
      SequenceAtLeast(s, who, t, tr, bound, rows, es, j);
      var k := ChainPosition(s, who, t, tr, bound, rows, es, j);
      assert j == i;
    }
    for m := 0 to |rows|
      invariant m <= |es|
    {
      var k := ChainPosition(s, who, t, tr, bound, rows, es, m);
      assert rows[k] == rows[m];
    }
  }

  // ---------------------------------------------------------------- the gate

  /** What is wrong with the first row that does not continue the chain. */
  predicate RowReason(s: Suite, who: Identity, t: Uuid, tr: Trail, rows: seq<EventId>, k: nat, reason: AlarmReason)
    requires k < |rows| && rows[k] in tr.events
  {
    if !Joined(tr, t, true, rows[k]) then reason == MissingIntegrityRow
    else
      var l := tr.links[rows[k]];
      match reason
      case UnsupportedVersion => l.version != CANONICAL_VERSION
      case SequenceGap => l.version == CANONICAL_VERSION && l.sequence != k + 1
      case BrokenChainLink =>
        l.version == CANONICAL_VERSION && l.sequence == k + 1 && l.previous != Predecessor(tr.links, rows, k)
      case EntryHashMismatch =>
        && l.version == CANONICAL_VERSION && l.sequence == k + 1 && l.previous == Predecessor(tr.links, rows, k)
        && l.entry != HashEntry(s, l.previous, EventOf(t, who, k, rows[k], tr.events[rows[k]]))
      case _ => false
  }

  /** What is wrong with the head of a chain of `count` events that ends in `last`. */
  predicate HeadReason(keys: Keys, t: Uuid, heads: map<Uuid, HeadRow>, count: nat, last: Digest, reason: AlarmReason) {
    if t !in heads then reason == MissingHead && count > 0
    else
      var h := heads[t];
      var placed := h.version == CANONICAL_VERSION && h.sequence == count && h.hash == last;
      match reason
      case HeadWithoutEvents => count == 0
      case UnsupportedVersion => count > 0 && h.version != CANONICAL_VERSION
      case HeadMismatch => count > 0 && h.version == CANONICAL_VERSION && !(h.sequence == count && h.hash == last)
      case MissingKeyring => count > 0 && placed && keys.keyring.None?
      case UnknownKey => count > 0 && placed && keys.keyring.Some? && h.kid !in keys.keyring.value
      case InvalidHeadSignature =>
        && count > 0 && placed && keys.keyring.Some? && h.kid in keys.keyring.value
        && !keys.VerifyHead(t, h.sequence, h.kid, h.hash, h.signature)
      case _ => false
  }

  /** Why the gate refuses a ticket: its first bad row, else an orphan link, else its head. */
  ghost predicate RefusedFor(keys: Keys, who: Identity, t: Uuid, tr: Trail, rows: seq<EventId>, reason: AlarmReason)
    requires forall id | id in rows :: id in tr.events
  {
    if !Linked(keys.suite, who, t, tr, true, rows, |rows|) then
      exists k :: 0 <= k < |rows| && Linked(keys.suite, who, t, tr, true, rows, k) && RowReason(keys.suite, who, t, tr, rows, k, reason)
    else if !NoOrphans(tr, t) then reason == OrphanIntegrityRow
    else HeadReason(keys, t, tr.heads, |rows|, Predecessor(tr.links, rows, |rows|), reason)
  }

  lemma RowReasonRefuses(s: Suite, who: Identity, t: Uuid, tr: Trail, rows: seq<EventId>, k: nat, reason: AlarmReason)
    requires k < |rows| && rows[k] in tr.events && RowReason(s, who, t, tr, rows, k, reason)
    ensures !LinkOk(s, who, t, tr, true, rows, k)
  {
    hide HashEntry;
  }

  /** A refused ticket has one reason. */
  lemma ReasonIsUnique(keys: Keys, who: Identity, t: Uuid, tr: Trail, rows: seq<EventId>, a: AlarmReason, b: AlarmReason)
    requires Lists(tr.events, t, rows) && RefusedFor(keys, who, t, tr, rows, a) && RefusedFor(keys, who, t, tr, rows, b)
    ensures a == b
  {
    hide LinkOk;
    if !Linked(keys.suite, who, t, tr, true, rows, |rows|) {
      hide HeadReason, RowReason;
      var j :| 0 <= j < |rows| && Linked(keys.suite, who, t, tr, true, rows, j) && RowReason(keys.suite, who, t, tr, rows, j, a);
      var k :| 0 <= k < |rows| && Linked(keys.suite, who, t, tr, true, rows, k) && RowReason(keys.suite, who, t, tr, rows, k, b);
      RowReasonRefuses(keys.suite, who, t, tr, rows, j, a);
      RowReasonRefuses(keys.suite, who, t, tr, rows, k, b);
      assert j == k;
      OneRowReason(keys.suite, who, t, tr, rows, k, a, b);
    }
  }

  lemma OneRowReason(s: Suite, who: Identity, t: Uuid, tr: Trail, rows: seq<EventId>, k: nat, a: AlarmReason, b: AlarmReason)
    requires k < |rows| && rows[k] in tr.events && RowReason(s, who, t, tr, rows, k, a) && RowReason(s, who, t, tr, rows, k, b)
    ensures a == b
  {
    hide HashEntry;
  }

  /** The row loop of the gate: the first row that does not continue the chain decides. */
  method WalkTicketChain(s: Suite, who: Identity, t: Uuid, tr: Trail, rows: seq<EventId>)
    returns (verdict: Option<AlarmReason>, last: Digest)
    requires Lists(tr.events, t, rows)
    ensures verdict.None? <==> Linked(s, who, t, tr, true, rows, |rows|)
    ensures verdict.None? ==> last == Predecessor(tr.links, rows, |rows|)
    ensures verdict.Some? ==>
              exists k :: 0 <= k < |rows| && Linked(s, who, t, tr, true, rows, k) && RowReason(s, who, t, tr, rows, k, verdict.value)
  {
    hide HashEntry;
    last := GENESIS;
    var count := 0;
    while count < |rows|
      invariant 0 <= count <= |rows|
      invariant Linked(s, who, t, tr, true, rows, count)
      invariant count > 0 ==> LinkOk(s, who, t, tr, true, rows, count - 1)
      invariant last == Predecessor(tr.links, rows, count)
    {
      var id := rows[count];
      assert id in rows;
      if !Joined(tr, t, true, id) {
        assert !LinkOk(s, who, t, tr, true, rows, count);
        return Some(MissingIntegrityRow), last;
      }
      var link := tr.links[id];
      if link.version != CANONICAL_VERSION {
        assert !LinkOk(s, who, t, tr, true, rows, count);
        return Some(UnsupportedVersion), last;
      }
      if link.sequence != count + 1 {
        assert !LinkOk(s, who, t, tr, true, rows, count);
        return Some(SequenceGap), last;
      }
      if link.previous != last {
        assert !LinkOk(s, who, t, tr, true, rows, count);
        return Some(BrokenChainLink), last;
      }
      var want := HashEntry(s, last, EventOf(t, who, count, id, tr.events[id]));
      if want != link.entry {
        assert !LinkOk(s, who, t, tr, true, rows, count);
        return Some(EntryHashMismatch), last;
      }
      assert LinkOk(s, who, t, tr, true, rows, count);
      last := want;
      count := count + 1;
    }
    verdict := None;
  }

  lemma RowHasReason(s: Suite, who: Identity, t: Uuid, tr: Trail, rows: seq<EventId>, k: nat)
    requires k < |rows| && rows[k] in tr.events && !LinkOk(s, who, t, tr, true, rows, k)
    requires k > 0 ==> LinkOk(s, who, t, tr, true, rows, k - 1)
    ensures exists reason :: RowReason(s, who, t, tr, rows, k, reason)
  {
    hide HashEntry;
    var reason := if !Joined(tr, t, true, rows[k]) then MissingIntegrityRow
                  else
                    var l := tr.links[rows[k]];
                    if l.version != CANONICAL_VERSION then UnsupportedVersion
                    else if l.sequence != k + 1 then SequenceGap
                    else if l.previous != Predecessor(tr.links, rows, k) then BrokenChainLink
                    else EntryHashMismatch;
    assert RowReason(s, who, t, tr, rows, k, reason);
  }

  lemma {:induction false} FirstBadRow(s: Suite, who: Identity, t: Uuid, tr: Trail, rows: seq<EventId>, n: nat)
    requires n <= |rows| && !Linked(s, who, t, tr, true, rows, n)
    ensures exists k :: 0 <= k < n && Linked(s, who, t, tr, true, rows, k) && !LinkOk(s, who, t, tr, true, rows, k)
  {
    hide LinkOk;
    if Linked(s, who, t, tr, true, rows, n - 1) {
      assert !LinkOk(s, who, t, tr, true, rows, n - 1);
    } else {
      FirstBadRow(s, who, t, tr, rows, n - 1);
    }
  }

  lemma HeadHasReason(keys: Keys, t: Uuid, heads: map<Uuid, HeadRow>, count: nat, last: Digest)
    ensures HeadMatches(keys, t, heads, count, last) <==> !exists reason :: HeadReason(keys, t, heads, count, last, reason)
  {
    if !HeadMatches(keys, t, heads, count, last) {
      var reason := if t !in heads then MissingHead
                    else if count == 0 then HeadWithoutEvents
                    else
                      var h := heads[t];
                      if h.version != CANONICAL_VERSION then UnsupportedVersion
                      else if h.sequence != count || h.hash != last then HeadMismatch
                      else if keys.keyring.None? then MissingKeyring
                      else if h.kid !in keys.keyring.value then UnknownKey
                      else InvalidHeadSignature;
      assert HeadReason(keys, t, heads, count, last, reason);
    }
  }

  /** The gate refuses a ticket exactly when there is a reason to. */
  lemma RefusedIffReason(keys: Keys, who: Identity, t: Uuid, tr: Trail, rows: seq<EventId>)
    requires Lists(tr.events, t, rows) && InSequence(tr, t, true, rows)
    ensures GateAccepts(keys, who, t, tr) <==> !exists reason :: RefusedFor(keys, who, t, tr, rows, reason)
  {
    hide LinkOk, HeadMatches, HeadReason, RowReason, GateAccepts;
    AcceptanceIsAboutTheRows(keys, who, t, tr, rows);
    HeadHasReason(keys, t, tr.heads, |rows|, Predecessor(tr.links, rows, |rows|));
    if !Linked(keys.suite, who, t, tr, true, rows, |rows|) {
      FirstBadRow(keys.suite, who, t, tr, rows, |rows|);
      var k :| 0 <= k < |rows| && Linked(keys.suite, who, t, tr, true, rows, k) && !LinkOk(keys.suite, who, t, tr, true, rows, k);
      assert rows[k] in rows;
      RowHasReason(keys.suite, who, t, tr, rows, k);
      var reason :| RowReason(keys.suite, who, t, tr, rows, k, reason);
      assert RefusedFor(keys, who, t, tr, rows, reason);
    } else if !NoOrphans(tr, t) {
      assert RefusedFor(keys, who, t, tr, rows, OrphanIntegrityRow);
    } else if exists reason :: HeadReason(keys, t, tr.heads, |rows|, Predecessor(tr.links, rows, |rows|), reason) {
      var reason :| HeadReason(keys, t, tr.heads, |rows|, Predecessor(tr.links, rows, |rows|), reason);
      assert RefusedFor(keys, who, t, tr, rows, reason);
    }
  }

  /** What the gate says about a ticket: nothing, or the one reason to refuse it. */
  ghost function GateVerdict(keys: Keys, who: Identity, t: Uuid, tr: Trail, rows: seq<EventId>): (verdict: Option<AlarmReason>)
    requires Lists(tr.events, t, rows) && InSequence(tr, t, true, rows)
    ensures verdict.None? <==> GateAccepts(keys, who, t, tr)
    ensures verdict.Some? ==> RefusedFor(keys, who, t, tr, rows, verdict.value)
  {
    RefusedIffReason(keys, who, t, tr, rows);
    if GateAccepts(keys, who, t, tr) then None
    else
      var reason :| RefusedFor(keys, who, t, tr, rows, reason);
      Some(reason)
  }

  /** The per-ticket verifier of the gate.  `rows` is the result of its ordered query. */
  method VerifyTicketChain(keys: Keys, who: Identity, t: Uuid, tr: Trail, rows: seq<EventId>)
    returns (verdict: Option<AlarmReason>)
    requires Lists(tr.events, t, rows) && InSequence(tr, t, true, rows)
    ensures verdict == GateVerdict(keys, who, t, tr, rows)
  {
    verdict := FirstRefusal(keys, who, t, tr, rows);
    hide RefusedFor, GateAccepts;
    if verdict.Some? {
      ReasonIsUnique(keys, who, t, tr, rows, verdict.value, GateVerdict(keys, who, t, tr, rows).value);
    }
  }

  /** Rows first, then orphan links, then the head. */
  method FirstRefusal(keys: Keys, who: Identity, t: Uuid, tr: Trail, rows: seq<EventId>)
    returns (verdict: Option<AlarmReason>)
    requires Lists(tr.events, t, rows) && InSequence(tr, t, true, rows)
    ensures verdict.None? <==> GateAccepts(keys, who, t, tr)
    ensures verdict.Some? ==> RefusedFor(keys, who, t, tr, rows, verdict.value)
  {
    hide RowReason, HeadReason, GateAccepts, HeadMatches, LinkOk;
    AcceptanceIsAboutTheRows(keys, who, t, tr, rows);
    var last;
    verdict, last := WalkTicketChain(keys.suite, who, t, tr, rows);
    if verdict.Some? {
      return;
    }
    if exists id | id in tr.links.Keys :: tr.links[id].ticket == t && Orphan(tr, id) {
      return Some(OrphanIntegrityRow);
    }
    verdict := CheckHead(keys, t, tr.heads, |rows|, last);
  }

  method CheckHead(keys: Keys, t: Uuid, heads: map<Uuid, HeadRow>, count: nat, last: Digest)
    returns (verdict: Option<AlarmReason>)
    ensures verdict.None? <==> HeadMatches(keys, t, heads, count, last)
    ensures verdict.Some? ==> HeadReason(keys, t, heads, count, last, verdict.value)
  {
    if t !in heads {
      return if count == 0 then None else Some(MissingHead);
    }
    if count == 0 {
      return Some(HeadWithoutEvents);
    }
    var head := heads[t];
    if head.version != CANONICAL_VERSION {
      return Some(UnsupportedVersion);
    }
    if head.sequence != count || head.hash != last {
      return Some(HeadMismatch);
    }
    if keys.keyring.None? {
      return Some(MissingKeyring);
    }
    if !keys.VerifyHead(t, head.sequence, head.kid, head.hash, head.signature) {
      return Some(if head.kid in keys.keyring.value then InvalidHeadSignature else UnknownKey);
    }
    verdict := None;
  }

  lemma AcceptanceIsAboutTheRows(keys: Keys, who: Identity, t: Uuid, tr: Trail, rows: seq<EventId>)
    requires Lists(tr.events, t, rows) && InSequence(tr, t, true, rows)
    ensures GateAccepts(keys, who, t, tr) <==>
            && Linked(keys.suite, who, t, tr, true, rows, |rows|)
            && NoOrphans(tr, t)
            && HeadMatches(keys, t, tr.heads, |rows|, Predecessor(tr.links, rows, |rows|))
  {
    if GateAccepts(keys, who, t, tr) {
      var es :| Verifies(keys, who, t, tr, es);
      SortedRowsAreTheChain(keys.suite, who, t, tr, true, rows, es);
    }
    if Linked(keys.suite, who, t, tr, true, rows, |rows|) && HeadMatches(keys, t, tr.heads, |rows|, Predecessor(tr.links, rows, |rows|)) && NoOrphans(tr, t) {
      assert Verifies(keys, who, t, tr, rows);
    }
  }

  // ---------------------------------------------------------------- what a head binds

  function MessageAt(s: Suite, who: Identity, t: Uuid, tr: Trail, es: seq<EventId>, k: nat): string
    requires k < |es| && es[k] in tr.events
  {
    EntryMessage(s, Predecessor(tr.links, es, k), EventOf(t, who, k, es[k], tr.events[es[k]]))
  }

  /** Every message hashed along a chain. */
  ghost function ChainMessages(s: Suite, who: Identity, t: Uuid, tr: Trail, es: seq<EventId>): set<string>
    requires forall id | id in es :: id in tr.events
  {
    set k | 0 <= k < |es| :: MessageAt(s, who, t, tr, es, k)
  }

  lemma {:induction false} ChainHashBinds(
    s: Suite, t: Uuid, a: Identity, tr: Trail, es: seq<EventId>,
    b: Identity, tr': Trail, es': seq<EventId>, n: nat)
    requires s.WellFormed() && Chained(s, a, t, tr, true, es) && Chained(s, b, t, tr', true, es')
    requires s.CollisionFree(ChainMessages(s, a, t, tr, es) + ChainMessages(s, b, t, tr', es'))
    requires n <= |es| && n <= |es'| && Predecessor(tr.links, es, n) == Predecessor(tr'.links, es', n)
    ensures n > 0 ==> a == b
    ensures forall k | 0 <= k < n :: es[k] == es'[k] && es[k] in tr.events && es[k] in tr'.events
                                     && tr.events[es[k]] == tr'.events[es[k]]
  {
    hide CanonicalEvent, Suite.WellFormed;
    if n > 0 {
      var k := n - 1;
      assert LinkOk(s, a, t, tr, true, es, k) && LinkOk(s, b, t, tr', true, es', k);
      var m, m' := MessageAt(s, a, t, tr, es, k), MessageAt(s, b, t, tr', es', k);
      assert m in ChainMessages(s, a, t, tr, es) && m' in ChainMessages(s, b, t, tr', es');
      assert s.sha(m) == s.sha(m');
      EntryMessageInjective(s, Predecessor(tr.links, es, k), EventOf(t, a, k, es[k], tr.events[es[k]]),
                            Predecessor(tr'.links, es', k), EventOf(t, b, k, es'[k], tr'.events[es'[k]]));
      assert es[k] in es && es'[k] in es';
      ChainHashBinds(s, t, a, tr, es, b, tr', es', k);
    }
  }

  /** A head binds the whole history: two stores that both pass the gate for a ticket and
      hold a head of the same sequence and hash hold the same identity and the same events
      in the same order, unless two of the messages hashed along the two chains collide. */
  lemma HeadBindsHistory(
    keys: Keys, t: Uuid, a: Identity, tr: Trail, es: seq<EventId>, b: Identity, tr': Trail, es': seq<EventId>)
    requires keys.suite.WellFormed()
    requires Verifies(keys, a, t, tr, es) && Verifies(keys, b, t, tr', es')
    requires keys.suite.CollisionFree(ChainMessages(keys.suite, a, t, tr, es) + ChainMessages(keys.suite, b, t, tr', es'))
    requires t in tr.heads && t in tr'.heads
    requires tr.heads[t].sequence == tr'.heads[t].sequence && tr.heads[t].hash == tr'.heads[t].hash
    ensures a == b && es == es'
    ensures forall id | id in es :: tr.events[id] == tr'.events[id]
  {
    hide Suite.WellFormed, Suite.CollisionFree, Keys.VerifyHead, LinkOk, NoOrphans, ChainMessages;
    ChainHashBinds(keys.suite, t, a, tr, es, b, tr', es', |es|);
  }
}
