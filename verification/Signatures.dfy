/**
 What acceptance says about signatures, in terms of the primitive that checks one.

 A signer signs the heads of chains it appends to.  `log` holds what it signed: for every
 signed head, the trail and the history the head stood for.
 */
module Signatures {
  import opened Basics
  import opened Canonical
  import opened Trail
  import opened Store
  import opened Verifier
  import Merkle
  import A = Appending
  import C = Checkpoints

  /** A head signature that holds under a configured key. */
  ghost predicate SignedHead(keys: Keys, t: Uuid, sequence: nat, kid: string, hash: Digest, signature: string) {
    && keys.keyring.Some? && kid in keys.keyring.value
    && keys.suite.verify(kid, CanonicalHead(keys.suite, t, sequence, kid, hash), signature)
  }

  /** The head of a ticket signs this history. */
  ghost predicate HeadSigns(keys: Keys, t: Uuid, tr: Trail, es: seq<EventId>) {
    && t in tr.heads && tr.heads[t].sequence == |es| && tr.heads[t].hash == Predecessor(tr.links, es, |es|)
    && SignedHead(keys, t, |es|, tr.heads[t].kid, Predecessor(tr.links, es, |es|), tr.heads[t].signature)
  }

  /** What the gate accepts of a ticket with events is signed: its head carries a signature
      over the number and the last hash of its events that holds under a configured key. */
  lemma AcceptedIsSigned(keys: Keys, who: Identity, t: Uuid, tr: Trail, id: EventId)
    requires GateAccepts(keys, who, t, tr) && id in tr.events && tr.events[id].ticket == t
    ensures exists es :: Chained(keys.suite, who, t, tr, true, es) && es != [] && HeadSigns(keys, t, tr, es)
  {
    hide LinkOk, CanonicalHead;
    var es :| Verifies(keys, who, t, tr, es);
    assert id in es;
    assert HeadSigns(keys, t, tr, es);
  }

  /** The audit says the same of every ticket. */
  lemma AuditedIsSigned(keys: Keys, tickets: Tickets, tr: Trail, id: EventId)
    requires KeysIntact(tickets, tr) && AuditAccepts(keys, tickets, tr) && id in tr.events
    ensures var t := tr.events[id].ticket;
            t in tickets && exists es :: Chained(keys.suite, tickets[t], t, tr, true, es) && es != [] && HeadSigns(keys, t, tr, es)
  {
    hide Chained, HeadSigns, AuditAccepts, GateAccepts;
    GateAndAuditAgree(keys, tickets, tr);
    AcceptedIsSigned(keys, tickets[tr.events[id].ticket], tr.events[id].ticket, tr, id);
  }

  // ---------------------------------------------------------------- row by row

  /** What the tables hold of a ticket whose history is `es`, row by row: every event of the
      ticket has its link, and nothing else has one; link by link the version, the place, the
      hash of the link before and the hash of the event under it; and a signed head over the
      last of them, or none without events. */
  ghost predicate Intact(keys: Keys, who: Identity, t: Uuid, tr: Trail, es: seq<EventId>) {
    && (forall i, j | 0 <= i < j < |es| :: es[i] != es[j])
    && (forall id :: id in es <==> id in tr.events && tr.events[id].ticket == t)
    && (forall id :: id in es <==> id in tr.links && tr.links[id].ticket == t)
    && (forall k | 0 <= k < |es| :: IntactLink(keys.suite, who, t, tr, es, k))
    && if es == [] then t !in tr.heads
       else t in tr.heads && IntactHead(keys, t, tr, tr.heads[t], es)
  }

  predicate IntactLink(s: Suite, who: Identity, t: Uuid, tr: Trail, es: seq<EventId>, k: nat)
    requires k < |es|
  {
    && es[k] in tr.events && es[k] in tr.links && (k > 0 ==> es[k - 1] in tr.links)
    && var l, e := tr.links[es[k]], tr.events[es[k]];
    && l.version == 1 && l.sequence == k + 1
    && l.previous == (if k == 0 then GENESIS else tr.links[es[k - 1]].entry)
    && l.entry == s.sha(EntryMessage(s, l.previous, Event(t, who, k + 1, es[k], e.kind, e.at)))
  }

  ghost predicate IntactHead(keys: Keys, t: Uuid, tr: Trail, h: HeadRow, es: seq<EventId>)
    requires es != []
  {
    && es[|es| - 1] in tr.links
    && h.version == 1 && h.sequence == |es| && h.hash == tr.links[es[|es| - 1]].entry
    && SignedHead(keys, t, |es|, h.kid, h.hash, h.signature)
  }

  /** The gate accepts a ticket if and only if its rows are intact. */
  lemma AcceptedIffIntact(keys: Keys, who: Identity, t: Uuid, tr: Trail)
    ensures GateAccepts(keys, who, t, tr) <==> exists es :: Intact(keys, who, t, tr, es)
  {
    hide Intact, Verifies;
    forall es
      ensures Verifies(keys, who, t, tr, es) <==> Intact(keys, who, t, tr, es)
    {
      VerifiesIffIntact(keys, who, t, tr, es);
    }
    if exists es :: Intact(keys, who, t, tr, es) {
      var es :| Intact(keys, who, t, tr, es);
      assert Verifies(keys, who, t, tr, es);
    }
    if GateAccepts(keys, who, t, tr) {
      var es :| Verifies(keys, who, t, tr, es);
      assert Intact(keys, who, t, tr, es);
    }
  }

  lemma LinkIffIntact(s: Suite, who: Identity, t: Uuid, tr: Trail, es: seq<EventId>, k: nat)
    requires k < |es|
    ensures LinkOk(s, who, t, tr, true, es, k)
            <==> IntactLink(s, who, t, tr, es, k) && es[k] in tr.links && tr.links[es[k]].ticket == t
  {
    hide EntryMessage;
  }

  lemma HeadIffIntact(keys: Keys, t: Uuid, tr: Trail, es: seq<EventId>)
    requires es != [] ==> es[|es| - 1] in tr.links
    ensures HeadMatches(keys, t, tr.heads, |es|, Predecessor(tr.links, es, |es|))
            <==> if es == [] then t !in tr.heads else t in tr.heads && IntactHead(keys, t, tr, tr.heads[t], es)
  {
    hide CanonicalHead;
  }

  lemma VerifiesIffIntact(keys: Keys, who: Identity, t: Uuid, tr: Trail, es: seq<EventId>)
    ensures Verifies(keys, who, t, tr, es) <==> Intact(keys, who, t, tr, es)
  {
    hide LinkOk, IntactLink, HeadMatches, IntactHead, Predecessor, NoOrphans;
    if Intact(keys, who, t, tr, es) {
      assert forall k | 0 <= k < |es| :: es[k] in es;
      forall k | 0 <= k < |es| ensures LinkOk(keys.suite, who, t, tr, true, es, k) {
        LinkIffIntact(keys.suite, who, t, tr, es, k);
      }
      OwnLinksOnly(t, tr, es);
      HeadIffIntact(keys, t, tr, es);
    }
    if Verifies(keys, who, t, tr, es) {
      forall k | 0 <= k < |es| ensures IntactLink(keys.suite, who, t, tr, es, k) && es[k] in tr.links && tr.links[es[k]].ticket == t {
        LinkIffIntact(keys.suite, who, t, tr, es, k);
      }
      OwnLinksOnly(t, tr, es);
      HeadIffIntact(keys, t, tr, es);
    }
  }

  lemma OwnLinksOnly(t: Uuid, tr: Trail, es: seq<EventId>)
    requires Lists(tr.events, t, es) && forall k | 0 <= k < |es| :: es[k] in tr.links && tr.links[es[k]].ticket == t
    ensures NoOrphans(tr, t) <==> forall id :: id in es <==> id in tr.links && tr.links[id].ticket == t
  {
  }

  /** The audit is clean of a store's tickets if and only if the rows of all are intact. */
  lemma AuditedIffIntact(keys: Keys, tickets: Tickets, tr: Trail)
    requires KeysIntact(tickets, tr)
    ensures AuditAccepts(keys, tickets, tr) <==> forall t | t in tickets :: exists es :: Intact(keys, tickets[t], t, tr, es)
  {
    hide Intact, GateAccepts, AuditAccepts;
    GateAndAuditAgree(keys, tickets, tr);
    forall t | t in tickets
      ensures GateAccepts(keys, tickets[t], t, tr) <==> exists es :: Intact(keys, tickets[t], t, tr, es)
    {
      AcceptedIffIntact(keys, tickets[t], t, tr);
    }
  }

  // ---------------------------------------------------------------- what was really signed

  /** A history its signer signed the head of. */
  datatype Signing = Signing(kid: string, ticket: Uuid, who: Identity, trail: Trail, history: seq<EventId>)
  {
    function Hash(): Digest {
      Predecessor(trail.links, history, |history|)
    }

    function Message(s: Suite): string {
      CanonicalHead(s, ticket, |history|, kid, Hash())
    }
  }

  /** The log holds histories that are chains. */
  ghost predicate Real(s: Suite, log: set<Signing>) {
    forall g | g in log :: Chained(s, g.who, g.ticket, g.trail, true, g.history)
  }

  /** None of the signatures that are presented is forged: whatever head one of them holds
      for was signed, and is in the log.  Signing is a function of the key and the message, so
      this is asked of presented signatures only. */
  ghost predicate Unforged(keys: Keys, log: set<Signing>, presented: set<string>) {
    forall t, n, kid, h, signature | signature in presented && SignedHead(keys, t, n, kid, h, signature) ::
      exists g | g in log :: g.Message(keys.suite) == CanonicalHead(keys.suite, t, n, kid, h)
  }

  /** The chains compared hash no two messages that collide. */
  ghost predicate Apart(s: Suite, who: Identity, t: Uuid, tr: Trail, es: seq<EventId>, log: set<Signing>)
    requires Lists(tr.events, t, es) && Real(s, log)
  {
    forall g | g in log ::
      s.CollisionFree(ChainMessages(s, who, t, tr, es) + ChainMessages(s, g.who, g.ticket, g.trail, g.history))
  }

  ghost predicate SameHistory(g: Signing, who: Identity, t: Uuid, tr: Trail, es: seq<EventId>) {
    && g.ticket == t && g.who == who && g.history == es
    && forall id | id in es :: id in tr.events && id in g.trail.events && tr.events[id] == g.trail.events[id]
  }

  /** An accepted history is a signed one: unless the signature of its head is forged, a ticket with events
      that the gate accepts has exactly the identity and the events, in order, of a history
      whose head the signer signed for that ticket. */
  lemma AcceptedWasSigned(keys: Keys, who: Identity, t: Uuid, tr: Trail, es: seq<EventId>, log: set<Signing>)
    requires keys.suite.WellFormed() && Verifies(keys, who, t, tr, es) && es != []
    requires Real(keys.suite, log) && Apart(keys.suite, who, t, tr, es, log)
    requires t in tr.heads ==> Unforged(keys, log, {tr.heads[t].signature})
    ensures exists g | g in log :: SameHistory(g, who, t, tr, es)
  {
    hide Chained, LinkOk, CanonicalHead, ChainMessages, Suite.WellFormed, SameHistory;
    var h := tr.heads[t];
    assert SignedHead(keys, t, |es|, h.kid, h.hash, h.signature);
    var g :| g in log && g.Message(keys.suite) == CanonicalHead(keys.suite, t, |es|, h.kid, h.hash);
    CanonicalHeadInjective(keys.suite, g.ticket, |g.history|, g.kid, g.Hash(), t, |es|, h.kid, h.hash);
    SameHashSameHistory(keys.suite, who, t, tr, es, g);
  }

  lemma SameHashSameHistory(s: Suite, who: Identity, t: Uuid, tr: Trail, es: seq<EventId>, g: Signing)
    requires s.WellFormed() && es != [] && g.ticket == t && |g.history| == |es| && g.Hash() == Predecessor(tr.links, es, |es|)
    requires Chained(s, who, t, tr, true, es) && Chained(s, g.who, t, g.trail, true, g.history)
    requires s.CollisionFree(ChainMessages(s, who, t, tr, es) + ChainMessages(s, g.who, t, g.trail, g.history))
    ensures SameHistory(g, who, t, tr, es)
  {
    hide Chained, ChainMessages, Suite.WellFormed, Suite.CollisionFree;
    ChainHashBinds(s, t, who, tr, es, g.who, g.trail, g.history, |es|);
    assert g.history == es;
  }

  /** So does the audit, ticket by ticket. */
  lemma AuditedWasSigned(keys: Keys, tickets: Tickets, tr: Trail, log: set<Signing>, t: Uuid)
    requires keys.suite.WellFormed() && KeysIntact(tickets, tr) && AuditAccepts(keys, tickets, tr)
    requires t in tickets && exists id | id in tr.events :: tr.events[id].ticket == t
    requires Real(keys.suite, log) && (t in tr.heads ==> Unforged(keys, log, {tr.heads[t].signature}))
    requires forall es | Lists(tr.events, t, es) :: Apart(keys.suite, tickets[t], t, tr, es, log)
    ensures exists g, es :: g in log && Lists(tr.events, t, es) && SameHistory(g, tickets[t], t, tr, es)
  {
    hide AuditAccepts, Real, Unforged, Apart, SameHistory, Suite.WellFormed, KeysIntact, Linked, NoOrphans, HeadMatches;
    GateAndAuditAgree(keys, tickets, tr);
    assert GateAccepts(keys, tickets[t], t, tr);
    var es :| Verifies(keys, tickets[t], t, tr, es);
    var id :| id in tr.events && tr.events[id].ticket == t;
    assert id in es;
    AcceptedWasSigned(keys, tickets[t], t, tr, es, log);
  }

  /** What an append writes, row by row: the event, its link at the next place of the ticket's
      chain, the head over it, and that head once more, queued for the next checkpoint. */
  lemma AppendWrites(s: Suite, kid: string, tr: Trail, x: A.Input)
    requires A.Append(s, kid, tr, x).Ok?
    ensures var next := A.Append(s, kid, tr, x).value;
            var n := if x.ticket in tr.heads then tr.heads[x.ticket].sequence + 1 else 1;
            var previous := if x.ticket in tr.heads then tr.heads[x.ticket].hash else GENESIS;
            var entry := s.sha(EntryMessage(s, previous, Event(x.ticket, x.who, n, x.id, x.kind, x.at)));
            var signature := s.sign(kid, CanonicalHead(s, x.ticket, n, kid, entry));
            var organizer := if x.ticket in tr.heads then tr.heads[x.ticket].organizer else x.who.organizer;
            && next.events == tr.events[x.id := EventRow(x.ticket, x.kind, x.at)]
            && next.links == tr.links[x.id := LinkRow(x.ticket, n, 1, previous, entry)]
            && next.heads == tr.heads[x.ticket := HeadRow(organizer, n, 1, entry, kid, signature)]
            && next.changes == tr.changes + [ChangeRow(x.ticket, x.who.organizer, n, entry, 1, kid, signature, None)]
  {
    hide CanonicalHead, EntryMessage;
  }

  /** What an append signs is a real history: the chain so far and the new event. */
  lemma AppendSignsHistory(keys: Keys, kid: string, who: Identity, tr: Trail, x: A.Input, es: seq<EventId>)
    requires A.CanSign(keys, kid) && x.who == who && Verifies(keys, who, x.ticket, tr, es)
    requires x.id !in tr.events && x.id !in tr.links
    ensures var after := A.Appended(keys.suite, kid, tr, x);
            var g := Signing(kid, x.ticket, who, after, es + [x.id]);
            && Real(keys.suite, {g}) && x.ticket in after.heads
            && after.heads[x.ticket].kid == kid && after.heads[x.ticket].signature == keys.suite.sign(kid, g.Message(keys.suite))
  {
    hide LinkOk, CanonicalHead, NoOrphans, A.NewLink;
    A.AppendExtendsChain(keys, kid, who, tr, x, es);
  }

  // ---------------------------------------------------------------- seals and checkpoints

  /** Every seal the epoch pass accepts is a head signature under the key it is kept for. */
  lemma SealIsSigned(keys: Keys, epochs: C.Epochs, key: (Uuid, string))
    requires C.EpochsOk(keys, epochs) && key in epochs
    ensures SignedHead(keys, key.0, epochs[key].sequence, key.1, epochs[key].hash, epochs[key].signature)
  {
    hide CanonicalHead;
    assert C.EpochOk(keys, key, epochs[key]);
  }

  /** The epoch pass accepts the seals if and only if each is such a signature, of this version. */
  lemma SealsAreSignedIff(keys: Keys, epochs: C.Epochs)
    ensures C.EpochsOk(keys, epochs) <==>
              forall key | key in epochs ::
                epochs[key].version == 1 && SignedHead(keys, key.0, epochs[key].sequence, key.1, epochs[key].hash, epochs[key].signature)
  {
    hide CanonicalHead;
    forall key | key in epochs
      ensures C.EpochOk(keys, key, epochs[key])
              <==> epochs[key].version == 1
                   && SignedHead(keys, key.0, epochs[key].sequence, key.1, epochs[key].hash, epochs[key].signature)
    {
    }
  }

  /** Sealing keeps every seal there is, and adds each head under the key that signed it. */
  lemma SealIs(heads: map<Uuid, HeadRow>, epochs: C.Epochs)
    ensures var sealed := C.Seal(heads, epochs);
            && (forall key :: key in sealed <==> key in epochs || (key.0 in heads && key.1 == heads[key.0].kid))
            && (forall key | key in epochs :: sealed[key] == epochs[key])
            && (forall t | t in heads && (t, heads[t].kid) !in epochs ::
                  sealed[(t, heads[t].kid)] == C.EpochRow(heads[t].sequence, heads[t].version, heads[t].hash, heads[t].signature))
  {
  }

  ghost predicate SignedCheckpoint(keys: Keys, c: Checkpoint, signature: string) {
    && keys.keyring.Some? && c.kid in keys.keyring.value
    && keys.suite.verify(c.kid, CanonicalCheckpoint(keys.suite, c), signature)
  }

  /** The change is the last of its ticket that this checkpoint took. */
  ghost predicate TakenLast(tickets: Tickets, changes: seq<ChangeRow>, i: nat, k: nat)
    requires k < |changes|
  {
    && changes[k].ticket in tickets && changes[k].checkpoint == Some(i)
    && forall j | k < j < |changes| && changes[j].ticket == changes[k].ticket :: changes[j].checkpoint != Some(i)
  }

  /** A leaf of this checkpoint. */
  ghost predicate LeafAt(tickets: Tickets, changes: seq<ChangeRow>, i: nat, l: Leaf) {
    exists k | 0 <= k < |changes| :: TakenLast(tickets, changes, i, k) && l == Leaf(changes[k].ticket, changes[k].sequence, changes[k].hash)
  }

  /** What an accepted checkpoint is: signed under a configured key, with as many leaves as it
      says and their Merkle root; its leaves are the last changes it took of each ticket, of
      tickets of its organizer, each signed; and it is the first of its chain or continues the
      row before it. */
  lemma CheckpointIsSigned(keys: Keys, tickets: Tickets, changes: seq<ChangeRow>, rows: seq<C.CheckpointRow>, i: nat)
    requires C.ChainsOk(keys, tickets, changes, rows) && i < |rows|
    ensures var c := rows[i].checkpoint;
            && rows[i].version == 1 && SignedCheckpoint(keys, c, rows[i].signature)
            && (exists leaves :: Merkle.DistinctTickets(leaves) && |leaves| == c.leafCount > 0
                  && c.root == Merkle.Root(keys.suite, leaves) && forall l :: l in leaves <==> LeafAt(tickets, changes, i, l))
            && (forall k | 0 <= k < |changes| && TakenLast(tickets, changes, i, k) ::
                  changes[k].version == 1 && tickets[changes[k].ticket].organizer == c.organizer
                  && SignedHead(keys, changes[k].ticket, changes[k].sequence, changes[k].kid, changes[k].hash, changes[k].signature))
            && (if c.sequence == 1 then c.previousRoot == GENESIS
                else c.sequence > 1 && exists j | 0 <= j < |rows| ::
                       rows[j].checkpoint.organizer == c.organizer && rows[j].checkpoint.sequence == c.sequence - 1
                       && rows[j].checkpoint.root == c.previousRoot)
  {
    hide CanonicalHead, CanonicalCheckpoint, Merkle.Root, C.LatestOf, C.LeavesOf;
    assert C.RowAccepted(keys, tickets, changes, rows, i);
    var latest := C.LatestOf(tickets, changes, C.TakenBy(i));
    C.LatestIsKeyed(tickets, changes, C.TakenBy(i));
    C.LeavesAreAccepted(latest);
    var leaves := C.LeavesOf(latest);
    forall l: Leaf
      ensures l in leaves <==> LeafAt(tickets, changes, i, l)
    {
      C.LatestIsLast(tickets, changes, C.TakenBy(i), l.ticket);
      LeafIsTaken(tickets, changes, i, l);
    }
    forall k | 0 <= k < |changes| && TakenLast(tickets, changes, i, k)
      ensures changes[k].version == 1 && tickets[changes[k].ticket].organizer == rows[i].checkpoint.organizer
      ensures SignedHead(keys, changes[k].ticket, changes[k].sequence, changes[k].kid, changes[k].hash, changes[k].signature)
    {
      TakenIsLatest(tickets, changes, i, k);
    }
  }

  lemma TakenIsLatest(tickets: Tickets, changes: seq<ChangeRow>, i: nat, k: nat)
    requires k < |changes| && TakenLast(tickets, changes, i, k)
    ensures var latest := C.LatestOf(tickets, changes, C.TakenBy(i));
            changes[k].ticket in latest && latest[changes[k].ticket] == C.Snapshot(changes[k])
  {
    hide C.LatestOf;
    var t := changes[k].ticket;
    var latest := C.LatestOf(tickets, changes, C.TakenBy(i));
    C.LatestIsLast(tickets, changes, C.TakenBy(i), t);
    assert C.TakenBy(i).Picks(tickets, changes[k]);
    var m :| 0 <= m < |changes| && changes[m].ticket == t && C.TakenBy(i).Picks(tickets, changes[m])
             && latest[t] == C.Snapshot(changes[m])
             && forall j | m < j < |changes| :: !(changes[j].ticket == t && C.TakenBy(i).Picks(tickets, changes[j]));
    assert m == k;
  }

  lemma LeafIsTaken(tickets: Tickets, changes: seq<ChangeRow>, i: nat, l: Leaf)
    ensures var latest := C.LatestOf(tickets, changes, C.TakenBy(i));
            l.ticket in latest && l == C.LeafOf(latest[l.ticket]) <==> LeafAt(tickets, changes, i, l)
  {
    hide C.LatestOf;
    var latest := C.LatestOf(tickets, changes, C.TakenBy(i));
    C.LatestIsLast(tickets, changes, C.TakenBy(i), l.ticket);
    if l.ticket in latest && l == C.LeafOf(latest[l.ticket]) {
      var k :| 0 <= k < |changes| && changes[k].ticket == l.ticket && C.TakenBy(i).Picks(tickets, changes[k])
               && latest[l.ticket] == C.Snapshot(changes[k])
               && forall j | k < j < |changes| :: !(changes[j].ticket == l.ticket && C.TakenBy(i).Picks(tickets, changes[j]));
      assert TakenLast(tickets, changes, i, k);
    }
    if LeafAt(tickets, changes, i, l) {
      var k :| 0 <= k < |changes| && TakenLast(tickets, changes, i, k) && l == Leaf(changes[k].ticket, changes[k].sequence, changes[k].hash);
      TakenIsLatest(tickets, changes, i, k);
    }
  }

  /** The worker signs over nothing unsigned: what a committed checkpoint took is signed, of
      tickets of its organizer. */
  lemma WorkerAuthenticates(keys: Keys, signer: Option<string>, tickets: Tickets, changes: seq<ChangeRow>,
                            rows: seq<C.CheckpointRow>, organizer: Uuid, observed: C.Position, now: Time, k: nat)
    requires var r := C.CheckpointOrganizer(keys, signer, tickets, changes, rows, organizer, observed, now);
             r.Ok? && r.value.position.Some?
    requires k < |changes| && changes[k].ticket in tickets && changes[k].organizer == organizer && changes[k].checkpoint.None?
    ensures tickets[changes[k].ticket].organizer == organizer
    ensures SignedHead(keys, changes[k].ticket, changes[k].sequence, changes[k].kid, changes[k].hash, changes[k].signature)
  {
    hide CanonicalHead, C.LatestOf, C.Selected, C.FirstFlaw, C.NewCheckpoint, C.Assign, C.LastOf;
    var ids := C.Selected(tickets, changes, C.PendingOf(organizer));
    C.NoFlawMeansAuthentic(keys, tickets, organizer, changes, ids);
    assert k in ids;
    var i :| 0 <= i < |ids| && ids[i] == k;
    assert C.Authentic(keys, tickets, organizer, changes[ids[i]]);
  }

  /** A clean audit, in one place: every event is under a signed head, every seal and every
      checkpoint is signed. */
  lemma CleanIsSigned(keys: Keys, db: Db, id: EventId, key: (Uuid, string), i: nat)
    requires KeysIntact(db.tickets, db.trail) && AuditClean(keys, db)
    ensures id in db.trail.events ==>
              var t := db.trail.events[id].ticket;
              t in db.tickets && exists es :: id in es && HeadSigns(keys, t, db.trail, es)
    ensures key in db.epochs ==>
              SignedHead(keys, key.0, db.epochs[key].sequence, key.1, db.epochs[key].hash, db.epochs[key].signature)
    ensures i < |db.checkpoints| ==> SignedCheckpoint(keys, db.checkpoints[i].checkpoint, db.checkpoints[i].signature)
  {
    hide HeadSigns, SignedHead, SignedCheckpoint, AuditAccepts, C.EpochsOk, C.ChainsOk, Linked;
    if id in db.trail.events {
      AuditedIsSigned(keys, db.tickets, db.trail, id);
      var t := db.trail.events[id].ticket;
      var es :| Chained(keys.suite, db.tickets[t], t, db.trail, true, es) && es != [] && HeadSigns(keys, t, db.trail, es);
      assert id in es;
    }
    if key in db.epochs {
      SealIsSigned(keys, db.epochs, key);
    }
    if i < |db.checkpoints| {
      CheckpointIsSigned(keys, db.tickets, db.trail.changes, db.checkpoints, i);
    }
  }
}
