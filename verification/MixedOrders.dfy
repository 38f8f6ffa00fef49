/**
 Why an order must be for one slot.  Refunds and exchanges sign every void with the identity
 of the first ticket of the order; here is exactly when the chains survive that.
 */
module MixedOrders {
  import opened Basics
  import opened Canonical
  import opened Trail
  import opened Store
  import A = Appending
  import B = Backfill

  /** The message hashed for an append under a claimed identity. */
  function Message(s: Suite, tr: Trail, x: A.Input, who: Identity): string {
    EntryMessage(s, A.HeadHash(tr, x.ticket),
                 EventOf(x.ticket, who, A.HeadSequence(tr, x.ticket), x.id, EventRow(x.ticket, x.kind, x.at)))
  }

  /** Appending under an identity that is not the ticket's own makes the gate refuse the
      ticket, unless the two identities' messages collide. */
  lemma AppendNeedsIdentity(keys: Keys, kid: string, who: Identity, tr: Trail, x: A.Input)
    requires A.CanSign(keys, kid) && GateAccepts(keys, who, x.ticket, tr)
    requires x.id !in tr.events && x.id !in tr.links
    requires keys.suite.CollisionFree({Message(keys.suite, tr, x, x.who), Message(keys.suite, tr, x, who)})
    ensures GateAccepts(keys, who, x.ticket, A.Appended(keys.suite, kid, tr, x)) <==> x.who == who
  {
    hide Suite.WellFormed, CanonicalEvent, CanonicalHead, Verifies;
    var t, tr' := x.ticket, A.Appended(keys.suite, kid, tr, x);
    var es :| Verifies(keys, who, t, tr, es);
    if x.who == who {
      A.AppendExtendsChain(keys, kid, who, tr, x, es);
    }
    if GateAccepts(keys, who, t, tr') {
      var es' :| Verifies(keys, who, t, tr', es');
      NewLinkIsChecked(keys, kid, who, tr, x, es');
      EntryMessageInjective(keys.suite,
        A.HeadHash(tr, t), EventOf(t, x.who, A.HeadSequence(tr, t), x.id, EventRow(t, x.kind, x.at)),
        A.HeadHash(tr, t), EventOf(t, who, A.HeadSequence(tr, t), x.id, EventRow(t, x.kind, x.at)));
    }
  }

  /** The verifier recomputes the appended link with the ticket's own identity. */
  lemma NewLinkIsChecked(keys: Keys, kid: string, who: Identity, tr: Trail, x: A.Input, es': seq<EventId>)
    requires Verifies(keys, who, x.ticket, A.Appended(keys.suite, kid, tr, x), es')
    ensures keys.suite.sha(Message(keys.suite, tr, x, x.who)) == keys.suite.sha(Message(keys.suite, tr, x, who))
  {
    hide CanonicalEvent, CanonicalHead, Keys.VerifyHead;
    var tr' := A.Appended(keys.suite, kid, tr, x);
    assert x.id in es';
    var k :| 0 <= k < |es'| && es'[k] == x.id;
    assert LinkOk(keys.suite, who, x.ticket, tr', true, es', k);
  }

  /** An append never changes the verdict on another ticket. */
  lemma OtherVerdictStays(keys: Keys, kid: string, who: Identity, t: Uuid, tr: Trail, x: A.Input)
    requires t != x.ticket && x.id !in tr.events && x.id !in tr.links
    ensures GateAccepts(keys, who, t, A.Appended(keys.suite, kid, tr, x)) <==> GateAccepts(keys, who, t, tr)
  {
    hide Verifies;
    var tr' := A.Appended(keys.suite, kid, tr, x);
    if GateAccepts(keys, who, t, tr) {
      var es :| Verifies(keys, who, t, tr, es);
      A.AppendLeavesChain(keys, kid, who, t, tr, x, es);
    }
    if GateAccepts(keys, who, t, tr') {
      var es :| Verifies(keys, who, t, tr', es);
      AppendLeftChain(keys, kid, who, t, tr, x, es);
    }
  }

  lemma AppendLeftChain(keys: Keys, kid: string, who: Identity, t: Uuid, tr: Trail, x: A.Input, es: seq<EventId>)
    requires t != x.ticket && x.id !in tr.events && x.id !in tr.links
    requires Verifies(keys, who, t, A.Appended(keys.suite, kid, tr, x), es)
    ensures Verifies(keys, who, t, tr, es)
  {
    hide HashEntry, LinkOk, CanonicalHead, Keys.VerifyHead;
    var tr' := A.Appended(keys.suite, kid, tr, x);
    assert x.id !in es;
    forall k | 0 <= k < |es|
      ensures LinkOk(keys.suite, who, t, tr, true, es, k)
    {
      assert LinkOk(keys.suite, who, t, tr', true, es, k);
      assert es[k] in es && (k > 0 ==> es[k - 1] in es);
      B.LinkIsThere(keys.suite, who, t, tr', es, k);
      B.LinkFrame(keys.suite, who, t, tr', es, tr, es, k);
    }
    assert es != [] ==> es[|es| - 1] in es;
    B.LastIsThere(keys.suite, who, t, tr', es);
    assert Predecessor(tr'.links, es, |es|) == Predecessor(tr.links, es, |es|);
    forall id | id in tr.links && tr.links[id].ticket == t
      ensures !Orphan(tr, id)
    {
      assert !Orphan(tr', id);
    }
  }

  // ---------------------------------------------------------------- voiding a list

  function VoidInput(t: Uuid, who: Identity, v: Voiding, now: Time): A.Input {
    A.Input(t, who, v.Id(t), v.Kind(), now)
  }

  /** The two messages a void of this ticket could hash do not collide. */
  ghost predicate Distinguishes(keys: Keys, db: Db, t: Uuid, who: Identity, v: Voiding, now: Time)
    requires t in db.tickets
  {
    var x := VoidInput(t, who, v, now);
    keys.suite.CollisionFree({Message(keys.suite, db.trail, x, who), Message(keys.suite, db.trail, x, db.tickets[t])})
  }

  lemma AppendedParts(cfg: Config, db: Db, x: A.Input)
    requires AppendEvent(cfg, db, x).Ok?
    ensures cfg.signer.Some? && x.id !in db.trail.events && x.id !in db.trail.links
    ensures AppendEvent(cfg, db, x).value == db.(trail := A.Appended(cfg.keys.suite, cfg.signer.value, db.trail, x))
  {
    hide A.NewLink, A.Appended;
  }

  lemma OtherHeadStays(s: Suite, kid: string, tr: Trail, x: A.Input, t: Uuid)
    requires t != x.ticket
    ensures A.HeadHash(A.Appended(s, kid, tr, x), t) == A.HeadHash(tr, t)
    ensures A.HeadSequence(A.Appended(s, kid, tr, x), t) == A.HeadSequence(tr, t)
  {
    hide A.NewLink, A.NewHead;
  }

  /** After voiding a list of tickets, a ticket that verified before still verifies exactly
      when it was not voided or was voided under its own identity. */
  lemma {:induction false} VoidAllVerdict(cfg: Config, db: Db, ts: seq<Uuid>, who: Identity, v: Voiding, now: Time, t: Uuid)
    requires VoidAll(cfg, db, ts, who, v, now).Ok? && NoRepeats(ts)
    requires cfg.signer.Some? ==> A.CanSign(cfg.keys, cfg.signer.value)
    requires t in db.tickets && GateAccepts(cfg.keys, db.tickets[t], t, db.trail)
    requires t in ts ==> Distinguishes(cfg.keys, db, t, who, v, now)
    ensures var after := VoidAll(cfg, db, ts, who, v, now).value;
            after.tickets == db.tickets &&
            (GateAccepts(cfg.keys, db.tickets[t], t, after.trail) <==> (t in ts ==> db.tickets[t] == who))
    decreases |ts|
  {
    hide GateAccepts, AppendEvent, Message, A.Appended, A.CanSign;
    if ts != [] {
      var x := VoidInput(ts[0], who, v, now);
      var rest := ts[1..];
      assert ts == [ts[0]] + rest;
      var next := AppendEvent(cfg, db, x).value;
      AppendedParts(cfg, db, x);
      if t == ts[0] {
        AppendNeedsIdentity(cfg.keys, cfg.signer.value, db.tickets[t], db.trail, x);
        RestIsOther(cfg, next, rest, who, v, now, t);
      } else {
        OtherVerdictStays(cfg.keys, cfg.signer.value, db.tickets[t], t, db.trail, x);
        SameMessages(cfg, db, x, t, who, v, now);
        VoidAllVerdict(cfg, next, rest, who, v, now, t);
      }
    }
  }

  lemma SameMessages(cfg: Config, db: Db, x: A.Input, t: Uuid, who: Identity, v: Voiding, now: Time)
    requires cfg.signer.Some? && t in db.tickets && t != x.ticket
    ensures Distinguishes(cfg.keys, db.(trail := A.Appended(cfg.keys.suite, cfg.signer.value, db.trail, x)), t, who, v, now)
            <==> Distinguishes(cfg.keys, db, t, who, v, now)
  {
    hide EntryMessage, A.Appended, A.HeadHash, A.HeadSequence;
    OtherHeadStays(cfg.keys.suite, cfg.signer.value, db.trail, x, t);
  }

  lemma {:induction false} RestIsOther(cfg: Config, db: Db, ts: seq<Uuid>, who: Identity, v: Voiding, now: Time, t: Uuid)
    requires VoidAll(cfg, db, ts, who, v, now).Ok? && t !in ts && t in db.tickets
    ensures var after := VoidAll(cfg, db, ts, who, v, now).value;
            after.tickets == db.tickets &&
            (GateAccepts(cfg.keys, db.tickets[t], t, after.trail) <==> GateAccepts(cfg.keys, db.tickets[t], t, db.trail))
    decreases |ts|
  {
    hide GateAccepts, AppendEvent, A.Appended;
    if ts != [] {
      var x := VoidInput(ts[0], who, v, now);
      AppendedParts(cfg, db, x);
      OtherVerdictStays(cfg.keys, cfg.signer.value, db.tickets[t], t, db.trail, x);
      RestIsOther(cfg, AppendEvent(cfg, db, x).value, ts[1..], who, v, now, t);
    }
  }

  /** These tickets share one identity. */
  predicate OneIdentity(db: Db, ts: seq<Uuid>) {
    forall t, u | t in ts && u in ts && t in db.tickets && u in db.tickets :: db.tickets[t] == db.tickets[u]
  }

  /** Voiding these tickets under the identity of the first hashes no two messages that collide. */
  ghost predicate Distinguishable(keys: Keys, db: Db, ts: seq<Uuid>, v: Voiding, now: Time) {
    ts != [] && ts[0] in db.tickets ==> forall t | t in ts && t in db.tickets :: Distinguishes(keys, db, t, db.tickets[ts[0]], v, now)
  }

  ghost predicate AllVerify(keys: Keys, db: Db) {
    forall t | t in db.tickets :: GateAccepts(keys, db.tickets[t], t, db.trail)
  }

  /** After voiding tickets of a store whose tickets all verify, they all verify again if and
      only if the voided ones share one identity. */
  lemma VoidingVerifiesIff(cfg: Config, db: Db, ts: seq<Uuid>, v: Voiding, now: Time)
    requires ts != [] && NoRepeats(ts) && (forall t | t in ts :: t in db.tickets)
    requires VoidAll(cfg, db, ts, db.tickets[ts[0]], v, now).Ok?
    requires cfg.signer.Some? ==> A.CanSign(cfg.keys, cfg.signer.value)
    requires AllVerify(cfg.keys, db) && Distinguishable(cfg.keys, db, ts, v, now)
    ensures var after := VoidAll(cfg, db, ts, db.tickets[ts[0]], v, now).value;
            after.tickets == db.tickets && (AllVerify(cfg.keys, after) <==> OneIdentity(db, ts))
  {
    hide GateAccepts, VoidAll, Distinguishes, A.CanSign;
    var who := db.tickets[ts[0]];
    var after := VoidAll(cfg, db, ts, who, v, now).value;
    forall t | t in db.tickets
      ensures after.tickets == db.tickets
      ensures GateAccepts(cfg.keys, db.tickets[t], t, after.trail) <==> (t in ts ==> db.tickets[t] == who)
    {
      VoidAllVerdict(cfg, db, ts, who, v, now, t);
    }
    assert ts[0] in ts;
  }

  // ---------------------------------------------------------------- refunds

  /** The tickets a fresh refund of this quantity selects. */
  function Chosen(db: Db, organizer: Uuid, order: Uuid, quantity: int): seq<Uuid> {
    var free := Free(db, OrderTickets(db, order, organizer));
    if 0 <= quantity <= |free| then free[..quantity] else []
  }

  lemma ChosenAreIssued(db: Db, organizer: Uuid, order: Uuid, quantity: int)
    ensures NoRepeats(Chosen(db, organizer, order, quantity))
    ensures forall t | t in Chosen(db, organizer, order, quantity) :: t in db.tickets
  {
    hide Has, OrderTickets, Free;
    var all := OrderTickets(db, order, organizer);
    var free := Free(db, all);
    FreeHasNoRepeats(db, all);
    OrderHasNoRepeats(db, order, organizer);
    if 0 <= quantity <= |free| {
      forall t | t in free[..quantity]
        ensures t in free
      {
      }
    }
  }

  /** The exact condition for refunds: after a fresh refund of a store whose tickets all
      verify, they all verify again if and only if the tickets it selects share one identity. */
  lemma RefundVerifiesIff(cfg: Config, db: Db, organizer: Uuid, order: Uuid, refund: Uuid, quantity: int, now: Time)
    requires cfg.signer.Some? ==> A.CanSign(cfg.keys, cfg.signer.value)
    requires AllVerify(cfg.keys, db) && Mine(db, OrderTickets(db, order, organizer), refund) == []
    requires Distinguishable(cfg.keys, db, Chosen(db, organizer, order, quantity), ByRefund(refund), now)
    requires RefundOrder(cfg, db, organizer, order, refund, quantity, now).Ok?
    ensures AllVerify(cfg.keys, RefundOrder(cfg, db, organizer, order, refund, quantity, now).value.0)
            <==> OneIdentity(db, Chosen(db, organizer, order, quantity))
  {
    hide GateAccepts, VoidAll, OrderTickets, Mine, Free, Message, A.CanSign;
    var claimed := db.(batches := db.batches[(organizer, refund) := BatchRow(order, quantity)]);
    var chosen := Chosen(db, organizer, order, quantity);
    ChosenAreIssued(db, organizer, order, quantity);
    VoidingVerifiesIff(cfg, claimed, chosen, ByRefund(refund), now);
  }

  // ---------------------------------------------------------------- an order of two slots

  /** An order with one ticket in each of two slots. */
  function TwoSlots(order: Uuid, organizer: Uuid, a: Uuid, b: Uuid, at: Time): seq<NewTicket> {
    [NewTicket(1, Identity(order, organizer, a), at), NewTicket(2, Identity(order, organizer, b), at)]
  }

  ghost predicate Empty(db: Db) {
    && db.tickets == map[] && db.trail == Trail(map[], map[], map[], []) && db.consumed == {} && db.batches == map[]
  }

  lemma InsertFits(cfg: Config, db: Db, n: NewTicket)
    requires A.Honest(cfg.keys, db.tickets, db.trail) && cfg.signer.Some? && A.CanSign(cfg.keys, cfg.signer.value)
    requires n.id !in db.tickets && IssuedId(n.id) !in db.trail.events
    ensures InsertIssued(cfg, db, n).Ok?
    ensures var next := InsertIssued(cfg, db, n).value;
            && next == db.(tickets := db.tickets[n.id := n.who], trail := next.trail)
            && A.Honest(cfg.keys, next.tickets, next.trail)
            && next.trail.events == db.trail.events[IssuedId(n.id) := EventRow(n.id, Issued, n.issuedAt)]
  {
    hide A.Honest, A.CanSign, A.NewLink, A.NewHead, A.LinkTaken;
    var tickets := db.tickets[n.id := n.who];
    var x := A.Input(n.id, n.who, IssuedId(n.id), Issued, n.issuedAt);
    A.NewTicketKeepsHonest(cfg.keys, db.tickets, n.id, n.who, db.trail);
    NothingHappened(cfg.keys, db.tickets, db.trail, n.id);
    A.AppendKeepsHonest(cfg.keys, tickets, cfg.signer.value, db.trail, x);
  }

  lemma NothingHappened(keys: Keys, tickets: Tickets, tr: Trail, t: Uuid)
    requires A.Honest(keys, tickets, tr) && t !in tickets
    ensures !A.HasEvent(tr.events, t, Issued)
  {
    hide GateAccepts;
  }

  lemma IssuesTwo(cfg: Config, db: Db, event: Uuid, order: Uuid, organizer: Uuid, a: Uuid, b: Uuid, at: Time)
    requires Empty(db) && cfg.signer.Some? && A.CanSign(cfg.keys, cfg.signer.value)
    ensures var r := Issue(cfg, db, event, TwoSlots(order, organizer, a, b, at));
            && r.Ok? && A.Honest(cfg.keys, r.value.tickets, r.value.trail) && r.value.batches == map[]
            && r.value.tickets == map[1 := Identity(order, organizer, a), 2 := Identity(order, organizer, b)]
            && r.value.trail.events == map[IssuedId(1) := EventRow(1, Issued, at), IssuedId(2) := EventRow(2, Issued, at)]
  {
    hide A.Honest, A.CanSign, InsertIssued;
    var ts := TwoSlots(order, organizer, a, b, at);
    var received := db.(consumed := db.consumed + {event});
    EmptyIsHonest(cfg.keys);
    InsertFits(cfg, received, ts[0]);
    var one := InsertIssued(cfg, received, ts[0]).value;
    InsertFits(cfg, one, ts[1]);
    var two := InsertIssued(cfg, one, ts[1]).value;
    assert ts[1..] == [ts[1]] && [ts[1]][1..] == [];
    assert InsertAll(cfg, two, []) == Ok(two);
    assert InsertAll(cfg, one, [ts[1]]) == Ok(two);
    assert InsertAll(cfg, received, ts) == Ok(two);
  }

  lemma EmptyIsHonest(keys: Keys)
    ensures A.Honest(keys, map[], Trail(map[], map[], map[], []))
  {
  }

  /** Both tickets of the order are free, in id order. */
  lemma BothChosen(db: Db, order: Uuid, organizer: Uuid, a: Uuid, b: Uuid, at: Time, refund: Uuid)
    requires db.tickets == map[1 := Identity(order, organizer, a), 2 := Identity(order, organizer, b)]
    requires db.trail.events == map[IssuedId(1) := EventRow(1, Issued, at), IssuedId(2) := EventRow(2, Issued, at)]
    ensures OrderTickets(db, order, organizer) == [1, 2] && Mine(db, [1, 2], refund) == [] && Free(db, [1, 2]) == [1, 2]
  {
    hide OrderTickets;
    BothOfOrder(db, order, organizer, a, b);
    assert !Has(db, 1, Refunded) && !Has(db, 2, Refunded);
    hide Has;
    assert [1, 2][1..] == [2] && [2][1..] == [];
    assert Mine(db, [2], refund) == [] && Free(db, [2]) == [2];
  }

  lemma BothOfOrder(db: Db, order: Uuid, organizer: Uuid, a: Uuid, b: Uuid)
    requires db.tickets == map[1 := Identity(order, organizer, a), 2 := Identity(order, organizer, b)]
    ensures OrderTickets(db, order, organizer) == [1, 2]
  {
    hide Ascending;
    var all := OrderTickets(db, order, organizer);
    assert 1 in all && 2 in all;
    assert forall t | t in all :: t in db.tickets;
    IncreasingIsUnique(all, [1, 2]);
  }

  /** On an honest trail a void is appended whatever identity it claims. */
  lemma VoidFits(cfg: Config, db: Db, x: A.Input)
    requires cfg.signer.Some? && A.CanSign(cfg.keys, cfg.signer.value) && A.Honest(cfg.keys, db.tickets, db.trail)
    requires x.ticket in db.tickets && !A.Taken(db.trail.events, x)
    ensures AppendEvent(cfg, db, x).Ok?
    ensures var next := AppendEvent(cfg, db, x).value;
            && next == db.(trail := next.trail) && next.trail.events == db.trail.events[x.id := EventRow(x.ticket, x.kind, x.at)]
            && (x.who == db.tickets[x.ticket] ==> A.Honest(cfg.keys, next.tickets, next.trail))
  {
    hide A.Honest, A.CanSign, A.NewLink, A.NewHead, A.LinkTaken;
    A.HonestAppendFits(cfg.keys, db.tickets, db.trail, x);
    if x.who == db.tickets[x.ticket] {
      A.AppendKeepsHonest(cfg.keys, db.tickets, cfg.signer.value, db.trail, x);
    }
  }

  /** Voiding both under the identity of the first succeeds: nothing looks at the slot. */
  lemma BothAreVoided(cfg: Config, db: Db, order: Uuid, organizer: Uuid, a: Uuid, b: Uuid, at: Time, v: Voiding, now: Time)
    requires cfg.signer.Some? && A.CanSign(cfg.keys, cfg.signer.value) && A.Honest(cfg.keys, db.tickets, db.trail)
    requires db.tickets == map[1 := Identity(order, organizer, a), 2 := Identity(order, organizer, b)]
    requires db.trail.events == map[IssuedId(1) := EventRow(1, Issued, at), IssuedId(2) := EventRow(2, Issued, at)]
    ensures VoidAll(cfg, db, [1, 2], db.tickets[1], v, now).Ok?
  {
    hide A.Honest, A.CanSign, AppendEvent;
    var who := db.tickets[1];
    var first, second := VoidInput(1, who, v, now), VoidInput(2, who, v, now);
    VoidFits(cfg, db, first);
    var one := AppendEvent(cfg, db, first).value;
    VoidFits(cfg, one, second);
    var two := AppendEvent(cfg, one, second).value;
    assert [1, 2][1..] == [2] && [2][1..] == [];
    assert VoidAll(cfg, two, [], who, v, now) == Ok(two);
    assert VoidAll(cfg, one, [2], who, v, now) == Ok(two);
  }

  /** The failing case: an order of two slots is issued and then refunded as a whole; the
      refund succeeds, and a ticket of the order no longer verifies. */
  lemma TwoSlotOrderFails(cfg: Config, db: Db, event: Uuid, order: Uuid, organizer: Uuid, a: Uuid, b: Uuid, at: Time,
                          refund: Uuid, now: Time)
    requires Empty(db) && cfg.signer.Some? && A.CanSign(cfg.keys, cfg.signer.value) && a != b
    requires var issued := Issue(cfg, db, event, TwoSlots(order, organizer, a, b, at));
             issued.Ok? ==> Distinguishable(cfg.keys, issued.value, [1, 2], ByRefund(refund), now)
    ensures var issued := Issue(cfg, db, event, TwoSlots(order, organizer, a, b, at));
            && issued.Ok? && AllVerify(cfg.keys, issued.value)
            && var refunded := RefundOrder(cfg, issued.value, organizer, order, refund, 2, now);
               refunded.Ok? && !AllVerify(cfg.keys, refunded.value.0)
  {
    hide Issue, GateAccepts, A.CanSign, VoidAll, OrderTickets, Free, Mine, Distinguishable;
    IssuesTwo(cfg, db, event, order, organizer, a, b, at);
    var issued := Issue(cfg, db, event, TwoSlots(order, organizer, a, b, at)).value;
    BothChosen(issued, order, organizer, a, b, at, refund);
    var claimed := issued.(batches := issued.batches[(organizer, refund) := BatchRow(order, 2)]);
    BothAreVoided(cfg, claimed, order, organizer, a, b, at, ByRefund(refund), now);
    assert [1, 2][..2] == [1, 2];
    RefundVerifiesIff(cfg, issued, organizer, order, refund, 2, now);
    assert 1 in [1, 2] && 2 in [1, 2];
  }

  // ---------------------------------------------------------------- exchanges

  lemma AppendKeepsKeys(cfg: Config, db: Db, x: A.Input)
    requires KeysIntact(db.tickets, db.trail) && x.ticket in db.tickets && AppendEvent(cfg, db, x).Ok?
    ensures var next := AppendEvent(cfg, db, x).value; next.tickets == db.tickets && KeysIntact(next.tickets, next.trail)
  {
    hide HashEntry, AppendEvent, CanonicalHead;
    AppendedParts(cfg, db, x);
  }

  lemma {:induction false} VoidAllKeepsKeys(cfg: Config, db: Db, ts: seq<Uuid>, who: Identity, v: Voiding, now: Time)
    requires KeysIntact(db.tickets, db.trail) && (forall t | t in ts :: t in db.tickets) && VoidAll(cfg, db, ts, who, v, now).Ok?
    ensures var after := VoidAll(cfg, db, ts, who, v, now).value;
            after.tickets == db.tickets && KeysIntact(after.tickets, after.trail)
    decreases |ts|
  {
    hide KeysIntact, AppendEvent;
    if ts != [] {
      AppendKeepsKeys(cfg, db, VoidInput(ts[0], who, v, now));
      VoidAllKeepsKeys(cfg, AppendEvent(cfg, db, VoidInput(ts[0], who, v, now)).value, ts[1..], who, v, now);
    }
  }

  /** An issued ticket verifies, and no other verdict changes. */
  lemma IssuedVerifies(cfg: Config, db: Db, n: NewTicket, t: Uuid)
    requires KeysIntact(db.tickets, db.trail) && InsertIssued(cfg, db, n).Ok?
    requires cfg.signer.Some? ==> A.CanSign(cfg.keys, cfg.signer.value)
    ensures var next := InsertIssued(cfg, db, n).value;
            && n.id !in db.tickets && next.tickets == db.tickets[n.id := n.who] && KeysIntact(next.tickets, next.trail)
            && (t in db.tickets ==>
                  (GateAccepts(cfg.keys, db.tickets[t], t, next.trail) <==> GateAccepts(cfg.keys, db.tickets[t], t, db.trail)))
            && GateAccepts(cfg.keys, n.who, n.id, next.trail)
  {
    hide GateAccepts, AppendEvent, Message, A.Appended, A.CanSign, KeysIntact;
    var x := A.Input(n.id, n.who, IssuedId(n.id), Issued, n.issuedAt);
    var added := db.(tickets := db.tickets[n.id := n.who]);
    MoreTickets(db.tickets, n.id, n.who, db.trail);
    AppendKeepsKeys(cfg, added, x);
    AppendedParts(cfg, added, x);
    EmptyIsAccepted(cfg.keys, n.who, n.id, db.tickets, db.trail);
    AppendNeedsIdentity(cfg.keys, cfg.signer.value, n.who, db.trail, x);
    if t in db.tickets {
      OtherVerdictStays(cfg.keys, cfg.signer.value, db.tickets[t], t, db.trail, x);
    }
  }

  lemma MoreTickets(tickets: Tickets, t: Uuid, who: Identity, tr: Trail)
    requires KeysIntact(tickets, tr)
    ensures KeysIntact(tickets[t := who], tr)
  {
  }

  lemma EmptyIsAccepted(keys: Keys, who: Identity, t: Uuid, tickets: Tickets, tr: Trail)
    requires KeysIntact(tickets, tr) && t !in tickets
    ensures GateAccepts(keys, who, t, tr)
  {
    assert Verifies(keys, who, t, tr, []);
  }

  /** Replacements verify, and issuing them changes no other verdict. */
  lemma {:induction false} InsertAllVerdict(cfg: Config, db: Db, ts: seq<NewTicket>, t: Uuid)
    requires KeysIntact(db.tickets, db.trail) && InsertAll(cfg, db, ts).Ok?
    requires cfg.signer.Some? ==> A.CanSign(cfg.keys, cfg.signer.value)
    ensures var after := InsertAll(cfg, db, ts).value;
            && (t in db.tickets ==>
                  t in after.tickets && after.tickets[t] == db.tickets[t]
                  && (GateAccepts(cfg.keys, db.tickets[t], t, after.trail) <==> GateAccepts(cfg.keys, db.tickets[t], t, db.trail)))
            && (t in after.tickets && t !in db.tickets ==> GateAccepts(cfg.keys, after.tickets[t], t, after.trail))
    decreases |ts|
  {
    hide GateAccepts, KeysIntact, InsertIssued, A.CanSign;
    if ts != [] {
      IssuedVerifies(cfg, db, ts[0], t);
      InsertAllVerdict(cfg, InsertIssued(cfg, db, ts[0]).value, ts[1..], t);
    }
  }

  lemma InsertingKeepsVerdicts(cfg: Config, db: Db, ts: seq<NewTicket>)
    requires KeysIntact(db.tickets, db.trail) && InsertAll(cfg, db, ts).Ok?
    requires cfg.signer.Some? ==> A.CanSign(cfg.keys, cfg.signer.value)
    ensures AllVerify(cfg.keys, InsertAll(cfg, db, ts).value) <==> AllVerify(cfg.keys, db)
  {
    hide GateAccepts, KeysIntact, InsertAll, A.CanSign;
    var after := InsertAll(cfg, db, ts).value;
    forall t
      ensures t in db.tickets ==>
                t in after.tickets && after.tickets[t] == db.tickets[t]
                && (GateAccepts(cfg.keys, db.tickets[t], t, after.trail) <==> GateAccepts(cfg.keys, db.tickets[t], t, db.trail))
      ensures t in after.tickets && t !in db.tickets ==> GateAccepts(cfg.keys, after.tickets[t], t, after.trail)
    {
      InsertAllVerdict(cfg, db, ts, t);
    }
  }

  /** The exact condition for exchanges: after a switch of a store whose tickets all verify,
      they and the replacements all verify if and only if the tickets of the source order share
      one identity. */
  lemma ExchangeVerifiesIff(cfg: Config, db: Db, x: Switch, now: Time)
    requires cfg.signer.Some? ==> A.CanSign(cfg.keys, cfg.signer.value)
    requires KeysIntact(db.tickets, db.trail) && AllVerify(cfg.keys, db) && x.event !in db.consumed
    requires Distinguishable(cfg.keys, db, OrderTickets(db, x.order, x.organizer), ByExchange(x.exchange), now)
    requires SwitchExchange(cfg, db, x, now).Ok?
    ensures AllVerify(cfg.keys, SwitchExchange(cfg, db, x, now).value)
            <==> OneIdentity(db, OrderTickets(db, x.order, x.organizer))
  {
    hide GateAccepts, VoidAll, InsertAll, Obstacle, Message, A.CanSign, KeysIntact;
    var source := OrderTickets(db, x.order, x.organizer);
    var received := db.(consumed := db.consumed + {x.event});
    OrderHasNoRepeats(db, x.order, x.organizer);
    VoidingVerifiesIff(cfg, received, source, ByExchange(x.exchange), now);
    VoidAllKeepsKeys(cfg, received, source, db.tickets[source[0]], ByExchange(x.exchange), now);
    InsertingKeepsVerdicts(cfg, VoidAll(cfg, received, source, db.tickets[source[0]], ByExchange(x.exchange), now).value, x.tickets);
  }

  lemma OrderHasNoRepeats(db: Db, order: Uuid, organizer: Uuid)
    ensures NoRepeats(OrderTickets(db, order, organizer))
    ensures forall t | t in OrderTickets(db, order, organizer) :: t in db.tickets
  {
  }

  lemma {:induction false} FreeHasNoRepeats(db: Db, ts: seq<Uuid>)
    ensures forall t | t in Free(db, ts) :: t in ts
    ensures NoRepeats(ts) ==> NoRepeats(Free(db, ts))
  {
    hide Has;
    if ts != [] {
      FreeHasNoRepeats(db, ts[1..]);
      assert ts == [ts[0]] + ts[1..];
      if NoRepeats(ts) {
        assert NoRepeats(ts[1..]);
        assert ts[0] !in ts[1..];
      }
    }
  }
}
