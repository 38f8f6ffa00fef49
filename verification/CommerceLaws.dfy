/** What issuing, refunding and exchanging an order answers, over the rows of its tickets. */
module CommerceLaws {
  import opened Basics
  import opened Canonical
  import opened Trail
  import opened Store
  import opened Admission
  import opened Answers
  import A = Appending
  import R = Refunds

  // ---------------------------------------------------------------- several appends at once

  /** The event can be put on record for the ticket. */
  ghost predicate CanRecord(db: Db, t: Uuid, id: EventId, kind: EventType) {
    id !in db.trail.events && !Did(db, t, kind) && Room(db, t, id)
  }

  /** An append takes nobody else's place. */
  lemma OthersKeepRoom(cfg: Config, db: Db, x: A.Input, t: Uuid, id: EventId)
    requires AppendEvent(cfg, db, x).Ok? && t != x.ticket && id != x.id
    ensures Room(AppendEvent(cfg, db, x).value, t, id) <==> Room(db, t, id)
  {
    hide HashEntry;
    var next := AppendEvent(cfg, db, x).value;
    assert next.trail.links == db.trail.links[x.id := A.NewLink(cfg.keys.suite, db.trail, x)];
    assert t in next.trail.heads <==> t in db.trail.heads;
    if Room(next, t, id) {
      forall l | l in db.trail.links && db.trail.links[l].ticket == t
        ensures db.trail.links[l].sequence != (if t in db.trail.heads then db.trail.heads[t].sequence else 0) + 1
      {
        assert l in next.trail.links;
      }
    }
  }

  lemma OthersCanRecord(cfg: Config, db: Db, x: A.Input, t: Uuid, id: EventId, kind: EventType)
    requires AppendEvent(cfg, db, x).Ok? && t != x.ticket && id != x.id
    ensures CanRecord(AppendEvent(cfg, db, x).value, t, id, kind) <==> CanRecord(db, t, id, kind)
  {
    hide Room, AppendEvent;
    AppendIff(cfg, db, x);
    OthersKeepRoom(cfg, db, x, t, id);
    var next := AppendEvent(cfg, db, x).value;
    if Did(db, t, kind) {
      var e :| e in db.trail.events && db.trail.events[e].ticket == t && db.trail.events[e].kind == kind;
      assert e in next.trail.events;
    }
  }

  // ---------------------------------------------------------------- voiding several tickets

  ghost predicate CanVoid(db: Db, t: Uuid, v: Voiding) {
    CanRecord(db, t, v.Id(t), v.Kind())
  }

  /** What was on record stays, and each of these tickets is voided, at this time. */
  ghost predicate AddsVoids(a: Db, b: Db, ts: seq<Uuid>, v: Voiding, now: Time) {
    && (forall e | e in a.trail.events :: e in b.trail.events && b.trail.events[e] == a.trail.events[e])
    && (forall t | t in ts :: v.Id(t) in b.trail.events && b.trail.events[v.Id(t)] == EventRow(t, v.Kind(), now))
    && (forall e | e in b.trail.events && e !in a.trail.events :: exists t :: t in ts && e == v.Id(t))
  }

  /** Tickets are voided together if and only if there is a signer and each can be. */
  lemma {:induction false} VoidAllIff(cfg: Config, db: Db, ts: seq<Uuid>, who: Identity, v: Voiding, now: Time)
    requires NoRepeats(ts)
    ensures var r := VoidAll(cfg, db, ts, who, v, now);
            && (r.Ok? <==> ts == [] || (cfg.signer.Some? && forall t | t in ts :: CanVoid(db, t, v)))
            && (r.Ok? ==> r.value == db.(trail := r.value.trail) && AddsVoids(db, r.value, ts, v, now))
            && (r.Ok? ==> forall t, id: EventId, kind | t !in ts && !id.RefundedId? && !id.ExchangedId? ::
                  CanRecord(r.value, t, id, kind) <==> CanRecord(db, t, id, kind))
    decreases |ts|
  {
    hide Room, AppendEvent, AddsVoids, CanRecord;
    if ts == [] {
      NoVoids(db, v, now);
    } else {
      var x := A.Input(ts[0], who, v.Id(ts[0]), v.Kind(), now);
      var rest := ts[1..];
      assert ts == [ts[0]] + rest;
      FirstIsApart(ts);
      FirstVoid(cfg, db, x, v);
      if AppendEvent(cfg, db, x).Ok? {
        var next := AppendEvent(cfg, db, x).value;
        VoidAllIff(cfg, next, rest, who, v, now);
        forall t | t in rest
          ensures CanVoid(next, t, v) <==> CanVoid(db, t, v)
        {
          OthersCanRecord(cfg, db, x, t, v.Id(t), v.Kind());
        }
        if VoidAll(cfg, next, rest, who, v, now).Ok? {
          var after := VoidAll(cfg, next, rest, who, v, now).value;
          OneMoreVoid(db, next, after, ts, v, now);
          forall t, id: EventId, kind | t !in ts && !id.RefundedId? && !id.ExchangedId?
            ensures CanRecord(after, t, id, kind) <==> CanRecord(db, t, id, kind)
          {
            OthersCanRecord(cfg, db, x, t, id, kind);
          }
        }
      }
    }
  }

  lemma NoVoids(db: Db, v: Voiding, now: Time)
    ensures AddsVoids(db, db, [], v, now)
  {
  }

  lemma FirstIsApart(ts: seq<Uuid>)
    requires NoRepeats(ts) && ts != []
    ensures ts[0] !in ts[1..] && NoRepeats(ts[1..])
  {
    forall i | 0 <= i < |ts[1..]| ensures ts[1..][i] != ts[0] {
      assert ts[1..][i] == ts[i + 1];
    }
    forall i, j | 0 <= i < j < |ts[1..]| ensures ts[1..][i] != ts[1..][j] {
      assert ts[i + 1] != ts[j + 1];
    }
  }

  lemma FirstVoid(cfg: Config, db: Db, x: A.Input, v: Voiding)
    requires x.id == v.Id(x.ticket) && x.kind == v.Kind()
    ensures AppendEvent(cfg, db, x).Ok? <==> cfg.signer.Some? && CanVoid(db, x.ticket, v)
    ensures AppendEvent(cfg, db, x).Ok? ==>
              var next := AppendEvent(cfg, db, x).value;
              x.id !in db.trail.events
              && next == db.(trail := next.trail) && next.trail.events == db.trail.events[x.id := EventRow(x.ticket, x.kind, x.at)]
  {
    hide Room, AppendEvent, Did;
    AppendIff(cfg, db, x);
  }

  lemma OneMoreVoid(db: Db, next: Db, after: Db, ts: seq<Uuid>, v: Voiding, now: Time)
    requires ts != [] && v.Id(ts[0]) !in db.trail.events
    requires next.trail.events == db.trail.events[v.Id(ts[0]) := EventRow(ts[0], v.Kind(), now)]
    requires AddsVoids(next, after, ts[1..], v, now)
    ensures AddsVoids(db, after, ts, v, now)
  {
    assert ts == [ts[0]] + ts[1..];
    forall e | e in after.trail.events && e !in db.trail.events
      ensures exists t :: t in ts && e == v.Id(t)
    {
      if e in next.trail.events {
        assert ts[0] in ts && e == v.Id(ts[0]);
      } else {
        var t :| t in ts[1..] && e == v.Id(t);
        assert t in ts;
      }
    }
  }

  // ---------------------------------------------------------------- refunds

  predicate OfOrder(db: Db, t: Uuid, organizer: Uuid, order: Uuid) {
    t in db.tickets && db.tickets[t].order == order && db.tickets[t].organizer == organizer
  }

  ghost function Ordered(db: Db, organizer: Uuid, order: Uuid): set<Uuid> {
    set t | t in db.tickets && db.tickets[t].order == order && db.tickets[t].organizer == organizer
  }

  lemma OrderIsListed(db: Db, organizer: Uuid, order: Uuid)
    ensures var all := OrderTickets(db, order, organizer);
            NoRepeats(all) && |all| == |Ordered(db, organizer, order)| && forall t :: t in all <==> OfOrder(db, t, organizer, order)
  {
  }

  /** The tickets of the order no refund has voided. */
  ghost function Unrefunded(db: Db, organizer: Uuid, order: Uuid): set<Uuid> {
    set t | t in db.tickets && OfOrder(db, t, organizer, order) && !Did(db, t, Refunded)
  }

  /** The tickets of the order that this refund voided. */
  ghost function RefundedBy(db: Db, organizer: Uuid, order: Uuid, refund: Uuid): set<Uuid> {
    set t | t in db.tickets && OfOrder(db, t, organizer, order) && DidAs(db, t, RefundedId(refund, t), Refunded)
  }

  /** The ticket has this very event, of this type. */
  predicate DidAs(db: Db, t: Uuid, id: EventId, kind: EventType) {
    id in db.trail.events && db.trail.events[id].ticket == t && db.trail.events[id].kind == kind
  }

  /** The `n` least of these tickets, in order. */
  ghost predicate Least(chosen: seq<Uuid>, from: set<Uuid>, n: int) {
    && |chosen| == n && Increasing(chosen) && (forall t | t in chosen :: t in from)
    && forall t, c | t in from && t !in chosen && c in chosen :: c < t
  }

  /** A refund whose id is claimed for something else is a conflict.  One that is on record is
      repeated, in the order of its tickets, and nothing else has to hold for that. */
  lemma RepeatIff(cfg: Config, db: Db, organizer: Uuid, order: Uuid, refund: Uuid, quantity: int, now: Time)
    ensures var r := RefundOrder(cfg, db, organizer, order, refund, quantity, now);
            var mine := RefundedBy(db, organizer, order, refund);
            var key, row := (organizer, refund), BatchRow(order, quantity);
            && (quantity < 1 ==> r == Err(BadQuantity))
            && (quantity >= 1 && key in db.batches && db.batches[key] != row ==> r == Err(RefundConflict))
            && (quantity >= 1 && (key in db.batches ==> db.batches[key] == row) && mine != {} ==>
                  r == if |mine| == quantity then Ok((db, Refund(Ascending(mine), true))) else Err(RefundConflict))
  {
    hide RefundFresh, Mine, Free, OrderTickets, RefundedBy;
    MineIsListed(db, organizer, order, refund);
  }

  /** A new refund voids the tickets of least id that no refund has voided, as many as it asks
      for, from one to fifty, if and only if there are that many, its id is new and each void
      can be recorded. */
  lemma RefundIff(cfg: Config, db: Db, organizer: Uuid, order: Uuid, refund: Uuid, quantity: int, now: Time)
    requires quantity >= 1 && RefundedBy(db, organizer, order, refund) == {}
    requires (organizer, refund) in db.batches ==> db.batches[(organizer, refund)] == BatchRow(order, quantity)
    ensures var r := RefundOrder(cfg, db, organizer, order, refund, quantity, now);
            var free := Unrefunded(db, organizer, order);
            && (|free| < quantity ==> r == Err(TicketsNotIssued))
            && (|free| >= quantity && (organizer, refund) in db.batches ==> r == Err(RefundConflict))
            && (|free| >= quantity && (organizer, refund) !in db.batches && quantity > 50 ==> r == Err(BadQuantity))
            && (|free| >= quantity && (organizer, refund) !in db.batches && quantity <= 50 ==>
                  RefundedAfresh(cfg, db, organizer, order, refund, quantity, now, r))
  {
    hide RefundFresh, Mine, Free, OrderTickets, Did, Has, RefundedAfresh, RefundedBy, Unrefunded;
    MineIsListed(db, organizer, order, refund);
    FreeIsListed(db, organizer, order);
    var all := OrderTickets(db, order, organizer);
    FreeAreListed(db, all);
    OrderIsListed(db, organizer, order);
    FreshOrNot(cfg, db, organizer, order, refund, quantity, Free(db, all), now);
    if |Unrefunded(db, organizer, order)| >= quantity && quantity <= 50 && (organizer, refund) !in db.batches {
      FreshRefund(cfg, db, organizer, order, refund, quantity, now);
    }
  }

  lemma FreshOrNot(cfg: Config, db: Db, organizer: Uuid, order: Uuid, refund: Uuid, quantity: int, free: seq<Uuid>, now: Time)
    requires quantity >= 1 && forall t | t in free :: t in db.tickets
    ensures var r := RefundFresh(cfg, db, organizer, order, refund, quantity, free, now);
            && (|free| < quantity ==> r == Err(TicketsNotIssued))
            && (|free| >= quantity && (organizer, refund) in db.batches ==> r == Err(RefundConflict))
            && (|free| >= quantity && (organizer, refund) !in db.batches && quantity > 50 ==> r == Err(BadQuantity))
  {
    hide VoidAll;
  }

  /** How a new refund of a sound size is answered. */
  ghost predicate RefundedAfresh(cfg: Config, db: Db, organizer: Uuid, order: Uuid, refund: Uuid, quantity: int, now: Time,
                                 r: Result<(Db, Refund), StoreError>) {
    exists chosen ::
      && Least(chosen, Unrefunded(db, organizer, order), quantity)
      && (r.Ok? <==> cfg.signer.Some? && forall t | t in chosen :: CanVoid(db, t, ByRefund(refund)))
      && (r.Ok? ==> && r.value.1 == Refund(chosen, false)
                    && r.value.0 == db.(trail := r.value.0.trail, batches := db.batches[(organizer, refund) := BatchRow(order, quantity)])
                    && AddsVoids(db, r.value.0, chosen, ByRefund(refund), now))
  }

  lemma MineIsListed(db: Db, organizer: Uuid, order: Uuid, refund: Uuid)
    ensures Mine(db, OrderTickets(db, order, organizer), refund) == Ascending(RefundedBy(db, organizer, order, refund))
  {
    hide Did, Has, Increasing, Mine, DidAs, VoidedBy;
    var all := OrderTickets(db, order, organizer);
    var mine := RefundedBy(db, organizer, order, refund);
    AscendingIncreases(set t | t in db.tickets && db.tickets[t].order == order && db.tickets[t].organizer == organizer);
    R.MineIsFiltered(db, all, refund);
    AscendingIncreases(mine);
    forall t ensures t in Mine(db, all, refund) <==> t in mine {
      VoidIsFiled(db, t, refund);
    }
    IncreasingIsUnique(Mine(db, all, refund), Ascending(mine));
  }

  lemma VoidIsFiled(db: Db, t: Uuid, refund: Uuid)
    ensures DidAs(db, t, RefundedId(refund, t), Refunded) <==> Has(db, t, Refunded) && VoidedBy(db, t, refund)
  {
    hide Did, Has;
    NotVoid(db, t);
    AsIsDid(db, t, RefundedId(refund, t), Refunded);
  }

  lemma AsIsDid(db: Db, t: Uuid, id: EventId, kind: EventType)
    ensures DidAs(db, t, id, kind) ==> Did(db, t, kind)
  {
  }

  lemma FreeIsListed(db: Db, organizer: Uuid, order: Uuid)
    ensures Free(db, OrderTickets(db, order, organizer)) == Ascending(Unrefunded(db, organizer, order))
  {
    hide Did, Has, Increasing;
    var all := OrderTickets(db, order, organizer);
    var free := Unrefunded(db, organizer, order);
    AscendingIncreases(set t | t in db.tickets && db.tickets[t].order == order && db.tickets[t].organizer == organizer);
    R.FreeIsFiltered(db, all);
    AscendingIncreases(free);
    forall t ensures t in Free(db, all) <==> t in free {
      NotVoid(db, t);
    }
    IncreasingIsUnique(Free(db, all), Ascending(free));
  }

  lemma FreshRefund(cfg: Config, db: Db, organizer: Uuid, order: Uuid, refund: Uuid, quantity: int, now: Time)
    requires var free := Unrefunded(db, organizer, order);
             1 <= quantity <= |free| && quantity <= 50 && (organizer, refund) !in db.batches
    requires Mine(db, OrderTickets(db, order, organizer), refund) == []
    ensures RefundedAfresh(cfg, db, organizer, order, refund, quantity, now, RefundOrder(cfg, db, organizer, order, refund, quantity, now))
  {
    hide VoidAll, Did, Has, CanVoid, AddsVoids, CanRecord, Mine, OrderTickets;
    FreeIsListed(db, organizer, order);
    FirstIsIssued(db, order, organizer);
    var free := Ascending(Unrefunded(db, organizer, order));
    var chosen := free[..quantity];
    FirstsAreLeast(Unrefunded(db, organizer, order), quantity);
    var claimed := db.(batches := db.batches[(organizer, refund) := BatchRow(order, quantity)]);
    VoidAllIff(cfg, claimed, chosen, db.tickets[free[0]], ByRefund(refund), now);
    ClaimingChangesNothing(db, claimed, chosen, ByRefund(refund), now);
  }

  lemma FirstsAreLeast(from: set<Uuid>, n: nat)
    requires n <= |from|
    ensures var chosen := Ascending(from)[..n]; Least(chosen, from, n) && NoRepeats(chosen)
  {
    var all := Ascending(from);
    AscendingIncreases(from);
    assert forall t | t in from :: t in all;
    assert forall t | t in all :: t in from;
    PrefixIsLeast(all, n);
    assert forall t | t in all[..n] :: t in all;
  }

  lemma PrefixIsLeast(all: seq<Uuid>, n: nat)
    requires Increasing(all) && n <= |all|
    ensures Increasing(all[..n]) && NoRepeats(all[..n]) && forall t, c | t in all && t !in all[..n] && c in all[..n] :: c < t
  {
    var chosen := all[..n];
    forall t, c | t in all && t !in chosen && c in chosen ensures c < t {
      assert forall k | 0 <= k < n :: all[k] == chosen[k] && chosen[k] in chosen;
      var i :| 0 <= i < n && chosen[i] == c;
      var j :| 0 <= j < |all| && all[j] == t;
    }
  }

  /** The batch row has no part in what can be voided. */
  lemma ClaimingChangesNothing(db: Db, claimed: Db, ts: seq<Uuid>, v: Voiding, now: Time)
    requires claimed == db.(batches := claimed.batches) || claimed == db.(consumed := claimed.consumed)
    ensures forall t :: CanVoid(claimed, t, v) <==> CanVoid(db, t, v)
    ensures forall after :: AddsVoids(claimed, after, ts, v, now) <==> AddsVoids(db, after, ts, v, now)
  {
    forall t ensures CanVoid(claimed, t, v) <==> CanVoid(db, t, v) {
      assert Room(claimed, t, v.Id(t)) <==> Room(db, t, v.Id(t));
    }
  }

  // ---------------------------------------------------------------- issuing

  /** The ticket can be issued: its id is new, and its first event can be recorded. */
  ghost predicate CanIssue(db: Db, t: Uuid) {
    t !in db.tickets && CanRecord(db, t, IssuedId(t), Issued)
  }

  predicate AllNew(ns: seq<NewTicket>) {
    forall i, j | 0 <= i < j < |ns| :: ns[i].id != ns[j].id
  }

  /** What was on record stays, and each new ticket has its row and its first event. */
  ghost predicate AddsTickets(a: Db, b: Db, ns: seq<NewTicket>) {
    && (forall e | e in a.trail.events :: e in b.trail.events && b.trail.events[e] == a.trail.events[e])
    && (forall t | t in a.tickets :: t in b.tickets && b.tickets[t] == a.tickets[t])
    && (forall n | n in ns :: n.id in b.tickets && b.tickets[n.id] == n.who
          && IssuedId(n.id) in b.trail.events && b.trail.events[IssuedId(n.id)] == EventRow(n.id, Issued, n.issuedAt))
    && (forall t | t in b.tickets && t !in a.tickets :: exists n :: n in ns && t == n.id)
    && (forall e | e in b.trail.events && e !in a.trail.events :: exists n :: n in ns && e == IssuedId(n.id))
  }

  /** Tickets are issued together if and only if there is a signer, their ids differ and each
      can be. */
  lemma {:induction false} InsertAllIff(cfg: Config, db: Db, ns: seq<NewTicket>)
    ensures var r := InsertAll(cfg, db, ns);
            && (r.Ok? <==> ns == [] || (cfg.signer.Some? && AllNew(ns) && forall n | n in ns :: CanIssue(db, n.id)))
            && (r.Ok? ==> r.value == db.(tickets := r.value.tickets, trail := r.value.trail) && AddsTickets(db, r.value, ns))
    decreases |ns|
  {
    hide Room, AppendEvent, AddsTickets, CanRecord, InsertIssued;
    if ns == [] {
      NoTickets(db);
    } else {
      var n, rest := ns[0], ns[1..];
      assert ns == [n] + rest;
      FirstIssue(cfg, db, n);
      if InsertIssued(cfg, db, n).Ok? {
        var next := InsertIssued(cfg, db, n).value;
        InsertAllIff(cfg, next, rest);
        forall m | m in rest
          ensures CanIssue(next, m.id) <==> m.id != n.id && CanIssue(db, m.id)
        {
          OthersCanBeIssued(cfg, db, n, m.id);
        }
        AllNewIff(ns);
        if InsertAll(cfg, next, rest).Ok? {
          OneMoreTicket(db, next, InsertAll(cfg, next, rest).value, ns);
        }
      }
    }
  }

  lemma NoTickets(db: Db)
    ensures AddsTickets(db, db, [])
  {
  }

  lemma AllNewIff(ns: seq<NewTicket>)
    requires ns != []
    ensures AllNew(ns) <==> AllNew(ns[1..]) && forall m | m in ns[1..] :: m.id != ns[0].id
  {
    var rest := ns[1..];
    assert forall i | 0 <= i < |rest| :: rest[i] == ns[i + 1];
    if AllNew(rest) && forall m | m in rest :: m.id != ns[0].id {
      forall i, j | 0 <= i < j < |ns| ensures ns[i].id != ns[j].id {
        assert ns[j] == rest[j - 1];
        assert i > 0 ==> ns[i] == rest[i - 1];
      }
    }
    if AllNew(ns) {
      forall i, j | 0 <= i < j < |rest| ensures rest[i].id != rest[j].id {
        assert ns[i + 1].id != ns[j + 1].id;
      }
    }
  }

  lemma FirstIssue(cfg: Config, db: Db, n: NewTicket)
    ensures InsertIssued(cfg, db, n).Ok? <==> cfg.signer.Some? && CanIssue(db, n.id)
    ensures InsertIssued(cfg, db, n).Ok? ==>
              var next := InsertIssued(cfg, db, n).value;
              && IssuedId(n.id) !in db.trail.events && n.id !in db.tickets
              && next == db.(tickets := db.tickets[n.id := n.who], trail := next.trail)
              && next.trail.events == db.trail.events[IssuedId(n.id) := EventRow(n.id, Issued, n.issuedAt)]
  {
    hide AppendEvent, Did;
    var listed := db.(tickets := db.tickets[n.id := n.who]);
    AppendIff(cfg, listed, A.Input(n.id, n.who, IssuedId(n.id), Issued, n.issuedAt));
    TicketsHaveNoPart(db, listed, n.id, IssuedId(n.id), Issued);
  }

  lemma TicketsHaveNoPart(a: Db, b: Db, t: Uuid, id: EventId, kind: EventType)
    requires a.trail == b.trail
    ensures (Room(a, t, id) <==> Room(b, t, id)) && (Did(a, t, kind) <==> Did(b, t, kind))
  {
  }

  lemma OthersCanBeIssued(cfg: Config, db: Db, n: NewTicket, t: Uuid)
    requires InsertIssued(cfg, db, n).Ok?
    ensures CanIssue(InsertIssued(cfg, db, n).value, t) <==> t != n.id && CanIssue(db, t)
  {
    hide AppendEvent, Room, Did;
    var listed := db.(tickets := db.tickets[n.id := n.who]);
    FirstIssue(cfg, db, n);
    if t != n.id {
      OthersCanRecord(cfg, listed, A.Input(n.id, n.who, IssuedId(n.id), Issued, n.issuedAt), t, IssuedId(t), Issued);
      TicketsHaveNoPart(db, listed, t, IssuedId(t), Issued);
    }
  }

  lemma OneMoreTicket(db: Db, next: Db, after: Db, ns: seq<NewTicket>)
    requires ns != [] && IssuedId(ns[0].id) !in db.trail.events && ns[0].id !in db.tickets
    requires next.tickets == db.tickets[ns[0].id := ns[0].who]
    requires next.trail.events == db.trail.events[IssuedId(ns[0].id) := EventRow(ns[0].id, Issued, ns[0].issuedAt)]
    requires AddsTickets(next, after, ns[1..])
    ensures AddsTickets(db, after, ns)
  {
    assert ns == [ns[0]] + ns[1..];
    forall t | t in after.tickets && t !in db.tickets ensures exists n :: n in ns && t == n.id {
      if t in next.tickets {
        assert ns[0] in ns && t == ns[0].id;
      } else {
        var n :| n in ns[1..] && t == n.id;
        assert n in ns;
      }
    }
    forall e | e in after.trail.events && e !in db.trail.events ensures exists n :: n in ns && e == IssuedId(n.id) {
      if e in next.trail.events {
        assert ns[0] in ns && e == IssuedId(ns[0].id);
      } else {
        var n :| n in ns[1..] && e == IssuedId(n.id);
        assert n in ns;
      }
    }
  }

  /** An order event is taken up once: it issues its tickets if and only if all can be issued,
      and its repeat changes nothing. */
  lemma IssueIff(cfg: Config, db: Db, event: Uuid, ns: seq<NewTicket>)
    ensures var r := Issue(cfg, db, event, ns);
            && (event in db.consumed ==> r == Ok(db))
            && (event !in db.consumed ==>
                  && (r.Ok? <==> ns == [] || (cfg.signer.Some? && AllNew(ns) && forall n | n in ns :: CanIssue(db, n.id)))
                  && (r.Ok? ==> && r.value == db.(tickets := r.value.tickets, trail := r.value.trail, consumed := db.consumed + {event})
                                && AddsTickets(db, r.value, ns)))
  {
    hide InsertAll, AddsTickets, AllNew, CanIssue;
    if event !in db.consumed {
      var received := db.(consumed := db.consumed + {event});
      InsertAllIff(cfg, received, ns);
      ReceivingChangesNothing(db, received, ns);
    }
  }

  lemma ReceivingChangesNothing(db: Db, received: Db, ns: seq<NewTicket>)
    requires received == db.(consumed := received.consumed)
    ensures forall t :: CanIssue(received, t) <==> CanIssue(db, t)
    ensures forall after :: AddsTickets(received, after, ns) <==> AddsTickets(db, after, ns)
  {
    forall t ensures CanIssue(received, t) <==> CanIssue(db, t) {
      TicketsHaveNoPart(db, received, t, IssuedId(t), Issued);
    }
  }

  // ---------------------------------------------------------------- exchanges

  /** The ticket stands in the way of an exchange. */
  ghost predicate Bars(db: Db, t: Uuid) {
    Did(db, t, Refunded) || Did(db, t, Exchanged) || WentIn(db, t)
  }

  ghost function WhyBarred(db: Db, t: Uuid): StoreError {
    if Did(db, t, Refunded) || Did(db, t, Exchanged) then SourceVoided else SourceAdmitted
  }

  /** The first ticket in the way names the reason. */
  lemma {:induction false} FirstBar(db: Db, ts: seq<Uuid>) returns (i: nat)
    ensures Obstacle(db, ts).None? <==> i == |ts|
    ensures i <= |ts| && (forall j | 0 <= j < i :: !Bars(db, ts[j]))
    ensures i < |ts| ==> ts[i] in ts && Bars(db, ts[i]) && Obstacle(db, ts).value == WhyBarred(db, ts[i])
  {
    hide Did, Has, WentIn, AdmittedUnion;
    if ts == [] {
      return 0;
    }
    NotVoid(db, ts[0]);
    UnionIs(db, ts[0]);
    if Bars(db, ts[0]) {
      return 0;
    }
    i := FirstBar(db, ts[1..]);
    i := i + 1;
    forall j | 0 <= j < i ensures !Bars(db, ts[j]) {
      assert j > 0 ==> ts[j] == ts[1..][j - 1];
    }
  }

  lemma UnionIs(db: Db, t: Uuid)
    ensures AdmittedUnion(db, t) <==> WentIn(db, t)
  {
    hide Did, Has;
    NotVoid(db, t);
  }

  /** What an exchange is answered: its repeat changes nothing; it needs a source order, with as
      many tickets as it issues, none of which is void or went in; the ticket of least id that
      is in the way names the reason. */
  lemma SwitchRefusals(cfg: Config, db: Db, x: Switch, now: Time)
    ensures var r := SwitchExchange(cfg, db, x, now);
            var source := Ordered(db, x.organizer, x.order);
            && (x.event in db.consumed ==> r == Ok(db))
            && (x.event !in db.consumed && (source == {} || |source| < |x.tickets|) ==> r == Err(ExchangeNotIssued))
            && (x.event !in db.consumed && source != {} && |source| >= |x.tickets| ==>
                  forall t | t in source && Bars(db, t) && (forall u | u in source && Bars(db, u) :: t <= u) :: r == Err(WhyBarred(db, t)))
  {
    hide VoidAll, InsertAll, Obstacle, OrderTickets, Bars, WhyBarred;
    var all := OrderTickets(db, x.order, x.organizer);
    OrderIsListed(db, x.organizer, x.order);
    var i := FirstBar(db, all);
    forall t | t in all && Bars(db, t) && forall u | u in all && Bars(db, u) :: t <= u
      ensures i < |all| && all[i] == t
    {
      var k :| 0 <= k < |all| && all[k] == t;
      OrderIncreases(db, x.organizer, x.order);
    }
  }

  lemma OrderIncreases(db: Db, organizer: Uuid, order: Uuid)
    ensures Increasing(OrderTickets(db, order, organizer))
  {
    AscendingIncreases(Ordered(db, organizer, order));
  }

  /** What was on record stays; the source is void, all of it, and the replacement is issued. */
  ghost predicate Switched(a: Db, b: Db, source: set<Uuid>, x: Switch, now: Time) {
    && (forall e | e in a.trail.events :: e in b.trail.events && b.trail.events[e] == a.trail.events[e])
    && (forall t | t in source :: ExchangedId(x.exchange, t) in b.trail.events
          && b.trail.events[ExchangedId(x.exchange, t)] == EventRow(t, Exchanged, now))
    && (forall n | n in x.tickets :: n.id in b.tickets && b.tickets[n.id] == n.who
          && IssuedId(n.id) in b.trail.events && b.trail.events[IssuedId(n.id)] == EventRow(n.id, Issued, n.issuedAt))
    && (forall t | t in a.tickets :: t in b.tickets && b.tickets[t] == a.tickets[t])
    && (forall t | t in b.tickets && t !in a.tickets :: exists n :: n in x.tickets && t == n.id)
    && (forall e | e in b.trail.events && e !in a.trail.events ::
          (exists t :: t in source && e == ExchangedId(x.exchange, t)) || exists n :: n in x.tickets && e == IssuedId(n.id))
  }

  lemma BothAreAdded(db: Db, voided: Db, after: Db, source: set<Uuid>, ts: seq<Uuid>, x: Switch, now: Time)
    requires (forall t | t in source :: t in ts) && (forall t | t in ts :: t in source)
    requires voided.tickets == db.tickets && AddsVoids(db, voided, ts, ByExchange(x.exchange), now) && AddsTickets(voided, after, x.tickets)
    ensures Switched(db, after, source, x, now)
  {
    forall t | t in source
      ensures ExchangedId(x.exchange, t) in after.trail.events
              && after.trail.events[ExchangedId(x.exchange, t)] == EventRow(t, Exchanged, now)
    {
      assert ByExchange(x.exchange).Id(t) in voided.trail.events;
    }
    forall e | e in after.trail.events && e !in db.trail.events && !(exists n :: n in x.tickets && e == IssuedId(n.id))
      ensures exists t :: t in source && e == ExchangedId(x.exchange, t)
    {
      var t :| t in ts && e == ByExchange(x.exchange).Id(t);
      assert t in source && e == ExchangedId(x.exchange, t);
    }
  }

  lemma VoidsLeaveIssuing(db: Db, received: Db, voided: Db, ts: seq<Uuid>, ns: seq<NewTicket>)
    requires received == db.(consumed := received.consumed) && voided == received.(trail := voided.trail)
    requires forall t | t in ts :: t in db.tickets
    requires forall t, id: EventId, kind | t !in ts && !id.RefundedId? && !id.ExchangedId? ::
               CanRecord(voided, t, id, kind) <==> CanRecord(received, t, id, kind)
    ensures forall n | n in ns :: CanIssue(voided, n.id) <==> CanIssue(db, n.id)
  {
    hide CanRecord;
    forall n | n in ns ensures CanIssue(voided, n.id) <==> CanIssue(db, n.id) {
      assert CanRecord(received, n.id, IssuedId(n.id), Issued) <==> CanRecord(db, n.id, IssuedId(n.id), Issued) by {
        ReceivingLeavesRoom(db, received, n.id);
      }
    }
  }

  lemma ReceivingLeavesRoom(db: Db, received: Db, t: Uuid)
    requires received == db.(consumed := received.consumed)
    ensures CanRecord(received, t, IssuedId(t), Issued) <==> CanRecord(db, t, IssuedId(t), Issued)
  {
    TicketsHaveNoPart(db, received, t, IssuedId(t), Issued);
  }

  /** Otherwise it voids the whole source and issues the replacement, together, if and only if
      there is a signer and every void and every new ticket can be recorded. */
  lemma SwitchIff(cfg: Config, db: Db, x: Switch, now: Time)
    requires x.event !in db.consumed && Ordered(db, x.organizer, x.order) != {}
    requires |Ordered(db, x.organizer, x.order)| >= |x.tickets| && forall t | t in Ordered(db, x.organizer, x.order) :: !Bars(db, t)
    ensures var r := SwitchExchange(cfg, db, x, now);
            var source := Ordered(db, x.organizer, x.order);
            && (r.Ok? <==> && cfg.signer.Some? && (forall t | t in source :: CanVoid(db, t, ByExchange(x.exchange)))
                           && AllNew(x.tickets) && (forall n | n in x.tickets :: CanIssue(db, n.id)))
            && (r.Ok? ==> && r.value == db.(tickets := r.value.tickets, trail := r.value.trail, consumed := db.consumed + {x.event})
                          && Switched(db, r.value, source, x, now))
  {
    hide VoidAll, InsertAll, Obstacle, OrderTickets, Bars, CanVoid, CanIssue, AddsVoids, AddsTickets, Switched;
    var source := OrderTickets(db, x.order, x.organizer);
    OrderIsListed(db, x.organizer, x.order);
    var i := FirstBar(db, source);
    assert forall t :: t in source <==> t in Ordered(db, x.organizer, x.order);
    assert source[0] in source;
    var received := db.(consumed := db.consumed + {x.event});
    VoidAllIff(cfg, received, source, db.tickets[source[0]], ByExchange(x.exchange), now);
    ClaimingChangesNothing(db, received, source, ByExchange(x.exchange), now);
    var voided := VoidAll(cfg, received, source, db.tickets[source[0]], ByExchange(x.exchange), now);
    if voided.Ok? {
      InsertAllIff(cfg, voided.value, x.tickets);
      VoidsLeaveIssuing(db, received, voided.value, source, x.tickets);
      if InsertAll(cfg, voided.value, x.tickets).Ok? {
        BothAreAdded(db, voided.value, InsertAll(cfg, voided.value, x.tickets).value, Ordered(db, x.organizer, x.order), source, x, now);
      }
    }
  }
}
