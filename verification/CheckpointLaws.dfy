/** When the checkpoint worker signs, what it signs, and why it stops otherwise. */
module CheckpointLaws {
  import opened Basics
  import opened Canonical
  import opened Trail
  import opened Checkpoints
  import opened Signatures
  import Merkle
  import A = Appending

  // ---------------------------------------------------------------- what is waiting

  /** The change is queued for this organizer and no checkpoint took it. */
  predicate Waits(tickets: Tickets, organizer: Uuid, c: ChangeRow) {
    c.ticket in tickets && c.organizer == organizer && c.checkpoint.None?
  }

  predicate SomeWait(tickets: Tickets, organizer: Uuid, changes: seq<ChangeRow>) {
    exists k :: 0 <= k < |changes| && Waits(tickets, organizer, changes[k])
  }

  /** The last of its ticket that waits: a leaf of the next checkpoint. */
  predicate WaitsLast(tickets: Tickets, organizer: Uuid, changes: seq<ChangeRow>, k: int) {
    && 0 <= k < |changes| && Waits(tickets, organizer, changes[k])
    && forall j | k < j < |changes| && changes[j].ticket == changes[k].ticket :: !Waits(tickets, organizer, changes[j])
  }

  /** A change that may be signed over. */
  ghost predicate MayBeSigned(keys: Keys, tickets: Tickets, organizer: Uuid, c: ChangeRow) {
    c.ticket in tickets && tickets[c.ticket].organizer == organizer && SignedHead(keys, c.ticket, c.sequence, c.kid, c.hash, c.signature)
  }

  /** The waiting change that stops the worker: the first that may not be signed over. */
  ghost predicate Stops(keys: Keys, tickets: Tickets, organizer: Uuid, changes: seq<ChangeRow>, k: int) {
    && 0 <= k < |changes| && Waits(tickets, organizer, changes[k]) && !MayBeSigned(keys, tickets, organizer, changes[k])
    && forall j | 0 <= j < k && Waits(tickets, organizer, changes[j]) :: MayBeSigned(keys, tickets, organizer, changes[j])
  }

  /** The end of the organizer's chain. */
  ghost predicate IsLast(rows: seq<CheckpointRow>, organizer: Uuid, p: Position) {
    && (forall i | 0 <= i < |rows| && rows[i].checkpoint.organizer == organizer :: rows[i].checkpoint.sequence <= p.sequence)
    && (p == Position(0, GENESIS)
        || exists i :: 0 <= i < |rows| && rows[i].checkpoint.organizer == organizer
                       && rows[i].checkpoint.sequence == p.sequence && rows[i].checkpoint.root == p.root)
  }

  /** The stored chain is behind what this process saw, or parts from it. */
  predicate WentBack(stored: Position, observed: Position) {
    observed.sequence != 0 && (stored.sequence < observed.sequence || (stored.sequence == observed.sequence && stored.root != observed.root))
  }

  // ---------------------------------------------------------------- why it stops

  lemma {:induction false} FlawIs(keys: Keys, tickets: Tickets, organizer: Uuid, changes: seq<ChangeRow>, ids: seq<nat>)
    requires forall i | 0 <= i < |ids| :: ids[i] < |changes|
    ensures FirstFlaw(keys, tickets, organizer, changes, ids).None? <==>
              forall i | 0 <= i < |ids| :: MayBeSigned(keys, tickets, organizer, changes[ids[i]])
    ensures FirstFlaw(keys, tickets, organizer, changes, ids).Some? ==>
              exists i :: 0 <= i < |ids| && !MayBeSigned(keys, tickets, organizer, changes[ids[i]])
                          && (forall j | 0 <= j < i :: MayBeSigned(keys, tickets, organizer, changes[ids[j]]))
                          && FirstFlaw(keys, tickets, organizer, changes, ids).value == WhyNot(tickets, organizer, changes[ids[i]])
  {
    hide CanonicalHead;
    if ids != [] {
      var n := |ids| - 1;
      FlawIs(keys, tickets, organizer, changes, ids[..n]);
      if FirstFlaw(keys, tickets, organizer, changes, ids[..n]).Some? {
        var i :| 0 <= i < n && !MayBeSigned(keys, tickets, organizer, changes[ids[..n][i]])
                 && (forall j | 0 <= j < i :: MayBeSigned(keys, tickets, organizer, changes[ids[..n][j]]))
                 && FirstFlaw(keys, tickets, organizer, changes, ids[..n]).value == WhyNot(tickets, organizer, changes[ids[..n][i]]);
        assert ids[..n][i] == ids[i];
        assert forall j | 0 <= j < i :: ids[..n][j] == ids[j];
      } else {
        assert forall j | 0 <= j < n :: ids[..n][j] == ids[j];
      }
    }
  }

  /** What is wrong with a change that may not be signed over. */
  function WhyNot(tickets: Tickets, organizer: Uuid, c: ChangeRow): Refusal {
    if c.ticket !in tickets || tickets[c.ticket].organizer != organizer then ForeignChange else NotASignedHead
  }

  /** The worker needs its signer; with nothing waiting it then changes nothing; with something
      waiting it needs the keys, and the first waiting change that is not a signed head of a
      ticket of the organizer stops it. */
  lemma WorkerRefuses(keys: Keys, signer: Option<string>, tickets: Tickets, changes: seq<ChangeRow>,
                      rows: seq<CheckpointRow>, organizer: Uuid, observed: Position, now: Time)
    ensures var r := CheckpointOrganizer(keys, signer, tickets, changes, rows, organizer, observed, now);
            && (signer.None? ==> r == Err(NoSigner))
            && (signer.Some? && !SomeWait(tickets, organizer, changes) ==> r == Ok(Signed(changes, rows, None)))
            && (signer.Some? && SomeWait(tickets, organizer, changes) && keys.keyring.None? ==> r == Err(NoKeyring))
            && (signer.Some? && keys.keyring.Some? ==>
                  forall k | Stops(keys, tickets, organizer, changes, k) :: r == Err(WhyNot(tickets, organizer, changes[k])))
  {
    hide FirstFlaw, LatestOf, Selected, MayBeSigned, LastOf, Regressed, NewCheckpoint, Assign;
    NothingWaits(tickets, organizer, changes);
    var ids := Selected(tickets, changes, PendingOf(organizer));
    FlawIs(keys, tickets, organizer, changes, ids);
    forall k | Stops(keys, tickets, organizer, changes, k)
      ensures SomeWait(tickets, organizer, changes)
      ensures FirstFlaw(keys, tickets, organizer, changes, ids) == Some(WhyNot(tickets, organizer, changes[k]))
    {
      FirstStop(keys, tickets, organizer, changes, ids, k);
    }
  }

  lemma NothingWaits(tickets: Tickets, organizer: Uuid, changes: seq<ChangeRow>)
    ensures |LatestOf(tickets, changes, PendingOf(organizer))| == 0 <==> !SomeWait(tickets, organizer, changes)
  {
    hide LatestOf;
    var latest := LatestOf(tickets, changes, PendingOf(organizer));
    forall t
      ensures t in latest <==> exists k :: 0 <= k < |changes| && changes[k].ticket == t && Waits(tickets, organizer, changes[k])
    {
      LatestIsLast(tickets, changes, PendingOf(organizer), t);
      assert forall k | 0 <= k < |changes| :: PendingOf(organizer).Picks(tickets, changes[k]) <==> Waits(tickets, organizer, changes[k]);
    }
    if SomeWait(tickets, organizer, changes) {
      var k :| 0 <= k < |changes| && Waits(tickets, organizer, changes[k]);
      assert changes[k].ticket in latest;
    }
    if |latest| != 0 {
      var t :| t in latest;
    }
  }

  lemma FirstStop(keys: Keys, tickets: Tickets, organizer: Uuid, changes: seq<ChangeRow>, ids: seq<nat>, k: int)
    requires Stops(keys, tickets, organizer, changes, k)
    requires forall i | 0 <= i < |ids| :: ids[i] < |changes| && Waits(tickets, organizer, changes[ids[i]])
    requires forall i, j | 0 <= i < j < |ids| :: ids[i] < ids[j]
    requires forall n | 0 <= n < |changes| && Waits(tickets, organizer, changes[n]) :: n in ids
    ensures FirstFlaw(keys, tickets, organizer, changes, ids) == Some(WhyNot(tickets, organizer, changes[k]))
  {
    hide FirstFlaw, MayBeSigned;
    FlawIs(keys, tickets, organizer, changes, ids);
    assert k in ids;
    var m :| 0 <= m < |ids| && ids[m] == k;
    var i :| 0 <= i < |ids| && !MayBeSigned(keys, tickets, organizer, changes[ids[i]])
             && (forall j | 0 <= j < i :: MayBeSigned(keys, tickets, organizer, changes[ids[j]]))
             && FirstFlaw(keys, tickets, organizer, changes, ids).value == WhyNot(tickets, organizer, changes[ids[i]]);
    assert i == m;
  }

  // ---------------------------------------------------------------- what it signs

  /** A leaf of the next checkpoint: the last waiting change of a ticket. */
  ghost predicate NextLeaf(tickets: Tickets, organizer: Uuid, changes: seq<ChangeRow>, l: Leaf) {
    exists k :: WaitsLast(tickets, organizer, changes, k) && l == Leaf(changes[k].ticket, changes[k].sequence, changes[k].hash)
  }

  /** The next row of the organizer's chain, signed over those leaves. */
  ghost predicate NextRow(s: Suite, kid: string, tickets: Tickets, changes: seq<ChangeRow>, rows: seq<CheckpointRow>,
                          organizer: Uuid, now: Time, row: CheckpointRow) {
    var c := row.checkpoint;
    && row.version == CANONICAL_VERSION && row.signature == s.sign(kid, CanonicalCheckpoint(s, c))
    && c.organizer == organizer && c.kid == kid && c.createdAt == now
    && (exists p :: IsLast(rows, organizer, p) && c.sequence == p.sequence + 1 && c.previousRoot == p.root)
    && exists leaves :: Summarises(s, c, leaves) && forall l :: l in leaves <==> NextLeaf(tickets, organizer, changes, l)
  }

  /** The checkpoint has this many leaves and their root, whatever their order. */
  ghost predicate Summarises(s: Suite, c: Checkpoint, leaves: seq<Leaf>) {
    Merkle.DistinctTickets(leaves) && |leaves| == c.leafCount > 0 && c.root == Merkle.Root(s, leaves)
  }

  /** The waiting changes, all of them, are now taken by checkpoint `id`; no other changed. */
  predicate TakesAll(tickets: Tickets, organizer: Uuid, changes: seq<ChangeRow>, next: seq<ChangeRow>, id: nat) {
    && |next| == |changes|
    && forall k | 0 <= k < |changes| ::
         next[k] == if Waits(tickets, organizer, changes[k]) then changes[k].(checkpoint := Some(id)) else changes[k]
  }

  ghost predicate NothingStops(keys: Keys, tickets: Tickets, organizer: Uuid, changes: seq<ChangeRow>) {
    forall k | 0 <= k < |changes| && Waits(tickets, organizer, changes[k]) :: MayBeSigned(keys, tickets, organizer, changes[k])
  }

  /** With something waiting and nothing to stop it, the worker signs the next row over all that
      waits and takes it, if and only if the stored chain did not go back. */
  lemma WorkerSignsIff(keys: Keys, signer: Option<string>, tickets: Tickets, changes: seq<ChangeRow>,
                       rows: seq<CheckpointRow>, organizer: Uuid, observed: Position, now: Time)
    requires signer.Some? && keys.keyring.Some? && SomeWait(tickets, organizer, changes)
    requires NothingStops(keys, tickets, organizer, changes)
    ensures var r := CheckpointOrganizer(keys, signer, tickets, changes, rows, organizer, observed, now);
            && (r.Ok? <==> !WentBack(LastOf(rows, organizer), observed))
            && (!r.Ok? ==> r == Err(Regression))
            && IsLast(rows, organizer, LastOf(rows, organizer))
            && (r.Ok? ==>
                  && |r.value.rows| == |rows| + 1 && r.value.rows[..|rows|] == rows
                  && NextRow(keys.suite, signer.value, tickets, changes, rows, organizer, now, r.value.rows[|rows|])
                  && TakesAll(tickets, organizer, changes, r.value.changes, |rows|)
                  && r.value.position == Some(Position(r.value.rows[|rows|].checkpoint.sequence, r.value.rows[|rows|].checkpoint.root)))
  {
    hide FirstFlaw, LatestOf, Selected, MayBeSigned, LastOf, NextRow, NewCheckpoint, TakesAll;
    NothingWaits(tickets, organizer, changes);
    FlawIs(keys, tickets, organizer, changes, Selected(tickets, changes, PendingOf(organizer)));
    NewRowIsNext(keys.suite, signer.value, tickets, changes, rows, organizer, now);
    AllAreTaken(tickets, organizer, changes, |rows|);
  }

  lemma AllAreTaken(tickets: Tickets, organizer: Uuid, changes: seq<ChangeRow>, id: nat)
    ensures TakesAll(tickets, organizer, changes, Assign(tickets, changes, PendingOf(organizer), id), id)
  {
  }

  lemma NewRowIsNext(s: Suite, kid: string, tickets: Tickets, changes: seq<ChangeRow>, rows: seq<CheckpointRow>, organizer: Uuid, now: Time)
    requires |LatestOf(tickets, changes, PendingOf(organizer))| > 0
    ensures NextRow(s, kid, tickets, changes, rows, organizer, now,
                    NewCheckpoint(s, organizer, LastOf(rows, organizer), LatestOf(tickets, changes, PendingOf(organizer)), kid, now))
  {
    hide LatestOf, LastOf, LeavesOf, Merkle.Root, CanonicalCheckpoint, NextLeaf, Keyed, Merkle.DistinctTickets;
    var latest := LatestOf(tickets, changes, PendingOf(organizer));
    LatestIsKeyed(tickets, changes, PendingOf(organizer));
    LeavesAreAccepted(latest);
    assert IsLast(rows, organizer, LastOf(rows, organizer));
    assert Summarises(s, NewCheckpoint(s, organizer, LastOf(rows, organizer), latest, kid, now).checkpoint, LeavesOf(latest));
    forall l: Leaf
      ensures l in LeavesOf(latest) <==> NextLeaf(tickets, organizer, changes, l)
    {
      LeafIsLastWaiting(tickets, organizer, changes, l);
    }
  }

  lemma LeafIsLastWaiting(tickets: Tickets, organizer: Uuid, changes: seq<ChangeRow>, l: Leaf)
    ensures var latest := LatestOf(tickets, changes, PendingOf(organizer));
            l.ticket in latest && l == LeafOf(latest[l.ticket]) <==> NextLeaf(tickets, organizer, changes, l)
  {
    hide LatestOf;
    var p := PendingOf(organizer);
    var latest := LatestOf(tickets, changes, p);
    LatestIsLast(tickets, changes, p, l.ticket);
    assert forall c :: p.Picks(tickets, c) <==> Waits(tickets, organizer, c);
    if l.ticket in latest {
      var k :| 0 <= k < |changes| && changes[k].ticket == l.ticket && p.Picks(tickets, changes[k])
               && latest[l.ticket] == Snapshot(changes[k])
               && forall j | k < j < |changes| :: !(changes[j].ticket == l.ticket && p.Picks(tickets, changes[j]));
      assert WaitsLast(tickets, organizer, changes, k);
      OneLastWaiting(tickets, organizer, changes, k);
    }
  }

  lemma OneLastWaiting(tickets: Tickets, organizer: Uuid, changes: seq<ChangeRow>, k: int)
    requires WaitsLast(tickets, organizer, changes, k)
    ensures forall m | WaitsLast(tickets, organizer, changes, m) && changes[m].ticket == changes[k].ticket :: m == k
  {
  }
}
