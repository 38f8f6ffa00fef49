/** Delta checkpoints: what the worker signs, and how the offline verifier rebuilds it. */
module Checkpoints {
  import opened Basics
  import opened Canonical
  import opened Trail
  import Merkle
  import A = Appending

  datatype CheckpointRow = CheckpointRow(checkpoint: Checkpoint, version: nat, signature: string)

  datatype EpochRow = EpochRow(sequence: nat, version: nat, hash: Digest, signature: string)

  /** A position in an organizer's checkpoint chain; sequence zero means "none". */
  datatype Position = Position(sequence: nat, root: Digest)

  const START := Position(0, GENESIS)

  // ---------------------------------------------------------------- leaves of a delta

  /** Which queued changes a query selects: an organizer's pending ones, or those a
      checkpoint took.  Both join the ticket. */
  datatype Pick = PendingOf(organizer: Uuid) | TakenBy(checkpoint: nat)
  {
    predicate Picks(tickets: Tickets, c: ChangeRow) {
      c.ticket in tickets &&
      match this
      case PendingOf(o) => c.organizer == o && c.checkpoint.None?
      case TakenBy(i) => c.checkpoint == Some(i)
    }
  }

  type Latest = map<Uuid, ChangeRow>

  /** A change without its assignment: the part that is immutable. */
  function Snapshot(c: ChangeRow): ChangeRow {
    c.(checkpoint := None)
  }

  /** The latest selected snapshot of each ticket. */
  function LatestOf(tickets: Tickets, changes: seq<ChangeRow>, p: Pick): Latest {
    if changes == [] then map[]
    else
      var n := |changes| - 1;
      var before := LatestOf(tickets, changes[..n], p);
      if p.Picks(tickets, changes[n]) then before[changes[n].ticket := Snapshot(changes[n])] else before
  }

  /** A ticket has a leaf when a change of it is selected, and the leaf is its last one. */
  lemma {:induction false} LatestIsLast(tickets: Tickets, changes: seq<ChangeRow>, p: Pick, t: Uuid)
    ensures t in LatestOf(tickets, changes, p) <==>
            exists k :: 0 <= k < |changes| && changes[k].ticket == t && p.Picks(tickets, changes[k])
    ensures t in LatestOf(tickets, changes, p) ==>
            exists k :: 0 <= k < |changes| && changes[k].ticket == t && p.Picks(tickets, changes[k])
                        && LatestOf(tickets, changes, p)[t] == Snapshot(changes[k])
                        && forall j | k < j < |changes| :: !(changes[j].ticket == t && p.Picks(tickets, changes[j]))
  {
    if changes != [] {
      var n := |changes| - 1;
      var front := changes[..n];
      LatestIsLast(tickets, front, p, t);
      if changes[n].ticket == t && p.Picks(tickets, changes[n]) {
      } else if t in LatestOf(tickets, front, p) {
        var k :| 0 <= k < |front| && front[k].ticket == t && p.Picks(tickets, front[k])
                 && LatestOf(tickets, front, p)[t] == Snapshot(front[k])
                 && forall j | k < j < |front| :: !(front[j].ticket == t && p.Picks(tickets, front[j]));
        assert changes[k] == front[k];
        assert forall j | k < j < n :: changes[j] == front[j];
      } else {
        assert forall j | 0 <= j < n :: changes[j] == front[j];
      }
    }
  }

  /** Selections that agree row by row on the same snapshots give the same leaves. */
  lemma {:induction false} SameSelection(tickets: Tickets, a: seq<ChangeRow>, p: Pick,
                                         tickets': Tickets, b: seq<ChangeRow>, q: Pick)
    requires |a| == |b|
    requires forall k | 0 <= k < |a| :: Snapshot(a[k]) == Snapshot(b[k])
    requires forall k | 0 <= k < |a| :: p.Picks(tickets, a[k]) <==> q.Picks(tickets', b[k])
    ensures LatestOf(tickets, a, p) == LatestOf(tickets', b, q)
  {
    if a != [] {
      var n := |a| - 1;
      assert forall k | 0 <= k < n :: a[..n][k] == a[k] && b[..n][k] == b[k];
      SameSelection(tickets, a[..n], p, tickets', b[..n], q);
      assert a[n].ticket == Snapshot(a[n]).ticket == Snapshot(b[n]).ticket == b[n].ticket;
    }
  }

  /** Rows a selection does not pick add nothing to it. */
  lemma {:induction false} UnpickedRows(tickets: Tickets, changes: seq<ChangeRow>, more: seq<ChangeRow>, p: Pick)
    requires forall k | 0 <= k < |more| :: !p.Picks(tickets, more[k])
    ensures LatestOf(tickets, changes + more, p) == LatestOf(tickets, changes, p)
  {
    if more == [] {
      assert changes + more == changes;
    } else {
      var n := |more| - 1;
      assert (changes + more)[..|changes| + n] == changes + more[..n];
      UnpickedRows(tickets, changes, more[..n], p);
    }
  }

  function LeafOf(c: ChangeRow): Leaf {
    Leaf(c.ticket, c.sequence, c.hash)
  }

  /** `ORDER BY ticket_id`. */
  function LeavesOf(latest: Latest): (leaves: seq<Leaf>)
    ensures |leaves| == |latest|
  {
    var ts := Ascending(latest.Keys);
    seq(|ts|, i requires 0 <= i < |ts| => assert ts[i] in ts; LeafOf(latest[ts[i]]))
  }

  /** Every leaf is filed under its own ticket. */
  ghost predicate Keyed(latest: Latest) {
    forall t | t in latest :: latest[t].ticket == t
  }

  lemma {:induction false} LatestIsKeyed(tickets: Tickets, changes: seq<ChangeRow>, p: Pick)
    ensures Keyed(LatestOf(tickets, changes, p))
    ensures forall t | t in LatestOf(tickets, changes, p) :: t in tickets
  {
    if changes != [] {
      LatestIsKeyed(tickets, changes[..|changes| - 1], p);
    }
  }

  lemma LeavesAreAccepted(latest: Latest)
    requires Keyed(latest)
    ensures Merkle.DistinctTickets(LeavesOf(latest))
    ensures forall l: Leaf :: l in LeavesOf(latest) <==> l.ticket in latest && l == LeafOf(latest[l.ticket])
  {
    var ts, ls := Ascending(latest.Keys), LeavesOf(latest);
    forall i | 0 <= i < |ts|
      ensures ls[i] == LeafOf(latest[ts[i]]) && ls[i].ticket == ts[i]
    {
      assert ts[i] in ts;
    }
    forall l: Leaf | l.ticket in latest && l == LeafOf(latest[l.ticket])
      ensures l in ls
    {
      assert l.ticket in ts;
      var i :| 0 <= i < |ts| && ts[i] == l.ticket;
      assert ls[i] == l;
    }
  }

  // ---------------------------------------------------------------- when a chain is sound

  /** An authentic leaf: a signed head of a ticket that belongs to the organizer. */
  predicate LeafOk(keys: Keys, tickets: Tickets, organizer: Uuid, c: ChangeRow) {
    && c.version == CANONICAL_VERSION
    && c.ticket in tickets && tickets[c.ticket].organizer == organizer
    && keys.VerifyHead(c.ticket, c.sequence, c.kid, c.hash, c.signature)
  }

  predicate LeavesOk(keys: Keys, tickets: Tickets, organizer: Uuid, latest: Latest) {
    forall t | t in latest :: LeafOk(keys, tickets, organizer, latest[t])
  }

  /** A stored checkpoint is what its archived changes say it is. */
  predicate CheckpointOk(keys: Keys, tickets: Tickets, latest: Latest, row: CheckpointRow) {
    && row.version == CANONICAL_VERSION
    && LeavesOk(keys, tickets, row.checkpoint.organizer, latest)
    && |latest| == row.checkpoint.leafCount && |latest| > 0
    && row.checkpoint.root == Merkle.Root(keys.suite, LeavesOf(latest))
    && keys.VerifyCheckpoint(row.checkpoint, row.signature)
  }

  predicate SameChain(a: CheckpointRow, b: CheckpointRow) {
    a.checkpoint.organizer == b.checkpoint.organizer
  }

  predicate Follows(a: CheckpointRow, b: CheckpointRow) {
    SameChain(a, b) && b.checkpoint.sequence == a.checkpoint.sequence + 1 && b.checkpoint.previousRoot == a.checkpoint.root
  }

  /** A row starts its organizer's chain or follows another row of it. */
  ghost predicate Placed(rows: seq<CheckpointRow>, i: nat)
    requires i < |rows|
  {
    || (rows[i].checkpoint.sequence == 1 && rows[i].checkpoint.previousRoot == GENESIS)
    || (rows[i].checkpoint.sequence > 1 && exists j | 0 <= j < |rows| :: Follows(rows[j], rows[i]))
  }

  /** The unique index on organizer and sequence. */
  ghost predicate UniquePositions(rows: seq<CheckpointRow>) {
    forall i, j | 0 <= i < j < |rows| :: !(SameChain(rows[i], rows[j]) && rows[i].checkpoint.sequence == rows[j].checkpoint.sequence)
  }

  /** What the checkpoint pass decides. */
  ghost predicate ChainsOk(keys: Keys, tickets: Tickets, changes: seq<ChangeRow>, rows: seq<CheckpointRow>) {
    forall i | 0 <= i < |rows| :: RowAccepted(keys, tickets, changes, rows, i)
  }

  ghost predicate RowAccepted(keys: Keys, tickets: Tickets, changes: seq<ChangeRow>, rows: seq<CheckpointRow>, i: nat)
    requires i < |rows|
  {
    Placed(rows, i) && CheckpointOk(keys, tickets, LatestOf(tickets, changes, TakenBy(i)), rows[i])
  }

  /** The foreign key of an assignment. */
  predicate AssignmentsExist(changes: seq<ChangeRow>, rows: seq<CheckpointRow>) {
    forall k | 0 <= k < |changes| && changes[k].checkpoint.Some? :: changes[k].checkpoint.value < |rows|
  }

  ghost predicate Sound(keys: Keys, tickets: Tickets, changes: seq<ChangeRow>, rows: seq<CheckpointRow>) {
    UniquePositions(rows) && AssignmentsExist(changes, rows) && ChainsOk(keys, tickets, changes, rows)
  }

  // ---------------------------------------------------------------- one checkpoint

  /** `ORDER BY sequence DESC LIMIT 1`. */
  function LastOf(rows: seq<CheckpointRow>, organizer: Uuid): (p: Position)
    ensures forall i | 0 <= i < |rows| && rows[i].checkpoint.organizer == organizer :: rows[i].checkpoint.sequence <= p.sequence
    ensures p == START || exists i | 0 <= i < |rows| :: rows[i].checkpoint.organizer == organizer
                              && p == Position(rows[i].checkpoint.sequence, rows[i].checkpoint.root)
  {
    if rows == [] then START
    else
      var n := |rows| - 1;
      var c, p := rows[n].checkpoint, LastOf(rows[..n], organizer);
      if c.organizer == organizer && c.sequence >= p.sequence then Position(c.sequence, c.root) else p
  }

  datatype Refusal = NoSigner | NoKeyring | ForeignChange | NotASignedHead | Regression

  /** Pending changes that are not signed heads of the organizer's tickets stop the worker.
      Unlike the offline verifier it does not read their version. */
  predicate Authentic(keys: Keys, tickets: Tickets, organizer: Uuid, c: ChangeRow) {
    && c.ticket in tickets && tickets[c.ticket].organizer == organizer
    && keys.VerifyHead(c.ticket, c.sequence, c.kid, c.hash, c.signature)
  }

  /** The stored chain went backwards relative to what this process last saw. */
  predicate Regressed(stored: Position, observed: Position) {
    observed.sequence > 0 &&
    (stored.sequence < observed.sequence || (stored.sequence == observed.sequence && stored.root != observed.root))
  }

  function NewCheckpoint(s: Suite, organizer: Uuid, prev: Position, latest: Latest, kid: string, now: Time): CheckpointRow
    requires |latest| > 0
  {
    var c := Checkpoint(organizer, prev.sequence + 1, prev.root, Merkle.Root(s, LeavesOf(latest)), |latest|, kid, now);
    CheckpointRow(c, CANONICAL_VERSION, s.sign(kid, CanonicalCheckpoint(s, c)))
  }

  /** Every selected change is assigned, not only the latest of each ticket. */
  function Assign(tickets: Tickets, changes: seq<ChangeRow>, p: Pick, id: nat): (next: seq<ChangeRow>)
    ensures |next| == |changes|
  {
    seq(|changes|, k requires 0 <= k < |changes| =>
      if p.Picks(tickets, changes[k]) then changes[k].(checkpoint := Some(id)) else changes[k])
  }

  /** Signing a checkpoint over authentic changes keeps every chain sound, and the new root
      is rebuilt from the archive exactly as it was signed. */
  lemma CheckpointKeepsSound(keys: Keys, tickets: Tickets, changes: seq<ChangeRow>, rows: seq<CheckpointRow>,
                             organizer: Uuid, kid: string, now: Time)
    requires A.CanSign(keys, kid) && Sound(keys, tickets, changes, rows)
    requires forall k | 0 <= k < |changes| && PendingOf(organizer).Picks(tickets, changes[k]) ::
               LeafOk(keys, tickets, organizer, changes[k])
    requires |LatestOf(tickets, changes, PendingOf(organizer))| > 0
    ensures var row := NewCheckpoint(keys.suite, organizer, LastOf(rows, organizer),
                                     LatestOf(tickets, changes, PendingOf(organizer)), kid, now);
            Sound(keys, tickets, Assign(tickets, changes, PendingOf(organizer), |rows|), rows + [row])
  {
    hide Placed, CheckpointOk, LatestOf, LastOf, UniquePositions, AssignmentsExist, Merkle.Root, LeavesOf, LeafOk, CanonicalCheckpoint;
    SoundParts(keys, tickets, changes, rows);
    var p := PendingOf(organizer);
    var row := NewCheckpoint(keys.suite, organizer, LastOf(rows, organizer), LatestOf(tickets, changes, p), kid, now);
    NewRowOk(keys, tickets, changes, rows, organizer, kid, now);
    OldRowsStayOk(keys, tickets, changes, rows, p, row);
    SoundParts(keys, tickets, Assign(tickets, changes, p, |rows|), rows + [row]);
  }

  /** Unfolding what soundness says. */
  lemma SoundParts(keys: Keys, tickets: Tickets, changes: seq<ChangeRow>, rows: seq<CheckpointRow>)
    ensures Sound(keys, tickets, changes, rows) <==>
            && UniquePositions(rows) && AssignmentsExist(changes, rows)
            && forall i | 0 <= i < |rows| :: RowAccepted(keys, tickets, changes, rows, i)
  {
    hide RowAccepted, UniquePositions, AssignmentsExist;
  }

  lemma NewRowOk(keys: Keys, tickets: Tickets, changes: seq<ChangeRow>, rows: seq<CheckpointRow>,
                 organizer: Uuid, kid: string, now: Time)
    requires A.CanSign(keys, kid) && AssignmentsExist(changes, rows)
    requires forall k | 0 <= k < |changes| && PendingOf(organizer).Picks(tickets, changes[k]) ::
               LeafOk(keys, tickets, organizer, changes[k])
    requires |LatestOf(tickets, changes, PendingOf(organizer))| > 0
    ensures var p := PendingOf(organizer);
            var row := NewCheckpoint(keys.suite, organizer, LastOf(rows, organizer), LatestOf(tickets, changes, p), kid, now);
            CheckpointOk(keys, tickets, LatestOf(tickets, Assign(tickets, changes, p, |rows|), TakenBy(|rows|)), row)
  {
    hide CanonicalCheckpoint, Merkle.Root, LeavesOf, LeafOk, Suite.WellFormed, LastOf, LatestOf;
    var p := PendingOf(organizer);
    var latest := LatestOf(tickets, changes, p);
    SameSelection(tickets, changes, p, tickets, Assign(tickets, changes, p, |rows|), TakenBy(|rows|));
    PendingLeavesOk(keys, tickets, changes, organizer);
    SignatureHolds(keys, kid, NewCheckpoint(keys.suite, organizer, LastOf(rows, organizer), latest, kid, now));
  }

  lemma OldRowsStayOk(keys: Keys, tickets: Tickets, changes: seq<ChangeRow>, rows: seq<CheckpointRow>, p: Pick, row: CheckpointRow)
    requires p.PendingOf? && Sound(keys, tickets, changes, rows)
    requires var prev := LastOf(rows, row.checkpoint.organizer);
             row.checkpoint.sequence == prev.sequence + 1 && row.checkpoint.previousRoot == prev.root
    ensures var rows' := rows + [row];
            var changes' := Assign(tickets, changes, p, |rows|);
            && UniquePositions(rows') && AssignmentsExist(changes', rows')
            && (forall i | 0 <= i < |rows'| :: Placed(rows', i))
            && forall i | 0 <= i < |rows| :: CheckpointOk(keys, tickets, LatestOf(tickets, changes', TakenBy(i)), rows'[i])
  {
    hide CheckpointOk, Placed, LastOf, LatestOf, UniquePositions;
    var changes', rows' := Assign(tickets, changes, p, |rows|), rows + [row];
    PlacedIsPositive(keys, tickets, changes, rows);
    NewRowIsPlaced(rows, row);
    NewPositionIsFree(rows, row);
    forall i | 0 <= i < |rows|
      ensures Placed(rows', i) && CheckpointOk(keys, tickets, LatestOf(tickets, changes', TakenBy(i)), rows'[i])
    {
      assert RowAccepted(keys, tickets, changes, rows, i);
      SameSelection(tickets, changes, TakenBy(i), tickets, changes', TakenBy(i));
      PlacedStays(rows, row, i);
    }
  }

  lemma SignatureHolds(keys: Keys, kid: string, row: CheckpointRow)
    requires A.CanSign(keys, kid) && row.checkpoint.kid == kid
    requires row.signature == keys.suite.sign(kid, CanonicalCheckpoint(keys.suite, row.checkpoint))
    ensures keys.VerifyCheckpoint(row.checkpoint, row.signature)
  {
  }

  lemma PendingLeavesOk(keys: Keys, tickets: Tickets, changes: seq<ChangeRow>, organizer: Uuid)
    requires forall k | 0 <= k < |changes| && PendingOf(organizer).Picks(tickets, changes[k]) ::
               LeafOk(keys, tickets, organizer, changes[k])
    ensures LeavesOk(keys, tickets, organizer, LatestOf(tickets, changes, PendingOf(organizer)))
  {
    hide Keys.VerifyHead;
    var latest := LatestOf(tickets, changes, PendingOf(organizer));
    forall t | t in latest
      ensures LeafOk(keys, tickets, organizer, latest[t])
    {
      LatestIsLast(tickets, changes, PendingOf(organizer), t);
    }
  }

  lemma PlacedStays(rows: seq<CheckpointRow>, row: CheckpointRow, i: nat)
    requires i < |rows| && Placed(rows, i)
    ensures Placed(rows + [row], i)
  {
    var rows' := rows + [row];
    if rows[i].checkpoint.sequence > 1 {
      var j :| 0 <= j < |rows| && Follows(rows[j], rows[i]);
      assert Follows(rows'[j], rows'[i]);
    }
  }

  lemma PlacedIsPositive(keys: Keys, tickets: Tickets, changes: seq<ChangeRow>, rows: seq<CheckpointRow>)
    requires ChainsOk(keys, tickets, changes, rows)
    ensures forall i | 0 <= i < |rows| :: rows[i].checkpoint.sequence > 0
  {
    hide Follows, CheckpointOk;
    forall i | 0 <= i < |rows|
      ensures rows[i].checkpoint.sequence > 0
    {
      assert RowAccepted(keys, tickets, changes, rows, i);
    }
  }

  lemma NewRowIsPlaced(rows: seq<CheckpointRow>, row: CheckpointRow)
    requires forall i | 0 <= i < |rows| :: rows[i].checkpoint.sequence > 0
    requires var prev := LastOf(rows, row.checkpoint.organizer);
             row.checkpoint.sequence == prev.sequence + 1 && row.checkpoint.previousRoot == prev.root
    ensures Placed(rows + [row], |rows|)
  {
    var rows', prev := rows + [row], LastOf(rows, row.checkpoint.organizer);
    if prev != START {
      var i :| 0 <= i < |rows| && rows[i].checkpoint.organizer == row.checkpoint.organizer
               && prev == Position(rows[i].checkpoint.sequence, rows[i].checkpoint.root);
      assert Follows(rows'[i], rows'[|rows|]);
    }
  }

  lemma NewPositionIsFree(rows: seq<CheckpointRow>, row: CheckpointRow)
    requires UniquePositions(rows)
    requires row.checkpoint.sequence == LastOf(rows, row.checkpoint.organizer).sequence + 1
    ensures UniquePositions(rows + [row])
  {
  }

  /** Appending a change, or registering a ticket, leaves every archived leaf as it was. */
  lemma ArchiveIsStable(keys: Keys, tickets: Tickets, changes: seq<ChangeRow>, rows: seq<CheckpointRow>,
                        tickets': Tickets, more: seq<ChangeRow>)
    requires Sound(keys, tickets, changes, rows)
    requires forall k | 0 <= k < |changes| :: changes[k].ticket in tickets
    requires forall t | t in tickets :: t in tickets' && tickets'[t] == tickets[t]
    requires forall k | 0 <= k < |more| :: more[k].checkpoint.None?
    ensures Sound(keys, tickets', changes + more, rows)
  {
    hide Merkle.Root, LeavesOf, Keys.VerifyHead, Keys.VerifyCheckpoint, Placed, UniquePositions;
    forall i | 0 <= i < |rows|
      ensures RowAccepted(keys, tickets', changes + more, rows, i)
    {
      assert RowAccepted(keys, tickets, changes, rows, i);
      UnpickedRows(tickets', changes, more, TakenBy(i));
      SameSelection(tickets, changes, TakenBy(i), tickets', changes, TakenBy(i));
    }
  }

  // ---------------------------------------------------------------- the worker

  /** The positions a query selects, in id order. */
  function Selected(tickets: Tickets, changes: seq<ChangeRow>, p: Pick): (ids: seq<nat>)
    ensures forall i | 0 <= i < |ids| :: ids[i] < |changes|
    ensures forall i, j | 0 <= i < j < |ids| :: ids[i] < ids[j]
    ensures forall k :: k in ids <==> 0 <= k < |changes| && p.Picks(tickets, changes[k])
  {
    if changes == [] then []
    else
      var n := |changes| - 1;
      var before := Selected(tickets, changes[..n], p);
      if p.Picks(tickets, changes[n]) then before + [n] else before
  }

  function LatestAmong(changes: seq<ChangeRow>, ids: seq<nat>): (latest: Latest)
    requires forall i | 0 <= i < |ids| :: ids[i] < |changes|
  {
    if ids == [] then map[]
    else
      var n := |ids| - 1;
      LatestAmong(changes, ids[..n])[changes[ids[n]].ticket := Snapshot(changes[ids[n]])]
  }

  lemma {:induction false} PrefixIsEnough(changes: seq<ChangeRow>, m: nat, ids: seq<nat>)
    requires m <= |changes| && forall i | 0 <= i < |ids| :: ids[i] < m
    ensures LatestAmong(changes[..m], ids) == LatestAmong(changes, ids)
  {
    if ids != [] {
      PrefixIsEnough(changes, m, ids[..|ids| - 1]);
    }
  }

  lemma OneMoreAmong(changes: seq<ChangeRow>, ids: seq<nat>, n: nat)
    requires n < |changes| && forall i | 0 <= i < |ids| :: ids[i] < n
    ensures LatestAmong(changes, ids + [n]) == LatestAmong(changes, ids)[changes[n].ticket := Snapshot(changes[n])]
  {
    assert (ids + [n])[..|ids|] == ids;
  }

  lemma {:induction false} LatestOfSelected(tickets: Tickets, changes: seq<ChangeRow>, p: Pick)
    ensures LatestOf(tickets, changes, p) == LatestAmong(changes, Selected(tickets, changes, p))
  {
    if changes != [] {
      hide Pick.Picks, Snapshot, LatestAmong;
      var n := |changes| - 1;
      var before := Selected(tickets, changes[..n], p);
      LatestOfSelected(tickets, changes[..n], p);
      PrefixIsEnough(changes, n, before);
      OneMoreAmong(changes, before, n);
    }
  }

  /** The first queued change the worker refuses to sign over. */
  function FirstFlaw(keys: Keys, tickets: Tickets, organizer: Uuid, changes: seq<ChangeRow>, ids: seq<nat>): Option<Refusal>
    requires forall i | 0 <= i < |ids| :: ids[i] < |changes|
  {
    if ids == [] then None
    else
      var n := |ids| - 1;
      var earlier := FirstFlaw(keys, tickets, organizer, changes, ids[..n]);
      if earlier.Some? then earlier
      else
        var c := changes[ids[n]];
        if c.ticket !in tickets || tickets[c.ticket].organizer != organizer then Some(ForeignChange)
        else if !keys.VerifyHead(c.ticket, c.sequence, c.kid, c.hash, c.signature) then Some(NotASignedHead)
        else None
  }

  datatype Signed = Signed(changes: seq<ChangeRow>, rows: seq<CheckpointRow>, position: Option<Position>)

  /** One run of the worker for an organizer. */
  function CheckpointOrganizer(keys: Keys, signer: Option<string>, tickets: Tickets, changes: seq<ChangeRow>,
                               rows: seq<CheckpointRow>, organizer: Uuid, observed: Position, now: Time): Result<Signed, Refusal>
  {
    var p := PendingOf(organizer);
    var latest := LatestOf(tickets, changes, p);
    var ids := Selected(tickets, changes, p);
    if signer.None? then Err(NoSigner)
    else if |latest| == 0 then Ok(Signed(changes, rows, None))
    else if keys.keyring.None? then Err(NoKeyring)
    else if FirstFlaw(keys, tickets, organizer, changes, ids).Some? then
      Err(FirstFlaw(keys, tickets, organizer, changes, ids).value)
    else if Regressed(LastOf(rows, organizer), observed) then Err(Regression)
    else
      var row := NewCheckpoint(keys.suite, organizer, LastOf(rows, organizer), latest, signer.value, now);
      Ok(Signed(Assign(tickets, changes, p, |rows|), rows + [row], Some(Position(row.checkpoint.sequence, row.checkpoint.root))))
  }

  lemma {:induction false} NoFlawMeansAuthentic(keys: Keys, tickets: Tickets, organizer: Uuid, changes: seq<ChangeRow>, ids: seq<nat>)
    requires forall i | 0 <= i < |ids| :: ids[i] < |changes|
    ensures FirstFlaw(keys, tickets, organizer, changes, ids).None? <==>
            forall i | 0 <= i < |ids| :: Authentic(keys, tickets, organizer, changes[ids[i]])
  {
    hide Keys.VerifyHead;
    if ids != [] {
      NoFlawMeansAuthentic(keys, tickets, organizer, changes, ids[..|ids| - 1]);
    }
  }

  /** The worker signs nothing it cannot authenticate: if every queued change of the
      organizer carries the version this build writes, a run keeps all chains sound. */
  lemma WorkerKeepsSound(keys: Keys, signer: Option<string>, tickets: Tickets, changes: seq<ChangeRow>,
                         rows: seq<CheckpointRow>, organizer: Uuid, observed: Position, now: Time)
    requires signer.Some? ==> A.CanSign(keys, signer.value)
    requires Sound(keys, tickets, changes, rows)
    requires forall k | 0 <= k < |changes| :: changes[k].version == CANONICAL_VERSION
    ensures var r := CheckpointOrganizer(keys, signer, tickets, changes, rows, organizer, observed, now);
            r.Ok? ==> Sound(keys, tickets, r.value.changes, r.value.rows)
  {
    hide Sound, LatestOf, LastOf, Keys.VerifyHead, LeavesOf, Merkle.Root, CanonicalCheckpoint, FirstFlaw, Selected, A.CanSign;
    var r := CheckpointOrganizer(keys, signer, tickets, changes, rows, organizer, observed, now);
    if r.Ok? && r.value.position.Some? {
      var ids := Selected(tickets, changes, PendingOf(organizer));
      NoFlawMeansAuthentic(keys, tickets, organizer, changes, ids);
      forall k | 0 <= k < |changes| && PendingOf(organizer).Picks(tickets, changes[k])
        ensures LeafOk(keys, tickets, organizer, changes[k])
      {
        assert k in ids;
        var i :| 0 <= i < |ids| && ids[i] == k;
        assert Authentic(keys, tickets, organizer, changes[ids[i]]);
      }
      CheckpointKeepsSound(keys, tickets, changes, rows, organizer, signer.value, now);
    }
  }

  method Authenticate(keys: Keys, tickets: Tickets, organizer: Uuid, changes: seq<ChangeRow>, ids: seq<nat>)
    returns (flaw: Option<Refusal>)
    requires forall i | 0 <= i < |ids| :: ids[i] < |changes|
    ensures flaw == FirstFlaw(keys, tickets, organizer, changes, ids)
  {
    hide Keys.VerifyHead;
    for i := 0 to |ids|
      invariant FirstFlaw(keys, tickets, organizer, changes, ids[..i]) == None
    {
      assert ids[..i + 1][..i] == ids[..i];
      var c := changes[ids[i]];
      if c.ticket !in tickets || tickets[c.ticket].organizer != organizer {
        flaw := Some(ForeignChange);
        FlawStands(keys, tickets, organizer, changes, ids, i + 1);
        return;
      }
      if !keys.VerifyHead(c.ticket, c.sequence, c.kid, c.hash, c.signature) {
        flaw := Some(NotASignedHead);
        FlawStands(keys, tickets, organizer, changes, ids, i + 1);
        return;
      }
    }
    assert ids[..|ids|] == ids;
    flaw := None;
  }

  lemma {:induction false} FlawStands(keys: Keys, tickets: Tickets, organizer: Uuid, changes: seq<ChangeRow>, ids: seq<nat>, i: nat)
    requires i <= |ids| && forall k | 0 <= k < |ids| :: ids[k] < |changes|
    requires FirstFlaw(keys, tickets, organizer, changes, ids[..i]).Some?
    ensures FirstFlaw(keys, tickets, organizer, changes, ids) == FirstFlaw(keys, tickets, organizer, changes, ids[..i])
    decreases |ids| - i
  {
    hide Keys.VerifyHead;
    if i == |ids| {
      assert ids[..i] == ids;
    } else {
      assert ids[..i + 1][..i] == ids[..i];
      FlawStands(keys, tickets, organizer, changes, ids, i + 1);
    }
  }

  /** The deduplication loop: a later change of a ticket replaces an earlier one. */
  method LatestLeaves(changes: seq<ChangeRow>, ids: seq<nat>) returns (leaves: seq<Leaf>, ghost latest: Latest)
    requires forall i | 0 <= i < |ids| :: ids[i] < |changes|
    requires forall i, j | 0 <= i < j < |ids| :: ids[i] < ids[j]
    ensures latest == LatestAmong(changes, ids)
    ensures Merkle.SameLeaves(leaves, LeavesOf(latest)) && Merkle.DistinctTickets(leaves)
  {
    var newest: map<Uuid, nat> := map[];
    latest := map[];
    for i := 0 to |ids|
      invariant latest == LatestAmong(changes, ids[..i])
      invariant newest.Keys == latest.Keys
      invariant forall t | t in newest :: (exists j :: 0 <= j < i && ids[j] == newest[t]) && newest[t] < |changes|
                                          && changes[newest[t]].ticket == t && latest[t] == Snapshot(changes[newest[t]])
    {
      var t := changes[ids[i]].ticket;
      assert ids[..i + 1][..i] == ids[..i];
      if t !in newest || ids[i] > newest[t] {
        newest := newest[t := ids[i]];
        latest := latest[t := Snapshot(changes[ids[i]])];
      }
    }
    assert ids[..|ids|] == ids;
    leaves := CollectLeaves(changes, newest, latest);
  }

  /** The leaves in whatever order the map yields them. */
  method CollectLeaves(changes: seq<ChangeRow>, newest: map<Uuid, nat>, ghost latest: Latest) returns (leaves: seq<Leaf>)
    requires newest.Keys == latest.Keys
    requires forall t | t in newest :: newest[t] < |changes| && changes[newest[t]].ticket == t
                                       && latest[t] == Snapshot(changes[newest[t]])
    ensures Merkle.SameLeaves(leaves, LeavesOf(latest)) && Merkle.DistinctTickets(leaves)
  {
    hide LeavesOf;
    leaves := [];
    var unread := newest.Keys;
    while unread != {}
      invariant unread <= newest.Keys && |leaves| + |unread| == |newest.Keys|
      invariant Merkle.DistinctTickets(leaves)
      invariant forall l: Leaf :: l in leaves <==> l.ticket in newest && l.ticket !in unread && l == LeafOf(latest[l.ticket])
    {
      var t :| t in unread;
      unread := unread - {t};
      assert LeafOf(changes[newest[t]]) == LeafOf(latest[t]);
      leaves := leaves + [LeafOf(changes[newest[t]])];
    }
    LeavesAreAccepted(latest);
  }

  // ---------------------------------------------------------------- the offline passes

  /** Every leaf is authenticated, not merely hashed again. */
  method CheckpointLeaves(keys: Keys, tickets: Tickets, latest: Latest, organizer: Uuid) returns (leaves: Option<seq<Leaf>>)
    ensures leaves.Some? <==> LeavesOk(keys, tickets, organizer, latest)
    ensures leaves.Some? ==> leaves.value == LeavesOf(latest)
  {
    hide LeafOf, LeafOk, LeavesOf, LeavesOk, Ascending;
    var ts := Ascending(latest.Keys);
    var out: seq<Leaf> := [];
    LeavesInOrder(keys, tickets, organizer, latest, ts);
    for i := 0 to |ts|
      invariant out == LeavesOf(latest)[..i]
      invariant forall j | 0 <= j < i :: LeafOk(keys, tickets, organizer, latest[ts[j]])
    {
      var ok := CheckLeaf(keys, tickets, organizer, latest[ts[i]]);
      if !ok {
        return None;
      }
      out := out + [LeafOf(latest[ts[i]])];
    }
    leaves := Some(out);
  }

  lemma LeavesInOrder(keys: Keys, tickets: Tickets, organizer: Uuid, latest: Latest, ts: seq<Uuid>)
    requires ts == Ascending(latest.Keys)
    ensures |ts| == |LeavesOf(latest)|
    ensures forall i | 0 <= i < |ts| :: ts[i] in latest && LeavesOf(latest)[i] == LeafOf(latest[ts[i]])
    ensures LeavesOk(keys, tickets, organizer, latest)
            <==> forall i | 0 <= i < |ts| :: ts[i] in latest && LeafOk(keys, tickets, organizer, latest[ts[i]])
  {
    hide LeafOf, LeafOk;
    forall i | 0 <= i < |ts|
      ensures ts[i] in latest
    {
      assert ts[i] in ts;
    }
    assert forall t | t in latest :: t in ts;
  }

  method CheckLeaf(keys: Keys, tickets: Tickets, organizer: Uuid, c: ChangeRow) returns (ok: bool)
    ensures ok <==> LeafOk(keys, tickets, organizer, c)
  {
    hide Keys.VerifyHead;
    if c.version != CANONICAL_VERSION {
      return false;
    }
    if c.ticket !in tickets || tickets[c.ticket].organizer != organizer {
      return false;
    }
    ok := keys.VerifyHead(c.ticket, c.sequence, c.kid, c.hash, c.signature);
  }

  method CheckRow(keys: Keys, tickets: Tickets, latest: Latest, row: CheckpointRow) returns (ok: bool)
    requires Keyed(latest)
    ensures ok <==> CheckpointOk(keys, tickets, latest, row)
  {
    hide Keys.VerifyHead, Keys.VerifyCheckpoint, Merkle.Root, LeavesOk, LeafOf;
    if row.version != CANONICAL_VERSION {
      return false;
    }
    var leaves := CheckpointLeaves(keys, tickets, latest, row.checkpoint.organizer);
    if leaves.None? || |leaves.value| != row.checkpoint.leafCount {
      return false;
    }
    LeavesAreAccepted(latest);
    var root := Merkle.MerkleRoot(keys.suite, leaves.value);
    if root.None? || root.value != row.checkpoint.root {
      return false;
    }
    ok := keys.VerifyCheckpoint(row.checkpoint, row.signature);
  }

  /** `ORDER BY organizer_id, sequence`. */
  ghost predicate InOrder(rows: seq<CheckpointRow>, order: seq<nat>) {
    && NoRepeats(order)
    && (forall i :: i in order <==> 0 <= i < |rows|)
    && (forall m, n | 0 <= m < n < |order| :: order[m] < |rows| && order[n] < |rows| && Before(rows[order[m]], rows[order[n]]))
  }

  predicate Before(a: CheckpointRow, b: CheckpointRow) {
    a.checkpoint.organizer < b.checkpoint.organizer || (SameChain(a, b) && a.checkpoint.sequence <= b.checkpoint.sequence)
  }

  /** What the walk must have just passed for the next row to be in place. */
  function Expected(rows: seq<CheckpointRow>, order: seq<nat>, n: nat): Position
    requires n < |order| && forall m | 0 <= m < |order| :: order[m] < |rows|
  {
    if n > 0 && SameChain(rows[order[n - 1]], rows[order[n]])
    then Position(rows[order[n - 1]].checkpoint.sequence, rows[order[n - 1]].checkpoint.root)
    else START
  }

  predicate Continues(p: Position, row: CheckpointRow) {
    row.checkpoint.sequence == p.sequence + 1 && row.checkpoint.previousRoot == p.root
  }

  /** Walking in order, a row is in place exactly when it continues the row before it. */
  lemma PlacedInOrder(rows: seq<CheckpointRow>, order: seq<nat>, n: nat)
    requires UniquePositions(rows) && InOrder(rows, order) && n < |order|
    requires forall m | 0 <= m < |order| :: order[m] < |rows|
    requires n > 0 ==> rows[order[n - 1]].checkpoint.sequence > 0
    ensures Placed(rows, order[n]) <==> Continues(Expected(rows, order, n), rows[order[n]])
  {
    var row := rows[order[n]];
    if n > 0 {
      assert Before(rows[order[n - 1]], row);
      assert order[n - 1] != order[n];
    }
    if Placed(rows, order[n]) && row.checkpoint.sequence > 1 {
      var j :| 0 <= j < |rows| && Follows(rows[j], row);
      assert j in order;
      var m :| 0 <= m < |order| && order[m] == j;
      PredecessorIsAdjacent(rows, order, m, n);
    }
    if Continues(Expected(rows, order, n), row) && row.checkpoint.sequence > 1 {
      assert Follows(rows[order[n - 1]], row);
    }
  }

  lemma PredecessorIsAdjacent(rows: seq<CheckpointRow>, order: seq<nat>, m: nat, n: nat)
    requires UniquePositions(rows) && InOrder(rows, order) && m < |order| && n < |order|
    requires forall k | 0 <= k < |order| :: order[k] < |rows|
    requires Follows(rows[order[m]], rows[order[n]])
    ensures m == n - 1
  {
    hide Follows;
    FollowsMeans(rows[order[m]], rows[order[n]]);
    if n < m {
      NeverBackwards(rows, order, n, m);
    }
    if m < n - 1 {
      NothingBetween(rows, order, m, m + 1, n);
    }
  }

  lemma NeverBackwards(rows: seq<CheckpointRow>, order: seq<nat>, m: nat, n: nat)
    requires InOrder(rows, order) && m < n < |order|
    requires forall i | 0 <= i < |order| :: order[i] < |rows|
    ensures !Follows(rows[order[n]], rows[order[m]])
  {
    assert Before(rows[order[m]], rows[order[n]]);
  }

  lemma NothingBetween(rows: seq<CheckpointRow>, order: seq<nat>, m: nat, k: nat, n: nat)
    requires UniquePositions(rows) && InOrder(rows, order) && m < k < n < |order|
    requires forall i | 0 <= i < |order| :: order[i] < |rows|
    ensures !Follows(rows[order[m]], rows[order[n]])
  {
    var a, b, c := rows[order[m]], rows[order[k]], rows[order[n]];
    assert Before(a, b) && Before(b, c);
    assert order[m] != order[k] && order[k] != order[n];
  }

  lemma FollowsMeans(a: CheckpointRow, b: CheckpointRow)
    requires Follows(a, b)
    ensures SameChain(a, b) && b.checkpoint.sequence == a.checkpoint.sequence + 1
  {
  }

  /** The pass over every checkpoint chain, in one ordered scan. */
  method VerifyCheckpoints(keys: Keys, tickets: Tickets, changes: seq<ChangeRow>, rows: seq<CheckpointRow>, order: seq<nat>)
    returns (ok: bool)
    requires UniquePositions(rows) && InOrder(rows, order)
    ensures ok <==> ChainsOk(keys, tickets, changes, rows)
  {
    hide Placed, CheckpointOk, UniquePositions, InOrder, Before, Follows, LatestOf;
    OrderIsOfRows(rows, order);
    var current, prev := 0, START;
    for n := 0 to |order|
      invariant forall m | 0 <= m < n :: RowAccepted(keys, tickets, changes, rows, order[m])
      invariant n == 0 ==> prev == START
      invariant n > 0 ==> current == rows[order[n - 1]].checkpoint.organizer
                          && prev == Position(rows[order[n - 1]].checkpoint.sequence, rows[order[n - 1]].checkpoint.root)
      invariant n > 0 ==> prev.sequence > 0
    {
      var row := rows[order[n]];
      if row.checkpoint.organizer != current {
        current, prev := row.checkpoint.organizer, START;
      }
      assert prev == Expected(rows, order, n);
      PlacedInOrder(rows, order, n);
      if row.checkpoint.sequence != prev.sequence + 1 || row.checkpoint.previousRoot != prev.root {
        assert !RowAccepted(keys, tickets, changes, rows, order[n]);
        return false;
      }
      LatestIsKeyed(tickets, changes, TakenBy(order[n]));
      var accepted := CheckRow(keys, tickets, LatestOf(tickets, changes, TakenBy(order[n])), row);
      if !accepted {
        assert !RowAccepted(keys, tickets, changes, rows, order[n]);
        return false;
      }
      prev := Position(row.checkpoint.sequence, row.checkpoint.root);
    }
    forall i: nat | i < |rows|
      ensures RowAccepted(keys, tickets, changes, rows, i)
    {
      assert i in order;
      var m :| 0 <= m < |order| && order[m] == i;
    }
    assert forall i | 0 <= i < |rows| :: RowAccepted(keys, tickets, changes, rows, i);
    ok := true;
  }

  lemma OrderIsOfRows(rows: seq<CheckpointRow>, order: seq<nat>)
    requires InOrder(rows, order)
    ensures forall m | 0 <= m < |order| :: order[m] < |rows|
    ensures forall i: nat | i < |rows| :: i in order
  {
    forall m | 0 <= m < |order|
      ensures order[m] < |rows|
    {
      assert order[m] in order;
    }
  }

  type Epochs = map<(Uuid, string), EpochRow>

  predicate EpochOk(keys: Keys, key: (Uuid, string), e: EpochRow) {
    e.version == CANONICAL_VERSION && keys.VerifyHead(key.0, e.sequence, key.1, e.hash, e.signature)
  }

  /** Every retained epoch signature verifies; none is required to exist. */
  predicate EpochsOk(keys: Keys, epochs: Epochs) {
    forall k | k in epochs :: EpochOk(keys, k, epochs[k])
  }

  method VerifyEpochs(keys: Keys, epochs: Epochs) returns (ok: bool)
    ensures ok <==> EpochsOk(keys, epochs)
  {
    hide Keys.VerifyHead;
    var unread := epochs.Keys;
    while unread != {}
      invariant unread <= epochs.Keys
      invariant forall k | k in epochs && k !in unread :: EpochOk(keys, k, epochs[k])
    {
      var k :| k in unread;
      var e := epochs[k];
      if e.version != CANONICAL_VERSION || !keys.VerifyHead(k.0, e.sequence, k.1, e.hash, e.signature) {
        return false;
      }
      unread := unread - {k};
    }
    ok := true;
  }

  /** The head signatures of this moment are kept, the first seal per ticket and key. */
  function Seal(heads: map<Uuid, HeadRow>, epochs: Epochs): Epochs {
    (map t | t in heads :: (t, heads[t].kid) := EpochRow(heads[t].sequence, heads[t].version, heads[t].hash, heads[t].signature))
    + epochs
  }

  /** A seal is a copy of a verified head signature, so it verifies under the key that made
      it, and it never replaces an earlier seal. */
  lemma SealKeepsEpochs(keys: Keys, heads: map<Uuid, HeadRow>, epochs: Epochs)
    requires EpochsOk(keys, epochs)
    requires forall t | t in heads :: heads[t].version == CANONICAL_VERSION
               && keys.VerifyHead(t, heads[t].sequence, heads[t].kid, heads[t].hash, heads[t].signature)
    ensures EpochsOk(keys, Seal(heads, epochs))
    ensures forall k | k in epochs :: k in Seal(heads, epochs) && Seal(heads, epochs)[k] == epochs[k]
  {
    hide Keys.VerifyHead;
    var sealed := Seal(heads, epochs);
    forall k | k in sealed
      ensures EpochOk(keys, k, sealed[k])
    {
      assert k !in epochs ==> exists t :: t in heads && k == (t, heads[t].kid);
    }
  }
}
