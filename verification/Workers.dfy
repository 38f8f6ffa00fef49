/** The checkpoint worker: one pass over the organizers with something pending. */
module Workers {
  import opened Basics
  import opened Canonical
  import opened Trail
  import opened Store
  import opened AccessStore
  import A = Appending
  import C = Checkpoints
  import H = HonestRuns
  import Merkle

  function Observed(observed: map<Uuid, C.Position>, organizer: Uuid): C.Position {
    if organizer in observed then observed[organizer] else C.START
  }

  class Checkpointer {
    /** What this process last saw of each chain.  It dies with the process. */
    var observed: map<Uuid, C.Position>
    var lastSuccess: Option<Time>

    constructor ()
      ensures observed == map[] && lastSuccess == None
    {
      observed, lastSuccess := map[], None;
    }

    /** One organizer of a pass: at most one checkpoint, remembered when it is committed. */
    method Visit(store: Postgres, organizer: Uuid, now: Time, ghost slotOf: H.SlotOf) returns (ok: bool, added: nat)
      requires store.Valid()
      modifies this`observed, store`db
      ensures store.Valid() && store.db.tickets == old(store.db).tickets && store.db.trail.events == old(store.db).trail.events
      ensures H.Allowed(store.cfg.keys, store.cfg) && H.Honest(store.cfg.keys, slotOf, old(store.db)) ==>
                H.Honest(store.cfg.keys, slotOf, store.db)
      ensures forall o :: Observed(old(observed), o).sequence <= Observed(observed, o).sequence
      ensures |store.db.checkpoints| == |old(store.db).checkpoints| + added
    {
      hide H.HonestTables, H.Allowed, OneEach, C.CheckpointOrganizer, TakeCheckpoint;
      var seen := Observed(observed, organizer);
      CheckpointMovesForward(store.cfg, store.db, organizer, seen, now);
      if H.Allowed(store.cfg.keys, store.cfg) && H.Honest(store.cfg.keys, slotOf, store.db) {
        H.CheckpointHonest(store.cfg.keys, slotOf, store.cfg, store.db, organizer, seen, now);
      }
      var result := store.CheckpointOrganizer(organizer, seen, now);
      ok, added := result.Ok?, 0;
      if ok && result.value.Some? {
        observed := observed[organizer := result.value.value];
        added := 1;
      }
    }

    /** A pass keeps an honest store honest, never moves an observed position back, and
        counts as a success only when no organizer failed. */
    method Once(store: Postgres, now: Time, ghost slotOf: H.SlotOf) returns (committed: nat, failed: bool)
      requires store.Valid()
      modifies this, store`db
      ensures store.Valid() && store.db.tickets == old(store.db).tickets && store.db.trail.events == old(store.db).trail.events
      ensures H.Allowed(store.cfg.keys, store.cfg) && H.Honest(store.cfg.keys, slotOf, old(store.db)) ==>
                H.Honest(store.cfg.keys, slotOf, store.db)
      ensures forall o :: Observed(old(observed), o).sequence <= Observed(observed, o).sequence
      ensures |store.db.checkpoints| == |old(store.db).checkpoints| + committed
      ensures lastSuccess == if failed then old(lastSuccess) else Some(now)
    {
      hide H.HonestTables, H.Allowed, OneEach, C.CheckpointOrganizer, TakeCheckpoint;
      committed, failed := 0, false;
      var waiting := set k | 0 <= k < |store.db.trail.changes| && store.db.trail.changes[k].checkpoint.None? :: store.db.trail.changes[k].organizer;
      var organizers := Ascending(waiting);
      for i := 0 to |organizers|
        invariant store.Valid() && store.db.tickets == old(store.db).tickets && store.db.trail.events == old(store.db).trail.events
        invariant H.Allowed(store.cfg.keys, store.cfg) && H.Honest(store.cfg.keys, slotOf, old(store.db)) ==>
                    H.Honest(store.cfg.keys, slotOf, store.db)
        invariant forall o :: Observed(old(observed), o).sequence <= Observed(observed, o).sequence
        invariant |store.db.checkpoints| == |old(store.db).checkpoints| + committed
        invariant lastSuccess == old(lastSuccess)
      {
        var ok, added := Visit(store, organizers[i], now, slotOf);
        failed := failed || !ok;
        committed := committed + added;
      }
      if !failed {
        lastSuccess := Some(now);
      }
    }
  }

  /** A committed checkpoint is one row further than what was observed. */
  lemma CheckpointMovesForward(cfg: Config, db: Db, organizer: Uuid, seen: C.Position, now: Time)
    ensures var r := TakeCheckpoint(cfg, db, organizer, seen, now);
            r.Ok? ==>
              && r.value.0.tickets == db.tickets && r.value.0.trail.events == db.trail.events
              && |r.value.0.checkpoints| == |db.checkpoints| + (if r.value.1.Some? then 1 else 0)
              && (r.value.1.Some? ==> seen.sequence < r.value.1.value.sequence)
  {
    hide C.CheckpointOrganizer;
    SignedMovesForward(cfg.keys, cfg.signer, db.tickets, db.trail.changes, db.checkpoints, organizer, seen, now);
  }

  lemma SignedMovesForward(keys: Keys, signer: Option<string>, tickets: Tickets, changes: seq<ChangeRow>,
                           rows: seq<C.CheckpointRow>, organizer: Uuid, seen: C.Position, now: Time)
    ensures var r := C.CheckpointOrganizer(keys, signer, tickets, changes, rows, organizer, seen, now);
            r.Ok? ==>
              && |r.value.rows| == |rows| + (if r.value.position.Some? then 1 else 0)
              && (r.value.position.Some? ==> seen.sequence < r.value.position.value.sequence)
  {
    hide C.LatestOf, C.Selected, C.FirstFlaw, C.LastOf, C.LeavesOf, C.Assign, Merkle.Root, CanonicalCheckpoint;
  }
}
