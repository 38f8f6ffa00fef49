/** The whole offline verification, with coverage required and no age bound. */
module Verifier {
  import opened Basics
  import opened Canonical
  import opened Trail
  import opened Store
  import Audit
  import C = Checkpoints

  /** What a clean result means. */
  ghost predicate AuditClean(keys: Keys, db: Db) {
    && AuditAccepts(keys, db.tickets, db.trail)
    && C.EpochsOk(keys, db.epochs)
    && C.ChainsOk(keys, db.tickets, db.trail.changes, db.checkpoints)
  }

  /** `rows` and `order` are what the two ordered queries return. */
  method VerifyLifecycle(keys: Keys, db: Db, rows: seq<EventId>, order: seq<nat>) returns (ok: bool)
    requires Audit.AllInOrder(db.trail, rows) && KeysIntact(db.tickets, db.trail)
    requires C.UniquePositions(db.checkpoints) && C.InOrder(db.checkpoints, order)
    ensures ok <==> keys.keyring.Some? && AuditClean(keys, db)
  {
    hide AuditAccepts, C.EpochsOk, C.ChainsOk, C.UniquePositions, C.InOrder, Audit.AllInOrder;
    if keys.keyring.None? {
      return false;
    }
    ok := Audit.VerifyTickets(keys, db.tickets, db.trail, rows);
    if ok {
      ok := C.VerifyEpochs(keys, db.epochs);
    }
    if ok {
      ok := C.VerifyCheckpoints(keys, db.tickets, db.trail.changes, db.checkpoints, order);
    }
  }
}
