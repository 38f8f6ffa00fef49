/** Sealed epochs: which head signatures are kept when a key is retired. */
module Seals {
  import opened Basics
  import opened Canonical
  import opened Trail
  import opened Store
  import opened Machine
  import opened Admission
  import A = Appending
  import C = Checkpoints
  import O = OnceOnly

  lemma ScanLeavesEpochs(cfg: Config, db: Db, s: Step)
    requires s.ScanStep?
    ensures Next(cfg, db, s).epochs == db.epochs
  {
    hide Has, DegradedScan, RedeemVerified, PassVerified, ExitUnverifiedScan, Keeps;
    var x := s.scan;
    if s.verdict.Some? {
      DegradedEffect(cfg, db, x.ticket, x.who, x.occurrence, Entry, s.verdict.value, s.now);
      DegradedEffect(cfg, db, x.ticket, x.who, x.occurrence, s.direction, s.verdict.value, s.now);
      ExitEffect(db, x, s.verdict.value, s.now);
    } else if !BadOccurrence(x) {
      RedeemEffect(cfg, db, x, s.dbNow);
      if x.occurrence != Nil {
        PassEffect(cfg, db, x, s.direction, s.live, s.now);
      }
    }
  }

  lemma ReconcileLeavesEpochs(cfg: Config, db: Db, s: Step)
    requires s.ReconcileStep?
    ensures Next(cfg, db, s).epochs == db.epochs
  {
    hide AppendEvent, Lookup, AdmittedUnion, CommerciallyVoid, Skewed, Keeps;
    var x := s.scan;
    if x.at.Some? {
      var kind := if x.who.slot in db.passes then s.direction else if AdmittedUnion(db, x.ticket) then DuplicateAdmit else Redeemed;
      AppendKeeps(cfg, db, A.Input(x.ticket, x.who, x.occurrence, kind, x.at.value));
    }
  }

  lemma VoidsLeaveEpochs(cfg: Config, db: Db, s: Step)
    requires s.RefundStep? || s.ExchangeStep?
    ensures Next(cfg, db, s).epochs == db.epochs
  {
    hide OrderTickets, Free, Mine, VoidAll, InsertAll, Obstacle;
    if s.RefundStep? {
      var free := Free(db, OrderTickets(db, s.order, s.organizer));
      FirstIsIssued(db, s.order, s.organizer);
      if 1 <= s.quantity <= |free| {
        var claimed := db.(batches := db.batches[(s.organizer, s.refund) := BatchRow(s.order, s.quantity)]);
        O.VoidAllParts(cfg, claimed, free[..s.quantity], db.tickets[free[0]], ByRefund(s.refund), s.now);
      }
    } else {
      var x, source := s.exchange, OrderTickets(db, s.exchange.order, s.exchange.organizer);
      FirstIsIssued(db, x.order, x.organizer);
      if |source| > 0 {
        var received := db.(consumed := db.consumed + {x.event});
        O.VoidAllParts(cfg, received, source, db.tickets[source[0]], ByExchange(x.exchange), s.now);
        var voided := VoidAll(cfg, received, source, db.tickets[source[0]], ByExchange(x.exchange), s.now);
        if voided.Ok? {
          O.InsertAllParts(cfg, voided.value, x.tickets);
        }
      }
    }
  }

  lemma OthersLeaveEpochs(cfg: Config, db: Db, s: Step)
    requires !s.ScanStep? && !s.ReconcileStep? && !s.RefundStep? && !s.ExchangeStep? && !s.SealStep?
    ensures Next(cfg, db, s).epochs == db.epochs
  {
    hide InsertAll, AppendEvent, Has, Keeps, RecordRefusal, TakeCheckpoint;
    match s {
      case IssueStep(event, ts) => O.InsertAllParts(cfg, db.(consumed := db.consumed + {event}), ts);
      case DeliverStep(t, now) =>
        if t in db.tickets {
          AppendKeeps(cfg, db, A.Input(t, db.tickets[t], DeliveredId(t), Delivered, now));
        }
      case RecordStep(x, kind) =>
        if x.at.Some? {
          AppendKeeps(cfg, db, A.Input(x.ticket, x.who, x.occurrence, kind, x.at.value));
        }
      case RefuseStep(x) => RefusalLeavesEpochs(db, x);
      case CheckpointStep(organizer, observed, now) => CheckpointLeavesEpochs(cfg, db, organizer, observed, now);
      case ModeStep(_, _) =>
      case PolicyStep(_, _) =>
    }
  }

  lemma RefusalLeavesEpochs(db: Db, x: ScanInput)
    ensures RecordRefusal(db, x).Ok? ==> RecordRefusal(db, x).value.0.epochs == db.epochs
  {
  }

  lemma CheckpointLeavesEpochs(cfg: Config, db: Db, organizer: Uuid, observed: C.Position, now: Time)
    ensures var r := TakeCheckpoint(cfg, db, organizer, observed, now); r.Ok? ==> r.value.0.epochs == db.epochs
  {
    hide C.CheckpointOrganizer;
  }

  /** No call changes or drops a seal. */
  lemma StepKeepsSeals(cfg: Config, db: Db, s: Step, key: (Uuid, string))
    requires key in db.epochs
    ensures key in Next(cfg, db, s).epochs && Next(cfg, db, s).epochs[key] == db.epochs[key]
  {
    if !s.SealStep? {
      hide Next;
      if s.ScanStep? {
        ScanLeavesEpochs(cfg, db, s);
      } else if s.ReconcileStep? {
        ReconcileLeavesEpochs(cfg, db, s);
      } else if s.RefundStep? || s.ExchangeStep? {
        VoidsLeaveEpochs(cfg, db, s);
      } else {
        OthersLeaveEpochs(cfg, db, s);
      }
    }
  }

  lemma {:induction false} SealsAreForever(db: Db, run: Run, j: nat, k: nat, key: (Uuid, string))
    requires j <= k <= |run| && key in After(db, run[..j]).epochs
    ensures key in After(db, run[..k]).epochs && After(db, run[..k]).epochs[key] == After(db, run[..j]).epochs[key]
    decreases k
  {
    hide Next;
    if j < k {
      SealsAreForever(db, run, j, k - 1, key);
      StepTaken(db, run, k - 1);
      StepKeepsSeals(run[k - 1].0, After(db, run[..k - 1]), run[k - 1].1, key);
    }
  }

  /** What a seal is for: after sealing, every ticket that had a head is sealed under the key
      of that head in every later state of the run, however the head moves on; the seal is
      the head of that moment, unless the ticket was sealed under that key before. */
  lemma SealedHeadsAreKept(db: Db, run: Run, j: nat, k: nat, t: Uuid)
    requires j < k <= |run| && run[j].1 == SealStep && t in After(db, run[..j]).trail.heads
    ensures var before, h := After(db, run[..j]), After(db, run[..j]).trail.heads[t];
            var after := After(db, run[..k]);
            && (t, h.kid) in after.epochs
            && after.epochs[(t, h.kid)] == if (t, h.kid) in before.epochs then before.epochs[(t, h.kid)]
                                           else C.EpochRow(h.sequence, h.version, h.hash, h.signature)
  {
    StepTaken(db, run, j);
    var before := After(db, run[..j]);
    Sealed(before.trail.heads, before.epochs, t);
    hide C.Seal;
    SealsAreForever(db, run, j + 1, k, (t, before.trail.heads[t].kid));
  }

  lemma Sealed(heads: map<Uuid, HeadRow>, epochs: C.Epochs, t: Uuid)
    requires t in heads
    ensures var key := (t, heads[t].kid);
            && key in C.Seal(heads, epochs)
            && C.Seal(heads, epochs)[key] == if key in epochs then epochs[key]
               else C.EpochRow(heads[t].sequence, heads[t].version, heads[t].hash, heads[t].signature)
  {
  }
}
