/** How many degraded admissions one organizer can have in a window of time. */
module DegradedWindow {
  import opened Basics
  import opened Canonical
  import opened Trail
  import opened Store
  import opened Machine
  import opened Admission
  import O = OnceOnly
  import A = Appending

  predicate Within(row: QuarantineRow, organizer: Uuid, after: Time, upTo: Time) {
    row.organizer == organizer && row.admittedAt.Some? && after < row.admittedAt.value <= upTo
  }

  /** Degraded admissions of an organizer in a half-open stretch of time. */
  function Count(q: seq<QuarantineRow>, organizer: Uuid, after: Time, upTo: Time): nat {
    if q == [] then 0
    else Count(q[..|q| - 1], organizer, after, upTo) + if Within(q[|q| - 1], organizer, after, upTo) then 1 else 0
  }

  function CountInWindow(q: seq<QuarantineRow>, organizer: Uuid, start: Time, window: int): nat {
    Count(q, organizer, start, start + window)
  }

  lemma CountStep(q: seq<QuarantineRow>, row: QuarantineRow, organizer: Uuid, after: Time, upTo: Time)
    ensures Count(q + [row], organizer, after, upTo)
            == Count(q, organizer, after, upTo) + if Within(row, organizer, after, upTo) then 1 else 0
  {
    assert (q + [row])[..|q|] == q;
  }

  /** The store's own count covers every window that starts no earlier. */
  lemma {:induction false} RecentCovers(q: seq<QuarantineRow>, organizer: Uuid, from: Time, after: Time, upTo: Time)
    requires from <= after
    ensures Count(q, organizer, after, upTo) <= RecentDegraded(q, organizer, from)
  {
    if q != [] {
      RecentCovers(q[..|q| - 1], organizer, from, after, upTo);
    }
  }

  /** Every degraded admission so far happened by this time. */
  predicate Past(q: seq<QuarantineRow>, organizer: Uuid, clock: Time) {
    forall r | r in q && r.organizer == organizer && r.admittedAt.Some? :: r.admittedAt.value <= clock
  }

  /** The bound, one admission tighter while the organizer is still in normal mode. */
  ghost predicate Bounded(db: Db, organizer: Uuid, threshold: int, window: int) {
    && ModeOf(db, organizer) != OperatorAdmit
    && forall a: Time :: CountInWindow(db.quarantine, organizer, a, window)
                         <= if ModeOf(db, organizer) == Normal then threshold - 1 else threshold
  }

  // ---------------------------------------------------------------- one step

  /** A step leaves quarantine and modes alone, adds a row that admits nobody, or is a
      degraded admission under a mode that allows it. */
  ghost predicate ModeStepShape(cfg: Config, db: Db, s: Step) {
    var db' := Next(cfg, db, s);
    || (db'.modes == db.modes && (db'.quarantine == db.quarantine
          || exists row :: db'.quarantine == db.quarantine + [row] && row.admittedAt.None?))
    || (s.ScanStep? && s.verdict.Some? && ModeOf(db, s.scan.who.organizer) != OperatorDeny
        && var admitted := AdmitDegraded(cfg, db, s.scan.ticket, s.scan.who, s.scan.occurrence, s.verdict.value, s.now);
           db'.quarantine == admitted.quarantine && db'.modes == admitted.modes)
  }

  lemma DegradedShape(cfg: Config, db: Db, t: Uuid, who: Identity, occ: EventId, direction: EventType,
                      reason: AlarmReason, now: Time)
    ensures var r := DegradedScan(cfg, db, t, who, occ, direction, reason, now);
            r.Ok? ==>
              || (r.value.0.quarantine == db.quarantine && r.value.0.modes == db.modes)
              || (ModeOf(db, who.organizer) != OperatorDeny && r.value.0 == AdmitDegraded(cfg, db, t, who, occ, reason, now))
  {
    hide Lookup, Degraded, ModeOf, AdmitDegraded;
  }

  lemma ScanShape(cfg: Config, db: Db, s: Step)
    requires s.ScanStep?
    ensures ModeStepShape(cfg, db, s)
  {
    hide Has, DegradedScan, RedeemVerified, PassVerified, ExitUnverifiedScan, Keeps, AdmitDegraded, ModeOf;
    var x := s.scan;
    if !BadOccurrence(x) {
      if s.verdict.Some? {
        DegradedShape(cfg, db, x.ticket, x.who, x.occurrence, Entry, s.verdict.value, s.now);
        DegradedShape(cfg, db, x.ticket, x.who, x.occurrence, s.direction, s.verdict.value, s.now);
        ExitEffect(db, x, s.verdict.value, s.now);
      } else {
        RedeemEffect(cfg, db, x, s.dbNow);
        if x.occurrence != Nil {
          PassEffect(cfg, db, x, s.direction, s.live, s.now);
        }
      }
    }
  }

  lemma ReconcileShape(cfg: Config, db: Db, s: Step)
    requires s.ReconcileStep?
    ensures ModeStepShape(cfg, db, s)
  {
    hide AppendEvent, Lookup, AdmittedUnion, CommerciallyVoid, Skewed, Keeps, AdmitDegraded, ModeOf;
    var x := s.scan;
    if x.at.Some? {
      var kind := if x.who.slot in db.passes then s.direction else if AdmittedUnion(db, x.ticket) then DuplicateAdmit else Redeemed;
      AppendKeeps(cfg, db, A.Input(x.ticket, x.who, x.occurrence, kind, x.at.value));
      if s.verdict.Some? {
        var db' := QuarantineOccurrence(db, x, s.direction, s.verdict.value);
        var row := db'.quarantine[|db.quarantine|];
        assert db'.quarantine == db.quarantine + [row];
      }
    }
  }

  lemma OtherShape(cfg: Config, db: Db, s: Step)
    requires !s.ScanStep? && !s.ReconcileStep? && !s.ModeStep?
    ensures Next(cfg, db, s).modes == db.modes
  {
    hide OrderTickets, Free, Mine, VoidAll, InsertAll, Obstacle, AppendEvent, Has, Keeps, RecordRefusal, TakeCheckpoint;
    match s {
      case IssueStep(event, ts) => O.InsertAllParts(cfg, db.(consumed := db.consumed + {event}), ts);
      case DeliverStep(t, now) =>
        if t in db.tickets {
          AppendKeeps(cfg, db, A.Input(t, db.tickets[t], DeliveredId(t), Delivered, now));
        }
      case RecordStep(x, kind) =>
        if x.at.Some? {
          AppendKeeps(cfg, db, A.Input(x.ticket, x.who, x.occurrence, kind, x.at.value));
        }
      case RefundStep(organizer, order, refund, quantity, now) =>
        var free := Free(db, OrderTickets(db, order, organizer));
        FirstIsIssued(db, order, organizer);
        if 1 <= quantity <= |free| {
          var claimed := db.(batches := db.batches[(organizer, refund) := BatchRow(order, quantity)]);
          O.VoidAllParts(cfg, claimed, free[..quantity], db.tickets[free[0]], ByRefund(refund), now);
        }
      case ExchangeStep(x, now) =>
        var source := OrderTickets(db, x.order, x.organizer);
        FirstIsIssued(db, x.order, x.organizer);
        if |source| > 0 {
          var received := db.(consumed := db.consumed + {x.event});
          O.VoidAllParts(cfg, received, source, db.tickets[source[0]], ByExchange(x.exchange), now);
          var voided := VoidAll(cfg, received, source, db.tickets[source[0]], ByExchange(x.exchange), now);
          if voided.Ok? {
            O.InsertAllParts(cfg, voided.value, x.tickets);
          }
        }
      case RefuseStep(x) => RefusalKeeps(db, x);
      case CheckpointStep(organizer, observed, now) => CheckpointKeeps(cfg, db, organizer, observed, now);
      case SealStep =>
      case PolicyStep(_, _) =>
    }
  }

  lemma StepShape(cfg: Config, db: Db, s: Step)
    requires !s.ModeStep?
    ensures ModeStepShape(cfg, db, s)
  {
    hide Next, AdmitDegraded, ModeOf;
    if s.ScanStep? {
      ScanShape(cfg, db, s);
    } else if s.ReconcileStep? {
      ReconcileShape(cfg, db, s);
    } else {
      OtherShape(cfg, db, s);
      O.OtherStepsLeave(cfg, db, s);
    }
  }

  /** Without a human, a mode only ever moves from normal to operator-deny. */
  lemma SystemOnlyDenies(cfg: Config, db: Db, s: Step, organizer: Uuid)
    requires !s.ModeStep?
    ensures ModeOf(Next(cfg, db, s), organizer) == ModeOf(db, organizer)
            || (ModeOf(db, organizer) == Normal && ModeOf(Next(cfg, db, s), organizer) == OperatorDeny)
  {
    hide Next, RecentDegraded;
    StepShape(cfg, db, s);
  }

  /** One degraded admission keeps the bound: if it is not the last the window allows, the
      mode flips before the next one. */
  lemma AdmissionKeepsBound(cfg: Config, db: Db, db': Db, t: Uuid, who: Identity, occ: EventId, reason: AlarmReason,
                            now: Time, organizer: Uuid)
    requires Bounded(db, organizer, cfg.Threshold(), cfg.Window()) && Past(db.quarantine, organizer, now)
    requires ModeOf(db, who.organizer) != OperatorDeny
    requires var admitted := AdmitDegraded(cfg, db, t, who, occ, reason, now);
             db'.quarantine == admitted.quarantine && db'.modes == admitted.modes
    ensures Bounded(db', organizer, cfg.Threshold(), cfg.Window()) && Past(db'.quarantine, organizer, now)
  {
    hide RecentDegraded, Count;
    var row := QuarantineRow(t, who.organizer, reason, Some(now), occ, None, Redeemed);
    assert Past(db'.quarantine, organizer, now);
    var w := cfg.Window();
    assert db'.quarantine == db.quarantine + [row];
    forall a: Time
      ensures CountInWindow(db'.quarantine, organizer, a, w) <= if ModeOf(db', organizer) == Normal then cfg.Threshold() - 1 else cfg.Threshold()
    {
      CountStep(db.quarantine, row, organizer, a, a + w);
      assert CountInWindow(db.quarantine, organizer, a, w) == Count(db.quarantine, organizer, a, a + w);
      if Within(row, organizer, a, a + w) {
        RecentCovers(db'.quarantine, organizer, now - w, a, a + w);
      }
    }
  }

  lemma HarmlessRowKeepsBound(db: Db, db': Db, organizer: Uuid, threshold: int, window: int, clock: Time)
    requires Bounded(db, organizer, threshold, window) && Past(db.quarantine, organizer, clock)
    requires db'.modes == db.modes && (db'.quarantine == db.quarantine
               || exists row :: db'.quarantine == db.quarantine + [row] && row.admittedAt.None?)
    ensures Bounded(db', organizer, threshold, window) && Past(db'.quarantine, organizer, clock)
  {
    hide Count;
    if db'.quarantine != db.quarantine {
      var row :| db'.quarantine == db.quarantine + [row] && row.admittedAt.None?;
      forall a: Time
        ensures CountInWindow(db'.quarantine, organizer, a, window) == CountInWindow(db.quarantine, organizer, a, window)
      {
        CountStep(db.quarantine, row, organizer, a, a + window);
      }
    }
  }

  function ClockAfter(clock: Time, s: Step): Time {
    if s.ScanStep? then s.now else clock
  }

  lemma StepKeepsBound(cfg: Config, db: Db, s: Step, organizer: Uuid, clock: Time)
    requires Bounded(db, organizer, cfg.Threshold(), cfg.Window()) && Past(db.quarantine, organizer, clock)
    requires !s.ModeStep? && clock <= ClockAfter(clock, s)
    ensures Bounded(Next(cfg, db, s), organizer, cfg.Threshold(), cfg.Window())
    ensures Past(Next(cfg, db, s).quarantine, organizer, ClockAfter(clock, s))
  {
    hide Next, AdmitDegraded, Bounded, ModeOf;
    StepShape(cfg, db, s);
    var db' := Next(cfg, db, s);
    assert Past(db.quarantine, organizer, ClockAfter(clock, s));
    if db'.modes == db.modes && (db'.quarantine == db.quarantine
         || exists row :: db'.quarantine == db.quarantine + [row] && row.admittedAt.None?) {
      HarmlessRowKeepsBound(db, db', organizer, cfg.Threshold(), cfg.Window(), ClockAfter(clock, s));
    } else {
      var x := s.scan;
      AdmissionKeepsBound(cfg, db, db', x.ticket, x.who, x.occurrence, s.verdict.value, s.now, organizer);
    }
  }

  /** A run of serialised calls under a clock that never steps back, with one threshold and
      window, and no human setting a mode. */
  predicate Unattended(cfg: Config, run: Run, clock: Time)
    decreases |run|
  {
    run == [] ||
    var s := run[0];
    && !s.1.ModeStep? && clock <= ClockAfter(clock, s.1)
    && s.0.Threshold() == cfg.Threshold() && s.0.Window() == cfg.Window()
    && Unattended(cfg, run[1..], ClockAfter(clock, s.1))
  }

  lemma {:induction false} AfterFirst(db: Db, run: Run)
    requires run != []
    ensures After(db, run) == After(Next(run[0].0, db, run[0].1), run[1..])
    decreases |run|
  {
    hide Next;
    var n := |run| - 1;
    if n > 0 {
      AfterFirst(db, run[..n]);
      assert run[..n][1..] == run[1..][..n - 1];
    } else {
      assert run[..0] == [] && run[1..] == [];
      assert After(db, run[..0]) == db;
    }
  }

  /** The window bound: until a human sets a mode, one organizer's degraded admissions in any
      window of the policy length never exceed the failure threshold. */
  lemma {:induction false} DegradedAdmissionsAreBounded(cfg: Config, db: Db, run: Run, organizer: Uuid, clock: Time, a: Time)
    requires Unattended(cfg, run, clock)
    requires Bounded(db, organizer, cfg.Threshold(), cfg.Window()) && Past(db.quarantine, organizer, clock)
    ensures Bounded(After(db, run), organizer, cfg.Threshold(), cfg.Window())
    ensures CountInWindow(After(db, run).quarantine, organizer, a, cfg.Window()) <= cfg.Threshold()
    decreases |run|
  {
    hide Next, ModeOf, Past;
    if run != [] {
      AfterFirst(db, run);
      StepKeepsBound(run[0].0, db, run[0].1, organizer, clock);
      DegradedAdmissionsAreBounded(cfg, Next(run[0].0, db, run[0].1), run[1..], organizer, ClockAfter(clock, run[0].1), a);
    }
  }

  /** Where a run may start: no degraded admission yet, and no human has chosen to admit. */
  lemma FreshOrganizerIsBounded(cfg: Config, db: Db, organizer: Uuid, clock: Time)
    requires forall r | r in db.quarantine :: r.organizer == organizer ==> r.admittedAt.None?
    requires ModeOf(db, organizer) != OperatorAdmit
    ensures Bounded(db, organizer, cfg.Threshold(), cfg.Window()) && Past(db.quarantine, organizer, clock)
  {
    forall a: Time
      ensures CountInWindow(db.quarantine, organizer, a, cfg.Window()) == 0
    {
      NoneCounted(db.quarantine, organizer, a, a + cfg.Window());
    }
  }

  lemma {:induction false} NoneCounted(q: seq<QuarantineRow>, organizer: Uuid, after: Time, upTo: Time)
    requires forall r | r in q :: r.organizer == organizer ==> r.admittedAt.None?
    ensures Count(q, organizer, after, upTo) == 0
  {
    if q != [] {
      NoneCounted(q[..|q| - 1], organizer, after, upTo);
    }
  }

  // ---------------------------------------------------------------- what a human sets

  /** Nobody sets the mode of this organizer in this stretch. */
  ghost predicate Untouched(run: Run, organizer: Uuid, j: nat, k: nat)
    requires k <= |run|
  {
    forall i | j <= i < k :: !(run[i].1.ModeStep? && run[i].1.organizer == organizer)
  }

  lemma StepLeavesHumanMode(cfg: Config, db: Db, s: Step, organizer: Uuid)
    requires !(s.ModeStep? && s.organizer == organizer) && ModeOf(db, organizer) != Normal
    ensures ModeOf(Next(cfg, db, s), organizer) == ModeOf(db, organizer)
  {
    if !s.ModeStep? {
      hide Next;
      SystemOnlyDenies(cfg, db, s, organizer);
    }
  }

  /** A mode other than normal stands until a human sets it again: the system never takes a
      choice back, whatever degrades meanwhile. */
  lemma {:induction false} HumanModeStands(db: Db, run: Run, organizer: Uuid, j: nat, k: nat)
    requires j <= k <= |run| && Untouched(run, organizer, j, k) && ModeOf(After(db, run[..j]), organizer) != Normal
    ensures ModeOf(After(db, run[..k]), organizer) == ModeOf(After(db, run[..j]), organizer)
    decreases k
  {
    hide Next, ModeOf;
    if j < k {
      HumanModeStands(db, run, organizer, j, k - 1);
      StepTaken(db, run, k - 1);
      StepLeavesHumanMode(run[k - 1].0, After(db, run[..k - 1]), run[k - 1].1, organizer);
    }
  }

  /** Once a human sets an organizer to deny, and until the mode is set again, no scan of a
      suspect chain is freshly accepted, on any slot, in any direction. */
  lemma DenyStopsDegraded(db: Db, run: Run, organizer: Uuid, j: nat, k: nat)
    requires j < k < |run| && run[j].1 == ModeStep(organizer, OperatorDeny) && Untouched(run, organizer, j + 1, k)
    requires run[k].1.ScanStep? && run[k].1.verdict.Some? && run[k].1.scan.who.organizer == organizer
    ensures var r := ScanOf(run[k].0, After(db, run[..k]), run[k].1); r.Ok? && r.value.1.accepted ==> r.value.1.replayed
  {
    hide ScanOf;
    StepTaken(db, run, j);
    HumanModeStands(db, run, organizer, j + 1, k);
    DeniedWhileDenying(run[k].0, After(db, run[..k]), run[k].1);
  }

  lemma DeniedWhileDenying(cfg: Config, db: Db, s: Step)
    requires s.ScanStep? && s.verdict.Some? && ModeOf(db, s.scan.who.organizer) == OperatorDeny
    ensures var r := ScanOf(cfg, db, s); r.Ok? && r.value.1.accepted ==> r.value.1.replayed
  {
    hide Has, DegradedScan, RedeemVerified, PassVerified, ExitUnverifiedScan, Keeps;
    var x := s.scan;
    DegradedEffect(cfg, db, x.ticket, x.who, x.occurrence, Entry, s.verdict.value, s.now);
    DegradedEffect(cfg, db, x.ticket, x.who, x.occurrence, s.direction, s.verdict.value, s.now);
    ExitEffect(db, x, s.verdict.value, s.now);
  }
}
