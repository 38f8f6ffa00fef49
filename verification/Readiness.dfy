/** Storage readiness: the connection of the page, one generation after another. */
module Readiness {
  import opened Basics

  datatype Progress = Progress(connected: bool, locked: bool, recovered: bool, snapshot: bool, repaired: bool)

  datatype FailureCause = LockUnavailable | OpenFailed | IncompatibleSchema | UnexpectedlyClosed | StorageError

  datatype CloseCause = VersionChanged | Deleted | StoppedByPage

  datatype Status =
    | Idle
    | Opening(generation: nat, blocked: bool, progress: Progress)
    | Ready(generation: nat)
    | Draining(generation: nat)
    | Closed(generation: nat, closeCause: CloseCause)
    | Failed(generation: nat, failureCause: FailureCause)

  datatype Mode = Initializing | ReadyMode | DrainingMode | ClosedMode

  /** Where the run of a generation waits.  The code that awaits the open request goes on
      when its success event returns, before any other event, so there is no wait between. */
  datatype Phase = Requesting | Recovering | Reading | Repairing | Locking | Ended
  {
    predicate Working() {
      Recovering? || Reading? || Repairing?
    }
  }

  datatype LockWait = Waiting | Granted | Refused

  /** `mode` is that of its store, if it has one; `drain` holds whether the drain under way
      began with the deletion of the database. */
  datatype Connection = Connection(
    phase: Phase, open: bool, mode: Option<Mode>, draining: bool, closed: bool, heartbeat: bool,
    progress: Progress, lock: LockWait, drain: Option<bool>)

  /** Generations are numbered from one.  `held` is the page owner lock. */
  datatype Control = Control(
    state: Status, generation: nat, current: Option<nat>, snapshot: bool, connections: map<nat, Connection>, held: bool)

  const NOTHING_YET := Progress(false, false, false, false, false)
  const ALL_DONE := Progress(true, true, true, true, true)

  // ---------------------------------------------------------------- transitions

  predicate IsCurrent(c: Control, g: nat) {
    c.current == Some(g)
  }

  predicate Active(c: Control, g: nat)
    requires g in c.connections
  {
    IsCurrent(c, g) && !c.connections[g].draining && !c.connections[g].closed
  }

  function With(c: Control, g: nat, x: Connection): Control {
    c.(connections := c.connections[g := x])
  }

  function Shut(x: Connection): Connection {
    if x.closed then x else x.(closed := true, heartbeat := false, mode := if x.mode.Some? then Some(ClosedMode) else None)
  }

  function Failing(c: Control, g: nat, cause: FailureCause): Control
    requires g in c.connections
  {
    var d := With(c, g, Shut(c.connections[g]));
    if IsCurrent(c, g) then d.(snapshot := false, state := Failed(g, cause)) else d
  }

  /** Progress is shown only by the current generation, while it opens. */
  function Shown(c: Control, g: nat): Control
    requires g in c.connections
  {
    if Active(c, g) && c.state.Opening? then c.(state := c.state.(progress := c.connections[g].progress)) else c
  }

  function NewConnection(): Connection {
    Connection(Requesting, false, None, false, false, false, NOTHING_YET, Waiting, None)
  }

  /** An opened but unfinished connection of the previous generation is closed; a pending
      request is left to close its own. */
  function Begun(c: Control): Control {
    var g := c.generation + 1;
    var left := if c.current.Some? && c.current.value in c.connections
                   && c.connections[c.current.value].open && !c.connections[c.current.value].draining
                then c.connections[c.current.value := Shut(c.connections[c.current.value])] else c.connections;
    Control(Opening(g, false, NOTHING_YET), g, Some(g), false, left[g := NewConnection()], c.held)
  }

  function Started(c: Control): Control {
    if c.state == Idle then Begun(c) else c
  }

  function Retried(c: Control): Control {
    if c.state.Ready? || c.state.Draining? then c else Begun(c)
  }

  function Halted(c: Control): Control {
    var d := c.(current := None, snapshot := false);
    if c.current.Some? && c.current.value in c.connections then
      With(d, c.current.value, Shut(c.connections[c.current.value])).(state := Closed(c.current.value, StoppedByPage))
    else d
  }

  function RequestBlocked(c: Control, g: nat): Control
    requires g in c.connections
  {
    if Active(c, g) && c.state.Opening? then c.(state := c.state.(blocked := true)) else c
  }

  /** An abandoned generation closes its late connection. */
  function RequestSucceeded(c: Control, g: nat, compatible: bool): Control
    requires g in c.connections
  {
    if Active(c, g) then Attached(c, g, compatible) else With(c, g, c.connections[g].(phase := Ended))
  }

  function RequestFailed(c: Control, g: nat): Control
    requires g in c.connections
  {
    var d := With(c, g, c.connections[g].(phase := Ended));
    if Active(c, g) then Failing(d, g, OpenFailed) else d
  }

  function Attached(c: Control, g: nat, compatible: bool): Control
    requires g in c.connections
  {
    var x := c.connections[g].(open := true);
    if !compatible then Failing(With(c, g, x.(phase := Ended)), g, IncompatibleSchema)
    else Shown(With(c, g, x.(phase := Recovering, mode := Some(Initializing), progress := x.progress.(connected := true))), g)
  }

  function Advanced(x: Connection): Connection {
    match x.phase
    case Recovering => x.(phase := Reading, progress := x.progress.(recovered := true))
    case Reading => x.(phase := Repairing, progress := x.progress.(snapshot := true))
    case Repairing => x.(phase := Locking, progress := x.progress.(repaired := true))
    case _ => x
  }

  /** Recovery, the first reads or the pending repairs are done. */
  function Proceeded(c: Control, g: nat): Control
    requires g in c.connections
  {
    if !Active(c, g) then With(c, g, c.connections[g].(phase := Ended))
    else Shown(With(c, g, Advanced(c.connections[g])), g)
  }

  function Broken(c: Control, g: nat): Control
    requires g in c.connections
  {
    var d := With(c, g, c.connections[g].(phase := Ended));
    if Active(c, g) then Failing(d, g, StorageError) else d
  }

  function LockArrived(c: Control, g: nat): Control
    requires g in c.connections
  {
    var x := c.connections[g];
    Shown(With(c, g, x.(lock := Granted, progress := x.progress.(locked := true))).(held := true), g)
  }

  function LockDenied(c: Control, g: nat): Control
    requires g in c.connections
  {
    With(c, g, c.connections[g].(lock := Refused))
  }

  /** The last await: the owner lock. */
  function Finished(c: Control, g: nat): Control
    requires g in c.connections
  {
    var x := c.connections[g].(phase := Ended);
    if !Active(c, g) then With(c, g, x)
    else if x.lock == Refused then Failing(With(c, g, x), g, LockUnavailable)
    else With(c, g, x.(mode := Some(ReadyMode), heartbeat := true)).(snapshot := true, state := Ready(g))
  }

  function VersionChange(c: Control, g: nat, deleted: bool): Control
    requires g in c.connections
  {
    var x := c.connections[g];
    if x.closed || x.draining then c
    else
      var d := With(c, g, x.(draining := true, heartbeat := false, drain := Some(deleted),
                             mode := if x.mode.Some? then Some(DrainingMode) else None));
      if IsCurrent(c, g) then d.(snapshot := false, state := Draining(g)) else d
  }

  function Drained(c: Control, g: nat): Control
    requires g in c.connections && c.connections[g].drain.Some?
  {
    var x := c.connections[g];
    var d := With(c, g, Shut(x).(drain := None));
    if IsCurrent(c, g) then d.(state := Closed(g, if x.drain.value then Deleted else VersionChanged)) else d
  }

  /** The close event does not ask whether its connection is still the current one. */
  function ClosedUnexpectedly(c: Control, g: nat): Control
    requires g in c.connections
  {
    if c.connections[g].closed then c
    else With(c, g, Shut(c.connections[g])).(snapshot := false, state := Failed(g, UnexpectedlyClosed))
  }

  /** The page writes through this generation's store, if any. */
  function ReadyStore(c: Control): Option<nat> {
    if c.state.Ready? && c.current.Some? && c.current.value in c.connections
       && c.connections[c.current.value].mode == Some(ReadyMode)
    then c.current else None
  }

  // ---------------------------------------------------------------- steps

  datatype Event =
    | Start | Retry | Stop
    | Blocks(g: nat) | Opens(g: nat, compatible: bool) | FailsToOpen(g: nat)
    | Proceeds(g: nat) | Breaks(g: nat) | Locks(g: nat) | LockFails(g: nat) | Finishes(g: nat)
    | Changes(g: nat, deleted: bool) | Drains(g: nat) | Closes(g: nat)
  {
    predicate OfPage() {
      Start? || Retry? || Stop?
    }
  }

  predicate Enabled(c: Control, e: Event) {
    if e.OfPage() then true
    else
      && e.g in c.connections
      && var x := c.connections[e.g];
         match e
         case Blocks(_) => x.phase == Requesting
         case Opens(_, _) => x.phase == Requesting
         case FailsToOpen(_) => x.phase == Requesting
         case Proceeds(_) => x.phase.Working()
         case Breaks(_) => x.phase.Working()
         case Locks(_) => x.lock == Waiting
         case LockFails(_) => x.lock == Waiting
         case Finishes(_) => x.phase == Locking && x.lock != Waiting
         case Changes(_, _) => x.open
         case Drains(_) => x.drain.Some?
         case Closes(_) => x.open
         case _ => true
  }

  function Next(c: Control, e: Event): Control
    requires Enabled(c, e)
  {
    match e
    case Start => Started(c)
    case Retry => Retried(c)
    case Stop => Halted(c)
    case Blocks(g) => RequestBlocked(c, g)
    case Opens(g, compatible) => RequestSucceeded(c, g, compatible)
    case FailsToOpen(g) => RequestFailed(c, g)
    case Proceeds(g) => Proceeded(c, g)
    case Breaks(g) => Broken(c, g)
    case Locks(g) => LockArrived(c, g)
    case LockFails(g) => LockDenied(c, g)
    case Finishes(g) => Finished(c, g)
    case Changes(g, deleted) => VersionChange(c, g, deleted)
    case Drains(g) => Drained(c, g)
    case Closes(g) => ClosedUnexpectedly(c, g)
  }

  const FRESH := Control(Idle, 0, None, false, map[], false)

  ghost predicate IsRun(events: seq<Event>, states: seq<Control>) {
    && |states| == |events| + 1 && states[0] == FRESH
    && forall i | 0 <= i < |events| :: Enabled(states[i], events[i]) && states[i + 1] == Next(states[i], events[i])
  }

  // ---------------------------------------------------------------- the invariant

  predicate Unopened(x: Connection) {
    x.mode.None? && !x.open && !x.draining && x.drain.None?
  }

  /** What holds of one connection. */
  predicate ConnectionOk(c: Control, g: nat)
    requires g in c.connections
  {
    Fine(c.connections[g], c.held, IsCurrent(c, g), c.state == Draining(g))
  }

  /** A connection is open only while it is the current one, and a drain is shown until it
      ends; a store takes no writes once its connection is closed. */
  predicate Fine(x: Connection, held: bool, current: bool, drainShown: bool) {
    && (x.lock == Granted ==> held && x.progress.locked)
    && (match x.phase
        case Requesting => Unopened(x)
        case Recovering => x.open && x.mode.Some? && x.progress.connected
        case Reading => x.open && x.mode.Some? && x.progress.connected && x.progress.recovered
        case Repairing => x.open && x.mode.Some? && x.progress.(locked := true, repaired := true) == ALL_DONE
        case Locking => x.open && x.mode.Some? && x.progress.(locked := true) == ALL_DONE
        case Ended => true)
    && (x.open && !x.closed ==> current && (x.draining ==> drainShown))
    && (x.closed ==> x.mode.None? || x.mode == Some(ClosedMode))
    && (x.mode.Some? ==> x.open)
    && (x.drain.Some? ==> x.draining)
    && (x.heartbeat <==> x.mode == Some(ReadyMode))
    && (x.heartbeat ==> !x.draining && !x.closed && x.open && x.phase == Ended && x.lock == Granted && x.progress == ALL_DONE)
  }

  /** What holds of the published state. */
  predicate StateOk(c: Control) {
    match c.state
    case Ready(g) => IsCurrent(c, g) && g in c.connections && c.connections[g].heartbeat && c.snapshot
    case Opening(g, _, p) => IsCurrent(c, g) && g in c.connections && Active(c, g) && p == c.connections[g].progress
    case Idle => c.current.None?
    case Draining(g) => g in c.connections
    case Closed(g, _) => g in c.connections
    case Failed(g, _) => g in c.connections
  }

  predicate Invariant(c: Control) {
    && (forall g | g in c.connections :: 1 <= g <= c.generation && ConnectionOk(c, g))
    && (c.current.Some? ==> c.current.value == c.generation && c.generation in c.connections)
    && (c.snapshot ==> c.state.Ready?)
    && StateOk(c)
  }

  lemma FreshIsFine()
    ensures Invariant(FRESH)
  {
  }

  /** What the invariant says of one connection and of the state. */
  predicate Local(c: Control, g: nat) {
    g in c.connections && ConnectionOk(c, g) && StateOk(c) && (c.snapshot ==> c.state.Ready?)
  }

  /** What a step of one connection may do: an abandoned one publishes nothing. */
  predicate Effect(c: Control, d: Control, g: nat) {
    && d.connections.Keys == c.connections.Keys && d.generation == c.generation && (c.held ==> d.held)
    && d.current == c.current
    && (forall k | k in c.connections && k != g :: d.connections[k] == c.connections[k])
    && (!IsCurrent(c, g) ==> d.state == c.state && d.snapshot == c.snapshot)
    && g in d.connections && ConnectionOk(d, g) && StateOk(d) && (d.snapshot ==> d.state.Ready?)
  }

  /** Connections the step leaves alone stay fine. */
  lemma OneConnection(c: Control, d: Control, g: nat)
    requires Invariant(c) && g in c.connections && Effect(c, d, g)
    ensures Invariant(d)
  {
    hide Fine, StateOk;
    forall k | k in d.connections
      ensures 1 <= k <= d.generation && ConnectionOk(d, k)
    {
      if k != g {
        FineElsewhere(c.connections[k], c.held, d.held, IsCurrent(c, k), c.state == Draining(k), d.state == Draining(k));
      }
    }
  }

  lemma FineElsewhere(x: Connection, held: bool, held': bool, current: bool, drainShown: bool, drainShown': bool)
    requires Fine(x, held, current, drainShown) && (held ==> held') && (current ==> drainShown == drainShown')
    ensures Fine(x, held', current, drainShown')
  {
  }

  lemma StepKeepsInvariant(c: Control, e: Event)
    requires Invariant(c) && Enabled(c, e)
    ensures Invariant(Next(c, e))
  {
    hide Invariant, ConnectionOk, StateOk;
    if e.OfPage() {
      hide Begun, Halted;
      BegunKeeps(c);
      HaltedKeeps(c);
    } else {
      hide Enabled, Next, Effect;
      ConnectionStep(c, e);
      EffectIsOfConnection(c, Next(c, e), e.g);
      OneConnection(c, Next(c, e), e.g);
    }
  }

  lemma EffectIsOfConnection(c: Control, d: Control, g: nat)
    requires Effect(c, d, g)
    ensures g in c.connections
  {
    hide ConnectionOk, StateOk;
  }

  /** While a drain is shown, storage is not retried; so what is left behind is closed. */
  lemma BegunKeeps(c: Control)
    requires Invariant(c)
    ensures !c.state.Draining? ==> Invariant(Begun(c))
  {
    hide Shut, Fine;
    FreshConnection(c.held);
    if !c.state.Draining? {
      forall k | k in Begun(c).connections
        ensures 1 <= k <= c.generation + 1 && ConnectionOk(Begun(c), k)
      {
        if k in c.connections && k != c.generation + 1 {
          LeftBehind(c, k);
        }
      }
    }
  }

  lemma FreshConnection(held: bool)
    ensures Fine(NewConnection(), held, true, false)
  {
  }

  lemma LeftBehind(c: Control, k: nat)
    requires Invariant(c) && k in c.connections && !c.state.Draining?
    ensures var x := c.connections[k];
            Fine(if c.current == Some(k) && x.open && !x.draining then Shut(x) else x, c.held, false, false)
  {
    var x := c.connections[k];
    assert ConnectionOk(c, k);
  }

  lemma HaltedKeeps(c: Control)
    requires Invariant(c)
    ensures Invariant(Halted(c))
  {
    hide Fine, Shut;
    forall k | k in Halted(c).connections
      ensures 1 <= k <= c.generation && ConnectionOk(Halted(c), k)
    {
      LeftClosed(c, k);
    }
  }

  lemma LeftClosed(c: Control, k: nat)
    requires Invariant(c) && k in c.connections
    ensures Fine(if c.current == Some(k) then Shut(c.connections[k]) else c.connections[k], c.held, false, false)
  {
    assert ConnectionOk(c, k);
  }

  lemma BlockEffect(c: Control, g: nat)
    requires Local(c, g) && c.connections[g].phase == Requesting
    ensures Effect(c, RequestBlocked(c, g), g)
  {
  }

  lemma OpenEffect(c: Control, g: nat, compatible: bool)
    requires Local(c, g) && c.connections[g].phase == Requesting
    ensures Effect(c, RequestSucceeded(c, g, compatible), g)
  {
  }

  lemma FailEffect(c: Control, g: nat)
    requires Local(c, g) && c.connections[g].phase == Requesting
    ensures Effect(c, RequestFailed(c, g), g)
  {
  }

  lemma BreakEffect(c: Control, g: nat)
    requires Local(c, g) && c.connections[g].phase.Working()
    ensures Effect(c, Broken(c, g), g)
  {
  }

  lemma FinishEffect(c: Control, g: nat)
    requires Local(c, g) && c.connections[g].phase == Locking && c.connections[g].lock != Waiting
    ensures Effect(c, Finished(c, g), g)
  {
  }

  lemma LockEffect(c: Control, g: nat)
    requires Local(c, g) && c.connections[g].lock == Waiting
    ensures Effect(c, LockArrived(c, g), g)
  {
  }

  lemma DenyEffect(c: Control, g: nat)
    requires Local(c, g) && c.connections[g].lock == Waiting
    ensures Effect(c, LockDenied(c, g), g)
  {
  }

  lemma ChangeEffect(c: Control, g: nat, deleted: bool)
    requires Local(c, g) && c.connections[g].open
    ensures Effect(c, VersionChange(c, g, deleted), g)
  {
  }

  lemma DrainEffect(c: Control, g: nat)
    requires Local(c, g) && c.connections[g].drain.Some?
    ensures Effect(c, Drained(c, g), g)
  {
  }

  lemma CloseEffect(c: Control, g: nat)
    requires Local(c, g) && c.connections[g].open
    ensures Effect(c, ClosedUnexpectedly(c, g), g)
  {
  }

  lemma AdvancedIsFine(x: Connection, held: bool, current: bool, shown: bool)
    requires Fine(x, held, current, shown) && x.phase.Working()
    ensures Fine(Advanced(x), held, current, shown) && Fine(x.(phase := Ended), held, current, shown)
    ensures Advanced(x).heartbeat == x.heartbeat && Advanced(x).draining == x.draining && Advanced(x).closed == x.closed
  {
  }

  lemma ProceedEffect(c: Control, g: nat)
    requires Local(c, g) && c.connections[g].phase.Working()
    ensures Effect(c, Proceeded(c, g), g)
  {
    hide Fine, Advanced;
    AdvancedIsFine(c.connections[g], c.held, IsCurrent(c, g), c.state == Draining(g));
  }

  lemma LocalAt(c: Control, g: nat)
    requires Invariant(c) && g in c.connections
    ensures Local(c, g)
  {
  }

  lemma ConnectionStep(c: Control, e: Event)
    requires Invariant(c) && Enabled(c, e) && !e.OfPage()
    ensures Effect(c, Next(c, e), e.g)
  {
    LocalAt(c, e.g);
    hide Invariant, Effect, Local, RequestBlocked, RequestSucceeded, RequestFailed, Proceeded, Broken, Finished, LockArrived,
         LockDenied, VersionChange, Drained, ClosedUnexpectedly;
    match e {
      case Proceeds(g) => ProceedEffect(c, g);
      case Breaks(g) => BreakEffect(c, g);
      case Finishes(g) => FinishEffect(c, g);
      case Locks(g) => LockEffect(c, g);
      case LockFails(g) => DenyEffect(c, g);
      case Changes(g, deleted) => ChangeEffect(c, g, deleted);
      case Drains(g) => DrainEffect(c, g);
      case Closes(g) => CloseEffect(c, g);
      case Blocks(g) => BlockEffect(c, g);
      case Opens(g, compatible) => OpenEffect(c, g, compatible);
      case FailsToOpen(g) => FailEffect(c, g);
      case Start =>
      case Retry =>
      case Stop =>
    }
  }

  lemma {:induction false} RunKeepsInvariant(events: seq<Event>, states: seq<Control>, i: nat)
    requires IsRun(events, states) && i <= |events|
    ensures Invariant(states[i])
  {
    hide Enabled, Next, Invariant;
    if i == 0 {
      FreshIsFine();
    } else {
      RunKeepsInvariant(events, states, i - 1);
      StepKeepsInvariant(states[i - 1], events[i - 1]);
    }
  }

  // ---------------------------------------------------------------- what readiness means

  /** What a scan may rely on while this generation's store is handed out. */
  ghost predicate Usable(c: Control, g: nat) {
    && c.state == Ready(g) && c.current == Some(g) && g == c.generation && c.held && c.snapshot && g in c.connections
    && (var x := c.connections[g];
        x.open && !x.closed && !x.draining && x.heartbeat && x.lock == Granted && x.progress == ALL_DONE && x.mode == Some(ReadyMode))
    && forall k | k in c.connections && k != g :: Retired(c.connections[k])
  }

  /** A connection that was never opened or is closed; its store, if any, takes no writes. */
  predicate Retired(x: Connection) {
    (!x.open || x.closed) && (x.mode.None? || x.mode == Some(ClosedMode))
  }

  lemma ReadyIsUsable(c: Control)
    requires Invariant(c)
    ensures ReadyStore(c).Some? <==> c.state.Ready?
    ensures ReadyStore(c).Some? ==> Usable(c, ReadyStore(c).value)
    ensures forall k | k in c.connections && !Retired(c.connections[k]) :: c.current == Some(k)
  {
  }

  /** In every state of every run there is a ready store exactly while the page says ready.
      Then the owner lock is held, recovery, the first reads and the repairs are done, the
      connection is open and is the current one, and every other connection was never opened
      or is closed, so that no other store takes any write.  Ready or not, at most one store
      takes writes, that of the current connection. */
  lemma ReadyMeansUsable(events: seq<Event>, states: seq<Control>, i: nat)
    requires IsRun(events, states) && i <= |events|
    ensures var c := states[i];
            && (ReadyStore(c).Some? <==> c.state.Ready?)
            && (ReadyStore(c).Some? ==> Usable(c, ReadyStore(c).value))
            && forall k | k in c.connections && !Retired(c.connections[k]) :: c.current == Some(k)
  {
    hide IsRun, Invariant, ReadyStore, Usable, Retired;
    RunKeepsInvariant(events, states, i);
    Bounds(events, states, i);
    ReadyIsUsable(states[i]);
  }

  lemma Bounds(events: seq<Event>, states: seq<Control>, i: nat)
    requires IsRun(events, states) && i <= |events|
    ensures i < |states|
  {
  }

  lemma StepKeepsTheLock(c: Control, e: Event)
    requires Enabled(c, e)
    ensures c.held ==> Next(c, e).held
    ensures c.generation <= Next(c, e).generation
  {
  }

  /** The lock and the numbering of generations only ever move forward. */
  lemma {:induction false} LockIsForThePage(events: seq<Event>, states: seq<Control>, i: nat, j: nat)
    requires IsRun(events, states) && i <= j <= |events|
    ensures (states[i].held ==> states[j].held) && states[i].generation <= states[j].generation
  {
    hide Enabled, Next;
    if i < j {
      LockIsForThePage(events, states, i, j - 1);
      StepKeepsTheLock(states[j - 1], events[j - 1]);
    }
  }

  // ---------------------------------------------------------------- abandoned generations

  /** In every state of every run, an abandoned generation publishes nothing: whatever event
      it has, the late close of its connection included, leaves what the page shows and the
      store it hands out as they were. */
  lemma AbandonedIsSilent(events: seq<Event>, states: seq<Control>, i: nat)
    requires IsRun(events, states) && i < |events|
    requires !events[i].OfPage() && !IsCurrent(states[i], events[i].g)
    ensures states[i + 1].state == states[i].state && states[i + 1].snapshot == states[i].snapshot
    ensures ReadyStore(states[i + 1]) == ReadyStore(states[i])
  {
    hide Invariant, Enabled, Next, ConnectionOk, StateOk;
    RunKeepsInvariant(events, states, i);
    ConnectionStep(states[i], events[i]);
  }

  // ---------------------------------------------------------------- a refused lock

  /** Only an answer from the lock manager settles the lock of a generation. */
  lemma LockSettlesOnce(c: Control, g: nat)
    requires g in c.connections
    ensures RequestBlocked(c, g).connections[g].lock == c.connections[g].lock
    ensures forall compatible :: RequestSucceeded(c, g, compatible).connections[g].lock == c.connections[g].lock
    ensures RequestFailed(c, g).connections[g].lock == c.connections[g].lock
    ensures Proceeded(c, g).connections[g].lock == c.connections[g].lock
    ensures Broken(c, g).connections[g].lock == c.connections[g].lock
  {
  }

  lemma LockSettlesOnceMore(c: Control, g: nat)
    requires g in c.connections
    ensures Finished(c, g).connections[g].lock == c.connections[g].lock
    ensures forall deleted :: VersionChange(c, g, deleted).connections[g].lock == c.connections[g].lock
    ensures c.connections[g].drain.Some? ==> Drained(c, g).connections[g].lock == c.connections[g].lock
    ensures ClosedUnexpectedly(c, g).connections[g].lock == c.connections[g].lock
  {
  }

  lemma PageKeepsRefusal(c: Control, g: nat)
    requires Invariant(c) && g in c.connections
    ensures g in Begun(c).connections && Begun(c).connections[g].lock == c.connections[g].lock
    ensures g in Halted(c).connections && Halted(c).connections[g].lock == c.connections[g].lock
  {
    hide Fine, StateOk;
  }

  lemma StepKeepsRefusal(c: Control, e: Event, g: nat)
    requires Invariant(c) && Enabled(c, e) && g in c.connections && c.connections[g].lock == Refused
    ensures g in Next(c, e).connections && Next(c, e).connections[g].lock == Refused
  {
    hide Invariant, Fine, StateOk, Begun, Halted, RequestBlocked, RequestSucceeded, RequestFailed, Proceeded, Broken, Finished,
         LockArrived, LockDenied, VersionChange, Drained, ClosedUnexpectedly;
    if e.OfPage() {
      PageKeepsRefusal(c, g);
    } else {
      ConnectionStep(c, e);
      if g == e.g {
        LockSettlesOnce(c, g);
        LockSettlesOnceMore(c, g);
      }
    }
  }

  /** A generation whose lock request was refused is never ready. */
  lemma {:induction false} RefusedIsNeverReady(events: seq<Event>, states: seq<Control>, i: nat, j: nat, g: nat)
    requires IsRun(events, states) && i < j <= |events| && events[i] == LockFails(g)
    ensures g in states[j].connections && states[j].connections[g].lock == Refused
    ensures states[j].state != Ready(g) && ReadyStore(states[j]) != Some(g)
  {
    hide Enabled, Next, Invariant, ReadyStore, Usable;
    if j == i + 1 {
      RunKeepsInvariant(events, states, i);
      RefusalIsKept(states[i], g);
    } else {
      RefusedIsNeverReady(events, states, i, j - 1, g);
      RunKeepsInvariant(events, states, j - 1);
      StepKeepsRefusal(states[j - 1], events[j - 1], g);
    }
    RunKeepsInvariant(events, states, j);
    ReadyIsUsable(states[j]);
    RefusedIsNotUsable(states[j], g);
  }

  lemma RefusalIsKept(c: Control, g: nat)
    requires Enabled(c, LockFails(g))
    ensures g in Next(c, LockFails(g)).connections && Next(c, LockFails(g)).connections[g].lock == Refused
  {
  }

  lemma RefusedIsNotUsable(c: Control, g: nat)
    requires Invariant(c) && g in c.connections && c.connections[g].lock == Refused
    ensures c.state != Ready(g)
  {
  }

  // ---------------------------------------------------------------- blocked requests

  /** What the page knows, but for the flag that its request is blocked. */
  function Unblocked(c: Control): Control {
    if c.state.Opening? then c.(state := c.state.(blocked := false)) else c
  }

  lemma UnblockedPage(c: Control)
    ensures Unblocked(Begun(c)) == Unblocked(Begun(Unblocked(c))) && Unblocked(Halted(c)) == Unblocked(Halted(Unblocked(c)))
  {
    hide Shut;
  }

  lemma UnblockedRequest(c: Control, g: nat, compatible: bool)
    requires g in c.connections
    ensures Unblocked(RequestBlocked(c, g)) == Unblocked(c)
    ensures Unblocked(RequestSucceeded(c, g, compatible)) == Unblocked(RequestSucceeded(Unblocked(c), g, compatible))
    ensures Unblocked(RequestFailed(c, g)) == Unblocked(RequestFailed(Unblocked(c), g))
  {
    hide Shut;
  }

  lemma UnblockedRun(c: Control, g: nat)
    requires g in c.connections
    ensures Unblocked(Proceeded(c, g)) == Unblocked(Proceeded(Unblocked(c), g))
    ensures Unblocked(Broken(c, g)) == Unblocked(Broken(Unblocked(c), g))
    ensures Unblocked(Finished(c, g)) == Unblocked(Finished(Unblocked(c), g))
  {
    hide Shut, Advanced;
  }

  lemma UnblockedOutside(c: Control, g: nat, deleted: bool)
    requires g in c.connections
    ensures Unblocked(LockArrived(c, g)) == Unblocked(LockArrived(Unblocked(c), g))
    ensures Unblocked(LockDenied(c, g)) == Unblocked(LockDenied(Unblocked(c), g))
    ensures Unblocked(VersionChange(c, g, deleted)) == Unblocked(VersionChange(Unblocked(c), g, deleted))
    ensures c.connections[g].drain.Some? ==> Unblocked(Drained(c, g)) == Unblocked(Drained(Unblocked(c), g))
    ensures Unblocked(ClosedUnexpectedly(c, g)) == Unblocked(ClosedUnexpectedly(Unblocked(c), g))
  {
    hide Shut;
  }

  /** A blocked request is progress only: whatever happens next, readiness included, happens
      as if it had not been blocked. */
  lemma BlockedIsInvisible(c: Control, e: Event)
    requires Enabled(c, e)
    ensures Enabled(Unblocked(c), e) && ReadyStore(Unblocked(c)) == ReadyStore(c)
    ensures Unblocked(Next(c, e)) == if e.Blocks? then Unblocked(c) else Unblocked(Next(Unblocked(c), e))
  {
    hide Begun, Halted, RequestBlocked, RequestSucceeded, RequestFailed, Proceeded, Broken, Finished, LockArrived, LockDenied,
         VersionChange, Drained, ClosedUnexpectedly;
    if e.OfPage() {
      UnblockedPage(c);
    } else {
      UnblockedRequest(c, e.g, e.Opens? && e.compatible);
      UnblockedRun(c, e.g);
      UnblockedOutside(c, e.g, e.Changes? && e.deleted);
    }
  }

  // ---------------------------------------------------------------- the object

  class StorageController {
    var state: Status
    var generation: nat
    var current: Option<nat>
    var initialReads: bool
    var connections: map<nat, Connection>
    var lockHeld: bool

    function Now(): Control
      reads this
    {
      Control(state, generation, current, initialReads, connections, lockHeld)
    }

    predicate Valid()
      reads this
    {
      Invariant(Now())
    }

    constructor ()
      ensures Valid() && Now() == FRESH
    {
      state, generation, current, initialReads, connections, lockHeld := Idle, 0, None, false, map[], false;
      new;
      FreshIsFine();
    }

    function IsActive(g: nat): bool
      requires g in connections
      reads this
    {
      current == Some(g) && !connections[g].draining && !connections[g].closed
    }

    /** The explicit close path. */
    method CloseConnection(g: nat)
      requires g in connections
      modifies this`connections
      ensures connections == old(connections)[g := Shut(old(connections)[g])]
    {
      var x := connections[g];
      if x.closed {
        assert connections == connections[g := x];
        return;
      }
      x := x.(closed := true, heartbeat := false);
      if x.mode.Some? {
        x := x.(mode := Some(ClosedMode));
      }
      connections := connections[g := x];
    }

    method Fail(g: nat, cause: FailureCause)
      requires g in connections
      modifies this
      ensures Now() == Failing(old(Now()), g, cause)
    {
      CloseConnection(g);
      if current == Some(g) {
        initialReads, state := false, Failed(g, cause);
      }
    }

    method PublishProgress(g: nat)
      requires g in connections
      modifies this`state
      ensures Now() == Shown(old(Now()), g)
    {
      if IsActive(g) && state.Opening? {
        state := state.(progress := connections[g].progress);
      }
    }

    method SetPhase(g: nat, phase: Phase)
      requires g in connections
      modifies this`connections
      ensures Now() == With(old(Now()), g, old(connections)[g].(phase := phase))
    {
      connections := connections[g := connections[g].(phase := phase)];
    }

    method Begin()
      requires Valid() && !state.Draining?
      modifies this
      ensures Valid() && Now() == Begun(old(Now()))
    {
      hide Shut, Invariant;
      BegunKeeps(Now());
      var previous := current;
      generation := generation + 1;
      current, initialReads := Some(generation), false;
      if previous.Some? && previous.value in connections && connections[previous.value].open && !connections[previous.value].draining {
        CloseConnection(previous.value);
      }
      connections := connections[generation := NewConnection()];
      state := Opening(generation, false, NOTHING_YET);
    }

    method StartFirst()
      requires Valid()
      modifies this
      ensures Valid() && Now() == Next(old(Now()), Start)
    {
      hide Begun, Invariant;
      if state == Idle {
        Begin();
      }
    }

    method RetryStorage()
      requires Valid()
      modifies this
      ensures Valid() && Now() == Next(old(Now()), Retry)
    {
      hide Begun, Invariant;
      if state.Ready? || state.Draining? {
        return;
      }
      Begin();
    }

    method StopStorage()
      requires Valid()
      modifies this
      ensures Valid() && Now() == Next(old(Now()), Stop)
    {
      hide Shut, Invariant;
      HaltedKeeps(Now());
      var previous := current;
      current, initialReads := None, false;
      if previous.Some? && previous.value in connections {
        CloseConnection(previous.value);
        state := Closed(previous.value, StoppedByPage);
      }
    }

    method OnBlocked(g: nat)
      requires Valid() && Enabled(Now(), Blocks(g))
      modifies this
      ensures Valid() && Now() == Next(old(Now()), Blocks(g))
    {
      hide Invariant;
      StepKeepsInvariant(Now(), Blocks(g));
      if IsActive(g) && state.Opening? {
        state := state.(blocked := true);
      }
    }

    /** A late connection is closed at once; otherwise the run goes on with it. */
    method OnSuccess(g: nat, compatible: bool)
      requires Valid() && Enabled(Now(), Opens(g, compatible))
      modifies this
      ensures Valid() && Now() == Next(old(Now()), Opens(g, compatible))
    {
      hide Invariant, Attached;
      StepKeepsInvariant(Now(), Opens(g, compatible));
      if IsActive(g) {
        Attach(g, compatible);
      } else {
        SetPhase(g, Ended);
      }
    }

    /** Handlers first, then the schema, then a store. */
    method Attach(g: nat, compatible: bool)
      requires g in connections
      modifies this
      ensures Now() == Attached(old(Now()), g, compatible)
    {
      hide Failing, Shown;
      var x := connections[g].(open := true);
      if !compatible {
        connections := connections[g := x.(phase := Ended)];
        Fail(g, IncompatibleSchema);
        return;
      }
      connections := connections[g := x.(phase := Recovering, mode := Some(Initializing), progress := x.progress.(connected := true))];
      PublishProgress(g);
    }

    method OnError(g: nat)
      requires Valid() && Enabled(Now(), FailsToOpen(g))
      modifies this
      ensures Valid() && Now() == Next(old(Now()), FailsToOpen(g))
    {
      hide Failing, Invariant;
      StepKeepsInvariant(Now(), FailsToOpen(g));
      var active := IsActive(g);
      SetPhase(g, Ended);
      if active {
        Fail(g, OpenFailed);
      }
    }

    method Proceed(g: nat)
      requires Valid() && Enabled(Now(), Proceeds(g))
      modifies this
      ensures Valid() && Now() == Next(old(Now()), Proceeds(g))
    {
      hide Shown, Invariant;
      StepKeepsInvariant(Now(), Proceeds(g));
      if !IsActive(g) {
        SetPhase(g, Ended);
        return;
      }
      connections := connections[g := Advanced(connections[g])];
      PublishProgress(g);
    }

    method Break(g: nat)
      requires Valid() && Enabled(Now(), Breaks(g))
      modifies this
      ensures Valid() && Now() == Next(old(Now()), Breaks(g))
    {
      hide Failing, Invariant;
      StepKeepsInvariant(Now(), Breaks(g));
      var active := IsActive(g);
      SetPhase(g, Ended);
      if active {
        Fail(g, StorageError);
      }
    }

    method LockAcquired(g: nat)
      requires Valid() && Enabled(Now(), Locks(g))
      modifies this
      ensures Valid() && Now() == Next(old(Now()), Locks(g))
    {
      hide Shown, Invariant;
      StepKeepsInvariant(Now(), Locks(g));
      var x := connections[g];
      lockHeld := true;
      connections := connections[g := x.(lock := Granted, progress := x.progress.(locked := true))];
      PublishProgress(g);
    }

    method LockRefused(g: nat)
      requires Valid() && Enabled(Now(), LockFails(g))
      modifies this
      ensures Valid() && Now() == Next(old(Now()), LockFails(g))
    {
      hide Invariant;
      StepKeepsInvariant(Now(), LockFails(g));
      connections := connections[g := connections[g].(lock := Refused)];
    }

    /** What follows the wait for the lock: publish ready, or not. */
    method Finish(g: nat)
      requires Valid() && Enabled(Now(), Finishes(g))
      modifies this
      ensures Valid() && Now() == Next(old(Now()), Finishes(g))
      ensures ReadyStore(Now()) == Some(g) <==> Active(old(Now()), g) && old(connections)[g].lock == Granted
      ensures ReadyStore(Now()) == Some(g) ==> Usable(Now(), g)
    {
      hide Failing, Invariant, Usable;
      StepKeepsInvariant(Now(), Finishes(g));
      ReadyIsUsable(Next(Now(), Finishes(g)));
      FinishingReadies(Now(), g);
      var active := IsActive(g);
      SetPhase(g, Ended);
      if !active {
        return;
      }
      if connections[g].lock == Refused {
        Fail(g, LockUnavailable);
        return;
      }
      initialReads := true;
      connections := connections[g := connections[g].(mode := Some(ReadyMode), heartbeat := true)];
      assert connections == old(connections)[g := old(connections)[g].(phase := Ended, mode := Some(ReadyMode), heartbeat := true)];
      state := Ready(g);
    }

    method OnVersionChange(g: nat, deleted: bool)
      requires Valid() && Enabled(Now(), Changes(g, deleted))
      modifies this
      ensures Valid() && Now() == Next(old(Now()), Changes(g, deleted))
    {
      hide Invariant;
      StepKeepsInvariant(Now(), Changes(g, deleted));
      var x := connections[g];
      if x.closed || x.draining {
        return;
      }
      x := x.(draining := true, heartbeat := false, drain := Some(deleted));
      if current == Some(g) {
        initialReads, state := false, Draining(g);
      }
      if x.mode.Some? {
        x := x.(mode := Some(DrainingMode));
      }
      connections := connections[g := x];
    }

    /** Every attempt on the draining connection has settled. */
    method DrainSettled(g: nat)
      requires Valid() && Enabled(Now(), Drains(g))
      modifies this
      ensures Valid() && Now() == Next(old(Now()), Drains(g))
    {
      hide Shut, Invariant;
      StepKeepsInvariant(Now(), Drains(g));
      var cause := if connections[g].drain.value then Deleted else VersionChanged;
      CloseConnection(g);
      connections := connections[g := connections[g].(drain := None)];
      assert connections == old(connections)[g := Shut(old(connections)[g]).(drain := None)];
      if current == Some(g) {
        state := Closed(g, cause);
      }
    }

    method OnUnexpectedClose(g: nat)
      requires Valid() && Enabled(Now(), Closes(g))
      modifies this
      ensures Valid() && Now() == Next(old(Now()), Closes(g))
    {
      hide Invariant;
      StepKeepsInvariant(Now(), Closes(g));
      if connections[g].closed {
        return;
      }
      CloseConnection(g);
      initialReads, state := false, Failed(g, UnexpectedlyClosed);
    }

    /** The store a scan writes through: there is one exactly while the page is ready, and
        then the lock is held, the connection is open and no other store takes writes. */
    method ReadyWriter() returns (g: Option<nat>)
      requires Valid()
      ensures g.Some? <==> state.Ready?
      ensures g.Some? ==> Usable(Now(), g.value)
    {
      hide Invariant, Usable;
      ReadyIsUsable(Now());
      if state.Ready? && current.Some? && current.value in connections && connections[current.value].mode == Some(ReadyMode) {
        return current;
      }
      g := None;
    }
  }

  lemma FinishingReadies(c: Control, g: nat)
    requires Invariant(c) && Enabled(c, Finishes(g))
    ensures ReadyStore(Finished(c, g)) == Some(g) <==> Active(c, g) && c.connections[g].lock == Granted
  {
  }
}
