/** Which event brings which published state, and that storage can always be made ready again. */
module ReadinessLaws {
  import opened Basics
  import opened Readiness

  /** The event finds its connection current, not draining and not closed. */
  predicate Concerns(c: Control, g: nat) {
    c.current == Some(g) && g in c.connections && !c.connections[g].draining && !c.connections[g].closed
  }

  // ---------------------------------------------------------------- becoming ready, and ceasing to be

  /** The page becomes ready if and only if the run of the current generation ends with its lock
      granted; then that generation's store takes writes. */
  lemma BecomesReadyIff(c: Control, e: Event)
    requires Invariant(c) && Enabled(c, e) && !c.state.Ready?
    ensures Next(c, e).state.Ready? <==> e.Finishes? && Concerns(c, e.g) && c.connections[e.g].lock == Granted
    ensures Next(c, e).state.Ready? ==> Next(c, e).state == Ready(e.g) && ReadyStore(Next(c, e)) == Some(e.g)
  {
    hide Fine;
  }

  /** It ceases to be ready if and only if the page stops, or its connection is asked to make way
      or closes by itself; each is shown as what it is. */
  lemma CeasesIff(c: Control, e: Event, g: nat)
    requires Invariant(c) && Enabled(c, e) && c.state == Ready(g)
    ensures Next(c, e).state == Ready(g) <==> !e.Stop? && !(e.Changes? && e.g == g) && !(e.Closes? && e.g == g)
    ensures e.Stop? ==> Next(c, e).state == Closed(g, StoppedByPage)
    ensures e.Changes? && e.g == g ==> Next(c, e).state == Draining(g)
    ensures e.Closes? && e.g == g ==> Next(c, e).state == Failed(g, UnexpectedlyClosed)
  {
    ReadyConnection(c, g);
    forall k | k in c.connections && k != g ensures Closable(c.connections[k]) {
      OthersAreShut(c, k, g);
    }
    hide Fine, Invariant;
  }

  lemma ReadyConnection(c: Control, g: nat)
    requires Invariant(c) && c.state == Ready(g)
    ensures Concerns(c, g) && c.connections[g].phase == Ended && c.connections[g].open && c.connections[g].lock == Granted
    ensures c.connections[g].drain.None?
  {
    assert ConnectionOk(c, g);
  }

  /** Its close event is no news. */
  predicate Closable(x: Connection) {
    x.open ==> x.closed
  }

  lemma OthersAreShut(c: Control, k: nat, g: nat)
    requires Invariant(c) && c.state == Ready(g) && k in c.connections && k != g
    ensures Closable(c.connections[k])
  {
    assert ConnectionOk(c, k);
  }

  // ---------------------------------------------------------------- failures

  /** What an event of an active connection fails with, if it fails. */
  predicate FailsWith(c: Control, e: Event, cause: FailureCause) {
    match cause
    case OpenFailed => e.FailsToOpen? && Concerns(c, e.g)
    case IncompatibleSchema => e.Opens? && !e.compatible && Concerns(c, e.g)
    case StorageError => e.Breaks? && Concerns(c, e.g)
    case LockUnavailable => e.Finishes? && Concerns(c, e.g) && e.g in c.connections && c.connections[e.g].lock == Refused
    case UnexpectedlyClosed => e.Closes? && e.g in c.connections && !c.connections[e.g].closed
  }

  /** A failure is published if and only if the event is one, with its own cause, and closes the
      connection it concerns. */
  lemma FailsIff(c: Control, e: Event, cause: FailureCause)
    requires Invariant(c) && Enabled(c, e) && !c.state.Failed?
    ensures (Next(c, e).state.Failed? && Next(c, e).state.failureCause == cause) <==> FailsWith(c, e, cause)
    ensures FailsWith(c, e, cause) ==>
              Next(c, e).state == Failed(e.g, cause) && e.g in Next(c, e).connections && Next(c, e).connections[e.g].closed
  {
    hide Fine, StateOk;
  }

  // ---------------------------------------------------------------- opening

  /** A new generation opens if and only if the page starts for the first time, or retries
      while it is neither ready nor draining; it has the next number, and nothing is done yet. */
  lemma OpensIff(c: Control, e: Event)
    requires Invariant(c) && Enabled(c, e)
    ensures Next(c, e).generation != c.generation <==>
              (e.Start? && c.state == Idle) || (e.Retry? && !c.state.Ready? && !c.state.Draining?)
    ensures Next(c, e).generation != c.generation ==>
              && Next(c, e).generation == c.generation + 1 && Next(c, e).current == Some(c.generation + 1)
              && Next(c, e).state == Opening(c.generation + 1, false, Progress(false, false, false, false, false))
  {
    hide Fine, StateOk, Shut;
  }

  /** The events of an undisturbed run. */
  function Path(g: nat): seq<Event> {
    [Retry, Opens(g, true), Proceeds(g), Proceeds(g), Proceeds(g), Locks(g), Finishes(g)]
  }

  /** The connection after so many of them. */
  function Built(n: nat): Connection
    requires 1 <= n <= 6
  {
    var open := Connection(Recovering, true, Some(Initializing), false, false, false, Progress(true, false, false, false, false), Waiting, None);
    if n == 1 then NewConnection()
    else if n == 2 then open
    else if n == 3 then open.(phase := Reading, progress := Progress(true, false, true, false, false))
    else if n == 4 then open.(phase := Repairing, progress := Progress(true, false, true, true, false))
    else if n == 5 then open.(phase := Locking, progress := Progress(true, false, true, true, true))
    else open.(phase := Locking, progress := Progress(true, true, true, true, true), lock := Granted)
  }

  predicate Reaches(c: Control, g: nat, x: Connection) {
    c.current == Some(g) && g in c.connections && c.connections[g] == x && c.state.Opening?
  }

  lemma PathStep(c: Control, g: nat, n: nat)
    requires 1 <= n <= 6 && Reaches(c, g, Built(n))
    ensures Enabled(c, Path(g)[n])
    ensures n < 6 ==> Reaches(Next(c, Path(g)[n]), g, Built(n + 1))
    ensures n == 6 ==> ReadyStore(Next(c, Path(g)[n])) == Some(g)
  {
    hide Shut, Begun, Halted, VersionChange, Drained, ClosedUnexpectedly, RequestBlocked, RequestFailed, Broken, LockDenied, Failing;
  }

  /** These events happen one after another. */
  ghost predicate Happens(states: seq<Control>, events: seq<Event>) {
    && |states| == |events| + 1
    && forall i | 0 <= i < |events| :: Enabled(states[i], events[i]) && states[i + 1] == Next(states[i], events[i])
  }

  lemma HappensFirst(c: Control, e: Event, states: seq<Control>, events: seq<Event>)
    requires Enabled(c, e) && Happens(states, events) && states[0] == Next(c, e)
    ensures Happens([c] + states, [e] + events)
  {
    hide Enabled, Next;
  }

  lemma {:induction false} PathFrom(c: Control, g: nat, n: nat) returns (states: seq<Control>)
    requires 1 <= n <= 6 && Reaches(c, g, Built(n))
    ensures Happens(states, Path(g)[n..]) && states[0] == c && ReadyStore(states[7 - n]) == Some(g)
    decreases 6 - n
  {
    hide Built, Reaches, Next, Enabled, ReadyStore, Happens;
    PathStep(c, g, n);
    var next := Next(c, Path(g)[n]);
    assert Path(g)[n..] == [Path(g)[n]] + Path(g)[n + 1..];
    var rest: seq<Control>;
    if n == 6 {
      rest := [next];
      NothingMore(next);
      assert Path(g)[7..] == [];
    } else {
      rest := PathFrom(next, g, n + 1);
    }
    HappensFirst(c, Path(g)[n], rest, Path(g)[n + 1..]);
    states := [c] + rest;
  }

  lemma NothingMore(c: Control)
    ensures Happens([c], [])
  {
  }

  /** Storage can always be made ready: from every state that is neither ready nor draining, a
      retry whose request, recovery, reads and repairs succeed and whose lock is granted ends
      ready, in a new generation. */
  lemma RetryCanSucceed(c: Control)
    requires Invariant(c) && !c.state.Ready? && !c.state.Draining?
    ensures var g := c.generation + 1;
            exists states: seq<Control> :: Happens(states, Path(g)) && states[0] == c && ReadyStore(states[7]) == Some(g)
  {
    var g := c.generation + 1;
    assert Enabled(c, Retry) && Reaches(Next(c, Retry), g, Built(1));
    hide Invariant, Shut, Built, Reaches, Next, Enabled, ReadyStore, Happens;
    var rest := PathFrom(Next(c, Retry), g, 1);
    assert Path(g) == [Retry] + Path(g)[1..];
    HappensFirst(c, Retry, rest, Path(g)[1..]);
    assert ([c] + rest)[7] == rest[6];
  }

  // ---------------------------------------------------------------- drains

  lemma StepKeepsDrain(c: Control, e: Event, g: nat)
    requires Invariant(c) && Enabled(c, e) && g in c.connections && c.connections[g].drain.Some? && e != Drains(g)
    ensures g in Next(c, e).connections && Next(c, e).connections[g].drain == c.connections[g].drain
  {
    DrainingConnection(c, g);
    hide Invariant, Begun, Halted, RequestBlocked, RequestSucceeded, RequestFailed, Proceeded, Broken, Finished, LockArrived,
         LockDenied, VersionChange, Drained, ClosedUnexpectedly;
    if e.OfPage() {
      PageKeepsDrain(c, g);
    } else if e.g == g {
      RunKeepsDrain(c, g);
      RestKeepsDrain(c, g);
    } else {
      ConnectionStep(c, e);
    }
  }

  lemma DrainingConnection(c: Control, g: nat)
    requires Invariant(c) && g in c.connections && c.connections[g].drain.Some?
    ensures c.connections[g].draining && 1 <= g <= c.generation
  {
    assert ConnectionOk(c, g);
  }

  lemma PageKeepsDrain(c: Control, g: nat)
    requires g in c.connections && g <= c.generation
    ensures g in Begun(c).connections && Begun(c).connections[g].drain == c.connections[g].drain
    ensures g in Halted(c).connections && Halted(c).connections[g].drain == c.connections[g].drain
  {
  }

  lemma RunKeepsDrain(c: Control, g: nat)
    requires g in c.connections
    ensures RequestBlocked(c, g).connections[g].drain == c.connections[g].drain
    ensures forall compatible :: RequestSucceeded(c, g, compatible).connections[g].drain == c.connections[g].drain
    ensures RequestFailed(c, g).connections[g].drain == c.connections[g].drain
    ensures Proceeded(c, g).connections[g].drain == c.connections[g].drain
  {
  }

  lemma RestKeepsDrain(c: Control, g: nat)
    requires g in c.connections && c.connections[g].draining
    ensures Broken(c, g).connections[g].drain == c.connections[g].drain
    ensures Finished(c, g).connections[g].drain == c.connections[g].drain
    ensures LockArrived(c, g).connections[g].drain == c.connections[g].drain
    ensures LockDenied(c, g).connections[g].drain == c.connections[g].drain
    ensures forall deleted :: VersionChange(c, g, deleted).connections[g].drain == c.connections[g].drain
    ensures ClosedUnexpectedly(c, g).connections[g].drain == c.connections[g].drain
  {
  }

  /** A drain ends as it began: when the deletion of the database began it, the page is closed
      because of that, and otherwise because of the new version. */
  lemma {:induction false} DrainTellsWhy(events: seq<Event>, states: seq<Control>, i: nat, j: nat, g: nat, deleted: bool)
    requires IsRun(events, states) && i < j < |events| && events[i] == Changes(g, deleted)
    requires g in states[i].connections && !states[i].connections[g].closed && !states[i].connections[g].draining
    requires forall k | i < k < j :: events[k] != Drains(g)
    ensures g in states[j].connections && states[j].connections[g].drain == Some(deleted)
    ensures events[j] == Drains(g) && states[j].current == Some(g) ==>
              states[j + 1].state == Closed(g, if deleted then Deleted else VersionChanged)
    decreases j
  {
    hide Enabled, Invariant;
    if j == i + 1 {
      assert states[j] == VersionChange(states[i], g, deleted);
    } else {
      hide Next;
      DrainTellsWhy(events, states, i, j - 1, g, deleted);
      RunKeepsInvariant(events, states, j - 1);
      StepKeepsDrain(states[j - 1], events[j - 1], g);
    }
    DrainEnds(states[j], g, deleted);
  }

  lemma DrainEnds(c: Control, g: nat, deleted: bool)
    requires g in c.connections && c.connections[g].drain == Some(deleted)
    ensures Enabled(c, Drains(g))
    ensures c.current == Some(g) ==> Next(c, Drains(g)).state == Closed(g, if deleted then Deleted else VersionChanged)
  {
  }
}
