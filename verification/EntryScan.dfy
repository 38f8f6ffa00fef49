/** One scan run, from the presented credential to the instruction on the screen. */
module EntryScan {
  import opened Basics
  import opened OccurrenceModel

  /** What the operator is told. */
  datatype Instruction =
    | StorageUnready | RevocationExit | RevocationRefused | RevocationAuditNotSaved | StoppedBeforeSend | SentUnconfirmed
    | CancelledScan(sent: bool) | MintNotConfirmed | Queued | AuthenticationRefused | DenialUnreadable | RejectedScan(reason: string)
    | ServerError | StatusUnconfirmed | BodyUnconfirmed | AcceptedTooLate | LocalError | MarkFailed | AcceptedScan | DuplicateScan

  datatype Transport = NoResponse | CancelledTransport | Response(status: int)

  datatype Body = AcceptedBody(replay: bool) | RejectedBody(reason: string)

  datatype MarkAnswer = MarkReserved | OwnActuation | NotMarked

  /** How an asynchronous step ends: what it hands back, if it does not fail, and the stop
      that came meanwhile, if one did. */
  datatype Wait<T> = Wait(result: Option<T>, stop: Option<Stop>)

  /** Everything a run meets, in order.  A checkpoint that does not pass gives its stop. */
  datatype Script = Script(
    exit: bool, start: Option<Stop>, ticketKnown: bool, lookup: Wait<bool>, storeGone: bool, pairingKept: bool,
    beforeMint: Option<Stop>, mint: Wait<()>, beforeQueue: Option<Stop>, beforeSend: Option<Stop>,
    transport: Wait<Transport>, pairingAtResponse: bool, beforeBody: Option<Stop>, body: Wait<Body>, afterBody: Option<Stop>,
    mayMark: bool, mark: Wait<MarkAnswer>, afterMark: Option<Stop>, latchId: string)

  /** A decision a run proposed, with what the run knew. */
  datatype Proposal = Proposal(run: Run, outcome: Outcome)

  predicate Grounded(p: Proposal) {
    Possible(p.run) && CanLatch(p.run, p.outcome)
  }

  predicate AllGrounded(ps: seq<Proposal>) {
    forall i | 0 <= i < |ps| :: Grounded(ps[i])
  }

  lemma StopIsGrounded(r: Run, stop: Stop)
    requires Possible(r) && StopOutcome(r, stop).Some?
    ensures Grounded(Proposal(r, StopOutcome(r, stop).value))
    ensures StopOutcome(r, stop).value.Family() == Terminal
  {
    if stop.TimedStop? {
      match stop.why {
        case Deadline => assert StopOutcome(r, TimedStop(Deadline)).Some?;
        case Clock => assert StopOutcome(r, TimedStop(Clock)).Some?;
        case Failure => assert StopOutcome(r, TimedStop(Failure)).Some?;
      }
    }
  }

  lemma OneMore(ps: seq<Proposal>, p: Proposal)
    requires AllGrounded(ps) && Grounded(p)
    ensures AllGrounded(ps + [p])
  {
    hide Grounded;
  }

  // ---------------------------------------------------------------- how a run ends

  /** What the operator is told at the end, and the decisions proposed on the way. */
  datatype Finish = Finish(told: Option<Instruction>, decided: seq<Outcome>)

  function Outcomes(ps: seq<Proposal>): seq<Outcome> {
    seq(|ps|, i requires 0 <= i < |ps| => ps[i].outcome)
  }

  lemma OutcomesAppend(ps: seq<Proposal>, p: Proposal)
    ensures Outcomes(ps + [p]) == Outcomes(ps) + [p.outcome]
  {
  }

  function StopTold(r: Run, stop: Stop): Instruction {
    match stop
    case CancelStop => CancelledScan(r.sent)
    case TimedStop(why) =>
      if r.listed then RevocationAuditNotSaved
      else if r.status == Some(409) || r.status == Some(422) then DenialUnreadable
      else if r.accepted then (if why == Failure then MarkFailed else AcceptedTooLate)
      else if r.status == Some(200) then BodyUnconfirmed
      else if why == Failure then LocalError
      else if r.sent then SentUnconfirmed
      else Instruction.StoppedBeforeSend
  }

  function StopDecides(r: Run, registered: bool, stop: Stop): seq<Outcome> {
    if registered && StopOutcome(r, stop).Some? then [StopOutcome(r, stop).value] else []
  }

  lemma StopAddsUp(ps: seq<Proposal>, registered: bool, r: Run, stop: Stop)
    ensures Outcomes(ps + match StopOutcome(r, stop)
                          case Some(o) => if registered then [Proposal(r, o)] else []
                          case None => [])
            == Outcomes(ps) + StopDecides(r, registered, stop)
  {
    hide StopOutcome;
    if StopOutcome(r, stop).Some? && registered {
      OutcomesAppend(ps, Proposal(r, StopOutcome(r, stop).value));
    } else {
      assert ps + [] == ps;
    }
  }

  /** Stopped in this situation, after these decisions. */
  function StopEnd(r: Run, registered: bool, before: seq<Outcome>, stop: Stop): Finish {
    Finish(Some(StopTold(r, stop)), before + StopDecides(r, registered, stop))
  }

  function QueueEnd(x: Script, r: Run): Finish {
    if x.beforeQueue.Some? then StopEnd(r, true, [], x.beforeQueue.value)
    else if r.listed then Finish(Some(RevocationRefused), [LocalRefusal])
    else if r.status.None? then Finish(Some(Queued), [TransportFailure])
    else Finish(Some(Queued), [ServerUnavailable(r.status.value)])
  }

  function DenialEnd(x: Script, status: int): Finish {
    var r, denied := Run(false, true, Some(status), false), [Denied(status, x.latchId, None)];
    if x.beforeBody.Some? then StopEnd(r, true, denied, x.beforeBody.value)
    else if x.body.stop.Some? then StopEnd(r, true, denied, x.body.stop.value)
    else if x.body.result.None? then Finish(Some(DenialUnreadable), denied)
    else if x.afterBody.Some? then StopEnd(r, true, denied, x.afterBody.value)
    else Finish(Some(if x.body.result.value.RejectedBody? then RejectedScan(x.body.result.value.reason) else DenialUnreadable), denied)
  }

  function RefusalEnd(x: Script, status: int): Finish {
    if status == 401 then Finish(Some(AuthenticationRefused), [AuthRefused])
    else if status == 502 || status == 503 || status == 504 then QueueEnd(x, Run(false, true, Some(status), false))
    else if status == 500 || status == 501 || 505 <= status <= 599 then Finish(Some(ServerError), [UnconfirmedServerError(status)])
    else Finish(Some(StatusUnconfirmed), [UnconfirmedStatus(status)])
  }

  function MarkEnd(x: Script): Finish {
    var r := Run(false, true, Some(200), true);
    if x.mark.result.None? then StopEnd(r, true, [], TimedStop(Failure))
    else if x.afterMark.Some? then StopEnd(r, true, [], x.afterMark.value)
    else match x.mark.result.value
         case MarkReserved => Finish(Some(AcceptedScan), [])
         case OwnActuation => Finish(Some(if x.body.result == Some(AcceptedBody(true)) then DuplicateScan else MarkFailed), [])
         case NotMarked => Finish(Some(MarkFailed), [MarkFailure])
  }

  function AnswerEnd(x: Script): Finish {
    var r := Run(false, true, Some(200), false);
    if x.beforeBody.Some? then StopEnd(r, true, [], x.beforeBody.value)
    else if x.body.stop.Some? then StopEnd(r, true, [], x.body.stop.value)
    else if x.body.result.None? then Finish(Some(BodyUnconfirmed), [UnconfirmedAcceptedBody])
    else if x.body.result.value.RejectedBody? then StopEnd(r, true, [], TimedStop(Failure))
    else if x.afterBody.Some? then StopEnd(r.(accepted := true), true, [], x.afterBody.value)
    else if !x.mayMark then Finish(None, [])
    else if x.mark.stop.Some? then StopEnd(r.(accepted := true), true, [], x.mark.stop.value)
    else MarkEnd(x)
  }

  function RespondEnd(x: Script): Finish {
    var r, t := Run(false, true, None, false), x.transport.result;
    if t.None? then StopEnd(r, true, [], TimedStop(Failure))
    else if !x.pairingAtResponse || t.value.CancelledTransport? then StopEnd(r, true, [], CancelStop)
    else if t.value.NoResponse? then QueueEnd(x, r)
    else if Classify(t.value.status) == DenialClass then DenialEnd(x, t.value.status)
    else if t.value.status != 200 then RefusalEnd(x, t.value.status)
    else AnswerEnd(x)
  }

  function SendEnd(x: Script, listed: bool): Finish {
    var r := Run(listed, false, None, false);
    if x.mint.stop.Some? then StopEnd(r, true, [], x.mint.stop.value)
    else if x.mint.result.None? then
      (if listed then StopEnd(r, true, [], TimedStop(Failure)) else Finish(Some(MintNotConfirmed), [MintUnconfirmed]))
    else if listed then QueueEnd(x, r)
    else if x.beforeSend.Some? then StopEnd(r, true, [], x.beforeSend.value)
    else if x.transport.stop.Some? then StopEnd(r.(sent := true), true, [], x.transport.stop.value)
    else RespondEnd(x)
  }

  predicate Listed(x: Script) {
    x.ticketKnown && x.lookup.result == Some(true)
  }

  function Ending(x: Script): Finish {
    var r := Run(false, false, None, false);
    if x.start.Some? then StopEnd(r, false, [], x.start.value)
    else if x.ticketKnown && x.lookup.stop.Some? then StopEnd(r, false, [], x.lookup.stop.value)
    else if x.ticketKnown && x.lookup.result.None? then
      (if x.exit && x.storeGone then Finish(Some(StorageUnready), []) else StopEnd(r, false, [], TimedStop(Failure)))
    else if Listed(x) && x.exit then
      (if x.pairingKept then Finish(Some(RevocationExit), []) else StopEnd(r.(listed := true), false, [], CancelStop))
    else if x.beforeMint.Some? then StopEnd(r.(listed := Listed(x)), false, [], x.beforeMint.value)
    else SendEnd(x, Listed(x))
  }

  class Execution {
    var registered: bool
    var run: Run
    var stopped: bool
    var told: Option<Instruction>
    var proposals: seq<Proposal>

    constructor ()
      ensures !registered && run == Run(false, false, None, false) && !stopped && told.None? && proposals == []
    {
      registered, run, stopped, told, proposals := false, Run(false, false, None, false), false, None, [];
    }

    /** What was told and decided so far. */
    function Now(): Finish
      reads this
    {
      Finish(told, Outcomes(proposals))
    }

    /** Nothing told and nothing stopped yet. */
    predicate Open()
      reads this
    {
      !stopped && told.None?
    }

    /** Every proposal is one the situation allows.  Nobody is told anything about a registered
        occurrence before a decision on it was proposed, unless its own mark was answered; and
        a run proposes twice only if it was cancelled while it read the body of a denial. */
    predicate Valid()
      reads this
    {
      && Possible(run) && AllGrounded(proposals) && |proposals| <= 2
      && (!registered ==> proposals == [] && !run.sent)
      && (told.Some? && registered ==> proposals != [] || told.value.AcceptedScan? || told.value.DuplicateScan? || told.value.MarkFailed?)
      && (stopped ==> told.Some?)
      && (Open() ==> if registered && DenialStatus() then |proposals| == 1 && proposals[0].outcome.Denied? else proposals == [])
      && (|proposals| == 2 ==> proposals[0].outcome.Denied? && proposals[1].outcome == Cancelled(true))
      && (told == Some(AcceptedScan) || told == Some(DuplicateScan) ==> run.accepted && proposals == [])
      && ((exists p | p in proposals :: p.outcome.Family() == Queue) ==> told == Some(Queued) || told == Some(RevocationRefused))
      && (told == Some(Queued) || told == Some(RevocationRefused) ==>
            |proposals| == 1 && proposals[0].outcome.Family() == Queue)
    }

    predicate DenialStatus()
      reads this
    {
      run.status == Some(409) || run.status == Some(422)
    }

    predicate ToldOfStop()
      reads this
    {
      && told.Some? && !told.value.AcceptedScan? && !told.value.DuplicateScan? && !told.value.Queued?
      && !told.value.RevocationRefused? && !told.value.RejectedScan?
    }

    /** The first instruction is the only one. */
    method Publish(i: Instruction)
      modifies this`told
      ensures told == if old(told).Some? then old(told) else Some(i)
    {
      if told.Some? {
        return;
      }
      told := Some(i);
    }

    method Propose(o: Outcome)
      modifies this`proposals
      ensures proposals == if registered then old(proposals) + [Proposal(run, o)] else old(proposals)
    {
      if registered {
        proposals := proposals + [Proposal(run, o)];
      }
    }

    /** The decision comes before the instruction. */
    method Terminate(o: Outcome, i: Instruction)
      modifies this`told, this`proposals
      ensures proposals == if registered then old(proposals) + [Proposal(run, o)] else old(proposals)
      ensures told == if old(told).Some? then old(told) else Some(i)
    {
      Propose(o);
      Publish(i);
    }

    /** Stopping proposes what the situation calls for and tells the operator, once. */
    method StopRun(reason: Stop)
      requires Valid()
      modifies this
      ensures Valid() && registered == old(registered) && run == old(run)
      ensures old(Open()) ==> stopped && ToldOfStop()
      ensures !old(Open()) ==> stopped == old(stopped) && told == old(told) && proposals == old(proposals)
      ensures old(Open()) ==>
                proposals == old(proposals) + match StopOutcome(run, reason)
                                              case Some(o) => if registered then [Proposal(run, o)] else []
                                              case None => []
      ensures old(Open()) ==> Now() == StopEnd(run, registered, old(Outcomes(proposals)), reason)
    {
      if stopped || told.Some? {
        return;
      }
      hide CanLatch, Grounded, AllGrounded, Possible, Outcomes;
      stopped := true;
      StopTelling(reason);
      StopAddsUp(old(proposals), registered, run, reason);
      hide StopOutcome;
      if StopOutcome(run, reason).Some? {
        StopIsGrounded(run, reason);
        OneMore(old(proposals), Proposal(run, StopOutcome(run, reason).value));
      }
    }

    /** The decision and the instruction a stop calls for. */
    method StopTelling(reason: Stop)
      requires told.None?
      modifies this`told, this`proposals
      ensures told == Some(StopTold(run, reason))
      ensures proposals == old(proposals) + match StopOutcome(run, reason)
                                            case Some(o) => if registered then [Proposal(run, o)] else []
                                            case None => []
    {
      match reason {
        case CancelStop => Terminate(Cancelled(run.sent), CancelledScan(run.sent));
        case TimedStop(why) =>
          var outcome := Stopped(!run.sent, why, run.sent);
          if run.listed {
            Terminate(outcome, RevocationAuditNotSaved);
          } else if run.status == Some(409) || run.status == Some(422) {
            Publish(DenialUnreadable);
          } else if run.accepted {
            Terminate(if why == Failure then MarkFailure else outcome, if why == Failure then MarkFailed else AcceptedTooLate);
          } else if run.status == Some(200) {
            Terminate(UnconfirmedAcceptedBody, BodyUnconfirmed);
          } else if why == Failure {
            Terminate(LocalFailure(run.sent), LocalError);
          } else {
            Terminate(outcome, if run.sent then SentUnconfirmed else StoppedBeforeSend);
          }
      }
    }

    /** What an interrupted step leaves: stopped, or as it was. */
    method Meanwhile(stop: Option<Stop>)
      requires Valid() && Open()
      modifies this
      ensures Valid() && registered == old(registered) && run == old(run)
      ensures stopped <==> stop.Some?
      ensures stop.None? ==> Open() && proposals == old(proposals)
      ensures stop.Some? ==> ToldOfStop() && Now() == StopEnd(run, registered, old(Outcomes(proposals)), stop.value)
      ensures old(proposals) <= proposals
    {
      if stop.Some? {
        StopRun(stop.value);
      }
    }

    /** A decision that ends the run. */
    method End(o: Outcome, i: Instruction)
      requires Valid() && Open() && registered && proposals == [] && CanLatch(run, o)
      requires !i.AcceptedScan? && !i.DuplicateScan?
      requires (o.Family() == Queue <==> i == Queued || i == RevocationRefused)
      modifies this`told, this`proposals
      ensures Valid() && told == Some(i) && proposals == [Proposal(run, o)]
      ensures Now() == Finish(Some(i), [o])
    {
      hide CanLatch;
      Terminate(o, i);
      assert proposals == [Proposal(run, o)];
    }

    /** Queueing waits for one more checkpoint. */
    method QueueRun(x: Script, status: Option<int>)
      requires Valid() && Open() && registered && proposals == [] && run.status == status
      requires run.listed || (run.sent && (status.Some? ==> Classify(status.value) == OfflineClass))
      modifies this
      ensures Valid() && told.Some? && run == old(run)
      ensures told != Some(AcceptedScan) && told != Some(DuplicateScan)
      ensures Now() == QueueEnd(x, run)
    {
      Meanwhile(x.beforeQueue);
      if stopped {
        return;
      }
      if run.listed {
        End(LocalRefusal, RevocationRefused);
      } else if status.None? {
        End(TransportFailure, Queued);
      } else {
        End(ServerUnavailable(status.value), Queued);
      }
    }

    /** A denial is proposed before its body is read, and the reason is learned after. */
    method Denial(x: Script, status: int)
      requires Valid() && Open() && registered && proposals == [] && !run.listed && run.sent && run.status.None?
      requires Classify(status) == DenialClass && x.latchId != ""
      modifies this
      ensures Valid() && told.Some? && run == old(run).(status := Some(status))
      ensures told != Some(AcceptedScan) && told != Some(DuplicateScan)
      ensures |proposals| >= 1 && proposals[0] == Proposal(run, Denied(status, x.latchId, None))
      ensures told.value.RejectedScan? ==> x.body.result == Some(RejectedBody(told.value.reason))
      ensures Now() == DenialEnd(x, status)
    {
      run := run.(status := Some(status));
      Propose(Denied(status, x.latchId, None));
      assert proposals == [Proposal(run, Denied(status, x.latchId, None))];
      ReadDenial(x, status);
    }

    method ReadDenial(x: Script, status: int)
      requires Valid() && Open() && registered && Classify(status) == DenialClass && run == Run(false, true, Some(status), false)
      requires proposals == [Proposal(run, Denied(status, x.latchId, None))]
      modifies this
      ensures Valid() && told.Some? && run == old(run) && registered
      ensures told != Some(AcceptedScan) && told != Some(DuplicateScan)
      ensures old(proposals) <= proposals
      ensures told.value.RejectedScan? ==> x.body.result == Some(RejectedBody(told.value.reason))
      ensures Now() == DenialEnd(x, status)
    {
      hide CanLatch, StopTold, StopDecides, StopOutcome;
      Meanwhile(x.beforeBody);
      if stopped {
        return;
      }
      Meanwhile(x.body.stop);
      if stopped {
        return;
      }
      if x.body.result.None? {
        Publish(DenialUnreadable);
        return;
      }
      Meanwhile(x.afterBody);
      if stopped {
        return;
      }
      if x.body.result.value.RejectedBody? {
        Publish(RejectedScan(x.body.result.value.reason));
      } else {
        Publish(DenialUnreadable);
      }
    }

    /** An accepted body is followed by the mark; only a committed mark is told as accepted. */
    method Answer(x: Script)
      requires Valid() && Open() && registered && proposals == [] && !run.listed && run.sent && run.status.None?
      modifies this
      ensures Valid() && (told.Some? || !x.mayMark) && run.status == Some(200) && run.sent
      ensures told == Some(AcceptedScan) ==> x.mark.result == Some(MarkReserved)
      ensures told == Some(DuplicateScan) ==> x.mark.result == Some(OwnActuation)
      ensures Now() == AnswerEnd(x)
    {
      hide CanLatch;
      run := run.(status := Some(200));
      Meanwhile(x.beforeBody);
      if stopped {
        return;
      }
      Meanwhile(x.body.stop);
      if stopped {
        return;
      }
      if x.body.result.None? {
        EndUnconfirmed();
        return;
      }
      if x.body.result.value.RejectedBody? {
        StopRun(TimedStop(Failure));
        return;
      }
      run := run.(accepted := true);
      Meanwhile(x.afterBody);
      if stopped || !x.mayMark {
        return;
      }
      Meanwhile(x.mark.stop);
      if stopped {
        return;
      }
      Marked(x);
    }

    method EndUnconfirmed()
      requires Valid() && Open() && registered && proposals == [] && !run.listed && run.status == Some(200)
      modifies this`told, this`proposals
      ensures Valid() && told == Some(BodyUnconfirmed)
      ensures Now() == Finish(Some(BodyUnconfirmed), [UnconfirmedAcceptedBody])
    {
      End(UnconfirmedAcceptedBody, BodyUnconfirmed);
    }

    method Marked(x: Script)
      requires Valid() && Open() && registered && proposals == [] && !run.listed && run.status == Some(200) && run.accepted
      modifies this
      ensures Valid() && told.Some? && run == old(run)
      ensures told == Some(AcceptedScan) ==> x.mark.result == Some(MarkReserved)
      ensures told == Some(DuplicateScan) ==> x.mark.result == Some(OwnActuation)
      ensures Now() == MarkEnd(x)
    {
      if x.mark.result.None? {
        StopRun(TimedStop(Failure));
        return;
      }
      Meanwhile(x.afterMark);
      if stopped {
        return;
      }
      match x.mark.result.value {
        case MarkReserved => Publish(AcceptedScan);
        case OwnActuation => Publish(if x.body.result == Some(AcceptedBody(true)) then DuplicateScan else MarkFailed);
        case NotMarked => End(MarkFailure, MarkFailed);
      }
    }

    /** Every status but 200 ends the run, each under its own class. */
    method Refusal(x: Script, status: int)
      requires Valid() && Open() && registered && proposals == [] && !run.listed && run.sent && run.status.None?
      requires status != 200 && Classify(status) != DenialClass
      modifies this
      ensures Valid() && told.Some? && run == old(run).(status := Some(status))
      ensures told != Some(AcceptedScan) && told != Some(DuplicateScan)
      ensures Now() == RefusalEnd(x, status)
    {
      run := run.(status := Some(status));
      if status == 401 {
        End(AuthRefused, AuthenticationRefused);
      } else if status == 502 || status == 503 || status == 504 {
        QueueRun(x, Some(status));
      } else if status == 500 || status == 501 || 505 <= status <= 599 {
        End(UnconfirmedServerError(status), ServerError);
      } else {
        End(UnconfirmedStatus(status), StatusUnconfirmed);
      }
    }

    /** From the registered occurrence to the answer. */
    method Send(x: Script)
      requires Valid() && Open() && registered && proposals == [] && !run.sent && x.latchId != ""
      modifies this
      ensures Valid() && (told.Some? || !x.mayMark)
      ensures run.sent ==> x.mint.result.Some? && !run.listed
      ensures told == Some(AcceptedScan) ==> x.mark.result == Some(MarkReserved)
      ensures told == Some(DuplicateScan) ==> x.mark.result == Some(OwnActuation)
      ensures Now() == SendEnd(x, old(run.listed))
    {
      Meanwhile(x.mint.stop);
      if stopped {
        return;
      }
      if x.mint.result.None? {
        MintFailed();
        return;
      }
      if run.listed {
        QueueRun(x, None);
        return;
      }
      Meanwhile(x.beforeSend);
      if stopped {
        return;
      }
      run := run.(sent := true);
      Meanwhile(x.transport.stop);
      if stopped {
        return;
      }
      Respond(x);
    }

    method MintFailed()
      requires Valid() && Open() && registered && proposals == [] && !run.sent
      modifies this
      ensures Valid() && told.Some? && run == old(run) && told != Some(AcceptedScan) && told != Some(DuplicateScan)
      ensures Now() == if run.listed then StopEnd(run, true, [], TimedStop(Failure)) else Finish(Some(MintNotConfirmed), [MintUnconfirmed])
    {
      if run.listed {
        StopRun(TimedStop(Failure));
      } else {
        End(MintUnconfirmed, MintNotConfirmed);
      }
    }

    method Respond(x: Script)
      requires Valid() && Open() && registered && proposals == [] && !run.listed && run.sent && run.status.None? && x.latchId != ""
      modifies this
      ensures Valid() && (told.Some? || !x.mayMark) && !run.listed
      ensures told == Some(AcceptedScan) ==> x.mark.result == Some(MarkReserved)
      ensures told == Some(DuplicateScan) ==> x.mark.result == Some(OwnActuation)
      ensures Now() == RespondEnd(x)
    {
      hide CanLatch;
      var t := x.transport.result;
      if t.None? {
        StopRun(TimedStop(Failure));
      } else if !x.pairingAtResponse || t.value.CancelledTransport? {
        StopRun(CancelStop);
      } else if t.value.NoResponse? {
        QueueRun(x, None);
      } else if Classify(t.value.status) == DenialClass {
        Denial(x, t.value.status);
      } else if t.value.status != 200 {
        Refusal(x, t.value.status);
      } else {
        Answer(x);
      }
    }

    /** One run.  It proposes only decisions its situation allows and tells the operator once;
        it sends nothing before the mint is known to have committed, and nothing for a listed
        credential; it tells "accepted" only when the mark answered that it was reserved. */
    method Submit(x: Script)
      requires !registered && run == Run(false, false, None, false) && !stopped && told.None? && proposals == [] && x.latchId != ""
      modifies this
      ensures Valid() && (told.Some? || !x.mayMark)
      ensures run.sent ==> x.mint.result.Some? && !run.listed
      ensures told == Some(AcceptedScan) ==> x.mark.result == Some(MarkReserved)
      ensures told == Some(DuplicateScan) ==> x.mark.result == Some(OwnActuation)
      ensures Now() == Ending(x)
    {
      assert Outcomes([]) == [];
      hide CanLatch, SendEnd, StopTold, StopDecides, StopOutcome, Outcomes;
      Meanwhile(x.start);
      if stopped {
        return;
      }
      if x.ticketKnown {
        Meanwhile(x.lookup.stop);
        if stopped {
          return;
        }
        if x.lookup.result.None? {
          if x.exit && x.storeGone {
            Publish(StorageUnready);
          } else {
            StopRun(TimedStop(Failure));
          }
          return;
        }
        run := run.(listed := x.lookup.result.value);
      }
      if run.listed && x.exit {
        if x.pairingKept {
          Publish(RevocationExit);
        } else {
          StopRun(CancelStop);
        }
        return;
      }
      Meanwhile(x.beforeMint);
      if stopped {
        return;
      }
      registered := true;
      Send(x);
    }
  }
}
