/**
 What the operator is told, exactly: for every instruction, the runs that end in it.

 A run is described by what it met, from the credential to the mark, and every law here is
 over all runs, interrupted at any point or not.
 */
module EntryAnswers {
  import opened Basics
  import opened OccurrenceModel
  import opened EntryScan

  // ---------------------------------------------------------------- how far a run came

  /** The credential was looked up in the list of revoked tickets, where it names one. */
  predicate LooksUp(x: Script) {
    x.start.None? && (x.ticketKnown ==> x.lookup.stop.None? && x.lookup.result.Some?)
  }

  predicate Registers(x: Script) {
    LooksUp(x) && !(Listed(x) && x.exit) && x.beforeMint.None?
  }

  predicate Mints(x: Script) {
    Registers(x) && x.mint.stop.None? && x.mint.result.Some?
  }

  predicate Sends(x: Script) {
    Mints(x) && !Listed(x) && x.beforeSend.None?
  }

  predicate Hears(x: Script) {
    Sends(x) && x.transport.stop.None? && x.pairingAtResponse && x.transport.result.Some?
  }

  predicate Gets(x: Script, status: int) {
    Hears(x) && x.transport.result.value == Response(status)
  }

  predicate GetsDenial(x: Script) {
    Gets(x, 409) || Gets(x, 422)
  }

  /** The body was read before any stop. */
  predicate Reads(x: Script) {
    x.beforeBody.None? && x.body.stop.None? && x.body.result.Some?
  }

  /** The server let the holder in, and the run knows it. */
  predicate LetIn(x: Script) {
    Gets(x, 200) && Reads(x) && x.body.result.value.AcceptedBody?
  }

  /** The mark was asked for and answered in time. */
  predicate Marks(x: Script) {
    LetIn(x) && x.afterBody.None? && x.mayMark && x.mark.stop.None? && x.mark.result.Some? && x.afterMark.None?
  }

  predicate Cancels(stop: Option<Stop>) {
    stop == Some(CancelStop)
  }

  predicate Fails(stop: Option<Stop>) {
    stop == Some(TimedStop(Failure))
  }

  predicate TimesOut(stop: Option<Stop>) {
    Ends(stop) && !Fails(stop)
  }

  /** A stop by the clock, the deadline or a failure. */
  predicate Ends(stop: Option<Stop>) {
    stop.Some? && stop.value.TimedStop?
  }

  // ---------------------------------------------------------------- which part of a run ends it

  predicate TellsAnswer(told: Option<Instruction>) {
    match told
    case None => true
    case Some(i) => i.AcceptedScan? || i.DuplicateScan? || i.MarkFailed? || i.AcceptedTooLate? || i.BodyUnconfirmed? || i == CancelledScan(true)
  }

  predicate TellsDenial(told: Option<Instruction>) {
    told.Some? && (told.value.DenialUnreadable? || told.value.RejectedScan? || told.value == CancelledScan(true))
  }

  predicate TellsWaiting(told: Option<Instruction>) {
    told.Some? && (told.value.Queued? || told.value.SentUnconfirmed? || told.value.LocalError? || told.value == CancelledScan(true))
  }

  predicate TellsStatus(told: Option<Instruction>) {
    TellsWaiting(told) || (told.Some? && (told.value.AuthenticationRefused? || told.value.ServerError? || told.value.StatusUnconfirmed?))
  }

  predicate TellsUnsent(told: Option<Instruction>) {
    && told.Some? && !told.value.Queued?
    && !told.value.AuthenticationRefused? && !told.value.ServerError? && !told.value.StatusUnconfirmed?
    && (TellsAnswer(told) || TellsDenial(told) ==> told.value == CancelledScan(true))
  }

  predicate NoAnswer(x: Script) {
    Hears(x) && x.transport.result.value == NoResponse
  }

  predicate OtherStatus(x: Script) {
    Hears(x) && x.transport.result.value.Response? && !Gets(x, 200) && !GetsDenial(x)
  }

  /** No answer ended the run: it did not come that far, or was cancelled on the way. */
  predicate Unanswered(x: Script) {
    !Hears(x) || x.transport.result.value.CancelledTransport?
  }

  lemma Parts(x: Script)
    ensures TellsAnswer(AnswerEnd(x).told) && forall status ::
              (status == 409 || status == 422 ==> TellsDenial(DenialEnd(x, status).told)) && TellsStatus(RefusalEnd(x, status).told)
    ensures TellsWaiting(QueueEnd(x, Run(false, true, None, false)).told)
  {
  }

  lemma Stages(x: Script)
    ensures Gets(x, 200) ==> RespondEnd(x) == AnswerEnd(x)
    ensures GetsDenial(x) ==> RespondEnd(x) == DenialEnd(x, x.transport.result.value.status)
    ensures OtherStatus(x) ==> RespondEnd(x) == RefusalEnd(x, x.transport.result.value.status)
    ensures NoAnswer(x) ==> RespondEnd(x) == QueueEnd(x, Run(false, true, None, false))
    ensures Unanswered(x) && Sends(x) && x.transport.stop.None? ==>
              RespondEnd(x).told.Some? && (RespondEnd(x).told.value == CancelledScan(true) || RespondEnd(x).told.value == LocalError)
  {
    hide AnswerEnd, DenialEnd, RefusalEnd, QueueEnd;
  }

  lemma Outset(x: Script)
    ensures if Sends(x) && x.transport.stop.None? then Ending(x) == RespondEnd(x) else TellsUnsent(Ending(x).told)
  {
    hide RespondEnd, StopDecides, StopOutcome;
  }

  /** The answer to a run picks what ends it. */
  lemma Route(x: Script)
    ensures Gets(x, 200) ==> Ending(x) == AnswerEnd(x) && TellsAnswer(Ending(x).told)
    ensures GetsDenial(x) ==> Ending(x) == DenialEnd(x, x.transport.result.value.status) && TellsDenial(Ending(x).told)
    ensures OtherStatus(x) ==> Ending(x) == RefusalEnd(x, x.transport.result.value.status) && TellsStatus(Ending(x).told)
    ensures NoAnswer(x) ==> Ending(x) == QueueEnd(x, Run(false, true, None, false)) && TellsWaiting(Ending(x).told)
    ensures Unanswered(x) ==> TellsUnsent(Ending(x).told)
  {
    hide Ending, AnswerEnd, DenialEnd, RefusalEnd, QueueEnd, RespondEnd;
    Outset(x);
    Stages(x);
    Parts(x);
  }

  // ---------------------------------------------------------------- after an accepted answer

  /** "Accepted" is told if and only if the server accepted, the page was let mark, and the
      mark reserved the row; nothing is decided, for the mark is the decision. */
  lemma AcceptedIff(x: Script)
    ensures Ending(x).told == Some(AcceptedScan) <==> Marks(x) && x.mark.result.value == MarkReserved
    ensures Ending(x).told == Some(AcceptedScan) ==> Ending(x).decided == []
  {
    hide Ending, DenialEnd, RefusalEnd, QueueEnd;
    Route(x);
  }

  /** "Duplicate" is told if and only if the server accepted a repeat and the page's own mark
      was there already. */
  lemma DuplicateIff(x: Script)
    ensures Ending(x).told == Some(DuplicateScan) <==>
              Marks(x) && x.mark.result.value == OwnActuation && x.body.result.value == AcceptedBody(true)
    ensures Ending(x).told == Some(DuplicateScan) ==> Ending(x).decided == []
  {
    hide Ending, DenialEnd, RefusalEnd, QueueEnd;
    Route(x);
  }

  /** "Mark failed" is told if and only if the server accepted and the mark failed, was lost to
      a failure, was refused, or was there already though the server answered no repeat. */
  lemma MarkFailedIff(x: Script)
    ensures Ending(x).told == Some(MarkFailed) <==>
              && LetIn(x)
              && (Fails(x.afterBody)
                 || (x.afterBody.None? && x.mayMark
                     && (Fails(x.mark.stop)
                         || (x.mark.stop.None? && (x.mark.result.None? || Fails(x.afterMark)))
                         || (Marks(x) && (x.mark.result.value == NotMarked
                                          || (x.mark.result.value == OwnActuation && x.body.result.value == AcceptedBody(false)))))))
    ensures Ending(x).told == Some(MarkFailed) ==>
              Ending(x).decided == if Marks(x) && x.mark.result.value == OwnActuation then [] else [MarkFailure]
  {
    hide Ending, DenialEnd, RefusalEnd, QueueEnd;
    Route(x);
  }

  /** "Too late" is told if and only if the server accepted and the time ran out afterwards. */
  lemma TooLateIff(x: Script)
    ensures Ending(x).told == Some(AcceptedTooLate) <==>
              && LetIn(x)
              && (TimesOut(x.afterBody)
                 || (x.afterBody.None? && x.mayMark
                     && (TimesOut(x.mark.stop) || (x.mark.stop.None? && x.mark.result.Some? && TimesOut(x.afterMark)))))
    ensures Ending(x).told == Some(AcceptedTooLate) ==>
              exists why :: why != Failure && Ending(x).decided == [Stopped(false, why, true)]
  {
    hide Ending, DenialEnd, RefusalEnd, QueueEnd;
    Route(x);
    if Ending(x).told == Some(AcceptedTooLate) {
      var stop := if x.afterBody.Some? then x.afterBody else if x.mark.stop.Some? then x.mark.stop else x.afterMark;
      assert Ending(x).decided == [Stopped(false, stop.value.why, true)];
    }
  }

  /** A run ends untold if and only if the server accepted and the page may not mark. */
  lemma SilentIff(x: Script)
    ensures Ending(x).told.None? <==> LetIn(x) && x.afterBody.None? && !x.mayMark
    ensures Ending(x).told.None? ==> Ending(x).decided == []
  {
    hide Ending, DenialEnd, RefusalEnd, QueueEnd;
    Route(x);
  }

  // ---------------------------------------------------------------- every other answer

  /** "Queued" is told if and only if there was no response, or the gateway answered 502, 503
      or 504, and it is decided as just that. */
  lemma QueuedIff(x: Script)
    ensures Ending(x).told == Some(Queued) <==>
              Hears(x) && x.beforeQueue.None? && (x.transport.result.value == NoResponse || Gets(x, 502) || Gets(x, 503) || Gets(x, 504))
    ensures Ending(x).told == Some(Queued) ==>
              Ending(x).decided == if x.transport.result.value == NoResponse then [TransportFailure]
                                   else [ServerUnavailable(x.transport.result.value.status)]
  {
    hide Ending, DenialEnd, AnswerEnd;
    Route(x);
  }

  lemma AuthenticationIff(x: Script)
    ensures Ending(x).told == Some(AuthenticationRefused) <==> Gets(x, 401)
    ensures Gets(x, 401) ==> Ending(x).decided == [AuthRefused]
  {
    hide Ending, DenialEnd, AnswerEnd;
    Route(x);
  }

  /** A reason is told if and only if a denial with it was read in time. */
  lemma RejectedIff(x: Script, reason: string)
    ensures Ending(x).told == Some(RejectedScan(reason)) <==>
              GetsDenial(x) && Reads(x) && x.afterBody.None? && x.body.result.value == RejectedBody(reason)
  {
    hide Ending, RefusalEnd, QueueEnd, AnswerEnd;
    Route(x);
  }

  /** A denial that could not be read is told as one. */
  lemma UnreadableIff(x: Script)
    ensures Ending(x).told == Some(DenialUnreadable) <==>
              && GetsDenial(x)
              && (Ends(x.beforeBody)
                 || (x.beforeBody.None?
                     && (Ends(x.body.stop) || (x.body.stop.None? && x.body.result.None?)))
                 || (Reads(x) && (Ends(x.afterBody) || (x.afterBody.None? && x.body.result.value.AcceptedBody?))))
  {
    hide Ending, RefusalEnd, QueueEnd, AnswerEnd;
    Route(x);
  }

  /** Every denial is decided before its body is read, without a reason; a cancellation while
      it is read is the only second decision there is. */
  lemma DenialIsDecided(x: Script)
    ensures GetsDenial(x) ==>
              var denied := Denied(x.transport.result.value.status, x.latchId, None);
              Ending(x).decided == if Ending(x).told == Some(CancelledScan(true)) then [denied, Cancelled(true)] else [denied]
    ensures !GetsDenial(x) ==> AtMostOne(Ending(x).decided)
  {
    hide QueueEnd, DenialEnd, RefusalEnd, AnswerEnd, StopTold, StopOutcome, AtMostOne;
    SuspendedDenial(x);
    OneDecision(x);
    StopsDecideOnce(Run(false, false, None, false));
    StopsDecideOnce(Run(true, false, None, false));
    StopsDecideOnce(Run(false, true, None, false));
  }

  predicate AtMostOne(decided: seq<Outcome>) {
    |decided| == 0 || (|decided| == 1 && !decided[0].Denied?)
  }

  lemma StopsDecideOnce(r: Run)
    ensures forall registered, stop :: AtMostOne(StopEnd(r, registered, [], stop).decided)
    ensures AtMostOne([]) && AtMostOne([MintUnconfirmed])
  {
  }

  lemma SuspendedDenial(x: Script)
    ensures GetsDenial(x) ==>
              var denied := Denied(x.transport.result.value.status, x.latchId, None);
              var end := DenialEnd(x, x.transport.result.value.status);
              end.decided == if end.told == Some(CancelledScan(true)) then [denied, Cancelled(true)] else [denied]
  {
  }

  lemma OneDecision(x: Script)
    ensures AtMostOne(AnswerEnd(x).decided) && forall status :: AtMostOne(RefusalEnd(x, status).decided)
    ensures forall r :: AtMostOne(QueueEnd(x, r).decided)
  {
    hide StopTold;
  }

  /** The other statuses: 500, 501 and 505 to 599 are server errors, the rest are unconfirmed. */
  lemma ErrorIff(x: Script)
    ensures Ending(x).told == Some(ServerError) <==>
              Hears(x) && x.transport.result.value.Response?
              && var s := x.transport.result.value.status; s == 500 || s == 501 || 505 <= s <= 599
    ensures Ending(x).told == Some(StatusUnconfirmed) <==>
              Hears(x) && x.transport.result.value.Response?
              && var s := x.transport.result.value.status; s != 200 && s != 401 && s != 409 && s != 422 && !(500 <= s <= 599)
    ensures Ending(x).told == Some(ServerError) ==> Ending(x).decided == [UnconfirmedServerError(x.transport.result.value.status)]
    ensures Ending(x).told == Some(StatusUnconfirmed) ==> Ending(x).decided == [UnconfirmedStatus(x.transport.result.value.status)]
  {
    hide Ending, DenialEnd, AnswerEnd;
    Route(x);
  }

  /** A 200 whose body is not an acceptance read in time. */
  lemma BodyUnconfirmedIff(x: Script)
    ensures Ending(x).told == Some(BodyUnconfirmed) <==>
              && Gets(x, 200)
              && (Ends(x.beforeBody)
                 || (x.beforeBody.None?
                     && (Ends(x.body.stop) || (x.body.stop.None? && x.body.result.None?)))
                 || (Reads(x) && x.body.result.value.RejectedBody?))
    ensures Ending(x).told == Some(BodyUnconfirmed) ==> Ending(x).decided == [UnconfirmedAcceptedBody]
  {
    hide Ending, DenialEnd, RefusalEnd, QueueEnd;
    Route(x);
  }

  // ---------------------------------------------------------------- before anything is sent

  /** A listed ticket is never sent: an exit is told so at once and decided nothing, an entry is
      refused and queued once its row was minted. */
  lemma ListedIff(x: Script)
    ensures Ending(x).told == Some(RevocationExit) <==> LooksUp(x) && Listed(x) && x.exit && x.pairingKept
    ensures Ending(x).told == Some(RevocationRefused) <==> Mints(x) && Listed(x) && x.beforeQueue.None?
    ensures Ending(x).told == Some(RevocationExit) ==> Ending(x).decided == []
    ensures Ending(x).told == Some(RevocationRefused) ==> Ending(x).decided == [LocalRefusal]
  {
    hide RespondEnd;
    SentIsToldSo(x);
  }

  /** A listed entry that stopped before its refusal was queued. */
  lemma AuditNotSavedIff(x: Script)
    ensures Ending(x).told == Some(RevocationAuditNotSaved) <==>
              && LooksUp(x) && Listed(x) && !x.exit
              && (Ends(x.beforeMint)
                 || (x.beforeMint.None?
                     && (Ends(x.mint.stop) || (x.mint.stop.None? && x.mint.result.None?)))
                 || (Mints(x) && (Ends(x.beforeQueue))))
  {
    hide RespondEnd;
    SentIsToldSo(x);
  }

  /** Nothing that is told of an unsent run is told of a sent one. */
  lemma SentIsToldSo(x: Script)
    ensures match RespondEnd(x).told
            case Some(RevocationAuditNotSaved) => false
            case Some(RevocationRefused) => false
            case Some(RevocationExit) => false
            case Some(StoppedBeforeSend) => false
            case Some(MintNotConfirmed) => false
            case Some(StorageUnready) => false
            case Some(CancelledScan(sent)) => sent
            case _ => true
  {
    hide AnswerEnd, DenialEnd, RefusalEnd, QueueEnd;
    Parts(x);
  }

  lemma MintNotConfirmedIff(x: Script)
    ensures Ending(x).told == Some(MintNotConfirmed) <==> Registers(x) && !Listed(x) && x.mint.stop.None? && x.mint.result.None?
    ensures Ending(x).told == Some(MintNotConfirmed) ==> Ending(x).decided == [MintUnconfirmed]
  {
    hide RespondEnd;
    SentIsToldSo(x);
  }

  lemma StorageUnreadyIff(x: Script)
    ensures Ending(x).told == Some(StorageUnready) <==>
              x.start.None? && x.ticketKnown && x.lookup.stop.None? && x.lookup.result.None? && x.exit && x.storeGone
    ensures Ending(x).told == Some(StorageUnready) ==> Ending(x).decided == []
  {
    hide RespondEnd;
    SentIsToldSo(x);
  }

  /** A run of an unlisted credential that timed out before it sent. */
  lemma NotSentIff(x: Script)
    ensures Ending(x).told == Some(Instruction.StoppedBeforeSend) <==>
              || TimesOut(x.start)
              || (x.start.None? && x.ticketKnown && TimesOut(x.lookup.stop))
              || (LooksUp(x) && !Listed(x) && TimesOut(x.beforeMint))
              || (Registers(x) && !Listed(x) && TimesOut(x.mint.stop))
              || (Mints(x) && !Listed(x) && TimesOut(x.beforeSend))
  {
    hide RespondEnd;
    SentIsToldSo(x);
  }

  /** A request is out and the time ran out before its answer, or before queueing it. */
  lemma SentUnconfirmedIff(x: Script)
    ensures Ending(x).told == Some(SentUnconfirmed) <==>
              || (Sends(x) && TimesOut(x.transport.stop))
              || (Hears(x) && TimesOut(x.beforeQueue)
                  && (x.transport.result.value == NoResponse || Gets(x, 502) || Gets(x, 503) || Gets(x, 504)))
  {
    hide AnswerEnd, DenialEnd, StopDecides, StopOutcome;
    Parts(x);
  }

  /** A run cancelled before it sent is told that nothing went out. */
  lemma CancelledIff(x: Script)
    ensures Ending(x).told == Some(CancelledScan(false)) <==>
              || Cancels(x.start)
              || (x.start.None? && x.ticketKnown && Cancels(x.lookup.stop))
              || (LooksUp(x) && Listed(x) && x.exit && !x.pairingKept)
              || (LooksUp(x) && !(Listed(x) && x.exit) && Cancels(x.beforeMint))
              || (Registers(x) && Cancels(x.mint.stop))
              || (Mints(x) && (if Listed(x) then Cancels(x.beforeQueue) else Cancels(x.beforeSend)))
  {
    hide RespondEnd;
    SentIsToldSo(x);
  }

  /** A run cancelled with a request out is told that it may have been sent. */
  lemma CancelledSentIff(x: Script)
    ensures Ending(x).told == Some(CancelledScan(true)) <==>
              || (Sends(x) && Cancels(x.transport.stop))
              || (Sends(x) && x.transport.stop.None? && x.transport.result.Some?
                  && (!x.pairingAtResponse || x.transport.result.value.CancelledTransport?))
              || (Hears(x) && Cancels(x.beforeQueue)
                  && (x.transport.result.value == NoResponse || Gets(x, 502) || Gets(x, 503) || Gets(x, 504)))
              || ((Gets(x, 200) || GetsDenial(x))
                  && (Cancels(x.beforeBody) || (x.beforeBody.None? && Cancels(x.body.stop))))
              || (GetsDenial(x) && Reads(x) && Cancels(x.afterBody))
              || (LetIn(x) && Cancels(x.afterBody))
              || (LetIn(x) && x.afterBody.None? && x.mayMark
                  && (Cancels(x.mark.stop) || (x.mark.stop.None? && x.mark.result.Some? && Cancels(x.afterMark))))
  {
  }

  /** A failure of the page itself, with nothing more known. */
  lemma LocalErrorIff(x: Script)
    ensures Ending(x).told == Some(LocalError) <==>
              || Fails(x.start)
              || (x.start.None? && x.ticketKnown
                  && (Fails(x.lookup.stop) || (x.lookup.stop.None? && x.lookup.result.None? && !(x.exit && x.storeGone))))
              || (LooksUp(x) && !Listed(x) && Fails(x.beforeMint))
              || (Registers(x) && !Listed(x) && Fails(x.mint.stop))
              || (Mints(x) && !Listed(x) && Fails(x.beforeSend))
              || (Sends(x) && (Fails(x.transport.stop)
                               || (x.transport.stop.None? && x.transport.result.None?)))
              || (Fails(x.beforeQueue) && (NoAnswer(x) || Gets(x, 502) || Gets(x, 503) || Gets(x, 504)))
  {
    hide RespondEnd;
    if Sends(x) && x.transport.stop.None? {
      RespondingLocalError(x);
    }
  }

  lemma RespondingLocalError(x: Script)
    requires Sends(x) && x.transport.stop.None?
    ensures RespondEnd(x).told == Some(LocalError) <==>
              x.transport.result.None?
              || (Fails(x.beforeQueue) && (NoAnswer(x) || Gets(x, 502) || Gets(x, 503) || Gets(x, 504)))
  {
    hide AnswerEnd, DenialEnd;
    Parts(x);
  }

  /** What a registered run that was interrupted decides. */
  lemma InterruptionIsDecided(x: Script)
    ensures Registers(x) && Ending(x).told == Some(LocalError) ==> Ending(x).decided == [LocalFailure(Sends(x))]
    ensures Registers(x) && (Ending(x).told == Some(Instruction.StoppedBeforeSend) || Ending(x).told == Some(RevocationAuditNotSaved)) ==>
              exists why :: Ending(x).decided == [Stopped(true, why, false)]
  {
    hide RespondEnd;
    SentIsToldSo(x);
    WaitingIsDecided(x);
  }

  lemma UnconfirmedIsDecided(x: Script)
    ensures Ending(x).told == Some(SentUnconfirmed) ==> exists why :: why != Failure && Ending(x).decided == [Stopped(false, why, true)]
  {
    hide RespondEnd;
    WaitingIsDecided(x);
  }

  lemma WaitingIsDecided(x: Script)
    ensures RespondEnd(x).told == Some(LocalError) ==> RespondEnd(x).decided == [LocalFailure(true)]
    ensures RespondEnd(x).told == Some(SentUnconfirmed) ==>
              exists why :: why != Failure && RespondEnd(x).decided == [Stopped(false, why, true)]
  {
    hide AnswerEnd, DenialEnd;
    Parts(x);
    if RespondEnd(x).told == Some(SentUnconfirmed) {
      assert RespondEnd(x).decided == [Stopped(false, x.beforeQueue.value.why, true)];
    }
  }

  /** Nothing is decided before the occurrence is registered. */
  lemma UnregisteredDecidesNothing(x: Script)
    ensures !Registers(x) ==> Ending(x).decided == [] && Ending(x).told.Some?
  {
  }

  /** A cancellation is the last decision of the registered run it ends. */
  lemma CancellationIsDecided(x: Script, sent: bool)
    ensures Registers(x) && Ending(x).told == Some(CancelledScan(sent)) ==> EndsWith(Ending(x).decided, Cancelled(sent))
  {
    hide RespondEnd;
    RespondingCancellation(x, sent);
  }

  predicate EndsWith(decided: seq<Outcome>, o: Outcome) {
    |decided| > 0 && decided[|decided| - 1] == o
  }

  lemma RespondingCancellation(x: Script, sent: bool)
    ensures RespondEnd(x).told == Some(CancelledScan(sent)) ==> EndsWith(RespondEnd(x).decided, Cancelled(sent))
  {
    hide AnswerEnd, DenialEnd;
    ReadingCancellation(x, sent);
    DenyingCancellation(x, sent);
  }

  lemma ReadingCancellation(x: Script, sent: bool)
    ensures AnswerEnd(x).told == Some(CancelledScan(sent)) ==> EndsWith(AnswerEnd(x).decided, Cancelled(sent))
  {
    hide MarkEnd;
    assert MarkEnd(x).told == Some(CancelledScan(sent)) ==> EndsWith(MarkEnd(x).decided, Cancelled(sent)) by {
      MarkingCancellation(x, sent);
    }
  }

  lemma MarkingCancellation(x: Script, sent: bool)
    ensures MarkEnd(x).told == Some(CancelledScan(sent)) ==> EndsWith(MarkEnd(x).decided, Cancelled(sent))
  {
  }

  lemma DenyingCancellation(x: Script, sent: bool)
    ensures forall status ::
              DenialEnd(x, status).told == Some(CancelledScan(sent)) ==> EndsWith(DenialEnd(x, status).decided, Cancelled(sent))
  {
  }
}
