/** What the coordinator's transitions do, exactly, and that no write it owes is forgotten. */
module CoordinatorLaws {
  import opened Basics
  import opened OccurrenceModel
  import opened OccurrenceStore
  import opened Coordinator
  import P = ScannerProtocol

  // ---------------------------------------------------------------- one transition

  /** Nothing but this occurrence's entry may differ. */
  ghost predicate OnlyEntry(p: Page, q: Page, id: string) {
    && p.entries.Keys == q.entries.Keys && p.held == q.held
    && (forall k | k in p.entries && k != id :: q.entries[k] == p.entries[k])
    && (forall k | k != id :: k in p.targets <==> k in q.targets)
  }

  /** The first decision is the one that holds, of a registered occurrence and of one whose mint
      failed; a new one of a registered occurrence is owed to its row. */
  lemma LatchIs(p: Page, id: string, o: Outcome, at: string)
    requires Apart(p)
    ensures var q := Latch(p, id, o, at);
            && OnlyEntry(p, q, id) && q.aborted.Keys == p.aborted.Keys
            && (forall k | k != id :: Latched(q, k) == Latched(p, k))
            && Latched(q, id) == (if Latched(p, id).Some? then Latched(p, id) else if Known(p, id) then Some(Decide(o, at)) else None)
            && (id in p.entries ==> q.entries[id] == p.entries[id].(final := Latched(q, id)))
            && (id in q.targets <==> id in p.targets || (id in p.entries && p.entries[id].final.None?))
  {
  }

  /** A mark that was asked for settles once: not reserved, it leaves the rest as it was;
      reserved before any decision, it is the decision; behind one, that decision stays and
      its write is off. */
  lemma SettleMarkIs(p: Page, id: string, at: Option<Value>)
    requires id in p.entries
    ensures var q := SettleMark(p, id, at);
            var e := p.entries[id];
            && OnlyEntry(p, q, id) && q.aborted == p.aborted
            && (e.mark != MarkPending ==> q == p)
            && (e.mark == MarkPending && at.None? ==> q.entries[id] == e.(mark := MarkNotReserved) && q.targets == p.targets)
            && (e.mark == MarkPending && at.Some? ==>
                  && q.entries[id].mark == MarkReserved
                  && q.entries[id].final == (if e.final.Some? then e.final else Some(Act(at.value)))
                  && (e.final.None? ==> q.entries[id].durable == Committed)
                  && (e.final.Some? && e.final.value.Decide? ==> q.entries[id].durable == SettledAsActuation && id !in q.targets)
                  && q.entries[id] == e.(mark := MarkReserved, final := q.entries[id].final, durable := q.entries[id].durable))
  {
  }

  /** How an attempt at a pending decision ends: written or there already, it is committed; refused
      by the row, it can never be written; anything else is tried again. */
  lemma AttemptIs(p: Page, id: string, a: Attempt)
    requires id in p.entries && NeedsWrite(p.entries[id])
    ensures var q := Attempted(p, id, a);
            && OnlyEntry(p, q, id) && q.aborted == p.aborted
            && q.entries[id] == p.entries[id].(durable := q.entries[id].durable)
            && (q.entries[id].durable == Committed <==> a == Answered(Changed) || a == Answered(AlreadySame))
            && (q.entries[id].durable == Unrepairable <==> a == Answered(Missing) || a == Answered(Foreign) || a == Answered(Ineligible))
            && (q.entries[id].durable == Deferred <==> a == NoWriter)
            && (q.entries[id].durable == Failed <==> a == Threw)
            && (id in p.targets && (a.NoWriter? || a.Threw?) ==> id in q.targets)
  {
  }

  /** The reason of a denial is kept once, if the denial is the decision and has none. */
  lemma ReasonIs(p: Page, id: string, reason: string)
    ensures var q := CaptureReason(p, id, reason);
            var kept := id in p.entries && reason != "" && p.entries[id].enrichment == NoReason
                        && exists status, latch, at :: p.entries[id].final == Some(Decide(Denied(status, latch, None), at));
            && (!kept ==> q == p)
            && (kept ==> OnlyEntry(p, q, id) && id in q.targets
                         && q.entries[id] == p.entries[id].(reason := reason, enrichment := ReasonPending))
  {
    if id in p.entries && UnknownDenial(p.entries[id]) {
      var d := p.entries[id].final.value;
      assert d == Decide(Denied(d.outcome.status, d.outcome.latchId, None), d.decidedAt);
    }
  }

  // ---------------------------------------------------------------- what is owed

  /** Something of the decision is still to be written: the decision itself, or a reason that was
      learned since; unless a mark overtook it. */
  predicate Owes(e: Entry) {
    && e.final.Some? && e.final.value.Decide? && e.durable != SettledAsActuation
    && ((e.durable != Committed && e.durable != Unrepairable) || e.enrichment == ReasonPending)
  }

  /** What is owed is queued to be tried again, and what is queued is an unsettled decision. */
  predicate EntryOk(e: Entry, queued: bool) {
    && (Owes(e) ==> queued)
    && (queued ==> e.final.Some? && e.final.value.Decide? && !Settled(e))
    && (e.enrichment == ReasonPending ==> e.final.Some? && e.final.value.Decide?)
    && (e.durable == SettledAsActuation ==> e.mark == MarkReserved)
    && (e.final.None? ==> e.durable == NoneYet)
  }

  ghost predicate Queued(p: Page) {
    (forall id | id in p.entries :: EntryOk(p.entries[id], id in p.targets)) && p.targets <= p.entries.Keys
  }

  lemma OneEntryQueues(p: Page, q: Page, id: string)
    requires Queued(p) && OnlyEntry(p, q, id) && id in p.entries && EntryOk(q.entries[id], id in q.targets)
    ensures Queued(q)
  {
    hide EntryOk;
    forall k | k in q.entries ensures EntryOk(q.entries[k], k in q.targets) {
      assert EntryOk(p.entries[k], k in p.targets);
    }
    assert forall k | k in q.targets :: k == id || k in p.targets;
  }

  lemma MintingQueues(p: Page, id: string)
    requires Queued(p) && id in p.entries
    ensures Queued(StartMint(p, id)) && Queued(CommitMint(p, id))
  {
    hide Queued;
    EntryAt(p, id);
    SameDutyQueues(p, StartMint(p, id), id);
    SameDutyQueues(p, CommitMint(p, id), id);
  }

  lemma MarkingQueues(p: Page, id: string)
    requires Queued(p) && id in p.entries
    ensures Queued(BeginMarking(p, id)) && (p.entries[id].mark == NoMark ==> Queued(StartMark(p, id)))
  {
    hide Queued;
    EntryAt(p, id);
    SameDutyQueues(p, BeginMarking(p, id), id);
    if p.entries[id].mark == NoMark {
      SameDutyQueues(p, StartMark(p, id), id);
    }
  }

  lemma SameDutyQueues(p: Page, q: Page, id: string)
    requires Queued(p) && OnlyEntry(p, q, id) && id in p.entries && (id in q.targets <==> id in p.targets)
    requires q.entries[id] == p.entries[id].(mint := q.entries[id].mint, mark := q.entries[id].mark, marking := q.entries[id].marking)
    requires p.entries[id].mark == MarkReserved ==> q.entries[id].mark == MarkReserved
    ensures Queued(q)
  {
    hide Queued;
    EntryAt(p, id);
    OneEntryQueues(p, q, id);
  }

  lemma EntryAt(p: Page, id: string)
    requires Queued(p)
    ensures if id in p.entries then EntryOk(p.entries[id], id in p.targets) else id !in p.targets
  {
  }

  lemma AbortingQueues(p: Page, id: string)
    requires Queued(p) && id in p.entries
    ensures Queued(AbortMint(p, id))
  {
    hide EntryOk;
    var q := AbortMint(p, id);
    forall k | k in q.entries ensures EntryOk(q.entries[k], k in q.targets) {
      assert EntryOk(p.entries[k], k in p.targets);
    }
  }

  lemma RegisteringQueues(p: Page, c: Captured)
    requires Queued(p) && !Known(p, c.occurrenceId)
    ensures Queued(Register(p, c))
  {
    var q := Register(p, c);
    forall k | k in q.entries ensures EntryOk(q.entries[k], k in q.targets) {
      assert k != c.occurrenceId ==> EntryOk(p.entries[k], k in p.targets);
    }
  }

  lemma DecidingQueues(p: Page, id: string, o: Outcome, at: string)
    requires Queued(p)
    ensures Queued(Latch(p, id, o, at))
  {
    hide Queued;
    EntryAt(p, id);
    if id in p.entries && id !in p.aborted {
      OneEntryQueues(p, Latch(p, id, o, at), id);
    } else {
      SameEntriesQueue(p, Latch(p, id, o, at));
    }
  }

  lemma SameEntriesQueue(p: Page, q: Page)
    requires Queued(p) && q.entries == p.entries && q.targets == p.targets
    ensures Queued(q)
  {
  }

  lemma LearningQueues(p: Page, id: string, reason: string)
    requires Queued(p)
    ensures Queued(CaptureReason(p, id, reason))
  {
    hide Queued;
    EntryAt(p, id);
    if id in p.entries {
      OneEntryQueues(p, CaptureReason(p, id, reason), id);
    }
  }

  lemma SettlingQueues(p: Page, id: string, at: Option<Value>)
    requires Queued(p) && id in p.entries
    ensures Queued(SettleMark(p, id, at))
  {
    hide Queued;
    EntryAt(p, id);
    OneEntryQueues(p, SettleMark(p, id, at), id);
  }

  lemma AttemptingQueues(p: Page, id: string, a: Attempt)
    requires Queued(p) && id in p.entries && CanAttempt(p.entries[id])
    ensures Queued(Attempted(p, id, a))
  {
    hide Queued;
    EntryAt(p, id);
    OneEntryQueues(p, Attempted(p, id, a), id);
  }

  lemma EnrichingQueues(p: Page, id: string, a: Attempt)
    requires Queued(p) && id in p.entries && CanEnrich(p.entries[id])
    ensures Queued(Enriched(p, id, a))
  {
    hide Queued;
    EntryAt(p, id);
    OneEntryQueues(p, Enriched(p, id, a), id);
  }

  // ---------------------------------------------------------------- over whole runs

  lemma MarkEndQueues(s: P.Sys, id: string, at: string)
    requires Queued(s.page) && id in s.page.entries && id in s.staged
    ensures Queued(P.MarkEnded(s, id, at).page)
  {
    hide Queued, SettleMark, Reserve, RecordOf;
    match s.staged[id] {
      case WillReserve => SettlingQueues(s.page, id, Some(Text(at)));
      case AlreadyActuated(t) => SettlingQueues(s.page, id, Some(t));
      case WontReserve => SettlingQueues(s.page, id, None);
    }
  }

  lemma WriteQueues(s: P.Sys, id: string, fate: P.Fate)
    requires Queued(s.page) && id in s.page.entries && CanAttempt(s.page.entries[id])
    ensures Queued(P.WriteDecision(s, id, fate).page)
  {
    hide Queued, Attempted, Persist, NeedsWrite;
    var e := s.page.entries[id];
    if NeedsWrite(e) && fate == P.Commits {
      assert e.final.value.Decide? by {
        WrittenIsDecision(e);
      }
      AttemptingQueues(s.page, id, Answered(Persist(s.rows, s.me, id, e.final.value.outcome, e.final.value.decidedAt).0));
    } else {
      AttemptingQueues(s.page, id, if fate == P.NoConnection then NoWriter else Threw);
    }
  }

  lemma WrittenIsDecision(e: Entry)
    requires NeedsWrite(e)
    ensures e.final.Some? && e.final.value.Decide?
  {
  }

  lemma WriteReasonQueues(s: P.Sys, id: string, fate: P.Fate)
    requires Queued(s.page) && id in s.page.entries && CanEnrich(s.page.entries[id])
    ensures Queued(P.WriteReason(s, id, fate).page)
  {
    hide Queued, Enriched, Enrich;
    var e := s.page.entries[id];
    if fate == P.Commits {
      EnrichingQueues(s.page, id, Answered(Enrich(s.rows, s.me, id, e.final.value.outcome, e.final.value.decidedAt, e.reason).0));
    } else {
      EnrichingQueues(s.page, id, if fate == P.NoConnection then NoWriter else Threw);
    }
  }

  lemma MintStepQueues(s: P.Sys, a: P.Step)
    requires Queued(s.page) && P.Enabled(s, a) && (a.Capture? || a.MintStarts? || a.MintCommits? || a.MintAborts?)
    ensures Queued(P.Next(s, a).page)
  {
    hide Queued, AbortMint, CommitMint, StartMint, Register, MintRow, CapturedOk;
    match a {
      case Capture(c) => RegisteringQueues(s.page, c);
      case MintStarts(id) => MintingQueues(s.page, id);
      case MintCommits(id, _) => MintingQueues(s.page, id);
      case MintAborts(id) => AbortingQueues(s.page, id);
    }
  }

  lemma MarkStepQueues(s: P.Sys, a: P.Step)
    requires Queued(s.page) && P.Enabled(s, a) && (a.BeginsMarking? || a.MarkStarts? || a.MarkCommits? || a.MarkAborts?)
    ensures Queued(P.Next(s, a).page)
  {
    hide Queued, SettleMark, BeginMarking, StartMark, P.MarkEnded;
    match a {
      case BeginsMarking(id) => MarkingQueues(s.page, id);
      case MarkStarts(id) => MarkingQueues(s.page, id);
      case MarkCommits(id, at) => MarkEndQueues(s, id, at);
      case MarkAborts(id) => SettlingQueues(s.page, id, None);
    }
  }

  lemma DecisionStepQueues(s: P.Sys, a: P.Step)
    requires Queued(s.page) && P.Enabled(s, a) && (a.Decides? || a.LearnsReason? || a.Writes? || a.WritesReason?)
    ensures Queued(P.Next(s, a).page)
  {
    hide Queued, Latch, CaptureReason, P.WriteDecision, P.WriteReason, CanAttempt, CanEnrich, CanLatch;
    match a {
      case Decides(id, o, at, _) => DecidingQueues(s.page, id, o, at);
      case LearnsReason(id, reason) => LearningQueues(s.page, id, reason);
      case Writes(id, fate) => WriteQueues(s, id, fate);
      case WritesReason(id, fate) => WriteReasonQueues(s, id, fate);
    }
  }

  lemma QuietStepQueues(s: P.Sys, a: P.Step)
    requires Queued(s.page) && P.Enabled(s, a)
    requires !(a.Capture? || a.MintStarts? || a.MintCommits? || a.MintAborts?)
    requires !(a.BeginsMarking? || a.MarkStarts? || a.MarkCommits? || a.MarkAborts?)
    requires !(a.Decides? || a.LearnsReason? || a.Writes? || a.WritesReason?)
    ensures Queued(P.Next(s, a).page)
  {
    hide Queued, Recover, Retire, Renew, ReserveBody, P.Minted, ReadRow, P.Active, P.InFlight, CanReserve;
    SameEntriesQueue(s.page, P.Next(s, a).page);
  }

  lemma StepQueues(s: P.Sys, a: P.Step)
    requires Queued(s.page) && P.Enabled(s, a)
    ensures Queued(P.Next(s, a).page)
  {
    hide Queued, P.Enabled, P.Next;
    if a.Capture? || a.MintStarts? || a.MintCommits? || a.MintAborts? {
      MintStepQueues(s, a);
    } else if a.BeginsMarking? || a.MarkStarts? || a.MarkCommits? || a.MarkAborts? {
      MarkStepQueues(s, a);
    } else if a.Decides? || a.LearnsReason? || a.Writes? || a.WritesReason? {
      DecisionStepQueues(s, a);
    } else {
      QuietStepQueues(s, a);
    }
  }

  /** In every run, whatever the writers did, an occurrence whose decision or reason is still to
      be written is queued to be tried again, and nothing settled is. */
  lemma {:induction false} OwedIsQueued(run: seq<P.Step>, states: seq<P.Sys>, i: nat)
    requires P.IsRun(run, states) && i <= |run|
    ensures Queued(states[i].page)
  {
    hide P.Enabled, P.Next;
    if i > 0 {
      hide Queued;
      OwedIsQueued(run, states, i - 1);
      StepQueues(states[i - 1], run[i - 1]);
    }
  }
}
