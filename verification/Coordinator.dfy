/** The page coordinator: captured occurrences, the decision latch and unsettled writes. */
module Coordinator {
  import opened Basics
  import opened OccurrenceModel
  import opened OccurrenceStore

  /** A decision a scan run proposes, or the actuation only the coordinator makes. */
  datatype Final = Act(at: Value) | Decide(outcome: Outcome, decidedAt: string)

  datatype Mint = Unstarted | MintPending | MintCommitted

  datatype Mark = NoMark | MarkPending | MarkReserved | MarkNotReserved

  datatype Durable = NoneYet | Committed | SettledAsActuation | Failed | Deferred | Unrepairable

  datatype Enrichment = NoReason | ReasonPending | ReasonCommitted | ReasonRefused

  datatype Entry = Entry(
    captured: Captured, mint: Mint, marking: bool, mark: Mark, final: Option<Final>,
    durable: Durable, reason: string, enrichment: Enrichment)

  /** `aborted` keeps the id and any decision of a mint that failed. */
  datatype Page = Page(entries: map<string, Entry>, aborted: map<string, Option<Final>>, targets: set<string>, held: bool)

  function NewEntry(c: Captured): Entry {
    Entry(c, Unstarted, false, NoMark, None, NoneYet, "", NoReason)
  }

  function With(p: Page, id: string, e: Entry): Page {
    p.(entries := p.entries[id := e])
  }

  function Latched(p: Page, id: string): Option<Final> {
    if id in p.entries && p.entries[id].final.Some? then p.entries[id].final
    else if id in p.aborted then p.aborted[id]
    else None
  }

  predicate Settled(e: Entry) {
    (e.durable == Committed || e.durable == SettledAsActuation || e.durable == Unrepairable) && e.enrichment != ReasonPending
  }

  function Targets(p: Page, id: string, e: Entry): set<string> {
    if Settled(e) then p.targets - {id} else p.targets
  }

  // ---------------------------------------------------------------- transitions

  predicate Known(p: Page, id: string) {
    id in p.entries || id in p.aborted
  }

  function Register(p: Page, c: Captured): Page {
    With(p, c.occurrenceId, NewEntry(c))
  }

  function StartMint(p: Page, id: string): Page
    requires id in p.entries
  {
    With(p, id, p.entries[id].(mint := MintPending))
  }

  function CommitMint(p: Page, id: string): Page
    requires id in p.entries
  {
    if p.entries[id].mint != MintPending then p else With(p, id, p.entries[id].(mint := MintCommitted))
  }

  /** A failed mint releases its credential; only the id and the decision stay. */
  function AbortMint(p: Page, id: string): Page
    requires id in p.entries
  {
    if p.entries[id].mint != MintPending then p
    else p.(entries := p.entries - {id}, aborted := p.aborted[id := p.entries[id].final], targets := p.targets - {id})
  }

  predicate CanBeginMarking(p: Page, id: string) {
    id in p.entries && p.entries[id].mint == MintCommitted && p.entries[id].final.None? && !p.entries[id].marking
  }

  function BeginMarking(p: Page, id: string): Page
    requires id in p.entries
  {
    With(p, id, p.entries[id].(marking := true))
  }

  predicate CanReserve(p: Page, id: string) {
    && id in p.entries && p.entries[id].mint == MintCommitted && p.entries[id].marking && p.entries[id].final.None?
    && (p.entries[id].mark == NoMark || p.entries[id].mark == MarkPending)
  }

  function StartMark(p: Page, id: string): Page
    requires id in p.entries
  {
    With(p, id, p.entries[id].(mark := MarkPending))
  }

  /** A settled mark: `at` is the committed actuation time, or nothing was reserved.  The
      first decision stays; a mark that commits behind one leaves the row actuated. */
  function SettleMark(p: Page, id: string, at: Option<Value>): Page
    requires id in p.entries
  {
    var e := p.entries[id];
    if e.mark != MarkPending then p
    else if at.None? then With(p, id, e.(mark := MarkNotReserved))
    else if e.final.None? then With(p, id, e.(mark := MarkReserved, final := Some(Act(at.value)), durable := Committed))
    else if e.final.value.Act? then With(p, id, e.(mark := MarkReserved))
    else With(p, id, e.(mark := MarkReserved, durable := SettledAsActuation)).(targets := p.targets - {id})
  }

  /** The first final decision stays; later proposals change nothing. */
  function Latch(p: Page, id: string, o: Outcome, at: string): Page {
    if id in p.aborted then
      if p.aborted[id].Some? then p else p.(aborted := p.aborted[id := Some(Decide(o, at))])
    else if id !in p.entries || p.entries[id].final.Some? then p
    else With(p, id, p.entries[id].(final := Some(Decide(o, at)))).(targets := p.targets + {id})
  }

  predicate UnknownDenial(e: Entry) {
    && e.final.Some? && e.final.value.Decide? && e.final.value.outcome.Denied?
    && e.final.value.outcome.reason.None? && e.enrichment == NoReason
  }

  function CaptureReason(p: Page, id: string, reason: string): Page {
    if id !in p.entries || !UnknownDenial(p.entries[id]) || reason == "" then p
    else With(p, id, p.entries[id].(reason := reason, enrichment := ReasonPending)).(targets := p.targets + {id})
  }

  /** How one attempted write ended. */
  datatype Attempt = NoWriter | Threw | Answered(t: Transition)

  /** A decision still has to reach the row. */
  predicate NeedsWrite(e: Entry) {
    e.final.Some? && e.final.value.Decide? && e.mark != MarkReserved && e.durable != Committed
  }

  function DurableAfter(e: Entry, a: Attempt): Durable
    requires e.final.Some?
  {
    if e.final.value.Act? then Committed
    else if e.mark == MarkReserved then SettledAsActuation
    else if e.durable == Committed then Committed
    else match a
         case NoWriter => Deferred
         case Threw => Failed
         case Answered(t) => if Done(t) then Committed else Unrepairable
  }

  /** A write attempt proceeds only once mint and mark have settled. */
  predicate CanAttempt(e: Entry) {
    e.final.Some? && !Settled(e) && e.mint == MintCommitted && e.mark != MarkPending
  }

  function Attempted(p: Page, id: string, a: Attempt): Page
    requires id in p.entries && p.entries[id].final.Some?
  {
    var e := p.entries[id].(durable := DurableAfter(p.entries[id], a));
    With(p, id, e).(targets := Targets(p, id, e))
  }

  predicate CanEnrich(e: Entry) {
    && e.enrichment == ReasonPending && e.durable == Committed && e.reason != ""
    && e.final.Some? && e.final.value.Decide?
  }

  /** A failed enrichment spends nothing. */
  function Enriched(p: Page, id: string, a: Attempt): Page
    requires id in p.entries
  {
    if !a.Answered? then p
    else
      var e := p.entries[id].(enrichment := if Done(a.t) then ReasonCommitted else ReasonRefused);
      With(p, id, e).(targets := Targets(p, id, e))
  }

  // ---------------------------------------------------------------- what transitions keep

  /** `q` keeps the decisions and the committed mints of `p`. */
  ghost predicate KeepsDecisions(p: Page, q: Page) {
    && (forall id | id in p.entries && p.entries[id].mint == MintCommitted :: id in q.entries && q.entries[id].mint == MintCommitted)
    && (forall id | Latched(p, id).Some? :: Latched(q, id) == Latched(p, id))
  }

  ghost predicate Apart(p: Page) {
    p.entries.Keys !! p.aborted.Keys
  }

  lemma RegisterKeeps(p: Page, c: Captured)
    requires !Known(p, c.occurrenceId)
    ensures KeepsDecisions(p, Register(p, c))
  {
  }

  lemma MintKeepsDecisions(p: Page, id: string)
    requires Apart(p) && id in p.entries
    ensures p.entries[id].mint == Unstarted ==> KeepsDecisions(p, StartMint(p, id))
    ensures KeepsDecisions(p, CommitMint(p, id))
  {
  }

  lemma AbortKeepsDecisions(p: Page, id: string)
    requires Apart(p) && id in p.entries
    ensures KeepsDecisions(p, AbortMint(p, id))
  {
  }

  lemma MarkingKeepsDecisions(p: Page, id: string)
    requires id in p.entries
    ensures KeepsDecisions(p, BeginMarking(p, id)) && KeepsDecisions(p, StartMark(p, id))
  {
  }

  lemma SettlingKeepsDecisions(p: Page, id: string, at: Option<Value>)
    requires Apart(p) && id in p.entries
    ensures KeepsDecisions(p, SettleMark(p, id, at))
  {
  }

  /** The latch keeps the first decision of an occurrence. */
  lemma LatchKeepsDecisions(p: Page, id: string, o: Outcome, at: string)
    requires Apart(p)
    ensures KeepsDecisions(p, Latch(p, id, o, at))
    ensures Known(p, id) ==> Latched(Latch(p, id, o, at), id).Some?
  {
  }

  lemma LatchAfterAbort(p: Page, id: string, o: Outcome, at: string)
    requires id in p.aborted
    ensures var q := Latch(p, id, o, at); q == p.(aborted := q.aborted) && q.aborted.Keys == p.aborted.Keys
  {
  }

  lemma ReasonKeepsDecisions(p: Page, id: string, reason: string)
    ensures KeepsDecisions(p, CaptureReason(p, id, reason))
  {
  }

  lemma AttemptsKeepDecisions(p: Page, id: string, a: Attempt)
    requires id in p.entries
    ensures p.entries[id].final.Some? ==> KeepsDecisions(p, Attempted(p, id, a))
    ensures KeepsDecisions(p, Enriched(p, id, a))
  {
  }

  lemma SamePageKeeps(p: Page, q: Page)
    requires q.entries == p.entries && q.aborted == p.aborted
    ensures KeepsDecisions(p, q)
  {
  }

  // ---------------------------------------------------------------- the object

  class PageCoordinator {
    var entries: map<string, Entry>
    var aborted: map<string, Option<Final>>
    var targets: set<string>
    var held: bool

    function State(): Page
      reads this
    {
      Page(entries, aborted, targets, held)
    }

    /** An occurrence is registered or aborted, never both. */
    ghost predicate Valid()
      reads this
    {
      entries.Keys !! aborted.Keys
    }

    constructor ()
      ensures Valid() && State() == Page(map[], map[], {}, false)
    {
      entries, aborted, targets, held := map[], map[], {}, false;
    }

    method LockAcquired()
      requires Valid()
      modifies this`held
      ensures Valid() && KeepsDecisions(old(State()), State())
      ensures State() == old(State()).(held := true)
    {
      hide KeepsDecisions;
      SamePageKeeps(State(), State().(held := true));
      held := true;
    }

    /** Registering an id twice is an error of the caller, also after its mint aborted. */
    method RegisterCaptured(c: Captured) returns (ok: bool)
      requires Valid()
      modifies this`entries
      ensures Valid() && KeepsDecisions(old(State()), State())
      ensures ok <==> !Known(old(State()), c.occurrenceId)
      ensures State() == if ok then Register(old(State()), c) else old(State())
    {
      hide KeepsDecisions;
      if !Known(State(), c.occurrenceId) {
        RegisterKeeps(State(), c);
      } else {
        SamePageKeeps(State(), State());
      }
      ok := c.occurrenceId !in entries && c.occurrenceId !in aborted;
      if ok {
        entries := entries[c.occurrenceId := NewEntry(c)];
      }
    }

    method MintStarted(id: string) returns (ok: bool)
      requires Valid()
      modifies this`entries
      ensures Valid() && KeepsDecisions(old(State()), State())
      ensures ok <==> id in old(entries) && old(entries)[id].mint == Unstarted
      ensures State() == if ok then StartMint(old(State()), id) else old(State())
    {
      hide KeepsDecisions;
      if id in entries {
        MintKeepsDecisions(State(), id);
      }
      SamePageKeeps(State(), State());
      ok := id in entries && entries[id].mint == Unstarted;
      if ok {
        entries := entries[id := entries[id].(mint := MintPending)];
      }
    }

    method MintSettled(id: string, committed: bool)
      requires Valid()
      requires id in entries
      modifies this`entries, this`aborted, this`targets
      ensures Valid() && KeepsDecisions(old(State()), State())
      ensures State() == if committed then CommitMint(old(State()), id) else AbortMint(old(State()), id)
    {
      hide KeepsDecisions;
      MintKeepsDecisions(State(), id);
      AbortKeepsDecisions(State(), id);
      if entries[id].mint != MintPending {
        return;
      }
      if committed {
        entries := entries[id := entries[id].(mint := MintCommitted)];
      } else {
        aborted := aborted[id := entries[id].final];
        entries := entries - {id};
        targets := targets - {id};
      }
    }

    method MarkingBegins(id: string) returns (ok: bool)
      requires Valid()
      modifies this`entries
      ensures Valid() && KeepsDecisions(old(State()), State())
      ensures ok <==> CanBeginMarking(old(State()), id)
      ensures State() == if ok then BeginMarking(old(State()), id) else old(State())
    {
      hide KeepsDecisions;
      if id in entries {
        MarkingKeepsDecisions(State(), id);
      }
      SamePageKeeps(State(), State());
      ok := id in entries && entries[id].mint == MintCommitted && entries[id].final.None? && !entries[id].marking;
      if ok {
        entries := entries[id := entries[id].(marking := true)];
      }
    }

    method MarkStarted(id: string) returns (ok: bool)
      requires Valid()
      modifies this`entries
      ensures Valid() && KeepsDecisions(old(State()), State())
      ensures ok <==> id in old(entries) && old(entries)[id].mark == NoMark
      ensures State() == if ok then StartMark(old(State()), id) else old(State())
    {
      hide KeepsDecisions;
      if id in entries {
        MarkingKeepsDecisions(State(), id);
      }
      SamePageKeeps(State(), State());
      ok := id in entries && entries[id].mark == NoMark;
      if ok {
        entries := entries[id := entries[id].(mark := MarkPending)];
      }
    }

    method MarkSettled(id: string, at: Option<Value>)
      requires Valid()
      requires id in entries
      modifies this`entries, this`targets
      ensures Valid() && KeepsDecisions(old(State()), State())
      ensures State() == SettleMark(old(State()), id, at)
    {
      hide KeepsDecisions;
      SettlingKeepsDecisions(State(), id, at);
      var e := entries[id];
      if e.mark != MarkPending {
        return;
      }
      if at.None? {
        entries := entries[id := e.(mark := MarkNotReserved)];
        return;
      }
      e := e.(mark := MarkReserved);
      if e.final.None? {
        e := e.(final := Some(Act(at.value)), durable := Committed);
      } else if !e.final.value.Act? {
        e := e.(durable := SettledAsActuation);
        targets := targets - {id};
      }
      entries := entries[id := e];
    }

    /** Latches the first decision and answers with the one that holds. */
    method LatchDecision(id: string, o: Outcome, at: string) returns (f: Final)
      requires Valid()
      requires Known(State(), id)
      modifies this`entries, this`aborted, this`targets
      ensures Valid() && KeepsDecisions(old(State()), State())
      ensures State() == Latch(old(State()), id, o, at)
      ensures Latched(State(), id) == Some(f)
    {
      hide KeepsDecisions;
      LatchKeepsDecisions(State(), id, o, at);
      if id in aborted {
        f := if aborted[id].Some? then aborted[id].value else Decide(o, at);
        aborted := aborted[id := Some(f)];
        assert aborted == (if old(aborted)[id].Some? then old(aborted) else old(aborted)[id := Some(f)]);
        return;
      }
      if entries[id].final.Some? {
        return entries[id].final.value;
      }
      f := Decide(o, at);
      entries := entries[id := entries[id].(final := Some(f))];
      targets := targets + {id};
    }

    method CaptureDenialReason(id: string, reason: string) returns (kept: bool)
      requires Valid()
      modifies this`entries, this`targets
      ensures Valid() && KeepsDecisions(old(State()), State())
      ensures State() == CaptureReason(old(State()), id, reason)
      ensures kept <==> id in old(entries) && UnknownDenial(old(entries)[id]) && reason != ""
    {
      hide KeepsDecisions;
      ReasonKeepsDecisions(State(), id, reason);
      if id !in entries {
        return false;
      }
      var e := entries[id];
      if e.final.None? || !e.final.value.Decide? || !e.final.value.outcome.Denied? || e.final.value.outcome.reason.Some? {
        return false;
      }
      if e.enrichment != NoReason || reason == "" {
        return false;
      }
      entries := entries[id := e.(reason := reason, enrichment := ReasonPending)];
      targets := targets + {id};
      kept := true;
    }

    /** The part of an attempt after its write has ended, if it needed one. */
    method AttemptEnded(id: string, a: Attempt)
      requires Valid()
      requires id in entries && CanAttempt(entries[id])
      modifies this`entries, this`targets
      ensures Valid() && KeepsDecisions(old(State()), State())
      ensures State() == Attempted(old(State()), id, a)
    {
      hide KeepsDecisions;
      AttemptsKeepDecisions(State(), id, a);
      var e := entries[id];
      if e.final.value.Act? {
        e := e.(durable := Committed);
      } else if e.mark == MarkReserved {
        e := e.(durable := SettledAsActuation);
      } else if e.durable != Committed {
        match a {
          case NoWriter => e := e.(durable := Deferred);
          case Threw => e := e.(durable := Failed);
          case Answered(t) => e := e.(durable := if t == Changed || t == AlreadySame then Committed else Unrepairable);
        }
      }
      entries := entries[id := e];
      if Settled(e) {
        targets := targets - {id};
      }
    }

    method EnrichmentEnded(id: string, a: Attempt)
      requires Valid()
      requires id in entries && CanEnrich(entries[id])
      modifies this`entries, this`targets
      ensures Valid() && KeepsDecisions(old(State()), State())
      ensures State() == Enriched(old(State()), id, a)
    {
      hide KeepsDecisions;
      AttemptsKeepDecisions(State(), id, a);
      if a.Answered? {
        var e := entries[id].(enrichment := if a.t == Changed || a.t == AlreadySame then ReasonCommitted else ReasonRefused);
        entries := entries[id := e];
        if Settled(e) {
          targets := targets - {id};
        }
      }
    }
  }
}
