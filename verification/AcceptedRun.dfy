/** The scanner protocol can reach its goal: a run in which a scan is told "accepted". */
module AcceptedRun {
  import opened Basics
  import opened OccurrenceModel
  import opened OccurrenceStore
  import opened Coordinator
  import opened ScannerProtocol

  const SILENT := Run(false, false, None, false)
  const ANSWERED := Run(false, true, Some(200), true)

  /** A ready page with one occurrence. */
  function One(me: string, e: Entry, run: Run, shown: Option<Shown>, rows: Rows, staged: map<string, Reservation>,
               results: map<string, Reservation>): Sys {
    var id := e.captured.occurrenceId;
    Sys(Page(map[id := e], map[], {}, true), rows, map[], {}, map[id := Scan(run, false, shown)], staged, results, me, true, {})
  }

  function Before(me: string, held: bool, ready: bool): Sys {
    Sys(Page(map[], map[], {}, held), map[], map[], {}, map[], map[], map[], me, ready, {})
  }

  function Minted(c: Captured, me: string, lease: real): Rows {
    map[c.occurrenceId := Object(MintRow(c, me, lease))]
  }

  function Steps(id: string, c: Captured, lease: real, at: string): seq<Step> {
    [ LockPage, SetReady(true), Capture(c), MintStarts(id), MintCommits(id, lease), Sends(id), Responds(id, 200), Accepts(id),
      BeginsMarking(id), MarkStarts(id), MarkReads(id), MarkCommits(id, at), ShowsAccepted(id) ]
  }

  function States(me: string, c: Captured, lease: real, at: string): seq<Sys> {
    var id, e, rows := c.occurrenceId, NewEntry(c).(mint := MintCommitted), Minted(c, me, lease);
    var marking := e.(marking := true);
    var pending := marking.(mark := MarkPending);
    var ended := pending.(mark := MarkReserved, final := Some(Act(Text(at))), durable := Committed);
    var actuated := map[id := Object(ReserveRow(MintRow(c, me, lease), at))];
    [ Before(me, false, false), Before(me, true, false), Before(me, true, true),
      One(me, NewEntry(c), SILENT, None, map[], map[], map[]),
      One(me, NewEntry(c).(mint := MintPending), SILENT, None, map[], map[], map[]),
      One(me, e, SILENT, None, rows, map[], map[]),
      One(me, e, SILENT.(sent := true), None, rows, map[], map[]),
      One(me, e, Run(false, true, Some(200), false), None, rows, map[], map[]),
      One(me, e, ANSWERED, None, rows, map[], map[]),
      One(me, marking, ANSWERED, None, rows, map[], map[]),
      One(me, pending, ANSWERED, None, rows, map[], map[]),
      One(me, pending, ANSWERED, None, rows, map[id := WillReserve], map[]),
      One(me, ended, ANSWERED, None, actuated, map[], map[id := WillReserve]),
      One(me, ended, ANSWERED, Some(ShownAccepted), actuated, map[], map[id := WillReserve]) ]
  }

  ghost predicate Taken(s: Sys, a: Step, t: Sys) {
    Enabled(s, a) && Next(s, a) == t
  }

  lemma Opening(me: string, c: Captured)
    requires CapturedOk(c) && c.scan == NormalScan
    ensures Taken(Before(me, false, false), LockPage, Before(me, true, false))
    ensures Taken(Before(me, true, false), SetReady(true), Before(me, true, true))
    ensures Taken(Before(me, true, true), Capture(c), One(me, NewEntry(c), SILENT, None, map[], map[], map[]))
  {
  }

  lemma Minting(me: string, c: Captured, lease: real)
    ensures var id := c.occurrenceId;
            var pending := One(me, NewEntry(c).(mint := MintPending), SILENT, None, map[], map[], map[]);
            && Taken(One(me, NewEntry(c), SILENT, None, map[], map[], map[]), MintStarts(id), pending)
            && Taken(pending, MintCommits(id, lease),
                     One(me, NewEntry(c).(mint := MintCommitted), SILENT, None, Minted(c, me, lease), map[], map[]))
  {
    hide MintRow;
  }

  lemma Asking(me: string, e: Entry, rows: Rows)
    requires e.mint == MintCommitted && e.final.None?
    ensures var id := e.captured.occurrenceId;
            var sent, answered := SILENT.(sent := true), Run(false, true, Some(200), false);
            && Taken(One(me, e, SILENT, None, rows, map[], map[]), Sends(id), One(me, e, sent, None, rows, map[], map[]))
            && Taken(One(me, e, sent, None, rows, map[], map[]), Responds(id, 200), One(me, e, answered, None, rows, map[], map[]))
            && Taken(One(me, e, answered, None, rows, map[], map[]), Accepts(id), One(me, e, ANSWERED, None, rows, map[], map[]))
  {
    hide CanLatch, Recover, Retire, Renew, WriteDecision, WriteReason, Decided, CaptureReason, MarkDropped, CanAttempt, CanEnrich, ReserveBody, ReadRow, MintEnded, MarkEnded;
  }

  lemma Marking(me: string, e: Entry, rows: Rows)
    requires e.mint == MintCommitted && e.final.None? && !e.marking && e.mark == NoMark
    ensures var id, marking := e.captured.occurrenceId, e.(marking := true);
            && Taken(One(me, e, ANSWERED, None, rows, map[], map[]), BeginsMarking(id), One(me, marking, ANSWERED, None, rows, map[], map[]))
            && Taken(One(me, marking, ANSWERED, None, rows, map[], map[]), MarkStarts(id),
                     One(me, marking.(mark := MarkPending), ANSWERED, None, rows, map[], map[]))
  {
    hide CanLatch, Recover, Retire, Renew, WriteDecision, WriteReason, Decided, CaptureReason, MarkDropped, CanAttempt, CanEnrich, ReserveBody, ReadRow, MintEnded, MarkEnded;
  }

  lemma Reserving(me: string, c: Captured, lease: real)
    requires CapturedOk(c) && c.scan == NormalScan && me != ""
    ensures var id, rows := c.occurrenceId, Minted(c, me, lease);
            var e := NewEntry(c).(mint := MintCommitted, marking := true, mark := MarkPending);
            RecordOf(rows, id).Some? && Taken(One(me, e, ANSWERED, None, rows, map[], map[]), MarkReads(id),
                  One(me, e, ANSWERED, None, rows, map[id := WillReserve], map[]))
  {
    hide MintRow, ReadRow, CanLatch, Recover, Retire, Renew, WriteDecision, WriteReason, Decided, CaptureReason, MarkDropped, CanAttempt, CanEnrich, MintEnded, MarkEnded;
    MintedReads(c, me, lease);
  }

  lemma Committing(me: string, e: Entry, rows: Rows, at: string)
    requires e.mark == MarkPending && e.final.None? && at != ""
    requires RecordOf(rows, e.captured.occurrenceId).Some? && rows.Keys == {e.captured.occurrenceId}
    ensures var id := e.captured.occurrenceId;
            var ended := e.(mark := MarkReserved, final := Some(Act(Text(at))), durable := Committed);
            var actuated := map[id := Object(ReserveRow(FieldsOf(rows, id), at))];
            && Taken(One(me, e, ANSWERED, None, rows, map[id := WillReserve], map[]), MarkCommits(id, at),
                     One(me, ended, ANSWERED, None, actuated, map[], map[id := WillReserve]))
            && Taken(One(me, ended, ANSWERED, None, actuated, map[], map[id := WillReserve]), ShowsAccepted(id),
                     One(me, ended, ANSWERED, Some(ShownAccepted), actuated, map[], map[id := WillReserve]))
  {
    hide ReserveRow, ReadRow, CanLatch, Recover, Retire, Renew, WriteDecision, WriteReason, Decided, CaptureReason, MarkDropped, CanAttempt, CanEnrich, MintEnded, ReserveBody;
  }

  /** Every captured normal scan has a run that ends with its acceptance. */
  lemma AcceptanceIsReachable(me: string, c: Captured, lease: real, at: string)
    requires CapturedOk(c) && c.scan == NormalScan && me != "" && at != ""
    ensures IsRun(Steps(c.occurrenceId, c, lease, at), States(me, c, lease, at))
    ensures States(me, c, lease, at)[13].scans[c.occurrenceId].shown == Some(ShownAccepted)
  {
    hide Enabled, Next, MintRow, ReserveRow, ReadRow;
    var id, e, rows := c.occurrenceId, NewEntry(c).(mint := MintCommitted), Minted(c, me, lease);
    Opening(me, c);
    Minting(me, c, lease);
    Asking(me, e, rows);
    Marking(me, e, rows);
    Reserving(me, c, lease);
    Committing(me, e.(marking := true, mark := MarkPending), rows, at);
  }
}
