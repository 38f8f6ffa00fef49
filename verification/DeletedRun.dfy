/** A run in which the database is deleted under a live page: the latched decision stays, and
    its write ends beyond repair. */
module DeletedRun {
  import opened Basics
  import opened OccurrenceModel
  import opened OccurrenceStore
  import opened Coordinator
  import opened ScannerProtocol
  import A = AcceptedRun

  const CANCELLED := Cancelled(false)

  /** The page after its scan was cancelled. */
  function Gone(me: string, c: Captured, at: string, rows: Rows, durable: Durable, ready: bool, lost: bool): Sys {
    var id := c.occurrenceId;
    var e := NewEntry(c).(mint := MintCommitted, final := Some(Decide(CANCELLED, at)), durable := durable);
    Sys(Page(map[id := e], map[], if durable == Unrepairable then {} else {id}, true), rows, map[], {},
        map[id := Scan(A.SILENT, true, Some(ShownOther))], map[], map[], me, ready, if lost then {id} else {})
  }

  function Steps(c: Captured, lease: real, at: string): seq<Step> {
    var id := c.occurrenceId;
    [ LockPage, SetReady(true), Capture(c), MintStarts(id), MintCommits(id, lease), Decides(id, CANCELLED, at, true),
      Writes(id, Fails), SetReady(false), Deletes, SetReady(true), Writes(id, Commits) ]
  }

  function States(me: string, c: Captured, lease: real, at: string): seq<Sys> {
    var rows := A.Minted(c, me, lease);
    [ A.Before(me, false, false), A.Before(me, true, false), A.Before(me, true, true),
      A.One(me, NewEntry(c), A.SILENT, None, map[], map[], map[]),
      A.One(me, NewEntry(c).(mint := MintPending), A.SILENT, None, map[], map[], map[]),
      A.One(me, NewEntry(c).(mint := MintCommitted), A.SILENT, None, rows, map[], map[]),
      Gone(me, c, at, rows, NoneYet, true, false), Gone(me, c, at, rows, Failed, true, false),
      Gone(me, c, at, rows, Failed, false, false), Gone(me, c, at, map[], Failed, false, true),
      Gone(me, c, at, map[], Failed, true, true), Gone(me, c, at, map[], Unrepairable, true, true) ]
  }

  lemma Cancelling(me: string, c: Captured, at: string, rows: Rows)
    requires c.scan == NormalScan && at != ""
    ensures A.Taken(A.One(me, NewEntry(c).(mint := MintCommitted), A.SILENT, None, rows, map[], map[]),
                    Decides(c.occurrenceId, CANCELLED, at, true), Gone(me, c, at, rows, NoneYet, true, false))
  {
    hide ReadRow, MintEnded, MarkEnded, Recover, Retire, Renew, ReserveBody, WriteDecision, WriteReason, CanAttempt, CanEnrich;
  }

  lemma Failing(me: string, c: Captured, at: string, rows: Rows)
    ensures A.Taken(Gone(me, c, at, rows, NoneYet, true, false), Writes(c.occurrenceId, Fails), Gone(me, c, at, rows, Failed, true, false))
  {
    hide ReadRow, MintEnded, MarkEnded, Recover, Retire, Renew, ReserveBody, CanLatch, Decided, WriteReason, CanEnrich;
  }

  lemma Deleting(me: string, c: Captured, at: string, rows: Rows)
    ensures A.Taken(Gone(me, c, at, rows, Failed, true, false), SetReady(false), Gone(me, c, at, rows, Failed, false, false))
    ensures A.Taken(Gone(me, c, at, rows, Failed, false, false), Deletes, Gone(me, c, at, map[], Failed, false, true))
    ensures A.Taken(Gone(me, c, at, map[], Failed, false, true), SetReady(true), Gone(me, c, at, map[], Failed, true, true))
  {
    hide ReadRow, MintEnded, MarkEnded, Recover, Retire, Renew, ReserveBody, CanLatch, Decided, WriteDecision, WriteReason;
  }

  lemma Repairing(me: string, c: Captured, at: string)
    ensures A.Taken(Gone(me, c, at, map[], Failed, true, true), Writes(c.occurrenceId, Commits),
                    Gone(me, c, at, map[], Unrepairable, true, true))
  {
    hide ReadRow, MintEnded, MarkEnded, Recover, Retire, Renew, ReserveBody, CanLatch, Decided, WriteReason;
  }

  /** Every captured normal scan has a run that ends with its decision beyond repair. */
  lemma DeletionIsReachable(me: string, c: Captured, lease: real, at: string)
    requires CapturedOk(c) && c.scan == NormalScan && me != "" && at != ""
    ensures IsRun(Steps(c, lease, at), States(me, c, lease, at))
    ensures var s := States(me, c, lease, at)[11];
            && Minted(s, c.occurrenceId) && c.occurrenceId !in s.rows
            && s.page.entries[c.occurrenceId].durable == Unrepairable
            && Latched(s.page, c.occurrenceId) == Some(Decide(CANCELLED, at))
  {
    hide Enabled, Next, MintRow, ReadRow;
    var rows := A.Minted(c, me, lease);
    A.Opening(me, c);
    A.Minting(me, c, lease);
    Cancelling(me, c, at, rows);
    Failing(me, c, at, rows);
    Deleting(me, c, at, rows);
    Repairing(me, c, at);
  }
}
