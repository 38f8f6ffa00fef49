# Admission, trail and scanner model

A Dafny 4.11 model of how this repository lets people through doors, and proofs of what that
promises. It models three connected parts.

**The Access admission store and its signed trail (Go).** Tickets, lifecycle events, integrity
rows, heads, queued head changes, checkpoints, quarantine rows, local refusals, organizer
modes, owed alarms, consumed events and refund batches are the fields of one value, `Store.Db`.
Every store call is one atomic step: it commits the tables that a specification function
describes, or leaves them alone. The class `AccessStore.Postgres` holds the same calls as
methods that change the tables in place and are proved against those functions.

| module | what it holds |
|---|---|
| `Canonical`, `Merkle` | signed and hashed forms, the checkpoint root |
| `Trail`, `Audit`, `Appending` | the gate verifier, the audit passes, the append |
| `Checkpoints`, `Backfill`, `Verifier` | checkpoint chains, adoption of old history, the whole verifier |
| `Store`, `AccessStore`, `Machine`, `Workers` | the tables, the calls, runs of calls, the checkpoint worker |
| `HonestRuns`, `Seals`, `MixedOrders` | every run verifies, seals are kept; when exactly mixed orders do not |
| `Admission`, `OnceOnly`, `DegradedWindow` | bounded live admission, retries, one record an occurrence, the degraded window |
| `Exchanges`, `Refunds`, `Conflicts`, `Outbox` | switches, refund batches, the derived pass conflicts, the alarm outbox |
| `Signatures`, `CheckpointLaws` | what acceptance says of signatures and of the rows under them; when the worker signs |
| `Answers`, `OneRedemption`, `CommerceLaws`, `ConflictLaws`, `OutboxLaws` | every answer of a call, exactly, over the rows alone; one redemption a ticket over both routes |

**The scanner occurrence protocol (TypeScript).** `OccurrenceModel` is the stored row, its
validator and every write; `OccurrenceStore` the guarded transactions; `Coordinator` the
decision latch; `EntryScan` one scan run; `Readiness` the connection of a page, one generation
after another. `ScannerProtocol` is a page among other tabs, with mint and mark transactions
that may commit or abort at any later step, and with the database deleted under it; `AcceptedRun`
and `DeletedRun` show that its runs reach acceptance and a write beyond repair.
`EndToEnd` joins rows and store over a network that loses, delays, duplicates and reorders.
`EntryAnswers`, `RowLaws`, `CoordinatorLaws` and `ReadinessLaws` say of each instruction, write, transition
and published state exactly when it comes about.

**Two algorithms on their own.** `RateLimit` is the keyed token bucket with eviction,
`CapabilityPath` the rewriter that keeps capabilities out of logs; `RateLaws` says exactly which
calls the limiter lets through, `CapabilityLaws` what each declared path shows.

What is assumed. SHA-256, Ed25519 and the text formats are functions of a `Suite`. Text formats
are injective and free of newlines; a signature verifies under the key that made it; that two
messages do not collide is assumed only of the messages a lemma hashes, and only where it says
so; that a presented signature was not forged is assumed only where a lemma says what was signed. Event ids are constructors: a version 4 id of a scanner is never a derived version 5 id
(sections 5.4 and 5.5 of RFC 9562). Times are integers in microseconds; those of the
limiter and of scanner leases are reals. What a query returns in order is an argument with that order as a precondition.

Where the code and what is written about it disagree, the model follows the code:

- The comment on key ids (`services/access/internal/lifecycle/keys.go:49-58`) says that a newline
  in a key id would make a signed form ambiguous. The hash after it has a fixed width, so the
  forms are injective for every key id (`Canonical.CanonicalHeadInjective`).
- The comment on folding (`shared/go/obs/capability_path.go:277-281`) speaks of case only; the comparison
  also folds U+017F and U+212A, and so does the model (`CapabilityPath.FoldingGoesBeyondCase`). Dot segments go as in section 5.2.4 of
  RFC 3986, except that empty segments are dropped first.

Worth knowing besides:

- `RecordAdmission` does not read the quarantine table, so it can record what is quarantined
  (`OnceOnly.ExclusiveIff`, `OnceOnly.QuarantinedThenRecorded`).
- The live gate of a single entry looks for a redemption and for a degraded admission, not for the
  whole admission record. A ticket that went in otherwise, by an `entry` event from when its slot was a
  pass or by what was reconciled while its chain was suspect, is let in once more as clean
  (`OneRedemption.ReconciledIsSpentIff`, `OneRedemption.BesideIsLetInAgain`).
- Refunds and exchanges take the identity from the first ticket, so trails verify afterwards
  exactly when the voided tickets share one (`MixedOrders.RefundVerifiesIff`,
  `MixedOrders.ExchangeVerifiesIff`). `HonestRuns` therefore assumes of issuance that an order
  determines its organizer and slot.
- An occurrence that was answered `conflict` is answered `synced` on a resend (`EndToEnd.ResendIff`),
  and a reconciled exit whose slot has stopped being a pass is rejected on a resend although the
  record holds it (`EndToEnd.ExitIsRefusedAfterwards`).
- Deleting the scanner's database under a live page takes its rows, not its latched decisions: a
  later write of one ends unrepairable, exactly then (`ScannerProtocol.UnrepairableIff`).
- With tickets distinct, a checkpoint root alone determines its leaves; the signed leaf count adds
  nothing to that (`Merkle.RootBinds`).

## Model

| member | source | states |
|---|---|---|
| Canonical.LinesInjective | services/access/internal/lifecycle/canonical.go:74-79 | joined by newlines, equal texts have equal fields, if all fields but the last are free of newlines |
| Canonical.DomainSeparates | services/access/internal/lifecycle/canonical.go:74-123 | the domain line tells the kinds of signed and hashed forms apart |
| Canonical.CanonicalEventInjective | services/access/internal/lifecycle/canonical.go:74-79 | the form an entry hash covers determines the event |
| Canonical.EntryMessageInjective | services/access/internal/lifecycle/canonical.go:131-136 | hashing the previous hash before the canonical event binds both |
| Canonical.CanonicalHeadInjective | services/access/internal/lifecycle/canonical.go:84-88 | a head signature binds ticket, sequence, key id and hash, for any key id whatever |
| Canonical.CanonicalLeafInjective | services/access/internal/lifecycle/canonical.go:91-95 | a leaf form determines the leaf |
| Canonical.CanonicalNodeInjective | services/access/internal/lifecycle/canonical.go:138-141 | a node form determines both children |
| Canonical.CanonicalCheckpointInjective | services/access/internal/lifecycle/canonical.go:118-123 | a checkpoint signature binds every field, for any key id whatever |
| Canonical.FormsAreDisjoint | services/access/internal/lifecycle/canonical.go:74-141 | no head, leaf, node, checkpoint or event form equals one of another kind |
| Merkle.SortLeaves | services/access/internal/lifecycle/canonical.go:160-189 | the sorted copy holds the same leaves, in ascending ticket order |
| Merkle.SortIsUnique | services/access/internal/lifecycle/canonical.go:160-189 | leaves with distinct tickets have one sorted order |
| Merkle.MerkleRoot | services/access/internal/lifecycle/canonical.go:160-189 | the level loop ends, refuses exactly the empty list and repeated tickets, and computes the specified root |
| Merkle.RootIgnoresOrder | services/access/internal/lifecycle/canonical.go:160-189 | the root does not depend on the order the leaves arrive in |
| Merkle.RootIsTreeHash | services/access/internal/lifecycle/canonical.go:160-189 | folding levels with a duplicated last hash is hashing one binary tree whose leaves are the given ones |
| Merkle.HashTreeInjective | services/access/internal/lifecycle/canonical.go:138-189 | without collisions among the messages hashed, equal tree hashes mean equal trees, padding included |
| Merkle.RootBinds | services/access/internal/lifecycle/canonical.go:160-189 | two accepted lists have one root exactly when they hold the same leaves; leaf counts need not be compared |
| Merkle.PaddingIsAmbiguous | services/access/internal/lifecycle/canonical.go:160-189 | without the duplicate check a list and its padded form would share a root |
| Trail.WalkTicketChain | services/access/internal/store/lifecycle.go:258-316 | the row loop passes exactly when every event of the ticket is linked in order, and otherwise names what is wrong with the first row that is not |
| Trail.CheckHead | services/access/internal/store/lifecycle.go:328-366 | the head part passes exactly when head and chain match, and otherwise names the first thing wrong with the head |
| Trail.VerifyTicketChain | services/access/internal/store/lifecycle.go:258-369 | the gate answers nothing or the one reason there is to refuse the ticket |
| Trail.RefusedIffReason | services/access/internal/store/lifecycle.go:258-369 | a ticket is refused exactly when some reason applies |
| Trail.ReasonIsUnique | services/access/internal/store/lifecycle.go:258-369 | at most one reason applies to a ticket |
| Trail.SortedRowsAreTheChain | services/access/internal/store/lifecycle.go:258-316 | if any order of the events is a chain, the order of the query is that chain |
| Trail.AcceptanceIsAboutTheRows | services/access/internal/store/lifecycle.go:258-369 | accepting some order of the events is accepting the order of the query |
| Trail.ChainHashBinds | services/access/internal/store/lifecycle.go:274-316 | equal hashes at one position of two chains mean equal identity and equal events up to there, collisions aside |
| Trail.HeadBindsHistory | services/access/internal/store/lifecycle.go:258-369 | two stores that pass the gate for a ticket with the same head sequence and hash hold the same identity and the same events in the same order, collisions aside |
| Appending.AppendExtendsChain | services/access/internal/store/lifecycle.go:184-247 | an append makes the chain of its ticket one longer, and it still verifies |
| Appending.AppendLeavesChain | services/access/internal/store/lifecycle.go:184-247 | an append leaves the verdict on every other chain as it was |
| Appending.AppendKeepsHonest | services/access/internal/store/lifecycle.go:184-247 | on a trail that verifies, an append fails exactly when its event is taken, and keeps every chain verifying |
| MixedOrders.AppendNeedsIdentity | services/access/internal/store/lifecycle.go:184-247 | after an append the gate accepts the ticket if and only if the append used the identity of the ticket |
| AccessStore.Postgres.AppendLifecycle | services/access/internal/store/lifecycle.go:184-247 | event, link, head and queued snapshot are written together, or the first unique index that is hit decides the error and nothing is |
| Appending.AppendFitsIff | services/access/internal/store/lifecycle.go:184-247 | an append succeeds exactly when its event is not taken and neither the event nor the next place in the chain has a link |
| HonestRuns.HonestRunsNeverDegrade | services/access/internal/store/lifecycle.go:258-369 | in every state of every honest run the gate has nothing against any ticket, so no scan degrades |
| DegradedWindow.HumanModeStands | services/access/internal/store/lifecycle.go:514-536 | a mode other than normal stands until a human sets it again, whatever degrades meanwhile: the automatic flip never takes a choice back |
| AccessStore.Postgres.CountRecent | services/access/internal/store/lifecycle.go:509-513 | the degraded admissions of one organizer after the start of the window |
| AccessStore.Postgres.AdmitOnce | services/access/internal/store/lifecycle.go:483-543 | the quarantine row, the flip it may cause and the alarm of a degraded admission |
| AccessStore.Postgres.Degrade | services/access/internal/store/lifecycle.go:424-544 | a scan of a suspect chain replays, denies or admits once, as specified |
| DegradedWindow.DenyStopsDegraded | services/access/internal/store/lifecycle.go:471-481 | once a human sets deny, and until the mode is set again, no scan of a suspect chain is freshly accepted, on any slot, in any direction |
| DegradedWindow.SystemOnlyDenies | services/access/internal/store/lifecycle.go:424-569 | without a human a mode only ever moves from normal to operator-deny |
| DegradedWindow.AdmissionKeepsBound | services/access/internal/store/lifecycle.go:483-536 | one degraded admission keeps the window bound, because the flip comes before the next |
| DegradedWindow.DegradedAdmissionsAreBounded | services/access/internal/store/lifecycle.go:424-551 | over serialised calls on a clock that does not step back, the degraded admissions of one organizer in any window of the policy length stay within the threshold, until a human sets a mode |
| DegradedWindow.FreshOrganizerIsBounded | services/access/internal/store/lifecycle.go:404-416 | where such a run may start |
| Audit.VerifyChains | services/access/internal/store/lifecycle_verify.go:85-153 | one ordered pass over all rows passes exactly when every ticket has a chain |
| Audit.VerifyHeads | services/access/internal/store/lifecycle_verify.go:157-196 | heads and computed chains agree one to one |
| Audit.HeadsMatchChains | services/access/internal/store/lifecycle_verify.go:85-196 | the head pass over the computed values is the statement that each head matches its chain |
| Audit.VerifyTickets | services/access/internal/store/lifecycle_verify.go:39-215 | chain, head and orphan passes together pass exactly when the audit accepts |
| Trail.GateAndAuditAgree | services/access/internal/store/lifecycle_verify.go:85-215 | on arbitrary tables with intact keys, the audit is clean exactly when the gate accepts every ticket, although they join integrity rows differently |
| Checkpoints.VerifyEpochs | services/access/internal/store/lifecycle_verify.go:222-246 | the epoch pass accepts exactly the seals that verify |
| Checkpoints.CheckpointLeaves | services/access/internal/store/lifecycle_verify.go:329-362 | leaves are returned exactly when each is authenticated, and they are the last selected change of each ticket |
| Checkpoints.CheckRow | services/access/internal/store/lifecycle_verify.go:292-314 | a row passes exactly when its root, leaf count and signature are those of its archived leaves |
| Checkpoints.PlacedInOrder | services/access/internal/store/lifecycle_verify.go:253-321 | walking in order, comparing with the row before is checking the whole chain |
| Checkpoints.VerifyCheckpoints | services/access/internal/store/lifecycle_verify.go:253-321 | one ordered scan accepts exactly when every chain is in place and every row checks |
| Verifier.VerifyLifecycle | services/access/internal/store/lifecycle_verify.go:39-62 | the verifier is clean exactly when a keyring is configured and every pass is |
| HonestRuns.HonestRunsVerify | services/access/internal/store/lifecycle_verify.go:39-362 | every state of every run of the store operations, from an honest store, passes all passes of the verifier |
| HonestRuns.RunStaysHonest | services/access/internal/store/lifecycle_verify.go:39-362 | the invariant behind it: every step keeps trails, archived roots, seals and checkpoint chains verifying |
| HonestRuns.EmptyStoreIsHonest | services/access/internal/store/lifecycle_verify.go:39-62 | an empty store is a starting point |
| HonestRuns.AdoptedStoreIsHonest | services/access/internal/store/lifecycle_verify.go:39-62 | so is a store whose history has been backfilled completely |
| Checkpoints.Authenticate | services/access/internal/store/lifecycle_checkpoint.go:139-147 | the first queued change the worker refuses to sign over, if any |
| Checkpoints.LatestLeaves | services/access/internal/store/lifecycle_checkpoint.go:171-182 | the deduplication loop keeps the last selected change of each ticket, one leaf a ticket |
| Checkpoints.LatestIsLast | services/access/internal/store/lifecycle_checkpoint.go:171-182 | a ticket has a leaf exactly when a change of it is selected, and the leaf is the last such change |
| Checkpoints.CheckpointKeepsSound | services/access/internal/store/lifecycle_checkpoint.go:149-212 | after a checkpoint every row, the new one included, is rebuilt from the archive exactly as it was signed |
| Checkpoints.ArchiveIsStable | services/access/internal/store/lifecycle_checkpoint.go:80-212 | changes queued later and tickets registered later leave every archived root as it was, although heads advance |
| Checkpoints.WorkerKeepsSound | services/access/internal/store/lifecycle_checkpoint.go:80-212 | a run of the worker keeps every checkpoint chain sound |
| Checkpoints.SealKeepsEpochs | services/access/internal/store/lifecycle_checkpoint.go:392-402 | sealing copies verified head signatures and never replaces an earlier seal |
| HonestRuns.CheckpointHonest | services/access/internal/store/lifecycle_checkpoint.go:80-212 | a checkpoint run keeps the store honest |
| HonestRuns.SealHonest | services/access/internal/store/lifecycle_checkpoint.go:392-402 | sealing keeps the store honest |
| AccessStore.Postgres.CheckpointOrganizer | services/access/internal/store/lifecycle_checkpoint.go:80-212 | one transaction signs the next row of the chain, reports that nothing is pending, or refuses and changes nothing |
| AccessStore.Postgres.RootOf | services/access/internal/store/lifecycle_checkpoint.go:180-186 | the root over the leaves in map order is the root in ticket order |
| Seals.SealedHeadsAreKept | services/access/internal/store/lifecycle_checkpoint.go:392-402 | after sealing, every ticket that had a head stays sealed under the key of that head in every later state of a run, with the head of that moment or an earlier seal |
| Backfill.AdoptedVerifies | services/access/internal/store/lifecycle_checkpoint.go:291-373 | an adopted history is a chain that verifies |
| Backfill.AdoptionLeavesChain | services/access/internal/store/lifecycle_checkpoint.go:291-373 | adopting one ticket leaves every other chain as it was |
| Backfill.LegacyCanBeAdopted | services/access/internal/store/lifecycle_checkpoint.go:245-290 | a store whose integrity tables are empty can be adopted |
| Backfill.BackfillAdvances | services/access/internal/store/lifecycle_checkpoint.go:291-373 | a waiting ticket of a store in adoption is chained, never refused |
| Backfill.CompleteBackfillIsHonest | services/access/internal/store/lifecycle_checkpoint.go:245-290 | when nothing waits any more every ticket verifies |
| AccessStore.Postgres.BackfillTicket | services/access/internal/store/lifecycle_checkpoint.go:291-373 | one transaction adopts one history, or refuses it and changes nothing |
| AccessStore.Postgres.WaitingTickets | services/access/internal/store/lifecycle_checkpoint.go:257-278 | the tickets with history and no head, each once |
| AccessStore.Postgres.BackfillLifecycle | services/access/internal/store/lifecycle_checkpoint.go:245-290 | batch after batch, the loop ends with no ticket waiting; from a store in adoption it ends honest and keeps every event |
| Outbox.Alarms.ClaimAlarms | services/access/internal/store/lifecycle_checkpoint.go:414-440 | the oldest claimable alarms are leased to the claim, and to nobody else |
| Outbox.Alarms.ReleaseAlarm | services/access/internal/store/lifecycle_checkpoint.go:442-450 | a release reschedules or dead-letters the alarm only for the claim that holds it |
| Outbox.Alarms.MarkAlarmPublished | services/access/internal/store/lifecycle_checkpoint.go:453-467 | an alarm is retired once, and only for the claim that holds it |
| Outbox.OutboxIsSafe | services/access/internal/store/lifecycle_checkpoint.go:414-467 | in every interleaving of drainers, crashes and lost leases: never both published and dead-lettered, dead-lettered only after the maximum number of claims, retired only if really published |
| Outbox.StaleClaimIsPowerless | services/access/internal/store/lifecycle_checkpoint.go:442-467 | once a newer claim has taken an alarm, the older one can neither retire nor release it, ever |
| Outbox.OwedAlarmsWake | services/access/internal/store/lifecycle_checkpoint.go:414-450 | every other alarm becomes claimable again, at the latest when its lease or half a minute is over |
| Outbox.Alarms.Once | services/access/internal/lifecyclejob/runner.go:264-303 | an undisturbed pass retires exactly the claimed alarms that were delivered and releases the others |
| Workers.CheckpointMovesForward | services/access/internal/lifecyclejob/runner.go:109-151 | a committed checkpoint lies past the position the worker had observed |
| Workers.Checkpointer.Visit | services/access/internal/lifecyclejob/runner.go:120-146 | one organizer of a pass adds at most one checkpoint and remembers it when it committed |
| Workers.Checkpointer.Once | services/access/internal/lifecyclejob/runner.go:109-151 | a pass keeps an honest store honest, never moves an observed position back, and refreshes the success time only if no organizer failed |
| AccessStore.Postgres.InsertIssuedTicket | services/access/internal/store/postgres.go:136-148 | a ticket row and its issued event, together |
| AccessStore.Postgres.Issue | services/access/internal/store/postgres.go:107-128 | an event issues all its tickets once, or nothing |
| AccessStore.Postgres.MarkDelivered | services/access/internal/store/postgres.go:183-219 | a ticket is marked delivered once; repeating changes nothing |
| AccessStore.Postgres.ReplayByOccurrence | services/access/internal/store/postgres.go:458-529 | trail first, then quarantine, then refusals; another ticket or an unfitting type is a collision |
| AccessStore.Postgres.Redeem | services/access/internal/store/postgres.go:363-451 | the checks and the append of a chain that verified |
| AccessStore.Postgres.RedeemSingle | services/access/internal/store/postgres.go:296-451 | one live redemption commits the specified tables and answer, with the verdict of the gate on the chain it read, or changes nothing |
| AccessStore.Postgres.RecordAdmission | services/access/internal/store/postgres.go:584-666 | one repeatable event is recorded once; a repeat answers from the record |
| Admission.NextKeeps | services/access/internal/store/postgres.go:296-666 | whatever is called and whatever the gate answers, no ticket, event, refusal, batch, receipt, quarantine row or alarm is changed or dropped |
| Admission.AdmissionEffect | services/access/internal/store/postgres.go:296-451 | a fresh live admission needs an unvoided ticket without a degraded admission; a clean one needs and ends the unredeemed state |
| Admission.LiveAdmissionIsBounded | services/access/internal/store/postgres.go:296-451 | with the verdict arbitrary at each call, two fresh live admissions of one single-entry ticket are a clean one and then a degraded one: at most one of each, never clean after degraded |
| Admission.NoAdmissionOnceVoid | services/access/internal/store/postgres.go:329-362 | once refunded or exchanged, a ticket is never accepted live again, on any slot, in any direction |
| Admission.AcceptedIsOnRecord | services/access/internal/store/postgres.go:296-451 | an accepted scan leaves the answer that a retry will read |
| Admission.RetryIsStable | services/access/internal/store/postgres.go:458-529 | after any run, a retry of an accepted scan of an unvoided ticket returns the same decision and time and changes nothing, whatever the chain health, mode and by now the policy |
| Admission.DegradedRetryIff | services/access/internal/store/postgres.go:458-529 | the exact condition for a degraded admission: its retry is stable if and only if its occurrence was not recorded into the trail meanwhile |
| Admission.NewOccurrence | services/access/internal/store/postgres.go:296-666 | an occurrence enters the trail only by a scan or reconciliation of something unrecorded, or by a recording of something not refused |
| Admission.RecordingPassesQuarantine | services/access/internal/store/postgres.go:584-666 | a recording of something new succeeds exactly under its guards, which do not include the quarantine, and leaves the quarantine as it is |
| OnceOnly.ExclusiveIff | services/access/internal/store/postgres.go:584-666 | the exact condition: a step keeps every occurrence in at most one of trail and quarantine if and only if it is not a recording of a quarantined occurrence that meets the guards |
| OnceOnly.QuarantinedThenRecorded | services/access/internal/store/postgres.go:616-639 | such a recording is reachable: an offline entry on a history that is not chained yet is quarantined by its reconciliation and then recorded as well |
| OnceOnly.RunExclusive | services/access/internal/store/postgres.go:296-666 | without such recordings every state of a run has each occurrence in one place at most |
| AccessStore.Postgres.DenyExit | services/access/internal/store/scan.go:132-152 | an exit of a suspect chain is replayed or denied and reported, and never uses up the degraded admission |
| AccessStore.Postgres.AdmitVerified | services/access/internal/store/scan.go:156-229 | the replay, quarantine and policy checks of a pass ticket, and the append |
| AccessStore.Postgres.AdmitPass | services/access/internal/store/scan.go:58-229 | one live pass admission commits the specified tables and answer, with the verdict of the gate, or changes nothing |
| AccessStore.Postgres.Scan | services/access/internal/store/scan.go:32-51 | the policy of the slot picks the path, whatever the caller asked for |
| Conflicts.EvaluationRaisesDerived | services/access/internal/store/scan.go:362-433 | after a re-evaluation exactly the derived conflicts are raised |
| Conflicts.ProjectionIsConfluent | services/access/internal/store/scan.go:362-433 | facts arriving in any order, each followed by an evaluation, end in the same raised set, the one derived from all facts |
| Conflicts.EveryOrderIsReached | services/access/internal/store/scan.go:362-433 | every order of arrival reaches a projection |
| Conflicts.ReEvaluationIsSilent | services/access/internal/store/scan.go:362-433 | re-evaluating unchanged facts owes no raise and no withdrawal and changes no version |
| AccessStore.Postgres.RecordRevocationRefusal | services/access/internal/store/reconcile.go:70-120 | a local refusal is recorded once, beside the admission record, and only for an unused occurrence |
| AccessStore.Postgres.Reconciled | services/access/internal/store/reconcile.go:239-381 | on a verified chain: the direction for a pass, else a redemption or a duplicate, with the conflict alarm that is owed |
| AccessStore.Postgres.ReconcileAdmission | services/access/internal/store/reconcile.go:146-382 | one reconciliation replays, quarantines or appends, as specified, in one transaction |
| OnceOnly.RunSeparate | services/access/internal/store/reconcile.go:70-444 | in every run no refused occurrence is in the trail, and no two quarantine rows or a quarantine row and a refusal share an occurrence |
| Exchanges.LateEntryOwesAlarmIff | services/access/internal/store/reconcile.go:263-381 | a new offline entry on a single-entry slot owes exactly one conflict alarm if the chain verifies and the ticket is void or was admitted, and none otherwise |
| EndToEnd.ReplyIsBornOut | services/access/internal/store/reconcile.go:146-382 | every answer to a reconciled item is borne out by the tables it leaves |
| EndToEnd.AcceptedIsHeld | services/access/internal/store/reconcile.go:394-444 | whatever path accepts a live scan, the record then holds its occurrence |
| EndToEnd.RecordedOnce | services/access/internal/store/reconcile.go:146-444 | over a network that loses, delays, repeats and reorders, an occurrence has at most one record in trail and quarantine together, and keeps it where it began |
| EndToEnd.ResendIff | services/access/internal/store/reconcile.go:400-444 | the exact condition for a resend: it answers synced with the same time and changes nothing if and only if it is an entry or its slot is still a pass |
| EndToEnd.ExitIsRefusedAfterwards | services/access/internal/store/reconcile.go:181-190 | the refused resend: an exit reconciled on a pass is rejected once its slot is no pass, although the record holds it |
| AccessStore.Postgres.CheckSource | services/access/internal/store/exchanges.go:145-162 | the first source ticket that stands in the way of a switch |
| AccessStore.Postgres.VoidTickets | services/access/internal/store/exchanges.go:169-176 | every listed ticket is voided under its derived event id, or none is |
| AccessStore.Postgres.SwitchExchange | services/access/internal/store/exchanges.go:86-186 | one transaction commits the whole switch, or changes nothing |
| Exchanges.SwitchIsAllOrNothing | services/access/internal/store/exchanges.go:86-186 | a switch voids a whole source order none of which was void or admitted and issues every replacement; otherwise nothing changes |
| Exchanges.SwitchTakesEffectOnce | services/access/internal/store/exchanges.go:86-186 | an order is switched at most once in a run, however often and under whatever ids events are delivered |
| MixedOrders.ExchangeVerifiesIff | services/access/internal/store/exchanges.go:164-184 | the exact condition: after a switch all tickets, replacements included, verify if and only if the tickets of the source order share one identity |
| Exchanges.NeverBothAdmittedAndSwitched | services/access/internal/store/exchanges.go:86-186 | no run has both a fresh live admission of a source ticket and its switch, in either order |
| Exchanges.LateEntryIsReported | services/access/internal/store/exchanges.go:191-206 | after a switch, a new offline entry of a source ticket with a valid chain leaves a conflict alarm owed in every later state |
| AccessStore.Postgres.Split | services/access/internal/store/refunds.go:120-132 | one loop splits the order into the tickets of this refund and the free ones |
| AccessStore.Postgres.RefundOrderTickets | services/access/internal/store/refunds.go:65-176 | one refund commits its whole batch, replays it, or changes nothing |
| Refunds.SelectionsAreDisjoint | services/access/internal/store/refunds.go:65-176 | different refunds void disjoint sets of issued tickets |
| Refunds.MineIsVoided | services/access/internal/store/refunds.go:120-132 | the replay query finds exactly the tickets the refund voided, in ticket order |
| Refunds.OwnSetIsEmptyOrComplete | services/access/internal/store/refunds.go:133-138 | the own set of a refund is empty or complete, so the size mismatch cannot happen |
| Refunds.FreshVoidsItsQuantity | services/access/internal/store/refunds.go:140-176 | a fresh refund voids exactly its quantity |
| Refunds.RefundAnswers | services/access/internal/store/refunds.go:65-176 | an accepted refund answers with its own voided set, of exactly its quantity; a replay appends nothing |
| Refunds.RefundReplayIsStable | services/access/internal/store/refunds.go:65-176 | whatever refunds, issues or other calls come between, a repeat returns the same tickets in the same order and changes nothing |
| Refunds.RunsKeepRefunds | services/access/internal/store/refunds.go:65-176 | the invariant behind these holds in every state of every run |
| Refunds.NoRefundsIsOk | services/access/internal/store/refunds.go:65-176 | a store without refunds is where a run may start |
| MixedOrders.RefundVerifiesIff | services/access/internal/store/refunds.go:162-174 | the exact condition for taking the identity from the first ticket: after a fresh refund all tickets verify if and only if the tickets it selects, the first free ones of the order, share one identity |
| MixedOrders.TwoSlotOrderFails | services/access/internal/store/refunds.go:162-174 | a failing case: an order of two slots is issued and refunded as a whole; the refund succeeds and a ticket no longer verifies |
| Conflicts.OrderIsUnique | services/access/internal/store/conflicts.go:68-80 | a set of facts with distinct keys has one order |
| Conflicts.DerivePolicyConflicts | services/access/internal/store/conflicts.go:87-110 | the loop computes the specified conflicts |
| Conflicts.EvaluateLiveAdmission | services/access/internal/store/conflicts.go:123-147 | the loop computes the specified live answer |
| Conflicts.DiffPolicyConflicts | services/access/internal/store/conflicts.go:154-168 | raises in derivation order, withdrawals each once, as specified |
| Conflicts.DeriveIgnoresOrder | services/access/internal/store/conflicts.go:87-110 | deriving depends only on the set of facts |
| Conflicts.LiveRefinesDerived | services/access/internal/store/conflicts.go:87-147 | for a pass and an entry later than all known facts, the live answer is a rule exactly when the derivation attributes that conflict to the entry |
| Conflicts.LimitConflictsAreTheExcess | services/access/internal/store/conflicts.go:87-110 | entry-limit conflicts number the entries beyond the limit |
| Conflicts.LateExitOnlyWithdraws | services/access/internal/store/conflicts.go:87-110 | a late exit raises nothing and withdraws at most one conflict, wherever it falls |
| RateLimit.SpendKeepsCredit | shared/go/ratelimit/ratelimit.go:109-121 | refilling and spending one bucket turn credit, which grows with forward time only, into at most one acceptance |
| RateLimit.Limiter.Sweep | shared/go/ratelimit/ratelimit.go:126-132 | exactly the buckets idle for a full refill are dropped |
| RateLimit.Limiter.Allow | shared/go/ratelimit/ratelimit.go:93-122 | one call answers and updates the buckets as specified |
| RateLimit.RunKeepsCap | shared/go/ratelimit/ratelimit.go:93-122 | tracked keys never exceed the cap |
| RateLimit.AcceptancesAreBounded | shared/go/ratelimit/ratelimit.go:93-132 | over any stretch of calls, with evictions and a clock that steps back, a key is accepted at most burst plus rate times the forward movement of the clock |
| RateLimit.EvictionIsInvisible | shared/go/ratelimit/ratelimit.go:93-132 | with a clock that never steps back and no refusal at the cap, the answers are those of a limiter that never evicts |
| CapabilityPath.JoinSplit | shared/go/obs/capability_path.go:138-200 | splitting at slashes and joining gives the path back |
| CapabilityPath.SplitJoin | shared/go/obs/capability_path.go:138-200 | joining segments without slashes and splitting gives them back |
| CapabilityPath.Survivors | shared/go/obs/capability_path.go:224-247 | the stack holds exactly the segments that no later parent step takes back |
| CapabilityPath.CanonicalSegments | shared/go/obs/capability_path.go:224-247 | the loop yields the surviving segments with their positions and everything that was popped |
| CapabilityPath.Matches | shared/go/obs/capability_path.go:255-303 | a route matches segment by segment |
| CapabilityPath.FoldingGoesBeyondCase | shared/go/obs/capability_path.go:277-293 | a path spelt with the long s matches a declared route |
| CapabilityPath.SanitizedPath | shared/go/obs/capability_path.go:138-200 | the in-place overwriting computes the specified path |
| CapabilityPath.RewritingIsExact | shared/go/obs/capability_path.go:138-247 | slashes stay; empty, dot and surviving non-capability segments stay verbatim; every surviving capability and everything popped becomes the placeholder; a path of no declared route is unchanged |
| CapabilityPath.RewritingIsIdempotent | shared/go/obs/capability_path.go:138-200 | rewriting twice changes nothing more |
| OccurrenceModel.ReadCurrentRecord | web/scanner/src/occurrence-model.ts:130-191 | the branches of the validator accept exactly the readable rows |
| OccurrenceModel.ClassificationMatchesValidator | web/scanner/src/occurrence-model.ts:77-127 | each kind of tag is accepted with a status exactly when a scan run puts that status under it |
| OccurrenceModel.MintIsReadable | web/scanner/src/occurrence-model.ts:130-191 | a minted row is readable and pending |
| OccurrenceModel.ReservationStaysReadable | web/scanner/src/occurrence-model.ts:130-191 | an actuated row is readable |
| OccurrenceModel.DecisionStaysReadable | web/scanner/src/occurrence-model.ts:130-191 | a decided row is readable, whatever the decision a scan run can latch |
| OccurrenceModel.EnrichmentStaysReadable | web/scanner/src/occurrence-model.ts:130-191 | adding the reason of a denial keeps the row readable |
| OccurrenceModel.RecoveryStaysReadable | web/scanner/src/occurrence-model.ts:130-191 | a recovered row is readable and carries the recovery outcome |
| OccurrenceModel.RenewalStaysReadable | web/scanner/src/occurrence-model.ts:130-191 | renewing a lease keeps the row readable |
| OccurrenceModel.ReconciliationStaysReadable | web/scanner/src/occurrence-model.ts:130-191 | applying a reconcile result keeps the row readable |
| OccurrenceModel.LatchedTagsAreOk | web/scanner/src/entry-scan.ts:82-105 | every decision a scan run can latch has a tag the validator accepts for its scan type |
| OccurrenceModel.ScanRunsStayReadable | web/scanner/src/entry-scan.ts:82-242 | whatever a scan run latches passes the guard of the write and is written as a readable row |
| EntryScan.Execution.Publish | web/scanner/src/entry-scan.ts:66-72 | the first instruction is the only one |
| EntryScan.Execution.Terminate | web/scanner/src/entry-scan.ts:76-81 | the decision is proposed before the operator is told |
| EntryScan.Execution.StopRun | web/scanner/src/entry-scan.ts:82-105 | stopping proposes what the situation calls for and tells the operator, once |
| EntryScan.Execution.QueueRun | web/scanner/src/entry-scan.ts:138-148 | queueing waits for one more checkpoint; only a refusal, a lost answer or an unavailable server is queued |
| EntryScan.Execution.Denial | web/scanner/src/entry-scan.ts:220-235 | a denial is proposed before its body is read |
| EntryScan.Execution.Answer | web/scanner/src/entry-scan.ts:243-258 | an accepted body is followed by the mark, and only a reserved mark is told as accepted |
| ScannerProtocol.ActuatedWasAnswered | web/scanner/src/entry-scan.ts:250-258 | a row of the page is actuated only after its run took in an accepted body |
| EntryScan.Execution.Submit | web/scanner/src/entry-scan.ts:151-263 | a run proposes only decisions its situation allows, at most two, tells the operator once and never before a decision, sends nothing before the mint or for a listed credential |
| OccurrenceStore.Store.Mint | web/scanner/src/occurrence-store.ts:315-347 | a mint adds a new row or aborts |
| OccurrenceStore.Store.ReserveActuation | web/scanner/src/occurrence-store.ts:360-407 | only an own pending normal row is reserved; an own actuation is reported |
| OccurrenceStore.Store.PersistDecision | web/scanner/src/occurrence-store.ts:409-444 | only an own pending row takes a decision; the same decision again is no change; anything else is refused |
| OccurrenceStore.Store.EnrichDenial | web/scanner/src/occurrence-store.ts:446-470 | only the same denial without a reason takes one |
| OccurrenceStore.Store.RenewOwnedPending | web/scanner/src/occurrence-store.ts:522-539 | the leases of the own pending rows, and nothing else |
| OccurrenceStore.Store.RecoverDeadOwner | web/scanner/src/occurrence-store.ts:541-585 | row and notice are written together, after every predicate was read again |
| OccurrenceStore.Store.ApplyReconcileResults | web/scanner/src/occurrence-store.ts:472-520 | a response is valid exactly when it answers every submitted id once; then all its results are applied or none |
| OccurrenceStore.PersistKeeps | web/scanner/src/occurrence-store.ts:409-444 | final writes keep rows readable, and recovery outcomes and notices in step |
| OccurrenceStore.EnrichKeeps | web/scanner/src/occurrence-store.ts:446-470 | so do enrichments |
| OccurrenceStore.ReserveKeeps | web/scanner/src/occurrence-store.ts:360-407 | so do reservations |
| OccurrenceStore.RecoverKeeps | web/scanner/src/occurrence-store.ts:541-585 | so does recovery, which adds its notice |
| OccurrenceStore.RenewKeeps | web/scanner/src/occurrence-store.ts:522-539 | so do renewals |
| OccurrenceStore.RetireKeeps | web/scanner/src/occurrence-store.ts:472-520 | so do reconcile results |
| OccurrenceStore.MintKeeps | web/scanner/src/occurrence-store.ts:315-347 | so do mints |
| EndToEnd.RunKeepsSound | web/scanner/src/occurrence-store.ts:315-585 | in every run of server calls and of row writes of any tab, rows claim no more than the answers given, and answers no more than the record bears out |
| EndToEnd.NothingRecordedIsSound | web/scanner/src/occurrence-store.ts:304-347 | empty tables on both sides are where a run may start |
| EndToEnd.SyncedMeansHeld | web/scanner/src/occurrence-store.ts:472-520 | a row is SYNCED only if the server holds its occurrence exactly once: an admission in trail or quarantine, a refusal among the refusals and nowhere else; for a row of the old format, one of the two |
| EndToEnd.ConflictMeansDuplicate | web/scanner/src/occurrence-store.ts:472-520 | a row is RESOLVED as a conflict only if the trail holds its duplicate_admit |
| EndToEnd.ActuatedMeansHeld | web/scanner/src/occurrence-store.ts:360-407 | a row is ACTUATED only if the server accepted its scan and holds it exactly once |
| EndToEnd.EndStaysIff | web/scanner/src/occurrence-store.ts:360-585 | the exact condition: a step keeps a row SYNCED or RESOLVED, with its result, if and only if it is not the deletion of the database |
| EndToEnd.FinalStays | web/scanner/src/occurrence-store.ts:360-585 | while the database is not deleted, no row leaves SYNCED or RESOLVED, and its result stays |
| ScannerProtocol.LiveRowsAreNeverRecovered | web/scanner/src/occurrence-store.ts:541-585 | no row of a page that lives is ever recovered by another tab |
| ScannerProtocol.ActuatedStaysIff | web/scanner/src/occurrence-store.ts:360-520 | the exact condition for one step: an actuated row of the page stays as it is, never queued, resolved or rewritten, if and only if the step is not the deletion of the database |
| ScannerProtocol.ActuatedStays | web/scanner/src/occurrence-store.ts:360-520 | until the database is deleted, an actuated row of the page stays as it is |
| Coordinator.PageCoordinator.RegisterCaptured | web/scanner/src/occurrence-coordinator.ts:269-283 | an id is registered once, also after its mint aborted |
| Coordinator.PageCoordinator.MintStarted | web/scanner/src/occurrence-coordinator.ts:290-293 | a mint starts once |
| Coordinator.PageCoordinator.MintSettled | web/scanner/src/occurrence-coordinator.ts:290-305 | a failed mint releases the entry and keeps only the id and its decision |
| Coordinator.PageCoordinator.MarkingBegins | web/scanner/src/occurrence-coordinator.ts:307-312 | marking begins once, on a committed mint without a decision |
| Coordinator.PageCoordinator.MarkStarted | web/scanner/src/occurrence-coordinator.ts:320-325 | a mark starts once |
| Coordinator.PageCoordinator.MarkSettled | web/scanner/src/occurrence-coordinator.ts:320-345 | a committed mark latches actuation, or settles behind the decision that was first |
| Coordinator.PageCoordinator.LatchDecision | web/scanner/src/occurrence-coordinator.ts:347-359 | the first decision stays, and the answer is the decision that holds |
| Coordinator.PageCoordinator.CaptureDenialReason | web/scanner/src/occurrence-coordinator.ts:363-373 | a reason is kept only for a denial latched without one |
| Coordinator.PageCoordinator.AttemptEnded | web/scanner/src/occurrence-coordinator.ts:182-228 | what the page believes durable after an attempt |
| Coordinator.PageCoordinator.EnrichmentEnded | web/scanner/src/occurrence-coordinator.ts:215-228 | a failed enrichment spends nothing |
| Coordinator.LatchKeepsDecisions | web/scanner/src/occurrence-coordinator.ts:347-359 | latching keeps every earlier decision and leaves one for the id |
| ScannerProtocol.RunKeepsInvariant | web/scanner/src/occurrence-coordinator.ts:182-396 | the invariant of the page: every latch, mark, row and instruction agree, in every interleaving |
| ScannerProtocol.LatchedDecisionNeverChanges | web/scanner/src/occurrence-coordinator.ts:347-361 | in every interleaving of stops, commits, aborts, failing writers and other tabs, a latched decision never changes |
| ScannerProtocol.StoredIsLatched | web/scanner/src/occurrence-coordinator.ts:182-345 | the exact condition: the row of a minted occurrence is missing if and only if the database was deleted after its mint committed; otherwise it holds the latched outcome, or the latched denial with its reason, or an actuation that committed late, and what the page believes durable is |
| ScannerProtocol.UnrepairableIff | web/scanner/src/occurrence-coordinator.ts:202-213 | the exact condition: a completed write of a latched decision ends unrepairable if and only if the database was deleted after the mint committed |
| DeletedRun.DeletionIsReachable | web/scanner/src/occurrence-coordinator.ts:182-228 | a run that shows it: the decision of every captured normal scan can end beyond repair, and stays latched |
| ScannerProtocol.ToldOnce | web/scanner/src/occurrence-coordinator.ts:347-361 | what the operator was told stays what was told |
| ScannerProtocol.AcceptedMeansActuated | web/scanner/src/occurrence-coordinator.ts:320-361 | accepted is told only with actuation latched, and both stay; the own row is there as actuated in every later state exactly if the database was not deleted since the mint |
| AcceptedRun.AcceptanceIsReachable | web/scanner/src/occurrence-coordinator.ts:269-359 | every captured normal scan has a run of the protocol that ends in accepted |
| Readiness.ReadyMeansUsable | web/scanner/src/occurrence-readiness.ts:190-290 | there is a ready store exactly while the page says ready; then the lock is held, every step of opening is done, the connection is open and current, and every other connection was never opened or is closed, so no other store takes any write; ready or not, at most one store does |
| Readiness.LockIsForThePage | web/scanner/src/occurrence-readiness.ts:197-301 | the lock is never released and generations only count up |
| Readiness.AbandonedIsSilent | web/scanner/src/occurrence-readiness.ts:106-272 | in every state of every run, no event of an abandoned generation, the late close of its connection included, changes what the page shows or the store it hands out |
| Readiness.StorageController.Begin | web/scanner/src/occurrence-readiness.ts:262-272 | a new generation closes the opened, unfinished connection of the previous one |
| Readiness.StorageController.StartFirst | web/scanner/src/occurrence-readiness.ts:281-283 | only an idle controller starts |
| Readiness.StorageController.RetryStorage | web/scanner/src/occurrence-readiness.ts:284-287 | retrying does nothing while ready or draining |
| Readiness.StorageController.StopStorage | web/scanner/src/occurrence-readiness.ts:292-300 | stopping closes the connection and keeps the lock |
| Readiness.BlockedIsInvisible | web/scanner/src/occurrence-readiness.ts:173-176 | a blocked request is progress only: whatever happens next, readiness included, happens as if it had not been blocked |
| Readiness.StorageController.OnError | web/scanner/src/occurrence-readiness.ts:203-209 | a failed open is published only while active |
| Readiness.StorageController.OnSuccess | web/scanner/src/occurrence-readiness.ts:177-222 | a late connection is closed at once; otherwise handlers, then the schema, then a store; the invariant of the page is kept |
| Readiness.StorageController.Proceed | web/scanner/src/occurrence-readiness.ts:226-240 | each stage advances only while its generation is active |
| Readiness.StorageController.Break | web/scanner/src/occurrence-readiness.ts:242-245 | a storage error is published only while active |
| Readiness.StorageController.LockAcquired | web/scanner/src/occurrence-readiness.ts:197-200 | the lock is progress, whichever generation asked for it |
| Readiness.RefusedIsNeverReady | web/scanner/src/occurrence-readiness.ts:246-251 | a generation whose lock request was refused is never ready, in any later state |
| Readiness.StorageController.Finish | web/scanner/src/occurrence-readiness.ts:246-259 | the store of this generation is handed out exactly if it is active and its lock was granted, and then it is usable |
| Readiness.StorageController.OnVersionChange | web/scanner/src/occurrence-readiness.ts:134-143 | a version change starts one drain |
| Readiness.StorageController.DrainSettled | web/scanner/src/occurrence-readiness.ts:144-151 | a drained connection closes, and says why if it is current |
| Readiness.StorageController.OnUnexpectedClose | web/scanner/src/occurrence-readiness.ts:154-167 | an unexpected close fails the page unless the connection was marked closed |
| Readiness.StorageController.ReadyWriter | web/scanner/src/occurrence-readiness.ts:288-290 | there is a writer exactly while the page is ready; then the lock is held, its connection is open and current, and no other store takes writes |
| Signatures.AcceptedIsSigned | services/access/internal/lifecycle/keys.go:143-165 | a ticket with events that the gate accepts has a head whose signature over the number and the last hash of its events holds under a configured key |
| Signatures.AcceptedWasSigned | services/access/internal/lifecycle/keys.go:143-165 | unless that signature is forged, the accepted history is one whose head the signer signed for that ticket: same identity, same events, same order, collisions aside |
| Signatures.AcceptedIffIntact | services/access/internal/store/lifecycle.go:258-369 | the gate accepts a ticket if and only if its rows are intact: link by link version, place, previous hash and entry hash, no link of its own beside them, and a head signed under a configured key, or none without events |
| Signatures.AppendWrites | services/access/internal/store/lifecycle.go:184-247 | what an append writes, row by row: the event, its link, the head over it, and that head queued for the next checkpoint |
| Signatures.AppendSignsHistory | services/access/internal/store/lifecycle.go:184-247 | what an append signs is the chain so far with the new event |
| Answers.SuspectIsAnswered | services/access/internal/store/lifecycle.go:424-544 | a scan of a suspect chain that is not a repeat is let in if and only if the ticket had no degraded admission and its organizer is not set to deny; the row, the mode it may flip and the alarm are exactly these, and so are the denials |
| Answers.RecentIs | services/access/internal/store/lifecycle.go:509-513 | the count is the number of rows of the organizer admitted after that time |
| Signatures.AuditedIffIntact | services/access/internal/store/lifecycle_verify.go:85-215 | the audit is clean if and only if the rows of every ticket are intact |
| Signatures.AuditedIsSigned | services/access/internal/store/lifecycle_verify.go:85-215 | in a clean audit every event lies under a head whose signature holds |
| Signatures.AuditedWasSigned | services/access/internal/store/lifecycle_verify.go:157-196 | and, unless forged, in a history that was signed |
| Signatures.SealsAreSignedIff | services/access/internal/store/lifecycle_verify.go:222-246 | the epoch pass accepts the seals if and only if each is a head signature of this version that holds under the key it is kept for |
| Signatures.CheckpointIsSigned | services/access/internal/store/lifecycle_verify.go:253-321 | an accepted checkpoint is signed; it has as many leaves as it says and their root, the last changes it took of each ticket, each signed and of its organizer; and it starts or continues its chain |
| Signatures.CleanIsSigned | services/access/internal/store/lifecycle_verify.go:39-62 | a clean audit in one place: every event, seal and checkpoint is under a signature that holds |
| CheckpointLaws.WorkerRefuses | services/access/internal/store/lifecycle_checkpoint.go:80-147 | the worker needs a signer; nothing waiting, it changes nothing; else it needs the keys, and the first waiting change that is no signed head of a ticket of the organizer stops it, under that reason |
| CheckpointLaws.WorkerSignsIff | services/access/internal/store/lifecycle_checkpoint.go:149-212 | with something waiting and nothing to stop it, the worker signs the next row over the last waiting change of every ticket and takes all that waits, if and only if the stored chain did not go back behind what it saw |
| Signatures.WorkerAuthenticates | services/access/internal/store/lifecycle_checkpoint.go:139-147 | a committed checkpoint took only signed changes of tickets of its organizer |
| Signatures.SealIs | services/access/internal/store/lifecycle_checkpoint.go:392-402 | sealing keeps every seal and adds each head under the key that signed it |
| OutboxLaws.ClaimIs | services/access/internal/store/lifecycle_checkpoint.go:414-440 | a claim takes the unpublished, living, due and unleased alarms that are due longest, as many as it may; each is an attempt |
| OutboxLaws.ReleaseIs | services/access/internal/store/lifecycle_checkpoint.go:442-450 | only the holder gives an alarm back; it rests five seconds more each time, up to thirty, and is dead from the tenth attempt on |
| OutboxLaws.MarkIs | services/access/internal/store/lifecycle_checkpoint.go:453-467 | only the holder retires an alarm, once, with its time |
| OutboxLaws.GivenUpIff | services/access/internal/store/lifecycle_checkpoint.go:442-450 | a step gives an alarm up if and only if its holder gives it back after at least ten claims |
| OutboxLaws.RetiredIff | services/access/internal/store/lifecycle_checkpoint.go:453-467 | a step retires an alarm if and only if its holder reports one it published |
| Answers.FreshRedemptionIff | services/access/internal/store/postgres.go:363-451 | with nothing against the chain, a scan of a single entry that is not a repeat is accepted if and only if the credential is the ticket's, the ticket is neither refunded nor exchanged and has neither a degraded admission nor a redemption, and the redemption can be signed onto its chain |
| Answers.HonestRedemptionIff | services/access/internal/store/postgres.go:363-451 | on an honest store the last of these is whether the event id is free |
| Answers.VoidIsDenied | services/access/internal/store/postgres.go:329-362 | a void ticket is denied by name at once, whatever the gate says, on either path |
| Answers.StrangerIsRefused | services/access/internal/store/postgres.go:296-328 | a malformed scan or a credential that is not the ticket's is an error and changes nothing |
| Answers.UsedIsDenied | services/access/internal/store/postgres.go:390-451 | a degraded admission is answered as quarantined at its time and reported again; a redemption as already redeemed at the time of its event |
| Answers.KnownIs | services/access/internal/store/postgres.go:458-529 | what the record says of an occurrence: the trail first, then the quarantine, then the refusals |
| Answers.KnownIsAnswered | services/access/internal/store/postgres.go:458-529 | a known occurrence of an unvoided ticket is answered as it was recorded, or as a collision, and changes nothing |
| Answers.SuspectScan | services/access/internal/store/postgres.go:296-451 | that is how a scan of a suspect chain is decided, on a single entry and for an entry on a pass |
| Answers.RepeatedRecording | services/access/internal/store/postgres.go:584-666 | a recording under a known id is a repeat, of the same ticket and type, or a collision; a new one records just that event |
| Answers.DeliveryIff | services/access/internal/store/postgres.go:183-219 | a delivery is recorded if and only if the ticket exists, was not delivered before and the event can be signed onto its chain |
| CommerceLaws.InsertAllIff | services/access/internal/store/postgres.go:107-148 | tickets are issued together if and only if there is a signer, their ids differ and each can be issued; each then has its row and its first event |
| CommerceLaws.IssueIff | services/access/internal/store/postgres.go:107-128 | an order event issues its tickets once; its repeat changes nothing |
| OneRedemption.StepRedeems | services/access/internal/store/postgres.go:296-666 | a step adds no redemption, or one for a ticket that had none |
| OneRedemption.RedeemedOnce | services/access/internal/store/postgres.go:296-666 | in every run a ticket is redeemed at most once, over the live and the offline route together |
| Answers.ScanPicksPath | services/access/internal/store/scan.go:32-51 | the policy of the slot picks the path; an exit of a single entry is not applicable |
| Answers.FreshPassIff | services/access/internal/store/scan.go:58-229 | a new scan of a pass is accepted if and only if the credential is the ticket's, the ticket is unvoided and without a degraded admission, the policy accepts and the event can be signed; it is stored in its own direction at its claimed time |
| Answers.SuspectExit | services/access/internal/store/scan.go:132-152 | a new exit of a suspect chain is denied and reported, and lets nobody in |
| Answers.FreshReconciliationIff | services/access/internal/store/reconcile.go:239-381 | with nothing against the chain, a new item is recorded if and only if the credential is the ticket's, its direction exists on its slot and it can be signed; on a pass as its direction, on a single entry the first way in as the redemption and each further one as a duplicate; with exactly the conflict alarm that is owed |
| Answers.SuspectReconciliation | services/access/internal/store/reconcile.go:207-238 | a new item of a suspect chain is kept beside the trail and owes no alarm of its own |
| Answers.KnownReconciliation | services/access/internal/store/reconcile.go:400-444 | a known item is synced at its recorded time or collides, and changes nothing |
| Answers.RefusalIff | services/access/internal/store/reconcile.go:70-138 | a local refusal is recorded if and only if the credential is the ticket's and no table knows the occurrence; its repeat is synced, anything else collides |
| OneRedemption.ReconciledIsSpentIff | services/access/internal/store/reconcile.go:239-381 | the exact condition across the routes: after a first reconciliation on a verified chain a single-entry ticket is spent for a clean live admission if and only if it had not gone in beside the trail only, by an entry from when its slot was a pass or by what was learnt while its chain was suspect |
| OneRedemption.OfflineThenNotLive | services/access/internal/store/reconcile.go:239-381 | in every run, once such an offline entry was reconciled, no later live scan of the ticket is freshly accepted as clean |
| OneRedemption.BesideIsLetInAgain | services/access/internal/store/reconcile.go:239-381 | the failing case: a ticket that had gone in beside the trail only is reconciled as a duplicate, and a live scan after that is accepted as clean |
| CommerceLaws.SwitchRefusals | services/access/internal/store/exchanges.go:86-162 | a repeated event changes nothing; a source order that is missing or too small, or a source ticket that is void or went in, is the error, the ticket of least id first |
| CommerceLaws.SwitchIff | services/access/internal/store/exchanges.go:86-186 | otherwise the whole source is voided and the replacement issued, together, if and only if there is a signer and every void and every new ticket can be recorded |
| CommerceLaws.VoidAllIff | services/access/internal/store/exchanges.go:169-176 | tickets are voided together if and only if there is a signer and each can be; each then has its void at that time |
| CommerceLaws.RepeatIff | services/access/internal/store/refunds.go:65-138 | a refund on record is repeated in the order of its tickets, and nothing else has to hold for that; an id claimed for another order or quantity is a conflict |
| CommerceLaws.RefundIff | services/access/internal/store/refunds.go:112-176 | a new refund voids the unrefunded tickets of least id, as many as it asks for, from one to fifty, if and only if there are that many, its id is new and each void can be recorded; every other case has its own error |
| ConflictLaws.ExitIsAcceptedIff | services/access/internal/store/conflicts.go:123-147 | an exit is accepted if and only if there are facts and the one no other follows is an entry; otherwise it is not inside |
| ConflictLaws.EntryIsAnswered | services/access/internal/store/conflicts.go:123-147 | an entry is answered by the passback and the limit of its policy, over the facts as a set |
| ConflictLaws.LiveIgnoresOrder | services/access/internal/store/conflicts.go:123-147 | the live answer depends only on the set of facts, for both directions |
| ConflictLaws.DerivedIff | services/access/internal/store/conflicts.go:87-110 | which conflicts a set of facts has, fact by fact |
| RateLaws.AllowedIff | shared/go/ratelimit/ratelimit.go:93-122 | the exact law: below the cap and on a forward clock a call is let through if and only if, counted from every earlier call, one more of its key stays within a burst and what was refilled since; so a refused key has spent that much, to within one |
| RateLaws.FirstBurstIsAllowed | shared/go/ratelimit/ratelimit.go:93-122 | the first burst of a fresh key is let through |
| RateLaws.TrackedIff | shared/go/ratelimit/ratelimit.go:93-132 | the keys that count against the cap are exactly those called within a refill period |
| RateLaws.AtCapIsFull | shared/go/ratelimit/ratelimit.go:93-122 | a key is turned away for want of room only if it was not called within a refill period and as many others as the cap were |
| CapabilityLaws.PlainPath | shared/go/obs/capability_path.go:138-200 | of a plain path the capabilities of the first matching route become the placeholder and every other segment is shown |
| CapabilityLaws.OrderPage | shared/go/obs/capability_path.go:109-128 | the page of an order's tickets hides its capability |
| CapabilityLaws.OrderCall | shared/go/obs/capability_path.go:109-128 | so does the call behind it |
| CapabilityLaws.TicketCode | shared/go/obs/capability_path.go:109-128 | the code of a ticket hides the capability of its order and shows which ticket |
| CapabilityLaws.TicketCodeCall | shared/go/obs/capability_path.go:109-128 | so does the call behind it |
| CapabilityLaws.TicketPage | shared/go/obs/capability_path.go:109-128 | the page of a ticket in either language hides its capability |
| RowLaws.ReadableIff | web/scanner/src/occurrence-model.ts:130-191 | what each state of a row holds; nothing else reads as a record |
| EntryAnswers.AcceptedIff | web/scanner/src/entry-scan.ts:243-256 | accepted is told if and only if the server accepted, the body was read in time, the page was let mark and the mark reserved the row; nothing is decided beside the mark |
| EntryAnswers.DuplicateIff | web/scanner/src/entry-scan.ts:253-257 | duplicate is told if and only if the server accepted a repeat and the own mark was there already |
| EntryAnswers.MarkFailedIff | web/scanner/src/entry-scan.ts:94-97 | mark failed is told if and only if the server accepted and the mark failed, was refused, or was there already although the server answered no repeat |
| EntryAnswers.TooLateIff | web/scanner/src/entry-scan.ts:94-97 | too late is told if and only if the server accepted and the time ran out afterwards |
| EntryAnswers.SilentIff | web/scanner/src/entry-scan.ts:253-253 | a run ends untold if and only if the server accepted and the page may not mark |
| EntryAnswers.QueuedIff | web/scanner/src/entry-scan.ts:138-148 | queued is told if and only if there was no response or a 502, 503 or 504, and decided as just that |
| EntryAnswers.AuthenticationIff | web/scanner/src/entry-scan.ts:215-219 | refused authentication is told if and only if the status is 401 |
| EntryAnswers.RejectedIff | web/scanner/src/entry-scan.ts:220-232 | a reason is told if and only if a 409 or 422 with that reason was read in time |
| EntryAnswers.UnreadableIff | web/scanner/src/entry-scan.ts:220-235 | a denial that could not be read in time, or was none, is told as unreadable |
| EntryAnswers.DenialIsDecided | web/scanner/src/entry-scan.ts:220-235 | every denial, and nothing else, is decided as one before its body is read; only a cancellation meanwhile is decided too |
| EntryAnswers.ErrorIff | web/scanner/src/entry-scan.ts:237-242 | 500, 501 and 505 to 599 are server errors; every other status is unconfirmed |
| EntryAnswers.BodyUnconfirmedIff | web/scanner/src/entry-scan.ts:243-251 | a 200 whose body is no acceptance read in time |
| EntryAnswers.ListedIff | web/scanner/src/entry-scan.ts:177-198 | a listed ticket is never sent: its exit is told so at once, its entry is refused and queued once its row was minted |
| EntryAnswers.AuditNotSavedIff | web/scanner/src/entry-scan.ts:89-90 | a listed entry that stopped before its refusal was queued |
| EntryAnswers.MintNotConfirmedIff | web/scanner/src/entry-scan.ts:188-196 | an unlisted scan whose mint failed |
| EntryAnswers.StorageUnreadyIff | web/scanner/src/entry-scan.ts:169-175 | an exit whose lookup failed because its store is gone |
| EntryAnswers.NotSentIff | web/scanner/src/entry-scan.ts:82-105 | an unlisted run that timed out before it sent |
| EntryAnswers.SentUnconfirmedIff | web/scanner/src/entry-scan.ts:82-105 | a run that timed out with a request out and no answer |
| EntryAnswers.CancelledIff | web/scanner/src/entry-scan.ts:82-88 | a run cancelled before it sent is told that nothing went out |
| EntryAnswers.CancelledSentIff | web/scanner/src/entry-scan.ts:82-88 | a run cancelled with a request out is told that it may have been sent |
| EntryAnswers.LocalErrorIff | web/scanner/src/entry-scan.ts:99-101 | a failure of the page itself, with nothing more known |
| EntryAnswers.InterruptionIsDecided | web/scanner/src/entry-scan.ts:82-105 | what a registered run that was interrupted decides |
| EntryAnswers.UnconfirmedIsDecided | web/scanner/src/entry-scan.ts:82-105 | what a run without an answer decides |
| EntryAnswers.UnregisteredDecidesNothing | web/scanner/src/entry-scan.ts:76-81 | nothing is decided before the occurrence is registered |
| EntryAnswers.CancellationIsDecided | web/scanner/src/entry-scan.ts:82-88 | a cancellation is the last decision of the run it ends |
| RowLaws.MintedIsCapture | web/scanner/src/occurrence-store.ts:315-347 | a minted row reads back what was captured: payload, times, direction or refusal, owner and lease, undecided |
| RowLaws.MintedStaysCaptured | web/scanner/src/occurrence-store.ts:315-585 | in every run a row goes on holding its capture, direction included, whatever becomes of it, until the database is deleted |
| RowLaws.StepKeepsCapture | web/scanner/src/occurrence-store.ts:315-585 | no write of any tab changes what a row was captured with |
| RowLaws.ReserveIff | web/scanner/src/occurrence-store.ts:360-407 | a mark is set if and only if the row is this page's pending scan and the page may mark |
| RowLaws.ReserveWrites | web/scanner/src/occurrence-store.ts:360-407 | it actuates the row at its time and changes nothing else |
| RowLaws.PersistIff | web/scanner/src/occurrence-store.ts:409-444 | a decision is written if and only if the row is this page's, pending and of the right type, and answers for itself if and only if it is there already |
| RowLaws.PersistWrites | web/scanner/src/occurrence-store.ts:409-444 | state, outcome and time become the decision's, and nothing else changes |
| RowLaws.EnrichIff | web/scanner/src/occurrence-store.ts:446-470 | a reason is added if and only if the row stores that very denial without one; only the reason changes |
| RowLaws.RetireIff | web/scanner/src/occurrence-store.ts:472-520 | results are applied if and only if each finds its row still queued or ended in just that way; the queued ones end so |
| RowLaws.RenewIs | web/scanner/src/occurrence-store.ts:522-539 | a renewal moves the lease of this page's pending rows, and nothing else |
| RowLaws.RecoverIff | web/scanner/src/occurrence-store.ts:541-585 | a row is recovered if and only if it is pending, of the dead owner and not of this page, and its owner reloaded or its lease is over |
| CoordinatorLaws.LatchIs | web/scanner/src/occurrence-coordinator.ts:347-359 | the first decision is the one that holds, also after a failed mint; a new one of a registered occurrence is owed to its row |
| CoordinatorLaws.SettleMarkIs | web/scanner/src/occurrence-coordinator.ts:320-345 | a mark settles once: not reserved it changes nothing else, reserved before any decision it is the decision, behind one that decision stays and its write is off |
| CoordinatorLaws.AttemptIs | web/scanner/src/occurrence-coordinator.ts:182-213 | written or there already, a decision is committed; refused by the row, it never can be; anything else is tried again |
| CoordinatorLaws.ReasonIs | web/scanner/src/occurrence-coordinator.ts:363-373 | the reason of a denial is kept once, if the denial is the decision and has none |
| CoordinatorLaws.OwedIsQueued | web/scanner/src/occurrence-coordinator.ts:182-396 | in every run whatever is still to be written, decision or reason, is queued to be tried again, and nothing settled is |
| ReadinessLaws.BecomesReadyIff | web/scanner/src/occurrence-readiness.ts:246-259 | the page becomes ready if and only if the run of its current generation ends with the lock granted |
| ReadinessLaws.CeasesIff | web/scanner/src/occurrence-readiness.ts:134-167 | it ceases to be ready if and only if it stops, or its connection is asked to make way or closes by itself, and shows which |
| ReadinessLaws.FailsIff | web/scanner/src/occurrence-readiness.ts:106-131 | a failure is published if and only if the event is one, with its own cause |
| ReadinessLaws.OpensIff | web/scanner/src/occurrence-readiness.ts:262-287 | a new generation opens if and only if the page starts for the first time or retries while neither ready nor draining |
| ReadinessLaws.RetryCanSucceed | web/scanner/src/occurrence-readiness.ts:262-290 | from every state that is neither ready nor draining there is a run that ends ready, in a new generation |
| ReadinessLaws.DrainTellsWhy | web/scanner/src/occurrence-readiness.ts:134-151 | a drain ends as it began: closed because of a deletion or because of a new version |

## Left out

- Isolation finer than one store call: calls are serialised, which the ticket row lock gives for one ticket. Under READ COMMITTED the degraded count of concurrent scans may lag; `DegradedWindow` speaks of serialised scans.
- SQL, drivers, migrations and connection failures: a failed statement is a call that did not happen.
- AccessStore.Postgres.AdmitPass: takes the answer of the pass policy as an argument; `Conflicts` models that policy over facts, but the store model does not collect the facts or write the policy alarms.
- AccessStore.Postgres.AdmitVerified: takes the same answer as an argument, and writes no policy alarms.
- AccessStore.Postgres.Scan: passes the same answer on.
- AccessStore.Postgres.Reconciled: does not re-evaluate the policy alarms of a pass after its event.
- AccessStore.Postgres.ReconcileAdmission: neither.
- AccessStore.Postgres.MarkDelivered: does not model the counter of delivery attempts.
- AccessStore.Postgres.Issue: does not model the fields of a ticket that no decision reads (QR payload, holder, delivery attempts) or redelivery.
- Verifier.VerifyLifecycle: does not model the age limit of pending changes or an audit that tolerates uncovered history; coverage is required.
- Merkle.MerkleRoot: a head hash of the wrong size is excluded by the type of a digest instead of reported; the tables hold only 32-byte hashes (`services/access/internal/store/migrations/0003_lifecycle_integrity.sql:31-135`).
- Trail.CheckHead: a hash of the wrong size is excluded in the same way.
- Trail.VerifyTicketChain: a query that fails is not modelled, so `verification_unavailable` never arises.
- Outbox.Alarms.Once: one drainer; concurrent drainers are the step system of `OutboxIsSafe`. Whether a publication is delivered twice to its reader is not part of it.
- Workers.Checkpointer.Once: an organizer list that fails to load and a cancelled context are left out.
- OccurrenceModel.ReadCurrentRecord: the words of the row format are an enumeration and every other string is `Text`; times are strings that are empty or not.
- OccurrenceStore.Store.ReserveActuation: the checks of the store's mode and of a mark already started are folded into the argument that says whether the coordinator lets the row be reserved.
- OccurrenceStore.Store.PersistDecision: its caller passes the latched decision, in a mode that allows the write; refusing other callers is not modelled.
- OccurrenceStore.Store.EnrichDenial: in the same way.
- OccurrenceStore.Store.RenewOwnedPending: the check that the store is ready is left to the caller.
- OccurrenceStore.Store.RecoverDeadOwner: one candidate, inside the lock of its owner; listing the candidates and the report are left out.
- ScannerProtocol.RunKeepsInvariant: a deletion happens while no mint or mark is in flight and the page has no ready store, because a database is deleted only once its connections have closed; other tabs are steps on the shared rows, not pages with a latch of their own; rows of the old format keep the class the upgrade gave them.
- EntryScan.Execution.Submit: one run; the clock arithmetic of a checkpoint, the pairing token and the one active slot appear as the outcome of each checkpoint and step. Errors thrown by registering an id twice are left out, as ids are fresh.
- Readiness.StorageController.Begin: timers, listeners and the reports collected on the way are left out; each asynchronous stage is one step.
- EndToEnd.ActuatedMeansHeld: that a row is reserved only under an id the server accepted is a guard of these steps; `ScannerProtocol.ActuatedWasAnswered` derives from the scan run that an accepted body came first.
- EndToEnd.RunKeepsSound: `RecordAdmission` is not among its server calls, because it breaks the statement (`OnceOnly.ExclusiveIff`). Which requests scanners send is not restricted at all.
- RateLaws.AllowedIff: on a clock that steps back only the upper bound `RateLimit.AcceptancesAreBounded` is stated, because a bucket that was dropped and one that was kept then differ.
- Signatures.AcceptedWasSigned: whether a presented signature was forged is a premise about that signature, since the signature scheme is not modelled.
- RateLimit.Limiter.Allow: reals instead of floating point; the mutex is that calls are serialised.
- CapabilityPath.SanitizedPath: a path is a sequence of code points; validity of UTF-8 is not modelled.
- Held-record export and acknowledgement, revocation pulls, batch planning, notices on the screen, React UI, camera, HTTP routing and validation, gateway, telemetry, configuration, NATS and CLI wiring: no decision above depends on them.
