# vcstudio: durable records, compare-and-set and recovery

This project models the parts of vcstudio that must keep their promises across crashes, lost
answers and concurrent callers, and proves those promises for all inputs, all runs and all
interleavings of the model. `dafny verify dfyconfig.toml` checks everything.

| area | files | central results |
|---|---|---|
| CatMAP export selection | `SelectionLog`, `AnchorFile`, `SelectionDisk`, `ExportSelection`, `ExportDirectory`, `ExportHistory`, `ExportGuards` | a confirmation with exceptions at any steps and any crash is one atomic compare-and-set (`ConfirmIsAtomic`), and exactly when one that raised took effect (`RaisedTookEffectIff`); recovery ends in exactly the old or the new disk (`RecoveryEnds`); torn tails (`TornTail`); the last digest fixes the log (`LastSealBindsHistory`) |
| remote job transactions | `JobModel`, `JobPlans`, `JobSafety`, `JobActions`, `JobRuns`, `JobOutcomes`, `JobReplays`, `JobExamples`, `JobRefresh`, `JobWaiting`, `Diagnosis`, `JobDirectory` | at most one accepted command per action and key, at most one submission (`AcceptedAtMostOnce`, `SubmittedAtMostOnce`); input authority over runs (`InputAuthority`); replays after completion (`ContinueIsReplayed`); the guard against stale output (`StaleOutputOverRun`) |
| job ledger projections | `JobLedger`, `LedgerHistory`, `LedgerUndo` | what a rollback may remove and restore (`RollbackRemovesExactlyItsOwn`), independence of transactions with disjoint keys (`IndependentUndo`) |
| campaign control plane | `TaskGraph`, `Readiness`, `TaskStore`, `RungMachine` | cycle detection, progress (`CampaignFinishes`), revision compare-and-set (`AtMostOneWinner`), safe acceptance (`AcceptanceIsSafe`) |
| algorithms | `MatrixRank`, `ForceBlocks` | full rank exactly when only zero solves A.x = 0; the streaming force parser against split-into-blocks-then-maximum |

## How the models are built

**Crashes.** Export selection and remote jobs share one scheme. An operation is a *plan*: the durable
writes it makes in order, computed from the disk, the request, the answers of the outside world and
the set of writes that fail. A process runs a plan with a budget of writes and dies when it is used up,
so every prefix of every plan is a possible crash; a process that dies while appending to the selection
log may leave a part of the record. The classes `ExportDirectory.Directory` and `JobDirectory.Directory`
hold one field per durable object, do what the program does step by step, and are proved to execute
exactly the plan. The theorems are then about plans and hold for the classes. In remote jobs a write that
fails without effect after which the program writes nothing more is the same as a crash at that write; the
other failing writes are explicit.

**Exceptions.** In export selection a process also has a list of exceptions to come, at any steps and one
after the other: in recovery, before and after the prepare record, in its append with or without a part of it
written, and in the handler. An exception that comes after a step had its full effect is one at the next
step. The handler cleans up only before the prepare record is begun; from then on an exception reaches the
caller and leaves the disk as it is, as a crash would.

**Export selection.** `Settled` describes a disk between transactions, `Unprepared` and `Prepared` what a
crash before and after a whole prepare record can leave. Recovery maps both to one disk each, so the
register that callers see is what recovery would make of the disk, and each confirmation acts on it as
one compare-and-set on (revision, selected). The byte level of the log is in `AnchorFile`: every byte
prefix reads as its longest whole-record prefix, which is why the disk of `SelectionDisk` keeps records
and one flag for an incomplete tail.

**Remote jobs.** `Job.sent` is the scheduler's own record of the commands that reached it and of those it
accepted. `JobSafety.Valid` collects the invariants; each effect of each operation keeps them. An accepted
action stays known from its journal record or, once that was dropped, from the attempt in the manifest.

**Ledger and campaign.** The locked operations are functions from state to state, the classes are proved
equal to them, and runs are sequences of operations in any order.

## Assumptions

- Digests are injective and never all zero: a digest is a datatype value built from what was hashed.
- A record of the selection log is encoded without raw line breaks (control characters are escaped,
  section 7 of RFC 8259), and decoding gives it back; nothing else is assumed about the encoding.
- Replacing `job.yaml`, `current.json`, a journal or a recovery file is atomic, as is creating, renaming or
  removing one file or directory; a lock is mutual exclusion.
- Transaction ids of actions and scheduler job ids are new when they are drawn, and a submission or
  continuation command that answers with an id was accepted. A cancellation command that answers with a
  complete exit status tells truly whether it was accepted. `run_cmd` (`vcstudio/cluster/submitter.py:1385-1398`)
  reads every non-zero value as an answer, also one by which an SSH library reports a channel that closed
  without an exit status; such an end counts as `Lost` here, and `AcceptedAtMostOnce` and
  `FailureReplayIsTrue` rest on that.
- A registration owner id is not the digest of a lifecycle transaction.
- Nobody but the modelled operations changes the modelled files.

## Where the code does less than its text

- The settling guard: the text of `_in_continue_settling` counts a RUNNING observation
  as proof that the new run started; the code looks only at OUTCAR. The guard also ends with the hand-over
  to a human: one poll later the job is judged without any output. `JudgedWithoutOutputIff` gives the exact
  condition, `FourthPollIsJudged` the run.
- A submission key is searched among all attempts, so a key used again for a continuation replays that
  continuation as the submission. `KeyCanReplayContinuation` is a run from a new job, `SubmissionReplay` the
  condition.
- A tuned continuation may start from a finished run; only frozen ones cannot. `TunedRunFromDone` is a run from
  a new job, `OnlyTuningStartsFromDone` the exact condition.
- A confirmation of an export that raised may still take effect: `RaisedMayTakeEffect` is the example,
  `RaisedTookEffectIff` the condition. The caller has to read the selection to know.
- `persist_task` called directly with a gate decision does not compare the candidate with the verified task:
  `DirectPersistCanDrift` and `DirectPersistBindsInputsIff`. `promote_accepted` is not affected.

## Model

| member | source | states |
|---|---|---|
| SelectionLog.ValidateLog | vcstudio/external/catmap_adapter.py:1262-1356 | the validator loop accepts a line list exactly when it has at most 8192 lines, each decodes, and each record continues the ones before it: numbers, previous digest, seal, alternation, base equal to what is committed, chain digest; it returns the state of that log, and a refusal names the first record at fault |
| SelectionLog.LogShape | vcstudio/external/catmap_adapter.py:1285-1356 | in every accepted log prepares and commits alternate, target revisions count up, the committed revision is the number of commits, and only the last record can be an open prepare |
| SelectionLog.LastSealBindsHistory | vcstudio/external/catmap_adapter.py:1191-1200 | two accepted logs with the same last record digest are equal record by record |
| SelectionLog.ChainBindsSelections | vcstudio/external/catmap_adapter.py:1203-1224 | the chain digest of the committed descriptor alone fixes every selection that was ever committed, in order |
| SelectionLog.PrepareKeepsLog | vcstudio/external/catmap_adapter.py:1495-1514 | a built prepare keeps the log acceptable if and only if nothing is open and it raises the committed revision by one for the same input; a slot for its commit is then left under the record limit |
| SelectionLog.CommitKeepsLog | vcstudio/external/catmap_adapter.py:1517-1529 | the open prepare of any accepted log has a slot left for its commit, and the built commit is accepted, closes it and commits its target |
| AnchorFile.SelectionAnchorFile.Read | vcstudio/external/catmap_adapter.py:1419-1437 | a file over the byte limit is refused; otherwise the whole-line part is validated, an incomplete tail is cut off exactly when that part is accepted, and a refusal leaves the bytes alone |
| AnchorFile.SelectionAnchorFile.Append | vcstudio/external/catmap_adapter.py:1439-1492 | the write loop either appends the whole line or, if a write fails or the process stops, a strict prefix of it; over the byte limit nothing is written; if every write makes progress it completes |
| AnchorFile.SelectionAnchorFile.Validated | vcstudio/external/catmap_adapter.py:1262-1268 | on bytes: accepted only if they end in a line feed and their lines form an accepted log |
| AnchorFile.PrintedLogReads | vcstudio/external/catmap_adapter.py:1266-1279 | splitting and decoding a printed log gives its records back |
| AnchorFile.TornTail | vcstudio/external/catmap_adapter.py:1429-1437 | for every byte prefix of an accepted printed log, what is read is its longest whole-record prefix, which is accepted, and exactly those bytes remain |
| AnchorFile.AppendAfterTornTail | vcstudio/external/catmap_adapter.py:1429-1529 | after any torn tail was cut off, the record the program appends next yields bytes the validator accepts, holding the old whole records and the new one |
| AnchorFile.ReadingRecords | vcstudio/external/catmap_adapter.py:1419-1437 | bytes that hold whole records and a part of one more are read as those records, and cutting the tail leaves them alone: the record-level disk with its torn flag is the byte-level file |
| AnchorFile.AppendingRecord | vcstudio/external/catmap_adapter.py:1439-1492 | an append that wrote k bytes of a line added the record if it wrote all of it and otherwise only tore the tail |
| ExportDirectory.Directory.ReadLog | vcstudio/external/catmap_adapter.py:1419-1437 | reading accepts exactly the accepted logs, returns their state and cuts an incomplete tail as one durable write |
| ExportDirectory.Directory.Redo | vcstudio/external/catmap_adapter.py:1748-1778 | forward recovery checks reservation, transition and current selection, replaces the selection if it is still the base, appends the commit, reads it back and drops the reservation; in every other case it fails without further writes |
| ExportDirectory.Directory.Discard | vcstudio/external/catmap_adapter.py:1694-1719 | an unprepared reservation is undone: stage, then the bundle this transaction created unless it is selected or changed, then the reservation |
| ExportDirectory.Directory.Tidy | vcstudio/external/catmap_adapter.py:1779-1802 | with nothing open: the selection must match the log; a reservation of the committed transaction is dropped after its transition is checked, any other one discarded |
| ExportDirectory.Directory.Recover | vcstudio/external/catmap_adapter.py:1741-1803 | recovery makes exactly the planned writes in order, as far as the process lives, and reports the planned failure |
| ExportDirectory.Directory.Build | vcstudio/external/catmap_adapter.py:1988-2037 | reservation, stage directory, files in name order, rename, and the check of the published bundle; stops at the step that raises or kills the process, and tells the handler what exists |
| ExportDirectory.Directory.Undo | vcstudio/external/catmap_adapter.py:2066-2076 | the exception handler before the prepare: stage or published bundle, then the reservation; further exceptions may come in the handler too |
| ExportDirectory.Directory.Select | vcstudio/external/catmap_adapter.py:2038-2079 | prepare, replace, read back and compare, commit, release, final check; an exception at any of these steps, the append of the prepare included, goes to the caller and nothing is cleaned up |
| ExportDirectory.Directory.Transact | vcstudio/external/catmap_adapter.py:1969-2079 | admitted request to end of transaction: the disk and the outcome of the transaction plan for exceptions at any steps and death at any step |
| ExportDirectory.Directory.Confirm | vcstudio/external/catmap_adapter.py:1912-2079 | the whole confirmation: checks on the request, recovery, compare, quota, transaction, with exceptions at any steps of recovery, transaction and handler |
| ExportDirectory.Directory.ReadConsistent | vcstudio/external/catmap_adapter.py:1722-1738 | returns the current selection exactly when no prepare is open and it matches what the log commits |
| ExportSelection.UndoRecovers | vcstudio/external/catmap_adapter.py:1694-1719 | from every disk a crash before a whole prepare record can leave, recovery ends in exactly the disk before the transaction |
| ExportSelection.RedoRecovers | vcstudio/external/catmap_adapter.py:1748-1778 | from every disk with the prepare whole and no commit, recovery ends in the target |
| ExportSelection.FinishRecovers | vcstudio/external/catmap_adapter.py:1786-1799 | with the commit whole, recovery only drops the reservation |
| ExportSelection.RecoveryEnds | vcstudio/external/catmap_adapter.py:1741-1803 | from every disk a crash can leave, of the transaction or of recovery, with or without a torn tail, recovery does not fail and ends in the target if and only if the prepare record is whole, otherwise in exactly the disk before; each disk on the way is again such a disk |
| ExportSelection.GuardEnds | vcstudio/external/catmap_adapter.py:1988-2076 | if an exception or death comes before the prepare, the transaction ends on a recoverable disk without a new record, and on exactly the disk before once the clean-up is through |
| ExportSelection.TransactionEnds | vcstudio/external/catmap_adapter.py:1969-2079 | the transaction passes only through recoverable disks; it succeeds, in exactly the target, if and only if the log has room and no step of it raises or kills; if it raises, it is decided if and only if the exception came after the append of the prepare; a completed clean-up leaves exactly the disk before |
| ExportSelection.TargetSettled | vcstudio/external/catmap_adapter.py:2026-2065 | the target of a transaction is again a disk a transaction can start from |
| ExportHistory.ReachableRecovers | vcstudio/external/catmap_adapter.py:1741-1803 | recovery never fails on a reachable disk and leaves no reservation, stage or torn tail |
| ExportHistory.RecoveryCanRestart | vcstudio/external/catmap_adapter.py:1741-1803 | recovery cut short anywhere, by death or by an exception, leaves a disk that recovers to the same result |
| ExportHistory.ConfirmIsAtomic | vcstudio/external/catmap_adapter.py:1912-2079 | one confirmation, with exceptions at any steps and any crash, is one atomic compare-and-set on revision and selection: it happened entirely if its prepare record is whole on disk, otherwise not at all; a call that returned happened |
| ExportHistory.ConfirmSucceedsIff | vcstudio/external/catmap_adapter.py:1912-2079 | a confirmation on a reachable disk succeeds if and only if the request is in order, revision and selection match, the bundle is unchanged or within quota, the log has room, and no step of recovery and transaction raises or kills the process |
| ExportHistory.RaisedTookEffectIff | vcstudio/external/catmap_adapter.py:2038-2076 | a confirmation that raised took effect if and only if it was permitted and the exception came after the append of its prepare record, which is exactly when the log grew |
| ExportHistory.RaisedMayTakeEffect | vcstudio/external/catmap_adapter.py:2040-2076 | on every settled disk and for every permitted request there is such a call: it raises when the selection is replaced, and the next recovery makes it take effect |
| ExportHistory.HistoryStep | vcstudio/external/catmap_adapter.py:1947-2079 | over any history of confirmations every call that takes effect found the expected revision and selection, raises the revision by one and selects its token with exactly its files; a call takes effect if and only if its prepare record is whole, whatever it told its caller |
| ExportHistory.RevisionCounts | vcstudio/external/catmap_adapter.py:2027-2032 | the revision is the number of calls that took effect |
| ExportHistory.AtMostOnePerRevision | vcstudio/external/catmap_adapter.py:1953-1956 | of all confirmations that expect one revision at most one takes effect |
| ExportHistory.ReaderSeesCommitted | vcstudio/external/catmap_adapter.py:1722-1738 | on every reachable disk a reader fails exactly while a prepare is open and otherwise returns the committed selection, which is also what recovery would leave |
| ExportGuards.RecoveryDeletesOnlyItsOwn | vcstudio/external/catmap_adapter.py:1694-1719 | on any disk, damaged ones too, recovery deletes a bundle only if the reservation says its transaction created it, it is not selected, and its files are as reserved; and a stage only if the reservation names it |
| ExportGuards.RecoveryCommitsOnlyIntact | vcstudio/external/catmap_adapter.py:1748-1778 | on any disk, recovery appends only the commit of the open prepare, and only while the reservation is the prepared one, its bundle is intact, its stage is gone and the selection is the base or the target |
| ExportGuards.RecoveryLeavesConsistent | vcstudio/external/catmap_adapter.py:1741-1803 | whatever the disk was, a recovery without failure leaves an accepted log without open prepare, the selection it commits, no reservation and no torn tail |
| ExportGuards.BundlesAreImmutable | vcstudio/external/catmap_adapter.py:1912-2079 | on any disk, with exceptions at any steps and any crash, a confirmation never changes or removes a bundle that recovery does not drop |
| MatrixRank.FindPivot | vcstudio/external/catmap_adapter.py:501-507 | the first row from the given one on with a non-zero entry in the column, or none |
| MatrixRank.Eliminate | vcstudio/external/catmap_adapter.py:511-519 | every other row gets a zero in the pivot column; columns before it and the kernel do not change |
| MatrixRank.PivotOn | vcstudio/external/catmap_adapter.py:508-519 | swap, scale and eliminate keep the kernel and extend the echelon form by one pivot |
| MatrixRank.Rank | vcstudio/external/catmap_adapter.py:496-523 | the rank is the number of columns independent of those before them, never exceeds the row count, and equals the column count if and only if zero is the only solution |
| MatrixRank.FullRankIff | vcstudio/external/catmap_adapter.py:573-582 | full column rank if and only if the only vector with A.x = 0 is zero, for every matrix |
| MatrixRank.PivotsAreTheIndependentColumns | vcstudio/external/catmap_adapter.py:500-523 | in the final echelon form the pivot columns are exactly the independent columns |
| JobModel.LastHit | vcstudio/cluster/submitter.py:416-446 | the newest attempt that the query hits, and none newer does |
| JobDirectory.Directory.FindAttempt | vcstudio/cluster/submitter.py:416-433 | the backward search returns the newest hit |
| JobDirectory.Directory.SettleRecords | vcstudio/cluster/submitter.py:548-567 | the first loop of reconciliation: an accepted record that the manifest proves becomes succeeded, any other unresolved record blocks |
| JobDirectory.Directory.DecideOn | vcstudio/cluster/submitter.py:576-644 | the key part of reconciliation: other action, other intent, earlier failure, replay of a current generation, fallback to the attempts |
| JobDirectory.Directory.ReconcileAction | vcstudio/cluster/submitter.py:539-644 | reconciliation writes the settled journal if it can and decides between replay, refusal and proceeding |
| JobDirectory.Directory.Mark | vcstudio/cluster/submitter.py:712-725 | the first record of the transaction gets status and result, and the journal is written |
| JobDirectory.Directory.Record | vcstudio/cluster/submitter.py:3631-3705 | after acceptance: journal, manifest, journal, where each write may fail and the rest follows the source |
| JobDirectory.Directory.Resign | vcstudio/cluster/submitter.py:3615-3629 | without a usable answer the record is marked unknown if that can be written, and the outcome is unknown |
| JobDirectory.Directory.ContinueFromContcar | vcstudio/cluster/submitter.py:3449-3705 | the whole frozen continuation, for every answer of the scheduler, every failing write and every crash |
| JobDirectory.Directory.ContinueWithIncarChanges | vcstudio/cluster/submitter.py:3720-4005 | the whole tuned continuation, likewise |
| JobDirectory.Directory.CancelJob | vcstudio/cluster/submitter.py:1915-2003 | the whole cancellation; a complete error answer closes the record as failed |
| JobDirectory.Directory.RefreshJob | vcstudio/cluster/submitter.py:2398-2511 | polling writes the refreshed manifest and nothing else |
| JobDirectory.Directory.ReconcileRecovery | vcstudio/cluster/submitter.py:750-822 | replay, refusal or nothing in the way, from the recovery file, the manifest and the attempts |
| JobDirectory.Directory.SubmitJob | vcstudio/cluster/submitter.py:1696-1911 | the whole submission, for every answer, failing write and crash |
| JobDirectory.ProcessKeepsValid | vcstudio/cluster/submitter.py:1696-1911 | a process working on a valid job leaves a valid job wherever it dies |
| JobSafety.StartKeeps | vcstudio/cluster/submitter.py:647-682 | dropping old finished records and appending a prepared one keeps everything that is known about accepted commands, since succeeded records have their attempt |
| JobSafety.SettleKeeps | vcstudio/cluster/submitter.py:548-574 | settling keeps it too |
| JobSafety.MarkKeeps | vcstudio/cluster/submitter.py:712-725 | so does marking the record in hand, as failed only if no command of it was accepted |
| JobSafety.SendKeeps | vcstudio/cluster/submitter.py:3604-3614 | sending a command for the prepared record of an action and key not accepted before |
| JobSafety.ContinueSaveKeeps | vcstudio/cluster/submitter.py:3640-3695 | saving the manifest of an accepted continuation keeps authority, rounds and generations consistent |
| JobSafety.ProceedMeansUnused | vcstudio/cluster/submitter.py:576-644 | what reconciliation lets pass was never accepted under that action and key, even if its journal record was dropped and only the attempts remain |
| JobActions.ContinueSafe | vcstudio/cluster/submitter.py:3449-3705 | after each single effect of a frozen continuation all invariants hold |
| JobActions.TuneSafe | vcstudio/cluster/submitter.py:3720-4005 | likewise for a tuned continuation |
| JobActions.CancelSafe | vcstudio/cluster/submitter.py:1915-2003 | likewise for a cancellation |
| JobRuns.SubmitSafe | vcstudio/cluster/submitter.py:1696-1911 | likewise for a submission |
| JobRuns.RefreshSafe | vcstudio/cluster/submitter.py:2398-2511 | likewise for a poll |
| JobRuns.RunIsValid | vcstudio/cluster/submitter.py:458-725 | every run of calls from a new job, with any answers, failing writes and crashes, keeps all invariants |
| JobRuns.AcceptedAtMostOnce | vcstudio/cluster/submitter.py:539-682 | over every run the scheduler accepts at most one command for each action and non-empty key |
| JobRuns.SubmittedAtMostOnce | vcstudio/cluster/submitter.py:1408-1423 | over every run at most one submit command is ever sent |
| JobRuns.JournalShape | vcstudio/cluster/submitter.py:647-682 | the journal always has at most 64 records and only the last may be unresolved |
| JobRuns.ReplayMeansAccepted | vcstudio/cluster/submitter.py:597-644 | a replayed action was accepted by the scheduler under that action and key |
| JobRuns.FailureReplayIsTrue | vcstudio/cluster/submitter.py:594-596 | a replayed failure is true: the scheduler never accepted anything under that action and key |
| JobRuns.SubmissionReplay | vcstudio/cluster/submitter.py:750-822 | a replayed submission returns the current id, which was accepted; by the recovery file it is the submission itself, by the key alone it is so if and only if nothing was continued (`continue_rounds` is 0) |
| JobExamples.KeyCanReplayContinuation | vcstudio/cluster/submitter.py:736-747 | the search by key does not look at the kind of attempt: a run from a new job (submit, poll, continue, all with one key) after which the submission is replayed with the id of the continuation |
| JobRuns.AuthorityOfNewest | vcstudio/cluster/submitter.py:3238-3281 | the authority names the current id and carries the digest of the newest attempt with that id, so the authorised digest always resolves |
| JobRuns.InputAuthority | vcstudio/cluster/submitter.py:3238-3308 | over every run: authority and current id are those of the newest generation, frozen continuations keep the digest and never started from a finished run, rounds count the continuations, and none exceeded its bound |
| JobRuns.AtMostThreeAutomatic | vcstudio/cluster/submitter.py:3530-3533 | over every run at most three continuations were made under the automatic limit |
| JobExamples.OnlyTuningStartsFromDone | vcstudio/cluster/submitter.py:3524-3529 | from a finished run no frozen continuation ever sends a command or completes; some fresh tuned call sends one if and only if the manifest has a server, a binding, a remote directory and a usable id, its authority is the local INCAR, and every unresolved record of the journal is proved by the manifest |
| JobExamples.TuneFromDoneCompletes | vcstudio/cluster/submitter.py:3802-4005 | under that condition a tuned call answered with a new id completes: one accepted command, and the manifest has the new id, one more round and the state SUBMITTED |
| JobExamples.TunedRunFromDone | vcstudio/cluster/submitter.py:3802-4005 | a concrete run from a new job: submit, poll to DONE, and a tuned continuation that the scheduler accepts |
| JobRuns.ContinuationStartsGuarded | vcstudio/cluster/submitter.py:2196-2209 | an accepted continuation starts with a fresh settling baseline |
| JobOutcomes.UnresolvedBlocks | vcstudio/cluster/submitter.py:548-567 | while an unresolved record is not proved by the manifest no action writes or sends anything |
| JobOutcomes.RecoveryBlocks | vcstudio/cluster/submitter.py:750-822 | while the recovery file is not proved by the manifest no submission writes or sends anything |
| JobOutcomes.ContinueSilentUnless | vcstudio/cluster/submitter.py:3449-3630 | a frozen continuation that ends otherwise than in success or an unknown outcome sent nothing |
| JobOutcomes.TuneSilentUnless | vcstudio/cluster/submitter.py:3720-3935 | likewise for a tuned continuation |
| JobOutcomes.CancelSilentUnless | vcstudio/cluster/submitter.py:1936-1969 | likewise for a cancellation, which may also report a command that was not accepted |
| JobOutcomes.ContinueCompletes | vcstudio/cluster/submitter.py:3524-3705 | a completed frozen continuation started from a restartable finished run under its limit with the authorised INCAR, sent one command, which was accepted, and the manifest and the journal name its id |
| JobOutcomes.TuneCompletes | vcstudio/cluster/submitter.py:3802-4005 | likewise for a tuned one |
| JobOutcomes.CancelCompletes | vcstudio/cluster/submitter.py:1970-2003 | a completed cancellation sent one accepted command and recorded it |
| JobOutcomes.SubmitCompletes | vcstudio/cluster/submitter.py:1865-1911 | a completed submission started from a fresh manifest and sent one accepted command; its key replays it from then on, and a recovery file is left exactly if it could not be removed, in which case the next call replays and clears it |
| JobReplays.ContinueIsReplayed | vcstudio/cluster/submitter.py:576-644 | after a completed frozen continuation with a key the same request is replayed, also if the last journal write failed, and from the attempts alone if the journal is gone |
| JobReplays.TuneIsReplayed | vcstudio/cluster/submitter.py:576-644 | likewise after a tuned continuation |
| JobReplays.CancelIsReplayed | vcstudio/cluster/submitter.py:576-644 | likewise after a cancellation |
| JobRefresh.StaleOutputIsNotJudged | vcstudio/cluster/submitter.py:2196-2266 | after a continuation, with archived outputs or with the time stamp of the old output as baseline: while no OUTCAR of the present round has appeared, nothing is judged until three settling checks, which the third poll without the job reaches at the latest; that poll hands the job to a human; queued and running polls in between do not reset the count |
| JobRefresh.JudgedWithoutOutputIff | vcstudio/cluster/submitter.py:2221-2235 | a poll without new output judges such a job if and only if it is no longer in an active state |
| JobRefresh.FourthPollIsJudged | vcstudio/cluster/submitter.py:2221-2266 | the guard ends with the hand-over: the fourth poll is judged on no output |
| JobWaiting.StaleOutputOverRun | vcstudio/cluster/submitter.py:2212-2266 | the same over any run after the continuation, with submissions, continuations, crashes and failed writes between the polls: only the polls move the manifest |
| Diagnosis.Classify | vcstudio/cluster/diagnose.py:311-420 | exactly when a run counts as done, and exactly when it may be continued from CONTCAR; both never together |
| JobLedger.LedgerFile.RegisterEntry | vcstudio/cluster/ledger.py:528-538 | appends an entry that is not listed; owners and receipts of listed entries stay |
| JobLedger.LedgerFile.UnregisterEntry | vcstudio/cluster/ledger.py:541-552 | removes the entry with its owner and from every receipt |
| JobLedger.LedgerFile.RegisterOwnedEntry | vcstudio/cluster/ledger.py:555-572 | lists the entry under the registration owner, or refuses one owned by another |
| JobLedger.LedgerFile.UnregisterOwnedEntry | vcstudio/cluster/ledger.py:588-601 | removes the entry only if this registration owns it |
| JobLedger.LedgerFile.ReleaseRegistrationOwner | vcstudio/cluster/ledger.py:604-616 | drops the owner and keeps the entry |
| JobLedger.LedgerFile.EnsureRegistrationReleased | vcstudio/cluster/ledger.py:619-645 | lists the entry without owner, unless another owns it |
| JobLedger.LedgerFile.AppendNew | vcstudio/cluster/ledger.py:204-235 | the merge loop appends exactly the projected entries whose key is neither in the base nor listed |
| JobLedger.LedgerFile.MergeProjection | vcstudio/cluster/ledger.py:379-439 | three-way merge: refusals, entries, owner tags and undo receipt |
| JobLedger.LedgerFile.DropOwned | vcstudio/cluster/ledger.py:458-464 | takes out exactly the receipt additions that are listed and still tagged |
| JobLedger.LedgerFile.PutBack | vcstudio/cluster/ledger.py:465-475 | puts removals back in order, each if its key is absent, with its owner |
| JobLedger.LedgerFile.RollbackProjection | vcstudio/cluster/ledger.py:442-491 | rollback by receipt and tags; without a receipt nothing changes |
| JobLedger.LedgerFile.ReleaseReceipt | vcstudio/cluster/ledger.py:494-521 | clears the tags of the receipt and drops it |
| LedgerHistory.RunKeeps | vcstudio/cluster/ledger.py:350-364 | over every run owners are listed and receipts never took an owned entry out |
| LedgerHistory.TagHistory | vcstudio/cluster/ledger.py:406-424 | a lifecycle tag was put on by a merge of its transaction, on an entry not listed before, which has been listed ever since |
| LedgerHistory.RollbackRemovesExactlyItsOwn | vcstudio/cluster/ledger.py:442-491 | in any run of nine kinds of operations a rollback removes a listed entry if and only if a merge of its transaction listed it and it stayed listed, without a rollback or release of that transaction, ever since |
| LedgerHistory.RollbackRestoresOnlyAbsent | vcstudio/cluster/ledger.py:465-475 | a rollback lists an entry again only if no entry of its key is listed and a merge of the same transaction took it out |
| LedgerUndo.RestoreExactly | vcstudio/cluster/ledger.py:465-475 | removals with distinct keys come back if and only if their key is absent |
| LedgerUndo.LocalMergeApplies | vcstudio/cluster/ledger.py:379-439 | on the keys of its plan a merge that goes through leaves what the plan says, with its tag and a receipt that undoes it |
| LedgerUndo.LocalRollback | vcstudio/cluster/ledger.py:442-491 | a rollback leaves the keys of its plan as they were before the merge, owners included |
| LedgerUndo.RunIsLocal | vcstudio/cluster/ledger.py:379-521 | after any interleaving the keys of each transaction depend only on whether it is absent, applied or released |
| LedgerUndo.IndependentUndo | vcstudio/cluster/ledger.py:379-521 | any interleaving of merges, rollbacks and releases of transactions with pairwise disjoint keys lists what merging only the surviving ones lists, in any order, with the same owners except for the tags of released ones |
| TaskGraph.CycleDetector.Dfs | vcstudio/campaign/schema.py:207-218 | the recursive search keeps colours and stack consistent, finishes its node or returns a closed walk of the graph |
| TaskGraph.DetectCycle | vcstudio/campaign/schema.py:201-222 | terminates on every graph, raises if and only if it has a cycle among its nodes, and the reported path is a closed walk |
| TaskGraph.FinishOrderMeansAcyclic | vcstudio/campaign/schema.py:216-222 | a finish order of all nodes excludes every closed walk |
| TaskGraph.FindDuplicates | vcstudio/campaign/schema.py:227-231 | reports exactly the ids that occur at two places, each once; nothing if and only if all ids differ |
| TaskGraph.FindDangling | vcstudio/campaign/schema.py:232-235 | reports a dependency on an unknown id if and only if there is one |
| TaskGraph.ValidateGraph | vcstudio/campaign/schema.py:225-237 | accepts exactly the graphs with distinct ids, no dangling and no cyclic dependency, and says which rule fails |
| Readiness.DependencyReasons | vcstudio/campaign/derive.py:60-72 | no reason if and only if the task is ready; every reason given is true and every unmet dependency is named |
| Readiness.DeriveReady | vcstudio/campaign/derive.py:36-74 | the four buckets hold exactly the tasks that belong there, in list order |
| Readiness.StalledMeansCycle | vcstudio/campaign/derive.py:36-74 | if no pending task were ready the graph would have a cycle |
| Readiness.SomePendingIsReady | vcstudio/campaign/derive.py:36-74 | on a valid graph whose other tasks are validated or accepted, a pending task implies a ready one |
| Readiness.RoundMakesProgress | vcstudio/campaign/derive.py:36-74 | validating the ready tasks keeps the graph valid and lowers the number of pending tasks |
| Readiness.CampaignFinishes | vcstudio/campaign/derive.py:36-74 | n rounds finish all n tasks |
| TaskStore.CampaignStore.SaveTask | vcstudio/campaign/schema.py:426-461 | creates a task file, never an accepted one and never over an existing one |
| TaskStore.CampaignStore.PersistTask | vcstudio/campaign/schema.py:464-514 | compare, verify and write; any refusal leaves disk and caller object as they were |
| TaskStore.CampaignStore.ClaimTask | vcstudio/campaign/schema.py:517-549 | claims an allowed task at the expected revision, which rises by one |
| TaskStore.CampaignStore.FindRecord | vcstudio/campaign/ledger.py:185-190 | the first ledger line with the id |
| TaskStore.CampaignStore.CheckRevoked | vcstudio/campaign/ledger.py:263-274 | true if and only if a human revocation of that decision for that campaign is in the ledger |
| TaskStore.CampaignStore.ValidateWaiver | vcstudio/campaign/ledger.py:277-313 | accepts a waiver if and only if it is a standing human decision bound to that task, gate, revision and inputs |
| TaskStore.CampaignStore.VerifyGateDecision | vcstudio/campaign/gates.py:241-313 | accepts a decision if and only if it is an unrevoked pass or waiver for exactly the validated task on disk |
| TaskStore.CampaignStore.RunAcceptGate | vcstudio/campaign/gates.py:363-405 | three checks collect issues, and the decision is finalised in the ledger |
| TaskStore.CampaignStore.FinalizeGate | vcstudio/campaign/gates.py:171-238 | a waiver helps only a blocked verdict and only if it stands; the decision is the line appended |
| TaskStore.CampaignStore.PromoteAccepted | vcstudio/campaign/states.py:127-160 | success means that the decision verified for the caller task and that its promotion is on disk one revision later; a refusal changes nothing |
| TaskStore.RevisionFixesContent | vcstudio/campaign/schema.py:464-549 | over any run a task keeps its id, revisions never fall, and one revision has one content |
| TaskStore.WinnerAdvances | vcstudio/campaign/schema.py:488-513 | a successful persist or claim was against the disk revision, raises it by one and touches nothing else |
| TaskStore.AtMostOneWinner | vcstudio/campaign/schema.py:488-549 | of all persists and claims of one task against one revision at most one succeeds |
| TaskStore.AcceptanceIsSafe | vcstudio/campaign/schema.py:464-514 | in every interleaving an accepted task at revision r+1 was validated on disk at r, with a gate decision bound to r that verified at the write, and has not changed since |
| TaskStore.NoRevocationPrecedes | vcstudio/campaign/ledger.py:74-113 | at that write no revocation of the decision or of its waiver was in the ledger |
| TaskStore.RevocationIsFinal | vcstudio/campaign/ledger.py:249-274 | a revoked decision never verifies again |
| TaskStore.PromotionAcceptsWhatWasVerified | vcstudio/campaign/states.py:138-160 | however many steps lie between verification and write, what is accepted is the task that was verified, with the inputs the decision is bound to |
| TaskStore.DirectPersistBindsInputsIff | vcstudio/campaign/schema.py:488-513 | a direct persist of an accepted candidate binds the decided inputs if and only if the candidate agrees with the file on disk |
| TaskStore.DirectPersistCanDrift | vcstudio/campaign/schema.py:488-513 | a concrete candidate with other inputs that a direct persist accepts |
| TaskStore.FreshDecisionVerifies | vcstudio/campaign/gates.py:171-238 | a decision for the validated task on disk verifies right after the gate, and its promotion can be written, if and only if it is not blocked |
| TaskStore.GateDecidesPromotion | vcstudio/campaign/gates.py:363-405 | the ledger line the accept gate appends says pass if and only if fingerprints are equal and not empty, all required checks passed and the energy is finite; the task can then be promoted if and only if that held or the gate took a standing waiver |
| RungMachine.Perform | vcstudio/campaign/states.py:80-186 | each state function moves from exactly the rungs it allows, records the move, and otherwise changes nothing |
| RungMachine.EveryAcceptanceWasChecked | vcstudio/campaign/states.py:64-186 | in every order of calls an accepted task went from completed through a checker to validated and through a gate to accepted without leaving the upper rungs in between |
| ForceBlocks.ParseLines | vcstudio/cluster/convergence.py:68-163 | the streaming parser rejects exactly when a limit is broken and otherwise returns the maxima of the blocks the text splits into, an open last block only if termination is not required |
| ForceBlocks.ReadLine | vcstudio/cluster/convergence.py:105-154 | one line keeps the reader variables equal to what the text read so far means |
| ForceBlocks.CountRow | vcstudio/cluster/convergence.py:140-154 | a six-field line counts as a row, unreadable numbers are skipped, and too many rows are reported only if some block has them |
| ForceBlocks.Commit | vcstudio/cluster/convergence.py:100-103 | closing a block adds its value or reports a limit that the text really breaks |
| ForceBlocks.MaxNormIsMaximum | vcstudio/cluster/convergence.py:145-154 | the value of a block is attained by a readable row and bounds all of them |
| ForceBlocks.SplitPrint | vcstudio/cluster/convergence.py:114-139 | printed blocks split back into themselves |
| ForceBlocks.ReadPrinted | vcstudio/cluster/convergence.py:68-163 | printing blocks and parsing returns their maxima |

## Left out

- Remote shells, file transfer, command text, archiving commands, scripts, locks and file-entity checks: I/O, given as answers or as atomic steps.
- `_atomic_write` temporaries, half-removed directories, and a directory sync that fails right after a rename succeeded (the bundle would then stay behind without a reservation): steps are atomic here.
- AnchorFile.SelectionAnchorFile.Append: the log's byte limit is modelled for the file, not for whole histories, so a commit refused for bytes is not part of `ExportHistory`.
- ExportDirectory.Directory.Confirm: the byte quota of retained bundles is given as two flags of the request, and the per-file size limits are left out; the count quota is modelled.
- ExportDirectory.Directory.Build: the check of the published bundle is a step that may raise, but on the modelled disk the bundle is the one just written and its digest never differs.
- A reader that cuts the log tail while a writer is in the middle of an append: reads do not overlap appends.
- Building the bundle, its audit and its token: inputs of the request.
- MatrixRank.Rank: entries are reals and the tolerance 1e-12 is an exact zero test; rounding is not modelled.
- ForceBlocks.ParseLines: forces are compared by squared norm, and lines come split into fields with their byte lengths.
- JobDirectory.Directory.ContinueFromContcar: correction bindings, repair anchors and the geometry tests of CONTCAR are left out or given as one verdict; NEB and other engines are not modelled.
- JobDirectory.Directory.ContinueWithIncarChanges: the white list and the value checks are given as one flag, the changed INCAR as its digest; backups of local files are left out.
- JobDirectory.Directory.SubmitJob: preflight tests other than those on the manifest are one flag; binding the execution environment is left out.
- JobDirectory.Directory.Mark: an unreadable or edited journal, and a record that vanished from it, are left out.
- JobWaiting.StaleOutputOverRun: runs with a cancellation between the polls are excluded, since it ends the waiting by itself.
- Diagnosis.Classify: the text scans of logs are given as their results.
- `adopt_external_job`, explicit recovery by a human, and deletion of journals or recovery files.
- JobLedger.LedgerFile.RegisterEntry: path normalisation is an uninterpreted key of an entry; decoding, self-healing of malformed ledgers and digests of payloads are left out.
- LedgerUndo.IndependentUndo: transactions whose keys overlap are excluded, and restoration does not hold for them; the order of the list is not described.
- TaskGraph.CycleDetector.Dfs: the interpreter's recursion limit is not modelled.
- TaskStore.CampaignStore.SaveTask: the form of `save_task` with an expected revision is `persist_task`; task schema checks beyond the id are left out.
- TaskStore.CampaignStore.PromoteAccepted: the optional signature check and event lines are left out.
- RungMachine.Perform: the verdict of the accept gate is a given flag here; it is modelled in `TaskStore.CampaignStore.PromoteAccepted`.
- TaskGraph.FindDuplicates: the order of the reported ids, which the source sorts, is left out.
- `campaign_stage`, `progress_summary`, the submit and report gates: branches over the same data, easy members.
- Message texts, time stamps, notes, energies, usage sums.
