# BDEncode protocols, verified

A Dafny model of the parts of BDEncode whose correctness spans many steps: the crash-safe journals
that protect files, packages and installations, the durable job queue, and four self-contained
algorithms. `dafny verify dfyconfig.toml` checks everything.

| part | files |
|---|---|
| maintenance journal | `StoragePaths`, `StorageTree`, `MaintenanceModel`, `MaintenanceSafety`, `MaintenanceHistory`, `MaintenanceRuns`, `MaintenanceJournal`, `MaintenanceHandlers`, `SharedJournal`, `RemoteLease`, `HalfDeleted`, `LatePublication`, `ClientRuns` |
| job database | `JobStates`, `JobModel`, `JobSafety`, `JobProtocol`, `JobPromises`, `JobDatabase` |
| installer rollback journal | `InstallModel`, `InstallTransaction` |
| tools and package update | `UpdateModel`, `UpdateSafety`, `UpdateRuntime`, `AptGuard` |
| algorithms | `EncodeSeconds`, `EncodeRuns`, `CrfSearch`, `SampleWindows`, `JsonString` |
| shared | `Wrappers`, `Sorting` |

The three crash protocols have one form. A state machine has a step for every durable write, rename,
deletion and marker change; a crash is a run that stops (and, for maintenance, an explicit step that
drops a process and its threads). The classes follow the source's methods; each of their effects is
recorded as one step of the machine in a ghost history, I/O may fail at any effect (`if *`), and
every recorded state satisfies the machine's invariant (for maintenance, under the conditions named
below), so recovery may start after any prefix. A step's guard says what the program must have
established before that effect, and the methods are proved to perform only enabled steps, so
theorems about all runs of a machine are theorems about the programs. The installer's restoring
steps have no such guard: the host would allow them in any order, and the order is what the methods
are proved to keep. A class method is one thread's uninterrupted run, except that `begin` takes a
schedule of what everybody else does after each of its measurements; other interleavings of threads,
processes and hosts are runs of the machine. The job database is a function from a store and an
operation to a store or a refusal; the class performs the same operations statement by statement and
rolls back on refusal.

## Where the code and its promises part

Each of these is a theorem: a concrete case, and the exact condition under which the promise holds.

- `encode_seconds` promises every interval spent in ENCODING, but a segment that `job.retry` opened is
  not counted (`EncodeSeconds.RetriedEncodeIsNotCounted`). Code and promise agree exactly when no
  retry into ENCODING was followed by another move (`DocumentedIffNoRetriedEncode`), and the
  difference is exactly the time of the retried segments (`LostTimeIsRetriedTime`).
- It promises to leave out operator pauses, but a pause that ends in a cancellation stays open and may
  swallow a later encode (`CancelledPauseSwallowsALaterEncode`). Its pauses are the real holds exactly
  when no paused job was cancelled (`PausesAreHoldsIffNoneWasCancelled`). Both logs are those of
  reachable jobs (`EncodeRuns.RetriedEncodeIsReachable`, `CancelledPauseIsReachable`).
- A CRF search that runs out of probes may report a reachable target as unreachable
  (`CrfSearches.BudgetHidesAReachableTarget`). It can be relied on for every falling score exactly
  when its budget exceeds the number of grid steps from the initial CRF down to the lowest
  (`ReliableIffBudgetCoversTheWayDown`); of a finished search, the scores prove the target out of
  reach exactly when the lowest CRF was probed (`UnreachableIsProvedIffLowestWasProbed`).
- A recursive deletion interrupted after it removed a file can never be retried
  (`StorageTree.HalfDeletedTreeIsRefused`); the retry passes exactly when every file is still there
  (`RetryIsPossibleIffNoFileWasRemoved`). The journal then fails closed: the operation stays committed
  for good and what is left stays where it is (`HalfDeleted.FailsClosed`).
- `begin` measures its targets (src/bdencode/maintenance.py:866-901) before the transaction that
  publishes them (905-968), which looks at other unfinished operations and not at the targets again.
  If another request commits the removal of a measured path in between, the intent appears with its
  target at neither place. Publishing keeps the invariant exactly when no operation with a measured
  path has committed since its measurement (`MaintenanceHistory.AssumedIffTimely`); otherwise the
  operation is stranded (`LatePublication.OvertakenIsStranded`): for ever, whatever anyone does, its
  row stays INTENT with its path, nobody stages or rolls it back past that target (`StrandedForEver`),
  and no service that may claim it starts (`MaintenanceHandlers.StartService`). Two requests for the
  same targets in one process, every claim made alone, do it (`SecondRequestIsStranded`, `ItStrands`).
  The domain guard does not prevent it where a removal leaves state and version of its subject as they
  were (src/bdencode/db.py:1444-1488). Serialising the requests of one subject does
  (`ClientRuns.SerialisedIsTimely`).
- A process has one maintenance journal, and the lease rule admits each of its threads to an operation
  that another one is working on. The second recovery that the first release request makes
  (src/bdencode/release_service.py:238, on the journal shared in src/bdencode/api.py:257-300) can
  therefore undo what a live request has staged. A claim is harmless, whatever follows, exactly when
  nobody else is inside the operation, except that a bare look may share it with workers of the same
  journal (`SharedJournal.ClaimIsHarmlessIffAlone`). From every staged operation such a claim reaches
  a durable domain mutation under a row that says ROLLED_BACK, with every target back at its origin
  (`SecondRecoveryUndoesACommit`), and from an empty journal on one host it happens
  (`ACommitIsUndone`, `ItHappens`). All-or-nothing, exclusion of commit and rollback, and progress of
  every thread hold in every run whose claims are made alone and whose publications are timely
  (`MaintenanceRuns.AllOrNothing`). Runs of disciplined clients on one host are such runs: handlers
  that claim what they published, recovery only while a journal is new, and serialised requests
  (`ClientRuns.ClientRunsAreProper`).
- On one host the lease rule keeps every other journal away from a live thread, and never the thread's
  own (`MaintenanceRuns.LeaseRuleAdmitsTheOwnJournalOnly`). So the recovery that runs while a journal
  is new is safe (`RecoveryByAnIdleJournalIsAlone`), and a later one on the same journal is not.
- An expired lease on another host may belong to a live process. One takeover from it reaches a rolled
  back operation whose target is missing from its origin (`RemoteLease.LiveTakeoverLosesATarget`);
  such a lease is reachable, and a concrete run ends so (`OverdueIsReachable`, `ATargetIsLost`).

## Model

| member | source | states |
|---|---|---|
| StoragePaths.OverlapIsContainment | src/bdencode/maintenance.py:588-594 | The `commonpath` test is true exactly when one path equals, contains or lies within the other. |
| StoragePaths.CommonPartsIsGreatest | src/bdencode/maintenance.py:588-594 | The common path is a prefix of both paths and every common prefix is a prefix of it. |
| StoragePaths.ParkingPlacesAreUnique | src/bdencode/maintenance.py:648-674 | The quarantine name determines operation and index, and is never an original path of any owned root. |
| StoragePaths.NestedTargets | src/bdencode/maintenance.py:596-626 | Two targets under accepted roots nest exactly when they are equal or one is a job workspace and the other its child, the one overlap that the duplicate test does not reject. |
| StorageTree.TreeUsage | src/bdencode/maintenance.py:283-334 | The work-list traversal returns the byte and file totals of the recursive definition. |
| StorageTree.RetryIsPossibleIffNoFileWasRemoved | src/bdencode/maintenance.py:471-495 | After a recursive removal interrupted anywhere, the usage test of a retry passes if and only if the multiset of files is unchanged. |
| StorageTree.HalfDeletedTreeIsRefused | src/bdencode/maintenance.py:471-495 | A tree that lost one of two files fails the usage test, so the documented retry after a crash is refused. |
| MaintenanceSafety.StepKeepsInv | src/bdencode/maintenance.py:1092-1275 | Every measurement, publication of targets that still stand, rename, deletion, row save, claim made alone, domain commit, crash and unrelated write keeps the invariant: exact places by phase, at most one thread inside an operation, under its lease and with an exact copy of the receipts, disjoint subtrees, exact claims, free parking places of what is measured. |
| MaintenanceSafety.PublicationKeepsInvIffCurrent | src/bdencode/maintenance.py:905-968 | From any state with the invariant, publishing a draft keeps it if and only if every target still stands where it was measured, unchanged. |
| MaintenanceSafety.PlacesApart | src/bdencode/maintenance.py:648-674 | No original or parking path of one unfinished target is a path of another, in the same or another operation. |
| MaintenanceSafety.FsStepIsLocal | src/bdencode/maintenance.py:1101-1124 | A filesystem step changes its own target's two paths and no other path. |
| MaintenanceSafety.ClaimsStayExact | src/bdencode/maintenance.py:1076-1090 | The claims table stays equal to the original paths of the unfinished operations. |
| MaintenanceHistory.RunKeepsInv | src/bdencode/maintenance.py:843-1297 | The invariant holds at every moment of every run in which no claim finds another worker inside its operation and every published target still stands. |
| MaintenanceHistory.StandsIffNotOvertaken | src/bdencode/maintenance.py:866-968 | An object that stood at some moment, whose path nobody has written and no unfinished operation holds, still stands later if and only if no operation with that path has committed in between. |
| MaintenanceHistory.EveryDraftWasMeasured | src/bdencode/maintenance.py:866-901 | Every target a caller is about to publish was measured by it earlier in the run, and has been in its draft since. |
| MaintenanceHistory.AssumedIffTimely | src/bdencode/maintenance.py:866-968 | In a run from an empty journal whose claims are made alone and whose measured paths nobody else writes, every publication finds its targets standing if and only if no operation with a measured path commits between measurement and publication. |
| MaintenanceHistory.TimelyRunKeepsInv | src/bdencode/maintenance.py:843-1297 | In every such run without a late publication the invariant holds at every moment. |
| MaintenanceRuns.AllOrNothing | src/bdencode/maintenance.py:1172-1275 | In every run whose claims are made alone and whose publications are timely, with crashes anywhere: before the domain commit each target is at exactly one of origin and quarantine; after it none is at its origin; the end is FINALIZED if and only if the domain committed, and leaves nothing in quarantine. |
| MaintenanceRuns.EveryThreadProceeds | src/bdencode/maintenance.py:1092-1275 | Under the invariant every thread may write its row and none of its program's checks can fail. |
| MaintenanceRuns.UnfinishedOperationsOwnDisjointSubtrees | src/bdencode/maintenance.py:905-968 | In every such run no path of one unfinished operation equals, contains or lies within a path of another, and each is claimed by its operation. |
| MaintenanceRuns.EndsAreUniform | src/bdencode/maintenance.py:1172-1275 | An operation ends as its domain transaction decided, with all targets alike: all gone or all at their origin, and no claim left. |
| MaintenanceRuns.EndsAreFinal | src/bdencode/maintenance.py:1172-1235 | A finished operation never changes again, except for its lease columns. |
| MaintenanceRuns.CommitExcludesRollback | src/bdencode/db.py:1491-1526 | When the domain commits every target is in quarantine, no rollback can start from then on, and no thread is left inside the operation. |
| MaintenanceRuns.RecordedRestoreRefusesCommit | src/bdencode/db.py:1509-1516 | From the first saved restore receipt of a detached operation, over any run that keeps the invariant, no domain transaction commits it: the receipt stays until it is rolled back, and for ever after. |
| MaintenanceRuns.CommitInTheWindowIffAnotherRestores | src/bdencode/maintenance.py:1189-1222 | Between rename and row save of a rollback the row still accepts the commit with a target at its origin; the commit can be made there if and only if the one who restores is not the staged worker itself. |
| MaintenanceRuns.LeaseRuleAdmitsTheOwnJournalOnly | src/bdencode/maintenance.py:792-841 | On one host a claim of an operation with a live thread is possible if and only if it is made by the thread's own journal, and the phase admits it. |
| MaintenanceRuns.RecoveryByAnIdleJournalIsAlone | src/bdencode/api.py:265-284 | On one host a journal none of whose workers is inside an operation, as when it is new, makes every claim alone. |
| MaintenanceRuns.CrashFreesTheLease | src/bdencode/maintenance.py:792-841 | After the holder's process dies any process of its host may claim the operation at once, and claims it alone. |
| MaintenanceRuns.RunConserves | src/bdencode/maintenance.py:1101-1124 | Moves of one operation conserve what each target holds and every path outside its places, over any run. |
| MaintenanceRuns.RoundTripRestoresTheFilesystem | src/bdencode/maintenance.py:1172-1228 | A run of moves that starts and ends with every target at home leaves the filesystem exactly as it was. |
| MaintenanceRuns.SegmentStaysInside | src/bdencode/maintenance.py:1230-1275 | However an operation proceeds, deletions included, no path outside its places changes. |
| RemoteLease.LiveTakeoverLosesATarget | src/bdencode/maintenance.py:812-822 | From any state with an expired remote lease whose holder is alive, a run with that one takeover ends ROLLED_BACK with the target in quarantine, unclaimed and beyond the holder's repair. |
| RemoteLease.OverdueIsReachable | src/bdencode/maintenance.py:812-822 | From any empty journal with two live hosts and a measurable target a run reaches such a lease after any lease time. |
| RemoteLease.ATargetIsLost | src/bdencode/maintenance.py:812-822 | A concrete run of two hosts with one file, careful but for that one takeover, ends ROLLED_BACK with the file in quarantine. |
| SharedJournal.ClaimIsHarmlessIffAlone | src/bdencode/maintenance.py:812-822 | A claim keeps all-or-nothing, every lease and every thread's progress in all continuations whose later claims are made alone and whose later publications are of targets that still stand, if and only if it is made alone: no other worker inside the operation, except those of the same journal at a bare look. |
| SharedJournal.EveryThreadReachesItsEnd | src/bdencode/maintenance.py:1092-1275 | Left alone, a thread takes its program to the last save, from any state with the invariant, and touches nothing else. |
| SharedJournal.Unnoticed | src/bdencode/maintenance.py:1055-1090 | A thread cannot tell another thread's presence, phase or receipts: whatever it does without them it does beside them, with the same effects. |
| SharedJournal.RollbackBesideStaging | src/bdencode/maintenance.py:1152-1228 | A rollback started beside a staging or staged worker can end with the domain committed and a target at its origin. |
| SharedJournal.StageBesideStaging | src/bdencode/maintenance.py:1092-1150 | Staging started beside a staging worker can end with the domain committed under a row that says DETACHED. |
| SharedJournal.StageBesideRestoring | src/bdencode/maintenance.py:1092-1150 | Staging started beside a restoring worker can end rolled back with a target in quarantine. |
| SharedJournal.SecondRecoveryUndoesACommit | src/bdencode/release_service.py:236-238 | From any staged operation a rollback by another worker of the journal can end with the domain mutation durable, the row ROLLED_BACK, its claims gone and every target at its origin. |
| SharedJournal.ACommitIsUndone | src/bdencode/api.py:286-300 | From any empty journal, and any targets that can be begun, one such claim is enough to reach that end. |
| SharedJournal.ItHappens | src/bdencode/api.py:257-300 | A concrete run of one process with one file does. |
| LatePublication.OvertakenIsStranded | src/bdencode/maintenance.py:866-968 | After a careful run, a publication keeps the invariant if and only if it is timely, and a published target is stranded if and only if an operation with its path has committed since it was measured. |
| LatePublication.LatePublicationIsStranded | src/bdencode/maintenance.py:905-968 | Publishing a target that has departed strands the operation. |
| LatePublication.StrandedForEver | src/bdencode/maintenance.py:1092-1228 | Over any run, with claims by anyone, a stranded operation stays INTENT and keeps its path, neither end of it can be saved, and the next step of every thread that reaches the missing target is refused. |
| LatePublication.SecondRequestIsStranded | src/bdencode/api.py:1019-1092 | From any empty journal, two requests that measure the same targets before either publishes end with every target of the second stranded, although every claim is made alone and nobody else writes anything. |
| LatePublication.ItStrands | src/bdencode/api.py:1019-1092 | A concrete run of one process with one directory does. |
| LatePublication.WholeRequest | src/bdencode/api.py:1049-1092 | A request left alone goes from its measurements to FINALIZED with every target gone, by careful steps only. |
| ClientRuns.SerialisedIsTimely | src/bdencode/api.py:1019-1092 | If every path belongs to one subject and none of that subject's removals commits between measurement and publication of another, every publication is timely, whoever makes the claims. |
| ClientRuns.ClientRunsAreProper | src/bdencode/api.py:257-284 | Runs of clients on one host that claim only what they published, recover only while their journal is new and serialise the requests of a subject satisfy every hypothesis of AllOrNothing. |
| HalfDeleted.InterruptionIsSafeIffNoFileIsMissing | src/bdencode/maintenance.py:1236-1263 | After a deletion interrupted anywhere the invariant still holds if and only if every file of the tree is still there; otherwise the operation is stuck. |
| HalfDeleted.FailsClosed | src/bdencode/maintenance.py:1236-1275 | Over any run, with claims by anyone, a stuck operation stays committed, is never finalized, every thread that reaches the damaged target is refused, and what is left of it stays as it is. |
| MaintenanceJournals.Storage.Verify | src/bdencode/maintenance.py:637-646 | True exactly when identity, bytes and files of the object are those recorded. |
| MaintenanceJournals.MaintenanceJournal.TakeLease | src/bdencode/maintenance.py:792-841 | The lease is taken exactly under the owner, liveness and expiry rule; refusals change nothing and say why. |
| MaintenanceJournals.MaintenanceJournal.SaveTargets | src/bdencode/maintenance.py:1055-1090 | Only the lease owner rewrites a row; a final phase deletes exactly that operation's claims. |
| MaintenanceJournals.MaintenanceJournal.Describe | src/bdencode/maintenance.py:862-902 | On success the targets are those asked for, in order and under accepted roots, exactly as measured one by one while others act in between; if nobody did, they are all present, distinct and free to park, at the end too. |
| MaintenanceJournals.MaintenanceJournal.Conflicts | src/bdencode/maintenance.py:908-968 | Without a conflict no target equals, contains or lies within one of an unfinished operation, and none is claimed; under the invariant a conflict is reported exactly for such a target, so the claims table refuses nothing the hierarchy test admits. |
| MaintenanceJournals.MaintenanceJournal.Begin | src/bdencode/maintenance.py:843-969 | Publishes the measured row and one claim a target as its last step, uncontested, or leaves no row. Whatever others do between the measurements: if every step of theirs was careful, the invariant holds afterwards exactly when every target is at home, and a target whose path nobody wrote is at home exactly when no operation with that path has committed since it was measured. If nobody acts, every target is at home, or nothing has changed. |
| MaintenanceJournals.MaintenanceJournal.Publish | src/bdencode/maintenance.py:905-968 | The insertions of one transaction, without a look at the targets: the invariant is kept exactly when every target is at home. |
| MaintenanceJournals.MaintenanceJournal.MoveAside | src/bdencode/maintenance.py:1101-1143 | One turn of staging leaves the target in quarantine; under the invariant only I/O can stop it. |
| MaintenanceJournals.MaintenanceJournal.Stage | src/bdencode/maintenance.py:1092-1150 | On success the operation is DETACHED with every receipt saved and its thread may commit; if nobody else is inside the operation every moment on the way keeps the invariant. |
| MaintenanceJournals.MaintenanceJournal.RestoreAll | src/bdencode/maintenance.py:1180-1222 | Restores targets in reverse order with a row save after each; a failure leaves a recoverable state. |
| MaintenanceJournals.MaintenanceJournal.Rollback | src/bdencode/maintenance.py:1172-1228 | On success every target is at its origin, the phase is ROLLED_BACK and exactly its claims are gone; refused exactly for committed or finalized operations. |
| MaintenanceJournals.MaintenanceJournal.DeleteAll | src/bdencode/maintenance.py:1236-1269 | Deletes quarantined targets in order with a row save after each, and only for a committed operation. |
| MaintenanceJournals.MaintenanceJournal.Finalize | src/bdencode/maintenance.py:1230-1275 | On success no target is left anywhere, the phase is FINALIZED and exactly its claims are gone; refused unless committed. |
| MaintenanceJournals.MaintenanceJournal.RecoverOne | src/bdencode/maintenance.py:1277-1297 | An operation that the lease rule withholds is left untouched; any other one, if nobody is inside it, ends as its domain transaction decided. |
| MaintenanceJournals.MaintenanceJournal.Recover | src/bdencode/maintenance.py:1277-1297 | One uninterrupted pass ends every operation it may claim, or fails. From any state with the invariant in which nobody else is inside what it can claim it reconciles every unfinished operation, fails only on I/O, and leaves nothing this owner could claim; a pass over such a journal changes nothing. |
| MaintenanceJournals.NothingLeftToClaim | src/bdencode/maintenance.py:1277-1297 | After a completed pass no unfinished operation is left that the recovering owner could claim. |
| MaintenanceJournals.PassGoesOn | src/bdencode/maintenance.py:1277-1297 | Recovering one operation keeps every already reconciled one reconciled. |
| MaintenanceHandlers.CommitDomain | src/bdencode/db.py:1491-1526 | The domain transaction commits exactly when kind, subject, phase and every receipt match, without looking at the lease. |
| MaintenanceHandlers.UndoneHandlerChangesNothing | src/bdencode/api.py:1070-1085 | A run of one operation without deletions from all targets at home to all targets at home leaves the filesystem unchanged. |
| MaintenanceHandlers.RemoveTargets | src/bdencode/api.py:1049-1092 | A destructive request, with others acting between its measurements. If its intent appears with every target at home it succeeds exactly with its domain commit, every later moment is recoverable, a finished one leaves no target and a rolled back one leaves filesystem and claims as they were; if a target has departed by then it fails and its intent is stranded. If nobody acts it is the former. |
| MaintenanceHandlers.StartService | src/bdencode/api.py:265-284 | A service whose first recovery may claim a stranded operation fails to start and leaves it stranded; from the invariant, with nobody inside what it can claim, it fails only on I/O. |
| JobSafety.StepKeepsInv | src/bdencode/db.py:714-1342 | Every write transaction keeps exclusive lanes, coherent rows, the control protocol and the log as history. |
| JobSafety.RunKeepsInv | src/bdencode/db.py:593-633 | The invariant holds after every run of transactions from the empty database. |
| JobSafety.MoveKeepsRow | src/bdencode/db.py:1650-1731 | A legal move keeps resume, error, finish time, progress and control coherent, raises the version, and lowers progress only from review to READY. |
| JobSafety.ClaimIsNeverRefused | src/bdencode/db.py:714-782 | A claim satisfies both lane indexes by its own test: its integrity-error branch is dead. |
| JobSafety.RetrySucceedsIff | src/bdencode/db.py:1121-1252 | A retry succeeds if and only if the job is FAILED at the expected version, its resume state is retryable, and it is READY or no other job, paused or not, is in a blocking state; it is never refused for provenance or by the index. |
| JobSafety.FailureIsProvenance | src/bdencode/db.py:1139-1185 | For every failed job the latest line with a state is a state change into FAILED from exactly its resume state. |
| JobSafety.LatestLinkIsLastMove | src/bdencode/db.py:1139-1150 | The row the provenance query returns is the last link of the job's chain. |
| JobSafety.HistoryGrows | src/bdencode/db.py:1717-1730 | A line that starts where the job stands, or carries no state, extends the chain. |
| JobSafety.IndexRefusesIff | src/bdencode/db.py:353-361 | The indexes refuse a row exactly when it would occupy a lane that another unpaused row occupies. |
| JobSafety.CancelKeepsInv | src/bdencode/db.py:904-926 | Cancelling an idle or paused job is never refused and ends in (CANCELLED, RUNNING). |
| JobSafety.DeleteKeepsInv | src/bdencode/db.py:1344-1442 | Deleting a terminal job removes its lines and scans and leaves every other job's history as it was. |
| JobProtocol.EveryRowSteps | src/bdencode/db.py:784-998 | Every transaction moves every surviving row by a legal step: held jobs stand still except for cancellation, CANCEL_REQUESTED leads only to (CANCELLED, RUNNING), a working job is cancelled only by its worker, versions and revisions never fall and rise with every change, progress falls only where a stage is replayed. |
| JobProtocol.EveryStepIsLegal | src/bdencode/db.py:1650-1731 | The same at every step of every run, with coherent rows before and after. |
| JobProtocol.LanesAreExclusive | src/bdencode/db.py:353-361 | In every run at most one unpaused job scans and at most one is in a blocking state. |
| JobProtocol.LogIsTheHistory | src/bdencode/db.py:1717-1730 | In every run a job's lines with states form a chain from its creation, each starting where the last ended, ending where the row stands. |
| JobProtocol.RetryRefusals | src/bdencode/db.py:1121-1252 | In every run a failed job's retry is refused only for version, stage or another blocking job, and never re-enters SCANNING or UPLOADING. |
| JobProtocol.IndexRefusesTransitionIff | src/bdencode/db.py:784-820 | A legal transition is refused by an index exactly when its unpaused row would enter a lane held by another. |
| JobProtocol.IndexRefusesResumeIff | src/bdencode/db.py:1000-1034 | Resuming a paused job is refused by an index exactly when its lane is held by another. |
| JobProtocol.ReviewNeedsTheIndex | src/bdencode/db.py:1650-1665 | Sending a scanning job to review beside an encoding one is a legal move that only the index refuses. |
| JobProtocol.EncodingBesideScanningIsReachable | src/bdencode/db.py:714-782 | A run reaches such a store. |
| JobProtocol.AdvertisedPauseIffEffective | src/bdencode/models.py:247-278 | Pausing is advertised exactly when the request is accepted and changes something. |
| JobProtocol.AdvertisedCancelIffEffective | src/bdencode/models.py:247-278 | Cancelling is advertised exactly when the request is accepted and changes something. |
| JobProtocol.AdvertisedResumeIffAccepted | src/bdencode/models.py:247-278 | Resuming is advertised exactly when it is accepted or stopped only by an occupied lane. |
| JobProtocol.AdvertisedRevivalIffAccepted | src/bdencode/models.py:247-278 | Restart and deletion are advertised exactly when accepted; a retry that is not advertised is refused. |
| JobProtocol.EncodeTimeOfAReachableJob | src/bdencode/job_statistics.py:43-79 | For every reachable job the log is already in order, only state changes leave ENCODING, and the documented encode time is the computed one plus the retried time. |
| JobDatabases.Database.TransitionInConnection | src/bdencode/db.py:1650-1731 | Under the invariant a move is accepted if and only if it is legal and its lane free, refused by an index if and only if legal with the lane held; it changes that row only, raises its version by one, keeps progress from falling except from review to READY, gives a failed row its provenance, and a refusal changes nothing. |
| JobDatabases.Database.SetControlInConnection | src/bdencode/db.py:1062-1107 | Under the invariant it is refused if and only if a paused row would re-enter a lane held by another; otherwise that row changes in its control and nothing else. |
| JobDatabases.Database.FirstInLine | src/bdencode/db.py:729-735 | Picks an eligible job of the highest priority and, within it, the oldest; none only if none is eligible. |
| JobDatabases.Database.ClaimNextJob | src/bdencode/db.py:714-747 | Claims the first queued job exactly when no unpaused job scans; never refused. |
| JobDatabases.Database.ClaimNextReadyJob | src/bdencode/db.py:749-782 | Claims the first ready job exactly when no unpaused job is in a blocking state; never refused. |
| JobDatabases.Database.TransitionJob | src/bdencode/db.py:784-820 | Keeps the invariant and every row legal; at the expected version it promises what the checked move promises, for CANCELLED what a cancellation promises. |
| JobDatabases.Database.RequestPause | src/bdencode/db.py:822-862 | Accepted if and only if the job is neither finished nor being cancelled, never stopped by an index; a worker's job ends PAUSE_REQUESTED, any other PAUSED, with nothing else changed; keeps the invariant. |
| JobDatabases.Database.RequestCancel | src/bdencode/db.py:864-926 | Accepted if and only if the job neither completed nor failed; a worker's job ends CANCEL_REQUESTED where it stood, any other CANCELLED, RUNNING and finished; keeps the invariant. |
| JobDatabases.Database.AcknowledgePause | src/bdencode/db.py:928-958 | Accepted if and only if a pause was requested or acknowledged; ends PAUSED where the job stood, a second time changes nothing; keeps the invariant. |
| JobDatabases.Database.AcknowledgeCancel | src/bdencode/db.py:960-998 | Accepted if and only if a cancellation was requested or done; ends CANCELLED, RUNNING and finished, a second time changes nothing; keeps the invariant. |
| JobDatabases.Database.ResumePausedJob | src/bdencode/db.py:1000-1034 | Accepted if and only if paused with its lane free, refused by the index if and only if paused with its lane held; ends RUNNING where it stood; keeps the invariant. |
| JobDatabases.Database.RetryFailedJob | src/bdencode/db.py:1109-1252 | Accepted if and only if FAILED at the version, in a retryable stage that is READY or blocked by no other job, paused or not; ends in exactly the failed stage, cleared; never refused for provenance; keeps the invariant. |
| JobDatabases.Database.RestartCancelledJob | src/bdencode/db.py:1254-1342 | Accepted if and only if CANCELLED at the version, never stopped by an index; ends READY exactly with a successful scan and a selection, QUEUED exactly without a scan; keeps the invariant. |
| JobDatabases.Database.DeleteTerminalJob | src/bdencode/db.py:1344-1442 | Accepted if and only if terminal and, when completed, allowed; no row, scan or line of the job is left, and every other job keeps its row, scans and history; keeps the invariant. |
| JobDatabases.Database.SetSelection | src/bdencode/db.py:1528-1600 | Accepted exactly from a running job that awaits a selection or is under review, at the expected version: the job ends READY with its selection and the latest waiting scan is closed, and nothing else changes; a refusal changes nothing, and no lane refuses it. |
| JobDatabases.Database.RecordProgress | src/bdencode/db.py:1602-1648 | Progress ends at the report or where it was, at least both, within 0 and 1; nothing else of the row changes but its version; accepted only for an unfinished job that is not paused; keeps the invariant. |
| JobDatabases.Database.CreateScan | src/bdencode/db.py:1757-1795 | Accepted if and only if the job scans, the status is an opening one and the identifier is new; adds exactly that scan and leaves every job's row and chain of states as they were; keeps the invariant. |
| JobDatabases.Database.UpdateScan | src/bdencode/db.py:1819-1902 | Accepted exactly if the scan may move there and a still scanning job that the result decides is running; then scan and job move in the same transaction, a failed one with its provenance, and otherwise no job changes. |
| EncodeSeconds.SortedSorts | src/bdencode/job_statistics.py:51 | The events are ordered by time and identifier, and are the same events. |
| EncodeSeconds.Intervals | src/bdencode/job_statistics.py:52-69 | The first loop collects exactly the closed segments of state events and the completed pauses. |
| EncodeSeconds.EncodeSeconds | src/bdencode/job_statistics.py:43-79 | For every event list the result is the number of ticks in a closed ENCODING segment and in no completed pause; none exactly without a closed segment. |
| EncodeSeconds.TotalIsTickCount | src/bdencode/job_statistics.py:72-79 | The interval total equals the tick count, for every ordered log and either reading of it. |
| EncodeSeconds.SegmentsAreDisjoint | src/bdencode/job_statistics.py:61-69 | Segments are in order and pairwise disjoint, whatever the log holds. |
| EncodeSeconds.PausesAreDisjoint | src/bdencode/job_statistics.py:57-61 | Completed pauses are in order and pairwise disjoint, whatever the log holds. |
| EncodeSeconds.NetIsUncovered | src/bdencode/job_statistics.py:73-78 | Subtracting the positive overlaps of disjoint pauses leaves exactly the uncovered ticks, so the clamp at zero never acts. |
| EncodeSeconds.DocumentedIffNoRetriedEncode | src/bdencode/job_statistics.py:43-49 | The segments are those the documentation promises if and only if no retry into ENCODING was followed by another move. |
| EncodeSeconds.LostTimeIsRetriedTime | src/bdencode/job_statistics.py:43-79 | The documented time is the computed time plus exactly the time of the retried segments. |
| EncodeSeconds.RetriedEncodeIsNotCounted | src/bdencode/job_statistics.py:62-63 | A job that encoded for ten ticks, nine of them after a retry, is reported with one. |
| EncodeSeconds.PausesAreHoldsIffNoneWasCancelled | src/bdencode/job_statistics.py:57-61 | The completed pauses are the real holds if and only if no paused job was cancelled. |
| EncodeSeconds.CancelledPauseSwallowsALaterEncode | src/bdencode/job_statistics.py:57-61 | A job that encoded for eleven ticks outside its holds is reported with one, because of a pause that was cancelled. |
| EncodeRuns.RetriedEncodeIsReachable | src/bdencode/db.py:1121-1252 | A run of the job database writes exactly that log of a retried encode. |
| EncodeRuns.CancelledPauseIsReachable | src/bdencode/db.py:904-998 | A run of the job database writes exactly that log of a cancelled pause. |
| CrfSearches.CrfSearch.constructor | src/bdencode/crf_search.py:225-232 | The initial CRF is the nominal one on the grid, inside the quantised bounds. |
| CrfSearches.CrfSearch.Record | src/bdencode/crf_search.py:234-239 | A score is kept unless it is not finite or its CRF was probed, and then nothing changes. |
| CrfSearches.BracketIsTight | src/bdencode/crf_search.py:241-255 | With passing below failing probes, the bracket is the greatest passing and the least failing probe of all. |
| CrfSearches.CrfSearch.Slope | src/bdencode/crf_search.py:257-271 | The slope is that of the first neighbouring pair whose middle is nearest the target, limited to [-4, -0.3]; the default without a pair. |
| CrfSearches.CrfSearch.NextCrf | src/bdencode/crf_search.py:274-306 | Of a sound search: a proposal lies within the bounds and strictly between the ends of the bracket, and was never probed; there is none if and only if the budget is used, the greatest passing probe is within tolerance, or no CRF is left between the ends. |
| CrfSearches.ProposalsAreNew | src/bdencode/crf_search.py:274-306 | Every proposal is on the grid, inside the quantised bounds, strictly inside the live bracket, and was never probed. |
| CrfSearches.RecordKeepsSound | src/bdencode/crf_search.py:234-239 | Any score at all keeps every passing probe strictly below every failing one and moves one end of the bracket to the probe. |
| CrfSearches.EveryRunIsSound | src/bdencode/crf_search.py:225-306 | Along every run, for any scoring, probes are distinct, in bounds and separated, and the bracket strictly shrinks with each. |
| CrfSearches.OutcomeIsGreatestPassing | src/bdencode/crf_search.py:308-327 | The outcome is the greatest of all passing probes; unreachable exactly if none passes. |
| CrfSearches.StoppingIsOptimal | src/bdencode/crf_search.py:274-327 | For a non-increasing score, a search that stops before its budget is within tolerance, or chose the greatest grid CRF that meets the target, or no grid CRF meets it. |
| CrfSearches.StopsIff | src/bdencode/crf_search.py:274-306 | A sound search stops if and only if its budget is used, its greatest passing probe is close enough, or no untried CRF is left in the bracket. |
| CrfSearches.UnreachableIsProvedIffLowestWasProbed | src/bdencode/crf_search.py:308-317 | Without a passing probe every non-increasing score that agrees with the probes misses the target if and only if the lowest CRF was probed. |
| CrfSearches.BudgetHidesAReachableTarget | src/bdencode/crf_search.py:277-278 | A run of three misses reports a target as unreachable that CRF 12 meets. |
| CrfSearches.ReliableIffBudgetCoversTheWayDown | src/bdencode/crf_search.py:274-317 | No falling score lets a search report a target as unreachable that some CRF meets, if and only if the budget exceeds the number of grid steps from the initial CRF down to the lowest. |
| CrfSearches.CrfSearch.Run | src/bdencode/worker.py:4064-4131 | The worker's loop ends for any scoring, stops only for an unusable score, and returns the outcome of a sound run. |
| SampleWindows.PlanSampleWindows | src/bdencode/crf_search.py:142-175 | A title is accepted exactly when it has frames, a rate, two samples and room for two windows; the plan then has between two and the requested number of equal windows, in order, disjoint, inside the body, each centred on its segment. |
| SampleWindows.StartIsInBody | src/bdencode/crf_search.py:168-174 | In exact arithmetic every start lies in the body and the next one a window later: the clamp never changes it. |
| SampleWindows.WindowsAreApart | src/bdencode/crf_search.py:168-175 | Any two windows of a plan are disjoint. |
| JsonString.ClassifierIsExact | native/libbluray_scan.c:288-312 | The classifier, whose guarded reads never pass the terminator, answers n exactly when the bytes begin with an n-byte form of a code point from U+0080 in UTF-8 (section 3 of RFC 3629). |
| JsonString.JsonString | native/libbluray_scan.c:314-371 | The loop prints the quoted, escaped form of the string up to its terminator, whatever follows it in memory. |
| JsonString.OutputIsAJsonString | native/libbluray_scan.c:314-371 | A JSON string reader (section 7 of RFC 8259) decodes the output to the input with each byte that starts no well-formed sequence replaced by U+FFFD. |
| JsonString.ValidTextRoundTrips | native/libbluray_scan.c:314-371 | Valid UTF-8 comes back exactly. |
| JsonString.BodyIsWellFormed | native/libbluray_scan.c:314-371 | The output is well-formed UTF-8, whatever the input. |
| JsonText.BeginsOnce | native/libbluray_scan.c:288-312 | No two code points begin the same bytes. |
| InstallModel.StepKeepsInv | install/install_transaction.py:1018-1225 | Every step taken in order keeps the markers, snapshots and database files consistent; a restored main file never has a sidecar. |
| InstallModel.RunKeepsInv | install/install_transaction.py:1107-1225 | The invariant holds at every moment of every run, so recovery may start anywhere. |
| InstallModel.DecisionsAreFinal | install/install_transaction.py:1120-1187 | HEALTHY or COMMITTED stays so, RESTORING or later stays so, over any run. |
| InstallModel.HealthyIsNeverUndone | install/install_transaction.py:1120-1187 | HEALTHY is never reached after RESTORING, and from HEALTHY on no recovery step rewrites a file. |
| InstallModel.OldReleaseNeverMeetsNewDatabase | install/install_transaction.py:1161-1171 | However recovery is cut off, at no moment does a target differ from how it was found unless the database equals its snapshot and nothing runs. |
| InstallModel.RestoredMeansTheBackup | install/install_transaction.py:1031-1060 | In every run, when a prepared transaction is RESTORED, what a reader of the database sees, sidecars included, is the backup. |
| InstallTransactions.InstallTransaction.Begin | install/install_transaction.py:372-443 | Publishes an OBSERVING snapshot of every managed target and then the active marker; refused exactly beside an unfinished or existing transaction. |
| InstallTransactions.InstallTransaction.SnapshotDatabase | install/install_transaction.py:565-634 | The database entry: absent, or a backup that means what the main file and its sidecars together meant; refused exactly for sidecars without a main file. |
| InstallTransactions.InstallTransaction.PrepareMutation | install/install_transaction.py:1189-1210 | PREPARED is written only with a database entry that means what the database means then, and nothing on the host changes. |
| InstallTransactions.InstallTransaction.Healthy | install/install_transaction.py:1182-1187 | HEALTHY is written exactly from PREPARED. |
| InstallTransactions.InstallTransaction.Commit | install/install_transaction.py:1212-1225 | Commits exactly from HEALTHY, leaves no marker, and writes no file: targets stay, and the database changes only by the running application's hand. |
| InstallTransactions.InstallTransaction.RemoveDatabaseSidecars | install/install_transaction.py:928-942 | Removes every sidecar and nothing else. |
| InstallTransactions.InstallTransaction.RestoreDatabase | install/install_transaction.py:1031-1060 | On success main file and sidecars together are the backup. |
| InstallTransactions.InstallTransaction.Restore | install/install_transaction.py:1018-1029 | On success every target equals its snapshot. |
| InstallTransactions.InstallTransaction.FinishServices | install/install_transaction.py:1087-1105 | From any crash point: pending marker, active marker, units, pending marker, in that order at every recorded moment; no target changes, and the database only by the running application's hand. |
| InstallTransactions.InstallTransaction.Undo | install/install_transaction.py:1154-1177 | Restores all or leaves a recoverable state. Over all recorded moments: a target changes only while stopped, after the database; the main file only while stopped and without sidecars; so the old release never stands beside the new database. |
| InstallTransactions.InstallTransaction.Recover | install/install_transaction.py:1107-1180 | From any reachable state: fails only with the host, leaves no marker. After HEALTHY it ends COMMITTED and writes no file; before it, RESTORED with every target equal to its snapshot, and once PREPARED was reached the database was too, from the moment it was handed over to the application. Over all recorded moments: that order, units start only with the active marker clear and a finished transaction pending, and the marker is cleared only when everything is settled. |
| UpdateSafety.StepKeepsInv | install/update_runtime.py:148-311 | Every step of driver, packages and recovery keeps tools and packages consistent with both journals. |
| UpdateSafety.OwnIsKept | install/apt_transaction.py:926-944 | Retention never deletes the package transaction of a running update, because it is the newest. |
| UpdateSafety.DecisionIsStable | install/update_runtime.py:444-456 | Once the driver is gone no step changes what recovery decides. |
| UpdateSafety.EveryRecoveryDecidesTheSame | install/update_runtime.py:420-477 | Across any number of crashes inside recovery every re-run keeps or discards alike. |
| UpdateSafety.JournalsAgree | install/update_runtime.py:420-477 | Whenever the runtime journal is cleared, the tools are the target release with every planned upgrade, or the previous release with every package as before and no candidate left; both markers are gone. |
| UpdateSafety.CurrentIsNeverDeleted | install/update_runtime.py:295-311 | The release that `current` points at exists at every moment of every run. |
| UpdateSafety.CommitsAreOrdered | install/daily-update.sh:425-427 | A committed runtime journal implies committed packages. |
| UpdateRuntimes.AptTransaction.Prepare | install/apt_transaction.py:420-645 | Publishes a plan whose old side is what is installed, directory first and marker second; an empty plan publishes nothing. |
| UpdateRuntimes.AptTransaction.Apply | install/apt_transaction.py:743-801 | On success the transaction is APPLIED, which means every planned package is on its new side; refused exactly for an active transaction that is not PREPARED. |
| UpdateRuntimes.AptTransaction.Install | install/apt_transaction.py:771-795 | On success every planned package is on the wanted side; a failure may leave a mixture, and nothing but packages changes. |
| UpdateRuntimes.AptTransaction.BeginValidation | install/apt_transaction.py:803-811 | VALIDATING is written only from APPLIED; nothing happens without a transaction. |
| UpdateRuntimes.AptTransaction.Rollback | install/apt_transaction.py:820-881 | On success the transaction is closed with every planned package on its old side; a failure, of the first state write too, stays recoverable. |
| UpdateRuntimes.AptTransaction.Recover | install/apt_transaction.py:883-902 | Closes the active transaction from whatever state a crash left. |
| UpdateRuntimes.AptTransaction.Commit | install/apt_transaction.py:904-918 | Commits only a verified new side, refused exactly for an active transaction in another state; then no transaction is active. |
| UpdateRuntimes.AptTransaction.Prune | install/apt_transaction.py:926-944 | Deletes only finished transactions beyond the newest ones, never the running update's. |
| UpdateRuntimes.AptTransaction.Finished | install/apt_transaction.py:927-940 | The finished transactions, each once, newest first. |
| UpdateRuntimes.RuntimeJournal.Begin | install/update_runtime.py:148-189 | Starts a journal on the current release, refused exactly beside an unfinished one. |
| UpdateRuntimes.RuntimeJournal.SwitchTools | install/update_runtime.py:278-292 | The link is replaced by a release that exists: the target if kept, the previous one if not. |
| UpdateRuntimes.RuntimeJournal.RemoveStagedCandidate | install/update_runtime.py:295-311 | Deletes the candidate of an undone update and no other release. |
| UpdateRuntimes.RuntimeJournal.RecoverPackages | install/update_runtime.py:447-461 | Decides from both journals, takes the tools back before the packages, and the decision outlives the package recovery. |
| UpdateRuntimes.RuntimeJournal.FinishTools | install/update_runtime.py:463-477 | Takes the tools forward or deletes the candidate, and clears the journal with both sides agreeing. |
| UpdateRuntimes.RuntimeJournal.Recover | install/update_runtime.py:420-477 | From any reachable state: both sides forward or both as before, by the decision at its start; a failure keeps journal and decision. |
| UpdateRuntimes.DailyUpdate.CommitBoth | install/daily-update.sh:425-427 | Healthy runtime, committed packages, committed runtime, in that order. |
| UpdateRuntimes.DailyUpdate.Update | install/daily-update.sh:221-430 | One update with failures anywhere, followed by its recovery, leaves no journal and both sides agreeing. |
| AptGuards.CheckLine | install/apt_transaction.py:974-1022 | One line is accepted exactly when it is blank, configures, or unpacks the verified archive of a planned upgrade with its exact old and new identity. |
| AptGuards.CheckActions | install/apt_transaction.py:972-1029 | The loop approves exactly the lists whose every line is acceptable and which unpack every planned package. |
| AptGuards.GuardApt | install/apt_transaction.py:946-1030 | Approval exactly for an APPLYING transaction, protocol version 3, a terminated header and such a list. |
| AptGuards.GuardImpliesPlan | install/apt_transaction.py:946-1030 | Carrying out any approved list on packages that agree with the plan's old side gives the new side of every planned package and changes no other. |

## Left out

- SQL text, JSON and TOML encoding, ownership, mode, link and mount checks, fsync and Windows calls lie below the model's atomic steps; `os.replace`, `atomic_write` and a SQLite transaction are one step each.
- systemd, dpkg, apt, git, ffmpeg and the doctor are reduced to success or failure; unit enablement, timers and APT marks are not modelled.
- `_validate_domain_guard` (src/bdencode/maintenance.py:972-1053) refuses further publications by the state of their subject. It looks at no target, so what is proved about publications holds for those it admits; where it would refuse a late one the model publishes it.
- A write from outside spares the original and parking paths of unfinished operations and the parking names of measured targets: nobody but the journal touches those. An original that is only measured may be written; `MaintenanceHistory.Undisturbed` names the runs in which it is not.
- Targets of one maintenance operation are assumed not nested: the model's filesystem has no hierarchy, and StoragePaths.NestedTargets says exactly which pair `begin` lets through.
- Recursive deletion is one step in the maintenance protocol; StorageTree and HalfDeleted treat the interrupted one.
- A check and the rename or deletion that follows it are one step, as is one measurement, so two threads are not interleaved within them; the failures of SharedJournal and LatePublication need no such interleaving.
- MaintenanceJournals.MaintenanceJournal.Recover: its guarantees assume two things the code does not check, that nobody else is inside what it can claim, and that no publication was late; SharedJournal.ClaimIsHarmlessIffAlone and LatePublication.OvertakenIsStranded show that no weaker conditions would do.
- MaintenanceHandlers.RemoveTargets: others act between its measurements only; what they can do after its publication is stated for the machine.
- ClientRuns.ClientRunsAreProper: it says what clients must do; the source does not serialise the requests of one subject, nor keep a second recovery off a journal in use.
- Exceptions of a handler after its domain commit are not modelled; the committed row then waits for recovery, as after a failed finalization.
- The order of a recovery pass (by creation time) is left open: the theorem holds for any order.
- Release-preparation checks of job deletion, list queries, artifacts, migrations and messages of events are not modelled; a job identifier is chosen by the caller and refused if in use.
- JobProtocol.EncodeTimeOfAReachableJob: the wall clock is assumed never to go back between two lines of the log; the source stores whatever the clock says.
- UpdateSafety.OwnIsKept: the newest transaction is the one changed last; the source sorts by directory modification times, which are assumed never to go back.
- JobDatabases.Database.TransitionJob: the version test before a cancellation reads in its own transaction; the model runs both as one step, and the cancellation alone is a step of the machine as well.
- EncodeSeconds.EncodeSeconds: the result is in clock ticks (microseconds); the final division to seconds is not modelled.
- CrfSearches.CrfSearch.Record: CRFs are counted in quarter steps, which is exact for every value the search proposes; other values are not representable.
- CrfSearches.CrfSearch.NextCrf: scores are exact reals; floating-point rounding of scores and slopes is not modelled.
- SampleWindows.PlanSampleWindows: exact arithmetic instead of floating point for the skip fraction, the rate and the centres.
- InstallTransactions.InstallTransaction.Prune: which finished transactions are the newest is left open, except that the one just finished is kept.
- Between the snapshot and PREPARED nothing else is assumed to change the managed targets, and while an active transaction is being restored nothing starts the application by hand.
- UpdateRuntimes.RuntimeJournal.Recover: a package transaction active without a runtime journal, which the driver's order excludes, is not modelled (the source treats it in install/update-recover.sh:127-160).
- UpdateRuntimes.RuntimeJournal.Begin: the commands of the two helpers are specified at the points where the driver calls them; that the driver does call them there is proved by UpdateRuntimes.DailyUpdate.Update.
- UpdateRuntimes.AptTransaction.Install: the packages of a plan are installed one at a time in any order; dependency handling is dpkg's.
- AptGuards.GuardApt: hook lines are taken as already split into words, and resolving an archive path is a lookup.
- FastAPI routing, the frontend, the AI adviser, secrets, release preparation, configuration upgrade, mux, audio, chapters, previews and profile stores are plumbing or would add only easy members.
