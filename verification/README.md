# Drivebound: catalogue, journal and transfer protocols

Drivebound stores photos and files as immutable revisions in a catalogue, mirrors them to replica drives, lets
clients synchronize through a per-root journal, and deletes accounts with a leased background job. This project
models those parts as state machines and as the methods that change their rows, and proves what holds over every
run of them.

| modules | part |
|---|---|
| Options, Numbers, Sets, Revisions, Catalog | shared values and counting, revision names, asset rows with their constraints and transitions |
| Journal, JournalInvariants, JournalRuns, Histories, RevisionIdentity | the sync journal, its replay, and whole runs mixed with uploads, lifecycle steps, purges and deletion |
| SyncRequests, LifecycleRequests | what a client is told of these requests in rows alone: when each is granted and what it then changes |
| JournalService | the same requests as methods on mutable rows, each proved to reach the specified state and to do what the client is told |
| References, Collector | which rows name an object, and the purge of one asset as a mark and sweep |
| PathLocks, Retention | publishers and collectors interleaved at every lock, check, file and commit step |
| Replication, Rebalancing, LostCommits | verified copies, one turn of rebalancing and what it can cost, the whole loop, and its one commit |
| Restoration | restoring an original from the first replica that is really valid |
| DeletionJob, DeletionOutcomes, DeletionWorker, NamespaceSweep | the deletion job: leases, fencing, batches, retries, progress, the reason of each outcome, and the sweep before completion |
| Suppression, SuppressionLedger | the marker ledger that outlives crashes and restored dumps |
| ResumableTransfer, UploadServer, MobileUpload, SharedSessions | the browser's and the phone's upload loops, against any server, against the real one, and with other clients on the session |
| TransferQueue, ClaimRuns, LibraryScans, QueueRequests, TransferStore | the phone's leased queue, what its calls do to the rows, how long a run can go on claiming, the scan under the run lock, and the run itself |

Conventions: a committed transaction is one step unless the module interleaves its parts (PathLocks); a rollback
restores rows but not files; identifiers are fresh; digests and keyed fingerprints are injective; clocks, storage
policy and network behaviour are inputs. A class holds the fields the source mutates, a `View()` or `Row()` gives
their value, and its methods are proved against functions on that value.

## Results that the code does not meet everywhere

Each is proved with the exact condition under which the property holds.

- Restore after the deadline. The `purging` state is only flushed, not committed, before files are unlinked, so a
  purge that dies leaves the row trashed with its bytes gone, and a restore does not look at `purge_after`.
  `Retention.KeptRowsHaveBytes` holds for restores before the deadline; `Retention.LateRestoreMayLoseBytes` shows
  the loss for every later one.
- Readability of the marker ledger. Two deletion requests of one account that both passed authentication write two
  markers if the first commit is lost. `Suppression.MarkerKeepsReadable` gives the condition,
  `Suppression.LostCommitLocksEverybody` the consequence.
- Rebalancing. The query for an existing replica looks at the drive column alone, so a copy that a row without a
  drive already names at the destination is adopted and the old one unlinked: `Replication.DefaultRowCostsACopy`.
  `Replication.TurnCosts` says exactly when a turn costs its own asset a copy, `Replication.TurnSparesOthers` when
  it costs another one, and `Rebalancing.Balancer.RebalanceReplicas` that the loop costs nobody any when no
  destination is a copy yet and contents agree.
- Rebalancing and a lost commit. Objects are unlinked before the one commit of the whole pass.
  `LostCommits.LostCommitCosts` says when a commit that fails leaves an asset fewer copies,
  `LostCommits.LostCommitOfASmoothPass` says it of what can be seen before the pass, and
  `LostCommits.SharedCopyIsLost` shows two turns losing what neither loses alone.
- The reference check and repointed replicas. The check does not see the committed version of a replica row that the
  same transaction has repointed, which happens when another worker has placed the copy between the balancer's query
  and its own: `PathLocks.CollectorFreesNothingNamed` has the exact condition,
  `Retention.AbortedRepointingLosesTheObject` the loss. The condition holds when the old object of a row is not the
  one its asset has on the other drive, as with drive roots that do not overlap.
- A completed upload on the phone. A session resumed with all bytes received is called complete without the empty
  PATCH that publishes it: `MobileUpload.UploadedMeansPublished`.
- The end of the phone's upload loop. Its 409 branch has no stall limit, so a session that is no longer active holds
  it for ever: `MobileUpload.ConflictsForever`. `MobileUpload.EndsExactlyWhenActive` gives the condition, and
  `MobileUpload.ResumeUpload` the bound on the rounds under any faults. The phone resumes active sessions only, so
  another PATCH must come in between: `SharedSessions.EarlierPatchHoldsThePhone`, and the condition at any point of
  the loop in `SharedSessions.EndsExactlyWhenActiveStill`.
- The length of the phone's claim loop. Leases of dead runs can run out while a run is on, so the queued and waiting
  rows alone bound its claims exactly when no row of the scope is uploading:
  `ClaimRuns.WaitingRowsBoundTheClaims`. All unfinished rows always do, and the bound is reached:
  `ClaimRuns.ClaimsAreBounded`, `ClaimRuns.BoundIsReached`.
- Immutability. A revision that stands alone in its history can be moved to another one by an upsert:
  `Histories.RevisionsAreImmutable` says which, and `RevisionIdentity.RevisionKeepsIdentity` that no run changes a
  revision that always has a companion.

Other points where the code is followed as written: deleting an unknown logical id creates an item that is not
marked deleted; the first operation on a logical id accepts any base revision; a `queued` deletion job can be
claimed before its next attempt date; `renewBackupRun` asks for the owner and not for the expiry, and acquiring any
lock clears every lock that has run out; a row that is locked elsewhere and skipped does not count as no row, which
only costs a round; a restore whose timestamp or clean-up fails after the replace is reported as failed although the
verified original is in place.

## Model

| member | source | states |
|---|---|---|
| Revisions.RevisionNamesItsCursor | backend/app/services/sync.py:54-55 | two revision names are equal only when they were issued at the same cursor, whatever the operation ids |
| Catalog.HighestVersion | backend/app/services/sync.py:76-78 | the version found is an upper bound of the history and attained, or zero for an empty history |
| Catalog.ActiveTarget | backend/app/services/sync.py:79-85 | finds an active revision of the history exactly when there is one |
| Catalog.TrashKeeps | backend/app/services/lifecycle.py:156-183 | trashing keeps every table constraint and no row changes account, history, version or content |
| Catalog.RestoreKeeps | backend/app/services/lifecycle.py:186-219 | restoring never makes a second active revision |
| Catalog.RollbackKeeps | backend/app/services/lifecycle.py:222-270 | rolling back keeps every table constraint |
| Catalog.RollbackActivates | backend/app/services/lifecycle.py:249-270 | after a rollback the target is the one active revision of its history |
| Catalog.StageKeeps | backend/app/services/account_deletion.py:280-290 | marking a whole account as purging keeps every table constraint |
| JournalInvariants.ReuseBranchUnreachable | backend/app/services/sync.py:113-121 | with the constraints in force the branch that clones an older revision of the same item cannot be taken |
| JournalInvariants.ApplyItemKeepsConstraints | backend/app/services/sync.py:58-131 | an item operation leaves at most one active revision per history, positive unique versions and the retention rule, and takes fresh ids for new rows |
| JournalInvariants.ApplyItemKeepsItems | backend/app/services/sync.py:93-138 | the item points to an asset of its own account and logical id, and every other item keeps pointing to one |
| JournalInvariants.ItemFollowsReplay | backend/app/services/sync.py:127-175 | a reader replaying the published payload gets exactly the item the server wrote, apart from purged assets |
| JournalRuns.ApplyOneKeeps | backend/app/services/sync.py:209-268 | one accepted, duplicate or conflicting input keeps the whole journal invariant and only extends the log |
| JournalRuns.ConflictKeeps | backend/app/services/sync.py:246-267 | a conflicting operation changes no item and no asset |
| JournalRuns.ResolveKeeps | backend/app/services/sync.py:274-344 | resolving a conflict either way keeps the whole journal invariant and only extends the log |
| JournalRuns.KeepLocalKeeps | backend/app/services/sync.py:313-339 | a kept operation is published at a new cursor where the replay still gives the item table |
| Histories.NextKeeps | backend/app/services/sync.py:178-345 | every journal, upload, lifecycle, purge and deletion step keeps the invariant and never loses or rewrites an applied operation |
| Histories.TablesAreReplays | backend/app/services/sync.py:223-268 | in every run each item table is the replay of the applied operations in cursor order apart from purged assets, and the constraints never fail |
| Histories.ReaderCatchesUp | backend/app/services/sync.py:223-230 | a reader at any earlier cursor gets the current table by replaying only the operations above it |
| Histories.HistoryIsLinear | backend/app/services/sync.py:234-246 | an applied operation is based on the revision of the operation applied before it on the item, unless it was kept explicitly |
| Histories.NoBaseAcceptedTwice | backend/app/services/sync.py:223-246 | no two operations accepted on existing items of a root name the same base revision |
| Histories.RetryChangesNothing | backend/app/services/sync.py:209-221 | resubmitting an accepted batch after any later steps changes no row |
| Histories.OpenConflictsPairOff | backend/app/services/sync.py:246-263 | in every run open conflicts and operations in status conflict correspond one to one |
| Histories.UpsertPromotes | backend/app/services/sync.py:66-131 | the upsert makes the uploaded content the one active revision of the item and, when attached, gives it the highest version |
| Histories.RevisionsAreImmutable | backend/app/services/sync.py:93-121 | an item operation changes no content and re-homes at most a revision that stands alone and that no item names |
| Histories.StagedAccountGainsNoRow | backend/app/services/sync.py:184-194 | once an account is disabled no journal, upload or lifecycle step ever gives it another revision |
| RevisionIdentity.RevisionKeepsIdentity | backend/app/services/sync.py:93-121 | over every run in which the revision always has a companion in its history it keeps account, logical id, version and checksum until it is purged |
| RevisionIdentity.GoneForGood | backend/app/services/lifecycle.py:374-378 | a purged revision never comes back under its id in any run |
| JournalService.MaxVersion | backend/app/services/sync.py:76-78 | the scan computes the highest version |
| JournalService.FindActive | backend/app/services/sync.py:79-85 | the scan finds the one active revision |
| JournalService.Latest | backend/app/services/sync.py:252-256 | the scan finds the operation last applied to the item |
| JournalService.Service.Promote | backend/app/services/sync.py:66-131 | the in-place promotion reaches exactly the specified rows, and its clone branch for older revisions is dead |
| JournalService.Service.ApplyItemOperation | backend/app/services/sync.py:58-175 | the three branches change the rows exactly as specified, and every refusal leaves all of them alone |
| JournalService.Service.ApplyOperation | backend/app/services/sync.py:209-268 | a new input is applied exactly when its item is absent or carries the base revision and the rows allow the request, and then its item and assets show the request; otherwise the one new conflict says which of the three things went wrong and points at the operation applied last; an input seen before changes nothing |
| JournalService.Service.ApplyOperations | backend/app/services/sync.py:178-271 | granted exactly for an active root of an enabled account; the inputs are recorded one after the other in the order of the batch, each as ApplyOperation says; every input is answered and exactly the opened conflicts are returned |
| JournalService.Service.ResolveConflict | backend/app/services/sync.py:274-345 | keep_remote always succeeds on an open conflict, rejects its operation and changes no cursor, item or asset; keep_local succeeds exactly when the rows allow the stored request, carries it out and publishes it at the next cursor with the revision of that cursor; the answer is recorded; every refusal changes nothing |
| SyncRequests.ChangedExactly | backend/app/services/sync.py:58-175 | an item operation goes through exactly when the rows allow it: an upsert of an active asset of the account to a path, a move of a live item whose asset is active, a delete of no item, of an item without asset, or of one whose asset is active with a retention of a day or more |
| SyncRequests.ChangeIsCarriedOut | backend/app/services/sync.py:66-175 | what goes through is carried out on that item and no other: an upsert shows the uploaded content as the one active revision under its own or, when the asset serves elsewhere, a new row; a move changes the path alone; a delete marks the item and puts its asset in the trash with its deadline |
| SyncRequests.OperationIsRecorded | backend/app/services/sync.py:209-268 | one round of the loop, told in rows alone: unseen inputs are applied exactly when up to date and admissible, and any other opens one conflict of the right kind |
| SyncRequests.LastAppliedPointsBack | backend/app/services/sync.py:252-256 | a conflict points at the applied operation with the highest cursor, and at none only when none was applied |
| SyncRequests.ResolutionIsSettled | backend/app/services/sync.py:274-345 | one resolution, told in rows alone: which answer it records, when it succeeds, and what it changes |
| JournalService.BatchIsRecorded | backend/app/services/sync.py:206-271 | the whole batch is a chain of states in which every input is recorded in its turn |
| JournalService.Service.TrashAsset | backend/app/services/lifecycle.py:156-183 | an active revision is trashed exactly when the retention is a day or more, with the deadline so many days from now; a trashed one stays as it is; nothing else changes |
| JournalService.Service.RestoreAssetFromTrash | backend/app/services/lifecycle.py:186-219 | succeeds exactly for a trashed revision of an enabled account whose history has no other active one; that row alone becomes active, with no trash date and no deadline |
| JournalService.Service.Deactivate | backend/app/services/lifecycle.py:249-260 | the loop supersedes exactly the other active revisions and reports whether there was one |
| JournalService.Service.RollbackAsset | backend/app/services/lifecycle.py:222-270 | succeeds exactly from an active revision to an active or superseded one of the same history of an enabled account; the target becomes active and every other active revision of the history superseded |
| LifecycleRequests.RestoreExactly | backend/app/services/lifecycle.py:186-219 | a restore, told in rows alone: when it is granted and the state the revision ends in |
| LifecycleRequests.RollbackExactly | backend/app/services/lifecycle.py:222-270 | a rollback, told in rows alone: when it is granted and which rows change |
| LifecycleRequests.IngestExactly | backend/app/services/ingestion.py:112-168 | an upload becomes version one of a new history unless the account has equal active content |
| LifecycleRequests.PurgeExactly | backend/app/services/lifecycle.py:279-283 | a row goes exactly when it is trashed or purging and its date has passed; items lose its name and nothing else |
| LifecycleRequests.StageExactly | backend/app/services/account_deletion.py:280-290 | staging a deletion disables the account and makes each of its revisions, and no other, due at once |
| References.PhysicalPathHasOtherReference | backend/app/services/lifecycle.py:26-100 | exact matches followed by the alias scan answer exactly whether some row that is not excluded, or any external original, names the same object |
| References.Aliases | backend/app/services/lifecycle.py:73-81 | the scan of one column finds an alias exactly when there is one |
| Collector.PurgeSession.SafelyUnlink | backend/app/services/lifecycle.py:103-135 | removes the object exactly when its path is usable and canonical and nothing else names it |
| Collector.PurgeSession.PurgeReplicas | backend/app/services/lifecycle.py:294-331 | succeeds exactly when every path of the replica rows is usable and canonical; then their objects are gone or still named by a remaining row, and nothing of another row is touched |
| Collector.PurgeSession.SafelyPurgeAsset | backend/app/services/lifecycle.py:273-378 | purged exactly when the row is trashed or purging, its date is set and not after now, and every path its rows hold is usable and canonical; a row that is not due changes nothing; a success is one mark and sweep of everything the asset holds; a failure removes only a part of that, leaves no object that only a removed replica row named, and keeps the row, marked as purging |
| Collector.PurgeSession.HeldUnlinkable | backend/app/services/lifecycle.py:294-372 | everything the asset holds can be unlinked exactly when it can column by column: each replica and its sidecar, the managed original, the thumbnail and the preview |
| Collector.PurgeLeavesNoOrphan | backend/app/services/lifecycle.py:279-283 | after the sweep every held object that remains is named by a remaining row or is an external original |
| Collector.PurgeFreesNothingNamed | backend/app/services/lifecycle.py:34-40 | the sweep removes nothing that a remaining row names and no external original |
| PathLocks.CheckClears | backend/app/services/storage.py:20-28 | a reference check on the rows the collector sees also covers the rows it cannot see, because whoever is about to name the object holds its lock or the lock of a row naming it; the one exception is the committed version of a replica row the collector itself has repointed |
| PathLocks.NextKeeps | backend/app/services/ingestion.py:128-168 | every lock, file, row, commit and abort step of publishers and collectors keeps the locking invariant |
| PathLocks.CollectorFreesNothingNamed | backend/app/services/lifecycle.py:124-135 | under every interleaving an object about to be unlinked is named by no committed or pending row but those being collected, and is no external original whose row is still there, exactly when no replica row repointed in the same transaction named it |
| PathLocks.CloneKeeps | backend/app/services/sync.py:22-39 | a clone of a live, locked revision keeps the locking invariant although it takes no path lock |
| PathLocks.AdoptKeeps | backend/app/worker/tasks.py:857-879 | a restored external asset gets its managed original under the path lock and lets go of the external one without breaking the locking invariant |
| PathLocks.InsertKeeps | backend/app/services/replication.py:140-171 | publishing under the path lock keeps the locking invariant, so no collector has cleared the path |
| Retention.KeptRowsHaveBytes | backend/app/services/lifecycle.py:285-292 | while restores are in time every live or still retained revision has all its bytes under every interleaving, crash and retry |
| Retention.RestoreInTimeFindsBytes | backend/app/services/lifecycle.py:186-219 | a restore before the deadline finds all the bytes |
| Retention.LateRestoreMayLoseBytes | backend/app/services/lifecycle.py:204-215 | from the deadline on, one purge that dies before its commit and one restore leave a live revision without its bytes |
| Retention.AbortedRepointingLosesTheObject | backend/app/services/replication.py:161-282 | a transaction that repoints a replica row, collects the old object and dies leaves the row naming an object that is gone |
| Retention.PublishingSucceeds | backend/app/services/ingestion.py:128-168 | undisturbed, a publication leaves its object and its row |
| Retention.WholePurgeSucceeds | backend/app/services/lifecycle.py:273-378 | undisturbed and due, a purge removes the row and the object that only it named |
| Retention.NotRemovedEarly | backend/app/services/lifecycle.py:381-418 | unless its own account is deleted a live revision stays at least a day and a trashed one until its deadline, whatever else happens |
| Retention.PurgingIsFinal | backend/app/services/lifecycle.py:243-246 | a purging revision is never anything else again |
| Rebalancing.Balancer.CopyVerified | backend/app/services/replication.py:118-137 | ends with verified content exactly when the destination was valid or a valid copy was made, also when the written object is garbled, and touches nothing but the destination |
| Rebalancing.Balancer.UpsertReplica | backend/app/services/replication.py:140-171 | the copy, its sidecar and the row, new or repointed, are exactly the specified ones in every failure of the copy or the sidecar |
| Replication.UpsertCosts | backend/app/services/replication.py:140-171 | placing a copy leaves its asset fewer valid copies exactly when it repoints a row whose own copy lay elsewhere and was named by no other row of the asset, and the destination was a copy already |
| Rebalancing.Balancer.MoveReplica | backend/app/services/replication.py:254-287 | one turn of the loop reaches exactly the specified rows and files wherever it fails |
| Replication.TurnIsDone | backend/app/services/replication.py:254-287 | a turn, told in rows and files alone: it moves the row exactly when the object is there, the asset is not on the other drive and neither copy, sidecar nor removal fails; then the new row names a valid copy and the old object and sidecar are gone unless something else names them |
| Replication.TurnCosts | backend/app/services/replication.py:254-287 | a turn, however it ends, leaves its asset fewer valid copies exactly when it loses the copy at the old place and the destination held one already |
| Replication.TurnSparesOthers | backend/app/services/replication.py:122-131 | a turn, however it ends, costs another asset a copy exactly when its destination held that copy with other content, the turn got to replacing it, and the copy was not garbled into the very same content |
| Rebalancing.Balancer.RebalanceReplicas | backend/app/services/replication.py:254-288 | the loop reaches exactly the specified rows, files and count of moved rows, whatever fails at whatever row; when no destination is a copy of its asset yet and what meets at a destination is equal content, no asset has fewer valid copies |
| Replication.LostCommitCosts | backend/app/services/replication.py:268-282 | for a pass that moves one row, whatever rows name the destination: a lost commit costs the asset a copy exactly when the old place, not the destination, held one that nothing else names, and no stale row of the asset names the destination |
| LostCommits.ObjectAfter | backend/app/services/replication.py:254-288 | after any turns of a pass an object beside its destinations is gone exactly when nothing but catalogue rows named it and the turn of one of them got to it after all others had been moved |
| LostCommits.LostCommitCosts | backend/app/worker/tasks.py:1209-1210 | when the one commit after the whole pass is lost an asset has fewer valid copies exactly when the pass has unlinked one of them, whatever stopped its turns |
| LostCommits.LostCommitCostsMovedCopies | backend/app/worker/tasks.py:1209-1210 | when no turn stops between object and sidecar that is exactly when some copy was named by moved rows only |
| LostCommits.LostCommitOfASmoothPass | backend/app/services/replication.py:240-253 | before a pass in which nothing fails: exactly the assets with a copy that only rows of the pass name lose one with the commit |
| LostCommits.SharedCopyIsLost | backend/app/services/sync.py:93-121 | a clone and its source share one object: both turns rolled back together leave two rows without it |
| LostCommits.SharedCopySurvivesOneTurn | backend/app/services/replication.py:266-281 | either of these turns rolled back alone costs neither asset its copy |
| Replication.DefaultRowCostsACopy | backend/app/core/config.py:34-38 | a row written before any drive was configured, and a drive added later on the default root: rebalancing to that drive turns two valid copies into one |
| Restoration.Disk.CopyVerifiedReplica | backend/app/worker/tasks.py:715-752 | each verdict has its one ground: no file, unreadable, other content, gone while copied, copied wrongly, a destination that fails, or a sound candidate; the destination changes only to verified content |
| Restoration.Disk.RestoreFromCandidates | backend/app/worker/tasks.py:755-770 | restored exactly when the first candidate that is not unusable is usable, which is the chosen one; the failures are those before it, in order, each for its own ground; the destination is as it was or has verified content |
| Restoration.SucceedsExactlyWithAValidCopy | backend/app/worker/tasks.py:755-770 | without trouble a restore succeeds exactly when some candidate holds the expected content |
| Restoration.SucceedsUnlessAborted | backend/app/worker/tasks.py:763-769 | with any troubles a restore succeeds exactly when some candidate is usable and none before it aborts |
| DeletionJob.RunKeeps | backend/app/services/account_deletion.py:467-652 | in every run the lease is set exactly while the job runs, each upload and asset is counted once, and completion leaves no upload, asset or account row |
| DeletionJob.TerminalForever | backend/app/services/account_deletion.py:329-338 | a completed or manual-review job record never changes again |
| DeletionJob.SupersededWorkerChangesNothing | backend/app/services/account_deletion.py:474-481 | a worker whose token was superseded or given up changes nothing at any later time |
| DeletionJob.DueIsClaimable | backend/app/services/account_deletion.py:655-671 | every listed job can be claimed |
| DeletionJob.BecomesDue | backend/app/services/account_deletion.py:655-671 | an open job is listed exactly from the latest of not-before, next attempt and lease expiry on; earlier only a queued delivery can claim it |
| DeletionJob.RetryDelayGrows | backend/app/services/account_deletion.py:322-326 | delays never shrink with more failures and stay between the smaller of base and maximum and the maximum |
| DeletionOutcomes.RetryDelayDoubles | backend/app/services/account_deletion.py:322-326 | the delay is the base, doubles with each failure up to the eleventh attempt, and never exceeds the maximum |
| DeletionOutcomes.FailedRoundIsRetried | backend/app/services/account_deletion.py:620-641 | a round that raises loses no row and no subject, leaves the job open with one failure more, and makes it due exactly when the delay is over or its first date has come |
| DeletionOutcomes.ReviewNeedsAPath | backend/app/services/account_deletion.py:531-618 | in every run a job comes before a person only if some round met a path that must be kept, and its count then says so; failures never bring it there |
| DeletionOutcomes.RoundIsExplained | backend/app/services/account_deletion.py:473-643 | each verdict of a round has its one reason and its one effect on the rows, in fields alone |
| DeletionOutcomes.BatchIsExplained | backend/app/services/account_deletion.py:467-652 | a batch is a chain of rounds, each with its reason, up to the first that ends it, or the hand-back |
| DeletionJob.CleanBatch | backend/app/services/account_deletion.py:473-652 | an undisturbed batch removes one row a round and completes the job exactly when it has a round to spare |
| DeletionJob.CompletesInExactly | backend/app/services/account_deletion.py:473-652 | with N rows and batches of B rounds the job is completed exactly from the delivery number N/B + 1 on, however far apart the deliveries are |
| NamespaceSweep.LivePathsAreTheReferencedOnes | backend/app/services/account_deletion.py:359-369 | the set of live paths built up front answers exactly the reference check made before every unlink |
| NamespaceSweep.SweepAccountNamespaces | backend/app/services/account_deletion.py:388-464 | goes through exactly when every file that nothing names can be unlinked; then exactly the files it met that nothing names are gone, and the count is the number of entries left; one that stops early has removed only such files |
| NamespaceSweep.NothingRetainedNothingLeft | backend/app/services/account_deletion.py:578-609 | a sweep that retains nothing, which completion needs, leaves none of the files it met |
| DeletionWorker.Store.ClaimAccountDeletionJob | backend/app/services/account_deletion.py:329-348 | claims exactly an open job whose dates have come, or a published one whose first date has, unless a worker holds an unexpired lease; a claimed job runs under the drawn token for one lease and counts the attempt |
| DeletionWorker.Store.ProcessRound | backend/app/services/account_deletion.py:473-643 | each verdict only for its reason and with its whole effect: retry for a round that raised, review only with a path that must be kept, completion only with no row and no file left, and otherwise one row fewer, counted, under a fresh lease |
| DeletionWorker.Store.ProcessAccountDeletionBatch | backend/app/services/account_deletion.py:467-652 | the rounds one after the other, each as ProcessRound says, until one ends the batch; a worker that still holds the lease then hands the job back, due at once |
| DeletionWorker.Store.RecordAccountDeletionPublish | backend/app/services/account_deletion.py:674-700 | a published job is queued and due again after one lease, a failed publication counts a failure and waits out its delay, and a job that runs or has ended is left alone |
| Suppression.DeniedForever | backend/app/services/account_deletion.py:172-184 | access is denied from the moment a marker is durable through crashes, restored dumps and administrator recovery |
| Suppression.DeletionGoesThrough | backend/app/services/account_deletion.py:187-297 | a deletion request of an account with access leaves one marker and one job of its date, the account disabled, and all else as it was |
| Suppression.NewAccountHasAccess | backend/app/services/account_deletion.py:172-184 | an account that registers can sign in as long as the ledger can be read |
| Suppression.ReconcileRestoresIntent | backend/app/services/account_deletion.py:295-319 | in every run reconciliation disables every surviving marked account and gives it a job, except one that an open deletion of its own holds, leaves the others untouched, and a second one changes nothing |
| Suppression.MarkerKeepsReadable | backend/app/services/account_deletion.py:146-168 | a new marker keeps the ledger readable exactly when no marker of the subject stands under another job id |
| Suppression.LostCommitLocksEverybody | backend/app/api/v1/auth.py:1206-1275 | two authenticated deletion requests of one account, the first losing its commit, leave a ledger with which nobody can sign in and nothing reconciles |
| Suppression.OneAtATimeStaysReadable | backend/app/api/v1/auth.py:1206-1221 | while deletion requests of an account come one at a time the ledger stays readable in every run |
| SuppressionLedger.Registry.ReadMarkers | backend/app/services/account_deletion.py:133-169 | the loop accepts the ledger exactly when no subject has two job ids, in any file order |
| SuppressionLedger.Registry.SubjectIsDenied | backend/app/services/account_deletion.py:172-184 | answers exactly whether a marker names the subject, and fails exactly when the ledger is unreadable |
| SuppressionLedger.Registry.PrepareAccountDeletion | backend/app/services/account_deletion.py:187-292 | stages one job per subject and returns the existing one unchanged |
| SuppressionLedger.Registry.ReconcileSuppressionLedger | backend/app/services/account_deletion.py:295-319 | one pass in any file order reaches exactly the reconciled database, past the accounts held by open deletions, and names exactly the jobs it created; an unreadable ledger changes nothing |
| ResumableTransfer.FinishTransfer | frontend/app/resumable-transfer.ts:12-67 | against any server: a normal return means status complete with the whole file, at the initial check too, a report of completion below that always fails, and each other error has its one reason in what the server answered; the offsets shown are the ones it acknowledged |
| ResumableTransfer.TransferTalks | frontend/app/resumable-transfer.ts:24-67 | every outcome is decided by the talk with the server: active sessions with sound numbers while it goes on, and one ground for its end |
| ResumableTransfer.TransferBound | frontend/app/resumable-transfer.ts:23-66 | against any server at most 3 (size - initial offset + 1) PATCH requests are made, and none from an invalid session |
| ResumableTransfer.BoundIsReached | frontend/app/resumable-transfer.ts:58-64 | some server makes the loop use the whole bound, for every file and every initial offset |
| ResumableTransfer.ProgressAscends | frontend/app/resumable-transfer.ts:50-53 | offsets shown to the user never go back and never leave the file |
| UploadServer.PatchKeeps | backend/app/api/v1/uploads.py:188-267 | whatever is lost of a request or its reply, the committed bytes stay a prefix of the file and no completion is claimed that did not happen |
| UploadServer.PatchExactly | backend/app/api/v1/uploads.py:188-267 | what one request of any client does: when its bytes are committed, and when the session is complete, failed or expired |
| UploadServer.AnyClientIsVerified | backend/app/api/v1/uploads.py:241-252 | over any requests of any clients under any faults only whole files of the declared content are published, and what is published stays |
| UploadServer.TransferIsFaithful | frontend/app/resumable-transfer.ts:12-67 | a normal return means that the server is complete and has published exactly the file |
| UploadServer.TransferCompletes | frontend/app/resumable-transfer.ts:23-66 | after the last fault the transfer finishes, wherever lost replies left the client |
| UploadServer.TransferTakes | frontend/app/resumable-transfer.ts:27-58 | without faults the transfer takes exactly as many requests as whole or partial chunks are missing |
| MobileUpload.ResumeUpload | mobile/src/backup.ts:261-320 | resumed at the offset of the server, the chunk loop ends within as many rounds as bytes are missing under any network faults, when the session is active or has all its bytes |
| MobileUpload.EndsExactlyWhenActive | mobile/src/backup.ts:286-299 | on a sound network the resumed loop ends if and only if the session is active or has all its bytes |
| SharedSessions.EndsExactlyWhenActiveStill | mobile/src/backup.ts:261-320 | in the middle of the loop, whatever another PATCH has done to the session, the loop ends on a sound network if and only if the session is still active or has all its bytes |
| SharedSessions.EarlierPatchHoldsThePhone | backend/app/api/v1/uploads.py:188-215 | a PATCH of an earlier run that expires the session in the middle of the loop, with bytes missing, holds the phone for ever |
| MobileUpload.FewConflictsEndTheLoop | mobile/src/backup.ts:286-299 | a loop that has met c conflicts is over after (c + 1) (size + 1) rounds |
| MobileUpload.ConflictsForever | mobile/src/backup.ts:287-297 | a server that keeps answering 409 with the same offset holds the phone in the loop forever |
| MobileUpload.HearsExactly | mobile/src/backup.ts:287-311 | each reply to a chunk, and the HEAD after a 409, has its one consequence: go on from the reported offset, done at the end of the file, restart for 404 and 410, or an error |
| MobileUpload.RoundsTaken | mobile/src/backup.ts:262-313 | without faults exactly n chunks are there after n rounds, until the file is |
| MobileUpload.UploadedMeansPublished | mobile/src/backup.ts:178-197 | an active unpublished upload that the phone calls uploaded is published exactly when bytes were still missing on resumption |
| MobileUpload.BrowserPublishesIt | frontend/app/resumable-transfer.ts:11 | on the same session the browser loop publishes the file |
| TransferQueue.LeaseExactlyWhileUploading | mobile/src/queue.ts:244-286 | in every run a row has a lease owner exactly while it is uploading, and unfinished rows have attempts left |
| TransferQueue.CompleteRowsStay | mobile/src/queue.ts:143-194 | a completed row is never claimed or changed by any run, command or scan unless another version of its photo is filed |
| ClaimRuns.ClaimsAreBounded | mobile/src/backup.ts:386-431 | no run claims more often than the unfinished rows of the scope have attempts left, for every clock and outcome |
| ClaimRuns.BoundIsReached | mobile/src/backup.ts:361-364 | with every upload failing retryably and the clock past every delay the loop makes exactly that many claims |
| ClaimRuns.WaitingRowsBoundTheClaims | mobile/src/queue.ts:249-256 | the attempts left in queued and waiting rows alone bound the claims for every clock and outcome exactly when no row of the scope is uploading |
| TransferQueue.LeaseIsExclusive | mobile/src/queue.ts:303-323 | whatever others do in any number of steps, a claimed row stays as its holder left it as long as nobody claims after the lease has run out |
| TransferQueue.LateClaimEndsTheLease | mobile/src/queue.ts:249-256 | a claim of another run in the scope ends the lease exactly when it has run out |
| TransferQueue.RunLockIsExclusive | mobile/src/queue.ts:196-242 | over every run of the queue the lock stays with its holder as long as it does not release it and renews it before anybody else asks for a lock |
| TransferQueue.RunLockPasses | mobile/src/queue.ts:196-242 | a step takes the lock from its holder exactly when it is the release of the holder or an acquisition by anybody else after expiry |
| TransferStore.Store.EnqueueTransfer | mobile/src/queue.ts:143-194 | files a photo once as a fresh row, lets an unfinished row follow the photo and a completed one stay, drops exactly the completed rows of its other versions, and reports which of the three it met |
| TransferStore.Store.AcquireBackupRun | mobile/src/queue.ts:196-218 | succeeds exactly when the scope is free, run out or already held by the run, which then has it for five minutes; every lock that has run out is cleared and no other changes |
| TransferStore.Store.ReleaseBackupRun | mobile/src/queue.ts:231-242 | leaves neither the lock nor any lease of the run in the scope; its uploads wait again, and no other row or lock changes |
| TransferStore.Store.FirstCandidate | mobile/src/queue.ts:257-264 | the row found comes first among all candidates, and none is found only when there is none |
| TransferStore.Store.ClaimNextTransfer | mobile/src/queue.ts:244-286 | claims a waiting row of the scope whose date has come, those tried before first and then the one untouched for longest, and none only when there is none; abandoned uploads wait again; the claimed row is leased for five minutes |
| TransferStore.Store.CancelPendingTransfers | mobile/src/queue.ts:383-391 | removes exactly the queued, waiting and failed rows of the scope and counts them |
| TransferStore.Store.Conclude | mobile/src/backup.ts:391-429 | an uploaded or skipped row is complete, a failure is final when trying again cannot help or at the eighth attempt and is otherwise retried after its delay, a blocked row is left; each is counted once under how it ended |
| QueueRequests.ClaimExactly | mobile/src/queue.ts:244-286 | a claim, told in rows alone: which row has its turn and what becomes of it and of abandoned ones |
| QueueRequests.EndExactly | mobile/src/backup.ts:391-429 | the end of an upload, told in rows alone |
| QueueRequests.DelayDoubles | mobile/src/backup.ts:361-364 | the middle of the delays is ten seconds after the first attempt and doubles up to the ninth, and every delay is within a fifth of it |
| TransferStore.Store.ClaimLoop | mobile/src/backup.ts:386-431 | for any clock and outcomes the loop claims a run of rows, within the attempts left in the unfinished rows of the scope, counts each upload once, and stops early only when something blocks it |
| LibraryScans.KeepsLockExactly | mobile/src/backup.ts:322-355 | the scan keeps its lock to the end exactly when no page outlasts the lease while another run asks for the lock |
| TransferStore.Store.ScanLibrary | mobile/src/backup.ts:322-355 | files the pages in order, renews the lock after each while other runs may ask for it, and ends with the page that lost it |
| TransferStore.Store.RunBackup | mobile/src/backup.ts:366-444 | nothing happens while another run holds the scope; policy and permission end it before the scan, a lost lock in the middle of it; otherwise it claims from the filed library; and afterwards neither lock nor lease of this run is left |

## Left out

- Histories.NextKeeps: statement order inside one transaction is not modelled, so the early flushes that keep the partial unique index satisfied between statements are not captured.
- Histories.StagedAccountGainsNoRow: uploads are modelled with a fresh logical id only; callers that pass one or force a new version are outside.
- Histories.TablesAreReplays: removing an account row, which cascades to its roots, is outside the runs; deletion is modelled up to the staged state and in DeletionJob.
- Collector.PurgeSession.SafelyPurgeAsset: an unlink fails exactly for paths marked unusable, and drives missing at the start are such paths; the audit trail and the list of retained legacy paths are not modelled.
- PathLocks.CheckClears: a transaction that takes an asset off an object commits before it checks that object, as the migration of legacy media does, so no schedule checks an object its own uncommitted asset row has just left.
- PathLocks.CollectorFreesNothingNamed: an external original is protected until the collecting transaction has itself deleted that row, as in the code; paths are taken in canonical form, aliases are the subject of References; staged uploads, whose names are fresh, are left out.
- Retention.KeptRowsHaveBytes: speaks of asset rows; a replica row may lose its object to a crashed collector and is then repaired by verification.
- Rebalancing.Balancer.RebalanceReplicas: the condition on the candidates is sufficient; what is exact is stated turn by turn in `Replication.TurnCosts` and `Replication.TurnSparesOthers`, since a later turn may make up for an earlier one.
- LostCommits.LostCommitCosts: a destination that a row of the asset names already must be a copy that a row outside the pass names, as rows of the default root do.
- Rebalancing.Balancer.MoveReplica: free space, drive scores and the limit only choose the drives and the rows; a storage guard that raises before anything is written is a turn not taken; the loop of `ensure_asset_replicas` over all targets is left out, its step is `Rebalancing.Balancer.UpsertReplica`.
- DeletionJob.CompletesInExactly: the delivery itself, that is the dispatcher and the broker, is an input.
- Suppression.ReconcileRestoresIntent: where the pass would wait for the row of an account that an open deletion holds, it goes on without that account, which a later pass takes up; damaged marker files, which make the ledger unreadable, and the removal of credentials are not modelled.
- ResumableTransfer.FinishTransfer: the pause between attempts, the wording of errors and a changing upload address are left out.
- MobileUpload.ResumeUpload: offsets are integers; policy blocks, heartbeats and bandwidth limits inside one upload are left out.
- TransferStore.Store.ClaimLoop: the bookkeeping updates during one upload keep state and attempts and are not repeated in the loop.
- TransferStore.Store.RunBackup: other runs ask for the lock during the scan; their steps during the uploads, and the renewals there, are the subject of the runs in TransferQueue.
- NamespaceSweep.SweepAccountNamespaces: the directory walk and the removal of emptied directories are inputs; its result enters the final round of DeletionJob as a number.
- Moving legacy media into per-account encryption appears only as its lock, rename and collect steps in PathLocks.
- The desktop client, the other API routes, cryptography, media processing, notifications, metrics, configuration and migrations.
- Crash atomicity of unencrypted originals, backups and recovery drills.
