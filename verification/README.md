# cyoda-go: a verified model

cyoda-go stores versioned entities, runs workflows over them inside
transactions, and answers searches and statistics about them. This project
models the parts of it that carry state, concurrency or algebra, and proves what
they keep over every run and every input.

`dafny verify dfyconfig.toml` checks the whole project (Dafny 4.11).

## What is modelled

- **The transactional store.** `Versions` is the append-only history of an
  entity and reads as at an instant. `Transactions` is one transaction: buffer,
  read and write sets, staged deletes, superseded values, savepoints. `TxSystem`
  is the whole system as a state machine whose events are the source's critical
  sections, so a commit is four events (mark, check, stamp, record) that other
  requests interleave with. `Manager` is the transaction manager as a class,
  with the source's loops, proved against those events.
- **What isolation means.** `Isolation` holds the invariant of every step and the
  theorems over every run: stable snapshots, atomic visibility, first committer
  wins, version numbers. `Rollbacks` says when a rollback discards. `Serial`
  proves that every concurrent run is equivalent to its committed transactions
  executed one after the other on a plain map. `Witnesses` gives concrete runs
  for each exception those theorems name.
- **Workflows and callbacks on top.** `Cascade` is the processor pipeline with
  its execution modes, nested savepoints and COMMIT_BEFORE_DISPATCH segments, and
  `Playback` ties it to the state machine: whatever others do in between.
  `Callbacks` is the point-in-time and conditional-delete processors.
  `MergePatch`, `IfMatch` and `Landings` are merge patches and version tokens over
  whole runs.
- **Async search jobs.** `SearchJobs` is the job store as a class, `JobLease` the
  lease protocol of one job over any number of nodes, `LeaseStore` the proof that
  the events of the second are the methods of the first.
- **The process.** `Shutdown` is the reaper, the Shutdown and Close callers, the
  run-once guards and the server group; `HardExit` the second-signal watcher;
  `EnvFiles` the layered environment; `Replaces` the go.mod replace scanner.
- **Queries.** `Conditions` is preparing and matching conditions, and NOT.
  `GroupKeys`, `Deviation` and `GroupedStats` are grouped statistics.
- **Codec.** `Annotations` is the workflow element annotations codec.

History variables live in datatypes of their own (`World`, `Trace`, the counters
of `Lease`), beside the modelled state and never read by it.

## What the proofs found

Where a promise does not hold of the code as it stands, the model keeps the code,
a lemma gives an input or run, and another states exactly when the promise holds.

- Commit does not look again at the closed flag after taking its locks, so a
  Rollback that overtakes a Commit already waiting does not discard the writes, not
  even when that Commit would conflict now, because the conflicting log entry can be
  pruned first (`RollbackDiscardsExactlyWhen`, `RolledBackYetVisible`,
  `PrunedConflictIsPublished`). The handlers never issue that
  pair: after a commit attempt a scope no longer rolls back.
- Writes outside any transaction are not in the conflict log, so a transaction
  can silently overwrite one (`PassedCheckIsFresh`, `DirectWriteLost`). One that
  repeats a version token can let two conditional writes land on it, and nothing
  else can (`OneLandingPerToken`, `TokenLandsTwice`).
- A conflict can be reported although nothing the transaction used has changed: with
  a write it saw, when it began between another commit's stamp and its log record, or
  with a write of another tenant that used the same id, because the log keeps no
  tenants (`ConflictIsRealExactlyWhen`, `ConflictWithWhatItSaw`,
  `ConflictAcrossTenants`).
- An entity saved again after a delete reuses the tombstone's version number
  (`NumbersRepeatExactlyWhen`, `NumberIsReused`).
- Rolling back to a savepoint after a rollback to an earlier one can lose the
  superseded versions it held, or panic, because lists are re-sliced in arrays that
  may have been replaced by shorter ones meanwhile (`RollbackRestoresExactlyWhen`,
  `RollbackPastLosesVersions`, `RollbackCanPanic`). Savepoints that nest, as those of
  processors do, are safe (`ScopesNeverPanic`).
- A delete by condition leaves a match in the transaction's view when somebody
  else committed its deletion after the snapshot (`ConditionalDeleteClears`,
  `MatchSurvives`).
- A job can suffer more losses than the cap: its reaper may be lost between claiming
  and failing it. No epoch claimed from the cap on is ever executed, and the job is
  failed at the cap exactly when no such claim came between (`PastTheCap`,
  `FailsAtTheCapExactlyWhen`, `LossesPassTheCap`).
- An execution already on its way starts although the job has ended meanwhile; it
  changes nothing (`StartsAfterTheEndExactlyWhen`, `StartsAfterCancel`).
- ClearResults is not fenced by epoch, so a reaper overtaken by a later claim can
  empty the results of a job that claim completed (`SuccessIsCompleteExactlyWhen`,
  `LateClearLosesResults`).
- The staleness check multiplies in 64 bits. Once four intervals overflow, its
  threshold is the wrapped product: the check is wrong for some duration
  (`AcceptsExactlyWhen`), and accepts every duration from zero up exactly for
  intervals from 2^61 to 2^62 and from 3 * 2^61 nanoseconds
  (`AcceptsAnythingExactlyWhen`).
- The replace scanner takes a block opener only with exactly one space, misses a
  keyword followed by a tab, lets a second space into the reported text, in a block
  misreads a module named `replace`, and after a closing parenthesis with a comment
  takes lines outside the block for entries (`BlockGapExactlyWhen`,
  `GapExactlyWhen`, `EntryExactlyWhen`, `ModuleNamedReplace`, `LayoutExactlyWhen`,
  `StrayIsReported`).
- Loading environment files twice can read files the first run did not
  (`SecondRunExactlyWhen`, `SecondRunCanChange`).
- The annotations codec drops a known member that is null, and additional
  properties named like a known member do not come back
  (`DecodeEncodeExactlyWhen`, `EncodeDecodeExactlyWhen`, `SetSurvivesExactlyWhen`).

## Model

| member | source | states |
|---|---|---|
| Versions.ReadAt | plugins/memory/entity_store.go:89-120 | the loop over an ordered history returns exactly the newest version stamped at or before the instant, none if that is a tombstone |
| Versions.AppendSavesExtends | plugins/memory/txmanager.go:598-666 | flushing superseded and buffered values appends one row each, in order, all with the transaction's id and stamp, and keeps every earlier row |
| Versions.LaterRowsInvisible | plugins/memory/entity_store.go:89-120 | rows stamped after an instant never change what a reader at that instant sees |
| Versions.BaseVersion | plugins/memory/txmanager.go:586-593 | the backward scan finds the version number of the newest live row, 0 if none |
| Isolation.NumbersRepeatExactlyWhen | plugins/memory/txmanager.go:586-708 | in every run the version numbers of an entity never go down, and two of its rows share one exactly when only tombstones lie from the first up to the second |
| Transactions.RollbackRestores | plugins/memory/txmanager.go:956-1046 | rolling back to a savepoint restores exactly the buffer, deletes, read set, write set and superseded values it was taken with, whatever was done and nested since |
| Transactions.RollbackRestoresExactlyWhen | plugins/memory/txmanager.go:956-1046 | over all states, whatever the lengths and capacities of the superseded lists, the rollback restores all work exactly when the arrays still hold, as a prefix, what the lists held when the savepoint was taken; a rollback that ends restores everything but those lists in any case |
| Transactions.LinearRollbackTruncates | plugins/memory/txmanager.go:1028-1042 | with savepoints that nest, the rollback neither panics nor exposes a slot never written, whatever the capacities, and truncates |
| Transactions.RollbackPastLosesVersions | plugins/memory/txmanager.go:1028-1042 | savepoints for which the superseded values do not come back, whatever the capacities |
| Witnesses.RollbackCanPanic | plugins/memory/txmanager.go:1028-1042 | a run after which the rollback to an open savepoint panics: it asks for three superseded values of a list that holds one |
| Transactions.DeleteAcceptedExactlyWhen | plugins/memory/entity_store.go:473-512 | with nothing committed since the snapshot, a delete is accepted exactly when the transaction sees the entity, or has already deleted a committed one |
| TxSystem.NextStamp | plugins/memory/txmanager.go:256-277 | every submit stamp is strictly past every earlier stamp and open snapshot, whatever the clock says |
| TxSystem.PruneKeeps | plugins/memory/txmanager.go:742-767 | pruning keeps every log entry some open transaction may still conflict with |
| Isolation.RunKeepsInv | plugins/memory/txmanager.go:287-816 | every run of begins, operations, savepoints, commits, rollbacks and direct writes in any interleaving keeps the invariant that ties log, baselines, stamps, snapshots and rows together |
| Isolation.SnapshotIsStable | docs/CONSISTENCY.md:19-21 | in every run during which a transaction stays open, what it sees of committed state never changes |
| Isolation.PassedCheckIsFresh | docs/CONSISTENCY.md:22-28 | when a commit passes its conflict check, an entity it read or wrote has no row past its snapshot exactly when no write outside a transaction touched it |
| Isolation.ConflictIsRealExactlyWhen | docs/CONSISTENCY.md:22-25 | an entity of its own tenant that the transaction read or wrote has a row past its snapshot exactly when some log entry of that tenant, stamped past it, refuses the commit, or a direct write touched the entity; an entry that refuses without such a row is of another tenant, or the transaction began inside its stamp-to-record window |
| Isolation.VisibilityIsAtomic | e2e/parity/callback_txjoin.go:16-34 | committed state changes only at a commit's record step, which publishes exactly that transaction's values and deletes at once and in its tenant, or by a direct write of that one key |
| Isolation.FinishedForGood | plugins/memory/txmanager.go:776-816 | a transaction that is finished never publishes anything in any later run |
| Isolation.WaitingCommitPublishes | plugins/memory/txmanager.go:437-774 | a commit waiting for the locks without a conflict goes on to publish all its writes |
| Rollbacks.RollbackDiscardsExactlyWhen | plugins/memory/txmanager.go:776-816 | after a rollback some run publishes the transaction exactly when a commit of it was already waiting |
| Rollbacks.WaitingCommitSurvives | plugins/memory/txmanager.go:437-774 | from every state the rolled-back transaction whose commit waits has a continuation that publishes all its writes, whatever conflicts stood against it |
| Serial.ReplayOverlays | plugins/memory/txmanager.go:578-708 | replaying a script on a plain map yields its saved values, hides its removals and leaves everything else, per tenant |
| Serial.CommitIsFaithful | plugins/memory/txmanager.go:455-491 | at its commit point what a transaction observed of an entity that no direct write touched is what the committed map would have answered |
| Serial.RunsAreSerial | docs/CONSISTENCY.md:41-63 | after every run, committed state is the committed units replayed one after the other on a plain map, and every observation of an entity that no direct write touched meanwhile is what that serial execution would have shown |
| Serial.CanStepExactlyWhen | internal/domain/entity/txscope.go:89-130 | the runs this covers are all the system allows, except rolling back a transaction whose commit is waiting, which the handlers never do |
| Manager.ScanForConflict | plugins/memory/txmanager.go:462-486 | the scan of the committed log finds a conflict exactly when a later entry's write set meets the read or write set |
| Manager.AppendVersions | plugins/memory/txmanager.go:598-666 | the flush loop of one entity appends one numbered row per superseded and buffered value |
| Manager.FlushAll | plugins/memory/txmanager.go:578-708 | the buffer loop and the delete loop together turn the rows into the flushed rows, whatever order the maps yield |
| Manager.OldestSnapshot | plugins/memory/txmanager.go:749-754 | the loop over open transactions finds their oldest snapshot, or that there is none |
| Manager.PruneLog | plugins/memory/txmanager.go:755-767 | the in-place filter keeps exactly the entries not before the oldest open snapshot, and none if nothing is open |
| Manager.AbortedCommitIsItsEvents | plugins/memory/txmanager.go:462-486 | an uninterrupted conflicting Commit call is its two events in a row |
| Manager.CommitIsItsEvents | plugins/memory/txmanager.go:412-774 | an uninterrupted Commit call without a conflict is its four events in a row |
| Manager.TransactionManager.NextSubmitTime | plugins/memory/txmanager.go:256-277 | the stamp returned is recorded as the new floor |
| Manager.TransactionManager.Begin | plugins/memory/txmanager.go:287-363 | the new state is the begin event's: snapshot floored and reserved, baseline taken with it |
| Manager.TransactionManager.Join | plugins/memory/txmanager.go:365-410 | a joined callback is accepted exactly for an open transaction of the caller's own tenant, and a missing token, an unknown, foreign, rolled-back and committed transaction are told apart |
| Manager.TransactionManager.Commit | plugins/memory/txmanager.go:412-774 | each error exactly in its case, and the state after is that of a conflict or of a full publication |
| Manager.TransactionManager.Rollback | plugins/memory/txmanager.go:776-816 | each error exactly in its case, and otherwise the rollback event's state |
| Manager.LengthsOf | plugins/memory/txmanager.go:938-944 | the loop records the length of every superseded list |
| Manager.TransactionManager.Savepoint | plugins/memory/txmanager.go:855-954 | each error exactly in its case, and otherwise the event that keeps the work as it stands |
| Manager.ResliceAll | plugins/memory/txmanager.go:1028-1042 | the loop, in any key order, re-slices every list with a recorded length and deletes the others, up to the first length beyond a capacity, where it panics with the lists before it done |
| Manager.TransactionManager.RollbackToSavepoint | plugins/memory/txmanager.go:956-1046 | each error exactly in its case, an unknown savepoint among them; otherwise the event that restores the work, or the one that a panic leaves half done, or the report that a list now shows slots never written |
| Manager.TransactionManager.Get | plugins/memory/entity_store.go:377-421 | a read under a transaction returns its own work over its snapshot and records the read, and is refused on a closed or rolled-back one |
| Manager.TransactionManager.GetAsAt | plugins/memory/entity_store.go:423-470 | a point-in-time read under a transaction returns committed rows only, never its own work, and records the read, so that it can conflict |
| Manager.TransactionManager.Save | plugins/memory/entity_store.go:126-167 | the value is buffered with the transaction's id, what it overwrites is kept, and a staged delete is undone; a closed or rolled-back transaction refuses and stays as it was |
| Manager.TransactionManager.CompareAndSave | plugins/memory/entity_store.go:169-263 | the save happens exactly when the transaction is open, a token is given and it matches the staged, buffered or newest committed version; each refusal is told apart and changes nothing |
| Manager.TransactionManager.Delete | plugins/memory/entity_store.go:473-512 | the delete is staged exactly when the transaction is open and the entity buffered or committed, and nothing changes otherwise |
| Witnesses.RolledBackYetVisible | plugins/memory/txmanager.go:412-816 | a run whose rolled-back transaction is published |
| Witnesses.DirectWriteLost | plugins/memory/entity_store.go:284-375 | a run in which a transaction overwrites a direct write it never saw |
| Witnesses.ConflictWithWhatItSaw | plugins/memory/txmanager.go:287-363 | a run in which a transaction conflicts with a commit whose write it sees |
| Witnesses.ConflictAcrossTenants | plugins/memory/txmanager.go:462-486 | a run in which a transaction conflicts though its own tenant has no row at all |
| Witnesses.PrunedConflictIsPublished | plugins/memory/txmanager.go:412-816 | a run in which a waiting commit that would conflict is rolled back and published once the log is pruned |
| Witnesses.NumberIsReused | plugins/memory/txmanager.go:586-708 | a run after which a tombstone and the save that follows it share a version number |
| Cascade.FailureLeavesNoTrace | internal/domain/workflow/engine_processors.go:217-266 | a failing ASYNC_NEW_TX processor leaves the transaction exactly as it was, however its callbacks nested savepoints of their own |
| Cascade.SuccessKeepsTheWork | internal/domain/workflow/engine_processors.go:217-266 | a successful ASYNC_NEW_TX processor leaves exactly the work it would have done without the savepoint |
| Cascade.ResultsAreTakenInline | internal/domain/workflow/engine_processors.go:189-266 | what an inline processor returns becomes the entity's data, what an ASYNC_NEW_TX processor returns is dropped while its work stays or goes with its success |
| Cascade.FailingAsyncIsAsIfAbsent | e2e/parity/callback_txjoin.go:532-577 | a pipeline ends exactly as it would without its failing ASYNC_NEW_TX processors: same committed segments, same open transaction, entity and verdict |
| Cascade.PipelineStopsExactlyWhen | internal/domain/workflow/engine_processors.go:112-186 | a pipeline stops exactly at a reached processor that is internalized, fails inline, or whose COMMIT_BEFORE_DISPATCH boundary does not commit, fails, or finds the entity changed |
| Cascade.SegmentsChain | internal/domain/workflow/engine_processors.go:268-416 | the transactions a pipeline works in are the one it was given and those begun at its boundaries, in order, and without boundaries just that one |
| Cascade.SegmentsSaveTheEntity | internal/domain/workflow/engine_processors.go:418-485 | every segment that commits on the way ends by saving the entity under its own id |
| Cascade.ExecuteProcessors | internal/domain/workflow/engine_processors.go:84-187 | the loop over processors of all four modes computes the pipeline's outcome |
| Cascade.TransitionIsAllOrNothing | e2e/parity/callback_txjoin.go:225-245 | a transition does what it would without its failing ASYNC_NEW_TX processors; its open transaction is published, all at once, exactly when it goes through and its commit meets no conflict, and no later run publishes anything more of it |
| Playback.RunsAsComputed | internal/domain/workflow/engine_processors.go:84-266 | in every run in which a transaction's calls and savepoints are these, whatever others do between them, its transaction object ends as the pipeline's operations compute, each on the rows it met |
| Playback.ScopesNeverPanic | internal/domain/workflow/engine_processors.go:217-266 | the rollback of a failing ASYNC_NEW_TX processor never panics, whatever its callbacks nested and whatever the capacities, and restores the transaction |
| Playback.CrossingRecords | internal/domain/workflow/engine_processors.go:418-485 | the flush and commit of a boundary, whatever others do between its steps, record exactly the transaction with the entity saved, and do so exactly when first-committer-wins finds no conflict |
| Playback.TransitionHappens | internal/domain/workflow/engine_processors.go:84-416 | in every run that performs a transition's processors, others interleaved freely, the open transaction ends as the pipeline computes and the commits of its boundaries record exactly its committed segments |
| Playback.TransitionRuns | internal/domain/workflow/engine_processors.go:84-416 | such a performance is a run of the whole system, so the theorems over runs apply to it |
| Callbacks.JoinedPair | cmd/compute-test-client/callback.go:500-541 | joined to an open transaction, the created entity is found by the plain read and not by the point-in-time read, at any instant and whatever others do meanwhile |
| Callbacks.StandalonePair | cmd/compute-test-client/callback.go:178-186 | without a token the plain read finds it, and the point-in-time read exactly when the create's stamp is not after the instant, whatever others do before, between and after the steps of the create |
| Callbacks.ListedIsView | plugins/memory/grouped_stats.go:112-215 | a listing under a transaction agrees with reading entities one by one exactly when the transaction moved none to another model |
| Callbacks.ListCommitted | plugins/memory/grouped_stats.go:222-265 | the scan lists exactly the entities of the model visible at the snapshot and not deleted by the transaction |
| Callbacks.SelectIds | internal/domain/entity/service.go:1137-1202 | the selection is exactly the ids whose listed value matches, without repeats |
| Callbacks.DeleteSelected | internal/domain/entity/service.go:1323-1346 | the delete loop, each delete on the store as others have left it, deletes the accepted ids and reports exactly the refused ones, and counts add up |
| Callbacks.RefusedAreNotAccepted | internal/domain/entity/service.go:1323-1346 | an id is refused exactly when the store no longer has it at its turn and the transaction did not save it |
| Callbacks.DeleteEachHides | internal/domain/entity/service.go:1323-1346 | deleting the selection hides exactly the selected entities the store still has at their turn and changes no other view |
| Callbacks.ConditionalDelete | cmd/compute-test-client/callback.go:543-599 | the processor's two creates, selection and deletes, as one change of its transaction, while others change the store in between |
| Callbacks.ConditionalDeleteClears | cmd/compute-test-client/callback.go:543-599 | afterwards the keeper is there, the other is not, everything unmatched is as before, and no match is left exactly when the delete of every match was accepted at its turn |
| Callbacks.MatchSurvives | plugins/memory/entity_store.go:489-506 | a run after which a match stays in the view because its delete is refused |
| MergePatch.ApplyMergePatch | internal/domain/entity/mergepatch.go:23-46 | merging member by member in any key order computes the merge |
| MergePatch.MergeIsIdempotent | internal/domain/entity/mergepatch.go:23-46 | applying a patch twice is applying it once |
| MergePatch.EmptyPatchKeeps | e2e/parity/entity_patch.go:274-318 | the empty patch keeps the document exactly when it is an object |
| MergePatch.ReachableExactlyWhen | internal/domain/entity/mergepatch.go:23-46 | some patch takes one document to another exactly when the second has no null member the first lacks |
| IfMatch.SwapReplacesItsToken | plugins/memory/entity_store.go:169-263 | a compare-and-save that commits replaced exactly the version its token named, which was the last one written |
| Landings.OneLandingPerToken | e2e/parity/entity_patch.go:473-516 | in every run, if two compare-and-saves land on one version token, a direct write repeated that token: one version carried it before the first landing and another from then on before the second |
| Landings.TokenLandsTwice | plugins/memory/entity_store.go:284-375 | for every entity and token a run whose committed units are a direct write that carries the token, a compare-and-save landed on it, and the same again |
| IfMatch.NothingBetweenSegments | internal/domain/workflow/engine_processors.go:389-415 | if a COMMIT_BEFORE_DISPATCH continuation commits, nobody changed the entity since the segment it continues |
| IfMatch.PatchesFold | e2e/parity/entity_patch.go:83-318 | in every run in which only token-conditional patches change an entity, each landed patch was applied to the document its token named, no two named the same token, each advanced the token, and the document is the fold of the landed patches |
| SearchJobs.SearchStore.UpdateJobStatus | plugins/memory/search_store.go:155-179 | only the current holder of a running job sets its verdict |
| SearchJobs.SearchStore.SaveResults | plugins/memory/search_store.go:181-231 | draining in guarded chunks appends exactly the given results, nothing when the guard refuses, and when another party cuts the drain short exactly the chunks before that |
| SearchJobs.SearchStore.Cancel | plugins/memory/search_store.go:294-322 | a running job becomes cancelled and a terminal one keeps its verdict |
| SearchJobs.SearchStore.Heartbeat | plugins/memory/search_store.go:324-345 | only the current holder stamps liveness |
| SearchJobs.SearchStore.Release | plugins/memory/search_store.go:445-464 | only the current holder marks the job released, and neither epoch nor losses change |
| SearchJobs.Insert | plugins/memory/search_store.go:400-405 | sorting by create time, then id, one insertion at a time |
| SearchJobs.SearchStore.ClaimStale | plugins/memory/search_store.go:347-424 | a sweep claims the oldest claimable jobs up to the limit, each with a new epoch and a loss unless released, and leaves all others alone |
| LeaseStore.Submit | plugins/memory/search_store.go:76-98 | creating a job leaves the store with the job the lease protocol starts from |
| LeaseStore.Perform | plugins/memory/search_store.go:138-464 | each event of the lease protocol but a claim, done through the store's methods, leaves exactly the job the protocol says and no other job changed |
| LeaseStore.Sweep | plugins/memory/search_store.go:347-424 | a sweep is one claim event for each job it claims, allowed there, and no event for the others |
| JobLease.ExecutionsAreCapped | app/config.go:81-86 | in every run a job is executed at most the cap plus once per graceful hand-over, and every claim counts as a loss or a hand-over |
| JobLease.PastTheCap | internal/domain/search/reaper.go:64-96 | from the cap-th loss on, in every continuation, no epoch claimed at or after it is executed, the job never becomes successful, nothing hands it over, and each claim is one more loss |
| JobLease.FailsAtTheCapExactlyWhen | app/config.go:81-86 | the reaper fails a job at exactly its cap-th loss if and only if no claim came between |
| JobLease.LossesPassTheCap | internal/domain/search/reaper.go:64-96 | a run that leaves a job running past its cap |
| JobLease.StartsBelowTheCap | internal/domain/search/reaper.go:64-96 | in every run an epoch is executed at most once and only if claimed below the cap, and its claimer gives up exactly otherwise |
| JobLease.HandoversCostNothing | internal/domain/search/service.go:558-598 | in every run of releases and claims of released jobs no loss is counted and no claimer can fail the job by the cap |
| JobLease.TerminalIsFinal | plugins/memory/search_store.go:287-322 | a terminal job keeps its verdict in every run, is never claimed again, and keeps its results unless a claimer clears them |
| JobLease.StartsAfterTheEndExactlyWhen | internal/domain/search/service.go:1139-1180 | after the end of a job an epoch may still be executed exactly when its holder was already on its way |
| JobLease.StartsAfterCancel | internal/domain/search/service.go:1139-1180 | a run in which a cancelled job is executed |
| JobLease.SuccessIsCompleteExactlyWhen | internal/domain/search/reaper.go:82-95 | a successful job holds all results it reports exactly when no overtaken claimer cleared them |
| JobLease.WipesAreLateClears | plugins/memory/search_store.go:426-443 | no result is lost in a run whose clears all happen while their claimer is current |
| JobLease.LateClearLosesResults | plugins/memory/search_store.go:426-443 | a run that ends successful with one result reported and none stored |
| JobLease.AcceptsExactlyWhen | app/config.go:794-819 | the check accepts exactly four intervals and more, for all durations, exactly when four intervals fit in 64 bits |
| JobLease.AcceptsAnythingExactlyWhen | app/config.go:794-819 | it accepts every duration that is not negative exactly when the wrapped product is not positive, for two ranges of intervals |
| JobLease.PunctualIsNeverStale | app/config.go:70-80 | under an accepted pair an executor whose successive stamps, from creation or its claim, are less than four intervals apart is never taken for lost, in any run and whenever sweeps fall between its stamps |
| Shutdown.RunKeepsInv | app/app.go:950-1041 | every interleaving of callers, reaper, guards and group keeps the protocol's invariant |
| Shutdown.ReaperStopsFirst | app/app.go:950-984 | for any number of callers the stop channel is closed at most once, callers pass only after the reaper exited, and no store close begins before that |
| Shutdown.NoSweepAfterStoreClose | app/app.go:472-499 | once a store close has begun no sweep is running or starts in any continuation |
| Shutdown.ExitAndLatchAreFinal | app/app.go:832-850 | an exited reaper stays exited and a latched health flag stays latched |
| Shutdown.NobodyIsStuck | app/app.go:950-984 | no caller is ever stuck: the step it waits for is possible |
| Shutdown.GroupStopsInOrder | app/app.go:986-1011 | graceful stop is entered at most once, forced stop only after its whole budget, all waiting together is within one budget, and runServers goes on only after all six goroutines with nothing left to wait for |
| Shutdown.StoreClosedOnce | cmd/cyoda/run.go:43-141 | Close follows Shutdown, which follows the group; the store is closed at most once, and exactly once when runServers is done |
| HardExit.SecondSignalEnds | cmd/cyoda/main.go:148-175 | a hard exit means at least two delivered signals, and two delivered signals are never lost before both receives |
| HardExit.BufferOfTwoIsNeeded | cmd/cyoda/main.go:165-168 | that holds of every run exactly when the buffer takes two |
| HardExit.DrainerExitsOnTwoUnlessEarly | cmd/cyoda/main.go:153-161 | the rejected design exits on fewer than two signals only if its drain ran before the first reached the channel |
| HardExit.DrainerExitsOnOne | cmd/cyoda/main.go:153-161 | a run of the rejected design that exits on one signal |
| Conditions.PlainPathAddressesOne | docs/cloud-parity/path-grammar.md:95-116 | a path without wildcards addresses exactly one value, possibly absent |
| Conditions.Match | internal/match/prepared.go:408-479 | short-circuit matching gives the node's verdict |
| Conditions.PreparedMeansTheCondition | internal/match/prepared.go:119-406 | preparing fails exactly on malformed conditions, an unknown metadata field among them, never on a document, and what it prepares matches exactly what the condition means |
| Conditions.PushPreserves | e2e/parity/negation.go:67-145 | pushing NOT through groups to the leaves preserves the verdict for every condition and row |
| Conditions.TwinAgreesExactlyWhen | e2e/parity/negation.go:147-241 | NOT of a leaf and its negative twin agree exactly when some addressed value counts and all that count agree |
| Conditions.TwinOnPlainPath | docs/cloud-parity/operator-semantics.md:29-47 | on a path without wildcards they agree on presence always and on comparisons exactly when the value is there |
| Conditions.TwinDiffersOnMixed | e2e/parity/negation.go:203-241 | they differ wherever a path leads to an array with one element that satisfies the test and one that does not |
| GroupedStats.SameBucketExactlyWhen | plugins/memory/grouped_stats.go:613-655 | two entities fall into one bucket exactly when in every dimension both values are not scalars, or both are scalars with the same text |
| GroupKeys.EncodeGroupKey | plugins/memory/grouped_stats.go:657-696 | the append loop produces the encoding of the tuple |
| GroupKeys.KeysRoundTrip | plugins/memory/grouped_stats.go:33-38 | the encoding can be read back |
| GroupKeys.KeysNeverCollide | plugins/memory/grouped_stats.go:33-38 | distinct key tuples have distinct encodings |
| Deviation.ObserveSummarises | plugins/memory/grouped_stats.go:519-538 | one observation keeps count, sum, extremes, mean and centred squares exact |
| Deviation.ObserveAll | plugins/memory/grouped_stats.go:519-538 | streaming any sequence yields its exact summary |
| Deviation.TwoPassVariance | e2e/parity/grouped_stats.go:845-864 | the two loops compute the sample variance, and nothing below two numbers |
| Deviation.StreamedIsTwoPass | e2e/parity/grouped_stats.go:584-597 | for two or more numbers the streamed variance is the two-pass one |
| Deviation.OrderDoesNotMatter | plugins/memory/grouped_stats.go:483-499 | any reordering of the input leaves the same accumulator |
| GroupedStats.ObserveItem | plugins/memory/grouped_stats.go:501-517 | an entity is counted and feeds exactly the accumulators for which it has a number |
| GroupedStats.Tally | plugins/memory/grouped_stats.go:444-466 | an entity goes to the bucket of its key, or is refused when that needs a bucket too many |
| GroupedStats.GroupedAggregate | plugins/memory/grouped_stats.go:353-473 | the pass fails exactly when the matching entities have more keys than allowed, and else has one exact bucket per key of the filtered population |
| GroupedStats.BucketsAddUp | plugins/memory/grouped_stats.go:444-473 | for every weight the buckets add up to the population |
| GroupedStats.TalliesAddUp | e2e/parity/grouped_stats.go:636-654 | bucket counts add up to the population and bucket sums to the sum over entities with a number |
| GroupedStats.DimensionSumsOut | e2e/parity/grouped_stats.go:294-297 | of two results over the same entities, summing the counts and sums of the one over a dimension gives those of the one without it |
| GroupedStats.GroupingIgnoresOrder | plugins/memory/grouped_stats.go:112-215 | the result depends only on which entities match, not on the order the snapshot lists them |
| Replaces.CheckReplaces | cmd/release-preflight/check.go:68-132 | the line loop is the scan of all lines |
| Replaces.LayoutExactlyWhen | cmd/release-preflight/check.go:68-132 | any layout of directives in either form, with comments on lines of their own, after directives, openers and closers, reports exactly those that do not point at local paths, in order and with the same text, exactly when no other line taken for an entry has an arrow to report |
| Replaces.LayoutIsReported | cmd/release-preflight/check.go:68-132 | that is so whenever every block is closed by a bare parenthesis |
| Replaces.StrayIsReported | cmd/release-preflight/check.go:90-105 | a file in which a line outside the block is reported, because the closer carries a comment |
| Replaces.GapExactlyWhen | cmd/release-preflight/check.go:94-105 | other white space after the keyword is reported as written exactly for one space, and reported at all exactly when it starts with one |
| Replaces.OpenerExactlyWhen | cmd/release-preflight/check.go:86-89 | a block is opened exactly by one space before the parenthesis, of all white space or none |
| Replaces.BlockGapExactlyWhen | cmd/release-preflight/check.go:86-89 | a block reports its entries exactly when it is opened so, and nothing otherwise |
| Replaces.EntryExactlyWhen | cmd/release-preflight/check.go:94-105 | a block entry is scanned as it should be exactly when its module is not named replace, or it points at a local path |
| Replaces.ModuleNamedReplace | cmd/release-preflight/check.go:94-105 | a block entry that should be reported and is not |
| EnvFiles.SplitProfiles | app/envfiles.go:143-159 | the loop keeps the usable names in order |
| EnvFiles.ProfilesRoundTrip | app/envfiles.go:143-167 | any list of proper profile names survives being written as one variable |
| EnvFiles.MergeFiles | app/envfiles.go:47-58 | merging in any key order gives every variable the value of the last readable file that defines it |
| EnvFiles.LoadEnvFiles | app/envfiles.go:28-80 | every variable has the shell's value where set, even if empty, else the last readable file's |
| EnvFiles.Precedence | app/envfiles.go:15-45 | where the shell says nothing, profile files win over .env, .env over the user's file, that over the system's |
| EnvFiles.SecondRunExactlyWhen | app/envfiles.go:28-80 | a second run changes nothing exactly when the files selected by the steering variables as the first run leaves them define only what the shell or the first run's files set |
| EnvFiles.SecondRunChangesNothing | app/envfiles.go:87-131 | that is so when no file defined a steering variable the shell had left unset |
| EnvFiles.SecondRunCanChange | app/envfiles.go:28-47 | files for which a second run reads more |
| Annotations.WorkflowElementAnnotations.Unmarshal | api/generated.go:3858-3894 | exactly which values are refused, and what the fields hold afterwards in each case |
| Annotations.WorkflowElementAnnotations.Marshal | api/generated.go:3896-3922 | the known members with the additional properties over them, in any key order |
| Annotations.SetSurvivesExactlyWhen | api/generated.go:3841-3922 | an additional property set, encoded and decoded is read back exactly when its name is not a known one, and no other property is disturbed |
| Annotations.DecodeEncodeExactlyWhen | api/generated.go:3858-3922 | decoding and encoding gives the object back exactly when no known member is null |
| Annotations.EncodeDecodeExactlyWhen | api/generated.go:3858-3922 | encoding and decoding gives the value back exactly when the additional properties avoid the known names |

## Left out

- Phantoms: searches, counts and existence checks record nothing to conflict on, as docs/CONSISTENCY.md section 3 says, so they are not part of the scripts that `RunsAreSerial` replays; refused deletes and compare-and-saves are not part of them either.
- Serial.RunsAreSerial: claims nothing about what a transaction observed of an entity that a write outside any transaction touched meanwhile, because the code does not guarantee it.
- Manager.TransactionManager.RollbackToSavepoint: a rollback that re-slices a list over array slots never written is reported as such and not followed further; the runs of `TxSystem` do not contain it.
- Point-in-time reads under a transaction are events, and can conflict, but what they observe is not part of the scripts that `RunsAreSerial` replays, because they read past the transaction's snapshot and own work.
- Cascade.ExecuteProcessors: a boundary's commit enters as an answer, which `Playback.CrossingRecords` ties to the conflict check of the run; the If-Match token of the flush, audit events and error classification are left out.
- Callbacks.ConditionalDeleteClears: is stated for transactions that moved no entity to another model, where a listing is the view; `ListedIsView` says exactly when that is so.
- The per-transaction gate that serialises joined callbacks with their owner: callbacks of one transaction interleave freely in the model, operation by operation.
- Composite unique keys, scheduled tasks and change attribution in the transaction manager and entity store: they would add more maps of the same kind.
- Creation dates, change types and users of versions.
- Whole-model delete, batched deletes, paging and the other listing operations of the entity store.
- The sqlite and postgres plugins: only the in-memory store is modelled.
- Releasing a savepoint through the transaction manager, a savepoint id reused after its release, and the zero time as a sentinel for "no open transaction".
- Model validation of data returned by processors: a rejected result counts as a failed processor.
- Search condition operators themselves: a leaf's operator and operand enter as a test of one value; paths enter parsed; array conditions enter already desugared.
- Results wider than one job: headroom and batch size of a reclaim sweep, the worker pool and per-tenant caps.
- Floating point: numbers are reals, the square root of the variance is left abstract, and values that are not finite do not occur.
- The accumulators of grouped statistics are values put back into a map, not objects updated through pointers.
- findBucketByGroupKey and sameKeyValue of the parity scenarios: they only look up what `GroupedAggregate` describes.
- White space outside ASCII, lines beyond the scanner's token limit, and path cleaning in the environment file locations.
- Pseudo-version checks, report formatting, HTTP and gRPC transport, authentication, gossip, telemetry and command-line wiring.
- JSON text: values are encoded and decoded as JSON values.
- Identifiers are integers compared only for equality, and for order where the source sorts by id.
- The scheduler stop, search pool drain and cluster deregistration inside Shutdown: they do not touch the resources the protocol protects.
