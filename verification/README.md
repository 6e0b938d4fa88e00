# ReasonKB verification model

A Dafny model of the machinery of ReasonKB that is hardest to get right: two kinds of workers that share one
database, and a bounded retrieval loop that consults an untrusted language model. Tables are maps, each
database transaction is one step, and time, model replies, scan results and provider answers are arbitrary
inputs. `dafny verify dfyconfig.toml` checks the whole project.

## What is modelled

**The shared rows and the source worker.** `Corpus` holds the tables of one corpus source. `Reconciliation`
states what reconciling one scan does to the known items and gives its closed form. `SourceSteps` has each
transaction as a function on the rows, and `DocumentRows`, `Completing` and `Transactions` say what the
transactions leave, told from the rows before and after; `SourceWorker`, `SyncRuns` and `Migrations` run the statements and
loops on a mutable `Store` and are proved against those functions: batches, exclusion of known descendants,
completion, the stale sweep and the claim, restart, and the endpoint migration with its rollback.
`FilterChanges` is the web application's side of an exclusion rule change. `LocalScan` is the local
connector's pruning walk and discharges the shape the reconciliation relies on.

**The index worker and the interleaving.** `IndexSteps` and `IndexWorker` have the job transactions: claim,
start, fenced publish, skip, failure, orphan recovery. `Interleaving` puts both workers and the
administration on one database, transaction by transaction: a check of a run and the write it leads to are
separate steps, and a process that has started may publish at any later time, any number of times. Over all
executions `Publication` proves that retrieval only sees indexes of the current revision and that a migration
is all or nothing, `Fencing` that a switch leaves no running job anything to do, `History` that items turn missing only after a full scan, and `Completion` that a completed
run leaves the closed form over its own scan. `Restoration` and `Readmission` follow an excluded document until
it is let back in. `Counterexamples` has the executions in which a property fails. `ClaimFairness` is the order
in which jobs of several sources are claimed.

**The projection of PDF tables.** `TableGrid` recovers a grid from coordinates and an exact tiling from an
occupancy matrix, `TableHtml` has the elements of the projection and the algorithm "Forming a table" of
section 4.9.12.1 of the WHATWG HTML Standard, and `TableMarkup` the printed text with a reader for it.

**The bounded retrieval loop.** `PageWindow` parses and prints page windows, `TreeSearch` runs the search
rounds over one document, `SearchReplies` relates them to the replies, `EvidenceExpansion` widens supporting pages, `Scheduler` works on documents side by
side, `Tournament` selects candidates, `TournamentReplies` relates them to the replies, and `SemanticIndex` builds, leases, switches and searches embedding
generations. `SseFraming` and `SseStyles` are the client's incremental framing of the event stream (sections 9.2.5 and 9.2.6 of
the WHATWG HTML Standard, for LF and CRLF).

## What was found

Each finding has its exact condition, for all inputs, and an execution or input in which it happens.

- Skipping a document does not read the fence that publishing reads: a process for an old revision can take a
  newer, published document out of retrieval (`Publication.SkipIsUnfenced`, `Counterexamples.OvertakenSkipHides`).
- Asked for page "²", the page parser raises, because `isdigit` accepts characters that `int` does not convert. No
  caller catches it, so one such reply ends the search of a document without a terminal step and drops what had
  been found in it (`PageWindow.ParseRaisesExactly`, `TreeSearch.RaisesExactly`,
  `TreeSearch.SuperscriptEndsSearch`).
- A first selection that loads no evidence is replaced by the fallback and forgotten: a later round may select its
  pages again, and all selections together may exceed the page budget (`TreeSearch.LaterRoundNew`,
  `TreeSearch.ReplacedIsEmpty`, `TreeSearch.SelectedTwice`).
- A migration that lets an excluded document back in at another revision leaves the old index current, where an
  ordinary run retires it. The document is not retrieved until it has been indexed again
  (`Readmission.RetiredExactly`, `Counterexamples.MigrationKeepsOldIndex`).
- A page text that names a range twice, or two that overlap, counts the common pages twice and may be refused below
  the limit (`PageWindow.WindowNames`, `PageWindow.OverlapCounted`).
- The default window runs from the first available page to the second, as one range. In a document whose first two
  pages are a thousand or more apart it is refused, and without matching pages and a usable reply the search is given
  up (`SearchReplies.DefaultSelects`, `SearchReplies.GapEndsSearch`).
- A failed document whose revision moves while it is excluded is not indexed at that revision when it returns
  (`Readmission.ReadmittedExactly`, `Restoration.FailedStaysFailed`).
- A decision on a migration that raises after the rules of its last run have moved leaves the migration under way
  with nothing to be scanned, which blocks every ordinary run (`Migrations.RaisedDecision`).
- An imported index has no revision and is trusted while the revision stands still. A revision that moves while
  the document is excluded is not noticed (`Restoration.ImportedIndexRestored`,
  `Counterexamples.ImportedIndexGoesStale`).
- The start of a migration does not read its status again, so a cancellation during validation is lost unless
  the start is outdated or refused (`Migrations.CancelDuringValidation`, `Counterexamples.CancelledGoesOn`,
  `Counterexamples.CancelledSwitches`).
- A scanned run of a migration is applied under the rules of the day, and its filter revision is not compared
  again. When a rule is withdrawn between scan and application, the known items behind it turn missing
  (`Migrations.RulesMovedBeforeApply`, `Migrations.UnseenAtApply`, `Counterexamples.WithdrawnRuleLosesItem`).
- A run that gives way because the filter moved is replaced only when the configuration stands
  (`FilterChanges.RunningGivesWay`, `Counterexamples.FollowUpLost`); the follow-up asked of it is not carried over
  otherwise.
- An alias of the candidate prompt can be taken over by a later document whose id is spelled like it
  (`Tournament.AliasNames`, `Tournament.AliasTakenOver`).
- An embedding generation is switched to without looking again for missing documents: one that became ready
  since is missing in the active generation (`SemanticIndex.ActivationCovers`, `SemanticIndex.ActivatedIncomplete`).

## Model

| member | source | states |
|---|---|---|
| `Completion.CompletedExactly` | services/source_worker/engine.py:926-979 | In every execution of both workers and the administration over a path-shaped source: from the end of a run's scan, empty or not, to its completion, with batches of any size and any steps between that leave the items alone, the items become `ItemsCompleted` of that run's scan, whatever earlier runs completed, failed or left undone. |
| `Completion.SoundAlways` | services/source_worker/engine.py:1442-1620 | In every state of such an execution the items are path-shaped and stamped only by runs whose scan has ended, no run is reconciled before its scan ends, and what has been reconciled is closed under parents. |
| `Completion.OrderKeepsShape` | services/source_worker/engine.py:1418-1440 | Taking the next ids in folder-then-id order never reconciles an item before its parent. |
| `Reconciliation.CompletedRun` | services/source_worker/engine.py:1442-1620 | Reconciling a whole path-shaped scan in order, under any rules, and marking what was not seen is the closed form: observed items carry their classified lifecycle, known descendants of an excluded folder are excluded, everything else of the collection is missing. |
| `Reconciliation.ReconcilePending` | services/source_worker/engine.py:1413-1440 | From any parents-closed part of the scan, reconciling the rest in order reaches the same items as reconciling all of it. |
| `Reconciliation.ReconcileNext` | services/source_worker/engine.py:1442-1536 | One observation moves the closed form on by exactly one id, and by the rows below it when it is an excluded folder. |
| `Reconciliation.HistoryIrrelevant` | services/source_worker/engine.py:926-979 | The lifecycles a completed run leaves depend on its scan, its rules and which ids were known, not on what earlier runs wrote. |
| `Reconciliation.OtherCollectionsUntouched` | services/source_worker/engine.py:1832-1865 | A completed run leaves the items of other collections as they were. |
| `Reconciliation.CompletedShaped` | services/source_worker/engine.py:1442-1536 | A completed run leaves path-shaped items for the next one. |
| `Reconciliation.ReconcilingLosesNothing` | services/source_worker/engine.py:1442-1620 | Reconciling observations never makes an item missing and never drops one. |
| `Reconciliation.NothingSeenBelowExcluded` | services/source_worker/connectors/local.py:112-150 | A scan reports nothing below a folder it found excluded. |
| `SourceWorker.SupersedeSyncRun` | services/source_worker/engine.py:1914-1970 | The statements in their order are the transaction `Supersede`; what it leaves is in `SyncRuns.FilterChangeRequeues` (exactly one pending run at the present rules), `FilterChanges.RunningGivesWay` (if and only if the configuration stands) and `Completion.SupersedeItems` (no item touched). |
| `Transactions.SupersedeOutcome` | services/source_worker/engine.py:1914-1970 | A superseded run is withdrawn while pending and loses its observations; a new run is queued if and only if nothing but the rules has moved, the collection takes part, no migration is under way and no other run is pending. |
| `SourceWorker.QueuedJobIsOne` | services/source_worker/engine.py:1784-1830 | Queueing a job, however often, leaves exactly one active job for the document and revision, and no document ever gets two. |
| `SourceWorker.KnownDescendants` | services/source_worker/engine.py:1556-1590 | The level-by-level search over stored parent links finds exactly the rows reached from the folder. |
| `SourceWorker.ExcludeKnownDescendants` | services/source_worker/engine.py:1556-1620 | Exactly the known descendants become excluded and stamped, their documents leave retrieval, their queued jobs are superseded. |
| `SourceWorker.ReconcileDocumentRow` | services/source_worker/engine.py:1622-1782 | The statements in their order are the transaction `ReconcileDocument`; what it leaves is in the rows of `DocumentRows` that follow. |
| `DocumentRows.ActiveDocument` | services/source_worker/engine.py:1622-1782 | A document that is classified active, new or known, comes out at the observed revision, and ready with an index to show for it, or failed as before at this very revision, or to be indexed with an active job for this revision; no other document, index or job changes. |
| `DocumentRows.NewDocument` | services/source_worker/engine.py:1727-1782 | A document seen for the first time gets exactly its row and exactly one job, unless one is under way for this revision. |
| `DocumentRows.RevisedDocument` | services/source_worker/engine.py:1660-1830 | A known document whose revision has moved away from its index loses the index, unless a migration keeps it, and has exactly one active job for the new revision. |
| `DocumentRows.InactiveDocument` | services/source_worker/engine.py:1639-1782 | A document that is excluded, unsupported or too large is not retrieved, keeps its index and gets no job; excluded, it keeps its status and loses its queued jobs. |
| `DocumentRows.ObservedFolder` | services/source_worker/engine.py:1500-1620 | A folder touches documents and jobs only when it is excluded, and then exactly those below it. |
| `DocumentRows.ClassifiedExactly` | services/source_worker/engine.py:1538-1553 | Each lifecycle under its exact condition: a rule first, then the type, then the size limit. |
| `DocumentRows.AppliedLifecycle` | services/source_worker/engine.py:1145-1176 | In an applied run an observed document is excluded or active exactly by the rules and the size limit of the day. |
| `SourceWorker.ReconcileObservation` | services/source_worker/engine.py:1442-1536 | One observation writes its item, its document or its excluded subtree, and nothing else. |
| `SourceWorker.ReconcileRows` | services/source_worker/engine.py:1418-1440 | The loop over a batch is the fold of one observation after another. |
| `SourceWorker.ReconcilePendingBatch` | services/source_worker/engine.py:1413-1440 | A batch, of any size where the engine takes 250, is all or nothing: written when the run is current and every document has a project, untouched when superseded, failed or empty. |
| `DocumentRows.BatchEnds` | services/source_worker/engine.py:1413-1440 | A batch is superseded exactly when the run is no longer current, fails exactly when one of its documents has no project, and finds nothing exactly when all is reconciled. |
| `DocumentRows.BatchTakes` | services/source_worker/engine.py:1413-1432 | It takes the next pending observations in order, as many as it has room for. |
| `SourceWorker.OrderAfterPrefix` | services/source_worker/engine.py:1418-1432 | Taking a prefix of the pending order leaves the order of the rest, so batch boundaries do not matter. |
| `SourceWorker.BatchAdvances` | services/source_worker/engine.py:1413-1440 | A batch of any size reconciles at least one pending observation and leaves the outcome of the whole reconciliation unchanged. |
| `SourceWorker.ReconcileAll` | services/source_worker/engine.py:962-979 | The reconcile loop ends; unless superseded or failed, the items are the fold over everything that was pending, and in no case has an item turned missing. |
| `SyncRuns.CompleteSyncRun` | services/source_worker/engine.py:1832-1908 | The statements in their order are the transaction `CompleteRun`, which reads currency again; what it leaves is in `SyncRuns.FinishSyncRun` and `Completion.CompletedExactly` (the items), and in the rows of `Completing` that follow (documents, retrieval, collection, follow-up). |
| `Completing.CompletionRemoves` | services/source_worker/engine.py:1847-1868 | A current run that completes deletes exactly the documents of the items it has not seen, none of which can be retrieved any more; every other document row, every index and every job stays. |
| `Completing.CompletionShows` | services/source_worker/engine.py:1847-1878 | After a completion exactly what is servable and not missing can be retrieved in the run's collection, if it has a project; in every other collection the same as before. |
| `Completing.CompletionOpens` | services/source_worker/engine.py:1869-1892 | The run is completed, its observations are gone, its collection and project are open, and no other run, scan, collection or project is touched. |
| `Completing.FollowUpExactly` | services/source_worker/engine.py:1879-1908 | After a completion the collection has a pending run if and only if a follow-up was asked for and no migration is under way; it is queued by hand for the present rules. |
| `Completing.QueuedExactly` | services/source_worker/engine.py:770-839 | A run is queued if and only if the source is active, the collection chosen, registered, valid, in service and not excluded, at the standing configuration, with no migration under way and none pending. |
| `SyncRuns.FinishSyncRun` | services/source_worker/engine.py:962-979 | A finished scan reconciled and closed leaves `ItemsCompleted`; a run that does not complete has made nothing missing. |
| `SyncRuns.FailSyncRun` | services/source_worker/engine.py:1972-2045 | The statements in their order are the transaction `FailRun`; what it leaves is in `Publication.DenialHides` (what retrieval loses), `History.FailQuiet` (nothing turns missing), `Migrations.FailedRunTouchesNothing` and `Migrations.FailedMigrationEnds` (its migration). |
| `Transactions.FailureOfRun` | services/source_worker/engine.py:1972-2045 | The failure of an ordinary run: it has failed and its observations are gone, and if access was denied collection and project are revoked, none of its documents is eligible and none of its jobs queued; nothing else changes. |
| `Publication.DenialHides` | services/source_worker/engine.py:1972-2045 | A failed run takes the documents of its collection out of retrieval if and only if it was an ordinary run whose collection denied access, and no other document. |
| `SyncRuns.QueueLeavesOne` | services/source_worker/engine.py:770-839 | Asking for a run of an eligible collection, at the standing configuration and with no migration under way, leaves exactly one pending run, which can be claimed when it is new; in every other case nothing is queued. |
| `SyncRuns.SweepStaleRuns` | services/source_worker/engine.py:841-880 | The sweep supersedes exactly the queued runs that are not claimable, replaces exactly those whose filter alone moved, and changes nothing else. |
| `SyncRuns.SweepLeavesClaimable` | services/source_worker/engine.py:841-924 | After the sweep every run still queued satisfies the claim condition. |
| `SyncRuns.SweepKeepsClaimable` | services/source_worker/engine.py:841-880 | A run that satisfies the claim condition survives the sweep unchanged. |
| `Transactions.CurrentExactly` | services/source_worker/engine.py:2083-2122 | A run is current exactly while its collection takes part, at the configuration and for the rules it was queued for, and its migration, if any, is scanning. |
| `SyncRuns.FilterChangeRequeues` | services/source_worker/engine.py:1914-1970 | A stale queued run of an eligible collection is replaced by exactly one pending run, at the present filter revision. |
| `SyncRuns.ClaimSyncRun` | services/source_worker/engine.py:841-924 | A claim returns nothing only if the swept queue is empty; otherwise the run it takes is claimable, manual before others and then oldest. |
| `SyncRuns.RecoverAbandonedWork` | services/source_worker/engine.py:78-158 | A restart fails exactly the running runs, drops their observations, fails the migrations under way with their runs, and touches no other table. |
| `Transactions.RestartOutcome` | services/source_worker/engine.py:78-120 | What a restart makes of each run, its observations and each migration, case by case. |
| `History.MissingOnlyAfterFullScan` | services/source_worker/engine.py:926-979 | Over every interleaving an item turns missing only in the completion of a current run whose scan was iterated to the end while current and wholly reconciled and that has not seen it, or in the application of a migration all of whose live runs were scanned to the end, one of them of the item's collection and having neither seen it nor excluded it with its folder. |
| `History.OnePendingAlways` | services/source_worker/engine.py:770-839 | In every reachable state a collection has at most one queued or running run. |
| `History.StepKept` | services/source_worker/engine.py:926-979 | Every step keeps: one pending run a collection, scanned runs only after an ended scan, nothing pending when a run is about to close. |
| `FilterChanges.ChangeRules` | web/lib/repos/source-exclusion-store.ts:57-126 | A rule change moves the filter revision and gives the pending run the new revision or a follow-up, or queues a run. |
| `FilterChanges.ChangeReaches` | web/lib/repos/source-exclusion-store.ts:57-126 | The change reaches the runs if and only if source and collection are in service: a queued run is set to the present configuration and the new rules, one that runs is asked for a follow-up, and without either a run is queued. |
| `FilterChanges.FilterChangeReaches` | web/lib/repos/source-exclusion-store.ts:57-126 | With the collection still eligible and no live migration exactly one run is pending afterwards: queued at the new revision, or running, asked for a follow-up and no longer current. |
| `FilterChanges.RunningGivesWay` | services/source_worker/engine.py:1914-1970 | The running run is replaced by exactly one run queued for the present rules if and only if the configuration revision it was claimed for still stands. |
| `Counterexamples.FollowUpLost` | services/source_worker/engine.py:1914-1970 | An execution in which rules and configuration change under a run asked to be followed up, and no run is pending after it has given way. |
| `Migrations.ApplyScannedRun` | services/source_worker/engine.py:1145-1219 | One scanned run of a migration is reconciled with its indexes kept and closed, or raises; what that leaves is in `Migrations.AppliedRunItems` (items) and the next two rows (documents). |
| `Completing.AppliedUnseen` | services/source_worker/engine.py:1178-1205 | An applied run deletes exactly the documents whose items it makes missing, hides those behind an excluded folder, and leaves every other one that it has not seen as it was, index included. |
| `Completing.AppliedSeen` | services/source_worker/engine.py:1156-1176 | Every document that an applied run has seen and no rule of the day excludes comes out ready, failed or to be indexed as from one observation, with its index kept, whatever else the run has seen. |
| `Migrations.ApplyMigrationRows` | services/source_worker/engine.py:1133-1267 | Every scanned run and the switch in one transaction, or the rows as they were, exactly when the configuration moved or a scanned document has no project. |
| `Migrations.MaybeApplyMigration` | services/source_worker/engine.py:981-1008 | The decision, each case under its condition: not ready, rejected by the check of the target, applied, or rolled back because the configuration moved or a document has no project; the conditions on the rows are in the next two rows. |
| `Migrations.RejectedExactly` | services/source_worker/engine.py:1011-1079 | A ready migration is rejected if and only if nobody has confirmed it and some run has scanned what does not resemble its collection: the known and the scanned ids are both there, share one, and share half of either. |
| `Migrations.NotReadyExactly` | services/source_worker/engine.py:984-995 | A decision is taken if and only if the migration is under way, some of its runs have been scanned, and none is queued or running. |
| `Migrations.AppliesScanned` | services/source_worker/engine.py:1145-1160 | What is applied is each scanned run of the migration, once, and so everything that is left of it. |
| `Publication.MigrationAllOrNothing` | services/source_worker/engine.py:238-316 | In every step of both workers, the source keeps its endpoint, credentials and revision, or scope, config, credentials and config revision change together, with no run of the migration queued or running, the configuration unmoved, and the target resembling the known library, confirmed, or without a collection to check; a step of a migration that does not switch leaves source, items, documents, indexes, jobs, projects and collections untouched. |
| `Migrations.DecisionAllOrNothing` | services/source_worker/engine.py:981-1008 | Whatever is decided once the scans are in: the library untouched, or everything switched under those conditions. |
| `Migrations.StartAllOrNothing` | services/source_worker/engine.py:238-316 | Whatever a start does: the library untouched, or everything switched when there is no collection to scan. |
| `Migrations.CancellingTouchesNothing` | services/source_worker/engine.py:1308-1337 | Cancelling or failing a migration leaves the library untouched, the migration ended and none of its runs unfinished. |
| `Transactions.CancelOutcome` | services/source_worker/engine.py:1308-1337 | A cancelled or failed migration is over, unless it was before and keeps its end; exactly its unfinished runs are withdrawn and exactly its observations dropped. |
| `Migrations.FailedRunTouchesNothing` | services/source_worker/engine.py:1972-1986 | The failure of one of a migration's runs leaves the library untouched. |
| `Transactions.SwitchOutcome` | services/source_worker/engine.py:1207-1263 | The switch changes the endpoint and what is expected of documents and queued jobs, and nothing that can be retrieved. |
| `Migrations.AppliedRunItems` | services/source_worker/engine.py:1145-1200 | Each applied run leaves the closed form over its scan, under the rules of the day. |
| `Migrations.UnseenAtApply` | services/source_worker/engine.py:1145-1200 | A known item that a migration run did not see is missing after the application if and only if no rule of the day excludes a scanned folder above it. |
| `Migrations.RulesMovedBeforeApply` | services/source_worker/engine.py:1145-1200 | The application leaves what the rules of the scan would have left if and only if the rules of both days decide alike on what was seen and hide the same known items. |
| `Counterexamples.WithdrawnRuleLosesItem` | services/source_worker/engine.py:1145-1200 | An execution in which a rule is withdrawn between scan and switch, and an excluded item behind it turns missing. |
| `Migrations.StartMigration` | services/source_worker/engine.py:238-316 | A start withdraws when outdated, refuses and writes nothing exactly when a collection is missing, revoked or already has a pending run, and otherwise queues exactly one run for each eligible collection, or applies at once when there is none. |
| `Transactions.StartOutcome` | services/source_worker/engine.py:238-316 | Each outcome of a start under the condition that the rows must meet, and exactly one kind of run for exactly the collections that take part. |
| `Migrations.CancelDuringValidation` | services/source_worker/engine.py:238-316 | A migration cancelled while its target is validated stays cancelled if and only if the source is outdated for it or refuses it when it starts; otherwise it goes on, or switches at once. |
| `Migrations.RaisedDecision` | services/source_worker/engine.py:199-210 | A decision over scanned runs that raises ends its live migration if and only if the run that decided is still current; otherwise the run stays scanned without its observations, and neither a run of the migration nor an ordinary one can be claimed. |
| `Counterexamples.CancelledGoesOn` | services/source_worker/engine.py:238-316 | An execution in which a migration is cancelled during validation and queues its scans all the same. |
| `Counterexamples.CancelledSwitches` | services/source_worker/engine.py:312-315 | An execution in which a migration cancelled during validation moves the source to its target. |
| `IndexWorker.StartProcess` | services/index_worker/index_document.py:359-404 | A process starts with exactly what the job expects, raises when there is nothing to read, and drops an overtaken job, returning its document to uploaded only when no other job is active. |
| `Transactions.BeginOutcome` | services/index_worker/index_document.py:359-512 | A process starts exactly for a document that is still wanted; otherwise its job is superseded, and the document is returned exactly if it was being indexed for this job alone. |
| `Transactions.ClaimOutcome` | services/index_worker/worker.py:34-85 | A queued job can be claimed unless a migration is under way; the claim counts the attempt and marks the document. |
| `IndexWorker.FailureVerdict` | services/index_worker/worker.py:258-381 | An overtaken job is dropped and changes nothing else, a transient failure below its limit is queued again, any other fails; only an access refusal that was not overtaken revokes document, item and index, and no other document or job is touched. |
| `Transactions.FailureOutcome` | services/index_worker/worker.py:258-381 | The rows after a failure in every case: dropped, revoked, queued again below two attempts after a dead worker and below six otherwise, or failed with its document. |
| `IndexWorker.FailOrphanedRunningJobs` | services/index_worker/worker.py:494-512 | After a restart every readable job that was running has been settled, and is queued again only below the limit for abrupt failures. |
| `Publication.VisibleIsCurrent` | services/retrieval_api/query_engine.py:2773-2803 | In every state of every interleaving a document that passes the retrieval filter has a current index, built from the document's current source revision unless it was imported without one. |
| `Publication.StepKeeps` | services/index_worker/index_document.py:540-680 | Every step keeps: expected revision is the revision, a ready and active document has no current index of another revision, no job, run or process is ahead of the configuration, no job outlives its attempts. |
| `Publication.PublishedKeeps` | services/index_worker/index_document.py:540-680 | What a process publishes was built from the revision the document still has. |
| `Publication.PublishFenced` | services/index_worker/index_document.py:475-487 | A process whose revision or configuration is no longer the current one changes nothing but its job. |
| `Transactions.PublishOutcome` | services/index_worker/index_document.py:475-487 | The rows after publishing: ready with an index of the revision that was read if the document is still wanted, spelled out over source, collection, project and document, and nothing but a superseded job otherwise. |
| `Publication.ClaimHides` | services/index_worker/worker.py:60-85 | Claiming a job takes its document, and no other, out of retrieval. |
| `Publication.PublishShows` | services/index_worker/index_document.py:540-683 | Publishing brings its own document into retrieval, with the index it was built into, exactly when it is not refused and the rest of the filter holds, and takes none out. |
| `Publication.FailureHides` | services/index_worker/worker.py:258-381 | A failure brings nothing into retrieval and takes out at most the document of a job that was not overtaken. |
| `Publication.AttemptsBounded` | services/index_worker/worker.py:60-85 | Over every interleaving a job is queued only below its attempts and never runs beyond them. |
| `Fencing.ClaimsBounded` | services/index_worker/worker.py:34-85 | Over every interleaving a job is claimed no more than six times until somebody asks for it again by hand. |
| `Publication.SwitchFencesJobs` | services/source_worker/engine.py:1255-1263 | After a switch, by decision or by a start, every queued job carries the new revision, and every process started before it is refused at publish, however late it comes. |
| `Fencing.SwitchDropsRunningJobs` | services/index_worker/index_document.py:359-404 | In every state after a switch, by decision or by a start: a job that was running at the switch is not queued again, a process that would start for it is dropped instead, and the only processes it has are those it had started by then. |
| `Fencing.StepBehind` | services/index_worker/worker.py:258-381 | Every step keeps a job that has left the queue for a replaced configuration behind: no failure, rule, switch or administration returns it to the queue. |
| `Publication.SkipIsUnfenced` | services/index_worker/index_document.py:692-733 | A skip costs retrieval nothing if and only if its document cannot be retrieved anyway; one that can be is lost to an overtaken process exactly when its revision or the configuration has moved, where publishing loses nothing. |
| `Transactions.SkipOutcome` | services/index_worker/index_document.py:692-733 | The rows after a skip: the document marked and the job completed, wanted or not. |
| `Counterexamples.OvertakenSkipHides` | services/index_worker/index_document.py:692-733 | An execution in which a process for an old revision, ending in a skip, takes the newer document published meanwhile out of retrieval. |
| `Restoration.RestoredDocument` | services/source_worker/engine.py:1622-1782 | A ready document excluded over any number of reconciliations and let back in: at the indexed revision it is ready and eligible with its index and no job; at another revision the index is retired and exactly one job, for the new revision, is active. |
| `Readmission.ReadmittedExactly` | services/source_worker/engine.py:1622-1782 | In every execution: an excluded document that is left out over any steps of both workers and the administration, its own late processes included, is not visible, and the batch that finds it again, whatever else it reconciles, readmits it: ready with its index and no job at the indexed revision; at another one with that index retired and exactly one job for it, unless it had failed at that revision and stays so. |
| `Readmission.ReadmittedByMigration` | services/source_worker/engine.py:1145-1263 | The same for an applied migration: the document comes back at the configuration switched to, with its index kept at any revision, ready at the indexed one and otherwise to be indexed, not eligible, and with exactly one job. |
| `Readmission.RetiredExactly` | services/source_worker/engine.py:1766-1770 | However it comes back, its index is retired if and only if that is in a batch at another revision, and it can be retrieved if and only if it comes back at the indexed revision and its surroundings allow it. |
| `Readmission.OtherCollectionPassesBy` | services/source_worker/engine.py:1145-1200 | A migration run of another collection leaves the row of the item alone. |
| `Readmission.StepStaysOut` | services/source_worker/engine.py:1442-1620 | No step that leaves an excluded document out retires its index, readmits it, gives it a job or makes it failed: its own late processes are refused or skip it, applied migrations and switches keep it. |
| `Restoration.ExclusionHides` | services/source_worker/engine.py:1556-1620 | Its own rule or an excluded folder above it takes a document out of retrieval and keeps its index. |
| `Restoration.EventsHeld` | services/source_worker/engine.py:1622-1782 | While it is excluded no reconciliation retires its index or queues a job for it. |
| `Restoration.ImportedIndexRestored` | services/source_worker/engine.py:1660-1680 | A document with an index without revision returns ready if and only if its revision stands where it was last observed. |
| `Restoration.ImportedIndexOutlivesRevision` | services/source_worker/engine.py:1660-1680 | A revision that moves while such a document is excluded goes unnoticed: it returns ready with the old index. |
| `Restoration.FailedStaysFailed` | services/source_worker/engine.py:1676-1684 | A failed document whose new revision is first noticed while it is excluded returns failed, with its index retired and no job. |
| `Counterexamples.ImportedIndexGoesStale` | services/source_worker/engine.py:1660-1680 | An execution from a visible document at revision 1, through its exclusion, to the same document visible at revision 2 with the index it was imported with. |
| `Counterexamples.MigrationKeepsOldIndex` | services/source_worker/engine.py:1172-1176 | An execution in which a migration readmits a document at revision 2 and its index of revision 1 stays current. |
| `LocalScan.WalkShaped` | services/source_worker/connectors/local.py:112-150 | A walk over any folder tree reports every parent with its children and nothing inside an excluded folder. |
| `LocalScan.WalkExact` | services/source_worker/connectors/local.py:112-150 | The entry at a path is reported if and only if there is one to report and no folder on the way to it is excluded. |
| `LocalScan.WalkContent` | services/source_worker/connectors/local.py:112-180 | What is reported for an entry is that entry. |
| `LocalScan.WalkDistinct` | services/source_worker/connectors/local.py:112-150 | Every id is reported once. |
| `LocalScan.TreeCompleted` | services/source_worker/engine.py:926-979 | After a completed run over a tree: an entry the walk reaches has its classified lifecycle, a known one behind an excluded folder of the tree is excluded, any other known one is missing. |
| `TableGrid.GridBoundaries` | services/index_worker/pdf_layout.py:383-401 | Boundaries come back exactly when clustering gives the expected number of them, and they are the clusters' means. |
| `TableGrid.BoundariesSpaced` | services/index_worker/pdf_layout.py:383-401 | Recovered boundaries are strictly increasing and more than the tolerance apart. |
| `TableGrid.MeansDetermined` | services/index_worker/pdf_layout.py:383-401 | The coordinates determine the boundaries. |
| `TableGrid.BoundaryIndexRaises` | services/index_worker/pdf_layout.py:404-412 | An edge is refused if and only if no boundary lies within tolerance. |
| `TableGrid.BoundaryIndexExact` | services/index_worker/pdf_layout.py:404-412 | On spaced boundaries an edge within half the tolerance of a boundary is given that boundary. |
| `TableGrid.CellAtFits` | services/index_worker/pdf_layout.py:260-283 | A cell taken in is anchored at its slot, inside the grid, and each edge is near the boundary its span reaches. |
| `TableGrid.MarkSpan` | services/index_worker/pdf_layout.py:284-288 | The occupancy loop succeeds if and only if every slot of the span is free, and then marks exactly them. |
| `TableGrid.RecoverCells` | services/index_worker/pdf_layout.py:256-302 | Cells come back if and only if every detected cell aligns and the cells tile the grid, each slot in exactly one of them. |
| `TableGrid.RecoverTable` | services/index_worker/pdf_layout.py:221-314 | A block comes back exactly for the tables that meet every condition of the recovery; it has the table's rounded box and header rows, and row by row one cell for each detected box, with its rounded box, the spans its edges reach and the text extracted at its own row and column. |
| `TableGrid.AcceptedExactly` | services/index_worker/pdf_layout.py:221-302 | A table is accepted if and only if it is readable, has a grid, and the cells of its detected boxes tile the grid, a fifth of them or more with text. |
| `TableGrid.CellsAreListed` | services/index_worker/pdf_layout.py:256-296 | The cells of a table are determined by its boxes, texts and grid. |
| `TableGrid.HeaderRowsExactly` | services/index_worker/pdf_layout.py:317-329 | A header of the table counts down to the boundary it reaches if that is further than what was inferred; any other counts for nothing. |
| `TableGrid.NestedExactly` | services/index_worker/pdf_layout.py:332-349 | Two header rows are inferred if and only if two cells of the second row lie within the columns of one of the first. |
| `TableGrid.RoundedIsNearest` | services/index_worker/pdf_layout.py:415-421 | A rounded coordinate is the nearest thousandth, and the even one of two. |
| `TableGrid.AreaConserved` | services/index_worker/pdf_layout.py:300-302 | The areas of an accepted table's spans add up to rows times columns. |
| `TableHtml.Relayout` | services/index_worker/pdf_layout.py:352-370 | Forming a table (section 4.9.12.1 of the WHATWG HTML Standard) from the projection of a tiled block gives back every cell's row, column, spans, text and heading, over the same grid, with no slot claimed twice. |
| `TableHtml.AcceptedTableRelayout` | services/index_worker/pdf_layout.py:221-370 | The same for every table the recovery accepts, within the standard's span limits. |
| `TableMarkup.PrintBlock` | services/index_worker/pdf_layout.py:352-370 | The nested loops print exactly the projection, row by row and by column, with escaped texts. |
| `TableMarkup.TableRead` | services/index_worker/pdf_layout.py:352-370 | Whatever ids and texts hold, the printed text reads back as the same id and elements, headings, spans and texts. |
| `TableMarkup.PrintedTableRelayout` | services/index_worker/pdf_layout.py:221-370 | Accepted, printed as text, read and laid out, a table has every cell back where it was, with its spans, its compacted text and its heading. |
| `TableMarkup.PrintedTexts` | services/index_worker/pdf_layout.py:221-370 | In terms of the table: exactly the detected boxes are laid out, each at its own row and column with the words extracted there, as a heading exactly in the header rows and the first column. |
| `TableMarkup.CompactIsWords` | services/index_worker/pdf_layout.py:441-442 | A compacted text is the words of the text, one space apart. |
| `TableMarkup.UnescapeEscape` | services/index_worker/pdf_layout.py:367-370 | Character references undo escaping. |
| `SseFraming.FrameReader.TakeCompleteFrames` | web/lib/retrieval-client.ts:141-174 | Taking frames from the resume index gives the frames of the whole buffer and leaves its unfinished rest, so resuming two characters back never skips a terminator. |
| `SseFraming.FrameReader.Receive` | web/lib/retrieval-client.ts:200-228 | One chunk gives the events and comments of the frames it completes. |
| `SseFraming.FrameReader.Finish` | web/lib/retrieval-client.ts:357-364 | The end of the stream closes and frames what is left unless it is blank. |
| `SseFraming.FramesSplit` | web/lib/retrieval-client.ts:141-174 | Framing in two pieces is framing the whole. |
| `SseFraming.TerminatorStable` | web/lib/retrieval-client.ts:141-174 | A terminator once complete stays the first terminator of every extension. |
| `SseFraming.ReadStream` | web/lib/retrieval-client.ts:323-366 | However the text is cut into chunks, the same frames are delivered as for the whole text. |
| `SseFraming.StreamRoundTrip` | services/retrieval_api/app.py:114-121 | Every sequence of one-line payloads and keep-alive comments is recovered exactly and in full. |
| `SseStyles.StyledRoundTrip` | web/lib/retrieval-client.ts:141-228 | However a stream is written, of whatever fields and with LF or CRLF line ends, block by block, each block's data is delivered, its lines joined by line feeds, and a comment where there is none. |
| `SseFraming.Transport` | services/retrieval_api/app.py:114-121 | Printed by the server, cut anywhere and read by the client, the messages arrive as sent. |
| `PageWindow.ParsePageWindow` | services/retrieval_api/query_engine.py:963-1002 | The parsing loop raises exactly on the texts that `ParseRaisesExactly` tells, and otherwise accepts exactly the texts of the grammar, in any script's digits, and returns their pages sorted. |
| `PageWindow.ParseRaisesExactly` | services/retrieval_api/query_engine.py:977-993 | Reading a text raises if and only if, with all parts before it adding pages, a part is made of characters that `isdigit` accepts and one of its numbers is not converted by `int`. |
| `PageWindow.DigitsBeyondAscii` | services/retrieval_api/query_engine.py:977-993 | A superscript two raises, and a full-width three is page 3. |
| `PageWindow.WindowNames` | services/retrieval_api/query_engine.py:963-1002 | A text names pages if and only if it is not blank and each of its parts, taken in turn, is a page or a range in order, not too long, that fits beside those before it; it names the pages of all its parts. |
| `PageWindow.OverlapCounted` | services/retrieval_api/query_engine.py:986-990 | A range named twice is accepted if and only if twice its length fits: pages that two ranges share are counted twice. |
| `PageWindow.ParsedWindowBounded` | services/retrieval_api/query_engine.py:963-1002 | A parsed window holds between one and a thousand pages, all positive. |
| `PageWindow.FormatPageWindow` | services/retrieval_api/query_engine.py:1005-1019 | The printing loop prints the runs of the sorted pages. |
| `PageWindow.RunsAreMaximal` | services/retrieval_api/query_engine.py:1005-1019 | The printed ranges are the maximal runs: disjoint, ascending and not adjacent. |
| `PageWindow.WindowRoundTrip` | services/retrieval_api/query_engine.py:963-1019 | Printing a non-empty set of page numbers and parsing it gives the set, or is refused above a thousand pages. |
| `PageWindow.WindowCanonical` | services/retrieval_api/query_engine.py:963-1019 | The printed form of an accepted window is canonical, and reading it again changes nothing. |
| `PageWindow.BoundedPageNumbers` | services/retrieval_api/query_engine.py:1022-1034 | The result is the first eligible pages of the window up to the limit, in order; it raises exactly when the window does. |
| `TreeSearch.SearchDocument` | services/retrieval_api/query_engine.py:1618-1772 | The search with its loops, fallbacks and printed windows is `SearchOf`, for every sequence of replies; what that promises is in the next rows. |
| `TreeSearch.SearchKeepsBudget` | services/retrieval_api/query_engine.py:1618-1772 | For every sequence of replies: the selections are available, within the round and page limits, each later one disjoint from what has been inspected, and the search ends with exactly one terminal step, which holds all the evidence that the inspected pages load, or has raised and has none. |
| `SearchReplies.SearchFollows` | services/retrieval_api/query_engine.py:1460-1772 | Every later selection is what the reply of its round asked for, round after round, and coverage is called complete only by a reply that asks for nothing more. |
| `SearchReplies.PayloadSelects` | services/retrieval_api/query_engine.py:1084-1118 | A reply that names tree nodes selects the least of their pages that are available and new; only one that names none selects by its text. |
| `SearchReplies.MatchingPagesFirst` | services/retrieval_api/query_engine.py:1238-1343 | Whatever the first reply, the pages that match the query are in the first selection if they fit in it. |
| `SearchReplies.NamedPagesFirst` | services/retrieval_api/query_engine.py:1205-1343 | What the first reply names is selected together with overview and matching pages if all of them fit. |
| `SearchReplies.ListedIs` | services/retrieval_api/query_engine.py:1205-1236 | Overview pages are kept whole among the selected ones, with as many of the least others as there is room for. |
| `SearchReplies.AnchoredIs` | services/retrieval_api/query_engine.py:1312-1334 | So are pages that match the query. |
| `SearchReplies.EmptyExactly` | services/retrieval_api/query_engine.py:1618-1690 | The search ends empty if and only if neither the chosen pages nor the fallback have an excerpt, and without a selection if and only if neither has an available page. |
| `SearchReplies.DefaultSelects` | services/retrieval_api/query_engine.py:933-945 | The default window selects the first two available pages if and only if they are less than a thousand apart. |
| `SearchReplies.GapEndsSearch` | services/retrieval_api/query_engine.py:933-945 | With a wider gap, no matching pages and no usable reply the search is given up without a selection, and only then. |
| `TreeSearch.RaisesExactly` | services/retrieval_api/query_engine.py:1553-1597 | The search has no terminal step if and only if one of the replies it has asked for selects by a text whose reading raises, given what was inspected when it came. |
| `TreeSearch.ReadableCompletes` | services/retrieval_api/query_engine.py:1618-1772 | When every reply can be read the search ends with exactly one terminal step. |
| `TreeSearch.SuperscriptEndsSearch` | services/retrieval_api/query_engine.py:1553-1597 | A second reply that asks for page "²" ends the search without a terminal step, after a first round that has loaded evidence. |
| `TreeSearch.LaterRoundNew` | services/retrieval_api/query_engine.py:1690-1737 | A later round takes no page of any selection before it if and only if it takes none of a first selection that the fallback has replaced. |
| `TreeSearch.ReplacedIsEmpty` | services/retrieval_api/query_engine.py:1655-1690 | A first selection is replaced only when it loads nothing, and all that is selected exceeds the page budget by no more than it. |
| `TreeSearch.SelectedTwice` | services/retrieval_api/query_engine.py:1655-1737 | A search over any document of three to a thousand pages with an excerpt of the first one only, in which the replaced first selection is selected again. |
| `TreeSearch.SearchRounds` | services/retrieval_api/query_engine.py:1690-1772 | The round loop, which reads each printed selection back and merges what it loads, is the recursion over the replies. |
| `TreeSearch.ChoosePageWindow` | services/retrieval_api/query_engine.py:1238-1343 | The first window: the reply's pages widened by overview and matching pages, or the fallback; it raises exactly when the text of the reply does. |
| `TreeSearch.SelectionFromPayload` | services/retrieval_api/query_engine.py:1084-1118 | A reply selects by its nodes, or else by its text, within the limit, and raises when that text does. |
| `TreeSearch.InspectedAvailable` | services/retrieval_api/query_engine.py:1618-1772 | Inspected pages are available pages and never exceed the page budget. |
| `TreeSearch.SelectionsReadBack` | services/retrieval_api/query_engine.py:1755-1772 | Every printed selection, and the final window, name exactly the pages selected and inspected. |
| `EvidenceExpansion.ExpandSupportingPages` | services/retrieval_api/query_engine.py:2255-2337 | On complete-list queries the result is the least closed set of selected pages around the support, or it raises exactly when there is support and the window does; otherwise it is the support. |
| `EvidenceExpansion.TwoPassesAreClosure` | services/retrieval_api/query_engine.py:2255-2337 | Bridging each run and one ascending pass of continuations reach the least closed set. |
| `EvidenceExpansion.FillGaps` | services/retrieval_api/query_engine.py:2312-2327 | Each run is bridged between its first and last supporting page, and nowhere else. |
| `EvidenceExpansion.FollowContinuations` | services/retrieval_api/query_engine.py:2329-2337 | One ascending pass adds exactly the pages that continue kept ones. |
| `EvidenceExpansion.ClosureMonotone` | services/retrieval_api/query_engine.py:2255-2337 | More support never keeps fewer pages. |
| `EvidenceExpansion.ClosureIdempotent` | services/retrieval_api/query_engine.py:2255-2337 | Expanding the result again changes nothing. |
| `EvidenceExpansion.ClosureStaysInRuns` | services/retrieval_api/query_engine.py:2255-2337 | The result stays within the contiguous selected runs that hold support. |
| `EvidenceExpansion.ClosureLeavesIntervals` | services/retrieval_api/query_engine.py:2255-2337 | It leaves one interval of pages in each such run. |
| `Scheduler.GatherEvidence` | services/retrieval_api/query_engine.py:3192-3326 | For every interleaving the loop ends, each document is submitted once in selection order, no more than the limit are in flight, each document's progress is passed on in order, and the results are those of working on the documents one by one. |
| `Scheduler.RetainedInOrder` | services/retrieval_api/query_engine.py:2737-2743 | Results are kept in the order of the selection, and only missing ones are left out. |
| `Scheduler.LastFoundIs` | services/retrieval_api/query_engine.py:3305-3309 | The result kept of a document is the last one it yields. |
| `Scheduler.TakeItem` | services/retrieval_api/query_engine.py:3293-3310 | One queue item keeps a result, passes progress on, or ends a document and submits the next. |
| `Scheduler.NeverStuck` | services/retrieval_api/query_engine.py:3286-3312 | While documents are missing one of them is running or has something queued. |
| `Scheduler.TakenKeeps` | services/retrieval_api/query_engine.py:3293-3312 | Taking an item keeps the bookkeeping: what a document has sent is taken or queued in order, nothing follows its end, and a free slot is refilled while documents remain. |
| `Scheduler.Concurrency` | services/retrieval_api/query_engine.py:3278-3281 | The limit is between one and five, five when none is asked for. |
| `Tournament.RankDocuments` | services/common/document_search.py:107-154 | Matches come first, in their order and with the score of their first match, each id once, then the rest in stable order; every document with an id of its own appears exactly once. |
| `Tournament.CandidateBatches` | services/retrieval_api/select_documents.py:341-358 | The batches are the ranking cut into pieces of fifty documents, the last one of fifty or less. |
| `Tournament.SelectDocuments` | services/retrieval_api/select_documents.py:454-522 | One reply is turned into a selection and an outcome in every case of the parser. |
| `TournamentReplies.ReplySelects` | services/retrieval_api/select_documents.py:484-522 | A reply selects the documents its identifiers name, each once and in their order, up to the limit, and is complete if and only if it was not cut off and every identifier that was looked at names one; the other replies select nothing, each for its reason. |
| `TournamentReplies.NamedExactly` | services/retrieval_api/select_documents.py:494-507 | An identifier names the last document that has it for an id or an alias, and nothing when there is none. |
| `Tournament.SelectionSound` | services/retrieval_api/select_documents.py:454-522 | Whatever the reply, a selection holds at most the limit, each document once, from what was shown. |
| `Tournament.AliasNames` | services/retrieval_api/select_documents.py:494-500 | Among distinct documents an alias names its own position if and only if no later document has taken it for an id. |
| `Tournament.AliasHolder` | services/retrieval_api/select_documents.py:494-500 | In every case an alias names the last document behind its position whose id is spelled like it, or its own. |
| `Tournament.AliasTakenOver` | services/retrieval_api/select_documents.py:494-500 | Two documents and a reply that chooses the first and selects the second. |
| `Tournament.Rerank` | services/retrieval_api/select_documents.py:549-598 | The reduction loop, which ends because the pool shrinks in every round, plays the tournament round by round. |
| `TournamentReplies.TournamentEnds` | services/retrieval_api/select_documents.py:549-598 | What comes out is what the last reply selects from the last pool, the pool itself within the limit, or its first documents when that reply selects nothing or the pool could not be reduced. |
| `TournamentReplies.RoundSends` | services/retrieval_api/select_documents.py:560-583 | A round takes the batches in turn, one reply each, and sends on what the reply selects, nothing after an explicit refusal, and the first documents of the batch after any failure. |
| `TournamentReplies.FirstsInOrder` | services/retrieval_api/select_documents.py:537-547 | Nothing that comes later moves or replaces what is kept of earlier documents. |
| `TournamentReplies.BatchScored` | services/retrieval_api/select_documents.py:341-358 | A batch is scored by its first and its last match. |
| `Tournament.TournamentSound` | services/retrieval_api/select_documents.py:549-598 | However the model behaves, the tournament leaves at most the limit, each id once, from the pool, something of any pool, and a pool within the limit whole. |
| `Tournament.FirstPass` | services/retrieval_api/select_documents.py:601-636 | Batches are shown in order up to the first technical failure; an exhaustive pass stops nowhere else, an adaptive one only before an unpromising batch. |
| `Tournament.SelectFromBatches` | services/retrieval_api/select_documents.py:601-652 | The selection is the tournament over what the shown batches picked, and without any the most serious failure among their replies, or an explicit refusal; an exhaustive pass without technical failure has shown every batch. |
| `Tournament.SelectCandidates` | services/retrieval_api/select_documents.py:689-711 | From scope to selection: every document with an id of its own is in exactly one batch, and the result holds at most the limit, each id once, from the scope. |
| `ClaimFairness.Pool.ClaimNextJob` | services/index_worker/worker.py:34-85 | A claim takes a job that no available one precedes by priority, running jobs of its source, running jobs of its project and age, or none when none is available. |
| `ClaimFairness.ClaimPrefers` | services/index_worker/worker.py:38-66 | The claimed job is queued, due and of a source that is not being migrated, and no such job comes before it by urgency, running jobs of its source, running jobs of its project, and age. |
| `ClaimFairness.Pool.StartQueuedJobs` | services/index_worker/worker.py:150-170 | Slots are filled with the next jobs in turn until none is free or nothing can be claimed. |
| `ClaimFairness.BurstIsFair` | services/index_worker/worker.py:34-85 | After any burst of claims from idle over jobs of equal priority no source runs more than one job more than a waiting source, and no project more than a waiting project of its source. |
| `ClaimFairness.ClaimShares` | services/index_worker/worker.py:34-85 | Every claim of such a burst keeps it fair. |
| `SemanticIndex.OneStaysActive` | services/common/semantic_index.py:697-719 | Once a generation has been activated exactly one is active in every later state, over any interleaving of backfill workers. |
| `SemanticIndex.OneEachAlways` | services/common/semantic_index.py:655-738 | Over any interleaving no configuration has two generations in service, whatever late workers write. |
| `SemanticIndex.SwitchWritten` | services/common/semantic_index.py:697-719 | The switch activates the generation and retires the active ones and no other, and is refused if and only if an inactive one of the same configuration is in service. |
| `SemanticIndex.WorkWritten` | services/common/semantic_index.py:660-738 | A worker writes the row of its generation, as tested, counted or failed, and nothing else, unless another one has taken its place. |
| `SemanticIndex.OneHolder` | services/common/semantic_index.py:574-607 | A generation has at most one holder whose lease has not run out. |
| `SemanticIndex.LeaseLasts` | services/common/semantic_index.py:574-607 | A lease keeps everyone out for five minutes and no longer, unless its owner gives it back. |
| `SemanticIndex.DegradedWaits` | services/common/semantic_index.py:722-738 | A degraded generation is left alone for a minute. |
| `SemanticIndex.DueExactly` | services/common/semantic_index.py:146-160 | There is work to do unless the generation is waiting, complete and active, or leased. |
| `SemanticIndex.BackfillAccount` | services/common/semantic_index.py:133-216 | Over any interleaving of backfill workers in which no document is indexed again, what a generation misses is what it missed before less what has been persisted for it. |
| `SemanticIndex.PersistLater` | services/common/semantic_index.py:610-657 | A worker that persists some time after it chose a document stores it for good if and only if its index is still current then or another worker was faster. |
| `SemanticIndex.ActivationCovers` | services/common/semantic_index.py:180-190 | A worker switches some time after it found nothing missing: missing is then exactly what reindexing has made ready since and no worker has stored. |
| `SemanticIndex.ActivatedIncomplete` | services/common/semantic_index.py:180-190 | An execution in which a generation is switched to with a document missing. |
| `SemanticIndex.FillGeneration` | services/common/semantic_index.py:166-206 | With nothing between its transactions: one missing document is stored, or the complete generation is switched to, or the generation is marked degraded because the provider failed. |
| `SemanticIndex.AdvanceBackfill` | services/common/semantic_index.py:133-216 | One call with nothing between its transactions does nothing but create the generation, or does its work and gives the lease back, for the stated reason. |
| `SemanticIndex.StepsForward` | services/common/semantic_index.py:610-657 | Such a call that stores lowers the missing documents by that one; one that switches does so with none missing and leaves one active generation. |
| `SemanticIndex.StoredSteps` | services/common/semantic_index.py:133-216 | As many such calls store a document as were missing to begin with. |
| `SemanticIndex.SearchDocuments` | services/common/semantic_index.py:271-342 | A search is answered exactly when the active generation covers the scope, and then scores every allowed document once, best first, and no other; a search that is not answered says why. |

## Left out

- Several sources in one database: the rows are those of one source, keyed by external id, as the schema's unique index allows; only `ClaimFairness` has several.
- `SourceWorker.KnownDescendants`: for parent links that lead to shorter ids, as path-shaped ids have; the same holds for the methods that call it.
- `ClaimFairness.BurstIsFair`: a project belongs to one source, as the schema has it.
- Sources whose ids are not paths: folder-then-id order is not topological for opaque ids, and the completion theorems assume path-shaped ids as the local connector makes them.
- The root collection of the local connector: it lists files only, and the walk of the other collections is the hard case.
- `FilterChanges.ChangeRules`: states runs and revisions, not the immediate marking of the excluded items, documents and jobs, which the interleaving allows as an administrative step.
- Administration in the interleaving is a relation that contains what the web application and the maintenance task write (rules, selection, validation, disabling, manual synchronization, reindexing, index retention, migration requests), not a function for each; the purge of a whole source is not in it.
- The claiming and validation of a migration before its start: in the interleaving any migration without unfinished runs may be started at any time.
- Source validation and discovery, health states, backoff, jitter, schedules, audit events and progress counters: easy members around the same rows.
- Columns that no guard reads: names, sizes in documents, metadata text, import status, error summaries.
- Removal of item rows: nothing in the repository sets their deletion time.
- Availability times and priorities in the interleaving: any claimable job may be claimed there; the order is in `ClaimFairness`.
- `Restoration.RestoredDocument`: states reconciliations and ends of runs only; over all steps and with migrations it is `Readmission.ReadmittedExactly` and `Readmission.ReadmittedByMigration`.
- `SemanticIndex.FillGeneration`: states one call with nothing between its transactions; what other workers and reindexing do in between is stated over executions (`BackfillAccount`, `PersistLater`, `ActivationCovers`).
- `SemanticIndex.AdvanceBackfill`: states one call with nothing between its transactions, as `FillGeneration` does.
- `SemanticIndex.StepsForward`: follows such calls one by one; over executions it is `BackfillAccount`.
- `SemanticIndex.StoredSteps`: counts such calls back to back, with fixed provider answers; over executions it is `BackfillAccount`.
- The staleness of stored embeddings after a document is indexed again: the index id is fixed for a document, and embeddings are not compared with its text.
- Node profiles of the semantic index, their ids and seed nodes: a document stands for its document profile.
- Cosine similarity and vector packing: similarity is any function of two vectors.
- Documents of the directory watcher, uploads and the remote corpus: separate flows with simpler rules.
- `TableGrid.GridBoundaries`: coordinates are real numbers, without floating-point rounding.
- `TableHtml.AcceptedTableRelayout`: for spans within the standard's limits of 1000 columns and 65534 rows, because a browser clamps larger ones; a row span of zero is never printed and not modelled.
- Page-level projection around tables (text blocks, reading order, ambiguity of a page): list plumbing over accepted tables.
- `SseFraming.Transport`: payloads are opaque one-line texts; JSON, byte decoding and a bare CR as line end are not modelled.
- `PageWindow.ParsePageWindow`: which characters beyond ASCII count as digits, and with what value, is an arbitrary table in which only the superscript one to three and the full-width digits are fixed.
- `PageWindow.WindowRoundTrip`: page numbers have no more digits than `int` converts.
- `TreeSearch.SearchDocument`: the pages of a document are positive and have no more digits than `int` converts.
- The reader of grounded answers (query_engine.py:2214), which reads a page window as well: its outcomes are inputs here.
- `Scheduler.GatherEvidence`: no cancellation and no deadline; what a document yields is a fixed script, so a failure inside it is its last event.
- The capacity limit for model calls, coverage assessment across waves and the merging of grounded results: their outcomes are inputs here.
- `Tournament.RankDocuments`: scores and matches are inputs, and the stable order of unmatched documents is given as a permutation of the scope.
- `Tournament.SelectCandidates`: the strong lexical fallback and the protected anchor document that are merged around the model's selection, and the hybrid pool built from semantic ranks.
- `Tournament.SelectionSound`: for limits of at least one, which the callers guarantee.
- Prompts, excerpts, language rules and the parsing of replies into identifiers: replies are arbitrary, already parsed.
- The text walk with a character budget of the document search: its result only feeds the ranking.
