# The CVE pipeline as a state machine

This project models the part of the program that moves a CVE from an ingested file, mail or feed entry to a ticket,
and proves what that part keeps over every history: the work queue, the run of one event, enrichment with its
waiting markers, ingest bookkeeping, the reconciliation loops (match links, owner mails, the request limiter) and the
classification and aggregation that the pages show.

Each module takes the form of the file it models. State that the program updates in place is a class or a method with
loops, proved against a specification function; what the program promises is then proved about that function as
lemmas, mostly by induction over histories of steps.

| module | models | main results |
|---|---|---|
| `WorkQueue` | `app/workers/queue.py` | `NoIdIsQueuedOrRunTwice`, `ScanClaimsEveryRow`, `FinishedInTheOrderTaken`, `RequeueIsNeverLostIffNotLoaded` |
| `Events`, `EventStore`, `Ingestion`, `IngestHistory` | `app/services/ingestion.py` | `DeleteEventsById`, `HistoryKeepsTheBooks`, `QueuedFileHasOneRow`, `RejectedIffNothingIsInTheWindow`, `KnownDeliveryIsRecorded` |
| `SkipCache`, `SkipCacheFailures` | the unchanged-file skip and the poll loop around it | `SkipIsSoundAfterGuardedHistories`, `PollKeepsCoverageIff`, `RewriteKeepsCoverageIff`, `SkipIsSoundIffTheRecordCovers` |
| `Purge` | `purge_duplicate_ingest_events` | `PurgeLosesNoCve`, `PurgeIsIdempotent`, `ExactlyTheNewestFileRowSurvives`, `RowWithoutAFileGoesIff` |
| `Enrich` | `app/pipeline/step3_enrich.py` | `MarkersAgree`, `NamesHavePrecedence`, `AttemptsCountTheWaits`, `RetryFollowsTheBackoff` |
| `Orchestrator`, `RunEffects`, `RunHistory`, `RunRows` | `app/pipeline/orchestrator.py`, the stop of the worker and the retry of waiting CVEs | `RunClosesIffNotInterrupted`, `WhatHistoriesLeaveOpen`, `HistoriesAreGated`, `StoredRowsAreTheLastWrites`, `TurnColumns`, `EventOutcome`, `StoredRowChangesIff`, `PausedCveStaysDueIff` |
| `Workflow`, `Outcomes` | `app/services/workflow.py` | `ProgressIsConsistent`, `DoneOnlyGrows`, `CountersConserve`, `CountersOnTheTables`, `RunIsShown`, `RetryIsShown` |
| `Dashboard` | `app/api/dashboard.py` | `BuildTrendSeries`, `TrendOnTheRows`, `TotalsConserve` |
| `MatchSync` | `app/pipeline/step4_match.py` | `LinksAreTheLatestRuns`, `LinkHoldsTheMaximum`, `LinkAfterMatch`, `LinksAgreeWithTheAnswerIff` |
| `OwnerMail` | owner mails of `app/pipeline/step5_act.py` | `AssetIsMailedAtItsAddress`, `AtMostOneOwnerMail`, `ChannelRoundTripsIff` |
| `RateLimit` | `app/utils/rate_limit.py` | `LimiterRefinesTheRule`, `RefusedIffTheWindowIsFull`, `NoWindowOverflows` |

`Records`, `Text` and `Wrappers` hold the shared rows, string operations and the optional value.

Clocks, lookups, mail servers and models are parameters: each is an arbitrary answer or an exception. Times are
integers (reals in the limiter), confidences are integer hundredths.

## Where the code keeps less than one would expect

These are proved as they stand, each with the exact condition under which the expected property holds.

- An event that is queued again between the loading of its row by a run and that run's outcome can be lost: the claim is
  refused and the run's commits replace the queued status (`WorkQueue.RequeueIsNeverLostIffNotLoaded`). A put left over
  from the session before a restart queues its id twice (`WorkQueue.StaleCallbackQueuesTwice`).
- The unchanged-file skip is not sound by itself, for two reasons, each shown by a history from the empty table. When a
  file changes while all its ids are known, the play is recorded under a hidden name, the stamp is kept, and the file's
  recorded ids stay the old ones (`SkipCacheFailures.HiddenChangeIsSkippedLater`, `SkipCache.PollKeepsCoverageIff`). And
  when a poll rewrites a row while its run is under way, the run commits the ids of the payload it had loaded over the
  new ones (`SkipCacheFailures.RewrittenUnderItsRunIsSkipped`, `SkipCache.RewriteKeepsCoverageIff`).
- Runs delete events without lowering `event_count`, so the counter exceeds the rows by exactly the rows they deleted
  (`IngestHistory.HistoryKeepsTheBooks`).
- A worker that is stopped inside a run leaves the event processing and the run open; the next run closes the event but
  not the old run, unless it deletes the event (`RunHistory.WhatHistoriesLeaveOpen`, `RunHistory.InterruptedRunStaysOpen`).
  A CVE that was new in the interrupted run is never finished: the next run takes it for a known one
  (`RunHistory.InterruptedCveIsAbandoned`). A retry whose pass does not come to its end leaves its own run open.
- An exception inside `accept_cve` fails the CVE of the last accepted turn (`RunEffects.AcceptFailureHitsTheLastAccepted`),
  which is how a stored row can fail without being touched (`RunEffects.StoredRowChangesIff`) and how a waiting CVE can
  drop out of the retries while its run goes on waiting (`RunEffects.PausedCveStaysDueIff`, `RunHistory.PausedThenFailed`).
  An event all of whose CVEs raise there is dropped as if they were all known (`RunEffects.AllAcceptsRaise`).
- The disabled branch of enrichment does not clear `waiting` (`Enrich.DisabledPassWaitsIffItWaited`), and the two pops of
  the enabled branch are one short-circuited condition, so `skip_reason` can outlive it (`Enrich.SkipReasonSurvivesIff`).
- An empty inventory leaves old match links in place while the pass reports no match (`MatchSync.LinksAgreeWithTheAnswerIff`).
- A stored ticket is never read back by the provider packed with it, so custom tickets read as Jira ones
  (`OwnerMail.PackedProviderIsNotRead`, `OwnerMail.ChannelRoundTripsIff`). An address longer than the assignee column is
  mailed again by every run (`OwnerMail.MailedAddressIsRememberedIff`), and its mails count under the key of an address
  that is its first 128 characters (`OwnerMail.TwinBreaksTheLimit`).

## Model

| member | source | states |
|---|---|---|
| `WorkQueue.StepKeepsInv` | app/workers/queue.py:36-145 | every step of any thread, the loop or the worker keeps: a shut queue is empty, and in a session `_pending` is the disjoint union of ids claimed but not put, scheduled, queued and running |
| `WorkQueue.RunKeepsInv` | app/workers/queue.py:36-145 | the same over every interleaving, if nobody is half-way through `enqueue` when `start` clears `_pending` |
| `WorkQueue.NoIdIsQueuedOrRunTwice` | app/workers/queue.py:36-68 | in every reachable session state no id is queued twice and the running id is not queued |
| `WorkQueue.StartAccountsIffNobodyIsMidEnqueue` | app/workers/queue.py:70-78 | `start` establishes the accounting iff no claim, callback or queued id is left over |
| `WorkQueue.StaleCallbackQueuesTwice` | app/workers/queue.py:36-78 | with a left-over callback there is a run that queues one id twice |
| `WorkQueue.ScanProgress` | app/workers/queue.py:98-117 | whatever other threads do during a scan, the rows it has passed stay claimed |
| `WorkQueue.ScanClaimsEveryRow` | app/workers/queue.py:98-117 | after `start` every queued or processing row, and after an idle timeout every queued row, is claimed and on its way to the worker |
| `WorkQueue.FirstInFirstOut` | app/workers/queue.py:60-145 | over every run, ids taken followed by ids left are ids queued followed by ids put |
| `WorkQueue.PositionIsServiceOrder` | app/workers/queue.py:119-145 | the id at queue position k is the one taken after exactly k others |
| `WorkQueue.TakenIdIsRunOnceIffItsRowIsThere` | app/pipeline/orchestrator.py:67-178 | over every run, between the taking of an id and its release the worker loads the row, commits processing and then exactly one outcome when the row is there, and only looks for it when it is gone |
| `WorkQueue.RunCommits` | app/pipeline/orchestrator.py:74-161 | those commits mark the row processing, then settle or delete it, and touch no other row |
| `WorkQueue.FinishedInTheOrderTaken` | app/workers/queue.py:119-145 | over every run without a stop the events whose outcome is committed, followed by the one in service, are exactly the ids taken while their row was there, in the order taken |
| `WorkQueue.RequeuedEventStaysCovered` | app/workers/queue.py:36-145 | a row that is on its way, or queued while no run has it loaded, stays so through every run until a run loads it, the queue stops or the row is deleted |
| `WorkQueue.RequeueWhileRunningIsLost` | app/workers/queue.py:50-68 | queueing an event whose processing status is committed has a continuation after which nothing holds it and no scan will find it |
| `WorkQueue.RequeueAfterLoadingIsLost` | app/pipeline/orchestrator.py:68-78 | the same between the loading of the row and the commit that marks it processing |
| `WorkQueue.RequeueIsNeverLostIffNotLoaded` | app/workers/queue.py:36-145 | some continuation loses a request for an event iff a run has its row loaded and not committed its outcome; otherwise no continuation loses it before a run loads the row (safety only: that a run comes is not claimed) |
| `WorkQueue.InProcessQueue.Claim` | app/workers/queue.py:50-58 | the method performs the protocol's claim: refused when shut or already pending |
| `WorkQueue.InProcessQueue.Put` | app/workers/queue.py:60-64 | the method performs the protocol's put, which is dropped when the queue is shut |
| `WorkQueue.InProcessQueue.Release` | app/workers/queue.py:66-68 | the method gives the running id back |
| `WorkQueue.InProcessQueue.Enqueue` | app/workers/queue.py:36-48 | claim, then a put on the loop's thread or a scheduled put from any other; what becomes of `_pending`, the queue and the callbacks |
| `WorkQueue.InProcessQueue.Rehydrate` | app/workers/queue.py:98-117 | the loop over the rows is one scan step of the protocol per row |
| `WorkQueue.InProcessQueue.Start` | app/workers/queue.py:70-78 | new queue, cleared `_pending`, then a scan of all queued and processing rows: the queue is the query result in its order and `_pending` its ids |
| `WorkQueue.InProcessQueue.Stop` | app/workers/queue.py:80-96 | the queue, `_pending` and the worker are gone |
| `EventStore.IterChunks` | app/services/ingestion.py:132-134 | the chunks concatenate to the list, none is empty or larger than the size, all but the last have it |
| `EventStore.DeleteEventsById` | app/services/ingestion.py:137-149 | chunked deletion equals one deletion of the id set, for every chunk size and repeated ids, and returns the number of distinct existing ids |
| `EventStore.DeletionLeavesNoDanglingRun` | app/services/ingestion.py:145-146 | exactly the runs that do not refer to a deleted event remain |
| `Events.WithoutKeepsTheRest` | app/services/ingestion.py:147 | deletion keeps exactly the rows with other ids |
| `Events.RecentCovers` | app/services/ingestion.py:33-43 | a scan whose limit covers the source sees all of its rows |
| `Events.RecentAreTheNewest` | app/services/ingestion.py:33-43 | a scan sees as many rows of the source as its limit allows, and no unseen one is newer than a seen one |
| `Ingestion.KnownCveIds` | app/services/ingestion.py:339-369 | the leftover set and the early exit return exactly the wanted ids that are stored or in a scanned queued or processing row |
| `Ingestion.FileEventFor` | app/services/ingestion.py:28-43 | the first of the scanned rows, newest first, that shows the name |
| `Ingestion.OtherFileEventIds` | app/services/ingestion.py:46-63 | the other scanned rows that show the name |
| `Ingestion.IngestPayload` | app/services/ingestion.py:416-495 | the whole new state and the outcome equal the specification `IngestSpec` |
| `Ingestion.RewriteFileRow` | app/services/ingestion.py:460-476 | the file's row is rewritten and queued, its other rows are deleted and the counter lowered |
| `IngestHistory.RequeueKeepsDrift` | app/services/ingestion.py:469-471 | the clamp at 1 never changes the counter while it does not lag behind the rows |
| `IngestHistory.IngestKeepsDrift` | app/services/ingestion.py:416-495 | no ingest changes how far any source's counter is ahead of its rows |
| `IngestHistory.IngestKeepsOneRow` | app/services/ingestion.py:453-495 | an ingest keeps at most one row per file name and source visible |
| `IngestHistory.QueuedFileHasOneRow` | app/services/ingestion.py:453-495 | from any table, after a file was queued exactly one row shows its name, queued, with all its ids inside the window |
| `IngestHistory.FeedEntryIsAlwaysQueued` | app/services/ingestion.py:432-437 | a feed entry inside the window is queued whether or not its ids are known |
| `IngestHistory.PlainDeliveryQueuesTheUnknown` | app/services/ingestion.py:434-495 | a plain delivery is queued iff it brings an unknown id, the queued row carries exactly the unknown ones, and an all-known one is recorded as skipped without touching the work queue |
| `IngestHistory.RejectedIffNothingIsInTheWindow` | app/services/ingestion.py:426-431 | a delivery is rejected iff neither its payload nor its text names an id inside the window, and then the whole database is unchanged |
| `IngestHistory.PendingRowsAreTheNewest` | app/services/ingestion.py:352-360 | the scan for queued and processing rows sees the newest ones, as many as its limit allows |
| `IngestHistory.KnownOnColumns` | app/services/ingestion.py:339-369 | with a covering scan an id is known iff it is stored or a queued or processing row carries it |
| `IngestHistory.KnownDeliveryIsRecorded` | app/services/ingestion.py:180-213 | a delivery that is no feed entry and brings nothing unknown leaves one skipped play with all its ids, the name of a shown file hidden but kept, and nothing in the work queue |
| `IngestHistory.QueuedAsANewRow` | app/services/ingestion.py:478-495 | a delivery with something unknown, or a feed entry, whose file no row shows adds one queued row: all its ids for a file or a feed entry, the unknown ones otherwise |
| `IngestHistory.QueuedAsTheFilesRow` | app/services/ingestion.py:460-476 | when a row shows the file, that row gets the delivery's text, time, ids and mark and is queued under its old id; rows of other sources stay |
| `IngestHistory.FileRowFoundIsTheNewest` | app/services/ingestion.py:28-43 | with a covering scan a file's row is found iff one exists, and it is the newest |
| `IngestHistory.HistoryKeepsTheBooks` | app/services/ingestion.py:416-495 | over every history of deliveries and runs each file has at most one visible row and the counter is the number of rows plus the rows that runs deleted |
| `IngestHistory.CounterIsExactIffNothingWasDropped` | app/pipeline/orchestrator.py:149-151 | the counter equals the number of rows iff no run deleted a row of the source |
| `SkipCache.FileIsEnqueuedIff` | app/services/ingestion.py:434-476 | a file is enqueued iff one of its ids in the window is unknown |
| `SkipCache.SkipsIff` | app/services/ingestion.py:372-413 | a file is skipped iff it carries the stamp it was last read with and its newest record lists ids that are all stored or in a scanned pending row |
| `SkipCache.PollStampsIff` | app/api/settings/feeds.py:403-425 | a poll keeps the stamp of a file it reads iff the file names an id inside the window or none at all |
| `SkipCache.SecondPollChangesNothing` | app/services/ingestion.py:399-413 | after a poll that queued a file, a second poll of the unchanged file changes nothing |
| `SkipCache.SkipIsSoundIffTheRecordCovers` | app/services/ingestion.py:372-413 | whatever CVEs get stored or removed, the skip of a stamped file is sound iff nothing is recorded for it or the recorded and pending ids cover the file |
| `SkipCache.PollKeepsCoverageIff` | app/api/settings/feeds.py:403-425 | one poll keeps every stamped file covered by its rows iff the branch that hides a play hides no new id |
| `SkipCache.RewriteKeepsCoverageIff` | app/pipeline/orchestrator.py:84-85 | a run's commit of its extracted ids keeps every stamped file covered iff they carry the ids the row's payload has by then |
| `SkipCache.HiddenPoll` | app/services/ingestion.py:180-213 | a hidden play adds one skipped duplicate row and keeps the new stamp |
| `SkipCache.SkipIsSoundAfterGuardedHistories` | app/services/ingestion.py:399-413 | after every history of polls, runs, deletions and other deliveries in which no hidden play brings a new id and every extraction carries the ids of the row it is written to, a skipped file would have enqueued nothing |
| `SkipCache.HiddenNewIdBreaksTheSkip` | app/services/ingestion.py:453-459 | a hidden play with an id that neither the record nor a pending row carries makes some later skip unsound |
| `SkipCacheFailures.HiddenChangeIsSkippedLater` | app/services/ingestion.py:399-459 | a history from the empty table: a file is read, changes while its new id is known, and after one more change of the stored CVEs is skipped although it would be enqueued |
| `SkipCacheFailures.RewrittenUnderItsRunIsSkipped` | app/pipeline/orchestrator.py:68-85 | a history from the empty table with no hidden play: a poll rewrites the row while its run is under way, the run commits what it extracted from the payload it had loaded, and the file is skipped although it would be enqueued |
| `Purge.PurgeDuplicateIngestEvents` | app/services/ingestion.py:268-302 | the loop with its three seen-sets equals the fold, and the result is the table without the dropped ids |
| `Purge.SeenSetsAreTheRows` | app/services/ingestion.py:270-301 | the seen-sets are exactly the keys and ids of the rows looked at |
| `Purge.DropsExactlyTheRedundant` | app/services/ingestion.py:280-301 | the pass drops exactly the rows whose file a newer row shows or whose ids newer rows carry |
| `Purge.SurvivorsCarryEverything` | app/services/ingestion.py:268-302 | the survivors show every file and carry every id, first ingests and plays apart |
| `Purge.SecondPassDropsNothing` | app/services/ingestion.py:268-302 | a pass over the survivors rebuilds the same sets and drops nothing |
| `Purge.PurgeIsIdempotent` | app/services/ingestion.py:268-302 | with a covering scan, purging the table twice is purging it once |
| `Purge.PurgeLosesNoCve` | app/services/ingestion.py:268-302 | every id that a row without a file names in its ids, its payload or its text is still named by such a row, and by a first ingest if it was one |
| `Purge.ExactlyTheNewestFileRowSurvives` | app/services/ingestion.py:281-287 | of the rows of one file and source, whatever the case of the name, exactly the newest survives |
| `Purge.RowWithoutAFileGoesIff` | app/services/ingestion.py:289-301 | a row without a file is deleted iff it names some id and later rows without a file name each of its ids, first ingests for a first ingest |
| `Purge.IngestedRowIsAPlayIffRecorded` | app/services/ingestion.py:169-213 | the row an ingest stores counts as a play for the purge iff the ingest queued nothing |
| `Purge.ScannedAreTheNewest` | app/services/ingestion.py:274-279 | the purge looks at the newest rows, as many as its limit allows |
| `Purge.RowsBeyondTheScanStay` | app/services/ingestion.py:274-302 | a row beyond the scan is never deleted |
| `Enrich.CveRow.PopKeys` | app/pipeline/step3_enrich.py:546-561 | exactly the listed keys are removed |
| `Enrich.CveRow.EnrichCve` | app/pipeline/step3_enrich.py:413-571 | the whole pass, with every point at which a lookup may raise, equals the specification `EnrichPass` |
| `Enrich.MarkersAgree` | app/pipeline/step3_enrich.py:506-571 | after every enabled pass that returns: blob flag, status column and open gaps agree, `missing` lists the gaps, and a complete pass leaves none of the nine keys |
| `Enrich.WaitsIffALookupOwes` | app/pipeline/step3_enrich.py:67-117 | the CVE waits iff an enabled lookup still owes a name or a score |
| `Enrich.UnscoredRecordWaits` | app/pipeline/step3_enrich.py:384-387 | a found record without a score makes the CVE wait whatever score it had |
| `Enrich.SilentLookupsKeepACompleteRow` | app/pipeline/step3_enrich.py:447-463 | lookups that do not answer never make a complete row wait |
| `Enrich.NamesHavePrecedence` | app/pipeline/step3_enrich.py:369-495 | vendor and product after every pass that returns are the first name given by NVD, the delivery, the stored row, the advisory text and the model, in this order |
| `Enrich.ScoresHavePrecedence` | app/pipeline/step3_enrich.py:413-463 | after every pass that returns a found record decides a score alone, otherwise the delivery before the stored value |
| `Enrich.RaisedPassKeepsWhatItFound` | app/pipeline/step3_enrich.py:420-486 | a pass that raises leaves the names and scores the steps before brought, and the statuses and marks of AI use as they were |
| `Enrich.AiUseIsMarkedIffItFilled` | app/pipeline/step3_enrich.py:485-488 | the row is marked for AI use iff it was before or the model filled a field; the marks of the other stages stay |
| `Enrich.FoundLookupsAreKept` | app/pipeline/step3_enrich.py:401-460 | the blob shows each lookup that found the CVE in this or an earlier pass |
| `Enrich.WaitingRowTellsWhy` | app/pipeline/step3_enrich.py:506-523 | a waiting row says whether a lookup timed out, when it is retried and how often it waited |
| `Enrich.WaitingRowNamesWhatIsMissing` | app/pipeline/step3_enrich.py:67-117 | its list of missing fields names exactly those an enabled lookup owes |
| `Enrich.WaitingRowKeepsTheErrors` | app/pipeline/step3_enrich.py:509-523 | it keeps the error of each enabled lookup that missed, and no other |
| `Enrich.DisabledPassWaitsIffItWaited` | app/pipeline/step3_enrich.py:428-440 | after a disabled pass the CVE still counts as waiting iff the flag was set before |
| `Enrich.SkippedIffDisabled` | app/pipeline/step3_enrich.py:428-445 | after every pass that returns the row says that enrichment was skipped iff it was switched off |
| `Enrich.SkipReasonSurvivesIff` | app/pipeline/step3_enrich.py:442-445 | exactly when an enabled pass leaves `skip_reason` behind |
| `Enrich.DelayIsBoundedAndMonotone` | app/pipeline/step3_enrich.py:120-122 | the delay lies between 30 and 1800 seconds, never shrinks and doubles up to five times |
| `Enrich.DelayStartsAtTheBase` | app/pipeline/step3_enrich.py:120-122 | the first delay is the configured one, at least thirty seconds and at most 1800 |
| `Enrich.AttemptsCountTheWaits` | app/pipeline/step3_enrich.py:507-522 | over every run of passes `attempts` is the number of waiting passes since the last complete one |
| `Enrich.RetryFollowsTheBackoff` | app/pipeline/step3_enrich.py:509-522 | the k-th wait in a row is retried after the k-th delay |
| `Orchestrator.PassIsGated` | app/pipeline/orchestrator.py:180-219 | the statuses of a pass are a prefix of ENRICHED, MATCHED, ACTIONED, and tickets are opened iff enrichment returned without waiting and matching returned a link |
| `Orchestrator.PassWritesIff` | app/pipeline/orchestrator.py:180-219 | which status is written for each answer of the stages, and when the pass breaks off |
| `RunEffects.AcceptedTurnWrites` | app/pipeline/orchestrator.py:100-135 | everything an accepted CVE writes in its turn: nothing, INGESTED and FAILED, or what it brought along, a prefix as above, and FAILED exactly when the pass raised |
| `RunRows.StoredRowsAreTheLastWrites` | app/pipeline/orchestrator.py:67-219 | over every history of ingests, complete and interrupted runs and retries from the empty database, exactly the CVEs for which a status was written are stored, each with the last status written for it in both columns, and an enriched CVE waits iff that last write was a pause |
| `RunRows.DueIffTheLastWritePaused` | app/pipeline/step3_enrich.py:125-178 | over the same histories a stored CVE is due for a retry iff the last status written for it was a pausing ENRICHED |
| `RunRows.LoopStoresThePass` | app/pipeline/orchestrator.py:100-135 | after a whole loop the row of every CVE that brought work is the one its own pass ended with, failed when that pass, the end of its extraction or the next accept raised |
| `RunRows.TurnColumns` | app/pipeline/step1_ingest.py:60-130 | the columns of a new or refreshed CVE after its turn: the first name given by NVD, the delivery as read by the pass, the delivery as accepted, the stored row, the advisory text, the model and the match stage; the scores of a found record, else of the delivery, else the stored ones |
| `RunRows.AiMatchingIsMarkedIffInferred` | app/pipeline/step4_match.py:364-440 | a pass marks the CVE for AI use in matching iff it got there without a link and an owner was inferred |
| `RunHistory.HistoriesAreGated` | app/pipeline/orchestrator.py:67-219 | over every history of ingests, complete and interrupted runs and retries, tickets are only opened directly after MATCHED and a non-pausing ENRICHED of the same CVE |
| `RunHistory.RunClosesIffNotInterrupted` | app/pipeline/orchestrator.py:67-178 | a run that finds its event deletes it with its runs, or settles it and closes its own run, iff the worker is not stopped in it; otherwise the event stays processing and the run open; other events and runs are untouched |
| `RunHistory.RunWithoutCves` | app/pipeline/orchestrator.py:78-98 | a run whose extraction raises fails the event and itself, one that finds no CVE drops the event with its runs; neither stores or writes anything else |
| `RunHistory.WhatHistoriesLeaveOpen` | app/pipeline/orchestrator.py:67-178 | over every history the events in processing are exactly those whose last run was interrupted, and the open runs exactly those of broken-off retries and of interrupted runs whose event was not dropped afterwards |
| `RunHistory.InterruptedRunStaysOpen` | app/workers/queue.py:80-117 | the next complete run closes the event; the interrupted run stays open unless the event is dropped |
| `RunHistory.InterruptedCveIsAbandoned` | app/pipeline/step1_ingest.py:67-77 | a new CVE in whose turn the worker is stopped is skipped by the next run as already stored, stays as it was, and the event is given up |
| `RunHistory.RerunLeavesStoredCves` | app/pipeline/orchestrator.py:118-153 | a run without a refresh that only meets stored CVEs changes none of them and skips or deletes its event |
| `RunEffects.AcceptFailureHitsTheLastAccepted` | app/pipeline/orchestrator.py:103-134 | an exception in `accept_cve` fails the CVE of the last accepted turn and no other |
| `RunEffects.StoredRowChangesIff` | app/pipeline/orchestrator.py:100-135 | without a refresh, the row of a CVE stored before is failed iff an accept raises while that CVE is the last accepted one, and is unchanged otherwise |
| `RunEffects.AcceptedTurnTouchesItsRow` | app/pipeline/orchestrator.py:100-131 | an accepted turn changes no other row, and keeps the event iff the CVE is new or refreshed |
| `RunEffects.PausedCveStaysDueIff` | app/pipeline/step3_enrich.py:125-178 | a CVE is due for a retry when the loop ends iff its own turn left it due and the next turn, if any, is accepted |
| `RunHistory.PausedThenFailed` | app/pipeline/orchestrator.py:130-161 | when an accept raises after the turn of a waiting CVE, the run is left waiting for enrichment although the CVE is failed and no retry takes it up |
| `RunHistory.FailedRowStays` | app/pipeline/step3_enrich.py:125-178 | over every history of ingests, runs and retries in which no refresh accepts it, a failed CVE stays as it is |
| `RunEffects.EventOutcome` | app/pipeline/orchestrator.py:137-161 | an event ends done iff some CVE was new or refreshed; otherwise a file event is skipped with its run completed and any other is deleted |
| `RunEffects.AllAcceptsRaise` | app/pipeline/orchestrator.py:132-153 | an event all of whose CVEs fail to be accepted is deleted and stores none of them |
| `RunEffects.PassWaitsIffItPaused` | app/pipeline/orchestrator.py:130-131 | a pass that returns leaves its CVE waiting iff it paused at enrichment |
| `RunEffects.RunWaitsIffSomeCvePaused` | app/pipeline/orchestrator.py:155-161 | a run that keeps its event is left waiting iff one of its CVEs paused |
| `RunHistory.RetryOpens` | app/workers/queue.py:161-185 | a retry adds one run row, open iff its pass did not come to its end, and changes no other |
| `Orchestrator.PipelineOrchestrator.Run` | app/pipeline/orchestrator.py:67-178 | the method with its loop, and the cut-off loop of a stopped worker, equals the specification `RunEvent` |
| `Outcomes.PassIsShown` | app/services/workflow.py:249-302 | the page's run label is the outcome of the pass: failed, waiting, unmatched or completed |
| `Outcomes.RunIsShown` | app/pipeline/orchestrator.py:100-135 | after a whole run the page shows for every CVE that brought work what the answers to its own stages lead to, and failed when the end of its extraction or the next accept raised |
| `Outcomes.RetryIsShown` | app/workers/queue.py:147-185 | a retry changes its own row alone; the page shows what the stages led to and the run waits iff the CVE does; a pass that breaks off leaves the row of the last stage that returned and the run open |
| `Outcomes.FailedTurnKeepsItsColumns` | app/pipeline/orchestrator.py:126-131 | a CVE that fails in its turn keeps the columns of the last stage that came back |
| `Outcomes.InterruptedTurnLeaves` | app/workers/queue.py:80-96 | a stop in the turn of a CVE leaves its row at the last stage that came back, not failed |
| `Workflow.ProgressIsConsistent` | app/services/workflow.py:157-243 | for every status and flags: passed stations in order, waiting forces the enrich station, unmatched excludes a passed match, failed never empties the current station |
| `Workflow.FourWaySplit` | app/services/workflow.py:157-243 | a CVE is exactly one of failed, unmatched, completed and in flight, and a waiting one is failed or in flight |
| `Workflow.DoneOnlyGrows` | app/services/workflow.py:157-243 | passed stations are never taken back while the status or the flags of a non-waiting CVE advance |
| `Workflow.StationIsDoneIff` | app/services/workflow.py:185-198 | when each station counts as passed |
| `Workflow.WrittenStatusIsRead` | app/services/workflow.py:85-100 | columns written together by the pipeline are read back as written |
| `Workflow.WrittenStatusIsPlaced` | app/services/workflow.py:157-243 | the station of a CVE for each status the pipeline writes |
| `Workflow.LabelAgreesWithTheCount` | app/services/workflow.py:249-302 | the run label and station every page shows agree with the counters the CVE is in |
| `Workflow.CountWorkflowStates` | app/services/workflow.py:848-919 | every counter is the number of CVEs its condition selects |
| `Workflow.CountersConserve` | app/services/workflow.py:848-919 | failed + unmatched + completed + in flight is the number of CVEs, live stations sum to in flight, enriched <= extracted, matched + unmatched <= all, waiting <= failed + live enrich |
| `Workflow.PassedTotalsCountCves` | app/services/workflow.py:848-919 | the passed totals count CVEs, each station at most once per CVE |
| `Workflow.MatchPayloads` | app/services/workflow.py:774-793 | matches whose asset is gone are not shown |
| `Workflow.GroupMatches` | app/services/workflow.py:812-845 | the grouping gives every CVE its own match rows in table order |
| `Workflow.ClassifyVulnerabilities` | app/services/workflow.py:812-845 | every CVE is classified by its own matches and tickets |
| `Workflow.ClassifiedRowsAreComputed` | app/services/workflow.py:812-845 | so the conservation laws apply to the classified table |
| `Workflow.ClassifiedOnTheTables` | app/services/workflow.py:812-845 | each CVE's answer read off the tables: its number of ticket rows, acted on iff it has one, matched or unmatched by whether a match row of its own has an asset that is there, its station by its status columns |
| `Workflow.CountersOnTheTables` | app/services/workflow.py:812-919 | every counter, end to end, is the number of CVEs in the tables that meet its condition on the columns, matches and tickets |
| `Dashboard.AlignStartsThePeriod` | app/api/dashboard.py:32-39 | alignment is the start of the hour, day or Monday week |
| `Dashboard.Buckets` | app/api/dashboard.py:71-75 | the loop ends and its buckets are the consecutive periods from start to now |
| `Dashboard.PlaceRow` | app/api/dashboard.py:82-102 | placing one more row leaves the map holding exactly the rows seen so far, each under the start of the period it is shown in |
| `Dashboard.BuildTrendSeries` | app/api/dashboard.py:61-138 | every bucket counts exactly its period's rows for each flag, and the totals are the filtered row counts |
| `Dashboard.RangeHasItsBuckets` | app/api/dashboard.py:16-75 | 25 hours for a day, 31 days for a month, 13 weeks on a Sunday and 14 otherwise for ninety days, 8 days for any other key |
| `Dashboard.TrendOnTheRows` | app/api/dashboard.py:61-138 | each bucket counts exactly the rows with the flag stamped between its start and the next, the last one also those stamped after it |
| `Dashboard.EveryCountedRowHasOneBucket` | app/api/dashboard.py:82-89 | the period of each counted row is one of the generated buckets |
| `Dashboard.TotalsConserve` | app/api/dashboard.py:91-138 | no row is lost or counted twice |
| `Dashboard.FlagsNeverExceedIngested` | app/api/dashboard.py:91-138 | no bucket shows more matched, unmatched or waiting CVEs than ingested ones |
| `MatchSync.MatchLocalAssets` | app/pipeline/step4_match.py:302-320 | the loop returns the hits of its specification, in table order |
| `MatchSync.HitsAreTheHitAssets` | app/pipeline/step4_match.py:302-320 | exactly the family hits and the unvetoed name hits, each once, with confidences from 0.86 to 0.99 |
| `MatchSync.ConfidenceByVersion` | app/pipeline/step4_match.py:268-318 | 0.86 for the family alone, 0.92 for a name without a usable version, 0.97 for a close and 0.99 for an exact one |
| `MatchSync.LinkAfterMatch` | app/pipeline/step4_match.py:302-357 | after `match_assets` exactly the active assets of the family or with an unvetoed name are linked, each with the higher of the stored and this confidence and with its source as method if that is one of the five known ones |
| `MatchSync.VetoKeepsFamilyHits` | app/pipeline/step4_match.py:311-317 | a version veto never drops a Linux-family hit |
| `MatchSync.Matches.SyncMatches` | app/pipeline/step4_match.py:323-337 | the delete and upsert loops equal the specification |
| `MatchSync.Matches.UpsertRow` | app/pipeline/step4_match.py:340-357 | the row of the link is raised in place, or one row is added |
| `MatchSync.Matches.MatchAssets` | app/pipeline/step4_match.py:364-440 | which branch changes the links and whether a match is reported |
| `MatchSync.LinkAfterSync` | app/pipeline/step4_match.py:323-357 | after one call the CVE's links are exactly the matched assets with the higher confidence, other CVEs' links are unchanged |
| `MatchSync.LinksAreTheLatestRuns` | app/pipeline/step4_match.py:323-357 | over every sequence of calls there is one row per link, and it holds the maximum over the latest unbroken run that contains the asset |
| `MatchSync.LinkHoldsTheMaximum` | app/pipeline/step4_match.py:323-357 | in every history a link exists iff the latest unbroken run of calls containing the asset is not empty, and its confidence is the maximum of that run |
| `MatchSync.LinksAgreeWithTheAnswerIff` | app/pipeline/step4_match.py:364-396 | stored links agree with the reported match iff the inventory has an active system or the CVE had no link |
| `OwnerMail.CleanedIsClean` | app/utils/textclean.py:14-23 | cleaning an address is idempotent and leaves no mark or blank |
| `OwnerMail.CleanEmailReadsTheWord` | app/utils/textclean.py:14-23 | a word with blanks and marks around it is an address iff it has an at sign and is no placeholder |
| `OwnerMail.AllowListLooksAtTheHost` | app/utils/textclean.py:40-46 | an address passes an allow-list iff the list is empty, names its host or a domain above it |
| `OwnerMail.MatchedOwnerGroups` | app/pipeline/step5_act.py:76-108 | the loop over the matches builds the specified groups |
| `OwnerMail.GroupsPartitionTheMatches` | app/pipeline/step5_act.py:76-108 | one group per lower-cased address, holding exactly the active assets reached there, in match order |
| `OwnerMail.AssetIsMailedAtItsAddress` | app/pipeline/step5_act.py:76-108 | an asset is in the group of a key iff it is there, active and has the key as its own address whatever the fallback is, or has no usable address while the fallback is the key; no placeholder is ever a key |
| `OwnerMail.OpenEmailOwnerTasks` | app/pipeline/step5_act.py:168-237 | with failing mails and the growing assignee set: the recorded tickets and when the call raises |
| `OwnerMail.RunMailsOnlyAllowed` | app/pipeline/step5_act.py:187-232 | exactly the owners of an allowed domain not mailed before whose mail went out get a ticket |
| `OwnerMail.AtMostOneOwnerMail` | app/pipeline/step5_act.py:168-237 | over any number of runs, with lost sessions and any allow-lists, an address has at most one recorded owner mail per CVE unless an address longer than 128 characters begins with it |
| `OwnerMail.TwinBreaksTheLimit` | app/pipeline/step5_act.py:220-230 | two owners of whom the second has the first's 128 characters and one more get two mails under the first's key |
| `OwnerMail.MailedAddressIsRememberedIff` | app/pipeline/step5_act.py:189-232 | a mailed address is left alone by the next run iff it fits 128 characters |
| `OwnerMail.PackedProviderIsNotRead` | app/pipeline/step5_act.py:251-264 | the packed provider never decides how a ticket is read back |
| `OwnerMail.ChannelRoundTripsIff` | app/pipeline/step5_act.py:251-264 | exactly when a stored ticket reads back as its own provider |
| `OwnerMail.PlainCustomTicketIsLost` | app/pipeline/step5_act.py:251-264 | a custom ticket whose reply has no double quote never reads back as custom |
| `RateLimit.Limiter.Allow` | app/utils/rate_limit.py:24-38 | one call prunes the bucket and decides as specified |
| `RateLimit.Limiter.ResetLimits` | app/utils/rate_limit.py:41-42 | all buckets are gone |
| `RateLimit.PruneCountsTheWindow` | app/utils/rate_limit.py:31-34 | pruning leaves exactly the admissions inside the window |
| `RateLimit.LimiterRefinesTheRule` | app/utils/rate_limit.py:24-38 | over every history in time order a request is admitted iff fewer than the cap were admitted with its key in the last window |
| `RateLimit.ShippedLimiterRefinesTheRule` | app/utils/rate_limit.py:14-38 | the same for the limits the program ships with, on every history in time order |
| `RateLimit.NoWindowOverflows` | app/utils/rate_limit.py:24-38 | no window of the configured length ever holds more admissions than the cap |
| `RateLimit.RefusedIffTheWindowIsFull` | app/utils/rate_limit.py:24-38 | in every history in time order a request is refused iff its path has a limit and that many earlier requests of the client to it passed within the window |
| `RateLimit.ShippedLimiterRefusesIff` | app/utils/rate_limit.py:13-38 | with the shipped limits: the fourth wipe or reset in ten minutes and the twenty-first debug run in a minute, and nothing else |
| `RateLimit.KeysAreIndependent` | app/utils/rate_limit.py:24-38 | requests with other keys never change a decision |

## Left out

- HTTP clients and remote adapters: each answer or exception is a parameter of the step that calls them.
- SQLAlchemy sessions: tables are values with explicit commit points; commits are taken to succeed, and within one run the rows its session has read are taken to be current.
- Scan limits: the file, pending-row and purge limits are parameters; results that need it say that the scan covers the table.
- Python's Unicode lower-casing and stripping: ASCII letters and blanks stand for them, and for the purge lower-casing is an arbitrary function.
- CVE extraction, HTML decoding and the intel window: ids come as lists, the window is an arbitrary predicate on ids, and ids count as already in upper case.
- The identity and version texts (`is_linux_cve`, `is_linux_asset`, `_direct_hit`, `version_overlap`): arbitrary predicates of the asset with the four possible version answers.
- Where the mark of AI use in extraction comes from: a new row starts without it, and no later step of the model sets it.
- Fields of a CVE that no decision reads (title, description, vectors, severity, priority) and the wording of wait reasons, audits and run logs.
- The interleaving of a poll with the loading and the commits of a run is modelled as steps of a history, not inside `Orchestrator`: an extraction is any list of ids, and what it must carry is a stated hypothesis.
- The other purges and the recount of `event_count` they end with.
- The `match_rate` percentage, the per-CVE rows of the workflow snapshot and the debugger trace.
- Owner and team names inside an owner group, mail texts, hunt mails, and the Jira, Monday and custom clients.
- The middleware that finds the client address for the limiter and sends it the POST requests only.
- `RunEffects.AcceptFailureHitsTheLastAccepted`: an `accept_cve` that raises is taken to have stored nothing, because its commits are taken to succeed.
- `RunHistory.RunClosesIffNotInterrupted`: covers runs whose commits succeed; a failing commit inside the outer handler is not modelled. A stop strikes at a call that does not come back, or between turns.
- Inline ingests and the manual re-run of a CVE in ingestion: each adds and counts one event; to a run, a re-run is a refresh.
- Retry times and the limit of 40 rows per retry round: a due CVE may be retried at any step.
- `OwnerMail.AtMostOneOwnerMail`: counts recorded mails, per read-back key; a mail whose session is lost afterwards was sent but is not recorded.
- `SkipCache.SkipIsSoundAfterGuardedHistories`: one folder with one file per name; a folder that reuses a name in two places is not modelled.
