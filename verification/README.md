# Download tasks: a verified model

This project models, in Dafny, a service that downloads files from a rate-limited catalogue API through Celery
workers. A download task is one row of `download_tasks`. Workers claim it with a guarded update, keep it alive with
heartbeats, process it in batches of at most three names, and close it; two watchdog sweeps give abandoned and
blocked rows back. Around that sit the retry and pacing of API calls, and a digit count over the stored files.

`dafny verify dfyconfig.toml` checks everything.

## How the model is built

**The protocol** (`Protocol.dfy`) is a labelled transition system. A `State` holds the tables, the queue, the
messages producers have yet to send, the object store, a clock and every live execution of the worker task. An
`Event` is one statement with its commit, one call to the broker or the store, or something that happens to a process:
time passing, a crash, a redelivery. `Legal` says which sequences of events are runs. `LeasedRun` adds the assumption
that the clock never passes a holder's persisted heartbeat by more than five minutes. On top of it:

- `Pairing.dfy`: files rows and ledger rows stay paired and counters ordered, in every run, with no lease assumed; a
  pair whose maker has left stays for ever.
- `Leases.dfy`: under the lease a task has one holder; rows follow the status graph and the attempts law.
- `Expiry.dfy`: the lease cannot be weakened.
- `Wakeups.dfy`: when a PENDING task is sure of a message, and exactly when it can still be claimed.
- `Drain.dfy`: what the sweeps do to a backlog.

**The worker** (`Handlers.dfy`) is `ProcessFilesHandler` as a class whose methods change a `World` (`Worlds.dfy`): the
protocol's state and its history, a script of outcomes for every outside call, and a script of what everybody else
tries to do. Before each of the handler's steps the others act, in any way the protocol allows. The handler's methods
are proved correct against what others can do (`Interference.dfy`), and each step they take is a step of the protocol,
so everything proved about runs holds of real handlers. `Batches.dfy` and `Runs.dfy` say what a batch and a run mean.
`Entrypoints.dfy` is what the processes run: the start handler, the worker's task, the watchdog's sweeps.

**API calls**: `RateLimiters.dfy`, `Catalog.dfy` (one request and what its answer means) and `Retry.dfy` (one logical
call). Retry-After is section 10.2.3 of RFC 9110, in its delay-seconds form; 429 is section 4 of RFC 6585.

**The digit count**: `Histogram.dfy`.

## What was found

- *A wakeup can be lost.* Nothing sweeps PENDING rows. If a producer dies, or its `send_task` raises, after the commit,
  or if a claim raises (the message is acknowledged all the same), the row stays PENDING for ever. `ProducerLoss` and
  `ClaimErrorLoss` are the two runs. A watchdog whose send raises loses the messages of that row and of all rows it
  has not come to (`Reclaim`); `ReleaseLoss` is such a run. `NoLostWakeup` proves that nothing else loses one, and
  `MovesIffStirred` that a PENDING row can still be claimed if and only if some message for it exists.
- *Marked does not imply stored.* If the API marks a batch and the call raises all the same, the cleanup deletes files
  that the API will not offer again (`MarkedButGone`). `MarkedAreListed` says exactly when all that was marked is kept.
- *A short block fails the task.* The repository's README says that a worker waits out a block of at most 60 seconds.
  The code raises it again and the task ends FAILED; the model follows the code (`HandleBlock`, `Verdict`).
- *The ledger insert has no ON CONFLICT clause*, although the repository's README shows one. A second insert raises
  (`World.Record`).
- *The total of a digit can exceed the sum over files.* `by_file` is keyed by name, so of two files with one name only
  the last is listed, while both are in `total` (`TotalExceedsFiles`). `TotalAgainstFiles` says exactly when the two
  agree.

## Model

| member | source | states |
|---|---|---|
| Protocol.StartMeans | app/application/handlers/download_handler.py:25-32 | a committed task is a PENDING row with nothing counted and no attempt, and its message is owed |
| Protocol.DeliveryMeans | app/worker/celery_tasks.py:21-26 | a delivered message leaves the queue and an execution under that host name waits to claim its task |
| Protocol.ClaimMeans | app/infrastructure/database/repositories.py:148-172 | a claim of a PENDING row makes it RUNNING under the worker from now, counts the attempt, clears error and block, and keeps received, processed and everything else |
| Protocol.AnyTime | app/worker/celery_tasks.py:18-20 | at any time the clock may advance, a message be delivered again and a worker be lost, and a waiting execution may claim or fail to |
| Protocol.EndMeans | app/worker/celery_tasks.py:18-20 | a message is acknowledged when its execution ends, also by a claim that raises, and queued again when its worker is lost |
| Protocol.FailedCommits | app/infrastructure/database/sqlalchemy_uow.py:29-37 | a commit that fails leaves every table as it was |
| Pairing.RunKeepsPaired | app/application/handlers/download_handler.py:146-151 | in every legal run, stale workers, crashes and failed commits included, each files row has its ledger row and each ledger row its files row, with the same name, task and hash; no two executions have made the same row |
| Pairing.CountsAgree | app/infrastructure/database/models.py:67 | in every reachable state each name has as many files rows as ledger rows |
| Pairing.EraseRemovesOwnPair | app/application/handlers/download_handler.py:239-242 | a cleanup deletes exactly the pair that its own execution inserted; no other row, task or execution changes |
| Pairing.CountersStayOrdered | app/infrastructure/database/repositories.py:122-136 | if workers only save rows with 0 <= processed <= received, then every persisted row has that, over any number of crashes, reclaims and new attempts, with no lease; that each save of the handler is such is what `Carries` says, which Handlers.ProcessFilesHandler.FailBatch, ConfirmBatch, CountReceived and Run keep |
| Pairing.PairOutlivesMaker | app/application/handlers/download_handler.py:227-249 | once no live execution has made a pair, no continuation whatever changes or removes it |
| Pairing.LeavingOrphans | app/worker/celery_tasks.py:58-60 | an acknowledgement or a crash leaves all the pairs of an execution to nobody |
| Pairing.DoKeepsPaired | app/infrastructure/database/sqlalchemy_uow.py:29-37 | every step of an execution keeps files and ledger paired, the unit of work committing both rows of a pair or neither |
| Leases.LeaseSafety | app/infrastructure/database/repositories.py:148-172 | in every leased run a task has at most one live holder, and its row is RUNNING under that holder's worker id, however messages are duplicated |
| Leases.RunKeepsLeaseInv | app/worker/celery_tasks.py:33-43 | the whole invariant behind it: each holder's row carries the heartbeat that holder last persisted, and every row's fields fit its status |
| Leases.StuckSweepKeepsLeaseInv | app/infrastructure/database/repositories.py:185-210 | under the lease the stuck sweep never takes a row from a live holder |
| Leases.RowsInOrder | app/infrastructure/database/repositories.py:148-234 | RUNNING has worker and heartbeat, BLOCKED a deadline, finished_at is set exactly in terminal states, and attempts = returns to PENDING + (0 if PENDING else 1) |
| Leases.StatusFollowsEdges | app/domain/entities/download_task.py:121-144 | each step moves each row along PENDING-RUNNING-{SUCCESS, FAILED, BLOCKED, PENDING} or BLOCKED-PENDING; SUCCESS and FAILED rows do not change at all, BLOCKED ones not before they are releasable |
| Leases.SettledStays | app/infrastructure/database/repositories.py:212-234 | over any continuation a SUCCESS or FAILED row stays as it is for ever, and a BLOCKED row in every state whose clock has not passed its deadline |
| Expiry.ExpiredLeaseIsLost | app/infrastructure/database/repositories.py:185-210 | whenever the heartbeat of a holder whose row is still RUNNING under it is more than five minutes old, some legal continuation gives its task a second live holder |
| Wakeups.NoLostWakeup | app/worker/watchdog.py:30-39 | in every run that loses no message for a task, the task, when PENDING, has a message queued, delivered and untried, or about to be sent |
| Wakeups.MovesIffStirred | app/worker/celery_tasks.py:18-43 | a PENDING row can leave PENDING in some continuation if and only if some message for it exists, if only unacknowledged |
| Wakeups.StillForEver | app/worker/watchdog.py:69-78 | with no message left, no continuation whatever moves the row |
| Wakeups.ProducerLoss | app/application/handlers/download_handler.py:30-44 | a run that loses the wakeup between commit and send |
| Wakeups.ClaimErrorLoss | app/worker/celery_tasks.py:31-43 | a run that loses it by a claim that raises |
| Wakeups.SweepLosses | app/worker/watchdog.py:69-78 | in any state, a sweep whose message is lost leaves a row that has no other message PENDING for ever |
| Wakeups.ReleaseLoss | app/worker/watchdog.py:69-78 | a run of ten steps in which a released row is never woken |
| Drain.SweepMovesExactly | app/infrastructure/database/repositories.py:185-234 | whatever LIMIT picks, a sweep returns min(limit, eligible) distinct eligible rows to PENDING, without worker, block or (if they were RUNNING) heartbeat and with all else kept, owes a message for each, and touches nothing else |
| Drain.EligibleMeans | app/infrastructure/database/repositories.py:188-218 | a sweep may take exactly the RUNNING rows whose heartbeat is more than 300 seconds old, or the BLOCKED rows whose deadline has passed |
| Drain.TwentyAtMost | app/worker/watchdog.py:30 | a sweep takes at most 20 rows, and 20 of 25 |
| Drain.BacklogShrinks | app/worker/watchdog.py:30 | after j sweeps, with anything in between that makes no row eligible, at most n - 20 j of n rows are left |
| Drain.Drained | app/worker/watchdog.py:69 | ceil(n / limit) sweeps drain n eligible rows |
| Drain.SweepsAlone | app/worker/watchdog.py:30-39 | sweeps alone take exactly min(20 j, n) rows in j sweeps, so no fewer drain them |
| Interference.ForeignMeans | app/application/handlers/download_handler.py:124-135 | others may do anything but act as this execution or store and remove the objects set apart for it |
| Interference.StepDisturbsNothing | app/infrastructure/database/repositories.py:122-136 | no step of anybody else changes an execution's record, the rows it made or the objects set apart for it, nor, under the lease, its task's row, ledger and files |
| Interference.OwnView | app/application/handlers/download_handler.py:146-151 | how each of its own steps changes what it sees |
| Batches.AbsorbMeans | app/application/handlers/download_handler.py:114-151 | what receiving a list of members leaves under each name: listed entries stay, a new name has the hash and object of its first occurrence, other names nothing |
| Batches.ReplayIsIdempotent | app/application/handlers/download_handler.py:114-122 | receiving the same members again changes neither ledger nor objects |
| Batches.AbsorbListed | app/infrastructure/database/repositories.py:236-243 | members that are all listed change nothing |
| Batches.CleanupUndoes | app/application/handlers/download_handler.py:227-249 | cleaning up what a batch recorded gives the tables of the batch start back if every delete succeeded, keeps listed objects in any case, and leaves at most the one object in flight over |
| Batches.UndoableAdd | app/application/handlers/download_handler.py:137-153 | uploading and recording one more file keeps a batch undoable |
| Runs.ProgressCuts | app/application/handlers/download_handler.py:103-104 | cutting and confirming a batch keeps: batches then pending are the names answered, in order; 1 to 3 names each; 3 B <= N + 2 F; one commit per non-empty answer, batch and 30 members |
| Runs.ReadWholeMore | app/application/handlers/download_handler.py:106-110 | over a confirmed batch it stays true that each confirmed batch had its archive asked for by exactly its names and read to its end, and that the members received are those of these archives |
| Runs.BeatsEveryThirty | app/application/handlers/download_handler.py:50 | members 0, 30, 60, ... beat and no others |
| Runs.Thresholds | app/application/handlers/download_handler.py:51 | a block parks the task if and only if it is longer than 60 seconds; a batch has three names at most |
| Runs.ParkedMeans | app/domain/entities/download_task.py:138-144 | what a block writes: BLOCKED until so many seconds from now, reason and error text, all counts kept |
| Runs.RunEnds | app/application/handlers/download_handler.py:190-193 | at SUCCESS every name answered is in exactly one confirmed batch, and 3 B <= N + 2 (F - 1) |
| Runs.LeftRolledBack | app/application/handlers/download_handler.py:161-184 | what a run that broke leaves is the ledger, with hashes and sizes, and the objects that the members of its confirmed batches make of those at its start: exactly, if no delete failed, but for the last object uploaded |
| Runs.MarkedAreListed | app/application/handlers/download_handler.py:172-184 | after a run whose row deletes succeeded every member of every batch the API has marked is listed, if and only if those of a batch that was marked by a call that raised had been listed before |
| Runs.MarkedButGone | app/application/handlers/download_handler.py:175-184 | one new member, a call that marks and raises, and a cleanup: it is marked and not listed |
| Tasks.DownloadTask.Heartbeat | app/domain/entities/download_task.py:103-106 | stamps a RUNNING task, refuses any other |
| Tasks.DownloadTask.IncreaseReceived | app/domain/entities/download_task.py:108-111 | adds to a RUNNING task only |
| Tasks.DownloadTask.DecreaseReceived | app/domain/entities/download_task.py:113-114 | subtracts in any status, not below zero |
| Tasks.DownloadTask.IncreaseProcessed | app/domain/entities/download_task.py:116-119 | adds to a RUNNING task only |
| Tasks.DownloadTask.Complete | app/domain/entities/download_task.py:121-127 | RUNNING to SUCCESS with a finish time, else refused and unchanged |
| Tasks.DownloadTask.Fail | app/domain/entities/download_task.py:129-136 | PENDING or RUNNING to FAILED with error and finish time, else refused and unchanged |
| Tasks.DownloadTask.Block | app/domain/entities/download_task.py:138-144 | RUNNING to BLOCKED until now + retry_after, else refused and unchanged |
| Tasks.ErrorTexts | app/domain/exceptions.py:4-9 | the text a failure, a block or a refused transition leaves as the task's error |
| Worlds.World.Reachable | app/infrastructure/database/sqlalchemy_uow.py:26-37 | every state a handler is in is reachable, so the invariants of all runs hold of it |
| Worlds.World.constructor | app/worker/celery_tasks.py:29-32 | a world, leased or not, can begin with nothing in it |
| Worlds.World.CalmSoFar | app/infrastructure/database/sqlalchemy_uow.py:26-37 | in a leased world whose script raises nothing, no call has raised but an insert under a listed name, and none will |
| Worlds.World.Others | app/worker/celery_tasks.py:33-43 | whatever the others do between two steps leaves alone what the handler relies on |
| Worlds.World.Save | app/infrastructure/database/repositories.py:122-136 | the whole row is written if the commit goes through; if it raises the table is as it was; in memory it is the row either way |
| Worlds.World.Record | app/infrastructure/database/repositories.py:245-254 | files row and ledger row together in one legal step, so never under a listed name; or an exception and neither |
| Worlds.World.Erase | app/infrastructure/database/repositories.py:256-262 | both rows deleted, or neither and an exception |
| Worlds.World.FileExists | app/infrastructure/database/repositories.py:236-243 | found exactly if the ledger lists the name for the task, which under the lease is what the handler sees |
| Worlds.World.Load | app/application/handlers/download_handler.py:77-79 | the row read is the table's, and under the lease RUNNING as at the claim; or the read raises and nothing has changed |
| Worlds.World.Upload | app/application/handlers/download_handler.py:131-135 | the object is stored, or the call raises and it may or may not be |
| Worlds.World.Remove | app/application/handlers/download_handler.py:231-238 | the object is gone; or the call raises and it may or may not be |
| Worlds.World.GetFileNames | app/application/handlers/download_handler.py:88 | the next answer of the script, logged, or its exception |
| Worlds.World.Download | app/application/handlers/download_handler.py:106 | an archive is asked for with these names, and opened at its first member |
| Worlds.World.NextMember | app/application/handlers/download_handler.py:110 | the first unread member of the open archive, its end, or its exception |
| Worlds.World.MarkDownloaded | app/application/handlers/download_handler.py:173 | the batch is marked and confirmed; or the call raises, the batch marked or not |
| Handlers.ProcessFilesHandler.MaybeHeartbeat | app/application/handlers/download_handler.py:202-207 | every thirtieth member the row is saved with the present time; nothing else changes |
| Handlers.ProcessFilesHandler.HandleBlock | app/application/handlers/download_handler.py:209-225 | up to 60 s nothing happens and False is returned; above, the parked row is persisted or the commit's exception raised |
| Handlers.ProcessFilesHandler.Escalate | app/application/handlers/download_handler.py:161-184 | a long block parks a RUNNING task; everything else goes on as it was raised, with the counters untouched |
| Handlers.ProcessFilesHandler.CleanupBatchFiles | app/application/handlers/download_handler.py:227-249 | each object and each pair of rows is deleted or counted as failed, and no failure stops the loop |
| Handlers.ProcessFilesHandler.CleanupFile | app/application/handlers/download_handler.py:231-249 | first the object is deleted, then the rows whether or not the object was, and each failure is counted |
| Handlers.ProcessFilesHandler.ProcessMember | app/application/handlers/download_handler.py:114-153 | a listed name is skipped without an upload; a new one is uploaded, then recorded and remembered with its name, size, hash and task, and stays undoable if any call raises |
| Handlers.ProcessFilesHandler.ExtractMember | app/application/handlers/download_handler.py:110-153 | a heartbeat when one is due, then the member; whichever raises is what goes on |
| Handlers.ProcessFilesHandler.ExtractNext | app/application/handlers/download_handler.py:110-153 | one member of the archive at most; without an exception it stops only at the archive's end |
| Handlers.ProcessFilesHandler.ExtractBatch | app/application/handlers/download_handler.py:106-153 | without an exception the next archive was asked for with the batch and read to its end, and all its members are received; one that breaks leaves something undoable |
| Handlers.ProcessFilesHandler.FailBatch | app/application/handlers/download_handler.py:161-184 | cleanup, then received falls by the batch and the names waiting (the clamp never takes effect), then a long block parks the row and anything else is raised again |
| Handlers.ProcessFilesHandler.ConfirmBatch | app/application/handlers/download_handler.py:172-174 | processed grows by the batch exactly if the API accepted it |
| Handlers.ProcessFilesHandler.TryBatch | app/application/handlers/download_handler.py:106-174 | both try-blocks: the whole archive received and the batch confirmed, or an exception, with something undoable |
| Handlers.ProcessFilesHandler.ProcessBatch | app/application/handlers/download_handler.py:106-188 | a batch is read whole, confirmed, counted and saved; or the tables and counters are those before it, given that the deletes succeed; a long block parks the task until at least retry_after after it was raised |
| Handlers.ProcessFilesHandler.Refill | app/application/handlers/download_handler.py:86-101 | with fewer than three names waiting one answer is appended, counted and saved; an empty one ends the run only if none wait |
| Handlers.ProcessFilesHandler.CountReceived | app/application/handlers/download_handler.py:96-101 | a RUNNING task counts the new names and is saved; any other refuses and nothing changes |
| Handlers.ProcessFilesHandler.TakeBatch | app/application/handlers/download_handler.py:103-188 | cuts at most three names off the front; a batch that is confirmed leaves fewer waiting, one that is not ends the run |
| Handlers.ProcessFilesHandler.Pass | app/application/handlers/download_handler.py:85-188 | each pass keeps received - processed - pending at its value when the task was claimed, and makes unfetched names + pending smaller |
| Handlers.ProcessFilesHandler.Finish | app/application/handlers/download_handler.py:190-193 | an exhausted run is SUCCESS once its commit succeeds, with the gap as at the start |
| Handlers.ProcessFilesHandler.Run | app/application/handlers/download_handler.py:81-200 | the loop ends, and however it does: names in order; the archives of confirmed batches read whole; nothing uploaded for members already listed; and, under the lease, ledger and objects are exactly those of the confirmed batches if no delete failed, but for the last object uploaded |
| Handlers.ProcessFilesHandler.FailTask | app/application/handlers/download_handler.py:251-255 | FAILED with the message if the task is PENDING or RUNNING, else refused |
| Handlers.ProcessFilesHandler.RunOrFail | app/application/handlers/download_handler.py:71-75 | whatever escapes the pipeline, and nothing else, makes the task FAILED unless it was parked |
| Handlers.ProcessFilesHandler.Execute | app/application/handlers/download_handler.py:65-75 | it runs exactly if the task can be read; amid any interference its steps extend a legal run; under the lease it leaves the stock of its confirmed batches as `Left` says; and if row commits succeed the persisted row is as the Verdict says: SUCCESS if nothing escaped, BLOCKED until at least retry_after after the block was raised if that was a block over 60 s, else FAILED with its text, finished within the attempt; a failed batch restores received - processed, a failed fetch widens it by at most 2; at SUCCESS the members received are all those of the archives of the confirmed batches; and if no call raises it is SUCCESS |
| Entrypoints.StartDownload | app/application/handlers/download_handler.py:22-46 | the row is committed exactly if its commit goes through, and then its message sent exactly if the send does, else lost |
| Entrypoints.SendTask | app/worker/watchdog.py:10-14 | the message is queued if the call goes through, else lost; nobody else can send or lose it |
| Entrypoints.TryClaim | app/infrastructure/database/repositories.py:148-172 | the claim wins exactly if the statement goes through and finds the row PENDING, and then changes that row and the execution's record; otherwise only the record goes |
| Entrypoints.RunClaimed | app/worker/celery_tasks.py:45-60 | the handler runs exactly if the clients open and the task can be read; then the message is acknowledged |
| Entrypoints.OpenAndHandle | app/worker/celery_tasks.py:45-58 | the clients are opened and, exactly if that goes through, the handler executed |
| Entrypoints.ProcessFilesTask | app/worker/celery_tasks.py:28-60 | from delivery to acknowledgement: it claims exactly a PENDING row and handles it exactly if its calls go through; who does not find the row PENDING changes nothing; the attempt leaves the stock of its confirmed batches and, if row commits succeed, a task closed as the Verdict says, with every member of the archives of confirmed batches listed after SUCCESS; if no call raises a PENDING task is claimed, handled and SUCCESS |
| Entrypoints.AttemptCloses | app/application/handlers/download_handler.py:190-193 | a successful attempt leaves a ledger row for every name extracted during it |
| Entrypoints.OutcomeStands | app/domain/entities/download_task.py:138-144 | after such an attempt, in every leased continuation: a SUCCESS or FAILED row never changes; a BLOCKED one does not change, and so is not claimable, until strictly after its full retry_after has passed since the block was raised |
| Entrypoints.FilesMatchStock | app/infrastructure/database/models.py:67 | a task's files rows are exactly one for each name listed, with the hash and size listed |
| Entrypoints.PickRows | app/infrastructure/database/repositories.py:189-197 | LIMIT may pick any min(limit, eligible) of the eligible rows |
| Entrypoints.SweepRows | app/infrastructure/database/repositories.py:185-234 | the sweep is a legal step on rows LIMIT may pick, and each returned row is owed its message |
| Entrypoints.Requeue | app/worker/watchdog.py:38-45 | messages are sent in order up to the first send that raises; that one and all after it are lost |
| Entrypoints.Reclaim | app/worker/watchdog.py:17-53 | one sweep exactly if its statement goes through; then the messages of the rows returned, in their order, up to the first send that raises, are sent, and all others lost |
| RateLimiters.SuccessesClosedForm | app/utils/rate_limiter.py:22-26 | k successes from d give max(min, d 0.9^k) |
| RateLimiters.FailuresClosedForm | app/utils/rate_limiter.py:28-32 | k failures from d give min(max, d 2.5^k) |
| RateLimiters.StaysInRange | app/utils/rate_limiter.py:22-32 | no interleaving leaves [min, max] |
| RateLimiters.FirstSteps | app/utils/rate_limiter.py:8-32 | from the initial 1.5 s a failure leads to 3.75 s and a success to 1.35 s, within 0.6 s and 10 s |
| RateLimiters.FailureForgiven | app/utils/rate_limiter.py:22-32 | from a positive delay one failure and k successes leave the delay no higher than before if and only if k >= 9 or the delay is at least max 0.9^k |
| RateLimiters.AdaptiveRateLimiter.OnSuccess | app/utils/rate_limiter.py:22-26 | the delay shrinks by a tenth, not below the minimum |
| RateLimiters.AdaptiveRateLimiter.OnFailure | app/utils/rate_limiter.py:28-32 | the delay grows two and a half times, not above the maximum |
| Catalog.CatalogClient.HandleErrors | app/infrastructure/external_api/catalog_client.py:126-149 | which error each status and Retry-After stands for, and that a 429, and a 403 with a Retry-After, slow the limiter down even if the header is no integer |
| Retry.WhatIsRetried | app/infrastructure/external_api/catalog_client.py:126-149 | exactly which replies are rate limits, faults to retry, blocks, results and each other error, by status, header and body; how long a limit or a block lasts; and which replies move the limiter |
| Catalog.CatalogClient.Request | app/infrastructure/external_api/catalog_client.py:75-124 | one wait at the present pace, one reply, the limiter moved by it; a temporary file is left exactly by a download that succeeded |
| Retry.AsyncRetryExecutor.Execute | app/utils/retry.py:36-83 | the call ends with the first answer that ends it; before that each 429 was slept off as its header asks and each fault by a backoff of 2, 4, 8, ... seconds; the limiter's delay is that of the signals in order; and the sleeps keep to the bound of TotalSleep |
| Retry.AsyncRetryExecutor.Turn | app/utils/retry.py:44-83 | one request either ends the call, or is slept off and the call is still within both budgets |
| Retry.AsyncRetryExecutor.Handle | app/utils/retry.py:48-83 | each exception counts against its own budget only |
| Retry.StopsExactly | app/utils/retry.py:48-72 | a call ends exactly at the first result, the first other exception, the (L+1)-th rate limit or the (M+1)-th fault |
| Retry.StopsOnce | app/utils/retry.py:44-46 | of two beginnings of the same answers at most one ends the call, so calls and result are determined |
| Retry.RequestsBounded | app/utils/retry.py:48-72 | with L >= 0 there are at most M + L + 1 requests |
| Retry.BackoffsDouble | app/utils/retry.py:74-83 | the backoffs of a call are 2, 4, 8, ... in order, however rate limits interleave |
| Retry.BackoffsOfCall | app/utils/retry.py:64-83 | the first backoff of a call is two seconds, each later one twice the one before, one for each fault it survived |
| Retry.Power2Is | app/utils/retry.py:74 | Power2 is 1 at 0 and doubles |
| Retry.NapsBounded | app/utils/retry.py:74-100 | n continued requests sleep at most n limiter delays at the top, the backoffs so far and 1.15 times what was asked |
| Retry.TotalSleep | app/utils/retry.py:19-22 | all sleeps of one call add up to at most (M+L+1) max_delay + (2^(M+1) - 2) + 1.15 times the sum of the retry_after values |
| Retry.MostSleepInstance | app/utils/retry.py:26-34 | with budgets 3 and 5 and delays of at most 10 s the bound is 104 s, and 173 s with a minute asked for |
| Retry.AsyncRetryExecutor.SleepRateLimit | app/utils/retry.py:85-100 | the sleep lies between 1.1 times retry_after and that plus min(retry_after / 20, 10) |
| Histogram.CalculateStatsHandler.Select | app/application/handlers/calculate_stats.py:27-32 | a malformed id refuses the whole query; else the files found, with hash and storage key |
| Histogram.CalculateStatsHandler.TextsOfOne | app/application/handlers/calculate_stats.py:30-42 | an id contributes the text behind its file's key, under the file's name, if the file is known, has a hash and a key, and the text is not empty; else nothing |
| Histogram.CalculateStatsHandler.TextsConcat | app/application/handlers/calculate_stats.py:29-42 | a list of ids contributes what its parts do, in order |
| Histogram.CalculateStatsHandler.NamesOfTexts | app/application/handlers/calculate_stats.py:44 | the names are those of the files that contribute |
| Histogram.CalculateStatsHandler.CountFiles | app/application/handlers/calculate_stats.py:34-48 | total counts all the texts, by_file the last non-empty one of each name |
| Histogram.CalculateStatsHandler.CountDigits | app/application/handlers/calculate_stats.py:44-48 | one text's digits are added to total and counted for its name |
| Histogram.CalculateStatsHandler.ZeroFill | app/application/handlers/calculate_stats.py:50-56 | every map gets the ten digit keys and no count changes |
| Histogram.CalculateStatsHandler.Execute | app/application/handlers/calculate_stats.py:26-58 | refused exactly if an id is malformed; else the digit counts of exactly the texts the ids contribute, with a file name in by_file if and only if some selected file of that name has a text |
| Histogram.AnswersMeans | app/application/handlers/calculate_stats.py:50-56 | every map has exactly the ten digit keys, with total[d] and by_file[f][d] the occurrences of d |
| Histogram.TotalSplits | app/application/handlers/calculate_stats.py:37-48 | total = sum over by_file + occurrences in texts replaced by a later one of their name |
| Histogram.TotalAgainstFiles | app/application/handlers/calculate_stats.py:44-48 | total[d] is at least the sum of by_file[f][d], and equal if and only if no replaced text has d |
| Histogram.TotalExceedsFiles | app/application/handlers/calculate_stats.py:44-48 | two files of one name with one digit each: the total is 2 and the sum over by_file 1 |
| Histogram.DistinctNames | app/application/handlers/calculate_stats.py:44-48 | with distinct names the two are equal |

## Assumptions

- One statement with its commit is one atomic step that happens or does not; a worker may be lost between any two.
- One clock, in whole microseconds; delays are real numbers.
- "Under the lease" means `World.leased`, the assumption of `LeasedRun`. Without it the handler's steps are still those
  of the protocol, and its own files rows, made and erased, are still exact.
- Objects are keyed by name alone, so what is said about objects is about the names in `World.apart`, which no other
  execution stores or removes.
- "Goes through" and "raises" are what the script of a `World` says of a call; calls beyond the script go through. A
  calm world is one whose script raises nothing.
- `saveFailures` counts failed commits of the task's row. `Verdict` speaks of attempts that had none.

## Left out

- HTTP, S3, PostgreSQL, Redis and Celery themselves; a call to them is a step that succeeds or raises.
- A commit that reaches the database although the client sees an error; SQLAlchemy's identity map and locking.
- Deliveries acknowledged although their worker was lost: only redelivery after a loss is modelled.
- Tasks, candidate ids and command objects that only pass through; the `files/` prefix of storage keys; a missing task
  row in `get_by_id` and `update` (rows are never deleted).
- The entity's own `claim` and `is_blocked`, which no modelled path calls.
- A worker process that is cancelled inside `_request_download_stream`: its temporary file would stay.
- The layout of ZIP archives, SHA-256 and UUIDs: an archive is any list of members and an ending, the digest any
  function, an id any fresh value.
- Methods that the source does not have (`Escalate`, `FailBatch`, `TakeBatch`, `TryBatch`, `Pass`, `Finish`, `Turn` and
  so on) are parts of its `_run` and `execute`, cut out so that each has a contract of its own.
- Handlers.ProcessFilesHandler.Execute: says how the row ends only for attempts whose row commits succeed, since after a
  failed commit the row is whatever was last persisted and the watchdog takes over.
- Entrypoints.ProcessFilesTask: closes its task only in those attempts, for the same reason.
- Retry.AsyncRetryExecutor.Execute: replies are a finite list followed by successes, so with an unlimited budget a call
  that never ends is not modelled; with budgets of 0 or more every call is, since it ends within M + L + 1 replies.
- The HTTP-date form of Retry-After, which the code does not read; floating-point rounding.
- Statistics, listings, pagination, routes, the frontend: easy or one-branch facts only.
