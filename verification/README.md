# Virtual-fitting job protocol: a verified model

This project models the asynchronous virtual-fitting jobs of the service and the self-contained concurrency pieces
around them, and proves what they promise. Verify everything with `dafny verify dfyconfig.toml`.

## The system

A job is one database row plus up to four rows in an attempts table. Request workers, the provider's webhook,
post-processing and fallback workers, the watchdog and the result publishers change it concurrently, each change one
short transaction that locks the row and applies a conditional UPDATE. Workers act under a lease (token and expiry);
external events name the current task of a started job. Everything else (queues, object store, provider, text
generation, crashes) can happen, fail or be lost between any two transactions.

| file | content |
|---|---|
| `Jobs.dfy` | row, attempts, results and limits (modules `Basics`, `Jobs`) |
| `Transitions.dfy` | every state-changing method as guard and effect; `Step` is one atomic call |
| `Repository.dfy` | the repositories as objects that change the row in place, proved against `Step` |
| `RowInvariant.dfy` | the inductive invariant, what may change over time, and runs of calls |
| `Columns.dfy` | the row told column by column: where every value comes from, and when exactly each call applies (modules `Columns`, `Guards`) |
| `Endings.dfy` | how a job may still end from any point it can reach |
| `NextStep.dfy`, `RequestRuns.dfy` | the next-step classifier, the message-deletion rule, and runs of request workers |
| `Watchdog.dfy` | the SQL selection, the inspection, and their agreement with the classifier |
| `WatchdogRuns.dfy` | the watchdog's own table, runs of its instances, and the order in which jobs are checked (modules `WatchdogChecks`, `WatchdogRuns`, `WatchdogQueue`) |
| `PublishRuns.dfy`, `ResultPublisher.dfy` | runs of publishers, and the publisher itself under interference |
| `LeaseRuns.dfy`, `Budgets.dfy` | leases, claim counters and the calls made under claims over whole runs (modules `LeaseRuns`, `Budgets`, `Licences`) |
| `NotAcceptedRuns.dfy` | confirmed "not accepted" reports, retries and contradictions |
| `Webhook.dfy` | conclusive events and late image references (modules `Webhook`, `ImageReferences`) |
| `Postprocess.dfy`, `Fallback.dfy` | the handlers as they run, under interference |
| `FollowUp.dfy` | the internal queue: when a follow-up message may be deleted |
| `Evidence.dfy`, `Classify.dfy` | webhook bodies, status answers and submission responses made unambiguous |
| `DirectLimiter.dfy`, `TicketLimiter.dfy` | the two asyncio limiters |
| `ImageStore.dfy`, `Warmup.dfy`, `Price.dfy` | conditional-create image store, warm-up control, Korean price reader |

## How it is modelled

- A *run* is a finite sequence of calls or actions by any actors in commit order. `RowInvariant.Run` takes any calls;
  the run modules add worker-local state: what a worker has read, which token it holds, what it has sent.
- *Interference*: handlers are methods that call `Interference.Meanwhile` (or `Pause`, `Bucket.Meanwhile`) wherever
  others may act. Its body does nothing, but callers only know its contract, which allows every change `Evolves`
  allows, so what they prove holds for all of them.
- *Requests that leave*: what a handler asks of the outside world is on a log only the asking itself extends, with the
  number claimed for it; claim logs grow only with applied claims. Contracts relate the two logs. Handlers also count
  what keeps them from going on (`halts`, `misses`, checks put off): work is put off only for such a reason, and
  nothing is stored after one.
- `RowInvariant.Honest` states two things the database cannot check and the callers guarantee: a stored success names a
  recorded image, and only a request that never left is undone. Both are proved of the callers, by
  `Postprocess.PostprocessHandler.SaveCompleted` and `RequestRuns.UndoIsHonest`.
- Lease tokens and task ids are drawn fresh; the database clock does not go back. Times are integers in microseconds.
- Whether a shared sending slot is free, what S3, SQS and the provider answer, and when a worker stops are inputs.

## What the proofs found

Three expected properties do not hold of the code as it is; each has a concrete run and an exact condition.

1. *No send after RETRY_EXHAUSTED.* A publisher may stall between claiming its attempt and sending; after its lease ran
   out another may record exhaustion (or publication), and the first one then still sends
   (`PublishRuns.ExhaustedYetSentAgain`). Further sends are possible exactly while a publisher stands between claim and
   send (`PublishRuns.SendAgainExactly`); publishers that send only under a valid lease never send after the decision
   (`PublishRuns.PunctualSendsStop`). Three sends in all remain the limit.
2. *A contradicted attempt is never sent again.* Undoing an unsent second attempt restores the first one's schedule even
   if a contradiction was recorded for it meanwhile (`NotAcceptedRuns.ContradictedYetRescheduled`); this is the only way
   (`NotAcceptedRuns.ContradictedRescheduledExactly`).
3. *The watchdog's classifiers agree.* They do, except that the inspection compares the lease with the process clock
   and the selection with the database clock. The inspection reaches the matching recovery exactly when the process
   clock is past the lease (`Watchdog.InspectionRecovers`; `Watchdog.SlowClockFallsThrough` gives a run).

As far as the methods on the row go, a job is stuck for good in one case only, a result that has been given up
(`Endings.EndsExactly`), and it can no longer succeed exactly if a failure is stored, its result has been given up, or
its one fallback was claimed without a start on record (`Endings.SucceedsExactly`).

The price reader counts a 만 after zeros as ten thousand (`Price.BareMan`), since a section of zero counts as one.
No error code is ever classified as a final generation failure, because the set of such codes is empty
(`SubmitEvidence.NotAcceptedExactly`).
Deferring a watchdog check sets a fixed time from now: with a check interval longer than that, which the settings
allow, it brings the next check closer (`WatchdogRuns.ChecksApart` therefore counts the shorter of the two).

## Model

| member | source | states |
|---|---|---|
| RowInvariant.StepKeepsInvariant | app/virtual_fitting/repositories/async_job_state.py:203-983 | Every guarded method keeps the row and its attempts legal, and takes nothing back: status rank, counters and the next action only move forward; payload, verified image, fallback image and task, acceptance time, image references and auth hold are written once; a terminal row is frozen |
| RowInvariant.RunKeepsInvariant | app/virtual_fitting/repositories/async_job_state.py:203-983 | The same from any point of any run to its end, whatever the order of calls by all actors |
| RowInvariant.RunEvolves | app/virtual_fitting/repositories/async_job_state.py:203-983 | What is on record at one point of a run is still there at every later point |
| RowInvariant.ReachableRows | app/virtual_fitting/repositories/async_job_state.py:738-926 | In every run: status, next action, payload and message status form one of the legal combinations; a verified image excludes every trace of a fallback; a COMPLETED payload names the verified key, or the fallback key when there is none |
| RowInvariant.InitInvariant | app/virtual_fitting/repositories/async_job_repository.py:253-274 | A newly created row is legal |
| RowInvariant.RejectedFits | app/virtual_fitting/repositories/async_job_state.py:606-622 | The payload stored after the fourth rejected attempt has the result format |
| RowInvariant.NotAcceptedKeeps | app/virtual_fitting/repositories/async_job_state.py:531-676 | Recording a confirmed "not accepted" keeps the attempts numbered 1, 2, 3, 4 with only the last one open, and the row in agreement with the last attempt |
| RowInvariant.ContradictionKeeps | app/virtual_fitting/repositories/async_job_state.py:678-719 | Recording a contradiction keeps the attempts lined up and the row legal |
| RowInvariant.BeginRetryKeeps | app/virtual_fitting/repositories/pruna_limiter.py:134-237 | A granted retry only ever follows a last attempt that is recorded as not accepted and was scheduled |
| RowInvariant.CancelKeeps | app/virtual_fitting/repositories/pruna_limiter.py:433-480 | Undoing an unsent submission restores exactly the lined-up record of the attempts before it |
| Jobs.PartsJoin | app/clients/s3.py:118 | The parts a key is checked by have no slash in them and join to the key again |
| Jobs.KeyRefusedExactly | app/clients/s3.py:110-121 | A key is refused exactly for one of these reasons |
| Jobs.Utf8IsShortest | app/clients/s3.py:114-115 | The length in bytes a key is limited by: every character takes as few as it fits into |
| Columns.EveryValueHasAnOrigin | app/virtual_fitting/repositories/async_job_state.py:203-983 | Whatever a reachable row says, in any run, it says because a call that applied carried it: image references from a success or a late reference, times from the clock of the call, a status from the one method that leads there, a result from the call that stored it |
| Columns.AppliedCallsLeave | app/virtual_fitting/repositories/async_job_state.py:1014-1113 | The other way round: an applied call leaves every value it carries on the row |
| Columns.SuccessRefs | app/virtual_fitting/repositories/async_job_state.py:398-421 | A success leaves exactly its own two references, the acceptance time and the next step, and no other column changes |
| Guards.LeaseCallsExactly | app/virtual_fitting/repositories/async_job_state.py:203-262 | On reachable rows a lease is granted, extended and released exactly under these conditions |
| Guards.SubmitCallsExactly | app/virtual_fitting/repositories/async_job_state.py:266-347 | Preparing, starting and accepting a submission apply exactly so |
| Guards.EventCallsExactly | app/virtual_fitting/repositories/async_job_state.py:349-527 | Each kind of event applies exactly on its own task, started, with nothing decided yet |
| Guards.ImageCallsExactly | app/virtual_fitting/repositories/async_job_state.py:738-829 | Bundle claims, the image record, the move to the fallback and text claims apply exactly so |
| Guards.FallbackCallsExactly | app/virtual_fitting/repositories/async_job_state.py:831-891 | The calls of the fallback apply exactly so: once prepared, once started, once recorded |
| Guards.ResultCallsExactly | app/virtual_fitting/repositories/async_job_state.py:895-983 | Storing, claiming, publishing and giving up apply exactly so, the formats of both kinds of result written out |
| Guards.FirstSubmissionExactly | app/virtual_fitting/repositories/pruna_limiter.py:85-132 | A first submission is granted exactly to a prepared, unstarted job: the unique keys of the attempts table never stand in the way |
| Guards.RetryExactly | app/virtual_fitting/repositories/pruna_limiter.py:134-237 | A retry is granted exactly when the schedule is over, fewer than four attempts are on record and the task is new |
| Guards.UndoExactly | app/virtual_fitting/repositories/pruna_limiter.py:433-480 | An undo applies exactly to the current, started and unaccepted submission |
| Endings.EndsExactly | app/virtual_fitting/repositories/async_job_state.py:203-983 | From any legal row some lawful run brings the job to its end, exactly if its result has not been given up |
| Endings.SucceedsExactly | app/virtual_fitting/repositories/async_job_state.py:203-983 | From any legal row some lawful run completes the job, exactly if no failure is stored, its result has not been given up, and its only fallback was not claimed in vain |
| NextStep.NextStepExactly | app/virtual_fitting/pruna_submitter.py:102-134 | On reachable rows the next step, told from the columns alone |
| NextStep.DeletionExactly | app/virtual_fitting/pruna_submitter.py:137-149 | On reachable rows and for any paths: a message may be deleted exactly in the listed cases, each with the parts of the deployment it needs |
| NextStep.WithoutAPart | app/virtual_fitting/watchdog.py:1007-1040 | What each part that is down leaves: without the watchdog only pending results go, without publisher or result queue none of those |
| NextStep.NextStepMissingExactly | app/virtual_fitting/pruna_submitter.py:102-134 | On reachable rows the next step is missing exactly when the job is terminal, or was never submitted |
| NextStep.OnlyUndoUncovers | app/virtual_fitting/pruna_submitter.py:102-134 | No method takes a next step away, with one exception stated exactly: undoing the first, unsent submission |
| NextStep.StartStays | app/virtual_fitting/repositories/async_job_state.py:203-983 | The start record of a job still to be submitted survives every method but that one |
| NextStep.UndoUncovers | app/virtual_fitting/repositories/pruna_limiter.py:433-480 | Undoing leaves a job "never submitted" exactly when the undone attempt was its first |
| NextStep.KeptMessages | app/virtual_fitting/pruna_submitter.py:137-149 | With every path up, the rows whose message must be kept are exactly: never submitted, auth hold, rejection without a schedule, waiting for the fallback, publication exhausted |
| NextStep.DeletionMonotone | app/virtual_fitting/pruna_submitter.py:137-149 | A further path coming up never turns a permitted deletion down, and every permitted deletion is of a job that is settled or has a next step |
| RequestRuns.NoLostJob | app/virtual_fitting/request_worker.py:446-612 | For all interleavings of any number of request workers, resubmitters and all other actors, with crashes and lost leases: once a copy of the request message is deleted the job is settled or has a next step, for the rest of the run |
| RequestRuns.AtMostFourRequests | app/virtual_fitting/pruna_submitter.py:239-466 | In the same runs at most four generation requests ever leave, each under its own recorded attempt |
| RequestRuns.NothingIsStuck | app/virtual_fitting/request_worker.py:446-612 | After any such run: a job never submitted can still be submitted, a rejected one with a schedule can still be sent again, and a message that may go (by a part that is up, or at the fallback with its own message queued) can still be deleted, without a further request |
| RequestRuns.DeletionsHaveGrounds | app/virtual_fitting/request_worker.py:446-612 | In any such run a message goes only on a row a worker read before: finished, carried on by a part that was up then, or at the fallback with its own message queued |
| RequestRuns.DoKeeps | app/virtual_fitting/pruna_submitter.py:239-466 | Every action of every worker keeps the inductive invariant: only the worker that holds the lease could still undo the submission a deletion relies on, and only tasks that were sent have been reported on |
| RequestRuns.UndoIsHonest | app/virtual_fitting/pruna_submitter.py:417-433 | When a worker takes an unsent submission back, nobody has reported on its task |
| RequestRuns.GrantKeeps | app/virtual_fitting/repositories/pruna_limiter.py:85-132 | A granted submission puts the attempt on record before anything is sent, and no decision taken earlier depends on its absence |
| Watchdog.RunStamped | app/virtual_fitting/repositories/async_job_state.py:203-983 | Every reachable row is legal and, the database clock never going back, its acceptance and verification times lie no later than its last update, and that not ahead: the two staleness bases are consistent |
| Watchdog.SelectedExactly | app/virtual_fitting/watchdog.py:108-176 | On every reachable row the query's conditions say exactly this: the check is due, and a slot has been held too long, or the job's next step is overdue or needs a person (auth holds included, which the query does not read), or a finished job's cost is still to be looked for |
| Watchdog.OverdueIsDue | app/virtual_fitting/watchdog.py:108-176 | No legal row whose next step is overdue is left out by the query's conditions on it |
| Watchdog.InspectionExactly | app/virtual_fitting/watchdog.py:475-587 | On every legal row, overdue or not: when the provider is asked, when a request is sent again, when that is held back or waits, and when a person is told |
| Watchdog.InspectionExactlyLater | app/virtual_fitting/watchdog.py:560-620 | The same for the stages of the image and of the result, and exactly which rows fall through |
| Watchdog.InspectionRecovers | app/virtual_fitting/watchdog.py:475-596 | The inspection of an overdue row takes the recovery of that very next step, exactly when the process clock agrees that the lease is over; a question already asked for a stale slot is not asked twice |
| Watchdog.SelectedIsActedOn | app/virtual_fitting/watchdog.py:475-620 | No row is selected for its own sake and then passed over, as long as both clocks agree that its lease is over; a finished job is selected only if its cost is then asked for |
| Watchdog.SlowClockFallsThrough | app/virtual_fitting/watchdog.py:588-596 | A run from a new job to an overdue row that the query selects and the inspection passes over, because the process clock is a moment behind the database's |
| Watchdog.PromisedRowsAreRecovered | app/virtual_fitting/watchdog.py:1007-1080 | Every row for which the watchdog or post-processing path answers ready is selected and reaches its recovery from a fixed deadline on: its own wait, the lease and the next check time, whichever is last |
| WatchdogChecks.WatchdogRepository.ClaimCheck | app/virtual_fitting/watchdog.py:178-195 | Won exactly when no check is recorded or the recorded one is due; the next one is then due an interval later |
| WatchdogChecks.WatchdogRepository.ClaimRepublish | app/virtual_fitting/watchdog.py:197-210 | Won exactly when nothing was published for an interval |
| WatchdogChecks.WatchdogRepository.ClaimRepublishOnce | app/virtual_fitting/watchdog.py:212-235 | Won exactly when nothing was published since the stage start the same statement reads |
| WatchdogChecks.WatchdogRepository.DeferCheck | app/virtual_fitting/watchdog.py:237-245 | Sets the next check time of a job that has been checked, and nothing else |
| WatchdogChecks.WatchdogRepository.ForgetRepublish | app/virtual_fitting/watchdog.py:256-263 | A failed publication reopens the claim |
| WatchdogChecks.WatchdogRepository.RunOnce | app/virtual_fitting/watchdog.py:442-458 | A cycle is complete exactly if no stop stood before one of its jobs, and then leaves none of those the query returned due, whoever won their checks; it inspects exactly the jobs whose checks it won |
| WatchdogRuns.RepublishedAtMostTwice | app/virtual_fitting/watchdog.py:212-263 | For all interleavings of any number of watchdog instances and all other actors on a job: its post-processing is published again at most twice, once for each of its two stages, and once more for each publication that failed |
| WatchdogRuns.RepublishedTwice | app/virtual_fitting/watchdog.py:212-235 | A run from a new job that reaches the bound: once for each stage |
| WatchdogChecks.OrderIsTotal | app/virtual_fitting/watchdog.py:160-165 | The query's order is a strict order of all jobs: those never checked first, then the earlier due before the later |
| WatchdogRuns.RepublicationsApart | app/virtual_fitting/watchdog.py:197-263 | Two publications won with no failure in between lie an interval apart, or a new stage began in between |
| WatchdogRuns.ChecksApart | app/virtual_fitting/watchdog.py:178-245 | Two checks won lie an interval apart, or the shorter wait a deferral in between asked for |
| WatchdogQueue.NoStarvation | app/virtual_fitting/watchdog.py:104-176 | Under the query's order and limit no due job waits for ever: while it has not been checked, cycles times limit stay below the number of all jobs, new ones included |
| PublishRuns.AtMostThreeSends | app/virtual_fitting/result_publisher.py:95-244 | For all interleavings of publishers with crashes and lease expiry: sends never exceed claimed attempts, those never exceed three, and every send carries the stored payload |
| PublishRuns.PublishedMeansSent | app/virtual_fitting/repositories/async_job_state.py:943-983 | PUBLISHED is recorded only after a send that succeeded; the terminal status is the payload's; RETRY_EXHAUSTED means three claimed attempts |
| PublishRuns.NoClaimAfterDecision | app/virtual_fitting/repositories/async_job_state.py:928-983 | Once PUBLISHED or RETRY_EXHAUSTED is on record it stays, and no publisher claims again |
| PublishRuns.SendAgainExactly | app/virtual_fitting/result_publisher.py:95-218 | After the decision a further send is possible exactly if some publisher stands between its claim and its send |
| PublishRuns.ExhaustedYetSentAgain | app/virtual_fitting/result_publisher.py:233-244 | A run in which the result is recorded as exhausted and can still be sent: "no later send" does not hold of the code |
| PublishRuns.PunctualSendsStop | app/virtual_fitting/result_publisher.py:136-209 | If every send is made while its publisher holds a valid lease, nothing is ever sent after the decision, which gives the lease up |
| PublishRuns.StoredResultsAreSendable | app/virtual_fitting/result_publisher.py:62-75 | The check before the claim finds nothing wrong with any reachable stored result |
| PublishRuns.DueIsGranted | app/virtual_fitting/repositories/async_job_repository.py:306-332 | A row is listed as due exactly when a publisher would be granted it and has not given it up, and it is then sent unless its attempts are used up |
| PublishRuns.ResultsComeToAnEnd | app/virtual_fitting/result_publisher.py:95-244 | After any such run a stored result can still be brought to its end: published while it has attempts left, given up once it has none |
| PublishRuns.DoKeeps | app/virtual_fitting/result_publisher.py:95-218 | Every publisher step keeps: attempt numbers are never shared, every send used a claimed number, every recorded success was sent |
| ResultPublisher.ResultPublishProcessor.Publish | app/virtual_fitting/result_publisher.py:95-218 | One call with arbitrary interference: the lease is taken exactly if the row is due for publication and free; a granted result is claimed, sent once under that claim and recorded, step by step as listed, and left alone only for the reason on its row; PUBLISHED only when sent, answered and recorded; the lease is given back unless it is held on purpose, for 300, 5 or 30 seconds |
| ResultPublisher.ResultPublishProcessor.Deliver | app/virtual_fitting/result_publisher.py:104-209 | The checks on the granted row, the claim, the send under the number claimed and the record, in that order and once each, with anything others do in between |
| ResultPublisher.ResultPublishProcessor.SendClaimed | app/virtual_fitting/result_publisher.py:136-209 | Exactly one send per claim; then a success record, and failing that exhaustion after the last attempt or a pause before the next |
| ResultPublisher.ResultPublishProcessor.Hold | app/virtual_fitting/result_publisher.py:228-231 | One renewal of the lease and nothing else: held exactly if it applied, to the end of the pause |
| ResultPublisher.ResultPublishProcessor.Exhaust | app/virtual_fitting/result_publisher.py:233-244 | One guarded record of giving up and nothing else: counts and result stay |
| LeaseRuns.PeriodsDisjoint | app/virtual_fitting/repositories/async_job_state.py:203-262 | The validity periods of different grants never overlap in any run with a forward clock |
| LeaseRuns.ValidExactly | app/virtual_fitting/repositories/async_job_state.py:256-262 | A token is valid exactly if it was granted last and its period is not over |
| LeaseRuns.StaleWorkersAreFenced | app/virtual_fitting/repositories/async_job_state.py:1014-1113 | Once another grant followed, no call that presents the earlier token ever applies or changes anything, renewal, release and publication included |
| LeaseRuns.TokensGuard | app/virtual_fitting/repositories/async_job_state.py:1014-1039 | Every method that takes a token applies only while that token is valid |
| LeaseRuns.RefusedDoesNothing | app/virtual_fitting/repositories/async_job_state.py:1014-1113 | A refused call leaves row and attempts as they are |
| NotAcceptedRuns.OneRecordPerAttempt | app/virtual_fitting/repositories/async_job_state.py:531-676 | Any number of reports about one attempt, from any source and in any order, have the effect of the first alone |
| NotAcceptedRuns.FirstReport | app/virtual_fitting/repositories/async_job_state.py:120-124 | Outcome by outcome: the hint or 10, 20, 40 seconds; held back only if unrepresentable; the fourth attempt stores the rejected result; progress on record is a contradiction |
| NotAcceptedRuns.AttemptsOverRuns | app/virtual_fitting/repositories/async_job_state.py:531-676 | In every run at most four attempts, each starting no earlier than the schedule of the one before, which without hints is 10, 20 and 40 seconds after its rejection |
| NotAcceptedRuns.RecordedForGood | app/virtual_fitting/repositories/async_job_state.py:531-676 | A recorded rejection and its schedule are never rewritten, whatever calls follow |
| NotAcceptedRuns.ContradictedRescheduledExactly | app/virtual_fitting/repositories/async_job_state.py:678-708 | A contradicted attempt is put back on schedule exactly when an unsent later attempt is undone on top of it |
| NotAcceptedRuns.ContradictedYetRescheduled | app/virtual_fitting/repositories/pruna_limiter.py:433-480 | A run from a new job in which that happens: "never rescheduled" does not hold of the code |
| NotAcceptedRuns.ContradictionExactly | app/virtual_fitting/repositories/async_job_state.py:678-719 | A contradiction is recorded exactly on an attempt recorded as not accepted, and the first one stays |
| NotAcceptedRuns.LateReports | app/virtual_fitting/runware_webhook.py:818-870 | A late rejection of a past attempt changes nothing; a late contradiction leaves the current attempt alone and takes back only a schedule not yet acted on |
| Webhook.FirstConclusiveWins | app/virtual_fitting/runware_webhook.py:668-816 | For any sequence of success, recoverable and final events on an open job the first one decides, down to the references and the failure it stores, and the rest change missing image references at most |
| Webhook.RehandlingChangesNothing | app/virtual_fitting/runware_webhook.py:668-816 | Handling the whole sequence again, in any order, changes missing image references at most |
| Webhook.OneConclusionPerJob | app/virtual_fitting/repositories/async_job_state.py:398-527 | Over the whole life of a job, with all other calls in between, at most one conclusive event is applied |
| Webhook.OpenTakesAny | app/virtual_fitting/runware_webhook.py:993-1009 | A conclusive event applies exactly while the job is open, and sets the decision it stands for: its own references, its own failure, and nothing else |
| Webhook.ClosedKeeps | app/virtual_fitting/runware_webhook.py:924-977 | An event on a job that is not open changes missing image references at most |
| Webhook.WebhookProcessor.Apply | app/virtual_fitting/runware_webhook.py:668-816 | The handler's steps add up to the specified effect: transition, late references, contradiction mark; an applied event stores exactly what it carries |
| ImageReferences.FillWhereExactly | app/virtual_fitting/repositories/async_job_state.py:452-463 | Under three-valued logic the UPDATE applies exactly when nothing conflicts, something is missing, and a stored reference matches or an authenticated query vouches for an AI-stored job |
| ImageReferences.PreCheckIsSafe | app/virtual_fitting/runware_webhook.py:936-977 | The check made beforehand never suppresses a fill the UPDATE would make; it tries in vain exactly for a first, unconfirmed reference |
| ImageReferences.RefsAreWriteOnce | app/virtual_fitting/repositories/async_job_state.py:423-475 | Over any run a stored reference is never changed |
| Budgets.CountersCount | app/virtual_fitting/repositories/async_job_state.py:987-1012 | Each counter counts its successful claims, neither more nor less, over any run |
| Budgets.BudgetsHold | app/virtual_fitting/repositories/async_job_state.py:738-941 | Across all workers, redeliveries and crashes: at most 2 S3 bundles, 4 text generations, 1 fallback, 3 result messages are ever claimed |
| Licences.CallsWithinClaims | app/virtual_fitting/postprocess_handler.py:194-423 | Over all interleavings of any number of executions, with crashes between claim and call: bundles looked for, texts asked for, fallbacks generated and results sent never outnumber the claims, nor those 2, 4, 1 and 3 |
| Postprocess.StripIsMiddle | app/virtual_fitting/postprocess_handler.py:388-415 | Stripping takes white space off both ends and nothing else |
| Postprocess.PostprocessHandler.RunBundle | app/virtual_fitting/postprocess_handler.py:221-241 | The requests made for a bundle are the ones it reports, all for the planned key: stopped at the first answer that settles the matter, or all three, or interrupted in between |
| Postprocess.PostprocessHandler.Conclude | app/virtual_fitting/postprocess_handler.py:242-268 | What a bundle's end leads to: the record of the image, another bundle, the fallback after the second one that ended in NOT_FOUND, or waiting |
| Postprocess.PostprocessHandler.VerifyImage | app/virtual_fitting/postprocess_handler.py:194-268 | All requests made belong to bundles claimed in this call, at most two in the job's life; the fallback is entered only after a whole second bundle ended in NOT_FOUND; what is returned is the key the row records |
| Postprocess.PostprocessHandler.StoreImage | app/virtual_fitting/postprocess_handler.py:131-180 | Without key, URL or an object stored under that key nothing is recorded; the returned key is the recorded one |
| Postprocess.PostprocessHandler.ClaimGeneration | app/virtual_fitting/repositories/async_job_state.py:770-792 | A number only from an applied claim; giving up without being stopped means that the budget is spent |
| Postprocess.PostprocessHandler.WriteComment | app/virtual_fitting/postprocess_handler.py:361-396 | At most two comment requests leave, each under a claim of its own; the comment is the first usable answer, stripped, and the default only after both or with the budget spent |
| Postprocess.PostprocessHandler.WriteTitle | app/virtual_fitting/postprocess_handler.py:398-420 | At most two title requests leave, all for this very comment; the title is the first answer that, stripped, has 1 to 100 characters, never one cut to fit |
| Postprocess.PostprocessHandler.TitleAndComment | app/virtual_fitting/postprocess_handler.py:295-423 | All text requests of an execution: one per claim, no more than the counter moved; titles only for the generated comment; a generated title is never paired with the default comment |
| Postprocess.PostprocessHandler.TextsAreStorable | app/virtual_fitting/postprocess_handler.py:385-419 | A generated text is not blank and has no white space at its ends, and a title has 1 to 100 characters |
| Postprocess.PostprocessHandler.RecordImage | app/virtual_fitting/postprocess_handler.py:237-244 | The key is recorded by one call, or found on the row; what the row records is what is returned |
| Postprocess.PostprocessHandler.EnterFallback | app/virtual_fitting/postprocess_handler.py:257-265 | One call with NOT_FOUND; it counts as done exactly if the row stands at the fallback afterwards |
| Postprocess.PostprocessHandler.SaveCompleted | app/virtual_fitting/postprocess_handler.py:426-441 | Stores the result for a key the row records, title and comment in their places, or leaves an earlier result |
| Postprocess.PostprocessHandler.Handle | app/virtual_fitting/postprocess_handler.py:100-127 | The whole handler under arbitrary interference: a success names the verified image with the texts the requests gave; every request that left was claimed, and text requests stay within what was left of four; nothing is repeated for a stored result |
| Fallback.RunFallbackHandler.Generate | app/virtual_fitting/fallback_handler.py:233-329 | At most one generation request leaves, for the task on record and only after the job's single fallback was claimed from zero in this call; an image is recorded only if the provider gave one and it was stored under the job's fallback key |
| Fallback.RunFallbackHandler.GetSlot | app/virtual_fitting/fallback_handler.py:233-295 | Checks, task and slot in that order; a slot that is returned was taken with nothing in the way, and waiting ends early only for a reason |
| Fallback.RunFallbackHandler.Checked | app/virtual_fitting/fallback_handler.py:211-256 | A check that refuses stores its own failure, one that is put off stores nothing |
| Fallback.RunFallbackHandler.Fail | app/virtual_fitting/fallback_handler.py:204-209 | The one call made is to store this very failure; one already there is left as it is and not waited for |
| Fallback.RunFallbackHandler.AwaitSlot | app/virtual_fitting/fallback_handler.py:267-295 | Waiting uses up nothing: the only fallback is used up exactly by the slot that is granted |
| Fallback.RunFallbackHandler.TakeSlot | app/virtual_fitting/repositories/pruna_limiter.py:239-314 | A granted slot is one applied claim that uses up the only fallback, for the task on record |
| Fallback.RunFallbackHandler.PrepareTask | app/virtual_fitting/repositories/async_job_state.py:831-855 | The task is on record before anything is sent; an earlier one is used again |
| Fallback.RunFallbackHandler.AfterError | app/virtual_fitting/fallback_handler.py:331-352 | Only an exhausted balance or a clear refusal leads to a failure result; an unclear answer or a refused key changes nothing |
| Fallback.RunFallbackHandler.RecordImage | app/virtual_fitting/repositories/async_job_state.py:857-876 | A recorded fallback image stands under the job's fallback key |
| Fallback.RunFallbackHandler.Handle | app/virtual_fitting/fallback_handler.py:172-202 | The whole handler: one request at most, none once started or claimed before; a success names the recorded fallback image with the texts the requests gave |
| WebhookEvidence.TasksAreIndependent | app/virtual_fitting/runware_webhook.py:315-341 | Each task's events after the pass are determined by its own events alone; no task appears or disappears |
| WebhookEvidence.ConflictsReadAsProgress | app/virtual_fitting/runware_webhook.py:315-341 | A body that contradicts itself about a task leaves one progress report for it and no more; one that does not is taken as it stands |
| WebhookEvidence.ClearedExactly | app/virtual_fitting/runware_webhook.py:343-357 | The second pass takes the reference away from, and marks, exactly the successes of a task whose successes refer to two different images |
| WebhookEvidence.RefsLeftAgree | app/virtual_fitting/runware_webhook.py:315-357 | After both passes an image reference is left only where all references given for the task agree |
| WebhookEvidence.ResolvedIsSettled | app/virtual_fitting/runware_webhook.py:315-341 | No task is in conflict afterwards, and a second pass changes nothing |
| WebhookEvidence.OrderIsKept | app/virtual_fitting/runware_webhook.py:334-341 | Events of tasks without conflict keep their order, across tasks too |
| WebhookEvidence.NormalisedIsClear | app/virtual_fitting/runware_webhook.py:315-357 | After both passes each task has progress and successes with one reference at most, or failures with one code |
| WebhookEvidence.NormalisedTwice | app/virtual_fitting/runware_webhook.py:315-357 | Both passes together are idempotent |
| WebhookEvidence.WithoutConflictingResults | app/virtual_fitting/runware_webhook.py:315-341 | The loops compute exactly that settled sequence |
| StatusEvidence.ParseStatus | app/virtual_fitting/providers/runware_status.py:93-165 | An error next to a success is unknown; otherwise the first item that reports progress or success decides, and its reference is taken over exactly when all successes agree; without such an item a failure code is named exactly when all errors for the task agree on it |
| SubmitEvidence.NotAcceptedExactly | app/virtual_fitting/providers/runware_async.py:251-331 | Not accepted, or generation failure, exactly when every error about the task is of that kind and nothing reports progress or success; no code is ever a final generation failure |
| SubmitEvidence.RejectedExactly | app/virtual_fitting/providers/runware_async.py:251-357 | A definite rejection exactly on clear evidence about the task, a refused key below 500, or a 4xx status other than 408, 409, 429; each reason for it exactly so |
| SubmitEvidence.UndecidedExactly | app/virtual_fitting/providers/runware_async.py:251-357 | And otherwise undecided, each reason exactly on its own condition |
| SubmitEvidence.AcceptedExactly | app/virtual_fitting/providers/runware_async.py:334-352 | Accepted exactly on a success status without any error and with the task named as sent |
| DirectLimiter.LimiterPromises | app/virtual_fitting/concurrency.py:28-103 | At every point of every interleaving: running is holders plus handed-over slots and at most the maximum; a free slot means nobody waits; slots go out strictly in order of arrival |
| DirectLimiter.ConcurrencyLimiter.Arrive | app/virtual_fitting/concurrency.py:74-83 | A free slot is taken at once, a full queue refuses, anyone else joins the end |
| DirectLimiter.ConcurrencyLimiter.Release | app/virtual_fitting/concurrency.py:96-103 | The slot goes to the first waiter not cancelled, or becomes free |
| DirectLimiter.ConcurrencyLimiter.Interrupt | app/virtual_fitting/concurrency.py:84-86 | A timeout or cancellation marks the waiter only |
| DirectLimiter.ConcurrencyLimiter.Resume | app/virtual_fitting/concurrency.py:86-94 | A slot received too late is passed on; a cancelled waiter leaves no trace |
| DirectLimiter.ConcurrencyLimiter.Leave | app/virtual_fitting/concurrency.py:65-72 | Leaving gives back exactly one slot |
| DirectLimiter.HandKeepsOrder | app/virtual_fitting/concurrency.py:96-102 | Handing a slot over never overtakes a waiter that arrived earlier and still waits |
| TicketLimiter.TicketPromises | app/body_image_validation/async_concurrency.py:66-114 | At every point: running within its limit, queue within its limit, slots in ticket order, and a free slot with a waiting head means the head is due to run |
| TicketLimiter.AsyncBodyValidationLimiter.Enter | app/body_image_validation/async_concurrency.py:66-75 | Direct entry only past an empty queue; refusal exactly on a full one; spent patience leaves at once |
| TicketLimiter.AsyncBodyValidationLimiter.Wake | app/body_image_validation/async_concurrency.py:77-97 | A woken ticket takes the slot exactly if it is head and one is free, even out of time; otherwise it waits on or leaves, waking the others |
| TicketLimiter.AsyncBodyValidationLimiter.Release | app/body_image_validation/async_concurrency.py:99-114 | The slot comes back exactly once however often the release is cancelled, and everyone is woken |
| TicketLimiter.HeadServed | app/body_image_validation/async_concurrency.py:82-97 | Serving the head keeps slots in ticket order |
| ImageStore.ResultImages.Store | app/virtual_fitting/result_image.py:370-428 | Whatever stands at the key stays; a success reports length and digest of the very object there; a foreign or unverifiable object is never accepted |
| ImageStore.ResultImages.Existing | app/virtual_fitting/result_image.py:333-367 | An existing object is accepted exactly if job, task, digest, type, declared and actual length and format all check out; a refusal says whether it belongs to another job or does not check out |
| ImageStore.Bucket.PutIfAbsent | app/clients/s3.py:338-383 | Creates only if absent, whether or not request or answer get lost |
| ImageStore.SuccessesAgree | app/virtual_fitting/result_image.py:370-428 | Over any history of the key all successes ever reported agree on length and digest |
| Price.ToInt | app/chat/price.py:29-57 | The loop reads exactly what the fold over characters reads, commas skipped |
| Price.RoundTrip | app/chat/price.py:29-57 | Reading any writing of a number, figures or spoken, with or without 만, commas anywhere, gives that number |
| Price.EveryPrice | app/chat/price.py:29-57 | Every price from 1 to 99,999,999 in every choice of digit styles, a leading 일 written or left out, reads back as itself |
| Price.FiguresOfAnyNumber | app/chat/price.py:38-44 | Plain figures of any size read back as themselves |
| Price.BareMan | app/chat/price.py:49-53 | A 만 after nothing or zeros reads as ten thousand |
| Price.BandWidth | app/chat/price.py:60-68 | Ends for every positive value with the largest power of ten dividing it; the band is exactly the numbers with that prefix |
| Price.RangeSharesUnit | app/chat/price.py:71-75 | A low end without a unit, in figures or spoken digits, counts in the last unit of the high end; any other is read as it stands |
| Warmup.BodyImageWarmupManager.Request | app/body_image_validation/warmup_manager.py:86-116 | One call in flight at the most, none after closing, none before any wait ever promised is over; every promise is backed by a reason that blocks |
| Warmup.BodyImageWarmupManager.Start | app/body_image_validation/warmup_manager.py:91-92 | Any two starts a whole deque apart are at least one window apart |
| Warmup.BodyImageWarmupManager.Finish | app/body_image_validation/warmup_manager.py:118-144 | A success starts the cooldown, a failure the retry wait, a timeout the longer one |
| Warmup.BodyImageWarmupManager.CloseEnd | app/body_image_validation/warmup_manager.py:146-157 | A call cancelled by closing is recorded neither way |
| Warmup.StartKeepsSpread | app/body_image_validation/warmup_manager.py:111-115 | A start the deque allows keeps the whole history spread out |
| FollowUp.FollowUpProcessor.Process | app/virtual_fitting/postprocess_worker.py:241-348 | One internal message under arbitrary interference: how far it got, told by the rows on the way, and deleted exactly if the row it was judged on allows it; never while its step is still waited for |
| FollowUp.FollowUpProcessor.Take | app/virtual_fitting/postprocess_worker.py:277-348 | Lease, handler, second look, release: deleted exactly on such a row |
| FollowUp.FollowUpProcessor.Judge | app/virtual_fitting/postprocess_worker.py:277-284 | A lease refused because the job has moved on: the step never comes back, and the latest row decides |
| FollowUp.StepIsOver | app/virtual_fitting/postprocess_worker.py:176-178 | A step that was reached and is no longer waited for never comes back |
| Repository.AsyncJobStateRepository.Update | app/virtual_fitting/repositories/async_job_state.py:1014-1113 | Lock, conditional UPDATE, reason: applied exactly if condition and lease hold; otherwise nothing changes and the reason follows terminal, lease, diagnosis |
| Repository.AsyncJobStateRepository.EventUpdate | app/virtual_fitting/repositories/async_job_state.py:1041-1063 | The same for an event: current task, started, not terminal; no token |
| Repository.AsyncJobStateRepository.Claim | app/virtual_fitting/repositories/async_job_state.py:987-1012 | Counter, state and lease checked with the increment |
| Repository.AsyncJobStateRepository.AcquireLease | app/virtual_fitting/repositories/async_job_state.py:203-236 | Granted exactly if not terminal, at that action and free |
| Repository.AsyncJobStateRepository.RenewLease | app/virtual_fitting/repositories/async_job_state.py:238-245 | Extended exactly while valid |
| Repository.AsyncJobStateRepository.ReleaseLease | app/virtual_fitting/repositories/async_job_state.py:247-254 | Cleared exactly while valid |
| Repository.AsyncJobStateRepository.HoldsLease | app/virtual_fitting/repositories/async_job_state.py:256-262 | Says whether the token is valid now |
| Repository.AsyncJobStateRepository.PreparePrunaSubmission | app/virtual_fitting/repositories/async_job_state.py:266-300 | Task, key and storage mode recorded once, before any start |
| Repository.AsyncJobStateRepository.MarkPrunaSubmitStarted | app/virtual_fitting/repositories/async_job_state.py:302-320 | Start recorded once, after the task |
| Repository.AsyncJobStateRepository.RecordRunwareAccepted | app/virtual_fitting/repositories/async_job_state.py:322-347 | Acceptance time kept if present; only a job still to be submitted moves on |
| Repository.AsyncJobStateRepository.RecordSubmissionAccepted | app/virtual_fitting/repositories/async_job_state.py:349-368 | The same without a token |
| Repository.AsyncJobStateRepository.RecordAuthHold | app/virtual_fitting/repositories/async_job_state.py:370-396 | The first hold is recorded, for an undecided job only |
| Repository.AsyncJobStateRepository.RecordPrunaSucceeded | app/virtual_fitting/repositories/async_job_state.py:398-421 | To post-processing with the references in one update, from an undecided job only |
| Repository.AsyncJobStateRepository.FillPrunaImageRef | app/virtual_fitting/repositories/async_job_state.py:423-475 | Fills empty references under the conditions shown exact above, touching nothing else |
| Repository.AsyncJobStateRepository.RecordPrunaFailed | app/virtual_fitting/repositories/async_job_state.py:477-527 | To the fallback or to a final failure, from an undecided job only |
| Repository.AsyncJobStateRepository.RecordNotAccepted | app/virtual_fitting/repositories/async_job_state.py:531-676 | The transaction behind every rejection report, as specified step by step |
| Repository.AsyncJobStateRepository.RecordAttemptContradiction | app/virtual_fitting/repositories/async_job_state.py:678-708 | Marks a recorded attempt and takes back an unused schedule |
| Repository.AsyncJobStateRepository.ClaimS3CheckAttempt | app/virtual_fitting/repositories/async_job_state.py:738-751 | At most two, before verification and result |
| Repository.AsyncJobStateRepository.RecordImageVerified | app/virtual_fitting/repositories/async_job_state.py:753-768 | Once, while post-processing |
| Repository.AsyncJobStateRepository.ClaimLlmGenerationAttempt | app/virtual_fitting/repositories/async_job_state.py:770-792 | At most four, with an image on record |
| Repository.AsyncJobStateRepository.MoveJobToFallback | app/virtual_fitting/repositories/async_job_state.py:796-829 | Only on NOT_FOUND and after both bundles |
| Repository.AsyncJobStateRepository.PrepareFallbackTask | app/virtual_fitting/repositories/async_job_state.py:831-855 | Once, and never the asynchronous task |
| Repository.AsyncJobStateRepository.RecordFallbackImageKey | app/virtual_fitting/repositories/async_job_state.py:857-876 | Once, after the fallback started |
| Repository.AsyncJobStateRepository.ClaimFallbackAttempt | app/virtual_fitting/repositories/async_job_state.py:878-891 | At most one, without a verified image |
| Repository.AsyncJobStateRepository.SaveFinalResult | app/virtual_fitting/repositories/async_job_state.py:895-926 | The first well-formed result of this job, never over another |
| Repository.AsyncJobStateRepository.ClaimResultMessageAttempt | app/virtual_fitting/repositories/async_job_state.py:928-941 | At most three, while pending |
| Repository.AsyncJobStateRepository.MarkResultPublished | app/virtual_fitting/repositories/async_job_state.py:943-967 | Only pending, claimed, and with the payload's own status; clears the lease |
| Repository.AsyncJobStateRepository.MarkResultRetryExhausted | app/virtual_fitting/repositories/async_job_state.py:969-983 | Only after three claims |
| Repository.PrunaLimiter.BeginFirstSubmission | app/virtual_fitting/repositories/pruna_limiter.py:85-132 | Grants exactly under lease, state, task and free slot; start and first attempt in one step |
| Repository.PrunaLimiter.BeginRetrySubmission | app/virtual_fitting/repositories/pruna_limiter.py:134-237 | Grants exactly to a due, recorded rejection with attempts left |
| Repository.PrunaLimiter.BeginFallbackGeneration | app/virtual_fitting/repositories/pruna_limiter.py:239-314 | Grants exactly to a prepared, unstarted fallback |
| Repository.PrunaLimiter.CancelUnsentSubmission | app/virtual_fitting/repositories/pruna_limiter.py:433-480 | Back to the previous attempt's record, or to not started |

## Left out

- Shared sending slots, send intervals, send holds, budget sums and cost records (`_take_slot`, `finish_send`, `defer_sends`, `hold_sends`, `TaskCostRepository`): a granted slot is an input of the grant steps.
- The in-flight slot table: how slots are taken and released. The watchdog's query and inspection read a slot's age and task as inputs, and a recorded cost likewise; what the provider's answer then leads to is the webhook handler's part.
- HTTP, TLS, DNS, S3 and SQS transport, presigned URLs, download limits, WebP decoding and Retry-After number parsing: their results are nondeterministic outcomes or parameters.
- The forms of reason codes, task ids and image URLs, checked before the database is asked: the argument types stand for well-formed ones. Storage keys and results are checked as the code checks them.
- Logging, diagnostics, metrics, alerts and settings parsing.
- Worker loops, keep-alive threads and heartbeat timing: modelled as "may stop, crash or lose the lease at any step"; waiting in slices inside a bundle or for a slot is one step. That a handler told to stop does stop is proved; how often it asks is not.
- Creation of the row beyond its initial state, input fingerprints and message parsing: a message whose fingerprint differs is kept and never reaches the protocol.
- Publication of internal follow-up messages beyond whether it succeeded, and messages that cannot be read: those are kept.
- Which of the fallback's checks before a generation refuses, and with which code: a refusal with any code is an input, and its failure result is stored as the code stores it.
- `Watchdog.Inspect` reads one state of the row: that the code reads job and timing in two queries, and reads the job again before an alert, is not modelled.
- A watchdog cycle that a stop cuts short: the bound on waiting counts completed cycles. Alerts and their repetition are not modelled.
- `ImageStore.ResultImages.Store`: agrees on length and digest, not on bytes, because the digest function is a parameter and may collide.
- The regular expressions that find a price in a message, and the rounding of approximate prices: `parse_price` beyond reading, bands and shared units.
- The threaded body-validation limiter, chat prompts and routing, recommendation SQL, pose checks, deployment scripts and routers: glue around the parts above, or calls into models and services that are not part of this model.
