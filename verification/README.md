# Verified model of the OCR platform

A Dafny model of the platform's asynchronous OCR job protocol and of five smaller cores beside it,
with proofs of what they promise. `dafny verify dfyconfig.toml` checks everything.

## The job protocol

The API commits a job row, its first event and an outbox row together; a dispatcher publishes outbox
rows at least once; a worker consumes one message at a time, checkpoints each page, and may crash at
any await; API requests cancel and retry; retention claims and deletes expired rows. All writers of a
job meet at one compare-and-swap on `revision`.

| file | what it holds |
|---|---|
| `Domain.dfy`, `Aggregate.dfy` | stored values; the mutable `Job` and `Page` objects, proved against functions on the stored form |
| `History.dfy`, `EventLog.dfy` | the committed versions of a job as a chain of actions, and the event log that mirrors it |
| `Pauses.dfy` | the backoff as a doubling sequence |
| `World.dfy` | everything that survives a crash as one value (`State`), the invariant `Inv`, and `Evolves`, what steps may do to a state |
| `Commits.dfy`, `Issuing.dfy`, `Awaits.dfy`, `Rely.dfy` | each write keeps `Inv`; what a process may keep believing across an await |
| `Platform.dfy` | the services a worker awaits: repository, storage, engine, preprocessor, clock |
| `Worker.dfy` with `WorkerFacts.dfy`, `AssemblyFacts.dfy`, `RunFacts.dfy` | `OCRWorker.process`, statement by statement |
| `Services.dfy` | `create_job`, `cancel_job`, `retry_job` |
| `Messaging.dfy`, `Consumer.dfy` | the outbox dispatcher and the consume and commit loop |
| `Retention.dfy`, `Cleanup.dfy` | claims, leases, tokens and the cleanup batch |
| `Sorting.dfy` | a stable sort, used by the worker and by multipart completion |
| `Tables.dfy`, `Memory.dfy` | the relational form of a job and the in-memory form of the store |
| `Safety.dfy`, `Interleaving.dfy` | consequences of the invariant, and the step system of all processes with its runs |
| `Contention.dfy` | runs from empty tables in which the properties that need one live worker fail |

How concurrency is modelled. Every method that awaits calls `Interfere` first. Its contract says
what any number of steps of the other processes may have done: they keep `Inv`, they only do what
`Evolves` allows, and (with one live worker) they leave the worker's own objects and counters alone.
A method is verified against that contract and nothing else, so its proof covers every interleaving.
The body of `Interfere` is just one schedule, the one in which nobody else runs. The circle is closed
in `Interleaving.dfy`: the writes of all processes are the kinds of `Step` there, each under the
condition the process establishes before it writes (`SaveIsStep` for the save of a worker);
`StepKeeps` shows that each keeps `Inv`, `StepAllowed` that each is one the other workers allow, and
`SegmentIsQuiet` that any stretch of a run without a step of the job's worker satisfies the contract
of `Interfere`. A failing await may or may not have taken effect.

`Config.solo` separates the two kinds of results. With `solo` false any number of workers may hold
one job and only the compare-and-swap protects it. With `solo` true at most one live worker holds a
job, which is what messages keyed by job id and a consumer that handles one record at a time give.
A property whose statement does not mention `solo` holds for both.

The constant `calm` of a process object selects the runs in which nothing fails and nobody else
touches the job. Clauses under it say exactly what an operation does when it is left alone, such as
that `process` always returns normally, carries out a pending cancel and brings a ready job to success,
that the consumer then commits every record, that dispatch passes drain the outbox and a retention batch
leaves nothing due. All other clauses hold for all failures and interference. Ghost fields such as
`Platform.own` and `JobService.conflicts` record what a process itself did, so that a contract can say
how often it tried.

## The other cores

`TokenBucket.dfy` is the Redis limiter in exact reals; `Sse.dfy` and `Subscription.dfy` are the event
stream from the server's generator to the browser's parser; `LogPipeline.dfy` is the logging service's
batcher and its Kafka fallback files; `Multipart.dfy` is the part arithmetic shared by server and browser.

## What the proofs found

- With several workers on one job, a worker whose page another worker has finished makes no progress
  in `tries` (`page.start` is a no-op on a finished page). `History.StartUsesTryIff` and
  `History.StartsAreTriesIff` say exactly when a start uses a try; `Contention.IdleRounds` is, for
  every n, a run with n such rounds. So the retry loop ends only if the engine stops failing
  transiently, and `Worker.OCRWorker.RetryLoop` is proved with exactly that measure.
- With several workers a finished page can be failed, or finished again with another digest
  (`Contention.FinishedPageFailed`, `Contention.FinishedPageChanged`). `History.FinishedPageKeptIff`
  says exactly when it keeps what it was, over whole histories; permanence with one worker follows.
- The handler for unexpected exceptions does not compare attempts. `Worker.OCRWorker.AfterFailure`
  fails an attempt above its message's exactly if the reload finds one that is unfinished and not being
  cancelled; `Contention.NewerAttemptFailed` is a run that does. With one live worker it is never so.
  The message is settled all the same.
- An object written for a page whose checkpoint was never saved is named by no row, and a claim hands
  out exactly the keys that rows name (`Retention.HandedKeysIff`). A completed claim leaves exactly the
  other objects (`Cleanup.SurvivesIff`), and they stay for good (`Interleaving.RunOrphanObjectStays`);
  `Contention.ResultLeftBehind` is a run that leaves one.
- While a job with an idempotency key is being deleted, a create with that key is answered with an
  error: the unique index still holds the key and the reload finds nothing (`Services.CreateAnswer`).
- The in-memory store does not enforce uniqueness of an empty idempotency key
  (`Memory.EmptyKeyTwice`); the database index does (`Issuing.OneJobPerKey`).

## Model

| member | source | states |
|---|---|---|
| `Interleaving.StepKeeps` | backend/src/contexts/ocr/application/worker.py:69-203 | any write of any process (worker, API request, dispatcher, consumer, retention), from any state that satisfies the invariant, leads to one that does |
| `Interleaving.StepAllowed` | backend/src/worker_main.py:166-203 | every step that is not of the worker of job j is one the worker of j is proved against: cancels and retries are all it sees of its own job |
| `Interleaving.SegmentIsQuiet` | backend/src/worker_main.py:166-203 | any stretch of a run without a step of the worker of job j changes exactly what an await of that worker is proved against |
| `Interleaving.SaveIsStep` | backend/src/infrastructure/persistence.py:272-306 | the save of a worker's copy that finds its revision is a step of the system |
| `Interleaving.RunKeeps` | backend/src/infrastructure/persistence.py:155-213 | from empty tables the invariant holds in every state of every run, whatever the interleaving, crashes, duplicates and redeliveries |
| `Interleaving.RunEvolves` | backend/src/infrastructure/persistence.py:272-306 | between any two states of a run histories, topic, ids and tokens only grow, and a claimed row is frozen |
| `Interleaving.RunNoOrphan` | backend/src/infrastructure/persistence.py:130-143 | in every state of every run a stored job that is not finished has, for its current attempt, an unpublished outbox row or a message not yet passed by the committed offset |
| `Interleaving.RunCancelIsFinal` | backend/src/contexts/ocr/application/services.py:303-341 | along every run an attempt that is cancelling or cancelled never succeeds or fails |
| `Interleaving.RunSettledStays` | backend/src/contexts/ocr/application/worker.py:88-92 | along every run a message once settled (job gone, attempt passed or finished) stays settled |
| `Interleaving.RunOrphanObjectStays` | backend/src/infrastructure/persistence.py:512-547 | along every run a stored object of a claimed or deleted job that no attempt's last rows name is never deleted |
| `History.Versions` | backend/src/infrastructure/persistence.py:294-308 | the revision of a version is its place in the job's history; id, upload and options never change |
| `History.AttemptsGrow` | backend/src/contexts/ocr/domain/models.py:249-259 | attempts never decrease along a history |
| `History.OutcomeIsFinal` | backend/src/contexts/ocr/domain/models.py:184-259 | a finished attempt keeps its outcome in every later version of that attempt, for any number of workers |
| `History.CancelDominates` | backend/src/contexts/ocr/application/worker.py:116-203 | once a cancellation is committed every later version of the attempt is cancel_requested or cancelled, for any number of workers and all handlers |
| `History.ArtifactsMeanSuccess` | backend/src/contexts/ocr/domain/models.py:224-231 | a version has artifacts only while its attempt is succeeded |
| `History.StartedBefore` | backend/src/contexts/ocr/domain/models.py:184-231 | an attempt that is worked on, succeeded or waiting to be cancelled was preprocessing before, so a cancel of one never started does not wait |
| `History.ErrorMeansFailed` | backend/src/contexts/ocr/domain/models.py:224-259 | a job carries an error exactly while failed, and it is the one it was failed with in that attempt |
| `History.PagesAreNumbered` | backend/src/contexts/ocr/application/worker.py:102-114 | prepared pages are numbered 1..n, with input, result and visualization keys of their own job and number |
| `History.PagesAreFixed` | backend/src/contexts/ocr/application/worker.py:136-147 | once prepared, page count, numbers and input objects are the same in every later version, so a page index names the same page in every reload |
| `History.BudgetHolds` | backend/src/contexts/ocr/application/worker.py:205-227 | no page ever has more than max_page_retries + 1 tries, for any number of workers |
| `History.FinishedPageKeptIff` | backend/src/contexts/ocr/application/worker.py:235-331 | for any number of workers: a finished page keeps state, key, digest and visualization in every version from i to j exactly if nothing committed in between fails it or finishes it with another key or digest |
| `History.AloneLeavesFinished` | backend/src/contexts/ocr/application/worker.py:205-227 | with one live worker no later action is on a finished page |
| `History.PageSuccessIsPermanent` | backend/src/contexts/ocr/domain/models.py:120-130 | with one live worker a finished page stays as it is through failures, cancels and retries |
| `Contention.FinishedPageFailed` | backend/src/contexts/ocr/application/worker.py:306-331 | a run from empty tables: the first worker finishes the page, the second fails it in the same attempt |
| `Contention.FinishedPageChanged` | backend/src/contexts/ocr/application/worker.py:235-304 | a run from empty tables: the second worker stores its own result and the finished page gets another digest in the same attempt |
| `History.StartUsesTryIff` | backend/src/contexts/ocr/domain/models.py:89-95 | a start uses a try exactly if the page is not finished |
| `History.TriesAreOpenStarts` | backend/src/contexts/ocr/application/worker.py:210-227 | within an attempt the tries used are the starts that found the page unfinished, whoever made them |
| `History.StartsAreTriesIff` | backend/src/contexts/ocr/application/worker.py:210-227 | within an attempt starts and tries agree exactly if no start found the page finished; with one live worker they agree and the budget bounds the starts |
| `Contention.IdleRounds` | backend/src/contexts/ocr/application/worker.py:210-323 | for every n a run from empty tables with n starts and n scheduled retries of a finished page in one attempt that use no try |
| `History.ProgressIsMonotone` | backend/src/contexts/ocr/domain/models.py:175-178 | with one live worker the ratio of finished pages never goes back |
| `Aggregate.Page.Start` | backend/src/contexts/ocr/domain/models.py:89-95 | a finished page is left alone, any other runs with one try more and no error |
| `Aggregate.Page.Succeed` | backend/src/contexts/ocr/domain/models.py:97-113 | state, result key, digest and visualization are those given, the error is cleared, tries are kept |
| `Aggregate.Page.Fail` | backend/src/contexts/ocr/domain/models.py:115-118 | failed with this code and reason; keys and tries are kept |
| `Aggregate.Page.PrepareRetry` | backend/src/contexts/ocr/domain/models.py:120-130 | a finished page is left alone, any other is as new |
| `Aggregate.PreparePageRetries` | backend/src/contexts/ocr/domain/models.py:258-259 | the loop resets exactly the unfinished pages |
| `Aggregate.Job.Transition` | backend/src/contexts/ocr/domain/models.py:184-188 | moves exactly from the allowed states and changes nothing otherwise |
| `Aggregate.Job.SetPages` | backend/src/contexts/ocr/domain/models.py:194-200 | only while preprocessing and only a non-empty list |
| `Aggregate.Job.RequestCancel` | backend/src/contexts/ocr/domain/models.py:205-215 | possible exactly in the five unfinished states without a pending cancel |
| `Aggregate.Job.Succeed` | backend/src/contexts/ocr/domain/models.py:224-231 | possible exactly when assembling with at least one page and all pages finished; nothing changes otherwise |
| `Aggregate.Job.Fail` | backend/src/contexts/ocr/domain/models.py:233-247 | possible exactly in unfinished states; nothing else changes |
| `Aggregate.Job.Retry` | backend/src/contexts/ocr/domain/models.py:249-259 | possible exactly from failed or cancelled; next attempt, no artifacts, unfinished pages reset |
| `EventLog.SaveWritesItsEvent` | backend/src/infrastructure/persistence.py:194-199 | the suppression of repeated terminal events never hides the event of a save: row and log stay one to one |
| `EventLog.LogMirrorsRow` | backend/src/infrastructure/persistence.py:726-774 | sequences are exactly 1..n, attempts never decrease, the last event carries the row's state and attempt |
| `EventLog.OneTerminalEventPerAttempt` | backend/src/infrastructure/persistence.py:731-747 | each finished attempt has exactly one terminal event and it names the outcome |
| `EventLog.NoTerminalEventBefore` | backend/src/infrastructure/persistence.py:731-747 | an attempt that is not finished has none |
| `EventLog.RepairChangesNothing` | backend/src/contexts/ocr/application/worker.py:565-579 | the repair a redelivered message makes on a finished attempt writes nothing |
| `EventLog.DoneEventsAreFinishedPages` | backend/src/contexts/ocr/domain/models.py:175-178 | with one live worker the page.succeeded events so far are as many as the finished pages, which is the progress reported, and as many as the pages exactly when all are finished |
| `EventLog.EventsAnnounce` | backend/src/contexts/ocr/application/worker.py:221-331 | every event names what its version did, for any number of workers; only the first is job.queued |
| `Commits.CommitOk` | backend/src/infrastructure/persistence.py:272-360 | any save of an enabled action keeps the invariant and is a step the others allow |
| `Commits.RetryOk` | backend/src/infrastructure/persistence.py:201-213 | a retry adds the version, the event and exactly one outbox row for the new attempt, keeping the invariant |
| `Commits.SettledStable` | backend/src/contexts/ocr/application/worker.py:88-92 | whatever is committed later, a settled message stays settled |
| `Commits.CommittedKept` | backend/src/contexts/ocr/application/worker.py:250-304 | the objects a visible job refers to exist after every save, with the recorded digests |
| `Commits.CommittedCounters` | backend/src/contexts/ocr/application/worker.py:221-234 | engine calls and pauses never exceed what the stored tries account for, after every save |
| `Rely.TornReadIsSeen` | backend/src/infrastructure/persistence.py:155-188 | a job read with three queries at three moments has the row of one version, and is exactly that version if it is still current |
| `Rely.OwnedReadIsExact` | backend/src/infrastructure/persistence.py:155-188 | with one live worker the copy of a job its worker owns is not torn |
| `Rely.HeldStable` | backend/src/worker_main.py:166-203 | what the worker last loaded or saved stays what is stored, up to a requested cancel |
| `Rely.CanSaveStable` | backend/src/infrastructure/persistence.py:294-306 | a change prepared before an await may still be saved after it if the revision is unchanged |
| `Safety.TornNeverSaved` | backend/src/infrastructure/persistence.py:155-188 | a copy put together from a row, pages and artifacts read at three moments passes a later compare-and-swap only if it is exactly the stored version and nothing was committed since its row was read |
| `Safety.SecondSaveFails` | backend/src/infrastructure/persistence.py:294-306 | of two copies of one version only one can ever be saved |
| `Safety.OneRowPerAttempt` | backend/src/infrastructure/persistence.py:130-143 | each attempt of a job that is not deleted has exactly one outbox row |
| `Safety.NoOrphan` | backend/src/infrastructure/messaging.py:55-81 | an unfinished job has an unpublished row or a message still to be passed |
| `Safety.CancelIsFinal` | backend/src/contexts/ocr/application/worker.py:511-538 | from a state with a committed cancel every later version of the attempt is cancelling or cancelled |
| `Safety.FinishedPageIsStored` | backend/src/contexts/ocr/application/worker.py:268-297 | a finished page's result object is stored, is the engine's reading of that page and, with one live worker, hashes to the recorded digest |
| `Safety.SucceededArtifacts` | backend/src/contexts/ocr/application/worker.py:397-477 | the artifacts of a succeeded version are those of one assembly, the two documents first and the manifest last |
| `Safety.SucceededDocument` | backend/src/contexts/ocr/application/worker.py:364-389 | a succeeded job's document.md is the join of the engine's markdown for pages 1..n in page order, however it got there |
| `Safety.SucceededManifest` | backend/src/contexts/ocr/application/worker.py:439-477 | with one live worker the manifest object lists exactly the other artifacts and every listed object hashes to the listed digest |
| `Safety.JoinSplits` | backend/src/contexts/ocr/application/worker.py:367 | joining puts one separator between neighbours wherever the list of readings is cut |
| `Safety.ListedPageNumbers` | backend/src/contexts/ocr/application/worker.py:402-437 | every listed page image and visualization carries the page number of its key and nothing else carries one, for any number of workers |
| `Safety.PagesListed` | backend/src/contexts/ocr/application/worker.py:402-437 | each page's image is listed, and its visualization if it has one |
| `Safety.PagesListedInOrder` | backend/src/contexts/ocr/application/worker.py:402-437 | nothing else is listed for pages, and the list is in page order, image before visualization |
| `Safety.CallsAndBackoffBounded` | backend/src/contexts/ocr/application/worker.py:221-331 | with one live worker, over all restarts: at most R + 1 engine calls for one page of one attempt, and pauses of at most the sum of any R numbers that start at one and double |
| `Pauses.DoublingSum` | backend/src/contexts/ocr/application/worker.py:329-331 | pauses that start at one unit and double add up to one less than twice the last |
| `Pauses.PowerIsSum` | backend/src/contexts/ocr/application/worker.py:329-331 | what the counters allow a page is exactly the sum of its doubling pauses |
| `Safety.StoredLogMirrors` | backend/src/infrastructure/persistence.py:726-774 | in every state the log is numbered 1..n, mirrors the row and has exactly one terminal event for a finished attempt |
| `Safety.LogProgressMonotone` | backend/src/contexts/ocr/domain/models.py:175-178 | with one live worker progress never decreases along the event log |
| `Platform.Platform.Get` | backend/src/infrastructure/persistence.py:155-188 | a load with three queries and interference in between yields a seen copy; with one live worker the owned job up to a cancel |
| `Platform.Platform.SaveRows` | backend/src/infrastructure/persistence.py:272-360 | row, pages, artifacts and event or nothing; success means the new version is stored and derived from the one loaded |
| `Platform.Platform.SaveWithEvent` | backend/src/infrastructure/persistence.py:194-199 | the same for an object: its revision moves on success only |
| `Platform.Platform.PutBytes` | backend/src/contexts/ocr/application/worker.py:261-287 | stores the object and answers its digest; no other object of the job changes |
| `Platform.Platform.RepairEvent` | backend/src/contexts/ocr/application/worker.py:565-579 | appending the terminal event of a finished copy leaves store and log as they are |
| `Platform.Platform.Recognize` | backend/src/contexts/ocr/application/worker.py:229-234 | a call requires a committed try that no call was made for and uses it up, so a crash in between is counted; it answers the engine's reading |
| `Platform.Platform.Sleep` | backend/src/contexts/ocr/application/worker.py:329-331 | the pause requires that committed try and stays within the backoff it accounts for |
| `Platform.Platform.Prepare` | backend/src/contexts/ocr/application/worker.py:105 | on success every page image of the attempt is stored; it may stop half-way |
| `Worker.OCRWorker.Process` | backend/src/contexts/ocr/application/worker.py:69-203 | terminates for all failures and interference; a normal return for an issued message leaves it settled; for a settled message, with any number of workers, it saves nothing, puts nothing and calls no engine; left alone it always returns normally, whatever the job is like, carries out a pending cancel and, with one live worker, brings a ready job to success |
| `Worker.OCRWorker.Attempt` | backend/src/contexts/ocr/application/worker.py:79-167 | the try block: missing, other attempt, finished and repaired, or worked on; every normal end settles the message |
| `Worker.OCRWorker.AfterConflict` | backend/src/contexts/ocr/application/worker.py:164-180 | after a lost race: a normal return settles the message; left alone it answers a missing, finished, newer or cancelling job and raises exactly for an unfinished one of the same attempt |
| `Worker.OCRWorker.AfterFailure` | backend/src/contexts/ocr/application/worker.py:181-203 | after any other exception: a normal return settles the message; an attempt above the message's is failed here exactly if the reload finds one unfinished and not being cancelled, and never with one live worker; left alone, a pending cancel is carried out and any other unfinished job fails with the code and reason of the exception |
| `Worker.OCRWorker.EndFailed` | backend/src/contexts/ocr/application/worker.py:195-203 | the job the handler found is cancelled if that was requested and failed otherwise; what it saves fails an attempt above the message's exactly if the job found was at one, unfinished and not being cancelled |
| `Contention.NewerAttemptFailed` | backend/src/contexts/ocr/application/worker.py:181-203 | a run from empty tables through a state of the invariant in which the handler for attempt 1 fails attempt 2 |
| `Worker.OCRWorker.StartPreprocessing` | backend/src/contexts/ocr/application/worker.py:98-100 | a queued or retrying job is stored as preprocessing with its pages; any other is left as it is, store included |
| `Worker.OCRWorker.NewPageObjects` | backend/src/contexts/ocr/application/worker.py:105-111 | on success new page objects that are exactly pages 1..n, whose images are stored |
| `Worker.OCRWorker.PreparePages` | backend/src/contexts/ocr/application/worker.py:102-114 | afterwards the job has pages; new ones are exactly 1..n with their stored images, in whatever order they were prepared |
| `Worker.OCRWorker.WorkOn` | backend/src/contexts/ocr/application/worker.py:94-167 | a missing upload fails the job; every normal end has stored a finished attempt; without failures it is succeeded |
| `Worker.OCRWorker.Advance` | backend/src/contexts/ocr/application/worker.py:116-134 | every normal end has stored a finished attempt; without failures a pending cancel ends it cancelled and a ready job succeeded |
| `Worker.OCRWorker.GoOn` | backend/src/contexts/ocr/application/worker.py:119-134 | whatever state the job was left in, every normal end has stored a finished attempt; without failures a ready job is resumed to success |
| `Worker.OCRWorker.RunPages` | backend/src/contexts/ocr/application/worker.py:136-147 | the page loop ends the attempt or, with one live worker, has finished every page; page i of the start is page i of every reload |
| `Worker.OCRWorker.ReloadForLoop` | backend/src/contexts/ocr/application/worker.py:139-143 | a pending cancel is carried out; otherwise the reload is the job in hand up to a cancel, and the page is still open |
| `Worker.OCRWorker.OnePage` | backend/src/contexts/ocr/application/worker.py:137-147 | one turn of the loop: the attempt has ended, or one page more is finished, those before stay finished and the others untouched |
| `Worker.OCRWorker.FinishRun` | backend/src/contexts/ocr/application/worker.py:149-151 | every normal end has stored a finished attempt; a job that is not running is refused |
| `Worker.OCRWorker.ProcessPage` | backend/src/contexts/ocr/application/worker.py:205-362 | a normal end has stored the page's success or the end of the attempt; with one live worker no other page has changed |
| `Worker.OCRWorker.RetryLoop` | backend/src/contexts/ocr/application/worker.py:210-331 | ends within the page's budget (one live worker) or when the engine stops failing transiently (several); with one live worker each pause it makes is twice the one before, and the first of a page without tries is one unit; left alone, its only exceptions are those of the run |
| `Worker.OCRWorker.Backoff` | backend/src/contexts/ocr/application/worker.py:329-331 | one pause, of the units that belong to the tries made |
| `Worker.OCRWorker.StartFrom` | backend/src/contexts/ocr/application/worker.py:221-323 | one try from the copy the round began with: the pause it makes belongs to the try it started |
| `Worker.OCRWorker.PageRound` | backend/src/contexts/ocr/application/worker.py:211-331 | one turn: the page's outcome is stored, or fewer tries are left, or the round gave up or raised with the store as the others left it plus its own committed try |
| `Worker.OCRWorker.OpenRound` | backend/src/contexts/ocr/application/worker.py:211-220 | a try is only opened on a reload that is the job in hand, not cancelled, with budget left; left alone it stops exactly when max_page_retries + 1 tries are used |
| `Worker.OCRWorker.StartAndTry` | backend/src/contexts/ocr/application/worker.py:221-331 | one committed try more whenever the round is to be repeated; without failures the page is stored |
| `Worker.OCRWorker.TryEngine` | backend/src/contexts/ocr/application/worker.py:228-331 | the result of one call is stored, or the round gives up or is repeated with the same tries on a saved note; without failures the page is stored |
| `Worker.OCRWorker.EngineFailed` | backend/src/contexts/ocr/application/worker.py:308-331 | gives up exactly for a permanent failure or when max_page_retries + 1 tries are used; the page carries the code and reason of the failure; otherwise one pause of the try's units |
| `Worker.OCRWorker.ScheduleAgain` | backend/src/contexts/ocr/application/worker.py:320-331 | the note is saved before the pause; the copy in hand is again what is stored |
| `Worker.OCRWorker.StorePage` | backend/src/contexts/ocr/application/worker.py:235-308 | a normal end has stored the page's outcome; giving up leaves the job in hand as it was; without failures the page is stored |
| `Worker.OCRWorker.WriteResult` | backend/src/contexts/ocr/application/worker.py:250-287 | on success the result object and its visualization are stored and the digest is that of the stored object |
| `Worker.OCRWorker.CheckpointPage` | backend/src/contexts/ocr/application/worker.py:288-308 | the saved version has the page finished with that key and digest and every other page as before |
| `Worker.OCRWorker.ReloadForPage` | backend/src/contexts/ocr/application/worker.py:211-217 | the reload is the job in hand up to a cancel, which is carried out |
| `Worker.OCRWorker.FailPage` | backend/src/contexts/ocr/application/worker.py:333-362 | a normal end has stored the attempt's end, failed or cancelled |
| `Worker.OCRWorker.FailFound` | backend/src/contexts/ocr/application/worker.py:333-362 | the page fails with this code and reason and keeps everything else, and so does the job, or it is cancelled if that was requested |
| `Worker.OCRWorker.LastError` | backend/src/contexts/ocr/application/worker.py:335-345 | code and reason of the last exception; without one the note on the page, or that the budget is exhausted |
| `Worker.OCRWorker.LoadPageResult` | backend/src/contexts/ocr/application/worker.py:479-499 | what is read back is the engine's reading of that page; a page without a checkpoint is an error |
| `Worker.OCRWorker.LoadResults` | backend/src/contexts/ocr/application/worker.py:366 | on success exactly the readings of pages 1..n in order |
| `Worker.OCRWorker.WriteDocuments` | backend/src/contexts/ocr/application/worker.py:367-400 | both documents are stored under the attempt and listed with their digests |
| `Worker.OCRWorker.ListObject` | backend/src/contexts/ocr/application/worker.py:402-417 | the listed digest is that of the object, from its metadata or its bytes; nothing is listed for a missing one |
| `Worker.OCRWorker.ListPage` | backend/src/contexts/ocr/application/worker.py:402-437 | a page adds its image and its visualization, with one live worker both exactly when it has them |
| `Worker.OCRWorker.WriteManifest` | backend/src/contexts/ocr/application/worker.py:439-477 | the manifest is written last and lists exactly what was collected |
| `Worker.OCRWorker.Assemble` | backend/src/contexts/ocr/application/worker.py:364-477 | on success everything the final save refers to is stored, and the result is the manifest's list and the manifest |
| `Worker.OCRWorker.SucceedJob` | backend/src/contexts/ocr/application/worker.py:127-132 | the reloaded job is saved as succeeded with that list, or nothing is saved |
| `Worker.OCRWorker.FinishAssembly` | backend/src/contexts/ocr/application/worker.py:151-167 | assemble, look for a cancel, succeed: every normal end has stored a finished attempt |
| `Worker.OCRWorker.CancelIfRequested` | backend/src/contexts/ocr/application/worker.py:511-517 | a pending cancel is committed as cancelled, without failures always; otherwise this process writes nothing |
| `Worker.OCRWorker.FinishCancel` | backend/src/contexts/ocr/application/worker.py:513-516 | commits cancelled for a cancel_requested copy, without failures always; a copy whose job has moved on is refused |
| `Worker.OCRWorker.FailJob` | backend/src/contexts/ocr/application/worker.py:519-538 | ends the attempt: cancelled exactly for a cancel_requested copy, failed otherwise; a finished copy is refused untouched |
| `WorkerFacts.SeenIsReached` | backend/src/contexts/ocr/application/worker.py:88-89 | a loaded attempt has been reached by the stored job |
| `WorkerFacts.EndedSettles` | backend/src/contexts/ocr/application/worker.py:128-132 | a stored finished attempt at or after the message's settles it |
| `WorkerFacts.SoundSettles` | backend/src/contexts/ocr/application/worker.py:88-92 | a copy loaded finished, or past the message's attempt, settles it even if others have written since |
| `AssemblyFacts.ListedDigests` | backend/src/contexts/ocr/application/worker.py:397-437 | every object the manifest lists has the listed digest when the job succeeds |
| `RunFacts.SortedIsPrepared` | backend/src/contexts/ocr/application/worker.py:106-111 | whatever order the preprocessor lists its pages in, sorting gives exactly pages 1..n with their images |
| `RunFacts.FreshAttemptCanFinish` | backend/src/contexts/ocr/domain/models.py:249-259 | a new and a retried attempt is always one that a run without failures brings to success |
| `RunFacts.LoadedSettled` | backend/src/contexts/ocr/application/worker.py:88-92 | a copy loaded for a message settled before shows a finished attempt |
| `Services.JobService.CancelJob` | backend/src/contexts/ocr/application/services.py:303-341 | at most three tries; a normal answer shows the attempt cancelling or cancelled in a stored version; left alone a queued or retrying job is cancelled at once with job.cancelled, one being worked on is cancel_requested with that event, and a finished one is refused |
| `Services.CancelledForGood` | backend/src/contexts/ocr/application/services.py:303-341 | after that answer no version of the attempt, then or later, is succeeded or failed |
| `Services.JobService.RetryJob` | backend/src/contexts/ocr/application/services.py:343-387 | at most three tries; after a lost race a retrying job is the answer; left alone a failed or cancelled job starts its next attempt with finished pages kept, others as new, its event and one outbox row, and any other is refused |
| `Services.JobService.CreateJob` | backend/src/contexts/ocr/application/services.py:208-301 | the answer for a key is the job the index holds, for the same request; left alone a missing, foreign or unfinished upload is refused, a new job is exactly as asked, with its event and outbox row, and a taken key is answered by its job, a conflict or an error |
| `Services.JobService.InsertJob` | backend/src/contexts/ocr/application/services.py:237-282 | an insert lost to the unique index is answered with the winner's job |
| `Services.JobService.FindByKey` | backend/src/infrastructure/persistence.py:215-222 | the job the unique index holds for the key, nothing while it is being deleted |
| `Services.JobService.Insert` | backend/src/infrastructure/persistence.py:130-153 | row, index entry, event and outbox row, or nothing; the index refuses a taken key |
| `Services.JobService.Save` | backend/src/infrastructure/persistence.py:194-199 | the cancel's compare-and-swap: success means the change was applied to the stored version |
| `Services.JobService.SaveRetry` | backend/src/infrastructure/persistence.py:201-213 | the same for a retry, with its outbox row in the transaction |
| `Services.JobService.OwnedJob` | backend/src/contexts/ocr/application/services.py:428-442 | not found, another owner's, or a seen copy |
| `Issuing.CreateOk` | backend/src/infrastructure/persistence.py:130-143 | creating a job keeps the invariant: one first event, one outbox row, one index entry |
| `Issuing.OneJobPerKey` | backend/src/infrastructure/persistence.py:144-153 | two jobs that are not deleted never share an owner and key |
| `Issuing.CreatesCollapse` | backend/src/contexts/ocr/application/services.py:223-282 | of any number of creates with one owner and key, all answers that are not deleted since are the same job |
| `Issuing.RetriesCollapse` | backend/src/contexts/ocr/application/services.py:343-387 | whatever is committed in between, exactly one retry is committed out of each attempt that was left, and none out of the current one |
| `Issuing.OneRetryPerAttempt` | backend/src/contexts/ocr/domain/models.py:249-259 | each later attempt was started by exactly one retry |
| `Messaging.OutboxDispatcher.DispatchOnce` | backend/src/infrastructure/messaging.py:55-80 | left alone sends and marks, in table order, as many unpublished rows as the limit allows, every row left standing later than all of them; otherwise keeps the invariant |
| `Messaging.OutboxDispatcher.Dispatch` | backend/src/container.py:131-136 | left alone any number of passes puts messages in the topic in table order, and enough passes drain any backlog |
| `Messaging.FrontJoins` | backend/src/container.py:131-136 | one pass after another is one longer pass |
| `Messaging.PublishOk` | backend/src/infrastructure/messaging.py:66-73 | publishing an issued row keeps the invariant however often and late it happens |
| `Messaging.MarkOk` | backend/src/infrastructure/persistence.py:710-715 | a row may be marked once its message is in the topic |
| `Messaging.AllPublished` | backend/src/infrastructure/messaging.py:55-81 | one undisturbed pass with a large enough limit leaves nothing unpublished |
| `Messaging.UnpublishedInOrder` | backend/src/infrastructure/persistence.py:688-708 | exactly the unpublished rows, each as often as it is there and in table order |
| `Consumer.OffsetOk` | backend/src/worker_main.py:197-203 | an offset may be committed exactly if every message before it is settled |
| `Consumer.WorkerProcess.ConsumeOne` | backend/src/worker_main.py:166-203 | ends with the record settled and its offset committed, or with an error and the committed offset no further than the settled records; left alone it takes a record whenever there is one |
| `Consumer.WorkerProcess.Serve` | backend/src/worker_main.py:160-203 | the invariant holds over any number of turns, restarts included; left alone every turn commits a record until there are none, whatever the jobs are like |
| `Consumer.Quiescent` | backend/src/worker_main.py:166-203 | when the topic is consumed and the outbox published, every stored job is finished |
| `Cleanup.RetentionCleanup.ClaimExpired` | backend/src/infrastructure/persistence.py:466-600 | claims only due rows, jobs before uploads, each half by expiry and id, under new tokens and the lease asked for, and touches nothing else; left alone it leaves a due row only when the limit is used up by rows that come before it |
| `Cleanup.ClaimedJobIs` | backend/src/infrastructure/persistence.py:484-502 | a claimed job was finished and expired, and free or with a lapsed lease |
| `Cleanup.ClaimedUploadIs` | backend/src/infrastructure/persistence.py:552-573 | a claimed upload was expired, free or with a lapsed lease, and no stored job refers to it |
| `Cleanup.DueIsClaimable` | backend/src/infrastructure/persistence.py:484-573 | and those are all the rows that may be claimed |
| `Cleanup.RetentionCleanup.ClaimJobs` | backend/src/infrastructure/persistence.py:484-511 | the oldest expired jobs in order, with all their keys |
| `Cleanup.RetentionCleanup.ClaimUploads` | backend/src/infrastructure/persistence.py:559-599 | the oldest expired uploads that no job refers to |
| `Cleanup.PickOldest` | backend/src/infrastructure/persistence.py:496-499 | exactly the first limit rows by expiry and id |
| `Cleanup.RetentionCleanup.Complete` | backend/src/infrastructure/persistence.py:603-646 | deletes the row exactly under its current token, after all keys were deleted, and an upload only if no job refers to it; a refusal means the claim was lost or the upload is referenced; a stale token deletes nothing |
| `Cleanup.RetentionCleanup.Defer` | backend/src/infrastructure/persistence.py:648-662 | a normal return means the claim is lost or its lease is the new one; a stale token changes nothing |
| `Cleanup.RetentionCleanup.DeleteObjects` | backend/src/contexts/ocr/application/retention.py:112-133 | every key is tried, also after a failure; success means every key was deleted |
| `Cleanup.RetentionCleanup.Clean` | backend/src/contexts/ocr/application/retention.py:67-103 | done means the row is gone and the objects this process deleted for it are exactly the keys handed out; otherwise the claim may not complete the row or a deferral was tried; a lost claim is never done |
| `Cleanup.SurvivesIff` | backend/src/contexts/ocr/application/retention.py:67-103 | of the stored objects of the job a completed claim leaves exactly those that no attempt's last rows name |
| `Cleanup.RetentionCleanup.RunBatch` | backend/src/contexts/ocr/application/retention.py:49-111 | what is claimed is completed or deferred; deletes nothing but keys handed out and counts them; left alone everything claimed is deleted, and a batch below its limit leaves no row that was due |
| `Cleanup.HandedStays` | backend/src/infrastructure/persistence.py:512-556 | a candidate's keys stay exactly those of its frozen row, and a lost claim stays lost |
| `Retention.SameKeysForEveryClaim` | backend/src/infrastructure/persistence.py:278-306 | a claimed job is never unclaimed or changed, so every claimant is handed the same keys |
| `Retention.HandedKeysIff` | backend/src/infrastructure/persistence.py:512-547 | a key is handed out exactly if it is under the job's prefix and the last pages or artifacts of some attempt name it |
| `Retention.ReferencedIsHanded` | backend/src/infrastructure/persistence.py:512-547 | every object the stored job refers to is among the keys handed out |
| `Contention.ResultLeftBehind` | backend/src/contexts/ocr/application/worker.py:250-304 | a run from empty tables through a state of the invariant: a page result is stored, its checkpoint is not, the job is cancelled, claimed and deleted, and the object stays |
| `Retention.LostForGood` | backend/src/infrastructure/persistence.py:484-509 | a token that lost a row never holds it again |
| `Retention.CompleteJobOk` | backend/src/infrastructure/persistence.py:603-632 | deleting a claimed job takes its outbox rows and index entry with it and keeps the invariant |
| `Retention.CompleteUploadOk` | backend/src/infrastructure/persistence.py:633-645 | an upload can be deleted exactly if no job refers to it |
| `Retention.EraseOk` | backend/src/contexts/ocr/application/retention.py:122-124 | deleting objects of a job that is no longer visible keeps the invariant |
| `Retention.RetentionIsAllowed` | backend/src/infrastructure/persistence.py:467-662 | claims, deferrals and deletions never touch a job a worker holds |
| `Tables.JobTables.SaveJob` | backend/src/infrastructure/persistence.py:272-360 | rows change exactly if the revision matches and the row is not claimed; pages are upserted, artifacts rewritten only when there are any |
| `Tables.SaveThenLoad` | backend/src/infrastructure/persistence.py:155-188 | a load after a save returns the saved job exactly if no page row of the attempt is left outside its list and no artifacts are left behind an empty one |
| `Tables.SaveRepresents` | backend/src/infrastructure/persistence.py:308-360 | saving the code's next version keeps the tables in step with the history of every attempt |
| `Tables.LoadReturnsLast` | backend/src/infrastructure/persistence.py:406-452 | in reachable tables a load returns the last version, and the page and artifact queries the last saved state of any attempt |
| `Tables.SaveHistory` | backend/src/infrastructure/persistence.py:272-452 | saving any history version by version, every save finds its row, and afterwards the load and the queries for every attempt return the last of the history |
| `Tables.QueryIs` | backend/src/infrastructure/persistence.py:174-181 | the ordered page query returns a list exactly if the attempt's rows are its pages |
| `Memory.SameAppend` | backend/src/infrastructure/memory.py:148-167 | numbering by length and by greatest sequence write the same event on the logs that occur |
| `Memory.InMemoryJobEvents.AppendEvent` | backend/src/infrastructure/memory.py:148-167 | the list form does what the table form does, and other jobs' events are untouched |
| `Memory.InMemoryJobs.SaveWithEvent` | backend/src/infrastructure/memory.py:81-100 | new version and event, or both as before: a failing event puts the previous version back |
| `Memory.InMemoryJobs.Add` | backend/src/infrastructure/memory.py:54-64 | refuses exactly a known id or a taken owner and key, and keeps keys unique unless they are empty |
| `Memory.EmptyKeyTwice` | backend/src/infrastructure/memory.py:54-64 | two jobs of one owner with the same key are both stored exactly if the key is empty |
| `TokenBucket.RedisKey.Eval` | backend/services/gateway/internal/infrastructure/rate_limiter/redis_limiter.go:14-47 | the script's decision and stored bucket are those of the specification function |
| `TokenBucket.RedisKey.Decision` | backend/services/gateway/internal/infrastructure/rate_limiter/redis_limiter.go:132-156 | a profile without rate or burst allows everything and stores nothing |
| `TokenBucket.LevelIsLeast` | backend/services/gateway/internal/infrastructure/rate_limiter/redis_limiter.go:29-39 | the level is the least of what full buckets at earlier requests would have left |
| `TokenBucket.AllowedIff` | backend/services/gateway/internal/infrastructure/rate_limiter/redis_limiter.go:14-47 | for any timestamps a request is allowed exactly if every window ending in it stays within burst plus rate times its virtual length |
| `TokenBucket.WindowBound` | backend/services/gateway/internal/infrastructure/rate_limiter/redis_limiter.go:14-47 | any window of requests admits at most burst plus rate times its virtual length |
| `TokenBucket.WindowOf` | backend/services/gateway/internal/infrastructure/rate_limiter/redis_limiter.go:14-47 | with a clock that never steps back any T milliseconds admit at most burst + rate * T / 1000 |
| `TokenBucket.WindowInNumbers` | backend/services/gateway/internal/infrastructure/rate_limiter/redis_limiter.go:14-47 | the same in whole numbers: 1000 times the admitted requests are at most 1000 times the burst plus rate times T |
| `TokenBucket.VirtualAdvances` | backend/services/gateway/internal/infrastructure/rate_limiter/redis_limiter.go:29-32 | virtual time advances by the step of the clock and stands still when it steps back |
| `TokenBucket.TokensFound` | backend/services/gateway/internal/infrastructure/rate_limiter/redis_limiter.go:24-40 | from request to request: one token less if allowed, rate per second more up to the burst, nothing when the clock steps back, full at first |
| `TokenBucket.TtlCoversRefill` | backend/services/gateway/internal/infrastructure/rate_limiter/redis_limiter.go:179-185 | the time to live is at least the time an empty bucket takes to fill |
| `TokenBucket.ExpiryUnobservable` | backend/services/gateway/internal/infrastructure/rate_limiter/redis_limiter.go:34-46 | with one clock that never steps back the store that expires keys makes the same decisions as one that never does |
| `TokenBucket.AnswerAll` | backend/services/gateway/internal/infrastructure/rate_limiter/redis_limiter.go:14-47 | a run of requests on one key, expiry included, is answered as the window specification says; a disabled profile allows all |
| `Sse.ParseSseBlock` | frontend/src/infrastructure/api/sse.ts:73-87 | the loop computes the last id, the last type and the joined data lines, or nothing without data |
| `Sse.SplitMore` | frontend/src/infrastructure/api/sse.ts:157-159 | for any text in any two pieces the incremental splitter finds the blocks of the whole |
| `Sse.ParsePrinted` | backend/src/contexts/ocr/interfaces/http/v1/router.py:199-204 | parsing a printed event gives back its id, type and data; a heartbeat gives nothing |
| `Sse.EventText` | backend/src/contexts/ocr/interfaces/http/v1/router.py:187-204 | the exact text of an event |
| `Sse.ManyDataLines` | frontend/src/infrastructure/api/sse.ts:73-87 | several data lines make one message joined by line breaks |
| `Sse.CrlfLine` | frontend/src/infrastructure/api/sse.ts:73-87 | a line may end in CR LF |
| `Sse.TightField` | frontend/src/infrastructure/api/sse.ts:73-87 | the space after the colon may be missing |
| `Sse.PrintParse` | backend/src/contexts/ocr/interfaces/http/v1/router.py:185-212 | splitting and parsing the whole printed text gives exactly the printed events |
| `Sse.CutIsPrefix` | frontend/src/infrastructure/api/sse.ts:151-175 | whatever part of the text has arrived gives a prefix of its events |
| `Sse.SseReader.Feed` | frontend/src/infrastructure/api/sse.ts:157-169 | one chunk: the messages of the completed blocks are delivered, the rest is kept, the cursor is the last id |
| `Sse.SseReader.ReadAll` | frontend/src/infrastructure/api/sse.ts:151-175 | for every chunking the messages and the cursor are those of the whole text |
| `Subscription.DecimalRoundTrip` | backend/src/contexts/ocr/interfaces/http/v1/router.py:171-174 | an id printed and read back is the same number |
| `Subscription.JobEventStream.ListAfter` | backend/src/infrastructure/persistence.py:776-786 | the next events after the cursor, at most a hundred |
| `Subscription.JobEventStream.Generate` | backend/src/contexts/ocr/interfaces/http/v1/router.py:178-213 | the events after the cursor in order, without gap or repeat; each poll sends at least one of those there were, and the stream stops early only when all were sent or the last one sent shows the finished state and attempt of the row |
| `Subscription.Follow` | frontend/src/infrastructure/api/sse.ts:122-206 | over any connections, each broken anywhere or not, the browser gets the events after its cursor, each once and in order; every connection that does not break delivers at least one of those there were, so enough of them deliver all |
| `Subscription.Connect` | frontend/src/infrastructure/api/sse.ts:122-206 | one connection: the events after the last id up to some event, and at least one if it does not break |
| `LogPipeline.LogService.Ingest` | backend/services/logging-service/internal/application/logging/service.go:82-121 | accepts a whole call or nothing; never after the queue was closed, never past its size |
| `LogPipeline.LogService.Receive` | backend/services/logging-service/internal/application/logging/service.go:146-186 | takes the first call of the queue into the batch and writes the batch exactly when it reaches its size |
| `LogPipeline.LogService.WriteBatch` | backend/services/logging-service/internal/application/logging/service.go:188-205 | the batch is in Kafka and the files are untouched, or Kafka refused it and, unless a file fails, each event is in the file of its kind |
| `LogPipeline.LogService.Flush` | backend/services/logging-service/internal/application/logging/service.go:152-159 | the pending events become one batch, in order |
| `LogPipeline.LogService.Cancel` | backend/services/logging-service/internal/application/logging/service.go:174-183 | closing, draining and flushing leaves everything accepted flushed, in order |
| `LogPipeline.LogService.Finish` | backend/services/logging-service/internal/application/logging/service.go:163-167 | the other way out does the same |
| `LogPipeline.LogService.Run` | backend/services/logging-service/internal/application/logging/service.go:146-186 | accepted grows by exactly the calls answered with acceptance, in call order; at every step accepted events are flushed, pending or queued in order; batches once flushed stay; at return all are flushed, and without file failures Kafka and the files hold exactly them |
| `LogPipeline.PartitionConserves` | backend/services/logging-service/internal/infrastructure/filesink/sink.go:51-59 | splitting a batch over the two files loses and repeats nothing |
| `LogPipeline.KafkaFallbackStore.WriteBatch` | backend/services/logging-service/internal/infrastructure/filesink/sink.go:47-65 | on success each event waits in the file of its kind and nothing is lost or repeated |
| `LogPipeline.KafkaFallbackStore.ReplayOnce` | backend/services/logging-service/internal/infrastructure/filesink/sink.go:68-80 | nothing leaves a file before Kafka accepted it; unless emptying a file failed nothing is lost or repeated |
| `LogPipeline.LogService.Replay` | backend/services/logging-service/internal/infrastructure/filesink/sink.go:82-99 | the replay loop keeps what is held; only a file that could not be emptied makes events repeat |
| `LogPipeline.KafkaFallbackStore.ReplayFile` | backend/services/logging-service/internal/infrastructure/filesink/sink.go:101-113 | a file changes only by being emptied after its whole content was published |
| `Multipart.CreateUploadTarget` | backend/src/infrastructure/storage.py:62-84 | at or above the threshold parts 1..ceil(size / part size), below it one put |
| `Multipart.CountCovers` | backend/src/infrastructure/storage.py:65 | every part starts inside the file and together they reach its end |
| `Multipart.PartShape` | frontend/src/infrastructure/api/uploads.ts:73-85 | parts are non-empty, adjacent and full except possibly the last |
| `Multipart.PartsTile` | frontend/src/infrastructure/api/uploads.ts:73-118 | the parts in order are the file, for every size and part size |
| `Multipart.UploadParts` | frontend/src/infrastructure/api/uploads.ts:87-118 | part number i + 1 is put with the i-th slice, and every part is reported |
| `Sorting.Sort` | backend/src/contexts/ocr/application/worker.py:106-111 | ordered by key, a permutation, and stable: the items of each key are in the order they had |
| `Multipart.MultipartStore.CompleteUpload` | backend/src/infrastructure/storage.py:97-118 | the object is the parts in number order; an empty list and a part that was never put are refused |
| `Multipart.UploadFile` | backend/src/infrastructure/storage.py:48-118 | a file uploaded in parts and completed with its list in any order is stored as it was |

## Left out

- Platform.Platform.Interfere: its body is the schedule in which nobody else runs; the contract is what callers are verified against.
- Worker.OCRWorker.RetryLoop: with several workers it is proved to end only when transient engine failures are finite in number, since the code gives no other bound there.
- Worker.OCRWorker.ReloadForPage: where the code goes on with the object in hand because the row has gone, the model goes on with a copy of it, and the exception handler sees the object loaded first; the save that follows fails either way.
- Worker.OCRWorker.FailPage: uses the same copy when the row has gone.
- Worker.OCRWorker.LoadPageResult: the fallback to page text kept in memory is left out; a page that has it also has a result key.
- Worker.OCRWorker.WriteManifest: engine metadata, input description and time stamp of the manifest are one arbitrary value.
- Worker.OCRWorker.Process: the message for a job that was never created is answered at once, as for a missing row.
- Cleanup.RetentionCleanup.DeleteObjects: the concurrent deletes of one candidate are tried one after the other; aborting a multipart upload and deleting an upload's source object are left out.
- Consumer.WorkerProcess.ConsumeOne: records that do not decode, the dead-letter topic and keepalive polls during processing are left out; only the dispatcher writes the topic.
- Consumer.WorkerProcess.Serve: with failures no progress is promised; a record whose processing keeps failing is fetched again without bound.
- LogPipeline.LogService.WriteBatch: the other configured sinks, whose errors are only reported, are left out.
- Messaging.OutboxDispatcher.DispatchOnce: all outbox rows carry job requests; the event type filter is left out.
- Subscription.JobEventStream.Generate: that a connection always ends with the terminal event is not claimed; the heartbeat branch may see the finished job first.
- LogPipeline.LogService.Ingest: redaction, id generation and validation of an event are one flag.
- Several Kafka partitions: one partition stands for all; jobs never share messages.
- Object keys are components instead of strings (their formats are injective); JSON codecs are the identity; SHA-256, the renderer and the engine are functions, the engine's metadata is arbitrary.
- Time stamps, request ids of events, size and content type of artifacts, engine name and version columns.
- Progress is the exact ratio; the code rounds it to four digits.
- HTTP handlers, gateway stages, readiness, configuration, DTO mapping, logging calls of the services.
- That an upload's source object survives while a job refers to it: the job is inserted after the upload was read, so a claim may fall in between; only the row-level claim is proved.
- Line-length limits of the fallback reader, floating-point rounding, Kafka retention.
- File name and size checks, presigned URLs and upload progress of the browser.
