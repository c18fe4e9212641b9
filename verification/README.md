# Verification of the OCR document service

A Dafny model of a service that takes documents (receipts, invoices), reads them by OCR, extracts the fields a schema
asks for and announces the outcome on Kafka through a transactional outbox. Two parts of it are modelled and meet in the
pipeline run:

- **Lifecycle and outbox.** `Lifecycle` is a step machine whose steps are the awaits of the request handlers, the queue
  workers, the retention sweep and the outbox publishers over the two tables, the job queue and the producer's log. Every
  actor may die at any point, transactions may commit without their caller learning of it, jobs may run again, and any
  number of actors interleave. `Safety`, `Runs`, `Events`, `InRequest`, `Single`, `Requests`, `Recovery`, `Leases` and
  `Purging` prove what every run of the machine keeps. `Stores`, `Pipeline`, `Publishing`, `Retention` and `Servicing`
  are the same operations as classes and methods in the form of the source; `Servicing` and
  `Actors` prove that what the handlers, the workers, the publisher and the sweep do alone are runs of the machine.
- **Extraction.** `Regex` gives a backtracking engine as ordered lists of successes; `Money` runs the money pattern on
  it, `Tokens` proves that it reads what a reference without backtracking reads, on every text, and `Amounts` derives
  the laws of the parser and the printer. `Lines` ranks lines, `Extract` searches them against a declarative least success,
  `Reading` says which combinations yield a value, told of lines and schemas alone, and that the search finds the first of
  them. `Validate` folds the fields into a result and status. `Baidu` normalizes the provider's pages and polls its jobs.

`dafny verify dfyconfig.toml` checks the whole project.

## How the machine reads the source

- A SQL statement, or a transaction, is one step. Document ids are fresh (a handler is known by the id it drew), the
  database clock never goes back, and an outbox row is known by its position, since rows are never deleted.
- `Env` names the assumptions some theorems need; theorems that do not mention them hold of every run:
  `oneRunner` (at most one active worker per document), `exactCommits` (a finish raises only if it rolled back, and no
  cancellation lands after a commit), `exactEnqueue` (an enqueue that raises enqueued nothing), `deletesSucceed` (the
  delete of a rolled-back submit goes through).
- A job that was ever enqueued may be started any number of times. A worker or handler that dies, or whose statement
  raises outside a finish, just stops; a finish it was in may still commit.
- `purged` in the machine's state records which rows were purged since they were last finished. It is bookkeeping for
  the theorems, like the count of finishes a worker committed and the list of claims.

## Where the source departs from its own documentation

- README.md lines 110-112 say a row is marked published after the Kafka acknowledgement. The code marks it before
  `flush` (src/ocr_engine/events/publisher.py:54-65). What is proved is that a row is handed to the producer before it
  is marked (`Leases.PublishedWasHanded`).
- Lines 106-107 of src/ocr_engine/pipeline/pipeline.py read attributes of the result's field dictionaries for a metric,
  which raises as written, so that every success would end as `failed` with `INTERNAL`. Metrics are not modelled; the
  path modelled goes on to `finish_document`.
- The terminal update has no status guard (src/ocr_engine/repo/store.py:147-152). One event per document therefore
  fails in general: `Runs.LateCancelOverwrites`, `Runs.SecondRunnerOverwrites` and `Runs.TwoEventsHappen` show how,
  `Runs.FinishDuplicatesIff` says exactly when a finish duplicates, and `Single.OneEventPerDocument` proves the property
  under `oneRunner` and `exactCommits`.
- The retention query counts rows whose results are already gone (src/ocr_engine/repo/store.py:171-187), so that only
  the oldest hundred rows are ever purged. `Purging.CanBePurgedIff` gives the exact condition, and
  `Purging.SomeMessageStaysForGood` a run that leaves a message unpurged for good.
- A document whose synchronous run meets a transient failure stays `processing` for good
  (`Recovery.TransientInRequestIsForGood`); `Recovery.RecoverableIff` says exactly which documents can still end.
- The sign of a negative amount is printed before the currency and not read back: `Amounts.RoundTrip` states the exact
  condition.

## Model

| member | source | states |
|---|---|---|
| Tokens.ParseIs | src/ocr_engine/extraction/money.py:13-38 | For every text: the digits of the first token's number, by a reference without backtracking, negated exactly by a minus sign that could itself start a token; None only beyond Python's 4300 digits |
| Tokens.ParseFailsIff | src/ocr_engine/extraction/money.py:19-38 | Parsing fails iff the text holds no token, or its first one has more digits than Python converts |
| Tokens.AmountIs | src/ocr_engine/extraction/money.py:14 | The backtracking pattern reads at a digit exactly the reference's number: separated groups of one to three digits, or one longer run, perhaps with a stop and two digits; elsewhere nothing |
| Tokens.SearchReads | src/ocr_engine/extraction/money.py:13-25 | The search captures the first token's number whole, and a minus sign iff one counts |
| Amounts.ParseInContext | src/ocr_engine/extraction/money.py:13-38 | Every way to write a number (a run, groups, or a longer run with cents), behind any text without digits that leaves a token room to start, "rp." included, and before any text that does not prolong it, parses to its digits, with the sign |
| Amounts.SeparatorInvariance | src/ocr_engine/extraction/money.py:13-38 | Whatever single separators join its digit groups, a number denotes its concatenated digits, negated iff a leading minus is present |
| Amounts.DecimalPart | src/ocr_engine/extraction/money.py:25-38 | A final group of two digits counts hundredths: after groups with any separator, after a run of any length with a dot or comma; after a longer run and white space it is not read |
| Amounts.RupiahPrefix | src/ocr_engine/extraction/money.py:14 | "Rp." glued to the number, or before white space, is skipped; its dot is no decimal point |
| Amounts.RoundTrip | src/ocr_engine/extraction/money.py:19-50 | Parsing what was printed gives the magnitude, for every integer and every currency without digits; the amount itself iff it is not negative |
| Amounts.FormatIs | src/ocr_engine/extraction/money.py:48-50 | What is printed for every amount and currency: a minus sign exactly for a negative one, the currency with its commas as dots, a space, and the digits in threes; a ValueError beyond 4300 digits |
| Amounts.Printed | src/ocr_engine/extraction/money.py:48-50 | The printed thousands are one grouped number with exactly the digits of the amount |
| Regex.SearchIsLeftmost | src/ocr_engine/extraction/money.py:21 | A search reports the first match at the leftmost start that has one |
| Regex.WholeRun | src/ocr_engine/extraction/money.py:14 | A greedy repetition reads a maximal run whole or not at all, if what follows cannot start inside it: no backtracking into the run succeeds |
| Regex.ThenAssociates | src/ocr_engine/extraction/money.py:14 | Sequences may be regrouped without changing what the engine tries, or in which order |
| Regex.ConsumesOnly | src/ocr_engine/extraction/money.py:13-16 | A match stays inside the text and consumes only characters its expression allows |
| Lines.RankSorts | src/ocr_engine/extraction/extract.py:31 | Ranking sorts lines top to bottom, then left to right |
| Lines.RankIsStable | src/ocr_engine/extraction/extract.py:31 | Ranking keeps the emission order of lines at the same place |
| Lines.RankAlikeIff | src/ocr_engine/extraction/extract.py:31 | Two emissions rank alike iff lines at the same place come in the same order in both |
| Lines.RankIgnoresOrder | src/ocr_engine/extraction/extract.py:31 | Lines at pairwise different places rank alike in every emission order |
| Extract.LineToTheRight | src/ocr_engine/extraction/extract.py:106-119 | The loop finds the leftmost line to the right on the line's height, the first in reading order among equals, or none |
| Extract.ApplyLabel | src/ocr_engine/extraction/extract.py:65-79 | For one label: the value after it, else the right neighbour's when asked for, attributed to the line it was read from; or that neither succeeds |
| Extract.ApplyToLine | src/ocr_engine/extraction/extract.py:63-87 | The first success over a line's labels or pattern, or that none succeeds |
| Extract.ApplyMatcher | src/ocr_engine/extraction/extract.py:45-88 | The least success of one matcher over its candidate lines, or that none succeeds |
| Extract.ExtractOne | src/ocr_engine/extraction/extract.py:37-42 | The nested early-return loops return the field of the lexicographically least success over matcher, line, label and slot |
| Extract.ExtractFields | src/ocr_engine/extraction/extract.py:29-34 | One field per schema entry, in schema order, each the least success over the ranked lines |
| Extract.LeastIsUnique | src/ocr_engine/extraction/extract.py:37-88 | The least success is unique, so the reference determines the field |
| Extract.EmptyIffNothingSucceeds | src/ocr_engine/extraction/extract.py:42 | A field is empty iff no combination parses |
| Extract.EmissionOrderIrrelevant | src/ocr_engine/extraction/extract.py:29-34 | All fields are the same for every permutation of lines at pairwise different places |
| Extract.AttemptReadsOwnText | src/ocr_engine/extraction/extract.py:67-87 | A success reads its source line's own text; slot 0 names the line itself, slot 1 its nearest right neighbour |
| Extract.Provenance | src/ocr_engine/extraction/extract.py:141-150 | A field with a value names an input line, has its score and a value read from all its text, from what follows a label in it, or from a capture; one without has no source |
| Extract.SkipsLabel | src/ocr_engine/extraction/extract.py:97-103 | What is taken for the value starts behind the first place of the label's first six characters, the whole length of the label, and every separator after it; it is empty where the text ends inside the label, and the whole text where they do not occur |
| Extract.ParseTypedIs | src/ocr_engine/extraction/extract.py:126-138 | A text reads as a value iff what is left between its white space is not empty and reads as one of the field's type |
| Reading.AttemptIs | src/ocr_engine/extraction/extract.py:45-150 | One combination of matcher, line, label and slot yields a value iff the conditions hold, told of lines and schema alone: top lines, page edge, score, nearest neighbour on the right, text behind the label |
| Reading.FieldIs | src/ocr_engine/extraction/extract.py:37-150 | The extracted field tells what the first combination yields, with its line's score, and the schema's currency for an amount; it is empty iff none yields anything |
| Validate.BuildResult | src/ocr_engine/extraction/validate.py:29-94 | For equally long lists the strict zips succeed, and each result field reports its item: name, confidence, status, amount and currency or value, box and page, or the missing field's placeholders; unequal lists raise |
| Validate.IssuesInSchemaOrder | src/ocr_engine/extraction/validate.py:35-52 | Issues name exactly the flawed fields, once each, in schema order |
| Validate.CompletedIffNoIssues | src/ocr_engine/extraction/validate.py:63 | The status is completed iff there are no issues |
| Validate.BlockingHasIssue | src/ocr_engine/extraction/validate.py:58-63 | A blocking field always has an issue, so the status is decided by the issues alone |
| Validate.AverageWithinBounds | src/ocr_engine/extraction/validate.py:57 | The average lies between any bounds on the present confidences, and is 0 when no field is present |
| Validate.AverageIsMean | src/ocr_engine/extraction/validate.py:57 | The average times the number of fields present is the sum of their confidences, in order and each once |
| Validate.CompletedIff | src/ocr_engine/extraction/validate.py:29-64 | End to end: completed iff every field's least success comes from a line at its threshold, and every field without one is optional |
| Validate.DeliversFirst | src/ocr_engine/extraction/validate.py:67-94 | End to end: each result field delivers what the first combination read, its place, score and status against the threshold, and reports not found iff nothing was read |
| Baidu.Normalize | src/ocr_engine/ocr/baidu.py:139-155 | The nested loops with their skips compute the specification of the kept lines |
| Baidu.NormalizeConcat | src/ocr_engine/ocr/baidu.py:139-155 | Normalizing A + B is normalizing A, then B with its pages shifted by the length of A |
| Baidu.NormalizedIsClean | src/ocr_engine/ocr/baidu.py:142-154 | Kept lines are stripped, nonblank and positively scored; pages do not decrease and lie within 1 to the number of pages |
| Baidu.NormalizeKeeps | src/ocr_engine/ocr/baidu.py:142-154 | Every triple with a positive score and a text that is neither blank nor one non-ASCII character gives exactly one line, in the response's order, with its stripped text, score, page and box (zeros for a short box); no other triple does |
| Baidu.PollAsyncJob | src/ocr_engine/ocr/baidu.py:115-130 | Polling ends for every sequence of answers after at most floor(timeout / interval) + 2 requests, with the first decisive one |
| Baidu.EndIsUnique | src/ocr_engine/ocr/baidu.py:119-130 | The end of polling is determined by the answers and the clock |
| Envelopes.BuildEnvelope | src/ocr_engine/events/envelope.py:14-38 | The dictionary built step by step echoes document and submission; a success carries its result or null as data, a failure its error, nothing else carries either |
| Envelopes.ExactlyOneIff | src/ocr_engine/events/envelope.py:34-37 | Exactly one of data and error is present and not null iff a success carries a result, or a failure an error |
| Stores.Store.SubmitDocument | src/ocr_engine/repo/store.py:74-109 | Inserts a queued row iff neither id nor key is taken, with these columns, and changes nothing otherwise |
| Stores.Store.GetIdempotentDocument | src/ocr_engine/repo/store.py:111-113 | Finds the one row that holds the key, or none does |
| Stores.Store.MarkProcessing | src/ocr_engine/repo/store.py:119-124 | Moves a queued row to processing and leaves every other row alone |
| Stores.Store.FinishDocument | src/ocr_engine/repo/store.py:126-169 | Row and event change in one transaction or not at all, whether or not the caller learns of it; which columns the row gets, and that the event is new: unpublished, unclaimed, on the topic and trace given |
| Stores.Store.ListExpiredDocuments | src/ocr_engine/repo/store.py:171-178 | Lists the oldest rows finished before the cutoff, at most a hundred, purged or not; leaves one out only for a hundred older or as old |
| Stores.Store.PurgeDocumentResults | src/ocr_engine/repo/store.py:180-187 | Drops result and error message of the listed rows, and nothing else |
| Stores.Store.ClaimPendingOutbox | src/ocr_engine/repo/store.py:189-209 | Leases the oldest rows that are unpublished, due and not leased for sixty seconds, at most a batch, in no promised order, counting the attempt; leaves one out only for a full batch of rows no younger |
| Stores.Store.MarkPublished | src/ocr_engine/repo/store.py:211-215 | Sets published_at and releases the lease of that row only |
| Stores.OldestIsClaim | src/ocr_engine/repo/store.py:193-204 | Taking the first eligible rows by position is an answer of the ordered, limited query |
| Pipeline.ProcessDocument | src/ocr_engine/pipeline/pipeline.py:52-149 | The method's tables and ending are those of the run cut at its awaits, for every outcome of the stages, every fault of its writes and a cancellation at any await |
| Pipeline.Succeed | src/ocr_engine/pipeline/pipeline.py:100-147 | Extraction, validation and the finish of a success; a finish that raises fails the document and raises again |
| Pipeline.Fail | src/ocr_engine/pipeline/pipeline.py:181-205 | Writes the failed row and its event in one transaction |
| Pipeline.OutcomesAreWellFormed | src/ocr_engine/pipeline/pipeline.py:81-147 | Whatever the stages do, a run decides on a success with its result, a failure with its error, or a retry |
| Pipeline.RunAloneEnds | src/ocr_engine/pipeline/pipeline.py:52-149 | A run on its own leaves the document untouched, processing without an event, or terminal with its new events; two exactly when a success's commit went unanswered and the failure over it commits |
| Pipeline.RefusalsAreTold | src/ocr_engine/pipeline/pipeline.py:77-147 | For each refusal, and for a schema that is not loaded, the code and message that the row and its event both get, and how the run ends |
| Pipeline.SuccessIsTold | src/ocr_engine/pipeline/pipeline.py:103-119 | A recognized document whose schema is loaded gets the status, result and average of validation in row and event; if its finish raises, INTERNAL with the exception's text, as far as that is written |
| Pipeline.CutRunEnds | src/ocr_engine/pipeline/pipeline.py:59-119 | A run cancelled at any await leaves its row as found, or processing without an event, or terminal with one event for each finish that landed |
| Pipeline.FinishAgrees | src/ocr_engine/repo/store.py:145-169 | After a finish the row agrees with the event written with it, and no other row changes |
| Safety.FinishKeeps | src/ocr_engine/repo/store.py:145-169 | The finish transaction keeps the invariant of tables, whoever runs it and whatever the row's status |
| Safety.StepKeeps | src/ocr_engine/pipeline/pipeline.py:59-149 | Every step of every actor keeps the invariant, moves no status back, changes no submission, and brings back no deleted row |
| Runs.TerminalIffAnnounced | src/ocr_engine/repo/store.py:145-169 | In every reachable state a present row is terminal iff it has an event, and its last event agrees with it |
| Runs.EveryEventIsWellFormed | src/ocr_engine/events/envelope.py:21-38 | Every event ever written carries exactly one of data and error, and echoes its submission |
| Runs.NoDocumentGoesBack | src/ocr_engine/repo/store.py:119-152 | No interleaving queues a document again, takes a finished one back, or changes its submission |
| Runs.DeletedForGood | src/ocr_engine/api/servicer.py:241-245 | A row that was rolled back never comes back |
| Runs.PurgeTouchesOnlyFinished | src/ocr_engine/repo/store.py:171-187 | A purge touches only finished rows, and of those only result and error message |
| Runs.FinishDuplicatesIff | src/ocr_engine/repo/store.py:147-152 | A finish adds an event beyond the first iff its row is already terminal |
| Runs.LateCancelOverwrites | src/ocr_engine/api/servicer.py:173-217 | A cancellation that lands after a commit replaces the outcome by a failure, and both are announced |
| Runs.SecondRunnerOverwrites | src/ocr_engine/repo/store.py:147-169 | Of two runs about to commit, the second replaces the first's outcome, and both are announced |
| Runs.TwoRunnersReachCommit | src/ocr_engine/pipeline/pipeline.py:59-119 | From the initial state two runs of one document can come to their commits together, whatever each decided |
| Runs.TwoEventsHappen | src/ocr_engine/repo/store.py:147-169 | So a run from the initial state announces a document twice |
| Runs.RequestReachesCommit | src/ocr_engine/pipeline/pipeline.py:59-119 | A request can reach the commit of a success, with any recognized lines |
| Single.OneEventPerDocument | src/ocr_engine/pipeline/pipeline.py:59-147 | With one runner per document and exact commits, a document has at most one event, and exactly one iff its row is terminal |
| Single.RunsEndInOneOfThreeWays | src/ocr_engine/pipeline/pipeline.py:63-147 | Under the same assumptions a worker's run ends with its document untouched, terminal with the run's one event, or processing with none |
| Single.RequestsEndInOneOfThreeWays | src/ocr_engine/api/servicer.py:171-182 | The same for the run of a synchronous request |
| Requests.RowIffEnqueued | src/ocr_engine/api/servicer.py:94-127 | A completed SubmitDocument leaves a row iff its job was enqueued, iff it was accepted |
| Requests.AcceptedIsQueued | src/ocr_engine/api/servicer.py:115-127 | Whatever the environment does, an accepted document is present and its job queued |
| Requests.OneAcceptedPerKey | src/ocr_engine/repo/store.py:88-109 | At most one request per idempotency key is accepted or processed |
| Requests.RepeatsNameTheKeyHolder | src/ocr_engine/api/servicer.py:106-113 | A repeated key is answered with a document inserted for that key |
| Requests.AnswerNamesHolder | src/ocr_engine/api/servicer.py:106-113 | At the moment of the answer the document named is present and holds the key; none is named iff no row does |
| Requests.RefusedIffHeld | src/ocr_engine/repo/store.py:88-109 | An insert is refused iff a row holds the key |
| Requests.ResponsesAreTerminal | src/ocr_engine/api/servicer.py:184-190 | A request answered with its own document finds it present and terminal |
| Recovery.RecoverableIff | src/ocr_engine/api/servicer.py:171-190 | A document not yet terminal can come to be so iff it was enqueued or its request is still at it |
| Recovery.StuckForGood | src/ocr_engine/pipeline/pipeline.py:134-137 | A document that is neither stays without event and terminal status in every continuation |
| Recovery.TransientInRequestIsForGood | src/ocr_engine/api/servicer.py:180-182 | After a transient failure in a synchronous request its document stays processing in every continuation |
| Leases.ClaimsOfARow | src/ocr_engine/repo/store.py:189-209 | attempt_count is the number of claims of a row, and any two of them lie more than a minute apart |
| Leases.HandedAtMostOncePerClaim | src/ocr_engine/events/publisher.py:50-62 | A row is handed to the producer at most once per claim, so at most attempt_count times |
| Leases.PublishedWasHanded | src/ocr_engine/events/publisher.py:54-62 | A row marked published was handed to the producer before |
| Leases.ClaimableIff | src/ocr_engine/repo/store.py:196-204 | A row can be claimed iff it is unpublished and its last claim is more than a minute old |
| Leases.RowsLast | src/ocr_engine/repo/store.py:189-215 | Over any run no row disappears or changes its payload, and a published row is never claimed again |
| Retention.CleanUp | src/ocr_engine/worker/settings.py:28-35 | A sweep purges exactly one answer of the retention query: at most a hundred rows, all finished more than 24 hours before |
| Retention.SweepMayReachIff | src/ocr_engine/repo/store.py:171-178 | Some answer of the query lists an expired row iff fewer than a hundred rows were finished strictly before it, ties or not |
| Retention.SweepMustReachIff | src/ocr_engine/repo/store.py:171-178 | Every answer lists it iff at most a hundred rows were finished by then, it included |
| Purging.CanBePurgedIff | src/ocr_engine/worker/settings.py:28-35 | Over whole runs, with finishes, submits and sweeps interleaved: a finished row that retains its result can still be purged iff fewer than a hundred rows were finished before it |
| Purging.StarvedForGood | src/ocr_engine/repo/store.py:171-187 | Otherwise no continuation ever touches it |
| Purging.AlwaysListedIff | src/ocr_engine/repo/store.py:171-178 | In every continuation each sweep lists an expired row iff at most a hundred rows were finished by the time it was |
| Purging.PurgedForGood | src/ocr_engine/repo/store.py:180-187 | What is purged stays purged |
| Purging.SomeMessageStaysForGood | src/ocr_engine/repo/store.py:171-187 | A run of a hundred and one failed documents after which the last one's message is kept in every continuation |
| Purging.FinishedStays | src/ocr_engine/repo/store.py:147-187 | In an orderly environment a finished row stays as it is, but for its purge, at every step |
| Retention.PurgeKeepsSweeps | src/ocr_engine/repo/store.py:171-187 | A purge does not change what the next sweep sees |
| Publishing.Publisher.PollOnce | src/ocr_engine/events/publisher.py:46-66 | Claims any answer of the claim statement and hands over its rows in order, up to the row where it raises: each message has its row's payload, document as key and aggregate, event id and type, topic or the default, and trace if there is one |
| Publishing.Publisher.Run | src/ocr_engine/events/publisher.py:68-80 | Ticks one after the other, going on after one that raised |
| Publishing.TickRowByRow | src/ocr_engine/events/publisher.py:50-63 | After a tick the claimed rows before the one that raised are published with no lease, the rest of them leased, all with one attempt more, and every other row is as before |
| Actors.KeyedByDocument | src/ocr_engine/events/publisher.py:54-60 | In every reachable state, every message is keyed by the document its payload tells of, carries exactly one of data and error, and echoes that document's submission |
| Actors.TickIsARun | src/ocr_engine/events/publisher.py:46-66 | A tick, wherever it raises, is one of the machine's runs: same outbox, and the same rows handed over in the same order |
| Actors.SweepIsARun | src/ocr_engine/worker/settings.py:28-35 | A sweep of the rows finished more than 24 hours ago is one of the machine's runs |
| Actors.WorkerIsARun | src/ocr_engine/pipeline/pipeline.py:52-149 | So is a worker's run of the pipeline, for every outcome of its stages and every fault of its writes: same tables and ending |
| Actors.DeathLeavesAFinish | src/ocr_engine/repo/store.py:145-169 | A worker that dies leaves the tables as they are, or exactly as its finish would have: the transaction it was in may have committed |
| Actors.CrashLeavesAFinish | src/ocr_engine/repo/store.py:145-169 | The same for a request that dies in its run, or while it marks its document as cancelled |
| Publishing.TickConserves | src/ocr_engine/events/publisher.py:46-66 | Whatever goes wrong, the rows pending after a tick are those before without those marked |
| Publishing.PendingNeverGrows | src/ocr_engine/events/publisher.py:68-80 | Over any run of ticks the rows pending only get fewer |
| Publishing.TickPublishes | src/ocr_engine/events/publisher.py:46-66 | An undisturbed tick publishes min(batch, rows not leased) rows, min(batch, pending) when no lease is held |
| Publishing.LeasesExpire | src/ocr_engine/repo/store.py:196-204 | Whatever ticks raised before and however soon they followed each other, no lease is held once the last of them is more than a minute past |
| Publishing.TroubleOnlyDelays | src/ocr_engine/events/publisher.py:68-80 | For all pauses: c undisturbed ticks that start more than a minute after every disturbed one publish c batches, however many other ticks lie between |
| Publishing.Drain | src/ocr_engine/events/publisher.py:46-66 | From a quiet moment on n pending rows are drained iff the undisturbed ticks are at least ceil(n / batch); until then pending shrinks by exactly a batch a tick |
| Servicing.Servicer.SubmitDocument | src/ocr_engine/api/servicer.py:86-127 | A submit is accepted iff its row went in and the enqueue returned; then the row is queued with its job. If the enqueue raised, the row is gone iff its delete went through; a taken id or key changes nothing and names the holder |
| Servicing.Servicer.ProcessDocument | src/ocr_engine/api/servicer.py:129-190 | For each way its run can end, cancelled at any await included: processing failed iff the provider failed for now, an unexpected error came up or the first finish raised; else the answer is its own row, terminal and announced; a cancelled request fails its document |
| Servicing.Servicer.MarkCancelled | src/ocr_engine/api/servicer.py:192-217 | A cancelled request fails its row if there is one, whatever its status, with this code and message in row and event |
| Servicing.Servicer.Rollback | src/ocr_engine/api/servicer.py:241-245 | Deletes the row, or leaves it when the delete raises |
| Servicing.SubmitIsARun | src/ocr_engine/api/servicer.py:86-127 | SubmitDocument on its own is one of the machine's runs: same tables, jobs and answer |
| Servicing.ProcessIsARun | src/ocr_engine/api/servicer.py:129-190 | ProcessDocument on its own, whatever befalls it, is one of the machine's runs: same tables and answer |
| Servicing.RunReaches | src/ocr_engine/pipeline/pipeline.py:52-149 | The machine's awaits, undisturbed, are the run of the pipeline |
| Servicing.RequestMovesOn | src/ocr_engine/api/servicer.py:171-190 | In every state of the machine, what each await of its run makes of a request: it answers that processing failed iff the run raised, and else goes on or reads its row |

## Left out

- Metrics, tracing and logging: no bearing on state. Lines 105-107 of pipeline.py are left out with them, as said above.
- Downloading, file inspection, PDF rendering and OCR calls: their result is a parameter of the run (`Stages`).
- Label scoring, case folding, schema patterns and date parsing: parameters of the search (`Oracles`); it is proved for all of them, with `Money.ParseMoney` as the money parser in use.
- Unicode beyond Latin-1 white space, and digits other than 0 to 9, in the money pattern and in stripping.
- Floating point: scores, thresholds and averages are reals, and `round(..., 4)` is not modelled; the detail texts of issues are not either.
- Page numbers of multi-page PDFs: each page is sent on its own, so every line says page 1, and ranking ignores the page.
- The Kafka acknowledgement and `flush`: a message is handed to the producer, and nothing is claimed of its delivery.
- `defer_outbox_event` and `reclaim_abandoned_outbox`: nothing calls them, so next_attempt_at stays null.
- `SKIP LOCKED`: a claim is one step, so concurrent claims take turns; a claim that skips locked rows is not modelled.
- Event ids are commit positions and event times the database's; the application's own UUIDs and clock are not modelled.
- Request validation, the size cap, GetDocument and the copying of rows into responses: single checks that would only add easy members.
- Queue retry limits and heartbeats: a job may run again any number of times.
- An error of a read or of `mark_processing` in a run is modelled as the death of its actor.
- The headers that are the same on every message (event version, source service, aggregate type).
- The `repr` escaping of the schema's name in the message that it is not loaded: the name stands between plain quotes.
- Publishing.Publisher.PollOnce: the clock stands still during a tick, and other actors do not interleave; `Lifecycle` interleaves them.
- Pipeline.ProcessDocument: no other actor interleaves; the machine does that with the same steps.
- Publishing.Drain: other publishers and new rows are excluded between the ticks, as the statement is about one publisher's drain; leases they hold at the start are covered.
- Purging.CanBePurgedIff: stated where finished rows are not finished again or rolled back (one runner per document, exact commits, no enqueue that raises although it landed); elsewhere the rows finished before it can change.
- Requests.AnswerNamesHolder: the row named may be deleted by its own rollback afterwards.
- Runs.TerminalIffAnnounced: of a purged row only status and error code are compared with the event, since result and message are gone.
