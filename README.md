# parsly gateway and worker, modelled in Dafny

parsly turns documents into text. Clients submit a document by URL or as a file
upload. The HTTP gateway validates the request, stores an uploaded file in
object storage, and enqueues a job on a Redis-backed BullMQ queue. It then
answers 202 with a task id. A Python worker takes the job, downloads the input,
converts it with docling, and returns a result envelope. The queue stores that
envelope as the job's return value. Clients poll the task's state, optionally
long-polling up to 30 s, and fetch the result. After a single-use read, the job
is removed after a delay. An API-key middleware guards the routes. A health
route reports whether Redis answers.

The model covers, one module per source file or concern:

- `Wrappers`: Option and Result.
- `JsValues`: the JavaScript pieces the routes lean on.
  - JSON values.
  - `x || d` on a possibly missing string.
  - `parseInt` with no radix.
  - Decimal rendering of numbers.
  - Node's clamp of `setTimeout` delays.
- `Jobs`: job records, queue states, job payloads and result envelopes.
- `JobQueue`: the queue as a class over its job map.
  - Its id counter.
  - The `job.remove()` timers armed and not yet fired.
- `Settings`: the `SINGLE_USE_RESULTS` and `RESULT_REMOVAL_DELAY` settings.
- `Auth`: the API-key middleware.
- `Health`: the health route, including the `used_memory_human:` extraction from Redis INFO.
- `Schemas`: the three request schemas.
  - Defaults, enumerations, URL check and positive number.
  - All issues are collected in field order.
- `ParseRoute`: the `/source` and `/file` submission handlers.
  - Object storage is a class over its objects.
- `StatusRoute`: the status route with long polling.
- `ResultRoute`: the result route and its deferred single-use removal.
- `ResultStore`: the `ResultStorage` service, a class over its Redis entries and armed deletes.
- `Worker`: the worker's `process` and `get_converter`.
- `Lifecycle`: how submission, worker, status and result fit together over one job.

Time is an integer clock in milliseconds, passed to every operation that reads
it. The long poll sees the queue as a function of the clock (`int ->
QueueView`), because the worker changes the queue while the handler sleeps.
The following are parameters, with their outcomes given by the caller:

- the nanoid generator;
- the URL check;
- JSON parsing of a form field;
- downloads, object-storage reads and the converter;
- every call that can fail: enqueue, upload, ping and INFO.

The queue is BullMQ's, not a generic task queue with a `queued` state and an
error on a duplicate task id:

- Reported states are BullMQ's own names. A freshly enqueued job is
  `waiting`, not `queued`. `unknown` is reported for a job removed during a
  poll. `delayed`, `prioritized` and `waiting-children` are echoed too.
- The submission handlers call `queue.add(jobId, data)` without a job id, so
  the job is filed under BullMQ's counter id and the task id is only its name
  (`ParseRoute.SubmitSource`, `ParseRoute.SubmitFile`). The variants that
  also pass the task id as job id (`ParseRoute.SubmitSourceWithJobId`,
  `ParseRoute.SubmitFileWithJobId`) are the correction described under
  Findings.
- Adding a job under an id that already exists is not an error. BullMQ keeps
  the existing job and returns its id (`JobQueue.Queue.AddWithId`).
- A second store of a result replaces the first (`ResultStore.LastStoreWins`).

## Model

| member | source | states |
|---|---|---|
| JsValues.ParseInt | packages/api/src/routes/status.ts:10 | `parseInt` of blank text is NaN; a negative result comes from a leading "-" after the whitespace; text whose first character after the whitespace is a digit 1-9 reads as a non-negative number |
| JsValues.OrDefault | packages/api/src/routes/status.ts:10 | `x \|\| d`: the string when present and non-empty, else the default |
| JsValues.ParseIntOfNatToString | packages/api/src/routes/status.ts:10 | `parseInt` reads back the decimal rendering of every natural exactly |
| JsValues.ParseIntOfDigits | packages/api/src/routes/result.ts:38 | an all-digit string is parsed as the number its digits spell |
| JsValues.DigitsValueOfNatToString | packages/api/src/routes/result.ts:38 | the digits of a rendered natural spell that natural |
| JsValues.DigitRunOfDigits | packages/api/src/routes/result.ts:38 | `parseInt` consumes the whole of an all-digit string |
| JsValues.NatToStringHasOnlyDigits | packages/api/src/routes/parse.ts:16-19 | a string with a non-digit is never a rendered counter id |
| JsValues.TimerDelay | packages/api/src/routes/result.ts:39-45 | the timer fires after the given delay when it is within 1..2^31-1 ms, else after 1 ms (NaN included) |
| Settings.SingleUse | packages/api/src/routes/result.ts:37 | single-use is on unless the setting is exactly "false" |
| Settings.RemovalDelay | packages/api/src/routes/result.ts:38 | the removal delay is always a delay Node accepts, 1..2^31-1 ms |
| Settings.DefaultRemovalDelayIsFiveMinutes | packages/api/src/routes/result.ts:38 | an unset or empty setting gives 300000 ms |
| Settings.ConfiguredRemovalDelay | packages/api/src/routes/result.ts:38 | a configured decimal delay within Node's range is used as is |
| Jobs.NewJob | packages/api/src/routes/parse.ts:19-26 | a just-added job is waiting with progress 0 and no timestamps or result |
| Jobs.StateOf | packages/api/src/routes/status.ts:36 | the state read for an id is the job's state, or unknown for an id the queue does not hold |
| JobQueue.CounterId | packages/api/src/routes/parse.ts:19 | an id the queue assigns itself is a non-empty run of decimal digits |
| JobQueue.Due | packages/api/src/routes/result.ts:39-45 | the removals due at a time are exactly the armed ones whose time has come |
| JobQueue.AfterRemovals | packages/api/src/routes/result.ts:39-45 | firing removes exactly the jobs of due removals that do not fail, and keeps every other job unchanged |
| JobQueue.RemovalNotYetDue | packages/api/src/routes/result.ts:39-45 | a job whose removals are all in the future is untouched by firing |
| JobQueue.FiringIsIdempotent | packages/api/src/routes/result.ts:39-45 | firing the remaining removals again at the same time removes nothing more |
| JobQueue.Queue.Add | packages/api/src/routes/parse.ts:19-26 | an add without a job id files the job under the next counter id and advances the counter; a failed add changes nothing |
| JobQueue.Queue.AddWithId | packages/api/src/routes/parse.ts:19 | correction (see Findings), not the handlers' call: an add that passes the task id as job id files the job under that id; an existing job under it is kept; a failed add changes nothing |
| JobQueue.Queue.ScheduleRemoval | packages/api/src/routes/result.ts:39-45 | arming a removal adds it to the armed timers and touches no job |
| JobQueue.Queue.FireRemovals | packages/api/src/routes/result.ts:39-45 | due removals run and are disarmed; only future ones stay armed |
| Auth.ApiKeyAuth | packages/api/src/middleware/auth.ts:3-18 | with no key (or an empty one) configured every request proceeds; otherwise a request proceeds iff its X-Api-Key equals the key, and is refused with 401 |
| Health.HealthCheck | packages/api/src/routes/health.ts:7-45 | a failed store call gives 503 "unhealthy" with the error text; otherwise the code is 200 and status healthy/up iff the ping answered "PONG", else 503 unhealthy/down, with the extracted memory |
| Health.UsedMemory | packages/api/src/routes/health.ts:15-16 | the reported memory is "unknown" or the first match's capture, a non-empty text without line breaks |
| Health.FindMemoryNone | packages/api/src/routes/health.ts:15-16 | with no match from a position on, the search finds nothing |
| Health.FindMemoryLeftmost | packages/api/src/routes/health.ts:15-16 | the search returns the capture of the leftmost match |
| Health.UnmatchedMemoryIsUnknown | packages/api/src/routes/health.ts:15-16 | INFO text without the field reports memory "unknown" |
| Health.MatchedMemoryIsFirstCapture | packages/api/src/routes/health.ts:15-16 | with a match, memory is the non-empty rest of the first matching line up to the line break |
| Schemas.ParseOcrEngine | packages/api/src/schemas/parse.ts:5 | a name is accepted iff it names an engine, and then means that engine |
| Schemas.ParseOutputFormat | packages/api/src/schemas/parse.ts:6-10 | a name is accepted iff it names an output format, and then means that format |
| Schemas.ParseTargetType | packages/api/src/schemas/parse.ts:11 | a name is accepted iff it names a target type, and then means that type |
| Schemas.ParseChunkingMethod | packages/api/src/schemas/parse.ts:26 | a name is accepted iff it names a chunking method, and then means that method |
| Schemas.FormatItems | packages/api/src/schemas/parse.ts:6-10 | an array is accepted iff every item is a known format name; the result names the items in order; a refusal carries issues |
| Schemas.FormatsField | packages/api/src/schemas/parse.ts:6-10 | absent formats default to ["md_content"]; [] is accepted; an accepted array is the rendering of the result |
| Schemas.SourceUrlField | packages/api/src/schemas/parse.ts:4 | accepted iff a string that passes the URL check |
| Schemas.OptionalUrlField | packages/api/src/schemas/parse.ts:25 | absent, or a string that passes the URL check |
| Schemas.PositiveField | packages/api/src/schemas/parse.ts:27 | absent, or a number strictly above 0 |
| Schemas.ValidateFile | packages/api/src/schemas/parse.ts:14-22 | accepted iff an object whose three fields are each absent or valid; the result is the defaults for absent fields and the named values otherwise; a refusal lists at least one issue |
| Schemas.ValidateSource | packages/api/src/schemas/parse.ts:3-12 | accepted iff the URL is present and passes and the file schema accepts the rest; the result carries that URL and the file schema's values |
| Schemas.ValidateChunking | packages/api/src/schemas/parse.ts:24-29 | accepted iff the method is present and known, the URL optional and valid, the size optional and positive, the engine valid; the result carries that method, engine, URL and size |
| Schemas.FormatItemsOfNames | packages/api/src/schemas/parse.ts:6-10 | rendering formats and parsing them back gives the same formats |
| Schemas.ValidateFileIdempotent | packages/api/src/schemas/parse.ts:14-22 | re-validating a rendered file request gives it back |
| Schemas.ValidateSourceIdempotent | packages/api/src/schemas/parse.ts:3-12 | re-validating a rendered source request gives it back |
| Schemas.ValidateChunkingIdempotent | packages/api/src/schemas/parse.ts:24-29 | re-validating a rendered chunking request gives it back |
| Schemas.FileDefaults | packages/api/src/schemas/parse.ts:14-22 | an empty object validates to easyocr, ["md_content"], InBody |
| Schemas.SourceUrlRequired | packages/api/src/schemas/parse.ts:3-12 | an empty object is refused with exactly one issue, on `source_url` |
| ParseRoute.ObjectStorage.Upload | packages/api/src/routes/parse.ts:72-74 | an accepted upload stores the bytes and content type under the key; a refused one changes nothing |
| ParseRoute.FormatNames | packages/api/src/routes/parse.ts:24 | the payload lists the names of the validated formats in order |
| ParseRoute.SourcePayload | packages/api/src/routes/parse.ts:19-26 | a URL job carries the id, type "parse-source", the validated URL and option names, and no file name |
| ParseRoute.FileKey | packages/api/src/routes/parse.ts:70 | the object key is the task id, then "/", then the file name |
| ParseRoute.FileKeysOfDistinctTasksDiffer | packages/api/src/routes/parse.ts:69-70 | uploads of two different tasks never share a key |
| ParseRoute.FilePayload | packages/api/src/routes/parse.ts:77-84 | a file job carries the id, type "parse-file", the object key and option names, and no URL |
| ParseRoute.SourceDecision | packages/api/src/routes/parse.ts:13-26 | a body that is not JSON gives 500, a refused body 400 with the issues; otherwise the job carries the fresh id and the validated URL, which passes the URL check; it is enqueued iff the body validates |
| ParseRoute.SubmitSource | packages/api/src/routes/parse.ts:11-49 | as written: the decision's error, or 500 on a failed enqueue, or 202 with the fresh id while the job is filed under the next counter id with the fresh id as its name; queue unchanged unless 202 |
| ParseRoute.SubmitSourceWithJobId | packages/api/src/routes/parse.ts:19-26 | correction (see Findings): the same answers, but an accepted job is filed under the fresh id, so a 202 always names a job the queue holds |
| ParseRoute.FileFormInput | packages/api/src/routes/parse.ts:61-67 | exactly the three option keys; engine and target are the given value or easyocr and InBody; formats are the parsed JSON text or ["md_content"]; a file there reaches the schema as a non-string; the input fails to build iff given formats do not parse |
| ParseRoute.FormDefaults | packages/api/src/routes/parse.ts:61-67 | a form with no options validates to easyocr, ["md_content"], InBody |
| ParseRoute.FormOptionsReachSchema | packages/api/src/routes/parse.ts:61-67 | a form naming every option, with formats text that parses to their names, validates to exactly those options |
| ParseRoute.FileDecision | packages/api/src/routes/parse.ts:53-84 | in the handler's order: no form 500, no file 400, unparsable formats 500, refused 400 with the issues, a text "file" 500; else the upload of the file's bytes and type under id/name and a job naming that key |
| ParseRoute.SubmitFile | packages/api/src/routes/parse.ts:51-107 | as written: storage unchanged on every answer before the upload and on a failed upload; failed enqueue 500 with the upload kept; else 202 with the fresh id while the job is filed under the next counter id; queue unchanged unless 202 |
| ParseRoute.SubmitFileWithJobId | packages/api/src/routes/parse.ts:77-84 | correction (see Findings): the same answers and uploads, but an accepted job is filed under the fresh id, so a 202 always names a job the queue holds |
| StatusRoute.RequestedTimeout | packages/api/src/routes/status.ts:10 | a given non-empty timeout is read with `parseInt`; a missing or empty one reads as 0 |
| StatusRoute.MaxWait | packages/api/src/routes/status.ts:10-21 | the wait is 0 unless the timeout parses to a positive number, then min(timeout*1000, 30000) ms |
| StatusRoute.MissingTimeoutDoesNotWait | packages/api/src/routes/status.ts:10 | no or empty timeout means no waiting |
| StatusRoute.NonNumericTimeoutDoesNotWait | packages/api/src/routes/status.ts:10-20 | a timeout `parseInt` cannot read means no waiting |
| StatusRoute.LongTimeoutIsClamped | packages/api/src/routes/status.ts:21 | any timeout of 30 s or more waits exactly 30 s |
| StatusRoute.DescribeStatus | packages/api/src/routes/status.ts:36-53 | the body echoes id, state and progress, with finish time for completed, reason and finish time for failed, start time for active, and nothing else otherwise |
| StatusRoute.SampleTime | packages/api/src/routes/status.ts:32 | after i sleeps the clock reads exactly i intervals of 500 ms later |
| StatusRoute.WaitForTerminal | packages/api/src/routes/status.ts:24-33 | the loop sleeps only after a read that found the job pending, stops on a failed read, a terminal state or an elapsed wait, and overshoots the wait by less than one interval |
| StatusRoute.PollStatus | packages/api/src/routes/status.ts:8-59 | 500 if the store fails, 404 for an unknown id, both at once; otherwise the body describes the last state read over the first snapshot of the job; every read before the last found it pending; fewer than wait/500 + 1 sleeps; it returns early only on a terminal state |
| ResultRoute.Decide | packages/api/src/routes/result.ts:12-56 | 500 iff the store fails; 404 iff unknown; 400 with the state iff not completed; 404 for a completed job without a result; otherwise the formats, metadata and finish time |
| ResultRoute.FetchResult | packages/api/src/routes/result.ts:8-61 | answers Decide on the current queue and arms a removal, in the future, iff the result is delivered and single-use is on |
| ResultRoute.ReadBeforeRemovalStillDelivers | packages/api/src/routes/result.ts:36-46 | until its removal fires, a delivered result is delivered again |
| ResultRoute.ReadAfterRemovalIsNotFound | packages/api/src/routes/result.ts:36-46 | once a removal that does not fail has fired, the task is not found |
| ResultStore.Key | packages/api/src/services/results.ts:31 | the key is "result:" followed by the job id |
| ResultStore.Lookup | packages/api/src/services/results.ts:35-39 | a read finds a result iff an entry is under the key and has not expired, and then it is that entry's result |
| ResultStore.KeyInjective | packages/api/src/services/results.ts:31-36 | two jobs share a key only if they are the same job |
| ResultStore.StoredResultReadsBack | packages/api/src/services/results.ts:30-39 | a stored result reads back unchanged until its time to live lapses |
| ResultStore.ExpiredResultReadsAbsent | packages/api/src/services/results.ts:30-39 | after the time to live a result reads as absent |
| ResultStore.LastStoreWins | packages/api/src/services/results.ts:30-33 | a second store for a job replaces the first |
| ResultStore.DeleteIsIdempotent | packages/api/src/services/results.ts:41-43 | deleting twice is deleting once |
| ResultStore.OtherDeletesKeepResult | packages/api/src/services/results.ts:41-51 | deletes armed for other jobs leave this job's result readable as before |
| ResultStore.ResultStorage.constructor | packages/api/src/services/results.ts:24-28 | a new service has the given time to live, or 300 s, and nothing armed |
| ResultStore.ResultStorage.Store | packages/api/src/services/results.ts:30-33 | a store succeeds iff the time to live is positive, and then writes the result under its key to expire ttl seconds later |
| ResultStore.ResultStorage.Get | packages/api/src/services/results.ts:35-39 | the read returns the result iff an entry under its key is alive, and changes nothing |
| ResultStore.ResultStorage.Delete | packages/api/src/services/results.ts:41-43 | removes exactly the job's key |
| ResultStore.ResultStorage.GetAndDelete | packages/api/src/services/results.ts:46-54 | reads like Get and arms one delete after the removal delay iff there is a result and single-use is on |
| ResultStore.ResultStorage.FireDue | packages/api/src/services/results.ts:51 | deletes due at a time run and are disarmed; later ones stay armed |
| ResultStore.SingleUseGrace | packages/api/src/services/results.ts:46-54 | after a single-use read, a read within five minutes returns the result and a read after the delete returns none |
| Worker.GetConverter | packages/worker/src/worker.py:27-32 | every OCR engine gets the default converter |
| Worker.Export | packages/worker/src/worker.py:69-80 | each known format is the matching docling export: markdown and HTML as text, the dictionary as structured data, doctags as text; a failing export's error is passed on |
| Worker.FetchInput | packages/worker/src/worker.py:47-55 | a non-empty URL is downloaded, else a non-empty file name is read from storage, else there is no input; a failed download is the error |
| Worker.BuildFormats | packages/worker/src/worker.py:65-80 | succeeds iff every known requested export succeeds; the keys are exactly the known requested names, each holding its export; a failure is the error of the first failing known export in request order |
| Worker.PageCount | packages/worker/src/worker.py:88-90 | the number of pages, or 0 when the document has none |
| Worker.FailureEnvelope | packages/worker/src/worker.py:95-101 | a failed envelope carries the job id, status failed, no formats and only the error in its metadata |
| Worker.Process | packages/worker/src/worker.py:35-101 | download or conversion failure gives a failed envelope with that error; completed iff every export succeeds, with exactly the requested known formats, the page count (0 without pages) and time 0; otherwise the failed envelope of the first failing export's error |
| Lifecycle.AsWrittenTaskIsNotFound | packages/api/src/routes/parse.ts:16-26 | after the handler's add, a task id holding a non-digit is unknown to the result route and to the state read |
| Lifecycle.AsWrittenFirstJob | packages/api/src/routes/parse.ts:16-26 | the first job of an empty queue is filed under "1", and its task id is not found |
| Lifecycle.AsWrittenSubmitThenPoll | packages/api/src/routes/parse.ts:16-26 | as written: the handler answers 202 with the task id iff the body validates, yet polling that id and fetching its result both answer 404, whatever the timeout |
| Lifecycle.CorrectedTaskIsWaiting | packages/api/src/routes/parse.ts:16-26 | with the task id as job id, the job is found, waiting, and the result route refuses it with that state |
| Lifecycle.SubmitThenPoll | packages/api/src/routes/parse.ts:11-49 | correction (see Findings): with the task id as job id, an accepted URL submission with no worker is polled as waiting and refused by the result route as waiting; a refused one is not found by either |
| Lifecycle.ReadObject | packages/worker/src/worker.py:53-55 | a storage read returns the bytes stored under a key, and fails for a missing key |
| Lifecycle.SourceJobFetchesItsUrl | packages/worker/src/worker.py:47-52 | the worker downloads exactly the URL the submission validated |
| Lifecycle.FileJobReadsItsUpload | packages/worker/src/worker.py:53-55 | the worker reads back exactly the bytes the file submission uploaded |
| Lifecycle.AcceptedFormatsAreExported | packages/worker/src/worker.py:67-80 | the formats the worker exports are exactly those the schema accepted |

## Left out

- I/O is left out. This covers HTTP framing, JSON serialisation of responses, logging, `Date.now()` and `new Date().toISOString()`, `process.uptime()`, and the worker's temporary directory and print statements. None of these changes a decision.
- Timers are not modelled as an event loop. Armed timers are a set of pending actions that the caller fires at a clock time. Concurrency between handlers and the worker is modelled only as the queue changing between the long poll's reads.
- StatusRoute.PollStatus: reads take no time and each sleep lasts exactly 500 ms. The source's own clock, which includes time spent awaiting Redis and timer lateness, is not modelled.
- StatusRoute.PollStatus: the body uses the job snapshot taken by the first lookup, as BullMQ's job object does; only the state is read again.
- The queue's retry and retention options (3 attempts, exponential back-off from 2000 ms, retention of completed and failed jobs) are left out. So are the worker's job-state transitions (active, completed, failed), which BullMQ drives. `packages/api/src/services/queue.ts` is not part of this model.
- The object-storage client `packages/api/src/services/storage.ts` is not part of this model. It becomes the `ObjectStorage` class, and the worker's `s3_client` becomes a read function.
- The server wiring in `packages/api/src/index.ts` is not part of this model. Nor is the worker's `main` (signal handling, queue name, concurrency).
- The queue name defaults differ: `docling-conversions` in the gateway and `docling-parse` in the worker. This lives in configuration and is not modelled.
- The nanoid generator, the URL check of the schemas and `JSON.parse` of a form field are parameters. Their exact behaviour is not modelled.
- Unreachable Redis is modelled for the queue and the health route. It is not modelled for `ResultStorage`, whose failures only propagate. `ResultStorage` is not called by any route.
- A result is assumed to survive JSON encoding through Redis unchanged. Every falsy return value is modelled as no result.
- JavaScript numbers are modelled as unbounded integers, or reals for `max_chunk_size`. Floating-point rounding of `timeout * 1000` is not modelled.
- Strings are sequences of characters, not UTF-16 code units.
- Worker.BuildFormats: the dictionary is a map, so the insertion order of the `formats` keys is not modelled.
- Worker.Process: an exception raised while counting pages is not modelled.
- ParseRoute.SubmitFile: a form field given several times is modelled by one value, the one `formData.get` returns.
- The chunking schema has no route in the source. It is modelled as a validator only.

## Findings

| source | as written | input that shows it | evidently intended | confidence | as-written member | corrected member |
|---|---|---|---|---|---|---|
| packages/api/src/routes/parse.ts:19 | `queue.add(jobId, data)` in the `/source` handler passes the generated task id as the job's name only. BullMQ then files the job under its own counter id ("1", "2", …). | Submit any URL and receive a task id such as "x1Yz". `getJob("x1Yz")` finds nothing, so status and result both answer 404 for ever. | The task id is also the job id (`opts.jobId`), so the status and result routes find the job they were told about. | not executed | Lifecycle.AsWrittenSubmitThenPoll | ParseRoute.SubmitSourceWithJobId |
| packages/api/src/routes/parse.ts:77 | The `/file` handler makes the same call: the upload is stored, but the job is filed under a counter id. | Upload any file and receive a task id such as "x1Yz". The job is filed under "1" on an empty queue, and "x1Yz" is not found. | As for `/source`: the task id is also the job id. | not executed | Lifecycle.AsWrittenTaskIsNotFound | ParseRoute.SubmitFileWithJobId |
