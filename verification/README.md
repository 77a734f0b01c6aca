# Text summariser core, modelled in Dafny

This project models the decision layer of a small summarisation service
(FastAPI handlers, a Celery worker, a Redis cache, and a Gemini text
generator). Redis, Celery and Gemini are replaced by abstract state:

- the cache is a map from key to `(summary, expiry)` with integer time, plus a
  flag saying that every store call currently raises;
- the MD5-of-canonical-JSON fingerprint is a function parameter whose values
  are 32-character lower-case hex digests;
- the generator is an opaque function from prompt to reply text or error;
- the task backend is a map from task id to Celery state.

Modules, one per file:

- `Wrappers` (`wrappers.dfy`): `Option` and `Result`.
- `Text` (`text.dfy`): Python's `str.isspace`, `strip`, `split()` and
  `str(int)`, with the facts the service depends on. A word count is the
  number of word starts. Stripping does not change the word count. A string
  has no words exactly when it is blank. A rendered int parses back.
- `Models` (`models.dfy`): `SummaryType`, the synchronous and asynchronous
  request schemas with every error they report, `validate_text`, and the task
  status literals.
- `Cache` (`cache.dfy`): key generation, and fail-open `get`, `set` and
  `health_check`.
- `Ai` (`ai.dfy`): prompt construction, word counts, the unrounded
  compression ratio, and the wrapping of every failure in
  `"Failed to generate summary: "`.
- `Worker` (`worker.dfy`): `summarize_text_task`. It returns the store
  afterwards, the ordered list of actions it took (mark PROCESSING, cache
  lookup, generation, cache write), and the record it returns.
- `Routes` (`routes.dfy`): the sliding-window rate limiter, the synchronous
  handler, task submission, and the mapping of backend states to reported
  statuses.

Behaviours of the code that a reader might not expect, which the model keeps
as written:

- An empty generated reply is not an error. It gives an empty summary, zero
  words and a ratio of 100 (`Ai.EmptyReplyIsFullCompression`).
- A task id the backend has never seen is reported as `pending`. There is no
  separate "not found" answer (`Routes.UnknownTaskReportedPending`).
- The rate limiter is a sliding window over per-client timestamps. No handler
  in `app/api/routes.py` calls it.
- A failed generation in the worker is reported to pollers as `completed`
  (see Findings).
- The synchronous schema checks the 50..10000 length bounds on the text as
  received, and only then strips it. So an accepted request can carry stripped
  text of a single character (`Models.LengthBoundPrecedesStrip`).
- The asynchronous schema neither checks nor strips the text. The same body
  sent to both endpoints uses the same cache fields only when its text has no
  surrounding whitespace (`Routes.SyncAndAsyncFieldsAgreeIffStripped`).

## Model

| member | source | states |
|---|---|---|
| `Text.Strip` | app/models.py:18-20 | The stripped text is empty exactly when the input is all whitespace; otherwise it starts and ends with a non-whitespace character. |
| `Text.TrimLeftDropsSpace` | app/models.py:18-20 | Removing leading whitespace leaves a suffix of the input, and everything removed is whitespace. |
| `Text.StripKeepsMiddle` | app/models.py:18-20 | The stripped text occurs in the input unchanged, with only whitespace before and after it. |
| `Text.StripUnique` | app/models.py:18-20 | Any piece of the input with only whitespace around it and no whitespace at its ends is the stripped text, so `strip()` is characterised independently of how it is computed. |
| `Text.Split` | app/services/ai_service.py:39-40 | Every word that `split()` yields is non-empty and contains no whitespace. |
| `Text.WordCountIsWordStarts` | app/services/ai_service.py:39-40 | `len(s.split())` equals an independent count: the non-whitespace characters that come first or follow whitespace. |
| `Text.WordCountZeroIffBlank` | app/services/ai_service.py:39-41 | The word count is zero exactly when the text is blank, so the ratio's division fails exactly on blank text. |
| `Text.WordCountIgnoresStrip` | app/services/ai_service.py:36-40 | Counting the words of the stripped reply gives the same number as counting the raw reply. |
| `Text.IntToString` | app/services/ai_service.py:24-25 | `str(n)`: a minus sign exactly for a negative int, followed by at least one decimal digit and no leading zero. |
| `Text.IntToStringRoundTrip` | app/services/ai_service.py:24-25 | The decimal rendering of any int, negative included, parses back to the same int. |
| `Models.ParseSummaryType` | app/models.py:6-9 | Only "brief", "detailed" and "bullet_points" build a mode, and the mode carries the string it was built from. Any other string fails. |
| `Models.ParseSummaryTypeRoundTrip` | app/models.py:6-9 | Each of the three modes is rebuilt from its own value, so the three values are distinct. |
| `Models.ValidateText` | app/models.py:16-20 | Rejects exactly the blank texts, with the empty-text error. Otherwise returns `v.strip()`: a non-empty text no longer than the input, with no whitespace at either end. |
| `Models.ValidateTextIdempotent` | app/models.py:16-20 | Validating text that has already been validated returns the same result. |
| `Models.RequestErrors` | app/models.py:11-20 | Each schema error is reported exactly when its constraint is violated. Text shorter than 50 or longer than 10000 fails before the blank check runs. A mode outside the three fails. A limit below 10 or above 500 fails. |
| `Models.ParseSummarizeRequest` | app/models.py:11-20 | A body is accepted exactly when no error is reported. The accepted text is the stripped input. An omitted mode becomes BRIEF. The limit is passed through unchanged. A rejection lists every error. |
| `Models.SummarizeRequestAccepted` | app/models.py:11-20 | A body is accepted exactly when its text has 50..10000 characters and is not blank, its mode is valid or omitted, and its limit is absent or within 10..500. |
| `Models.ParsedRequestIsValid` | app/models.py:12-20 | An accepted request has text of 1..10000 characters that is already stripped and not blank, and its limit is absent or within 10..500. |
| `Models.LengthBoundPrecedesStrip` | app/models.py:12-20 | One visible character followed by 49 whitespace characters is accepted, and the handler sees a one-character text. |
| `Models.ParseTaskSubmitRequest` | app/models.py:29-32 | The asynchronous schema accepts any text and any limit unchanged. It fails only for an invalid mode. A given mode string builds the mode with that value, and an omitted mode becomes BRIEF. |
| `Models.SyncAcceptedIsAsyncAccepted` | app/models.py:11-32 | Whatever the synchronous schema accepts, the asynchronous one accepts too. The two texts differ only by stripping. |
| `Cache.GenerateKey` | app/services/cache_service.py:20-33 | Every key is "summary:" followed by 32 lower-case hex digits. |
| `Cache.KeyDeterminedByDigest` | app/services/cache_service.py:20-33 | Two requests get the same key exactly when their fingerprints are equal. Equal triples therefore always share a key. |
| `Cache.Get` | app/services/cache_service.py:35-55 | Returns a value exactly when the store is working and the request's key has an unexpired entry. That value is the stored summary. A failing store always gives a miss. |
| `Cache.Set` | app/services/cache_service.py:57-77 | Returns true exactly when the store is working and the TTL is positive. On success the key holds the data with expiry now + TTL. Every other key is unchanged. On failure nothing changes. |
| `Cache.GetAfterSet` | app/services/cache_service.py:35-77 | After a successful write, a read of the same triple before the TTL elapses returns the written summary. |
| `Cache.GetAfterExpiry` | app/services/cache_service.py:35-77 | After a successful write, a read of the same triple once the TTL has elapsed is a miss. |
| `Cache.LastWriteWins` | app/services/cache_service.py:57-77 | Of two successful writes for the same triple, a read sees the later one. |
| `Cache.SetLeavesOtherKeys` | app/services/cache_service.py:57-77 | A write never changes what a read returns for a triple with a different key. |
| `Cache.HealthCheckAgreesWithStore` | app/services/cache_service.py:79-84 | When the health check reports false, every read misses and every write returns false and changes nothing. When it reports true, a write with a positive TTL succeeds. |
| `Ai.BuildPrompt` | app/services/ai_service.py:14-27 | The prompt begins with the fixed opening, the text and a blank line, and then the instruction for the mode. It ends in " words." exactly when the limit is truthy (`None` and `0` are not). A truthy limit ends the prompt with the limit clause, and nothing else lies between the instruction and that clause; otherwise nothing follows the instruction. |
| `Ai.BuildPromptDeterminesMode` | app/services/ai_service.py:17-22 | Prompts built for two different modes differ, whatever the text and limits, because the mode instruction follows the fixed opening. |
| `Ai.PromptLimitReadsBack` | app/services/ai_service.py:24-25 | The digits in the limit clause of the prompt read back as the caller's limit. |
| `Ai.CompressionRatio` | app/services/ai_service.py:41 | The ratio times the original count equals (original − summary)·100. The ratio is at most 100. It equals 100 exactly for an empty summary, 0 exactly for equal counts, and is negative exactly when the summary is longer. |
| `Ai.Answer` | app/services/ai_service.py:29-53 | Handles the generator's answer to the built prompt (`Ai.Summarize` asks the generator once and passes its answer here). Fails exactly when the generator fails or the text is blank. Every failure message starts with the fixed prefix and carries either the generator's error or "division by zero". On success the summary is the stripped reply, the original count is positive, and the summary count is the reply's word count. |
| `Ai.EmptyReplyIsFullCompression` | app/services/ai_service.py:36-41 | A blank reply for non-blank text succeeds with an empty summary of zero words and a ratio of 100. |
| `Worker.SummarizeTextTask` | app/workers/celery_worker.py:32-84 | The first action is mark PROCESSING, then the cache lookup. A hit returns the cached summary marked from-cache, with no generation and no write. A completed record is marked from-cache exactly when the lookup hit, so on a miss a completed record is the summariser's result, generated from the built prompt and written once under the same key. A failure writes nothing, stops at the step that failed (after the lookup for an invalid mode, after generation otherwise) and carries either the invalid-mode message or exactly the summariser's failure message, which starts with the fixed prefix. Every record carries the completion time. |
| `Worker.FailOpen` | app/workers/celery_worker.py:45-81 | With a store that raises on every call, the record equals the one from a working store that holds nothing for the request. Nothing is reported as from-cache, and the store is unchanged. |
| `Worker.CompletedIff` | app/workers/celery_worker.py:45-81 | The record is `completed` exactly when the cache hits, or when the mode is valid and summarising succeeds. |
| `Worker.SecondRunHitsCache` | app/workers/celery_worker.py:45-74 | With a working store that holds nothing live for the request, valid mode, non-blank text and an answering generator, a second run within the TTL is a cache hit with the same summary. It neither generates nor writes. |
| `Worker.WriteFailureKeepsOutcome` | app/workers/celery_worker.py:63-74 | A refused cache write leaves the record exactly as an accepted write would, and leaves the store unchanged. |
| `Routes.Prune` | app/api/routes.py:34-39 | Keeps exactly the timestamps less than one window old, each as many times as it occurs, and never grows the list. |
| `Routes.RateLimitCheck` | app/api/routes.py:27-44 | Only the client's entry is created or changed. A 429 is raised exactly when `limit` or more timestamps remain after pruning, and the pruned list is stored with nothing appended. Otherwise exactly `now` is appended. With a positive window, every stored timestamp is less than one window old. |
| `Routes.RateLimitKeepsBound` | app/api/routes.py:27-44 | If no client's list was longer than the limit, none is after a check. |
| `Routes.SummarizeSync` | app/api/routes.py:47-70 | A hit returns the cached summary and leaves the store unchanged. A success after a miss returns the summariser's result and leaves behind the store as the cache write of that result leaves it, so the result of the cache write never affects the response. A failure is a 500 whose detail is exactly the summariser's failure message, which starts with the fixed prefix, and it leaves the store unchanged. |
| `Routes.SyncAgreesWithWorker` | app/api/routes.py:47-70 | For the same text, mode value and limit, the handler and the worker leave the same store. The handler succeeds exactly when the worker completes, with the same summary, and otherwise fails with a 500 carrying the worker's error. |
| `Routes.ValidRequestFailsOnlyOnGenerator` | app/api/routes.py:47-70 | For an accepted request, the handler fails exactly when the cache misses and the generator fails. The zero-word division cannot happen. |
| `Routes.SubmitTask` | app/api/routes.py:73-89 | Fails with a 500 exactly when the broker refuses. Otherwise it acknowledges `pending` under the task id and queues the raw text, the mode value and the limit. |
| `Routes.SyncAndAsyncFieldsAgreeIffStripped` | app/api/routes.py:47-79 | For one body accepted by both schemas, the synchronous handler and the queued task use the same cache fields exactly when the text has no surrounding whitespace. |
| `Routes.GetTaskResult` | app/api/routes.py:92-137 | PENDING is reported as pending, PROCESSING as processing, SUCCESS as completed, and every other state as failed. A completion time is present exactly for completed and failed. A result is present exactly for a SUCCESS whose record is `completed`, and it is the worker's summary. A SUCCESS carries the record's completion time. An error is present exactly for failed, and it is the state's info text, with the query time as completion time. |
| `Routes.UnknownTaskReportedPending` | app/api/routes.py:96-103 | An id the backend does not know is reported exactly like a queued task. |
| `Routes.FailedTaskReportedCompleted` | app/api/routes.py:112-122 | A worker record of failure is reported as `completed`, with no result and no error. |
| `Routes.StartedTaskReportedFailed` | app/api/routes.py:98-131 | While a task is STARTED, it is reported as `failed`. A poller of a task that goes on to succeed sees pending, failed, processing, completed. |
| `Routes.GetTaskResultIntended` | app/api/routes.py:92-137 | Corrected mapping: an error is present exactly for a failed report. Pending exactly for PENDING, processing exactly for RECEIVED, STARTED and PROCESSING, `completed` exactly for a worker record of success, with the worker's summary and no error. A worker record of failure carries the worker's error. Every SUCCESS carries the record's completion time; FAILURE, RETRY and REVOKED are failed with the info text and the query time. |
| `Models.TaskStatus.Literal` | app/models.py:36-41 | Every status is reported as one of the four literals "pending", "processing", "completed" and "failed". |
| `Models.LiteralDetermines` | app/models.py:36-41 | Distinct statuses are reported as distinct literals, so a literal names exactly one status. |
| `Routes.IntendedLifecycleIsOrdered` | app/api/routes.py:98-131 | Under the corrected mapping, the statuses a poller sees never go backwards, no status before the last is terminal, and the last is `completed` exactly when the worker succeeded. A failure carries the worker's error. |

## Findings

| source | as written | input that shows it | evidently intended | confidence | as-written member | corrected member |
|---|---|---|---|---|---|---|
| app/api/routes.py:112-122 | Backend state SUCCESS is always reported `completed`. When the worker's record says `failed`, the result is dropped and no error is set. | A worker run whose generator raises returns `{"status": "failed", "error": "Failed to generate summary: ..."}`, which the backend stores as SUCCESS. | Report `failed`, with the worker's error. | high; not executed | `Routes.FailedTaskReportedCompleted` | `Routes.GetTaskResultIntended` |
| app/api/routes.py:98-131 | The worker configuration turns on started-task tracking (app/workers/celery_worker.py:25), so a task picked up by a worker is STARTED until the body marks it PROCESSING. STARTED falls through to the last branch and is reported `failed`, with a completion time. | A poll between worker pickup and the PROCESSING update. | Report STARTED (and RECEIVED) as `processing`. | medium; not executed | `Routes.StartedTaskReportedFailed` | `Routes.IntendedLifecycleIsOrdered` |

## Left out

- Redis, Celery and Gemini calls themselves. They become the abstract store, the backend map and the generator parameter. A failing store is one flag for a whole call, so a read and a later write in the same run either both work or both fail.
- MD5 and `json.dumps`/`json.loads`. The fingerprint is an arbitrary function whose values are hex digests, and its collision resistance is not modelled. Cached values come back exactly as written. Every stored value is a JSON object with five fields, so it is truthy even when its summary is empty, and the truthiness tests on a read (app/services/cache_service.py:46, app/workers/celery_worker.py:49) cannot turn a hit into a miss.
- Clocks and floats. Time is one integer `now` per call. `processing_time`, `round(..., 2)` and the `/stats` hit ratio are not modelled, and the compression ratio is an exact `real`.
- `Worker.InvalidSummaryTypeMessage`: writes the `ValueError` text with the value between single quotes. It ignores the other quoting and escaping choices Python's `repr` can make.
- The Celery hard and soft time limits, prefetch, retries and redelivery. These are queue configuration, not code, so a task stuck in PROCESSING is not modelled.
- Concurrency: races between duplicate requests, and the unsynchronised shared rate-limit table. Every operation here is one atomic step.
- The failure of the task backend itself while polling (the 500 "Failed to get task result") and inside `update_state`.
- Pydantic type coercion and missing required fields. Request bodies are taken as already typed.
- `app/main.py` (CORS, timing header, global exception handler), the `/health` and `/stats` handlers, and `app/config.py`. `CACHE_TTL`, `RATE_LIMIT_REQUESTS` and `RATE_LIMIT_WINDOW` are parameters.
- `Routes.SyncAgreesWithWorker`: the handler and the worker are compared given the same generator answer. The generator is a function here, while the real model is not deterministic, so two real calls can return different summaries.
- `Routes.RateLimitCheck`: timestamps are integers, while the source uses float seconds from `time.time()`.
- `Cache.Set`: a non-positive TTL is treated as a store error, matching the store's refusal of such an expiry.
