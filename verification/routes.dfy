/** The HTTP handlers around the core: the per-client sliding-window rate
    limiter, the synchronous summarise handler, task submission, and the
    mapping of task-backend states to the statuses callers see. */
module Routes {
  import opened Wrappers
  import opened Text
  import opened Models
  import Cache
  import Ai
  import Worker

  /** An `HTTPException`: status code and detail text. */
  datatype HttpError = HttpError(status: int, detail: string)

  // ---------------------------------------------------------------------
  // rate_limit_check

  /** The timestamps of `ts` still inside the window ending at `now`, in order. */
  function Prune(ts: seq<int>, now: int, window: int): (kept: seq<int>)
    ensures |kept| <= |ts|
    ensures forall i :: 0 <= i < |kept| ==> now - kept[i] < window && kept[i] in ts
    ensures forall i :: 0 <= i < |ts| ==> (now - ts[i] < window <==> ts[i] in kept)
    ensures forall x :: multiset(kept)[x] == if now - x < window then multiset(ts)[x] else 0
  {
    assert ts != [] ==> ts == [ts[0]] + ts[1..];
    if ts == [] then []
    else (if now - ts[0] < window then [ts[0]] else []) + Prune(ts[1..], now, window)
  }

  /** The client's list as the check first sees it: empty for a new client. */
  function History(counts: map<string, seq<int>>, ip: string): seq<int> {
    if ip in counts then counts[ip] else []
  }

  /** The table after a check, and the 429 raised when the client is over. */
  datatype RateLimitOutcome = RateLimitOutcome(counts: map<string, seq<int>>, rejection: Option<HttpError>)

  /** `rate_limit_check`: drop the client's timestamps that fell out of the
      window, reject when `limit` or more remain, otherwise record `now`.
      The pruned list is stored even when the request is rejected. */
  function RateLimitCheck(counts: map<string, seq<int>>, ip: string, now: int, limit: int, window: int)
    : (r: RateLimitOutcome)
    ensures r.counts.Keys == counts.Keys + {ip}
    ensures forall other :: other in counts && other != ip ==> r.counts[other] == counts[other]
    ensures r.rejection.Some? <==> |Prune(History(counts, ip), now, window)| >= limit
    ensures r.rejection.Some? ==> r.rejection.value == HttpError(429, "Rate limit exceeded")
    ensures r.rejection.Some? ==> r.counts[ip] == Prune(History(counts, ip), now, window)
    ensures r.rejection.None? ==> r.counts[ip] == Prune(History(counts, ip), now, window) + [now]
    ensures window > 0 ==> forall i :: 0 <= i < |r.counts[ip]| ==> now - r.counts[ip][i] < window
  {
    var kept := Prune(History(counts, ip), now, window);
    if |kept| >= limit then RateLimitOutcome(counts[ip := kept], Some(HttpError(429, "Rate limit exceeded")))
    else RateLimitOutcome(counts[ip := kept + [now]], None)
  }

  /** No client's list is longer than the limit (or than zero, for a
      non-positive limit). */
  predicate WithinLimit(counts: map<string, seq<int>>, limit: int) {
    forall ip :: ip in counts ==> |counts[ip]| <= if limit < 0 then 0 else limit
  }

  /** The check keeps every list within the limit. */
  lemma RateLimitKeepsBound(counts: map<string, seq<int>>, ip: string, now: int, limit: int, window: int)
    requires WithinLimit(counts, limit)
    ensures WithinLimit(RateLimitCheck(counts, ip, now, limit, window).counts, limit)
  {
    var r := RateLimitCheck(counts, ip, now, limit, window);
    forall other | other in r.counts
      ensures |r.counts[other]| <= if limit < 0 then 0 else limit
    {
      if other == ip {
        assert |Prune(History(counts, ip), now, window)| <= |History(counts, ip)|;
      }
    }
  }

  // ---------------------------------------------------------------------
  // summarize_text (synchronous)

  /** The store afterwards, and the response or the raised HTTP error. */
  datatype SyncOutcome = SyncOutcome(store: Cache.Store, response: Result<SummarizeResponse, HttpError>)

  function FieldsOf(req: SummarizeRequest): Cache.KeyFields {
    Cache.KeyFields(req.text, req.summaryType.Value(), req.maxWords)
  }

  /** The synchronous handler: the cached summary on a hit; otherwise generate,
      write the cache whatever the write returns, and answer; a generation
      failure becomes a 500 carrying its message. */
  function SummarizeSync(cfg: Cache.CacheConfig, generate: Ai.Generator, store: Cache.Store, now: int,
                         req: SummarizeRequest): (r: SyncOutcome)
    ensures Cache.Get(cfg, store, now, FieldsOf(req)).Some? ==>
      r == SyncOutcome(store, Success(Cache.Get(cfg, store, now, FieldsOf(req)).value))
    ensures Cache.Get(cfg, store, now, FieldsOf(req)).None? && r.response.Success? ==>
      && Ai.Summarize(req.text, req.summaryType, req.maxWords, generate) == Success(r.response.value)
      && r.store == Cache.Set(cfg, store, now, FieldsOf(req), r.response.value).store
    ensures r.response.Failure? ==>
      && r.store == store
      && r.response.error.status == 500
      && StartsWith(r.response.error.detail, Ai.ErrorPrefix)
      && Ai.Summarize(req.text, req.summaryType, req.maxWords, generate) == Failure(r.response.error.detail)
  {
    match Cache.Get(cfg, store, now, FieldsOf(req))
    case Some(cached) => SyncOutcome(store, Success(cached))
    case None =>
      match Ai.Summarize(req.text, req.summaryType, req.maxWords, generate)
      case Failure(e) => SyncOutcome(store, Failure(HttpError(500, e)))
      case Success(result) =>
        var written := Cache.Set(cfg, store, now, FieldsOf(req), result);
        SyncOutcome(written.store, Success(result))
  }

  /** The synchronous handler runs the worker's cache-aside logic: for the
      same text, mode value and limit it leaves the same store behind, answers
      with the summary the worker records, and fails with the worker's error. */
  lemma SyncAgreesWithWorker(cfg: Cache.CacheConfig, generate: Ai.Generator, store: Cache.Store, now: int,
                             req: SummarizeRequest)
    ensures
      var sync := SummarizeSync(cfg, generate, store, now, req);
      var run := Worker.SummarizeTextTask(cfg, generate, store, now, req.text, req.summaryType.Value(), req.maxWords);
      && sync.store == run.store
      && (sync.response.Success? <==> run.record.CompletedRecord?)
      && (sync.response.Success? ==> sync.response.value == run.record.result)
      && (sync.response.Failure? ==> sync.response.error == HttpError(500, run.record.error))
  {
    ParseSummaryTypeRoundTrip(req.summaryType);
  }

  /** For a request the schema accepted, the only way the handler fails is a
      miss followed by a generator failure: the division by a zero word count
      cannot happen, because accepted text is never blank. */
  lemma ValidRequestFailsOnlyOnGenerator(cfg: Cache.CacheConfig, generate: Ai.Generator, store: Cache.Store, now: int,
                                         raw: RawRequest)
    requires ParseSummarizeRequest(raw).Success?
    ensures
      var req := ParseSummarizeRequest(raw).value;
      SummarizeSync(cfg, generate, store, now, req).response.Failure? <==>
        && Cache.Get(cfg, store, now, FieldsOf(req)).None?
        && generate(Ai.BuildPrompt(req.text, req.summaryType, req.maxWords)).Failure?
  {
    ParsedRequestIsValid(raw);
  }

  // ---------------------------------------------------------------------
  // submit_summarization_task

  /** What is queued for the worker: the arguments of the task call. */
  datatype QueuedTask = QueuedTask(taskId: string, text: string, summaryType: string, maxWords: Option<int>)

  /** The acknowledgement returned to the submitter. */
  datatype TaskResponse = TaskResponse(taskId: string, status: TaskStatus, message: string)

  datatype Submission = Submission(queued: QueuedTask, response: TaskResponse)

  /** `submit_summarization_task`: queue the request under a fresh id, or
      answer 500 when the broker refuses it. The id and the broker's failure
      are inputs. */
  function SubmitTask(req: TaskSubmitRequest, taskId: string, brokerError: Option<string>)
    : (r: Result<Submission, HttpError>)
    ensures r.Failure? <==> brokerError.Some?
    ensures r.Failure? ==> r.error == HttpError(500, "Failed to submit task: " + brokerError.value)
    ensures r.Success? ==> r.value.response.status == Pending && r.value.response.taskId == taskId
    ensures r.Success? ==> r.value.queued == QueuedTask(taskId, req.text, req.summaryType.Value(), req.maxWords)
  {
    match brokerError
    case Some(e) => Failure(HttpError(500, "Failed to submit task: " + e))
    case None =>
      Success(Submission(QueuedTask(taskId, req.text, req.summaryType.Value(), req.maxWords),
                         TaskResponse(taskId, Pending, "Task submitted successfully")))
  }

  /** The same body sent to both endpoints is looked up under the same cache
      fields only when its text has no surrounding whitespace: the synchronous
      schema strips the text, the asynchronous one does not. */
  lemma SyncAndAsyncFieldsAgreeIffStripped(raw: RawRequest, taskId: string)
    requires ParseSummarizeRequest(raw).Success?
    ensures
      var sync := ParseSummarizeRequest(raw).value;
      var async := ParseTaskSubmitRequest(raw).value;
      var queued := SubmitTask(async, taskId, None).value.queued;
      FieldsOf(sync) == Cache.KeyFields(queued.text, queued.summaryType, queued.maxWords)
      <==> Strip(raw.text) == raw.text
  {
    SyncAcceptedIsAsyncAccepted(raw);
    var sync := ParseSummarizeRequest(raw).value;
    var async := ParseTaskSubmitRequest(raw).value;
    assert async.text == raw.text && sync.text == Strip(raw.text);
    assert sync.summaryType == async.summaryType && sync.maxWords == async.maxWords;
  }

  // ---------------------------------------------------------------------
  // get_task_result

  /** The task backend's state for an id. A task that is unknown to the
      backend reads as PENDING. `info` is the text of the state's metadata. */
  datatype BackendState =
    | PENDING
    | RECEIVED(info: string)
    | STARTED(info: string)
    | PROCESSING
    | SUCCESS(record: Worker.TaskRecord)
    | FAILURE(info: string)
    | RETRY(info: string)
    | REVOKED(info: string)

  function StateOf(backend: map<string, BackendState>, taskId: string): BackendState {
    if taskId in backend then backend[taskId] else PENDING
  }

  /** The report returned to a poller. `createdAt` is the clock at the query. */
  datatype TaskResultResponse = TaskResultResponse(
    taskId: string,
    status: TaskStatus,
    result: Option<SummarizeResponse>,
    error: Option<string>,
    createdAt: int,
    completedAt: Option<int>)

  /** `get_task_result` as written. */
  function GetTaskResult(backend: map<string, BackendState>, taskId: string, now: int): (r: TaskResultResponse)
    ensures r.taskId == taskId && r.createdAt == now
    ensures r.status == Pending <==> StateOf(backend, taskId) == PENDING
    ensures r.status == Processing <==> StateOf(backend, taskId) == PROCESSING
    ensures r.status == Completed <==> StateOf(backend, taskId).SUCCESS?
    ensures r.status == Failed <==>
      !(StateOf(backend, taskId) == PENDING || StateOf(backend, taskId) == PROCESSING || StateOf(backend, taskId).SUCCESS?)
    ensures r.completedAt.Some? <==> r.status == Completed || r.status == Failed
    ensures r.result.Some? <==>
      StateOf(backend, taskId).SUCCESS? && StateOf(backend, taskId).record.CompletedRecord?
    ensures r.error.Some? <==> r.status == Failed
    ensures r.result.Some? ==> r.result.value == StateOf(backend, taskId).record.result
    ensures StateOf(backend, taskId).SUCCESS? ==> r.completedAt == Some(StateOf(backend, taskId).record.completedAt)
    ensures r.status == Failed ==> r.completedAt == Some(now) && r.error == Some(StateOf(backend, taskId).info)
  {
    match StateOf(backend, taskId)
    case PENDING => TaskResultResponse(taskId, Pending, None, None, now, None)
    case PROCESSING => TaskResultResponse(taskId, Processing, None, None, now, None)
    case SUCCESS(record) =>
      TaskResultResponse(taskId, Completed,
                         if record.CompletedRecord? then Some(record.result) else None,
                         None, now, Some(record.completedAt))
    case RECEIVED(info) => TaskResultResponse(taskId, Failed, None, Some(info), now, Some(now))
    case STARTED(info) => TaskResultResponse(taskId, Failed, None, Some(info), now, Some(now))
    case FAILURE(info) => TaskResultResponse(taskId, Failed, None, Some(info), now, Some(now))
    case RETRY(info) => TaskResultResponse(taskId, Failed, None, Some(info), now, Some(now))
    case REVOKED(info) => TaskResultResponse(taskId, Failed, None, Some(info), now, Some(now))
  }

  /** An id the backend has never seen is reported exactly like a queued
      task: `pending`, not "not found". */
  lemma UnknownTaskReportedPending(backend: map<string, BackendState>, taskId: string, now: int)
    requires taskId !in backend
    ensures GetTaskResult(backend, taskId, now) == TaskResultResponse(taskId, Pending, None, None, now, None)
  {
  }

  /** Because the worker returns its failures as a value, the backend stores
      them as SUCCESS, and the poller is told `completed` with neither a
      result nor an error. */
  lemma FailedTaskReportedCompleted(backend: map<string, BackendState>, taskId: string, now: int,
                                    error: string, completedAt: int)
    requires StateOf(backend, taskId) == SUCCESS(Worker.FailedRecord(error, completedAt))
    ensures GetTaskResult(backend, taskId, now)
      == TaskResultResponse(taskId, Completed, None, None, now, Some(completedAt))
  {
  }

  /** The states one task goes through: queued, STARTED when a worker picks it
      up (tracking of started tasks is on), PROCESSING once the task body
      runs, then SUCCESS with whatever record the body returned. */
  function Lifecycle(startedInfo: string, record: Worker.TaskRecord): (states: seq<BackendState>)
    ensures |states| == 4 && states[0] == PENDING && states[|states| - 1] == SUCCESS(record)
  {
    [PENDING, STARTED(startedInfo), PROCESSING, SUCCESS(record)]
  }

  function StatusesSeen(states: seq<BackendState>, taskId: string, now: int,
                        report: (map<string, BackendState>, string, int) -> TaskResultResponse): (ss: seq<TaskStatus>)
    ensures |ss| == |states|
    ensures forall i :: 0 <= i < |ss| ==> ss[i] == report(map[taskId := states[i]], taskId, now).status
  {
    seq(|states|, i requires 0 <= i < |states| => report(map[taskId := states[i]], taskId, now).status)
  }

  /** As written, a poller watching a task that will succeed sees `pending`,
      then `failed` while the task is STARTED, then `processing`, then
      `completed`: a terminal status that is later left. */
  lemma StartedTaskReportedFailed(startedInfo: string, record: Worker.TaskRecord, taskId: string, now: int)
    ensures StatusesSeen(Lifecycle(startedInfo, record), taskId, now, GetTaskResult)
      == [Pending, Failed, Processing, Completed]
  {
    var ss := StatusesSeen(Lifecycle(startedInfo, record), taskId, now, GetTaskResult);
    assert ss[0] == Pending && ss[1] == Failed && ss[2] == Processing && ss[3] == Completed;
  }

  /** The evident intent: STARTED and RECEIVED are still in progress, and a
      record of failure is a failed task that carries its error. */
  function GetTaskResultIntended(backend: map<string, BackendState>, taskId: string, now: int)
    : (r: TaskResultResponse)
    ensures r.taskId == taskId && r.createdAt == now
    ensures r.status == Completed <==>
      StateOf(backend, taskId).SUCCESS? && StateOf(backend, taskId).record.CompletedRecord?
    ensures r.status == Completed ==> r.result.Some? && r.error.None?
    ensures r.status == Failed ==> r.error.Some? && r.result.None?
    ensures r.completedAt.Some? <==> r.status == Completed || r.status == Failed
    ensures r.result.Some? <==> r.status == Completed
    ensures r.error.Some? <==> r.status == Failed
    ensures r.status == Pending <==> StateOf(backend, taskId) == PENDING
    ensures r.status == Processing <==>
      StateOf(backend, taskId).RECEIVED? || StateOf(backend, taskId).STARTED? || StateOf(backend, taskId) == PROCESSING
    ensures r.result.Some? ==> r.result.value == StateOf(backend, taskId).record.result
    ensures StateOf(backend, taskId).SUCCESS? ==>
      && r.completedAt == Some(StateOf(backend, taskId).record.completedAt)
      && (StateOf(backend, taskId).record.FailedRecord? ==> r.error == Some(StateOf(backend, taskId).record.error))
    ensures StateOf(backend, taskId).FAILURE? || StateOf(backend, taskId).RETRY? || StateOf(backend, taskId).REVOKED? ==>
      r.status == Failed && r.completedAt == Some(now) && r.error == Some(StateOf(backend, taskId).info)
  {
    match StateOf(backend, taskId)
    case PENDING => TaskResultResponse(taskId, Pending, None, None, now, None)
    case RECEIVED(_) => TaskResultResponse(taskId, Processing, None, None, now, None)
    case STARTED(_) => TaskResultResponse(taskId, Processing, None, None, now, None)
    case PROCESSING => TaskResultResponse(taskId, Processing, None, None, now, None)
    case SUCCESS(record) =>
      (match record
       case CompletedRecord(result, _, at) => TaskResultResponse(taskId, Completed, Some(result), None, now, Some(at))
       case FailedRecord(error, at) => TaskResultResponse(taskId, Failed, None, Some(error), now, Some(at)))
    case FAILURE(info) => TaskResultResponse(taskId, Failed, None, Some(info), now, Some(now))
    case RETRY(info) => TaskResultResponse(taskId, Failed, None, Some(info), now, Some(now))
    case REVOKED(info) => TaskResultResponse(taskId, Failed, None, Some(info), now, Some(now))
  }

  /** Ordering of reported statuses: pending, then processing, then a
      terminal status. */
  function Rank(s: TaskStatus): nat {
    match s
    case Pending => 0
    case Processing => 1
    case Completed => 2
    case Failed => 2
  }

  /** With the intended mapping, a poller sees the statuses in order, never
      leaves a terminal status, and the final status says whether the worker
      succeeded, with the worker's error when it did not. */
  lemma IntendedLifecycleIsOrdered(startedInfo: string, record: Worker.TaskRecord, taskId: string, now: int)
    ensures
      var ss := StatusesSeen(Lifecycle(startedInfo, record), taskId, now, GetTaskResultIntended);
      && (forall i, j :: 0 <= i < j < |ss| ==> Rank(ss[i]) <= Rank(ss[j]))
      && (forall i :: 0 <= i < |ss| - 1 ==> Rank(ss[i]) < 2)
      && (ss[|ss| - 1] == Completed <==> record.CompletedRecord?)
    ensures record.FailedRecord? ==>
      GetTaskResultIntended(map[taskId := SUCCESS(record)], taskId, now).error == Some(record.error)
  {
    var ss := StatusesSeen(Lifecycle(startedInfo, record), taskId, now, GetTaskResultIntended);
    assert ss[0] == Pending && ss[1] == Processing && ss[2] == Processing;
    assert ss[3] == if record.CompletedRecord? then Completed else Failed;
  }
}
