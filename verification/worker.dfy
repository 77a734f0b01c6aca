/** The background summarisation task: it marks itself PROCESSING, looks the
    request up in the cache, generates on a miss, writes the cache, and
    returns an outcome record; every exception becomes a `failed` record. */
module Worker {
  import opened Wrappers
  import opened Text
  import opened Models
  import Cache
  import Ai

  /** The externally visible actions of one run, in order. */
  datatype Step =
    | MarkProcessing
    | CacheLookup(key: string)
    | Generate(prompt: string)
    | CacheWrite(key: string)

  /** The dictionary the task returns; `completedAt` is the clock at return. */
  datatype TaskRecord =
    | CompletedRecord(result: SummarizeResponse, fromCache: bool, completedAt: int)
    | FailedRecord(error: string, completedAt: int)

  /** One run: the store afterwards, the actions taken, and the record. */
  datatype TaskRun = TaskRun(store: Cache.Store, steps: seq<Step>, record: TaskRecord)

  /** The message of the `ValueError` raised by `SummaryType(s)` for an
      unknown value. */
  function InvalidSummaryTypeMessage(s: string): string {
    "'" + s + "' is not a valid SummaryType"
  }

  /** `summarize_text_task`, with the whole run at clock `now`. */
  function SummarizeTextTask(cfg: Cache.CacheConfig, generate: Ai.Generator, store: Cache.Store, now: int,
                             text: string, summaryType: string, maxWords: Option<int>): (run: TaskRun)
    ensures |run.steps| >= 2 && run.steps[0] == MarkProcessing
    ensures run.steps[1] == CacheLookup(Cache.GenerateKey(cfg.md5, Cache.KeyFields(text, summaryType, maxWords)))
    ensures run.record.completedAt == now
    // a hit: the cached summary, nothing generated, nothing written
    ensures Cache.Get(cfg, store, now, Cache.KeyFields(text, summaryType, maxWords)).Some? ==>
      && run.record == CompletedRecord(Cache.Get(cfg, store, now, Cache.KeyFields(text, summaryType, maxWords)).value, true, now)
      && run.store == store
      && |run.steps| == 2
    // a miss: a fresh summary, written once under the same key
    ensures run.record.CompletedRecord? && !run.record.fromCache ==>
      && ParseSummaryType(summaryType).Some?
      && Ai.Summarize(text, ParseSummaryType(summaryType).value, maxWords, generate) == Success(run.record.result)
      && run.store == Cache.Set(cfg, store, now, Cache.KeyFields(text, summaryType, maxWords), run.record.result).store
      && run.steps[2..] == [Generate(Ai.BuildPrompt(text, ParseSummaryType(summaryType).value, maxWords)),
                            CacheWrite(Cache.GenerateKey(cfg.md5, Cache.KeyFields(text, summaryType, maxWords)))]
    // a completed record is marked as coming from the cache exactly on a hit
    ensures run.record.CompletedRecord? ==>
      (run.record.fromCache <==> Cache.Get(cfg, store, now, Cache.KeyFields(text, summaryType, maxWords)).Some?)
    // a failure: nothing written, the run stops at the failing step, and the
    // message says which step failed
    ensures run.record.FailedRecord? ==>
      && run.store == store
      && (if ParseSummaryType(summaryType).None?
          then |run.steps| == 2 && run.record.error == InvalidSummaryTypeMessage(summaryType)
          else
            && |run.steps| == 3
            && run.steps[2] == Generate(Ai.BuildPrompt(text, ParseSummaryType(summaryType).value, maxWords))
            && StartsWith(run.record.error, Ai.ErrorPrefix)
            && Ai.Summarize(text, ParseSummaryType(summaryType).value, maxWords, generate) == Failure(run.record.error))
  {
    var fields := Cache.KeyFields(text, summaryType, maxWords);
    var key := Cache.GenerateKey(cfg.md5, fields);
    var steps := [MarkProcessing, CacheLookup(key)];
    match Cache.Get(cfg, store, now, fields)
    case Some(cached) => TaskRun(store, steps, CompletedRecord(cached, true, now))
    case None =>
      match ParseSummaryType(summaryType)
      case None => TaskRun(store, steps, FailedRecord(InvalidSummaryTypeMessage(summaryType), now))
      case Some(t) =>
        var prompt := Ai.BuildPrompt(text, t, maxWords);
        match Ai.Summarize(text, t, maxWords, generate)
        case Failure(e) => TaskRun(store, steps + [Generate(prompt)], FailedRecord(e, now))
        case Success(result) =>
          var written := Cache.Set(cfg, store, now, fields, result);
          TaskRun(written.store, steps + [Generate(prompt), CacheWrite(key)], CompletedRecord(result, false, now))
  }

  /** A miss is a miss whatever its cause: with a store that raises on every
      call the record is what it would be with a healthy store that holds
      nothing live for the request, so a cache outage never changes an
      outcome, and a summary is never reported as coming from the cache. */
  lemma FailOpen(cfg: Cache.CacheConfig, generate: Ai.Generator, store: Cache.Store, healthy: Cache.Store, now: int,
                 text: string, summaryType: string, maxWords: Option<int>)
    requires store.failing
    requires !healthy.failing
    requires !Cache.Live(healthy, Cache.GenerateKey(cfg.md5, Cache.KeyFields(text, summaryType, maxWords)), now)
    ensures
      var r := SummarizeTextTask(cfg, generate, store, now, text, summaryType, maxWords);
      && r.record == SummarizeTextTask(cfg, generate, healthy, now, text, summaryType, maxWords).record
      && r.store == store
      && (r.record.CompletedRecord? ==> !r.record.fromCache)
  {
  }

  /** The record is `completed` exactly when the request hits the cache, or
      the mode is valid and the summariser succeeds. */
  lemma CompletedIff(cfg: Cache.CacheConfig, generate: Ai.Generator, store: Cache.Store, now: int,
                     text: string, summaryType: string, maxWords: Option<int>)
    ensures
      var fields := Cache.KeyFields(text, summaryType, maxWords);
      var t := ParseSummaryType(summaryType);
      SummarizeTextTask(cfg, generate, store, now, text, summaryType, maxWords).record.CompletedRecord?
      <==>
      || Cache.Get(cfg, store, now, fields).Some?
      || (t.Some? && Ai.Summarize(text, t.value, maxWords, generate).Success?)
  {
  }

  /** Running the same request twice within the TTL, with a working store
      that holds nothing live for it and a generator that answers: the first
      run computes and writes, the second is served from the cache
      with the same summary and without generating. */
  lemma SecondRunHitsCache(cfg: Cache.CacheConfig, generate: Ai.Generator, store: Cache.Store, t1: int, t2: int,
                           text: string, summaryType: string, maxWords: Option<int>)
    requires !store.failing && cfg.ttl > 0
    requires t1 <= t2 < t1 + cfg.ttl
    requires !Cache.Live(store, Cache.GenerateKey(cfg.md5, Cache.KeyFields(text, summaryType, maxWords)), t1)
    requires ParseSummaryType(summaryType).Some? && !AllSpace(text)
    requires generate(Ai.BuildPrompt(text, ParseSummaryType(summaryType).value, maxWords)).Success?
    ensures
      var first := SummarizeTextTask(cfg, generate, store, t1, text, summaryType, maxWords);
      var second := SummarizeTextTask(cfg, generate, first.store, t2, text, summaryType, maxWords);
      && second.record == CompletedRecord(first.record.result, true, t2)
      && second.store == first.store
      && |second.steps| == 2
  {
    var first := SummarizeTextTask(cfg, generate, store, t1, text, summaryType, maxWords);
    Cache.GetAfterSet(cfg, store, t1, t2, Cache.KeyFields(text, summaryType, maxWords), first.record.result);
  }

  /** A failed cache write does not change a `completed` outcome: the record
      is the same whether the write succeeds or the store refuses it. */
  lemma WriteFailureKeepsOutcome(cfg: Cache.CacheConfig, generate: Ai.Generator, store: Cache.Store, now: int,
                                 text: string, summaryType: string, maxWords: Option<int>)
    requires !store.failing && cfg.ttl <= 0
    ensures
      var refused := SummarizeTextTask(cfg, generate, store, now, text, summaryType, maxWords);
      var accepted := SummarizeTextTask(Cache.CacheConfig(cfg.md5, 1), generate, store, now, text, summaryType, maxWords);
      refused.record == accepted.record && refused.store == store
  {
  }
}
