/**
 * apps/worker/src/processors/ai.processor.js: the handler of `ai-generate`
 * jobs. It mirrors the job into its durable record (a table of records by
 * id), calls the provider the job names and records the outcome with the
 * elapsed time. The clock is read three times: `start` when the job begins,
 * `end` for the duration once the provider has settled, and `completedAt`
 * for the `new Date()` stored just after. The providers' remote answers are
 * parameters, as in the adapter modules.
 */
module AiProcessor {
  import opened Common
  import opened Enums
  import opened Errors
  import Replicate
  import Gemini

  /** The durable AI job record, as far as the processor writes it. */
  datatype AiJobRecord = AiJobRecord(status: RecordStatus, input: Value, output: Option<Value>,
                                     duration: Option<int>, error: Option<string>, completedAt: Option<int>)

  /** The three update documents the processor sends. */
  datatype RecordUpdate =
    | MarkProcessing
    | MarkCompleted(output: Value, duration: int, at: int)
    | MarkFailed(message: string, duration: int, at: int)

  /** The fields `processAIJob` reads from `job.data`, as the generate route enqueues them. */
  datatype AiJobData = AiJobData(jobId: string, provider: string, model: string, input: Value)

  /** What the handler resolves with. */
  datatype AiResult = AiResult(jobId: string, output: Value, duration: int)

  /** The processor's interactions with the outside, in order. */
  datatype Step =
    | Update(id: string, update: RecordUpdate)
    | CallReplicate(model: string, input: Value)
    | CallGemini(prompt: Value, model: string)

  /** One update document applied to a record: the fields it names are set, the rest kept. */
  function Apply(r: AiJobRecord, u: RecordUpdate): (q: AiJobRecord)
    ensures q.input == r.input
  {
    match u
    case MarkProcessing => r.(status := RecordProcessing)
    case MarkCompleted(output, duration, at) =>
      r.(status := RecordCompleted, output := Some(output), duration := Some(duration), completedAt := Some(at))
    case MarkFailed(message, duration, at) =>
      r.(status := RecordFailed, error := Some(message), duration := Some(duration), completedAt := Some(at))
  }

  /** `findByIdAndUpdate(id, update)`: an id with no record is left alone. */
  function UpdateById(records: map<string, AiJobRecord>, id: string, u: RecordUpdate): (r: map<string, AiJobRecord>)
    ensures r.Keys == records.Keys
    ensures forall k :: k in records && k != id ==> r[k] == records[k]
    ensures id in records ==> r[id] == Apply(records[id], u)
  {
    if id in records then records[id := Apply(records[id], u)] else records
  }

  /** The closing update for the provider's outcome. */
  function Closing(outcome: Result<Value, Error>, duration: int, at: int): RecordUpdate {
    match outcome
    case Ok(output) => MarkCompleted(output, duration, at)
    case Err(e) => MarkFailed(e.message, duration, at)
  }

  /**
   * The output the provider step produces, or `None` while a Replicate
   * prediction is still being polled: a prediction's `output` field, Gemini's
   * `{ text, usage }`, or the error for a provider the processor does not know.
   */
  function ProviderOutput(data: AiJobData, created: Result<Replicate.Prediction, Error>,
                          polls: seq<Result<Replicate.Prediction, Error>>,
                          generate: (string, Value) -> Result<Gemini.Response, Error>)
    : Option<Result<Value, Error>>
  {
    if data.provider == "replicate" then
      match Replicate.PredictionOutcome(created, polls)
      case None => None
      case Some(Ok(p)) => Some(Ok(p.output))
      case Some(Err(e)) => Some(Err(e))
    else if data.provider == "gemini" then
      match Gemini.GenerateContent(Get(data.input, "prompt"), Some(data.model), generate)
      case Ok(g) => Some(Ok(Obj([("text", Str(g.text)), ("usage", g.usage)])))
      case Err(e) => Some(Err(e))
    else Some(Err(PlainErr("Unknown AI provider: " + data.provider)))
  }

  /** A provider the processor does not know fails with a message naming it. */
  lemma UnknownProvider(data: AiJobData, created: Result<Replicate.Prediction, Error>,
                        polls: seq<Result<Replicate.Prediction, Error>>,
                        generate: (string, Value) -> Result<Gemini.Response, Error>)
    requires data.provider != "replicate" && data.provider != "gemini"
    ensures ProviderOutput(data, created, polls, generate) == Some(Err(PlainErr("Unknown AI provider: " + data.provider)))
    ensures ProviderOutput(data, created, polls, generate).value.error.message == "Unknown AI provider: " + data.provider
  {
  }

  /** For Replicate the stored output is exactly the prediction's `output`, and its errors pass through. */
  lemma ReplicateOutput(data: AiJobData, created: Result<Replicate.Prediction, Error>,
                        polls: seq<Result<Replicate.Prediction, Error>>,
                        generate: (string, Value) -> Result<Gemini.Response, Error>)
    requires data.provider == "replicate"
    ensures var o := Replicate.PredictionOutcome(created, polls);
      var p := ProviderOutput(data, created, polls, generate);
      (o.None? <==> p.None?)
      && (o.Some? && o.value.Ok? ==> p == Some(Ok(o.value.value.output)))
      && (o.Some? && o.value.Err? ==> p == Some(Err(o.value.error)) && p.value.error.IsExternalService())
  {
    var o := Replicate.PredictionOutcome(created, polls);
    if o.Some? && o.value.Err? {
      if Replicate.Stops(created) {
        assert o.value == Replicate.Conclude(created);
      } else {
        assert o.value == Replicate.Conclude(polls[Replicate.FirstStop(polls).value]);
      }
    }
  }

  /** For Gemini the output is the adapter's text and usage, generated from `input.prompt` with the job's model. */
  lemma GeminiOutput(data: AiJobData, created: Result<Replicate.Prediction, Error>,
                     polls: seq<Result<Replicate.Prediction, Error>>,
                     generate: (string, Value) -> Result<Gemini.Response, Error>)
    requires data.provider == "gemini"
    ensures var g := Gemini.GenerateContent(Get(data.input, "prompt"), Some(data.model), generate);
      var p := ProviderOutput(data, created, polls, generate);
      p.Some?
      && (g.Ok? ==> p.value.Ok? && Get(p.value.value, "text") == Str(g.value.text) && Get(p.value.value, "usage") == g.value.usage)
      && (g.Err? ==> p.value == Err(g.error))
  {
    var g := Gemini.GenerateContent(Get(data.input, "prompt"), Some(data.model), generate);
    if g.Ok? {
      var fields := [("text", Str(g.value.text)), ("usage", g.value.usage)];
      assert fields[1..] == [("usage", g.value.usage)];
      assert Lookup(fields[1..], "usage") == g.value.usage;
    }
  }

  /**
   * A record the job settles ends `completed` with the output, or `failed`
   * with the error's message, and in both cases carries the duration and
   * the completion time; the input is untouched.
   */
  lemma SettledRecord(rec: AiJobRecord, outcome: Result<Value, Error>, start: int, end: int, completedAt: int)
    ensures var q := Apply(Apply(rec, MarkProcessing), Closing(outcome, end - start, completedAt));
      q.input == rec.input && q.duration == Some(end - start) && q.completedAt == Some(completedAt)
      && (outcome.Ok? ==> q.status == RecordCompleted && q.output == Some(outcome.value) && q.error == rec.error)
      && (outcome.Err? ==> q.status == RecordFailed && q.error == Some(outcome.error.message) && q.output == rec.output)
  {
  }

  /** The record collection. */
  class AiJobStore {
    var records: map<string, AiJobRecord>

    constructor(records: map<string, AiJobRecord>)
      ensures this.records == records
    {
      this.records := records;
    }

    method FindByIdAndUpdate(id: string, u: RecordUpdate)
      modifies this
      ensures records == UpdateById(old(records), id, u)
    {
      records := UpdateById(records, id, u);
    }
  }

  /**
   * `processAIJob(job)`. The result is `None` while a Replicate prediction
   * is still being polled; otherwise the job's result or the error it
   * rethrows. `trace` lists the record updates and provider calls in order.
   */
  method ProcessAIJob(store: AiJobStore, data: AiJobData, start: int, end: int, completedAt: int,
                      created: Result<Replicate.Prediction, Error>, polls: seq<Result<Replicate.Prediction, Error>>,
                      generate: (string, Value) -> Result<Gemini.Response, Error>)
    returns (r: Option<Result<AiResult, Error>>, trace: seq<Step>)
    modifies store
    ensures |trace| >= 1 && trace[0] == Update(data.jobId, MarkProcessing)
    ensures data.provider == "replicate" ==> |trace| >= 2 && trace[1] == CallReplicate(data.model, data.input)
    ensures data.provider == "gemini" ==> |trace| >= 2 && trace[1] == CallGemini(Get(data.input, "prompt"), data.model)
    ensures var out := ProviderOutput(data, created, polls, generate);
      var processing := UpdateById(old(store.records), data.jobId, MarkProcessing);
      (out.None? ==> r.None? && store.records == processing)
      && (out.Some? ==>
            store.records == UpdateById(processing, data.jobId, Closing(out.value, end - start, completedAt))
            && trace[|trace| - 1] == Update(data.jobId, Closing(out.value, end - start, completedAt))
            && (out.value.Ok? ==> r == Some(Ok(AiResult(data.jobId, out.value.value, end - start))))
            && (out.value.Err? ==> r == Some(Err(out.value.error))))
  {
    store.FindByIdAndUpdate(data.jobId, MarkProcessing);
    trace := [Update(data.jobId, MarkProcessing)];
    var output: Result<Value, Error>;
    if data.provider == "replicate" {
      trace := trace + [CallReplicate(data.model, data.input)];
      var outcome, _, _, _ := Replicate.RunPrediction(data.model, data.input, created, polls, false);
      if outcome.None? {
        return None, trace;
      }
      match outcome.value
      case Ok(p) => output := Ok(p.output);
      case Err(e) => output := Err(e);
    } else if data.provider == "gemini" {
      trace := trace + [CallGemini(Get(data.input, "prompt"), data.model)];
      var g := Gemini.GenerateContent(Get(data.input, "prompt"), Some(data.model), generate);
      match g
      case Ok(res) => output := Ok(Obj([("text", Str(res.text)), ("usage", res.usage)]));
      case Err(e) => output := Err(e);
    } else {
      output := Err(PlainErr("Unknown AI provider: " + data.provider));
    }
    var duration := end - start;
    var closing := Closing(output, duration, completedAt);
    store.FindByIdAndUpdate(data.jobId, closing);
    trace := trace + [Update(data.jobId, closing)];
    match output
    case Ok(v) => r := Some(Ok(AiResult(data.jobId, v, duration)));
    case Err(e) => r := Some(Err(e));
  }
}
