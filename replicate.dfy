/**
 * packages/backend-ai-replicate: running a prediction by creating it and
 * polling until it reaches a terminal status, and the model list. The
 * remote service is given as its answers: the answer to the create call and
 * the sequence of answers to successive polls, each either a prediction or
 * the error the client threw. The two-second sleep before each poll is not
 * modelled beyond the count of polls.
 */
module Replicate {
  import opened Common
  import opened Strs
  import opened Errors

  /** A prediction as the client returns it; `error` is `None` for null. */
  datatype Prediction = Prediction(id: string, status: string, output: Value, metrics: Value,
                                   logs: Value, error: Option<string>)

  /** What `runPrediction` resolves with. */
  datatype PredictionResult = PredictionResult(id: string, status: string, output: Value, metrics: Value)

  /** The argument of each `onProgress` call. */
  datatype Progress = Progress(id: string, status: string, logs: Value)

  datatype ModelEntry = ModelEntry(id: string, version: string, provider: string)

  /** `REPLICATE_MODELS`, in declaration order. */
  const Models: seq<(string, string)> := [
    ("SDXL", "stability-ai/sdxl:39ed52f2a78e934b3ba6e2a89f5b1c712de7dfea535525255b1aa35c5565e08b"),
    ("REAL_ESRGAN", "nightmareai/real-esrgan:f121d640bd286e1fdc67f9799164c1d5be36ff74576ee11c803ae5b665dd46aa")
  ]

  /** The statuses that end the poll loop. */
  predicate Terminal(status: string) {
    status == "succeeded" || status == "failed" || status == "canceled"
  }

  /** `model.split(':')[1]`: `None` stands for `undefined` when the string has no `:`. */
  function Version(model: string): (r: Option<string>)
    ensures r.None? <==> ':' !in model
  {
    var parts := Split(model, ':');
    if |parts| >= 2 then Some(parts[1]) else None
  }

  /** For `owner/model:version`, the version is the text after the colon. */
  lemma VersionAfterColon(name: string, version: string)
    requires ':' !in name && ':' !in version
    ensures Version(name + ":" + version) == Some(version)
  {
    SplitTwo(name, version, ':');
  }

  /** The catch clause: an ExternalServiceError is rethrown as it is, anything else wrapped. */
  function Wrap(e: Error): (r: Error)
    ensures r.IsExternalService() && r.service == (if e.IsExternalService() then e.service else "Replicate")
  {
    if e.IsExternalService() then e else NewExternalServiceError("Replicate", e.message)
  }

  /** A foreign error becomes a 502 whose message names the service; an ExternalServiceError is kept; wrapping twice changes nothing. */
  lemma WrapFacts(e: Error)
    ensures e.IsExternalService() ==> Wrap(e) == e
    ensures !e.IsExternalService() ==>
      Wrap(e).message == "Replicate: " + e.message && Wrap(e).statusCode == 502
      && Wrap(e).code == "EXTERNAL_SERVICE_ERROR"
    ensures Wrap(Wrap(e)) == Wrap(e)
  {
  }

  /** `result.error || 'Prediction failed'`. */
  function FailureMessage(error: Option<string>): string {
    if error.Some? && error.value != "" then error.value else "Prediction failed"
  }

  /** What a terminal prediction settles to: a failed one throws, the others resolve. */
  function Settle(p: Prediction): (r: Result<PredictionResult, Error>)
    ensures r.Err? <==> p.status == "failed"
    ensures r.Err? ==> r.error == NewExternalServiceError("Replicate", FailureMessage(p.error))
    ensures r.Ok? ==> r.value == PredictionResult(p.id, p.status, p.output, p.metrics)
  {
    if p.status == "failed" then Err(NewExternalServiceError("Replicate", FailureMessage(p.error)))
    else Ok(PredictionResult(p.id, p.status, p.output, p.metrics))
  }

  /** A failed prediction's message is `Replicate: ` and its error, or `Prediction failed` when that is empty. */
  lemma FailedMessage(p: Prediction)
    requires p.status == "failed"
    ensures Settle(p).error.message == "Replicate: " + (if p.error.Some? && p.error.value != "" then p.error.value else "Prediction failed")
    ensures Settle(p).error.statusCode == 502
  {
  }

  /** A poll answer that ends the loop: a thrown error or a terminal status. */
  predicate Stops(answer: Result<Prediction, Error>) {
    answer.Err? || Terminal(answer.value.status)
  }

  /** The index of the first poll answer that ends the loop. */
  function FirstStop(polls: seq<Result<Prediction, Error>>): (r: Option<nat>)
    ensures r.Some? ==> r.value < |polls| && Stops(polls[r.value])
    ensures r.Some? ==> forall k :: 0 <= k < r.value ==> !Stops(polls[k])
    ensures r.None? ==> forall k :: 0 <= k < |polls| ==> !Stops(polls[k])
  {
    if polls == [] then None
    else if Stops(polls[0]) then Some(0)
    else match FirstStop(polls[1..])
      case None => None
      case Some(k) => Some(k + 1)
  }

  lemma {:induction false} FirstStopAt(polls: seq<Result<Prediction, Error>>, j: nat)
    requires j < |polls| && Stops(polls[j]) && forall k :: 0 <= k < j ==> !Stops(polls[k])
    ensures FirstStop(polls) == Some(j)
  {
    if j > 0 {
      FirstStopAt(polls[1..], j - 1);
    }
  }

  /** The settled value of one answer, through the catch clause. */
  function Conclude(answer: Result<Prediction, Error>): Result<PredictionResult, Error> {
    match answer
    case Err(e) => Err(Wrap(e))
    case Ok(p) => Settle(p)
  }

  /**
   * What `runPrediction` settles to given the service's answers, or `None`
   * while it is still polling when the answers run out.
   */
  function PredictionOutcome(created: Result<Prediction, Error>, polls: seq<Result<Prediction, Error>>)
    : Option<Result<PredictionResult, Error>>
  {
    if Stops(created) then Some(Conclude(created))
    else match FirstStop(polls)
      case None => None
      case Some(k) => Some(Conclude(polls[k]))
  }

  /** How many polls are made: none after a terminal creation, one per answer up to the one that ends the loop. */
  function PollCount(created: Result<Prediction, Error>, polls: seq<Result<Prediction, Error>>): nat {
    if Stops(created) then 0
    else match FirstStop(polls)
      case None => |polls|
      case Some(k) => k + 1
  }

  /**
   * The loop stops exactly at a terminal status: every answer before the
   * deciding one was a prediction still running, and a settled outcome is
   * the deciding answer's.
   */
  lemma OutcomeIsFirstTerminal(created: Result<Prediction, Error>, polls: seq<Result<Prediction, Error>>)
    requires !Stops(created) && PredictionOutcome(created, polls).Some?
    ensures var n := PollCount(created, polls);
      1 <= n <= |polls| && Stops(polls[n - 1])
      && (forall k :: 0 <= k < n - 1 ==> polls[k].Ok? && !Terminal(polls[k].value.status))
      && PredictionOutcome(created, polls) == Some(Conclude(polls[n - 1]))
  {
  }

  /** `succeeded` and `canceled` both resolve, with the polled prediction's fields; only `failed` throws. */
  lemma TerminalResolves(p: Prediction)
    requires Terminal(p.status)
    ensures Conclude(Ok(p)).Ok? <==> p.status != "failed"
    ensures Conclude(Ok(p)).Err? ==> Conclude(Ok(p)).error.IsExternalService()
  {
  }

  /**
   * `runPrediction(model, input, onProgress)`. `reportProgress` says whether
   * `onProgress` was given; `requests` are the ids passed to each poll and
   * `progress` the arguments of each `onProgress` call.
   */
  method RunPrediction(model: string, input: Value, created: Result<Prediction, Error>,
                       polls: seq<Result<Prediction, Error>>, reportProgress: bool)
    returns (outcome: Option<Result<PredictionResult, Error>>, version: Option<string>,
             requests: seq<string>, progress: seq<Progress>)
    ensures version == Version(model)
    ensures outcome == PredictionOutcome(created, polls)
    ensures |requests| == PollCount(created, polls)
    ensures forall k :: 0 <= k < |requests| ==> created.Ok? && requests[k] == created.value.id
    ensures reportProgress ==>
      |progress| == (if |requests| > 0 && polls[|requests| - 1].Err? then |requests| - 1 else |requests|)
    ensures !reportProgress ==> progress == []
    ensures forall k :: 0 <= k < |progress| ==>
      k < |polls| && polls[k].Ok? && progress[k] == Progress(polls[k].value.id, polls[k].value.status, polls[k].value.logs)
  {
    version := Version(model);
    requests := [];
    progress := [];
    if created.Err? {
      outcome := Some(Err(Wrap(created.error)));
      return;
    }
    var result := created.value;
    var i := 0;
    while !Terminal(result.status)
      invariant 0 <= i <= |polls|
      invariant i == 0 ==> result == created.value
      invariant i > 0 ==> !Terminal(created.value.status)
      invariant i > 0 ==> polls[i - 1] == Ok(result)
      invariant forall k :: 0 <= k < i - 1 ==> polls[k].Ok? && !Terminal(polls[k].value.status)
      invariant |requests| == i && forall k :: 0 <= k < i ==> requests[k] == created.value.id
      invariant |progress| == (if reportProgress then i else 0)
      invariant forall k :: 0 <= k < |progress| ==>
        polls[k].Ok? && progress[k] == Progress(polls[k].value.id, polls[k].value.status, polls[k].value.logs)
      decreases |polls| - i
    {
      if i == |polls| {
        outcome := None;
        return;
      }
      var answer := polls[i];
      requests := requests + [created.value.id];
      i := i + 1;
      if answer.Err? {
        FirstStopAt(polls, i - 1);
        outcome := Some(Err(Wrap(answer.error)));
        return;
      }
      result := answer.value;
      if reportProgress {
        progress := progress + [Progress(result.id, result.status, result.logs)];
      }
    }
    if i > 0 {
      FirstStopAt(polls, i - 1);
    }
    var settled := Settle(result);
    if settled.Err? {
      outcome := Some(Err(Wrap(settled.error)));
    } else {
      outcome := Some(settled);
    }
  }

  /** `listModels()`: one entry per model, keyed by its name, all from this provider. */
  function ListModels(): (r: seq<ModelEntry>)
    ensures |r| == |Models|
    ensures forall i :: 0 <= i < |r| ==>
      r[i].id == Models[i].0 && r[i].version == Models[i].1 && r[i].provider == "replicate"
  {
    seq(|Models|, i requires 0 <= i < |Models| => ModelEntry(Models[i].0, Models[i].1, "replicate"))
  }
}
