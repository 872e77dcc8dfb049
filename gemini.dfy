/**
 * packages/backend-ai-gemini: one-shot generation, streamed generation and
 * the model list. The client library is given as its answers: `generate`
 * stands for `getGenerativeModel({ model }).generateContent(prompt)`, and
 * the stream as the sequence of its chunks, each the chunk's text or the
 * error thrown while reading it.
 */
module Gemini {
  import opened Common
  import opened Errors
  import Seqs

  const Flash: string := "gemini-2.0-flash"
  const Pro: string := "gemini-2.0-pro"

  /** `GEMINI_MODELS`, in declaration order. */
  const Models: seq<(string, string)> := [("FLASH", Flash), ("PRO", Pro)]

  datatype ModelEntry = ModelEntry(id: string, model: string, provider: string)

  /** `result.response`: `text()` either returns the text or throws. */
  datatype Response = Response(text: Result<string, Error>, usageMetadata: Value)

  /** What `generateContent` resolves with. */
  datatype Generated = Generated(text: string, usage: Value)

  /** `{ model = GEMINI_MODELS.FLASH } = {}`: the model used when the option is not given. */
  function ModelName(model: Option<string>): (r: string)
    ensures model.None? ==> r == Flash
    ensures model.Some? ==> r == model.value
  {
    if model.Some? then model.value else Flash
  }

  /** The message V8 gives the TypeError of reading `length` from `undefined` or `null`. */
  function LengthTypeError(prompt: Value): string
    requires Nullish(prompt)
  {
    "Cannot read properties of " + (if prompt.Undefined? then "undefined" else "null") + " (reading 'length')"
  }

  /** The catch clause of both generators: every error is wrapped, whatever its class. */
  function Wrap(e: Error): (r: Error)
    ensures r == NewExternalServiceError("Gemini", e.message)
  {
    NewExternalServiceError("Gemini", e.message)
  }

  /**
   * `generateContent(prompt, { model })`. Reading `prompt.length` throws
   * before the client is called when the prompt is undefined or null.
   */
  function GenerateContent(prompt: Value, model: Option<string>, generate: (string, Value) -> Result<Response, Error>)
    : (r: Result<Generated, Error>)
    ensures Nullish(prompt) ==> r == Err(Wrap(PlainError("TypeError", LengthTypeError(prompt), Undefined)))
    ensures !Nullish(prompt) ==>
      var answer := generate(ModelName(model), prompt);
      (r.Ok? <==> answer.Ok? && answer.value.text.Ok?)
      && (answer.Err? ==> r == Err(Wrap(answer.error)))
      && (answer.Ok? && answer.value.text.Err? ==> r == Err(Wrap(answer.value.text.error)))
      && (r.Ok? ==> r.value.text == answer.value.text.value
                    && (Truthy(answer.value.usageMetadata) ==> r.value.usage == answer.value.usageMetadata)
                    && (!Truthy(answer.value.usageMetadata) ==> r.value.usage == EmptyObject))
  {
    if Nullish(prompt) then Err(Wrap(PlainError("TypeError", LengthTypeError(prompt), Undefined)))
    else match generate(ModelName(model), prompt)
      case Err(e) => Err(Wrap(e))
      case Ok(response) =>
        match response.text
        case Err(e) => Err(Wrap(e))
        case Ok(text) => Ok(Generated(text, Or(response.usageMetadata, EmptyObject)))
  }

  /**
   * The usage of a result is always an object or another truthy value, and
   * every failure is a 502 whose message is the cause's prefixed with `Gemini: `.
   */
  lemma GenerateContentFacts(prompt: Value, model: Option<string>, generate: (string, Value) -> Result<Response, Error>)
    ensures var r := GenerateContent(prompt, model, generate);
      (r.Ok? ==> Truthy(r.value.usage))
      && (r.Err? ==> r.error.IsExternalService() && r.error.statusCode == 502 && r.error.service == "Gemini"
                     && r.error.message[..8] == "Gemini: ")
  {
  }

  /** A chunk with text is yielded; an empty one is skipped (`if (text)`). */
  predicate NonEmptyText(t: string) {
    t != ""
  }

  /** The texts of the chunks read before the first error. */
  function TextsBefore(chunks: seq<Result<string, Error>>): seq<string> {
    if chunks == [] || chunks[0].Err? then [] else [chunks[0].value] + TextsBefore(chunks[1..])
  }

  /** The first error met while reading the chunks. */
  function FirstFailure(chunks: seq<Result<string, Error>>): Option<Error> {
    if chunks == [] then None else if chunks[0].Err? then Some(chunks[0].error) else FirstFailure(chunks[1..])
  }

  /** Chunks read without error contribute their texts in order and no failure. */
  lemma {:induction false} ReadAppend(a: seq<Result<string, Error>>, b: seq<Result<string, Error>>)
    requires forall k :: 0 <= k < |a| ==> a[k].Ok?
    ensures TextsBefore(a + b) == TextsBefore(a) + TextsBefore(b)
    ensures FirstFailure(a + b) == FirstFailure(b)
  {
    if a != [] {
      assert (a + b)[1..] == a[1..] + b;
      ReadAppend(a[1..], b);
    } else {
      assert a + b == b;
    }
  }

  /**
   * `streamContent(prompt, { model })`, run to its end. `open` gives the
   * answer to `generateContentStream` for the model used; `yielded` are the
   * texts the generator yields, in order, and `failure` the error it throws.
   * As in `generateContent`, reading `prompt.length` throws first for an
   * undefined or null prompt.
   */
  method StreamContent(prompt: Value, model: Option<string>,
                       open: (string, Value) -> Result<seq<Result<string, Error>>, Error>)
    returns (yielded: seq<string>, failure: Option<Error>)
    ensures Nullish(prompt) ==>
      yielded == [] && failure == Some(Wrap(PlainError("TypeError", LengthTypeError(prompt), Undefined)))
    ensures !Nullish(prompt) && open(ModelName(model), prompt).Err? ==>
      yielded == [] && failure == Some(Wrap(open(ModelName(model), prompt).error))
    ensures !Nullish(prompt) && open(ModelName(model), prompt).Ok? ==>
      var chunks := open(ModelName(model), prompt).value;
      yielded == Seqs.Filter(TextsBefore(chunks), NonEmptyText)
      && failure == (if FirstFailure(chunks).Some? then Some(Wrap(FirstFailure(chunks).value)) else None)
  {
    if Nullish(prompt) {
      return [], Some(Wrap(PlainError("TypeError", LengthTypeError(prompt), Undefined)));
    }
    yielded := [];
    failure := None;
    var answer := open(ModelName(model), prompt);
    if answer.Err? {
      failure := Some(Wrap(answer.error));
      return;
    }
    var chunks := answer.value;
    var i := 0;
    while i < |chunks|
      invariant 0 <= i <= |chunks|
      invariant forall k :: 0 <= k < i ==> chunks[k].Ok?
      invariant yielded == Seqs.Filter(TextsBefore(chunks[..i]), NonEmptyText)
    {
      ReadAppend(chunks[..i], chunks[i..]);
      assert chunks[..i] + chunks[i..] == chunks;
      assert chunks[i..][0] == chunks[i];
      if chunks[i].Err? {
        assert TextsBefore(chunks[i..]) == [];
        assert TextsBefore(chunks) == TextsBefore(chunks[..i]) + [];
        assert TextsBefore(chunks) == TextsBefore(chunks[..i]);
        failure := Some(Wrap(chunks[i].error));
        return;
      }
      var text := chunks[i].value;
      ReadAppend(chunks[..i], [chunks[i]]);
      assert chunks[..i + 1] == chunks[..i] + [chunks[i]];
      assert TextsBefore([chunks[i]]) == [text];
      Seqs.FilterAppend(TextsBefore(chunks[..i]), [text], NonEmptyText);
      assert Seqs.Filter([text], NonEmptyText) == if text != "" then [text] else [];
      if text != "" {
        yielded := yielded + [text];
      }
      i := i + 1;
    }
    assert chunks[..i] == chunks;
    ReadAppend(chunks, []);
    assert chunks + [] == chunks;
  }

  /** A stream whose chunks all read without error and all have text yields every text, in order. */
  lemma StreamYieldsEveryText(texts: seq<string>)
    requires forall k :: 0 <= k < |texts| ==> texts[k] != ""
    ensures var chunks := seq(|texts|, k requires 0 <= k < |texts| => Ok(texts[k]));
      Seqs.Filter(TextsBefore(chunks), NonEmptyText) == texts && FirstFailure(chunks) == None
  {
    var chunks: seq<Result<string, Error>> := seq(|texts|, k requires 0 <= k < |texts| => Ok(texts[k]));
    ReadAppend(chunks, []);
    assert chunks + [] == chunks;
    AllOkTexts(chunks, texts);
    Seqs.FilterKeepsAll(texts, NonEmptyText);
  }

  lemma {:induction false} AllOkTexts(chunks: seq<Result<string, Error>>, texts: seq<string>)
    requires |chunks| == |texts| && forall k :: 0 <= k < |chunks| ==> chunks[k] == Ok(texts[k])
    ensures TextsBefore(chunks) == texts && FirstFailure(chunks) == None
  {
    if chunks != [] {
      AllOkTexts(chunks[1..], texts[1..]);
    }
  }

  /** `listModels()`: one entry per model, keyed by its name, all from this provider. */
  function ListModels(): (r: seq<ModelEntry>)
    ensures |r| == |Models|
    ensures forall i :: 0 <= i < |r| ==>
      r[i].id == Models[i].0 && r[i].model == Models[i].1 && r[i].provider == "gemini"
  {
    seq(|Models|, i requires 0 <= i < |Models| => ModelEntry(Models[i].0, Models[i].1, "gemini"))
  }
}
