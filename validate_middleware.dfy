/**
 * apps/sym/backend/src/middleware/validate.js: the middleware built by
 * `validate(schema, source)`. It parses one part of the request and either
 * passes the parse error to `next` or replaces that part with the parsed
 * value and calls `next()`. The schema's `safeParse` is the parameter
 * `parse`; the schemas themselves are in the Validation module.
 */
module ValidateMiddleware {
  import opened Common
  import opened Errors
  import Validation

  /** The `source` argument: `'body' | 'query' | 'params'`. */
  datatype Source = Body | Query | Params

  /** The three parts of a request the middleware can read and write. */
  datatype Sources = Sources(body: Value, query: Value, params: Value)

  /** `req[source]`. */
  function Read(s: Sources, source: Source): Value {
    match source
    case Body => s.body
    case Query => s.query
    case Params => s.params
  }

  /** `req[source] = v`. */
  function Write(s: Sources, source: Source, v: Value): (r: Sources)
    ensures Read(r, source) == v
    ensures forall other: Source :: other != source ==> Read(r, other) == Read(s, other)
  {
    match source
    case Body => s.(body := v)
    case Query => s.(query := v)
    case Params => s.(params := v)
  }

  /** Writing back what was read changes nothing. */
  lemma WriteRead(s: Sources, source: Source)
    ensures Write(s, source, Read(s, source)) == s
  {
  }

  /**
   * The request after the middleware and the argument of its one `next`
   * call: the parse error, or nothing after the source was replaced.
   */
  function Validated(s: Sources, parse: Value -> Result<Value, Error>, source: Source): (r: (Sources, Option<Error>))
    ensures parse(Read(s, source)).Err? ==> r == (s, Some(parse(Read(s, source)).error))
    ensures parse(Read(s, source)).Ok? ==> r.1.None? && Read(r.0, source) == parse(Read(s, source)).value
    ensures forall other: Source :: other != source ==> Read(r.0, other) == Read(s, other)
  {
    match parse(Read(s, source))
    case Err(e) => (s, Some(e))
    case Ok(v) => (Write(s, source, v), None)
  }

  /**
   * Validating twice with a schema that accepts its own output unchanged
   * (every schema here only trims, lower-cases, coerces and fills defaults) is the same
   * as validating once.
   */
  lemma ValidatedIdempotent(s: Sources, parse: Value -> Result<Value, Error>, source: Source)
    requires parse(Read(s, source)).Ok? ==> parse(parse(Read(s, source)).value) == parse(Read(s, source))
    ensures parse(Read(s, source)).Ok? ==> Validated(Validated(s, parse, source).0, parse, source) == Validated(s, parse, source)
  {
    if parse(Read(s, source)).Ok? {
      var t := Validated(s, parse, source).0;
      assert Read(t, source) == parse(Read(s, source)).value;
      assert t == Write(s, source, parse(Read(s, source)).value);
      assert Write(t, source, parse(Read(s, source)).value) == t;
    }
  }

  /** `schema.safeParse` for one of the Validation schemas: its issues become a ZodError. */
  function SafeParse<T>(r: Result<T, seq<Validation.Issue>>, toValue: T -> Value): (p: Result<Value, Error>)
    ensures r.Ok? <==> p.Ok?
    ensures r.Ok? ==> p.value == toValue(r.value)
    ensures r.Err? ==> p.error == Validation.ZodError(r.error) && p.error.Name() == "ZodError"
  {
    match r
    case Ok(v) => Ok(toValue(v))
    case Err(issues) => Err(Validation.ZodError(issues))
  }

  /** The request object; the middleware overwrites one of its parts in place. */
  class Request {
    var body: Value
    var query: Value
    var params: Value

    constructor(body: Value, query: Value, params: Value)
      ensures this.body == body && this.query == query && this.params == params
    {
      this.body := body;
      this.query := query;
      this.params := params;
    }

    function Parts(): Sources
      reads this
    {
      Sources(body, query, params)
    }

    /**
     * The middleware applied to this request, `source` defaulting to the
     * body. `nextCalls` lists the arguments of the `next` calls: always
     * exactly one, the error on failure and none on success.
     */
    method Validate(parse: Value -> Result<Value, Error>, source: Source := Body) returns (nextCalls: seq<Option<Error>>)
      modifies this
      ensures Parts() == Validated(old(Parts()), parse, source).0
      ensures nextCalls == [Validated(old(Parts()), parse, source).1]
      ensures |nextCalls| == 1
      ensures nextCalls[0].Some? ==> Parts() == old(Parts())
    {
      var result := parse(Read(Parts(), source));
      if result.Err? {
        return [Some(result.error)];
      }
      match source {
        case Body => body := result.value;
        case Query => query := result.value;
        case Params => params := result.value;
      }
      nextCalls := [None];
    }
  }
}
