/**
 * The request schemas of packages/fnd-validation, as parse functions from a
 * request value to either the parsed data or the list of issues a ZodError
 * would carry. Zod runs a string's checks in the order they are written, so
 * `.min(1).max(100).trim()` checks the length of the untrimmed text. Lengths
 * are JavaScript's `length`: UTF-16 code units, two for a character outside
 * the Basic Multilingual Plane.
 */
module Validation {
  import opened Common
  import opened Strs
  import opened Enums
  import Seqs
  import Errors

  datatype IssueCode =
    | InvalidType
    | TooSmall(minimum: int)
    | TooBig(maximum: int)
    | InvalidString(check: string)
    | InvalidEnum

  /** One issue; `message` is the schema's own message, or "" where the library's default applies. */
  datatype Issue = Issue(path: string, code: IssueCode, message: string)

  function IssuesOf<T>(r: Result<T, seq<Issue>>): seq<Issue> {
    if r.Err? then r.error else []
  }

  /** The ZodError that `parse` throws and `safeParse` returns. */
  function ZodError(issues: seq<Issue>): Errors.Error {
    Errors.PlainError("ZodError", "", Arr(IssueValues(issues)))
  }

  function IssueValues(issues: seq<Issue>): seq<Value> {
    if issues == [] then []
    else [Obj([("path", Str(issues[0].path)), ("message", Str(issues[0].message))])]
         + IssueValues(issues[1..])
  }

  // ----- strings -----

  function LengthIssues(path: string, s: string, min: nat, max: Option<nat>,
                        minMsg: string, maxMsg: string): seq<Issue>
  {
    (if Utf16Length(s) < min then [Issue(path, TooSmall(min), minMsg)] else [])
    + (if max.Some? && Utf16Length(s) > max.value then [Issue(path, TooBig(max.value), maxMsg)] else [])
  }

  /**
   * `z.string().min(min).max(max)`, followed by `.trim()` when `trim` holds:
   * the bounds apply to the text as received and the result is trimmed.
   */
  function StringField(path: string, v: Value, min: nat, max: Option<nat>, trim: bool,
                       minMsg: string := "", maxMsg: string := ""): (r: Result<string, seq<Issue>>)
    ensures r.Ok? <==> v.Str? && min <= Utf16Length(v.s) && (max.Some? ==> Utf16Length(v.s) <= max.value)
    ensures r.Ok? ==> r.value == if trim then Trim(v.s) else v.s
  {
    match v
    case Str(s) =>
      var issues := LengthIssues(path, s, min, max, minMsg, maxMsg);
      if issues == [] then Ok(if trim then Trim(s) else s) else Err(issues)
    case _ => Err([Issue(path, InvalidType, "")])
  }

  /** `emailSchema`; the address syntax check belongs to the library and is the `isEmail` oracle. */
  function EmailField(v: Value, isEmail: string -> bool): (r: Result<string, seq<Issue>>)
    ensures r.Ok? <==> v.Str? && isEmail(v.s)
    ensures r.Ok? ==> r.value == Trim(Lower(v.s))
  {
    match v
    case Str(s) =>
      if isEmail(s) then Ok(Trim(Lower(s)))
      else Err([Issue("email", InvalidString("email"), "Invalid email address")])
    case _ => Err([Issue("email", InvalidType, "")])
  }

  /** `passwordSchema`. */
  function PasswordField(v: Value): (r: Result<string, seq<Issue>>)
    ensures r.Ok? <==> v.Str? && 8 <= Utf16Length(v.s) <= 128
    ensures r.Ok? ==> r.value == v.s
  {
    StringField("password", v, 8, Some(128), false,
                "Password must be at least 8 characters", "Password must be at most 128 characters")
  }

  /**
   * A hundred emoji are a hundred characters but two hundred code units, so
   * the password is refused as too long.
   */
  lemma AstralPasswordRejected()
    ensures var pw := seq(100, _ => '\U{1F600}');
      |pw| == 100 && PasswordField(Str(pw)).Err?
      && PasswordField(Str(pw)).error == [Issue("password", TooBig(128), "Password must be at most 128 characters")]
  {
    var pw := seq(100, _ => '\U{1F600}');
    Utf16LengthAstral(pw);
  }

  // ----- object ids -----

  predicate IsHexDigit(c: char) {
    IsDigit(c) || 'a' <= c <= 'f' || 'A' <= c <= 'F'
  }

  /**
   * `/^[a-f\d]{24}$/i`: the `i` flag compares the lower-cased input with the
   * lower-case class.
   */
  predicate MatchesObjectId(s: string) {
    |s| == 24 && forall i :: 0 <= i < |s| ==> (IsDigit(LowerChar(s[i])) || 'a' <= LowerChar(s[i]) <= 'f')
  }

  /** An object id is exactly 24 hexadecimal characters of either case. */
  lemma ObjectIdIff(s: string)
    ensures MatchesObjectId(s) <==> |s| == 24 && forall i :: 0 <= i < |s| ==> IsHexDigit(s[i])
  {
  }

  /** Validity of an object id does not depend on letter case. */
  lemma ObjectIdCaseInsensitive(s: string)
    ensures MatchesObjectId(Lower(s)) <==> MatchesObjectId(s)
  {
    ObjectIdIff(s);
    ObjectIdIff(Lower(s));
  }

  /** `objectIdSchema`. */
  function ObjectIdField(path: string, v: Value): (r: Result<string, seq<Issue>>)
    ensures r.Ok? <==> v.Str? && MatchesObjectId(v.s)
    ensures r.Ok? ==> r.value == v.s
  {
    match v
    case Str(s) =>
      if MatchesObjectId(s) then Ok(s) else Err([Issue(path, InvalidString("regex"), "Invalid ID format")])
    case _ => Err([Issue(path, InvalidType, "")])
  }

  // ----- pagination -----

  /**
   * `Number(v)` when it is an integer; `None` stands for NaN. A string is
   * trimmed; the empty string is 0; otherwise an optional sign and decimal
   * digits. An array is read through its text, the elements joined by `,`:
   * no element is the empty text, one element is that element's text (empty
   * for `null` and `undefined`, `true`/`false` for a boolean), and two or
   * more always hold a comma.
   */
  function NumberOf(v: Value): (r: Option<int>)
    ensures v.Undefined? || v.Obj? ==> r.None?
    ensures v.Null? ==> r == Some(0)
    ensures v.Bool? ==> r == Some(if v.b then 1 else 0)
    ensures v.Num? ==> r == Some(v.n)
    ensures v.Str? && Trim(v.s) == [] ==> r == Some(0)
    ensures v == Arr([]) ==> r == Some(0)
    ensures v.Arr? && |v.items| >= 2 ==> r.None?
  {
    match v
    case Undefined => None
    case Null => Some(0)
    case Bool(b) => Some(if b then 1 else 0)
    case Num(n) => Some(n)
    case Str(s) => NumberOfText(Trim(s))
    case Arr(items) =>
      if items == [] then Some(0)
      else if |items| >= 2 then None
      else (match items[0]
        case Undefined => Some(0)
        case Null => Some(0)
        case Bool(_) => None
        case Obj(_) => None
        case _ => NumberOf(items[0]))
    case Obj(_) => None
  }

  /**
   * A one-element array reads as its element's text: `["5"]` and `[5]` are 5,
   * `[null]` is 0, while `[true]` is NaN although `true` is 1.
   */
  lemma NumberOfSingleton(s: string, n: int)
    ensures NumberOf(Arr([Str(s)])) == NumberOf(Str(s))
    ensures NumberOf(Arr([Num(n)])) == Some(n)
    ensures NumberOf(Arr([Null])) == Some(0)
    ensures NumberOf(Arr([Bool(true)])).None? && NumberOf(Bool(true)) == Some(1)
  {
  }

  function NumberOfText(t: string): Option<int> {
    if t == [] then Some(0)
    else if AllDigits(t) then Some(DigitsValue(t))
    else if |t| >= 2 && t[0] == '-' && AllDigits(t[1..]) then Some(-(DigitsValue(t[1..]) as int))
    else if |t| >= 2 && t[0] == '+' && AllDigits(t[1..]) then Some(DigitsValue(t[1..]))
    else None
  }

  /** `z.coerce.number().int().min(min)[.max(max)].default(dflt)`. */
  function CoercedInt(path: string, v: Value, dflt: int, min: int, max: Option<int>): (r: Result<int, seq<Issue>>)
    ensures r.Ok? <==> v.Undefined? || (NumberOf(v).Some? && min <= NumberOf(v).value
                                        && (max.Some? ==> NumberOf(v).value <= max.value))
    ensures r.Ok? ==> r.value == if v.Undefined? then dflt else NumberOf(v).value
    ensures r.Ok? && !v.Undefined? ==> min <= r.value && (max.Some? ==> r.value <= max.value)
  {
    if v.Undefined? then Ok(dflt)
    else match NumberOf(v)
      case None => Err([Issue(path, InvalidType, "")])
      case Some(n) =>
        var issues := (if n < min then [Issue(path, TooSmall(min), "")] else [])
                      + (if max.Some? && n > max.value then [Issue(path, TooBig(max.value), "")] else []);
        if issues == [] then Ok(n) else Err(issues)
  }

  datatype Pagination = Pagination(page: int, limit: int)

  /** `paginationSchema`. */
  function ParsePagination(v: Value): (r: Result<Pagination, seq<Issue>>)
    ensures r.Ok? <==> v.Obj? && CoercedInt("page", Get(v, "page"), 1, 1, None).Ok?
                       && CoercedInt("limit", Get(v, "limit"), 20, 1, Some(100)).Ok?
    ensures r.Ok? ==> r.value == Pagination(CoercedInt("page", Get(v, "page"), 1, 1, None).value,
                                            CoercedInt("limit", Get(v, "limit"), 20, 1, Some(100)).value)
    ensures r.Ok? ==> r.value.page >= 1 && 1 <= r.value.limit <= 100
  {
    if !v.Obj? then Err([Issue("", InvalidType, "")])
    else
      var page := CoercedInt("page", Get(v, "page"), 1, 1, None);
      var limit := CoercedInt("limit", Get(v, "limit"), 20, 1, Some(100));
      if page.Ok? && limit.Ok? then Ok(Pagination(page.value, limit.value))
      else Err(IssuesOf(page) + IssuesOf(limit))
  }

  /** A query without page or limit gets page 1 of 20. */
  lemma PaginationDefaults()
    ensures ParsePagination(Obj([])) == Ok(Pagination(1, 20))
  {
  }

  lemma DigitsAreNotSpace(s: string)
    requires AllDigits(s)
    ensures Trim(s) == s
  {
  }

  /** `Number` reads the decimal text of `n` back as `n`. */
  lemma NumberOfDecimalText(n: nat)
    ensures NumberOf(Str(NatToString(n))) == Some(n)
  {
    DigitsAreNotSpace(NatToString(n));
    NatToStringRoundTrip(n);
  }

  /** The decimal text of a page and a limit in range parses back to exactly those numbers. */
  lemma PaginationFromQueryText(page: nat, limit: nat)
    requires page >= 1 && 1 <= limit <= 100
    ensures ParsePagination(Obj([("page", Str(NatToString(page))), ("limit", Str(NatToString(limit)))]))
            == Ok(Pagination(page, limit))
  {
    var q := Obj([("page", Str(NatToString(page))), ("limit", Str(NatToString(limit)))]);
    assert q.fields[1..] == [("limit", Str(NatToString(limit)))];
    assert Get(q, "page") == Str(NatToString(page));
    assert Lookup(q.fields[1..], "limit") == Str(NatToString(limit));
    assert Get(q, "limit") == Str(NatToString(limit));
    NumberOfDecimalText(page);
    NumberOfDecimalText(limit);
  }

  /** A limit above 100, or a page or limit below 1, is rejected. */
  lemma PaginationRejectsOutOfRange(page: int, limit: int)
    requires page < 1 || limit < 1 || limit > 100
    ensures ParsePagination(Obj([("page", Num(page)), ("limit", Num(limit))])).Err?
  {
    var q := Obj([("page", Num(page)), ("limit", Num(limit))]);
    assert q.fields[1..] == [("limit", Num(limit))];
    assert Get(q, "page") == Num(page);
    assert Lookup(q.fields[1..], "limit") == Num(limit);
    assert Get(q, "limit") == Num(limit);
  }

  // ----- object schemas -----

  datatype RegisterInput = RegisterInput(email: string, password: string, name: string)

  /** `registerSchema`. */
  function ParseRegister(v: Value, isEmail: string -> bool): (r: Result<RegisterInput, seq<Issue>>)
    ensures r.Ok? <==>
      v.Obj? && EmailField(Get(v, "email"), isEmail).Ok? && PasswordField(Get(v, "password")).Ok?
      && Get(v, "name").Str? && 1 <= Utf16Length(Get(v, "name").s) <= 100
    ensures r.Ok? ==> r.value.email == Trim(Lower(Get(v, "email").s))
                      && r.value.name == Trim(Get(v, "name").s)
                      && r.value.password == Get(v, "password").s
  {
    if !v.Obj? then Err([Issue("", InvalidType, "")])
    else
      var email := EmailField(Get(v, "email"), isEmail);
      var password := PasswordField(Get(v, "password"));
      var name := StringField("name", Get(v, "name"), 1, Some(100), true, "Name is required");
      if email.Ok? && password.Ok? && name.Ok? then Ok(RegisterInput(email.value, password.value, name.value))
      else Err(IssuesOf(email) + IssuesOf(password) + IssuesOf(name))
  }

  /** The entries of a three-entry object with distinct keys. */
  lemma GetThree(k1: string, v1: Value, k2: string, v2: Value, k3: string, v3: Value)
    requires k1 != k2 && k1 != k3 && k2 != k3
    ensures var o := Obj([(k1, v1), (k2, v2), (k3, v3)]);
      Get(o, k1) == v1 && Get(o, k2) == v2 && Get(o, k3) == v3
  {
    var fields := [(k1, v1), (k2, v2), (k3, v3)];
    assert fields[1..] == [(k2, v2), (k3, v3)];
    assert fields[1..][1..] == [(k3, v3)];
    assert Lookup(fields[1..][1..], k3) == v3;
    assert Lookup(fields[1..], k2) == v2 && Lookup(fields[1..], k3) == v3;
  }

  /**
   * A name of spaces passes the length check and is parsed to the empty name,
   * because trimming comes last; the user schema's `required` refuses it later.
   */
  lemma RegisterBlankNameBecomesEmpty(email: string, password: string, name: string, isEmail: string -> bool)
    requires isEmail(email) && 8 <= Utf16Length(password) <= 128 && name == "   "
    ensures var r := ParseRegister(Obj([("email", Str(email)), ("password", Str(password)), ("name", Str(name))]), isEmail);
      r.Ok? && r.value.name == ""
  {
    var v := Obj([("email", Str(email)), ("password", Str(password)), ("name", Str(name))]);
    GetThree("email", Str(email), "password", Str(password), "name", Str(name));
    BlankName(name);
    ParseRegisterOk(v, isEmail);
  }

  /** Three spaces are a name of length 3 that trims to nothing. */
  lemma BlankName(name: string)
    requires name == "   "
    ensures Trim(name) == "" && 1 <= Utf16Length(name) <= 100
  {
    assert name[1..] == "  " && name[1..][1..] == " " && name[1..][1..][1..] == "";
    assert TrimStart(name) == "";
  }

  /** A register body whose three fields pass is parsed, with the trimmed name. */
  lemma ParseRegisterOk(v: Value, isEmail: string -> bool)
    requires v.Obj? && Get(v, "email").Str? && isEmail(Get(v, "email").s)
    requires Get(v, "password").Str? && 8 <= Utf16Length(Get(v, "password").s) <= 128
    requires Get(v, "name").Str? && 1 <= Utf16Length(Get(v, "name").s) <= 100
    ensures ParseRegister(v, isEmail).Ok? && ParseRegister(v, isEmail).value.name == Trim(Get(v, "name").s)
  {
    assert EmailField(Get(v, "email"), isEmail).Ok? && PasswordField(Get(v, "password")).Ok?;
  }

  /** `z.string().max(2000).optional()`. */
  function OptionalDescription(v: Value): (r: Result<Option<string>, seq<Issue>>)
    ensures r.Ok? <==> v.Undefined? || (v.Str? && Utf16Length(v.s) <= 2000)
    ensures r.Ok? ==> r.value == if v.Undefined? then None else Some(v.s)
  {
    if v.Undefined? then Ok(None)
    else
      var d := StringField("description", v, 0, Some(2000), false);
      if d.Ok? then Ok(Some(d.value)) else Err(d.error)
  }

  /** `z.record(z.unknown()).optional()`: absent, or a plain object. */
  function OptionalRecord(path: string, v: Value): (r: Result<Option<Value>, seq<Issue>>)
    ensures r.Ok? <==> v.Undefined? || v.Obj?
    ensures r.Ok? ==> r.value == if v.Undefined? then None else Some(v)
  {
    if v.Undefined? then Ok(None)
    else if v.Obj? then Ok(Some(v))
    else Err([Issue(path, InvalidType, "")])
  }

  datatype CreateProjectInput = CreateProjectInput(name: string, description: Option<string>, settings: Option<Value>)

  /** `createProjectSchema`. */
  function ParseCreateProject(v: Value): (r: Result<CreateProjectInput, seq<Issue>>)
    ensures r.Ok? <==>
      v.Obj? && Get(v, "name").Str? && 1 <= Utf16Length(Get(v, "name").s) <= 200
      && (Get(v, "description").Undefined?
          || (Get(v, "description").Str? && Utf16Length(Get(v, "description").s) <= 2000))
      && (Get(v, "settings").Undefined? || Get(v, "settings").Obj?)
    ensures r.Ok? ==>
      r.value.name == Trim(Get(v, "name").s)
      && r.value.description == (if Get(v, "description").Undefined? then None else Some(Get(v, "description").s))
      && r.value.settings == (if Get(v, "settings").Undefined? then None else Some(Get(v, "settings")))
  {
    if !v.Obj? then Err([Issue("", InvalidType, "")])
    else
      var name := StringField("name", Get(v, "name"), 1, Some(200), true, "Project name is required");
      var description := OptionalDescription(Get(v, "description"));
      var settings := OptionalRecord("settings", Get(v, "settings"));
      if name.Ok? && description.Ok? && settings.Ok? then
        Ok(CreateProjectInput(name.value, description.value, settings.value))
      else Err(IssuesOf(name) + IssuesOf(description) + IssuesOf(settings))
  }

  /** `z.enum(['active', 'archived'])`. */
  function StatusField(v: Value): (r: Result<ProjectStatus, seq<Issue>>)
    ensures r.Ok? <==> v == Str("active") || v == Str("archived")
    ensures r.Ok? ==> v == Str(ProjectStatusName(r.value)) && r.value != Deleted
  {
    match v
    case Str(s) =>
      if s == "active" then Ok(Active)
      else if s == "archived" then Ok(Archived)
      else Err([Issue("status", InvalidEnum, "")])
    case _ => Err([Issue("status", InvalidType, "")])
  }

  datatype UpdateProjectInput =
    UpdateProjectInput(name: Option<string>, description: Option<string>,
                       status: Option<ProjectStatus>, settings: Option<Value>)

  /** `updateProjectSchema`: every field optional. */
  function ParseUpdateProject(v: Value): (r: Result<UpdateProjectInput, seq<Issue>>)
    ensures r.Ok? <==>
      v.Obj?
      && (Get(v, "name").Undefined? || (Get(v, "name").Str? && 1 <= Utf16Length(Get(v, "name").s) <= 200))
      && (Get(v, "description").Undefined?
          || (Get(v, "description").Str? && Utf16Length(Get(v, "description").s) <= 2000))
      && (Get(v, "status").Undefined? || Get(v, "status") == Str("active") || Get(v, "status") == Str("archived"))
      && (Get(v, "settings").Undefined? || Get(v, "settings").Obj?)
    ensures r.Ok? ==>
      r.value.name == (if Get(v, "name").Undefined? then None else Some(Trim(Get(v, "name").s)))
      && r.value.description == (if Get(v, "description").Undefined? then None else Some(Get(v, "description").s))
      && r.value.settings == (if Get(v, "settings").Undefined? then None else Some(Get(v, "settings")))
    ensures r.Ok? ==> (r.value.status.None? <==> Get(v, "status").Undefined?)
    ensures r.Ok? && r.value.status.Some? ==>
      r.value.status.value != Deleted
      && Get(v, "status") == Str(ProjectStatusName(r.value.status.value))
  {
    if !v.Obj? then Err([Issue("", InvalidType, "")])
    else
      var name := if Get(v, "name").Undefined? then Ok(None)
                  else var n := StringField("name", Get(v, "name"), 1, Some(200), true);
                       if n.Ok? then Ok(Some(n.value)) else Err(n.error);
      var description := OptionalDescription(Get(v, "description"));
      var status := if Get(v, "status").Undefined? then Ok(None)
                    else var s := StatusField(Get(v, "status"));
                         if s.Ok? then Ok(Some(s.value)) else Err(s.error);
      var settings := OptionalRecord("settings", Get(v, "settings"));
      if name.Ok? && description.Ok? && status.Ok? && settings.Ok? then
        Ok(UpdateProjectInput(name.value, description.value, status.value, settings.value))
      else Err(IssuesOf(name) + IssuesOf(description) + IssuesOf(status) + IssuesOf(settings))
  }

  /** A project update can never ask for the deleted status. */
  lemma UpdateNeverDeletes(v: Value)
    ensures ParseUpdateProject(v).Ok? ==> ParseUpdateProject(v).value.status != Some(Deleted)
  {
  }

  datatype Provider = Replicate | Gemini

  function ProviderName(p: Provider): string {
    match p
    case Replicate => "replicate"
    case Gemini => "gemini"
  }

  datatype GenerateInput =
    GenerateInput(projectId: string, provider: Provider, model: string, input: Value, params: Option<Value>)

  /** `z.enum(['replicate', 'gemini'])`. */
  function ProviderField(v: Value): (r: Result<Provider, seq<Issue>>)
    ensures r.Ok? <==> v == Str("replicate") || v == Str("gemini")
    ensures r.Ok? ==> v == Str(ProviderName(r.value))
  {
    match v
    case Str(s) =>
      if s == "replicate" then Ok(Replicate)
      else if s == "gemini" then Ok(Gemini)
      else Err([Issue("provider", InvalidEnum, "")])
    case _ => Err([Issue("provider", InvalidType, "")])
  }

  /**
   * `z.object({ prompt: ... }).passthrough()`: the prompt is checked and
   * every other entry is kept after it.
   */
  function InputField(v: Value): (r: Result<Value, seq<Issue>>)
    ensures r.Ok? <==> v.Obj? && Get(v, "prompt").Str? && 1 <= Utf16Length(Get(v, "prompt").s) <= 10000
    ensures r.Ok? ==> Get(r.value, "prompt") == Get(v, "prompt")
    ensures r.Ok? ==> r.value.Obj? && forall k :: k != "prompt" ==> Get(r.value, k) == Get(v, k)
  {
    if !v.Obj? then Err([Issue("input", InvalidType, "")])
    else
      var prompt := StringField("input.prompt", Get(v, "prompt"), 1, Some(10000), false, "Prompt is required");
      if prompt.Ok? then
        var rest := Seqs.Filter(v.fields, NotPrompt);
        var fields := [("prompt", Str(prompt.value))] + rest;
        assert fields[1..] == rest;
        forall k | k != "prompt" ensures Lookup(fields, k) == Lookup(v.fields, k) {
          LookupWithoutPrompt(v.fields, k);
        }
        Ok(Obj(fields))
      else Err(prompt.error)
  }

  predicate NotPrompt(e: (string, Value)) {
    e.0 != "prompt"
  }

  /** Dropping the `prompt` entries changes no other property. */
  lemma {:induction false} LookupWithoutPrompt(fields: seq<(string, Value)>, k: string)
    requires k != "prompt"
    ensures Lookup(Seqs.Filter(fields, NotPrompt), k) == Lookup(fields, k)
  {
    if fields != [] {
      LookupWithoutPrompt(fields[1..], k);
      if NotPrompt(fields[0]) {
        var f := Seqs.Filter(fields, NotPrompt);
        assert f == [fields[0]] + Seqs.Filter(fields[1..], NotPrompt);
        assert f[1..] == Seqs.Filter(fields[1..], NotPrompt);
      }
    }
  }

  /** `generateSchema`. */
  function ParseGenerate(v: Value): (r: Result<GenerateInput, seq<Issue>>)
    ensures r.Ok? <==>
      v.Obj?
      && Get(v, "projectId").Str? && MatchesObjectId(Get(v, "projectId").s)
      && (Get(v, "provider") == Str("replicate") || Get(v, "provider") == Str("gemini"))
      && Get(v, "model").Str? && Utf16Length(Get(v, "model").s) >= 1
      && Get(v, "input").Obj? && Get(Get(v, "input"), "prompt").Str?
      && 1 <= Utf16Length(Get(Get(v, "input"), "prompt").s) <= 10000
      && (Get(v, "params").Undefined? || Get(v, "params").Obj?)
    ensures r.Ok? ==>
      r.value.projectId == Get(v, "projectId").s
      && Get(v, "provider") == Str(ProviderName(r.value.provider))
      && r.value.model == Get(v, "model").s
      && r.value.params == (if Get(v, "params").Undefined? then None else Some(Get(v, "params")))
    ensures r.Ok? ==>
      r.value.input.Obj? && Get(r.value.input, "prompt") == Get(Get(v, "input"), "prompt")
      && forall k :: k != "prompt" ==> Get(r.value.input, k) == Get(Get(v, "input"), k)
  {
    if !v.Obj? then Err([Issue("", InvalidType, "")])
    else
      var projectId := ObjectIdField("projectId", Get(v, "projectId"));
      var provider := ProviderField(Get(v, "provider"));
      var model := StringField("model", Get(v, "model"), 1, None, false, "Model is required");
      var input := InputField(Get(v, "input"));
      var params := OptionalRecord("params", Get(v, "params"));
      if projectId.Ok? && provider.Ok? && model.Ok? && input.Ok? && params.Ok? then
        Ok(GenerateInput(projectId.value, provider.value, model.value, input.value, params.value))
      else Err(IssuesOf(projectId) + IssuesOf(provider) + IssuesOf(model) + IssuesOf(input) + IssuesOf(params))
  }

  /** A rejected submission names at least one issue, so the ZodError is never empty. */
  lemma {:induction false} GenerateRejectionHasIssues(v: Value)
    ensures ParseGenerate(v).Err? ==> |ParseGenerate(v).error| >= 1
  {
  }
}
