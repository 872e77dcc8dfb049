/**
 * packages/fnd-config: the `env` lookup and the configuration object built
 * from it. The process environment is a parameter (a map from name to
 * value; in Node every present value is a string); loading `.env` is not
 * modelled.
 */
module Config {
  import opened Common
  import opened Strs
  import Errors

  /**
   * `env(key, defaultValue)`: `process.env[key] ?? defaultValue`, thrown at
   * when both are undefined. A present value wins even when it is empty.
   */
  function Env(key: string, defaultValue: Option<string>, environment: map<string, string>): (r: Result<string, Errors.Error>)
    ensures r.Ok? <==> key in environment || defaultValue.Some?
    ensures key in environment ==> r == Ok(environment[key])
    ensures key !in environment && defaultValue.Some? ==> r == Ok(defaultValue.value)
    ensures r.Err? ==> r.error == Errors.PlainErr("Missing required environment variable: " + key)
  {
    if key in environment then Ok(environment[key])
    else if defaultValue.Some? then Ok(defaultValue.value)
    else Err(Errors.PlainErr("Missing required environment variable: " + key))
  }

  /** A variable set to the empty string is read as the empty string, not replaced by the default. */
  lemma EmptyValueWins(key: string, d: string, environment: map<string, string>)
    requires key in environment && environment[key] == ""
    ensures Env(key, Some(d), environment) == Ok("")
  {
  }

  /** `env` with a default never throws. */
  function EnvOr(key: string, d: string, environment: map<string, string>): (r: string)
    ensures key in environment ==> r == environment[key]
    ensures key !in environment ==> r == d
  {
    Env(key, Some(d), environment).value
  }

  /** The text after an optional leading `-` or `+`. */
  function Unsigned(t: string): string {
    if t != [] && (t[0] == '-' || t[0] == '+') then t[1..] else t
  }

  predicate Negative(t: string) {
    t != [] && t[0] == '-'
  }

  /**
   * `parseInt(s, 10)`: leading white space, an optional sign, then the
   * longest run of decimal digits; `None` stands for NaN (no digit).
   */
  function ParseInt(s: string): (r: Option<int>)
    ensures r.Some? <==> DigitPrefix(Unsigned(TrimStart(s))) != []
    ensures r.Some? ==>
      var magnitude := DigitsValue(DigitPrefix(Unsigned(TrimStart(s))));
      r.value == (if Negative(TrimStart(s)) then -(magnitude as int) else magnitude)
  {
    var t := TrimStart(s);
    var digits := DigitPrefix(Unsigned(t));
    if digits == [] then None
    else if Negative(t) then Some(-(DigitsValue(digits) as int))
    else Some(DigitsValue(digits))
  }

  /** `parseInt` reads the decimal text of a natural number back as that number. */
  lemma ParseIntDecimal(n: nat)
    ensures ParseInt(NatToString(n)) == Some(n)
  {
    var s := NatToString(n);
    assert s == [] + [] + s + [];
    ParseIntSignedDigits(s, [], [], s, []);
    NatToStringRoundTrip(n);
  }

  /** Leading white space is dropped up to the first other character. */
  lemma {:induction false} TrimStartSpaces(space: string, x: string)
    requires forall i :: 0 <= i < |space| ==> IsSpace(space[i])
    requires x == [] || !IsSpace(x[0])
    ensures TrimStart(space + x) == x
  {
    if space == [] {
      assert space + x == x;
    } else {
      assert (space + x)[1..] == space[1..] + x;
      TrimStartSpaces(space[1..], x);
    }
  }

  /** A sign or a digit is never white space, so trimming stops at it. */
  lemma SignedDigitsTrim(space: string, sign: string, digits: string, tail: string)
    requires forall i :: 0 <= i < |space| ==> IsSpace(space[i])
    requires sign == [] || (|sign| == 1 && (sign[0] == '-' || sign[0] == '+'))
    requires digits != [] && AllDigits(digits)
    ensures TrimStart(space + sign + digits + tail) == sign + (digits + tail)
  {
    var x := sign + (digits + tail);
    assert space + sign + digits + tail == space + x;
    assert !IsSpace(x[0]) by {
      assert x[0] == (if sign == [] then digits[0] else sign[0]);
    }
    TrimStartSpaces(space, x);
  }

  /** After the optional sign come the digits and the tail. */
  lemma SignedDigitsBody(sign: string, digits: string, tail: string)
    requires sign == [] || (|sign| == 1 && (sign[0] == '-' || sign[0] == '+'))
    requires digits != [] && AllDigits(digits)
    ensures Unsigned(sign + (digits + tail)) == digits + tail
    ensures Negative(sign + (digits + tail)) <==> sign != [] && sign[0] == '-'
  {
    var x := sign + (digits + tail);
    if sign == [] {
      assert x == digits + tail;
      assert x[0] == digits[0];
    } else {
      assert x[1..] == digits + tail;
    }
  }

  /**
   * `parseInt` of white space, an optional sign, digits and a tail that does
   * not start with a digit is the signed value of those digits: the tail is
   * ignored and leading zeros do not count.
   */
  lemma ParseIntSignedDigits(text: string, space: string, sign: string, digits: string, tail: string)
    requires text == space + sign + digits + tail
    requires forall i :: 0 <= i < |space| ==> IsSpace(space[i])
    requires sign == [] || (|sign| == 1 && (sign[0] == '-' || sign[0] == '+'))
    requires digits != [] && AllDigits(digits)
    requires tail == [] || !IsDigit(tail[0])
    ensures ParseInt(text) == Some(if sign != [] && sign[0] == '-' then -(DigitsValue(digits) as int) else DigitsValue(digits))
  {
    SignedDigitsTrim(space, sign, digits, tail);
    SignedDigitsBody(sign, digits, tail);
    DigitPrefixStops(digits, tail);
    ParseIntOfParts(text, sign + (digits + tail), digits + tail, digits);
  }

  /** `ParseInt` through its trimmed text `t`, its unsigned body `b` and the digits `d` that start `b`. */
  lemma ParseIntOfParts(s: string, t: string, b: string, d: string)
    requires TrimStart(s) == t && Unsigned(t) == b && DigitPrefix(b) == d && d != []
    ensures ParseInt(s) == Some(if Negative(t) then -(DigitsValue(d) as int) else DigitsValue(d))
  {
  }

  /** A sign after white space counts and a trailing unit is ignored. */
  lemma ParseIntSignAndUnit(text: string)
    requires text == "  -12px"
    ensures ParseInt(text) == Some(-12)
  {
    var spaced, sign, twelve, unit := text[..2], text[2..3], text[3..5], text[5..];
    assert text == spaced + sign + twelve + unit;
    assert twelve == "12";
    var one := twelve[..1];
    assert one == "1" && one[..0] == [];
    assert DigitsValue(one) == 1;
    assert DigitsValue(twelve) == 12;
    ParseIntSignedDigits(text, spaced, sign, twelve, unit);
  }

  /** Leading zeros do not count. */
  lemma ParseIntLeadingZeros(text: string)
    requires text == "007"
    ensures ParseInt(text) == Some(7)
  {
    assert text == [] + [] + text + [];
    var zeros := text[..2];
    var zero := zeros[..1];
    assert zeros == "00" && zero == "0" && zero[..0] == [];
    assert DigitsValue(zero) == 0;
    assert DigitsValue(zeros) == 0;
    assert DigitsValue(text) == 7;
    ParseIntSignedDigits(text, [], [], text, []);
  }

  /** `parseInt("")` is NaN. */
  lemma ParseIntEmpty()
    ensures ParseInt("") == None
  {
  }

  datatype JwtConfig = JwtConfig(secret: string, expiry: string, refreshExpiry: string)
  datatype Auth0Config = Auth0Config(domain: string, clientId: string, clientSecret: string, audience: string)
  datatype AiConfig = AiConfig(replicateToken: string, geminiApiKey: string)
  datatype S3Config = S3Config(bucket: string, region: string, accessKey: string, secretKey: string)
  datatype StorageConfig = StorageConfig(provider: string, s3: S3Config)

  /** The `config` object; `port` is `None` where `parseInt` yields NaN. */
  datatype AppConfig = AppConfig(
    nodeEnv: string, port: Option<int>, frontendUrl: string, dbUri: string, redisUrl: string,
    jwt: JwtConfig, auth0: Auth0Config, ai: AiConfig, storage: StorageConfig, logLevel: string)

  /** `config`, evaluated against `environment`. Every entry has a default, so loading never throws. */
  function LoadConfig(env: map<string, string>): (c: AppConfig)
    ensures c.nodeEnv == EnvOr("NODE_ENV", "development", env)
    ensures c.port == ParseInt(EnvOr("PORT", "4000", env))
    ensures c.frontendUrl == EnvOr("FRONTEND_URL", "http://localhost:5173", env)
    ensures c.dbUri == EnvOr("MONGODB_URI", "mongodb://localhost:27017/sym-dev", env)
    ensures c.redisUrl == EnvOr("REDIS_URL", "redis://localhost:6379", env)
    ensures c.jwt == JwtConfig(EnvOr("JWT_SECRET", "dev-secret-change-me", env), EnvOr("JWT_EXPIRY", "15m", env),
                               EnvOr("REFRESH_TOKEN_EXPIRY", "7d", env))
    ensures c.auth0 == Auth0Config(EnvOr("AUTH0_DOMAIN", "", env), EnvOr("AUTH0_CLIENT_ID", "", env),
                                   EnvOr("AUTH0_CLIENT_SECRET", "", env), EnvOr("AUTH0_AUDIENCE", "", env))
    ensures c.ai == AiConfig(EnvOr("REPLICATE_API_TOKEN", "", env), EnvOr("GEMINI_API_KEY", "", env))
    ensures c.storage.provider == EnvOr("STORAGE_PROVIDER", "local", env)
    ensures c.storage.s3 == S3Config(EnvOr("S3_BUCKET", "", env), EnvOr("S3_REGION", "us-east-1", env),
                                     EnvOr("S3_ACCESS_KEY", "", env), EnvOr("S3_SECRET_KEY", "", env))
    ensures c.logLevel == EnvOr("LOG_LEVEL", "debug", env)
  {
    AppConfig(
      EnvOr("NODE_ENV", "development", env),
      ParseInt(EnvOr("PORT", "4000", env)),
      EnvOr("FRONTEND_URL", "http://localhost:5173", env),
      EnvOr("MONGODB_URI", "mongodb://localhost:27017/sym-dev", env),
      EnvOr("REDIS_URL", "redis://localhost:6379", env),
      JwtConfig(EnvOr("JWT_SECRET", "dev-secret-change-me", env), EnvOr("JWT_EXPIRY", "15m", env), EnvOr("REFRESH_TOKEN_EXPIRY", "7d", env)),
      Auth0Config(EnvOr("AUTH0_DOMAIN", "", env), EnvOr("AUTH0_CLIENT_ID", "", env), EnvOr("AUTH0_CLIENT_SECRET", "", env), EnvOr("AUTH0_AUDIENCE", "", env)),
      AiConfig(EnvOr("REPLICATE_API_TOKEN", "", env), EnvOr("GEMINI_API_KEY", "", env)),
      StorageConfig(EnvOr("STORAGE_PROVIDER", "local", env),
                    S3Config(EnvOr("S3_BUCKET", "", env), EnvOr("S3_REGION", "us-east-1", env), EnvOr("S3_ACCESS_KEY", "", env), EnvOr("S3_SECRET_KEY", "", env))),
      EnvOr("LOG_LEVEL", "debug", env))
  }

  /** With nothing set, the service listens on 4000 and tokens last 15 minutes (access) and 7 days (refresh). */
  lemma ConfigDefaults()
    ensures LoadConfig(map[]).port == Some(4000)
    ensures LoadConfig(map[]).nodeEnv == "development"
    ensures LoadConfig(map[]).jwt == JwtConfig("dev-secret-change-me", "15m", "7d")
    ensures LoadConfig(map[]).storage.provider == "local"
  {
    var none: map<string, string> := map[];
    assert EnvOr("PORT", "4000", none) == "4000";
    FourThousand();
  }

  lemma FourThousand()
    ensures ParseInt("4000") == Some(4000)
  {
    assert NatToString(4) == "4";
    assert NatToString(40) == "40";
    assert NatToString(400) == "400";
    assert NatToString(4000) == "4000";
    ParseIntDecimal(4000);
  }

  /** A `PORT` holding the decimal text of a number is that port, whatever else is set. */
  lemma PortFromEnvironment(environment: map<string, string>, n: nat)
    requires "PORT" in environment && environment["PORT"] == NatToString(n)
    ensures LoadConfig(environment).port == Some(n)
  {
    ParseIntDecimal(n);
  }

  /** A `PORT` set to the empty string is not replaced by the default and parses to NaN. */
  lemma EmptyPortIsNaN(environment: map<string, string>)
    requires "PORT" in environment && environment["PORT"] == ""
    ensures LoadConfig(environment).port == None
  {
  }
}
