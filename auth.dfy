/**
 * packages/backend-auth: the refresh-token lifetime parser, bearer-header
 * parsing, the refresh-token table with rotation and revocation, and the
 * error rules of registration and login. Hashing, JWT signing and
 * verification, random tokens and ids are oracles passed as parameters;
 * the clock is the parameter `now` (milliseconds).
 */
module Auth {
  import opened Common
  import opened Strs
  import opened Errors
  import Config

  // ----- durations -----

  /** Seven days, the lifetime used when the text does not parse. */
  const DefaultLifetime: nat := 7 * 24 * 60 * 60 * 1000

  /** The multiplier of each unit `ms|s|m|h|d`. */
  function Multiplier(unit: string): Option<nat> {
    if unit == "ms" then Some(1)
    else if unit == "s" then Some(1000)
    else if unit == "m" then Some(60000)
    else if unit == "h" then Some(3600000)
    else if unit == "d" then Some(86400000)
    else None
  }

  /**
   * `parseDuration(str)`: `/^(\d+)(ms|s|m|h|d)$/`. The digits cannot overlap
   * the unit, so the match splits `str` at the end of its leading digits.
   */
  function ParseDuration(s: string): (r: nat)
    ensures DigitPrefix(s) == [] || Multiplier(s[|DigitPrefix(s)|..]).None? ==> r == DefaultLifetime
  {
    var digits := DigitPrefix(s);
    var mult := Multiplier(s[|digits|..]);
    if digits != [] && mult.Some? then DigitsValue(digits) * mult.value else DefaultLifetime
  }

  /** A count written in decimal followed by a unit parses to the count times the unit. */
  lemma ParseDurationRoundTrip(n: nat, unit: string)
    requires Multiplier(unit).Some?
    ensures ParseDuration(NatToString(n) + unit) == n * Multiplier(unit).value
  {
    var s := NatToString(n) + unit;
    assert unit[0] in "mshd";
    DigitPrefixStops(NatToString(n), unit);
    assert s[|NatToString(n)|..] == unit;
    NatToStringRoundTrip(n);
  }

  lemma SevenDays()
    ensures ParseDuration("7d") == DefaultLifetime
  {
    assert NatToString(7) == "7";
    ParseDurationRoundTrip(7, "d");
  }

  lemma FifteenMinutes()
    ensures ParseDuration("15m") == 15 * 60000
  {
    assert NatToString(1) == "1";
    assert NatToString(15) == "15";
    ParseDurationRoundTrip(15, "m");
  }

  /**
   * The configured default refresh lifetime, `7d`, is seven days, which is
   * also the fallback; the default access expiry `15m` is 15 minutes.
   */
  lemma DefaultExpiries()
    ensures ParseDuration(Config.LoadConfig(map[]).jwt.refreshExpiry) == DefaultLifetime
    ensures ParseDuration(Config.LoadConfig(map[]).jwt.expiry) == 15 * 60000
  {
    Config.ConfigDefaults();
    SevenDays();
    FifteenMinutes();
  }

  // ----- bearer header -----

  /**
   * The first half of `authMiddleware`: a header that is absent or does not
   * start with `Bearer ` is refused; otherwise the token follows the prefix.
   */
  function BearerToken(header: Option<string>): (r: Result<string, Error>)
    ensures r.Ok? <==> header.Some? && StartsWith(header.value, "Bearer ")
    ensures r.Ok? ==> header.value == "Bearer " + r.value
    ensures r.Err? ==> r.error == NewAuthenticationError("Missing authorization header")
  {
    if header.Some? && StartsWith(header.value, "Bearer ") then Ok(header.value[7..])
    else Err(NewAuthenticationError("Missing authorization header"))
  }

  /** Whatever follows the prefix is read back as the token. */
  lemma BearerRoundTrip(token: string)
    ensures BearerToken(Some("Bearer " + token)) == Ok(token)
  {
  }

  /**
   * `authMiddleware`: the user id is the `sub` of the verified token;
   * `verify` returns it, or `None` where `jwt.verify` throws.
   */
  function Authenticate(header: Option<string>, verify: string -> Option<string>): (r: Result<string, Error>)
    ensures r.Ok? <==> BearerToken(header).Ok? && verify(BearerToken(header).value).Some?
    ensures r.Ok? ==> r.value == verify(BearerToken(header).value).value
    ensures BearerToken(header).Ok? && r.Err? ==> r.error == NewAuthenticationError("Invalid or expired token")
    ensures BearerToken(header).Err? ==> r == Err(BearerToken(header).error)
  {
    match BearerToken(header)
    case Err(e) => Err(e)
    case Ok(token) =>
      match verify(token)
      case None => Err(NewAuthenticationError("Invalid or expired token"))
      case Some(sub) => Ok(sub)
  }

  // ----- users and refresh tokens -----

  datatype User = User(id: string, email: string, passwordHash: string, name: string)

  /** `user.toSafe()`: the user without the password hash. */
  datatype SafeUser = SafeUser(id: string, email: string, name: string)

  function ToSafe(u: User): SafeUser {
    SafeUser(u.id, u.email, u.name)
  }

  datatype RefreshRecord = RefreshRecord(userId: string, token: string, expiresAt: int, revoked: bool)
  datatype TokenPair = TokenPair(accessToken: string, refreshToken: string)
  datatype Session = Session(user: SafeUser, accessToken: string, refreshToken: string)

  /** The record `rotateRefreshToken` accepts: present, not revoked, not past its expiry. */
  predicate Rotatable(tokens: map<string, RefreshRecord>, token: string, now: int) {
    token in tokens && !tokens[token].revoked && !(tokens[token].expiresAt < now)
  }

  /**
   * The user and refresh-token collections. `sign` stands for
   * `signAccessToken`; `newToken` for `randomHex(64)`, fresh by assumption.
   */
  class AuthService {
    var users: map<string, User>
    var tokens: map<string, RefreshRecord>
    const refreshExpiry: string

    /** Each collection is keyed by its unique field. */
    ghost predicate Valid()
      reads this
    {
      (forall e :: e in users ==> users[e].email == e)
      && (forall t :: t in tokens ==> tokens[t].token == t)
    }

    constructor(refreshExpiry: string)
      ensures Valid() && users == map[] && tokens == map[] && this.refreshExpiry == refreshExpiry
    {
      users := map[];
      tokens := map[];
      this.refreshExpiry := refreshExpiry;
    }

    function NewRecord(userId: string, token: string, now: int): (r: RefreshRecord)
      reads this
      ensures r.expiresAt == now + ParseDuration(refreshExpiry) && !r.revoked
    {
      RefreshRecord(userId, token, now + ParseDuration(refreshExpiry), false)
    }

    /** `createRefreshToken(userId)`. */
    method CreateRefreshToken(userId: string, newToken: string, now: int) returns (t: string)
      requires Valid() && newToken !in tokens
      modifies this
      ensures Valid() && t == newToken && users == old(users)
      ensures tokens == old(tokens)[newToken := NewRecord(userId, newToken, now)]
    {
      tokens := tokens[newToken := NewRecord(userId, newToken, now)];
      t := newToken;
    }

    /**
     * `rotateRefreshToken(oldToken)`: an unknown, revoked or expired token is
     * refused and nothing changes; otherwise the old record is revoked and a
     * new token is issued for the same user.
     */
    method RotateRefreshToken(oldToken: string, now: int, newToken: string, sign: string -> string)
      returns (r: Result<TokenPair, Error>)
      requires Valid() && newToken !in tokens
      modifies this
      ensures Valid() && users == old(users)
      ensures r.Ok? <==> Rotatable(old(tokens), oldToken, now)
      ensures r.Err? ==> r.error == NewAuthenticationError("Invalid or expired refresh token") && tokens == old(tokens)
      ensures r.Ok? ==>
        var rec := old(tokens)[oldToken];
        tokens == old(tokens)[oldToken := rec.(revoked := true)][newToken := NewRecord(rec.userId, newToken, now)]
        && r.value == TokenPair(sign(rec.userId), newToken)
      ensures r.Ok? ==> !Rotatable(tokens, oldToken, now) && Rotatable(tokens, newToken, now)
    {
      if !Rotatable(tokens, oldToken, now) {
        return Err(NewAuthenticationError("Invalid or expired refresh token"));
      }
      var rec := tokens[oldToken];
      tokens := tokens[oldToken := rec.(revoked := true)];
      var accessToken := sign(rec.userId);
      var refreshToken := CreateRefreshToken(rec.userId, newToken, now);
      r := Ok(TokenPair(accessToken, refreshToken));
    }

    /** `revokeRefreshToken(token)`: marks the record revoked when there is one. */
    method RevokeRefreshToken(token: string)
      requires Valid()
      modifies this
      ensures Valid() && users == old(users)
      ensures token in old(tokens) ==> tokens == old(tokens)[token := old(tokens)[token].(revoked := true)]
      ensures token !in old(tokens) ==> tokens == old(tokens)
    {
      if token in tokens {
        tokens := tokens[token := tokens[token].(revoked := true)];
      }
    }

    /** `register({ email, password, name })`. */
    method Register(email: string, password: string, name: string, hash: string -> string,
                    newId: string, newToken: string, now: int, sign: string -> string)
      returns (r: Result<Session, Error>)
      requires Valid() && newToken !in tokens
      modifies this
      ensures Valid()
      ensures r.Err? <==> email in old(users)
      ensures r.Err? ==>
        r.error == NewAuthenticationError("Email already registered")
        && users == old(users) && tokens == old(tokens)
      ensures r.Ok? ==>
        users == old(users)[email := User(newId, email, hash(password), name)]
        && tokens == old(tokens)[newToken := NewRecord(newId, newToken, now)]
        && r.value == Session(SafeUser(newId, email, name), sign(newId), newToken)
    {
      if email in users {
        return Err(NewAuthenticationError("Email already registered"));
      }
      var user := User(newId, email, hash(password), name);
      users := users[email := user];
      var accessToken := sign(user.id);
      var refreshToken := CreateRefreshToken(user.id, newToken, now);
      r := Ok(Session(ToSafe(user), accessToken, refreshToken));
    }

    /**
     * `login({ email, password })`: an unknown email and a wrong password are
     * refused with the same error. `verifyPassword` is `bcrypt.compare`.
     */
    method Login(email: string, password: string, verifyPassword: (string, string) -> bool,
                 newToken: string, now: int, sign: string -> string)
      returns (r: Result<Session, Error>)
      requires Valid() && newToken !in tokens
      modifies this
      ensures Valid() && users == old(users)
      ensures r.Ok? <==> email in users && verifyPassword(password, users[email].passwordHash)
      ensures r.Err? ==> r.error == NewAuthenticationError("Invalid credentials") && tokens == old(tokens)
      ensures r.Ok? ==>
        var u := users[email];
        tokens == old(tokens)[newToken := NewRecord(u.id, newToken, now)]
        && r.value == Session(ToSafe(u), sign(u.id), newToken)
    {
      if email !in users {
        return Err(NewAuthenticationError("Invalid credentials"));
      }
      var user := users[email];
      if !verifyPassword(password, user.passwordHash) {
        return Err(NewAuthenticationError("Invalid credentials"));
      }
      var accessToken := sign(user.id);
      var refreshToken := CreateRefreshToken(user.id, newToken, now);
      r := Ok(Session(ToSafe(user), accessToken, refreshToken));
    }
  }
}
