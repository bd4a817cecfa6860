/** Token issuing and checking. Signing and verifying JSON Web Tokens and
    bcrypt hashing are foreign calls: a signed token is represented by what
    it carries, and verification by a partial map from token text to payload. */
module AuthService {
  import opened Common
  import opened Text

  /** What `jwtService.sign` produces: the payload and, when overridden, the
      expiry (otherwise the module-wide default applies). */
  datatype Jwt = Jwt(payload: Payload, expiresIn: Option<string>)

  datatype TokenPair = TokenPair(accessToken: Jwt, refreshToken: Jwt, expiresIn: nat)

  predicate IsUnit(c: char) { c == 's' || c == 'm' || c == 'h' || c == 'd' }

  function UnitSeconds(c: char): nat
    requires IsUnit(c)
  {
    match c
    case 's' => 1
    case 'm' => 60
    case 'h' => 3600
    case _ => 86400
  }

  /** The duration syntax `^(\d+)([smhd])$`: one or more decimal digits and a
      single unit letter, nothing before or after. */
  predicate IsDuration(d: string)
  {
    |d| >= 2 && AllDigits(d[..|d| - 1]) && IsUnit(d[|d| - 1])
  }

  const FALLBACK_SECONDS: nat := 900

  /** Seconds in a duration such as "15m"; any other text gives 900. */
  function ExpiresInSeconds(duration: string): (secs: nat)
    ensures !IsDuration(duration) ==> secs == FALLBACK_SECONDS
  {
    if IsDuration(duration) then
      DigitsValue(duration[..|duration| - 1]) * UnitSeconds(duration[|duration| - 1])
    else FALLBACK_SECONDS
  }

  /** Rendering a count and a unit and parsing it back gives the count scaled
      by the unit, for every count (leading zeros aside). */
  lemma {:induction false} ExpiresInRoundTrip(n: nat, unit: char)
    requires IsUnit(unit)
    ensures IsDuration(NatToString(n) + [unit])
    ensures ExpiresInSeconds(NatToString(n) + [unit]) == n * UnitSeconds(unit)
  {
    var d := NatToString(n) + [unit];
    assert d[..|d| - 1] == NatToString(n);
    NatToStringRoundTrip(n);
  }

  /** Leading zeros are accepted and count for nothing. */
  lemma {:induction false} LeadingZerosIgnored(n: nat, unit: char)
    requires IsUnit(unit)
    ensures ExpiresInSeconds("0" + NatToString(n) + [unit]) == n * UnitSeconds(unit)
  {
    var digits := "0" + NatToString(n);
    var d := digits + [unit];
    assert d[..|d| - 1] == digits;
    assert digits[..|digits| - 1] == "0" + NatToString(n)[..|digits| - 2];
    LeadingZeroValue(NatToString(n));
    NatToStringRoundTrip(n);
  }

  lemma {:induction false} LeadingZeroValue(s: string)
    requires AllDigits(s)
    ensures AllDigits("0" + s) && DigitsValue("0" + s) == DigitsValue(s)
  {
    if s != [] {
      var t := "0" + s;
      assert t[..|t| - 1] == "0" + s[..|s| - 1];
      LeadingZeroValue(s[..|s| - 1]);
    }
  }

  lemma FifteenMinutes()
    ensures ExpiresInSeconds("15m") == 900
  {
    assert "15m"[..2] == "15";
    assert "15"[..1] == "1";
    assert "1"[..0] == "";
  }

  /** Examples of the fallback and of the accepted forms; the default
      access-token lifetime "15m" is worth exactly the fallback. */
  lemma ExpiresInExamples()
    ensures ExpiresInSeconds("15m") == FALLBACK_SECONDS
    ensures ExpiresInSeconds("1w") == 900
    ensures ExpiresInSeconds("15") == 900
    ensures ExpiresInSeconds(" 15m") == 900
    ensures ExpiresInSeconds("0s") == 0
    ensures ExpiresInSeconds("7d") == 604800
  {
    FifteenMinutes();
    assert " 15m"[..3][0] == ' ';
    assert "0s"[..1] == "0" && "0"[..0] == "";
    assert "7d"[..1] == "7" && "7"[..0] == "";
    assert "15"[..1] == "1";
  }

  /** `generateTokens`: the access and refresh tokens sign the same payload;
      only the refresh token overrides the expiry (JWT_REFRESH_EXPIRES_IN,
      "7d" by default), and `expiresIn` is the access lifetime in seconds
      (JWT_EXPIRES_IN, "15m" by default). */
  function GenerateTokens(payload: Payload, config: map<string, string>): (t: TokenPair)
    ensures t.accessToken.payload == payload && t.refreshToken.payload == payload
    ensures t.accessToken.expiresIn.None?
    ensures t.refreshToken.expiresIn == Some(ConfigGet(config, "JWT_REFRESH_EXPIRES_IN", "7d"))
    ensures t.expiresIn == ExpiresInSeconds(ConfigGet(config, "JWT_EXPIRES_IN", "15m"))
    ensures "JWT_EXPIRES_IN" !in config ==> t.expiresIn == 900
  {
    FifteenMinutes();
    TokenPair(
      Jwt(payload, None),
      Jwt(payload, Some(ConfigGet(config, "JWT_REFRESH_EXPIRES_IN", "7d"))),
      ExpiresInSeconds(ConfigGet(config, "JWT_EXPIRES_IN", "15m")))
  }

  /** A configured lifetime such as "30m" is reported as that many seconds. */
  lemma ConfiguredLifetime(payload: Payload, config: map<string, string>, n: nat, unit: char)
    requires IsUnit(unit) && "JWT_EXPIRES_IN" in config && config["JWT_EXPIRES_IN"] == NatToString(n) + [unit]
    ensures GenerateTokens(payload, config).expiresIn == n * UnitSeconds(unit)
  {
    ExpiresInRoundTrip(n, unit);
  }

  /** `verifyToken`: the payload of a token that verifies, and None (never an
      exception) for any token that does not. `verifier` stands for
      `jwtService.verify` with the configured secret and the current time. */
  function VerifyToken(verifier: map<string, Payload>, token: string): (p: Option<Payload>)
    ensures p.Some? <==> token in verifier
    ensures p.Some? ==> p.value == verifier[token]
  {
    if token in verifier then Some(verifier[token]) else None
  }
}
