/** `v1/consumer/auth`: display-name availability, registration, login and
    token refresh for consumers. Display names are stored lower-cased and
    looked up lower-cased; emails are used exactly as given. bcrypt is a
    foreign call: the new hash is a parameter, and `passwordMatches` stands
    for `comparePasswords(plain, hash)`. */
module ConsumerAuthController {
  import opened Common
  import opened Text
  import opened Store
  import opened AuthService

  const EmailTaken := Error(Conflict, "Email already registered")
  const DisplayNameTaken := Error(Conflict, "Display name already taken")
  const InvalidCredentials := Error(Unauthorized, "Invalid credentials")
  const InvalidRefreshToken := Error(Unauthorized, "Invalid refresh token")
  const ConsumerNotFound := Error(Unauthorized, "Consumer not found")

  /** A consumer as the routes return it: every column but the password. */
  datatype ConsumerView = ConsumerView(id: Id, email: string, displayName: string, name: Option<string>, phone: Option<string>)

  datatype AuthResponse = AuthResponse(consumer: ConsumerView, tokens: TokenPair)

  function ViewOf(c: ConsumerRow): ConsumerView
  {
    ConsumerView(c.id, c.email, c.displayName, c.name, c.phone)
  }

  /** The claims of a consumer's tokens. */
  function ClaimsOf(c: ConsumerRow): Payload
  {
    Payload(c.id, c.email, Consumer, None)
  }

  function ByEmail(consumers: seq<ConsumerRow>, email: string): (k: Option<nat>)
    ensures k.Some? ==> k.value < |consumers| && consumers[k.value].email == email
    ensures k.None? <==> forall j :: 0 <= j < |consumers| ==> consumers[j].email != email
  {
    Find(consumers, (c: ConsumerRow) => c.email == email)
  }

  function ByDisplayName(consumers: seq<ConsumerRow>, displayName: string): (k: Option<nat>)
    ensures k.Some? ==> k.value < |consumers| && consumers[k.value].displayName == displayName
    ensures k.None? <==> forall j :: 0 <= j < |consumers| ==> consumers[j].displayName != displayName
  {
    Find(consumers, (c: ConsumerRow) => c.displayName == displayName)
  }

  function ById(consumers: seq<ConsumerRow>, id: Id): (k: Option<nat>)
    ensures k.Some? ==> k.value < |consumers| && consumers[k.value].id == id
    ensures k.None? <==> forall j :: 0 <= j < |consumers| ==> consumers[j].id != id
  {
    Find(consumers, (c: ConsumerRow) => c.id == id)
  }

  /** Every stored display name is already lower-case. */
  predicate LowerNames(consumers: seq<ConsumerRow>)
  {
    forall i :: 0 <= i < |consumers| ==> Lower(consumers[i].displayName) == consumers[i].displayName
  }

  /** With lower-case, unique names stored, no two consumers' names differ
      only in case. */
  lemma NamesUniqueIgnoringCase(consumers: seq<ConsumerRow>)
    requires LowerNames(consumers) && ConsumersOk(consumers)
    ensures forall i, j :: 0 <= i < j < |consumers| ==> Lower(consumers[i].displayName) != Lower(consumers[j].displayName)
  {
  }

  // ---------------------------------------------------------------------
  // check-display-name

  datatype Availability = Availability(displayName: string, available: bool)

  /** GET check-display-name: the name comes back as asked, and it is
      available exactly when no consumer holds its lower-case form. */
  function CheckDisplayName(consumers: seq<ConsumerRow>, displayName: string): (r: Availability)
    ensures r.displayName == displayName
    ensures r.available <==> forall j :: 0 <= j < |consumers| ==> consumers[j].displayName != Lower(displayName)
  {
    Availability(displayName, ByDisplayName(consumers, Lower(displayName)).None?)
  }

  /** Names differing only in case get the same answer. */
  lemma CheckIgnoresCase(consumers: seq<ConsumerRow>, name: string)
    ensures CheckDisplayName(consumers, name).available == CheckDisplayName(consumers, Lower(name)).available
  {
    LowerIdempotent(name);
  }

  // ---------------------------------------------------------------------
  // register

  datatype RegisterForm = RegisterForm(email: string, password: string, displayName: string,
                                       name: Option<string>, phone: Option<string>)

  /** The row `consumer.create` writes. */
  function NewConsumer(id: Id, form: RegisterForm, hashed: string): (c: ConsumerRow)
    ensures c.id == id && c.email == form.email && c.password == hashed
    ensures c.displayName == Lower(form.displayName)
  {
    ConsumerRow(id, form.email, hashed, Lower(form.displayName), form.name, form.phone, DefaultReadReceipts)
  }

  /** POST register: the email is checked first, then the lower-cased
      display name; only then is the consumer stored and signed in. */
  method Register(db: Db, form: RegisterForm, hashed: string, newId: Id, config: map<string, string>)
    returns (r: Result<AuthResponse>)
    requires db.Valid()
    requires ById(db.consumers, newId).None?
    modifies db`consumers
    ensures db.Valid()
    ensures LowerNames(old(db.consumers)) ==> LowerNames(db.consumers)
    ensures ByEmail(old(db.consumers), form.email).Some? ==>
      r == Err(EmailTaken) && db.consumers == old(db.consumers)
    ensures ByEmail(old(db.consumers), form.email).None? && ByDisplayName(old(db.consumers), Lower(form.displayName)).Some? ==>
      r == Err(DisplayNameTaken) && db.consumers == old(db.consumers)
    ensures ByEmail(old(db.consumers), form.email).None? && ByDisplayName(old(db.consumers), Lower(form.displayName)).None? ==>
      var c := NewConsumer(newId, form, hashed);
      db.consumers == old(db.consumers) + [c] &&
      r == Ok(AuthResponse(ViewOf(c), GenerateTokens(ClaimsOf(c), config)))
  {
    if ByEmail(db.consumers, form.email).Some? {
      return Err(EmailTaken);
    }
    if ByDisplayName(db.consumers, Lower(form.displayName)).Some? {
      return Err(DisplayNameTaken);
    }
    var c := NewConsumer(newId, form, hashed);
    UniqueAppend(db.consumers, c, (x: ConsumerRow) => x.id);
    UniqueAppend(db.consumers, c, (x: ConsumerRow) => x.email);
    UniqueAppend(db.consumers, c, (x: ConsumerRow) => x.displayName);
    LowerIdempotent(form.displayName);
    db.consumers := db.consumers + [c];
    r := Ok(AuthResponse(ViewOf(c), GenerateTokens(ClaimsOf(c), config)));
  }

  // ---------------------------------------------------------------------
  // login and refresh

  /** POST login: an unknown email and a wrong password get the same error. */
  function Login(consumers: seq<ConsumerRow>, passwordMatches: (string, string) -> bool,
                 email: string, password: string, config: map<string, string>): (r: Result<AuthResponse>)
    ensures r.Err? <==> ByEmail(consumers, email).None? || !passwordMatches(password, consumers[ByEmail(consumers, email).value].password)
    ensures r.Err? ==> r.error == InvalidCredentials
    ensures r.Ok? ==> var c := consumers[ByEmail(consumers, email).value];
      c.email == email && r.value == AuthResponse(ViewOf(c), GenerateTokens(ClaimsOf(c), config))
  {
    match ByEmail(consumers, email)
    case None => Err(InvalidCredentials)
    case Some(k) =>
      if !passwordMatches(password, consumers[k].password) then Err(InvalidCredentials)
      else Ok(AuthResponse(ViewOf(consumers[k]), GenerateTokens(ClaimsOf(consumers[k]), config)))
  }

  /** POST refresh: the token must verify and be a consumer's, and the
      consumer must still exist; the new tokens carry the stored email. */
  function Refresh(verifier: map<string, Payload>, consumers: seq<ConsumerRow>, refreshToken: string,
                   config: map<string, string>): (r: Result<TokenPair>)
    ensures VerifyToken(verifier, refreshToken).None? ==> r == Err(InvalidRefreshToken)
    ensures VerifyToken(verifier, refreshToken).Some? && VerifyToken(verifier, refreshToken).value.userType != Consumer ==>
      r == Err(InvalidRefreshToken)
    ensures VerifyToken(verifier, refreshToken).Some? && VerifyToken(verifier, refreshToken).value.userType == Consumer ==>
      var k := ById(consumers, VerifyToken(verifier, refreshToken).value.sub);
      (k.None? ==> r == Err(ConsumerNotFound)) &&
      (k.Some? ==> r == Ok(GenerateTokens(ClaimsOf(consumers[k.value]), config)))
  {
    match VerifyToken(verifier, refreshToken)
    case None => Err(InvalidRefreshToken)
    case Some(payload) =>
      if payload.userType != Consumer then Err(InvalidRefreshToken)
      else match ById(consumers, payload.sub)
        case None => Err(ConsumerNotFound)
        case Some(k) => Ok(GenerateTokens(ClaimsOf(consumers[k]), config))
  }
}
