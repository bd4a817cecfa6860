/** `v1/owner/auth`: registration, login, token refresh and the two
    password-reset routes for plant owners. bcrypt is a foreign call: the new
    hash is a parameter, and `passwordMatches` stands for
    `comparePasswords(plain, hash)`. */
module OwnerAuthController {
  import opened Common
  import opened Store
  import opened AuthService

  const OwnerEmailTaken := Error(Conflict, "Email already registered")
  const OwnerInvalidCredentials := Error(Unauthorized, "Invalid credentials")
  const OwnerInvalidRefreshToken := Error(Unauthorized, "Invalid refresh token")
  const OwnerNotFound := Error(Unauthorized, "Owner not found")
  const ResetLinkSent := "If the email exists, a reset link has been sent"
  const InvalidResetToken := Error(NotFound, "Invalid or expired reset token")

  /** An owner as the auth routes return it: no password. */
  datatype OwnerView = OwnerView(id: Id, email: string, name: string, phone: Option<string>)

  datatype OwnerAuthResponse = OwnerAuthResponse(owner: OwnerView, tokens: TokenPair)

  function OwnerViewOf(o: OwnerRow): OwnerView
  {
    OwnerView(o.id, o.email, o.name, o.phone)
  }

  /** The claims of an owner's tokens. */
  function OwnerClaims(o: OwnerRow): Payload
  {
    Payload(o.id, o.email, Owner, None)
  }

  function OwnerByEmail(owners: seq<OwnerRow>, email: string): (k: Option<nat>)
    ensures k.Some? ==> k.value < |owners| && owners[k.value].email == email
    ensures k.None? <==> forall j :: 0 <= j < |owners| ==> owners[j].email != email
  {
    Find(owners, (o: OwnerRow) => o.email == email)
  }

  function OwnerIndex(owners: seq<OwnerRow>, id: Id): (k: Option<nat>)
    ensures k.Some? ==> k.value < |owners| && owners[k.value].id == id
    ensures k.None? <==> forall j :: 0 <= j < |owners| ==> owners[j].id != id
  {
    Find(owners, (o: OwnerRow) => o.id == id)
  }

  datatype OwnerRegisterForm = OwnerRegisterForm(email: string, password: string, name: string, phone: Option<string>)

  /** The row `owner.create` writes. */
  function NewOwner(id: Id, form: OwnerRegisterForm, hashed: string): (o: OwnerRow)
    ensures o.id == id && o.email == form.email && o.password == hashed
    ensures o.name == form.name && o.phone == form.phone
    ensures o.readReceiptsEnabled == DefaultReadReceipts
  {
    OwnerRow(id, form.email, hashed, form.name, form.phone, DefaultReadReceipts)
  }

  /** POST register: a taken email is refused; otherwise the owner is
      stored and signed in. */
  method Register(db: Db, form: OwnerRegisterForm, hashed: string, newId: Id, config: map<string, string>)
    returns (r: Result<OwnerAuthResponse>)
    requires db.Valid()
    requires OwnerIndex(db.owners, newId).None?
    modifies db`owners
    ensures db.Valid()
    ensures OwnerByEmail(old(db.owners), form.email).Some? ==>
      r == Err(OwnerEmailTaken) && db.owners == old(db.owners)
    ensures OwnerByEmail(old(db.owners), form.email).None? ==>
      var o := NewOwner(newId, form, hashed);
      db.owners == old(db.owners) + [o] &&
      r == Ok(OwnerAuthResponse(OwnerViewOf(o), GenerateTokens(OwnerClaims(o), config)))
  {
    if OwnerByEmail(db.owners, form.email).Some? {
      return Err(OwnerEmailTaken);
    }
    var o := NewOwner(newId, form, hashed);
    UniqueAppend(db.owners, o, (x: OwnerRow) => x.id);
    UniqueAppend(db.owners, o, (x: OwnerRow) => x.email);
    db.owners := db.owners + [o];
    r := Ok(OwnerAuthResponse(OwnerViewOf(o), GenerateTokens(OwnerClaims(o), config)));
  }

  /** POST login: an unknown email and a wrong password get the same error. */
  function Login(owners: seq<OwnerRow>, passwordMatches: (string, string) -> bool,
                 email: string, password: string, config: map<string, string>): (r: Result<OwnerAuthResponse>)
    ensures r.Err? <==> OwnerByEmail(owners, email).None? || !passwordMatches(password, owners[OwnerByEmail(owners, email).value].password)
    ensures r.Err? ==> r.error == OwnerInvalidCredentials
    ensures r.Ok? ==> var o := owners[OwnerByEmail(owners, email).value];
      o.email == email && r.value == OwnerAuthResponse(OwnerViewOf(o), GenerateTokens(OwnerClaims(o), config))
  {
    match OwnerByEmail(owners, email)
    case None => Err(OwnerInvalidCredentials)
    case Some(k) =>
      if !passwordMatches(password, owners[k].password) then Err(OwnerInvalidCredentials)
      else Ok(OwnerAuthResponse(OwnerViewOf(owners[k]), GenerateTokens(OwnerClaims(owners[k]), config)))
  }

  /** POST refresh: the token must verify and be an owner's, and the owner
      must still exist. */
  function Refresh(verifier: map<string, Payload>, owners: seq<OwnerRow>, refreshToken: string,
                   config: map<string, string>): (r: Result<TokenPair>)
    ensures VerifyToken(verifier, refreshToken).None? ==> r == Err(OwnerInvalidRefreshToken)
    ensures VerifyToken(verifier, refreshToken).Some? && VerifyToken(verifier, refreshToken).value.userType != Owner ==>
      r == Err(OwnerInvalidRefreshToken)
    ensures VerifyToken(verifier, refreshToken).Some? && VerifyToken(verifier, refreshToken).value.userType == Owner ==>
      var k := OwnerIndex(owners, VerifyToken(verifier, refreshToken).value.sub);
      (k.None? ==> r == Err(OwnerNotFound)) &&
      (k.Some? ==> r == Ok(GenerateTokens(OwnerClaims(owners[k.value]), config)))
  {
    match VerifyToken(verifier, refreshToken)
    case None => Err(OwnerInvalidRefreshToken)
    case Some(payload) =>
      if payload.userType != Owner then Err(OwnerInvalidRefreshToken)
      else match OwnerIndex(owners, payload.sub)
        case None => Err(OwnerNotFound)
        case Some(k) => Ok(GenerateTokens(OwnerClaims(owners[k]), config))
  }

  /** POST password/reset: the same answer whether or not the email is
      registered, so the route does not reveal which emails exist. */
  function RequestPasswordReset(owners: seq<OwnerRow>, email: string): (message: string)
    ensures message == ResetLinkSent
  {
    if OwnerByEmail(owners, email).None? then ResetLinkSent else ResetLinkSent
  }

  /** POST password/confirm: no reset token is ever accepted. */
  function ConfirmPasswordReset(token: string, newPassword: string): (r: Result<bool>)
    ensures r == Err(InvalidResetToken)
  {
    Err(InvalidResetToken)
  }
}
