/** `v1/admin/auth`: login and token refresh for admins, and the creation
    of a new admin by a signed-in one. Admin tokens carry the admin's role. */
module AdminAuthController {
  import opened Common
  import opened Store
  import opened AuthService
  import opened Guards

  const AdminInvalidCredentials := Error(Unauthorized, "Invalid credentials")
  const AdminInvalidRefreshToken := Error(Unauthorized, "Invalid refresh token")
  const AdminNotFound := Error(Unauthorized, "Admin not found")

  /** An admin as the routes return it: no password. */
  datatype AdminView = AdminView(id: Id, email: string, name: string, role: AdminRole)

  datatype AdminAuthResponse = AdminAuthResponse(admin: AdminView, tokens: TokenPair)

  function AdminViewOf(a: AdminRow): AdminView
  {
    AdminView(a.id, a.email, a.name, a.role)
  }

  /** The claims of an admin's tokens: the role travels as its stored name. */
  function AdminClaims(a: AdminRow): (p: Payload)
    ensures p.userType == Admin && p.sub == a.id && p.email == a.email
    ensures p.role == Some(AdminRoleName(a.role))
  {
    Payload(a.id, a.email, Admin, Some(AdminRoleName(a.role)))
  }

  function AdminByEmail(admins: seq<AdminRow>, email: string): (k: Option<nat>)
    ensures k.Some? ==> k.value < |admins| && admins[k.value].email == email
    ensures k.None? <==> forall j :: 0 <= j < |admins| ==> admins[j].email != email
  {
    Find(admins, (a: AdminRow) => a.email == email)
  }

  function AdminIndex(admins: seq<AdminRow>, id: Id): (k: Option<nat>)
    ensures k.Some? ==> k.value < |admins| && admins[k.value].id == id
    ensures k.None? <==> forall j :: 0 <= j < |admins| ==> admins[j].id != id
  {
    Find(admins, (a: AdminRow) => a.id == id)
  }

  /** POST login: an unknown email and a wrong password get the same error. */
  function Login(admins: seq<AdminRow>, passwordMatches: (string, string) -> bool,
                 email: string, password: string, config: map<string, string>): (r: Result<AdminAuthResponse>)
    ensures r.Err? <==> AdminByEmail(admins, email).None? || !passwordMatches(password, admins[AdminByEmail(admins, email).value].password)
    ensures r.Err? ==> r.error == AdminInvalidCredentials
    ensures r.Ok? ==> var a := admins[AdminByEmail(admins, email).value];
      a.email == email && r.value == AdminAuthResponse(AdminViewOf(a), GenerateTokens(AdminClaims(a), config))
  {
    match AdminByEmail(admins, email)
    case None => Err(AdminInvalidCredentials)
    case Some(k) =>
      if !passwordMatches(password, admins[k].password) then Err(AdminInvalidCredentials)
      else Ok(AdminAuthResponse(AdminViewOf(admins[k]), GenerateTokens(AdminClaims(admins[k]), config)))
  }

  /** A signed-in admin passes `AdminGuard`, and tokens from a login carry
      the admin's role. */
  lemma LoginTokensPassAdminGuard(admins: seq<AdminRow>, passwordMatches: (string, string) -> bool,
                                  email: string, password: string, config: map<string, string>)
    requires Login(admins, passwordMatches, email, password, config).Ok?
    ensures var t := Login(admins, passwordMatches, email, password, config).value.tokens;
      AdminGuard(Some(t.accessToken.payload)) == Ok(true) &&
      t.accessToken.payload.role == Some(AdminRoleName(Login(admins, passwordMatches, email, password, config).value.admin.role))
  {
    var a := admins[AdminByEmail(admins, email).value];
    assert Login(admins, passwordMatches, email, password, config).value.tokens == GenerateTokens(AdminClaims(a), config);
  }

  datatype CreateAdminForm = CreateAdminForm(email: string, password: string, name: string, role: Option<AdminRole>)

  /** The row `admin.create` writes: the role defaults to moderator. */
  function NewAdmin(id: Id, form: CreateAdminForm, hashed: string): (a: AdminRow)
    ensures a.id == id && a.email == form.email && a.password == hashed && a.name == form.name
    ensures a.role == (if form.role.Some? then form.role.value else Moderator)
  {
    AdminRow(id, form.email, hashed, form.name, if form.role.Some? then form.role.value else Moderator)
  }

  /** POST create, behind `AdminGuard`. The route does not look for the
      email first: a taken email fails on the unique index. Any admin may
      create an admin of any role. */
  method CreateAdmin(db: Db, caller: Option<Payload>, form: CreateAdminForm, hashed: string, newId: Id)
    returns (r: Result<AdminView>)
    requires db.Valid()
    requires AdminIndex(db.admins, newId).None?
    modifies db`admins
    ensures db.Valid()
    ensures AdminGuard(caller).Err? ==> r == Err(AdminGuard(caller).error) && db.admins == old(db.admins)
    ensures AdminGuard(caller).Ok? && AdminByEmail(old(db.admins), form.email).Some? ==>
      r == Err(InternalError) && db.admins == old(db.admins)
    ensures AdminGuard(caller).Ok? && AdminByEmail(old(db.admins), form.email).None? ==>
      var a := NewAdmin(newId, form, hashed);
      db.admins == old(db.admins) + [a] && r == Ok(AdminViewOf(a))
  {
    var guard := AdminGuard(caller);
    if guard.Err? {
      return Err(guard.error);
    }
    if AdminByEmail(db.admins, form.email).Some? {
      return Err(InternalError);
    }
    var a := NewAdmin(newId, form, hashed);
    UniqueAppend(db.admins, a, (x: AdminRow) => x.id);
    UniqueAppend(db.admins, a, (x: AdminRow) => x.email);
    db.admins := db.admins + [a];
    r := Ok(AdminViewOf(a));
  }

  /** POST refresh: the token must verify and be an admin's, and the admin
      must still exist; the new tokens carry the stored role. */
  function Refresh(verifier: map<string, Payload>, admins: seq<AdminRow>, refreshToken: string,
                   config: map<string, string>): (r: Result<TokenPair>)
    ensures VerifyToken(verifier, refreshToken).None? ==> r == Err(AdminInvalidRefreshToken)
    ensures VerifyToken(verifier, refreshToken).Some? && VerifyToken(verifier, refreshToken).value.userType != Admin ==>
      r == Err(AdminInvalidRefreshToken)
    ensures VerifyToken(verifier, refreshToken).Some? && VerifyToken(verifier, refreshToken).value.userType == Admin ==>
      var k := AdminIndex(admins, VerifyToken(verifier, refreshToken).value.sub);
      (k.None? ==> r == Err(AdminNotFound)) &&
      (k.Some? ==> r == Ok(GenerateTokens(AdminClaims(admins[k.value]), config)))
  {
    match VerifyToken(verifier, refreshToken)
    case None => Err(AdminInvalidRefreshToken)
    case Some(payload) =>
      if payload.userType != Admin then Err(AdminInvalidRefreshToken)
      else match AdminIndex(admins, payload.sub)
        case None => Err(AdminNotFound)
        case Some(k) => Ok(GenerateTokens(AdminClaims(admins[k]), config))
  }
}
