/**
 * AuthService: credential check, token-pair issue, refresh-token rotation, logout and signup.
 *
 * The store keeps, per employee, at most the digest of the one refresh token last issued.
 * Issuing a pair overwrites it, so a refresh token is accepted only until the next pair is
 * issued for the same employee, and logout clears it.
 */
module Auth {
  import opened Wrappers
  import opened Crypto
  import opened Store

  /** The environment variables the service reads. */
  datatype Env = Env(jwtRefreshSecret: Option<string>, jwtRefreshExpiresIn: Option<string>)

  const DefaultRefreshSecret := "mcplanning-refresh-secret"
  const DefaultRefreshExpiresIn := "7d"
  const InvalidCredentials := Unauthorized("Identifiants invalides")
  const InvalidToken := Unauthorized("Token invalide")

  /** The refresh secret from the environment, or the built-in default when unset or empty (`||`). */
  function RefreshSecret(env: Env): (s: string)
    ensures s != ""
    ensures env.jwtRefreshSecret.Some? && env.jwtRefreshSecret.value != "" ==> s == env.jwtRefreshSecret.value
    ensures env.jwtRefreshSecret.None? || env.jwtRefreshSecret.value == "" ==> s == DefaultRefreshSecret
  {
    match env.jwtRefreshSecret
    case Some(v) => if v != "" then v else DefaultRefreshSecret
    case None => DefaultRefreshSecret
  }

  /** The refresh lifetime from the environment, or seven days when unset (`??`, so an empty value stays). */
  function RefreshExpiresIn(env: Env): (e: string)
    ensures env.jwtRefreshExpiresIn.None? ==> e == DefaultRefreshExpiresIn
    ensures env.jwtRefreshExpiresIn.Some? ==> e == env.jwtRefreshExpiresIn.value
  {
    env.jwtRefreshExpiresIn.GetOr(DefaultRefreshExpiresIn)
  }

  datatype TokenPair = TokenPair(accessToken: string, refreshToken: string)

  /** The payload both tokens carry. */
  function ClaimsOf(e: Employee): Claims {
    Claims(e.id, e.email, e.role, e.organizationId)
  }

  /** issueTokens: the access token under the module's defaults, the refresh token under its own secret. */
  function IssueTokens(claims: Claims, env: Env, jwt: Jwt): (t: TokenPair)
    ensures t.accessToken == jwt.sign(claims, ModuleDefaults)
    ensures t.refreshToken == jwt.sign(claims, Custom(RefreshSecret(env), RefreshExpiresIn(env)))
  {
    TokenPair(jwt.sign(claims, ModuleDefaults),
              jwt.sign(claims, Custom(RefreshSecret(env), RefreshExpiresIn(env))))
  }

  /** Both tokens of a pair verify, each under its own key, to the same payload. */
  lemma IssuedTokensCarryClaims(claims: Claims, env: Env, jwt: Jwt)
    requires RoundTrip(jwt)
    ensures jwt.verify(IssueTokens(claims, env, jwt).accessToken, ModuleSecret) == Some(claims)
    ensures jwt.verify(IssueTokens(claims, env, jwt).refreshToken, Secret(RefreshSecret(env))) == Some(claims)
  {
  }

  /** The `user` object of a session response: the employee without its digests. */
  datatype UserView = UserView(id: int, name: string, email: string, role: string, status: EmployeeStatus,
                               organizationId: int)

  function ViewOf(e: Employee): UserView {
    UserView(e.id, e.name, e.email, e.role, e.status, e.organizationId)
  }

  /** The response of login, signup and refresh; only an admin signup returns the organization code. */
  datatype Session = Session(accessToken: string, refreshToken: string, organizationCode: Option<string>,
                             user: UserView)

  function SessionOf(e: Employee, t: TokenPair, code: Option<string>): Session {
    Session(t.accessToken, t.refreshToken, code, ViewOf(e))
  }

  /** The employee table once `id`'s refresh-token digest is `h`. */
  function WithRefreshHash(employees: map<int, Employee>, id: int, h: Option<Digest>): (r: map<int, Employee>)
    requires id in employees
    ensures r.Keys == employees.Keys
    ensures forall k :: k in r && k != id ==> r[k] == employees[k]
    ensures r[id].refreshTokenHash == h && r[id] == employees[id].(refreshTokenHash := h)
  {
    employees[id := employees[id].(refreshTokenHash := h)]
  }

  /**
   * The first half of login: lookup by the unique email, then the password check. An unknown
   * email and a wrong password raise the same error.
   */
  function CheckCredentials(employees: map<int, Employee>, email: string, password: string): (r: Result<Employee, Error>)
    requires EmployeeTable(employees)
    ensures r.Ok? <==> exists k :: k in employees && employees[k].email == email && Compare(password, employees[k].password)
    ensures r.Ok? ==> r.value.id in employees && employees[r.value.id] == r.value && r.value.email == email
    ensures r.Err? ==> r.error == InvalidCredentials
  {
    match FindByEmail(employees, email)
    case None => Err(InvalidCredentials)
    case Some(k) => if Compare(password, employees[k].password) then Ok(employees[k]) else Err(InvalidCredentials)
  }

  /** Unknown email and wrong password cannot be told apart. */
  lemma LoginFailuresAlike(employees: map<int, Employee>, unknown: string, guess: string, k: int, wrong: string)
    requires EmployeeTable(employees)
    requires !EmailTaken(employees, unknown)
    requires k in employees && !Compare(wrong, employees[k].password)
    ensures CheckCredentials(employees, unknown, guess) == CheckCredentials(employees, employees[k].email, wrong)
    ensures CheckCredentials(employees, unknown, guess) == Err(InvalidCredentials)
  {
  }

  /**
   * The first half of refreshTokens: verification under the refresh secret, the employee named
   * by `sub`, a stored digest, and that digest matching the presented token. Every failure is
   * the one error `Token invalide`.
   */
  function CheckRefreshToken(employees: map<int, Employee>, token: string, env: Env, jwt: Jwt): (r: Result<Employee, Error>)
    requires EmployeeTable(employees)
    ensures r.Ok? <==>
      (var p := jwt.verify(token, Secret(RefreshSecret(env)));
       p.Some? && p.value.sub in employees && employees[p.value.sub].refreshTokenHash == Some(Hash(token)))
    ensures r.Ok? ==> r.value.id == jwt.verify(token, Secret(RefreshSecret(env))).value.sub
                      && employees[r.value.id] == r.value
    ensures r.Err? ==> r.error == InvalidToken
  {
    match jwt.verify(token, Secret(RefreshSecret(env)))
    case None => Err(InvalidToken)
    case Some(p) =>
      if p.sub !in employees || employees[p.sub].refreshTokenHash.None? then Err(InvalidToken)
      else if !Compare(token, employees[p.sub].refreshTokenHash.value) then Err(InvalidToken)
      else Ok(employees[p.sub])
  }

  /** A refresh token just issued and stored for `id` is accepted by the next refresh. */
  lemma IssuedRefreshTokenAccepted(employees: map<int, Employee>, id: int, env: Env, jwt: Jwt)
    requires EmployeeTable(employees) && id in employees
    requires RoundTrip(jwt)
    ensures var issued := IssueTokens(ClaimsOf(employees[id]), env, jwt).refreshToken;
            var stored := WithRefreshHash(employees, id, Some(Hash(issued)));
            EmployeeTable(stored) && CheckRefreshToken(stored, issued, env, jwt) == Ok(stored[id])
  {
    var issued := IssueTokens(ClaimsOf(employees[id]), env, jwt).refreshToken;
    IssuedTokensCarryClaims(ClaimsOf(employees[id]), env, jwt);
    assert jwt.verify(issued, Secret(RefreshSecret(env))) == Some(ClaimsOf(employees[id]));
  }

  /**
   * Rotation: once a refresh through `token` has stored the digest of a different new token,
   * presenting `token` again fails, for any later verifier that either rejects `token` or
   * reads the same payload from it.
   */
  lemma RotationRejectsReplay(employees: map<int, Employee>, token: string, env: Env, jwt: Jwt, later: Jwt)
    requires EmployeeTable(employees)
    requires CheckRefreshToken(employees, token, env, jwt).Ok?
    requires IssueTokens(ClaimsOf(CheckRefreshToken(employees, token, env, jwt).value), env, jwt).refreshToken != token
    requires later.verify(token, Secret(RefreshSecret(env))).Some? ==>
               later.verify(token, Secret(RefreshSecret(env))) == jwt.verify(token, Secret(RefreshSecret(env)))
    ensures var u := CheckRefreshToken(employees, token, env, jwt).value;
            var issued := IssueTokens(ClaimsOf(u), env, jwt).refreshToken;
            var stored := WithRefreshHash(employees, u.id, Some(Hash(issued)));
            EmployeeTable(stored) && CheckRefreshToken(stored, token, env, later) == Err(InvalidToken)
  {
  }

  /** The refresh check as written, with bcryptjs's digest, which ignores everything past the 72nd byte. */
  function CheckRefreshTokenAsWritten(employees: map<int, Employee>, token: string, env: Env, jwt: Jwt)
    : (r: Result<Employee, Error>)
    requires EmployeeTable(employees)
    ensures r.Ok? <==>
      (var p := jwt.verify(token, Secret(RefreshSecret(env)));
       p.Some? && p.value.sub in employees && employees[p.value.sub].refreshTokenHash.Some?
       && TruncatedCompare(token, employees[p.value.sub].refreshTokenHash.value))
    ensures r.Ok? ==> r.value.id == jwt.verify(token, Secret(RefreshSecret(env))).value.sub
                      && employees[r.value.id] == r.value
    ensures r.Err? ==> r.error == InvalidToken
  {
    match jwt.verify(token, Secret(RefreshSecret(env)))
    case None => Err(InvalidToken)
    case Some(p) =>
      if p.sub !in employees || employees[p.sub].refreshTokenHash.None? then Err(InvalidToken)
      else if !TruncatedCompare(token, employees[p.sub].refreshTokenHash.value) then Err(InvalidToken)
      else Ok(employees[p.sub])
  }

  /**
   * With bcryptjs's digest, rotation does not retire the old token: when the stored digest is that
   * of a new token agreeing with the old one on its first 72 characters, the old token, while it
   * still verifies, is accepted again.
   */
  lemma RotationAsWrittenAcceptsReplay(employees: map<int, Employee>, id: int, token: string, env: Env, jwt: Jwt)
    requires EmployeeTable(employees) && id in employees
    requires jwt.verify(token, Secret(RefreshSecret(env))) == Some(ClaimsOf(employees[id]))
    requires var issued := IssueTokens(ClaimsOf(employees[id]), env, jwt).refreshToken;
             && issued != token
             && BcryptInputLimit <= |token| && BcryptInputLimit <= |issued|
             && token[..BcryptInputLimit] == issued[..BcryptInputLimit]
    ensures var issued := IssueTokens(ClaimsOf(employees[id]), env, jwt).refreshToken;
            var stored := WithRefreshHash(employees, id, Some(TruncatedHash(issued)));
            EmployeeTable(stored) && CheckRefreshTokenAsWritten(stored, token, env, jwt) == Ok(stored[id])
  {
    var issued := IssueTokens(ClaimsOf(employees[id]), env, jwt).refreshToken;
    TruncatedCompareIgnoresTail(token, issued);
  }

  /** After logout of `id`, no refresh token naming `id` is accepted. */
  lemma LogoutRevokes(employees: map<int, Employee>, id: int, token: string, env: Env, jwt: Jwt)
    requires EmployeeTable(employees) && id in employees
    requires jwt.verify(token, Secret(RefreshSecret(env))).Some? ==> jwt.verify(token, Secret(RefreshSecret(env))).value.sub == id
    ensures var cleared := WithRefreshHash(employees, id, None);
            EmployeeTable(cleared) && CheckRefreshToken(cleared, token, env, jwt) == Err(InvalidToken)
  {
  }

  datatype SignupDto = SignupDto(name: string, email: string, password: string, role: string,
                                 status: Option<EmployeeStatus>, orgName: Option<string>, orgCode: Option<string>)

  /** The organization a non-admin signup joins, by its code. */
  function JoinTarget(organizations: map<int, Organization>, orgCode: Option<string>): (r: Result<int, Error>)
    requires OrganizationTable(organizations)
    ensures r.Ok? <==> orgCode.Some? && orgCode.value != "" && CodeTaken(organizations, orgCode.value)
    ensures orgCode.None? || orgCode.value == "" ==> r == Err(BadRequest("Code organisation requis"))
    ensures orgCode.Some? && orgCode.value != "" && !CodeTaken(organizations, orgCode.value) ==>
              r == Err(BadRequest("Organisation introuvable"))
    ensures r.Ok? ==> orgCode.Some? && r.value in organizations && organizations[r.value].code == orgCode.value
  {
    if orgCode.None? || orgCode.value == "" then Err(BadRequest("Code organisation requis"))
    else match FindByCode(organizations, orgCode.value)
      case None => Err(BadRequest("Organisation introuvable"))
      case Some(k) => Ok(k)
  }

  class AuthService {
    const db: Database
    const env: Env

    constructor (db: Database, env: Env)
      ensures this.db == db && this.env == env
    {
      this.db := db;
      this.env := env;
    }

    /** storeRefreshTokenHash: overwrite the employee's digest with that of the new token. */
    method StoreRefreshTokenHash(userId: int, refreshToken: string)
      requires db.Valid() && userId in db.employees
      modifies db
      ensures db.Valid()
      ensures db.Snapshot() == old(db.Snapshot()).(
                employees := WithRefreshHash(old(db.employees), userId, Some(Hash(refreshToken))))
    {
      var row := db.employees[userId].(refreshTokenHash := Some(Hash(refreshToken)));
      var _ := db.UpdateEmployee(row);
    }

    method Login(email: string, password: string, jwt: Jwt) returns (r: Result<Session, Error>)
      requires db.Valid()
      modifies db
      ensures db.Valid()
      ensures CheckCredentials(old(db.employees), email, password).Err? ==>
                r == Err(InvalidCredentials) && db.Snapshot() == old(db.Snapshot())
      ensures CheckCredentials(old(db.employees), email, password).Ok? ==>
                var u := CheckCredentials(old(db.employees), email, password).value;
                var t := IssueTokens(ClaimsOf(u), env, jwt);
                && r == Ok(SessionOf(u, t, None))
                && db.Snapshot() == old(db.Snapshot()).(
                     employees := WithRefreshHash(old(db.employees), u.id, Some(Hash(t.refreshToken))))
    {
      var check := CheckCredentials(db.employees, email, password);
      if check.Err? {
        return Err(check.error);
      }
      var user := check.value;
      var tokens := IssueTokens(ClaimsOf(user), env, jwt);
      StoreRefreshTokenHash(user.id, tokens.refreshToken);
      r := Ok(SessionOf(user, tokens, None));
    }

    /**
     * signup. An admin creates an organization, then its first employee, then makes that
     * employee the owner; nothing undoes the organization when the employee cannot be
     * created. Anyone else joins the organization whose code they give.
     */
    method Signup(dto: SignupDto, code: string, jwt: Jwt) returns (r: Result<Session, Error>)
      requires db.Valid()
      modifies db
      ensures db.Valid()
      ensures dto.role == "admin" && CodeTaken(old(db.organizations), code) ==>
                r == Err(Internal(UniqueViolation)) && db.Snapshot() == old(db.Snapshot())
      ensures dto.role == "admin" && !CodeTaken(old(db.organizations), code) && EmailTaken(old(db.employees), dto.email) ==>
                var oid := old(db.nextOrganizationId);
                && r == Err(Internal(UniqueViolation))
                && db.Snapshot() == old(db.Snapshot()).(
                     organizations := old(db.organizations)[oid := Organization(oid, dto.orgName.GetOr(dto.name), code, None, None)],
                     nextOrganizationId := oid + 1)
      ensures dto.role == "admin" && !CodeTaken(old(db.organizations), code) && !EmailTaken(old(db.employees), dto.email) ==>
                var oid := old(db.nextOrganizationId);
                var uid := old(db.nextEmployeeId);
                var u := Employee(uid, dto.name, dto.email, dto.role, dto.status.GetOr(Active), Hash(dto.password), None, oid);
                var t := IssueTokens(ClaimsOf(u), env, jwt);
                && r == Ok(SessionOf(u, t, Some(code)))
                && db.Snapshot() == old(db.Snapshot()).(
                     organizations := old(db.organizations)[oid := Organization(oid, dto.orgName.GetOr(dto.name), code, Some(uid), None)],
                     employees := old(db.employees)[uid := u.(refreshTokenHash := Some(Hash(t.refreshToken)))],
                     nextOrganizationId := oid + 1,
                     nextEmployeeId := uid + 1)
      ensures dto.role != "admin" && JoinTarget(old(db.organizations), dto.orgCode).Err? ==>
                r == Err(JoinTarget(old(db.organizations), dto.orgCode).error) && db.Snapshot() == old(db.Snapshot())
      ensures dto.role != "admin" && JoinTarget(old(db.organizations), dto.orgCode).Ok? && EmailTaken(old(db.employees), dto.email) ==>
                r == Err(Internal(UniqueViolation)) && db.Snapshot() == old(db.Snapshot())
      ensures dto.role != "admin" && JoinTarget(old(db.organizations), dto.orgCode).Ok? && !EmailTaken(old(db.employees), dto.email) ==>
                var oid := JoinTarget(old(db.organizations), dto.orgCode).value;
                var uid := old(db.nextEmployeeId);
                var u := Employee(uid, dto.name, dto.email, dto.role, dto.status.GetOr(Active), Hash(dto.password), None, oid);
                var t := IssueTokens(ClaimsOf(u), env, jwt);
                && r == Ok(SessionOf(u, t, None))
                && db.Snapshot() == old(db.Snapshot()).(
                     employees := old(db.employees)[uid := u.(refreshTokenHash := Some(Hash(t.refreshToken)))],
                     nextEmployeeId := uid + 1)
    {
      var hashedPassword := Hash(dto.password);
      var status := dto.status.GetOr(Active);
      if dto.role == "admin" {
        var created := db.CreateOrganization(dto.orgName.GetOr(dto.name), code);
        if created.Err? {
          return Err(Internal(created.error));
        }
        var organization := created.value;
        var made := db.CreateEmployee(dto.name, dto.email, dto.role, status, hashedPassword, organization.id);
        if made.Err? {
          return Err(Internal(made.error));
        }
        var user := made.value;
        var _ := db.UpdateOrganization(organization.(ownerId := Some(user.id)));
        var tokens := IssueTokens(ClaimsOf(user), env, jwt);
        StoreRefreshTokenHash(user.id, tokens.refreshToken);
        return Ok(SessionOf(user, tokens, Some(organization.code)));
      }
      var target := JoinTarget(db.organizations, dto.orgCode);
      if target.Err? {
        return Err(target.error);
      }
      var made := db.CreateEmployee(dto.name, dto.email, dto.role, status, hashedPassword, target.value);
      if made.Err? {
        return Err(Internal(made.error));
      }
      var user := made.value;
      var tokens := IssueTokens(ClaimsOf(user), env, jwt);
      StoreRefreshTokenHash(user.id, tokens.refreshToken);
      r := Ok(SessionOf(user, tokens, None));
    }

    /** refreshTokens: on success the stored digest becomes that of the newly issued refresh token. */
    method RefreshTokens(refreshToken: string, jwt: Jwt) returns (r: Result<Session, Error>)
      requires db.Valid()
      modifies db
      ensures db.Valid()
      ensures CheckRefreshToken(old(db.employees), refreshToken, env, jwt).Err? ==>
                r == Err(InvalidToken) && db.Snapshot() == old(db.Snapshot())
      ensures CheckRefreshToken(old(db.employees), refreshToken, env, jwt).Ok? ==>
                var u := CheckRefreshToken(old(db.employees), refreshToken, env, jwt).value;
                var t := IssueTokens(ClaimsOf(u), env, jwt);
                && r == Ok(SessionOf(u, t, None))
                && db.Snapshot() == old(db.Snapshot()).(
                     employees := WithRefreshHash(old(db.employees), u.id, Some(Hash(t.refreshToken))))
    {
      var check := CheckRefreshToken(db.employees, refreshToken, env, jwt);
      if check.Err? {
        return Err(InvalidToken);
      }
      var user := check.value;
      var tokens := IssueTokens(ClaimsOf(user), env, jwt);
      StoreRefreshTokenHash(user.id, tokens.refreshToken);
      r := Ok(SessionOf(user, tokens, None));
    }

    /** logout: clears the digest and answers `{success: true}`; an unknown id makes the update throw. */
    method Logout(userId: int) returns (r: Result<bool, Error>)
      requires db.Valid()
      modifies db
      ensures db.Valid()
      ensures userId !in old(db.employees) ==> r == Err(Internal(RecordNotFound)) && db.Snapshot() == old(db.Snapshot())
      ensures userId in old(db.employees) ==>
                r == Ok(true) && db.Snapshot() == old(db.Snapshot()).(employees := WithRefreshHash(old(db.employees), userId, None))
    {
      if userId !in db.employees {
        return Err(Internal(RecordNotFound));
      }
      var _ := db.UpdateEmployee(db.employees[userId].(refreshTokenHash := None));
      r := Ok(true);
    }
  }
}
