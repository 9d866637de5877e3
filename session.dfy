/** The session controller: `register`, `login`, `refresh`, `logout` and
    `googleCallback`. Each one runs its checks in a fixed order, then changes
    the user table and the response's cookies, and sends one reply.

    bcrypt and the email/password validators are the `Library` parameter. A
    failure of the database (the handlers' 500 branches) is not modelled. */
module Session {
  import opened Common
  import opened Seqs
  import opened Http
  import opened Jwt

  datatype User = User(
    id: nat,
    email: string,
    passwordHash: Option<string>,
    fullName: string,
    googleId: Option<string>,
    createdAt: int,
    lastLoginAt: Option<int>)

  /** What `validatePassword` returns. */
  datatype PasswordCheck = PasswordCheck(valid: bool, message: string)

  /** The helpers the controller calls but this model does not define. */
  datatype Library = Library(
    validateEmail: string -> bool,
    validatePassword: string -> PasswordCheck,
    hash: string -> string,
    compare: (string, string) -> bool)

  datatype RegisterRequest = RegisterRequest(email: Option<string>, password: Option<string>, fullName: Option<string>)
  datatype LoginRequest = LoginRequest(email: Option<string>, password: Option<string>)

  /** The user as `register` returns it: the selected columns only. */
  datatype RegisteredUser = RegisteredUser(id: nat, email: string, fullName: string, createdAt: int)
  /** The user as `login` returns it: the selected columns minus the hash. */
  datatype LoginUser = LoginUser(id: nat, email: string, fullName: string, googleId: Option<string>)

  datatype AuthReply =
    | Failure(status: nat, error: string, message: string)
    | Registered(registered: RegisteredUser, accessToken: string)
    | LoggedIn(loggedIn: LoginUser, accessToken: string)
    | Refreshed(accessToken: string)
    | LoggedOut
    | Redirect(url: string)
  {
    function Status(): nat {
      match this
      case Failure(s, _, _) => s
      case Registered(_, _) => 201
      case Redirect(_) => 302
      case _ => 200
    }
  }

  const MissingRegisterFields := Failure(400, "Missing required fields", "Email, password, and fullName are required")
  const MissingLoginFields := Failure(400, "Missing required fields", "Email and password are required")
  const InvalidEmail := Failure(400, "Invalid email", "Please provide a valid email address")
  const EmailExists := Failure(409, "Email already exists", "An account with this email already exists")
  const InvalidCredentials := Failure(401, "Invalid credentials", "Invalid email or password")
  const UseGoogleLogin := Failure(401, "Invalid credentials", "This account uses Google login. Please sign in with Google.")
  const RefreshMissing := Failure(401, "Unauthorized", "Refresh token not found")
  const RefreshInvalid := Failure(401, "Unauthorized", "Invalid or expired refresh token")
  const RefreshUserGone := Failure(401, "Unauthorized", "User not found")

  /** The user table: ids are assigned from a counter, and ids and emails are
      unique (the database's constraints). */
  class UserTable {
    var rows: seq<User>
    var nextId: nat

    ghost predicate Valid()
      reads this
    {
      && (forall i :: 0 <= i < |rows| ==> rows[i].id < nextId)
      && (forall i, j :: 0 <= i < j < |rows| ==> rows[i].id != rows[j].id && rows[i].email != rows[j].email)
    }

    constructor ()
      ensures Valid() && rows == [] && nextId == 0
    {
      rows, nextId := [], 0;
    }

    /** `prisma.user.create` for a password account. */
    method Create(email: string, passwordHash: string, fullName: string, now: int) returns (user: User)
      requires Valid()
      requires FindEmail(rows, email).None?
      modifies this
      ensures Valid()
      ensures user == User(old(nextId), email, Some(passwordHash), fullName, None, now, None)
      ensures rows == old(rows) + [user]
      ensures nextId == old(nextId) + 1
    {
      user := User(nextId, email, Some(passwordHash), fullName, None, now, None);
      rows := rows + [user];
      nextId := nextId + 1;
    }

    /** `prisma.user.update({ where: { id }, data: { lastLoginAt } })` on the
        row at index `i`. */
    method TouchLastLogin(i: nat, now: int)
      requires Valid() && i < |rows|
      modifies this
      ensures Valid() && nextId == old(nextId)
      ensures rows == old(rows)[i := old(rows)[i].(lastLoginAt := Some(now))]
    {
      rows := rows[i := rows[i].(lastLoginAt := Some(now))];
    }
  }

  /** `prisma.user.findUnique({ where: { email } })` */
  function FindEmail(rows: seq<User>, email: string): (r: Option<nat>)
    ensures r.Some? ==> r.value < |rows| && rows[r.value].email == email
    ensures r.None? <==> forall i :: 0 <= i < |rows| ==> rows[i].email != email
  {
    FindFirst(rows, (u: User) => u.email == email)
  }

  /** `prisma.user.findUnique({ where: { id } })` */
  function FindId(rows: seq<User>, id: nat): (r: Option<nat>)
    ensures r.Some? ==> r.value < |rows| && rows[r.value].id == id
    ensures r.None? <==> forall i :: 0 <= i < |rows| ==> rows[i].id != id
  {
    FindFirst(rows, (u: User) => u.id == id)
  }

  /** The reply of the first check `register` fails, in the order it runs
      them; None when every check passes. */
  function RegisterRejection(req: RegisterRequest, rows: seq<User>, lib: Library): (r: Option<AuthReply>)
    ensures r.Some? ==> r.value.Failure? && (r.value.status == 400 || r.value.status == 409)
    ensures r.Some? && r.value.status == 409 ==>
              r.value == EmailExists && Truthy(req.email) && FindEmail(rows, ToLower(req.email.value)).Some?
  {
    if !Truthy(req.email) || !Truthy(req.password) || !Truthy(req.fullName) then Some(MissingRegisterFields)
    else if !lib.validateEmail(req.email.value) then Some(InvalidEmail)
    else if !lib.validatePassword(req.password.value).valid then
      Some(Failure(400, "Invalid password", lib.validatePassword(req.password.value).message))
    else if FindEmail(rows, ToLower(req.email.value)).Some? then Some(EmailExists)
    else None
  }

  /** The reply of the first check `login` fails; None when the credentials
      are accepted. */
  function LoginRejection(req: LoginRequest, rows: seq<User>, lib: Library): (r: Option<AuthReply>)
    ensures r.Some? ==> r.value.Failure? && (r.value.status == 400 || r.value.status == 401)
    ensures r.None? ==>
              && Truthy(req.email) && Truthy(req.password)
              && var found := FindEmail(rows, ToLower(req.email.value));
              && found.Some? && Truthy(rows[found.value].passwordHash)
              && lib.compare(req.password.value, rows[found.value].passwordHash.value)
  {
    if !Truthy(req.email) || !Truthy(req.password) then Some(MissingLoginFields)
    else if !lib.validateEmail(req.email.value) then Some(InvalidEmail)
    else
      var found := FindEmail(rows, ToLower(req.email.value));
      if found.None? then Some(InvalidCredentials)
      else if !Truthy(rows[found.value].passwordHash) then Some(UseGoogleLogin)
      else if !lib.compare(req.password.value, rows[found.value].passwordHash.value) then Some(InvalidCredentials)
      else None
  }

  method Register(users: UserTable, res: Response, req: RegisterRequest, lib: Library, signer: Signer, env: Env, now: int)
    returns (reply: AuthReply)
    requires users.Valid()
    modifies users, res
    ensures users.Valid()
    ensures RegisterRejection(req, old(users.rows), lib).Some? ==>
              reply == RegisterRejection(req, old(users.rows), lib).value
              && users.rows == old(users.rows) && users.nextId == old(users.nextId)
              && res.cookies == old(res.cookies)
    ensures RegisterRejection(req, old(users.rows), lib).None? ==>
              var u := User(old(users.nextId), ToLower(req.email.value), Some(lib.hash(req.password.value)),
                            req.fullName.value, None, now, None);
              var access := GenerateAccessToken(signer, env, Claims(u.id, u.email), now / 1000);
              var refresh := GenerateRefreshToken(signer, env, Claims(u.id, u.email), now / 1000);
              && users.rows == old(users.rows) + [u] && users.nextId == old(users.nextId) + 1
              && reply == Registered(RegisteredUser(u.id, u.email, u.fullName, now), access)
              && res.cookies == old(res.cookies) + TokenCookies(env, access, refresh)
  {
    if !Truthy(req.email) || !Truthy(req.password) || !Truthy(req.fullName) {
      return MissingRegisterFields;
    }
    var email, password, fullName := req.email.value, req.password.value, req.fullName.value;
    if !lib.validateEmail(email) {
      return InvalidEmail;
    }
    var passwordValidation := lib.validatePassword(password);
    if !passwordValidation.valid {
      return Failure(400, "Invalid password", passwordValidation.message);
    }
    var existingUser := FindEmail(users.rows, ToLower(email));
    if existingUser.Some? {
      return EmailExists;
    }
    var passwordHash := lib.hash(password);
    var user := users.Create(ToLower(email), passwordHash, fullName, now);
    var accessToken := GenerateAccessToken(signer, env, Claims(user.id, user.email), now / 1000);
    var refreshToken := GenerateRefreshToken(signer, env, Claims(user.id, user.email), now / 1000);
    SetTokenCookies(res, env, accessToken, refreshToken);
    reply := Registered(RegisteredUser(user.id, user.email, user.fullName, user.createdAt), accessToken);
  }

  method Login(users: UserTable, res: Response, req: LoginRequest, lib: Library, signer: Signer, env: Env, now: int)
    returns (reply: AuthReply)
    requires users.Valid()
    modifies users, res
    ensures users.Valid()
    ensures LoginRejection(req, old(users.rows), lib).Some? ==>
              reply == LoginRejection(req, old(users.rows), lib).value
              && users.rows == old(users.rows) && users.nextId == old(users.nextId)
              && res.cookies == old(res.cookies)
    ensures LoginRejection(req, old(users.rows), lib).None? ==>
              var i := FindEmail(old(users.rows), ToLower(req.email.value)).value;
              var u := old(users.rows)[i];
              var access := GenerateAccessToken(signer, env, Claims(u.id, u.email), now / 1000);
              var refresh := GenerateRefreshToken(signer, env, Claims(u.id, u.email), now / 1000);
              && users.rows == old(users.rows)[i := u.(lastLoginAt := Some(now))] && users.nextId == old(users.nextId)
              && reply == LoggedIn(LoginUser(u.id, u.email, u.fullName, u.googleId), access)
              && res.cookies == old(res.cookies) + TokenCookies(env, access, refresh)
  {
    if !Truthy(req.email) || !Truthy(req.password) {
      return MissingLoginFields;
    }
    var email, password := req.email.value, req.password.value;
    if !lib.validateEmail(email) {
      return InvalidEmail;
    }
    var found := FindEmail(users.rows, ToLower(email));
    if found.None? {
      return InvalidCredentials;
    }
    var user := users.rows[found.value];
    if !Truthy(user.passwordHash) {
      return UseGoogleLogin;
    }
    var isPasswordValid := lib.compare(password, user.passwordHash.value);
    if !isPasswordValid {
      return InvalidCredentials;
    }
    users.TouchLastLogin(found.value, now);
    var accessToken := GenerateAccessToken(signer, env, Claims(user.id, user.email), now / 1000);
    var refreshToken := GenerateRefreshToken(signer, env, Claims(user.id, user.email), now / 1000);
    SetTokenCookies(res, env, accessToken, refreshToken);
    reply := LoggedIn(LoginUser(user.id, user.email, user.fullName, user.googleId), accessToken);
  }

  /** `refresh`, given the request's cookies. The user table is only read. */
  method Refresh(users: UserTable, res: Response, cookies: map<string, string>, signer: Signer, env: Env, now: int)
    returns (reply: AuthReply)
    modifies res
    ensures RefreshCookie !in cookies || cookies[RefreshCookie] == "" ==>
              reply == RefreshMissing && res.cookies == old(res.cookies)
    ensures RefreshCookie in cookies && cookies[RefreshCookie] != "" ==>
              var decoded := VerifyRefreshToken(signer, env, cookies[RefreshCookie], now / 1000);
              && (decoded.None? ==> reply == RefreshInvalid && res.cookies == old(res.cookies) + ClearedCookies())
              && (decoded.Some? && FindId(users.rows, decoded.value.userId).None? ==>
                    reply == RefreshUserGone && res.cookies == old(res.cookies) + ClearedCookies())
              && (decoded.Some? && FindId(users.rows, decoded.value.userId).Some? ==>
                    var u := users.rows[FindId(users.rows, decoded.value.userId).value];
                    var access := GenerateAccessToken(signer, env, Claims(u.id, u.email), now / 1000);
                    var refresh := GenerateRefreshToken(signer, env, Claims(u.id, u.email), now / 1000);
                    reply == Refreshed(access) && res.cookies == old(res.cookies) + TokenCookies(env, access, refresh))
  {
    if RefreshCookie !in cookies || cookies[RefreshCookie] == "" {
      return RefreshMissing;
    }
    var decoded := VerifyRefreshToken(signer, env, cookies[RefreshCookie], now / 1000);
    if decoded.None? {
      ClearTokenCookies(res);
      return RefreshInvalid;
    }
    var found := FindId(users.rows, decoded.value.userId);
    if found.None? {
      ClearTokenCookies(res);
      return RefreshUserGone;
    }
    var user := users.rows[found.value];
    var newAccessToken := GenerateAccessToken(signer, env, Claims(user.id, user.email), now / 1000);
    var newRefreshToken := GenerateRefreshToken(signer, env, Claims(user.id, user.email), now / 1000);
    SetTokenCookies(res, env, newAccessToken, newRefreshToken);
    reply := Refreshed(newAccessToken);
  }

  /** `logout`: the try block and its catch branch do the same two things,
      and neither can fail here. */
  method Logout(res: Response) returns (reply: AuthReply)
    modifies res
    ensures reply == LoggedOut && reply.Status() == 200
    ensures res.cookies == old(res.cookies) + ClearedCookies()
  {
    ClearTokenCookies(res);
    reply := LoggedOut;
  }

  /** `googleCallback`, given the user the OAuth strategy authenticated. */
  method GoogleCallback(res: Response, user: Option<Claims>, signer: Signer, env: Env, now: int)
    returns (reply: AuthReply)
    modifies res
    ensures user.None? ==>
              reply == Redirect(EnvText(env.frontendUrl) + "?error=authentication_failed")
              && res.cookies == old(res.cookies)
    ensures user.Some? ==>
              var access := GenerateAccessToken(signer, env, user.value, now / 1000);
              var refresh := GenerateRefreshToken(signer, env, user.value, now / 1000);
              && reply == Redirect(EnvText(env.frontendUrl) + "/dashboard")
              && res.cookies == old(res.cookies) + TokenCookies(env, access, refresh)
  {
    if user.None? {
      return Redirect(EnvText(env.frontendUrl) + "?error=authentication_failed");
    }
    var accessToken := GenerateAccessToken(signer, env, user.value, now / 1000);
    var refreshToken := GenerateRefreshToken(signer, env, user.value, now / 1000);
    SetTokenCookies(res, env, accessToken, refreshToken);
    reply := Redirect(EnvText(env.frontendUrl) + "/dashboard");
  }

  /** A missing field is reported before any validator runs or the table is
      read: the reply is the same whatever the library and the table. */
  lemma RegisterMissingFieldsFirst(req: RegisterRequest, rows: seq<User>, rows': seq<User>, lib: Library, lib': Library)
    requires !Truthy(req.email) || !Truthy(req.password) || !Truthy(req.fullName)
    ensures RegisterRejection(req, rows, lib) == RegisterRejection(req, rows', lib') == Some(MissingRegisterFields)
  {
  }

  /** Registration succeeds exactly when every field is present, the email
      and the password pass their checks, and no account has the lower-cased
      email; the hash function plays no part in the decision. */
  lemma RegisterAcceptedIff(req: RegisterRequest, rows: seq<User>, lib: Library, hash': string -> string)
    ensures RegisterRejection(req, rows, lib).None? <==>
              && Truthy(req.email) && Truthy(req.password) && Truthy(req.fullName)
              && lib.validateEmail(req.email.value)
              && lib.validatePassword(req.password.value).valid
              && forall i :: 0 <= i < |rows| ==> rows[i].email != ToLower(req.email.value)
    ensures RegisterRejection(req, rows, lib) == RegisterRejection(req, rows, lib.(hash := hash'))
  {
  }

  /** The email check comes before the password check, and both before the
      duplicate check: a request failing several of them gets the first one's
      reply. */
  lemma RegisterCheckOrder(req: RegisterRequest, rows: seq<User>, lib: Library)
    requires Truthy(req.email) && Truthy(req.password) && Truthy(req.fullName)
    ensures !lib.validateEmail(req.email.value) ==> RegisterRejection(req, rows, lib) == Some(InvalidEmail)
    ensures lib.validateEmail(req.email.value) && !lib.validatePassword(req.password.value).valid ==>
              RegisterRejection(req, rows, lib) ==
                Some(Failure(400, "Invalid password", lib.validatePassword(req.password.value).message))
    ensures lib.validateEmail(req.email.value) && lib.validatePassword(req.password.value).valid &&
            FindEmail(rows, ToLower(req.email.value)).Some? ==>
              RegisterRejection(req, rows, lib) == Some(EmailExists) && EmailExists.Status() == 409
  {
  }

  /** Emails are compared after lower-casing: once an account is registered,
      a second registration whose email differs from the first only in case
      is refused with 409 and the table is left as it is. */
  lemma {:induction false} DuplicateEmailRejected(req: RegisterRequest, req': RegisterRequest, rows: seq<User>, lib: Library,
                                                  nextId: nat, now: int)
    requires RegisterRejection(req, rows, lib).None?
    requires Truthy(req'.email) && Truthy(req'.password) && Truthy(req'.fullName)
    requires lib.validateEmail(req'.email.value) && lib.validatePassword(req'.password.value).valid
    requires ToLower(req'.email.value) == ToLower(req.email.value)
    ensures var u := User(nextId, ToLower(req.email.value), Some(lib.hash(req.password.value)), req.fullName.value, None, now, None);
            RegisterRejection(req', rows + [u], lib) == Some(EmailExists)
  {
    var u := User(nextId, ToLower(req.email.value), Some(lib.hash(req.password.value)), req.fullName.value, None, now, None);
    FindFirstAppend(rows, u, (v: User) => v.email == ToLower(req'.email.value));
  }

  /** Registering the same address twice, the second time in upper case:
      the first call creates the account, the second is refused with 409 and
      adds no row. */
  method RegisterSameEmailTwice(users: UserTable, req: RegisterRequest, lib: Library, signer: Signer, env: Env, now: int)
    returns (first: AuthReply, second: AuthReply)
    requires users.Valid()
    requires RegisterRejection(req, users.rows, lib).None?
    requires lib.validateEmail(ToUpper(req.email.value))
    modifies users
    ensures first.Registered? && second == EmailExists
    ensures |users.rows| == |old(users.rows)| + 1
  {
    var res := new Response();
    first := Register(users, res, req, lib, signer, env, now);
    var shouted := req.(email := Some(ToUpper(req.email.value)));
    ToLowerToUpper(req.email.value);
    DuplicateEmailRejected(req, shouted, old(users.rows), lib, old(users.nextId), now);
    second := Register(users, res, shouted, lib, signer, env, now);
  }

  /** An unknown email and a wrong password produce the same reply, so a
      caller cannot tell which accounts exist from a failed password login. */
  lemma {:induction false} LoginHidesAccountExistence(req: LoginRequest, rows: seq<User>, lib: Library)
    requires Truthy(req.email) && Truthy(req.password) && lib.validateEmail(req.email.value)
    requires var f := FindEmail(rows, ToLower(req.email.value));
             f.None? || (Truthy(rows[f.value].passwordHash) && !lib.compare(req.password.value, rows[f.value].passwordHash.value))
    ensures LoginRejection(req, rows, lib) == Some(InvalidCredentials)
    ensures InvalidCredentials.status == 401 && InvalidCredentials.message == "Invalid email or password"
  {
  }

  /** For an account without a password hash the reply names Google login
      and does not depend on the comparison function at all. */
  lemma OAuthAccountNeverCompared(req: LoginRequest, rows: seq<User>, lib: Library, compare': (string, string) -> bool)
    requires Truthy(req.email) && Truthy(req.password) && lib.validateEmail(req.email.value)
    requires FindEmail(rows, ToLower(req.email.value)).Some?
    requires !Truthy(rows[FindEmail(rows, ToLower(req.email.value)).value].passwordHash)
    ensures LoginRejection(req, rows, lib) == Some(UseGoogleLogin)
    ensures LoginRejection(req, rows, lib.(compare := compare')) == Some(UseGoogleLogin)
  {
  }

  /** Registering and then logging in with the same credentials succeeds,
      provided bcrypt's comparison accepts the password against its own hash. */
  lemma {:induction false} RegisterThenLogin(req: RegisterRequest, rows: seq<User>, lib: Library, nextId: nat, now: int)
    requires RegisterRejection(req, rows, lib).None?
    requires lib.compare(req.password.value, lib.hash(req.password.value))
    requires lib.hash(req.password.value) != ""
    ensures var u := User(nextId, ToLower(req.email.value), Some(lib.hash(req.password.value)), req.fullName.value, None, now, None);
            LoginRejection(LoginRequest(req.email, req.password), rows + [u], lib).None?
  {
    var u := User(nextId, ToLower(req.email.value), Some(lib.hash(req.password.value)), req.fullName.value, None, now, None);
    FindFirstAppend(rows, u, (v: User) => v.email == ToLower(req.email.value));
  }

  /** A refresh token is not used up by refreshing: two refreshes with the
      same cookie, one after the other, both succeed. */
  method RefreshTwice(users: UserTable, signer: Signer, env: Env, u: User, issued: int, now: int)
    returns (first: AuthReply, second: AuthReply)
    requires Sound(signer)
    requires u in users.rows
    requires GenerateRefreshToken(signer, env, Claims(u.id, u.email), issued) != ""
    requires now / 1000 < issued + RefreshTokenTtl
    ensures first.Refreshed? && second == first
  {
    var token := GenerateRefreshToken(signer, env, Claims(u.id, u.email), issued);
    var cookies := map[RefreshCookie := token];
    RefreshTokenLifetime(signer, env, Claims(u.id, u.email), issued, now / 1000);
    var i :| 0 <= i < |users.rows| && users.rows[i] == u;
    assert FindId(users.rows, u.id).Some?;
    var res1 := new Response();
    first := Refresh(users, res1, cookies, signer, env, now);
    var res2 := new Response();
    second := Refresh(users, res2, cookies, signer, env, now);
  }
}
