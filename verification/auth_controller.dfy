/** The HTTP layer for accounts (`AuthController`): registration, login
    and logout with the session cookie, the current user, and the two
    password-reset requests. */
module AuthController {
  import opened Base
  import opened ApiErrors
  import opened ApiResponse
  import opened Effects
  import opened Security
  import opened Http
  import opened UserRepository
  import AuthService
  import RouteGates

  const REGISTER_FIELDS_REQUIRED: ApiError := NewApiError(400, "Name, email, and password are required")
  const LOGIN_FIELDS_REQUIRED: ApiError := NewApiError(400, "Email and password are required")
  const EMAIL_REQUIRED: ApiError := NewApiError(400, "Email is required")
  const RESET_FIELDS_REQUIRED: ApiError := NewApiError(400, "Token and new password are required")
  const RESET_EMAIL_SENT: string := "Password reset email sent successfully."

  /** The session cookie lives as long as the token: fifteen minutes. */
  const SESSION_MAX_AGE: int := 60 * 15

  /** The `accessToken` cookie login and a password reset set: HTTP-only,
      site-wide, secure in production. */
  function SessionCookie(token: string, production: bool): (c: Cookie)
    ensures c.name == "accessToken" && c.value == token && c.maxAge == SESSION_MAX_AGE
    ensures c.httpOnly && c.path == "/" && c.secure == production
  {
    Cookie("accessToken", token, true, production, "/", SESSION_MAX_AGE)
  }

  /** The body carries a truthy name, email and password. */
  predicate HasRegisterFields(body: map<string, Value>) {
    Truthy(Lookup(body, "name")) && Truthy(Lookup(body, "email")) && Truthy(Lookup(body, "password"))
  }

  /** The account `register` stores for `body` under the id `newId`. */
  function NewAccount(crypto: Crypto, body: map<string, Value>, newId: string): User
    requires HasRegisterFields(body)
  {
    User(newId, Text(Lookup(body, "email")), Some(crypto.hash(Text(Lookup(body, "password")))), None, None,
         map["name" := Str(Text(Lookup(body, "name")))])
  }

  /** `AuthController.register(req)`: 201 with the new account. */
  function Register(limiter: Limiter, crypto: Crypto, users: Store, req: Request, newId: string): (r: Reply<Store>)
    ensures r.response.headers == RateLimitHeaders(VerdictFor(limiter, req))
    ensures !VerdictFor(limiter, req).success ==> r == Throttled(VerdictFor(limiter, req), users)
    ensures VerdictFor(limiter, req).success && req.body.None? ==> r.response.status == 500 && r.state == users
    ensures VerdictFor(limiter, req).success && req.body.Some? && !HasRegisterFields(req.body.value) ==>
              r == Reply(Handle(Api(REGISTER_FIELDS_REQUIRED), r.response.headers), users, [])
    ensures VerdictFor(limiter, req).success && req.body.Some? && HasRegisterFields(req.body.value) &&
            HasEmail(users, Text(Lookup(req.body.value, "email"))) ==>
              r == Reply(Handle(Api(AuthService.EMAIL_TAKEN), r.response.headers), users, [])
    ensures r.response.success <==>
              && VerdictFor(limiter, req).success && req.body.Some? && HasRegisterFields(req.body.value)
              && !HasEmail(users, Text(Lookup(req.body.value, "email"))) && !HasUserId(users, newId)
    ensures r.response.success ==>
              && r.response.status == 201
              && r.state == users + [NewAccount(crypto, req.body.value, newId)]
              && r.response.data == Some(Account(WithoutPassword(NewAccount(crypto, req.body.value, newId))))
              && r.mail == [Welcome(Text(Lookup(req.body.value, "email")), Text(Lookup(req.body.value, "name")))]
    ensures !r.response.success ==> r.state == users && r.mail == []
    ensures Unique(users) ==> Unique(r.state)
  {
    var v := VerdictFor(limiter, req);
    Answer(RateLimitHeaders(v), RegisterStep(v, crypto, users, req.body, newId), "User registered successfully", 201)
  }

  /** The part of `register` inside the `try`: the limiter's verdict, the
      body's three fields, then the service. */
  function RegisterStep(v: Verdict, crypto: Crypto, users: Store, body: Option<map<string, Value>>, newId: string)
    : (s: Step<Payload, Store>)
    ensures !v.success ==> s == Step(Err(Api(TOO_MANY_REQUESTS)), users, [])
    ensures v.success && body.None? ==> s == Step(Err(MALFORMED_BODY), users, [])
    ensures v.success && body.Some? && !HasRegisterFields(body.value) ==>
              s == Step(Err(Api(REGISTER_FIELDS_REQUIRED)), users, [])
    ensures v.success && body.Some? && HasRegisterFields(body.value) && HasEmail(users, Text(Lookup(body.value, "email"))) ==>
              s == Step(Err(Api(AuthService.EMAIL_TAKEN)), users, [])
    ensures s.result.Ok? <==>
              && v.success && body.Some? && HasRegisterFields(body.value)
              && !HasEmail(users, Text(Lookup(body.value, "email"))) && !HasUserId(users, newId)
    ensures s.result.Ok? ==>
              && s.state == users + [NewAccount(crypto, body.value, newId)]
              && s.result.value == Account(WithoutPassword(NewAccount(crypto, body.value, newId)))
              && s.mail == [Welcome(Text(Lookup(body.value, "email")), Text(Lookup(body.value, "name")))]
    ensures s.result.Err? ==> s.state == users && s.mail == []
    ensures Unique(users) ==> Unique(s.state)
  {
    if !v.success then Step(Err(Api(TOO_MANY_REQUESTS)), users, [])
    else
      match body
      case None => Step(Err(MALFORMED_BODY), users, [])
      case Some(b) =>
        if !HasRegisterFields(b) then Step(Err(Api(REGISTER_FIELDS_REQUIRED)), users, [])
        else
          var name, email, password := Text(Lookup(b, "name")), Text(Lookup(b, "email")), Text(Lookup(b, "password"));
          Lift(AuthService.Register(users, crypto, name, email, password, newId), (u: User) => Account(u))
  }

  /** `AuthController.login(req)`: 200 with `{ user }` and the session
      cookie carrying the access token. */
  function Login(limiter: Limiter, crypto: Crypto, jwt: Jwt, users: Store, req: Request, production: bool): (r: Reply<Store>)
    ensures r.response.headers == RateLimitHeaders(VerdictFor(limiter, req))
    ensures r.state == users && r.mail == []
    ensures !VerdictFor(limiter, req).success ==> r == Throttled(VerdictFor(limiter, req), users)
    ensures VerdictFor(limiter, req).success && req.body.Some? &&
            !(Truthy(Lookup(req.body.value, "email")) && Truthy(Lookup(req.body.value, "password"))) ==>
              r == Reply(Handle(Api(LOGIN_FIELDS_REQUIRED), r.response.headers), users, [])
    ensures r.response.cookie.Some? <==> r.response.success
    ensures r.response.success ==>
              && r.response.status == 200
              && r.response.data.Some? && r.response.data.value.AccountEnvelope?
              && r.response.data.value.user.password.None?
              && r.response.cookie == Some(SessionCookie(jwt.sign(r.response.data.value.user.id), production))
              && req.body.Some? && Truthy(Lookup(req.body.value, "email")) && Truthy(Lookup(req.body.value, "password"))
              && exists i :: 0 <= i < |users| && users[i].email == Text(Lookup(req.body.value, "email"))
                             && AuthService.Authenticates(crypto, users[i], Text(Lookup(req.body.value, "password")))
                             && r.response.data.value.user == WithoutPassword(users[i])
    ensures !r.response.success && VerdictFor(limiter, req).success && req.body.Some? &&
            Truthy(Lookup(req.body.value, "email")) && Truthy(Lookup(req.body.value, "password")) ==>
              r.response.status == 401 && r.response.message == "Invalid email or password"
  {
    var v := VerdictFor(limiter, req);
    var step: Step<Payload, Store> :=
      if !v.success then Step(Err(Api(TOO_MANY_REQUESTS)), users, [])
      else
        match req.body
        case None => Step(Err(MALFORMED_BODY), users, [])
        case Some(body) =>
          var email, password := Lookup(body, "email"), Lookup(body, "password");
          if !(Truthy(email) && Truthy(password)) then Step(Err(Api(LOGIN_FIELDS_REQUIRED)), users, [])
          else
            match AuthService.Login(users, crypto, jwt, Text(email), Text(password))
            case Err(e) => Step(Err(e), users, [])
            case Ok(session) => Step(Ok(AccountEnvelope(session.user)), users, []);
    var answer := Answer(RateLimitHeaders(v), step, "Login successful", 200);
    if answer.response.success then
      answer.(response := WithCookie(answer.response, SessionCookie(jwt.sign(answer.response.data.value.user.id), production)))
    else answer
  }

  /** `AuthController.logout()`: never rate-limited; 200 and the session
      cookie overwritten with an empty value that expires at once. */
  function Logout(production: bool): (r: Response)
    ensures r.success && r.status == 200 && r.message == "Logout successful"
    ensures r.data == Some(Empty) && r.headers == map[]
    ensures r.cookie.Some? && r.cookie.value.name == "accessToken" && r.cookie.value.value == ""
    ensures r.cookie.value.maxAge == -1 && r.cookie.value.httpOnly && r.cookie.value.path == "/"
  {
    WithCookie(Success(Empty, "Logout successful"), Cookie("accessToken", "", true, production, "/", -1))
  }

  /** `AuthController.getCurrentUser(req)`: 200 with the account the
      session cookie names. */
  function GetCurrentUser(limiter: Limiter, jwt: Jwt, users: Store, req: Request): (r: Reply<Store>)
    ensures r.response.headers == RateLimitHeaders(VerdictFor(limiter, req))
    ensures r.state == users && r.mail == []
    ensures !VerdictFor(limiter, req).success ==> r == Throttled(VerdictFor(limiter, req), users)
    ensures Caller(limiter, jwt, req).Err? ==>
              r == Reply(Handle(Caller(limiter, jwt, req).error, r.response.headers), users, [])
    ensures r.response.success <==> Caller(limiter, jwt, req).Ok? && HasUserId(users, Caller(limiter, jwt, req).value)
    ensures Caller(limiter, jwt, req).Ok? && !r.response.success ==>
              r.response.status == 404 && r.response.message == "User not found."
    ensures r.response.success ==>
              && r.response.status == 200
              && r.response.data.Some? && r.response.data.value.Account?
              && r.response.data.value.user.id == Caller(limiter, jwt, req).value
              && r.response.data.value.user.password.None?
              && exists i :: 0 <= i < |users| && users[i].id == Caller(limiter, jwt, req).value
                             && r.response.data.value.user == WithoutPassword(users[i])
  {
    var v := VerdictFor(limiter, req);
    var step: Step<Payload, Store> :=
      if !v.success then Step(Err(Api(TOO_MANY_REQUESTS)), users, [])
      else if !HasToken(req) then Step(Err(Api(NO_TOKEN)), users, [])
      else
        match AuthService.GetCurrentUser(users, jwt, req.accessToken.value)
        case Err(e) => Step(Err(e), users, [])
        case Ok(u) => Step(Ok(Account(u)), users, []);
    Answer(RateLimitHeaders(v), step, "User data retrieved successfully", 200)
  }

  /** The request is admitted and names a stored account's email, and the
      application origin is known: the one case a reset link is mailed. */
  predicate SendsResetLink(limiter: Limiter, users: Store, req: Request) {
    && VerdictFor(limiter, req).success && req.body.Some? && Truthy(Lookup(req.body.value, "email"))
    && HasEmail(users, Text(Lookup(req.body.value, "email"))) && req.origin != ""
  }

  /** `AuthController.forgotPassword(req)` with the random token `rawToken`
      at time `now`. */
  function ForgotPassword(limiter: Limiter, crypto: Crypto, users: Store, req: Request, rawToken: string,
                          now: int): (r: Reply<Store>)
    ensures r.response.headers == RateLimitHeaders(VerdictFor(limiter, req))
    ensures !VerdictFor(limiter, req).success ==> r == Throttled(VerdictFor(limiter, req), users)
    ensures VerdictFor(limiter, req).success && req.body.Some? && !Truthy(Lookup(req.body.value, "email")) ==>
              r == Reply(Handle(Api(EMAIL_REQUIRED), r.response.headers), users, [])
    ensures r.response.success ==>
              r.response.status == 200 && r.response.message == RESET_EMAIL_SENT && r.response.data == Some(Empty)
    ensures VerdictFor(limiter, req).success && req.body.Some? && Truthy(Lookup(req.body.value, "email")) ==>
              (r.response.success <==> req.origin != "" || !HasEmail(users, Text(Lookup(req.body.value, "email"))))
    ensures VerdictFor(limiter, req).success && req.body.Some? && Truthy(Lookup(req.body.value, "email")) ==>
              r.state == AuthService.SendPasswordResetEmail(users, crypto, Text(Lookup(req.body.value, "email")),
                                                           req.origin, rawToken, now).state
    ensures SendsResetLink(limiter, users, req) ==>
              r.mail == [PasswordReset(Text(Lookup(req.body.value, "email")), AuthService.ResetUrl(req.origin, rawToken))]
    ensures !SendsResetLink(limiter, users, req) ==> r.mail == []
    ensures Unique(users) ==> Unique(r.state)
  {
    var v := VerdictFor(limiter, req);
    var step: Step<Payload, Store> :=
      if !v.success then Step(Err(Api(TOO_MANY_REQUESTS)), users, [])
      else
        match req.body
        case None => Step(Err(MALFORMED_BODY), users, [])
        case Some(body) =>
          var email := Lookup(body, "email");
          if !Truthy(email) then Step(Err(Api(EMAIL_REQUIRED)), users, [])
          else Lift(AuthService.SendPasswordResetEmail(users, crypto, Text(email), req.origin, rawToken, now), (_: ()) => Empty);
    Answer(RateLimitHeaders(v), step, RESET_EMAIL_SENT, 200)
  }

  /** `AuthController.resetPassword(req)` at time `now`: 200 with `{ user }`
      and a fresh session cookie. */
  function ResetPassword(limiter: Limiter, crypto: Crypto, jwt: Jwt, users: Store, req: Request, production: bool,
                         now: int): (r: Reply<Store>)
    ensures r.response.headers == RateLimitHeaders(VerdictFor(limiter, req))
    ensures r.mail == []
    ensures !VerdictFor(limiter, req).success ==> r == Throttled(VerdictFor(limiter, req), users)
    ensures VerdictFor(limiter, req).success && req.body.Some? &&
            !(Truthy(Lookup(req.body.value, "token")) && Truthy(Lookup(req.body.value, "password"))) ==>
              r == Reply(Handle(Api(RESET_FIELDS_REQUIRED), r.response.headers), users, [])
    ensures r.response.cookie.Some? <==> r.response.success
    ensures r.response.success <==>
              && VerdictFor(limiter, req).success && req.body.Some?
              && Truthy(Lookup(req.body.value, "token")) && Truthy(Lookup(req.body.value, "password"))
              && exists i :: 0 <= i < |users| &&
                   HoldsLiveToken(users[i], crypto.sha256(Text(Lookup(req.body.value, "token"))), now)
    ensures r.response.success ==>
              && r.response.status == 200
              && r.response.data.Some? && r.response.data.value.AccountEnvelope?
              && r.response.data.value.user.password.None?
              && r.response.cookie == Some(SessionCookie(jwt.sign(r.response.data.value.user.id), production))
    ensures r.response.success && Unique(users) ==>
              exists i :: 0 <= i < |users|
                && HoldsLiveToken(users[i], crypto.sha256(Text(Lookup(req.body.value, "token"))), now)
                && r.state == users[i := AuthService.Reset(users[i], crypto.hash(Text(Lookup(req.body.value, "password"))))]
                && r.response.data.value.user == WithoutPassword(r.state[i])
                && r.response.cookie == Some(SessionCookie(jwt.sign(users[i].id), production))
    ensures !r.response.success ==> r.state == users
    ensures Unique(users) ==> Unique(r.state)
  {
    var v := VerdictFor(limiter, req);
    var answer := Answer(RateLimitHeaders(v), ResetStep(v, crypto, jwt, users, req.body, now),
                         "Password has been reset successfully.", 200);
    if answer.response.success then
      answer.(response := WithCookie(answer.response, SessionCookie(jwt.sign(answer.response.data.value.user.id), production)))
    else answer
  }

  /** The part of `resetPassword` before the cookie: the limiter's verdict,
      the body's two fields, then the service. */
  function ResetStep(v: Verdict, crypto: Crypto, jwt: Jwt, users: Store, body: Option<map<string, Value>>,
                     now: int): (s: Step<Payload, Store>)
    ensures s.mail == []
    ensures !v.success ==> s == Step(Err(Api(TOO_MANY_REQUESTS)), users, [])
    ensures v.success && body.Some? &&
            !(Truthy(Lookup(body.value, "token")) && Truthy(Lookup(body.value, "password"))) ==>
              s == Step(Err(Api(RESET_FIELDS_REQUIRED)), users, [])
    ensures s.result.Ok? <==>
              && v.success && body.Some?
              && Truthy(Lookup(body.value, "token")) && Truthy(Lookup(body.value, "password"))
              && exists i :: 0 <= i < |users| &&
                   HoldsLiveToken(users[i], crypto.sha256(Text(Lookup(body.value, "token"))), now)
    ensures s.result.Ok? ==> s.result.value.AccountEnvelope? && s.result.value.user.password.None?
    ensures s.result.Ok? && Unique(users) ==>
              exists i :: 0 <= i < |users|
                && HoldsLiveToken(users[i], crypto.sha256(Text(Lookup(body.value, "token"))), now)
                && s.state == users[i := AuthService.Reset(users[i], crypto.hash(Text(Lookup(body.value, "password"))))]
                && s.result.value.user == WithoutPassword(s.state[i])
    ensures s.result.Err? ==> s.state == users
    ensures Unique(users) ==> Unique(s.state)
  {
    if !v.success then Step(Err(Api(TOO_MANY_REQUESTS)), users, [])
    else
      match body
      case None => Step(Err(MALFORMED_BODY), users, [])
      case Some(b) =>
        var token, password := Lookup(b, "token"), Lookup(b, "password");
        if !(Truthy(token) && Truthy(password)) then Step(Err(Api(RESET_FIELDS_REQUIRED)), users, [])
        else
          var s := AuthService.ResetPassword(users, crypto, jwt, Text(token), Text(password), now);
          match s.result
          case Err(e) => Step(Err(e), s.state, s.mail)
          case Ok(session) => Step(Ok(AccountEnvelope(session.user)), s.state, s.mail)
  }

  /** The answer to a forgotten-password request does not say whether the
      account exists: a known and an unknown address get the same reply. */
  lemma {:induction false} ForgotPasswordHidesAccountExistence(limiter: Limiter, crypto: Crypto, users: Store,
                                                               known: Request, unknown: Request,
                                                               rawToken: string, now: int)
    requires VerdictFor(limiter, known) == VerdictFor(limiter, unknown)
    requires known.body.Some? && Truthy(Lookup(known.body.value, "email")) && known.origin != ""
    requires unknown.body.Some? && Truthy(Lookup(unknown.body.value, "email"))
    requires !HasEmail(users, Text(Lookup(unknown.body.value, "email")))
    ensures ForgotPassword(limiter, crypto, users, known, rawToken, now).response
         == ForgotPassword(limiter, crypto, users, unknown, rawToken, now).response
  {
    var v := VerdictFor(limiter, known);
    if v.success {
      var a := ForgotPassword(limiter, crypto, users, known, rawToken, now).response;
      var b := ForgotPassword(limiter, crypto, users, unknown, rawToken, now).response;
      assert a == Success(Empty, RESET_EMAIL_SENT, 200, RateLimitHeaders(v));
      assert b == Success(Empty, RESET_EMAIL_SENT, 200, RateLimitHeaders(v));
    }
  }

  /** The cookie logout leaves behind ends the session everywhere: the
      dashboard gate redirects to the login page and every protected
      handler answers 401 "Authentication token not provided.". */
  lemma {:induction false} LogoutEndsSession(production: bool, jwt: Jwt, path: string, req: Request)
    requires RouteGates.Matched(path)
    requires req.accessToken == Some(Logout(production).cookie.value.value)
    ensures RouteGates.Gate(path, req.accessToken) == RouteGates.Redirect("/login")
    ensures UserIdFromToken(jwt, req) == Err(Api(NO_TOKEN))
  {
    RouteGates.GateRedirects(path, req.accessToken);
  }

  /** Logging in with a stored user's email and a password bcrypt accepts
      succeeds, and the session cookie it sets makes the next "who am I"
      request answer with that same user. */
  lemma {:induction false} LoginThenMe(limiter: Limiter, crypto: Crypto, jwt: Jwt, users: Store, req: Request,
                                       production: bool, next: Request, i: int, password: string)
    requires Unique(users) && 0 <= i < |users|
    requires VerdictFor(limiter, req).success && req.body.Some?
    requires users[i].email != "" && Lookup(req.body.value, "email") == Some(Str(users[i].email))
    requires password != "" && Lookup(req.body.value, "password") == Some(Str(password))
    requires AuthService.Authenticates(crypto, users[i], password)
    requires SignVerifies(jwt, users[i].id)
    requires next.accessToken == Some(jwt.sign(users[i].id))
    requires VerdictFor(limiter, next).success
    ensures Login(limiter, crypto, jwt, users, req, production).response.success
    ensures Login(limiter, crypto, jwt, users, req, production).response.cookie
         == Some(SessionCookie(jwt.sign(users[i].id), production))
    ensures GetCurrentUser(limiter, jwt, users, next).response.data
         == Some(Account(Login(limiter, crypto, jwt, users, req, production).response.data.value.user))
  {
    LoginAs(limiter, crypto, jwt, users, req, production, i, password);
    TokenIdentifiesUser(limiter, jwt, users, next, i);
  }

  /** Logging in with a stored user's email and a password bcrypt accepts
      answers 200 with that user, without the password, and a session
      cookie holding a token signed for their id. */
  lemma LoginAs(limiter: Limiter, crypto: Crypto, jwt: Jwt, users: Store, req: Request, production: bool,
                i: int, password: string)
    requires Unique(users) && 0 <= i < |users|
    requires VerdictFor(limiter, req).success && req.body.Some?
    requires users[i].email != "" && Lookup(req.body.value, "email") == Some(Str(users[i].email))
    requires password != "" && Lookup(req.body.value, "password") == Some(Str(password))
    requires AuthService.Authenticates(crypto, users[i], password)
    ensures Login(limiter, crypto, jwt, users, req, production).response.success
    ensures Login(limiter, crypto, jwt, users, req, production).response.data
         == Some(AccountEnvelope(WithoutPassword(users[i])))
    ensures Login(limiter, crypto, jwt, users, req, production).response.cookie
         == Some(SessionCookie(jwt.sign(users[i].id), production))
  {
    var session := AuthService.Login(users, crypto, jwt, users[i].email, password);
    assert session.Ok?;
    var r := Login(limiter, crypto, jwt, users, req, production);
    assert r.response.success;
    var k :| 0 <= k < |users| && users[k].email == users[i].email
             && AuthService.Authenticates(crypto, users[k], password)
             && r.response.data.value.user == WithoutPassword(users[k]);
    assert k == i;
  }

  /** A cookie holding a token signed for a stored user makes "who am I"
      answer with that user, without the password. */
  lemma TokenIdentifiesUser(limiter: Limiter, jwt: Jwt, users: Store, next: Request, i: int)
    requires Unique(users) && 0 <= i < |users|
    requires SignVerifies(jwt, users[i].id)
    requires next.accessToken == Some(jwt.sign(users[i].id))
    requires VerdictFor(limiter, next).success
    ensures GetCurrentUser(limiter, jwt, users, next).response.success
    ensures GetCurrentUser(limiter, jwt, users, next).response.data == Some(Account(WithoutPassword(users[i])))
  {
    var token := jwt.sign(users[i].id);
    assert HasToken(next);
    assert VerifiedUserId(jwt, token) == Some(users[i].id);
    FindByIdAt(users, i);
    assert AuthService.GetCurrentUser(users, jwt, token) == Ok(WithoutPassword(users[i]));
  }
}
