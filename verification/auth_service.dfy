/** The authentication business logic (`AuthService`): registration,
    login, resolving the current user from an access token, and the
    password-reset flow with hashed, expiring, single-use tokens. */
module AuthService {
  import opened Base
  import opened ApiErrors
  import opened Effects
  import opened Security
  import opened UserRepository

  const EMAIL_TAKEN: ApiError := NewApiError(409, "User with this email already exists")
  const BAD_CREDENTIALS: ApiError := NewApiError(401, "Invalid email or password")
  const BAD_TOKEN: ApiError := NewApiError(401, "Invalid or expired authentication token.")
  const USER_NOT_FOUND: ApiError := NewApiError(404, "User not found.")
  const NO_ORIGIN: ApiError := NewApiError(500, "Could not determine application origin.")
  const BAD_RESET_TOKEN: ApiError := NewApiError(400, "Invalid or expired password reset token.")

  /** A reset token lives ten minutes. */
  const RESET_TOKEN_TTL_MS: int := 10 * 60 * 1000

  /** What login and a password reset hand back: a fresh access token and
      the user without the password. */
  datatype Session = Session(accessToken: string, user: User)

  /** The stored user has a (truthy) password hash that `password` matches. */
  predicate Authenticates(crypto: Crypto, u: User, password: string) {
    u.password.Some? && u.password.value != "" && crypto.compare(password, u.password.value)
  }

  /** `u` after a successful reset: the new hash, and no reset token. */
  function Reset(u: User, passwordHash: string): (r: User)
    ensures r.id == u.id && r.email == u.email && r.profile == u.profile
    ensures r.password == Some(passwordHash) && r.resetToken.None? && r.resetExpiry.None?
  {
    u.(password := Some(passwordHash), resetToken := None, resetExpiry := None)
  }

  lemma SaveResetTokenAt(s: Store, i: int, token: string, expiry: int)
    requires Unique(s) && 0 <= i < |s|
    ensures SaveResetToken(s, s[i].id, token, expiry) == s[i := s[i].(resetToken := Some(token), resetExpiry := Some(expiry))]
  {
    var r := SaveResetToken(s, s[i].id, token, expiry);
    assert forall j :: 0 <= j < i ==> s[j].id != s[i].id;
    forall j | 0 <= j < |s| && j != i
      ensures r[j] == s[j]
    {
      assert s[j].id != s[i].id;
    }
  }

  lemma SavePasswordAt(s: Store, i: int, passwordHash: string)
    requires Unique(s) && 0 <= i < |s|
    ensures SavePassword(s, s[i].id, passwordHash) == s[i := Reset(s[i], passwordHash)]
  {
    var r := SavePassword(s, s[i].id, passwordHash);
    assert forall j :: 0 <= j < i ==> s[j].id != s[i].id;
    forall j | 0 <= j < |s| && j != i
      ensures r[j] == s[j]
    {
      assert s[j].id != s[i].id;
    }
  }

  /** `AuthService.register(name, email, password)` under the fresh id
      `newId`: refuses a taken email, stores the bcrypt hash, sends the
      welcome email. */
  function Register(users: Store, crypto: Crypto, name: string, email: string, password: string,
                    newId: string): (r: Step<User, Store>)
    ensures HasEmail(users, email) ==> r == Step(Err(Api(EMAIL_TAKEN)), users, [])
    ensures r.result.Err? ==> r.state == users && r.mail == []
    ensures r.result.Ok? <==> !HasEmail(users, email) && !HasUserId(users, newId)
    ensures r.result.Ok? ==> r.state == users + [User(newId, email, Some(crypto.hash(password)), None, None, map["name" := Str(name)])]
    ensures r.result.Ok? ==> r.result.value == WithoutPassword(r.state[|users|]) && r.mail == [Welcome(email, name)]
    ensures Unique(users) ==> Unique(r.state)
  {
    if FindByEmail(users, email).Some? then Step(Err(Api(EMAIL_TAKEN)), users, [])
    else
      match Create(users, newId, name, email, crypto.hash(password))
      case DuplicateKey => Step(Err(Unexpected("E11000 duplicate key error")), users, [])
      case Created(u, store) => Step(Ok(WithoutPassword(u)), store, [Welcome(email, name)])
  }

  /** `AuthService.login(email, password)`. Every failure raises the same
      401, so the response does not tell whether the account exists. */
  function Login(users: Store, crypto: Crypto, jwt: Jwt, email: string, password: string): (r: Result<Session, Thrown>)
    ensures r.Err? ==> r == Err(Api(BAD_CREDENTIALS))
    ensures !HasEmail(users, email) ==> r.Err?
    ensures Unique(users) ==> (r.Ok? <==> exists i :: 0 <= i < |users| && users[i].email == email && Authenticates(crypto, users[i], password))
    ensures r.Ok? ==> r.value.user.password.None? && r.value.user.email == email
    ensures r.Ok? ==> r.value.accessToken == jwt.sign(r.value.user.id)
    ensures r.Ok? ==> exists i :: 0 <= i < |users| && users[i].email == email && Authenticates(crypto, users[i], password)
                                  && r.value.user == WithoutPassword(users[i])
  {
    match FindByEmail(users, email)
    case None => Err(Api(BAD_CREDENTIALS))
    case Some(u) =>
      if !Authenticates(crypto, u, password) then Err(Api(BAD_CREDENTIALS))
      else
        assert exists i :: 0 <= i < |users| && users[i] == u;
        assert Unique(users) ==> forall i :: 0 <= i < |users| && users[i].email == email ==> users[i] == u by {
          if Unique(users) {
            forall i | 0 <= i < |users| && users[i].email == email
              ensures users[i] == u
            {
              FindByEmailAt(users, i);
            }
          }
        }
        Ok(Session(jwt.sign(u.id), WithoutPassword(u)))
  }

  /** Login fails identically for an unknown email and for a known email
      with a wrong password. */
  lemma LoginHidesAccountExistence(users: Store, crypto: Crypto, jwt: Jwt,
                                   unknown: string, p1: string, known: string, p2: string)
    requires Unique(users)
    requires !HasEmail(users, unknown)
    requires forall i :: 0 <= i < |users| && users[i].email == known ==> !Authenticates(crypto, users[i], p2)
    ensures Login(users, crypto, jwt, unknown, p1) == Login(users, crypto, jwt, known, p2)
  {
  }

  /** `AuthService.getCurrentUser(token)`. */
  function GetCurrentUser(users: Store, jwt: Jwt, token: string): (r: Result<User, Thrown>)
    ensures VerifiedUserId(jwt, token).None? ==> r == Err(Api(BAD_TOKEN))
    ensures VerifiedUserId(jwt, token).Some? ==> (r.Err? <==> !HasUserId(users, VerifiedUserId(jwt, token).value))
    ensures r.Err? ==> r == Err(Api(BAD_TOKEN)) || r == Err(Api(USER_NOT_FOUND))
    ensures r.Ok? ==> VerifiedUserId(jwt, token) == Some(r.value.id) && r.value.password.None?
    ensures r.Ok? ==> exists i :: 0 <= i < |users| && users[i].id == r.value.id && r.value == WithoutPassword(users[i])
  {
    match VerifiedUserId(jwt, token)
    case None => Err(Api(BAD_TOKEN))
    case Some(userId) =>
      match FindById(users, userId)
      case None => Err(Api(USER_NOT_FOUND))
      case Some(u) => Ok(WithoutPassword(u))
  }

  /** The link a reset email carries. */
  function ResetUrl(origin: string, rawToken: string): (url: string)
    ensures StartsWith(url, origin)
    ensures url[|origin|..] == "/reset-password?token=" + rawToken
  {
    origin + "/reset-password?token=" + rawToken
  }

  /** `AuthService.sendPasswordResetEmail(email, origin)` with the random
      token `rawToken` at time `now`. The SHA-256 of the token and its
      expiry are saved before the origin is checked, so a missing origin
      still leaves a live (but unsent) token behind. */
  function SendPasswordResetEmail(users: Store, crypto: Crypto, email: string, origin: string,
                                  rawToken: string, now: int): (r: Step<(), Store>)
    ensures !HasEmail(users, email) ==> r == Step(Ok(()), users, [])
    ensures HasEmail(users, email) && Unique(users) ==>
      exists i :: 0 <= i < |users| && users[i].email == email &&
                  r.state == users[i := users[i].(resetToken := Some(crypto.sha256(rawToken)),
                                                  resetExpiry := Some(now + RESET_TOKEN_TTL_MS))]
    ensures HasEmail(users, email) && origin == "" ==> r.result == Err(Api(NO_ORIGIN)) && r.mail == []
    ensures HasEmail(users, email) && origin != "" ==>
      r.result == Ok(()) && r.mail == [PasswordReset(email, ResetUrl(origin, rawToken))]
    ensures Unique(users) ==> Unique(r.state)
  {
    match FindByEmail(users, email)
    case None => Step(Ok(()), users, [])
    case Some(u) =>
      var store := SaveResetToken(users, u.id, crypto.sha256(rawToken), now + RESET_TOKEN_TTL_MS);
      assert Unique(users) ==>
        exists i :: 0 <= i < |users| && users[i].email == email &&
                    store == users[i := users[i].(resetToken := Some(crypto.sha256(rawToken)),
                                                  resetExpiry := Some(now + RESET_TOKEN_TTL_MS))] by {
        if Unique(users) {
          var i :| 0 <= i < |users| && users[i] == u;
          SaveResetTokenAt(users, i, crypto.sha256(rawToken), now + RESET_TOKEN_TTL_MS);
        }
      }
      if origin == "" then Step(Err(Api(NO_ORIGIN)), store, [])
      else Step(Ok(()), store, [PasswordReset(email, ResetUrl(origin, rawToken))])
  }

  /** No user holds a reset token other than `hashed`'s single holder. */
  predicate TokenHeldOnce(users: Store, hashed: string) {
    forall i, j ::
      (0 <= i < |users| && 0 <= j < |users| &&
       users[i].resetToken == Some(hashed) && users[j].resetToken == Some(hashed)) ==> i == j
  }

  /** `AuthService.resetPassword(token, newPassword)` at time `now`: finds
      the user holding the token's SHA-256 with an unexpired deadline,
      stores the new hash, clears the token and logs the user in. */
  function ResetPassword(users: Store, crypto: Crypto, jwt: Jwt, token: string, newPassword: string,
                         now: int): (r: Step<Session, Store>)
    ensures r.mail == []
    ensures r.result.Err? <==> !exists i :: 0 <= i < |users| && HoldsLiveToken(users[i], crypto.sha256(token), now)
    ensures r.result.Err? ==> r.result.error == Api(BAD_RESET_TOKEN) && r.state == users
    ensures r.result.Ok? && Unique(users) ==>
      exists i :: 0 <= i < |users| && HoldsLiveToken(users[i], crypto.sha256(token), now) &&
                  r.state == users[i := Reset(users[i], crypto.hash(newPassword))] &&
                  r.result.value == Session(jwt.sign(users[i].id), WithoutPassword(r.state[i]))
    ensures Unique(users) ==> Unique(r.state)
  {
    match FindByPasswordResetToken(users, crypto.sha256(token), now)
    case None => Step(Err(Api(BAD_RESET_TOKEN)), users, [])
    case Some(u) =>
      var passwordHash := crypto.hash(newPassword);
      var store := SavePassword(users, u.id, passwordHash);
      assert Unique(users) ==> exists i :: 0 <= i < |users| && users[i] == u && store == users[i := Reset(u, passwordHash)] by {
        if Unique(users) {
          var i :| 0 <= i < |users| && users[i] == u;
          SavePasswordAt(users, i, passwordHash);
        }
      }
      Step(Ok(Session(jwt.sign(u.id), WithoutPassword(Reset(u, passwordHash)))), store, [])
  }

  /** A reset token works once: after a successful reset no user holds it,
      so presenting it again fails at any later time. */
  lemma {:induction false} ResetTokenSingleUse(users: Store, crypto: Crypto, jwt: Jwt, token: string,
                                               p1: string, now: int, p2: string, later: int)
    requires Unique(users) && TokenHeldOnce(users, crypto.sha256(token))
    requires ResetPassword(users, crypto, jwt, token, p1, now).result.Ok?
    ensures ResetPassword(ResetPassword(users, crypto, jwt, token, p1, now).state, crypto, jwt, token, p2, later).result
         == Err(Api(BAD_RESET_TOKEN))
  {
    var h := crypto.sha256(token);
    var r := ResetPassword(users, crypto, jwt, token, p1, now);
    var i :| 0 <= i < |users| && HoldsLiveToken(users[i], h, now) &&
             r.state == users[i := Reset(users[i], crypto.hash(p1))] &&
             r.result.value == Session(jwt.sign(users[i].id), WithoutPassword(r.state[i]));
    forall j | 0 <= j < |r.state|
      ensures !HoldsLiveToken(r.state[j], h, later)
    {
      if j != i {
        assert r.state[j] == users[j];
      }
    }
  }

  /** The emailed link resets the password until ten minutes have passed,
      and not from then on (the token is fresh: no user held its hash). */
  lemma {:induction false} ResetLinkExpires(users: Store, crypto: Crypto, jwt: Jwt, email: string, origin: string,
                                            rawToken: string, now: int, later: int, newPassword: string)
    requires Unique(users) && HasEmail(users, email)
    requires forall j :: 0 <= j < |users| ==> users[j].resetToken != Some(crypto.sha256(rawToken))
    ensures var s := SendPasswordResetEmail(users, crypto, email, origin, rawToken, now).state;
      ResetPassword(s, crypto, jwt, rawToken, newPassword, later).result.Ok? <==> later < now + RESET_TOKEN_TTL_MS
  {
    var h := crypto.sha256(rawToken);
    var s := SendPasswordResetEmail(users, crypto, email, origin, rawToken, now).state;
    var i :| 0 <= i < |users| && users[i].email == email &&
             s == users[i := users[i].(resetToken := Some(h), resetExpiry := Some(now + RESET_TOKEN_TTL_MS))];
    assert forall j :: 0 <= j < |s| && j != i ==> s[j] == users[j];
    if later < now + RESET_TOKEN_TTL_MS {
      assert HoldsLiveToken(s[i], h, later);
    } else {
      forall j | 0 <= j < |s|
        ensures !HoldsLiveToken(s[j], h, later)
      {
        if j != i {
          assert s[j] == users[j];
        }
      }
    }
  }

  /** Register, log in with the same password, and present the token: the
      current user is the one just registered. It rests on bcrypt accepting
      the password it hashed and on the token verifying to the id signed. */
  lemma {:induction false} RegisterLoginMe(users: Store, crypto: Crypto, jwt: Jwt, name: string, email: string,
                                           password: string, newId: string)
    requires Unique(users)
    requires !HasEmail(users, email) && !HasUserId(users, newId)
    requires crypto.hash(password) != "" && crypto.compare(password, crypto.hash(password))
    requires SignVerifies(jwt, newId)
    ensures var reg := Register(users, crypto, name, email, password, newId);
      && reg.result.Ok?
      && Login(reg.state, crypto, jwt, email, password).Ok?
      && Login(reg.state, crypto, jwt, email, password).value.user == reg.result.value
      && GetCurrentUser(reg.state, jwt, Login(reg.state, crypto, jwt, email, password).value.accessToken)
         == Ok(reg.result.value)
  {
    var reg := Register(users, crypto, name, email, password, newId);
    var s := reg.state;
    var n := |users|;
    assert s[n].email == email && s[n].id == newId;
    assert Authenticates(crypto, s[n], password);
    FindByEmailAt(s, n);
    FindByIdAt(s, n);
    var login := Login(s, crypto, jwt, email, password);
    assert login == Ok(Session(jwt.sign(newId), WithoutPassword(s[n])));
  }
}
