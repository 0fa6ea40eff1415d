/** The HTTP layer for profiles (`UserController`): reading the caller's
    profile, and updating it through a whitelist of profile fields with a
    check on the name. */
module UserController {
  import opened Base
  import opened ApiErrors
  import opened ApiResponse
  import opened Effects
  import opened Security
  import opened Http
  import opened UserRepository
  import UserService

  const INVALID_NAME: ApiError := NewApiError(400, "A valid name is required.")

  /** `typeof name === 'string' && name.length >= 2`. */
  predicate ValidName(v: Value) {
    v.Str? && Utf16Length(v.s) >= 2
  }

  /** The `updateData` object `updateProfile` builds from the body: the
      profile fields the body defines, copied as given (`null` included),
      after refusing a name that is not a string of two or more UTF-16
      code units. */
  function ProfileUpdate(body: map<string, Value>): (r: Result<map<string, Value>, Thrown>)
    ensures r.Err? <==> "name" in body && !ValidName(body["name"])
    ensures r.Err? ==> r.error == Api(INVALID_NAME)
    ensures r.Ok? ==> r.value.Keys == body.Keys * PROFILE_FIELDS
    ensures r.Ok? ==> forall k :: k in r.value ==> r.value[k] == body[k]
    ensures r.Ok? && "name" in r.value ==> ValidName(r.value["name"])
  {
    if "name" in body && !ValidName(body["name"]) then Err(Api(INVALID_NAME))
    else Ok(Restrict(body, PROFILE_FIELDS))
  }

  /** The account fields a profile update can never reach. */
  lemma ProfileUpdateWhitelist(body: map<string, Value>)
    requires ProfileUpdate(body).Ok?
    ensures var u := ProfileUpdate(body).value;
      "email" !in u && "password" !in u && "forgotPasswordToken" !in u &&
      "forgotPasswordTokenExpiry" !in u && "_id" !in u && "userId" !in u
  {
  }

  /** `UserController.getProfile(req)`: 200 with the caller's profile. */
  function GetProfile(limiter: Limiter, jwt: Jwt, users: Store, req: Request): (r: Reply<Store>)
    ensures r.response.headers == RateLimitHeaders(VerdictFor(limiter, req))
    ensures r.state == users && r.mail == []
    ensures !VerdictFor(limiter, req).success ==> r == Throttled(VerdictFor(limiter, req), users)
    ensures Caller(limiter, jwt, req).Err? ==>
              r == Reply(Handle(Caller(limiter, jwt, req).error, r.response.headers), users, [])
    ensures r.response.success <==> Caller(limiter, jwt, req).Ok? && HasUserId(users, Caller(limiter, jwt, req).value)
    ensures Caller(limiter, jwt, req).Ok? && !r.response.success ==>
              r.response.status == 404 && r.response.message == "User not found."
    ensures r.response.success ==>
              && r.response.status == 200
              && r.response.data.Some? && r.response.data.value.Account?
              && exists i :: 0 <= i < |users| && users[i].id == Caller(limiter, jwt, req).value
                             && r.response.data.value.user == WithoutPassword(users[i])
  {
    var step: Step<Payload, Store> :=
      match Caller(limiter, jwt, req)
      case Err(e) => Step(Err(e), users, [])
      case Ok(userId) =>
        match UserService.GetUserProfile(users, userId)
        case Err(e) => Step(Err(e), users, [])
        case Ok(u) => Step(Ok(Account(u)), users, []);
    Answer(RateLimitHeaders(VerdictFor(limiter, req)), step, "Profile retrieved successfully", 200)
  }

  /** `UserController.updateProfile(req)`: 200 with the updated profile. */
  function UpdateProfile(limiter: Limiter, jwt: Jwt, users: Store, req: Request): (r: Reply<Store>)
    ensures r.response.headers == RateLimitHeaders(VerdictFor(limiter, req))
    ensures !VerdictFor(limiter, req).success ==> r == Throttled(VerdictFor(limiter, req), users)
    ensures Caller(limiter, jwt, req).Err? ==>
              r == Reply(Handle(Caller(limiter, jwt, req).error, r.response.headers), users, [])
    ensures Caller(limiter, jwt, req).Ok? && req.body.None? ==>
              r.response.status == 500 && r.state == users && r.mail == []
    ensures Caller(limiter, jwt, req).Ok? && req.body.Some? && ProfileUpdate(req.body.value).Err? ==>
              r == Reply(Handle(Api(INVALID_NAME), r.response.headers), users, [])
    ensures r.response.success <==> Caller(limiter, jwt, req).Ok? && req.body.Some? &&
                                    ProfileUpdate(req.body.value).Ok? && HasUserId(users, Caller(limiter, jwt, req).value)
    ensures r.response.success ==>
              && r.response.status == 200
              && r.response.data.Some? && r.response.data.value.Account?
              && exists i :: 0 <= i < |users| && users[i].id == Caller(limiter, jwt, req).value
                             && r.state == users[i := ApplyUpdate(users[i], ProfileUpdate(req.body.value).value)]
                             && r.response.data.value.user == WithoutPassword(r.state[i])
                             && r.mail == [ProfileUpdated(users[i].email)]
    ensures !r.response.success ==> r.state == users && r.mail == []
  {
    Answer(RateLimitHeaders(VerdictFor(limiter, req)), ProfileStep(users, Caller(limiter, jwt, req), req.body),
           "Profile updated successfully", 200)
  }

  /** The part of `updateProfile` after the limiter and the token: read the
      body, check the name, update and notify. */
  function ProfileStep(users: Store, caller: Result<string, Thrown>, body: Option<map<string, Value>>)
    : (s: Step<Payload, Store>)
    ensures caller.Err? ==> s == Step(Err(caller.error), users, [])
    ensures caller.Ok? && body.None? ==> s == Step(Err(MALFORMED_BODY), users, [])
    ensures caller.Ok? && body.Some? && ProfileUpdate(body.value).Err? ==> s == Step(Err(Api(INVALID_NAME)), users, [])
    ensures s.result.Ok? <==> caller.Ok? && body.Some? && ProfileUpdate(body.value).Ok? && HasUserId(users, caller.value)
    ensures s.result.Ok? ==>
              && s.result.value.Account?
              && exists i :: 0 <= i < |users| && users[i].id == caller.value
                             && s.state == users[i := ApplyUpdate(users[i], ProfileUpdate(body.value).value)]
                             && s.result.value.user == WithoutPassword(s.state[i])
                             && s.mail == [ProfileUpdated(users[i].email)]
    ensures s.result.Err? ==> s.state == users && s.mail == []
  {
    match caller
    case Err(e) => Step(Err(e), users, [])
    case Ok(userId) =>
      match body
      case None => Step(Err(MALFORMED_BODY), users, [])
      case Some(b) =>
        match ProfileUpdate(b)
        case Err(e) => Step(Err(e), users, [])
        case Ok(data) =>
          ProfileUpdateWhitelist(b);
          Lift(UserService.UpdateUserProfile(users, userId, data), (u: User) => Account(u))
  }

  /** A profile update leaves the caller's email, password hash and reset
      token as they were, whatever the body says: the whitelist keeps every
      credential path out of the update the repository writes. */
  lemma {:induction false} UpdateProfileKeepsCredentials(limiter: Limiter, jwt: Jwt, users: Store, req: Request, i: int)
    requires Unique(users) && 0 <= i < |users|
    requires Caller(limiter, jwt, req) == Ok(users[i].id)
    requires req.body.Some? && ProfileUpdate(req.body.value).Ok?
    ensures UpdateProfile(limiter, jwt, users, req).response.success
    ensures var after := UpdateProfile(limiter, jwt, users, req).state[i];
      after.email == users[i].email && after.password == users[i].password &&
      after.resetToken == users[i].resetToken && after.resetExpiry == users[i].resetExpiry
  {
    var r := UpdateProfile(limiter, jwt, users, req);
    var data := ProfileUpdate(req.body.value).value;
    var k :| 0 <= k < |users| && users[k].id == users[i].id
             && r.state == users[k := ApplyUpdate(users[k], data)];
    assert k == i;
    ProfileUpdateWhitelist(req.body.value);
    ProfileOnlyKeepsCredentials(users[i], data);
  }
}
