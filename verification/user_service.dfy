/** The profile business logic (`UserService`): reading and updating a
    profile, never handing out the password hash. */
module UserService {
  import opened Base
  import opened ApiErrors
  import opened Effects
  import opened UserRepository

  const USER_NOT_FOUND: ApiError := NewApiError(404, "User not found.")

  /** `UserService.getUserProfile(userId)`. */
  function GetUserProfile(users: Store, userId: string): (r: Result<User, Thrown>)
    ensures r.Err? <==> !HasUserId(users, userId)
    ensures r.Err? ==> r.error == Api(USER_NOT_FOUND)
    ensures r.Ok? ==> r.value.password.None? && r.value.id == userId
    ensures r.Ok? ==> exists i :: 0 <= i < |users| && users[i].id == userId && r.value == WithoutPassword(users[i])
  {
    match FindById(users, userId)
    case None => Err(Api(USER_NOT_FOUND))
    case Some(u) => Ok(WithoutPassword(u))
  }

  /** `UserService.updateUserProfile(userId, data)`: applies the update,
      then notifies the account's address. A write the unique email index
      refuses surfaces as the database's error. */
  function UpdateUserProfile(users: Store, userId: string, data: map<string, Value>): (r: Step<User, Store>)
    ensures !HasUserId(users, userId) ==> r == Step(Err(Api(USER_NOT_FOUND)), users, [])
    ensures r.result.Err? ==> r.state == users && r.mail == []
    ensures r.result.Err? && HasUserId(users, userId) ==> r.result.error.Unexpected? && "email" in data
    ensures "email" !in data ==> (r.result.Ok? <==> HasUserId(users, userId))
    ensures Unique(users) ==>
              (r.result.Ok? <==> exists i :: 0 <= i < |users| && users[i].id == userId &&
                                             !EmailClash(users, users[i], ApplyUpdate(users[i], data)))
    ensures r.result.Ok? ==> exists i :: 0 <= i < |users| && users[i].id == userId &&
                                         r.state == users[i := ApplyUpdate(users[i], data)] &&
                                         r.result.value == WithoutPassword(r.state[i]) &&
                                         r.mail == [ProfileUpdated(r.state[i].email)]
    ensures Unique(users) ==> Unique(r.state)
  {
    match Update(users, userId, data)
    case Missing => Step(Err(Api(USER_NOT_FOUND)), users, [])
    case EmailTaken => Step(Err(Unexpected("E11000 duplicate key error")), users, [])
    case Updated(updated, store) => Step(Ok(WithoutPassword(updated)), store, [ProfileUpdated(updated.email)])
  }

  /** Reading the profile after an update shows the update. */
  lemma UpdateThenGet(users: Store, i: int, data: map<string, Value>)
    requires Unique(users) && 0 <= i < |users|
    requires !EmailClash(users, users[i], ApplyUpdate(users[i], data))
    ensures var r := UpdateUserProfile(users, users[i].id, data);
      r.result.Ok? && GetUserProfile(r.state, users[i].id) == Ok(r.result.value)
  {
    var userId := users[i].id;
    var r := UpdateUserProfile(users, userId, data);
    var k :| 0 <= k < |users| && users[k].id == userId &&
             r.state == users[k := ApplyUpdate(users[k], data)] &&
             r.result.value == WithoutPassword(r.state[k]);
    FindByIdAt(r.state, k);
  }
}
