/** The user collection (`UserRepository`). A user document keeps its
    bcrypt password hash, the SHA-256 of the last password-reset token and
    that token's expiry, and the profile fields. The collection has unique
    indexes on `_id` and on `email`. The password is excluded from query
    results unless a query asks for it (`select: false` in the schema). */
module UserRepository {
  import opened Base
  import Collections

  /** The fields a profile update may set; `name` is one of them. */
  const PROFILE_FIELDS: set<string> :=
    {"name", "dob", "gender", "phoneNumber", "companyUrl", "jobTitle", "bio", "country"}

  datatype User = User(
    id: string,
    email: string,
    password: Option<string>,
    resetToken: Option<string>,
    resetExpiry: Option<int>,
    profile: map<string, Value>)

  type Store = seq<User>

  /** The unique indexes hold: no two users share an id or an email. */
  predicate Unique(s: Store) {
    forall i, j :: 0 <= i < j < |s| ==> s[i].id != s[j].id && s[i].email != s[j].email
  }

  predicate HasEmail(s: Store, email: string) {
    exists i :: 0 <= i < |s| && s[i].email == email
  }

  predicate HasUserId(s: Store, id: string) {
    exists i :: 0 <= i < |s| && s[i].id == id
  }

  /** A user as the database returns it when the password is not selected,
      and as a service returns it after `delete userObject.password`. */
  function WithoutPassword(u: User): (r: User)
    ensures r.password.None?
    ensures r.(password := u.password) == u
  {
    u.(password := None)
  }

  datatype Created = Created(user: User, store: Store) | DuplicateKey

  /** `UserRepository.create({name, email, password})` under the fresh id
      `newId`; a clash on either unique index is a database error. */
  function Create(s: Store, newId: string, name: string, email: string, passwordHash: string): (r: Created)
    ensures r.DuplicateKey? <==> HasUserId(s, newId) || HasEmail(s, email)
    ensures r.Created? ==> r.store == s + [r.user]
    ensures r.Created? ==> r.user == User(newId, email, Some(passwordHash), None, None, map["name" := Str(name)])
    ensures r.Created? && Unique(s) ==> Unique(r.store)
  {
    if HasUserId(s, newId) || HasEmail(s, email) then DuplicateKey
    else
      var u := User(newId, email, Some(passwordHash), None, None, map["name" := Str(name)]);
      Created(u, s + [u])
  }

  /** `User.findOne({email}).select('+password')`: the first user with
      exactly that email, password included. */
  function FindByEmail(s: Store, email: string): (r: Option<User>)
    ensures r.Some? <==> HasEmail(s, email)
    ensures r.Some? ==> r.value in s && r.value.email == email
  {
    match Collections.FirstIndex(s, (u: User) => u.email == email)
    case None => None
    case Some(i) => Some(s[i])
  }

  /** `User.findById(id)`: the user with that id, without the password. */
  function FindById(s: Store, id: string): (r: Option<User>)
    ensures r.Some? <==> HasUserId(s, id)
    ensures r.Some? ==> r.value.id == id && r.value.password.None?
    ensures r.Some? ==> exists i :: 0 <= i < |s| && s[i].id == id && r.value == WithoutPassword(s[i])
  {
    match Collections.FirstIndex(s, (u: User) => u.id == id)
    case None => None
    case Some(i) => Some(WithoutPassword(s[i]))
  }

  /** With unique emails, position `i` is what a lookup by `s[i].email` finds. */
  lemma FindByEmailAt(s: Store, i: int)
    requires Unique(s) && 0 <= i < |s|
    ensures FindByEmail(s, s[i].email) == Some(s[i])
  {
    var u := FindByEmail(s, s[i].email).value;
    var k :| 0 <= k < |s| && s[k] == u;
    assert s[k].email == s[i].email;
  }

  /** With unique ids, position `i` is what a lookup by `s[i].id` finds. */
  lemma FindByIdAt(s: Store, i: int)
    requires Unique(s) && 0 <= i < |s|
    ensures FindById(s, s[i].id) == Some(WithoutPassword(s[i]))
  {
  }

  /** The user holds the hashed reset token `token` and it has not expired
      at `now` (`forgotPasswordTokenExpiry > now`). */
  predicate HoldsLiveToken(u: User, token: string, now: int) {
    u.resetToken == Some(token) && u.resetExpiry.Some? && u.resetExpiry.value > now
  }

  /** `UserRepository.findByPasswordResetToken(token)` at time `now`. */
  function FindByPasswordResetToken(s: Store, token: string, now: int): (r: Option<User>)
    ensures r.Some? <==> exists i :: 0 <= i < |s| && HoldsLiveToken(s[i], token, now)
    ensures r.Some? ==> r.value in s && HoldsLiveToken(r.value, token, now)
  {
    match Collections.FirstIndex(s, (u: User) => HoldsLiveToken(u, token, now))
    case None => None
    case Some(i) => Some(s[i])
  }

  /** What an update stores for an optional string path: a string as
      given, `null` as no value. */
  function Stored(v: Value): (r: Option<string>)
    ensures r.Some? <==> v.Str?
    ensures r.Some? ==> r.value == v.s
  {
    match v
    case Null => None
    case Str(x) => Some(x)
  }

  /** `u` after `findByIdAndUpdate` writes `data`: every schema path that
      `data` names is set (the email, the password hash, the reset token
      and its expiry, the profile fields), every other path keeps its value,
      keys outside the schema are dropped, and the id never changes. */
  function ApplyUpdate(u: User, data: map<string, Value>): (r: User)
    ensures r.id == u.id
    ensures "email" in data && data["email"].Str? ==> r.email == data["email"].s
    ensures !("email" in data && data["email"].Str?) ==> r.email == u.email
    ensures "password" in data ==> r.password == Stored(data["password"])
    ensures "password" !in data ==> r.password == u.password
    ensures "forgotPasswordToken" in data ==> r.resetToken == Stored(data["forgotPasswordToken"])
    ensures "forgotPasswordToken" !in data ==> r.resetToken == u.resetToken
    ensures "forgotPasswordTokenExpiry" in data && data["forgotPasswordTokenExpiry"].Null? ==> r.resetExpiry.None?
    ensures "forgotPasswordTokenExpiry" !in data ==> r.resetExpiry == u.resetExpiry
    ensures forall k :: k in data && k in PROFILE_FIELDS ==> k in r.profile && r.profile[k] == data[k]
    ensures forall k :: k in u.profile && k !in data ==> k in r.profile && r.profile[k] == u.profile[k]
    ensures forall k :: k in r.profile ==> k in u.profile || (k in data && k in PROFILE_FIELDS)
  {
    var email := if "email" in data && data["email"].Str? then data["email"].s else u.email;
    var password := if "password" in data then Stored(data["password"]) else u.password;
    var token := if "forgotPasswordToken" in data then Stored(data["forgotPasswordToken"]) else u.resetToken;
    var expiry :=
      if "forgotPasswordTokenExpiry" in data && data["forgotPasswordTokenExpiry"].Null? then None
      else u.resetExpiry;
    User(u.id, email, password, token, expiry, u.profile + Restrict(data, PROFILE_FIELDS))
  }

  /** An update that names only profile fields leaves the account's
      credentials as they were. */
  lemma ProfileOnlyKeepsCredentials(u: User, data: map<string, Value>)
    requires data.Keys <= PROFILE_FIELDS
    ensures var r := ApplyUpdate(u, data);
      r.id == u.id && r.email == u.email && r.password == u.password &&
      r.resetToken == u.resetToken && r.resetExpiry == u.resetExpiry
  {
    assert "email" !in data && "password" !in data;
    assert "forgotPasswordToken" !in data && "forgotPasswordTokenExpiry" !in data;
  }

  /** Writing `after` over `before` breaks the unique email index: the
      address changes to one some user already has. */
  predicate EmailClash(s: Store, before: User, after: User) {
    after.email != before.email && HasEmail(s, after.email)
  }

  datatype Updated = Missing | EmailTaken | Updated(user: User, store: Store)

  lemma ReplaceKeepsUnique(s: Store, i: int, u: User)
    requires Unique(s) && 0 <= i < |s| && u.id == s[i].id && !EmailClash(s, s[i], u)
    ensures Unique(s[i := u])
  {
    forall j | 0 <= j < |s| && j != i
      ensures s[j].email != u.email
    {
      if u.email == s[i].email {
        assert s[j].email != s[i].email by {
          if j < i { } else { }
        }
      }
    }
  }

  /** `User.findByIdAndUpdate(id, data, {new: true})`: the user after the
      update, without the password; `Missing` for an unknown id, and
      `EmailTaken` when the unique email index refuses the write. */
  function Update(s: Store, id: string, data: map<string, Value>): (r: Updated)
    ensures r.Missing? <==> !HasUserId(s, id)
    ensures r.EmailTaken? ==> "email" in data
    ensures r.EmailTaken? ==>
              exists i :: 0 <= i < |s| && s[i].id == id && EmailClash(s, s[i], ApplyUpdate(s[i], data))
    ensures Unique(s) && HasUserId(s, id) ==>
              (r.EmailTaken? <==> exists i :: 0 <= i < |s| && s[i].id == id && EmailClash(s, s[i], ApplyUpdate(s[i], data)))
    ensures r.Updated? ==> exists i :: 0 <= i < |s| && s[i].id == id &&
                                       !EmailClash(s, s[i], ApplyUpdate(s[i], data)) &&
                                       r.store == s[i := ApplyUpdate(s[i], data)] &&
                                       r.user == WithoutPassword(ApplyUpdate(s[i], data))
    ensures r.Updated? && Unique(s) ==> Unique(r.store)
  {
    match Collections.FirstIndex(s, (u: User) => u.id == id)
    case None => Missing
    case Some(i) =>
      var u := ApplyUpdate(s[i], data);
      if EmailClash(s, s[i], u) then EmailTaken
      else
        assert Unique(s) ==> Unique(s[i := u]) by {
          if Unique(s) { ReplaceKeepsUnique(s, i, u); }
        }
        Updated(WithoutPassword(u), s[i := u])
  }

  /** `user.save()` after storing a hashed reset token and its expiry. */
  function SaveResetToken(s: Store, id: string, token: string, expiry: int): (r: Store)
    ensures |r| == |s|
    ensures forall i :: 0 <= i < |s| && s[i].id != id ==> r[i] == s[i]
    ensures forall i :: 0 <= i < |s| && s[i].id == id && (forall j :: 0 <= j < i ==> s[j].id != id) ==>
      r[i] == s[i].(resetToken := Some(token), resetExpiry := Some(expiry))
    ensures Unique(s) ==> Unique(r)
  {
    match Collections.FirstIndex(s, (u: User) => u.id == id)
    case None => s
    case Some(i) => s[i := s[i].(resetToken := Some(token), resetExpiry := Some(expiry))]
  }

  /** `user.save()` after storing a new password hash and clearing the
      reset token and its expiry. */
  function SavePassword(s: Store, id: string, passwordHash: string): (r: Store)
    ensures |r| == |s|
    ensures forall i :: 0 <= i < |s| && s[i].id != id ==> r[i] == s[i]
    ensures forall i :: 0 <= i < |s| && s[i].id == id && (forall j :: 0 <= j < i ==> s[j].id != id) ==>
      r[i] == s[i].(password := Some(passwordHash), resetToken := None, resetExpiry := None)
    ensures Unique(s) ==> Unique(r)
  {
    match Collections.FirstIndex(s, (u: User) => u.id == id)
    case None => s
    case Some(i) => s[i := s[i].(password := Some(passwordHash), resetToken := None, resetExpiry := None)]
  }
}
