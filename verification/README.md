# ApniSec core, modelled in Dafny

ApniSec is a Next.js web application. Its users register, log in and file
security issues, of three types: Cloud Security, RedTeam Assessment and
VAPT. They can also keep notes. This project models the server side of the
application as pure functions over immutable stores and proves properties
about them. The model covers:

- the in-memory fixed-window rate limiter: 100 calls per 15 minutes per
  client identifier;
- the JSON envelope built by `ApiResponse`, and the mapping from thrown
  errors (`ApiError` or anything else) to HTTP responses;
- the issue, note and user repositories, as sequences of documents;
- the business services:
  - `IssueService`: required fields, the owner forced on creation, the type
    slug and search filter, and one 404 for "missing" and "not yours";
  - `NoteService`;
  - `UserService`;
  - `AuthService`: registration, login, the current user, the hashed,
    ten-minute password-reset token, and password reset;
- the four controllers:
  - the rate limit is checked first, then the access-token cookie, then the
    body;
  - the rate-limit headers go on every answer;
  - the session cookie is set on login and reset, and cleared on logout;
- the edge middleware that sends unauthenticated `/dashboard` visits to
  `/login`, and the layout's "show the navbar" rule.

Effects become values:

- A store is a `seq` of records. Every operation that writes returns the
  new store.
- The emails the services send are returned as a list of `Email` values.
- The current time (`now`), the fresh database ids (`newId`) and the random
  reset token (`rawToken`) are parameters.
- bcrypt, SHA-256 and the JWT signer and verifier are uninterpreted
  functions inside the `Crypto` and `Jwt` records.
- The rate-limit verdict a controller receives is a function of the client
  identifier (`Http.Limiter`).

Module layout (one file each):

- `Base`: Result and Option types, JavaScript truthiness, `Number.toString`.
- `Collections`: filter, removal, newest-first sort.
- `ApiErrors`, `ApiResponse`, `Effects` (emails and the `Step` of a service
  call), `Security`.
- `RateLimiter`.
- `Documents`: the issue and note collections.
- `UserRepository`, `IssueRepository`, `IssueService`, `NoteRepository`,
  `NoteService`, `UserService`, `AuthService`.
- `Http`: request, verdict, reply, token check, try/catch.
- `IssueController`, `NoteController`, `UserController`, `AuthController`.
- `RouteGates`: middleware and navbar.

## Model

| member | source | states |
|---|---|---|
| RateLimiter.Check | src/lib/security/RateLimiter.ts:21-43 | a call is allowed iff the client has no entry, its window is older than 15 minutes, or fewer than 100 calls were counted; a new window records one call at `now`; an allowed call inside the window adds one and keeps the start; a refused call changes nothing; other clients' entries are untouched |
| RateLimiter.CheckPreservesValid | src/lib/security/RateLimiter.ts:25-39 | the stored count always stays between 1 and 100 |
| RateLimiter.FirstCallAllowed | src/lib/security/RateLimiter.ts:25-31 | a client the limiter has not seen is always let through and starts a window of one call |
| RateLimiter.WindowBoundary | src/lib/security/RateLimiter.ts:25 | a full window still refuses exactly 15 minutes after its start and admits again one millisecond later |
| RateLimiter.ReplayInWindow | src/lib/security/RateLimiter.ts:34-42 | inside one window, starting from count k, the i-th further call is allowed iff k + i < 100, and the window start never moves |
| RateLimiter.ExactlyLimitPerWindow | src/lib/security/RateLimiter.ts:25-42 | from a fresh window, exactly the first 100 calls within 15 minutes are allowed and every later one is refused |
| RateLimiter.ReplayLeavesOthers | src/lib/security/RateLimiter.ts:23-37 | any sequence of calls by one client leaves every other client's entry as it was |
| RateLimiter.BoundaryBurst | src/lib/security/RateLimiter.ts:25-39 | a fixed window admits 200 calls within 15 minutes and one millisecond: 100 at the start and 100 just after the window ends |
| ApiErrors.NewApiError | src/lib/api/ApiError.ts:1-13 | an error carries the status, message and error list it was built with, and `success` is false |
| ApiErrors.NewApiErrorDefaults | src/lib/api/ApiError.ts:4-8 | the default message is "Something went wrong" and the default error list is empty |
| ApiResponse.Success | src/lib/core/ApiResponse.ts:15-29 | the success envelope has success true, the data, the message and status given, and no `errors` field |
| ApiResponse.Error | src/lib/core/ApiResponse.ts:36-45 | the error envelope has success false, the error's message and status, no data, and an `errors` field iff the error list is non-empty |
| ApiResponse.Handle | src/lib/core/ApiResponse.ts:52-61 | an `ApiError` becomes its own error envelope; anything else becomes a 500 "Internal Server Error" with no details; the headers are kept either way |
| ApiResponse.HandleHidesDetail | src/lib/core/ApiResponse.ts:57-60 | two different unexpected errors give identical responses, so nothing of the error leaks |
| Collections.SortNewestFirst | src/lib/modules/issues/IssueRepository.ts:39 | the result is a permutation of the input ordered by non-increasing `createdAt` |
| Documents.FindNewestFirst | src/lib/modules/notes/NoteRepository.ts:28 | a query returns exactly the matching documents of the store (as a multiset), newest first |
| IssueRepository.Create | src/lib/modules/issues/IssueRepository.ts:15-19 | saving appends one issue with the fresh id and time, keeps schema fields only, copies the given values, defaults `status` to "OPEN", fails on a used id, and keeps ids unique |
| IssueRepository.FindById | src/lib/modules/issues/IssueRepository.ts:26-30 | an issue is found iff the id is a valid ObjectId and some issue has it |
| IssueRepository.Find | src/lib/modules/issues/IssueRepository.ts:37-40 | the result holds every issue matching the filter and only those, newest first |
| IssueRepository.Patched | src/lib/modules/issues/IssueRepository.ts:52 | an update sets the schema fields the body names, keeps the others, and never changes the id or creation time |
| IssueRepository.Update | src/lib/modules/issues/IssueRepository.ts:49-53 | an issue is updated iff the id is valid and the issue belongs to the caller; otherwise the store is unchanged |
| IssueRepository.Delete | src/lib/modules/issues/IssueRepository.ts:61-66 | an issue is removed iff the id is valid and the issue belongs to the caller; only that issue goes |
| IssueRepository.UpdatePreservesIdsUnique | src/lib/modules/issues/IssueRepository.ts:49-53 | updating keeps issue ids unique |
| IssueRepository.DeletePreservesIdsUnique | src/lib/modules/issues/IssueRepository.ts:61-66 | deleting keeps ids unique, and a deleted id is gone from the store |
| IssueRepository.ForeignIssueUntouched | src/lib/modules/issues/IssueRepository.ts:49-66 | nobody but the owner can update or delete an issue |
| IssueRepository.UpdateMayReassignOwner | src/lib/modules/issues/IssueRepository.ts:52 | an update body that names another `userId` hands the issue to that user |
| IssueService.CreateIssue | src/lib/modules/issues/IssueService.ts:41-61 | a body without a truthy title, type and description is refused with 400 and nothing stored; otherwise the issue is stored under the caller whatever `userId` the body says, keeps the body's schema fields, and is stamped with the fresh id and `now`; the confirmation email goes to the owner's stored address when it is non-empty, and no email goes out when the owner is unknown or has none |
| IssueService.TypeForSlug | src/lib/modules/issues/IssueService.ts:73-84 | a slug maps to a type iff its lower-case form is one of the three table keys, and then to the type whose slug that is |
| IssueService.SlugRoundTrip | src/lib/modules/issues/IssueService.ts:75-79 | the slug of each issue type maps back to that type |
| IssueService.SlugCaseInsensitive | src/lib/modules/issues/IssueService.ts:80 | slugs that differ only in letter case select the same type |
| IssueService.BuildQuery | src/lib/modules/issues/IssueService.ts:69-92 | the filter always names the owner; it has a type iff the slug is non-empty and recognised, and a search term iff that term is non-empty |
| IssueService.GetUserIssues | src/lib/modules/issues/IssueService.ts:69-94 | the listing holds only the caller's issues, each of them matching the type and search filter built from the slug and search term, and every issue of the caller that matches it, newest first |
| IssueService.UnknownSlugIgnored | src/lib/modules/issues/IssueService.ts:80-83 | an unrecognised slug lists the same issues as no slug |
| IssueService.SearchOnlyNarrows | src/lib/modules/issues/IssueService.ts:86-91 | adding a search term never adds issues to the listing |
| IssueService.GetIssueById | src/lib/modules/issues/IssueService.ts:102-108 | an issue is returned iff it exists under a valid id and belongs to the caller; an ApiError here is always the 404 |
| IssueService.NotFoundIndistinguishable | src/lib/modules/issues/IssueService.ts:104-105 | a missing issue and someone else's issue give the same 404 |
| IssueService.UpdateIssue | src/lib/modules/issues/IssueService.ts:117-123 | the update succeeds iff the caller owns a validly identified issue, and then stores the patched issue in place; otherwise 404 and no change |
| IssueService.DeleteIssue | src/lib/modules/issues/IssueService.ts:130-135 | the deletion succeeds iff the caller owns a validly identified issue, and removes just it; otherwise 404 and no change |
| NoteRepository.Create | src/lib/modules/notes/NoteRepository.ts:15-19 | saving appends one note with the fresh id and time, holding the body's schema fields, and keeps ids unique |
| NoteRepository.FindByUser | src/lib/modules/notes/NoteRepository.ts:26-29 | the listing is exactly the user's notes (as a multiset), newest first |
| NoteRepository.CreateThenFind | src/lib/modules/notes/NoteRepository.ts:15-29 | a saved note shows up in its owner's listing |
| NoteService.CreateNote | src/lib/modules/notes/NoteService.ts:22-35 | a body without a truthy title and content is refused with 400; otherwise the note is stored under the caller whatever `userId` the body says, with the body's title and content |
| NoteService.GetUserNotes | src/lib/modules/notes/NoteService.ts:42-44 | the service lists what the repository finds for the user |
| NoteService.CreatedNoteListed | src/lib/modules/notes/NoteService.ts:22-44 | a note the service created is listed for its owner |
| UserRepository.WithoutPassword | src/lib/modules/auth/AuthService.ts:64-65 | the object handed out has no password and differs from the stored user in nothing else |
| UserRepository.Create | src/lib/modules/users/UserRepository.ts:16-20 | a new user is appended with the given name, email and hash, unless the id or email is taken; email and id uniqueness is kept |
| UserRepository.FindByEmail | src/lib/modules/users/UserRepository.ts:28-31 | a user is found iff some user has that email, and the result includes the password hash |
| UserRepository.FindById | src/lib/modules/users/UserRepository.ts:38-41 | a user is found iff some user has that id, and the result has no password |
| UserRepository.FindByPasswordResetToken | src/lib/modules/users/UserRepository.ts:48-53 | a user is found iff some user holds that hashed token with an expiry strictly after `now` |
| UserRepository.ApplyUpdate | src/lib/modules/users/UserRepository.ts:64 | an update sets every schema path it names (email, password hash, reset token and expiry, profile fields), a `null` clearing an optional one, keeps every other path, drops keys outside the schema, and never changes the id |
| UserRepository.ProfileOnlyKeepsCredentials | src/lib/modules/users/UserRepository.ts:64 | an update that names only profile fields leaves the id, email, password hash and reset token as they were |
| UserRepository.Update | src/lib/modules/users/UserRepository.ts:62-65 | the update applies to the user with that id and to no one else and returns that user without the password; it answers missing iff there is no such user, and is refused by the unique index iff it moves the email to an address another user has; a stored update keeps ids and emails unique |
| UserRepository.SaveResetToken | src/lib/modules/auth/AuthService.ts:110-112 | only the user with that id gets the token and expiry; everyone else is unchanged |
| UserRepository.SavePassword | src/lib/modules/auth/AuthService.ts:136-140 | only the user with that id gets the new hash and loses the reset token and expiry |
| UserService.GetUserProfile | src/lib/modules/users/UserService.ts:29-37 | a profile is returned iff the user exists, without the password; otherwise 404 "User not found." |
| UserService.UpdateUserProfile | src/lib/modules/users/UserService.ts:45-58 | an existing user is updated in place, returned without the password and notified at the stored address; an unknown id gives 404, and an email the index refuses gives the database's error, both with no change and no mail; with unique users it succeeds iff the user exists and the index accepts the email, so always without an email in the update |
| UserService.UpdateThenGet | src/lib/modules/users/UserService.ts:29-58 | an update that the email index accepts succeeds, and reading the profile afterwards returns exactly the updated profile |
| AuthService.Reset | src/lib/modules/auth/AuthService.ts:136-139 | a reset stores the new hash, clears the token and its expiry, and keeps id, email and profile |
| AuthService.Register | src/lib/modules/auth/AuthService.ts:23-44 | a taken email gives 409 with nothing stored; otherwise the user is stored with the bcrypt hash, welcomed by email, and returned without the password |
| AuthService.Login | src/lib/modules/auth/AuthService.ts:52-70 | login succeeds iff a user with that email has a password that bcrypt accepts, and then returns a token signed for that user's id and the user without the password; every failure is the same 401 |
| AuthService.LoginHidesAccountExistence | src/lib/modules/auth/AuthService.ts:55-62 | an unknown email and a wrong password give identical results |
| AuthService.GetCurrentUser | src/lib/modules/auth/AuthService.ts:77-92 | a token that does not verify to a user id gives 401; an unknown id gives 404; otherwise the token's user without the password |
| AuthService.ResetUrl | src/lib/modules/auth/AuthService.ts:118 | the link starts with the origin and continues with `/reset-password?token=` and the raw token |
| AuthService.SendPasswordResetEmail | src/lib/modules/auth/AuthService.ts:99-120 | an unknown email succeeds silently with no change; for a known one the user gets the SHA-256 of the token and an expiry ten minutes ahead, then a missing origin gives 500 with the token saved and no mail, and otherwise one mail with the link |
| AuthService.ResetPassword | src/lib/modules/auth/AuthService.ts:127-148 | a reset succeeds iff some user holds the token's hash unexpired; that user gets the new hash with the token cleared, and the result is a token signed for them and their record without the password |
| AuthService.ResetTokenSingleUse | src/lib/modules/auth/AuthService.ts:137-140 | a reset token that worked once fails on any second use |
| AuthService.ResetLinkExpires | src/lib/modules/auth/AuthService.ts:108-133 | a freshly mailed token resets the password iff it is used less than ten minutes later |
| AuthService.RegisterLoginMe | src/lib/modules/auth/AuthService.ts:23-92 | after registering, logging in with the same email and password succeeds, and the token it returns identifies the new user |
| Security.VerifiedUserId | src/lib/modules/auth/AuthService.ts:78-81 | a token yields a user id iff it verifies and carries a non-empty `userId` |
| Http.Identifier | src/lib/modules/issues/IssueController.ts:53 | the client is identified by its address, or by 127.0.0.1 when the address is unknown |
| Http.RateLimitHeaders | src/lib/modules/issues/IssueController.ts:19-25 | exactly the three X-RateLimit headers are set |
| Http.RateLimitHeadersRoundTrip | src/lib/modules/issues/IssueController.ts:19-25 | each header reads back as a decimal to the verdict's limit, remaining count and reset time |
| Http.UserIdFromToken | src/lib/modules/issues/IssueController.ts:33-45 | a missing or empty cookie gives 401 "not provided"; a token without a verified user id gives 401 "invalid"; otherwise the token's user id |
| Http.Admit | src/lib/modules/issues/IssueController.ts:58-61 | a refused verdict gives 429 before the token is looked at; otherwise the token decides |
| Http.Lift | src/lib/modules/issues/IssueController.ts:64-65 | wrapping a service result as a payload keeps its success, error, store and mail |
| Http.Answer | src/lib/modules/issues/IssueController.ts:57-68 | a handler's success and its caught errors both carry the rate-limit headers; success is answered with the handler's status and message, and errors through `handle` |
| Http.Throttled | src/lib/modules/issues/IssueController.ts:58-59 | a throttled request gets 429 "Too many requests. Please try again later." with the headers, and nothing changes |
| Http.Param | src/lib/modules/issues/IssueController.ts:87-88 | a query parameter is passed on iff it is present and non-empty |
| IssueController.Create | src/lib/modules/issues/IssueController.ts:52-69 | 201 iff the limit, the token, the body and its required fields all pass and the id is fresh; the data is then the issue the service stored (owned by the caller, with the fresh id and time, appended to the store; CreateDelegates ties it to the body); a body missing a required field gives exactly the 400; a throttled or unauthenticated request changes nothing |
| IssueController.CreateDelegates | src/lib/modules/issues/IssueController.ts:61-65 | for an authenticated caller with a readable body, the store, the mail and the returned issue are exactly those of the service's `createIssue` for the caller's id and the body |
| IssueController.GetAll | src/lib/modules/issues/IssueController.ts:76-95 | 200 with the caller's filtered issues iff admitted; every listed issue is the caller's |
| IssueController.GetById | src/lib/modules/issues/IssueController.ts:103-118 | 200 with the issue iff admitted and the caller owns it; never changes the store |
| IssueController.Update | src/lib/modules/issues/IssueController.ts:126-142 | 200 with the patched issue iff admitted, the body is readable and the caller owns it; otherwise 404 for an admitted caller, with the store unchanged |
| IssueController.Delete | src/lib/modules/issues/IssueController.ts:150-165 | 200 iff admitted and the caller owns the issue, which is then removed; otherwise 404 for an admitted caller, with the store unchanged |
| IssueController.ThrottleComesFirst | src/lib/modules/issues/IssueController.ts:57-62 | a throttled request gets the same answer whatever its cookie and body |
| IssueController.OtherUsersIssueHidden | src/lib/modules/issues/IssueController.ts:103-165 | reading, updating and deleting another user's issue all give 404 and change nothing |
| NoteController.Create | src/lib/modules/notes/NoteController.ts:52-69 | 201 iff admitted, the body has a title and content and the id is fresh; the data is then the note the service stored (owned by the caller, with the fresh id and time and the body's title and content); a body without them gives 400; nothing is mailed |
| NoteController.GetAll | src/lib/modules/notes/NoteController.ts:76-91 | 200 with the caller's notes iff admitted |
| NoteController.CreateThenList | src/lib/modules/notes/NoteController.ts:52-91 | a note created through the controller is in the caller's next listing |
| UserController.ProfileUpdate | src/lib/modules/users/UserController.ts:83-100 | a present name that is not a string of at least two UTF-16 units gives 400; otherwise the update holds exactly the body's profile fields, copied as sent |
| UserController.ProfileUpdateWhitelist | src/lib/modules/users/UserController.ts:83-100 | a profile update never carries email, password, reset-token fields or ids |
| UserController.GetProfile | src/lib/modules/users/UserController.ts:49-64 | 200 iff admitted and the user exists, and the data is then the caller's stored record without the password; otherwise 404 for an admitted caller; nothing changes |
| UserController.UpdateProfile | src/lib/modules/users/UserController.ts:71-108 | 200 iff admitted, the body is readable, the name is valid and the user exists; then the caller's record is updated in place with the whitelisted fields, the data is that updated record without the password, and one notification goes to the caller's stored address; otherwise no change and no mail |
| UserController.ProfileStep | src/lib/modules/users/UserController.ts:80-103 | after the token check: an unreadable body gives 500, an invalid name 400, an unknown user 404, all with no change; otherwise the caller's record is updated in place, the updated record is returned without the password, and one notification goes to the caller's stored address |
| UserController.UpdateProfileKeepsCredentials | src/lib/modules/users/UserController.ts:83-103 | an admitted update with a readable body and a valid name succeeds, and whatever the body says it leaves the user's email, password hash and reset token unchanged, because the whitelist keeps those paths out of the repository update |
| AuthController.SessionCookie | src/lib/modules/auth/AuthController.ts:78-83 | the session cookie is `accessToken`, HTTP-only, path `/`, lives 900 seconds, and is secure exactly in production |
| AuthController.Register | src/lib/modules/auth/AuthController.ts:30-51 | 201 iff not throttled, name, email and password are all truthy, the email is new and the id fresh; then exactly one account is appended with that email, name and the password's hash, returned without the password, and welcomed; missing fields give 400 and a taken email 409; a failure stores nothing and sends nothing |
| AuthController.RegisterStep | src/lib/modules/auth/AuthController.ts:35-47 | inside the `try`: 429 when throttled, 500 for an unreadable body, 400 for a missing field, 409 for a taken email; otherwise the new account as the service stores it, welcomed |
| AuthController.Login | src/lib/modules/auth/AuthController.ts:58-89 | 200 with `{ user }` and the session cookie iff the credentials are accepted; with both fields present, a failure is the 401; the cookie is set only on success |
| AuthController.Logout | src/lib/modules/auth/AuthController.ts:95-112 | logout always succeeds without rate-limit headers and overwrites the cookie with an empty, already expired one |
| AuthController.GetCurrentUser | src/lib/modules/auth/AuthController.ts:119-138 | 200 iff not throttled, the cookie verifies and the user exists, and the data is then that stored user without the password; otherwise 401 or 404 |
| AuthController.ForgotPassword | src/lib/modules/auth/AuthController.ts:145-164 | with an email present, the answer is 200 iff the origin is known or the email is unknown, and the store is what the service leaves; the reset link is mailed to the address exactly when the request is admitted, the email belongs to an account and the origin is known, and nothing is mailed otherwise; an absent email gives 400 |
| AuthController.ResetPassword | src/lib/modules/auth/AuthController.ts:171-200 | 200 iff the token and password are present and the token is live; then the holder's record gets the new hash with the token and expiry cleared, the data is that record without the password, and the cookie is a session signed for the holder's id; otherwise the store is unchanged |
| AuthController.ResetStep | src/lib/modules/auth/AuthController.ts:176-186 | a refused verdict gives 429 and missing fields give 400, both with no change; otherwise the reset succeeds iff some user holds the token live, and then that user's record gets the new hash with the token cleared and is returned without the password; uniqueness is kept |
| AuthController.ForgotPasswordHidesAccountExistence | src/lib/modules/auth/AuthController.ts:154-160 | with a known origin, a known and an unknown email get the same response |
| AuthController.LogoutEndsSession | src/lib/modules/auth/AuthController.ts:101-106 | the cookie logout leaves behind is redirected away from the dashboard and refused as "not provided" |
| AuthController.LoginThenMe | src/lib/modules/auth/AuthController.ts:74-83 | logging in with a stored email and a password bcrypt accepts succeeds, and the cookie it sets makes the next "who am I" request return that same user |
| AuthController.LoginAs | src/lib/modules/auth/AuthController.ts:58-89 | a login with a stored email and an accepted password answers 200 with that user without the password, and a session cookie holding a token signed for their id |
| AuthController.TokenIdentifiesUser | src/lib/modules/auth/AuthController.ts:128-134 | a cookie holding a token signed for a stored user makes "who am I" answer with that user without the password |
| RouteGates.Middleware | src/middleware.ts:8-23 | a path is redirected to `/login` iff it starts with `/dashboard` and the cookie is absent or empty |
| RouteGates.Gate | src/middleware.ts:26-28 | paths outside the matcher are let through; matched paths go through the middleware |
| RouteGates.GateRedirects | src/middleware.ts:12-28 | a request is redirected iff its path is `/dashboard` or below and it has no token, and then always to `/login` |
| RouteGates.GateExamples | src/middleware.ts:12-19 | dashboard pages pass with a token and redirect without one; other pages pass |
| RouteGates.ShowNavbar | src/app/layout.tsx:14-15 | the navbar is hidden iff the path is exactly one of the five auth and profile pages or starts with `/dashboard` |
| RouteGates.NavbarExamples | src/app/layout.tsx:14-15 | the home page shows it; `/login`, `/profile` and dashboard pages hide it; `/profile/x` and `/login/` show it |
| RouteGates.RedirectsHideNavbar | src/app/layout.tsx:15 | a redirected page and the login page it lands on both hide the navbar |

## Left out

- Concurrency: the stores, the rate-limit map and the handlers run one call at a time. Interleaved requests, such as two registrations racing past the email check, are not modelled.
- The database connection, Mongoose's casting and validators, and `updatedAt`:
  - body values are strings or `null`; JSON numbers, booleans, arrays and nested objects are not modelled;
  - the issue `type` enum, the `gender` enum and the email format are not checked on save;
  - a failed save is not modelled, except for a duplicate id or email, which becomes an unexpected error (500).
- UserRepository.ApplyUpdate: a `null` email leaves the email as it was instead of unsetting the required field. A string `forgotPasswordTokenExpiry` is not cast to a date and leaves the expiry unchanged. An `_id` key is dropped rather than refused, and the timestamps are not modelled. No caller in the application sends any of these keys.
- UserRepository.FindByEmail: emails are compared exactly. The schema's `trim` and `lowercase` normalisation of stored and queried emails is not modelled.
- UserRepository.FindById: a malformed id would make Mongoose throw a cast error (a 500). Ids here only come from tokens the server signed, so the model answers "not found" instead.
- IssueRepository.Create: the whole body is passed to `new Issue(...)`. Mongoose keeps a body-supplied `_id`, and the timestamps plugin keeps a `createdAt` that is already set, so a client can choose an issue's id or backdate it and change the newest-first order. The model always stores the fresh id and `now`.
- NoteRepository.Create: the same holds for `new Note(...)`: a body-supplied `_id` or `createdAt` would be kept. The model always stores the fresh id and `now`.
- IssueService.CreateIssue: `new ObjectId(userId)` throws for a malformed id; the caller's id is stored as given.
- NoteService.CreateNote: `new ObjectId(userId)` throws for a malformed id; the caller's id is stored as given.
- IssueRepository.Patched: update operators (`$set`, `$unset`, ...) in an update body are not modelled. Every key is a plain field assignment, and unknown keys are dropped.
- IssueRepository.FindById: the ObjectId validity check accepts 24 hex digits only. The 12-character string form that Mongoose also accepts is not modelled.
- IssueRepository.Find: case-insensitive regular-expression search is an uninterpreted `matcher`. The order among issues with the same `createdAt` is not fixed.
- IssueService.TypeForSlug: lower-casing is modelled for ASCII letters only. Slugs equal to `Object.prototype` keys (such as `constructor`) are not modelled: in JavaScript their table lookup is a truthy function.
- Email delivery: sending is recorded as an `Email` value; the provider and its failures are not modelled.
- Security.VerifiedUserId: JWT signing, expiry and verification are uninterpreted functions; a token's 15-minute lifetime is not modelled.
- The controllers' rate limiter is given to them as a `Limiter`, not composed with `RateLimiter.Check`. The controllers call `check` with a scope and options and read `success`, `limit`, `remaining` and `reset` from its result. The limiter in the repository takes only an identifier and returns a boolean, so the scoped limits (10 for register and login, 5 for the password flows) have no counterpart to model. As written, `check` returns a boolean, so building the headers reads `limit` of a boolean, which is `undefined`, and calling `toString()` on it throws before the `try`: every handler but logout would end in the framework's own 500. The model assumes the intended verdict object.
- `ApiError` is imported from both `src/lib/core/ApiError` and `src/lib/api/ApiError`; both are modelled as the class in src/lib/api/ApiError.ts.
- The `CreateIssueData` type spells the type "Reteam Assessment" while the schema says "RedTeam Assessment". Only the schema value is modelled.
- Http.RateLimitHeaders: numbers are printed as plain decimals. JavaScript's exponent form for magnitudes of 10^21 and above is not modelled.
- Request bodies are modelled as objects, or as unreadable (an unexpected error, 500). In the source, a JSON `null` body throws when destructured, which also gives 500, in every handler that destructures its body. An array, number or string body destructures to undefined fields instead: register, login, reset and issue or note creation answer 400, and a profile update succeeds with an empty update. The model has no such bodies.
- IssueController.Update: the body is not destructured but passed straight to `findOneAndUpdate`. A JSON `null` body is an empty update, which answers 200 with the issue, or 404. An array body is an aggregation-pipeline update. Neither is modelled.
- The UI pages, the dashboard components and the database connection helper are not part of this model.
