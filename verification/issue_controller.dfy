/** The HTTP layer for issues (`IssueController`). Every handler asks the
    limiter first, then checks the access token, then reads the body or the
    query, then calls the service; one set of rate-limit headers goes on
    whatever it answers. */
module IssueController {
  import opened Base
  import opened ApiErrors
  import opened ApiResponse
  import opened Effects
  import opened Security
  import opened Http
  import opened Documents
  import Collections
  import UserRepository
  import IssueRepository
  import IssueService

  /** `IssueController.create(req)`: 201 with the stored issue. */
  function Create(limiter: Limiter, jwt: Jwt, issues: Store, users: UserRepository.Store, req: Request,
                  newId: string, now: int): (r: Reply<Store>)
    ensures r.response.headers == RateLimitHeaders(VerdictFor(limiter, req))
    ensures !VerdictFor(limiter, req).success ==> r == Throttled(VerdictFor(limiter, req), issues)
    ensures Caller(limiter, jwt, req).Err? ==>
              r == Reply(Handle(Caller(limiter, jwt, req).error, r.response.headers), issues, [])
    ensures Caller(limiter, jwt, req).Ok? && req.body.None? ==>
              r.response.status == 500 && r.state == issues && r.mail == []
    ensures r.response.success <==> Caller(limiter, jwt, req).Ok? && req.body.Some? &&
                                    IssueService.HasRequiredFields(req.body.value) && !HasId(issues, newId)
    ensures r.response.success ==>
              && r.response.status == 201
              && r.response.data.Some? && r.response.data.value.OneDoc?
              && r.state == issues + [r.response.data.value.doc]
              && OwnedBy(r.response.data.value.doc, Caller(limiter, jwt, req).value)
              && r.response.data.value.doc.id == newId && r.response.data.value.doc.createdAt == now
    ensures Caller(limiter, jwt, req).Ok? && req.body.Some? && !IssueService.HasRequiredFields(req.body.value) ==>
              r == Reply(Handle(Api(IssueService.MISSING_FIELDS), r.response.headers), issues, [])
    ensures !r.response.success ==> r.state == issues && r.mail == []
  {
    var step: Step<Payload, Store> :=
      match Caller(limiter, jwt, req)
      case Err(e) => Step(Err(e), issues, [])
      case Ok(userId) =>
        match req.body
        case None => Step(Err(MALFORMED_BODY), issues, [])
        case Some(body) => Lift(IssueService.CreateIssue(issues, users, userId, body, newId, now), (d: Doc) => OneDoc(d));
    Answer(RateLimitHeaders(VerdictFor(limiter, req)), step, "Issue created successfully", 201)
  }

  /** An authenticated creation stores, mails and returns exactly what
      `IssueService.createIssue` does for the caller and the body. */
  lemma CreateDelegates(limiter: Limiter, jwt: Jwt, issues: Store, users: UserRepository.Store, req: Request,
                        newId: string, now: int)
    requires Caller(limiter, jwt, req).Ok? && req.body.Some?
    ensures var r := Create(limiter, jwt, issues, users, req, newId, now);
      var s := IssueService.CreateIssue(issues, users, Caller(limiter, jwt, req).value, req.body.value, newId, now);
      r.state == s.state && r.mail == s.mail && (r.response.success ==> r.response.data == Some(OneDoc(s.result.value)))
  {
  }

  /** `IssueController.getAll(req)`: 200 with the caller's issues, the
      `type` and `search` parameters passed on only when non-empty. */
  function GetAll(limiter: Limiter, jwt: Jwt, issues: Store, req: Request,
                  matcher: (string, string) -> bool): (r: Reply<Store>)
    ensures r.response.headers == RateLimitHeaders(VerdictFor(limiter, req))
    ensures r.state == issues && r.mail == []
    ensures !VerdictFor(limiter, req).success ==> r == Throttled(VerdictFor(limiter, req), issues)
    ensures Caller(limiter, jwt, req).Err? ==>
              r == Reply(Handle(Caller(limiter, jwt, req).error, r.response.headers), issues, [])
    ensures r.response.success <==> Caller(limiter, jwt, req).Ok?
    ensures r.response.success ==>
              && r.response.status == 200
              && r.response.data == Some(Docs(IssueService.GetUserIssues(issues, Caller(limiter, jwt, req).value,
                                                                          Param(req, "type"), Param(req, "search"), matcher)))
    ensures r.response.success ==> forall i :: 0 <= i < |r.response.data.value.docs| ==>
              OwnedBy(r.response.data.value.docs[i], Caller(limiter, jwt, req).value)
  {
    var step: Step<Payload, Store> :=
      match Caller(limiter, jwt, req)
      case Err(e) => Step(Err(e), issues, [])
      case Ok(userId) =>
        Step(Ok(Docs(IssueService.GetUserIssues(issues, userId, Param(req, "type"), Param(req, "search"), matcher))), issues, []);
    Answer(RateLimitHeaders(VerdictFor(limiter, req)), step, "Issues retrieved successfully", 200)
  }

  /** `IssueController.getById(req, issueId)`: 200 with the caller's issue. */
  function GetById(limiter: Limiter, jwt: Jwt, issues: Store, req: Request, issueId: string): (r: Reply<Store>)
    ensures r.response.headers == RateLimitHeaders(VerdictFor(limiter, req))
    ensures r.state == issues && r.mail == []
    ensures !VerdictFor(limiter, req).success ==> r == Throttled(VerdictFor(limiter, req), issues)
    ensures Caller(limiter, jwt, req).Err? ==>
              r == Reply(Handle(Caller(limiter, jwt, req).error, r.response.headers), issues, [])
    ensures r.response.success <==> Caller(limiter, jwt, req).Ok? &&
                                    IssueService.GetIssueById(issues, issueId, Caller(limiter, jwt, req).value).Ok?
    ensures r.response.success ==>
              && r.response.status == 200
              && r.response.data.Some? && r.response.data.value.OneDoc?
              && r.response.data.value.doc in issues && r.response.data.value.doc.id == issueId
              && OwnedBy(r.response.data.value.doc, Caller(limiter, jwt, req).value)
  {
    var step: Step<Payload, Store> :=
      match Caller(limiter, jwt, req)
      case Err(e) => Step(Err(e), issues, [])
      case Ok(userId) =>
        match IssueService.GetIssueById(issues, issueId, userId)
        case Err(e) => Step(Err(e), issues, [])
        case Ok(d) => Step(Ok(OneDoc(d)), issues, []);
    Answer(RateLimitHeaders(VerdictFor(limiter, req)), step, "Issue retrieved successfully", 200)
  }

  /** `IssueController.update(req, issueId)`: 200 with the updated issue. */
  function Update(limiter: Limiter, jwt: Jwt, issues: Store, req: Request, issueId: string): (r: Reply<Store>)
    ensures r.response.headers == RateLimitHeaders(VerdictFor(limiter, req))
    ensures r.mail == []
    ensures !VerdictFor(limiter, req).success ==> r == Throttled(VerdictFor(limiter, req), issues)
    ensures Caller(limiter, jwt, req).Err? ==>
              r == Reply(Handle(Caller(limiter, jwt, req).error, r.response.headers), issues, [])
    ensures Caller(limiter, jwt, req).Ok? && req.body.None? ==> r.response.status == 500 && r.state == issues
    ensures r.response.success <==> Caller(limiter, jwt, req).Ok? && req.body.Some? && IsObjectId(issueId) &&
                                    exists j :: IssueRepository.OwnsAt(issues, j, issueId, Caller(limiter, jwt, req).value)
    ensures Caller(limiter, jwt, req).Ok? && req.body.Some? && !r.response.success ==>
              r.response.status == 404 && r.response.message == IssueService.NOT_FOUND.message
    ensures r.response.success ==>
              && r.response.status == 200
              && r.response.data.Some? && r.response.data.value.OneDoc?
              && exists j :: IssueRepository.OwnsAt(issues, j, issueId, Caller(limiter, jwt, req).value)
                             && r.response.data.value.doc == IssueRepository.Patched(issues[j], req.body.value)
                             && r.state == issues[j := r.response.data.value.doc]
    ensures !r.response.success ==> r.state == issues
  {
    var step: Step<Payload, Store> :=
      match Caller(limiter, jwt, req)
      case Err(e) => Step(Err(e), issues, [])
      case Ok(userId) =>
        match req.body
        case None => Step(Err(MALFORMED_BODY), issues, [])
        case Some(body) => Lift(IssueService.UpdateIssue(issues, issueId, userId, body), (d: Doc) => OneDoc(d));
    Answer(RateLimitHeaders(VerdictFor(limiter, req)), step, "Issue updated successfully", 200)
  }

  /** `IssueController.delete(req, issueId)`: 200 with `{}`. */
  function Delete(limiter: Limiter, jwt: Jwt, issues: Store, req: Request, issueId: string): (r: Reply<Store>)
    ensures r.response.headers == RateLimitHeaders(VerdictFor(limiter, req))
    ensures r.mail == []
    ensures !VerdictFor(limiter, req).success ==> r == Throttled(VerdictFor(limiter, req), issues)
    ensures Caller(limiter, jwt, req).Err? ==>
              r == Reply(Handle(Caller(limiter, jwt, req).error, r.response.headers), issues, [])
    ensures r.response.success <==> Caller(limiter, jwt, req).Ok? && IsObjectId(issueId) &&
                                    exists j :: IssueRepository.OwnsAt(issues, j, issueId, Caller(limiter, jwt, req).value)
    ensures Caller(limiter, jwt, req).Ok? && !r.response.success ==>
              r.response.status == 404 && r.response.message == IssueService.NOT_FOUND.message
    ensures r.response.success ==>
              && r.response.status == 200 && r.response.data == Some(Empty)
              && exists j :: IssueRepository.OwnsAt(issues, j, issueId, Caller(limiter, jwt, req).value)
                             && r.state == Collections.RemoveAt(issues, j)
    ensures !r.response.success ==> r.state == issues
  {
    var step: Step<Payload, Store> :=
      match Caller(limiter, jwt, req)
      case Err(e) => Step(Err(e), issues, [])
      case Ok(userId) => Lift(IssueService.DeleteIssue(issues, issueId, userId), (_: ()) => Empty);
    Answer(RateLimitHeaders(VerdictFor(limiter, req)), step, "Issue deleted successfully", 200)
  }

  /** A throttled request is answered the same whatever its cookie and
      body: the limiter is consulted before either is read. */
  lemma ThrottleComesFirst(limiter: Limiter, jwt: Jwt, issues: Store, users: UserRepository.Store,
                           a: Request, b: Request, newId: string, now: int)
    requires a.ip == b.ip && !VerdictFor(limiter, a).success
    ensures Create(limiter, jwt, issues, users, a, newId, now) == Create(limiter, jwt, issues, users, b, newId, now)
  {
  }

  /** A token whose user id is someone else's reaches no issue of the
      owner's: reading, updating and deleting it all answer 404 and change
      nothing. */
  lemma {:induction false} OtherUsersIssueHidden(limiter: Limiter, jwt: Jwt, issues: Store, req: Request,
                                                issueId: string, owner: string)
    requires IdsUnique(issues)
    requires exists j :: IssueRepository.OwnsAt(issues, j, issueId, owner)
    requires Caller(limiter, jwt, req).Ok? && Caller(limiter, jwt, req).value != owner
    requires req.body.Some?
    ensures GetById(limiter, jwt, issues, req, issueId).response.status == 404
    ensures Update(limiter, jwt, issues, req, issueId).response.status == 404
    ensures Update(limiter, jwt, issues, req, issueId).state == issues
    ensures Delete(limiter, jwt, issues, req, issueId).response.status == 404
    ensures Delete(limiter, jwt, issues, req, issueId).state == issues
  {
    var caller := Caller(limiter, jwt, req).value;
    var j :| IssueRepository.OwnsAt(issues, j, issueId, owner);
    forall k | IssueRepository.OwnsAt(issues, k, issueId, caller)
      ensures false
    {
      UniqueIdDeterminesDoc(issues, j, k);
    }
    var g := IssueService.GetIssueById(issues, issueId, caller);
    assert g.Err?;
    if IsObjectId(issueId) {
      var d := Documents.FindById(issues, issueId).value;
      var k :| 0 <= k < |issues| && issues[k] == d;
      UniqueIdDeterminesDoc(issues, j, k);
    }
  }
}
