/** The issue business logic (`IssueService`): required-field validation,
    forcing the owner on creation, the owner-scoped filter with the type
    slug and search term, and one 404 for "missing" and "not yours". */
module IssueService {
  import opened Base
  import opened ApiErrors
  import opened Effects
  import opened Documents
  import Collections
  import IssueRepository
  import UserRepository

  const MISSING_FIELDS: ApiError := NewApiError(400, "Title, type, and description are required")
  const NOT_FOUND: ApiError := NewApiError(404, "Issue not found or access denied.")

  /** The body names a truthy title, type and description. */
  predicate HasRequiredFields(data: map<string, Value>) {
    Truthy(Lookup(data, "title")) && Truthy(Lookup(data, "type")) && Truthy(Lookup(data, "description"))
  }

  /** `IssueService.createIssue(userId, data)`: stores the body's issue under
      the caller's id (whatever `userId` the body names), then emails the
      owner a confirmation if the owner has an email address. */
  function CreateIssue(issues: Store, users: UserRepository.Store, userId: string, data: map<string, Value>,
                       newId: string, now: int): (r: Step<Doc, Store>)
    ensures !HasRequiredFields(data) ==> r == Step(Err(Api(MISSING_FIELDS)), issues, [])
    ensures r.result.Err? ==> r.state == issues && r.mail == []
    ensures r.result.Ok? ==> HasRequiredFields(data) && r.state == issues + [r.result.value]
    ensures r.result.Ok? ==> OwnedBy(r.result.value, userId) && r.result.value.id == newId
    ensures r.result.Ok? ==> forall k :: k in data && k in IssueRepository.ISSUE_FIELDS && k != "userId" ==>
                               k in r.result.value.fields && r.result.value.fields[k] == data[k]
    ensures r.result.Ok? <==> HasRequiredFields(data) && !HasId(issues, newId)
    ensures r.result.Ok? ==> r.result.value.createdAt == now
    ensures r.mail != [] ==> r.result.Ok? && |r.mail| == 1 && r.mail[0].NewIssue? && r.mail[0].issueId == newId
    ensures r.result.Ok? && !UserRepository.HasUserId(users, userId) ==> r.mail == []
    ensures r.result.Ok? && UserRepository.Unique(users) ==>
              forall i :: 0 <= i < |users| && users[i].id == userId ==>
                r.mail == (if users[i].email != "" then [NewIssue(users[i].email, newId)] else [])
  {
    if !HasRequiredFields(data) then Step(Err(Api(MISSING_FIELDS)), issues, [])
    else
      match IssueRepository.Create(issues, data["userId" := Str(userId)], newId, now)
      case DuplicateKey => Step(Err(Unexpected("E11000 duplicate key error")), issues, [])
      case Saved(doc, store) =>
        var mail := match UserRepository.FindById(users, userId)
          case Some(u) => if u.email != "" then [NewIssue(u.email, doc.id)] else []
          case None => [];
        assert UserRepository.Unique(users) ==>
                 forall i :: 0 <= i < |users| && users[i].id == userId ==>
                   mail == (if users[i].email != "" then [NewIssue(users[i].email, newId)] else []) by {
          if UserRepository.Unique(users) {
            forall i | 0 <= i < |users| && users[i].id == userId
              ensures mail == (if users[i].email != "" then [NewIssue(users[i].email, newId)] else [])
            {
              UserRepository.FindByIdAt(users, i);
            }
          }
        }
        Step(Ok(doc), store, mail)
  }

  /** JavaScript's `toLowerCase` on the characters a slug is compared in. */
  function LowerChar(c: char): char {
    if 'A' <= c <= 'Z' then ((c as int) + 32) as char else c
  }

  function ToLower(s: string): (r: string)
    ensures |r| == |s|
    ensures forall i :: 0 <= i < |s| ==> r[i] == LowerChar(s[i])
  {
    seq(|s|, i requires 0 <= i < |s| => LowerChar(s[i]))
  }

  /** The URL slug the dashboard sends for each issue type. */
  function Slug(t: IssueRepository.IssueType): string {
    match t
    case CloudSecurity => "cloud-security"
    case RedTeamAssessment => "redteam-assessment"
    case Vapt => "vapt"
  }

  /** The service's slug table, applied to the lower-cased slug. */
  function TypeForSlug(slug: string): (r: Option<IssueRepository.IssueType>)
    ensures r.Some? <==> ToLower(slug) in {"vapt", "cloud-security", "redteam-assessment"}
    ensures r.Some? ==> ToLower(slug) == Slug(r.value)
  {
    var key := ToLower(slug);
    if key == "vapt" then Some(IssueRepository.Vapt)
    else if key == "cloud-security" then Some(IssueRepository.CloudSecurity)
    else if key == "redteam-assessment" then Some(IssueRepository.RedTeamAssessment)
    else None
  }

  /** The slug the dashboard sends for a type maps back to that type. */
  lemma SlugRoundTrip(t: IssueRepository.IssueType)
    ensures TypeForSlug(Slug(t)) == Some(t)
  {
    var s := Slug(t);
    assert ToLower(s) == s by {
      assert forall i :: 0 <= i < |s| ==> !('A' <= s[i] <= 'Z');
    }
  }

  /** Slugs are matched regardless of case. */
  lemma SlugCaseInsensitive(a: string, b: string)
    requires ToLower(a) == ToLower(b)
    ensures TypeForSlug(a) == TypeForSlug(b)
  {
  }

  /** The filter `getUserIssues` builds: always the owner; a type only for a
      truthy, recognised slug; a search term only when it is truthy. */
  function BuildQuery(userId: string, slug: Option<string>, searchQuery: Option<string>): (q: IssueRepository.Query)
    ensures q.userId == userId
    ensures q.issueType.Some? <==> slug.Some? && slug.value != "" && TypeForSlug(slug.value).Some?
    ensures q.issueType.Some? ==> q.issueType == TypeForSlug(slug.value)
    ensures q.search.Some? <==> searchQuery.Some? && searchQuery.value != ""
    ensures q.search.Some? ==> q.search == searchQuery
  {
    var issueType := if slug.Some? && slug.value != "" then TypeForSlug(slug.value) else None;
    var search := if searchQuery.Some? && searchQuery.value != "" then searchQuery else None;
    IssueRepository.Query(userId, issueType, search)
  }

  /** `IssueService.getUserIssues(userId, {type, searchQuery})`. */
  function GetUserIssues(issues: Store, userId: string, slug: Option<string>, searchQuery: Option<string>,
                         matcher: (string, string) -> bool): (r: seq<Doc>)
    ensures forall i :: 0 <= i < |r| ==> r[i] in issues && OwnedBy(r[i], userId)
    ensures forall i :: 0 <= i < |r| ==> IssueRepository.Matches(BuildQuery(userId, slug, searchQuery), r[i], matcher)
    ensures forall i :: 0 <= i < |issues| && IssueRepository.Matches(BuildQuery(userId, slug, searchQuery), issues[i], matcher)
              ==> issues[i] in r
    ensures Collections.NewestFirst(r, (d: Doc) => d.createdAt)
  {
    IssueRepository.Find(issues, BuildQuery(userId, slug, searchQuery), matcher)
  }

  /** A slug the table does not know adds no type constraint. */
  lemma UnknownSlugIgnored(issues: Store, userId: string, slug: string, searchQuery: Option<string>,
                           matcher: (string, string) -> bool)
    requires TypeForSlug(slug).None?
    ensures GetUserIssues(issues, userId, Some(slug), searchQuery, matcher)
         == GetUserIssues(issues, userId, None, searchQuery, matcher)
  {
  }

  /** A search term narrows the owner's issues and never widens them. */
  lemma SearchOnlyNarrows(issues: Store, userId: string, slug: Option<string>, searchQuery: Option<string>,
                          matcher: (string, string) -> bool)
    ensures forall d :: d in GetUserIssues(issues, userId, slug, searchQuery, matcher)
              ==> d in GetUserIssues(issues, userId, slug, None, matcher)
  {
    var narrow := GetUserIssues(issues, userId, slug, searchQuery, matcher);
    var wide := GetUserIssues(issues, userId, slug, None, matcher);
    forall d | d in narrow
      ensures d in wide
    {
      var i :| 0 <= i < |narrow| && narrow[i] == d;
      assert IssueRepository.Matches(BuildQuery(userId, slug, searchQuery), d, matcher);
      var j :| 0 <= j < |issues| && issues[j] == d;
      assert IssueRepository.Matches(BuildQuery(userId, slug, None), issues[j], matcher);
    }
  }

  /** `IssueService.getIssueById(issueId, userId)`. Comparing the owner
      calls `toString()` on the stored `userId`, which throws when that
      field is missing or null. */
  function GetIssueById(issues: Store, issueId: string, userId: string): (r: Result<Doc, Thrown>)
    ensures r.Ok? <==> exists j :: IssueRepository.OwnsAt(issues, j, issueId, userId) && IsObjectId(issueId)
                                   && Documents.FindById(issues, issueId) == Some(issues[j])
    ensures r.Ok? ==> r.value in issues && r.value.id == issueId && OwnedBy(r.value, userId)
    ensures r.Err? && r.error.Api? ==> r.error.error == NOT_FOUND
  {
    match IssueRepository.FindById(issues, issueId)
    case None => Err(Api(NOT_FOUND))
    case Some(d) =>
      if "userId" in d.fields && d.fields["userId"].Str? then
        if d.fields["userId"].s == userId then Ok(d) else Err(Api(NOT_FOUND))
      else Err(Unexpected("TypeError: owner is null"))
  }

  /** Whether the issue does not exist or belongs to someone else, the
      caller receives the same 404. */
  lemma NotFoundIndistinguishable(issues: Store, missingId: string, foreignId: string, userId: string, owner: string)
    requires IdsUnique(issues)
    requires !HasId(issues, missingId)
    requires exists j :: IssueRepository.OwnsAt(issues, j, foreignId, owner)
    requires owner != userId
    ensures GetIssueById(issues, missingId, userId) == Err(Api(NOT_FOUND))
    ensures GetIssueById(issues, foreignId, userId) == Err(Api(NOT_FOUND))
  {
    var j :| IssueRepository.OwnsAt(issues, j, foreignId, owner);
    if IsObjectId(foreignId) {
      var d := Documents.FindById(issues, foreignId).value;
      var k :| 0 <= k < |issues| && issues[k] == d;
      UniqueIdDeterminesDoc(issues, j, k);
    }
  }

  /** `IssueService.updateIssue(issueId, userId, data)`. */
  function UpdateIssue(issues: Store, issueId: string, userId: string, data: map<string, Value>): (r: Step<Doc, Store>)
    ensures r.mail == []
    ensures r.result.Err? <==> !IsObjectId(issueId) || !exists j :: IssueRepository.OwnsAt(issues, j, issueId, userId)
    ensures r.result.Err? ==> r.result.error == Api(NOT_FOUND) && r.state == issues
    ensures r.result.Ok? ==> exists j :: IssueRepository.OwnsAt(issues, j, issueId, userId)
                                         && r.result.value == IssueRepository.Patched(issues[j], data)
                                         && r.state == issues[j := r.result.value]
  {
    var u := IssueRepository.Update(issues, issueId, userId, data);
    match u.doc
    case None => Step(Err(Api(NOT_FOUND)), issues, [])
    case Some(d) => Step(Ok(d), u.store, [])
  }

  /** `IssueService.deleteIssue(issueId, userId)`. */
  function DeleteIssue(issues: Store, issueId: string, userId: string): (r: Step<(), Store>)
    ensures r.mail == []
    ensures r.result.Err? <==> !IsObjectId(issueId) || !exists j :: IssueRepository.OwnsAt(issues, j, issueId, userId)
    ensures r.result.Err? ==> r.result.error == Api(NOT_FOUND) && r.state == issues
    ensures r.result.Ok? ==> exists j :: IssueRepository.OwnsAt(issues, j, issueId, userId)
                                         && r.state == Collections.RemoveAt(issues, j)
  {
    var d := IssueRepository.Delete(issues, issueId, userId);
    if d.removed then Step(Ok(()), d.store, []) else Step(Err(Api(NOT_FOUND)), issues, [])
  }
}
