/** The issue collection (`IssueRepository`). Reads and writes that name an
    issue id first check the id's ObjectId syntax; update and delete match
    on both the id and the owner. */
module IssueRepository {
  import opened Base
  import Collections
  import opened Documents

  /** The issue schema's fields; keys outside it are dropped on write. */
  const ISSUE_FIELDS: set<string> := {"title", "type", "description", "priority", "status", "userId"}

  /** A new issue's status is "OPEN" unless the data names one. */
  const ISSUE_DEFAULTS: map<string, Value> := map["status" := Str("OPEN")]

  /** The values the schema allows for an issue's `type`. */
  datatype IssueType = CloudSecurity | RedTeamAssessment | Vapt

  function TypeName(t: IssueType): string {
    match t
    case CloudSecurity => "Cloud Security"
    case RedTeamAssessment => "RedTeam Assessment"
    case Vapt => "VAPT"
  }

  /** `IssueRepository.create(data)`: saves the issue under `newId` at `now`. */
  function Create(s: Store, data: map<string, Value>, newId: string, now: int): (r: Saved)
    ensures r.DuplicateKey? <==> HasId(s, newId)
    ensures r.Saved? ==> r.store == s + [r.doc] && r.doc.id == newId && r.doc.createdAt == now
    ensures r.Saved? ==> r.doc.fields.Keys <= ISSUE_FIELDS
    ensures r.Saved? ==> forall k :: k in data && k in ISSUE_FIELDS ==> k in r.doc.fields && r.doc.fields[k] == data[k]
    ensures r.Saved? && "status" !in data ==> "status" in r.doc.fields && r.doc.fields["status"] == Str("OPEN")
    ensures r.Saved? && IdsUnique(s) ==> IdsUnique(r.store)
  {
    Insert(s, ISSUE_FIELDS, ISSUE_DEFAULTS, data, newId, now)
  }

  /** `IssueRepository.findById(id)`: `None` for a malformed id, otherwise
      the stored issue with that id, if any. */
  function FindById(s: Store, id: string): (r: Option<Doc>)
    ensures r.Some? <==> IsObjectId(id) && HasId(s, id)
    ensures r.Some? ==> r.value in s && r.value.id == id
  {
    if !IsObjectId(id) then None else Documents.FindById(s, id)
  }

  /** The filter `IssueService.getUserIssues` builds: the owner, an
      optional type, and an optional search term matched case-insensitively
      against the title or the description. */
  datatype Query = Query(userId: string, issueType: Option<IssueType>, search: Option<string>)

  /** `matcher(pattern, text)` stands for MongoDB's case-insensitive
      `$regex` test; a field that is missing or null never matches. */
  predicate FieldMatches(d: Doc, field: string, pattern: string, matcher: (string, string) -> bool) {
    field in d.fields && d.fields[field].Str? && matcher(pattern, d.fields[field].s)
  }

  predicate Matches(q: Query, d: Doc, matcher: (string, string) -> bool) {
    && OwnedBy(d, q.userId)
    && (q.issueType.Some? ==> "type" in d.fields && d.fields["type"] == Str(TypeName(q.issueType.value)))
    && (q.search.Some? ==> FieldMatches(d, "title", q.search.value, matcher)
                           || FieldMatches(d, "description", q.search.value, matcher))
  }

  /** `IssueRepository.find(query)`: every matching issue, newest first. */
  function Find(s: Store, q: Query, matcher: (string, string) -> bool): (r: seq<Doc>)
    ensures Collections.NewestFirst(r, (d: Doc) => d.createdAt)
    ensures forall i :: 0 <= i < |r| ==> r[i] in s && Matches(q, r[i], matcher)
    ensures forall i :: 0 <= i < |s| && Matches(q, s[i], matcher) ==> s[i] in r
    ensures multiset(r) <= multiset(s)
  {
    FindNewestFirst(s, (d: Doc) => Matches(q, d, matcher))
  }

  /** Position `j` holds the issue `id` owned by `userId`. */
  predicate OwnsAt(s: Store, j: int, id: string, userId: string) {
    0 <= j < |s| && s[j].id == id && OwnedBy(s[j], userId)
  }

  /** The issue after an update with `data`: the schema's fields of `data`
      overwrite the stored ones, everything else is kept. */
  function Patched(d: Doc, data: map<string, Value>): (r: Doc)
    ensures r.id == d.id && r.createdAt == d.createdAt
    ensures forall k :: k in data && k in ISSUE_FIELDS ==> k in r.fields && r.fields[k] == data[k]
    ensures forall k :: k in d.fields && k !in data ==> k in r.fields && r.fields[k] == d.fields[k]
    ensures forall k :: k in r.fields ==> k in d.fields || (k in data && k in ISSUE_FIELDS)
  {
    d.(fields := d.fields + Restrict(data, ISSUE_FIELDS))
  }

  datatype Updated = Updated(doc: Option<Doc>, store: Store)

  /** `IssueRepository.update(id, userId, data)`
      (`findOneAndUpdate({_id: id, userId}, data, {new: true})`). */
  function Update(s: Store, id: string, userId: string, data: map<string, Value>): (r: Updated)
    ensures r.doc.Some? <==> IsObjectId(id) && exists j :: OwnsAt(s, j, id, userId)
    ensures r.doc.None? ==> r.store == s
    ensures r.doc.Some? ==> exists j :: OwnsAt(s, j, id, userId) && r.doc.value == Patched(s[j], data)
                                        && r.store == s[j := r.doc.value]
  {
    if !IsObjectId(id) then Updated(None, s)
    else
      match Collections.FirstIndex(s, (d: Doc) => d.id == id && OwnedBy(d, userId))
      case None => Updated(None, s)
      case Some(j) =>
        assert OwnsAt(s, j, id, userId);
        Updated(Some(Patched(s[j], data)), s[j := Patched(s[j], data)])
  }

  datatype Deleted = Deleted(removed: bool, store: Store)

  /** `IssueRepository.delete(id, userId)` (`deleteOne({_id: id, userId})`):
      true exactly when an issue was removed. */
  function Delete(s: Store, id: string, userId: string): (r: Deleted)
    ensures r.removed <==> IsObjectId(id) && exists j :: OwnsAt(s, j, id, userId)
    ensures !r.removed ==> r.store == s
    ensures r.removed ==> exists j :: OwnsAt(s, j, id, userId) && r.store == Collections.RemoveAt(s, j)
  {
    if !IsObjectId(id) then Deleted(false, s)
    else
      match Collections.FirstIndex(s, (d: Doc) => d.id == id && OwnedBy(d, userId))
      case None => Deleted(false, s)
      case Some(j) =>
        assert OwnsAt(s, j, id, userId);
        Deleted(true, Collections.RemoveAt(s, j))
  }

  /** Updates keep ids unique. */
  lemma UpdatePreservesIdsUnique(s: Store, id: string, userId: string, data: map<string, Value>)
    requires IdsUnique(s)
    ensures IdsUnique(Update(s, id, userId, data).store)
  {
  }

  /** Deletes keep ids unique, and afterwards the deleted id is gone. */
  lemma DeletePreservesIdsUnique(s: Store, id: string, userId: string)
    requires IdsUnique(s)
    ensures IdsUnique(Delete(s, id, userId).store)
    ensures Delete(s, id, userId).removed ==> !HasId(Delete(s, id, userId).store, id)
  {
    var r := Delete(s, id, userId);
    if r.removed {
      var j :| OwnsAt(s, j, id, userId) && r.store == Collections.RemoveAt(s, j);
      forall a, b | 0 <= a < b < |r.store|
        ensures r.store[a].id != r.store[b].id
      {
        var a' := if a < j then a else a + 1;
        var b' := if b < j then b else b + 1;
        assert r.store[a] == s[a'] && r.store[b] == s[b'];
      }
      forall k | 0 <= k < |r.store|
        ensures r.store[k].id != id
      {
        var k' := if k < j then k else k + 1;
        assert r.store[k] == s[k'];
      }
    }
  }

  /** Another user's issue is out of reach: update and delete by a user
      who does not own it change nothing. */
  lemma ForeignIssueUntouched(s: Store, id: string, owner: string, intruder: string, data: map<string, Value>)
    requires IdsUnique(s)
    requires exists j :: OwnsAt(s, j, id, owner)
    requires owner != intruder
    ensures Update(s, id, intruder, data) == Updated(None, s)
    ensures Delete(s, id, intruder) == Deleted(false, s)
  {
    var j :| OwnsAt(s, j, id, owner);
    forall k | OwnsAt(s, k, id, intruder)
      ensures false
    {
      assert s[k].id == s[j].id;
      UniqueIdDeterminesDoc(s, j, k);
    }
  }

  /** The update body is applied as given, so a body naming `userId` hands
      the issue to that user: the owner filter constrains which issue is
      updated, not what it is updated to. */
  lemma UpdateMayReassignOwner(s: Store, id: string, userId: string, other: string, data: map<string, Value>)
    requires IsObjectId(id) && exists j :: OwnsAt(s, j, id, userId)
    requires "userId" in data && data["userId"] == Str(other) && other != userId
    ensures Update(s, id, userId, data).doc.Some?
    ensures OwnedBy(Update(s, id, userId, data).doc.value, other)
    ensures !OwnedBy(Update(s, id, userId, data).doc.value, userId)
  {
  }
}
