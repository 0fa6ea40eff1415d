/** The note business logic (`NoteService`): required-field validation and
    forcing the owner on creation. */
module NoteService {
  import opened Base
  import opened ApiErrors
  import opened Effects
  import opened Documents
  import NoteRepository

  const MISSING_FIELDS: ApiError := NewApiError(400, "Title and content are required")

  predicate HasRequiredFields(data: map<string, Value>) {
    Truthy(Lookup(data, "title")) && Truthy(Lookup(data, "content"))
  }

  /** `NoteService.createNote(userId, data)`: stores the body's note under
      the caller's id, whatever `userId` the body names. */
  function CreateNote(notes: Store, userId: string, data: map<string, Value>, newId: string, now: int): (r: Step<Doc, Store>)
    ensures r.mail == []
    ensures !HasRequiredFields(data) ==> r == Step(Err(Api(MISSING_FIELDS)), notes, [])
    ensures r.result.Err? ==> r.state == notes
    ensures r.result.Ok? ==> HasRequiredFields(data) && r.state == notes + [r.result.value]
    ensures r.result.Ok? ==> OwnedBy(r.result.value, userId) && r.result.value.id == newId && r.result.value.createdAt == now
    ensures r.result.Ok? ==> Lookup(r.result.value.fields, "title") == Lookup(data, "title")
                               && Lookup(r.result.value.fields, "content") == Lookup(data, "content")
    ensures r.result.Ok? <==> HasRequiredFields(data) && !HasId(notes, newId)
  {
    if !HasRequiredFields(data) then Step(Err(Api(MISSING_FIELDS)), notes, [])
    else
      match NoteRepository.Create(notes, data["userId" := Str(userId)], newId, now)
      case DuplicateKey => Step(Err(Unexpected("E11000 duplicate key error")), notes, [])
      case Saved(doc, store) => Step(Ok(doc), store, [])
  }

  /** `NoteService.getUserNotes(userId)`: the repository's answer. */
  function GetUserNotes(notes: Store, userId: string): (r: seq<Doc>)
    ensures r == NoteRepository.FindByUser(notes, userId)
  {
    NoteRepository.FindByUser(notes, userId)
  }

  /** A created note is listed for its creator, newest first. */
  lemma CreatedNoteListed(notes: Store, userId: string, data: map<string, Value>, newId: string, now: int)
    requires CreateNote(notes, userId, data, newId, now).result.Ok?
    ensures var r := CreateNote(notes, userId, data, newId, now);
      r.result.value in GetUserNotes(r.state, userId)
  {
    var r := CreateNote(notes, userId, data, newId, now);
    assert r.state[|notes|] == r.result.value;
  }
}
