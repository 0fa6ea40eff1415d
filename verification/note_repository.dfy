/** The note collection (`NoteRepository`): creation, and the owner's notes
    newest first. */
module NoteRepository {
  import opened Base
  import Collections
  import opened Documents

  /** The note schema's fields; keys outside it are dropped on write. */
  const NOTE_FIELDS: set<string> := {"title", "content", "userId"}

  /** `NoteRepository.create(data)`: saves the note under `newId` at `now`. */
  function Create(s: Store, data: map<string, Value>, newId: string, now: int): (r: Saved)
    ensures r.DuplicateKey? <==> HasId(s, newId)
    ensures r.Saved? ==> r.store == s + [r.doc] && r.doc.id == newId && r.doc.createdAt == now
    ensures r.Saved? ==> r.doc.fields == Restrict(data, NOTE_FIELDS)
    ensures r.Saved? && IdsUnique(s) ==> IdsUnique(r.store)
  {
    Insert(s, NOTE_FIELDS, map[], data, newId, now)
  }

  /** `NoteRepository.findByUser(userId)`: exactly the notes whose `userId`
      is the argument, newest first. */
  function FindByUser(s: Store, userId: string): (r: seq<Doc>)
    ensures forall i :: 0 <= i < |r| ==> r[i] in s && OwnedBy(r[i], userId)
    ensures forall i :: 0 <= i < |s| && OwnedBy(s[i], userId) ==> s[i] in r
    ensures Collections.NewestFirst(r, (d: Doc) => d.createdAt)
    ensures multiset(r) == multiset(Collections.Filter(s, (d: Doc) => OwnedBy(d, userId)))
  {
    FindNewestFirst(s, (d: Doc) => OwnedBy(d, userId))
  }

  /** Creating a note adds it to its owner's list and to no one else's. */
  lemma CreateThenFind(s: Store, data: map<string, Value>, newId: string, now: int, userId: string)
    requires Create(s, data, newId, now).Saved?
    ensures var c := Create(s, data, newId, now);
      OwnedBy(c.doc, userId) <==> c.doc in FindByUser(c.store, userId)
  {
    var c := Create(s, data, newId, now);
    assert c.store[|s|] == c.doc;
  }
}
