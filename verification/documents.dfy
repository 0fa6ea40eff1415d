/** An owner-scoped document collection, the shape shared by the issue and
    note collections. A document is its ObjectId, its creation time and its
    schema fields; `userId` is one of those fields, as in the database, so a
    body that names `userId` is treated exactly as the database treats it.
    A collection is a sequence in natural (insertion) order. */
module Documents {
  import opened Base
  import Collections

  datatype Doc = Doc(id: string, createdAt: int, fields: map<string, Value>)

  type Store = seq<Doc>

  /** The document's `userId` field is the string `userId`. */
  predicate OwnedBy(d: Doc, userId: string) {
    "userId" in d.fields && d.fields["userId"] == Str(userId)
  }

  /** The `_id` unique index: no two documents share an id. */
  predicate IdsUnique(s: Store) {
    forall i, j :: 0 <= i < j < |s| ==> s[i].id != s[j].id
  }

  predicate HasId(s: Store, id: string) {
    exists i :: 0 <= i < |s| && s[i].id == id
  }

  /** The result of `new Model(data).save()`: the stored document and the
      collection, or a violation of the `_id` unique index. */
  datatype Saved = Saved(doc: Doc, store: Store) | DuplicateKey

  /** The fields a new document gets from `data`: the schema's fields of
      `data` (keys outside the schema are dropped), with a schema default
      for each key `data` leaves out. */
  function NewFields(schema: set<string>, defaults: map<string, Value>, data: map<string, Value>): (f: map<string, Value>)
    ensures f.Keys <= schema
    ensures forall k :: k in data && k in schema ==> k in f && f[k] == data[k]
    ensures forall k :: k in defaults && k in schema && k !in data ==> k in f && f[k] == defaults[k]
    ensures forall k :: k in f ==> k in data || k in defaults
  {
    Restrict(defaults, schema - data.Keys) + Restrict(data, schema)
  }

  /** Saves a new document under the fresh id `newId`, created at `now`. */
  function Insert(s: Store, schema: set<string>, defaults: map<string, Value>, data: map<string, Value>,
                  newId: string, now: int): (r: Saved)
    ensures r.DuplicateKey? <==> HasId(s, newId)
    ensures r.Saved? ==> r.store == s + [r.doc]
    ensures r.Saved? ==> r.doc == Doc(newId, now, NewFields(schema, defaults, data))
    ensures r.Saved? && IdsUnique(s) ==> IdsUnique(r.store)
  {
    if HasId(s, newId) then DuplicateKey
    else Saved(Doc(newId, now, NewFields(schema, defaults, data)), s + [Doc(newId, now, NewFields(schema, defaults, data))])
  }

  /** `Model.findById(id)`: the document with that id, if any. */
  function FindById(s: Store, id: string): (r: Option<Doc>)
    ensures r.Some? <==> HasId(s, id)
    ensures r.Some? ==> r.value in s && r.value.id == id
  {
    match Collections.FirstIndex(s, (d: Doc) => d.id == id)
    case None => None
    case Some(i) => Some(s[i])
  }

  /** The documents of `s` satisfying `p`, newest first
      (`Model.find(filter).sort({createdAt: -1})`). */
  function FindNewestFirst(s: Store, p: Doc -> bool): (r: seq<Doc>)
    ensures Collections.NewestFirst(r, (d: Doc) => d.createdAt)
    ensures forall i :: 0 <= i < |r| ==> p(r[i]) && r[i] in s
    ensures forall i :: 0 <= i < |s| && p(s[i]) ==> s[i] in r
    ensures multiset(r) == multiset(Collections.Filter(s, p))
  {
    var matching := Collections.Filter(s, p);
    var r := Collections.SortNewestFirst(matching, (d: Doc) => d.createdAt);
    Collections.SortedMembers(matching, (d: Doc) => d.createdAt);
    assert forall i :: 0 <= i < |r| ==> p(r[i]) && r[i] in s by {
      forall i | 0 <= i < |r|
        ensures p(r[i]) && r[i] in s
      {
        assert r[i] in matching;
        var k :| 0 <= k < |matching| && matching[k] == r[i];
      }
    }
    r
  }

  /** In a collection with unique ids, the id determines the document. */
  lemma UniqueIdDeterminesDoc(s: Store, i: int, j: int)
    requires IdsUnique(s) && 0 <= i < |s| && 0 <= j < |s|
    requires s[i].id == s[j].id
    ensures i == j
  {
  }
}
