/** The HTTP layer for notes (`NoteController`): the limiter, then the
    access token, then the service. */
module NoteController {
  import opened Base
  import opened ApiErrors
  import opened ApiResponse
  import opened Effects
  import opened Security
  import opened Http
  import opened Documents
  import NoteService

  /** `NoteController.create(req)`: 201 with the stored note. */
  function Create(limiter: Limiter, jwt: Jwt, notes: Store, req: Request, newId: string, now: int): (r: Reply<Store>)
    ensures r.response.headers == RateLimitHeaders(VerdictFor(limiter, req))
    ensures r.mail == []
    ensures !VerdictFor(limiter, req).success ==> r == Throttled(VerdictFor(limiter, req), notes)
    ensures Caller(limiter, jwt, req).Err? ==>
              r == Reply(Handle(Caller(limiter, jwt, req).error, r.response.headers), notes, [])
    ensures Caller(limiter, jwt, req).Ok? && req.body.None? ==> r.response.status == 500 && r.state == notes
    ensures Caller(limiter, jwt, req).Ok? && req.body.Some? && !NoteService.HasRequiredFields(req.body.value) ==>
              r.response.status == 400 && r.response.message == NoteService.MISSING_FIELDS.message
    ensures r.response.success <==> Caller(limiter, jwt, req).Ok? && req.body.Some? &&
                                    NoteService.HasRequiredFields(req.body.value) && !HasId(notes, newId)
    ensures r.response.success ==>
              && r.response.status == 201
              && r.response.data.Some? && r.response.data.value.OneDoc?
              && r.state == notes + [r.response.data.value.doc]
              && OwnedBy(r.response.data.value.doc, Caller(limiter, jwt, req).value)
              && r.response.data.value.doc.id == newId && r.response.data.value.doc.createdAt == now
              && Lookup(r.response.data.value.doc.fields, "title") == Lookup(req.body.value, "title")
              && Lookup(r.response.data.value.doc.fields, "content") == Lookup(req.body.value, "content")
    ensures Caller(limiter, jwt, req).Ok? && req.body.Some? ==>
              var s := NoteService.CreateNote(notes, Caller(limiter, jwt, req).value, req.body.value, newId, now);
              r.state == s.state && (r.response.success ==> r.response.data == Some(OneDoc(s.result.value)))
    ensures !r.response.success ==> r.state == notes
  {
    var step: Step<Payload, Store> :=
      match Caller(limiter, jwt, req)
      case Err(e) => Step(Err(e), notes, [])
      case Ok(userId) =>
        match req.body
        case None => Step(Err(MALFORMED_BODY), notes, [])
        case Some(body) => Lift(NoteService.CreateNote(notes, userId, body, newId, now), (d: Doc) => OneDoc(d));
    Answer(RateLimitHeaders(VerdictFor(limiter, req)), step, "Note created successfully", 201)
  }

  /** `NoteController.getAll(req)`: 200 with the caller's notes. */
  function GetAll(limiter: Limiter, jwt: Jwt, notes: Store, req: Request): (r: Reply<Store>)
    ensures r.response.headers == RateLimitHeaders(VerdictFor(limiter, req))
    ensures r.state == notes && r.mail == []
    ensures !VerdictFor(limiter, req).success ==> r == Throttled(VerdictFor(limiter, req), notes)
    ensures Caller(limiter, jwt, req).Err? ==>
              r == Reply(Handle(Caller(limiter, jwt, req).error, r.response.headers), notes, [])
    ensures r.response.success <==> Caller(limiter, jwt, req).Ok?
    ensures r.response.success ==>
              && r.response.status == 200
              && r.response.data == Some(Docs(NoteService.GetUserNotes(notes, Caller(limiter, jwt, req).value)))
  {
    var step: Step<Payload, Store> :=
      match Caller(limiter, jwt, req)
      case Err(e) => Step(Err(e), notes, [])
      case Ok(userId) => Step(Ok(Docs(NoteService.GetUserNotes(notes, userId))), notes, []);
    Answer(RateLimitHeaders(VerdictFor(limiter, req)), step, "Notes retrieved successfully", 200)
  }

  /** A note created through the API is in the creator's next listing. */
  lemma {:induction false} CreateThenList(limiter: Limiter, jwt: Jwt, notes: Store, req: Request, newId: string, now: int)
    requires Create(limiter, jwt, notes, req, newId, now).response.success
    ensures var c := Create(limiter, jwt, notes, req, newId, now);
      var l := GetAll(limiter, jwt, c.state, req);
      l.response.success && c.response.data.value.doc in l.response.data.value.docs
  {
    var c := Create(limiter, jwt, notes, req, newId, now);
    var userId := Caller(limiter, jwt, req).value;
    NoteService.CreatedNoteListed(notes, userId, req.body.value, newId, now);
  }
}
