/** The review handlers, each as its try-block followed by its catch-block.
    Reviews have no unique path, so no error here is reported as a
    duplicate. */
module ReviewController {
  import opened Optional
  import opened Json
  import opened Failures
  import opened Ids
  import opened Listing
  import opened Store
  import opened Http
  import opened References
  import Schema
  import Required
  import ReviewModel

  type Review = ReviewModel.Review

  const RequiredFields := ["title", "content", "rating", "company", "reviewer"]
  const NotFound := "Review not found"

  /** `sort({ createdAt: -1 })`: newest first. */
  predicate ByNewest(a: Entry<Review>, b: Entry<Review>) {
    a.doc.createdAt >= b.doc.createdAt
  }

  lemma ByNewestSorts()
    ensures TotalPreorder(ByNewest)
  {
  }

  /** `getReviews`: every review, newest first. */
  method GetReviews(db: Db) returns (r: Reply<Review>)
    ensures r.db == db
    ensures !db.up ==> r.response == Response(500, Error(Says(ServerError)))
    ensures db.up ==> r.response.status == 200 && r.response.body.Many?
    ensures db.up ==> Lists(db.reviews, r.response.body.entries) && Sorted(r.response.body.entries, ByNewest)
  {
    ByNewestSorts();
    r := GetAll(db, db.reviews, ByNewest);
  }

  /** `getReviewById`: a malformed or unknown id is the 404 "Review not
      found"; only an unreachable store gives a 500. */
  function GetReviewById(db: Db, id: string): (r: Reply<Review>)
    ensures r.db == db
    ensures r.response.status in {200, 404, 500}
    ensures r.response.status == 404 <==> Parse(id).Malformed? || (db.up && Parse(id).key !in db.reviews)
    ensures r.response.status == 404 ==> r.response.body == Error(Says(NotFound))
    ensures r.response.status == 500 <==> Parse(id).Oid? && !db.up
    ensures r.response.status == 200 ==> r.response.body == One(Entry(Parse(id).key, db.reviews[Parse(id).key]))
  {
    GetOne(db, db.reviews, id, NotFound)
  }

  /** The try-block of `createReview`: required fields, the company, the
      reviewer, validation, then the insert. */
  function CreateReviewTry(db: Db, body: Payload, newId: ObjectId): Try<Db> {
    var _ :- Required.Validate(RequiredFields, body);
    var _ :- EnsureCompany(db, Field(body, "company"));
    var _ :- EnsureContact(db, Field(body, "reviewer"));
    // the lookups succeeded, so the store is reachable for the insert
    var review :- ReviewModel.Build(body, db.clock);
    if newId in db.reviews then Fail(DuplicateKey)
    else Ok(db.(reviews := db.reviews[newId := review], clock := db.clock + 1))
  }

  /** The checks `createReview` makes before writing, in order. */
  predicate CreatePasses(db: Db, body: Payload) {
    && Required.Validate(RequiredFields, body).Ok?
    && EnsureCompany(db, Field(body, "company")).Ok?
    && EnsureContact(db, Field(body, "reviewer")).Ok?
    && ReviewModel.Build(body, db.clock).Ok?
  }

  /** `createReview`: 201 with the new id, and exactly one more review;
      otherwise a 400 and the store unchanged. */
  function CreateReview(db: Db, body: Payload, newId: ObjectId): (r: Reply<Review>)
    ensures r.response.status == 201 || r.response.status == 400
    ensures r.response.status == 201 <==> CreatePasses(db, body) && newId !in db.reviews
    ensures r.response.status == 201 ==>
      && r.response.body == Created(newId)
      && r.db == db.(reviews := db.reviews[newId := ReviewModel.Build(body, db.clock).value], clock := db.clock + 1)
    ensures r.response.status == 400 ==> r.db == db
  {
    match CreateReviewTry(db, body, newId)
    case Ok(next) => Reply(next, Response(201, Created(newId)))
    case Fail(err) => CatchWrite(db, err, None, None, true)
  }

  /** Missing fields are reported first, all of them. */
  lemma CreateReviewMissingFields(db: Db, body: Payload, newId: ObjectId)
    requires Required.Validate(RequiredFields, body).Fail?
    ensures CreateReview(db, body, newId)
         == Refuse(db, 400, Required.MissingMessage(Required.Missing(RequiredFields, body)))
  {
    var v := Required.Validate(RequiredFields, body);
    assert CreateReviewTry(db, body, newId).Fail? && CreateReviewTry(db, body, newId).error == v.error;
    assert v.error == AppError(400, Required.MissingMessage(Required.Missing(RequiredFields, body)));
  }

  /** The company is checked first: with every field present, a company id
      that names no company is "Company not found", whatever the
      reviewer. */
  lemma CreateReviewUnknownCompany(db: Db, body: Payload, newId: ObjectId)
    requires Required.Validate(RequiredFields, body).Ok? && db.up && Field(body, "company").Str?
    requires Parse(Field(body, "company").s).Oid? && Parse(Field(body, "company").s).key !in db.companies
    ensures CreateReview(db, body, newId) == Refuse(db, 400, CompanyNotFound)
  {
  }

  /** The company is checked before the reviewer: a reviewer id that names
      no contact is reported only once the company exists. */
  lemma CreateReviewUnknownReviewer(db: Db, body: Payload, newId: ObjectId)
    requires Required.Validate(RequiredFields, body).Ok? && EnsureCompany(db, Field(body, "company")).Ok?
    requires Field(body, "reviewer").Str? && Parse(Field(body, "reviewer").s).Oid?
    requires Parse(Field(body, "reviewer").s).key !in db.contacts
    ensures CreateReview(db, body, newId) == Refuse(db, 400, ContactNotFound)
  {
  }

  /** A truthy `reviewer` in the body names an existing contact. */
  predicate ReviewerChecked(db: Db, body: Payload) {
    Absent(body, "reviewer") || EnsureContact(db, body["reviewer"]).Ok?
  }

  /** The try-block of `updateReview`: load the review, check the truthy
      references, then write. */
  function UpdateReviewTry(db: Db, id: string, body: Payload): Try<Reply<Review>> {
    var found :- FindById(db.up, db.reviews, id);
    if found.None? then Ok(Refuse(db, 404, NotFound))
    else
      var current := found.value;
      var _ :- if !Absent(body, "company") then EnsureCompany(db, body["company"]) else Ok(());
      var _ :- if !Absent(body, "reviewer") then EnsureContact(db, body["reviewer"]) else Ok(());
      var next :- ReviewModel.Patch(current.doc, body);
      Ok(Reply(db.(reviews := db.reviews[current.id := next]), Response(204, Empty)))
  }

  /** `updateReview`: 204 exactly when the id names a review, the truthy
      references exist, the body casts and the update validators pass, and
      then only that review changes, to the patched document. */
  function UpdateReview(db: Db, id: string, body: Payload): (r: Reply<Review>)
    ensures r.response.status in {204, 400, 404}
    ensures r.response.status != 204 ==> r.db == db
    ensures r.response.status == 204 <==>
      && Parse(id).Oid? && db.up && Parse(id).key in db.reviews
      && CompanyChecked(db, body) && ReviewerChecked(db, body)
      && ReviewModel.UpdateCastFailure(body).None? && ReviewModel.UpdateErrors(body) == []
    ensures r.response.status == 204 ==>
      && r.response.body == Empty
      && r.db == db.(reviews := db.reviews[Parse(id).key := ReviewModel.Patch(db.reviews[Parse(id).key], body).value])
  {
    match UpdateReviewTry(db, id, body)
    case Ok(reply) => reply
    case Fail(err) => CatchWrite(db, err, Some(NotFound), None, true)
  }

  /** For an existing review whose references pass their checks, a
      supplied value that cannot be cast makes the update throw a
      CastError, which this handler reports as its 404. */
  lemma UpdateReviewUncastable(db: Db, id: string, body: Payload)
    requires Parse(id).Oid? && db.up && Parse(id).key in db.reviews
    requires CompanyChecked(db, body) && ReviewerChecked(db, body)
    requires ReviewModel.UpdateCastFailure(body).Some?
    ensures UpdateReview(db, id, body) == Refuse(db, 404, NotFound)
  {
  }

  /** A malformed or unknown id is the 404 "Review not found"; an
      unreachable store is a 400 carrying the driver's message. */
  lemma UpdateReviewLookup(db: Db, id: string, body: Payload)
    ensures Parse(id).Malformed? ==> UpdateReview(db, id, body) == Refuse(db, 404, NotFound)
    ensures Parse(id).Oid? && !db.up ==> UpdateReview(db, id, body) == Reply(db, Response(400, Error(DriverText)))
    ensures Parse(id).Oid? && db.up && Parse(id).key !in db.reviews
      ==> UpdateReview(db, id, body) == Refuse(db, 404, NotFound)
  {
  }

  /** For an existing review whose company passes, a truthy reviewer that
      names no contact is a 400, but one that is not an id at all is
      reported as this handler's own 404. */
  lemma UpdateReviewReviewerCheck(db: Db, id: string, body: Payload)
    requires Parse(id).Oid? && db.up && Parse(id).key in db.reviews
    requires CompanyChecked(db, body) && !Absent(body, "reviewer")
    ensures Schema.AsRef(body["reviewer"]).Bad? ==> UpdateReview(db, id, body) == Refuse(db, 404, NotFound)
    ensures body["reviewer"].Str? && Parse(body["reviewer"].s).Oid? && Parse(body["reviewer"].s).key !in db.contacts
      ==> UpdateReview(db, id, body) == Refuse(db, 400, ContactNotFound)
  {
  }

  /** `deleteReview`: removes the review (204); a malformed or unknown id is
      a 404. */
  function DeleteReview(db: Db, id: string): (r: Reply<Review>)
    ensures Parse(id).Malformed? ==> r == Refuse(db, 404, NotFound)
    ensures Parse(id).Oid? && !db.up ==> r == Refuse(db, 500, ServerError)
    ensures Parse(id).Oid? && db.up && Parse(id).key !in db.reviews ==> r == Refuse(db, 404, NotFound)
    ensures Parse(id).Oid? && db.up && Parse(id).key in db.reviews
      ==> r == Reply(db.(reviews := db.reviews - {Parse(id).key}), Response(204, Empty))
  {
    match FindByIdAndDelete(db.up, db.reviews, id)
    case Ok((rest, found)) =>
      if !found then Refuse(db, 404, NotFound) else Reply(db.(reviews := rest), Response(204, Empty))
    case Fail(err) => CatchLookup(db, err, NotFound)
  }
}
