/** The Review schema: a required, trimmed `title`; required `content` of at
    most 500 characters; a required `rating` from 1 to 5; required `company`
    and `reviewer` references; and an `isPublished` flag that defaults to
    false. */
module ReviewModel {
  import opened Optional
  import opened Json
  import opened Failures
  import opened Schema
  import opened Ids
  import Text

  datatype Review = Review(
    title: string,
    content: string,
    rating: int,
    company: ObjectId,
    reviewer: ObjectId,
    isPublished: Option<bool>,
    createdAt: nat)

  const Model := "Review"

  const ContentRule := TextRule(true, AnyText, Some(500))
  const RatingRule := NumberRule(true, Some(1), Some(5))

  /** Each path's value in a body, after casting and the path's setters. */
  function Title(body: Payload): Cast<string> { ReadText(body, "title", true, false) }
  function Content(body: Payload): Cast<string> { ReadText(body, "content", true, false) }
  function Rating(body: Payload): Cast<int> { ReadNumber(body, "rating") }
  function CompanyRef(body: Payload): Cast<ObjectId> { ReadRef(body, "company") }
  function Reviewer(body: Payload): Cast<ObjectId> { ReadRef(body, "reviewer") }
  function IsPublished(body: Payload): Cast<bool> { ReadBool(body, "isPublished") }

  /** Every constraint of the schema, on a stored review. */
  predicate Valid(r: Review) {
    && Fits(r.title, RequiredText)
    && Fits(r.content, ContentRule)
    && InRange(r.rating, RatingRule)
  }

  function TitleErrors(body: Payload): seq<FieldError> { TextErrors("title", Title(body), RequiredText) }
  function ContentErrors(body: Payload): seq<FieldError> { TextErrors("content", Content(body), ContentRule) }
  function RatingErrors(body: Payload): seq<FieldError> { NumberErrors("rating", Rating(body), RatingRule) }
  function CompanyErrors(body: Payload): seq<FieldError> { PresenceErrors("company", CompanyRef(body), true) }
  function ReviewerErrors(body: Payload): seq<FieldError> { PresenceErrors("reviewer", Reviewer(body), true) }
  function IsPublishedErrors(body: Payload): seq<FieldError> { PresenceErrors("isPublished", IsPublished(body), false) }

  /** Document validation on `save()`: every path, in schema order. */
  function CreateErrors(body: Payload): seq<FieldError> {
    TitleErrors(body) + ContentErrors(body) + RatingErrors(body) + CompanyErrors(body)
    + ReviewerErrors(body) + IsPublishedErrors(body)
  }

  /** Update validation (`runValidators`): only the paths the body supplies. */
  function UpdateErrors(body: Payload): seq<FieldError> {
    IfSupplied(body, "title", TitleErrors(body))
    + IfSupplied(body, "content", ContentErrors(body))
    + IfSupplied(body, "rating", RatingErrors(body))
    + IfSupplied(body, "company", CompanyErrors(body))
    + IfSupplied(body, "reviewer", ReviewerErrors(body))
    + IfSupplied(body, "isPublished", IsPublishedErrors(body))
  }

  /** `r` holds, on every path the body supplies, that path's cast value. */
  predicate TakesSupplied(body: Payload, r: Review) {
    && ("title" in body ==> Title(body) == Set(r.title))
    && ("content" in body ==> Content(body) == Set(r.content))
    && ("rating" in body ==> Rating(body) == Set(r.rating))
    && ("company" in body ==> CompanyRef(body) == Set(r.company))
    && ("reviewer" in body ==> Reviewer(body) == Set(r.reviewer))
    && ("isPublished" in body ==> !IsPublished(body).Bad? && IsPublished(body).Stored() == r.isPublished)
  }

  /** `next` equals `current` on every path the body does not supply. */
  predicate KeepsUnsupplied(body: Payload, current: Review, next: Review) {
    && ("title" !in body ==> next.title == current.title)
    && ("content" !in body ==> next.content == current.content)
    && ("rating" !in body ==> next.rating == current.rating)
    && ("company" !in body ==> next.company == current.company)
    && ("reviewer" !in body ==> next.reviewer == current.reviewer)
    && ("isPublished" !in body ==> next.isPublished == current.isPublished)
    && next.createdAt == current.createdAt
  }

  /** `new Review(body)` followed by validation: either the validation error
      listing every failing path, or a valid review whose every path holds
      the body's cast value; an omitted `isPublished` is false. */
  function Build(body: Payload, createdAt: nat): (r: Try<Review>)
    ensures r.Fail? <==> CreateErrors(body) != []
    ensures r.Fail? ==> r.error == ValidationError(Model, CreateErrors(body))
    ensures r.Ok? ==> Valid(r.value) && r.value.createdAt == createdAt
    ensures r.Ok? ==> TakesSupplied(body, r.value)
    ensures r.Ok? && "isPublished" !in body ==> r.value.isPublished == Some(false)
  {
    var errors := CreateErrors(body);
    if errors != [] then Fail(ValidationError(Model, errors))
    else
      assert TitleErrors(body) == [] && ContentErrors(body) == [] && RatingErrors(body) == []
        && CompanyErrors(body) == [] && ReviewerErrors(body) == [] && IsPublishedErrors(body) == [];
      Ok(Review(
        Title(body).value, Content(body).value, Rating(body).value, CompanyRef(body).value,
        Reviewer(body).value,
        if "isPublished" in body then IsPublished(body).Stored() else Some(false),
        createdAt))
  }

  /** The path the cast step of an update reports: the first supplied path,
      in schema order, whose value cannot be cast; a path the body leaves
      out is never cast. Mongoose walks the body in its own key order, but
      which path is named never changes a handler's answer. */
  function UpdateCastFailure(body: Payload): (r: Option<string>)
    ensures r.Some? ==> r.value in body
  {
    if Title(body).Bad? then Some("title")
    else if Content(body).Bad? then Some("content")
    else if Rating(body).Bad? then Some("rating")
    else if CompanyRef(body).Bad? then Some("company")
    else if Reviewer(body).Bad? then Some("reviewer")
    else if IsPublished(body).Bad? then Some("isPublished")
    else None
  }

  /** The cast step and the update validators agree: the cast fails exactly
      when some supplied path would be reported uncastable. */
  lemma UpdateCastFailureIsUncastable(body: Payload)
    ensures UpdateCastFailure(body).None? <==> CastsCleanly(UpdateErrors(body))
  {
    if UpdateCastFailure(body).Some? {
      UpdateCastFailureReported(body);
      UncastableNotClean(UpdateErrors(body), FieldError(UpdateCastFailure(body).value, Uncastable));
    } else {
      var p0 := IfSupplied(body, "title", TitleErrors(body));
      SuppliedCast(body, "title", Title(body), TitleErrors(body));
      var p1 := IfSupplied(body, "content", ContentErrors(body));
      SuppliedCast(body, "content", Content(body), ContentErrors(body));
      var p2 := IfSupplied(body, "rating", RatingErrors(body));
      SuppliedCast(body, "rating", Rating(body), RatingErrors(body));
      var p3 := IfSupplied(body, "company", CompanyErrors(body));
      SuppliedCast(body, "company", CompanyRef(body), CompanyErrors(body));
      var p4 := IfSupplied(body, "reviewer", ReviewerErrors(body));
      SuppliedCast(body, "reviewer", Reviewer(body), ReviewerErrors(body));
      var p5 := IfSupplied(body, "isPublished", IsPublishedErrors(body));
      SuppliedCast(body, "isPublished", IsPublished(body), IsPublishedErrors(body));
      assert UpdateErrors(body) == p0 + p1 + p2 + p3 + p4 + p5;
      CastsCleanlyAppend(p0, p1);
      CastsCleanlyAppend(p0 + p1, p2);
      CastsCleanlyAppend(p0 + p1 + p2, p3);
      CastsCleanlyAppend(p0 + p1 + p2 + p3, p4);
      CastsCleanlyAppend(p0 + p1 + p2 + p3 + p4, p5);
    }
  }

  /** The path the cast step names is one the update validators would
      report as uncastable. */
  lemma UpdateCastFailureReported(body: Payload)
    requires UpdateCastFailure(body).Some?
    ensures FieldError(UpdateCastFailure(body).value, Uncastable) in UpdateErrors(body)
  {
    var e := FieldError(UpdateCastFailure(body).value, Uncastable);
    var p0 := IfSupplied(body, "title", TitleErrors(body));
    var p1 := IfSupplied(body, "content", ContentErrors(body));
    var p2 := IfSupplied(body, "rating", RatingErrors(body));
    var p3 := IfSupplied(body, "company", CompanyErrors(body));
    var p4 := IfSupplied(body, "reviewer", ReviewerErrors(body));
    var p5 := IfSupplied(body, "isPublished", IsPublishedErrors(body));
    if Title(body).Bad? {
      assert e in p0;
    } else if Content(body).Bad? {
      assert e in p1;
    } else if Rating(body).Bad? {
      assert e in p2;
    } else if CompanyRef(body).Bad? {
      assert e in p3;
    } else if Reviewer(body).Bad? {
      assert e in p4;
    } else {
      assert e in p5;
    }
    assert UpdateErrors(body) == p0 + p1 + p2 + p3 + p4 + p5;
  }

  /** `findByIdAndUpdate(id, body, { runValidators: true })` applied to the
      current document: the CastError for a supplied value that cannot be
      cast, else the validation error for the supplied paths, else the
      document with exactly the supplied paths overwritten. A valid
      document stays valid. */
  function Patch(current: Review, body: Payload): (r: Try<Review>)
    ensures UpdateCastFailure(body).Some? ==> r == Fail(CastError(UpdateCastFailure(body).value))
    ensures UpdateCastFailure(body).None? ==> (r.Fail? <==> UpdateErrors(body) != [])
    ensures UpdateCastFailure(body).None? && r.Fail? ==> r.error == ValidationError(Model, UpdateErrors(body))
    ensures r.Ok? ==> TakesSupplied(body, r.value) && KeepsUnsupplied(body, current, r.value)
    ensures r.Ok? && Valid(current) ==> Valid(r.value)
  {
    var _ :- CastUpdate(UpdateCastFailure(body));
    var errors := UpdateErrors(body);
    if errors != [] then Fail(ValidationError(Model, errors))
    else
      NoUpdateErrorsPasses(body);
      MergeTakesSupplied(current, body);
      assert Valid(current) ==> Valid(Merge(current, body)) by {
        if Valid(current) {
          MergeKeepsValid(current, body);
        }
      }
      Ok(Merge(current, body))
  }

  /** Every supplied path passed its validators. */
  predicate Passes(body: Payload) {
    && ("title" in body ==> TitleErrors(body) == [])
    && ("content" in body ==> ContentErrors(body) == [])
    && ("rating" in body ==> RatingErrors(body) == [])
    && ("company" in body ==> CompanyErrors(body) == [])
    && ("reviewer" in body ==> ReviewerErrors(body) == [])
    && ("isPublished" in body ==> IsPublishedErrors(body) == [])
  }

  lemma NoUpdateErrorsPasses(body: Payload)
    requires UpdateErrors(body) == []
    ensures Passes(body)
  {
  }

  /** The current document with the supplied paths overwritten. */
  function Merge(current: Review, body: Payload): Review
    requires Passes(body)
  {
    Review(
      if "title" in body then Title(body).value else current.title,
      if "content" in body then Content(body).value else current.content,
      if "rating" in body then Rating(body).value else current.rating,
      if "company" in body then CompanyRef(body).value else current.company,
      if "reviewer" in body then Reviewer(body).value else current.reviewer,
      if "isPublished" in body then IsPublished(body).Stored() else current.isPublished,
      current.createdAt)
  }

  lemma MergeTakesSupplied(current: Review, body: Payload)
    requires Passes(body)
    ensures TakesSupplied(body, Merge(current, body))
    ensures KeepsUnsupplied(body, current, Merge(current, body))
  {
  }

  lemma MergeKeepsValid(current: Review, body: Payload)
    requires Passes(body) && Valid(current)
    ensures Valid(Merge(current, body))
  {
  }

  /** The review as a request body. An empty flag is sent as null, so that
      the default does not replace it. */
  function ToPayload(r: Review): Payload {
    map["title" := Str(r.title), "content" := Str(r.content), "rating" := Num(r.rating),
        "company" := Str(r.company), "reviewer" := Str(r.reviewer),
        "isPublished" := (if r.isPublished.Some? then Bool(r.isPublished.value) else Null)]
  }

  /** Reading a review's own payload back gives its fields, one path at a
      time. */
  lemma ReadTitle(r: Review)
    requires Text.IsTrimmed(r.title)
    ensures Title(ToPayload(r)) == Set(r.title)
  {
    ReadStoredText(ToPayload(r), "title", r.title, false);
  }

  lemma ReadContent(r: Review)
    requires Text.IsTrimmed(r.content)
    ensures Content(ToPayload(r)) == Set(r.content)
  {
    ReadStoredText(ToPayload(r), "content", r.content, false);
  }

  lemma ReadRefs(r: Review)
    ensures CompanyRef(ToPayload(r)) == Set(r.company) && Reviewer(ToPayload(r)) == Set(r.reviewer)
  {
    ReadStoredRef(ToPayload(r), "company", r.company);
    ReadStoredRef(ToPayload(r), "reviewer", r.reviewer);
  }

  lemma ReadScalars(r: Review)
    ensures Rating(ToPayload(r)) == Set(r.rating)
    ensures "isPublished" in ToPayload(r) && !IsPublished(ToPayload(r)).Bad?
    ensures IsPublished(ToPayload(r)).Stored() == r.isPublished
  {
    assert ToPayload(r)["rating"] == Num(r.rating);
    assert ToPayload(r)["isPublished"] == if r.isPublished.Some? then Bool(r.isPublished.value) else Null;
  }

  /** Round trip: creating a review from a valid review's own fields stores
      exactly that review. */
  lemma BuildRoundTrip(r: Review)
    requires Valid(r)
    ensures Build(ToPayload(r), r.createdAt) == Ok(r)
  {
    ReadTitle(r);
    ReadContent(r);
    ReadRefs(r);
    ReadScalars(r);
    assert CreateErrors(ToPayload(r)) == [];
  }
}
