/** The Company schema: seven String paths, every one trimmed; `name` is
    unique (the unique index lives in the store), `supportEmail` is
    lower-cased and must look like an email address, `phone` like a phone
    number, `website` (optional) like an http(s) URL, and `description` is at
    most 500 characters. */
module CompanyModel {
  import opened Optional
  import opened Json
  import opened Failures
  import opened Schema
  import Text

  datatype Company = Company(
    name: string,
    industry: string,
    website: Option<string>,
    supportEmail: string,
    phone: string,
    hqCity: string,
    description: string,
    createdAt: nat)

  const Model := "Company"

  const WebsiteRule := TextRule(false, UrlPattern, None)
  const DescriptionRule := TextRule(true, AnyText, Some(500))

  /** Each path's value in a body, after casting and the path's setters. */
  function Name(body: Payload): Cast<string> { ReadText(body, "name", true, false) }
  function Industry(body: Payload): Cast<string> { ReadText(body, "industry", true, false) }
  function Website(body: Payload): Cast<string> { ReadText(body, "website", true, false) }
  function SupportEmail(body: Payload): Cast<string> { ReadText(body, "supportEmail", true, true) }
  function Phone(body: Payload): Cast<string> { ReadText(body, "phone", true, false) }
  function HqCity(body: Payload): Cast<string> { ReadText(body, "hqCity", true, false) }
  function Description(body: Payload): Cast<string> { ReadText(body, "description", true, false) }

  /** Every constraint of the schema, on a stored company. */
  predicate Valid(c: Company) {
    && Fits(c.name, RequiredText)
    && Fits(c.industry, RequiredText)
    && (c.website.Some? ==> Fits(c.website.value, WebsiteRule))
    && Fits(c.supportEmail, EmailRule) && Text.IsLower(c.supportEmail)
    && Fits(c.phone, PhoneRule)
    && Fits(c.hqCity, RequiredText)
    && Fits(c.description, DescriptionRule)
  }

  function NameErrors(body: Payload): seq<FieldError> { TextErrors("name", Name(body), RequiredText) }
  function IndustryErrors(body: Payload): seq<FieldError> { TextErrors("industry", Industry(body), RequiredText) }
  function WebsiteErrors(body: Payload): seq<FieldError> { TextErrors("website", Website(body), WebsiteRule) }
  function SupportEmailErrors(body: Payload): seq<FieldError> { TextErrors("supportEmail", SupportEmail(body), EmailRule) }
  function PhoneErrors(body: Payload): seq<FieldError> { TextErrors("phone", Phone(body), PhoneRule) }
  function HqCityErrors(body: Payload): seq<FieldError> { TextErrors("hqCity", HqCity(body), RequiredText) }
  function DescriptionErrors(body: Payload): seq<FieldError> { TextErrors("description", Description(body), DescriptionRule) }

  /** Document validation on `save()`: every path, in schema order. */
  function CreateErrors(body: Payload): seq<FieldError> {
    NameErrors(body) + IndustryErrors(body) + WebsiteErrors(body) + SupportEmailErrors(body)
    + PhoneErrors(body) + HqCityErrors(body) + DescriptionErrors(body)
  }

  /** Update validation (`runValidators`): only the paths the body supplies. */
  function UpdateErrors(body: Payload): seq<FieldError> {
    IfSupplied(body, "name", NameErrors(body))
    + IfSupplied(body, "industry", IndustryErrors(body))
    + IfSupplied(body, "website", WebsiteErrors(body))
    + IfSupplied(body, "supportEmail", SupportEmailErrors(body))
    + IfSupplied(body, "phone", PhoneErrors(body))
    + IfSupplied(body, "hqCity", HqCityErrors(body))
    + IfSupplied(body, "description", DescriptionErrors(body))
  }

  /** `c` holds, on every path the body supplies, that path's cast value. */
  predicate TakesSupplied(body: Payload, c: Company) {
    && ("name" in body ==> Name(body) == Set(c.name))
    && ("industry" in body ==> Industry(body) == Set(c.industry))
    && ("website" in body ==> !Website(body).Bad? && Website(body).Stored() == c.website)
    && ("supportEmail" in body ==> SupportEmail(body) == Set(c.supportEmail))
    && ("phone" in body ==> Phone(body) == Set(c.phone))
    && ("hqCity" in body ==> HqCity(body) == Set(c.hqCity))
    && ("description" in body ==> Description(body) == Set(c.description))
  }

  /** `next` equals `current` on every path the body does not supply. */
  predicate KeepsUnsupplied(body: Payload, current: Company, next: Company) {
    && ("name" !in body ==> next.name == current.name)
    && ("industry" !in body ==> next.industry == current.industry)
    && ("website" !in body ==> next.website == current.website)
    && ("supportEmail" !in body ==> next.supportEmail == current.supportEmail)
    && ("phone" !in body ==> next.phone == current.phone)
    && ("hqCity" !in body ==> next.hqCity == current.hqCity)
    && ("description" !in body ==> next.description == current.description)
    && next.createdAt == current.createdAt
  }

  /** `new Company(body)` followed by validation: either the validation
      error listing every failing path, or a valid company whose every path
      holds the body's cast value (unset optional paths stay empty). */
  function Build(body: Payload, createdAt: nat): (r: Try<Company>)
    ensures r.Fail? <==> CreateErrors(body) != []
    ensures r.Fail? ==> r.error == ValidationError(Model, CreateErrors(body))
    ensures r.Ok? ==> Valid(r.value) && r.value.createdAt == createdAt
    ensures r.Ok? ==> TakesSupplied(body, r.value) && ("website" !in body ==> r.value.website == None)
  {
    var errors := CreateErrors(body);
    if errors != [] then Fail(ValidationError(Model, errors))
    else
      assert NameErrors(body) == [] && IndustryErrors(body) == [] && WebsiteErrors(body) == []
        && SupportEmailErrors(body) == [] && PhoneErrors(body) == [] && HqCityErrors(body) == []
        && DescriptionErrors(body) == [];
      Ok(Company(
        Name(body).value, Industry(body).value, Website(body).Stored(), SupportEmail(body).value,
        Phone(body).value, HqCity(body).value, Description(body).value, createdAt))
  }

  /** The path the cast step of an update reports: the first supplied path,
      in schema order, whose value cannot be cast; a path the body leaves
      out is never cast. Mongoose walks the body in its own key order, but
      which path is named never changes a handler's answer. */
  function UpdateCastFailure(body: Payload): (r: Option<string>)
    ensures r.Some? ==> r.value in body
  {
    if Name(body).Bad? then Some("name")
    else if Industry(body).Bad? then Some("industry")
    else if Website(body).Bad? then Some("website")
    else if SupportEmail(body).Bad? then Some("supportEmail")
    else if Phone(body).Bad? then Some("phone")
    else if HqCity(body).Bad? then Some("hqCity")
    else if Description(body).Bad? then Some("description")
    else None
  }

  /** The cast step and the update validators agree: the cast fails exactly
      when some supplied path would be reported uncastable. */
  lemma UpdateCastFailureIsUncastable(body: Payload)
    ensures UpdateCastFailure(body).None? <==> CastsCleanly(UpdateErrors(body))
  {
    if UpdateCastFailure(body).Some? {
      UpdateCastFailureReported(body);
      UncastableNotClean(UpdateErrors(body), FieldError(UpdateCastFailure(body).value, Uncastable));
    } else {
      var p0 := IfSupplied(body, "name", NameErrors(body));
      SuppliedCast(body, "name", Name(body), NameErrors(body));
      var p1 := IfSupplied(body, "industry", IndustryErrors(body));
      SuppliedCast(body, "industry", Industry(body), IndustryErrors(body));
      var p2 := IfSupplied(body, "website", WebsiteErrors(body));
      SuppliedCast(body, "website", Website(body), WebsiteErrors(body));
      var p3 := IfSupplied(body, "supportEmail", SupportEmailErrors(body));
      SuppliedCast(body, "supportEmail", SupportEmail(body), SupportEmailErrors(body));
      var p4 := IfSupplied(body, "phone", PhoneErrors(body));
      SuppliedCast(body, "phone", Phone(body), PhoneErrors(body));
      var p5 := IfSupplied(body, "hqCity", HqCityErrors(body));
      SuppliedCast(body, "hqCity", HqCity(body), HqCityErrors(body));
      var p6 := IfSupplied(body, "description", DescriptionErrors(body));
      SuppliedCast(body, "description", Description(body), DescriptionErrors(body));
      assert UpdateErrors(body) == p0 + p1 + p2 + p3 + p4 + p5 + p6;
      CastsCleanlyAppend(p0, p1);
      CastsCleanlyAppend(p0 + p1, p2);
      CastsCleanlyAppend(p0 + p1 + p2, p3);
      CastsCleanlyAppend(p0 + p1 + p2 + p3, p4);
      CastsCleanlyAppend(p0 + p1 + p2 + p3 + p4, p5);
      CastsCleanlyAppend(p0 + p1 + p2 + p3 + p4 + p5, p6);
    }
  }

  /** The path the cast step names is one the update validators would
      report as uncastable. */
  lemma UpdateCastFailureReported(body: Payload)
    requires UpdateCastFailure(body).Some?
    ensures FieldError(UpdateCastFailure(body).value, Uncastable) in UpdateErrors(body)
  {
    var e := FieldError(UpdateCastFailure(body).value, Uncastable);
    var p0 := IfSupplied(body, "name", NameErrors(body));
    var p1 := IfSupplied(body, "industry", IndustryErrors(body));
    var p2 := IfSupplied(body, "website", WebsiteErrors(body));
    var p3 := IfSupplied(body, "supportEmail", SupportEmailErrors(body));
    var p4 := IfSupplied(body, "phone", PhoneErrors(body));
    var p5 := IfSupplied(body, "hqCity", HqCityErrors(body));
    var p6 := IfSupplied(body, "description", DescriptionErrors(body));
    if Name(body).Bad? {
      assert e in p0;
    } else if Industry(body).Bad? {
      assert e in p1;
    } else if Website(body).Bad? {
      assert e in p2;
    } else if SupportEmail(body).Bad? {
      assert e in p3;
    } else if Phone(body).Bad? {
      assert e in p4;
    } else if HqCity(body).Bad? {
      assert e in p5;
    } else {
      assert e in p6;
    }
    assert UpdateErrors(body) == p0 + p1 + p2 + p3 + p4 + p5 + p6;
  }

  /** `findByIdAndUpdate(id, body, { runValidators: true })` applied to the
      current document: the CastError for a supplied value that cannot be
      cast, else the validation error for the supplied paths, else the
      document with exactly the supplied paths overwritten. A valid
      document stays valid. */
  function Patch(current: Company, body: Payload): (r: Try<Company>)
    ensures UpdateCastFailure(body).Some? ==> r == Fail(CastError(UpdateCastFailure(body).value))
    ensures UpdateCastFailure(body).None? ==> (r.Fail? <==> UpdateErrors(body) != [])
    ensures UpdateCastFailure(body).None? && r.Fail? ==> r.error == ValidationError(Model, UpdateErrors(body))
    ensures r.Ok? ==> TakesSupplied(body, r.value) && KeepsUnsupplied(body, current, r.value)
    ensures r.Ok? && Valid(current) ==> Valid(r.value)
  {
    var _ :- CastUpdate(UpdateCastFailure(body));
    var errors := UpdateErrors(body);
    if errors != [] then Fail(ValidationError(Model, errors))
    else
      NoUpdateErrorsPasses(body);
      MergeTakesSupplied(current, body);
      assert Valid(current) ==> Valid(Merge(current, body)) by {
        if Valid(current) {
          MergeKeepsValid(current, body);
        }
      }
      Ok(Merge(current, body))
  }

  /** Every supplied path passed its validators. */
  predicate Passes(body: Payload) {
    && ("name" in body ==> NameErrors(body) == [])
    && ("industry" in body ==> IndustryErrors(body) == [])
    && ("website" in body ==> WebsiteErrors(body) == [])
    && ("supportEmail" in body ==> SupportEmailErrors(body) == [])
    && ("phone" in body ==> PhoneErrors(body) == [])
    && ("hqCity" in body ==> HqCityErrors(body) == [])
    && ("description" in body ==> DescriptionErrors(body) == [])
  }

  lemma NoUpdateErrorsPasses(body: Payload)
    requires UpdateErrors(body) == []
    ensures Passes(body)
  {
  }

  /** The current document with the supplied paths overwritten. */
  function Merge(current: Company, body: Payload): Company
    requires Passes(body)
  {
    Company(
      if "name" in body then Name(body).value else current.name,
      if "industry" in body then Industry(body).value else current.industry,
      if "website" in body then Website(body).Stored() else current.website,
      if "supportEmail" in body then SupportEmail(body).value else current.supportEmail,
      if "phone" in body then Phone(body).value else current.phone,
      if "hqCity" in body then HqCity(body).value else current.hqCity,
      if "description" in body then Description(body).value else current.description,
      current.createdAt)
  }

  lemma MergeTakesSupplied(current: Company, body: Payload)
    requires Passes(body)
    ensures TakesSupplied(body, Merge(current, body))
    ensures KeepsUnsupplied(body, current, Merge(current, body))
  {
  }

  lemma MergeKeepsValid(current: Company, body: Payload)
    requires Passes(body) && Valid(current)
    ensures Valid(Merge(current, body))
  {
  }

  /** The company as a request body. */
  function ToPayload(c: Company): Payload {
    map["name" := Str(c.name), "industry" := Str(c.industry), "supportEmail" := Str(c.supportEmail),
        "phone" := Str(c.phone), "hqCity" := Str(c.hqCity), "description" := Str(c.description)]
    + (if c.website.Some? then map["website" := Str(c.website.value)] else map[])
  }

  /** Reading a company's own payload back gives its fields, one path at a
      time. */
  lemma ReadName(c: Company)
    requires Text.IsTrimmed(c.name)
    ensures Name(ToPayload(c)) == Set(c.name)
  {
    ReadStoredText(ToPayload(c), "name", c.name, false);
  }

  lemma ReadIndustry(c: Company)
    requires Text.IsTrimmed(c.industry)
    ensures Industry(ToPayload(c)) == Set(c.industry)
  {
    ReadStoredText(ToPayload(c), "industry", c.industry, false);
  }

  lemma ReadWebsite(c: Company)
    requires c.website.Some? ==> Text.IsTrimmed(c.website.value)
    ensures !Website(ToPayload(c)).Bad? && Website(ToPayload(c)).Stored() == c.website
  {
    if c.website.Some? {
      ReadStoredText(ToPayload(c), "website", c.website.value, false);
    }
  }

  lemma ReadSupportEmail(c: Company)
    requires Text.IsTrimmed(c.supportEmail) && Text.IsLower(c.supportEmail)
    ensures SupportEmail(ToPayload(c)) == Set(c.supportEmail)
  {
    ReadStoredText(ToPayload(c), "supportEmail", c.supportEmail, true);
  }

  lemma ReadPhone(c: Company)
    requires Text.IsTrimmed(c.phone)
    ensures Phone(ToPayload(c)) == Set(c.phone)
  {
    ReadStoredText(ToPayload(c), "phone", c.phone, false);
  }

  lemma ReadHqCity(c: Company)
    requires Text.IsTrimmed(c.hqCity)
    ensures HqCity(ToPayload(c)) == Set(c.hqCity)
  {
    ReadStoredText(ToPayload(c), "hqCity", c.hqCity, false);
  }

  lemma ReadDescription(c: Company)
    requires Text.IsTrimmed(c.description)
    ensures Description(ToPayload(c)) == Set(c.description)
  {
    ReadStoredText(ToPayload(c), "description", c.description, false);
  }

  /** Round trip: creating a company from a valid company's own fields stores
      exactly that company. */
  lemma BuildRoundTrip(c: Company)
    requires Valid(c)
    ensures Build(ToPayload(c), c.createdAt) == Ok(c)
  {
    ReadName(c);
    ReadIndustry(c);
    ReadWebsite(c);
    ReadSupportEmail(c);
    ReadPhone(c);
    ReadHqCity(c);
    ReadDescription(c);
    assert CreateErrors(ToPayload(c)) == [];
  }
}
