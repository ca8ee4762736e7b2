/** The Contact schema: ten trimmed String paths, all required but `notes`;
    `email` is lower-cased, unique (the unique index lives in the store) and
    must look like an email address; `phone` must look like a phone number;
    `birthday` is a required Date, `company` a required reference to a
    company, and `notes` at most 500 characters. */
module ContactModel {
  import opened Optional
  import opened Json
  import opened Failures
  import opened Schema
  import opened Ids
  import Text

  datatype Contact = Contact(
    firstName: string,
    lastName: string,
    email: string,
    phone: string,
    favoriteColor: string,
    birthday: int,
    jobTitle: string,
    company: ObjectId,
    street: string,
    city: string,
    country: string,
    notes: Option<string>,
    createdAt: nat)

  const Model := "Contact"

  const NotesRule := TextRule(false, AnyText, Some(500))

  /** Each path's value in a body, after casting and the path's setters. */
  function FirstName(body: Payload): Cast<string> { ReadText(body, "firstName", true, false) }
  function LastName(body: Payload): Cast<string> { ReadText(body, "lastName", true, false) }
  function Email(body: Payload): Cast<string> { ReadText(body, "email", true, true) }
  function Phone(body: Payload): Cast<string> { ReadText(body, "phone", true, false) }
  function FavoriteColor(body: Payload): Cast<string> { ReadText(body, "favoriteColor", true, false) }
  function Birthday(body: Payload, dateOf: string -> Option<int>): Cast<int> { ReadDate(body, "birthday", dateOf) }
  function JobTitle(body: Payload): Cast<string> { ReadText(body, "jobTitle", true, false) }
  function CompanyRef(body: Payload): Cast<ObjectId> { ReadRef(body, "company") }
  function Street(body: Payload): Cast<string> { ReadText(body, "street", true, false) }
  function City(body: Payload): Cast<string> { ReadText(body, "city", true, false) }
  function Country(body: Payload): Cast<string> { ReadText(body, "country", true, false) }
  function Notes(body: Payload): Cast<string> { ReadText(body, "notes", true, false) }

  /** Every constraint of the schema, on a stored contact. */
  predicate Valid(c: Contact) {
    && Fits(c.firstName, RequiredText)
    && Fits(c.lastName, RequiredText)
    && Fits(c.email, EmailRule) && Text.IsLower(c.email)
    && Fits(c.phone, PhoneRule)
    && Fits(c.favoriteColor, RequiredText)
    && Fits(c.jobTitle, RequiredText)
    && Fits(c.street, RequiredText)
    && Fits(c.city, RequiredText)
    && Fits(c.country, RequiredText)
    && (c.notes.Some? ==> Fits(c.notes.value, NotesRule))
  }

  function FirstNameErrors(body: Payload): seq<FieldError> { TextErrors("firstName", FirstName(body), RequiredText) }
  function LastNameErrors(body: Payload): seq<FieldError> { TextErrors("lastName", LastName(body), RequiredText) }
  function EmailErrors(body: Payload): seq<FieldError> { TextErrors("email", Email(body), EmailRule) }
  function PhoneErrors(body: Payload): seq<FieldError> { TextErrors("phone", Phone(body), PhoneRule) }
  function FavoriteColorErrors(body: Payload): seq<FieldError> { TextErrors("favoriteColor", FavoriteColor(body), RequiredText) }
  function BirthdayErrors(body: Payload, dateOf: string -> Option<int>): seq<FieldError> {
    PresenceErrors("birthday", Birthday(body, dateOf), true)
  }
  function JobTitleErrors(body: Payload): seq<FieldError> { TextErrors("jobTitle", JobTitle(body), RequiredText) }
  function CompanyErrors(body: Payload): seq<FieldError> { PresenceErrors("company", CompanyRef(body), true) }
  function StreetErrors(body: Payload): seq<FieldError> { TextErrors("street", Street(body), RequiredText) }
  function CityErrors(body: Payload): seq<FieldError> { TextErrors("city", City(body), RequiredText) }
  function CountryErrors(body: Payload): seq<FieldError> { TextErrors("country", Country(body), RequiredText) }
  function NotesErrors(body: Payload): seq<FieldError> { TextErrors("notes", Notes(body), NotesRule) }

  /** Document validation on `save()`: every path, in schema order. */
  function CreateErrors(body: Payload, dateOf: string -> Option<int>): seq<FieldError> {
    FirstNameErrors(body) + LastNameErrors(body) + EmailErrors(body) + PhoneErrors(body)
    + FavoriteColorErrors(body) + BirthdayErrors(body, dateOf) + JobTitleErrors(body)
    + CompanyErrors(body) + StreetErrors(body) + CityErrors(body) + CountryErrors(body)
    + NotesErrors(body)
  }

  /** Update validation (`runValidators`): only the paths the body supplies. */
  function UpdateErrors(body: Payload, dateOf: string -> Option<int>): seq<FieldError> {
    IfSupplied(body, "firstName", FirstNameErrors(body))
    + IfSupplied(body, "lastName", LastNameErrors(body))
    + IfSupplied(body, "email", EmailErrors(body))
    + IfSupplied(body, "phone", PhoneErrors(body))
    + IfSupplied(body, "favoriteColor", FavoriteColorErrors(body))
    + IfSupplied(body, "birthday", BirthdayErrors(body, dateOf))
    + IfSupplied(body, "jobTitle", JobTitleErrors(body))
    + IfSupplied(body, "company", CompanyErrors(body))
    + IfSupplied(body, "street", StreetErrors(body))
    + IfSupplied(body, "city", CityErrors(body))
    + IfSupplied(body, "country", CountryErrors(body))
    + IfSupplied(body, "notes", NotesErrors(body))
  }

  /** `c` holds, on every path the body supplies, that path's cast value. */
  predicate TakesSupplied(body: Payload, dateOf: string -> Option<int>, c: Contact) {
    && ("firstName" in body ==> FirstName(body) == Set(c.firstName))
    && ("lastName" in body ==> LastName(body) == Set(c.lastName))
    && ("email" in body ==> Email(body) == Set(c.email))
    && ("phone" in body ==> Phone(body) == Set(c.phone))
    && ("favoriteColor" in body ==> FavoriteColor(body) == Set(c.favoriteColor))
    && ("birthday" in body ==> Birthday(body, dateOf) == Set(c.birthday))
    && ("jobTitle" in body ==> JobTitle(body) == Set(c.jobTitle))
    && ("company" in body ==> CompanyRef(body) == Set(c.company))
    && ("street" in body ==> Street(body) == Set(c.street))
    && ("city" in body ==> City(body) == Set(c.city))
    && ("country" in body ==> Country(body) == Set(c.country))
    && ("notes" in body ==> !Notes(body).Bad? && Notes(body).Stored() == c.notes)
  }

  /** `next` equals `current` on every path the body does not supply. */
  predicate KeepsUnsupplied(body: Payload, current: Contact, next: Contact) {
    && ("firstName" !in body ==> next.firstName == current.firstName)
    && ("lastName" !in body ==> next.lastName == current.lastName)
    && ("email" !in body ==> next.email == current.email)
    && ("phone" !in body ==> next.phone == current.phone)
    && ("favoriteColor" !in body ==> next.favoriteColor == current.favoriteColor)
    && ("birthday" !in body ==> next.birthday == current.birthday)
    && ("jobTitle" !in body ==> next.jobTitle == current.jobTitle)
    && ("company" !in body ==> next.company == current.company)
    && ("street" !in body ==> next.street == current.street)
    && ("city" !in body ==> next.city == current.city)
    && ("country" !in body ==> next.country == current.country)
    && ("notes" !in body ==> next.notes == current.notes)
    && next.createdAt == current.createdAt
  }

  /** `new Contact(body)` followed by validation: either the validation error
      listing every failing path, or a valid contact whose every path holds
      the body's cast value (absent notes stay empty). */
  function Build(body: Payload, createdAt: nat, dateOf: string -> Option<int>): (r: Try<Contact>)
    ensures r.Fail? <==> CreateErrors(body, dateOf) != []
    ensures r.Fail? ==> r.error == ValidationError(Model, CreateErrors(body, dateOf))
    ensures r.Ok? ==> Valid(r.value) && r.value.createdAt == createdAt
    ensures r.Ok? ==> TakesSupplied(body, dateOf, r.value) && ("notes" !in body ==> r.value.notes == None)
  {
    var errors := CreateErrors(body, dateOf);
    if errors != [] then Fail(ValidationError(Model, errors))
    else
      assert FirstNameErrors(body) == [] && LastNameErrors(body) == [] && EmailErrors(body) == []
        && PhoneErrors(body) == [] && FavoriteColorErrors(body) == [] && BirthdayErrors(body, dateOf) == []
        && JobTitleErrors(body) == [] && CompanyErrors(body) == [] && StreetErrors(body) == []
        && CityErrors(body) == [] && CountryErrors(body) == [] && NotesErrors(body) == [];
      Ok(Contact(
        FirstName(body).value, LastName(body).value, Email(body).value, Phone(body).value,
        FavoriteColor(body).value, Birthday(body, dateOf).value, JobTitle(body).value,
        CompanyRef(body).value, Street(body).value, City(body).value, Country(body).value,
        Notes(body).Stored(), createdAt))
  }

  /** The path the cast step of an update reports: the first supplied path,
      in schema order, whose value cannot be cast; a path the body leaves
      out is never cast. Mongoose walks the body in its own key order, but
      which path is named never changes a handler's answer. */
  function UpdateCastFailure(body: Payload, dateOf: string -> Option<int>): (r: Option<string>)
    ensures r.Some? ==> r.value in body
  {
    if FirstName(body).Bad? then Some("firstName")
    else if LastName(body).Bad? then Some("lastName")
    else if Email(body).Bad? then Some("email")
    else if Phone(body).Bad? then Some("phone")
    else if FavoriteColor(body).Bad? then Some("favoriteColor")
    else if Birthday(body, dateOf).Bad? then Some("birthday")
    else if JobTitle(body).Bad? then Some("jobTitle")
    else if CompanyRef(body).Bad? then Some("company")
    else if Street(body).Bad? then Some("street")
    else if City(body).Bad? then Some("city")
    else if Country(body).Bad? then Some("country")
    else if Notes(body).Bad? then Some("notes")
    else None
  }

  /** The cast step and the update validators agree: the cast fails exactly
      when some supplied path would be reported uncastable. */
  lemma UpdateCastFailureIsUncastable(body: Payload, dateOf: string -> Option<int>)
    ensures UpdateCastFailure(body, dateOf).None? <==> CastsCleanly(UpdateErrors(body, dateOf))
  {
    if UpdateCastFailure(body, dateOf).Some? {
      UpdateCastFailureReported(body, dateOf);
      UncastableNotClean(UpdateErrors(body, dateOf), FieldError(UpdateCastFailure(body, dateOf).value, Uncastable));
    } else {
      var p0 := IfSupplied(body, "firstName", FirstNameErrors(body));
      SuppliedCast(body, "firstName", FirstName(body), FirstNameErrors(body));
      var p1 := IfSupplied(body, "lastName", LastNameErrors(body));
      SuppliedCast(body, "lastName", LastName(body), LastNameErrors(body));
      var p2 := IfSupplied(body, "email", EmailErrors(body));
      SuppliedCast(body, "email", Email(body), EmailErrors(body));
      var p3 := IfSupplied(body, "phone", PhoneErrors(body));
      SuppliedCast(body, "phone", Phone(body), PhoneErrors(body));
      var p4 := IfSupplied(body, "favoriteColor", FavoriteColorErrors(body));
      SuppliedCast(body, "favoriteColor", FavoriteColor(body), FavoriteColorErrors(body));
      var p5 := IfSupplied(body, "birthday", BirthdayErrors(body, dateOf));
      SuppliedCast(body, "birthday", Birthday(body, dateOf), BirthdayErrors(body, dateOf));
      var p6 := IfSupplied(body, "jobTitle", JobTitleErrors(body));
      SuppliedCast(body, "jobTitle", JobTitle(body), JobTitleErrors(body));
      var p7 := IfSupplied(body, "company", CompanyErrors(body));
      SuppliedCast(body, "company", CompanyRef(body), CompanyErrors(body));
      var p8 := IfSupplied(body, "street", StreetErrors(body));
      SuppliedCast(body, "street", Street(body), StreetErrors(body));
      var p9 := IfSupplied(body, "city", CityErrors(body));
      SuppliedCast(body, "city", City(body), CityErrors(body));
      var p10 := IfSupplied(body, "country", CountryErrors(body));
      SuppliedCast(body, "country", Country(body), CountryErrors(body));
      var p11 := IfSupplied(body, "notes", NotesErrors(body));
      SuppliedCast(body, "notes", Notes(body), NotesErrors(body));
      assert UpdateErrors(body, dateOf) == p0 + p1 + p2 + p3 + p4 + p5 + p6 + p7 + p8 + p9 + p10 + p11;
      CastsCleanlyAppend(p0, p1);
      CastsCleanlyAppend(p0 + p1, p2);
      CastsCleanlyAppend(p0 + p1 + p2, p3);
      CastsCleanlyAppend(p0 + p1 + p2 + p3, p4);
      CastsCleanlyAppend(p0 + p1 + p2 + p3 + p4, p5);
      CastsCleanlyAppend(p0 + p1 + p2 + p3 + p4 + p5, p6);
      CastsCleanlyAppend(p0 + p1 + p2 + p3 + p4 + p5 + p6, p7);
      CastsCleanlyAppend(p0 + p1 + p2 + p3 + p4 + p5 + p6 + p7, p8);
      CastsCleanlyAppend(p0 + p1 + p2 + p3 + p4 + p5 + p6 + p7 + p8, p9);
      CastsCleanlyAppend(p0 + p1 + p2 + p3 + p4 + p5 + p6 + p7 + p8 + p9, p10);
      CastsCleanlyAppend(p0 + p1 + p2 + p3 + p4 + p5 + p6 + p7 + p8 + p9 + p10, p11);
    }
  }

  /** The path the cast step names is one the update validators would
      report as uncastable. */
  lemma UpdateCastFailureReported(body: Payload, dateOf: string -> Option<int>)
    requires UpdateCastFailure(body, dateOf).Some?
    ensures FieldError(UpdateCastFailure(body, dateOf).value, Uncastable) in UpdateErrors(body, dateOf)
  {
    var e := FieldError(UpdateCastFailure(body, dateOf).value, Uncastable);
    var p0 := IfSupplied(body, "firstName", FirstNameErrors(body));
    var p1 := IfSupplied(body, "lastName", LastNameErrors(body));
    var p2 := IfSupplied(body, "email", EmailErrors(body));
    var p3 := IfSupplied(body, "phone", PhoneErrors(body));
    var p4 := IfSupplied(body, "favoriteColor", FavoriteColorErrors(body));
    var p5 := IfSupplied(body, "birthday", BirthdayErrors(body, dateOf));
    var p6 := IfSupplied(body, "jobTitle", JobTitleErrors(body));
    var p7 := IfSupplied(body, "company", CompanyErrors(body));
    var p8 := IfSupplied(body, "street", StreetErrors(body));
    var p9 := IfSupplied(body, "city", CityErrors(body));
    var p10 := IfSupplied(body, "country", CountryErrors(body));
    var p11 := IfSupplied(body, "notes", NotesErrors(body));
    if FirstName(body).Bad? {
      assert e in p0;
    } else if LastName(body).Bad? {
      assert e in p1;
    } else if Email(body).Bad? {
      assert e in p2;
    } else if Phone(body).Bad? {
      assert e in p3;
    } else if FavoriteColor(body).Bad? {
      assert e in p4;
    } else if Birthday(body, dateOf).Bad? {
      assert e in p5;
    } else if JobTitle(body).Bad? {
      assert e in p6;
    } else if CompanyRef(body).Bad? {
      assert e in p7;
    } else if Street(body).Bad? {
      assert e in p8;
    } else if City(body).Bad? {
      assert e in p9;
    } else if Country(body).Bad? {
      assert e in p10;
    } else {
      assert e in p11;
    }
    assert UpdateErrors(body, dateOf) == p0 + p1 + p2 + p3 + p4 + p5 + p6 + p7 + p8 + p9 + p10 + p11;
  }

  /** `findByIdAndUpdate(id, body, { runValidators: true })` applied to the
      current document: the CastError for a supplied value that cannot be
      cast, else the validation error for the supplied paths, else the
      document with exactly the supplied paths overwritten. */
  function Patch(current: Contact, body: Payload, dateOf: string -> Option<int>): (r: Try<Contact>)
    ensures UpdateCastFailure(body, dateOf).Some? ==> r == Fail(CastError(UpdateCastFailure(body, dateOf).value))
    ensures UpdateCastFailure(body, dateOf).None? ==> (r.Fail? <==> UpdateErrors(body, dateOf) != [])
    ensures UpdateCastFailure(body, dateOf).None? && r.Fail? ==> r.error == ValidationError(Model, UpdateErrors(body, dateOf))
    ensures r.Ok? ==> TakesSupplied(body, dateOf, r.value) && KeepsUnsupplied(body, current, r.value)
  {
    var _ :- CastUpdate(UpdateCastFailure(body, dateOf));
    var errors := UpdateErrors(body, dateOf);
    if errors != [] then Fail(ValidationError(Model, errors))
    else
      NoUpdateErrorsPasses(body, dateOf);
      MergeTakesSupplied(current, body, dateOf);
      Ok(Merge(current, body, dateOf))
  }

  /** A valid contact stays valid under an update that passes. */
  lemma PatchKeepsValid(current: Contact, body: Payload, dateOf: string -> Option<int>)
    requires Valid(current) && Patch(current, body, dateOf).Ok?
    ensures Valid(Patch(current, body, dateOf).value)
  {
    NoUpdateErrorsPasses(body, dateOf);
    MergeKeepsValid(current, body, dateOf);
  }

  /** Every supplied path passed its validators. */
  predicate Passes(body: Payload, dateOf: string -> Option<int>) {
    && ("firstName" in body ==> FirstNameErrors(body) == [])
    && ("lastName" in body ==> LastNameErrors(body) == [])
    && ("email" in body ==> EmailErrors(body) == [])
    && ("phone" in body ==> PhoneErrors(body) == [])
    && ("favoriteColor" in body ==> FavoriteColorErrors(body) == [])
    && ("birthday" in body ==> BirthdayErrors(body, dateOf) == [])
    && ("jobTitle" in body ==> JobTitleErrors(body) == [])
    && ("company" in body ==> CompanyErrors(body) == [])
    && ("street" in body ==> StreetErrors(body) == [])
    && ("city" in body ==> CityErrors(body) == [])
    && ("country" in body ==> CountryErrors(body) == [])
    && ("notes" in body ==> NotesErrors(body) == [])
  }

  lemma NoUpdateErrorsPasses(body: Payload, dateOf: string -> Option<int>)
    requires UpdateErrors(body, dateOf) == []
    ensures Passes(body, dateOf)
  {
  }

  /** The current document with the supplied paths overwritten. */
  function Merge(current: Contact, body: Payload, dateOf: string -> Option<int>): Contact
    requires Passes(body, dateOf)
  {
    Contact(
      if "firstName" in body then FirstName(body).value else current.firstName,
      if "lastName" in body then LastName(body).value else current.lastName,
      if "email" in body then Email(body).value else current.email,
      if "phone" in body then Phone(body).value else current.phone,
      if "favoriteColor" in body then FavoriteColor(body).value else current.favoriteColor,
      if "birthday" in body then Birthday(body, dateOf).value else current.birthday,
      if "jobTitle" in body then JobTitle(body).value else current.jobTitle,
      if "company" in body then CompanyRef(body).value else current.company,
      if "street" in body then Street(body).value else current.street,
      if "city" in body then City(body).value else current.city,
      if "country" in body then Country(body).value else current.country,
      if "notes" in body then Notes(body).Stored() else current.notes,
      current.createdAt)
  }

  lemma MergeTakesSupplied(current: Contact, body: Payload, dateOf: string -> Option<int>)
    requires Passes(body, dateOf)
    ensures TakesSupplied(body, dateOf, Merge(current, body, dateOf))
    ensures KeepsUnsupplied(body, current, Merge(current, body, dateOf))
  {
  }

  lemma MergeKeepsValid(current: Contact, body: Payload, dateOf: string -> Option<int>)
    requires Passes(body, dateOf) && Valid(current)
    ensures Valid(Merge(current, body, dateOf))
  {
  }

  /** The contact as a request body. */
  function ToPayload(c: Contact): Payload {
    map["firstName" := Str(c.firstName), "lastName" := Str(c.lastName), "email" := Str(c.email),
        "phone" := Str(c.phone), "favoriteColor" := Str(c.favoriteColor), "birthday" := Num(c.birthday),
        "jobTitle" := Str(c.jobTitle), "company" := Str(c.company), "street" := Str(c.street),
        "city" := Str(c.city), "country" := Str(c.country)]
    + (if c.notes.Some? then map["notes" := Str(c.notes.value)] else map[])
  }

  /** Reading a contact's own payload back gives its fields, one path at a
      time. */
  lemma ReadFirstName(c: Contact)
    requires Text.IsTrimmed(c.firstName)
    ensures FirstName(ToPayload(c)) == Set(c.firstName)
  {
    ReadStoredText(ToPayload(c), "firstName", c.firstName, false);
  }

  lemma ReadLastName(c: Contact)
    requires Text.IsTrimmed(c.lastName)
    ensures LastName(ToPayload(c)) == Set(c.lastName)
  {
    ReadStoredText(ToPayload(c), "lastName", c.lastName, false);
  }

  lemma ReadEmail(c: Contact)
    requires Text.IsTrimmed(c.email) && Text.IsLower(c.email)
    ensures Email(ToPayload(c)) == Set(c.email)
  {
    ReadStoredText(ToPayload(c), "email", c.email, true);
  }

  lemma ReadPhone(c: Contact)
    requires Text.IsTrimmed(c.phone)
    ensures Phone(ToPayload(c)) == Set(c.phone)
  {
    ReadStoredText(ToPayload(c), "phone", c.phone, false);
  }

  lemma ReadFavoriteColor(c: Contact)
    requires Text.IsTrimmed(c.favoriteColor)
    ensures FavoriteColor(ToPayload(c)) == Set(c.favoriteColor)
  {
    ReadStoredText(ToPayload(c), "favoriteColor", c.favoriteColor, false);
  }

  lemma ReadJobTitle(c: Contact)
    requires Text.IsTrimmed(c.jobTitle)
    ensures JobTitle(ToPayload(c)) == Set(c.jobTitle)
  {
    ReadStoredText(ToPayload(c), "jobTitle", c.jobTitle, false);
  }

  lemma ReadStreet(c: Contact)
    requires Text.IsTrimmed(c.street)
    ensures Street(ToPayload(c)) == Set(c.street)
  {
    ReadStoredText(ToPayload(c), "street", c.street, false);
  }

  lemma ReadCity(c: Contact)
    requires Text.IsTrimmed(c.city)
    ensures City(ToPayload(c)) == Set(c.city)
  {
    ReadStoredText(ToPayload(c), "city", c.city, false);
  }

  lemma ReadCountry(c: Contact)
    requires Text.IsTrimmed(c.country)
    ensures Country(ToPayload(c)) == Set(c.country)
  {
    ReadStoredText(ToPayload(c), "country", c.country, false);
  }

  lemma ReadBirthday(c: Contact, dateOf: string -> Option<int>)
    ensures Birthday(ToPayload(c), dateOf) == Set(c.birthday)
  {
    assert ToPayload(c)["birthday"] == Num(c.birthday);
  }

  lemma ReadCompanyRef(c: Contact)
    ensures CompanyRef(ToPayload(c)) == Set(c.company)
  {
    ReadStoredRef(ToPayload(c), "company", c.company);
  }

  lemma ReadNotes(c: Contact)
    requires c.notes.Some? ==> Text.IsTrimmed(c.notes.value)
    ensures !Notes(ToPayload(c)).Bad? && Notes(ToPayload(c)).Stored() == c.notes
  {
    if c.notes.Some? {
      ReadStoredText(ToPayload(c), "notes", c.notes.value, false);
    }
  }

  /** Round trip: creating a contact from a valid contact's own fields
      stores exactly that contact. */
  lemma BuildRoundTrip(c: Contact, dateOf: string -> Option<int>)
    requires Valid(c)
    ensures Build(ToPayload(c), c.createdAt, dateOf) == Ok(c)
  {
    ReadFirstName(c);
    ReadLastName(c);
    ReadEmail(c);
    ReadPhone(c);
    ReadFavoriteColor(c);
    ReadJobTitle(c);
    ReadStreet(c);
    ReadCity(c);
    ReadCountry(c);
    ReadBirthday(c, dateOf);
    ReadCompanyRef(c);
    ReadNotes(c);
    assert CreateErrors(ToPayload(c), dateOf) == [];
  }
}
