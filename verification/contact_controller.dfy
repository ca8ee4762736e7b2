/** The contact handlers, each as its try-block followed by its catch-block. */
module ContactController {
  import opened Optional
  import opened Json
  import opened Failures
  import opened Ids
  import opened Listing
  import opened Store
  import opened Http
  import opened References
  import Text
  import Schema
  import Required
  import ContactModel

  type Contact = ContactModel.Contact

  const RequiredFields := ["firstName", "lastName", "email", "phone", "favoriteColor", "birthday",
                           "jobTitle", "company", "street", "city", "country"]
  const NotFound := "Contact not found"
  const EmailExists := "Email already exists"

  /** `sort({ lastName: 1, firstName: 1 })` */
  predicate ByFullName(a: Entry<Contact>, b: Entry<Contact>) {
    || Text.Before(a.doc.lastName, b.doc.lastName)
    || (a.doc.lastName == b.doc.lastName && !Text.Before(b.doc.firstName, a.doc.firstName))
  }

  lemma ByFullNameSorts()
    ensures TotalPreorder(ByFullName)
  {
    forall a: Entry<Contact>, b: Entry<Contact> ensures ByFullName(a, b) || ByFullName(b, a) {
      Text.BeforeTrichotomy(a.doc.lastName, b.doc.lastName);
      Text.BeforeTrichotomy(a.doc.firstName, b.doc.firstName);
    }
    forall a: Entry<Contact>, b: Entry<Contact>, c: Entry<Contact> | ByFullName(a, b) && ByFullName(b, c)
      ensures ByFullName(a, c)
    {
      var (x, y, z) := (a.doc, b.doc, c.doc);
      if Text.Before(x.lastName, y.lastName) && Text.Before(y.lastName, z.lastName) {
        Text.BeforeTransitive(x.lastName, y.lastName, z.lastName);
      } else if x.lastName == y.lastName && y.lastName == z.lastName {
        Text.BeforeTrichotomy(x.firstName, y.firstName);
        Text.BeforeTrichotomy(y.firstName, z.firstName);
        Text.BeforeTrichotomy(x.firstName, z.firstName);
        if Text.Before(z.firstName, x.firstName) && x.firstName != y.firstName && y.firstName != z.firstName {
          Text.BeforeTransitive(x.firstName, y.firstName, z.firstName);
        }
      }
    }
  }

  /** `getContacts`: every contact, by last name and then first name. */
  method GetContacts(db: Db) returns (r: Reply<Contact>)
    ensures r.db == db
    ensures !db.up ==> r.response == Response(500, Error(Says(ServerError)))
    ensures db.up ==> r.response.status == 200 && r.response.body.Many?
    ensures db.up ==> Lists(db.contacts, r.response.body.entries) && Sorted(r.response.body.entries, ByFullName)
  {
    ByFullNameSorts();
    r := GetAll(db, db.contacts, ByFullName);
  }

  /** `getContactById`: a malformed or unknown id is the 404 "Contact not
      found"; only an unreachable store gives a 500. */
  function GetContactById(db: Db, id: string): (r: Reply<Contact>)
    ensures r.db == db
    ensures r.response.status in {200, 404, 500}
    ensures r.response.status == 404 <==> Parse(id).Malformed? || (db.up && Parse(id).key !in db.contacts)
    ensures r.response.status == 404 ==> r.response.body == Error(Says(NotFound))
    ensures r.response.status == 500 <==> Parse(id).Oid? && !db.up
    ensures r.response.status == 200 ==> r.response.body == One(Entry(Parse(id).key, db.contacts[Parse(id).key]))
  {
    GetOne(db, db.contacts, id, NotFound)
  }

  /** The try-block of `createContact`: required fields, then the company
      reference, then validation, then the insert. */
  function CreateContactTry(db: Db, body: Payload, newId: ObjectId, dateOf: string -> Option<int>): (r: Try<Db>)
    ensures Required.Validate(RequiredFields, body).Fail? ==> r == Fail(Required.Validate(RequiredFields, body).error)
  {
    var _ :- Required.Validate(RequiredFields, body);
    var _ :- EnsureCompany(db, Field(body, "company"));
    // the company lookup succeeded, so the store is reachable for the insert
    var contact :- ContactModel.Build(body, db.clock, dateOf);
    if newId in db.contacts || Held(db.contacts, ContactEmail, contact.email, None) then Fail(DuplicateKey)
    else Ok(db.(contacts := db.contacts[newId := contact], clock := db.clock + 1))
  }

  /** The checks `createContact` makes before writing, in order. */
  predicate CreatePasses(db: Db, body: Payload, dateOf: string -> Option<int>) {
    && Required.Validate(RequiredFields, body).Ok?
    && EnsureCompany(db, Field(body, "company")).Ok?
    && ContactModel.Build(body, db.clock, dateOf).Ok?
  }

  /** `createContact`: 201 with the new id, and exactly one more contact;
      otherwise a 400 and the store unchanged. */
  function CreateContact(db: Db, body: Payload, newId: ObjectId, dateOf: string -> Option<int>): (r: Reply<Contact>)
    ensures r.response.status == 201 || r.response.status == 400
    ensures r.response.status == 201 <==>
      && CreatePasses(db, body, dateOf) && newId !in db.contacts
      && !Held(db.contacts, ContactEmail, ContactModel.Build(body, db.clock, dateOf).value.email, None)
    ensures r.response.status == 201 ==>
      && r.response.body == Created(newId)
      && r.db == db.(contacts := db.contacts[newId := ContactModel.Build(body, db.clock, dateOf).value],
                     clock := db.clock + 1)
    ensures r.response.status == 400 ==> r.db == db
  {
    match CreateContactTry(db, body, newId, dateOf)
    case Ok(next) => Reply(next, Response(201, Created(newId)))
    case Fail(err) => CatchWrite(db, err, None, Some(EmailExists), true)
  }

  /** Missing fields are reported first, all of them, whatever else is
      wrong with the body. */
  lemma CreateContactMissingFields(db: Db, body: Payload, newId: ObjectId, dateOf: string -> Option<int>)
    requires Required.Validate(RequiredFields, body).Fail?
    ensures CreateContact(db, body, newId, dateOf)
         == Refuse(db, 400, Required.MissingMessage(Required.Missing(RequiredFields, body)))
  {
    var err := Required.Validate(RequiredFields, body).error;
    assert CreateContactTry(db, body, newId, dateOf) == Fail(err);
    assert CreateContact(db, body, newId, dateOf) == CatchWrite(db, err, None, Some(EmailExists), true);
  }

  /** With every field present, a company id that names no company is
      reported before the schema validates anything. */
  lemma CreateContactUnknownCompany(db: Db, body: Payload, newId: ObjectId, dateOf: string -> Option<int>)
    requires Required.Validate(RequiredFields, body).Ok? && db.up && Field(body, "company").Str?
    requires Parse(Field(body, "company").s).Oid? && Parse(Field(body, "company").s).key !in db.companies
    ensures CreateContact(db, body, newId, dateOf) == Refuse(db, 400, CompanyNotFound)
  {
  }

  /** An email another contact holds, after trimming and lower-casing, is
      "Email already exists". */
  lemma CreateContactDuplicateEmail(db: Db, body: Payload, newId: ObjectId, dateOf: string -> Option<int>)
    requires CreatePasses(db, body, dateOf) && newId !in db.contacts
    requires Held(db.contacts, ContactEmail, ContactModel.Build(body, db.clock, dateOf).value.email, None)
    ensures CreateContact(db, body, newId, dateOf) == Refuse(db, 400, EmailExists)
  {
  }

  /** The try-block of `updateContact`: a truthy company reference must
      exist; then `findByIdAndUpdate` casts the id and the body, runs the
      update validators, and writes. */
  function UpdateContactTry(db: Db, id: string, body: Payload, dateOf: string -> Option<int>): (r: Try<Reply<Contact>>)
    ensures r.Ok? ==> r.value.response.status in {204, 404}
    ensures r.Ok? && r.value.response.status != 204 ==> r.value.db == db
    ensures r.Ok? && r.value.response.status == 204 ==>
      && UpdateAccepted(db, id, body, dateOf)
      && r.value == Reply(db.(contacts := db.contacts[Parse(id).key := ContactModel.Patch(db.contacts[Parse(id).key], body, dateOf).value]),
                          Response(204, Empty))
    ensures r.Fail? && r.error.AppError? ==> r.error.statusCode == 400
  {
    var _ :- if !Absent(body, "company") then EnsureCompany(db, body["company"]) else Ok(());
    var key :- CastId(id);
    var _ :- Schema.CastUpdate(ContactModel.UpdateCastFailure(body, dateOf));
    var errors := ContactModel.UpdateErrors(body, dateOf);
    if errors != [] then Fail(ValidationError(ContactModel.Model, errors))
    else
      var _ :- Reach(db.up);
      if key !in db.contacts then Ok(Refuse(db, 404, NotFound))
      else
        // the validators passed, so the patch succeeds
        var next := ContactModel.Patch(db.contacts[key], body, dateOf).value;
        if Held(db.contacts, ContactEmail, next.email, Some(key)) then Fail(DuplicateKey)
        else Ok(Reply(db.(contacts := db.contacts[key := next]), Response(204, Empty)))
  }

  /** Every check of `updateContact` passes: the company check, the id, the
      update validators, the store, the contact's presence and the email
      index. */
  predicate UpdateAccepted(db: Db, id: string, body: Payload, dateOf: string -> Option<int>) {
    && CompanyChecked(db, body) && Parse(id).Oid?
    && ContactModel.UpdateCastFailure(body, dateOf).None? && ContactModel.UpdateErrors(body, dateOf) == []
    && db.up && Parse(id).key in db.contacts
    && !Held(db.contacts, ContactEmail, ContactModel.Patch(db.contacts[Parse(id).key], body, dateOf).value.email,
             Some(Parse(id).key))
  }

  /** `updateContact`: a 204 only when every check passes, and then only that
      contact changes, to the patched document. Anything else is a 400 or a
      404 and leaves the store as it was. */
  function UpdateContact(db: Db, id: string, body: Payload, dateOf: string -> Option<int>): (r: Reply<Contact>)
    ensures r.response.status in {204, 400, 404}
    ensures r.response.status != 204 ==> r.db == db
    ensures r.response.status == 204 ==> UpdateAccepted(db, id, body, dateOf)
    ensures r.response.status == 204 ==>
      && r.response.body == Empty
      && r.db == db.(contacts := db.contacts[Parse(id).key := ContactModel.Patch(db.contacts[Parse(id).key], body, dateOf).value])
  {
    match UpdateContactTry(db, id, body, dateOf)
    case Ok(reply) => reply
    case Fail(err) => CatchWrite(db, err, Some(NotFound), Some(EmailExists), true)
  }

  /** Once the company check passes and the id is well-formed, a supplied
      value that cannot be cast is this handler's 404, whether or not the
      contact exists: the body is cast before the query reaches the
      store. */
  lemma UpdateContactUncastable(db: Db, id: string, body: Payload, dateOf: string -> Option<int>)
    requires CompanyChecked(db, body) && Parse(id).Oid?
    requires ContactModel.UpdateCastFailure(body, dateOf).Some?
    ensures UpdateContact(db, id, body, dateOf) == Refuse(db, 404, NotFound)
  {
  }

  /** Once the body passes every check, a contact the store does not hold
      is "Contact not found". */
  lemma UpdateContactLookup(db: Db, id: string, body: Payload, dateOf: string -> Option<int>)
    requires CompanyChecked(db, body) && Parse(id).Oid? && db.up
    requires ContactModel.UpdateCastFailure(body, dateOf).None? && ContactModel.UpdateErrors(body, dateOf) == []
    requires Parse(id).key !in db.contacts
    ensures UpdateContact(db, id, body, dateOf) == Refuse(db, 404, NotFound)
  {
  }

  /** An email another contact holds once the update is applied is caught
      only by the unique index, and the handler maps that to "Email already
      exists" with no write. */
  lemma UpdateContactEmailTaken(db: Db, id: string, body: Payload, dateOf: string -> Option<int>)
    requires CompanyChecked(db, body) && Parse(id).Oid? && db.up
    requires ContactModel.UpdateCastFailure(body, dateOf).None? && ContactModel.UpdateErrors(body, dateOf) == []
    requires Parse(id).key in db.contacts
    requires Held(db.contacts, ContactEmail, ContactModel.Patch(db.contacts[Parse(id).key], body, dateOf).value.email,
                  Some(Parse(id).key))
    ensures UpdateContact(db, id, body, dateOf) == Refuse(db, 400, EmailExists)
  {
  }

  /** When every check passes, the update is made. */
  lemma UpdateContactAccepted(db: Db, id: string, body: Payload, dateOf: string -> Option<int>)
    requires UpdateAccepted(db, id, body, dateOf)
    ensures UpdateContact(db, id, body, dateOf).response.status == 204
  {
  }

  /** The company in the body is checked before the id is even cast: a
      company that is not an id is this handler's 404 and one that names no
      company a 400, whatever the id. Once the company check passes, or
      there is no company, a malformed id is the 404. */
  lemma UpdateContactCheckOrder(db: Db, id: string, body: Payload, dateOf: string -> Option<int>)
    ensures CompanyChecked(db, body) && Parse(id).Malformed?
      ==> UpdateContact(db, id, body, dateOf) == Refuse(db, 404, NotFound)
    ensures !Absent(body, "company") && Schema.AsRef(body["company"]).Bad?
      ==> UpdateContact(db, id, body, dateOf) == Refuse(db, 404, NotFound)
    ensures !Absent(body, "company") && db.up && body["company"].Str? && Parse(body["company"].s).Oid?
      && Parse(body["company"].s).key !in db.companies
      ==> UpdateContact(db, id, body, dateOf) == Refuse(db, 400, CompanyNotFound)
  {
  }

  /** `deleteContact`: removes the contact (204), whatever projects or
      reviews still reference it; a malformed or unknown id is a 404. */
  function DeleteContact(db: Db, id: string): (r: Reply<Contact>)
    ensures Parse(id).Malformed? ==> r == Refuse(db, 404, NotFound)
    ensures Parse(id).Oid? && !db.up ==> r == Refuse(db, 500, ServerError)
    ensures Parse(id).Oid? && db.up && Parse(id).key !in db.contacts ==> r == Refuse(db, 404, NotFound)
    ensures Parse(id).Oid? && db.up && Parse(id).key in db.contacts
      ==> r == Reply(db.(contacts := db.contacts - {Parse(id).key}), Response(204, Empty))
  {
    match FindByIdAndDelete(db.up, db.contacts, id)
    case Ok((rest, found)) =>
      if !found then Refuse(db, 404, NotFound) else Reply(db.(contacts := rest), Response(204, Empty))
    case Fail(err) => CatchLookup(db, err, NotFound)
  }
}
