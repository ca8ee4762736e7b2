/** The company handlers. Each is the handler's try-block, as a function
    returning either the reply or the error it throws, followed by its
    catch-block. */
module CompanyController {
  import opened Optional
  import opened Json
  import opened Failures
  import opened Ids
  import opened Listing
  import opened Store
  import opened Http
  import Text
  import Schema
  import CompanyModel
  import ContactModel

  type Company = CompanyModel.Company

  const NotFound := "Company not found"
  const NameExists := "Company name already exists"
  const HasContacts := "Cannot delete company with assigned contacts"

  /** `sort({ name: 1 })` */
  predicate ByName(a: Entry<Company>, b: Entry<Company>) {
    !Text.Before(b.doc.name, a.doc.name)
  }

  lemma ByNameSorts()
    ensures TotalPreorder(ByName)
  {
    forall a: Entry<Company>, b: Entry<Company> ensures ByName(a, b) || ByName(b, a) {
      Text.BeforeTrichotomy(a.doc.name, b.doc.name);
    }
    forall a: Entry<Company>, b: Entry<Company>, c: Entry<Company> | ByName(a, b) && ByName(b, c)
      ensures ByName(a, c)
    {
      Text.BeforeTrichotomy(a.doc.name, b.doc.name);
      Text.BeforeTrichotomy(b.doc.name, c.doc.name);
      Text.BeforeTrichotomy(a.doc.name, c.doc.name);
      if Text.Before(c.doc.name, a.doc.name) {
        if a.doc.name != b.doc.name && b.doc.name != c.doc.name {
          Text.BeforeTransitive(a.doc.name, b.doc.name, c.doc.name);
        }
      }
    }
  }

  /** `getCompanies`: all companies by name, A before B when A's name comes
      first in code-point order. */
  method GetCompanies(db: Db) returns (r: Reply<Company>)
    ensures r.db == db
    ensures !db.up ==> r.response == Response(500, Error(Says(ServerError)))
    ensures db.up ==> r.response.status == 200 && r.response.body.Many?
    ensures db.up ==> Lists(db.companies, r.response.body.entries) && Sorted(r.response.body.entries, ByName)
  {
    ByNameSorts();
    r := GetAll(db, db.companies, ByName);
  }

  /** `getCompanyById`: a malformed id and a missing company are both the
      404 "Company not found"; only an unreachable store gives a 500. */
  function GetCompanyById(db: Db, id: string): (r: Reply<Company>)
    ensures r.db == db
    ensures r.response.status in {200, 404, 500}
    ensures r.response.status == 404 <==> Parse(id).Malformed? || (db.up && Parse(id).key !in db.companies)
    ensures r.response.status == 404 ==> r.response.body == Error(Says(NotFound))
    ensures r.response.status == 500 <==> Parse(id).Oid? && !db.up
    ensures r.response.status == 200 ==> r.response.body == One(Entry(Parse(id).key, db.companies[Parse(id).key]))
  {
    GetOne(db, db.companies, id, NotFound)
  }

  /** The try-block of `createCompany`: build and validate the document,
      then insert it, which the unique indexes on `_id` and `name` may
      refuse. */
  function CreateCompanyTry(db: Db, body: Payload, newId: ObjectId): Try<Db> {
    var company :- CompanyModel.Build(body, db.clock);
    var _ :- Reach(db.up);
    if newId in db.companies || Held(db.companies, CompanyName, company.name, None) then Fail(DuplicateKey)
    else Ok(db.(companies := db.companies[newId := company], clock := db.clock + 1))
  }

  /** `createCompany`: 201 with only the new id, after which the store holds
      exactly one more company and nothing else changed; otherwise 400 and
      the store unchanged, with a name clash reported as "Company name
      already exists". Never a 404 or 500. */
  function CreateCompany(db: Db, body: Payload, newId: ObjectId): (r: Reply<Company>)
    ensures r.response.status == 201 || r.response.status == 400
    ensures r.response.status == 201 <==>
      && CompanyModel.Build(body, db.clock).Ok? && db.up && newId !in db.companies
      && !Held(db.companies, CompanyName, CompanyModel.Build(body, db.clock).value.name, None)
    ensures r.response.status == 201 ==>
      && r.response.body == Created(newId)
      && r.db == db.(companies := db.companies[newId := CompanyModel.Build(body, db.clock).value], clock := db.clock + 1)
    ensures r.response.status == 400 ==> r.db == db
    ensures CompanyModel.Build(body, db.clock).Fail? ==>
      r.response.body == Error(Invalid(CompanyModel.Model, CompanyModel.CreateErrors(body)))
    ensures CompanyModel.Build(body, db.clock).Ok? && !db.up ==> r.response.body == Error(DriverText)
    ensures CompanyModel.Build(body, db.clock).Ok? && db.up
      && Held(db.companies, CompanyName, CompanyModel.Build(body, db.clock).value.name, None)
      ==> r.response.body == Error(Says(NameExists))
  {
    match CreateCompanyTry(db, body, newId)
    case Ok(next) => Reply(next, Response(201, Created(newId)))
    case Fail(err) => CatchWrite(db, err, None, Some(NameExists), false)
  }

  /** The try-block of `updateCompany`: load the company, look for another
      holder of a new name, then write the update. */
  function UpdateCompanyTry(db: Db, id: string, body: Payload): Try<Reply<Company>> {
    var found :- FindById(db.up, db.companies, id);
    if found.None? then Ok(Refuse(db, 404, NotFound))
    else
      var current := found.value;
      var taken :- if Renames(body, "name", current.doc.name)
                   then FindOneByText(db.up, db.companies, CompanyName, "name", body["name"])
                   else Ok(false);
      if taken then Ok(Refuse(db, 400, NameExists))
      else
        var next :- CompanyModel.Patch(current.doc, body);
        if Held(db.companies, CompanyName, next.name, Some(current.id)) then Fail(DuplicateKey)
        else Ok(Reply(db.(companies := db.companies[current.id := next]), Response(204, Empty)))
  }

  /** The rename pre-check of `updateCompany` finds no company holding the
      new name. */
  predicate NameFree(db: Db, body: Payload, current: Company) {
    || !Renames(body, "name", current.name)
    || FindOneByText(db.up, db.companies, CompanyName, "name", body["name"]) == Ok(false)
  }

  /** Every check of `updateCompany` passes: the id names a company, a new
      name is free, the update validators pass and the name index accepts
      the result. */
  predicate UpdateAccepted(db: Db, id: string, body: Payload) {
    && Parse(id).Oid? && db.up && Parse(id).key in db.companies
    && NameFree(db, body, db.companies[Parse(id).key])
    && CompanyModel.UpdateCastFailure(body).None? && CompanyModel.UpdateErrors(body) == []
    && !Held(db.companies, CompanyName, CompanyModel.Patch(db.companies[Parse(id).key], body).value.name,
             Some(Parse(id).key))
  }

  /** `updateCompany`: a 204 only when every check passes, and then that one
      company is patched and nothing else changes. Every other answer is a
      400 or a 404 and leaves the store as it was. */
  function UpdateCompany(db: Db, id: string, body: Payload): (r: Reply<Company>)
    ensures r.response.status in {204, 400, 404}
    ensures r.response.status != 204 ==> r.db == db
    ensures r.response.status == 204 ==> UpdateAccepted(db, id, body)
    ensures r.response.status == 204 ==>
      && r.response.body == Empty
      && r.db == db.(companies := db.companies[Parse(id).key := CompanyModel.Patch(db.companies[Parse(id).key], body).value])
  {
    match UpdateCompanyTry(db, id, body)
    case Ok(reply) => reply
    case Fail(err) => CatchWrite(db, err, Some(NotFound), Some(NameExists), false)
  }

  /** For an existing company whose new name, if any, is free, a supplied
      value that cannot be cast makes the update throw a CastError, which
      this handler reports as its 404. */
  lemma UpdateCompanyUncastable(db: Db, id: string, body: Payload)
    requires Parse(id).Oid? && db.up && Parse(id).key in db.companies
    requires NameFree(db, body, db.companies[Parse(id).key])
    requires CompanyModel.UpdateCastFailure(body).Some?
    ensures UpdateCompany(db, id, body) == Refuse(db, 404, NotFound)
  {
  }

  /** When every check passes, the update is made. */
  lemma UpdateCompanyAccepted(db: Db, id: string, body: Payload)
    requires UpdateAccepted(db, id, body)
    ensures UpdateCompany(db, id, body).response.status == 204
  {
  }

  /** A malformed or unknown id is the 404 "Company not found"; an
      unreachable store is a 400 carrying the driver's message. */
  lemma UpdateCompanyLookup(db: Db, id: string, body: Payload)
    ensures Parse(id).Malformed? ==> UpdateCompany(db, id, body) == Refuse(db, 404, NotFound)
    ensures Parse(id).Oid? && !db.up ==> UpdateCompany(db, id, body) == Reply(db, Response(400, Error(DriverText)))
    ensures Parse(id).Oid? && db.up && Parse(id).key !in db.companies
      ==> UpdateCompany(db, id, body) == Refuse(db, 404, NotFound)
  {
  }

  /** A new name some company holds after trimming, the company itself
      included, is refused before the update runs. */
  lemma UpdateCompanyNameTaken(db: Db, id: string, body: Payload)
    requires Parse(id).Oid? && db.up && Parse(id).key in db.companies
    requires Renames(body, "name", db.companies[Parse(id).key].name) && body["name"].Str?
    requires Held(db.companies, CompanyName, Text.Trim(body["name"].s), None)
    ensures UpdateCompany(db, id, body) == Refuse(db, 400, NameExists)
  {
  }

  /** Some contact references the company: `Contact.exists({ company })`. */
  predicate Referenced(contacts: map<ObjectId, ContactModel.Contact>, key: ObjectId) {
    exists k :: k in contacts && contacts[k].company == key
  }

  /** The try-block of `deleteCompany`: refuse while a contact references
      the company, then delete it. */
  function DeleteCompanyTry(db: Db, id: string): Try<Reply<Company>> {
    var key :- if Parse(id).Oid? then Ok(Parse(id).key) else Fail(CastError("company"));
    var _ :- Reach(db.up);
    if Referenced(db.contacts, key) then Ok(Refuse(db, 400, HasContacts))
    else
      var deleted :- FindByIdAndDelete(db.up, db.companies, id);
      if !deleted.1 then Ok(Refuse(db, 404, NotFound))
      else Ok(Reply(db.(companies := deleted.0), Response(204, Empty)))
  }

  /** `deleteCompany`: blocked with a 400 while any contact references the
      company, and only contacts count; otherwise the company is removed
      (204), or the id is malformed or unknown (404). */
  function DeleteCompany(db: Db, id: string): (r: Reply<Company>)
    ensures Parse(id).Malformed? ==> r == Refuse(db, 404, NotFound)
    ensures Parse(id).Oid? && !db.up ==> r == Refuse(db, 500, ServerError)
    ensures Parse(id).Oid? && db.up && Referenced(db.contacts, Parse(id).key) ==> r == Refuse(db, 400, HasContacts)
    ensures Parse(id).Oid? && db.up && !Referenced(db.contacts, Parse(id).key) && Parse(id).key !in db.companies
      ==> r == Refuse(db, 404, NotFound)
    ensures Parse(id).Oid? && db.up && !Referenced(db.contacts, Parse(id).key) && Parse(id).key in db.companies
      ==> r == Reply(db.(companies := db.companies - {Parse(id).key}), Response(204, Empty))
  {
    match DeleteCompanyTry(db, id)
    case Ok(reply) => reply
    case Fail(err) => CatchLookup(db, err, NotFound)
  }
}
