/** `ensureCompany`, `ensureCompanyExists` and `ensureContactExists`: a
    reference in a request body must name an existing document. A missing
    target is the client's error (400), unlike a missing primary document,
    which is a 404. */
module References {
  import opened Json
  import opened Failures
  import opened Ids
  import opened Store
  import Schema

  const CompanyNotFound := "Company not found"
  const ContactNotFound := "Contact not found"

  /** `Model.exists({ _id: v })`, then a 400 error when nothing matched. A
      value that is not an id throws the query's CastError instead, and an
      unreachable store throws its own error. */
  function Ensure<T>(up: bool, docs: map<ObjectId, T>, v: Value, notFound: string): (r: Try<()>)
    ensures r.Ok? <==> up && Schema.AsRef(v).Set? && Schema.AsRef(v).value in docs
    ensures Schema.AsRef(v).Bad? ==> r == Fail(CastError("_id"))
    ensures !Schema.AsRef(v).Bad? && !up ==> r == Fail(StoreDown)
    ensures !Schema.AsRef(v).Bad? && up && r.Fail? ==> r.error == AppError(400, notFound)
  {
    var found :- ExistsById(up, docs, v);
    if found then Ok(()) else Fail(AppError(400, notFound))
  }

  /** `ensureCompany` (contacts) and `ensureCompanyExists` (projects,
      reviews): passing means the store is reachable and the value is the
      text of an existing company's id; for a well-formed id on a reachable
      store, a missing company is the 400 "Company not found". */
  function EnsureCompany(db: Db, v: Value): (r: Try<()>)
    ensures r.Ok? ==> db.up && v.Str? && Parse(v.s).Oid? && Parse(v.s).key in db.companies
    ensures db.up && v.Str? && Parse(v.s).Oid? ==> (r.Ok? <==> Parse(v.s).key in db.companies)
    ensures db.up && v.Str? && Parse(v.s).Oid? && r.Fail? ==> r.error == AppError(400, CompanyNotFound)
  {
    Ensure(db.up, db.companies, v, CompanyNotFound)
  }

  /** `ensureContactExists` (projects, reviews): the same for contacts, with
      the 400 "Contact not found". */
  function EnsureContact(db: Db, v: Value): (r: Try<()>)
    ensures r.Ok? ==> db.up && v.Str? && Parse(v.s).Oid? && Parse(v.s).key in db.contacts
    ensures db.up && v.Str? && Parse(v.s).Oid? ==> (r.Ok? <==> Parse(v.s).key in db.contacts)
    ensures db.up && v.Str? && Parse(v.s).Oid? && r.Fail? ==> r.error == AppError(400, ContactNotFound)
  {
    Ensure(db.up, db.contacts, v, ContactNotFound)
  }

  /** A truthy `company` in a body names an existing company: what the
      update handlers check before they write. */
  predicate CompanyChecked(db: Db, body: Payload) {
    Absent(body, "company") || EnsureCompany(db, body["company"]).Ok?
  }
}
