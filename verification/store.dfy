/** The document store the controllers talk to: the four collections, a
    clock that stamps `createdAt`, and whether the store can be reached.
    The queries here are the Mongoose calls the controllers make, each with
    its two ways to throw: the cast of a filter value (a CastError, before
    any round trip) and a failed round trip. */
module Store {
  import opened Optional
  import opened Json
  import opened Failures
  import opened Ids
  import opened Listing
  import Schema
  import CompanyModel
  import ContactModel
  import ProjectModel
  import ReviewModel

  datatype Db = Db(
    companies: map<ObjectId, CompanyModel.Company>,
    contacts: map<ObjectId, ContactModel.Contact>,
    projects: map<ObjectId, ProjectModel.Project>,
    reviews: map<ObjectId, ReviewModel.Review>,
    clock: nat,       // the `createdAt` the next insert gets
    up: bool)         // false: every round trip fails

  /** The `_id` a path parameter names, or the CastError its cast throws. */
  function CastId(id: string): (r: Try<ObjectId>)
    ensures r.Ok? <==> Parse(id).Oid?
    ensures r.Ok? ==> r.value == Parse(id).key
    ensures r.Fail? ==> r.error == CastError("_id")
  {
    match Parse(id)
    case Oid(k) => Ok(k)
    case Malformed => Fail(CastError("_id"))
  }

  /** A round trip: fails when the store cannot be reached. */
  function Reach(up: bool): (r: Try<()>)
    ensures r.Ok? <==> up
    ensures r.Fail? ==> r.error == StoreDown
  {
    if up then Ok(()) else Fail(StoreDown)
  }

  /** `Model.findById(id)`: the document with its id, or none when no
      document has the id. */
  function FindById<T>(up: bool, docs: map<ObjectId, T>, id: string): (r: Try<Option<Entry<T>>>)
    ensures r.Ok? <==> Parse(id).Oid? && up
    ensures Parse(id).Malformed? ==> r == Fail(CastError("_id"))
    ensures Parse(id).Oid? && !up ==> r == Fail(StoreDown)
    ensures r.Ok? ==> (r.value.Some? <==> Parse(id).key in docs)
    ensures r.Ok? && r.value.Some? ==> r.value.value == Entry(Parse(id).key, docs[Parse(id).key])
  {
    var k :- CastId(id);
    var _ :- Reach(up);
    Ok(if k in docs then Some(Entry(k, docs[k])) else None)
  }

  /** `Model.findByIdAndDelete(id)`: the collection without the document, and
      whether there was one. */
  function FindByIdAndDelete<T>(up: bool, docs: map<ObjectId, T>, id: string): (r: Try<(map<ObjectId, T>, bool)>)
    ensures r.Ok? <==> Parse(id).Oid? && up
    ensures Parse(id).Malformed? ==> r == Fail(CastError("_id"))
    ensures Parse(id).Oid? && !up ==> r == Fail(StoreDown)
    ensures r.Ok? ==> (r.value.1 <==> Parse(id).key in docs)
    ensures r.Ok? ==> r.value.0 == docs - {Parse(id).key}
  {
    var k :- CastId(id);
    var _ :- Reach(up);
    Ok((docs - {k}, k in docs))
  }

  /** `Model.exists({ _id: v })` for a value taken from a request body. */
  function ExistsById<T>(up: bool, docs: map<ObjectId, T>, v: Value): (r: Try<bool>)
    ensures Schema.AsRef(v).Bad? ==> r == Fail(CastError("_id"))
    ensures !Schema.AsRef(v).Bad? ==> (r.Ok? <==> up)
    ensures !Schema.AsRef(v).Bad? && !up ==> r == Fail(StoreDown)
    ensures r.Ok? ==> (r.value <==> Schema.AsRef(v).Set? && Schema.AsRef(v).value in docs)
  {
    match Schema.AsRef(v)
    case Bad => Fail(CastError("_id"))
    case Unset => var _ :- Reach(up); Ok(false)
    case Set(k) => var _ :- Reach(up); Ok(k in docs)
  }

  /** `Model.findOne({ [path]: v })` on a trimmed String path, reduced to
      whether a document matches: the filter value is cast and trimmed like
      the path itself. */
  function FindOneByText<T>(up: bool, docs: map<ObjectId, T>, field: T -> string, path: string, v: Value)
    : (r: Try<bool>)
    ensures Schema.AsText(v, true, false).Bad? ==> r == Fail(CastError(path))
    ensures !Schema.AsText(v, true, false).Bad? ==> (r.Ok? <==> up)
    ensures !Schema.AsText(v, true, false).Bad? && !up ==> r == Fail(StoreDown)
    ensures r.Ok? ==> (r.value <==> Schema.AsText(v, true, false).Set?
                                    && Held(docs, field, Schema.AsText(v, true, false).value, None))
  {
    match Schema.AsText(v, true, false)
    case Bad => Fail(CastError(path))
    case Unset => var _ :- Reach(up); Ok(false)
    case Set(s) => var _ :- Reach(up); Ok(Held(docs, field, s, None))
  }

  /** `body[path] && body[path] !== current`: the body asks to change a
      unique field to something other than the very string it holds. */
  predicate Renames(body: Payload, path: string, current: string) {
    !Absent(body, path) && body[path] != Str(current)
  }

  /** Some document other than `except` has `value` in the unique field:
      what a unique index rejects. */
  predicate Held<T>(docs: map<ObjectId, T>, field: T -> string, value: string, except: Option<ObjectId>) {
    exists k :: k in docs && Some(k) != except && field(docs[k]) == value
  }

  /** The unique fields: `Company.name`, `Contact.email`, `Project.title`. */
  function CompanyName(c: CompanyModel.Company): string { c.name }
  function ContactEmail(c: ContactModel.Contact): string { c.email }
  function ProjectTitle(p: ProjectModel.Project): string { p.title }

  /** No two documents share a value of the field. */
  ghost predicate UniqueBy<T>(docs: map<ObjectId, T>, field: T -> string) {
    forall j, k :: j in docs && k in docs && j != k ==> field(docs[j]) != field(docs[k])
  }

  /** The unique indexes of all three collections hold. */
  ghost predicate Indexed(db: Db) {
    && UniqueBy(db.companies, CompanyName)
    && UniqueBy(db.contacts, ContactEmail)
    && UniqueBy(db.projects, ProjectTitle)
  }

  /** Adding a document whose unique field no document holds keeps the
      index, and so does overwriting a document with a value no other
      document holds. */
  lemma UniqueByPut<T>(docs: map<ObjectId, T>, field: T -> string, k: ObjectId, doc: T)
    requires UniqueBy(docs, field) && !Held(docs, field, field(doc), Some(k))
    ensures UniqueBy(docs[k := doc], field)
  {
  }
}
