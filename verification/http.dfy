/** What a handler sends: a status and a JSON body, together with the store
    as the handler leaves it. The catch-blocks of the controllers, which turn
    a thrown error into a response, live here. */
module Http {
  import opened Optional
  import opened Failures
  import opened Ids
  import opened Store
  import opened Listing

  datatype Body<+T> =
    | Empty                        // `send()`: 204
    | Created(id: ObjectId)        // `{ _id }`: 201
    | Error(message: Message)      // `{ error }`
    | One(entry: Entry<T>)         // one document
    | Many(entries: seq<Entry<T>>) // a listing

  datatype Response<+T> = Response(status: int, body: Body<T>)

  datatype Reply<+T> = Reply(db: Db, response: Response<T>)

  const ServerError := "Server error"

  /** An error response with one of the controllers' fixed messages. */
  function Refuse<T>(db: Db, status: int, text: string): (r: Reply<T>)
    ensures r.db == db && r.response == Response(status, Error(Says(text)))
  {
    Reply(db, Response(status, Error(Says(text))))
  }

  /** The catch of the list handlers: every error is a 500. */
  function CatchList<T>(db: Db, err: Thrown): (r: Reply<T>)
    ensures r == Refuse(db, 500, ServerError)
  {
    Refuse(db, 500, ServerError)
  }

  /** The catch of the get-by-id and delete handlers: a CastError is the
      missing document's 404, anything else a 500. */
  function CatchLookup<T>(db: Db, err: Thrown, notFound: string): (r: Reply<T>)
    ensures r.db == db
    ensures r.response.status == 404 <==> err.IsCastError()
    ensures r.response.status != 404 ==> r.response == Response(500, Error(Says(ServerError)))
    ensures r.response.status == 404 ==> r.response.body == Error(Says(notFound))
  {
    if err.IsCastError() then Refuse(db, 404, notFound) else Refuse(db, 500, ServerError)
  }

  /** The catch of the create and update handlers. When `notFound` is given
      a CastError is that 404; when `duplicate` is given an E11000 error is a
      400 with that message; any other error is answered with its own
      message and, when `useStatusCode` holds, `err.statusCode || 400`,
      otherwise 400. */
  function CatchWrite<T>(db: Db, err: Thrown, notFound: Option<string>, duplicate: Option<string>, useStatusCode: bool)
    : (r: Reply<T>)
    ensures r.db == db && r.response.body.Error?
    ensures notFound.Some? && err.IsCastError() ==> r.response == Response(404, Error(Says(notFound.value)))
    ensures !(notFound.Some? && err.IsCastError()) && duplicate.Some? && err.IsDuplicateKey()
      ==> r.response == Response(400, Error(Says(duplicate.value)))
    ensures !(notFound.Some? && err.IsCastError()) && !(duplicate.Some? && err.IsDuplicateKey())
      ==> r.response == Response(if useStatusCode then err.StatusOr400() else 400, Error(err.Message()))
  {
    if notFound.Some? && err.IsCastError() then Refuse(db, 404, notFound.value)
    else if duplicate.Some? && err.IsDuplicateKey() then Refuse(db, 400, duplicate.value)
    else Reply(db, Response(if useStatusCode then err.StatusOr400() else 400, Error(err.Message())))
  }

  /** The get-by-id handlers: the document with status 200; a malformed or
      unknown id is the 404 `notFound`, never a 500; an unreachable store is
      a 500. Nothing is written. */
  function GetOne<T>(db: Db, docs: map<ObjectId, T>, id: string, notFound: string): (r: Reply<T>)
    ensures r.db == db
    ensures Parse(id).Malformed? ==> r.response == Response(404, Error(Says(notFound)))
    ensures Parse(id).Oid? && !db.up ==> r.response == Response(500, Error(Says(ServerError)))
    ensures Parse(id).Oid? && db.up && Parse(id).key !in docs ==> r.response == Response(404, Error(Says(notFound)))
    ensures Parse(id).Oid? && db.up && Parse(id).key in docs
      ==> r.response == Response(200, One(Entry(Parse(id).key, docs[Parse(id).key])))
  {
    match FindById(db.up, docs, id)
    case Ok(None) => Refuse(db, 404, notFound)
    case Ok(Some(e)) => Reply(db, Response(200, One(e)))
    case Fail(err) => CatchLookup(db, err, notFound)
  }

  /** The list handlers: every document once, in the order `le` sorts them,
      with status 200; an unreachable store is a 500. Nothing is written. */
  method GetAll<T(!new)>(db: Db, docs: map<ObjectId, T>, le: (Entry<T>, Entry<T>) -> bool) returns (r: Reply<T>)
    requires TotalPreorder(le)
    ensures r.db == db
    ensures !db.up ==> r.response == Response(500, Error(Says(ServerError)))
    ensures db.up ==> r.response.status == 200 && r.response.body.Many?
    ensures db.up ==> Lists(docs, r.response.body.entries) && Sorted(r.response.body.entries, le)
  {
    if !db.up {
      return CatchList(db, StoreDown);
    }
    var entries := Sort(docs, le);
    return Reply(db, Response(200, Many(entries)));
  }
}
