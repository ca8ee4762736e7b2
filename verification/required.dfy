/** `validateFields`: the fields of `REQUIRED_FIELDS` a body leaves falsy,
    reported together, in declaration order, before anything else runs. */
module Required {
  import opened Json
  import opened Failures
  import Text

  /** `REQUIRED_FIELDS.filter(field => !body[field])` */
  function Missing(fields: seq<string>, body: Payload): (r: seq<string>)
    ensures |r| <= |fields|
    ensures forall f :: f in r <==> f in fields && Absent(body, f)
  {
    if fields == [] then []
    else if Absent(body, fields[0]) then [fields[0]] + Missing(fields[1..], body)
    else Missing(fields[1..], body)
  }

  /** `a` is `b` with some elements left out, the rest in order. */
  predicate Subsequence(a: seq<string>, b: seq<string>) {
    || a == []
    || (b != [] && ((a[0] == b[0] && Subsequence(a[1..], b[1..])) || Subsequence(a, b[1..])))
  }

  /** The missing fields come in declaration order. */
  lemma {:induction false} MissingInOrder(fields: seq<string>, body: Payload)
    ensures Subsequence(Missing(fields, body), fields)
  {
    if fields != [] {
      MissingInOrder(fields[1..], body);
      var rest := Missing(fields[1..], body);
      if Absent(body, fields[0]) {
        assert ([fields[0]] + rest)[1..] == rest;
      }
    }
  }

  /** The error message: "Missing required fields: " and the names joined by
      ", ". */
  function MissingMessage(missing: seq<string>): string {
    "Missing required fields: " + Text.Join(missing, ", ")
  }

  /** `validateFields(body)`: passes iff every required field is truthy;
      otherwise throws a 400 error naming every missing field. */
  function Validate(fields: seq<string>, body: Payload): (r: Try<()>)
    ensures r.Ok? <==> forall i :: 0 <= i < |fields| ==> !Absent(body, fields[i])
    ensures r.Fail? ==> r.error == AppError(400, MissingMessage(Missing(fields, body)))
  {
    var missing := Missing(fields, body);
    if missing != [] then
      assert missing[0] in missing;
      Fail(AppError(400, MissingMessage(missing)))
    else
      assert forall i :: 0 <= i < |fields| ==> !Absent(body, fields[i]) by {
        forall i | 0 <= i < |fields| ensures !Absent(body, fields[i]) {
          assert fields[i] in fields;
        }
      }
      Ok(())
  }
}
