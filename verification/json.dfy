/** Request bodies as the controllers see them: parsed JSON objects whose
    fields hold JSON values, and JavaScript's truthiness on those values. */
module Json {
  import Text

  /** A JSON value. Numbers are integers here; `Compound` stands for any
      object or array, which JavaScript treats as truthy. The model takes it
      as uncastable on every scalar schema path, a simplification of
      Mongoose, whose casters accept some objects and arrays. */
  datatype Value = Str(s: string) | Num(n: int) | Bool(b: bool) | Null | Compound

  /** A request body: field name to value. A name that is not a key reads as
      `undefined`. */
  type Payload = map<string, Value>

  /** JavaScript truthiness: "", 0, false and null are falsy; every other
      value, objects and arrays included, is truthy. */
  predicate Truthy(v: Value) {
    match v
    case Str(s) => s != ""
    case Num(n) => n != 0
    case Bool(b) => b
    case Null => false
    case Compound => true
  }

  /** `!body[field]`: the field is undefined or holds a falsy value. */
  predicate Absent(body: Payload, field: string) {
    field !in body || !Truthy(body[field])
  }

  /** `body[field]` with `undefined` read as `null`, for callers that only
      go on to test truthiness or cast a truthy value. */
  function Field(body: Payload, field: string): (v: Value)
    ensures Truthy(v) <==> !Absent(body, field)
  {
    if field in body then body[field] else Null
  }

  /** `String(v)`, as a template literal or a property key renders `v`.
      Every object or array renders as "[object Object]" here, which is
      `String` of a plain object but not of an array. */
  function Render(v: Value): string {
    match v
    case Str(s) => s
    case Num(n) => Text.IntText(n)
    case Bool(b) => if b then "true" else "false"
    case Null => "null"
    case Compound => "[object Object]"
  }
}
