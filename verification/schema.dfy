/** The pieces of Mongoose's schema machinery the four models use: casting a
    JSON value to a path's type, the `trim` and `lowercase` setters, and the
    `required`, `match`, `maxlength`, `min` and `max` validators. Each model
    module combines them path by path. */
module Schema {
  import opened Optional
  import opened Json
  import opened Failures
  import Text
  import Ids

  /** A path's value after casting: left unset (undefined or null), set, or
      impossible to cast. */
  datatype Cast<+T> = Unset | Set(value: T) | Bad {
    /** The value for an optional path: `None` when unset. */
    function Stored(): Option<T>
      requires !Bad?
    {
      if Set? then Some(value) else None
    }
  }

  /** The `trim` setter, then the `lowercase` setter, as a path declares them. */
  function Setters(s: string, trim: bool, lower: bool): (r: string)
    ensures trim ==> Text.IsTrimmed(r)
    ensures lower ==> Text.IsLower(r)
    ensures !trim && !lower ==> r == s
  {
    var t := if trim then Text.Trim(s) else s;
    if lower then
      assert trim ==> Text.IsTrimmed(Text.Lower(t)) by {
        if trim {
          Text.LowerKeepsTrimmed(t);
        }
      }
      Text.Lower(t)
    else t
  }

  /** A String path: text is kept, numbers and booleans are rendered as text,
      null leaves the path unset, and objects or arrays cannot be cast. */
  function AsText(v: Value, trim: bool, lower: bool): (r: Cast<string>)
    ensures v.Null? <==> r.Unset?
    ensures v.Compound? <==> r.Bad?
    ensures v.Str? ==> r == Set(Setters(v.s, trim, lower))
    ensures r.Set? && trim ==> Text.IsTrimmed(r.value)
    ensures r.Set? && lower ==> Text.IsLower(r.value)
  {
    match v
    case Str(s) => Set(Setters(s, trim, lower))
    case Num(n) => Set(Setters(Text.IntText(n), trim, lower))
    case Bool(b) => Set(Setters(if b then "true" else "false", trim, lower))
    case Null => Unset
    case Compound => Bad
  }

  /** A Number path: numbers are kept, booleans become 1 or 0, "" and null
      leave the path unset, and other text is converted as `Number(text)`
      converts it. */
  function AsNumber(v: Value): (r: Cast<int>)
    ensures v.Num? ==> r == Set(v.n)
    ensures v.Null? || v == Str("") ==> r.Unset?
    ensures v.Compound? ==> r.Bad?
  {
    match v
    case Num(n) => Set(n)
    case Bool(b) => Set(if b then 1 else 0)
    case Str(s) =>
      if s == "" then Unset
      else (match Text.ParseInt(s) case Some(n) => Set(n) case None => Bad)
    case Null => Unset
    case Compound => Bad
  }

  /** A Boolean path: true, 'true', 1, '1' and 'yes' are true; false,
      'false', 0, '0' and 'no' are false; null leaves it unset. */
  function AsBool(v: Value): (r: Cast<bool>)
    ensures v.Bool? ==> r == Set(v.b)
    ensures v.Null? <==> r.Unset?
  {
    match v
    case Bool(b) => Set(b)
    case Str(s) =>
      if s == "true" || s == "1" || s == "yes" then Set(true)
      else if s == "false" || s == "0" || s == "no" then Set(false)
      else Bad
    case Num(n) => if n == 1 then Set(true) else if n == 0 then Set(false) else Bad
    case Null => Unset
    case Compound => Bad
  }

  /** A Date path, dates being milliseconds since the epoch: a number is the
      date itself, "" and null leave the path unset, and other text is read
      by `dateOf`, which stands for JavaScript's date parsing. */
  function AsDate(v: Value, dateOf: string -> Option<int>): (r: Cast<int>)
    ensures v.Num? ==> r == Set(v.n)
    ensures v.Null? || v == Str("") ==> r.Unset?
    ensures v.Bool? || v.Compound? ==> r.Bad?
  {
    match v
    case Num(n) => Set(n)
    case Str(s) =>
      if s == "" then Unset
      else (match dateOf(s) case Some(t) => Set(t) case None => Bad)
    case Null => Unset
    case Bool(_) => Bad
    case Compound => Bad
  }

  /** An ObjectId path: text naming an id is that id, null leaves the path
      unset, anything else cannot be cast. */
  function AsRef(v: Value): (r: Cast<Ids.ObjectId>)
    ensures r.Set? <==> v.Str? && Ids.Parse(v.s).Oid?
    ensures r.Set? ==> r.value == Ids.Parse(v.s).key
    ensures r.Unset? <==> v.Null?
  {
    match v
    case Str(s) => (match Ids.Parse(s) case Oid(k) => Set(k) case Malformed => Bad)
    case Null => Unset
    case _ => Bad
  }

  /** The cast value of `body[path]` for each path type, unset when the
      body has no such field. */
  function ReadText(body: Payload, path: string, trim: bool, lower: bool): (r: Cast<string>)
    ensures path !in body ==> r.Unset?
    ensures path in body ==> r == AsText(body[path], trim, lower)
  {
    if path in body then AsText(body[path], trim, lower) else Unset
  }

  /** Reading back a stored, already trimmed (and lower-cased) string gives
      that string. */
  lemma ReadStoredText(body: Payload, path: string, s: string, lower: bool)
    requires path in body && body[path] == Str(s)
    requires Text.IsTrimmed(s) && (lower ==> Text.IsLower(s))
    ensures ReadText(body, path, true, lower) == Set(s)
  {
    Text.TrimOfTrimmed(s);
    if lower {
      Text.LowerOfLower(s);
    }
  }

  function ReadNumber(body: Payload, path: string): (r: Cast<int>)
    ensures path !in body ==> r.Unset?
    ensures path in body ==> r == AsNumber(body[path])
  {
    if path in body then AsNumber(body[path]) else Unset
  }

  function ReadBool(body: Payload, path: string): (r: Cast<bool>)
    ensures path !in body ==> r.Unset?
    ensures path in body ==> r == AsBool(body[path])
  {
    if path in body then AsBool(body[path]) else Unset
  }

  function ReadDate(body: Payload, path: string, dateOf: string -> Option<int>): (r: Cast<int>)
    ensures path !in body ==> r.Unset?
    ensures path in body ==> r == AsDate(body[path], dateOf)
  {
    if path in body then AsDate(body[path], dateOf) else Unset
  }

  function ReadRef(body: Payload, path: string): (r: Cast<Ids.ObjectId>)
    ensures path !in body ==> r.Unset?
    ensures path in body ==> r == AsRef(body[path])
  {
    if path in body then AsRef(body[path]) else Unset
  }

  /** Reading back a stored id gives that id. */
  lemma ReadStoredRef(body: Payload, path: string, k: Ids.ObjectId)
    requires path in body && body[path] == Str(k)
    ensures ReadRef(body, path) == Set(k)
  {
    Ids.ParseKey(k);
  }

  /** The regular expressions the schemas attach with `match`. */
  datatype Pattern = AnyText | EmailPattern | PhonePattern | UrlPattern

  predicate Matches(p: Pattern, s: string) {
    match p
    case AnyText => true
    case EmailPattern => Text.IsEmail(s)
    case PhonePattern => Text.IsPhone(s)
    case UrlPattern => Text.IsUrl(s)
  }

  datatype TextRule = TextRule(required: bool, pattern: Pattern, maxLength: Option<nat>)

  /** Rules shared by several models. */
  const RequiredText := TextRule(true, AnyText, None)
  const EmailRule := TextRule(true, EmailPattern, None)
  const PhoneRule := TextRule(true, PhonePattern, None)

  /** What a stored string satisfies under its path's validators: non-empty
      when required, matching the pattern unless empty (the `match`
      validator passes ""), and within the maximum length. */
  predicate Conforms(s: string, rule: TextRule) {
    && (rule.required ==> s != "")
    && (s != "" ==> Matches(rule.pattern, s))
    && (rule.maxLength.Some? ==> |s| <= rule.maxLength.value)
  }

  /** A stored value of a trimmed String path. */
  predicate Fits(s: string, rule: TextRule) {
    Conforms(s, rule) && Text.IsTrimmed(s)
  }

  /** The first validator of a String path that fails, in the order the
      schema declares them: required, then match, then maxlength. */
  function TextErrors(path: string, c: Cast<string>, rule: TextRule): (r: seq<FieldError>)
    ensures |r| <= 1 && (r != [] ==> r[0].path == path)
    ensures r == [] <==> (c.Unset? && !rule.required) || (c.Set? && Conforms(c.value, rule))
    ensures c.Bad? ==> r == [FieldError(path, Uncastable)]
    ensures r != [] ==> (r[0].violation == Uncastable <==> c.Bad?)
    ensures rule.required && (c.Unset? || c == Set("")) ==> r == [FieldError(path, Required)]
  {
    match c
    case Bad => [FieldError(path, Uncastable)]
    case Unset => if rule.required then [FieldError(path, Required)] else []
    case Set(s) =>
      if rule.required && s == "" then [FieldError(path, Required)]
      else if s != "" && !Matches(rule.pattern, s) then [FieldError(path, Mismatch)]
      else if rule.maxLength.Some? && |s| > rule.maxLength.value then [FieldError(path, TooLong(rule.maxLength.value))]
      else []
  }

  datatype NumberRule = NumberRule(required: bool, min: Option<int>, max: Option<int>)

  predicate InRange(n: int, rule: NumberRule) {
    && (rule.min.Some? ==> rule.min.value <= n)
    && (rule.max.Some? ==> n <= rule.max.value)
  }

  /** The first validator of a Number path that fails: required, then min,
      then max. */
  function NumberErrors(path: string, c: Cast<int>, rule: NumberRule): (r: seq<FieldError>)
    ensures |r| <= 1 && (r != [] ==> r[0].path == path)
    ensures r == [] <==> (c.Unset? && !rule.required) || (c.Set? && InRange(c.value, rule))
    ensures c.Bad? ==> r == [FieldError(path, Uncastable)]
    ensures r != [] ==> (r[0].violation == Uncastable <==> c.Bad?)
  {
    match c
    case Bad => [FieldError(path, Uncastable)]
    case Unset => if rule.required then [FieldError(path, Required)] else []
    case Set(n) =>
      if rule.min.Some? && n < rule.min.value then [FieldError(path, TooSmall(rule.min.value))]
      else if rule.max.Some? && n > rule.max.value then [FieldError(path, TooLarge(rule.max.value))]
      else []
  }

  /** Paths whose only validator is `required` (dates, references, booleans). */
  function PresenceErrors<T>(path: string, c: Cast<T>, required: bool): (r: seq<FieldError>)
    ensures |r| <= 1 && (r != [] ==> r[0].path == path)
    ensures r == [] <==> c.Set? || (c.Unset? && !required)
    ensures c.Bad? ==> r == [FieldError(path, Uncastable)]
    ensures r != [] ==> (r[0].violation == Uncastable <==> c.Bad?)
  {
    match c
    case Bad => [FieldError(path, Uncastable)]
    case Unset => if required then [FieldError(path, Required)] else []
    case Set(_) => []
  }

  /** Update validators run only on the paths an update supplies. */
  function IfSupplied(body: Payload, path: string, errors: seq<FieldError>): (r: seq<FieldError>)
    ensures path in body ==> r == errors
    ensures path !in body ==> r == []
  {
    if path in body then errors else []
  }

  /** No error of the list is an uncastable value. */
  predicate CastsCleanly(errors: seq<FieldError>) {
    errors == [] || (errors[0].violation != Uncastable && CastsCleanly(errors[1..]))
  }

  /** The cast step of `findByIdAndUpdate`, which runs before the update
      validators: a supplied path whose value cannot be cast makes the query
      throw a CastError for that path. Mongoose gathers such failures into a
      ValidationError only under the `multipleCastError` option, which no
      controller sets. */
  function CastUpdate(failure: Option<string>): (r: Try<()>)
    ensures r.Fail? <==> failure.Some?
    ensures r.Fail? ==> r.error == CastError(failure.value)
  {
    match failure
    case None => Ok(())
    case Some(path) => Fail(CastError(path))
  }

  /** One path's update validator errors, as the cast step sees them: they
      report an uncastable value exactly when the supplied value cannot be
      cast. */
  lemma SuppliedCast<T>(body: Payload, path: string, c: Cast<T>, errors: seq<FieldError>)
    requires c.Bad? ==> path in body && errors == [FieldError(path, Uncastable)]
    requires |errors| <= 1 && (errors != [] ==> (errors[0].violation == Uncastable <==> c.Bad?))
    ensures CastsCleanly(IfSupplied(body, path, errors)) <==> !c.Bad?
    ensures c.Bad? ==> FieldError(path, Uncastable) in IfSupplied(body, path, errors)
  {
  }

  lemma {:induction false} CastsCleanlyAppend(a: seq<FieldError>, b: seq<FieldError>)
    ensures CastsCleanly(a + b) <==> CastsCleanly(a) && CastsCleanly(b)
  {
    if a == [] {
      assert a + b == b;
    } else {
      assert (a + b)[1..] == a[1..] + b;
      CastsCleanlyAppend(a[1..], b);
    }
  }

  /** A list holding an uncastable error does not cast cleanly. */
  lemma {:induction false} UncastableNotClean(errors: seq<FieldError>, e: FieldError)
    requires e in errors && e.violation == Uncastable
    ensures !CastsCleanly(errors)
  {
    if errors[0] != e {
      UncastableNotClean(errors[1..], e);
    }
  }
}
