/** MongoDB ObjectIds: 24 hexadecimal digits. A path parameter or reference
    value that is not one makes Mongoose throw a CastError, which the model
    represents as the `Malformed` id. */
module Ids {
  import Text

  predicate IsHexDigit(c: char) {
    ('0' <= c <= '9') || ('a' <= c <= 'f') || ('A' <= c <= 'F')
  }

  predicate IsKey(s: string) {
    |s| == 24 && forall i :: 0 <= i < |s| ==> ('0' <= s[i] <= '9') || ('a' <= s[i] <= 'f')
  }

  /** An ObjectId in its canonical lower-case hexadecimal form. */
  type ObjectId = s: string | IsKey(s) witness "000000000000000000000000"

  datatype Id = Malformed | Oid(key: ObjectId)

  /** Casting text to an ObjectId: 24 hex digits in either case name the id
      spelled by their lower-case form; anything else is malformed. */
  function Parse(s: string): (r: Id)
    ensures r.Oid? <==> |s| == 24 && forall i :: 0 <= i < |s| ==> IsHexDigit(s[i])
    ensures r.Oid? ==> r.key == Text.Lower(s)
  {
    if |s| == 24 && forall i :: 0 <= i < |s| ==> IsHexDigit(s[i]) then
      var t := Text.Lower(s);
      assert IsKey(t) by {
        forall i | 0 <= i < |t| ensures ('0' <= t[i] <= '9') || ('a' <= t[i] <= 'f') {
          assert t[i] == Text.LowerChar(s[i]);
        }
      }
      Oid(t)
    else Malformed
  }

  /** The canonical text of an id parses back to that id. */
  lemma ParseKey(k: ObjectId)
    ensures Parse(k) == Oid(k)
  {
    assert Text.IsLower(k);
    Text.LowerOfLower(k);
  }
}
