/** String utilities the schemas rely on: the ECMAScript whitespace set used by
    `trim()` and by `\s`, ASCII lower-casing, decimal rendering of integers, the
    three field patterns (email, phone, URL) and the code-point order MongoDB
    uses to sort strings. */
module Text {
  import opened Optional

  /** ECMAScript WhiteSpace and LineTerminator code points: exactly the set
      `String.prototype.trim` removes and the regex class `\s` matches. */
  predicate IsSpace(c: char) {
    var n := c as int;
    n == 0x09 || n == 0x0A || n == 0x0B || n == 0x0C || n == 0x0D || n == 0x20
    || n == 0xA0 || n == 0x1680 || (0x2000 <= n <= 0x200A) || n == 0x2028
    || n == 0x2029 || n == 0x202F || n == 0x205F || n == 0x3000 || n == 0xFEFF
  }

  /** The code points a regex `.` refuses to match. */
  predicate IsLineTerminator(c: char) {
    var n := c as int;
    n == 0x0A || n == 0x0D || n == 0x2028 || n == 0x2029
  }

  predicate AllSpace(s: string) {
    forall i :: 0 <= i < |s| ==> IsSpace(s[i])
  }

  /** No leading and no trailing whitespace. */
  predicate IsTrimmed(s: string) {
    s == [] || (!IsSpace(s[0]) && !IsSpace(s[|s| - 1]))
  }

  function TrimStart(s: string): (r: string)
    ensures |r| <= |s| && r == s[|s| - |r|..]
    ensures AllSpace(s[..|s| - |r|])
    ensures r == [] || !IsSpace(r[0])
  {
    if s == [] || !IsSpace(s[0]) then s else TrimStart(s[1..])
  }

  function TrimEnd(s: string): (r: string)
    ensures |r| <= |s| && r == s[..|r|]
    ensures AllSpace(s[|r|..])
    ensures r == [] || !IsSpace(r[|r| - 1])
  {
    if s == [] || !IsSpace(s[|s| - 1]) then s else TrimEnd(s[..|s| - 1])
  }

  /** Cutting trailing whitespace never touches a first character that is
      not whitespace. */
  lemma {:induction false} TrimEndKeepsHead(s: string)
    requires s != [] && !IsSpace(s[0])
    ensures TrimEnd(s) != [] && TrimEnd(s)[0] == s[0]
  {
    if !IsSpace(s[|s| - 1]) {
    } else {
      TrimEndKeepsHead(s[..|s| - 1]);
    }
  }

  /** `String.prototype.trim`. */
  function Trim(s: string): (r: string)
    ensures IsTrimmed(r) && |r| <= |s|
  {
    var t := TrimStart(s);
    if t == [] then t
    else
      TrimEndKeepsHead(t);
      TrimEnd(t)
  }

  /** What trimming removes is whitespace at the two ends and nothing else. */
  lemma TrimCutsOnlySpace(s: string)
    ensures exists pre, post :: s == pre + Trim(s) + post && AllSpace(pre) && AllSpace(post)
  {
    var t := TrimStart(s);
    var r := TrimEnd(t);
    var pre, post := s[..|s| - |t|], t[|r|..];
    assert AllSpace(pre);
    assert AllSpace(post);
    assert s == pre + r + post;
  }

  lemma {:induction false} TrimStartOfTrimmed(s: string)
    requires s == [] || !IsSpace(s[0])
    ensures TrimStart(s) == s
  {
  }

  lemma {:induction false} TrimEndOfTrimmed(s: string)
    requires s == [] || !IsSpace(s[|s| - 1])
    ensures TrimEnd(s) == s
  {
  }

  /** Trimming is idempotent: a trimmed string is its own trim. */
  lemma TrimOfTrimmed(s: string)
    requires IsTrimmed(s)
    ensures Trim(s) == s
  {
    TrimStartOfTrimmed(s);
    TrimEndOfTrimmed(s);
  }

  /** A leading space is trimmed away: `(" " + s).trim()` is `s` for a
      trimmed `s`. */
  lemma TrimOfPadded(s: string)
    requires IsTrimmed(s)
    ensures Trim(" " + s) == s
  {
    assert (" " + s)[1..] == s;
    TrimStartOfTrimmed(s);
    TrimEndOfTrimmed(s);
  }

  function LowerChar(c: char): char {
    if 'A' <= c <= 'Z' then (c as int + 32) as char else c
  }

  predicate IsLower(s: string) {
    forall i :: 0 <= i < |s| ==> !('A' <= s[i] <= 'Z')
  }

  /** `toLowerCase` restricted to the ASCII letters; every other code point is
      kept as it is. */
  function Lower(s: string): (r: string)
    ensures |r| == |s|
    ensures forall i :: 0 <= i < |s| ==> r[i] == LowerChar(s[i])
    ensures IsLower(r)
  {
    seq(|s|, i requires 0 <= i < |s| => LowerChar(s[i]))
  }

  /** Lower-casing changes only letters, so a lower-case string is fixed and
      whitespace at either end is neither added nor removed. */
  lemma LowerOfLower(s: string)
    requires IsLower(s)
    ensures Lower(s) == s
  {
  }

  lemma LowerKeepsTrimmed(s: string)
    requires IsTrimmed(s)
    ensures IsTrimmed(Lower(s))
  {
  }

  function DigitChar(d: nat): char
    requires d < 10
  {
    ('0' as int + d) as char
  }

  /** Decimal rendering of a natural number, most significant digit first. */
  function NatText(n: nat): (r: string)
    ensures |r| > 0
    ensures forall i :: 0 <= i < |r| ==> '0' <= r[i] <= '9'
  {
    if n < 10 then [DigitChar(n)] else NatText(n / 10) + [DigitChar(n % 10)]
  }

  /** `String(n)` for an integer `n`. */
  function IntText(n: int): (r: string)
    ensures |r| > 0
    ensures IsTrimmed(r) && IsLower(r)
    ensures forall i :: 0 <= i < |r| ==> r[i] == '-' || '0' <= r[i] <= '9'
  {
    if n < 0 then "-" + NatText(-n) else NatText(n)
  }

  function DigitsValue(s: string): nat
    requires forall i :: 0 <= i < |s| ==> '0' <= s[i] <= '9'
  {
    if s == [] then 0 else DigitsValue(s[..|s| - 1]) * 10 + (s[|s| - 1] as int - '0' as int)
  }

  predicate IsDigits(s: string) {
    |s| > 0 && forall i :: 0 <= i < |s| ==> '0' <= s[i] <= '9'
  }

  /** `Number(s)` restricted to integers: surrounding whitespace is ignored, a
      blank string is 0, and an optionally signed run of decimal digits is
      its value. Any other text (fractions, exponents, hex) is not a number
      here. */
  function ParseInt(s: string): Option<int> {
    var t := Trim(s);
    if t == [] then Some(0) else SignedDigits(t)
  }

  /** An optionally signed, non-empty run of decimal digits. */
  function SignedDigits(t: string): Option<int> {
    if IsDigits(t) then Some(DigitsValue(t))
    else if t == [] || |t| == 1 || !IsDigits(t[1..]) then None
    else if t[0] == '-' then Some(0 - DigitsValue(t[1..]) as int)
    else if t[0] == '+' then Some(DigitsValue(t[1..]))
    else None
  }

  lemma {:induction false} DigitsOfNat(n: nat)
    ensures DigitsValue(NatText(n)) == n
  {
    if n >= 10 {
      DigitsOfNat(n / 10);
      var t := NatText(n);
      assert t[..|t| - 1] == NatText(n / 10);
    }
  }

  lemma SignedDigitsOfNatText(n: nat)
    ensures SignedDigits(NatText(n)) == Some(n)
  {
    DigitsOfNat(n);
    assert IsDigits(NatText(n));
  }

  lemma SignedDigitsOfNegative(m: nat)
    requires m > 0
    ensures SignedDigits("-" + NatText(m)) == Some(0 - m)
  {
    var t := "-" + NatText(m);
    DigitsOfNat(m);
    assert t[1..] == NatText(m);
    assert IsDigits(t[1..]);
    assert !IsDigits(t) by { assert t[0] == '-'; }
  }

  lemma SignedDigitsOfIntText(n: int)
    ensures SignedDigits(IntText(n)) == Some(n)
  {
    if n < 0 {
      SignedDigitsOfNegative(-n);
    } else {
      SignedDigitsOfNatText(n);
    }
  }

  /** Rendering an integer and reading the text back gives the integer. */
  lemma ParseIntText(n: int)
    ensures ParseInt(IntText(n)) == Some(n)
  {
    TrimOfTrimmed(IntText(n));
    SignedDigitsOfIntText(n);
  }

  /** Neither whitespace nor '@': the regex class `[^\s@]`. */
  predicate EmailChar(c: char) {
    !IsSpace(c) && c != '@'
  }

  predicate EmailRun(s: string) {
    |s| > 0 && forall i :: 0 <= i < |s| ==> EmailChar(s[i])
  }

  /** What `/^[^\s@]+@[^\s@]+\.[^\s@]+$/` accepts, written as the regex reads:
      a run, '@', a run, '.', a run, each run non-empty and free of
      whitespace and '@'. */
  ghost predicate EmailShape(s: string) {
    exists i, j {:trigger s[i], s[j]} :: 0 < i < j < |s| - 1 && s[i] == '@' && s[j] == '.'
      && EmailRun(s[..i]) && EmailRun(s[i + 1..j]) && EmailRun(s[j + 1..])
  }

  function IndexOf(s: string, c: char): (r: nat)
    ensures r <= |s|
    ensures r < |s| ==> s[r] == c
    ensures forall k :: 0 <= k < r ==> s[k] != c
  {
    if s == [] then 0 else if s[0] == c then 0 else 1 + IndexOf(s[1..], c)
  }

  /** The email matcher: no whitespace anywhere, exactly one '@' which is not
      the first character, and some '.' after it that is neither right after
      the '@' nor the last character. */
  predicate IsEmail(s: string) {
    var at := IndexOf(s, '@');
    && (forall k :: 0 <= k < |s| ==> !IsSpace(s[k]))
    && 0 < at < |s|
    && (forall k :: at < k < |s| ==> s[k] != '@')
    && exists j :: at + 1 < j < |s| - 1 && s[j] == '.'
  }

  lemma EmailMatcherSound(s: string)
    requires IsEmail(s)
    ensures EmailShape(s)
  {
    var at := IndexOf(s, '@');
    var j :| at + 1 < j < |s| - 1 && s[j] == '.';
    assert EmailRun(s[..at]) by {
      forall k | 0 <= k < at ensures EmailChar(s[..at][k]) {
        assert s[..at][k] == s[k];
      }
    }
    var domain, tld := s[at + 1..j], s[j + 1..];
    assert EmailRun(domain) by {
      forall k | 0 <= k < |domain| ensures EmailChar(domain[k]) {
        assert domain[k] == s[at + 1 + k];
      }
    }
    assert EmailRun(tld) by {
      forall k | 0 <= k < |tld| ensures EmailChar(tld[k]) {
        assert tld[k] == s[j + 1 + k];
      }
    }
  }

  lemma EmailMatcherComplete(s: string)
    requires EmailShape(s)
    ensures IsEmail(s)
  {
    var i, j :| 0 < i < j < |s| - 1 && s[i] == '@' && s[j] == '.'
      && EmailRun(s[..i]) && EmailRun(s[i + 1..j]) && EmailRun(s[j + 1..]);
    forall k | 0 <= k < |s|
      ensures !IsSpace(s[k]) && (k != i ==> s[k] != '@')
    {
      if k < i {
        assert s[k] == s[..i][k];
      } else if i < k < j {
        assert s[k] == s[i + 1..j][k - i - 1];
      } else if j < k {
        assert s[k] == s[j + 1..][k - j - 1];
      }
    }
    assert IndexOf(s, '@') == i;
  }

  /** The matcher accepts exactly the strings the email regex describes. */
  lemma EmailMatcherIsRegex(s: string)
    ensures IsEmail(s) <==> EmailShape(s)
  {
    if IsEmail(s) {
      EmailMatcherSound(s);
    }
    if EmailShape(s) {
      EmailMatcherComplete(s);
    }
  }

  /** The regex class `[0-9()\s-]`. */
  predicate PhoneChar(c: char) {
    ('0' <= c <= '9') || c == '(' || c == ')' || c == '-' || IsSpace(c)
  }

  predicate PhoneRun(s: string) {
    |s| >= 7 && forall i :: 0 <= i < |s| ==> PhoneChar(s[i])
  }

  /** `/^\+?[0-9()\s-]{7,}$/`: an optional '+', then at least seven characters
      from the phone class. */
  predicate IsPhone(s: string) {
    if |s| > 0 && s[0] == '+' then PhoneRun(s[1..]) else PhoneRun(s)
  }

  /** Both ways the optional '+' of the phone regex can match. */
  lemma PhoneMatcherIsRegex(s: string)
    ensures IsPhone(s) <==> PhoneRun(s) || (|s| > 0 && s[0] == '+' && PhoneRun(s[1..]))
  {
    if |s| > 0 && s[0] == '+' {
      assert !PhoneChar(s[0]);
    }
  }

  /** `/^https?:\/\/.+/i`: "http://" or "https://" in any letter case, then at
      least one character other than a line terminator. The pattern is not
      anchored at the end, so only the first character after the scheme
      matters. */
  predicate IsUrl(s: string) {
    || (|s| > 7 && Lower(s[..7]) == "http://" && !IsLineTerminator(s[7]))
    || (|s| > 8 && Lower(s[..8]) == "https://" && !IsLineTerminator(s[8]))
  }

  /** A character a lower-case letter of a pattern matches under the `i`
      flag: the letter itself or its ASCII capital. */
  predicate EitherCase(c: char, letter: char) {
    c == letter || c as int == letter as int - 32
  }

  /** What `/^https?:\/\/.+/i` accepts, written as the regex reads: 'h', 't',
      't', 'p' in either case, an optional 's' in either case, "://", then
      one character that is not a line terminator. */
  ghost predicate UrlShape(s: string) {
    && |s| > 7
    && EitherCase(s[0], 'h') && EitherCase(s[1], 't') && EitherCase(s[2], 't') && EitherCase(s[3], 'p')
    && (|| (s[4..7] == "://" && !IsLineTerminator(s[7]))
        || (|s| > 8 && EitherCase(s[4], 's') && s[5..8] == "://" && !IsLineTerminator(s[8])))
  }

  /** Lower-casing yields a given lower-case letter exactly from that letter
      in either case, and any other character only from itself. */
  lemma LowerCharIs(c: char, d: char)
    ensures 'a' <= d <= 'z' ==> (LowerChar(c) == d <==> EitherCase(c, d))
    ensures !('a' <= d <= 'z') && !('A' <= d <= 'Z') ==> (LowerChar(c) == d <==> c == d)
  {
  }

  /** The matcher accepts exactly the strings the URL regex describes. */
  lemma {:induction false} UrlMatcherIsRegex(s: string)
    ensures IsUrl(s) <==> UrlShape(s)
  {
    if |s| > 7 {
      var head := Lower(s[..7]);
      assert head == "http://" <==> (
        EitherCase(s[0], 'h') && EitherCase(s[1], 't') && EitherCase(s[2], 't') && EitherCase(s[3], 'p')
        && s[4..7] == "://") by {
        LowerCharIs(s[0], 'h');
        LowerCharIs(s[1], 't');
        LowerCharIs(s[2], 't');
        LowerCharIs(s[3], 'p');
        LowerCharIs(s[4], ':');
        LowerCharIs(s[5], '/');
        LowerCharIs(s[6], '/');
        assert head == [head[0], head[1], head[2], head[3], head[4], head[5], head[6]];
        assert s[4..7] == [s[4], s[5], s[6]];
      }
    }
    if |s| > 8 {
      var head := Lower(s[..8]);
      assert head == "https://" <==> (
        EitherCase(s[0], 'h') && EitherCase(s[1], 't') && EitherCase(s[2], 't') && EitherCase(s[3], 'p')
        && EitherCase(s[4], 's') && s[5..8] == "://") by {
        LowerCharIs(s[0], 'h');
        LowerCharIs(s[1], 't');
        LowerCharIs(s[2], 't');
        LowerCharIs(s[3], 'p');
        LowerCharIs(s[4], 's');
        LowerCharIs(s[5], ':');
        LowerCharIs(s[6], '/');
        LowerCharIs(s[7], '/');
        assert head == [head[0], head[1], head[2], head[3], head[4], head[5], head[6], head[7]];
        assert s[5..8] == [s[5], s[6], s[7]];
      }
    }
  }

  /** The `i` flag: the scheme may be written in capitals. A scheme other
      than http or https, or nothing after "://", is refused. */
  lemma UrlIgnoresCase()
    ensures IsUrl("HTTPS://x") && IsUrl("Http://x")
    ensures !IsUrl("ftp://x") && !IsUrl("http://")
  {
    UrlMatcherIsRegex("HTTPS://x");
    UrlMatcherIsRegex("Http://x");
    UrlMatcherIsRegex("ftp://x");
  }

  /** Strict code-point order on strings, which agrees with the binary UTF-8
      order MongoDB sorts strings by. */
  predicate Before(a: string, b: string) {
    if a == [] then b != []
    else if b == [] then false
    else if a[0] != b[0] then a[0] < b[0]
    else Before(a[1..], b[1..])
  }

  lemma {:induction false} BeforeIrreflexive(a: string)
    ensures !Before(a, a)
  {
    if a != [] {
      BeforeIrreflexive(a[1..]);
    }
  }

  lemma {:induction false} BeforeTrichotomy(a: string, b: string)
    ensures Before(a, b) || a == b || Before(b, a)
    ensures !(Before(a, b) && Before(b, a))
  {
    if a != [] && b != [] && a[0] == b[0] {
      BeforeTrichotomy(a[1..], b[1..]);
      if a[1..] == b[1..] {
        assert a == [a[0]] + a[1..] && b == [b[0]] + b[1..];
      }
    }
  }

  lemma {:induction false} BeforeTransitive(a: string, b: string, c: string)
    requires Before(a, b) && Before(b, c)
    ensures Before(a, c)
  {
    if a != [] && b != [] && c != [] && a[0] == b[0] && b[0] == c[0] {
      BeforeTransitive(a[1..], b[1..], c[1..]);
    }
  }

  /** `parts.join(sep)`. */
  function Join(parts: seq<string>, sep: string): string {
    if parts == [] then ""
    else if |parts| == 1 then parts[0]
    else parts[0] + sep + Join(parts[1..], sep)
  }
}
