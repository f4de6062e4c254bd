/** Values and string operations shared by the server routes and the browser scripts:
    optional values, HTTP replies, JSON-like values, and the JavaScript string
    functions the code relies on (trim, toLowerCase, split, parseInt, number printing). */
module Common {

  datatype Option<T> = None | Some(value: T)

  datatype Result<T, E> = Success(value: T) | Failure(error: E)

  /** The outcome of a request handler: a status code with a body, a status code
      with a message, or the 400 "Validation failed" reply listing every field
      whose check failed. */
  datatype Reply<T> =
    | Ok(code: int, body: T)
    | Fail(code: int, message: string)
    | Invalid(errors: seq<string>)
  {
    function Status(): int {
      if Invalid? then 400 else code
    }
  }

  /** A JSON value as it travels in a request body. NaN becomes null when
      serialised, so an unparsable number is `JNull` here. */
  datatype JsValue = JStr(s: string) | JNum(n: int) | JBool(b: bool) | JNull

  /** The checked fields that fail, in the order of the validation chain: an
      express-validator chain runs every check and reports each failure. */
  function Failing<F(==,!new)>(fields: seq<F>, ok: F -> bool): (errs: seq<F>)
    ensures |errs| <= |fields|
  {
    if fields == [] then []
    else (if ok(fields[0]) then [] else [fields[0]]) + Failing(fields[1..], ok)
  }

  /** Failing reports exactly the checked fields whose check fails. */
  lemma {:induction false} FailingExactly<F(!new)>(fields: seq<F>, ok: F -> bool, f: F)
    ensures f in Failing(fields, ok) <==> f in fields && !ok(f)
  {
    if fields != [] {
      FailingExactly(fields[1..], ok, f);
      assert fields == [fields[0]] + fields[1..];
    }
  }

  /** The field names a 400 reply lists. */
  function Names<F>(fields: seq<F>, name: F -> string): (r: seq<string>)
    ensures |r| == |fields|
    ensures forall i :: 0 <= i < |fields| ==> r[i] == name(fields[i])
  {
    seq(|fields|, i requires 0 <= i < |fields| => name(fields[i]))
  }

  /** JavaScript truthiness of an optional string: present and not empty. */
  predicate Truthy(s: Option<string>) {
    s.Some? && s.value != ""
  }

  /** `a || b` on optional strings. */
  function OrElse(a: Option<string>, b: Option<string>): Option<string> {
    if Truthy(a) then a else b
  }

  // ---------------------------------------------------------------------------
  // Whitespace and trim

  /** The characters JavaScript's `\s` and `String.prototype.trim` treat as
      white space (WhiteSpace and LineTerminator of ECMA-262). */
  predicate IsSpace(c: char) {
    var n := c as int;
    n == 0x09 || n == 0x0A || n == 0x0B || n == 0x0C || n == 0x0D || n == 0x20 ||
    n == 0xA0 || n == 0x1680 || (0x2000 <= n <= 0x200A) || n == 0x2028 ||
    n == 0x2029 || n == 0x202F || n == 0x205F || n == 0x3000 || n == 0xFEFF
  }

  predicate AllSpace(s: string) {
    forall i :: 0 <= i < |s| ==> IsSpace(s[i])
  }

  /** Number of white-space characters at the start of `s`. */
  function LeadingSpace(s: string): (k: nat)
    ensures k <= |s| && AllSpace(s[..k])
    ensures k < |s| ==> !IsSpace(s[k])
  {
    if s != [] && IsSpace(s[0]) then
      var k := 1 + LeadingSpace(s[1..]);
      assert s[..k] == [s[0]] + s[1..][..k - 1];
      k
    else 0
  }

  /** Number of white-space characters at the end of `s`. */
  function TrailingSpace(s: string): (k: nat)
    ensures k <= |s| && AllSpace(s[|s| - k..])
    ensures k < |s| ==> !IsSpace(s[|s| - k - 1])
  {
    if s != [] && IsSpace(s[|s| - 1]) then
      var p := s[..|s| - 1];
      var j := TrailingSpace(p);
      var k := 1 + j;
      assert s[|s| - k..] == p[|p| - j..] + [s[|s| - 1]];
      assert k < |s| ==> s[|s| - k - 1] == p[|p| - j - 1];
      k
    else 0
  }

  function TrimStart(s: string): string {
    s[LeadingSpace(s)..]
  }

  function TrimEnd(s: string): string {
    s[..|s| - TrailingSpace(s)]
  }

  /** `String.prototype.trim`. */
  function Trim(s: string): string {
    TrimEnd(TrimStart(s))
  }

  /** A string trims to "" exactly when it is all white space, so "not empty
      after trim" means "holds a character that is not white space". */
  lemma TrimEmptyIff(s: string)
    ensures Trim(s) == [] <==> AllSpace(s)
  {
    var i := LeadingSpace(s);
    var t := s[i..];
    var k := TrailingSpace(t);
    if Trim(s) == [] {
      assert k == |t|;
      forall n | 0 <= n < |s| ensures IsSpace(s[n]) {
        assert n < i;
        assert s[n] == s[..i][n];
      }
    }
  }

  /** Trimming leaves no white space at either end, so trimming twice is
      trimming once (the browser trims a field, then the server trims it again). */
  lemma TrimIdempotent(s: string)
    ensures Trim(s) == [] || (!IsSpace(Trim(s)[0]) && !IsSpace(Trim(s)[|Trim(s)| - 1]))
    ensures Trim(Trim(s)) == Trim(s)
  {
    var i := LeadingSpace(s);
    var t := s[i..];
    var r := Trim(s);
    assert r == t[..|t| - TrailingSpace(t)];
    if r != [] {
      assert r[0] == t[0] == s[i];
      assert r[|r| - 1] == t[|t| - TrailingSpace(t) - 1];
      assert LeadingSpace(r) == 0;
      assert r[0..] == r;
      assert TrailingSpace(r) == 0;
    }
  }

  // ---------------------------------------------------------------------------
  // Lower case

  function LowerChar(c: char): char {
    if 'A' <= c <= 'Z' then (c as int + 32) as char else c
  }

  /** `String.prototype.toLowerCase` on the ASCII letters. */
  function ToLower(s: string): (r: string)
    ensures |r| == |s|
    ensures forall i :: 0 <= i < |s| ==> r[i] == LowerChar(s[i])
  {
    seq(|s|, i requires 0 <= i < |s| => LowerChar(s[i]))
  }

  // ---------------------------------------------------------------------------
  // Lengths

  /** A character outside the Basic Multilingual Plane, which JavaScript
      stores as two UTF-16 code units. */
  predicate Astral(c: char) {
    c as int >= 0x1_0000
  }

  /** The variation selectors U+FE0E and U+FE0F. */
  predicate VariationSelector(c: char) {
    c == '\U{FE0E}' || c == '\U{FE0F}'
  }

  /** Neither an astral character nor a variation selector occurs in `s`. */
  predicate PlainText(s: string) {
    forall i :: 0 <= i < |s| ==> !Astral(s[i]) && !VariationSelector(s[i])
  }

  /** `s.length` in the browser: the number of UTF-16 code units, so an
      astral character counts twice. */
  function Utf16Length(s: string): (n: nat)
    ensures |s| <= n <= 2 * |s|
  {
    if s == [] then 0 else (if Astral(s[0]) then 2 else 1) + Utf16Length(s[1..])
  }

  /** The length validator.js's `isLength` compares against: code points
      (a surrogate pair is one), not counting variation selectors. */
  function ValidatorLength(s: string): (n: nat)
    ensures n <= |s|
  {
    if s == [] then 0 else (if VariationSelector(s[0]) then 0 else 1) + ValidatorLength(s[1..])
  }

  /** On plain text the browser, the validator and Dafny agree on length. */
  lemma {:induction false} PlainLengths(s: string)
    requires PlainText(s)
    ensures Utf16Length(s) == |s| && ValidatorLength(s) == |s|
  {
    if s != [] {
      assert PlainText(s[1..]) by {
        forall i | 0 <= i < |s[1..]| ensures !Astral(s[1..][i]) && !VariationSelector(s[1..][i]) {
          assert s[1..][i] == s[i + 1];
        }
      }
      PlainLengths(s[1..]);
    }
  }

  // ---------------------------------------------------------------------------
  // split

  /** Position of the first `c` in `s`, or `|s|` when there is none. */
  function IndexOf(s: string, c: char): (i: nat)
    ensures i <= |s|
    ensures i < |s| ==> s[i] == c
    ensures forall j :: 0 <= j < i ==> s[j] != c
  {
    if s == [] then 0 else if s[0] == c then 0 else 1 + IndexOf(s[1..], c)
  }

  /** `String.prototype.split(c)` for a one-character separator. */
  function Split(s: string, c: char): (parts: seq<string>)
    ensures |parts| >= 1
    decreases |s|
  {
    var i := IndexOf(s, c);
    if i == |s| then [s] else [s[..i]] + Split(s[i + 1..], c)
  }

  /** Split is the inverse of joining with the separator: the parts carry no
      separator, and there is one more part than there are separators. */
  lemma {:induction false} SplitJoin(parts: seq<string>, c: char)
    requires |parts| >= 1
    requires forall k :: 0 <= k < |parts| ==> c !in parts[k]
    ensures Split(Join(parts, c), c) == parts
    decreases |parts|
  {
    var s := Join(parts, c);
    var p0 := parts[0];
    assert c !in p0;
    if |parts| == 1 {
      assert s == p0;
      assert IndexOf(s, c) == |s|;
    } else {
      var tail := parts[1..];
      assert forall k :: 0 <= k < |tail| ==> c !in tail[k] by {
        forall k | 0 <= k < |tail| ensures c !in tail[k] { assert tail[k] == parts[k + 1]; }
      }
      var rest := Join(tail, c);
      assert s == p0 + [c] + rest;
      IndexOfPrefix(p0, c, rest);
      var i := |p0|;
      assert s[..i] == p0;
      assert s[i + 1..] == rest;
      assert Split(s, c) == [p0] + Split(rest, c);
      SplitJoin(tail, c);
      assert [p0] + tail == parts;
    }
  }

  function Join(parts: seq<string>, c: char): string
    requires |parts| >= 1
  {
    if |parts| == 1 then parts[0] else parts[0] + [c] + Join(parts[1..], c)
  }

  lemma {:induction false} IndexOfPrefix(p: string, c: char, rest: string)
    requires c !in p
    ensures IndexOf(p + [c] + rest, c) == |p|
  {
    var s := p + [c] + rest;
    assert s[|p|] == c;
    assert forall j :: 0 <= j < |p| ==> s[j] == p[j];
  }

  // ---------------------------------------------------------------------------
  // Decimal numbers

  predicate IsDigit(c: char) {
    '0' <= c <= '9'
  }

  function DigitChar(d: nat): (c: char)
    requires d < 10
    ensures IsDigit(c) && c as int - '0' as int == d
  {
    ('0' as int + d) as char
  }

  /** The decimal numeral of `n`, as `String(n)` prints it. */
  function NatToString(n: nat): (s: string)
    ensures |s| >= 1
    ensures forall i :: 0 <= i < |s| ==> IsDigit(s[i])
    decreases n
  {
    if n < 10 then [DigitChar(n)] else NatToString(n / 10) + [DigitChar(n % 10)]
  }

  /** The value of a string of decimal digits. */
  function DecimalValue(s: string): (v: nat)
    requires forall i :: 0 <= i < |s| ==> IsDigit(s[i])
    decreases |s|
  {
    if s == [] then 0
    else
      var last := s[|s| - 1];
      assert IsDigit(last);
      10 * DecimalValue(s[..|s| - 1]) + (last as int - '0' as int)
  }

  /** Reading back a printed number gives the number. */
  lemma {:induction false} DecimalRoundTrip(n: nat)
    ensures DecimalValue(NatToString(n)) == n
    decreases n
  {
    if n >= 10 {
      var s := NatToString(n);
      DecimalRoundTrip(n / 10);
      assert s[..|s| - 1] == NatToString(n / 10);
    }
  }

  /** Number of leading decimal digits of `s`. */
  function DigitRun(s: string): (k: nat)
    ensures k <= |s|
    ensures forall i :: 0 <= i < k ==> IsDigit(s[i])
    ensures k < |s| ==> !IsDigit(s[k])
  {
    if s != [] && IsDigit(s[0]) then 1 + DigitRun(s[1..]) else 0
  }

  /** `parseInt(s)` in radix 10: leading white space, an optional sign, then the
      longest run of digits; `None` stands for NaN (no digit at all). */
  function ParseInt(s: string): (r: Option<int>)
    ensures r.Some? <==> (var t := TrimStart(s);
                          var body := if t != [] && (t[0] == '+' || t[0] == '-') then t[1..] else t;
                          body != [] && IsDigit(body[0]))
  {
    var t := TrimStart(s);
    var negative := t != [] && t[0] == '-';
    var body := if t != [] && (t[0] == '+' || t[0] == '-') then t[1..] else t;
    var k := DigitRun(body);
    if k == 0 then None
    else
      var v: int := DecimalValue(body[..k]);
      Some(if negative then -v else v)
  }

  /** A printed number parses back to itself, and a parse stops at the first
      character that is not a digit. */
  lemma ParseIntOfNumeral(n: nat, suffix: string)
    requires suffix == [] || !IsDigit(suffix[0])
    ensures ParseInt(NatToString(n) + suffix) == Some(n)
  {
    var s := NatToString(n) + suffix;
    assert !IsSpace(s[0]);
    assert TrimStart(s) == s;
    assert s[0] != '+' && s[0] != '-';
    var m := |NatToString(n)|;
    assert forall i :: 0 <= i < m ==> IsDigit(s[i]);
    assert m < |s| ==> s[m] == suffix[0];
    var k := DigitRun(s);
    assert k == m;
    assert s[..k] == NatToString(n);
    DecimalRoundTrip(n);
  }
}
