/**
 * The few JavaScript semantics the handlers rely on: the values a JSON request
 * field can take, truthiness, template-literal interpolation, the decimal
 * rendering of a number, and `String.prototype.trim`.
 */
module Js {
  import opened Common

  /** A JSON request field as the handlers see it after destructuring `req.body`. */
  datatype Value = Undefined | Null | Str(s: string)

  /** The body `{ imageBase64, prompt, category }` that the page posts and both relays read. */
  datatype RequestBody = RequestBody(imageBase64: Value, prompt: Value, category: Value)

  /** JavaScript truthiness: `undefined`, `null` and the empty string are falsy. */
  predicate Truthy(v: Value): (b: bool)
    ensures v == Undefined || v == Null || v == Str("") ==> !b
    ensures v.Str? && |v.s| >= 1 ==> b
  {
    v.Str? && v.s != ""
  }

  /** What `${v}` produces inside a template literal. */
  function Interpolate(v: Value): (r: string)
    ensures v == Undefined ==> r == "undefined"
    ensures v == Null ==> r == "null"
    ensures v.Str? ==> r == v.s
  {
    match v
    case Undefined => "undefined"
    case Null => "null"
    case Str(s) => s
  }

  // ---------------------------------------------------------------------------
  // Decimal rendering of a non-negative integer, as `${response.status}` does.

  predicate IsDigit(c: char) {
    '0' <= c <= '9'
  }

  function DigitChar(d: nat): (c: char)
    requires d < 10
    ensures IsDigit(c) && c as int - '0' as int == d
  {
    ('0' as int + d) as char
  }

  function Decimal(n: nat): (s: string)
    ensures |s| >= 1
    ensures forall i :: 0 <= i < |s| ==> IsDigit(s[i])
    ensures n > 0 ==> s[0] != '0'
    decreases n
  {
    if n < 10 then [DigitChar(n)] else Decimal(n / 10) + [DigitChar(n % 10)]
  }

  /** The number a string of digits denotes. */
  function DigitsValue(s: string): nat
    requires forall i :: 0 <= i < |s| ==> IsDigit(s[i])
  {
    if s == [] then 0
    else
      assert IsDigit(s[|s| - 1]);
      DigitsValue(s[..|s| - 1]) * 10 + (s[|s| - 1] as int - '0' as int)
  }

  /** Reading the decimal rendering back gives the number: two statuses render alike only if equal. */
  lemma {:induction false} DecimalRoundTrip(n: nat)
    ensures DigitsValue(Decimal(n)) == n
    decreases n
  {
    if n >= 10 {
      DecimalRoundTrip(n / 10);
      var s := Decimal(n);
      assert s[..|s| - 1] == Decimal(n / 10);
    }
  }

  lemma DecimalInjective(m: nat, n: nat)
    ensures Decimal(m) == Decimal(n) ==> m == n
  {
    DecimalRoundTrip(m);
    DecimalRoundTrip(n);
  }

  // ---------------------------------------------------------------------------
  // String.prototype.trim: white space and line terminators per ECMAScript.

  const JsWhitespace: set<char> := {
    '\t', '\n', '\U{000B}', '\U{000C}', '\r', ' ', '\U{00A0}', '\U{1680}',
    '\U{2000}', '\U{2001}', '\U{2002}', '\U{2003}', '\U{2004}', '\U{2005}',
    '\U{2006}', '\U{2007}', '\U{2008}', '\U{2009}', '\U{200A}',
    '\U{2028}', '\U{2029}', '\U{202F}', '\U{205F}', '\U{3000}', '\U{FEFF}'
  }

  predicate IsJsWhitespace(c: char) {
    c in JsWhitespace
  }

  /** The white-space set as the ranges the ECMAScript WhiteSpace and LineTerminator productions list. */
  lemma WhitespaceRanges(c: char)
    ensures IsJsWhitespace(c) <==>
      || ('\t' <= c <= '\r') || c == ' ' || c == '\U{00A0}' || c == '\U{1680}'
      || ('\U{2000}' <= c <= '\U{200A}') || c == '\U{2028}' || c == '\U{2029}'
      || c == '\U{202F}' || c == '\U{205F}' || c == '\U{3000}' || c == '\U{FEFF}'
  {
  }

  /** Every character is white space (the empty string included). */
  predicate IsBlank(s: string) {
    forall i :: 0 <= i < |s| ==> IsJsWhitespace(s[i])
  }

  function TrimStart(s: string): (r: string)
    ensures IsSuffix(r, s)
    ensures r != [] ==> !IsJsWhitespace(r[0])
    ensures forall i :: 0 <= i < |s| - |r| ==> IsJsWhitespace(s[i])
  {
    if s != [] && IsJsWhitespace(s[0]) then
      var r := TrimStart(s[1..]);
      assert forall i :: 1 <= i < |s| ==> s[i] == s[1..][i - 1];
      r
    else s
  }

  function TrimEnd(s: string): (r: string)
    ensures StartsWith(s, r)
    ensures r != [] ==> !IsJsWhitespace(r[|r| - 1])
    ensures forall i :: |r| <= i < |s| ==> IsJsWhitespace(s[i])
  {
    if s != [] && IsJsWhitespace(s[|s| - 1]) then
      var r := TrimEnd(s[..|s| - 1]);
      assert forall i :: 0 <= i < |s| - 1 ==> s[i] == s[..|s| - 1][i];
      r
    else s
  }

  /** `s.trim()`: `s` with its leading and trailing white space removed. */
  function Trim(s: string): (r: string)
    ensures r != [] ==> !IsJsWhitespace(r[0]) && !IsJsWhitespace(r[|r| - 1])
    ensures exists k: nat :: OccursAt(s, r, k) && IsBlank(s[..k]) && IsBlank(s[k + |r|..])
  {
    var t := TrimStart(s);
    var r := TrimEnd(t);
    var k: nat := |s| - |t|;
    assert s[k..] == t;
    BlankAround(s, t, r, k);
    r
  }

  /** `r` sits at `k` in `s` with white space on both sides, given `r` is a prefix of `s[k..]` trimmed at its end. */
  lemma BlankAround(s: string, t: string, r: string, k: nat)
    requires k <= |s| && s[k..] == t
    requires forall i :: 0 <= i < k ==> IsJsWhitespace(s[i])
    requires StartsWith(t, r) && forall i :: |r| <= i < |t| ==> IsJsWhitespace(t[i])
    ensures OccursAt(s, r, k) && IsBlank(s[..k]) && IsBlank(s[k + |r|..])
  {
    assert s[k..k + |r|] == t[..|r|];
    var u := s[k + |r|..];
    forall i | 0 <= i < |u| ensures IsJsWhitespace(u[i]) {
      assert u[i] == t[|r| + i];
    }
    var v := s[..k];
    forall i | 0 <= i < |v| ensures IsJsWhitespace(v[i]) {
      assert v[i] == s[i];
    }
  }

  /** `s.trim()` is empty exactly when `s` consists of white space only. */
  lemma TrimEmptyIffBlank(s: string)
    ensures Trim(s) == "" <==> IsBlank(s)
  {
    var t := TrimStart(s);
    if Trim(s) == "" {
      forall i | 0 <= i < |s| ensures IsJsWhitespace(s[i]) {
        if i >= |s| - |t| {
          assert s[i] == t[i - (|s| - |t|)];
        }
      }
    } else {
      var r := Trim(s);
      assert !IsJsWhitespace(r[0]);
      assert r[0] == t[0] == s[|s| - |t|];
    }
  }
}
