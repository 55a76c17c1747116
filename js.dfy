/**
 * The slice of JavaScript value semantics the route handlers rely on:
 * truthiness (`!x`, `x || y`), optional property reads (`body?.name`),
 * `Number(x)`, `String(x)` and `String.prototype.trim`.
 *
 * Numbers are modelled as the integers plus NaN; see README "Left out".
 */
module Js {

  datatype JsNumber = NaN | Int(i: int)

  /** A value as a parsed JSON body or a destructured field can hold it. */
  datatype JsValue =
    | Undefined
    | Null
    | Bool(b: bool)
    | Num(n: JsNumber)
    | Str(s: string)
    | Obj(props: map<string, JsValue>)

  predicate NumberTruthy(n: JsNumber) {
    n.Int? && n.i != 0
  }

  /** The values `!v` maps to false. */
  predicate Truthy(v: JsValue) {
    match v
    case Undefined => false
    case Null => false
    case Bool(b) => b
    case Num(n) => NumberTruthy(n)
    case Str(s) => s != ""
    case Obj(_) => true
  }

  /** `a || b` */
  function Or(a: JsValue, b: JsValue): JsValue {
    if Truthy(a) then a else b
  }

  /** `v?.key` for the plain-object bodies the routes read; any other value has none of the keys they ask for. */
  function Prop(v: JsValue, key: string): JsValue {
    match v
    case Obj(props) => if key in props then props[key] else Undefined
    case _ => Undefined
  }

  // ---------------------------------------------------------------- trim

  /** The WhiteSpace and LineTerminator code points of ECMAScript, which `trim` removes. */
  predicate IsWhite(c: char) {
    c == '\t' || c == '\n' || c == '\U{000B}' || c == '\U{000C}' || c == '\r' || c == ' '
    || c == '\U{00A0}' || c == '\U{1680}' || ('\U{2000}' <= c <= '\U{200A}')
    || c == '\U{2028}' || c == '\U{2029}' || c == '\U{202F}' || c == '\U{205F}'
    || c == '\U{3000}' || c == '\U{FEFF}'
  }

  predicate NoWhite(s: string) {
    forall k :: 0 <= k < |s| ==> !IsWhite(s[k])
  }

  /** Drops the leading white space: the result is the suffix of `s` that starts at its first non-white character. */
  function TrimStart(s: string): (r: string)
    ensures |r| <= |s| && r == s[|s| - |r|..]
    ensures forall k :: 0 <= k < |s| - |r| ==> IsWhite(s[k])
    ensures r != [] ==> !IsWhite(r[0])
  {
    if s != [] && IsWhite(s[0]) then
      var r := TrimStart(s[1..]);
      assert s[1..][|s| - 1 - |r|..] == s[|s| - |r|..];
      assert forall k :: 1 <= k < |s| - |r| ==> s[k] == s[1..][k - 1];
      r
    else s
  }

  /** Drops the trailing white space: the result is the prefix of `s` that ends at its last non-white character. */
  function TrimEnd(s: string): (r: string)
    ensures |r| <= |s| && r == s[..|r|]
    ensures forall k :: |r| <= k < |s| ==> IsWhite(s[k])
    ensures r != [] ==> !IsWhite(r[|r| - 1])
  {
    if s != [] && IsWhite(s[|s| - 1]) then
      var r := TrimEnd(s[..|s| - 1]);
      assert s[..|s| - 1][..|r|] == s[..|r|];
      assert forall k :: |r| <= k < |s| - 1 ==> s[k] == s[..|s| - 1][k];
      r
    else s
  }

  /** How many characters `trim` cuts from the front of `s`. */
  function LeadingWhite(s: string): (n: nat)
    ensures n <= |s|
  {
    |s| - |TrimStart(s)|
  }

  /**
   * `s.trim()`: the piece of `s` that starts after its leading white space,
   * neither end white, with only white space cut away on either side.
   */
  function Trim(s: string): (r: string)
    ensures LeadingWhite(s) + |r| <= |s|
    ensures r == s[LeadingWhite(s)..LeadingWhite(s) + |r|]
    ensures forall k :: 0 <= k < |s| && !(LeadingWhite(s) <= k < LeadingWhite(s) + |r|) ==> IsWhite(s[k])
    ensures r == [] || (!IsWhite(r[0]) && !IsWhite(r[|r| - 1]))
  {
    var front := TrimStart(s);
    var r := TrimEnd(front);
    TrimEndInside(s, |s| - |front|, r);
    r
  }

  /** The white tail that `TrimEnd` cuts from a suffix of `s` is a white tail of `s` itself. */
  lemma TrimEndInside(s: string, i: nat, r: string)
    requires i <= |s| && r == TrimEnd(s[i..])
    ensures i + |r| <= |s| && r == s[i..i + |r|]
    ensures forall k :: i + |r| <= k < |s| ==> IsWhite(s[k])
  {
    var front := s[i..];
    assert forall k :: i + |r| <= k < |s| ==> s[k] == front[k - i];
  }

  /** A trimmed string is empty exactly when the original held nothing but white space. */
  lemma TrimEmptyIff(s: string)
    ensures Trim(s) == [] <==> forall k :: 0 <= k < |s| ==> IsWhite(s[k])
  {
    var front := TrimStart(s);
    if Trim(s) == [] {
      assert front == [];
    } else {
      var r := Trim(s);
      assert r == TrimEnd(front) && r == front[..|r|];
      assert front[0] == s[|s| - |front|] && !IsWhite(front[0]);
    }
  }

  /** A string without white space is its own trim. */
  lemma TrimNoWhite(s: string)
    requires NoWhite(s)
    ensures Trim(s) == s
  {
    var front := TrimStart(s);
    assert front == s;
  }

  /** Trimming twice is trimming once. */
  lemma TrimIdempotent(s: string)
    ensures Trim(Trim(s)) == Trim(s)
  {
    var r := Trim(s);
    if r != [] {
      var front := TrimStart(r);
      assert front == r;
      var back := TrimEnd(front);
      assert back == r;
    }
  }

  // ------------------------------------------------- integers and decimals

  predicate IsDigit(c: char) {
    '0' <= c <= '9'
  }

  predicate IsDigits(s: string) {
    |s| > 0 && forall k :: 0 <= k < |s| ==> IsDigit(s[k])
  }

  function DigitChar(d: nat): (c: char)
    requires d < 10
    ensures IsDigit(c) && c as int - '0' as int == d
  {
    ('0' as int + d) as char
  }

  function DigitValue(c: char): nat
    requires IsDigit(c)
  {
    c as int - '0' as int
  }

  /** The value of a string of decimal digits, most significant first. */
  function DigitsValue(ds: string): nat
    requires forall k :: 0 <= k < |ds| ==> IsDigit(ds[k])
  {
    if ds == [] then 0 else DigitsValue(ds[..|ds| - 1]) * 10 + DigitValue(ds[|ds| - 1])
  }

  /** The shortest decimal spelling of `n`. */
  function NatToDigits(n: nat): (r: string)
    ensures IsDigits(r)
  {
    if n < 10 then [DigitChar(n)] else NatToDigits(n / 10) + [DigitChar(n % 10)]
  }

  /** `String(i)` for an integer. */
  function IntToDecimal(i: int): string {
    if i < 0 then "-" + NatToDigits(-i) else NatToDigits(i)
  }

  /** `Number(s)` for the integer forms: an optionally signed run of decimal digits after trimming; the empty string is 0. */
  function StringToNumber(s: string): JsNumber {
    var t := Trim(s);
    if t == "" then Int(0)
    else if t[0] == '-' && IsDigits(t[1..]) then Int(-(DigitsValue(t[1..]) as int))
    else if t[0] == '+' && IsDigits(t[1..]) then Int(DigitsValue(t[1..]))
    else if IsDigits(t) then Int(DigitsValue(t))
    else NaN
  }

  lemma {:induction false} DigitsRoundTrip(n: nat)
    ensures DigitsValue(NatToDigits(n)) == n
  {
    if n >= 10 {
      var ds := NatToDigits(n);
      assert ds[..|ds| - 1] == NatToDigits(n / 10);
      DigitsRoundTrip(n / 10);
    }
  }

  /** `Number(String(i)) === i`: reading back the decimal spelling of an integer gives the integer. */
  lemma DecimalRoundTrip(i: int)
    ensures StringToNumber(IntToDecimal(i)) == Int(i)
  {
    var t := IntToDecimal(i);
    var m: nat := if i < 0 then -i else i;
    DigitsRoundTrip(m);
    assert NoWhite(t) by {
      forall k | 0 <= k < |t| ensures !IsWhite(t[k]) {
        if i < 0 && k > 0 { assert t[k] == NatToDigits(m)[k - 1]; }
      }
    }
    TrimNoWhite(t);
    if i < 0 {
      assert t[1..] == NatToDigits(m);
    } else {
      assert t[0] != '-' && t[0] != '+';
    }
  }

  /** Distinct integers are spelled differently, so an integer property key names one integer. */
  lemma DecimalInjective(i: int, j: int)
    requires IntToDecimal(i) == IntToDecimal(j)
    ensures i == j
  {
    DecimalRoundTrip(i);
    DecimalRoundTrip(j);
  }

  // ------------------------------------------------------- coercions

  /** `Number(v)` */
  function ToNumber(v: JsValue): JsNumber {
    match v
    case Undefined => NaN
    case Null => Int(0)
    case Bool(b) => if b then Int(1) else Int(0)
    case Num(n) => n
    case Str(s) => StringToNumber(s)
    case Obj(_) => NaN
  }

  /** `String(n)` for a number. */
  function NumberToString(n: JsNumber): string {
    match n
    case NaN => "NaN"
    case Int(i) => IntToDecimal(i)
  }

  /** `String(v)`, which is also the property key `v` names in `object[v]`. */
  function ToStr(v: JsValue): string {
    match v
    case Undefined => "undefined"
    case Null => "null"
    case Bool(b) => if b then "true" else "false"
    case Num(n) => NumberToString(n)
    case Str(s) => s
    case Obj(_) => "[object Object]"
  }

  /** `String(v || d)` with a non-empty default `d` is never empty. */
  lemma DefaultedTextNonEmpty(v: JsValue, d: string)
    requires d != ""
    ensures ToStr(Or(v, Str(d))) != ""
  {
    if Truthy(v) {
      ToStrOfTruthy(v);
    }
  }

  /** The string form of a truthy value is never empty. */
  lemma ToStrOfTruthy(v: JsValue)
    requires Truthy(v)
    ensures ToStr(v) != ""
  {
    match v
    case Num(Int(i)) =>
      assert IntToDecimal(i) != [] by {
        if i < 0 {
        } else {
          var ds := NatToDigits(i);
          assert IsDigits(ds);
        }
      }
    case _ =>
  }
}
