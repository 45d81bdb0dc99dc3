/** The few JavaScript notions the client code relies on: optional values, the
    dynamic values it compares with `===`, truthiness, the whitespace class of
    regular expressions and of `String.prototype.trim`, and the rendering of a
    value inside a template literal. */
module JsCore {

  datatype Option<+T> = None | Some(value: T)

  datatype Result<+T, +E> = Ok(value: T) | Err(error: E)

  /** A JSON-shaped JavaScript value. Numbers are integers here: the code only
      compares ids and flags with `===` and renders ids in paths. */
  datatype JsValue = JsUndefined | JsNull | JsBool(b: bool) | JsNumber(n: int) | JsString(s: string)

  /** What `if (v)` and `v || w` test. */
  predicate Truthy(v: JsValue) {
    match v
    case JsUndefined => false
    case JsNull => false
    case JsBool(b) => b
    case JsNumber(n) => n != 0
    case JsString(s) => s != ""
  }

  /** Truthiness of a value that is a string or null/undefined (None). */
  predicate TruthyText(v: Option<string>) {
    v.Some? && v.value != ""
  }

  /** The characters `.` does not match in a regular expression without the `s` flag. */
  predicate IsLineTerminator(c: char) {
    c == '\n' || c == '\r' || c as int == 0x2028 || c as int == 0x2029
  }

  /** The class `\s`: WhiteSpace and LineTerminator of ECMAScript; `trim` removes the same set. */
  predicate IsJsSpace(c: char) {
    || IsLineTerminator(c)
    || c == ' ' || c == '\t' || c as int == 0x0B || c as int == 0x0C
    || c as int == 0xA0 || c as int == 0x1680 || 0x2000 <= c as int <= 0x200A
    || c as int == 0x202F || c as int == 0x205F || c as int == 0x3000 || c as int == 0xFEFF
  }

  predicate IsBlank(s: string) {
    forall i :: 0 <= i < |s| ==> IsJsSpace(s[i])
  }

  function TrimStart(s: string): (r: string)
    ensures |r| <= |s|
  {
    if s != [] && IsJsSpace(s[0]) then TrimStart(s[1..]) else s
  }

  /** TrimStart drops exactly the leading whitespace: what it removes is all
      whitespace, and what it keeps is a suffix that does not start with any. */
  lemma {:induction false} TrimStartDropsLeadingSpace(s: string)
    ensures var r := TrimStart(s);
      && r == s[|s| - |r|..]
      && (forall i :: 0 <= i < |s| - |r| ==> IsJsSpace(s[i]))
      && (r != [] ==> !IsJsSpace(r[0]))
  {
    if s != [] && IsJsSpace(s[0]) {
      TrimStartDropsLeadingSpace(s[1..]);
    }
  }

  function TrimEnd(s: string): (r: string)
    ensures |r| <= |s|
  {
    if s != [] && IsJsSpace(s[|s| - 1]) then TrimEnd(s[..|s| - 1]) else s
  }

  /** TrimEnd drops exactly the trailing whitespace. */
  lemma {:induction false} TrimEndDropsTrailingSpace(s: string)
    ensures var r := TrimEnd(s);
      && r == s[..|r|]
      && (forall i :: |r| <= i < |s| ==> IsJsSpace(s[i]))
      && (r != [] ==> !IsJsSpace(r[|r| - 1]))
  {
    if s != [] && IsJsSpace(s[|s| - 1]) {
      TrimEndDropsTrailingSpace(s[..|s| - 1]);
    }
  }

  /** `s.trim()` */
  function Trim(s: string): string {
    TrimEnd(TrimStart(s))
  }

  /** `!s.trim()`: the trimmed text is empty exactly when every character is whitespace. */
  lemma {:induction false} TrimEmptyIffBlank(s: string)
    ensures Trim(s) == "" <==> IsBlank(s)
  {
    var t := TrimStart(s);
    TrimStartDropsLeadingSpace(s);
    TrimEndDropsTrailingSpace(t);
    if Trim(s) == "" {
      assert t == [];
    } else {
      var r := Trim(s);
      assert r == t[..|r|];
      assert !IsJsSpace(s[|s| - |t|]);
    }
  }

  function DigitText(d: nat): (r: string)
    requires d < 10
    ensures |r| == 1 && '0' <= r[0] <= '9' && r[0] as int - '0' as int == d
  {
    [('0' as int + d) as char]
  }

  /** Decimal text of a natural number, as `${n}` renders a safe integer
      (at most 2^53 - 1, below the exponent form that starts at 1e21). */
  function NatText(n: nat): (r: string)
    ensures r != [] && forall i :: 0 <= i < |r| ==> '0' <= r[i] <= '9'
    ensures (r[0] == '0') <==> n == 0
  {
    if n < 10 then DigitText(n) else NatText(n / 10) + DigitText(n % 10)
  }

  /** The number a string of decimal digits denotes, read left to right. */
  function DigitsValue(s: string): nat
    requires forall i :: 0 <= i < |s| ==> '0' <= s[i] <= '9'
  {
    if s == [] then 0 else DigitsValue(s[..|s| - 1]) * 10 + (s[|s| - 1] as int - '0' as int)
  }

  /** The text of n reads back as n. */
  lemma {:induction false} NatTextValue(n: nat)
    ensures DigitsValue(NatText(n)) == n
  {
    var r := NatText(n);
    if n < 10 {
      assert r[..0] == [];
    } else {
      NatTextValue(n / 10);
      assert r[..|r| - 1] == NatText(n / 10);
    }
  }

  /** Different numbers render differently. */
  lemma NatTextInjective(a: nat, b: nat)
    ensures NatText(a) == NatText(b) ==> a == b
  {
    NatTextValue(a);
    NatTextValue(b);
  }

  /** Decimal text of an integer: a minus sign before the digits of a negative one. */
  function IntText(n: int): (r: string)
    ensures r != [] && (r[0] == '-' <==> n < 0)
    ensures n < 0 ==> r[1..] == NatText(-n)
    ensures n >= 0 ==> r == NatText(n)
  {
    if n < 0 then "-" + NatText(-n) else NatText(n)
  }

  /** Different integers render differently. */
  lemma IntTextInjective(a: int, b: int)
    ensures IntText(a) == IntText(b) ==> a == b
  {
    if IntText(a) == IntText(b) {
      if a < 0 {
        NatTextInjective(-a, -b);
      } else {
        NatTextInjective(a, b);
      }
    }
  }

  /** `${v}`: the text a template literal splices in for a value. */
  function ToText(v: JsValue): (r: string)
    ensures v.JsString? ==> r == v.s
    ensures v.JsNumber? ==> r == IntText(v.n)
    ensures r == [] <==> v == JsString([])
  {
    match v
    case JsUndefined => "undefined"
    case JsNull => "null"
    case JsBool(b) => if b then "true" else "false"
    case JsNumber(n) => IntText(n)
    case JsString(s) => s
  }

  /** The message of `new Error(m)` when m is a string or undefined (None). */
  function ErrorText(m: Option<string>): string {
    if m.Some? then m.value else ""
  }
}
