/** The JavaScript values a webhook body field can hold and the few
    JavaScript operations the handler applies to them: truthiness, `||`,
    `??`, `String(…)`, `trim()` and `Number(…)`. */
module JsValues {
  import opened Text

  /** The result of `Number(…)`. */
  datatype Num = Finite(value: real) | NaN | Infinity(negative: bool)

  /** A JSON number carries the text JavaScript renders it as: the
      number-to-string algorithm itself is not part of this model. */
  datatype JsVal =
    | Undefined
    | Null
    | Bool(b: bool)
    | Number(x: real, text: string)
    | Str(s: string)

  predicate Truthy(v: JsVal)
  {
    match v
    case Undefined => false
    case Null => false
    case Bool(b) => b
    case Number(x, _) => x != 0.0
    case Str(s) => s != ""
  }

  predicate Nullish(v: JsVal) { v.Undefined? || v.Null? }

  /** `a || b` */
  function Or(a: JsVal, b: JsVal): (r: JsVal)
    ensures Truthy(a) ==> r == a
    ensures !Truthy(a) ==> r == b
  {
    if Truthy(a) then a else b
  }

  /** `a ?? b` */
  function Coalesce(a: JsVal, b: JsVal): (r: JsVal)
    ensures !Nullish(a) ==> r == a
    ensures Nullish(a) ==> r == b
  {
    if Nullish(a) then b else a
  }

  /** `String(v)`, which is also what a template literal `${v}` and
      `v.toString()` give for these values. */
  function ToStr(v: JsVal): string
  {
    match v
    case Undefined => "undefined"
    case Null => "null"
    case Bool(b) => if b then "true" else "false"
    case Number(_, text) => text
    case Str(s) => s
  }

  /** The characters `String.prototype.trim` and `Number(…)` strip: the
      WhiteSpace and LineTerminator productions of ECMAScript. */
  predicate IsJsSpace(c: char)
  {
    c == '\t' || c == '\n' || c == '\U{B}' || c == '\U{C}' || c == '\r' || c == ' '
    || c == '\U{A0}' || c == '\U{1680}' || ('\U{2000}' <= c <= '\U{200A}')
    || c == '\U{2028}' || c == '\U{2029}' || c == '\U{202F}' || c == '\U{205F}'
    || c == '\U{3000}' || c == '\U{FEFF}'
  }

  /** `s.trim()` */
  function JsTrim(s: string): string
  {
    Trim(s, IsJsSpace)
  }

  function Pow10(k: nat): (p: nat)
    ensures p >= 1
  {
    if k == 0 then 1 else 10 * Pow10(k - 1)
  }

  /** An unsigned decimal literal `digits[.digits]`, with at least one digit
      on one side of the point. */
  function UnsignedDecimal(t: string): Option<real>
  {
    var i := Find(t, '.');
    var whole := t[..i];
    var frac := if i < |t| then t[i + 1..] else "";
    if AllDigits(whole) && AllDigits(frac) && |whole| + |frac| > 0 then
      Some(DigitsValue(whole) as real + Fraction(frac))
    else None
  }

  /** The value of the digits after a decimal point. */
  function Fraction(frac: string): real
    requires AllDigits(frac)
  {
    DigitsValue(frac) as real / Pow10(|frac|) as real
  }

  /** `Number(s)` for a string: surrounding white space is ignored, the empty
      string is zero, then an optionally signed decimal literal or Infinity. */
  function StringToNumber(s: string): Num
  {
    var t := JsTrim(s);
    if t == "" then Finite(0.0)
    else if t == "Infinity" || t == "+Infinity" then Infinity(false)
    else if t == "-Infinity" then Infinity(true)
    else
      var negative := t[0] == '-';
      var body := if t[0] == '-' || t[0] == '+' then t[1..] else t;
      match UnsignedDecimal(body)
      case Some(x) => Finite(if negative then -x else x)
      case None => NaN
  }

  /** `Number(v)` */
  function ToNumber(v: JsVal): Num
  {
    match v
    case Undefined => NaN
    case Null => Finite(0.0)
    case Bool(b) => Finite(if b then 1.0 else 0.0)
    case Number(x, _) => Finite(x)
    case Str(s) => StringToNumber(s)
  }

  /** A plain run of decimal digits reads back as the number it spells, so a
      price that arrives as the string "9500" behaves like the number 9500. */
  lemma {:induction false} DigitStringToNumber(n: nat)
    ensures StringToNumber(NatDigits(n)) == Finite(n as real)
  {
    var s := NatDigits(n);
    DigitsTrimmed(s);
    NotInfinity(s);
    DigitsDecimal(s);
    DigitsRoundTrip(n);
    PlainDecimal(s, n as real);
  }

  /** A trimmed, unsigned, non-Infinity text is read as an unsigned decimal. */
  lemma PlainDecimal(t: string, x: real)
    requires JsTrim(t) == t && t != ""
    requires t[0] != '-' && t[0] != '+'
    requires t != "Infinity" && t != "+Infinity" && t != "-Infinity"
    requires UnsignedDecimal(t) == Some(x)
    ensures StringToNumber(t) == Finite(x)
  {
  }

  lemma DigitsTrimmed(s: string)
    requires AllDigits(s) && |s| >= 1
    ensures JsTrim(s) == s
  {
    assert IsDigit(s[0]) && IsDigit(s[|s| - 1]);
    TrimNoop(s, IsJsSpace);
  }

  lemma NotInfinity(s: string)
    requires AllDigits(s) && |s| >= 1
    ensures s[0] != '-' && s[0] != '+'
    ensures s != "Infinity" && s != "+Infinity" && s != "-Infinity"
  {
    assert IsDigit(s[0]);
    assert "Infinity"[0] == 'I';
    assert "+Infinity"[0] == '+';
    assert "-Infinity"[0] == '-';
  }

  lemma {:induction false} DigitsDecimal(s: string)
    requires AllDigits(s) && |s| >= 1
    ensures UnsignedDecimal(s) == Some(DigitsValue(s) as real)
  {
    assert '.' !in s by {
      forall i | 0 <= i < |s| ensures s[i] != '.' {
        assert IsDigit(s[i]);
      }
    }
    FindAbsent(s, '.');
    assert s[..|s|] == s;
    assert Fraction("") == 0.0;
  }

  lemma FindAbsent(s: string, c: char)
    requires c !in s
    ensures Find(s, c) == |s|
  {
  }
}
