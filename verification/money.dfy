/** `money(n)` of the webhook handler: `Number(n)`, then `Math.round`, then
    en-US grouping of the integer's digits in threes with commas. */
module MoneyFormat {
  import opened Text
  import opened JsValues

  /** `Math.round`: the nearest integer, halves rounding up. */
  function Round(x: real): (n: int)
    ensures n as real - 0.5 <= x < n as real + 0.5
  {
    (x + 0.5).Floor
  }

  /** Inserts a comma before every group of three digits counted from the right. */
  function Group(d: string): (g: string)
  {
    if |d| <= 3 then d else Group(d[..|d| - 3]) + "," + d[|d| - 3..]
  }

  /** Comma-grouped digits: a leading group of one to three digits, then
      groups of exactly three, each introduced by a comma. */
  predicate Grouped(s: string)
  {
    if |s| <= 3 then 1 <= |s| && AllDigits(s)
    else s[|s| - 4] == ',' && AllDigits(s[|s| - 3..]) && Grouped(s[..|s| - 4])
  }

  /** Drops the commas of a grouped number. */
  function Ungroup(s: string): (d: string)
  {
    if s == [] then [] else Ungroup(s[..|s| - 1]) + (if s[|s| - 1] == ',' then [] else [s[|s| - 1]])
  }

  lemma GroupIsGrouped(d: string)
    requires |d| >= 1 && AllDigits(d)
    ensures Grouped(Group(d))
    ensures Ungroup(Group(d)) == d
  {
    GroupedGroup(d);
    UngroupGroup(d);
  }

  lemma {:induction false} GroupedGroup(d: string)
    requires |d| >= 1 && AllDigits(d)
    ensures Grouped(Group(d))
  {
    if |d| > 3 {
      var head := Group(d[..|d| - 3]);
      var tail := d[|d| - 3..];
      GroupedGroup(d[..|d| - 3]);
      var g := Group(d);
      assert g == head + "," + tail;
      assert g[..|g| - 4] == head;
      assert g[|g| - 4] == ',';
      assert g[|g| - 3..] == tail;
    }
  }

  lemma {:induction false} UngroupGroup(d: string)
    requires AllDigits(d)
    ensures Ungroup(Group(d)) == d
  {
    if |d| > 3 {
      var front := d[..|d| - 3];
      var tail := d[|d| - 3..];
      UngroupGroup(front);
      UngroupComma(Group(front), tail);
      UngroupNoComma(tail);
      assert d == front + tail;
    } else {
      UngroupNoComma(d);
    }
  }

  lemma UngroupComma(a: string, b: string)
    ensures Ungroup(a + "," + b) == Ungroup(a) + Ungroup(b)
  {
    UngroupAppend(a + ",", b);
    UngroupAppend(a, ",");
    assert Ungroup(",") == [] by { assert ","[..0] == []; }
  }

  lemma {:induction false} UngroupNoComma(s: string)
    requires AllDigits(s)
    ensures Ungroup(s) == s
  {
    if s != [] {
      UngroupNoComma(s[..|s| - 1]);
    }
  }

  lemma {:induction false} UngroupAppend(a: string, b: string)
    ensures Ungroup(a + b) == Ungroup(a) + Ungroup(b)
    decreases |b|
  {
    if b != [] {
      assert (a + b)[..|a + b| - 1] == a + b[..|b| - 1];
      UngroupAppend(a, b[..|b| - 1]);
    } else {
      assert a + b == a;
    }
  }

  /** The en-US text of `Math.round(x)`. A value in [-0.5, 0) rounds to
      negative zero, which en-US formatting shows as "-0". */
  function FormatWhole(x: real): (r: string)
  {
    var n := Round(x);
    (if n < 0 || x < 0.0 then "-" else "") + Group(NatDigits(if n < 0 then -n else n))
  }

  /** `money(n)` */
  function Money(v: JsVal): (r: string)
    ensures ToNumber(v).Finite? <==> r != ""
  {
    match ToNumber(v)
    case Finite(x) => FormatWhole(x)
    case _ => ""
  }

  /** Reads a number printed by `FormatWhole` back: optional minus sign,
      commas ignored. */
  function WholeValue(s: string): int
  {
    var neg := |s| > 0 && s[0] == '-';
    var digits := Ungroup(if neg then s[1..] else s);
    if AllDigits(digits) then (if neg then -(DigitsValue(digits) as int) else DigitsValue(digits)) else 0
  }

  /** `money` prints a whole number with no fractional part: its text is a
      sign and comma-grouped digits, and it reads back as `Math.round` of
      the input. */
  lemma MoneyRoundTrip(v: JsVal)
    requires ToNumber(v).Finite?
    ensures var r := Money(v);
      var body := if r[0] == '-' then r[1..] else r;
      Grouped(body) && '.' !in r
      && WholeValue(r) == Round(ToNumber(v).value)
  {
    FormatRoundTrip(ToNumber(v).value);
  }

  lemma FormatRoundTrip(x: real)
    ensures var r := FormatWhole(x);
      var body := if r[0] == '-' then r[1..] else r;
      Grouped(body) && '.' !in r && WholeValue(r) == Round(x)
  {
    var n := Round(x);
    var neg := n < 0 || x < 0.0;
    var m: nat := if n < 0 then -n else n;
    RoundSign(x);
    assert (if neg then -(m as int) else m) == n;
    SignedRoundTrip(neg, m);
    assert FormatWhole(x) == (if neg then "-" else "") + Group(NatDigits(m));
  }

  lemma RoundSign(x: real)
    ensures x < 0.0 ==> Round(x) <= 0
  {
  }

  /** A sign followed by the grouped digits of `m`. */
  lemma SignedRoundTrip(neg: bool, m: nat)
    ensures var r := (if neg then "-" else "") + Group(NatDigits(m));
      var body := if r[0] == '-' then r[1..] else r;
      Grouped(body) && '.' !in r && WholeValue(r) == (if neg then -(m as int) else m)
  {
    var d := NatDigits(m);
    var g := Group(d);
    GroupIsGrouped(d);
    DigitsRoundTrip(m);
    GroupedNoDot(g);
    GroupedFirst(g);
    SignedValue(neg, g, d);
  }

  lemma SignedValue(neg: bool, g: string, d: string)
    requires |g| >= 1 && g[0] != '-' && AllDigits(d) && Ungroup(g) == d
    ensures var r := (if neg then "-" else "") + g;
      (if r[0] == '-' then r[1..] else r) == g
      && WholeValue(r) == (if neg then -(DigitsValue(d) as int) else DigitsValue(d))
  {
    if neg {
      assert ("-" + g)[1..] == g;
    }
  }

  lemma {:induction false} GroupedNoDot(s: string)
    requires Grouped(s)
    ensures '.' !in s && '-' !in s
  {
    if |s| > 3 {
      GroupedNoDot(s[..|s| - 4]);
      assert s == s[..|s| - 4] + [','] + s[|s| - 3..];
    }
  }

  lemma {:induction false} GroupedFirst(s: string)
    requires Grouped(s)
    ensures IsDigit(s[0])
  {
    if |s| > 3 {
      GroupedFirst(s[..|s| - 4]);
    }
  }
}
