/** `buildPriceLine(oldBnp, bnp)`: the price line of a lot notification,
    with a drop percentage when the price fell by more than 0.05%. */
module PriceLine {
  import opened Text
  import opened JsValues
  import opened MoneyFormat

  /** `v !== "" && v !== null && v !== undefined`: zero counts as a price. */
  predicate Present(v: JsVal) { v != Str("") && !Nullish(v) }

  /** `p.toFixed(1)` for a non-negative p, computed on the exact value:
      the nearest tenth, halves rounding up. */
  function Fixed1(p: real): string
    requires p >= 0.0
  {
    var n := Tenths(p);
    NatDigits(n / 10) + "." + [DigitChar(n % 10)]
  }

  /** The number of tenths `toFixed(1)` shows for p. */
  function Tenths(p: real): (n: nat)
    requires p >= 0.0
    ensures n as real / 10.0 - 0.05 <= p < n as real / 10.0 + 0.05
  {
    (p * 10.0 + 0.5).Floor
  }

  /** The percentage the drop suffix shows, when it is shown at all. */
  function DropPercent(oldBnp: JsVal, bnp: JsVal): Option<real>
  {
    DropOf(ToNumber(oldBnp), ToNumber(bnp))
  }

  /** The drop percentage of two numbers, when it is shown. */
  function DropOf(o: Num, n: Num): Option<real>
  {
    if o.Finite? && n.Finite? && o.value > 0.0 then
      var p := (o.value - n.value) / o.value * 100.0;
      if p > 0.05 then Some(p) else None
    else None
  }

  /** The "🔻" suffix of the price line, or "". */
  function DropSuffix(oldBnp: JsVal, bnp: JsVal): string
  {
    match DropPercent(oldBnp, bnp)
    case Some(p) => "  \U{1F53B} " + Fixed1(p) + "%"
    case None => ""
  }

  /** `buildPriceLine(oldBnp, bnp)` */
  function BuildPriceLine(oldBnp: JsVal, bnp: JsVal): (line: string)
    ensures line == "n/a" <==> !Present(oldBnp) && !Present(bnp)
    ensures line != "n/a" ==> |line| >= 1 && line[0] == '$'
  {
    assert "n/a"[0] == 'n';
    var hasNew := Present(bnp);
    var hasOld := Present(oldBnp);
    if !hasNew && !hasOld then "n/a"
    else if hasOld && hasNew then "$" + Money(oldBnp) + " => $" + Money(bnp) + DropSuffix(oldBnp, bnp)
    else if hasNew then "$" + Money(bnp)
    else "$" + Money(oldBnp)
  }

  // ---------------------------------------------------------------------
  // Properties.

  /** Exactly one price present: the line is that price alone. */
  lemma OnePrice(oldBnp: JsVal, bnp: JsVal)
    requires Present(oldBnp) != Present(bnp)
    ensures BuildPriceLine(oldBnp, bnp) == "$" + Money(if Present(bnp) then bnp else oldBnp)
  {
  }

  /** Both prices present: old price, arrow, new price, then the suffix. */
  lemma TwoPrices(oldBnp: JsVal, bnp: JsVal)
    requires Present(oldBnp) && Present(bnp)
    ensures BuildPriceLine(oldBnp, bnp) == "$" + Money(oldBnp) + " => $" + Money(bnp) + DropSuffix(oldBnp, bnp)
  {
  }

  /** The 0.05% threshold as an exact inequality: the suffix appears exactly
      when both prices are finite numbers, the old one is positive, and
      2000 times the drop exceeds the old price. */
  lemma DropThreshold(oldBnp: JsVal, bnp: JsVal)
    ensures DropPercent(oldBnp, bnp).Some? <==>
      ToNumber(oldBnp).Finite? && ToNumber(bnp).Finite? && ToNumber(oldBnp).value > 0.0
      && 2000.0 * (ToNumber(oldBnp).value - ToNumber(bnp).value) > ToNumber(oldBnp).value
  {
    DropOfThreshold(ToNumber(oldBnp), ToNumber(bnp));
  }

  lemma DropOfThreshold(o: Num, n: Num)
    ensures DropOf(o, n).Some? <==>
      o.Finite? && n.Finite? && o.value > 0.0 && 2000.0 * (o.value - n.value) > o.value
  {
    if o.Finite? && n.Finite? && o.value > 0.0 {
      ScaledDrop(o.value, n.value);
    }
  }

  lemma ScaledDrop(o: real, n: real)
    requires o > 0.0
    ensures (o - n) / o * 100.0 > 0.05 <==> 2000.0 * (o - n) > o
  {
    var x := (o - n) / o * 100.0;
    assert x * o == 100.0 * (o - n);
    if x > 0.05 {
      MulRight(x, 0.05, o);
    } else {
      MulRightWeak(x, 0.05, o);
    }
  }

  lemma MulRight(a: real, b: real, c: real)
    requires a > b && c > 0.0
    ensures a * c > b * c
  {
  }

  lemma MulRightWeak(a: real, b: real, c: real)
    requires a <= b && c > 0.0
    ensures a * c <= b * c
  {
  }

  /** An unchanged or higher price never shows a drop. */
  lemma NoDropOnIncrease(oldBnp: JsVal, bnp: JsVal)
    requires ToNumber(oldBnp).Finite? && ToNumber(bnp).Finite?
    requires ToNumber(bnp).value >= ToNumber(oldBnp).value
    ensures DropSuffix(oldBnp, bnp) == ""
  {
    DropThreshold(oldBnp, bnp);
  }

  /** A drop of exactly 0.05% (10000 to 9995) shows nothing; one of 0.06%
      (10000 to 9994) shows the suffix. */
  lemma ThresholdExamples()
    ensures DropSuffix(Number(10000.0, "10000"), Number(9995.0, "9995")) == ""
    ensures DropSuffix(Number(10000.0, "10000"), Number(9994.0, "9994")) != ""
  {
    DropThreshold(Number(10000.0, "10000"), Number(9995.0, "9995"));
    DropThreshold(Number(10000.0, "10000"), Number(9994.0, "9994"));
  }

  /** Zero is a price, not an absent one. */
  lemma ZeroIsAPrice()
    ensures BuildPriceLine(Str(""), Number(0.0, "0")) == "$0"
  {
    assert Round(0.0) == 0;
    assert NatDigits(0) == "0";
  }

  /** 11000 down to 9500 is a 13.6% drop. */
  lemma DropExample()
    ensures BuildPriceLine(Number(11000.0, "11000"), Number(9500.0, "9500"))
      == "$11,000 => $9,500  \U{1F53B} 13.6%"
  {
    var oldBnp := Number(11000.0, "11000");
    var bnp := Number(9500.0, "9500");
    TwoPrices(oldBnp, bnp);
    MoneyExamples();
    PercentExample();
    LiteralLine("11,000", "9,500", "  \U{1F53B} 13.6%");
  }

  lemma LiteralLine(a: string, b: string, c: string)
    requires a == "11,000" && b == "9,500" && c == "  \U{1F53B} 13.6%"
    ensures "$" + a + " => $" + b + c == "$11,000 => $9,500  \U{1F53B} 13.6%"
  {
  }

  lemma MoneyExamples()
    ensures Money(Number(11000.0, "11000")) == "11,000"
    ensures Money(Number(9500.0, "9500")) == "9,500"
  {
    assert Round(11000.0) == 11000;
    assert Round(9500.0) == 9500;
    Digits11000();
    Digits9500();
    assert Group("11000") == "11,000" by {
      assert "11000"[..2] == "11";
      assert "11000"[2..] == "000";
    }
    assert Group("9500") == "9,500" by {
      assert "9500"[..1] == "9";
      assert "9500"[1..] == "500";
    }
  }

  lemma Digits11000()
    ensures NatDigits(11000) == "11000"
  {
    assert NatDigits(11) == "11";
    assert NatDigits(110) == "110";
    assert NatDigits(1100) == "1100";
  }

  lemma Digits9500()
    ensures NatDigits(9500) == "9500"
  {
    assert NatDigits(95) == "95";
    assert NatDigits(950) == "950";
  }

  lemma PercentExample()
    ensures DropSuffix(Number(11000.0, "11000"), Number(9500.0, "9500")) == "  \U{1F53B} 13.6%"
  {
    var p := (11000.0 - 9500.0) / 11000.0 * 100.0;
    assert p == 1500.0 / 110.0;
    assert DropPercent(Number(11000.0, "11000"), Number(9500.0, "9500")) == Some(p);
    assert Tenths(p) == 136 by {
      assert p * 10.0 + 0.5 == 15000.0 / 110.0 + 0.5;
      assert 136.0 <= p * 10.0 + 0.5 < 137.0;
    }
    assert NatDigits(13) == "13";
    assert Fixed1(p) == "13.6";
  }
}
