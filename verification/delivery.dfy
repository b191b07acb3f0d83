/** The fixed-price city table of the delivery settings: the rows the user
    edited are turned back into a table from city name to fixed price and
    distance. */
module Delivery {
  import opened Text
  import opened PyValues

  /** A number cell of the editor: empty, or a number. */
  datatype NumCell = Blank | Value(x: real)

  /** One edited row: city, price and distance cells. */
  datatype Row = Row(city: PyVal, price: NumCell, dist: NumCell)

  /** The fixed price and distance of a city. */
  datatype Fixed = Fixed(price: int, dist: int)

  /** `int(v or 0)`: an empty or zero cell is 0, any other number is cut
      toward zero. */
  function IntOr0(c: NumCell): (n: int)
    ensures c.Blank? ==> n == 0
    ensures c.Value? && c.x >= 0.0 ==> n as real <= c.x < n as real + 1.0
    ensures c.Value? && c.x < 0.0 ==> n as real - 1.0 < c.x <= n as real
  {
    match c
    case Blank => 0
    case Value(x) => if x >= 0.0 then x.Floor else -((-x).Floor)
  }

  /** `str(row.get("Город", "")).strip().upper()` as written: a blank city
      cell holds `None`, whose text is "None". */
  function CityKeyAsWritten(r: Row): (key: string)
    ensures PyStrip(key) == key && Upper(key) == key
  {
    NormalizeCity(PyStr(Get(r.city, Str(""))))
  }

  /** A key of the table: stripped and upper-case. */
  predicate IsCityKey(key: string)
  {
    PyStrip(key) == key && Upper(key) == key
  }

  /** The city key with a blank cell read as no city. */
  function CityKey(r: Row): (key: string)
    ensures IsCityKey(key)
    ensures r.city.Missing? || r.city.Null? ==> key == ""
  {
    if r.city.Null? then "" else CityKeyAsWritten(r)
  }

  function NormalizeCity(s: string): (key: string)
    ensures PyStrip(key) == key && Upper(key) == key
  {
    TrimTrimmed(s, IsPySpace);
    UpperStripped(PyStrip(s));
    UpperIdempotent(PyStrip(s));
    Upper(PyStrip(s))
  }

  /** A row whose city cell was left blank becomes a "NONE" city. */
  lemma BlankCityAsWritten()
    ensures CityKeyAsWritten(Row(Null, Value(500.0), Blank)) == "NONE"
  {
    assert PyStr(Get(Null, Str(""))) == "None";
    NoneKey();
  }

  lemma NoneKey()
    ensures NormalizeCity("None") == "NONE"
  {
    NoneStripped();
    NoneUpper();
  }

  lemma NoneStripped()
    ensures PyStrip("None") == "None"
  {
    var s := "None";
    assert !IsPySpace(s[0]) && !IsPySpace(s[|s| - 1]);
    TrimNoop(s, IsPySpace);
  }

  lemma NoneUpper()
    ensures Upper("None") == "NONE"
  {
    var u := Upper("None");
    assert u[0] == 'N' && u[1] == 'O' && u[2] == 'N' && u[3] == 'E';
  }

  /** The key of every row, by the given reading of the city cell. */
  function Keys(rows: seq<Row>, cityKey: Row -> string): (keys: seq<string>)
    ensures |keys| == |rows|
    ensures forall i :: 0 <= i < |rows| ==> keys[i] == cityKey(rows[i])
  {
    seq(|rows|, i requires 0 <= i < |rows| => cityKey(rows[i]))
  }

  /** Index of the last key equal to `city`, or -1. */
  function LastWith(keys: seq<string>, city: string): (i: int)
    ensures -1 <= i < |keys|
    ensures i >= 0 ==> keys[i] == city
    ensures forall j :: i < j < |keys| ==> keys[j] != city
  {
    if keys == [] then -1
    else if keys[|keys| - 1] == city then |keys| - 1
    else LastWith(keys[..|keys| - 1], city)
  }

  /** Index of the first key equal to `city`, or -1. */
  function FirstWith(keys: seq<string>, city: string): (i: int)
    ensures -1 <= i < |keys|
    ensures i >= 0 ==> keys[i] == city
    ensures forall j :: 0 <= j < |keys| && (i < 0 || j < i) ==> keys[j] != city
  {
    if keys == [] then -1
    else
      var i := FirstWith(keys[..|keys| - 1], city);
      if i >= 0 then i
      else if keys[|keys| - 1] == city then |keys| - 1
      else -1
  }

  /** The table entry a row gives. */
  function Of(r: Row): (f: Fixed)
    ensures f.price == IntOr0(r.price) && f.dist == IntOr0(r.dist)
  {
    Fixed(IntOr0(r.price), IntOr0(r.dist))
  }

  /** The `new_fixed` loop, with the reading of the city cell as a
      parameter: `CityKeyAsWritten` as the code has it, or the corrected
      `CityKey`. Every named city gets one entry, taken from its last row,
      so a later row for a city overrides an earlier one; cities are listed
      in the order they first appear. */
  method RebuildFixed(rows: seq<Row>, cityKey: Row -> string) returns (cities: seq<string>, fixed: map<string, Fixed>)
    requires forall r :: IsCityKey(cityKey(r))
    ensures Distinct(cities)
    ensures forall c :: c in fixed <==> c in cities
    ensures forall c :: c in fixed <==> c != "" && LastWith(Keys(rows, cityKey), c) >= 0
    ensures forall c :: c in fixed ==> IsCityKey(c) && fixed[c] == Of(rows[LastWith(Keys(rows, cityKey), c)])
    ensures InFirstAppearanceOrder(Keys(rows, cityKey), cities)
  {
    ghost var keys := Keys(rows, cityKey);
    cities := [];
    fixed := map[];
    for i := 0 to |rows|
      invariant RebuildInv(keys, rows, i, cities, fixed)
    {
      ghost var cities0, fixed0 := cities, fixed;
      var city := cityKey(rows[i]);
      if city != "" {
        if city !in fixed {
          cities := cities + [city];
        }
        fixed := fixed[city := Of(rows[i])];
      }
      RebuildStep(keys, rows, i, cities0, fixed0, cities, fixed);
    }
    RebuildDone(rows, cityKey, cities, fixed);
  }

  /** After the last row the invariant is the method's promise. */
  lemma RebuildDone(rows: seq<Row>, cityKey: Row -> string, cities: seq<string>, fixed: map<string, Fixed>)
    requires RebuildInv(Keys(rows, cityKey), rows, |rows|, cities, fixed)
    ensures Distinct(cities)
    ensures forall c :: c in fixed <==> c in cities
    ensures forall c :: c in fixed <==> c != "" && LastWith(Keys(rows, cityKey), c) >= 0
    ensures forall c :: c in fixed ==> IsCityKey(c) && fixed[c] == Of(rows[LastWith(Keys(rows, cityKey), c)])
    ensures InFirstAppearanceOrder(Keys(rows, cityKey), cities)
  {
    var keys := Keys(rows, cityKey);
    assert keys[..|rows|] == keys;
  }

  /** What the loop of `RebuildFixed` keeps after the first `n` rows. */
  ghost predicate RebuildInv(keys: seq<string>, rows: seq<Row>, n: nat, cities: seq<string>, fixed: map<string, Fixed>)
    requires |keys| == |rows| && n <= |rows|
  {
    TableInv(keys, rows, n, cities, fixed)
    && OrderInv(keys, n, cities)
    && (forall c :: c in fixed ==> IsCityKey(c))
  }

  /** One row of the loop keeps its invariant. */
  lemma RebuildStep(keys: seq<string>, rows: seq<Row>, n: nat, cities: seq<string>, fixed: map<string, Fixed>,
                    cities': seq<string>, fixed': map<string, Fixed>)
    requires |keys| == |rows| && n < |rows| && RebuildInv(keys, rows, n, cities, fixed) && IsCityKey(keys[n])
    requires cities' == if keys[n] == "" || keys[n] in fixed then cities else cities + [keys[n]]
    requires fixed' == if keys[n] == "" then fixed else fixed[keys[n] := Of(rows[n])]
    ensures RebuildInv(keys, rows, n + 1, cities', fixed')
  {
    TableStep(keys, rows, n, cities, fixed);
    OrderStep(keys, n, cities, fixed);
  }

  /** The rebuild as written gives a row with a blank city cell the entry
      "NONE". */
  lemma BlankRowAsWritten(rows: seq<Row>)
    requires rows == [Row(Null, Value(500.0), Blank)]
    ensures LastWith(Keys(rows, CityKeyAsWritten), "NONE") == 0
  {
    var keys := Keys(rows, CityKeyAsWritten);
    BlankCityAsWritten();
    assert keys[0] == CityKeyAsWritten(Row(Null, Value(500.0), Blank)) == "NONE";
  }

  /** With the corrected key the same row adds nothing. */
  lemma BlankRowCorrected(rows: seq<Row>, c: string)
    requires rows == [Row(Null, Value(500.0), Blank)] && c != ""
    ensures LastWith(Keys(rows, CityKey), c) == -1
  {
    var keys := Keys(rows, CityKey);
    assert keys[0] == CityKey(rows[0]) == "";
  }

  /** The entries part of the loop's invariant. */
  ghost predicate TableInv(keys: seq<string>, rows: seq<Row>, n: nat, cities: seq<string>, fixed: map<string, Fixed>)
    requires |keys| == |rows| && n <= |rows|
  {
    Distinct(cities)
    && (forall c :: c in fixed <==> c in cities)
    && (forall c :: c in fixed <==> c != "" && LastWith(keys[..n], c) >= 0)
    && (forall c :: c in fixed ==> fixed[c] == Of(rows[LastWith(keys[..n], c)]))
  }

  lemma TableStep(keys: seq<string>, rows: seq<Row>, n: nat, cities: seq<string>, fixed: map<string, Fixed>)
    requires |keys| == |rows| && n < |rows| && TableInv(keys, rows, n, cities, fixed)
    ensures keys[n] == "" ==> TableInv(keys, rows, n + 1, cities, fixed)
    ensures keys[n] != "" ==>
      TableInv(keys, rows, n + 1, if keys[n] in fixed then cities else cities + [keys[n]], fixed[keys[n] := Of(rows[n])])
  {
    forall c ensures LastWith(keys[..n + 1], c) == if keys[n] == c then n else LastWith(keys[..n], c) {
      LastWithStep(keys, n, c);
    }
    assert LastWithSteps(keys, n);
    if keys[n] != "" {
      TableAdd(keys, rows, n, cities, fixed);
    }
  }

  lemma TableAdd(keys: seq<string>, rows: seq<Row>, n: nat, cities: seq<string>, fixed: map<string, Fixed>)
    requires |keys| == |rows| && n < |rows| && TableInv(keys, rows, n, cities, fixed) && keys[n] != ""
    requires LastWithSteps(keys, n)
    ensures TableInv(keys, rows, n + 1, if keys[n] in fixed then cities else cities + [keys[n]], fixed[keys[n] := Of(rows[n])])
  {
    var k := keys[n];
    var cities' := if k in fixed then cities else cities + [k];
    var fixed' := fixed[k := Of(rows[n])];
    if k !in fixed {
      assert k !in cities;
      DistinctAppend(cities, k);
    }
    forall c ensures c in fixed' <==> c in cities' {
    }
    forall c ensures c in fixed' <==> c != "" && LastWith(keys[..n + 1], c) >= 0 {
    }
    forall c | c in fixed' ensures fixed'[c] == Of(rows[LastWith(keys[..n + 1], c)]) {
    }
  }

  /** Every listed city occurs among the keys, and each occurs first
      before the cities listed after it. */
  predicate InFirstAppearanceOrder(keys: seq<string>, cities: seq<string>)
  {
    (forall c :: c in cities ==> 0 <= FirstWith(keys, c))
    && (forall i, j :: 0 <= i < j < |cities| ==> FirstWith(keys, cities[i]) < FirstWith(keys, cities[j]))
  }

  /** The order part of the loop's invariant: every listed city occurs
      among the first `n` keys, and the list is ordered by first
      occurrence. */
  ghost predicate OrderInv(keys: seq<string>, n: nat, cities: seq<string>)
    requires n <= |keys|
  {
    (forall c :: c in cities ==> 0 <= FirstWith(keys[..n], c))
    && (forall i, j :: 0 <= i < j < |cities| ==> FirstWith(keys[..n], cities[i]) < FirstWith(keys[..n], cities[j]))
  }

  lemma OrderStep(keys: seq<string>, n: nat, cities: seq<string>, fixed: map<string, Fixed>)
    requires n < |keys| && OrderInv(keys, n, cities)
    requires forall c :: c in fixed <==> c in cities
    requires forall c :: c in fixed <==> c != "" && LastWith(keys[..n], c) >= 0
    ensures keys[n] == "" || keys[n] in fixed ==> OrderInv(keys, n + 1, cities)
    ensures keys[n] != "" && keys[n] !in fixed ==> OrderInv(keys, n + 1, cities + [keys[n]])
  {
    forall c ensures FirstWith(keys[..n + 1], c) ==
      if FirstWith(keys[..n], c) >= 0 then FirstWith(keys[..n], c) else if keys[n] == c then n else -1
    {
      FirstWithStep(keys, n, c);
    }
    assert FirstWithSteps(keys, n);
    if keys[n] != "" && keys[n] !in fixed {
      assert LastWith(keys[..n], keys[n]) < 0;
      OrderAdd(keys, n, cities);
    } else {
      OrderKeep(keys, n, cities);
    }
  }

  ghost predicate FirstWithSteps(keys: seq<string>, n: nat)
    requires n < |keys|
  {
    forall c :: FirstWith(keys[..n + 1], c) ==
      if FirstWith(keys[..n], c) >= 0 then FirstWith(keys[..n], c) else if keys[n] == c then n else -1
  }

  /** A key seen before moves no city's first occurrence. */
  lemma OrderKeep(keys: seq<string>, n: nat, cities: seq<string>)
    requires n < |keys| && OrderInv(keys, n, cities) && FirstWithSteps(keys, n)
    ensures OrderInv(keys, n + 1, cities)
  {
    forall c | c in cities ensures FirstWith(keys[..n + 1], c) == FirstWith(keys[..n], c) {
    }
  }

  /** A key not seen before first occurs at `n`, after every listed city. */
  lemma OrderAdd(keys: seq<string>, n: nat, cities: seq<string>)
    requires n < |keys| && OrderInv(keys, n, cities) && FirstWithSteps(keys, n)
    requires forall j :: 0 <= j < n ==> keys[j] != keys[n]
    ensures OrderInv(keys, n + 1, cities + [keys[n]])
  {
    var k := keys[n];
    var cities' := cities + [k];
    assert FirstWith(keys[..n], k) < 0;
    assert FirstWith(keys[..n + 1], k) == n;
    forall c | c in cities ensures FirstWith(keys[..n + 1], c) == FirstWith(keys[..n], c) < n {
    }
    forall i, j | 0 <= i < j < |cities'| ensures FirstWith(keys[..n + 1], cities'[i]) < FirstWith(keys[..n + 1], cities'[j]) {
      assert cities'[i] in cities;
    }
  }

  lemma FirstWithStep(keys: seq<string>, n: nat, c: string)
    requires n < |keys|
    ensures FirstWith(keys[..n + 1], c) ==
      if FirstWith(keys[..n], c) >= 0 then FirstWith(keys[..n], c) else if keys[n] == c then n else -1
  {
    assert keys[..n + 1][..n] == keys[..n];
  }

  ghost predicate LastWithSteps(keys: seq<string>, n: nat)
    requires n < |keys|
  {
    forall c :: LastWith(keys[..n + 1], c) == if keys[n] == c then n else LastWith(keys[..n], c)
  }

  /** One more key is the last one equal to itself, and changes nothing for
      the other cities. */
  lemma LastWithStep(keys: seq<string>, n: nat, c: string)
    requires n < |keys|
    ensures LastWith(keys[..n + 1], c) == if keys[n] == c then n else LastWith(keys[..n], c)
  {
    assert keys[..n + 1][..n] == keys[..n];
  }

  /** With blank cells read as no city, a row whose city is blank or only
      white space never adds an entry. */
  lemma BlankCityIgnored(rows: seq<Row>, i: nat)
    requires i < |rows|
    requires rows[i].city.Null? || rows[i].city.Missing?
             || (rows[i].city.Str? && forall k :: 0 <= k < |rows[i].city.s| ==> IsPySpace(rows[i].city.s[k]))
    ensures CityKey(rows[i]) == ""
  {
    if rows[i].city.Str? {
      AllSpaceStrips(rows[i].city.s);
    }
  }

  lemma AllSpaceStrips(s: string)
    requires forall k :: 0 <= k < |s| ==> IsPySpace(s[k])
    ensures PyStrip(s) == ""
  {
    var u := TrimStart(s, IsPySpace);
    assert u == s[|s| - |u|..];
  }
}
