/** `extractFromCopartUrl`: the vehicle identity read from a Copart listing
    URL. The slug after `/lot/<digits>/` is split on `-` into lower-cased
    tokens; the state is the first token that is one of 51 two-letter codes,
    and the first four-digit token anchors year, make and model. */
module CopartUrl {
  import opened Text
  import opened JsValues

  datatype Identity = Identity(year: string, make: string, model: string, state: string)

  const NoIdentity := Identity("", "", "", "")

  // ---------------------------------------------------------------------
  // The pattern /\/lot\/\d+\/([^?#]+)/i as a scan.

  /** The end of the run of decimal digits that starts at `j`. */
  function DigitRunEnd(s: string, j: nat): (k: nat)
    requires j <= |s|
    ensures j <= k <= |s|
    ensures forall m :: j <= m < k ==> IsDigit(s[m])
    ensures k < |s| ==> !IsDigit(s[k])
    decreases |s| - j
  {
    if j < |s| && IsDigit(s[j]) then DigitRunEnd(s, j + 1) else j
  }

  /** The end of the run of characters other than `?` and `#` that starts at `j`. */
  function SlugRunEnd(s: string, j: nat): (k: nat)
    requires j <= |s|
    ensures j <= k <= |s|
    ensures forall m :: j <= m < k ==> s[m] != '?' && s[m] != '#'
    ensures k < |s| ==> s[k] == '?' || s[k] == '#'
    decreases |s| - j
  {
    if j < |s| && s[j] != '?' && s[j] != '#' then SlugRunEnd(s, j + 1) else j
  }

  /** `/lot/` at position i, the letters in either case. */
  predicate LotWordAt(s: string, i: nat)
  {
    i + 5 <= |s| && s[i] == '/' && LowerChar(s[i + 1]) == 'l' && LowerChar(s[i + 2]) == 'o'
    && LowerChar(s[i + 3]) == 't' && s[i + 4] == '/'
  }

  /** `/lot/<digits>/` occupies s[i..k+1], its closing slash at k. */
  predicate LotSegment(s: string, i: nat, k: nat)
  {
    LotWordAt(s, i) && i + 5 < k < |s| && s[k] == '/'
    && forall m :: i + 5 <= m < k ==> IsDigit(s[m])
  }

  /** The capture group of a match of the pattern that starts exactly at i. */
  function MatchAt(s: string, i: nat): (r: Option<string>)
    requires i <= |s|
    ensures r.Some? ==> r.value != [] && '?' !in r.value && '#' !in r.value
  {
    if !LotWordAt(s, i) then None
    else
      var k := DigitRunEnd(s, i + 5);
      if k == i + 5 || k == |s| || s[k] != '/' then None
      else
        var m := SlugRunEnd(s, k + 1);
        if m == k + 1 then None else Some(s[k + 1..m])
  }

  /** A match starts at i exactly when `/lot/`, one or more digits, `/` and
      a character other than `?` and `#` follow one another from i; the
      capture is then the longest run without `?` and `#` after the slash. */
  lemma MatchAtMeaning(s: string, i: nat)
    requires i <= |s|
    ensures MatchAt(s, i).Some? <==>
      exists k: nat :: LotSegment(s, i, k) && k + 1 < |s| && s[k + 1] != '?' && s[k + 1] != '#'
    ensures MatchAt(s, i).Some? ==>
      (exists k: nat :: LotSegment(s, i, k) && MatchAt(s, i).value == s[k + 1..SlugRunEnd(s, k + 1)])
  {
    if LotWordAt(s, i) {
      var k := DigitRunEnd(s, i + 5);
      forall k': nat | LotSegment(s, i, k') ensures k' == k {
        assert !IsDigit(s[k']);
        assert k < |s| ==> !IsDigit(s[k]);
      }
      if !(k == i + 5 || k == |s| || s[k] != '/') {
        assert LotSegment(s, i, k);
      }
    }
  }

  /** The leftmost position at or after i where the pattern matches, or
      |s| + 1 when it matches nowhere. */
  function FirstMatch(s: string, i: nat): (k: nat)
    requires i <= |s|
    ensures i <= k <= |s| + 1
    ensures k <= |s| ==> MatchAt(s, k).Some?
    ensures forall j :: i <= j < k && j <= |s| ==> MatchAt(s, j).None?
    decreases |s| - i
  {
    if MatchAt(s, i).Some? then i
    else if i == |s| then |s| + 1
    else FirstMatch(s, i + 1)
  }

  /** `m ? m[1] : ""` */
  function SlugOf(s: string): string
  {
    var k := FirstMatch(s, 0);
    if k <= |s| then MatchAt(s, k).value else ""
  }

  // ---------------------------------------------------------------------
  // Tokens.

  /** `.map(s => (s || "").trim().toLowerCase()).filter(Boolean)` */
  function CleanTokens(pieces: seq<string>): (tokens: seq<string>)
    ensures |tokens| <= |pieces|
    ensures LowerTokens(tokens)
  {
    if pieces == [] then []
    else
      var t := Lower(JsTrim(pieces[0]));
      var rest := CleanTokens(pieces[1..]);
      if t == "" then rest
      else
        LowerIdempotent(JsTrim(pieces[0]));
        ConsLower(t, rest);
        [t] + rest
  }

  /** Every token is non-empty and lower-case. */
  predicate LowerTokens(tokens: seq<string>)
  {
    forall k :: 0 <= k < |tokens| ==> tokens[k] != "" && Lower(tokens[k]) == tokens[k]
  }

  lemma ConsLower(t: string, rest: seq<string>)
    requires t != "" && Lower(t) == t && LowerTokens(rest)
    ensures LowerTokens([t] + rest)
  {
    var ts := [t] + rest;
    forall k | 0 <= k < |ts| ensures ts[k] != "" && Lower(ts[k]) == ts[k] {
      if k > 0 {
        assert ts[k] == rest[k - 1];
      }
    }
  }

  function Tokens(slug: string): seq<string>
  {
    CleanTokens(Split(slug, '-'))
  }

  /** The tokens a url value yields; a value that is not a non-empty string
      yields none. */
  function UrlTokens(url: JsVal): seq<string>
  {
    if url.Str? && url.s != "" then Tokens(SlugOf(url.s)) else []
  }

  // ---------------------------------------------------------------------
  // State and year.

  /** The 50 states and the District of Columbia, lower-case, written as
      four groups so that facts about them can be checked group by group. */
  const StateCodes: set<string> := StatesAToI + StatesIToM + StatesMToP + StatesRToD

  const StatesAToI: set<string> :=
    {"al", "ak", "az", "ar", "ca", "co", "ct", "de", "fl", "ga", "hi", "id", "il"}
  const StatesIToM: set<string> :=
    {"in", "ia", "ks", "ky", "la", "me", "md", "ma", "mi", "mn", "ms", "mo"}
  const StatesMToP: set<string> :=
    {"mt", "ne", "nv", "nh", "nj", "nm", "ny", "nc", "nd", "oh", "ok", "or", "pa"}
  const StatesRToD: set<string> :=
    {"ri", "sc", "sd", "tn", "tx", "ut", "vt", "va", "wa", "wv", "wi", "wy", "dc"}

  predicate TwoLowerLetters(c: string)
  {
    |c| == 2 && IsAsciiLower(c[0]) && IsAsciiLower(c[1])
  }

  predicate IsYear(t: string) { |t| == 4 && AllDigits(t) }

  /** The upper-cased first token that is a state code, or "". */
  function FirstState(parts: seq<string>): (state: string)
    ensures state == "" <==> forall k :: 0 <= k < |parts| ==> parts[k] !in StateCodes
  {
    if parts == [] then ""
    else if parts[0] in StateCodes then
      StateCodesAreTwoLetters();
      Upper(parts[0])
    else FirstState(parts[1..])
  }

  /** A state that was found is the upper-cased first token in the state
      set. */
  lemma {:induction false} FirstStateIsFirst(parts: seq<string>)
    requires FirstState(parts) != ""
    ensures exists i :: 0 <= i < |parts| && parts[i] in StateCodes && FirstState(parts) == Upper(parts[i])
                        && forall j :: 0 <= j < i ==> parts[j] !in StateCodes
  {
    if parts[0] in StateCodes {
      assert FirstState(parts) == Upper(parts[0]);
    } else {
      FirstStateIsFirst(parts[1..]);
      var i :| 0 <= i < |parts[1..]| && parts[1..][i] in StateCodes && FirstState(parts[1..]) == Upper(parts[1..][i])
               && forall j :: 0 <= j < i ==> parts[1..][j] !in StateCodes;
      assert parts[i + 1] in StateCodes && FirstState(parts) == Upper(parts[i + 1]);
      forall j | 0 <= j < i + 1 ensures parts[j] !in StateCodes {
        if j > 0 {
          assert parts[j] == parts[1..][j - 1];
        }
      }
    }
  }

  /** The index of the first four-digit token, or |parts| when there is none. */
  function FirstYear(parts: seq<string>): (i: nat)
    ensures i <= |parts|
    ensures i < |parts| ==> IsYear(parts[i])
    ensures forall j :: 0 <= j < i ==> !IsYear(parts[j])
  {
    if parts == [] then 0
    else if IsYear(parts[0]) then 0
    else 1 + FirstYear(parts[1..])
  }

  /** `(parts[i] || "").toUpperCase()` */
  function UpperAt(parts: seq<string>, i: nat): string
  {
    if i < |parts| then Upper(parts[i]) else ""
  }

  /** `extractFromCopartUrl(url)` */
  function Extract(url: JsVal): (id: Identity)
  {
    IdentityOf(UrlTokens(url))
  }

  /** The fields read off the tokens of the slug. */
  function IdentityOf(parts: seq<string>): Identity
  {
    var state := FirstState(parts);
    var y := FirstYear(parts);
    if y == |parts| then Identity("", "", "", state)
    else Identity(Upper(parts[y]), UpperAt(parts, y + 1), UpperAt(parts, y + 2), state)
  }

  // ---------------------------------------------------------------------
  // The scans, as the loops of the source.

  /** The state loop: the first token found in the state set, upper-cased. */
  method FindState(parts: seq<string>) returns (state: string)
    ensures state == FirstState(parts)
  {
    state := "";
    var i := 0;
    while i < |parts|
      invariant 0 <= i <= |parts|
      invariant FirstState(parts[i..]) == FirstState(parts)
    {
      if parts[i] in StateCodes {
        state := Upper(parts[i]);
        return;
      }
      assert parts[i..][1..] == parts[i + 1..];
      i := i + 1;
    }
  }

  /** The year loop: the index of the first four-digit token, or -1. */
  method FindYearIndex(parts: seq<string>) returns (yearIdx: int)
    ensures yearIdx == -1 <==> forall k :: 0 <= k < |parts| ==> !IsYear(parts[k])
    ensures yearIdx != -1 ==> 0 <= yearIdx < |parts| && IsYear(parts[yearIdx])
                                && forall j :: 0 <= j < yearIdx ==> !IsYear(parts[j])
  {
    yearIdx := -1;
    var i := 0;
    while i < |parts|
      invariant 0 <= i <= |parts|
      invariant forall j :: 0 <= j < i ==> !IsYear(parts[j])
    {
      if IsYear(parts[i]) {
        yearIdx := i;
        return;
      }
      i := i + 1;
    }
  }

  /** The first-year index is determined by its defining property. */
  lemma FirstYearIs(parts: seq<string>, i: nat)
    requires i <= |parts| && (i < |parts| ==> IsYear(parts[i]))
    requires forall j :: 0 <= j < i ==> !IsYear(parts[j])
    ensures FirstYear(parts) == i
  {
  }

  /** `extractFromCopartUrl(url)` as the source runs it. */
  method ExtractFromCopartUrl(url: JsVal) returns (id: Identity)
    ensures id == Extract(url)
  {
    if !url.Str? || url.s == "" {
      return NoIdentity;
    }
    var slug := SlugOf(url.s);
    var parts := Tokens(slug);
    assert parts == UrlTokens(url);
    id := ScanTokens(parts);
  }

  /** The two scans over the tokens and the fields read from them. */
  method ScanTokens(parts: seq<string>) returns (id: Identity)
    ensures id == IdentityOf(parts)
  {
    var state := FindState(parts);
    var yearIdx := FindYearIndex(parts);
    if yearIdx == -1 {
      FirstYearIs(parts, |parts|);
      return Identity("", "", "", state);
    }
    FirstYearIs(parts, yearIdx);
    var year := Upper(parts[yearIdx]);
    var make := UpperAt(parts, yearIdx + 1);
    var model := UpperAt(parts, yearIdx + 2);
    id := Identity(year, make, model, state);
  }

  // ---------------------------------------------------------------------
  // Properties.

  lemma StateCodesAreTwoLetters()
    ensures forall c :: c in StateCodes ==> TwoLowerLetters(c)
  {
    StatesAToIShape();
    StatesIToMShape();
    StatesMToPShape();
    StatesRToDShape();
  }

  lemma StatesAToIShape() ensures forall c :: c in StatesAToI ==> TwoLowerLetters(c) { }
  lemma StatesIToMShape() ensures forall c :: c in StatesIToM ==> TwoLowerLetters(c) { }
  lemma StatesMToPShape() ensures forall c :: c in StatesMToP ==> TwoLowerLetters(c) { }
  lemma StatesRToDShape() ensures forall c :: c in StatesRToD ==> TwoLowerLetters(c) { }

  /** Digits are unchanged by upper-casing. */
  lemma UpperDigits(t: string)
    requires AllDigits(t)
    ensures Upper(t) == t
  {
    assert forall k :: 0 <= k < |t| ==> UpperChar(t[k]) == t[k] by {
      forall k | 0 <= k < |t| ensures UpperChar(t[k]) == t[k] {
        assert IsDigit(t[k]);
      }
    }
  }

  /** Only a whole two-letter token can name a state: "pennsylvania" never does. */
  lemma OnlyWholeTokensMatch(t: string)
    requires |t| != 2
    ensures FirstState([t]) == ""
  {
    StateCodesAreTwoLetters();
  }

  /** A url that is not a non-empty string, or has no `/lot/<digits>/<slug>`
      segment, yields an all-empty identity. */
  lemma NoLotSegment(url: JsVal)
    requires !url.Str? || url.s == "" || forall i :: 0 <= i <= |url.s| ==> MatchAt(url.s, i).None?
    ensures Extract(url) == NoIdentity
  {
    if url.Str? && url.s != "" {
      NoMatchNoSlug(url.s);
      NoSlugNoTokens();
    }
    assert UrlTokens(url) == [];
  }

  lemma NoMatchNoSlug(s: string)
    requires forall i :: 0 <= i <= |s| ==> MatchAt(s, i).None?
    ensures SlugOf(s) == ""
  {
  }

  lemma NoSlugNoTokens()
    ensures Tokens("") == []
  {
    assert Find("", '-') == 0;
    assert Split("", '-') == [""];
    TrimNoop("", IsJsSpace);
    assert Lower(JsTrim("")) == "";
  }

  /** Without a four-digit token, year, make and model are empty while the
      state is still whatever the state scan found. */
  lemma NoYearKeepsState(url: JsVal)
    requires forall k :: 0 <= k < |UrlTokens(url)| ==> !IsYear(UrlTokens(url)[k])
    ensures var id := Extract(url);
      id.year == "" && id.make == "" && id.model == "" && id.state == FirstState(UrlTokens(url))
  {
  }

  /** With the first four-digit token at index i, the year is that token, the
      make is token i+1 and the model token i+2, upper-cased, each empty when
      out of range. */
  lemma YearAnchorsMakeAndModel(url: JsVal, i: nat)
    requires i < |UrlTokens(url)| && IsYear(UrlTokens(url)[i])
    requires forall j :: 0 <= j < i ==> !IsYear(UrlTokens(url)[j])
    ensures var parts := UrlTokens(url); var id := Extract(url);
      id.year == parts[i]
      && id.make == (if i + 1 < |parts| then Upper(parts[i + 1]) else "")
      && id.model == (if i + 2 < |parts| then Upper(parts[i + 2]) else "")
  {
    var parts := UrlTokens(url);
    FirstYearIs(parts, i);
    UpperDigits(parts[i]);
  }

  /** The identity's shape: a year is four digits, and without a year there
      is neither make nor model. */
  predicate WellFormed(id: Identity)
  {
    (id.year == "" ==> id.make == "" && id.model == "")
    && (id.year != "" ==> IsYear(id.year))
    && (id.make != "" ==> id.year != "")
  }

  lemma ExtractWellFormed(url: JsVal)
    ensures WellFormed(Extract(url))
  {
    var parts := UrlTokens(url);
    var y := FirstYear(parts);
    if y < |parts| {
      UpperDigits(parts[y]);
    }
  }
  // ---------------------------------------------------------------------
  // Case does not matter: tokens are lower-cased before any comparison.

  /** Two slugs that differ only in the case of ASCII letters give the same
      tokens, so "PA", "Pa" and "pa" all name Pennsylvania. */
  lemma TokensIgnoreCase(a: string, b: string)
    requires Lower(a) == Lower(b)
    ensures Tokens(a) == Tokens(b)
  {
    TokensOfLower(a);
    TokensOfLower(b);
  }

  lemma TokensOfLower(s: string)
    ensures Tokens(Lower(s)) == Tokens(s)
  {
    SplitLower(s);
    CleanLower(Split(s, '-'));
  }

  function LowerAll(ps: seq<string>): (r: seq<string>)
    ensures |r| == |ps|
  {
    seq(|ps|, i requires 0 <= i < |ps| => Lower(ps[i]))
  }

  lemma {:induction false} SplitLower(s: string)
    ensures Split(Lower(s), '-') == LowerAll(Split(s, '-'))
    decreases |s|
  {
    var i := Find(s, '-');
    FindLower(s);
    if i < |s| {
      LowerAround(s, i);
      SplitLower(s[i + 1..]);
      LowerAllCons(s[..i], Split(s[i + 1..], '-'));
    } else {
      assert LowerAll([s])[0] == Lower(s);
    }
  }

  lemma LowerAround(s: string, i: nat)
    requires i < |s|
    ensures Lower(s)[..i] == Lower(s[..i]) && Lower(s)[i + 1..] == Lower(s[i + 1..])
  {
  }

  lemma LowerAllCons(p: string, ps: seq<string>)
    ensures LowerAll([p] + ps) == [Lower(p)] + LowerAll(ps)
  {
    var l := LowerAll([p] + ps);
    forall k | 0 <= k < |l| ensures l[k] == ([Lower(p)] + LowerAll(ps))[k] {
      if k > 0 {
        assert ([p] + ps)[k] == ps[k - 1];
      }
    }
  }

  lemma {:induction false} FindLower(s: string)
    ensures Find(Lower(s), '-') == Find(s, '-')
  {
    if s != [] {
      assert Lower(s)[1..] == Lower(s[1..]);
      FindLower(s[1..]);
    }
  }

  lemma {:induction false} CleanLower(ps: seq<string>)
    ensures CleanTokens(LowerAll(ps)) == CleanTokens(ps)
  {
    if ps != [] {
      var q := LowerAll(ps);
      assert q[0] == Lower(ps[0]);
      assert q[1..] == LowerAll(ps[1..]);
      TokenLower(ps[0]);
      CleanLower(ps[1..]);
    }
  }

  /** A piece cleans to the same token whether or not it was lower-cased. */
  lemma TokenLower(p: string)
    ensures Lower(JsTrim(Lower(p))) == Lower(JsTrim(p))
  {
    TrimLower(p);
    LowerIdempotent(JsTrim(p));
  }

  lemma TrimLower(p: string)
    ensures JsTrim(Lower(p)) == Lower(JsTrim(p))
  {
    TrimStartLower(p);
    TrimEndLower(TrimStart(p, IsJsSpace));
  }

  lemma {:induction false} TrimStartLower(p: string)
    ensures TrimStart(Lower(p), IsJsSpace) == Lower(TrimStart(p, IsJsSpace))
  {
    if |p| > 0 {
      assert IsJsSpace(Lower(p)[0]) == IsJsSpace(p[0]);
      assert Lower(p)[1..] == Lower(p[1..]);
      TrimStartLower(p[1..]);
    }
  }

  lemma {:induction false} TrimEndLower(p: string)
    ensures TrimEnd(Lower(p), IsJsSpace) == Lower(TrimEnd(p, IsJsSpace))
  {
    if |p| > 0 {
      assert IsJsSpace(Lower(p)[|p| - 1]) == IsJsSpace(p[|p| - 1]);
      assert Lower(p)[..|p| - 1] == Lower(p[..|p| - 1]);
      TrimEndLower(p[..|p| - 1]);
    }
  }
}
