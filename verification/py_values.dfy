/** The values the dashboard reads out of history entries and table rows,
    and the few Python operations applied to them: `dict.get` with a
    default, truthiness, `str(…)` and `str.strip()`. */
module PyValues {
  import opened Text

  /** A field of a JSON object as Python sees it: absent, `None`, an
      integer or a string. */
  datatype PyVal = Missing | Null | Int(i: int) | Str(s: string)

  /** `d.get(key, default)` */
  function Get(v: PyVal, default: PyVal): (r: PyVal)
    ensures v.Missing? ==> r == default
    ensures !v.Missing? ==> r == v
  {
    if v.Missing? then default else v
  }

  predicate Truthy(v: PyVal)
  {
    match v
    case Missing => false
    case Null => false
    case Int(i) => i != 0
    case Str(s) => s != ""
  }

  /** `str(i)` for an integer. */
  function IntText(i: int): (t: string)
    ensures |t| >= 1
  {
    if i < 0 then "-" + NatDigits(-i) else NatDigits(i)
  }

  /** `str(v)`; what `d.get(key)` gives for an absent key is `None`. */
  function PyStr(v: PyVal): string
  {
    match v
    case Missing => "None"
    case Null => "None"
    case Int(i) => IntText(i)
    case Str(s) => s
  }

  /** The characters `str.isspace()` accepts, which `str.strip()` removes. */
  predicate IsPySpace(c: char)
  {
    ('\t' <= c <= '\r') || ('\U{1C}' <= c <= '\U{1F}') || c == ' '
    || c == '\U{85}' || c == '\U{A0}' || c == '\U{1680}' || ('\U{2000}' <= c <= '\U{200A}')
    || c == '\U{2028}' || c == '\U{2029}' || c == '\U{202F}' || c == '\U{205F}' || c == '\U{3000}'
  }

  /** `s.strip()` */
  function PyStrip(s: string): string
  {
    Trim(s, IsPySpace)
  }

  /** Upper-casing keeps white space where it is, so a stripped string stays
      stripped. */
  lemma UpperStripped(s: string)
    requires PyStrip(s) == s
    ensures PyStrip(Upper(s)) == Upper(s)
  {
    StrippedEnds(s);
    TrimNoop(Upper(s), IsPySpace);
  }

  lemma LowerStripped(s: string)
    requires PyStrip(s) == s
    ensures PyStrip(Lower(s)) == Lower(s)
  {
    StrippedEnds(s);
    TrimNoop(Lower(s), IsPySpace);
  }

  /** A stripped string starts and ends with a non-space. */
  lemma StrippedEnds(s: string)
    requires PyStrip(s) == s
    ensures s == [] || (!IsPySpace(s[0]) && !IsPySpace(s[|s| - 1]))
  {
    if s != [] {
      var u := TrimStart(s, IsPySpace);
      assert |u| <= |s|;
      assert TrimEnd(u, IsPySpace) == s;
      assert u == s;
    }
  }
}
