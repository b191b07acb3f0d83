/** The filter settings form of the dashboard: comma-separated lists typed
    by the user are turned into clean lists of codes, and a state that
    requires a seller is never also a blocked state. */
module Filters {
  import opened Text
  import opened PyValues

  /** `s.upper()` or `s.lower()`. */
  function Case(s: string, upper: bool): (r: string)
    ensures |r| == |s|
  {
    if upper then Upper(s) else Lower(s)
  }

  /** A list item as the form stores it: non-empty, stripped, in the list's
      case, and free of the separator. */
  predicate CleanItem(x: string, upper: bool)
  {
    x != "" && PyStrip(x) == x && Case(x, upper) == x && ',' !in x
  }

  /** `[x.strip().upper() for x in text.split(",") if x.strip()]`, or with
      `lower()` for the seller blacklist. */
  function NormalizeList(text: string, upper: bool): (items: seq<string>)
    ensures AllClean(items, upper)
  {
    CleanPiecesClean(Split(text, ','), upper);
    CleanPieces(Split(text, ','), upper)
  }

  /** The comprehension over the pieces of the split text. */
  function CleanPieces(pieces: seq<string>, upper: bool): (items: seq<string>)
    ensures |items| <= |pieces|
  {
    if pieces == [] then []
    else
      Head(pieces[0], upper) + CleanPieces(pieces[1..], upper)
  }

  /** What one piece adds: nothing when it is blank, else its stripped,
      re-cased text. */
  function Head(piece: string, upper: bool): seq<string>
  {
    var x := PyStrip(piece);
    if x != "" then [Case(x, upper)] else []
  }

  lemma CleanHead(p: string, upper: bool)
    requires ',' !in p
    ensures AllClean(Head(p, upper), upper)
  {
    if PyStrip(p) != "" {
      CleanOne(p, upper);
    }
  }

  /** Every item of the list is clean. */
  predicate AllClean(items: seq<string>, upper: bool)
  {
    forall k :: 0 <= k < |items| ==> CleanItem(items[k], upper)
  }

  /** Pieces without the separator give clean items only. */
  lemma {:induction false} CleanPiecesClean(pieces: seq<string>, upper: bool)
    requires forall k :: 0 <= k < |pieces| ==> ',' !in pieces[k]
    ensures AllClean(CleanPieces(pieces, upper), upper)
  {
    if pieces != [] {
      var rest := pieces[1..];
      assert forall k :: 0 <= k < |rest| ==> rest[k] == pieces[k + 1];
      CleanPiecesClean(rest, upper);
      assert ',' !in pieces[0];
      CleanHead(pieces[0], upper);
      CleanConcat(Head(pieces[0], upper), CleanPieces(rest, upper), upper);
    }
  }

  lemma CleanConcat(a: seq<string>, b: seq<string>, upper: bool)
    requires AllClean(a, upper) && AllClean(b, upper)
    ensures AllClean(a + b, upper)
  {
    forall k | 0 <= k < |a + b| ensures CleanItem((a + b)[k], upper) {
      if k >= |a| {
        assert (a + b)[k] == b[k - |a|];
      }
    }
  }

  /** One stripped, re-cased piece is a clean item. */
  lemma CleanOne(p: string, upper: bool)
    requires ',' !in p && PyStrip(p) != ""
    ensures CleanItem(Case(PyStrip(p), upper), upper)
  {
    var x := PyStrip(p);
    TrimTrimmed(p, IsPySpace);
    TrimNoComma(p);
    if upper {
      UpperStripped(x);
      UpperIdempotent(x);
      CaseNoComma(x, true);
    } else {
      LowerStripped(x);
      LowerIdempotent(x);
      CaseNoComma(x, false);
    }
  }

  lemma TrimNoComma(p: string)
    requires ',' !in p
    ensures ',' !in PyStrip(p)
  {
    var u := TrimStart(p, IsPySpace);
    assert u == p[|p| - |u|..];
    var t := TrimEnd(u, IsPySpace);
    assert t == u[..|t|];
    forall i | 0 <= i < |t| ensures t[i] != ',' {
      assert t[i] == p[|p| - |u| + i];
    }
  }

  lemma CaseNoComma(x: string, upper: bool)
    requires ',' !in x
    ensures ',' !in Case(x, upper)
  {
    var r := Case(x, upper);
    forall i | 0 <= i < |r| ensures r[i] != ',' {
      assert x[i] != ',';
    }
  }

  /** A list of clean items, joined with commas as the form shows it and
      read back, is the same list: normalising is idempotent. */
  lemma {:induction false} NormalizeJoin(items: seq<string>, upper: bool)
    requires forall k :: 0 <= k < |items| ==> CleanItem(items[k], upper)
    ensures NormalizeList(Join(items, ","), upper) == items
  {
    if items == [] {
      assert Split("", ',') == [""];
      assert PyStrip("") == "";
    } else {
      SplitJoin(items, ',');
      CleanPiecesKeeps(items, upper);
    }
  }

  lemma {:induction false} CleanPiecesKeeps(items: seq<string>, upper: bool)
    requires forall k :: 0 <= k < |items| ==> CleanItem(items[k], upper)
    ensures (forall k :: 0 <= k < |items| ==> ',' !in items[k]) && CleanPieces(items, upper) == items
  {
    forall k | 0 <= k < |items| ensures ',' !in items[k] {
      assert CleanItem(items[k], upper);
    }
    if items != [] {
      var x := items[0];
      var rest := items[1..];
      assert CleanItem(x, upper);
      forall k | 0 <= k < |rest| ensures CleanItem(rest[k], upper) {
        assert rest[k] == items[k + 1];
      }
      CleanPiecesKeeps(rest, upper);
      assert CleanPieces(items, upper) == [x] + CleanPieces(rest, upper);
      assert items == [x] + rest;
    }
  }

  /** `[s for s in blocked if s not in required]` */
  function Exclude(blocked: seq<string>, required: seq<string>): (r: seq<string>)
    ensures |r| <= |blocked|
    ensures forall s :: s in r <==> s in blocked && s !in required
  {
    if blocked == [] then []
    else (if blocked[0] in required then [] else [blocked[0]]) + Exclude(blocked[1..], required)
  }

  /** Excluding twice is excluding once, and a list that shares nothing with
      the required states is left exactly as it was. */
  lemma {:induction false} ExcludeDisjoint(blocked: seq<string>, required: seq<string>)
    requires forall s :: s in blocked ==> s !in required
    ensures Exclude(blocked, required) == blocked
  {
    if blocked != [] {
      assert blocked[0] in blocked;
      forall s | s in blocked[1..] ensures s !in required {
        assert s in blocked;
      }
      ExcludeDisjoint(blocked[1..], required);
      assert blocked == [blocked[0]] + blocked[1..];
    }
  }

  lemma ExcludeIdempotent(blocked: seq<string>, required: seq<string>)
    ensures Exclude(Exclude(blocked, required), required) == Exclude(blocked, required)
  {
    ExcludeDisjoint(Exclude(blocked, required), required);
  }

  /** The text the user left in each list field of the form. */
  datatype FilterForm = FilterForm(
    badTitles: string, badStates: string, sellerBlacklist: string,
    hiddenSellerStates: string, requireSellerStates: string)

  /** The lists of a profile's filters the form writes. */
  datatype FilterLists = FilterLists(
    badTitles: seq<string>, badStates: seq<string>, sellerBlacklist: seq<string>,
    hiddenSellerStates: seq<string>, requireSellerStates: seq<string>, blockedStates: seq<string>)

  /** The assignments of the form to the profile's filters. */
  function ApplyForm(form: FilterForm, blockedStates: seq<string>): (f: FilterLists)
    ensures forall s :: s in f.blockedStates ==> s !in f.requireSellerStates
    ensures forall s :: s in blockedStates && s !in f.requireSellerStates ==> s in f.blockedStates
  {
    var required := NormalizeList(form.requireSellerStates, true);
    FilterLists(
      NormalizeList(form.badTitles, true),
      NormalizeList(form.badStates, true),
      NormalizeList(form.sellerBlacklist, false),
      NormalizeList(form.hiddenSellerStates, true),
      required,
      Exclude(blockedStates, required))
  }

  /** Every list the form writes holds clean items: codes upper-case, the
      seller blacklist lower-case. */
  lemma FormListsClean(form: FilterForm, blockedStates: seq<string>)
    ensures var f := ApplyForm(form, blockedStates);
      (forall k :: 0 <= k < |f.badTitles| ==> CleanItem(f.badTitles[k], true))
      && (forall k :: 0 <= k < |f.badStates| ==> CleanItem(f.badStates[k], true))
      && (forall k :: 0 <= k < |f.sellerBlacklist| ==> CleanItem(f.sellerBlacklist[k], false))
      && (forall k :: 0 <= k < |f.hiddenSellerStates| ==> CleanItem(f.hiddenSellerStates[k], true))
      && (forall k :: 0 <= k < |f.requireSellerStates| ==> CleanItem(f.requireSellerStates[k], true))
  {
  }
}
