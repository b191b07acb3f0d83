/** The dashboard's reading of the bridge's history log: which entries end a
    lot's pipeline, the outcome label of an entry, the one-entry-per-lot
    feed, the stage tallies, the per-bot counts and the first source of
    each lot. */
module History {
  import opened Text
  import opened PyValues

  /** A history entry, reduced to the keys the dashboard aggregates. */
  datatype Entry = Entry(stage: PyVal, status: PyVal, lotId: PyVal, source: PyVal, firstSource: PyVal)

  /** `is_final(entry)`: the entry was sent to Telegram, skipped, or dropped
      as a duplicate. */
  predicate IsFinal(e: Entry)
  {
    var stage := Get(e.stage, Str(""));
    var status := Get(e.status, Str(""));
    (stage == Str("TG") && status == Str("SENT"))
    || status == Str("SKIP")
    || (stage == Str("DEDUP") && status == Str("DUPLICATE"))
  }

  // ---------------------------------------------------------------------
  // The outcome label of a feed entry.

  datatype Outcome = Sent | Skipped | Duplicate | Other(text: string)

  /** The branch the feed takes to label an entry. */
  function OutcomeOf(e: Entry): (o: Outcome)
    ensures o.Other? <==> !IsFinal(e)
  {
    var stage := Get(e.stage, Str(""));
    var status := Get(e.status, Str(""));
    if stage == Str("TG") && status == Str("SENT") then Sent
    else if status == Str("SKIP") then Skipped
    else if stage == Str("DEDUP") && status == Str("DUPLICATE") then Duplicate
    else Other(PyStrip(PyStr(stage) + " " + PyStr(status)))
  }

  const SentLabel := "SENT \U{2705}"
  const SkipLabel := "SKIP \U{274C}"
  const DuplicateLabel := "DUPLICATE \U{26A0}\U{FE0F}"

  /** The text shown for an outcome. */
  function Label(o: Outcome): string
  {
    match o
    case Sent => SentLabel
    case Skipped => SkipLabel
    case Duplicate => DuplicateLabel
    case Other(text) => text
  }

  /** A final entry is labelled with one of the three final words, and the
      label is taken in the same order of tests as `is_final`. */
  lemma FinalLabel(e: Entry)
    ensures IsFinal(e) ==> Label(OutcomeOf(e)) in {SentLabel, SkipLabel, DuplicateLabel}
    ensures OutcomeOf(e) == Skipped ==> Get(e.status, Str("")) == Str("SKIP")
    ensures Get(e.status, Str("")) == Str("SKIP") ==> OutcomeOf(e) in {Sent, Skipped}
  {
  }

  /** The label text alone does not tell a final entry: a non-final entry
      whose stage is "SENT" and whose status is "✅" reads "SENT ✅" too. */
  lemma LabelCollision()
    ensures var e := Entry(Str("SENT"), Str("\U{2705}"), Str("1"), Missing, Missing);
      !IsFinal(e) && Label(OutcomeOf(e)) == SentLabel
  {
    var e := Entry(Str("SENT"), Str("\U{2705}"), Str("1"), Missing, Missing);
    CollisionNotFinal(e);
    OtherLabel(e, "SENT", "\U{2705}");
    CollisionText("SENT" + " " + "\U{2705}");
  }

  /** A non-final entry is labelled with its stripped stage and status. */
  lemma OtherLabel(e: Entry, stage: string, status: string)
    requires e.stage == Str(stage) && e.status == Str(status) && !IsFinal(e)
    ensures Label(OutcomeOf(e)) == PyStrip(stage + " " + status)
  {
  }

  lemma CollisionNotFinal(e: Entry)
    requires e.stage == Str("SENT") && e.status == Str("\U{2705}")
    ensures !IsFinal(e)
  {
    assert |"SENT"| != |"TG"| && |"SENT"| != |"DEDUP"| && |"\U{2705}"| != |"SKIP"|;
  }

  lemma CollisionText(t: string)
    requires t == "SENT" + " " + "\U{2705}"
    ensures PyStrip(t) == SentLabel
  {
    assert t[0] == 'S' && t[|t| - 1] == '\U{2705}';
    TrimNoop(t, IsPySpace);
  }

  // ---------------------------------------------------------------------
  // One entry per lot, a final one when there is one.

  /** Index of the lot's first final entry, or |h|. */
  function FirstFinal(h: seq<Entry>, lot: PyVal): (i: nat)
    ensures i <= |h|
    ensures i < |h| ==> h[i].lotId == lot && IsFinal(h[i])
    ensures forall j :: 0 <= j < i ==> !(h[j].lotId == lot && IsFinal(h[j]))
  {
    if h == [] then 0
    else if h[0].lotId == lot && IsFinal(h[0]) then 0
    else 1 + FirstFinal(h[1..], lot)
  }

  /** Index of the lot's first entry, or |h|. */
  function FirstOf(h: seq<Entry>, lot: PyVal): (i: nat)
    ensures i <= |h|
    ensures i < |h| ==> h[i].lotId == lot
    ensures forall j :: 0 <= j < i ==> h[j].lotId != lot
  {
    if h == [] then 0
    else if h[0].lotId == lot then 0
    else 1 + FirstOf(h[1..], lot)
  }

  predicate HasFinal(h: seq<Entry>, lot: PyVal) { FirstFinal(h, lot) < |h| }

  /** The entry the feed shows for a lot: its first final entry, else its
      first entry. */
  function Pick(h: seq<Entry>, lot: PyVal): nat
  {
    if HasFinal(h, lot) then FirstFinal(h, lot) else FirstOf(h, lot)
  }

  /** The entry picked for a lot that occurs in history is one of the lot's
      entries, and it is final exactly when the lot has a final entry. */
  lemma PickMeaning(h: seq<Entry>, lot: PyVal, i: nat)
    requires i < |h| && h[i].lotId == lot
    ensures Pick(h, lot) < |h| && h[Pick(h, lot)].lotId == lot
    ensures IsFinal(h[Pick(h, lot)]) <==> HasFinal(h, lot)
  {
    if !HasFinal(h, lot) {
      assert FirstOf(h, lot) <= i;
    }
  }

  /** The feed order: lots with a final entry first, and within each group
      the order of the picked entries in history. */
  predicate Before(h: seq<Entry>, a: PyVal, b: PyVal)
  {
    (HasFinal(h, a) && !HasFinal(h, b))
    || (HasFinal(h, a) == HasFinal(h, b) && Pick(h, a) < Pick(h, b))
  }

  /** The lots of a list of entries. */
  function LotsOf(f: seq<Entry>): (lots: set<PyVal>)
    ensures forall k :: 0 <= k < |f| ==> f[k].lotId in lots
  {
    if f == [] then {} else LotsOf(f[..|f| - 1]) + {f[|f| - 1].lotId}
  }

  lemma {:induction false} LotsOfWitness(f: seq<Entry>, x: PyVal)
    requires x in LotsOf(f)
    ensures exists k :: 0 <= k < |f| && f[k].lotId == x
  {
    if f[|f| - 1].lotId != x {
      LotsOfWitness(f[..|f| - 1], x);
    }
  }

  /** The two passes over history that build the feed. */
  method SelectFinalEntries(history: seq<Entry>) returns (feed: seq<Entry>)
    ensures forall k :: 0 <= k < |feed| ==> Truthy(feed[k].lotId)
    ensures forall k :: 0 <= k < |feed| ==>
      Pick(history, feed[k].lotId) < |history| && feed[k] == history[Pick(history, feed[k].lotId)]
    ensures forall i, j :: 0 <= i < j < |feed| ==> feed[i].lotId != feed[j].lotId
    ensures forall i :: 0 <= i < |history| && Truthy(history[i].lotId) ==>
      exists k :: 0 <= k < |feed| && feed[k].lotId == history[i].lotId
    ensures forall i, j :: 0 <= i < j < |feed| ==> Before(history, feed[i].lotId, feed[j].lotId)
  {
    var finals, seen := FinalPass(history);
    feed := RestPass(history, finals, seen);
  }

  /** The first pass: each lot's first final entry, in history order. */
  method FinalPass(history: seq<Entry>) returns (feed: seq<Entry>, seen: set<PyVal>)
    ensures seen == LotsOf(feed)
    ensures forall k :: 0 <= k < |feed| ==>
      (Truthy(feed[k].lotId) && HasFinal(history, feed[k].lotId)
       && feed[k] == history[FirstFinal(history, feed[k].lotId)])
    ensures forall a, b :: 0 <= a < b < |feed| ==>
      FirstFinal(history, feed[a].lotId) < FirstFinal(history, feed[b].lotId)
    ensures forall j :: 0 <= j < |history| && Truthy(history[j].lotId) && IsFinal(history[j]) ==>
      history[j].lotId in seen
  {
    feed := [];
    seen := {};
    for i := 0 to |history|
      invariant FinalInv(history, feed, seen, i)
    {
      FinalStep(history, feed, seen, i);
      var lot := history[i].lotId;
      if !Truthy(lot) || lot in seen {
        continue;
      }
      if IsFinal(history[i]) {
        feed := feed + [history[i]];
        seen := seen + {lot};
      }
    }
  }

  /** The state of the first pass after `i` entries. */
  ghost predicate FinalInv(history: seq<Entry>, feed: seq<Entry>, seen: set<PyVal>, i: nat)
  {
    i <= |history|
    && seen == LotsOf(feed)
    && (forall k :: 0 <= k < |feed| ==> Truthy(feed[k].lotId) && HasFinal(history, feed[k].lotId))
    && (forall k :: 0 <= k < |feed| ==>
          FirstFinal(history, feed[k].lotId) < i && feed[k] == history[FirstFinal(history, feed[k].lotId)])
    && (forall a, b :: 0 <= a < b < |feed| ==>
          FirstFinal(history, feed[a].lotId) < FirstFinal(history, feed[b].lotId))
    && (forall j :: 0 <= j < i && Truthy(history[j].lotId) && IsFinal(history[j]) ==> history[j].lotId in seen)
  }

  /** Appending a final entry of a lot not seen yet keeps the first pass's
      state; skipping any other entry keeps it too. */
  lemma FinalStep(history: seq<Entry>, feed: seq<Entry>, seen: set<PyVal>, i: nat)
    requires i < |history| && FinalInv(history, feed, seen, i)
    ensures var lot := history[i].lotId;
      if Truthy(lot) && lot !in seen && IsFinal(history[i])
      then FinalInv(history, feed + [history[i]], seen + {lot}, i + 1)
      else FinalInv(history, feed, seen, i + 1)
  {
    var lot := history[i].lotId;
    if Truthy(lot) && lot !in seen && IsFinal(history[i]) {
      FirstFinalIs(history, lot, i);
      FinalAppend(history, feed, seen, i);
    }
  }

  /** A final entry of a lot with no earlier final entry is the lot's first. */
  lemma FirstFinalIs(h: seq<Entry>, lot: PyVal, i: nat)
    requires i < |h| && h[i].lotId == lot && IsFinal(h[i])
    requires forall j :: 0 <= j < i ==> !(h[j].lotId == lot && IsFinal(h[j]))
    ensures FirstFinal(h, lot) == i
  {
  }

  lemma LotsOfAppend(feed: seq<Entry>, e: Entry)
    ensures LotsOf(feed + [e]) == LotsOf(feed) + {e.lotId}
  {
    assert (feed + [e])[..|feed|] == feed;
  }

  /** Every truthy final lot among the first i + 1 entries is seen once
      entry i's lot is added. */
  lemma SeenAppend(history: seq<Entry>, seen: set<PyVal>, i: nat)
    requires i < |history|
    requires forall j :: 0 <= j < i && Truthy(history[j].lotId) && IsFinal(history[j]) ==> history[j].lotId in seen
    ensures forall j :: 0 <= j < i + 1 && Truthy(history[j].lotId) && IsFinal(history[j]) ==>
      history[j].lotId in seen + {history[i].lotId}
  {
  }

  lemma FinalAppend(history: seq<Entry>, feed: seq<Entry>, seen: set<PyVal>, i: nat)
    requires i < |history| && FinalInv(history, feed, seen, i)
    requires Truthy(history[i].lotId) && history[i].lotId !in seen && IsFinal(history[i])
    requires FirstFinal(history, history[i].lotId) == i
    ensures FinalInv(history, feed + [history[i]], seen + {history[i].lotId}, i + 1)
  {
    var e := history[i];
    var feed' := feed + [e];
    LotsOfAppend(feed, e);
    SeenAppend(history, seen, i);
    forall k | 0 <= k < |feed'|
      ensures Truthy(feed'[k].lotId) && HasFinal(history, feed'[k].lotId)
      ensures FirstFinal(history, feed'[k].lotId) < i + 1
      ensures feed'[k] == history[FirstFinal(history, feed'[k].lotId)]
    {
      if k < |feed| {
        assert feed'[k] == feed[k];
      }
    }
    forall a, b | 0 <= a < b < |feed'|
      ensures FirstFinal(history, feed'[a].lotId) < FirstFinal(history, feed'[b].lotId)
    {
      assert feed'[a] == feed[a];
      if b < |feed| {
        assert feed'[b] == feed[b];
      }
    }
  }

  /** The second pass: the first entry of every lot not yet in the feed. */
  method RestPass(history: seq<Entry>, finals: seq<Entry>, seen0: set<PyVal>) returns (feed: seq<Entry>)
    requires seen0 == LotsOf(finals)
    requires forall k :: 0 <= k < |finals| ==>
      (Truthy(finals[k].lotId) && HasFinal(history, finals[k].lotId)
       && finals[k] == history[FirstFinal(history, finals[k].lotId)])
    requires forall a, b :: 0 <= a < b < |finals| ==>
      FirstFinal(history, finals[a].lotId) < FirstFinal(history, finals[b].lotId)
    requires forall j :: 0 <= j < |history| && Truthy(history[j].lotId) && IsFinal(history[j]) ==>
      history[j].lotId in seen0
    ensures forall k :: 0 <= k < |feed| ==> Truthy(feed[k].lotId)
    ensures forall k :: 0 <= k < |feed| ==>
      Pick(history, feed[k].lotId) < |history| && feed[k] == history[Pick(history, feed[k].lotId)]
    ensures forall i, j :: 0 <= i < j < |feed| ==> feed[i].lotId != feed[j].lotId
    ensures forall i :: 0 <= i < |history| && Truthy(history[i].lotId) ==>
      exists k :: 0 <= k < |feed| && feed[k].lotId == history[i].lotId
    ensures forall i, j :: 0 <= i < j < |feed| ==> Before(history, feed[i].lotId, feed[j].lotId)
  {
    feed := finals;
    var seen := seen0;
    var m := |feed|;
    ghost var picks: seq<nat> := FinalPicks(history, finals);
    RestInit(history, finals, seen0);
    for i := 0 to |history|
      invariant RestInv(history, feed, picks, m, seen, i)
    {
      RestStep(history, feed, picks, m, seen, i);
      var lot := history[i].lotId;
      if Truthy(lot) && lot !in seen {
        feed := feed + [history[i]];
        picks := picks + [i as nat];
        seen := seen + {lot};
      }
    }
    RestDone(history, feed, picks, m, seen);
  }

  /** The history index of each entry of the first pass. */
  ghost function FinalPicks(history: seq<Entry>, finals: seq<Entry>): (picks: seq<nat>)
    ensures |picks| == |finals|
    ensures forall k :: 0 <= k < |finals| ==> picks[k] == FirstFinal(history, finals[k].lotId)
  {
    seq(|finals|, k requires 0 <= k < |finals| => FirstFinal(history, finals[k].lotId))
  }

  /** The first pass's result is where the second pass starts. */
  lemma RestInit(history: seq<Entry>, finals: seq<Entry>, seen0: set<PyVal>)
    requires seen0 == LotsOf(finals)
    requires forall k :: 0 <= k < |finals| ==>
      (Truthy(finals[k].lotId) && HasFinal(history, finals[k].lotId)
       && finals[k] == history[FirstFinal(history, finals[k].lotId)])
    requires forall a, b :: 0 <= a < b < |finals| ==>
      FirstFinal(history, finals[a].lotId) < FirstFinal(history, finals[b].lotId)
    requires forall j :: 0 <= j < |history| && Truthy(history[j].lotId) && IsFinal(history[j]) ==>
      history[j].lotId in seen0
    ensures RestInv(history, finals, FinalPicks(history, finals), |finals|, seen0, 0)
  {
  }

  /** After the whole history, the second pass's state gives the feed's
      contract. */
  lemma RestDone(history: seq<Entry>, feed: seq<Entry>, picks: seq<nat>, m: nat, seen: set<PyVal>)
    requires RestInv(history, feed, picks, m, seen, |history|)
    ensures forall k :: 0 <= k < |feed| ==> Truthy(feed[k].lotId)
    ensures forall k :: 0 <= k < |feed| ==>
      Pick(history, feed[k].lotId) < |history| && feed[k] == history[Pick(history, feed[k].lotId)]
    ensures forall i, j :: 0 <= i < j < |feed| ==> feed[i].lotId != feed[j].lotId
    ensures forall i :: 0 <= i < |history| && Truthy(history[i].lotId) ==>
      exists k :: 0 <= k < |feed| && feed[k].lotId == history[i].lotId
    ensures forall i, j :: 0 <= i < j < |feed| ==> Before(history, feed[i].lotId, feed[j].lotId)
  {
    forall i | 0 <= i < |history| && Truthy(history[i].lotId)
      ensures exists k :: 0 <= k < |feed| && feed[k].lotId == history[i].lotId
    {
      LotsOfWitness(feed, history[i].lotId);
    }
    FeedOrder(history, feed, picks, m);
  }

  /** The state of the second pass after `i` entries: the final group as
      the first pass left it, then the first entry of each further lot met
      so far, in history order; `picks` holds their indices in history. */
  ghost predicate RestInv(history: seq<Entry>, feed: seq<Entry>, picks: seq<nat>, m: nat, seen: set<PyVal>, i: nat)
  {
    m <= |feed| && |picks| == |feed| && i <= |history|
    && seen == LotsOf(feed)
    && (forall k :: 0 <= k < |feed| ==> Truthy(feed[k].lotId))
    && (forall k :: 0 <= k < |feed| ==> (k < m <==> HasFinal(history, feed[k].lotId)))
    && (forall k :: 0 <= k < |feed| ==> picks[k] == Pick(history, feed[k].lotId))
    && (forall k :: 0 <= k < |feed| ==> picks[k] < |history| && feed[k] == history[picks[k]])
    && (forall k :: m <= k < |feed| ==> picks[k] < i)
    && (forall a, b :: 0 <= a < b < |feed| && (b < m || m <= a) ==> picks[a] < picks[b])
    && (forall j :: 0 <= j < |history| && Truthy(history[j].lotId) && IsFinal(history[j]) ==> history[j].lotId in seen)
    && (forall j :: 0 <= j < i && Truthy(history[j].lotId) ==> history[j].lotId in seen)
  }

  /** Appending the first entry of a lot that is not yet in the feed keeps
      the second pass's state. */
  lemma RestStep(history: seq<Entry>, feed: seq<Entry>, picks: seq<nat>, m: nat, seen: set<PyVal>, i: nat)
    requires i < |history| && RestInv(history, feed, picks, m, seen, i)
    ensures var lot := history[i].lotId;
      if Truthy(lot) && lot !in seen
      then RestInv(history, feed + [history[i]], picks + [i], m, seen + {lot}, i + 1)
      else RestInv(history, feed, picks, m, seen, i + 1)
  {
    if Truthy(history[i].lotId) && history[i].lotId !in seen {
      RestAdd(history, feed, picks, m, seen, i);
    }
  }

  lemma RestAdd(history: seq<Entry>, feed: seq<Entry>, picks: seq<nat>, m: nat, seen: set<PyVal>, i: nat)
    requires i < |history| && RestInv(history, feed, picks, m, seen, i)
    requires Truthy(history[i].lotId) && history[i].lotId !in seen
    ensures RestInv(history, feed + [history[i]], picks + [i], m, seen + {history[i].lotId}, i + 1)
  {
    var lot := history[i].lotId;
    assert !HasFinal(history, lot);
    assert FirstOf(history, lot) == i;
    LotsOfAppend(feed, history[i]);
    RestAppend(history, feed, picks, m, i);
  }

  lemma RestAppend(history: seq<Entry>, feed: seq<Entry>, picks: seq<nat>, m: nat, i: nat)
    requires i < |history| && m <= |feed| && |picks| == |feed|
    requires forall k :: 0 <= k < |feed| ==> Truthy(feed[k].lotId)
    requires forall k :: 0 <= k < |feed| ==> (k < m <==> HasFinal(history, feed[k].lotId))
    requires forall k :: 0 <= k < |feed| ==> picks[k] == Pick(history, feed[k].lotId)
    requires forall k :: 0 <= k < |feed| ==> picks[k] < |history| && feed[k] == history[picks[k]]
    requires forall k :: m <= k < |feed| ==> picks[k] < i
    requires forall a, b :: 0 <= a < b < |feed| && (b < m || m <= a) ==> picks[a] < picks[b]
    requires Truthy(history[i].lotId) && !HasFinal(history, history[i].lotId)
    requires Pick(history, history[i].lotId) == i
    ensures var feed', picks' := feed + [history[i]], picks + [i];
      (forall k :: 0 <= k < |feed'| ==> Truthy(feed'[k].lotId))
      && (forall k :: 0 <= k < |feed'| ==> (k < m <==> HasFinal(history, feed'[k].lotId)))
      && (forall k :: 0 <= k < |feed'| ==> picks'[k] == Pick(history, feed'[k].lotId))
      && (forall k :: 0 <= k < |feed'| ==> picks'[k] < |history| && feed'[k] == history[picks'[k]])
      && (forall k :: m <= k < |feed'| ==> picks'[k] < i + 1)
      && (forall a, b :: 0 <= a < b < |feed'| && (b < m || m <= a) ==> picks'[a] < picks'[b])
  {
  }

  /** Two groups, each in increasing order of picked index, are in feed
      order and hold no lot twice. */
  lemma FeedOrder(history: seq<Entry>, feed: seq<Entry>, picks: seq<nat>, m: nat)
    requires m <= |feed| && |picks| == |feed|
    requires forall k :: 0 <= k < |feed| ==> (k < m <==> HasFinal(history, feed[k].lotId))
    requires forall k :: 0 <= k < |feed| ==> picks[k] == Pick(history, feed[k].lotId)
    requires forall a, b :: 0 <= a < b < |feed| && (b < m || m <= a) ==> picks[a] < picks[b]
    ensures forall i, j :: 0 <= i < j < |feed| ==> feed[i].lotId != feed[j].lotId
    ensures forall i, j :: 0 <= i < j < |feed| ==> Before(history, feed[i].lotId, feed[j].lotId)
  {
  }

  // ---------------------------------------------------------------------
  // Stage tallies: a dict from stage to count, in first-seen order.

  /** `entry.get("stage", "UNKNOWN")`: an absent stage counts as "UNKNOWN";
      a stage that is present but null is a key of its own. */
  function StageKey(e: Entry): PyVal
  {
    Get(e.stage, Str("UNKNOWN"))
  }

  /** The number of entries whose stage key is `stage`. */
  function CountStage(h: seq<Entry>, stage: PyVal): (n: nat)
    ensures n <= |h|
  {
    if h == [] then 0
    else CountStage(h[..|h| - 1], stage) + (if StageKey(h[|h| - 1]) == stage then 1 else 0)
  }

  /** The sum of the counts of the listed keys. */
  function SumOver(keys: seq<PyVal>, counts: map<PyVal, nat>): nat
    requires forall k :: 0 <= k < |keys| ==> keys[k] in counts
  {
    if keys == [] then 0 else SumOver(keys[..|keys| - 1], counts) + counts[keys[|keys| - 1]]
  }

  /** The `stages` loop: keys in the order they are first met, each with its
      number of entries; the counts add up to the length of history. */
  method TallyStages(history: seq<Entry>) returns (keys: seq<PyVal>, counts: map<PyVal, nat>)
    ensures Distinct(keys)
    ensures forall s :: s in counts <==> s in keys
    ensures forall s :: s in counts <==> CountStage(history, s) > 0
    ensures forall s :: s in counts ==> counts[s] == CountStage(history, s)
    ensures forall k :: 0 <= k < |keys| ==> keys[k] in counts
    ensures SumOver(keys, counts) == |history|
  {
    keys := [];
    counts := map[];
    for i := 0 to |history|
      invariant TallyInv(history[..i], keys, counts)
    {
      TallyStep(history, i, keys, counts);
      var stage := Get(history[i].stage, Str("UNKNOWN"));
      if stage in counts {
        counts := counts[stage := counts[stage] + 1];
      } else {
        keys := keys + [stage];
        counts := counts[stage := 1];
      }
    }
    assert history[..|history|] == history;
  }

  /** What the loop of `TallyStages` keeps over the entries `h` read so far. */
  ghost predicate TallyInv(h: seq<Entry>, keys: seq<PyVal>, counts: map<PyVal, nat>)
  {
    Distinct(keys)
    && (forall s :: s in counts <==> s in keys)
    && (forall s :: s in counts <==> CountStage(h, s) > 0)
    && (forall s :: s in counts ==> counts[s] == CountStage(h, s))
    && (forall k :: 0 <= k < |keys| ==> keys[k] in counts)
    && SumOver(keys, counts) == |h|
  }

  lemma TallyStep(history: seq<Entry>, i: nat, keys: seq<PyVal>, counts: map<PyVal, nat>)
    requires i < |history| && TallyInv(history[..i], keys, counts)
    ensures var stage := StageKey(history[i]);
      if stage in counts
      then TallyInv(history[..i + 1], keys, counts[stage := counts[stage] + 1])
      else TallyInv(history[..i + 1], keys + [stage], counts[stage := 1])
  {
    var stage := StageKey(history[i]);
    assert history[..i + 1] == history[..i] + [history[i]];
    if stage in counts {
      TallyOld(history[..i], history[i], keys, counts);
    } else {
      TallyNew(history[..i], history[i], keys, counts);
    }
  }

  /** Reading one more entry adds one to the count of its stage only. */
  lemma CountStep(h: seq<Entry>, e: Entry, s: PyVal)
    ensures CountStage(h + [e], s) == CountStage(h, s) + (if StageKey(e) == s then 1 else 0)
  {
    assert (h + [e])[..|h|] == h;
  }

  lemma TallyOld(h: seq<Entry>, e: Entry, keys: seq<PyVal>, counts: map<PyVal, nat>)
    requires TallyInv(h, keys, counts) && StageKey(e) in counts
    ensures TallyInv(h + [e], keys, counts[StageKey(e) := counts[StageKey(e)] + 1])
  {
    var stage := StageKey(e);
    var counts' := counts[stage := counts[stage] + 1];
    forall s ensures s in counts' <==> CountStage(h + [e], s) > 0 {
      CountStep(h, e, s);
    }
    forall s | s in counts' ensures counts'[s] == CountStage(h + [e], s) {
      CountStep(h, e, s);
    }
    SumIncrement(keys, counts, stage);
  }

  lemma TallyNew(h: seq<Entry>, e: Entry, keys: seq<PyVal>, counts: map<PyVal, nat>)
    requires TallyInv(h, keys, counts) && StageKey(e) !in counts
    ensures TallyInv(h + [e], keys + [StageKey(e)], counts[StageKey(e) := 1])
  {
    var stage := StageKey(e);
    var counts' := counts[stage := 1];
    forall s ensures s in counts' <==> CountStage(h + [e], s) > 0 {
      CountStep(h, e, s);
    }
    forall s | s in counts' ensures counts'[s] == CountStage(h + [e], s) {
      CountStep(h, e, s);
    }
    SumAppend(keys, counts, stage);
  }

  lemma {:induction false} SumIncrement(keys: seq<PyVal>, counts: map<PyVal, nat>, k: PyVal)
    requires Distinct(keys) && k in keys
    requires forall j :: 0 <= j < |keys| ==> keys[j] in counts
    ensures SumOver(keys, counts[k := counts[k] + 1]) == SumOver(keys, counts) + 1
  {
    var last := keys[|keys| - 1];
    var init := keys[..|keys| - 1];
    if last == k {
      assert k !in init;
      SumFrame(init, counts, k, counts[k] + 1);
    } else {
      assert k in init;
      SumIncrement(init, counts, k);
    }
  }

  lemma {:induction false} SumAppend(keys: seq<PyVal>, counts: map<PyVal, nat>, k: PyVal)
    requires k !in keys
    requires forall j :: 0 <= j < |keys| ==> keys[j] in counts
    ensures SumOver(keys + [k], counts[k := 1]) == SumOver(keys, counts) + 1
  {
    assert (keys + [k])[..|keys|] == keys;
    SumFrame(keys, counts, k, 1);
  }

  /** Changing the count of a key that is not listed leaves the sum alone. */
  lemma {:induction false} SumFrame(keys: seq<PyVal>, counts: map<PyVal, nat>, k: PyVal, n: nat)
    requires k !in keys
    requires forall j :: 0 <= j < |keys| ==> keys[j] in counts
    ensures SumOver(keys, counts[k := n]) == SumOver(keys, counts)
  {
    if keys != [] {
      SumFrame(keys[..|keys| - 1], counts, k, n);
    }
  }

  /** The number of entries with no stage at all. */
  function MissingStages(h: seq<Entry>): nat
  {
    if h == [] then 0
    else MissingStages(h[..|h| - 1]) + (if h[|h| - 1].stage.Missing? then 1 else 0)
  }

  /** The "UNKNOWN" tally holds every entry without a stage, besides the
      entries whose stage is literally "UNKNOWN". */
  lemma {:induction false} UnknownTally(h: seq<Entry>)
    ensures CountStage(h, Str("UNKNOWN")) == MissingStages(h) + CountLiteralUnknown(h)
  {
    if h != [] {
      UnknownTally(h[..|h| - 1]);
    }
  }

  function CountLiteralUnknown(h: seq<Entry>): nat
  {
    if h == [] then 0
    else CountLiteralUnknown(h[..|h| - 1]) + (if h[|h| - 1].stage == Str("UNKNOWN") then 1 else 0)
  }

  // ---------------------------------------------------------------------
  // Per-bot counts.

  /** The number of RAW entries that came from `bot`. */
  function RawFrom(h: seq<Entry>, bot: string): nat
  {
    if h == [] then 0
    else RawFrom(h[..|h| - 1], bot)
         + (if h[|h| - 1].stage == Str("RAW") && h[|h| - 1].source == Str(bot) then 1 else 0)
  }

  /** The botA and botB counts never exceed the RAW tally. */
  lemma {:induction false} BotCountsWithinRaw(h: seq<Entry>)
    ensures RawFrom(h, "botA") + RawFrom(h, "botB") <= CountStage(h, Str("RAW"))
  {
    if h != [] {
      BotCountsWithinRaw(h[..|h| - 1]);
      assert "botA" != "botB" by { assert "botA"[3] != "botB"[3]; }
    }
  }

  // ---------------------------------------------------------------------
  // The first source of each lot.

  /** Index of the lot's first entry with a truthy `firstSource`, or |h|. */
  function FirstSourced(h: seq<Entry>, lot: PyVal): (i: nat)
    ensures i <= |h|
    ensures i < |h| ==> h[i].lotId == lot && Truthy(h[i].firstSource)
    ensures forall j :: 0 <= j < i ==> !(h[j].lotId == lot && Truthy(h[j].firstSource))
  {
    if h == [] then 0
    else if h[0].lotId == lot && Truthy(h[0].firstSource) then 0
    else 1 + FirstSourced(h[1..], lot)
  }

  /** The `first_source_by_lot` loop: a lot is recorded once, with the first
      non-empty source seen for it, and never overwritten. */
  method FirstSources(history: seq<Entry>) returns (lots: seq<PyVal>, firstSource: map<PyVal, PyVal>)
    ensures Distinct(lots)
    ensures forall x :: x in firstSource <==> x in lots
    ensures forall x :: x in firstSource <==> Truthy(x) && FirstSourced(history, x) < |history|
    ensures forall x :: x in firstSource ==>
      Truthy(firstSource[x]) && firstSource[x] == history[FirstSourced(history, x)].firstSource
  {
    lots := [];
    firstSource := map[];
    for i := 0 to |history|
      invariant SourcesInv(history, i, lots, firstSource)
    {
      SourcesStep(history, i, lots, firstSource);
      var lot := history[i].lotId;
      var source := history[i].firstSource;
      if Truthy(lot) && Truthy(source) && lot !in firstSource {
        lots := lots + [lot];
        firstSource := firstSource[lot := source];
      }
    }
  }

  /** What the loop of `FirstSources` keeps after the first `n` entries. */
  ghost predicate SourcesInv(history: seq<Entry>, n: nat, lots: seq<PyVal>, firstSource: map<PyVal, PyVal>)
  {
    n <= |history|
    && Distinct(lots)
    && (forall x :: x in firstSource <==> x in lots)
    && (forall x :: x in firstSource <==> Truthy(x) && FirstSourced(history, x) < n)
    && (forall x :: x in firstSource ==>
          FirstSourced(history, x) < |history| && firstSource[x] == history[FirstSourced(history, x)].firstSource)
  }

  lemma SourcesStep(history: seq<Entry>, n: nat, lots: seq<PyVal>, firstSource: map<PyVal, PyVal>)
    requires n < |history| && SourcesInv(history, n, lots, firstSource)
    ensures var lot := history[n].lotId;
      if Truthy(lot) && Truthy(history[n].firstSource) && lot !in firstSource
      then SourcesInv(history, n + 1, lots + [lot], firstSource[lot := history[n].firstSource])
      else SourcesInv(history, n + 1, lots, firstSource)
  {
    var lot := history[n].lotId;
    if Truthy(lot) && Truthy(history[n].firstSource) && lot !in firstSource {
      SourcesAdd(history, n, lots, firstSource);
    } else {
      SourcesSkip(history, n, lots, firstSource);
    }
  }

  lemma SourcesAdd(history: seq<Entry>, n: nat, lots: seq<PyVal>, firstSource: map<PyVal, PyVal>)
    requires n < |history| && SourcesInv(history, n, lots, firstSource)
    requires Truthy(history[n].lotId) && Truthy(history[n].firstSource) && history[n].lotId !in firstSource
    ensures SourcesInv(history, n + 1, lots + [history[n].lotId],
                       firstSource[history[n].lotId := history[n].firstSource])
  {
    var lot := history[n].lotId;
    var lots', firstSource' := lots + [lot], firstSource[lot := history[n].firstSource];
    FirstSourcedAt(history, lot, n);
    assert FirstSourced(history, lot) == n;
    forall x | x != lot && Truthy(x) && x !in firstSource
      ensures FirstSourced(history, x) != n
    {
      FirstSourcedAt(history, x, n);
    }
    assert lot !in lots;
    assert Distinct(lots');
  }

  lemma SourcesSkip(history: seq<Entry>, n: nat, lots: seq<PyVal>, firstSource: map<PyVal, PyVal>)
    requires n < |history| && SourcesInv(history, n, lots, firstSource)
    requires !(Truthy(history[n].lotId) && Truthy(history[n].firstSource) && history[n].lotId !in firstSource)
    ensures SourcesInv(history, n + 1, lots, firstSource)
  {
    forall x | Truthy(x) && x !in firstSource
      ensures FirstSourced(history, x) != n
    {
      FirstSourcedAt(history, x, n);
    }
  }

  /** Past the lots already recorded, the first sourced entry is at `n`
      exactly when entry `n` is such an entry. */
  lemma FirstSourcedAt(h: seq<Entry>, lot: PyVal, n: nat)
    requires n < |h| && FirstSourced(h, lot) >= n
    ensures FirstSourced(h, lot) == n <==> h[n].lotId == lot && Truthy(h[n].firstSource)
  {
  }

  /** The number of lots whose first source is `bot`. */
  function Wins(lots: seq<PyVal>, firstSource: map<PyVal, PyVal>, bot: string): nat
    requires forall k :: 0 <= k < |lots| ==> lots[k] in firstSource
  {
    if lots == [] then 0
    else Wins(lots[..|lots| - 1], firstSource, bot)
         + (if firstSource[lots[|lots| - 1]] == Str(bot) then 1 else 0)
  }

  /** Each lot is won by at most one bot, so the wins add up to at most the
      number of lots. */
  lemma {:induction false} WinsWithinLots(lots: seq<PyVal>, firstSource: map<PyVal, PyVal>)
    requires forall k :: 0 <= k < |lots| ==> lots[k] in firstSource
    ensures Wins(lots, firstSource, "botA") + Wins(lots, firstSource, "botB") <= |lots|
  {
    if lots != [] {
      WinsWithinLots(lots[..|lots| - 1], firstSource);
      assert "botA" != "botB" by { assert "botA"[3] != "botB"[3]; }
    }
  }
}
