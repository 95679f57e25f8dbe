/**
 * The meta-analysis view of js/app.js: tier distribution and dominant
 * tier, top five decks, type diversity, common weaknesses, performance by
 * type, key matchups and the header of `loadMetaAnalysis`. Every function
 * here receives the competitive entries (`Competitive(decks)`).
 */
module MetaAnalysis {
  import opened Common
  import opened DeckData
  import opened Ranking
  import opened Scoring

  // ---------------------------------------------------------------------
  // Tier distribution
  // ---------------------------------------------------------------------

  /** The number of entries of `s` whose tier is `t`. */
  function CountTier(s: seq<Entry>, t: string): (n: nat)
    ensures n <= |s|
  {
    if s == [] then 0
    else CountTier(s[..|s| - 1], t) + (if s[|s| - 1].deck.tier == t then 1 else 0)
  }

  /** The counts `calculateTierDistribution` returns, keyed by the three competitive tiers. */
  function TierCountsOf(s: seq<Entry>): map<string, nat>
  {
    map[Tier1 := CountTier(s, Tier1), Tier2 := CountTier(s, Tier2), Tier3 := CountTier(s, Tier3)]
  }

  /**
   * `calculateTierDistribution`: starts from `{'Tier 1': 0, 'Tier 2': 0,
   * 'Tier 3': 0}` and adds one for every entry whose tier is already a
   * key. The keys are always exactly the three tiers, and on no entries
   * all counts are zero.
   */
  method CalculateTierDistribution(competitive: seq<Entry>) returns (tierCounts: map<string, nat>)
    ensures tierCounts.Keys == {Tier1, Tier2, Tier3}
    ensures tierCounts == TierCountsOf(competitive)
    ensures competitive == [] ==> tierCounts == map[Tier1 := 0, Tier2 := 0, Tier3 := 0]
  {
    tierCounts := map[Tier1 := 0, Tier2 := 0, Tier3 := 0];
    var i := 0;
    while i < |competitive|
      invariant 0 <= i <= |competitive|
      invariant tierCounts == TierCountsOf(competitive[..i])
    {
      var tier := competitive[i].deck.tier;
      assert competitive[..i + 1][..i] == competitive[..i];
      if tier in tierCounts {
        tierCounts := tierCounts[tier := tierCounts[tier] + 1];
      }
      i := i + 1;
    }
    assert competitive[..|competitive|] == competitive;
  }

  lemma {:induction false} CompetitiveAppend(s: seq<Entry>, e: Entry)
    ensures Competitive(s + [e]) == Competitive(s) + (if IsCompetitive(e.deck.tier) then [e] else [])
  {
    if s == [] {
      assert [] + [e] == [e];
    } else {
      var t := s + [e];
      assert t[0] == s[0] && t[1..] == s[1..] + [e];
      CompetitiveAppend(s[1..], e);
      var head := if IsCompetitive(s[0].deck.tier) then [s[0]] else [];
      var tail := if IsCompetitive(e.deck.tier) then [e] else [];
      assert Competitive(t) == head + Competitive(s[1..] + [e]);
      assert Competitive(s) == head + Competitive(s[1..]);
      assert head + (Competitive(s[1..]) + tail) == (head + Competitive(s[1..])) + tail;
    }
  }

  /**
   * The three counts add up to the number of entries whose tier is one of
   * `COMPETITIVE_TIERS`; rogue, fun and unknown tiers are not counted.
   */
  lemma {:induction false} TierCountsSum(s: seq<Entry>)
    ensures CountTier(s, Tier1) + CountTier(s, Tier2) + CountTier(s, Tier3) == |Competitive(s)|
  {
    if s != [] {
      var p, e := s[..|s| - 1], s[|s| - 1];
      assert s == p + [e];
      TierCountsSum(p);
      CompetitiveAppend(p, e);
    }
  }

  // ---------------------------------------------------------------------
  // Dominant tier
  // ---------------------------------------------------------------------

  /** `Object.entries(tierCounts)`: the three tiers in insertion order. */
  function TierEntries(tierCounts: map<string, nat>): (r: seq<(string, int)>)
    requires tierCounts.Keys == {Tier1, Tier2, Tier3}
    ensures |r| == 3 && forall k :: 0 <= k < 3 ==> r[k].0 == CompetitiveTiers[k] && r[k].1 == tierCounts[r[k].0]
  {
    [(Tier1, tierCounts[Tier1]), (Tier2, tierCounts[Tier2]), (Tier3, tierCounts[Tier3])]
  }

  /**
   * The position `reduce((a, b) => a[1] > b[1] ? a : b)` ends on: a
   * maximal count, and no later entry reaches it (ties go to the later
   * entry).
   */
  function ReduceIndex(s: seq<(string, int)>): (k: nat)
    requires |s| > 0
    ensures k < |s|
    ensures forall j :: 0 <= j < |s| ==> s[j].1 <= s[k].1
    ensures forall j :: k < j < |s| ==> s[j].1 < s[k].1
  {
    if |s| == 1 then 0
    else
      var a := ReduceIndex(s[..|s| - 1]);
      if s[a].1 > s[|s| - 1].1 then a else |s| - 1
  }

  /**
   * The dominant tier of `loadMetaAnalysis`: a tier of maximal count, and
   * of the tiers sharing that count the last one, so Tier 1 must lead
   * strictly and Tier 3 wins every tie it is part of.
   */
  function DominantTier(tierCounts: map<string, nat>): (t: string)
    requires tierCounts.Keys == {Tier1, Tier2, Tier3}
    ensures t in tierCounts
    ensures forall u :: u in tierCounts ==> tierCounts[u] <= tierCounts[t]
    ensures t == Tier1 <==> tierCounts[Tier1] > tierCounts[Tier2] && tierCounts[Tier1] > tierCounts[Tier3]
    ensures t == Tier2 <==> tierCounts[Tier2] >= tierCounts[Tier1] && tierCounts[Tier2] > tierCounts[Tier3]
    ensures t == Tier3 <==> tierCounts[Tier3] >= tierCounts[Tier1] && tierCounts[Tier3] >= tierCounts[Tier2]
  {
    var s := TierEntries(tierCounts);
    var k := ReduceIndex(s);
    assert s[0] == (Tier1, tierCounts[Tier1]) && s[1] == (Tier2, tierCounts[Tier2]) && s[2] == (Tier3, tierCounts[Tier3]);
    assert |Tier1| == |Tier2| == |Tier3| == 6;
    assert Tier1[5] == '1' && Tier2[5] == '2' && Tier3[5] == '3';
    s[k].0
  }

  /** `dominantTier.replace('Tier ', 'T')`, the label the header shows. */
  function ShortTierLabel(t: string): string
  {
    ReplaceFirst(t, "Tier ", "T")
  }

  // ---------------------------------------------------------------------
  // Top decks
  // ---------------------------------------------------------------------

  /** Each entry paired with `calculateDeckScore` of its record and ratings. */
  function ScoredDecks(competitive: seq<Entry>, additional: Additional): (r: seq<Ranked<Entry>>)
    ensures |r| == |competitive|
    ensures forall i :: 0 <= i < |r| ==> r[i].item == competitive[i]
    ensures forall i :: 0 <= i < |r| ==>
              r[i].score == DeckScore(competitive[i].deck, GoingOf(additional, competitive[i].name))
  {
    seq(|competitive|, i requires 0 <= i < |competitive| =>
      Ranked(competitive[i], DeckScore(competitive[i].deck, GoingOf(additional, competitive[i].name))))
  }

  /**
   * `calculateTopDecks`: min(5, n) scored entries, scores non-increasing,
   * each drawn from the input, no entry left out scoring above one kept,
   * and equal scores in input order (the sort is stable).
   */
  function TopDecks(competitive: seq<Entry>, additional: Additional): (r: seq<Ranked<Entry>>)
    ensures |r| == if |competitive| < 5 then |competitive| else 5
    ensures NonIncreasing(r)
    ensures multiset(r) <= multiset(ScoredDecks(competitive, additional))
    ensures var s := ScoredDecks(competitive, additional);
            forall i, j :: 0 <= i < |s| && 0 <= j < |r| && s[i] !in r ==> s[i].score <= r[j].score
    ensures forall k :: WithScore(r, k) <= WithScore(ScoredDecks(competitive, additional), k)
  {
    TopN(ScoredDecks(competitive, additional), 5)
  }

  // ---------------------------------------------------------------------
  // Type diversity
  // ---------------------------------------------------------------------

  /** The distinct deck types among the entries. */
  function TypesOf(s: seq<Entry>): set<string>
  {
    set e | e in s :: e.deck.deckType
  }

  /** The number of entries of `s` whose type is `t`. */
  function CountType(s: seq<Entry>, t: string): (n: nat)
    ensures n <= |s|
  {
    if s == [] then 0
    else CountType(s[..|s| - 1], t) + (if s[|s| - 1].deck.deckType == t then 1 else 0)
  }

  lemma {:induction false} CountTypePositive(s: seq<Entry>, t: string)
    ensures CountType(s, t) > 0 <==> t in TypesOf(s)
  {
    if s != [] {
      var p := s[..|s| - 1];
      CountTypePositive(p, t);
      assert s == p + [s[|s| - 1]];
      assert TypesOf(s) == TypesOf(p) + {s[|s| - 1].deck.deckType};
    }
  }

  /**
   * The `deckTypes` counting loop of `loadMetaAnalysis`: one key per
   * distinct type, holding the number of entries of that type.
   */
  method CountDeckTypes(competitive: seq<Entry>) returns (deckTypes: map<string, nat>)
    ensures deckTypes.Keys == TypesOf(competitive)
    ensures forall t :: t in deckTypes ==> deckTypes[t] == CountType(competitive, t) > 0
  {
    deckTypes := map[];
    ghost var seen: seq<Entry> := [];
    var i := 0;
    while i < |competitive|
      invariant 0 <= i <= |competitive|
      invariant seen == competitive[..i]
      invariant TypesCounted(deckTypes, seen)
    {
      var t := competitive[i].deck.deckType;
      TypesCountedStep(deckTypes, seen, competitive[i]);
      deckTypes := deckTypes[t := (if t in deckTypes then deckTypes[t] else 0) + 1];
      seen := seen + [competitive[i]];
      PrefixStep([], competitive, i);
      i := i + 1;
    }
    assert competitive[..|competitive|] == competitive;
    forall t | t in deckTypes ensures deckTypes[t] > 0 {
      CountTypePositive(competitive, t);
    }
  }

  /** The `deckTypes` object holds one key per type seen, counting its entries. */
  ghost predicate TypesCounted(deckTypes: map<string, nat>, seen: seq<Entry>)
  {
    && deckTypes.Keys == TypesOf(seen)
    && forall t :: t in deckTypes ==> deckTypes[t] == CountType(seen, t)
  }

  lemma TypesCountedStep(deckTypes: map<string, nat>, seen: seq<Entry>, e: Entry)
    requires TypesCounted(deckTypes, seen)
    ensures var t := e.deck.deckType;
            TypesCounted(deckTypes[t := (if t in deckTypes then deckTypes[t] else 0) + 1], seen + [e])
  {
    var t := e.deck.deckType;
    var s := seen + [e];
    assert s[..|s| - 1] == seen && s[|s| - 1] == e;
    TypesOfAppend(seen, e);
    CountTypePositive(seen, t);
    assert CountType(s, t) == CountType(seen, t) + 1;
    forall u | u != t ensures CountType(s, u) == CountType(seen, u) {
    }
  }

  lemma TypesOfAppend(seen: seq<Entry>, e: Entry)
    ensures TypesOf(seen + [e]) == TypesOf(seen) + {e.deck.deckType}
  {
    var s := seen + [e];
    forall u | u in TypesOf(s) ensures u in TypesOf(seen) + {e.deck.deckType} {
      var x :| x in s && x.deck.deckType == u;
      if x != e {
        assert x in seen;
      }
    }
    assert e in s;
    forall u | u in TypesOf(seen) ensures u in TypesOf(s) {
      var x :| x in seen && x.deck.deckType == u;
      assert x in s;
    }
  }

  /** `Math.min(Object.keys(deckTypes).length * 25, 100)`. */
  function TypeDiversity(deckTypes: map<string, nat>): (percent: int)
    ensures 0 <= percent <= 100 && percent % 25 == 0
    ensures percent == 100 <==> |deckTypes| >= 4
    ensures |deckTypes| < 4 ==> percent == 25 * |deckTypes|
  {
    if |deckTypes| * 25 < 100 then |deckTypes| * 25 else 100
  }

  /** One type gives 25%, four or more saturate at 100%, none gives 0%. */
  lemma TypeDiversityExamples(competitive: seq<Entry>, deckTypes: map<string, nat>)
    requires deckTypes.Keys == TypesOf(competitive)
    ensures competitive == [] ==> TypeDiversity(deckTypes) == 0
    ensures (forall e :: e in competitive ==> e.deck.deckType == "Combo") && competitive != []
            ==> TypeDiversity(deckTypes) == 25
    ensures {"Combo", "Control", "Aggro", "Mid-Range"} <= TypesOf(competitive)
            ==> TypeDiversity(deckTypes) == 100
  {
    if competitive == [] {
      assert deckTypes.Keys == {};
    }
    if (forall e :: e in competitive ==> e.deck.deckType == "Combo") && competitive != [] {
      assert competitive[0] in competitive;
      assert TypesOf(competitive) == {"Combo"};
      assert deckTypes.Keys == {"Combo"};
    }
    if {"Combo", "Control", "Aggro", "Mid-Range"} <= TypesOf(competitive) {
      assert |{"Combo", "Control", "Aggro", "Mid-Range"}| == 4;
      assert |deckTypes.Keys| >= 4 by {
        SubsetCard({"Combo", "Control", "Aggro", "Mid-Range"}, deckTypes.Keys);
      }
    }
  }

  lemma SubsetCard(a: set<string>, b: set<string>)
    requires a <= b
    ensures |a| <= |b|
  {
    assert b == a + (b - a);
  }

  // ---------------------------------------------------------------------
  // Common weaknesses
  // ---------------------------------------------------------------------

  /** Every entry's weaknesses, in order, one after the other. */
  function AllWeaknesses(s: seq<Entry>): seq<string>
  {
    if s == [] then [] else AllWeaknesses(s[..|s| - 1]) + s[|s| - 1].deck.weaknesses
  }

  /** The distinct elements of `s` in order of first occurrence (the key order of a counting object). */
  function Distinct(s: seq<string>): (d: seq<string>)
    ensures forall w :: w in d <==> w in s
    ensures forall i, j :: 0 <= i < j < |d| ==> d[i] != d[j]
  {
    if s == [] then []
    else
      var p := Distinct(s[..|s| - 1]);
      assert forall w :: w in s <==> w in s[..|s| - 1] || w == s[|s| - 1] by {
        assert s == s[..|s| - 1] + [s[|s| - 1]];
      }
      if s[|s| - 1] in p then p else p + [s[|s| - 1]]
  }

  /** `Object.entries(weaknesses).map(([name, count]) => ({name, count}))`. */
  function Tally(all: seq<string>): (r: seq<Ranked<string>>)
    ensures forall i :: 0 <= i < |r| ==> r[i].score == multiset(all)[r[i].item] > 0
    ensures forall w :: w in all <==> exists i :: 0 <= i < |r| && r[i].item == w
  {
    var d := Distinct(all);
    var r := seq(|d|, i requires 0 <= i < |d| => Ranked(d[i], multiset(all)[d[i]]));
    forall w | w in all ensures exists i :: 0 <= i < |r| && r[i].item == w {
      assert r[IndexOf(d, w)].item == w;
    }
    forall i | 0 <= i < |r| ensures r[i].item in all && multiset(all)[r[i].item] > 0 {
      assert r[i].item == d[i] && d[i] in d;
    }
    r
  }

  /** The position of the first occurrence of `w` in `d`. */
  function IndexOf(d: seq<string>, w: string): (i: nat)
    requires w in d
    ensures i < |d| && d[i] == w
    ensures forall j :: 0 <= j < i ==> d[j] != w
  {
    if d[0] == w then 0
    else
      var k := IndexOf(d[1..], w);
      assert forall j :: 0 < j <= k ==> d[j] == d[1..][j - 1];
      1 + k
  }

  /** Appending an element does not move the first occurrence of anything already present. */
  lemma IndexOfAppend(p: seq<string>, x: string, w: string)
    requires w in p
    ensures IndexOf(p + [x], w) == IndexOf(p, w)
  {
    var a := IndexOf(p + [x], w);
    var b := IndexOf(p, w);
    assert (p + [x])[b] == w;
  }

  /** A new element appended is first found at the end. */
  lemma IndexOfAppendNew(p: seq<string>, x: string)
    requires x !in p
    ensures IndexOf(p + [x], x) == |p|
  {
    assert forall j :: 0 <= j < |p| ==> (p + [x])[j] == p[j];
  }

  /**
   * `Distinct` lists the elements in the order in which they first occur
   * in `s`, the order in which a counting object acquires its keys.
   */
  lemma {:induction false} DistinctFirstOccurrenceOrder(s: seq<string>)
    ensures forall i, j :: 0 <= i < j < |Distinct(s)| ==> IndexOf(s, Distinct(s)[i]) < IndexOf(s, Distinct(s)[j])
  {
    if s != [] {
      var p, x := s[..|s| - 1], s[|s| - 1];
      assert s == p + [x];
      DistinctFirstOccurrenceOrder(p);
      var d, dp := Distinct(s), Distinct(p);
      forall i, j | 0 <= i < j < |d|
        ensures IndexOf(s, d[i]) < IndexOf(s, d[j])
      {
        assert d[i] == dp[i] && d[i] in p;
        IndexOfAppend(p, x, d[i]);
        if j < |dp| {
          assert d[j] == dp[j] && d[j] in p;
          IndexOfAppend(p, x, d[j]);
        } else {
          assert d == dp + [x] && d[j] == x && x !in p;
          IndexOfAppendNew(p, x);
        }
      }
    }
  }

  /**
   * `analyzeCommonWeaknesses`: counts every weakness over all decks, then
   * keeps the five most frequent, counts non-increasing, ties in order of
   * first appearance. Each count is the number of occurrences of that
   * weakness across all lists, and a weakness is left out only when five
   * others count at least as much.
   */
  method AnalyzeCommonWeaknesses(competitive: seq<Entry>) returns (top: seq<Ranked<string>>)
    ensures top == TopN(Tally(AllWeaknesses(competitive)), 5)
    ensures |top| <= 5 && NonIncreasing(top)
    ensures forall i :: 0 <= i < |top| ==> top[i].score == multiset(AllWeaknesses(competitive))[top[i].item] > 0
  {
    var weaknesses: map<string, nat> := map[];
    var order: seq<string> := [];
    var i := 0;
    while i < |competitive|
      invariant 0 <= i <= |competitive|
      invariant Counted(weaknesses, order, AllWeaknesses(competitive[..i]))
    {
      var list := competitive[i].deck.weaknesses;
      assert AllWeaknesses(competitive[..i + 1]) == AllWeaknesses(competitive[..i]) + list by {
        assert competitive[..i + 1][..i] == competitive[..i];
      }
      weaknesses, order := CountWeaknesses(weaknesses, order, AllWeaknesses(competitive[..i]), list);
      i := i + 1;
    }
    assert competitive[..|competitive|] == competitive;
    ghost var all := AllWeaknesses(competitive);
    CountedKeys(weaknesses, order, all);
    var entries := seq(|order|, k requires 0 <= k < |order| => Ranked(order[k], weaknesses[order[k]]));
    CountedEntries(weaknesses, order, all, entries);
    top := TopN(entries, 5);
    TopTallyCounts(all, top);
  }

  /**
   * The inner `deck.weaknesses.forEach` of `analyzeCommonWeaknesses`: adds
   * one to the count of each weakness of the list, creating its key (at the
   * end of the key order) on its first occurrence.
   */
  method CountWeaknesses(weaknesses: map<string, nat>, order: seq<string>, ghost seen: seq<string>, list: seq<string>)
    returns (weaknesses': map<string, nat>, order': seq<string>)
    requires Counted(weaknesses, order, seen)
    ensures Counted(weaknesses', order', seen + list)
  {
    weaknesses', order' := weaknesses, order;
    ghost var counted := seen;
    var j := 0;
    while j < |list|
      invariant 0 <= j <= |list|
      invariant counted == seen + list[..j]
      invariant Counted(weaknesses', order', counted)
    {
      var w := list[j];
      CountedStep(weaknesses', order', counted, w);
      if w !in weaknesses' {
        order' := order' + [w];
      }
      weaknesses' := weaknesses'[w := (if w in weaknesses' then weaknesses'[w] else 0) + 1];
      counted := counted + [w];
      PrefixStep(seen, list, j);
      j := j + 1;
    }
    assert list[..|list|] == list;
  }

  /** The counting object: `order` lists its keys in insertion order and each counts its occurrences in `seen`. */
  ghost predicate Counted(weaknesses: map<string, nat>, order: seq<string>, seen: seq<string>)
  {
    && order == Distinct(seen)
    && (forall w :: w in weaknesses <==> w in seen)
    && (forall w :: w in weaknesses ==> weaknesses[w] == multiset(seen)[w])
  }

  lemma PrefixStep<T>(seen: seq<T>, list: seq<T>, j: nat)
    requires j < |list|
    ensures seen + list[..j + 1] == (seen + list[..j]) + [list[j]]
  {
    assert list[..j + 1] == list[..j] + [list[j]];
  }

  lemma CountedStep(weaknesses: map<string, nat>, order: seq<string>, seen: seq<string>, w: string)
    requires Counted(weaknesses, order, seen)
    ensures Counted(weaknesses[w := (if w in weaknesses then weaknesses[w] else 0) + 1],
                    if w in weaknesses then order else order + [w], seen + [w])
  {
    assert (seen + [w])[..|seen|] == seen;
  }

  lemma CountedEntries(weaknesses: map<string, nat>, order: seq<string>, seen: seq<string>, entries: seq<Ranked<string>>)
    requires Counted(weaknesses, order, seen)
    requires forall k :: 0 <= k < |order| ==> order[k] in weaknesses
    requires |entries| == |order| && forall k :: 0 <= k < |order| ==> entries[k] == Ranked(order[k], weaknesses[order[k]])
    ensures entries == Tally(seen)
  {
    var t := Tally(seen);
    assert |t| == |order|;
    forall k | 0 <= k < |order| ensures entries[k] == t[k] {
      assert t[k] == Ranked(order[k], multiset(seen)[order[k]]);
    }
  }

  /** Each weakness in the top five carries its number of occurrences. */
  lemma TopTallyCounts(all: seq<string>, top: seq<Ranked<string>>)
    requires top == TopN(Tally(all), 5)
    ensures forall i :: 0 <= i < |top| ==> top[i].score == multiset(all)[top[i].item] > 0
  {
    var t := Tally(all);
    forall i | 0 <= i < |top| ensures top[i].score == multiset(all)[top[i].item] > 0 {
      assert top[i] in multiset(top);
      assert top[i] in multiset(t);
      assert top[i] in t;
    }
  }

  lemma CountedKeys(weaknesses: map<string, nat>, order: seq<string>, seen: seq<string>)
    requires Counted(weaknesses, order, seen)
    ensures forall k :: 0 <= k < |order| ==> order[k] in weaknesses
  {
    forall k | 0 <= k < |order| ensures order[k] in weaknesses {
      assert order[k] in Distinct(seen);
    }
  }

  /**
   * A weakness left out of the result is outnumbered: five weaknesses were
   * kept and each counts at least as much.
   */
  lemma CommonWeaknessesAreTop(competitive: seq<Entry>, w: string)
    requires w in AllWeaknesses(competitive)
    requires var top := TopN(Tally(AllWeaknesses(competitive)), 5);
             forall i :: 0 <= i < |top| ==> top[i].item != w
    ensures var top := TopN(Tally(AllWeaknesses(competitive)), 5);
            |top| == 5 && forall i :: 0 <= i < 5 ==> top[i].score >= multiset(AllWeaknesses(competitive))[w]
  {
    var t := Tally(AllWeaknesses(competitive));
    var k :| 0 <= k < |t| && t[k].item == w;
    assert t[k] in t;
    TopNLeftOut(t, 5, t[k]);
  }

  // ---------------------------------------------------------------------
  // Performance by type
  // ---------------------------------------------------------------------

  /** The archetypes `calculatePerformanceByType` reports, in key order. */
  const PerformanceTypes: seq<string> := ["Combo", "Control", "Aggro", "Mid-Range"]

  /** The composite scores of the entries of type `t`, in order. */
  function ScoresOfType(s: seq<Entry>, additional: Additional, t: string): seq<int>
  {
    if s == [] then []
    else
      var e := s[|s| - 1];
      ScoresOfType(s[..|s| - 1], additional, t)
        + (if e.deck.deckType == t then [DeckScore(e.deck, GoingOf(additional, e.name))] else [])
  }

  function Sum(s: seq<int>): int
  {
    if s == [] then 0 else Sum(s[..|s| - 1]) + s[|s| - 1]
  }

  /**
   * `Math.round` of the mean, or 50 for a type with no decks; the
   * rounded mean is the integer nearest to it, halves rounded up.
   */
  function MeanOr50(s: seq<int>): (r: int)
    ensures |s| == 0 ==> r == 50
    ensures |s| > 0 ==> r == RoundDiv(Sum(s), |s|)
  {
    if |s| == 0 then 50
    else
      JsRoundQuotient(Sum(s), |s|);
      JsRound(Sum(s) as real / |s| as real)
  }

  lemma {:induction false} SumBounds(s: seq<int>, lo: int, hi: int)
    requires Within(s, lo, hi)
    ensures lo * |s| <= Sum(s) <= hi * |s|
  {
    if s != [] {
      var p, n := s[..|s| - 1], |s| - 1;
      assert Within(p, lo, hi);
      SumBounds(p, lo, hi);
      assert Sum(s) == Sum(p) + s[n];
      assert lo * |s| == lo * n + lo && hi * |s| == hi * n + hi;
    }
  }

  /** The rounded mean of scores lies between their smallest and largest possible values. */
  lemma MeanWithinBounds(s: seq<int>, lo: int, hi: int)
    requires |s| > 0 && Within(s, lo, hi)
    ensures lo <= MeanOr50(s) <= hi
  {
    SumBounds(s, lo, hi);
    RoundDivBounds(Sum(s), |s|, lo, hi);
  }

  lemma RoundDivBounds(a: int, n: int, lo: int, hi: int)
    requires n > 0 && lo * n <= a <= hi * n
    ensures lo <= RoundDiv(a, n) <= hi
  {
    var r := RoundDiv(a, n);
    if r < lo {
      MulMonotone(2 * n, r + 1, lo);
    }
    if r > hi {
      MulMonotone(2 * n, hi + 1, r);
    }
  }

  /** The lower-cased archetype names, the keys of the result. */
  const PerformanceKeys: seq<string> := ["combo", "control", "aggro", "mid-range"]

  /** The four keys differ in length or in their first letter. */
  lemma PerformanceKeysDistinct(k: nat, m: nat)
    requires k < m < 4
    ensures PerformanceKeys[k] != PerformanceKeys[m]
  {
    var a, b := PerformanceKeys[k], PerformanceKeys[m];
    assert |a| != |b| || a[0] != b[0];
  }

  lemma PerformanceKeysAreLower(k: nat)
    requires k < 4
    ensures Lower(PerformanceTypes[k]) == PerformanceKeys[k]
  {
    var t, key := PerformanceTypes[k], PerformanceKeys[k];
    assert |Lower(t)| == |key|;
    forall c | 0 <= c < |key| ensures Lower(t)[c] == key[c] {
      assert Lower(t)[c] == LowerChar(t[c]);
    }
  }

  /**
   * `calculatePerformanceByType`: for each of the four archetypes, under
   * its lower-cased name, the rounded mean composite score of the decks of
   * that type, or 50 when there are none; decks of other types are
   * ignored.
   */
  method CalculatePerformanceByType(competitive: seq<Entry>, additional: Additional)
    returns (result: map<string, int>)
    ensures result.Keys == {"combo", "control", "aggro", "mid-range"}
    ensures forall k :: 0 <= k < 4 ==>
              result[PerformanceKeys[k]] == MeanOr50(ScoresOfType(competitive, additional, PerformanceTypes[k]))
  {
    var typeScores := CollectTypeScores(competitive, additional);
    result := map[];
    var k := 0;
    while k < 4
      invariant 0 <= k <= 4
      invariant result == PerformanceUpTo(typeScores, k)
    {
      var t := PerformanceTypes[k];
      var scores := typeScores[t];
      PerformanceKeysAreLower(k);
      if |scores| > 0 {
        result := result[Lower(t) := JsRound(Sum(scores) as real / |scores| as real)];
      } else {
        result := result[Lower(t) := 50];
      }
      k := k + 1;
    }
    PerformanceUpToAll(typeScores);
  }

  /** The result of `calculatePerformanceByType` once the first `k` archetypes are reported. */
  ghost function PerformanceUpTo(typeScores: map<string, seq<int>>, k: nat): map<string, int>
    requires k <= 4 && typeScores.Keys == {"Combo", "Control", "Aggro", "Mid-Range"}
  {
    if k == 0 then map[]
    else PerformanceUpTo(typeScores, k - 1)[PerformanceKeys[k - 1] := MeanOr50(typeScores[PerformanceTypes[k - 1]])]
  }

  lemma PerformanceUpToAll(typeScores: map<string, seq<int>>)
    requires typeScores.Keys == {"Combo", "Control", "Aggro", "Mid-Range"}
    ensures PerformanceUpTo(typeScores, 4).Keys == {"combo", "control", "aggro", "mid-range"}
    ensures forall k :: 0 <= k < 4 ==>
              PerformanceUpTo(typeScores, 4)[PerformanceKeys[k]] == MeanOr50(typeScores[PerformanceTypes[k]])
  {
    var m := PerformanceUpTo(typeScores, 4);
    var v := seq(4, k requires 0 <= k < 4 => MeanOr50(typeScores[PerformanceTypes[k]]));
    assert PerformanceUpTo(typeScores, 1) == map[PerformanceKeys[0] := v[0]];
    assert PerformanceUpTo(typeScores, 2) == PerformanceUpTo(typeScores, 1)[PerformanceKeys[1] := v[1]];
    assert PerformanceUpTo(typeScores, 3) == PerformanceUpTo(typeScores, 2)[PerformanceKeys[2] := v[2]];
    assert m == PerformanceUpTo(typeScores, 3)[PerformanceKeys[3] := v[3]];
    assert m.Keys == {PerformanceKeys[0], PerformanceKeys[1], PerformanceKeys[2], PerformanceKeys[3]};
    forall k | 0 <= k < 4 ensures m[PerformanceKeys[k]] == v[k] {
      forall j | 0 <= j < 4 && j != k ensures PerformanceKeys[j] != PerformanceKeys[k] {
        if j < k { PerformanceKeysDistinct(j, k); } else { PerformanceKeysDistinct(k, j); }
      }
    }
  }

  /**
   * The first pass of `calculatePerformanceByType`: one score list per
   * archetype, each entry's composite score appended to the list of its
   * type when that type is one of the four.
   */
  method CollectTypeScores(competitive: seq<Entry>, additional: Additional)
    returns (typeScores: map<string, seq<int>>)
    ensures typeScores.Keys == {"Combo", "Control", "Aggro", "Mid-Range"}
    ensures forall t :: t in typeScores ==> typeScores[t] == ScoresOfType(competitive, additional, t)
  {
    typeScores := map["Combo" := [], "Control" := [], "Aggro" := [], "Mid-Range" := []];
    var i := 0;
    while i < |competitive|
      invariant 0 <= i <= |competitive|
      invariant typeScores.Keys == {"Combo", "Control", "Aggro", "Mid-Range"}
      invariant forall t :: t in typeScores ==> typeScores[t] == ScoresOfType(competitive[..i], additional, t)
    {
      var e := competitive[i];
      var score := DeckScore(e.deck, GoingOf(additional, e.name));
      assert competitive[..i + 1][..i] == competitive[..i];
      if e.deck.deckType in typeScores {
        typeScores := typeScores[e.deck.deckType := typeScores[e.deck.deckType] + [score]];
      }
      i := i + 1;
    }
    assert competitive[..|competitive|] == competitive;
  }

  /** All values of `s` lie in `lo..hi`. */
  predicate Within(s: seq<int>, lo: int, hi: int)
  {
    forall i :: 0 <= i < |s| ==> lo <= s[i] <= hi
  }

  lemma {:induction false} ScoresOfTypeBounds(s: seq<Entry>, additional: Additional, t: string)
    requires forall e :: e in s ==> WellFormed(e.deck, GoingOf(additional, e.name))
    ensures Within(ScoresOfType(s, additional, t), 23, 84)
  {
    if s != [] {
      var p, e := s[..|s| - 1], s[|s| - 1];
      assert forall x :: x in p ==> x in s;
      ScoresOfTypeBounds(p, additional, t);
      assert e in s;
      DeckScoreRange(e.deck, GoingOf(additional, e.name));
    }
  }

  /** On well-formed data every reported performance lies in 23..84, or is the default 50. */
  lemma PerformanceRange(competitive: seq<Entry>, additional: Additional, t: string)
    requires forall e :: e in competitive ==> WellFormed(e.deck, GoingOf(additional, e.name))
    ensures 23 <= MeanOr50(ScoresOfType(competitive, additional, t)) <= 84
  {
    var scores := ScoresOfType(competitive, additional, t);
    if |scores| > 0 {
      ScoresOfTypeBounds(competitive, additional, t);
      MeanWithinBounds(scores, 23, 84);
    }
  }

  // ---------------------------------------------------------------------
  // Key matchups
  // ---------------------------------------------------------------------

  datatype KeyMatchup = KeyMatchup(deck1: string, deck2: string, result: string, advantage: string, advantageText: string)

  /**
   * `generateKeyMatchups`: nothing for fewer than three entries; otherwise
   * the pairs (1st, 2nd), (2nd, 3rd) and (1st, 3rd) of the first three
   * entries in key order (not the three best scores). The first pair is
   * favourable when the first deck is Tier 1, the second when the second
   * deck is a Control deck, the third is always even.
   */
  function GenerateKeyMatchups(competitive: seq<Entry>): (r: seq<KeyMatchup>)
    ensures |competitive| < 3 <==> r == []
    ensures |competitive| >= 3 ==> |r| == 3
    ensures |competitive| >= 3 ==>
              && r[0].deck1 == competitive[0].name && r[0].deck2 == competitive[1].name
              && r[1].deck1 == competitive[1].name && r[1].deck2 == competitive[2].name
              && r[2].deck1 == competitive[0].name && r[2].deck2 == competitive[2].name
    ensures |competitive| >= 3 ==>
              && (r[0].advantage == "favorable" <==> competitive[0].deck.tier == Tier1)
              && (r[1].advantage == "favorable" <==> competitive[1].deck.deckType == "Control")
              && r[2].advantage == "even"
              && forall m :: 0 <= m < 3 ==> r[m].advantage in {"favorable", "even"}
  {
    if |competitive| < 3 then []
    else
      var n0, n1, n2 := competitive[0].name, competitive[1].name, competitive[2].name;
      var first := competitive[0].deck.tier == Tier1;
      [ KeyMatchup(n0, n1, "Matchup clave del formato",
                   if first then "favorable" else "even",
                   if first then "Favorable" else "Equilibrado"),
        KeyMatchup(n1, n2, "Matchup estratégico",
                   if competitive[1].deck.deckType == "Control" then "favorable" else "even",
                   "Importante para side deck"),
        KeyMatchup(n0, n2, "Matchup de control vs combo", "even", "Muy equilibrado") ]
  }

  /** With distinct deck names no key matchup pits a deck against itself. */
  lemma KeyMatchupsDistinct(competitive: seq<Entry>)
    requires UniqueNames(competitive)
    ensures forall m :: m in GenerateKeyMatchups(competitive) ==> m.deck1 != m.deck2
  {
  }

  // ---------------------------------------------------------------------
  // The header of loadMetaAnalysis
  // ---------------------------------------------------------------------

  datatype MetaHeader = MetaHeader(totalDecks: nat, diversity: string, dominantTier: string)

  /**
   * The header counters of `loadMetaAnalysis`: the number of competitive
   * decks; with none it stops at `'0%'` and `'-'` before any division,
   * otherwise the type diversity as a percentage and the dominant tier
   * shortened to `T1`, `T2` or `T3`.
   */
  method LoadMetaHeader(decks: seq<Entry>) returns (h: MetaHeader)
    ensures h.totalDecks == |Competitive(decks)|
    ensures h.totalDecks == 0 ==> h.diversity == "0%" && h.dominantTier == "-"
    ensures h.totalDecks > 0 ==>
              && h.diversity == IntToString(if |TypesOf(Competitive(decks))| < 4 then 25 * |TypesOf(Competitive(decks))| else 100) + "%"
              && h.dominantTier in {"T1", "T2", "T3"}
              && h.dominantTier == ShortTierLabel(DominantTier(TierCountsOf(Competitive(decks))))
  {
    var competitive := Competitive(decks);
    var totalDecks := |competitive|;
    if totalDecks == 0 {
      h := MetaHeader(0, "0%", "-");
      return;
    }
    var deckTypes := CountDeckTypes(competitive);
    var typeDiversity := TypeDiversity(deckTypes);
    var tierCounts := CalculateTierDistribution(competitive);
    var dominant := DominantTier(tierCounts);
    ShortTierLabels();
    h := MetaHeader(totalDecks, IntToString(typeDiversity) + "%", ShortTierLabel(dominant));
  }

  lemma ShortTierLabels()
    ensures ShortTierLabel(Tier1) == "T1" && ShortTierLabel(Tier2) == "T2" && ShortTierLabel(Tier3) == "T3"
  {
    assert Tier1[..5] == "Tier ";
    assert Tier2[..5] == "Tier ";
    assert Tier3[..5] == "Tier ";
  }
}
