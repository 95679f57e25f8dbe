/**
 * The browsing side of js/app.js: the tier and type filters of the deck
 * menu, the list the menu shows, `findDeckByName`, and the helpers that
 * turn a number into a descriptive text or a row of stars.
 */
module Browse {
  import opened Common
  import opened DeckData
  import opened Autocomplete

  // ---------------------------------------------------------------------
  // applyFilters
  // ---------------------------------------------------------------------

  /**
   * The callback of `applyFilters`. A tier filter of `'rogue'` or `'fun'`
   * asks for that exact tier; any other value `v` but `'all'` asks for a
   * tier containing `'Tier ' + v`. A type filter other than `'all'` asks
   * for that exact type.
   */
  predicate PassesFilters(deck: Deck, tierFilter: string, typeFilter: string)
  {
    && (tierFilter != "all" ==>
          if tierFilter == Rogue || tierFilter == Fun then deck.tier == tierFilter
          else Includes(deck.tier, "Tier " + tierFilter))
    && (typeFilter == "all" || deck.deckType == typeFilter)
  }

  /**
   * `filteredDecks` after `applyFilters`: the names passing both filters,
   * in key order, each key kept at most once (a subsequence of the keys).
   */
  function ApplyFilters(decks: seq<Entry>, tierFilter: string, typeFilter: string): (r: seq<string>)
    ensures |r| <= |decks|
    ensures forall n :: n in r <==>
              exists i :: 0 <= i < |decks| && decks[i].name == n && PassesFilters(decks[i].deck, tierFilter, typeFilter)
    ensures Subsequence(r, Keys(decks))
  {
    if decks == [] then []
    else
      var rest := ApplyFilters(decks[1..], tierFilter, typeFilter);
      assert forall j :: 0 <= j < |decks| - 1 ==> decks[1..][j] == decks[j + 1];
      var r := (if PassesFilters(decks[0].deck, tierFilter, typeFilter) then [decks[0].name] else []) + rest;
      assert Subsequence(r, Keys(decks)) by {
        var keys := Keys(decks);
        assert keys[1..] == Keys(decks[1..]);
        if PassesFilters(decks[0].deck, tierFilter, typeFilter) {
          assert r != [] && keys != [] && r[0] == keys[0] && r[1..] == rest;
          assert Subsequence(r[1..], keys[1..]);
        } else {
          SubsequenceCons(rest, Keys(decks[1..]), decks[0].name);
          assert [decks[0].name] + Keys(decks[1..]) == keys;
          assert r == rest;
        }
      }
      r
  }

  /** With unique deck names no name is listed twice. */
  lemma {:induction false} ApplyFiltersNoDuplicates(decks: seq<Entry>, tierFilter: string, typeFilter: string)
    requires UniqueNames(decks)
    ensures forall i, j :: 0 <= i < j < |ApplyFilters(decks, tierFilter, typeFilter)| ==>
              ApplyFilters(decks, tierFilter, typeFilter)[i] != ApplyFilters(decks, tierFilter, typeFilter)[j]
  {
    SubsequenceOfDistinct(ApplyFilters(decks, tierFilter, typeFilter), Keys(decks));
  }

  /** With both filters on `'all'` every deck passes, in key order. */
  lemma {:induction false} ApplyFiltersAll(decks: seq<Entry>)
    ensures ApplyFilters(decks, "all", "all") == Keys(decks)
  {
    if decks != [] {
      ApplyFiltersAll(decks[1..]);
    }
  }

  /**
   * On the five tier literals, the numeric tier filters `'1'`, `'2'` and
   * `'3'` select exactly that tier, even though they test containment.
   */
  lemma TierFilterIsExact(deck: Deck, v: string)
    requires deck.tier in AllTiers && v in ["1", "2", "3"]
    ensures PassesFilters(deck, v, "all") <==> deck.tier == "Tier " + v
  {
    var q := "Tier " + v;
    assert |q| == 6;
    if deck.tier != q {
      if |deck.tier| == 6 {
        assert deck.tier[..6] == deck.tier;
        assert !Includes(deck.tier[1..], q);
      } else {
        assert |deck.tier| < 6;
      }
    } else {
      assert deck.tier[..|q|] == q;
    }
  }

  // ---------------------------------------------------------------------
  // loadMenuDecks
  // ---------------------------------------------------------------------

  /**
   * The names `loadMenuDecks` shows, as written: `filteredDecks` when it is
   * non-empty and every key otherwise, so an empty filter result cannot be
   * told apart from "no filter applied yet".
   */
  function MenuDeckNames(decks: seq<Entry>, filteredDecks: seq<string>): (r: seq<string>)
    ensures |filteredDecks| > 0 ==> r == filteredDecks
    ensures filteredDecks == [] ==> r == Keys(decks)
  {
    if |filteredDecks| > 0 then filteredDecks else Keys(decks)
  }

  /**
   * As written, filters that match nothing show every deck: a Tier 1
   * deck appears under the `'rogue'` filter, and the empty-state message is
   * unreachable unless there are no decks at all.
   */
  lemma MenuShowsEverythingWhenNothingMatches()
    ensures var decks := [Entry("Snake-Eye", Deck(Tier1, "Combo", 6, []))];
            && ApplyFilters(decks, Rogue, "all") == []
            && MenuDeckNames(decks, ApplyFilters(decks, Rogue, "all")) == ["Snake-Eye"]
            && !PassesFilters(decks[0].deck, Rogue, "all")
  {
    var decks := [Entry("Snake-Eye", Deck(Tier1, "Combo", 6, []))];
    assert !PassesFilters(decks[0].deck, Rogue, "all");
    assert ApplyFilters(decks[1..], Rogue, "all") == [];
  }

  /** The menu's empty state is shown exactly when the list to show is empty. */
  lemma MenuEmptyStateOnlyWithoutDecks(decks: seq<Entry>, filteredDecks: seq<string>)
    ensures MenuDeckNames(decks, filteredDecks) == [] <==> filteredDecks == [] && decks == []
  {
  }

  /**
   * The menu with the filter state kept apart from its result: `None`
   * before any filter is applied (show every key), `Some(names)` after,
   * even when `names` is empty.
   */
  function MenuDeckNamesCorrected(decks: seq<Entry>, filteredDecks: Option<seq<string>>): (r: seq<string>)
    ensures filteredDecks.None? ==> r == Keys(decks)
    ensures filteredDecks.Some? ==> r == filteredDecks.value
  {
    match filteredDecks
    case None => Keys(decks)
    case Some(names) => names
  }

  /**
   * With the corrected menu every deck shown passes the filters, every
   * deck passing them is shown, and the empty state appears exactly when
   * no deck passes.
   */
  lemma MenuCorrectedShowsMatches(decks: seq<Entry>, tierFilter: string, typeFilter: string)
    ensures var shown := MenuDeckNamesCorrected(decks, Some(ApplyFilters(decks, tierFilter, typeFilter)));
            && (forall i :: 0 <= i < |decks| && PassesFilters(decks[i].deck, tierFilter, typeFilter) ==> decks[i].name in shown)
            && (forall n :: n in shown ==> exists i :: 0 <= i < |decks| && decks[i].name == n && PassesFilters(decks[i].deck, tierFilter, typeFilter))
            && (shown == [] <==> forall i :: 0 <= i < |decks| ==> !PassesFilters(decks[i].deck, tierFilter, typeFilter))
  {
    var shown := ApplyFilters(decks, tierFilter, typeFilter);
    if shown != [] {
      assert shown[0] in shown;
    }
  }

  // ---------------------------------------------------------------------
  // findDeckByName
  // ---------------------------------------------------------------------

  /**
   * `findDeckByName`: the first key, in key order, whose lower-cased form
   * contains the lower-cased input; `None` (JavaScript `undefined`)
   * exactly when no key does.
   */
  function FindDeckByName(decks: seq<Entry>, input: string): (r: Option<string>)
    ensures r.None? <==> forall i :: 0 <= i < |decks| ==> !NameMatches(decks[i].name, input)
    ensures r.Some? ==> exists i :: && 0 <= i < |decks| && decks[i].name == r.value
                                    && NameMatches(decks[i].name, input)
                                    && forall j :: 0 <= j < i ==> !NameMatches(decks[j].name, input)
  {
    if decks == [] then None
    else if NameMatches(decks[0].name, input) then Some(decks[0].name)
    else
      var r := FindDeckByName(decks[1..], input);
      assert forall j :: 1 <= j < |decks| ==> decks[j] == decks[1..][j - 1];
      if r.Some? then
        var i :| && 0 <= i < |decks[1..]| && decks[1..][i].name == r.value
                 && NameMatches(decks[1..][i].name, input)
                 && forall j :: 0 <= j < i ==> !NameMatches(decks[1..][j].name, input);
        assert decks[i + 1].name == r.value;
        r
      else r
  }

  /**
   * `findDeckByName` agrees with the autocomplete: it is the first
   * element of the unsliced match list, hence the first suggestion, and it
   * is undefined exactly when there are no suggestions.
   */
  lemma {:induction false} FindIsFirstSuggestion(decks: seq<Entry>, input: string)
    ensures FindDeckByName(decks, input).None? <==> MatchingNames(decks, input) == []
    ensures FindDeckByName(decks, input).Some? ==>
              && FindDeckByName(decks, input).value == MatchingNames(decks, input)[0]
              && FindDeckByName(decks, input).value == SearchDecks(decks, input)[0]
  {
    if decks != [] {
      FindIsFirstSuggestion(decks[1..], input);
    }
    var all := MatchingNames(decks, input);
    if all != [] {
      assert SearchDecks(decks, input) == if |all| <= 10 then all else all[..10];
    }
  }

  // ---------------------------------------------------------------------
  // Descriptive texts
  // ---------------------------------------------------------------------

  /** The four texts of `getDifficultyText`, from easiest to hardest. */
  const DifficultyTexts: seq<string> := [
    "Fácil - Ideal para principiantes",
    "Moderado - Requiere práctica",
    "Difícil - Para jugadores experimentados",
    "Muy difícil - Solo para expertos"
  ]

  /** The band of a difficulty: up to 3, up to 6, up to 8, above. */
  function DifficultyBand(difficulty: int): (b: nat)
    ensures b < 4
    ensures b == 0 <==> difficulty <= 3
    ensures b == 1 <==> 3 < difficulty <= 6
    ensures b == 2 <==> 6 < difficulty <= 8
    ensures b == 3 <==> difficulty > 8
  {
    if difficulty <= 3 then 0 else if difficulty <= 6 then 1 else if difficulty <= 8 then 2 else 3
  }

  /** `getDifficultyText`. */
  function DifficultyText(difficulty: int): (text: string)
    ensures text in DifficultyTexts
    ensures text == DifficultyTexts[DifficultyBand(difficulty)]
  {
    if difficulty <= 3 then DifficultyTexts[0]
    else if difficulty <= 6 then DifficultyTexts[1]
    else if difficulty <= 8 then DifficultyTexts[2]
    else DifficultyTexts[3]
  }

  /** A harder deck never gets an easier text, and each text covers one contiguous range. */
  lemma DifficultyTextMonotone(d1: int, d2: int)
    requires d1 <= d2
    ensures DifficultyBand(d1) <= DifficultyBand(d2)
    ensures DifficultyText(d1) == DifficultyText(d2) ==> forall d :: d1 <= d <= d2 ==> DifficultyText(d) == DifficultyText(d1)
  {
  }

  /** The three-word label of the simple search view: up to 4, up to 7, above. */
  function SimpleDifficultyLabel(difficulty: int): (text: string)
    ensures text == "Fácil" <==> difficulty <= 4
    ensures text == "Moderado" <==> 4 < difficulty <= 7
    ensures text == "Difícil" <==> difficulty > 7
  {
    if difficulty <= 4 then "Fácil" else if difficulty <= 7 then "Moderado" else "Difícil"
  }

  /** Which rating `getGoingText` describes. */
  datatype GoingSide = First | Second

  /** The five texts for each side, for ratings 1 to 5. */
  function GoingTexts(which: GoingSide): (texts: seq<string>)
    ensures |texts| == 5
    ensures forall i :: 0 <= i < 5 ==> |texts[i]| > 20
  {
    match which
    case First => [
      "Juego pasivo esperando el turno del oponente",
      "Setup básico sin mucha presión",
      "Setup decente con algo de interacción",
      "Setup fuerte con interacción significativa",
      "Setup casi imbatible con múltiples interrupciones" ]
    case Second => [
      "Dificultad para romper tableros establecidos",
      "Capacidad limitada de respuesta",
      "Posibilidad de romper setups moderados",
      "Buen potencial para romper tableros",
      "Excelente capacidad de board breaking" ]
  }

  const StandardPerformance: string := "Performance estándar"

  /** `getGoingText`: the side's text for ratings 1 to 5, the standard text otherwise. */
  function GoingText(which: GoingSide, rating: int): (text: string)
    ensures 1 <= rating <= 5 ==> text == GoingTexts(which)[rating - 1]
    ensures !(1 <= rating <= 5) <==> text == StandardPerformance
  {
    assert |StandardPerformance| == 20;
    if 1 <= rating <= 5 then GoingTexts(which)[rating - 1] else StandardPerformance
  }

  /** The seven statistics `getStatDescription` describes, in order. */
  const StatNames: seq<string> := ["attack", "control", "consistency", "board_break", "versatility", "resilience", "recovery"]

  /** The three texts of each statistic, for a high, a medium and a low value. */
  const StatTexts: seq<seq<string>> := [
    ["Alta potencia de OTK", "Daño moderado", "Daño limitado"],
    ["Control total del campo", "Control moderado", "Control limitado"],
    ["Muy consistente", "Consistencia media", "Inconsistente"],
    ["Rompe fácilmente", "Rompe moderadamente", "Dificultad para romper"],
    ["Muy versátil", "Versatilidad media", "Poco versátil"],
    ["Muy resiliente", "Resiliencia media", "Poca resiliencia"],
    ["Recuperación excelente", "Recuperación decente", "Recuperación pobre"]
  ]

  /** The level of a statistic: 0 from 7 up, 1 from 4 up, 2 below. */
  function StatLevel(value: int): (level: nat)
    ensures level < 3
    ensures level == 0 <==> value >= 7
    ensures level == 2 <==> value < 4
  {
    if value >= 7 then 0 else if value >= 4 then 1 else 2
  }

  function IndexOfStat(stat: string): (k: nat)
    requires stat in StatNames
    ensures k < |StatNames| && StatNames[k] == stat
  {
    if stat == StatNames[0] then 0
    else if stat == StatNames[1] then 1
    else if stat == StatNames[2] then 2
    else if stat == StatNames[3] then 3
    else if stat == StatNames[4] then 4
    else if stat == StatNames[5] then 5
    else 6
  }

  /** `getStatDescription`: the statistic's text for the value's level, the standard text for an unknown statistic. */
  function StatDescription(stat: string, value: int): (text: string)
    ensures stat !in StatNames <==> text == StandardPerformance
    ensures stat in StatNames ==> text == StatTexts[IndexOfStat(stat)][StatLevel(value)]
  {
    if stat in StatNames then StatTexts[IndexOfStat(stat)][StatLevel(value)] else StandardPerformance
  }

  /** The star of `getRecommendation`. */
  const RecommendationStar: char := '\U{2B50}'

  /** The number of stars `getRecommendation` gives. */
  function RecommendationStars(tier: string, rating: real): (n: nat)
    ensures 1 <= n <= 5
    ensures n == 5 <==> tier == Tier1 && rating >= 4.0
    ensures n == 4 <==> (tier == Tier1 && rating < 4.0) || (tier == Tier2 && rating >= 3.5)
    ensures n == 3 <==> (tier == Tier2 && rating < 3.5) || tier == Rogue
    ensures n == 2 <==> tier !in [Tier1, Tier2, Rogue] && (tier == Fun || rating >= 3.0)
    ensures n == 1 <==> tier !in [Tier1, Tier2, Rogue, Fun] && rating < 3.0
  {
    if tier == Tier1 && rating >= 4.0 then 5
    else if tier == Tier1 || (tier == Tier2 && rating >= 3.5) then 4
    else if tier == Tier2 || tier == Rogue then 3
    else if rating >= 3.0 || tier == Fun then 2
    else 1
  }

  /** `getRecommendation`: one to five stars. */
  function Recommendation(tier: string, rating: real): (r: string)
    ensures 1 <= |r| <= 5 && r == Repeat(RecommendationStar, RecommendationStars(tier, rating))
  {
    Repeat(RecommendationStar, RecommendationStars(tier, rating))
  }

  /** A higher rating never lowers the recommendation. */
  lemma RecommendationMonotone(tier: string, r1: real, r2: real)
    requires r1 <= r2
    ensures RecommendationStars(tier, r1) <= RecommendationStars(tier, r2)
  {
  }

  /**
   * At any rating the tiers rank Tier 1, Tier 2, rogue, fun, Tier 3; an
   * unknown tier is treated like Tier 3.
   */
  lemma RecommendationTierOrder(rating: real, other: string)
    requires other !in AllTiers
    ensures RecommendationStars(Tier1, rating) >= RecommendationStars(Tier2, rating)
    ensures RecommendationStars(Tier2, rating) >= RecommendationStars(Rogue, rating)
    ensures RecommendationStars(Rogue, rating) >= RecommendationStars(Fun, rating)
    ensures RecommendationStars(Fun, rating) >= RecommendationStars(Tier3, rating)
    ensures RecommendationStars(other, rating) == RecommendationStars(Tier3, rating)
  {
  }
}
