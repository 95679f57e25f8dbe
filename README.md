# Yu-Gi-Oh! deck analyser: scoring and meta-statistics engine in Dafny

This project models the computational core of a browser application that
presents a catalogue of Yu-Gi-Oh! decks. Each deck has a tier (`'Tier 1'`,
`'Tier 2'`, `'Tier 3'`, `'rogue'`, `'fun'`), an archetype, a difficulty
from 1 to 10 and a list of weaknesses. An optional overlay gives each deck
going-first and going-second ratings from 1 to 5.

The model covers these parts of the application:

- The composite deck score and the head-to-head verdict of the comparator,
  with its tactics and tips.
- The meta-analysis view: tier distribution, dominant tier, top five decks,
  type diversity, common weaknesses, performance by archetype and key
  matchups.
- The menu filters and the menu list.
- The deck-name search used by the autocomplete and by `findDeckByName`.
- The descriptive text bands.
- The star and percentage formatters.

The application keeps the `decks` and `additional` tables and the filter
state in global variables. Here they are parameters:

- `decks` is a sequence of `Entry(name, deck)` in key order. Several
  results depend on that order.
- `additional` is a map whose `going` field is optional. A missing field
  means the neutral 3/3 ratings.

`Math.round` is modelled as `floor(x + 1/2)` on exact reals. Where the
rounded quantity is a quotient of integers, it is proved equal to an
integer division (`Common.JsRoundQuotient`). The stable
`Array.prototype.sort` by descending score, followed by `slice(0, n)`, is a
stable insertion sort followed by a prefix (`Ranking.TopN`).

Modules:

- `Common`: rounding, ASCII lower-casing, `includes`, `trim`, `replace` and
  decimal rendering.
- `Ranking`: sort and top-n.
- `DeckData`: records and tier constants.
- `Scoring`: tier weight, composite score, simple-search card, verdict,
  tactics and tips.
- `MetaAnalysis`: the meta view.
- `Autocomplete`: `js/search-autocomplete.js`.
- `Browse`: filters, menu, `findDeckByName` and text bands.
- `DeckRenderer`: `js/deck-renderer.js`.

## Model

| member | source | states |
|---|---|---|
| DeckData.GoingOf | js/app.js:1223-1224 | a deck's own going ratings when its extra record has them, otherwise the neutral 3/3 |
| DeckData.Competitive | js/app.js:1079-1081 | keeps exactly the entries whose tier is in `COMPETITIVE_TIERS`, drawn from the input |
| Scoring.TierScore | js/app.js:493-502 | any string outside the five tier literals weighs 50 (capitalised `'Rogue'` included); every weight lies in 25..85 |
| Scoring.TierScoreStrictlyDecreasing | js/app.js:493-502 | along `ALL_TIERS` the weights fall by exactly 15 per step: 85, 70, 55, 40, 25 |
| Scoring.DeckScore | js/app.js:1580-1585 | `Math.round` of the real average equals the integer closed form `(2·tier + 2·(100−7·difficulty) + 15·(first+second) + 3) div 6` |
| Scoring.DeckScoreClosedForm | js/app.js:1580-1585 | the half-integer average rounds to that integer division by 6 |
| Scoring.DeckScoreExample | js/app.js:1580-1585 | Tier 1, difficulty 8, going 4/3 averages 60.5 and scores 61 |
| Scoring.DeckScoreRange | js/app.js:1580-1585 | on well-formed data (known tier, difficulty 1..10, ratings 1..5) every score is in 23..84 |
| Scoring.DeckScoreMonotone | js/app.js:1580-1585 | a heavier tier, a lower difficulty or higher ratings never lower the score |
| Scoring.ScoreLabel | js/app.js:385 | Excelente iff at least 80, Bueno iff 60 up to 80, Regular iff below 60 |
| Scoring.SimpleScoreCard | js/app.js:303-385 | the simple-search card as written: the shown number equals `calculateDeckScore`, while the band follows the unrounded `Math.round(sum)/3` |
| Scoring.SimpleDisplayedIsDeckScore | js/app.js:303-380 | rounding the sum and then its third gives exactly `calculateDeckScore` |
| Scoring.SimpleScoreCardMislabels | js/app.js:303-385 | Tier 1, difficulty 3, going 5/5 shows 80/100 but is labelled Bueno |
| Scoring.SimpleScoreCardCorrected | js/app.js:303-385 | the card as intended: it shows `calculateDeckScore`, and its band is decided by the number shown |
| Scoring.VerdictSide | js/app.js:2009-2029 | deck 1 favoured iff score1 > score2 + 10, deck 2 iff score2 > score1 + 10, otherwise even |
| Scoring.VerdictDeadZone | js/app.js:2009-2029 | even iff the gap is at most 10 either way; a gap of exactly 10 stays even |
| Scoring.VerdictMirror | js/app.js:2009-2029 | swapping the two decks mirrors the verdict |
| Scoring.AdvantageName | js/app.js:2009-2029 | the advantage string is the favoured deck's name, or `'even'` |
| Scoring.AdvantageNameMirror | js/app.js:2009-2029 | swapping the decks (scores and names) names the same favourite |
| Scoring.TacticsForMatchup | js/app.js:2055-2075 | each side's attack and defence advice is the rogue/fun text iff that side's tier is rogue or fun, and the default text otherwise; deck types are ignored |
| Scoring.TacticsPerSide | js/app.js:2055-2075 | each side's advice depends on its own tier only |
| Scoring.MatchupTips | js/app.js:2078-2103 | the list built is `TipsFor`: `'even'` gives the four generic tips; the first deck's name gives its three tips, plus a fourth iff deck 2 is rogue or fun, warning about deck 2's unusual strategies; anything else gives deck 2's three tips, plus a fourth iff deck 1 is rogue or fun, warning about deck 1's surprise factor |
| Scoring.ProfessionalDeckAdvantage | js/app.js:1992-2052 | both scores are `calculateDeckScore`; the side follows the 10-point dead zone (and so mirrors under a swap); advantage and tactics match the side; the tips are `TipsFor` of the advantage: three or four, the fourth present iff the other side is rogue or fun, and naming it |
| Ranking.SortDescFacts | js/app.js:1229 | the descending sort is non-increasing and a permutation of its input |
| Ranking.SortDescStable | js/app.js:1229 | entries with equal scores keep their relative input order |
| Ranking.TopN | js/app.js:1229 | min(n, length) entries; non-increasing; a sub-multiset of the input; nothing left out scores above anything kept; equal scores in input order |
| Ranking.TopNLeftOut | js/app.js:1229 | an entry missing from the top n means all n places are filled by entries scoring at least as much |
| MetaAnalysis.CalculateTierDistribution | js/app.js:1163-1177 | the keys are exactly Tier 1/2/3, each counting the entries of that tier; empty input gives all zeros |
| MetaAnalysis.TierCountsSum | js/app.js:1163-1177 | the three counts add up to the number of entries whose tier is competitive |
| MetaAnalysis.ReduceIndex | js/app.js:1126 | the reduce `a[1] > b[1] ? a : b` ends on a maximal count, and no later entry reaches it |
| MetaAnalysis.DominantTier | js/app.js:1125-1127 | the dominant tier has a maximal count; ties go to the later tier: Tier 1 iff strictly ahead of both, Tier 2 iff level with or ahead of Tier 1 and strictly ahead of Tier 3, Tier 3 iff level with or ahead of both |
| MetaAnalysis.ShortTierLabels | js/app.js:1127 | the header shortens the three tiers to T1, T2, T3 |
| MetaAnalysis.ScoredDecks | js/app.js:1222-1227 | one entry per input entry, in order, scored by `calculateDeckScore` with its going ratings |
| MetaAnalysis.TopDecks | js/app.js:1221-1230 | min(5, n) entries drawn from the scored input; scores non-increasing; none left out scores higher; ties in input order |
| MetaAnalysis.CountTypePositive | js/app.js:1112-1115 | a type's count is positive iff some entry has that type |
| MetaAnalysis.CountDeckTypes | js/app.js:1112-1115 | one key per distinct type, whose count is its number of entries (always positive) |
| MetaAnalysis.TypeDiversity | js/app.js:1116 | min(25 × distinct types, 100): 100 iff at least four types, a multiple of 25 |
| MetaAnalysis.TypeDiversityExamples | js/app.js:1112-1116 | no decks give 0, a single type gives 25, the four archetypes give 100 |
| MetaAnalysis.Distinct | js/app.js:1396-1403 | the keys of the counting object: exactly the weaknesses that occur, each once |
| MetaAnalysis.DistinctFirstOccurrenceOrder | js/app.js:1396-1403 | those keys come in the order in which each weakness first occurs |
| MetaAnalysis.Tally | js/app.js:1403-1404 | each listed weakness carries its number of occurrences (positive); exactly the weaknesses that occur are listed |
| MetaAnalysis.AnalyzeCommonWeaknesses | js/app.js:1395-1407 | the result is the top five of the tally: at most 5, counts non-increasing, each count the number of occurrences across all lists |
| MetaAnalysis.CountWeaknesses | js/app.js:1398-1400 | after one deck's list, the object counts every occurrence so far and its keys are in first-occurrence order |
| MetaAnalysis.CountedStep | js/app.js:1399 | one `(weaknesses[w] \|\| 0) + 1` keeps the counting object exact |
| MetaAnalysis.CountedEntries | js/app.js:1403-1404 | the object's entries in key order are the tally |
| MetaAnalysis.TopTallyCounts | js/app.js:1403-1406 | every weakness kept carries its true, positive count |
| MetaAnalysis.CommonWeaknessesAreTop | js/app.js:1403-1406 | a weakness left out is outnumbered: five were kept, each counting at least as much |
| MetaAnalysis.MeanOr50 | js/app.js:1451-1456 | `Math.round` of the mean is the nearest integer with halves up (an integer division); no decks give 50 |
| MetaAnalysis.MeanWithinBounds | js/app.js:1452-1453 | the rounded mean lies between bounds on its values |
| MetaAnalysis.CollectTypeScores | js/app.js:1432-1447 | keys are the four archetypes, each holding the scores of its decks in order; other types are dropped |
| MetaAnalysis.PerformanceKeysAreLower | js/app.js:1452 | `toLowerCase` of the four archetypes gives the result keys |
| MetaAnalysis.CalculatePerformanceByType | js/app.js:1431-1461 | keys are the four lower-cased archetypes, each mapped to the rounded mean score of that type, or 50 |
| MetaAnalysis.ScoresOfTypeBounds | js/app.js:1439-1447 | on well-formed data every collected score is in 23..84 |
| MetaAnalysis.PerformanceRange | js/app.js:1431-1461 | on well-formed data every reported performance is in 23..84 |
| MetaAnalysis.GenerateKeyMatchups | js/app.js:1272-1300 | empty iff fewer than 3 entries; otherwise pairs (1,2), (2,3), (1,3) of the first three keys, with the favourable conditions on tier and type |
| MetaAnalysis.KeyMatchupsDistinct | js/app.js:1276-1298 | with distinct names no matchup pits a deck against itself |
| MetaAnalysis.LoadMetaHeader | js/app.js:1077-1127 | header total = number of competitive decks; with none, '0%' and '-'; otherwise the diversity percentage and the shortened dominant tier |
| Autocomplete.MatchingNames | js/search-autocomplete.js:42-45 | exactly the keys whose lower-cased form contains the lower-cased query, in key order |
| Autocomplete.SearchDecks | js/search-autocomplete.js:42-47 | a prefix of the full match list of at most 10 names; each a matching key; in key order; every match is present when at most 10 match; exactly 10 otherwise |
| Autocomplete.SearchIgnoresQueryCase | js/search-autocomplete.js:43-45 | lower-casing the query first changes nothing |
| Autocomplete.MatchingIgnoresQueryCase | js/search-autocomplete.js:43-45 | the unsliced match list ignores the case of the query |
| Autocomplete.OnInput | js/search-autocomplete.js:24-34 | hidden iff the trimmed input is shorter than 2; otherwise shows `searchDecks` of the trimmed input |
| Autocomplete.OnInputIgnoresSurroundingSpace | js/search-autocomplete.js:26 | a space before and after the input does not change the dropdown |
| Browse.ApplyFilters | js/app.js:1613-1631 | exactly the keys whose deck passes both filters (exact tier for rogue/fun, containment of `'Tier ' + v` otherwise, exact type), as a subsequence of the keys: in key order, one entry per passing key |
| Browse.ApplyFiltersNoDuplicates | js/app.js:1613-1631 | with distinct keys the filtered list has no repeated name |
| Browse.ApplyFiltersAll | js/app.js:1613-1631 | both filters on 'all' keep every key in order |
| Browse.TierFilterIsExact | js/app.js:1617-1623 | on the tier literals, filters '1'/'2'/'3' select exactly that tier despite testing containment |
| Browse.MenuDeckNames | js/app.js:176-197 | the menu as written: `filteredDecks` when non-empty, else every key |
| Browse.MenuShowsEverythingWhenNothingMatches | js/app.js:176-197 | a Tier 1 deck is shown under the rogue filter, which it fails |
| Browse.MenuEmptyStateOnlyWithoutDecks | js/app.js:180-196 | as written the empty state appears only when there are no decks at all |
| Browse.MenuDeckNamesCorrected | js/app.js:176-197 | no filter applied shows every key; an applied filter shows its result, even when empty |
| Browse.MenuCorrectedShowsMatches | js/app.js:1609-1634 | corrected: shown iff passing the filters; empty state iff no deck passes |
| Browse.FindDeckByName | js/app.js:2106-2111 | the first key, in key order, whose lower-cased name contains the lower-cased input; none iff no key does |
| Browse.FindIsFirstSuggestion | js/app.js:2106-2111 | `findDeckByName` is the first element of the match list and of `searchDecks`, and undefined iff there are no matches |
| Browse.DifficultyBand | js/app.js:889-894 | band 0 iff difficulty ≤ 3, band 1 iff 4..6, band 2 iff 7..8, band 3 iff above 8 |
| Browse.DifficultyText | js/app.js:889-894 | the text of the difficulty's band |
| Browse.DifficultyTextMonotone | js/app.js:889-894 | a harder deck never gets an easier text; each text covers one contiguous range |
| Browse.SimpleDifficultyLabel | js/app.js:372 | Fácil iff ≤ 4, Moderado iff 5..7, Difícil iff above 7 |
| Browse.GoingText | js/app.js:896-915 | the side's text for ratings 1..5; the standard text iff the rating is outside 1..5 |
| Browse.StatLevel | js/app.js:917-929 | level 0 iff ≥ 7, level 2 iff below 4 |
| Browse.StatDescription | js/app.js:917-929 | the standard text iff the statistic is unknown; otherwise the statistic's text for the value's level |
| Browse.RecommendationStars | js/app.js:931-937 | 5 stars iff Tier 1 with rating at least 4; 4 iff Tier 1 below 4 or Tier 2 at 3.5 or more; 3 iff Tier 2 below 3.5 or rogue; 2 iff any other tier that is fun or rated at least 3; 1 otherwise |
| Browse.Recommendation | js/app.js:931-937 | that many star characters |
| Browse.RecommendationMonotone | js/app.js:931-937 | a higher rating never lowers the recommendation |
| Browse.RecommendationTierOrder | js/app.js:931-937 | at any rating: Tier 1 ≥ Tier 2 ≥ rogue ≥ fun ≥ Tier 3, and unknown tiers rank like Tier 3 |
| DeckRenderer.CreateStars | js/deck-renderer.js:11-15 | exactly `max` characters: position i is full iff i < floor(rating), empty otherwise |
| DeckRenderer.CreateStarsDefaultExample | js/deck-renderer.js:11-14 | with the default max 5, rating 3.7 gives three full and two empty stars |
| DeckRenderer.CreateStarsMonotone | js/deck-renderer.js:12-14 | a higher rating fills every star a lower one fills |
| DeckRenderer.FormatPercentage | js/deck-renderer.js:17-19 | "0%" for a total of 0 or less; otherwise the nearest integer to 100·value/total (halves up), then "%" |
| Common.JsRoundQuotient | js/deck-renderer.js:18-19 | `Math.round` of an exact quotient equals the integer `RoundDiv` |
| DeckRenderer.FormatPercentageEnds | js/deck-renderer.js:17-19 | value = total gives "100%", value 0 gives "0%" |
| DeckRenderer.PercentageBounds | js/deck-renderer.js:17-19 | a part between none and all of a positive total rounds into 0..100 |
| Common.IncludesIff | js/search-autocomplete.js:45 | `includes` holds iff the query occurs as a contiguous slice |
| Common.Trim | js/search-autocomplete.js:26 | `trim` leaves a slice; everything removed is white space, and the slice neither starts nor ends with it |
| Common.ReplaceFirst | js/app.js:1127 | without an occurrence of the pattern, `replace` returns the string unchanged; with one, exactly the first occurrence is replaced |
| Common.ParseNatToDecimal | js/app.js:1117 | the decimal rendering of a number reads back as that number |
| Common.IntToStringInjective | js/app.js:1117 | different numbers never render alike |

## Findings

| source | as written | input that shows it | evidently intended | confidence | as-written member | corrected member |
|---|---|---|---|---|---|---|
| js/app.js:176-197 | `filteredDecks.length > 0 ? filteredDecks : Object.keys(decks)` cannot tell "no filter yet" from "filter matched nothing" | a single Tier 1 deck with the tier filter on `rogue`: the menu shows that deck, and the empty-state message is unreachable unless the catalogue is empty | when the filters match nothing, show no deck and the "No se encontraron decks" message | medium, not executed | Browse.MenuShowsEverythingWhenNothingMatches | Browse.MenuCorrectedShowsMatches |
| js/app.js:303-385 | `visualScore = Math.round(sum) / 3`; the card shows `Math.round(visualScore)` but bands the unrounded `visualScore` | Tier 1, difficulty 3, going 5/5: sum 239, `visualScore` 79.67, shown as 80/100 and labelled Bueno | `Math.round(sum / 3)`, as `calculateDeckScore` and the comparator card (js/app.js:1705) compute it, shown and banded alike (80 is Excelente) | medium, not executed | Scoring.SimpleScoreCardMislabels | Scoring.SimpleScoreCardCorrected |

## Left out

- HTML templates, `innerHTML` writes, event listeners, `setTimeout` animations and the blur handler of the autocomplete are not modelled. The model computes what these display.
- `js/data-loader.js` (fetch, JSON loading, fallback data) and `js/theme-manager.js` (localStorage, theme attribute) are not part of this model.
- `getSimpleRecommendation` is left out. It compares floating-point products against thresholds, so its boundaries depend on IEEE rounding.
- The `toFixed` averages (average difficulty in the meta header and elsewhere), pie-chart percentages, bar widths and `createStatBar` are left out. They are floating-point display arithmetic.
- The `localeCompare` sort of `loadMetaTable` is left out, because it is locale-dependent.
- Arithmetic is exact; IEEE doubles are not modelled. `Scoring.DeckScore` and `MetaAnalysis.MeanOr50` assume that `Math.round` of the double quotient equals that of the exact one for the small integers the data holds. `DeckRenderer.FormatPercentage` does not match the source on every input; see its own line.
- DeckRenderer.FormatPercentage: the model rounds the exact quotient 100·value/total. The source rounds the binary64 product `(value / total) * 100`, which can fall just below a half. For 23 of 40 that product is 57.49999999999999, so the source shows "57%" where the model gives "58%". Likewise 57 of 200 shows "28%" where the model gives "29%".
- Lower-casing is ASCII only, and string lengths count code points rather than UTF-16 units. Deck names outside that range may behave differently.
- JavaScript objects list integer-like keys (such as a weakness named `"2"`) before the others. Keys inherited from `Object.prototype` (such as `constructor`) are also ignored. The counting objects are modelled as insertion-ordered maps, so neither effect is captured.
- MetaAnalysis.AnalyzeCommonWeaknesses: a deck without a `weaknesses` field (skipped by `?.`) is represented by an empty list.
- DeckRenderer.CreateStars: a rating whose floor is negative or above `max` makes `repeat` throw. This is a precondition here, not an error result.
- Scoring.MatchupTips: the advantage is compared as a string, so a deck literally named `even` collides with the even sentinel. The collision is kept as written: `Scoring.TipsFor` gives such a favourite the four generic tips.
- MetaAnalysis.GenerateKeyMatchups: it pairs the first three competitive keys, not the three best scores, despite the source comment about choosing the best decks. This is kept as written.
- The text fields of `getProfessionalDeckAdvantage` that only decorate the verdict (`advantageText`, `reason`, `vsText`, icons, summaries) are left out.
- `Browse.GoingText` takes its side as a two-valued datatype. The source indexes its table with the strings `'first'` and `'second'`, and any other string would throw.
