/**
 * Deck scoring and the head-to-head verdict of the comparator view:
 * `getTierScore`, `calculateDeckScore`, the simple-search score,
 * `getProfessionalDeckAdvantage`, `getTacticsForMatchup` and
 * `getMatchupTips` (js/app.js).
 */
module Scoring {
  import opened Common
  import opened DeckData

  // ---------------------------------------------------------------------
  // Tier weight
  // ---------------------------------------------------------------------

  /**
   * `getTierScore`: the five tier literals weigh 85, 70, 55, 40 and 25;
   * any other string, `'Rogue'` with a capital among them, weighs 50.
   */
  function TierScore(tier: string): (r: int)
    ensures tier !in AllTiers <==> r == 50
    ensures 25 <= r <= 85 && r % 15 == 10 - (if tier in AllTiers then 0 else 5)
  {
    match tier
    case "Tier 1" => 85
    case "Tier 2" => 70
    case "Tier 3" => 55
    case "rogue" => 40
    case "fun" => 25
    case _ => 50
  }

  /** Along `ALL_TIERS` the weight falls strictly, by 15 per step. */
  lemma TierScoreStrictlyDecreasing(i: int, j: int)
    requires 0 <= i < j < |AllTiers|
    ensures TierScore(AllTiers[i]) == TierScore(AllTiers[j]) + 15 * (j - i)
  {
  }

  // ---------------------------------------------------------------------
  // Composite deck score
  // ---------------------------------------------------------------------

  /** `100 - (deck.difficulty * 7)`. */
  function DifficultyScore(difficulty: int): int
  {
    100 - difficulty * 7
  }

  /**
   * The average `calculateDeckScore` rounds, as the real number JavaScript
   * computes: `(tierScore + difficultyScore + ((first + second) / 2) * 15) / 3`.
   */
  function RawDeckScore(deck: Deck, going: Going): real
  {
    (TierScore(deck.tier) as real + DifficultyScore(deck.difficulty) as real
      + ((going.first + going.second) as real / 2.0) * 15.0) / 3.0
  }

  /** `calculateDeckScore(deck, going)`: `Math.round` of the average. */
  function DeckScore(deck: Deck, going: Going): (r: int)
    ensures r == (2 * TierScore(deck.tier) + 2 * DifficultyScore(deck.difficulty)
                  + 15 * (going.first + going.second) + 3) / 6
  {
    DeckScoreClosedForm(deck, going);
    JsRound(RawDeckScore(deck, going))
  }

  /** `Math.round` of the average is an integer division by 6. */
  lemma DeckScoreClosedForm(deck: Deck, going: Going)
    ensures JsRound(RawDeckScore(deck, going))
         == (2 * TierScore(deck.tier) + 2 * DifficultyScore(deck.difficulty)
             + 15 * (going.first + going.second) + 3) / 6
  {
    var m := 2 * TierScore(deck.tier) + 2 * DifficultyScore(deck.difficulty)
             + 15 * (going.first + going.second) + 3;
    assert RawDeckScore(deck, going) + 0.5 == m as real / 6.0;
    FloorDiv6(m);
  }

  lemma FloorDiv6(m: int)
    ensures (m as real / 6.0).Floor == m / 6
  {
    var q, k := m / 6, m % 6;
    assert m == 6 * q + k && 0 <= k < 6;
    assert m as real / 6.0 == q as real + k as real / 6.0;
  }

  /** The worked example: Tier 1, difficulty 8, going 4/3 averages 60.5 and scores 61. */
  lemma DeckScoreExample()
    ensures RawDeckScore(Deck(Tier1, "Combo", 8, []), Going(4, 3)) == 60.5
    ensures DeckScore(Deck(Tier1, "Combo", 8, []), Going(4, 3)) == 61
  {
  }

  /** Ratings, difficulty and tier inside the ranges the data uses. */
  predicate WellFormed(deck: Deck, going: Going)
  {
    && deck.tier in AllTiers
    && 1 <= deck.difficulty <= 10
    && 1 <= going.first <= 5 && 1 <= going.second <= 5
  }

  /** On well-formed data every composite score lies in 23..84. */
  lemma DeckScoreRange(deck: Deck, going: Going)
    requires WellFormed(deck, going)
    ensures 23 <= DeckScore(deck, going) <= 84
  {
  }

  /**
   * A heavier tier, a lower difficulty and higher ratings never lower the
   * score.
   */
  lemma DeckScoreMonotone(d1: Deck, g1: Going, d2: Deck, g2: Going)
    requires TierScore(d1.tier) <= TierScore(d2.tier)
    requires d1.difficulty >= d2.difficulty
    requires g1.first + g1.second <= g2.first + g2.second
    ensures DeckScore(d1, g1) <= DeckScore(d2, g2)
  {
    var m1 := 2 * TierScore(d1.tier) + 2 * DifficultyScore(d1.difficulty) + 15 * (g1.first + g1.second) + 3;
    var m2 := 2 * TierScore(d2.tier) + 2 * DifficultyScore(d2.difficulty) + 15 * (g2.first + g2.second) + 3;
    assert m1 <= m2;
    DivMonotone(m1, m2, 6);
  }

  lemma DivMonotone(a: int, b: int, d: int)
    requires a <= b && d > 0
    ensures a / d <= b / d
  {
    var qa, qb := a / d, b / d;
    assert d * qa <= a && b < d * qb + d;
    if qa > qb {
      MulMonotone(d, qb + 1, qa);
    }
  }

  // ---------------------------------------------------------------------
  // The simple-search score card
  // ---------------------------------------------------------------------

  /** What the simple-search score card shows. */
  datatype ScoreCard = ScoreCard(visual: real, displayed: int, band: string)

  /** The bands of the score card: `>= 80` Excelente, `>= 60` Bueno, else Regular. */
  function ScoreLabel(x: real): (band: string)
    ensures band == "Excelente" <==> x >= 80.0
    ensures band == "Bueno" <==> 60.0 <= x < 80.0
    ensures band == "Regular" <==> x < 60.0
  {
    if x >= 80.0 then "Excelente" else if x >= 60.0 then "Bueno" else "Regular"
  }

  /**
   * The simple-search view as written: `visualScore` is
   * `Math.round(sum) / 3`, a different formula from `calculateDeckScore`;
   * the card shows `Math.round(visualScore)` and labels `visualScore`
   * itself. The number shown always equals `calculateDeckScore`, but the
   * band and the bar follow the unrounded value.
   */
  function SimpleScoreCard(deck: Deck, going: Going): (card: ScoreCard)
    ensures card.displayed == DeckScore(deck, going)
    ensures card.visual == JsRound(3.0 * RawDeckScore(deck, going)) as real / 3.0
    ensures card.band == ScoreLabel(card.visual)
  {
    var sum := ((going.first + going.second) as real / 2.0) * 15.0
               + TierScore(deck.tier) as real + DifficultyScore(deck.difficulty) as real;
    var visual := JsRound(sum) as real / 3.0;
    assert sum == 3.0 * RawDeckScore(deck, going);
    SimpleDisplayedIsDeckScore(deck, going);
    ScoreCard(visual, JsRound(visual), ScoreLabel(visual))
  }

  /** Rounding the sum first and the third again gives `calculateDeckScore`. */
  lemma SimpleDisplayedIsDeckScore(deck: Deck, going: Going)
    ensures JsRound(JsRound(3.0 * RawDeckScore(deck, going)) as real / 3.0) == DeckScore(deck, going)
  {
    var m := 2 * TierScore(deck.tier) + 2 * DifficultyScore(deck.difficulty)
             + 15 * (going.first + going.second);
    var sum := 3.0 * RawDeckScore(deck, going);
    assert sum == m as real / 2.0;
    var r := JsRound(sum);
    assert r == (m + 1) / 2 by {
      assert sum + 0.5 == (m + 1) as real / 2.0;
      FloorDiv2(m + 1);
    }
    assert JsRound(r as real / 3.0) == (2 * r + 3) / 6 by {
      assert r as real / 3.0 + 0.5 == (2 * r + 3) as real / 6.0;
      FloorDiv6(2 * r + 3);
    }
    HalfThenThird(m);
  }

  /** Halving with rounding and then taking a rounded third is one rounded sixth. */
  lemma HalfThenThird(m: int)
    ensures (2 * ((m + 1) / 2) + 3) / 6 == (m + 3) / 6
  {
    var q, k := (m + 3) / 6, (m + 3) % 6;
    assert m == 6 * q + k - 3 && 0 <= k < 6;
    var h := (m + 1) / 2;
    if k <= 1 {
      assert m + 1 == 2 * (3 * q - 1) + k;
      assert h == 3 * q - 1;
      assert 2 * h + 3 == 6 * q + 1;
    } else if k <= 3 {
      assert m + 1 == 2 * (3 * q) + (k - 2);
      assert h == 3 * q;
      assert 2 * h + 3 == 6 * q + 3;
    } else {
      assert m + 1 == 2 * (3 * q + 1) + (k - 4);
      assert h == 3 * q + 1;
      assert 2 * h + 3 == 6 * q + 5;
    }
  }

  lemma FloorDiv2(m: int)
    ensures (m as real / 2.0).Floor == m / 2
  {
    var q, k := m / 2, m % 2;
    assert m == 2 * q + k && 0 <= k < 2;
    assert m as real / 2.0 == q as real + k as real / 2.0;
  }

  /**
   * The band can disagree with the number shown: Tier 1, difficulty 3,
   * going 5/5 sums to 239, `visualScore` is 79.67, the card shows 80/100
   * and labels it "Bueno".
   */
  lemma SimpleScoreCardMislabels()
    ensures var card := SimpleScoreCard(Deck(Tier1, "Combo", 3, []), Going(5, 5));
            card.displayed == 80 && card.band == "Bueno"
  {
    var deck, going := Deck(Tier1, "Combo", 3, []), Going(5, 5);
    assert 3.0 * RawDeckScore(deck, going) == 239.0;
    assert JsRound(239.0) == 239;
  }

  /**
   * The score card as evidently intended: `Math.round(sum / 3)`, which is
   * `calculateDeckScore`, shown and labelled alike.
   */
  function SimpleScoreCardCorrected(deck: Deck, going: Going): (card: ScoreCard)
    ensures card.displayed == DeckScore(deck, going)
    ensures card.band == "Excelente" <==> card.displayed >= 80
    ensures card.band == "Bueno" <==> 60 <= card.displayed < 80
    ensures card.band == "Regular" <==> card.displayed < 60
  {
    var score := DeckScore(deck, going);
    ScoreCard(score as real, score, ScoreLabel(score as real))
  }

  // ---------------------------------------------------------------------
  // Head-to-head verdict
  // ---------------------------------------------------------------------

  /** Which deck the comparator favours (`vsClass` summary-deck1 / summary-deck2 / summary-even). */
  datatype Side = Deck1 | Deck2 | Even

  function Mirror(s: Side): Side
  {
    match s
    case Deck1 => Deck2
    case Deck2 => Deck1
    case Even => Even
  }

  /**
   * The verdict rule of `getProfessionalDeckAdvantage`: a deck is favoured
   * only when its score beats the other's by more than 10.
   */
  function VerdictSide(score1: int, score2: int): (s: Side)
    ensures s == Deck1 <==> score1 > score2 + 10
    ensures s == Deck2 <==> score2 > score1 + 10
  {
    if score1 > score2 + 10 then Deck1 else if score2 > score1 + 10 then Deck2 else Even
  }

  /** A gap of at most 10, in either direction, is even; a gap of exactly 10 too. */
  lemma VerdictDeadZone(score1: int, score2: int)
    ensures VerdictSide(score1, score2) == Even <==> -10 <= score1 - score2 <= 10
    ensures VerdictSide(score2 + 10, score2) == Even
  {
  }

  /** Swapping the two decks mirrors the verdict. */
  lemma VerdictMirror(score1: int, score2: int)
    ensures VerdictSide(score2, score1) == Mirror(VerdictSide(score1, score2))
  {
  }

  /** The `advantage` string: the favoured deck's name, or `'even'`. */
  function AdvantageName(side: Side, deck1Name: string, deck2Name: string): (a: string)
    ensures side == Deck1 ==> a == deck1Name
    ensures side == Deck2 ==> a == deck2Name
    ensures side == Even ==> a == "even"
  {
    match side
    case Deck1 => deck1Name
    case Deck2 => deck2Name
    case Even => "even"
  }

  /** Swapping the decks names the same favourite. */
  lemma AdvantageNameMirror(score1: int, score2: int, name1: string, name2: string)
    ensures AdvantageName(VerdictSide(score2, score1), name2, name1)
         == AdvantageName(VerdictSide(score1, score2), name1, name2)
  {
  }

  // ---------------------------------------------------------------------
  // Tactics and tips
  // ---------------------------------------------------------------------

  datatype Tactics = Tactics(deck1: string, deck1Defense: string, deck2: string, deck2Defense: string)

  /**
   * `getTacticsForMatchup`: the default advice, with each side's advice
   * replaced when that side is a rogue or fun deck. The deck types are
   * not consulted.
   */
  function TacticsForMatchup(type1: string, type2: string, tier1: string, tier2: string): (t: Tactics)
    ensures IsCasual(tier1) <==> t.deck1 == "Usa el factor sorpresa"
    ensures IsCasual(tier1) <==> t.deck1Defense == "Juega alrededor del meta conocido"
    ensures IsCasual(tier2) <==> t.deck2 == "No subestimes al oponente"
    ensures IsCasual(tier2) <==> t.deck2Defense == "Prepárate para estrategias inusuales"
    ensures !IsCasual(tier1) ==> t.deck1 == "Aplica presión constante"
                                 && t.deck1Defense == "Mantén recursos para el largo juego"
    ensures !IsCasual(tier2) ==> t.deck2 == "Busca la ventaja temprana"
                                 && t.deck2Defense == "Protege tus piezas clave"
  {
    var t := Tactics("Aplica presión constante", "Mantén recursos para el largo juego",
                     "Busca la ventaja temprana", "Protege tus piezas clave");
    var t := if IsCasual(tier1)
             then t.(deck1 := "Usa el factor sorpresa", deck1Defense := "Juega alrededor del meta conocido")
             else t;
    if IsCasual(tier2)
    then t.(deck2 := "No subestimes al oponente", deck2Defense := "Prepárate para estrategias inusuales")
    else t
  }

  /** Each side's advice depends on its own tier only. */
  lemma TacticsPerSide(typeA: string, typeB: string, typeC: string, typeD: string,
                       tier1: string, tier2: string, tier3: string)
    ensures TacticsForMatchup(typeA, typeB, tier1, tier2).deck1 == TacticsForMatchup(typeC, typeD, tier1, tier3).deck1
    ensures TacticsForMatchup(typeA, typeB, tier2, tier1).deck2 == TacticsForMatchup(typeC, typeD, tier3, tier1).deck2
  {
  }

  const EvenTips: seq<string> := [
    "El side deck será determinante en este matchup",
    "Prioriza consistencia sobre potencia",
    "Analiza el estilo de juego de tu oponente",
    "No subestimes las cartas de tech"
  ]

  function Deck1Tips(deck1Name: string, deck2Name: string): seq<string>
  {
    [ "Como " + deck1Name + ", mantén la presión constante",
      "Evita overextending contra posibles board breakers",
      "Sideckea específicamente contra " + deck2Name ]
  }

  function Deck2Tips(deck2Name: string): seq<string>
  {
    [ "Como " + deck2Name + ", busca romper su setup inicial",
      "Juega conservador hasta tener ventaja de cartas",
      "Identifica y ataca sus puntos débiles" ]
  }

  /** The warning added for the favoured first deck when the second is a rogue or fun deck. */
  function UnusualTip(deck2Name: string): string
  {
    "Prepárate para estrategias inusuales de " + deck2Name
  }

  /** The warning added for the favoured second deck when the first is a rogue or fun deck. */
  function SurpriseTip(deck1Name: string): string
  {
    "No subestimes el factor sorpresa de " + deck1Name
  }

  /** The tip list `getMatchupTips` builds, as one value. */
  function TipsFor(deck1Name: string, deck2Name: string, advantage: string, tier1: string, tier2: string): seq<string>
  {
    if advantage == "even" then EvenTips
    else if advantage == deck1Name then
      Deck1Tips(deck1Name, deck2Name) + (if IsCasual(tier2) then [UnusualTip(deck2Name)] else [])
    else
      Deck2Tips(deck2Name) + (if IsCasual(tier1) then [SurpriseTip(deck1Name)] else [])
  }

  /**
   * `getMatchupTips`: four generic tips for an even matchup; otherwise
   * three tips for the favoured side, plus a warning about the underdog
   * when it is a rogue or fun deck. The advantage is compared as a string,
   * first with `'even'`, then with the first deck's name.
   */
  method MatchupTips(deck1Name: string, deck2Name: string, advantage: string, tier1: string, tier2: string)
    returns (tips: seq<string>)
    ensures tips == TipsFor(deck1Name, deck2Name, advantage, tier1, tier2)
    ensures advantage == "even" ==> tips == EvenTips
    ensures advantage != "even" && advantage == deck1Name
            ==> 3 <= |tips| <= 4 && tips[..3] == Deck1Tips(deck1Name, deck2Name)
                && (|tips| == 4 <==> IsCasual(tier2))
                && (|tips| == 4 ==> tips[3] == UnusualTip(deck2Name))
    ensures advantage != "even" && advantage != deck1Name
            ==> 3 <= |tips| <= 4 && tips[..3] == Deck2Tips(deck2Name)
                && (|tips| == 4 <==> IsCasual(tier1))
                && (|tips| == 4 ==> tips[3] == SurpriseTip(deck1Name))
  {
    tips := [];
    if advantage == "even" {
      tips := tips + ["El side deck será determinante en este matchup"];
      tips := tips + ["Prioriza consistencia sobre potencia"];
      tips := tips + ["Analiza el estilo de juego de tu oponente"];
      tips := tips + ["No subestimes las cartas de tech"];
      assert tips == EvenTips;
    } else if advantage == deck1Name {
      tips := tips + ["Como " + deck1Name + ", mantén la presión constante"];
      tips := tips + ["Evita overextending contra posibles board breakers"];
      tips := tips + ["Sideckea específicamente contra " + deck2Name];
      assert tips == Deck1Tips(deck1Name, deck2Name);
      if tier2 == Rogue || tier2 == Fun {
        ghost var base := tips;
        tips := tips + ["Prepárate para estrategias inusuales de " + deck2Name];
        assert tips[..3] == base;
      }
    } else {
      tips := tips + ["Como " + deck2Name + ", busca romper su setup inicial"];
      tips := tips + ["Juega conservador hasta tener ventaja de cartas"];
      tips := tips + ["Identifica y ataca sus puntos débiles"];
      assert tips == Deck2Tips(deck2Name);
      if tier1 == Rogue || tier1 == Fun {
        ghost var base := tips;
        tips := tips + ["No subestimes el factor sorpresa de " + deck1Name];
        assert tips[..3] == base;
      }
    }
  }

  /** The fields of `getProfessionalDeckAdvantage`'s result the engine decides. */
  datatype Advantage = Advantage(
    advantage: string,
    side: Side,
    deck1Score: int,
    deck2Score: int,
    tactics: Tactics,
    tips: seq<string>)

  /**
   * `getProfessionalDeckAdvantage`: both composite scores, the verdict
   * with its 10-point dead zone, the advantage string, tactics and tips.
   */
  method ProfessionalDeckAdvantage(deck1Name: string, deck2Name: string, deck1: Deck, deck2: Deck,
                                   going1: Going, going2: Going)
    returns (a: Advantage)
    ensures a.deck1Score == DeckScore(deck1, going1) && a.deck2Score == DeckScore(deck2, going2)
    ensures a.side == Deck1 <==> a.deck1Score > a.deck2Score + 10
    ensures a.side == Deck2 <==> a.deck2Score > a.deck1Score + 10
    ensures a.side == VerdictSide(a.deck1Score, a.deck2Score)
    ensures a.advantage == AdvantageName(a.side, deck1Name, deck2Name)
    ensures a.tactics == TacticsForMatchup(deck1.deckType, deck2.deckType, deck1.tier, deck2.tier)
    ensures a.tips == TipsFor(deck1Name, deck2Name, a.advantage, deck1.tier, deck2.tier)
    ensures a.side == Even ==> a.tips == EvenTips
    ensures a.side == Deck1 && deck1Name != "even"
            ==> 3 <= |a.tips| <= 4 && a.tips[..3] == Deck1Tips(deck1Name, deck2Name)
                && (|a.tips| == 4 <==> IsCasual(deck2.tier))
                && (|a.tips| == 4 ==> a.tips[3] == UnusualTip(deck2Name))
    ensures a.side == Deck2 && deck2Name != "even" && deck2Name != deck1Name
            ==> 3 <= |a.tips| <= 4 && a.tips[..3] == Deck2Tips(deck2Name)
                && (|a.tips| == 4 <==> IsCasual(deck1.tier))
                && (|a.tips| == 4 ==> a.tips[3] == SurpriseTip(deck1Name))
  {
    var score1 := DeckScore(deck1, going1);
    var score2 := DeckScore(deck2, going2);
    var advantage := "even";
    var side := Even;
    if score1 > score2 + 10 {
      advantage := deck1Name;
      side := Deck1;
    } else if score2 > score1 + 10 {
      advantage := deck2Name;
      side := Deck2;
    }
    assert side == VerdictSide(score1, score2) && advantage == AdvantageName(side, deck1Name, deck2Name);
    var tactics := TacticsForMatchup(deck1.deckType, deck2.deckType, deck1.tier, deck2.tier);
    var tips := MatchupTips(deck1Name, deck2Name, advantage, deck1.tier, deck2.tier);
    a := Advantage(advantage, side, score1, score2, tactics, tips);
  }
}
