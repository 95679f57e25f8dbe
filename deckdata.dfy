/**
 * The reference data the engine reads: the `decks` table (deck name to
 * record, in key order) and the `additional` overlay that may carry a
 * deck's going-first and going-second ratings. Both are global variables
 * in the application; here they are passed in as values.
 */
module DeckData {
  import opened Common

  /** One deck record: tier literal, archetype, difficulty and weaknesses. */
  datatype Deck = Deck(tier: string, deckType: string, difficulty: int, weaknesses: seq<string>)

  /** Going-first and going-second ratings. */
  datatype Going = Going(first: int, second: int)

  /** The part of an `additional` record the engine reads. */
  datatype Extra = Extra(going: Option<Going>)

  /** One `[name, deck]` pair of `Object.entries(decks)`. */
  datatype Entry = Entry(name: string, deck: Deck)

  type Additional = map<string, Extra>

  const Tier1: string := "Tier 1"
  const Tier2: string := "Tier 2"
  const Tier3: string := "Tier 3"
  const Rogue: string := "rogue"
  const Fun: string := "fun"

  /** `COMPETITIVE_TIERS`, the tiers the meta view analyses. */
  const CompetitiveTiers: seq<string> := [Tier1, Tier2, Tier3]

  /** `ALL_TIERS`. */
  const AllTiers: seq<string> := [Tier1, Tier2, Tier3, Rogue, Fun]

  /** The neutral ratings used when a deck has no `going` record. */
  const DefaultGoing: Going := Going(3, 3)

  /** `COMPETITIVE_TIERS.includes(tier)`. */
  predicate IsCompetitive(tier: string)
  {
    tier in CompetitiveTiers
  }

  /** Rogue and fun decks, the two casual tiers the matchup texts single out. */
  predicate IsCasual(tier: string)
  {
    tier == Rogue || tier == Fun
  }

  /**
   * `(additional[name] || {}).going || {first: 3, second: 3}`: the deck's
   * own ratings when it has them, the neutral 3/3 otherwise.
   */
  function GoingOf(additional: Additional, name: string): (g: Going)
    ensures name in additional && additional[name].going.Some? ==> g == additional[name].going.value
    ensures !(name in additional && additional[name].going.Some?) ==> g == DefaultGoing
  {
    if name in additional && additional[name].going.Some? then additional[name].going.value
    else DefaultGoing
  }

  /** `Object.keys(decks)`. */
  function Keys(decks: seq<Entry>): (r: seq<string>)
    ensures |r| == |decks| && forall i :: 0 <= i < |decks| ==> r[i] == decks[i].name
  {
    if decks == [] then [] else [decks[0].name] + Keys(decks[1..])
  }

  /** The keys of a JavaScript object are distinct. */
  predicate UniqueNames(decks: seq<Entry>)
  {
    forall i, j :: 0 <= i < j < |decks| ==> decks[i].name != decks[j].name
  }

  /**
   * `Object.entries(decks).filter(([name, deck]) =>
   * COMPETITIVE_TIERS.includes(deck.tier))`.
   */
  function Competitive(decks: seq<Entry>): (r: seq<Entry>)
    ensures |r| <= |decks|
    ensures forall i :: 0 <= i < |r| ==> IsCompetitive(r[i].deck.tier) && r[i] in decks
    ensures forall e :: e in decks && IsCompetitive(e.deck.tier) ==> e in r
  {
    if decks == [] then []
    else (if IsCompetitive(decks[0].deck.tier) then [decks[0]] else []) + Competitive(decks[1..])
  }
}
