/**
 * The deck-name search of js/search-autocomplete.js: a case-insensitive
 * substring match over the deck keys, at most ten suggestions, and no
 * search at all for a query shorter than two characters once trimmed.
 */
module Autocomplete {
  import opened Common
  import opened DeckData

  /** `deckName.toLowerCase().includes(query.toLowerCase())`. */
  predicate NameMatches(name: string, query: string)
  {
    Includes(Lower(name), Lower(query))
  }

  /** `a` is `b` with some elements deleted, the rest kept in order. */
  predicate Subsequence(a: seq<string>, b: seq<string>)
    decreases |b|
  {
    if a == [] then true
    else if b == [] then false
    else if a[0] == b[0] then Subsequence(a[1..], b[1..])
    else Subsequence(a, b[1..])
  }

  /**
   * The unsliced match list `Object.keys(decks).filter(...)`: exactly the
   * matching keys, in key order.
   */
  function MatchingNames(decks: seq<Entry>, query: string): (r: seq<string>)
    ensures |r| <= |decks|
    ensures forall n :: n in r <==> exists i :: 0 <= i < |decks| && decks[i].name == n && NameMatches(n, query)
    ensures Subsequence(r, Keys(decks))
  {
    if decks == [] then []
    else
      var rest := MatchingNames(decks[1..], query);
      assert forall n :: (exists i :: 0 <= i < |decks| && decks[i].name == n && NameMatches(n, query))
                     <==> (decks[0].name == n && NameMatches(n, query))
                          || (exists i :: 0 <= i < |decks[1..]| && decks[1..][i].name == n && NameMatches(n, query)) by {
        forall n, i | 0 <= i < |decks| && decks[i].name == n && NameMatches(n, query) && i > 0
          ensures decks[1..][i - 1].name == n {
        }
      }
      var r := (if NameMatches(decks[0].name, query) then [decks[0].name] else []) + rest;
      assert Subsequence(r, Keys(decks)) by {
        var keys := Keys(decks);
        assert keys[1..] == Keys(decks[1..]);
        if NameMatches(decks[0].name, query) {
          assert r != [] && keys != [] && r[0] == keys[0] && r[1..] == rest;
          assert Subsequence(r[1..], keys[1..]);
        } else {
          SubsequenceCons(rest, Keys(decks[1..]), decks[0].name);
          assert [decks[0].name] + Keys(decks[1..]) == keys;
          assert r == rest;
        }
      }
      r
  }

  lemma {:induction false} SubsequenceCons(a: seq<string>, b: seq<string>, x: string)
    requires Subsequence(a, b)
    ensures Subsequence(a, [x] + b)
    decreases |b|, 1
  {
    assert ([x] + b)[1..] == b;
    if a != [] && a[0] == x {
      SubsequenceTail(a, b);
    }
  }

  lemma {:induction false} SubsequenceTail(a: seq<string>, b: seq<string>)
    requires Subsequence(a, b) && a != []
    ensures Subsequence(a[1..], b)
    decreases |b|, 0
  {
    if a[0] == b[0] {
      SubsequenceCons(a[1..], b[1..], b[0]);
      assert [b[0]] + b[1..] == b;
    } else {
      SubsequenceTail(a, b[1..]);
      SubsequenceCons(a[1..], b[1..], b[0]);
      assert [b[0]] + b[1..] == b;
    }
  }

  lemma {:induction false} SubsequencePrefix(a: seq<string>, b: seq<string>, k: nat)
    requires Subsequence(a, b) && k <= |a|
    ensures Subsequence(a[..k], b)
    decreases |b|
  {
    if k > 0 && b != [] {
      if a[0] == b[0] {
        SubsequencePrefix(a[1..], b[1..], k - 1);
        assert a[..k][1..] == a[1..][..k - 1];
      } else {
        SubsequencePrefix(a, b[1..], k);
      }
    }
  }

  /** Every element of a subsequence is an element of the whole. */
  lemma {:induction false} SubsequenceIn(a: seq<string>, b: seq<string>)
    requires Subsequence(a, b)
    ensures forall x :: x in a ==> x in b
    decreases |b|
  {
    if a != [] {
      if a[0] == b[0] {
        SubsequenceIn(a[1..], b[1..]);
        assert forall x :: x in a ==> x == a[0] || x in a[1..];
      } else {
        SubsequenceIn(a, b[1..]);
      }
    }
  }

  /** A subsequence of a list without repeats has no repeats either. */
  lemma {:induction false} SubsequenceOfDistinct(a: seq<string>, b: seq<string>)
    requires Subsequence(a, b)
    requires forall i, j :: 0 <= i < j < |b| ==> b[i] != b[j]
    ensures forall i, j :: 0 <= i < j < |a| ==> a[i] != a[j]
    decreases |b|
  {
    if a != [] {
      if a[0] == b[0] {
        SubsequenceOfDistinct(a[1..], b[1..]);
        SubsequenceIn(a[1..], b[1..]);
        assert b[0] !in b[1..];
        forall i, j | 0 <= i < j < |a|
          ensures a[i] != a[j]
        {
          if i == 0 {
            assert a[j] == a[1..][j - 1];
          } else {
            assert a[i] == a[1..][i - 1] && a[j] == a[1..][j - 1];
          }
        }
      } else {
        SubsequenceOfDistinct(a, b[1..]);
      }
    }
  }

  /**
   * `searchDecks`: at most ten names; each is a deck key matching the
   * query; they come in key order; and when no more than ten keys match,
   * every match is among them (with more, exactly ten are returned).
   */
  function SearchDecks(decks: seq<Entry>, query: string): (r: seq<string>)
    ensures |r| <= 10
    ensures forall n :: n in r ==> n in Keys(decks) && NameMatches(n, query)
    ensures Subsequence(r, Keys(decks))
    ensures |r| <= |MatchingNames(decks, query)| && r == MatchingNames(decks, query)[..|r|]
    ensures |MatchingNames(decks, query)| <= 10 ==>
              forall i :: 0 <= i < |decks| && NameMatches(decks[i].name, query) ==> decks[i].name in r
    ensures |MatchingNames(decks, query)| > 10 ==> |r| == 10
  {
    var all := MatchingNames(decks, query);
    var r := if |all| <= 10 then all else all[..10];
    SubsequencePrefix(all, Keys(decks), |r|);
    assert r == all[..|r|];
    assert forall n :: n in r ==> n in all;
    r
  }

  /** The query's letter case does not matter: lower-casing it first gives the same suggestions. */
  lemma SearchIgnoresQueryCase(decks: seq<Entry>, query: string)
    ensures SearchDecks(decks, Lower(query)) == SearchDecks(decks, query)
  {
    MatchingIgnoresQueryCase(decks, query);
  }

  lemma {:induction false} MatchingIgnoresQueryCase(decks: seq<Entry>, query: string)
    ensures MatchingNames(decks, Lower(query)) == MatchingNames(decks, query)
  {
    LowerIdempotent(query);
    if decks != [] {
      MatchingIgnoresQueryCase(decks[1..], query);
    }
  }

  /** What the input handler leaves on screen: no dropdown, or one listing the suggestions. */
  datatype Dropdown = Hidden | Shown(results: seq<string>)

  /**
   * The `input` handler of `setupAutocomplete`: the raw input is trimmed;
   * below two characters the dropdown is hidden and no search runs,
   * otherwise the dropdown shows `searchDecks` of the trimmed text.
   */
  function OnInput(decks: seq<Entry>, raw: string): (d: Dropdown)
    ensures d.Hidden? <==> |Trim(raw)| < 2
    ensures d.Shown? ==> |d.results| <= 10 && forall n :: n in d.results ==> NameMatches(n, Trim(raw))
    ensures d.Shown? ==> d.results == SearchDecks(decks, Trim(raw))
  {
    var value := Trim(raw);
    if |value| < 2 then Hidden else Shown(SearchDecks(decks, value))
  }

  /** Blank space around a query does not change what is shown. */
  lemma OnInputIgnoresSurroundingSpace(decks: seq<Entry>, raw: string)
    ensures OnInput(decks, " " + raw + " ") == OnInput(decks, raw)
  {
    TrimPadded(raw);
  }

  lemma TrimPadded(raw: string)
    ensures Trim(" " + raw + " ") == Trim(raw)
  {
    var p := " " + raw + " ";
    assert TrimStart(p) == TrimStart(raw + " ") by {
      assert p[1..] == raw + " ";
    }
    TrimStartPadded(raw);
  }

  lemma {:induction false} TrimStartPadded(raw: string)
    ensures TrimEnd(TrimStart(raw + " ")) == TrimEnd(TrimStart(raw))
  {
    var p := raw + " ";
    if raw == [] {
      assert p[1..] == [];
      assert TrimStart(p) == TrimStart([]) == [];
    } else if IsJsSpace(raw[0]) {
      assert p[0] == raw[0] && p[1..] == raw[1..] + " ";
      assert TrimStart(p) == TrimStart(raw[1..] + " ");
      assert TrimStart(raw) == TrimStart(raw[1..]);
      TrimStartPadded(raw[1..]);
    } else {
      assert p[0] == raw[0];
      assert TrimStart(p) == p && TrimStart(raw) == raw;
      assert p[..|p| - 1] == raw;
      assert TrimEnd(p) == TrimEnd(raw);
    }
  }
}
