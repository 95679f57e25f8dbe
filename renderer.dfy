/**
 * The two formatting helpers of js/deck-renderer.js: a row of full and
 * empty stars for a rating, and a rounded percentage.
 */
module DeckRenderer {
  import opened Common

  const FullStar: char := '\U{2605}'
  const EmptyStar: char := '\U{2606}'

  /** The `max` parameter's default. */
  const DefaultMaxStars: int := 5

  /**
   * `createStars(rating, max)`: `Math.floor(rating)` full stars, then
   * `max - Math.floor(rating)` empty ones. Outside `0 <= floor(rating) <=
   * max` one of the two `repeat` counts is negative and the call throws,
   * which the precondition rules out.
   */
  function CreateStars(rating: real, max: int): (stars: string)
    requires 0 <= rating.Floor <= max
    ensures |stars| == max
    ensures forall i :: 0 <= i < |stars| ==> (stars[i] == FullStar <==> i < rating.Floor)
    ensures forall i :: 0 <= i < |stars| ==> (stars[i] == EmptyStar <==> i >= rating.Floor)
  {
    var fullStars := rating.Floor;
    var emptyStars := max - fullStars;
    Repeat(FullStar, fullStars) + Repeat(EmptyStar, emptyStars)
  }

  /** With the default of five, a rating of 3.7 shows three full and two empty stars. */
  lemma CreateStarsDefaultExample()
    ensures CreateStars(3.7, DefaultMaxStars) == [FullStar, FullStar, FullStar, EmptyStar, EmptyStar]
  {
    assert (3.7).Floor == 3;
    var s := CreateStars(3.7, DefaultMaxStars);
    assert s[0] == FullStar && s[1] == FullStar && s[2] == FullStar;
    assert s[3] == EmptyStar && s[4] == EmptyStar;
  }

  /** A higher rating fills every star a lower one fills. */
  lemma CreateStarsMonotone(r1: real, r2: real, max: int, i: int)
    requires 0 <= r1.Floor && r2.Floor <= max && r1 <= r2 && 0 <= i < max
    requires CreateStars(r1, max)[i] == FullStar
    ensures CreateStars(r2, max)[i] == FullStar
  {
    FloorMonotone(r1, r2);
  }

  lemma FloorMonotone(x: real, y: real)
    requires x <= y
    ensures x.Floor <= y.Floor
  {
  }

  /**
   * `formatPercentage(value, total)`: `Math.round` of `value / total * 100`
   * followed by `%`, or `"0%"` for a total of zero or less.
   */
  function FormatPercentage(value: int, total: int): (r: string)
    ensures total <= 0 ==> r == "0%"
    ensures total > 0 ==> r == IntToString(RoundDiv(100 * value, total)) + "%"
  {
    var percentage := if total > 0 then (value as real / total as real) * 100.0 else 0.0;
    assert total > 0 ==> JsRound(percentage) == RoundDiv(100 * value, total) by {
      if total > 0 {
        assert percentage == (100 * value) as real / total as real;
        JsRoundQuotient(100 * value, total);
      }
    }
    IntToString(JsRound(percentage)) + "%"
  }

  /** A whole of a total is `"100%"`, none of it `"0%"`. */
  lemma FormatPercentageEnds(total: int)
    requires total > 0
    ensures FormatPercentage(total, total) == "100%"
    ensures FormatPercentage(0, total) == "0%"
  {
    assert RoundDiv(100 * total, total) == 100 by {
      assert 2 * total * 100 - total <= 2 * (100 * total) < 2 * total * 100 + total;
      RoundDivUnique(100 * total, total, 100);
    }
    assert RoundDiv(0, total) == 0 by {
      RoundDivUnique(0, total, 0);
    }
    assert IntToString(100) == "100" by {
      assert NatToDecimal(10) == "10";
    }
  }

  /** Any `n` meeting `RoundDiv`'s bounds is its value. */
  lemma RoundDivUnique(a: int, b: int, n: int)
    requires b > 0 && 2 * b * n - b <= 2 * a < 2 * b * n + b
    ensures RoundDiv(a, b) == n
  {
    var m := RoundDiv(a, b);
    if n < m {
      MulMonotone(2 * b, n + 1, m);
    } else if n > m {
      MulMonotone(2 * b, m + 1, n);
    }
  }

  /** For a part between none and all of a positive total the percentage lies in 0..100. */
  lemma PercentageBounds(value: int, total: int)
    requires total > 0 && 0 <= value <= total
    ensures 0 <= RoundDiv(100 * value, total) <= 100
  {
    var m := RoundDiv(100 * value, total);
    if m < 0 {
      MulMonotone(2 * total, m + 1, 0);
    }
    if m > 100 {
      MulMonotone(2 * total, 101, m);
      MulMonotone(100, value, total);
    }
  }
}
