/**
 * The ranking idiom the meta view uses twice:
 * `xs.sort((a, b) => b.score - a.score).slice(0, n)`.
 * `Array.prototype.sort` is stable, so the sorted array is the unique
 * arrangement whose scores never increase and in which entries with equal
 * scores keep their original order. `SortDesc` builds it by insertion.
 */
module Ranking {

  /** An item paired with the score it is ranked by. */
  datatype Ranked<T> = Ranked(item: T, score: int)

  /** Scores never increase from left to right. */
  predicate NonIncreasing<T>(s: seq<Ranked<T>>)
  {
    forall i, j :: 0 <= i < j < |s| ==> s[i].score >= s[j].score
  }

  /** The entries of `s` with score `k`, in their order in `s`. */
  function WithScore<T>(s: seq<Ranked<T>>, k: int): (r: seq<Ranked<T>>)
    ensures |r| <= |s|
    ensures forall i :: 0 <= i < |r| ==> r[i].score == k
  {
    if s == [] then []
    else (if s[0].score == k then [s[0]] else []) + WithScore(s[1..], k)
  }

  /** Puts `x` in front of the first entry whose score is not above its own. */
  function Insert<T>(x: Ranked<T>, s: seq<Ranked<T>>): seq<Ranked<T>>
  {
    if s == [] || x.score >= s[0].score then [x] + s else [s[0]] + Insert(x, s[1..])
  }

  /** The stable descending sort of `s` by score. */
  function SortDesc<T>(s: seq<Ranked<T>>): seq<Ranked<T>>
  {
    if s == [] then [] else Insert(s[0], SortDesc(s[1..]))
  }

  /** `s.slice(0, n)`. */
  function Take<T>(s: seq<Ranked<T>>, n: nat): (r: seq<Ranked<T>>)
    ensures |r| == if |s| < n then |s| else n
    ensures r == s[..|r|]
  {
    if |s| <= n then s else s[..n]
  }

  // ---------------------------------------------------------------------
  // Insert
  // ---------------------------------------------------------------------

  lemma {:induction false} InsertMultiset<T>(x: Ranked<T>, s: seq<Ranked<T>>)
    ensures multiset(Insert(x, s)) == multiset(s) + multiset{x}
    ensures |Insert(x, s)| == |s| + 1
  {
    if s != [] && x.score < s[0].score {
      InsertMultiset(x, s[1..]);
      assert s == [s[0]] + s[1..];
    }
  }

  lemma {:induction false} InsertBounded<T>(x: Ranked<T>, s: seq<Ranked<T>>, b: int)
    requires x.score <= b && forall j :: 0 <= j < |s| ==> s[j].score <= b
    ensures forall j :: 0 <= j < |Insert(x, s)| ==> Insert(x, s)[j].score <= b
  {
    if s != [] && x.score < s[0].score {
      InsertBounded(x, s[1..], b);
    }
  }

  lemma {:induction false} InsertSorted<T>(x: Ranked<T>, s: seq<Ranked<T>>)
    requires NonIncreasing(s)
    ensures NonIncreasing(Insert(x, s))
  {
    if s != [] && x.score < s[0].score {
      InsertSorted(x, s[1..]);
      InsertBounded(x, s[1..], s[0].score);
    }
  }

  lemma {:induction false} InsertStable<T>(x: Ranked<T>, s: seq<Ranked<T>>, k: int)
    requires NonIncreasing(s)
    ensures WithScore(Insert(x, s), k)
         == if x.score == k then [x] + WithScore(s, k) else WithScore(s, k)
  {
    if s == [] || x.score >= s[0].score {
      assert Insert(x, s) == [x] + s;
      assert ([x] + s)[1..] == s;
    } else {
      InsertStable(x, s[1..], k);
      var t := Insert(x, s[1..]);
      assert Insert(x, s) == [s[0]] + t;
      assert ([s[0]] + t)[1..] == t;
      if x.score == k {
        // s[0] scores above x, so it is not among the entries with score k
        assert s[0].score != k;
      }
    }
  }

  // ---------------------------------------------------------------------
  // SortDesc
  // ---------------------------------------------------------------------

  /** The sort puts scores in non-increasing order and loses or adds nothing. */
  lemma {:induction false} SortDescFacts<T>(s: seq<Ranked<T>>)
    ensures NonIncreasing(SortDesc(s))
    ensures multiset(SortDesc(s)) == multiset(s)
    ensures |SortDesc(s)| == |s|
  {
    if s != [] {
      SortDescFacts(s[1..]);
      InsertSorted(s[0], SortDesc(s[1..]));
      InsertMultiset(s[0], SortDesc(s[1..]));
      assert s == [s[0]] + s[1..];
    }
  }

  /** The sort is stable: entries with equal scores keep their relative order. */
  lemma {:induction false} SortDescStable<T>(s: seq<Ranked<T>>, k: int)
    ensures WithScore(SortDesc(s), k) == WithScore(s, k)
  {
    if s != [] {
      SortDescStable(s[1..], k);
      SortDescFacts(s[1..]);
      InsertStable(s[0], SortDesc(s[1..]), k);
    }
  }

  // ---------------------------------------------------------------------
  // Take after SortDesc: the top n
  // ---------------------------------------------------------------------

  lemma {:induction false} WithScorePrefix<T>(s: seq<Ranked<T>>, n: nat, k: int)
    requires n <= |s|
    ensures WithScore(s[..n], k) <= WithScore(s, k)
  {
    if n > 0 {
      WithScorePrefix(s[1..], n - 1, k);
      assert s[..n][1..] == s[1..][..n - 1];
    }
  }

  /**
   * The first `n` entries of the stable descending sort: at most `n` of
   * them, each taken from `s`, scores non-increasing, every entry of `s`
   * left out scores no more than any entry kept, and the entries kept with
   * any one score are the first ones with that score in `s`, in order.
   */
  function TopN<T>(s: seq<Ranked<T>>, n: nat): (r: seq<Ranked<T>>)
    ensures |r| == if |s| < n then |s| else n
    ensures NonIncreasing(r)
    ensures multiset(r) <= multiset(s)
    ensures forall i, j :: 0 <= i < |s| && 0 <= j < |r| && s[i] !in r ==> s[i].score <= r[j].score
    ensures forall k :: WithScore(r, k) <= WithScore(s, k)
  {
    var sorted := SortDesc(s);
    var r := Take(sorted, n);
    TopNFacts(s, n, sorted, r);
    r
  }

  lemma TopNFacts<T>(s: seq<Ranked<T>>, n: nat, sorted: seq<Ranked<T>>, r: seq<Ranked<T>>)
    requires sorted == SortDesc(s) && r == Take(sorted, n)
    ensures |r| == if |s| < n then |s| else n
    ensures NonIncreasing(r)
    ensures multiset(r) <= multiset(s)
    ensures forall i, j :: 0 <= i < |s| && 0 <= j < |r| && s[i] !in r ==> s[i].score <= r[j].score
    ensures forall k :: WithScore(r, k) <= WithScore(s, k)
  {
    SortDescFacts(s);
    PrefixMultiset(sorted, |r|);
    forall i, j | 0 <= i < |s| && 0 <= j < |r| && s[i] !in r ensures s[i].score <= r[j].score {
      LeftOutScoresLower(sorted, |r|, s[i], j);
    }
    forall k ensures WithScore(r, k) <= WithScore(s, k) {
      SortDescStable(s, k);
      WithScorePrefix(sorted, |r|, k);
    }
  }

  lemma PrefixMultiset<T>(s: seq<Ranked<T>>, n: nat)
    requires n <= |s|
    ensures multiset(s[..n]) <= multiset(s)
  {
    assert s == s[..n] + s[n..];
  }

  lemma LeftOutScoresLower<T>(sorted: seq<Ranked<T>>, n: nat, x: Ranked<T>, j: nat)
    requires NonIncreasing(sorted) && j < n <= |sorted|
    requires x in multiset(sorted) && x !in sorted[..n]
    ensures x.score <= sorted[j].score
  {
    var m :| 0 <= m < |sorted| && sorted[m] == x;
    if m < n {
      assert false;
    }
  }

  /**
   * An entry of `s` that is not in the top `n` was crowded out: all `n`
   * places are taken, by entries scoring at least as much.
   */
  lemma TopNLeftOut<T>(s: seq<Ranked<T>>, n: nat, x: Ranked<T>)
    requires x in s && x !in TopN(s, n)
    ensures |TopN(s, n)| == n
    ensures forall j :: 0 <= j < n ==> x.score <= TopN(s, n)[j].score
  {
    var r := TopN(s, n);
    assert x in multiset(s) && x !in multiset(r);
    if |r| < n {
      assert |multiset(r)| == |multiset(s)|;
      MultisetSubsetSameSize(multiset(r), multiset(s));
      assert false;
    }
  }

  lemma MultisetSubsetSameSize<T>(a: multiset<T>, b: multiset<T>)
    requires a <= b && |a| == |b|
    ensures a == b
  {
    assert b == a + (b - a);
  }
}
