/**
 * Small building blocks that the deck engine borrows from JavaScript's
 * runtime: an optional value, `Math.round`, ASCII `toLowerCase`,
 * `String.prototype.includes`, `String.prototype.trim` and the decimal
 * rendering of an integer inside a template literal.
 */
module Common {

  datatype Option<+T> = None | Some(value: T)

  // ---------------------------------------------------------------------
  // Math.round
  // ---------------------------------------------------------------------

  /** `Math.round(x)`: the nearest integer, halves rounded towards +infinity. */
  function JsRound(x: real): (r: int)
    ensures (r as real) - 0.5 <= x < (r as real) + 0.5
  {
    (x + 0.5).Floor
  }

  /**
   * `Math.round(a / b)` for a positive divisor, in integers: the integer
   * nearest to a / b, a half rounded up.
   */
  function RoundDiv(a: int, b: int): (r: int)
    requires b > 0
    ensures 2 * b * r - b <= 2 * a < 2 * b * r + b
  {
    (2 * a + b) / (2 * b)
  }

  lemma MulMonotone(k: int, x: int, y: int)
    requires k > 0 && x <= y
    ensures k * x <= k * y
  {
  }

  /** `Math.round(a / b)` on the exact quotient is the integer `RoundDiv(a, b)`. */
  lemma JsRoundQuotient(a: int, b: int)
    requires b > 0
    ensures JsRound(a as real / b as real) == RoundDiv(a, b)
  {
    var bb := b as real;
    var x := a as real / bb;
    var y := (2 * a + b) as real / (2 * b) as real;
    assert x * bb == a as real;
    assert y * (2.0 * bb) == 2.0 * a as real + bb;
    assert (x + 0.5) * (2.0 * bb) == 2.0 * (x * bb) + bb;
    RealCancel(y, x + 0.5, 2.0 * bb);
    FloorOfQuotient(2 * a + b, 2 * b);
  }

  /** The floor of an exact quotient is Euclidean integer division. */
  lemma FloorOfQuotient(p: int, q: int)
    requires q > 0
    ensures (p as real / q as real).Floor == p / q
  {
    var k, r := p / q, p % q;
    assert p == k * q + r;
    CastMul(k, q);
    var qq, kk := q as real, k as real;
    var x := p as real / qq;
    assert x * qq == p as real;
    assert p as real == kk * qq + r as real;
    if x < kk {
      RealMulLe(x, kk, qq);
      assert false;
    }
    if x >= kk + 1.0 {
      RealMulLe(kk + 1.0, x, qq);
      assert false;
    }
  }

  lemma CastMul(k: int, q: int)
    ensures (k * q) as real == k as real * q as real
  {
  }

  lemma RealMulLe(a: real, b: real, c: real)
    requires a <= b && c > 0.0
    ensures a * c <= b * c
  {
  }

  lemma RealCancel(u: real, v: real, c: real)
    requires c != 0.0 && u * c == v * c
    ensures u == v
  {
  }

  // ---------------------------------------------------------------------
  // Strings
  // ---------------------------------------------------------------------

  /** ASCII `toLowerCase` of one character. */
  function LowerChar(c: char): char
  {
    if 'A' <= c <= 'Z' then (c as int + 32) as char else c
  }

  /** ASCII `toLowerCase`: every upper-case letter mapped, everything else kept. */
  function Lower(s: string): (r: string)
    ensures |r| == |s|
    ensures forall i :: 0 <= i < |s| ==> r[i] == LowerChar(s[i])
  {
    seq(|s|, i requires 0 <= i < |s| => LowerChar(s[i]))
  }

  /** Lower-casing twice changes nothing more than lower-casing once. */
  lemma LowerIdempotent(s: string)
    ensures Lower(Lower(s)) == Lower(s)
  {
    assert forall i :: 0 <= i < |s| ==> LowerChar(LowerChar(s[i])) == LowerChar(s[i]);
  }

  /** `c.repeat(n)`: `n` copies of `c`. */
  function Repeat(c: char, n: nat): (r: string)
    ensures |r| == n && forall i :: 0 <= i < n ==> r[i] == c
  {
    seq(n, i => c)
  }

  /** `s.includes(q)`: `q` occurs in `s` at some position. */
  predicate Includes(s: string, q: string)
    decreases |s|
  {
    |q| <= |s| && (s[..|q|] == q || Includes(s[1..], q))
  }

  /** `q` occurs in `s` starting at position `i`. */
  predicate OccursAt(s: string, q: string, i: int)
  {
    0 <= i <= |s| - |q| && s[i..i + |q|] == q
  }

  /** `Includes` holds exactly when `q` is a contiguous slice of `s`. */
  lemma {:induction false} IncludesIff(s: string, q: string)
    ensures Includes(s, q) <==> exists i :: OccursAt(s, q, i)
    decreases |s|
  {
    if |q| <= |s| && s[..|q|] == q {
      assert OccursAt(s, q, 0);
    } else if |q| <= |s| && |s| > 0 {
      IncludesIff(s[1..], q);
      if exists i :: OccursAt(s, q, i) {
        var i :| OccursAt(s, q, i);
        assert i != 0;
        assert s[1..][i - 1..i - 1 + |q|] == s[i..i + |q|];
        assert OccursAt(s[1..], q, i - 1);
      }
      if Includes(s[1..], q) {
        var i :| OccursAt(s[1..], q, i);
        assert s[1..][i..i + |q|] == s[i + 1..i + 1 + |q|];
        assert OccursAt(s, q, i + 1);
      }
    }
  }

  /** `i` is the first position at which `q` occurs in `s`. */
  predicate FirstOccurrence(s: string, q: string, i: int)
  {
    OccursAt(s, q, i) && forall j :: 0 <= j < i ==> !OccursAt(s, q, j)
  }

  /**
   * `s.replace(pat, rep)` with a string pattern: only the first occurrence
   * of `pat` is replaced; without one, `s` comes back unchanged.
   */
  function ReplaceFirst(s: string, pat: string, rep: string): (r: string)
    ensures !Includes(s, pat) ==> r == s
    ensures Includes(s, pat) ==>
              exists i :: FirstOccurrence(s, pat, i) && r == s[..i] + rep + s[i + |pat|..]
    decreases |s|
  {
    if |s| < |pat| then s
    else if s[..|pat|] == pat then
      assert FirstOccurrence(s, pat, 0) && s[..0] == [];
      rep + s[|pat|..]
    else
      var t := ReplaceFirst(s[1..], pat, rep);
      assert Includes(s, pat) == Includes(s[1..], pat);
      assert Includes(s, pat) ==> exists i :: FirstOccurrence(s, pat, i) && [s[0]] + t == s[..i] + rep + s[i + |pat|..] by {
        if Includes(s, pat) {
          var i :| FirstOccurrence(s[1..], pat, i) && t == s[1..][..i] + rep + s[1..][i + |pat|..];
          ReplaceFirstShift(s, pat, rep, t, i);
        }
      }
      [s[0]] + t
  }

  /** A first occurrence in `s[1..]` is one position further on in `s` when `s` does not start with `pat`. */
  lemma ReplaceFirstShift(s: string, pat: string, rep: string, t: string, i: int)
    requires |pat| <= |s| && s[..|pat|] != pat
    requires FirstOccurrence(s[1..], pat, i) && t == s[1..][..i] + rep + s[1..][i + |pat|..]
    ensures FirstOccurrence(s, pat, i + 1) && [s[0]] + t == s[..i + 1] + rep + s[i + 1 + |pat|..]
  {
    assert s[1..][i..i + |pat|] == s[i + 1..i + 1 + |pat|];
    forall j | 0 <= j < i + 1
      ensures !OccursAt(s, pat, j)
    {
      if j > 0 && OccursAt(s, pat, j) {
        assert s[1..][j - 1..j - 1 + |pat|] == s[j..j + |pat|];
        assert OccursAt(s[1..], pat, j - 1);
      }
    }
    assert [s[0]] + s[1..][..i] == s[..i + 1];
    assert s[1..][i + |pat|..] == s[i + 1 + |pat|..];
  }

  /** The white-space and line-terminator characters that `String.prototype.trim` removes. */
  predicate IsJsSpace(c: char)
  {
    c == ' ' || c == '\t' || c == '\n' || c == '\r' || c == '\U{000B}' || c == '\U{000C}'
    || c == '\U{00A0}' || c == '\U{1680}' || ('\U{2000}' <= c <= '\U{200A}')
    || c == '\U{2028}' || c == '\U{2029}' || c == '\U{202F}' || c == '\U{205F}'
    || c == '\U{3000}' || c == '\U{FEFF}'
  }

  function TrimStart(s: string): (r: string)
    ensures |r| <= |s| && r == s[|s| - |r|..]
    ensures forall i :: 0 <= i < |s| - |r| ==> IsJsSpace(s[i])
    ensures r == [] || !IsJsSpace(r[0])
  {
    if s != [] && IsJsSpace(s[0]) then
      var r := TrimStart(s[1..]);
      assert s[1..][|s| - 1 - |r|..] == s[|s| - |r|..];
      assert forall i :: 0 < i < |s| - |r| ==> s[i] == s[1..][i - 1];
      r
    else s
  }

  function TrimEnd(s: string): (r: string)
    ensures |r| <= |s| && r == s[..|r|]
    ensures forall i :: |r| <= i < |s| ==> IsJsSpace(s[i])
    ensures r == [] || !IsJsSpace(r[|r| - 1])
  {
    if s != [] && IsJsSpace(s[|s| - 1]) then
      var r := TrimEnd(s[..|s| - 1]);
      assert s[..|s| - 1][..|r|] == s[..|r|];
      assert forall i :: |r| <= i < |s| - 1 ==> s[i] == s[..|s| - 1][i];
      r
    else s
  }

  /**
   * `s.trim()`: the slice `s[i..j]` left after removing leading and trailing
   * white space; every removed character is white space and the slice
   * neither starts nor ends with white space.
   */
  function Trim(s: string): (r: string)
    ensures exists i, j :: TrimmedSlice(s, i, j) && r == s[i..j]
    ensures r == [] || (!IsJsSpace(r[0]) && !IsJsSpace(r[|r| - 1]))
  {
    var t := TrimStart(s);
    var r := TrimEnd(t);
    TrimIsSlice(s, t, r);
    r
  }

  /** Everything outside `s[i..j]` is white space. */
  predicate TrimmedSlice(s: string, i: int, j: int)
  {
    && 0 <= i <= j <= |s|
    && (forall k :: 0 <= k < i ==> IsJsSpace(s[k]))
    && (forall k :: j <= k < |s| ==> IsJsSpace(s[k]))
  }

  lemma TrimIsSlice(s: string, t: string, r: string)
    requires |t| <= |s| && t == s[|s| - |t|..]
    requires forall k :: 0 <= k < |s| - |t| ==> IsJsSpace(s[k])
    requires |r| <= |t| && r == t[..|r|]
    requires forall k :: |r| <= k < |t| ==> IsJsSpace(t[k])
    ensures TrimmedSlice(s, |s| - |t|, |s| - |t| + |r|)
    ensures r == s[|s| - |t|..|s| - |t| + |r|]
  {
    var i := |s| - |t|;
    forall k | i + |r| <= k < |s| ensures IsJsSpace(s[k]) {
      assert s[k] == t[k - i];
    }
  }

  // ---------------------------------------------------------------------
  // Decimal rendering of integers (template-literal interpolation)
  // ---------------------------------------------------------------------

  function DigitChar(d: int): (c: char)
    requires 0 <= d < 10
    ensures '0' <= c <= '9'
  {
    ('0' as int + d) as char
  }

  predicate IsDigit(c: char)
  {
    '0' <= c <= '9'
  }

  /** The decimal digits of `n`, most significant first, with no leading zero. */
  function NatToDecimal(n: nat): (s: string)
    ensures |s| > 0 && forall i :: 0 <= i < |s| ==> IsDigit(s[i])
    ensures |s| > 1 ==> s[0] != '0'
  {
    if n < 10 then [DigitChar(n)] else NatToDecimal(n / 10) + [DigitChar(n % 10)]
  }

  /** Reads a string of decimal digits back as a number. */
  function ParseDecimal(s: string): int
    requires forall i :: 0 <= i < |s| ==> IsDigit(s[i])
  {
    if s == [] then 0 else ParseDecimal(s[..|s| - 1]) * 10 + (s[|s| - 1] as int - '0' as int)
  }

  lemma {:induction false} ParseNatToDecimal(n: nat)
    ensures ParseDecimal(NatToDecimal(n)) == n
  {
    if n >= 10 {
      var s := NatToDecimal(n);
      assert s[..|s| - 1] == NatToDecimal(n / 10);
      ParseNatToDecimal(n / 10);
    }
  }

  /** `${n}` for an integer `n`. */
  function IntToString(n: int): (s: string)
    ensures n >= 0 ==> s == NatToDecimal(n)
    ensures n < 0 ==> s == "-" + NatToDecimal(-n)
  {
    if n < 0 then "-" + NatToDecimal(-n) else NatToDecimal(n)
  }

  /** Rendering an integer is injective, so different numbers never print alike. */
  lemma IntToStringInjective(m: int, n: int)
    requires IntToString(m) == IntToString(n)
    ensures m == n
  {
    var sm, sn := IntToString(m), IntToString(n);
    if m < 0 && n < 0 {
      assert NatToDecimal(-m) == sm[1..] == NatToDecimal(-n);
      ParseNatToDecimal(-m);
      ParseNatToDecimal(-n);
    } else if m >= 0 && n >= 0 {
      ParseNatToDecimal(m);
      ParseNatToDecimal(n);
    }
  }
}
