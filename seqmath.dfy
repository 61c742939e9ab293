/** Arithmetic over price series: sums, means, extremes, Python-style tail
    slices, an ascending sort, and the two irrational functions the source
    uses (square root and sample standard deviation), which are kept abstract. */
module SeqMath {

  /** Non-negative reals: the result type of the abstract square root and
      standard deviation. */
  type NonNeg = r: real | r >= 0.0

  /** The square root (`** 0.5`, `Math.sqrt`) and `statistics.stdev` of the
      source. The model relies only on their results being non-negative, so
      they are supplied by the caller rather than defined here. */
  datatype Roots = Roots(sqrt: real -> NonNeg, stdev: seq<real> -> NonNeg)

  function Sum(s: seq<real>): real
    decreases |s|
  {
    if |s| == 0 then 0.0 else Sum(s[..|s| - 1]) + s[|s| - 1]
  }

  /** Python's `s[-n:]` for `0 < n <= len(s)`; also `s[len(s):]` for `n == 0`. */
  function Last<T>(s: seq<T>, n: nat): (r: seq<T>)
    requires n <= |s|
    ensures |r| == n
    ensures forall i :: 0 <= i < n ==> r[i] == s[|s| - n + i]
  {
    s[|s| - n..]
  }

  function Mean(s: seq<real>): real
    requires |s| > 0
  {
    Sum(s) / |s| as real
  }

  /** Sum of squared deviations from `m` (the numerator of a population variance). */
  function SumSqDev(s: seq<real>, m: real): (r: real)
    ensures r >= 0.0
    decreases |s|
  {
    if |s| == 0 then 0.0
    else
      var d := s[|s| - 1] - m;
      assert d * d >= 0.0 by { if d < 0.0 { assert (-d) * (-d) == d * d; } }
      SumSqDev(s[..|s| - 1], m) + d * d
  }

  function Min(s: seq<real>): (m: real)
    requires |s| > 0
    ensures m in s
    ensures forall i :: 0 <= i < |s| ==> m <= s[i]
    decreases |s|
  {
    if |s| == 1 then s[0]
    else
      var rest := Min(s[..|s| - 1]);
      assert forall i :: 0 <= i < |s| - 1 ==> s[..|s| - 1][i] == s[i];
      if s[|s| - 1] < rest then s[|s| - 1] else rest
  }

  function Max(s: seq<real>): (m: real)
    requires |s| > 0
    ensures m in s
    ensures forall i :: 0 <= i < |s| ==> s[i] <= m
    decreases |s|
  {
    if |s| == 1 then s[0]
    else
      var rest := Max(s[..|s| - 1]);
      assert forall i :: 0 <= i < |s| - 1 ==> s[..|s| - 1][i] == s[i];
      if s[|s| - 1] > rest then s[|s| - 1] else rest
  }

  function Abs(x: real): (r: real)
    ensures r >= 0.0 && (r == x || r == -x)
  {
    if x < 0.0 then -x else x
  }

  function MaxReal(a: real, b: real): (r: real)
    ensures r >= a && r >= b && (r == a || r == b)
  {
    if a >= b then a else b
  }

  function MinReal(a: real, b: real): (r: real)
    ensures r <= a && r <= b && (r == a || r == b)
  {
    if a <= b then a else b
  }

  function MaxInt(a: int, b: int): int { if a >= b then a else b }

  function MinInt(a: int, b: int): int { if a <= b then a else b }

  lemma AppendAssoc<T>(u: seq<T>, v: seq<T>, w: seq<T>)
    ensures (u + v) + w == u + (v + w)
  {
  }

  /** How many times `x` occurs in `s`. */
  function Count<T(==)>(s: seq<T>, x: T): nat
    decreases |s|
  {
    if |s| == 0 then 0 else Count(s[..|s| - 1], x) + (if s[|s| - 1] == x then 1 else 0)
  }

  /** `Count` is the multiplicity in the multiset of the sequence. */
  lemma {:induction false} CountIsMultiplicity<T>(s: seq<T>, x: T)
    ensures Count(s, x) == multiset(s)[x]
    decreases |s|
  {
    if |s| > 0 {
      assert s == s[..|s| - 1] + [s[|s| - 1]];
      CountIsMultiplicity(s[..|s| - 1], x);
    }
  }

  lemma {:induction false} SumAppend(s: seq<real>, x: real)
    ensures Sum(s + [x]) == Sum(s) + x
  {
    assert (s + [x])[..|s + [x]| - 1] == s;
  }

  /** The sum of a concatenation is the sum of its parts. */
  lemma {:induction false} SumConcat(a: seq<real>, b: seq<real>)
    ensures Sum(a + b) == Sum(a) + Sum(b)
    decreases |b|
  {
    if |b| == 0 {
      assert a + b == a;
    } else {
      var init := b[..|b| - 1];
      assert (a + b)[..|a + b| - 1] == a + init;
      assert (a + b)[|a + b| - 1] == b[|b| - 1];
      SumConcat(a, init);
    }
  }

  /** Deviations from the common value of a constant series sum to zero. */
  lemma {:induction false} SumSqDevConstant(s: seq<real>, m: real)
    requires forall i :: 0 <= i < |s| ==> s[i] == m
    ensures SumSqDev(s, m) == 0.0
    decreases |s|
  {
    if |s| > 0 {
      SumSqDevConstant(s[..|s| - 1], m);
    }
  }

  /** A sum of non-negative terms is non-negative. */
  lemma {:induction false} SumNonNeg(s: seq<real>)
    requires forall i :: 0 <= i < |s| ==> s[i] >= 0.0
    ensures Sum(s) >= 0.0
    decreases |s|
  {
    if |s| > 0 {
      SumNonNeg(s[..|s| - 1]);
    }
  }

  /** A sum of zeros is zero. */
  lemma {:induction false} SumZero(s: seq<real>)
    requires forall i :: 0 <= i < |s| ==> s[i] == 0.0
    ensures Sum(s) == 0.0
    decreases |s|
  {
    if |s| > 0 {
      SumZero(s[..|s| - 1]);
    }
  }

  /** Every term between `lo` and `hi` puts the sum between `|s|·lo` and `|s|·hi`. */
  lemma {:induction false} SumBounds(s: seq<real>, lo: real, hi: real)
    requires forall i :: 0 <= i < |s| ==> lo <= s[i] <= hi
    ensures |s| as real * lo <= Sum(s) <= |s| as real * hi
    decreases |s|
  {
    if |s| > 0 {
      var n := |s| as real;
      var init := s[..|s| - 1];
      assert |init| as real == n - 1.0;
      SumBounds(init, lo, hi);
      assert Sum(s) == Sum(init) + s[|s| - 1];
      assert (n - 1.0) * lo + lo == n * lo;
      assert (n - 1.0) * hi + hi == n * hi;
    }
  }

  /** The mean of a non-empty series whose terms lie in `[lo, hi]` lies there too. */
  lemma MeanBetween(s: seq<real>, lo: real, hi: real)
    requires |s| > 0
    requires forall i :: 0 <= i < |s| ==> lo <= s[i] <= hi
    ensures lo <= Mean(s) <= hi
  {
    SumBounds(s, lo, hi);
    DivBetween(Sum(s), |s| as real, lo, hi);
  }

  lemma DivBetween(a: real, n: real, lo: real, hi: real)
    requires n > 0.0 && n * lo <= a <= n * hi
    ensures lo <= a / n <= hi
  {
    var q := a / n;
    assert q * n == a;
    assert (q - lo) * n >= 0.0;
    assert (hi - q) * n >= 0.0;
  }

  /** Multiplying by a non-negative factor keeps an inequality. */
  lemma MulMonotone(a: real, b: real, c: real)
    requires a <= b && c >= 0.0
    ensures a * c <= b * c
  {
    assert (b - a) * c >= 0.0;
  }

  /** Multiplying by a positive factor keeps the sign. */
  lemma MulSign(x: real, p: real)
    requires p > 0.0
    ensures x > 0.0 <==> x * p > 0.0
    ensures x < 0.0 <==> x * p < 0.0
  {
    if x > 0.0 {
      MulMonotone(0.0, x, p);
      assert x * p != 0.0;
    } else if x < 0.0 {
      MulMonotone(x, 0.0, p);
      assert x * p != 0.0;
    } else {
      assert x * p == 0.0;
    }
  }

  /** For `n > 0`, `x / n > k` exactly when `x > k·n`. */
  lemma RatioAbove(x: real, n: real, k: real)
    requires n > 0.0
    ensures x / n > k <==> x > k * n
  {
    assert x / n * n == x;
    MulSign(x / n - k, n);
    assert (x / n - k) * n == x - k * n;
  }

  /** A convex combination of two values at least `lo` is at least `lo`. */
  lemma ConvexLower(x: real, y: real, m: real, lo: real)
    requires 0.0 <= m <= 1.0 && lo <= x && lo <= y
    ensures lo <= x * m + y * (1.0 - m)
  {
    assert (x - lo) * m >= 0.0;
    assert (y - lo) * (1.0 - m) >= 0.0;
  }

  /** A convex combination of two values at most `hi` is at most `hi`. */
  lemma ConvexUpper(x: real, y: real, m: real, hi: real)
    requires 0.0 <= m <= 1.0 && x <= hi && y <= hi
    ensures x * m + y * (1.0 - m) <= hi
  {
    assert (hi - x) * m >= 0.0;
    assert (hi - y) * (1.0 - m) >= 0.0;
  }

  ghost predicate IsSorted(s: seq<real>) {
    forall i, j :: 0 <= i < j < |s| ==> s[i] <= s[j]
  }

  /** Insertion of `x` before the first element not below it. */
  function Insert(x: real, s: seq<real>): (r: seq<real>)
    ensures |r| == |s| + 1
    decreases |s|
  {
    if |s| == 0 then [x]
    else if x <= s[0] then [x] + s
    else [s[0]] + Insert(x, s[1..])
  }

  lemma {:induction false} InsertPermutes(x: real, s: seq<real>)
    ensures multiset(Insert(x, s)) == multiset(s) + multiset{x}
    decreases |s|
  {
    if |s| > 0 && x > s[0] {
      InsertPermutes(x, s[1..]);
      assert s == [s[0]] + s[1..];
    }
  }

  /** A lower bound of `x` and of every element of `s` bounds the insertion. */
  lemma {:induction false} InsertBounded(x: real, s: seq<real>, lo: real)
    requires lo <= x && forall j :: 0 <= j < |s| ==> lo <= s[j]
    ensures forall i :: 0 <= i < |Insert(x, s)| ==> lo <= Insert(x, s)[i]
    decreases |s|
  {
    if |s| > 0 && x > s[0] {
      InsertBounded(x, s[1..], lo);
    }
  }

  /** An element below every element of a sorted list keeps it sorted in front. */
  lemma ConsSorted(a: real, t: seq<real>)
    requires IsSorted(t) && forall j :: 0 <= j < |t| ==> a <= t[j]
    ensures IsSorted([a] + t)
  {
  }

  lemma {:induction false} InsertSorted(x: real, s: seq<real>)
    requires IsSorted(s)
    ensures IsSorted(Insert(x, s))
    decreases |s|
  {
    if |s| > 0 {
      var tail := s[1..];
      assert forall j :: 0 <= j < |tail| ==> s[0] <= tail[j];
      if x <= s[0] {
        ConsSorted(x, s);
      } else {
        InsertSorted(x, tail);
        InsertBounded(x, tail, s[0]);
        ConsSorted(s[0], Insert(x, tail));
      }
    }
  }

  /** Python's `sorted(s)`: an insertion sort. */
  function SortAsc(s: seq<real>): (r: seq<real>)
    ensures |r| == |s|
    decreases |s|
  {
    if |s| == 0 then [] else Insert(s[|s| - 1], SortAsc(s[..|s| - 1]))
  }

  /** `SortAsc` returns an ascending permutation of its input. */
  lemma {:induction false} SortAscSortsAndPermutes(s: seq<real>)
    ensures IsSorted(SortAsc(s))
    ensures multiset(SortAsc(s)) == multiset(s)
    decreases |s|
  {
    if |s| > 0 {
      SortAscSortsAndPermutes(s[..|s| - 1]);
      InsertSorted(s[|s| - 1], SortAsc(s[..|s| - 1]));
      InsertPermutes(s[|s| - 1], SortAsc(s[..|s| - 1]));
      assert s == s[..|s| - 1] + [s[|s| - 1]];
    }
  }
}
