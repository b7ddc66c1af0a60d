/**
  Fitting the dash pattern to the outline (the stroke part of drawRect): the
  pattern is stretched by one common ratio so that a whole number of copies of
  it covers the outline exactly, and nothing is left over at the seam.
 */
module DashFit {

  /**
    Swift's round: the nearest integer, halfway cases rounded away from zero.
    The two ensures clauses pin the result down uniquely.
   */
  function Round(x: real): (n: int)
    ensures x >= 0.0 ==> n as real - 0.5 <= x < n as real + 0.5
    ensures x < 0.0 ==> n as real - 0.5 < x <= n as real + 0.5
  {
    if x >= 0.0 then (x + 0.5).Floor else -((-x + 0.5).Floor)
  }

  /** Rounding is symmetric about zero. */
  lemma RoundIsOdd(x: real)
    ensures Round(-x) == -Round(x)
  {
  }

  /** The sum of a pattern, as `reduce(0) { sum + value }` folds it from the left. */
  function Sum(s: seq<real>): real
  {
    if s == [] then 0.0 else Sum(s[..|s| - 1]) + s[|s| - 1]
  }

  /** Every element of s multiplied by k, as `map { value * k }` builds it. */
  function Scale(s: seq<real>, k: real): (r: seq<real>)
    ensures |r| == |s|
    ensures forall i :: 0 <= i < |s| ==> r[i] == s[i] * k
  {
    if s == [] then [] else Scale(s[..|s| - 1], k) + [s[|s| - 1] * k]
  }

  /** Appending a length adds it to the sum. */
  lemma SumAppend(s: seq<real>, x: real)
    ensures Sum(s + [x]) == Sum(s) + x
  {
  }

  /** The fold's order does not matter: the sum is also the first element plus the sum of the rest. */
  lemma {:induction false} SumFromFront(s: seq<real>)
    requires s != []
    ensures Sum(s) == s[0] + Sum(s[1..])
  {
    if |s| > 1 {
      SumFromFront(s[..|s| - 1]);
      assert s[..|s| - 1][1..] == s[1..][..|s[1..]| - 1];
    }
  }

  /** Scaling every element scales the sum. */
  lemma {:induction false} SumScale(s: seq<real>, k: real)
    ensures Sum(Scale(s, k)) == Sum(s) * k
  {
    if s != [] {
      assert Scale(s, k) == Scale(s[..|s| - 1], k) + [s[|s| - 1] * k];
      SumAppend(Scale(s[..|s| - 1], k), s[|s| - 1] * k);
      SumScale(s[..|s| - 1], k);
      assert (Sum(s[..|s| - 1]) + s[|s| - 1]) * k == Sum(s[..|s| - 1]) * k + s[|s| - 1] * k;
    }
  }

  /** Numbers of the same sign have a sum of that sign. */
  lemma {:induction false} SumNonNegative(s: seq<real>)
    requires forall i :: 0 <= i < |s| ==> s[i] >= 0.0
    ensures Sum(s) >= 0.0
    ensures Sum(s) == 0.0 ==> forall i :: 0 <= i < |s| ==> s[i] == 0.0
  {
    if s != [] {
      SumNonNegative(s[..|s| - 1]);
    }
  }

  /** numberOfPatterns: how many whole copies of the pattern come nearest to the path length. */
  function Repetitions(pathLength: real, patternLength: real): (n: int)
    requires patternLength != 0.0
    ensures pathLength / patternLength - 0.5 <= n as real <= pathLength / patternLength + 0.5
  {
    Round(pathLength / patternLength)
  }

  /**
    What the stroke gets: no dash at all (the path is stroked solid), a stretched
    pattern with the number of copies it is fitted for, or, when the number of
    copies rounds to zero, the result of the source's division by zero.
   */
  datatype Fit =
    | Solid
    | Stretched(pattern: seq<real>, repetitions: int)
    | DivideByZero

  /**
    stretchRatio: the one factor every element is multiplied by, chosen so
    that n copies of the pattern, stretched, measure the path length.
   */
  function StretchRatio(pathLength: real, patternLength: real, n: int): (ratio: real)
    requires patternLength != 0.0 && n != 0
    ensures ratio * patternLength * (n as real) == pathLength
  {
    var m := n as real;
    assert patternLength * m != 0.0;
    pathLength / (patternLength * m)
  }

  /**
    The fitted pattern. With a zero pattern sum nothing is divided and the path
    is stroked solid. Otherwise every element is multiplied by the one stretch
    ratio, so the pattern keeps its length and proportions; FittedPatternTiles
    shows that `repetitions` copies of it measure exactly the path length.
   */
  function FitDashPattern(pattern: seq<real>, pathLength: real): (f: Fit)
    ensures f.Solid? <==> Sum(pattern) == 0.0
    ensures f.DivideByZero? <==> Sum(pattern) != 0.0 && Repetitions(pathLength, Sum(pattern)) == 0
    ensures f.Stretched? ==>
      && f.repetitions == Repetitions(pathLength, Sum(pattern))
      && f.repetitions != 0
      && |f.pattern| == |pattern|
      && f.pattern == Scale(pattern, StretchRatio(pathLength, Sum(pattern), f.repetitions))
  {
    var patternLength := Sum(pattern);
    if patternLength == 0.0 then Solid
    else
      var n := Repetitions(pathLength, patternLength);
      if n == 0 then DivideByZero
      else
        Stretched(Scale(pattern, StretchRatio(pathLength, patternLength, n)), n)
  }

  /**
    When the pattern is stretched, its copies measure exactly the path length:
    the last gap ends where the first dash began.
   */
  lemma FittedPatternTiles(pattern: seq<real>, pathLength: real)
    requires FitDashPattern(pattern, pathLength).Stretched?
    ensures Sum(FitDashPattern(pattern, pathLength).pattern)
      * (FitDashPattern(pattern, pathLength).repetitions as real) == pathLength
  {
    StretchedTiles(pattern, pathLength, Repetitions(pathLength, Sum(pattern)));
  }

  /** n copies of the pattern stretched by the ratio for n copies measure pathLength. */
  lemma StretchedTiles(pattern: seq<real>, pathLength: real, n: int)
    requires Sum(pattern) != 0.0 && n != 0
    ensures Sum(Scale(pattern, StretchRatio(pathLength, Sum(pattern), n))) * (n as real) == pathLength
  {
    var p, m := Sum(pattern), n as real;
    var ratio := StretchRatio(pathLength, p, n);
    SumScale(pattern, ratio);
    calc {
      Sum(Scale(pattern, ratio)) * m;
      p * ratio * m;
      ratio * p * m;
      pathLength;
    }
  }

  /**
    For a positive path and pattern the number of copies is at least one as
    soon as the path is at least half a pattern long.
   */
  lemma RepetitionsPositive(pathLength: real, patternLength: real)
    requires patternLength > 0.0 && pathLength >= patternLength / 2.0
    ensures Repetitions(pathLength, patternLength) >= 1
  {
    assert pathLength / patternLength >= 0.5;
  }

  /**
    The stretch is slight: with n >= 1 copies the ratio lies within 1/(2n) of 1,
    because n is the nearest whole number to pathLength / patternLength.
   */
  lemma StretchIsSlight(pathLength: real, patternLength: real, n: int)
    requires patternLength > 0.0
    requires n == Repetitions(pathLength, patternLength) && n >= 1
    ensures 1.0 - 0.5 / (n as real) <= StretchRatio(pathLength, patternLength, n) <= 1.0 + 0.5 / (n as real)
  {
    var ratio := StretchRatio(pathLength, patternLength, n);
    CountTimesRatio(ratio, pathLength, patternLength, n as real);
    WithinHalfPerCopy(pathLength / patternLength, ratio, n as real);
  }

  /** ratio * patternLength * m == pathLength, so ratio * m == pathLength / patternLength. */
  lemma CountTimesRatio(ratio: real, pathLength: real, patternLength: real, m: real)
    requires patternLength > 0.0 && ratio * patternLength * m == pathLength
    ensures ratio * m == pathLength / patternLength
  {
    assert ratio * m * patternLength == pathLength / patternLength * patternLength;
    CancelFactor(ratio * m, pathLength / patternLength, patternLength);
  }

  /** When ratio * m is within a half of m (m >= 1), ratio is within 1/(2m) of 1. */
  lemma WithinHalfPerCopy(q: real, ratio: real, m: real)
    requires m >= 1.0 && ratio * m == q && m - 0.5 <= q <= m + 0.5
    ensures 1.0 - 0.5 / m <= ratio <= 1.0 + 0.5 / m
  {
    assert (1.0 - 0.5 / m) * m == m - 0.5;
    assert (1.0 + 0.5 / m) * m == m + 0.5;
    CancelFactor(1.0 - 0.5 / m, ratio, m);
    CancelFactor(ratio, 1.0 + 0.5 / m, m);
  }

  /** A positive factor can be cancelled on both sides of a comparison. */
  lemma CancelFactor(a: real, b: real, c: real)
    requires c > 0.0
    ensures a * c <= b * c <==> a <= b
    ensures a * c == b * c <==> a == b
  {
    assert (b - a) * c == b * c - a * c;
  }
}
