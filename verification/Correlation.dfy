/**
 What Spearman's coefficient means. Deviations are taken from (n + 1) / 2 and sum to zero; for samples of one length the
 numerator is that of the classical formula, with or without ties, so equal order gives 1, reverse order -1, and the two
 samples play the same part.
 */
module Correlation {
  import opened Ranks

  // ----- deviations ----------------------------------------------------------------------------

  lemma {:induction false} SumCentred(vs: seq<real>, m: real)
    ensures Sum(Centred(vs, m)) == Sum(vs) - |vs| as real * m
  {
    if vs != [] {
      SumCentred(vs[1..], m);
      assert Centred(vs, m)[1..] == Centred(vs[1..], m);
      assert (|vs[1..]| as real + 1.0) * m == |vs[1..]| as real * m + m;
    }
  }

  /** 1 + 2 + ... + n */
  function Triangle(n: nat): real { n as real * (n as real + 1.0) / 2.0 }

  lemma RanksSumTriangle(xs: seq<real>)
    ensures Sum(RanksOf(xs, xs)) == Triangle(|xs|)
  {
    hide Sum, RanksOf;
    RanksSumTotal(xs);
  }

  lemma MeanOfTriangle(vs: seq<real>)
    requires vs != [] && Sum(vs) == Triangle(|vs|)
    ensures Mean(vs) == (|vs| as real + 1.0) / 2.0
  {
    hide Sum;
    MeanOfEqual(Sum(vs), (|vs| as real + 1.0) / 2.0, |vs|);
  }

  /** The ranks of a sample average to (n + 1) / 2, ties or not. */
  lemma MeanRank(xs: seq<real>)
    requires xs != []
    ensures Mean(RanksOf(xs, xs)) == (|xs| as real + 1.0) / 2.0
  {
    hide Rank, Sum, Mean, Triangle;
    RanksSumTriangle(xs);
    MeanOfTriangle(RanksOf(xs, xs));
  }

  /** Each deviation is the rank less (n + 1) / 2, and they cancel. */
  lemma DeviationsCancel(xs: seq<real>)
    requires xs != []
    ensures |Deviations(xs)| == |xs| && Sum(Deviations(xs)) == 0.0
    ensures forall i :: 0 <= i < |xs| ==> Deviations(xs)[i] == Rank(xs, xs[i]) - (|xs| as real + 1.0) / 2.0
  {
    hide Rank, Sum;
    MeanRank(xs);
    RanksSumTotal(xs);
    SumCentred(RanksOf(xs, xs), Mean(RanksOf(xs, xs)));
  }

  // ----- products ------------------------------------------------------------------------------

  function Minus(a: seq<real>, b: seq<real>): (r: seq<real>)
    requires |a| == |b|
    ensures |r| == |a| && forall i :: 0 <= i < |r| ==> r[i] == a[i] - b[i]
  {
    seq(|a|, i requires 0 <= i < |a| => a[i] - b[i])
  }

  lemma TwiceProduct(x: real, y: real)
    ensures 2.0 * (x * y) == x * x + y * y - (x - y) * (x - y)
  {
  }

  /** Twice a product is the squares less the square of the difference. */
  lemma {:induction false} DotByDifference(a: seq<real>, b: seq<real>)
    requires |a| == |b|
    ensures 2.0 * Dot(a, b) == Dot(a, a) + Dot(b, b) - Dot(Minus(a, b), Minus(a, b))
  {
    if a != [] {
      var d := Minus(a, b);
      DotByDifference(a[1..], b[1..]);
      assert d[1..] == Minus(a[1..], b[1..]);
      TwiceProduct(a[0], b[0]);
    }
  }

  lemma {:induction false} DotCommutes(a: seq<real>, b: seq<real>)
    ensures Dot(a, b) == Dot(b, a)
  {
    if a != [] && b != [] { DotCommutes(a[1..], b[1..]); }
  }

  lemma {:induction false} DotOpposite(a: seq<real>, b: seq<real>)
    requires |a| == |b| && forall i :: 0 <= i < |a| ==> b[i] == -a[i]
    ensures Dot(a, b) == -Dot(a, a) && Dot(b, b) == Dot(a, a)
  {
    if a != [] {
      DotOpposite(a[1..], b[1..]);
      assert a[0] * b[0] == -(a[0] * a[0]) && b[0] * b[0] == a[0] * a[0];
    }
  }

  // ----- the coefficient -----------------------------------------------------------------------

  /** The squares of the rank differences, summed. */
  function RankDistance(xs: seq<real>, ys: seq<real>): real
    requires |xs| == |ys|
  {
    var d := Minus(RanksOf(xs, xs), RanksOf(ys, ys));
    Dot(d, d)
  }

  /** The parts of a coefficient, through ranks and their distance alone. */
  lemma NumeratorByDistance(xs: seq<real>, ys: seq<real>)
    requires |xs| == |ys| && SpearmanOf(xs, ys).Ratio?
    ensures var c := SpearmanOf(xs, ys); 2.0 * c.num == c.sx + c.sy - RankDistance(xs, ys)
  {
    hide SpearmanOf, Dot, Rank, Deviations, Minus;
    RatioParts(xs, ys);
    Long(xs, ys);
    SameDifferences(xs, ys);
    DotByDifference(Deviations(xs), Deviations(ys));
  }

  /** Deviations differ by what the ranks differ. */
  lemma SameDifferences(xs: seq<real>, ys: seq<real>)
    requires |xs| == |ys| && xs != []
    ensures |Deviations(xs)| == |Deviations(ys)|
    ensures Minus(Deviations(xs), Deviations(ys)) == Minus(RanksOf(xs, xs), RanksOf(ys, ys))
  {
    hide Rank, Deviations;
    DeviationsCancel(xs);
    DeviationsCancel(ys);
  }

  lemma Long(xs: seq<real>, ys: seq<real>)
    requires SpearmanOf(xs, ys).Ratio?
    ensures |xs| >= 2 && ys != []
  {
  }

  /** Swapping two samples of one length keeps the numerator and swaps the norms. */
  lemma SwappedSamples(xs: seq<real>, ys: seq<real>)
    requires |xs| == |ys|
    ensures SpearmanOf(ys, xs) ==
            match SpearmanOf(xs, ys)
            case Ratio(num, sx, sy) => Ratio(num, sy, sx)
            case other => other
  {
    if |xs| >= 2 { DotCommutes(Deviations(xs), Deviations(ys)); }
  }

  lemma {:induction false} SharesOpposite(xs: seq<real>, ys: seq<real>, v: real, w: real)
    requires |xs| == |ys|
    requires forall j :: 0 <= j < |xs| ==> (xs[j] < v <==> w < ys[j]) && (v < xs[j] <==> ys[j] < w)
    ensures Shares(ys, w) == |xs| as real - Shares(xs, v)
  {
    if xs != [] { SharesOpposite(xs[1..], ys[1..], v, w); }
  }

  /** Samples in reverse order have the coefficient -1, whatever their values. */
  lemma ReverseOrder(xs: seq<real>, ys: seq<real>)
    requires |xs| == |ys| && SpearmanOf(xs, ys).Ratio?
    requires forall i, j :: 0 <= i < |xs| && 0 <= j < |xs| ==> (xs[i] < xs[j] <==> ys[j] < ys[i])
    ensures var c := SpearmanOf(xs, ys); c.num == -c.sx && c.sx == c.sy
  {
    hide SpearmanOf, Dot, Rank, Shares;
    RatioParts(xs, ys);
    Long(xs, ys);
    DeviationsCancel(xs);
    DeviationsCancel(ys);
    forall i | 0 <= i < |xs| ensures Deviations(ys)[i] == -Deviations(xs)[i] {
      RankIsShares(xs, xs[i]);
      RankIsShares(ys, ys[i]);
      SharesOpposite(xs, ys, xs[i], ys[i]);
    }
    DotOpposite(Deviations(xs), Deviations(ys));
  }

  // ----- samples without ties ------------------------------------------------------------------

  predicate Distinct(xs: seq<real>) { forall i, j :: 0 <= i < j < |xs| ==> xs[i] != xs[j] }

  lemma {:induction false} LargestAt(xs: seq<real>) returns (k: nat)
    requires xs != []
    ensures k < |xs| && forall i :: 0 <= i < |xs| ==> xs[i] <= xs[k]
  {
    k := 0;
    if |xs| > 1 {
      var l := LargestAt(xs[1..]);
      if xs[0] < xs[l + 1] {
        k := l + 1;
        forall i | 0 <= i < |xs| ensures xs[i] <= xs[k] { if i > 0 { assert xs[i] == xs[1..][i - 1]; } }
      } else {
        forall i | 0 <= i < |xs| ensures xs[i] <= xs[0] { if i > 0 { assert xs[i] == xs[1..][i - 1]; } }
      }
    }
  }

  lemma {:induction false} SharesJoin(a: seq<real>, b: seq<real>, v: real)
    ensures Shares(a + b, v) == Shares(a, v) + Shares(b, v)
  {
    if a == [] {
      assert a + b == b;
    } else {
      assert (a + b)[1..] == a[1..] + b;
      SharesJoin(a[1..], b, v);
    }
  }

  lemma {:induction false} SharesBelow(xs: seq<real>, v: real)
    requires forall i :: 0 <= i < |xs| ==> xs[i] < v
    ensures Shares(xs, v) == |xs| as real
  {
    if xs != [] { SharesBelow(xs[1..], v); }
  }

  function Squared(x: real): real { x * x }

  /** The squares of the ranks of `vs` within `xs`. */
  function Squares(xs: seq<real>, vs: seq<real>): real {
    if vs == [] then 0.0 else Squared(Rank(xs, vs[0])) + Squares(xs, vs[1..])
  }

  lemma {:induction false} SquaresJoin(xs: seq<real>, a: seq<real>, b: seq<real>)
    ensures Squares(xs, a + b) == Squares(xs, a) + Squares(xs, b)
  {
    hide Rank, Squared;
    if a == [] {
      assert a + b == b;
    } else {
      assert (a + b)[1..] == a[1..] + b;
      SquaresJoin(xs, a[1..], b);
    }
  }

  lemma {:induction false} SquaresAlike(xs: seq<real>, ys: seq<real>, vs: seq<real>)
    requires forall i :: 0 <= i < |vs| ==> Rank(xs, vs[i]) == Rank(ys, vs[i])
    ensures Squares(xs, vs) == Squares(ys, vs)
  {
    hide Rank, Squared;
    if vs != [] { SquaresAlike(xs, ys, vs[1..]); }
  }

  /** The ranks of the others do not depend on a largest element, whose own rank is the size of the sample. */
  lemma WithoutLargest(xs: seq<real>, k: nat, v: real)
    requires Distinct(xs) && k < |xs| && forall i :: 0 <= i < |xs| ==> xs[i] <= xs[k]
    ensures v < xs[k] ==> Rank(xs, v) == Rank(xs[..k] + xs[k + 1..], v)
    ensures Rank(xs, xs[k]) == |xs| as real
  {
    hide Rank, Shares;
    var m, a, b := xs[k], xs[..k], xs[k + 1..];
    assert xs == a + ([m] + b);
    RankIsShares(xs, v);
    RankIsShares(a + b, v);
    RankIsShares(xs, m);
    SharesJoin(a, [m] + b, v);
    SharesJoin([m], b, v);
    SharesJoin(a, b, v);
    SharesJoin(a, [m] + b, m);
    SharesJoin([m], b, m);
    SharesBelow(a, m);
    SharesBelow(b, m);
    OneShare(m, v);
    OneShare(m, m);
  }

  lemma OneShare(x: real, v: real)
    ensures Shares([x], v) == Share(x, v)
  {
    assert [x][1..] == [];
    assert Shares([], v) == 0.0;
  }

  /** 1 + 4 + ... + n^2 */
  function Pyramid(n: nat): real {
    var x := n as real;
    x * (x + 1.0) * (2.0 * x + 1.0) / 6.0
  }

  lemma NextPyramid(n: nat)
    ensures Pyramid(n + 1) == Pyramid(n) + Squared((n + 1) as real)
  {
    NextSquare(n as real);
    assert (n + 1) as real + 1.0 == n as real + 2.0;
  }

  lemma NextSquare(n: real)
    ensures n * (n + 1.0) * (2.0 * n + 1.0) / 6.0 + (n + 1.0) * (n + 1.0) == (n + 1.0) * (n + 2.0) * (2.0 * (n + 1.0) + 1.0) / 6.0
  {
    var s := n * n;
    assert n * (n + 1.0) == s + n;
    assert (s + n) * (2.0 * n + 1.0) == 2.0 * (s * n) + 3.0 * s + n;
    assert (n + 1.0) * (n + 1.0) == s + 2.0 * n + 1.0;
    assert (n + 1.0) * (n + 2.0) == s + 3.0 * n + 2.0;
    assert (s + 3.0 * n + 2.0) * (2.0 * n + 3.0) == 2.0 * (s * n) + 9.0 * s + 13.0 * n + 6.0;
  }

  lemma SquaresSplit(xs: seq<real>, k: nat)
    requires k < |xs|
    ensures Squares(xs, xs) == Squares(xs, xs[..k] + xs[k + 1..]) + Squared(Rank(xs, xs[k]))
  {
    hide Rank, Squared;
    var a, b := xs[..k], xs[k + 1..];
    assert xs == a + ([xs[k]] + b);
    SquaresJoin(xs, a, [xs[k]] + b);
    SquaresJoin(xs, [xs[k]], b);
    SquaresJoin(xs, a, b);
    assert [xs[k]][1..] == [];
    assert Squares(xs, [xs[k]]) == Squared(Rank(xs, xs[k])) + Squares(xs, []);
  }

  lemma RestDistinct(xs: seq<real>, k: nat)
    requires Distinct(xs) && k < |xs| && forall i :: 0 <= i < |xs| ==> xs[i] <= xs[k]
    ensures var rest := xs[..k] + xs[k + 1..]; Distinct(rest) && forall i :: 0 <= i < |rest| ==> rest[i] < xs[k]
  {
    var rest := xs[..k] + xs[k + 1..];
    forall i | 0 <= i < |rest| ensures rest[i] == xs[if i < k then i else i + 1] {}
  }

  /** Without ties the ranks are 1 to n, so their squares sum to n (n + 1) (2 n + 1) / 6. */
  lemma {:induction false} DistinctSquares(xs: seq<real>)
    requires Distinct(xs)
    ensures Squares(xs, xs) == Pyramid(|xs|)
    decreases |xs|
  {
    if xs != [] {
      hide Rank, Squares, Distinct, Squared, Pyramid;
      var k := LargestAt(xs);
      var rest := xs[..k] + xs[k + 1..];
      SquaresSplit(xs, k);
      RestDistinct(xs, k);
      forall i | 0 <= i < |rest| ensures Rank(xs, rest[i]) == Rank(rest, rest[i]) { WithoutLargest(xs, k, rest[i]); }
      SquaresAlike(xs, rest, rest);
      WithoutLargest(xs, k, xs[k]);
      DistinctSquares(rest);
      NextPyramid(|rest|);
    }
  }

  lemma {:induction false} SquaresAreDot(xs: seq<real>, vs: seq<real>)
    ensures Squares(xs, vs) == Dot(RanksOf(xs, vs), RanksOf(xs, vs))
  {
    hide Rank;
    if vs != [] {
      SquaresAreDot(xs, vs[1..]);
      assert RanksOf(xs, vs)[1..] == RanksOf(xs, vs[1..]);
    }
  }

  lemma CentredSquare(x: real, m: real)
    ensures (x - m) * (x - m) == x * x - 2.0 * m * x + m * m
  {
  }

  lemma {:induction false} DotCentred(vs: seq<real>, m: real)
    ensures Dot(Centred(vs, m), Centred(vs, m)) == Dot(vs, vs) - 2.0 * m * Sum(vs) + |vs| as real * (m * m)
  {
    if vs != [] {
      DotCentred(vs[1..], m);
      assert Centred(vs, m)[1..] == Centred(vs[1..], m);
      CentredSquare(vs[0], m);
      assert 2.0 * m * (vs[0] + Sum(vs[1..])) == 2.0 * m * vs[0] + 2.0 * m * Sum(vs[1..]);
      assert (|vs[1..]| as real + 1.0) * (m * m) == |vs[1..]| as real * (m * m) + m * m;
    }
  }

  lemma Variance(n: real, m: real)
    requires m == (n + 1.0) / 2.0
    ensures n * (n + 1.0) * (2.0 * n + 1.0) / 6.0 - 2.0 * m * (n * (n + 1.0) / 2.0) + n * (m * m) == n * (n * n - 1.0) / 12.0
  {
    var s := n * n;
    assert n * (n + 1.0) == s + n;
    assert (s + n) * (2.0 * n + 1.0) == 2.0 * (s * n) + 3.0 * s + n;
    assert (n + 1.0) * (s + n) == s * n + 2.0 * s + n;
    assert m * m == (s + 2.0 * n + 1.0) / 4.0;
    assert n * (s + 2.0 * n + 1.0) == s * n + 2.0 * s + n;
    assert n * (s - 1.0) == s * n - n;
    assert 2.0 * m * ((s + n) / 2.0) == (n + 1.0) * (s + n) / 2.0;
    assert n * ((s + 2.0 * n + 1.0) / 4.0) == n * (s + 2.0 * n + 1.0) / 4.0;
  }

  lemma DistinctNorm(xs: seq<real>)
    requires Distinct(xs) && xs != []
    ensures var n := |xs| as real; Dot(Deviations(xs), Deviations(xs)) == n * (n * n - 1.0) / 12.0
  {
    hide Rank, Dot, Sum, Squares;
    MeanRank(xs);
    RanksSumTotal(xs);
    DotCentred(RanksOf(xs, xs), Mean(RanksOf(xs, xs)));
    SquaresAreDot(xs, xs);
    DistinctSquares(xs);
    Variance(|xs| as real, Mean(RanksOf(xs, xs)));
  }

  /**
   The classical formula: without ties both squared norms are n (n^2 - 1) / 12, and the numerator falls short of them by
   half the squared rank differences, so the coefficient is 1 - 6 d / (n (n^2 - 1)).
   */
  lemma ClassicalFormula(xs: seq<real>, ys: seq<real>)
    requires |xs| == |ys| && SpearmanOf(xs, ys).Ratio? && Distinct(xs) && Distinct(ys)
    ensures var c, n := SpearmanOf(xs, ys), |xs| as real;
            c.sx == c.sy == n * (n * n - 1.0) / 12.0 && c.num == c.sx - RankDistance(xs, ys) / 2.0
  {
    hide SpearmanOf, Dot, Rank, RankDistance;
    RatioParts(xs, ys);
    Long(xs, ys);
    DistinctNorm(xs);
    DistinctNorm(ys);
    NumeratorByDistance(xs, ys);
  }
}
