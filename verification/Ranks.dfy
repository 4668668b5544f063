/**
 Rank statistics of the coverage backtest: tie-averaged ranks and Spearman's coefficient, over exact
 reals. The square roots of the denominator stay symbolic: a coefficient is its numerator and the two
 squared norms.
 */
module Ranks {
  import opened Sorting

  /** A value together with its position in the input. */
  datatype Keyed = Keyed(x: real, index: nat)

  predicate KeyedLe(a: Keyed, b: Keyed) { a.x <= b.x }

  function KeyedFrom(xs: seq<real>, from: nat): (r: seq<Keyed>)
    requires from <= |xs|
    ensures |r| == |xs| - from
    ensures forall i :: 0 <= i < |r| ==> r[i] == Keyed(xs[from + i], from + i)
    decreases |xs| - from
  {
    if from == |xs| then [] else [Keyed(xs[from], from)] + KeyedFrom(xs, from + 1)
  }

  /** `sorted(range(len(xs)), key=lambda i: xs[i])`. */
  function Order(xs: seq<real>): seq<Keyed> {
    Sort(KeyedLe, KeyedFrom(xs, 0))
  }

  function Count(p: real -> bool, s: seq<Keyed>): nat {
    if s == [] then 0 else (if p(s[0].x) then 1 else 0) + Count(p, s[1..])
  }

  function CountLess(xs: seq<real>, v: real): nat {
    Count((x: real) => x < v, KeyedFrom(xs, 0))
  }

  function CountEqual(xs: seq<real>, v: real): nat {
    Count((x: real) => x == v, KeyedFrom(xs, 0))
  }

  /** The average of the positions that `v` and its ties take in sorted order, counted from 1. */
  function Rank(xs: seq<real>, v: real): real {
    CountLess(xs, v) as real + (CountEqual(xs, v) as real + 1.0) / 2.0
  }

  lemma {:induction false} CountConcat(p: real -> bool, a: seq<Keyed>, b: seq<Keyed>)
    ensures Count(p, a + b) == Count(p, a) + Count(p, b)
  {
    if a == [] {
      assert a + b == b;
    } else {
      assert (a + b)[1..] == a[1..] + b;
      CountConcat(p, a[1..], b);
    }
  }

  lemma {:induction false} CountUniform(p: real -> bool, s: seq<Keyed>, all: bool)
    requires forall i :: 0 <= i < |s| ==> p(s[i].x) == all
    ensures Count(p, s) == if all then |s| else 0
  {
    if s != [] { CountUniform(p, s[1..], all); }
  }

  lemma {:induction false} CountSorted(p: real -> bool, s: seq<Keyed>)
    ensures Count(p, Sort(KeyedLe, s)) == Count(p, s)
  {
    if s != [] {
      CountSorted(p, s[1..]);
      CountInserted(p, s[0], Sort(KeyedLe, s[1..]));
    }
  }

  lemma {:induction false} CountInserted(p: real -> bool, x: Keyed, s: seq<Keyed>)
    ensures Count(p, Insert(KeyedLe, x, s)) == Count(p, [x]) + Count(p, s)
  {
    if s == [] || KeyedLe(x, s[0]) {
      CountConcat(p, [x], s);
      assert [x] + s == if s == [] then [x] else [x] + s;
    } else {
      CountInserted(p, x, s[1..]);
      CountConcat(p, [s[0]], Insert(KeyedLe, x, s[1..]));
      CountConcat(p, [s[0]], s[1..]);
      assert s == [s[0]] + s[1..];
    }
  }

  /** A predicate that is constant before, within and after a block counts whole pieces. */
  lemma CountBlocks(p: real -> bool, s: seq<Keyed>, i: nat, j: nat, before: bool, within: bool)
    requires i <= j <= |s|
    requires forall k :: 0 <= k < i ==> p(s[k].x) == before
    requires forall k :: i <= k < j ==> p(s[k].x) == within
    requires forall k :: j <= k < |s| ==> !p(s[k].x)
    ensures Count(p, s) == (if before then i else 0) + (if within then j - i else 0)
  {
    assert s == s[..i] + (s[i..j] + s[j..]);
    CountConcat(p, s[..i], s[i..j] + s[j..]);
    CountConcat(p, s[i..j], s[j..]);
    CountUniform(p, s[..i], before);
    CountUniform(p, s[i..j], within);
    CountUniform(p, s[j..], false);
  }

  /** Positions `i` to `j` of the sorted sequence `s` are one maximal run of ties. */
  ghost predicate TieBlock(s: seq<Keyed>, i: nat, j: nat) {
    && i <= j < |s|
    && (forall k :: i <= k <= j ==> s[k].x == s[i].x)
    && (i > 0 ==> s[i - 1].x < s[i].x)
    && (j + 1 < |s| ==> s[j + 1].x != s[i].x)
  }

  lemma AroundBlock(s: seq<Keyed>, i: nat, j: nat)
    requires Sorted(KeyedLe, s) && TieBlock(s, i, j)
    ensures forall k :: 0 <= k < i ==> s[k].x < s[i].x
    ensures forall k :: j < k < |s| ==> s[i].x < s[k].x
  {
    forall k | 0 <= k < i ensures s[k].x < s[i].x {
      if k < i - 1 { assert KeyedLe(s[k], s[i - 1]); }
    }
    forall k | j < k < |s| ensures s[i].x < s[k].x {
      assert KeyedLe(s[i], s[j + 1]);
      if j + 1 < k { assert KeyedLe(s[j + 1], s[k]); }
    }
  }

  /** A tie block from `i` to `j` holds exactly the elements equal to it, `i` elements being smaller. */
  lemma BlockCounts(xs: seq<real>, i: nat, j: nat)
    requires TieBlock(Order(xs), i, j)
    ensures var v := Order(xs)[i].x; CountLess(xs, v) == i && CountEqual(xs, v) == j - i + 1
  {
    var s, t := Order(xs), KeyedFrom(xs, 0);
    var v := s[i].x;
    var less, equal := (x: real) => x < v, (x: real) => x == v;
    SortSorted(KeyedLe, t);
    AroundBlock(s, i, j);
    CountSorted(less, t);
    CountSorted(equal, t);
    CountBlocks(less, s, i, j + 1, true, false);
    CountBlocks(equal, s, i, j + 1, false, true);
  }

  /** Each input position occurs once in sorted order, with its own value. */
  lemma OrderPositions(xs: seq<real>)
    ensures var s := Order(xs);
            && |s| == |xs|
            && (forall k :: 0 <= k < |s| ==> s[k].index < |xs| && s[k].x == xs[s[k].index])
            && (forall k, l :: 0 <= k < l < |s| ==> s[k].index != s[l].index)
            && (forall i :: 0 <= i < |xs| ==> Keyed(xs[i], i) in s)
  {
    var t, s := KeyedFrom(xs, 0), Order(xs);
    forall k | 0 <= k < |s| ensures s[k] in t { SameElements(s, t, s[k]); }
    forall i | 0 <= i < |xs| ensures Keyed(xs[i], i) in s { assert t[i] in t; SameElements(t, s, t[i]); }
    forall k, l | 0 <= k < l < |s| ensures s[k].index != s[l].index {
      if s[k].index == s[l].index {
        assert s[k] == s[l];
        Twice(s, k, l);
        AtMostOnce(xs, 0, s[k]);
      }
    }
  }

  lemma {:induction false} AtMostOnce(xs: seq<real>, from: nat, e: Keyed)
    requires from <= |xs|
    ensures multiset(KeyedFrom(xs, from))[e] <= 1
    decreases |xs| - from
  {
    if from < |xs| {
      AtMostOnce(xs, from + 1, e);
      assert e.index == from ==> e !in KeyedFrom(xs, from + 1);
    }
  }

  method AvgRanks(xs: seq<real>) returns (ranks: array<real>)
    ensures fresh(ranks) && ranks.Length == |xs|
    ensures forall i :: 0 <= i < |xs| ==> ranks[i] == Rank(xs, xs[i])
  {
    hide Rank, CountLess, CountEqual, Count, Sort, KeyedFrom, Order;
    var order := Order(xs);
    OrderPositions(xs);
    OrderSorted(xs);
    ranks := new real[|xs|](_ => 0.0);
    var i := 0;
    while i < |order|
      invariant 0 <= i <= |order|
      invariant 0 < i < |order| ==> order[i - 1].x < order[i].x
      invariant forall k :: 0 <= k < i ==> ranks[order[k].index] == Rank(xs, order[k].x)
    {
      var j := i;
      while j + 1 < |order| && order[j + 1].x == order[i].x
        invariant i <= j < |order|
        invariant forall k :: i <= k <= j ==> order[k].x == order[i].x
      {
        j := j + 1;
      }
      var avg := (i + j) as real / 2.0 + 1.0;
      BlockRank(xs, i, j);
      for k := i to j + 1
        invariant forall l :: 0 <= l < k ==> ranks[order[l].index] == Rank(xs, order[l].x)
      {
        ranks[order[k].index] := avg;
      }
      i := j + 1;
    }
    forall l | 0 <= l < |xs|
      ensures ranks[l] == Rank(xs, xs[l])
    {
      var k :| 0 <= k < |order| && order[k] == Keyed(xs[l], l);
    }
  }

  lemma BlockRank(xs: seq<real>, i: nat, j: nat)
    requires TieBlock(Order(xs), i, j)
    ensures Rank(xs, Order(xs)[i].x) == (i + j) as real / 2.0 + 1.0
  {
    BlockCounts(xs, i, j);
  }

  lemma OrderSorted(xs: seq<real>)
    ensures forall k :: 0 < k < |Order(xs)| ==> Order(xs)[k - 1].x <= Order(xs)[k].x
  {
    SortSorted(KeyedLe, KeyedFrom(xs, 0));
    forall k | 0 < k < |Order(xs)| ensures KeyedLe(Order(xs)[k - 1], Order(xs)[k]) {}
  }

  // ----- ranks add up --------------------------------------------------------------------------

  function Sum(vs: seq<real>): real {
    if vs == [] then 0.0 else vs[0] + Sum(vs[1..])
  }

  /** The ranks of `vs` within the sample `xs`. */
  function RanksOf(xs: seq<real>, vs: seq<real>): (r: seq<real>)
    ensures |r| == |vs|
    ensures forall i :: 0 <= i < |vs| ==> r[i] == Rank(xs, vs[i])
  {
    if vs == [] then [] else [Rank(xs, vs[0])] + RanksOf(xs, vs[1..])
  }

  /** How much a sample element `x` contributes to the rank of `v`. */
  function Share(x: real, v: real): real {
    if x < v then 1.0 else if x == v then 0.5 else 0.0
  }

  function Shares(xs: seq<real>, v: real): real {
    if xs == [] then 0.0 else Share(xs[0], v) + Shares(xs[1..], v)
  }

  lemma {:induction false} RankIsShares(xs: seq<real>, v: real)
    ensures Rank(xs, v) == Shares(xs, v) + 0.5
  {
    CountsAreShares(xs, v, 0);
    assert xs[0..] == xs;
  }

  lemma {:induction false} CountsAreShares(xs: seq<real>, v: real, from: nat)
    requires from <= |xs|
    ensures Count((x: real) => x < v, KeyedFrom(xs, from)) as real
            + Count((x: real) => x == v, KeyedFrom(xs, from)) as real / 2.0 == Shares(xs[from..], v)
    decreases |xs| - from
  {
    if from < |xs| {
      CountsAreShares(xs, v, from + 1);
      assert KeyedFrom(xs, from)[1..] == KeyedFrom(xs, from + 1);
      assert xs[from..][1..] == xs[from + 1..];
    }
  }

  /** All shares of `xs` in all elements of `vs`. */
  function Table(xs: seq<real>, vs: seq<real>): real {
    if vs == [] then 0.0 else Shares(xs, vs[0]) + Table(xs, vs[1..])
  }

  lemma {:induction false} TableCons(x: real, xs: seq<real>, vs: seq<real>)
    ensures Table([x] + xs, vs) == Table([x], vs) + Table(xs, vs)
  {
    if vs != [] {
      TableCons(x, xs, vs[1..]);
      assert ([x] + xs)[1..] == xs && [x][1..] == [];
      assert Shares([x], vs[0]) == Share(x, vs[0]) + Shares([], vs[0]);
    }
  }

  /** Of two elements one is below the other or they share: a row and a column make up one per element. */
  lemma {:induction false} RowAndColumn(x: real, vs: seq<real>)
    ensures Shares(vs, x) + Table([x], vs) == |vs| as real
  {
    if vs != [] {
      RowAndColumn(x, vs[1..]);
      assert [x][1..] == [];
      assert Shares([x], vs[0]) == Share(x, vs[0]) + Shares([], vs[0]);
    }
  }

  lemma {:induction false} TableTotal(xs: seq<real>)
    ensures Table(xs, xs) == |xs| as real * |xs| as real / 2.0
  {
    if xs != [] {
      var x, rest := xs[0], xs[1..];
      assert xs == [x] + rest;
      TableTotal(rest);
      TableCons(x, rest, rest);
      RowAndColumn(x, rest);
      var n := |rest| as real;
      assert (n + 1.0) * (n + 1.0) == n * n + 2.0 * n + 1.0;
    }
  }

  lemma {:induction false} SumOfRanks(xs: seq<real>, vs: seq<real>)
    ensures Sum(RanksOf(xs, vs)) == Table(xs, vs) + |vs| as real / 2.0
  {
    if vs != [] {
      RankIsShares(xs, vs[0]);
      SumOfRanks(xs, vs[1..]);
      assert RanksOf(xs, vs)[1..] == RanksOf(xs, vs[1..]);
    }
  }

  /** Ties never change the total: the ranks always sum to n (n + 1) / 2. */
  lemma RanksSumTotal(xs: seq<real>)
    ensures Sum(RanksOf(xs, xs)) == |xs| as real * (|xs| as real + 1.0) / 2.0
  {
    SumOfRanks(xs, xs);
    TableTotal(xs);
    var n := |xs| as real;
    assert n * (n + 1.0) == n * n + n;
  }

  /** Rank order is value order. */
  lemma {:induction false} RankMonotone(xs: seq<real>, i: nat, j: nat)
    requires i < |xs| && j < |xs|
    ensures xs[i] < xs[j] <==> Rank(xs, xs[i]) < Rank(xs, xs[j])
  {
    RankIsShares(xs, xs[i]);
    RankIsShares(xs, xs[j]);
    if xs[i] < xs[j] { SharesGrow(xs, i, xs[i], xs[j]); }
    if xs[j] < xs[i] { SharesGrow(xs, j, xs[j], xs[i]); }
  }

  lemma {:induction false} SharesGrow(xs: seq<real>, i: nat, v: real, w: real)
    requires v < w
    ensures Shares(xs, v) <= Shares(xs, w)
    ensures i < |xs| && xs[i] == v ==> Shares(xs, v) < Shares(xs, w)
  {
    if xs != [] { SharesGrow(xs[1..], if i > 0 then i - 1 else |xs|, v, w); }
  }

  // ----- Spearman's coefficient ----------------------------------------------------------------

  /** The sum of products over `zip`, which stops at the shorter list. */
  function Dot(a: seq<real>, b: seq<real>): real {
    if a == [] || b == [] then 0.0 else a[0] * b[0] + Dot(a[1..], b[1..])
  }

  function Centred(vs: seq<real>, mean: real): (r: seq<real>)
    ensures |r| == |vs|
    ensures forall i :: 0 <= i < |vs| ==> r[i] == vs[i] - mean
  {
    if vs == [] then [] else [vs[0] - mean] + Centred(vs[1..], mean)
  }

  /** The value `num / (sqrt(sx) * sqrt(sy))` before rounding; the mean of an empty second sample raises an error. */
  datatype Coefficient = Undefined | DivisionByZero | Ratio(num: real, sx: real, sy: real)

  function Mean(vs: seq<real>): real
    requires vs != []
  {
    Sum(vs) / |vs| as real
  }

  function Deviations(xs: seq<real>): seq<real>
    requires xs != []
  {
    Centred(RanksOf(xs, xs), Mean(RanksOf(xs, xs)))
  }

  function SpearmanOf(xs: seq<real>, ys: seq<real>): Coefficient {
    if |xs| < 2 then Undefined
    else if ys == [] then DivisionByZero
    else
      var dx, dy := Deviations(xs), Deviations(ys);
      if Dot(dx, dx) == 0.0 || Dot(dy, dy) == 0.0 then Undefined
      else Ratio(Dot(dx, dy), Dot(dx, dx), Dot(dy, dy))
  }

  method Spearman(xs: seq<real>, ys: seq<real>) returns (c: Coefficient)
    ensures c == SpearmanOf(xs, ys)
  {
    if |xs| < 2 { return Undefined; }
    var rx := AvgRanks(xs);
    var ry := AvgRanks(ys);
    assert rx[..] == RanksOf(xs, xs);
    assert ry[..] == RanksOf(ys, ys);
    if ry.Length == 0 { return DivisionByZero; }
    var mx, my := Sum(rx[..]) / rx.Length as real, Sum(ry[..]) / ry.Length as real;
    var dx, dy := Centred(rx[..], mx), Centred(ry[..], my);
    var num, sx, sy := Dot(dx, dy), Dot(dx, dx), Dot(dy, dy);
    c := if sx != 0.0 && sy != 0.0 then Ratio(num, sx, sy) else Undefined;
  }

  predicate AllZero(d: seq<real>) {
    forall i :: 0 <= i < |d| ==> d[i] == 0.0
  }

  lemma Square(x: real)
    ensures x * x >= 0.0
    ensures x * x == 0.0 <==> x == 0.0
  {
    if x > 0.0 { SquareGrows(0.0, x); }
    if x < 0.0 {
      SquareGrows(0.0, -x);
      assert (-x) * (-x) == x * x;
    }
  }

  lemma SquareGrows(a: real, b: real)
    requires 0.0 <= a < b
    ensures a * a < b * b
  {
    ProductPositive(b - a, b + a);
    assert (b - a) * (b + a) == b * b - a * a;
  }

  lemma {:induction false} SquareNonnegative(a: seq<real>)
    ensures Dot(a, a) >= 0.0
    ensures Dot(a, a) == 0.0 <==> AllZero(a)
  {
    if a != [] {
      SquareNonnegative(a[1..]);
      Square(a[0]);
      if AllZero(a[1..]) {
        forall i | 1 <= i < |a| ensures a[i] == 0.0 { assert a[i] == a[1..][i - 1]; }
      }
    }
  }

  /** The square of `a + t b`, expanded, in terms of the three products of `a` and `b`. */
  function Quadratic(aa: real, ab: real, bb: real, t: real): real {
    aa + 2.0 * t * ab + t * t * bb
  }

  lemma {:induction false} QuadraticNonnegative(a: seq<real>, b: seq<real>, t: real)
    ensures Quadratic(Dot(a, a), Dot(a, b), Dot(b, b), t) >= 0.0
  {
    hide Quadratic;
    if a == [] || b == [] {
      SquareNonnegative(a);
      SquareNonnegative(b);
      assert Dot(a, b) == 0.0;
      QuadraticBase(Dot(a, a), Dot(b, b), t);
    } else {
      QuadraticNonnegative(a[1..], b[1..], t);
      QuadraticStep(a[0], b[0], t, Dot(a[1..], a[1..]), Dot(a[1..], b[1..]), Dot(b[1..], b[1..]), Dot(a, a), Dot(a, b), Dot(b, b));
    }
  }

  lemma QuadraticBase(aa: real, bb: real, t: real)
    requires aa >= 0.0 && bb >= 0.0
    ensures Quadratic(aa, 0.0, bb, t) >= 0.0
  {
    Square(t);
    ProductNonnegative(t * t, bb);
  }

  lemma QuadraticStep(x: real, y: real, t: real, aa: real, ab: real, bb: real, xx: real, xy: real, yy: real)
    requires Quadratic(aa, ab, bb, t) >= 0.0 && xx == x * x + aa && xy == x * y + ab && yy == y * y + bb
    ensures Quadratic(xx, xy, yy, t) >= 0.0
  {
    Square(x + t * y);
    ExpandSquare(x, y, t);
    Distribute(2.0 * t, x * y, ab);
    Distribute(t * t, y * y, bb);
    assert 2.0 * t * xy == 2.0 * t * (x * y) + 2.0 * t * ab;
    assert t * t * yy == t * t * (y * y) + t * t * bb;
  }

  lemma ExpandSquare(x: real, y: real, t: real)
    ensures (x + t * y) * (x + t * y) == x * x + 2.0 * t * (x * y) + t * t * (y * y)
  {
  }

  lemma Distribute(k: real, u: real, v: real)
    ensures k * (u + v) == k * u + k * v
  {
  }

  lemma {:induction false} DotZero(a: seq<real>, b: seq<real>)
    requires AllZero(b)
    ensures Dot(a, b) == 0.0
  {
    if a != [] && b != [] { DotZero(a[1..], b[1..]); }
  }

  /** Also for lists of different lengths: only the shorter enters the product, all of both the norms. */
  lemma CauchySchwarz(a: seq<real>, b: seq<real>)
    ensures Dot(a, b) * Dot(a, b) <= Dot(a, a) * Dot(b, b)
  {
    hide Quadratic;
    var aa, ab, bb := Dot(a, a), Dot(a, b), Dot(b, b);
    SquareNonnegative(b);
    if bb == 0.0 {
      DotZero(a, b);
    } else {
      var t := Quotient(-ab, bb);
      QuadraticNonnegative(a, b, t);
      Complete(aa, ab, bb, t);
    }
  }

  lemma Quotient(n: real, d: real) returns (q: real)
    requires d != 0.0
    ensures q * d == n
  {
    q := n / d;
  }

  lemma Complete(aa: real, ab: real, bb: real, t: real)
    requires bb > 0.0 && t * bb == -ab && Quadratic(aa, ab, bb, t) >= 0.0
    ensures ab * ab <= aa * bb
  {
    assert t * t * bb == t * (t * bb) == -(t * ab);
    assert aa + t * ab >= 0.0;
    assert (aa + t * ab) * bb >= 0.0;
    assert (aa + t * ab) * bb == aa * bb + (t * bb) * ab;
  }

  /** The unrounded coefficient lies between -1 and 1. */
  lemma CoefficientBounded(xs: seq<real>, ys: seq<real>, dx: real, dy: real)
    requires SpearmanOf(xs, ys).Ratio?
    requires dx >= 0.0 && dy >= 0.0
    requires dx * dx == SpearmanOf(xs, ys).sx && dy * dy == SpearmanOf(xs, ys).sy
    ensures dx * dy > 0.0
    ensures -1.0 <= SpearmanOf(xs, ys).num / (dx * dy) <= 1.0
  {
    hide SpearmanOf;
    RatioBounded(xs, ys);
    DivideByRoots(SpearmanOf(xs, ys).num, SpearmanOf(xs, ys).sx, SpearmanOf(xs, ys).sy, dx, dy);
  }

  /** The numerator squared never exceeds the product of the squared norms. */
  lemma RatioBounded(xs: seq<real>, ys: seq<real>)
    requires SpearmanOf(xs, ys).Ratio?
    ensures var c := SpearmanOf(xs, ys); c.sx != 0.0 && c.sy != 0.0 && c.num * c.num <= c.sx * c.sy
  {
    hide SpearmanOf;
    RatioParts(xs, ys);
    CauchySchwarz(Deviations(xs), Deviations(ys));
  }

  lemma RatioParts(xs: seq<real>, ys: seq<real>)
    requires SpearmanOf(xs, ys).Ratio?
    ensures var c, dx, dy := SpearmanOf(xs, ys), Deviations(xs), Deviations(ys);
            c.num == Dot(dx, dy) && c.sx == Dot(dx, dx) && c.sy == Dot(dy, dy) && c.sx != 0.0 && c.sy != 0.0
  {
  }

  lemma DivideByRoots(num: real, sx: real, sy: real, dx: real, dy: real)
    requires sx != 0.0 && sy != 0.0 && num * num <= sx * sy
    requires dx >= 0.0 && dy >= 0.0 && dx * dx == sx && dy * dy == sy
    ensures dx * dy > 0.0 && -1.0 <= num / (dx * dy) <= 1.0
  {
    Square(dx);
    Square(dy);
    var d := dx * dy;
    ProductPositive(dx, dy);
    ProductSquare(dx, dy);
    if num > d { SquareGrows(d, num); }
    if -num > d { SquareGrows(d, -num); }
    QuotientBounded(num, d);
  }

  lemma ProductNonnegative(a: real, b: real)
    requires a >= 0.0 && b >= 0.0
    ensures a * b >= 0.0
  {
  }

  lemma ProductPositive(a: real, b: real)
    requires a > 0.0 && b > 0.0
    ensures a * b > 0.0
  {
  }

  lemma ProductSquare(a: real, b: real)
    ensures (a * b) * (a * b) == (a * a) * (b * b)
  {
  }

  lemma QuotientBounded(num: real, d: real)
    requires d > 0.0 && -d <= num <= d
    ensures -1.0 <= num / d <= 1.0
  {
  }

  /** There is no coefficient exactly when a sample is too small or constant, and an error for no second sample. */
  lemma UndefinedExactlyWhenConstant(xs: seq<real>, ys: seq<real>)
    ensures SpearmanOf(xs, ys).DivisionByZero? <==> |xs| >= 2 && ys == []
    ensures SpearmanOf(xs, ys).Undefined? <==> |xs| < 2 || (ys != [] && (Constant(xs) || Constant(ys)))
  {
    if |xs| >= 2 && ys != [] {
      NoDeviationExactlyWhenConstant(xs);
      NoDeviationExactlyWhenConstant(ys);
    }
  }

  predicate Constant(xs: seq<real>) {
    forall i, j :: 0 <= i < |xs| && 0 <= j < |xs| ==> xs[i] == xs[j]
  }

  lemma NoDeviationExactlyWhenConstant(xs: seq<real>)
    requires xs != []
    ensures Dot(Deviations(xs), Deviations(xs)) == 0.0 <==> Constant(xs)
  {
    SquareNonnegative(Deviations(xs));
    if Constant(xs) { ConstantDeviatesNowhere(xs); }
    if AllZero(Deviations(xs)) { NoDeviationConstant(xs); }
  }

  lemma ConstantDeviatesNowhere(xs: seq<real>)
    requires xs != [] && Constant(xs)
    ensures AllZero(Deviations(xs))
  {
    var r := RanksOf(xs, xs);
    assert forall i :: 0 <= i < |r| ==> r[i] == r[0];
    ConstantSum(r, r[0]);
    MeanOfEqual(Sum(r), r[0], |r|);
    assert Mean(r) == r[0];
  }

  lemma MeanOfEqual(total: real, v: real, n: nat)
    requires n > 0 && total == n as real * v
    ensures total / n as real == v
  {
  }

  lemma NoDeviationConstant(xs: seq<real>)
    requires xs != [] && AllZero(Deviations(xs))
    ensures Constant(xs)
  {
    var d := Deviations(xs);
    forall i, j | 0 <= i < |xs| && 0 <= j < |xs|
      ensures xs[i] == xs[j]
    {
      assert d[i] == 0.0 && d[j] == 0.0;
      RankMonotone(xs, i, j);
      RankMonotone(xs, j, i);
    }
  }

  lemma {:induction false} ConstantSum(vs: seq<real>, v: real)
    requires forall i :: 0 <= i < |vs| ==> vs[i] == v
    ensures Sum(vs) == |vs| as real * v
  {
    if vs != [] { ConstantSum(vs[1..], v); }
  }

  /** Samples in the same order have the coefficient 1, whatever their values. */
  lemma SameOrderSameRanks(xs: seq<real>, ys: seq<real>)
    requires |xs| == |ys| && SpearmanOf(xs, ys).Ratio?
    requires forall i, j :: 0 <= i < |xs| && 0 <= j < |xs| ==> (xs[i] < xs[j] <==> ys[i] < ys[j])
    ensures var c := SpearmanOf(xs, ys); c.num == c.sx == c.sy
  {
    forall i | 0 <= i < |xs|
      ensures Rank(xs, xs[i]) == Rank(ys, ys[i])
    {
      RankIsShares(xs, xs[i]);
      RankIsShares(ys, ys[i]);
      SharesAlike(xs, ys, xs[i], ys[i], i);
    }
    assert RanksOf(xs, xs) == RanksOf(ys, ys);
  }

  lemma {:induction false} SharesAlike(xs: seq<real>, ys: seq<real>, v: real, w: real, i: nat)
    requires |xs| == |ys|
    requires forall j :: 0 <= j < |xs| ==> (xs[j] < v <==> ys[j] < w) && (v < xs[j] <==> w < ys[j])
    ensures Shares(xs, v) == Shares(ys, w)
  {
    if xs != [] { SharesAlike(xs[1..], ys[1..], v, w, i); }
  }
}
