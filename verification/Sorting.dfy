/** Stable sorting by a total order, as Python's `sorted` does, and the uniqueness of its result. */
module Sorting {

  ghost predicate TotalOrder<T(!new)>(le: (T, T) -> bool) {
    && (forall a, b :: le(a, b) || le(b, a))
    && (forall a, b, c :: le(a, b) && le(b, c) ==> le(a, c))
  }

  /** Ties within `xs` are identical elements. */
  ghost predicate NoTies<T>(le: (T, T) -> bool, xs: seq<T>) {
    forall a, b :: a in xs && b in xs && le(a, b) && le(b, a) ==> a == b
  }

  predicate Sorted<T>(le: (T, T) -> bool, xs: seq<T>) {
    forall i, j :: 0 <= i < j < |xs| ==> le(xs[i], xs[j])
  }

  function Insert<T>(le: (T, T) -> bool, x: T, xs: seq<T>): (r: seq<T>)
    ensures multiset(r) == multiset(xs) + multiset{x}
    ensures |r| == |xs| + 1
  {
    if xs == [] then [x]
    else if le(x, xs[0]) then [x] + xs
    else
      assert xs == [xs[0]] + xs[1..];
      [xs[0]] + Insert(le, x, xs[1..])
  }

  function Sort<T>(le: (T, T) -> bool, xs: seq<T>): (r: seq<T>)
    ensures multiset(r) == multiset(xs)
    ensures |r| == |xs|
  {
    if xs == [] then []
    else
      assert xs == [xs[0]] + xs[1..];
      Insert(le, xs[0], Sort(le, xs[1..]))
  }

  /** `sorted(xs)` as a predicate on the Python side: the list already equals its sorted self. */
  lemma {:induction false} SortSorted<T(!new)>(le: (T, T) -> bool, xs: seq<T>)
    requires TotalOrder(le)
    ensures Sorted(le, Sort(le, xs))
  {
    if xs != [] {
      SortSorted(le, xs[1..]);
      InsertSorted(le, xs[0], Sort(le, xs[1..]));
    }
  }

  lemma {:induction false} InsertSorted<T(!new)>(le: (T, T) -> bool, x: T, xs: seq<T>)
    requires TotalOrder(le) && Sorted(le, xs)
    ensures Sorted(le, Insert(le, x, xs))
  {
    if xs != [] && !le(x, xs[0]) {
      var rest := Insert(le, x, xs[1..]);
      InsertSorted(le, x, xs[1..]);
      forall i | 0 <= i < |rest|
        ensures le(xs[0], rest[i])
      {
        assert rest[i] in multiset(rest);
        assert rest[i] in multiset(xs[1..]) + multiset{x};
      }
    }
  }

  lemma {:induction false} SortFixesSorted<T(!new)>(le: (T, T) -> bool, xs: seq<T>)
    requires TotalOrder(le) && Sorted(le, xs)
    ensures Sort(le, xs) == xs
  {
    if xs != [] {
      SortFixesSorted(le, xs[1..]);
    }
  }

  lemma HeadIsLeast<T(!new)>(le: (T, T) -> bool, xs: seq<T>, y: T)
    requires TotalOrder(le) && Sorted(le, xs) && y in xs
    ensures le(xs[0], y)
  {
    assert le(xs[0], xs[0]);
  }

  lemma SameElements<T>(xs: seq<T>, ys: seq<T>, x: T)
    requires multiset(xs) == multiset(ys) && x in xs
    ensures x in ys
  {
    assert x in multiset(ys);
  }

  lemma TailMultiset<T>(xs: seq<T>)
    requires xs != []
    ensures multiset(xs[1..]) == multiset(xs) - multiset{xs[0]}
  {
    assert xs == [xs[0]] + xs[1..];
  }

  lemma SameLength<T>(xs: seq<T>, ys: seq<T>)
    requires multiset(xs) == multiset(ys)
    ensures |xs| == |ys|
  {
    assert |multiset(xs)| == |xs| && |multiset(ys)| == |ys|;
  }

  lemma SameHead<T(!new)>(le: (T, T) -> bool, xs: seq<T>, ys: seq<T>)
    requires TotalOrder(le) && NoTies(le, xs) && Sorted(le, xs) && Sorted(le, ys) && multiset(xs) == multiset(ys)
    requires xs != [] && ys != []
    ensures xs[0] == ys[0]
  {
    SameElements(xs, ys, xs[0]);
    SameElements(ys, xs, ys[0]);
    HeadIsLeast(le, xs, ys[0]);
    HeadIsLeast(le, ys, xs[0]);
  }

  lemma TailSorted<T(!new)>(le: (T, T) -> bool, xs: seq<T>)
    requires xs != [] && Sorted(le, xs)
    ensures Sorted(le, xs[1..])
  {
  }

  /** Without ties a multiset has one sorted arrangement. */
  lemma {:induction false} SortedUnique<T(!new)>(le: (T, T) -> bool, xs: seq<T>, ys: seq<T>)
    requires TotalOrder(le) && NoTies(le, xs) && Sorted(le, xs) && Sorted(le, ys) && multiset(xs) == multiset(ys)
    ensures xs == ys
  {
    hide TotalOrder, Sorted;
    SameLength(xs, ys);
    if xs != [] {
      SameHead(le, xs, ys);
      TailMultiset(xs);
      TailMultiset(ys);
      TailSorted(le, xs);
      TailSorted(le, ys);
      assert forall x :: x in xs[1..] ==> x in xs;
      SortedUnique(le, xs[1..], ys[1..]);
      assert xs == [xs[0]] + xs[1..] && ys == [ys[0]] + ys[1..];
    }
  }

  /** Sorting forgets the order of its input. */
  lemma SortPermutation<T(!new)>(le: (T, T) -> bool, xs: seq<T>, ys: seq<T>)
    requires TotalOrder(le) && NoTies(le, xs) && multiset(xs) == multiset(ys)
    ensures Sort(le, xs) == Sort(le, ys)
  {
    SortSorted(le, xs);
    SortSorted(le, ys);
    forall a, b | a in Sort(le, xs) && b in Sort(le, xs) && le(a, b) && le(b, a)
      ensures a == b
    {
      SameElements(Sort(le, xs), xs, a);
      SameElements(Sort(le, xs), xs, b);
    }
    SortedUnique(le, Sort(le, xs), Sort(le, ys));
  }

  // ----- distinctness under permutation --------------------------------------------------------

  ghost predicate DistinctBy<A, B>(f: A -> B, xs: seq<A>) {
    forall i, j :: 0 <= i < j < |xs| ==> f(xs[i]) != f(xs[j])
  }

  lemma DistinctPermuted<A, B>(f: A -> B, xs: seq<A>, ys: seq<A>)
    requires DistinctBy(f, xs) && multiset(xs) == multiset(ys)
    ensures DistinctBy(f, ys)
  {
    forall i, j | 0 <= i < j < |ys| ensures f(ys[i]) != f(ys[j]) {
      SameElements(ys, xs, ys[i]);
      SameElements(ys, xs, ys[j]);
      var k :| 0 <= k < |xs| && xs[k] == ys[i];
      var l :| 0 <= l < |xs| && xs[l] == ys[j];
      if ys[i] == ys[j] {
        Twice(ys, i, j);
        Once(f, xs, k);
      } else {
        assert k != l;
      }
    }
  }

  lemma Twice<A>(ys: seq<A>, i: nat, j: nat)
    requires i < j < |ys| && ys[i] == ys[j]
    ensures multiset(ys)[ys[i]] >= 2
  {
    assert ys == (ys[..i] + [ys[i]]) + (ys[i + 1..j] + ([ys[j]] + ys[j + 1..]));
  }

  lemma Once<A, B>(f: A -> B, xs: seq<A>, k: nat)
    requires k < |xs| && DistinctBy(f, xs)
    ensures multiset(xs)[xs[k]] == 1
  {
    assert xs == (xs[..k] + [xs[k]]) + xs[k + 1..];
    assert xs[k] !in xs[..k] && xs[k] !in xs[k + 1..];
  }

  // ----- the order of Python strings -----------------------------------------------------------

  /** Text as a sequence of code points, surrogates included. */
  type Text = seq<int>

  /** A string constant of the source as code points. */
  function T(s: string): (r: Text)
    ensures |r| == |s|
  {
    seq(|s|, i requires 0 <= i < |s| => s[i] as int)
  }

  /** Python compares strings code point by code point. */
  predicate TextLe(a: Text, b: Text) {
    a == [] || (b != [] && (a[0] < b[0] || (a[0] == b[0] && TextLe(a[1..], b[1..]))))
  }

  lemma TextTotal(a: Text, b: Text)
    ensures TextLe(a, b) || TextLe(b, a)
  {
  }

  lemma {:induction false} TextTransitive(a: Text, b: Text, c: Text)
    requires TextLe(a, b) && TextLe(b, c)
    ensures TextLe(a, c)
  {
    if a != [] && a[0] == b[0] && b[0] == c[0] {
      TextTransitive(a[1..], b[1..], c[1..]);
    }
  }

  lemma {:induction false} TextAntisymmetric(a: Text, b: Text)
    requires TextLe(a, b) && TextLe(b, a)
    ensures a == b
  {
    if a != [] {
      TextAntisymmetric(a[1..], b[1..]);
      assert a == [a[0]] + a[1..] && b == [b[0]] + b[1..];
    }
  }
}
