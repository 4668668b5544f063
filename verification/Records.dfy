/**
 JSON objects with a fixed list of fields, written in ascending key order: `sort_keys=True` leaves them as they
 are, so their canonical text determines every field. Also the order of Python tuples of strings.
 */
module Records {
  import opened Sorting
  import opened JsonText
  import opened Canonical

  predicate TextLt(a: Text, b: Text) { TextLe(a, b) && a != b }

  predicate Ascending(keys: seq<Text>) {
    forall i :: 0 <= i < |keys| - 1 ==> TextLt(keys[i], keys[i + 1])
  }

  /** The constants `a` and `b` first differ at `n`, where `a` has the smaller character. */
  lemma {:induction false} LessAt(a: Text, b: Text, n: nat)
    requires n < |a| && n < |b| && a[..n] == b[..n] && a[n] < b[n]
    ensures TextLt(a, b)
    decreases n
  {
    if n > 0 {
      assert a[0] == a[..n][0] == b[..n][0] == b[0];
      assert a[1..][..n - 1] == a[..n][1..] && b[1..][..n - 1] == b[..n][1..];
      LessAt(a[1..], b[1..], n - 1);
    }
  }

  lemma {:induction false} AscendingPairs(keys: seq<Text>, i: nat, j: nat)
    requires Ascending(keys) && i < j < |keys|
    ensures TextLt(keys[i], keys[j])
    decreases j
  {
    if i < j - 1 {
      AscendingPairs(keys, i, j - 1);
      TextTransitive(keys[i], keys[j - 1], keys[j]);
      if keys[i] == keys[j] { TextAntisymmetric(keys[j - 1], keys[j]); }
    }
  }

  /** The fields of an object. */
  function Zip(keys: seq<Text>, values: seq<Json>): (r: seq<Field>)
    requires |keys| == |values|
    ensures |r| == |keys|
    ensures forall i :: 0 <= i < |r| ==> r[i] == Field(keys[i], values[i])
  {
    seq(|keys|, i requires 0 <= i < |keys| => Field(keys[i], values[i]))
  }

  /** Canonical printing needs no reordering inside `v`. */
  predicate Tidy(v: Json) {
    Proper(v) && SortKeys(v) == v
  }

  predicate AllTidy(vs: seq<Json>) {
    forall i :: 0 <= i < |vs| ==> Tidy(vs[i])
  }

  lemma TidyRecord(keys: seq<Text>, values: seq<Json>)
    requires |keys| == |values| && Ascending(keys) && AllTidy(values)
    ensures Tidy(Obj(Zip(keys, values)))
  {
    var fields := Zip(keys, values);
    forall i, j | 0 <= i < j < |fields|
      ensures fields[i].key != fields[j].key && FieldLe(fields[i], fields[j])
    {
      AscendingPairs(keys, i, j);
    }
    SortsToItself(fields);
  }

  lemma SortsToItself(fields: seq<Field>)
    requires Sorted(FieldLe, fields) && forall i :: 0 <= i < |fields| ==> SortKeys(fields[i].value) == fields[i].value
    ensures SortKeys(Obj(fields)) == Obj(fields)
  {
    hide Sort;
    assert SortValues(fields) == fields;
    FieldOrder();
    SortFixesSorted(FieldLe, fields);
  }

  lemma TidyArray(items: seq<Json>)
    requires AllTidy(items)
    ensures Tidy(Arr(items))
  {
    assert SortItems(items) == items;
  }

  lemma RecordInjective(keys: seq<Text>, vs: seq<Json>, ws: seq<Json>)
    requires |keys| == |vs| == |ws| && Zip(keys, vs) == Zip(keys, ws)
    ensures vs == ws
  {
    forall i | 0 <= i < |vs| ensures vs[i] == ws[i] {
      assert Zip(keys, vs)[i].value == Zip(keys, ws)[i].value;
    }
  }

  /** `stable_json` */
  function StableText(v: Json): Text { Print(SortKeys(v)) }

  lemma StableTextInjective(v: Json, w: Json)
    requires Tidy(v) && Tidy(w) && StableText(v) == StableText(w)
    ensures v == w
  {
    PrintInjective(v, w);
  }

  // ----- tuples of strings ---------------------------------------------------------------------

  predicate TupleLe(a: seq<Text>, b: seq<Text>) {
    a == [] || (b != [] && (if a[0] == b[0] then TupleLe(a[1..], b[1..]) else TextLe(a[0], b[0])))
  }

  lemma {:induction false} TupleTotal(a: seq<Text>, b: seq<Text>)
    ensures TupleLe(a, b) || TupleLe(b, a)
  {
    if a != [] && b != [] {
      if a[0] == b[0] { TupleTotal(a[1..], b[1..]); } else { TextTotal(a[0], b[0]); }
    }
  }

  lemma {:induction false} TupleTransitive(a: seq<Text>, b: seq<Text>, c: seq<Text>)
    requires TupleLe(a, b) && TupleLe(b, c)
    ensures TupleLe(a, c)
  {
    if a != [] {
      if a[0] == b[0] == c[0] {
        TupleTransitive(a[1..], b[1..], c[1..]);
      } else {
        assert TextLe(a[0], b[0]) && TextLe(b[0], c[0]) by { TextTotal(a[0], a[0]); TextTotal(b[0], b[0]); }
        TextTransitive(a[0], b[0], c[0]);
        if a[0] == c[0] { TextAntisymmetric(a[0], b[0]); }
      }
    }
  }

  lemma {:induction false} TupleAntisymmetric(a: seq<Text>, b: seq<Text>)
    requires TupleLe(a, b) && TupleLe(b, a)
    ensures a == b
  {
    if a != [] {
      if a[0] == b[0] {
        TupleAntisymmetric(a[1..], b[1..]);
        assert a == [a[0]] + a[1..] && b == [b[0]] + b[1..];
      } else {
        TextAntisymmetric(a[0], b[0]);
      }
    }
  }

  // ----- sorting by a key ----------------------------------------------------------------------

  /** `sort(key=...)` with a tuple of strings as key. */
  function ByKey<A>(key: A -> seq<Text>): (A, A) -> bool { (x: A, y: A) => TupleLe(key(x), key(y)) }

  lemma ByKeyTotal<A(!new)>(key: A -> seq<Text>)
    ensures TotalOrder(ByKey(key))
  {
    forall a, b ensures ByKey(key)(a, b) || ByKey(key)(b, a) { TupleTotal(key(a), key(b)); }
    forall a, b, c | ByKey(key)(a, b) && ByKey(key)(b, c) ensures ByKey(key)(a, c) {
      TupleTransitive(key(a), key(b), key(c));
    }
  }

  ghost predicate Separates<A(!new)>(key: A -> seq<Text>) {
    forall a, b :: key(a) == key(b) ==> a == b
  }

  lemma SeparatingKeyHasNoTies<A(!new)>(key: A -> seq<Text>, xs: seq<A>)
    requires Separates(key)
    ensures NoTies(ByKey(key), xs)
  {
    forall a, b | a in xs && b in xs && ByKey(key)(a, b) && ByKey(key)(b, a) ensures a == b {
      TupleAntisymmetric(key(a), key(b));
    }
  }

  /** Sorting by a separating key forgets the order of its input, and is idempotent. */
  lemma SortByKey<A(!new)>(key: A -> seq<Text>, xs: seq<A>, ys: seq<A>)
    requires Separates(key) && multiset(xs) == multiset(ys)
    ensures Sort(ByKey(key), xs) == Sort(ByKey(key), ys)
    ensures Sort(ByKey(key), Sort(ByKey(key), xs)) == Sort(ByKey(key), xs)
  {
    ByKeyTotal(key);
    SeparatingKeyHasNoTies(key, xs);
    SortPermutation(ByKey(key), xs, ys);
    SortSorted(ByKey(key), xs);
    SortFixesSorted(ByKey(key), Sort(ByKey(key), xs));
  }
}
