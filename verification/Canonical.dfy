/**
 Canonical bytes of the canary contracts: `_normalize`, `canonical_bytes`, `parse_json` and the digest
 check of signed records.

 Unicode normalization and SHA-256 are functions handed in by the caller; what is needed of them is
 stated as a hypothesis. UTF-8 is not part of this model, only the size it gives a text.
 */
module Canonical {
  import opened Options
  import opened Sorting
  import opened JsonText
  import W = Worklist

  const MAX_DEPTH := 16
  const MAX_STRING := 4096

  datatype Reason = TooDeep | Scalar | IntegerRange | BadText | TooLong | DuplicateKey | BadJson | TooLarge

  predicate IsControl(c: int) { 0 <= c < 0x20 || 0x7F <= c <= 0x9F }

  predicate IsSurrogate(c: int) { 0xD800 <= c <= 0xDFFF }

  predicate CleanText(s: Text) {
    forall i :: 0 <= i < |s| ==> !IsControl(s[i]) && !IsSurrogate(s[i])
  }

  /** The number of bytes UTF-8 uses for a text. */
  function Utf8Size(s: Text): nat {
    if s == [] then 0
    else (if s[0] < 0x80 then 1 else if s[0] < 0x800 then 2 else if s[0] < 0x1_0000 then 3 else 4) + Utf8Size(s[1..])
  }

  /** What the proofs use of Unicode normalization form C. */
  ghost predicate IsNfc(nfc: Text -> Text) {
    && (forall s :: nfc(nfc(s)) == nfc(s))
    && (forall s :: CleanText(s) ==> CleanText(nfc(s)))
  }

  function NormalizeText(nfc: Text -> Text, s: Text): Result<Text, Reason> {
    if !CleanText(s) then Err(BadText)
    else if Utf8Size(nfc(s)) > MAX_STRING then Err(TooLong)
    else Ok(nfc(s))
  }

  function Normalize(nfc: Text -> Text, v: Json, depth: nat): Result<Json, Reason>
    decreases v, 0
  {
    if depth > MAX_DEPTH then Err(TooDeep)
    else
      match v
      case Null => Ok(Null)
      case Bool(_) => Err(Scalar)
      case Int(n) => if 0 <= n <= W.SAFE_INT then Ok(v) else Err(IntegerRange)
      case Str(s) =>
        (match NormalizeText(nfc, s)
         case Err(e) => Err(e)
         case Ok(t) => Ok(Str(t)))
      case Arr(items) =>
        (match NormalizeItems(nfc, items, depth + 1)
         case Err(e) => Err(e)
         case Ok(ns) => Ok(Arr(ns)))
      case Obj(fields) =>
        (match NormalizeFields(nfc, fields, depth + 1, [])
         case Err(e) => Err(e)
         case Ok(fs) => Ok(Obj(fs)))
  }

  function NormalizeItems(nfc: Text -> Text, items: seq<Json>, depth: nat): Result<seq<Json>, Reason>
    decreases items, 0
  {
    if items == [] then Ok([])
    else
      match Normalize(nfc, items[0], depth)
      case Err(e) => Err(e)
      case Ok(n) =>
        match NormalizeItems(nfc, items[1..], depth)
        case Err(e) => Err(e)
        case Ok(ns) => Ok([n] + ns)
  }

  /** The entries still to come, added one by one to `output`. */
  function NormalizeFields(nfc: Text -> Text, fields: seq<Field>, depth: nat, output: seq<Field>): Result<seq<Field>, Reason>
    decreases fields, 0
  {
    if fields == [] then Ok(output)
    else if depth > MAX_DEPTH then Err(TooDeep)
    else
      match NormalizeText(nfc, fields[0].key)
      case Err(e) => Err(e)
      case Ok(key) =>
        if HasKey(output, key) then Err(DuplicateKey)
        else
          match Normalize(nfc, fields[0].value, depth)
          case Err(e) => Err(e)
          case Ok(n) => NormalizeFields(nfc, fields[1..], depth, output + [Field(key, n)])
  }

  predicate HasKey(fields: seq<Field>, key: Text) {
    exists i :: 0 <= i < |fields| && fields[i].key == key
  }

  // ----- sorted dictionaries -------------------------------------------------------------------

  predicate FieldLe(a: Field, b: Field) { TextLe(a.key, b.key) }

  /** The value that `sort_keys=True` prints. */
  function SortKeys(v: Json): Json
    decreases v, 0
  {
    match v
    case Arr(items) => Arr(SortItems(items))
    case Obj(fields) => Obj(Sort(FieldLe, SortValues(fields)))
    case _ => v
  }

  function SortItems(items: seq<Json>): (r: seq<Json>)
    ensures |r| == |items|
    ensures forall i :: 0 <= i < |items| ==> r[i] == SortKeys(items[i])
    decreases items, 0
  {
    if items == [] then [] else [SortKeys(items[0])] + SortItems(items[1..])
  }

  function SortValues(fields: seq<Field>): (r: seq<Field>)
    ensures |r| == |fields|
    ensures forall i :: 0 <= i < |fields| ==> r[i] == Field(fields[i].key, SortKeys(fields[i].value))
    decreases fields, 0
  {
    if fields == [] then [] else [Field(fields[0].key, SortKeys(fields[0].value))] + SortValues(fields[1..])
  }

  function CanonicalText(nfc: Text -> Text, v: Json): Result<Text, Reason> {
    match Normalize(nfc, v, 0)
    case Err(e) => Err(e)
    case Ok(n) => Ok(Print(SortKeys(n)))
  }

  function ParseJson(nfc: Text -> Text, text: Text, maxBytes: nat): Result<Json, Reason> {
    if Utf8Size(text) > maxBytes then Err(TooLarge)
    else
      match ParseDocument(text)
      case None => Err(BadJson)
      case Some(v) => Normalize(nfc, v, 0)
  }

  /** Equality of Python values: dictionaries are compared without regard to entry order. */
  predicate PyEqual(v: Json, w: Json)
    decreases v, 0
  {
    match v
    case Arr(items) =>
      w.Arr? && |items| == |w.items| && forall i :: 0 <= i < |items| ==> PyEqual(items[i], w.items[i])
    case Obj(fields) =>
      && w.Obj?
      && |fields| == |w.fields|
      && forall i :: 0 <= i < |fields| ==> FoundIn(fields[i], w.fields)
    case _ => v == w
  }

  predicate FoundIn(f: Field, gs: seq<Field>)
    decreases f, 0
  {
    exists j :: 0 <= j < |gs| && f.key == gs[j].key && PyEqual(f.value, gs[j].value)
  }

  // ----- the normal form -----------------------------------------------------------------------

  /** What `Normalize` accepts and leaves alone. */
  ghost predicate Normal(nfc: Text -> Text, v: Json, depth: nat)
    decreases v, 0
  {
    && depth <= MAX_DEPTH
    && match v
       case Null => true
       case Bool(_) => false
       case Int(n) => 0 <= n <= W.SAFE_INT
       case Str(s) => NormalizeText(nfc, s) == Ok(s)
       case Arr(items) => forall i :: 0 <= i < |items| ==> Normal(nfc, items[i], depth + 1)
       case Obj(fields) =>
         && UniqueKeys(fields)
         && forall i :: 0 <= i < |fields| ==>
              NormalizeText(nfc, fields[i].key) == Ok(fields[i].key) && Normal(nfc, fields[i].value, depth + 1)
  }

  lemma {:induction false} NormalizeIsNormal(nfc: Text -> Text, v: Json, depth: nat)
    requires IsNfc(nfc) && Normalize(nfc, v, depth).Ok?
    ensures Normal(nfc, Normalize(nfc, v, depth).value, depth)
    decreases v, 0
  {
    match v
    case Arr(items) => NormalizeItemsNormal(nfc, items, depth + 1);
    case Obj(fields) => NormalizeFieldsNormal(nfc, fields, depth + 1, []);
    case _ =>
  }

  lemma {:induction false} NormalizeItemsNormal(nfc: Text -> Text, items: seq<Json>, depth: nat)
    requires IsNfc(nfc) && NormalizeItems(nfc, items, depth).Ok?
    ensures var ns := NormalizeItems(nfc, items, depth).value;
            forall i :: 0 <= i < |ns| ==> Normal(nfc, ns[i], depth)
    decreases items, 0
  {
    if items != [] {
      NormalizeIsNormal(nfc, items[0], depth);
      NormalizeItemsNormal(nfc, items[1..], depth);
    }
  }

  ghost predicate NormalFields(nfc: Text -> Text, fields: seq<Field>, depth: nat) {
    && UniqueKeys(fields)
    && forall i :: 0 <= i < |fields| ==>
         && NormalizeText(nfc, fields[i].key) == Ok(fields[i].key)
         && Normal(nfc, fields[i].value, depth)
  }

  lemma {:induction false} NormalizeFieldsNormal(nfc: Text -> Text, fields: seq<Field>, depth: nat, output: seq<Field>)
    requires IsNfc(nfc) && NormalizeFields(nfc, fields, depth, output).Ok? && NormalFields(nfc, output, depth)
    ensures NormalFields(nfc, NormalizeFields(nfc, fields, depth, output).value, depth)
    decreases fields, 0
  {
    if fields != [] {
      var key := NormalizeText(nfc, fields[0].key).value;
      NormalizeIsNormal(nfc, fields[0].value, depth);
      NormalizeFieldsNormal(nfc, fields[1..], depth, output + [Field(key, Normalize(nfc, fields[0].value, depth).value)]);
    }
  }

  lemma {:induction false} NormalIsFixed(nfc: Text -> Text, v: Json, depth: nat)
    requires Normal(nfc, v, depth)
    ensures Normalize(nfc, v, depth) == Ok(v)
    decreases v, 0
  {
    match v
    case Arr(items) => NormalItemsFixed(nfc, items, depth + 1);
    case Obj(fields) =>
      NormalFieldsFixed(nfc, fields, depth + 1, []);
      assert [] + fields == fields;
    case _ =>
  }

  lemma {:induction false} NormalItemsFixed(nfc: Text -> Text, items: seq<Json>, depth: nat)
    requires forall i :: 0 <= i < |items| ==> Normal(nfc, items[i], depth)
    ensures NormalizeItems(nfc, items, depth) == Ok(items)
    decreases items, 0
  {
    if items != [] {
      NormalIsFixed(nfc, items[0], depth);
      NormalItemsFixed(nfc, items[1..], depth);
      assert items == [items[0]] + items[1..];
    }
  }

  lemma {:induction false} NormalFieldsFixed(nfc: Text -> Text, fields: seq<Field>, depth: nat, output: seq<Field>)
    requires UniqueKeys(output + fields)
    requires forall i :: 0 <= i < |fields| ==>
               NormalizeText(nfc, fields[i].key) == Ok(fields[i].key) && Normal(nfc, fields[i].value, depth)
    ensures NormalizeFields(nfc, fields, depth, output) == Ok(output + fields)
    decreases fields, 0
  {
    if fields == [] {
      assert output + fields == output;
    } else {
      var f := fields[0];
      NormalIsFixed(nfc, f.value, depth);
      assert !HasKey(output, f.key) by {
        assert (output + fields)[|output|] == f;
        forall i | 0 <= i < |output|
          ensures output[i].key != f.key
        {
          assert (output + fields)[i] == output[i];
        }
      }
      assert Field(f.key, f.value) == f;
      assert (output + [f]) + fields[1..] == output + fields;
      NormalFieldsFixed(nfc, fields[1..], depth, output + [f]);
    }
  }

  lemma {:induction false} NormalIsProper(nfc: Text -> Text, v: Json, depth: nat)
    requires Normal(nfc, v, depth)
    ensures Proper(v)
    decreases v, 0
  {
    match v
    case Arr(items) =>
      forall i | 0 <= i < |items| ensures Proper(items[i]) { NormalIsProper(nfc, items[i], depth + 1); }
    case Obj(fields) =>
      forall i | 0 <= i < |fields| ensures Proper(fields[i].value) { NormalIsProper(nfc, fields[i].value, depth + 1); }
    case _ =>
  }

  /** A second normalization changes nothing. */
  lemma NormalizeIdempotent(nfc: Text -> Text, v: Json, depth: nat)
    requires IsNfc(nfc) && Normalize(nfc, v, depth).Ok?
    ensures Normalize(nfc, Normalize(nfc, v, depth).value, depth) == Normalize(nfc, v, depth)
    ensures Proper(Normalize(nfc, v, depth).value)
  {
    NormalizeIsNormal(nfc, v, depth);
    NormalIsFixed(nfc, Normalize(nfc, v, depth).value, depth);
    NormalIsProper(nfc, Normalize(nfc, v, depth).value, depth);
  }

  // ----- sorting dictionaries keeps everything but the order -----------------------------------

  lemma FieldOrder()
    ensures TotalOrder(FieldLe)
  {
    forall a, b ensures FieldLe(a, b) || FieldLe(b, a) { TextTotal(a.key, b.key); }
    forall a, b, c | FieldLe(a, b) && FieldLe(b, c) ensures FieldLe(a, c) { TextTransitive(a.key, b.key, c.key); }
  }

  lemma UniqueKeysNoTies(fields: seq<Field>)
    requires UniqueKeys(fields)
    ensures NoTies(FieldLe, fields)
  {
    forall a, b | a in fields && b in fields && FieldLe(a, b) && FieldLe(b, a)
      ensures a == b
    {
      TextAntisymmetric(a.key, b.key);
      var i :| 0 <= i < |fields| && fields[i] == a;
      var j :| 0 <= j < |fields| && fields[j] == b;
      assert i == j;
    }
  }

  /** Distinct keys stay distinct under any permutation. */
  lemma UniqueKeysPermuted(xs: seq<Field>, ys: seq<Field>)
    requires UniqueKeys(xs) && multiset(xs) == multiset(ys)
    ensures UniqueKeys(ys)
  {
    DistinctPermuted((f: Field) => f.key, xs, ys);
  }

  lemma {:induction false} SortKeysNormal(nfc: Text -> Text, v: Json, depth: nat)
    requires Normal(nfc, v, depth)
    ensures Normal(nfc, SortKeys(v), depth)
    decreases v, 0
  {
    match v
    case Arr(items) =>
      forall i | 0 <= i < |items| ensures Normal(nfc, SortKeys(items[i]), depth + 1) {
        SortKeysNormal(nfc, items[i], depth + 1);
      }
    case Obj(fields) =>
      var mapped := SortValues(fields);
      var sorted := Sort(FieldLe, mapped);
      forall i | 0 <= i < |fields| ensures Normal(nfc, mapped[i].value, depth + 1) {
        SortKeysNormal(nfc, fields[i].value, depth + 1);
      }
      UniqueKeysPermuted(mapped, sorted);
      forall i | 0 <= i < |sorted|
        ensures NormalizeText(nfc, sorted[i].key) == Ok(sorted[i].key) && Normal(nfc, sorted[i].value, depth + 1)
      {
        SameElements(sorted, mapped, sorted[i]);
      }
    case _ =>
  }

  lemma {:induction false} SortKeysProper(v: Json)
    requires Proper(v)
    ensures Proper(SortKeys(v))
    decreases v, 0
  {
    match v
    case Arr(items) =>
      forall i | 0 <= i < |items| ensures Proper(SortKeys(items[i])) { SortKeysProper(items[i]); }
    case Obj(fields) =>
      var mapped := SortValues(fields);
      var sorted := Sort(FieldLe, mapped);
      forall i | 0 <= i < |fields| ensures Proper(mapped[i].value) { SortKeysProper(fields[i].value); }
      UniqueKeysPermuted(mapped, sorted);
      forall i | 0 <= i < |sorted| ensures Proper(sorted[i].value) { SameElements(sorted, mapped, sorted[i]); }
    case _ =>
  }

  /** Sorting the keys of two values gives one result exactly when Python finds the values equal. */
  lemma {:induction false} SortKeysDecidesEquality(v: Json, w: Json)
    requires Proper(v) && Proper(w)
    ensures PyEqual(v, w) <==> SortKeys(v) == SortKeys(w)
    decreases v, 0
  {
    match v
    case Arr(items) =>
      if w.Arr? && |items| == |w.items| {
        forall i | 0 <= i < |items|
          ensures PyEqual(items[i], w.items[i]) <==> SortKeys(items[i]) == SortKeys(w.items[i])
        {
          SortKeysDecidesEquality(items[i], w.items[i]);
        }
        assert SortItems(items) == SortItems(w.items) <==>
          forall i :: 0 <= i < |items| ==> SortItems(items)[i] == SortItems(w.items)[i];
      }
    case Obj(fields) =>
      if w.Obj? && |fields| == |w.fields| {
        forall i, j | 0 <= i < |fields| && 0 <= j < |w.fields|
          ensures PyEqual(fields[i].value, w.fields[j].value) <==> SortKeys(fields[i].value) == SortKeys(w.fields[j].value)
        {
          SortKeysDecidesEquality(fields[i].value, w.fields[j].value);
        }
        FieldsDecideEquality(fields, w.fields);
      }
    case _ =>
  }

  /** What comparing the values of two dictionaries pairwise yields. */
  ghost predicate ValuesDecided(fs: seq<Field>, gs: seq<Field>) {
    forall i, j :: 0 <= i < |fs| && 0 <= j < |gs| ==>
      (PyEqual(fs[i].value, gs[j].value) <==> SortKeys(fs[i].value) == SortKeys(gs[j].value))
  }

  lemma FieldsDecideEquality(fs: seq<Field>, gs: seq<Field>)
    requires UniqueKeys(fs) && UniqueKeys(gs) && |fs| == |gs| && ValuesDecided(fs, gs)
    ensures PyEqual(Obj(fs), Obj(gs)) <==> Sort(FieldLe, SortValues(fs)) == Sort(FieldLe, SortValues(gs))
  {
    if PyEqual(Obj(fs), Obj(gs)) { EqualFieldsSortAlike(fs, gs); }
    if Sort(FieldLe, SortValues(fs)) == Sort(FieldLe, SortValues(gs)) { AlikeSortedFieldsEqual(fs, gs); }
  }

  lemma EqualFieldsSortAlike(fs: seq<Field>, gs: seq<Field>)
    requires UniqueKeys(fs) && UniqueKeys(gs) && ValuesDecided(fs, gs) && PyEqual(Obj(fs), Obj(gs))
    ensures Sort(FieldLe, SortValues(fs)) == Sort(FieldLe, SortValues(gs))
  {
    var ms, ns := SortValues(fs), SortValues(gs);
    forall i | 0 <= i < |ms| ensures ms[i] in ns {
      assert FoundIn(fs[i], gs);
      var j :| 0 <= j < |gs| && fs[i].key == gs[j].key && PyEqual(fs[i].value, gs[j].value);
      assert ms[i] == ns[j];
    }
    SameSet(ms, ns);
    FieldOrder();
    UniqueKeysNoTies(ms);
    SortPermutation(FieldLe, ms, ns);
  }

  lemma AlikeSortedFieldsEqual(fs: seq<Field>, gs: seq<Field>)
    requires |fs| == |gs| && ValuesDecided(fs, gs)
    requires Sort(FieldLe, SortValues(fs)) == Sort(FieldLe, SortValues(gs))
    ensures PyEqual(Obj(fs), Obj(gs))
  {
    var ms, ns := SortValues(fs), SortValues(gs);
    assert multiset(ms) == multiset(ns);
    forall i | 0 <= i < |fs|
      ensures FoundIn(fs[i], gs)
    {
      SameElements(ms, ns, ms[i]);
      var j :| 0 <= j < |ns| && ns[j] == ms[i];
      assert fs[i].key == gs[j].key && PyEqual(fs[i].value, gs[j].value);
    }
  }

  /** Two duplicate-free sequences of one length, one inside the other, are permutations. */
  lemma {:induction false} SameSet(xs: seq<Field>, ys: seq<Field>)
    requires UniqueKeys(xs) && |xs| == |ys| && forall i :: 0 <= i < |xs| ==> xs[i] in ys
    ensures multiset(xs) == multiset(ys)
    decreases |xs|
  {
    if xs != [] {
      var j :| 0 <= j < |ys| && ys[j] == xs[0];
      var rest := ys[..j] + ys[j + 1..];
      RestFound(xs, ys, j);
      SameSet(xs[1..], rest);
      assert xs == [xs[0]] + xs[1..];
      assert ys == ys[..j] + ([ys[j]] + ys[j + 1..]);
    }
  }

  lemma RestFound(xs: seq<Field>, ys: seq<Field>, j: nat)
    requires UniqueKeys(xs) && xs != [] && j < |ys| && ys[j] == xs[0]
    requires forall i :: 0 <= i < |xs| ==> xs[i] in ys
    ensures forall i :: 0 <= i < |xs[1..]| ==> xs[1..][i] in ys[..j] + ys[j + 1..]
  {
    var rest := ys[..j] + ys[j + 1..];
    forall i | 0 <= i < |xs[1..]| ensures xs[1..][i] in rest {
      assert xs[1..][i] == xs[i + 1] && xs[i + 1] != xs[0];
      var k :| 0 <= k < |ys| && ys[k] == xs[i + 1];
      assert if k < j then rest[k] == ys[k] else rest[k - 1] == ys[k];
    }
  }

  // ----- main results --------------------------------------------------------------------------

  /** Strictly parsing canonical text gives the normalized value back, up to entry order. */
  lemma CanonicalRoundTrip(nfc: Text -> Text, v: Json, maxBytes: nat)
    requires IsNfc(nfc) && CanonicalText(nfc, v).Ok? && Utf8Size(CanonicalText(nfc, v).value) <= maxBytes
    ensures var n := Normalize(nfc, v, 0).value;
            var r := ParseJson(nfc, CanonicalText(nfc, v).value, maxBytes);
            r == Ok(SortKeys(n)) && PyEqual(r.value, n)
  {
    var n := Normalize(nfc, v, 0).value;
    NormalizeIsNormal(nfc, v, 0);
    SortKeysNormal(nfc, n, 0);
    NormalIsFixed(nfc, SortKeys(n), 0);
    NormalIsProper(nfc, n, 0);
    NormalIsProper(nfc, SortKeys(n), 0);
    ParseInvertsPrint(SortKeys(n));
    SortKeysIdempotent(n);
    SortKeysDecidesEquality(SortKeys(n), n);
  }

  lemma {:induction false} SortKeysIdempotent(v: Json)
    requires Proper(v)
    ensures SortKeys(SortKeys(v)) == SortKeys(v)
    decreases v, 0
  {
    match v
    case Arr(items) =>
      forall i | 0 <= i < |items| ensures SortKeys(SortKeys(items[i])) == SortKeys(items[i]) {
        SortKeysIdempotent(items[i]);
      }
      assert SortItems(SortItems(items)) == SortItems(items);
    case Obj(fields) =>
      var mapped := SortValues(fields);
      var sorted := Sort(FieldLe, mapped);
      forall i | 0 <= i < |fields| ensures SortKeys(mapped[i].value) == mapped[i].value {
        SortKeysIdempotent(fields[i].value);
      }
      forall i | 0 <= i < |sorted| ensures SortKeys(sorted[i].value) == sorted[i].value {
        SameElements(sorted, mapped, sorted[i]);
      }
      assert SortValues(sorted) == sorted;
      FieldOrder();
      SortSorted(FieldLe, mapped);
      SortFixesSorted(FieldLe, sorted);
    case _ =>
  }

  /** Two values have one canonical text exactly when their normal forms are equal Python values. */
  lemma CanonicalTextInjective(nfc: Text -> Text, v: Json, w: Json)
    requires IsNfc(nfc) && CanonicalText(nfc, v).Ok? && CanonicalText(nfc, w).Ok?
    ensures CanonicalText(nfc, v) == CanonicalText(nfc, w) <==>
            PyEqual(Normalize(nfc, v, 0).value, Normalize(nfc, w, 0).value)
  {
    var n, m := Normalize(nfc, v, 0).value, Normalize(nfc, w, 0).value;
    NormalizeIdempotent(nfc, v, 0);
    NormalizeIdempotent(nfc, w, 0);
    SortKeysDecidesEquality(n, m);
    SortKeysProper(n);
    SortKeysProper(m);
    if Print(SortKeys(n)) == Print(SortKeys(m)) {
      PrintInjective(SortKeys(n), SortKeys(m));
    }
  }

  // ----- signed records ------------------------------------------------------------------------

  /** The fields a digest covers: all but the digest, the key identifier and the signature. */
  function SignedFields(fields: seq<Field>, unsigned: set<Text>): (r: seq<Field>) {
    if fields == [] then []
    else if fields[0].key in unsigned then SignedFields(fields[1..], unsigned)
    else [fields[0]] + SignedFields(fields[1..], unsigned)
  }

  /** The digest comparison of `_signature` for an already normalized record. */
  predicate DigestMatches(nfc: Text -> Text, sha: Text -> Text, fields: seq<Field>, unsigned: set<Text>, digest: Text) {
    var t := CanonicalText(nfc, Obj(SignedFields(fields, unsigned)));
    t.Ok? && sha(t.value) == digest
  }

  /** The text a digest is computed over, when there is one. */
  function SignedText(nfc: Text -> Text, fields: seq<Field>, unsigned: set<Text>): Text {
    var t := CanonicalText(nfc, Obj(SignedFields(fields, unsigned)));
    if t.Ok? then t.value else []
  }

  /** No two of these texts share a digest. */
  predicate CollisionFreeOn(sha: Text -> Text, texts: set<Text>) {
    forall s, t :: s in texts && t in texts && sha(s) == sha(t) ==> s == t
  }

  lemma {:induction false} SignedFieldsExactly(fields: seq<Field>, unsigned: set<Text>, f: Field)
    ensures f in SignedFields(fields, unsigned) <==> f in fields && f.key !in unsigned
  {
    if fields != [] {
      assert fields == [fields[0]] + fields[1..];
      SignedFieldsExactly(fields[1..], unsigned, f);
    }
  }

  lemma {:induction false} SignedFieldsNormal(nfc: Text -> Text, fields: seq<Field>, unsigned: set<Text>, depth: nat)
    requires NormalFields(nfc, fields, depth)
    ensures NormalFields(nfc, SignedFields(fields, unsigned), depth)
  {
    if fields != [] {
      var rest := SignedFields(fields[1..], unsigned);
      SignedFieldsNormal(nfc, fields[1..], unsigned, depth);
      forall i | 0 <= i < |rest| ensures rest[i].key != fields[0].key {
        SignedFieldsExactly(fields[1..], unsigned, rest[i]);
      }
    }
  }

  /** Unless their two texts collide, two accepted records with one digest agree on every signed field. */
  lemma OneDigestOneRecord(
    nfc: Text -> Text, sha: Text -> Text, r1: seq<Field>, r2: seq<Field>, unsigned: set<Text>, digest: Text, f: Field)
    requires IsNfc(nfc) && CollisionFreeOn(sha, {SignedText(nfc, r1, unsigned), SignedText(nfc, r2, unsigned)})
    requires Normal(nfc, Obj(r1), 0) && Normal(nfc, Obj(r2), 0)
    requires DigestMatches(nfc, sha, r1, unsigned, digest) && DigestMatches(nfc, sha, r2, unsigned, digest)
    requires f in r1 && f.key !in unsigned
    ensures exists g :: g in r2 && g.key == f.key && PyEqual(f.value, g.value)
  {
    var s1, s2 := SignedFields(r1, unsigned), SignedFields(r2, unsigned);
    OneDigestOneBody(nfc, sha, r1, r2, unsigned, digest);
    SignedFieldsExactly(r1, unsigned, f);
    var i :| 0 <= i < |s1| && s1[i] == f;
    assert FoundIn(s1[i], s2);
    var j :| 0 <= j < |s2| && s1[i].key == s2[j].key && PyEqual(s1[i].value, s2[j].value);
    SignedFieldsExactly(r2, unsigned, s2[j]);
  }

  lemma OneDigestOneBody(
    nfc: Text -> Text, sha: Text -> Text, r1: seq<Field>, r2: seq<Field>, unsigned: set<Text>, digest: Text)
    requires IsNfc(nfc) && CollisionFreeOn(sha, {SignedText(nfc, r1, unsigned), SignedText(nfc, r2, unsigned)})
    requires Normal(nfc, Obj(r1), 0) && Normal(nfc, Obj(r2), 0)
    requires DigestMatches(nfc, sha, r1, unsigned, digest) && DigestMatches(nfc, sha, r2, unsigned, digest)
    ensures PyEqual(Obj(SignedFields(r1, unsigned)), Obj(SignedFields(r2, unsigned)))
  {
    var s1, s2 := Obj(SignedFields(r1, unsigned)), Obj(SignedFields(r2, unsigned));
    SignedFieldsFixed(nfc, r1, unsigned);
    SignedFieldsFixed(nfc, r2, unsigned);
    CanonicalTextInjective(nfc, s1, s2);
  }

  lemma SignedFieldsFixed(nfc: Text -> Text, fields: seq<Field>, unsigned: set<Text>)
    requires Normal(nfc, Obj(fields), 0)
    ensures var s := Obj(SignedFields(fields, unsigned)); Normalize(nfc, s, 0) == Ok(s)
  {
    SignedFieldsNormal(nfc, fields, unsigned, 1);
    NormalIsFixed(nfc, Obj(SignedFields(fields, unsigned)), 0);
  }
}
