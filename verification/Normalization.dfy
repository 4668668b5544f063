/**
 Which values the canonical form accepts, and what it makes of them: every text, keys included, is replaced by its
 normal form, and nothing else changes.
 */
module Normalization {
  import opened Options
  import opened Sorting
  import opened JsonText
  import opened Canonical

  /** No control character, no surrogate, and at most 4096 bytes of UTF-8 once in normal form. */
  predicate TextFits(nfc: Text -> Text, s: Text) {
    && (forall i :: 0 <= i < |s| ==> !(0xD800 <= s[i] <= 0xDFFF) && !IsControl(s[i]))
    && Utf8Size(nfc(s)) <= 4096
  }

  /** The input with every text in normal form. */
  function WithNfc(nfc: Text -> Text, v: Json): Json
    decreases v, 0
  {
    match v
    case Str(s) => Str(nfc(s))
    case Arr(items) => Arr(ItemsWithNfc(nfc, items))
    case Obj(fields) => Obj(FieldsWithNfc(nfc, fields))
    case _ => v
  }

  function ItemsWithNfc(nfc: Text -> Text, items: seq<Json>): (r: seq<Json>)
    ensures |r| == |items| && forall i :: 0 <= i < |r| ==> r[i] == WithNfc(nfc, items[i])
    decreases items, 0
  {
    if items == [] then [] else [WithNfc(nfc, items[0])] + ItemsWithNfc(nfc, items[1..])
  }

  function FieldsWithNfc(nfc: Text -> Text, fields: seq<Field>): (r: seq<Field>)
    ensures |r| == |fields| && forall i :: 0 <= i < |r| ==> r[i] == Field(nfc(fields[i].key), WithNfc(nfc, fields[i].value))
    decreases fields, 0
  {
    if fields == [] then [] else [Field(nfc(fields[0].key), WithNfc(nfc, fields[0].value))] + FieldsWithNfc(nfc, fields[1..])
  }

  /** At most 16 deep, no booleans, whole numbers from 0 to 2^53 - 1, fitting texts, keys that stay different. */
  predicate Acceptable(nfc: Text -> Text, v: Json, depth: nat)
    decreases v
  {
    && depth <= 16
    && match v
       case Null => true
       case Bool(_) => false
       case Int(n) => 0 <= n < 0x20_0000_0000_0000
       case Str(s) => TextFits(nfc, s)
       case Arr(items) => forall i :: 0 <= i < |items| ==> Acceptable(nfc, items[i], depth + 1)
       case Obj(fields) =>
         && (forall i :: 0 <= i < |fields| ==> TextFits(nfc, fields[i].key) && Acceptable(nfc, fields[i].value, depth + 1))
         && forall i, j :: 0 <= i < j < |fields| ==> nfc(fields[i].key) != nfc(fields[j].key)
  }

  lemma TextExactly(nfc: Text -> Text, s: Text)
    ensures NormalizeText(nfc, s).Ok? <==> TextFits(nfc, s)
    ensures TextFits(nfc, s) ==> NormalizeText(nfc, s).value == nfc(s)
  {
  }

  ghost predicate ItemsAcceptable(nfc: Text -> Text, items: seq<Json>, depth: nat) {
    forall i :: 0 <= i < |items| ==> Acceptable(nfc, items[i], depth)
  }

  /** The fields still to come can follow what is there already. */
  ghost predicate FieldsAcceptable(nfc: Text -> Text, fields: seq<Field>, depth: nat, output: seq<Field>) {
    && (forall i :: 0 <= i < |fields| ==> TextFits(nfc, fields[i].key) && Acceptable(nfc, fields[i].value, depth))
    && (forall i, j :: 0 <= i < j < |fields| ==> nfc(fields[i].key) != nfc(fields[j].key))
    && (forall i :: 0 <= i < |fields| ==> !HasKey(output, nfc(fields[i].key)))
  }

  /** Normalization succeeds exactly on acceptable values, and puts every text in normal form. */
  lemma {:induction false} NormalizeExactly(nfc: Text -> Text, v: Json, depth: nat)
    ensures Normalize(nfc, v, depth).Ok? <==> Acceptable(nfc, v, depth)
    ensures Normalize(nfc, v, depth).Ok? ==> Normalize(nfc, v, depth).value == WithNfc(nfc, v)
    decreases v, 0
  {
    hide NormalizeText, TextFits;
    match v
    case Str(s) => TextExactly(nfc, s);
    case Arr(items) => ItemsExactly(nfc, items, depth + 1);
    case Obj(fields) => FieldsExactly(nfc, fields, depth + 1, []);
    case _ =>
  }

  lemma {:induction false} ItemsExactly(nfc: Text -> Text, items: seq<Json>, depth: nat)
    ensures NormalizeItems(nfc, items, depth).Ok? <==> ItemsAcceptable(nfc, items, depth)
    ensures NormalizeItems(nfc, items, depth).Ok? ==> NormalizeItems(nfc, items, depth).value == ItemsWithNfc(nfc, items)
    decreases items, 0
  {
    hide Acceptable, Normalize;
    if items != [] {
      NormalizeExactly(nfc, items[0], depth);
      ItemsExactly(nfc, items[1..], depth);
      assert ItemsAcceptable(nfc, items, depth) <==> Acceptable(nfc, items[0], depth) && ItemsAcceptable(nfc, items[1..], depth) by {
        forall i | 0 < i < |items| ensures items[i] == items[1..][i - 1] {}
      }
    }
  }

  lemma {:induction false} FieldsExactly(nfc: Text -> Text, fields: seq<Field>, depth: nat, output: seq<Field>)
    ensures NormalizeFields(nfc, fields, depth, output).Ok? <==> FieldsAcceptable(nfc, fields, depth, output)
    ensures NormalizeFields(nfc, fields, depth, output).Ok? ==>
              NormalizeFields(nfc, fields, depth, output).value == output + FieldsWithNfc(nfc, fields)
    decreases fields, 0
  {
    hide Acceptable, Normalize, NormalizeText, TextFits, HasKey, FieldsAcceptable, WithNfc, NormalizeFields, FieldsWithNfc;
    if fields == [] {
      NoFields(nfc, depth, output);
    } else {
      var key, rest, n := nfc(fields[0].key), fields[1..], WithNfc(nfc, fields[0].value);
      var next := output + [Field(key, n)];
      TextExactly(nfc, fields[0].key);
      NormalizeExactly(nfc, fields[0].value, depth);
      if depth > MAX_DEPTH { DepthNeeded(nfc, fields[0].value, depth); }
      FieldsSplit(nfc, fields, depth, output, n);
      FieldsUnfold(nfc, fields, depth, output);
      FieldsExactly(nfc, rest, depth, next);
      WithNfcCons(nfc, fields);
      assert next + FieldsWithNfc(nfc, rest) == output + ([Field(key, n)] + FieldsWithNfc(nfc, rest));
    }
  }

  lemma WithNfcCons(nfc: Text -> Text, fields: seq<Field>)
    requires fields != []
    ensures FieldsWithNfc(nfc, fields) == [Field(nfc(fields[0].key), WithNfc(nfc, fields[0].value))] + FieldsWithNfc(nfc, fields[1..])
  {
  }

  lemma FieldsUnfold(nfc: Text -> Text, fields: seq<Field>, depth: nat, output: seq<Field>)
    requires fields != []
    ensures var key, value, r := NormalizeText(nfc, fields[0].key), Normalize(nfc, fields[0].value, depth),
                                 NormalizeFields(nfc, fields, depth, output);
            if depth <= MAX_DEPTH && key.Ok? && !HasKey(output, key.value) && value.Ok? then
              r == NormalizeFields(nfc, fields[1..], depth, output + [Field(key.value, value.value)])
            else r.Err?
  {
    hide NormalizeText, Normalize, HasKey;
  }

  lemma NoFields(nfc: Text -> Text, depth: nat, output: seq<Field>)
    ensures FieldsAcceptable(nfc, [], depth, output)
    ensures NormalizeFields(nfc, [], depth, output) == Ok(output + FieldsWithNfc(nfc, []))
  {
    assert output + FieldsWithNfc(nfc, []) == output;
  }

  lemma DepthNeeded(nfc: Text -> Text, v: Json, depth: nat)
    requires depth > MAX_DEPTH
    ensures !Acceptable(nfc, v, depth)
  {
  }

  lemma KeyPush(fields: seq<Field>, f: Field, key: Text)
    ensures HasKey(fields + [f], key) <==> HasKey(fields, key) || f.key == key
  {
    var all := fields + [f];
    if i :| 0 <= i < |fields| && fields[i].key == key { assert all[i].key == key; }
    if f.key == key { assert all[|fields|].key == key; }
  }

  lemma FieldsSplit(nfc: Text -> Text, fields: seq<Field>, depth: nat, output: seq<Field>, n: Json)
    requires fields != []
    ensures var key := nfc(fields[0].key);
            FieldsAcceptable(nfc, fields, depth, output) <==>
              && TextFits(nfc, fields[0].key) && Acceptable(nfc, fields[0].value, depth) && !HasKey(output, key)
              && FieldsAcceptable(nfc, fields[1..], depth, output + [Field(key, n)])
  {
    hide Acceptable, TextFits, HasKey;
    var key, rest := nfc(fields[0].key), fields[1..];
    forall i | 0 <= i < |rest| ensures rest[i] == fields[i + 1] {}
    forall k ensures HasKey(output + [Field(key, n)], k) <==> HasKey(output, k) || key == k { KeyPush(output, Field(key, n), k); }
    if TextFits(nfc, fields[0].key) && Acceptable(nfc, fields[0].value, depth) && !HasKey(output, key)
       && FieldsAcceptable(nfc, rest, depth, output + [Field(key, n)]) {
      forall i | 0 <= i < |fields|
        ensures TextFits(nfc, fields[i].key) && Acceptable(nfc, fields[i].value, depth) && !HasKey(output, nfc(fields[i].key))
      {
        if i > 0 { assert fields[i] == rest[i - 1]; }
      }
      forall i, j | 0 <= i < j < |fields| ensures nfc(fields[i].key) != nfc(fields[j].key) {
        assert fields[j] == rest[j - 1];
        if i > 0 { assert fields[i] == rest[i - 1]; }
      }
    }
  }
}
