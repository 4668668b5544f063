/**
 Size bounds of canonical JSON: bytes printed, nodes visited and the limits of the preflight, composed from the
 parts of a value.
 */
module Bounds {
  import opened Sorting
  import opened JsonText
  import opened Canonical
  import opened Records
  import W = Worklist

  const WIDTH := 512

  /** Printable ASCII that needs no escape. */
  predicate Quiet(t: Text) {
    forall i :: 0 <= i < |t| ==> 0x20 <= t[i] < 0x7F && t[i] != QUOTE && t[i] != BACKSLASH
  }

  predicate Ascii(t: Text) { forall i :: 0 <= i < |t| ==> 0 <= t[i] < 0x80 }

  lemma {:induction false} AsciiSize(t: Text)
    requires Ascii(t)
    ensures Utf8Size(t) == |t|
  {
    if t != [] { AsciiSize(t[1..]); }
  }

  lemma {:induction false} QuietPrints(s: Text)
    requires Quiet(s)
    ensures PrintBody(s) == s
  {
    if s != [] {
      QuietPrints(s[1..]);
      assert s == [s[0]] + s[1..];
    }
  }

  /** The decoded value as the preflight sees it. */
  function Decoded(v: Json): W.Graph
    decreases v, 0
  {
    match v
    case Null => W.Nil
    case Bool(b) => W.Flag(b)
    case Int(n) => W.Number(n)
    case Str(s) => W.Chars(s)
    case Arr(items) => W.List(DecodedItems(items))
    case Obj(fields) => W.Dict(DecodedFields(fields))
  }

  function DecodedItems(items: seq<Json>): (r: seq<W.Graph>)
    ensures |r| == |items|
    ensures forall i :: 0 <= i < |r| ==> r[i] == Decoded(items[i])
    decreases items, 0
  {
    if items == [] then [] else [Decoded(items[0])] + DecodedItems(items[1..])
  }

  function DecodedFields(fields: seq<Field>): (r: seq<W.Entry>)
    ensures |r| == |fields|
    ensures forall i :: 0 <= i < |r| ==> r[i] == W.Entry(W.TextKey(fields[i].key), Decoded(fields[i].value))
    decreases fields, 0
  {
    if fields == [] then [] else [W.Entry(W.TextKey(fields[0].key), Decoded(fields[0].value))] + DecodedFields(fields[1..])
  }

  predicate Prints(v: Json, bytes: int) { |Print(v)| <= bytes && Ascii(Print(v)) }

  /** `v` has at most `nodes` nodes and passes the preflight wherever `height` levels are left. */
  ghost predicate Passes(v: Json, nodes: int, height: int) {
    && W.Size(Decoded(v)) <= nodes
    && forall d: nat :: d + height <= W.MAX_DEPTH ==> W.Everywhere(W.Portable(WIDTH), Decoded(v), d)
  }

  ghost predicate Within(v: Json, bytes: int, nodes: int, height: int) {
    Prints(v, bytes) && Passes(v, nodes, height)
  }

  lemma WithinText(s: Text)
    requires Quiet(s) && |s| <= W.MAX_CHARS
    ensures Within(Str(s), |s| + 2, 1, 0)
  {
    QuietPrints(s);
  }

  lemma WithinBool(b: bool)
    ensures Within(Bool(b), 5, 1, 0)
  {
  }

  lemma WithinCount(n: nat)
    requires n < 1000
    ensures Within(Int(n), 3, 1, 0)
  {
    assert n / 10 < 100 && n / 10 / 10 < 10;
    assert |Digits(n / 10)| <= 2 && Ascii(Digits(n / 10));
  }

  function Sum(ns: seq<nat>): nat {
    if ns == [] then 0 else ns[0] + Sum(ns[1..])
  }

  /** `n` times `k`. */
  function Times(n: nat, k: nat): nat { if n == 0 then 0 else k + Times(n - 1, k) }

  lemma {:induction false} TimesMonotone(n: nat, m: nat, k: nat)
    requires n <= m
    ensures Times(n, k) <= Times(m, k) && Times(m, k) == m * k
  {
    if m > 0 { TimesMonotone(if n == 0 then 0 else n - 1, m - 1, k); }
  }

  lemma {:induction false} PrintItemsBound(items: seq<Json>, bytes: nat)
    requires forall i :: 0 <= i < |items| ==> Prints(items[i], bytes)
    ensures |PrintItems(items)| <= Times(|items|, bytes + 1) && Ascii(PrintItems(items))
    decreases |items|
  {
    hide Print;
    if items != [] {
      assert Prints(items[0], bytes);
      PrintItemsBound(items[1..], bytes);
    }
  }

  lemma {:induction false} SizeAllBound(parent: W.Graph, vs: seq<W.Graph>, nodes: nat)
    requires forall i :: 0 <= i < |vs| ==> vs[i] < parent && W.Size(vs[i]) <= nodes
    ensures W.SizeAll(parent, vs) <= Times(|vs|, nodes)
    decreases |vs|
  {
    hide W.Size;
    if vs != [] {
      SizeAllBound(parent, vs[..|vs| - 1], nodes);
    }
  }

  /** One node and everything below it. */
  lemma EverywhereStep(v: W.Graph, d: nat)
    requires W.Portable(WIDTH)(v, d)
    requires forall i :: 0 <= i < |W.Children(v)| ==> W.Everywhere(W.Portable(WIDTH), W.Children(v)[i], d + 1)
    ensures W.Everywhere(W.Portable(WIDTH), v, d)
  {
    hide W.Portable, W.Children;
  }

  lemma ListPasses(kids: seq<W.Graph>, height: nat)
    requires |kids| <= WIDTH
    requires forall i, d: nat :: 0 <= i < |kids| && d + height <= W.MAX_DEPTH ==> W.Everywhere(W.Portable(WIDTH), kids[i], d)
    ensures forall d: nat :: d + (height + 1) <= W.MAX_DEPTH ==> W.Everywhere(W.Portable(WIDTH), W.List(kids), d)
  {
    hide W.Everywhere;
    var g := W.List(kids);
    forall d: nat | d + (height + 1) <= W.MAX_DEPTH ensures W.Everywhere(W.Portable(WIDTH), g, d) {
      EverywhereStep(g, d);
    }
  }

  lemma PassesArray(items: seq<Json>, nodes: nat, height: nat)
    requires |items| <= WIDTH && forall i :: 0 <= i < |items| ==> Passes(items[i], nodes, height)
    ensures Passes(Arr(items), 1 + Times(|items|, nodes), height + 1)
  {
    hide Times, W.Everywhere, W.Size, W.Portable;
    var kids := DecodedItems(items);
    forall i | 0 <= i < |kids| ensures kids[i] == Decoded(items[i]) && W.Size(kids[i]) <= nodes {
      assert Passes(items[i], nodes, height);
    }
    forall i, d: nat | 0 <= i < |kids| && d + height <= W.MAX_DEPTH
      ensures W.Everywhere(W.Portable(WIDTH), kids[i], d)
    {
      assert Passes(items[i], nodes, height);
    }
    ListSize(kids, nodes);
    ListPasses(kids, height);
  }

  lemma ListSize(kids: seq<W.Graph>, nodes: nat)
    requires forall i :: 0 <= i < |kids| ==> W.Size(kids[i]) <= nodes
    ensures W.Size(W.List(kids)) <= 1 + Times(|kids|, nodes)
  {
    hide Times, W.SizeAll;
    var g := W.List(kids);
    assert W.Children(g) == kids;
    SizeAllBound(g, kids, nodes);
  }

  lemma WithinArray(items: seq<Json>, bytes: nat, nodes: nat, height: nat)
    requires |items| <= WIDTH && forall i :: 0 <= i < |items| ==> Within(items[i], bytes, nodes, height)
    ensures Within(Arr(items), 2 + Times(|items|, bytes + 1), 1 + Times(|items|, nodes), height + 1)
  {
    hide Passes, Times;
    forall i | 0 <= i < |items| ensures Prints(items[i], bytes) && Passes(items[i], nodes, height) {
      assert Within(items[i], bytes, nodes, height);
    }
    PrintItemsBound(items, bytes);
    PassesArray(items, nodes, height);
  }

  /** One field prints within `bytes`, quotes, colon and comma included. */
  predicate FieldPrints(key: Text, value: Json, bytes: int) {
    Quiet(key) && |Print(value)| + |key| + 4 <= bytes && Ascii(Print(value))
  }

  /** One field passes the preflight. */
  ghost predicate FieldPasses(key: Text, value: Json, nodes: int, height: int) {
    |key| <= W.MAX_CHARS && Passes(value, nodes, height)
  }

  lemma {:induction false} PrintFieldsBound(keys: seq<Text>, values: seq<Json>, bytes: seq<nat>)
    requires |keys| == |values| == |bytes|
    requires forall i :: 0 <= i < |keys| ==> FieldPrints(keys[i], values[i], bytes[i])
    ensures |PrintFields(Zip(keys, values))| <= Sum(bytes) && Ascii(PrintFields(Zip(keys, values)))
    decreases |keys|
  {
    if keys != [] {
      hide Print;
      var fields := Zip(keys, values);
      PrintFieldsBound(keys[1..], values[1..], bytes[1..]);
      assert fields[1..] == Zip(keys[1..], values[1..]);
      assert FieldPrints(keys[0], values[0], bytes[0]);
      QuietPrints(keys[0]);
      assert |PrintField(fields[0])| + 1 <= bytes[0] && Ascii(PrintField(fields[0]));
    }
  }

  lemma {:induction false} SizeAllSum(parent: W.Graph, vs: seq<W.Graph>, nodes: seq<nat>)
    requires |vs| == |nodes| && forall i :: 0 <= i < |vs| ==> vs[i] < parent && W.Size(vs[i]) <= nodes[i]
    ensures W.SizeAll(parent, vs) <= Sum(nodes)
    decreases |vs|
  {
    if vs != [] {
      var n := |vs| - 1;
      SizeAllSum(parent, vs[..n], nodes[..n]);
      SumPush(nodes[..n], nodes[n]);
      assert nodes[..n] + [nodes[n]] == nodes;
    }
  }

  lemma {:induction false} SumPush(ns: seq<nat>, n: nat)
    ensures Sum(ns + [n]) == Sum(ns) + n
  {
    if ns == [] {
      assert ns + [n] == [n] && [n][1..] == [];
    } else {
      assert (ns + [n])[1..] == ns[1..] + [n];
      SumPush(ns[1..], n);
    }
  }

  /** A dictionary passes when its keys are short and its values pass one level down. */
  lemma DictPasses(entries: seq<W.Entry>, height: nat)
    requires |entries| <= WIDTH && forall i :: 0 <= i < |entries| ==> W.KeyOk(entries[i].key)
    requires forall i, d: nat :: 0 <= i < |entries| && d + height <= W.MAX_DEPTH ==>
               W.Everywhere(W.Portable(WIDTH), entries[i].value, d)
    ensures forall d: nat :: d + (height + 1) <= W.MAX_DEPTH ==> W.Everywhere(W.Portable(WIDTH), W.Dict(entries), d)
  {
    hide W.Everywhere, W.KeyOk;
    var g := W.Dict(entries);
    forall i | 0 <= i < |W.Children(g)| ensures W.Children(g)[i] == entries[i].value {}
    forall d: nat | d + (height + 1) <= W.MAX_DEPTH ensures W.Everywhere(W.Portable(WIDTH), g, d) {
      EverywhereStep(g, d);
    }
  }

  lemma DictSize(entries: seq<W.Entry>, nodes: seq<nat>)
    requires |entries| == |nodes| && forall i :: 0 <= i < |entries| ==> W.Size(entries[i].value) <= nodes[i]
    ensures W.Size(W.Dict(entries)) <= 1 + Sum(nodes)
  {
    hide Sum, W.SizeAll;
    var g := W.Dict(entries);
    var kids := W.Children(g);
    forall i | 0 <= i < |kids| ensures W.Size(kids[i]) <= nodes[i] { assert kids[i] == entries[i].value; }
    SizeAllSum(g, kids, nodes);
  }

  lemma EntriesPass(keys: seq<Text>, values: seq<Json>, nodes: seq<nat>, height: nat)
    requires |keys| == |values| == |nodes|
    requires forall i :: 0 <= i < |keys| ==> FieldPasses(keys[i], values[i], nodes[i], height)
    ensures var entries := DecodedFields(Zip(keys, values));
            && (forall i :: 0 <= i < |entries| ==> W.KeyOk(entries[i].key) && W.Size(entries[i].value) <= nodes[i])
            && (forall i, d: nat :: 0 <= i < |entries| && d + height <= W.MAX_DEPTH ==>
                  W.Everywhere(W.Portable(WIDTH), entries[i].value, d))
  {
    hide W.Everywhere, W.Size, W.Portable, Decoded, DecodedFields;
    var entries := DecodedFields(Zip(keys, values));
    forall i | 0 <= i < |entries| ensures entries[i].value == Decoded(values[i]) && FieldPasses(keys[i], values[i], nodes[i], height) {}
  }

  lemma PassesRecord(keys: seq<Text>, values: seq<Json>, nodes: seq<nat>, height: nat)
    requires |keys| == |values| == |nodes| <= WIDTH
    requires forall i :: 0 <= i < |keys| ==> FieldPasses(keys[i], values[i], nodes[i], height)
    ensures Passes(Obj(Zip(keys, values)), 1 + Sum(nodes), height + 1)
  {
    hide Sum, W.Everywhere, W.Size, W.Portable, W.KeyOk, DecodedFields, FieldPasses;
    EntriesPass(keys, values, nodes, height);
    var entries := DecodedFields(Zip(keys, values));
    DictPasses(entries, height);
    DictSize(entries, nodes);
  }

  /** The bounds of one field of a record. */
  ghost predicate FieldWithin(key: Text, value: Json, bytes: int, nodes: int, height: int) {
    FieldPrints(key, value, bytes) && FieldPasses(key, value, nodes, height)
  }

  lemma FieldFits(key: Text, value: Json, bytes: int, nodes: int, height: int)
    requires Quiet(key) && |key| <= W.MAX_CHARS && Within(value, bytes, nodes, height)
    ensures FieldWithin(key, value, |key| + 4 + bytes, nodes, height)
  {
    hide Quiet, Passes, Ascii;
  }

  lemma FieldByField(keys: seq<Text>, values: seq<Json>, bytes: seq<nat>, nodes: seq<nat>, height: nat)
    requires |keys| == |values| == |bytes| == |nodes|
    requires forall i :: 0 <= i < |keys| ==> FieldWithin(keys[i], values[i], bytes[i], nodes[i], height)
    ensures forall i :: 0 <= i < |keys| ==> FieldPrints(keys[i], values[i], bytes[i])
    ensures forall i :: 0 <= i < |keys| ==> FieldPasses(keys[i], values[i], nodes[i], height)
  {
    hide FieldPrints, FieldPasses;
  }

  lemma WithinRecord(keys: seq<Text>, values: seq<Json>, bytes: seq<nat>, nodes: seq<nat>, height: nat)
    requires |keys| == |values| == |bytes| == |nodes| <= WIDTH
    requires forall i :: 0 <= i < |keys| ==> FieldWithin(keys[i], values[i], bytes[i], nodes[i], height)
    ensures Within(Obj(Zip(keys, values)), 2 + Sum(bytes), 1 + Sum(nodes), height + 1)
  {
    hide *;
    FieldByField(keys, values, bytes, nodes, height);
    PrintFieldsBound(keys, values, bytes);
    PassesRecord(keys, values, nodes, height);
    PrintedWithin(Zip(keys, values), Sum(bytes), 1 + Sum(nodes), height + 1);
  }

  lemma PrintedWithin(fields: seq<Field>, bytes: nat, nodes: int, height: int)
    requires |PrintFields(fields)| <= bytes && Ascii(PrintFields(fields)) && Passes(Obj(fields), nodes, height)
    ensures Within(Obj(fields), 2 + bytes, nodes, height)
  {
    hide Passes, PrintFields;
  }

  lemma WithinMore(v: Json, bytes: int, nodes: int, height: int, moreBytes: int, moreNodes: int, moreHeight: int)
    requires Within(v, bytes, nodes, height) && bytes <= moreBytes && nodes <= moreNodes && height <= moreHeight
    ensures Within(v, moreBytes, moreNodes, moreHeight)
  {
  }
}
