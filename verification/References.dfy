/**
 Local `$ref` resolution of OpenAPI path items, twice: `_resolve_path_item` of the importer, which merges
 whole path items, and `_effective_operations` of the review answers, which collects the operations.

 Both recurse through `components.pathItems` with the chain of references seen so far as their only
 protection against cycles. The chain also is why they terminate: without a raw slash different
 references name different components (`Pointer.UnescapeInjective`), so the chain fits into the map.
 */
module References {
  import opened Options
  import opened Sorting
  import opened Pointer

  /** A value inside a path item; `id` tells operation objects apart. */
  datatype Value = Operation(id: nat) | Words(s: Text) | Other

  datatype Entry = Entry(key: Text, value: Value)

  predicate DistinctKeys(es: seq<Entry>) {
    forall i, j :: 0 <= i < j < |es| ==> es[i].key != es[j].key
  }

  /** A path item object, in insertion order. */
  type Item = es: seq<Entry> | DistinctKeys(es) witness []

  /** `components.pathItems`; `None` stands for a member that is not an object. */
  type Components = map<Text, Option<Item>>

  datatype Error = Unsupported | BadReference | Cyclic | Missing | Malformed

  const REF: Text := T("$ref")
  const PREFIX: Text := T("#/components/pathItems/")

  // ----- dictionaries --------------------------------------------------------------------------

  function Lookup(es: seq<Entry>, key: Text): Option<Value> {
    if es == [] then None else if es[0].key == key then Some(es[0].value) else Lookup(es[1..], key)
  }

  lemma {:induction false} LookupAt(es: seq<Entry>, i: nat)
    requires DistinctKeys(es) && i < |es|
    ensures Lookup(es, es[i].key) == Some(es[i].value)
  {
    if i > 0 { LookupAt(es[1..], i - 1); }
  }

  lemma {:induction false} LookupAbsent(es: seq<Entry>, key: Text)
    ensures Lookup(es, key).None? <==> forall i :: 0 <= i < |es| ==> es[i].key != key
  {
    if es != [] { LookupAbsent(es[1..], key); }
  }

  /** `d[key] = value`: replaces in place or appends. */
  function Put(es: Item, key: Text, value: Value): (r: Item)
    ensures forall k :: Lookup(r, k) == if k == key then Some(value) else Lookup(es, k)
    ensures forall i :: 0 <= i < |r| ==> r[i].key == key || exists j :: 0 <= j < |es| && es[j].key == r[i].key
  {
    if es == [] then [Entry(key, value)]
    else if es[0].key == key then
      [Entry(key, value)] + es[1..]
    else
      var rest := Put(es[1..], key, value);
      [es[0]] + rest
  }

  /** `base.update(over)`. */
  function Update(base: Item, over: Item): (r: Item)
    ensures forall k :: Lookup(r, k) == if Lookup(over, k).Some? then Lookup(over, k) else Lookup(base, k)
    decreases |over|
  {
    if over == [] then base
    else
      LookupAbsent(over[1..], over[0].key);
      Update(Put(base, over[0].key, over[0].value), over[1..])
  }

  function Without(es: Item, key: Text): (r: Item)
    ensures forall k :: Lookup(r, k) == if k == key then None else Lookup(es, k)
    ensures forall e :: e in r ==> e in es
  {
    if es == [] then []
    else if es[0].key == key then
      LookupAbsent(es[1..], key);
      es[1..]
    else
      var rest := Without(es[1..], key);
      assert forall i :: 0 <= i < |rest| ==> rest[i] in es[1..];
      [es[0]] + rest
  }

  // ----- the importer --------------------------------------------------------------------------

  /** The component a reference value names, if it names one; cycles are another matter. */
  function Follow(components: Components, ref: Value): Option<Item> {
    if !ref.Words? || !(PREFIX <= ref.s) then None
    else
      var token := ref.s[|PREFIX|..];
      if token == [] || SLASH in token then None
      else
        match Unescape(token)
        case None => None
        case Some(name) => if name in components then components[name] else None
  }

  /** References already followed: pairwise different, each naming a component. */
  ghost predicate ChainOk(components: Components, chain: seq<Text>) {
    && (forall i, j :: 0 <= i < j < |chain| ==> chain[i] != chain[j])
    && (forall i :: 0 <= i < |chain| ==> Follow(components, Words(chain[i])).Some?)
  }

  function Name(ref: Text): Text
    requires PREFIX <= ref && Unescape(ref[|PREFIX|..]).Some?
  {
    Unescape(ref[|PREFIX|..]).value
  }

  lemma NameInjective(components: Components, r1: Text, r2: Text)
    requires Follow(components, Words(r1)).Some? && Follow(components, Words(r2)).Some? && Name(r1) == Name(r2)
    ensures r1 == r2
  {
    UnescapeInjective(r1[|PREFIX|..], r2[|PREFIX|..]);
    assert r1 == PREFIX + r1[|PREFIX|..] && r2 == PREFIX + r2[|PREFIX|..];
  }

  /** A chain never has more references than there are components. */
  lemma {:induction false} ChainFits(components: Components, chain: seq<Text>)
    requires ChainOk(components, chain)
    ensures |chain| <= |components|
    decreases |chain|
  {
    if chain != [] {
      var last := chain[|chain| - 1];
      var fewer := map name | name in components && name != Name(last) :: components[name];
      assert fewer.Keys == components.Keys - {Name(last)};
      forall i | 0 <= i < |chain| - 1
        ensures Follow(fewer, Words(chain[i])) == Follow(components, Words(chain[i]))
      {
        if Name(chain[i]) == Name(last) { NameInjective(components, chain[i], last); }
      }
      ChainFits(fewer, chain[..|chain| - 1]);
      assert |fewer| == |fewer.Keys| && |components| == |components.Keys|;
    }
  }

  /** `_resolve_path_item` for an object; checks in the order of the source. */
  function Resolve(components: Components, item: Item, chain: seq<Text>): Result<Item, Error>
    requires ChainOk(components, chain)
    decreases |components| - |chain|
  {
    match Lookup(item, REF)
    case None => Ok(item)
    case Some(ref) =>
      if !ref.Words? || !(PREFIX <= ref.s) then Err(Unsupported)
      else
        var token := ref.s[|PREFIX|..];
        if token == [] || SLASH in token then Err(BadReference)
        else
          match Unescape(token)
          case None => Err(BadReference)
          case Some(name) =>
            if ref.s in chain then Err(Cyclic)
            else if name !in components || components[name].None? then Err(Missing)
            else
              ChainFits(components, chain + [ref.s]);
              match Resolve(components, components[name].value, chain + [ref.s])
              case Err(e) => Err(e)
              case Ok(base) => Ok(Update(base, Without(item, REF)))
  }

  // ----- the review answers --------------------------------------------------------------------

  function LowerChar(c: int): int { if 0x41 <= c <= 0x5A then c + 0x20 else c }

  function Lower(s: Text): (r: Text)
    ensures |r| == |s|
  {
    seq(|s|, i requires 0 <= i < |s| => LowerChar(s[i]))
  }

  const METHODS: set<Text> := {
    T("get"), T("put"), T("post"), T("delete"),
    T("patch"), T("head"), T("options"), T("trace")}

  /** The loop of `_effective_operations` over the entries of one path item. */
  function AddMethods(operations: Item, item: Item): Result<Item, Error>
    decreases |item|
  {
    if item == [] then Ok(operations)
    else
      var verb := Lower(item[0].key);
      if verb !in METHODS then AddMethods(operations, item[1..])
      else if !item[0].value.Operation? then Err(Malformed)
      else AddMethods(Put(operations, verb, item[0].value), item[1..])
  }

  /** `_effective_operations`; checks in the order of the source. */
  function Effective(components: Components, item: Item, chain: seq<Text>): Result<Item, Error>
    requires ChainOk(components, chain)
    decreases |components| - |chain|
  {
    match Lookup(item, REF)
    case None => AddMethods([], item)
    case Some(ref) =>
      if !ref.Words? || !(PREFIX <= ref.s) then Err(Unsupported)
      else if ref.s in chain then Err(Cyclic)
      else
        var token := ref.s[|PREFIX|..];
        if token == [] || SLASH in token then Err(BadReference)
        else
          match Unescape(token)
          case None => Err(BadReference)
          case Some(name) =>
            if name !in components || components[name].None? then Err(Missing)
            else
              ChainFits(components, chain + [ref.s]);
              match Effective(components, components[name].value, chain + [ref.s])
              case Err(e) => Err(e)
              case Ok(base) => AddMethods(base, item)
  }

  // ----- the reference definition --------------------------------------------------------------

  /** Following references from `item` reaches an item without one after exactly `n` steps. */
  ghost predicate Ends(components: Components, item: Item, n: nat)
    decreases n
  {
    match Lookup(item, REF)
    case None => n == 0
    case Some(ref) => n > 0 && Follow(components, ref).Some? && Ends(components, Follow(components, ref).value, n - 1)
  }

  /** The path items met on the way, the referring one first. */
  ghost function Trail(components: Components, item: Item, n: nat): (r: seq<Item>)
    requires Ends(components, item, n)
    ensures |r| == n + 1 && r[0] == item
    decreases n
  {
    if n == 0 then [item] else [item] + Trail(components, Follow(components, Lookup(item, REF).value).value, n - 1)
  }

  /** The first definition of `key` along the trail. */
  ghost function Outermost(trail: seq<Item>, key: Text): Option<Value> {
    if trail == [] then None
    else if Lookup(trail[0], key).Some? then Lookup(trail[0], key)
    else Outermost(trail[1..], key)
  }

  lemma {:induction false} EndsOnce(components: Components, item: Item, n: nat, m: nat)
    requires Ends(components, item, n) && Ends(components, item, m)
    ensures n == m
    decreases n
  {
    if n > 0 && m > 0 { EndsOnce(components, Follow(components, Lookup(item, REF).value).value, n - 1, m - 1); }
  }

  /** The references of `chain` lead, one after the other, to an item that ends after `n` steps. */
  ghost predicate ChainLeadsTo(components: Components, chain: seq<Text>, n: nat)
    requires ChainOk(components, chain)
  {
    forall i :: 0 <= i < |chain| ==> Ends(components, Follow(components, Words(chain[i])).value, n + |chain| - 1 - i)
  }

  /** A reference that still has an end ahead was not followed before. */
  lemma NotInChain(components: Components, ref: Text, chain: seq<Text>, n: nat)
    requires ChainOk(components, chain) && ChainLeadsTo(components, chain, n)
    requires n > 0 && Follow(components, Words(ref)).Some? && Ends(components, Follow(components, Words(ref)).value, n - 1)
    ensures ref !in chain
  {
    forall i | 0 <= i < |chain|
      ensures chain[i] != ref
    {
      if chain[i] == ref {
        EndsOnce(components, Follow(components, Words(ref)).value, n - 1, n + |chain| - 1 - i);
      }
    }
  }

  lemma ChainGrows(components: Components, ref: Text, chain: seq<Text>, n: nat)
    requires ChainOk(components, chain) && ChainLeadsTo(components, chain, n)
    requires n > 0 && Follow(components, Words(ref)).Some? && Ends(components, Follow(components, Words(ref)).value, n - 1)
    ensures ref !in chain && ChainOk(components, chain + [ref]) && ChainLeadsTo(components, chain + [ref], n - 1)
  {
    NotInChain(components, ref, chain, n);
    var longer := chain + [ref];
    assert ChainOk(components, longer);
    forall i | 0 <= i < |longer|
      ensures Ends(components, Follow(components, Words(longer[i])).value, n - 1 + |longer| - 1 - i)
    {
      if i < |chain| { assert longer[i] == chain[i]; }
    }
  }

  lemma {:induction false} ResolveFollowsTrail(components: Components, item: Item, chain: seq<Text>, n: nat)
    requires ChainOk(components, chain) && Ends(components, item, n) && ChainLeadsTo(components, chain, n)
    ensures var r := Resolve(components, item, chain);
            && r.Ok?
            && Lookup(r.value, REF).None?
            && forall k :: k != REF ==> Lookup(r.value, k) == Outermost(Trail(components, item, n), k)
    decreases n
  {
    var trail := Trail(components, item, n);
    if n > 0 {
      var ref := Lookup(item, REF).value;
      ChainGrows(components, ref.s, chain, n);
      ChainFits(components, chain + [ref.s]);
      ResolveFollowsTrail(components, Follow(components, ref).value, chain + [ref.s], n - 1);
      assert trail[1..] == Trail(components, Follow(components, ref).value, n - 1);
    } else {
      assert trail[1..] == [];
    }
  }

  lemma {:induction false} ResolveEnds(components: Components, item: Item, chain: seq<Text>) returns (n: nat)
    requires ChainOk(components, chain) && Resolve(components, item, chain).Ok?
    ensures Ends(components, item, n)
    decreases |components| - |chain|
  {
    if Lookup(item, REF).None? {
      n := 0;
    } else {
      var ref := Lookup(item, REF).value;
      ChainFits(components, chain + [ref.s]);
      n := ResolveEnds(components, Follow(components, ref).value, chain + [ref.s]);
      n := n + 1;
    }
  }

  ghost predicate HasEnd(components: Components, item: Item) {
    exists n: nat :: Ends(components, item, n)
  }

  /** Resolution succeeds exactly when following the references comes to an end; cycles never hang it. */
  lemma ResolveSucceedsExactlyWhenItEnds(components: Components, item: Item)
    ensures Resolve(components, item, []).Ok? <==> HasEnd(components, item)
  {
    if Resolve(components, item, []).Ok? {
      var n := ResolveEnds(components, item, []);
      assert HasEnd(components, item);
    } else {
      forall n: nat | Ends(components, item, n)
        ensures Resolve(components, item, []).Ok?
      {
        ResolveFollowsTrail(components, item, [], n);
      }
    }
  }

  /** The resolved item has, for each key, the outermost definition along the trail. */
  lemma ResolveGivesOutermost(components: Components, item: Item, n: nat, key: Text)
    requires Ends(components, item, n) && key != REF
    ensures Resolve(components, item, []).Ok?
    ensures Lookup(Resolve(components, item, []).value, key) == Outermost(Trail(components, item, n), key)
  {
    ResolveFollowsTrail(components, item, [], n);
  }

  // ----- the importer's operations -------------------------------------------------------------

  predicate KeyLe(a: Entry, b: Entry) { TextLe(a.key, b.key) }

  /** Whether the key spells an HTTP method, in any case. */
  predicate IsMethod(key: Text) { Lower(key) in METHODS }

  /** The values under the spellings of one method, in order. */
  function Under(es: seq<Entry>, m: Text): seq<Value> {
    if es == [] then []
    else if Lower(es[0].key) == m then [es[0].value] + Under(es[1..], m)
    else Under(es[1..], m)
  }

  /** Every value under a method is an object. */
  predicate Objects(es: seq<Entry>) { forall i :: 0 <= i < |es| && IsMethod(es[i].key) ==> es[i].value.Operation? }

  /** The importer's loop over a resolved path item: one operation for every spelling of a method, by ascending spelling. */
  function Listed(es: seq<Entry>): Result<seq<Entry>, Error> {
    if es == [] then Ok([])
    else if !IsMethod(es[0].key) then Listed(es[1..])
    else if !es[0].value.Operation? then Err(Malformed)
    else
      match Listed(es[1..])
      case Err(e) => Err(e)
      case Ok(rest) => Ok([Entry(Lower(es[0].key), es[0].value)] + rest)
  }

  function ImporterOps(components: Components, item: Item): Result<seq<Entry>, Error> {
    match Resolve(components, item, [])
    case Err(e) => Err(e)
    case Ok(resolved) => Listed(Sort(KeyLe, resolved))
  }

  lemma {:induction false} ListedUnder(es: seq<Entry>, m: Text)
    requires m in METHODS
    ensures Listed(es).Ok? <==> Objects(es)
    ensures Listed(es).Ok? ==> Under(Listed(es).value, m) == Under(es, m)
  {
    if es != [] {
      ListedUnder(es[1..], m);
      assert Objects(es) ==> Objects(es[1..]);
      if Listed(es).Ok? && IsMethod(es[0].key) {
        MethodLower(Lower(es[0].key));
        assert Listed(es).value[1..] == Listed(es[1..]).value;
      }
    }
  }

  lemma MethodLower(m: Text)
    requires m in METHODS
    ensures Lower(m) == m && !IsMethod(REF)
  {
    forall i | 0 <= i < |m| ensures LowerChar(m[i]) == m[i] {}
    assert REF[0] == 0x24 && Lower(REF)[0] == 0x24;
    forall n | n in METHODS ensures n != Lower(REF) { assert n[0] != 0x24; }
  }

  /** With one spelling of the method there is at most one operation under it. */
  lemma {:induction false} UnderOne(es: seq<Entry>, m: Text, key: Text)
    requires DistinctKeys(es) && Lower(key) == m && forall i :: 0 <= i < |es| && Lower(es[i].key) == m ==> es[i].key == key
    ensures Under(es, m) == match Lookup(es, key) case None => [] case Some(v) => [v]
  {
    if es != [] {
      UnderOne(es[1..], m, key);
      if es[0].key == key { LookupAbsent(es[1..], key); }
    }
  }

  /** With two spellings there are at least two. */
  lemma {:induction false} UnderTwo(es: seq<Entry>, m: Text, i: nat, j: nat)
    requires i < j < |es| && Lower(es[i].key) == m && Lower(es[j].key) == m
    ensures |Under(es, m)| >= 2
  {
    if i > 0 { UnderTwo(es[1..], m, i - 1, j - 1); } else { UnderSome(es[1..], m, j - 1); }
  }

  lemma {:induction false} UnderSome(es: seq<Entry>, m: Text, i: nat)
    requires i < |es| && Lower(es[i].key) == m
    ensures |Under(es, m)| >= 1
  {
    if i > 0 { UnderSome(es[1..], m, i - 1); }
  }

  lemma SortedItem(es: Item)
    ensures DistinctKeys(Sort(KeyLe, es))
    ensures forall k :: Lookup(Sort(KeyLe, es), k) == Lookup(es, k)
    ensures forall e :: e in Sort(KeyLe, es) <==> e in es
  {
    hide Sort, KeyLe, Lookup;
    var sorted := Sort(KeyLe, es);
    DistinctPermuted((e: Entry) => e.key, es, sorted);
    forall e ensures e in sorted <==> e in es { assert e in multiset(sorted) <==> e in multiset(es); }
    forall k ensures Lookup(sorted, k) == Lookup(es, k) {
      if i :| 0 <= i < |es| && es[i].key == k {
        assert es[i] in sorted;
        var j :| 0 <= j < |sorted| && sorted[j] == es[i];
        LookupAt(es, i);
        LookupAt(sorted, j);
      } else {
        LookupAbsent(es, k);
        forall j | 0 <= j < |sorted| ensures sorted[j].key != k { assert sorted[j] in es; }
        LookupAbsent(sorted, k);
      }
    }
  }

  // ----- along the trail -----------------------------------------------------------------------

  /** No method is spelled in two ways along the trail. */
  ghost predicate OneSpelling(trail: seq<Item>) {
    forall k, l :: Spelled(trail, k) && Spelled(trail, l) && Lower(k) == Lower(l) ==> k == l
  }

  /** The key occurs along the trail and spells a method. */
  ghost predicate Spelled(trail: seq<Item>, key: Text) {
    IsMethod(key) && Outermost(trail, key).Some?
  }

  predicate TrailObjects(trail: seq<Item>) {
    forall i :: 0 <= i < |trail| ==> Objects(trail[i])
  }

  lemma {:induction false} OutermostSome(trail: seq<Item>, i: nat, key: Text)
    requires i < |trail| && Lookup(trail[i], key).Some?
    ensures Outermost(trail, key).Some?
  {
    if i > 0 { OutermostSome(trail[1..], i - 1, key); }
  }

  lemma {:induction false} OutermostObject(trail: seq<Item>, key: Text)
    requires TrailObjects(trail) && IsMethod(key) && Outermost(trail, key).Some?
    ensures Outermost(trail, key).value.Operation?
  {
    if Lookup(trail[0], key).Some? {
      LookupIn(trail[0], key);
      assert Objects(trail[0]);
    } else {
      OutermostObject(trail[1..], key);
    }
  }

  lemma {:induction false} LookupIn(es: seq<Entry>, key: Text)
    requires Lookup(es, key).Some?
    ensures exists i :: 0 <= i < |es| && es[i] == Entry(key, Lookup(es, key).value)
  {
    if es[0].key == key {
      assert es[0] == Entry(key, Lookup(es, key).value);
    } else {
      LookupIn(es[1..], key);
      var i :| 0 <= i < |es[1..]| && es[1..][i] == Entry(key, Lookup(es, key).value);
      assert es[i + 1] == es[1..][i];
    }
  }

  // ----- the answers along the trail -----------------------------------------------------------

  lemma {:induction false} AddMethodsOk(operations: Item, item: Item)
    ensures AddMethods(operations, item).Ok? <==> Objects(item)
    decreases |item|
  {
    if item != [] {
      var rest: Item := item[1..];
      assert Objects(item) ==> Objects(rest);
      if IsMethod(item[0].key) {
        AddMethodsOk(Put(operations, Lower(item[0].key), item[0].value), rest);
      } else {
        AddMethodsOk(operations, rest);
      }
    }
  }

  lemma {:induction false} AddMethodsOne(operations: Item, item: Item, m: Text, key: Text)
    requires m in METHODS && Lower(key) == m && Objects(item)
    requires forall i :: 0 <= i < |item| && Lower(item[i].key) == m ==> item[i].key == key
    ensures var r := AddMethods(operations, item);
            r.Ok? && Lookup(r.value, m) == if Lookup(item, key).Some? then Lookup(item, key) else Lookup(operations, m)
    decreases |item|
  {
    if item != [] {
      var rest: Item := item[1..];
      LookupAbsent(rest, item[0].key);
      AddMethodsOne(if IsMethod(item[0].key) then Put(operations, Lower(item[0].key), item[0].value) else operations, rest, m, key);
    }
  }

  /** The answers resolve exactly the path items whose references end and whose methods hold objects all along. */
  lemma {:induction false} EffectiveOk(components: Components, item: Item, chain: seq<Text>, n: nat)
    requires ChainOk(components, chain) && Ends(components, item, n) && ChainLeadsTo(components, chain, n)
    ensures Effective(components, item, chain).Ok? <==> TrailObjects(Trail(components, item, n))
    decreases n
  {
    var trail := Trail(components, item, n);
    assert trail[0] == item;
    if n > 0 {
      var ref := Lookup(item, REF).value;
      var target := Follow(components, ref).value;
      ChainGrows(components, ref.s, chain, n);
      ChainFits(components, chain + [ref.s]);
      assert trail[1..] == Trail(components, target, n - 1);
      EffectiveOk(components, target, chain + [ref.s], n - 1);
      var base := Effective(components, target, chain + [ref.s]);
      if base.Ok? { AddMethodsOk(base.value, item); }
      assert TrailObjects(trail) <==> Objects(item) && TrailObjects(trail[1..]) by { TrailSplit(trail); }
    } else {
      AddMethodsOk([], item);
    }
  }

  lemma TrailSplit(trail: seq<Item>)
    requires trail != []
    ensures TrailObjects(trail) <==> Objects(trail[0]) && TrailObjects(trail[1..])
  {
    if Objects(trail[0]) && TrailObjects(trail[1..]) {
      forall i | 0 <= i < |trail| ensures Objects(trail[i]) { if i > 0 { assert trail[i] == trail[1..][i - 1]; } }
    }
  }

  lemma {:induction false} EffectiveFollowsTrail(
    components: Components, item: Item, chain: seq<Text>, n: nat, m: Text, key: Text)
    requires ChainOk(components, chain) && Ends(components, item, n) && ChainLeadsTo(components, chain, n)
    requires TrailObjects(Trail(components, item, n)) && m in METHODS && Lower(key) == m
    requires forall k :: Spelled(Trail(components, item, n), k) && Lower(k) == m ==> k == key
    ensures var r := Effective(components, item, chain);
            r.Ok? && Lookup(r.value, m) == Outermost(Trail(components, item, n), key)
    decreases n
  {
    var trail := Trail(components, item, n);
    assert trail[0] == item;
    forall i | 0 <= i < |item| && Lower(item[i].key) == m ensures item[i].key == key {
      LookupAt(item, i);
      OutermostSome(trail, 0, item[i].key);
      assert Spelled(trail, item[i].key);
    }
    if n > 0 {
      var ref := Lookup(item, REF).value;
      var target := Follow(components, ref).value;
      ChainGrows(components, ref.s, chain, n);
      ChainFits(components, chain + [ref.s]);
      assert trail[1..] == Trail(components, target, n - 1);
      TrailSplit(trail);
      forall k | Spelled(trail[1..], k) && Lower(k) == m ensures k == key { assert Spelled(trail, k); }
      EffectiveFollowsTrail(components, target, chain + [ref.s], n - 1, m, key);
      AddMethodsOne(Effective(components, target, chain + [ref.s]).value, item, m, key);
    } else {
      AddMethodsOne([], item, m, key);
      assert trail[1..] == [];
    }
  }

  /** Whatever the answers can resolve has an end. */
  lemma {:induction false} EffectiveEnds(components: Components, item: Item, chain: seq<Text>) returns (n: nat)
    requires ChainOk(components, chain) && Effective(components, item, chain).Ok?
    ensures Ends(components, item, n)
    decreases |components| - |chain|
  {
    n := 0;
    if Lookup(item, REF).Some? {
      var ref := Lookup(item, REF).value;
      ChainFits(components, chain + [ref.s]);
      n := EffectiveEnds(components, Follow(components, ref).value, chain + [ref.s]);
      n := n + 1;
    }
  }

  // ----- the two resolvers agree ---------------------------------------------------------------

  /** For every method the importer lists the operation the answers would change, and no other. */
  ghost predicate Agree(ops: seq<Entry>, effective: Item) {
    forall m :: m in METHODS ==> Under(ops, m) == match Lookup(effective, m) case None => [] case Some(v) => [v]
  }

  /** A method key of the resolved item is one spelled along the trail. */
  lemma ResolvedKeys(components: Components, item: Item, n: nat, resolved: Item, key: Text)
    requires Ends(components, item, n) && Resolve(components, item, []) == Ok(resolved) && IsMethod(key)
    ensures Lookup(resolved, key) == Outermost(Trail(components, item, n), key)
  {
    MethodLower(Lower(key));
    ResolveFollowsTrail(components, item, [], n);
  }

  lemma ImporterObjects(components: Components, item: Item, n: nat, resolved: Item)
    requires Ends(components, item, n) && Resolve(components, item, []) == Ok(resolved)
    requires TrailObjects(Trail(components, item, n))
    ensures Objects(Sort(KeyLe, resolved))
  {
    hide Sort, KeyLe, Outermost;
    var es := Sort(KeyLe, resolved);
    SortedItem(resolved);
    forall i | 0 <= i < |es| && IsMethod(es[i].key) ensures es[i].value.Operation? {
      LookupAt(es, i);
      ResolvedKeys(components, item, n, resolved, es[i].key);
      OutermostObject(Trail(components, item, n), es[i].key);
    }
  }

  lemma OneSpellingAgrees(components: Components, item: Item, n: nat, resolved: Item, m: Text)
    requires Ends(components, item, n) && Resolve(components, item, []) == Ok(resolved) && m in METHODS
    requires TrailObjects(Trail(components, item, n)) && OneSpelling(Trail(components, item, n))
    ensures Effective(components, item, []).Ok?
    ensures Under(Sort(KeyLe, resolved), m)
         == match Lookup(Effective(components, item, []).value, m) case None => [] case Some(v) => [v]
  {
    hide Sort, KeyLe, Outermost, Under, Effective, Resolve, Lookup;
    var trail, es := Trail(components, item, n), Sort(KeyLe, resolved);
    MethodLower(m);
    var key := m;
    if k :| Spelled(trail, k) && Lower(k) == m { key := k; }
    forall k | Spelled(trail, k) && Lower(k) == m ensures k == key {}
    EffectiveFollowsTrail(components, item, [], n, m, key);
    SortedItem(resolved);
    ResolvedKeys(components, item, n, resolved, key);
    forall i | 0 <= i < |es| && Lower(es[i].key) == m ensures es[i].key == key {
      LookupAt(es, i);
      ResolvedKeys(components, item, n, resolved, es[i].key);
    }
    UnderOne(es, m, key);
  }

  lemma TwoSpellingsDisagree(components: Components, item: Item, n: nat, resolved: Item, k: Text, l: Text)
    requires Ends(components, item, n) && Resolve(components, item, []) == Ok(resolved)
    requires var trail := Trail(components, item, n); Spelled(trail, k) && Spelled(trail, l)
    requires Lower(k) == Lower(l) && k != l
    ensures |Under(Sort(KeyLe, resolved), Lower(k))| >= 2
  {
    hide Sort, KeyLe, Outermost, Under;
    var es := Sort(KeyLe, resolved);
    SortedItem(resolved);
    ResolvedKeys(components, item, n, resolved, k);
    ResolvedKeys(components, item, n, resolved, l);
    LookupIn(es, k);
    LookupIn(es, l);
    var i :| 0 <= i < |es| && es[i] == Entry(k, Lookup(es, k).value);
    var j :| 0 <= j < |es| && es[j] == Entry(l, Lookup(es, l).value);
    if i < j { UnderTwo(es, Lower(k), i, j); } else { UnderTwo(es, Lower(k), j, i); }
  }

  /**
   Importer and answers agree on a path item exactly when no method is spelled in two ways along its references.
   Whatever the answers can resolve, the importer lists.
   */
  lemma ResolversAgreeExactly(components: Components, item: Item, n: nat, effective: Item)
    requires Ends(components, item, n) && Effective(components, item, []) == Ok(effective)
    ensures ImporterOps(components, item).Ok?
    ensures Agree(ImporterOps(components, item).value, effective) <==> OneSpelling(Trail(components, item, n))
  {
    hide Sort, KeyLe, Outermost, Under, Effective, Resolve, Lookup, Listed, METHODS;
    var trail := Trail(components, item, n);
    EffectiveOk(components, item, [], n);
    ResolveFollowsTrail(components, item, [], n);
    var resolved := Resolve(components, item, []).value;
    ImporterObjects(components, item, n, resolved);
    var es := Sort(KeyLe, resolved);
    ListedOk(es);
    var ops := Listed(es).value;
    forall m | m in METHODS ensures Under(ops, m) == Under(es, m) { ListedUnder(es, m); }
    if OneSpelling(trail) {
      forall m | m in METHODS
        ensures Under(ops, m) == match Lookup(effective, m) case None => [] case Some(v) => [v]
      {
        OneSpellingAgrees(components, item, n, resolved, m);
      }
    } else {
      var k, l :| Spelled(trail, k) && Spelled(trail, l) && Lower(k) == Lower(l) && k != l;
      TwoSpellingsDisagree(components, item, n, resolved, k, l);
      assert |Under(ops, Lower(k))| >= 2;
    }
  }

  lemma ListedOk(es: seq<Entry>)
    ensures Listed(es).Ok? <==> Objects(es)
  {
    var get := T("get");
    assert get in METHODS;
    ListedUnder(es, get);
  }

  /** A path item that neither can follow to an end is rejected by both. */
  lemma EndlessRejected(components: Components, item: Item)
    requires !HasEnd(components, item)
    ensures ImporterOps(components, item).Err? && Effective(components, item, []).Err?
  {
    ResolveSucceedsExactlyWhenItEnds(components, item);
    if Effective(components, item, []).Ok? { var n := EffectiveEnds(components, item, []); }
  }

  /** Every method spelled along the trail means an object outermost. */
  ghost predicate MethodsMeanObjects(trail: seq<Item>) {
    forall key :: Spelled(trail, key) ==> Outermost(trail, key).value.Operation?
  }

  lemma ObjectsMeant(components: Components, item: Item, n: nat, resolved: Item)
    requires Ends(components, item, n) && Resolve(components, item, []) == Ok(resolved) && Objects(Sort(KeyLe, resolved))
    ensures MethodsMeanObjects(Trail(components, item, n))
  {
    hide Sort, KeyLe, Resolve, Lookup;
    var trail, es := Trail(components, item, n), Sort(KeyLe, resolved);
    SortedItem(resolved);
    forall key | Spelled(trail, key) ensures Outermost(trail, key).value.Operation? {
      ResolvedKeys(components, item, n, resolved, key);
      LookupIn(es, key);
      var i :| 0 <= i < |es| && es[i] == Entry(key, Lookup(es, key).value);
    }
  }

  lemma MeantObjects(components: Components, item: Item, n: nat, resolved: Item)
    requires Ends(components, item, n) && Resolve(components, item, []) == Ok(resolved)
    requires MethodsMeanObjects(Trail(components, item, n))
    ensures Objects(Sort(KeyLe, resolved))
  {
    hide Sort, KeyLe, Resolve, Lookup, Outermost;
    var trail, es := Trail(components, item, n), Sort(KeyLe, resolved);
    SortedItem(resolved);
    forall i | 0 <= i < |es| && IsMethod(es[i].key) ensures es[i].value.Operation? {
      LookupAt(es, i);
      ResolvedKeys(components, item, n, resolved, es[i].key);
      assert Spelled(trail, es[i].key);
    }
  }

  /** The importer lists a path item exactly when its references end and every spelled method means an object outermost. */
  lemma ImporterListsExactly(components: Components, item: Item, n: nat)
    requires Ends(components, item, n)
    ensures ImporterOps(components, item).Ok? <==> MethodsMeanObjects(Trail(components, item, n))
  {
    hide Sort, KeyLe, Resolve, Listed, Objects, MethodsMeanObjects, Trail;
    ResolveFollowsTrail(components, item, [], n);
    var resolved := Resolve(components, item, []).value;
    ListedOk(Sort(KeyLe, resolved));
    if Objects(Sort(KeyLe, resolved)) { ObjectsMeant(components, item, n, resolved); }
    if MethodsMeanObjects(Trail(components, item, n)) { MeantObjects(components, item, n, resolved); }
  }

  /** Two spellings in one item: the importer lists both operations, of which the answers see one. */
  lemma MixedCaseDisagrees(components: Components, item: Item, effective: Item, i: nat, j: nat)
    requires Lookup(item, REF).None? && Effective(components, item, []) == Ok(effective) && i < j < |item|
    requires IsMethod(item[i].key) && Lower(item[i].key) == Lower(item[j].key)
    ensures ImporterOps(components, item).Ok? && !Agree(ImporterOps(components, item).value, effective)
  {
    hide Effective, ImporterOps, Agree;
    var trail := Trail(components, item, 0);
    LookupAt(item, i);
    LookupAt(item, j);
    assert trail[0] == item;
    OutermostSome(trail, 0, item[i].key);
    OutermostSome(trail, 0, item[j].key);
    assert Spelled(trail, item[i].key) && Spelled(trail, item[j].key);
    ResolversAgreeExactly(components, item, 0, effective);
  }
}
