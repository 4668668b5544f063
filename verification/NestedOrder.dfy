/**
 Why the composition of diffs is stated for surfaces without nested mappings: the diff compares canonical
 JSON, which forgets the order of a nested mapping, while the scope rule compares texts that show it.
 */
module NestedOrder {
  import opened Options
  import opened Sorting
  import opened JsonText
  import opened Canonical
  import opened StaticReview

  /** An OAuth app that needs the scopes `needed` and is granted the scopes `granted`. */
  function App(needed: Json, granted: Json): seq<Field> {
    [Field(T("id"), Str(T("x"))), Field(T("required_scopes"), needed), Field(T("scopes"), granted)]
  }

  function OneApp(needed: Json, granted: Json): Model {
    (kind: Kind) => if kind.IntegrationOauthApps? then [Obj(App(needed, granted))] else []
  }

  lemma AppView(needed: Json, granted: Json)
    ensures View(App(needed, granted)) ==
              map[T("id") := Str(T("x")), T("required_scopes") := needed, T("scopes") := granted]
  {
    var fields := App(needed, granted);
    assert fields[..2][..1][..0] == [];
    assert View(fields[..2][..1]) == map[T("id") := Str(T("x"))];
    assert View(fields[..2]) == map[T("id") := Str(T("x")), T("required_scopes") := needed];
  }

  lemma AppSorted(needed: Json, granted: Json)
    ensures Sort(FieldLe, App(needed, granted)) == App(needed, granted)
  {
    hide Sort;
    FieldOrder();
    assert TextLe(T("id"), T("required_scopes")) && TextLe(T("id"), T("scopes")) && TextLe(T("required_scopes"), T("scopes"));
    SortFixesSorted(FieldLe, App(needed, granted));
  }

  lemma NamedById(py: Py, p: Props, name: Text)
    requires T("id") in p && p[T("id")] == Str(name) && name != []
    ensures SurfaceId(py, p, 0) == py.str(Str(name))
  {
    assert ID_KEYS[0] == "id" && Truth(Get(p, "id"));
  }

  lemma AppId(py: Py, needed: Json, granted: Json)
    ensures EntryOf(py, Obj(App(needed, granted)), 0) == Entry(py.str(Str(T("x"))), App(needed, granted))
  {
    hide View, Sort, SurfaceId;
    AppView(needed, granted);
    AppSorted(needed, granted);
    NamedById(py, View(App(needed, granted)), T("x"));
  }

  lemma AppStored(py: Py, needed: Json, granted: Json, kind: Kind)
    ensures TableOf(py, OneApp(needed, granted), kind) ==
              if kind.IntegrationOauthApps? then map[py.str(Str(T("x"))) := App(needed, granted)] else map[]
  {
    hide EntryOf, App;
    var items := OneApp(needed, granted)(kind);
    if kind.IntegrationOauthApps? {
      AppId(py, needed, granted);
      var e := Entry(py.str(Str(T("x"))), App(needed, granted));
      assert Entries(py, items) == [] + [e];
      TablePush([], e);
    } else {
      assert Entries(py, items) == [];
    }
  }

  function ScopeText(py: Py, v: Json): Text { py.lower(py.strip(py.str(v))) }

  /** Neither the texts of the mappings nor the empty text is one of the broad scopes. */
  predicate NoBroadScope(py: Py, v: Json, w: Json) {
    && !BroadScope(py, ScopeText(py, v)) && !BroadScope(py, ScopeText(py, w))
    && !BroadScope(py, py.lower(py.strip([])))
  }

  lemma AppRaises(py: Py, needed: Json, granted: Json, id: Text)
    requires needed.Obj? && granted.Obj? && NoBroadScope(py, needed, granted)
    ensures var found := RiskFindings(py, IntegrationOauthApps, id, View(App(needed, granted)));
            |found| == if ScopeText(py, needed) == ScopeText(py, granted) then 0 else 1
  {
    hide View, App, BroadScope, OneOf, Reachable, Truthy, Found;
    var p := View(App(needed, granted));
    AppView(needed, granted);
    assert p == map[T("id") := Str(T("x")), T("required_scopes") := needed, T("scopes") := granted];
    FirstAbsent(p, "scope", ["granted_scope", "oauth_scope"]);
    FirstAbsent(p, "granted_scope", ["oauth_scope"]);
    FirstAbsent(p, "oauth_scope", []);
    FirstAbsent(p, "granted_scopes", ["scopes"]);
    FirstAbsent(p, "needed_scopes", ["required_scopes", "intended_scopes"]);
    assert First(p, ["scopes"]) == granted;
    assert First(p, ["required_scopes", "intended_scopes"]) == needed;
    assert Scopes(py, granted) == {ScopeText(py, granted)} && Scopes(py, needed) == {ScopeText(py, needed)};
  }

  lemma FirstAbsent(p: Props, name: string, rest: seq<string>)
    requires T(name) !in p
    ensures First(p, [name] + rest) == First(p, rest)
  {
    assert ([name] + rest)[1..] == rest;
  }

  lemma SameStableJson(needed: Json, v: Json, w: Json)
    requires SortKeys(v) == SortKeys(w)
    ensures StableJson(App(needed, v)) == StableJson(App(needed, w))
  {
    hide SortKeys;
    var a, b := SortValues(App(needed, v)), SortValues(App(needed, w));
    assert a == b;
    SortedAlike(App(needed, v), App(needed, w));
  }

  lemma SortedAlike(fs: seq<Field>, gs: seq<Field>)
    requires SortValues(fs) == SortValues(gs)
    ensures StableJson(fs) == StableJson(gs)
  {
    hide SortValues, Sort, Print;
  }

  /**
   Whenever the text of a mapping depends on its order, composition fails: `w` differs from `v` in order only,
   so granting `w` where `v` is needed is no change after granting `v`, yet it is reported against the empty model.
   */
  lemma OrderSensitiveTextBreaksComposition(py: Py, v: Json, w: Json) returns (k: StaticReview.Key)
    requires v.Obj? && w.Obj? && SortKeys(v) == SortKeys(w) && NoBroadScope(py, v, w)
    requires ScopeText(py, v) != ScopeText(py, w)
    ensures Reported(py, EMPTY, OneApp(v, w), k)
    ensures !Reported(py, EMPTY, OneApp(v, v), k) && !Reported(py, OneApp(v, v), OneApp(v, w), k)
  {
    hide RiskFindings, View, App, OneApp, StableJson, KeyOf, SortKeys, NoBroadScope, ScopeText, TableOf;
    var b, c, id := OneApp(v, v), OneApp(v, w), py.str(Str(T("x")));
    assert NoBroadScope(py, v, v) by { SameMapping(py, v, w); }
    AppRaises(py, v, v, id);
    AppRaises(py, v, w, id);
    SameStableJson(v, v, w);
    forall kind ensures TableOf(py, EMPTY, kind) == map[] { NothingStored(py, kind); }
    forall kind
      ensures TableOf(py, b, kind) == if kind.IntegrationOauthApps? then map[id := App(v, v)] else map[]
      ensures TableOf(py, c, kind) == if kind.IntegrationOauthApps? then map[id := App(v, w)] else map[]
    {
      AppStored(py, v, v, kind);
      AppStored(py, v, w, kind);
    }
    var x := Change(IntegrationOauthApps, id, None, App(v, w));
    assert IsChange(py, EMPTY, c, x);
    k := Raised(py, x)[0].key;
    assert ListsKey(Raised(py, x), k);
    forall y | IsChange(py, EMPTY, b, y) ensures !ListsKey(Raised(py, y), k) {
      assert y == Change(IntegrationOauthApps, id, None, App(v, v));
    }
    forall y ensures !IsChange(py, b, c, y) {}
    assert Reported(py, EMPTY, c, k);
    assert !Reported(py, EMPTY, b, k);
    assert !Reported(py, b, c, k);
  }

  lemma SameMapping(py: Py, v: Json, w: Json)
    requires NoBroadScope(py, v, w)
    ensures NoBroadScope(py, v, v)
  {
  }

  lemma NothingStored(py: Py, kind: Kind)
    ensures TableOf(py, EMPTY, kind) == map[]
  {
    assert Entries(py, EMPTY(kind)) == [];
  }

  // ----- a concrete instance -------------------------------------------------------------------

  /** Text conversions that, like Python's, render a mapping in its own order. */
  function Rendering(): Py {
    Py((v: Json) => Print(v), (t: Text) => t, (t: Text) => t, (t: Text) => [t], (v: Json) => 0.0)
  }

  lemma PrintedObject(v: Json)
    requires v.Obj?
    ensures Print(v) != [] && Print(v)[0] == 0x7B
  {
  }

  function Mapping(swapped: bool): (r: Json)
    ensures r.Obj?
  {
    var p, q := Field(T("p"), Int(1)), Field(T("q"), Int(2));
    if swapped then Obj([q, p]) else Obj([p, q])
  }

  lemma MappingsAlike()
    ensures SortKeys(Mapping(false)) == SortKeys(Mapping(true)) && Print(Mapping(false)) != Print(Mapping(true))
  {
    hide Print, SortKeys;
    var f, g := Field(T("p"), Int(1)), Field(T("q"), Int(2));
    assert T("p") != T("q") by { assert T("p")[0] != T("q")[0]; }
    ProperPair(f, g);
    ProperPair(g, f);
    SwappedAlike(f, g);
    SwappedDiffer(f, g);
  }

  lemma ProperPair(f: Field, g: Field)
    requires f.key != g.key && f.value.Int? && g.value.Int?
    ensures Proper(Obj([f, g]))
  {
  }

  lemma SwappedDiffer(f: Field, g: Field)
    requires f != g && Proper(Obj([f, g])) && Proper(Obj([g, f]))
    ensures Print(Obj([f, g])) != Print(Obj([g, f]))
  {
    hide Print, Proper;
    assert [f, g][0] != [g, f][0];
    if Print(Obj([f, g])) == Print(Obj([g, f])) { PrintInjective(Obj([f, g]), Obj([g, f])); }
  }

  lemma SwappedAlike(f: Field, g: Field)
    requires Proper(Obj([f, g])) && Proper(Obj([g, f])) && f.value.Int? && g.value.Int?
    ensures SortKeys(Obj([f, g])) == SortKeys(Obj([g, f]))
  {
    var v, w := Obj([f, g]), Obj([g, f]);
    assert FoundIn(v.fields[0], w.fields) by { assert PyEqual(f.value, w.fields[1].value); }
    assert FoundIn(v.fields[1], w.fields) by { assert PyEqual(g.value, w.fields[0].value); }
    assert PyEqual(v, w);
    SortKeysDecidesEquality(v, w);
  }

  lemma NotBroad(t: Text)
    requires t == [] || t[0] == 0x7B
    ensures !OneOf(t, BROAD)
  {
    forall i | 0 <= i < |BROAD| ensures t != T(BROAD[i]) {
      assert BROAD[i] != "" && BROAD[i][0] != '{';
    }
  }

  lemma NestedOrderBreaksComposition() returns (k: StaticReview.Key)
    ensures var py, b, c := Rendering(), OneApp(Mapping(false), Mapping(false)), OneApp(Mapping(false), Mapping(true));
            Reported(py, EMPTY, c, k) && !Reported(py, EMPTY, b, k) && !Reported(py, b, c, k)
  {
    hide SortKeys, OneOf, Print, Mapping;
    MappingsAlike();
    PrintedObject(Mapping(false));
    PrintedObject(Mapping(true));
    NotBroad(Print(Mapping(false)));
    NotBroad(Print(Mapping(true)));
    NotBroad([]);
    k := OrderSensitiveTextBreaksComposition(Rendering(), Mapping(false), Mapping(true));
  }
}
