/**
 When diffs compose: whether everything reported from a first model to a third is reported on the way through a
 second one. Between the second and the third model an unchanged surface is one with the same canonical JSON, while
 the rules read the properties as stored; the exact condition says how far the two may differ.
 */
module Composition {
  import opened Options
  import opened Sorting
  import opened JsonText
  import opened Canonical
  import opened StaticReview
  import opened Declaring

  /** Every (location, risk) reported from `a` to `c` is reported from `a` to `b` or from `b` to `c`. */
  ghost predicate Composes(py: Py, a: Model, b: Model, c: Model) {
    forall k :: Reported(py, a, c, k) ==> Reported(py, a, b, k) || Reported(py, b, c, k)
  }

  /** The surface is in both models with the same canonical JSON. */
  predicate Unchanged(py: Py, b: Model, c: Model, kind: Kind, id: Text) {
    var was, now := TableOf(py, b, kind), TableOf(py, c, kind);
    id in was && id in now && StableJson(was[id]) == StableJson(now[id])
  }

  /** What the surface raises as it is stored in `m`. */
  predicate RaisesKey(py: Py, m: Model, kind: Kind, id: Text, k: Key) {
    id in TableOf(py, m, kind) && ListsKey(Raised(py, Change(kind, id, None, TableOf(py, m, kind)[id])), k)
  }

  /** Whatever an unchanged surface raises in `c` it raises in `b` too, or the review of `b` against `c` reports it. */
  ghost predicate Settled(py: Py, b: Model, c: Model) {
    forall kind, id, k :: Unchanged(py, b, c, kind, id) && RaisesKey(py, c, kind, id, k) ==>
      RaisesKey(py, b, kind, id, k) || Reported(py, b, c, k)
  }

  // ----- the condition suffices ----------------------------------------------------------------

  lemma ReportedThrough(py: Py, a: Model, b: Model, kind: Kind, id: Text, k: Key)
    requires RaisesKey(py, b, kind, id, k)
    requires var was := TableOf(py, a, kind);
             id in was ==> StableJson(was[id]) != StableJson(TableOf(py, b, kind)[id])
    ensures Reported(py, a, b, k)
  {
    hide Raised, TableOf, ListsKey, StableJson;
    var was, now := TableOf(py, a, kind), TableOf(py, b, kind);
    var x := Change(kind, id, if id in was then Some(was[id]) else None, now[id]);
    SameRaised(py, x, x.(before := None));
    assert IsChange(py, a, b, x);
  }

  lemma SettledComposes(py: Py, a: Model, b: Model, c: Model)
    requires Settled(py, b, c)
    ensures Composes(py, a, b, c)
  {
    hide Raised, TableOf, ListsKey, StableJson, Settled;
    forall k | Reported(py, a, c, k) ensures Reported(py, a, b, k) || Reported(py, b, c, k) {
      var x :| IsChange(py, a, c, x) && ListsKey(Raised(py, x), k);
      SameRaised(py, x, x.(before := None));
      assert RaisesKey(py, c, x.kind, x.id, k);
      if !Unchanged(py, b, c, x.kind, x.id) {
        ReportedThrough(py, b, c, x.kind, x.id, k);
      } else if !Reported(py, b, c, k) {
        SettledAt(py, b, c, x.kind, x.id, k);
        ReportedThrough(py, a, b, x.kind, x.id, k);
      }
    }
  }

  lemma SettledAt(py: Py, b: Model, c: Model, kind: Kind, id: Text, k: Key)
    requires Settled(py, b, c) && Unchanged(py, b, c, kind, id) && RaisesKey(py, c, kind, id, k)
    ensures RaisesKey(py, b, kind, id, k) || Reported(py, b, c, k)
  {
  }

  // ----- the condition is necessary ------------------------------------------------------------

  /** Parsed documents: no object names a field twice. */
  predicate ProperModel(m: Model) {
    forall kind :: kind in KINDS ==> forall i :: 0 <= i < |m(kind)| ==> Proper(m(kind)[i])
  }

  function Longest(fields: seq<Field>): (n: nat)
    ensures forall i :: 0 <= i < |fields| ==> |fields[i].key| <= n
  {
    if fields == [] then 0
    else
      var rest := Longest(fields[1..]);
      if |fields[0].key| > rest then |fields[0].key| else rest
  }

  /** A name that no field has and no rule for identifiers reads. */
  function NewName(fields: seq<Field>): (t: Text)
    ensures |t| >= 20 && forall i :: 0 <= i < |fields| ==> fields[i].key != t
  {
    seq(Longest(fields) + 20, _ => 0x78)
  }

  /** The item with one more property. */
  function Marked(item: Json): Json {
    Obj(FieldsOf(item) + [Field(NewName(FieldsOf(item)), Null)])
  }

  lemma MarkedProper(item: Json)
    requires Proper(item)
    ensures Proper(Marked(item))
  {
    hide Longest;
  }

  lemma {:induction false} FirstTruthyMarked(p: Props, key: Text, names: seq<string>)
    requires |key| >= 20 && forall i :: 0 <= i < |names| ==> |names[i]| < 20
    ensures FirstTruthy(p[key := Null], names) == FirstTruthy(p, names)
  {
    if names != [] { FirstTruthyMarked(p, key, names[1..]); }
  }

  lemma MarkedSameId(py: Py, item: Json, index: int)
    ensures SurfaceId(py, View(FieldsOf(Marked(item))), index) == SurfaceId(py, View(FieldsOf(item)), index)
  {
    hide NewName, Longest, FirstTruthy;
    var fields := FieldsOf(item);
    ViewPush(fields, Field(NewName(fields), Null));
    FirstTruthyMarked(View(fields), NewName(fields), ID_KEYS);
    assert |T("value")| == 5;
  }

  /** Canonical JSON tells a marked item from the unmarked one. */
  lemma MarkedDiffers(item: Json)
    requires Proper(item)
    ensures StableJson(Sort(FieldLe, FieldsOf(Marked(item)))) != StableJson(Sort(FieldLe, FieldsOf(item)))
  {
    hide Proper, Print, NewName, Sort, UniqueKeys;
    MarkedProper(item);
    SortedProper(item);
    SortedProper(Marked(item));
    var fs, gs := Sort(FieldLe, FieldsOf(item)), Sort(FieldLe, FieldsOf(Marked(item)));
    SortKeysProper(Obj(fs));
    SortKeysProper(Obj(gs));
    assert |gs| == |fs| + 1;
    assert SortKeys(Obj(fs)) != SortKeys(Obj(gs));
    if StableJson(fs) == StableJson(gs) { PrintInjective(SortKeys(Obj(fs)), SortKeys(Obj(gs))); }
  }

  lemma SortedProper(item: Json)
    requires Proper(item)
    ensures Proper(Obj(Sort(FieldLe, FieldsOf(item))))
  {
    hide Sort;
    var fields := FieldsOf(item);
    var sorted := Sort(FieldLe, fields);
    UniqueKeysPermuted(fields, sorted);
    forall i | 0 <= i < |sorted| ensures Proper(sorted[i].value) {
      SameElements(sorted, fields, sorted[i]);
      var j :| 0 <= j < |fields| && fields[j] == sorted[i];
    }
  }

  /** `b` with the item at `at` marked. */
  function MarkedModel(b: Model, kind: Kind, at: nat): Model
    requires at < |b(kind)|
  {
    var items := b(kind)[at := Marked(b(kind)[at])];
    k => if k == kind then items else b(k)
  }

  lemma MarkedEntries(py: Py, b: Model, kind: Kind, at: nat)
    requires at < |b(kind)|
    ensures var item := b(kind)[at];
            Entries(py, MarkedModel(b, kind, at)(kind)) ==
            Entries(py, b(kind))[at := Entry(Entries(py, b(kind))[at].id, Sort(FieldLe, FieldsOf(Marked(item))))]
  {
    hide Marked, SurfaceId, Sort;
    MarkedSameId(py, b(kind)[at], at);
  }

  /** Replacing the content of one entry changes the table there and nowhere else. */
  lemma TableReplaced(entries: seq<Entry>, at: nat, fields: seq<Field>)
    requires DistinctIds(entries) && at < |entries|
    ensures var now := entries[at := Entry(entries[at].id, fields)];
            DistinctIds(now) && Table(now) == Table(entries)[entries[at].id := fields]
  {
    hide Table;
    var now := entries[at := Entry(entries[at].id, fields)];
    var t, u := Table(now), Table(entries);
    forall i | 0 <= i < |entries|
      ensures now[i].id == entries[i].id && now[i].id in t && now[i].id in u && t[now[i].id] == now[i].fields
      ensures u[entries[i].id] == entries[i].fields
    {
      TableAt(now, i);
      TableAt(entries, i);
    }
    forall id | id in t ensures id in u { var i :| 0 <= i < |now| && now[i] == Entry(id, t[id]); }
    forall id | id in u ensures id in t { var i :| 0 <= i < |entries| && entries[i] == Entry(id, u[id]); }
    forall id | id in t ensures t[id] == u[entries[at].id := fields][id] {
      var i :| 0 <= i < |now| && now[i] == Entry(id, t[id]);
    }
  }

  lemma MarkedTables(py: Py, b: Model, kind: Kind, at: nat, other: Kind)
    requires WellIdentified(py, b) && at < |b(kind)|
    ensures var a := MarkedModel(b, kind, at);
            && DistinctIds(Entries(py, a(other)))
            && TableOf(py, a, other) ==
               if other != kind then TableOf(py, b, other)
               else TableOf(py, b, kind)[Entries(py, b(kind))[at].id := Sort(FieldLe, FieldsOf(Marked(b(kind)[at])))]
  {
    hide Table, DistinctIds, Marked, EntryOf, Sort;
    EveryKind(other);
    if other == kind {
      MarkedEntries(py, b, kind, at);
      TableReplaced(Entries(py, b(kind)), at, Sort(FieldLe, FieldsOf(Marked(b(kind)[at]))));
    }
  }

  /** Marking one surface is a model of its own, from which exactly that surface changed. */
  lemma MarkedChanges(py: Py, b: Model, kind: Kind, at: nat, x: Change)
    requires WellIdentified(py, b) && ProperModel(b) && at < |b(kind)|
    ensures IsChange(py, MarkedModel(b, kind, at), b, x) ==> x.kind == kind && x.id == Entries(py, b(kind))[at].id
  {
    hide Table, DistinctIds, Marked, EntryOf, Sort, StableJson, WellIdentified;
    MarkedTables(py, b, kind, at, x.kind);
  }

  lemma MarkedIsAModel(py: Py, b: Model, kind: Kind, at: nat)
    requires WellIdentified(py, b) && ProperModel(b) && at < |b(kind)|
    ensures WellIdentified(py, MarkedModel(b, kind, at)) && ProperModel(MarkedModel(b, kind, at))
  {
    hide DistinctIds, Marked, EntryOf, Sort, Proper, Entries, TableOf;
    var a := MarkedModel(b, kind, at);
    forall other | other in KINDS ensures DistinctIds(Entries(py, a(other))) { MarkedTables(py, b, kind, at, other); }
    EveryKind(kind);
    MarkedProper(b(kind)[at]);
  }

  /** From an unsettled surface, the first model for which composition fails. */
  lemma UnsettledBreaks(py: Py, b: Model, c: Model, kind: Kind, id: Text, k: Key) returns (a: Model)
    requires WellIdentified(py, b) && ProperModel(b)
    requires Unchanged(py, b, c, kind, id) && RaisesKey(py, c, kind, id, k)
    requires !RaisesKey(py, b, kind, id, k) && !Reported(py, b, c, k)
    ensures WellIdentified(py, a) && ProperModel(a) && !Composes(py, a, b, c)
  {
    hide Raised, Table, ListsKey, StableJson, Marked, WellIdentified, ProperModel, EntryOf, Sort;
    var entries := Entries(py, b(kind));
    var at :| 0 <= at < |entries| && entries[at] == Entry(id, Table(entries)[id]);
    a := MarkedModel(b, kind, at);
    MarkedIsAModel(py, b, kind, at);
    MarkedTables(py, b, kind, at, kind);
    MarkedAtDiffers(py, b, kind, at);
    ReportedThrough(py, a, c, kind, id, k);
    if Reported(py, a, b, k) {
      var x :| IsChange(py, a, b, x) && ListsKey(Raised(py, x), k);
      MarkedChanges(py, b, kind, at, x);
      SameRaised(py, x, x.(before := None));
      assert false;
    }
  }

  lemma MarkedAtDiffers(py: Py, b: Model, kind: Kind, at: nat)
    requires ProperModel(b) && at < |b(kind)|
    ensures StableJson(Sort(FieldLe, FieldsOf(Marked(b(kind)[at])))) != StableJson(Entries(py, b(kind))[at].fields)
  {
    hide Marked, StableJson, Sort, Proper;
    EveryKind(kind);
    MarkedDiffers(b(kind)[at]);
  }

  /** Composition holds from every first model exactly when the second and the third are settled. */
  lemma DiffsComposeExactly(py: Py, b: Model, c: Model)
    requires WellIdentified(py, b) && ProperModel(b)
    ensures Settled(py, b, c) <==>
            forall a: Model :: WellIdentified(py, a) && ProperModel(a) ==> Composes(py, a, b, c)
  {
    hide RaisesKey, Unchanged, Composes, Reported, WellIdentified, ProperModel;
    if Settled(py, b, c) {
      forall a: Model ensures Composes(py, a, b, c) { SettledComposes(py, a, b, c); }
    } else {
      var kind, id, k :| Unchanged(py, b, c, kind, id) && RaisesKey(py, c, kind, id, k)
                         && !RaisesKey(py, b, kind, id, k) && !Reported(py, b, c, k);
      var a := UnsettledBreaks(py, b, c, kind, id, k);
    }
  }

  // ----- conditions on the stored models -------------------------------------------------------

  /** Unchanged surfaces are stored identically. */
  ghost predicate StoredAlike(py: Py, b: Model, c: Model) {
    forall kind, id :: Unchanged(py, b, c, kind, id) ==> TableOf(py, b, kind)[id] == TableOf(py, c, kind)[id]
  }

  lemma StoredAlikeSettled(py: Py, b: Model, c: Model)
    requires StoredAlike(py, b, c)
    ensures Settled(py, b, c)
  {
    hide Raised, ListsKey, TableOf, StableJson;
  }

  /** The names under which the importer may store mappings in any order; no rule reads them. */
  const QUIET: set<Text> := {T("customer_declarations"), T("tenant_scope"), T("controls"), T("control_evidence_state")}

  /** Outside the given names every property is in canonical form: its mappings list their keys in order. */
  predicate Orderly(item: Json, names: set<Text>) {
    Proper(item) && forall i :: 0 <= i < |FieldsOf(item)| ==>
      FieldsOf(item)[i].key in names || SortKeys(FieldsOf(item)[i].value) == FieldsOf(item)[i].value
  }

  predicate OrderlyModel(m: Model, names: set<Text>) {
    forall kind :: kind in KINDS ==> forall i :: 0 <= i < |m(kind)| ==> Orderly(m(kind)[i], names)
  }

  /** What a stored surface keeps of that: ascending unique names, canonical values. */
  ghost predicate OrderlyFields(fields: seq<Field>, names: set<Text>) {
    && UniqueKeys(fields) && Proper(Obj(fields)) && Sorted(FieldLe, fields)
    && forall i :: 0 <= i < |fields| ==> fields[i].key in names || SortKeys(fields[i].value) == fields[i].value
  }

  lemma StoredOrderly(item: Json, names: set<Text>)
    requires Orderly(item, names)
    ensures OrderlyFields(Sort(FieldLe, FieldsOf(item)), names)
  {
    hide Sort, Proper;
    var fields := FieldsOf(item);
    var sorted := Sort(FieldLe, fields);
    SortedProper(item);
    ProperUnique(sorted);
    FieldOrder();
    SortSorted(FieldLe, fields);
    forall i | 0 <= i < |sorted| ensures sorted[i].key in names || SortKeys(sorted[i].value) == sorted[i].value {
      SameElements(sorted, fields, sorted[i]);
      var j :| 0 <= j < |fields| && fields[j] == sorted[i];
    }
  }

  lemma ProperUnique(fields: seq<Field>)
    requires Proper(Obj(fields))
    ensures UniqueKeys(fields)
  {
  }

  lemma TableOrderly(py: Py, m: Model, kind: Kind, id: Text, names: set<Text>)
    requires OrderlyModel(m, names) && id in TableOf(py, m, kind)
    ensures OrderlyFields(TableOf(py, m, kind)[id], names)
  {
    hide OrderlyFields, Orderly, Sort, SurfaceId;
    var entries := Entries(py, m(kind));
    var i :| 0 <= i < |entries| && entries[i] == Entry(id, TableOf(py, m, kind)[id]);
    EveryKind(kind);
    assert entries[i] == EntryOf(py, m(kind)[i], i);
    StoredOrderly(m(kind)[i], names);
  }

  /** Fields in order stay in order when their values are sorted. */
  lemma SortKeysOfSorted(fields: seq<Field>)
    requires Sorted(FieldLe, fields)
    ensures SortKeys(Obj(fields)) == Obj(SortValues(fields))
  {
    hide Sort, SortValues, TextLe;
    var values := SortValues(fields);
    assert Sorted(FieldLe, values);
    FieldOrder();
    SortFixesSorted(FieldLe, values);
  }

  /** Two orderly stored surfaces with one canonical JSON agree field by field outside the names. */
  lemma SameJsonSameFields(fs: seq<Field>, gs: seq<Field>, names: set<Text>)
    requires OrderlyFields(fs, names) && OrderlyFields(gs, names) && StableJson(fs) == StableJson(gs)
    ensures |fs| == |gs|
    ensures forall i :: 0 <= i < |fs| ==> fs[i].key == gs[i].key && (fs[i].key in names || fs[i] == gs[i])
  {
    hide Proper, Print, UniqueKeys, SortKeys;
    SortKeysProper(Obj(fs));
    SortKeysProper(Obj(gs));
    PrintInjective(SortKeys(Obj(fs)), SortKeys(Obj(gs)));
    SortKeysOfSorted(fs);
    SortKeysOfSorted(gs);
    forall i | 0 <= i < |fs| ensures fs[i].key == gs[i].key && (fs[i].key in names || fs[i] == gs[i]) {
      assert SortValues(fs)[i] == SortValues(gs)[i];
    }
  }

  /** Models in canonical form compose; mappings may be empty, or ascending at every level. */
  lemma CanonicalModelsSettled(py: Py, b: Model, c: Model)
    requires OrderlyModel(b, {}) && OrderlyModel(c, {})
    ensures Settled(py, b, c)
  {
    hide TableOf, StableJson, OrderlyModel, OrderlyFields, RaisesKey;
    forall kind, id | Unchanged(py, b, c, kind, id) ensures TableOf(py, b, kind)[id] == TableOf(py, c, kind)[id] {
      TableOrderly(py, b, kind, id, {});
      TableOrderly(py, c, kind, id, {});
      SameJsonSameFields(TableOf(py, b, kind)[id], TableOf(py, c, kind)[id], {});
    }
    StoredAlikeSettled(py, b, c);
  }

  /** Every mapping inside lists its names in ascending order; in particular an empty one does. */
  predicate Ordered(v: Json)
    decreases v
  {
    match v
    case Arr(items) => forall i :: 0 <= i < |items| ==> Ordered(items[i])
    case Obj(fields) => Sorted(FieldLe, fields) && forall i :: 0 <= i < |fields| ==> Ordered(fields[i].value)
    case _ => true
  }

  /** That is what canonical form means. */
  lemma {:induction false} CanonicalExactlyWhenOrdered(v: Json)
    requires Proper(v)
    ensures SortKeys(v) == v <==> Ordered(v)
    decreases v
  {
    hide Sort;
    match v
    case Arr(items) =>
      forall i | 0 <= i < |items| ensures SortKeys(items[i]) == items[i] <==> Ordered(items[i]) {
        CanonicalExactlyWhenOrdered(items[i]);
      }
      assert SortItems(items) == items <==> forall i :: 0 <= i < |items| ==> SortKeys(items[i]) == items[i];
    case Obj(fields) =>
      forall i | 0 <= i < |fields| ensures SortKeys(fields[i].value) == fields[i].value <==> Ordered(fields[i].value) {
        CanonicalExactlyWhenOrdered(fields[i].value);
      }
      if SortKeys(v) == v { CanonicalFields(fields); }
      if Sorted(FieldLe, fields) { SortKeysOfSorted(fields); }
      assert SortValues(fields) == fields <==> forall i :: 0 <= i < |fields| ==> SortKeys(fields[i].value) == fields[i].value;
    case _ =>
  }

  lemma CanonicalFields(fields: seq<Field>)
    requires Proper(Obj(fields)) && SortKeys(Obj(fields)) == Obj(fields)
    ensures Sorted(FieldLe, fields)
  {
    hide Sort, Proper;
    FieldOrder();
    SortSorted(FieldLe, SortValues(fields));
  }

  // ----- names no rule reads -------------------------------------------------------------------

  ghost predicate AgreeOutside(p: Props, q: Props, names: set<Text>) {
    forall k :: k !in names ==> (k in p <==> k in q) && (k in p && k in q ==> p[k] == q[k])
  }

  lemma ViewsAgree(fs: seq<Field>, gs: seq<Field>, names: set<Text>)
    requires UniqueKeys(fs) && UniqueKeys(gs) && |fs| == |gs|
    requires forall i :: 0 <= i < |fs| ==> fs[i].key == gs[i].key && (fs[i].key in names || fs[i] == gs[i])
    ensures AgreeOutside(View(fs), View(gs), names)
  {
    hide View, UniqueKeys;
    var p, q := View(fs), View(gs);
    forall k | k !in names ensures (k in p <==> k in q) && (k in p && k in q ==> p[k] == q[k]) {
      if k in p {
        ViewKeys(fs, k);
        var i :| 0 <= i < |fs| && fs[i].key == k;
        ViewAt(fs, i);
        ViewAt(gs, i);
      } else if k in q {
        ViewKeys(gs, k);
        var i :| 0 <= i < |gs| && gs[i].key == k;
        ViewAt(fs, i);
      }
    }
  }

  lemma QuietNames()
    ensures QUIET <= TOUCHED
    ensures T("tenant_filter") !in QUIET && T("entitlement_check") !in QUIET && T("rate_limit") !in QUIET
    ensures T("method") !in QUIET && T("route") !in QUIET
  {
    QuietDiffers("tenant_filter");
    QuietDiffers("entitlement_check");
    QuietDiffers("rate_limit");
    QuietDiffers("method");
    QuietDiffers("route");
  }

  lemma QuietDiffers(name: string)
    requires name in ["tenant_filter", "entitlement_check", "rate_limit", "method", "route"]
    ensures T(name) !in QUIET
  {
    hide T;
    Differs(name, "tenant_scope");
    Differs(name, "controls");
    Differs(name, "customer_declarations");
    Differs(name, "control_evidence_state");
  }

  lemma QuietDeclares(p: Props, q: Props)
    requires AgreeOutside(p, q, QUIET)
    ensures Declares(p, q)
  {
    hide T, QUIET, TOUCHED;
    QuietNames();
  }

  /** The rules do not read the quiet names. */
  lemma QuietRaisesAlike(py: Py, x: Change, y: Change, k: Key)
    requires PlainWords(py) && x.kind == y.kind && x.id == y.id && AgreeOutside(View(x.after), View(y.after), QUIET)
    requires ListsKey(Raised(py, y), k)
    ensures ListsKey(Raised(py, x), k)
  {
    hide View, RiskFindings, Declares, PlainWords, QUIET, T;
    var p, q := View(x.after), View(y.after);
    QuietDeclares(p, q);
    DeclaringAddsNothing(py, x.kind, x.id, p, q);
    QuietNames();
    var i :| 0 <= i < |Raised(py, y)| && Raised(py, y)[i].key == k;
    var found := RiskFindings(py, x.kind, x.id, p);
    assert RiskFindings(py, x.kind, x.id, q)[i] in found;
    var j :| 0 <= j < |found| && found[j] == RiskFindings(py, x.kind, x.id, q)[i];
    assert Raised(py, x)[j].key == k;
  }

  /**
   Models compose whose mappings are in order wherever a rule might read them. What customers declared is stored in
   the order of their answers, and does not matter.
   */
  lemma OrderlyModelsSettled(py: Py, b: Model, c: Model)
    requires PlainWords(py) && OrderlyModel(b, QUIET) && OrderlyModel(c, QUIET)
    ensures Settled(py, b, c)
  {
    hide TableOf, StableJson, OrderlyModel, OrderlyFields, Raised, ListsKey, QUIET, PlainWords, View, AgreeOutside;
    forall kind, id, k | Unchanged(py, b, c, kind, id) && RaisesKey(py, c, kind, id, k) ensures RaisesKey(py, b, kind, id, k) {
      var fs, gs := TableOf(py, b, kind)[id], TableOf(py, c, kind)[id];
      TableOrderly(py, b, kind, id, QUIET);
      TableOrderly(py, c, kind, id, QUIET);
      SameJsonSameFields(fs, gs, QUIET);
      OrderlyUnique(fs, QUIET);
      OrderlyUnique(gs, QUIET);
      ViewsAgree(fs, gs, QUIET);
      QuietRaisesAlike(py, Change(kind, id, None, fs), Change(kind, id, None, gs), k);
    }
  }

  lemma OrderlyUnique(fields: seq<Field>, names: set<Text>)
    requires OrderlyFields(fields, names)
    ensures UniqueKeys(fields)
  {
  }
}
