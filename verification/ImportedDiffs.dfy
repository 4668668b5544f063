/**
 Diffs between imported models compose. The importer writes texts and lists of texts; the one mapping it copies into
 every surface, the customer's declarations, is read by no rule; only the properties of an agent tool are taken over as
 they are, and have to be in order.
 */
module ImportedDiffs {
  import opened Options
  import opened Sorting
  import opened JsonText
  import opened Canonical
  import opened OpenApi
  import opened Declaring
  import opened AnswerFindings
  import opened ImportedModel
  import opened Composition
  import S = StaticReview

  /** A parsed value, in canonical form unless no rule reads it under this name. */
  predicate InOrder(key: Text, v: Json) { Proper(v) && (key in QUIET || SortKeys(v) == v) }

  predicate PropsInOrder(p: S.Props) { forall k :: k in p ==> InOrder(k, p[k]) }

  /** What the document has to be like: declarations are parsed JSON, agent tools have their mappings in order. */
  predicate DocumentInOrder(doc: Document) {
    forall ref :: ref in doc.ops ==> OperationInOrder(doc.ops[ref])
  }

  predicate OperationInOrder(op: Operation) {
    (op.declarations.Some? ==> Proper(op.declarations.value)) && PropsInOrder(Overrides(op.fixed.agentTool))
  }

  lemma TextInOrder(key: Text, t: Text)
    ensures InOrder(key, Str(t))
  {
  }

  lemma TextsInOrder(key: Text, ts: seq<Text>)
    ensures InOrder(key, Texts(ts))
  {
    assert SortItems(Texts(ts).items) == Texts(ts).items;
  }

  lemma SetInOrder(p: S.Props, key: Text, v: Option<Json>)
    requires PropsInOrder(p) && (v.Some? ==> InOrder(key, v.value))
    ensures PropsInOrder(SetOpt(p, key, v))
  {
    hide InOrder;
  }

  lemma JoinInOrder(p: S.Props, q: S.Props)
    requires PropsInOrder(p) && PropsInOrder(q)
    ensures PropsInOrder(p + q)
  {
    hide InOrder;
  }

  // ----- one operation -------------------------------------------------------------------------

  lemma BaseInOrder(c: Conv, place: Place, fixed: Fixed)
    ensures PropsInOrder(Base(c, place, fixed))
  {
    hide T, SetOpt, InOrder, PropsInOrder, ValueOf, Texts, SurfaceId;
    forall key, t ensures InOrder(key, Str(t)) { TextInOrder(key, t); }
    forall key, ts ensures InOrder(key, Texts(ts)) { TextsInOrder(key, ts); }
    NothingInOrder();
    forall p, key, v: Option<Json> | PropsInOrder(p) && (v.Some? ==> InOrder(key, v.value)) ensures PropsInOrder(SetOpt(p, key, v)) {
      SetInOrder(p, key, v);
    }
  }

  lemma NothingInOrder()
    ensures PropsInOrder(map[])
  {
  }

  lemma MetadataInOrder(c: Conv, op: Operation)
    requires OperationInOrder(op)
    ensures PropsInOrder(Metadata(c, op))
  {
    hide T, SetOpt, InOrder, PropsInOrder, ValueOf, Texts, ControlList, HasFamily, LacksFamily, Overrides;
    forall key, t ensures InOrder(key, Str(t)) { TextInOrder(key, t); }
    forall key, ts ensures InOrder(key, Texts(ts)) { TextsInOrder(key, ts); }
    NothingInOrder();
    assert InOrder(T("customer_declarations"), if op.declarations.Some? then op.declarations.value else Obj([])) by {
      DeclarationsInOrder(if op.declarations.Some? then op.declarations.value else Obj([]));
    }
    forall p, key, v: Option<Json> | PropsInOrder(p) && (v.Some? ==> InOrder(key, v.value)) ensures PropsInOrder(SetOpt(p, key, v)) {
      SetInOrder(p, key, v);
    }
  }

  lemma DeclarationsInOrder(v: Json)
    requires Proper(v) || v == Obj([])
    ensures InOrder(T("customer_declarations"), v)
  {
  }

  lemma EntryInOrder(c: Conv, place: Place, op: Operation)
    requires OperationInOrder(op)
    ensures PropsInOrder(Entry(c, place, op))
  {
    hide Base, Metadata, PropsInOrder, OperationInOrder;
    BaseInOrder(c, place, op.fixed);
    MetadataInOrder(c, op);
    JoinInOrder(Base(c, place, op.fixed), Metadata(c, op));
  }

  lemma OneInOrder(key: Text, v: Json)
    requires InOrder(key, v)
    ensures PropsInOrder(map[key := v])
  {
    hide InOrder;
  }

  lemma ExtraInOrder(c: Conv, place: Place, op: Operation, l: List)
    requires OperationInOrder(op)
    ensures PropsInOrder(Extra(c, place, op.fixed, l))
  {
    hide T, InOrder, PropsInOrder, Texts, SurfaceId, Overrides;
    forall key, t ensures InOrder(key, Str(t)) { TextInOrder(key, t); }
    forall key, ts ensures InOrder(key, Texts(ts)) { TextsInOrder(key, ts); }
    forall key, v | InOrder(key, v) ensures PropsInOrder(map[key := v]) { OneInOrder(key, v); }
    forall p, q | PropsInOrder(p) && PropsInOrder(q) ensures PropsInOrder(p + q) { JoinInOrder(p, q); }
    NothingInOrder();
  }

  lemma ExportInOrder(c: Conv, place: Place, op: Operation)
    requires OperationInOrder(op)
    ensures PropsInOrder(ExportEntry(c, place, op))
  {
    hide T, InOrder, PropsInOrder, Entry, HasFamily, LacksFamily, HasEntitlement, OperationInOrder;
    forall key, t ensures InOrder(key, Str(t)) { TextInOrder(key, t); }
    EntryInOrder(c, place, op);
    OneInOrder(T("kind"), Str(T("export")));
    JoinInOrder(Entry(c, place, op), Tagged("export"));
    var p := Entry(c, place, op) + Tagged("export");
    SetInOrder(p, T("entitlement_check"), Some(ExportState(c, op, Entitlement)));
    SetInOrder(p[T("entitlement_check") := ExportState(c, op, Entitlement)], T("rate_limit"), Some(ExportState(c, op, Rate)));
  }

  lemma ListInOrder(c: Conv, place: Place, op: Operation, l: List)
    requires OperationInOrder(op)
    ensures PropsInOrder(ListEntry(c, place, op, l))
  {
    hide Entry, ExportEntry, Extra, PropsInOrder, OperationInOrder;
    if l.ExportList? {
      ExportInOrder(c, place, op);
    } else {
      EntryInOrder(c, place, op);
      ExtraInOrder(c, place, op, l);
      JoinInOrder(Entry(c, place, op), Extra(c, place, op.fixed, l));
    }
  }

  lemma ControlsInOrder(c: Conv, place: Place, op: Operation)
    ensures PropsInOrder(ControlProps(c, place, op)) && PropsInOrder(ClassProps(c, op.fixed))
  {
    hide T, InOrder, Texts, SurfaceId, ControlList, ValueOf;
    forall key, t ensures InOrder(key, Str(t)) { TextInOrder(key, t); }
    forall key, ts ensures InOrder(key, Texts(ts)) { TextsInOrder(key, ts); }
  }

  lemma SchemeInOrder(scheme: Scheme)
    ensures PropsInOrder(SchemeProps(scheme))
  {
    hide T, InOrder, Texts;
    forall key, t ensures InOrder(key, Str(t)) { TextInOrder(key, t); }
    forall key, ts ensures InOrder(key, Texts(ts)) { TextsInOrder(key, ts); }
  }

  // ----- the model -----------------------------------------------------------------------------

  predicate AllInOrder(items: seq<S.Props>) { forall j :: 0 <= j < |items| ==> PropsInOrder(items[j]) }

  lemma PlaceInOrder(c: Conv, place: Place, op: Operation, kind: S.Kind)
    requires OperationInOrder(op)
    ensures AllInOrder(AtPlace(c, place, op, kind))
  {
    hide Entry, ListEntry, ControlProps, ClassProps, PropsInOrder, OperationInOrder, Joins, ControlList, ValueOf;
    EntryInOrder(c, place, op);
    ControlsInOrder(c, place, op);
    if ListOf(kind).Some? { ListInOrder(c, place, op, ListOf(kind).value); }
  }

  lemma {:induction false} GatheredInOrder(c: Conv, ops: map<nat, Operation>, places: seq<Place>, kind: S.Kind)
    requires forall ref :: ref in ops ==> OperationInOrder(ops[ref])
    ensures AllInOrder(Gathered(c, ops, places, kind))
  {
    hide AtPlace, PropsInOrder, OperationInOrder;
    if places != [] {
      var n := |places| - 1;
      GatheredInOrder(c, ops, places[..n], kind);
      if places[n].ref in ops { PlaceInOrder(c, places[n], ops[places[n].ref], kind); }
    }
  }

  lemma ItemsInOrder(c: Conv, doc: Document, kind: S.Kind)
    requires DocumentInOrder(doc)
    ensures AllInOrder(Items(c, doc, kind))
  {
    hide Gathered, PropsInOrder, OperationInOrder, SchemeProps, Firsts;
    GatheredInOrder(c, doc.ops, doc.places, kind);
    forall i | 0 <= i < |doc.schemes| ensures PropsInOrder(SchemeProps(doc.schemes[i])) { SchemeInOrder(doc.schemes[i]); }
    if kind.DataClasses? {
      var items, gathered := Items(c, doc, kind), Gathered(c, doc.ops, doc.places, kind);
      forall j | 0 <= j < |items| ensures PropsInOrder(items[j]) { assert items[j] in items && items[j] in gathered; }
    }
  }

  lemma ListingInOrder(kind: S.Kind, p: S.Props)
    requires PropsInOrder(p)
    ensures Orderly(Listing(kind, p), QUIET)
  {
    hide QUIET, T;
    var fs := S.FieldsOf(Listing(kind, p));
    ListingView(kind, p);
    forall i | 0 <= i < |fs| ensures InOrder(fs[i].key, fs[i].value) { S.ViewAt(fs, i); }
  }

  lemma ImportedModelOrderly(c: Conv, doc: Document)
    requires DocumentInOrder(doc)
    ensures OrderlyModel(ModelOf(c, doc), QUIET)
  {
    hide DocumentInOrder, Items, PropsInOrder, Orderly, Listing;
    forall kind, i | 0 <= i < |ModelOf(c, doc)(kind)| ensures Orderly(ModelOf(c, doc)(kind)[i], QUIET) {
      ItemsInOrder(c, doc, kind);
      ListingInOrder(kind, Items(c, doc, kind)[i]);
    }
  }

  /** Diffs through an imported model to an imported model compose, from every first model. */
  lemma ImportedDiffsCompose(c: Conv, a: S.Model, middle: Document, last: Document)
    requires PlainWords(c.py) && DocumentInOrder(middle) && DocumentInOrder(last)
    ensures Composes(c.py, a, ModelOf(c, middle), ModelOf(c, last))
  {
    hide PlainWords, DocumentInOrder, ModelOf, OrderlyModel, Composes, Settled;
    ImportedModelOrderly(c, middle);
    ImportedModelOrderly(c, last);
    OrderlyModelsSettled(c.py, ModelOf(c, middle), ModelOf(c, last));
    SettledComposes(c.py, a, ModelOf(c, middle), ModelOf(c, last));
  }
}
