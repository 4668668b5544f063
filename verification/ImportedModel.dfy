/**
 The product model the importer makes of a document, handed to the static review. The review of the model reports what
 the document raises, a second review of the answered document succeeds when the first one does and never has a worse
 gate, and diffs between imported models compose.
 */
module ImportedModel {
  import opened Options
  import opened Sorting
  import opened JsonText
  import opened Canonical
  import opened OpenApi
  import opened Answers
  import opened AnswerEffects
  import opened Declaring
  import opened AnswerFindings
  import opened AnswerReview
  import S = StaticReview
  import Rules = RiskRules

  // ----- the model -----------------------------------------------------------------------------

  /** The fields of a dictionary; the review sorts them, so their order does not matter. */
  ghost function ToFields(p: S.Props): (r: seq<Field>)
    ensures UniqueKeys(r) && S.View(r) == p
    ensures forall i :: 0 <= i < |r| ==> r[i].key in p && p[r[i].key] == r[i].value
    decreases |p|
  {
    if p == map[] then []
    else
      var k :| k in p;
      var rest := ToFields(p - {k});
      S.ViewPush(rest, Field(k, p[k]));
      assert p == (p - {k})[k := p[k]];
      rest + [Field(k, p[k])]
  }

  /** A data class is listed as a bare text, every other surface as an object. */
  ghost function Listing(kind: S.Kind, p: S.Props): Json {
    if kind.DataClasses? && T("value") in p && p[T("value")].Str? && p == map[T("value") := p[T("value")]] then p[T("value")]
    else Obj(ToFields(p))
  }

  ghost function Listings(kind: S.Kind, items: seq<S.Props>): (r: seq<Json>)
    ensures |r| == |items| && forall i :: 0 <= i < |items| ==> r[i] == Listing(kind, items[i])
  {
    seq(|items|, i requires 0 <= i < |items| => Listing(kind, items[i]))
  }

  /** `product_model_from_openapi`, as far as the review reads it. */
  ghost function ModelOf(c: Conv, doc: Document): S.Model {
    kind => Listings(kind, Items(c, doc, kind))
  }

  lemma ListingView(kind: S.Kind, p: S.Props)
    ensures var fs := S.FieldsOf(Listing(kind, p)); UniqueKeys(fs) && S.View(fs) == p
  {
    hide T;
    var item := Listing(kind, p);
    if !item.Obj? {
      var f := Field(T("value"), item);
      S.ViewPush([], f);
      assert [] + [f] == [f];
    }
  }

  lemma StoredView(kind: S.Kind, p: S.Props)
    ensures S.View(Sort(FieldLe, S.FieldsOf(Listing(kind, p)))) == p
  {
    hide Listing, Sort, S.View;
    var fs := S.FieldsOf(Listing(kind, p));
    ListingView(kind, p);
    S.ViewPermuted(fs, Sort(FieldLe, fs));
  }

  /** The dictionary entry of an item: its identifier and its properties. */
  lemma EntryAt(c: Conv, doc: Document, kind: S.Kind, j: nat)
    requires j < |Items(c, doc, kind)|
    ensures var e := S.Entries(c.py, ModelOf(c, doc)(kind))[j]; var p := Items(c, doc, kind)[j];
            e.id == S.SurfaceId(c.py, p, j) && S.View(e.fields) == p
  {
    hide Items, Listing, Sort, S.View, S.SurfaceId;
    var p := Items(c, doc, kind)[j];
    assert ModelOf(c, doc)(kind)[j] == Listing(kind, p);
    ListingView(kind, p);
    StoredView(kind, p);
  }

  // ----- the review of the model ---------------------------------------------------------------

  lemma RaisedChange(c: Conv, kind: S.Kind, index: int, p: S.Props, x: S.Change, l: S.Located)
    requires x.kind == kind && x.id == S.SurfaceId(c.py, p, index) && S.View(x.after) == p
    ensures l in S.Raised(c.py, x) <==> Raises(c, kind, p, index, l)
  {
    hide S.View, S.RiskFindings, S.SurfaceId, S.KeyOf;
    var raised, found := S.Raised(c.py, x), S.RiskFindings(c.py, kind, x.id, p);
    if l in raised {
      var i :| 0 <= i < |raised| && raised[i] == l;
      assert found[i] == l.finding;
    }
    if Raises(c, kind, p, index, l) {
      var i :| 0 <= i < |found| && found[i] == l.finding;
      assert raised[i] == l;
    }
  }

  /** What the review of the model against the empty baseline can report is what the document raises. */
  lemma OriginatesExactly(c: Conv, doc: Document, l: S.Located)
    requires S.WellIdentified(c.py, ModelOf(c, doc))
    ensures S.Originates(c.py, S.EMPTY, ModelOf(c, doc), l) <==> RaisedBy(c, doc, l)
  {
    if S.Originates(c.py, S.EMPTY, ModelOf(c, doc), l) { OriginIsRaised(c, doc, l); }
    if RaisedBy(c, doc, l) { RaisedOriginates(c, doc, l); }
  }

  lemma OriginIsRaised(c: Conv, doc: Document, l: S.Located)
    requires S.Originates(c.py, S.EMPTY, ModelOf(c, doc), l)
    ensures RaisedBy(c, doc, l)
  {
    hide ModelOf, Items, S.Raised, S.EntryOf, S.StableJson, Raises;
    var m := ModelOf(c, doc);
    var x :| S.IsChange(c.py, S.EMPTY, m, x) && l in S.Raised(c.py, x);
    var entries := S.Entries(c.py, m(x.kind));
    var j :| 0 <= j < |entries| && entries[j] == S.Entry(x.id, x.after);
    ModelLength(c, doc, x.kind);
    EntryAt(c, doc, x.kind, j);
    RaisedChange(c, x.kind, j, Items(c, doc, x.kind)[j], x, l);
    assert RaisedIn(c, x.kind, Items(c, doc, x.kind), l);
  }

  lemma ModelLength(c: Conv, doc: Document, kind: S.Kind)
    ensures |ModelOf(c, doc)(kind)| == |Items(c, doc, kind)|
  {
  }

  lemma RaisedOriginates(c: Conv, doc: Document, l: S.Located)
    requires S.WellIdentified(c.py, ModelOf(c, doc)) && RaisedBy(c, doc, l)
    ensures S.Originates(c.py, S.EMPTY, ModelOf(c, doc), l)
  {
    hide ModelOf, Items, S.Raised, S.EntryOf, S.StableJson, Raises, S.Table, S.DistinctIds;
    var m := ModelOf(c, doc);
    var kind :| RaisedIn(c, kind, Items(c, doc, kind), l);
    var j :| 0 <= j < |Items(c, doc, kind)| && Raises(c, kind, Items(c, doc, kind)[j], j, l);
    ModelLength(c, doc, kind);
    EntryAt(c, doc, kind, j);
    var e := S.Entries(c.py, m(kind))[j];
    S.EveryKind(kind);
    S.TableAt(S.Entries(c.py, m(kind)), j);
    var x := S.Change(kind, e.id, None, e.fields);
    NothingBefore(c.py, kind);
    assert S.IsChange(c.py, S.EMPTY, m, x);
    RaisedChange(c, kind, j, Items(c, doc, kind)[j], x, l);
  }

  lemma NothingBefore(py: S.Py, kind: S.Kind)
    ensures S.TableOf(py, S.EMPTY, kind) == map[]
  {
  }

  /** A review of the imported model is a deduplication of what the document raises. */
  lemma ReviewReports(c: Conv, doc: Document, review: S.Review)
    requires S.WellIdentified(c.py, ModelOf(c, doc)) && S.IsReview(c.py, S.EMPTY, ModelOf(c, doc), review)
    ensures Reports(c, doc, review.findings)
  {
    hide ModelOf, RaisedBy, S.WellIdentified, S.IsChange, S.Raised, S.ListsKey, S.UniqueLocations, S.GateOf;
    var m := ModelOf(c, doc);
    forall l | l in review.findings ensures RaisedBy(c, doc, l) {
      var i :| 0 <= i < |review.findings| && review.findings[i] == l;
      OriginatesExactly(c, doc, l);
    }
    forall l | RaisedBy(c, doc, l) ensures S.ListsKey(review.findings, l.key) {
      OriginatesExactly(c, doc, l);
      OriginReported(c.py, m, l);
    }
  }

  lemma OriginReported(py: S.Py, m: S.Model, l: S.Located)
    requires S.Originates(py, S.EMPTY, m, l)
    ensures S.Reported(py, S.EMPTY, m, l.key)
  {
    hide S.IsChange, S.Raised;
    var x :| S.IsChange(py, S.EMPTY, m, x) && l in S.Raised(py, x);
    assert S.ListsKey(S.Raised(py, x), l.key);
  }

  // ----- identifiers ---------------------------------------------------------------------------

  /** Python's `str` leaves a text alone, and the safe identifier is never empty. */
  ghost predicate Named(c: Conv) {
    (forall t :: c.py.str(Str(t)) == t) && (forall t :: c.safeId(t) != [])
  }

  lemma SurfaceIdOf(c: Conv, p: S.Props, t: Text, index: int)
    requires Named(c) && T("id") in p && p[T("id")] == Str(t) && t != []
    ensures S.SurfaceId(c.py, p, index) == t
  {
    assert S.ID_KEYS[0] == "id";
    assert S.Get(p, "id") == Str(t);
  }

  lemma IdentityId(c: Conv, place: Place, fixed: Fixed)
    ensures var m := Identity(c, place, fixed); T("id") in m && m[T("id")] == Str(SurfaceId(c, place, fixed))
  {
    hide T, SurfaceId;
    Differs("id", "operation_id");
    Differs("id", "route");
    Differs("id", "method");
  }

  lemma BaseId(c: Conv, place: Place, fixed: Fixed)
    ensures var m := Base(c, place, fixed); T("id") in m && m[T("id")] == Str(SurfaceId(c, place, fixed))
  {
    hide T, SurfaceId, Identity, ValueOf, Texts, TextOr;
    IdentityId(c, place, fixed);
    Differs("id", "product_area");
    Differs("id", "tags");
    Differs("id", "required_plan");
    Differs("id", "data_class");
    Differs("id", "rule_source");
  }

  lemma EntryId(c: Conv, place: Place, op: Operation)
    ensures var m := Entry(c, place, op); T("id") in m && m[T("id")] == Str(SurfaceId(c, place, op.fixed))
  {
    hide T, SurfaceId, Base, Metadata, TOUCHED;
    BaseId(c, place, op.fixed);
    MetadataReads(c, op);
    ClearIsUntouched("id");
  }

  /** The identifiers of the operations, place by place. */
  function Ids(c: Conv, ops: map<nat, Operation>, places: seq<Place>): seq<Text> {
    if places == [] then []
    else
      var last := places[|places| - 1];
      Ids(c, ops, places[..|places| - 1]) + if last.ref in ops then [SurfaceId(c, last, ops[last.ref].fixed)] else []
  }

  /** The identifiers of items, wherever they stand in their list. */
  ghost predicate HaveIds(c: Conv, items: seq<S.Props>, ids: seq<Text>) {
    |items| == |ids| && forall j, index :: 0 <= j < |items| ==> S.SurfaceId(c.py, items[j], index) == ids[j]
  }

  lemma {:induction false} EndpointIds(c: Conv, ops: map<nat, Operation>, places: seq<Place>)
    requires Named(c)
    ensures HaveIds(c, Gathered(c, ops, places, S.EndpointsRoutes), Ids(c, ops, places))
  {
    hide Entry, Named, S.SurfaceId, SurfaceId, T;
    if places != [] {
      var n := |places| - 1;
      var last := places[n];
      EndpointIds(c, ops, places[..n]);
      if last.ref in ops {
        forall index: int ensures S.SurfaceId(c.py, Entry(c, last, ops[last.ref]), index) == SurfaceId(c, last, ops[last.ref].fixed) {
          EntryId(c, last, ops[last.ref]);
          NonEmptyId(c, last, ops[last.ref].fixed);
          SurfaceIdOf(c, Entry(c, last, ops[last.ref]), SurfaceId(c, last, ops[last.ref].fixed), index);
        }
      }
    }
  }

  lemma NonEmptyId(c: Conv, place: Place, fixed: Fixed)
    requires Named(c)
    ensures SurfaceId(c, place, fixed) != []
  {
  }

  predicate AllDistinct(ids: seq<Text>) { forall i, j :: 0 <= i < j < |ids| ==> ids[i] != ids[j] }

  function ControlsId(id: Text): Text { T("operation:") + id + T(":controls") }

  lemma ControlsIdInjective(s: Text, t: Text)
    requires ControlsId(s) == ControlsId(t)
    ensures s == t
  {
    var n := |T("operation:")|;
    assert ControlsId(s)[n..n + |s|] == s && ControlsId(t)[n..n + |t|] == t;
  }

  lemma ControlPropsId(c: Conv, place: Place, op: Operation, index: int)
    requires Named(c)
    ensures S.SurfaceId(c.py, ControlProps(c, place, op), index) == ControlsId(SurfaceId(c, place, op.fixed))
  {
    hide T, S.SurfaceId, SurfaceId, Texts, Named;
    Differs("id", "route");
    Differs("id", "controls");
    assert ControlsId(SurfaceId(c, place, op.fixed)) != [] by { ControlsIdStarts(SurfaceId(c, place, op.fixed)); }
    SurfaceIdOf(c, ControlProps(c, place, op), ControlsId(SurfaceId(c, place, op.fixed)), index);
  }

  lemma ControlsIdStarts(t: Text)
    ensures ControlsId(t) != [] && ControlsId(t)[0] == 'o' as int
  {
    assert T("operation:")[0] == 'o' as int;
  }

  /** Which operations have a list of controls. */
  ghost function ControlIds(c: Conv, ops: map<nat, Operation>, places: seq<Place>): seq<Text> {
    if places == [] then []
    else
      var last := places[|places| - 1];
      ControlIds(c, ops, places[..|places| - 1])
      + if last.ref in ops && ControlList(c, ops[last.ref].control) != [] then [ControlsId(SurfaceId(c, last, ops[last.ref].fixed))] else []
  }

  lemma {:induction false} ControlItemIds(c: Conv, ops: map<nat, Operation>, places: seq<Place>)
    requires Named(c)
    ensures HaveIds(c, Gathered(c, ops, places, S.DeclaredControls), ControlIds(c, ops, places))
  {
    hide Named, S.SurfaceId, SurfaceId, T, ControlList, ControlProps, ControlsId;
    if places != [] {
      var n := |places| - 1;
      var last := places[n];
      ControlItemIds(c, ops, places[..n]);
      if last.ref in ops {
        forall index: int
          ensures S.SurfaceId(c.py, ControlProps(c, last, ops[last.ref]), index) == ControlsId(SurfaceId(c, last, ops[last.ref].fixed))
        {
          ControlPropsId(c, last, ops[last.ref], index);
        }
      }
    }
  }

  predicate NamesOne(ids: seq<Text>, t: Text) { exists i :: 0 <= i < |ids| && t == ControlsId(ids[i]) }

  /** Distinct operations have distinct lists of controls. */
  lemma {:induction false} ControlIdsDistinct(c: Conv, ops: map<nat, Operation>, places: seq<Place>)
    requires AllDistinct(Ids(c, ops, places))
    ensures AllDistinct(ControlIds(c, ops, places))
    ensures forall t :: t in ControlIds(c, ops, places) ==> NamesOne(Ids(c, ops, places), t)
  {
    hide SurfaceId, ControlList, ControlsId;
    if places != [] {
      var n := |places| - 1;
      var last := places[n];
      var init, all := Ids(c, ops, places[..n]), Ids(c, ops, places);
      assert forall i :: 0 <= i < |init| ==> init[i] == all[i];
      ControlIdsDistinct(c, ops, places[..n]);
      forall t | NamesOne(init, t) ensures NamesOne(all, t) {
        var i :| 0 <= i < |init| && t == ControlsId(init[i]);
        assert t == ControlsId(all[i]);
      }
      if last.ref in ops {
        var id := SurfaceId(c, last, ops[last.ref].fixed);
        assert all[|init|] == id;
        assert NamesOne(all, ControlsId(id));
        forall i | 0 <= i < |init| ensures ControlsId(init[i]) != ControlsId(id) {
          if ControlsId(init[i]) == ControlsId(id) { ControlsIdInjective(init[i], id); }
        }
        var earlier := ControlIds(c, ops, places[..n]);
        forall k | 0 <= k < |earlier| ensures earlier[k] != ControlsId(id) {
          assert earlier[k] in earlier && NamesOne(init, earlier[k]);
        }
      }
    }
  }

  function SchemeId(scheme: Scheme): Text { T("security_scheme:") + scheme.name }

  lemma SchemePropsId(c: Conv, scheme: Scheme, index: int)
    requires Named(c)
    ensures S.SurfaceId(c.py, SchemeProps(scheme), index) == SchemeId(scheme) && SchemeId(scheme) != [] && SchemeId(scheme)[0] == 's' as int
  {
    hide S.SurfaceId, Texts, Named, T;
    Differs("id", "name");
    Differs("id", "kind");
    Differs("id", "scopes");
    SchemeStarts(scheme);
    SurfaceIdOf(c, SchemeProps(scheme), SchemeId(scheme), index);
  }

  lemma SchemeStarts(scheme: Scheme)
    ensures SchemeId(scheme) != [] && SchemeId(scheme)[0] == 's' as int
  {
    assert T("security_scheme:")[0] == 's' as int;
  }

  function SchemeIds(schemes: seq<Scheme>): (r: seq<Text>)
    ensures |r| == |schemes| && forall i :: 0 <= i < |r| ==> r[i] == SchemeId(schemes[i])
  {
    seq(|schemes|, i requires 0 <= i < |schemes| => SchemeId(schemes[i]))
  }

  lemma SchemeItemIds(c: Conv, schemes: seq<Scheme>)
    requires Named(c)
    ensures HaveIds(c, SchemeItems(schemes), SchemeIds(schemes))
  {
    hide S.SurfaceId, SchemeProps, Named, SchemeId;
    forall j, index: int | 0 <= j < |schemes| ensures S.SurfaceId(c.py, SchemeItems(schemes)[j], index) == SchemeIds(schemes)[j] {
      SchemePropsId(c, schemes[j], index);
    }
  }

  // ----- the second review ---------------------------------------------------------------------

  /** A list is well identified when its items have distinct identifiers at their places. */
  lemma DistinctExactly(c: Conv, doc: Document, kind: S.Kind)
    ensures S.DistinctIds(S.Entries(c.py, ModelOf(c, doc)(kind))) <==>
            forall i, j :: 0 <= i < j < |Items(c, doc, kind)| ==>
              S.SurfaceId(c.py, Items(c, doc, kind)[i], i) != S.SurfaceId(c.py, Items(c, doc, kind)[j], j)
  {
    hide Items, ModelOf, S.EntryOf, S.SurfaceId, S.View;
    ModelLength(c, doc, kind);
    forall j | 0 <= j < |Items(c, doc, kind)|
      ensures S.Entries(c.py, ModelOf(c, doc)(kind))[j].id == S.SurfaceId(c.py, Items(c, doc, kind)[j], j)
    {
      EntryAt(c, doc, kind, j);
    }
  }

  lemma DeclaredStayDistinct(c: Conv, doc: Document, after: Document, kind: S.Kind)
    requires after.places == doc.places && AllProgress(c, doc.ops, after.ops, doc.places) && !kind.DeclaredControls?
    requires S.DistinctIds(S.Entries(c.py, ModelOf(c, doc)(kind)))
    ensures S.DistinctIds(S.Entries(c.py, ModelOf(c, after)(kind)))
  {
    hide Items, ModelOf, S.Entries, S.DistinctIds, S.SurfaceId, AllProgress, Declares;
    ItemsDeclare(c, doc, after, kind);
    DistinctExactly(c, doc, kind);
    DistinctExactly(c, after, kind);
    forall j | 0 <= j < |Items(c, doc, kind)|
      ensures S.SurfaceId(c.py, Items(c, doc, kind)[j], j) == S.SurfaceId(c.py, Items(c, after, kind)[j], j)
    {
      SameIdentity(c, kind, Items(c, doc, kind)[j], Items(c, after, kind)[j], j, S.AgentSurfaceOverscope);
    }
  }

  lemma EndpointsDistinct(c: Conv, doc: Document)
    requires Named(c) && S.DistinctIds(S.Entries(c.py, ModelOf(c, doc)(S.EndpointsRoutes)))
    ensures AllDistinct(Ids(c, doc.ops, doc.places))
  {
    hide ModelOf, S.Entries, S.DistinctIds, S.SurfaceId, Named, Ids, Gathered;
    EndpointIds(c, doc.ops, doc.places);
    DistinctExactly(c, doc, S.EndpointsRoutes);
    var items, ids := Items(c, doc, S.EndpointsRoutes), Ids(c, doc.ops, doc.places);
    forall i, j | 0 <= i < j < |ids| ensures ids[i] != ids[j] {
      assert S.SurfaceId(c.py, items[i], i) == ids[i] && S.SurfaceId(c.py, items[j], j) == ids[j];
    }
  }

  lemma SchemesDistinct(c: Conv, doc: Document)
    requires Named(c) && S.DistinctIds(S.Entries(c.py, ModelOf(c, doc)(S.DeclaredControls)))
    ensures AllDistinct(SchemeIds(doc.schemes))
  {
    hide ModelOf, S.Entries, S.DistinctIds, S.SurfaceId, Named, Gathered, SchemeProps, SchemeId;
    SchemeItemIds(c, doc.schemes);
    DistinctExactly(c, doc, S.DeclaredControls);
    var items, ids := Items(c, doc, S.DeclaredControls), SchemeIds(doc.schemes);
    forall i, j | 0 <= i < j < |ids| ensures ids[i] != ids[j] {
      assert items[i] == SchemeItems(doc.schemes)[i] && items[j] == SchemeItems(doc.schemes)[j];
      assert S.SurfaceId(c.py, SchemeItems(doc.schemes)[i], i) == ids[i] && S.SurfaceId(c.py, SchemeItems(doc.schemes)[j], j) == ids[j];
    }
  }

  lemma ControlsDistinct(c: Conv, doc: Document)
    requires Named(c) && AllDistinct(Ids(c, doc.ops, doc.places)) && AllDistinct(SchemeIds(doc.schemes))
    ensures S.DistinctIds(S.Entries(c.py, ModelOf(c, doc)(S.DeclaredControls)))
  {
    hide ModelOf, S.Entries, S.DistinctIds, S.SurfaceId, Named, Gathered, SchemeItems, SchemeIds, ControlIds, Ids, ControlsId, SchemeId;
    SchemeItemIds(c, doc.schemes);
    ControlItemIds(c, doc.ops, doc.places);
    ControlIdsDistinct(c, doc.ops, doc.places);
    DistinctExactly(c, doc, S.DeclaredControls);
    var first, second := SchemeIds(doc.schemes), ControlIds(c, doc.ops, doc.places);
    forall i, j | 0 <= i < |first| && 0 <= j < |second| ensures first[i] != second[j] {
      SchemeStarts(doc.schemes[i]);
      assert second[j] in second && NamesOne(Ids(c, doc.ops, doc.places), second[j]);
      var k :| 0 <= k < |Ids(c, doc.ops, doc.places)| && second[j] == ControlsId(Ids(c, doc.ops, doc.places)[k]);
      ControlsIdStarts(Ids(c, doc.ops, doc.places)[k]);
    }
    JoinedIds(c, SchemeItems(doc.schemes), first, Gathered(c, doc.ops, doc.places, S.DeclaredControls), second);
  }

  lemma JoinedIds(c: Conv, ps: seq<S.Props>, ids: seq<Text>, qs: seq<S.Props>, more: seq<Text>)
    requires HaveIds(c, ps, ids) && HaveIds(c, qs, more) && AllDistinct(ids) && AllDistinct(more)
    requires forall i, j :: 0 <= i < |ids| && 0 <= j < |more| ==> ids[i] != more[j]
    ensures forall i, j :: 0 <= i < j < |ps + qs| ==> S.SurfaceId(c.py, (ps + qs)[i], i) != S.SurfaceId(c.py, (ps + qs)[j], j)
  {
    hide S.SurfaceId;
    var all, texts := ps + qs, ids + more;
    forall j | 0 <= j < |all| ensures S.SurfaceId(c.py, all[j], j) == texts[j] {
      if j < |ps| { assert all[j] == ps[j]; } else { assert all[j] == qs[j - |ps|]; }
    }
  }

  lemma {:induction false} SameIds(c: Conv, ops: map<nat, Operation>, after: map<nat, Operation>, places: seq<Place>)
    requires AllProgress(c, ops, after, places)
    ensures Ids(c, after, places) == Ids(c, ops, places)
  {
    hide SurfaceId, Progress, SameLists;
    if places != [] {
      var n := |places| - 1;
      forall i | 0 <= i < n ensures places[..n][i] == places[i] {}
      SameIds(c, ops, after, places[..n]);
      if places[n].ref in ops { ProgressFixed(c, ops[places[n].ref], after[places[n].ref]); }
    }
  }

  lemma ProgressStaysIdentified(c: Conv, doc: Document, after: Document)
    requires Named(c) && after.places == doc.places && after.schemes == doc.schemes
    requires AllProgress(c, doc.ops, after.ops, doc.places) && S.WellIdentified(c.py, ModelOf(c, doc))
    ensures S.WellIdentified(c.py, ModelOf(c, after))
  {
    hide ModelOf, S.Entries, S.DistinctIds, Named, AllProgress, AllDistinct, SchemeIds, Ids;
    S.EveryKind(S.EndpointsRoutes);
    S.EveryKind(S.DeclaredControls);
    EndpointsDistinct(c, doc);
    SchemesDistinct(c, doc);
    SameIds(c, doc.ops, after.ops, doc.places);
    ControlsDistinct(c, after);
    forall kind | kind in S.KINDS ensures S.DistinctIds(S.Entries(c.py, ModelOf(c, after)(kind))) {
      if !kind.DeclaredControls? { DeclaredStayDistinct(c, doc, after, kind); }
    }
  }

  /** When the review of a document succeeds, so does the review of the answered document. */
  lemma {:induction false} AnsweredStaysReviewable(
    c: Conv, doc: Document, questions: seq<Question>, answers: seq<Answer>, answered: Document)
    requires Sane(c) && Named(c) && ApplyAll(c, doc, questions, answers) == Some(answered)
    requires S.WellIdentified(c.py, ModelOf(c, doc))
    ensures S.WellIdentified(c.py, ModelOf(c, answered))
    decreases |answers|
  {
    hide Sane, Named, ModelOf, S.WellIdentified, ApplyOne, AllProgress;
    if answers != [] {
      var next := ApplyOne(c, doc, questions, answers[0]).value;
      ApplyOneProgress(c, doc, questions, answers[0], next);
      ApplyOneEffect(c, doc, questions, answers[0], next, 0, BroadScopes, ExportList);
      ProgressStaysIdentified(c, doc, next);
      AnsweredStaysReviewable(c, next, questions, answers[1..], answered);
    }
  }

  /**
   `review_openapi_json` with answers: the second review reports no (location, risk) the first one did not report, and
   its gate is at most the first one's.
   */
  lemma GateNeverWorsens(
    c: Conv, doc: Document, questions: seq<Question>, answers: seq<Answer>, answered: Document, before: S.Review, after: S.Review)
    requires Sane(c) && Ordinary(c) && Named(c) && ApplyAll(c, doc, questions, answers) == Some(answered)
    requires S.WellIdentified(c.py, ModelOf(c, doc)) && S.IsReview(c.py, S.EMPTY, ModelOf(c, doc), before)
    requires S.IsReview(c.py, S.EMPTY, ModelOf(c, answered), after)
    ensures Rank(after.gate) <= Rank(before.gate)
    ensures forall k :: S.ListsKey(after.findings, k) ==> S.ListsKey(before.findings, k)
  {
    hide Sane, Ordinary, Named, ModelOf, S.WellIdentified, ApplyAll, Reports, S.Reported, S.Originates, S.GateOf, Rank;
    AnsweredStaysReviewable(c, doc, questions, answers, answered);
    ReviewReports(c, doc, before);
    ReviewReports(c, answered, after);
    ReportedGate(c, doc, questions, answers, answered, before.findings, after.findings);
    forall k | S.ListsKey(after.findings, k) ensures S.ListsKey(before.findings, k) {
      var i :| 0 <= i < |after.findings| && after.findings[i].key == k;
      var m := Matched(c, doc, questions, answers, answered, before.findings, after.findings, after.findings[i]);
      var j :| 0 <= j < |before.findings| && before.findings[j] == m;
    }
  }

  // ----- what the theorems assume --------------------------------------------------------------

  /** Conversions with the assumed properties exist: those that change no text, but name the nameless. */
  lemma ConversionsExist()
    ensures exists c: Conv :: Sane(c) && Ordinary(c) && Named(c) && Rules.Empties(c.py)
  {
    var py := S.Py((v: Json) => if v.Str? then v.s else [], (t: Text) => t, (t: Text) => t, (t: Text) => [t], (v: Json) => 0.0);
    var c := Conv(py, (t: Text) => t, (t: Text) => if t == [] then T("openapi-product") else t);
    assert T("openapi-product") != [];
    assert Sane(c) && Ordinary(c) && Named(c) && Rules.Empties(c.py);
  }

  /** The question about agent scopes reads the item as listed: nothing but the tool itself sets the two names. */
  lemma AgentItemScopes(c: Conv, place: Place, op: Operation, name: string)
    requires name == "intended_scope" || name == "granted_scope"
    ensures S.Get(ListEntry(c, place, op, AgentList), name) == S.Get(Overrides(op.fixed.agentTool), name)
  {
    hide Entry, Overrides, T, SurfaceId;
    EntryImported(c, place, op);
    ForeignAbsent(name);
    Differs(name, "tool");
    Differs(name, "kind");
  }
}
