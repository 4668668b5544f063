/**
 Re-reviewing an answered document: the surfaces the importer hands to the static review, and that answers never
 add a finding to them nor worsen the gate.
 */
module AnswerFindings {
  import opened Options
  import opened Sorting
  import opened JsonText
  import opened OpenApi
  import opened Answers
  import opened AnswerEffects
  import opened Declaring
  import S = StaticReview

  // ----- imported surfaces ---------------------------------------------------------------------

  function SetOpt(m: S.Props, key: Text, v: Option<Json>): S.Props { if v.Some? then m[key := v.value] else m }

  function TextOr(t: Text): Option<Json> { if t == [] then None else Some(Str(t)) }

  function Texts(ts: seq<Text>): Json { Arr(seq(|ts|, i requires 0 <= i < |ts| => Str(ts[i]))) }

  function Identity(c: Conv, place: Place, fixed: Fixed): S.Props {
    var id := Some(Str(SurfaceId(c, place, fixed)));
    SetOpt(SetOpt(SetOpt(SetOpt(map[], T("id"), id), T("operation_id"), id), T("route"), Some(Str(place.route))),
           T("method"), Some(Str(place.verb)))
  }

  /** The properties of an entry that answers cannot change. */
  function Base(c: Conv, place: Place, fixed: Fixed): S.Props {
    var plan := ValueOf(c, fixed.plan);
    var area := SetOpt(Identity(c, place, fixed), T("product_area"), if fixed.tags == [] then None else TextOr(fixed.tags[0]));
    var tags := SetOpt(area, T("tags"), if fixed.tags == [] then None else Some(Texts(fixed.tags)));
    var planned := SetOpt(tags, T("required_plan"), TextOr(plan));
    SetOpt(SetOpt(planned, T("data_class"), TextOr(ValueOf(c, fixed.dataClass))),
           T("rule_source"), Some(Str(if plan != [] then T("OpenAPI x-heel-plan declaration") else T("unknown"))))
  }

  /** The normalized control identifiers, sorted. */
  function ControlList(c: Conv, control: Control): seq<Text> {
    Sort(TextLe, Distinct(Identifiers(c, EnabledNames(control))))
  }

  function Identifiers(c: Conv, names: seq<Text>): seq<Text> {
    if names == [] then []
    else
      var id, rest := c.ident(names[0]), Identifiers(c, names[1..]);
      if id == [] || S.OneOf(id, S.MISSING) then rest else [id] + rest
  }

  /** What an entry says about a control family: declared, missing, or nothing. */
  ghost function ControlState(c: Conv, op: Operation, f: Family): Option<Json> {
    if HasFamily(c, op.control, f) then Some(DECLARED)
    else if LacksFamily(c, op, f) then Some(Str(T("missing")))
    else None
  }

  ghost function EvidenceState(c: Conv, op: Operation): Json {
    Str(if ControlList(c, op.control) != [] || LacksFamily(c, op, Entitlement) || LacksFamily(c, op, Rate)
        then T("customer_declared") else T("unknown"))
  }

  /** Metadata that no rule of an imported surface reads. */
  ghost function Background(c: Conv, op: Operation): S.Props {
    var controls := ControlList(c, op.control);
    var scoped := SetOpt(map[], T("tenant_scope"), TextOr(ValueOf(c, op.scope)));
    var listed := SetOpt(scoped, T("controls"), if controls == [] then None else Some(Texts(controls)));
    SetOpt(SetOpt(listed, T("customer_declarations"), if op.declarations.Some? then op.declarations else Some(Obj([]))),
           T("control_evidence_state"), Some(EvidenceState(c, op)))
  }

  ghost function TenantState(c: Conv, op: Operation): Option<Json> { if HasTenantScope(c, op) then Some(DECLARED) else None }

  /** The properties that answers can change. */
  ghost function Metadata(c: Conv, op: Operation): S.Props {
    SetOpt(SetOpt(SetOpt(Background(c, op), T("tenant_filter"), TenantState(c, op)),
                  T("entitlement_check"), ControlState(c, op, Entitlement)),
           T("rate_limit"), ControlState(c, op, Rate))
  }

  /** `_route_entry` */
  ghost function Entry(c: Conv, place: Place, op: Operation): S.Props {
    Base(c, place, op.fixed) + Metadata(c, op)
  }

  function Tagged(kind: string): S.Props { map[T("kind") := Str(T(kind))] }

  function DeclaredOr(present: bool): Json { if present then DECLARED else Str(T("unknown")) }

  ghost function ExportEntry(c: Conv, place: Place, op: Operation): S.Props {
    (Entry(c, place, op) + Tagged("export"))
      [T("entitlement_check") := ExportState(c, op, Entitlement)][T("rate_limit") := ExportState(c, op, Rate)]
  }

  ghost function ExportState(c: Conv, op: Operation, f: Family): Json {
    var state := ControlState(c, op, f);
    if state.Some? then state.value
    else DeclaredOr(if f.Entitlement? then HasEntitlement(c, op) else HasFamily(c, op.control, f))
  }

  /** The properties of an operation in the lists it joins, beyond its entry. */
  function Extra(c: Conv, place: Place, fixed: Fixed, l: List): S.Props {
    var id := Str(SurfaceId(c, place, fixed));
    match l
    case BillingList => Tagged("billing")
    case MeterList => Tagged("meter") + map[T("id") := if S.Truth(fixed.meter) then Str(c.py.str(fixed.meter)) else id]
    case WebhookList => Tagged("webhook")
    case OauthList => Tagged("oauth_app") + map[T("scopes") := Texts(fixed.oauthScopes)]
    case AdminList => Tagged("admin_action")
    case AgentList => map[T("tool") := id] + Tagged("agent_tool") + Overrides(fixed.agentTool)
    case _ => map[]
  }

  ghost function ListEntry(c: Conv, place: Place, op: Operation, l: List): S.Props {
    if l.ExportList? then ExportEntry(c, place, op) else Entry(c, place, op) + Extra(c, place, op.fixed, l)
  }

  ghost function Joined(c: Conv, place: Place, op: Operation, l: List): seq<S.Props> {
    if Joins(c, place, op, l) then [ListEntry(c, place, op, l)] else []
  }

  function ControlProps(c: Conv, place: Place, op: Operation): S.Props {
    map[T("id") := Str(T("operation:") + SurfaceId(c, place, op.fixed) + T(":controls")),
        T("route") := Str(place.route), T("controls") := Texts(ControlList(c, op.control))]
  }

  function ClassProps(c: Conv, fixed: Fixed): S.Props { map[T("value") := Str(ValueOf(c, fixed.dataClass))] }

  /** The list behind each reviewed kind that operations join; sign-up flows and seats are not reviewed. */
  function ListOf(kind: S.Kind): Option<List> {
    match kind
    case Exports => Some(ExportList)
    case BillingObjects => Some(BillingList)
    case Meters => Some(MeterList)
    case Webhooks => Some(WebhookList)
    case IntegrationOauthApps => Some(OauthList)
    case SupportAdminActions => Some(AdminList)
    case AgentTools => Some(AgentList)
    case _ => None
  }

  /** What `_map_operation` appends to the list of this kind for one operation. */
  ghost function AtPlace(c: Conv, place: Place, op: Operation, kind: S.Kind): seq<S.Props> {
    if kind.EndpointsRoutes? then [Entry(c, place, op)]
    else if kind.DeclaredControls? then if ControlList(c, op.control) == [] then [] else [ControlProps(c, place, op)]
    else if kind.DataClasses? then if ValueOf(c, op.fixed.dataClass) == [] then [] else [ClassProps(c, op.fixed)]
    else if ListOf(kind).Some? then Joined(c, place, op, ListOf(kind).value)
    else []
  }

  /** The same for all operations, in the order of the places. */
  ghost function Gathered(c: Conv, ops: map<nat, Operation>, places: seq<Place>, kind: S.Kind): seq<S.Props> {
    if places == [] then []
    else
      var last := places[|places| - 1];
      Gathered(c, ops, places[..|places| - 1], kind) + if last.ref in ops then AtPlace(c, last, ops[last.ref], kind) else []
  }

  /** Appending each item that is not yet in the list. */
  function Firsts(items: seq<S.Props>): (r: seq<S.Props>)
    ensures forall p :: p in r <==> p in items
  {
    if items == [] then []
    else
      var last, before := items[|items| - 1], Firsts(items[..|items| - 1]);
      assert items == items[..|items| - 1] + [last];
      if last in before then before else before + [last]
  }

  function SchemeProps(scheme: Scheme): S.Props {
    SetOpt(map[T("id") := Str(T("security_scheme:") + scheme.name), T("name") := Str(scheme.name), T("kind") := Str(scheme.kind)],
           T("scopes"), if scheme.scopes.Some? then Some(Texts(scheme.scopes.value)) else None)
  }

  function SchemeItems(schemes: seq<Scheme>): (r: seq<S.Props>)
    ensures |r| == |schemes| && forall i :: 0 <= i < |r| ==> r[i] == SchemeProps(schemes[i])
  {
    seq(|schemes|, i requires 0 <= i < |schemes| => SchemeProps(schemes[i]))
  }

  /** One list of the imported model. */
  ghost function Items(c: Conv, doc: Document, kind: S.Kind): seq<S.Props> {
    var gathered := Gathered(c, doc.ops, doc.places, kind);
    if kind.DeclaredControls? then SchemeItems(doc.schemes) + gathered
    else if kind.DataClasses? then Firsts(gathered)
    else gathered
  }

  /** What an item raises against the empty baseline at its place in the list, each finding with its key. */
  predicate Raises(c: Conv, kind: S.Kind, props: S.Props, index: int, l: S.Located) {
    var id := S.SurfaceId(c.py, props, index);
    && l.finding in S.RiskFindings(c.py, kind, id, props)
    && l.key == S.KeyOf(kind, id, props, l.finding.risk)
  }

  ghost predicate RaisedIn(c: Conv, kind: S.Kind, items: seq<S.Props>, l: S.Located) {
    exists j :: 0 <= j < |items| && Raises(c, kind, items[j], j, l)
  }

  /** The findings of the document, before deduplication. */
  ghost predicate RaisedBy(c: Conv, doc: Document, l: S.Located) {
    exists kind :: RaisedIn(c, kind, Items(c, doc, kind), l)
  }

  // ----- what answers do to the metadata -------------------------------------------------------

  /** An operation after some answers: nothing declared is lost, and only declarations are added. */
  ghost predicate Progress(c: Conv, op: Operation, after: Operation) {
    && after.fixed == op.fixed
    && (HasTenantScope(c, op) ==> HasTenantScope(c, after))
    && forall f :: FamilyProgress(c, op, after, f)
  }

  ghost predicate FamilyProgress(c: Conv, op: Operation, after: Operation, f: Family) {
    || HasFamily(c, after.control, f)
    || (!HasFamily(c, op.control, f) && (LacksFamily(c, after, f) <==> LacksFamily(c, op, f)))
  }

  lemma AbsentAfter(c: Conv, op: Operation, name: Text, id: Text)
    requires DeclareControl(op.control, name).Some? && c.ident(name) == name && id != name
    ensures DeclaredAbsent(c, op.(control := DeclareControl(op.control, name).value), id) <==> DeclaredAbsent(c, op, id)
  {
    hide Sort, WithName;
    if op.control.Flags? {
      var fs := op.control.fs;
      forall t ensures t in NamesWith(WithFlag(fs, name), false) <==> t in NamesWith(fs, false) && t != name {
        SortKeepsMembers(FlagLe, Others(fs, name) + [(name, true)], (t, false));
      }
    }
  }

  lemma EnforceProgress(c: Conv, op: Operation, topic: Topic)
    requires Sane(c) && Enforce(c, op, topic).Some?
    ensures Progress(c, op, Enforce(c, op, topic).value)
  {
    hide HasFamily, DeclareControl, Aliases, DeclaredAbsent;
    var after := Enforce(c, op, topic).value;
    if topic.TenantFilter? {
      TenantIsAValue(c);
      forall f ensures FamilyProgress(c, op, after, f) { ScopeKeepsAbsence(c, op, after, f); }
    } else {
      var name := ControlFor(topic);
      forall f ensures FamilyProgress(c, op, after, f) {
        FamiliesAfter(c, op, topic, f);
        ControlNames(f, topic);
        if f != FamilyOf(topic) {
          forall id | id in Aliases(f) ensures DeclaredAbsent(c, after, id) <==> DeclaredAbsent(c, op, id) {
            AbsentAfter(c, op, name, id);
          }
        }
      }
    }
  }

  lemma ScopeKeepsAbsence(c: Conv, op: Operation, after: Operation, f: Family)
    requires after.fixed == op.fixed && after.control == op.control
    ensures FamilyProgress(c, op, after, f)
  {
  }

  lemma ChangeProgress(c: Conv, op: Operation, a: Answer)
    requires Sane(c) && a.about.About? && Change(c, op, a).Some?
    ensures Progress(c, op, Change(c, op, a).value)
  {
    hide Enforce, HasFamily, LacksFamily, DeclarationOf, FieldName, PutField;
    var declared := Declare(op, a).value;
    forall f ensures FamilyProgress(c, op, declared, f) { ScopeKeepsAbsence(c, op, declared, f); }
    if a.value.Enforced? {
      EnforceProgress(c, declared, a.about.topic);
      var after := Enforce(c, declared, a.about.topic).value;
      forall f ensures FamilyProgress(c, op, after, f) {
        assert FamilyProgress(c, declared, after, f) && FamilyProgress(c, op, declared, f);
      }
    }
  }

  // ----- reading the metadata ------------------------------------------------------------------

  lemma TouchedNamesDiffer()
    ensures T("tenant_filter") != T("entitlement_check") && T("tenant_filter") != T("rate_limit")
    ensures T("entitlement_check") != T("rate_limit")
  {
    Differs("tenant_filter", "entitlement_check");
    Differs("tenant_filter", "rate_limit");
    Differs("entitlement_check", "rate_limit");
  }

  /** The three names that matter, set last and in this order. */
  lemma LastThree(m: S.Props, a: Text, b: Text, d: Text, va: Option<Json>, vb: Option<Json>, vd: Option<Json>)
    requires a != b && a != d && b != d && a !in m && b !in m && d !in m
    ensures var r := SetOpt(SetOpt(SetOpt(m, a, va), b, vb), d, vd);
            && r.Keys <= m.Keys + {a, b, d}
            && (a in r <==> va.Some?) && (a in r ==> r[a] == va.value)
            && (b in r <==> vb.Some?) && (b in r ==> r[b] == vb.value)
            && (d in r <==> vd.Some?) && (d in r ==> r[d] == vd.value)
  {
  }

  lemma FirstFour(a: Text, b: Text, d: Text, e: Text, va: Option<Json>, vb: Option<Json>, vd: Option<Json>, ve: Option<Json>)
    ensures SetOpt(SetOpt(SetOpt(SetOpt(map[], a, va), b, vb), d, vd), e, ve).Keys <= {a, b, d, e}
  {
  }

  lemma BackgroundKeys(c: Conv, op: Operation)
    ensures Background(c, op).Keys <= TOUCHED
    ensures T("tenant_filter") !in Background(c, op) && T("entitlement_check") !in Background(c, op)
    ensures T("rate_limit") !in Background(c, op)
  {
    hide SetOpt, EvidenceState, ControlList, ValueOf, Texts, T;
    var controls := ControlList(c, op.control);
    FirstFour(T("tenant_scope"), T("controls"), T("customer_declarations"), T("control_evidence_state"),
              TextOr(ValueOf(c, op.scope)), if controls == [] then None else Some(Texts(controls)),
              if op.declarations.Some? then op.declarations else Some(Obj([])), Some(EvidenceState(c, op)));
    BackgroundNamesDiffer("tenant_filter");
    BackgroundNamesDiffer("entitlement_check");
    BackgroundNamesDiffer("rate_limit");
  }

  lemma BackgroundNamesDiffer(name: string)
    requires name in ["tenant_filter", "entitlement_check", "rate_limit"]
    ensures T(name) !in {T("tenant_scope"), T("controls"), T("customer_declarations"), T("control_evidence_state")}
  {
    hide T;
    Differs(name, "tenant_scope");
    Differs(name, "controls");
    Differs(name, "customer_declarations");
    Differs(name, "control_evidence_state");
  }

  lemma MetadataReads(c: Conv, op: Operation)
    ensures Metadata(c, op).Keys <= TOUCHED
    ensures var m := Metadata(c, op);
            && (T("tenant_filter") in m <==> HasTenantScope(c, op))
            && (T("tenant_filter") in m ==> m[T("tenant_filter")] == DECLARED)
            && (T("entitlement_check") in m <==> ControlState(c, op, Entitlement).Some?)
            && (T("entitlement_check") in m ==> m[T("entitlement_check")] == ControlState(c, op, Entitlement).value)
            && (T("rate_limit") in m <==> ControlState(c, op, Rate).Some?)
            && (T("rate_limit") in m ==> m[T("rate_limit")] == ControlState(c, op, Rate).value)
  {
    hide ControlState, T, Background, SetOpt, HasTenantScope;
    TouchedNamesDiffer();
    BackgroundKeys(c, op);
    LastThree(Background(c, op), T("tenant_filter"), T("entitlement_check"), T("rate_limit"), TenantState(c, op),
              ControlState(c, op, Entitlement), ControlState(c, op, Rate));
    TouchedMembers();
  }

  /** The names of the properties that answers cannot change. */
  const BASE_NAMES: set<Text> :=
    {T("id"), T("operation_id"), T("route"), T("method"), T("product_area"), T("tags"), T("required_plan"), T("data_class"),
     T("rule_source")}

  lemma SetWithin(m: S.Props, key: Text, v: Option<Json>)
    requires m.Keys <= BASE_NAMES && key in BASE_NAMES
    ensures SetOpt(m, key, v).Keys <= BASE_NAMES
  {
    hide BASE_NAMES;
  }

  lemma IdentityKeys(c: Conv, place: Place, fixed: Fixed)
    ensures Identity(c, place, fixed).Keys <= BASE_NAMES
  {
    hide T, SetOpt;
    var id := Some(Str(SurfaceId(c, place, fixed)));
    SetWithin(map[], T("id"), id);
    var m1 := SetOpt(map[], T("id"), id);
    SetWithin(m1, T("operation_id"), id);
    var m2 := SetOpt(m1, T("operation_id"), id);
    SetWithin(m2, T("route"), Some(Str(place.route)));
    SetWithin(SetOpt(m2, T("route"), Some(Str(place.route))), T("method"), Some(Str(place.verb)));
  }

  lemma BaseKeys(c: Conv, place: Place, fixed: Fixed)
    ensures Base(c, place, fixed).Keys <= BASE_NAMES
  {
    hide T, SetOpt, Identity, ValueOf, Texts;
    IdentityKeys(c, place, fixed);
    var plan := ValueOf(c, fixed.plan);
    var m0 := Identity(c, place, fixed);
    var v1 := if fixed.tags == [] then None else TextOr(fixed.tags[0]);
    SetWithin(m0, T("product_area"), v1);
    var m1 := SetOpt(m0, T("product_area"), v1);
    var v2 := if fixed.tags == [] then None else Some(Texts(fixed.tags));
    SetWithin(m1, T("tags"), v2);
    var m2 := SetOpt(m1, T("tags"), v2);
    SetWithin(m2, T("required_plan"), TextOr(plan));
    var m3 := SetOpt(m2, T("required_plan"), TextOr(plan));
    SetWithin(m3, T("data_class"), TextOr(ValueOf(c, fixed.dataClass)));
    SetWithin(SetOpt(m3, T("data_class"), TextOr(ValueOf(c, fixed.dataClass))), T("rule_source"),
              Some(Str(if plan != [] then T("OpenAPI x-heel-plan declaration") else T("unknown"))));
  }

  lemma BaseNamesUntouched()
    ensures BASE_NAMES !! TOUCHED
  {
    hide TOUCHED, T;
    ClearIsUntouched("id");
    ClearIsUntouched("operation_id");
    ClearIsUntouched("route");
    ClearIsUntouched("method");
    ClearIsUntouched("product_area");
    ClearIsUntouched("tags");
    ClearIsUntouched("required_plan");
    ClearIsUntouched("data_class");
    ClearIsUntouched("rule_source");
  }

  lemma BaseUntouched(c: Conv, place: Place, fixed: Fixed)
    ensures Base(c, place, fixed).Keys !! TOUCHED
  {
    hide TOUCHED, BASE_NAMES, Base;
    BaseKeys(c, place, fixed);
    BaseNamesUntouched();
  }

  lemma StateProgress(c: Conv, op: Operation, after: Operation, f: Family)
    requires Progress(c, op, after)
    ensures ControlState(c, after, f) == Some(DECLARED) || ControlState(c, after, f) == ControlState(c, op, f)
  {
    hide HasFamily, LacksFamily;
    assert FamilyProgress(c, op, after, f);
  }

  lemma EntryDeclares(c: Conv, place: Place, op: Operation, after: Operation)
    requires Progress(c, op, after)
    ensures Declares(Entry(c, place, op), Entry(c, place, after))
  {
    hide Base, Metadata, ControlState, HasTenantScope, T;
    BaseUntouched(c, place, op.fixed);
    MetadataReads(c, op);
    MetadataReads(c, after);
    StateProgress(c, op, after, Entitlement);
    StateProgress(c, op, after, Rate);
    TouchedMembers();
  }

  lemma TouchedMembers()
    ensures T("tenant_filter") in TOUCHED && T("entitlement_check") in TOUCHED && T("rate_limit") in TOUCHED
  {
  }

  /** The same further properties on both sides change nothing. */
  lemma DeclaresWith(p: S.Props, q: S.Props, extra: S.Props)
    requires Declares(p, q)
    ensures Declares(p + extra, q + extra)
  {
    hide T;
  }

  /** Setting a control on both sides, to the same value or to "declared". */
  lemma DeclaresSet(p: S.Props, q: S.Props, name: string, v: Json, w: Json)
    requires Declares(p, q) && name in ["entitlement_check", "rate_limit"] && (w == v || w == DECLARED)
    ensures Declares(p[T(name) := v], q[T(name) := w])
  {
    hide T;
    TouchedNamesDiffer();
    TouchedMembers();
  }

  lemma ExportDeclares(c: Conv, place: Place, op: Operation, after: Operation)
    requires Progress(c, op, after)
    ensures Declares(ExportEntry(c, place, op), ExportEntry(c, place, after))
  {
    hide T, Entry, Declares, ExportState;
    EntryDeclares(c, place, op, after);
    DeclaresWith(Entry(c, place, op), Entry(c, place, after), Tagged("export"));
    ExportProgress(c, op, after, Entitlement);
    ExportProgress(c, op, after, Rate);
    var p, q := Entry(c, place, op) + Tagged("export"), Entry(c, place, after) + Tagged("export");
    DeclaresSet(p, q, "entitlement_check", ExportState(c, op, Entitlement), ExportState(c, after, Entitlement));
    DeclaresSet(p[T("entitlement_check") := ExportState(c, op, Entitlement)],
                q[T("entitlement_check") := ExportState(c, after, Entitlement)], "rate_limit",
                ExportState(c, op, Rate), ExportState(c, after, Rate));
  }

  lemma ExportProgress(c: Conv, op: Operation, after: Operation, f: Family)
    requires Progress(c, op, after)
    ensures ExportState(c, after, f) == DECLARED || ExportState(c, after, f) == ExportState(c, op, f)
  {
    hide HasFamily, LacksFamily, ValueOf;
    assert FamilyProgress(c, op, after, f);
  }

  lemma ListDeclares(c: Conv, place: Place, op: Operation, after: Operation, l: List)
    requires Progress(c, op, after)
    ensures Declares(ListEntry(c, place, op, l), ListEntry(c, place, after, l))
  {
    hide Declares, Entry, ExportEntry, Extra;
    if l.ExportList? {
      ExportDeclares(c, place, op, after);
    } else {
      EntryDeclares(c, place, op, after);
      DeclaresWith(Entry(c, place, op), Entry(c, place, after), Extra(c, place, op.fixed, l));
    }
  }

  // ----- no new finding ------------------------------------------------------------------------

  /** What the proofs use of Python's conversions on the empty text. */
  predicate Ordinary(c: Conv) { PlainWords(c.py) && c.py.str(Str([])) == [] && c.py.lower([]) == [] }

  lemma {:induction false} FirstTruthyAgrees(p: S.Props, q: S.Props, names: seq<string>)
    requires Declares(p, q) && Untouched(names)
    ensures S.FirstTruthy(p, names) == S.FirstTruthy(q, names)
  {
    hide Declares, Clear, S.Get;
    if names != [] {
      GetAgrees(p, q, names[0]);
      assert Untouched(names[1..]);
      FirstTruthyAgrees(p, q, names[1..]);
    }
  }

  /** Answers change neither the identifier nor the location of a surface. */
  lemma SameIdentity(c: Conv, kind: S.Kind, p: S.Props, q: S.Props, index: int, risk: S.Risk)
    requires Declares(p, q)
    ensures S.SurfaceId(c.py, p, index) == S.SurfaceId(c.py, q, index)
    ensures forall id :: S.KeyOf(kind, id, p, risk) == S.KeyOf(kind, id, q, risk)
  {
    hide S.Get, T;
    FirstTruthyAgrees(p, q, S.ID_KEYS);
    ClearIsUntouched("value");
    GetAgrees(p, q, "method");
    GetAgrees(p, q, "route");
  }

  lemma SurfaceAddsNothing(c: Conv, kind: S.Kind, p: S.Props, q: S.Props, index: int, l: S.Located)
    requires PlainWords(c.py) && Declares(p, q) && Raises(c, kind, q, index, l)
    ensures Raises(c, kind, p, index, l)
  {
    hide Declares, PlainWords, S.RiskFindings, S.SurfaceId, S.KeyOf;
    var id := S.SurfaceId(c.py, q, index);
    SameIdentity(c, kind, p, q, index, l.finding.risk);
    DeclaringAddsNothing(c.py, kind, id, p, q);
    var found := S.RiskFindings(c.py, kind, id, q);
    var i :| 0 <= i < |found| && found[i] == l.finding;
  }

  /** A list of declared controls raises nothing: it has no status. */
  lemma ControlsRaiseNothing(c: Conv, props: S.Props, index: int, l: S.Located)
    requires Ordinary(c) && T("status") !in props
    ensures !Raises(c, S.DeclaredControls, props, index, l)
  {
    hide S.Found, S.SurfaceId, S.KeyOf;
    var names := ["removed", "disabled"];
    assert forall i :: 0 <= i < |names| ==> T(names[i]) != [];
    assert !S.OneOf([], names);
  }

  lemma StatusDiffers()
    ensures T("status") !in {T("id"), T("route"), T("controls"), T("name"), T("kind"), T("scopes")}
  {
    hide T;
    Differs("status", "id");
    Differs("status", "route");
    Differs("status", "controls");
    Differs("status", "name");
    Differs("status", "kind");
    StatusIsNoScope();
  }

  lemma StatusIsNoScope()
    ensures T("status") != T("scopes")
  {
    assert T("status")[1] != T("scopes")[1];
  }

  ghost predicate NoStatus(items: seq<S.Props>) { forall j :: 0 <= j < |items| ==> T("status") !in items[j] }

  lemma {:induction false} GatheredControls(c: Conv, ops: map<nat, Operation>, places: seq<Place>)
    ensures NoStatus(Gathered(c, ops, places, S.DeclaredControls))
  {
    hide ControlList, T, SurfaceId, Texts;
    if places != [] {
      StatusDiffers();
      GatheredControls(c, ops, places[..|places| - 1]);
    }
  }

  lemma DeclaredControlsRaiseNothing(c: Conv, doc: Document, l: S.Located)
    requires Ordinary(c)
    ensures !RaisedIn(c, S.DeclaredControls, Items(c, doc, S.DeclaredControls), l)
  {
    hide Raises, Ordinary, T, Gathered, Texts;
    GatheredControls(c, doc.ops, doc.places);
    StatusDiffers();
    var items := Items(c, doc, S.DeclaredControls);
    forall j | 0 <= j < |items| ensures !Raises(c, S.DeclaredControls, items[j], j, l) {
      ControlsRaiseNothing(c, items[j], j, l);
    }
  }

  // ----- lists before and after ----------------------------------------------------------------

  ghost predicate SameLists(c: Conv, place: Place, op: Operation, after: Operation) {
    forall l :: Joins(c, place, after, l) <==> Joins(c, place, op, l)
  }

  /** The lists are equally long, and each item declares more than its counterpart, if anything. */
  ghost predicate DeclaresAll(ps: seq<S.Props>, qs: seq<S.Props>) {
    |ps| == |qs| && forall j :: 0 <= j < |ps| ==> Declares(ps[j], qs[j])
  }

  lemma DeclaresSelf(ps: seq<S.Props>)
    ensures DeclaresAll(ps, ps)
  {
  }

  lemma DeclaresJoin(ps: seq<S.Props>, qs: seq<S.Props>, ps': seq<S.Props>, qs': seq<S.Props>)
    requires DeclaresAll(ps, qs) && DeclaresAll(ps', qs')
    ensures DeclaresAll(ps + ps', qs + qs')
  {
    hide Declares;
  }

  lemma PlaceDeclares(c: Conv, place: Place, op: Operation, after: Operation, kind: S.Kind)
    requires Progress(c, op, after) && SameLists(c, place, op, after) && !kind.DeclaredControls?
    ensures DeclaresAll(AtPlace(c, place, op, kind), AtPlace(c, place, after, kind))
  {
    hide Progress, Joins, ListEntry, Entry, Declares, ValueOf;
    assert after.fixed == op.fixed by { ProgressFixed(c, op, after); }
    if kind.EndpointsRoutes? {
      EntryDeclares(c, place, op, after);
    } else if kind.DataClasses? {
      DeclaresSelf(AtPlace(c, place, op, kind));
    } else if ListOf(kind).Some? {
      ListDeclares(c, place, op, after, ListOf(kind).value);
    }
  }

  /** Every operation object progressed, and stays in its lists at every place. */
  ghost predicate AllProgress(c: Conv, ops: map<nat, Operation>, after: map<nat, Operation>, places: seq<Place>) {
    && after.Keys == ops.Keys
    && forall i :: 0 <= i < |places| && places[i].ref in ops ==>
         var ref := places[i].ref;
         Progress(c, ops[ref], after[ref]) && SameLists(c, places[i], ops[ref], after[ref])
  }

  lemma {:induction false} GatheredDeclares(
    c: Conv, ops: map<nat, Operation>, after: map<nat, Operation>, places: seq<Place>, kind: S.Kind)
    requires AllProgress(c, ops, after, places) && !kind.DeclaredControls?
    ensures DeclaresAll(Gathered(c, ops, places, kind), Gathered(c, after, places, kind))
    ensures kind.DataClasses? ==> Gathered(c, after, places, kind) == Gathered(c, ops, places, kind)
  {
    hide Progress, SameLists, AtPlace, DeclaresAll;
    if places == [] {
      DeclaresSelf([]);
    } else {
      var n := |places| - 1;
      var init, last := places[..n], places[n];
      forall i | 0 <= i < n ensures init[i] == places[i] {}
      GatheredDeclares(c, ops, after, init, kind);
      if last.ref in ops {
        PlaceDeclares(c, last, ops[last.ref], after[last.ref], kind);
        if kind.DataClasses? { SameClass(c, last, ops[last.ref], after[last.ref]); }
        DeclaresJoin(Gathered(c, ops, init, kind), Gathered(c, after, init, kind),
                     AtPlace(c, last, ops[last.ref], kind), AtPlace(c, last, after[last.ref], kind));
      } else {
        DeclaresSelf([]);
        DeclaresJoin(Gathered(c, ops, init, kind), Gathered(c, after, init, kind), [], []);
      }
    }
  }

  lemma SameClass(c: Conv, place: Place, op: Operation, after: Operation)
    requires Progress(c, op, after)
    ensures AtPlace(c, place, after, S.DataClasses) == AtPlace(c, place, op, S.DataClasses)
  {
    hide ValueOf;
  }

  lemma ItemsDeclare(c: Conv, doc: Document, after: Document, kind: S.Kind)
    requires AllProgress(c, doc.ops, after.ops, doc.places) && after.places == doc.places && !kind.DeclaredControls?
    ensures DeclaresAll(Items(c, doc, kind), Items(c, after, kind))
  {
    hide AllProgress, Gathered, DeclaresAll, Firsts;
    GatheredDeclares(c, doc.ops, after.ops, doc.places, kind);
    if kind.DataClasses? { DeclaresSelf(Items(c, doc, kind)); }
  }

  /** Each finding afterwards was a finding before. */
  lemma RaisedKept(c: Conv, doc: Document, after: Document, l: S.Located)
    requires Ordinary(c) && after.places == doc.places && AllProgress(c, doc.ops, after.ops, doc.places)
    ensures RaisedBy(c, after, l) ==> RaisedBy(c, doc, l)
  {
    hide Ordinary, AllProgress, Items, Raises, Declares;
    if RaisedBy(c, after, l) {
      var kind :| RaisedIn(c, kind, Items(c, after, kind), l);
      if kind.DeclaredControls? {
        DeclaredControlsRaiseNothing(c, after, l);
      } else {
        var j :| 0 <= j < |Items(c, after, kind)| && Raises(c, kind, Items(c, after, kind)[j], j, l);
        ItemsDeclare(c, doc, after, kind);
        assert PlainWords(c.py) by { OrdinaryWords(c); }
        SurfaceAddsNothing(c, kind, Items(c, doc, kind)[j], Items(c, after, kind)[j], j, l);
        assert RaisedIn(c, kind, Items(c, doc, kind), l);
      }
    }
  }

  lemma OrdinaryWords(c: Conv)
    requires Ordinary(c)
    ensures PlainWords(c.py)
  {
  }

  lemma ProgressFixed(c: Conv, op: Operation, after: Operation)
    requires Progress(c, op, after)
    ensures after.fixed == op.fixed
  {
  }
}
