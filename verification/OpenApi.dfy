/**
 What the importer makes of one operation of an OpenAPI document: normalized extensions, the surface lists the
 operation joins, the review questions it raises and the surfaces handed to the static review.

 A document is seen after reference resolution (`Paths`): a list of places (route and method), each holding a
 reference to an operation object, since several places may share one object through a referenced path item.
 */
module OpenApi {
  import opened Options
  import opened Sorting
  import opened JsonText
  import S = StaticReview

  /** An extension value: absent, JSON null, a string or something else. */
  datatype Extension = Absent | Nothing | Given(s: Text) | NotText

  /** `x-heel-control` */
  datatype Control = NoControl | NullControl | One(s: Text) | Many(ss: seq<Text>) | Flags(fs: seq<(Text, bool)>) | Malformed

  /** What answers never touch. */
  datatype Fixed = Fixed(
    operationId: Option<Text>,
    summary: Text,
    description: Text,
    tags: seq<Text>,
    meter: Json,                     // null when absent
    plan: Extension,
    dataClass: Extension,
    agentTool: Json,                 // null when absent
    oauthScopes: seq<Text>,
    declaredAbsent: seq<Text>)       // x-heel-declared-absent-controls as written

  datatype Operation = Operation(fixed: Fixed, scope: Extension, control: Control, declarations: Option<Json>)

  datatype Place = Place(route: Text, verb: Text, ref: nat)

  /** A security scheme; scopes only for OAuth. */
  datatype Scheme = Scheme(name: Text, kind: Text, scopes: Option<seq<Text>>)

  datatype Document = Document(places: seq<Place>, ops: map<nat, Operation>, schemes: seq<Scheme>)

  /** The text conversions: Python's, the control identifier and the safe identifier. */
  datatype Conv = Conv(py: S.Py, ident: Text -> Text, safeId: Text -> Text)

  // ----- normalized extensions -----------------------------------------------------------------

  predicate MissingWord(c: Conv, t: Text) { S.OneOf(c.py.lower(c.py.strip(t)), S.MISSING) }

  /** The normalized value of a string extension, the empty text when it is dropped. */
  function ValueOf(c: Conv, e: Extension): Text {
    if e.Given? && !MissingWord(c, e.s) then c.py.strip(e.s) else []
  }

  function EnabledNames(control: Control): seq<Text> {
    match control
    case One(s) => [s]
    case Many(ss) => ss
    case Flags(fs) => NamesWith(fs, true)
    case _ => []
  }

  function NamesWith(fs: seq<(Text, bool)>, enabled: bool): (r: seq<Text>)
    ensures forall t :: t in r <==> (t, enabled) in fs
  {
    if fs == [] then []
    else
      var rest := NamesWith(fs[1..], enabled);
      assert fs == [fs[0]] + fs[1..];
      if fs[0].1 == enabled then [fs[0].0] + rest else rest
  }

  /** Each name once. */
  function Distinct(names: seq<Text>): (r: seq<Text>)
    ensures forall t :: t in r <==> t in names
  {
    if names == [] then []
    else
      var rest := Distinct(names[1..]);
      assert names == [names[0]] + names[1..];
      if names[0] in names[1..] then rest else [names[0]] + rest
  }

  /** The normalized control identifiers of an operation. */
  ghost predicate HasControl(c: Conv, control: Control, id: Text) {
    && id != [] && !S.OneOf(id, S.MISSING)
    && exists t :: t in EnabledNames(control) && c.ident(t) == id
  }

  /** The identifiers declared absent. */
  ghost predicate DeclaredAbsent(c: Conv, op: Operation, id: Text) {
    if op.control.Flags? then exists t :: t in NamesWith(op.control.fs, false) && c.ident(t) == id
    else id in op.fixed.declaredAbsent
  }

  datatype Family = Entitlement | Rate

  const ENTITLEMENT_CONTROL: Text := T("server_side_") + T("entitlement_check")
  const RATE_CONTROL: Text := T("server_side_") + T("rate_limit")

  function Aliases(f: Family): seq<Text> {
    match f
    case Entitlement => [T("entitlement"), T("entitlement_check"), ENTITLEMENT_CONTROL]
    case Rate => [T("rate"), T("rate_limit"), T("tenant_rate_limit"), RATE_CONTROL]
  }

  ghost predicate HasFamily(c: Conv, control: Control, f: Family) {
    exists id :: id in Aliases(f) && HasControl(c, control, id)
  }

  ghost predicate LacksFamily(c: Conv, op: Operation, f: Family) {
    exists id :: id in Aliases(f) && DeclaredAbsent(c, op, id)
  }

  predicate HasTenantScope(c: Conv, op: Operation) { ValueOf(c, op.scope) != [] }

  ghost predicate HasEntitlement(c: Conv, op: Operation) {
    ValueOf(c, op.fixed.plan) != [] || HasFamily(c, op.control, Entitlement)
  }

  // ----- classification ------------------------------------------------------------------------

  const SPACE: Text := [0x20]

  function JoinTags(tags: seq<Text>): Text {
    if tags == [] then [] else if |tags| == 1 then tags[0] else tags[0] + SPACE + JoinTags(tags[1..])
  }

  function SurfaceId(c: Conv, place: Place, fixed: Fixed): Text {
    c.safeId(if fixed.operationId.Some? && fixed.operationId.value != [] then fixed.operationId.value
             else c.py.lower(place.verb) + T("_") + place.route)
  }

  /** The part of the classification text before the tenant scope. */
  function Head(c: Conv, place: Place, fixed: Fixed): Text {
    place.route + SPACE + SurfaceId(c, place, fixed) + SPACE + fixed.summary + SPACE + fixed.description + SPACE
    + JoinTags(fixed.tags) + SPACE + (if fixed.meter == Null then [] else c.py.str(fixed.meter)) + SPACE + ValueOf(c, fixed.plan)
  }

  /** `_operation_text` */
  function OperationText(c: Conv, place: Place, op: Operation): Text {
    c.py.lower(Head(c, place, op.fixed) + (SPACE + (ValueOf(c, op.scope) + (SPACE + ValueOf(c, op.fixed.dataClass)))))
  }

  predicate Mentions(text: Text, words: seq<string>) {
    exists i :: 0 <= i < |words| && S.Contains(text, T(words[i]))
  }

  /** The lists an operation can join besides the endpoints. */
  datatype List = ExportList | SignupList | BillingList | MeterList | SeatList | WebhookList | OauthList | AdminList | AgentList

  predicate Joins(c: Conv, place: Place, op: Operation, l: List) {
    var text := OperationText(c, place, op);
    match l
    case ExportList => Mentions(text, ["export", "download", "bulk"])
    case SignupList => Mentions(text, ["signup", "trial"])
    case BillingList => Mentions(text, ["billing", "subscription", "usage", "meter"])
    case MeterList =>
      && Mentions(text, ["billing", "subscription", "usage", "meter"])
      && (S.Truth(op.fixed.meter) || Mentions(text, ["usage", "meter"]))
    case SeatList => Mentions(text, ["invite", "user", "member", "seat"])
    case WebhookList => Mentions(text, ["oauth", "integration", "app", "webhook"]) && Mentions(text, ["webhook"])
    case OauthList => Mentions(text, ["oauth", "integration", "app", "webhook"]) && !Mentions(text, ["webhook"])
    case AdminList => Mentions(text, ["admin", "support"])
    case AgentList => S.Truth(op.fixed.agentTool) || Mentions(text, ["agent", "tool"])
  }

  // ----- questions -----------------------------------------------------------------------------

  /** What a customer can answer. */
  datatype Topic = TenantFilter | EntitlementCheck | RateLimit

  /** The questions about an operation; the last two are about product rules, which no answer settles. */
  datatype Hint = Answerable(topic: Topic) | BroadScopes | AgentScopes

  /** The properties an agent tool adds to its entry or replaces in it. */
  function Overrides(tool: Json): S.Props { if tool.Obj? then S.View(tool.fields) else map[] }

  predicate AnyBroad(c: Conv, scopes: seq<Text>) { exists i :: 0 <= i < |scopes| && S.BroadScope(c.py, scopes[i]) }

  /** Whether the importer asks this at this place. */
  ghost predicate Asks(c: Conv, place: Place, op: Operation, hint: Hint) {
    match hint
    case Answerable(TenantFilter) => !HasTenantScope(c, op)
    case Answerable(EntitlementCheck) => !HasEntitlement(c, op)
    case Answerable(RateLimit) => Joins(c, place, op, ExportList) && !HasFamily(c, op.control, Rate)
    case BroadScopes => Joins(c, place, op, OauthList) && AnyBroad(c, op.fixed.oauthScopes)
    case AgentScopes =>
      var tool := Overrides(op.fixed.agentTool);
      Joins(c, place, op, AgentList) && !(S.Truth(S.Get(tool, "intended_scope")) && S.Truth(S.Get(tool, "granted_scope")))
  }

  /** Whether the importer asks about a security scheme; the question names the product, not an operation. */
  predicate AsksScheme(c: Conv, scheme: Scheme) { scheme.scopes.Some? && AnyBroad(c, scheme.scopes.value) }
}
