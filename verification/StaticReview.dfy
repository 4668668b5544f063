/**
 The static diff review of two product models: which surfaces changed, which launch risks each changed
 surface raises, and the deduplication of what is reported.

 Python's text conversions are handed in as functions; a product model is JSON without floating point.
 */
module StaticReview {
  import opened Options
  import opened Sorting
  import opened JsonText
  import opened Canonical

  /** `str`, `str.lower`, `str.strip`, the non-empty stripped parts of a comma-separated text, and `float`. */
  datatype Py = Py(
    str: Json -> Text,
    lower: Text -> Text,
    strip: Text -> Text,
    parts: Text -> seq<Text>,
    number: Json -> real)

  datatype Kind =
    | EndpointsRoutes | Exports | Meters | BillingObjects | Plans | CouponsPromotions | FeaturesFlags
    | IntegrationOauthApps | Webhooks | SupportAdminActions | AgentTools | McpConnectors | Tenants | DataClasses
    | DeclaredControls

  /** The order in which the review visits the lists. */
  const KINDS: seq<Kind> :=
    [EndpointsRoutes, Exports, Meters, BillingObjects, Plans, CouponsPromotions, FeaturesFlags, IntegrationOauthApps,
     Webhooks, SupportAdminActions, AgentTools, McpConnectors, Tenants, DataClasses, DeclaredControls]

  function KindName(kind: Kind): Text {
    match kind
    case EndpointsRoutes => T("endpoints_routes")
    case Exports => T("exports")
    case Meters => T("meters")
    case BillingObjects => T("billing_objects")
    case Plans => T("plans")
    case CouponsPromotions => T("coupons_promotions")
    case FeaturesFlags => T("features_flags")
    case IntegrationOauthApps => T("integration_oauth_apps")
    case Webhooks => T("webhooks")
    case SupportAdminActions => T("support_admin_actions")
    case AgentTools => T("agent_tools")
    case McpConnectors => T("mcp_connectors")
    case Tenants => T("tenants")
    case DataClasses => T("data_classes")
    case DeclaredControls => T("declared_controls")
  }

  datatype Risk =
    | ExportWithoutEntitlement | ExportWithoutTenantQuota | EndpointWithoutTenantFilter | UiBackingEndpointPaidApiBypass
    | UnmeteredBillableResource | StackableCouponWithoutRedemptionLimit | OauthScopeOverbroad
    | AdminActionWithoutRoleOrAuditControl | AgentSurfaceOverscope | FeatureFlagPlanMismatch | TenantOrDataControlChange

  datatype Severity = Warn | Block

  /** A validated model: every list is present. */
  type Model = Kind -> seq<Json>

  type Props = map<Text, Json>

  datatype Finding = Finding(
    kind: Kind, id: Text, risk: Risk, severity: Severity, control: Text, reason: Text, reachable: bool, ruleSource: Text)

  // ----- reading properties --------------------------------------------------------------------

  function Get(p: Props, name: string): Json { if T(name) in p then p[T(name)] else Null }

  /** The first of the names that is present, `None` being the JSON null. */
  function First(p: Props, names: seq<string>): Json {
    if names == [] then Null else if T(names[0]) in p then p[T(names[0])] else First(p, names[1..])
  }

  /** Python truth of a value. */
  predicate Truth(v: Json) {
    match v
    case Null => false
    case Bool(b) => b
    case Int(n) => n != 0
    case Str(s) => s != []
    case Arr(items) => items != []
    case Obj(fields) => fields != []
  }

  /** `str(v or "").lower()` */
  function Lowered(py: Py, v: Json): Text { py.lower(if Truth(v) then py.str(v) else []) }

  predicate OneOf(t: Text, names: seq<string>) { exists i :: 0 <= i < |names| && t == T(names[i]) }

  const MISSING := ["", "missing", "none", "false", "disabled", "off", "no", "weak", "client", "client_only"]
  const TRUE_WORDS := ["true", "yes", "on", "enabled", "billable", "metered", "paid"]
  const LOW_REACH_PLANS := ["trial", "free", "starter", "basic"]
  const BROAD := ["*", "all", "admin", "full", "full_access", "read_write_all", "global", "all_tenants", "read:all", "write:all"]

  predicate BadControl(py: Py, v: Json) {
    v == Bool(false) || (v.Str? && OneOf(py.lower(py.strip(v.s)), MISSING))
  }

  predicate Truthy(py: Py, v: Json) {
    v == Bool(true) || (v.Int? && v.n != 0) || (v.Str? && OneOf(py.lower(py.strip(v.s)), TRUE_WORDS))
  }

  predicate BroadScope(py: Py, t: Text) { OneOf(py.lower(py.strip(t)), BROAD) }

  predicate Reachable(py: Py, p: Props) {
    if Get(p, "reachable") == Bool(false) then false
    else if Truthy(py, Get(p, "reachable")) then true
    else
      || OneOf(Lowered(py, First(p, ["reachable_by_plan", "granted_plan", "current_plan"])), LOW_REACH_PLANS)
      || OneOf(Lowered(py, First(p, ["reachable_by_role", "installable_by_role", "granted_role"])),
               ["anonymous", "member", "user", "anyone"])
  }

  /** `_to_list`, each element stripped and lowered. */
  function Scopes(py: Py, v: Json): set<Text> {
    match v
    case Null => {}
    case Arr(items) => set i | 0 <= i < |items| :: py.lower(py.strip(py.str(items[i])))
    case Str(s) =>
      if ',' as int in s then set i | 0 <= i < |py.parts(s)| :: py.lower(py.strip(py.parts(s)[i]))
      else {py.lower(py.strip(py.str(v)))}
    case _ => {py.lower(py.strip(py.str(v)))}
  }

  function ScopeRank(t: Text): nat {
    if OneOf(t, ["own_tenant", "tenant"]) then 1
    else if t == T("workspace") then 2
    else if t == T("org") then 3
    else if OneOf(t, ["global", "all_tenants", "all"]) then 4
    else 0
  }

  predicate ScopeWider(py: Py, granted: Text, intended: Text) {
    ScopeRank(granted) > ScopeRank(intended) || (BroadScope(py, granted) && granted != intended)
  }

  predicate Contains(t: Text, part: Text) {
    part <= t || (t != [] && Contains(t[1..], part))
  }

  /** `_text(props, "id", "name", "route", "path")` */
  function Label(py: Py, p: Props): Text {
    py.lower(TextOf(py, p, "id") + T(" ") + TextOf(py, p, "name") + T(" ") + TextOf(py, p, "route") + T(" ") + TextOf(py, p, "path"))
  }

  function TextOf(py: Py, p: Props, name: string): Text {
    if T(name) in p then py.str(p[T(name)]) else py.str(Str([]))
  }

  // ----- the risk rules ------------------------------------------------------------------------

  function ControlOf(risk: Risk): Text {
    match risk
    case ExportWithoutEntitlement => T("server-side entitlement check")
    case ExportWithoutTenantQuota => T("tenant quota")
    case EndpointWithoutTenantFilter => T("tenant filter")
    case UiBackingEndpointPaidApiBypass => T("shared UI/API entitlement and lookup quota")
    case UnmeteredBillableResource => T("server-side meter accounting and cost ceiling")
    case StackableCouponWithoutRedemptionLimit => T("redemption limit and proof of uniqueness")
    case OauthScopeOverbroad => T("OAuth scope minimization and approval")
    case AdminActionWithoutRoleOrAuditControl => T("admin role gate and audit event")
    case AgentSurfaceOverscope => T("tool scope minimization")
    case FeatureFlagPlanMismatch => T("server-side feature entitlement check")
    case TenantOrDataControlChange => T("tenant/data control review")
  }

  function Reason(ruled: bool, risk: Risk, id: Text, granted: Text, intended: Text): Text {
    (if ruled then T("Customer-declared model hypothesis; behavior unverified. ")
     else T("Investigation prompt; intended product rule unknown and behavior unverified. "))
    + (if risk.TenantOrDataControlChange? then T("changed ") else T("new ")) + id
    + match risk
      case ExportWithoutEntitlement => T(" export reachable without server-side entitlement check")
      case ExportWithoutTenantQuota => T(" export lacks tenant quota or rate limit")
      case EndpointWithoutTenantFilter => T(" endpoint lacks server-side tenant filtering")
      case UiBackingEndpointPaidApiBypass => T(" UI backing endpoint can be scripted as unpriced bulk API access")
      case UnmeteredBillableResource => T(" billable surface lacks server-side accounting or cost ceiling")
      case StackableCouponWithoutRedemptionLimit => T(" stackable coupon lacks redemption limit")
      case OauthScopeOverbroad => T(" OAuth app grants overbroad scope")
      case AdminActionWithoutRoleOrAuditControl => T(" support/admin action lacks role or audit controls")
      case AgentSurfaceOverscope => T(" agent/MCP surface grants ") + granted + T(" beyond intended ") + intended
      case FeatureFlagPlanMismatch => T(" feature flag may be reachable outside intended plan")
      case TenantOrDataControlChange => T(" tenant/data control needs abuse review")
  }

  function Found(py: Py, kind: Kind, id: Text, p: Props, risk: Risk, severity: Severity, reachable: bool): Finding
  {
    var source := Get(p, "rule_source");
    var ruled := Truth(Get(p, "business_rule")) || Truth(Get(p, "required_plan"));
    Finding(kind, id, risk, severity, ControlOf(risk), Reason(ruled, risk, id, Granted(py, p), Intended(py, p)), reachable,
            if Truth(source) then py.str(source) else py.str(Str(T("unknown"))))
  }

  function BlockIf(b: bool): Severity { if b then Block else Warn }

  const ENTITLEMENT := ["entitlement_check", "authz_check", "guard", "guard_present"]

  function ExportRisks(py: Py, kind: Kind, id: Text, p: Props): seq<Finding> {
    if Get(p, "bulk_access_permitted") == Bool(true) then [] else
    var reachable := Reachable(py, p);
    (if BadControl(py, First(p, ENTITLEMENT)) then
       [Found(py, kind, id, p, ExportWithoutEntitlement, BlockIf(reachable), reachable)]
     else [])
    + (if BadControl(py, First(p, ["tenant_quota", "quota", "rate_limit", "export_limit"])) then
         [Found(py, kind, id, p, ExportWithoutTenantQuota, BlockIf(reachable), reachable)]
       else [])
  }

  function EndpointRisks(py: Py, kind: Kind, id: Text, p: Props): seq<Finding> {
    var ui := UiBackingRisks(py, kind, id, p);
    if Contains(Label(py, p), T("export")) then ui + ExportRisks(py, kind, id, p)
    else if !BadControl(py, First(p, ["tenant_filter", "tenant_check", "tenant_isolation"])) then ui
    else
      var reachable := Reachable(py, p);
      ui + [Found(py, kind, id, p, EndpointWithoutTenantFilter, BlockIf(reachable), reachable)]
  }

  function UiBackingRisks(py: Py, kind: Kind, id: Text, p: Props): seq<Finding> {
    var uiBacking := Truthy(py, First(p, ["ui_backing_endpoint", "interactive_ui_endpoint", "browser_endpoint"]));
    var paidEquivalent := Truthy(py, First(p, ["paid_api_equivalent", "bulk_api_equivalent", "api_equivalent"]));
    var required := Lowered(py, First(p, ["required_plan", "entitlement_plan", "min_plan", "plan_required"]));
    var reached := Lowered(py, First(p, ["reachable_by_plan", "granted_plan", "current_plan", "observed_plan"]));
    var planMismatch := required != [] && reached != [] && required != reached;
    var missing :=
      || BadControl(py, First(p, ENTITLEMENT))
      || BadControl(py, First(p, ["lookup_quota", "lookup_limit", "rate_limit", "tenant_quota", "quota"]))
      || BadControl(py, First(p, ["automation_guard", "anti_automation", "bot_protection", "human_challenge"]));
    var reachable := Reachable(py, p) || planMismatch;
    if !(uiBacking && paidEquivalent) || !(planMismatch || missing) then []
    else [Found(py, kind, id, p, UiBackingEndpointPaidApiBypass, BlockIf(reachable), reachable)]
  }

  function MeterRisks(py: Py, kind: Kind, id: Text, p: Props): seq<Finding> {
    if !Truthy(py, First(p, ["billable", "cost_bearing", "metered", "charges_money"])) then []
    else if !BadControl(py, First(p, ["server_side_accounting", "server_authoritative", "meter_accounting"]))
         && !BadControl(py, First(p, ["quota", "cost_ceiling", "spend_limit"])) then []
    else [Found(py, kind, id, p, UnmeteredBillableResource, Warn, Reachable(py, p))]
  }

  function CouponRisks(py: Py, kind: Kind, id: Text, p: Props): seq<Finding> {
    if Get(p, "stacking_permitted") == Bool(true) then []
    else if !(Truthy(py, Get(p, "stackable"))
              && BadControl(py, First(p, ["redemption_limit", "max_redemptions", "per_account_limit", "proof_of_uniqueness"])))
    then []
    else
      var severe := || py.number(First(p, ["discount_percent", "discount"])) >= 90.0
                    || OneOf(py.lower(TextOf(py, p, "applies_to")), ["all_plans", "all"]);
      [Found(py, kind, id, p, StackableCouponWithoutRedemptionLimit, BlockIf(severe && Reachable(py, p)), Reachable(py, p))]
  }

  function OauthRisks(py: Py, kind: Kind, id: Text, p: Props): seq<Finding> {
    var scopeValue := First(p, ["scope", "granted_scope", "oauth_scope"]);
    var scope := py.lower(py.strip(if Truth(scopeValue) then py.str(scopeValue) else []));
    var granted := Scopes(py, First(p, ["granted_scopes", "scopes"]));
    var needed := Scopes(py, First(p, ["needed_scopes", "required_scopes", "intended_scopes"]));
    var excess := granted != {} && needed != {} && !(granted <= needed);
    if !(BroadScope(py, scope) || (exists s :: s in granted && BroadScope(py, s)) || excess) then []
    else
      var auto := Truthy(py, First(p, ["auto_approved", "auto_install", "default_approved"]));
      var lowRole := OneOf(Lowered(py, First(p, ["installable_by_role", "reachable_by_role", "role"])),
                           ["member", "user", "anyone", "anonymous"]);
      [Found(py, kind, id, p, OauthScopeOverbroad, BlockIf(auto && lowRole), Reachable(py, p) || auto || lowRole)]
  }

  function AdminActionRisks(py: Py, kind: Kind, id: Text, p: Props): seq<Finding> {
    var required := Lowered(py, First(p, ["required_role", "min_role", "intended_role"]));
    var reached := Lowered(py, First(p, ["reachable_by_role", "granted_role", "observed_role"]));
    var auditMissing := BadControl(py, First(p, ["audit_logged", "audit_event", "audit_event_id"]));
    var roleMismatch := reached != [] && reached != required && OneOf(reached, ["member", "user", "support"]);
    if (required == [] && !auditMissing) || !(roleMismatch || auditMissing) then []
    else [Found(py, kind, id, p, AdminActionWithoutRoleOrAuditControl, BlockIf(roleMismatch && auditMissing),
                Reachable(py, p) || roleMismatch)]
  }

  function AgentSurfaceRisks(py: Py, kind: Kind, id: Text, p: Props): seq<Finding> {
    var granted, intended := Granted(py, p), Intended(py, p);
    if granted == [] || intended == [] || !ScopeWider(py, granted, intended) then []
    else [Found(py, kind, id, p, AgentSurfaceOverscope, Block, true)]
  }

  function Granted(py: Py, p: Props): Text { Lowered(py, First(p, ["granted_scope", "effective_scope", "scope"])) }

  function Intended(py: Py, p: Props): Text { Lowered(py, First(p, ["intended_scope", "required_scope", "declared_scope"])) }

  function FeatureFlagRisks(py: Py, kind: Kind, id: Text, p: Props): seq<Finding> {
    var required := Lowered(py, First(p, ["required_plan", "entitlement_plan", "min_plan"]));
    var reached := Lowered(py, First(p, ["reachable_by_plan", "granted_plan", "current_plan"]));
    var clientGate := OneOf(Lowered(py, First(p, ["gated_by", "guard"])), ["client", "client_only"]);
    if !(required != [] && reached != [] && required != reached) && !clientGate then []
    else [Found(py, kind, id, p, FeatureFlagPlanMismatch, Warn, Reachable(py, p))]
  }

  function TenantDataControlRisks(py: Py, kind: Kind, id: Text, p: Props): seq<Finding> {
    var removed := kind.DeclaredControls? && OneOf(py.lower(TextOf(py, p, "status")), ["removed", "disabled"]);
    var sensitive := kind.DataClasses? && Truthy(py, First(p, ["sensitive", "regulated", "customer_data"]));
    if !(removed || sensitive) then []
    else [Found(py, kind, id, p, TenantOrDataControlChange, Warn, false)]
  }

  function RiskFindings(py: Py, kind: Kind, id: Text, p: Props): seq<Finding> {
    match kind
    case Exports => ExportRisks(py, kind, id, p)
    case EndpointsRoutes => EndpointRisks(py, kind, id, p)
    case Meters => MeterRisks(py, kind, id, p)
    case BillingObjects => MeterRisks(py, kind, id, p)
    case CouponsPromotions => CouponRisks(py, kind, id, p)
    case IntegrationOauthApps => OauthRisks(py, kind, id, p)
    case SupportAdminActions => AdminActionRisks(py, kind, id, p)
    case AgentTools => AgentSurfaceRisks(py, kind, id, p)
    case McpConnectors => AgentSurfaceRisks(py, kind, id, p)
    case FeaturesFlags => FeatureFlagRisks(py, kind, id, p)
    case Tenants => TenantDataControlRisks(py, kind, id, p)
    case DataClasses => TenantDataControlRisks(py, kind, id, p)
    case DeclaredControls => TenantDataControlRisks(py, kind, id, p)
    case _ => []
  }

  // ----- surfaces by identifier ----------------------------------------------------------------

  datatype Entry = Entry(id: Text, fields: seq<Field>)

  function View(fields: seq<Field>): Props {
    if fields == [] then map[] else View(fields[..|fields| - 1])[fields[|fields| - 1].key := fields[|fields| - 1].value]
  }

  lemma ViewPush(fields: seq<Field>, f: Field)
    ensures View(fields + [f]) == View(fields)[f.key := f.value]
  {
    assert (fields + [f])[..|fields|] == fields;
  }

  lemma {:induction false} ViewAt(fields: seq<Field>, i: nat)
    requires UniqueKeys(fields) && i < |fields|
    ensures fields[i].key in View(fields) && View(fields)[fields[i].key] == fields[i].value
    decreases |fields|
  {
    var n := |fields| - 1;
    if i < n { ViewAt(fields[..n], i); }
  }

  lemma {:induction false} ViewKeys(fields: seq<Field>, key: Text)
    requires key in View(fields)
    ensures exists i :: 0 <= i < |fields| && fields[i].key == key
    decreases |fields|
  {
    var n := |fields| - 1;
    if fields[n].key != key {
      ViewKeys(fields[..n], key);
      var i :| 0 <= i < n && fields[..n][i].key == key;
      assert fields[i].key == key;
    }
  }

  /** Without repeated keys the order of the fields does not matter. */
  lemma ViewPermuted(fs: seq<Field>, gs: seq<Field>)
    requires UniqueKeys(fs) && multiset(fs) == multiset(gs)
    ensures View(gs) == View(fs)
  {
    hide View, UniqueKeys;
    UniqueKeysPermuted(fs, gs);
    var p, q := View(fs), View(gs);
    forall k | k in p ensures k in q && q[k] == p[k] {
      ViewKeys(fs, k);
      var i :| 0 <= i < |fs| && fs[i].key == k;
      ViewAt(fs, i);
      SameElements(fs, gs, fs[i]);
      var j :| 0 <= j < |gs| && gs[j] == fs[i];
      ViewAt(gs, j);
    }
    forall k | k in q ensures k in p {
      ViewKeys(gs, k);
      var j :| 0 <= j < |gs| && gs[j].key == k;
      SameElements(gs, fs, gs[j]);
      var i :| 0 <= i < |fs| && fs[i] == gs[j];
      ViewAt(fs, i);
    }
  }

  function FieldsOf(item: Json): seq<Field> {
    if item.Obj? then item.fields else [Field(T("value"), item)]
  }

  const ID_KEYS := ["id", "name", "route", "path", "tool", "connector", "role", "plan", "event", "action"]

  function FirstTruthy(p: Props, names: seq<string>): Json {
    if names == [] then Null else if Truth(Get(p, names[0])) then Get(p, names[0]) else FirstTruthy(p, names[1..])
  }

  function SurfaceId(py: Py, p: Props, index: int): Text {
    var named := FirstTruthy(p, ID_KEYS);
    if Truth(named) then py.str(named)
    else if T("value") in p then py.str(p[T("value")])
    else py.str(Int(index))
  }

  function EntryOf(py: Py, item: Json, index: int): Entry {
    Entry(SurfaceId(py, View(FieldsOf(item)), index), Sort(FieldLe, FieldsOf(item)))
  }

  function Entries(py: Py, items: seq<Json>): (r: seq<Entry>)
    ensures |r| == |items|
    ensures forall i :: 0 <= i < |items| ==> r[i] == EntryOf(py, items[i], i)
  {
    seq(|items|, i requires 0 <= i < |items| => EntryOf(py, items[i], i))
  }

  predicate DistinctIds(entries: seq<Entry>) {
    forall i, j :: 0 <= i < j < |entries| ==> entries[i].id != entries[j].id
  }

  /** The dictionary of a list of surfaces. */
  function Table(entries: seq<Entry>): (r: map<Text, seq<Field>>)
    ensures forall i :: 0 <= i < |entries| ==> entries[i].id in r
    ensures forall id :: id in r ==> Entry(id, r[id]) in entries
  {
    if entries == [] then map[]
    else
      var last := entries[|entries| - 1];
      assert entries == entries[..|entries| - 1] + [last];
      Table(entries[..|entries| - 1])[last.id := last.fields]
  }

  lemma TablePush(entries: seq<Entry>, e: Entry)
    ensures Table(entries + [e]) == Table(entries)[e.id := e.fields]
  {
    assert (entries + [e])[..|entries|] == entries;
  }

  lemma DistinctPush(entries: seq<Entry>, e: Entry)
    requires DistinctIds(entries)
    ensures e.id !in Table(entries) <==> DistinctIds(entries + [e])
  {
    var all := entries + [e];
    if e.id in Table(entries) {
      var i :| 0 <= i < |entries| && entries[i] == Entry(e.id, Table(entries)[e.id]);
      assert all[i].id == all[|entries|].id;
    }
  }

  lemma DistinctPrefix(entries: seq<Entry>, n: nat)
    requires n <= |entries| && DistinctIds(entries)
    ensures DistinctIds(entries[..n])
  {
  }

  lemma TableAt(entries: seq<Entry>, i: nat)
    requires DistinctIds(entries) && i < |entries|
    ensures entries[i].id in Table(entries) && Table(entries)[entries[i].id] == entries[i].fields
  {
    var j :| 0 <= j < |entries| && entries[j] == Entry(entries[i].id, Table(entries)[entries[i].id]);
  }

  method ItemsById(py: Py, items: seq<Json>) returns (r: Result<map<Text, seq<Field>>, Text>)
    ensures r.Ok? <==> DistinctIds(Entries(py, items))
    ensures r.Ok? ==> r.value == Table(Entries(py, items))
  {
    hide DistinctIds, Table, EntryOf;
    var out: map<Text, seq<Field>> := map[];
    ghost var entries := Entries(py, items);
    NoEntries();
    assert entries[..0] == [];
    for i := 0 to |items|
      invariant DistinctIds(entries[..i])
      invariant out == Table(entries[..i])
    {
      var e := EntryOf(py, items[i], i);
      assert entries[..i + 1] == entries[..i] + [e];
      DistinctPush(entries[..i], e);
      TablePush(entries[..i], e);
      if e.id in out {
        if DistinctIds(entries) { DistinctPrefix(entries, i + 1); }
        return Err(e.id);
      }
      out := out[e.id := e.fields];
    }
    assert entries[..|items|] == entries;
    r := Ok(out);
  }

  lemma NoEntries()
    ensures DistinctIds([]) && Table([]) == map[]
  {
  }

  // ----- the diff ------------------------------------------------------------------------------

  datatype Change = Change(kind: Kind, id: Text, before: Option<seq<Field>>, after: seq<Field>)

  function TableOf(py: Py, m: Model, kind: Kind): map<Text, seq<Field>> { Table(Entries(py, m(kind))) }

  function StableJson(fields: seq<Field>): Text { Print(SortKeys(Obj(fields))) }

  ghost predicate WellIdentified(py: Py, m: Model) {
    forall kind :: kind in KINDS ==> DistinctIds(Entries(py, m(kind)))
  }

  /** `c` records a surface of `b` that `a` lacks or holds with other content. */
  predicate IsChange(py: Py, a: Model, b: Model, c: Change) {
    var was, now := TableOf(py, a, c.kind), TableOf(py, b, c.kind);
    && c.id in now && c.after == now[c.id]
    && c.before == (if c.id in was then Some(was[c.id]) else None)
    && (c.before.None? || StableJson(c.before.value) != StableJson(c.after))
  }

  /** A reported location and risk; a route is its own location, so an operation listed twice counts once. */
  datatype Key = Key(first: Json, second: Json, risk: Risk)

  function KeyOf(kind: Kind, id: Text, p: Props, risk: Risk): Key {
    var method_, route := Get(p, "method"), Get(p, "route");
    if Truth(method_) && Truth(route) then Key(method_, route, risk) else Key(Str(KindName(kind)), Str(id), risk)
  }

  datatype Located = Located(key: Key, finding: Finding)

  /** What one changed surface raises, each finding with its key. */
  function Raised(py: Py, c: Change): (r: seq<Located>)
    ensures |r| == |RiskFindings(py, c.kind, c.id, View(c.after))|
    ensures forall i :: 0 <= i < |r| ==>
              && r[i].finding == RiskFindings(py, c.kind, c.id, View(c.after))[i]
              && r[i].key == KeyOf(c.kind, c.id, View(c.after), r[i].finding.risk)
  {
    var p := View(c.after);
    var fs := RiskFindings(py, c.kind, c.id, p);
    seq(|fs|, i requires 0 <= i < |fs| => Located(KeyOf(c.kind, c.id, p, fs[i].risk), fs[i]))
  }

  predicate ListsKey(ls: seq<Located>, k: Key) { exists i :: 0 <= i < |ls| && ls[i].key == k }

  /** The (location, risk) pairs of the review of `a` against `b`. */
  ghost predicate Reported(py: Py, a: Model, b: Model, k: Key) {
    exists c :: IsChange(py, a, b, c) && ListsKey(Raised(py, c), k)
  }

  /** The identifiers of a list of surfaces in the order of `sorted`. */
  function SortedIds(entries: seq<Entry>): (r: seq<Text>) {
    Sort(TextLe, Ids(entries))
  }

  function Ids(entries: seq<Entry>): (r: seq<Text>)
    ensures |r| == |entries|
    ensures forall i :: 0 <= i < |r| ==> r[i] == entries[i].id
  {
    seq(|entries|, i requires 0 <= i < |entries| => entries[i].id)
  }

  lemma IdsAreKeys(entries: seq<Entry>, id: Text)
    ensures id in SortedIds(entries) <==> id in Table(entries)
  {
    var ids := Ids(entries);
    assert id in multiset(SortedIds(entries)) <==> id in multiset(ids);
    if id in ids {
      var i :| 0 <= i < |ids| && ids[i] == id;
      assert entries[i].id in Table(entries);
    }
    if id in Table(entries) {
      var i :| 0 <= i < |entries| && entries[i] == Entry(id, Table(entries)[id]);
      assert ids[i] == id;
    }
  }

  /** The changes of one list, at the identifiers `ids`. */
  ghost predicate ChangesOf(py: Py, a: Model, b: Model, kind: Kind, ids: seq<Text>, changes: seq<Change>) {
    forall c :: c in changes <==> c.kind == kind && c.id in ids && IsChange(py, a, b, c)
  }

  /** The change at `id`, when there is one. */
  function ChangeAt(py: Py, a: Model, b: Model, kind: Kind, id: Text): Change
    requires id in TableOf(py, b, kind)
  {
    var was := TableOf(py, a, kind);
    Change(kind, id, if id in was then Some(was[id]) else None, TableOf(py, b, kind)[id])
  }

  lemma ChangesPush(py: Py, a: Model, b: Model, kind: Kind, ids: seq<Text>, changes: seq<Change>, id: Text)
    requires ChangesOf(py, a, b, kind, ids, changes) && id in TableOf(py, b, kind)
    ensures var c := ChangeAt(py, a, b, kind, id);
            ChangesOf(py, a, b, kind, ids + [id], if IsChange(py, a, b, c) then changes + [c] else changes)
  {
    hide TableOf, StableJson;
    var c := ChangeAt(py, a, b, kind, id);
    forall x: Change | IsChange(py, a, b, x) && x.kind == kind && x.id == id ensures x == c {}
    forall x: Change ensures x.id in ids + [id] <==> x.id in ids || x.id == id {}
  }

  method ChangedOfKind(py: Py, a: Model, b: Model, kind: Kind) returns (r: Result<seq<Change>, Text>)
    ensures r.Ok? <==> DistinctIds(Entries(py, a(kind))) && DistinctIds(Entries(py, b(kind)))
    ensures r.Ok? ==> forall c :: c in r.value <==> c.kind == kind && IsChange(py, a, b, c)
  {
    hide DistinctIds, Table, Entries, EntryOf, StableJson, SortedIds, ChangesOf, TextLe;
    var before := ItemsById(py, a(kind));
    if before.Err? { return Err(before.error); }
    var after := ItemsById(py, b(kind));
    if after.Err? { return Err(after.error); }
    var ids := SortedIds(Entries(py, b(kind)));
    forall id ensures id in ids <==> id in TableOf(py, b, kind) { IdsAreKeys(Entries(py, b(kind)), id); }
    var changes := ChangesAt(py, a, b, kind, before.value, after.value, ids);
    AllChanges(py, a, b, kind, ids, changes);
    r := Ok(changes);
  }

  method ChangesAt(py: Py, ghost a: Model, ghost b: Model, kind: Kind,
                   before: map<Text, seq<Field>>, after: map<Text, seq<Field>>, ids: seq<Text>)
    returns (changes: seq<Change>)
    requires before == TableOf(py, a, kind) && after == TableOf(py, b, kind)
    requires forall i :: 0 <= i < |ids| ==> ids[i] in after
    ensures ChangesOf(py, a, b, kind, ids, changes)
  {
    hide TableOf, StableJson, ChangesOf;
    changes := [];
    NoChanges(py, a, b, kind);
    for i := 0 to |ids|
      invariant ChangesOf(py, a, b, kind, ids[..i], changes)
    {
      var id := ids[i];
      ChangesPush(py, a, b, kind, ids[..i], changes, id);
      var c := Change(kind, id, if id in before then Some(before[id]) else None, after[id]);
      assert ids[..i + 1] == ids[..i] + [id];
      if c.before.None? || StableJson(c.before.value) != StableJson(c.after) { changes := changes + [c]; }
    }
    assert ids[..|ids|] == ids;
  }

  lemma NoChanges(py: Py, a: Model, b: Model, kind: Kind)
    ensures ChangesOf(py, a, b, kind, [], [])
  {
  }

  lemma AllChanges(py: Py, a: Model, b: Model, kind: Kind, ids: seq<Text>, changes: seq<Change>)
    requires ChangesOf(py, a, b, kind, ids, changes)
    requires forall id :: id in TableOf(py, b, kind) ==> id in ids
    ensures forall c :: c in changes <==> c.kind == kind && IsChange(py, a, b, c)
  {
    hide TableOf, StableJson;
  }

  /** Exactly the changes of all lists, or an error when some list names a surface twice. */
  method ChangedSurfaces(py: Py, a: Model, b: Model) returns (r: Result<seq<Change>, Text>)
    ensures r.Ok? <==> WellIdentified(py, a) && WellIdentified(py, b)
    ensures r.Ok? ==> forall c :: c in r.value <==> IsChange(py, a, b, c)
  {
    hide DistinctIds, Entries, IsChange;
    var changes: seq<Change> := [];
    for i := 0 to |KINDS|
      invariant forall j :: 0 <= j < i ==> DistinctIds(Entries(py, a(KINDS[j]))) && DistinctIds(Entries(py, b(KINDS[j])))
      invariant forall c :: c in changes <==> c.kind in KINDS[..i] && IsChange(py, a, b, c)
    {
      var kind := KINDS[i];
      var more := ChangedOfKind(py, a, b, kind);
      if more.Err? { return Err(more.error); }
      assert KINDS[..i + 1] == KINDS[..i] + [kind];
      changes := changes + more.value;
    }
    assert KINDS[..|KINDS|] == KINDS;
    forall kind: Kind ensures kind in KINDS { EveryKind(kind); }
    r := Ok(changes);
  }

  lemma EveryKind(kind: Kind)
    ensures kind in KINDS
  {
    match kind
    case EndpointsRoutes => assert KINDS[0] == kind;
    case Exports => assert KINDS[1] == kind;
    case Meters => assert KINDS[2] == kind;
    case BillingObjects => assert KINDS[3] == kind;
    case Plans => assert KINDS[4] == kind;
    case CouponsPromotions => assert KINDS[5] == kind;
    case FeaturesFlags => assert KINDS[6] == kind;
    case IntegrationOauthApps => assert KINDS[7] == kind;
    case Webhooks => assert KINDS[8] == kind;
    case SupportAdminActions => assert KINDS[9] == kind;
    case AgentTools => assert KINDS[10] == kind;
    case McpConnectors => assert KINDS[11] == kind;
    case Tenants => assert KINDS[12] == kind;
    case DataClasses => assert KINDS[13] == kind;
    case DeclaredControls => assert KINDS[14] == kind;
  }

  // ----- deduplication -------------------------------------------------------------------------

  predicate UniqueLocations(ls: seq<Located>) {
    forall i, j :: 0 <= i < j < |ls| ==> ls[i].key != ls[j].key
  }

  /** The last entry of `raised` under the key of `l` is `l`. */
  ghost predicate LastUnderKey(raised: seq<Located>, l: Located) {
    exists n :: 0 <= n < |raised| && raised[n] == l && forall m :: n < m < |raised| ==> raised[m].key != l.key
  }

  /** Dictionary assignment: an existing key keeps its place. */
  function Put(kept: seq<Located>, l: Located): seq<Located> {
    if kept == [] then [l]
    else if kept[0].key == l.key then [l] + kept[1..]
    else [kept[0]] + Put(kept[1..], l)
  }

  lemma KeysCons(head: Located, rest: seq<Located>, k: Key)
    ensures ListsKey([head] + rest, k) <==> head.key == k || ListsKey(rest, k)
  {
    var all := [head] + rest;
    assert all[0] == head;
    if ListsKey(rest, k) {
      var i :| 0 <= i < |rest| && rest[i].key == k;
      assert all[i + 1].key == k;
    }
    if ListsKey(all, k) && head.key != k {
      var i :| 0 <= i < |all| && all[i].key == k;
      assert rest[i - 1].key == k;
    }
  }

  lemma KeysPush(ls: seq<Located>, l: Located, k: Key)
    ensures ListsKey(ls + [l], k) <==> ListsKey(ls, k) || l.key == k
  {
    var all := ls + [l];
    assert all[|ls|] == l;
    if ListsKey(ls, k) {
      var i :| 0 <= i < |ls| && ls[i].key == k;
      assert all[i].key == k;
    }
  }

  lemma {:induction false} PutKeys(kept: seq<Located>, l: Located, k: Key)
    ensures ListsKey(Put(kept, l), k) <==> ListsKey(kept, k) || k == l.key
  {
    if kept == [] {
      assert [l] == [] + [l];
      KeysPush([], l, k);
    } else {
      assert kept == [kept[0]] + kept[1..];
      KeysCons(kept[0], kept[1..], k);
      if kept[0].key == l.key {
        KeysCons(l, kept[1..], k);
      } else {
        PutKeys(kept[1..], l, k);
        KeysCons(kept[0], Put(kept[1..], l), k);
      }
    }
  }

  lemma {:induction false} PutUnique(kept: seq<Located>, l: Located)
    requires UniqueLocations(kept)
    ensures UniqueLocations(Put(kept, l))
    ensures forall i :: 0 <= i < |Put(kept, l)| ==>
              Put(kept, l)[i] == l || (Put(kept, l)[i].key != l.key && Put(kept, l)[i] in kept)
  {
    if kept != [] && kept[0].key != l.key {
      PutUnique(kept[1..], l);
      var rest := Put(kept[1..], l);
      forall i | 0 <= i < |rest| ensures rest[i].key != kept[0].key {
        if rest[i] != l {
          var j :| 0 <= j < |kept[1..]| && kept[1..][j] == rest[i];
          assert kept[j + 1] == rest[i];
        }
      }
    }
  }

  lemma LastPushed(raised: seq<Located>, l: Located)
    ensures LastUnderKey(raised + [l], l)
  {
    assert (raised + [l])[|raised|] == l;
  }

  lemma LastKept(raised: seq<Located>, l: Located, x: Located)
    requires LastUnderKey(raised, x) && x.key != l.key
    ensures LastUnderKey(raised + [l], x)
  {
    var n :| 0 <= n < |raised| && raised[n] == x && forall m :: n < m < |raised| ==> raised[m].key != x.key;
    var all := raised + [l];
    assert all[n] == x;
    forall m | n < m < |all| ensures all[m].key != x.key {
      if m < |raised| { assert all[m] == raised[m]; }
    }
  }

  /** One finding per key, at the place of the first and with the content of the last. */
  method Dedupe(raised: seq<Located>) returns (kept: seq<Located>)
    ensures UniqueLocations(kept)
    ensures forall k :: ListsKey(kept, k) <==> ListsKey(raised, k)
    ensures forall i :: 0 <= i < |kept| ==> LastUnderKey(raised, kept[i])
  {
    hide ListsKey, LastUnderKey, Put;
    kept := [];
    assert raised[..0] == [];
    for n := 0 to |raised|
      invariant UniqueLocations(kept)
      invariant forall k :: ListsKey(kept, k) <==> ListsKey(raised[..n], k)
      invariant forall i :: 0 <= i < |kept| ==> LastUnderKey(raised[..n], kept[i])
    {
      ghost var before := kept;
      var l := raised[n];
      assert raised[..n + 1] == raised[..n] + [l];
      kept := Put(kept, l);
      PutUnique(before, l);
      forall k ensures ListsKey(kept, k) <==> ListsKey(raised[..n + 1], k) {
        KeysPush(raised[..n], l, k);
        PutKeys(before, l, k);
      }
      forall i | 0 <= i < |kept| ensures LastUnderKey(raised[..n + 1], kept[i]) {
        if kept[i] == l {
          LastPushed(raised[..n], l);
        } else {
          LastKept(raised[..n], l, kept[i]);
        }
      }
    }
    assert raised[..|raised|] == raised;
  }

  // ----- the review ----------------------------------------------------------------------------

  datatype Gate = Pass | Warned | Blocked

  datatype Review = Review(changes: seq<Change>, findings: seq<Located>, gate: Gate)

  function GateOf(findings: seq<Located>): Gate {
    if exists i :: 0 <= i < |findings| && findings[i].finding.severity == Block then Blocked
    else if findings != [] then Warned
    else Pass
  }

  function RaisedByAll(py: Py, changes: seq<Change>): seq<Located> {
    if changes == [] then [] else RaisedByAll(py, changes[..|changes| - 1]) + Raised(py, changes[|changes| - 1])
  }

  lemma {:induction false} RaisedByAllKeys(py: Py, changes: seq<Change>, k: Key)
    ensures ListsKey(RaisedByAll(py, changes), k) <==> exists i :: 0 <= i < |changes| && ListsKey(Raised(py, changes[i]), k)
  {
    hide Raised, ListsKey, RiskFindings, View, KeyOf;
    if changes == [] {
      NoKeys(k);
    } else {
      var n := |changes| - 1;
      RaisedByAllKeys(py, changes[..n], k);
      KeysJoin(RaisedByAll(py, changes[..n]), Raised(py, changes[n]), k);
      assert forall i :: 0 <= i < n ==> changes[..n][i] == changes[i];
    }
  }

  lemma NoKeys(k: Key)
    ensures !ListsKey([], k)
  {
  }

  lemma KeysJoin(ls: seq<Located>, ms: seq<Located>, k: Key)
    ensures ListsKey(ls + ms, k) <==> ListsKey(ls, k) || ListsKey(ms, k)
  {
    var all := ls + ms;
    if ListsKey(ls, k) {
      var i :| 0 <= i < |ls| && ls[i].key == k;
      assert all[i].key == k;
    }
    if ListsKey(ms, k) {
      var i :| 0 <= i < |ms| && ms[i].key == k;
      assert all[|ls| + i].key == k;
    }
  }

  lemma {:induction false} RaisedByAllOrigin(py: Py, changes: seq<Change>, l: Located)
    requires l in RaisedByAll(py, changes)
    ensures exists c :: c in changes && l in Raised(py, c)
  {
    hide Raised, RiskFindings, View, KeyOf;
    var n := |changes| - 1;
    assert changes == changes[..n] + [changes[n]];
    if l in RaisedByAll(py, changes[..n]) {
      RaisedByAllOrigin(py, changes[..n], l);
    } else {
      assert l in Raised(py, changes[n]);
    }
  }

  /** `l` is raised by some change between the two models. */
  ghost predicate Originates(py: Py, a: Model, b: Model, l: Located) {
    exists c :: IsChange(py, a, b, c) && l in Raised(py, c)
  }

  /** Every reported (location, risk) key once, each finding raised by a change, and the gate that follows from them. */
  ghost predicate IsReview(py: Py, a: Model, b: Model, r: Review) {
    && UniqueLocations(r.findings)
    && (forall k :: ListsKey(r.findings, k) <==> Reported(py, a, b, k))
    && (forall i :: 0 <= i < |r.findings| ==> Originates(py, a, b, r.findings[i]))
    && r.gate == GateOf(r.findings)
  }

  /**
   `review_product_models`: fails exactly when some list of either model names a surface twice; otherwise it
   reports every (location, risk) key once, each finding raised by a change, and gates on what it reports.
   */
  method ReviewProductModels(py: Py, a: Model, b: Model) returns (r: Result<Review, Text>)
    ensures r.Ok? <==> WellIdentified(py, a) && WellIdentified(py, b)
    ensures r.Ok? ==> IsReview(py, a, b, r.value)
  {
    hide ListsKey, Raised, IsChange, LastUnderKey, UniqueLocations, WellIdentified;
    var changed := ChangedSurfaces(py, a, b);
    if changed.Err? { return Err(changed.error); }
    var raised: seq<Located> := [];
    var changes := changed.value;
    for i := 0 to |changes|
      invariant raised == RaisedByAll(py, changes[..i])
    {
      assert changes[..i + 1][..i] == changes[..i];
      raised := raised + Raised(py, changes[i]);
    }
    assert changes[..|changes|] == changes;
    var findings := Dedupe(raised);
    forall k ensures ListsKey(findings, k) <==> Reported(py, a, b, k) { RaisedByAllKeys(py, changes, k); }
    forall i | 0 <= i < |findings| ensures Originates(py, a, b, findings[i]) {
      LastIsRaised(raised, findings[i]);
      RaisedByAllOrigin(py, changes, findings[i]);
    }
    r := Ok(Review(changes, findings, GateOf(findings)));
  }

  lemma LastIsRaised(raised: seq<Located>, l: Located)
    requires LastUnderKey(raised, l)
    ensures l in raised
  {
  }

  // ----- reviews against other baselines -------------------------------------------------------

  /** A finding depends on what a surface is, not on what it was. */
  lemma SameRaised(py: Py, x: Change, y: Change)
    requires x.kind == y.kind && x.id == y.id && x.after == y.after
    ensures Raised(py, x) == Raised(py, y)
  {
  }

  const EMPTY: Model := (_: Kind) => []

  /** Whatever a diff reports, the review against the empty baseline reports. */
  lemma DiffWithinFullReview(py: Py, a: Model, b: Model, k: Key)
    ensures Reported(py, a, b, k) ==> Reported(py, EMPTY, b, k)
  {
    if Reported(py, a, b, k) {
      var x :| IsChange(py, a, b, x) && ListsKey(Raised(py, x), k);
      var y := x.(before := None);
      SameRaised(py, x, y);
      assert TableOf(py, EMPTY, x.kind) == map[];
      assert IsChange(py, EMPTY, b, y);
    }
  }

  /** A model reviewed against itself reports nothing. */
  lemma SelfReviewPasses(py: Py, a: Model, k: Key)
    ensures !Reported(py, a, a, k)
  {
  }
}
