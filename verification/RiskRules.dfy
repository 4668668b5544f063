/**
 What the static review reports, risk by risk, in terms of the properties a surface has: which names are looked up, in
 which order, and which values count. The rules of `StaticReview` report exactly this, once, with this severity.
 */
module RiskRules {
  import opened Sorting
  import opened JsonText
  import opened StaticReview

  // ----- reading a surface ---------------------------------------------------------------------

  ghost predicate Word(t: Text, words: seq<string>) { exists i :: 0 <= i < |words| && t == T(words[i]) }

  /** `false`, or a text that stands for a missing control. */
  ghost predicate SaysNo(py: Py, v: Json) {
    v == Bool(false)
    || (v.Str? && Word(py.lower(py.strip(v.s)),
                       ["", "missing", "none", "false", "disabled", "off", "no", "weak", "client", "client_only"]))
  }

  /** `true`, a number other than zero, or a text that stands for yes. */
  ghost predicate SaysYes(py: Py, v: Json) {
    || v == Bool(true) || (v.Int? && v.n != 0)
    || (v.Str? && Word(py.lower(py.strip(v.s)), ["true", "yes", "on", "enabled", "billable", "metered", "paid"]))
  }

  /** The name at `i` is present and none before it is. */
  ghost predicate FirstAt(p: Props, names: seq<string>, i: nat) {
    i < |names| && T(names[i]) in p && forall j :: 0 <= j < i ==> T(names[j]) !in p
  }

  ghost predicate Off(py: Py, p: Props, names: seq<string>) { exists i: nat :: FirstAt(p, names, i) && SaysNo(py, p[T(names[i])]) }

  ghost predicate On(py: Py, p: Props, names: seq<string>) { exists i: nat :: FirstAt(p, names, i) && SaysYes(py, p[T(names[i])]) }

  /** The first present name holds something that reads `t`. */
  ghost predicate Reads(py: Py, p: Props, names: seq<string>, t: Text) {
    t != [] && exists i: nat :: FirstAt(p, names, i) && Truth(p[T(names[i])]) && py.lower(py.str(p[T(names[i])])) == t
  }

  ghost predicate ReadsOneOf(py: Py, p: Props, names: seq<string>, words: seq<string>) {
    exists k :: 0 <= k < |words| && Reads(py, p, names, T(words[k]))
  }

  ghost predicate Holds(p: Props, name: string, v: Json) { T(name) in p && p[T(name)] == v }

  ghost predicate Shows(py: Py, p: Props, name: string, words: seq<string>) {
    T(name) in p && Word(py.lower(py.str(p[T(name)])), words)
  }

  /** Two texts are read, and they differ. */
  ghost predicate Gap(py: Py, p: Props, required: seq<string>, reached: seq<string>) {
    exists a, b :: Reads(py, p, required, a) && Reads(py, p, reached, b) && a != b
  }

  /** Reachable for low plans or roles, unless the surface says it is not. */
  ghost predicate Exposed(py: Py, p: Props) {
    && !Holds(p, "reachable", Bool(false))
    && (|| On(py, p, ["reachable"])
        || ReadsOneOf(py, p, ["reachable_by_plan", "granted_plan", "current_plan"], ["trial", "free", "starter", "basic"])
        || ReadsOneOf(py, p, ["reachable_by_role", "installable_by_role", "granted_role"], ["anonymous", "member", "user", "anyone"]))
  }

  // ----- scopes --------------------------------------------------------------------------------

  ghost predicate Broad(py: Py, t: Text) {
    Word(py.lower(py.strip(t)),
         ["*", "all", "admin", "full", "full_access", "read_write_all", "global", "all_tenants", "read:all", "write:all"])
  }

  /** `t` is one of the scopes a value lists: the elements of an array, the parts of a comma-separated text, or the value. */
  ghost predicate ListsScope(py: Py, v: Json, t: Text) {
    match v
    case Null => false
    case Arr(items) => exists i :: 0 <= i < |items| && t == py.lower(py.strip(py.str(items[i])))
    case Str(s) =>
      if ',' as int in s then exists i :: 0 <= i < |py.parts(s)| && t == py.lower(py.strip(py.parts(s)[i]))
      else t == py.lower(py.strip(py.str(v)))
    case _ => t == py.lower(py.strip(py.str(v)))
  }

  ghost predicate Lists(py: Py, p: Props, names: seq<string>, t: Text) {
    exists i: nat :: FirstAt(p, names, i) && ListsScope(py, p[T(names[i])], t)
  }

  const GRANTED := ["granted_scopes", "scopes"]
  const NEEDED := ["needed_scopes", "required_scopes", "intended_scopes"]

  /** More is granted than needed, where both are stated. */
  ghost predicate Excess(py: Py, p: Props) {
    && (exists s :: Lists(py, p, GRANTED, s) && !Lists(py, p, NEEDED, s))
    && exists t :: Lists(py, p, NEEDED, t)
  }

  ghost predicate OneScopeBroad(py: Py, p: Props, names: seq<string>) {
    exists i: nat :: FirstAt(p, names, i) && Truth(p[T(names[i])]) && Broad(py, py.lower(py.strip(py.str(p[T(names[i])]))))
  }

  /** From one tenant to everything. */
  const TIERS: seq<seq<string>> := [["own_tenant", "tenant"], ["workspace"], ["org"], ["global", "all_tenants", "all"]]

  /** `a` is in a tier and `b` in none as wide, or `a` is broad and another scope. */
  ghost predicate Wider(py: Py, a: Text, b: Text) {
    || (exists i :: 0 <= i < |TIERS| && Word(a, TIERS[i]) && forall j :: i <= j < |TIERS| ==> !Word(b, TIERS[j]))
    || (Broad(py, a) && a != b)
  }

  // ----- the risks -----------------------------------------------------------------------------

  const ENTITLED := ["entitlement_check", "authz_check", "guard", "guard_present"]
  const TENANT_FILTERS := ["tenant_filter", "tenant_check", "tenant_isolation"]

  /** Exports, and endpoints whose name or route mentions one. */
  ghost predicate IsExport(py: Py, kind: Kind, p: Props) { kind.Exports? || (kind.EndpointsRoutes? && MentionsExport(py, p)) }

  ghost predicate MentionsExport(py: Py, p: Props) {
    var t := py.lower(Shown(py, p, "id") + T(" ") + Shown(py, p, "name") + T(" ") + Shown(py, p, "route") + T(" ") + Shown(py, p, "path"));
    exists i :: 0 <= i <= |t| && T("export") <= t[i..]
  }

  function Shown(py: Py, p: Props, name: string): Text { if T(name) in p then py.str(p[T(name)]) else [] }

  ghost predicate UnguardedUi(py: Py, p: Props) {
    || Off(py, p, ENTITLED)
    || Off(py, p, ["lookup_quota", "lookup_limit", "rate_limit", "tenant_quota", "quota"])
    || Off(py, p, ["automation_guard", "anti_automation", "bot_protection", "human_challenge"])
  }

  ghost predicate UiGap(py: Py, p: Props) {
    Gap(py, p, ["required_plan", "entitlement_plan", "min_plan", "plan_required"],
        ["reachable_by_plan", "granted_plan", "current_plan", "observed_plan"])
  }

  /** A low role reaches the action although another is required. */
  ghost predicate LowRole(py: Py, p: Props) {
    exists k :: 0 <= k < 3 && var role := T(["member", "user", "support"][k]);
      Reads(py, p, ["reachable_by_role", "granted_role", "observed_role"], role)
      && !Reads(py, p, ["required_role", "min_role", "intended_role"], role)
  }

  ghost predicate RoleRequired(py: Py, p: Props) { exists t :: Reads(py, p, ["required_role", "min_role", "intended_role"], t) }

  ghost predicate Unaudited(py: Py, p: Props) { Off(py, p, ["audit_logged", "audit_event", "audit_event_id"]) }

  ghost predicate SelfApproved(py: Py, p: Props) { On(py, p, ["auto_approved", "auto_install", "default_approved"]) }

  ghost predicate LowInstaller(py: Py, p: Props) {
    ReadsOneOf(py, p, ["installable_by_role", "reachable_by_role", "role"], ["member", "user", "anyone", "anonymous"])
  }

  ghost predicate DeepDiscount(py: Py, p: Props) {
    || (exists i: nat :: var names := ["discount_percent", "discount"]; FirstAt(p, names, i) && py.number(p[T(names[i])]) >= 90.0)
    || Shows(py, p, "applies_to", ["all_plans", "all"])
  }

  /** When a surface of this kind is reported under this risk. */
  ghost predicate Due(py: Py, kind: Kind, p: Props, risk: Risk) {
    match risk
    case ExportWithoutEntitlement =>
      IsExport(py, kind, p) && !Holds(p, "bulk_access_permitted", Bool(true)) && Off(py, p, ENTITLED)
    case ExportWithoutTenantQuota =>
      IsExport(py, kind, p) && !Holds(p, "bulk_access_permitted", Bool(true))
      && Off(py, p, ["tenant_quota", "quota", "rate_limit", "export_limit"])
    case EndpointWithoutTenantFilter => kind.EndpointsRoutes? && !MentionsExport(py, p) && Off(py, p, TENANT_FILTERS)
    case UiBackingEndpointPaidApiBypass =>
      && kind.EndpointsRoutes?
      && On(py, p, ["ui_backing_endpoint", "interactive_ui_endpoint", "browser_endpoint"])
      && On(py, p, ["paid_api_equivalent", "bulk_api_equivalent", "api_equivalent"])
      && (UiGap(py, p) || UnguardedUi(py, p))
    case UnmeteredBillableResource =>
      && (kind.Meters? || kind.BillingObjects?)
      && On(py, p, ["billable", "cost_bearing", "metered", "charges_money"])
      && (|| Off(py, p, ["server_side_accounting", "server_authoritative", "meter_accounting"])
          || Off(py, p, ["quota", "cost_ceiling", "spend_limit"]))
    case StackableCouponWithoutRedemptionLimit =>
      && kind.CouponsPromotions? && !Holds(p, "stacking_permitted", Bool(true)) && On(py, p, ["stackable"])
      && Off(py, p, ["redemption_limit", "max_redemptions", "per_account_limit", "proof_of_uniqueness"])
    case OauthScopeOverbroad =>
      && kind.IntegrationOauthApps?
      && (|| OneScopeBroad(py, p, ["scope", "granted_scope", "oauth_scope"])
          || (exists s :: Lists(py, p, GRANTED, s) && Broad(py, s))
          || Excess(py, p))
    case AdminActionWithoutRoleOrAuditControl =>
      kind.SupportAdminActions? && (Unaudited(py, p) || (LowRole(py, p) && RoleRequired(py, p)))
    case AgentSurfaceOverscope =>
      && (kind.AgentTools? || kind.McpConnectors?)
      && exists a, b :: Reads(py, p, ["granted_scope", "effective_scope", "scope"], a)
                        && Reads(py, p, ["intended_scope", "required_scope", "declared_scope"], b) && Wider(py, a, b)
    case FeatureFlagPlanMismatch =>
      && kind.FeaturesFlags?
      && (|| Gap(py, p, ["required_plan", "entitlement_plan", "min_plan"], ["reachable_by_plan", "granted_plan", "current_plan"])
          || ReadsOneOf(py, p, ["gated_by", "guard"], ["client", "client_only"]))
    case TenantOrDataControlChange =>
      || (kind.DeclaredControls? && Shows(py, p, "status", ["removed", "disabled"]))
      || (kind.DataClasses? && On(py, p, ["sensitive", "regulated", "customer_data"]))
  }

  /** When it blocks. */
  ghost predicate Blocks(py: Py, p: Props, risk: Risk) {
    match risk
    case UiBackingEndpointPaidApiBypass => Exposed(py, p) || UiGap(py, p)
    case StackableCouponWithoutRedemptionLimit => DeepDiscount(py, p) && Exposed(py, p)
    case OauthScopeOverbroad => SelfApproved(py, p) && LowInstaller(py, p)
    case AdminActionWithoutRoleOrAuditControl => LowRole(py, p) && Unaudited(py, p)
    case AgentSurfaceOverscope => true
    case UnmeteredBillableResource => false
    case FeatureFlagPlanMismatch => false
    case TenantOrDataControlChange => false
    case _ => Exposed(py, p)
  }

  /** When it is reported as reachable. */
  ghost predicate Reached(py: Py, p: Props, risk: Risk) {
    match risk
    case UiBackingEndpointPaidApiBypass => Exposed(py, p) || UiGap(py, p)
    case OauthScopeOverbroad => Exposed(py, p) || SelfApproved(py, p) || LowInstaller(py, p)
    case AdminActionWithoutRoleOrAuditControl => Exposed(py, p) || LowRole(py, p)
    case AgentSurfaceOverscope => true
    case TenantOrDataControlChange => false
    case _ => Exposed(py, p)
  }

  /** Python's conversions of nothing: the empty text stays empty, no discount is zero. */
  ghost predicate Empties(py: Py) { py.lower([]) == [] && py.strip([]) == [] && py.str(Str([])) == [] && py.number(Null) == 0.0 }

  // ----- the readings of the rules -------------------------------------------------------------

  lemma {:induction false} FirstOf(p: Props, names: seq<string>, i: nat)
    requires FirstAt(p, names, i)
    ensures First(p, names) == p[T(names[i])]
  {
    hide T;
    if i > 0 {
      assert T(names[0]) !in p;
      forall j | 0 <= j < i - 1 ensures T(names[1..][j]) !in p { assert names[1..][j] == names[j + 1]; }
      FirstOf(p, names[1..], i - 1);
    }
  }

  /** Either some name is the first present, or none is present and the rules read null. */
  lemma {:induction false} SomeFirst(p: Props, names: seq<string>)
    ensures (exists i: nat :: FirstAt(p, names, i)) || First(p, names) == Null
  {
    hide T;
    if names != [] {
      if T(names[0]) in p {
        assert FirstAt(p, names, 0);
      } else {
        SomeFirst(p, names[1..]);
        if i: nat :| FirstAt(p, names[1..], i) {
          forall j | 0 <= j < i + 1 ensures T(names[j]) !in p { if j > 0 { assert names[j] == names[1..][j - 1]; } }
          assert FirstAt(p, names, i + 1);
        }
      }
    }
  }

  lemma FirstUnique(p: Props, names: seq<string>, i: nat, j: nat)
    requires FirstAt(p, names, i) && FirstAt(p, names, j)
    ensures i == j
  {
    hide T;
  }

  lemma OffIs(py: Py, p: Props, names: seq<string>)
    ensures BadControl(py, First(p, names)) <==> Off(py, p, names)
  {
    hide First, T;
    NoIs(py, First(p, names));
    SomeFirst(p, names);
    forall i: nat | FirstAt(p, names, i) ensures First(p, names) == p[T(names[i])] { FirstOf(p, names, i); }
  }

  lemma NoIs(py: Py, v: Json)
    ensures BadControl(py, v) <==> SaysNo(py, v)
    ensures Truthy(py, v) <==> SaysYes(py, v)
    ensures !SaysNo(py, Null) && !SaysYes(py, Null)
  {
    hide T;
    assert MISSING == ["", "missing", "none", "false", "disabled", "off", "no", "weak", "client", "client_only"];
    assert TRUE_WORDS == ["true", "yes", "on", "enabled", "billable", "metered", "paid"];
  }

  lemma OnIs(py: Py, p: Props, names: seq<string>)
    ensures Truthy(py, First(p, names)) <==> On(py, p, names)
  {
    hide First, T;
    NoIs(py, First(p, names));
    SomeFirst(p, names);
    forall i: nat | FirstAt(p, names, i) ensures First(p, names) == p[T(names[i])] { FirstOf(p, names, i); }
  }

  lemma ReadsIs(py: Py, p: Props, names: seq<string>, t: Text)
    requires Empties(py) && t != []
    ensures Lowered(py, First(p, names)) == t <==> Reads(py, p, names, t)
  {
    hide First, T;
    SomeFirst(p, names);
    forall i: nat | FirstAt(p, names, i) ensures First(p, names) == p[T(names[i])] { FirstOf(p, names, i); }
  }

  /** What is read, if anything is. */
  lemma ReadsAll(py: Py, p: Props, names: seq<string>)
    requires Empties(py)
    ensures forall t :: Reads(py, p, names, t) <==> t != [] && t == Lowered(py, First(p, names))
  {
    hide Lowered, First, Reads, Empties;
    forall t ensures Reads(py, p, names, t) <==> t != [] && t == Lowered(py, First(p, names)) {
      if t != [] { ReadsIs(py, p, names, t); } else { NothingRead(py, p, names); }
    }
  }

  lemma NothingRead(py: Py, p: Props, names: seq<string>)
    ensures !Reads(py, p, names, [])
  {
  }

  ghost predicate NoEmpty(words: seq<string>) { forall i :: 0 <= i < |words| ==> words[i] != "" }

  lemma ReadsOneOfIs(py: Py, p: Props, names: seq<string>, words: seq<string>)
    requires Empties(py) && NoEmpty(words)
    ensures OneOf(Lowered(py, First(p, names)), words) <==> ReadsOneOf(py, p, names, words)
  {
    hide Lowered, First, Reads, Empties;
    ReadsAll(py, p, names);
    forall i | 0 <= i < |words| ensures T(words[i]) != [] {}
  }

  lemma GapIs(py: Py, p: Props, required: seq<string>, reached: seq<string>)
    requires Empties(py)
    ensures var a, b := Lowered(py, First(p, required)), Lowered(py, First(p, reached));
            a != [] && b != [] && a != b <==> Gap(py, p, required, reached)
  {
    hide Lowered, First, Reads, Empties;
    ReadsAll(py, p, required);
    ReadsAll(py, p, reached);
    var a, b := Lowered(py, First(p, required)), Lowered(py, First(p, reached));
    if a != [] && b != [] && a != b { assert Reads(py, p, required, a) && Reads(py, p, reached, b); }
    if Gap(py, p, required, reached) { var x, y :| Reads(py, p, required, x) && Reads(py, p, reached, y) && x != y; }
  }

  lemma OneIsGet(p: Props, name: string)
    ensures First(p, [name]) == Get(p, name)
  {
    hide T;
    assert [name][1..] == [];
    assert First(p, []) == Null;
  }

  lemma ExposedIs(py: Py, p: Props)
    requires Empties(py)
    ensures Reachable(py, p) <==> Exposed(py, p)
  {
    hide First, On, ReadsOneOf, Lowered, OneOf, Truthy, T, Empties;
    OnIs(py, p, ["reachable"]);
    OneIsGet(p, "reachable");
    ReadsOneOfIs(py, p, ["reachable_by_plan", "granted_plan", "current_plan"], LOW_REACH_PLANS);
    assert LOW_REACH_PLANS == ["trial", "free", "starter", "basic"];
    ReadsOneOfIs(py, p, ["reachable_by_role", "installable_by_role", "granted_role"], ["anonymous", "member", "user", "anyone"]);
  }

  lemma HoldsIs(p: Props, name: string, v: Json)
    requires v != Null
    ensures Get(p, name) == v <==> Holds(p, name, v)
  {
  }

  // ----- rule by rule --------------------------------------------------------------------------

  /** The list holds a finding under this risk exactly when it is due, and then one, with this severity and reach. */
  ghost predicate Tells(fs: seq<Finding>, kind: Kind, id: Text, risk: Risk, due: bool, blocks: bool, reached: bool) {
    && ((exists i :: 0 <= i < |fs| && fs[i].risk == risk) <==> due)
    && (forall i :: 0 <= i < |fs| && fs[i].risk == risk ==>
          fs[i].kind == kind && fs[i].id == id && (fs[i].severity == Block <==> blocks) && (fs[i].reachable <==> reached))
    && (forall i, j :: 0 <= i < j < |fs| && fs[i].risk == risk ==> fs[j].risk != risk)
  }

  ghost predicate Follows(py: Py, kind: Kind, id: Text, p: Props, risk: Risk, fs: seq<Finding>) {
    Tells(fs, kind, id, risk, Due(py, kind, p, risk), Blocks(py, p, risk), Reached(py, p, risk))
  }

  lemma TellsJoin(xs: seq<Finding>, ys: seq<Finding>, kind: Kind, id: Text, risk: Risk, dx: bool, dy: bool, b: bool, r: bool)
    requires Tells(xs, kind, id, risk, dx, b, r) && Tells(ys, kind, id, risk, dy, b, r) && !(dx && dy)
    ensures Tells(xs + ys, kind, id, risk, dx || dy, b, r)
  {
    var all := xs + ys;
    if i :| 0 <= i < |xs| && xs[i].risk == risk { assert all[i] == xs[i]; }
    if i :| 0 <= i < |ys| && ys[i].risk == risk { assert all[|xs| + i] == ys[i]; }
    if i :| 0 <= i < |all| && all[i].risk == risk { assert if i < |xs| then all[i] == xs[i] else all[i] == ys[i - |xs|]; }
  }

  lemma TellsNothing(kind: Kind, id: Text, risk: Risk, b: bool, r: bool)
    ensures Tells([], kind, id, risk, false, b, r)
  {
  }

  lemma TellsOne(f: Finding, risk: Risk, b: bool, r: bool)
    requires f.risk == risk ==> (f.severity == Block <==> b) && (f.reachable <==> r)
    ensures Tells([f], f.kind, f.id, risk, f.risk == risk, b, r)
  {
    if f.risk == risk { assert [f][0].risk == risk; }
  }

  lemma FoundIs(py: Py, kind: Kind, id: Text, p: Props, risk: Risk, severity: Severity, reachable: bool)
    ensures var f := Found(py, kind, id, p, risk, severity, reachable);
            f.kind == kind && f.id == id && f.risk == risk && f.severity == severity && f.reachable == reachable
  {
    hide Reason, Granted, Intended, ControlOf, Get;
  }

  lemma ExportReads(py: Py, p: Props)
    requires Empties(py)
    ensures Get(p, "bulk_access_permitted") == Bool(true) <==> Holds(p, "bulk_access_permitted", Bool(true))
    ensures BadControl(py, First(p, ENTITLEMENT)) <==> Off(py, p, ENTITLED)
    ensures BadControl(py, First(p, ["tenant_quota", "quota", "rate_limit", "export_limit"])) <==>
            Off(py, p, ["tenant_quota", "quota", "rate_limit", "export_limit"])
    ensures Reachable(py, p) <==> Exposed(py, p)
  {
    hide BadControl, First, Off, T, Get, Holds, Reachable, Exposed, Empties;
    HoldsIs(p, "bulk_access_permitted", Bool(true));
    assert ENTITLEMENT == ENTITLED;
    OffIs(py, p, ENTITLED);
    OffIs(py, p, ["tenant_quota", "quota", "rate_limit", "export_limit"]);
    ExposedIs(py, p);
  }

  lemma ExportRule(py: Py, kind: Kind, id: Text, p: Props, risk: Risk, b: bool, r: bool)
    requires Empties(py)
    requires risk == ExportWithoutEntitlement || risk == ExportWithoutTenantQuota ==> b == r == Exposed(py, p)
    ensures Tells(ExportRisks(py, kind, id, p), kind, id, risk,
                  && !Holds(p, "bulk_access_permitted", Bool(true))
                  && ((risk == ExportWithoutEntitlement && Off(py, p, ENTITLED))
                      || (risk == ExportWithoutTenantQuota && Off(py, p, ["tenant_quota", "quota", "rate_limit", "export_limit"]))), b, r)
  {
    hide BadControl, First, Off, T, Get, Holds, Reachable, Exposed, Empties, Found, Tells;
    ExportReads(py, p);
    var x := Reachable(py, p);
    var e, q := Found(py, kind, id, p, ExportWithoutEntitlement, BlockIf(x), x),
                Found(py, kind, id, p, ExportWithoutTenantQuota, BlockIf(x), x);
    FoundIs(py, kind, id, p, ExportWithoutEntitlement, BlockIf(x), x);
    FoundIs(py, kind, id, p, ExportWithoutTenantQuota, BlockIf(x), x);
    TellsNothing(kind, id, risk, b, r);
    TellsOne(e, risk, b, r);
    TellsOne(q, risk, b, r);
    TellsJoin([e], [q], kind, id, risk, risk == e.risk, risk == q.risk, b, r);
    var fs := ExportRisks(py, kind, id, p);
    assert fs == [] || fs == [e] || fs == [q] || fs == [e] + [q];
  }

  /** At most one finding, under this risk, when it is due. */
  ghost predicate Alone(fs: seq<Finding>, kind: Kind, id: Text, risk: Risk, due: bool, blocks: bool, reached: bool) {
    if !due then fs == []
    else
      && |fs| == 1 && fs[0].kind == kind && fs[0].id == id && fs[0].risk == risk
      && (fs[0].severity == Block <==> blocks) && (fs[0].reachable <==> reached)
  }

  lemma {:induction false} ContainsIs(t: Text, part: Text)
    ensures Contains(t, part) <==> exists i :: 0 <= i <= |t| && part <= t[i..]
  {
    assert t[0..] == t;
    if t != [] {
      ContainsIs(t[1..], part);
      if i :| 0 <= i <= |t[1..]| && part <= t[1..][i..] { assert t[1..][i..] == t[i + 1..]; }
      if i :| 0 <= i <= |t| && part <= t[i..] && i > 0 { assert t[1..][i - 1..] == t[i..]; }
    }
  }

  lemma LabelIs(py: Py, p: Props)
    requires Empties(py)
    ensures Contains(Label(py, p), T("export")) <==> MentionsExport(py, p)
  {
    hide Contains, T;
    ContainsIs(Label(py, p), T("export"));
    assert TextOf(py, p, "id") == Shown(py, p, "id") && TextOf(py, p, "name") == Shown(py, p, "name");
    assert TextOf(py, p, "route") == Shown(py, p, "route") && TextOf(py, p, "path") == Shown(py, p, "path");
  }

  lemma UiRule(py: Py, id: Text, p: Props)
    requires Empties(py)
    ensures Alone(UiBackingRisks(py, EndpointsRoutes, id, p), EndpointsRoutes, id, UiBackingEndpointPaidApiBypass,
                  Due(py, EndpointsRoutes, p, UiBackingEndpointPaidApiBypass), Exposed(py, p) || UiGap(py, p),
                  Exposed(py, p) || UiGap(py, p))
  {
    hide BadControl, First, Off, On, T, Reachable, Exposed, Empties, Found, Lowered, Truthy, Gap;
    OnIs(py, p, ["ui_backing_endpoint", "interactive_ui_endpoint", "browser_endpoint"]);
    OnIs(py, p, ["paid_api_equivalent", "bulk_api_equivalent", "api_equivalent"]);
    GapIs(py, p, ["required_plan", "entitlement_plan", "min_plan", "plan_required"],
          ["reachable_by_plan", "granted_plan", "current_plan", "observed_plan"]);
    assert ENTITLEMENT == ENTITLED;
    OffIs(py, p, ENTITLED);
    OffIs(py, p, ["lookup_quota", "lookup_limit", "rate_limit", "tenant_quota", "quota"]);
    OffIs(py, p, ["automation_guard", "anti_automation", "bot_protection", "human_challenge"]);
    ExposedIs(py, p);
    FoundIs(py, EndpointsRoutes, id, p, UiBackingEndpointPaidApiBypass, Block, true);
    FoundIs(py, EndpointsRoutes, id, p, UiBackingEndpointPaidApiBypass, Warn, false);
  }

  lemma MeterRule(py: Py, kind: Kind, id: Text, p: Props)
    requires Empties(py) && (kind.Meters? || kind.BillingObjects?)
    ensures Alone(MeterRisks(py, kind, id, p), kind, id, UnmeteredBillableResource,
                  Due(py, kind, p, UnmeteredBillableResource), false, Exposed(py, p))
  {
    hide BadControl, First, Off, On, T, Reachable, Exposed, Empties, Found, Truthy;
    OnIs(py, p, ["billable", "cost_bearing", "metered", "charges_money"]);
    OffIs(py, p, ["server_side_accounting", "server_authoritative", "meter_accounting"]);
    OffIs(py, p, ["quota", "cost_ceiling", "spend_limit"]);
    ExposedIs(py, p);
    FoundIs(py, kind, id, p, UnmeteredBillableResource, Warn, Reachable(py, p));
  }

  lemma DiscountIs(py: Py, p: Props)
    requires Empties(py)
    ensures (py.number(First(p, ["discount_percent", "discount"])) >= 90.0
             || OneOf(py.lower(TextOf(py, p, "applies_to")), ["all_plans", "all"]))
            <==> DeepDiscount(py, p)
  {
    hide First, T;
    var names := ["discount_percent", "discount"];
    SomeFirst(p, names);
    forall i: nat | FirstAt(p, names, i) ensures First(p, names) == p[T(names[i])] { FirstOf(p, names, i); }
    if T("applies_to") !in p { EmptyNoWord(["all_plans", "all"]); }
  }

  lemma EmptyNoWord(words: seq<string>)
    requires NoEmpty(words)
    ensures !OneOf([], words)
  {
  }

  lemma CouponRule(py: Py, id: Text, p: Props)
    requires Empties(py)
    ensures Alone(CouponRisks(py, CouponsPromotions, id, p), CouponsPromotions, id, StackableCouponWithoutRedemptionLimit,
                  Due(py, CouponsPromotions, p, StackableCouponWithoutRedemptionLimit), DeepDiscount(py, p) && Exposed(py, p),
                  Exposed(py, p))
  {
    hide BadControl, First, Off, On, T, Reachable, Exposed, Empties, Found, Truthy, Get, Holds, DeepDiscount, OneOf, TextOf;
    HoldsIs(p, "stacking_permitted", Bool(true));
    OnIs(py, p, ["stackable"]);
    OneIsGet(p, "stackable");
    OffIs(py, p, ["redemption_limit", "max_redemptions", "per_account_limit", "proof_of_uniqueness"]);
    ExposedIs(py, p);
    DiscountIs(py, p);
    FoundIs(py, CouponsPromotions, id, p, StackableCouponWithoutRedemptionLimit, Block, Reachable(py, p));
    FoundIs(py, CouponsPromotions, id, p, StackableCouponWithoutRedemptionLimit, Warn, Reachable(py, p));
  }

  lemma ScopesOfValue(py: Py, v: Json, t: Text)
    ensures t in Scopes(py, v) <==> ListsScope(py, v, t)
  {
  }

  lemma ListsIs(py: Py, p: Props, names: seq<string>)
    ensures forall t :: t in Scopes(py, First(p, names)) <==> Lists(py, p, names, t)
  {
    hide First, T, Scopes, ListsScope;
    SomeFirst(p, names);
    forall i: nat | FirstAt(p, names, i) ensures First(p, names) == p[T(names[i])] { FirstOf(p, names, i); }
    forall t ensures t in Scopes(py, First(p, names)) <==> Lists(py, p, names, t) {
      ScopesOfValue(py, First(p, names), t);
      ScopesOfValue(py, Null, t);
      NullListsNothing(py, t);
    }
  }

  lemma NullListsNothing(py: Py, t: Text)
    ensures !ListsScope(py, Null, t)
  {
  }

  lemma BroadIs(py: Py, t: Text)
    ensures BroadScope(py, t) <==> Broad(py, t)
  {
    hide T;
    assert BROAD == ["*", "all", "admin", "full", "full_access", "read_write_all", "global", "all_tenants", "read:all", "write:all"];
  }

  lemma EmptyNotBroad(py: Py)
    requires Empties(py)
    ensures !BroadScope(py, [])
  {
    EmptyNoWord(BROAD);
  }

  lemma OneScopeIs(py: Py, p: Props)
    requires Empties(py)
    ensures var names := ["scope", "granted_scope", "oauth_scope"]; var v := First(p, names);
            BroadScope(py, py.lower(py.strip(if Truth(v) then py.str(v) else []))) <==> OneScopeBroad(py, p, names)
  {
    hide First, T, BroadScope, Broad, Truth;
    var names := ["scope", "granted_scope", "oauth_scope"];
    SomeFirst(p, names);
    forall i: nat | FirstAt(p, names, i) ensures First(p, names) == p[T(names[i])] { FirstOf(p, names, i); }
    var v := First(p, names);
    BroadIs(py, py.lower(py.strip(py.str(v))));
    EmptyNotBroad(py);
    NullIsFalse();
  }

  lemma NullIsFalse()
    ensures !Truth(Null)
  {
  }

  lemma OauthRule(py: Py, id: Text, p: Props)
    requires Empties(py)
    ensures Alone(OauthRisks(py, IntegrationOauthApps, id, p), IntegrationOauthApps, id, OauthScopeOverbroad,
                  Due(py, IntegrationOauthApps, p, OauthScopeOverbroad), SelfApproved(py, p) && LowInstaller(py, p),
                  Exposed(py, p) || SelfApproved(py, p) || LowInstaller(py, p))
  {
    hide First, On, T, Reachable, Exposed, Empties, Found, Truthy, Lowered, OneOf, Scopes, BroadScope, Broad, Lists, OneScopeBroad,
         ReadsOneOf, Truth;
    OneScopeIs(py, p);
    OauthScopes(py, p);
    OnIs(py, p, ["auto_approved", "auto_install", "default_approved"]);
    ReadsOneOfIs(py, p, ["installable_by_role", "reachable_by_role", "role"], ["member", "user", "anyone", "anonymous"]);
    ExposedIs(py, p);
    var auto, low := SelfApproved(py, p), LowInstaller(py, p);
    FoundIs(py, IntegrationOauthApps, id, p, OauthScopeOverbroad, BlockIf(auto && low), Reachable(py, p) || auto || low);
  }

  lemma OauthScopes(py: Py, p: Props)
    ensures var granted, needed := Scopes(py, First(p, GRANTED)), Scopes(py, First(p, NEEDED));
            && ((exists s :: s in granted && BroadScope(py, s)) <==> exists s :: Lists(py, p, GRANTED, s) && Broad(py, s))
            && (granted != {} && needed != {} && !(granted <= needed) <==> Excess(py, p))
  {
    hide First, T, Scopes, BroadScope, Broad, Lists;
    ListsIs(py, p, GRANTED);
    ListsIs(py, p, NEEDED);
    forall s ensures BroadScope(py, s) <==> Broad(py, s) { BroadIs(py, s); }
    var granted, needed := Scopes(py, First(p, GRANTED)), Scopes(py, First(p, NEEDED));
    if granted != {} && needed != {} && !(granted <= needed) {
      var s :| s in granted && s !in needed;
      var t :| t in needed;
      assert Lists(py, p, GRANTED, s) && !Lists(py, p, NEEDED, s) && Lists(py, p, NEEDED, t);
    }
  }

  lemma RolesAre(py: Py, p: Props)
    requires Empties(py)
    ensures var required, reached := Lowered(py, First(p, ["required_role", "min_role", "intended_role"])),
                                     Lowered(py, First(p, ["reachable_by_role", "granted_role", "observed_role"]));
            && (required != [] <==> RoleRequired(py, p))
            && (reached != [] && reached != required && OneOf(reached, ["member", "user", "support"]) <==> LowRole(py, p))
  {
    hide First, Lowered, Reads, Empties;
    var need, have := ["required_role", "min_role", "intended_role"], ["reachable_by_role", "granted_role", "observed_role"];
    ReadsAll(py, p, need);
    ReadsAll(py, p, have);
    var required, reached := Lowered(py, First(p, need)), Lowered(py, First(p, have));
    if required != [] { assert Reads(py, p, need, required); }
    var roles := ["member", "user", "support"];
    forall k | 0 <= k < 3 ensures T(roles[k]) != [] {}
  }

  lemma AdminRule(py: Py, id: Text, p: Props)
    requires Empties(py)
    ensures Alone(AdminActionRisks(py, SupportAdminActions, id, p), SupportAdminActions, id, AdminActionWithoutRoleOrAuditControl,
                  Due(py, SupportAdminActions, p, AdminActionWithoutRoleOrAuditControl), LowRole(py, p) && Unaudited(py, p),
                  Exposed(py, p) || LowRole(py, p))
  {
    hide BadControl, First, Off, T, Reachable, Exposed, Empties, Found, Lowered, LowRole, RoleRequired, OneOf;
    RolesAre(py, p);
    OffIs(py, p, ["audit_logged", "audit_event", "audit_event_id"]);
    ExposedIs(py, p);
    var low, bad := LowRole(py, p), Unaudited(py, p);
    FoundIs(py, SupportAdminActions, id, p, AdminActionWithoutRoleOrAuditControl, BlockIf(low && bad), Reachable(py, p) || low);
  }

  lemma WiderIs(py: Py, a: Text, b: Text)
    ensures ScopeWider(py, a, b) <==> Wider(py, a, b)
  {
    hide BroadScope, Broad, ScopeRank, Word, TIERS;
    BroadIs(py, a);
    TierOf(a);
    TierOf(b);
    var i, k := ScopeRank(a) - 1, ScopeRank(b) - 1;
    if i > k { assert Word(a, TIERS[i]) && forall j :: i <= j < |TIERS| ==> !Word(b, TIERS[j]); }
    if j :| 0 <= j < |TIERS| && Word(a, TIERS[j]) && forall l :: j <= l < |TIERS| ==> !Word(b, TIERS[l]) {
      assert j == i;
      if k >= 0 { assert Word(b, TIERS[k]); }
    }
  }

  /** The rank of a scope is its tier, counted from 1; a scope in none has rank 0. */
  lemma TierOf(t: Text)
    ensures |TIERS| == 4 && ScopeRank(t) <= 4
    ensures forall i :: 0 <= i < 4 ==> (Word(t, TIERS[i]) <==> ScopeRank(t) == i + 1)
  {
    assert TIERS[0] == ["own_tenant", "tenant"] && TIERS[1] == ["workspace"] && TIERS[2] == ["org"];
    assert TIERS[3] == ["global", "all_tenants", "all"];
    assert |T("own_tenant")| == 10 && |T("tenant")| == 6 && |T("workspace")| == 9 && |T("org")| == 3;
    assert |T("global")| == 6 && |T("all_tenants")| == 11 && |T("all")| == 3;
    assert T("tenant")[0] == 't' as int && T("global")[0] == 'g' as int && T("org")[0] == 'o' as int && T("all")[0] == 'a' as int;
    assert Word(t, TIERS[1]) <==> t == T("workspace") by { assert TIERS[1][0] == "workspace"; }
    assert Word(t, TIERS[2]) <==> t == T("org") by { assert TIERS[2][0] == "org"; }
    assert Word(t, TIERS[0]) <==> t == T("own_tenant") || t == T("tenant") by {
      assert TIERS[0][0] == "own_tenant" && TIERS[0][1] == "tenant";
    }
    assert Word(t, TIERS[3]) <==> t == T("global") || t == T("all_tenants") || t == T("all") by {
      assert TIERS[3][0] == "global" && TIERS[3][1] == "all_tenants" && TIERS[3][2] == "all";
    }
  }

  lemma AgentRule(py: Py, kind: Kind, id: Text, p: Props)
    requires Empties(py) && (kind.AgentTools? || kind.McpConnectors?)
    ensures Alone(AgentSurfaceRisks(py, kind, id, p), kind, id, AgentSurfaceOverscope,
                  Due(py, kind, p, AgentSurfaceOverscope), true, true)
  {
    hide First, Lowered, Reads, Empties, Found, ScopeWider, Wider;
    ReadsAll(py, p, ["granted_scope", "effective_scope", "scope"]);
    ReadsAll(py, p, ["intended_scope", "required_scope", "declared_scope"]);
    var a, b := Granted(py, p), Intended(py, p);
    WiderIs(py, a, b);
    if a != [] && b != [] {
      assert Reads(py, p, ["granted_scope", "effective_scope", "scope"], a);
      assert Reads(py, p, ["intended_scope", "required_scope", "declared_scope"], b);
    }
    FoundIs(py, kind, id, p, AgentSurfaceOverscope, Block, true);
  }

  lemma FlagRule(py: Py, id: Text, p: Props)
    requires Empties(py)
    ensures Alone(FeatureFlagRisks(py, FeaturesFlags, id, p), FeaturesFlags, id, FeatureFlagPlanMismatch,
                  Due(py, FeaturesFlags, p, FeatureFlagPlanMismatch), false, Exposed(py, p))
  {
    hide First, Lowered, Gap, ReadsOneOf, Empties, Found, Reachable, Exposed, OneOf;
    GapIs(py, p, ["required_plan", "entitlement_plan", "min_plan"], ["reachable_by_plan", "granted_plan", "current_plan"]);
    ReadsOneOfIs(py, p, ["gated_by", "guard"], ["client", "client_only"]);
    ExposedIs(py, p);
    FoundIs(py, FeaturesFlags, id, p, FeatureFlagPlanMismatch, Warn, Reachable(py, p));
  }

  lemma StatusIs(py: Py, p: Props)
    requires Empties(py)
    ensures OneOf(py.lower(TextOf(py, p, "status")), ["removed", "disabled"]) <==> Shows(py, p, "status", ["removed", "disabled"])
  {
    hide T;
    if T("status") !in p { EmptyNoWord(["removed", "disabled"]); }
  }

  lemma ControlRule(py: Py, kind: Kind, id: Text, p: Props)
    requires Empties(py)
    ensures Alone(TenantDataControlRisks(py, kind, id, p), kind, id, TenantOrDataControlChange,
                  Due(py, kind, p, TenantOrDataControlChange), false, false)
  {
    hide First, On, Empties, Found, Shows, OneOf, TextOf, Truthy, T;
    StatusIs(py, p);
    OnIs(py, p, ["sensitive", "regulated", "customer_data"]);
    FoundIs(py, kind, id, p, TenantOrDataControlChange, Warn, false);
  }

  // ----- all of them ---------------------------------------------------------------------------

  lemma AloneTells(fs: seq<Finding>, kind: Kind, id: Text, own: Risk, due: bool, blocks: bool, reached: bool, risk: Risk, b: bool, r: bool)
    requires Alone(fs, kind, id, own, due, blocks, reached) && (risk == own ==> b == blocks && r == reached)
    ensures Tells(fs, kind, id, risk, due && risk == own, b, r)
  {
    if fs != [] { assert fs[0].risk == own; }
  }

  lemma AloneFollows(py: Py, kind: Kind, id: Text, p: Props, own: Risk, risk: Risk, fs: seq<Finding>)
    requires Alone(fs, kind, id, own, Due(py, kind, p, own), Blocks(py, p, own), Reached(py, p, own))
    requires risk != own ==> !Due(py, kind, p, risk)
    ensures Follows(py, kind, id, p, risk, fs)
  {
    hide Due, Blocks, Reached, Alone, Tells;
    AloneTells(fs, kind, id, own, Due(py, kind, p, own), Blocks(py, p, own), Reached(py, p, own), risk,
               Blocks(py, p, risk), Reached(py, p, risk));
  }

  lemma TenantRule(py: Py, id: Text, p: Props)
    requires Empties(py) && !MentionsExport(py, p)
    ensures var ui := UiBackingRisks(py, EndpointsRoutes, id, p); var fs := EndpointRisks(py, EndpointsRoutes, id, p);
            && ui <= fs
            && Alone(fs[|ui|..], EndpointsRoutes, id, EndpointWithoutTenantFilter, Off(py, p, TENANT_FILTERS), Exposed(py, p),
                     Exposed(py, p))
  {
    hide BadControl, First, Off, T, Reachable, Exposed, Empties, Found, UiBackingRisks, MentionsExport, Contains, Label;
    LabelIs(py, p);
    OffIs(py, p, TENANT_FILTERS);
    ExposedIs(py, p);
    FoundIs(py, EndpointsRoutes, id, p, EndpointWithoutTenantFilter, BlockIf(Reachable(py, p)), Reachable(py, p));
  }

  /** What an endpoint is reported for besides its UI. */
  ghost predicate RestDue(py: Py, p: Props, risk: Risk) {
    if MentionsExport(py, p) then
      && !Holds(p, "bulk_access_permitted", Bool(true))
      && ((risk == ExportWithoutEntitlement && Off(py, p, ENTITLED))
          || (risk == ExportWithoutTenantQuota && Off(py, p, ["tenant_quota", "quota", "rate_limit", "export_limit"])))
    else risk == EndpointWithoutTenantFilter && Off(py, p, TENANT_FILTERS)
  }

  lemma EndpointDue(py: Py, p: Props, risk: Risk)
    ensures Due(py, EndpointsRoutes, p, risk) <==>
            (Due(py, EndpointsRoutes, p, UiBackingEndpointPaidApiBypass) && risk == UiBackingEndpointPaidApiBypass) || RestDue(py, p, risk)
    ensures risk == UiBackingEndpointPaidApiBypass ==> !RestDue(py, p, risk)
    ensures risk in {ExportWithoutEntitlement, ExportWithoutTenantQuota, EndpointWithoutTenantFilter} ==>
              (Blocks(py, p, risk) <==> Exposed(py, p)) && (Reached(py, p, risk) <==> Exposed(py, p))
  {
    hide Off, On, Exposed, Holds, MentionsExport, UiGap, UnguardedUi, T;
  }

  lemma EndpointRest(py: Py, id: Text, p: Props, risk: Risk)
    requires Empties(py)
    ensures var ui := UiBackingRisks(py, EndpointsRoutes, id, p); var fs := EndpointRisks(py, EndpointsRoutes, id, p);
            ui <= fs && Tells(fs[|ui|..], EndpointsRoutes, id, risk, RestDue(py, p, risk), Blocks(py, p, risk), Reached(py, p, risk))
  {
    hide Off, On, Exposed, Empties, Holds, UiBackingRisks, ExportRisks, MentionsExport, UiGap, UnguardedUi, Tells, Alone, T, Contains,
         Label,
         Blocks, Reached, Due;
    var ui, fs, b, r := UiBackingRisks(py, EndpointsRoutes, id, p), EndpointRisks(py, EndpointsRoutes, id, p), Blocks(py, p, risk),
                        Reached(py, p, risk);
    LabelIs(py, p);
    EndpointDue(py, p, risk);
    if MentionsExport(py, p) {
      ExportRule(py, EndpointsRoutes, id, p, risk, b, r);
      assert fs == ui + ExportRisks(py, EndpointsRoutes, id, p);
      assert fs[|ui|..] == ExportRisks(py, EndpointsRoutes, id, p);
    } else {
      TenantRule(py, id, p);
      AloneTells(fs[|ui|..], EndpointsRoutes, id, EndpointWithoutTenantFilter, Off(py, p, TENANT_FILTERS), Exposed(py, p), Exposed(py, p),
                 risk, b, r);
    }
  }

  lemma EndpointRule(py: Py, id: Text, p: Props, risk: Risk)
    requires Empties(py)
    ensures Follows(py, EndpointsRoutes, id, p, risk, EndpointRisks(py, EndpointsRoutes, id, p))
  {
    hide Empties, UiBackingRisks, EndpointRisks, Tells, Alone, Blocks, Reached, Due, RestDue, Exposed, UiGap;
    var ui, fs, b, r := UiBackingRisks(py, EndpointsRoutes, id, p), EndpointRisks(py, EndpointsRoutes, id, p), Blocks(py, p, risk),
                        Reached(py, p, risk);
    var own := UiBackingEndpointPaidApiBypass;
    UiRule(py, id, p);
    UiBlocks(py, p);
    AloneTells(ui, EndpointsRoutes, id, own, Due(py, EndpointsRoutes, p, own), Blocks(py, p, own), Reached(py, p, own), risk, b, r);
    EndpointRest(py, id, p, risk);
    EndpointDue(py, p, risk);
    assert fs == ui + fs[|ui|..];
    TellsJoin(ui, fs[|ui|..], EndpointsRoutes, id, risk, Due(py, EndpointsRoutes, p, own) && risk == own, RestDue(py, p, risk), b, r);
  }

  lemma UiBlocks(py: Py, p: Props)
    ensures Blocks(py, p, UiBackingEndpointPaidApiBypass) <==> Exposed(py, p) || UiGap(py, p)
    ensures Reached(py, p, UiBackingEndpointPaidApiBypass) <==> Exposed(py, p) || UiGap(py, p)
  {
  }

  /**
   Every surface is reported under a risk exactly when the risk is due, once, with the severity and reach that go with it;
   whatever its kind and properties.
   */
  lemma RiskReportedExactly(py: Py, kind: Kind, id: Text, p: Props, risk: Risk)
    requires Empties(py)
    ensures Follows(py, kind, id, p, risk, RiskFindings(py, kind, id, p))
  {
    hide Empties, Off, On, Exposed, Holds, Gap, ReadsOneOf, ExportRisks, EndpointRisks, MeterRisks, CouponRisks, OauthRisks,
         AdminActionRisks, AgentSurfaceRisks, FeatureFlagRisks, TenantDataControlRisks, MentionsExport, Shows, LowRole, UiGap, UnguardedUi,
         OneScopeBroad, Lists, Excess, DeepDiscount, SelfApproved, LowInstaller, Unaudited, Follows, Alone, Reads, Wider, RoleRequired;
    var fs := RiskFindings(py, kind, id, p);
    match kind
    case Exports => ExportFollows(py, id, p, risk);
    case EndpointsRoutes => EndpointRule(py, id, p, risk);
    case Meters => MeterRule(py, kind, id, p); AloneFollows(py, kind, id, p, UnmeteredBillableResource, risk, fs);
    case BillingObjects => MeterRule(py, kind, id, p); AloneFollows(py, kind, id, p, UnmeteredBillableResource, risk, fs);
    case CouponsPromotions => CouponRule(py, id, p); AloneFollows(py, kind, id, p, StackableCouponWithoutRedemptionLimit, risk, fs);
    case IntegrationOauthApps => OauthRule(py, id, p); AloneFollows(py, kind, id, p, OauthScopeOverbroad, risk, fs);
    case SupportAdminActions => AdminRule(py, id, p); AloneFollows(py, kind, id, p, AdminActionWithoutRoleOrAuditControl, risk, fs);
    case AgentTools => AgentRule(py, kind, id, p); AloneFollows(py, kind, id, p, AgentSurfaceOverscope, risk, fs);
    case McpConnectors => AgentRule(py, kind, id, p); AloneFollows(py, kind, id, p, AgentSurfaceOverscope, risk, fs);
    case FeaturesFlags => FlagRule(py, id, p); AloneFollows(py, kind, id, p, FeatureFlagPlanMismatch, risk, fs);
    case Tenants => ControlRule(py, kind, id, p); AloneFollows(py, kind, id, p, TenantOrDataControlChange, risk, fs);
    case DataClasses => ControlRule(py, kind, id, p); AloneFollows(py, kind, id, p, TenantOrDataControlChange, risk, fs);
    case DeclaredControls => ControlRule(py, kind, id, p); AloneFollows(py, kind, id, p, TenantOrDataControlChange, risk, fs);
    case _ => NothingFollows(py, kind, id, p, risk);
  }

  lemma ExportFollows(py: Py, id: Text, p: Props, risk: Risk)
    requires Empties(py)
    ensures Follows(py, Exports, id, p, risk, ExportRisks(py, Exports, id, p))
  {
    hide Empties, Off, On, Exposed, Holds, ExportRisks, MentionsExport, Tells, Shows;
    ExportRule(py, Exports, id, p, risk, Blocks(py, p, risk), Reached(py, p, risk));
  }

  lemma NothingFollows(py: Py, kind: Kind, id: Text, p: Props, risk: Risk)
    requires kind.Plans? || kind.Webhooks?
    ensures Follows(py, kind, id, p, risk, [])
  {
    hide Off, On, Exposed, Holds, MentionsExport, Shows, Tells;
    TellsNothing(kind, id, risk, Blocks(py, p, risk), Reached(py, p, risk));
  }
}
