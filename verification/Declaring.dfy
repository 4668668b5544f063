/**
 Declaring a control never adds a finding. Two versions of one surface agree except on the metadata that a
 guided answer may touch, where the newer one only adds "declared"; then every finding of the newer version is,
 word for word, a finding of the older one. This holds for every kind of surface and all properties.
 */
module Declaring {
  import opened Sorting
  import opened JsonText
  import opened StaticReview

  /** The properties an answer can change. */
  const TOUCHED: set<Text> :=
    {T("tenant_scope"), T("tenant_filter"), T("controls"), T("customer_declarations"), T("control_evidence_state"),
     T("entitlement_check"), T("rate_limit")}

  /** No touched name has this length, first and last letter. */
  predicate Clear(s: string) {
    && s != ""
    && !(|s| == 12 && s[0] == 't' && s[11] == 'e')
    && !(|s| == 13 && s[0] == 't' && s[12] == 'r')
    && !(|s| == 8 && s[0] == 'c' && s[7] == 's')
    && !(|s| == 21 && s[0] == 'c' && s[20] == 's')
    && !(|s| == 22 && s[0] == 'c' && s[21] == 'e')
    && !(|s| == 17 && s[0] == 'e' && s[16] == 'k')
    && !(|s| == 10 && s[0] == 'r' && s[9] == 't')
  }

  lemma ClearIsUntouched(s: string)
    requires Clear(s)
    ensures T(s) !in TOUCHED
  {
    Differs(s, "tenant_scope");
    Differs(s, "tenant_filter");
    Differs(s, "controls");
    Differs(s, "customer_declarations");
    Differs(s, "control_evidence_state");
    Differs(s, "entitlement_check");
    Differs(s, "rate_limit");
  }

  lemma Differs(s: string, t: string)
    requires s != "" && t != "" && (|s| != |t| || s[0] != t[0] || s[|s| - 1] != t[|t| - 1])
    ensures T(s) != T(t)
  {
    if |s| == |t| {
      assert T(s)[0] != T(t)[0] || T(s)[|s| - 1] != T(t)[|t| - 1];
    }
  }

  predicate Untouched(names: seq<string>) { forall i :: 0 <= i < |names| ==> Clear(names[i]) }

  const DECLARED := Str(T("declared"))

  /** What a control reads after an answer: unchanged, or declared. */
  predicate KeptOrDeclared(p: Props, q: Props, name: string) {
    || (T(name) in q && q[T(name)] == DECLARED)
    || ((T(name) in p <==> T(name) in q) && (T(name) in p && T(name) in q ==> p[T(name)] == q[T(name)]))
  }

  /** `q` is `p` after some answers. */
  ghost predicate Declares(p: Props, q: Props) {
    && (forall k :: k !in TOUCHED ==> (k in p <==> k in q) && (k in p && k in q ==> p[k] == q[k]))
    && KeptOrDeclared(p, q, "tenant_filter") && KeptOrDeclared(p, q, "entitlement_check")
    && KeptOrDeclared(p, q, "rate_limit")
  }

  /** Python's conversions leave the word alone. */
  predicate PlainWords(py: Py) { py.lower(py.strip(T("declared"))) == T("declared") }

  lemma {:induction false} FirstAgrees(p: Props, q: Props, names: seq<string>)
    requires Declares(p, q) && Untouched(names)
    ensures First(p, names) == First(q, names)
  {
    hide T;
    if names != [] {
      ClearIsUntouched(names[0]);
      assert Untouched(names[1..]);
      FirstAgrees(p, q, names[1..]);
    }
  }

  lemma GetAgrees(p: Props, q: Props, name: string)
    requires Declares(p, q) && Clear(name)
    ensures Get(p, name) == Get(q, name) && (T(name) in p <==> T(name) in q)
  {
    ClearIsUntouched(name);
  }

  lemma DeclaredIsGood(py: Py)
    requires PlainWords(py)
    ensures !BadControl(py, DECLARED)
  {
    forall i | 0 <= i < |MISSING| ensures T(MISSING[i]) != T("declared") {
      assert |MISSING[i]| == 8 ==> MISSING[i] == "disabled" && T("disabled")[1] != T("declared")[1];
    }
  }

  /** A control list with one touched name: if it is bad after the answers, it was the same before. */
  lemma {:induction false} ControlKept(py: Py, p: Props, q: Props, names: seq<string>, at: nat)
    requires PlainWords(py) && Declares(p, q) && at < |names|
    requires KeptOrDeclared(p, q, names[at])
    requires Untouched(names[..at]) && Untouched(names[at + 1..])
    ensures BadControl(py, First(q, names)) ==> BadControl(py, First(p, names))
  {
    hide BadControl, T, Clear;
    if at == 0 {
      FirstAgrees(p, q, names[1..]);
      DeclaredIsGood(py);
    } else {
      assert names[..at][0] == names[0];
      ClearIsUntouched(names[0]);
      assert names[1..][..at - 1] == names[..at][1..] && names[1..][at - 1 + 1..] == names[at + 1..];
      assert Untouched(names[..at][1..]);
      ControlKept(py, p, q, names[1..], at - 1);
    }
  }

  // ----- what the rules read -------------------------------------------------------------------

  lemma ReachableAgrees(py: Py, p: Props, q: Props)
    requires Declares(p, q)
    ensures Reachable(py, p) == Reachable(py, q)
  {
    hide Declares, Truthy, Lowered, OneOf, First, Get;
    GetAgrees(p, q, "reachable");
    FirstAgrees(p, q, ["reachable_by_plan", "granted_plan", "current_plan"]);
    FirstAgrees(p, q, ["reachable_by_role", "installable_by_role", "granted_role"]);
  }

  lemma ScopesAgree(py: Py, p: Props, q: Props)
    requires Declares(p, q)
    ensures Granted(py, p) == Granted(py, q) && Intended(py, p) == Intended(py, q)
  {
    hide Declares, Lowered, First;
    FirstAgrees(p, q, ["granted_scope", "effective_scope", "scope"]);
    FirstAgrees(p, q, ["intended_scope", "required_scope", "declared_scope"]);
  }

  lemma FoundAgrees(py: Py, kind: Kind, id: Text, p: Props, q: Props, risk: Risk, severity: Severity, reachable: bool)
    requires Declares(p, q)
    ensures Found(py, kind, id, p, risk, severity, reachable) == Found(py, kind, id, q, risk, severity, reachable)
  {
    hide Declares, ControlOf, Reason, Get, Granted, Intended;
    GetAgrees(p, q, "business_rule");
    GetAgrees(p, q, "required_plan");
    GetAgrees(p, q, "rule_source");
    ScopesAgree(py, p, q);
  }

  /** Every finding of `fs` is one of `gs`. */
  predicate Among(fs: seq<Finding>, gs: seq<Finding>) { forall i :: 0 <= i < |fs| ==> fs[i] in gs }

  // ----- rule by rule --------------------------------------------------------------------------

  lemma EntitlementKept(py: Py, p: Props, q: Props)
    requires PlainWords(py) && Declares(p, q)
    ensures BadControl(py, First(q, ENTITLEMENT)) ==> BadControl(py, First(p, ENTITLEMENT))
  {
    hide BadControl, First;
    assert ENTITLEMENT[0] == "entitlement_check" && ENTITLEMENT[..0] == [];
    assert ENTITLEMENT[1..] == ["authz_check", "guard", "guard_present"];
    ControlKept(py, p, q, ENTITLEMENT, 0);
  }

  lemma QuotaKept(py: Py, p: Props, q: Props)
    requires PlainWords(py) && Declares(p, q)
    ensures var names := ["tenant_quota", "quota", "rate_limit", "export_limit"];
            BadControl(py, First(q, names)) ==> BadControl(py, First(p, names))
  {
    hide BadControl, First;
    var names := ["tenant_quota", "quota", "rate_limit", "export_limit"];
    assert names[..2] == ["tenant_quota", "quota"] && names[3..] == ["export_limit"];
    ControlKept(py, p, q, names, 2);
  }

  lemma LookupKept(py: Py, p: Props, q: Props)
    requires PlainWords(py) && Declares(p, q)
    ensures var names := ["lookup_quota", "lookup_limit", "rate_limit", "tenant_quota", "quota"];
            BadControl(py, First(q, names)) ==> BadControl(py, First(p, names))
  {
    hide BadControl, First;
    var names := ["lookup_quota", "lookup_limit", "rate_limit", "tenant_quota", "quota"];
    assert names[..2] == ["lookup_quota", "lookup_limit"] && names[3..] == ["tenant_quota", "quota"];
    ControlKept(py, p, q, names, 2);
  }

  lemma TenantKept(py: Py, p: Props, q: Props)
    requires PlainWords(py) && Declares(p, q)
    ensures var names := ["tenant_filter", "tenant_check", "tenant_isolation"];
            BadControl(py, First(q, names)) ==> BadControl(py, First(p, names))
  {
    hide BadControl, First;
    var names := ["tenant_filter", "tenant_check", "tenant_isolation"];
    assert names[..0] == [] && names[1..] == ["tenant_check", "tenant_isolation"];
    ControlKept(py, p, q, names, 0);
  }

  lemma ExportKept(py: Py, kind: Kind, id: Text, p: Props, q: Props)
    requires PlainWords(py) && Declares(p, q)
    ensures Among(ExportRisks(py, kind, id, q), ExportRisks(py, kind, id, p))
  {
    hide Declares, Found, Reachable, BadControl, First, Get, T;
    GetAgrees(p, q, "bulk_access_permitted");
    ReachableAgrees(py, p, q);
    EntitlementKept(py, p, q);
    QuotaKept(py, p, q);
    var reachable := Reachable(py, p);
    FoundAgrees(py, kind, id, p, q, ExportWithoutEntitlement, BlockIf(reachable), reachable);
    FoundAgrees(py, kind, id, p, q, ExportWithoutTenantQuota, BlockIf(reachable), reachable);
  }

  lemma UiBackingKept(py: Py, kind: Kind, id: Text, p: Props, q: Props)
    requires PlainWords(py) && Declares(p, q)
    ensures Among(UiBackingRisks(py, kind, id, q), UiBackingRisks(py, kind, id, p))
  {
    hide Declares, Found, Reachable, BadControl, First, Truthy, Lowered, T;
    UiReads(py, p, q);
    ReachableAgrees(py, p, q);
    EntitlementKept(py, p, q);
    LookupKept(py, p, q);
    FoundAgrees(py, kind, id, p, q, UiBackingEndpointPaidApiBypass, Block, true);
    FoundAgrees(py, kind, id, p, q, UiBackingEndpointPaidApiBypass, Warn, false);
  }

  lemma UiReads(py: Py, p: Props, q: Props)
    requires Declares(p, q)
    ensures First(p, ["ui_backing_endpoint", "interactive_ui_endpoint", "browser_endpoint"]) ==
            First(q, ["ui_backing_endpoint", "interactive_ui_endpoint", "browser_endpoint"])
    ensures First(p, ["paid_api_equivalent", "bulk_api_equivalent", "api_equivalent"]) ==
            First(q, ["paid_api_equivalent", "bulk_api_equivalent", "api_equivalent"])
    ensures First(p, ["required_plan", "entitlement_plan", "min_plan", "plan_required"]) ==
            First(q, ["required_plan", "entitlement_plan", "min_plan", "plan_required"])
    ensures First(p, ["reachable_by_plan", "granted_plan", "current_plan", "observed_plan"]) ==
            First(q, ["reachable_by_plan", "granted_plan", "current_plan", "observed_plan"])
    ensures First(p, ["automation_guard", "anti_automation", "bot_protection", "human_challenge"]) ==
            First(q, ["automation_guard", "anti_automation", "bot_protection", "human_challenge"])
  {
    hide Declares, First;
    FirstAgrees(p, q, ["ui_backing_endpoint", "interactive_ui_endpoint", "browser_endpoint"]);
    FirstAgrees(p, q, ["paid_api_equivalent", "bulk_api_equivalent", "api_equivalent"]);
    FirstAgrees(p, q, ["required_plan", "entitlement_plan", "min_plan", "plan_required"]);
    FirstAgrees(p, q, ["reachable_by_plan", "granted_plan", "current_plan", "observed_plan"]);
    FirstAgrees(p, q, ["automation_guard", "anti_automation", "bot_protection", "human_challenge"]);
  }

  lemma LabelAgrees(py: Py, p: Props, q: Props)
    requires Declares(p, q)
    ensures Label(py, p) == Label(py, q)
  {
    TextAgrees(py, p, q, "id");
    TextAgrees(py, p, q, "name");
    TextAgrees(py, p, q, "route");
    TextAgrees(py, p, q, "path");
    hide TextOf, Declares;
  }

  lemma TextAgrees(py: Py, p: Props, q: Props, name: string)
    requires Declares(p, q) && Clear(name)
    ensures TextOf(py, p, name) == TextOf(py, q, name)
  {
    ClearIsUntouched(name);
  }

  lemma EndpointKept(py: Py, kind: Kind, id: Text, p: Props, q: Props)
    requires PlainWords(py) && Declares(p, q)
    ensures Among(EndpointRisks(py, kind, id, q), EndpointRisks(py, kind, id, p))
  {
    hide Declares, Found, Reachable, BadControl, First, Label, Contains, UiBackingRisks, ExportRisks, T;
    LabelAgrees(py, p, q);
    UiBackingKept(py, kind, id, p, q);
    ExportKept(py, kind, id, p, q);
    ReachableAgrees(py, p, q);
    TenantKept(py, p, q);
    var reachable := Reachable(py, p);
    FoundAgrees(py, kind, id, p, q, EndpointWithoutTenantFilter, BlockIf(reachable), reachable);
  }

  lemma MeterKept(py: Py, kind: Kind, id: Text, p: Props, q: Props)
    requires Declares(p, q)
    ensures MeterRisks(py, kind, id, q) == MeterRisks(py, kind, id, p)
  {
    hide Declares, Found, Reachable, BadControl, First, Truthy;
    FirstAgrees(p, q, ["billable", "cost_bearing", "metered", "charges_money"]);
    FirstAgrees(p, q, ["server_side_accounting", "server_authoritative", "meter_accounting"]);
    FirstAgrees(p, q, ["quota", "cost_ceiling", "spend_limit"]);
    ReachableAgrees(py, p, q);
    FoundAgrees(py, kind, id, p, q, UnmeteredBillableResource, Warn, Reachable(py, p));
  }

  lemma CouponKept(py: Py, kind: Kind, id: Text, p: Props, q: Props)
    requires Declares(p, q)
    ensures CouponRisks(py, kind, id, q) == CouponRisks(py, kind, id, p)
  {
    hide Declares, Found, Reachable, BadControl, First, Truthy, Get, TextOf, OneOf;
    GetAgrees(p, q, "stacking_permitted");
    GetAgrees(p, q, "stackable");
    FirstAgrees(p, q, ["redemption_limit", "max_redemptions", "per_account_limit", "proof_of_uniqueness"]);
    FirstAgrees(p, q, ["discount_percent", "discount"]);
    TextAgrees(py, p, q, "applies_to");
    ReachableAgrees(py, p, q);
    FoundAgrees(py, kind, id, p, q, StackableCouponWithoutRedemptionLimit, Block, Reachable(py, p));
    FoundAgrees(py, kind, id, p, q, StackableCouponWithoutRedemptionLimit, Warn, Reachable(py, p));
  }

  lemma OauthReads(py: Py, p: Props, q: Props)
    requires Declares(p, q)
    ensures First(p, ["scope", "granted_scope", "oauth_scope"]) == First(q, ["scope", "granted_scope", "oauth_scope"])
    ensures First(p, ["granted_scopes", "scopes"]) == First(q, ["granted_scopes", "scopes"])
    ensures First(p, ["needed_scopes", "required_scopes", "intended_scopes"]) ==
            First(q, ["needed_scopes", "required_scopes", "intended_scopes"])
    ensures First(p, ["auto_approved", "auto_install", "default_approved"]) ==
            First(q, ["auto_approved", "auto_install", "default_approved"])
    ensures First(p, ["installable_by_role", "reachable_by_role", "role"]) ==
            First(q, ["installable_by_role", "reachable_by_role", "role"])
  {
    hide Declares, First;
    FirstAgrees(p, q, ["scope", "granted_scope", "oauth_scope"]);
    FirstAgrees(p, q, ["granted_scopes", "scopes"]);
    FirstAgrees(p, q, ["needed_scopes", "required_scopes", "intended_scopes"]);
    FirstAgrees(p, q, ["auto_approved", "auto_install", "default_approved"]);
    FirstAgrees(p, q, ["installable_by_role", "reachable_by_role", "role"]);
  }

  lemma OauthKept(py: Py, kind: Kind, id: Text, p: Props, q: Props)
    requires Declares(p, q)
    ensures OauthRisks(py, kind, id, q) == OauthRisks(py, kind, id, p)
  {
    hide Declares, Found, Reachable, First, Truthy, Lowered, OneOf, Scopes, BroadScope, T;
    OauthReads(py, p, q);
    ReachableAgrees(py, p, q);
    FoundAgrees(py, kind, id, p, q, OauthScopeOverbroad, Block, true);
    FoundAgrees(py, kind, id, p, q, OauthScopeOverbroad, Warn, true);
    FoundAgrees(py, kind, id, p, q, OauthScopeOverbroad, Warn, false);
  }

  lemma AdminActionKept(py: Py, kind: Kind, id: Text, p: Props, q: Props)
    requires Declares(p, q)
    ensures AdminActionRisks(py, kind, id, q) == AdminActionRisks(py, kind, id, p)
  {
    hide Declares, Found, Reachable, BadControl, First, Lowered, OneOf;
    FirstAgrees(p, q, ["required_role", "min_role", "intended_role"]);
    FirstAgrees(p, q, ["reachable_by_role", "granted_role", "observed_role"]);
    FirstAgrees(p, q, ["audit_logged", "audit_event", "audit_event_id"]);
    ReachableAgrees(py, p, q);
    FoundAgrees(py, kind, id, p, q, AdminActionWithoutRoleOrAuditControl, Block, true);
    FoundAgrees(py, kind, id, p, q, AdminActionWithoutRoleOrAuditControl, Warn, true);
    FoundAgrees(py, kind, id, p, q, AdminActionWithoutRoleOrAuditControl, Warn, false);
  }

  lemma AgentSurfaceKept(py: Py, kind: Kind, id: Text, p: Props, q: Props)
    requires Declares(p, q)
    ensures AgentSurfaceRisks(py, kind, id, q) == AgentSurfaceRisks(py, kind, id, p)
  {
    hide Declares, Found, Granted, Intended, ScopeWider;
    ScopesAgree(py, p, q);
    FoundAgrees(py, kind, id, p, q, AgentSurfaceOverscope, Block, true);
  }

  lemma FeatureFlagKept(py: Py, kind: Kind, id: Text, p: Props, q: Props)
    requires Declares(p, q)
    ensures FeatureFlagRisks(py, kind, id, q) == FeatureFlagRisks(py, kind, id, p)
  {
    hide Declares, Found, Reachable, First, Lowered, OneOf;
    FirstAgrees(p, q, ["required_plan", "entitlement_plan", "min_plan"]);
    FirstAgrees(p, q, ["reachable_by_plan", "granted_plan", "current_plan"]);
    FirstAgrees(p, q, ["gated_by", "guard"]);
    ReachableAgrees(py, p, q);
    FoundAgrees(py, kind, id, p, q, FeatureFlagPlanMismatch, Warn, Reachable(py, p));
  }

  lemma TenantDataKept(py: Py, kind: Kind, id: Text, p: Props, q: Props)
    requires Declares(p, q)
    ensures TenantDataControlRisks(py, kind, id, q) == TenantDataControlRisks(py, kind, id, p)
  {
    hide Declares, Found, First, Truthy, TextOf, OneOf;
    TextAgrees(py, p, q, "status");
    FirstAgrees(p, q, ["sensitive", "regulated", "customer_data"]);
    FoundAgrees(py, kind, id, p, q, TenantOrDataControlChange, Warn, false);
  }

  /** Declaring controls never adds a finding to a surface. */
  lemma DeclaringAddsNothing(py: Py, kind: Kind, id: Text, p: Props, q: Props)
    requires PlainWords(py) && Declares(p, q)
    ensures Among(RiskFindings(py, kind, id, q), RiskFindings(py, kind, id, p))
  {
    hide Declares, PlainWords, ExportRisks, EndpointRisks, MeterRisks, CouponRisks, OauthRisks, AdminActionRisks, AgentSurfaceRisks,
         FeatureFlagRisks, TenantDataControlRisks;
    match kind
    case Exports => ExportKept(py, kind, id, p, q);
    case EndpointsRoutes => EndpointKept(py, kind, id, p, q);
    case Meters => MeterKept(py, kind, id, p, q);
    case BillingObjects => MeterKept(py, kind, id, p, q);
    case CouponsPromotions => CouponKept(py, kind, id, p, q);
    case IntegrationOauthApps => OauthKept(py, kind, id, p, q);
    case SupportAdminActions => AdminActionKept(py, kind, id, p, q);
    case AgentTools => AgentSurfaceKept(py, kind, id, p, q);
    case McpConnectors => AgentSurfaceKept(py, kind, id, p, q);
    case FeaturesFlags => FeatureFlagKept(py, kind, id, p, q);
    case Tenants => TenantDataKept(py, kind, id, p, q);
    case DataClasses => TenantDataKept(py, kind, id, p, q);
    case DeclaredControls => TenantDataKept(py, kind, id, p, q);
    case _ =>
  }
}
