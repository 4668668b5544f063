/**
 The closed risk catalogue of the findings sync, and that the analyser raises nothing it does not list.
 */
module FindingsSync {
  import opened Options
  import opened Sorting
  import S = StaticReview

  const SCHEMA := T("heel.findings-sync.v1")
  const MAX_FINDINGS := 512
  const MAX_BYTES := 262144
  const MAX_NODES := 10000

  // ----- the closed catalogue ------------------------------------------------------------------

  function RiskName(r: S.Risk): Text {
    match r
    case ExportWithoutEntitlement => T("export_without_") + T("entitlement")
    case ExportWithoutTenantQuota => T("export_without_") + T("tenant_quota")
    case EndpointWithoutTenantFilter => T("endpoint_without_") + T("tenant_filter")
    case UiBackingEndpointPaidApiBypass => T("ui_backing_endpoint_") + T("paid_api_bypass")
    case UnmeteredBillableResource => T("unmetered_") + T("billable_resource")
    case StackableCouponWithoutRedemptionLimit => T("stackable_coupon_") + T("without_") + T("redemption_limit")
    case OauthScopeOverbroad => T("oauth_scope_") + T("overbroad")
    case AdminActionWithoutRoleOrAuditControl => T("admin_action_") + T("without_role_or_") + T("audit_control")
    case AgentSurfaceOverscope => T("agent_surface_") + T("overscope")
    case FeatureFlagPlanMismatch => T("feature_flag_") + T("plan_mismatch")
    case TenantOrDataControlChange => T("tenant_or_data_") + T("control_change")
  }

  const RISKS: seq<S.Risk> :=
    [S.ExportWithoutEntitlement, S.ExportWithoutTenantQuota, S.EndpointWithoutTenantFilter, S.UiBackingEndpointPaidApiBypass,
     S.UnmeteredBillableResource, S.StackableCouponWithoutRedemptionLimit, S.OauthScopeOverbroad,
     S.AdminActionWithoutRoleOrAuditControl, S.AgentSurfaceOverscope, S.FeatureFlagPlanMismatch, S.TenantOrDataControlChange]

  /** The catalogue entry of a risk name. */
  function RiskOf(name: Text): Option<S.Risk> { Find(name, RISKS) }

  function Find(name: Text, risks: seq<S.Risk>): Option<S.Risk> {
    if risks == [] then None else if RiskName(risks[0]) == name then Some(risks[0]) else Find(name, risks[1..])
  }

  function ControlText(r: S.Risk): Text {
    match r
    case ExportWithoutEntitlement => T("server-side entitlement check")
    case ExportWithoutTenantQuota => T("tenant quota")
    case EndpointWithoutTenantFilter => T("tenant filter")
    case UiBackingEndpointPaidApiBypass => T("shared UI/API entitlement and lookup quota")
    case UnmeteredBillableResource => T("server-side meter accounting and cost ceiling")
    case StackableCouponWithoutRedemptionLimit => T("redemption limit and proof of uniqueness")
    case OauthScopeOverbroad => T("OAuth scope minimization and approval")
    case AdminActionWithoutRoleOrAuditControl => T("admin role gate and audit event")
    case AgentSurfaceOverscope => T("tool scope minimization")
    case FeatureFlagPlanMismatch => T("server-side feature entitlement check")
    case TenantOrDataControlChange => T("tenant/data control review")
  }

  function ControlCode(r: S.Risk): Text {
    match r
    case ExportWithoutEntitlement => T("server_side_") + T("entitlement_check")
    case ExportWithoutTenantQuota => T("tenant_quota")
    case EndpointWithoutTenantFilter => T("tenant_filter")
    case UiBackingEndpointPaidApiBypass => T("shared_ui_api_") + T("entitlement_and_") + T("lookup_quota")
    case UnmeteredBillableResource => T("server_side_") + T("meter_accounting_") + T("and_cost_ceiling")
    case StackableCouponWithoutRedemptionLimit => T("redemption_limit_") + T("and_proof_of_") + T("uniqueness")
    case OauthScopeOverbroad => T("oauth_scope_") + T("minimization_") + T("and_approval")
    case AdminActionWithoutRoleOrAuditControl => T("admin_role_gate_") + T("and_audit_event")
    case AgentSurfaceOverscope => T("tool_scope_") + T("minimization")
    case FeatureFlagPlanMismatch => T("server_side_") + T("feature_") + T("entitlement_check")
    case TenantOrDataControlChange => T("tenant_data_") + T("control_review")
  }

  /** The surfaces on which a risk may be reported. */
  function Surfaces(r: S.Risk): seq<S.Kind> {
    match r
    case ExportWithoutEntitlement => [S.EndpointsRoutes, S.Exports]
    case ExportWithoutTenantQuota => [S.EndpointsRoutes, S.Exports]
    case EndpointWithoutTenantFilter => [S.EndpointsRoutes]
    case UiBackingEndpointPaidApiBypass => [S.EndpointsRoutes]
    case UnmeteredBillableResource => [S.Meters, S.BillingObjects]
    case StackableCouponWithoutRedemptionLimit => [S.CouponsPromotions]
    case OauthScopeOverbroad => [S.IntegrationOauthApps]
    case AdminActionWithoutRoleOrAuditControl => [S.SupportAdminActions]
    case AgentSurfaceOverscope => [S.AgentTools, S.McpConnectors]
    case FeatureFlagPlanMismatch => [S.FeaturesFlags]
    case TenantOrDataControlChange => [S.DataClasses, S.DeclaredControls]
  }

  /** The severity and reachability states a risk may have. */
  predicate StateAllowed(r: S.Risk, severity: S.Severity, reachable: bool) {
    match r
    case ExportWithoutEntitlement => severity.Block? == reachable
    case ExportWithoutTenantQuota => severity.Block? == reachable
    case EndpointWithoutTenantFilter => severity.Block? == reachable
    case UiBackingEndpointPaidApiBypass => severity.Block? == reachable
    case UnmeteredBillableResource => severity.Warn?
    case StackableCouponWithoutRedemptionLimit => severity.Warn? || reachable
    case OauthScopeOverbroad => severity.Warn? || reachable
    case AdminActionWithoutRoleOrAuditControl => severity.Warn? || reachable
    case AgentSurfaceOverscope => severity.Block? && reachable
    case FeatureFlagPlanMismatch => severity.Warn?
    case TenantOrDataControlChange => severity.Warn? && !reachable
  }

  function SeverityName(s: S.Severity): Text { if s.Block? then T("block") else T("warn") }

  /** `_catalog_entry`: the risk is known, its surface is listed and its state is allowed. */
  predicate Catalogued(risk: Text, surfaceType: Text, severity: Text, reachable: bool) {
    RiskOf(risk).Some? &&
    var r := RiskOf(risk).value;
    && (exists i :: 0 <= i < |Surfaces(r)| && S.KindName(Surfaces(r)[i]) == surfaceType)
    && (exists s :: SeverityName(s) == severity && StateAllowed(r, s, reachable))
  }

  /** A finding of this surface that the catalogue lists, with its control. */
  predicate Listed(f: S.Finding, kind: S.Kind, id: Text) {
    && f.kind == kind && f.id == id && kind in Surfaces(f.risk)
    && StateAllowed(f.risk, f.severity, f.reachable) && f.control == S.ControlOf(f.risk)
  }

  predicate AllListed(fs: seq<S.Finding>, kind: S.Kind, id: Text) {
    forall i :: 0 <= i < |fs| ==> Listed(fs[i], kind, id)
  }

  /** What a rule reports is listed when its risk fits the surface and its state the risk. */
  lemma FoundListed(py: S.Py, kind: S.Kind, id: Text, p: S.Props, risk: S.Risk, severity: S.Severity, reachable: bool)
    requires kind in Surfaces(risk) && StateAllowed(risk, severity, reachable)
    ensures Listed(S.Found(py, kind, id, p, risk, severity, reachable), kind, id)
  {
    hide S.Reason, S.Granted, S.Intended, S.ControlOf;
  }

  ghost predicate AllFoundListed(py: S.Py, kind: S.Kind, id: Text, p: S.Props) {
    forall risk, severity, reachable :: kind in Surfaces(risk) && StateAllowed(risk, severity, reachable) ==>
      Listed(S.Found(py, kind, id, p, risk, severity, reachable), kind, id)
  }

  lemma EndpointListed(py: S.Py, id: Text, p: S.Props)
    requires AllFoundListed(py, S.EndpointsRoutes, id, p)
    ensures AllListed(S.EndpointRisks(py, S.EndpointsRoutes, id, p), S.EndpointsRoutes, id)
  {
    hide T, Listed, S.Found, S.Reachable, S.BadControl, S.Truthy, S.First, S.Get, S.Lowered, S.Truth, S.Contains, S.Label;
    assert AllListed(S.UiBackingRisks(py, S.EndpointsRoutes, id, p), S.EndpointsRoutes, id);
    assert AllListed(S.ExportRisks(py, S.EndpointsRoutes, id, p), S.EndpointsRoutes, id);
  }

  /** Every finding the analyser can raise, for any surface whatever its properties, is in the catalogue. */
  lemma EmittedIsListed(py: S.Py, kind: S.Kind, id: Text, p: S.Props)
    ensures AllListed(S.RiskFindings(py, kind, id, p), kind, id)
  {
    hide T, Listed, S.Found, S.Granted, S.Intended, S.Reachable, S.BadControl, S.Truthy, S.First, S.Get, S.Lowered, S.OneOf, S.TextOf,
         S.BroadScope, S.Scopes, S.ScopeWider, S.Truth, S.EndpointRisks;
    forall risk, severity, reachable | kind in Surfaces(risk) && StateAllowed(risk, severity, reachable)
      ensures Listed(S.Found(py, kind, id, p, risk, severity, reachable), kind, id)
    {
      FoundListed(py, kind, id, p, risk, severity, reachable);
    }
    if kind.EndpointsRoutes? { EndpointListed(py, id, p); }
  }

  /** The analyser and the catalogue name the same control for every risk. */
  lemma ControlsAgree(r: S.Risk)
    ensures S.ControlOf(r) == ControlText(r)
  {
  }
}
