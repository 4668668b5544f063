/**
 How large a findings-sync request can get: every name of the catalogue prints without escapes, so 512 findings
 stay far below 256 KiB, 10,000 nodes and the preflight's width, depth and text limits.
 */
module SyncSizes {
  import opened Sorting
  import opened JsonText
  import opened Bounds
  import opened FindingsSync
  import opened SyncRequest
  import S = StaticReview
  import E = Envelope
  import W = Worklist

  // ----- printable names -----------------------------------------------------------------------

  predicate Word(s: string) { forall i :: 0 <= i < |s| ==> 'a' <= s[i] <= 'z' || s[i] == '_' }

  predicate Fits(t: Text, limit: int) { Quiet(t) && |t| <= limit }

  lemma OneWord(a: string, limit: int)
    requires Word(a) && |a| <= limit
    ensures Fits(T(a), limit)
  {
  }

  lemma TwoWords(a: string, b: string, limit: int)
    requires Word(a) && Word(b) && |a| + |b| <= limit
    ensures Fits(T(a) + T(b), limit)
  {
  }

  lemma ThreeWords(a: string, b: string, c: string, limit: int)
    requires Word(a) && Word(b) && Word(c) && |a| + |b| + |c| <= limit
    ensures Fits(T(a) + T(b) + T(c), limit)
  {
  }

  lemma RiskNameFits1(r: S.Risk)
    requires r.ExportWithoutEntitlement? || r.ExportWithoutTenantQuota? || r.EndpointWithoutTenantFilter?
    ensures Fits(RiskName(r), 42)
  {
    hide Fits;
    match r
    case ExportWithoutEntitlement => TwoWords("export_without_", "entitlement", 42);
    case ExportWithoutTenantQuota => TwoWords("export_without_", "tenant_quota", 42);
    case EndpointWithoutTenantFilter => TwoWords("endpoint_without_", "tenant_filter", 42);
  }

  lemma RiskNameFits2(r: S.Risk)
    requires r.UiBackingEndpointPaidApiBypass? || r.UnmeteredBillableResource? || r.StackableCouponWithoutRedemptionLimit?
    ensures Fits(RiskName(r), 42)
  {
    hide Fits;
    match r
    case UiBackingEndpointPaidApiBypass => TwoWords("ui_backing_endpoint_", "paid_api_bypass", 42);
    case UnmeteredBillableResource => TwoWords("unmetered_", "billable_resource", 42);
    case StackableCouponWithoutRedemptionLimit => ThreeWords("stackable_coupon_", "without_", "redemption_limit", 42);
  }

  lemma RiskNameFits3(r: S.Risk)
    requires r.OauthScopeOverbroad? || r.AdminActionWithoutRoleOrAuditControl?
    ensures Fits(RiskName(r), 42)
  {
    hide Fits;
    match r
    case OauthScopeOverbroad => TwoWords("oauth_scope_", "overbroad", 42);
    case AdminActionWithoutRoleOrAuditControl => ThreeWords("admin_action_", "without_role_or_", "audit_control", 42);
  }

  lemma RiskNameFits4(r: S.Risk)
    requires r.AgentSurfaceOverscope? || r.FeatureFlagPlanMismatch? || r.TenantOrDataControlChange?
    ensures Fits(RiskName(r), 42)
  {
    hide Fits;
    match r
    case AgentSurfaceOverscope => TwoWords("agent_surface_", "overscope", 42);
    case FeatureFlagPlanMismatch => TwoWords("feature_flag_", "plan_mismatch", 42);
    case TenantOrDataControlChange => TwoWords("tenant_or_data_", "control_change", 42);
  }

  lemma CodeFits1(r: S.Risk)
    requires r.ExportWithoutEntitlement? || r.ExportWithoutTenantQuota? || r.EndpointWithoutTenantFilter? || r.UiBackingEndpointPaidApiBypass?
    ensures Fits(ControlCode(r), 45)
  {
    hide Fits;
    match r
    case ExportWithoutEntitlement => TwoWords("server_side_", "entitlement_check", 45);
    case ExportWithoutTenantQuota => OneWord("tenant_quota", 45);
    case EndpointWithoutTenantFilter => OneWord("tenant_filter", 45);
    case UiBackingEndpointPaidApiBypass => ThreeWords("shared_ui_api_", "entitlement_and_", "lookup_quota", 45);
  }

  lemma CodeFits2(r: S.Risk)
    requires r.UnmeteredBillableResource? || r.StackableCouponWithoutRedemptionLimit?
    ensures Fits(ControlCode(r), 45)
  {
    hide Fits;
    match r
    case UnmeteredBillableResource => ThreeWords("server_side_", "meter_accounting_", "and_cost_ceiling", 45);
    case StackableCouponWithoutRedemptionLimit => ThreeWords("redemption_limit_", "and_proof_of_", "uniqueness", 45);
  }

  lemma CodeFits3(r: S.Risk)
    requires r.OauthScopeOverbroad? || r.AdminActionWithoutRoleOrAuditControl? || r.AgentSurfaceOverscope?
    ensures Fits(ControlCode(r), 45)
  {
    hide Fits;
    match r
    case OauthScopeOverbroad => ThreeWords("oauth_scope_", "minimization_", "and_approval", 45);
    case AdminActionWithoutRoleOrAuditControl => TwoWords("admin_role_gate_", "and_audit_event", 45);
    case AgentSurfaceOverscope => TwoWords("tool_scope_", "minimization", 45);
  }

  lemma CodeFits4(r: S.Risk)
    requires r.FeatureFlagPlanMismatch? || r.TenantOrDataControlChange?
    ensures Fits(ControlCode(r), 45)
  {
    hide Fits;
    match r
    case FeatureFlagPlanMismatch => ThreeWords("server_side_", "feature_", "entitlement_check", 45);
    case TenantOrDataControlChange => TwoWords("tenant_data_", "control_review", 45);
  }

  lemma KindNameFits1(k: S.Kind)
    requires k.EndpointsRoutes? || k.Exports? || k.Meters? || k.BillingObjects? || k.CouponsPromotions? || k.FeaturesFlags?
    ensures Fits(S.KindName(k), 22)
  {
    hide Fits;
    match k
    case EndpointsRoutes => OneWord("endpoints_routes", 22);
    case Exports => OneWord("exports", 22);
    case Meters => OneWord("meters", 22);
    case BillingObjects => OneWord("billing_objects", 22);
    case CouponsPromotions => OneWord("coupons_promotions", 22);
    case FeaturesFlags => OneWord("features_flags", 22);
  }

  lemma KindNameFits2(k: S.Kind)
    requires k.IntegrationOauthApps? || k.SupportAdminActions? || k.AgentTools? || k.McpConnectors? || k.DataClasses? || k.DeclaredControls?
    ensures Fits(S.KindName(k), 22)
  {
    hide Fits;
    match k
    case IntegrationOauthApps => OneWord("integration_oauth_apps", 22);
    case SupportAdminActions => OneWord("support_admin_actions", 22);
    case AgentTools => OneWord("agent_tools", 22);
    case McpConnectors => OneWord("mcp_connectors", 22);
    case DataClasses => OneWord("data_classes", 22);
    case DeclaredControls => OneWord("declared_controls", 22);
  }

  lemma NamesFit(r: S.Risk)
    ensures Fits(RiskName(r), 42) && Fits(ControlCode(r), 45)
  {
    hide Fits, RiskName, ControlCode;
    if r.ExportWithoutEntitlement? || r.ExportWithoutTenantQuota? || r.EndpointWithoutTenantFilter? {
      RiskNameFits1(r);
    } else if r.UiBackingEndpointPaidApiBypass? || r.UnmeteredBillableResource? || r.StackableCouponWithoutRedemptionLimit? {
      RiskNameFits2(r);
    } else if r.OauthScopeOverbroad? || r.AdminActionWithoutRoleOrAuditControl? {
      RiskNameFits3(r);
    } else {
      RiskNameFits4(r);
    }
    if r.ExportWithoutEntitlement? || r.ExportWithoutTenantQuota? || r.EndpointWithoutTenantFilter? || r.UiBackingEndpointPaidApiBypass? {
      CodeFits1(r);
    } else if r.UnmeteredBillableResource? || r.StackableCouponWithoutRedemptionLimit? {
      CodeFits2(r);
    } else if r.OauthScopeOverbroad? || r.AdminActionWithoutRoleOrAuditControl? || r.AgentSurfaceOverscope? {
      CodeFits3(r);
    } else {
      CodeFits4(r);
    }
  }

  lemma KindFits(r: S.Risk, k: S.Kind)
    requires k in Surfaces(r)
    ensures Fits(S.KindName(k), 22)
  {
    hide Fits, S.KindName;
    if k.EndpointsRoutes? || k.Exports? || k.Meters? || k.BillingObjects? || k.CouponsPromotions? || k.FeaturesFlags? {
      KindNameFits1(k);
    } else {
      KindNameFits2(k);
    }
  }

  // ----- sizes ---------------------------------------------------------------------------------

  lemma TextWithin(t: Text, limit: int)
    requires Fits(t, limit) && limit <= W.MAX_CHARS
    ensures Within(Str(t), limit + 2, 1, 0)
  {
    hide Passes, Prints;
    WithinText(t);
    WithinMore(Str(t), |t| + 2, 1, 0, limit + 2, 1, 0);
  }

  lemma ReferenceFits(t: Text, prefix: Text, digits: int)
    requires IsReference(t, prefix, digits) && Quiet(prefix)
    ensures Fits(t, |prefix| + digits)
  {
    assert t == prefix + t[|prefix|..];
  }

  /** One text field of a record. */
  lemma TextField(key: string, t: Text, limit: int)
    requires Word(key) && |key| <= W.MAX_CHARS && Fits(t, limit) && limit <= W.MAX_CHARS
    ensures FieldWithin(T(key), Str(t), |key| + limit + 6, 1, 0)
  {
    hide Within, FieldWithin;
    TextWithin(t, limit);
    FieldFits(T(key), Str(t), limit + 2, 1, 0);
  }

  lemma SumStep(ns: seq<nat>, head: nat, rest: seq<nat>)
    requires ns == [head] + rest
    ensures Sum(ns) == head + Sum(rest)
  {
    assert ns[1..] == rest;
  }

  lemma SumThree(a: nat, b: nat, c: nat)
    ensures Sum([a, b, c]) == a + b + c
  {
    SumStep([a, b, c], a, [b, c]);
    SumStep([b, c], b, [c]);
    SumStep([c], c, []);
  }

  lemma SumSeven(a: nat, b: nat, c: nat, d: nat, e: nat, f: nat, g: nat)
    ensures Sum([a, b, c, d, e, f, g]) == a + b + c + d + e + f + g
  {
    hide Sum;
    SumThree(e, f, g);
    SumStep([d, e, f, g], d, [e, f, g]);
    SumStep([c, d, e, f, g], c, [d, e, f, g]);
    SumStep([b, c, d, e, f, g], b, [c, d, e, f, g]);
    SumStep([a, b, c, d, e, f, g], a, [b, c, d, e, f, g]);
  }

  predicate FieldsFit(f: SyncFinding) {
    && Fits(f.controlCode, 45) && Fits(f.findingId, 70) && Fits(f.riskCode, 42) && Fits(f.severity, 5)
    && Fits(f.surfaceRef, 70) && Fits(f.surfaceType, 22)
  }

  lemma FindingWithin(f: SyncFinding)
    requires FieldsFit(f)
    ensures Within(FindingJson(f), 372, 8, 1)
  {
    hide Within, Sum, Fits;
    var bytes: seq<nat> := [63, 86, 18, 57, 19, 87, 40];
    var nodes: seq<nat> := [1, 1, 1, 1, 1, 1, 1];
    var values := FindingValues(f);
    FindingFields(f);
    SumSeven(63, 86, 18, 57, 19, 87, 40);
    SumSeven(1, 1, 1, 1, 1, 1, 1);
    WithinRecord(FINDING_KEYS, values, bytes, nodes, 0);
  }

  lemma FindingFields(f: SyncFinding)
    requires FieldsFit(f)
    ensures var bytes: seq<nat> := [63, 86, 18, 57, 19, 87, 40];
            var nodes: seq<nat> := [1, 1, 1, 1, 1, 1, 1];
            forall i :: 0 <= i < 7 ==> FieldWithin(FINDING_KEYS[i], FindingValues(f)[i], bytes[i], nodes[i], 0)
  {
    hide FieldWithin, Fits, T;
    TextField("control_code", f.controlCode, 45);
    TextField("finding_id", f.findingId, 70);
    BoolField("reachable", f.reachable);
    TextField("risk_code", f.riskCode, 42);
    TextField("severity", f.severity, 5);
    TextField("surface_ref", f.surfaceRef, 70);
    TextField("surface_type", f.surfaceType, 22);
  }

  lemma BoolField(key: string, b: bool)
    requires Word(key) && |key| <= W.MAX_CHARS
    ensures FieldWithin(T(key), Bool(b), |key| + 9, 1, 0)
  {
    hide Within, FieldWithin;
    WithinBool(b);
    FieldFits(T(key), Bool(b), 5, 1, 0);
  }

  lemma CountField(key: string, n: nat)
    requires Word(key) && |key| <= W.MAX_CHARS && n < 1000
    ensures FieldWithin(T(key), Int(n), |key| + 7, 1, 0)
  {
    hide Within, FieldWithin;
    WithinCount(n);
    FieldFits(T(key), Int(n), 3, 1, 0);
  }

  lemma FindingsWithin(fs: seq<SyncFinding>)
    requires |fs| <= MAX_FINDINGS && forall i :: 0 <= i < |fs| ==> FieldsFit(fs[i])
    ensures Within(FindingsJson(fs), 190978, 4097, 2)
  {
    hide Within, FieldsFit, FindingJson;
    var items := E.Each(FindingJson, fs);
    forall i | 0 <= i < |items| ensures Within(items[i], 372, 8, 1) { FindingWithin(fs[i]); }
    WithinArray(items, 372, 8, 1);
    TimesMonotone(|fs|, MAX_FINDINGS, 373);
    TimesMonotone(|fs|, MAX_FINDINGS, 8);
    WithinMore(Arr(items), 2 + Times(|fs|, 373), 1 + Times(|fs|, 8), 2, 190978, 4097, 2);
  }

  lemma SourceWithin(s: Source)
    requires Fits(s.engineVersion, 20) && Fits(s.mode, 20) && Fits(s.resultRef, 69)
    ensures Within(SourceJson(s), 167, 4, 1)
  {
    hide Within, Fits, FieldWithin, T, Sum;
    var bytes: seq<nat> := [40, 40, 85];
    var nodes: seq<nat> := [1, 1, 1];
    var values := [Str(s.engineVersion), Str(s.mode), Str(s.resultRef)];
    TextField("engine_version", s.engineVersion, 20);
    TextField("execution_mode", s.mode, 20);
    TextField("result_ref", s.resultRef, 69);
    assert forall i :: 0 <= i < 3 ==> FieldWithin(SOURCE_KEYS[i], values[i], bytes[i], nodes[i], 0);
    WithinRecord(SOURCE_KEYS, values, bytes, nodes, 0);
    SumThree(40, 40, 85);
    SumThree(1, 1, 1);
  }

  lemma SummaryWithin(findings: nat, blockers: nat)
    requires findings < 1000 && blockers < 1000
    ensures Within(SummaryJson(findings, blockers), 32, 3, 1)
  {
    hide Within, FieldWithin, T;
    var bytes: seq<nat> := [15, 15];
    var nodes: seq<nat> := [1, 1];
    CountField("blockers", blockers);
    CountField("findings", findings);
    WithinRecord(SUMMARY_KEYS, [Int(blockers), Int(findings)], bytes, nodes, 0);
    assert bytes[1..] == [15] && nodes[1..] == [1] && bytes[1..][1..] == [] && nodes[1..][1..] == [];
  }

  /** One field that is not a scalar. */
  lemma NestedField(key: string, v: Json, bytes: int, nodes: int, height: int, top: int)
    requires Word(key) && |key| <= W.MAX_CHARS && Within(v, bytes, nodes, height) && height <= top
    ensures FieldWithin(T(key), v, |key| + 4 + bytes, nodes, top)
  {
    hide Within, FieldWithin;
    WithinMore(v, bytes, nodes, height, bytes, nodes, top);
    FieldFits(T(key), v, bytes, nodes, top);
  }

  predicate HeaderFits(r: Request) {
    && Fits(r.gate, 5) && Fits(r.projectRef, 36) && Fits(r.projectionHash, 64) && Fits(r.schemaVersion, 24)
    && Fits(r.source.engineVersion, 20) && Fits(r.source.mode, 20) && Fits(r.source.resultRef, 69)
    && 0 <= r.findingCount < 1000 && 0 <= r.blockerCount < 1000
  }

  lemma RequestWithin(r: Request)
    requires |r.findings| <= MAX_FINDINGS && (forall i :: 0 <= i < |r.findings| ==> FieldsFit(r.findings[i])) && HeaderFits(r)
    ensures Within(RequestJson(r), 191440, 4109, 3)
  {
    hide Within, Fits, FieldWithin, T, Sum, FieldsFit, FindingsJson, SourceJson, SummaryJson;
    RequestFields(r);
    var bytes: seq<nat> := [190990, 22, 53, 85, 44, 177, 43];
    var nodes: seq<nat> := [4097, 1, 1, 1, 1, 4, 3];
    var values := [FindingsJson(r.findings), Str(r.gate), Str(r.projectRef), Str(r.projectionHash),
                   Str(r.schemaVersion), SourceJson(r.source), SummaryJson(r.findingCount, r.blockerCount)];
    SumSeven(190990, 22, 53, 85, 44, 177, 43);
    SumSeven(4097, 1, 1, 1, 1, 4, 3);
    WithinRecord(REQUEST_KEYS, values, bytes, nodes, 2);
    WithinMore(RequestJson(r), 2 + Sum(bytes), 1 + Sum(nodes), 3, 191440, 4109, 3);
  }

  lemma RequestFields(r: Request)
    requires |r.findings| <= MAX_FINDINGS && (forall i :: 0 <= i < |r.findings| ==> FieldsFit(r.findings[i])) && HeaderFits(r)
    ensures var values := [FindingsJson(r.findings), Str(r.gate), Str(r.projectRef), Str(r.projectionHash),
                           Str(r.schemaVersion), SourceJson(r.source), SummaryJson(r.findingCount, r.blockerCount)];
            var bytes: seq<nat> := [190990, 22, 53, 85, 44, 177, 43];
            var nodes: seq<nat> := [4097, 1, 1, 1, 1, 4, 3];
            forall i :: 0 <= i < 7 ==> FieldWithin(REQUEST_KEYS[i], values[i], bytes[i], nodes[i], 2)
  {
    hide Within, Fits, FieldWithin, T, FieldsFit, FindingsJson, SourceJson, SummaryJson;
    FindingsWithin(r.findings);
    NestedField("findings", FindingsJson(r.findings), 190978, 4097, 2, 2);
    HeaderFields(r);
    SourceWithin(r.source);
    NestedField("source", SourceJson(r.source), 167, 4, 1, 2);
    SummaryWithin(r.findingCount, r.blockerCount);
    NestedField("summary", SummaryJson(r.findingCount, r.blockerCount), 32, 3, 1, 2);
  }

  lemma HeaderFields(r: Request)
    requires HeaderFits(r)
    ensures FieldWithin(T("gate_status"), Str(r.gate), 22, 1, 2) && FieldWithin(T("project_ref"), Str(r.projectRef), 53, 1, 2)
    ensures FieldWithin(T("projection_hash"), Str(r.projectionHash), 85, 1, 2)
    ensures FieldWithin(T("schema_version"), Str(r.schemaVersion), 44, 1, 2)
  {
    hide Within, Fits, FieldWithin, T;
    TextWithin(r.gate, 5);
    NestedField("gate_status", Str(r.gate), 7, 1, 0, 2);
    TextWithin(r.projectRef, 36);
    NestedField("project_ref", Str(r.projectRef), 38, 1, 0, 2);
    TextWithin(r.projectionHash, 64);
    NestedField("projection_hash", Str(r.projectionHash), 66, 1, 0, 2);
    TextWithin(r.schemaVersion, 24);
    NestedField("schema_version", Str(r.schemaVersion), 26, 1, 0, 2);
  }
}
