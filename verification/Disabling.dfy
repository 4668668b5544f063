/**
 Setting a control to `false` never takes a finding away nor makes one milder, on any kind of surface. The reviewed
 findings themselves are those that `RiskRules` says are due.
 */
module Disabling {
  import opened Sorting
  import opened JsonText
  import opened StaticReview
  import opened RiskRules

  // ----- the review ----------------------------------------------------------------------------

  /** A review reports a location and risk exactly when the risk is due on a changed surface there. */
  lemma ReportedExactlyWhenDue(py: Py, a: Model, b: Model, k: Key)
    requires Empties(py)
    ensures Reported(py, a, b, k) <==>
            exists x :: IsChange(py, a, b, x) && Due(py, x.kind, View(x.after), k.risk) && KeyOf(x.kind, x.id, View(x.after), k.risk) == k
  {
    hide Empties, IsChange, Due, View, KeyOf, RiskFindings, Raised;
    forall x ensures ListsKey(Raised(py, x), k) <==>
        Due(py, x.kind, View(x.after), k.risk) && KeyOf(x.kind, x.id, View(x.after), k.risk) == k
    {
      RaisedExactlyWhenDue(py, x, k);
    }
  }

  lemma RaisedExactlyWhenDue(py: Py, x: Change, k: Key)
    requires Empties(py)
    ensures ListsKey(Raised(py, x), k) <==>
            Due(py, x.kind, View(x.after), k.risk) && KeyOf(x.kind, x.id, View(x.after), k.risk) == k
  {
    hide Empties, Due, View, RiskFindings, Blocks, Reached;
    KeyNamesRisk(x.kind, x.id, View(x.after));
    hide KeyOf;
    var p := View(x.after);
    var fs, raised := RiskFindings(py, x.kind, x.id, p), Raised(py, x);
    RiskReportedExactly(py, x.kind, x.id, p, k.risk);
    if ListsKey(raised, k) {
      var i :| 0 <= i < |raised| && raised[i].key == k;
      assert fs[i].risk == k.risk;
    }
    if i :| 0 <= i < |fs| && fs[i].risk == k.risk && KeyOf(x.kind, x.id, p, k.risk) == k { assert raised[i].key == k; }
  }

  lemma KeyNamesRisk(kind: Kind, id: Text, p: Props)
    ensures forall risk :: KeyOf(kind, id, p, risk).risk == risk
  {
    hide Get, Truth;
  }

  /** A reported finding blocks exactly when its risk does on its surface. */
  lemma BlocksExactly(py: Py, x: Change, l: Located)
    requires Empties(py) && l in Raised(py, x)
    ensures l.finding.severity == Block <==> Blocks(py, View(x.after), l.finding.risk)
  {
    hide Empties, Due, View, RiskFindings, Blocks, Reached, KeyOf;
    var raised := Raised(py, x);
    var i :| 0 <= i < |raised| && raised[i] == l;
    RiskReportedExactly(py, x.kind, x.id, View(x.after), l.finding.risk);
    assert RiskFindings(py, x.kind, x.id, View(x.after))[i] == l.finding;
  }

  // ----- switching a control off ---------------------------------------------------------------

  ghost predicate Elsewhere(key: Text, names: seq<string>) { forall j :: 0 <= j < |names| ==> T(names[j]) != key }

  /** What the rules read besides controls. */
  const READ: seq<seq<string>> := [
    ["bulk_access_permitted"], ["stacking_permitted"], ["stackable"], ["id"], ["name"], ["route"], ["path"], ["applies_to"],
    ["status"], ["reachable"],
    ["reachable_by_plan", "granted_plan", "current_plan"],
    ["reachable_by_role", "installable_by_role", "granted_role"],
    ["ui_backing_endpoint", "interactive_ui_endpoint", "browser_endpoint"],
    ["paid_api_equivalent", "bulk_api_equivalent", "api_equivalent"],
    ["required_plan", "entitlement_plan", "min_plan", "plan_required"],
    ["reachable_by_plan", "granted_plan", "current_plan", "observed_plan"],
    ["billable", "cost_bearing", "metered", "charges_money"],
    ["discount_percent", "discount"],
    ["scope", "granted_scope", "oauth_scope"],
    ["granted_scopes", "scopes"],
    ["needed_scopes", "required_scopes", "intended_scopes"],
    ["auto_approved", "auto_install", "default_approved"],
    ["installable_by_role", "reachable_by_role", "role"],
    ["required_role", "min_role", "intended_role"],
    ["reachable_by_role", "granted_role", "observed_role"],
    ["granted_scope", "effective_scope", "scope"],
    ["intended_scope", "required_scope", "declared_scope"],
    ["required_plan", "entitlement_plan", "min_plan"],
    ["sensitive", "regulated", "customer_data"]]

  /** A name the rules read as a control, if at all; a feature flag reads `guard` as the gate itself. */
  ghost predicate Control(kind: Kind, key: Text) {
    (forall i :: 0 <= i < |READ| ==> Elsewhere(key, READ[i])) && (kind.FeaturesFlags? ==> Elsewhere(key, ["gated_by", "guard"]))
  }

  function SwitchedOff(p: Props, key: Text): Props { p[key := Bool(false)] }

  lemma SameFirst(p: Props, key: Text, names: seq<string>, i: nat)
    requires key in p
    ensures FirstAt(SwitchedOff(p, key), names, i) <==> FirstAt(p, names, i)
  {
    hide T;
  }

  lemma OffGrows(py: Py, p: Props, key: Text, names: seq<string>)
    requires key in p && Off(py, p, names)
    ensures Off(py, SwitchedOff(p, key), names)
  {
    hide T;
    var i: nat :| FirstAt(p, names, i) && SaysNo(py, p[T(names[i])]);
    SameFirst(p, key, names, i);
  }

  lemma SameOn(py: Py, p: Props, key: Text, names: seq<string>)
    requires key in p && Elsewhere(key, names)
    ensures On(py, SwitchedOff(p, key), names) <==> On(py, p, names)
  {
    hide T, SaysYes;
    var q := SwitchedOff(p, key);
    if i: nat :| FirstAt(p, names, i) && SaysYes(py, p[T(names[i])]) { SameFirst(p, key, names, i); }
    if i: nat :| FirstAt(q, names, i) && SaysYes(py, q[T(names[i])]) { SameFirst(p, key, names, i); }
  }

  lemma SameReads(py: Py, p: Props, key: Text, names: seq<string>)
    requires key in p && Elsewhere(key, names)
    ensures forall t :: Reads(py, SwitchedOff(p, key), names, t) <==> Reads(py, p, names, t)
  {
    hide T, Truth;
    var q := SwitchedOff(p, key);
    forall i: nat ensures FirstAt(q, names, i) <==> FirstAt(p, names, i) { SameFirst(p, key, names, i); }
  }

  lemma SameLists(py: Py, p: Props, key: Text, names: seq<string>)
    requires key in p && Elsewhere(key, names)
    ensures forall t :: Lists(py, SwitchedOff(p, key), names, t) <==> Lists(py, p, names, t)
    ensures OneScopeBroad(py, SwitchedOff(p, key), names) <==> OneScopeBroad(py, p, names)
  {
    hide T, Truth, ListsScope, Broad;
    var q := SwitchedOff(p, key);
    forall i: nat ensures FirstAt(q, names, i) <==> FirstAt(p, names, i) { SameFirst(p, key, names, i); }
  }

  lemma SameNamed(p: Props, key: Text, name: string)
    requires key in p && Elsewhere(key, [name])
    ensures (T(name) in SwitchedOff(p, key) <==> T(name) in p) && (T(name) in p ==> SwitchedOff(p, key)[T(name)] == p[T(name)])
  {
    hide T;
    assert [name][0] == name;
  }

  lemma SameGap(py: Py, p: Props, key: Text, required: seq<string>, reached: seq<string>)
    requires key in p && Elsewhere(key, required) && Elsewhere(key, reached)
    ensures Gap(py, SwitchedOff(p, key), required, reached) <==> Gap(py, p, required, reached)
  {
    hide Reads, SwitchedOff;
    SameReads(py, p, key, required);
    SameReads(py, p, key, reached);
  }

  lemma SameReadsOneOf(py: Py, p: Props, key: Text, names: seq<string>, words: seq<string>)
    requires key in p && Elsewhere(key, names)
    ensures ReadsOneOf(py, SwitchedOff(p, key), names, words) <==> ReadsOneOf(py, p, names, words)
  {
    hide Reads, SwitchedOff, T;
    SameReads(py, p, key, names);
  }

  lemma ReadAt(kind: Kind, key: Text, i: nat)
    requires Control(kind, key) && i < |READ|
    ensures Elsewhere(key, READ[i])
  {
  }

  lemma SameExposed(py: Py, kind: Kind, p: Props, key: Text)
    requires key in p && Control(kind, key)
    ensures Exposed(py, SwitchedOff(p, key)) <==> Exposed(py, p)
  {
    hide On, ReadsOneOf, SwitchedOff, T, Control, Elsewhere;
    ReadAt(kind, key, 9);
    ReadAt(kind, key, 10);
    ReadAt(kind, key, 11);
    SameNamed(p, key, "reachable");
    SameOn(py, p, key, ["reachable"]);
    SameReadsOneOf(py, p, key, ["reachable_by_plan", "granted_plan", "current_plan"], ["trial", "free", "starter", "basic"]);
    SameReadsOneOf(py, p, key, ["reachable_by_role", "installable_by_role", "granted_role"], ["anonymous", "member", "user", "anyone"]);
  }

  lemma SameExport(py: Py, kind: Kind, p: Props, key: Text)
    requires key in p && Control(kind, key)
    ensures MentionsExport(py, SwitchedOff(p, key)) <==> MentionsExport(py, p)
    ensures Holds(SwitchedOff(p, key), "bulk_access_permitted", Bool(true)) <==> Holds(p, "bulk_access_permitted", Bool(true))
    ensures Holds(SwitchedOff(p, key), "stacking_permitted", Bool(true)) <==> Holds(p, "stacking_permitted", Bool(true))
  {
    hide SwitchedOff, T, Control, Elsewhere;
    ReadAt(kind, key, 0);
    ReadAt(kind, key, 1);
    ReadAt(kind, key, 3);
    ReadAt(kind, key, 4);
    ReadAt(kind, key, 5);
    ReadAt(kind, key, 6);
    SameNamed(p, key, "bulk_access_permitted");
    SameNamed(p, key, "stacking_permitted");
    SameNamed(p, key, "id");
    SameNamed(p, key, "name");
    SameNamed(p, key, "route");
    SameNamed(p, key, "path");
    var q := SwitchedOff(p, key);
    assert Shown(py, q, "id") == Shown(py, p, "id") && Shown(py, q, "name") == Shown(py, p, "name");
    assert Shown(py, q, "route") == Shown(py, p, "route") && Shown(py, q, "path") == Shown(py, p, "path");
  }

  lemma SameUi(py: Py, kind: Kind, p: Props, key: Text)
    requires key in p && Control(kind, key)
    ensures UiGap(py, SwitchedOff(p, key)) <==> UiGap(py, p)
    ensures On(py, SwitchedOff(p, key), ["ui_backing_endpoint", "interactive_ui_endpoint", "browser_endpoint"]) <==>
            On(py, p, ["ui_backing_endpoint", "interactive_ui_endpoint", "browser_endpoint"])
    ensures On(py, SwitchedOff(p, key), ["paid_api_equivalent", "bulk_api_equivalent", "api_equivalent"]) <==>
            On(py, p, ["paid_api_equivalent", "bulk_api_equivalent", "api_equivalent"])
  {
    hide On, Off, Gap, SwitchedOff, T, Control, Elsewhere;
    ReadAt(kind, key, 12);
    ReadAt(kind, key, 13);
    ReadAt(kind, key, 14);
    ReadAt(kind, key, 15);
    SameOn(py, p, key, ["ui_backing_endpoint", "interactive_ui_endpoint", "browser_endpoint"]);
    SameOn(py, p, key, ["paid_api_equivalent", "bulk_api_equivalent", "api_equivalent"]);
    SameGap(py, p, key, ["required_plan", "entitlement_plan", "min_plan", "plan_required"],
            ["reachable_by_plan", "granted_plan", "current_plan", "observed_plan"]);
  }

  lemma UnguardedGrows(py: Py, p: Props, key: Text)
    requires key in p && UnguardedUi(py, p)
    ensures UnguardedUi(py, SwitchedOff(p, key))
  {
    hide Off, SwitchedOff;
    AllOffGrows(py, p, key);
  }

  lemma AllOffGrows(py: Py, p: Props, key: Text)
    requires key in p
    ensures forall names :: Off(py, p, names) ==> Off(py, SwitchedOff(p, key), names)
  {
    hide Off, SwitchedOff;
    forall names | Off(py, p, names) ensures Off(py, SwitchedOff(p, key), names) { OffGrows(py, p, key, names); }
  }

  lemma SameRoles(py: Py, kind: Kind, p: Props, key: Text)
    requires key in p && Control(kind, key)
    ensures LowRole(py, SwitchedOff(p, key)) <==> LowRole(py, p)
    ensures RoleRequired(py, SwitchedOff(p, key)) <==> RoleRequired(py, p)
  {
    hide Reads, SwitchedOff, T, Control, Elsewhere;
    ReadAt(kind, key, 23);
    ReadAt(kind, key, 24);
    SameReads(py, p, key, ["required_role", "min_role", "intended_role"]);
    SameReads(py, p, key, ["reachable_by_role", "granted_role", "observed_role"]);
  }

  lemma SameOauth(py: Py, kind: Kind, p: Props, key: Text)
    requires key in p && Control(kind, key)
    ensures Due(py, kind, SwitchedOff(p, key), OauthScopeOverbroad) <==> Due(py, kind, p, OauthScopeOverbroad)
    ensures SelfApproved(py, SwitchedOff(p, key)) <==> SelfApproved(py, p)
    ensures LowInstaller(py, SwitchedOff(p, key)) <==> LowInstaller(py, p)
  {
    hide On, Lists, OneScopeBroad, ReadsOneOf, Broad, SwitchedOff, T, Control, Elsewhere;
    ReadAt(kind, key, 18);
    ReadAt(kind, key, 19);
    ReadAt(kind, key, 20);
    ReadAt(kind, key, 21);
    ReadAt(kind, key, 22);
    SameLists(py, p, key, ["scope", "granted_scope", "oauth_scope"]);
    SameLists(py, p, key, GRANTED);
    SameLists(py, p, key, NEEDED);
    SameOn(py, p, key, ["auto_approved", "auto_install", "default_approved"]);
    SameReadsOneOf(py, p, key, ["installable_by_role", "reachable_by_role", "role"], ["member", "user", "anyone", "anonymous"]);
  }

  lemma SameCoupon(py: Py, kind: Kind, p: Props, key: Text)
    requires key in p && Control(kind, key)
    ensures DeepDiscount(py, SwitchedOff(p, key)) <==> DeepDiscount(py, p)
    ensures On(py, SwitchedOff(p, key), ["stackable"]) <==> On(py, p, ["stackable"])
  {
    ReadAt(kind, key, 2);
    ReadAt(kind, key, 7);
    ReadAt(kind, key, 17);
    hide T, Control, On, READ;
    SameOn(py, p, key, ["stackable"]);
    SameNamed(p, key, "applies_to");
    var names := ["discount_percent", "discount"];
    forall i: nat ensures FirstAt(SwitchedOff(p, key), names, i) <==> FirstAt(p, names, i) { SameFirst(p, key, names, i); }
  }

  lemma SameAgent(py: Py, kind: Kind, p: Props, key: Text)
    requires key in p && Control(kind, key)
    ensures Due(py, kind, SwitchedOff(p, key), AgentSurfaceOverscope) <==> Due(py, kind, p, AgentSurfaceOverscope)
  {
    hide Reads, Wider, SwitchedOff, T, Control, Elsewhere, Word;
    ReadAt(kind, key, 25);
    ReadAt(kind, key, 26);
    SameReads(py, p, key, ["granted_scope", "effective_scope", "scope"]);
    SameReads(py, p, key, ["intended_scope", "required_scope", "declared_scope"]);
  }

  lemma SameFlag(py: Py, p: Props, key: Text)
    requires key in p && Control(FeaturesFlags, key)
    ensures Due(py, FeaturesFlags, SwitchedOff(p, key), FeatureFlagPlanMismatch) <==> Due(py, FeaturesFlags, p, FeatureFlagPlanMismatch)
  {
    FlagGate(key);
    hide Gap, ReadsOneOf, SwitchedOff, T, Control, Elsewhere;
    ReadAt(FeaturesFlags, key, 10);
    ReadAt(FeaturesFlags, key, 27);
    SameGap(py, p, key, ["required_plan", "entitlement_plan", "min_plan"], ["reachable_by_plan", "granted_plan", "current_plan"]);
    SameReadsOneOf(py, p, key, ["gated_by", "guard"], ["client", "client_only"]);
  }

  lemma FlagGate(key: Text)
    requires Control(FeaturesFlags, key)
    ensures Elsewhere(key, ["gated_by", "guard"])
  {
  }

  lemma SameData(py: Py, kind: Kind, p: Props, key: Text)
    requires key in p && Control(kind, key)
    ensures Due(py, kind, SwitchedOff(p, key), TenantOrDataControlChange) <==> Due(py, kind, p, TenantOrDataControlChange)
    ensures On(py, SwitchedOff(p, key), ["billable", "cost_bearing", "metered", "charges_money"]) <==>
            On(py, p, ["billable", "cost_bearing", "metered", "charges_money"])
  {
    hide On, SwitchedOff, T, Control, Elsewhere, Word;
    ReadAt(kind, key, 8);
    ReadAt(kind, key, 16);
    ReadAt(kind, key, 28);
    SameNamed(p, key, "status");
    SameOn(py, p, key, ["sensitive", "regulated", "customer_data"]);
    SameOn(py, p, key, ["billable", "cost_bearing", "metered", "charges_money"]);
  }

  lemma AccessKept(py: Py, kind: Kind, p: Props, key: Text, risk: Risk)
    requires key in p && Control(kind, key) && Due(py, kind, p, risk)
    requires risk in {ExportWithoutEntitlement, ExportWithoutTenantQuota, EndpointWithoutTenantFilter, UiBackingEndpointPaidApiBypass}
    ensures Due(py, kind, SwitchedOff(p, key), risk)
  {
    hide On, Off, SwitchedOff, T, Control, UiGap, UnguardedUi, MentionsExport, Holds;
    SameExport(py, kind, p, key);
    SameUi(py, kind, p, key);
    if UnguardedUi(py, p) { UnguardedGrows(py, p, key); }
    AllOffGrows(py, p, key);
  }

  /** What was due stays due. */
  lemma DueKept(py: Py, kind: Kind, p: Props, key: Text, risk: Risk)
    requires key in p && Control(kind, key) && Due(py, kind, p, risk)
    ensures Due(py, kind, SwitchedOff(p, key), risk)
  {
    hide On, Off, SwitchedOff, T, Control, LowRole, RoleRequired, Holds, Due;
    AllOffGrows(py, p, key);
    match risk
    case UnmeteredBillableResource => SameData(py, kind, p, key); MeterKept(py, kind, p, key);
    case StackableCouponWithoutRedemptionLimit => CouponKept(py, kind, p, key);
    case OauthScopeOverbroad => SameOauth(py, kind, p, key);
    case AdminActionWithoutRoleOrAuditControl => AdminKept(py, kind, p, key);
    case AgentSurfaceOverscope => SameAgent(py, kind, p, key);
    case FeatureFlagPlanMismatch => FlagKept(py, kind, p, key);
    case TenantOrDataControlChange => SameData(py, kind, p, key);
    case _ => AccessKept(py, kind, p, key, risk);
  }

  lemma MeterKept(py: Py, kind: Kind, p: Props, key: Text)
    requires key in p && Control(kind, key) && Due(py, kind, p, UnmeteredBillableResource)
    ensures Due(py, kind, SwitchedOff(p, key), UnmeteredBillableResource)
  {
    hide On, Off, SwitchedOff, T, Control;
    AllOffGrows(py, p, key);
    SameData(py, kind, p, key);
  }

  lemma CouponKept(py: Py, kind: Kind, p: Props, key: Text)
    requires key in p && Control(kind, key) && Due(py, kind, p, StackableCouponWithoutRedemptionLimit)
    ensures Due(py, kind, SwitchedOff(p, key), StackableCouponWithoutRedemptionLimit)
  {
    hide On, Off, SwitchedOff, T, Control, Holds, DeepDiscount;
    AllOffGrows(py, p, key);
    SameCoupon(py, kind, p, key);
    SameExport(py, kind, p, key);
  }

  lemma AdminKept(py: Py, kind: Kind, p: Props, key: Text)
    requires key in p && Control(kind, key) && Due(py, kind, p, AdminActionWithoutRoleOrAuditControl)
    ensures Due(py, kind, SwitchedOff(p, key), AdminActionWithoutRoleOrAuditControl)
  {
    hide Off, SwitchedOff, T, Control, LowRole, RoleRequired;
    AllOffGrows(py, p, key);
    SameRoles(py, kind, p, key);
  }

  lemma FlagKept(py: Py, kind: Kind, p: Props, key: Text)
    requires key in p && Control(kind, key) && Due(py, kind, p, FeatureFlagPlanMismatch)
    ensures Due(py, kind, SwitchedOff(p, key), FeatureFlagPlanMismatch)
  {
    assert kind.FeaturesFlags?;
    hide Due;
    SameFlag(py, p, key);
  }

  /** What blocked still blocks. */
  lemma BlocksKept(py: Py, kind: Kind, p: Props, key: Text, risk: Risk)
    requires key in p && Control(kind, key) && Blocks(py, p, risk)
    ensures Blocks(py, SwitchedOff(p, key), risk)
  {
    hide On, Off, SwitchedOff, T, Control, LowRole, RoleRequired, Due, Exposed, UiGap, DeepDiscount, SelfApproved, LowInstaller;
    SameExposed(py, kind, p, key);
    SameUi(py, kind, p, key);
    SameCoupon(py, kind, p, key);
    SameOauth(py, kind, p, key);
    SameRoles(py, kind, p, key);
    AllOffGrows(py, p, key);
  }

  ghost predicate ReportedUnder(fs: seq<Finding>, risk: Risk, blocking: bool) {
    exists i :: 0 <= i < |fs| && fs[i].risk == risk && (blocking ==> fs[i].severity == Block)
  }

  /** Setting a control a surface has to `false` takes no finding away and makes none milder. */
  lemma DisablingKeepsFindings(py: Py, kind: Kind, id: Text, p: Props, key: Text, risk: Risk, blocking: bool)
    requires Empties(py) && key in p && Control(kind, key)
    requires ReportedUnder(RiskFindings(py, kind, id, p), risk, blocking)
    ensures ReportedUnder(RiskFindings(py, kind, id, SwitchedOff(p, key)), risk, blocking)
  {
    hide Due, Blocks, Reached, RiskFindings, Control, SwitchedOff, Empties;
    RiskReportedExactly(py, kind, id, p, risk);
    RiskReportedExactly(py, kind, id, SwitchedOff(p, key), risk);
    DueKept(py, kind, p, key, risk);
    if Blocks(py, p, risk) { BlocksKept(py, kind, p, key, risk); }
  }

  // ----- examples ------------------------------------------------------------------------------

  ghost predicate Unlike(names: seq<string>, size: nat, first: char) {
    forall i :: 0 <= i < |names| ==> names[i] != "" && (|names[i]| != size || names[i][0] != first)
  }

  lemma UnlikeElsewhere(name: string, names: seq<string>)
    requires name != "" && Unlike(names, |name|, name[0])
    ensures Elsewhere(T(name), names)
  {
    forall j | 0 <= j < |names| ensures T(names[j]) != T(name) {
      if |names[j]| == |name| { assert T(names[j])[0] != T(name)[0]; }
    }
  }

  /** Three of the controls. */
  lemma SomeControls(kind: Kind)
    ensures Control(kind, T("tenant_filter")) && Control(kind, T("entitlement_check")) && Control(kind, T("server_side_accounting"))
  {
    hide Elsewhere, T;
    forall i | 0 <= i < |READ|
      ensures Elsewhere(T("tenant_filter"), READ[i]) && Elsewhere(T("entitlement_check"), READ[i])
              && Elsewhere(T("server_side_accounting"), READ[i])
    {
      NoneLike(i);
      UnlikeElsewhere("tenant_filter", READ[i]);
      UnlikeElsewhere("entitlement_check", READ[i]);
      UnlikeElsewhere("server_side_accounting", READ[i]);
    }
    UnlikeElsewhere("tenant_filter", ["gated_by", "guard"]);
    UnlikeElsewhere("entitlement_check", ["gated_by", "guard"]);
    UnlikeElsewhere("server_side_accounting", ["gated_by", "guard"]);
  }

  lemma NoneLike(i: nat)
    requires i < |READ|
    ensures Unlike(READ[i], 13, 't') && Unlike(READ[i], 17, 'e') && Unlike(READ[i], 22, 's')
  {
  }

  /** A billable meter without server-side accounting is reported, but never blocks. */
  lemma UnaccountedMeterReported(py: Py, id: Text)
    requires Empties(py)
    ensures var p := map[T("id") := Str(T("api_meter")), T("billable") := Bool(true), T("server_side_accounting") := Bool(false)];
            var fs := RiskFindings(py, Meters, id, p);
            ReportedUnder(fs, UnmeteredBillableResource, false) && !ReportedUnder(fs, UnmeteredBillableResource, true)
  {
    var p := map[T("id") := Str(T("api_meter")), T("billable") := Bool(true), T("server_side_accounting") := Bool(false)];
    assert |T("id")| == 2 && |T("billable")| == 8 && |T("server_side_accounting")| == 22;
    assert FirstAt(p, ["billable", "cost_bearing", "metered", "charges_money"], 0);
    assert FirstAt(p, ["server_side_accounting", "server_authoritative", "meter_accounting"], 0);
    hide RiskFindings, Empties, T;
    assert SaysYes(py, Bool(true)) && SaysNo(py, Bool(false));
    assert Due(py, Meters, p, UnmeteredBillableResource);
    RiskReportedExactly(py, Meters, id, p, UnmeteredBillableResource);
  }

  /** An endpoint that is reachable and whose tenant filter says no blocks. */
  lemma UnfilteredEndpointBlocks(py: Py, id: Text, p: Props)
    requires Empties(py) && Holds(p, "tenant_filter", Bool(false)) && Holds(p, "reachable", Bool(true)) && !MentionsExport(py, p)
    ensures ReportedUnder(RiskFindings(py, EndpointsRoutes, id, p), EndpointWithoutTenantFilter, true)
  {
    assert FirstAt(p, TENANT_FILTERS, 0) && FirstAt(p, ["reachable"], 0);
    hide RiskFindings, Empties, MentionsExport, T;
    assert SaysYes(py, Bool(true)) && SaysNo(py, Bool(false));
    assert Due(py, EndpointsRoutes, p, EndpointWithoutTenantFilter) && Exposed(py, p);
    RiskReportedExactly(py, EndpointsRoutes, id, p, EndpointWithoutTenantFilter);
  }

  /** On a feature flag `guard` is no control: turning a client guard off takes the finding away. */
  lemma FlagGuardIsNoControl(py: Py, id: Text)
    requires Empties(py) && py.lower(py.str(Str(T("client")))) == T("client")
    ensures var p := map[T("guard") := Str(T("client"))];
            && ReportedUnder(RiskFindings(py, FeaturesFlags, id, p), FeatureFlagPlanMismatch, false)
            && !ReportedUnder(RiskFindings(py, FeaturesFlags, id, SwitchedOff(p, T("guard"))), FeatureFlagPlanMismatch, false)
  {
    var p := map[T("guard") := Str(T("client"))];
    var q := SwitchedOff(p, T("guard"));
    var names, words := ["gated_by", "guard"], ["client", "client_only"];
    assert |T("gated_by")| == 8 && |T("guard")| == 5 && |T("client")| == 6;
    assert FirstAt(p, names, 1);
    assert Reads(py, p, names, T(words[0]));
    forall t ensures !Reads(py, q, names, t) {}
    var required := ["required_plan", "entitlement_plan", "min_plan"];
    forall j | 0 <= j < |required| ensures T(required[j]) !in q { assert |T(required[j])| > 5; }
    forall t ensures !Reads(py, q, required, t) {}
    hide RiskFindings, Empties, Reads, T;
    RiskReportedExactly(py, FeaturesFlags, id, p, FeatureFlagPlanMismatch);
    RiskReportedExactly(py, FeaturesFlags, id, q, FeatureFlagPlanMismatch);
  }
}
