/**
 Projecting a review never fails late: once the findings are catalogued and their identities differ, the
 assembled request passes its own validation. Reviews built from the static analyser always get that far.
 */
module SyncProjection {
  import opened Options
  import opened Sorting
  import opened JsonText
  import opened Canonical
  import opened Records
  import opened Bounds
  import opened FindingsSync
  import opened SyncRequest
  import opened SyncSizes
  import S = StaticReview
  import E = Envelope
  import W = Worklist

  // ----- the request is canonical --------------------------------------------------------------

  lemma KeysAscend()
    ensures Ascending(FINDING_KEYS) && Ascending(SOURCE_KEYS) && Ascending(SUMMARY_KEYS)
  {
    LessAt(T("control_code"), T("finding_id"), 0);
    LessAt(T("finding_id"), T("reachable"), 0);
    LessAt(T("reachable"), T("risk_code"), 1);
    LessAt(T("risk_code"), T("severity"), 0);
    LessAt(T("severity"), T("surface_ref"), 1);
    LessAt(T("surface_ref"), T("surface_type"), 8);
    LessAt(T("engine_version"), T("execution_mode"), 1);
    LessAt(T("execution_mode"), T("result_ref"), 0);
    LessAt(T("blockers"), T("findings"), 0);
  }

  lemma RequestKeysAscend()
    ensures Ascending(REQUEST_KEYS)
  {
    LessAt(T("findings"), T("gate_status"), 0);
    LessAt(T("gate_status"), T("project_ref"), 0);
    LessAt(T("project_ref"), T("projection_hash"), 7);
    LessAt(T("projection_hash"), T("schema_version"), 0);
    LessAt(T("schema_version"), T("source"), 1);
    LessAt(T("source"), T("summary"), 1);
  }

  lemma FindingTidy(f: SyncFinding)
    ensures Tidy(FindingJson(f))
  {
    hide Tidy, Ascending, AllTidy;
    KeysAscend();
    E.ScalarsTidy(FindingValues(f));
    TidyRecord(FINDING_KEYS, FindingValues(f));
  }

  lemma RequestTidy(r: Request)
    ensures Tidy(RequestJson(r))
  {
    hide Tidy, Ascending, FindingJson;
    KeysAscend();
    RequestKeysAscend();
    var items := E.Each(FindingJson, r.findings);
    forall i | 0 <= i < |items| ensures Tidy(items[i]) { FindingTidy(r.findings[i]); }
    TidyArray(items);
    E.ScalarsTidy([Str(r.source.engineVersion), Str(r.source.mode), Str(r.source.resultRef)]);
    TidyRecord(SOURCE_KEYS, [Str(r.source.engineVersion), Str(r.source.mode), Str(r.source.resultRef)]);
    E.ScalarsTidy([Int(r.blockerCount), Int(r.findingCount)]);
    TidyRecord(SUMMARY_KEYS, [Int(r.blockerCount), Int(r.findingCount)]);
    E.ScalarsTidy([Str(r.gate), Str(r.projectRef), Str(r.projectionHash), Str(r.schemaVersion)]);
    var texts := [Str(r.gate), Str(r.projectRef), Str(r.projectionHash), Str(r.schemaVersion)];
    assert Tidy(texts[0]) && Tidy(texts[1]) && Tidy(texts[2]) && Tidy(texts[3]);
    TidyRecord(REQUEST_KEYS, [FindingsJson(r.findings), Str(r.gate), Str(r.projectRef), Str(r.projectionHash),
                              Str(r.schemaVersion), SourceJson(r.source), SummaryJson(r.findingCount, r.blockerCount)]);
  }

  // ----- the assembled request -----------------------------------------------------------------

  lemma TaggedReference(hmac: Text -> Text, prefix: Text, tag: Text, values: seq<Text>)
    requires E.Digests(hmac)
    ensures IsReference(prefix + Tagged(hmac, tag, values), prefix, 64)
  {
    var t := Tagged(hmac, tag, values);
    assert E.IsDigest(t);
    assert (prefix + t)[..|prefix|] == prefix && (prefix + t)[|prefix|..] == t;
  }

  lemma ProjectedValid(hmac: Text -> Text, f: E.Finding)
    requires E.Digests(hmac) && Accepted(f)
    ensures ValidFinding(hmac, ProjectOne(hmac, f)) && FieldsFit(ProjectOne(hmac, f))
  {
    hide E.Digests, Tagged, Fits, Quiet, Catalogued, ControlText;
    PrefixesQuiet();
    var g := ProjectOne(hmac, f);
    TaggedReference(hmac, T("surf1_"), T("surface"), [f.surfaceType, f.surfaceId]);
    TaggedReference(hmac, T("find1_"), T("finding"), [g.surfaceRef, f.risk]);
    ReferenceFits(g.surfaceRef, T("surf1_"), 64);
    ReferenceFits(g.findingId, T("find1_"), 64);
    CataloguedFits(f);
  }

  lemma CataloguedFits(f: E.Finding)
    requires Accepted(f)
    ensures Fits(f.risk, 42) && Fits(Code(f.risk), 45) && Fits(f.severity, 5) && Fits(f.surfaceType, 22)
  {
    hide Fits, RiskName, ControlCode, S.KindName, StateAllowed;
    var r := RiskOf(f.risk).value;
    FoundHasName(f.risk, RISKS);
    NamesFit(r);
    var i :| 0 <= i < |Surfaces(r)| && S.KindName(Surfaces(r)[i]) == f.surfaceType;
    KindFits(r, Surfaces(r)[i]);
    OneWord("block", 5);
    OneWord("warn", 5);
  }

  lemma {:induction false} FoundHasName(name: Text, risks: seq<S.Risk>)
    requires Find(name, risks).Some?
    ensures RiskName(Find(name, risks).value) == name
  {
    hide RiskName;
    if risks != [] && RiskName(risks[0]) != name { FoundHasName(name, risks[1..]); }
  }

  lemma SortedMembers(hmac: Text -> Text, fs: seq<E.Finding>, i: nat)
    requires i < |fs|
    ensures exists j :: 0 <= j < |fs| && SortById(ProjectAll(hmac, fs))[i] == ProjectOne(hmac, fs[j])
  {
    var all := ProjectAll(hmac, fs);
    var g := SortById(all)[i];
    SameElements(SortById(all), all, g);
    var j :| 0 <= j < |all| && all[j] == g;
    assert g == ProjectOne(hmac, fs[j]);
  }

  /** What the assembled findings satisfy, item by item and as a list. */
  lemma AssembledFindings(hmac: Text -> Text, fs: seq<E.Finding>)
    requires E.Digests(hmac) && Projectable(hmac, fs)
    ensures var gs := SortById(ProjectAll(hmac, fs));
            && (forall i :: 0 <= i < |gs| ==> ValidFinding(hmac, gs[i]) && FieldsFit(gs[i]))
            && DistinctFindings(gs) && gs == SortById(gs)
  {
    hide E.Digests, Accepted, ProjectOne, ValidFinding, FieldsFit, Sort;
    var all := ProjectAll(hmac, fs);
    var gs := SortById(all);
    forall i | 0 <= i < |gs| ensures ValidFinding(hmac, gs[i]) && FieldsFit(gs[i]) {
      SortedMembers(hmac, fs, i);
      var j :| 0 <= j < |fs| && gs[i] == ProjectOne(hmac, fs[j]);
      ProjectedValid(hmac, fs[j]);
    }
    DistinctPermuted((g: SyncFinding) => g.findingId, all, gs);
    ByKeyTotal(IdKey);
    SortSorted(ByKey(IdKey), all);
    SortFixesSorted(ByKey(IdKey), gs);
  }

  lemma EngineFits(e: E.Envelope)
    requires e.engineVersion in E.ENGINE_VERSIONS && e.mode in E.MODES
    ensures Fits(e.engineVersion, 20) && Fits(e.mode, 20)
  {
    hide Fits;
    OneWord("browser_local", 20);
    OneWord("machine_local", 20);
    OneWord("cloud_isolated", 20);
    VersionsFit();
  }

  lemma VersionsFit()
    ensures forall i :: 0 <= i < |E.ENGINE_VERSIONS| ==> Fits(E.ENGINE_VERSIONS[i], 20)
  {
  }

  lemma GateFits(fs: seq<SyncFinding>)
    ensures Fits(GateFor(fs), 5) && Fits(SCHEMA, 24)
  {
  }

  lemma PrefixesQuiet()
    ensures Quiet(T("prj_")) && Quiet(T("src1_")) && Quiet(T("surf1_")) && Quiet(T("find1_"))
  {
  }

  lemma KnownEngine(env: E.Env, e: E.Envelope)
    requires E.Valid(env, e)
    ensures e.engineVersion in E.ENGINE_VERSIONS && e.mode in E.MODES
  {
    hide E.RecordsOk, E.SortFindings, E.SortControls, E.SortRegressions, E.SortQuestions, E.Body, E.GateFor, StableText;
  }

  lemma HeaderIsFit(keys: Keys, e: E.Envelope, projectRef: Text)
    requires E.Digests(keys.hmac) && E.Digests(keys.env.sha) && E.Valid(keys.env, e) && |e.findings| <= MAX_FINDINGS
    requires IsReference(projectRef, T("prj_"), 32)
    ensures HeaderFits(Assemble(keys, e, projectRef))
  {
    hide Fits, Tagged, GateFor, Material, SortById, StableText, E.Valid, E.IsDigest, IsReference, Quiet, T;
    var r := Assemble(keys, e, projectRef);
    DigestFits(r.projectionHash);
    PrefixesQuiet();
    ReferenceFits(projectRef, T("prj_"), 32);
    TaggedReference(keys.hmac, T("src1_"), T("source"), [e.resultHash]);
    ReferenceFits(r.source.resultRef, T("src1_"), 64);
    GateFits(r.findings);
    KnownEngine(keys.env, e);
    EngineFits(e);
    SortedLength(keys.hmac, e.findings);
  }

  lemma DigestFits(t: Text)
    requires E.IsDigest(t)
    ensures Fits(t, 64)
  {
  }

  lemma WithinLimits(r: Request)
    requires |r.findings| <= MAX_FINDINGS && (forall i :: 0 <= i < |r.findings| ==> FieldsFit(r.findings[i])) && HeaderFits(r)
    ensures W.Size(Decoded(RequestJson(r))) <= 4109 && W.Everywhere(W.Portable(WIDTH), Decoded(RequestJson(r)), 0)
    ensures Utf8Size(StableText(RequestJson(r))) <= 191440
  {
    hide RequestJson, W.Everywhere, W.Size, FieldsFit, HeaderFits, Ascii;
    RequestWithin(r);
    RequestTidy(r);
    AsciiSize(Print(RequestJson(r)));
  }

  /** The checks before assembly decide the projection: the validation of the result never rejects. */
  lemma ProjectionNeverFailsLate(keys: Keys, e: E.Envelope, projectRef: Text)
    requires E.Digests(keys.hmac) && E.Digests(keys.env.sha)
    requires IsReference(projectRef, T("prj_"), 32) && E.Valid(keys.env, e) && |e.findings| <= MAX_FINDINGS
    requires Projectable(keys.hmac, e.findings)
    ensures Project(keys, e, projectRef) == Some(Assemble(keys, e, projectRef))
    ensures Utf8Size(StableText(RequestJson(Assemble(keys, e, projectRef)))) <= 191440
  {
    hide Projectable, RequestJson, W.Everywhere, W.Size, FieldsFit, HeaderFits, ValidFinding, SortById, Tagged,
         StableText, Material, GateFor, E.RecordsOk, E.SortFindings, E.SortControls, E.SortRegressions, E.SortQuestions, E.Body,
         E.GateFor, Utf8Size, IsReference;
    var r := Assemble(keys, e, projectRef);
    AssembledFindings(keys.hmac, e.findings);
    HeaderIsFit(keys, e, projectRef);
    assert |r.findings| == |e.findings| by { SortedLength(keys.hmac, e.findings); }
    WithinLimits(r);
    Compounds(keys.hmac, r.findings);
    SourceReference(keys, e, projectRef);
    MaterialIgnoresHash(r);
  }

  lemma SortedLength(hmac: Text -> Text, fs: seq<E.Finding>)
    ensures |SortById(ProjectAll(hmac, fs))| == |fs|
  {
  }

  lemma MaterialIgnoresHash(r: Request)
    ensures Material(r.(projectionHash := [])) == Material(r)
  {
  }

  lemma SourceReference(keys: Keys, e: E.Envelope, projectRef: Text)
    requires E.Digests(keys.hmac)
    ensures IsReference(Assemble(keys, e, projectRef).source.resultRef, T("src1_"), 64)
  {
    hide E.Digests, Tagged, IsReference, GateFor, Material, SortById;
    TaggedReference(keys.hmac, T("src1_"), T("source"), [e.resultHash]);
  }

  /** Distinct identifiers have distinct surface and risk. */
  lemma Compounds(hmac: Text -> Text, fs: seq<SyncFinding>)
    requires DistinctFindings(fs) && forall i :: 0 <= i < |fs| ==> ValidFinding(hmac, fs[i])
    ensures forall i, j :: 0 <= i < j < |fs| ==>
              (fs[i].surfaceRef, fs[i].riskCode) != (fs[j].surfaceRef, fs[j].riskCode)
  {
    hide Catalogued, IsReference, Code;
    forall i, j | 0 <= i < j < |fs|
      ensures (fs[i].surfaceRef, fs[i].riskCode) != (fs[j].surfaceRef, fs[j].riskCode)
    {
      assert ValidFinding(hmac, fs[i]) && ValidFinding(hmac, fs[j]);
      assert fs[i].findingId != fs[j].findingId;
    }
  }

  // ----- gate and counts -----------------------------------------------------------------------

  lemma FlagsCons(x: SyncFinding, xs: seq<SyncFinding>)
    ensures BlockFlags([x] + xs) == [x.severity == T("block")] + BlockFlags(xs)
  {
    hide T;
  }

  lemma {:induction false} FlagsInserted(le: (SyncFinding, SyncFinding) -> bool, x: SyncFinding, xs: seq<SyncFinding>)
    ensures multiset(BlockFlags(Insert(le, x, xs))) == multiset(BlockFlags(xs)) + multiset{x.severity == T("block")}
  {
    hide T, BlockFlags;
    if xs == [] || le(x, xs[0]) {
      FlagsCons(x, xs);
      assert Insert(le, x, xs) == [x] + xs;
    } else {
      FlagsInserted(le, x, xs[1..]);
      FlagsCons(xs[0], xs[1..]);
      FlagsCons(xs[0], Insert(le, x, xs[1..]));
      assert xs == [xs[0]] + xs[1..];
    }
  }

  lemma {:induction false} FlagsSorted(le: (SyncFinding, SyncFinding) -> bool, xs: seq<SyncFinding>)
    ensures multiset(BlockFlags(Sort(le, xs))) == multiset(BlockFlags(xs))
  {
    hide T, BlockFlags, Insert;
    if xs != [] {
      FlagsSorted(le, xs[1..]);
      FlagsInserted(le, xs[0], Sort(le, xs[1..]));
      FlagsCons(xs[0], xs[1..]);
      assert xs == [xs[0]] + xs[1..];
    }
  }

  /** The request's gate and counts are those of the envelope. */
  lemma GateCarriedOver(keys: Keys, e: E.Envelope, projectRef: Text)
    requires E.Valid(keys.env, e)
    ensures var r := Assemble(keys, e, projectRef);
            r.gate == e.gate && r.findingCount == e.summary.findings && r.blockerCount == e.summary.blockers
  {
    var all := ProjectAll(keys.hmac, e.findings);
    CountsOf(keys.env, e);
    FlagsSorted(ByKey(IdKey), all);
    SortedLength(keys.hmac, e.findings);
    SameFlags(keys.hmac, e.findings);
    hide E.Valid, T, BlockFlags, E.SeverityFlags, ProjectAll, Material, StableText, Tagged, Sort;
  }

  lemma SameFlags(hmac: Text -> Text, fs: seq<E.Finding>)
    ensures BlockFlags(ProjectAll(hmac, fs)) == E.SeverityFlags(fs)
  {
    hide T, SurfaceRef, FindingId, Code;
  }

  lemma CountsOf(env: E.Env, e: E.Envelope)
    requires E.Valid(env, e)
    ensures e.gate == E.GateFor(e.findings) && e.summary.findings == |e.findings| && e.summary.blockers == E.Blockers(e.findings)
  {
    hide E.RecordsOk, E.SortFindings, E.SortControls, E.SortRegressions, E.SortQuestions, E.Body, StableText, E.GateFor, E.Blockers;
  }

  /** Different risks have different codes, so a code names its control group. */
  lemma CodesDiffer(r: S.Risk, q: S.Risk)
    requires ControlCode(r) == ControlCode(q)
    ensures r == q
  {
    hide ControlCode;
    CodeMarked(r);
    CodeMarked(q);
  }

  /** Length and first letter of a code, which tell all of them apart. */
  function CodeMark(r: S.Risk): (nat, char) {
    match r
    case ExportWithoutEntitlement => (29, 's')
    case ExportWithoutTenantQuota => (12, 't')
    case EndpointWithoutTenantFilter => (13, 't')
    case UiBackingEndpointPaidApiBypass => (42, 's')
    case UnmeteredBillableResource => (45, 's')
    case StackableCouponWithoutRedemptionLimit => (40, 'r')
    case OauthScopeOverbroad => (37, 'o')
    case AdminActionWithoutRoleOrAuditControl => (31, 'a')
    case AgentSurfaceOverscope => (23, 't')
    case FeatureFlagPlanMismatch => (37, 's')
    case TenantOrDataControlChange => (26, 't')
  }

  lemma CodeMarked(r: S.Risk)
    ensures ControlCode(r) != [] && (|ControlCode(r)|, ControlCode(r)[0]) == (CodeMark(r).0, CodeMark(r).1 as int)
  {
  }

  // ----- reviews of the static analyser --------------------------------------------------------

  /** Length and first letter of a surface's name, which tell all of them apart. */
  function KindMark(k: S.Kind): (nat, char) {
    match k
    case EndpointsRoutes => (16, 'e')
    case Exports => (7, 'e')
    case Meters => (6, 'm')
    case BillingObjects => (15, 'b')
    case Plans => (5, 'p')
    case CouponsPromotions => (18, 'c')
    case FeaturesFlags => (14, 'f')
    case IntegrationOauthApps => (22, 'i')
    case Webhooks => (8, 'w')
    case SupportAdminActions => (21, 's')
    case AgentTools => (11, 'a')
    case McpConnectors => (14, 'm')
    case Tenants => (7, 't')
    case DataClasses => (12, 'd')
    case DeclaredControls => (17, 'd')
  }

  function RiskMark(r: S.Risk): (nat, char) {
    match r
    case ExportWithoutEntitlement => (26, 'e')
    case ExportWithoutTenantQuota => (27, 'e')
    case EndpointWithoutTenantFilter => (30, 'e')
    case UiBackingEndpointPaidApiBypass => (35, 'u')
    case UnmeteredBillableResource => (27, 'u')
    case StackableCouponWithoutRedemptionLimit => (41, 's')
    case OauthScopeOverbroad => (21, 'o')
    case AdminActionWithoutRoleOrAuditControl => (42, 'a')
    case AgentSurfaceOverscope => (23, 'a')
    case FeatureFlagPlanMismatch => (26, 'f')
    case TenantOrDataControlChange => (29, 't')
  }

  lemma KindMarked(k: S.Kind)
    ensures S.KindName(k) != [] && (|S.KindName(k)|, S.KindName(k)[0]) == (KindMark(k).0, KindMark(k).1 as int)
  {
  }

  lemma RiskMarked(r: S.Risk)
    ensures RiskName(r) != [] && (|RiskName(r)|, RiskName(r)[0]) == (RiskMark(r).0, RiskMark(r).1 as int)
  {
  }

  lemma KindNameInjective(k: S.Kind, q: S.Kind)
    requires S.KindName(k) == S.KindName(q)
    ensures k == q
  {
    hide S.KindName;
    KindMarked(k);
    KindMarked(q);
  }

  lemma RiskNameInjective(r: S.Risk, q: S.Risk)
    requires RiskName(r) == RiskName(q)
    ensures r == q
  {
    hide RiskName;
    RiskMarked(r);
    RiskMarked(q);
  }

  lemma {:induction false} FindsByName(r: S.Risk, risks: seq<S.Risk>)
    requires r in risks
    ensures Find(RiskName(r), risks) == Some(r)
  {
    hide RiskName;
    if RiskName(risks[0]) == RiskName(r) {
      RiskNameInjective(risks[0], r);
    } else {
      FindsByName(r, risks[1..]);
    }
  }

  lemma EveryRisk(r: S.Risk)
    ensures r in RISKS
  {
    match r
    case ExportWithoutEntitlement => assert RISKS[0] == r;
    case ExportWithoutTenantQuota => assert RISKS[1] == r;
    case EndpointWithoutTenantFilter => assert RISKS[2] == r;
    case UiBackingEndpointPaidApiBypass => assert RISKS[3] == r;
    case UnmeteredBillableResource => assert RISKS[4] == r;
    case StackableCouponWithoutRedemptionLimit => assert RISKS[5] == r;
    case OauthScopeOverbroad => assert RISKS[6] == r;
    case AdminActionWithoutRoleOrAuditControl => assert RISKS[7] == r;
    case AgentSurfaceOverscope => assert RISKS[8] == r;
    case FeatureFlagPlanMismatch => assert RISKS[9] == r;
    case TenantOrDataControlChange => assert RISKS[10] == r;
  }

  /** `RiskFinding.to_dict` */
  function Record(f: S.Finding): E.Finding {
    E.Finding(S.KindName(f.kind), f.id, RiskName(f.risk), SeverityName(f.severity), f.control, f.reason, f.reachable,
              Some(E.Evidence(T("inferred"), f.ruleSource, T("static_only"))))
  }

  function RecordsOf(ls: seq<S.Located>): (r: seq<E.Finding>)
    ensures |r| == |ls|
    ensures forall i :: 0 <= i < |r| ==> r[i] == Record(ls[i].finding)
  {
    seq(|ls|, i requires 0 <= i < |ls| => Record(ls[i].finding))
  }

  lemma ListedIsAccepted(f: S.Finding, kind: S.Kind, id: Text)
    requires Listed(f, kind, id)
    ensures Accepted(Record(f))
  {
    hide RiskName, S.KindName, StateAllowed, ControlText, S.ControlOf, Find, Surfaces;
    EveryRisk(f.risk);
    FindsByName(f.risk, RISKS);
    ControlsAgree(f.risk);
    var i :| 0 <= i < |Surfaces(f.risk)| && Surfaces(f.risk)[i] == kind;
    assert SeverityName(f.severity) == Record(f).severity;
  }

  /** A reported finding names the surface that raised it, and is listed for it. */
  lemma OriginListed(py: S.Py, c: S.Change, l: S.Located)
    requires l in S.Raised(py, c)
    ensures Listed(l.finding, c.kind, c.id) && l.key == S.KeyOf(c.kind, c.id, S.View(c.after), l.finding.risk)
  {
    hide Listed, S.RiskFindings, S.View, S.KeyOf;
    EmittedIsListed(py, c.kind, c.id, S.View(c.after));
    var i :| 0 <= i < |S.Raised(py, c)| && S.Raised(py, c)[i] == l;
    assert l.finding == S.RiskFindings(py, c.kind, c.id, S.View(c.after))[i];
  }

  /** Two reported findings with the same surface and risk have the same key. */
  lemma SameSurfaceSameKey(py: S.Py, a: S.Model, b: S.Model, l: S.Located, m: S.Located)
    requires S.Originates(py, a, b, l) && S.Originates(py, a, b, m)
    requires l.finding.kind == m.finding.kind && l.finding.id == m.finding.id && l.finding.risk == m.finding.risk
    ensures l.key == m.key
  {
    hide S.Raised, S.TableOf, S.View, S.KeyOf, S.StableJson, Surfaces, StateAllowed, S.ControlOf;
    var c :| S.IsChange(py, a, b, c) && l in S.Raised(py, c);
    var d :| S.IsChange(py, a, b, d) && m in S.Raised(py, d);
    OriginListed(py, c, l);
    OriginListed(py, d, m);
  }

  /** What the static review reports is projectable, in any order, unless two of the tagged texts collide. */
  lemma ReviewIsProjectable(py: S.Py, a: S.Model, b: S.Model, ls: seq<S.Located>, hmac: Text -> Text, fs: seq<E.Finding>)
    requires S.UniqueLocations(ls) && forall l :: l in ls ==> S.Originates(py, a, b, l)
    requires multiset(RecordsOf(ls)) == multiset(fs) && CollisionFreeOn(hmac, IdentityTexts(hmac, fs))
    ensures Projectable(hmac, fs)
  {
    hide Accepted, Record, S.Originates, S.Raised, SurfaceRef, FindingId, IdentityTexts, CollisionFreeOn;
    var rs := RecordsOf(ls);
    forall i | 0 <= i < |fs| ensures Accepted(fs[i]) {
      SameElements(fs, rs, fs[i]);
      var j :| 0 <= j < |rs| && rs[j] == fs[i];
      ReportedAccepted(py, a, b, ls[j]);
    }
    var identity := (f: E.Finding) => FindingId(hmac, SurfaceRef(hmac, f.surfaceType, f.surfaceId), f.risk);
    forall i, j | 0 <= i < j < |rs| ensures identity(rs[i]) != identity(rs[j]) {
      if identity(rs[i]) == identity(rs[j]) {
        SameElements(rs, fs, rs[i]);
        SameElements(rs, fs, rs[j]);
        IdentityInjective(hmac, fs, rs[i], rs[j]);
        SameRecordSameKey(py, a, b, ls[i], ls[j]);
      }
    }
    DistinctPermuted(identity, rs, fs);
    forall i, j | 0 <= i < j < |fs|
      ensures ProjectAll(hmac, fs)[i].findingId != ProjectAll(hmac, fs)[j].findingId
    {
      assert identity(fs[i]) != identity(fs[j]);
    }
  }

  lemma TextsPermuted(hmac: Text -> Text, xs: seq<E.Finding>, ys: seq<E.Finding>)
    requires multiset(xs) == multiset(ys)
    ensures IdentityTexts(hmac, xs) == IdentityTexts(hmac, ys)
  {
    hide SurfaceText, FindingText;
    forall f: E.Finding ensures f in xs <==> f in ys {
      if f in xs { SameElements(xs, ys, f); }
      if f in ys { SameElements(ys, xs, f); }
    }
  }

  lemma ReportedAccepted(py: S.Py, a: S.Model, b: S.Model, l: S.Located)
    requires S.Originates(py, a, b, l)
    ensures Accepted(Record(l.finding))
  {
    hide Accepted, Record, S.Raised, Listed, S.IsChange;
    var c :| S.IsChange(py, a, b, c) && l in S.Raised(py, c);
    OriginListed(py, c, l);
    ListedIsAccepted(l.finding, c.kind, c.id);
  }

  lemma SameRecordSameKey(py: S.Py, a: S.Model, b: S.Model, l: S.Located, m: S.Located)
    requires S.Originates(py, a, b, l) && S.Originates(py, a, b, m)
    requires Record(l.finding).surfaceType == Record(m.finding).surfaceType
    requires Record(l.finding).surfaceId == Record(m.finding).surfaceId && Record(l.finding).risk == Record(m.finding).risk
    ensures l.key == m.key
  {
    hide S.Originates, S.KindName, RiskName;
    KindNameInjective(l.finding.kind, m.finding.kind);
    RiskNameInjective(l.finding.risk, m.finding.risk);
    SameSurfaceSameKey(py, a, b, l, m);
  }

  /**
   Every review of at most 512 findings that `review_product_models` produces and `build_review_envelope` accepts can
   be projected unless two of its tagged texts collide; the request validates unchanged and stays within 191,440 bytes.
   */
  lemma ReviewsAlwaysSync(
    py: S.Py, a: S.Model, b: S.Model, ls: seq<S.Located>, keys: Keys, x: E.Input, e: E.Envelope, projectRef: Text)
    requires E.Digests(keys.hmac) && E.Digests(keys.env.sha) && IsReference(projectRef, T("prj_"), 32)
    requires S.UniqueLocations(ls) && forall l :: l in ls ==> S.Originates(py, a, b, l)
    requires x.findings == RecordsOf(ls) && |ls| <= MAX_FINDINGS && E.Build(keys.env, x) == Some(e)
    requires CollisionFreeOn(keys.hmac, IdentityTexts(keys.hmac, x.findings))
    ensures Project(keys, e, projectRef) == Some(Assemble(keys, e, projectRef))
    ensures |Assemble(keys, e, projectRef).findings| == |ls|
    ensures Assemble(keys, e, projectRef).gate == x.gate && Assemble(keys, e, projectRef).findingCount == |ls|
    ensures Utf8Size(StableText(RequestJson(Assemble(keys, e, projectRef)))) <= 191440
  {
    hide E.Digests, IsReference, S.Originates, E.Valid, Projectable, Project, Record, E.RecordsOk, E.Body, StableText, RequestJson,
         Utf8Size, GateFor, SortById, Material, Tagged, IdentityTexts, CollisionFreeOn;
    E.BuildValidates(keys.env, x, e);
    E.BuiltCarries(keys.env, x, e);
    GateCarriedOver(keys, e, projectRef);
    TextsPermuted(keys.hmac, x.findings, e.findings);
    ReviewIsProjectable(py, a, b, ls, keys.hmac, e.findings);
    SortedLength(keys.hmac, e.findings);
    ProjectionNeverFailsLate(keys, e, projectRef);
  }
}
