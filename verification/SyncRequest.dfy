/**
 `project_findings_sync` and `validate_findings_sync_request`: what leaves the machine, and that every review
 the analyser can produce can leave it.

 `hmac` is the keyed tag of a text under the project's namespace key, in lower-case hexadecimal.
 */
module SyncRequest {
  import opened Options
  import opened Sorting
  import opened JsonText
  import opened Canonical
  import opened Records
  import opened Bounds
  import opened FindingsSync
  import E = Envelope
  import W = Worklist

  datatype SyncFinding = SyncFinding(
    findingId: Text, surfaceRef: Text, surfaceType: Text, riskCode: Text, controlCode: Text, severity: Text, reachable: bool)

  datatype Source = Source(engineVersion: Text, mode: Text, resultRef: Text)

  datatype Request = Request(
    schemaVersion: Text,
    projectRef: Text,
    source: Source,
    gate: Text,
    findingCount: int,
    blockerCount: int,
    findings: seq<SyncFinding>,
    projectionHash: Text)

  datatype Keys = Keys(hmac: Text -> Text, env: E.Env)

  // ----- pseudonymous identities ---------------------------------------------------------------

  function Strings(ts: seq<Text>): (r: seq<Json>)
    ensures |r| == |ts|
    ensures forall i :: 0 <= i < |r| ==> r[i] == Str(ts[i])
  {
    seq(|ts|, i requires 0 <= i < |ts| => Str(ts[i]))
  }

  function TagText(tag: Text, values: seq<Text>): Text { StableText(Arr(Strings([SCHEMA, tag] + values))) }

  function Tagged(hmac: Text -> Text, tag: Text, values: seq<Text>): Text { hmac(TagText(tag, values)) }

  function SurfaceRef(hmac: Text -> Text, surfaceType: Text, surfaceId: Text): Text {
    T("surf1_") + Tagged(hmac, T("surface"), [surfaceType, surfaceId])
  }

  function FindingId(hmac: Text -> Text, surfaceRef: Text, risk: Text): Text {
    T("find1_") + Tagged(hmac, T("finding"), [surfaceRef, risk])
  }

  // The two texts tagged for one finding; the second holds the tag of the first.

  function SurfaceText(f: E.Finding): Text { TagText(T("surface"), [f.surfaceType, f.surfaceId]) }

  function FindingText(hmac: Text -> Text, f: E.Finding): Text {
    TagText(T("finding"), [SurfaceRef(hmac, f.surfaceType, f.surfaceId), f.risk])
  }

  /** All texts tagged while these findings are projected. */
  function IdentityTexts(hmac: Text -> Text, fs: seq<E.Finding>): set<Text> {
    (set f | f in fs :: SurfaceText(f)) + (set f | f in fs :: FindingText(hmac, f))
  }

  lemma TagTextInjective(tag: Text, v: Text, w: Text, v': Text, w': Text)
    requires TagText(tag, [v, w]) == TagText(tag, [v', w'])
    ensures v == v' && w == w'
  {
    var xs, ys := Strings([SCHEMA, tag] + [v, w]), Strings([SCHEMA, tag] + [v', w']);
    ScalarList(xs);
    ScalarList(ys);
    StableTextInjective(Arr(xs), Arr(ys));
    assert xs[2] == ys[2] && xs[3] == ys[3];
  }

  lemma ScalarList(xs: seq<Json>)
    requires forall i :: 0 <= i < |xs| ==> xs[i].Str?
    ensures Tidy(Arr(xs))
  {
    TidyArray(xs);
  }

  /** Unless two of the tagged texts collide, the pseudonymous identity determines surface and risk. */
  lemma IdentityInjective(hmac: Text -> Text, fs: seq<E.Finding>, f: E.Finding, g: E.Finding)
    requires f in fs && g in fs && CollisionFreeOn(hmac, IdentityTexts(hmac, fs))
    requires FindingId(hmac, SurfaceRef(hmac, f.surfaceType, f.surfaceId), f.risk)
             == FindingId(hmac, SurfaceRef(hmac, g.surfaceType, g.surfaceId), g.risk)
    ensures f.surfaceType == g.surfaceType && f.surfaceId == g.surfaceId && f.risk == g.risk
  {
    hide TagText;
    var r, s := SurfaceRef(hmac, f.surfaceType, f.surfaceId), SurfaceRef(hmac, g.surfaceType, g.surfaceId);
    SamePrefix(T("find1_"), hmac(FindingText(hmac, f)), hmac(FindingText(hmac, g)));
    assert FindingText(hmac, f) in IdentityTexts(hmac, fs) && FindingText(hmac, g) in IdentityTexts(hmac, fs);
    TagTextInjective(T("finding"), r, f.risk, s, g.risk);
    SamePrefix(T("surf1_"), hmac(SurfaceText(f)), hmac(SurfaceText(g)));
    assert SurfaceText(f) in IdentityTexts(hmac, fs) && SurfaceText(g) in IdentityTexts(hmac, fs);
    TagTextInjective(T("surface"), f.surfaceType, f.surfaceId, g.surfaceType, g.surfaceId);
  }

  lemma SamePrefix(p: Text, a: Text, b: Text)
    requires p + a == p + b
    ensures a == b
  {
    assert (p + a)[|p|..] == a && (p + b)[|p|..] == b;
  }

  // ----- projection ----------------------------------------------------------------------------

  /** A finding the projection accepts: catalogued, with the catalogue's control text. */
  predicate Accepted(f: E.Finding) {
    && Catalogued(f.risk, f.surfaceType, f.severity, f.reachable)
    && f.control == ControlText(RiskOf(f.risk).value)
  }

  function Code(risk: Text): Text { if RiskOf(risk).Some? then ControlCode(RiskOf(risk).value) else [] }

  function ProjectOne(hmac: Text -> Text, f: E.Finding): SyncFinding {
    var ref := SurfaceRef(hmac, f.surfaceType, f.surfaceId);
    SyncFinding(FindingId(hmac, ref, f.risk), ref, f.surfaceType, f.risk, Code(f.risk), f.severity, f.reachable)
  }

  function ProjectAll(hmac: Text -> Text, fs: seq<E.Finding>): (r: seq<SyncFinding>)
    ensures |r| == |fs|
    ensures forall i :: 0 <= i < |r| ==> r[i] == ProjectOne(hmac, fs[i])
  {
    seq(|fs|, i requires 0 <= i < |fs| => ProjectOne(hmac, fs[i]))
  }

  predicate DistinctFindings(fs: seq<SyncFinding>) {
    forall i, j :: 0 <= i < j < |fs| ==> fs[i].findingId != fs[j].findingId
  }

  predicate Projectable(hmac: Text -> Text, fs: seq<E.Finding>) {
    (forall i :: 0 <= i < |fs| ==> Accepted(fs[i])) && DistinctFindings(ProjectAll(hmac, fs))
  }

  /** The loop of the projection: accepts exactly the catalogued findings with pairwise distinct identities. */
  method ProjectFindings(hmac: Text -> Text, fs: seq<E.Finding>) returns (r: Option<seq<SyncFinding>>)
    ensures r.Some? <==> Projectable(hmac, fs)
    ensures r.Some? ==> r.value == ProjectAll(hmac, fs)
  {
    hide Accepted, ProjectOne;
    var findings: seq<SyncFinding> := [];
    var identities: set<Text> := {};
    ghost var all := ProjectAll(hmac, fs);
    for i := 0 to |fs|
      invariant findings == all[..i]
      invariant forall j :: 0 <= j < i ==> Accepted(fs[j]) && all[j].findingId in identities
      invariant forall id :: id in identities ==> exists j :: 0 <= j < i && all[j].findingId == id
      invariant DistinctFindings(findings)
    {
      if !Accepted(fs[i]) { return None; }
      var finding := ProjectOne(hmac, fs[i]);
      if finding.findingId in identities {
        ghost var j :| 0 <= j < i && all[j].findingId == finding.findingId;
        assert !DistinctFindings(all);
        return None;
      }
      identities := identities + {finding.findingId};
      findings := findings + [finding];
    }
    assert all[..|fs|] == all;
    r := Some(findings);
  }

  // ----- the request ---------------------------------------------------------------------------

  const FINDING_KEYS: seq<Text> :=
    [T("control_code"), T("finding_id"), T("reachable"), T("risk_code"), T("severity"), T("surface_ref"), T("surface_type")]
  const SOURCE_KEYS: seq<Text> := [T("engine_version"), T("execution_mode"), T("result_ref")]
  const SUMMARY_KEYS: seq<Text> := [T("blockers"), T("findings")]
  const REQUEST_KEYS: seq<Text> :=
    [T("findings"), T("gate_status"), T("project_ref"), T("projection_hash"), T("schema_version"), T("source"), T("summary")]
  const MATERIAL_KEYS: seq<Text> := [T("findings"), T("gate_status"), T("schema_version"), T("summary")]

  function FindingValues(f: SyncFinding): seq<Json> {
    [Str(f.controlCode), Str(f.findingId), Bool(f.reachable), Str(f.riskCode), Str(f.severity), Str(f.surfaceRef), Str(f.surfaceType)]
  }

  function FindingJson(f: SyncFinding): Json { Obj(Zip(FINDING_KEYS, FindingValues(f))) }

  function SourceJson(s: Source): Json {
    Obj(Zip(SOURCE_KEYS, [Str(s.engineVersion), Str(s.mode), Str(s.resultRef)]))
  }

  function SummaryJson(findings: int, blockers: int): Json { Obj(Zip(SUMMARY_KEYS, [Int(blockers), Int(findings)])) }

  function FindingsJson(fs: seq<SyncFinding>): Json { Arr(E.Each(FindingJson, fs)) }

  function RequestJson(r: Request): Json {
    Obj(Zip(REQUEST_KEYS, [FindingsJson(r.findings), Str(r.gate), Str(r.projectRef), Str(r.projectionHash),
                           Str(r.schemaVersion), SourceJson(r.source), SummaryJson(r.findingCount, r.blockerCount)]))
  }

  /** `_projection_material` */
  function Material(r: Request): Json {
    Obj(Zip(MATERIAL_KEYS, [FindingsJson(r.findings), Str(r.gate), Str(r.schemaVersion),
                            SummaryJson(r.findingCount, r.blockerCount)]))
  }

  function BlockFlags(fs: seq<SyncFinding>): (r: seq<bool>)
    ensures |r| == |fs|
    ensures forall i :: 0 <= i < |r| ==> r[i] == (fs[i].severity == T("block"))
  {
    seq(|fs|, i requires 0 <= i < |fs| => fs[i].severity == T("block"))
  }

  function Blockers(fs: seq<SyncFinding>): (n: nat)
    ensures n <= |fs|
  {
    multiset(BlockFlags(fs))[true]
  }

  function GateFor(fs: seq<SyncFinding>): Text {
    if Blockers(fs) > 0 then T("block") else if fs != [] then T("warn") else T("pass")
  }

  function IdKey(f: SyncFinding): seq<Text> { [f.findingId] }

  function SortById(fs: seq<SyncFinding>): seq<SyncFinding> { Sort(ByKey(IdKey), fs) }

  predicate IsReference(t: Text, prefix: Text, digits: int) {
    prefix <= t && |t| == |prefix| + digits && E.LowerHex(t[|prefix|..])
  }

  predicate ValidFinding(hmac: Text -> Text, f: SyncFinding) {
    && IsReference(f.findingId, T("find1_"), 64) && IsReference(f.surfaceRef, T("surf1_"), 64)
    && Catalogued(f.riskCode, f.surfaceType, f.severity, f.reachable)
    && f.controlCode == Code(f.riskCode)
    && f.findingId == FindingId(hmac, f.surfaceRef, f.riskCode)
  }

  /** `validate_findings_sync_request` on a request with exactly the v1 fields. */
  ghost predicate Valid(keys: Keys, r: Request) {
    && W.Size(Decoded(RequestJson(r))) <= MAX_NODES && W.Everywhere(W.Portable(WIDTH), Decoded(RequestJson(r)), 0)
    && r.schemaVersion == SCHEMA && IsReference(r.projectRef, T("prj_"), 32)
    && r.source.engineVersion in E.ENGINE_VERSIONS && r.source.mode in E.MODES
    && IsReference(r.source.resultRef, T("src1_"), 64)
    && 0 <= r.findingCount <= MAX_FINDINGS && 0 <= r.blockerCount <= MAX_FINDINGS && |r.findings| <= MAX_FINDINGS
    && (forall i :: 0 <= i < |r.findings| ==> ValidFinding(keys.hmac, r.findings[i]))
    && DistinctFindings(r.findings)
    && (forall i, j :: 0 <= i < j < |r.findings| ==>
          (r.findings[i].surfaceRef, r.findings[i].riskCode) != (r.findings[j].surfaceRef, r.findings[j].riskCode))
    && r.findings == SortById(r.findings)
    && r.findingCount == |r.findings| && r.blockerCount == Blockers(r.findings) && r.gate == GateFor(r.findings)
    && E.IsDigest(r.projectionHash) && r.projectionHash == keys.env.sha(StableText(Material(r)))
    && Utf8Size(StableText(RequestJson(r))) <= MAX_BYTES
  }

  /** The request the projection assembles. */
  function Assemble(keys: Keys, e: E.Envelope, projectRef: Text): Request {
    var findings := SortById(ProjectAll(keys.hmac, e.findings));
    var r := Request(SCHEMA, projectRef,
                     Source(e.engineVersion, e.mode, T("src1_") + Tagged(keys.hmac, T("source"), [e.resultHash])),
                     GateFor(findings), |findings|, Blockers(findings), findings, []);
    r.(projectionHash := keys.env.sha(StableText(Material(r))))
  }

  /** `project_findings_sync` */
  ghost function Project(keys: Keys, e: E.Envelope, projectRef: Text): Option<Request> {
    if !IsReference(projectRef, T("prj_"), 32) || !E.Valid(keys.env, e) || |e.findings| > MAX_FINDINGS
       || !Projectable(keys.hmac, e.findings) then None
    else
      var r := Assemble(keys, e, projectRef);
      if Valid(keys, r) then Some(r) else None
  }
}
