/**
 The content-addressed review envelope: `build_review_envelope` and `validate_review_envelope`.

 Records are typed, so the checks that an object has exactly the expected fields are the types themselves.
 `blank` is Python's `not text.strip()`, `sha` the SHA-256 of a text in lower-case hexadecimal.
 */
module Envelope {
  import opened Options
  import opened Sorting
  import opened JsonText
  import opened Canonical
  import opened Records
  import W = Worklist

  datatype Evidence = Evidence(state: Text, source: Text, disposition: Text)

  datatype Finding = Finding(
    surfaceType: Text, surfaceId: Text, risk: Text, severity: Text, control: Text, reason: Text, reachable: bool,
    evidence: Option<Evidence>)

  datatype Regression = Regression(
    surfaceType: Text, surfaceId: Text, name: Text, expectedStatus: Text, scenarioHint: Text, safety: Text)

  datatype Question = Question(id: Text, fieldName: Text, surface: Text, prompt: Text, required: bool)

  datatype Safety = Safety(mode: Text, liveProbing: bool, networkCalls: bool, requiresSignedScope: bool, canaryOnly: bool)

  datatype Privacy = Privacy(execution: Text, networkCalls: bool, uploaded: bool, syncIntent: Text)

  datatype Summary = Summary(findings: int, blockers: int, questions: int)

  datatype Envelope = Envelope(
    reviewId: Text,
    resultHash: Text,
    schemaVersion: Text,
    engineVersion: Text,
    productId: Text,
    sourceHash: Text,
    modelHash: Text,
    baselineHash: Option<Text>,
    mode: Text,
    gate: Text,
    summary: Summary,
    findings: seq<Finding>,
    controls: seq<Finding>,
    regressions: seq<Regression>,
    questions: seq<Question>,
    safety: Safety,
    privacy: Privacy)

  /** What `build_review_envelope` is given. */
  datatype Input = Input(
    productId: Text,
    gate: Text,
    findings: seq<Finding>,
    controls: seq<Finding>,
    regressions: seq<Regression>,
    questions: seq<Question>,
    safety: Safety,
    sourceHash: Text,
    modelHash: Text,
    baselineHash: Option<Text>,
    mode: Text)

  datatype Env = Env(blank: Text -> bool, sha: Text -> Text)

  // ----- canonical text of the records ---------------------------------------------------------

  const FINDING_KEYS: seq<Text> :=
    [T("control"), T("reachable"), T("reason"), T("risk"), T("severity"), T("surface_id"), T("surface_type")]

  const EVIDENCED_KEYS: seq<Text> :=
    [T("control"), T("evidence_state"), T("execution_disposition"), T("reachable"), T("reason"), T("risk"),
     T("rule_source"), T("severity"), T("surface_id"), T("surface_type")]

  const REGRESSION_KEYS: seq<Text> :=
    [T("expected_status"), T("name"), T("safety"), T("scenario_hint"), T("surface_id"), T("surface_type")]

  const QUESTION_KEYS: seq<Text> := [T("field"), T("id"), T("prompt"), T("required"), T("surface")]

  const SIGNED_SCOPE_KEY: Text := T("requires_signed_scope") + T("_for_live_or_staging_runs")

  const SAFETY_KEYS: seq<Text> :=
    [T("canary_only"), T("live_probing"), T("mode"), T("network_calls"), SIGNED_SCOPE_KEY]

  const PRIVACY_KEYS: seq<Text> := [T("execution"), T("network_calls"), T("sync_intent"), T("uploaded")]

  const SUMMARY_KEYS: seq<Text> := [T("blockers"), T("findings"), T("questions")]

  const BODY_KEYS: seq<Text> :=
    [T("baseline_hash"), T("engine_version"), T("execution_mode"), T("findings"), T("gate_status"), T("model_hash"),
     T("privacy"), T("product_id"), T("questions"), T("recommended_controls"), T("safety"), T("schema_version"),
     T("source_hash"), T("suggested_regressions"), T("summary")]

  function FindingJson(f: Finding): Json {
    match f.evidence
    case None =>
      Obj(Zip(FINDING_KEYS, [Str(f.control), Bool(f.reachable), Str(f.reason), Str(f.risk), Str(f.severity),
                             Str(f.surfaceId), Str(f.surfaceType)]))
    case Some(e) =>
      Obj(Zip(EVIDENCED_KEYS, [Str(f.control), Str(e.state), Str(e.disposition), Bool(f.reachable), Str(f.reason),
                               Str(f.risk), Str(e.source), Str(f.severity), Str(f.surfaceId), Str(f.surfaceType)]))
  }

  function RegressionJson(r: Regression): Json {
    Obj(Zip(REGRESSION_KEYS, [Str(r.expectedStatus), Str(r.name), Str(r.safety), Str(r.scenarioHint), Str(r.surfaceId),
                              Str(r.surfaceType)]))
  }

  function QuestionJson(q: Question): Json {
    Obj(Zip(QUESTION_KEYS, [Str(q.fieldName), Str(q.id), Str(q.prompt), Bool(q.required), Str(q.surface)]))
  }

  function SafetyJson(s: Safety): Json {
    Obj(Zip(SAFETY_KEYS, [Bool(s.canaryOnly), Bool(s.liveProbing), Str(s.mode), Bool(s.networkCalls),
                          Bool(s.requiresSignedScope)]))
  }

  function PrivacyJson(p: Privacy): Json {
    Obj(Zip(PRIVACY_KEYS, [Str(p.execution), Bool(p.networkCalls), Str(p.syncIntent), Bool(p.uploaded)]))
  }

  function SummaryJson(s: Summary): Json {
    Obj(Zip(SUMMARY_KEYS, [Int(s.blockers), Int(s.findings), Int(s.questions)]))
  }

  function Each<A>(f: A -> Json, xs: seq<A>): (r: seq<Json>)
    ensures |r| == |xs|
    ensures forall i :: 0 <= i < |r| ==> r[i] == f(xs[i])
  {
    seq(|xs|, i requires 0 <= i < |xs| => f(xs[i]))
  }

  function BodyValues(e: Envelope): (r: seq<Json>)
    ensures |r| == |BODY_KEYS|
  {
    [if e.baselineHash.Some? then Str(e.baselineHash.value) else Null, Str(e.engineVersion), Str(e.mode),
     Arr(Each(FindingJson, e.findings)), Str(e.gate), Str(e.modelHash), PrivacyJson(e.privacy), Str(e.productId),
     Arr(Each(QuestionJson, e.questions)), Arr(Each(FindingJson, e.controls)), SafetyJson(e.safety),
     Str(e.schemaVersion), Str(e.sourceHash), Arr(Each(RegressionJson, e.regressions)), SummaryJson(e.summary)]
  }

  /** Everything but the identifier and the hash. */
  function Body(e: Envelope): Json { Obj(Zip(BODY_KEYS, BodyValues(e))) }

  // ----- ordering ------------------------------------------------------------------------------

  function FindingKey(f: Finding): seq<Text> {
    [if f.severity == T("block") then T("0") else T("1"), f.surfaceType, f.surfaceId, f.risk, StableText(FindingJson(f))]
  }

  function ControlKey(f: Finding): seq<Text> { [StableText(FindingJson(f))] }

  function RegressionKey(r: Regression): seq<Text> { [StableText(RegressionJson(r))] }

  function QuestionKey(q: Question): seq<Text> { [StableText(QuestionJson(q))] }

  function SortFindings(fs: seq<Finding>): seq<Finding> { Sort(ByKey(FindingKey), fs) }

  function SortControls(fs: seq<Finding>): seq<Finding> { Sort(ByKey(ControlKey), fs) }

  function SortRegressions(rs: seq<Regression>): seq<Regression> { Sort(ByKey(RegressionKey), rs) }

  function SortQuestions(qs: seq<Question>): seq<Question> { Sort(ByKey(QuestionKey), qs) }

  // ----- field checks --------------------------------------------------------------------------

  predicate Named(env: Env, t: Text) {
    !env.blank(t) && forall i :: 0 <= i < |t| ==> !IsSurrogate(t[i])
  }

  predicate LowerHex(t: Text) { forall i :: 0 <= i < |t| ==> 0x30 <= t[i] <= 0x39 || 0x61 <= t[i] <= 0x66 }

  predicate IsDigest(t: Text) { |t| == 64 && LowerHex(t) }

  const ENGINE_VERSION := T("1.3.0rc2")
  const ENGINE_VERSIONS: seq<Text> := [T("1.1.0"), T("1.1.1"), T("1.2.0"), T("1.3.0rc1"), T("1.3.0rc2")]
  const MODES: seq<Text> := [T("browser_local"), T("machine_local"), T("cloud_isolated")]
  const EVIDENCE_STATES: seq<Text> := [T("unknown"), T("customer_declared"), T("inferred")]
  const STATIC_SAFETY: Safety := Safety(T("static ProductModel diff"), false, false, true, true)

  predicate ValidFinding(env: Env, f: Finding) {
    && Named(env, f.surfaceType) && Named(env, f.surfaceId) && Named(env, f.risk) && Named(env, f.severity)
    && Named(env, f.control) && Named(env, f.reason)
    && (f.severity == T("warn") || f.severity == T("block"))
    && (f.evidence.Some? ==>
          && f.evidence.value.state in EVIDENCE_STATES && f.evidence.value.disposition == T("static_only")
          && Named(env, f.evidence.value.state) && Named(env, f.evidence.value.source)
          && Named(env, f.evidence.value.disposition))
  }

  predicate ValidRegression(env: Env, r: Regression) {
    && Named(env, r.surfaceType) && Named(env, r.surfaceId) && Named(env, r.name) && Named(env, r.expectedStatus)
    && Named(env, r.scenarioHint) && Named(env, r.safety)
  }

  predicate ValidQuestion(env: Env, q: Question) {
    Named(env, q.id) && Named(env, q.fieldName) && Named(env, q.surface) && Named(env, q.prompt)
  }

  predicate All<A>(ok: A -> bool, xs: seq<A>) { forall i :: 0 <= i < |xs| ==> ok(xs[i]) }

  predicate RecordsOk(env: Env, findings: seq<Finding>, controls: seq<Finding>, regressions: seq<Regression>,
                      questions: seq<Question>)
  {
    && All((f: Finding) => ValidFinding(env, f), findings)
    && All((f: Finding) => ValidFinding(env, f), controls)
    && All((r: Regression) => ValidRegression(env, r), regressions)
    && All((q: Question) => ValidQuestion(env, q), questions)
  }

  function Blockers(fs: seq<Finding>): (n: nat)
    ensures n <= |fs|
  {
    multiset(SeverityFlags(fs))[true]
  }

  function SeverityFlags(fs: seq<Finding>): (r: seq<bool>)
    ensures |r| == |fs|
    ensures forall i :: 0 <= i < |r| ==> r[i] == (fs[i].severity == T("block"))
  {
    seq(|fs|, i requires 0 <= i < |fs| => fs[i].severity == T("block"))
  }

  function GateFor(fs: seq<Finding>): Text {
    if Blockers(fs) > 0 then T("block") else if fs != [] then T("warn") else T("pass")
  }

  function PrivacyFor(mode: Text): Privacy {
    var cloud := mode == T("cloud_isolated");
    Privacy(mode, false, cloud, if cloud then T("sanitized_model") else T("none"))
  }

  predicate HashesOk(source: Text, model: Text, baseline: Option<Text>) {
    IsDigest(source) && IsDigest(model) && (baseline.Some? ==> IsDigest(baseline.value))
  }

  function ReviewId(hash: Text): Text { T("review_") + if |hash| >= 20 then hash[..20] else hash }

  // ----- build and validate --------------------------------------------------------------------

  /** `build_review_envelope`; nothing stands for the `ValueError` of a failed check. */
  function Build(env: Env, x: Input): Option<Envelope> {
    if !(x.mode in MODES) || !Named(env, x.productId) then None
    else if !(x.gate in [T("pass"), T("warn"), T("block")]) then None
    else if !RecordsOk(env, x.findings, x.controls, x.regressions, x.questions) || x.safety != STATIC_SAFETY then None
    else if x.gate != GateFor(x.findings) || !HashesOk(x.sourceHash, x.modelHash, x.baselineHash) then None
    else if |x.findings| > W.SAFE_INT || |x.questions| > W.SAFE_INT then None
    else
      var summary := Summary(|x.findings|, Blockers(x.findings), |x.questions|);
      var body := Envelope([], [], T("heel.review.v1"), ENGINE_VERSION, x.productId, x.sourceHash, x.modelHash, x.baselineHash,
                           x.mode, x.gate, summary, SortFindings(x.findings), SortControls(x.controls),
                           SortRegressions(x.regressions), SortQuestions(x.questions), STATIC_SAFETY, PrivacyFor(x.mode));
      var hash := env.sha(StableText(Body(body)));
      Some(body.(reviewId := ReviewId(hash), resultHash := hash))
  }

  /** `validate_review_envelope`, which returns its argument or raises. */
  predicate Valid(env: Env, e: Envelope) {
    && e.schemaVersion == T("heel.review.v1") && e.engineVersion in ENGINE_VERSIONS
    && Named(env, e.productId) && HashesOk(e.sourceHash, e.modelHash, e.baselineHash)
    && e.mode in MODES && e.gate in [T("pass"), T("warn"), T("block")]
    && RecordsOk(env, e.findings, e.controls, e.regressions, e.questions) && e.safety == STATIC_SAFETY
    && e.findings == SortFindings(e.findings) && e.controls == SortControls(e.controls)
    && e.regressions == SortRegressions(e.regressions) && e.questions == SortQuestions(e.questions)
    && e.gate == GateFor(e.findings)
    && 0 <= e.summary.findings <= W.SAFE_INT && 0 <= e.summary.blockers <= W.SAFE_INT && 0 <= e.summary.questions <= W.SAFE_INT
    && e.summary == Summary(|e.findings|, Blockers(e.findings), |e.questions|)
    && e.privacy == PrivacyFor(e.mode)
    && e.safety.networkCalls == e.privacy.networkCalls
    && IsDigest(e.resultHash) && e.resultHash == env.sha(StableText(Body(e)))
    && e.reviewId == ReviewId(e.resultHash)
  }

  // ----- the records are canonical -------------------------------------------------------------

  lemma ScalarsTidy(values: seq<Json>)
    requires forall i :: 0 <= i < |values| ==> values[i].Str? || values[i].Bool? || values[i].Int? || values[i].Null?
    ensures AllTidy(values)
  {
  }

  lemma FindingKeysAscend()
    ensures Ascending(FINDING_KEYS)
  {
    LessAt(T("control"), T("reachable"), 0);
    LessAt(T("reachable"), T("reason"), 3);
    LessAt(T("reason"), T("risk"), 1);
    LessAt(T("risk"), T("severity"), 0);
    LessAt(T("severity"), T("surface_id"), 1);
    LessAt(T("surface_id"), T("surface_type"), 8);
  }

  lemma EvidencedKeysAscend()
    ensures Ascending(EVIDENCED_KEYS)
  {
    LessAt(T("control"), T("evidence_state"), 0);
    LessAt(T("evidence_state"), T("execution_disposition"), 1);
    LessAt(T("execution_disposition"), T("reachable"), 0);
    LessAt(T("risk"), T("rule_source"), 1);
    LessAt(T("rule_source"), T("severity"), 0);
    FindingKeysAscend();
    assert FINDING_KEYS[1] == T("reachable") && FINDING_KEYS[2] == T("reason") && FINDING_KEYS[3] == T("risk");
    assert FINDING_KEYS[4] == T("severity") && FINDING_KEYS[5] == T("surface_id") && FINDING_KEYS[6] == T("surface_type");
  }

  lemma RegressionKeysAscend()
    ensures Ascending(REGRESSION_KEYS)
  {
    LessAt(T("expected_status"), T("name"), 0);
    LessAt(T("name"), T("safety"), 0);
    LessAt(T("safety"), T("scenario_hint"), 1);
    LessAt(T("scenario_hint"), T("surface_id"), 1);
    LessAt(T("surface_id"), T("surface_type"), 8);
  }

  lemma QuestionKeysAscend()
    ensures Ascending(QUESTION_KEYS)
  {
    LessAt(T("field"), T("id"), 0);
    LessAt(T("id"), T("prompt"), 0);
    LessAt(T("prompt"), T("required"), 0);
    LessAt(T("required"), T("surface"), 0);
  }

  lemma SmallKeysAscend()
    ensures Ascending(SAFETY_KEYS) && Ascending(PRIVACY_KEYS) && Ascending(SUMMARY_KEYS)
  {
    LessAt(T("canary_only"), T("live_probing"), 0);
    LessAt(T("live_probing"), T("mode"), 0);
    LessAt(T("mode"), T("network_calls"), 0);
    LessAt(T("network_calls"), SIGNED_SCOPE_KEY, 0);
    LessAt(T("execution"), T("network_calls"), 0);
    LessAt(T("network_calls"), T("sync_intent"), 0);
    LessAt(T("sync_intent"), T("uploaded"), 0);
    LessAt(T("blockers"), T("findings"), 0);
    LessAt(T("findings"), T("questions"), 0);
  }

  lemma BodyKeysAscend()
    ensures Ascending(BODY_KEYS)
  {
    LessAt(T("baseline_hash"), T("engine_version"), 0);
    LessAt(T("engine_version"), T("execution_mode"), 1);
    LessAt(T("execution_mode"), T("findings"), 0);
    LessAt(T("findings"), T("gate_status"), 0);
    LessAt(T("gate_status"), T("model_hash"), 0);
    LessAt(T("model_hash"), T("privacy"), 0);
    LessAt(T("privacy"), T("product_id"), 2);
    LessAt(T("product_id"), T("questions"), 0);
    LessAt(T("questions"), T("recommended_controls"), 0);
    LessAt(T("recommended_controls"), T("safety"), 0);
    LessAt(T("safety"), T("schema_version"), 1);
    LessAt(T("schema_version"), T("source_hash"), 1);
    LessAt(T("source_hash"), T("suggested_regressions"), 1);
    LessAt(T("suggested_regressions"), T("summary"), 2);
  }

  lemma RecordsTidy()
    ensures forall f :: Tidy(FindingJson(f))
    ensures forall r :: Tidy(RegressionJson(r))
    ensures forall q :: Tidy(QuestionJson(q))
  {
    hide Tidy, Ascending;
    forall f ensures Tidy(FindingJson(f)) { FindingTidy(f); }
    forall r ensures Tidy(RegressionJson(r)) { RegressionTidy(r); }
    forall q ensures Tidy(QuestionJson(q)) { QuestionTidy(q); }
  }

  lemma FindingTidy(f: Finding)
    ensures Tidy(FindingJson(f))
  {
    hide Tidy, Ascending, AllTidy;
    if f.evidence.Some? {
      EvidencedKeysAscend();
      var e := f.evidence.value;
      var vs := [Str(f.control), Str(e.state), Str(e.disposition), Bool(f.reachable), Str(f.reason),
                 Str(f.risk), Str(e.source), Str(f.severity), Str(f.surfaceId), Str(f.surfaceType)];
      ScalarsTidy(vs);
      TidyRecord(EVIDENCED_KEYS, vs);
    } else {
      FindingKeysAscend();
      var vs := [Str(f.control), Bool(f.reachable), Str(f.reason), Str(f.risk), Str(f.severity),
                 Str(f.surfaceId), Str(f.surfaceType)];
      ScalarsTidy(vs);
      TidyRecord(FINDING_KEYS, vs);
    }
  }

  lemma RegressionTidy(r: Regression)
    ensures Tidy(RegressionJson(r))
  {
    hide Tidy, Ascending, AllTidy;
    RegressionKeysAscend();
    var vs := [Str(r.expectedStatus), Str(r.name), Str(r.safety), Str(r.scenarioHint), Str(r.surfaceId),
               Str(r.surfaceType)];
    ScalarsTidy(vs);
    TidyRecord(REGRESSION_KEYS, vs);
  }

  lemma QuestionTidy(q: Question)
    ensures Tidy(QuestionJson(q))
  {
    hide Tidy, Ascending, AllTidy;
    QuestionKeysAscend();
    var vs := [Str(q.fieldName), Str(q.id), Str(q.prompt), Bool(q.required), Str(q.surface)];
    ScalarsTidy(vs);
    TidyRecord(QUESTION_KEYS, vs);
  }

  lemma SmallTidy(e: Envelope)
    ensures Tidy(SafetyJson(e.safety)) && Tidy(PrivacyJson(e.privacy)) && Tidy(SummaryJson(e.summary))
  {
    hide Tidy, Ascending, AllTidy;
    SmallKeysAscend();
    var s, p, n := e.safety, e.privacy, e.summary;
    var vs := [Bool(s.canaryOnly), Bool(s.liveProbing), Str(s.mode), Bool(s.networkCalls), Bool(s.requiresSignedScope)];
    ScalarsTidy(vs);
    TidyRecord(SAFETY_KEYS, vs);
    var ws := [Str(p.execution), Bool(p.networkCalls), Str(p.syncIntent), Bool(p.uploaded)];
    ScalarsTidy(ws);
    TidyRecord(PRIVACY_KEYS, ws);
    var us := [Int(n.blockers), Int(n.findings), Int(n.questions)];
    ScalarsTidy(us);
    TidyRecord(SUMMARY_KEYS, us);
  }

  lemma ScalarTidy(v: Json)
    requires v.Str? || v.Null?
    ensures Tidy(v)
  {
  }

  lemma BodyTidy(e: Envelope)
    ensures Tidy(Body(e))
  {
    hide Tidy, Ascending, FindingJson, RegressionJson, QuestionJson, SafetyJson, PrivacyJson, SummaryJson;
    BodyKeysAscend();
    SmallTidy(e);
    forall v: Json | v.Str? || v.Null? ensures Tidy(v) { ScalarTidy(v); }
    RecordsTidy();
    TidyArray(Each(FindingJson, e.findings));
    TidyArray(Each(FindingJson, e.controls));
    TidyArray(Each(RegressionJson, e.regressions));
    TidyArray(Each(QuestionJson, e.questions));
    TidyRecord(BODY_KEYS, BodyValues(e));
  }

  // ----- the records are determined by their text ----------------------------------------------

  lemma FindingInjective(f: Finding, g: Finding)
    requires FindingJson(f) == FindingJson(g)
    ensures f == g
  {
    var fs, gs := FindingJson(f).fields, FindingJson(g).fields;
    assert |fs| == if f.evidence.Some? then 10 else 7;
    assert |gs| == if g.evidence.Some? then 10 else 7;
    assert forall i :: 0 <= i < |fs| ==> fs[i].value == gs[i].value;
    assert fs[0].value == gs[0].value && fs[1].value == gs[1].value && fs[2].value == gs[2].value && fs[3].value == gs[3].value;
    assert fs[4].value == gs[4].value && fs[5].value == gs[5].value && fs[6].value == gs[6].value;
    if f.evidence.Some? {
      assert fs[7].value == gs[7].value && fs[8].value == gs[8].value && fs[9].value == gs[9].value;
    }
  }

  lemma RegressionInjective(r: Regression, s: Regression)
    requires RegressionJson(r) == RegressionJson(s)
    ensures r == s
  {
    var fs, gs := RegressionJson(r).fields, RegressionJson(s).fields;
    assert fs[0].value == gs[0].value && fs[1].value == gs[1].value && fs[2].value == gs[2].value;
    assert fs[3].value == gs[3].value && fs[4].value == gs[4].value && fs[5].value == gs[5].value;
  }

  lemma QuestionInjective(q: Question, p: Question)
    requires QuestionJson(q) == QuestionJson(p)
    ensures q == p
  {
    var fs, gs := QuestionJson(q).fields, QuestionJson(p).fields;
    assert fs[0].value == gs[0].value && fs[1].value == gs[1].value && fs[2].value == gs[2].value;
    assert fs[3].value == gs[3].value && fs[4].value == gs[4].value;
  }

  lemma SmallInjective(d: Envelope, e: Envelope)
    requires SafetyJson(d.safety) == SafetyJson(e.safety) && PrivacyJson(d.privacy) == PrivacyJson(e.privacy)
    requires SummaryJson(d.summary) == SummaryJson(e.summary)
    ensures d.safety == e.safety && d.privacy == e.privacy && d.summary == e.summary
  {
    var fs, gs := SafetyJson(d.safety).fields, SafetyJson(e.safety).fields;
    assert fs[0].value == gs[0].value && fs[1].value == gs[1].value && fs[2].value == gs[2].value;
    assert fs[3].value == gs[3].value && fs[4].value == gs[4].value;
    var ps, qs := PrivacyJson(d.privacy).fields, PrivacyJson(e.privacy).fields;
    assert ps[0].value == qs[0].value && ps[1].value == qs[1].value && ps[2].value == qs[2].value && ps[3].value == qs[3].value;
    var ss, ts := SummaryJson(d.summary).fields, SummaryJson(e.summary).fields;
    assert ss[0].value == ts[0].value && ss[1].value == ts[1].value && ss[2].value == ts[2].value;
  }

  lemma EachInjective<A(!new)>(f: A -> Json, xs: seq<A>, ys: seq<A>)
    requires Each(f, xs) == Each(f, ys) && forall a, b :: f(a) == f(b) ==> a == b
    ensures xs == ys
  {
    assert |xs| == |ys|;
    forall i | 0 <= i < |xs| ensures xs[i] == ys[i] { assert Each(f, xs)[i] == Each(f, ys)[i]; }
  }

  lemma RecordsInjective()
    ensures forall f, g :: FindingJson(f) == FindingJson(g) ==> f == g
    ensures forall r, s :: RegressionJson(r) == RegressionJson(s) ==> r == s
    ensures forall q, p :: QuestionJson(q) == QuestionJson(p) ==> q == p
  {
    hide FindingJson, RegressionJson, QuestionJson;
    forall f, g | FindingJson(f) == FindingJson(g) ensures f == g { FindingInjective(f, g); }
    forall r, s | RegressionJson(r) == RegressionJson(s) ensures r == s { RegressionInjective(r, s); }
    forall q, p | QuestionJson(q) == QuestionJson(p) ensures q == p { QuestionInjective(q, p); }
  }

  /** Two envelopes with the same body agree on every field but identifier and hash. */
  lemma BodyInjective(d: Envelope, e: Envelope)
    requires Body(d) == Body(e)
    ensures d.(reviewId := [], resultHash := []) == e.(reviewId := [], resultHash := [])
  {
    RecordInjective(BODY_KEYS, BodyValues(d), BodyValues(e));
    ValuesInjective(d, e);
  }

  lemma ValuesInjective(d: Envelope, e: Envelope)
    requires BodyValues(d) == BodyValues(e)
    ensures d.(reviewId := [], resultHash := []) == e.(reviewId := [], resultHash := [])
  {
    hide FindingJson, RegressionJson, QuestionJson, SafetyJson, PrivacyJson, SummaryJson;
    var vs, ws := BodyValues(d), BodyValues(e);
    assert vs[0] == ws[0] && vs[1] == ws[1] && vs[2] == ws[2] && vs[3] == ws[3] && vs[4] == ws[4];
    assert vs[5] == ws[5] && vs[6] == ws[6] && vs[7] == ws[7] && vs[8] == ws[8] && vs[9] == ws[9];
    assert vs[10] == ws[10] && vs[11] == ws[11] && vs[12] == ws[12] && vs[13] == ws[13] && vs[14] == ws[14];
    RecordsInjective();
    EachInjective(FindingJson, d.findings, e.findings);
    EachInjective(FindingJson, d.controls, e.controls);
    EachInjective(RegressionJson, d.regressions, e.regressions);
    EachInjective(QuestionJson, d.questions, e.questions);
    SmallInjective(d, e);
  }

  lemma KeysSeparate()
    ensures Separates(FindingKey) && Separates(ControlKey) && Separates(RegressionKey) && Separates(QuestionKey)
  {
    hide FindingJson, RegressionJson, QuestionJson, StableText, Tidy;
    RecordsTidy();
    RecordsInjective();
    forall f, g | FindingKey(f) == FindingKey(g) ensures f == g {
      assert FindingKey(f)[4] == FindingKey(g)[4];
      StableTextInjective(FindingJson(f), FindingJson(g));
    }
    forall f, g | ControlKey(f) == ControlKey(g) ensures f == g {
      assert ControlKey(f)[0] == ControlKey(g)[0];
      StableTextInjective(FindingJson(f), FindingJson(g));
    }
    forall r, s | RegressionKey(r) == RegressionKey(s) ensures r == s {
      assert RegressionKey(r)[0] == RegressionKey(s)[0];
      StableTextInjective(RegressionJson(r), RegressionJson(s));
    }
    forall q, p | QuestionKey(q) == QuestionKey(p) ensures q == p {
      assert QuestionKey(q)[0] == QuestionKey(p)[0];
      StableTextInjective(QuestionJson(q), QuestionJson(p));
    }
  }

  // ----- the theorems --------------------------------------------------------------------------

  /** Every value is written as a digest. */
  ghost predicate Digests(sha: Text -> Text) {
    forall t :: IsDigest(sha(t))
  }

  /** Valid envelopes with equal result hashes are equal, unless the texts of their bodies collide. */
  lemma EqualHashEqualEnvelope(env: Env, d: Envelope, e: Envelope)
    requires CollisionFreeOn(env.sha, {StableText(Body(d)), StableText(Body(e))})
    requires Valid(env, d) && Valid(env, e) && d.resultHash == e.resultHash
    ensures d == e
  {
    hide Body, StableText, RecordsOk, SortFindings, SortControls, SortRegressions, SortQuestions, GateFor, PrivacyFor, HashesOk;
    BodyTidy(d);
    BodyTidy(e);
    StableTextInjective(Body(d), Body(e));
    BodyInjective(d, e);
  }

  lemma {:induction false} AllPermuted<A>(ok: A -> bool, xs: seq<A>, ys: seq<A>)
    requires multiset(xs) == multiset(ys)
    ensures All(ok, xs) <==> All(ok, ys)
  {
    if All(ok, xs) {
      forall i | 0 <= i < |ys| ensures ok(ys[i]) { SameElements(ys, xs, ys[i]); }
    }
    if All(ok, ys) {
      forall i | 0 <= i < |xs| ensures ok(xs[i]) { SameElements(xs, ys, xs[i]); }
    }
  }

  /** The multiset of a mapped sequence depends on the multiset only. */
  lemma {:induction false} FlagsPermuted(xs: seq<Finding>, ys: seq<Finding>)
    requires multiset(xs) == multiset(ys)
    ensures multiset(SeverityFlags(xs)) == multiset(SeverityFlags(ys))
    decreases |xs|
  {
    assert |multiset(xs)| == |xs| && |multiset(ys)| == |ys|;
    if xs != [] {
      SameElements(xs, ys, xs[0]);
      var j :| 0 <= j < |ys| && ys[j] == xs[0];
      var rest := ys[..j] + ys[j + 1..];
      assert ys == (ys[..j] + [ys[j]]) + ys[j + 1..];
      TailMultiset(xs);
      assert multiset(rest) == multiset(ys) - multiset{ys[j]};
      FlagsPermuted(xs[1..], rest);
      FlagsHead(xs);
      FlagsMiddle(ys, j);
    }
  }

  lemma FlagsHead(xs: seq<Finding>)
    requires xs != []
    ensures multiset(SeverityFlags(xs)) == multiset(SeverityFlags(xs[1..])) + multiset{xs[0].severity == T("block")}
  {
    assert SeverityFlags(xs) == [xs[0].severity == T("block")] + SeverityFlags(xs[1..]);
  }

  lemma FlagsMiddle(ys: seq<Finding>, j: nat)
    requires j < |ys|
    ensures multiset(SeverityFlags(ys)) ==
              multiset(SeverityFlags(ys[..j] + ys[j + 1..])) + multiset{ys[j].severity == T("block")}
  {
    var fs, gs := SeverityFlags(ys), SeverityFlags(ys[..j] + ys[j + 1..]);
    assert fs == (gs[..j] + [ys[j].severity == T("block")]) + gs[j..];
    assert gs == gs[..j] + gs[j..];
  }

  /** Two inputs that differ in the order of their lists only. */
  ghost predicate SameUpToOrder(x: Input, y: Input) {
    && multiset(x.findings) == multiset(y.findings) && multiset(x.controls) == multiset(y.controls)
    && multiset(x.regressions) == multiset(y.regressions) && multiset(x.questions) == multiset(y.questions)
    && x == y.(findings := x.findings, controls := x.controls, regressions := x.regressions, questions := x.questions)
  }

  /** Building is invariant under every permutation of findings, controls, regressions and questions. */
  lemma BuildIgnoresOrder(env: Env, x: Input, y: Input)
    requires SameUpToOrder(x, y)
    ensures Build(env, x) == Build(env, y)
  {
    KeysSeparate();
    hide FindingKey, ControlKey, RegressionKey, QuestionKey, Body, StableText, Sort, ValidFinding, ValidRegression, ValidQuestion;
    SortByKey(FindingKey, x.findings, y.findings);
    SortByKey(ControlKey, x.controls, y.controls);
    SortByKey(RegressionKey, x.regressions, y.regressions);
    SortByKey(QuestionKey, x.questions, y.questions);
    AllPermuted((f: Finding) => ValidFinding(env, f), x.findings, y.findings);
    AllPermuted((f: Finding) => ValidFinding(env, f), x.controls, y.controls);
    AllPermuted((r: Regression) => ValidRegression(env, r), x.regressions, y.regressions);
    AllPermuted((q: Question) => ValidQuestion(env, q), x.questions, y.questions);
    FlagsPermuted(x.findings, y.findings);
    SameLength(x.findings, y.findings);
    SameLength(x.questions, y.questions);
  }

  /** What is built always passes validation unchanged. */
  lemma BuildValidates(env: Env, x: Input, e: Envelope)
    requires Digests(env.sha) && Build(env, x) == Some(e)
    ensures Valid(env, e)
  {
    KeysSeparate();
    hide FindingKey, ControlKey, RegressionKey, QuestionKey, StableText, Sort, ValidFinding, ValidRegression, ValidQuestion;
    SortByKey(FindingKey, x.findings, x.findings);
    SortByKey(ControlKey, x.controls, x.controls);
    SortByKey(RegressionKey, x.regressions, x.regressions);
    SortByKey(QuestionKey, x.questions, x.questions);
    AllPermuted((f: Finding) => ValidFinding(env, f), x.findings, SortFindings(x.findings));
    AllPermuted((f: Finding) => ValidFinding(env, f), x.controls, SortControls(x.controls));
    AllPermuted((r: Regression) => ValidRegression(env, r), x.regressions, SortRegressions(x.regressions));
    AllPermuted((q: Question) => ValidQuestion(env, q), x.questions, SortQuestions(x.questions));
    FlagsPermuted(x.findings, SortFindings(x.findings));
    assert Body(e) == Body(e.(reviewId := [], resultHash := []));
    assert ENGINE_VERSIONS[4] == ENGINE_VERSION;
  }

  /** The envelope is about this input: same subject, verdict and mode, and the same records in some order. */
  ghost predicate Carries(e: Envelope, x: Input) {
    && e.productId == x.productId && e.sourceHash == x.sourceHash && e.modelHash == x.modelHash && e.baselineHash == x.baselineHash
    && e.mode == x.mode && e.gate == x.gate && e.safety == x.safety && e.engineVersion == ENGINE_VERSION
    && multiset(e.findings) == multiset(x.findings) && multiset(e.controls) == multiset(x.controls)
    && multiset(e.regressions) == multiset(x.regressions) && multiset(e.questions) == multiset(x.questions)
  }

  lemma BuiltCarries(env: Env, x: Input, e: Envelope)
    requires Build(env, x) == Some(e)
    ensures Carries(e, x)
  {
    hide Body, StableText, RecordsOk, FindingKey, ControlKey, RegressionKey, QuestionKey, GateFor, PrivacyFor, HashesOk, Named;
  }

  /** A valid envelope that carries the input is the one that is built. */
  lemma OnlyValidIsBuilt(env: Env, x: Input, e: Envelope)
    requires Valid(env, e) && Carries(e, x)
    ensures Build(env, x) == Some(e)
  {
    KeysSeparate();
    hide FindingKey, ControlKey, RegressionKey, QuestionKey, Body, StableText, Sort, ValidFinding, ValidRegression, ValidQuestion,
         Named, HashesOk, PrivacyFor, IsDigest;
    SortByKey(FindingKey, e.findings, x.findings);
    SortByKey(ControlKey, e.controls, x.controls);
    SortByKey(RegressionKey, e.regressions, x.regressions);
    SortByKey(QuestionKey, e.questions, x.questions);
    AllPermuted((f: Finding) => ValidFinding(env, f), e.findings, x.findings);
    AllPermuted((f: Finding) => ValidFinding(env, f), e.controls, x.controls);
    AllPermuted((r: Regression) => ValidRegression(env, r), e.regressions, x.regressions);
    AllPermuted((q: Question) => ValidQuestion(env, q), e.questions, x.questions);
    FlagsPermuted(e.findings, x.findings);
    SameLength(e.findings, x.findings);
    SameLength(e.questions, x.questions);
    var built := Build(env, x);
    BodyIgnoresHash(e);
  }

  lemma BodyIgnoresHash(e: Envelope)
    ensures Body(e.(reviewId := [], resultHash := [])) == Body(e)
  {
  }

  /** Building yields an envelope exactly when it is a valid one that carries the input; there is never a second. */
  lemma BuildExactly(env: Env, x: Input, e: Envelope)
    requires Digests(env.sha)
    ensures Build(env, x) == Some(e) <==> Valid(env, e) && Carries(e, x)
  {
    hide Build, Valid, Carries;
    if Build(env, x) == Some(e) {
      BuildValidates(env, x, e);
      BuiltCarries(env, x, e);
    }
    if Valid(env, e) && Carries(e, x) { OnlyValidIsBuilt(env, x, e); }
  }

  /** The gate blocks on a blocking finding, passes without findings, and warns otherwise. */
  lemma GateMeans(fs: seq<Finding>)
    ensures GateFor(fs) == T("block") <==> exists i :: 0 <= i < |fs| && fs[i].severity == T("block")
    ensures GateFor(fs) == T("pass") <==> fs == []
    ensures GateFor(fs) in [T("block"), T("warn"), T("pass")]
  {
    var flags := SeverityFlags(fs);
    assert |T("block")| == 5 && |T("warn")| == 4 && |T("pass")| == 4 && T("warn")[0] != T("pass")[0];
    if Blockers(fs) > 0 {
      assert true in multiset(flags);
      var i :| 0 <= i < |flags| && flags[i];
    }
    if i :| 0 <= i < |fs| && fs[i].severity == T("block") {
      assert flags[i] && flags[i] in multiset(flags);
    }
  }
}
