/**
 The second review of an answered document: no finding is new, the gate never worsens, and answers that are not
 enforced leave every finding as it was.
 */
module AnswerReview {
  import opened Options
  import opened Sorting
  import opened JsonText
  import opened OpenApi
  import opened Answers
  import opened AnswerEffects
  import opened Declaring
  import opened AnswerFindings
  import S = StaticReview

  // ----- findings ------------------------------------------------------------------------------

  lemma ChangedLists(c: Conv, op: Operation, a: Answer, place: Place)
    requires Sane(c) && a.about.About? && Change(c, op, a).Some?
    ensures SameLists(c, place, op, Change(c, op, a).value)
  {
    hide Joins, Change, Sane;
    forall l ensures Joins(c, place, Change(c, op, a).value, l) <==> Joins(c, place, op, l) {
      ChangeEffect(c, op, a, place, BroadScopes, l);
    }
  }

  lemma ProgressSelf(c: Conv, place: Place, op: Operation)
    ensures Progress(c, op, op) && SameLists(c, place, op, op)
  {
    hide HasFamily, LacksFamily, Joins;
  }

  /** One answer is progress at every place. */
  lemma ApplyOneProgress(c: Conv, doc: Document, questions: seq<Question>, a: Answer, after: Document)
    requires Sane(c) && ApplyOne(c, doc, questions, a) == Some(after)
    ensures after.places == doc.places && AllProgress(c, doc.ops, after.ops, doc.places)
    ensures !a.value.Enforced? ==> AllProgress(c, after.ops, doc.ops, doc.places)
  {
    hide Sane, Change, Progress, SameLists;
    var target := Target(c, doc, questions, a).value;
    forall i | 0 <= i < |doc.places| && doc.places[i].ref in doc.ops
      ensures var ref := doc.places[i].ref;
              && Progress(c, doc.ops[ref], after.ops[ref]) && SameLists(c, doc.places[i], doc.ops[ref], after.ops[ref])
              && (!a.value.Enforced? ==>
                    Progress(c, after.ops[ref], doc.ops[ref]) && SameLists(c, doc.places[i], after.ops[ref], doc.ops[ref]))
    {
      var ref := doc.places[i].ref;
      if ref == target {
        ChangeProgress(c, doc.ops[ref], a);
        ChangedLists(c, doc.ops[ref], a, doc.places[i]);
        ListsBack(c, doc.places[i], doc.ops[ref], after.ops[ref]);
        if !a.value.Enforced? { RecordedOnly(c, doc.ops[ref], a); }
      } else {
        ProgressSelf(c, doc.places[i], doc.ops[ref]);
      }
    }
  }

  /** An answer that is not enforced only records itself. */
  lemma RecordedOnly(c: Conv, op: Operation, a: Answer)
    requires a.about.About? && Change(c, op, a).Some? && !a.value.Enforced?
    ensures Progress(c, Change(c, op, a).value, op)
  {
    hide HasFamily, LacksFamily, DeclarationOf, FieldName, PutField;
    var after := Change(c, op, a).value;
    forall f ensures FamilyProgress(c, after, op, f) { ScopeKeepsAbsence(c, after, op, f); }
  }

  lemma ListsBack(c: Conv, place: Place, op: Operation, after: Operation)
    requires SameLists(c, place, op, after)
    ensures SameLists(c, place, after, op)
  {
  }

  /** Applying answers never adds a finding to the review. */
  lemma {:induction false} AnswersAddNothing(
    c: Conv, doc: Document, questions: seq<Question>, answers: seq<Answer>, after: Document, l: S.Located)
    requires Sane(c) && Ordinary(c) && ApplyAll(c, doc, questions, answers) == Some(after)
    ensures RaisedBy(c, after, l) ==> RaisedBy(c, doc, l)
    decreases |answers|
  {
    hide Sane, Ordinary, RaisedBy, ApplyOne, AllProgress;
    if answers != [] {
      var next := ApplyOne(c, doc, questions, answers[0]).value;
      AnswersAddNothing(c, next, questions, answers[1..], after, l);
      ApplyOneProgress(c, doc, questions, answers[0], next);
      RaisedKept(c, doc, next, l);
    }
  }

  /** Answers of which none is enforced leave the findings exactly as they were. */
  lemma {:induction false} UnenforcedKeepFindings(
    c: Conv, doc: Document, questions: seq<Question>, answers: seq<Answer>, after: Document, l: S.Located)
    requires Sane(c) && Ordinary(c) && ApplyAll(c, doc, questions, answers) == Some(after)
    requires forall a :: a in answers ==> !a.value.Enforced?
    ensures RaisedBy(c, after, l) <==> RaisedBy(c, doc, l)
    decreases |answers|
  {
    hide Sane, Ordinary, RaisedBy, ApplyOne, AllProgress;
    if answers != [] {
      var next := ApplyOne(c, doc, questions, answers[0]).value;
      ApplyOneProgress(c, doc, questions, answers[0], next);
      RaisedKept(c, doc, next, l);
      RaisedKept(c, next, doc, l);
      UnenforcedKeepFindings(c, next, questions, answers[1..], after, l);
    }
  }

  // ----- the gate ------------------------------------------------------------------------------

  /** No property of an imported entry has this length, first and last letter. */
  predicate Foreign(s: string) {
    && Clear(s)
    && !(|s| == 2 && s[0] == 'i') && !(|s| == 12 && s[0] == 'o') && !(|s| == 5 && s[0] == 'r') && !(|s| == 6 && s[0] == 'm')
    && !(|s| == 12 && s[0] == 'p') && !(|s| == 4 && s[0] == 't') && !(|s| == 13 && s[0] == 'r') && !(|s| == 10 && s[0] == 'd')
    && !(|s| == 11 && s[0] == 'r') && !(|s| == 4 && s[0] == 'k') && !(|s| == 6 && s[0] == 's')
  }

  const EXTRA_NAMES: set<Text> := {T("kind"), T("scopes")}

  lemma ForeignAbsent(s: string)
    requires Foreign(s)
    ensures T(s) !in BASE_NAMES && T(s) !in TOUCHED && T(s) !in EXTRA_NAMES
  {
    hide T, TOUCHED;
    ClearIsUntouched(s);
    Differs(s, "id");
    Differs(s, "operation_id");
    Differs(s, "route");
    Differs(s, "method");
    Differs(s, "product_area");
    Differs(s, "tags");
    Differs(s, "required_plan");
    Differs(s, "data_class");
    Differs(s, "rule_source");
    Differs(s, "kind");
    Differs(s, "scopes");
  }

  ghost predicate Imported(p: S.Props) { p.Keys <= BASE_NAMES + TOUCHED + EXTRA_NAMES }

  predicate AllForeign(names: seq<string>) { forall i :: 0 <= i < |names| ==> Foreign(names[i]) }

  lemma {:induction false} FirstForeign(p: S.Props, names: seq<string>)
    requires Imported(p) && AllForeign(names)
    ensures S.First(p, names) == Null
  {
    hide T, Foreign, BASE_NAMES, TOUCHED, EXTRA_NAMES;
    if names != [] {
      ForeignAbsent(names[0]);
      assert AllForeign(names[1..]);
      FirstForeign(p, names[1..]);
    }
  }

  lemma NotReachable(c: Conv, p: S.Props)
    requires Ordinary(c) && Imported(p)
    ensures !S.Reachable(c.py, p)
  {
    hide Imported, S.First, T;
    ForeignAbsentGet(p, "reachable");
    FirstForeign(p, ["reachable_by_plan", "granted_plan", "current_plan"]);
    FirstForeign(p, ["reachable_by_role", "installable_by_role", "granted_role"]);
    EmptyIsNoWord(S.LOW_REACH_PLANS);
    EmptyIsNoWord(["anonymous", "member", "user", "anyone"]);
  }

  lemma ForeignAbsentGet(p: S.Props, name: string)
    requires Imported(p) && Foreign(name)
    ensures S.Get(p, name) == Null
  {
    hide T, BASE_NAMES, TOUCHED, EXTRA_NAMES, Foreign;
    ForeignAbsent(name);
  }

  lemma EmptyIsNoWord(names: seq<string>)
    requires forall i :: 0 <= i < |names| ==> names[i] != ""
    ensures !S.OneOf([], names)
  {
  }

  lemma EntryImported(c: Conv, place: Place, op: Operation)
    ensures Imported(Entry(c, place, op))
  {
    hide BASE_NAMES, TOUCHED, EXTRA_NAMES, Base, Metadata;
    BaseKeys(c, place, op.fixed);
    MetadataReads(c, op);
  }

  lemma ListImported(c: Conv, place: Place, op: Operation, l: List)
    requires !l.AgentList?
    ensures Imported(ListEntry(c, place, op, l))
  {
    hide BASE_NAMES, TOUCHED, Entry, Imported, T, Texts, ExportState, SurfaceId;
    EntryImported(c, place, op);
    TouchedMembers();
    BaseMembers();
    ImportedMembers(Entry(c, place, op), Extra(c, place, op.fixed, l));
    ImportedMembers(Entry(c, place, op), Tagged("export"));
    ImportedSet(Entry(c, place, op) + Tagged("export"), T("entitlement_check"), ExportState(c, op, Entitlement));
    ImportedSet((Entry(c, place, op) + Tagged("export"))[T("entitlement_check") := ExportState(c, op, Entitlement)],
                T("rate_limit"), ExportState(c, op, Rate));
  }

  lemma BaseMembers()
    ensures T("id") in BASE_NAMES && T("kind") in EXTRA_NAMES && T("scopes") in EXTRA_NAMES
  {
  }

  lemma ImportedMembers(p: S.Props, extra: S.Props)
    requires Imported(p) && extra.Keys <= {T("kind"), T("scopes"), T("id")}
    ensures Imported(p + extra)
  {
    hide T;
    BaseMembers();
  }

  lemma ImportedSet(p: S.Props, key: Text, v: Json)
    requires Imported(p) && key in TOUCHED
    ensures Imported(p[key := v])
  {
    hide T, TOUCHED, BASE_NAMES, EXTRA_NAMES;
  }

  /** Only an over-scoped agent surface blocks. */
  predicate BlocksOnlyAgents(fs: seq<S.Finding>) {
    forall i :: 0 <= i < |fs| ==> (fs[i].severity == S.Block <==> fs[i].risk == S.AgentSurfaceOverscope)
  }

  lemma ExportMild(c: Conv, kind: S.Kind, id: Text, p: S.Props)
    requires Ordinary(c) && Imported(p)
    ensures BlocksOnlyAgents(S.ExportRisks(c.py, kind, id, p))
  {
    hide T, S.Reason, S.ControlOf, S.Granted, S.Intended, S.Reachable, S.BadControl, S.First, S.Get, S.Truth, Imported, Ordinary;
    NotReachable(c, p);
  }

  lemma EndpointMild(c: Conv, kind: S.Kind, id: Text, p: S.Props)
    requires Ordinary(c) && Imported(p)
    ensures BlocksOnlyAgents(S.EndpointRisks(c.py, kind, id, p))
  {
    hide T, S.Reason, S.ControlOf, S.Granted, S.Intended, S.Reachable, S.BadControl, S.First, S.Get, S.Truth, S.Contains, S.Label,
         S.Lowered, S.ExportRisks, Imported, Ordinary;
    NotReachable(c, p);
    ExportMild(c, kind, id, p);
    FirstForeign(p, ["ui_backing_endpoint", "interactive_ui_endpoint", "browser_endpoint"]);
    assert S.UiBackingRisks(c.py, kind, id, p) == [];
  }

  lemma OauthMild(c: Conv, kind: S.Kind, id: Text, p: S.Props)
    requires Imported(p)
    ensures BlocksOnlyAgents(S.OauthRisks(c.py, kind, id, p))
  {
    hide T, S.Reason, S.ControlOf, S.Granted, S.Intended, S.Reachable, S.First, S.Get, S.Truth, S.Lowered, S.Scopes, S.BroadScope,
         S.OneOf, Imported;
    FirstForeign(p, ["auto_approved", "auto_install", "default_approved"]);
  }

  lemma AdminMild(c: Conv, kind: S.Kind, id: Text, p: S.Props)
    requires Imported(p)
    ensures BlocksOnlyAgents(S.AdminActionRisks(c.py, kind, id, p))
  {
    hide T, S.Reason, S.ControlOf, S.Granted, S.Intended, S.Reachable, S.First, S.Get, S.Truth, S.Lowered, S.OneOf, Imported;
    FirstForeign(p, ["audit_logged", "audit_event", "audit_event_id"]);
  }

  lemma AlwaysMild(c: Conv, kind: S.Kind, id: Text, p: S.Props)
    ensures BlocksOnlyAgents(S.MeterRisks(c.py, kind, id, p)) && BlocksOnlyAgents(S.TenantDataControlRisks(c.py, kind, id, p))
    ensures BlocksOnlyAgents(S.AgentSurfaceRisks(c.py, kind, id, p))
  {
    hide T, S.Reason, S.ControlOf, S.Granted, S.Intended, S.Reachable, S.First, S.Get, S.Truth, S.Truthy, S.BadControl, S.OneOf,
         S.TextOf, S.ScopeWider;
  }

  lemma ImportedMild(c: Conv, kind: S.Kind, id: Text, p: S.Props)
    requires Ordinary(c) && !kind.CouponsPromotions? && !kind.FeaturesFlags?
    requires Imported(p) || kind.AgentTools? || kind.DeclaredControls? || kind.DataClasses?
    ensures BlocksOnlyAgents(S.RiskFindings(c.py, kind, id, p))
  {
    hide BlocksOnlyAgents, Imported, Ordinary, S.ExportRisks, S.EndpointRisks, S.MeterRisks, S.OauthRisks, S.AdminActionRisks,
         S.AgentSurfaceRisks, S.TenantDataControlRisks;
    AlwaysMild(c, kind, id, p);
    NothingMild();
    match kind
    case EndpointsRoutes => EndpointMild(c, kind, id, p);
    case Exports => ExportMild(c, kind, id, p);
    case IntegrationOauthApps => OauthMild(c, kind, id, p);
    case SupportAdminActions => AdminMild(c, kind, id, p);
    case _ =>
  }

  lemma NothingMild()
    ensures BlocksOnlyAgents([])
  {
  }

  /** In an imported document the severity of a finding is settled by its risk, which its key names. */
  predicate SettledByRisk(l: S.Located) {
    (l.finding.severity == S.Block <==> l.finding.risk == S.AgentSurfaceOverscope) && l.key.risk == l.finding.risk
  }

  /** Lists of which every item is made of the names the importer writes. */
  predicate Written(kind: S.Kind) { !kind.AgentTools? && !kind.DeclaredControls? && !kind.DataClasses? }

  lemma {:induction false} GatheredImported(c: Conv, ops: map<nat, Operation>, places: seq<Place>, kind: S.Kind)
    requires Written(kind)
    ensures forall j :: 0 <= j < |Gathered(c, ops, places, kind)| ==> Imported(Gathered(c, ops, places, kind)[j])
  {
    hide Imported, Entry, ListEntry, Joins;
    if places != [] {
      var n := |places| - 1;
      GatheredImported(c, ops, places[..n], kind);
      if places[n].ref in ops {
        EntryImported(c, places[n], ops[places[n].ref]);
        if ListOf(kind).Some? { ListImported(c, places[n], ops[places[n].ref], ListOf(kind).value); }
      }
    }
  }

  /** Coupons, feature flags and the other kinds the importer knows nothing about stay empty. */
  lemma {:induction false} NothingGathered(c: Conv, ops: map<nat, Operation>, places: seq<Place>, kind: S.Kind)
    requires kind.CouponsPromotions? || kind.FeaturesFlags?
    ensures Gathered(c, ops, places, kind) == []
  {
    hide Entry, ListEntry, Joins, ControlProps, ClassProps, ControlList, ValueOf;
    if places != [] { NothingGathered(c, ops, places[..|places| - 1], kind); }
  }

  lemma SeverityByRisk(c: Conv, doc: Document, l: S.Located)
    requires Ordinary(c)
    ensures RaisedBy(c, doc, l) ==> SettledByRisk(l)
  {
    hide Imported, Ordinary, T, S.RiskFindings, S.SurfaceId, Gathered, Firsts;
    if RaisedBy(c, doc, l) {
      var kind :| RaisedIn(c, kind, Items(c, doc, kind), l);
      var items := Items(c, doc, kind);
      var j :| 0 <= j < |items| && Raises(c, kind, items[j], j, l);
      if kind.CouponsPromotions? || kind.FeaturesFlags? { NothingGathered(c, doc.ops, doc.places, kind); }
      if Written(kind) { GatheredImported(c, doc.ops, doc.places, kind); }
      var id := S.SurfaceId(c.py, items[j], j);
      ImportedMild(c, kind, id, items[j]);
      var found := S.RiskFindings(c.py, kind, id, items[j]);
      var i :| 0 <= i < |found| && found[i] == l.finding;
    }
  }

  /** `kept` is a deduplication of what the document raises: its own findings, one for every key. */
  ghost predicate Reports(c: Conv, doc: Document, kept: seq<S.Located>) {
    && (forall l :: l in kept ==> RaisedBy(c, doc, l))
    && (forall l :: RaisedBy(c, doc, l) ==> S.ListsKey(kept, l.key))
  }

  function Rank(g: S.Gate): nat { match g case Pass => 0 case Warned => 1 case Blocked => 2 }

  /** Whatever the deduplication keeps, the gate after the answers is at most the gate before them. */
  lemma ReportedGate(
    c: Conv, doc: Document, questions: seq<Question>, answers: seq<Answer>, answered: Document,
    before: seq<S.Located>, after: seq<S.Located>)
    requires Sane(c) && Ordinary(c) && ApplyAll(c, doc, questions, answers) == Some(answered)
    requires Reports(c, doc, before) && Reports(c, answered, after)
    ensures Rank(S.GateOf(after)) <= Rank(S.GateOf(before))
  {
    hide Sane, Ordinary, RaisedBy, ApplyAll, Reports;
    if S.GateOf(after).Blocked? {
      var i :| 0 <= i < |after| && after[i].finding.severity == S.Block;
      var m := Matched(c, doc, questions, answers, answered, before, after, after[i]);
    } else if after != [] {
      var m := Matched(c, doc, questions, answers, answered, before, after, after[0]);
    }
  }

  /** What is reported after the answers was reported before them, with the same severity. */
  lemma Matched(
    c: Conv, doc: Document, questions: seq<Question>, answers: seq<Answer>, answered: Document,
    before: seq<S.Located>, after: seq<S.Located>, l: S.Located)
    returns (m: S.Located)
    requires Sane(c) && Ordinary(c) && ApplyAll(c, doc, questions, answers) == Some(answered)
    requires Reports(c, doc, before) && Reports(c, answered, after) && l in after
    ensures m in before && m.key == l.key && m.finding.severity == l.finding.severity
  {
    hide Sane, Ordinary, RaisedBy, ApplyAll;
    AnswersAddNothing(c, doc, questions, answers, answered, l);
    SeverityByRisk(c, doc, l);
    assert S.ListsKey(before, l.key);
    var k :| 0 <= k < |before| && before[k].key == l.key;
    m := before[k];
    SeverityByRisk(c, doc, m);
  }
}
