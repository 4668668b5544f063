/**
 Guided answers: `apply_review_answers` on a copied document, and what it does to the questions and to the
 surface lists of a second import.
 */
module Answers {
  import opened Options
  import opened Sorting
  import opened JsonText
  import opened Records
  import opened OpenApi

  datatype AnswerField = About(topic: Topic) | ProductRule

  datatype AnswerValue = Enforced | NotEnforced | Unknown

  datatype Answer = Answer(surface: Text, about: AnswerField, value: AnswerValue)

  datatype Question = Question(surface: Text, about: AnswerField)

  // ----- normalizing the answers ---------------------------------------------------------------

  function FieldName(f: AnswerField): Text {
    match f
    case About(TenantFilter) => T("tenant_filter")
    case About(EntitlementCheck) => T("entitlement_check")
    case About(RateLimit) => T("rate_limit")
    case ProductRule => T("product_rule")
  }

  function AnswerKey(a: Answer): seq<Text> { [a.surface, FieldName(a.about)] }

  predicate Contradictory(answers: seq<Answer>) {
    exists i, j :: 0 <= i < j < |answers| && answers[i].surface == answers[j].surface && answers[i].about == answers[j].about
                   && answers[i].value != answers[j].value
  }

  /** Each answer once. */
  function EachOnce(answers: seq<Answer>): (r: seq<Answer>)
    ensures forall a :: a in r <==> a in answers
  {
    if answers == [] then []
    else
      var rest := EachOnce(answers[1..]);
      assert answers == [answers[0]] + answers[1..];
      if answers[0] in answers[1..] then rest else [answers[0]] + rest
  }

  const MAX_ANSWERS := 64

  /** `_normalize_answers`: at most 64, no contradiction, each question once, in order. */
  function Normalized(answers: seq<Answer>): Option<seq<Answer>> {
    if |answers| > MAX_ANSWERS || (exists i :: 0 <= i < |answers| && answers[i].surface == []) || Contradictory(answers) then None
    else Some(Sort(ByKey(AnswerKey), EachOnce(answers)))
  }

  // ----- changing one operation ----------------------------------------------------------------

  function ControlFor(topic: Topic): Text { if topic.EntitlementCheck? then ENTITLEMENT_CONTROL else RATE_CONTROL }

  /** `_declare_tenant_scope` */
  function DeclareTenantScope(c: Conv, op: Operation): Option<Operation> {
    if op.scope.Absent? || op.scope.Nothing? || (op.scope.Given? && MissingWord(c, op.scope.s)) then
      Some(op.(scope := Given(T("tenant"))))
    else None
  }

  /** A set of texts with one more, as the sorted list the source writes. */
  function WithName(names: seq<Text>, name: Text): (r: seq<Text>) {
    Sort(TextLe, Distinct(names + [name]))
  }

  predicate FlagLe(a: (Text, bool), b: (Text, bool)) { TextLe(a.0, b.0) }

  function Others(fs: seq<(Text, bool)>, name: Text): (r: seq<(Text, bool)>)
    ensures forall f :: f in r <==> f in fs && f.0 != name
  {
    if fs == [] then []
    else
      var rest := Others(fs[1..], name);
      assert fs == [fs[0]] + fs[1..];
      if fs[0].0 == name then rest else [fs[0]] + rest
  }

  function WithFlag(fs: seq<(Text, bool)>, name: Text): seq<(Text, bool)> {
    Sort(FlagLe, Others(fs, name) + [(name, true)])
  }

  /** `_declare_controls` with one addition. */
  function DeclareControl(control: Control, name: Text): Option<Control> {
    match control
    case NoControl => Some(Many([name]))
    case NullControl => Some(Many([name]))
    case One(s) => Some(Many(WithName([s], name)))
    case Many(ss) => Some(Many(WithName(ss, name)))
    case Flags(fs) => Some(Flags(WithFlag(fs, name)))
    case Malformed => None
  }

  function ValueName(v: AnswerValue): Text {
    match v
    case Enforced => T("enforced")
    case NotEnforced => T("not_enforced")
    case Unknown => T("unknown")
  }

  function DeclarationOf(v: AnswerValue): Json {
    Obj([Field(T("value"), Str(ValueName(v))), Field(T("source"), Str(T("customer answer"))),
         Field(T("evidence_state"), Str(if v.Unknown? then T("unknown") else T("customer_declared")))])
  }

  /** Dictionary assignment on the declarations. */
  function PutField(fields: seq<Field>, key: Text, value: Json): seq<Field> {
    if fields == [] then [Field(key, value)]
    else if fields[0].key == key then [Field(key, value)] + fields[1..]
    else [fields[0]] + PutField(fields[1..], key, value)
  }

  function Declare(op: Operation, a: Answer): Option<Operation> {
    match op.declarations
    case None => Some(op.(declarations := Some(Obj([Field(FieldName(a.about), DeclarationOf(a.value))]))))
    case Some(Obj(fields)) =>
      Some(op.(declarations := Some(Obj(PutField(fields, FieldName(a.about), DeclarationOf(a.value))))))
    case Some(_) => None
  }

  /** What an enforced answer does to the metadata of its operation. */
  function Enforce(c: Conv, op: Operation, topic: Topic): Option<Operation> {
    if topic.TenantFilter? then DeclareTenantScope(c, op)
    else
      match DeclareControl(op.control, ControlFor(topic))
      case None => None
      case Some(control) => Some(op.(control := control))
  }

  function Change(c: Conv, op: Operation, a: Answer): Option<Operation>
    requires a.about.About?
  {
    match Declare(op, a)
    case None => None
    case Some(declared) => if a.value.Enforced? then Enforce(c, declared, a.about.topic) else Some(declared)
  }

  // ----- changing the document -----------------------------------------------------------------

  /** The operation objects behind a surface identifier. */
  function Targets(c: Conv, doc: Document, surface: Text): set<nat> {
    set i | 0 <= i < |doc.places| && doc.places[i].ref in doc.ops
            && SurfaceId(c, doc.places[i], doc.ops[doc.places[i].ref].fixed) == surface :: doc.places[i].ref
  }

  /** How often a question is asked. */
  function Matches(questions: seq<Question>, a: Answer): nat {
    multiset(questions)[Question(a.surface, a.about)]
  }

  /** The operation an answer changes, or nothing when it cannot be applied. */
  function Target(c: Conv, doc: Document, questions: seq<Question>, a: Answer): Option<nat> {
    if Matches(questions, a) != 1 || a.about.ProductRule? || a.surface == T("product") then None
    else
      var refs := Targets(c, doc, a.surface);
      if |refs| != 1 then None else Some(TheOnly(refs))
  }

  function TheOnly(refs: set<nat>): (r: nat)
    requires |refs| == 1
    ensures r in refs && refs == {r}
  {
    OneElement(refs);
    var r :| r in refs;
    r
  }

  lemma OneElement(refs: set<nat>)
    requires |refs| == 1
    ensures exists r :: r in refs && refs == {r}
    ensures forall r, s :: r in refs && s in refs ==> r == s
  {
    var r :| r in refs;
    assert |refs - {r}| == 0;
  }

  function ApplyOne(c: Conv, doc: Document, questions: seq<Question>, a: Answer): Option<Document> {
    var target := Target(c, doc, questions, a);
    if target.None? || target.value !in doc.ops then None
    else
      match Change(c, doc.ops[target.value], a)
      case None => None
      case Some(op) => Some(doc.(ops := doc.ops[target.value := op]))
  }

  function ApplyAll(c: Conv, doc: Document, questions: seq<Question>, answers: seq<Answer>): Option<Document>
    decreases |answers|
  {
    if answers == [] then Some(doc)
    else
      match ApplyOne(c, doc, questions, answers[0])
      case None => None
      case Some(next) => ApplyAll(c, next, questions, answers[1..])
  }

  /** The loop over the normalized answers; nothing stands for `ReviewAnswerError`. */
  method ApplyReviewAnswers(c: Conv, doc: Document, answers: seq<Answer>, questions: seq<Question>)
    returns (r: Option<Document>)
    ensures r == if Normalized(answers).None? then None else ApplyAll(c, doc, questions, Normalized(answers).value)
  {
    hide ApplyOne;
    var normalized := Normalized(answers);
    if normalized.None? { return None; }
    var enriched := doc;
    ghost var all := normalized.value;
    for i := 0 to |normalized.value|
      invariant ApplyAll(c, doc, questions, all) == ApplyAll(c, enriched, questions, all[i..])
    {
      var next := ApplyOne(c, enriched, questions, normalized.value[i]);
      assert all[i..][0] == all[i] && all[i..][1..] == all[i + 1..];
      if next.None? { return None; }
      enriched := next.value;
    }
    r := Some(enriched);
  }
}
