/**
 When guided answers can be applied and what the document says afterwards, in terms of the answers, the questions and
 the document alone.
 */
module AnswerOutcome {
  import opened Options
  import opened Sorting
  import opened JsonText
  import opened Records
  import opened OpenApi
  import opened Answers
  import opened AnswerEffects

  // ----- one answer ----------------------------------------------------------------------------

  /** The question is asked, and asked once. */
  predicate AskedOnce(questions: seq<Question>, a: Answer) {
    var q := Question(a.surface, a.about);
    exists i :: 0 <= i < |questions| && questions[i] == q && forall j :: 0 <= j < |questions| && questions[j] == q ==> j == i
  }

  /** The operation object stands at a place with this surface identifier. */
  predicate Behind(c: Conv, doc: Document, surface: Text, ref: nat) {
    ref in doc.ops && exists i :: 0 <= i < |doc.places| && doc.places[i].ref == ref
                                  && SurfaceId(c, doc.places[i], doc.ops[ref].fixed) == surface
  }

  ghost predicate OnlyBehind(c: Conv, doc: Document, surface: Text, ref: nat) {
    Behind(c, doc, surface, ref) && forall r :: Behind(c, doc, surface, r) ==> r == ref
  }

  predicate Unscoped(c: Conv, scope: Extension) {
    scope.Absent? || scope.Nothing? || (scope.Given? && MissingWord(c, scope.s))
  }

  /** The operation can take the answer: room for declarations, and a scope or control an enforced answer may fill. */
  predicate Ready(c: Conv, op: Operation, a: Answer) {
    && (op.declarations.None? || op.declarations.value.Obj?)
    && (a.value.Enforced? ==> if a.about == About(TenantFilter) then Unscoped(c, op.scope) else !op.control.Malformed?)
  }

  ghost predicate Applicable(c: Conv, doc: Document, questions: seq<Question>, a: Answer) {
    && AskedOnce(questions, a) && a.about.About? && a.surface != T("product")
    && exists ref :: OnlyBehind(c, doc, a.surface, ref) && Ready(c, doc.ops[ref], a)
  }

  /** Both answers want to declare the tenant scope of one operation object. */
  ghost predicate Clash(c: Conv, doc: Document, a: Answer, b: Answer) {
    && a.value.Enforced? && b.value.Enforced? && a.about == b.about == About(TenantFilter)
    && exists ref :: OnlyBehind(c, doc, a.surface, ref) && OnlyBehind(c, doc, b.surface, ref)
  }

  lemma {:induction false} CountOnce<A>(xs: seq<A>, x: A)
    ensures multiset(xs)[x] == 1 <==>
            exists i :: 0 <= i < |xs| && xs[i] == x && forall j :: 0 <= j < |xs| && xs[j] == x ==> j == i
  {
    if x in xs {
      var i :| 0 <= i < |xs| && xs[i] == x;
      assert xs == (xs[..i] + [x]) + xs[i + 1..];
      if multiset(xs)[x] == 1 {
        assert x !in xs[..i] && x !in xs[i + 1..];
        forall j | 0 <= j < |xs| && j != i ensures xs[j] != x {
          if j < i { assert xs[j] == xs[..i][j]; } else { assert xs[j] == xs[i + 1..][j - i - 1]; }
        }
      }
      if k :| 0 <= k < |xs| && xs[k] == x && forall j :: 0 <= j < |xs| && xs[j] == x ==> j == k {
        assert k == i;
        assert x !in xs[..i] && x !in xs[i + 1..];
      }
    } else {
      assert x !in multiset(xs);
    }
  }

  lemma TargetsAreBehind(c: Conv, doc: Document, surface: Text, ref: nat)
    ensures ref in Targets(c, doc, surface) <==> Behind(c, doc, surface, ref)
  {
    hide SurfaceId;
  }

  lemma TargetExactly(c: Conv, doc: Document, questions: seq<Question>, a: Answer, ref: nat)
    ensures Target(c, doc, questions, a) == Some(ref) <==>
            AskedOnce(questions, a) && a.about.About? && a.surface != T("product") && OnlyBehind(c, doc, a.surface, ref)
  {
    hide Targets, Behind, T;
    CountOnce(questions, Question(a.surface, a.about));
    var refs := Targets(c, doc, a.surface);
    forall r ensures r in refs <==> Behind(c, doc, a.surface, r) { TargetsAreBehind(c, doc, a.surface, r); }
    if OnlyBehind(c, doc, a.surface, ref) { assert refs == {ref}; }
    if |refs| == 1 { OneElement(refs); }
  }

  lemma ChangeExactly(c: Conv, op: Operation, a: Answer)
    requires a.about.About?
    ensures Change(c, op, a).Some? <==> Ready(c, op, a)
  {
    hide MissingWord, PutField, DeclarationOf, FieldName, WithName, WithFlag;
  }

  /** One answer can be applied exactly when it is applicable. */
  lemma ApplyOneExactly(c: Conv, doc: Document, questions: seq<Question>, a: Answer)
    ensures ApplyOne(c, doc, questions, a).Some? <==> Applicable(c, doc, questions, a)
    ensures ApplyOne(c, doc, questions, a).Some? ==>
              exists ref: nat :: ref in doc.ops && OnlyBehind(c, doc, a.surface, ref) && a.about.About?
                && Change(c, doc.ops[ref], a).Some?
                && ApplyOne(c, doc, questions, a) == Some(doc.(ops := doc.ops[ref := Change(c, doc.ops[ref], a).value]))
  {
    hide Target, Change, Ready, AskedOnce, T, Behind;
    forall ref: nat ensures Target(c, doc, questions, a) == Some(ref) <==>
        AskedOnce(questions, a) && a.about.About? && a.surface != T("product") && OnlyBehind(c, doc, a.surface, ref)
    {
      TargetExactly(c, doc, questions, a, ref);
    }
    forall ref | OnlyBehind(c, doc, a.surface, ref) ensures ref in doc.ops { BehindKnown(c, doc, a.surface, ref); }
    if Applicable(c, doc, questions, a) {
      var ref :| OnlyBehind(c, doc, a.surface, ref) && Ready(c, doc.ops[ref], a);
      assert Target(c, doc, questions, a) == Some(ref);
    }
    if Target(c, doc, questions, a).Some? {
      var ref := Target(c, doc, questions, a).value;
      assert ref in doc.ops by { BehindKnown(c, doc, a.surface, ref); }
      ChangeExactly(c, doc.ops[ref], a);
    }
  }

  lemma BehindKnown(c: Conv, doc: Document, surface: Text, ref: nat)
    requires Behind(c, doc, surface, ref)
    ensures ref in doc.ops
  {
  }

  // ----- what one answer leaves for the next ---------------------------------------------------

  lemma ChangeLeaves(c: Conv, op: Operation, a: Answer, b: Answer)
    requires Sane(c) && a.about.About? && Change(c, op, a).Some?
    ensures var after := Change(c, op, a).value;
            && after.fixed == op.fixed && after.declarations.Some? && after.declarations.value.Obj?
            && (Ready(c, after, b) <==>
                Ready(c, op, b) && !(a.value.Enforced? && b.value.Enforced? && a.about == b.about == About(TenantFilter)))
  {
    hide PutField, DeclarationOf, FieldName, WithName, WithFlag, T;
    TenantIsAValue(c);
  }

  lemma SameBehind(c: Conv, doc: Document, next: Document, surface: Text, ref: nat)
    requires next.places == doc.places && next.ops.Keys == doc.ops.Keys
    requires forall r :: r in doc.ops ==> next.ops[r].fixed == doc.ops[r].fixed
    ensures OnlyBehind(c, next, surface, ref) <==> OnlyBehind(c, doc, surface, ref)
  {
    hide SurfaceId;
    forall r ensures Behind(c, next, surface, r) <==> Behind(c, doc, surface, r) {}
  }

  lemma StepLeaves(c: Conv, doc: Document, questions: seq<Question>, a: Answer, next: Document, b: Answer)
    requires Sane(c) && ApplyOne(c, doc, questions, a) == Some(next)
    ensures forall ref :: OnlyBehind(c, next, b.surface, ref) <==> OnlyBehind(c, doc, b.surface, ref)
    ensures Applicable(c, next, questions, b) <==> Applicable(c, doc, questions, b) && !Clash(c, doc, a, b)
  {
    hide ApplyOne, Change, Ready, AskedOnce, T, OnlyBehind, Sane;
    ApplyOneExactly(c, doc, questions, a);
    var at: nat :| at in doc.ops && OnlyBehind(c, doc, a.surface, at) && a.about.About? && Change(c, doc.ops[at], a).Some?
              && Some(next) == Some(doc.(ops := doc.ops[at := Change(c, doc.ops[at], a).value]));
    ChangeLeaves(c, doc.ops[at], a, b);
    forall ref ensures OnlyBehind(c, next, b.surface, ref) <==> OnlyBehind(c, doc, b.surface, ref) {
      SameBehind(c, doc, next, b.surface, ref);
    }
    forall ref | OnlyBehind(c, doc, b.surface, ref)
      ensures ref in doc.ops && (Ready(c, next.ops[ref], b) <==> Ready(c, doc.ops[ref], b) && !Clash(c, doc, a, b))
    {
      OnlyIsBehind(c, doc, b.surface, ref);
      BehindKnown(c, doc, b.surface, ref);
      OnlyOne(c, doc, a, at, b, ref);
    }
    if r :| OnlyBehind(c, doc, b.surface, r) {
      forall ref | OnlyBehind(c, doc, b.surface, ref) ensures ref == r { OnlyIsOne(c, doc, b.surface, r, ref); }
    }
  }

  lemma OnlyIsBehind(c: Conv, doc: Document, surface: Text, ref: nat)
    requires OnlyBehind(c, doc, surface, ref)
    ensures Behind(c, doc, surface, ref)
  {
  }

  lemma OnlyIsOne(c: Conv, doc: Document, surface: Text, r: nat, s: nat)
    requires OnlyBehind(c, doc, surface, r) && OnlyBehind(c, doc, surface, s)
    ensures r == s
  {
    hide Behind;
  }

  lemma OnlyOne(c: Conv, doc: Document, a: Answer, at: nat, b: Answer, ref: nat)
    requires OnlyBehind(c, doc, a.surface, at) && OnlyBehind(c, doc, b.surface, ref)
    ensures Clash(c, doc, a, b) <==>
            at == ref && a.value.Enforced? && b.value.Enforced? && a.about == b.about == About(TenantFilter)
  {
    hide OnlyBehind;
    if Clash(c, doc, a, b) {
      var r :| OnlyBehind(c, doc, a.surface, r) && OnlyBehind(c, doc, b.surface, r);
      OnlyIsOne(c, doc, a.surface, at, r);
      OnlyIsOne(c, doc, b.surface, ref, r);
    }
  }

  // ----- all answers ---------------------------------------------------------------------------

  ghost predicate AllApplicable(c: Conv, doc: Document, questions: seq<Question>, answers: seq<Answer>) {
    && (forall i :: 0 <= i < |answers| ==> Applicable(c, doc, questions, answers[i]))
    && (forall i, j :: 0 <= i < j < |answers| ==> !Clash(c, doc, answers[i], answers[j]))
  }

  lemma ClashKept(c: Conv, doc: Document, next: Document, a: Answer, b: Answer)
    requires forall r :: OnlyBehind(c, next, a.surface, r) <==> OnlyBehind(c, doc, a.surface, r)
    requires forall r :: OnlyBehind(c, next, b.surface, r) <==> OnlyBehind(c, doc, b.surface, r)
    ensures Clash(c, next, a, b) <==> Clash(c, doc, a, b)
  {
    hide OnlyBehind;
  }

  lemma AllSplit(c: Conv, doc: Document, questions: seq<Question>, answers: seq<Answer>)
    requires answers != []
    ensures AllApplicable(c, doc, questions, answers) <==>
            && Applicable(c, doc, questions, answers[0]) && AllApplicable(c, doc, questions, answers[1..])
            && forall j :: 0 <= j < |answers[1..]| ==> !Clash(c, doc, answers[0], answers[1..][j])
  {
    hide Applicable, Clash;
    var rest := answers[1..];
    forall j | 0 <= j < |rest| ensures rest[j] == answers[j + 1] {}
    if Applicable(c, doc, questions, answers[0]) && AllApplicable(c, doc, questions, rest)
       && forall j :: 0 <= j < |rest| ==> !Clash(c, doc, answers[0], rest[j]) {
      forall i | 0 <= i < |answers| ensures Applicable(c, doc, questions, answers[i]) { if i > 0 { assert answers[i] == rest[i - 1]; } }
      forall i, j | 0 <= i < j < |answers| ensures !Clash(c, doc, answers[i], answers[j]) {
        assert answers[j] == rest[j - 1];
        if i > 0 { assert answers[i] == rest[i - 1]; }
      }
    }
  }

  lemma {:induction false} ApplyAllExactly(c: Conv, doc: Document, questions: seq<Question>, answers: seq<Answer>)
    requires Sane(c)
    ensures ApplyAll(c, doc, questions, answers).Some? <==> AllApplicable(c, doc, questions, answers)
    decreases |answers|
  {
    hide Applicable, Clash, ApplyOne, Sane, OnlyBehind, AllApplicable;
    if answers == [] {
      NoneApplicable(c, doc, questions);
    } else {
      AllSplit(c, doc, questions, answers);
      ApplyOneExactly(c, doc, questions, answers[0]);
      if ApplyOne(c, doc, questions, answers[0]).Some? {
        var next, rest := ApplyOne(c, doc, questions, answers[0]).value, answers[1..];
        ApplyAllExactly(c, next, questions, rest);
        forall j | 0 <= j < |rest|
          ensures Applicable(c, next, questions, rest[j]) <==>
                  Applicable(c, doc, questions, rest[j]) && !Clash(c, doc, answers[0], rest[j])
          ensures forall ref :: OnlyBehind(c, next, rest[j].surface, ref) <==> OnlyBehind(c, doc, rest[j].surface, ref)
        {
          StepLeaves(c, doc, questions, answers[0], next, rest[j]);
        }
        forall i, j | 0 <= i < j < |rest| ensures Clash(c, next, rest[i], rest[j]) <==> Clash(c, doc, rest[i], rest[j]) {
          ClashKept(c, doc, next, rest[i], rest[j]);
        }
        AllAlike(c, doc, next, questions, answers[0], rest);
      }
    }
  }

  lemma NoneApplicable(c: Conv, doc: Document, questions: seq<Question>)
    ensures AllApplicable(c, doc, questions, [])
  {
  }

  lemma AllAlike(c: Conv, doc: Document, next: Document, questions: seq<Question>, a: Answer, rest: seq<Answer>)
    requires forall j :: 0 <= j < |rest| ==>
               (Applicable(c, next, questions, rest[j]) <==> Applicable(c, doc, questions, rest[j]) && !Clash(c, doc, a, rest[j]))
    requires forall i, j :: 0 <= i < j < |rest| ==> (Clash(c, next, rest[i], rest[j]) <==> Clash(c, doc, rest[i], rest[j]))
    ensures AllApplicable(c, next, questions, rest) <==>
            AllApplicable(c, doc, questions, rest) && forall j :: 0 <= j < |rest| ==> !Clash(c, doc, a, rest[j])
  {
    hide Applicable, Clash;
  }

  // ----- the whole call ------------------------------------------------------------------------

  /** At most 64 answers, each with a surface, none contradicting another. */
  predicate WellFormed(answers: seq<Answer>) {
    && |answers| <= 64
    && (forall i :: 0 <= i < |answers| ==> answers[i].surface != [])
    && (forall i, j :: 0 <= i < |answers| && 0 <= j < |answers|
                       && answers[i].surface == answers[j].surface && answers[i].about == answers[j].about ==>
                         answers[i].value == answers[j].value)
  }

  lemma Consistent(answers: seq<Answer>, i: nat, j: nat)
    requires !Contradictory(answers) && i < j < |answers|
    requires answers[i].surface == answers[j].surface && answers[i].about == answers[j].about
    ensures answers[i].value == answers[j].value
  {
  }

  lemma NormalizedExactly(answers: seq<Answer>)
    ensures Normalized(answers).Some? <==> WellFormed(answers)
  {
    hide Sort, EachOnce;
    if !Contradictory(answers) {
      forall i, j | 0 <= i < |answers| && 0 <= j < |answers| && answers[i].surface == answers[j].surface
                    && answers[i].about == answers[j].about ensures answers[i].value == answers[j].value
      {
        if i < j { Consistent(answers, i, j); }
        if j < i { Consistent(answers, j, i); }
      }
    }
  }

  lemma {:induction false} EachOnceDistinct(answers: seq<Answer>)
    ensures forall i, j :: 0 <= i < j < |EachOnce(answers)| ==> EachOnce(answers)[i] != EachOnce(answers)[j]
  {
    if answers != [] { EachOnceDistinct(answers[1..]); }
  }

  lemma NormalizedDistinct(answers: seq<Answer>, ns: seq<Answer>)
    requires Normalized(answers) == Some(ns)
    ensures forall i, j :: 0 <= i < j < |ns| ==> ns[i] != ns[j]
    ensures forall a :: a in ns <==> a in answers
    ensures Sorted(ByKey(AnswerKey), ns)
  {
    hide Sort, EachOnce;
    EachOnceDistinct(answers);
    DistinctPermuted((a: Answer) => a, EachOnce(answers), ns);
    forall a ensures a in ns <==> a in answers { NormalizedMembers(answers, a); }
    ByKeyTotal(AnswerKey);
    SortSorted(ByKey(AnswerKey), EachOnce(answers));
  }

  /**
   Answers are applied exactly when they are at most 64 without contradiction, each answers a question that is asked
   once and is about one operation that can take it, and no two want to scope one operation.
   */
  lemma AppliedExactly(c: Conv, doc: Document, questions: seq<Question>, answers: seq<Answer>)
    requires Sane(c)
    ensures (Normalized(answers).Some? && ApplyAll(c, doc, questions, Normalized(answers).value).Some?) <==>
            && WellFormed(answers)
            && (forall a :: a in answers ==> Applicable(c, doc, questions, a))
            && forall a, b :: a in answers && b in answers && a != b ==> !Clash(c, doc, a, b)
  {
    hide Sane, WellFormed, Normalized, ApplyAll, Applicable, Clash;
    NormalizedExactly(answers);
    if Normalized(answers).Some? {
      var ns := Normalized(answers).value;
      NormalizedDistinct(answers, ns);
      ApplyAllExactly(c, doc, questions, ns);
      forall a, b ensures Clash(c, doc, a, b) <==> Clash(c, doc, b, a) { ClashSymmetric(c, doc, a, b); }
      if AllApplicable(c, doc, questions, ns) {
        forall a | a in answers ensures Applicable(c, doc, questions, a) { var i :| 0 <= i < |ns| && ns[i] == a; }
        forall a, b | a in answers && b in answers && a != b ensures !Clash(c, doc, a, b) {
          var i :| 0 <= i < |ns| && ns[i] == a;
          var j :| 0 <= j < |ns| && ns[j] == b;
        }
      }
      if (forall a :: a in answers ==> Applicable(c, doc, questions, a))
         && forall a, b :: a in answers && b in answers && a != b ==> !Clash(c, doc, a, b) {
        forall i | 0 <= i < |ns| ensures Applicable(c, doc, questions, ns[i]) { assert ns[i] in answers; }
        forall i, j | 0 <= i < j < |ns| ensures !Clash(c, doc, ns[i], ns[j]) { assert ns[i] in answers && ns[j] in answers; }
      }
    }
  }

  lemma ClashSymmetric(c: Conv, doc: Document, a: Answer, b: Answer)
    ensures Clash(c, doc, a, b) <==> Clash(c, doc, b, a)
  {
    hide OnlyBehind;
  }

  // ----- what is recorded ----------------------------------------------------------------------

  function FieldIn(fields: seq<Field>, key: Text): Option<Json> {
    if fields == [] then None else if fields[0].key == key then Some(fields[0].value) else FieldIn(fields[1..], key)
  }

  /** What an operation has on record about a topic. */
  function OnRecord(op: Operation, about: AnswerField): Option<Json> {
    if op.declarations.Some? && op.declarations.value.Obj? then FieldIn(op.declarations.value.fields, FieldName(about)) else None
  }

  /** The answer is about this topic of this operation object. */
  ghost predicate Concerns(c: Conv, doc: Document, a: Answer, ref: nat, about: AnswerField) {
    a.about == about && OnlyBehind(c, doc, a.surface, ref)
  }

  lemma {:induction false} FieldPut(fields: seq<Field>, key: Text, value: Json, k: Text)
    ensures FieldIn(PutField(fields, key, value), k) == if k == key then Some(value) else FieldIn(fields, k)
  {
    if fields != [] && fields[0].key != key { FieldPut(fields[1..], key, value, k); }
  }

  lemma FieldNamesDiffer(f: AnswerField, g: AnswerField)
    requires FieldName(f) == FieldName(g)
    ensures f == g
  {
    assert |T("tenant_filter")| == 13 && |T("entitlement_check")| == 17 && |T("rate_limit")| == 10 && |T("product_rule")| == 12;
  }

  lemma ChangeRecords(c: Conv, op: Operation, a: Answer, about: AnswerField)
    requires a.about.About? && Change(c, op, a).Some?
    ensures OnRecord(Change(c, op, a).value, about) == if about == a.about then Some(DeclarationOf(a.value)) else OnRecord(op, about)
    ensures var after := Change(c, op, a).value;
            after.scope == if a.value.Enforced? && a.about == About(TenantFilter) then Given(T("tenant")) else op.scope
  {
    hide PutField, DeclarationOf, FieldName, WithName, WithFlag, T, DeclareControl;
    var key := FieldName(a.about);
    if about != a.about && FieldName(about) == key { FieldNamesDiffer(about, a.about); }
    var fields := if op.declarations.Some? then op.declarations.value.fields else [];
    FieldPut(fields, key, DeclarationOf(a.value), FieldName(about));
    FieldPut([], key, DeclarationOf(a.value), FieldName(about));
    assert PutField([], key, DeclarationOf(a.value)) == [Field(key, DeclarationOf(a.value))] by { PutNothing(key, DeclarationOf(a.value)); }
  }

  lemma PutNothing(key: Text, v: Json)
    ensures PutField([], key, v) == [Field(key, v)]
  {
  }

  /** The last answer of the list about the topic settles the record; without one it stays. */
  lemma {:induction false} ApplyAllRecords(
    c: Conv, doc: Document, questions: seq<Question>, answers: seq<Answer>, after: Document, ref: nat, about: AnswerField)
    requires Sane(c) && ApplyAll(c, doc, questions, answers) == Some(after) && ref in doc.ops
    ensures ref in after.ops
    ensures (forall j :: 0 <= j < |answers| ==> !Concerns(c, doc, answers[j], ref, about)) ==>
              OnRecord(after.ops[ref], about) == OnRecord(doc.ops[ref], about)
    ensures forall i :: 0 <= i < |answers| && Concerns(c, doc, answers[i], ref, about)
                        && (forall j :: i < j < |answers| ==> !Concerns(c, doc, answers[j], ref, about)) ==>
              OnRecord(after.ops[ref], about) == Some(DeclarationOf(answers[i].value))
    decreases |answers|
  {
    hide ApplyOne, Change, OnRecord, OnlyBehind, Sane, DeclarationOf;
    if answers != [] {
      var a, rest := answers[0], answers[1..];
      var next := ApplyOne(c, doc, questions, a).value;
      ApplyOneExactly(c, doc, questions, a);
      var at: nat :| at in doc.ops && OnlyBehind(c, doc, a.surface, at) && a.about.About? && Change(c, doc.ops[at], a).Some?
                && Some(next) == Some(doc.(ops := doc.ops[at := Change(c, doc.ops[at], a).value]));
      ChangeRecords(c, doc.ops[at], a, about);
      if OnlyBehind(c, doc, a.surface, ref) { OnlyIsOne(c, doc, a.surface, at, ref); }
      ApplyAllRecords(c, next, questions, rest, after, ref, about);
      forall j | 0 <= j < |rest|
        ensures rest[j] == answers[j + 1] && (Concerns(c, next, rest[j], ref, about) <==> Concerns(c, doc, rest[j], ref, about))
      {
        StepLeaves(c, doc, questions, a, next, rest[j]);
      }
      RecordsStep(c, doc, next, answers, ref, about);
    }
  }

  lemma RecordsStep(c: Conv, doc: Document, next: Document, answers: seq<Answer>, ref: nat, about: AnswerField)
    requires answers != []
    requires forall j :: 0 <= j < |answers[1..]| ==>
               (Concerns(c, next, answers[1..][j], ref, about) <==> Concerns(c, doc, answers[j + 1], ref, about))
    ensures (forall j :: 0 < j < |answers| ==> !Concerns(c, doc, answers[j], ref, about)) ==>
              forall j :: 0 <= j < |answers[1..]| ==> !Concerns(c, next, answers[1..][j], ref, about)
    ensures forall i :: 0 < i < |answers| && Concerns(c, doc, answers[i], ref, about)
                        && (forall j :: i < j < |answers| ==> !Concerns(c, doc, answers[j], ref, about)) ==>
              Concerns(c, next, answers[1..][i - 1], ref, about)
              && forall j :: i - 1 < j < |answers[1..]| ==> !Concerns(c, next, answers[1..][j], ref, about)
  {
    hide Concerns;
  }

  lemma LaterIsGreater(ns: seq<Answer>, i: nat, j: nat)
    requires Sorted(ByKey(AnswerKey), ns) && i < j < |ns|
    ensures TextLe(ns[i].surface, ns[j].surface)
  {
    hide FieldName;
    var a, b := AnswerKey(ns[i]), AnswerKey(ns[j]);
    assert ByKey(AnswerKey)(ns[i], ns[j]);
    assert TupleLe(a, b) && a[0] == ns[i].surface && b[0] == ns[j].surface;
    TextTotal(a[0], a[0]);
  }

  lemma SameTopic(c: Conv, doc: Document, a: Answer, b: Answer, ref: nat, about: AnswerField)
    requires Concerns(c, doc, a, ref, about) && Concerns(c, doc, b, ref, about)
    ensures a.about == b.about
  {
  }

  lemma SameQuestionSameAnswer(answers: seq<Answer>, a: Answer, b: Answer)
    requires Normalized(answers).Some? && a in answers && b in answers && a.surface == b.surface && a.about == b.about
    ensures a == b
  {
    hide Normalized;
    NormalizedExactly(answers);
    var i :| 0 <= i < |answers| && answers[i] == a;
    var j :| 0 <= j < |answers| && answers[j] == b;
  }

  /**
   After answers were applied, an operation has on record, under each answered topic, what the customer said: the answer
   itself, or among several about one object the one with the greatest surface. What nobody answered stays as it was.
   */
  lemma AnswersOnRecord(
    c: Conv, doc: Document, questions: seq<Question>, answers: seq<Answer>, ns: seq<Answer>, after: Document,
    ref: nat, about: AnswerField, a: Answer)
    requires Sane(c) && Normalized(answers) == Some(ns) && ApplyAll(c, doc, questions, ns) == Some(after) && ref in doc.ops
    ensures ref in after.ops
    ensures (forall b :: b in answers ==> !Concerns(c, doc, b, ref, about)) ==>
              OnRecord(after.ops[ref], about) == OnRecord(doc.ops[ref], about)
    ensures a in answers && Concerns(c, doc, a, ref, about)
            && (forall b :: b in answers && Concerns(c, doc, b, ref, about) ==> TextLe(b.surface, a.surface)) ==>
              OnRecord(after.ops[ref], about) == Some(DeclarationOf(a.value))
  {
    hide Sane, Normalized, ApplyAll, Concerns, OnRecord, DeclarationOf, AnswerKey, ByKey;
    NormalizedDistinct(answers, ns);
    ApplyAllRecords(c, doc, questions, ns, after, ref, about);
    if a in answers && Concerns(c, doc, a, ref, about)
       && forall b :: b in answers && Concerns(c, doc, b, ref, about) ==> TextLe(b.surface, a.surface) {
      var i :| 0 <= i < |ns| && ns[i] == a;
      forall j | i < j < |ns| ensures !Concerns(c, doc, ns[j], ref, about) {
        assert ns[j] in answers;
        if Concerns(c, doc, ns[j], ref, about) {
          LaterIsGreater(ns, i, j);
          TextAntisymmetric(ns[i].surface, ns[j].surface);
          SameTopic(c, doc, ns[i], ns[j], ref, about);
          SameQuestionSameAnswer(answers, ns[i], ns[j]);
        }
      }
    }
    forall j | 0 <= j < |ns| ensures ns[j] in answers { assert ns[j] in ns; }
  }

  /** What a record says, word for word. */
  lemma RecordSays(v: AnswerValue)
    ensures DeclarationOf(v).Obj?
    ensures FieldIn(DeclarationOf(v).fields, T("value")) == Some(Str(match v case Enforced => T("enforced")
                                                                           case NotEnforced => T("not_enforced")
                                                                           case Unknown => T("unknown")))
    ensures FieldIn(DeclarationOf(v).fields, T("evidence_state"))
         == Some(Str(if v == Unknown then T("unknown") else T("customer_declared")))
  {
    hide FieldIn;
    var fs := DeclarationOf(v).fields;
    assert |T("value")| == 5 && |T("source")| == 6 && |T("evidence_state")| == 14;
    FieldAt(fs, T("value"), 0);
    FieldAt(fs, T("evidence_state"), 2);
  }

  lemma {:induction false} FieldAt(fields: seq<Field>, key: Text, i: nat)
    requires i < |fields| && fields[i].key == key && forall j :: 0 <= j < i ==> fields[j].key != key
    ensures FieldIn(fields, key) == Some(fields[i].value)
  {
    if i > 0 { FieldAt(fields[1..], key, i - 1); }
  }
}
