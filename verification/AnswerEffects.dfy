/**
 What answers change in a second import: exactly the answered questions close, at every place that shares the
 answered operation object, and no operation moves between surface lists.
 */
module AnswerEffects {
  import opened Options
  import opened Sorting
  import opened Records
  import opened OpenApi
  import opened Answers
  import S = StaticReview

  /** What the proofs use of Python's text conversions on the words that answers write. */
  ghost predicate Sane(c: Conv) {
    && c.ident(ENTITLEMENT_CONTROL) == ENTITLEMENT_CONTROL && c.ident(RATE_CONTROL) == RATE_CONTROL
    && c.py.strip(T("tenant")) == T("tenant") && c.py.lower(T("tenant")) == T("tenant") && c.py.lower([]) == []
    && forall a, b :: c.py.lower(a + (SPACE + b)) == c.py.lower(a) + (SPACE + c.py.lower(b))
  }

  // ----- inserting "tenant" into the classification text ---------------------------------------

  lemma {:induction false} ContainsLetters(t: Text, part: Text, i: nat)
    requires i < |part|
    ensures S.Contains(t, part) ==> part[i] in t
  {
    if part <= t {
      assert part[i] == t[i];
    } else if t != [] {
      ContainsLetters(t[1..], part, i);
    }
  }

  /** A prefix without a space ends before the first space. */
  lemma PrefixBeforeSpace(a: Text, b: Text, part: Text)
    requires part <= a + (SPACE + b)
    ensures |part| > |a| ==> 0x20 in part
    ensures |part| <= |a| ==> part <= a
  {
    if |part| > |a| { assert part[|a|] == (a + (SPACE + b))[|a|]; }
  }

  lemma {:induction false} ContainsSuffix(a: Text, b: Text, part: Text)
    requires S.Contains(b, part)
    ensures S.Contains(a + b, part)
  {
    if a == [] {
      assert a + b == b;
    } else {
      assert (a + b)[1..] == a[1..] + b;
      ContainsSuffix(a[1..], b, part);
    }
  }

  lemma {:induction false} ContainsPrefix(a: Text, b: Text, part: Text)
    requires S.Contains(a, part)
    ensures S.Contains(a + b, part)
  {
    if !(part <= a) {
      assert (a + b)[1..] == a[1..] + b;
      ContainsPrefix(a[1..], b, part);
    }
  }

  /** A word without spaces lies on one side of a space. */
  lemma {:induction false} ContainsSplit(a: Text, b: Text, part: Text)
    requires part != [] && 0x20 !in part
    ensures S.Contains(a + (SPACE + b), part) <==> S.Contains(a, part) || S.Contains(b, part)
  {
    var t := a + (SPACE + b);
    if S.Contains(a, part) { ContainsPrefix(a, SPACE + b, part); }
    if S.Contains(b, part) {
      ContainsSuffix(SPACE, b, part);
      ContainsSuffix(a, SPACE + b, part);
    }
    if S.Contains(t, part) {
      if part <= t {
        PrefixBeforeSpace(a, b, part);
      } else if a == [] {
        assert t[1..] == b;
      } else {
        assert t[1..] == a[1..] + (SPACE + b);
        ContainsSplit(a[1..], b, part);
      }
    }
  }

  /** The lowered text with a scope in its place. */
  lemma LoweredText(c: Conv, head: Text, scope: Text, tail: Text)
    requires Sane(c)
    ensures c.py.lower(head + (SPACE + (scope + (SPACE + tail)))) ==
            c.py.lower(head) + (SPACE + (c.py.lower(scope) + (SPACE + c.py.lower(tail))))
  {
  }

  /** Classification words: no space, and a letter that "tenant" does not have. */
  predicate Needle(w: string) {
    && (forall i :: 0 <= i < |w| ==> w[i] != ' ')
    && exists i :: 0 <= i < |w| && w[i] !in ['t', 'e', 'n', 'a']
  }

  lemma TenantLetters(ch: int)
    ensures ch in T("tenant") ==> ch in ['t' as int, 'e' as int, 'n' as int, 'a' as int]
  {
  }

  lemma NeedleNotInTenant(w: string)
    requires Needle(w)
    ensures !S.Contains(T("tenant"), T(w)) && !S.Contains([], T(w)) && T(w) != [] && 0x20 !in T(w)
  {
    var i :| 0 <= i < |w| && w[i] !in ['t', 'e', 'n', 'a'];
    ContainsLetters(T("tenant"), T(w), i);
    TenantLetters(T(w)[i]);
  }

  lemma ScopeInvisible(c: Conv, head: Text, tail: Text, w: string)
    requires Sane(c) && Needle(w)
    ensures S.Contains(c.py.lower(head + (SPACE + ([] + (SPACE + tail)))), T(w)) <==>
            S.Contains(c.py.lower(head + (SPACE + (T("tenant") + (SPACE + tail)))), T(w))
  {
    hide S.Contains, T;
    var h, t, word := c.py.lower(head), c.py.lower(tail), T(w);
    NeedleNotInTenant(w);
    LoweredText(c, head, [], tail);
    LoweredText(c, head, T("tenant"), tail);
    ContainsSplit(h, [] + (SPACE + t), word);
    ContainsSplit([], t, word);
    ContainsSplit(h, T("tenant") + (SPACE + t), word);
    ContainsSplit(T("tenant"), t, word);
  }

  predicate Needles(words: seq<string>) { forall i :: 0 <= i < |words| ==> Needle(words[i]) }

  /** Declaring the tenant scope of an operation that had none is invisible to the classifier. */
  lemma MentionsKept(c: Conv, place: Place, op: Operation, words: seq<string>)
    requires Sane(c) && ValueOf(c, op.scope) == [] && Needles(words)
    ensures Mentions(OperationText(c, place, op), words) <==>
            Mentions(OperationText(c, place, op.(scope := Given(T("tenant")))), words)
  {
    hide Needle, Head, S.Contains;
    var after := op.(scope := Given(T("tenant")));
    assert ValueOf(c, after.scope) == T("tenant") by { TenantIsAValue(c); }
    forall i | 0 <= i < |words|
      ensures S.Contains(OperationText(c, place, op), T(words[i])) <==>
              S.Contains(OperationText(c, place, after), T(words[i]))
    {
      ScopeInvisible(c, Head(c, place, op.fixed), ValueOf(c, op.fixed.dataClass), words[i]);
    }
  }

  lemma TenantIsAValue(c: Conv)
    requires Sane(c)
    ensures ValueOf(c, Given(T("tenant"))) == T("tenant") && T("tenant") != []
  {
    var m := S.MISSING;
    forall i | 0 <= i < |m| ensures T(m[i]) != T("tenant") {
      assert |m[i]| == 6 ==> m[i] == "client" && T("client")[0] != T("tenant")[0];
    }
  }

  lemma IsNeedle(w: string, i: nat)
    requires i < |w| && w[i] !in ['t', 'e', 'n', 'a'] && forall j :: 0 <= j < |w| ==> w[j] != ' '
    ensures Needle(w)
  {
  }

  lemma ClassifierWords()
    ensures Needles(["export", "download", "bulk"]) && Needles(["signup", "trial"])
    ensures Needles(["billing", "subscription", "usage", "meter"]) && Needles(["usage", "meter"])
    ensures Needles(["invite", "user", "member", "seat"])
  {
    hide Needle;
    IsNeedle("export", 1);
    IsNeedle("download", 0);
    IsNeedle("bulk", 0);
    IsNeedle("signup", 0);
    IsNeedle("trial", 1);
    IsNeedle("billing", 0);
    IsNeedle("subscription", 0);
    IsNeedle("usage", 0);
    IsNeedle("meter", 0);
    IsNeedle("invite", 0);
    IsNeedle("user", 0);
    IsNeedle("member", 0);
    IsNeedle("seat", 0);
  }

  lemma MoreClassifierWords()
    ensures Needles(["oauth", "integration", "app", "webhook"]) && Needles(["webhook"])
    ensures Needles(["admin", "support"]) && Needles(["agent", "tool"])
  {
    hide Needle;
    IsNeedle("oauth", 0);
    IsNeedle("integration", 0);
    IsNeedle("app", 1);
    IsNeedle("webhook", 0);
    IsNeedle("admin", 1);
    IsNeedle("support", 0);
    IsNeedle("agent", 1);
    IsNeedle("tool", 1);
  }

  /** Declaring a missing tenant scope moves the operation into no list and out of none. */
  lemma JoinsKept(c: Conv, place: Place, op: Operation, l: List)
    requires Sane(c) && ValueOf(c, op.scope) == []
    ensures Joins(c, place, op, l) <==> Joins(c, place, op.(scope := Given(T("tenant"))), l)
  {
    hide OperationText, Mentions, Needles, ValueOf;
    ClassifierWords();
    MoreClassifierWords();
    match l
    case ExportList => MentionsKept(c, place, op, ["export", "download", "bulk"]);
    case SignupList => MentionsKept(c, place, op, ["signup", "trial"]);
    case BillingList => MentionsKept(c, place, op, ["billing", "subscription", "usage", "meter"]);
    case MeterList =>
      MentionsKept(c, place, op, ["billing", "subscription", "usage", "meter"]);
      MentionsKept(c, place, op, ["usage", "meter"]);
    case SeatList => MentionsKept(c, place, op, ["invite", "user", "member", "seat"]);
    case WebhookList =>
      MentionsKept(c, place, op, ["oauth", "integration", "app", "webhook"]);
      MentionsKept(c, place, op, ["webhook"]);
    case OauthList =>
      MentionsKept(c, place, op, ["oauth", "integration", "app", "webhook"]);
      MentionsKept(c, place, op, ["webhook"]);
    case AdminList => MentionsKept(c, place, op, ["admin", "support"]);
    case AgentList => MentionsKept(c, place, op, ["agent", "tool"]);
  }

  // ----- declared controls ---------------------------------------------------------------------

  lemma SortKeepsMembers<A(!new)>(le: (A, A) -> bool, xs: seq<A>, x: A)
    ensures x in Sort(le, xs) <==> x in xs
  {
    assert x in multiset(Sort(le, xs)) <==> x in multiset(xs);
  }

  /** The enabled names after one more control was declared. */
  lemma EnabledAfter(control: Control, name: Text, t: Text)
    requires DeclareControl(control, name).Some?
    ensures t in EnabledNames(DeclareControl(control, name).value) <==> t in EnabledNames(control) || t == name
  {
    hide Sort, NamesWith, Distinct, Others;
    match control
    case One(s) => SortKeepsMembers(TextLe, Distinct([s] + [name]), t);
    case Many(ss) => SortKeepsMembers(TextLe, Distinct(ss + [name]), t);
    case Flags(fs) => SortKeepsMembers(FlagLe, Others(fs, name) + [(name, true)], (t, true));
    case _ =>
  }

  lemma ControlsAfter(c: Conv, control: Control, name: Text, id: Text)
    requires DeclareControl(control, name).Some? && c.ident(name) == name && name != [] && !S.OneOf(name, S.MISSING)
    ensures HasControl(c, DeclareControl(control, name).value, id) <==> HasControl(c, control, id) || id == name
  {
    hide EnabledNames, S.OneOf, DeclareControl;
    var after := DeclareControl(control, name).value;
    forall t ensures t in EnabledNames(after) <==> t in EnabledNames(control) || t == name { EnabledAfter(control, name, t); }
    if id == name { assert name in EnabledNames(after); }
  }

  function FamilyOf(topic: Topic): Family { if topic.EntitlementCheck? then Entitlement else Rate }

  lemma ControlNames(f: Family, topic: Topic)
    requires !topic.TenantFilter?
    ensures ControlFor(topic) in Aliases(f) <==> f == FamilyOf(topic)
    ensures ControlFor(topic) != [] && !S.OneOf(ControlFor(topic), S.MISSING)
  {
    assert Aliases(Entitlement)[2] == ENTITLEMENT_CONTROL && Aliases(Rate)[3] == RATE_CONTROL;
    var m := S.MISSING;
    forall i | 0 <= i < |m| ensures T(m[i]) != ControlFor(topic) { assert |m[i]| <= 11; }
  }

  /** One enforced control answer adds its family and no other. */
  lemma FamiliesAfter(c: Conv, op: Operation, topic: Topic, f: Family)
    requires Sane(c) && !topic.TenantFilter? && DeclareControl(op.control, ControlFor(topic)).Some?
    ensures HasFamily(c, DeclareControl(op.control, ControlFor(topic)).value, f) <==>
            HasFamily(c, op.control, f) || f == FamilyOf(topic)
  {
    hide Aliases, HasControl, DeclareControl, S.OneOf;
    var name := ControlFor(topic);
    ControlNames(f, topic);
    forall id
      ensures HasControl(c, DeclareControl(op.control, name).value, id) <==> HasControl(c, op.control, id) || id == name
    {
      ControlsAfter(c, op.control, name, id);
    }
  }

  // ----- one answer ----------------------------------------------------------------------------

  /** An enforced answer closes its own topic and leaves every other topic and every list as it was. */
  lemma EnforceEffect(c: Conv, op: Operation, topic: Topic, after: Operation, place: Place, hint: Hint, l: List)
    requires Sane(c) && Enforce(c, op, topic) == Some(after)
    ensures after.fixed == op.fixed
    ensures Asks(c, place, after, hint) <==> Asks(c, place, op, hint) && hint != Answerable(topic)
    ensures Joins(c, place, after, l) <==> Joins(c, place, op, l)
  {
    hide HasFamily, Joins, DeclareControl, AnyBroad, Overrides, S.Get, S.Truth;
    if topic.TenantFilter? {
      TenantIsAValue(c);
      assert ValueOf(c, op.scope) == [];
      forall x ensures Joins(c, place, after, x) <==> Joins(c, place, op, x) { JoinsKept(c, place, op, x); }
    } else {
      FamiliesAfter(c, op, topic, Entitlement);
      FamiliesAfter(c, op, topic, Rate);
      forall x ensures Joins(c, place, after, x) <==> Joins(c, place, op, x) {
        ListsIgnoreControls(c, place, op, after.control, x);
      }
    }
  }

  lemma ListsIgnoreControls(c: Conv, place: Place, op: Operation, control: Control, l: List)
    ensures Joins(c, place, op.(control := control), l) == Joins(c, place, op, l)
  {
    hide Mentions;
    assert OperationText(c, place, op.(control := control)) == OperationText(c, place, op);
  }

  lemma DeclareEffect(c: Conv, op: Operation, a: Answer, after: Operation, place: Place, hint: Hint, l: List)
    requires Declare(op, a) == Some(after)
    ensures after.fixed == op.fixed && after.scope == op.scope && after.control == op.control
    ensures Asks(c, place, after, hint) <==> Asks(c, place, op, hint)
    ensures Joins(c, place, after, l) <==> Joins(c, place, op, l)
  {
    hide HasFamily, Mentions, AnyBroad, Overrides, S.Get, S.Truth, DeclarationOf, FieldName, PutField;
    assert OperationText(c, place, after) == OperationText(c, place, op);
  }

  lemma ChangeEffect(c: Conv, op: Operation, a: Answer, place: Place, hint: Hint, l: List)
    requires Sane(c) && a.about.About? && Change(c, op, a).Some?
    ensures var after := Change(c, op, a).value;
            && after.fixed == op.fixed
            && (Asks(c, place, after, hint) <==>
                Asks(c, place, op, hint) && !(a.value.Enforced? && hint == Answerable(a.about.topic)))
            && (Joins(c, place, after, l) <==> Joins(c, place, op, l))
  {
    hide Asks, Joins, Declare, Enforce;
    var declared := Declare(op, a).value;
    DeclareEffect(c, op, a, declared, place, hint, l);
    if a.value.Enforced? { EnforceEffect(c, declared, a.about.topic, Change(c, op, a).value, place, hint, l); }
  }

  // ----- the whole document --------------------------------------------------------------------

  ghost predicate AsksAt(c: Conv, doc: Document, i: nat, hint: Hint) {
    && i < |doc.places| && doc.places[i].ref in doc.ops
    && Asks(c, doc.places[i], doc.ops[doc.places[i].ref], hint)
  }

  predicate JoinsAt(c: Conv, doc: Document, i: nat, l: List) {
    && i < |doc.places| && doc.places[i].ref in doc.ops
    && Joins(c, doc.places[i], doc.ops[doc.places[i].ref], l)
  }

  /** The answer enforces this topic on the operation object of this place. */
  predicate Closes(c: Conv, doc: Document, a: Answer, i: nat, hint: Hint) {
    && i < |doc.places| && a.value.Enforced? && a.about.About? && hint == Answerable(a.about.topic)
    && Targets(c, doc, a.surface) == {doc.places[i].ref}
  }

  lemma ApplyOneEffect(
    c: Conv, doc: Document, questions: seq<Question>, a: Answer, after: Document, i: nat, hint: Hint, l: List)
    requires Sane(c) && ApplyOne(c, doc, questions, a) == Some(after)
    ensures after.places == doc.places && after.ops.Keys == doc.ops.Keys && after.schemes == doc.schemes
    ensures AsksAt(c, after, i, hint) <==> AsksAt(c, doc, i, hint) && !Closes(c, doc, a, i, hint)
    ensures JoinsAt(c, after, i, l) <==> JoinsAt(c, doc, i, l)
  {
    hide Asks, Joins, Change, Targets, Sane;
    var target := Target(c, doc, questions, a).value;
    assert Targets(c, doc, a.surface) == {target};
    if i < |doc.places| {
      var ref := doc.places[i].ref;
      assert ref == target <==> {ref} == {target} by { assert ref in {target} <==> ref == target; }
      ChangeEffect(c, doc.ops[target], a, doc.places[i], hint, l);
    }
  }

  /** Answers change no identifier, so every surface keeps its targets. */
  lemma TargetsKept(c: Conv, doc: Document, questions: seq<Question>, a: Answer, after: Document, surface: Text)
    requires Sane(c) && ApplyOne(c, doc, questions, a) == Some(after)
    ensures Targets(c, after, surface) == Targets(c, doc, surface)
  {
    hide Asks, Joins, Change, SurfaceId, Sane;
    var target := Target(c, doc, questions, a).value;
    forall i | 0 <= i < |doc.places| && doc.places[i].ref in doc.ops
      ensures after.ops[doc.places[i].ref].fixed == doc.ops[doc.places[i].ref].fixed
    {
      ChangeEffect(c, doc.ops[target], a, doc.places[i], BroadScopes, ExportList);
    }
  }

  ghost predicate SomeCloses(c: Conv, doc: Document, answers: seq<Answer>, i: nat, hint: Hint) {
    exists a :: a in answers && Closes(c, doc, a, i, hint)
  }

  lemma {:induction false} ApplyAllEffect(
    c: Conv, doc: Document, questions: seq<Question>, answers: seq<Answer>, after: Document, i: nat, hint: Hint, l: List)
    requires Sane(c) && ApplyAll(c, doc, questions, answers) == Some(after)
    ensures after.places == doc.places && after.ops.Keys == doc.ops.Keys && after.schemes == doc.schemes
    ensures AsksAt(c, after, i, hint) <==> AsksAt(c, doc, i, hint) && !SomeCloses(c, doc, answers, i, hint)
    ensures JoinsAt(c, after, i, l) <==> JoinsAt(c, doc, i, l)
    decreases |answers|
  {
    hide AsksAt, JoinsAt, ApplyOne, Targets, Sane;
    if answers != [] {
      var next := ApplyOne(c, doc, questions, answers[0]).value;
      ApplyOneEffect(c, doc, questions, answers[0], next, i, hint, l);
      ApplyAllEffect(c, next, questions, answers[1..], after, i, hint, l);
      forall a ensures Closes(c, next, a, i, hint) <==> Closes(c, doc, a, i, hint) {
        TargetsKept(c, doc, questions, answers[0], next, a.surface);
      }
      assert answers == [answers[0]] + answers[1..];
    }
  }

  lemma NormalizedMembers(answers: seq<Answer>, a: Answer)
    requires Normalized(answers).Some?
    ensures a in Normalized(answers).value <==> a in answers
  {
    SortKeepsMembers(ByKey(AnswerKey), EachOnce(answers), a);
  }

  /**
   Re-importing the answered document asks exactly what was asked before, less the enforced topics at the places
   of the answered operation object; no place joins or leaves a surface list. In particular answers that are not
   enforced change no question, and no answer changes a question about product rules or security schemes.
   */
  lemma AnswersCloseExactly(
    c: Conv, doc: Document, questions: seq<Question>, answers: seq<Answer>, normalized: seq<Answer>, after: Document,
    i: nat, hint: Hint, l: List)
    requires Sane(c) && Normalized(answers) == Some(normalized) && ApplyAll(c, doc, questions, normalized) == Some(after)
    ensures after.places == doc.places && after.ops.Keys == doc.ops.Keys && after.schemes == doc.schemes
    ensures AsksAt(c, after, i, hint) <==> AsksAt(c, doc, i, hint) && !SomeCloses(c, doc, answers, i, hint)
    ensures JoinsAt(c, after, i, l) <==> JoinsAt(c, doc, i, l)
  {
    hide AsksAt, JoinsAt, Closes, Sane, Normalized;
    ApplyAllEffect(c, doc, questions, normalized, after, i, hint, l);
    forall a ensures a in normalized <==> a in answers { NormalizedMembers(answers, a); }
  }
}
