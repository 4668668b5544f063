/**
 The iterative walks over decoded JSON that replace recursion: `_node_count_within_limit` of the MCP
 server, `_preflight_json_graph` of findings sync and `_validate_graph` of the browser review.

 Each pops a node off an explicit stack and pushes its children. Each is proved to decide a recursive
 definition that knows nothing of stacks or of the order of visits.
 */
module Worklist {
  import opened Options
  import opened Sorting

  /** A decoded value: JSON, plus what Python could hold that JSON cannot. */
  datatype Graph =
    | Nil
    | Flag(b: bool)
    | Number(n: int)
    | Real(finite: bool)
    | Chars(s: Text)
    | List(items: seq<Graph>)
    | Dict(entries: seq<Entry>)
    | Foreign

  datatype Key = TextKey(s: Text) | OtherKey

  datatype Entry = Entry(key: Key, value: Graph)

  const SAFE_INT := 0x1F_FFFF_FFFF_FFFF
  const MAX_DEPTH := 16
  const MAX_CHARS := 256

  // ----- the recursive definitions -------------------------------------------------------------

  function Children(v: Graph): (r: seq<Graph>)
    ensures forall i :: 0 <= i < |r| ==> r[i] < v
  {
    match v
    case List(items) => items
    case Dict(entries) => Values(entries)
    case _ => []
  }

  function Values(entries: seq<Entry>): (r: seq<Graph>)
    ensures |r| == |entries|
    ensures forall i :: 0 <= i < |r| ==> r[i] == entries[i].value
  {
    if entries == [] then [] else [entries[0].value] + Values(entries[1..])
  }

  /** The number of nodes of the tree. */
  function Size(v: Graph): (n: nat)
    ensures n >= 1
    decreases v, 1
  {
    1 + SizeAll(v, Children(v))
  }

  function SizeAll(parent: Graph, vs: seq<Graph>): nat
    requires forall i :: 0 <= i < |vs| ==> vs[i] < parent
    decreases parent, 0, |vs|
  {
    if vs == [] then 0 else SizeAll(parent, vs[..|vs| - 1]) + Size(vs[|vs| - 1])
  }

  /** `ok` holds of every node of `v`, where `v` itself is at `depth`. */
  predicate Everywhere(ok: (Graph, nat) -> bool, v: Graph, depth: nat)
    decreases v
  {
    ok(v, depth) && forall i :: 0 <= i < |Children(v)| ==> Everywhere(ok, Children(v)[i], depth + 1)
  }

  // ----- what is left on a stack ---------------------------------------------------------------

  /** A node on the stack together with its depth. */
  datatype Pending = Pending(node: Graph, depth: nat)

  /** The nodes still to be counted, those below the stacked ones included. */
  function Weight(stack: seq<Pending>): nat {
    if stack == [] then 0 else Weight(stack[..|stack| - 1]) + Size(stack[|stack| - 1].node)
  }

  predicate AllPending(ok: (Graph, nat) -> bool, stack: seq<Pending>) {
    forall i :: 0 <= i < |stack| ==> Holds(ok, stack[i])
  }

  predicate Holds(ok: (Graph, nat) -> bool, p: Pending) {
    Everywhere(ok, p.node, p.depth)
  }

  function Push(vs: seq<Graph>, depth: nat): (r: seq<Pending>)
    ensures |r| == |vs|
    ensures forall i :: 0 <= i < |r| ==> r[i] == Pending(vs[i], depth)
  {
    if vs == [] then [] else Push(vs[..|vs| - 1], depth) + [Pending(vs[|vs| - 1], depth)]
  }

  /** Pushing entry by entry builds the same stack as pushing all values at once. */
  lemma PushNext(rest: seq<Pending>, entries: seq<Entry>, i: nat, depth: nat)
    requires i < |entries|
    ensures var vs := Values(entries);
            rest + Push(vs[..i + 1], depth) == rest + Push(vs[..i], depth) + [Pending(entries[i].value, depth)]
  {
    var vs := Values(entries);
    assert vs[..i + 1][..i] == vs[..i];
    Reassociate(rest, Push(vs[..i], depth), [Pending(vs[i], depth)]);
  }

  lemma Reassociate(a: seq<Pending>, b: seq<Pending>, c: seq<Pending>)
    ensures a + (b + c) == (a + b) + c
  {
  }

  lemma {:induction false} WeightConcat(a: seq<Pending>, b: seq<Pending>)
    ensures Weight(a + b) == Weight(a) + Weight(b)
    decreases |b|
  {
    if b == [] {
      assert a + b == a;
    } else {
      assert (a + b)[..|a + b| - 1] == a + b[..|b| - 1];
      WeightConcat(a, b[..|b| - 1]);
    }
  }

  lemma {:induction false} WeightOfChildren(parent: Graph, vs: seq<Graph>, depth: nat)
    requires forall i :: 0 <= i < |vs| ==> vs[i] < parent
    ensures Weight(Push(vs, depth)) == SizeAll(parent, vs)
    decreases |vs|
  {
    if vs != [] {
      var n := |vs| - 1;
      WeightOfChildren(parent, vs[..n], depth);
      assert Push(vs, depth)[..n] == Push(vs[..n], depth);
    }
  }

  lemma ExpandWeight(rest: seq<Pending>, top: Pending)
    ensures Weight(rest + [top]) == 1 + Weight(rest + Push(Children(top.node), top.depth + 1))
  {
    WeightOfChildren(top.node, Children(top.node), top.depth + 1);
    WeightConcat(rest, Push(Children(top.node), top.depth + 1));
    assert (rest + [top])[..|rest|] == rest;
  }

  lemma AllPendingConcat(ok: (Graph, nat) -> bool, a: seq<Pending>, b: seq<Pending>)
    ensures AllPending(ok, a + b) <==> AllPending(ok, a) && AllPending(ok, b)
  {
    forall i | 0 <= i < |b| ensures (a + b)[|a| + i] == b[i] {}
    if AllPending(ok, a + b) {
      forall i | 0 <= i < |a| ensures Holds(ok, a[i]) { assert (a + b)[i] == a[i]; }
    }
  }

  lemma PendingChildren(ok: (Graph, nat) -> bool, top: Pending)
    ensures Holds(ok, top) <==> ok(top.node, top.depth) && AllPending(ok, Push(Children(top.node), top.depth + 1))
  {
    var kids := Push(Children(top.node), top.depth + 1);
    forall i | 0 <= i < |kids|
      ensures Holds(ok, kids[i]) <==> Everywhere(ok, Children(top.node)[i], top.depth + 1)
    {
    }
  }

  /** Replacing a popped node by its children keeps what is demanded. */
  lemma ExpandDemand(ok: (Graph, nat) -> bool, rest: seq<Pending>, top: Pending)
    ensures AllPending(ok, rest + [top]) <==>
            ok(top.node, top.depth) && AllPending(ok, rest + Push(Children(top.node), top.depth + 1))
  {
    AllPendingConcat(ok, rest, [top]);
    AllPendingConcat(ok, rest, Push(Children(top.node), top.depth + 1));
    PendingChildren(ok, top);
    assert AllPending(ok, [top]) <==> Holds(ok, top) by { assert [top][0] == top; }
  }

  lemma PendingOne(ok: (Graph, nat) -> bool, p: Pending)
    ensures Weight([p]) == Size(p.node) && Weight([]) == 0
    ensures AllPending(ok, [p]) <==> Everywhere(ok, p.node, p.depth)
    ensures AllPending(ok, [])
  {
    assert [p][..0] == [] && [p][0] == p;
    assert AllPending(ok, [p]) <==> Holds(ok, [p][0]);
  }

  // ----- the MCP server's node count -----------------------------------------------------------

  method NodeCountWithinLimit(value: Graph, limit: nat) returns (ok: bool)
    ensures ok <==> Size(value) <= limit
  {
    var stack, nodes := [Pending(value, 0)], 0;
    while stack != []
      invariant nodes + Weight(stack) == Size(value)
      invariant nodes <= limit
      decreases Weight(stack)
    {
      var current := stack[|stack| - 1];
      ExpandWeight(stack[..|stack| - 1], current);
      assert stack == stack[..|stack| - 1] + [current];
      stack := stack[..|stack| - 1];
      nodes := nodes + 1;
      if nodes > limit { return false; }
      stack := stack + Push(Children(current.node), current.depth + 1);
    }
    return true;
  }

  // ----- findings sync -------------------------------------------------------------------------

  datatype Problem = Complexity | NotPortable

  predicate KeyOk(k: Key) { k.TextKey? && |k.s| <= MAX_CHARS }

  /** What the preflight demands of one node. */
  function Portable(maxItems: nat): (Graph, nat) -> bool {
    (v: Graph, depth: nat) =>
      && depth <= MAX_DEPTH
      && match v
         case Nil => true
         case Flag(_) => true
         case Number(n) => -SAFE_INT <= n <= SAFE_INT
         case Real(_) => false
         case Chars(s) => |s| <= MAX_CHARS
         case List(items) => |items| <= maxItems
         case Dict(entries) => |entries| <= maxItems && forall i :: 0 <= i < |entries| ==> KeyOk(entries[i].key)
         case Foreign => false
  }

  method PreflightJsonGraph(value: Graph, maxNodes: nat, maxItems: nat) returns (problem: Option<Problem>)
    ensures problem.None? <==> Size(value) <= maxNodes && Everywhere(Portable(maxItems), value, 0)
  {
    hide Everywhere, Size, Weight, AllPending, Holds, Push, Values;
    ghost var ok := Portable(maxItems);
    PendingOne(ok, Pending(value, 0));
    var stack, nodes := [Pending(value, 0)], 0;
    while stack != []
      invariant nodes + Weight(stack) == Size(value)
      invariant Everywhere(ok, value, 0) <==> AllPending(ok, stack)
      invariant nodes <= maxNodes
      decreases Weight(stack)
    {
      var current, depth := stack[|stack| - 1].node, stack[|stack| - 1].depth;
      ghost var rest := stack[..|stack| - 1];
      ExpandWeight(rest, stack[|stack| - 1]);
      ExpandDemand(ok, rest, stack[|stack| - 1]);
      assert stack == rest + [stack[|stack| - 1]];
      stack := stack[..|stack| - 1];
      nodes := nodes + 1;
      if nodes > maxNodes || depth > MAX_DEPTH { return Some(Complexity); }
      match current {
        case Dict(entries) =>
          if |entries| > maxItems { return Some(Complexity); }
          for i := 0 to |entries|
            invariant forall k :: 0 <= k < i ==> KeyOk(entries[k].key)
            invariant stack == rest + Push(Values(entries)[..i], depth + 1)
          {
            if !entries[i].key.TextKey? || |entries[i].key.s| > MAX_CHARS {
              assert !KeyOk(entries[i].key);
              return Some(NotPortable);
            }
            PushNext(rest, entries, i, depth + 1);
            stack := stack + [Pending(entries[i].value, depth + 1)];
          }
          assert Values(entries)[..|entries|] == Values(entries);
        case List(items) =>
          if |items| > maxItems { return Some(Complexity); }
          stack := stack + Push(items, depth + 1);
        case Chars(s) =>
          if |s| > MAX_CHARS { return Some(Complexity); }
        case Nil =>
        case Flag(_) =>
        case Number(n) =>
          if !(-SAFE_INT <= n <= SAFE_INT) { return Some(NotPortable); }
        case Real(_) => return Some(NotPortable);
        case Foreign => return Some(NotPortable);
      }
      assert stack == rest + Push(Children(current), depth + 1);
    }
    return None;
  }

  // ----- browser review ------------------------------------------------------------------------

  datatype Code = TooComplex | InvalidUnicode | InvalidDocument

  predicate HasSurrogate(s: Text) { exists i :: 0 <= i < |s| && 0xD800 <= s[i] <= 0xDFFF }

  /** Every text of the node, its own or a key, is free of surrogates. */
  predicate UnicodeOk(v: Graph, depth: nat) {
    match v
    case Chars(s) => !HasSurrogate(s)
    case Dict(entries) => forall i :: 0 <= i < |entries| && entries[i].key.TextKey? ==> !HasSurrogate(entries[i].key.s)
    case _ => true
  }

  predicate ScalarOk(v: Graph, depth: nat) {
    match v
    case Number(n) => -SAFE_INT <= n <= SAFE_INT
    case Real(finite) => finite
    case Foreign => false
    case _ => true
  }

  /** Accepts exactly the sound graphs, and every code it reports names something that is wrong. */
  method ValidateGraph(value: Graph, limit: nat) returns (code: Option<Code>)
    ensures code.None? <==>
              Size(value) <= limit && Everywhere(UnicodeOk, value, 0) && Everywhere(ScalarOk, value, 0)
    ensures code == Some(TooComplex) ==> Size(value) > limit
    ensures code == Some(InvalidUnicode) ==> !Everywhere(UnicodeOk, value, 0)
    ensures code == Some(InvalidDocument) ==> !Everywhere(ScalarOk, value, 0)
  {
    hide Everywhere, Size, Weight, AllPending, Holds, Push, Values;
    PendingOne(UnicodeOk, Pending(value, 0));
    PendingOne(ScalarOk, Pending(value, 0));
    var stack, nodes := [Pending(value, 0)], 0;
    while stack != []
      invariant nodes + Weight(stack) == Size(value)
      invariant Everywhere(UnicodeOk, value, 0) <==> AllPending(UnicodeOk, stack)
      invariant Everywhere(ScalarOk, value, 0) <==> AllPending(ScalarOk, stack)
      invariant nodes <= limit
      decreases Weight(stack)
    {
      var current, depth := stack[|stack| - 1].node, stack[|stack| - 1].depth;
      ghost var rest := stack[..|stack| - 1];
      ExpandWeight(rest, stack[|stack| - 1]);
      ExpandDemand(UnicodeOk, rest, stack[|stack| - 1]);
      ExpandDemand(ScalarOk, rest, stack[|stack| - 1]);
      assert stack == rest + [stack[|stack| - 1]];
      stack := stack[..|stack| - 1];
      nodes := nodes + 1;
      if nodes > limit { return Some(TooComplex); }
      match current {
        case Dict(entries) =>
          for i := 0 to |entries|
            invariant forall k :: 0 <= k < i && entries[k].key.TextKey? ==> !HasSurrogate(entries[k].key.s)
            invariant stack == rest + Push(Values(entries)[..i], depth + 1)
          {
            if entries[i].key.TextKey? && HasSurrogate(entries[i].key.s) { return Some(InvalidUnicode); }
            PushNext(rest, entries, i, depth + 1);
            stack := stack + [Pending(entries[i].value, depth + 1)];
          }
          assert Values(entries)[..|entries|] == Values(entries);
        case List(items) => stack := stack + Push(items, depth + 1);
        case Chars(s) =>
          if HasSurrogate(s) { return Some(InvalidUnicode); }
        case Number(n) =>
          if !(-SAFE_INT <= n <= SAFE_INT) { return Some(InvalidDocument); }
        case Real(finite) =>
          if !finite { return Some(InvalidDocument); }
        case Nil =>
        case Flag(_) =>
        case Foreign => return Some(InvalidDocument);
      }
      assert stack == rest + Push(Children(current), depth + 1);
    }
    return None;
  }
}
