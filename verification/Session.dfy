/**
 The JSON-RPC session of the MCP server: `handle_line` and the life cycle part of `dispatch`.

 A frame is given by what the checks before dispatch find in it. Tool handlers, response size and the tool
 registry belong to the `Host`.
 */
module Session {
  import opened Options

  datatype Stage = New | Initializing | Ready

  datatype Id = Name(s: string) | Number(n: int)

  datatype IdField = NoId | Given(id: Id) | Unusable

  datatype Params = Params(
    protocolVersion: Option<string>,       // when it is a non-empty string
    clientName: Option<string>,
    clientVersion: Option<string>,
    capabilitiesOk: bool,
    toolName: Option<string>,
    argumentsOk: bool)                     // absent or an object

  datatype ParamsField = NoParams | Object(params: Params) | NotObject

  datatype Request = Request(id: IdField, versionOk: bool, verb: Option<string>, params: ParamsField)

  datatype Frame =
    | NotText | TooLong | Blank | TooDeep | NotJson
    | Decoded(request: Option<Request>, withinNodes: bool)    // no request: JSON, but not an object

  datatype Reply = Reply(id: Option<Id>, error: Option<int>)

  datatype ToolOutcome = Returned | Refused | Crashed

  datatype Host = Host(
    tools: set<string>,
    outcome: (string, nat) -> ToolOutcome,   // of the n-th handler call
    fits: nat -> bool)                       // whether the n-th reply is within the size limit

  datatype Call = Call(tool: string, caller: string)

  datatype State = State(
    stage: Stage,
    caller: string,
    protocol: Option<string>,
    calls: seq<Call>,            // tool handlers run so far
    replies: seq<Reply>)

  const VERSIONS := ["2025-06-18", "2025-11-25"]
  const LATEST := "2025-11-25"
  const EMPTY := Params(None, None, None, true, None, true)

  datatype Failure = InvalidRequest | InvalidParams | MethodNotFound | UnknownTool | Internal

  function CodeOf(f: Failure): int {
    match f
    case InvalidRequest => -32600
    case InvalidParams => -32602
    case MethodNotFound => -32601
    case UnknownTool => -32602
    case Internal => -32603
  }

  predicate IsNotification(r: Request) { r.id.NoId? }

  predicate StartsWith(s: string, prefix: string) { prefix <= s }

  /** A class for the dictionary that `dispatch` updates in place. */
  class Live {
    var stage: Stage
    var caller: string
    var protocol: Option<string>
    var calls: seq<Call>
    var replies: seq<Reply>

    constructor (caller: string)
      ensures Now() == State(New, caller, None, [], [])
    {
      this.stage, this.caller, this.protocol, this.calls, this.replies := New, caller, None, [], [];
    }

    function Now(): State
      reads this
    {
      State(stage, caller, protocol, calls, replies)
    }

    method Initialize(p: Params) returns (failure: Option<Failure>)
      modifies `stage, `caller, `protocol
      ensures (Now(), failure) == AfterInitialize(old(Now()), p)
    {
      if stage != New { return Some(InvalidRequest); }
      if p.protocolVersion.None? || !p.capabilitiesOk || p.clientName.None? || p.clientVersion.None? {
        return Some(InvalidParams);
      }
      caller := "mcp:" + p.clientName.value;
      protocol := Some(if p.protocolVersion.value in VERSIONS then p.protocolVersion.value else LATEST);
      stage := Initializing;
      return None;
    }

    method Dispatch(host: Host, verb: string, p: Params) returns (failure: Option<Failure>)
      modifies `stage, `caller, `protocol, `calls
      ensures (Now(), failure) == AfterDispatch(host, old(Now()), verb, p)
    {
      if verb == "ping" { return None; }
      if verb == "initialize" {
        failure := Initialize(p);
        return;
      }
      if verb == "notifications/initialized" {
        if stage != Initializing { return Some(InvalidRequest); }
        stage := Ready;
        return None;
      }
      if stage != Ready { return Some(InvalidRequest); }
      if verb == "tools/list" { return None; }
      if verb != "tools/call" { return Some(MethodNotFound); }
      if p.toolName.None? || !p.argumentsOk { return Some(InvalidParams); }
      if p.toolName.value !in host.tools { return Some(UnknownTool); }
      var outcome := host.outcome(p.toolName.value, |calls|);
      calls := calls + [Call(p.toolName.value, caller)];
      return if outcome.Crashed? then Some(Internal) else None;
    }

    /** One line of input; it never raises and replies at most once. */
    method HandleLine(host: Host, frame: Frame) returns (reply: Option<Reply>)
      modifies this
      ensures (Now(), reply) == Step(host, old(Now()), frame)
    {
      hide AfterDispatch;
      reply := None;
      if frame.Blank? { return; }
      if !frame.Decoded? {
        reply := Some(Reply(None, Some(if frame.NotJson? then -32700 else -32600)));
      } else if frame.request.None? {
        reply := Some(Reply(None, Some(-32600)));
      } else {
        var r := frame.request.value;
        if !frame.withinNodes || !r.versionOk || r.id.Unusable? {
          reply := if IsNotification(r) then None else Some(Reply(None, Some(-32600)));
        } else {
          var rid := if r.id.Given? then Some(r.id.id) else None;
          var failure: Option<Failure> := None;
          if r.verb.None? {
            failure := Some(InvalidRequest);
          } else if r.params.NotObject? {
            failure := Some(InvalidParams);
          } else if IsNotification(r) {
            if r.verb.value != "notifications/initialized" { return; }
            failure := Dispatch(host, r.verb.value, if r.params.Object? then r.params.params else EMPTY);
          } else if StartsWith(r.verb.value, "notifications/") {
            failure := Some(InvalidRequest);
          } else {
            failure := Dispatch(host, r.verb.value, if r.params.Object? then r.params.params else EMPTY);
          }
          if IsNotification(r) { return; }
          reply := Some(Reply(rid, Capped(host, |replies|, failure)));
        }
      }
      if reply.Some? { replies := replies + [reply.value]; }
    }
  }

  /** The error code of a reply, an oversized one being replaced by an internal error under the same id. */
  function Capped(host: Host, n: nat, failure: Option<Failure>): Option<int> {
    if !host.fits(n) then Some(CodeOf(Internal)) else if failure.Some? then Some(CodeOf(failure.value)) else None
  }

  function AfterInitialize(s: State, p: Params): (State, Option<Failure>) {
    if !s.stage.New? then (s, Some(InvalidRequest))
    else if p.protocolVersion.None? || !p.capabilitiesOk || p.clientName.None? || p.clientVersion.None? then (s, Some(InvalidParams))
    else
      var protocol := if p.protocolVersion.value in VERSIONS then p.protocolVersion.value else LATEST;
      (s.(stage := Initializing, caller := "mcp:" + p.clientName.value, protocol := Some(protocol)), None)
  }

  function AfterDispatch(host: Host, s: State, verb: string, p: Params): (State, Option<Failure>) {
    if verb == "ping" then (s, None)
    else if verb == "initialize" then AfterInitialize(s, p)
    else if verb == "notifications/initialized" then
      if s.stage.Initializing? then (s.(stage := Ready), None) else (s, Some(InvalidRequest))
    else if !s.stage.Ready? then (s, Some(InvalidRequest))
    else if verb == "tools/list" then (s, None)
    else if verb != "tools/call" then (s, Some(MethodNotFound))
    else if p.toolName.None? || !p.argumentsOk then (s, Some(InvalidParams))
    else if p.toolName.value !in host.tools then (s, Some(UnknownTool))
    else
      (s.(calls := s.calls + [Call(p.toolName.value, s.caller)]),
       if host.outcome(p.toolName.value, |s.calls|).Crashed? then Some(Internal) else None)
  }

  /** What the checks before dispatch leave to it. */
  function Admitted(frame: Frame): Option<Request> {
    if !frame.Decoded? || frame.request.None? || !frame.withinNodes then None
    else
      var r := frame.request.value;
      if !r.versionOk || r.id.Unusable? || r.verb.None? || r.params.NotObject? then None
      else if IsNotification(r) then (if r.verb.value == "notifications/initialized" then Some(r) else None)
      else if StartsWith(r.verb.value, "notifications/") then None
      else Some(r)
  }

  /** The reply to a frame that is refused before dispatch. */
  function Refusal(host: Host, n: nat, frame: Frame): Option<Reply> {
    if frame.Blank? then None
    else if !frame.Decoded? then Some(Reply(None, Some(if frame.NotJson? then -32700 else -32600)))
    else if frame.request.None? then Some(Reply(None, Some(-32600)))
    else
      var r := frame.request.value;
      if IsNotification(r) then None
      else if !frame.withinNodes || !r.versionOk || r.id.Unusable? then Some(Reply(None, Some(-32600)))
      else Some(Reply(Some(r.id.id), Capped(host, n, Some(if r.verb.Some? && r.params.NotObject? then InvalidParams else InvalidRequest))))
  }

  function Answer(s: State, reply: Option<Reply>): State {
    if reply.Some? then s.(replies := s.replies + [reply.value]) else s
  }

  function Step(host: Host, s: State, frame: Frame): (State, Option<Reply>) {
    match Admitted(frame)
    case None => var reply := Refusal(host, |s.replies|, frame); (Answer(s, reply), reply)
    case Some(r) =>
      var (after, failure) := AfterDispatch(host, s, r.verb.value, if r.params.Object? then r.params.params else EMPTY);
      if IsNotification(r) then (after, None)
      else
        var reply := Some(Reply(Some(r.id.id), Capped(host, |s.replies|, failure)));
        (Answer(after, reply), reply)
  }

  function Run(host: Host, s: State, frames: seq<Frame>): State
    decreases |frames|
  {
    if frames == [] then s else Run(host, Step(host, s, frames[0]).0, frames[1..])
  }

  // ----- any sequence of lines -----------------------------------------------------------------

  function Order(stage: Stage): nat { match stage case New => 0 case Initializing => 1 case Ready => 2 }

  /** What may have happened between two points of a session. */
  ghost predicate Extends(s: State, t: State) {
    && Order(s.stage) <= Order(t.stage)
    && (!s.stage.New? ==> t.caller == s.caller && t.protocol == s.protocol)
    && (!t.stage.New? ==> t.protocol.Some? && t.protocol.value in VERSIONS)
    && s.calls <= t.calls && s.replies <= t.replies
    && (forall i :: |s.calls| <= i < |t.calls| ==> t.stage.Ready? && t.calls[i].caller == t.caller)
  }

  ghost predicate Sound(s: State) {
    && (s.stage.New? <==> s.protocol.None?)
    && (s.protocol.Some? ==> s.protocol.value in VERSIONS)
    && (s.calls != [] ==> s.stage.Ready?)
    && (forall i :: 0 <= i < |s.calls| ==> s.calls[i].caller == s.caller)
  }

  /** One line moves at most one stage, runs a handler only when ready, and never answers a frame without an id. */
  lemma StepFacts(host: Host, s: State, frame: Frame)
    requires Sound(s)
    ensures var (t, reply) := Step(host, s, frame);
            && Sound(t) && Extends(s, t) && Order(t.stage) <= Order(s.stage) + 1
            && (|t.calls| > |s.calls| ==> s.stage.Ready?)
            && |t.calls| <= |s.calls| + 1
            && t.replies == s.replies + (if reply.Some? then [reply.value] else [])
            && (frame.Decoded? && frame.request.Some? && frame.request.value.id.NoId? ==> reply.None?)
            && (reply.Some? && reply.value.id.Some? ==>
                  frame.Decoded? && frame.request.Some? && frame.request.value.id == Given(reply.value.id.value))
  {
    assert LATEST == VERSIONS[1];
  }

  /** The same over any sequence of lines, from any point of a session. */
  lemma {:induction false} SessionSafety(host: Host, s: State, frames: seq<Frame>)
    requires Sound(s)
    ensures Sound(Run(host, s, frames)) && Extends(s, Run(host, s, frames))
    ensures |Run(host, s, frames).replies| <= |s.replies| + |frames|
    decreases |frames|
  {
    hide Step;
    if frames != [] {
      StepFacts(host, s, frames[0]);
      SessionSafety(host, Step(host, s, frames[0]).0, frames[1..]);
    }
  }

  // ----- what a ready session does -------------------------------------------------------------

  /** The frame asks for this registered tool, in order and under an id. */
  predicate AsksFor(host: Host, frame: Frame, tool: string) {
    && frame.Decoded? && frame.request.Some? && frame.withinNodes
    && var r := frame.request.value;
       && r.versionOk && r.id.Given? && r.verb == Some("tools/call") && r.params.Object?
       && r.params.params.toolName == Some(tool) && r.params.params.argumentsOk && tool in host.tools
  }

  /** A handler runs exactly when a ready session is asked for a registered tool, once and for the session's caller. */
  lemma HandlerRunsExactly(host: Host, s: State, frame: Frame, tool: string)
    ensures Step(host, s, frame).0.calls == s.calls + [Call(tool, s.caller)] <==> s.stage.Ready? && AsksFor(host, frame, tool)
    ensures Step(host, s, frame).0.calls == s.calls || exists t :: AsksFor(host, frame, t)
    ensures s.stage.Ready? && AsksFor(host, frame, tool) ==>
              Step(host, s, frame).1 ==
                Some(Reply(Some(frame.request.value.id.id),
                           if host.fits(|s.replies|) && !host.outcome(tool, |s.calls|).Crashed? then None else Some(-32603)))
  {
    assert !StartsWith("tools/call", "notifications/");
    var after := Step(host, s, frame).0;
    if after.calls == s.calls + [Call(tool, s.caller)] { assert after.calls[|s.calls|].tool == tool; }
    if s.stage.Ready? && AsksFor(host, frame, tool) { assert after.calls == s.calls + [Call(tool, s.caller)]; }
    if after.calls != s.calls { assert AsksFor(host, frame, frame.request.value.params.params.toolName.value); }
  }

  /** The frame is a complete `initialize` request. */
  predicate AsksToInitialize(frame: Frame, p: Params) {
    && frame.Decoded? && frame.request.Some? && frame.withinNodes
    && var r := frame.request.value;
       && r.versionOk && r.id.Given? && r.verb == Some("initialize") && r.params == Object(p)
       && p.protocolVersion.Some? && p.capabilitiesOk && p.clientName.Some? && p.clientVersion.Some?
  }

  /** A new session agrees to the requested version if it knows it, else to the latest, and takes its caller from the client. */
  lemma InitializeAgrees(host: Host, s: State, frame: Frame, p: Params)
    requires s.stage.New? && AsksToInitialize(frame, p)
    ensures var (t, reply) := Step(host, s, frame);
            && t.stage.Initializing? && t.caller == "mcp:" + p.clientName.value && t.calls == s.calls
            && t.protocol == Some(if p.protocolVersion.value == "2025-06-18" then "2025-06-18" else "2025-11-25")
            && reply == Some(Reply(Some(frame.request.value.id.id), if host.fits(|s.replies|) then None else Some(-32603)))
  {
    assert !StartsWith("initialize", "notifications/");
    assert VERSIONS[0] == "2025-06-18" && VERSIONS[1] == "2025-11-25";
  }

  /** The notification that ends initialization makes the session ready, and is not answered. */
  lemma InitializedIsReady(host: Host, s: State, frame: Frame)
    requires s.stage.Initializing? && frame.Decoded? && frame.request.Some? && frame.withinNodes
    requires var r := frame.request.value;
             r.versionOk && r.id.NoId? && r.verb == Some("notifications/initialized") && !r.params.NotObject?
    ensures Step(host, s, frame) == (s.(stage := Ready), None)
  {
  }
}
