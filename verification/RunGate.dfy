/**
 The gate of `heel_run`: scope lookup, signature, expiry, allowlist and the signed run limit, together with
 what `run_abuse` then writes to the runs table and the containment log.

 Signing is a predicate handed in by the caller. A scope identifier is signed with one content only; a
 file edited by hand is simply not signed.
 */
module RunGate {
  import opened Options
  import opened AuditLog

  datatype Scope = Scope(scopeId: string, allowlist: set<string>, operator: string, maxRequests: Option<int>, expiry: int)

  datatype Reason = UnknownScope | BadSignature | NoApprover | Expired | OutOfScope | LimitReached

  /** An entry for the log: time stamp, action and detail. */
  datatype Note = Note(ts: int, action: string, detail: string)

  /** One tool call with everything the outside world contributes to it. */
  datatype Call = Call(
    scopeId: string,
    target: string,
    caller: string,
    stored: Option<Scope>,   // what `get_scope` finds under `scopeId`
    now: int,
    runId: string,           // the fresh identifier of the run
    ignored: bool,           // arguments beyond the documented ones were passed
    targetKnown: bool,
    probes: seq<Note>,       // what the agents log while they run
    completes: bool)         // false: an exception escapes after the probes

  datatype Outcome = Finished(status: Status) | Refused(reason: Reason) | Crashed

  /** `scope.verify`, `target_in_scope` and the limit check, in the order of `heel_run`. */
  function Verdict(signed: Scope -> bool, runs: map<string, Run>, c: Call): Option<Reason> {
    match c.stored
    case None => Some(UnknownScope)
    case Some(s) =>
      if !signed(s) then Some(BadSignature)
      else if s.operator == "" then Some(NoApprover)
      else if c.now > s.expiry then Some(Expired)
      else if c.target !in s.allowlist then Some(OutOfScope)
      else if s.maxRequests.Some? && |ScopeRuns(runs, c.scopeId)| >= s.maxRequests.value then Some(LimitReached)
      else None
  }

  /** What a human signed allows this call, in the scope's own fields. */
  predicate Permitted(signed: Scope -> bool, runs: map<string, Run>, c: Call) {
    && c.stored.Some?
    && var s := c.stored.value;
       && signed(s) && s.operator != "" && c.now <= s.expiry && c.target in s.allowlist
       && (s.maxRequests.Some? ==> |ScopeRuns(runs, c.scopeId)| < s.maxRequests.value)
  }

  /** When a refusal gives this reason: the first of the six conditions that fails. */
  predicate Fails(signed: Scope -> bool, runs: map<string, Run>, c: Call, r: Reason) {
    if r.UnknownScope? then c.stored.None?
    else
      && c.stored.Some?
      && var s := c.stored.value;
         if r.BadSignature? then !signed(s)
         else
           && signed(s)
           && if r.NoApprover? then s.operator == ""
              else
                && s.operator != ""
                && if r.Expired? then s.expiry < c.now
                   else
                     && c.now <= s.expiry
                     && if r.OutOfScope? then c.target !in s.allowlist
                        else c.target in s.allowlist && s.maxRequests.Some? && s.maxRequests.value <= |ScopeRuns(runs, c.scopeId)|
  }

  /** The gate opens exactly for what was permitted, and otherwise names what failed first. */
  lemma VerdictExactly(signed: Scope -> bool, runs: map<string, Run>, c: Call)
    ensures Verdict(signed, runs, c).None? <==> Permitted(signed, runs, c)
    ensures forall r :: Verdict(signed, runs, c) == Some(r) <==> Fails(signed, runs, c, r)
  {
    hide ScopeRuns;
  }

  function ReasonText(r: Reason): string {
    match r
    case UnknownScope => "unknown scope"
    case BadSignature => "signature invalid (scope tampered or unsigned)"
    case NoApprover => "scope not bound to an approver"
    case Expired => "scope expired"
    case OutOfScope => "target not in scope allowlist"
    case LimitReached => "scope max_requests exhausted"
  }

  function FinalStatus(c: Call): Status {
    if !c.targetKnown then Rejected else if c.completes then Complete else Running
  }

  /** The runs table after the call. */
  function RunsAfter(signed: Scope -> bool, runs: map<string, Run>, c: Call): map<string, Run> {
    if Verdict(signed, runs, c).Some? then runs
    else runs[c.runId := Run(c.scopeId, c.target, c.caller, FinalStatus(c))]
  }

  function RunEntries(c: Call): seq<Content> {
    [Content(c.now, c.runId, c.caller, "run_start", c.target)]
    + if !c.targetKnown then [Content(c.now, c.runId, c.caller, "reject", "unknown target")]
      else ProbeEntries(c, c.probes) + if c.completes then [Content(c.now, c.runId, c.caller, "run_complete", "")] else []
  }

  function ProbeEntries(c: Call, notes: seq<Note>): (r: seq<Content>)
    ensures |r| == |notes|
    ensures forall i :: 0 <= i < |r| ==> r[i] == Content(notes[i].ts, c.runId, c.caller, notes[i].action, notes[i].detail)
  {
    seq(|notes|, i requires 0 <= i < |notes| => Content(notes[i].ts, c.runId, c.caller, notes[i].action, notes[i].detail))
  }

  /** What the call adds to the containment log. */
  function Entries(signed: Scope -> bool, runs: map<string, Run>, c: Call): seq<Content> {
    match Verdict(signed, runs, c)
    case Some(reason) => [Content(c.now, "security", c.caller, "reject_run", ReasonText(reason))]
    case None => (if c.ignored then [Content(c.now, "security", c.caller, "ignored_args", "")] else []) + RunEntries(c)
  }

  function Contents(rows: seq<Row>): (r: seq<Content>)
    ensures |r| == |rows|
    ensures forall i :: 0 <= i < |r| ==> r[i] == rows[i].content
  {
    seq(|rows|, i requires 0 <= i < |rows| => rows[i].content)
  }

  lemma ContentsPush(rows: seq<Row>, r: Row)
    ensures Contents(rows + [r]) == Contents(rows) + [r.content]
  {
  }

  class HeelServer {
    const store: Store
    const sc: Scheme
    const signed: Scope -> bool
    var runs: map<string, Status>   // results kept by this process

    constructor (store: Store, sc: Scheme, signed: Scope -> bool)
      ensures this.store == store && this.sc == sc && this.signed == signed && runs == map[]
    {
      this.store, this.sc, this.signed, this.runs := store, sc, signed, map[];
    }

    method SecurityLog(ts: int, caller: string, action: string, detail: string)
      modifies store`rows
      ensures Contents(store.rows) == Contents(old(store.rows)) + [Content(ts, "security", caller, action, detail)]
      ensures Verified(sc, old(store.rows)) ==> Verified(sc, store.rows)
    {
      hide Verified, IsTail, Contents;
      var log := new ContainmentLog(store, sc, "security", caller);
      AppendNote(log, Note(ts, action, detail));
    }

    /** `run_abuse`, reduced to what it writes. */
    method RunAbuse(c: Call) returns (outcome: Outcome)
      modifies store
      ensures store.runs == old(store.runs)[c.runId := Run(c.scopeId, c.target, c.caller, FinalStatus(c))]
      ensures Contents(store.rows) == Contents(old(store.rows)) + RunEntries(c)
      ensures Verified(sc, old(store.rows)) ==> Verified(sc, store.rows)
      ensures outcome == if c.targetKnown && !c.completes then Crashed else Finished(FinalStatus(c))
    {
      hide Verified, IsTail, Contents, ProbeEntries;
      store.AddRun(c.runId, Run(c.scopeId, c.target, c.caller, Running));
      var log := new ContainmentLog(store, sc, c.runId, c.caller);
      AppendNote(log, Note(c.now, "run_start", c.target));
      if !c.targetKnown {
        store.SetRunStatus(c.runId, Rejected);
        AppendNote(log, Note(c.now, "reject", "unknown target"));
        return Finished(Rejected);
      }
      ghost var before := store.rows;
      for i := 0 to |c.probes|
        invariant log.store == store && log.sc == sc && log.runId == c.runId && log.caller == c.caller
        invariant store.runs == old(store.runs)[c.runId := Run(c.scopeId, c.target, c.caller, Running)]
        invariant Contents(store.rows) == Contents(before) + ProbeEntries(c, c.probes)[..i]
        invariant Verified(sc, old(store.rows)) ==> Verified(sc, store.rows) && IsTail(sc, store.rows, log.Cur())
      {
        AppendNote(log, c.probes[i]);
      }
      if !c.completes { return Crashed; }
      store.SetRunStatus(c.runId, Complete);
      AppendNote(log, Note(c.now, "run_complete", ""));
      return Finished(Complete);
    }

    /** One append through a log object that stays the only writer. */
    static method AppendNote(log: ContainmentLog, n: Note)
      modifies log, log.store`rows
      ensures Contents(log.store.rows) == Contents(old(log.store.rows)) + [Content(n.ts, log.runId, log.caller, n.action, n.detail)]
      ensures Verified(log.sc, old(log.store.rows)) && IsTail(log.sc, old(log.store.rows), old(log.Cur())) ==>
                Verified(log.sc, log.store.rows) && IsTail(log.sc, log.store.rows, log.Cur())
    {
      hide Verified, IsTail, Contents;
      if Verified(log.sc, log.store.rows) && IsTail(log.sc, log.store.rows, log.Cur()) {
        CurrentAppendVerifies(log.sc, log.store.rows, log.Cur(), Content(n.ts, log.runId, log.caller, n.action, n.detail));
      }
      ghost var before := log.store.rows;
      var e := log.Append(n.ts, n.action, n.detail);
      ContentsPush(before, e);
    }

    /** A refusal adds one log entry and no run; anything else records the run under its signed scope. */
    method HeelRun(c: Call) returns (outcome: Outcome)
      requires c.stored.Some? ==> c.stored.value.scopeId == c.scopeId
      modifies this, store
      ensures store.runs == RunsAfter(signed, old(store.runs), c)
      ensures store.runs == if Permitted(signed, old(store.runs), c)
                            then old(store.runs)[c.runId := Run(c.scopeId, c.target, c.caller, FinalStatus(c))] else old(store.runs)
      ensures forall reason :: outcome == Refused(reason) <==> Fails(signed, old(store.runs), c, reason)
      ensures Contents(store.rows) == Contents(old(store.rows)) + Entries(signed, old(store.runs), c)
      ensures Verified(sc, old(store.rows)) ==> Verified(sc, store.rows)
      ensures match Verdict(signed, old(store.runs), c)
              case Some(reason) => outcome == Refused(reason) && runs == old(runs)
              case None => outcome.Finished? || outcome.Crashed?
    {
      hide Verified, Contents, RunEntries, ScopeRuns, ReasonText, Permitted, Fails;
      VerdictExactly(signed, store.runs, c);
      if c.stored.None? {
        SecurityLog(c.now, c.caller, "reject_run", ReasonText(UnknownScope));
        return Refused(UnknownScope);
      }
      var s := c.stored.value;
      if !signed(s) {
        SecurityLog(c.now, c.caller, "reject_run", ReasonText(BadSignature));
        return Refused(BadSignature);
      }
      if s.operator == "" {
        SecurityLog(c.now, c.caller, "reject_run", ReasonText(NoApprover));
        return Refused(NoApprover);
      }
      if c.now > s.expiry {
        SecurityLog(c.now, c.caller, "reject_run", ReasonText(Expired));
        return Refused(Expired);
      }
      if c.target !in s.allowlist {
        SecurityLog(c.now, c.caller, "reject_run", ReasonText(OutOfScope));
        return Refused(OutOfScope);
      }
      if s.maxRequests.Some? {
        var used := store.ScopeRunCount(c.scopeId);
        if used >= s.maxRequests.value {
          SecurityLog(c.now, c.caller, "reject_run", ReasonText(LimitReached));
          return Refused(LimitReached);
        }
      }
      if c.ignored { SecurityLog(c.now, c.caller, "ignored_args", ""); }
      outcome := RunAbuse(c);
      if outcome.Finished? { runs := runs[c.runId := outcome.status]; }
    }
  }

  // ----- any sequence of calls -----------------------------------------------------------------

  /** What a human signed out of band, one content per identifier. */
  type Authorized = map<string, Scope>

  ghost predicate SignedOutOfBand(signed: Scope -> bool, authorized: Authorized) {
    forall s :: signed(s) ==> s.scopeId in authorized && authorized[s.scopeId] == s
  }

  /** Every recorded run is on the allowlist of its signed scope, and no scope exceeds its signed limit. */
  ghost predicate WithinScopes(authorized: Authorized, runs: map<string, Run>) {
    && (forall id :: id in runs ==>
          runs[id].scopeId in authorized && runs[id].target in authorized[runs[id].scopeId].allowlist)
    && (forall scopeId :: scopeId in authorized && authorized[scopeId].maxRequests.Some? ==>
          var limit := authorized[scopeId].maxRequests.value;
          |ScopeRuns(runs, scopeId)| <= if limit < 0 then 0 else limit)
  }

  lemma CallStaysWithinScopes(signed: Scope -> bool, authorized: Authorized, runs: map<string, Run>, c: Call)
    requires SignedOutOfBand(signed, authorized) && WithinScopes(authorized, runs)
    requires c.stored.Some? ==> c.stored.value.scopeId == c.scopeId
    ensures WithinScopes(authorized, RunsAfter(signed, runs, c))
  {
    if Verdict(signed, runs, c).None? {
      var after := RunsAfter(signed, runs, c);
      forall scopeId | scopeId in authorized && authorized[scopeId].maxRequests.Some?
        ensures var limit := authorized[scopeId].maxRequests.value;
                |ScopeRuns(after, scopeId)| <= if limit < 0 then 0 else limit
      {
        if scopeId == c.scopeId {
          assert ScopeRuns(after, scopeId) == ScopeRuns(runs, scopeId) + {c.runId};
        } else {
          assert ScopeRuns(after, scopeId) <= ScopeRuns(runs, scopeId);
          SubsetSize(ScopeRuns(after, scopeId), ScopeRuns(runs, scopeId));
        }
      }
    }
  }

  lemma {:induction false} SubsetSize(a: set<string>, b: set<string>)
    requires a <= b
    ensures |a| <= |b|
  {
    if a != {} {
      var x :| x in a;
      SubsetSize(a - {x}, b - {x});
    }
  }

  function RunsAfterAll(signed: Scope -> bool, runs: map<string, Run>, calls: seq<Call>): map<string, Run>
    decreases |calls|
  {
    if calls == [] then runs else RunsAfterAll(signed, RunsAfter(signed, runs, calls[0]), calls[1..])
  }

  /** Over any sequence of calls the recorded runs stay within what was signed. */
  lemma {:induction false} RunsStayWithinScopes(
    signed: Scope -> bool, authorized: Authorized, runs: map<string, Run>, calls: seq<Call>)
    requires SignedOutOfBand(signed, authorized) && WithinScopes(authorized, runs)
    requires forall i :: 0 <= i < |calls| && calls[i].stored.Some? ==> calls[i].stored.value.scopeId == calls[i].scopeId
    ensures WithinScopes(authorized, RunsAfterAll(signed, runs, calls))
    decreases |calls|
  {
    if calls != [] {
      CallStaysWithinScopes(signed, authorized, runs, calls[0]);
      RunsStayWithinScopes(signed, authorized, RunsAfter(signed, runs, calls[0]), calls[1..]);
    }
  }

  /** A call that was permitted at its own moment, given the runs recorded before it, and that recorded the run `id`. */
  ghost predicate RecordedBy(signed: Scope -> bool, runs: map<string, Run>, calls: seq<Call>, i: nat, id: string) {
    i < |calls| && calls[i].runId == id && Permitted(signed, RunsAfterAll(signed, runs, calls[..i]), calls[i])
  }

  /** The row a call writes. */
  function RowOf(c: Call): Run { Run(c.scopeId, c.target, c.caller, FinalStatus(c)) }

  lemma RecordedLater(signed: Scope -> bool, runs: map<string, Run>, calls: seq<Call>, i: nat, id: string)
    requires calls != []
    ensures RecordedBy(signed, runs, calls, i + 1, id) <==> RecordedBy(signed, RunsAfter(signed, runs, calls[0]), calls[1..], i, id)
  {
    hide Permitted, RunsAfter;
    if i + 1 < |calls| {
      assert calls[..i + 1][1..] == calls[1..][..i] && calls[..i + 1][0] == calls[0];
    }
  }

  /**
   Over any sequence of calls, a run is on record exactly when it was before or some call recorded it that was
   permitted at its own moment: signed, approved, unexpired, on the allowlist and below the limit.
   */
  lemma {:induction false} RecordedExactlyWhenPermitted(signed: Scope -> bool, runs: map<string, Run>, calls: seq<Call>, id: string)
    ensures id in RunsAfterAll(signed, runs, calls) <==>
            id in runs || exists i: nat :: RecordedBy(signed, runs, calls, i, id)
    ensures var after := RunsAfterAll(signed, runs, calls);
            id in after ==> (id in runs && after[id] == runs[id])
                            || exists i: nat :: RecordedBy(signed, runs, calls, i, id) && after[id] == RowOf(calls[i])
    decreases |calls|
  {
    hide Permitted;
    if calls != [] {
      var c, next := calls[0], RunsAfter(signed, runs, calls[0]);
      RecordedExactlyWhenPermitted(signed, next, calls[1..], id);
      VerdictExactly(signed, runs, c);
      assert calls[..0] == [];
      assert RecordedBy(signed, runs, calls, 0, id) <==> c.runId == id && Permitted(signed, runs, c);
      forall i: nat ensures RecordedBy(signed, runs, calls, i + 1, id) <==> RecordedBy(signed, next, calls[1..], i, id) {
        RecordedLater(signed, runs, calls, i, id);
      }
      if i: nat :| RecordedBy(signed, next, calls[1..], i, id) { assert RecordedBy(signed, runs, calls, i + 1, id); }
      if i: nat :| RecordedBy(signed, runs, calls, i, id) && i > 0 { assert RecordedBy(signed, next, calls[1..], i - 1, id); }
      var after := RunsAfterAll(signed, runs, calls);
      if i: nat :| RecordedBy(signed, next, calls[1..], i, id) && id in after && after[id] == RowOf(calls[1..][i]) {
        assert RecordedBy(signed, runs, calls, i + 1, id) && calls[i + 1] == calls[1..][i];
      }
    }
  }

  /** Every run recorded on the way was recorded before the expiry that was signed for its scope. */
  lemma RunsWithinExpiry(signed: Scope -> bool, authorized: Authorized, runs: map<string, Run>, calls: seq<Call>, id: string)
    requires SignedOutOfBand(signed, authorized)
    requires forall i :: 0 <= i < |calls| && calls[i].stored.Some? ==> calls[i].stored.value.scopeId == calls[i].scopeId
    requires id in RunsAfterAll(signed, runs, calls) && id !in runs
    ensures exists i :: 0 <= i < |calls| && calls[i].runId == id && calls[i].scopeId in authorized
                        && calls[i].now <= authorized[calls[i].scopeId].expiry && authorized[calls[i].scopeId].operator != ""
                        && RunsAfterAll(signed, runs, calls)[id] == RowOf(calls[i])
  {
    RecordedExactlyWhenPermitted(signed, runs, calls, id);
    var i: nat :| RecordedBy(signed, runs, calls, i, id) && RunsAfterAll(signed, runs, calls)[id] == RowOf(calls[i]);
    assert authorized[calls[i].scopeId] == calls[i].stored.value;
  }
}
