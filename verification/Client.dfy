/**
 One process's `CloudClient`: token rotation, credential lookup, the authenticated request with its single
 retry, device login, logout and the findings-sync transmission.

 Everything outside the process is a `World`: a clock, a server and a credential store whose answers are
 arbitrary functions of how much has happened, so every interference by other processes and every reply
 sequence is covered. The world also keeps the trace of what the client did.
 */
module Client {
  import opened Options
  import R = Rotation

  type Token = R.Token
  type Bytes = string

  datatype Access = Access(token: nat, expiresAt: int)

  datatype Credentials = Credentials(
    origin: string,
    deviceId: string,
    access: Option<Access>,        // durable documents hold none
    refreshToken: Token,
    refreshExpiresAt: int)

  /** What a reply body parses to; the recognised documents have disjoint key sets. */
  datatype Document =
    | Unrecognised
    | Failure(code: string)
    | Grant(deviceId: string, accessToken: nat, refreshToken: Token, refreshExpiresIn: int)
    | Receipt(projectRef: string, requestDigest: string, projectionHash: string)
    | Revoked

  datatype Reply = Lost | Oversized | Reply(status: int, document: Document)

  datatype Request = Request(verb: string, path: string, body: Option<Bytes>, idempotencyKey: Option<string>)

  datatype Error =
    | AuthRequired
    | Unavailable
    | InvalidRequest
    | InvalidResponse
    | ApprovalExpired
    | StoreFailure
    | Refused(code: string, status: int)

  datatype Event =
    | Clock(at: real)
    | Acquired                                       // refresh took the per-origin lock
    | AcquiredToRevoke                               // logout took it
    | Released
    | Read(found: Option<Credentials>)
    | ReadFailed
    | Presented(token: Token)                        // POST /v1/device/refresh
    | Granted(minted: Token)                          // its reply was accepted
    | Failed(issued: bool)                           // it was not; the server may have rotated all the same
    | LoggedIn(minted: Token)                         // a device login reply was accepted
    | Saved(credentials: Credentials)
    | SaveFailed(credentials: Credentials, written: bool)
    | Deleted(ok: bool)
    | RevokePosted
    | Sent(request: Request, token: nat, reply: Reply)   // an authority-bearing request

  // ----- reading a trace -----------------------------------------------------------------------

  /** The authority-bearing requests of a trace, in order. */
  function Sends(trace: seq<Event>): (r: seq<Event>)
    ensures forall i :: 0 <= i < |r| ==> r[i].Sent?
  {
    if trace == [] then [] else
    var last := trace[|trace| - 1];
    Sends(trace[..|trace| - 1]) + if last.Sent? then [last] else []
  }

  /** The refresh tokens presented in a trace, in order. */
  function Presentations(trace: seq<Event>): seq<Token> {
    if trace == [] then [] else
    var last := trace[|trace| - 1];
    Presentations(trace[..|trace| - 1]) + if last.Presented? then [last.token] else []
  }

  /** The rotation phase after an event, or nothing when the protocol does not allow it there. */
  function Follow(ph: R.Phase, e: Event): Option<R.Phase> {
    match e
    case Clock(_) => Some(ph)
    case Acquired => if ph.Idle? then Some(R.Locked) else None
    case AcquiredToRevoke => if ph.Idle? then Some(R.LogoutLocked) else None
    case Released => if ph.Releasing? || ph.Loaded? || ph.LogoutSent? then Some(R.Idle) else None
    case Read(found) =>
      if ph.Idle? then Some(R.Idle)
      else if ph.Locked? then Some(if found.Some? then R.Loaded(found.value.refreshToken) else R.Releasing)
      else if ph.LogoutLocked? then Some(R.LogoutRead(found.Some?))
      else None
    case ReadFailed =>
      if ph.Idle? then Some(R.Idle) else if ph.Locked? || ph.LogoutLocked? then Some(R.Releasing) else None
    case Presented(token) => if ph == R.Loaded(token) then Some(R.Sent(token)) else None
    case Granted(minted) => if ph.Sent? then Some(R.Granted(ph.tok, minted)) else None
    case Failed(_) => if ph.Sent? then Some(R.Cleanup(ph.tok)) else None
    case LoggedIn(minted) => if ph.Idle? then Some(R.Exchanged(minted)) else None
    case Saved(c) =>
      if ph.Granted? && ph.minted == c.refreshToken then Some(R.Releasing)
      else if ph == R.Exchanged(c.refreshToken) then Some(R.Idle)
      else None
    case SaveFailed(c, _) =>
      if ph.Granted? && ph.minted == c.refreshToken then Some(R.Cleanup(ph.tok))
      else if ph == R.Exchanged(c.refreshToken) then Some(R.Idle)
      else None
    case Deleted(ok) =>
      if ph.Idle? then Some(R.Idle)
      else if ph.Cleanup? || ph.LogoutSent? || ph == R.LogoutRead(false) then Some(R.Releasing)
      else None
    case RevokePosted => if ph == R.LogoutRead(true) then Some(R.LogoutSent) else None
    case Sent(_, _, _) => if ph.Idle? then Some(R.Idle) else None
  }

  /** The phase a trace leads to; nothing when it breaks the protocol somewhere. */
  function PhaseAfter(trace: seq<Event>): Option<R.Phase> {
    if trace == [] then Some(R.Idle) else
    match PhaseAfter(trace[..|trace| - 1])
    case None => None
    case Some(ph) => Follow(ph, trace[|trace| - 1])
  }

  /** Every authority-bearing request from `start` on directly follows a reading before the deadline. */
  predicate Timely(trace: seq<Event>, start: nat, deadline: real) {
    forall i :: start <= i < |trace| && trace[i].Sent? ==>
      start < i && trace[i - 1].Clock? && trace[i - 1].at < deadline
  }

  /** A stretch that adds nothing to `Sends` holds no authority-bearing request. */
  lemma {:induction false} QuietStretch(before: seq<Event>, after: seq<Event>)
    requires before <= after
    ensures |Sends(after)| >= |Sends(before)|
    ensures |Sends(after)| == |Sends(before)| ==> forall i :: |before| <= i < |after| ==> !after[i].Sent?
    decreases |after|
  {
    if |before| < |after| {
      QuietStretch(before, after[..|after| - 1]);
    } else {
      assert before == after;
    }
  }

  /** Timely stretches join, and a quiet one is timely. */
  lemma TimelyJoin(first: seq<Event>, second: seq<Event>, start: nat, deadline: real)
    requires first <= second && start <= |first|
    requires Timely(first, start, deadline)
    requires Timely(second, |first|, deadline) || Sends(first) == Sends(second)
    ensures Timely(second, start, deadline)
  {
    if Sends(first) == Sends(second) { QuietStretch(first, second); }
    forall i | start <= i < |first|
      ensures second[i] == first[i]
    {
    }
  }

  /** Some reading from `start` on found the access token of `c` unexpired. */
  ghost predicate SeenFresh(trace: seq<Event>, start: nat, c: Credentials) {
    c.access.Some? && exists i :: start <= i < |trace| && trace[i].Clock? && Truncate(trace[i].at) < c.access.value.expiresAt
  }

  lemma SeenEarlier(trace: seq<Event>, start: nat, later: nat, c: Credentials)
    requires start <= later && SeenFresh(trace, later, c)
    ensures SeenFresh(trace, start, c)
  {
  }

  lemma JustSeen(trace: seq<Event>, start: nat, c: Credentials)
    requires start < |trace| && trace[|trace| - 1].Clock?
    requires c.access.Some? && Truncate(trace[|trace| - 1].at) < c.access.value.expiresAt
    ensures SeenFresh(trace, start, c)
  {
  }

  /** Python's `int` of a float. */
  function Truncate(x: real): int {
    if x >= 0.0 then x.Floor else -((-x).Floor)
  }

  // ----- the world -----------------------------------------------------------------------------

  class World {
    const clock: nat -> real
    const replies: nat -> Reply
    const loads: nat -> Result<Option<Credentials>, Error>
    const works: nat -> bool        // whether the lock, save or delete asked for now succeeds
    const lost: nat -> bool         // whether a failed exchange had an effect all the same
    var trace: seq<Event>

    constructor (clock: nat -> real, replies: nat -> Reply, loads: nat -> Result<Option<Credentials>, Error>,
                 works: nat -> bool, lost: nat -> bool)
      ensures trace == [] && this.clock == clock && this.replies == replies
    {
      this.clock, this.replies, this.loads, this.works, this.lost := clock, replies, loads, works, lost;
      trace := [];
    }

    /** The client is outside the lock and every store access so far followed the protocol. */
    ghost predicate Steady()
      reads this
    {
      PhaseAfter(trace) == Some(R.Idle)
    }

    method Record(e: Event)
      modifies this`trace
      ensures trace == old(trace) + [e]
      ensures Sends(trace) == Sends(old(trace)) + if e.Sent? then [e] else []
      ensures Presentations(trace) == Presentations(old(trace)) + if e.Presented? then [e.token] else []
      ensures PhaseAfter(trace) == if PhaseAfter(old(trace)).None? then None else Follow(PhaseAfter(old(trace)).value, e)
    {
      hide Follow;
      trace := trace + [e];
      assert trace[..|trace| - 1] == old(trace);
    }

    method Now() returns (at: real)
      modifies this`trace
      ensures trace == old(trace) + [Clock(at)] && at == clock(|old(trace)|)
      ensures Sends(trace) == Sends(old(trace)) && Presentations(trace) == Presentations(old(trace))
      ensures PhaseAfter(trace) == PhaseAfter(old(trace))
    {
      hide Sends, Presentations, PhaseAfter;
      at := clock(|trace|);
      Record(Clock(at));
    }

    method Load() returns (found: Result<Option<Credentials>, Error>)
      modifies this`trace
      ensures trace == old(trace) + [if found.Ok? then Read(found.value) else ReadFailed]
      ensures found == loads(|old(trace)|)
      ensures Sends(trace) == Sends(old(trace)) && Presentations(trace) == Presentations(old(trace))
      ensures PhaseAfter(old(trace)).Some? ==>
                PhaseAfter(trace) == Follow(PhaseAfter(old(trace)).value, trace[|trace| - 1])
    {
      hide Sends, Presentations, PhaseAfter, Follow;
      found := loads(|trace|);
      Record(if found.Ok? then Read(found.value) else ReadFailed);
    }

    method Save(c: Credentials) returns (ok: bool)
      modifies this`trace
      ensures ok == works(|old(trace)|)
      ensures trace == old(trace) + [if ok then Saved(c) else SaveFailed(c, lost(|old(trace)|))]
      ensures Sends(trace) == Sends(old(trace)) && Presentations(trace) == Presentations(old(trace))
      ensures PhaseAfter(old(trace)).Some? ==>
                PhaseAfter(trace) == Follow(PhaseAfter(old(trace)).value, trace[|trace| - 1])
    {
      hide Sends, Presentations, PhaseAfter, Follow;
      ok := works(|trace|);
      Record(if ok then Saved(c) else SaveFailed(c, lost(|trace|)));
    }

    method Delete() returns (ok: bool)
      modifies this`trace
      ensures trace == old(trace) + [Deleted(ok)] && ok == works(|old(trace)|)
      ensures Sends(trace) == Sends(old(trace)) && Presentations(trace) == Presentations(old(trace))
      ensures PhaseAfter(old(trace)).Some? ==>
                PhaseAfter(trace) == Follow(PhaseAfter(old(trace)).value, Deleted(ok))
    {
      hide Sends, Presentations, PhaseAfter, Follow;
      ok := works(|trace|);
      Record(Deleted(ok));
    }
  }

  /** What `_request` makes of a reply: redirects and oversized bodies are refused, a lost one is unavailable. */
  function Received(reply: Reply): Result<Reply, Error> {
    match reply
    case Lost => Err(Unavailable)
    case Oversized => Err(InvalidResponse)
    case Reply(status, _) => if 300 <= status <= 399 then Err(InvalidResponse) else Ok(reply)
  }

  /** `_failure`: only a recognised error document keeps its code. */
  function FailureOf(reply: Reply): Error
    requires reply.Reply?
  {
    if reply.document.Failure? then Refused(reply.document.code, reply.status) else InvalidResponse
  }

  const ACCESS_LIFETIME := 900

  // ----- outcomes, from the world's answers alone ----------------------------------------------

  // `n` is how much has happened when the call begins; each answer of the world is the one for its moment.

  /** The durable credentials a rotation finds under its lock. */
  function Stored(w: World, n: nat): Option<Credentials> {
    if w.loads(n + 1).Ok? then w.loads(n + 1).value else None
  }

  /** The rotation gets the lock and finds credentials for this origin with an unexpired refresh token. */
  predicate Presents(w: World, origin: string, n: nat) {
    && w.works(n) && Stored(w, n).Some?
    && var c := Stored(w, n).value;
       c.origin == origin && Truncate(w.clock(n + 2)) < c.refreshExpiresAt
  }

  /** The server answers with a grant for the same device. */
  predicate Granting(reply: Reply, c: Credentials) {
    reply.Reply? && reply.status == 200 && reply.document.Grant? && reply.document.deviceId == c.deviceId
  }

  /** And the successor can be saved. */
  predicate Rotates(w: World, origin: string, n: nat) {
    Presents(w, origin, n) && Granting(w.replies(n + 3), Stored(w, n).value) && w.works(n + 6)
  }

  /** The credentials a grant amounts to at one reading of the clock. */
  function GrantedAt(origin: string, d: Document, at: real): Credentials
    requires d.Grant?
  {
    Credentials(origin, d.deviceId, Some(Access(d.accessToken, Truncate(at) + ACCESS_LIFETIME)), d.refreshToken,
                Truncate(at) + d.refreshExpiresIn)
  }

  /** A rotation that succeeds takes eight events. */
  const ROTATION := 8

  function Successor(w: World, origin: string, n: nat): Credentials
    requires Rotates(w, origin, n)
  {
    GrantedAt(origin, w.replies(n + 3).document, w.clock(n + 4))
  }

  /** What a call has to start from: the cached credentials, else the durable ones. */
  function Known(w: World, cached: Option<Credentials>, n: nat): Option<Credentials> {
    if cached.Some? then cached else if w.loads(n).Ok? then w.loads(n).value else None
  }

  function KnownAt(cached: Option<Credentials>, n: nat): nat { if cached.Some? then n else n + 1 }

  /** Credentials for this origin whose access token is missing, or expired at the reading, call for a rotation. */
  predicate Stale(w: World, c: Credentials, p: nat) {
    c.access.None? || c.access.value.expiresAt <= Truncate(w.clock(p))
  }

  function RotationAt(c: Credentials, p: nat): nat { if c.access.None? then p else p + 1 }

  /** The credentials a call gets to use, and how much has happened by then; nothing when it fails. */
  function Supply(w: World, origin: string, cached: Option<Credentials>, n: nat): Option<(Credentials, nat)> {
    var known, p := Known(w, cached, n), KnownAt(cached, n);
    if known.None? || known.value.origin != origin then None
    else if !Stale(w, known.value, p) then Some((known.value, p + 1))
    else
      var start := RotationAt(known.value, p);
      if Rotates(w, origin, start) then Some((Successor(w, origin, start), start + ROTATION)) else None
  }

  /** Where a request goes out that is ready at `p`: right there, or after a reading before the deadline. */
  function SendAt(w: World, p: nat, deadline: Option<real>): Option<nat> {
    if deadline.None? then Some(p) else if w.clock(p) < deadline.value then Some(p + 1) else None
  }

  function FirstSend(w: World, origin: string, cached: Option<Credentials>, n: nat, deadline: Option<real>): Option<nat> {
    match Supply(w, origin, cached, n)
    case None => None
    case Some((_, p)) => SendAt(w, p, deadline)
  }

  predicate Unauthorized(reply: Reply) { reply.Reply? && reply.status == 401 }

  /** Where the request goes out again when a rotation that begins at `n` succeeds before the deadline. */
  function SendAgain(w: World, origin: string, n: nat, deadline: Option<real>): Option<nat> {
    if Rotates(w, origin, n) then SendAt(w, n + ROTATION, deadline) else None
  }

  /** After a 401, a rotation that succeeds before the deadline leads to a second transmission. */
  function SecondSend(w: World, origin: string, first: nat, deadline: Option<real>): Option<nat> {
    if Unauthorized(w.replies(first)) then SendAgain(w, origin, first + 1, deadline) else None
  }

  /** The reply that decides an authenticated call: the second one after a 401, else the first. */
  function Deciding(w: World, origin: string, cached: Option<Credentials>, n: nat, deadline: Option<real>): Option<Reply> {
    var first := FirstSend(w, origin, cached, n, deadline);
    if first.None? then None
    else if !Unauthorized(w.replies(first.value)) then Some(w.replies(first.value))
    else
      var second := SecondSend(w, origin, first.value, deadline);
      if second.None? then None else Some(w.replies(second.value))
  }

  // ----- the transmission permit ---------------------------------------------------------------

  datatype Transmission = Transmission(
    permitToken: string, begunAt: real, effectiveExpiresAt: real, requestDigest: string, leaseToken: Option<string>)

  datatype TransportApproval = TransportApproval(requestDigest: string, expiresAt: real)

  datatype SyncRecord = SyncRecord(
    workspaceRef: string,
    projectRef: string,
    requestJson: Bytes,
    requestDigest: string,
    humanExpiresAt: Option<real>,
    transport: Option<TransportApproval>,
    transmission: Option<Transmission>,
    hasReceipt: bool,
    leaseToken: Option<string>,
    leaseExpiresAt: Option<real>)

  datatype Permit = Permit(permitToken: string, begunAt: real, effectiveExpiresAt: real, record: SyncRecord)

  function Min(a: real, b: real): real { if b < a then b else a }

  /** The checks on the permit itself, in the order of the source. */
  predicate PermitConsistent(permit: Permit) {
    var record := permit.record;
    && record.transmission.Some? && record.humanExpiresAt.Some? && record.transport.Some?
    && !record.hasReceipt
    && var transmission := record.transmission.value;
       && permit.permitToken == transmission.permitToken
       && permit.begunAt == transmission.begunAt
       && permit.effectiveExpiresAt == transmission.effectiveExpiresAt
       && transmission.requestDigest == record.requestDigest
       && record.transport.value.requestDigest == record.requestDigest
       && transmission.leaseToken == record.leaseToken
       && record.leaseExpiresAt.Some?
       && permit.effectiveExpiresAt ==
            Min(Min(record.humanExpiresAt.value, record.transport.value.expiresAt), record.leaseExpiresAt.value)
       && permit.begunAt < permit.effectiveExpiresAt
  }

  function SyncPath(record: SyncRecord): string {
    "/v1/workspaces/" + record.workspaceRef + "/projects/" + record.projectRef + "/findings-sync"
  }

  function SyncRequest(record: SyncRecord): Request {
    Request("POST", SyncPath(record), Some(record.requestJson), Some("fs1-" + record.requestDigest))
  }

  class CloudClient {
    const world: World
    const origin: string
    var access: Option<Credentials>

    constructor (world: World, origin: string)
      ensures this.world == world && this.origin == origin && access == None
    {
      this.world, this.origin, this.access := world, origin, None;
    }

    /** `_parse_tokens`: the document and one reading of the clock become credentials. */
    method ParseTokens(reply: Reply) returns (r: Result<Credentials, Error>)
      requires reply.Reply?
      modifies world`trace
      ensures r.Err? ==> world.trace == old(world.trace) && r.error == InvalidResponse && !reply.document.Grant?
      ensures r.Ok? ==>
                && reply.document.Grant?
                && world.trace == old(world.trace) + [Clock(world.clock(|old(world.trace)|))]
                && r.value == GrantedAt(origin, reply.document, world.clock(|old(world.trace)|))
      ensures Sends(world.trace) == Sends(old(world.trace))
      ensures Presentations(world.trace) == Presentations(old(world.trace))
      ensures PhaseAfter(world.trace) == PhaseAfter(old(world.trace))
    {
      hide Sends, Presentations, PhaseAfter;
      if !reply.document.Grant? { return Err(InvalidResponse); }
      var at := world.Now();
      var d := reply.document;
      var instant := Truncate(at);
      r := Ok(Credentials(origin, d.deviceId, Some(Access(d.accessToken, instant + ACCESS_LIFETIME)), d.refreshToken,
                          instant + d.refreshExpiresIn));
    }

    /** The part of `refresh` between the send and the save: what the reply is worth. */
    method Exchange(current: Credentials) returns (r: Result<Credentials, Error>)
      requires PhaseAfter(world.trace) == Some(R.Loaded(current.refreshToken))
      modifies world`trace
      ensures old(world.trace) <= world.trace
      ensures Sends(world.trace) == Sends(old(world.trace))
      ensures Presentations(world.trace) == Presentations(old(world.trace)) + [current.refreshToken]
      ensures match r
              case Ok(c) =>
                && PhaseAfter(world.trace) == Some(R.Granted(current.refreshToken, c.refreshToken))
                && c.origin == origin && c.deviceId == current.deviceId
                && SeenFresh(world.trace, |old(world.trace)|, c)
              case Err(_) => PhaseAfter(world.trace) == Some(R.Cleanup(current.refreshToken))
      ensures var n := |old(world.trace)|;
              && (r.Ok? <==> Granting(world.replies(n), current))
              && (r.Ok? ==> |world.trace| == n + 3 && r.value == GrantedAt(origin, world.replies(n).document, world.clock(n + 1)))
    {
      hide Sends, Presentations, PhaseAfter;
      var position := |world.trace|;
      var reply := Received(world.replies(position));
      world.Record(Presented(current.refreshToken));
      r := if reply.Err? then Err(reply.error)
           else if reply.value.status != 200 then Err(FailureOf(reply.value))
           else Err(InvalidResponse);
      if reply.Ok? && reply.value.status == 200 {
        r := ParseTokens(reply.value);
        if r.Ok? && r.value.deviceId != current.deviceId { r := Err(InvalidResponse); }
      }
      world.Record(if r.Ok? then Granted(r.value.refreshToken) else Failed(world.lost(position)));
      assert r.Ok? ==> world.trace[position + 1].Clock?;
    }

    /** The lock, the read under it and the checks before anything is sent; on refusal the lock is free again. */
    method Open() returns (r: Result<Credentials, Error>)
      requires world.Steady()
      modifies world`trace
      ensures old(world.trace) <= world.trace
      ensures Sends(world.trace) == Sends(old(world.trace)) && Presentations(world.trace) == Presentations(old(world.trace))
      ensures match r
              case Ok(c) =>
                && PhaseAfter(world.trace) == Some(R.Loaded(c.refreshToken))
                && |world.trace| >= |old(world.trace)| + 2
                && world.trace[|old(world.trace)|] == Acquired && world.trace[|old(world.trace)| + 1] == Read(Some(c))
              case Err(_) => world.Steady()
      ensures var n := |old(world.trace)|;
              && (r.Ok? <==> Presents(world, origin, n))
              && (r.Ok? ==> |world.trace| == n + 3 && Some(r.value) == Stored(world, n))
              && (r.Err? ==> r.error == if world.works(n) && world.loads(n + 1).Ok? then AuthRequired else StoreFailure)
              && if world.works(n) then |world.trace| > n && world.trace[n] == Acquired else world.trace == old(world.trace)
    {
      hide Sends, Presentations, PhaseAfter;
      if !world.works(|world.trace|) { return Err(StoreFailure); }
      world.Record(Acquired);
      var loaded := world.Load();
      if loaded.Err? || loaded.value.None? {
        world.Record(Released);
        return Err(if loaded.Err? then StoreFailure else AuthRequired);
      }
      var current := loaded.value.value;
      var now := world.Now();
      if current.refreshExpiresAt <= Truncate(now) || current.origin != origin {
        world.Record(Released);
        return Err(AuthRequired);
      }
      r := Ok(current);
    }

    /** After the exchange: save the successor, or on any failure forget everything; then free the lock. */
    method Settle(exchange: Result<Credentials, Error>, ghost tok: Token) returns (r: Result<Credentials, Error>)
      requires PhaseAfter(world.trace) ==
                 Some(if exchange.Ok? then R.Granted(tok, exchange.value.refreshToken) else R.Cleanup(tok))
      modifies this`access, world`trace
      ensures world.Steady() && old(world.trace) <= world.trace && |world.trace| >= |old(world.trace)| + 2
      ensures Sends(world.trace) == Sends(old(world.trace)) && Presentations(world.trace) == Presentations(old(world.trace))
      ensures match r
              case Ok(c) =>
                exchange == r && access == Some(c) && world.trace[|world.trace| - 2..] == [Saved(c), Released]
              case Err(_) =>
                && access == None && world.trace[|world.trace| - 2].Deleted? && world.trace[|world.trace| - 1] == Released
      ensures r.Ok? <==> exchange.Ok? && world.works(|old(world.trace)|)
      ensures r.Ok? ==> |world.trace| == |old(world.trace)| + 2
    {
      hide Sends, Presentations, PhaseAfter;
      r := exchange;
      if r.Ok? {
        var saved := world.Save(r.value);
        if saved {
          access := Some(r.value);
          world.Record(Released);
          return;
        }
        r := Err(Unavailable);
      }
      access := None;
      var deleted := world.Delete();
      if !deleted { r := Err(Unavailable); }
      world.Record(Released);
    }

    /**
     One rotation. At most one token is presented, and it is the one read under the lock; once it has been
     presented the call ends with its successor saved or with a delete, inside the same lock. A token is presented
     exactly when lock and read succeed and the credentials are for this origin and unexpired; the rotation succeeds
     exactly when then the server grants for the same device and the successor can be saved.
     */
    method Refresh() returns (r: Result<Credentials, Error>)
      requires world.Steady()
      modifies this`access, world`trace
      ensures world.Steady() && old(world.trace) <= world.trace
      ensures Sends(world.trace) == Sends(old(world.trace))
      ensures var before, after := Presentations(old(world.trace)), Presentations(world.trace);
              var start, end := |old(world.trace)|, |world.trace|;
              if after == before then r.Err? && access == old(access)
              else
                && end >= start + 4
                && world.trace[start] == Acquired && world.trace[end - 1] == Released
                && world.trace[start + 1].Read? && world.trace[start + 1].found.Some?
                && after == before + [world.trace[start + 1].found.value.refreshToken]
                && match r
                   case Ok(c) =>
                     && access == Some(c) && world.trace[end - 2] == Saved(c)
                     && c.origin == origin && SeenFresh(world.trace, start, c)
                   case Err(_) => access == None && world.trace[end - 2].Deleted?
      ensures var n := |old(world.trace)|;
              && (Presentations(world.trace) != Presentations(old(world.trace)) <==> Presents(world, origin, n))
              && (r.Ok? <==> Rotates(world, origin, n))
              && (r.Ok? ==> r.value == Successor(world, origin, n) && |world.trace| == n + ROTATION)
              && (!Presents(world, origin, n) ==>
                    r == Err(if world.works(n) && world.loads(n + 1).Ok? then AuthRequired else StoreFailure))
              && if world.works(n) then |world.trace| > n && world.trace[n] == Acquired else world.trace == old(world.trace)
    {
      hide Sends, Presentations, PhaseAfter, Follow;
      var current := Open();
      if current.Err? { return current; }
      var exchange := Exchange(current.value);
      r := Settle(exchange, current.value.refreshToken);
    }

    /**
     `_credentials`: cached or refreshed, for this origin, and unexpired at a reading taken by the call. Stale
     credentials are always rotated, live ones never.
     */
    method CurrentCredentials() returns (r: Result<Credentials, Error>)
      requires world.Steady()
      modifies this`access, world`trace
      ensures world.Steady() && old(world.trace) <= world.trace
      ensures Sends(world.trace) == Sends(old(world.trace))
      ensures |Presentations(world.trace)| <= |Presentations(old(world.trace))| + 1
      ensures r.Ok? ==> access == Some(r.value) && r.value.origin == origin
                        && SeenFresh(world.trace, |old(world.trace)|, r.value)
      ensures var n := |old(world.trace)|; var known, p := Known(world, old(access), n), KnownAt(old(access), n);
              if known.None? || known.value.origin != origin then
                && Presentations(world.trace) == Presentations(old(world.trace))
                && r == Err(if old(access).None? && world.loads(n).Err? then StoreFailure else AuthRequired)
              else if !Stale(world, known.value, p) then
                && Presentations(world.trace) == Presentations(old(world.trace)) && r == Ok(known.value)
              else
                var start := RotationAt(known.value, p);
                && |world.trace| >= start
                && (world.works(start) ==> |world.trace| > start && world.trace[start] == Acquired)
                && (Presentations(world.trace) != Presentations(old(world.trace)) <==> Presents(world, origin, start))
                && (r.Ok? <==> Rotates(world, origin, start))
      ensures match Supply(world, origin, old(access), |old(world.trace)|)
              case Some((c, end)) => r == Ok(c) && |world.trace| == end
              case None => r.Err?
    {
      hide Sends, Presentations, PhaseAfter, SeenFresh, Rotates, Presents, Successor, Stale;
      var current := access;
      if current.None? {
        var loaded := world.Load();
        if loaded.Err? { return Err(StoreFailure); }
        current := loaded.value;
      }
      if current.None? || current.value.origin != origin { return Err(AuthRequired); }
      ghost var known := |world.trace|;
      r := Renew(current.value);
      if r.Ok? { SeenEarlier(world.trace, |old(world.trace)|, known, r.value); }
    }

    /** Credentials for this origin as they are while they are live, else their successor. */
    method Renew(c: Credentials) returns (r: Result<Credentials, Error>)
      requires world.Steady() && c.origin == origin
      modifies this`access, world`trace
      ensures world.Steady() && old(world.trace) <= world.trace
      ensures Sends(world.trace) == Sends(old(world.trace))
      ensures |Presentations(world.trace)| <= |Presentations(old(world.trace))| + 1
      ensures r.Ok? ==> access == Some(r.value) && r.value.origin == origin
                        && SeenFresh(world.trace, |old(world.trace)|, r.value)
      ensures var p := |old(world.trace)|;
              if !Stale(world, c, p) then
                r == Ok(c) && |world.trace| == p + 1 && Presentations(world.trace) == Presentations(old(world.trace))
              else
                var start := RotationAt(c, p);
                && |world.trace| >= start
                && (world.works(start) ==> |world.trace| > start && world.trace[start] == Acquired)
                && (Presentations(world.trace) != Presentations(old(world.trace)) <==> Presents(world, origin, start))
                && (r.Ok? <==> Rotates(world, origin, start))
                && (r.Ok? ==> r.value == Successor(world, origin, start) && |world.trace| == start + ROTATION)
    {
      hide Sends, Presentations, PhaseAfter, SeenFresh, Rotates, Presents, Successor, Truncate;
      ghost var begun := |world.trace|;
      if c.access.None? {
        r := Refresh();
        return;
      }
      var now := world.Now();
      if c.access.value.expiresAt <= Truncate(now) {
        r := Refresh();
        if r.Ok? { SeenEarlier(world.trace, begun, begun + 1, r.value); }
      } else {
        JustSeen(world.trace, begun, c);
        access := Some(c);
        r := Ok(c);
      }
    }

    /** `require_live_transmission` and the request: nothing goes out once the deadline has been read. */
    method Transmit(request: Request, c: Credentials, deadline: Option<real>) returns (r: Result<Reply, Error>)
      requires world.Steady() && c.access.Some?
      modifies world`trace
      ensures world.Steady() && old(world.trace) <= world.trace
      ensures Presentations(world.trace) == Presentations(old(world.trace))
      ensures Live(world.trace, |old(world.trace)|, deadline)
      ensures if Sends(world.trace) == Sends(old(world.trace)) then r == Err(ApprovalExpired)
              else
                && world.trace[|world.trace| - 1].Sent?
                && var sent := world.trace[|world.trace| - 1];
                   && Sends(world.trace) == Sends(old(world.trace)) + [sent]
                   && sent.request == request && sent.token == c.access.value.token && Received(sent.reply) == r
      ensures match SendAt(world, |old(world.trace)|, deadline)
              case None => r == Err(ApprovalExpired) && Sends(world.trace) == Sends(old(world.trace))
              case Some(at) =>
                && |world.trace| == at + 1 && world.trace[at] == Sent(request, c.access.value.token, world.replies(at))
                && Sends(world.trace) == Sends(old(world.trace)) + [world.trace[at]]
                && r == Received(world.replies(at))
    {
      hide Sends, Presentations, PhaseAfter;
      if deadline.Some? {
        var now := world.Now();
        if now >= deadline.value { return Err(ApprovalExpired); }
      }
      var reply := world.replies(|world.trace|);
      world.Record(Sent(request, c.access.value.token, reply));
      r := Received(reply);
    }

    /** The requests a call added to the trace: how many, and with which content. */
    ghost predicate SentOnly(before: seq<Event>, after: seq<Event>, request: Request) {
      && |before| <= |after| <= |before| + 2
      && before == after[..|before|]
      && (forall i :: |before| <= i < |after| ==> after[i].Sent? && after[i].request == request)
      && (|after| == |before| + 2 ==> after[|before|].reply.Reply? && after[|before|].reply.status == 401)
    }

    /** The reply that decides an authenticated call. */
    ghost predicate Decides(sends: seq<Event>, reply: Reply) {
      sends != [] && sends[|sends| - 1].Sent? && sends[|sends| - 1].reply == reply
    }

    /**
     The last part of `_authenticated`. A 401 empties the cache and the store only when its body is a
     recognised error document: `_failure` raises on any other body before the cleanup is reached.
     */
    method Conclude(reply: Reply, expected: int) returns (r: Result<Reply, Error>)
      requires world.Steady() && reply.Reply? && expected != 401
      modifies this`access, world`trace
      ensures world.Steady() && old(world.trace) <= world.trace
      ensures Sends(world.trace) == Sends(old(world.trace)) && Presentations(world.trace) == Presentations(old(world.trace))
      ensures r.Ok? <==> reply.status == expected
      ensures r.Ok? ==> r.value == reply
      ensures if reply.status == 401 && reply.document.Failure? then
                && access == None
                && |world.trace| == |old(world.trace)| + 1 && world.trace[|old(world.trace)|].Deleted?
                && r == Err(if world.trace[|old(world.trace)|].ok then AuthRequired else Unavailable)
              else
                && access == old(access) && world.trace == old(world.trace)
                && (r.Err? ==> r.error == FailureOf(reply))
    {
      hide Sends, Presentations, PhaseAfter;
      if reply.status == expected { return Ok(reply); }
      r := Err(FailureOf(reply));
      if reply.status == 401 && reply.document.Failure? {
        access := None;
        var deleted := world.Delete();
        r := Err(if deleted then AuthRequired else Unavailable);
      }
    }

    /** Deadlines apply only to calls that name one. */
    ghost predicate Live(trace: seq<Event>, start: nat, deadline: Option<real>) {
      deadline.Some? ==> Timely(trace, start, deadline.value)
    }

    /** `_authenticated` up to the reply that decides it: the request, and after a 401 a rotation and the request again. */
    method Attempt(request: Request, deadline: Option<real>) returns (r: Result<Reply, Error>)
      requires world.Steady()
      modifies this`access, world`trace
      ensures world.Steady() && old(world.trace) <= world.trace
      ensures SentOnly(Sends(old(world.trace)), Sends(world.trace), request)
      ensures |Presentations(world.trace)| <= |Presentations(old(world.trace))| + 2
      ensures Live(world.trace, |old(world.trace)|, deadline)
      ensures r.Ok? ==> r.value.Reply? && access.Some? && Decides(Sends(world.trace), r.value)
                        && Sends(world.trace) != Sends(old(world.trace))
                        && (r.value.status == 401 ==> |Sends(world.trace)| == |Sends(old(world.trace))| + 2)
      ensures r.Err? && |Sends(world.trace)| == |Sends(old(world.trace))| + 2 ==>
                var reply := Sends(world.trace)[|Sends(world.trace)| - 1].reply;
                !(reply.Reply? && reply.status == 401)
      ensures Transmitted(Sends(old(world.trace)), |old(world.trace)|, old(access), request, deadline)
      ensures match Deciding(world, origin, old(access), |old(world.trace)|, deadline)
              case None => r.Err?
              case Some(reply) => r == Received(reply)
    {
      hide Sends, Presentations, PhaseAfter, Follow, Supply, Rotates, Presents, Successor, Stale, SentOnly, Live, SeenFresh,
           World.Steady;
      NoneSent(Sends(world.trace), request);
      var credentials := CurrentCredentials();
      assert Live(world.trace, |old(world.trace)|, deadline) by { Quietly(old(world.trace), world.trace, deadline); }
      if credentials.Err? { return Err(credentials.error); }
      SeenHolds(world.trace, |old(world.trace)|, credentials.value);
      ghost var ready := world.trace;
      r := Transmit(request, credentials.value, deadline);
      Joined(|old(world.trace)|, ready, world.trace, deadline);
      if Sends(world.trace) != Sends(ready) { OneSent(Sends(old(world.trace)), world.trace[|world.trace| - 1], request); }
      if r.Err? || r.value.status != 401 { return; }
      ghost var answered := world.trace;
      r := Retry(request, deadline);
      Joined(|old(world.trace)|, answered, world.trace, deadline);
      if Sends(world.trace) != Sends(answered) {
        var second := SendAgain(world, origin, |answered|, deadline).value;
        TwoSent(Sends(old(world.trace)), answered[|answered| - 1], world.trace[second], request);
      }
    }

    /** What a 401 leads to: one rotation, and the request again. */
    method Retry(request: Request, deadline: Option<real>) returns (r: Result<Reply, Error>)
      requires world.Steady()
      modifies this`access, world`trace
      ensures world.Steady() && old(world.trace) <= world.trace
      ensures |Presentations(world.trace)| <= |Presentations(old(world.trace))| + 1
      ensures Live(world.trace, |old(world.trace)|, deadline)
      ensures world.works(|old(world.trace)|) ==>
                |world.trace| > |old(world.trace)| && world.trace[|old(world.trace)|] == Acquired
      ensures match SendAgain(world, origin, |old(world.trace)|, deadline)
              case None => r.Err? && Sends(world.trace) == Sends(old(world.trace))
              case Some(at) =>
                && SentAt(request, at) && Sends(world.trace) == Sends(old(world.trace)) + [world.trace[at]]
                && r == Received(world.replies(at)) && access.Some?
    {
      hide Sends, Presentations, PhaseAfter, Follow, Rotates, Presents, Successor, Live, SeenFresh;
      var credentials := Refresh();
      assert Live(world.trace, |old(world.trace)|, deadline) by { Quietly(old(world.trace), world.trace, deadline); }
      if credentials.Err? { return Err(credentials.error); }
      SeenHolds(world.trace, |old(world.trace)|, credentials.value);
      ghost var ready := world.trace;
      r := Transmit(request, credentials.value, deadline);
      Joined(|old(world.trace)|, ready, world.trace, deadline);
    }

    /** The request went out at this position and was answered there. */
    predicate SentAt(request: Request, at: nat)
      reads world
    {
      && at < |world.trace| && world.trace[at].Sent?
      && world.trace[at].request == request && world.trace[at].reply == world.replies(at)
    }

    /** Of a call that began at `n`: the request went out where it was due, once or twice, and nowhere else. */
    ghost predicate Transmitted(before: seq<Event>, n: nat, cached: Option<Credentials>, request: Request, deadline: Option<real>)
      reads world
    {
      match FirstSend(world, origin, cached, n, deadline)
      case None => Sends(world.trace) == before
      case Some(first) =>
        && SentAt(request, first)
        && match SecondSend(world, origin, first, deadline)
           case None => Sends(world.trace) == before + [world.trace[first]]
           case Some(second) =>
             && SentAt(request, second)
             && Sends(world.trace) == before + [world.trace[first]] + [world.trace[second]]
    }

    lemma SeenHolds(trace: seq<Event>, start: nat, c: Credentials)
      requires SeenFresh(trace, start, c)
      ensures c.access.Some?
    {
    }

    lemma NoneSent(before: seq<Event>, request: Request)
      ensures SentOnly(before, before, request)
    {
    }

    lemma OneSent(before: seq<Event>, e: Event, request: Request)
      requires e.Sent? && e.request == request
      ensures SentOnly(before, before + [e], request)
    {
    }

    lemma TwoSent(before: seq<Event>, e: Event, f: Event, request: Request)
      requires e.Sent? && e.request == request && f.Sent? && f.request == request && Unauthorized(e.reply)
      ensures SentOnly(before, before + [e] + [f], request)
    {
    }

    lemma Quietly(before: seq<Event>, after: seq<Event>, deadline: Option<real>)
      requires before <= after && Sends(before) == Sends(after)
      ensures Live(after, |before|, deadline)
    {
      QuietStretch(before, after);
    }

    lemma Joined(start: nat, first: seq<Event>, second: seq<Event>, deadline: Option<real>)
      requires first <= second && start <= |first| && Live(first, start, deadline)
      requires Live(second, |first|, deadline) || Sends(first) == Sends(second)
      ensures Live(second, start, deadline)
    {
      if deadline.Some? { TimelyJoin(first, second, start, deadline.value); }
    }

    /**
     `_authenticated`: at most two transmissions of the same request, the second only after a 401 and a
     rotation, each directly after a reading before the deadline; at most two refresh tokens presented.
     */
    method Authenticated(request: Request, expected: int, deadline: Option<real>) returns (r: Result<Reply, Error>)
      requires world.Steady() && (expected == 200 || expected == 201)
      modifies this`access, world`trace
      ensures world.Steady() && old(world.trace) <= world.trace
      ensures SentOnly(Sends(old(world.trace)), Sends(world.trace), request)
      ensures |Presentations(world.trace)| <= |Presentations(old(world.trace))| + 2
      ensures deadline.Some? ==> Timely(world.trace, |old(world.trace)|, deadline.value)
      ensures r.Ok? ==>
                && Sends(world.trace) != Sends(old(world.trace)) && Decides(Sends(world.trace), r.value)
                && r.value.Reply? && r.value.status == expected && access.Some?
      ensures var before, after := Sends(old(world.trace)), Sends(world.trace);
              |after| == |before| + 2 && after[|before| + 1].reply.Reply? && after[|before| + 1].reply.status == 401 ==>
                && r.Err?
                && (if after[|before| + 1].reply.document.Failure?
                    then access == None && world.trace != [] && world.trace[|world.trace| - 1].Deleted?
                    else access.Some? && r.error == InvalidResponse)
      ensures Transmitted(Sends(old(world.trace)), |old(world.trace)|, old(access), request, deadline)
      ensures var reply := Deciding(world, origin, old(access), |old(world.trace)|, deadline);
              && (r.Ok? <==> reply.Some? && reply.value.Reply? && reply.value.status == expected)
              && (r.Ok? ==> reply == Some(r.value))
    {
      hide Sends, Presentations, PhaseAfter, Timely, Follow, FirstSend, SecondSend, Deciding;
      r := Attempt(request, deadline);
      if r.Err? { return; }
      ghost var answered := world.trace;
      r := Conclude(r.value, expected);
      Joined(|old(world.trace)|, answered, world.trace, deadline);
    }

    /** Device login stores and caches the grant, or changes nothing; it takes no lock. */
    method ExchangeDeviceLogin() returns (r: Result<Credentials, Error>)
      requires world.Steady()
      modifies this`access, world`trace
      ensures world.Steady() && old(world.trace) <= world.trace
      ensures Sends(world.trace) == Sends(old(world.trace)) && Presentations(world.trace) == Presentations(old(world.trace))
      ensures match r
              case Ok(c) => access == Some(c) && c.origin == origin && world.trace != [] && world.trace[|world.trace| - 1] == Saved(c)
              case Err(_) => access == old(access)
      ensures var n := |old(world.trace)|; var reply := world.replies(n);
              && (r.Ok? <==> reply.Reply? && reply.status == 200 && reply.document.Grant? && world.works(n + 2))
              && (r.Ok? ==> r.value == GrantedAt(origin, reply.document, world.clock(n)))
    {
      hide Sends, Presentations, PhaseAfter;
      var reply := Received(world.replies(|world.trace|));
      if reply.Err? { return Err(reply.error); }
      if reply.value.status != 200 { return Err(FailureOf(reply.value)); }
      r := ParseTokens(reply.value);
      if r.Err? { return; }
      world.Record(LoggedIn(r.value.refreshToken));
      var saved := world.Save(r.value);
      if !saved { return Err(StoreFailure); }
      access := Some(r.value);
    }

    /** The revocation request of a logout that found credentials. */
    method Revoke() returns (r: Result<(), Error>)
      requires PhaseAfter(world.trace) == Some(R.LogoutRead(true))
      modifies world`trace
      ensures world.trace == old(world.trace) + [RevokePosted] && PhaseAfter(world.trace) == Some(R.LogoutSent)
      ensures Sends(world.trace) == Sends(old(world.trace)) && Presentations(world.trace) == Presentations(old(world.trace))
      ensures r.Ok? <==> world.replies(|old(world.trace)|) == Reply(200, Revoked)
    {
      hide Sends, Presentations, PhaseAfter;
      var reply := Received(world.replies(|world.trace|));
      world.Record(RevokePosted);
      r := if reply.Err? then Err(reply.error)
           else if reply.value.status != 200 then Err(FailureOf(reply.value))
           else if !reply.value.document.Revoked? then Err(InvalidResponse)
           else Ok(());
    }

    /** Logout forgets the credentials only after the server confirmed the revocation, or when there are none. */
    method Logout() returns (r: Result<(), Error>)
      requires world.Steady()
      modifies this`access, world`trace
      ensures world.Steady() && old(world.trace) <= world.trace
      ensures Sends(world.trace) == Sends(old(world.trace)) && Presentations(world.trace) == Presentations(old(world.trace))
      ensures r.Ok? ==> access == None && |world.trace| >= 2 && world.trace[|world.trace| - 2] == Deleted(true)
      ensures r.Err? ==> access == old(access)
      ensures var n := |old(world.trace)|;
              r.Ok? <==> world.works(n) && world.loads(n + 1).Ok?
                         && if world.loads(n + 1).value.None? then world.works(n + 2)
                            else world.replies(n + 2) == Reply(200, Revoked) && world.works(n + 3)
    {
      hide Sends, Presentations, PhaseAfter;
      if !world.works(|world.trace|) { return Err(StoreFailure); }
      world.Record(AcquiredToRevoke);
      var loaded := world.Load();
      if loaded.Err? {
        world.Record(Released);
        return Err(StoreFailure);
      }
      if loaded.value.Some? {
        r := Revoke();
        if r.Err? {
          world.Record(Released);
          return;
        }
      }
      r := Forget();
    }

    /** The end of a logout: the durable value goes, then the cached one, then the lock. */
    method Forget() returns (r: Result<(), Error>)
      requires PhaseAfter(world.trace) == Some(R.LogoutRead(false)) || PhaseAfter(world.trace) == Some(R.LogoutSent)
      modifies this`access, world`trace
      ensures world.Steady() && world.trace == old(world.trace) + [Deleted(r.Ok?), Released]
      ensures Sends(world.trace) == Sends(old(world.trace)) && Presentations(world.trace) == Presentations(old(world.trace))
      ensures r.Ok? <==> world.works(|old(world.trace)|)
      ensures access == if r.Ok? then None else old(access)
    {
      hide Sends, Presentations, PhaseAfter;
      var deleted := world.Delete();
      if deleted { access := None; }
      world.Record(Released);
      r := if deleted then Ok(()) else Err(StoreFailure);
    }

    /**
     `sync_findings`: an inconsistent permit sends nothing. Otherwise every transmission carries the same
     bytes and idempotency key and directly follows a reading strictly before human approval, transport
     approval and lease all expire.
     `admitted` stands for the reference grammar, the digest of the bytes and the strict canonical parse,
     `projectionHash` for what that parse yields.
     */
    method SyncFindings(permit: Permit, admitted: SyncRecord -> bool, projectionHash: SyncRecord -> string)
      returns (r: Result<Document, Error>)
      requires world.Steady()
      modifies this`access, world`trace
      ensures world.Steady() && old(world.trace) <= world.trace
      ensures !PermitConsistent(permit) || !admitted(permit.record) ==>
                r == Err(InvalidRequest) && world.trace == old(world.trace) && access == old(access)
      ensures SentOnly(Sends(old(world.trace)), Sends(world.trace), SyncRequest(permit.record))
      ensures |Presentations(world.trace)| <= |Presentations(old(world.trace))| + 2
      ensures Sends(world.trace) != Sends(old(world.trace)) ==>
                && permit.record.humanExpiresAt.Some? && permit.record.transport.Some? && permit.record.leaseExpiresAt.Some?
                && Timely(world.trace, |old(world.trace)|, permit.record.humanExpiresAt.value)
                && Timely(world.trace, |old(world.trace)|, permit.record.transport.value.expiresAt)
                && Timely(world.trace, |old(world.trace)|, permit.record.leaseExpiresAt.value)
                && permit.record.transport.value.requestDigest == permit.record.requestDigest && !permit.record.hasReceipt
                && permit.record.transmission.Some? && permit.record.transmission.value.requestDigest == permit.record.requestDigest
                && permit.record.transmission.value.permitToken == permit.permitToken
                && permit.record.transmission.value.leaseToken == permit.record.leaseToken
                && permit.begunAt < permit.effectiveExpiresAt
      ensures r.Ok? ==>
                && r.value == Receipt(permit.record.projectRef, permit.record.requestDigest, projectionHash(permit.record))
                && Decides(Sends(world.trace), Reply(201, r.value))
      ensures PermitConsistent(permit) && admitted(permit.record) ==>
                Transmitted(Sends(old(world.trace)), |old(world.trace)|, old(access), SyncRequest(permit.record),
                            Some(permit.effectiveExpiresAt))
      ensures r.Ok? <==>
                && PermitConsistent(permit) && admitted(permit.record)
                && Deciding(world, origin, old(access), |old(world.trace)|, Some(permit.effectiveExpiresAt))
                   == Some(Reply(201, Receipt(permit.record.projectRef, permit.record.requestDigest, projectionHash(permit.record))))
    {
      hide Sends, Presentations, PhaseAfter, Deciding, Transmitted;
      if !PermitConsistent(permit) || !admitted(permit.record) { return Err(InvalidRequest); }
      var reply := Authenticated(SyncRequest(permit.record), 201, Some(permit.effectiveExpiresAt));
      if reply.Err? { return Err(reply.error); }
      var document := reply.value.document;
      if document != Receipt(permit.record.projectRef, permit.record.requestDigest, projectionHash(permit.record)) {
        return Err(InvalidResponse);
      }
      r := Ok(document);
    }
  }
}
