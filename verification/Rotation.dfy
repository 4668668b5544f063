/**
 Rotation of one durable refresh token that any number of CLI and MCP processes share.

 `Apply` is one atomic action of one process: of `CloudClient.refresh`, `exchange_device_login`,
 `logout` or the 401 cleanup of `_authenticated`, with every reply the server may give, lose or
 refuse resolved by the event. A run is a sequence of such actions in any interleaving.
 */
module Rotation {
  import opened Options

  type Token = nat
  type Pid = nat

  datatype Phase =
    | Idle
    | Locked                               // refresh: lock held, durable value not yet read
    | Loaded(tok: Token)                   // refresh: durable value read, request not yet sent
    | Sent(tok: Token)                     // refresh: `tok` is out, no reply parsed yet
    | Granted(tok: Token, minted: Token)    // refresh: rotation reply parsed, not yet saved
    | Cleanup(tok: Token)                  // refresh: an exception after the send, delete pending
    | Exchanged(minted: Token)              // device login: grant parsed, not yet saved; no lock
    | LogoutLocked
    | LogoutRead(found: bool)              // logout: durable value read, nothing posted yet
    | LogoutSent                           // logout: revocation posted
    | Releasing                            // last action under the lock is done

  datatype State = State(
    cell: Option<Token>,       // the durable credential
    lock: Option<Pid>,         // the per-origin file lock
    procs: map<Pid, Phase>,
    next: Token,               // the server issues fresh tokens: `next`, `next + 1`, ...
    presented: seq<Token>)     // every token ever presented to the refresh endpoint, in order

  datatype Event =
    | Acquire
    | LoadRefused                          // nothing stored, expired, other origin, or unreadable
    | Load
    | Send
    | Grant
    | Fail(issued: bool)                   // refused, malformed, wrong device or lost reply
    | Save
    | SaveFails(written: bool)
    | Delete
    | DeleteFails
    | Release
    | Exchange
    | StoreLogin
    | StoreLoginFails(written: bool)
    | LogoutAcquire
    | LogoutLoad
    | LogoutEmpty
    | LogoutRevoke
    | LogoutFails
    | LogoutDone
    | Forget                               // 401 cleanup: delete without the lock
    | Crash

  datatype Action = Action(pid: Pid, event: Event)

  predicate Critical(ph: Phase) {
    !ph.Idle? && !ph.Exchanged?
  }

  /** Between sending the token and saving its successor or deleting it. */
  predicate InWindow(ph: Phase) {
    ph.Sent? || ph.Granted? || ph.Cleanup?
  }

  /** `ph` is the window in which `t` may be durable although the server has consumed it. */
  predicate Covers(ph: Phase, t: Token) {
    InWindow(ph) && ph.tok == t
  }

  function To(s: State, p: Pid, ph: Phase): (r: State) {
    s.(procs := s.procs[p := ph])
  }

  /** Actions of `refresh` up to the end of its lock; it never touches the store before the lock. */
  function RefreshAction(s: State, p: Pid, e: Event): (r: Option<State>)
    requires p in s.procs
  {
    var ph := s.procs[p];
    match e
    case Acquire => if ph.Idle? && s.lock.None? then Some(To(s, p, Locked).(lock := Some(p))) else None
    case LoadRefused => if ph.Locked? || ph.Loaded? then Some(To(s, p, Releasing)) else None
    case Load => if ph.Locked? && s.cell.Some? then Some(To(s, p, Loaded(s.cell.value))) else None
    case Send => if ph.Loaded? then Some(To(s, p, Sent(ph.tok)).(presented := s.presented + [ph.tok])) else None
    case Grant => if ph.Sent? then Some(To(s, p, Granted(ph.tok, s.next)).(next := s.next + 1)) else None
    case Fail(issued) =>
      if ph.Sent? then Some(To(s, p, Cleanup(ph.tok)).(next := if issued then s.next + 1 else s.next)) else None
    case Save => if ph.Granted? then Some(To(s, p, Releasing).(cell := Some(ph.minted))) else None
    case SaveFails(written) =>
      if ph.Granted? then Some(To(s, p, Cleanup(ph.tok)).(cell := if written then Some(ph.minted) else s.cell)) else None
    case Delete => if ph.Cleanup? then Some(To(s, p, Releasing).(cell := None)) else None
    case DeleteFails => if ph.Cleanup? then Some(To(s, p, Releasing)) else None
    case Release => if ph.Releasing? then Some(To(s, p, Idle).(lock := None)) else None
    case _ => None
  }

  /** Actions that touch the store without the lock, and process death. */
  function UnlockedAction(s: State, p: Pid, e: Event): (r: Option<State>)
    requires p in s.procs
  {
    var ph := s.procs[p];
    match e
    case Exchange => if ph.Idle? then Some(To(s, p, Exchanged(s.next)).(next := s.next + 1)) else None
    case StoreLogin => if ph.Exchanged? then Some(To(s, p, Idle).(cell := Some(ph.minted))) else None
    case StoreLoginFails(written) =>
      if ph.Exchanged? then Some(To(s, p, Idle).(cell := if written then Some(ph.minted) else s.cell)) else None
    case Forget => if ph.Idle? then Some(s.(cell := None)) else None
    case Crash => Some(To(s, p, Idle).(lock := if s.lock == Some(p) then None else s.lock))
    case _ => None
  }

  /** Actions of `logout`; a failed revocation leaves the durable value in place. */
  function LogoutAction(s: State, p: Pid, e: Event): (r: Option<State>)
    requires p in s.procs
  {
    var ph := s.procs[p];
    match e
    case LogoutAcquire => if ph.Idle? && s.lock.None? then Some(To(s, p, LogoutLocked).(lock := Some(p))) else None
    case LogoutLoad => if ph.LogoutLocked? then Some(To(s, p, LogoutRead(s.cell.Some?))) else None
    case LogoutEmpty => if ph == LogoutRead(false) then Some(To(s, p, Releasing).(cell := None)) else None
    case LogoutRevoke => if ph == LogoutRead(true) then Some(To(s, p, LogoutSent)) else None
    case LogoutFails =>
      if ph.LogoutSent? || ph.LogoutLocked? || ph.LogoutRead? then Some(To(s, p, Releasing)) else None
    case LogoutDone => if ph.LogoutSent? then Some(To(s, p, Releasing).(cell := None)) else None
    case _ => None
  }

  function Apply(s: State, a: Action): (r: Option<State>) {
    if a.pid !in s.procs then None
    else if a.event.LogoutAcquire? || a.event.LogoutLoad? || a.event.LogoutEmpty? || a.event.LogoutRevoke? || a.event.LogoutFails?
            || a.event.LogoutDone? then
      LogoutAction(s, a.pid, a.event)
    else if a.event.Exchange? || a.event.StoreLogin? || a.event.StoreLoginFails? || a.event.Forget?
            || a.event.Crash? then
      UnlockedAction(s, a.pid, a.event)
    else
      RefreshAction(s, a.pid, a.event)
  }

  /** The whole interleaving `run` from `s`; `None` when some action is not enabled. */
  function Run(s: State, run: seq<Action>): (r: Option<State>)
    decreases |run|
  {
    if run == [] then Some(s)
    else
      match Apply(s, run[0])
      case None => None
      case Some(s') => Run(s', run[1..])
  }

  ghost predicate Init(s: State) {
    && s.lock.None?
    && s.presented == []
    && (forall p :: p in s.procs ==> s.procs[p].Idle?)
    && (s.cell.Some? ==> s.cell.value < s.next)
  }

  ghost predicate NoRepeats(ts: seq<Token>) {
    forall i, j :: 0 <= i < j < |ts| ==> ts[i] != ts[j]
  }

  /**
   The actions excluded by the durability assumption: the process in the window dies, or its cleanup
   delete fails, while the token it presented is still the durable one.
   */
  predicate Hazard(s: State, a: Action) {
    && (a.event.Crash? || a.event.DeleteFails?)
    && a.pid in s.procs
    && InWindow(s.procs[a.pid])
    && s.cell == Some(s.procs[a.pid].tok)
  }

  predicate HazardFree(s: State, run: seq<Action>)
    decreases |run|
  {
    run != [] ==>
      && !Hazard(s, run[0])
      && var next := Apply(s, run[0]);
         next.Some? ==> HazardFree(next.value, run[1..])
  }

  /** The phase carries a token read from the durable cell. */
  predicate HasRead(ph: Phase) {
    ph.Loaded? || InWindow(ph)
  }

  /** The phase carries a token the server issued that has never been durable. */
  predicate HasMinted(ph: Phase) {
    ph.Granted? || ph.Exchanged?
  }

  /**
   What holds of every single process: exactly the lock holder is in a critical phase, a token in its
   window has been presented, and a token that was never saved is neither durable nor presented.
   */
  ghost predicate PhaseSound(s: State, p: Pid, ph: Phase) {
    && (Critical(ph) <==> s.lock == Some(p))
    && (HasRead(ph) ==> ph.tok < s.next)
    && (InWindow(ph) ==> ph.tok in s.presented)
    && (HasMinted(ph) ==> ph.minted < s.next && ph.minted !in s.presented && s.cell != Some(ph.minted))
    && (ph.Granted? ==> ph.minted != ph.tok)
  }

  /** A token that was never saved is known to its recipient only. */
  predicate Separate(ph: Phase, other: Phase) {
    && (HasMinted(ph) && HasRead(other) ==> ph.minted != other.tok)
    && (HasMinted(ph) && HasMinted(other) ==> ph.minted != other.minted)
  }

  /** What every action keeps, hazards included. */
  ghost predicate Sound(s: State) {
    && (s.cell.Some? ==> s.cell.value < s.next)
    && (s.lock.Some? ==> s.lock.value in s.procs)
    && (forall t :: t in s.presented ==> t < s.next)
    && (forall p :: p in s.procs ==> PhaseSound(s, p, s.procs[p]))
    && (forall p, q :: p in s.procs && q in s.procs && p != q ==> Separate(s.procs[p], s.procs[q]))
  }

  /** A durable token that was presented is in the window of some process. */
  ghost predicate CellCovered(s: State) {
    s.cell.Some? && s.cell.value in s.presented ==> exists p :: p in s.procs && Covers(s.procs[p], s.cell.value)
  }

  /** Nobody is about to send a token that was presented before. */
  ghost predicate LoadsUnspent(s: State) {
    forall p :: p in s.procs && s.procs[p].Loaded? ==> s.procs[p].tok !in s.presented
  }

  /** A spent token is durable, or read, with nobody left to replace or delete it. */
  ghost predicate Stranded(s: State) {
    !CellCovered(s) || !LoadsUnspent(s)
  }

  /** The invariant of hazard-free runs. */
  ghost predicate Clean(s: State) {
    Sound(s) && NoRepeats(s.presented) && CellCovered(s) && LoadsUnspent(s)
  }

  /** The ways in which an action of `p` may touch what processes share. */
  predicate Local(s: State, p: Pid, s': State)
    requires p in s.procs
  {
    var ph := s.procs[p];
    && s.next <= s'.next
    && (s'.cell == s.cell || s'.cell.None? || (HasMinted(ph) && s'.cell == Some(ph.minted)))
    && (s'.presented == s.presented || (ph.Loaded? && s'.presented == s.presented + [ph.tok]))
    && (s'.lock == s.lock || (s.lock.None? && s'.lock == Some(p)) || (s.lock == Some(p) && s'.lock.None?))
    && p in s'.procs
    && var ph' := s'.procs[p];
       && s'.procs == s.procs[p := ph']
       && (Critical(ph') <==> s'.lock == Some(p))
       && (HasRead(ph') ==> (HasRead(ph) && ph'.tok == ph.tok) || (s.cell == Some(ph'.tok) && !InWindow(ph')))
       && (InWindow(ph') ==> InWindow(ph) || s'.presented != s.presented)
       && (HasMinted(ph') ==>
             && s'.cell != Some(ph'.minted)
             && s'.presented == s.presented
             && ((HasMinted(ph) && ph'.minted == ph.minted) || (ph'.minted == s.next < s'.next)))
  }

  lemma RefreshIsLocal(s: State, p: Pid, e: Event)
    requires p in s.procs && PhaseSound(s, p, s.procs[p]) && RefreshAction(s, p, e).Some?
    requires s.cell.Some? ==> s.cell.value < s.next
    ensures Local(s, p, RefreshAction(s, p, e).value)
  {
    var s' := RefreshAction(s, p, e).value;
    assert s'.procs == s.procs[p := s'.procs[p]];
  }

  lemma UnlockedIsLocal(s: State, p: Pid, e: Event)
    requires p in s.procs && PhaseSound(s, p, s.procs[p]) && UnlockedAction(s, p, e).Some?
    requires s.cell.Some? ==> s.cell.value < s.next
    ensures Local(s, p, UnlockedAction(s, p, e).value)
  {
    var s' := UnlockedAction(s, p, e).value;
    assert s'.procs == s.procs[p := s'.procs[p]];
  }

  lemma LogoutIsLocal(s: State, p: Pid, e: Event)
    requires p in s.procs && PhaseSound(s, p, s.procs[p]) && LogoutAction(s, p, e).Some?
    requires s.cell.Some? ==> s.cell.value < s.next
    ensures Local(s, p, LogoutAction(s, p, e).value)
  {
    var s' := LogoutAction(s, p, e).value;
    assert s'.procs == s.procs[p := s'.procs[p]];
  }

  lemma ActionIsLocal(s: State, a: Action)
    requires a.pid in s.procs && PhaseSound(s, a.pid, s.procs[a.pid]) && Apply(s, a).Some?
    requires s.cell.Some? ==> s.cell.value < s.next
    ensures Local(s, a.pid, Apply(s, a).value)
  {
    if Apply(s, a) == RefreshAction(s, a.pid, a.event) {
      RefreshIsLocal(s, a.pid, a.event);
    } else if Apply(s, a) == UnlockedAction(s, a.pid, a.event) {
      UnlockedIsLocal(s, a.pid, a.event);
    } else {
      LogoutIsLocal(s, a.pid, a.event);
    }
  }

  lemma SoundStep(s: State, a: Action)
    requires Sound(s) && Apply(s, a).Some?
    ensures Sound(Apply(s, a).value)
  {
    ActionIsLocal(s, a);
    LocalKeepsSound(s, a.pid, Apply(s, a).value);
  }

  lemma LocalKeepsSound(s: State, p: Pid, s': State)
    requires Sound(s) && p in s.procs && Local(s, p, s')
    ensures Sound(s')
  {
    assert PhaseSound(s, p, s.procs[p]);
    forall q | q in s'.procs
      ensures PhaseSound(s', q, s'.procs[q])
    {
      assert PhaseSound(s, q, s.procs[q]);
      assert q != p ==> Separate(s.procs[q], s.procs[p]) && Separate(s.procs[p], s.procs[q]);
    }
    forall q, r | q in s'.procs && r in s'.procs && q != r
      ensures Separate(s'.procs[q], s'.procs[r])
    {
      assert PhaseSound(s, q, s.procs[q]) && PhaseSound(s, r, s.procs[r]);
      assert Separate(s.procs[q], s.procs[r]);
    }
  }

  /** Outside a hazard the window of a durable token only closes by replacing or deleting it. */
  lemma WindowStep(s: State, a: Action)
    requires a.pid in s.procs && InWindow(s.procs[a.pid]) && s.cell == Some(s.procs[a.pid].tok)
    requires PhaseSound(s, a.pid, s.procs[a.pid])
    requires Apply(s, a).Some?
    ensures var s', t := Apply(s, a).value, s.cell.value;
            if Hazard(s, a) then s'.cell == s.cell && s'.presented == s.presented && !HasRead(s'.procs[a.pid])
            else s'.cell != Some(t) || Covers(s'.procs[a.pid], t)
  {
  }

  /** Only the send appends, and it appends what the lock holder loaded. */
  lemma SendStep(s: State, a: Action)
    requires a.pid in s.procs && Apply(s, a).Some?
    ensures var s' := Apply(s, a).value;
            if a.event.Send? then
              s.procs[a.pid].Loaded? && s'.presented == s.presented + [s.procs[a.pid].tok]
              && s'.procs[a.pid] == Sent(s.procs[a.pid].tok) && s'.cell == s.cell
            else s'.presented == s.presented
    ensures var ph' := Apply(s, a).value.procs[a.pid];
            ph'.Loaded? && !s.procs[a.pid].Loaded? ==> s.procs[a.pid].Locked? && s.cell == Some(ph'.tok)
    ensures s.procs[a.pid].Loaded? && Apply(s, a).value.procs[a.pid].Loaded? ==> false
  {
  }

  /** Two different processes are never both inside the lock. */
  lemma CriticalUnique(s: State, p: Pid, q: Pid)
    requires Sound(s) && p in s.procs && q in s.procs && Critical(s.procs[p]) && Critical(s.procs[q])
    ensures p == q
  {
    assert PhaseSound(s, p, s.procs[p]) && PhaseSound(s, q, s.procs[q]);
  }

  lemma LockedCellUnspent(s: State, p: Pid)
    requires Sound(s) && CellCovered(s) && p in s.procs && s.procs[p].Locked?
    ensures s.cell.Some? ==> s.cell.value !in s.presented
  {
    forall q | q in s.procs && Critical(s.procs[q])
      ensures q == p
    {
      CriticalUnique(s, p, q);
    }
  }

  lemma LoadsUnspentStep(s: State, a: Action)
    requires Clean(s) && Apply(s, a).Some?
    ensures LoadsUnspent(Apply(s, a).value)
  {
    var p, s' := a.pid, Apply(s, a).value;
    SendStep(s, a);
    assert PhaseSound(s, p, s.procs[p]);
    ActionIsLocal(s, a);
    forall q | q in s'.procs && s'.procs[q].Loaded?
      ensures s'.procs[q].tok !in s'.presented
    {
      if q != p {
        if a.event.Send? { CriticalUnique(s, p, q); }
      } else {
        LockedCellUnspent(s, p);
      }
    }
  }

  lemma CellCoveredStep(s: State, a: Action)
    requires Clean(s) && Apply(s, a).Some? && !Hazard(s, a)
    ensures CellCovered(Apply(s, a).value)
  {
    var p, s' := a.pid, Apply(s, a).value;
    SendStep(s, a);
    assert PhaseSound(s, p, s.procs[p]);
    ActionIsLocal(s, a);
    if s'.cell.Some? && s'.cell.value in s'.presented {
      var t := s'.cell.value;
      if t in s.presented {
        var r :| r in s.procs && Covers(s.procs[r], t);
        if r == p { WindowStep(s, a); }
        assert Covers(s'.procs[r], t);
      } else {
        assert Covers(s'.procs[p], t);
      }
    }
  }

  lemma CleanStep(s: State, a: Action)
    requires Clean(s) && Apply(s, a).Some? && !Hazard(s, a)
    ensures Clean(Apply(s, a).value)
  {
    SoundStep(s, a);
    SendStep(s, a);
    LoadsUnspentStep(s, a);
    CellCoveredStep(s, a);
  }

  lemma HazardStrands(s: State, a: Action)
    requires Clean(s) && Apply(s, a).Some? && Hazard(s, a)
    ensures Stranded(Apply(s, a).value) && NoRepeats(Apply(s, a).value.presented)
  {
    var p, s' := a.pid, Apply(s, a).value;
    assert PhaseSound(s, p, s.procs[p]);
    WindowStep(s, a);
    ActionIsLocal(s, a);
    forall q | q in s'.procs
      ensures !Covers(s'.procs[q], s'.cell.value)
    {
      if q != p { assert PhaseSound(s, q, s.procs[q]); }
    }
  }

  /** From a clean state, one action leads out of `Clean` exactly when it is a hazard. */
  lemma StrandedExactlyByHazard(s: State, a: Action)
    requires Clean(s) && Apply(s, a).Some?
    ensures Stranded(Apply(s, a).value) <==> Hazard(s, a)
    ensures NoRepeats(Apply(s, a).value.presented)
  {
    if Hazard(s, a) { HazardStrands(s, a); } else { CleanStep(s, a); }
  }

  lemma {:induction false} SoundRun(s: State, run: seq<Action>)
    requires Sound(s) && Run(s, run).Some?
    ensures Sound(Run(s, run).value)
    decreases |run|
  {
    if run != [] {
      SoundStep(s, run[0]);
      SoundRun(Apply(s, run[0]).value, run[1..]);
    }
  }

  lemma {:induction false} CleanRun(s: State, run: seq<Action>)
    requires Clean(s) && Run(s, run).Some? && HazardFree(s, run)
    ensures Clean(Run(s, run).value)
    decreases |run|
  {
    if run != [] {
      CleanStep(s, run[0]);
      CleanRun(Apply(s, run[0]).value, run[1..]);
    }
  }

  /** No refresh token is ever presented twice, in any interleaving of any number of processes. */
  lemma NoTokenPresentedTwice(s: State, run: seq<Action>)
    requires Init(s) && Run(s, run).Some? && HazardFree(s, run)
    ensures NoRepeats(Run(s, run).value.presented)
    ensures CellCovered(Run(s, run).value) && LoadsUnspent(Run(s, run).value)
  {
    CleanRun(s, run);
  }

  /** Some continuation without any further hazard presents a token a second time. */
  ghost predicate ReplayReachable(s: State) {
    exists run :: HazardFree(s, run) && Run(s, run).Some? && !NoRepeats(Run(s, run).value.presented)
  }

  lemma SendRepeats(s: State, p: Pid)
    requires p in s.procs && s.procs[p].Loaded? && s.procs[p].tok in s.presented
    ensures var run := [Action(p, Send)];
            HazardFree(s, run) && Run(s, run).Some? && !NoRepeats(Run(s, run).value.presented)
  {
    var t := s.procs[p].tok;
    var i :| 0 <= i < |s.presented| && s.presented[i] == t;
    var s1 := Apply(s, Action(p, Send)).value;
    assert s1.presented[i] == s1.presented[|s.presented|];
    assert Run(s1, []) == Some(s1);
    assert [Action(p, Send)][1..] == [];
  }

  /** One more action in front of a run that repeats a token. */
  lemma Prepend(s: State, a: Action, run: seq<Action>)
    requires !Hazard(s, a) && Apply(s, a).Some?
    requires var s' := Apply(s, a).value;
             HazardFree(s', run) && Run(s', run).Some? && !NoRepeats(Run(s', run).value.presented)
    ensures HazardFree(s, [a] + run) && Run(s, [a] + run).Some? && !NoRepeats(Run(s, [a] + run).value.presented)
  {
    assert ([a] + run)[1..] == run;
  }

  /** With the lock free, an idle process reads the spent token and sends it again. */
  lemma ReplayFromFreeLock(s: State, p: Pid) returns (run: seq<Action>)
    requires Sound(s) && p in s.procs && s.procs[p].Idle? && s.lock.None?
    requires s.cell.Some? && s.cell.value in s.presented
    ensures HazardFree(s, run) && Run(s, run).Some? && !NoRepeats(Run(s, run).value.presented)
  {
    var s1 := Apply(s, Action(p, Acquire)).value;
    var s2 := Apply(s1, Action(p, Load)).value;
    SendRepeats(s2, p);
    Prepend(s1, Action(p, Load), [Action(p, Send)]);
    run := [Action(p, Load)] + [Action(p, Send)];
    Prepend(s, Action(p, Acquire), run);
    run := [Action(p, Acquire)] + run;
  }

  lemma StrandedCellReplays(s: State, p: Pid) returns (run: seq<Action>)
    requires Sound(s) && p in s.procs && !CellCovered(s)
    ensures HazardFree(s, run) && Run(s, run).Some? && !NoRepeats(Run(s, run).value.presented)
  {
    var q := if s.lock.Some? then s.lock.value else p;   // whoever could be in the way dies first
    var crash := Action(q, Crash);
    assert PhaseSound(s, q, s.procs[q]);
    var s' := Apply(s, crash).value;
    SoundStep(s, crash);
    run := ReplayFromFreeLock(s', q);
    Prepend(s, crash, run);
    run := [crash] + run;
  }

  /**
   The durability assumption is exactly what the protocol needs: in any state reached by any run,
   hazards included, a token can still be presented twice if and only if a spent token is stranded.
   */
  lemma ReplayReachableExactlyWhenStranded(s0: State, history: seq<Action>)
    requires Init(s0) && s0.procs != map[] && Run(s0, history).Some?
    ensures var s := Run(s0, history).value;
            NoRepeats(s.presented) ==> (ReplayReachable(s) <==> Stranded(s))
  {
    var s := Run(s0, history).value;
    SoundRun(s0, history);
    RunKeepsProcs(s0, history);
    if NoRepeats(s.presented) {
      if Stranded(s) {
        if !LoadsUnspent(s) {
          var p :| p in s.procs && s.procs[p].Loaded? && s.procs[p].tok in s.presented;
          SendRepeats(s, p);
        } else {
          var p :| p in s.procs;
          var run := StrandedCellReplays(s, p);
        }
      } else {
        forall run | HazardFree(s, run) && Run(s, run).Some?
          ensures NoRepeats(Run(s, run).value.presented)
        {
          CleanRun(s, run);
        }
      }
    }
  }

  lemma {:induction false} RunKeepsProcs(s: State, run: seq<Action>)
    requires Run(s, run).Some?
    ensures Run(s, run).value.procs.Keys == s.procs.Keys
    decreases |run|
  {
    if run != [] {
      var s' := Apply(s, run[0]).value;
      assert s'.procs.Keys == s.procs.Keys;
      RunKeepsProcs(s', run[1..]);
    }
  }
}
