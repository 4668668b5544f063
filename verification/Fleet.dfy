/**
 Any number of `CloudClient` processes over one shared store, lock and server. Every method of the client
 leaves a trace that follows the rotation protocol; here the traces of all processes are interleaved in any
 order, with processes dying and starting again at any point, and shown to be a run of `Rotation`, so the
 protocol's guarantee holds of the client code itself.
 */
module Fleet {
  import opened Options
  import opened Client
  import R = Rotation

  /** One step of one process: an event of its client, or the process dies and a new one starts under its number. */
  datatype Entry = Step(pid: R.Pid, event: Event) | Death(pid: R.Pid)

  /** The trace of the process now running under this number. */
  function Life(log: seq<Entry>, p: R.Pid): seq<Event> {
    if log == [] then [] else
    var last, before := log[|log| - 1], Life(log[..|log| - 1], p);
    if last.pid != p then before else if last.Death? then [] else before + [last.event]
  }

  function PresentedBy(entry: Entry): seq<Token> {
    if entry.Step? && entry.event.Presented? then [entry.event.token] else []
  }

  /** Every token presented by anyone, in order. */
  function AllPresented(log: seq<Entry>): seq<Token> {
    if log == [] then [] else AllPresented(log[..|log| - 1]) + PresentedBy(log[|log| - 1])
  }

  /** The protocol actions one client event stands for. */
  function Protocol(ph: R.Phase, e: Event): seq<R.Event> {
    match e
    case Clock(_) => []
    case Acquired => [R.Acquire]
    case AcquiredToRevoke => [R.LogoutAcquire]
    case Released => if ph.Loaded? then [R.LoadRefused, R.Release]
                     else if ph.LogoutSent? then [R.LogoutFails, R.Release] else [R.Release]
    case Read(found) => if ph.Idle? then [] else if ph.LogoutLocked? then [R.LogoutLoad]
                        else if found.Some? then [R.Load] else [R.LoadRefused]
    case ReadFailed => if ph.Idle? then [] else if ph.Locked? then [R.LoadRefused] else [R.LogoutFails]
    case Presented(_) => [R.Send]
    case Granted(_) => [R.Grant]
    case Failed(issued) => [R.Fail(issued)]
    case LoggedIn(_) => [R.Exchange]
    case Saved(_) => if ph.Granted? then [R.Save] else [R.StoreLogin]
    case SaveFailed(_, written) => if ph.Granted? then [R.SaveFails(written)] else [R.StoreLoginFails(written)]
    case Deleted(ok) =>
      if ph.Idle? then (if ok then [R.Forget] else [])
      else if ph.Cleanup? then (if ok then [R.Delete] else [R.DeleteFails])
      else if !ok then [R.LogoutFails]
      else if ph.LogoutSent? then [R.LogoutDone] else [R.LogoutEmpty]
    case RevokePosted => [R.LogoutRevoke]
    case Sent(_, _, _) => []
  }

  function Actions(p: R.Pid, events: seq<R.Event>): (r: seq<R.Action>)
    ensures |r| == |events|
  {
    seq(|events|, i requires 0 <= i < |events| => R.Action(p, events[i]))
  }

  /** The shared state answers the client truthfully: the lock excludes, reads see the cell, minted tokens are fresh. */
  predicate Agrees(s: R.State, p: R.Pid, e: Event)
    requires p in s.procs
  {
    match e
    case Acquired => s.lock.None?
    case AcquiredToRevoke => s.lock.None?
    case Read(found) =>
      R.Critical(s.procs[p]) ==>
        s.cell == if found.Some? then Some(found.value.refreshToken) else None
    case Granted(minted) => minted == s.next
    case LoggedIn(minted) => minted == s.next
    case _ => true
  }

  function ActionsOf(s: R.State, entry: Entry): seq<R.Action>
    requires entry.pid in s.procs
  {
    Actions(entry.pid, if entry.Death? then [R.Crash] else Protocol(s.procs[entry.pid], entry.event))
  }

  /** The phase of the acting process after the entry; a process that has just started is idle. */
  function NextPhase(ph: R.Phase, entry: Entry): Option<R.Phase> {
    if entry.Death? then Some(R.Idle) else Follow(ph, entry.event)
  }

  /** The shared state after one more entry; unchanged when the protocol does not allow it. */
  function After(s: R.State, entry: Entry): R.State {
    if entry.pid !in s.procs then s else
    var next := R.Run(s, ActionsOf(s, entry));
    if next.Some? then next.value else s
  }

  function Joint(s: R.State, log: seq<Entry>): R.State {
    if log == [] then s else After(Joint(s, log[..|log| - 1]), log[|log| - 1])
  }

  /** The world answered truthfully at every point of the interleaving. */
  ghost predicate Truthful(s: R.State, log: seq<Entry>) {
    forall i :: 0 <= i < |log| ==>
      && log[i].pid in Joint(s, log[..i]).procs
      && (log[i].Step? ==> Agrees(Joint(s, log[..i]), log[i].pid, log[i].event))
  }

  /** A process is lost, or its cleanup delete fails, while the token it presented is still the durable one. */
  predicate Hazardous(s: R.State, entry: Entry) {
    && entry.pid in s.procs && R.InWindow(s.procs[entry.pid]) && s.cell == Some(s.procs[entry.pid].tok)
    && (entry.Death? || entry.event == Deleted(false))
  }

  /** The durability assumption. */
  ghost predicate Durable(s: R.State, log: seq<Entry>) {
    forall i :: 0 <= i < |log| ==> !Hazardous(Joint(s, log[..i]), log[i])
  }

  /** Every life of every process follows the client, up to wherever it ended. */
  ghost predicate Disciplined(s: R.State, log: seq<Entry>) {
    forall i, p :: 0 <= i <= |log| && p in s.procs ==> PhaseAfter(Life(log[..i], p)).Some?
  }

  /**
   An allowed entry is one or two protocol actions, or none, and leads to the named phase. It is a hazard of the
   protocol exactly when the process is lost, or its delete fails, inside the window.
   */
  lemma EventIsProtocol(s: R.State, entry: Entry)
    requires entry.pid in s.procs && NextPhase(s.procs[entry.pid], entry).Some?
    requires entry.Step? ==> Agrees(s, entry.pid, entry.event)
    ensures var run := ActionsOf(s, entry);
            && R.Run(s, run).Some?
            && R.Run(s, run).value.procs == s.procs[entry.pid := NextPhase(s.procs[entry.pid], entry).value]
            && R.Run(s, run).value.presented == s.presented + PresentedBy(entry)
            && (R.HazardFree(s, run) <==> !Hazardous(s, entry))
  {
    var p := entry.pid;
    var ph := s.procs[p];
    var run := ActionsOf(s, entry);
    if run == [] {
      assert R.Run(s, run) == Some(s);
      assert s.procs == s.procs[p := ph];
    } else {
      var s1 := R.Apply(s, run[0]);
      assert s1.Some?;
      assert R.Run(s, run) == R.Run(s1.value, run[1..]);
      assert run[0].event.Crash? <==> entry.Death?;
      assert run[0].event.DeleteFails? <==> ph.Cleanup? && entry == Step(p, Deleted(false));
      if |run| == 1 {
        assert R.Run(s1.value, run[1..]) == s1;
      } else {
        var s2 := R.Apply(s1.value, run[1]);
        assert run[1] == R.Action(p, R.Release);
        assert run[1..][1..] == [] && run[1..][0] == run[1];
        assert R.Run(s1.value, run[1..]) == R.Run(s2.value, []) == s2;
        assert R.HazardFree(s1.value, run[1..]);
      }
    }
  }

  lemma Extended(trace: seq<Event>, e: Event)
    requires PhaseAfter(trace).Some?
    ensures PhaseAfter(trace + [e]) == Follow(PhaseAfter(trace).value, e)
  {
    assert (trace + [e])[..|trace|] == trace;
  }

  /** The last entry of a log changes the life of its own process and of no other. */
  lemma LifeLast(init: seq<Entry>, entry: Entry, p: R.Pid)
    requires PhaseAfter(Life(init, p)).Some?
    ensures PhaseAfter(Life(init + [entry], p)) ==
              if p == entry.pid then NextPhase(PhaseAfter(Life(init, p)).value, entry) else PhaseAfter(Life(init, p))
  {
    hide Follow;
    assert (init + [entry])[..|init|] == init;
    if entry.Step? { Extended(Life(init, p), entry.event); }
  }

  /** What holds of a whole log holds of all but its last entry, and of that entry. */
  lemma WithoutLast(s: R.State, init: seq<Entry>, entry: Entry)
    requires Truthful(s, init + [entry]) && Durable(s, init + [entry]) && Disciplined(s, init + [entry])
    ensures Truthful(s, init) && Durable(s, init) && Disciplined(s, init)
    ensures entry.pid in Joint(s, init).procs && !Hazardous(Joint(s, init), entry)
    ensures entry.Step? ==> Agrees(Joint(s, init), entry.pid, entry.event)
    ensures forall p :: p in s.procs ==> PhaseAfter(Life(init, p)).Some? && PhaseAfter(Life(init + [entry], p)).Some?
  {
    hide Joint, Agrees, Hazardous, PhaseAfter, Life;
    var log := init + [entry];
    forall i | 0 <= i <= |init| ensures init[..i] == log[..i] {}
    forall i | 0 <= i < |init| ensures init[i] == log[i] {}
    assert log[..|init|] == init && log[|init|] == entry && log[..|log|] == log;
  }

  /** One entry of the interleaving. */
  lemma JointStep(s: R.State, entry: Entry)
    requires R.Clean(s) && entry.pid in s.procs && !Hazardous(s, entry)
    requires entry.Step? ==> Agrees(s, entry.pid, entry.event)
    requires NextPhase(s.procs[entry.pid], entry).Some?
    ensures R.Clean(After(s, entry))
    ensures After(s, entry).procs == s.procs[entry.pid := NextPhase(s.procs[entry.pid], entry).value]
    ensures After(s, entry).presented == s.presented + PresentedBy(entry)
  {
    hide R.Clean, NextPhase, ActionsOf, Agrees, R.HazardFree, R.Run, Hazardous, PresentedBy;
    EventIsProtocol(s, entry);
    R.CleanRun(s, ActionsOf(s, entry));
  }

  /** Every process is in the phase of the life it is living. */
  ghost predicate InPhase(s: R.State, log: seq<Entry>) {
    forall p :: p in s.procs ==> PhaseAfter(Life(log, p)) == Some(s.procs[p])
  }

  lemma StartsClean(s: R.State)
    requires R.Init(s)
    ensures R.Clean(s) && InPhase(s, []) && s.presented == []
  {
  }

  /** The whole interleaving keeps the protocol's invariant, with every process in the phase of its own trace. */
  lemma {:induction false} JointRun(s: R.State, log: seq<Entry>)
    requires R.Init(s) && Truthful(s, log) && Durable(s, log) && Disciplined(s, log)
    ensures R.Clean(Joint(s, log)) && Joint(s, log).procs.Keys == s.procs.Keys
    ensures InPhase(Joint(s, log), log)
    ensures Joint(s, log).presented == AllPresented(log)
    decreases |log|
  {
    hide R.Clean, R.Init, NextPhase, Agrees, Hazardous, Truthful, Durable, Disciplined, After, PhaseAfter, Life, PresentedBy;
    if log == [] {
      StartsClean(s);
    } else {
      var init, entry := log[..|log| - 1], log[|log| - 1];
      assert log == init + [entry];
      WithoutLast(s, init, entry);
      JointRun(s, init);
      LifeLast(init, entry, entry.pid);
      JointStep(Joint(s, init), entry);
      forall p | p in s.procs
        ensures PhaseAfter(Life(log, p)) == Some(Joint(s, log).procs[p])
      {
        LifeLast(init, entry, p);
      }
    }
  }

  /** No refresh token is presented twice by any fleet of clients, however their steps interleave and wherever they die. */
  lemma FleetNeverReplays(s: R.State, log: seq<Entry>)
    requires R.Init(s) && Truthful(s, log) && Durable(s, log) && Disciplined(s, log)
    ensures R.NoRepeats(AllPresented(log))
  {
    JointRun(s, log);
  }

  /** A process that dies outside the window is no hazard and leaves the lock free. */
  lemma DeathFreesLock(s: R.State, p: R.Pid)
    requires R.Clean(s) && p in s.procs && !R.InWindow(s.procs[p])
    ensures !Hazardous(s, Death(p)) && R.Clean(After(s, Death(p)))
    ensures s.lock == Some(p) ==> After(s, Death(p)).lock.None?
    ensures After(s, Death(p)).cell == s.cell && After(s, Death(p)).presented == s.presented
  {
    hide R.Clean;
    JointStep(s, Death(p));
    var run := ActionsOf(s, Death(p));
    assert run == [R.Action(p, R.Crash)];
    assert R.Run(s, run) == R.Apply(s, run[0]) by { assert R.Run(R.Apply(s, run[0]).value, run[1..]) == R.Apply(s, run[0]); }
  }

  /** One more entry strands a spent token, so that a replay becomes reachable, exactly when it is hazardous. */
  lemma StrandedExactlyByHazardous(s: R.State, entry: Entry)
    requires R.Clean(s) && entry.pid in s.procs && NextPhase(s.procs[entry.pid], entry).Some?
    requires entry.Step? ==> Agrees(s, entry.pid, entry.event)
    ensures R.Stranded(After(s, entry)) <==> Hazardous(s, entry)
  {
    if Hazardous(s, entry) {
      var run := ActionsOf(s, entry);
      HazardousIsOneAction(s, entry);
      R.StrandedExactlyByHazard(s, run[0]);
    } else {
      JointStep(s, entry);
    }
  }

  lemma HazardousIsOneAction(s: R.State, entry: Entry)
    requires Hazardous(s, entry) && NextPhase(s.procs[entry.pid], entry).Some?
    ensures var run := ActionsOf(s, entry);
            |run| == 1 && R.Hazard(s, run[0]) && R.Apply(s, run[0]) == Some(After(s, entry))
  {
    var run := ActionsOf(s, entry);
    assert run[0] == R.Action(entry.pid, if entry.Death? then R.Crash else R.DeleteFails);
    assert R.Run(R.Apply(s, run[0]).value, run[1..]) == R.Apply(s, run[0]);
  }
}
