/**
 * What can still be written to a connection ahead of its greeting: exact conditions on the state, over all
 * continuations.
 */
module SupervisorOvertakes {
  import opened Text
  import opened Supervisor
  import opened SupervisorInvariant
  import opened SupervisorTheorems
  import opened SupervisorSchedules
  import opened SupervisorLines
  import Escalation
  import Messages

  // ----- a push

  /** This step writes a push to thread `t`'s open connection while it waits to greet. */
  predicate PushesEarly(s: Sys, e: Event, t: nat) {
    && e.OnMon? && e.ma.Push? && e.g < |s.gens| && s.gens[e.g].mon == PushExit(Some(t))
    && t in s.conns && Awaiting(s.conns[t].pc) && !s.conns[t].shut
  }

  ghost predicate PushedEarly(s: Sys, es: seq<Event>, t: nat)
    decreases |es|
  {
    es != [] && Next(s, es[0]).Some? && (PushesEarly(s, es[0], t) || PushedEarly(Next(s, es[0]).value, es[1..], t))
  }

  /** A monitor has looked `t` up and not pushed yet, or is about to look up an owner while that is `t`. */
  predicate PushAhead(s: Sys, t: nat) {
    exists g :: 0 <= g < |s.gens| && (s.gens[g].mon == PushExit(Some(t))
                                      || (s.gens[g].mon.FindOwner? && s.st.owner == Some(t)))
  }

  predicate Entered(s: Sys, t: nat) {
    t in s.conns && !s.conns[t].pc.Leasing?
  }

  lemma OwnerByAcquire(s: Sys, t: nat, a: ConnAct, u: nat)
    requires t in s.conns && ConnNext(s, t, a).Some? && Entered(s, u)
    ensures var s' := ConnNext(s, t, a).value;
            && Entered(s', u) && (s'.st.owner == Some(u) ==> s.st.owner == Some(u))
  {
    if a.Acquire? {
    } else {
      ActsKeepPlaces(s, t, a);
      NeverLeasing(s, t, a);
      if !a.Release? {
        ActsKeepOwner(s, t, a);
      }
    }
  }

  lemma NeverLeasing(s: Sys, t: nat, a: ConnAct)
    requires t in s.conns && ConnNext(s, t, a).Some? && !a.Acquire?
    ensures var s' := ConnNext(s, t, a).value; t in s'.conns && !s'.conns[t].pc.Leasing?
  {
  }

  /** Another thread is in its command loop or on its way to it, so that it can start a core. */
  predicate HasStarter(s: Sys, t: nat) {
    exists u :: u in s.conns && u != t && CanServe(s.conns[u].pc)
  }

  predicate CanServe(pc: ConnPc) {
    InLoop(pc) || Awaiting(pc)
  }

  /**
   * A push can still reach `t` before its greeting: one is under way to it, or it is the owner and a core is up that
   * nobody has asked to stop, or it is the owner and another thread can still start one.
   */
  predicate PushCanCome(s: Sys, t: nat) {
    || PushAhead(s, t)
    || (s.st.owner == Some(t) && s.st.core.Running? && !s.st.core.stopRequested)
    || (s.st.owner == Some(t) && HasStarter(s, t))
  }

  ghost predicate CanBePushed(s: Sys, t: nat) {
    exists es :: PushedEarly(s, es, t)
  }

  /** It waits for its greeting with an open socket. */
  predicate Waits(s: Sys, t: nat) {
    s.exit == NotExited && t in s.conns && Awaiting(s.conns[t].pc) && !s.conns[t].shut
  }

  /** And it owns the slot. */
  ghost predicate OwnerWaits(s: Sys, t: nat) {
    Inv(s) && AddressInv(s) && Waits(s, t) && s.st.owner == Some(t)
  }

  lemma First(s: Sys, e: Event, t: nat)
    requires Next(s, e).Some? && CanBePushed(Next(s, e).value, t)
    ensures CanBePushed(s, t)
  {
    var es :| PushedEarly(Next(s, e).value, es, t);
    assert ([e] + es)[1..] == es;
    assert PushedEarly(s, [e] + es, t);
  }

  lemma {:induction false} PushedAfter(s: Sys, es: seq<Event>, fs: seq<Event>, t: nat)
    requires Exec(s, es).Some? && PushedEarly(Exec(s, es).value, fs, t)
    ensures PushedEarly(s, es + fs, t)
    decreases |es|
  {
    if es == [] {
      assert es + fs == fs;
    } else {
      assert (es + fs)[1..] == es[1..] + fs;
      PushedAfter(Next(s, es[0]).value, es[1..], fs, t);
    }
  }

  lemma Pushing(s: Sys, g: nat, t: nat)
    requires Waits(s, t) && g < |s.gens| && s.gens[g].mon == PushExit(Some(t))
    ensures CanBePushed(s, t)
  {
    var e := OnMon(g, Push(None, None));
    assert Next(s, e).Some?;
    assert PushedEarly(s, [e], t);
  }

  /** A held lock comes free while the owner waits. */
  lemma Unlocked(s: Sys, t: nat) returns (es: seq<Event>)
    requires OwnerWaits(s, t)
    ensures Exec(s, es).Some? && OnlyUnlocked(s, Exec(s, es).value) && OwnerWaits(Exec(s, es).value, t)
  {
    es := FreeLock(s);
    InvRun(s, es);
    AddressRun(s, es);
  }

  lemma LookingUp(s: Sys, g: nat, t: nat)
    requires OwnerWaits(s, t) && g < |s.gens| && s.gens[g].mon.FindOwner?
    ensures CanBePushed(s, t)
  {
    assert GenOk(s, g);
    var es := Unlocked(s, t);
    var s1 := Exec(s, es).value;
    var e := OnMon(g, LookUpOwner);
    Pushing(Next(s1, e).value, g, t);
    First(s1, e, t);
    var fs :| PushedEarly(s1, fs, t);
    PushedAfter(s, es, fs, t);
  }

  // ----- steps that leave the owner waiting

  lemma MonLeaves(s: Sys, g: nat, a: MonAct, t: nat)
    requires OwnerWaits(s, t) && Next(s, OnMon(g, a)).Some?
    ensures OwnerWaits(Next(s, OnMon(g, a)).value, t)
    ensures HasStarter(s, t) ==> HasStarter(Next(s, OnMon(g, a)).value, t)
  {
    var s' := Next(s, OnMon(g, a)).value;
    InvStep(s, OnMon(g, a), s');
    AddressStep(s, OnMon(g, a));
    MonKeepsThreads(s, g, a);
    MonStops(s, g, a);
    StarterStays(s, s', t);
  }

  lemma StarterStays(s: Sys, s': Sys, t: nat)
    requires s'.conns.Keys == s.conns.Keys
    requires forall u :: u in s.conns && CanServe(s.conns[u].pc) ==> CanServe(s'.conns[u].pc)
    ensures HasStarter(s, t) ==> HasStarter(s', t)
  {
    if HasStarter(s, t) {
      var u :| u in s.conns && u != t && CanServe(s.conns[u].pc);
      assert u in s'.conns && CanServe(s'.conns[u].pc);
    }
  }

  lemma ProcessLeaves(s: Sys, e: Event, t: nat)
    requires OwnerWaits(s, t) && Next(s, e).Some? && (e.ProcessExits? || e.ProcessReaped?)
    ensures OwnerWaits(Next(s, e).value, t) && Next(s, e).value.conns == s.conns
  {
    InvStep(s, e, Next(s, e).value);
    AddressStep(s, e);
  }

  /** Another thread's step, but for a hello and the exit. */
  lemma ConnLeaves(s: Sys, u: nat, a: ConnAct, t: nat)
    requires OwnerWaits(s, t) && u != t && Next(s, OnConn(u, a)).Some? && !a.Acquire? && !a.Release? && !a.JoinAndExit?
    ensures OwnerWaits(Next(s, OnConn(u, a)).value, t)
  {
    var s' := Next(s, OnConn(u, a)).value;
    InvStep(s, OnConn(u, a), s');
    AddressStep(s, OnConn(u, a));
    ActsKeepPlaces(s, u, a);
    ActsKeepOwner(s, u, a);
    OnlyJoinExits(s, u, a);
    assert LoserOk(s, u);
    StaysOpen(s, u, a, t);
  }

  lemma StaysOpen(s: Sys, u: nat, a: ConnAct, t: nat)
    requires u in s.conns && t in s.conns && u != t && ConnNext(s, u, a).Some?
    requires s.conns[u].pc.Unblocking? ==> s.conns[u].pc.loser != t
    ensures t in ConnNext(s, u, a).value.conns && ConnNext(s, u, a).value.conns[t].shut == s.conns[t].shut
  {
    if !OfHandshake(a) {
      NoLinesOfOthers(s, u, a, t);
    }
  }

  // ----- from a core that is up to its exit

  /** How far a monitor is from its next poll. */
  function Rank(pc: MonPc): nat {
    match pc
    case Check => 6
    case Decide(_) => 5
    case SetDeadline | SendKill => 4
    case Sleep => 3
    case Unspawned => 3
    case Poll => 2
    case _ => 1
  }

  function NextMonAct(pc: MonPc): MonAct
    requires pc.Check? || pc.Decide? || pc.SetDeadline? || pc.SendKill? || pc.Sleep?
  {
    match pc
    case Check => CheckStop
    case Decide(_) => Act
    case SetDeadline => ReadClock
    case SendKill => Kill
    case Sleep => WaitTimeout
  }

  predicate IsLast(s: Sys, g: nat) {
    g == |s.gens| - 1 && s.st.core.Running?
  }

  lemma TowardsPoll(s: Sys, g: nat)
    requires Inv(s) && s.exit == NotExited && g < |s.gens| && IsLast(s, g)
    requires var pc := s.gens[g].mon; pc.Check? || pc.Decide? || pc.SetDeadline? || pc.SendKill? || pc.Sleep?
    ensures var e := OnMon(g, NextMonAct(s.gens[g].mon));
            && Next(s, e).Some?
            && var s' := Next(s, e).value;
               && |s'.gens| == |s.gens| && IsLast(s', g) && s'.gens[g].marks == s.gens[g].marks
               && Rank(s'.gens[g].mon) < Rank(s.gens[g].mon)
  {
    assert s.holder == None;
  }

  /** The exit of a core that nobody asked to stop is pushed to the owner. */
  lemma ExitUnasked(s: Sys, g: nat, t: nat)
    requires OwnerWaits(s, t) && g < |s.gens| && IsLast(s, g) && s.gens[g].mon.Reaped? && s.gens[g].marks == []
    ensures CanBePushed(s, t)
  {
    var e := OnMon(g, HandleExit);
    assert GenOk(s, g);
    assert Next(s, e).Some? && Next(s, e).value.gens[g].mon.FindOwner?;
    MonLeaves(s, g, HandleExit, t);
    LookingUp(Next(s, e).value, g, t);
    First(s, e, t);
  }

  /** After the exit of one that was asked to stop, another thread can start a new one. */
  lemma ExitAsked(s: Sys, g: nat, t: nat)
    requires OwnerWaits(s, t) && g < |s.gens| && IsLast(s, g) && s.gens[g].mon.Reaped? && s.gens[g].marks != []
    requires HasStarter(s, t)
    ensures CanBePushed(s, t)
    decreases 1, 1
  {
    var e := OnMon(g, HandleExit);
    assert GenOk(s, g);
    assert Next(s, e).Some? && Next(s, e).value.st.core == Stopped;
    MonLeaves(s, g, HandleExit, t);
    FromStopped(Next(s, e).value, t);
    First(s, e, t);
  }

  /** The child exits, and the monitor reaps it. */
  lemma FromPoll(s: Sys, g: nat, t: nat)
    requires OwnerWaits(s, t) && g < |s.gens| && IsLast(s, g) && s.gens[g].mon.Poll?
    requires s.gens[g].marks == [] || HasStarter(s, t)
    ensures CanBePushed(s, t)
    decreases if s.gens[g].marks == [] then 0 else 1, 2
  {
    assert GenOk(s, g);
    var e1, e2 := ProcessExits(s.gens[g].pid), OnMon(g, TryWait);
    ProcessLeaves(s, e1, t);
    var s1 := Next(s, e1).value;
    assert Next(s1, e2).Some? && Next(s1, e2).value.gens[g].mon.Reaped?;
    MonLeaves(s1, g, TryWait, t);
    var s2 := Next(s1, e2).value;
    if s.gens[g].marks == [] {
      ExitUnasked(s2, g, t);
    } else {
      ExitAsked(s2, g, t);
    }
    First(s1, e2, t);
    First(s, e1, t);
  }

  lemma FromUnspawned(s: Sys, g: nat, t: nat)
    requires OwnerWaits(s, t) && g < |s.gens| && IsLast(s, g) && s.gens[g].mon.Unspawned?
    requires s.gens[g].marks == [] || HasStarter(s, t)
    ensures CanBePushed(s, t)
    decreases if s.gens[g].marks == [] then 0 else 1, 3
  {
    assert OwedOk(s, g);
    var u := s.gens[g].starter;
    var e := OnConn(u, SpawnMonitor);
    ConnLeaves(s, u, SpawnMonitor, t);
    var s1 := Next(s, e).value;
    SpawnLeaves(s, u, t);
    FromPoll(s1, g, t);
    First(s, e, t);
  }

  lemma SpawnLeaves(s: Sys, u: nat, t: nat)
    requires u in s.conns && s.conns[u].pc.SpawnedCore? && ConnNext(s, u, SpawnMonitor).Some?
    ensures var s', g := ConnNext(s, u, SpawnMonitor).value, s.conns[u].pc.g;
            && |s'.gens| == |s.gens| && g < |s.gens| && s'.st == s.st
            && s'.gens[g].mon.Poll? && s'.gens[g].marks == s.gens[g].marks
            && (HasStarter(s, t) ==> HasStarter(s', t))
  {
    StarterStays(s, ConnNext(s, u, SpawnMonitor).value, t);
  }

  /** A core that is up can exit and its exit be pushed, by itself or after a new start. */
  lemma {:induction false} FromCore(s: Sys, g: nat, t: nat)
    requires OwnerWaits(s, t) && g < |s.gens| && IsLast(s, g)
    requires s.gens[g].marks == [] || HasStarter(s, t)
    ensures CanBePushed(s, t)
    decreases if s.gens[g].marks == [] then 0 else 1, 4 + Rank(s.gens[g].mon)
  {
    assert GenOk(s, g);
    var pc := s.gens[g].mon;
    if pc.Unspawned? {
      FromUnspawned(s, g, t);
    } else if pc.Poll? {
      FromPoll(s, g, t);
    } else if pc.Reaped? {
      if s.gens[g].marks == [] {
        ExitUnasked(s, g, t);
      } else {
        ExitAsked(s, g, t);
      }
    } else {
      TowardsPoll(s, g);
      var a := NextMonAct(pc);
      MonLeaves(s, g, a, t);
      FromCore(Next(s, OnMon(g, a)).value, g, t);
      First(s, OnMon(g, a), t);
    }
  }

  // ----- from no core to a new one

  /** How far a thread is from reading its next command. */
  function Steps(pc: ConnPc): nat {
    match pc
    case Displacing(_) => 9
    case Unblocking(_) => 8
    case Greeting => 7
    case Saluting(_) => 6
    case Waiting(_, _, _) => 7
    case FiringDown(_, _, _) => 6
    case Stopping(_) => 6
    case FiringUp(_) => 6
    case Reporting => 6
    case Replying(_) => 5
    case _ => 4
  }

  function NextConnAct(pc: ConnPc): ConnAct {
    match pc
    case Displacing(_) => Displace(false)
    case Unblocking(_) => Unblock
    case Greeting => Snapshot
    case Saluting(_) => Greet
    case Waiting(_, _, _) => Observe
    case FiringDown(_, _, _) => FireDown(false)
    case Stopping(_) => Stop
    case FiringUp(_) => FireUp(false)
    case Reporting => ReportState
    case _ => Reply("")
  }

  predicate Idle(s: Sys) {
    s.exit == NotExited && s.st.core.Stopped? && s.holder == None
  }

  lemma TowardsGreeting(s: Sys, u: nat)
    requires Idle(s) && u in s.conns && Awaiting(s.conns[u].pc)
    ensures Advances(s, u)
  {
  }

  /** Its next act is possible, and brings it nearer to reading a command. */
  predicate Advances(s: Sys, u: nat)
    requires u in s.conns
  {
    var next := ConnNext(s, u, NextConnAct(s.conns[u].pc));
    && next.Some?
    && u in next.value.conns && CanServe(next.value.conns[u].pc)
    && Steps(next.value.conns[u].pc) < Steps(s.conns[u].pc)
    && Idle(next.value)
  }

  lemma TowardsRead(s: Sys, u: nat)
    requires Inv(s) && Idle(s) && u in s.conns && CanServe(s.conns[u].pc)
    requires !s.conns[u].pc.Serving? && !s.conns[u].pc.Starting?
    ensures Advances(s, u)
  {
    assert LinkOk(s, u);
    if Awaiting(s.conns[u].pc) {
      TowardsGreeting(s, u);
    } else if s.conns[u].pc.SpawnedCore? {
      NotLiveWhenStopped(s, s.conns[u].pc.g);
    }
  }

  /** Some pid is free, or can be freed. */
  lemma PidIsFreed(s: Sys, t: nat, u: nat, pid: Messages.I32)
    requires OwnerWaits(s, t) && Idle(s) && u != t && u in s.conns && s.conns[u].pc.Starting? && pid in s.procs
    ensures CanBePushed(s, t)
    decreases 0, 21
  {
    NoCoreWhenStopped(s, pid);
    var e1, e2 := ProcessExits(pid), ProcessReaped(pid);
    ProcessLeaves(s, e1, t);
    var s1 := Next(s, e1).value;
    ProcessLeaves(s1, e2, t);
    FromStarting(Next(s1, e2).value, t, u, pid);
    First(s1, e2, t);
    First(s, e1, t);
  }

  lemma FromStarting(s: Sys, t: nat, u: nat, pid: Messages.I32)
    requires OwnerWaits(s, t) && Idle(s) && u != t && u in s.conns && s.conns[u].pc.Starting? && pid !in s.procs
    ensures CanBePushed(s, t)
    decreases 0, 20
  {
    var a := Start(Some((pid, 5000)));
    ConnLeaves(s, u, a, t);
    var s1 := Next(s, OnConn(u, a)).value;
    FromUnspawned(s1, |s.gens|, t);
    First(s, OnConn(u, a), t);
  }

  lemma FromServing(s: Sys, t: nat, u: nat)
    requires OwnerWaits(s, t) && Idle(s) && u != t && u in s.conns && (s.conns[u].pc.Serving? || s.conns[u].pc.Starting?)
    ensures CanBePushed(s, t)
    decreases 0, 22
  {
    if s.conns[u].pc.Starting? {
      if 7 in s.procs {
        PidIsFreed(s, t, u, 7);
      } else {
        FromStarting(s, t, u, 7);
      }
    } else {
      var a := Read(Some(Messages.Start));
      ConnLeaves(s, u, a, t);
      var s1 := Next(s, OnConn(u, a)).value;
      if 7 in s1.procs {
        PidIsFreed(s1, t, u, 7);
      } else {
        FromStarting(s1, t, u, 7);
      }
      First(s, OnConn(u, a), t);
    }
  }

  lemma {:induction false} FromThread(s: Sys, t: nat, u: nat)
    requires OwnerWaits(s, t) && Idle(s) && u != t && u in s.conns && CanServe(s.conns[u].pc)
    ensures CanBePushed(s, t)
    decreases 0, 23 + Steps(s.conns[u].pc)
  {
    if s.conns[u].pc.Serving? || s.conns[u].pc.Starting? {
      FromServing(s, t, u);
    } else {
      TowardsRead(s, u);
      var a := NextConnAct(s.conns[u].pc);
      ConnLeaves(s, u, a, t);
      FromThread(Next(s, OnConn(u, a)).value, t, u);
      First(s, OnConn(u, a), t);
    }
  }

  lemma FromStopped(s: Sys, t: nat)
    requires OwnerWaits(s, t) && s.st.core.Stopped? && HasStarter(s, t)
    ensures CanBePushed(s, t)
    decreases 1, 0
  {
    var es := Unlocked(s, t);
    var s1 := Exec(s, es).value;
    var u :| u in s.conns && u != t && CanServe(s.conns[u].pc);
    FromThread(s1, t, u);
    var fs :| PushedEarly(s1, fs, t);
    PushedAfter(s, es, fs, t);
  }

  lemma CanCome(s: Sys, t: nat)
    requires Inv(s) && AddressInv(s) && Waits(s, t) && PushCanCome(s, t)
    ensures CanBePushed(s, t)
  {
    if PushAhead(s, t) {
      var g :| 0 <= g < |s.gens| && (s.gens[g].mon == PushExit(Some(t))
                                     || (s.gens[g].mon.FindOwner? && s.st.owner == Some(t)));
      if s.gens[g].mon.PushExit? {
        Pushing(s, g, t);
      } else {
        LookingUp(s, g, t);
      }
    } else if s.st.core.Running? {
      assert GenOk(s, |s.gens| - 1);
      FromCore(s, |s.gens| - 1, t);
    } else {
      FromStopped(s, t);
    }
  }

  // ----- and from any other state never

  /** `t` is past its greeting, or no push can come before it. */
  predicate NoPush(s: Sys, t: nat) {
    t in s.conns && !s.conns[t].pc.Leasing? && (Awaiting(s.conns[t].pc) ==> !PushCanCome(s, t))
  }

  lemma MonReports(s: Sys, g: nat, a: MonAct, t: nat)
    requires g < |s.gens| && MonNext(s, g, a).Some? && !a.HandleExit? && !PushAhead(s, t)
    ensures !PushAhead(MonNext(s, g, a).value, t)
  {
    MonKeepsThreads(s, g, a);
    MonOnlyMoves(s, g, a);
  }

  /** A thread that cannot serve starts no core, and comes to serve only by a hello. */
  lemma OthersStartNothing(s: Sys, u: nat, a: ConnAct)
    requires Inv(s) && u in s.conns && ConnNext(s, u, a).Some? && !CanServe(s.conns[u].pc) && !a.Acquire?
    ensures var s' := ConnNext(s, u, a).value;
            && u in s'.conns && !CanServe(s'.conns[u].pc)
            && (s'.st.core == s.st.core || (s'.st.core.Running? && s'.st.core.stopRequested))
  {
    assert LeaseOk(s, u);
    if OfStop(a) {
      StopStartsNothing(s, u, a);
    } else {
      OthersCannotServe(s, u, a);
      OtherActsKeepCore(s, u, a);
    }
  }

  lemma StopStartsNothing(s: Sys, u: nat, a: ConnAct)
    requires u in s.conns && LeaseOk(s, u) && ConnNext(s, u, a).Some? && !CanServe(s.conns[u].pc) && OfStop(a)
    ensures var s' := ConnNext(s, u, a).value;
            && u in s'.conns && !CanServe(s'.conns[u].pc)
            && (s'.st.core == s.st.core || (s'.st.core.Running? && s'.st.core.stopRequested))
  {
  }

  lemma OthersCannotServe(s: Sys, u: nat, a: ConnAct)
    requires u in s.conns && LeaseOk(s, u) && ConnNext(s, u, a).Some? && !CanServe(s.conns[u].pc)
    requires !a.Acquire? && !OfStop(a)
    ensures u in ConnNext(s, u, a).value.conns && !CanServe(ConnNext(s, u, a).value.conns[u].pc)
    ensures !a.Start? && !a.SpawnMonitor?
  {
  }

  lemma NoNewStarter(s: Sys, s': Sys, u: nat, t: nat)
    requires !HasStarter(s, t) && s'.conns.Keys == s.conns.Keys && u in s.conns && !CanServe(s'.conns[u].pc)
    requires forall v :: v in s.conns && v != u ==> s'.conns[v].pc == s.conns[v].pc
    ensures !HasStarter(s', t)
  {
  }

  lemma NoPushAheadNow(s: Sys, s': Sys, t: nat)
    requires !PushAhead(s, t) && ReportsSame(s, s') && (s'.st.owner == Some(t) ==> s.st.owner == Some(t))
    ensures !PushAhead(s', t)
  {
  }

  lemma NoPushOther(s: Sys, u: nat, a: ConnAct, t: nat)
    requires Inv(s) && NoPush(s, t) && u != t && Awaiting(s.conns[t].pc) && Next(s, OnConn(u, a)).Some?
    ensures NoPush(Next(s, OnConn(u, a)).value, t)
  {
    var s' := Next(s, OnConn(u, a)).value;
    ConnReportsSame(s, u, a);
    OwnerByAcquire(s, u, a, t);
    NoPushAheadNow(s, s', t);
    ActsKeepPlaces(s, u, a);
    if s.st.owner == Some(t) {
      assert !CanServe(s.conns[u].pc);
      if a.Acquire? {
        HelloToOwner(s, u, t);
      } else {
        OthersStartNothing(s, u, a);
        NoNewStarter(s, s', u, t);
      }
    }
  }

  lemma HelloToOwner(s: Sys, u: nat, t: nat)
    requires LeaseInv(s) && u in s.conns && t in s.conns && u != t && s.st.owner == Some(t) && !HasStarter(s, t)
    requires ConnNext(s, u, Acquire).Some?
    ensures var s' := ConnNext(s, u, Acquire).value;
            s'.st.owner != Some(t) || (!HasStarter(s', t) && s'.st == s.st)
  {
    if !s.conns[u].pc.takeover {
      ActsKeepPlaces(s, u, Acquire);
      NoNewStarter(s, ConnNext(s, u, Acquire).value, u, t);
    }
  }

  /** The thread's own steps up to its greeting. */
  lemma NoPushOwn(s: Sys, t: nat, a: ConnAct)
    requires Inv(s) && NoPush(s, t) && Awaiting(s.conns[t].pc) && Next(s, OnConn(t, a)).Some?
    ensures NoPush(Next(s, OnConn(t, a)).value, t)
  {
    var s' := Next(s, OnConn(t, a)).value;
    OwnIsHandshake(s, t, a);
    OtherActsKeepCore(s, t, a);
    ActsKeepOwner(s, t, a);
    ActsKeepPlaces(s, t, a);
  }

  lemma OwnIsHandshake(s: Sys, t: nat, a: ConnAct)
    requires t in s.conns && Awaiting(s.conns[t].pc) && ConnNext(s, t, a).Some?
    ensures OfHandshake(a) && t in ConnNext(s, t, a).value.conns && !ConnNext(s, t, a).value.conns[t].pc.Leasing?
  {
  }

  lemma StartersStand(s: Sys, s': Sys, t: nat)
    requires ThreadsStand(s, s') && !HasStarter(s, t)
    ensures !HasStarter(s', t)
  {
  }

  lemma NoPushMon(s: Sys, g: nat, a: MonAct, t: nat)
    requires Inv(s) && NoPush(s, t) && Awaiting(s.conns[t].pc) && Next(s, OnMon(g, a)).Some?
    ensures NoPush(Next(s, OnMon(g, a)).value, t)
  {
    var s' := Next(s, OnMon(g, a)).value;
    MonKeepsThreads(s, g, a);
    if a.HandleExit? {
      assert GenOk(s, g);
      NoPushExit(s, g, t);
    } else {
      MonReports(s, g, a, t);
      MonKeepsCore(s, g, a);
    }
    if !HasStarter(s, t) {
      StartersStand(s, s', t);
    }
  }

  lemma MonKeepsCore(s: Sys, g: nat, a: MonAct)
    requires g < |s.gens| && MonNext(s, g, a).Some? && !a.HandleExit?
    ensures MonNext(s, g, a).value.st.core == s.st.core
  {
  }

  lemma NoPushExit(s: Sys, g: nat, t: nat)
    requires Inv(s) && !PushCanCome(s, t) && g < |s.gens| && MonNext(s, g, HandleExit).Some?
    ensures !PushAhead(MonNext(s, g, HandleExit).value, t) && MonNext(s, g, HandleExit).value.st.core == Stopped
  {
    assert GenOk(s, g);
  }

  lemma NoPushStep(s: Sys, e: Event, t: nat)
    requires Inv(s) && NoPush(s, t) && Next(s, e).Some?
    ensures NoPush(Next(s, e).value, t)
  {
    if !Awaiting(s.conns[t].pc) {
      StaysGreeted(s, e, t);
    } else {
      match e {
        case OnConn(u, a) =>
          if u == t {
            NoPushOwn(s, t, a);
          } else {
            NoPushOther(s, u, a, t);
          }
        case OnMon(g, a) => NoPushMon(s, g, a, t);
        case Arrive(_) => NoPushArrive(s, e, t);
        case _ => StartersSame(s, Next(s, e).value, t);
      }
    }
  }

  lemma StartersSame(s: Sys, s': Sys, t: nat)
    requires NoPush(s, t) && s'.conns == s.conns && s'.gens == s.gens && s'.st == s.st
    ensures NoPush(s', t)
  {
  }

  lemma NoPushArrive(s: Sys, e: Event, t: nat)
    requires Inv(s) && NoPush(s, t) && Next(s, e).Some? && e.Arrive? && Awaiting(s.conns[t].pc)
    ensures NoPush(Next(s, e).value, t)
  {
    IdIsFresh(s);
  }

  lemma StaysGreeted(s: Sys, e: Event, t: nat)
    requires Inv(s) && t in s.conns && !s.conns[t].pc.Leasing? && !Awaiting(s.conns[t].pc) && Next(s, e).Some?
    ensures var s' := Next(s, e).value; t in s'.conns && !s'.conns[t].pc.Leasing? && !Awaiting(s'.conns[t].pc)
  {
    if e.OnConn? && e.t == t {
      if OfHandshake(e.ca) {
        OnlyDeclines(s, t, e.ca);
      } else {
        NeverAwaitsAgain(s, t, e.ca);
      }
    } else {
      PlaceStands(s, e, t);
    }
  }

  lemma OnlyDeclines(s: Sys, t: nat, a: ConnAct)
    requires t in s.conns && !Awaiting(s.conns[t].pc) && ConnNext(s, t, a).Some? && OfHandshake(a)
    ensures t in ConnNext(s, t, a).value.conns && ConnNext(s, t, a).value.conns[t].pc.Gone?
  {
  }

  lemma {:induction false} NoPushRun(s: Sys, es: seq<Event>, t: nat)
    requires Inv(s) && NoPush(s, t)
    ensures !PushedEarly(s, es, t)
    decreases |es|
  {
    if es != [] && Next(s, es[0]).Some? {
      var s1 := Next(s, es[0]).value;
      NoPushStep(s, es[0], t);
      InvStep(s, es[0], s1);
      NoPushRun(s1, es[1..], t);
    }
  }

  /**
   * While a connection waits to be greeted, some continuation pushes a crash to it before its greeting if and only if
   * a push is under way to it, or it is the owner and a core is up that nobody has asked to stop, or it is the owner
   * and another thread can still start a core.
   */
  lemma PushMayOvertake(s: Sys, t: nat)
    requires Reachable(s) && Waits(s, t)
    ensures CanBePushed(s, t) <==> PushCanCome(s, t)
  {
    AddressReachable(s);
    if PushCanCome(s, t) {
      CanCome(s, t);
    } else {
      forall es ensures !PushedEarly(s, es, t) { NoPushRun(s, es, t); }
    }
  }

  // ----- a notice of being displaced

  /** This step writes the notice to thread `t`'s open connection while it waits to greet. */
  predicate TellsEarly(s: Sys, e: Event, t: nat) {
    && e.OnConn? && e.ca == Displace(true) && e.t in s.conns && s.conns[e.t].pc == Displacing(t)
    && t in s.conns && Awaiting(s.conns[t].pc) && !s.conns[t].shut
  }

  ghost predicate ToldEarly(s: Sys, es: seq<Event>, t: nat)
    decreases |es|
  {
    es != [] && Next(s, es[0]).Some? && (TellsEarly(s, es[0], t) || ToldEarly(Next(s, es[0]).value, es[1..], t))
  }

  predicate IsDisplaced(s: Sys, t: nat) {
    exists u :: u in s.conns && s.conns[u].pc == Displacing(t)
  }

  lemma {:induction false} ToldAfter(s: Sys, es: seq<Event>, fs: seq<Event>, t: nat)
    requires Exec(s, es).Some? && ToldEarly(Exec(s, es).value, fs, t)
    ensures ToldEarly(s, es + fs, t)
    decreases |es|
  {
    if es == [] {
      assert es + fs == fs;
    } else {
      assert (es + fs)[1..] == es[1..] + fs;
      ToldAfter(Next(s, es[0]).value, es[1..], fs, t);
    }
  }

  lemma Telling(s: Sys, t: nat, u: nat)
    requires Waits(s, t) && u in s.conns && s.conns[u].pc == Displacing(t)
    ensures ToldEarly(s, [OnConn(u, Displace(true))], t)
  {
    assert Next(s, OnConn(u, Displace(true))).Some?;
  }

  /** A new connection takes over from the owner that waits. */
  lemma TakenOver(s: Sys, t: nat)
    requires OwnerWaits(s, t)
    ensures exists es :: ToldEarly(s, es, t)
  {
    var es := Unlocked(s, t);
    var s1 := Exec(s, es).value;
    IdIsFresh(s1);
    var u := s1.nextId;
    var e1, e2 := Arrive(true), OnConn(u, Acquire);
    var s2 := Next(s1, e1).value;
    var s3 := Next(s2, e2).value;
    assert s3.conns[u].pc == Displacing(t) && Waits(s3, t);
    Telling(s3, t, u);
    var fs := [e1, e2, OnConn(u, Displace(true))];
    assert fs[1..] == [e2, OnConn(u, Displace(true))] && fs[1..][1..] == [OnConn(u, Displace(true))];
    assert ToldEarly(s2, fs[1..], t);
    assert ToldEarly(s1, fs, t);
    ToldAfter(s, es, fs, t);
  }

  predicate NotTold(s: Sys, t: nat) {
    && t in s.conns && !s.conns[t].pc.Leasing?
    && (Awaiting(s.conns[t].pc) ==> s.st.owner != Some(t) && !IsDisplaced(s, t))
  }

  lemma NotToldStep(s: Sys, e: Event, t: nat)
    requires Inv(s) && NotTold(s, t) && Next(s, e).Some?
    ensures NotTold(Next(s, e).value, t)
  {
    var s' := Next(s, e).value;
    if !Awaiting(s.conns[t].pc) {
      StaysGreeted(s, e, t);
    } else {
      EntersOnce(s, e, t);
      OwnerStaysOff(s, e, t);
      if IsDisplaced(s', t) {
        var u :| u in s'.conns && s'.conns[u].pc == Displacing(t);
        DisplacingComes(s, e, u, t);
      }
    }
  }

  lemma EntersOnce(s: Sys, e: Event, t: nat)
    requires Inv(s) && t in s.conns && Awaiting(s.conns[t].pc) && Next(s, e).Some?
    ensures t in Next(s, e).value.conns && !Next(s, e).value.conns[t].pc.Leasing?
  {
    if e.OnConn? && e.t == t {
      OwnIsHandshake(s, t, e.ca);
    } else {
      PlaceStands(s, e, t);
    }
  }

  /** A thread comes to displace another only when it finds it in the slot. */
  lemma DisplacingComes(s: Sys, e: Event, u: nat, t: nat)
    requires Inv(s) && Next(s, e).Some? && u in Next(s, e).value.conns && Next(s, e).value.conns[u].pc == Displacing(t)
    ensures s.st.owner == Some(t) || IsDisplaced(s, t)
  {
    if u !in s.conns {
      NewThread(s, e, u);
    } else if e.OnConn? && e.t == u {
      DisplacingByHello(s, u, e.ca, t);
    } else {
      PlaceStands(s, e, u);
    }
  }

  lemma DisplacingByHello(s: Sys, u: nat, a: ConnAct, t: nat)
    requires u in s.conns && ConnNext(s, u, a).Some?
    requires u in ConnNext(s, u, a).value.conns && ConnNext(s, u, a).value.conns[u].pc == Displacing(t)
    ensures s.st.owner == Some(t)
  {
    if !a.Acquire? && !a.Displace? {
      OnlyTheseDisplace(s, u, a);
    }
  }

  lemma {:induction false} NotToldRun(s: Sys, es: seq<Event>, t: nat)
    requires Inv(s) && NotTold(s, t)
    ensures !ToldEarly(s, es, t)
    decreases |es|
  {
    if es != [] && Next(s, es[0]).Some? {
      var s1 := Next(s, es[0]).value;
      NotToldStep(s, es[0], t);
      InvStep(s, es[0], s1);
      NotToldRun(s1, es[1..], t);
    }
  }

  /**
   * And some continuation tells it that it is displaced before it is greeted if and only if it is still the owner,
   * for then another can take over, or a thread that took over from it has not told it yet.
   */
  lemma NoticeMayOvertake(s: Sys, t: nat)
    requires Reachable(s) && Waits(s, t)
    ensures (exists es :: ToldEarly(s, es, t)) <==> s.st.owner == Some(t) || IsDisplaced(s, t)
  {
    AddressReachable(s);
    if IsDisplaced(s, t) {
      var u :| u in s.conns && s.conns[u].pc == Displacing(t);
      Telling(s, t, u);
      assert exists es :: ToldEarly(s, es, t);
    } else if s.st.owner == Some(t) {
      TakenOver(s, t);
    } else {
      forall es ensures !ToldEarly(s, es, t) { NotToldRun(s, es, t); }
    }
  }
}
