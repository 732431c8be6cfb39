/** Runs that show where a broader claim about the supervisor fails, and so why the theorems carry their conditions. */
module SupervisorWitnesses {
  import opened Text
  import Messages
  import Proto
  import Client
  import opened Supervisor
  import opened SupervisorInvariant
  import opened SupervisorTheorems
  import Escalation
  import Janitor

  /** One more step from a reachable state. */
  lemma Then(s: Sys, e: Event) returns (s': Sys)
    requires Reachable(s) && Next(s, e).Some?
    ensures Reachable(s') && Next(s, e) == Some(s')
  {
    StaysReachable(s, e);
    s' := Next(s, e).value;
  }

  const CFG := Config(1, "core", "0.1.0")

  function Start(): Sys {
    Sys(CFG, 0, State(None, Stopped), None, map[], [], map[], 1, [], Armed, NotExited)
  }

  lemma StartIsReachable()
    ensures Reachable(Start())
  {
    assert Exec(Start(), []) == Some(Start());
  }

  const GREETING := GreetingEvent(CFG, Stopped)

  function At(pc: ConnPc, lines: seq<Messages.Event>): Conn {
    Conn(pc, false, false, lines, [])
  }

  /** A connection says hello, gets the free lease and is greeted. */
  lemma Connected(s: Sys) returns (s': Sys)
    requires Reachable(s) && s.exit == NotExited && s.holder == None && s.st.owner == None && s.cfg == CFG
    requires s.st.core == Stopped
    ensures Reachable(s')
    ensures s' == s.(conns := s.conns[s.nextId := At(Serving, [GREETING])], nextId := s.nextId + 1,
                     st := s.st.(owner := Some(s.nextId)))
  {
    var t := s.nextId;
    var s1 := Then(s, Arrive(false));
    var s2 := Then(s1, OnConn(t, Acquire));
    var s3 := Then(s2, OnConn(t, Snapshot));
    s' := Then(s3, OnConn(t, Greet));
    assert s'.conns[t].lines == [GREETING];
    assert s'.conns == s.conns[t := At(Serving, [GREETING])];
  }

  function NewGen(pid: Messages.I32, port: Messages.U16, t: nat, mon: MonPc): Gen {
    Gen(pid, port, t, mon, Escalation.FRESH, [], [], [], 0, 0, [])
  }

  /** A serving connection starts the core. */
  lemma CoreStarted(s: Sys, t: nat, pid: Messages.I32, port: Messages.U16) returns (s': Sys)
    requires Reachable(s) && s.exit == NotExited && s.holder == None && s.st.core.Stopped? && pid !in s.procs
    requires t in s.conns && s.conns[t].pc.Serving?
    ensures Reachable(s')
    ensures s' == s.(conns := s.conns[t := s.conns[t].(pc := FiringUp(|s.gens|))],
                     st := s.st.(core := Running(pid, port, false)),
                     procs := s.procs[pid := Proc(Core(|s.gens|), true)],
                     gens := s.gens + [NewGen(pid, port, t, Poll)])
  {
    var s1 := Then(s, OnConn(t, Read(Some(Messages.Start))));
    var s2 := Then(s1, OnConn(t, Supervisor.Start(Some((pid, port)))));
    s' := Then(s2, OnConn(t, SpawnMonitor));
    assert s'.gens == s.gens + [NewGen(pid, port, t, Poll)];
    assert s'.conns == s.conns[t := s.conns[t].(pc := FiringUp(|s.gens|))];
  }

  /**
   * The comment on `start` has a core process exist exactly while `st.core` is Running. After the child is reaped
   * and before the monitor takes the lock, `st.core` is Running without one; `SingleCore` has the exact condition.
   */
  lemma RunningWithoutProcess() returns (s: Sys)
    ensures Reachable(s) && s.st.core.Running? && forall p :: !IsCore(s, p)
  {
    StartIsReachable();
    var s1 := Connected(Start());
    var s2 := CoreStarted(s1, 1, 7, 5000);
    var s3 := Then(s2, ProcessExits(7));
    s := Then(s3, OnMon(0, TryWait));
  }

  /** A connection takes the lease over. */
  lemma TookOver(s: Sys) returns (s': Sys)
    requires Reachable(s) && s.exit == NotExited && s.holder == None && s.st.owner.Some?
    ensures Reachable(s') && s'.exit == NotExited && s'.holder == None && s'.st.core == s.st.core
    ensures s'.gens == s.gens && s'.procs == s.procs
    ensures s.nextId in s'.conns && s'.conns[s.nextId].pc == Serving
    ensures forall u :: u in s.conns ==> u != s.nextId && u in s'.conns && s'.conns[u].pc == s.conns[u].pc
  {
    InvReachable(s);
    IdIsFresh(s);
    var t := s.nextId;
    var s1 := TakingOver(s);
    var s2 := Then(s1, OnConn(t, Displace(false)));
    var s3 := Then(s2, OnConn(t, Unblock));
    var s4 := Then(s3, OnConn(t, Snapshot));
    s' := Then(s4, OnConn(t, Greet));
  }

  lemma TakingOver(s: Sys) returns (s': Sys)
    requires Reachable(s) && s.exit == NotExited && s.holder == None && s.st.owner.Some? && s.nextId !in s.conns
    requires s.st.owner.value in s.conns
    ensures Reachable(s') && s'.exit == NotExited
    ensures var u := s.st.owner.value;
            s' == s.(conns := s.conns[s.nextId := At(Displacing(u), [])][u := s.conns[u].(kicked := true)],
                     nextId := s.nextId + 1, st := s.st.(owner := Some(s.nextId)))
  {
    var t := s.nextId;
    var s1 := Then(s, Arrive(true));
    s' := Then(s1, OnConn(t, Acquire));
    var u := s.st.owner.value;
    assert s'.conns == s.conns[t := At(Displacing(u), [])][u := s.conns[u].(kicked := true)];
  }

  const SERVED := [GREETING, Messages.CoreStarted(7, 5000)]

  /** An owner has started the core and been answered. */
  lemma CoreServed() returns (s: Sys)
    ensures Reachable(s)
    ensures s == Start().(conns := map[1 := At(Serving, SERVED)], nextId := 2,
                          st := State(Some(1), Running(7, 5000, false)),
                          procs := map[7 := Proc(Core(0), true)], gens := [NewGen(7, 5000, 1, Poll)])
  {
    StartIsReachable();
    var s1 := Connected(Start());
    var s2 := CoreStarted(s1, 1, 7, 5000);
    var s3 := Then(s2, OnConn(1, FireUp(false)));
    s := Then(s3, OnConn(1, Reply("")));
    assert s.conns[1].lines == SERVED;
    assert s.conns == map[1 := At(Serving, SERVED)];
  }

  /** Its owner then asks it to stop. */
  lemma CoreBeingStopped() returns (s: Sys)
    ensures Reachable(s) && s.exit == NotExited && s.holder == None && s.st == State(Some(1), Running(7, 5000, true))
    ensures s.procs == map[7 := Proc(Core(0), true)]
    ensures |s.gens| == 1 && s.gens[0].pid == 7 && s.gens[0].mon == Poll
    ensures |s.gens[0].marks| == 1 && s.gens[0].marks[0].downs == 0
    ensures 1 in s.conns && s.conns[1].pc == Waiting(Requested, 0, 0)
  {
    var s1 := CoreServed();
    var s2 := Then(s1, OnConn(1, Read(Some(Messages.Stop))));
    s := Then(s2, OnConn(1, Stop));
  }

  /** `start` during a stop returns the pid and port of the core that is being stopped. */
  lemma StartReturnsDyingCore() returns (s: Sys, t: nat)
    ensures Reachable(s) && t in s.conns && s.st.core.Running? && s.st.core.stopRequested
    ensures s.conns[t].pc == Replying(Started(s.st.core.pid, s.st.core.port))
  {
    var s1 := CoreBeingStopped();
    t := s1.nextId;
    var s2 := TookOver(s1);
    var s3 := Then(s2, OnConn(t, Read(Some(Messages.Start))));
    s := Then(s3, OnConn(t, Supervisor.Start(None)));
  }

  lemma SecondStop() returns (s: Sys, t: nat)
    ensures Reachable(s) && s.exit == NotExited && s.holder == None && s.st.core == Running(7, 5000, true)
    ensures s.procs == map[7 := Proc(Core(0), true)] && |s.gens| == 1 && |s.gens[0].marks| == 2
    ensures s.gens[0].pid == 7 && s.gens[0].mon == Poll
    ensures s.gens[0].marks[0].downs == 0 && s.gens[0].marks[1].downs == 0
    ensures 1 in s.conns && s.conns[1].pc == Waiting(Requested, 0, 0)
    ensures t != 1 && t in s.conns && s.conns[t].pc == Waiting(Requested, 0, 1)
  {
    var s1 := CoreBeingStopped();
    t := s1.nextId;
    var s2 := TookOver(s1);
    var s3 := Then(s2, OnConn(t, Read(Some(Messages.Stop))));
    s := Then(s3, OnConn(t, Stop));
  }

  /** The monitor reaps the generation that both stop calls wait for. */
  lemma BothReaped() returns (s: Sys, t: nat)
    ensures Reachable(s) && s.exit == NotExited && s.holder == None && s.st.core == Stopped
    ensures |s.gens| == 1 && |s.gens[0].marks| == 2
    ensures s.gens[0].marks[0].downs == 0 && s.gens[0].marks[1].downs == 0
    ensures 1 in s.conns && s.conns[1].pc == Waiting(Requested, 0, 0)
    ensures t != 1 && t in s.conns && s.conns[t].pc == Waiting(Requested, 0, 1)
  {
    var s1;
    s1, t := SecondStop();
    var s2 := Then(s1, ProcessExits(7));
    var s3 := Then(s2, OnMon(0, TryWait));
    s := Then(s3, OnMon(0, HandleExit));
  }

  /** Two `stop` calls mark one generation across a takeover, and each fires its own `down` hook. */
  lemma TwoStopsOneCore() returns (s: Sys)
    ensures Reachable(s) && |s.gens| == 1
    ensures |s.gens[0].marks| == 2 && s.gens[0].marks[0].downs == 1 && s.gens[0].marks[1].downs == 1
  {
    var s1, t := BothObserved();
    var s2 := Then(s1, OnConn(1, FireDown(true)));
    s := Then(s2, OnConn(t, FireDown(true)));
  }

  lemma BothObserved() returns (s: Sys, t: nat)
    ensures Reachable(s) && s.exit == NotExited && |s.gens| == 1 && |s.gens[0].marks| == 2
    ensures s.gens[0].marks[0].downs == 0 && s.gens[0].marks[1].downs == 0
    ensures 1 in s.conns && s.conns[1].pc == FiringDown(Requested, 0, 0)
    ensures t != 1 && t in s.conns && s.conns[t].pc == FiringDown(Requested, 0, 1)
  {
    var s1;
    s1, t := BothReaped();
    var s2 := Then(s1, OnConn(1, Observe));
    s := Then(s2, OnConn(t, Observe));
  }

  /**
   * An owner whose peer hung up loads its flag outside the lock. Replaced after that, it still stops the new
   * owner's core; `DisplacedNeverTearsDown` is about those replaced before.
   */
  lemma ReplacedTooLate() returns (s: Sys)
    ensures Reachable(s) && s.st.owner == Some(2) && s.st.core.Running? && s.st.core.stopRequested
    ensures 1 in s.conns && s.conns[1].kicked && s.conns[1].pc == Waiting(OwnerDrop, 0, 0)
  {
    var s1 := OwnerReleasing();
    var s2 := TakingOver(s1);
    var s3 := Then(s2, OnConn(1, Release));
    s := Then(s3, OnConn(1, Stop));
  }

  lemma OwnerReleasing() returns (s: Sys)
    ensures Reachable(s)
    ensures s == Start().(conns := map[1 := At(Releasing, SERVED)], nextId := 2,
                          st := State(Some(1), Running(7, 5000, false)),
                          procs := map[7 := Proc(Core(0), true)], gens := [NewGen(7, 5000, 1, Poll)])
  {
    var s1 := CoreServed();
    var s2 := Then(s1, OnConn(1, Disconnect));
    s := Then(s2, OnConn(1, LoadKicked));
    assert s.conns == map[1 := At(Releasing, SERVED)];
  }

  /** The core crashes under its owner, and its monitor has yet to look the owner up. */
  lemma CoreCrashed() returns (s: Sys)
    ensures Reachable(s) && s.exit == NotExited && s.holder == None && s.nextId == 2
    ensures s.st == State(Some(1), Stopped) && s.conns == map[1 := At(Serving, SERVED)] && s.cfg == CFG && s.hooks == []
    ensures s.gens == [NewGen(7, 5000, 1, FindOwner)]
  {
    var s1 := CoreServed();
    var s2 := Then(s1, ProcessExits(7));
    var s3 := Then(s2, OnMon(0, TryWait));
    s := Then(s3, OnMon(0, HandleExit));
  }

  const CRASH := Messages.CoreExited(Some(1), None)

  /** A crash is pushed to a new owner before its greeting, and the client takes it for a failed handshake. */
  lemma PushBeforeGreeting() returns (s: Sys)
    ensures Reachable(s) && 2 in s.conns && s.conns[2].pc == Serving
    ensures s.conns[2].lines == [CRASH, GREETING]
    ensures Client.Handshake(Some(Proto.EncodeEvent(CRASH))) == Client.Failed
  {
    s := CrashThenGreeting();
    Client.HandshakeOf(CRASH);
  }

  lemma CrashThenGreeting() returns (s: Sys)
    ensures Reachable(s) && 2 in s.conns && s.conns[2].pc == Serving
    ensures s.conns[2].lines == [CRASH, GREETING]
  {
    var s1 := CrashPushed();
    var s2 := Unblocked(s1);
    s := GreetedNow(s2);
  }

  /** The second connection disconnects the first, without a word. */
  lemma Unblocked(s: Sys) returns (s': Sys)
    requires Reachable(s) && s.exit == NotExited && s.holder == None && s.st.core == Stopped && s.cfg == CFG
    requires 2 in s.conns && s.conns[2].pc == Displacing(1) && !s.conns[2].shut
    ensures Reachable(s') && s'.exit == NotExited && s'.holder == None && s'.st.core == Stopped && s'.cfg == CFG
    ensures 2 in s'.conns && s'.conns[2] == s.conns[2].(pc := Greeting)
  {
    var s1 := Then(s, OnConn(2, Displace(false)));
    s' := Then(s1, OnConn(2, Unblock));
  }

  lemma GreetedNow(s: Sys) returns (s': Sys)
    requires Reachable(s) && s.exit == NotExited && s.holder == None && s.st.core == Stopped && s.cfg == CFG
    requires 2 in s.conns && s.conns[2].pc == Greeting && !s.conns[2].shut
    ensures Reachable(s') && 2 in s'.conns && s'.conns[2].pc == Serving
    ensures s'.conns[2].lines == s.conns[2].lines + [GREETING]
  {
    var s1 := Then(s, OnConn(2, Snapshot));
    s' := Then(s1, OnConn(2, Greet));
  }

  lemma CrashPushed() returns (s: Sys)
    ensures Reachable(s) && s.exit == NotExited && s.holder == None && s.st.core == Stopped && s.cfg == CFG
    ensures 2 in s.conns && s.conns[2] == At(Displacing(1), [CRASH])
  {
    var s1 := CoreCrashed();
    var s2 := TakingOver(s1);
    var s3 := Then(s2, OnMon(0, LookUpOwner));
    s := Then(s3, OnMon(0, Push(CRASH.exitCode, CRASH.signal)));
  }

  /** A new owner is displaced in its turn, and told so, before its greeting. */
  lemma KickBeforeGreeting() returns (s: Sys)
    ensures Reachable(s) && 2 in s.conns && s.conns[2].pc == Serving && s.conns[2].lines == [Messages.Kicked, GREETING]
    ensures Client.Handshake(Some(Proto.EncodeEvent(Messages.Kicked))) == Client.Failed
  {
    s := NoticeThenGreeting();
    Client.HandshakeOf(Messages.Kicked);
  }

  lemma NoticeThenGreeting() returns (s: Sys)
    ensures Reachable(s) && 2 in s.conns && s.conns[2].pc == Serving && s.conns[2].lines == [Messages.Kicked, GREETING]
  {
    StartIsReachable();
    var s1 := Connected(Start());
    var s2 := TakingOver(s1);
    var s3 := TakingOver(s2);
    s := KickedAndGreeted(s3);
  }

  lemma KickedAndGreeted(s: Sys) returns (s': Sys)
    requires Reachable(s) && s.exit == NotExited && s.holder == None && s.st.core == Stopped && s.cfg == CFG
    requires 2 in s.conns && s.conns[2].pc == Displacing(1) && s.conns[2].lines == [] && !s.conns[2].shut
    requires 3 in s.conns && s.conns[3].pc == Displacing(2)
    ensures Reachable(s') && 2 in s'.conns && s'.conns[2].pc == Serving && s'.conns[2].lines == [Messages.Kicked, GREETING]
  {
    var s1 := Then(s, OnConn(3, Displace(true)));
    var s2 := Unblocked(s1);
    s' := GreetedNow(s2);
  }

  // ----- hooks that an exit cuts short

  /** An owner leaves with no core up, and the process exits at once. */
  lemma OwnerExits(s: Sys) returns (s': Sys)
    requires Reachable(s) && s.exit == NotExited && s.holder == None && s.st.core == Stopped
    requires 1 in s.conns && s.conns[1].pc == Serving && !s.conns[1].kicked && s.conns[1].swept == []
    ensures Reachable(s') && s'.exit == ByOwner(1) && s'.hooks == s.hooks && CleanlyExited(s', 1, 0)
  {
    var s1 := OwnerListing(s);
    var s2 := Then(s1, OnConn(1, List(None)));
    var s3 := Then(s2, OnConn(1, EndKilling(false)));
    s' := ExitsClean(s3);
  }

  lemma OwnerHungUp(s: Sys) returns (s': Sys)
    requires Reachable(s) && s.exit == NotExited && s.holder == None && s.st.core == Stopped
    requires 1 in s.conns && s.conns[1].pc == Serving && !s.conns[1].kicked
    ensures Reachable(s') && s'.exit == NotExited && s'.hooks == s.hooks && s'.st.core == Stopped && s'.holder == None
    ensures 1 in s'.conns && s'.conns[1].pc == Releasing && s'.conns[1].swept == s.conns[1].swept
  {
    var s1 := Then(s, OnConn(1, Disconnect));
    s' := Then(s1, OnConn(1, LoadKicked));
  }

  lemma OwnerListing(s: Sys) returns (s': Sys)
    requires Reachable(s) && s.exit == NotExited && s.holder == None && s.st.core == Stopped
    requires 1 in s.conns && s.conns[1].pc == Serving && !s.conns[1].kicked
    ensures Reachable(s') && s'.exit == NotExited && s'.hooks == s.hooks && s'.st.core == Stopped
    ensures 1 in s'.conns && s'.conns[1].pc == Listing(None) && s'.conns[1].swept == s.conns[1].swept
  {
    var s1 := OwnerHungUp(s);
    var s2 := Then(s1, OnConn(1, Release));
    s' := Then(s2, OnConn(1, Stop));
  }

  lemma ExitsClean(s: Sys) returns (s': Sys)
    requires Reachable(s) && s.exit == NotExited && s.st.core == Stopped
    requires 1 in s.conns && s.conns[1].pc == Joining(None) && s.conns[1].swept == []
    ensures Reachable(s') && s'.exit == ByOwner(1) && s'.hooks == s.hooks && CleanlyExited(s', 1, 0)
  {
    InvReachable(s);
    s' := Then(s, OnConn(1, JoinAndExit));
    EndingEnds(s, 1, 0);
  }

  /** The `down` hook of a `stop` command is still running when its owner leaves and the process exits. */
  lemma ExitCutsRequestedDown() returns (s: Sys)
    ensures Reachable(s) && CleanlyExited(s, 1, 0) && s.exit == ByOwner(1)
    ensures s.hooks == [HookRun(false, Some(Requested), Some(1), Some(0), false)]
  {
    var s1 := DownFired();
    var s2 := Then(s1, OnConn(1, Reply("")));
    s := OwnerExits(s2);
  }

  lemma DownFired() returns (s: Sys)
    ensures Reachable(s) && s.exit == NotExited && s.holder == None && s.st.core == Stopped
    ensures s.hooks == [HookRun(false, Some(Requested), Some(1), Some(0), false)]
    ensures 1 in s.conns && s.conns[1] == At(Replying(StopDone(true)), SERVED)
  {
    var s1 := StoppedByOwner();
    var s2 := Then(s1, OnConn(1, Observe));
    s := Then(s2, OnConn(1, FireDown(true)));
  }

  lemma StoppedByOwner() returns (s: Sys)
    ensures Reachable(s) && s.exit == NotExited && s.holder == None && s.st.core == Stopped && s.hooks == []
    ensures |s.gens| == 1 && |s.gens[0].marks| == 1
    ensures s.conns == map[1 := At(Waiting(Requested, 0, 0), SERVED)]
  {
    var s1 := StopAsked();
    var s2 := Then(s1, ProcessExits(7));
    var s3 := Then(s2, OnMon(0, TryWait));
    s := Then(s3, OnMon(0, HandleExit));
  }

  lemma StopAsked() returns (s: Sys)
    ensures Reachable(s) && s.exit == NotExited && s.holder == None && s.st.core == Running(7, 5000, true)
    ensures s.hooks == [] && s.procs == map[7 := Proc(Core(0), true)]
    ensures |s.gens| == 1 && |s.gens[0].marks| == 1 && s.gens[0].mon == Poll && s.gens[0].pid == 7
    ensures s.conns == map[1 := At(Waiting(Requested, 0, 0), SERVED)]
  {
    var s1 := CoreServed();
    var s2 := Then(s1, OnConn(1, Read(Some(Messages.Stop))));
    s := Then(s2, OnConn(1, Stop));
    assert s.conns == map[1 := At(Waiting(Requested, 0, 0), SERVED)];
  }

  /** An owner leaves with its core up: the core is stopped, the `down` hook runs, ends, and then the process exits. */
  lemma ExitAwaitsItsDown() returns (s: Sys)
    ensures Reachable(s) && CleanlyExited(s, 1, 0) && s.exit == ByOwner(1)
    ensures s.hooks == [HookRun(false, Some(OwnerDrop), Some(1), Some(0), true)]
  {
    var s1 := SweptAfterDown();
    assert Next(s1, OnConn(1, JoinAndExit)).None?;
    var s2 := Then(s1, HookEnds(0));
    s := ExitsAwaited(s2);
  }

  lemma SweptAfterDown() returns (s: Sys)
    ensures Reachable(s) && s.exit == NotExited && s.st.core == Stopped
    ensures s.hooks == [HookRun(false, Some(OwnerDrop), Some(1), Some(0), false)]
    ensures 1 in s.conns && s.conns[1] == At(Joining(Some(0)), SERVED)
  {
    var s1 := DownOfDeparture();
    var s2 := Then(s1, OnConn(1, List(None)));
    s := Then(s2, OnConn(1, EndKilling(false)));
  }

  lemma ExitsAwaited(s: Sys) returns (s': Sys)
    requires Reachable(s) && s.exit == NotExited && s.st.core == Stopped
    requires 1 in s.conns && s.conns[1].pc == Joining(Some(0)) && s.conns[1].swept == []
    requires s.hooks == [HookRun(false, Some(OwnerDrop), Some(1), Some(0), true)]
    ensures Reachable(s') && s'.exit == ByOwner(1) && s'.hooks == s.hooks && CleanlyExited(s', 1, 0)
  {
    InvReachable(s);
    s' := Then(s, OnConn(1, JoinAndExit));
    EndingEnds(s, 1, 0);
  }

  lemma CoreOfDeparture() returns (s: Sys)
    ensures Reachable(s) && s.exit == NotExited && s.holder == None && s.st == State(None, Stopped) && s.hooks == []
    ensures |s.gens| == 1 && |s.gens[0].marks| == 1
    ensures s.conns == map[1 := At(Waiting(OwnerDrop, 0, 0), SERVED)]
  {
    var s1 := OwnerReleasing();
    var s2 := Then(s1, OnConn(1, Release));
    var s3 := Then(s2, OnConn(1, Stop));
    s := CoreReaped(s3);
    assert s.conns == map[1 := At(Waiting(OwnerDrop, 0, 0), SERVED)];
  }

  /** The first core exits, is reaped, and its expected exit is handled. */
  lemma CoreReaped(s: Sys) returns (s': Sys)
    requires Reachable(s) && s.exit == NotExited && s.holder == None && s.st.core == Running(7, 5000, true)
    requires s.procs == map[7 := Proc(Core(0), true)] && |s.gens| == 1 && s.gens[0].pid == 7 && s.gens[0].mon == Poll
    ensures Reachable(s') && s'.exit == NotExited && s'.holder == None && s'.hooks == s.hooks && s'.conns == s.conns
    ensures s'.st == State(s.st.owner, Stopped) && |s'.gens| == 1 && s'.gens[0].marks == s.gens[0].marks
  {
    var s1 := Then(s, ProcessExits(7));
    var s2 := Then(s1, OnMon(0, TryWait));
    s' := Then(s2, OnMon(0, HandleExit));
  }

  lemma DownOfDeparture() returns (s: Sys)
    ensures Reachable(s) && s.exit == NotExited && s.st.core == Stopped
    ensures s.hooks == [HookRun(false, Some(OwnerDrop), Some(1), Some(0), false)]
    ensures s.conns == map[1 := At(Listing(Some(0)), SERVED)]
  {
    var s1 := CoreOfDeparture();
    var s2 := Then(s1, OnConn(1, Observe));
    s := Then(s2, OnConn(1, FireDown(true)));
    assert s.conns == map[1 := At(Listing(Some(0)), SERVED)];
  }

  /** So is the `down` hook of a crash. */
  lemma ExitCutsCrashDown() returns (s: Sys)
    ensures Reachable(s) && CleanlyExited(s, 1, 0) && s.exit == ByOwner(1)
    ensures s.hooks == [HookRun(false, Some(CoreExited), None, Some(0), false)]
  {
    var s1 := CoreCrashed();
    var s2 := Then(s1, OnMon(0, LookUpOwner));
    var s3 := Then(s2, OnMon(0, Push(None, None)));
    var s4 := Then(s3, OnMon(0, FireHook(true)));
    s := OwnerExits(s4);
  }

  /** And the `down` hook of the very sweep that precedes the exit. */
  lemma ExitCutsSweepDown() returns (s: Sys)
    ensures Reachable(s) && s.exit == ByOwner(1) && s.hooks == [HookRun(false, Some(JanitorKill), Some(1), None, false)]
  {
    var s1 := TeardownSweepKillsFreshCore();
    var s2 := Then(s1, OnConn(1, EndKilling(true)));
    s := Then(s2, OnConn(1, JoinAndExit));
  }

  /** The owner leaves with no core running. */
  lemma OwnerGone() returns (s: Sys)
    ensures Reachable(s) && s == Start().(conns := map[1 := At(Listing(None), [GREETING])], nextId := 2)
  {
    var s1 := OwnerGoing();
    var s2 := Then(s1, OnConn(1, Release));
    s := Then(s2, OnConn(1, Stop));
    assert s.conns == map[1 := At(Listing(None), [GREETING])];
  }

  lemma OwnerGoing() returns (s: Sys)
    ensures Reachable(s)
    ensures s == Start().(conns := map[1 := At(Releasing, [GREETING])], nextId := 2, st := State(Some(1), Stopped))
  {
    StartIsReachable();
    var s1 := Connected(Start());
    var s2 := Then(s1, OnConn(1, Disconnect));
    s := Then(s2, OnConn(1, LoadKicked));
    assert s.conns == map[1 := At(Releasing, [GREETING])];
  }

  /** Before its thread sweeps, a new connection starts a core. */
  lemma OvertakenTeardown() returns (s: Sys)
    ensures Reachable(s) && s.exit == NotExited && s.cfg == CFG
    ensures 1 in s.conns && s.conns[1] == At(Listing(None), [GREETING]) && s.hooks == []
    ensures s.procs == map[7 := Proc(Core(0), true)]
  {
    var s1 := OwnerGone();
    var s2 := Connected(s1);
    s := CoreStarted(s2, 2, 7, 5000);
  }

  lemma ListingOfCore(s: Sys) returns (listing: Option<string>)
    requires s.cfg == CFG
    ensures SweepTargets(s, listing) == [7]
  {
    var row := Janitor.Row("", 7, "core");
    var rows := [row];
    listing := Some(Janitor.Listing(rows));
    Janitor.SweepOfListing(rows, 1, None, "core");
    assert Janitor.OrphansIn(rows[1..], 1, None, "core") == [];
    assert Janitor.OrphanIn(row, 1, None, "core") == [7];
  }

  lemma FreshCoreListed() returns (s: Sys)
    ensures Reachable(s) && s.exit == NotExited && s.procs == map[7 := Proc(Core(0), true)]
    ensures 1 in s.conns && s.conns[1] == At(Killing(None, [7], 0), [GREETING]) && s.hooks == []
  {
    var s1 := OvertakenTeardown();
    var listing := ListingOfCore(s1);
    s := Then(s1, OnConn(1, List(listing)));
  }

  /** Then the sweep before the exit kills the fresh core, which the comment on that sweep rules out. */
  lemma TeardownSweepKillsFreshCore() returns (s: Sys)
    ensures Reachable(s) && s.exit == NotExited && s.hooks == []
    ensures 1 in s.conns && s.conns[1].swept == [Core(0)] && s.conns[1].pc == Killing(None, [], 1)
  {
    var s1 := FreshCoreListed();
    s := Then(s1, OnConn(1, KillNext(true)));
  }

  lemma NothingListed() returns (s: Sys)
    ensures Reachable(s) && s.exit == NotExited && s.procs == map[7 := Proc(Core(0), true)]
    ensures 1 in s.conns && s.conns[1] == At(Killing(None, [], 0), [GREETING])
  {
    var s1 := OvertakenTeardown();
    s := Then(s1, OnConn(1, List(None)));
  }

  /** Or the process exits and leaves the fresh core behind, un-reaped: `CleanExit` needs its condition. */
  lemma ExitLeavesCore() returns (s: Sys)
    ensures Reachable(s) && s.exit == ByOwner(1) && IsCore(s, 7)
  {
    var s1 := NothingListed();
    var s2 := Then(s1, OnConn(1, EndKilling(false)));
    s := Then(s2, OnConn(1, JoinAndExit));
  }

  /** The timer looks for an owner and exits in two steps; an owner that arrives between them loses its core. */
  lemma TimerLeavesCore() returns (s: Sys)
    ensures Reachable(s) && s.exit == ByTimer && s.st.owner.Some? && IsCore(s, 7)
  {
    StartIsReachable();
    var s1 := Then(Start(), Tick(NO_OWNER_TIMEOUT));
    var s2 := Then(s1, TimerChecks);
    var s3 := Connected(s2);
    var s4 := CoreStarted(s3, 1, 7, 5000);
    s := Then(s4, TimerExits);
  }
}
