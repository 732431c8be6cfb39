/** What the invariant means: safety of the supervisor over all its runs. */
module SupervisorTheorems {
  import opened Text
  import opened Supervisor
  import opened SupervisorInvariant
  import Escalation
  import Messages
  import Janitor

  // ----- one core

  /** The process with this pid is a core of ours that has not been reaped. */
  predicate IsCore(s: Sys, p: int) {
    p in s.procs && s.procs[p].kind.Core?
  }

  /** A core exists exactly while `st.core` is Running and the last generation's monitor has not reaped it. */
  predicate CoreUp(s: Sys) {
    s.st.core.Running? && s.gens != [] && !s.gens[|s.gens| - 1].mon.Reaped?
  }

  lemma CoreIs(s: Sys, p: int)
    requires Inv(s)
    ensures IsCore(s, p) <==> CoreUp(s) && p == s.st.core.pid
  {
    if IsCore(s, p) {
      assert ProcOk(s, p);
      assert GenOk(s, s.procs[p].kind.gen);
    }
    if CoreUp(s) {
      assert GenOk(s, |s.gens| - 1);
    }
  }

  /**
   * At most one core is un-reaped. Stopped, seen under the lock, means that there is none; Running means that there
   * is one, except between its reaping and the monitor's next section.
   */
  lemma SingleCore(s: Sys)
    requires Reachable(s)
    ensures forall p, q :: IsCore(s, p) && IsCore(s, q) ==> p == q
    ensures (exists p :: IsCore(s, p)) <==> CoreUp(s)
    ensures s.st.core.Stopped? ==> forall p :: !IsCore(s, p)
  {
    InvReachable(s);
    forall p ensures IsCore(s, p) <==> CoreUp(s) && p == s.st.core.pid { CoreIs(s, p); }
    if CoreUp(s) {
      assert IsCore(s, s.st.core.pid);
    }
  }

  /**
   * A monitor that has not handled its child's exit belongs to the generation in `st.core`: the comparison of pids
   * never confuses two generations, the flag it reads is its own, and its exit is never taken for another's.
   */
  lemma PidIsGeneration(s: Sys, g: nat)
    requires Reachable(s) && g < |s.gens| && Live(s.gens[g].mon)
    ensures g == |s.gens| - 1
    ensures s.st.core.Running? && s.st.core.pid == s.gens[g].pid && s.st.core.port == s.gens[g].port
    ensures StopSeen(s.st, s.gens[g].pid) <==> s.gens[g].marks != []
    ensures ExitSection(s.st, s.gens[g].pid) == (s.st.(core := Stopped), s.gens[g].marks != [])
  {
    InvReachable(s);
    assert GenOk(s, g);
  }

  /** `try_wait` always finds the monitor's own child, so its error arm is never taken. */
  lemma TryWaitFindsChild(s: Sys, g: nat)
    requires Reachable(s) && g < |s.gens| && Unreaped(s.gens[g].mon)
    ensures KindAt(s, s.gens[g].pid) == Some(Core(g))
  {
    InvReachable(s);
    assert GenOk(s, g);
  }

  /**
   * Every signal a monitor ever sent went to a pid then held by its own un-reaped child; the signals are a prefix
   * of SIGTERM, SIGKILL, the second at least the grace period after the first, and none precedes the first stop.
   */
  lemma SignalsAreSafe(s: Sys, g: nat)
    requires Reachable(s) && g < |s.gens|
    ensures var G := s.gens[g];
            && |G.struck| == |G.sent| <= 2
            && (forall i :: 0 <= i < |G.struck| ==> G.struck[i] == Some(Core(g)))
            && (|G.sent| >= 1 ==> G.sent[0].sig.Term? && G.marks != [] && G.marks[0].at <= G.sent[0].at)
            && (|G.sent| == 2 ==> G.sent[1].sig.Kill? && G.sent[1].at >= G.sent[0].at + 5000)
  {
    InvReachable(s);
    assert GenOk(s, g);
  }

  /** The thread is about to answer its start with a core that a `stop` has marked. */
  predicate NamesDyingCore(s: Sys, t: nat) {
    && t in s.conns && s.conns[t].pc.Replying? && s.conns[t].pc.reply.Started? && s.gens != []
    && var G := s.gens[|s.gens| - 1];
       G.marks != [] && s.conns[t].pc.reply == Started(G.pid, G.port)
  }

  /** A start names a dying core if and only if the core that its section meets is marked. */
  lemma StartMeetsDyingCore(s: Sys, t: nat, spawned: Option<(Messages.I32, Messages.U16)>)
    requires Reachable(s) && Next(s, OnConn(t, Start(spawned))).Some?
    ensures NamesDyingCore(Next(s, OnConn(t, Start(spawned))).value, t) <==>
              s.st.core.Running? && s.st.core.stopRequested
  {
    InvReachable(s);
    if s.st.core.Running? {
      assert GenOk(s, |s.gens| - 1);
    }
  }

  // ----- the fate of a generation

  /** The `stop` call behind mark `k` is still on its way to its `down` hook. */
  predicate Pending(s: Sys, g: nat, k: nat)
    requires g < |s.gens| && k < |s.gens[g].marks|
  {
    Answers(s, s.gens[g].marks[k].stopper, g, k)
  }

  /**
   * A generation whose exit was handled was either stopped or crashed. Stopped: at least one mark, no push, no exit
   * hook. Crashed: no mark, and once its monitor is through exactly one push and one exit hook. Every `stop` call
   * that marked it fires at most one `down` hook, has fired it when it is no longer pending, and only after the
   * generation was reaped.
   */
  lemma ExclusiveFate(s: Sys, g: nat)
    requires Reachable(s) && g < |s.gens|
    ensures var G := s.gens[g];
            && (Live(G.mon) ==> G.pushes == 0 && G.exitHooks == 0)
            && (G.marks != [] ==> G.pushes == 0 && G.exitHooks == 0)
            && (G.marks == [] && G.mon.Finished? ==> G.pushes == 1 && G.exitHooks == 1)
            && (forall k :: 0 <= k < |G.marks| ==>
                  && G.marks[k].downs <= 1
                  && (!Pending(s, g, k) ==> G.marks[k].downs == 1)
                  && (G.marks[k].downs == 1 ==> !Live(G.mon)))
  {
    InvReachable(s);
    assert GenOk(s, g);
    assert OwedOk(s, g);
  }

  function SumOfDowns(marks: seq<Mark>): nat {
    if marks == [] then 0 else marks[0].downs + SumOfDowns(marks[1..])
  }

  /** All `down` hooks fired for the death of one generation. */
  function DownsFired(G: Gen): nat {
    G.exitHooks + SumOfDowns(G.marks)
  }

  lemma {:induction false} SumOfServed(marks: seq<Mark>)
    requires forall k :: 0 <= k < |marks| ==> marks[k].downs == 1
    ensures SumOfDowns(marks) == |marks|
  {
    if marks != [] {
      SumOfServed(marks[1..]);
    }
  }

  /**
   * How many `down` hooks a death fires: once its monitor is through and no `stop` on it is pending, one for each
   * `stop` that marked it, or one if none did; so it is exactly one if and only if at most one `stop` marked it.
   */
  lemma DownsOfOneDeath(s: Sys, g: nat)
    requires Reachable(s) && g < |s.gens| && s.gens[g].mon.Finished?
    requires forall k :: 0 <= k < |s.gens[g].marks| ==> !Pending(s, g, k)
    ensures var G := s.gens[g];
            && DownsFired(G) == (if G.marks == [] then 1 else |G.marks|)
            && (DownsFired(G) == 1 <==> |G.marks| <= 1)
  {
    ExclusiveFate(s, g);
    SumOfServed(s.gens[g].marks);
  }

  function NewHook(reason: Reason, thread: Option<nat>, gen: Option<nat>, script: bool): seq<HookRun> {
    if script then [HookRun(false, Some(reason), thread, gen, false)] else []
  }

  /** The `down` hooks in the history of a generation are hooks that ran: each step that counts one runs it. */
  lemma CountedHooksRan(s: Sys, e: Event, g: nat)
    requires Reachable(s) && Next(s, e).Some? && g < |s.gens| && g < |Next(s, e).value.gens|
    ensures var s' := Next(s, e).value;
            && (s'.gens[g].exitHooks != s.gens[g].exitHooks ==>
                  && e.OnMon? && e.g == g && e.ma.FireHook?
                  && s'.hooks == s.hooks + NewHook(CoreExited, None, Some(g), e.ma.script))
            && (forall k :: 0 <= k < |s.gens[g].marks| && k < |s'.gens[g].marks|
                            && s'.gens[g].marks[k].downs != s.gens[g].marks[k].downs ==>
                  && e.OnConn? && e.t == s.gens[g].marks[k].stopper && e.ca.FireDown?
                  && s'.hooks == s.hooks + NewHook(s.conns[e.t].pc.reason, Some(e.t), Some(g), e.ca.script))
  {
    InvReachable(s);
    match e {
      case OnConn(t, a) =>
        if a.FireDown? {
          assert LinkOk(s, t);
        } else {
          OtherActsCountNothing(s, t, a, g);
        }
      case OnMon(h, a) => MonCounts(s, h, a, g);
      case _ =>
    }
  }

  lemma OtherActsCountNothing(s: Sys, t: nat, a: ConnAct, g: nat)
    requires t in s.conns && ConnNext(s, t, a).Some? && !a.FireDown? && g < |s.gens|
    ensures var s' := ConnNext(s, t, a).value;
            && g < |s'.gens| && s'.gens[g].exitHooks == s.gens[g].exitHooks
            && |s.gens[g].marks| <= |s'.gens[g].marks|
            && forall k :: 0 <= k < |s.gens[g].marks| ==> s'.gens[g].marks[k] == s.gens[g].marks[k]
  {
  }

  lemma MonCounts(s: Sys, h: nat, a: MonAct, g: nat)
    requires h < |s.gens| && MonNext(s, h, a).Some? && g < |s.gens|
    ensures var s' := MonNext(s, h, a).value;
            && g < |s'.gens| && s'.gens[g].marks == s.gens[g].marks
            && (s'.gens[g].exitHooks != s.gens[g].exitHooks ==>
                  h == g && a.FireHook? && s'.hooks == s.hooks + NewHook(CoreExited, None, Some(g), a.script))
  {
  }

  // ----- the lease

  /** In its command loop a thread is un-kicked exactly while it owns the slot, so at most one is. */
  lemma OneUnkickedOwner(s: Sys, t: nat, u: nat)
    requires Reachable(s) && t in s.conns && u in s.conns
    ensures InLoop(s.conns[t].pc) ==> (!s.conns[t].kicked <==> s.st.owner == Some(t))
    ensures InLoop(s.conns[t].pc) && InLoop(s.conns[u].pc) && !s.conns[t].kicked && !s.conns[u].kicked ==> t == u
  {
    InvReachable(s);
    assert LeaseOk(s, t);
    assert LeaseOk(s, u);
  }

  /** The slot changes hands only by a hello, and is emptied only by the thread that holds it. */
  lemma OwnerChanges(s: Sys, e: Event)
    requires Next(s, e).Some?
    ensures var owner' := Next(s, e).value.st.owner;
            owner' != s.st.owner ==>
              || (e.OnConn? && e.ca.Acquire? && owner' == Some(e.t))
              || (e.OnConn? && e.ca.Release? && s.st.owner == Some(e.t) && owner' == None)
  {
    match e {
      case OnMon(g, a) => MonKeepsThreads(s, g, a);
      case OnConn(t, a) =>
        if a.Acquire? || a.Release? {
          SectionChangesOwner(s, t, a);
        } else {
          ActsKeepOwner(s, t, a);
        }
      case _ =>
    }
  }

  lemma SectionChangesOwner(s: Sys, t: nat, a: ConnAct)
    requires t in s.conns && ConnNext(s, t, a).Some? && (a.Acquire? || a.Release?)
    ensures var owner' := ConnNext(s, t, a).value.st.owner;
            owner' == s.st.owner || (if a.Acquire? then owner' == Some(t) else s.st.owner == Some(t) && owner' == None)
  {
  }

  /** It has or had the lease, or was turned away. */
  predicate WasOwner(s: Sys, t: nat) {
    t in s.conns && !s.conns[t].pc.Leasing? && !s.conns[t].pc.Declining?
  }

  lemma StaysOwner(s: Sys, e: Event, t: nat)
    requires LeaseInv(s) && WasOwner(s, t) && Next(s, e).Some?
    ensures WasOwner(Next(s, e).value, t)
  {
    match e {
      case Arrive(_) => IdIsFresh(s);
      case OnConn(u, a) =>
        ActsKeepPlaces(s, u, a);
        if u == t {
          NeverWaits(s, u, a);
        }
      case OnMon(g, a) => MonKeepsThreads(s, g, a);
      case _ =>
    }
  }

  lemma NeverWaits(s: Sys, t: nat, a: ConnAct)
    requires t in s.conns && ConnNext(s, t, a).Some? && !a.Acquire?
    ensures var s' := ConnNext(s, t, a).value;
            t in s'.conns && !s'.conns[t].pc.Leasing? && !s'.conns[t].pc.Declining?
  {
  }

  /** A slot once lost is never had again by the same thread. */
  lemma OwnerStaysOff(s: Sys, e: Event, t: nat)
    requires WasOwner(s, t) && s.st.owner != Some(t) && Next(s, e).Some?
    ensures Next(s, e).value.st.owner != Some(t)
  {
    OwnerChanges(s, e);
  }

  /** Two ways only to lose the slot: to be kicked, or to give it up on the way to the exit. */
  lemma {:induction false} OwnerLosesSlot(s: Sys, es: seq<Event>, t: nat)
    requires Inv(s) && WasOwner(s, t) && Exec(s, es).Some?
    ensures var s' := Exec(s, es).value;
            t in s'.conns && (s'.st.owner == Some(t) || s'.conns[t].kicked || TearingDown(s'.conns[t].pc)
                              || s'.conns[t].pc.Gone?)
    decreases |es|
  {
    if es == [] {
      assert LeaseOk(s, t);
    } else {
      StaysOwner(s, es[0], t);
      InvStep(s, es[0], Next(s, es[0]).value);
      OwnerLosesSlot(Next(s, es[0]).value, es[1..], t);
    }
  }

  // ----- takeover

  /** A takeover leaves the core alone: its state, its history and the process table. */
  lemma TakeoverKeepsCore(s: Sys, t: nat)
    requires Next(s, OnConn(t, Acquire)).Some?
    ensures var s' := Next(s, OnConn(t, Acquire)).value;
            s'.st.core == s.st.core && s'.gens == s.gens && s'.procs == s.procs && s'.hooks == s.hooks
  {
  }

  /** A hello, from its arrival to its greeting. */
  predicate OfHello(e: Event) {
    e.Arrive? || (e.OnConn? && (e.ca.Acquire? || OfHandshake(e.ca)))
  }

  /** Any number of hellos, takeovers among them, leave the core, its history, the processes and the hooks alone. */
  lemma {:induction false} HellosKeepCore(s: Sys, es: seq<Event>)
    requires Exec(s, es).Some? && forall e :: e in es ==> OfHello(e)
    ensures var s' := Exec(s, es).value;
            s'.st.core == s.st.core && s'.gens == s.gens && s'.procs == s.procs && s'.hooks == s.hooks
    decreases |es|
  {
    if es != [] {
      assert es[0] in es && forall e :: e in es[1..] ==> e in es;
      HelloKeepsCore(s, es[0]);
      HellosKeepCore(Next(s, es[0]).value, es[1..]);
    }
  }

  lemma HelloKeepsCore(s: Sys, e: Event)
    requires Next(s, e).Some? && OfHello(e)
    ensures var s' := Next(s, e).value;
            s'.st.core == s.st.core && s'.gens == s.gens && s'.procs == s.procs && s'.hooks == s.hooks
  {
    if e.OnConn? && !e.ca.Acquire? {
      OtherActsKeepCore(s, e.t, e.ca);
      ActsFireNothing(s, e.t, e.ca);
    } else if e.OnConn? {
      TakeoverKeepsCore(s, e.t);
    }
  }

  /** Where a thread is that has not loaded its flag, or has found it up. */
  predicate Harmless(pc: ConnPc) {
    InLoop(pc) || Awaiting(pc) || pc.Leaving? || pc == Gone(None)
  }

  /** Kicked before it loaded its flag. */
  predicate Displaced(s: Sys, t: nat) {
    t in s.conns && s.conns[t].kicked && Harmless(s.conns[t].pc)
  }

  /** The actions after which a thread has left its command loop. */
  predicate PastLoop(a: ConnAct) {
    a.LoadKicked? || a.Release? || a.List? || a.KillNext? || a.EndKilling? || a.JoinAndExit?
  }

  lemma DisplacedServes(s: Sys, t: nat, a: ConnAct)
    requires Displaced(s, t) && ConnNext(s, t, a).Some? && !PastLoop(a) && !OfHandshake(a)
    ensures t in ConnNext(s, t, a).value.conns && Harmless(ConnNext(s, t, a).value.conns[t].pc)
  {
  }

  lemma DisplacedElsewhere(s: Sys, t: nat, a: ConnAct)
    requires Displaced(s, t) && ConnNext(s, t, a).Some? && (PastLoop(a) || OfHandshake(a))
    ensures t in ConnNext(s, t, a).value.conns && Harmless(ConnNext(s, t, a).value.conns[t].pc) && !a.JoinAndExit?
  {
  }

  lemma OnlyJoinExits(s: Sys, t: nat, a: ConnAct)
    requires t in s.conns && ConnNext(s, t, a).Some?
    ensures ConnNext(s, t, a).value.exit == if a.JoinAndExit? then ByOwner(t) else s.exit
  {
  }

  lemma DisplacedMoves(s: Sys, t: nat, a: ConnAct)
    requires Displaced(s, t) && ConnNext(s, t, a).Some?
    ensures Displaced(ConnNext(s, t, a).value, t) && ConnNext(s, t, a).value.exit == s.exit
  {
    OnlyJoinExits(s, t, a);
    if PastLoop(a) || OfHandshake(a) {
      DisplacedElsewhere(s, t, a);
    } else {
      DisplacedServes(s, t, a);
    }
    ActsStand(s, t, a);
  }

  lemma OtherThreadsKeep(s: Sys, u: nat, a: ConnAct, t: nat)
    requires u in s.conns && t in s.conns && t != u && ConnNext(s, u, a).Some?
    ensures var s' := ConnNext(s, u, a).value;
            && t in s'.conns && s'.conns[t].pc == s.conns[t].pc && s'.conns[t].swept == s.conns[t].swept
            && (s.conns[t].kicked ==> s'.conns[t].kicked)
  {
  }

  lemma MonStops(s: Sys, g: nat, a: MonAct)
    requires g < |s.gens| && MonNext(s, g, a).Some?
    ensures MonNext(s, g, a).value.exit == s.exit
    ensures s.st.core.Stopped? ==> MonNext(s, g, a).value.st.core.Stopped?
  {
  }

  lemma DisplacedStep(s: Sys, e: Event, t: nat)
    requires Inv(s) && Displaced(s, t) && Next(s, e).Some?
    ensures Displaced(Next(s, e).value, t) && Next(s, e).value.exit != ByOwner(t)
  {
    match e {
      case Arrive(_) => IdIsFresh(s);
      case OnConn(u, a) =>
        if u != t {
          OtherThreadsKeep(s, u, a, t);
          OnlyJoinExits(s, u, a);
        } else {
          DisplacedMoves(s, t, a);
        }
      case OnMon(g, a) =>
        MonKeepsThreads(s, g, a);
        MonStops(s, g, a);
      case _ =>
    }
  }

  /**
   * A thread kicked before it loads its flag never tears the core down and never exits the process, in any
   * continuation.
   */
  lemma {:induction false} DisplacedNeverTearsDown(s: Sys, es: seq<Event>, t: nat)
    requires Inv(s) && Displaced(s, t) && s.exit != ByOwner(t) && Exec(s, es).Some?
    ensures var s' := Exec(s, es).value;
            && t in s'.conns && s'.conns[t].kicked
            && !TearingDown(s'.conns[t].pc) && !s'.conns[t].pc.Releasing? && s'.exit != ByOwner(t)
    decreases |es|
  {
    if es != [] {
      var s1 := Next(s, es[0]).value;
      InvStep(s, es[0], s1);
      DisplacedStep(s, es[0], t);
      DisplacedNeverTearsDown(s1, es[1..], t);
    }
  }

  // ----- the crash sweep

  /** A crash sweep never kills a core of this supervisor, whatever listing it works from. */
  lemma CrashSweepSparesCores(s: Sys, g: nat)
    requires Reachable(s) && g < |s.gens|
    ensures forall k :: k in s.gens[g].swept ==> k == Other
  {
    InvReachable(s);
    assert GenOk(s, g);
  }

  datatype Try = Try(pid: int, killed: bool)

  predicate SweepsOne(s: Sys, e: Event, g: nat) {
    && e.OnMon? && e.g == g && e.ma.SweepNext?
    && g < |s.gens| && s.gens[g].mon.Sweeping? && s.gens[g].mon.targets != []
  }

  /** The kills that the monitor of generation `g` tries in a run, in order. */
  function Tries(s: Sys, es: seq<Event>, g: nat): seq<Try>
    requires Exec(s, es).Some?
    decreases |es|
  {
    if es == [] then []
    else
      (if SweepsOne(s, es[0], g) then [Try(s.gens[g].mon.targets[0], es[0].ma.ok)] else [])
      + Tries(Next(s, es[0]).value, es[1..], g)
  }

  function Pids(tries: seq<Try>): seq<int> {
    if tries == [] then [] else [tries[0].pid] + Pids(tries[1..])
  }

  function Kills(tries: seq<Try>): nat {
    if tries == [] then 0 else (if tries[0].killed then 1 else 0) + Kills(tries[1..])
  }

  predicate EndsSweep(e: Event, g: nat) {
    e.OnMon? && e.g == g && e.ma.EndSweep?
  }

  predicate SweepKept(s: Sys, s': Sys, g: nat) {
    && g < |s.gens| && g < |s'.gens| && s'.gens[g].mon == s.gens[g].mon && s'.gens[g].swept == s.gens[g].swept
  }

  lemma OthersLeaveSweep(s: Sys, t: nat, a: ConnAct, g: nat)
    requires LinkInv(s) && t in s.conns && ConnNext(s, t, a).Some? && g < |s.gens| && s.gens[g].mon.Sweeping?
    ensures SweepKept(s, ConnNext(s, t, a).value, g)
  {
    assert LinkOk(s, t);
    if !a.Start? && !a.Stop? && !a.FireDown? && !a.SpawnMonitor? {
      OtherActsKeepCore(s, t, a);
    }
  }

  lemma MonsLeaveSweep(s: Sys, h: nat, a: MonAct, g: nat)
    requires h < |s.gens| && MonNext(s, h, a).Some? && g < |s.gens| && h != g
    ensures SweepKept(s, MonNext(s, h, a).value, g)
  {
  }

  lemma SweepTry(s: Sys, g: nat, ok: bool)
    requires Inv(s) && g < |s.gens| && s.gens[g].mon.Sweeping? && MonNext(s, g, SweepNext(ok)).Some?
    ensures var s', pc := MonNext(s, g, SweepNext(ok)).value, s.gens[g].mon;
            && |s'.gens| == |s.gens| && pc.targets != []
            && s'.gens[g].mon == Sweeping(pc.targets[1..], pc.killed + (if ok then 1 else 0))
            && s'.gens[g].swept == s.gens[g].swept + (if ok then [Other] else [])
  {
    assert GenOk(s, g);
    if ok {
      NoCoreWhenStopped(s, s.gens[g].mon.targets[0]);
    }
  }

  lemma SweepStep(s: Sys, e: Event, g: nat)
    requires Inv(s) && g < |s.gens| && s.gens[g].mon.Sweeping? && Next(s, e).Some? && !EndsSweep(e, g)
    ensures g < |Next(s, e).value.gens|
    ensures if SweepsOne(s, e, g) then MonNext(s, g, e.ma) == Next(s, e) else SweepKept(s, Next(s, e).value, g)
  {
    match e {
      case OnConn(t, a) => OthersLeaveSweep(s, t, a, g);
      case OnMon(h, a) =>
        if h != g {
          MonsLeaveSweep(s, h, a, g);
        } else if a.SweepNext? {
          SweepTry(s, g, a.ok);
        }
      case _ =>
    }
  }

  /** How far a sweep has come: what it tried, then what is left, are the targets it began with. */
  predicate SweptFrom(from: Gen, to: Gen, tries: seq<Try>) {
    && from.mon.Sweeping? && to.mon.Sweeping?
    && Pids(tries) + to.mon.targets == from.mon.targets
    && to.mon.killed == from.mon.killed + Kills(tries)
    && |to.swept| == |from.swept| + Kills(tries)
  }

  lemma SweptFurther(from: Gen, one: Gen, to: Gen, first: Try, rest: seq<Try>)
    requires from.mon.Sweeping? && from.mon.targets != [] && first.pid == from.mon.targets[0]
    requires one.mon == Sweeping(from.mon.targets[1..], from.mon.killed + (if first.killed then 1 else 0))
    requires one.swept == from.swept + (if first.killed then [Other] else [])
    requires SweptFrom(one, to, rest)
    ensures SweptFrom(from, to, [first] + rest)
  {
    TriesPush(first, rest);
    assert from.mon.targets == [first.pid] + from.mon.targets[1..];
  }

  lemma {:induction false} SweepRun(s: Sys, es: seq<Event>, g: nat)
    requires Inv(s) && g < |s.gens| && s.gens[g].mon.Sweeping? && Exec(s, es).Some?
    requires forall e :: e in es ==> !EndsSweep(e, g)
    ensures var s' := Exec(s, es).value;
            g < |s'.gens| && s'.st.core == Stopped && SweptFrom(s.gens[g], s'.gens[g], Tries(s, es, g))
    decreases |es|
  {
    if es == [] {
      assert GenOk(s, g);
      assert Pids([]) + s.gens[g].mon.targets == s.gens[g].mon.targets;
    } else {
      var e, s1 := es[0], Next(s, es[0]).value;
      assert e in es && forall e' :: e' in es[1..] ==> e' in es;
      InvStep(s, e, s1);
      SweepStep(s, e, g);
      if SweepsOne(s, e, g) {
        SweepTry(s, g, e.ma.ok);
        SweepRun(s1, es[1..], g);
        SweptFurther(s.gens[g], s1.gens[g], Exec(s, es).value.gens[g], Try(s.gens[g].mon.targets[0], e.ma.ok),
                     Tries(s1, es[1..], g));
      } else {
        SweepRun(s1, es[1..], g);
        assert [] + Tries(s1, es[1..], g) == Tries(s1, es[1..], g);
      }
    }
  }

  lemma TriesPush(first: Try, rest: seq<Try>)
    ensures Pids([first] + rest) == [first.pid] + Pids(rest)
    ensures Kills([first] + rest) == (if first.killed then 1 else 0) + Kills(rest)
  {
    assert ([first] + rest)[1..] == rest;
  }

  /**
   * A whole crash sweep, from taking the lock to giving it back, whatever else happens meanwhile: it starts only on
   * Stopped, which lasts; it tries every matching line of its listing once, in order; what it kills is foreign; and
   * its hook fires exactly if it killed something.
   */
  lemma CrashSweep(s: Sys, s1: Sys, s2: Sys, s3: Sys, g: nat, listing: Option<string>, es: seq<Event>, script: bool)
    requires Reachable(s) && Next(s, OnMon(g, LockSweep(listing))) == Some(s1)
    requires g < |s1.gens| && s1.gens[g].mon.Sweeping?
    requires Exec(s1, es) == Some(s2) && forall e :: e in es ==> !EndsSweep(e, g)
    requires Next(s2, OnMon(g, EndSweep(script))) == Some(s3)
    ensures s.st.core == Stopped && s2.st.core == Stopped
    ensures g < |s3.gens|
    ensures var tries := Tries(s1, es, g);
            && Pids(tries) == SweepTargets(s, listing)
            && |s3.gens[g].swept| == Kills(tries) && (forall k :: k in s3.gens[g].swept ==> k == Other)
            && s3.hooks == s2.hooks + NewHook(JanitorKill, None, None, script && Kills(tries) > 0)
  {
    InvReachable(s);
    SweepBegins(s, g, listing);
    InvStep(s, OnMon(g, LockSweep(listing)), s1);
    SweepRun(s1, es, g);
    InvRun(s1, es);
    SweepEnds(s2, g, script);
    assert Pids(Tries(s1, es, g)) + [] == Pids(Tries(s1, es, g));
  }

  lemma SweepBegins(s: Sys, g: nat, listing: Option<string>)
    requires Inv(s) && g < |s.gens| && MonNext(s, g, LockSweep(listing)).Some?
    ensures var s' := MonNext(s, g, LockSweep(listing)).value;
            && |s'.gens| == |s.gens|
            && (s'.gens[g].mon.Sweeping? ==>
                  s.st.core == Stopped && s'.gens[g].mon == Sweeping(SweepTargets(s, listing), 0) && s'.gens[g].swept == [])
  {
    assert GenOk(s, g);
  }

  lemma SweepEnds(s: Sys, g: nat, script: bool)
    requires Inv(s) && g < |s.gens| && s.gens[g].mon.Sweeping? && MonNext(s, g, EndSweep(script)).Some?
    ensures var s' := MonNext(s, g, EndSweep(script)).value;
            && s.gens[g].mon.targets == [] && |s'.gens| == |s.gens| && s'.gens[g].swept == s.gens[g].swept
            && (forall k :: k in s.gens[g].swept ==> k == Other)
            && s'.hooks == s.hooks + NewHook(JanitorKill, None, None, script && s.gens[g].mon.killed > 0)
  {
    assert GenOk(s, g);
  }

  // ----- a clean exit

  /** No other thread is in its command loop. */
  ghost predicate Quiet(s: Sys, t: nat) {
    forall u :: u in s.conns && u != t ==> !InLoop(s.conns[u].pc)
  }

  ghost predicate QuietRun(s: Sys, es: seq<Event>, t: nat)
    decreases |es|
  {
    Quiet(s, t) && (es != [] ==> Next(s, es[0]).Some? && QuietRun(Next(s, es[0]).value, es[1..], t))
  }

  /** Thread `t` is stopping the core or past it, and since its first `n` kills has hit no core. */
  ghost predicate Ending(s: Sys, t: nat, n: nat) {
    && t in s.conns
    && var c := s.conns[t];
       && TearingDown(c.pc)
       && (c.pc.FiringDown? || c.pc.Listing? || c.pc.Killing? || c.pc.Joining? ==> s.st.core.Stopped?)
       && (forall i :: n <= i < |c.swept| ==> c.swept[i] == Other)
  }

  /** The `down` hooks that thread `t` fired for its own departure have finished. */
  predicate OwnHooksDone(s: Sys, t: nat) {
    forall h :: 0 <= h < |s.hooks| && s.hooks[h].reason == Some(OwnerDrop) && s.hooks[h].thread == Some(t) ==>
      s.hooks[h].finished
  }

  /** What is left when thread `t` has exited the process. */
  ghost predicate CleanlyExited(s: Sys, t: nat, n: nat) {
    && (forall g :: 0 <= g < |s.gens| ==> !Live(s.gens[g].mon))
    && (forall p :: p in s.procs ==> s.procs[p].kind == Other)
    && t in s.conns && s.conns[t].pc.Gone?
    && OwnHooksDone(s, t)
    && (forall i :: n <= i < |s.conns[t].swept| ==> s.conns[t].swept[i] == Other)
  }

  lemma EndingStops(s: Sys, t: nat, n: nat)
    requires Inv(s) && Ending(s, t, n) && ConnNext(s, t, Stop).Some?
    ensures Ending(ConnNext(s, t, Stop).value, t, n)
  {
  }

  lemma EndingObserves(s: Sys, t: nat, n: nat)
    requires Inv(s) && Ending(s, t, n) && ConnNext(s, t, Observe).Some?
    ensures Ending(ConnNext(s, t, Observe).value, t, n)
  {
  }

  lemma EndingFires(s: Sys, t: nat, n: nat, script: bool)
    requires Inv(s) && Ending(s, t, n) && ConnNext(s, t, FireDown(script)).Some?
    ensures Ending(ConnNext(s, t, FireDown(script)).value, t, n)
  {
    assert ConnNext(s, t, FireDown(script)).value.conns[t].pc.Listing?;
  }

  lemma EndingKills(s: Sys, t: nat, n: nat, ok: bool)
    requires Inv(s) && Ending(s, t, n) && ConnNext(s, t, KillNext(ok)).Some?
    ensures Ending(ConnNext(s, t, KillNext(ok)).value, t, n)
  {
    if ok {
      NoCoreWhenStopped(s, s.conns[t].pc.targets[0]);
    }
  }

  lemma EndingSweeps(s: Sys, t: nat, n: nat, a: ConnAct)
    requires Inv(s) && Ending(s, t, n) && ConnNext(s, t, a).Some? && (a.List? || a.EndKilling?)
    ensures Ending(ConnNext(s, t, a).value, t, n)
  {
  }

  lemma EndingActs(s: Sys, t: nat, n: nat, a: ConnAct)
    requires Ending(s, t, n) && ConnNext(s, t, a).Some?
    ensures a.Stop? || a.Observe? || a.FireDown? || a.List? || a.KillNext? || a.EndKilling? || a.JoinAndExit?
  {
  }

  lemma ExitWaits(s: Sys, t: nat)
    requires Inv(s) && t in s.conns && s.conns[t].pc.Joining?
    ensures ConnNext(s, t, JoinAndExit).Some? <==> OwnHooksDone(s, t)
  {
    assert LinkOk(s, t);
    forall h: nat | h < |s.hooks| && s.hooks[h].reason == Some(OwnerDrop) && s.hooks[h].thread == Some(t)
      ensures s.conns[t].pc.hook == Some(h)
    {
      assert DropOk(s, h);
    }
  }

  lemma EndingEnds(s: Sys, t: nat, n: nat)
    requires Inv(s) && Ending(s, t, n) && ConnNext(s, t, JoinAndExit).Some?
    ensures CleanlyExited(ConnNext(s, t, JoinAndExit).value, t, n)
  {
    ExitWaits(s, t);
    forall g: nat | g < |s.gens| ensures !Live(s.gens[g].mon) { NotLiveWhenStopped(s, g); }
    forall p | p in s.procs ensures s.procs[p].kind == Other { NoCoreWhenStopped(s, p); }
  }

  lemma QuietThreadsStartNothing(s: Sys, u: nat, a: ConnAct)
    requires u in s.conns && !InLoop(s.conns[u].pc) && ConnNext(s, u, a).Some?
    ensures s.st.core.Stopped? ==> ConnNext(s, u, a).value.st.core.Stopped?
  {
  }

  lemma EndingConn(s: Sys, u: nat, a: ConnAct, t: nat, n: nat)
    requires Inv(s) && Ending(s, t, n) && Quiet(s, t) && s.exit == NotExited
    requires u in s.conns && ConnNext(s, u, a).Some?
    ensures var s' := ConnNext(s, u, a).value;
            if s'.exit == ByOwner(t) then CleanlyExited(s', t, n) else Ending(s', t, n)
  {
    OnlyJoinExits(s, u, a);
    if u != t {
      OtherThreadsKeep(s, u, a, t);
      QuietThreadsStartNothing(s, u, a);
    } else {
      EndingActs(s, t, n, a);
      match a {
        case JoinAndExit => EndingEnds(s, t, n);
        case KillNext(ok) => EndingKills(s, t, n, ok);
        case FireDown(script) => EndingFires(s, t, n, script);
        case Stop => EndingStops(s, t, n);
        case Observe => EndingObserves(s, t, n);
        case _ => EndingSweeps(s, t, n, a);
      }
    }
  }

  lemma EndingMon(s: Sys, g: nat, a: MonAct, t: nat, n: nat)
    requires Ending(s, t, n) && g < |s.gens| && MonNext(s, g, a).Some?
    ensures Ending(MonNext(s, g, a).value, t, n) && MonNext(s, g, a).value.exit == s.exit
  {
    MonKeepsThreads(s, g, a);
    MonStops(s, g, a);
  }

  lemma EndingStep(s: Sys, e: Event, t: nat, n: nat)
    requires Inv(s) && Ending(s, t, n) && Quiet(s, t) && s.exit == NotExited && Next(s, e).Some?
    ensures var s' := Next(s, e).value;
            if s'.exit == ByOwner(t) then CleanlyExited(s', t, n) else Ending(s', t, n)
  {
    match e {
      case Arrive(_) => IdIsFresh(s);
      case OnConn(u, a) => EndingConn(s, u, a, t, n);
      case OnMon(g, a) => EndingMon(s, g, a, t, n);
      case _ =>
    }
  }

  /**
   * When the owner's thread, its slot released, goes on to exit the process while no other thread is in or enters
   * its command loop, then at the exit every generation is reaped, its `down` hook has finished, and its sweep
   * has killed no core.
   */
  lemma {:induction false} CleanExit(s: Sys, es: seq<Event>, t: nat, n: nat)
    requires Inv(s) && s.exit == NotExited && Ending(s, t, n)
    requires QuietRun(s, es, t) && Exec(s, es).Some? && Exec(s, es).value.exit == ByOwner(t)
    ensures CleanlyExited(Exec(s, es).value, t, n)
    decreases |es|
  {
    var s1 := Next(s, es[0]).value;
    InvStep(s, es[0], s1);
    EndingStep(s, es[0], t, n);
    if s1.exit == NotExited {
      CleanExit(s1, es[1..], t, n);
    } else {
      assert es[1..] == [];
    }
  }

  /** The theorem applies from the moment the owner releases its slot. */
  lemma CleanExitAfterRelease(s: Sys, es: seq<Event>, t: nat)
    requires Reachable(s) && s.exit == NotExited && t in s.conns && s.conns[t].pc == Stopping(OwnerDrop)
    requires QuietRun(s, es, t) && Exec(s, es).Some? && Exec(s, es).value.exit == ByOwner(t)
    ensures CleanlyExited(Exec(s, es).value, t, |s.conns[t].swept|)
  {
    InvReachable(s);
    CleanExit(s, es, t, |s.conns[t].swept|);
  }

  // ----- any exit

  /**
   * What holds at the exit of any owner's thread, whatever the others do: its `down` hook has finished, every
   * generation it stopped is reaped and had its hook; and a core is left behind exactly if one is up then.
   */
  lemma AnyExit(s: Sys, t: nat)
    requires Reachable(s) && Next(s, OnConn(t, JoinAndExit)).Some?
    ensures var s' := Next(s, OnConn(t, JoinAndExit)).value;
            && s'.exit == ByOwner(t)
            && OwnHooksDone(s', t)
            && (forall g, k :: 0 <= g < |s'.gens| && 0 <= k < |s'.gens[g].marks| && s'.gens[g].marks[k].stopper == t ==>
                  s'.gens[g].marks[k].downs == 1 && !Live(s'.gens[g].mon))
            && ((exists p :: IsCore(s', p)) <==> CoreUp(s))
  {
    SingleCore(s);
    InvReachable(s);
    var s' := Next(s, OnConn(t, JoinAndExit)).value;
    ExitWaits(s, t);
    assert forall p :: IsCore(s', p) <==> IsCore(s, p);
    forall g, k | 0 <= g < |s'.gens| && 0 <= k < |s'.gens[g].marks| && s'.gens[g].marks[k].stopper == t
      ensures s'.gens[g].marks[k].downs == 1 && !Live(s'.gens[g].mon)
    {
      assert OwedOk(s, g);
    }
  }

  /**
   * Which hooks an exit waits for: a thread that is through with its sweep can exit if and only if the `down` hook
   * of its own departure, if it fired one, has finished. The exit leaves every other hook as it is, so an unfinished
   * one is cut short: that of a `stop` command, a crash, a sweep, another departure, or an `up` hook.
   */
  lemma ExitWaitsForItsHook(s: Sys, t: nat)
    requires Reachable(s) && s.exit == NotExited && t in s.conns && s.conns[t].pc.Joining?
    ensures Next(s, OnConn(t, JoinAndExit)).Some? <==> OwnHooksDone(s, t)
    ensures OwnHooksDone(s, t) ==>
              var s' := Next(s, OnConn(t, JoinAndExit)).value;
              && s'.exit == ByOwner(t) && s'.hooks == s.hooks
              && forall h :: 0 <= h < |s'.hooks| && !s'.hooks[h].finished ==>
                   s'.hooks[h].reason != Some(OwnerDrop) || s'.hooks[h].thread != Some(t)
  {
    InvReachable(s);
    ExitWaits(s, t);
  }

  /** A kill of the sweep before the exit hits a core exactly if a core is up and is the target. */
  lemma TeardownSweepHits(s: Sys, t: nat)
    requires Reachable(s) && Next(s, OnConn(t, KillNext(true))).Some?
    ensures var target := s.conns[t].pc.targets[0];
            var c' := Next(s, OnConn(t, KillNext(true))).value.conns[t];
            && |c'.swept| == |s.conns[t].swept| + 1
            && (c'.swept[|s.conns[t].swept|].Core? <==> CoreUp(s) && target == s.st.core.pid)
  {
    InvReachable(s);
    CoreIs(s, s.conns[t].pc.targets[0]);
  }

  /** The timer's exit: it comes no earlier than 30 s after the start, and leaves a core exactly if one is up then. */
  lemma TimerExit(s: Sys)
    requires Reachable(s) && Next(s, TimerExits).Some?
    ensures s.now >= 30000
    ensures (exists p :: IsCore(Next(s, TimerExits).value, p)) <==> CoreUp(s)
  {
    InvReachable(s);
    SingleCore(s);
    assert forall p :: IsCore(Next(s, TimerExits).value, p) <==> IsCore(s, p);
  }

  /** In this run the timer looks for an owner, and finds none. */
  ghost predicate LooksInVain(s: Sys, es: seq<Event>)
    decreases |es|
  {
    es != [] && Next(s, es[0]).Some?
    && ((es[0].TimerChecks? && s.st.owner == None) || LooksInVain(Next(s, es[0]).value, es[1..]))
  }

  lemma TimerStands(s: Sys, e: Event)
    requires Next(s, e).Some? && !e.TimerChecks? && !e.TimerExits?
    ensures Next(s, e).value.timer == s.timer && Next(s, e).value.exit != ByTimer
  {
    match e {
      case OnConn(t, a) =>
        ConnKeepsTimer(s, t, a);
        OnlyJoinExits(s, t, a);
      case OnMon(g, a) =>
        MonKeepsTimer(s, g, a);
        MonStops(s, g, a);
      case _ =>
    }
  }

  lemma {:induction false} NoVainLookNoExit(s: Sys, es: seq<Event>)
    requires s.exit != ByTimer && s.timer != Firing && Exec(s, es).Some? && !LooksInVain(s, es)
    ensures Exec(s, es).value.exit != ByTimer
    decreases |es|
  {
    if es != [] {
      if !es[0].TimerChecks? && !es[0].TimerExits? {
        TimerStands(s, es[0]);
      }
      NoVainLookNoExit(Next(s, es[0]).value, es[1..]);
    }
  }

  /**
   * The timer ends the process only in a run in which it looked for an owner and found none; so one whose slot is held
   * when it looks is spared. And whenever it looks in vain it can end the process next.
   */
  lemma TimerSparesOwners(s: Sys, es: seq<Event>)
    requires Init(s) && Exec(s, es).Some?
    ensures Exec(s, es).value.exit == ByTimer ==> LooksInVain(s, es)
    ensures var s' := Exec(s, es).value;
            Next(s', TimerChecks).Some? && s'.st.owner == None ==>
              Exec(s', [TimerChecks, TimerExits]).Some? && Exec(s', [TimerChecks, TimerExits]).value.exit == ByTimer
  {
    if !LooksInVain(s, es) {
      NoVainLookNoExit(s, es);
    }
    var s' := Exec(s, es).value;
    if Next(s', TimerChecks).Some? && s'.st.owner == None {
      assert [TimerChecks, TimerExits][1..] == [TimerExits] && [TimerExits][1..] == [];
    }
  }

  /** It looks once, as soon as 30 s have passed and no sweep holds the lock. */
  lemma TimerLooks(s: Sys, es: seq<Event>)
    requires Init(s) && Exec(s, es).Some? && TimerChecks !in es
    ensures var s' := Exec(s, es).value;
            Next(s', TimerChecks).Some? <==> s'.exit == NotExited && s'.now >= 30000 && s'.holder == None
    ensures var s' := Exec(s, es).value;
            Next(s', TimerChecks).Some? ==> Next(Next(s', TimerChecks).value, TimerChecks).None?
  {
    StaysArmed(s, es);
  }

  lemma {:induction false} StaysArmed(s: Sys, es: seq<Event>)
    requires s.timer == Armed && Exec(s, es).Some? && TimerChecks !in es
    ensures Exec(s, es).value.timer == Armed
    decreases |es|
  {
    if es != [] {
      assert es[0] in es && TimerChecks !in es[1..];
      TimerStands(s, es[0]);
      StaysArmed(Next(s, es[0]).value, es[1..]);
    }
  }
}
