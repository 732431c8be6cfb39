/** What every step of the supervisor keeps. */
module SupervisorInvariant {
  import opened Text
  import opened Supervisor
  import Escalation
  import Messages

  // ----- generations, the process table and the lock

  /** The child has not been reaped. */
  predicate Unreaped(pc: MonPc) {
    pc.Unspawned? || pc.Poll? || pc.Check? || pc.Decide? || pc.SetDeadline? || pc.SendKill? || pc.Sleep?
  }

  /** The generation is still the one in `st.core`. */
  predicate Live(pc: MonPc) {
    Unreaped(pc) || pc.Reaped?
  }

  /** An exit is either requested, and then quiet, or a crash, reported once and followed by one hook. */
  predicate Fate(G: Gen) {
    if G.marks != [] then G.pushes == 0 && G.exitHooks == 0 && (Live(G.mon) || G.mon.Finished?)
    else
      var hooked := G.mon.LockForSweep? || G.mon.Sweeping? || G.mon.Finished?;
      && G.pushes == (if hooked || G.mon.FireExitHook? then 1 else 0)
      && G.exitHooks == (if hooked then 1 else 0)
  }

  ghost predicate Signals(G: Gen, g: nat, now: nat) {
    && |G.struck| == |G.sent|
    && (forall i :: 0 <= i < |G.struck| ==> G.struck[i] == Some(Core(g)))
    && (forall i :: 0 <= i < |G.sent| ==> G.sent[i].at <= now)
    && (if G.mon.SetDeadline? then G.watch == Escalation.FRESH && |G.sent| == 1 && G.sent[0].sig.Term?
        else Escalation.Shape(G.watch, G.sent))
    && (G.mon.SendKill? ==> G.watch.deadline.Some? && !G.watch.killSent && G.watch.deadline.value <= now)
    && (G.mon == Decide(true) || G.mon.SendKill? || G.sent != [] ==> G.marks != [])
    && (G.marks != [] ==> G.marks[0].at <= now)
    && (G.sent != [] ==> G.marks[0].at <= G.sent[0].at)
  }

  ghost predicate GenOk(s: Sys, g: nat)
    requires g < |s.gens|
  {
    var G := s.gens[g];
    && (Unreaped(G.mon) ==> G.pid in s.procs && s.procs[G.pid].kind == Core(g))
    && (Live(G.mon) <==> g == |s.gens| - 1 && s.st.core.Running?)
    && (Live(G.mon) ==> s.st.core == Running(G.pid, G.port, G.marks != []))
    && (G.mon.Sweeping? <==> s.holder == Some(g))
    && (forall k :: k in G.swept ==> k == Other)
    && (if G.mon.Sweeping? then G.mon.killed == |G.swept| else G.swept == [] || G.mon.Finished?)
    && Fate(G)
    && Signals(G, g, s.now)
  }

  ghost predicate ProcOk(s: Sys, p: int)
    requires p in s.procs
  {
    match s.procs[p].kind
    case Other => true
    case Core(g) => g < |s.gens| && s.gens[g].pid == p && Unreaped(s.gens[g].mon)
  }

  ghost predicate CoreInv(s: Sys) {
    && (forall g {:trigger GenOk(s, g)} :: 0 <= g < |s.gens| ==> GenOk(s, g))
    && (forall p {:trigger ProcOk(s, p)} :: p in s.procs ==> ProcOk(s, p))
    && (s.st.core.Running? ==> s.gens != [])
    && (s.holder.Some? ==> s.holder.value < |s.gens| && s.st.core.Stopped?)
  }

  // ----- the lease

  predicate InLoop(pc: ConnPc) {
    match pc
    case Serving | Starting | SpawnedCore(_) | FiringUp(_) | Reporting | Replying(_) => true
    case Stopping(r) => r.Requested?
    case Waiting(r, _, _) => r.Requested?
    case FiringDown(r, _, _) => r.Requested?
    case _ => false
  }

  /** It has the lease and has not been greeted. */
  predicate Awaiting(pc: ConnPc) {
    pc.Displacing? || pc.Unblocking? || pc.Greeting? || pc.Saluting?
  }

  /** From acquiring the lease to releasing it. */
  predicate Settled(pc: ConnPc) {
    InLoop(pc) || Awaiting(pc) || pc.Leaving? || pc.Releasing?
  }

  /** Stopping the core because the owner left, up to the exit. */
  predicate TearingDown(pc: ConnPc) {
    match pc
    case Stopping(r) => r.OwnerDrop?
    case Waiting(r, _, _) => r.OwnerDrop?
    case FiringDown(r, _, _) => r.OwnerDrop?
    case Listing(_) | Killing(_, _, _) | Joining(_) => true
    case _ => false
  }

  predicate LeaseOk(s: Sys, t: nat)
    requires t in s.conns
  {
    var c := s.conns[t];
    && t < s.nextId
    && (if Settled(c.pc) then c.kicked <==> s.st.owner != Some(t) else s.st.owner != Some(t))
    && (c.pc.Leasing? || c.pc.Declining? ==> !c.kicked)
    && (Settled(c.pc) || TearingDown(c.pc) || c.pc.Leasing? || c.pc.Declining? || c.pc.Gone?)
  }

  ghost predicate LeaseInv(s: Sys) {
    && (forall t {:trigger LeaseOk(s, t)} :: t in s.conns ==> LeaseOk(s, t))
    && (s.st.owner.Some? ==> s.st.owner.value in s.conns)
  }

  // ----- the stop calls, the spawned cores and the hooks that threads answer for

  predicate Answers(s: Sys, t: nat, g: nat, k: nat) {
    && t in s.conns
    && match s.conns[t].pc
       case Waiting(_, g', k') => g' == g && k' == k
       case FiringDown(_, g', k') => g' == g && k' == k
       case _ => false
  }

  predicate MarkAt(s: Sys, t: nat, g: nat, k: nat) {
    g < |s.gens| && k < |s.gens[g].marks| && s.gens[g].marks[k].stopper == t && s.gens[g].marks[k].downs == 0
  }

  predicate IsDropHook(s: Sys, t: nat, hook: Option<nat>) {
    hook.Some? ==>
      && hook.value < |s.hooks|
      && var h := s.hooks[hook.value];
         !h.up && h.reason == Some(OwnerDrop) && h.thread == Some(t)
  }

  predicate LinkOk(s: Sys, t: nat)
    requires t in s.conns
  {
    match s.conns[t].pc
    case SpawnedCore(g) => g < |s.gens| && s.gens[g].mon.Unspawned? && s.gens[g].starter == t
    case FiringUp(g) => g < |s.gens| && s.gens[g].starter == t
    case Waiting(_, g, k) => MarkAt(s, t, g, k)
    case FiringDown(_, g, k) => MarkAt(s, t, g, k) && !Live(s.gens[g].mon)
    case Listing(hook) => IsDropHook(s, t, hook)
    case Killing(hook, _, _) => IsDropHook(s, t, hook)
    case Joining(hook) => IsDropHook(s, t, hook)
    case Gone(hook) => IsDropHook(s, t, hook)
    case _ => true
  }

  ghost predicate OwedOk(s: Sys, g: nat)
    requires g < |s.gens|
  {
    var G := s.gens[g];
    && (G.mon.Unspawned? ==> G.starter in s.conns && s.conns[G.starter].pc == SpawnedCore(g))
    && (forall k :: 0 <= k < |G.marks| ==>
          && G.marks[k].downs <= 1
          && (G.marks[k].downs == 0 ==> Answers(s, G.marks[k].stopper, g, k))
          && (G.marks[k].downs == 1 ==> !Live(G.mon)))
  }

  ghost predicate LinkInv(s: Sys) {
    && (forall t {:trigger LinkOk(s, t)} :: t in s.conns ==> LinkOk(s, t))
    && (forall g {:trigger OwedOk(s, g)} :: 0 <= g < |s.gens| ==> OwedOk(s, g))
  }

  ghost predicate Inv(s: Sys) {
    CoreInv(s) && LeaseInv(s) && LinkInv(s) && DropInv(s) && TimerInv(s)
  }

  // ----- whose hooks the exit waits for

  /** The `down` hook that a thread on its way to the exit has fired for its own stop. */
  function OwnHook(pc: ConnPc): Option<nat> {
    match pc
    case Listing(hook) => hook
    case Killing(hook, _, _) => hook
    case Joining(hook) => hook
    case Gone(hook) => hook
    case _ => None
  }

  predicate DropOk(s: Sys, h: nat)
    requires h < |s.hooks|
  {
    s.hooks[h].reason == Some(OwnerDrop) ==>
      && s.hooks[h].thread.Some? && s.hooks[h].thread.value in s.conns
      && OwnHook(s.conns[s.hooks[h].thread.value].pc) == Some(h)
  }

  /** Every hook fired for a departed owner is the one its thread keeps for the exit. */
  ghost predicate DropInv(s: Sys) {
    forall h {:trigger DropOk(s, h)} :: 0 <= h < |s.hooks| ==> DropOk(s, h)
  }

  predicate TimerInv(s: Sys) {
    s.timer == Firing ==> s.now >= NO_OWNER_TIMEOUT
  }

  // ----- preservation of CoreInv

  lemma CoreSame(s: Sys, s': Sys)
    requires CoreInv(s)
    requires s'.gens == s.gens && s'.procs == s.procs && s'.holder == s.holder && s'.st.core == s.st.core
    requires s.now <= s'.now
    ensures CoreInv(s')
  {
    forall g: nat | g < |s'.gens| ensures GenOk(s', g) { assert GenOk(s, g); }
    forall p | p in s'.procs ensures ProcOk(s', p) { assert ProcOk(s, p); }
  }

  /** Only the record of one generation changes, and its child is not reaped by it. */
  lemma CoreOneGen(s: Sys, s': Sys, g: nat)
    requires CoreInv(s) && g < |s.gens|
    requires |s'.gens| == |s.gens| && s'.gens == s.gens[g := s'.gens[g]]
    requires s'.procs == s.procs && s'.now == s.now && s'.st.core == s.st.core
    requires s'.gens[g].pid == s.gens[g].pid && (Unreaped(s.gens[g].mon) ==> Unreaped(s'.gens[g].mon))
    requires s'.holder == s.holder
             || (s.holder == Some(g) && s'.holder == None)
             || (s.holder == None && s'.holder == Some(g) && s.st.core.Stopped?)
    requires GenOk(s', g)
    ensures CoreInv(s')
  {
    forall h: nat | h < |s'.gens| ensures GenOk(s', h) {
      assert GenOk(s, h);
      assert h != g ==> s'.gens[h] == s.gens[h];
    }
    forall p | p in s'.procs ensures ProcOk(s', p) { assert ProcOk(s, p); }
  }

  lemma CoreStart(s: Sys, t: nat, spawned: Option<(Messages.I32, Messages.U16)>)
    requires CoreInv(s) && t in s.conns && s.holder == None && (spawned.Some? ==> spawned.value.0 !in s.procs)
    ensures CoreInv(StartedCore(s, t, spawned))
  {
    var s' := StartedCore(s, t, spawned);
    if s.st.core.Running? || spawned.None? {
      CoreSame(s, s');
    } else {
      forall h: nat | h < |s'.gens| ensures GenOk(s', h) {
        if h < |s.gens| {
          assert GenOk(s, h);
        }
      }
      forall p | p in s'.procs ensures ProcOk(s', p) {
        if p in s.procs {
          assert ProcOk(s, p);
        }
      }
    }
  }

  lemma CoreMark(s: Sys, t: nat, reason: Reason)
    requires CoreInv(s) && t in s.conns && s.holder == None
    ensures CoreInv(Marked(s, t, reason))
  {
    var s' := Marked(s, t, reason);
    if s.st.core.Stopped? {
      CoreSame(s, s');
    } else {
      var g: nat := |s.gens| - 1;
      assert GenOk(s, g);
      forall h: nat | h < |s'.gens| ensures GenOk(s', h) { assert GenOk(s, h); }
      forall p | p in s'.procs ensures ProcOk(s', p) { assert ProcOk(s, p); }
    }
  }

  lemma CoreFireDown(s: Sys, t: nat, reason: Reason, g: nat, k: nat, script: bool)
    requires CoreInv(s) && t in s.conns && g < |s.gens| && k < |s.gens[g].marks|
    ensures CoreInv(FiredDown(s, t, reason, g, k, script))
  {
    assert GenOk(s, g);
    var s' := FiredDown(s, t, reason, g, k, script);
    assert GenOk(s', g);
    CoreOneGen(s, s', g);
  }

  lemma CoreSpawn(s: Sys, t: nat)
    requires Inv(s) && t in s.conns && ConnNext(s, t, SpawnMonitor).Some?
    ensures CoreInv(ConnNext(s, t, SpawnMonitor).value)
  {
    var s' := ConnNext(s, t, SpawnMonitor).value;
    var g := s.conns[t].pc.g;
    assert LinkOk(s, t) && GenOk(s, g);
    assert GenOk(s', g);
    CoreOneGen(s, s', g);
  }

  lemma OtherActsKeepCore(s: Sys, t: nat, a: ConnAct)
    requires t in s.conns && ConnNext(s, t, a).Some?
    requires !a.Start? && !a.Stop? && !a.FireDown? && !a.SpawnMonitor?
    ensures var s' := ConnNext(s, t, a).value;
            && s'.gens == s.gens && s'.procs == s.procs && s'.holder == s.holder && s'.st.core == s.st.core
            && s'.now == s.now
  {
  }

  lemma CoreConn(s: Sys, t: nat, a: ConnAct)
    requires Inv(s) && t in s.conns && ConnNext(s, t, a).Some?
    ensures CoreInv(ConnNext(s, t, a).value)
  {
    var s' := ConnNext(s, t, a).value;
    var pc := s.conns[t].pc;
    match a {
      case Start(spawned) => CoreStart(s, t, spawned);
      case Stop => CoreMark(s, t, pc.reason);
      case FireDown(script) => CoreFireDown(s, t, pc.reason, pc.g, pc.k, script);
      case SpawnMonitor => CoreSpawn(s, t);
      case _ =>
        OtherActsKeepCore(s, t, a);
        CoreSame(s, s');
    }
  }

  /** The child of a generation that still polls holds its pid, so `try_wait` finds it. */
  lemma CoreWait(s: Sys, g: nat)
    requires CoreInv(s) && g < |s.gens| && s.gens[g].mon.Poll?
    ensures CoreInv(Waited(s, g))
  {
    var s' := Waited(s, g);
    var pid := s.gens[g].pid;
    assert GenOk(s, g);
    assert pid in s.procs && s.procs[pid].kind == Core(g);
    if s.procs[pid].alive {
      assert GenOk(s', g);
      CoreOneGen(s, s', g);
    } else {
      forall h: nat | h < |s'.gens| ensures GenOk(s', h) { assert GenOk(s, h); }
      forall p | p in s'.procs ensures ProcOk(s', p) { assert ProcOk(s, p); }
    }
  }

  lemma CoreExit(s: Sys, g: nat)
    requires CoreInv(s) && g < |s.gens| && s.gens[g].mon.Reaped? && s.holder == None
    ensures CoreInv(ExitHandled(s, g))
  {
    var s' := ExitHandled(s, g);
    assert GenOk(s, g);
    assert s'.st.core == Stopped;
    forall h: nat | h < |s'.gens| ensures GenOk(s', h) { assert GenOk(s, h); }
    forall p | p in s'.procs ensures ProcOk(s', p) { assert ProcOk(s, p); }
  }

  lemma NotLiveWhenStopped(s: Sys, g: nat)
    requires CoreInv(s) && s.st.core.Stopped? && g < |s.gens|
    ensures !Live(s.gens[g].mon)
  {
    assert GenOk(s, g);
  }

  lemma NoCoreWhenStopped(s: Sys, p: int)
    requires CoreInv(s) && s.st.core.Stopped? && p in s.procs
    ensures s.procs[p].kind == Other
  {
    assert ProcOk(s, p);
    match s.procs[p].kind {
      case Other =>
      case Core(g) => NotLiveWhenStopped(s, g);
    }
  }

  lemma CoreSweepKill(s: Sys, g: nat, targets: seq<int>, killed: nat, ok: bool)
    requires CoreInv(s) && g < |s.gens| && s.gens[g].mon == Sweeping(targets, killed) && targets != []
    requires SweepKilled(s, g, targets, killed, ok).Some?
    ensures CoreInv(SweepKilled(s, g, targets, killed, ok).value)
  {
    var s' := SweepKilled(s, g, targets, killed, ok).value;
    assert GenOk(s, g);
    // The lock is held, so `st.core` is Stopped, no generation is live, and no core is in the process table.
    if ok {
      assert ProcOk(s, targets[0]);
      NoCoreWhenStopped(s, targets[0]);
    }
    assert GenOk(s', g);
    CoreOneGen(s, s', g);
  }

  lemma CoreCheck(s: Sys, g: nat, a: MonAct)
    requires CoreInv(s) && g < |s.gens| && MonNext(s, g, a).Some? && a.CheckStop?
    ensures CoreInv(MonNext(s, g, a).value)
  {
    var s' := MonNext(s, g, a).value;
    assert GenOk(s, g);
    assert GenOk(s', g);
    CoreOneGen(s, s', g);
  }

  lemma CoreAct(s: Sys, g: nat, a: MonAct)
    requires CoreInv(s) && g < |s.gens| && MonNext(s, g, a).Some? && a.Act?
    ensures CoreInv(MonNext(s, g, a).value)
  {
    var s' := MonNext(s, g, a).value;
    assert GenOk(s, g);
    assert GenOk(s', g);
    CoreOneGen(s, s', g);
  }

  lemma CoreClock(s: Sys, g: nat, a: MonAct)
    requires CoreInv(s) && g < |s.gens| && MonNext(s, g, a).Some? && a.ReadClock?
    ensures CoreInv(MonNext(s, g, a).value)
  {
    var s' := MonNext(s, g, a).value;
    assert GenOk(s, g);
    assert GenOk(s', g);
    CoreOneGen(s, s', g);
  }

  lemma CoreKill(s: Sys, g: nat, a: MonAct)
    requires CoreInv(s) && g < |s.gens| && MonNext(s, g, a).Some? && a.Kill?
    ensures CoreInv(MonNext(s, g, a).value)
  {
    var s' := MonNext(s, g, a).value;
    assert GenOk(s, g);
    assert GenOk(s', g);
    CoreOneGen(s, s', g);
  }

  lemma CoreReport(s: Sys, g: nat, a: MonAct)
    requires CoreInv(s) && g < |s.gens| && MonNext(s, g, a).Some? && (a.WaitTimeout? || a.LookUpOwner?)
    ensures CoreInv(MonNext(s, g, a).value)
  {
    var s' := MonNext(s, g, a).value;
    assert GenOk(s, g);
    assert GenOk(s', g);
    CoreOneGen(s, s', g);
  }

  lemma CorePush(s: Sys, g: nat, a: MonAct)
    requires CoreInv(s) && g < |s.gens| && MonNext(s, g, a).Some? && a.Push?
    ensures CoreInv(MonNext(s, g, a).value)
  {
    var s' := MonNext(s, g, a).value;
    assert GenOk(s, g);
    assert GenOk(s', g);
    CoreOneGen(s, s', g);
  }

  lemma CoreFireHook(s: Sys, g: nat, a: MonAct)
    requires CoreInv(s) && g < |s.gens| && MonNext(s, g, a).Some? && a.FireHook?
    ensures CoreInv(MonNext(s, g, a).value)
  {
    var s' := MonNext(s, g, a).value;
    assert GenOk(s, g);
    assert GenOk(s', g);
    CoreOneGen(s, s', g);
  }

  lemma CoreLockSweep(s: Sys, g: nat, a: MonAct)
    requires CoreInv(s) && g < |s.gens| && MonNext(s, g, a).Some? && a.LockSweep?
    ensures CoreInv(MonNext(s, g, a).value)
  {
    var s' := MonNext(s, g, a).value;
    assert GenOk(s, g);
    assert GenOk(s', g);
    CoreOneGen(s, s', g);
  }

  lemma CoreEndSweep(s: Sys, g: nat, a: MonAct)
    requires CoreInv(s) && g < |s.gens| && MonNext(s, g, a).Some? && a.EndSweep?
    ensures CoreInv(MonNext(s, g, a).value)
  {
    var s' := MonNext(s, g, a).value;
    assert GenOk(s, g);
    assert GenOk(s', g);
    CoreOneGen(s, s', g);
  }

  lemma CoreMon(s: Sys, g: nat, a: MonAct)
    requires CoreInv(s) && g < |s.gens| && MonNext(s, g, a).Some?
    ensures CoreInv(MonNext(s, g, a).value)
  {
    var pc := s.gens[g].mon;
    match a {
      case TryWait => CoreWait(s, g);
      case HandleExit => CoreExit(s, g);
      case SweepNext(ok) => CoreSweepKill(s, g, pc.targets, pc.killed, ok);
      case CheckStop => CoreCheck(s, g, a);
      case Act => CoreAct(s, g, a);
      case ReadClock => CoreClock(s, g, a);
      case Kill => CoreKill(s, g, a);
      case Push(_, _) => CorePush(s, g, a);
      case FireHook(_) => CoreFireHook(s, g, a);
      case LockSweep(_) => CoreLockSweep(s, g, a);
      case EndSweep(_) => CoreEndSweep(s, g, a);
      case _ => CoreReport(s, g, a);
    }
  }

  lemma CoreStep(s: Sys, e: Event, s': Sys)
    requires Inv(s) && Next(s, e) == Some(s')
    ensures CoreInv(s')
  {
    match e {
      case OnConn(t, a) => CoreConn(s, t, a);
      case OnMon(g, a) => CoreMon(s, g, a);
      case ProcessStarts(_) =>
        forall g: nat | g < |s'.gens| ensures GenOk(s', g) { assert GenOk(s, g); }
        forall p | p in s'.procs ensures ProcOk(s', p) {
          if p in s.procs { assert ProcOk(s, p); }
        }
      case ProcessExits(_) =>
        forall g: nat | g < |s'.gens| ensures GenOk(s', g) { assert GenOk(s, g); }
        forall p | p in s'.procs ensures ProcOk(s', p) { assert ProcOk(s, p); }
      case ProcessReaped(_) =>
        forall g: nat | g < |s'.gens| ensures GenOk(s', g) { assert GenOk(s, g); }
        forall p | p in s'.procs ensures ProcOk(s', p) { assert ProcOk(s, p); }
      case _ => CoreSame(s, s');
    }
  }

  // ----- preservation of LeaseInv

  /** Nothing about the threads changes but what was written to them. */
  predicate ThreadsStand(s: Sys, s': Sys) {
    && s'.conns.Keys == s.conns.Keys
    && forall u :: u in s.conns ==> s'.conns[u] == s.conns[u].(lines := s'.conns[u].lines)
  }

  lemma MonKeepsThreads(s: Sys, g: nat, a: MonAct)
    requires g < |s.gens| && MonNext(s, g, a).Some?
    ensures var s' := MonNext(s, g, a).value;
            ThreadsStand(s, s') && s'.nextId == s.nextId && s'.st.owner == s.st.owner
  {
  }

  lemma LeaseSame(s: Sys, s': Sys)
    requires LeaseInv(s) && ThreadsStand(s, s') && s'.nextId == s.nextId && s'.st.owner == s.st.owner
    ensures LeaseInv(s')
  {
    forall t | t in s'.conns ensures LeaseOk(s', t) { assert LeaseOk(s, t); }
  }

  lemma IdIsFresh(s: Sys)
    requires LeaseInv(s)
    ensures s.nextId !in s.conns
  {
    assert s.nextId in s.conns ==> LeaseOk(s, s.nextId);
  }

  /** Every other thread stays where it is, with its flag as it was. */
  predicate OthersStay(s: Sys, s': Sys, t: nat) {
    && s'.conns.Keys == s.conns.Keys
    && forall u :: u in s.conns && u != t ==>
         s'.conns[u].pc == s.conns[u].pc && s'.conns[u].kicked == s.conns[u].kicked
  }

  /** From where `c` is, a move to `to` that leaves the lease alone. */
  predicate SameSide(c: Conn, to: ConnPc) {
    || (Settled(c.pc) && Settled(to))
    || (Settled(c.pc) && c.kicked && to.Gone?)
    || (!Settled(c.pc) && (TearingDown(to) || to.Gone?))
  }

  /** A thread moves without touching the lease: it stays on the same side of it. */
  lemma LeaseMove(s: Sys, s': Sys, t: nat)
    requires LeaseInv(s) && t in s.conns && OthersStay(s, s', t)
    requires s'.nextId == s.nextId && s'.st.owner == s.st.owner
    requires s'.conns[t].kicked == s.conns[t].kicked && SameSide(s.conns[t], s'.conns[t].pc)
    ensures LeaseInv(s')
  {
    forall u | u in s'.conns ensures LeaseOk(s', u) {
      assert LeaseOk(s, t);
      if u != t {
        assert LeaseOk(s, u);
      }
    }
  }

  lemma LeaseAcquired(s: Sys, t: nat, takeover: bool)
    requires LeaseInv(s) && t in s.conns && s.conns[t].pc == Leasing(takeover)
    ensures LeaseInv(Leased(s, t, takeover))
  {
    var s' := Leased(s, t, takeover);
    assert LeaseOk(s, t);
    if s.st.owner.Some? {
      assert LeaseOk(s, s.st.owner.value);
    }
    forall u | u in s'.conns ensures LeaseOk(s', u) { assert LeaseOk(s, u); }
  }

  lemma LeaseReleased(s: Sys, t: nat)
    requires LeaseInv(s) && t in s.conns && s.conns[t].pc.Releasing? && s.holder == None
    ensures LeaseInv(ConnNext(s, t, Release).value)
  {
    var s' := ConnNext(s, t, Release).value;
    assert LeaseOk(s, t);
    forall u | u in s'.conns ensures LeaseOk(s', u) { assert LeaseOk(s, u); }
  }

  predicate OfHandshake(a: ConnAct) {
    a.Decline? || a.Displace? || a.Unblock? || a.Snapshot? || a.Greet?
  }

  lemma HandshakeStands(s: Sys, t: nat, a: ConnAct)
    requires t in s.conns && ConnNext(s, t, a).Some? && OfHandshake(a)
    ensures var s' := ConnNext(s, t, a).value;
            OthersStay(s, s', t) && s'.conns[t].kicked == s.conns[t].kicked
  {
  }

  /** The actions of the command loop, but for those of `stop`. */
  predicate OfLoop(a: ConnAct) {
    a.Read? || a.Disconnect? || a.Start? || a.SpawnMonitor? || a.FireUp? || a.ReportState? || a.Reply?
  }

  predicate OfStop(a: ConnAct) {
    a.Stop? || a.Observe? || a.FireDown?
  }

  /** The actions after the loop. */
  predicate OfEnd(a: ConnAct) {
    a.LoadKicked? || a.Release? || a.List? || a.KillNext? || a.EndKilling? || a.JoinAndExit?
  }

  lemma LoopStands(s: Sys, t: nat, a: ConnAct)
    requires t in s.conns && ConnNext(s, t, a).Some? && OfLoop(a)
    ensures var s' := ConnNext(s, t, a).value;
            OthersStay(s, s', t) && s'.conns[t].kicked == s.conns[t].kicked
  {
  }

  lemma StopStands(s: Sys, t: nat, a: ConnAct)
    requires t in s.conns && ConnNext(s, t, a).Some? && OfStop(a)
    ensures var s' := ConnNext(s, t, a).value;
            OthersStay(s, s', t) && s'.conns[t].kicked == s.conns[t].kicked
  {
  }

  lemma LeaveStands(s: Sys, t: nat, a: ConnAct)
    requires t in s.conns && ConnNext(s, t, a).Some? && (a.LoadKicked? || a.Release? || a.List?)
    ensures var s' := ConnNext(s, t, a).value;
            OthersStay(s, s', t) && s'.conns[t].kicked == s.conns[t].kicked
  {
  }

  lemma SweepStands(s: Sys, t: nat, a: ConnAct)
    requires t in s.conns && ConnNext(s, t, a).Some? && (a.KillNext? || a.EndKilling? || a.JoinAndExit?)
    ensures var s' := ConnNext(s, t, a).value;
            OthersStay(s, s', t) && s'.conns[t].kicked == s.conns[t].kicked
  {
  }

  lemma EndStands(s: Sys, t: nat, a: ConnAct)
    requires t in s.conns && ConnNext(s, t, a).Some? && OfEnd(a)
    ensures var s' := ConnNext(s, t, a).value;
            OthersStay(s, s', t) && s'.conns[t].kicked == s.conns[t].kicked
  {
    if a.LoadKicked? || a.Release? || a.List? {
      LeaveStands(s, t, a);
    } else {
      SweepStands(s, t, a);
    }
  }

  lemma ActsStand(s: Sys, t: nat, a: ConnAct)
    requires t in s.conns && ConnNext(s, t, a).Some? && !a.Acquire?
    ensures var s' := ConnNext(s, t, a).value;
            OthersStay(s, s', t) && s'.conns[t].kicked == s.conns[t].kicked
  {
    if OfHandshake(a) {
      HandshakeStands(s, t, a);
    } else if OfLoop(a) {
      LoopStands(s, t, a);
    } else if OfStop(a) {
      StopStands(s, t, a);
    } else {
      EndStands(s, t, a);
    }
  }

  lemma AcquireKeepsPlaces(s: Sys, t: nat)
    requires t in s.conns && ConnNext(s, t, Acquire).Some?
    ensures var s' := ConnNext(s, t, Acquire).value;
            s'.conns.Keys == s.conns.Keys && forall u :: u in s.conns && u != t ==> s'.conns[u].pc == s.conns[u].pc
  {
  }

  lemma ActsKeepPlaces(s: Sys, t: nat, a: ConnAct)
    requires t in s.conns && ConnNext(s, t, a).Some?
    ensures var s' := ConnNext(s, t, a).value;
            s'.conns.Keys == s.conns.Keys && forall u :: u in s.conns && u != t ==> s'.conns[u].pc == s.conns[u].pc
  {
    if a.Acquire? {
      AcquireKeepsPlaces(s, t);
    } else {
      ActsStand(s, t, a);
    }
  }

  lemma ActsKeepOwner(s: Sys, t: nat, a: ConnAct)
    requires t in s.conns && ConnNext(s, t, a).Some? && !a.Acquire? && !a.Release?
    ensures var s' := ConnNext(s, t, a).value; s'.nextId == s.nextId && s'.st.owner == s.st.owner
  {
  }

  lemma HandshakeKeepsSide(s: Sys, t: nat, a: ConnAct)
    requires t in s.conns && ConnNext(s, t, a).Some? && LeaseOk(s, t) && OfHandshake(a)
    ensures t in ConnNext(s, t, a).value.conns && SameSide(s.conns[t], ConnNext(s, t, a).value.conns[t].pc)
  {
  }

  lemma StopKeepsSide(s: Sys, t: nat, a: ConnAct)
    requires t in s.conns && ConnNext(s, t, a).Some? && LeaseOk(s, t) && OfStop(a)
    ensures t in ConnNext(s, t, a).value.conns && SameSide(s.conns[t], ConnNext(s, t, a).value.conns[t].pc)
  {
  }

  lemma ServingKeepsSide(s: Sys, t: nat, a: ConnAct)
    requires t in s.conns && ConnNext(s, t, a).Some? && LeaseOk(s, t) && OfLoop(a)
    ensures t in ConnNext(s, t, a).value.conns && SameSide(s.conns[t], ConnNext(s, t, a).value.conns[t].pc)
  {
  }

  lemma EndKeepsSide(s: Sys, t: nat, a: ConnAct)
    requires t in s.conns && ConnNext(s, t, a).Some? && LeaseOk(s, t) && OfEnd(a) && !a.Release?
    ensures t in ConnNext(s, t, a).value.conns && SameSide(s.conns[t], ConnNext(s, t, a).value.conns[t].pc)
  {
  }

  lemma LeaseStep(s: Sys, e: Event, s': Sys)
    requires LeaseInv(s) && Next(s, e) == Some(s')
    ensures LeaseInv(s')
  {
    match e {
      case Arrive(_) =>
        forall t | t in s'.conns ensures LeaseOk(s', t) {
          if t in s.conns {
            assert LeaseOk(s, t);
          } else if s.st.owner.Some? {
            assert LeaseOk(s, s.st.owner.value);
          }
        }
      case OnConn(t, a) =>
        if a.Acquire? {
          LeaseAcquired(s, t, s.conns[t].pc.takeover);
        } else if a.Release? {
          LeaseReleased(s, t);
        } else {
          assert LeaseOk(s, t);
          ActsKeepOwner(s, t, a);
          ActsStand(s, t, a);
          if OfHandshake(a) {
            HandshakeKeepsSide(s, t, a);
          } else if OfStop(a) {
            StopKeepsSide(s, t, a);
          } else if OfLoop(a) {
            ServingKeepsSide(s, t, a);
          } else {
            EndKeepsSide(s, t, a);
          }
          LeaseMove(s, s', t);
        }
      case OnMon(g, a) =>
        MonKeepsThreads(s, g, a);
        LeaseSame(s, s');
      case _ => LeaseSame(s, s');
    }
  }

  // ----- preservation of LinkInv

  predicate HooksExtend(s: Sys, s': Sys) {
    && |s.hooks| <= |s'.hooks|
    && forall h :: 0 <= h < |s.hooks| ==>
         s'.hooks[h] == s.hooks[h].(finished := s'.hooks[h].finished)
  }

  /** The records of the generations keep what the threads rely on. */
  ghost predicate GensKeep(s: Sys, s': Sys) {
    && |s.gens| <= |s'.gens|
    && forall g :: 0 <= g < |s.gens| ==>
         && s'.gens[g].starter == s.gens[g].starter
         && (s'.gens[g].mon.Unspawned? <==> s.gens[g].mon.Unspawned?)
         && (Live(s'.gens[g].mon) ==> Live(s.gens[g].mon))
         && s'.gens[g].marks == s.gens[g].marks
  }

  /** Threads do not move; or one does, between places where it owes nothing. */
  lemma LinkSameThreads(s: Sys, s': Sys)
    requires LinkInv(s) && GensKeep(s, s') && |s'.gens| == |s.gens| && HooksExtend(s, s')
    requires ThreadsStand(s, s')
    ensures LinkInv(s')
  {
    forall t | t in s'.conns ensures LinkOk(s', t) { assert LinkOk(s, t); }
    forall g: nat | g < |s'.gens| ensures OwedOk(s', g) { assert OwedOk(s, g); }
  }

  predicate Owes(pc: ConnPc) {
    pc.SpawnedCore? || pc.Waiting? || pc.FiringDown?
  }

  lemma LinkMove(s: Sys, s': Sys, t: nat)
    requires LinkInv(s) && s'.gens == s.gens && HooksExtend(s, s')
    requires t in s'.conns && s'.conns == s.conns[t := s'.conns[t]]
    requires t in s.conns ==> !Owes(s.conns[t].pc)
    requires !Owes(s'.conns[t].pc) && LinkOk(s', t)
    ensures LinkInv(s')
  {
    forall u | u in s'.conns ensures LinkOk(s', u) {
      if u != t {
        assert LinkOk(s, u);
      }
    }
    forall g: nat | g < |s'.gens| ensures OwedOk(s', g) { assert OwedOk(s, g); }
  }

  /** The other threads stay in place, and `t` moves between places where it owes nothing. */
  lemma LinkKick(s: Sys, s': Sys, t: nat)
    requires LinkInv(s) && s'.gens == s.gens && HooksExtend(s, s') && s'.conns.Keys == s.conns.Keys
    requires t in s.conns && !Owes(s.conns[t].pc) && !Owes(s'.conns[t].pc) && LinkOk(s', t)
    requires forall u :: u in s.conns && u != t ==> s'.conns[u].pc == s.conns[u].pc
    ensures LinkInv(s')
  {
    forall u | u in s'.conns ensures LinkOk(s', u) {
      if u != t {
        assert LinkOk(s, u);
      }
    }
    forall g: nat | g < |s'.gens| ensures OwedOk(s', g) { assert OwedOk(s, g); }
  }

  lemma LinkLease(s: Sys, t: nat, takeover: bool)
    requires Inv(s) && t in s.conns && s.conns[t].pc.Leasing?
    ensures LinkInv(Leased(s, t, takeover))
  {
    LinkKick(s, Leased(s, t, takeover), t);
  }

  lemma LinkNewGen(s: Sys, s': Sys, t: nat, G: Gen)
    requires LinkInv(s) && t in s.conns && !Owes(s.conns[t].pc)
    requires s'.gens == s.gens + [G] && G.mon.Unspawned? && G.starter == t && G.marks == []
    requires t in s'.conns && s'.conns == s.conns[t := s'.conns[t]] && s'.conns[t].pc == SpawnedCore(|s.gens|)
    requires s'.hooks == s.hooks
    ensures LinkInv(s')
  {
    forall u | u in s'.conns ensures LinkOk(s', u) {
      if u != t {
        assert LinkOk(s, u);
      }
    }
    forall g: nat | g < |s'.gens| ensures OwedOk(s', g) {
      if g < |s.gens| {
        assert OwedOk(s, g);
      }
    }
  }

  lemma LinkStart(s: Sys, t: nat, spawned: Option<(Messages.I32, Messages.U16)>)
    requires LinkInv(s) && t in s.conns && s.conns[t].pc.Starting?
    ensures LinkInv(StartedCore(s, t, spawned))
  {
    var s' := StartedCore(s, t, spawned);
    if s.st.core.Running? || spawned.None? {
      LinkMove(s, s', t);
    } else {
      LinkNewGen(s, s', t, s'.gens[|s.gens|]);
    }
  }

  lemma LinkSpawn(s: Sys, t: nat)
    requires LinkInv(s) && t in s.conns && s.conns[t].pc.SpawnedCore? && ConnNext(s, t, SpawnMonitor).Some?
    ensures LinkInv(ConnNext(s, t, SpawnMonitor).value)
  {
    var s' := ConnNext(s, t, SpawnMonitor).value;
    var g := s.conns[t].pc.g;
    assert LinkOk(s, t);
    forall u | u in s'.conns ensures LinkOk(s', u) { assert LinkOk(s, u); }
    forall h: nat | h < |s'.gens| ensures OwedOk(s', h) { assert OwedOk(s, h); }
  }

  lemma LinkNewMark(s: Sys, s': Sys, t: nat, g: nat, reason: Reason)
    requires LinkInv(s) && t in s.conns && !Owes(s.conns[t].pc) && g < |s.gens| && Live(s.gens[g].mon)
    requires var G := s.gens[g]; s'.gens == s.gens[g := G.(marks := G.marks + [Mark(t, s.now, 0)])]
    requires t in s'.conns && s'.conns == s.conns[t := s'.conns[t]]
    requires s'.conns[t].pc == Waiting(reason, g, |s.gens[g].marks|)
    requires s'.hooks == s.hooks
    ensures LinkInv(s')
  {
    forall u | u in s'.conns ensures LinkOk(s', u) {
      if u != t {
        assert LinkOk(s, u);
      }
    }
    forall h: nat | h < |s'.gens| ensures OwedOk(s', h) { assert OwedOk(s, h); }
  }

  lemma LinkMark(s: Sys, t: nat, reason: Reason)
    requires Inv(s) && t in s.conns && s.conns[t].pc.Stopping?
    ensures LinkInv(Marked(s, t, reason))
  {
    var s' := Marked(s, t, reason);
    if s.st.core.Running? {
      var g: nat := |s.gens| - 1;
      assert GenOk(s, g);
      LinkNewMark(s, s', t, g, reason);
    } else {
      LinkMove(s, s', t);
    }
  }

  /** A waiting `stop` that sees Stopped knows that the generation it marked is reaped. */
  lemma LinkObserve(s: Sys, t: nat)
    requires Inv(s) && t in s.conns && s.conns[t].pc.Waiting? && s.st.core.Stopped?
    ensures var pc := s.conns[t].pc; LinkInv(SetPc(s, t, FiringDown(pc.reason, pc.g, pc.k)))
  {
    var pc := s.conns[t].pc;
    var s' := SetPc(s, t, FiringDown(pc.reason, pc.g, pc.k));
    assert LinkOk(s, t);
    assert GenOk(s, pc.g);
    forall u | u in s'.conns ensures LinkOk(s', u) { assert LinkOk(s, u); }
    forall g: nat | g < |s'.gens| ensures OwedOk(s', g) { assert OwedOk(s, g); }
  }

  lemma LinkMarkServed(s: Sys, s': Sys, t: nat, g: nat, k: nat)
    requires LinkInv(s) && t in s.conns && s.conns[t].pc.FiringDown? && s.conns[t].pc.g == g && s.conns[t].pc.k == k
    requires MarkAt(s, t, g, k) && !Live(s.gens[g].mon)
    requires var G := s.gens[g]; s'.gens == s.gens[g := G.(marks := G.marks[k := G.marks[k].(downs := 1)])]
    requires t in s'.conns && s'.conns == s.conns[t := s'.conns[t]] && !Owes(s'.conns[t].pc) && LinkOk(s', t)
    requires HooksExtend(s, s')
    ensures LinkInv(s')
  {
    forall u | u in s'.conns ensures LinkOk(s', u) {
      if u != t {
        assert LinkOk(s, u);
      }
    }
    forall h: nat | h < |s'.gens| ensures OwedOk(s', h) { assert OwedOk(s, h); }
  }

  lemma LinkFireDown(s: Sys, t: nat, script: bool)
    requires LinkInv(s) && t in s.conns && s.conns[t].pc.FiringDown?
    requires LinkOk(s, t)
    ensures var pc := s.conns[t].pc; LinkInv(FiredDown(s, t, pc.reason, pc.g, pc.k, script))
  {
    var pc := s.conns[t].pc;
    LinkMarkServed(s, FiredDown(s, t, pc.reason, pc.g, pc.k, script), t, pc.g, pc.k);
  }

  lemma LinkServe(s: Sys, t: nat, a: ConnAct)
    requires LinkInv(s) && t in s.conns && ConnNext(s, t, a).Some?
    requires a.Read? || a.Disconnect? || a.FireUp? || a.ReportState? || a.Reply?
    ensures LinkInv(ConnNext(s, t, a).value)
  {
    assert LinkOk(s, t);
    LinkKick(s, ConnNext(s, t, a).value, t);
  }

  lemma LinkGreet(s: Sys, t: nat, a: ConnAct)
    requires LinkInv(s) && t in s.conns && ConnNext(s, t, a).Some? && OfHandshake(a)
    ensures LinkInv(ConnNext(s, t, a).value)
  {
    assert LinkOk(s, t);
    LinkKick(s, ConnNext(s, t, a).value, t);
  }

  lemma LinkLeave(s: Sys, t: nat, a: ConnAct)
    requires LinkInv(s) && t in s.conns && ConnNext(s, t, a).Some? && (a.LoadKicked? || a.Release? || a.List?)
    ensures LinkInv(ConnNext(s, t, a).value)
  {
    assert LinkOk(s, t);
    LinkMove(s, ConnNext(s, t, a).value, t);
  }

  lemma LinkEnd(s: Sys, t: nat, a: ConnAct)
    requires LinkInv(s) && t in s.conns && ConnNext(s, t, a).Some? && (a.KillNext? || a.EndKilling? || a.JoinAndExit?)
    ensures LinkInv(ConnNext(s, t, a).value)
  {
    assert LinkOk(s, t);
    LinkMove(s, ConnNext(s, t, a).value, t);
  }

  lemma LinkConn(s: Sys, t: nat, a: ConnAct)
    requires Inv(s) && t in s.conns && ConnNext(s, t, a).Some?
    ensures LinkInv(ConnNext(s, t, a).value)
  {
    assert LinkOk(s, t);
    var pc := s.conns[t].pc;
    if a.LoadKicked? || a.Release? || a.List? {
      LinkLeave(s, t, a);
    } else if a.KillNext? || a.EndKilling? || a.JoinAndExit? {
      LinkEnd(s, t, a);
    } else if OfHandshake(a) {
      LinkGreet(s, t, a);
    } else {
      match a {
        case Acquire => LinkLease(s, t, pc.takeover);
        case Start(spawned) => LinkStart(s, t, spawned);
        case SpawnMonitor => LinkSpawn(s, t);
        case Stop => LinkMark(s, t, pc.reason);
        case Observe =>
          if s.st.core.Stopped? {
            LinkObserve(s, t);
          }
        case FireDown(script) => LinkFireDown(s, t, script);
        case _ => LinkServe(s, t, a);
      }
    }
  }

  /** One generation's record changes, not its marks. */
  lemma GensKeepOne(s: Sys, s': Sys, g: nat)
    requires g < |s.gens| && |s'.gens| == |s.gens| && s'.gens == s.gens[g := s'.gens[g]]
    requires s'.gens[g].starter == s.gens[g].starter && s'.gens[g].marks == s.gens[g].marks
    requires (s'.gens[g].mon.Unspawned? <==> s.gens[g].mon.Unspawned?)
             && (Live(s'.gens[g].mon) ==> Live(s.gens[g].mon))
    ensures GensKeep(s, s')
  {
  }

  lemma MonKeepsMarks(s: Sys, g: nat, a: MonAct)
    requires g < |s.gens| && MonNext(s, g, a).Some?
    ensures var s' := MonNext(s, g, a).value; GensKeep(s, s') && |s'.gens| == |s.gens|
  {
    GensKeepOne(s, MonNext(s, g, a).value, g);
  }

  lemma LinkStep(s: Sys, e: Event, s': Sys)
    requires Inv(s) && Next(s, e) == Some(s')
    ensures LinkInv(s')
  {
    match e {
      case Arrive(_) =>
        IdIsFresh(s);
        LinkMove(s, s', s.nextId);
      case OnConn(t, a) => LinkConn(s, t, a);
      case OnMon(g, a) =>
        MonKeepsThreads(s, g, a);
        MonKeepsMarks(s, g, a);
        MonKeepsHooks(s, g, a);
        LinkSameThreads(s, s');
      case _ => LinkSameThreads(s, s');
    }
  }

  // ----- preservation of DropInv

  /** No thread gives up its hook, and no new hook is a departed owner's. */
  lemma DropKeeps(s: Sys, s': Sys)
    requires DropInv(s) && HooksExtend(s, s')
    requires forall u :: u in s.conns ==> u in s'.conns && KeepsHook(s.conns[u].pc, s'.conns[u].pc)
    requires forall h :: |s.hooks| <= h < |s'.hooks| ==> s'.hooks[h].reason != Some(OwnerDrop)
    ensures DropInv(s')
  {
    forall h: nat | h < |s'.hooks| ensures DropOk(s', h) {
      if h < |s.hooks| {
        assert DropOk(s, h);
      }
    }
  }

  predicate KeepsHook(from: ConnPc, to: ConnPc) {
    OwnHook(from).Some? ==> OwnHook(to) == OwnHook(from)
  }

  lemma DropFireDown(s: Sys, t: nat, script: bool)
    requires DropInv(s) && t in s.conns && s.conns[t].pc.FiringDown? && ConnNext(s, t, FireDown(script)).Some?
    ensures DropInv(ConnNext(s, t, FireDown(script)).value)
  {
    var s' := ConnNext(s, t, FireDown(script)).value;
    forall h: nat | h < |s'.hooks| ensures DropOk(s', h) {
      if h < |s.hooks| {
        assert DropOk(s, h);
      }
    }
  }

  lemma ActsFireNothing(s: Sys, t: nat, a: ConnAct)
    requires t in s.conns && ConnNext(s, t, a).Some? && !a.FireUp? && !a.FireDown? && !a.EndKilling?
    ensures ConnNext(s, t, a).value.hooks == s.hooks
  {
  }

  lemma ActsExtendHooks(s: Sys, t: nat, a: ConnAct)
    requires t in s.conns && ConnNext(s, t, a).Some? && !a.FireDown?
    ensures var s' := ConnNext(s, t, a).value;
            && HooksExtend(s, s')
            && forall h :: |s.hooks| <= h < |s'.hooks| ==> s'.hooks[h].reason != Some(OwnerDrop)
  {
    if !a.FireUp? && !a.EndKilling? {
      ActsFireNothing(s, t, a);
    }
  }

  lemma ActsKeepOwnHook(s: Sys, t: nat, a: ConnAct)
    requires t in s.conns && ConnNext(s, t, a).Some? && !a.FireDown? && !a.Acquire?
    ensures var s' := ConnNext(s, t, a).value; t in s'.conns && KeepsHook(s.conns[t].pc, s'.conns[t].pc)
  {
  }

  lemma MonKeepsHooks(s: Sys, g: nat, a: MonAct)
    requires g < |s.gens| && MonNext(s, g, a).Some?
    ensures var s' := MonNext(s, g, a).value;
            && HooksExtend(s, s')
            && forall h :: |s.hooks| <= h < |s'.hooks| ==> s'.hooks[h].reason != Some(OwnerDrop)
  {
  }

  lemma DropStep(s: Sys, e: Event, s': Sys)
    requires LeaseInv(s) && DropInv(s) && Next(s, e) == Some(s')
    ensures DropInv(s')
  {
    match e {
      case Arrive(_) =>
        IdIsFresh(s);
        DropKeeps(s, s');
      case OnConn(t, a) =>
        if a.FireDown? {
          DropFireDown(s, t, a.script);
        } else {
          ActsExtendHooks(s, t, a);
          if !a.Acquire? {
            ActsKeepOwnHook(s, t, a);
          }
          ActsKeepPlaces(s, t, a);
          DropKeeps(s, s');
        }
      case OnMon(g, a) =>
        MonKeepsThreads(s, g, a);
        MonKeepsHooks(s, g, a);
        DropKeeps(s, s');
      case _ => DropKeeps(s, s');
    }
  }

  // ----- preservation of TimerInv

  lemma ConnKeepsTimer(s: Sys, t: nat, a: ConnAct)
    requires t in s.conns && ConnNext(s, t, a).Some?
    ensures ConnNext(s, t, a).value.timer == s.timer && ConnNext(s, t, a).value.now == s.now
  {
  }

  lemma MonKeepsTimer(s: Sys, g: nat, a: MonAct)
    requires g < |s.gens| && MonNext(s, g, a).Some?
    ensures MonNext(s, g, a).value.timer == s.timer && MonNext(s, g, a).value.now == s.now
  {
  }

  lemma TimerStep(s: Sys, e: Event, s': Sys)
    requires TimerInv(s) && Next(s, e) == Some(s')
    ensures TimerInv(s')
  {
    match e {
      case OnConn(t, a) => ConnKeepsTimer(s, t, a);
      case OnMon(g, a) => MonKeepsTimer(s, g, a);
      case _ =>
    }
  }

  // ----- the invariant holds in every reachable state

  lemma InvStep(s: Sys, e: Event, s': Sys)
    requires Inv(s) && Next(s, e) == Some(s')
    ensures Inv(s')
  {
    CoreStep(s, e, s');
    LeaseStep(s, e, s');
    LinkStep(s, e, s');
    DropStep(s, e, s');
    TimerStep(s, e, s');
  }

  lemma {:induction false} InvRun(s: Sys, es: seq<Event>)
    requires Inv(s) && Exec(s, es).Some?
    ensures Inv(Exec(s, es).value)
    decreases |es|
  {
    if es != [] {
      InvStep(s, es[0], Next(s, es[0]).value);
      InvRun(Next(s, es[0]).value, es[1..]);
    }
  }

  /** `s` is the state after some run from some initial state. */
  ghost predicate Reachable(s: Sys) {
    exists s0, es :: Init(s0) && Exec(s0, es) == Some(s)
  }

  lemma InvReachable(s: Sys)
    requires Reachable(s)
    ensures Inv(s)
  {
    var s0, es :| Init(s0) && Exec(s0, es) == Some(s);
    forall p | p in s0.procs ensures ProcOk(s0, p) { assert s0.procs[p].kind == Other; }
    InvRun(s0, es);
  }

  lemma StaysReachable(s: Sys, e: Event)
    requires Reachable(s) && Next(s, e).Some?
    ensures Reachable(Next(s, e).value)
  {
    var s0, es :| Init(s0) && Exec(s0, es) == Some(s);
    ExecThen(s0, es, [e]);
    ExecOne(s, e);
  }
}
