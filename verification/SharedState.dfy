/**
 * The supervisor's shared state as the source has it: an object whose critical sections update its fields. The
 * ghost field `sys` is the machine of module `Supervisor`; `Valid` ties the object to it and has it reachable, so
 * that what holds of every run holds of the object. Each method makes one step of the machine.
 */
module SharedState {
  import opened Text
  import Messages
  import opened Supervisor
  import opened SupervisorInvariant
  import opened SupervisorTheorems
  import SupervisorRefinement

  /** The flag that tells a connection thread that it was replaced. */
  class Flag {
    var raised: bool

    constructor ()
      ensures !raised
    {
      raised := false;
    }
  }

  class OwnerSlot {
    const id: nat
    const kicked: Flag

    constructor (id: nat, kicked: Flag)
      ensures this.id == id && this.kicked == kicked
    {
      this.id := id;
      this.kicked := kicked;
    }
  }

  /** The steps that are sections on the state, or make a thread. */
  predicate IsSection(e: Event) {
    match e
    case Arrive(_) => true
    case OnConn(_, a) => a.Acquire? || a.Release? || a.Start? || a.Stop?
    case OnMon(_, a) => a.CheckStop? || a.HandleExit?
    case _ => false
  }

  lemma MonKeepsState(s: Sys, g: nat, a: MonAct)
    requires g < |s.gens| && MonNext(s, g, a).Some? && !a.HandleExit?
    ensures MonNext(s, g, a).value.st.core == s.st.core
  {
  }

  predicate SameFlags(s: Sys, s': Sys) {
    s'.conns.Keys == s.conns.Keys && forall t :: t in s.conns ==> s'.conns[t].kicked == s.conns[t].kicked
  }

  /** Every other step leaves the state and the flags alone. */
  lemma OtherStepsKeepState(s: Sys, e: Event)
    requires Next(s, e).Some? && !IsSection(e)
    ensures Next(s, e).value.st == s.st && Next(s, e).value.nextId == s.nextId && SameFlags(s, Next(s, e).value)
  {
    match e {
      case OnConn(t, a) =>
        ActsStand(s, t, a);
        ActsKeepOwner(s, t, a);
        if a.SpawnMonitor? || a.FireDown? {
          SupervisorRefinement.HistoryIsSilent(s, t, a);
        } else {
          OtherActsKeepCore(s, t, a);
        }
      case OnMon(g, a) =>
        MonKeepsThreads(s, g, a);
        MonKeepsState(s, g, a);
      case _ =>
    }
  }

  // ----- what the sections do to the state and the flags

  ghost predicate AfterHello(s: Sys, id: nat, takeover: bool, s': Sys) {
    && Reachable(s') && s.st.owner != Some(id)
    && s'.st == LeaseSection(s.st, id, takeover) && s'.nextId == s.nextId && s'.conns.Keys == s.conns.Keys
    && forall u :: u in s.conns ==> s'.conns[u].kicked == (s.conns[u].kicked || (takeover && s.st.owner == Some(u)))
  }

  lemma HelloStep(s: Sys, id: nat, takeover: bool) returns (s': Sys)
    requires Reachable(s) && Next(s, OnConn(id, Acquire)).Some? && s.conns[id].pc == Leasing(takeover)
    ensures Next(s, OnConn(id, Acquire)) == Some(s') && AfterHello(s, id, takeover, s')
  {
    InvReachable(s);
    assert LeaseOk(s, id);
    StaysReachable(s, OnConn(id, Acquire));
    s' := Next(s, OnConn(id, Acquire)).value;
  }

  lemma ReleaseStep(s: Sys, id: nat) returns (s': Sys)
    requires Reachable(s) && Next(s, OnConn(id, Release)).Some?
    ensures Next(s, OnConn(id, Release)) == Some(s') && Reachable(s')
    ensures s'.st == ReleaseSection(s.st, id) && s'.nextId == s.nextId && SameFlags(s, s')
    ensures s.st.owner == Some(id) <==> !s.conns[id].kicked
  {
    InvReachable(s);
    assert LeaseOk(s, id);
    StaysReachable(s, OnConn(id, Release));
    EndStands(s, id, Release);
    s' := Next(s, OnConn(id, Release)).value;
  }

  lemma StartStep(s: Sys, t: nat, spawned: Option<(Messages.I32, Messages.U16)>) returns (s': Sys)
    requires Reachable(s) && Next(s, OnConn(t, Start(spawned))).Some?
    ensures Next(s, OnConn(t, Start(spawned))) == Some(s') && Reachable(s')
    ensures s'.st == StartSection(s.st, spawned) && s'.nextId == s.nextId && SameFlags(s, s')
    ensures |s'.gens| == |s.gens| + (if s.st.core.Stopped? && spawned.Some? then 1 else 0)
  {
    StaysReachable(s, OnConn(t, Start(spawned)));
    LoopStands(s, t, Start(spawned));
    ActsKeepOwner(s, t, Start(spawned));
    s' := Next(s, OnConn(t, Start(spawned))).value;
  }

  lemma StopStep(s: Sys, t: nat) returns (s': Sys)
    requires Reachable(s) && Next(s, OnConn(t, Stop)).Some?
    ensures Next(s, OnConn(t, Stop)) == Some(s') && Reachable(s')
    ensures s'.st == MarkSection(s.st) && s'.nextId == s.nextId && SameFlags(s, s')
    ensures s.st.core.Running? ==> MarksLast(s', t)
  {
    InvReachable(s);
    StaysReachable(s, OnConn(t, Stop));
    StopStands(s, t, Stop);
    ActsKeepOwner(s, t, Stop);
    s' := Next(s, OnConn(t, Stop)).value;
    if s.st.core.Running? {
      assert GenOk(s, |s.gens| - 1);
    }
  }

  /** Thread `t` waits for the last generation, which is up. */
  predicate MarksLast(s: Sys, t: nat) {
    && t in s.conns && s.conns[t].pc.Waiting? && s.conns[t].pc.g == |s.gens| - 1
    && Live(s.gens[|s.gens| - 1].mon)
  }

  class Shared {
    var owner: OwnerSlot?
    var core: CoreProc
    var nextId: nat

    ghost var sys: Sys
    ghost var flags: map<nat, Flag>                   // the flag of each connection thread

    ghost function View(): State
      reads this
    {
      State(if owner == null then None else Some(owner.id), core)
    }

    ghost predicate Valid()
      reads this, flags.Values
    {
      && View() == sys.st && nextId == sys.nextId && Reachable(sys)
      && flags.Keys == sys.conns.Keys
      && (forall t :: t in flags ==> flags[t].raised == sys.conns[t].kicked)
      && (forall t, u :: t in flags && u in flags && t != u ==> flags[t] != flags[u])
      && (owner != null ==> owner.id in flags && owner.kicked == flags[owner.id])
    }

    constructor (cfg: Config)
      ensures Valid() && Init(sys) && sys.cfg == cfg
    {
      owner, core, nextId := null, Stopped, 1;
      flags := map[];
      sys := Sys(cfg, 0, State(None, Stopped), None, map[], [], map[], 1, [], Armed, NotExited);
      new;
      assert Exec(sys, []) == Some(sys);
    }

    /** Any step that is not a section. */
    ghost method Happens(e: Event)
      requires Valid() && Next(sys, e).Some? && !IsSection(e)
      modifies this`sys
      ensures Valid() && Next(old(sys), e) == Some(sys)
    {
      OtherStepsKeepState(sys, e);
      StaysReachable(sys, e);
      sys := Next(sys, e).value;
    }

    /** A hello was accepted: its thread gets an id and a flag. */
    method Arrived(takeover: bool) returns (id: nat, kicked: Flag)
      requires Valid() && sys.exit == NotExited
      modifies this
      ensures Valid() && Next(old(sys), Arrive(takeover)) == Some(sys)
      ensures id == old(nextId) && id !in old(sys).conns && fresh(kicked) && flags == old(flags)[id := kicked]
    {
      InvReachable(sys);
      IdIsFresh(sys);
      StaysReachable(sys, Arrive(takeover));
      id := nextId;
      nextId := nextId + 1;
      kicked := new Flag();
      flags := flags[id := kicked];
      sys := Next(sys, Arrive(takeover)).value;
    }

    /**
     * The lease section of a hello. A takeover raises the flag of the owner it displaces and hands that slot back;
     * a refused hello changes nothing.
     */
    method AcquireLease(id: nat, takeover: bool, kicked: Flag)
      returns (lease: Lease, displaced: OwnerSlot?)
      requires Valid() && Next(sys, OnConn(id, Acquire)).Some?
      requires sys.conns[id].pc == Leasing(takeover) && flags[id] == kicked
      modifies this`owner, this`sys, if owner != null then {owner.kicked} else {}
      ensures Valid() && Next(old(sys), OnConn(id, Acquire)) == Some(sys)
      ensures lease == LeaseDecision(old(owner) != null, takeover)
      ensures displaced == if lease.Takeover? then old(owner) else null
      ensures lease.Takeover? ==> old(owner).kicked.raised && old(owner).kicked != kicked
      ensures if lease.Busy? then owner == old(owner) else owner != null && owner.id == id && owner.kicked == kicked
    {
      ghost var after := HelloStep(sys, id, takeover);
      displaced := null;
      lease := LeaseDecision(owner != null, takeover);
      match lease {
        case Busy => sys := after;
        case Takeover => displaced := TakeOver(id, kicked, after);
        case Accept => Accepted(id, takeover, kicked, after);
      }
    }

    method Accepted(id: nat, ghost takeover: bool, kicked: Flag, ghost after: Sys)
      requires Valid() && owner == null && id in flags && flags[id] == kicked && AfterHello(sys, id, takeover, after)
      modifies this`owner, this`sys
      ensures Valid() && sys == after
      ensures owner != null && owner.id == id && owner.kicked == kicked
    {
      owner := new OwnerSlot(id, kicked);
      sys := after;
    }

    method TakeOver(id: nat, kicked: Flag, ghost after: Sys) returns (displaced: OwnerSlot)
      requires Valid() && owner != null && id in flags && flags[id] == kicked && AfterHello(sys, id, true, after)
      modifies this`owner, this`sys, owner.kicked
      ensures Valid() && sys == after
      ensures displaced == old(owner) && displaced.kicked.raised && displaced.kicked != kicked
      ensures owner != null && owner.id == id && owner.kicked == kicked
    {
      displaced := owner;
      displaced.kicked.raised := true;
      owner := new OwnerSlot(id, kicked);
      sys := after;
    }

    /** A thread that found its flag down gives the slot up, unless it was replaced since. */
    method ReleaseLease(id: nat)
      requires Valid() && Next(sys, OnConn(id, Release)).Some?
      modifies this`owner, this`sys
      ensures Valid() && Next(old(sys), OnConn(id, Release)) == Some(sys)
      ensures owner == if flags[id].raised then old(owner) else null
    {
      sys := ReleaseStep(sys, id);
      if owner != null && owner.id == id {
        owner := null;
      }
    }

    /** The section of `start`: `spawned` is what a spawn attempt yields. The reply is the core's pid and port. */
    method Start(ghost t: nat, spawned: Option<(Messages.I32, Messages.U16)>)
      returns (reply: Option<(Messages.I32, Messages.U16)>, isNew: bool)
      requires Valid() && Next(sys, OnConn(t, Supervisor.Start(spawned))).Some?
      modifies this`core, this`sys
      ensures Valid() && Next(old(sys), OnConn(t, Supervisor.Start(spawned))) == Some(sys)
      ensures reply == if core.Running? then Some((core.pid, core.port)) else None
      ensures isNew <==> |sys.gens| == |old(sys).gens| + 1
    {
      sys := StartStep(sys, t, spawned);
      if core.Running? {
        return Some((core.pid, core.port)), false;
      }
      if spawned.None? {
        return None, false;
      }
      var (pid, port) := spawned.value;
      core := Running(pid, port, false);
      return Some((pid, port)), true;
    }

    /** The first section of `stop`: with a core up, the generation that is up gets the mark. */
    method MarkStop(ghost t: nat) returns (wasRunning: bool)
      requires Valid() && Next(sys, OnConn(t, Stop)).Some?
      modifies this`core, this`sys
      ensures Valid() && Next(old(sys), OnConn(t, Stop)) == Some(sys)
      ensures wasRunning <==> old(core).Running?
      ensures wasRunning ==> core == old(core).(stopRequested := true) && MarksLast(sys, t)
    {
      sys := StopStep(sys, t);
      match core {
        case Running(pid, port, _) =>
          core := Running(pid, port, true);
          return true;
        case Stopped =>
          return false;
      }
    }

    /** The monitor's look at the stop flag: it reads whether its own generation was marked. */
    method StopRequested(ghost g: nat, pid: int) returns (stop: bool)
      requires Valid() && Next(sys, OnMon(g, CheckStop)).Some? && sys.gens[g].pid == pid
      modifies this`sys
      ensures Valid() && Next(old(sys), OnMon(g, CheckStop)) == Some(sys)
      ensures stop <==> old(sys).gens[g].marks != []
    {
      PidIsGeneration(sys, g);
      StaysReachable(sys, OnMon(g, CheckStop));
      MonKeepsThreads(sys, g, CheckStop);
      MonKeepsState(sys, g, CheckStop);
      sys := Next(sys, OnMon(g, CheckStop)).value;
      match core {
        case Running(p, _, requested) => stop := p == pid && requested;
        case Stopped => stop := false;
      }
    }

    /** The section of `handle_core_exit`: the core is always the monitor's own, and expected if it was marked. */
    method HandleCoreExit(ghost g: nat, pid: int) returns (expected: bool)
      requires Valid() && Next(sys, OnMon(g, HandleExit)).Some? && sys.gens[g].pid == pid
      modifies this`core, this`sys
      ensures Valid() && Next(old(sys), OnMon(g, HandleExit)) == Some(sys)
      ensures old(core).Running? && old(core).pid == pid && core == Stopped
      ensures expected <==> old(sys).gens[g].marks != []
    {
      PidIsGeneration(sys, g);
      StaysReachable(sys, OnMon(g, HandleExit));
      MonKeepsThreads(sys, g, HandleExit);
      sys := Next(sys, OnMon(g, HandleExit)).value;
      match core {
        case Running(p, _, requested) => expected := if p == pid then requested else true;
        case Stopped => expected := true;
      }
      if core.Running? && core.pid == pid {
        core := Stopped;
      }
    }
  }
}
