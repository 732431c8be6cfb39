/** Every command is answered from what its one critical section on the core saw, however the threads interleave. */
module SupervisorReplies {
  import opened Text
  import Messages
  import opened Supervisor
  import opened SupervisorInvariant
  import opened SupervisorTheorems

  /** What a step of thread `t` that is a section on the core sees. */
  function Sees(s: Sys, e: Event, s': Sys, t: nat): Option<CoreProc> {
    match e
    case OnConn(u, a) =>
      if u != t then None
      else
        (match a
         case Start(_) => Some(s'.st.core)
         case Stop | ReportState => Some(s.st.core)
         case _ => None)
    case _ => None
  }

  predicate Replies(e: Event, t: nat) {
    e.OnConn? && e.t == t && e.ca.Reply?
  }

  function Later(saw: Option<CoreProc>, sees: Option<CoreProc>): Option<CoreProc> {
    if sees.Some? then sees else saw
  }

  /** What the last section of thread `t` in a run saw; `saw` before the first. */
  function Saw(s: Sys, es: seq<Event>, t: nat, saw: Option<CoreProc>): Option<CoreProc>
    requires Exec(s, es).Some?
    decreases |es|
  {
    if es == [] then saw
    else
      var s' := Next(s, es[0]).value;
      Saw(s', es[1..], t, Later(saw, Sees(s, es[0], s', t)))
  }

  predicate IsGen(s: Sys, g: nat, core: Option<CoreProc>) {
    && g < |s.gens| && core.Some? && core.value.Running?
    && core.value.pid == s.gens[g].pid && core.value.port == s.gens[g].port
  }

  /** A line that asks nothing of the core is answered without a section. */
  predicate IsDue(r: Reply, cmd: Option<Messages.Cmd>, saw: Option<CoreProc>) {
    && r == Due(cmd, if saw.Some? then saw.value else Stopped)
    && (saw.None? <==> r.BadRequest? || r.DuplicateHello?)
  }

  /** Thread `t` is at work on `cmd`, and what its section saw decides the reply. */
  predicate Serves(s: Sys, t: nat, cmd: Option<Messages.Cmd>, saw: Option<CoreProc>) {
    && t in s.conns
    && match s.conns[t].pc
       case Starting => cmd == Some(Messages.Start) && saw == None
       case SpawnedCore(g) => cmd == Some(Messages.Start) && IsGen(s, g, saw)
       case FiringUp(g) => cmd == Some(Messages.Start) && IsGen(s, g, saw)
       case Reporting => cmd == Some(Messages.Cmd.Status) && saw == None
       case Stopping(r) => r.Requested? && cmd == Some(Messages.Stop) && saw == None
       case Waiting(r, _, _) => r.Requested? && cmd == Some(Messages.Stop) && saw.Some? && saw.value.Running?
       case FiringDown(r, _, _) => r.Requested? && cmd == Some(Messages.Stop) && saw.Some? && saw.value.Running?
       case Replying(r) => IsDue(r, cmd, saw)
       case _ => false
  }

  /** Generations are only added, and keep their pid and port. */
  predicate GensGrow(s: Sys, s': Sys) {
    && |s.gens| <= |s'.gens|
    && forall g :: 0 <= g < |s.gens| ==> s'.gens[g].pid == s.gens[g].pid && s'.gens[g].port == s.gens[g].port
  }

  lemma ConnGrows(s: Sys, t: nat, a: ConnAct)
    requires t in s.conns && ConnNext(s, t, a).Some?
    ensures GensGrow(s, ConnNext(s, t, a).value)
  {
  }

  lemma MonGrows(s: Sys, g: nat, a: MonAct)
    requires g < |s.gens| && MonNext(s, g, a).Some?
    ensures GensGrow(s, MonNext(s, g, a).value)
  {
  }

  lemma ServesOn(s: Sys, s': Sys, t: nat, cmd: Option<Messages.Cmd>, saw: Option<CoreProc>)
    requires Serves(s, t, cmd, saw) && GensGrow(s, s')
    requires t in s'.conns && s'.conns[t].pc == s.conns[t].pc
    ensures Serves(s', t, cmd, saw)
  {
  }

  /** The thread's own section. */
  lemma ServesSection(s: Sys, t: nat, a: ConnAct, cmd: Option<Messages.Cmd>, saw: Option<CoreProc>)
    requires Serves(s, t, cmd, saw) && ConnNext(s, t, a).Some? && (a.Start? || a.Stop? || a.ReportState?)
    requires s.st.core.Running? ==> s.gens != []
    ensures var s' := ConnNext(s, t, a).value; Serves(s', t, cmd, Sees(s, OnConn(t, a), s', t))
  {
  }

  /** What it does around its section. */
  lemma ServesAround(s: Sys, t: nat, a: ConnAct, cmd: Option<Messages.Cmd>, saw: Option<CoreProc>)
    requires Serves(s, t, cmd, saw) && ConnNext(s, t, a).Some? && !(a.Start? || a.Stop? || a.ReportState? || a.Reply?)
    ensures Serves(ConnNext(s, t, a).value, t, cmd, saw)
  {
  }

  lemma ServesStep(s: Sys, e: Event, t: nat, cmd: Option<Messages.Cmd>, saw: Option<CoreProc>)
    requires Inv(s) && Serves(s, t, cmd, saw) && Next(s, e).Some? && !Replies(e, t)
    ensures var s' := Next(s, e).value; Serves(s', t, cmd, Later(saw, Sees(s, e, s', t)))
  {
    var s' := Next(s, e).value;
    match e {
      case Arrive(_) =>
        IdIsFresh(s);
        ServesOn(s, s', t, cmd, saw);
      case OnConn(u, a) =>
        if u != t {
          OtherThreadsKeep(s, u, a, t);
          ConnGrows(s, u, a);
          ServesOn(s, s', t, cmd, saw);
        } else if a.Start? || a.Stop? || a.ReportState? {
          ServesSection(s, t, a, cmd, saw);
        } else {
          ServesAround(s, t, a, cmd, saw);
        }
      case OnMon(g, a) =>
        MonKeepsThreads(s, g, a);
        MonGrows(s, g, a);
        ServesOn(s, s', t, cmd, saw);
      case _ => ServesOn(s, s', t, cmd, saw);
    }
  }

  lemma {:induction false} ServesRun(s: Sys, es: seq<Event>, t: nat, cmd: Option<Messages.Cmd>, saw: Option<CoreProc>)
    requires Inv(s) && Serves(s, t, cmd, saw) && Exec(s, es).Some? && (forall e :: e in es ==> !Replies(e, t))
    ensures Serves(Exec(s, es).value, t, cmd, Saw(s, es, t, saw))
    decreases |es|
  {
    if es != [] {
      var s1 := Next(s, es[0]).value;
      assert es[0] in es && forall e :: e in es[1..] ==> e in es;
      ServesStep(s, es[0], t, cmd, saw);
      InvStep(s, es[0], s1);
      ServesRun(s1, es[1..], t, cmd, Later(saw, Sees(s, es[0], s1, t)));
    }
  }

  /**
   * From the moment a thread reads a command up to its reply it is at work on that command and no other, and the
   * reply is the one due on what its section saw: `start` answers with the core it found or made, `status` with
   * the core it found, `stop` with whether it found one.
   */
  lemma CommandGetsItsReply(s: Sys, t: nat, cmd: Option<Messages.Cmd>, es: seq<Event>)
    requires Reachable(s) && Next(s, OnConn(t, Read(cmd))).Some?
    requires var s1 := Next(s, OnConn(t, Read(cmd))).value; Exec(s1, es).Some? && forall e :: e in es ==> !Replies(e, t)
    ensures var s1 := Next(s, OnConn(t, Read(cmd))).value;
            var s2, saw := Exec(s1, es).value, Saw(s1, es, t, None);
            && Serves(s2, t, cmd, saw)
            && (s2.conns[t].pc.Replying? ==> IsDue(s2.conns[t].pc.reply, cmd, saw))
  {
    InvReachable(s);
    var s1 := Next(s, OnConn(t, Read(cmd))).value;
    InvStep(s, OnConn(t, Read(cmd)), s1);
    ServesRun(s1, es, t, cmd, None);
  }
}
