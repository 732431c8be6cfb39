/** What the lines on a connection say, and that a displaced one is cut off. */
module SupervisorContents {
  import opened Text
  import Messages
  import opened Supervisor
  import opened SupervisorInvariant
  import opened SupervisorTheorems
  import opened SupervisorLines

  predicate OfThread(e: Event, t: nat) {
    e.OnConn? && e.t == t
  }

  lemma ConfigStands(s: Sys, e: Event)
    requires Next(s, e).Some?
    ensures Next(s, e).value.cfg == s.cfg
  {
    match e {
      case OnConn(t, a) => ConnKeepsConfig(s, t, a);
      case OnMon(g, a) => MonKeepsConfig(s, g, a);
      case _ =>
    }
  }

  lemma ConnKeepsConfig(s: Sys, t: nat, a: ConnAct)
    requires t in s.conns && ConnNext(s, t, a).Some?
    ensures ConnNext(s, t, a).value.cfg == s.cfg
  {
  }

  lemma MonKeepsConfig(s: Sys, g: nat, a: MonAct)
    requires g < |s.gens| && MonNext(s, g, a).Some?
    ensures MonNext(s, g, a).value.cfg == s.cfg
  {
  }

  lemma {:induction false} ThreadStands(s: Sys, es: seq<Event>, t: nat)
    requires Inv(s) && t in s.conns && Exec(s, es).Some? && forall e :: e in es ==> !OfThread(e, t)
    ensures var s' := Exec(s, es).value; t in s'.conns && s'.conns[t].pc == s.conns[t].pc && s'.cfg == s.cfg
    decreases |es|
  {
    if es != [] {
      var s1 := Next(s, es[0]).value;
      assert es[0] in es && forall e :: e in es[1..] ==> e in es;
      InvStep(s, es[0], s1);
      PlaceStands(s, es[0], t);
      ConfigStands(s, es[0]);
      ThreadStands(s1, es[1..], t);
    }
  }

  // ----- the greeting

  /** The greeting of a supervisor with this core. */
  predicate Greets(ev: Messages.Event, version: string, core: CoreProc) {
    && ev.Hello? && ev.proto == 1 && ev.version == version
    && match core
       case Stopped => ev.core == Messages.CoreState.Stopped && ev.rpcPort == Option.None
       case Running(_, port, _) => ev.core == Messages.CoreState.Running && ev.rpcPort == Some(port)
  }

  lemma SnapshotTaken(s: Sys, t: nat)
    requires t in s.conns && ConnNext(s, t, Snapshot).Some?
    ensures var s' := ConnNext(s, t, Snapshot).value;
            t in s'.conns && s'.conns[t].pc == Saluting(s.st.core) && s'.cfg == s.cfg
  {
  }

  lemma GreetingWritten(s: Sys, t: nat)
    requires t in s.conns && s.conns[t].pc.Saluting? && !s.conns[t].shut && ConnNext(s, t, Greet).Some?
    ensures var s' := ConnNext(s, t, Greet).value;
            && t in s'.conns && |s'.conns[t].lines| == |s.conns[t].lines| + 1
            && s'.conns[t].lines[..|s.conns[t].lines|] == s.conns[t].lines
            && Greets(s'.conns[t].lines[|s.conns[t].lines|], s.cfg.version, s.conns[t].pc.core)
  {
  }

  /**
   * From a thread's snapshot to its greeting, whatever happens in between: the greeting names protocol 1, the
   * configured version, and the core as the snapshot saw it, running with its port or stopped with none.
   */
  lemma GreetingTellsSnapshot(s: Sys, s1: Sys, s2: Sys, s3: Sys, t: nat, es: seq<Event>)
    requires Reachable(s) && t in s.conns && Next(s, OnConn(t, Snapshot)) == Some(s1)
    requires Exec(s1, es) == Some(s2) && forall e :: e in es ==> !OfThread(e, t)
    requires Next(s2, OnConn(t, Greet)) == Some(s3) && !s2.conns[t].shut
    ensures t in s3.conns
    ensures var n := |s2.conns[t].lines|;
            && |s3.conns[t].lines| == n + 1 && s3.conns[t].lines[..n] == s2.conns[t].lines
            && Greets(s3.conns[t].lines[n], s.cfg.version, s.st.core)
  {
    InvReachable(s);
    InvStep(s, OnConn(t, Snapshot), s1);
    SnapshotTaken(s, t);
    ThreadStands(s1, es, t);
    GreetingWritten(s2, t);
  }

  // ----- the replies

  /** What a reply looks like on the connection. */
  predicate Says(ev: Messages.Event, r: Reply, msg: string) {
    match r
    case Started(pid, port) => ev == Messages.CoreStarted(pid, port)
    case StartFailed => ev == Messages.Error("spawn_failed", msg)
    case Report(Stopped) => ev == Messages.Event.Status(Messages.CoreState.Stopped, Option.None, Option.None)
    case Report(Running(pid, port, _)) =>
      ev == Messages.Event.Status(Messages.CoreState.Running, Some(pid), Some(port))
    case StopDone(wasRunning) => ev == Messages.CoreStopped(if wasRunning then "requested" else "already_stopped")
    case BadRequest => ev == Messages.Error("bad_request", msg)
    case DuplicateHello => ev == Messages.Error("bad_proto", "duplicate hello")
  }

  /** A reply on an open connection is one line, which says it in the protocol's words. */
  lemma ReplyIsWritten(s: Sys, t: nat, msg: string)
    requires t in s.conns && Next(s, OnConn(t, Reply(msg))).Some? && !s.conns[t].shut
    ensures s.conns[t].pc.Replying?
    ensures var s' := Next(s, OnConn(t, Reply(msg))).value;
            var n := |s.conns[t].lines|;
            && t in s'.conns && |s'.conns[t].lines| == n + 1 && s'.conns[t].lines[..n] == s.conns[t].lines
            && Says(s'.conns[t].lines[n], s.conns[t].pc.reply, msg)
  {
  }

  // ----- a displaced connection

  predicate IsDisplacing(pc: ConnPc, u: nat) {
    pc == Displacing(u) || pc == Unblocking(u)
  }

  predicate CutOff(s: Sys, t: nat, u: nat) {
    && t in s.conns && u in s.conns
    && (IsDisplacing(s.conns[t].pc, u) || s.conns[u].shut)
  }

  lemma CutByAct(s: Sys, t: nat, a: ConnAct, u: nat)
    requires t in s.conns && u in s.conns && t != u && IsDisplacing(s.conns[t].pc, u) && ConnNext(s, t, a).Some?
    ensures CutOff(ConnNext(s, t, a).value, t, u)
  {
  }

  lemma CutStep(s: Sys, e: Event, t: nat, u: nat)
    requires Inv(s) && AddressInv(s) && CutOff(s, t, u) && t != u && Next(s, e).Some?
    ensures CutOff(Next(s, e).value, t, u)
  {
    LinesGrow(s, e, u);
    LinesGrow(s, e, t);
    if !s.conns[u].shut {
      if OfThread(e, t) {
        CutByAct(s, t, e.ca, u);
      } else {
        PlaceStands(s, e, t);
      }
    }
  }

  lemma {:induction false} CutRun(s: Sys, es: seq<Event>, t: nat, u: nat)
    requires Inv(s) && AddressInv(s) && CutOff(s, t, u) && t != u && Exec(s, es).Some?
    ensures CutOff(Exec(s, es).value, t, u)
    decreases |es|
  {
    if es != [] {
      InvStep(s, es[0], Next(s, es[0]).value);
      AddressStep(s, es[0]);
      CutStep(s, es[0], t, u);
      CutRun(Next(s, es[0]).value, es[1..], t, u);
    }
  }

  /**
   * A thread that takes over from `u` has shut down the socket of `u` by the time it goes on to its own greeting, and
   * it stays shut.
   */
  lemma LoserIsCutOff(s: Sys, es: seq<Event>, t: nat, u: nat)
    requires Reachable(s) && t in s.conns && s.conns[t].pc == Displacing(u) && Exec(s, es).Some?
    ensures var s' := Exec(s, es).value;
            t in s'.conns && u in s'.conns && (IsDisplacing(s'.conns[t].pc, u) || s'.conns[u].shut)
  {
    AddressReachable(s);
    assert LoserOk(s, t);
    CutRun(s, es, t, u);
  }
}
