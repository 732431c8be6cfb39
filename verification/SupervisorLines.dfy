/** What is written to a connection, and when its first line is its greeting. */
module SupervisorLines {
  import opened Text
  import Messages
  import Proto
  import Client
  import opened Supervisor
  import opened SupervisorInvariant
  import opened SupervisorTheorems
  import opened SupervisorSchedules

  // ----- every write is addressed to a connection that has or had the lease

  predicate LoserOk(s: Sys, t: nat)
    requires t in s.conns
  {
    match s.conns[t].pc
    case Displacing(u) => u != t && WasOwner(s, u) && s.st.owner != Some(u)
    case Unblocking(u) => u != t && WasOwner(s, u) && s.st.owner != Some(u)
    case _ => true
  }

  predicate AddresseeOk(s: Sys, g: nat)
    requires g < |s.gens|
  {
    match s.gens[g].mon
    case PushExit(to) => to.Some? ==> WasOwner(s, to.value)
    case _ => true
  }

  ghost predicate AddressInv(s: Sys) {
    && (forall t {:trigger LoserOk(s, t)} :: t in s.conns ==> LoserOk(s, t))
    && (forall g {:trigger AddresseeOk(s, g)} :: 0 <= g < |s.gens| ==> AddresseeOk(s, g))
  }

  lemma OwnerWasOwner(s: Sys)
    requires LeaseInv(s) && s.st.owner.Some?
    ensures WasOwner(s, s.st.owner.value) && Settled(s.conns[s.st.owner.value].pc)
  {
    assert LeaseOk(s, s.st.owner.value);
  }

  lemma LoserOfAct(s: Sys, t: nat, a: ConnAct)
    requires LeaseInv(s) && t in s.conns && LoserOk(s, t) && Next(s, OnConn(t, a)).Some?
    ensures t in Next(s, OnConn(t, a)).value.conns && LoserOk(Next(s, OnConn(t, a)).value, t)
  {
    if a.Acquire? {
      LoserOfHello(s, t);
    } else if a.Displace? {
      StaysOwner(s, OnConn(t, a), s.conns[t].pc.loser);
      AfterDisplace(s, t, a.wrote);
    } else {
      OnlyTheseDisplace(s, t, a);
    }
  }

  lemma LoserOfHello(s: Sys, t: nat)
    requires LeaseInv(s) && t in s.conns && ConnNext(s, t, Acquire).Some?
    ensures t in ConnNext(s, t, Acquire).value.conns && LoserOk(ConnNext(s, t, Acquire).value, t)
  {
    assert LeaseOk(s, t);
    if s.st.owner.Some? {
      OwnerWasOwner(s);
    }
  }

  lemma AfterDisplace(s: Sys, t: nat, wrote: bool)
    requires t in s.conns && ConnNext(s, t, Displace(wrote)).Some?
    ensures var s' := ConnNext(s, t, Displace(wrote)).value;
            t in s'.conns && s'.conns[t].pc == Unblocking(s.conns[t].pc.loser)
  {
  }

  lemma OnlyTheseDisplace(s: Sys, t: nat, a: ConnAct)
    requires t in s.conns && ConnNext(s, t, a).Some? && !a.Acquire? && !a.Displace?
    ensures var s' := ConnNext(s, t, a).value;
            t in s'.conns && !s'.conns[t].pc.Displacing? && !s'.conns[t].pc.Unblocking?
  {
  }

  lemma AddressStep(s: Sys, e: Event)
    requires Inv(s) && AddressInv(s) && Next(s, e).Some?
    ensures AddressInv(Next(s, e).value)
  {
    var s' := Next(s, e).value;
    forall t | t in s'.conns ensures LoserOk(s', t) {
      if t in s.conns {
        assert LoserOk(s, t);
        LosersStand(s, e, t);
      } else {
        NewThread(s, e, t);
      }
    }
    forall g: nat | g < |s'.gens| ensures AddresseeOk(s', g) { AddresseesStand(s, e, g); }
  }

  lemma NewThread(s: Sys, e: Event, t: nat)
    requires Next(s, e).Some? && t !in s.conns && t in Next(s, e).value.conns
    ensures Next(s, e).value.conns[t] == Conn(Next(s, e).value.conns[t].pc, false, false, [], [])
    ensures Next(s, e).value.conns[t].pc.Leasing?
  {
    match e {
      case OnConn(u, a) => ActsKeepPlaces(s, u, a);
      case OnMon(g, a) => MonKeepsThreads(s, g, a);
      case _ =>
    }
  }

  lemma LosersStand(s: Sys, e: Event, t: nat)
    requires LeaseInv(s) && t in s.conns && LoserOk(s, t) && Next(s, e).Some? && t in Next(s, e).value.conns
    ensures LoserOk(Next(s, e).value, t)
  {
    if e.OnConn? && e.t == t {
      LoserOfAct(s, t, e.ca);
    } else {
      PlaceStands(s, e, t);
      var pc := s.conns[t].pc;
      if pc.Displacing? || pc.Unblocking? {
        StaysOwner(s, e, pc.loser);
        OwnerStaysOff(s, e, pc.loser);
      }
    }
  }

  lemma PlaceStands(s: Sys, e: Event, t: nat)
    requires LeaseInv(s) && Next(s, e).Some? && t in s.conns && !(e.OnConn? && e.t == t)
    ensures t in Next(s, e).value.conns && Next(s, e).value.conns[t].pc == s.conns[t].pc
  {
    match e {
      case Arrive(_) => IdIsFresh(s);
      case OnConn(u, a) => ActsKeepPlaces(s, u, a);
      case OnMon(g, a) => MonKeepsThreads(s, g, a);
      case _ =>
    }
  }

  lemma AddresseesStand(s: Sys, e: Event, g: nat)
    requires Inv(s) && AddressInv(s) && Next(s, e).Some? && g < |Next(s, e).value.gens|
    ensures AddresseeOk(Next(s, e).value, g)
  {
    var s' := Next(s, e).value;
    if g < |s.gens| {
      assert AddresseeOk(s, g);
    }
    if s'.gens[g].mon.PushExit? && s'.gens[g].mon.to.Some? {
      PushesAreLookedUp(s, e, g);
      if s'.gens[g].mon.to == s.st.owner {
        OwnerWasOwner(s);
      }
      StaysOwner(s, e, s'.gens[g].mon.to.value);
    }
  }

  predicate ReportsSame(s: Sys, s': Sys) {
    && |s.gens| <= |s'.gens|
    && (forall g :: 0 <= g < |s.gens| ==>
          && (s'.gens[g].mon.FindOwner? <==> s.gens[g].mon.FindOwner?)
          && (s'.gens[g].mon.PushExit? <==> s.gens[g].mon.PushExit?)
          && (s'.gens[g].mon.PushExit? ==> s'.gens[g].mon == s.gens[g].mon))
    && (forall g :: |s.gens| <= g < |s'.gens| ==> s'.gens[g].mon.Unspawned?)
  }

  lemma ConnReportsSame(s: Sys, t: nat, a: ConnAct)
    requires Inv(s) && t in s.conns && ConnNext(s, t, a).Some?
    ensures ReportsSame(s, ConnNext(s, t, a).value)
  {
    if a.Start? || a.SpawnMonitor? || OfStop(a) {
      ActReportsSame(s, t, a);
    } else {
      OtherActsKeepCore(s, t, a);
    }
  }

  lemma ActReportsSame(s: Sys, t: nat, a: ConnAct)
    requires LinkInv(s) && t in s.conns && ConnNext(s, t, a).Some? && (a.Start? || a.SpawnMonitor? || OfStop(a))
    ensures ReportsSame(s, ConnNext(s, t, a).value)
  {
    assert LinkOk(s, t);
  }

  lemma MonOnlyMoves(s: Sys, g: nat, a: MonAct)
    requires g < |s.gens| && MonNext(s, g, a).Some? && !a.HandleExit?
    ensures var s' := MonNext(s, g, a).value;
            && |s'.gens| == |s.gens| && (forall h :: 0 <= h < |s.gens| && h != g ==> s'.gens[h] == s.gens[h])
            && !s'.gens[g].mon.FindOwner?
            && (s'.gens[g].mon.PushExit? ==> s.gens[g].mon.FindOwner? && s'.gens[g].mon.to == s.st.owner)
  {
  }

  lemma PushesAreLookedUp(s: Sys, e: Event, g: nat)
    requires Inv(s) && Next(s, e).Some? && g < |Next(s, e).value.gens| && Next(s, e).value.gens[g].mon.PushExit?
    ensures var mon := Next(s, e).value.gens[g].mon;
            mon.to == s.st.owner || (g < |s.gens| && s.gens[g].mon == mon)
  {
    match e {
      case OnConn(t, a) => ConnReportsSame(s, t, a);
      case OnMon(h, a) =>
        if !a.HandleExit? {
          MonOnlyMoves(s, h, a);
        }
      case _ =>
    }
  }

  lemma InvAtStart(s: Sys)
    requires Init(s)
    ensures Inv(s) && AddressInv(s)
  {
    forall p | p in s.procs ensures ProcOk(s, p) { assert s.procs[p].kind == Other; }
  }

  lemma {:induction false} AddressRun(s: Sys, es: seq<Event>)
    requires Inv(s) && AddressInv(s) && Exec(s, es).Some?
    ensures AddressInv(Exec(s, es).value)
    decreases |es|
  {
    if es != [] {
      InvStep(s, es[0], Next(s, es[0]).value);
      AddressStep(s, es[0]);
      AddressRun(Next(s, es[0]).value, es[1..]);
    }
  }

  lemma AddressReachable(s: Sys)
    requires Reachable(s)
    ensures Inv(s) && AddressInv(s)
  {
    InvReachable(s);
    var s0, es :| Init(s0) && Exec(s0, es) == Some(s);
    InvAtStart(s0);
    AddressRun(s0, es);
  }

  // ----- the lines of one connection

  /** What a step of the connection's own thread writes to it. */
  function OwnLine(s: Sys, t: nat, a: ConnAct): seq<Messages.Event>
    requires t in s.conns
  {
    var pc := s.conns[t].pc;
    if s.conns[t].shut then []
    else if a.Decline? then [Messages.Busy(true)]
    else if a.Greet? && pc.Saluting? then [GreetingEvent(s.cfg, pc.core)]
    else if a.Reply? && pc.Replying? then [ReplyEvent(pc.reply, a.msg)]
    else []
  }

  /** What a step of any other thread writes to it. */
  function OtherLine(s: Sys, e: Event, t: nat): seq<Messages.Event>
    requires t in s.conns
  {
    if s.conns[t].shut then []
    else if e.OnConn? && e.ca == Displace(true) && e.t in s.conns && s.conns[e.t].pc == Displacing(t) then [Messages.Kicked]
    else if e.OnMon? && e.ma.Push? && e.g < |s.gens| && s.gens[e.g].mon == PushExit(Some(t))
    then [Messages.CoreExited(e.ma.code, e.ma.signal)]
    else []
  }

  function NewLine(s: Sys, e: Event, t: nat): seq<Messages.Event>
    requires t in s.conns
  {
    if e.OnConn? && e.t == t then OwnLine(s, t, e.ca) else OtherLine(s, e, t)
  }

  lemma OwnLines(s: Sys, t: nat, a: ConnAct)
    requires t in s.conns && LoserOk(s, t) && ConnNext(s, t, a).Some?
    ensures var s' := ConnNext(s, t, a).value;
            t in s'.conns && s'.conns[t].lines == s.conns[t].lines + OwnLine(s, t, a) && s'.conns[t].shut == s.conns[t].shut
  {
    if OfHandshake(a) || a.Acquire? {
      HandshakeLines(s, t, a);
    } else {
      LoopLines(s, t, a);
    }
  }

  lemma HandshakeLines(s: Sys, t: nat, a: ConnAct)
    requires t in s.conns && LoserOk(s, t) && ConnNext(s, t, a).Some? && (OfHandshake(a) || a.Acquire?)
    ensures var s' := ConnNext(s, t, a).value;
            t in s'.conns && s'.conns[t].lines == s.conns[t].lines + OwnLine(s, t, a) && s'.conns[t].shut == s.conns[t].shut
  {
  }

  lemma LoopLines(s: Sys, t: nat, a: ConnAct)
    requires t in s.conns && ConnNext(s, t, a).Some? && !OfHandshake(a) && !a.Acquire?
    ensures var s' := ConnNext(s, t, a).value;
            t in s'.conns && s'.conns[t].lines == s.conns[t].lines + OwnLine(s, t, a) && s'.conns[t].shut == s.conns[t].shut
  {
  }

  lemma OtherLines(s: Sys, u: nat, a: ConnAct, t: nat)
    requires u in s.conns && t in s.conns && u != t && ConnNext(s, u, a).Some?
    ensures var s' := ConnNext(s, u, a).value;
            && t in s'.conns && s'.conns[t].lines == s.conns[t].lines + OtherLine(s, OnConn(u, a), t)
            && (s.conns[t].shut ==> s'.conns[t].shut)
  {
    if OfHandshake(a) {
      HandshakeLinesOfOthers(s, u, a, t);
    } else {
      NoLinesOfOthers(s, u, a, t);
    }
  }

  lemma HandshakeLinesOfOthers(s: Sys, u: nat, a: ConnAct, t: nat)
    requires u in s.conns && t in s.conns && u != t && ConnNext(s, u, a).Some? && OfHandshake(a)
    ensures var s' := ConnNext(s, u, a).value;
            && t in s'.conns && s'.conns[t].lines == s.conns[t].lines + OtherLine(s, OnConn(u, a), t)
            && (s.conns[t].shut ==> s'.conns[t].shut)
  {
  }

  lemma NoLinesOfOthers(s: Sys, u: nat, a: ConnAct, t: nat)
    requires u in s.conns && t in s.conns && u != t && ConnNext(s, u, a).Some? && !OfHandshake(a)
    ensures var s' := ConnNext(s, u, a).value;
            t in s'.conns && s'.conns[t].lines == s.conns[t].lines && s'.conns[t].shut == s.conns[t].shut
  {
  }

  lemma PushLines(s: Sys, g: nat, a: MonAct, t: nat)
    requires g < |s.gens| && t in s.conns && MonNext(s, g, a).Some?
    ensures var s' := MonNext(s, g, a).value;
            && t in s'.conns && s'.conns[t].lines == s.conns[t].lines + OtherLine(s, OnMon(g, a), t)
            && s'.conns[t].shut == s.conns[t].shut
  {
  }

  /** Each step writes the lines that are its own, and a socket that is shut down stays so. */
  lemma LinesGrow(s: Sys, e: Event, t: nat)
    requires LeaseInv(s) && AddressInv(s) && t in s.conns && Next(s, e).Some?
    ensures var s' := Next(s, e).value;
            && t in s'.conns && s'.conns[t].lines == s.conns[t].lines + NewLine(s, e, t)
            && (s.conns[t].shut ==> s'.conns[t].shut)
  {
    assert LoserOk(s, t);
    match e {
      case Arrive(_) => IdIsFresh(s);
      case OnConn(u, a) =>
        if u == t {
          OwnLines(s, t, a);
        } else {
          OtherLines(s, u, a, t);
        }
      case OnMon(g, a) => PushLines(s, g, a, t);
      case _ =>
    }
  }

  // ----- the first line

  /** This step writes to thread `t`'s open connection while it waits to greet. */
  predicate WritesEarly(s: Sys, e: Event, t: nat) {
    t in s.conns && Awaiting(s.conns[t].pc) && OtherLine(s, e, t) != []
  }

  ghost predicate Early(s: Sys, es: seq<Event>, t: nat)
    decreases |es|
  {
    es != [] && Next(s, es[0]).Some? && (WritesEarly(s, es[0], t) || Early(Next(s, es[0]).value, es[1..], t))
  }

  /** It has not come to its greeting. */
  predicate Ungreeted(pc: ConnPc) {
    pc.Leasing? || pc.Declining? || Awaiting(pc)
  }

  predicate HasGreeting(lines: seq<Messages.Event>) {
    exists i :: 0 <= i < |lines| && lines[i].Hello?
  }

  predicate Greeted(pc: ConnPc) {
    InLoop(pc) || pc.Leaving? || pc.Releasing? || TearingDown(pc)
  }

  predicate LinesOk(c: Conn, early: bool) {
    && (forall i :: 0 <= i < |c.lines| ==> !c.lines[i].Unknown?)
    && (if early then c.lines != [] && !c.lines[0].Hello?
        else if Ungreeted(c.pc) then c.lines == []
        else HasGreeting(c.lines) ==> c.lines[0].Hello?)
    && (Greeted(c.pc) && !c.shut ==> HasGreeting(c.lines))
  }

  predicate LinesInv(s: Sys, t: nat, early: bool) {
    if t in s.conns then LinesOk(s.conns[t], early) else !early
  }

  lemma GreetingKept(lines: seq<Messages.Event>, ev: Messages.Event)
    ensures HasGreeting(lines + [ev]) <==> HasGreeting(lines) || ev.Hello?
  {
    assert (lines + [ev])[|lines|] == ev;
    if HasGreeting(lines) {
      var i :| 0 <= i < |lines| && lines[i].Hello?;
      assert (lines + [ev])[i].Hello?;
    }
  }

  /** A line that another thread writes. */
  lemma LinesAppended(c: Conn, c': Conn, ev: Messages.Event, early: bool)
    requires LinesOk(c, early) && !ev.Hello? && !ev.Unknown? && !c.shut && !c.pc.Leasing? && !c.pc.Declining?
    requires c'.pc == c.pc && c'.lines == c.lines + [ev] && !c'.shut
    ensures LinesOk(c', early || Awaiting(c.pc))
  {
    GreetingKept(c.lines, ev);
  }

  /** The thread moves, and writes nothing. */
  lemma LinesMoved(c: Conn, c': Conn, early: bool)
    requires LinesOk(c, early) && c'.lines == c.lines && (c.shut ==> c'.shut)
    requires Ungreeted(c'.pc) ==> Ungreeted(c.pc)
    requires Greeted(c'.pc) ==> Greeted(c.pc) || c'.shut
    ensures LinesOk(c', early)
  {
  }

  lemma HandshakeMoves(s: Sys, t: nat, a: ConnAct)
    requires t in s.conns && ConnNext(s, t, a).Some? && !a.Greet? && (a.Acquire? || OfHandshake(a))
    ensures t in ConnNext(s, t, a).value.conns
    ensures var pc, pc' := s.conns[t].pc, ConnNext(s, t, a).value.conns[t].pc;
            Ungreeted(pc) && !Greeted(pc')
  {
  }

  lemma ServingMoves(s: Sys, t: nat, a: ConnAct)
    requires t in s.conns && LeaseOk(s, t) && ConnNext(s, t, a).Some? && !a.Acquire? && !OfHandshake(a)
    ensures Greeted(s.conns[t].pc)
  {
  }

  lemma LoopNeverAwaits(s: Sys, t: nat, a: ConnAct)
    requires t in s.conns && ConnNext(s, t, a).Some? && OfLoop(a)
    ensures t in ConnNext(s, t, a).value.conns && !Ungreeted(ConnNext(s, t, a).value.conns[t].pc)
  {
  }

  lemma NeverAwaitsAgain(s: Sys, t: nat, a: ConnAct)
    requires t in s.conns && ConnNext(s, t, a).Some? && !a.Acquire? && !OfHandshake(a)
    ensures t in ConnNext(s, t, a).value.conns && !Ungreeted(ConnNext(s, t, a).value.conns[t].pc)
  {
    if OfLoop(a) {
      LoopNeverAwaits(s, t, a);
    } else {
      EndNeverAwaits(s, t, a);
    }
  }

  lemma EndNeverAwaits(s: Sys, t: nat, a: ConnAct)
    requires t in s.conns && ConnNext(s, t, a).Some? && (OfStop(a) || OfEnd(a))
    ensures t in ConnNext(s, t, a).value.conns && !Ungreeted(ConnNext(s, t, a).value.conns[t].pc)
  {
  }

  /** A step of the thread's own that writes nothing. */
  lemma LinesOfMove(s: Sys, t: nat, a: ConnAct, early: bool)
    requires LeaseInv(s) && t in s.conns && LoserOk(s, t) && LinesOk(s.conns[t], early)
    requires ConnNext(s, t, a).Some? && OwnLine(s, t, a) == []
    ensures t in ConnNext(s, t, a).value.conns && LinesOk(ConnNext(s, t, a).value.conns[t], early)
  {
    var c, c' := s.conns[t], ConnNext(s, t, a).value.conns[t];
    assert LeaseOk(s, t);
    OwnLines(s, t, a);
    assert c.lines + [] == c.lines;
    if a.Greet? {
      assert c.shut && c'.shut;
    } else if a.Acquire? || OfHandshake(a) {
      HandshakeMoves(s, t, a);
      LinesMoved(c, c', early);
    } else {
      ServingMoves(s, t, a);
      NeverAwaitsAgain(s, t, a);
      LinesMoved(c, c', early);
    }
  }

  /** One that writes a line: the greeting, a reply, or that the supervisor is taken. */
  lemma LinesOfWrite(s: Sys, t: nat, a: ConnAct, early: bool)
    requires LeaseInv(s) && t in s.conns && LoserOk(s, t) && LinesOk(s.conns[t], early)
    requires ConnNext(s, t, a).Some? && OwnLine(s, t, a) != []
    ensures t in ConnNext(s, t, a).value.conns && LinesOk(ConnNext(s, t, a).value.conns[t], early)
  {
    OwnLines(s, t, a);
    GreetingKept(s.conns[t].lines, OwnLine(s, t, a)[0]);
  }

  lemma LinesFromOthers(c: Conn, c': Conn, line: seq<Messages.Event>, early: bool)
    requires LinesOk(c, early) && c'.pc == c.pc && c'.lines == c.lines + line && (c.shut ==> c'.shut)
    requires line != [] ==>
               && |line| == 1 && !line[0].Hello? && !line[0].Unknown?
               && !c.pc.Leasing? && !c.pc.Declining? && !c'.shut
    ensures LinesOk(c', early || (Awaiting(c.pc) && line != []))
  {
    if line == [] {
      assert c.lines + [] == c.lines;
      LinesMoved(c, c', early);
    } else {
      assert line == [line[0]];
      LinesAppended(c, c', line[0], early);
    }
  }

  lemma LinesOfOther(s: Sys, e: Event, t: nat, early: bool)
    requires Inv(s) && AddressInv(s) && t in s.conns && LinesOk(s.conns[t], early)
    requires Next(s, e).Some? && !(e.OnConn? && e.t == t)
    ensures var s' := Next(s, e).value;
            t in s'.conns && LinesOk(s'.conns[t], early || WritesEarly(s, e, t))
  {
    var line := OtherLine(s, e, t);
    LinesGrow(s, e, t);
    PlaceStands(s, e, t);
    if line != [] {
      AddresseesEntered(s, e, t);
      OthersShutOnly(s, e, t);
    }
    LinesFromOthers(s.conns[t], Next(s, e).value.conns[t], line, early);
  }

  lemma AddresseesEntered(s: Sys, e: Event, t: nat)
    requires AddressInv(s) && t in s.conns && OtherLine(s, e, t) != []
    ensures WasOwner(s, t) && |OtherLine(s, e, t)| == 1 && !OtherLine(s, e, t)[0].Hello? && !OtherLine(s, e, t)[0].Unknown?
  {
    if e.OnConn? {
      assert LoserOk(s, e.t);
    } else {
      assert AddresseeOk(s, e.g);
    }
  }

  lemma OthersShutOnly(s: Sys, e: Event, t: nat)
    requires t in s.conns && Next(s, e).Some? && OtherLine(s, e, t) != [] && !(e.OnConn? && e.t == t)
    ensures t in Next(s, e).value.conns && !Next(s, e).value.conns[t].shut
  {
    match e {
      case OnMon(g, a) => PushLines(s, g, a, t);
      case _ =>
    }
  }

  lemma LinesStep(s: Sys, e: Event, t: nat, early: bool)
    requires Inv(s) && AddressInv(s) && LinesInv(s, t, early) && Next(s, e).Some?
    ensures LinesInv(Next(s, e).value, t, early || WritesEarly(s, e, t))
  {
    if t !in s.conns {
      if t in Next(s, e).value.conns {
        NewThread(s, e, t);
      }
    } else if !(e.OnConn? && e.t == t) {
      LinesOfOther(s, e, t, early);
    } else {
      assert LoserOk(s, t);
      NothingFromOthers(s, e, t);
      if OwnLine(s, t, e.ca) == [] {
        LinesOfMove(s, t, e.ca, early);
      } else {
        LinesOfWrite(s, t, e.ca, early);
      }
    }
  }

  lemma NothingFromOthers(s: Sys, e: Event, t: nat)
    requires t in s.conns && LoserOk(s, t) && e.OnConn? && e.t == t
    ensures OtherLine(s, e, t) == []
  {
  }

  lemma {:induction false} LinesRun(s: Sys, es: seq<Event>, t: nat, early: bool)
    requires Inv(s) && AddressInv(s) && LinesInv(s, t, early) && Exec(s, es).Some?
    ensures LinesInv(Exec(s, es).value, t, early || Early(s, es, t))
    decreases |es|
  {
    if es != [] {
      InvStep(s, es[0], Next(s, es[0]).value);
      AddressStep(s, es[0]);
      LinesStep(s, es[0], t, early);
      LinesRun(Next(s, es[0]).value, es[1..], t, early || WritesEarly(s, es[0], t));
    }
  }

  /**
   * A connection whose thread has come to its loop, its socket not shut down, has been greeted. Its first line is
   * its greeting, and the client's handshake succeeds on it, if and only if no push and no notice of being displaced
   * was written to it while it waited to be greeted.
   */
  lemma GreetingComesFirst(s: Sys, es: seq<Event>, t: nat)
    requires Init(s) && Exec(s, es).Some?
    requires var s' := Exec(s, es).value; t in s'.conns && Greeted(s'.conns[t].pc) && !s'.conns[t].shut
    ensures var lines := Exec(s, es).value.conns[t].lines;
            && HasGreeting(lines) && !lines[0].Unknown?
            && (lines[0].Hello? <==> !Early(s, es, t))
            && (Client.Handshake(Some(Proto.EncodeEvent(lines[0]))) == Client.Connected <==> !Early(s, es, t))
  {
    InvAtStart(s);
    LinesRun(s, es, t, false);
    Client.HandshakeOf(Exec(s, es).value.conns[t].lines[0]);
  }
}
