/**
 * The client's session against the supervisor itself: the machine of module `Supervisor`, with all its threads, at
 * one end of the connection of one greeted thread, and the client's slot at the other.
 */
module SupervisorSession {
  import opened Text
  import Messages
  import Proto
  import Client
  import Session
  import opened Supervisor
  import opened SupervisorInvariant
  import opened SupervisorTheorems
  import opened SupervisorReplies
  import opened SupervisorLines

  datatype Joint = Joint(s: Sys, l: Session.Link)

  datatype Turn = ByClient(m: Session.Move) | BySupervisor(e: Event)

  predicate OfClient(m: Session.Move) {
    m.Send? || m.GiveUp? || m.ReadLine?
  }

  predicate Reads(e: Event, t: nat) {
    e.OnConn? && e.t == t && e.ca.Read?
  }

  /** The next line on the way to the supervisor decodes to this command. */
  predicate Carries(l: Session.Link, cmd: Option<Messages.Cmd>) {
    l.up != [] && Trim(l.up[0].line) != "" && Proto.DecodeCmd(l.up[0].line) == cmd
  }

  /** What a step of the supervisor is on the connection of thread `t`, if anything. */
  function MoveOf(s: Sys, e: Event, t: nat): Option<Session.Move>
    requires t in s.conns
  {
    if Reads(e, t) then Some(Session.TakeLine)
    else
      var line := NewLine(s, e, t);
      if line == [] then None else Some(if e.OnConn? && e.t == t then Session.Answer(line[0]) else Session.Push(line[0]))
  }

  /** The step, and with it the move on the connection; once the socket is shut down nothing passes it. */
  function JointNext(j: Joint, turn: Turn, t: nat): Option<Joint> {
    match turn
    case ByClient(m) =>
      if !OfClient(m) then None
      else
        (match Session.Next(j.l, m)
         case None => None
         case Some(l') => Some(Joint(j.s, l')))
    case BySupervisor(e) =>
      if t !in j.s.conns || Next(j.s, e).None? || (Reads(e, t) && !Carries(j.l, e.ca.cmd)) then None
      else
        var s' := Next(j.s, e).value;
        var m := MoveOf(j.s, e, t);
        if m.None? || (t in s'.conns && s'.conns[t].shut) then Some(Joint(s', j.l))
        else
          match Session.Next(j.l, m.value)
          case None => None
          case Some(l') => Some(Joint(s', l'))
  }

  function JointExec(j: Joint, turns: seq<Turn>, t: nat): Option<Joint>
    decreases |turns|
  {
    if turns == [] then Some(j)
    else
      match JointNext(j, turns[0], t)
      case None => None
      case Some(j') => JointExec(j', turns[1..], t)
  }

  // ----- the thread and the line agree

  /** The thread is at work exactly on the line taken last and not answered. */
  ghost predicate InStep(s: Sys, t: nat, work: Option<Session.Work>) {
    && t in s.conns && !Ungreeted(s.conns[t].pc)
    && match work
       case None => s.conns[t].pc.Serving? || !InLoop(s.conns[t].pc)
       case Some(w) => exists saw :: Serves(s, t, w.cmd, saw)
  }

  /** A due reply is one that `Session` allows. */
  lemma DueIsAllowed(r: Reply, cmd: Option<Messages.Cmd>, saw: Option<CoreProc>, msg: string)
    requires IsDue(r, cmd, saw)
    ensures Session.MayReply(cmd, ReplyEvent(r, msg))
  {
  }

  lemma ReadStarts(s: Sys, t: nat, cmd: Option<Messages.Cmd>)
    requires t in s.conns && ConnNext(s, t, Read(cmd)).Some?
    ensures s.conns[t].pc.Serving? && Serves(ConnNext(s, t, Read(cmd)).value, t, cmd, None)
  {
  }

  lemma ReplyEnds(s: Sys, t: nat, msg: string)
    requires t in s.conns && ConnNext(s, t, Reply(msg)).Some?
    ensures var s' := ConnNext(s, t, Reply(msg)).value; t in s'.conns && s'.conns[t].pc.Serving?
  {
  }

  /** With no work the thread waits for a line, or is on its way out. */
  lemma IdleMoves(s: Sys, t: nat, a: ConnAct)
    requires t in s.conns && LeaseOk(s, t) && ConnNext(s, t, a).Some? && !a.Read?
    requires !Ungreeted(s.conns[t].pc) && (s.conns[t].pc.Serving? || !InLoop(s.conns[t].pc))
    ensures t in ConnNext(s, t, a).value.conns
    ensures var pc := ConnNext(s, t, a).value.conns[t].pc; !Ungreeted(pc) && !InLoop(pc)
    ensures OwnLine(s, t, a) == []
  {
    if s.conns[t].pc.Serving? {
      IdleServes(s, t, a);
    } else {
      LeavingMoves(s, t, a);
    }
  }

  lemma IdleServes(s: Sys, t: nat, a: ConnAct)
    requires t in s.conns && ConnNext(s, t, a).Some? && !a.Read? && s.conns[t].pc.Serving?
    ensures a.Disconnect? && t in ConnNext(s, t, a).value.conns && ConnNext(s, t, a).value.conns[t].pc.Leaving?
  {
  }

  lemma LeavingMoves(s: Sys, t: nat, a: ConnAct)
    requires t in s.conns && LeaseOk(s, t) && ConnNext(s, t, a).Some?
    requires !Ungreeted(s.conns[t].pc) && !InLoop(s.conns[t].pc)
    ensures t in ConnNext(s, t, a).value.conns
    ensures var pc := ConnNext(s, t, a).value.conns[t].pc; !Ungreeted(pc) && !InLoop(pc)
    ensures OwnLine(s, t, a) == []
  {
  }

  lemma BusyMoves(s: Sys, t: nat, a: ConnAct, cmd: Option<Messages.Cmd>, saw: Option<CoreProc>)
    requires Serves(s, t, cmd, saw) && ConnNext(s, t, a).Some? && !a.Reply?
    ensures !a.Read? && OwnLine(s, t, a) == []
  {
  }

  lemma ReadIsMove(s: Sys, t: nat, cmd: Option<Messages.Cmd>, l: Session.Link)
    requires InStep(s, t, l.work) && Next(s, OnConn(t, Read(cmd))).Some? && Carries(l, cmd)
    ensures Session.Next(l, Session.TakeLine).Some?
    ensures InStep(Next(s, OnConn(t, Read(cmd))).value, t, Session.Next(l, Session.TakeLine).value.work)
  {
    ReadStarts(s, t, cmd);
  }

  lemma ReplyIsMove(s: Sys, t: nat, msg: string, l: Session.Link)
    requires InStep(s, t, l.work) && Next(s, OnConn(t, Reply(msg))).Some?
    ensures InStep(Next(s, OnConn(t, Reply(msg))).value, t, None)
    ensures l.work.Some? && Session.MayReply(l.work.value.cmd, ReplyEvent(s.conns[t].pc.reply, msg))
  {
    ReplyEnds(s, t, msg);
    var saw :| Serves(s, t, l.work.value.cmd, saw);
    DueIsAllowed(s.conns[t].pc.reply, l.work.value.cmd, saw, msg);
  }

  lemma AnswerDone(l: Session.Link, ev: Messages.Event)
    requires l.work.Some? && !ev.Unknown? && Session.MayReply(l.work.value.cmd, ev)
    ensures Session.Next(l, Session.Answer(ev)).Some? && Session.Next(l, Session.Answer(ev)).value.work == None
  {
  }

  lemma PushDone(l: Session.Link, ev: Messages.Event)
    requires Session.IsPush(ev)
    ensures Session.Next(l, Session.Push(ev)).Some? && Session.Next(l, Session.Push(ev)).value.work == l.work
  {
  }

  lemma WorkGoesOn(s: Sys, e: Event, t: nat, work: Option<Session.Work>)
    requires Inv(s) && InStep(s, t, work) && Next(s, e).Some? && !Reads(e, t) && !Replies(e, t)
    ensures InStep(Next(s, e).value, t, work)
    ensures e.OnConn? && e.t == t ==> OwnLine(s, t, e.ca) == []
  {
    var s' := Next(s, e).value;
    assert LeaseOk(s, t);
    match work {
      case Some(w) =>
        var saw :| Serves(s, t, w.cmd, saw);
        ServesStep(s, e, t, w.cmd, saw);
        if e.OnConn? && e.t == t {
          BusyMoves(s, t, e.ca, w.cmd, saw);
        }
      case None =>
        if e.OnConn? && e.t == t {
          IdleMoves(s, t, e.ca);
        } else {
          PlaceStands(s, e, t);
        }
    }
  }

  lemma OthersOnlyPush(s: Sys, e: Event, t: nat)
    requires t in s.conns && OtherLine(s, e, t) != []
    ensures |OtherLine(s, e, t)| == 1 && Session.IsPush(OtherLine(s, e, t)[0])
  {
  }

  /**
   * While the socket is open, what a step of the supervisor is on the connection is a move that the session's server
   * can make: nothing blocks the supervisor but a line that has not come.
   */
  lemma NeverBlocks(s: Sys, e: Event, t: nat, l: Session.Link)
    requires Inv(s) && InStep(s, t, l.work) && !s.conns[t].shut && Next(s, e).Some?
    requires Reads(e, t) ==> Carries(l, e.ca.cmd)
    ensures match MoveOf(s, e, t)
            case None => InStep(Next(s, e).value, t, l.work)
            case Some(m) => Session.Next(l, m).Some? && InStep(Next(s, e).value, t, Session.Next(l, m).value.work)
  {
    if Reads(e, t) {
      ReadIsMove(s, t, e.ca.cmd, l);
    } else if Replies(e, t) {
      ReplyIsMove(s, t, e.ca.msg, l);
      AnswerDone(l, ReplyEvent(s.conns[t].pc.reply, e.ca.msg));
    } else {
      WorkGoesOn(s, e, t, l.work);
      if NewLine(s, e, t) != [] {
        OthersOnlyPush(s, e, t);
        PushDone(l, OtherLine(s, e, t)[0]);
      }
    }
  }

  ghost predicate JointInv(j: Joint, t: nat) {
    && Inv(j.s) && AddressInv(j.s) && t in j.s.conns
    && (j.s.conns[t].shut || InStep(j.s, t, j.l.work))
  }

  /** The move of `Session` that a turn is, if any. */
  function TurnMove(j: Joint, turn: Turn, t: nat): Option<Session.Move>
    requires t in j.s.conns
  {
    match turn
    case ByClient(m) => Some(m)
    case BySupervisor(e) =>
      if Next(j.s, e).Some? && t in Next(j.s, e).value.conns && Next(j.s, e).value.conns[t].shut then None
      else MoveOf(j.s, e, t)
  }

  lemma JointStep(j: Joint, turn: Turn, t: nat)
    requires JointInv(j, t) && JointNext(j, turn, t).Some?
    ensures JointInv(JointNext(j, turn, t).value, t)
    ensures match TurnMove(j, turn, t)
            case None => JointNext(j, turn, t).value.l == j.l
            case Some(m) => Session.Next(j.l, m) == Some(JointNext(j, turn, t).value.l)
  {
    match turn {
      case ByClient(move) => ClientKeepsWork(j.l, move);
      case BySupervisor(e) =>
        InvStep(j.s, e, Next(j.s, e).value);
        AddressStep(j.s, e);
        LinesGrow(j.s, e, t);
        if !j.s.conns[t].shut {
          NeverBlocks(j.s, e, t, j.l);
        }
    }
  }

  lemma ClientKeepsWork(l: Session.Link, m: Session.Move)
    requires OfClient(m) && Session.Next(l, m).Some?
    ensures Session.Next(l, m).value.work == l.work
  {
  }

  /** Every joint run is, on the connection, a run of `Session`. */
  lemma {:induction false} JointRun(j: Joint, turns: seq<Turn>, t: nat) returns (ms: seq<Session.Move>)
    requires JointInv(j, t) && JointExec(j, turns, t).Some?
    ensures Session.Exec(j.l, ms) == Some(JointExec(j, turns, t).value.l)
    decreases |turns|
  {
    if turns == [] {
      ms := [];
    } else {
      JointStep(j, turns[0], t);
      var m := TurnMove(j, turns[0], t);
      var rest := JointRun(JointNext(j, turns[0], t).value, turns[1..], t);
      if m.Some? {
        ms := [m.value] + rest;
        assert ms[1..] == rest;
      } else {
        ms := rest;
      }
    }
  }

  /**
   * Reply correlation against the supervisor itself. From the greeting of a connection on, whatever all its threads,
   * monitors and clients do: every line that the client reads decodes, and every reply completes the request whose
   * command caused it, while pushes complete nothing.
   */
  lemma SupervisorCorrelates(s: Sys, t: nat, turns: seq<Turn>, i: nat)
    requires Reachable(s) && Next(s, OnConn(t, Greet)).Some? && !s.conns[t].shut
    requires var j := Joint(Next(s, OnConn(t, Greet)).value, Session.EMPTY);
             JointExec(j, turns, t).Some? && i < |JointExec(j, turns, t).value.l.delivered|
    ensures var j := Joint(Next(s, OnConn(t, Greet)).value, Session.EMPTY);
            var l := JointExec(j, turns, t).value.l;
            Session.Correct(l.delivered[i]) && l.undecoded == 0
  {
    var e := OnConn(t, Greet);
    var j := Joint(Next(s, e).value, Session.EMPTY);
    AddressReachable(s);
    InvStep(s, e, j.s);
    AddressStep(s, e);
    var ms := JointRun(j, turns, t);
    Session.RepliesAreCorrelated(ms, i);
  }
}
