/** The turns of a monitor in a run of the supervisor, and how soon a stopped core is reaped in it. */
module SupervisorTiming {
  import opened Text
  import opened Supervisor
  import opened SupervisorInvariant
  import opened SupervisorTheorems
  import Escalation

  function Revise(turns: seq<Escalation.Turn>, turn: Escalation.Turn): (r: seq<Escalation.Turn>)
    requires turns != []
    ensures |r| == |turns|
  {
    turns[..|turns| - 1] + [turn]
  }

  /** `try_wait` finds nothing left to wait for. */
  predicate Dead(s: Sys, g: nat)
    requires g < |s.gens|
  {
    var pid := s.gens[g].pid;
    !(pid in s.procs && s.procs[pid].kind.Core? && s.procs[pid].alive)
  }

  /** A poll begins a turn; the look at the flag and the signalling step fill it in. */
  function TurnsAfter(turns: seq<Escalation.Turn>, s: Sys, e: Event, g: nat): seq<Escalation.Turn> {
    if !e.OnMon? || e.g != g || g >= |s.gens| then turns else TurnsBy(turns, s, e.ma, g)
  }

  function TurnsBy(turns: seq<Escalation.Turn>, s: Sys, a: MonAct, g: nat): seq<Escalation.Turn>
    requires g < |s.gens|
  {
    if a.TryWait? then turns + [Escalation.Turn(s.now, Dead(s, g), s.now, false, s.now)]
    else if turns == [] || !(a.CheckStop? || a.Act? || a.ReadClock?) then turns
    else Revise(turns, if a.CheckStop? then Checked(turns, s.now, StopSeen(s.st, s.gens[g].pid)) else Clocked(turns, s.now))
  }

  function Checked(turns: seq<Escalation.Turn>, now: nat, stop: bool): Escalation.Turn
    requires turns != []
  {
    turns[|turns| - 1].(check := now, stop := stop, clock := now)
  }

  function Clocked(turns: seq<Escalation.Turn>, now: nat): Escalation.Turn
    requires turns != []
  {
    turns[|turns| - 1].(clock := now)
  }

  function TurnsOf(s: Sys, es: seq<Event>, g: nat, turns: seq<Escalation.Turn>): seq<Escalation.Turn>
    requires Exec(s, es).Some?
    decreases |es|
  {
    if es == [] then turns
    else TurnsOf(Next(s, es[0]).value, es[1..], g, TurnsAfter(turns, s, es[0], g))
  }

  // ----- the turns agree with the machine

  function WatchAfter(turns: seq<Escalation.Turn>): Escalation.Watch {
    Escalation.ProgressAfter(turns).watch
  }

  /** Where the monitor is in its last turn, and what its variables are. */
  predicate InTurn(G: Gen, turns: seq<Escalation.Turn>) {
    match G.mon
    case Unspawned | Poll | Sleep => G.watch == WatchAfter(turns)
    case _ =>
      turns != [] &&
      var last, before := turns[|turns| - 1], WatchAfter(turns[..|turns| - 1]);
      G.watch == before &&
      match G.mon
      case Check => true
      case Decide(stop) => last.stop == stop
      case SetDeadline => last.stop && before.deadline.None?
      case SendKill => last.stop && Escalation.Choose(before, last.clock) == Some(Escalation.Kill)
      case _ => false
  }

  /** How many turns have looked at the flag. */
  function Looked(G: Gen, turns: seq<Escalation.Turn>): nat {
    if turns != [] && G.mon.Check? then |turns| - 1 else |turns|
  }

  ghost predicate TurnsOk(G: Gen, now: nat, turns: seq<Escalation.Turn>) {
    && Escalation.Ordered(turns)
    && (turns != [] ==> var last := turns[|turns| - 1]; last.poll <= last.check <= last.clock <= now)
    && (forall i :: 0 <= i < |turns| ==> !turns[i].reaped)
    && (forall i :: 0 <= i < Looked(G, turns) ==>
          && (turns[i].stop ==> G.marks != [] && G.marks[0].at <= turns[i].check)
          && (G.marks != [] && G.marks[0].at < turns[i].check ==> turns[i].stop))
    && InTurn(G, turns)
  }

  /** As long as the child is not reaped. */
  ghost predicate TimingInv(s: Sys, g: nat, turns: seq<Escalation.Turn>) {
    if g >= |s.gens| then turns == []
    else Unreaped(s.gens[g].mon) ==> TurnsOk(s.gens[g], s.now, turns)
  }

  lemma OrderedPush(turns: seq<Escalation.Turn>, turn: Escalation.Turn)
    requires Escalation.Ordered(turns)
    requires turns != [] ==>
               var last := turns[|turns| - 1]; last.poll <= last.check <= last.clock <= turn.poll
    ensures Escalation.Ordered(turns + [turn])
  {
    var r := turns + [turn];
    forall i | 0 <= i < |r| - 1 ensures Escalation.Follows(r, i) {
      assert r[i] == turns[i];
      if i < |turns| - 1 {
        assert Escalation.Follows(turns, i) && r[i + 1] == turns[i + 1];
      }
    }
  }

  lemma PollOpens(G: Gen, G': Gen, now: nat, turns: seq<Escalation.Turn>)
    requires TurnsOk(G, now, turns) && G.mon.Poll? && G' == G.(mon := Check)
    ensures TurnsOk(G', now, turns + [Escalation.Turn(now, false, now, false, now)])
  {
    var turn := Escalation.Turn(now, false, now, false, now);
    var r := turns + [turn];
    OrderedPush(turns, turn);
    assert r[..|turns|] == turns && r[|turns|] == turn;
    FlagsPushed(G, turns, turn);
  }

  lemma FlagsPushed(G: Gen, turns: seq<Escalation.Turn>, turn: Escalation.Turn)
    requires G.mon.Poll?
    requires forall i :: 0 <= i < |turns| ==>
               && (turns[i].stop ==> G.marks != [] && G.marks[0].at <= turns[i].check)
               && (G.marks != [] && G.marks[0].at < turns[i].check ==> turns[i].stop)
    ensures var r := turns + [turn];
            forall i :: 0 <= i < |turns| ==>
              && (r[i].stop ==> G.marks != [] && G.marks[0].at <= r[i].check)
              && (G.marks != [] && G.marks[0].at < r[i].check ==> r[i].stop)
  {
  }

  lemma CheckFills(G: Gen, G': Gen, now: nat, turns: seq<Escalation.Turn>)
    requires TurnsOk(G, now, turns) && G.mon.Check? && G' == G.(mon := Decide(G.marks != []))
    requires G.marks != [] ==> G.marks[0].at <= now
    ensures turns != [] && TurnsOk(G', now, Revise(turns, Checked(turns, now, G.marks != [])))
  {
    var r := Revise(turns, Checked(turns, now, G.marks != []));
    assert r[..|r| - 1] == turns[..|turns| - 1];
    OrderedRevise(turns, r);
  }

  lemma OrderedRevise(turns: seq<Escalation.Turn>, r: seq<Escalation.Turn>)
    requires Escalation.Ordered(turns) && |r| == |turns| > 0 && r[..|r| - 1] == turns[..|turns| - 1]
    requires r[|r| - 1].poll == turns[|r| - 1].poll
    ensures Escalation.Ordered(r)
    ensures forall i :: 0 <= i < |r| - 1 ==> r[i] == turns[i]
  {
    forall i | 0 <= i < |r| - 1 ensures r[i] == turns[i] {
      assert r[..|r| - 1][i] == turns[..|r| - 1][i];
    }
    forall i | 0 <= i < |r| - 1 ensures Escalation.Follows(r, i) {
      assert Escalation.Follows(turns, i) && r[i] == turns[i] && r[i + 1].poll == turns[i + 1].poll;
    }
  }

  lemma ProgressOfRevised(turns: seq<Escalation.Turn>, turn: Escalation.Turn)
    requires turns != []
    ensures var before := turns[..|turns| - 1];
            Escalation.ProgressAfter(Revise(turns, turn)) == Escalation.Step(Escalation.ProgressAfter(before), turn)
  {
    var r := Revise(turns, turn);
    assert r[..|r| - 1] == turns[..|turns| - 1];
  }

  /** The clock of the signalling step is filled in; `G'` is where the monitor goes then. */
  lemma ClockFills(G: Gen, G': Gen, now: nat, turns: seq<Escalation.Turn>)
    requires TurnsOk(G, now, turns) && (G.mon.Decide? || G.mon.SetDeadline?) && turns != [] && G'.marks == G.marks
    requires !G'.mon.Check? && InTurn(G', Revise(turns, Clocked(turns, now)))
    ensures TurnsOk(G', now, Revise(turns, Clocked(turns, now)))
  {
    var r := Revise(turns, Clocked(turns, now));
    assert r[..|r| - 1] == turns[..|turns| - 1];
    OrderedRevise(turns, r);
  }

  lemma ActFills(s: Sys, g: nat, turns: seq<Escalation.Turn>, s': Sys)
    requires g < |s.gens| && TurnsOk(s.gens[g], s.now, turns) && MonNext(s, g, Act) == Some(s')
    ensures turns != [] && |s'.gens| == |s.gens| && s'.now == s.now
    ensures TurnsOk(s'.gens[g], s.now, Revise(turns, Clocked(turns, s.now)))
  {
    var turn := Clocked(turns, s.now);
    ProgressOfRevised(turns, turn);
    var r := Revise(turns, turn);
    assert r[..|r| - 1] == turns[..|turns| - 1] && r[|r| - 1] == turn;
    ClockFills(s.gens[g], s'.gens[g], s.now, turns);
  }

  lemma DeadlineFills(s: Sys, g: nat, turns: seq<Escalation.Turn>, s': Sys)
    requires g < |s.gens| && TurnsOk(s.gens[g], s.now, turns) && MonNext(s, g, ReadClock) == Some(s')
    ensures turns != [] && |s'.gens| == |s.gens| && s'.now == s.now
    ensures TurnsOk(s'.gens[g], s.now, Revise(turns, Clocked(turns, s.now)))
  {
    ProgressOfRevised(turns, Clocked(turns, s.now));
    ClockFills(s.gens[g], s'.gens[g], s.now, turns);
  }

  lemma KillDone(s: Sys, g: nat, turns: seq<Escalation.Turn>, s': Sys)
    requires g < |s.gens| && TurnsOk(s.gens[g], s.now, turns) && MonNext(s, g, Kill) == Some(s')
    ensures |s'.gens| == |s.gens| && s'.now == s.now && TurnsOk(s'.gens[g], s.now, turns)
  {
    var n := |turns| - 1;
    assert Escalation.ProgressAfter(turns) == Escalation.Step(Escalation.ProgressAfter(turns[..n]), turns[n]);
  }

  lemma PollOwn(s: Sys, g: nat, turns: seq<Escalation.Turn>, s': Sys)
    requires g < |s.gens| && TurnsOk(s.gens[g], s.now, turns) && MonNext(s, g, TryWait) == Some(s')
    ensures TimingInv(s', g, TurnsBy(turns, s, TryWait, g))
  {
    if !Dead(s, g) {
      PollOpens(s.gens[g], s'.gens[g], s.now, turns);
    }
  }

  lemma CheckOwn(s: Sys, g: nat, turns: seq<Escalation.Turn>, s': Sys)
    requires g < |s.gens| && GenOk(s, g) && TurnsOk(s.gens[g], s.now, turns) && MonNext(s, g, CheckStop) == Some(s')
    ensures TimingInv(s', g, TurnsBy(turns, s, CheckStop, g))
  {
    CheckFills(s.gens[g], s'.gens[g], s.now, turns);
  }

  /** The steps that reap nothing and fill nothing in. */
  predicate Unwritten(a: MonAct) {
    !a.TryWait? && !a.CheckStop? && !a.Act? && !a.ReadClock? && !a.Kill?
  }

  lemma WaitOwn(s: Sys, g: nat, a: MonAct, turns: seq<Escalation.Turn>, s': Sys)
    requires g < |s.gens| && Unreaped(s.gens[g].mon) && TurnsOk(s.gens[g], s.now, turns)
    requires MonNext(s, g, a) == Some(s') && Unwritten(a)
    ensures TimingInv(s', g, turns)
  {
  }

  lemma StaysReaped(s: Sys, g: nat, a: MonAct, s': Sys)
    requires g < |s.gens| && !Unreaped(s.gens[g].mon) && MonNext(s, g, a) == Some(s')
    ensures g < |s'.gens| && !Unreaped(s'.gens[g].mon)
  {
  }

  lemma TimingOwn(s: Sys, g: nat, a: MonAct, turns: seq<Escalation.Turn>, s': Sys)
    requires Inv(s) && g < |s.gens| && TimingInv(s, g, turns) && MonNext(s, g, a) == Some(s')
    ensures TimingInv(s', g, TurnsBy(turns, s, a, g))
  {
    if !Unreaped(s.gens[g].mon) {
      StaysReaped(s, g, a, s');
    } else if a.TryWait? {
      PollOwn(s, g, turns, s');
    } else if a.CheckStop? {
      assert GenOk(s, g);
      CheckOwn(s, g, turns, s');
    } else if a.Act? {
      ActFills(s, g, turns, s');
    } else if a.ReadClock? {
      DeadlineFills(s, g, turns, s');
    } else if a.Kill? {
      KillDone(s, g, turns, s');
    } else {
      WaitOwn(s, g, a, turns, s');
    }
  }

  /** A step that is not the monitor's own: it may mark the generation, or bring its monitor to life. */
  predicate Aside(G: Gen, G': Gen, now: nat) {
    && G'.watch == G.watch
    && (G'.mon == G.mon || (G.mon.Unspawned? && G'.mon.Poll?))
    && (G.marks != [] ==> G'.marks != [] && G'.marks[0].at == G.marks[0].at)
    && (G.marks == [] && G'.marks != [] ==> G'.marks[0].at == now)
  }

  lemma TurnsAside(G: Gen, G': Gen, now: nat, now': nat, turns: seq<Escalation.Turn>)
    requires TurnsOk(G, now, turns) && Aside(G, G', now) && now <= now'
    ensures TurnsOk(G', now', turns)
  {
    forall i | 0 <= i < |turns| ensures turns[i].check <= now { CheckIsPast(turns, i, now); }
  }

  lemma {:induction false} CheckIsPast(turns: seq<Escalation.Turn>, i: nat, now: nat)
    requires Escalation.Ordered(turns) && i < |turns|
    requires var last := turns[|turns| - 1]; last.poll <= last.check <= last.clock <= now
    ensures turns[i].poll <= turns[i].check <= turns[i].clock <= now
    decreases |turns| - i
  {
    if i < |turns| - 1 {
      CheckIsPast(turns, i + 1, now);
      assert Escalation.Follows(turns, i);
    }
  }

  lemma ConnAside(s: Sys, t: nat, a: ConnAct, g: nat)
    requires t in s.conns && ConnNext(s, t, a).Some? && g < |s.gens|
    requires a.SpawnMonitor? ==> LinkOk(s, t)
    ensures g < |ConnNext(s, t, a).value.gens| && Aside(s.gens[g], ConnNext(s, t, a).value.gens[g], s.now)
  {
    if !a.Start? && !a.Stop? && !a.FireDown? && !a.SpawnMonitor? {
      OtherActsKeepCore(s, t, a);
    } else if a.FireDown? {
      FiredAside(s, t, a, g);
    }
  }

  lemma FiredAside(s: Sys, t: nat, a: ConnAct, g: nat)
    requires t in s.conns && ConnNext(s, t, a).Some? && g < |s.gens| && a.FireDown?
    ensures g < |ConnNext(s, t, a).value.gens| && Aside(s.gens[g], ConnNext(s, t, a).value.gens[g], s.now)
  {
  }

  lemma MonAside(s: Sys, h: nat, a: MonAct, g: nat)
    requires h < |s.gens| && MonNext(s, h, a).Some? && g < |s.gens| && g != h
    ensures g < |MonNext(s, h, a).value.gens| && MonNext(s, h, a).value.gens[g] == s.gens[g]
  {
  }

  lemma TimingAside(s: Sys, e: Event, g: nat, turns: seq<Escalation.Turn>)
    requires Inv(s) && g < |s.gens| && TimingInv(s, g, turns) && Next(s, e).Some? && !(e.OnMon? && e.g == g)
    ensures TimingInv(Next(s, e).value, g, turns)
  {
    var s' := Next(s, e).value;
    match e {
      case OnConn(t, a) =>
        assert LinkOk(s, t);
        ConnAside(s, t, a, g);
        ConnKeepsTimer(s, t, a);
      case OnMon(h, a) =>
        MonAside(s, h, a, g);
        MonKeepsTimer(s, h, a);
      case _ =>
    }
    if Unreaped(s'.gens[g].mon) {
      TurnsAside(s.gens[g], s'.gens[g], s.now, s'.now, turns);
    }
  }

  lemma TimingNew(s: Sys, e: Event, g: nat)
    requires Inv(s) && g >= |s.gens| && Next(s, e).Some?
    ensures TimingInv(Next(s, e).value, g, [])
  {
    match e {
      case OnConn(t, a) => NewGenIsFresh(s, t, a, g);
      case OnMon(h, a) => MonKeepsMarks(s, h, a);
      case _ =>
    }
  }

  lemma NewGenIsFresh(s: Sys, t: nat, a: ConnAct, g: nat)
    requires t in s.conns && ConnNext(s, t, a).Some? && g >= |s.gens|
    ensures var s' := ConnNext(s, t, a).value; g >= |s'.gens| || TurnsOk(s'.gens[g], s'.now, [])
  {
    if !a.Start? && !a.Stop? && !a.FireDown? && !a.SpawnMonitor? {
      OtherActsKeepCore(s, t, a);
    }
  }

  lemma TimingStep(s: Sys, e: Event, g: nat, turns: seq<Escalation.Turn>)
    requires Inv(s) && TimingInv(s, g, turns) && Next(s, e).Some?
    ensures TimingInv(Next(s, e).value, g, TurnsAfter(turns, s, e, g))
  {
    if g >= |s.gens| {
      TimingNew(s, e, g);
    } else if e.OnMon? && e.g == g {
      TimingOwn(s, g, e.ma, turns, Next(s, e).value);
    } else {
      TimingAside(s, e, g, turns);
    }
  }

  lemma {:induction false} TimingRun(s: Sys, es: seq<Event>, g: nat, turns: seq<Escalation.Turn>)
    requires Inv(s) && TimingInv(s, g, turns) && Exec(s, es).Some?
    ensures Inv(Exec(s, es).value) && TimingInv(Exec(s, es).value, g, TurnsOf(s, es, g, turns))
    decreases |es|
  {
    if es != [] {
      InvStep(s, es[0], Next(s, es[0]).value);
      TimingStep(s, es[0], g, turns);
      TimingRun(Next(s, es[0]).value, es[1..], g, TurnsAfter(turns, s, es[0], g));
    }
  }

  // ----- how soon a stopped core is reaped

  /** No poll is overdue: the next one is due within a poll interval of the last, or of the request. */
  predicate NotOverdue(turns: seq<Escalation.Turn>, requested: nat, now: nat) {
    now <= (if turns == [] then requested else turns[|turns| - 1].poll) + Escalation.POLL_INTERVAL
  }

  lemma FlagIsSeen(G: Gen, now: nat, turns: seq<Escalation.Turn>)
    requires TurnsOk(G, now, turns) && G.marks != []
    ensures Escalation.SeesFlag(turns, G.marks[0].at)
  {
  }

  /**
   * In every run of the supervisor in which the monitor of a stopped generation is prompt, the generation is reaped
   * within the grace period, three poll intervals and one loop body of the first stop request: past that time it is
   * un-reaped only if a poll is overdue.
   */
  lemma StoppedCoreIsReaped(s: Sys, es: seq<Event>, g: nat, body: nat)
    requires Init(s) && Exec(s, es).Some?
    requires var s' := Exec(s, es).value;
             && g < |s'.gens| && s'.gens[g].marks != []
             && Escalation.Prompt(TurnsOf(s, es, g, []), s'.gens[g].marks[0].at, body)
             && NotOverdue(TurnsOf(s, es, g, []), s'.gens[g].marks[0].at, s'.now)
    ensures var s' := Exec(s, es).value;
            s'.now > s'.gens[g].marks[0].at + 5000 + 300 + body ==>
              !Unreaped(s'.gens[g].mon)
  {
    forall p | p in s.procs ensures ProcOk(s, p) { assert s.procs[p].kind == Other; }
    TimingRun(s, es, g, []);
    var s', turns := Exec(s, es).value, TurnsOf(s, es, g, []);
    var requested := s'.gens[g].marks[0].at;
    if Unreaped(s'.gens[g].mon) && turns != [] {
      FlagIsSeen(s'.gens[g], s'.now, turns);
      Escalation.NextPollInTime(turns, requested, body);
    }
  }
}
