/** The supervisor's interleaving machine refines a small atomic one. */
module SupervisorRefinement {
  import opened Text
  import opened Supervisor
  import opened SupervisorInvariant
  import Messages

  // ----- the atomic machine

  datatype SpecCore = Down | Up(g: nat, pid: int, port: nat) | Dying(g: nat, pid: int, port: nat)

  datatype Spec = Spec(owner: Option<nat>, core: SpecCore, created: nat)

  datatype Label =
    | Silent
    | Granted(id: nat) | TookOver(id: nat, loser: nat) | TurnedAway(id: nat) | Released(id: nat)
    | Created(g: nat, pid: int, port: nat) | Returned(pid: int, port: nat) | NotStarted
    | StopAsked(g: nat) | NothingToStop
    | Crashed(g: nat) | Ended(g: nat)

  /** What each operation does, atomically. */
  predicate SpecStep(a: Spec, l: Label, b: Spec) {
    match l
    case Silent => b == a
    case Granted(id) => a.owner == None && b == a.(owner := Some(id))
    case TookOver(id, loser) => a.owner == Some(loser) && id != loser && b == a.(owner := Some(id))
    case TurnedAway(id) => a.owner.Some? && a.owner != Some(id) && b == a
    case Released(id) => a.owner == Some(id) && b == a.(owner := None)
    case Created(g, pid, port) => a.core.Down? && g == a.created && b == a.(core := Up(g, pid, port), created := g + 1)
    case Returned(pid, port) => !a.core.Down? && a.core.pid == pid && a.core.port == port && b == a
    case NotStarted => a.core.Down? && b == a
    case StopAsked(g) => !a.core.Down? && a.core.g == g && b == a.(core := Dying(g, a.core.pid, a.core.port))
    case NothingToStop => a.core.Down? && b == a
    case Crashed(g) => a.core.Up? && a.core.g == g && b == a.(core := Down)
    case Ended(g) => a.core.Dying? && a.core.g == g && b == a.(core := Down)
  }

  predicate SpecRun(states: seq<Spec>, labels: seq<Label>) {
    |states| == |labels| + 1 && forall i :: 0 <= i < |labels| ==> SpecStep(states[i], labels[i], states[i + 1])
  }

  // ----- what a concrete step shows: the outcome as the acting thread sees it

  function Abs(s: Sys): Spec {
    Spec(s.st.owner,
         match s.st.core
         case Stopped => Down
         case Running(pid, port, stop) =>
           var g := if s.gens == [] then 0 else |s.gens| - 1;
           if stop then Dying(g, pid, port) else Up(g, pid, port),
         |s.gens|)
  }

  function ConnLabel(s: Sys, t: nat, a: ConnAct, s': Sys): Label
    requires t in s'.conns
  {
    var pc := s'.conns[t].pc;
    match a
    case Acquire => if pc.Declining? then TurnedAway(t) else if pc.Displacing? then TookOver(t, pc.loser) else Granted(t)
    case Release => if s.st.owner == Some(t) then Released(t) else Silent
    case Start(_) =>
      if pc.SpawnedCore? && pc.g < |s'.gens| then Created(pc.g, s'.gens[pc.g].pid, s'.gens[pc.g].port)
      else if pc.Replying? && pc.reply.Started? then Returned(pc.reply.pid, pc.reply.port)
      else NotStarted
    case Stop => if pc.Waiting? then StopAsked(pc.g) else NothingToStop
    case _ => Silent
  }

  function LabelOf(s: Sys, e: Event, s': Sys): Label {
    match e
    case OnConn(t, a) => if t in s'.conns then ConnLabel(s, t, a, s') else Silent
    case OnMon(g, a) =>
      if a.HandleExit? && g < |s'.gens| then (if s'.gens[g].mon.Finished? then Ended(g) else Crashed(g)) else Silent
    case _ => Silent
  }

  lemma OtherConnIsSilent(s: Sys, t: nat, a: ConnAct)
    requires t in s.conns && ConnNext(s, t, a).Some?
    requires !a.Acquire? && !a.Release? && !a.Start? && !a.Stop?
    ensures Abs(ConnNext(s, t, a).value) == Abs(s)
  {
    ActsKeepOwner(s, t, a);
    if a.SpawnMonitor? || a.FireDown? {
      HistoryIsSilent(s, t, a);
    } else {
      OtherActsKeepCore(s, t, a);
    }
  }

  lemma HistoryIsSilent(s: Sys, t: nat, a: ConnAct)
    requires t in s.conns && ConnNext(s, t, a).Some? && (a.SpawnMonitor? || a.FireDown?)
    ensures var s' := ConnNext(s, t, a).value; s'.st == s.st && |s'.gens| == |s.gens|
  {
  }

  lemma LeaseRefines(s: Sys, t: nat, a: ConnAct)
    requires Inv(s) && t in s.conns && ConnNext(s, t, a).Some? && (a.Acquire? || a.Release?)
    ensures var s' := ConnNext(s, t, a).value; t in s'.conns && SpecStep(Abs(s), ConnLabel(s, t, a, s'), Abs(s'))
  {
    assert LeaseOk(s, t);
  }

  lemma StartRefines(s: Sys, t: nat, spawned: Option<(Messages.I32, Messages.U16)>)
    requires t in s.conns && ConnNext(s, t, Start(spawned)).Some?
    ensures var s' := ConnNext(s, t, Start(spawned)).value;
            t in s'.conns && SpecStep(Abs(s), ConnLabel(s, t, Start(spawned), s'), Abs(s'))
  {
  }

  lemma StopRefines(s: Sys, t: nat)
    requires Inv(s) && t in s.conns && ConnNext(s, t, Stop).Some?
    ensures var s' := ConnNext(s, t, Stop).value;
            t in s'.conns && SpecStep(Abs(s), ConnLabel(s, t, Stop, s'), Abs(s'))
  {
    if s.st.core.Running? {
      assert GenOk(s, |s.gens| - 1);
    }
  }

  lemma ConnRefines(s: Sys, t: nat, a: ConnAct)
    requires Inv(s) && t in s.conns && ConnNext(s, t, a).Some?
    ensures var s' := ConnNext(s, t, a).value; t in s'.conns && SpecStep(Abs(s), ConnLabel(s, t, a, s'), Abs(s'))
  {
    match a {
      case Acquire => LeaseRefines(s, t, a);
      case Release => LeaseRefines(s, t, a);
      case Start(spawned) => StartRefines(s, t, spawned);
      case Stop => StopRefines(s, t);
      case _ => OtherConnIsSilent(s, t, a);
    }
  }

  lemma OtherMonIsSilent(s: Sys, g: nat, a: MonAct)
    requires g < |s.gens| && MonNext(s, g, a).Some? && !a.HandleExit?
    ensures var s' := MonNext(s, g, a).value; Abs(s') == Abs(s) && LabelOf(s, OnMon(g, a), s') == Silent
  {
  }

  lemma ExitRefines(s: Sys, g: nat)
    requires Inv(s) && g < |s.gens| && MonNext(s, g, HandleExit).Some?
    ensures var s' := MonNext(s, g, HandleExit).value; SpecStep(Abs(s), LabelOf(s, OnMon(g, HandleExit), s'), Abs(s'))
  {
    assert GenOk(s, g);
  }

  lemma MonRefines(s: Sys, g: nat, a: MonAct)
    requires Inv(s) && g < |s.gens| && MonNext(s, g, a).Some?
    ensures var s' := MonNext(s, g, a).value; SpecStep(Abs(s), LabelOf(s, OnMon(g, a), s'), Abs(s'))
  {
    if a.HandleExit? {
      ExitRefines(s, g);
    } else {
      OtherMonIsSilent(s, g, a);
    }
  }

  /** Every step of the interleaving machine is one step of the atomic machine, with the outcome the thread sees. */
  lemma StepRefines(s: Sys, e: Event)
    requires Inv(s) && Next(s, e).Some?
    ensures var s' := Next(s, e).value; SpecStep(Abs(s), LabelOf(s, e, s'), Abs(s'))
  {
    match e {
      case OnConn(t, a) => ConnRefines(s, t, a);
      case OnMon(g, a) => MonRefines(s, g, a);
      case _ =>
    }
  }

  // ----- runs

  function Labels(s: Sys, es: seq<Event>): (ls: seq<Label>)
    requires Exec(s, es).Some?
    ensures |ls| == |es|
    decreases |es|
  {
    if es == [] then [] else
      var s' := Next(s, es[0]).value;
      [LabelOf(s, es[0], s')] + Labels(s', es[1..])
  }

  function AbsTrace(s: Sys, es: seq<Event>): (tr: seq<Spec>)
    requires Exec(s, es).Some?
    ensures |tr| == |es| + 1 && tr[0] == Abs(s)
    decreases |es|
  {
    if es == [] then [Abs(s)] else [Abs(s)] + AbsTrace(Next(s, es[0]).value, es[1..])
  }

  lemma RunStarts(a: Spec, l: Label, tr: seq<Spec>, ls: seq<Label>)
    requires SpecRun(tr, ls) && SpecStep(a, l, tr[0])
    ensures SpecRun([a] + tr, [l] + ls)
  {
    var tr', ls' := [a] + tr, [l] + ls;
    forall i | 0 <= i < |ls'| ensures SpecStep(tr'[i], ls'[i], tr'[i + 1]) {
      if i > 0 {
        assert SpecStep(tr[i - 1], ls[i - 1], tr[i]);
      }
    }
  }

  /** Every run of the supervisor is, state by state, a run of the atomic machine. */
  lemma {:induction false} RunRefines(s: Sys, es: seq<Event>)
    requires Inv(s) && Exec(s, es).Some?
    ensures SpecRun(AbsTrace(s, es), Labels(s, es))
    ensures AbsTrace(s, es)[|es|] == Abs(Exec(s, es).value)
    decreases |es|
  {
    if es != [] {
      var s1 := Next(s, es[0]).value;
      StepRefines(s, es[0]);
      InvStep(s, es[0], s1);
      RunRefines(s1, es[1..]);
      RunStarts(Abs(s), LabelOf(s, es[0], s1), AbsTrace(s1, es[1..]), Labels(s1, es[1..]));
    }
  }

  // ----- what the atomic machine gives

  function Count(ls: seq<Label>, created: bool): nat {
    if ls == [] then 0
    else
      var l := ls[|ls| - 1];
      Count(ls[..|ls| - 1], created)
      + (if (if created then l.Created? else l.Crashed? || l.Ended?) then 1 else 0)
  }

  /** Cores are conserved: as many were created as exited, but for the one that is up. */
  lemma {:induction false} CoresAreConserved(tr: seq<Spec>, ls: seq<Label>)
    requires SpecRun(tr, ls) && tr[0].core.Down?
    ensures Count(ls, true) == Count(ls, false) + (if tr[|ls|].core.Down? then 0 else 1)
    ensures tr[|ls|].created == tr[0].created + Count(ls, true)
  {
    if ls != [] {
      var n := |ls| - 1;
      var tr', ls' := tr[..n + 1], ls[..n];
      assert forall i :: 0 <= i < n ==> SpecStep(tr'[i], ls'[i], tr'[i + 1]) by {
        assert forall i :: 0 <= i < n ==> SpecStep(tr[i], ls[i], tr[i + 1]);
      }
      CoresAreConserved(tr', ls');
      assert SpecStep(tr[n], ls[n], tr[n + 1]);
    }
  }

  /** In every run of the supervisor from its start, creations and exits of cores balance in the same way. */
  lemma CoresBalance(s: Sys, es: seq<Event>)
    requires Init(s) && Exec(s, es).Some?
    ensures var s', ls := Exec(s, es).value, Labels(s, es);
            && |s'.gens| == Count(ls, true)
            && Count(ls, true) == Count(ls, false) + (if s'.st.core.Stopped? then 0 else 1)
  {
    forall p | p in s.procs ensures ProcOk(s, p) { assert s.procs[p].kind == Other; }
    RunRefines(s, es);
    CoresAreConserved(AbsTrace(s, es), Labels(s, es));
  }
}
