/** Which hooks run: the `up` hook of every start that makes a core, and nothing but `down` hooks otherwise. */
module SupervisorHooks {
  import opened Text
  import Messages
  import opened Supervisor
  import opened SupervisorInvariant
  import opened SupervisorTheorems

  /** How many `up` hooks have run for one generation. */
  function UpsOf(hooks: seq<HookRun>, g: nat): nat {
    if hooks == [] then 0
    else
      var last := hooks[|hooks| - 1];
      UpsOf(hooks[..|hooks| - 1], g) + (if last.up && last.gen == Some(g) then 1 else 0)
  }

  lemma UpsPush(hooks: seq<HookRun>, h: HookRun, g: nat)
    ensures UpsOf(hooks + [h], g) == UpsOf(hooks, g) + (if h.up && h.gen == Some(g) then 1 else 0)
  {
    assert (hooks + [h])[..|hooks|] == hooks;
  }

  lemma {:induction false} UpsSame(hooks: seq<HookRun>, hooks': seq<HookRun>, g: nat)
    requires |hooks'| == |hooks|
    requires forall i :: 0 <= i < |hooks| ==> hooks'[i].up == hooks[i].up && hooks'[i].gen == hooks[i].gen
    ensures UpsOf(hooks', g) == UpsOf(hooks, g)
  {
    if hooks != [] {
      UpsSame(hooks[..|hooks| - 1], hooks'[..|hooks| - 1], g);
    }
  }

  /** The starter of generation `g` has not come to its `up` hook. */
  predicate NotYet(pc: ConnPc, g: nat) {
    pc == SpawnedCore(g) || pc == FiringUp(g)
  }

  predicate FiresUp(s: Sys, e: Event, g: nat) {
    e.OnConn? && e.ca.FireUp? && e.t in s.conns && s.conns[e.t].pc == FiringUp(g)
  }

  /** Whether the `up` script was there when the starter of generation `g` came to its hook; None before. */
  function ScriptFor(s: Sys, es: seq<Event>, g: nat, found: Option<bool>): Option<bool>
    requires Exec(s, es).Some?
    decreases |es|
  {
    if es == [] then found
    else ScriptFor(Next(s, es[0]).value, es[1..], g, if FiresUp(s, es[0], g) then Some(es[0].ca.script) else found)
  }

  predicate UpInv(s: Sys, g: nat, found: Option<bool>) {
    && UpsOf(s.hooks, g) == (if found == Some(true) then 1 else 0)
    && if g >= |s.gens| then found.None?
       else
         var u := s.gens[g].starter;
         u in s.conns && (found.None? <==> NotYet(s.conns[u].pc, g))
  }

  lemma ActAddsNoUp(s: Sys, t: nat, a: ConnAct, g: nat)
    requires t in s.conns && ConnNext(s, t, a).Some? && !a.FireUp?
    ensures UpsOf(ConnNext(s, t, a).value.hooks, g) == UpsOf(s.hooks, g)
  {
    var pc := s.conns[t].pc;
    match a {
      case FireDown(script) => UpsPush(s.hooks, HookRun(false, Some(pc.reason), Some(t), Some(pc.g), false), g);
      case EndKilling(script) => UpsPush(s.hooks, HookRun(false, Some(JanitorKill), Some(t), None, false), g);
      case _ => ActsFireNothing(s, t, a);
    }
  }

  lemma MonAddsNoUp(s: Sys, h: nat, a: MonAct, g: nat)
    requires h < |s.gens| && MonNext(s, h, a).Some?
    ensures UpsOf(MonNext(s, h, a).value.hooks, g) == UpsOf(s.hooks, g)
  {
    match a {
      case FireHook(script) => UpsPush(s.hooks, HookRun(false, Some(CoreExited), None, Some(h), false), g);
      case EndSweep(script) => UpsPush(s.hooks, HookRun(false, Some(JanitorKill), None, None, false), g);
      case _ => MonFiresNothing(s, h, a);
    }
  }

  lemma MonFiresNothing(s: Sys, h: nat, a: MonAct)
    requires h < |s.gens| && MonNext(s, h, a).Some? && !a.FireHook? && !a.EndSweep?
    ensures MonNext(s, h, a).value.hooks == s.hooks
  {
  }

  predicate StartersKept(s: Sys, s': Sys) {
    && |s.gens| <= |s'.gens|
    && forall g :: 0 <= g < |s.gens| ==> s'.gens[g].starter == s.gens[g].starter
  }

  lemma StartFacts(s: Sys, t: nat, spawned: Option<(Messages.I32, Messages.U16)>)
    requires t in s.conns && ConnNext(s, t, Start(spawned)).Some?
    ensures var s', isNew := ConnNext(s, t, Start(spawned)).value, s.st.core.Stopped? && spawned.Some?;
            && s.conns[t].pc.Starting? && s'.hooks == s.hooks && t in s'.conns
            && |s'.gens| == |s.gens| + (if isNew then 1 else 0)
            && (forall g :: 0 <= g < |s.gens| ==> s'.gens[g] == s.gens[g])
            && (isNew ==> s'.gens[|s.gens|].starter == t)
            && (if isNew then s'.conns[t].pc == SpawnedCore(|s.gens|) else s'.conns[t].pc.Replying?)
  {
  }

  lemma ConnKeepsStarters(s: Sys, t: nat, a: ConnAct)
    requires t in s.conns && ConnNext(s, t, a).Some?
    ensures StartersKept(s, ConnNext(s, t, a).value)
    ensures !a.Start? ==> |ConnNext(s, t, a).value.gens| == |s.gens|
  {
    if a.Start? {
      StartFacts(s, t, a.spawned);
    } else if OfStop(a) {
      StopKeepsStarters(s, t, a);
    } else if !a.SpawnMonitor? {
      OtherActsKeepCore(s, t, a);
    }
  }

  lemma StopKeepsStarters(s: Sys, t: nat, a: ConnAct)
    requires t in s.conns && ConnNext(s, t, a).Some? && OfStop(a)
    ensures StartersKept(s, ConnNext(s, t, a).value) && |ConnNext(s, t, a).value.gens| == |s.gens|
  {
  }

  lemma UpStart(s: Sys, t: nat, spawned: Option<(Messages.I32, Messages.U16)>, g: nat, found: Option<bool>)
    requires UpInv(s, g, found) && t in s.conns && ConnNext(s, t, Start(spawned)).Some?
    ensures UpInv(ConnNext(s, t, Start(spawned)).value, g, found)
  {
    StartFacts(s, t, spawned);
    LoopStands(s, t, Start(spawned));
  }

  lemma UpFired(s: Sys, t: nat, script: bool, g: nat, found: Option<bool>)
    requires Inv(s) && UpInv(s, g, found) && t in s.conns && ConnNext(s, t, FireUp(script)).Some?
    ensures UpInv(ConnNext(s, t, FireUp(script)).value, g, if s.conns[t].pc == FiringUp(g) then Some(script) else found)
  {
    assert LinkOk(s, t);
    UpsPush(s.hooks, HookRun(true, None, Some(t), Some(s.conns[t].pc.g), false), g);
    LoopStands(s, t, FireUp(script));
    OtherActsKeepCore(s, t, FireUp(script));
  }

  /** A thread comes to its hook only by a start, and leaves for it only by monitor and hook. */
  lemma NotYetStays(s: Sys, t: nat, a: ConnAct, g: nat)
    requires t in s.conns && ConnNext(s, t, a).Some? && !a.Start? && !a.FireUp?
    ensures t in ConnNext(s, t, a).value.conns
    ensures NotYet(ConnNext(s, t, a).value.conns[t].pc, g) <==> NotYet(s.conns[t].pc, g)
  {
  }

  lemma UpOther(s: Sys, t: nat, a: ConnAct, g: nat, found: Option<bool>)
    requires Inv(s) && UpInv(s, g, found) && t in s.conns && ConnNext(s, t, a).Some? && !a.Start? && !a.FireUp?
    ensures UpInv(ConnNext(s, t, a).value, g, found)
  {
    ActAddsNoUp(s, t, a, g);
    ActsKeepPlaces(s, t, a);
    NotYetStays(s, t, a, g);
    ConnKeepsStarters(s, t, a);
  }

  lemma UpStep(s: Sys, e: Event, g: nat, found: Option<bool>)
    requires Inv(s) && UpInv(s, g, found) && Next(s, e).Some?
    ensures UpInv(Next(s, e).value, g, if FiresUp(s, e, g) then Some(e.ca.script) else found)
  {
    match e {
      case Arrive(_) => IdIsFresh(s);
      case OnConn(t, a) =>
        match a {
          case Start(spawned) => UpStart(s, t, spawned, g, found);
          case FireUp(script) => UpFired(s, t, script, g, found);
          case _ => UpOther(s, t, a, g, found);
        }
      case OnMon(h, a) =>
        MonAddsNoUp(s, h, a, g);
        MonKeepsThreads(s, h, a);
        MonKeepsMarks(s, h, a);
      case HookEnds(h) => UpsSame(s.hooks, Next(s, e).value.hooks, g);
      case _ =>
    }
  }

  lemma {:induction false} UpRun(s: Sys, es: seq<Event>, g: nat, found: Option<bool>)
    requires Inv(s) && UpInv(s, g, found) && Exec(s, es).Some?
    ensures UpInv(Exec(s, es).value, g, ScriptFor(s, es, g, found))
    decreases |es|
  {
    if es != [] {
      InvStep(s, es[0], Next(s, es[0]).value);
      UpStep(s, es[0], g, found);
      UpRun(Next(s, es[0]).value, es[1..], g, if FiresUp(s, es[0], g) then Some(es[0].ca.script) else found);
    }
  }

  /**
   * Once the starter of a generation is past its hook, exactly one `up` hook has run for the generation if the script
   * was there, and none if not; before that none has.
   */
  lemma UpHookRunsOnce(s: Sys, es: seq<Event>, g: nat)
    requires Init(s) && Exec(s, es).Some? && g < |Exec(s, es).value.gens|
    ensures var s' := Exec(s, es).value;
            var u := s'.gens[g].starter;
            && u in s'.conns
            && (if NotYet(s'.conns[u].pc, g) then UpsOf(s'.hooks, g) == 0
                else
                  && ScriptFor(s, es, g, None).Some?
                  && UpsOf(s'.hooks, g) == if ScriptFor(s, es, g, None).value then 1 else 0)
  {
    forall p | p in s.procs ensures ProcOk(s, p) { assert s.procs[p].kind == Other; }
    UpRun(s, es, g, None);
  }

  // ----- who runs which hook

  /**
   * An `up` hook is run by the thread that made its generation; a `down` hook has a reason, and a generation unless
   * it reports a sweep. A crash is reported by a monitor, a stop by the thread that asked for it.
   */
  predicate HookOk(s: Sys, h: nat)
    requires h < |s.hooks|
  {
    var r := s.hooks[h];
    && (r.gen.Some? ==> r.gen.value < |s.gens|)
    && if r.up then r.reason.None? && r.gen.Some? && r.thread == Some(s.gens[r.gen.value].starter)
       else
         && r.reason.Some? && (r.gen.None? <==> r.reason == Some(JanitorKill))
         && (r.reason == Some(CoreExited) ==> r.thread.None?)
         && (r.reason == Some(Requested) || r.reason == Some(OwnerDrop) ==> r.thread.Some?)
  }

  ghost predicate HooksInv(s: Sys) {
    forall h {:trigger HookOk(s, h)} :: 0 <= h < |s.hooks| ==> HookOk(s, h)
  }

  lemma HooksPush(s: Sys, s': Sys, r: HookRun)
    requires HooksInv(s) && StartersKept(s, s') && s'.hooks == s.hooks + [r] && HookOk(s', |s.hooks|)
    ensures HooksInv(s')
  {
    forall h: nat | h < |s'.hooks| ensures HookOk(s', h) {
      if h < |s.hooks| {
        assert HookOk(s, h);
      }
    }
  }

  lemma HooksSame(s: Sys, s': Sys)
    requires HooksInv(s) && StartersKept(s, s') && |s'.hooks| == |s.hooks|
    requires forall h :: 0 <= h < |s.hooks| ==> s'.hooks[h] == s.hooks[h].(finished := s'.hooks[h].finished)
    ensures HooksInv(s')
  {
    forall h: nat | h < |s'.hooks| ensures HookOk(s', h) { assert HookOk(s, h); }
  }

  lemma HooksByAct(s: Sys, t: nat, a: ConnAct)
    requires Inv(s) && HooksInv(s) && t in s.conns && ConnNext(s, t, a).Some?
    ensures HooksInv(ConnNext(s, t, a).value)
  {
    var s' := ConnNext(s, t, a).value;
    ConnKeepsStarters(s, t, a);
    if a.FireUp? || a.FireDown? || a.EndKilling? {
      assert LinkOk(s, t) && LeaseOk(s, t);
      if s'.hooks != s.hooks {
        ActRunsHook(s, t, a);
        HooksPush(s, s', s'.hooks[|s.hooks|]);
      } else {
        HooksSame(s, s');
      }
    } else {
      ActsFireNothing(s, t, a);
      HooksSame(s, s');
    }
  }

  lemma ActRunsHook(s: Sys, t: nat, a: ConnAct)
    requires t in s.conns && LinkOk(s, t) && LeaseOk(s, t) && ConnNext(s, t, a).Some?
    requires (a.FireUp? || a.FireDown? || a.EndKilling?) && ConnNext(s, t, a).value.hooks != s.hooks
    ensures var s' := ConnNext(s, t, a).value;
            |s'.hooks| == |s.hooks| + 1 && s'.hooks == s.hooks + [s'.hooks[|s.hooks|]] && HookOk(s', |s.hooks|)
  {
  }

  lemma HooksByMon(s: Sys, g: nat, a: MonAct)
    requires HooksInv(s) && g < |s.gens| && MonNext(s, g, a).Some?
    ensures HooksInv(MonNext(s, g, a).value)
  {
    var s' := MonNext(s, g, a).value;
    MonKeepsMarks(s, g, a);
    if a.FireHook? || a.EndSweep? {
      if s'.hooks != s.hooks {
        MonRunsHook(s, g, a);
        HooksPush(s, s', s'.hooks[|s.hooks|]);
      } else {
        HooksSame(s, s');
      }
    } else {
      MonFiresNothing(s, g, a);
      HooksSame(s, s');
    }
  }

  lemma MonRunsHook(s: Sys, g: nat, a: MonAct)
    requires g < |s.gens| && MonNext(s, g, a).Some? && (a.FireHook? || a.EndSweep?)
    requires MonNext(s, g, a).value.hooks != s.hooks
    ensures var s' := MonNext(s, g, a).value;
            |s'.hooks| == |s.hooks| + 1 && s'.hooks == s.hooks + [s'.hooks[|s.hooks|]] && HookOk(s', |s.hooks|)
  {
  }

  lemma {:induction false} HooksRun(s: Sys, es: seq<Event>)
    requires Inv(s) && HooksInv(s) && Exec(s, es).Some?
    ensures HooksInv(Exec(s, es).value)
    decreases |es|
  {
    if es != [] {
      var s1 := Next(s, es[0]).value;
      match es[0] {
        case OnConn(t, a) => HooksByAct(s, t, a);
        case OnMon(g, a) => HooksByMon(s, g, a);
        case _ => HooksSame(s, s1);
      }
      InvStep(s, es[0], s1);
      HooksRun(s1, es[1..]);
    }
  }

  lemma WhoRunsHooks(s: Sys, h: nat)
    requires Reachable(s) && h < |s.hooks|
    ensures HookOk(s, h)
  {
    var s0, es :| Init(s0) && Exec(s0, es) == Some(s);
    forall p | p in s0.procs ensures ProcOk(s0, p) { assert s0.procs[p].kind == Other; }
    HooksRun(s0, es);
  }
}
