/**
 * The app's auto-restart policy. All of it runs on one actor, so a step is what happens between two awaits: any
 * number of `connect` and `disconnect` calls and restart loops can be suspended at an await at the same time.
 */
module RestartPolicy {
  import opened Text

  const MAX_AUTO_RESTART: nat := 3

  datatype ConnectionState = Disconnected | Connecting | Connected | Disconnecting

  /** Where a `connect` or `disconnect` call is suspended. */
  datatype Call = Validating(text: string) | Dialling(text: string) | HangingUp | Returned

  datatype LoopPc = Created | Sleeping(attempt: nat) | Redialling | Ended

  /** One restart task; `dials` is history. */
  datatype Loop = Loop(pc: LoopPc, cancelled: bool, dials: nat)

  datatype App = App(
    state: ConnectionState, failures: nat, running: Option<string>, autoRestart: bool,
    task: Option<nat>,                                // `restartTask`, an index into `loops`
    loops: seq<Loop>, calls: seq<Call>
  )

  datatype Event =
    | ConnectCalled(config: Option<string>)           // None if the file cannot be read
    | Validated(i: nat, ok: bool)
    | Dialled(i: nat, ok: bool)
    | DisconnectCalled
    | HungUp(i: nat)
    | CoreExited
    | Kicked
    | AutoRestartSet(on: bool)
    | LoopStarts(j: nat)
    | LoopWakes(j: nat)
    | LoopDialled(j: nat, ok: bool)

  /** `restartTask?.cancel()` */
  function CancelTask(a: App): App {
    match a.task
    case None => a
    case Some(j) => if j < |a.loops| then a.(loops := a.loops[j := a.loops[j].(cancelled := true)]) else a
  }

  function SetCall(a: App, i: nat, c: Call): App
    requires i < |a.calls|
  {
    a.(calls := a.calls[i := c])
  }

  function SetLoop(a: App, j: nat, l: Loop): App
    requires j < |a.loops|
  {
    a.(loops := a.loops[j := l])
  }

  function AfterConnect(a: App, config: Option<string>): App {
    if !a.state.Disconnected? then a
    else
      match config
      case None => CancelTask(a)
      case Some(text) => CancelTask(a).(state := Connecting, calls := a.calls + [Validating(text)])
  }

  function AfterValidated(a: App, i: nat, ok: bool): App
    requires i < |a.calls| && a.calls[i].Validating?
  {
    if ok then SetCall(a, i, Dialling(a.calls[i].text)) else SetCall(a, i, Returned).(state := Disconnected)
  }

  function AfterDialled(a: App, i: nat, ok: bool): App
    requires i < |a.calls| && a.calls[i].Dialling?
  {
    var a1 := SetCall(a, i, Returned);
    if ok then a1.(running := Some(a.calls[i].text), failures := 0, state := Connected)
    else a1.(state := Disconnected)
  }

  function AfterDisconnect(a: App): App {
    if !a.state.Connected? && !a.state.Connecting? then a
    else CancelTask(a).(state := Disconnecting, calls := a.calls + [HangingUp])
  }

  function AfterHungUp(a: App, i: nat): App
    requires i < |a.calls|
  {
    SetCall(a, i, Returned).(running := None, failures := 0, state := Disconnected)
  }

  function AfterCoreExit(a: App): App {
    if !a.state.Connected? || a.running.None? then a
    else if !a.autoRestart then a.(state := Disconnected)
    else
      var a1 := CancelTask(a);
      a1.(state := Connecting, task := Some(|a.loops|), loops := a1.loops + [Loop(Created, false, 0)])
  }

  function AfterKick(a: App): App {
    CancelTask(a).(state := Disconnected, running := None)
  }

  /** The top of the restart loop: give up, or sleep before the next attempt. */
  function LoopTop(a: App, j: nat): App
    requires j < |a.loops|
  {
    if a.failures + 1 > MAX_AUTO_RESTART then
      SetLoop(a, j, a.loops[j].(pc := Ended)).(state := Disconnected, running := None)
    else SetLoop(a, j, a.loops[j].(pc := Sleeping(a.failures + 1)))
  }

  function AfterSleep(a: App, j: nat): App
    requires j < |a.loops|
  {
    var l := a.loops[j];
    SetLoop(a, j, if l.cancelled then l.(pc := Ended) else l.(pc := Redialling, dials := l.dials + 1))
  }

  function AfterRedial(a: App, j: nat, ok: bool): App
    requires j < |a.loops|
  {
    if a.loops[j].cancelled then SetLoop(a, j, a.loops[j].(pc := Ended))
    else if ok then SetLoop(a, j, a.loops[j].(pc := Ended)).(failures := 0, state := Connected)
    else LoopTop(a.(failures := a.failures + 1), j)
  }

  function Next(a: App, e: Event): Option<App> {
    match e
    case ConnectCalled(config) => Some(AfterConnect(a, config))
    case Validated(i, ok) => if i < |a.calls| && a.calls[i].Validating? then Some(AfterValidated(a, i, ok)) else None
    case Dialled(i, ok) => if i < |a.calls| && a.calls[i].Dialling? then Some(AfterDialled(a, i, ok)) else None
    case DisconnectCalled => Some(AfterDisconnect(a))
    case HungUp(i) => if i < |a.calls| && a.calls[i].HangingUp? then Some(AfterHungUp(a, i)) else None
    case CoreExited => Some(AfterCoreExit(a))
    case Kicked => Some(AfterKick(a))
    case AutoRestartSet(on) => Some(a.(autoRestart := on))
    case LoopStarts(j) => if j < |a.loops| && a.loops[j].pc.Created? then Some(LoopTop(a, j)) else None
    case LoopWakes(j) => if j < |a.loops| && a.loops[j].pc.Sleeping? then Some(AfterSleep(a, j)) else None
    case LoopDialled(j, ok) => if j < |a.loops| && a.loops[j].pc.Redialling? then Some(AfterRedial(a, j, ok)) else None
  }

  function Exec(a: App, es: seq<Event>): Option<App>
    decreases |es|
  {
    if es == [] then Some(a)
    else
      match Next(a, es[0])
      case None => None
      case Some(a') => Exec(a', es[1..])
  }

  function Launched(autoRestart: bool): App {
    App(Disconnected, 0, None, autoRestart, None, [], [])
  }

  // ----- the invariant

  /** A loop that still drives restarts. */
  predicate Active(l: Loop) {
    !l.cancelled && !l.pc.Ended?
  }

  predicate Inv(a: App) {
    && a.failures <= MAX_AUTO_RESTART
    && (a.state.Connected? ==> a.failures < MAX_AUTO_RESTART)
    && (forall j :: 0 <= j < |a.loops| && Active(a.loops[j]) ==> a.task == Some(j) && a.failures < MAX_AUTO_RESTART)
  }

  lemma CancelLeavesNone(a: App)
    requires Inv(a)
    ensures var a1 := CancelTask(a);
            && |a1.loops| == |a.loops| && a1 == a.(loops := a1.loops)
            && forall j :: 0 <= j < |a1.loops| ==> !Active(a1.loops[j])
  {
  }

  lemma InvStep(a: App, e: Event)
    requires Inv(a) && Next(a, e).Some?
    ensures Inv(Next(a, e).value)
  {
    CancelLeavesNone(a);
  }

  lemma {:induction false} InvRun(a: App, es: seq<Event>)
    requires Inv(a) && Exec(a, es).Some?
    ensures Inv(Exec(a, es).value)
    decreases |es|
  {
    if es != [] {
      InvStep(a, es[0]);
      InvRun(Next(a, es[0]).value, es[1..]);
    }
  }

  /** In every run at most one restart loop is active, and the counter never passes the limit. */
  lemma OneLoopAndBoundedFailures(autoRestart: bool, es: seq<Event>, i: nat, j: nat)
    requires Exec(Launched(autoRestart), es).Some?
    ensures var a := Exec(Launched(autoRestart), es).value;
            && a.failures <= 3
            && (i < |a.loops| && j < |a.loops| && Active(a.loops[i]) && Active(a.loops[j]) ==> i == j)
            && (i < |a.loops| && Active(a.loops[i]) ==> a.task == Some(i))
  {
    InvRun(Launched(autoRestart), es);
  }

  // ----- a loop left alone

  predicate OfLoop(e: Event, j: nat) {
    match e
    case LoopStarts(k) => k == j
    case LoopWakes(k) => k == j
    case LoopDialled(k, _) => k == j
    case _ => false
  }

  /** How many steps an active loop has left at most; each attempt takes two. */
  function StepsLeft(a: App, j: nat): nat
    requires Inv(a) && j < |a.loops|
  {
    var left := MAX_AUTO_RESTART - a.failures;
    if a.loops[j].cancelled then 0
    else
      match a.loops[j].pc
      case Created => 2 * left + 1
      case Sleeping(_) => 2 * left
      case Redialling => if left == 0 then 0 else 2 * left - 1
      case Ended => 0
  }

  /** How many attempts it has left at most. */
  function DialsLeft(a: App, j: nat): nat
    requires Inv(a) && j < |a.loops|
  {
    var left := MAX_AUTO_RESTART - a.failures;
    match a.loops[j].pc
    case Created | Sleeping(_) => left
    case Redialling => if left == 0 then 0 else left - 1
    case Ended => 0
  }

  lemma AloneStep(a: App, e: Event, j: nat)
    requires Inv(a) && j < |a.loops| && Active(a.loops[j]) && OfLoop(e, j) && Next(a, e).Some?
    ensures var a' := Next(a, e).value;
            && Inv(a') && j < |a'.loops| && !a'.loops[j].cancelled
            && StepsLeft(a', j) < StepsLeft(a, j)
            && a'.loops[j].dials + DialsLeft(a', j) <= a.loops[j].dials + DialsLeft(a, j)
            && (a'.loops[j].pc.Ended? ==> a'.state.Connected? || a'.state.Disconnected?)
  {
    InvStep(a, e);
  }

  /**
   * A loop left alone makes at most as many attempts as the limit, takes at most two steps for each and one to
   * start, and when it is over the app is connected or disconnected. Until then it has a step to take.
   */
  lemma {:induction false} LoopLeftAlone(a: App, es: seq<Event>, j: nat)
    requires Inv(a) && j < |a.loops| && Active(a.loops[j])
    requires Exec(a, es).Some? && forall e :: e in es ==> OfLoop(e, j)
    ensures var a' := Exec(a, es).value;
            && j < |a'.loops|
            && |es| <= StepsLeft(a, j) <= 7
            && a'.loops[j].dials <= a.loops[j].dials + DialsLeft(a, j)
            && DialsLeft(a, j) <= 3
            && (es != [] && a'.loops[j].pc.Ended? ==> a'.state.Connected? || a'.state.Disconnected?)
            && (!a'.loops[j].pc.Ended? ==> exists e :: OfLoop(e, j) && Next(a', e).Some?)
    decreases |es|
  {
    if es == [] {
      assert OfLoop(LoopStarts(j), j) && OfLoop(LoopWakes(j), j) && OfLoop(LoopDialled(j, true), j);
      match a.loops[j].pc {
        case Created => assert Next(a, LoopStarts(j)).Some?;
        case Sleeping(_) => assert Next(a, LoopWakes(j)).Some?;
        case Redialling => assert Next(a, LoopDialled(j, true)).Some?;
        case Ended =>
      }
    } else {
      assert es[0] in es && forall e :: e in es[1..] ==> e in es;
      AloneStep(a, es[0], j);
      var a1 := Next(a, es[0]).value;
      if a1.loops[j].pc.Ended? {
        EndedLoopIsStill(a1, es[1..], j);
      } else {
        LoopLeftAlone(a1, es[1..], j);
      }
    }
  }

  lemma EndedLoopIsStill(a: App, es: seq<Event>, j: nat)
    requires j < |a.loops| && a.loops[j].pc.Ended?
    requires Exec(a, es).Some? && forall e :: e in es ==> OfLoop(e, j)
    ensures es == []
  {
    if es != [] {
      assert OfLoop(es[0], j) by { assert es[0] in es; }
    }
  }

  // ----- how a loop left alone ends

  /** A dial of loop `j` that failed. */
  predicate FailedDial(e: Event, j: nat) {
    e == LoopDialled(j, false)
  }

  predicate GoodDial(e: Event, j: nat) {
    e == LoopDialled(j, true)
  }

  function Failures(es: seq<Event>, j: nat): nat {
    if es == [] then 0 else (if FailedDial(es[0], j) then 1 else 0) + Failures(es[1..], j)
  }

  lemma AloneEffect(a: App, e: Event, j: nat)
    requires Inv(a) && j < |a.loops| && Active(a.loops[j]) && OfLoop(e, j) && Next(a, e).Some?
    ensures var a' := Next(a, e).value;
            && j < |a'.loops|
            && (GoodDial(e, j) ==>
                  a'.loops[j].pc.Ended? && a'.state == Connected && a'.failures == 0 && a'.running == a.running)
            && (!GoodDial(e, j) ==> a'.failures == a.failures + (if FailedDial(e, j) then 1 else 0))
            && (!GoodDial(e, j) && a'.loops[j].pc.Ended? ==>
                  a'.failures == 3 && a'.state == Disconnected && a'.running == None)
            && (!a'.loops[j].pc.Ended? ==> a'.state == a.state && a'.running == a.running && a'.failures < 3)
  {
  }

  /**
   * How a loop left alone ends. It ends connected, the counter back at zero and the configuration kept, if and only
   * if its last event is a successful dial; or disconnected with no configuration, if and only if every dial failed
   * and the counter came to three. Until it ends nothing but the counter changes.
   */
  lemma {:induction false} LoopOutcome(a: App, es: seq<Event>, j: nat)
    requires Inv(a) && j < |a.loops| && Active(a.loops[j])
    requires es != [] && Exec(a, es).Some? && forall e :: e in es ==> OfLoop(e, j)
    ensures var a' := Exec(a, es).value;
            && j < |a'.loops|
            && (forall i :: 0 <= i < |es| - 1 ==> !GoodDial(es[i], j))
            && if GoodDial(es[|es| - 1], j) then
                 a'.loops[j].pc.Ended? && a'.state == Connected && a'.failures == 0 && a'.running == a.running
               else
                 && a'.failures == a.failures + Failures(es, j)
                 && (if a'.loops[j].pc.Ended? then a'.failures == 3 && a'.state == Disconnected && a'.running == None
                     else a'.failures < 3 && a'.state == a.state && a'.running == a.running)
    decreases |es|
  {
    var e, rest := es[0], es[1..];
    var a1 := Next(a, e).value;
    assert e in es && forall e' :: e' in rest ==> e' in es;
    AloneEffect(a, e, j);
    AloneStep(a, e, j);
    if a1.loops[j].pc.Ended? {
      EndedLoopIsStill(a1, rest, j);
    }
    if rest == [] {
      assert es == [e];
      assert Failures(rest, j) == 0;
    } else {
      LoopOutcome(a1, rest, j);
      assert rest[|rest| - 1] == es[|es| - 1];
      forall i | 0 <= i < |es| - 1 ensures !GoodDial(es[i], j) {
        if i > 0 {
          assert es[i] == rest[i - 1];
        }
      }
    }
  }

  // ----- how the calls end

  /** A `connect` that is not disturbed: it ends connected on its text, the counter at zero, or where it began. */
  lemma ConnectOutcome(a: App, text: string, valid: bool, ok: bool)
    requires a.state == Disconnected
    ensures Next(a, ConnectCalled(None)).Some? && Next(a, ConnectCalled(None)).value.state == Disconnected
    ensures var i := |a.calls|;
            var es := [ConnectCalled(Some(text)), Validated(i, valid)] + (if valid then [Dialled(i, ok)] else []);
            && Exec(a, es).Some?
            && var a' := Exec(a, es).value;
               && i < |a'.calls| && a'.calls[i] == Returned
               && (if valid && ok then a'.state == Connected && a'.running == Some(text) && a'.failures == 0
                   else a'.state == Disconnected && a'.running == a.running && a'.failures == a.failures)
  {
    var i := |a.calls|;
    var e1, e2, e3 := ConnectCalled(Some(text)), Validated(i, valid), Dialled(i, ok);
    var a1 := Next(a, e1).value;
    var a2 := Next(a1, e2).value;
    if valid {
      var es := [e1, e2] + [e3];
      assert es[1..] == [e2, e3] && es[1..][1..] == [e3] && [e3][1..] == [];
      assert Exec(a2, [e3]) == Next(a2, e3);
      assert Exec(a1, [e2, e3]) == Exec(a2, [e3]);
    } else {
      var es := [e1, e2] + [];
      assert es == [e1, e2] && es[1..] == [e2] && [e2][1..] == [];
      assert Exec(a1, [e2]) == Next(a1, e2);
    }
  }

  /** A `connect` or `disconnect` in the wrong state does nothing. */
  lemma CallsAreGuarded(a: App, config: Option<string>)
    ensures a.state != Disconnected ==> Next(a, ConnectCalled(config)) == Some(a)
    ensures a.state == Disconnected || a.state == Disconnecting ==> Next(a, DisconnectCalled) == Some(a)
  {
  }

  /** A `disconnect` ends disconnected, with no configuration and the counter at zero, and no loop active. */
  lemma DisconnectOutcome(a: App)
    requires Inv(a) && (a.state == Connected || a.state == Connecting)
    ensures var i := |a.calls|;
            var es := [DisconnectCalled, HungUp(i)];
            && Exec(a, es).Some?
            && var a' := Exec(a, es).value;
               && a'.state == Disconnected && a'.running == None && a'.failures == 0
               && i < |a'.calls| && a'.calls[i] == Returned
               && forall j :: 0 <= j < |a'.loops| ==> !Active(a'.loops[j])
    ensures Next(a, DisconnectCalled).value.state == Disconnecting
  {
    CancelLeavesNone(a);
    var e1, e2 := DisconnectCalled, HungUp(|a.calls|);
    assert [e1, e2][1..] == [e2] && [e2][1..] == [];
    assert Exec(Next(a, e1).value, [e2]) == Next(Next(a, e1).value, e2);
  }

  /** Being displaced disconnects at once, and cancels a loop. */
  lemma KickOutcome(a: App)
    requires Inv(a)
    ensures var a' := Next(a, Kicked).value;
            && a'.state == Disconnected && a'.running == None && a'.failures == a.failures
            && forall j :: 0 <= j < |a'.loops| ==> !Active(a'.loops[j])
  {
    CancelLeavesNone(a);
  }

  /** The exit of the core matters only while connected; then it starts one loop, or disconnects if that is off. */
  lemma CoreExitOutcome(a: App)
    requires Inv(a)
    ensures var a' := Next(a, CoreExited).value;
            if a.state != Connected || a.running == None then a' == a
            else
              && a'.running == a.running && a'.failures == a.failures
              && (if a.autoRestart then
                    && a'.state == Connecting && |a'.loops| == |a.loops| + 1 && a'.task == Some(|a.loops|)
                    && (forall j :: 0 <= j < |a'.loops| ==> (Active(a'.loops[j]) <==> j == |a.loops|))
                    && a'.loops[|a.loops|].pc == Created
                  else a'.state == Disconnected && a'.loops == a.loops)
  {
    CancelLeavesNone(a);
  }

  /** The attempts of a loop left alone come after as many seconds as their number, counted over failures. */
  lemma SleepOutcome(a: App, e: Event, j: nat)
    requires Inv(a) && j < |a.loops| && Active(a.loops[j]) && OfLoop(e, j) && Next(a, e).Some?
    ensures var a' := Next(a, e).value;
            j < |a'.loops| && (a'.loops[j].pc.Sleeping? ==> a'.loops[j].pc.attempt == a'.failures + 1 <= 3)
  {
  }
}
