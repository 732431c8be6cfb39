/**
 * The app's model object as the source has it: an object whose methods, cut at their awaits, update its fields.
 * The ghost field `policy` is the state of module `RestartPolicy`; `Valid` ties the object to it and has its
 * invariant hold, and each part says which step of the policy it makes.
 */
module AppModel {
  import opened Text
  import opened RestartPolicy

  class RestartTask {
    var cancelled: bool

    constructor ()
      ensures !cancelled
    {
      cancelled := false;
    }
  }

  class Model {
    var connectionState: ConnectionState
    var restartFailures: nat
    var runningToml: Option<string>
    var autoRestartEnabled: bool
    var restartTask: RestartTask?

    ghost var policy: App
    ghost var tasks: seq<RestartTask>                 // the task of each loop

    ghost predicate Valid()
      reads this, tasks
    {
      && connectionState == policy.state && restartFailures == policy.failures
      && runningToml == policy.running && autoRestartEnabled == policy.autoRestart
      && |tasks| == |policy.loops|
      && (forall i, j :: 0 <= i < j < |tasks| ==> tasks[i] != tasks[j])
      && (forall j :: 0 <= j < |tasks| ==> tasks[j].cancelled == policy.loops[j].cancelled)
      && (match policy.task
          case None => restartTask == null
          case Some(j) => j < |tasks| && restartTask == tasks[j])
      && Inv(policy)
    }

    constructor (autoRestart: bool)
      ensures Valid() && policy == Launched(autoRestart) && tasks == []
    {
      connectionState, restartFailures, runningToml := Disconnected, 0, None;
      autoRestartEnabled, restartTask := autoRestart, null;
      policy, tasks := Launched(autoRestart), [];
    }

    /** What the invariant of the policy says of the object. */
    lemma AtMostOneTask(i: nat, j: nat)
      requires Valid() && i < |tasks| && j < |tasks|
      requires !tasks[i].cancelled && !policy.loops[i].pc.Ended? && !tasks[j].cancelled && !policy.loops[j].pc.Ended?
      ensures tasks[i] == tasks[j] == restartTask && restartFailures < MAX_AUTO_RESTART
    {
      assert Active(policy.loops[i]) && Active(policy.loops[j]);
    }

    /** `restartTask?.cancel()` */
    method Cancel()
      requires Valid()
      modifies this`policy, restartTask
      ensures Valid() && policy == CancelTask(old(policy))
      ensures restartTask != null ==> restartTask.cancelled
    {
      CancelLeavesNone(policy);
      policy := CancelTask(policy);
      if restartTask != null {
        restartTask.cancelled := true;
      }
    }

    /** `connect` up to its first await; the result is the text to validate, if it goes on. */
    method Connect(config: Option<string>) returns (text: Option<string>)
      requires Valid()
      modifies this, restartTask
      ensures Valid() && Next(old(policy), ConnectCalled(config)) == Some(policy)
      ensures tasks == old(tasks) && restartTask == old(restartTask)
      ensures text == if old(connectionState).Disconnected? then config else None
      ensures connectionState == if text.Some? then Connecting else old(connectionState)
    {
      if !connectionState.Disconnected? {
        return None;
      }
      InvStep(policy, ConnectCalled(config));
      ghost var after := AfterConnect(policy, config);
      Cancel();
      connectionState := Connecting;
      policy := after;
      if config.None? {
        connectionState := Disconnected;
        return None;
      }
      return config;
    }

    /** `connect` after validation. */
    method ConnectValidated(ghost i: nat, ok: bool) returns (goesOn: bool)
      requires Valid() && i < |policy.calls| && policy.calls[i].Validating?
      modifies this`connectionState, this`policy
      ensures Valid() && Next(old(policy), Validated(i, ok)) == Some(policy) && goesOn == ok
      ensures connectionState == if ok then old(connectionState) else Disconnected
    {
      InvStep(policy, Validated(i, ok));
      policy := AfterValidated(policy, i, ok);
      if !ok {
        connectionState := Disconnected;
        return false;
      }
      return true;
    }

    /** `connect` after the bridge answered. */
    method ConnectDialled(ghost i: nat, text: string, ok: bool)
      requires Valid() && i < |policy.calls| && policy.calls[i] == Dialling(text)
      modifies this`connectionState, this`runningToml, this`restartFailures, this`policy
      ensures Valid() && Next(old(policy), Dialled(i, ok)) == Some(policy)
      ensures connectionState == if ok then Connected else Disconnected
      ensures if ok then runningToml == Some(text) && restartFailures == 0
              else runningToml == old(runningToml) && restartFailures == old(restartFailures)
    {
      InvStep(policy, Dialled(i, ok));
      policy := AfterDialled(policy, i, ok);
      if !ok {
        connectionState := Disconnected;
        return;
      }
      runningToml := Some(text);
      restartFailures := 0;
      connectionState := Connected;
    }

    /** `disconnect` up to its await. */
    method Disconnect() returns (goesOn: bool)
      requires Valid()
      modifies this`connectionState, this`policy, restartTask
      ensures Valid() && Next(old(policy), DisconnectCalled) == Some(policy)
      ensures goesOn <==> old(connectionState).Connected? || old(connectionState).Connecting?
      ensures connectionState == if goesOn then Disconnecting else old(connectionState)
    {
      if !connectionState.Connected? && !connectionState.Connecting? {
        return false;
      }
      InvStep(policy, DisconnectCalled);
      ghost var after := AfterDisconnect(policy);
      Cancel();
      connectionState := Disconnecting;
      policy := after;
      return true;
    }

    /** `disconnect` after the bridge answered. */
    method DisconnectHungUp(ghost i: nat)
      requires Valid() && i < |policy.calls| && policy.calls[i].HangingUp?
      modifies this`connectionState, this`runningToml, this`restartFailures, this`policy
      ensures Valid() && Next(old(policy), HungUp(i)) == Some(policy)
      ensures connectionState == Disconnected && runningToml == None && restartFailures == 0
    {
      InvStep(policy, HungUp(i));
      policy := AfterHungUp(policy, i);
      runningToml := None;
      restartFailures := 0;
      connectionState := Disconnected;
    }

    /** `handleCoreExit`; the result is the restart loop it starts, if any. The one before it is cancelled. */
    method HandleCoreExit() returns (started: RestartTask?)
      requires Valid()
      modifies this, restartTask
      ensures Valid() && Next(old(policy), RestartPolicy.CoreExited) == Some(policy)
      ensures started != null <==> old(connectionState).Connected? && runningToml.Some? && autoRestartEnabled
      ensures if started == null then tasks == old(tasks) && restartTask == old(restartTask)
              else fresh(started) && tasks == old(tasks) + [started] && restartTask == started
      ensures connectionState ==
              if !old(connectionState).Connected? || runningToml.None? then old(connectionState)
              else if autoRestartEnabled then Connecting else Disconnected
    {
      if !connectionState.Connected? || runningToml.None? {
        return null;
      }
      InvStep(policy, RestartPolicy.CoreExited);
      ghost var after := AfterCoreExit(policy);
      if !autoRestartEnabled {
        connectionState := Disconnected;
        policy := after;
        return null;
      }
      Cancel();
      connectionState := Connecting;
      started := new RestartTask();
      restartTask := started;
      tasks := tasks + [started];
      policy := after;
    }

    method HandleKicked()
      requires Valid()
      modifies this`connectionState, this`runningToml, this`policy, restartTask
      ensures Valid() && Next(old(policy), RestartPolicy.Kicked) == Some(policy)
      ensures connectionState == Disconnected && runningToml == None
    {
      InvStep(policy, RestartPolicy.Kicked);
      ghost var after := AfterKick(policy);
      Cancel();
      connectionState := Disconnected;
      runningToml := None;
      policy := after;
    }

    method SetAutoRestart(on: bool)
      requires Valid()
      modifies this`autoRestartEnabled, this`policy
      ensures Valid() && Next(old(policy), AutoRestartSet(on)) == Some(policy)
    {
      InvStep(policy, AutoRestartSet(on));
      policy := policy.(autoRestart := on);
      autoRestartEnabled := on;
    }

    /** The top of the restart loop; the result is the seconds to sleep before the attempt, None to give up. */
    method LoopTop() returns (sleep: Option<nat>)
      modifies this`connectionState, this`runningToml
      ensures sleep == if restartFailures + 1 > 3 then None else Some(restartFailures + 1)
      ensures connectionState == if sleep.None? then Disconnected else old(connectionState)
      ensures runningToml == if sleep.None? then None else old(runningToml)
    {
      var attempt := restartFailures + 1;
      if attempt > MAX_AUTO_RESTART {
        connectionState := Disconnected;
        runningToml := None;
        return None;
      }
      return Some(attempt);
    }

    /** The loop of task `j` begins. */
    method LoopStarted(ghost j: nat) returns (sleep: Option<nat>)
      requires Valid() && j < |policy.loops| && policy.loops[j].pc.Created?
      modifies this`connectionState, this`runningToml, this`policy
      ensures Valid() && Next(old(policy), LoopStarts(j)) == Some(policy)
      ensures policy.loops[j].pc == if sleep.Some? then Sleeping(sleep.value) else Ended
    {
      InvStep(policy, LoopStarts(j));
      policy := RestartPolicy.LoopTop(policy, j);
      sleep := LoopTop();
    }

    /** It has slept. */
    method LoopWoke(ghost j: nat, task: RestartTask) returns (goesOn: bool)
      requires Valid() && j < |tasks| && task == tasks[j] && policy.loops[j].pc.Sleeping?
      modifies this`policy
      ensures Valid() && Next(old(policy), LoopWakes(j)) == Some(policy)
      ensures goesOn <==> policy.loops[j].pc.Redialling?
    {
      InvStep(policy, LoopWakes(j));
      policy := AfterSleep(policy, j);
      return !task.cancelled;
    }

    /** The bridge has answered its attempt. */
    method LoopDialled(ghost j: nat, task: RestartTask, ok: bool) returns (sleep: Option<nat>)
      requires Valid() && j < |tasks| && task == tasks[j] && policy.loops[j].pc.Redialling?
      modifies this`connectionState, this`runningToml, this`restartFailures, this`policy
      ensures Valid() && Next(old(policy), RestartPolicy.LoopDialled(j, ok)) == Some(policy)
      ensures policy.loops[j].pc == if sleep.Some? then Sleeping(sleep.value) else Ended
      ensures if task.cancelled then
                sleep == None && connectionState == old(connectionState) && restartFailures == old(restartFailures)
              else if ok then
                sleep == None && connectionState == Connected && restartFailures == 0 && runningToml == old(runningToml)
              else
                && restartFailures == old(restartFailures) + 1
                && (if restartFailures == 3 then sleep == None && connectionState == Disconnected && runningToml == None
                    else sleep == Some(restartFailures + 1) && connectionState == old(connectionState))
    {
      InvStep(policy, RestartPolicy.LoopDialled(j, ok));
      policy := AfterRedial(policy, j, ok);
      if task.cancelled {
        return None;
      }
      if ok {
        restartFailures := 0;
        connectionState := Connected;
        return None;
      }
      restartFailures := restartFailures + 1;
      sleep := LoopTop();
    }
  }
}
