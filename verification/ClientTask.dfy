/**
 * The driver task in the source's form: local variables that its loop updates. The ghost field `model` is the
 * driver of module `Client`; `Valid` ties the variables to it and has it reachable, so that what holds of every run
 * holds of the object, and each method says which transition it makes.
 */
module ClientTask {
  import opened Text
  import opened Messages
  import opened Proto
  import opened Client

  class DriverTask {
    const cfg: Config
    var backoff: nat
    var nextTakeover: bool
    var connected: bool
    var pending: Option<Request>
    ghost var model: Driver

    ghost predicate Valid()
      reads this
    {
      && backoff == model.backoff && nextTakeover == model.nextTakeover
      && connected == model.connected && pending == model.pending
      && Reachable(cfg, model)
    }

    constructor (cfg: Config)
      ensures Valid() && this.cfg == cfg && model == Begin(cfg)
    {
      this.cfg := cfg;
      backoff, nextTakeover, connected, pending := cfg.initialBackoff, cfg.takeover, false, None;
      model := Begin(cfg);
      assert Exec(cfg, Begin(cfg), []) == Some(Begin(cfg));
    }

    /** What others do: calls of the client's methods, and the queue's end. */
    ghost method Happens(e: Input)
      requires Valid() && Next(cfg, model, e).Some? && (e.Dispatch? || e.RequestTakeover? || e.DropQueued?)
      modifies this`model
      ensures Valid() && Next(cfg, old(model), e) == Some(model)
    {
      StaysReachable(cfg, model, e);
      model := Next(cfg, model, e).value;
    }

    /** `connect_and_hello` on the first line: how the attempt ends, and whether the line becomes an event. */
    method ConnectAndHello(first: Option<string>) returns (outcome: Outcome, forwarded: bool)
      ensures outcome == Handshake(first)
      ensures forwarded <==> first.Some? && var ev := DecodeEvent(first.value);
                                            ev.Some? && (ev.value.Hello? || ev.value.Busy? || ev.value.Error?)
    {
      if first.None? {
        return Failed, false;
      }
      match DecodeEvent(first.value) {
        case Some(Hello(_, _, _, _)) => return Connected, true;
        case Some(Busy(_)) => return OwnerBusy, true;
        case Some(Error(_, _)) => return Failed, true;
        case _ => return Failed, false;
      }
    }

    /** One attempt; the result is how long to back off, if at all: the k-th time since the last session. */
    method AttemptEnded(first: Option<string>) returns (sleep: Option<nat>)
      requires Valid() && model.phase.Connecting?
      modifies this
      ensures Valid() && Next(cfg, old(model), AttemptEnds(first)) == Some(model)
      ensures sleep == if Handshake(first).Failed? then Some(Backoff(cfg, |old(model.sleeps)|)) else None
    {
      InvReachable(cfg, model);
      StaysReachable(cfg, model, AttemptEnds(first));
      var outcome, _ := ConnectAndHello(first);
      nextTakeover := false;
      sleep := None;
      match outcome {
        case Connected =>
          backoff := cfg.initialBackoff;
          connected := true;
        case OwnerBusy =>
        case Failed =>
          sleep := Some(backoff);
      }
      model := AfterAttempt(cfg, model, outcome);
    }

    method TakeoverPermitted()
      requires Valid() && model.phase.Paused? && model.permit
      modifies this
      ensures Valid() && Next(cfg, old(model), TakeoverConfirmed) == Some(model)
    {
      StaysReachable(cfg, model, TakeoverConfirmed);
      nextTakeover := true;
      model := Next(cfg, model, TakeoverConfirmed).value;
    }

    method BackoffOver()
      requires Valid() && model.phase.BackingOff?
      modifies this
      ensures Valid() && Next(cfg, old(model), BackoffEnds) == Some(model)
    {
      StaysReachable(cfg, model, BackoffEnds);
      backoff := if backoff * 2 <= cfg.maxBackoff then backoff * 2 else cfg.maxBackoff;
      model := Next(cfg, model, BackoffEnds).value;
    }

    /** A request arrives from the queue: refused if one is in flight, else written to the socket. */
    method Received(req: Request, written: bool) returns (failed: bool)
      requires Valid() && model.phase.InSession? && model.queue != [] && req == model.queue[0]
      modifies this
      ensures Valid() && Next(cfg, old(model), Receive(written)) == Some(model)
      ensures failed <==> old(pending).Some? || !written
      ensures req.id !in old(model.resolved)
      ensures if failed then req.id in model.resolved && model.resolved[req.id] == Failure else pending == Some(req)
    {
      ghost var before := model;
      InvReachable(cfg, model);
      StaysReachable(cfg, model, Receive(written));
      model := AfterReceive(before, written);
      if pending.Some? {
        return true;
      }
      if !written {
        connected := false;
        return true;
      }
      pending := Some(req);
      return false;
    }

    /** `dispatch_event`: replies take the slot, pushes do not. `answer` is the request that gets its result. */
    method DispatchEvent(ev: Event) returns (forwarded: bool, answer: Option<(Request, Resolution)>)
      requires Valid() && model.phase.InSession?
      modifies this
      ensures Valid() && Next(cfg, old(model), Line(ev)) == Some(model)
      ensures match Route(old(pending), ev)
              case Fulfilled(req) => answer == Some((req, Reply(ev)))
              case Refused(req) => answer == Some((req, Failure))
              case Mismatched(req) => answer == Some((req, Failure))
              case _ => answer == None
      ensures answer.Some? ==> answer.value.0.id !in old(model.resolved)
      ensures forwarded <==> ev.CoreStarted? || ev.CoreStopped? || Route(old(pending), ev).Forwarded?
                             || (ev.Error? && old(pending).None?)
    {
      ghost var before := model;
      InvReachable(cfg, model);
      StaysReachable(cfg, model, Line(ev));
      forwarded, answer := false, None;
      match ev {
        case CoreExited(_, _) => forwarded := true;
        case Kicked => forwarded := true;
        case Busy(_) => forwarded := true;
        case CoreStarted(_, _) =>
          forwarded := true;
          answer := Take(ev, StartKind);
        case CoreStopped(_) =>
          forwarded := true;
          answer := Take(ev, StopKind);
        case Status(_, _, _) =>
          answer := Take(ev, StatusKind);
        case Error(_, _) =>
          if pending.Some? {
            answer := Some((pending.value, Failure));
            pending := None;
          } else {
            forwarded := true;
          }
        case Hello(_, _, _, _) =>
        case Unknown =>
      }
      model := AfterLine(before, ev);
    }

    /** `pending.take()`: the request in flight gets the reply if it is of the kind the reply answers. */
    method Take(ev: Event, kind: Kind) returns (answer: Option<(Request, Resolution)>)
      modifies this`pending
      ensures pending == None
      ensures answer == match old(pending)
                        case None => None
                        case Some(req) => Some((req, if req.kind == kind then Reply(ev) else Failure))
    {
      match pending {
        case None => answer := None;
        case Some(req) => answer := Some((req, if req.kind == kind then Reply(ev) else Failure));
      }
      pending := None;
    }

    /** The session is over: the slot's request is dropped with it. */
    method SessionEnded() returns (dropped: Option<Request>)
      requires Valid() && model.phase.InSession?
      modifies this
      ensures Valid() && Next(cfg, old(model), SessionEnds) == Some(model)
      ensures dropped == old(pending)
    {
      StaysReachable(cfg, model, SessionEnds);
      dropped := pending;
      pending := None;
      connected := false;
      model := StartBackoff(LeaveSession(model));
    }

    /** A shutdown ends the driver in any phase; a request in flight is dropped. */
    method ShutDown() returns (dropped: Option<Request>)
      requires Valid() && !model.phase.Ended?
      modifies this
      ensures Valid() && Next(cfg, old(model), Shutdown) == Some(model)
      ensures dropped == old(pending)
    {
      StaysReachable(cfg, model, Shutdown);
      dropped := pending;
      pending := None;
      connected := false;
      model := LeaveSession(model).(phase := Ended);
    }
  }
}
