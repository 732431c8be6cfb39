/**
 * The client's driver task: it connects, says hello, serves one session, and backs off or waits for a confirmed
 * takeover before it connects again. Requests come in through a queue; at most one is in flight.
 */
module Client {
  import opened Text
  import opened Messages
  import opened Proto

  datatype Kind = StartKind | StopKind | StatusKind

  datatype Request = Request(id: nat, kind: Kind)

  function CommandFor(kind: Kind): Cmd {
    match kind
    case StartKind => Start
    case StopKind => Stop
    case StatusKind => Cmd.Status
  }

  /** How `dispatch_event` routes one event. */
  datatype Delivery =
    | Forwarded                                       // to the event channel only
    | Fulfilled(req: Request)                         // the request gets its own kind of reply
    | Refused(req: Request)                           // the request fails with the supervisor's error
    | Mismatched(req: Request)                        // the request fails with "unexpected ... reply"
    | Unclaimed                                       // a reply and no request in flight
    | Ignored

  predicate Answers(ev: Event, kind: Kind) {
    match kind
    case StartKind => ev.CoreStarted?
    case StopKind => ev.CoreStopped?
    case StatusKind => ev.Status?
  }

  function Route(pending: Option<Request>, ev: Event): Delivery {
    match ev
    case CoreExited(_, _) | Kicked | Busy(_) => Forwarded
    case CoreStarted(_, _) | CoreStopped(_) | Status(_, _, _) =>
      if pending.None? then Unclaimed
      else if Answers(ev, pending.value.kind) then Fulfilled(pending.value)
      else Mismatched(pending.value)
    case Error(_, _) => if pending.None? then Unclaimed else Refused(pending.value)
    case Hello(_, _, _, _) | Unknown => Ignored
  }

  predicate IsReply(ev: Event) {
    ev.CoreStarted? || ev.CoreStopped? || ev.Status? || ev.Error?
  }

  /** The slot after the event: `pending.take()` for every reply, whether it fits or not. */
  function PendingAfter(pending: Option<Request>, ev: Event): Option<Request> {
    if IsReply(ev) then None else pending
  }

  // ----- the driver

  datatype Config = Config(takeover: bool, initialBackoff: nat, maxBackoff: nat)

  datatype Phase = Connecting | InSession | Paused | BackingOff | Ended

  datatype Outcome = Connected | OwnerBusy | Failed

  /** `connect_and_hello`: only a greeting as the first line makes a session, and only a busy line a busy owner. */
  function Handshake(first: Option<string>): Outcome {
    if first.None? then Failed
    else
      match DecodeEvent(first.value)
      case Some(Hello(_, _, _, _)) => Connected
      case Some(Busy(_)) => OwnerBusy
      case _ => Failed
  }

  /** What the handshake makes of a first line that the supervisor wrote. */
  lemma HandshakeOf(ev: Event)
    requires !ev.Unknown?
    ensures Handshake(Some(EncodeEvent(ev))) == if ev.Hello? then Connected else if ev.Busy? then OwnerBusy else Failed
  {
    EventRoundTrip(ev);
  }

  /** History of one connect attempt. */
  datatype Attempt = Attempt(takeover: bool, outcome: Outcome)

  datatype Resolution = Reply(ev: Event) | Failure | Dropped

  datatype Driver = Driver(
    phase: Phase, backoff: nat, nextTakeover: bool, connected: bool,
    pending: Option<Request>, queue: seq<Request>,
    permit: bool,                                     // a `request_takeover` not consumed yet; they coalesce
    nextId: nat, resolved: map<nat, Resolution>,      // requests by id; the second is history
    resolutions: nat,                                 // history: how often a request was resolved
    attempts: seq<Attempt>,                           // history
    sleeps: seq<nat>,                                 // history: back-offs since the last session
    takeoverCalls: nat                                // history
  )

  function Begin(cfg: Config): Driver {
    Driver(Connecting, cfg.initialBackoff, cfg.takeover, false, None, [], false, 0, map[], 0, [], [], 0)
  }

  datatype Input =
    | Dispatch(kind: Kind)
    | RequestTakeover
    | AttemptEnds(first: Option<string>)              // the first line read, None if it came to none
    | TakeoverConfirmed
    | BackoffEnds
    | Receive(written: bool)
    | Line(ev: Event)
    | SessionEnds
    | Shutdown
    | DropQueued                                      // the queue's receiver is gone

  function Resolve(d: Driver, id: nat, r: Resolution): Driver {
    d.(resolved := d.resolved[id := r], resolutions := d.resolutions + 1)
  }

  function DropPending(d: Driver): Driver {
    if d.pending.None? then d else Resolve(d, d.pending.value.id, Dropped).(pending := None)
  }

  function StartBackoff(d: Driver): Driver {
    d.(phase := BackingOff, sleeps := d.sleeps + [d.backoff])
  }

  function LeaveSession(d: Driver): Driver {
    DropPending(d).(connected := false)
  }

  function Min(a: nat, b: nat): nat {
    if a <= b then a else b
  }

  function AfterAttempt(cfg: Config, d: Driver, outcome: Outcome): Driver {
    var d1 := d.(nextTakeover := false, attempts := d.attempts + [Attempt(d.nextTakeover, outcome)]);
    match outcome
    case Connected => d1.(phase := InSession, backoff := cfg.initialBackoff, connected := true, sleeps := [])
    case OwnerBusy => d1.(phase := Paused)
    case Failed => StartBackoff(d1)
  }

  /** A request enters the queue, or fails at once when the driver has ended. */
  function AfterDispatch(d: Driver, kind: Kind): Driver {
    var d1 := d.(nextId := d.nextId + 1);
    if d.phase.Ended? then Resolve(d1, d.nextId, Failure) else d1.(queue := d.queue + [Request(d.nextId, kind)])
  }

  function AfterReceive(d: Driver, written: bool): Driver
    requires d.queue != []
  {
    var req := d.queue[0];
    var d1 := d.(queue := d.queue[1..]);
    if d.pending.Some? then Resolve(d1, req.id, Failure)
    else if written then d1.(pending := Some(req))
    else StartBackoff(LeaveSession(Resolve(d1, req.id, Failure)))
  }

  function AfterLine(d: Driver, ev: Event): Driver {
    var d1 := match Route(d.pending, ev)
              case Fulfilled(req) => Resolve(d, req.id, Reply(ev))
              case Refused(req) => Resolve(d, req.id, Failure)
              case Mismatched(req) => Resolve(d, req.id, Failure)
              case _ => d;
    d1.(pending := PendingAfter(d.pending, ev))
  }

  function Next(cfg: Config, d: Driver, e: Input): Option<Driver> {
    match e
    case Dispatch(kind) => Some(AfterDispatch(d, kind))
    case RequestTakeover => Some(d.(permit := true, takeoverCalls := d.takeoverCalls + 1))
    case AttemptEnds(first) => if d.phase.Connecting? then Some(AfterAttempt(cfg, d, Handshake(first))) else None
    case TakeoverConfirmed =>
      if d.phase.Paused? && d.permit then Some(d.(permit := false, nextTakeover := true, phase := Connecting)) else None
    case BackoffEnds =>
      if d.phase.BackingOff? then Some(d.(phase := Connecting, backoff := Min(d.backoff * 2, cfg.maxBackoff))) else None
    case Receive(written) => if d.phase.InSession? && d.queue != [] then Some(AfterReceive(d, written)) else None
    case Line(ev) => if d.phase.InSession? then Some(AfterLine(d, ev)) else None
    case SessionEnds => if d.phase.InSession? then Some(StartBackoff(LeaveSession(d))) else None
    case Shutdown => if d.phase.Ended? then None else Some(LeaveSession(d).(phase := Ended))
    case DropQueued =>
      if d.phase.Ended? && d.queue != [] then Some(Resolve(d, d.queue[0].id, Dropped).(queue := d.queue[1..])) else None
  }

  function Exec(cfg: Config, d: Driver, es: seq<Input>): Option<Driver>
    decreases |es|
  {
    if es == [] then Some(d)
    else
      match Next(cfg, d, es[0])
      case None => None
      case Some(d') => Exec(cfg, d', es[1..])
  }

  // ----- invariants

  predicate InQueue(queue: seq<Request>, id: nat) {
    exists i :: 0 <= i < |queue| && queue[i].id == id
  }

  /** Each request is in exactly one place: waiting, in flight, or resolved, and was resolved once. */
  ghost predicate RequestsInv(d: Driver) {
    && (forall i, j :: 0 <= i < j < |d.queue| ==> d.queue[i].id != d.queue[j].id)
    && (forall i :: 0 <= i < |d.queue| ==> d.queue[i].id < d.nextId && d.queue[i].id !in d.resolved)
    && (d.pending.Some? ==>
          && d.phase.InSession? && d.pending.value.id < d.nextId && d.pending.value.id !in d.resolved
          && !InQueue(d.queue, d.pending.value.id))
    && (forall id :: id in d.resolved ==> id < d.nextId)
    && (forall id: nat :: id < d.nextId ==>
          id in d.resolved || InQueue(d.queue, id) || (d.pending.Some? && d.pending.value.id == id))
    && d.resolutions == |d.resolved|
  }

  function Takeovers(attempts: seq<Attempt>): nat {
    if attempts == [] then 0
    else Takeovers(attempts[..|attempts| - 1]) + (if attempts[|attempts| - 1].takeover then 1 else 0)
  }

  /** An attempt asks for a takeover exactly after a Busy, but for the first, which the configuration decides. */
  predicate AttemptsOk(cfg: Config, attempts: seq<Attempt>) {
    && (attempts != [] ==> attempts[0].takeover == cfg.takeover)
    && forall i :: 0 < i < |attempts| ==> attempts[i].takeover == attempts[i - 1].outcome.OwnerBusy?
  }

  predicate TakeoverInv(cfg: Config, d: Driver) {
    && AttemptsOk(cfg, d.attempts)
    && Takeovers(d.attempts) + (if d.nextTakeover then 1 else 0) + (if d.permit then 1 else 0)
       <= d.takeoverCalls + (if cfg.takeover then 1 else 0)
    && (d.phase.Connecting? ==>
          d.nextTakeover == if d.attempts == [] then cfg.takeover else d.attempts[|d.attempts| - 1].outcome.OwnerBusy?)
    && (d.phase.Paused? ==> d.attempts != [] && d.attempts[|d.attempts| - 1].outcome.OwnerBusy?)
    && (d.phase.InSession? || d.phase.BackingOff? ==>
          !d.nextTakeover && d.attempts != [] && !d.attempts[|d.attempts| - 1].outcome.OwnerBusy?)
    && (d.phase.Paused? ==> !d.nextTakeover)
  }

  function Pow2(k: nat): nat {
    if k == 0 then 1 else 2 * Pow2(k - 1)
  }

  /** The k-th back-off since the last session. The cap does not apply to the first. */
  function Backoff(cfg: Config, k: nat): nat {
    if k == 0 then cfg.initialBackoff else Min(cfg.initialBackoff * Pow2(k), cfg.maxBackoff)
  }

  predicate BackoffInv(cfg: Config, d: Driver) {
    && (forall k :: 0 <= k < |d.sleeps| ==> d.sleeps[k] == Backoff(cfg, k))
    && (d.phase.BackingOff? ==> d.sleeps != [] && d.backoff == Backoff(cfg, |d.sleeps| - 1))
    && (!d.phase.BackingOff? && !d.phase.Ended? ==> d.backoff == Backoff(cfg, |d.sleeps|))
    && (d.connected <==> d.phase.InSession?)
    && (d.phase.InSession? ==> d.sleeps == [])
  }

  ghost predicate Inv(cfg: Config, d: Driver) {
    RequestsInv(d) && TakeoverInv(cfg, d) && BackoffInv(cfg, d)
  }

  lemma BackoffDoubles(cfg: Config, k: nat)
    ensures Min(Backoff(cfg, k) * 2, cfg.maxBackoff) == Backoff(cfg, k + 1)
  {
    assert cfg.initialBackoff * Pow2(k + 1) == 2 * (cfg.initialBackoff * Pow2(k));
    if k == 0 {
      assert cfg.initialBackoff * Pow2(0) == cfg.initialBackoff;
    }
  }

  lemma BackoffSame(cfg: Config, d: Driver, d': Driver)
    requires BackoffInv(cfg, d) && d'.sleeps == d.sleeps && d'.backoff == d.backoff
    requires (d'.phase == d.phase && d'.connected == d.connected)
             || (d'.phase.Ended? && !d'.connected)
             || (d.phase.Paused? && d'.phase.Connecting? && d'.connected == d.connected)
    ensures BackoffInv(cfg, d')
  {
  }

  lemma BackoffStarts(cfg: Config, d: Driver, d': Driver)
    requires BackoffInv(cfg, d) && (d.phase.Connecting? || d.phase.InSession?)
    requires d'.phase.BackingOff? && !d'.connected && d'.backoff == d.backoff && d'.sleeps == d.sleeps + [d.backoff]
    ensures BackoffInv(cfg, d')
  {
  }

  lemma BackoffAttempt(cfg: Config, d: Driver, outcome: Outcome)
    requires BackoffInv(cfg, d) && d.phase.Connecting?
    ensures BackoffInv(cfg, AfterAttempt(cfg, d, outcome))
  {
    if outcome.Failed? {
      BackoffStarts(cfg, d, AfterAttempt(cfg, d, outcome));
    }
  }

  lemma BackoffStep(cfg: Config, d: Driver, e: Input)
    requires BackoffInv(cfg, d) && Next(cfg, d, e).Some?
    ensures BackoffInv(cfg, Next(cfg, d, e).value)
  {
    var d' := Next(cfg, d, e).value;
    match e {
      case AttemptEnds(first) => BackoffAttempt(cfg, d, Handshake(first));
      case BackoffEnds => BackoffDoubles(cfg, |d.sleeps| - 1);
      case SessionEnds => BackoffStarts(cfg, d, d');
      case Receive(written) =>
        if d.pending.None? && !written {
          BackoffStarts(cfg, d, d');
        } else {
          BackoffSame(cfg, d, d');
        }
      case _ => BackoffSame(cfg, d, d');
    }
  }

  lemma TakeoversPush(attempts: seq<Attempt>, a: Attempt)
    ensures Takeovers(attempts + [a]) == Takeovers(attempts) + (if a.takeover then 1 else 0)
  {
    assert (attempts + [a])[..|attempts|] == attempts;
  }

  lemma AttemptsPush(cfg: Config, attempts: seq<Attempt>, a: Attempt)
    requires AttemptsOk(cfg, attempts)
    requires a.takeover == if attempts == [] then cfg.takeover else attempts[|attempts| - 1].outcome.OwnerBusy?
    ensures AttemptsOk(cfg, attempts + [a])
  {
  }

  lemma TakeoverAttempt(cfg: Config, d: Driver, outcome: Outcome)
    requires TakeoverInv(cfg, d) && d.phase.Connecting?
    ensures TakeoverInv(cfg, AfterAttempt(cfg, d, outcome))
  {
    var a := Attempt(d.nextTakeover, outcome);
    TakeoversPush(d.attempts, a);
    AttemptsPush(cfg, d.attempts, a);
    AttemptAppends(cfg, d, outcome);
  }

  lemma AttemptAppends(cfg: Config, d: Driver, outcome: Outcome)
    ensures var d' := AfterAttempt(cfg, d, outcome);
            && d'.attempts == d.attempts + [Attempt(d.nextTakeover, outcome)] && !d'.nextTakeover
            && d'.permit == d.permit && d'.takeoverCalls == d.takeoverCalls
            && (if outcome.Connected? then d'.phase.InSession?
                else if outcome.OwnerBusy? then d'.phase.Paused? else d'.phase.BackingOff?)
  {
  }

  predicate AsksNothing(d: Driver, d': Driver) {
    && d'.attempts == d.attempts && d'.nextTakeover == d.nextTakeover
    && d'.permit == d.permit && d'.takeoverCalls == d.takeoverCalls
    && (d'.phase == d.phase || d'.phase.Ended? || (d.phase.InSession? && d'.phase.BackingOff?)
        || (d.phase.BackingOff? && d'.phase.Connecting?))
  }

  lemma TakeoverSame(cfg: Config, d: Driver, d': Driver)
    requires TakeoverInv(cfg, d) && AsksNothing(d, d')
    ensures TakeoverInv(cfg, d')
  {
  }

  lemma ReceiveAsksNothing(d: Driver, written: bool)
    requires d.phase.InSession? && d.queue != []
    ensures AsksNothing(d, AfterReceive(d, written))
  {
  }

  lemma OtherInputsAskNothing(cfg: Config, d: Driver, e: Input)
    requires Next(cfg, d, e).Some? && !e.AttemptEnds? && !e.TakeoverConfirmed? && !e.RequestTakeover?
    ensures AsksNothing(d, Next(cfg, d, e).value)
  {
    if e.Receive? {
      ReceiveAsksNothing(d, e.written);
    }
  }

  lemma TakeoverStep(cfg: Config, d: Driver, e: Input)
    requires TakeoverInv(cfg, d) && Next(cfg, d, e).Some?
    ensures TakeoverInv(cfg, Next(cfg, d, e).value)
  {
    match e {
      case AttemptEnds(first) => TakeoverAttempt(cfg, d, Handshake(first));
      case TakeoverConfirmed =>
      case RequestTakeover =>
      case _ =>
        OtherInputsAskNothing(cfg, d, e);
        TakeoverSame(cfg, d, Next(cfg, d, e).value);
    }
  }

  lemma ResolveFresh(d: Driver, id: nat, r: Resolution)
    requires id !in d.resolved && d.resolutions == |d.resolved|
    ensures Resolve(d, id, r).resolutions == |Resolve(d, id, r).resolved|
  {
  }

  /** The head of the queue is resolved. */
  lemma ResolveHead(d: Driver, r: Resolution)
    requires RequestsInv(d) && d.queue != []
    ensures RequestsInv(Resolve(d, d.queue[0].id, r).(queue := d.queue[1..]))
  {
    var req := d.queue[0];
    var d' := Resolve(d, req.id, r).(queue := d.queue[1..]);
    ResolveFresh(d, req.id, r);
    forall id: nat | id < d.nextId && id !in d'.resolved && InQueue(d.queue, id) ensures InQueue(d'.queue, id) {
      var i :| 0 <= i < |d.queue| && d.queue[i].id == id;
      assert i > 0 && d'.queue[i - 1] == d.queue[i];
    }
    forall i | 0 <= i < |d'.queue| ensures d'.queue[i] == d.queue[i + 1] {}
    forall id | InQueue(d'.queue, id) ensures InQueue(d.queue, id) {
      var i :| 0 <= i < |d'.queue| && d'.queue[i].id == id;
      assert d.queue[i + 1].id == id;
    }
  }

  /** The head of the queue goes in flight. */
  lemma SendHead(d: Driver)
    requires RequestsInv(d) && d.queue != [] && d.pending.None? && d.phase.InSession?
    ensures RequestsInv(d.(queue := d.queue[1..], pending := Some(d.queue[0])))
  {
    var d' := d.(queue := d.queue[1..], pending := Some(d.queue[0]));
    forall id: nat | id < d.nextId && id != d.queue[0].id && InQueue(d.queue, id) ensures InQueue(d'.queue, id) {
      var i :| 0 <= i < |d.queue| && d.queue[i].id == id;
      assert i > 0 && d'.queue[i - 1] == d.queue[i];
    }
    forall i | 0 <= i < |d'.queue| ensures d'.queue[i] == d.queue[i + 1] {}
  }

  lemma ResolvePending(d: Driver, r: Resolution)
    requires RequestsInv(d) && d.pending.Some?
    ensures RequestsInv(Resolve(d, d.pending.value.id, r).(pending := None))
  {
    ResolveFresh(d, d.pending.value.id, r);
    forall i | 0 <= i < |d.queue| ensures d.queue[i].id != d.pending.value.id {}
  }

  lemma InQueuePush(queue: seq<Request>, req: Request, id: nat)
    ensures InQueue(queue + [req], id) <==> InQueue(queue, id) || id == req.id
  {
    var longer := queue + [req];
    assert longer[|queue|] == req;
    if InQueue(queue, id) {
      var i :| 0 <= i < |queue| && queue[i].id == id;
      assert longer[i] == queue[i];
    }
    if InQueue(longer, id) && id != req.id {
      var i :| 0 <= i < |longer| && longer[i].id == id;
      assert i < |queue| && queue[i].id == id;
    }
  }

  lemma Enqueue(d: Driver, kind: Kind)
    requires RequestsInv(d)
    ensures RequestsInv(d.(nextId := d.nextId + 1, queue := d.queue + [Request(d.nextId, kind)]))
  {
    forall id ensures InQueue(d.queue + [Request(d.nextId, kind)], id) <==> InQueue(d.queue, id) || id == d.nextId {
      InQueuePush(d.queue, Request(d.nextId, kind), id);
    }
  }

  function ResultOf(req: Request, ev: Event): Resolution {
    if Answers(ev, req.kind) then Reply(ev) else Failure
  }

  /** A reply resolves the request in flight, if there is one; nothing else resolves any. */
  lemma LineResolves(d: Driver, ev: Event)
    ensures AfterLine(d, ev)
         == if d.pending.Some? && IsReply(ev)
            then Resolve(d, d.pending.value.id, ResultOf(d.pending.value, ev)).(pending := None) else d
  {
  }

  lemma LineKeeps(d: Driver, ev: Event)
    requires RequestsInv(d)
    ensures RequestsInv(AfterLine(d, ev))
  {
    LineResolves(d, ev);
    if d.pending.Some? && IsReply(ev) {
      ResolvePending(d, ResultOf(d.pending.value, ev));
    }
  }

  lemma ReceiveKeeps(d: Driver, written: bool)
    requires RequestsInv(d) && d.queue != [] && d.phase.InSession?
    ensures RequestsInv(AfterReceive(d, written))
  {
    if d.pending.None? && written {
      SendHead(d);
    } else {
      ResolveHead(d, Failure);
    }
  }

  lemma LeaveKeeps(d: Driver)
    requires RequestsInv(d)
    ensures RequestsInv(LeaveSession(d).(phase := Ended)) && RequestsInv(StartBackoff(LeaveSession(d)))
  {
    if d.pending.Some? {
      ResolvePending(d, Dropped);
    }
  }

  lemma RequestsSame(d: Driver, d': Driver)
    requires RequestsInv(d)
    requires d'.queue == d.queue && d'.pending == d.pending && d'.nextId == d.nextId
    requires d'.resolved == d.resolved && d'.resolutions == d.resolutions
    requires d.pending.Some? ==> d'.phase.InSession?
    ensures RequestsInv(d')
  {
  }

  lemma DispatchKeeps(d: Driver, kind: Kind)
    requires RequestsInv(d)
    ensures RequestsInv(AfterDispatch(d, kind))
  {
    if d.phase.Ended? {
      ResolveFresh(d, d.nextId, Failure);
    } else {
      Enqueue(d, kind);
    }
  }

  lemma AttemptKeeps(cfg: Config, d: Driver, outcome: Outcome)
    requires RequestsInv(d) && d.phase.Connecting?
    ensures RequestsInv(AfterAttempt(cfg, d, outcome))
  {
    RequestsSame(d, AfterAttempt(cfg, d, outcome));
  }

  /** The other inputs that resolve no request and send none. */
  lemma OtherStepKeeps(cfg: Config, d: Driver, e: Input)
    requires RequestsInv(d) && Next(cfg, d, e).Some?
    requires e.RequestTakeover? || e.TakeoverConfirmed? || e.BackoffEnds?
    ensures RequestsInv(Next(cfg, d, e).value)
  {
    RequestsSame(d, Next(cfg, d, e).value);
  }

  lemma RequestsStep(cfg: Config, d: Driver, e: Input)
    requires RequestsInv(d) && Next(cfg, d, e).Some?
    ensures RequestsInv(Next(cfg, d, e).value)
  {
    match e {
      case Dispatch(kind) => DispatchKeeps(d, kind);
      case Receive(written) => ReceiveKeeps(d, written);
      case Line(ev) => LineKeeps(d, ev);
      case SessionEnds => LeaveKeeps(d);
      case Shutdown => LeaveKeeps(d);
      case DropQueued => ResolveHead(d, Dropped);
      case AttemptEnds(first) => AttemptKeeps(cfg, d, Handshake(first));
      case _ => OtherStepKeeps(cfg, d, e);
    }
  }

  lemma {:induction false} InvRun(cfg: Config, d: Driver, es: seq<Input>)
    requires Inv(cfg, d) && Exec(cfg, d, es).Some?
    ensures Inv(cfg, Exec(cfg, d, es).value)
    decreases |es|
  {
    if es != [] {
      RequestsStep(cfg, d, es[0]);
      TakeoverStep(cfg, d, es[0]);
      BackoffStep(cfg, d, es[0]);
      InvRun(cfg, Next(cfg, d, es[0]).value, es[1..]);
    }
  }

  ghost predicate Reachable(cfg: Config, d: Driver) {
    exists es :: Exec(cfg, Begin(cfg), es) == Some(d)
  }

  lemma InvReachable(cfg: Config, d: Driver)
    requires Reachable(cfg, d)
    ensures Inv(cfg, d)
  {
    var es :| Exec(cfg, Begin(cfg), es) == Some(d);
    assert Backoff(cfg, 0) == cfg.initialBackoff;
    InvRun(cfg, Begin(cfg), es);
  }

  // ----- what holds of every run

  /**
   * Every request ever dispatched is waiting, in flight or resolved, and never two of these; it was resolved at
   * most once. When the driver has ended and its queue is dropped, all are resolved.
   */
  lemma ResolvedExactlyOnce(cfg: Config, d: Driver, id: nat)
    requires Reachable(cfg, d) && id < d.nextId
    ensures var inFlight := d.pending.Some? && d.pending.value.id == id;
            && (id in d.resolved || InQueue(d.queue, id) || inFlight)
            && !(id in d.resolved && InQueue(d.queue, id)) && !(id in d.resolved && inFlight)
            && !(InQueue(d.queue, id) && inFlight)
    ensures d.resolutions == |d.resolved|
    ensures d.phase.Ended? && d.queue == [] ==> id in d.resolved
  {
    InvReachable(cfg, d);
  }

  /** A resolution is final. */
  lemma ResolutionIsFinal(cfg: Config, d: Driver, e: Input, id: nat)
    requires Reachable(cfg, d) && id in d.resolved && Next(cfg, d, e).Some?
    ensures id in Next(cfg, d, e).value.resolved && Next(cfg, d, e).value.resolved[id] == d.resolved[id]
  {
    InvReachable(cfg, d);
  }

  /**
   * How a request is resolved, the moment it is: with a reply if and only if the line read is one of its own kind and
   * it is the one in flight; dropped if and only if the session, the driver or the queue ends under it; and otherwise
   * it fails.
   */
  lemma HowResolved(cfg: Config, d: Driver, e: Input, id: nat)
    requires Reachable(cfg, d) && Next(cfg, d, e).Some?
    requires id !in d.resolved && id in Next(cfg, d, e).value.resolved
    ensures var r := Next(cfg, d, e).value.resolved[id];
            var inFlight := d.pending.Some? && d.pending.value.id == id;
            && (r.Reply? <==> inFlight && e.Line? && Answers(e.ev, d.pending.value.kind))
            && (r.Reply? ==> r.ev == e.ev)
            && (r.Dropped? <==> e.SessionEnds? || e.Shutdown? || e.DropQueued?)
            && (r.Failure? ==> e.Dispatch? || e.Receive? || (inFlight && e.Line?))
  {
    InvReachable(cfg, d);
    match e {
      case Line(ev) => LineResolves(d, ev);
      case Receive(written) => ReceiveFails(d, written, id);
      case _ =>
    }
  }

  /** A dispatched request waits in the queue, at its end; after the driver's end it fails at once. */
  lemma DispatchOutcome(cfg: Config, d: Driver, kind: Kind)
    requires Reachable(cfg, d)
    ensures var d' := Next(cfg, d, Dispatch(kind)).value;
            && d'.nextId == d.nextId + 1 && d'.phase == d.phase && d'.pending == d.pending
            && (if d.phase.Ended? then d'.queue == d.queue && d.nextId in d'.resolved && d'.resolved[d.nextId] == Failure
                else d'.queue == d.queue + [Request(d.nextId, kind)] && d.nextId !in d'.resolved)
  {
    InvReachable(cfg, d);
  }

  lemma ReceiveFails(d: Driver, written: bool, id: nat)
    requires RequestsInv(d) && d.queue != [] && id !in d.resolved && id in AfterReceive(d, written).resolved
    ensures AfterReceive(d, written).resolved[id] == Failure
  {
  }

  /** A request that comes while one is in flight fails; one that cannot be written fails and ends the session. */
  lemma ReceiveOutcome(cfg: Config, d: Driver, written: bool)
    requires Reachable(cfg, d) && Next(cfg, d, Receive(written)).Some?
    ensures var d', id := Next(cfg, d, Receive(written)).value, d.queue[0].id;
            && d'.queue == d.queue[1..]
            && (if d.pending.Some? then d'.phase.InSession? && d'.pending == d.pending
                else if written then d'.phase.InSession? && d'.pending == Some(d.queue[0])
                else d'.phase.BackingOff? && !d'.connected && d'.pending == None)
            && (d.pending.None? && written <==> id !in d'.resolved)
  {
    InvReachable(cfg, d);
  }

  /** A driver that a busy owner stopped goes on only with a takeover, and a takeover asked for makes it go on. */
  lemma TakeoverTakesEffect(cfg: Config, d: Driver)
    requires Reachable(cfg, d) && d.phase.Paused?
    ensures Next(cfg, d, TakeoverConfirmed).Some? <==> d.permit
    ensures Next(cfg, d, BackoffEnds).None? && forall first :: Next(cfg, d, AttemptEnds(first)).None?
    ensures var d1 := Next(cfg, d, RequestTakeover).value;
            && Next(cfg, d1, TakeoverConfirmed).Some?
            && var d2 := Next(cfg, d1, TakeoverConfirmed).value;
               d2.phase.Connecting? && d2.nextTakeover && !d2.permit
  {
  }

  /**
   * Takeovers are asked for only after a Busy and then always, apart from a configured first one, and never more
   * often than they were requested, even counting an attempt that a shutdown cut short.
   */
  lemma TakeoversAreRequested(cfg: Config, d: Driver)
    requires Reachable(cfg, d)
    ensures Takeovers(d.attempts) + (if d.nextTakeover then 1 else 0)
         <= d.takeoverCalls + (if cfg.takeover then 1 else 0)
    ensures forall i :: 0 < i < |d.attempts| ==> d.attempts[i].takeover == d.attempts[i - 1].outcome.OwnerBusy?
    ensures d.attempts != [] ==> d.attempts[0].takeover == cfg.takeover
  {
    InvReachable(cfg, d);
  }

  /**
   * The k-th back-off since the last session is the first one doubled k times and capped; the very first is not
   * capped, so it fits the rule exactly if the cap is no lower.
   */
  lemma BackoffsDouble(cfg: Config, d: Driver, k: nat)
    requires Reachable(cfg, d) && k < |d.sleeps|
    ensures d.sleeps[k] == Min(cfg.initialBackoff * Pow2(k), cfg.maxBackoff)
            <==> k > 0 || cfg.initialBackoff <= cfg.maxBackoff
    ensures k == 0 ==> d.sleeps[k] == cfg.initialBackoff
  {
    InvReachable(cfg, d);
    assert cfg.initialBackoff * Pow2(0) == cfg.initialBackoff;
  }

  /** The first back-off is not capped: here it is 5 with a cap of 3. */
  lemma FirstBackoffUncapped() returns (cfg: Config, d: Driver)
    ensures Reachable(cfg, d) && d.sleeps == [5] && cfg.maxBackoff == 3
  {
    cfg := Config(false, 5, 3);
    d := AfterAttempt(cfg, Begin(cfg), Failed);
    var e := AttemptEnds(None);
    assert [e][1..] == [];
    assert Exec(cfg, Begin(cfg), [e]) == Some(d);
  }

  /** One more input. */
  lemma {:induction false} ExecThen(cfg: Config, d: Driver, es: seq<Input>, e: Input)
    requires Exec(cfg, d, es).Some?
    ensures Exec(cfg, d, es + [e]) == Next(cfg, Exec(cfg, d, es).value, e)
    decreases |es|
  {
    if es == [] {
      assert (es + [e])[1..] == [];
    } else {
      assert (es + [e])[1..] == es[1..] + [e];
      ExecThen(cfg, Next(cfg, d, es[0]).value, es[1..], e);
    }
  }

  lemma StaysReachable(cfg: Config, d: Driver, e: Input)
    requires Reachable(cfg, d) && Next(cfg, d, e).Some?
    ensures Reachable(cfg, Next(cfg, d, e).value)
  {
    var es :| Exec(cfg, Begin(cfg), es) == Some(d);
    ExecThen(cfg, Begin(cfg), es, e);
  }
}
