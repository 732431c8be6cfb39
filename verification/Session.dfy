/**
 * One session as a whole: the client's slot, the two directions of the connection as queues of text lines, and the
 * supervisor's command loop, with pushes and impatient callers at any time. The lines carry no request id; the
 * `cause` of a line is history, and no step reads it.
 */
module Session {
  import opened Text
  import opened Messages
  import opened Proto
  import opened Client

  datatype Wire = Wire(line: string, cause: Option<nat>)

  /** A line taken from the connection by the supervisor's loop: what it decodes to. */
  datatype Work = Work(cmd: Option<Cmd>, cause: Option<nat>)

  /** History: what became of a line that the client read. */
  datatype Delivered = Delivered(delivery: Delivery, ev: Event, cause: Option<nat>)

  datatype Link = Link(
    pending: Option<Request>,
    up: seq<Wire>, work: Option<Work>, down: seq<Wire>,
    nextId: nat,
    givenUp: set<nat>,                                // callers that timed out
    refused: set<nat>,                                // requests refused because one was in flight
    delivered: seq<Delivered>, undecoded: nat         // history
  )

  const EMPTY := Link(None, [], None, [], 0, {}, {}, [], 0)

  /** The replies that the command loop may give to a line. */
  predicate MayReply(cmd: Option<Cmd>, ev: Event) {
    match cmd
    case None => ev.Error? && ev.code == "bad_request"
    case Some(Hello(_, _)) => ev.Error? && ev.code == "bad_proto"
    case Some(Start) => ev.CoreStarted? || (ev.Error? && ev.code == "spawn_failed")
    case Some(Status) => ev.Status?
    case Some(Stop) => ev.CoreStopped?
  }

  predicate IsPush(ev: Event) {
    ev.CoreExited? || ev.Kicked?
  }

  datatype Move =
    | Send(kind: Kind)
    | GiveUp(id: nat)
    | TakeLine
    | Answer(ev: Event)
    | Push(ev: Event)
    | ReadLine

  function Next(l: Link, m: Move): Option<Link> {
    match m
    case Send(kind) =>
      var req := Request(l.nextId, kind);
      Some(if l.pending.Some? then l.(nextId := l.nextId + 1, refused := l.refused + {req.id})
           else l.(nextId := l.nextId + 1, pending := Some(req),
                   up := l.up + [Wire(EncodeCmd(CommandFor(kind)), Some(req.id))]))
    case GiveUp(id) => if id < l.nextId then Some(l.(givenUp := l.givenUp + {id})) else None
    case TakeLine =>
      if l.up == [] || l.work.Some? then None
      else
        var w := l.up[0];
        Some(l.(up := l.up[1..], work := if Trim(w.line) == "" then None else Some(Work(DecodeCmd(w.line), w.cause))))
    case Answer(ev) =>
      if l.work.Some? && !ev.Unknown? && MayReply(l.work.value.cmd, ev)
      then Some(l.(work := None, down := l.down + [Wire(EncodeEvent(ev), l.work.value.cause)])) else None
    case Push(ev) => if IsPush(ev) then Some(l.(down := l.down + [Wire(EncodeEvent(ev), None)])) else None
    case ReadLine =>
      if l.down == [] then None
      else
        match DecodeEvent(l.down[0].line)
        case None => Some(l.(down := l.down[1..], undecoded := l.undecoded + 1))
        case Some(ev) => Some(AfterRead(l, ev))
  }

  function AfterRead(l: Link, ev: Event): Link
    requires l.down != []
  {
    l.(down := l.down[1..], pending := PendingAfter(l.pending, ev),
       delivered := l.delivered + [Delivered(Route(l.pending, ev), ev, l.down[0].cause)])
  }

  function Exec(l: Link, ms: seq<Move>): Option<Link>
    decreases |ms|
  {
    if ms == [] then Some(l)
    else
      match Next(l, ms[0])
      case None => None
      case Some(l') => Exec(l', ms[1..])
  }

  // ----- the invariant: a request in flight is in exactly one place

  /** A line that carries a push, and nothing's reply. */
  ghost predicate IsPushLine(w: Wire) {
    w.cause == None && exists ev :: IsPush(ev) && w.line == EncodeEvent(ev)
  }

  /** A line that carries a reply to this request's own command. */
  ghost predicate IsReplyLine(w: Wire, req: Request) {
    && w.cause == Some(req.id)
    && exists ev: Event :: MayReply(Some(CommandFor(req.kind)), ev) && w.line == EncodeEvent(ev)
  }

  ghost predicate AllPushes(down: seq<Wire>) {
    forall i :: 0 <= i < |down| ==> IsPushLine(down[i])
  }

  /** Pushes and, at place `n`, one reply. */
  ghost predicate OneReply(down: seq<Wire>, req: Request, n: nat) {
    && n < |down| && IsReplyLine(down[n], req)
    && forall i :: 0 <= i < |down| && i != n ==> IsPushLine(down[i])
  }

  ghost predicate Travelling(l: Link, req: Request) {
    || (l.up == [Wire(EncodeCmd(CommandFor(req.kind)), Some(req.id))] && l.work == None && AllPushes(l.down))
    || (l.up == [] && l.work == Some(Work(Some(CommandFor(req.kind)), Some(req.id))) && AllPushes(l.down))
    || (l.up == [] && l.work == None && exists n :: OneReply(l.down, req, n))
  }

  /** What may have been delivered: pushes to nobody, replies to the request that caused them. */
  predicate Correct(d: Delivered) {
    match d.delivery
    case Forwarded => d.cause == None && IsPush(d.ev)
    case Fulfilled(req) => d.cause == Some(req.id) && Answers(d.ev, req.kind)
    case Refused(req) => d.cause == Some(req.id) && req.kind.StartKind? && d.ev.Error? && d.ev.code == "spawn_failed"
    case _ => false
  }

  ghost predicate Inv(l: Link) {
    && (match l.pending
        case None => l.up == [] && l.work == None && AllPushes(l.down)
        case Some(req) => req.id < l.nextId && Travelling(l, req))
    && (forall i :: 0 <= i < |l.delivered| ==> Correct(l.delivered[i]))
    && l.undecoded == 0
  }

  lemma SendKeeps(l: Link, kind: Kind)
    requires Inv(l)
    ensures Inv(Next(l, Send(kind)).value)
  {
    var l' := Next(l, Send(kind)).value;
    if l.pending.Some? {
      SameLines(l, l', l.pending.value);
    }
  }

  lemma SameLines(l: Link, l': Link, req: Request)
    requires Travelling(l, req) && l'.up == l.up && l'.work == l.work && l'.down == l.down
    ensures Travelling(l', req)
  {
  }

  lemma LineTaken(l: Link, line: string, cmd: Cmd, cause: Option<nat>)
    requires l.up == [Wire(line, cause)] && l.work == None && Trim(line) != "" && DecodeCmd(line) == Some(cmd)
    ensures Next(l, TakeLine) == Some(l.(up := [], work := Some(Work(Some(cmd), cause))))
  {
    assert l.up[1..] == [];
  }

  lemma NothingToTake(l: Link)
    requires l.up == [] || l.work.Some?
    ensures Next(l, TakeLine) == None
  {
  }

  lemma Working(l: Link, req: Request)
    requires l.up == [] && l.work == Some(Work(Some(CommandFor(req.kind)), Some(req.id))) && AllPushes(l.down)
    ensures Travelling(l, req)
  {
  }

  lemma TakeLineKeeps(l: Link)
    requires Inv(l) && Next(l, TakeLine).Some?
    ensures Inv(Next(l, TakeLine).value)
  {
    if l.up == [] || l.work.Some? {
      NothingToTake(l);
    }
    var req := l.pending.value;
    var cmd := CommandFor(req.kind);
    CmdRoundTrip(cmd);
    EncodedIsOneLine(cmd, Kicked);
    LineTaken(l, EncodeCmd(cmd), cmd, Some(req.id));
    Working(Next(l, TakeLine).value, req);
  }

  lemma AnswerKeeps(l: Link, ev: Event)
    requires Inv(l) && Next(l, Answer(ev)).Some?
    ensures Inv(Next(l, Answer(ev)).value)
  {
    var l' := Next(l, Answer(ev)).value;
    var req := l.pending.value;
    assert IsReplyLine(l'.down[|l.down|], req);
    assert OneReply(l'.down, req, |l.down|);
  }

  lemma PushLineKeeps(l: Link, w: Wire)
    requires Inv(l) && IsPushLine(w)
    ensures Inv(l.(down := l.down + [w]))
  {
    var l' := l.(down := l.down + [w]);
    assert l'.down[|l.down|] == w;
    assert AllPushes(l.down) ==> AllPushes(l'.down);
    if l.pending.Some? && !AllPushes(l.down) {
      var n :| OneReply(l.down, l.pending.value, n);
      assert OneReply(l'.down, l.pending.value, n);
    }
  }

  /** A push line decodes to its push. */
  lemma ReadPush(w: Wire) returns (ev: Event)
    requires IsPushLine(w)
    ensures DecodeEvent(w.line) == Some(ev) && IsPush(ev)
  {
    ev :| IsPush(ev) && w.line == EncodeEvent(ev);
    EventRoundTrip(ev);
  }

  /** A reply line decodes to a reply to the request in flight. */
  lemma ReadReply(w: Wire, req: Request) returns (ev: Event)
    requires IsReplyLine(w, req)
    ensures DecodeEvent(w.line) == Some(ev) && MayReply(Some(CommandFor(req.kind)), ev)
  {
    ev :| MayReply(Some(CommandFor(req.kind)), ev) && w.line == EncodeEvent(ev);
    EventRoundTrip(ev);
  }

  lemma PushDelivered(l: Link, ev: Event)
    requires l.down != [] && IsPush(ev) && l.down[0].cause == None
    ensures AfterRead(l, ev).pending == l.pending
    ensures Correct(Delivered(Route(l.pending, ev), ev, l.down[0].cause))
  {
  }

  lemma ReplyDelivered(l: Link, req: Request, ev: Event)
    requires l.down != [] && l.pending == Some(req) && l.down[0].cause == Some(req.id)
    requires MayReply(Some(CommandFor(req.kind)), ev)
    ensures AfterRead(l, ev).pending == None
    ensures Correct(Delivered(Route(l.pending, ev), ev, l.down[0].cause))
  {
  }

  lemma RestAllPushes(down: seq<Wire>)
    requires down != [] && AllPushes(down)
    ensures AllPushes(down[1..])
  {
  }

  lemma RestOneReply(down: seq<Wire>, req: Request, n: nat)
    requires OneReply(down, req, n)
    ensures if n == 0 then AllPushes(down[1..]) else IsPushLine(down[0]) && OneReply(down[1..], req, n - 1)
  {
    var rest := down[1..];
    forall i | 0 <= i < |rest| && i + 1 != n ensures IsPushLine(rest[i]) { assert rest[i] == down[i + 1]; }
  }

  lemma PushIsNoReply(w: Wire, req: Request)
    requires IsPushLine(w)
    ensures !IsReplyLine(w, req)
  {
  }

  lemma TravellingPastPush(l: Link, l': Link, req: Request)
    requires Travelling(l, req) && l.down != [] && IsPushLine(l.down[0])
    requires l'.up == l.up && l'.work == l.work && l'.down == l.down[1..]
    ensures Travelling(l', req)
  {
    if AllPushes(l.down) {
      RestAllPushes(l.down);
      NoReplyAmongPushes(l.down, req);
    } else {
      PushIsNoReply(l.down[0], req);
      var n :| OneReply(l.down, req, n);
      RestOneReply(l.down, req, n);
    }
  }

  lemma NoReplyAmongPushes(down: seq<Wire>, req: Request)
    requires AllPushes(down)
    ensures forall n: nat :: !OneReply(down, req, n)
  {
    forall n: nat ensures !OneReply(down, req, n) {
      if n < |down| {
        PushIsNoReply(down[n], req);
      }
    }
  }

  /** The client reads a push that stands first. */
  lemma ReadPushKeeps(l: Link, ev: Event)
    requires Inv(l) && l.down != [] && IsPushLine(l.down[0]) && IsPush(ev)
    ensures Inv(AfterRead(l, ev))
  {
    var l' := AfterRead(l, ev);
    PushDelivered(l, ev);
    match l.pending {
      case None => RestAllPushes(l.down);
      case Some(req) => TravellingPastPush(l, l', req);
    }
    DeliveredKeeps(l, l');
  }

  lemma DeliveredKeeps(l: Link, l': Link)
    requires forall i :: 0 <= i < |l.delivered| ==> Correct(l.delivered[i])
    requires |l'.delivered| == |l.delivered| + 1 && l'.delivered[..|l.delivered|] == l.delivered
    requires Correct(l'.delivered[|l.delivered|])
    ensures forall i :: 0 <= i < |l'.delivered| ==> Correct(l'.delivered[i])
  {
    forall i | 0 <= i < |l.delivered| ensures l'.delivered[i] == l.delivered[i] {
      assert l'.delivered[..|l.delivered|][i] == l'.delivered[i];
    }
  }

  /** The client reads the reply it waits for. */
  lemma ReadReplyKeeps(l: Link, req: Request, ev: Event)
    requires Inv(l) && l.pending == Some(req) && OneReply(l.down, req, 0)
    requires MayReply(Some(CommandFor(req.kind)), ev)
    ensures Inv(AfterRead(l, ev))
  {
    ReplyDelivered(l, req, ev);
    RestOneReply(l.down, req, 0);
    if AllPushes(l.down) {
      PushIsNoReply(l.down[0], req);
    }
    DeliveredKeeps(l, AfterRead(l, ev));
  }

  lemma ReadLineKeeps(l: Link) returns (ev: Event)
    requires Inv(l) && l.down != []
    ensures DecodeEvent(l.down[0].line) == Some(ev) && Inv(AfterRead(l, ev))
  {
    if AllPushes(l.down) {
      ev := ReadPush(l.down[0]);
      ReadPushKeeps(l, ev);
    } else {
      var req := l.pending.value;
      var n :| OneReply(l.down, req, n);
      if n == 0 {
        ev := ReadReply(l.down[0], req);
        ReadReplyKeeps(l, req, ev);
      } else {
        ev := ReadPush(l.down[0]);
        ReadPushKeeps(l, ev);
      }
    }
  }

  lemma InvStep(l: Link, m: Move)
    requires Inv(l) && Next(l, m).Some?
    ensures Inv(Next(l, m).value)
  {
    match m {
      case Send(kind) => SendKeeps(l, kind);
      case GiveUp(_) =>
        if l.pending.Some? {
          SameLines(l, Next(l, m).value, l.pending.value);
        }
      case TakeLine => TakeLineKeeps(l);
      case Answer(ev) => AnswerKeeps(l, ev);
      case Push(ev) => PushLineKeeps(l, Wire(EncodeEvent(ev), None));
      case ReadLine => var ev := ReadLineKeeps(l);
    }
  }

  lemma {:induction false} InvRun(l: Link, ms: seq<Move>)
    requires Inv(l) && Exec(l, ms).Some?
    ensures Inv(Exec(l, ms).value)
    decreases |ms|
  {
    if ms != [] {
      InvStep(l, ms[0]);
      InvRun(Next(l, ms[0]).value, ms[1..]);
    }
  }

  /**
   * In every run of a session every line decodes; every reply completes the request whose command caused it, with
   * a reply of its kind or, for a start, the spawn error; pushes complete nothing; and no reply is ever unexpected
   * or unclaimed.
   */
  lemma RepliesAreCorrelated(ms: seq<Move>, i: nat)
    requires Exec(EMPTY, ms).Some? && i < |Exec(EMPTY, ms).value.delivered|
    ensures Correct(Exec(EMPTY, ms).value.delivered[i])
    ensures Exec(EMPTY, ms).value.undecoded == 0
  {
    InvRun(EMPTY, ms);
  }

  /** At most one command is under way: on the line, at work, or answered on the line back. */
  lemma OneInFlight(ms: seq<Move>)
    requires Exec(EMPTY, ms).Some?
    ensures var l := Exec(EMPTY, ms).value;
            && |l.up| + (if l.work.Some? then 1 else 0) <= 1
            && (l.pending.None? ==> l.up == [] && l.work == None && AllPushes(l.down))
            && (l.pending.Some? ==> Travelling(l, l.pending.value))
  {
    InvRun(EMPTY, ms);
  }
}
