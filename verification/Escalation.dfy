/** The monitor's loop: poll the child, and once a stop is requested escalate from SIGTERM to SIGKILL. */
module Escalation {
  import opened Text

  /** Milliseconds. */
  const TERM_GRACE: nat := 5000
  const POLL_INTERVAL: nat := 100

  datatype Signal = Term | Kill

  /** The monitor's local variables `term_deadline` and `kill_sent`. */
  datatype Watch = Watch(deadline: Option<nat>, killSent: bool)

  const FRESH := Watch(None, false)

  /** The signal that an iteration sends, if a stop was requested. */
  function Choose(w: Watch, now: nat): Option<Signal> {
    match w.deadline
    case None => Some(Term)
    case Some(d) => if !w.killSent && now >= d then Some(Kill) else None
  }

  /** The variables after sending `sig`; `now` is the clock read after SIGTERM. */
  function After(w: Watch, sig: Signal, now: nat): Watch {
    if sig.Term? then w.(deadline := Some(now + TERM_GRACE)) else w.(killSent := true)
  }

  /**
   * One iteration: when `try_wait` was called and whether it reaped the child, when the stop flag was read and
   * what it said, and what the clock said in the signalling step.
   */
  datatype Turn = Turn(poll: nat, reaped: bool, check: nat, stop: bool, clock: nat)

  datatype Sent = Sent(sig: Signal, at: nat)

  datatype Progress = Progress(watch: Watch, sent: seq<Sent>)

  function Step(p: Progress, t: Turn): Progress {
    if !t.stop then p
    else
      match Choose(p.watch, t.clock)
      case None => p
      case Some(sig) => Progress(After(p.watch, sig, t.clock), p.sent + [Sent(sig, t.clock)])
  }

  function ProgressAfter(turns: seq<Turn>): Progress {
    if turns == [] then Progress(FRESH, [])
    else Step(ProgressAfter(turns[..|turns| - 1]), turns[|turns| - 1])
  }

  /** The loop of the monitor thread, run for as long as `turns` lasts. */
  method Monitor(turns: seq<Turn>) returns (reapedAt: Option<nat>, sent: seq<Sent>)
    ensures match reapedAt
            case None => (forall i :: 0 <= i < |turns| ==> !turns[i].reaped) && sent == ProgressAfter(turns).sent
            case Some(n) => n < |turns| && turns[n].reaped && (forall i :: 0 <= i < n ==> !turns[i].reaped)
                            && sent == ProgressAfter(turns[..n]).sent
  {
    var termDeadline: Option<nat> := None;
    var killSent := false;
    sent := [];
    for n := 0 to |turns|
      invariant forall i :: 0 <= i < n ==> !turns[i].reaped
      invariant Progress(Watch(termDeadline, killSent), sent) == ProgressAfter(turns[..n])
    {
      assert turns[..n + 1][..n] == turns[..n];
      var turn := turns[n];
      if turn.reaped {
        return Some(n), sent;
      }
      if turn.stop {
        if termDeadline == None {
          sent := sent + [Sent(Term, turn.clock)];
          termDeadline := Some(turn.clock + TERM_GRACE);
        } else if !killSent && turn.clock >= termDeadline.value {
          sent := sent + [Sent(Kill, turn.clock)];
          killSent := true;
        }
      }
    }
    assert turns[..|turns|] == turns;
    reapedAt := None;
  }

  // ----- the shape of the signals

  /** A prefix of SIGTERM, SIGKILL with the grace period between them, and the local variables that go with it. */
  predicate Shape(w: Watch, sent: seq<Sent>) {
    if sent == [] then w == FRESH
    else
      && |sent| <= 2
      && sent[0].sig == Term
      && w.deadline.Some? && w.deadline.value >= sent[0].at + TERM_GRACE
      && w.killSent == (|sent| == 2)
      && (|sent| == 2 ==> sent[1].sig == Kill && sent[1].at >= w.deadline.value)
  }

  lemma {:induction false} ProgressHasShape(turns: seq<Turn>)
    ensures Shape(ProgressAfter(turns).watch, ProgressAfter(turns).sent)
  {
    if turns != [] {
      ProgressHasShape(turns[..|turns| - 1]);
    }
  }

  // ----- how long reaping takes

  /** Times run forward. The last turn may be under way. */
  predicate Ordered(turns: seq<Turn>) {
    forall i :: 0 <= i < |turns| - 1 ==> Follows(turns, i)
  }

  /** A turn is over before the next begins. */
  predicate Follows(turns: seq<Turn>, i: nat)
    requires i < |turns| - 1
  {
    turns[i].poll <= turns[i].check <= turns[i].clock <= turns[i + 1].poll
  }

  /** A turn sees a stop requested at time `requested` if it looks after that; at that very time it may or may not. */
  predicate SeesFlag(turns: seq<Turn>, requested: nat) {
    forall i :: 0 <= i < |turns| - 1 ==>
      && (turns[i].stop ==> requested <= turns[i].check)
      && (requested < turns[i].check ==> turns[i].stop)
  }

  predicate KillsIn(turns: seq<Turn>, i: nat)
    requires i < |turns|
  {
    turns[i].stop && Choose(ProgressAfter(turns[..i]).watch, turns[i].clock) == Some(Kill)
  }

  /**
   * The assumptions on the schedule: the first poll is within a poll interval of the request or before it, an
   * iteration takes at most the poll interval and its body at most `body`, and a child that was sent SIGKILL is
   * reapable by the next poll.
   */
  ghost predicate Prompt(turns: seq<Turn>, requested: nat, body: nat) {
    && (turns != [] ==> turns[0].poll <= requested + POLL_INTERVAL)
    && forall i, j :: 0 <= i < j < |turns| && j == i + 1 ==>
         && turns[i].clock <= turns[i].poll + body
         && turns[j].poll <= turns[i].poll + POLL_INTERVAL
         && (KillsIn(turns, i) ==> turns[j].reaped)
  }

  ghost predicate Timely(turns: seq<Turn>, requested: nat, body: nat) {
    Ordered(turns) && SeesFlag(turns, requested) && Prompt(turns, requested, body)
  }

  /** Where the monitor stands when it is about to make poll `n`. */
  ghost predicate OnTime(turns: seq<Turn>, n: nat, requested: nat, body: nat)
    requires n < |turns|
  {
    var w := ProgressAfter(turns[..n]).watch;
    var poll := turns[n].poll;
    match w.deadline
    case None => !w.killSent && poll <= requested + POLL_INTERVAL
    case Some(d) =>
      && requested + TERM_GRACE <= d <= requested + POLL_INTERVAL + body + TERM_GRACE
      && (if w.killSent then turns[n].reaped && poll <= d + 2 * POLL_INTERVAL else poll <= d + POLL_INTERVAL)
  }

  lemma {:induction false} StaysOnTime(turns: seq<Turn>, n: nat, requested: nat, body: nat)
    requires Timely(turns, requested, body)
    requires n < |turns| && forall i :: 0 <= i < n ==> !turns[i].reaped
    ensures OnTime(turns, n, requested, body)
  {
    if n == 0 {
      assert turns[..0] == [];
    } else {
      var i := n - 1;
      StaysOnTime(turns, i, requested, body);
      assert turns[..n][..i] == turns[..i];
      assert ProgressAfter(turns[..n]) == Step(ProgressAfter(turns[..i]), turns[i]);
      assert Follows(turns, i);
      assert turns[n].poll <= turns[i].poll + POLL_INTERVAL && turns[i].clock <= turns[i].poll + body;
      assert KillsIn(turns, i) ==> turns[n].reaped;
    }
  }

  /**
   * Every poll the monitor still makes falls within the grace period and three poll intervals of the request, plus
   * the time of one loop body. With an instantaneous body the bound is the grace period and three poll intervals.
   */
  lemma ReapedInTime(turns: seq<Turn>, n: nat, requested: nat, body: nat)
    requires Timely(turns, requested, body)
    requires n < |turns| && forall i :: 0 <= i < n ==> !turns[i].reaped
    ensures turns[n].poll <= requested + TERM_GRACE + 3 * POLL_INTERVAL + body
  {
    StaysOnTime(turns, n, requested, body);
  }

  /** And while no poll has reaped the child the next one is due within the same time. */
  lemma NextPollInTime(turns: seq<Turn>, requested: nat, body: nat)
    requires Timely(turns, requested, body)
    requires turns != [] && forall i :: 0 <= i < |turns| ==> !turns[i].reaped
    ensures turns[|turns| - 1].poll + POLL_INTERVAL <= requested + TERM_GRACE + 3 * POLL_INTERVAL + body
  {
    StaysOnTime(turns, |turns| - 1, requested, body);
  }

  // ----- the time of the body counts

  /** Polls at 100, 200, ... 5100, and then at 5101, 5201 and 5301; the first body takes 2, the others no time. */
  function LateTurn(i: nat): Turn {
    var poll := if i <= 50 then 100 + 100 * i else 5001 + 100 * (i - 50);
    Turn(poll, i == 53, poll, true, if i == 0 then 102 else poll)
  }

  function LateTurns(n: nat): (turns: seq<Turn>)
    ensures |turns| == n && forall i :: 0 <= i < n ==> turns[i] == LateTurn(i)
  {
    seq(n, i requires 0 <= i < n => LateTurn(i))
  }

  lemma {:induction false} LateProgress(n: nat)
    requires n <= 53
    ensures ProgressAfter(LateTurns(n)).watch
         == if n == 0 then FRESH else Watch(Some(5102), n == 53)
  {
    if n > 0 {
      LateProgress(n - 1);
      assert LateTurns(n)[..n - 1] == LateTurns(n - 1);
      assert LateTurns(n)[n - 1] == LateTurn(n - 1);
    }
  }

  /** With a body of 2 the child of a stop requested at 0 is reaped only at 5301. */
  lemma BodyCounts() returns (turns: seq<Turn>)
    ensures Timely(turns, 0, 2) && |turns| == 54 && (forall i :: 0 <= i < 53 ==> !turns[i].reaped) && turns[53].reaped
    ensures turns[53].poll > TERM_GRACE + 3 * POLL_INTERVAL
  {
    turns := LateTurns(54);
    forall i: nat, j: nat | i < j < |turns| && j == i + 1
      ensures turns[i].clock <= turns[i].poll + 2 && turns[j].poll <= turns[i].poll + POLL_INTERVAL
      ensures Follows(turns, i)
      ensures KillsIn(turns, i) ==> turns[j].reaped
    {
      assert turns[..i] == LateTurns(i);
      LateProgress(i);
    }
  }
}
