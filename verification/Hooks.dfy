/** The thread that runs one hook script: a polling loop against a deadline. */
module Hooks {
  import opened Text

  /** Milliseconds. */
  const POLL_INTERVAL: nat := 50

  datatype Answer = Running | Exited | WaitFailed

  /** One iteration: what `try_wait` answered, and what the clock said after it. */
  datatype Turn = Turn(answer: Answer, clock: nat)

  datatype End = Finished | Unknown | Killed

  /** The loop goes on: the script is un-reaped and its deadline not reached. */
  predicate GoesOn(t: Turn, deadline: nat) {
    t.answer.Running? && t.clock < deadline
  }

  function EndAt(t: Turn): End {
    match t.answer
    case Exited => Finished
    case WaitFailed => Unknown
    case Running => Killed
  }

  /** When the thread ends, after its last iteration `t`: a script that it killed it also waits for. */
  function EndsAt(t: Turn, reaping: nat): nat {
    if t.answer.Running? then t.clock + reaping else t.clock
  }

  /** The thread's last iteration is `n`. */
  predicate IsLast(turns: seq<Turn>, n: nat, deadline: nat) {
    && n < |turns| && !GoesOn(turns[n], deadline)
    && forall i :: 0 <= i < n ==> GoesOn(turns[i], deadline)
  }

  /**
   * Runs for as long as `turns` lasts; `reaping` is how long `wait` takes after a kill. The script is killed only in
   * an iteration whose `try_wait` found it un-reaped, so the signal cannot reach another process, and only once its
   * deadline has passed.
   */
  method RunChild(started: nat, timeout: nat, turns: seq<Turn>, reaping: nat)
    returns (end: Option<(nat, End)>, at: nat)
    ensures match end
            case None => forall i :: 0 <= i < |turns| ==> GoesOn(turns[i], started + timeout)
            case Some((n, e)) =>
              && IsLast(turns, n, started + timeout) && e == EndAt(turns[n]) && at == EndsAt(turns[n], reaping)
              && (e == Killed <==> turns[n].answer.Running? && turns[n].clock >= started + timeout)
              && (e == Finished <==> turns[n].answer == Exited) && (e == Unknown <==> turns[n].answer == WaitFailed)
  {
    var deadline := started + timeout;
    at := 0;
    for n := 0 to |turns|
      invariant forall i :: 0 <= i < n ==> GoesOn(turns[i], deadline)
    {
      at := turns[n].clock;
      match turns[n].answer {
        case Exited => return Some((n, Finished)), at;
        case WaitFailed => return Some((n, Unknown)), at;
        case Running =>
      }
      if turns[n].clock >= deadline {
        at := at + reaping;
        return Some((n, Killed)), at;
      }
    }
    return None, at;
  }

  /** The loop sleeps between two iterations, and takes at most `gap` from one clock reading to the next. */
  ghost predicate Paced(started: nat, turns: seq<Turn>, gap: nat) {
    && (turns != [] ==> started <= turns[0].clock <= started + gap)
    && forall i, j :: 0 <= i < j < |turns| && j == i + 1 ==>
         turns[i].clock + POLL_INTERVAL <= turns[j].clock <= turns[i].clock + gap
  }

  lemma {:induction false} ClockAdvances(started: nat, turns: seq<Turn>, gap: nat, n: nat)
    requires Paced(started, turns, gap) && n < |turns|
    ensures turns[n].clock >= started + n * POLL_INTERVAL
  {
    if n > 0 {
      ClockAdvances(started, turns, gap, n - 1);
      assert turns[n - 1].clock + POLL_INTERVAL <= turns[n].clock;
    }
  }

  /** The first iteration of these that does not go on. */
  lemma {:induction false} FirstStop(turns: seq<Turn>, k: nat, deadline: nat) returns (n: nat)
    requires k < |turns| && !GoesOn(turns[k], deadline)
    ensures n <= k && IsLast(turns, n, deadline)
  {
    n := k;
    if i :| 0 <= i < k && !GoesOn(turns[i], deadline) {
      n := FirstStop(turns, i, deadline);
    }
  }

  /**
   * Joining a hook is bounded: the loop ends within its timeout's worth of polls and one, and the thread no later
   * than the timeout, one gap and the reaping of a killed script after its start.
   */
  lemma JoinIsBounded(started: nat, timeout: nat, gap: nat, reaping: nat, turns: seq<Turn>) returns (n: nat)
    requires Paced(started, turns, gap) && |turns| * 50 >= timeout + 50
    ensures IsLast(turns, n, started + timeout) && n * 50 < timeout + 50
    ensures EndsAt(turns[n], reaping) <= started + timeout + gap + reaping
  {
    var deadline := started + timeout;
    var k: nat := |turns| - 1;
    ClockAdvances(started, turns, gap, k);
    n := FirstStop(turns, k, deadline);
    LastIsSoon(started, timeout, gap, turns, n);
  }

  lemma LastIsSoon(started: nat, timeout: nat, gap: nat, turns: seq<Turn>, n: nat)
    requires Paced(started, turns, gap) && IsLast(turns, n, started + timeout)
    ensures turns[n].clock <= started + timeout + gap && n * POLL_INTERVAL < timeout + POLL_INTERVAL
  {
    if n > 0 {
      assert GoesOn(turns[n - 1], started + timeout);
      ClockAdvances(started, turns, gap, n - 1);
      assert turns[n].clock <= turns[n - 1].clock + gap;
    }
  }

  /** In time: found ended by the deadline, or killed right at it and reaped at once. */
  predicate InTime(t: Turn, deadline: nat, reaping: nat) {
    t.clock <= deadline && (t.answer.Running? ==> t.clock == deadline && reaping == 0)
  }

  /**
   * The bound that the comment on `join` gives, the timeout alone, holds for a loop that ends if and only if one of
   * its turns is in time, whichever turn its last one is.
   */
  lemma JoinKeepsTimeout(started: nat, timeout: nat, gap: nat, reaping: nat, turns: seq<Turn>, n: nat)
    requires Paced(started, turns, gap) && IsLast(turns, n, started + timeout)
    ensures EndsAt(turns[n], reaping) <= started + timeout <==>
              exists k :: 0 <= k < |turns| && InTime(turns[k], started + timeout, reaping)
  {
    var deadline := started + timeout;
    assert !GoesOn(turns[n], deadline);
    if EndsAt(turns[n], reaping) <= deadline {
      assert InTime(turns[n], deadline, reaping);
    }
    if k :| 0 <= k < |turns| && InTime(turns[k], deadline, reaping) {
      if k < n {
        assert GoesOn(turns[k], deadline);
      } else if n < k {
        ClockIncreases(started, turns, gap, n, k);
      }
    }
  }

  lemma {:induction false} ClockIncreases(started: nat, turns: seq<Turn>, gap: nat, i: nat, k: nat)
    requires Paced(started, turns, gap) && i < k < |turns|
    ensures turns[i].clock < turns[k].clock
    decreases k
  {
    assert turns[k - 1].clock + POLL_INTERVAL <= turns[k].clock;
    if i < k - 1 {
      ClockIncreases(started, turns, gap, i, k - 1);
    }
  }

  /** A script that never ends, with a timeout of 120: its thread ends at 157. */
  lemma JoinCanExceedTimeout() returns (turns: seq<Turn>)
    ensures Paced(0, turns, 60) && IsLast(turns, 2, 120) && EndsAt(turns[2], 7) == 157
  {
    turns := [Turn(Running, 30), Turn(Running, 90), Turn(Running, 150)];
  }
}
