/** What some schedule can still bring about from a given state: exact conditions on the state. */
module SupervisorSchedules {
  import opened Text
  import opened Supervisor
  import opened SupervisorInvariant
  import opened SupervisorTheorems

  // ----- a held lock is not held for ever

  predicate OfSweep(e: Event) {
    e.OnMon? && (e.ma == SweepNext(false) || e.ma == EndSweep(false))
  }

  /** Nothing has happened but that the monitor that held the lock, if one did, has finished. */
  predicate OnlyUnlocked(s: Sys, s': Sys) {
    && s'.holder == None && s'.exit == s.exit && s'.conns == s.conns && s'.st == s.st
    && |s'.gens| == |s.gens|
    && forall g :: 0 <= g < |s.gens| && s.holder != Some(g) ==> s'.gens[g] == s.gens[g]
  }

  lemma SweepOne(s: Sys, g: nat)
    requires g < |s.gens| && s.holder == Some(g) && s.gens[g].mon.Sweeping? && s.exit == NotExited
    ensures var targets := s.gens[g].mon.targets;
            if targets == [] then
              Next(s, OnMon(g, EndSweep(false))).Some? && OnlyUnlocked(s, Next(s, OnMon(g, EndSweep(false))).value)
            else
              Next(s, OnMon(g, SweepNext(false))) == Some(SetMon(s, g, Sweeping(targets[1..], s.gens[g].mon.killed)))
  {
  }

  /** The monitor that holds the lock can finish its sweep. */
  lemma {:induction false} LockIsFreed(s: Sys, g: nat) returns (es: seq<Event>)
    requires g < |s.gens| && s.holder == Some(g) && s.gens[g].mon.Sweeping? && s.exit == NotExited
    ensures Exec(s, es).Some? && OnlyUnlocked(s, Exec(s, es).value) && forall e :: e in es ==> OfSweep(e)
    decreases |s.gens[g].mon.targets|
  {
    SweepOne(s, g);
    if s.gens[g].mon.targets == [] {
      es := [OnMon(g, EndSweep(false))];
      ExecOne(s, es[0]);
    } else {
      var e := OnMon(g, SweepNext(false));
      var s1 := Next(s, e).value;
      var rest := LockIsFreed(s1, g);
      es := [e] + rest;
      assert es[1..] == rest;
    }
  }

  lemma FreeLock(s: Sys) returns (es: seq<Event>)
    requires Inv(s) && s.exit == NotExited
    ensures Exec(s, es).Some? && OnlyUnlocked(s, Exec(s, es).value) && forall e :: e in es ==> OfSweep(e)
  {
    if s.holder == None {
      es := [];
    } else {
      assert GenOk(s, s.holder.value);
      es := LockIsFreed(s, s.holder.value);
    }
  }

  // ----- which kicked threads can still tear the core down

  ghost predicate CanTearDown(s: Sys, t: nat) {
    exists es ::
      Exec(s, es).Some? && t in Exec(s, es).value.conns && TearingDown(Exec(s, es).value.conns[t].pc)
  }

  /**
   * A kicked thread can still come to tear the core down if and only if it is past the loading of its flag and has
   * not returned: it found the flag down, and was kicked after that.
   */
  lemma WhoCanTearDown(s: Sys, t: nat)
    requires Reachable(s) && s.exit == NotExited && t in s.conns && s.conns[t].kicked && !s.conns[t].pc.Gone?
    ensures CanTearDown(s, t) <==> !Displaced(s, t)
  {
    InvReachable(s);
    assert LeaseOk(s, t);
    if Displaced(s, t) {
      forall es | Exec(s, es).Some?
        ensures t in Exec(s, es).value.conns && !TearingDown(Exec(s, es).value.conns[t].pc)
      {
        DisplacedNeverTearsDown(s, es, t);
      }
    } else if TearingDown(s.conns[t].pc) {
      assert Exec(s, []) == Some(s);
    } else {
      assert s.conns[t].pc.Releasing?;
      ReleasingTearsDown(s, t);
    }
  }

  lemma ReleasingTearsDown(s: Sys, t: nat)
    requires Inv(s) && s.exit == NotExited && t in s.conns && s.conns[t].pc.Releasing?
    ensures CanTearDown(s, t)
  {
    var es := FreeLock(s);
    var s1 := Exec(s, es).value;
    var e := OnConn(t, Release);
    assert Next(s1, e).Some? && TearingDown(Next(s1, e).value.conns[t].pc);
    ExecThen(s, es, [e]);
    ExecOne(s1, e);
  }
}
