/** Whole sweeps, after a crash and before an exit: which processes they try to kill, and which hook they run. */
module SupervisorSweeps {
  import opened Text
  import opened Supervisor
  import opened SupervisorInvariant
  import opened SupervisorTheorems
  import Janitor

  // ----- the sweep before an exit

  predicate DropsOne(s: Sys, e: Event, t: nat) {
    && e.OnConn? && e.t == t && e.ca.KillNext?
    && t in s.conns && s.conns[t].pc.Killing? && s.conns[t].pc.targets != []
  }

  /** The kills that thread `t` tries in a run, in order. */
  function DropTries(s: Sys, es: seq<Event>, t: nat): seq<Try>
    requires Exec(s, es).Some?
    decreases |es|
  {
    if es == [] then []
    else
      (if DropsOne(s, es[0], t) then [Try(s.conns[t].pc.targets[0], es[0].ca.ok)] else [])
      + DropTries(Next(s, es[0]).value, es[1..], t)
  }

  predicate EndsDrop(e: Event, t: nat) {
    e.OnConn? && e.t == t && e.ca.EndKilling?
  }

  predicate DroppedFrom(from: ConnPc, to: ConnPc, tries: seq<Try>) {
    && from.Killing? && to.Killing? && to.hook == from.hook
    && Pids(tries) + to.targets == from.targets
    && to.killed == from.killed + Kills(tries)
  }

  lemma DroppedFurther(from: ConnPc, one: ConnPc, to: ConnPc, first: Try, rest: seq<Try>)
    requires from.Killing? && from.targets != [] && first.pid == from.targets[0]
    requires one == Killing(from.hook, from.targets[1..], from.killed + (if first.killed then 1 else 0))
    requires DroppedFrom(one, to, rest)
    ensures DroppedFrom(from, to, [first] + rest)
  {
    TriesPush(first, rest);
    assert from.targets == [first.pid] + from.targets[1..];
  }

  lemma DropTry(s: Sys, t: nat, ok: bool)
    requires t in s.conns && s.conns[t].pc.Killing? && ConnNext(s, t, KillNext(ok)).Some?
    ensures var s', pc := ConnNext(s, t, KillNext(ok)).value, s.conns[t].pc;
            && pc.targets != [] && t in s'.conns
            && s'.conns[t].pc == Killing(pc.hook, pc.targets[1..], pc.killed + (if ok then 1 else 0))
  {
  }

  lemma DropStays(s: Sys, e: Event, t: nat)
    requires LeaseInv(s) && t in s.conns && s.conns[t].pc.Killing? && Next(s, e).Some?
    requires !EndsDrop(e, t) && !DropsOne(s, e, t)
    ensures t in Next(s, e).value.conns && Next(s, e).value.conns[t].pc == s.conns[t].pc
  {
    match e {
      case Arrive(_) => IdIsFresh(s);
      case OnConn(u, a) =>
        if u != t {
          ActsKeepPlaces(s, u, a);
        } else {
          OnlyKills(s, t, a);
        }
      case OnMon(g, a) => MonKeepsThreads(s, g, a);
      case _ =>
    }
  }

  lemma OnlyKills(s: Sys, t: nat, a: ConnAct)
    requires t in s.conns && s.conns[t].pc.Killing? && ConnNext(s, t, a).Some?
    ensures a.KillNext? || a.EndKilling?
    ensures a.KillNext? ==> s.conns[t].pc.targets != []
  {
  }

  lemma {:induction false} DropRun(s: Sys, es: seq<Event>, t: nat)
    requires Inv(s) && t in s.conns && s.conns[t].pc.Killing? && Exec(s, es).Some?
    requires forall e :: e in es ==> !EndsDrop(e, t)
    ensures var s' := Exec(s, es).value;
            t in s'.conns && DroppedFrom(s.conns[t].pc, s'.conns[t].pc, DropTries(s, es, t))
    decreases |es|
  {
    if es == [] {
      assert Pids([]) + s.conns[t].pc.targets == s.conns[t].pc.targets;
    } else {
      var e, s1 := es[0], Next(s, es[0]).value;
      assert e in es && forall e' :: e' in es[1..] ==> e' in es;
      InvStep(s, e, s1);
      if DropsOne(s, e, t) {
        DropTry(s, t, e.ca.ok);
        DropRun(s1, es[1..], t);
        DroppedFurther(s.conns[t].pc, s1.conns[t].pc, Exec(s, es).value.conns[t].pc,
                       Try(s.conns[t].pc.targets[0], e.ca.ok), DropTries(s1, es[1..], t));
      } else {
        DropStays(s, e, t);
        DropRun(s1, es[1..], t);
        assert [] + DropTries(s1, es[1..], t) == DropTries(s1, es[1..], t);
      }
    }
  }

  lemma DropEnds(s: Sys, t: nat, script: bool)
    requires t in s.conns && s.conns[t].pc.Killing? && ConnNext(s, t, EndKilling(script)).Some?
    ensures var s', pc := ConnNext(s, t, EndKilling(script)).value, s.conns[t].pc;
            && pc.targets == [] && t in s'.conns && s'.conns[t].pc == Joining(pc.hook)
            && s'.hooks == s.hooks + NewHook(JanitorKill, Some(t), None, script && pc.killed > 0)
  {
  }

  /**
   * A whole sweep before an exit, whatever else happens meanwhile: it tries every matching line of its listing once,
   * in order, and its hook fires exactly if it killed something.
   */
  lemma TeardownSweep(s: Sys, s1: Sys, s2: Sys, s3: Sys, t: nat, listing: Option<string>, es: seq<Event>, script: bool)
    requires Reachable(s) && t in s.conns && Next(s, OnConn(t, List(listing))) == Some(s1)
    requires Exec(s1, es) == Some(s2) && forall e :: e in es ==> !EndsDrop(e, t)
    requires Next(s2, OnConn(t, EndKilling(script))) == Some(s3)
    ensures var tries := DropTries(s1, es, t);
            && Pids(tries) == SweepTargets(s, listing)
            && s3.hooks == s2.hooks + NewHook(JanitorKill, Some(t), None, script && Kills(tries) > 0)
    ensures t in s3.conns && s.conns[t].pc.Listing? && s3.conns[t].pc == Joining(s.conns[t].pc.hook)
  {
    InvReachable(s);
    InvStep(s, OnConn(t, List(listing)), s1);
    DropRun(s1, es, t);
    DropEnds(s2, t, script);
    assert Pids(DropTries(s1, es, t)) + [] == Pids(DropTries(s1, es, t));
  }

  // ----- both sweeps on the processes themselves

  /** A listing of processes, one on each line. */
  ghost predicate Shows(cfg: Config, listing: Option<string>, pads: seq<string>, tasks: seq<Janitor.Task>) {
    && |pads| == |tasks| && (forall p, c :: p in pads && c in p ==> c == ' ')
    && (forall t :: t in tasks ==> Janitor.IsListed(t)) && Janitor.IsPath(cfg.corePath)
    && listing == Some(Janitor.Listing(Janitor.TaskRows(pads, tasks)))
    && Janitor.NoneMistaken(tasks, cfg.selfPid, None, cfg.corePath)
  }

  lemma TargetsAreCores(s: Sys, listing: Option<string>, pads: seq<string>, tasks: seq<Janitor.Task>)
    requires Shows(s.cfg, listing, pads, tasks)
    ensures SweepTargets(s, listing) == Janitor.CoresIn(tasks, s.cfg.selfPid, None, s.cfg.corePath)
    ensures SweepTargets(s, None) == []
  {
    Janitor.SweepOfProcesses(pads, tasks, s.cfg.selfPid, None, s.cfg.corePath);
  }

  /**
   * A crash sweep tries exactly the processes that run under the core's path and are not this one: all of them, once
   * each, in the order of the listing.
   */
  lemma CrashSweepTriesAllCores(s: Sys, s1: Sys, s2: Sys, s3: Sys, g: nat, listing: Option<string>, es: seq<Event>,
                                script: bool, pads: seq<string>, tasks: seq<Janitor.Task>)
    requires Reachable(s) && Next(s, OnMon(g, LockSweep(listing))) == Some(s1)
    requires g < |s1.gens| && s1.gens[g].mon.Sweeping?
    requires Exec(s1, es) == Some(s2) && forall e :: e in es ==> !EndsSweep(e, g)
    requires Next(s2, OnMon(g, EndSweep(script))) == Some(s3)
    requires Shows(s.cfg, listing, pads, tasks)
    ensures Pids(Tries(s1, es, g)) == Janitor.CoresIn(tasks, s.cfg.selfPid, None, s.cfg.corePath)
    ensures forall pid :: pid in Pids(Tries(s1, es, g)) <==>
              pid != s.cfg.selfPid && exists t :: t in tasks && t.argv0 == s.cfg.corePath && t.pid == pid
  {
    CrashSweep(s, s1, s2, s3, g, listing, es, script);
    TargetsAreCores(s, listing, pads, tasks);
    forall pid ensures pid in Pids(Tries(s1, es, g)) <==>
              pid != s.cfg.selfPid && exists t :: t in tasks && t.argv0 == s.cfg.corePath && t.pid == pid
    {
      Janitor.CoresAre(tasks, s.cfg.selfPid, None, s.cfg.corePath, pid);
    }
  }

  /** So does the sweep before an exit. */
  lemma TeardownSweepTriesAllCores(s: Sys, s1: Sys, s2: Sys, s3: Sys, t: nat, listing: Option<string>, es: seq<Event>,
                                   script: bool, pads: seq<string>, tasks: seq<Janitor.Task>)
    requires Reachable(s) && t in s.conns && Next(s, OnConn(t, List(listing))) == Some(s1)
    requires Exec(s1, es) == Some(s2) && forall e :: e in es ==> !EndsDrop(e, t)
    requires Next(s2, OnConn(t, EndKilling(script))) == Some(s3)
    requires Shows(s.cfg, listing, pads, tasks)
    ensures Pids(DropTries(s1, es, t)) == Janitor.CoresIn(tasks, s.cfg.selfPid, None, s.cfg.corePath)
    ensures forall pid :: pid in Pids(DropTries(s1, es, t)) <==>
              pid != s.cfg.selfPid && exists k :: k in tasks && k.argv0 == s.cfg.corePath && k.pid == pid
  {
    TeardownSweep(s, s1, s2, s3, t, listing, es, script);
    TargetsAreCores(s, listing, pads, tasks);
    forall pid ensures pid in Pids(DropTries(s1, es, t)) <==>
              pid != s.cfg.selfPid && exists k :: k in tasks && k.argv0 == s.cfg.corePath && k.pid == pid
    {
      Janitor.CoresAre(tasks, s.cfg.selfPid, None, s.cfg.corePath, pid);
    }
  }
}
