/**
 * The supervisor as an interleaving machine: any number of connection threads, one monitor thread for each core
 * ever started, hook threads, the no-owner timer, and an operating system that reuses process ids. Threads step at
 * each acquisition of the state lock and at each `try_wait`, `kill`, wait, load of `kicked`, clock read and line written.
 *
 * Records marked as history are written by the steps and never read by them.
 */
module Supervisor {
  import opened Text
  import Messages
  import Escalation
  import Janitor

  /** Milliseconds after activation. */
  const NO_OWNER_TIMEOUT: nat := 30000

  // ----- the state behind the lock, and the critical sections on it

  datatype CoreProc = Stopped | Running(pid: Messages.I32, port: Messages.U16, stopRequested: bool)

  datatype State = State(owner: Option<nat>, core: CoreProc)

  datatype Lease = Accept | Busy | Takeover

  function LeaseDecision(hasOwner: bool, takeover: bool): Lease {
    match (hasOwner, takeover)
    case (false, _) => Accept
    case (true, true) => Takeover
    case (true, false) => Busy
  }

  function LeaseSection(st: State, id: nat, takeover: bool): State {
    if LeaseDecision(st.owner.Some?, takeover).Busy? then st else st.(owner := Some(id))
  }

  function ReleaseSection(st: State, id: nat): State {
    if st.owner == Some(id) then st.(owner := None) else st
  }

  /** `spawned` is the pid and port of the child that a spawn attempt yields; None if the attempt fails. */
  function StartSection(st: State, spawned: Option<(Messages.I32, Messages.U16)>): State {
    if st.core.Running? || spawned.None? then st
    else st.(core := Running(spawned.value.0, spawned.value.1, false))
  }

  function MarkSection(st: State): State {
    if st.core.Running? then st.(core := st.core.(stopRequested := true)) else st
  }

  predicate StopSeen(st: State, pid: int) {
    st.core.Running? && st.core.pid == pid && st.core.stopRequested
  }

  /** The section of `handle_core_exit`: the new state, and whether the exit counts as expected. */
  function ExitSection(st: State, pid: int): (State, bool) {
    var ours := st.core.Running? && st.core.pid == pid;
    (if ours then st.(core := Stopped) else st, if ours then st.core.stopRequested else true)
  }

  // ----- the operating system

  datatype Kind = Core(gen: nat) | Other

  /** An entry of the process table. It stays until it is reaped, and only then is its pid free again. */
  datatype Proc = Proc(kind: Kind, alive: bool)

  // ----- threads

  datatype Reason = Requested | OwnerDrop | CoreExited | JanitorKill

  /**
   * `thread` and `gen` are history: the connection thread that started it, None for a monitor, and the generation
   * whose start or death it reports, None for a sweep.
   */
  datatype HookRun = HookRun(up: bool, reason: Option<Reason>, thread: Option<nat>, gen: Option<nat>, finished: bool)

  datatype MonPc =
    | Unspawned                                       // the child exists, its monitor thread does not yet
    | Poll
    | Check
    | Decide(stop: bool)
    | SetDeadline                                     // SIGTERM sent, clock not read yet
    | SendKill                                        // deadline found passed, SIGKILL not sent yet
    | Sleep
    | Reaped                                          // `st.core` not updated yet
    | FindOwner
    | PushExit(to: Option<nat>)
    | FireExitHook
    | LockForSweep
    | Sweeping(targets: seq<int>, killed: nat)        // holding the lock
    | Finished

  /** History of one `stop` call that found a core: who called it, and how many `down` hooks it fired. */
  datatype Mark = Mark(stopper: nat, at: nat, downs: nat)

  /** One generation: the child spawned by one `start`, its monitor thread, and the generation's history. */
  datatype Gen = Gen(
    pid: Messages.I32, port: Messages.U16, starter: nat,
    mon: MonPc, watch: Escalation.Watch,
    marks: seq<Mark>,                                 // history
    sent: seq<Escalation.Sent>,                       // history: signals sent by the monitor
    struck: seq<Option<Kind>>,                        // history: who held the pid when each was sent
    pushes: nat, exitHooks: nat,                      // history
    swept: seq<Kind>                                  // history: who the crash sweep killed
  )

  datatype Reply =
    | Started(pid: Messages.I32, port: Messages.U16) | StartFailed
    | Report(core: CoreProc)
    | StopDone(wasRunning: bool)
    | BadRequest | DuplicateHello

  function CoreStateOf(core: CoreProc): (Messages.CoreState, Option<Messages.I32>, Option<Messages.U16>) {
    match core
    case Stopped => (Messages.Stopped, None, None)
    case Running(pid, port, _) => (Messages.Running, Some(pid), Some(port))
  }

  /** The event that carries a reply; `msg` is the text of an error. */
  function ReplyEvent(r: Reply, msg: string): (ev: Messages.Event)
    ensures !ev.Unknown? && !ev.Hello?
  {
    match r
    case Started(pid, port) => Messages.CoreStarted(pid, port)
    case StartFailed => Messages.Error("spawn_failed", msg)
    case Report(core) =>
      var (state, pid, port) := CoreStateOf(core);
      Messages.Event.Status(state, pid, port)
    case StopDone(wasRunning) => Messages.CoreStopped(if wasRunning then "requested" else "already_stopped")
    case BadRequest => Messages.Error("bad_request", msg)
    case DuplicateHello => Messages.Error("bad_proto", "duplicate hello")
  }

  function GreetingEvent(cfg: Config, core: CoreProc): (ev: Messages.Event)
    ensures ev.Hello?
  {
    var (state, _, port) := CoreStateOf(core);
    Messages.Event.Hello(Messages.PROTO_VERSION, cfg.version, state, port)
  }

  /**
   * The reply that a command is due; `saw` is the core as its section left it, for a start, or else found it.
   * None is a line that does not decode.
   */
  function Due(cmd: Option<Messages.Cmd>, saw: CoreProc): Reply {
    match cmd
    case None => BadRequest
    case Some(Hello(_, _)) => DuplicateHello
    case Some(Start) => if saw.Running? then Started(saw.pid, saw.port) else StartFailed
    case Some(Status) => Report(saw)
    case Some(Stop) => StopDone(saw.Running?)
  }

  datatype ConnPc =
    | Leasing(takeover: bool)
    | Declining
    | Displacing(loser: nat)                          // the loser's flag is up, it is not told yet
    | Unblocking(loser: nat)                          // told, its socket not shut down yet
    | Greeting
    | Saluting(core: CoreProc)                        // snapshot taken, greeting not written yet
    | Serving                                         // in the command loop, reading
    | Starting
    | SpawnedCore(g: nat)
    | FiringUp(g: nat)
    | Reporting
    | Replying(reply: Reply)
    | Stopping(reason: Reason)
    | Waiting(reason: Reason, g: nat, k: nat)         // marked generation g with mark k, waiting for Stopped
    | FiringDown(reason: Reason, g: nat, k: nat)
    | Leaving                                         // loop ended, `kicked` not loaded yet
    | Releasing                                       // `kicked` was false
    | Listing(hook: Option<nat>)
    | Killing(hook: Option<nat>, targets: seq<int>, killed: nat)
    | Joining(hook: Option<nat>)
    | Gone(hook: Option<nat>)

  datatype Conn = Conn(
    pc: ConnPc, kicked: bool,
    shut: bool,                                       // the socket is shut down, what is written to it is lost
    lines: seq<Messages.Event>,                          // history: what was written to it
    swept: seq<Kind>                                  // history
  )

  datatype Timer = Armed | Firing | Spent

  datatype Exit = NotExited | ByOwner(t: nat) | ByTimer

  datatype Config = Config(selfPid: int, corePath: string, version: string)

  datatype Sys = Sys(
    cfg: Config, now: nat,
    st: State, holder: Option<nat>,                   // the generation whose monitor holds the lock across its sweep
    procs: map<int, Proc>,
    gens: seq<Gen>,
    conns: map<nat, Conn>, nextId: nat,
    hooks: seq<HookRun>,
    timer: Timer, exit: Exit
  )

  ghost predicate Init(s: Sys) {
    && s.now == 0 && s.st == State(None, Stopped) && s.holder == None
    && (forall p :: p in s.procs ==> s.procs[p].kind == Other)
    && s.gens == [] && s.conns == map[] && s.nextId == 1 && s.hooks == []
    && s.timer == Armed && s.exit == NotExited
  }

  // ----- steps

  datatype ConnAct =
    | Acquire | Decline | Displace(wrote: bool) | Unblock | Snapshot | Greet
    | Read(cmd: Option<Messages.Cmd>) | Disconnect
    | Start(spawned: Option<(Messages.I32, Messages.U16)>) | SpawnMonitor | FireUp(script: bool)
    | ReportState | Reply(msg: string)
    | Stop | Observe | FireDown(script: bool)
    | LoadKicked | Release
    | List(listing: Option<string>) | KillNext(ok: bool) | EndKilling(script: bool) | JoinAndExit

  datatype MonAct =
    | TryWait | CheckStop | Act | ReadClock | Kill | WaitTimeout
    | HandleExit | LookUpOwner | Push(code: Option<Messages.I32>, signal: Option<Messages.I32>) | FireHook(script: bool)
    | LockSweep(listing: Option<string>) | SweepNext(ok: bool) | EndSweep(script: bool)

  datatype Event =
    | Arrive(takeover: bool)
    | OnConn(t: nat, ca: ConnAct)
    | OnMon(g: nat, ma: MonAct)
    | ProcessStarts(pid: int) | ProcessExits(pid: int) | ProcessReaped(pid: int)
    | HookEnds(h: nat)
    | Tick(d: nat)
    | TimerChecks | TimerExits

  function SetPc(s: Sys, t: nat, pc: ConnPc): Sys
    requires t in s.conns
  {
    s.(conns := s.conns[t := s.conns[t].(pc := pc)])
  }

  function SetGen(s: Sys, g: nat, G: Gen): Sys
    requires g < |s.gens|
  {
    s.(gens := s.gens[g := G])
  }

  function SetMon(s: Sys, g: nat, pc: MonPc): Sys
    requires g < |s.gens|
  {
    SetGen(s, g, s.gens[g].(mon := pc))
  }

  function RunHook(s: Sys, up: bool, reason: Option<Reason>, thread: Option<nat>, gen: Option<nat>, script: bool): Sys {
    if script then s.(hooks := s.hooks + [HookRun(up, reason, thread, gen, false)]) else s
  }

  /** One line is written to a connection. */
  function WriteTo(conns: map<nat, Conn>, t: nat, ev: Messages.Event): (r: map<nat, Conn>)
    ensures r.Keys == conns.Keys
  {
    if t in conns && !conns[t].shut then conns[t := conns[t].(lines := conns[t].lines + [ev])] else conns
  }

  function ShutDown(conns: map<nat, Conn>, t: nat): (r: map<nat, Conn>)
    ensures r.Keys == conns.Keys
  {
    if t in conns then conns[t := conns[t].(shut := true)] else conns
  }

  function KindAt(s: Sys, pid: int): Option<Kind> {
    if pid in s.procs then Some(s.procs[pid].kind) else None
  }

  function SweepTargets(s: Sys, listing: Option<string>): seq<int> {
    if listing.None? then [] else Janitor.Targets(listing.value, s.cfg.selfPid, None, s.cfg.corePath)
  }

  // ----- steps of a connection thread

  function RaiseFlag(conns: map<nat, Conn>, t: nat): map<nat, Conn> {
    if t in conns then conns[t := conns[t].(kicked := true)] else conns
  }

  function Leased(s: Sys, t: nat, takeover: bool): Sys
    requires t in s.conns
  {
    var s1 := s.(st := LeaseSection(s.st, t, takeover));
    match LeaseDecision(s.st.owner.Some?, takeover)
    case Busy => SetPc(s1, t, Declining)
    case Takeover => SetPc(s1.(conns := RaiseFlag(s.conns, s.st.owner.value)), t, Displacing(s.st.owner.value))
    case Accept => SetPc(s1, t, Greeting)
  }

  function CommandPc(cmd: Option<Messages.Cmd>): ConnPc {
    match cmd
    case None => Replying(BadRequest)
    case Some(Hello(_, _)) => Replying(DuplicateHello)
    case Some(Start) => Starting
    case Some(Status) => Reporting
    case Some(Stop) => Stopping(Requested)
  }

  function StartedCore(s: Sys, t: nat, spawned: Option<(Messages.I32, Messages.U16)>): Sys
    requires t in s.conns
  {
    match s.st.core
    case Running(pid, port, _) => SetPc(s, t, Replying(Started(pid, port)))
    case Stopped =>
      match spawned
      case None => SetPc(s, t, Replying(StartFailed))
      case Some((pid, port)) =>
        SetPc(s.(st := StartSection(s.st, spawned),
                 procs := s.procs[pid := Proc(Core(|s.gens|), true)],
                 gens := s.gens + [Gen(pid, port, t, Unspawned, Escalation.FRESH, [], [], [], 0, 0, [])]),
              t, SpawnedCore(|s.gens|))
  }

  function Marked(s: Sys, t: nat, reason: Reason): Sys
    requires t in s.conns
  {
    if s.st.core.Stopped? || |s.gens| == 0 then
      SetPc(s, t, if reason.OwnerDrop? then Listing(None) else Replying(StopDone(false)))
    else
      var g := |s.gens| - 1;
      var G := s.gens[g];
      SetPc(SetGen(s.(st := MarkSection(s.st)), g, G.(marks := G.marks + [Mark(t, s.now, 0)])),
            t, Waiting(reason, g, |G.marks|))
  }

  function FiredDown(s: Sys, t: nat, reason: Reason, g: nat, k: nat, script: bool): Sys
    requires t in s.conns && g < |s.gens| && k < |s.gens[g].marks|
  {
    var G := s.gens[g];
    var m := G.marks[k];
    var hook := if script then Some(|s.hooks|) else None;
    SetPc(SetGen(RunHook(s, false, Some(reason), Some(t), Some(g), script), g,
                 G.(marks := G.marks[k := m.(downs := m.downs + 1)])),
          t, if reason.OwnerDrop? then Listing(hook) else Replying(StopDone(true)))
  }

  function DropKilled(s: Sys, t: nat, hook: Option<nat>, targets: seq<int>, killed: nat, ok: bool): Option<Sys>
    requires t in s.conns && targets != []
  {
    var pid := targets[0];
    if !ok then Some(SetPc(s, t, Killing(hook, targets[1..], killed)))
    else if pid !in s.procs then None
    else
      var c := s.conns[t];
      Some(s.(conns := s.conns[t := c.(pc := Killing(hook, targets[1..], killed + 1),
                                       swept := c.swept + [s.procs[pid].kind])]))
  }

  function ConnNext(s: Sys, t: nat, a: ConnAct): Option<Sys>
    requires t in s.conns
  {
    var pc := s.conns[t].pc;
    var free := s.holder == None;
    match a
    case Acquire => if pc.Leasing? && free then Some(Leased(s, t, pc.takeover)) else None
    case Decline =>
      if pc.Declining? then Some(SetPc(s.(conns := WriteTo(s.conns, t, Messages.Busy(true))), t, Gone(None))) else None
    case Displace(wrote) =>
      if pc.Displacing?
      then Some(SetPc(s.(conns := if wrote then WriteTo(s.conns, pc.loser, Messages.Kicked) else s.conns),
                      t, Unblocking(pc.loser)))
      else None
    case Unblock =>
      if pc.Unblocking? then Some(SetPc(s.(conns := ShutDown(s.conns, pc.loser)), t, Greeting)) else None
    case Snapshot => if pc.Greeting? && free then Some(SetPc(s, t, Saluting(s.st.core))) else None
    case Greet =>
      if pc.Saluting?
      then Some(SetPc(s.(conns := WriteTo(s.conns, t, GreetingEvent(s.cfg, pc.core))), t, Serving)) else None
    case Read(cmd) => if pc.Serving? then Some(SetPc(s, t, CommandPc(cmd))) else None
    case Disconnect => if pc.Serving? then Some(SetPc(s, t, Leaving)) else None
    case Start(spawned) =>
      if pc.Starting? && free && (spawned.Some? ==> spawned.value.0 !in s.procs)
      then Some(StartedCore(s, t, spawned)) else None
    case SpawnMonitor =>
      if pc.SpawnedCore? && pc.g < |s.gens| then Some(SetPc(SetMon(s, pc.g, Poll), t, FiringUp(pc.g))) else None
    case FireUp(script) =>
      if pc.FiringUp? && pc.g < |s.gens|
      then Some(SetPc(RunHook(s, true, None, Some(t), Some(pc.g), script), t,
                      Replying(Started(s.gens[pc.g].pid, s.gens[pc.g].port))))
      else None
    case ReportState => if pc.Reporting? && free then Some(SetPc(s, t, Replying(Report(s.st.core)))) else None
    case Reply(msg) =>
      if pc.Replying?
      then Some(SetPc(s.(conns := WriteTo(s.conns, t, ReplyEvent(pc.reply, msg))), t, Serving)) else None
    case Stop => if pc.Stopping? && free then Some(Marked(s, t, pc.reason)) else None
    case Observe =>
      if pc.Waiting? && free
      then Some(if s.st.core.Stopped? then SetPc(s, t, FiringDown(pc.reason, pc.g, pc.k)) else s) else None
    case FireDown(script) =>
      if pc.FiringDown? && pc.g < |s.gens| && pc.k < |s.gens[pc.g].marks|
      then Some(FiredDown(s, t, pc.reason, pc.g, pc.k, script)) else None
    case LoadKicked =>
      if pc.Leaving? then Some(SetPc(s, t, if s.conns[t].kicked then Gone(None) else Releasing)) else None
    case Release =>
      if pc.Releasing? && free
      then Some(SetPc(s.(st := ReleaseSection(s.st, t)), t, Stopping(OwnerDrop))) else None
    case List(listing) => if pc.Listing? then Some(SetPc(s, t, Killing(pc.hook, SweepTargets(s, listing), 0))) else None
    case KillNext(ok) =>
      if pc.Killing? && pc.targets != [] then DropKilled(s, t, pc.hook, pc.targets, pc.killed, ok) else None
    case EndKilling(script) =>
      if pc.Killing? && pc.targets == []
      then Some(SetPc(RunHook(s, false, Some(JanitorKill), Some(t), None, script && pc.killed > 0), t, Joining(pc.hook)))
      else None
    case JoinAndExit =>
      if pc.Joining? && (pc.hook.Some? ==> pc.hook.value < |s.hooks| && s.hooks[pc.hook.value].finished)
      then Some(SetPc(s, t, Gone(pc.hook)).(exit := ByOwner(t))) else None
  }

  // ----- steps of a monitor thread

  /** `try_wait`: reaps the child with this pid if it has exited; without such a child it errs, and the loop ends. */
  function Waited(s: Sys, g: nat): Sys
    requires g < |s.gens|
  {
    var pid := s.gens[g].pid;
    if pid in s.procs && s.procs[pid].kind.Core? then
      if s.procs[pid].alive then SetMon(s, g, Check)
      else SetMon(s, g, Reaped).(procs := s.procs - {pid})
    else SetMon(s, g, Reaped)
  }

  function Signalled(s: Sys, g: nat, sig: Escalation.Signal, next: MonPc): Sys
    requires g < |s.gens|
  {
    var G := s.gens[g];
    SetGen(s, g, G.(mon := next, sent := G.sent + [Escalation.Sent(sig, s.now)],
                    struck := G.struck + [KindAt(s, G.pid)]))
  }

  function Acted(s: Sys, g: nat, stop: bool): Sys
    requires g < |s.gens|
  {
    match Escalation.Choose(s.gens[g].watch, s.now)
    case Some(Term) => if stop then Signalled(s, g, Escalation.Term, SetDeadline) else SetMon(s, g, Sleep)
    case Some(Kill) => SetMon(s, g, if stop then SendKill else Sleep)
    case None => SetMon(s, g, Sleep)
  }

  function After(s: Sys, g: nat, sig: Escalation.Signal): Sys
    requires g < |s.gens|
  {
    SetGen(s, g, s.gens[g].(mon := Sleep, watch := Escalation.After(s.gens[g].watch, sig, s.now)))
  }

  function ExitHandled(s: Sys, g: nat): Sys
    requires g < |s.gens|
  {
    var (st, expected) := ExitSection(s.st, s.gens[g].pid);
    SetMon(s.(st := st), g, if expected then Finished else FindOwner)
  }

  function SweepKilled(s: Sys, g: nat, targets: seq<int>, killed: nat, ok: bool): Option<Sys>
    requires g < |s.gens| && targets != []
  {
    var pid := targets[0];
    if !ok then Some(SetMon(s, g, Sweeping(targets[1..], killed)))
    else if pid !in s.procs then None
    else
      Some(SetGen(s, g, s.gens[g].(mon := Sweeping(targets[1..], killed + 1),
                                   swept := s.gens[g].swept + [s.procs[pid].kind])))
  }

  function MonNext(s: Sys, g: nat, a: MonAct): Option<Sys>
    requires g < |s.gens|
  {
    var G := s.gens[g];
    var pc := G.mon;
    var free := s.holder == None;
    match a
    case TryWait => if pc.Poll? then Some(Waited(s, g)) else None
    case CheckStop => if pc.Check? && free then Some(SetMon(s, g, Decide(StopSeen(s.st, G.pid)))) else None
    case Act => if pc.Decide? then Some(Acted(s, g, pc.stop)) else None
    case ReadClock => if pc.SetDeadline? then Some(After(s, g, Escalation.Term)) else None
    case Kill => if pc.SendKill? then Some(After(Signalled(s, g, Escalation.Kill, Sleep), g, Escalation.Kill)) else None
    case WaitTimeout => if pc.Sleep? && free then Some(SetMon(s, g, Poll)) else None
    case HandleExit => if pc.Reaped? && free then Some(ExitHandled(s, g)) else None
    case LookUpOwner => if pc.FindOwner? && free then Some(SetMon(s, g, PushExit(s.st.owner))) else None
    case Push(code, signal) =>
      if pc.PushExit?
      then Some(SetGen(if pc.to.None? then s
                       else s.(conns := WriteTo(s.conns, pc.to.value, Messages.CoreExited(code, signal))),
                       g, G.(mon := FireExitHook, pushes := G.pushes + 1)))
      else None
    case FireHook(script) =>
      if pc.FireExitHook?
      then Some(SetGen(RunHook(s, false, Some(CoreExited), None, Some(g), script), g,
                       G.(mon := LockForSweep, exitHooks := G.exitHooks + 1)))
      else None
    case LockSweep(listing) =>
      if pc.LockForSweep? && free
      then Some(if s.st.core.Stopped? then SetMon(s, g, Sweeping(SweepTargets(s, listing), 0)).(holder := Some(g))
                else SetMon(s, g, Finished))
      else None
    case SweepNext(ok) =>
      if pc.Sweeping? && pc.targets != [] then SweepKilled(s, g, pc.targets, pc.killed, ok) else None
    case EndSweep(script) =>
      if pc.Sweeping? && pc.targets == []
      then Some(SetMon(RunHook(s, false, Some(JanitorKill), None, None, script && pc.killed > 0), g, Finished)
                .(holder := None))
      else None
  }

  // ----- one step of the whole system; a process that has exited takes none

  function Next(s: Sys, e: Event): Option<Sys> {
    if s.exit != NotExited then None
    else
      match e
      case Arrive(takeover) =>
        Some(s.(conns := s.conns[s.nextId := Conn(Leasing(takeover), false, false, [], [])], nextId := s.nextId + 1))
      case OnConn(t, a) => if t in s.conns then ConnNext(s, t, a) else None
      case OnMon(g, a) => if g < |s.gens| then MonNext(s, g, a) else None
      case ProcessStarts(pid) =>
        if pid in s.procs then None else Some(s.(procs := s.procs[pid := Proc(Other, true)]))
      case ProcessExits(pid) =>
        if pid in s.procs then Some(s.(procs := s.procs[pid := s.procs[pid].(alive := false)])) else None
      case ProcessReaped(pid) =>
        if pid in s.procs && s.procs[pid] == Proc(Other, false) then Some(s.(procs := s.procs - {pid})) else None
      case HookEnds(h) =>
        if h < |s.hooks| then Some(s.(hooks := s.hooks[h := s.hooks[h].(finished := true)])) else None
      case Tick(d) => Some(s.(now := s.now + d))
      case TimerChecks =>
        if s.timer == Armed && s.now >= NO_OWNER_TIMEOUT && s.holder == None
        then Some(s.(timer := if s.st.owner.Some? then Spent else Firing)) else None
      case TimerExits => if s.timer == Firing then Some(s.(exit := ByTimer)) else None
  }

  /** The state after a run, if the run is possible. */
  function Exec(s: Sys, es: seq<Event>): Option<Sys>
    decreases |es|
  {
    if es == [] then Some(s)
    else
      match Next(s, es[0])
      case None => None
      case Some(s') => Exec(s', es[1..])
  }

  lemma {:induction false} ExecThen(s: Sys, es: seq<Event>, fs: seq<Event>)
    requires Exec(s, es).Some?
    ensures Exec(s, es + fs) == Exec(Exec(s, es).value, fs)
    decreases |es|
  {
    if es == [] {
      assert es + fs == fs;
    } else {
      assert (es + fs)[1..] == es[1..] + fs;
      ExecThen(Next(s, es[0]).value, es[1..], fs);
    }
  }

  lemma ExecOne(s: Sys, e: Event)
    ensures Exec(s, [e]) == Next(s, e)
  {
    assert [e][1..] == [];
  }
}
