# EasyTier supervisor, control protocol and client: a verified model

EasyTier's app does not run its network core itself. A root **supervisor** owns the core process: it spawns it, stops
it with a SIGTERM-to-SIGKILL escalation, reaps it, sweeps orphans and runs `up`/`down` hooks. The **bridge** is the
app's side: a driver task keeps one control connection to the supervisor, with one JSON object a line in either
direction, and reconnects with back-off. The **app** decides about automatic restarts.

The project models these three and the text formats between them, and proves what their comments promise. Where a
promise is false in general, the condition under which it holds is proved and a run that breaks it is constructed.

## How the model is built

| module | what it is |
|---|---|
| `Supervisor` | The interleaving machine: connection threads, one monitor per core generation, hook threads, the no-owner timer, and a process table that reuses a pid once its process is reaped. A step is what a thread does between two of: acquiring the state lock, `try_wait`, `kill`, waiting, loading `kicked`, reading the clock, writing a line. |
| `SupervisorInvariant` | The inductive invariant: generations against process table and lock, the lease, and who owes which hook. |
| `SupervisorTheorems` | Safety over all runs. |
| `SupervisorSchedules` | What some schedule can still bring about from a given state: exact conditions on the state. |
| `SupervisorLines` | What is written to each connection, and when its first line is its greeting. |
| `SupervisorHooks` | Which hooks run, how often and by whom. |
| `SupervisorSweeps` | Whole sweeps, after a crash and before an exit, on the processes themselves. |
| `SupervisorContents` | What the lines on a connection say, and that a displaced one is cut off. |
| `SupervisorOvertakes` | What can still be written to a connection ahead of its greeting. |
| `SupervisorTiming` | The turns of a monitor in a run, and how soon a stopped core is reaped in it. |
| `SupervisorReplies` | The reply of each command is decided by its one critical section. |
| `SupervisorSession` | The client's session composed with the supervisor's machine itself. |
| `SupervisorRefinement` | Every run is a run of a small atomic machine. |
| `SupervisorWitnesses` | Runs that break the broader claims. |
| `SharedState` | The state behind the lock as an object, kept in step with a reachable state of the machine; its methods are the critical sections. |
| `Escalation`, `Hooks`, `Janitor` | The loops of the monitor, of a hook thread and of the orphan sweep. |
| `Messages`, `Framing`, `Utf8`, `Json`, `Proto`, `CommandLoop` | From bytes to commands and back. |
| `Wire` | The lines character by character, and what a reader tolerates. |
| `Client`, `ClientTask` | The driver: a machine over its inputs, and an object kept in step with a reachable state of it. |
| `Session` | The client's slot and the server's loop, composed over two queues of text lines. |
| `Quoting` | The installer's two quoting layers, with readers for both. |
| `RestartPolicy`, `AppModel` | The restart policy at the grain of awaits, and the object whose methods, cut at their awaits, are kept in step with it. |

A run is `Exec(s, es)`: a list of events applied to a state, undefined as soon as one of them is not possible there.
History fields (who was signalled, which hooks fired, what was delivered) are written by steps and never read by them.
The members named in the table below hold for every run, every schedule and every input.

## Assumptions

- `try_wait` does not err on an un-reaped child (that it is always called on one is proved), and spawning a monitor
  or hook thread succeeds.
- A pid is reused only after its process has been reaped.
- The clock is monotonic and counts milliseconds; the timing bounds say which gaps they assume.
- The client reads whole lines, and several calls of `request_takeover` before one is consumed count as one.
- `ps` prints a process on one line and only positive pids; `kill(2)` on others reaches process groups, which the model does not have.
- The configured core path does not begin with white space or end in a carriage return.
- Whether a peer may connect, what `ps` prints otherwise, whether a spawn, a kill or a write succeeds, and whether a hook script
  is installed are inputs, and every value of them is covered.

## Where the code and its comments part

- `start` says a core process exists if and only if `st.core` is Running (supervisor/src/core_proc.rs:103-105). Between
  the reaping and the monitor's next section it is Running without one: `RunningWithoutProcess`. The exact statement is
  `SingleCore`; the direction that the crash sweep relies on holds.
- The sweep before the exit is called safe because the core was just reaped and no owner remains
  (supervisor/src/server.rs:270-271). A connection accepted after the slot is emptied can have started a core, which the
  sweep kills (`TeardownSweepKillsFreshCore`) or the exit leaves behind (`ExitLeavesCore`). When it cannot happen is
  `CleanExit`; what an exit guarantees regardless is `AnyExit`.
- The no-owner timer is called harmless once an owner exists (supervisor/src/main.rs:137-138). It looks for an owner and
  exits in two steps: `TimerLeavesCore`.
- A displaced owner "must not tear the core down" (supervisor/src/server.rs:50-51). A kicked thread still can if and only
  if it is past the loading of its flag: `WhoCanTearDown`, with the run `ReplacedTooLate`.
- The exit is to wait for the `down` hook so as not to cut a running script short (supervisor/src/server.rs:274-275). It
  waits for the one fired for the owner's own departure and for no other: `ExitWaitsForItsHook`. The `down` hook of an
  earlier `stop` command, of a crash and of the sweep before the exit can be cut short: `ExitCutsRequestedDown`,
  `ExitCutsCrashDown`, `ExitCutsSweepDown`.
- "A given core death fires exactly one `down`" (supervisor/src/core_proc.rs:238-241) holds if and only if at most one
  `stop` marked the core: `DownsOfOneDeath`. Two can, across a takeover: `TwoStopsOneCore`.
- The janitor claims to match argv[0] exactly (supervisor/src/janitor.rs:81-82). It matches the joined command line, which
  decides argv[0] if and only if neither argv[0] nor the path is the other with a space and more: `MatcherIsExact`.
  `StrangerCanMatch` is a process that is none of ours, and `WhoIsMistaken` says which ones are taken for a core.
- A `start` that meets a stop in progress answers with the dying core: `StartMeetsDyingCore`, `StartReturnsDyingCore`.
- A client takes any first line but a greeting or a busy for a failed handshake (`HandshakeOf`), yet a crash or a notice
  of being displaced can be written to a new owner ahead of its greeting: `PushBeforeGreeting`, `KickBeforeGreeting`.
  `GreetingComesFirst` says exactly in which runs that happened, `PushMayOvertake` and `NoticeMayOvertake` from which
  states it still can.
- Joining a hook is said not to block longer than its timeout (supervisor/src/hooks.rs:106-107), which is so only as
  `JoinKeepsTimeout` says; `JoinCanExceedTimeout` is an input that exceeds it. `JoinIsBounded` is the bound that holds.
- DESIGN.md:115 has hooks run by `tokio::process`; the code polls from a thread, and the model follows the code.
- The first back-off is not capped (bridge/src/supervisor_client.rs:285, 325-331): `BackoffsDouble`, `FirstBackoffUncapped`.

## Model

| member | source | states |
|---|---|---|
| `SupervisorRefinement.StepRefines` | supervisor/src/core_proc.rs:106-132 | every step of any thread, the system or the clock is one step of an atomic machine (owner; core down, up or dying; cores created), with the outcome the acting thread sees: a start creates generation n exactly when none is up and else returns the current one's pid and port, a stop marks it, an exit is a crash exactly if it is unmarked |
| `SupervisorRefinement.RunRefines` | supervisor/src/server.rs:186-279 | every run of the supervisor is, state by state, a run of the atomic machine |
| `SupervisorRefinement.CoresBalance` | supervisor/src/core_proc.rs:116-125 | over any run, cores created equal cores ended by crash or stop, plus one if one is up |
| `SupervisorRefinement.CoresAreConserved` | supervisor/src/core_proc.rs:213-226 | the same balance for every run of the atomic machine |
| `SupervisorInvariant.InvStep` | supervisor/src/core_proc.rs:148-316 | every step keeps the whole invariant: generations, process table, lock, lease, owed hooks |
| `SupervisorInvariant.InvReachable` | supervisor/src/core_proc.rs:4-11 | the invariant holds after every run from the start |
| `SupervisorTheorems.SingleCore` | supervisor/src/core_proc.rs:103-125 | at most one core is un-reaped; Stopped under the lock means none; one exists exactly while Running and not yet reaped |
| `SupervisorTheorems.PidIsGeneration` | supervisor/src/core_proc.rs:182-185 | a monitor that has not handled its child's exit belongs to the generation in `st.core`, so comparing pids compares generations and reads that generation's own stop flag, despite pid reuse |
| `SupervisorTheorems.TryWaitFindsChild` | supervisor/src/core_proc.rs:159-177 | a polling monitor's pid is held by its own child, so the error arm of `try_wait` is never taken |
| `SupervisorTheorems.StartMeetsDyingCore` | supervisor/src/core_proc.rs:106-110 | a start answers with a core that was asked to stop if and only if the core that its section meets is marked |
| `SupervisorTheorems.SignalsAreSafe` | supervisor/src/core_proc.rs:179-199 | every signal ever sent hit a pid then held by the monitor's own un-reaped child; signals are a prefix of SIGTERM, SIGKILL at least 5 s apart, none before the first stop |
| `SupervisorTheorems.ExclusiveFate` | supervisor/src/core_proc.rs:213-250 | a generation is either marked by a stop and has no push and no exit hook, or unmarked and gets exactly one of each; every marking stop fires its own `down` once, and only after the reaping |
| `SupervisorTheorems.DownsOfOneDeath` | supervisor/src/core_proc.rs:238-250 | once nothing is pending, a death has fired one `down` for each `stop` that marked it, or one if none did; exactly one if and only if at most one `stop` marked it |
| `SupervisorTheorems.CountedHooksRan` | supervisor/src/core_proc.rs:242-247 | each `down` counted in a generation's history is a hook that ran with its reason, fired by the stop call that marked or by the monitor |
| `SupervisorHooks.UpHookRunsOnce` | supervisor/src/core_proc.rs:127-131 | once the starter of a generation is past its hook, exactly one `up` hook has run for it if the script was there and none if not; before that none has |
| `SupervisorHooks.WhoRunsHooks` | supervisor/src/hooks.rs:128-159 | an `up` hook is run by the thread that made its generation and has no reason; a `down` hook has one, reports a generation unless it is of a sweep, and is run by a monitor for a crash and by the stopping thread for a stop |
| `SupervisorTheorems.OneUnkickedOwner` | supervisor/src/server.rs:186-221 | in its command loop a thread is un-kicked if and only if it owns the slot, so at most one is |
| `SupervisorTheorems.OwnerChanges` | supervisor/src/server.rs:263-268 | the slot changes hands only by a hello of its new owner, and is emptied only by the thread that holds it: no teardown clears another's slot |
| `SupervisorTheorems.OwnerLosesSlot` | supervisor/src/server.rs:198-268 | in every continuation an owner keeps the slot, is kicked, or has given it up on its way to the exit |
| `SupervisorTheorems.HellosKeepCore` | supervisor/src/server.rs:186-251 | any run of hellos, takeovers among them, from arrival to greeting, leaves generation, pid, port, history, processes and hooks as they are |
| `SupervisorTheorems.DisplacedNeverTearsDown` | supervisor/src/server.rs:256-260 | a thread kicked before it loads its flag never stops the core as owner and never exits, in any continuation |
| `SupervisorSchedules.WhoCanTearDown` | supervisor/src/server.rs:256-279 | a kicked thread that has not returned can, by some continuation, tear the core down if and only if it is past the loading of its flag |
| `SupervisorSchedules.LockIsFreed` | supervisor/src/core_proc.rs:257-262 | the crash sweep that holds the lock can always be finished, and changes nothing but its monitor's place |
| `SupervisorTheorems.CrashSweepSparesCores` | supervisor/src/core_proc.rs:252-262 | no crash sweep ever killed a core of this supervisor, whatever listing it worked from |
| `SupervisorTheorems.CrashSweep` | supervisor/src/core_proc.rs:252-262 | a whole crash sweep, from lock to unlock and whatever else happens: it starts only on Stopped, which lasts; it tries every matching line of its listing once, in order; each kill hits a foreign process; its hook fires exactly if it killed something |
| `SupervisorSweeps.CrashSweepTriesAllCores` | supervisor/src/janitor.rs:39-70 | on a listing of processes with none mistaken, a crash sweep tries exactly those with the path as argv[0], other than this one: all of them, once each, in order |
| `SupervisorSweeps.TeardownSweep` | supervisor/src/server.rs:270-273 | a whole sweep before an exit tries every matching line of its listing once, in order, and runs its hook exactly if it killed something |
| `SupervisorSweeps.TeardownSweepTriesAllCores` | supervisor/src/server.rs:270-273 | on a listing of processes with none mistaken it tries all cores, as the crash sweep does |
| `SupervisorTheorems.CleanExit` | supervisor/src/server.rs:262-279 | if no other thread is in or enters its command loop, then at the exit every generation is reaped, the `down` hook of this departure has finished, and the sweep killed no core |
| `SupervisorTheorems.CleanExitAfterRelease` | supervisor/src/server.rs:263-280 | the same from the moment the owner's slot is released |
| `SupervisorTheorems.AnyExit` | supervisor/src/server.rs:269-279 | whatever other threads do, at an exit the `down` hook of this departure has finished and every generation the thread stopped is reaped; a core is left behind if and only if one is up then |
| `SupervisorTheorems.ExitWaitsForItsHook` | supervisor/src/server.rs:274-279 | a thread through with its sweep can exit if and only if the `down` hook of its own departure, if any, has finished; every other unfinished hook is left unfinished |
| `SupervisorTheorems.TeardownSweepHits` | supervisor/src/server.rs:270-272 | a kill of the sweep before the exit hits a core if and only if a core is up and is the target |
| `SupervisorTheorems.TimerExit` | supervisor/src/main.rs:139-147 | the timer exits no earlier than 30 s after the start, where the clock is 0, and leaves a core if and only if one is up then |
| `SupervisorTheorems.TimerSparesOwners` | supervisor/src/main.rs:139-147 | the timer ends the process only in a run in which it looked for an owner and found none, and whenever it looks in vain it can end it next |
| `SupervisorTheorems.TimerLooks` | supervisor/src/main.rs:139-142 | it looks once, as soon as 30 s have passed and the lock is free |
| `SupervisorLines.LinesGrow` | supervisor/src/server.rs:87-94 | each step appends to a connection exactly its own line, or none; nothing after the socket is shut down |
| `SupervisorContents.GreetingTellsSnapshot` | supervisor/src/server.rs:237-251 | from a thread's snapshot to its greeting, whatever happens between: the greeting names protocol 1, the configured version, and the core as the snapshot saw it, running with its port or stopped with none |
| `SupervisorContents.ReplyIsWritten` | supervisor/src/server.rs:333-368 | a reply is one line, in the protocol's words: pid and port, the state, `requested` or `already_stopped`, or the error's code |
| `SupervisorContents.LoserIsCutOff` | supervisor/src/server.rs:223-235 | a thread that takes over has shut down the loser's socket by the time it goes on to its own greeting, and it stays shut |
| `SupervisorLines.GreetingComesFirst` | supervisor/src/server.rs:223-251 | a connection that came to its loop with an open socket has been greeted; its first line is the greeting, and the client's handshake succeeds on it, if and only if nothing was written to it while it waited to be greeted |
| `SupervisorOvertakes.PushMayOvertake` | supervisor/src/core_proc.rs:234-239 | from a state in which a connection waits to be greeted, some continuation pushes a crash to it first if and only if a push is under way to it, or it is the owner and a core is up that nobody asked to stop, or it is the owner and another thread can still start one |
| `SupervisorOvertakes.NoticeMayOvertake` | supervisor/src/server.rs:223-235 | some continuation tells it first that it is displaced if and only if it is still the owner, or a thread that took over has not told it yet |
| `SupervisorReplies.CommandGetsItsReply` | supervisor/src/server.rs:333-368 | from reading a command to its reply a thread works on that command only, and the reply is the one due on what its single critical section saw, under every interleaving |
| `SupervisorSession.NeverBlocks` | supervisor/src/server.rs:316-370 | every step of the supervisor is, on an open connection, a move that the session's server can make, or none |
| `SupervisorSession.JointRun` | bridge/src/supervisor_client.rs:388-431 | every run of the supervisor together with a client's session is, on the connection, a run of `Session` |
| `SupervisorSession.SupervisorCorrelates` | bridge/src/supervisor_client.rs:388-494 | reply correlation against the supervisor itself: from a greeting on, under all interleavings, every line decodes, every reply completes the request whose command caused it, and pushes complete nothing |
| `SupervisorWitnesses.RunningWithoutProcess` | supervisor/src/core_proc.rs:103-105 | a reachable state with `st.core` Running and no core process |
| `SupervisorWitnesses.StartReturnsDyingCore` | supervisor/src/core_proc.rs:106-110 | a start answered with the pid and port of the core being stopped |
| `SupervisorWitnesses.TwoStopsOneCore` | supervisor/src/core_proc.rs:286-316 | two stops mark one generation across a takeover and both fire `down` |
| `SupervisorWitnesses.ReplacedTooLate` | supervisor/src/server.rs:257-269 | an owner replaced after it loaded its flag stops the new owner's core |
| `SupervisorWitnesses.PushBeforeGreeting` | supervisor/src/core_proc.rs:236-239 | a crash is written to a new owner ahead of its greeting, and the client's handshake fails on it |
| `SupervisorWitnesses.KickBeforeGreeting` | supervisor/src/server.rs:226-235 | a new owner is told it was displaced ahead of its greeting |
| `SupervisorWitnesses.ExitCutsRequestedDown` | supervisor/src/server.rs:350-352 | a clean exit while the `down` hook of an earlier `stop` command runs |
| `SupervisorWitnesses.ExitCutsCrashDown` | supervisor/src/core_proc.rs:242-247 | a clean exit while the `down` hook of a crash runs |
| `SupervisorWitnesses.ExitCutsSweepDown` | supervisor/src/janitor.rs:72-77 | an exit while the `down` hook of its own sweep runs |
| `SupervisorWitnesses.ExitAwaitsItsDown` | supervisor/src/server.rs:269-279 | an owner leaves with its core up: the core is stopped and reaped, the `down` hook runs and ends, and only then the process exits |
| `SupervisorWitnesses.TeardownSweepKillsFreshCore` | supervisor/src/server.rs:270-273 | the sweep before the exit kills a core started by a later connection |
| `SupervisorWitnesses.ExitLeavesCore` | supervisor/src/server.rs:274-279 | the process exits and leaves a core un-reaped |
| `SupervisorWitnesses.TimerLeavesCore` | supervisor/src/main.rs:141-145 | the timer exits under an owner that arrived after it looked |
| `SharedState.Shared.constructor` | supervisor/src/server.rs:60-71 | no owner, no core, ids from 1: an initial state of the machine |
| `SharedState.Shared.Arrived` | supervisor/src/server.rs:73-75 | ids are handed out in order and are fresh, each with a flag of its own |
| `SharedState.Shared.Happens` | supervisor/src/core_proc.rs:155-204 | any other step of the machine leaves the object as it is |
| `SharedState.Shared.AcquireLease` | supervisor/src/server.rs:190-221 | makes the machine's step; the displaced owner's flag, and only it, is raised, and its slot handed back; a refused hello changes nothing |
| `SharedState.Shared.ReleaseLease` | supervisor/src/server.rs:263-268 | makes the machine's step; the slot is emptied unless this thread's flag was raised since it looked |
| `SharedState.Shared.Start` | supervisor/src/core_proc.rs:106-125 | makes the machine's step: the answer is the core that is up then, and it is new exactly if a generation was added |
| `SharedState.Shared.MarkStop` | supervisor/src/core_proc.rs:286-296 | makes the machine's step: a core that is up gets its flag, and the caller waits for that very generation |
| `SharedState.Shared.StopRequested` | supervisor/src/core_proc.rs:182-185 | the flag read is true exactly if the monitor's own generation was marked |
| `SharedState.Shared.HandleCoreExit` | supervisor/src/core_proc.rs:214-226 | the core is always the monitor's own and is cleared, and the exit is expected exactly if its generation was marked |
| `Escalation.Monitor` | supervisor/src/core_proc.rs:148-204 | the loop stops at the first poll that reaps and has sent exactly the signals the specification gives for the turns before it |
| `Escalation.ProgressHasShape` | supervisor/src/core_proc.rs:152-199 | over all turns the signals are a prefix of SIGTERM, SIGKILL with the grace period between them |
| `Escalation.StaysOnTime` | supervisor/src/core_proc.rs:28-31 | where the loop stands at each poll after a stop request: deadline set in time, kill sent in time |
| `Escalation.ReapedInTime` | supervisor/src/core_proc.rs:28-31 | over timely turns no poll that is still made is later than 5 s, three poll intervals and one loop body after the request |
| `Escalation.NextPollInTime` | supervisor/src/core_proc.rs:28-31 | while no poll has reaped the child, the next is due within the same time |
| `Escalation.BodyCounts` | supervisor/src/core_proc.rs:184-203 | timely turns with a body of 2 ms whose child is reaped 1 ms after 5 s and three poll intervals, so the body counts |
| `SupervisorTiming.StoppedCoreIsReaped` | supervisor/src/core_proc.rs:152-203 | in every run of the supervisor in which the monitor of a stopped generation is prompt, the generation is reaped within 5 s, three poll intervals and one loop body of the first stop request |
| `Hooks.RunChild` | supervisor/src/hooks.rs:275-307 | the loop ends at the first turn that reaps, errs or finds the deadline passed; it kills exactly in the last case, only a script found un-reaped in that turn, and then waits for it |
| `Hooks.JoinIsBounded` | supervisor/src/hooks.rs:105-110 | the thread ends, within its timeout's worth of polls and one, no later than the timeout, one gap between clock readings and the reaping of a killed script |
| `Hooks.JoinKeepsTimeout` | supervisor/src/hooks.rs:106-110 | a loop that ends does so within the timeout if and only if one of its turns finds the script ended by the deadline, or falls right on it and reaps at once |
| `Hooks.JoinCanExceedTimeout` | supervisor/src/hooks.rs:290-304 | an input that exceeds the timeout |
| `Janitor.SweepOrphans` | supervisor/src/janitor.rs:27-79 | signals exactly the targets of the listing, in order, counts the kills that succeeded, and fires the hook if and only if one did |
| `Janitor.Examine` | supervisor/src/janitor.rs:41-56 | decides one line: malformed, own, excluded and non-matching lines give no target |
| `Janitor.ParseI32` | supervisor/src/janitor.rs:45-48 | a pid is read only if it fits 32 bits |
| `Janitor.SweepOfListing` | supervisor/src/janitor.rs:41-56 | on the listing of any process table the targets are exactly the rows whose command line passes the matcher, other than this one and the excluded one |
| `Janitor.SweepOfProcesses` | supervisor/src/janitor.rs:27-79 | on the listing of any processes the targets are exactly those with the path as argv[0], other than this one and the excluded one, if and only if none of the others is mistaken for one |
| `Janitor.CoresAre` | supervisor/src/janitor.rs:51-56 | a pid is among the targets if and only if a process with the path as argv[0] has it, and it is neither this process's nor the excluded one |
| `Janitor.MatchIs` | supervisor/src/janitor.rs:81-91 | on the input: the matcher takes a process if argv[0] is the path, or the path with a space and more, or the path is argv[0], a space and what the other arguments spell |
| `Janitor.MatcherIsExact` | supervisor/src/janitor.rs:84-91 | the matcher decides argv[0], whatever the other arguments, if and only if neither argv[0] nor the path is the other with a space and more |
| `Janitor.WhoIsMistaken` | supervisor/src/janitor.rs:84-91 | which processes with another argv[0] are taken for a core; none that is apart from the path |
| `Janitor.StrangerCanMatch` | supervisor/src/janitor.rs:89-91 | a process that matches under another argv[0] |
| `Framing.BufReader.FillBuf` | supervisor/src/server.rs:178 | buffered bytes are a prefix of the stream, empty only at its end |
| `Framing.BufReader.Consume` | supervisor/src/server.rs:178 | consuming drops exactly that many bytes of the stream |
| `Framing.BufReader.ReadUntilNewline` | supervisor/src/server.rs:132 | `take(max).read_until` returns the stream up to and with a newline or `max` bytes, wherever the chunks end, and leaves the rest |
| `Framing.BufReader.ReadLineLimited` | supervisor/src/server.rs:130-145 | result and rest are functions of the flat stream: end, line, unterminated or not UTF-8 |
| `Framing.ReadAllIsSplit` | supervisor/src/server.rs:126-145 | for max > 0 repeated reads return the newline split up to the first over-long, unterminated or non-UTF-8 piece, and name its fault |
| `Framing.PiecesAreTheSplit` | supervisor/src/server.rs:126-132 | the pieces concatenate to the stream, and all but the last are lines |
| `Framing.ValidStreamNeverFailsOnEncoding` | supervisor/src/server.rs:142-144 | a stream that is valid UTF-8 never fails on encoding, whatever the limit |
| `Utf8.DecodeEncode` | supervisor/src/server.rs:142 | decoding inverts encoding on every text |
| `Utf8.EncodeDecode` | supervisor/src/server.rs:142 | whatever decodes is the encoding of what it decodes to |
| `Utf8.EncodingExamples` | supervisor/src/server.rs:142 | the bytes of one character of each length, by the table in section 3 of RFC 3629 |
| `Utf8.ValidSplitsAtNewline` | supervisor/src/server.rs:132-144 | cutting bytes after a newline cuts no character |
| `CommandLoop.RunCommandLoop` | supervisor/src/server.rs:316-370 | serves exactly the non-blank lines of the stream up to its end or first bad line, in order and however it is chunked, and writes for each the one reply due on what the call for it saw |
| `CommandLoop.BlankLinesAreSkipped` | supervisor/src/server.rs:330-332 | a blank line anywhere asks for nothing |
| `CommandLoop.OtherLinesAreServed` | supervisor/src/server.rs:333-368 | every other line asks for exactly one thing, decoded or not |
| `CommandLoop.CapIs64K` | supervisor/src/server.rs:18-20 | a line of 65536 bytes with its newline is read, and one byte more is refused |
| `CommandLoop.Answer` | supervisor/src/server.rs:333-368 | the event written for each command, in literal terms of what the call saw: pid and port, state, stop reason, error code |
| `CommandLoop.CommandIsSendable` | supervisor/src/server.rs:18-20 | every encoded command is one line of fewer than 64 KiB |
| `CommandLoop.ReadAllOfEncoded` | supervisor/src/server.rs:130-145 | any lines that fit are read back as they were sent, then the stream ends |
| `CommandLoop.CommandStreamRoundTrip` | supervisor/src/server.rs:322-333 | any sequence of commands, encoded and concatenated, is framed and decoded to itself, then the stream ends |
| `Json.ParsePrint` | supervisor/src/proto.rs:88-97 | parsing inverts printing on every flat object, whatever text its strings hold |
| `Json.PrintIsOneLine` | bridge/src/proto.rs:84-88 | a printed object holds no control character and survives trimming |
| `Proto.CmdRoundTrip` | bridge/src/proto.rs:22-30 | the supervisor decodes every command to what the client encoded |
| `Proto.EventRoundTrip` | supervisor/src/proto.rs:36-97 | the client decodes every event to what the supervisor encoded |
| `Proto.EncodedIsOneLine` | bridge/src/proto.rs:83-88 | every message is one non-blank line with one newline, at its end |
| `Wire.CmdLine` | bridge/src/proto.rs:99-113 | the line of every command, character by character: member names, order, values, no spaces, one newline |
| `Wire.EventLine` | supervisor/src/proto.rs:151-211 | the same for every event, with texts escaped where they need it and as they are where not |
| `Wire.PaddingIsTolerated` | supervisor/src/proto.rs:87-90 | any white space around a command or an event changes nothing |
| `Wire.ForwardCompatible` | bridge/src/proto.rs:32-37 | a member that no event declares, at any place, does not change how an event is read |
| `Wire.NewEventIsUnknown` | bridge/src/proto.rs:79-80 | an event with an unknown tag is `Unknown`, whatever else it holds |
| `Wire.TakeoverDefaults` | supervisor/src/proto.rs:26-30 | a hello that does not mention a takeover asks for none |
| `Wire.EventDefaults` | bridge/src/proto.rs:39-77 | what the client takes a member for that an event leaves out |
| `Wire.RangesAreChecked` | bridge/src/proto.rs:47-50 | a pid or a port that does not fit its type is refused, and any that fits is taken |
| `Wire.UnknownCommandIsRefused` | supervisor/src/proto.rs:22-34 | an unknown command, a hello without its protocol and an object without a command are refused |
| `Session.RepliesAreCorrelated` | bridge/src/supervisor_client.rs:388-494 | in every run of a session every line decodes, every reply completes the request whose command caused it, pushes complete nothing, and the unexpected-reply and unclaimed-reply branches are never taken |
| `Session.OneInFlight` | bridge/src/supervisor_client.rs:397-420 | at most one command is on the line, at work or answered; with no request in flight only pushes are |
| `Client.ResolvedExactlyOnce` | bridge/src/supervisor_client.rs:213-229 | every dispatched request is waiting, in flight or resolved, never two of these, and resolved at most once; all are when the driver has ended |
| `Client.HowResolved` | bridge/src/supervisor_client.rs:388-494 | a request is resolved with a reply if and only if it is in flight and the line read answers its kind; it is dropped if and only if session, driver or queue end under it; otherwise it fails |
| `Client.DispatchOutcome` | bridge/src/supervisor_client.rs:213-229 | a dispatched request joins the end of the queue; after the driver's end it fails at once |
| `Client.ReceiveOutcome` | bridge/src/supervisor_client.rs:397-417 | a request that comes while one is in flight fails and leaves that one alone; one that cannot be written fails and ends the session; any other goes in flight |
| `Client.ResolutionIsFinal` | bridge/src/supervisor_client.rs:113-143 | no step changes or withdraws a resolution |
| `Client.TakeoversAreRequested` | bridge/src/supervisor_client.rs:287-319 | an attempt asks for a takeover if and only if the one before met a busy owner, apart from the configured first; takeovers never exceed the calls of `request_takeover` plus that first |
| `Client.TakeoverTakesEffect` | bridge/src/supervisor_client.rs:308-319 | a driver that met a busy owner goes on only by a requested takeover, and a request makes its next attempt ask for it |
| `Client.BackoffsDouble` | bridge/src/supervisor_client.rs:283-331 | the k-th back-off since the last session is min(initial·2^k, max), if and only if k > 0 or initial ≤ max |
| `Client.FirstBackoffUncapped` | bridge/src/supervisor_client.rs:285-331 | a reachable first back-off of 5 under a cap of 3 |
| `Client.HandshakeOf` | bridge/src/supervisor_client.rs:336-386 | of the lines a supervisor writes, a greeting makes a session, a busy a busy owner, and any other a failed attempt |
| `ClientTask.DriverTask.constructor` | bridge/src/supervisor_client.rs:283-286 | the driver starts with the configured back-off and takeover |
| `ClientTask.DriverTask.ConnectAndHello` | bridge/src/supervisor_client.rs:336-386 | how an attempt ends on its first line, and whether that line becomes an event |
| `ClientTask.DriverTask.AttemptEnded` | bridge/src/supervisor_client.rs:293-323 | the transition of the driver after a connect attempt; a failed one backs off for the k-th time as long as the formula says |
| `ClientTask.DriverTask.TakeoverPermitted` | bridge/src/supervisor_client.rs:312-317 | a confirmed takeover is consumed and the next attempt asks for it |
| `ClientTask.DriverTask.BackoffOver` | bridge/src/supervisor_client.rs:325-331 | the back-off doubles up to its cap |
| `ClientTask.DriverTask.Received` | bridge/src/supervisor_client.rs:397-420 | a request, never resolved before, is refused if one is in flight, fails with the session if it cannot be written, and is in flight otherwise |
| `ClientTask.DriverTask.DispatchEvent` | bridge/src/supervisor_client.rs:437-494 | the driver's transition on an event, which request it completes and how, never one resolved before, and which events are forwarded |
| `ClientTask.DriverTask.SessionEnded` | bridge/src/supervisor_client.rs:299-306 | the request in flight is dropped and the driver backs off |
| `ClientTask.DriverTask.ShutDown` | bridge/src/supervisor_client.rs:289-333 | a shutdown ends the driver in any phase and drops the request in flight |
| `Quoting.EscapeIsOnePass` | bridge/src/install.rs:127-131 | the two sequential replacements equal a one-pass escape |
| `Quoting.OrderMatters` | bridge/src/install.rs:127-131 | the other order is right if and only if the command has no double quote |
| `Quoting.StatementRoundTrip` | bridge/src/install.rs:133-140 | every command comes back from the literal of its statement, which ends where it should |
| `Quoting.InstallWords` | bridge/src/install.rs:95-104 | the shell splits the install command into exactly the intended arguments, if and only if the paths are free of NUL |
| `Quoting.InstallPipeline` | bridge/src/install.rs:95-141 | both layers: from paths to a statement that asks for administrator privileges, and back to exactly the argument vector, its flags given literally |
| `Quoting.UninstallPipeline` | bridge/src/install.rs:107-114 | the same for the uninstall command |
| `RestartPolicy.InvStep` | app/Sources/AppModel.swift:300-342 | every await-to-await step keeps: at most the current restart loop is active, the counter is at most 3, and below 3 while a loop is active or the app is connected |
| `RestartPolicy.OneLoopAndBoundedFailures` | app/Sources/AppModel.swift:133-185 | in every run at most one un-cancelled loop exists and `restartFailures` never exceeds 3, despite suspended connects and disconnects |
| `RestartPolicy.LoopLeftAlone` | app/Sources/AppModel.swift:315-341 | a loop left alone makes at most 3 attempts in at most 7 steps, is never stuck, and ends connected or disconnected |
| `RestartPolicy.LoopOutcome` | app/Sources/AppModel.swift:315-341 | a loop left alone ends connected, the counter at 0 and the configuration kept, if and only if its last event is a successful dial; or disconnected with no configuration, if and only if every dial failed and the counter came to 3 |
| `RestartPolicy.SleepOutcome` | app/Sources/AppModel.swift:317-326 | its attempts come after as many seconds as their number, at most 3 |
| `RestartPolicy.ConnectOutcome` | app/Sources/AppModel.swift:133-166 | an undisturbed `connect` ends connected on its text with the counter at 0, or disconnected with nothing else changed |
| `RestartPolicy.CallsAreGuarded` | app/Sources/AppModel.swift:134-170 | a `connect` or `disconnect` in the wrong state does nothing |
| `RestartPolicy.DisconnectOutcome` | app/Sources/AppModel.swift:169-185 | a `disconnect` ends disconnected with no configuration, the counter at 0 and no active loop |
| `RestartPolicy.KickOutcome` | app/Sources/AppModel.swift:272-280 | being displaced disconnects at once and leaves no active loop |
| `RestartPolicy.CoreExitOutcome` | app/Sources/AppModel.swift:300-315 | the exit of the core matters only while connected; then it starts the one active loop, or disconnects if that is switched off |
| `AppModel.Model.Connect` | app/Sources/AppModel.swift:133-145 | `connect` up to its first await makes the policy's step; it goes on, connecting, exactly if disconnected and the file is read |
| `AppModel.Model.ConnectValidated` | app/Sources/AppModel.swift:145-153 | the same between validating and dialling; an invalid configuration disconnects |
| `AppModel.Model.ConnectDialled` | app/Sources/AppModel.swift:153-166 | the same after dialling: connected on the text with the counter at 0, or disconnected with nothing else changed |
| `AppModel.Model.Disconnect` | app/Sources/AppModel.swift:169-175 | `disconnect` up to its await makes the policy's step; it goes on, disconnecting, exactly if connected or connecting |
| `AppModel.Model.DisconnectHungUp` | app/Sources/AppModel.swift:175-185 | the same after its await: disconnected, no configuration, the counter at 0 |
| `AppModel.Model.HandleCoreExit` | app/Sources/AppModel.swift:300-315 | makes the policy's step: starts a loop with a task of its own exactly when connected, running and enabled, and cancels the one before it |
| `AppModel.Model.HandleKicked` | app/Sources/AppModel.swift:272-280 | makes the policy's step: disconnects and cancels the restart task |
| `AppModel.Model.SetAutoRestart` | app/Sources/AppModel.swift:62-64 | the switch changes at any time, and nothing else with it |
| `AppModel.Model.LoopTop` | app/Sources/AppModel.swift:317-326 | gives up past the limit, else sleeps as many seconds as the attempt's number |
| `AppModel.Model.LoopStarted` | app/Sources/AppModel.swift:315-326 | makes the policy's step at the start of a loop |
| `AppModel.Model.LoopWoke` | app/Sources/AppModel.swift:326-329 | makes the policy's step after the sleep: a cancelled loop ends, another dials |
| `AppModel.Model.LoopDialled` | app/Sources/AppModel.swift:329-340 | makes the policy's step: a cancelled loop ends without effect; a success ends it connected with the counter at 0; a failure counts, and at 3 ends it disconnected with no configuration |
| `AppModel.Model.AtMostOneTask` | app/Sources/AppModel.swift:313-342 | of all restart tasks ever made at most one is neither cancelled nor over, and it is the one the object holds |

## Left out

- launchd activation, peer credentials, `AuthMode`, configuration and plist files, installation scripts: foreign calls and plumbing.
- `check_hook_security` and the environment, log file and exit status of a hook: whether a hook runs is an input.
- The handshake reads before a lease is acquired, with their time-out and protocol check: a connection enters the machine once its hello is accepted.
- `bridge/src/rpc.rs`, `bridge/src/ffi.rs`, `bridge/src/conflict.rs` and the views: a library wrapper, pointer ownership, one-branch checks, user interface.
- JSON beyond flat objects of strings, integers, booleans and null: nested values, non-integral numbers and surrogate-pair escapes make the model's parser fail, as does a message given as an array, which serde accepts; integers are unbounded until a field's range is checked.
- Read and write errors and time-outs on an established connection, other than a failed write of a request: an error ends the loop like the end of the stream.
- Characters lost when a read of the client is cancelled halfway: the client sees whole lines.
- The bound of 16 on the client's request queue: the queue is unbounded, and a dispatcher that would wait enters at once.
- Poisoned mutexes, a failed spawn of a monitor or hook thread, and `cleanup_routes`, which is empty.
- Return of a `stop` under endless restarts: a later `start` can overtake a waiting `stop`, so only the time to reap a generation is bounded.
- A critical section on `State` is one step, including the spawn inside `start`, because the lock is held across it; the crash sweep, which holds the lock while other threads run, is many steps.
- Death by SIGKILL is a later step of the process table, which any schedule may delay; the timing bound assumes that it comes by the next poll.
- `Session.RepliesAreCorrelated`: the session begins after the handshake; `SupervisorSession.SupervisorCorrelates` composes it with the supervisor from the greeting on.
- `SupervisorTheorems.CleanExit`: its condition is sufficient; the exact one, on the state at the exit, is in `SupervisorTheorems.AnyExit`.
- `CommandLoop.RunCommandLoop`: what each call of the core sees is an input here; `SupervisorReplies.CommandGetsItsReply` settles it, and the texts of errors are inputs throughout.
- `Hooks.JoinIsBounded`: how long the reaping of a killed script takes is an input.
- `SharedState.Shared`: its lock is not modelled as an object; that a section runs alone is that it is one step of the machine.
- `AppModel.Model`: rows, rates, messages and polling are not modelled, and the object hands out the task it starts instead of scheduling it.
- `SupervisorTheorems.CrashSweep`: a successful `kill` is of the process that holds the pid; a pid of 0 or less, which `ps` does not print, would reach a group.
- `Quoting.ShellWords`: a command that uses more of the shell than literal text, escaped characters and single quotes has no meaning in the model.
