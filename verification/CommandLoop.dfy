/** The supervisor's command loop over the framed byte stream, and the stream of commands that a client sends. */
module CommandLoop {
  import opened Text
  import Utf8
  import opened Framing
  import opened Json
  import opened Messages
  import opened Proto
  import Supervisor

  /** What the loop makes of the lines it reads: blank ones are skipped, each other one is decoded. */
  function Requests(lines: seq<string>): seq<Option<Cmd>> {
    if lines == [] then []
    else (if Trim(lines[0]) == "" then [] else [DecodeCmd(lines[0])]) + Requests(lines[1..])
  }

  /** What answering one command calls for: the core as the call saw it, and the text of an error. */
  datatype Call = Call(saw: Supervisor.CoreProc, msg: string)

  function ReplyTo(cmd: Option<Cmd>, call: Call): Event {
    Supervisor.ReplyEvent(Supervisor.Due(cmd, call.saw), call.msg)
  }

  /** The match of the loop: each command gets the one reply that is due on what its call saw. */
  method Answer(cmd: Option<Cmd>, call: Call) returns (ev: Event)
    ensures ev == ReplyTo(cmd, call)
    ensures cmd == None ==> ev == Error("bad_request", call.msg)
    ensures cmd.Some? && cmd.value.Hello? ==> ev == Error("bad_proto", "duplicate hello")
    ensures cmd == Some(Start) ==>
              ev == if call.saw.Running? then CoreStarted(call.saw.pid, call.saw.port) else Error("spawn_failed", call.msg)
    ensures cmd == Some(Cmd.Status) ==>
              ev == if call.saw.Running? then Event.Status(CoreState.Running, Some(call.saw.pid), Some(call.saw.port))
                    else Event.Status(CoreState.Stopped, Option.None, Option.None)
    ensures cmd == Some(Stop) ==> ev == CoreStopped(if call.saw.Running? then "requested" else "already_stopped")
  {
    var core := call.saw;
    match cmd {
      case None => ev := Error("bad_request", call.msg);
      case Some(Hello(_, _)) => ev := Error("bad_proto", "duplicate hello");
      case Some(Start) => ev := if core.Running? then CoreStarted(core.pid, core.port) else Error("spawn_failed", call.msg);
      case Some(Status) =>
        ev := match core
              case Stopped => Event.Status(CoreState.Stopped, Option.None, Option.None)
              case Running(pid, port, _) => Event.Status(CoreState.Running, Some(pid), Some(port));
      case Some(Stop) => ev := CoreStopped(if core.Running? then "requested" else "already_stopped");
    }
  }

  /** One reply for each command, in order; `calls(i)` is the call for the i-th. */
  ghost predicate OneReplyEach(served: seq<Option<Cmd>>, replies: seq<Event>, calls: nat -> Call) {
    |replies| == |served| && forall i: nat :: i < |served| ==> replies[i] == ReplyTo(served[i], calls(i))
  }

  lemma OneMoreReply(served: seq<Option<Cmd>>, replies: seq<Event>, calls: nat -> Call, cmd: Option<Cmd>, ev: Event)
    requires OneReplyEach(served, replies, calls) && ev == ReplyTo(cmd, calls(|served|))
    ensures OneReplyEach(served + [cmd], replies + [ev], calls)
  {
  }

  lemma AfterOneRead(stream: seq<Utf8.byte>, lines: seq<string>, last: ReadResult)
    requires ReadAll(stream, MAX_LINE) == (lines, last)
    ensures var taken := Taken(stream, MAX_LINE);
            var r, rest := Interpret(taken), stream[|taken|..];
            if r.Line? then
              && lines != [] && lines[0] == r.text && |rest| < |stream|
              && ReadAll(rest, MAX_LINE) == (lines[1..], last)
            else lines == [] && last == r
  {
  }

  lemma {:induction false} RequestsPush(lines: seq<string>, line: string)
    ensures Requests(lines + [line]) == Requests(lines) + (if Trim(line) == "" then [] else [DecodeCmd(line)])
  {
    var all := lines + [line];
    if lines == [] {
      assert all[0] == line && all[1..] == [];
    } else {
      assert all[0] == lines[0] && all[1..] == lines[1..] + [line];
      RequestsPush(lines[1..], line);
    }
  }

  lemma OneMoreLine(all: seq<string>, n: nat, line: string)
    requires n < |all| && all[n] == line
    ensures all[n..][1..] == all[n + 1..]
    ensures Requests(all[..n + 1]) == Requests(all[..n]) + (if Trim(line) == "" then [] else [DecodeCmd(line)])
  {
    assert all[..n + 1] == all[..n] + [line];
    RequestsPush(all[..n], line);
  }

  /**
   * The loop decodes exactly the non-blank lines of the stream up to its end or its first bad line, and writes one
   * reply for each, the one due on what the call for it saw.
   */
  method RunCommandLoop(reader: BufReader, calls: nat -> Call)
    returns (served: seq<Option<Cmd>>, replies: seq<Event>, end: ReadResult)
    requires reader.Valid()
    modifies reader
    ensures served == Requests(ReadAll(old(reader.Remaining()), MAX_LINE).0)
    ensures end == ReadAll(old(reader.Remaining()), MAX_LINE).1
    ensures OneReplyEach(served, replies, calls)
  {
    ghost var (all, last) := ReadAll(reader.Remaining(), MAX_LINE);
    ghost var n: nat := 0;
    served, replies := [], [];
    while true
      invariant reader.Valid() && OneReplyEach(served, replies, calls)
      invariant n <= |all| && ReadAll(reader.Remaining(), MAX_LINE) == (all[n..], last)
      invariant served == Requests(all[..n])
      decreases |all| - n
    {
      AfterOneRead(reader.Remaining(), all[n..], last);
      end := reader.ReadLineLimited(MAX_LINE);
      if !end.Line? {
        break;
      }
      OneMoreLine(all, n, end.text);
      n := n + 1;
      if Trim(end.text) == "" {
        continue;
      }
      var cmd := DecodeCmd(end.text);
      var reply := Answer(cmd, calls(|served|));
      OneMoreReply(served, replies, calls, cmd, reply);
      served, replies := served + [cmd], replies + [reply];
    }
    assert all[..n] == all;
  }

  /** A blank line anywhere asks for nothing. */
  lemma {:induction false} BlankLinesAreSkipped(lines: seq<string>, i: nat, blank: string)
    requires i <= |lines| && Trim(blank) == ""
    ensures Requests(lines[..i] + [blank] + lines[i..]) == Requests(lines)
  {
    var longer := lines[..i] + [blank] + lines[i..];
    if i == 0 {
      assert longer == [blank] + lines && longer[1..] == lines;
    } else {
      assert longer[0] == lines[0] && longer[1..] == lines[1..][..i - 1] + [blank] + lines[1..][i - 1..];
      BlankLinesAreSkipped(lines[1..], i - 1, blank);
    }
  }

  /** Every other line asks for one thing, decoded or not. */
  lemma {:induction false} OtherLinesAreServed(lines: seq<string>)
    requires forall i :: 0 <= i < |lines| ==> Trim(lines[i]) != ""
    ensures |Requests(lines)| == |lines| && forall i :: 0 <= i < |lines| ==> Requests(lines)[i] == DecodeCmd(lines[i])
  {
    if lines != [] {
      OtherLinesAreServed(lines[1..]);
    }
  }

  /** The cap: a line of 65536 bytes, its newline included, is read, and one byte more is refused. */
  lemma CapIs64K(body: seq<Utf8.byte>, rest: seq<Utf8.byte>)
    requires Utf8.NEWLINE !in body && Utf8.Valid(body + [Utf8.NEWLINE])
    ensures var stream := body + [Utf8.NEWLINE] + rest;
            Interpret(Taken(stream, MAX_LINE)).Line? <==> |body| + 1 <= 65536
  {
    var line := body + [Utf8.NEWLINE];
    var stream := line + rest;
    if |line| <= MAX_LINE {
      TakenUpTo(stream, MAX_LINE, |body|);
      assert stream[..|body| + 1] == line;
    } else {
      TakenWhole(stream, MAX_LINE, MAX_LINE);
      assert stream[..MAX_LINE][MAX_LINE - 1] == body[MAX_LINE - 1];
    }
  }

  // ----- streams of lines

  function EncodeLines(lines: seq<string>): seq<Utf8.byte> {
    if lines == [] then [] else Utf8.Encode(lines[0]) + EncodeLines(lines[1..])
  }

  predicate Sendable(line: string, max: nat) {
    IsOneLine(line) && |Utf8.Encode(line)| <= max
  }

  /** The bytes of one line end with its newline and hold no other. */
  lemma EncodedLine(line: string)
    requires IsOneLine(line)
    ensures var b := Utf8.Encode(line);
            b != [] && b[|b| - 1] == Utf8.NEWLINE && Clear(b, |b| - 1)
  {
    var body := line[..|line| - 1];
    assert line == body + "\n";
    assert '\n' !in body;
    Utf8.EncodeConcat(body, "\n");
    assert "\n"[1..] == "";
    assert Utf8.Encode("\n") == [Utf8.NEWLINE];
    Utf8.NewlineOnlyFromNewline(body);
    var b, e := Utf8.Encode(line), Utf8.Encode(body);
    forall i | 0 <= i < |e| ensures b[i] != Utf8.NEWLINE { assert b[i] == e[i] && e[i] in e; }
  }

  lemma TakenIsLine(line: string, rest: seq<Utf8.byte>, max: nat)
    requires Sendable(line, max)
    ensures Taken(Utf8.Encode(line) + rest, max) == Utf8.Encode(line)
  {
    var b := Utf8.Encode(line);
    EncodedLine(line);
    var stream := b + rest;
    assert forall i :: 0 <= i < |b| ==> stream[i] == b[i];
    TakenUpTo(stream, max, |b| - 1);
    assert stream[..|b|] == b;
  }

  /** Lines that fit are read back as they were sent, and then the stream ends. */
  lemma {:induction false} ReadAllOfEncoded(lines: seq<string>, max: nat)
    requires forall i :: 0 <= i < |lines| ==> Sendable(lines[i], max)
    ensures ReadAll(EncodeLines(lines), max) == (lines, Eof)
  {
    if lines != [] {
      var b, rest := Utf8.Encode(lines[0]), EncodeLines(lines[1..]);
      TakenIsLine(lines[0], rest, max);
      EncodedLine(lines[0]);
      Utf8.DecodeEncode(lines[0]);
      assert (b + rest)[|b|..] == rest;
      ReadAllOfEncoded(lines[1..], max);
      assert [lines[0]] + lines[1..] == lines;
    }
  }

  // ----- the length of a command

  lemma {:induction false} EncodeLength(s: string)
    ensures |Utf8.Encode(s)| <= 4 * |s|
  {
    if s != [] {
      EncodeLength(s[1..]);
    }
  }

  lemma {:induction false} EscapeLength(s: string)
    ensures |Escape(s)| <= 6 * |s|
  {
    if s != [] {
      EscapeLength(s[1..]);
    }
  }

  predicate IsShort(f: Field) {
    |f.name| <= 16 && match f.value
                      case Str(s) => |s| <= 16
                      case Int(n) => 0 <= n < 0x1_0000_0000
                      case _ => true
  }

  lemma FieldLength(f: Field)
    requires IsShort(f)
    ensures |PrintField(f)| <= 300
  {
    EscapeLength(f.name);
    match f.value {
      case Str(s) => EscapeLength(s);
      case Int(n) =>
        assert Pow10(10) == 10_000_000_000 by { PowersOfTen(); }
        DecimalLength(n, 10);
      case Bool(_) =>
      case Null =>
    }
  }

  lemma PowersOfTen()
    ensures Pow10(10) == 10_000_000_000
  {
    assert Pow10(5) == 100_000;
  }

  lemma {:induction false} FieldsLength(o: Object)
    requires forall i :: 0 <= i < |o| ==> IsShort(o[i])
    ensures |PrintFields(o)| <= 301 * |o|
  {
    if o != [] {
      FieldLength(o[0]);
      FieldsLength(o[1..]);
    }
  }

  lemma CommandIsSendable(c: Cmd)
    ensures Sendable(EncodeCmd(c), MAX_LINE) && |Utf8.Encode(EncodeCmd(c))| < MAX_LINE
  {
    var o := CmdFields(c);
    assert forall i :: 0 <= i < |o| ==> IsShort(o[i]);
    FieldsLength(o);
    EncodedIsOneLine(c, Kicked);
    EncodeLength(EncodeCmd(c));
  }

  // ----- the stream of a client's commands

  function CommandLines(cmds: seq<Cmd>): (lines: seq<string>)
    ensures |lines| == |cmds|
    ensures forall i :: 0 <= i < |cmds| ==> lines[i] == EncodeCmd(cmds[i])
  {
    if cmds == [] then [] else [EncodeCmd(cmds[0])] + CommandLines(cmds[1..])
  }

  function Accepted(cmds: seq<Cmd>): seq<Option<Cmd>> {
    if cmds == [] then [] else [Some(cmds[0])] + Accepted(cmds[1..])
  }

  lemma {:induction false} RequestsOfCommands(cmds: seq<Cmd>)
    ensures Requests(CommandLines(cmds)) == Accepted(cmds)
  {
    if cmds != [] {
      var lines := CommandLines(cmds);
      CmdRoundTrip(cmds[0]);
      EncodedIsOneLine(cmds[0], Kicked);
      assert lines[1..] == CommandLines(cmds[1..]);
      RequestsOfCommands(cmds[1..]);
    }
  }

  /** Whatever commands a client sends, the loop decodes exactly these, in order, and then sees the end. */
  lemma CommandStreamRoundTrip(cmds: seq<Cmd>)
    ensures var (lines, end) := ReadAll(EncodeLines(CommandLines(cmds)), MAX_LINE);
            Requests(lines) == Accepted(cmds) && end == Eof
  {
    var lines := CommandLines(cmds);
    forall i | 0 <= i < |lines| ensures Sendable(lines[i], MAX_LINE) { CommandIsSendable(cmds[i]); }
    ReadAllOfEncoded(lines, MAX_LINE);
    RequestsOfCommands(cmds);
  }
}
