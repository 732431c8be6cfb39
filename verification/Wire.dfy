/** What the lines of the protocol look like, character by character, and what a reader of them tolerates. */
module Wire {
  import opened Text
  import opened Json
  import opened Messages
  import opened Proto

  /** No character that JSON escapes. */
  predicate IsPlain(s: string) {
    forall i :: 0 <= i < |s| ==> s[i] >= ' ' && s[i] != '"' && s[i] != '\\'
  }

  lemma {:induction false} EscapeOfPlain(s: string)
    requires IsPlain(s)
    ensures Escape(s) == s
  {
    if s != [] {
      EscapeOfPlain(s[1..]);
      assert s == [s[0]] + s[1..];
    }
  }

  /** `"name":value`, for a plain name. */
  function Member(name: string, value: string): string {
    "\"" + name + "\":" + value
  }

  function Quote(s: string): string {
    "\"" + s + "\""
  }

  function Line(members: seq<string>): string
    requires members != []
  {
    "{" + Commas(members) + "}" + "\n"
  }

  function Commas(members: seq<string>): string
    requires members != []
  {
    if |members| == 1 then members[0] else members[0] + "," + Commas(members[1..])
  }

  /** The text of a value: what is printed, and for a string that needs no escape the string itself in quotes. */
  function ValueText(v: Value): string {
    if v.Str? && IsPlain(v.s) then Quote(v.s) else PrintValue(v)
  }

  predicate Spells(f: Field, member: string) {
    IsPlain(f.name) && member == Member(f.name, ValueText(f.value))
  }

  lemma FieldShape(f: Field)
    requires IsPlain(f.name)
    ensures PrintField(f) == Member(f.name, ValueText(f.value))
  {
    EscapeOfPlain(f.name);
    if f.value.Str? && IsPlain(f.value.s) {
      EscapeOfPlain(f.value.s);
    }
  }

  lemma {:induction false} FieldsShape(o: Object, members: seq<string>)
    requires |o| == |members| > 0 && forall i :: 0 <= i < |o| ==> Spells(o[i], members[i])
    ensures PrintFields(o) == Commas(members)
  {
    assert Spells(o[0], members[0]);
    FieldShape(o[0]);
    if |o| > 1 {
      FieldsShape(o[1..], members[1..]);
    }
  }

  function CmdMembers(c: Cmd): seq<string> {
    match c
    case Hello(proto, takeover) =>
      [Member("cmd", Quote("hello")), Member("proto", ValueText(Int(proto))),
       Member("takeover", ValueText(Bool(takeover)))]
    case Start => [Member("cmd", Quote("start"))]
    case Status => [Member("cmd", Quote("status"))]
    case Stop => [Member("cmd", Quote("stop"))]
  }

  lemma KeysArePlain()
    ensures IsPlain("cmd") && IsPlain("event") && IsPlain("proto") && IsPlain("takeover") && IsPlain("version")
    ensures IsPlain("core") && IsPlain("rpc_port") && IsPlain("pid") && IsPlain("reason") && IsPlain("code")
    ensures IsPlain("signal") && IsPlain("msg") && IsPlain("owner")
  {
  }

  lemma TagsArePlain()
    ensures IsPlain("hello") && IsPlain("start") && IsPlain("status") && IsPlain("stop")
    ensures IsPlain("core_started") && IsPlain("core_stopped") && IsPlain("core_exited") && IsPlain("error")
    ensures IsPlain("busy") && IsPlain("kicked") && IsPlain("stopped") && IsPlain("running")
  {
  }

  lemma SpellsTag(name: string, s: string)
    requires IsPlain(name) && IsPlain(s)
    ensures Spells(Field(name, Str(s)), Member(name, Quote(s)))
  {
  }

  lemma SpellsValue(name: string, v: Value)
    requires IsPlain(name)
    ensures Spells(Field(name, v), Member(name, ValueText(v)))
  {
  }

  lemma CmdSpelling(c: Cmd)
    ensures var o, members := CmdFields(c), CmdMembers(c);
            |o| == |members| && forall i :: 0 <= i < |o| ==> Spells(o[i], members[i])
  {
    KeysArePlain();
    TagsArePlain();
    match c {
      case Hello(proto, takeover) =>
        SpellsTag("cmd", "hello");
        SpellsValue("proto", Int(proto));
        SpellsValue("takeover", Bool(takeover));
      case Start => SpellsTag("cmd", "start");
      case Status => SpellsTag("cmd", "status");
      case Stop => SpellsTag("cmd", "stop");
    }
  }

  /** The line of every command. */
  lemma CmdLine(c: Cmd)
    ensures EncodeCmd(c) == Line(CmdMembers(c))
  {
    CmdSpelling(c);
    FieldsShape(CmdFields(c), CmdMembers(c));
  }

  function EventMembers(ev: Event): seq<string>
    requires !ev.Unknown?
  {
    match ev
    case Hello(proto, version, core, port) =>
      [Member("event", Quote("hello")), Member("proto", ValueText(Int(proto))),
       Member("version", ValueText(Str(version))), Member("core", Quote(CoreName(core))),
       Member("rpc_port", ValueText(Nullable(port)))]
    case CoreStarted(pid, port) =>
      [Member("event", Quote("core_started")), Member("pid", ValueText(Int(pid))),
       Member("rpc_port", ValueText(Int(port)))]
    case Status(core, pid, port) =>
      [Member("event", Quote("status")), Member("core", Quote(CoreName(core))),
       Member("pid", ValueText(Nullable(pid))), Member("rpc_port", ValueText(Nullable(port)))]
    case CoreStopped(reason) => [Member("event", Quote("core_stopped")), Member("reason", ValueText(Str(reason)))]
    case CoreExited(code, signal) =>
      [Member("event", Quote("core_exited")), Member("code", ValueText(Nullable(code))),
       Member("signal", ValueText(Nullable(signal)))]
    case Error(code, msg) =>
      [Member("event", Quote("error")), Member("code", ValueText(Str(code))), Member("msg", ValueText(Str(msg)))]
    case Busy(owner) => [Member("event", Quote("busy")), Member("owner", ValueText(Bool(owner)))]
    case Kicked => [Member("event", Quote("kicked"))]
  }

  ghost predicate Spelt(ev: Event)
    requires !ev.Unknown?
  {
    var o, members := EventFields(ev), EventMembers(ev);
    |o| == |members| && forall i :: 0 <= i < |o| ==> Spells(o[i], members[i])
  }

  lemma HelloSpelling(ev: Event)
    requires ev.Hello?
    ensures Spelt(ev)
  {
    KeysArePlain();
    TagsArePlain();
    SpellsTag("event", "hello");
    SpellsValue("proto", Int(ev.proto));
    SpellsValue("version", Str(ev.version));
    SpellsTag("core", CoreName(ev.core));
    SpellsValue("rpc_port", Nullable(ev.rpcPort));
  }

  lemma StatusSpelling(ev: Event)
    requires ev.Status?
    ensures Spelt(ev)
  {
    KeysArePlain();
    TagsArePlain();
    SpellsTag("event", "status");
    SpellsTag("core", CoreName(ev.core));
    SpellsValue("pid", Nullable(ev.corePid));
    SpellsValue("rpc_port", Nullable(ev.rpcPort));
  }

  lemma StartedSpelling(ev: Event)
    requires ev.CoreStarted? || ev.CoreExited?
    ensures Spelt(ev)
  {
    KeysArePlain();
    TagsArePlain();
    match ev {
      case CoreStarted(pid, port) =>
        SpellsTag("event", "core_started");
        SpellsValue("pid", Int(pid));
        SpellsValue("rpc_port", Int(port));
      case CoreExited(code, signal) =>
        SpellsTag("event", "core_exited");
        SpellsValue("code", Nullable(code));
        SpellsValue("signal", Nullable(signal));
    }
  }

  lemma OtherSpelling(ev: Event)
    requires ev.CoreStopped? || ev.Error? || ev.Busy? || ev.Kicked?
    ensures Spelt(ev)
  {
    KeysArePlain();
    TagsArePlain();
    match ev {
      case CoreStopped(reason) =>
        SpellsTag("event", "core_stopped");
        SpellsValue("reason", Str(reason));
      case Error(code, msg) =>
        SpellsTag("event", "error");
        SpellsValue("code", Str(code));
        SpellsValue("msg", Str(msg));
      case Busy(owner) =>
        SpellsTag("event", "busy");
        SpellsValue("owner", Bool(owner));
      case Kicked =>
        SpellsTag("event", "kicked");
    }
  }

  /** The line of every event. */
  lemma EventLine(ev: Event)
    requires !ev.Unknown?
    ensures EncodeEvent(ev) == Line(EventMembers(ev))
  {
    match ev {
      case Hello(_, _, _, _) => HelloSpelling(ev);
      case Status(_, _, _) => StatusSpelling(ev);
      case CoreStarted(_, _) => StartedSpelling(ev);
      case CoreExited(_, _) => StartedSpelling(ev);
      case _ => OtherSpelling(ev);
    }
    FieldsShape(EventFields(ev), EventMembers(ev));
  }

  // ----- what a reader tolerates

  lemma {:induction false} TrimEndSkips(s: string, pad: string)
    requires forall c :: c in pad ==> IsWhitespace(c)
    requires s == [] || !IsWhitespace(s[|s| - 1])
    ensures TrimEnd(s + pad) == s
  {
    if pad == [] {
      assert s + pad == s;
    } else {
      var n := |pad| - 1;
      assert (s + pad)[..|s| + n] == s + pad[..n];
      TrimEndSkips(s, pad[..n]);
    }
  }

  lemma TrimPadded(before: string, s: string, after: string)
    requires forall c :: c in before + after ==> IsWhitespace(c)
    requires s != [] && !IsWhitespace(s[0]) && !IsWhitespace(s[|s| - 1])
    ensures Trim(before + (s + after)) == s
  {
    forall c | c in before ensures IsWhitespace(c) { assert c in before + after; }
    forall c | c in after ensures IsWhitespace(c) { assert c in before + after; }
    assert (s + after)[0] == s[0];
    TrimStartSkips(before, s + after);
    TrimEndSkips(s, after);
  }

  /** White space around a command or an event changes nothing. */
  lemma PaddingIsTolerated(c: Cmd, ev: Event, before: string, after: string)
    requires forall ch :: ch in before + after ==> IsWhitespace(ch)
    requires !ev.Unknown?
    ensures DecodeCmd(before + (Print(CmdFields(c)) + after)) == Some(c)
    ensures DecodeEvent(before + (Print(EventFields(ev)) + after)) == Some(ev)
  {
    TrimPrinted(CmdFields(c), before, after);
    ParsePrint(CmdFields(c));
    CmdOfFields(c);
    TrimPrinted(EventFields(ev), before, after);
    ParsePrint(EventFields(ev));
    EventOfFields(ev);
  }

  lemma TrimPrinted(o: Object, before: string, after: string)
    requires forall c :: c in before + after ==> IsWhitespace(c)
    ensures Trim(before + (Print(o) + after)) == Print(o)
  {
    var p := Print(o);
    assert p[0] == '{' && p[|p| - 1] == '}';
    TrimPadded(before, p, after);
  }

  /** Members that a message does not declare are ignored, wherever they stand, if they do not repeat one. */
  lemma {:induction false} FindSkipsExtra(o: Object, extra: Field, i: nat, name: string)
    requires i <= |o| && extra.name != name
    ensures Find(o[..i] + [extra] + o[i..], name) == Find(o, name)
  {
    var longer := o[..i] + [extra] + o[i..];
    if i == 0 {
      assert longer == [extra] + o;
      FindNext(extra, o, name);
    } else {
      assert longer[0] == o[0] && longer[1..] == o[1..][..i - 1] + [extra] + o[1..][i - 1..];
      FindSkipsExtra(o[1..], extra, i - 1, name);
    }
  }

  predicate Declared(name: string) {
    name in ["event", "proto", "version", "core", "rpc_port", "pid", "reason", "code", "signal", "msg", "owner"]
  }

  /** So what a newer supervisor adds to an event does not change how the client reads it. */
  lemma ForwardCompatible(o: Object, extra: Field, i: nat)
    requires i <= |o| && !Declared(extra.name)
    ensures EventOf(o[..i] + [extra] + o[i..]) == EventOf(o)
  {
    var names := ["event", "proto", "version", "core", "rpc_port", "pid", "reason", "code", "signal", "msg", "owner"];
    forall k | 0 <= k < |names| ensures Find(o[..i] + [extra] + o[i..], names[k]) == Find(o, names[k]) {
      FindSkipsExtra(o, extra, i, names[k]);
    }
    assert names[0] == "event" && names[1] == "proto" && names[2] == "version" && names[3] == "core"
           && names[4] == "rpc_port" && names[5] == "pid" && names[6] == "reason" && names[7] == "code"
           && names[8] == "signal" && names[9] == "msg" && names[10] == "owner";
  }

  /** And an event of a kind the client does not know is `Unknown`, not an error, whatever it carries. */
  lemma NewEventIsUnknown(tag: string, rest: Object)
    requires forall i :: 0 <= i < |rest| ==> rest[i].name != "event"
    requires tag !in ["hello", "core_started", "status", "core_stopped", "core_exited", "error", "busy", "kicked"]
    ensures EventOf([Field("event", Str(tag))] + rest) == Some(Unknown)
  {
    FindAbsent(rest, "event");
    FindHere(Field("event", Str(tag)), rest, "event");
    var tags := ["hello", "core_started", "status", "core_stopped", "core_exited", "error", "busy", "kicked"];
    assert forall i :: 0 <= i < |tags| ==> tags[i] in tags;
    assert tags[0] == "hello" && tags[1] == "core_started" && tags[2] == "status" && tags[3] == "core_stopped"
           && tags[4] == "core_exited" && tags[5] == "error" && tags[6] == "busy" && tags[7] == "kicked";
  }

  /** A hello without `takeover` does not ask for one. */
  lemma TakeoverDefaults(proto: U32)
    ensures CmdOf([Field("cmd", Str("hello")), Field("proto", Int(proto))]) == Some(Cmd.Hello(proto, false))
  {
    var o := [Field("cmd", Str("hello")), Field("proto", Int(proto))];
    FindAt(o, 0);
    FindAt(o, 1);
    FindAbsent(o, "takeover");
  }

  /** What the client takes a member for that an event leaves out. */
  lemma EventDefaults(proto: U32, core: CoreState)
    ensures EventOf([Field("event", Str("hello")), Field("proto", Int(proto)), Field("core", Str(CoreName(core)))])
         == Some(Event.Hello(proto, "", core, Option.None))
    ensures EventOf([Field("event", Str("status")), Field("core", Str(CoreName(core)))])
         == Some(Event.Status(core, Option.None, Option.None))
    ensures EventOf([Field("event", Str("core_stopped"))]) == Some(CoreStopped(""))
    ensures EventOf([Field("event", Str("core_exited"))]) == Some(CoreExited(Option.None, Option.None))
    ensures EventOf([Field("event", Str("error"))]) == Some(Error("", ""))
    ensures EventOf([Field("event", Str("busy"))]) == Some(Busy(false))
  {
    HelloDefaults(proto, core);
    StatusDefaults(core);
    LoneTag("core_stopped");
    LoneTag("core_exited");
    LoneTag("error");
    LoneTag("busy");
  }

  lemma HelloDefaults(proto: U32, core: CoreState)
    ensures EventOf([Field("event", Str("hello")), Field("proto", Int(proto)), Field("core", Str(CoreName(core)))])
         == Some(Event.Hello(proto, "", core, Option.None))
  {
    var o := [Field("event", Str("hello")), Field("proto", Int(proto)), Field("core", Str(CoreName(core)))];
    assert DistinctNames(o);
    FindAt(o, 0);
    FindAt(o, 1);
    FindAt(o, 2);
    FindAbsent(o, "version");
    FindAbsent(o, "rpc_port");
  }

  lemma StatusDefaults(core: CoreState)
    ensures EventOf([Field("event", Str("status")), Field("core", Str(CoreName(core)))])
         == Some(Event.Status(core, Option.None, Option.None))
  {
    var o := [Field("event", Str("status")), Field("core", Str(CoreName(core)))];
    assert DistinctNames(o);
    FindAt(o, 0);
    FindAt(o, 1);
    FindAbsent(o, "pid");
    FindAbsent(o, "rpc_port");
  }

  lemma LoneTag(tag: string)
    ensures var o := [Field("event", Str(tag))];
            && Find(o, "event") == One(Str(tag))
            && forall name :: name != "event" ==> Find(o, name) == Missing
  {
    var o := [Field("event", Str(tag))];
    FindAt(o, 0);
    forall name | name != "event" ensures Find(o, name) == Missing { FindAbsent(o, name); }
  }

  /** A pid or a port that does not fit its type is refused. */
  lemma RangesAreChecked(pid: int, port: int)
    ensures EventOf([Field("event", Str("core_started")), Field("pid", Int(pid)), Field("rpc_port", Int(port))])
         == if -0x8000_0000 <= pid < 0x8000_0000 && 0 <= port < 0x1_0000 then Some(CoreStarted(pid, port)) else None
  {
    var o := [Field("event", Str("core_started")), Field("pid", Int(pid)), Field("rpc_port", Int(port))];
    assert DistinctNames(o);
    FindAt(o, 0);
    FindAt(o, 1);
    FindAt(o, 2);
  }

  /** A command the supervisor does not know is refused, and so is a hello without its protocol. */
  lemma UnknownCommandIsRefused(tag: string)
    ensures tag !in ["hello", "start", "status", "stop"] ==> CmdOf([Field("cmd", Str(tag))]) == None
    ensures CmdOf([Field("cmd", Str("hello"))]) == None && CmdOf([]) == None
  {
    FindAt([Field("cmd", Str(tag))], 0);
    FindAt([Field("cmd", Str("hello"))], 0);
    FindAbsent([Field("cmd", Str("hello"))], "proto");
    var tags := ["hello", "start", "status", "stop"];
    assert forall i :: 0 <= i < |tags| ==> tags[i] in tags;
    assert tags[0] == "hello" && tags[1] == "start" && tags[2] == "status" && tags[3] == "stop";
  }
}
