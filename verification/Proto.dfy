/** Control protocol v1: one JSON object a line. */
module Proto {
  import opened Text
  import opened Json
  import opened Messages

  // ----- encoding

  function CmdFields(c: Cmd): Object {
    match c
    case Hello(proto, takeover) =>
      [Field("cmd", Str("hello")), Field("proto", Int(proto)), Field("takeover", Bool(takeover))]
    case Start => [Field("cmd", Str("start"))]
    case Status => [Field("cmd", Str("status"))]
    case Stop => [Field("cmd", Str("stop"))]
  }

  function EncodeCmd(c: Cmd): string {
    Print(CmdFields(c)) + "\n"
  }

  function CoreName(core: CoreState): string {
    if core.Stopped? then "stopped" else "running"
  }

  function Nullable(n: Option<int>): Value {
    match n
    case None => Null
    case Some(n) => Int(n)
  }

  function EventFields(ev: Event): Object
    requires !ev.Unknown?
  {
    match ev
    case Hello(proto, version, core, port) =>
      [Field("event", Str("hello")), Field("proto", Int(proto)), Field("version", Str(version)),
       Field("core", Str(CoreName(core))), Field("rpc_port", Nullable(port))]
    case CoreStarted(pid, port) =>
      [Field("event", Str("core_started")), Field("pid", Int(pid)), Field("rpc_port", Int(port))]
    case Status(core, pid, port) =>
      [Field("event", Str("status")), Field("core", Str(CoreName(core))), Field("pid", Nullable(pid)),
       Field("rpc_port", Nullable(port))]
    case CoreStopped(reason) => [Field("event", Str("core_stopped")), Field("reason", Str(reason))]
    case CoreExited(code, signal) =>
      [Field("event", Str("core_exited")), Field("code", Nullable(code)), Field("signal", Nullable(signal))]
    case Error(code, msg) => [Field("event", Str("error")), Field("code", Str(code)), Field("msg", Str(msg))]
    case Busy(owner) => [Field("event", Str("busy")), Field("owner", Bool(owner))]
    case Kicked => [Field("event", Str("kicked"))]
  }

  function EncodeEvent(ev: Event): string
    requires !ev.Unknown?
  {
    Print(EventFields(ev)) + "\n"
  }

  // ----- decoding

  datatype Found = Missing | One(value: Value) | Many

  /** A field by name; a name given twice is an error for every field that the variant declares. */
  function Find(o: Object, name: string): Found {
    if o == [] then Missing
    else
      var rest := Find(o[1..], name);
      if o[0].name != name then rest
      else if rest.Missing? then One(o[0].value)
      else Many
  }

  function TextOr(f: Found, default: Option<string>): Option<string> {
    match f
    case Missing => default
    case One(Str(s)) => Some(s)
    case _ => None
  }

  function Flag(f: Found): Option<bool> {
    match f
    case Missing => Some(false)
    case One(Bool(b)) => Some(b)
    case _ => None
  }

  function InRange(f: Found, lo: int, hi: int): (r: Option<int>)
    ensures r.Some? ==> lo <= r.value < hi
  {
    match f
    case One(Int(n)) => if lo <= n < hi then Some(n) else None
    case _ => None
  }

  /** An `Option` field: absent and null both mean none. */
  function OptionalInRange(f: Found, lo: int, hi: int): (r: Option<Option<int>>)
    ensures r.Some? && r.value.Some? ==> lo <= r.value.value < hi
  {
    match f
    case Missing => Some(None)
    case One(Null) => Some(None)
    case One(Int(n)) => if lo <= n < hi then Some(Some(n)) else None
    case _ => None
  }

  function DecodeCore(f: Found): Option<CoreState> {
    match f
    case One(Str(s)) => if s == "stopped" then Some(Stopped) else if s == "running" then Some(Running) else None
    case _ => None
  }

  function CmdOf(o: Object): Option<Cmd> {
    match Find(o, "cmd")
    case One(Str(tag)) =>
      if tag == "hello" then
        match (InRange(Find(o, "proto"), 0, 0x1_0000_0000), Flag(Find(o, "takeover")))
        case (Some(proto), Some(takeover)) => Some(Cmd.Hello(proto, takeover))
        case _ => None
      else if tag == "start" then Some(Start)
      else if tag == "status" then Some(Cmd.Status)
      else if tag == "stop" then Some(Stop)
      else None
    case _ => None
  }

  function DecodeCmd(line: string): Option<Cmd> {
    match Parse(Trim(line))
    case None => None
    case Some(o) => CmdOf(o)
  }

  function I32Option(f: Found): Option<Option<I32>> {
    match OptionalInRange(f, -0x8000_0000, 0x8000_0000)
    case None => None
    case Some(None) => Some(None)
    case Some(Some(n)) => Some(Some(n))
  }

  function U16Option(f: Found): Option<Option<U16>> {
    match OptionalInRange(f, 0, 0x1_0000)
    case None => None
    case Some(None) => Some(None)
    case Some(Some(n)) => Some(Some(n))
  }

  function HelloOf(o: Object): Option<Event> {
    match (InRange(Find(o, "proto"), 0, 0x1_0000_0000), TextOr(Find(o, "version"), Some("")),
           DecodeCore(Find(o, "core")), U16Option(Find(o, "rpc_port")))
    case (Some(proto), Some(version), Some(core), Some(port)) => Some(Event.Hello(proto, version, core, port))
    case _ => None
  }

  function StatusOf(o: Object): Option<Event> {
    match (DecodeCore(Find(o, "core")), I32Option(Find(o, "pid")), U16Option(Find(o, "rpc_port")))
    case (Some(core), Some(pid), Some(port)) => Some(Event.Status(core, pid, port))
    case _ => None
  }

  function StartedOf(o: Object): Option<Event> {
    match (InRange(Find(o, "pid"), -0x8000_0000, 0x8000_0000), InRange(Find(o, "rpc_port"), 0, 0x1_0000))
    case (Some(pid), Some(port)) => Some(CoreStarted(pid, port))
    case _ => None
  }

  function ExitedOf(o: Object): Option<Event> {
    match (I32Option(Find(o, "code")), I32Option(Find(o, "signal")))
    case (Some(code), Some(signal)) => Some(CoreExited(code, signal))
    case _ => None
  }

  function EventOf(o: Object): Option<Event> {
    match Find(o, "event")
    case One(Str(tag)) =>
      if tag == "hello" then HelloOf(o)
      else if tag == "core_started" then StartedOf(o)
      else if tag == "status" then StatusOf(o)
      else if tag == "core_stopped" then
        (match TextOr(Find(o, "reason"), Some(""))
         case None => None
         case Some(reason) => Some(CoreStopped(reason)))
      else if tag == "core_exited" then ExitedOf(o)
      else if tag == "error" then
        (match (TextOr(Find(o, "code"), Some("")), TextOr(Find(o, "msg"), Some("")))
         case (Some(code), Some(msg)) => Some(Error(code, msg))
         case _ => None)
      else if tag == "busy" then
        (match Flag(Find(o, "owner"))
         case None => None
         case Some(owner) => Some(Busy(owner)))
      else if tag == "kicked" then Some(Kicked)
      else Some(Unknown)
    case _ => None
  }

  function DecodeEvent(line: string): Option<Event> {
    match Parse(Trim(line))
    case None => None
    case Some(o) => EventOf(o)
  }

  // ----- the two mirrors agree

  lemma FindNext(f: Field, rest: Object, name: string)
    requires f.name != name
    ensures Find([f] + rest, name) == Find(rest, name)
  {
    assert ([f] + rest)[1..] == rest;
  }

  lemma FindHere(f: Field, rest: Object, name: string)
    requires f.name == name && Find(rest, name) == Missing
    ensures Find([f] + rest, name) == One(f.value)
  {
    assert ([f] + rest)[1..] == rest;
  }

  predicate DistinctNames(o: Object) {
    forall i, j :: 0 <= i < j < |o| ==> o[i].name != o[j].name
  }

  lemma {:induction false} FindAbsent(o: Object, name: string)
    requires forall i :: 0 <= i < |o| ==> o[i].name != name
    ensures Find(o, name) == Missing
  {
    if o != [] {
      FindAbsent(o[1..], name);
    }
  }

  lemma {:induction false} FindAt(o: Object, i: nat)
    requires i < |o| && DistinctNames(o)
    ensures Find(o, o[i].name) == One(o[i].value)
  {
    if i == 0 {
      FindAbsent(o[1..], o[0].name);
    } else {
      FindAt(o[1..], i - 1);
    }
  }

  lemma CmdOfFields(c: Cmd)
    ensures CmdOf(CmdFields(c)) == Some(c)
  {
    var o := CmdFields(c);
    FindAt(o, 0);
    if c.Hello? {
      FindAt(o, 1);
      FindAt(o, 2);
    }
  }

  lemma ParsePrintedLine(o: Object)
    ensures Parse(Trim(Print(o) + "\n")) == Some(o)
  {
    PrintIsOneLine(o);
    ParsePrint(o);
  }

  /** What the client sends is what the supervisor decodes. */
  lemma CmdRoundTrip(c: Cmd)
    ensures DecodeCmd(EncodeCmd(c)) == Some(c)
  {
    ParsePrintedLine(CmdFields(c));
    CmdOfFields(c);
  }

  lemma HelloOfFields(ev: Event)
    requires ev.Hello?
    ensures EventOf(EventFields(ev)) == Some(ev)
  {
    var o := EventFields(ev);
    assert DistinctNames(o);
    FindAt(o, 0); FindAt(o, 1); FindAt(o, 2); FindAt(o, 3); FindAt(o, 4);
  }

  lemma StatusOfFields(ev: Event)
    requires ev.Status?
    ensures EventOf(EventFields(ev)) == Some(ev)
  {
    var o := EventFields(ev);
    assert DistinctNames(o);
    FindAt(o, 0); FindAt(o, 1); FindAt(o, 2); FindAt(o, 3);
  }

  lemma ThreeFields(ev: Event)
    requires ev.CoreStarted? || ev.CoreExited? || ev.Error?
    ensures EventOf(EventFields(ev)) == Some(ev)
  {
    var o := EventFields(ev);
    assert DistinctNames(o);
    FindAt(o, 0); FindAt(o, 1); FindAt(o, 2);
  }

  lemma ShortFields(ev: Event)
    requires ev.CoreStopped? || ev.Busy? || ev.Kicked?
    ensures EventOf(EventFields(ev)) == Some(ev)
  {
    var o := EventFields(ev);
    assert DistinctNames(o);
    FindAt(o, 0);
    if !ev.Kicked? {
      FindAt(o, 1);
    }
  }

  lemma EventOfFields(ev: Event)
    requires !ev.Unknown?
    ensures EventOf(EventFields(ev)) == Some(ev)
  {
    if ev.Hello? {
      HelloOfFields(ev);
    } else if ev.Status? {
      StatusOfFields(ev);
    } else if ev.CoreStopped? || ev.Busy? || ev.Kicked? {
      ShortFields(ev);
    } else {
      ThreeFields(ev);
    }
  }

  /** What the supervisor sends is what the client decodes. */
  lemma EventRoundTrip(ev: Event)
    requires !ev.Unknown?
    ensures DecodeEvent(EncodeEvent(ev)) == Some(ev)
  {
    ParsePrintedLine(EventFields(ev));
    EventOfFields(ev);
  }

  predicate IsOneLine(line: string) {
    line != [] && line[|line| - 1] == '\n' && forall i :: 0 <= i < |line| - 1 ==> line[i] != '\n'
  }

  lemma TerminatedIsOneLine(p: string)
    requires NoControls(p)
    ensures IsOneLine(p + "\n")
  {
  }

  lemma PrintedIsOneLine(o: Object)
    ensures IsOneLine(Print(o) + "\n") && Trim(Print(o) + "\n") != ""
  {
    PrintIsOneLine(o);
    TerminatedIsOneLine(Print(o));
    assert |Print(o)| >= 2;
  }

  /** Every encoded message is exactly one non-blank line, whatever text it carries. */
  lemma EncodedIsOneLine(c: Cmd, ev: Event)
    ensures IsOneLine(EncodeCmd(c)) && Trim(EncodeCmd(c)) != ""
    ensures !ev.Unknown? ==> IsOneLine(EncodeEvent(ev)) && Trim(EncodeEvent(ev)) != ""
  {
    PrintedIsOneLine(CmdFields(c));
    if !ev.Unknown? {
      PrintedIsOneLine(EventFields(ev));
    }
  }
}
