/** The orphan sweep: which lines of a `ps` listing name a leftover core, and what is done about them. */
module Janitor {
  import opened Text

  /** Rust's `str::lines`: cut at newlines, without the newline and the carriage return before it. */
  function Lines(text: string): seq<string>
    decreases |text|
  {
    if text == "" then []
    else
      var n := LineEnd(text);
      if n == |text| then [text] else [StripReturn(text[..n])] + Lines(text[n + 1..])
  }

  function LineEnd(text: string): (n: nat)
    ensures n <= |text|
    ensures n < |text| ==> text[n] == '\n'
    ensures forall i :: 0 <= i < n ==> text[i] != '\n'
  {
    if text == "" || text[0] == '\n' then 0 else LineEnd(text[1..]) + 1
  }

  function StripReturn(line: string): string {
    if line != "" && line[|line| - 1] == '\r' then line[..|line| - 1] else line
  }

  /** Rust's `str::parse::<i32>`. */
  function ParseI32(s: string): (r: Option<int>)
    ensures r.Some? ==> -0x8000_0000 <= r.value < 0x8000_0000
  {
    var signed := s != "" && (s[0] == '-' || s[0] == '+');
    var digits := if signed then s[1..] else s;
    if digits == "" || !AllDigits(digits) then None
    else
      var n := if signed && s[0] == '-' then -(NumeralValue(digits) as int) else NumeralValue(digits);
      if -0x8000_0000 <= n < 0x8000_0000 then Some(n) else None
  }

  function WordEnd(s: string): (n: nat)
    ensures n <= |s|
    ensures n < |s| ==> IsWhitespace(s[n])
    ensures forall i :: 0 <= i < n ==> !IsWhitespace(s[i])
  {
    if s == "" || IsWhitespace(s[0]) then 0 else WordEnd(s[1..]) + 1
  }

  datatype Process = Process(pid: int, args: string)

  /** `<pid> <arguments joined by spaces>`, with the column padding that `ps` adds. */
  function ParseLine(line: string): Option<Process> {
    var s := TrimStart(line);
    var n := WordEnd(s);
    match ParseI32(s[..n])
    case None => None
    case Some(pid) => Some(Process(pid, if n < |s| then TrimStart(s[n + 1..]) else ""))
  }

  predicate Argv0Matches(args: string, corePath: string) {
    args == corePath || corePath + " " <= args
  }

  predicate IsTarget(p: Process, selfPid: int, exclude: Option<int>, corePath: string) {
    p.pid != selfPid && Some(p.pid) != exclude && Argv0Matches(p.args, corePath)
  }

  /** The pid that a line gives to kill, if any. */
  function TargetOf(line: string, selfPid: int, exclude: Option<int>, corePath: string): seq<int> {
    match ParseLine(line)
    case None => []
    case Some(p) => if IsTarget(p, selfPid, exclude, corePath) then [p.pid] else []
  }

  function TargetLists(lines: seq<string>, selfPid: int, exclude: Option<int>, corePath: string): (r: seq<seq<int>>)
    ensures |r| == |lines|
    ensures forall i :: 0 <= i < |lines| ==> r[i] == TargetOf(lines[i], selfPid, exclude, corePath)
  {
    seq(|lines|, i requires 0 <= i < |lines| => TargetOf(lines[i], selfPid, exclude, corePath))
  }

  /** The pids to kill, in the order of the listing. */
  function TargetsIn(lines: seq<string>, selfPid: int, exclude: Option<int>, corePath: string): seq<int> {
    Flatten(TargetLists(lines, selfPid, exclude, corePath))
  }

  function Targets(listing: string, selfPid: int, exclude: Option<int>, corePath: string): seq<int> {
    TargetsIn(Lines(listing), selfPid, exclude, corePath)
  }

  /** How many kills succeeded. */
  function Successes(answers: seq<bool>): (n: nat)
    ensures n > 0 <==> true in answers
  {
    if answers == [] then 0
    else
      var rest := answers[..|answers| - 1];
      assert answers == rest + [answers[|answers| - 1]];
      Successes(rest) + (if answers[|answers| - 1] then 1 else 0)
  }

  lemma SuccessesPush(answers: seq<bool>, ok: bool)
    ensures Successes(answers + [ok]) == Successes(answers) + (if ok then 1 else 0)
  {
    assert (answers + [ok])[..|answers|] == answers;
  }

  /** The part of the loop body that decides about one line. */
  method Examine(line: string, selfPid: int, exclude: Option<int>, corePath: string) returns (target: Option<int>)
    ensures TargetOf(line, selfPid, exclude, corePath) == match target case None => [] case Some(pid) => [pid]
  {
    var parsed := ParseLine(line);
    if parsed.None? {
      return None;
    }
    var pid, args := parsed.value.pid, parsed.value.args;
    if pid == selfPid || Some(pid) == exclude {
      return None;
    }
    if !Argv0Matches(args, corePath) {
      return None;
    }
    return Some(pid);
  }

  /** The first `k` lines are done. */
  ghost predicate Swept(lines: seq<string>, k: nat, signalled: seq<int>, selfPid: int, exclude: Option<int>,
                        corePath: string)
  {
    k <= |lines| && signalled == TargetsIn(lines[..k], selfPid, exclude, corePath)
  }

  lemma TargetListsPush(lines: seq<string>, k: nat, selfPid: int, exclude: Option<int>, corePath: string)
    requires k < |lines|
    ensures TargetLists(lines[..k + 1], selfPid, exclude, corePath)
         == TargetLists(lines[..k], selfPid, exclude, corePath) + [TargetOf(lines[k], selfPid, exclude, corePath)]
  {
  }

  lemma SweptOne(lines: seq<string>, k: nat, signalled: seq<int>, selfPid: int, exclude: Option<int>, corePath: string)
    requires Swept(lines, k, signalled, selfPid, exclude, corePath) && k < |lines|
    ensures Swept(lines, k + 1, signalled + TargetOf(lines[k], selfPid, exclude, corePath), selfPid, exclude, corePath)
  {
    TargetListsPush(lines, k, selfPid, exclude, corePath);
    FlattenPush(TargetLists(lines[..k], selfPid, exclude, corePath), TargetOf(lines[k], selfPid, exclude, corePath));
  }

  /**
   * `listing` is None when `ps` could not be run. `signalled` is who was sent SIGKILL, `answers` what the operating
   * system answered each time, `hookFired` whether the `down` hook ran.
   */
  method SweepOrphans(listing: Option<string>, selfPid: int, exclude: Option<int>, corePath: string)
    returns (killed: nat, signalled: seq<int>, answers: seq<bool>, hookFired: bool)
    ensures signalled == if listing.Some? then Targets(listing.value, selfPid, exclude, corePath) else []
    ensures |answers| == |signalled| && killed == Successes(answers)
    ensures hookFired <==> true in answers
  {
    killed, signalled, answers, hookFired := 0, [], [], false;
    if listing.None? {
      return;
    }
    var lines := Lines(listing.value);
    for k := 0 to |lines|
      invariant Swept(lines, k, signalled, selfPid, exclude, corePath)
      invariant |answers| == |signalled| && killed == Successes(answers)
    {
      var target := Examine(lines[k], selfPid, exclude, corePath);
      SweptOne(lines, k, signalled, selfPid, exclude, corePath);
      assert signalled + [] == signalled;
      if target.Some? {
        var ok: bool := *;
        SuccessesPush(answers, ok);
        if ok {
          killed := killed + 1;
        }
        signalled, answers := signalled + [target.value], answers + [ok];
      }
    }
    assert lines[..|lines|] == lines;
    hookFired := killed > 0;
  }

  // ----- the sweep on the listing of a process table

  datatype Row = Row(pad: string, pid: nat, args: string)

  predicate IsRow(r: Row) {
    r.pid < 0x8000_0000 && '\n' !in r.args && forall c :: c in r.pad ==> c == ' '
  }

  function PrintRow(r: Row): string {
    r.pad + (Decimal(r.pid) + (" " + r.args))
  }

  function Listing(rows: seq<Row>): string {
    if rows == [] then "" else PrintRow(rows[0]) + ("\n" + Listing(rows[1..]))
  }

  function ListedArgs(args: string): string {
    TrimStart(StripReturn(args))
  }

  function OrphanIn(r: Row, selfPid: int, exclude: Option<int>, corePath: string): seq<int> {
    if IsTarget(Process(r.pid, ListedArgs(r.args)), selfPid, exclude, corePath) then [r.pid] else []
  }

  function OrphansIn(rows: seq<Row>, selfPid: int, exclude: Option<int>, corePath: string): seq<int> {
    if rows == [] then []
    else OrphanIn(rows[0], selfPid, exclude, corePath) + OrphansIn(rows[1..], selfPid, exclude, corePath)
  }

  lemma ParseI32OfDecimal(n: nat)
    requires n < 0x8000_0000
    ensures ParseI32(Decimal(n)) == Some(n)
  {
    DecimalRoundTrip(n);
    assert Decimal(n)[0] in Decimal(n);
  }

  lemma WordEndIs(w: string, rest: string)
    requires forall i :: 0 <= i < |w| ==> !IsWhitespace(w[i])
    requires rest != "" && IsWhitespace(rest[0])
    ensures WordEnd(w + rest) == |w|
  {
    var s := w + rest;
    assert s[|w|] == rest[0];
    assert forall i :: 0 <= i < |w| ==> s[i] == w[i];
  }

  lemma ParseLineIs(line: string, s: string, n: nat, pid: int)
    requires TrimStart(line) == s && n < |s| && WordEnd(s) == n && ParseI32(s[..n]) == Some(pid)
    ensures ParseLine(line) == Some(Process(pid, TrimStart(s[n + 1..])))
  {
  }

  lemma ParseRow(pad: string, pid: nat, args: string)
    requires pid < 0x8000_0000 && forall c :: c in pad ==> c == ' '
    ensures ParseLine(pad + (Decimal(pid) + (" " + args))) == Some(Process(pid, TrimStart(args)))
  {
    var d := Decimal(pid);
    var s := d + (" " + args);
    forall i | 0 <= i < |d| ensures IsDigit(d[i]) { assert d[i] in d; }
    assert s[0] == d[0];
    TrimStartSkips(pad, s);
    WordEndIs(d, " " + args);
    ParseI32OfDecimal(pid);
    assert s[..|d|] == d && s[|d| + 1..] == args;
    ParseLineIs(pad + s, s, |d|, pid);
  }

  lemma PrintRowIsOneLine(r: Row)
    requires IsRow(r)
    ensures forall i :: 0 <= i < |PrintRow(r)| ==> PrintRow(r)[i] != '\n'
    ensures StripReturn(PrintRow(r)) == r.pad + (Decimal(r.pid) + (" " + StripReturn(r.args)))
  {
    var d := Decimal(r.pid);
    var p := PrintRow(r);
    forall i | 0 <= i < |p| ensures p[i] != '\n' {
      if i < |r.pad| {
        assert p[i] == r.pad[i] && r.pad[i] in r.pad;
      } else if i < |r.pad| + |d| {
        assert p[i] == d[i - |r.pad|] && d[i - |r.pad|] in d;
      } else if i > |r.pad| + |d| {
        assert p[i] == r.args[i - |r.pad| - |d| - 1];
      }
    }
    if r.args != "" {
      assert p[|p| - 1] == r.args[|r.args| - 1];
    }
  }

  lemma TargetOfRow(r: Row, selfPid: int, exclude: Option<int>, corePath: string)
    requires IsRow(r)
    ensures TargetOf(StripReturn(PrintRow(r)), selfPid, exclude, corePath) == OrphanIn(r, selfPid, exclude, corePath)
  {
    PrintRowIsOneLine(r);
    ParseRow(r.pad, r.pid, StripReturn(r.args));
  }

  /**
   * On the listing of any process table the sweep signals exactly the processes, in order, that run under the
   * core's path and are neither this process nor the excluded one.
   */
  lemma {:induction false} SweepOfListing(rows: seq<Row>, selfPid: int, exclude: Option<int>, corePath: string)
    requires forall r :: r in rows ==> IsRow(r)
    ensures Targets(Listing(rows), selfPid, exclude, corePath) == OrphansIn(rows, selfPid, exclude, corePath)
  {
    if rows != [] {
      var r, rest := rows[0], Listing(rows[1..]);
      var line := StripReturn(PrintRow(r));
      assert r in rows && forall x :: x in rows[1..] ==> x in rows;
      SweepOfListing(rows[1..], selfPid, exclude, corePath);
      PrintRowIsOneLine(r);
      LinesOfFirst(PrintRow(r), rest);
      TargetOfRow(r, selfPid, exclude, corePath);
      TargetsInFirst(line, Lines(rest), selfPid, exclude, corePath);
    }
  }

  lemma TargetsInFirst(line: string, rest: seq<string>, selfPid: int, exclude: Option<int>, corePath: string)
    ensures TargetsIn([line] + rest, selfPid, exclude, corePath)
         == TargetOf(line, selfPid, exclude, corePath) + TargetsIn(rest, selfPid, exclude, corePath)
  {
    assert TargetLists([line] + rest, selfPid, exclude, corePath)[1..] == TargetLists(rest, selfPid, exclude, corePath);
  }

  lemma LinesOfFirst(line: string, rest: string)
    requires forall i :: 0 <= i < |line| ==> line[i] != '\n'
    ensures Lines(line + ("\n" + rest)) == [StripReturn(line)] + Lines(rest)
  {
    var text := line + ("\n" + rest);
    var n := LineEnd(text);
    assert text[|line|] == '\n';
    assert forall i :: 0 <= i < |line| ==> text[i] == line[i];
    assert n == |line|;
    assert text[..n] == line && text[n + 1..] == rest;
  }

  // ----- what matching the joined command line says about argv[0]

  function Join(argv: seq<string>): string
    requires argv != []
  {
    if |argv| == 1 then argv[0] else argv[0] + (" " + Join(argv[1..]))
  }

  /** Neither is the other with a space and something after it. */
  predicate Apart(a: string, p: string) {
    !(a + " " <= p) && !(p + " " <= a)
  }

  /**
   * The matcher looks at the joined command line. It takes a process for a core if argv[0] is the path, if argv[0]
   * is the path with a space and something after it, or if the path is argv[0], a space and what the other
   * arguments spell.
   */
  lemma MatchIs(argv: seq<string>, corePath: string)
    requires argv != []
    ensures Argv0Matches(Join(argv), corePath) <==>
              || argv[0] == corePath
              || corePath + " " <= argv[0]
              || (argv[0] + " " <= corePath && |argv| > 1
                  && Argv0Matches(Join(argv[1..]), corePath[|argv[0]| + 1..]))
  {
    var a, line := argv[0], Join(argv);
    if |argv| > 1 {
      LineMatches(a, Join(argv[1..]), corePath);
    }
  }

  lemma LineMatches(a: string, rest: string, p: string)
    ensures Argv0Matches(a + (" " + rest), p) <==>
              a == p || p + " " <= a || (a + " " <= p && Argv0Matches(rest, p[|a| + 1..]))
  {
    var line := a + (" " + rest);
    assert line[|a|] == ' ' && line[|a| + 1..] == rest && line[..|a|] == a;
    if |p| < |a| {
      assert p + " " <= line <==> p + " " <= a;
    } else if |p| == |a| {
      assert p + " " <= line <==> p == a;
    } else if a + " " <= p {
      var q := p[|a| + 1..];
      assert p == a + (" " + q);
      SamePrefix(a, rest, q);
    } else {
      assert line[..|a| + 1] == a + " ";
    }
  }

  lemma SamePrefix(a: string, rest: string, q: string)
    ensures Argv0Matches(a + (" " + rest), a + (" " + q)) <==> Argv0Matches(rest, q)
  {
    var line, p := a + (" " + rest), a + (" " + q);
    assert line[|a| + 1..] == rest && p[|a| + 1..] == q;
    if q + " " <= rest {
      var more := rest[|q| + 1..];
      assert rest == q + " " + more;
      assert line == p + " " + more;
    }
    if p + " " <= line {
      assert line[|a| + 1..][..|q| + 1] == q + " ";
    }
  }

  /**
   * The exact condition on argv[0]: the matcher decides it, whatever the other arguments, if and only if argv[0] and
   * the path are apart.
   */
  lemma MatcherIsExact(a: string, corePath: string)
    ensures (forall args: seq<string> :: Argv0Matches(Join([a] + args), corePath) <==> a == corePath)
            <==> Apart(a, corePath)
  {
    if Apart(a, corePath) {
      forall args: seq<string> ensures Argv0Matches(Join([a] + args), corePath) <==> a == corePath {
        MatchIs([a] + args, corePath);
      }
    } else if a + " " <= corePath {
      var args := [corePath[|a| + 1..]];
      assert ([a] + args)[1..] == args;
      assert corePath == a + (" " + args[0]);
      assert Argv0Matches(Join([a] + args), corePath) && a != corePath;
    } else {
      assert Join([a] + []) == a;
      assert Argv0Matches(Join([a] + []), corePath) && a != corePath;
    }
  }

  /** A stranger can match: here a program `/Apps/Easy` with the argument `Tier/core`. */
  lemma StrangerCanMatch() returns (argv: seq<string>, corePath: string)
    ensures argv != [] && argv[0] != corePath && Argv0Matches(Join(argv), corePath)
  {
    argv, corePath := ["/Apps/Easy", "Tier/core"], "/Apps/Easy Tier/core";
    assert argv[1..] == ["Tier/core"];
    assert Join(["Tier/core"]) == "Tier/core";
    assert Join(argv) == "/Apps/Easy" + (" " + "Tier/core");
  }

  // ----- the sweep on the processes themselves

  datatype Task = Task(pid: nat, argv0: string, args: seq<string>)

  function CommandLine(t: Task): string {
    Join([t.argv0] + t.args)
  }

  /** What the sweep sees of a process: its line without the white space and the carriage return that it cuts off. */
  function Seen(t: Task): string {
    ListedArgs(CommandLine(t))
  }

  /** Its line is not broken in two, and its pid is a pid. */
  predicate IsListed(t: Task) {
    t.pid < 0x8000_0000 && '\n' !in CommandLine(t)
  }

  predicate IsOurs(t: Task, selfPid: int, exclude: Option<int>, corePath: string) {
    t.argv0 == corePath && t.pid != selfPid && Some(t.pid as int) != exclude
  }

  /** The sweep takes it for a core, and it is none. */
  predicate IsMistaken(t: Task, selfPid: int, exclude: Option<int>, corePath: string) {
    t.argv0 != corePath && t.pid != selfPid && Some(t.pid as int) != exclude && Argv0Matches(Seen(t), corePath)
  }

  function CoresIn(tasks: seq<Task>, selfPid: int, exclude: Option<int>, corePath: string): seq<int> {
    if tasks == [] then []
    else (if IsOurs(tasks[0], selfPid, exclude, corePath) then [tasks[0].pid] else [])
         + CoresIn(tasks[1..], selfPid, exclude, corePath)
  }

  /** The rows of the listing; `pads` is the column padding. */
  function TaskRows(pads: seq<string>, tasks: seq<Task>): (rows: seq<Row>)
    requires |pads| == |tasks|
  {
    if tasks == [] then []
    else [Row(pads[0], tasks[0].pid, CommandLine(tasks[0]))] + TaskRows(pads[1..], tasks[1..])
  }

  /** A path that survives what the sweep cuts off a line. */
  predicate IsPath(p: string) {
    p != "" && !IsWhitespace(p[0]) && p[|p| - 1] != '\r'
  }

  /** No process of ours is missed. */
  lemma OursAreSeen(t: Task, corePath: string)
    requires IsPath(corePath) && t.argv0 == corePath
    ensures Argv0Matches(Seen(t), corePath)
  {
    var line := CommandLine(t);
    assert corePath <= line && (|corePath| < |line| ==> line[|corePath|] == ' ');
    var kept := StripReturn(line);
    assert corePath <= kept && (|corePath| < |kept| ==> kept[|corePath|] == ' ');
    assert kept[0] == corePath[0];
  }

  lemma OrphanOfTask(pad: string, t: Task, selfPid: int, exclude: Option<int>, corePath: string)
    requires IsPath(corePath)
    ensures OrphanIn(Row(pad, t.pid, CommandLine(t)), selfPid, exclude, corePath)
         == if IsOurs(t, selfPid, exclude, corePath) || IsMistaken(t, selfPid, exclude, corePath) then [t.pid] else []
  {
    if t.argv0 == corePath {
      OursAreSeen(t, corePath);
    }
  }

  lemma {:induction false} RowsAreRows(pads: seq<string>, tasks: seq<Task>)
    requires |pads| == |tasks| && forall p, c :: p in pads && c in p ==> c == ' '
    requires forall t :: t in tasks ==> IsListed(t)
    ensures forall r :: r in TaskRows(pads, tasks) ==> IsRow(r)
  {
    if tasks != [] {
      assert pads[0] in pads && tasks[0] in tasks;
      RowsAreRows(pads[1..], tasks[1..]);
      var first, rest := Row(pads[0], tasks[0].pid, CommandLine(tasks[0])), TaskRows(pads[1..], tasks[1..]);
      assert IsRow(first);
      forall r | r in TaskRows(pads, tasks) ensures IsRow(r) { assert r == first || r in rest; }
    }
  }

  /** No process of the list is mistaken for a core. */
  predicate NoneMistaken(tasks: seq<Task>, selfPid: int, exclude: Option<int>, corePath: string) {
    forall t :: t in tasks ==> !IsMistaken(t, selfPid, exclude, corePath)
  }

  lemma NoneMistakenSplits(tasks: seq<Task>, selfPid: int, exclude: Option<int>, corePath: string)
    requires tasks != []
    ensures NoneMistaken(tasks, selfPid, exclude, corePath) <==>
              !IsMistaken(tasks[0], selfPid, exclude, corePath) && NoneMistaken(tasks[1..], selfPid, exclude, corePath)
  {
    assert tasks == [tasks[0]] + tasks[1..];
  }

  lemma {:induction false} OrphansOfTasks(pads: seq<string>, tasks: seq<Task>, selfPid: int, exclude: Option<int>,
                                          corePath: string)
    requires |pads| == |tasks| && IsPath(corePath)
    ensures var found, cores := OrphansIn(TaskRows(pads, tasks), selfPid, exclude, corePath),
                                CoresIn(tasks, selfPid, exclude, corePath);
            && |found| >= |cores|
            && (if NoneMistaken(tasks, selfPid, exclude, corePath) then found == cores else |found| > |cores|)
  {
    if tasks != [] {
      OrphanOfTask(pads[0], tasks[0], selfPid, exclude, corePath);
      OrphansOfTasks(pads[1..], tasks[1..], selfPid, exclude, corePath);
      NoneMistakenSplits(tasks, selfPid, exclude, corePath);
      assert TaskRows(pads, tasks)[1..] == TaskRows(pads[1..], tasks[1..]);
    }
  }

  /**
   * On the listing of any processes the sweep signals exactly those, in order, whose argv[0] is the core's path and
   * that are neither this process nor the excluded one, if and only if none of the others is mistaken for one.
   */
  lemma SweepOfProcesses(pads: seq<string>, tasks: seq<Task>, selfPid: int, exclude: Option<int>, corePath: string)
    requires |pads| == |tasks| && forall p, c :: p in pads && c in p ==> c == ' '
    requires (forall t :: t in tasks ==> IsListed(t)) && IsPath(corePath)
    ensures Targets(Listing(TaskRows(pads, tasks)), selfPid, exclude, corePath)
            == CoresIn(tasks, selfPid, exclude, corePath)
            <==> NoneMistaken(tasks, selfPid, exclude, corePath)
  {
    RowsAreRows(pads, tasks);
    SweepOfListing(TaskRows(pads, tasks), selfPid, exclude, corePath);
    OrphansOfTasks(pads, tasks, selfPid, exclude, corePath);
  }

  /** The pids in it are those of the cores and no others. */
  lemma {:induction false} CoresAre(tasks: seq<Task>, selfPid: int, exclude: Option<int>, corePath: string, pid: int)
    ensures pid in CoresIn(tasks, selfPid, exclude, corePath) <==>
              pid != selfPid && Some(pid) != exclude && exists t :: t in tasks && t.argv0 == corePath && t.pid == pid
  {
    if tasks != [] {
      CoresAre(tasks[1..], selfPid, exclude, corePath, pid);
      assert tasks == [tasks[0]] + tasks[1..];
    }
  }

  /** Nothing is cut off its line. */
  predicate IsUncut(t: Task) {
    t.argv0 != "" && !IsWhitespace(t.argv0[0]) && StripReturn(CommandLine(t)) == CommandLine(t)
  }

  /**
   * Which process is mistaken: an argv[0] apart from the path never is; one that is the path with a space and more
   * always; and one that the path extends by a space and more if its other arguments go on to spell the rest.
   */
  lemma WhoIsMistaken(t: Task, selfPid: int, exclude: Option<int>, corePath: string)
    requires IsUncut(t) && t.argv0 != corePath && t.pid != selfPid && Some(t.pid as int) != exclude
    ensures IsMistaken(t, selfPid, exclude, corePath) <==>
              || corePath + " " <= t.argv0
              || (t.argv0 + " " <= corePath && t.args != []
                  && Argv0Matches(Join(t.args), corePath[|t.argv0| + 1..]))
    ensures Apart(t.argv0, corePath) ==> !IsMistaken(t, selfPid, exclude, corePath)
  {
    var argv := [t.argv0] + t.args;
    assert argv[1..] == t.args;
    assert CommandLine(t) != "" && CommandLine(t)[0] == t.argv0[0];
    assert Seen(t) == CommandLine(t);
    MatchIs(argv, corePath);
  }
}
