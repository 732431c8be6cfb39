/**
 * The quoting pipeline of the installer: paths become shell words, the words become a command, and the command
 * becomes a string literal inside an AppleScript statement. `osascript` undoes the literal and hands the command
 * to the shell, which undoes the words.
 */
module Quoting {
  import opened Text

  /** Rust's `str::replace` of one character. */
  function Replace(s: string, c: char, to: string): string {
    if s == [] then [] else (if s[0] == c then to else [s[0]]) + Replace(s[1..], c, to)
  }

  function ShellQuote(s: string): string {
    "'" + Replace(s, '\'', "'\\''") + "'"
  }

  function AppleScriptEscape(s: string): string {
    Replace(Replace(s, '\\', "\\\\"), '"', "\\\"")
  }

  function Flag(name: string): string {
    " " + name + " "
  }

  const SUPERVISOR_BIN := "--supervisor-bin"
  const CORE_BIN := "--core-bin"
  const OWNER_UID := "--owner-uid"

  function InstallCommand(script: string, supervisor: string, core: string, uid: nat): string {
    ShellQuote(script) + (Flag(SUPERVISOR_BIN) + (ShellQuote(supervisor)
      + (Flag(CORE_BIN) + (ShellQuote(core) + (Flag(OWNER_UID) + Decimal(uid))))))
  }

  function InstallArguments(script: string, supervisor: string, core: string, uid: nat): seq<string> {
    [script, SUPERVISOR_BIN, supervisor, CORE_BIN, core, OWNER_UID, Decimal(uid)]
  }

  function UninstallCommand(script: string): string {
    ShellQuote(script)
  }

  const STATEMENT_HEAD := "do shell script \""
  const STATEMENT_TAIL := "\" with administrator privileges"

  function Statement(rawCmd: string): string {
    STATEMENT_HEAD + AppleScriptEscape(rawCmd) + STATEMENT_TAIL
  }

  // ----- the readers

  /** An AppleScript string literal from after its opening quote: its value and the text after the closing one. */
  function ReadLiteral(s: string): Option<(string, string)> {
    if s == [] then None
    else if s[0] == '"' then Some(("", s[1..]))
    else if s[0] != '\\' then
      match ReadLiteral(s[1..])
      case None => None
      case Some((t, rest)) => Some(([s[0]] + t, rest))
    else if |s| == 1 || s[1] !in "\\\"ntr" then None
    else
      match ReadLiteral(s[2..])
      case None => None
      case Some((t, rest)) =>
        var c := match s[1] case 'n' => '\n' case 't' => '\t' case 'r' => '\r' case c => c;
        Some(([c] + t, rest))
  }

  /** The command of a `do shell script` statement that asks for administrator privileges. */
  function ReadStatement(s: string): Option<string> {
    if !("do shell script \"" <= s) then None
    else
      match ReadLiteral(s[|"do shell script \""|..])
      case None => None
      case Some((t, rest)) => if rest == " with administrator privileges" then Some(t) else None
  }

  /** Where the shell stands: between words, or in a word outside or inside single quotes. */
  datatype ShellState = Between | Bare(word: string) | Quoted(word: string)

  /** Characters that mean something to the shell when they are not quoted (section 2.2 of its standard). */
  predicate IsSpecial(c: char) {
    c in "|&;<>()$`\"\n*?[#~=%"
  }

  function Joined(st: ShellState): string {
    if st.Between? then "" else st.word
  }

  /**
   * The words of a command of literal text, escaped characters (section 2.2.1 of the Shell Command Language of
   * IEEE Std 1003.1) and single quotes (section 2.2.2). None if the text is anything more than that, ends inside
   * quotes, or holds a NUL, which no argument can.
   */
  function ShellWords(s: string, st: ShellState): Option<seq<string>> {
    if s == [] then (if st.Quoted? then None else if st.Bare? then Some([st.word]) else Some([]))
    else if s[0] == '\0' then None
    else if st.Quoted? then ShellWords(s[1..], if s[0] == '\'' then Bare(st.word) else Quoted(st.word + [s[0]]))
    else if s[0] == '\'' then ShellWords(s[1..], Quoted(Joined(st)))
    else if s[0] == '\\' then
      if |s| == 1 || s[1] == '\0' || s[1] == '\n' then None
      else ShellWords(s[2..], Bare(Joined(st) + [s[1]]))
    else if s[0] == ' ' || s[0] == '\t' then
      match ShellWords(s[1..], Between)
      case None => None
      case Some(ws) => Some(if st.Bare? then [st.word] + ws else ws)
    else if IsSpecial(s[0]) then None
    else ShellWords(s[1..], Bare(Joined(st) + [s[0]]))
  }

  // ----- the AppleScript layer

  function OnePassEscape(s: string): string {
    if s == [] then []
    else (if s[0] == '\\' || s[0] == '"' then ['\\', s[0]] else [s[0]]) + OnePassEscape(s[1..])
  }

  /** The two sequential replacements amount to escaping each character once. */
  lemma {:induction false} EscapeIsOnePass(s: string)
    ensures AppleScriptEscape(s) == OnePassEscape(s)
  {
    if s != [] {
      EscapeIsOnePass(s[1..]);
      var rest := Replace(s[1..], '\\', "\\\\");
      if s[0] == '\\' {
        var once := "\\\\" + rest;
        assert once[1..] == "\\" + rest && ("\\" + rest)[1..] == rest;
        assert Replace(once, '"', "\\\"") == "\\" + ("\\" + Replace(rest, '"', "\\\""));
      } else {
        var once := [s[0]] + rest;
        assert once[1..] == rest;
      }
    }
  }

  function EscapeInOtherOrder(s: string): string {
    Replace(Replace(s, '"', "\\\""), '\\', "\\\\")
  }

  lemma {:induction false} OtherOrderLength(s: string)
    ensures |EscapeInOtherOrder(s)| >= |OnePassEscape(s)|
    ensures EscapeInOtherOrder(s) == OnePassEscape(s) <==> '"' !in s
    ensures '"' in s ==> |EscapeInOtherOrder(s)| > |OnePassEscape(s)|
  {
    if s != [] {
      OtherOrderLength(s[1..]);
      var rest := Replace(s[1..], '"', "\\\"");
      if s[0] == '"' {
        var once := "\\\"" + rest;
        assert once[1..] == "\"" + rest && ("\"" + rest)[1..] == rest;
        assert Replace(once, '\\', "\\\\") == "\\\\" + ("\"" + Replace(rest, '\\', "\\\\"));
      } else {
        var once := [s[0]] + rest;
        assert once[1..] == rest;
        assert '"' in s <==> '"' in s[1..];
      }
    }
  }

  /** Order matters: the other order is right exactly for the commands without a double quote. */
  lemma OrderMatters(s: string)
    ensures EscapeInOtherOrder(s) == AppleScriptEscape(s) <==> '"' !in s
  {
    OtherOrderLength(s);
    EscapeIsOnePass(s);
  }

  lemma ReadEscaped(c: char, tail: string)
    requires c == '\\' || c == '"'
    ensures ReadLiteral(['\\', c] + tail)
         == match ReadLiteral(tail) case None => None case Some((t, rest)) => Some(([c] + t, rest))
  {
    var s := ['\\', c] + tail;
    assert s[0] == '\\' && s[1] == c && s[2..] == tail;
  }

  lemma ReadUnescaped(c: char, tail: string)
    requires c != '\\' && c != '"'
    ensures ReadLiteral([c] + tail)
         == match ReadLiteral(tail) case None => None case Some((t, rest)) => Some(([c] + t, rest))
  {
    assert ([c] + tail)[1..] == tail;
  }

  lemma Regroup(a: string, b: string, c: string)
    ensures (a + b) + c == a + (b + c)
  {
  }

  lemma {:induction false} ReadLiteralOfEscaped(s: string, rest: string)
    ensures ReadLiteral(OnePassEscape(s) + ("\"" + rest)) == Some((s, rest))
  {
    var end := "\"" + rest;
    if s == [] {
      assert OnePassEscape(s) + end == end;
      assert end[1..] == rest;
    } else {
      var c, tail := s[0], OnePassEscape(s[1..]) + end;
      ReadLiteralOfEscaped(s[1..], rest);
      assert [c] + s[1..] == s;
      if c == '\\' || c == '"' {
        Regroup(['\\', c], OnePassEscape(s[1..]), end);
        ReadEscaped(c, tail);
      } else {
        Regroup([c], OnePassEscape(s[1..]), end);
        ReadUnescaped(c, tail);
      }
    }
  }

  /** Whatever the command, the statement is one literal followed by its fixed tail, and the literal means it. */
  lemma StatementRoundTrip(rawCmd: string)
    ensures ReadStatement(Statement(rawCmd)) == Some(rawCmd)
  {
    var s := Statement(rawCmd);
    EscapeIsOnePass(rawCmd);
    assert s[|STATEMENT_HEAD|..] == OnePassEscape(rawCmd) + ("\"" + STATEMENT_TAIL[1..]);
    ReadLiteralOfEscaped(rawCmd, STATEMENT_TAIL[1..]);
  }

  // ----- the shell layer

  /** `'\''` closes the quotes, adds a quote character and opens them again. */
  lemma WordsOfQuoteMark(tail: string, word: string)
    ensures ShellWords("'\\''" + tail, Quoted(word)) == ShellWords(tail, Quoted(word + "'"))
  {
    var s := "'\\''" + tail;
    var s1, s2 := "\\''" + tail, "'" + tail;
    assert s[0] == '\'' && s[1..] == s1;
    assert s1[0] == '\\' && s1[1] == '\'' && s1[2..] == s2;
    assert s2[0] == '\'' && s2[1..] == tail;
    assert ShellWords(s, Quoted(word)) == ShellWords(s1, Bare(word));
    assert ShellWords(s1, Bare(word)) == ShellWords(s2, Bare(word + "'"));
  }

  lemma {:induction false} WordsOfQuotedBody(s: string, rest: string, word: string)
    ensures ShellWords(Replace(s, '\'', "'\\''") + ("'" + rest), Quoted(word))
         == if '\0' in s then None else ShellWords(rest, Bare(word + s))
  {
    var body := Replace(s, '\'', "'\\''") + ("'" + rest);
    if s == [] {
      assert body == "'" + rest;
      assert body[1..] == rest && word + s == word;
    } else {
      var tail := Replace(s[1..], '\'', "'\\''") + ("'" + rest);
      WordsOfQuotedBody(s[1..], rest, word + [s[0]]);
      assert word + [s[0]] + s[1..] == word + s;
      if s[0] == '\'' {
        assert body == "'\\''" + tail;
        WordsOfQuoteMark(tail, word);
      } else {
        assert body[0] == s[0] && body[1..] == tail;
      }
    }
  }

  /** A quoted path is one word with the path's own characters, and joins what stands before it. */
  lemma WordsOfQuoted(s: string, rest: string, st: ShellState)
    requires !st.Quoted?
    ensures ShellWords(ShellQuote(s) + rest, st)
         == if '\0' in s then None else ShellWords(rest, Bare(Joined(st) + s))
  {
    var body := Replace(s, '\'', "'\\''");
    assert ShellQuote(s) + rest == "'" + (body + ("'" + rest));
    assert ("'" + (body + ("'" + rest)))[1..] == body + ("'" + rest);
    WordsOfQuotedBody(s, rest, Joined(st));
  }

  predicate IsPlain(s: string) {
    forall i :: 0 <= i < |s| ==> s[i] == '-' || 'a' <= s[i] <= 'z' || IsDigit(s[i])
  }

  lemma {:induction false} WordsOfPlain(p: string, rest: string, st: ShellState)
    requires IsPlain(p) && !st.Quoted? && p != []
    ensures ShellWords(p + rest, st) == ShellWords(rest, Bare(Joined(st) + p))
  {
    var next := Bare(Joined(st) + [p[0]]);
    assert (p + rest)[0] == p[0] && (p + rest)[1..] == p[1..] + rest;
    assert !IsSpecial(p[0]);
    assert ShellWords(p + rest, st) == ShellWords(p[1..] + rest, next);
    if |p| == 1 {
      assert p[1..] + rest == rest && p == [p[0]];
    } else {
      WordsOfPlain(p[1..], rest, next);
      assert Joined(st) + [p[0]] + p[1..] == Joined(st) + p;
    }
  }

  function WithFirst(w: string, ws: Option<seq<string>>): Option<seq<string>> {
    match ws
    case None => None
    case Some(ws) => Some([w] + ws)
  }

  /** A flag after a word ends that word and adds one of its own. */
  lemma WordsOfFlag(w: string, name: string, rest: string)
    requires IsPlain(name) && name != []
    ensures ShellWords(Flag(name) + rest, Bare(w)) == WithFirst(w, WithFirst(name, ShellWords(rest, Between)))
  {
    var s := Flag(name) + rest;
    assert s[0] == ' ' && s[1..] == name + (" " + rest);
    WordsOfPlain(name, " " + rest, Between);
    assert Joined(Between) + name == name;
    assert (" " + rest)[1..] == rest;
  }

  predicate NulFree(s: string) {
    '\0' !in s
  }

  lemma WordsOfQuotedThenFlag(path: string, name: string, rest: string)
    requires IsPlain(name) && name != []
    ensures ShellWords(ShellQuote(path) + (Flag(name) + rest), Between)
         == if NulFree(path) then WithFirst(path, WithFirst(name, ShellWords(rest, Between))) else None
  {
    WordsOfQuoted(path, Flag(name) + rest, Between);
    assert Joined(Between) + path == path;
    WordsOfFlag(path, name, rest);
  }

  lemma WordsOfDecimal(n: nat)
    ensures ShellWords(Decimal(n), Between) == Some([Decimal(n)])
  {
    var d := Decimal(n);
    forall i | 0 <= i < |d| ensures IsDigit(d[i]) { assert d[i] in d; }
    WordsOfPlain(d, "", Between);
    assert d + "" == d && Joined(Between) + d == d;
  }

  /** The shell splits the install command into exactly the intended arguments; only a NUL in a path stops it. */
  lemma InstallWords(script: string, supervisor: string, core: string, uid: nat)
    ensures ShellWords(InstallCommand(script, supervisor, core, uid), Between)
         == if NulFree(script) && NulFree(supervisor) && NulFree(core)
            then Some(InstallArguments(script, supervisor, core, uid)) else None
  {
    var n := Decimal(uid);
    var three := ShellQuote(core) + (Flag(OWNER_UID) + n);
    var two := ShellQuote(supervisor) + (Flag(CORE_BIN) + three);
    WordsOfDecimal(uid);
    WordsOfQuotedThenFlag(core, OWNER_UID, n);
    WordsOfQuotedThenFlag(supervisor, CORE_BIN, three);
    WordsOfQuotedThenFlag(script, SUPERVISOR_BIN, two);
    var w3 := [core, OWNER_UID, n];
    var w2 := [supervisor, CORE_BIN] + w3;
    assert [core] + ([OWNER_UID] + [n]) == w3;
    assert [supervisor] + ([CORE_BIN] + w3) == w2;
    assert [script] + ([SUPERVISOR_BIN] + w2) == InstallArguments(script, supervisor, core, uid);
  }

  lemma UninstallWords(script: string)
    ensures ShellWords(UninstallCommand(script), Between) == if NulFree(script) then Some([script]) else None
  {
    WordsOfQuoted(script, "", Between);
    assert ShellQuote(script) + "" == ShellQuote(script);
    assert Joined(Between) + script == script;
  }

  /** What `osascript` and then the shell make of a statement. */
  function Arguments(statement: string): Option<seq<string>> {
    match ReadStatement(statement)
    case None => None
    case Some(rawCmd) => ShellWords(rawCmd, Between)
  }

  /** Both layers: from paths to a statement, and from the statement back to the argument vector. */
  lemma InstallPipeline(script: string, supervisor: string, core: string, uid: nat)
    ensures Arguments(Statement(InstallCommand(script, supervisor, core, uid)))
         == if NulFree(script) && NulFree(supervisor) && NulFree(core)
            then Some([script, "--supervisor-bin", supervisor, "--core-bin", core, "--owner-uid", Decimal(uid)]) else None
  {
    StatementRoundTrip(InstallCommand(script, supervisor, core, uid));
    InstallWords(script, supervisor, core, uid);
  }

  lemma UninstallPipeline(script: string)
    ensures Arguments(Statement(UninstallCommand(script))) == if NulFree(script) then Some([script]) else None
  {
    StatementRoundTrip(UninstallCommand(script));
    UninstallWords(script);
  }
}
