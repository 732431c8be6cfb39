/**
 * The flat JSON objects of the control protocol: strings, integers, booleans and null, in the compact form that
 * `serde_json` prints and with the white space and escapes that it reads (sections 4 to 7 of RFC 8259).
 */
module Json {
  import opened Text

  datatype Value = Str(s: string) | Int(n: int) | Bool(b: bool) | Null
  datatype Field = Field(name: string, value: Value)
  type Object = seq<Field>

  // ----- printing

  function HexDigit(d: nat): char
    requires d < 16
  {
    "0123456789abcdef"[d]
  }

  function EscapeChar(c: char): (e: string)
    ensures e != [] && (c != '"' ==> e[0] != '"')
  {
    if c == '"' then "\\\""
    else if c == '\\' then "\\\\"
    else if c == '\U{0008}' then "\\b"
    else if c == '\t' then "\\t"
    else if c == '\n' then "\\n"
    else if c == '\U{000C}' then "\\f"
    else if c == '\r' then "\\r"
    else if c < ' ' then "\\u00" + [HexDigit(c as int / 16), HexDigit(c as int % 16)]
    else [c]
  }

  function Escape(s: string): string {
    if s == [] then [] else EscapeChar(s[0]) + Escape(s[1..])
  }

  function PrintString(s: string): string {
    "\"" + Escape(s) + "\""
  }

  function PrintValue(v: Value): (p: string)
    ensures p != []
  {
    match v
    case Str(s) => PrintString(s)
    case Int(n) => if n < 0 then "-" + Decimal(-n) else Decimal(n)
    case Bool(b) => if b then "true" else "false"
    case Null => "null"
  }

  function PrintField(f: Field): string {
    PrintString(f.name) + ":" + PrintValue(f.value)
  }

  function PrintFields(o: Object): string {
    if o == [] then ""
    else if |o| == 1 then PrintField(o[0])
    else PrintField(o[0]) + "," + PrintFields(o[1..])
  }

  function Print(o: Object): string {
    "{" + PrintFields(o) + "}"
  }

  // ----- parsing; each parser returns the value read and the rest of the text

  predicate IsSpace(c: char) {
    c == ' ' || c == '\t' || c == '\n' || c == '\r'
  }

  function SkipSpace(s: string): (r: string)
    ensures |r| <= |s|
    ensures s != [] && !IsSpace(s[0]) ==> r == s
  {
    if s != [] && IsSpace(s[0]) then SkipSpace(s[1..]) else s
  }

  function HexValue(c: char): Option<nat> {
    if IsDigit(c) then Some(DigitValue(c))
    else if 'a' <= c <= 'f' then Some(c as int - 'a' as int + 10)
    else if 'A' <= c <= 'F' then Some(c as int - 'A' as int + 10)
    else None
  }

  /** Four hexadecimal digits that name a character outside the surrogate range. */
  function ParseHex4(s: string): (r: Option<(char, string)>)
    ensures r.Some? ==> |r.value.1| < |s|
  {
    if |s| < 4 then None
    else
      match (HexValue(s[0]), HexValue(s[1]), HexValue(s[2]), HexValue(s[3]))
      case (Some(a), Some(b), Some(c), Some(d)) =>
        var n := ((a * 16 + b) * 16 + c) * 16 + d;
        if n < 0xD800 || 0xE000 <= n < 0x1_0000 then Some((n as char, s[4..])) else None
      case _ => None
  }

  /** One character of a string body. */
  function ParseChar(s: string): (r: Option<(char, string)>)
    requires s != []
    ensures r.Some? ==> |r.value.1| < |s|
  {
    if s[0] < ' ' then None
    else if s[0] != '\\' then Some((s[0], s[1..]))
    else if |s| == 1 then None
    else
      match s[1]
      case '"' => Some(('"', s[2..]))
      case '\\' => Some(('\\', s[2..]))
      case '/' => Some(('/', s[2..]))
      case 'b' => Some(('\U{0008}', s[2..]))
      case 't' => Some(('\t', s[2..]))
      case 'n' => Some(('\n', s[2..]))
      case 'f' => Some(('\U{000C}', s[2..]))
      case 'r' => Some(('\r', s[2..]))
      case 'u' => ParseHex4(s[2..])
      case _ => None
  }

  /** A string body up to its closing quote. */
  function ParseBody(s: string): (r: Option<(string, string)>)
    ensures r.Some? ==> |r.value.1| < |s|
    decreases |s|
  {
    if s == [] then None
    else if s[0] == '"' then Some(("", s[1..]))
    else
      match ParseChar(s)
      case None => None
      case Some((c, rest)) =>
        match ParseBody(rest)
        case None => None
        case Some((t, rest')) => Some(([c] + t, rest'))
  }

  function ParseString(s: string): (r: Option<(string, string)>)
    ensures r.Some? ==> |r.value.1| < |s|
  {
    if s == [] || s[0] != '"' then None else ParseBody(s[1..])
  }

  /** A natural number without leading zeros; a fraction or an exponent is not an integer. */
  function ParseNat(s: string): (r: Option<(nat, string)>)
    ensures r.Some? ==> |r.value.1| < |s|
  {
    var k := DigitSpan(s);
    if k == 0 || (s[0] == '0' && k > 1) then None
    else if k < |s| && (s[k] == '.' || s[k] == 'e' || s[k] == 'E') then None
    else Some((NumeralValue(s[..k]), s[k..]))
  }

  function ParseValue(s: string): (r: Option<(Value, string)>)
    ensures r.Some? ==> |r.value.1| < |s|
  {
    if s == [] then None
    else if s[0] == '"' then
      match ParseString(s)
      case None => None
      case Some((t, rest)) => Some((Str(t), rest))
    else if s[0] == '-' then
      match ParseNat(s[1..])
      case None => None
      case Some((n, rest)) => if n == 0 then None else Some((Int(-(n as int)), rest))
    else if s[0] == 't' then (if "true" <= s then Some((Bool(true), s[4..])) else None)
    else if s[0] == 'f' then (if "false" <= s then Some((Bool(false), s[5..])) else None)
    else if s[0] == 'n' then (if "null" <= s then Some((Null, s[4..])) else None)
    else
      match ParseNat(s)
      case None => None
      case Some((n, rest)) => Some((Int(n), rest))
  }

  function ParseField(s: string): (r: Option<(Field, string)>)
    ensures r.Some? ==> |r.value.1| < |s|
  {
    match ParseString(s)
    case None => None
    case Some((name, rest)) =>
      var colon := SkipSpace(rest);
      if colon == [] || colon[0] != ':' then None
      else
        match ParseValue(SkipSpace(colon[1..]))
        case None => None
        case Some((v, rest')) => Some((Field(name, v), rest'))
  }

  /** One or more fields and the closing brace. */
  function ParseFields(s: string): (r: Option<(Object, string)>)
    decreases |s|
  {
    match ParseField(s)
    case None => None
    case Some((f, rest)) =>
      var next := SkipSpace(rest);
      if next == [] then None
      else if next[0] == '}' then Some(([f], next[1..]))
      else if next[0] != ',' then None
      else
        match ParseFields(SkipSpace(next[1..]))
        case None => None
        case Some((fs, rest')) => Some(([f] + fs, rest'))
  }

  /** A whole text that is one object. */
  function Parse(s: string): Option<Object> {
    var open := SkipSpace(s);
    if open == [] || open[0] != '{' then None
    else
      var body := SkipSpace(open[1..]);
      if body != [] && body[0] == '}' then (if SkipSpace(body[1..]) == [] then Some([]) else None)
      else
        match ParseFields(body)
        case None => None
        case Some((o, rest)) => if SkipSpace(rest) == [] then Some(o) else None
  }

  // ----- what is printed is read back

  lemma ParseCharOfEscaped(c: char, rest: string)
    ensures ParseChar(EscapeChar(c) + rest) == Some((c, rest))
  {
    var e := EscapeChar(c);
    var s := e + rest;
    assert forall i :: 0 <= i < |e| ==> s[i] == e[i];
    assert s[|e|..] == rest;
    if |e| == 6 {
      assert forall i :: 0 <= i < 4 ==> s[2..][i] == e[2 + i];
      assert s[2..][4..] == rest;
    }
  }

  lemma {:induction false} ParseBodyOfEscaped(t: string, rest: string)
    ensures ParseBody(Escape(t) + "\"" + rest) == Some((t, rest))
  {
    var s := Escape(t) + "\"" + rest;
    if t == [] {
      assert s == "\"" + rest;
    } else {
      var tail := Escape(t[1..]) + "\"" + rest;
      assert s == EscapeChar(t[0]) + tail;
      ParseCharOfEscaped(t[0], tail);
      ParseBodyOfEscaped(t[1..], rest);
      assert [t[0]] + t[1..] == t;
    }
  }

  lemma ParseStringOfPrinted(t: string, rest: string)
    ensures ParseString(PrintString(t) + rest) == Some((t, rest))
  {
    var body := Escape(t) + "\"" + rest;
    ParseBodyOfEscaped(t, rest);
    assert PrintString(t) + rest == "\"" + body;
    assert ("\"" + body)[1..] == body;
  }

  /** What follows a value inside an object. */
  predicate Delimited(rest: string) {
    rest == [] || rest[0] == ',' || rest[0] == '}'
  }

  lemma ParseNatOfDecimal(n: nat, rest: string)
    requires Delimited(rest)
    ensures ParseNat(Decimal(n) + rest) == Some((n, rest))
  {
    var d := Decimal(n);
    var s := d + rest;
    DigitSpanOf(d, rest);
    DecimalRoundTrip(n);
    assert s[..|d|] == d && s[|d|..] == rest && s[0] == d[0];
  }

  lemma ParseNegativeOfPrinted(n: nat, rest: string)
    requires Delimited(rest) && 0 < n
    ensures ParseValue("-" + Decimal(n) + rest) == Some((Int(-(n as int)), rest))
  {
    var t := Decimal(n) + rest;
    assert "-" + Decimal(n) + rest == "-" + t;
    assert ("-" + t)[1..] == t;
    ParseNatOfDecimal(n, rest);
  }

  lemma ParseNaturalOfPrinted(n: nat, rest: string)
    requires Delimited(rest)
    ensures ParseValue(Decimal(n) + rest) == Some((Int(n), rest))
  {
    var d := Decimal(n);
    assert (d + rest)[0] == d[0] && d[0] in d;
    ParseNatOfDecimal(n, rest);
  }

  lemma PrefixSplits(p: string, rest: string)
    ensures p <= p + rest && (p + rest)[|p|..] == rest
  {
  }

  lemma ParseTextOfPrinted(t: string, rest: string)
    ensures ParseValue(PrintString(t) + rest) == Some((Str(t), rest))
  {
    ParseStringOfPrinted(t, rest);
    assert PrintString(t)[0] == '"';
  }

  lemma ParseWordOfPrinted(v: Value, rest: string)
    requires v.Bool? || v.Null?
    ensures ParseValue(PrintValue(v) + rest) == Some((v, rest))
  {
    PrefixSplits(PrintValue(v), rest);
  }

  lemma ParseValueOfPrinted(v: Value, rest: string)
    requires Delimited(rest)
    ensures ParseValue(PrintValue(v) + rest) == Some((v, rest))
  {
    match v {
      case Str(t) => ParseTextOfPrinted(t, rest);
      case Int(n) =>
        if n < 0 {
          ParseNegativeOfPrinted(-n, rest);
        } else {
          ParseNaturalOfPrinted(n, rest);
        }
      case Bool(_) => ParseWordOfPrinted(v, rest);
      case Null => ParseWordOfPrinted(v, rest);
    }
  }

  lemma ParseFieldOfPrinted(f: Field, rest: string)
    requires Delimited(rest)
    ensures ParseField(PrintField(f) + rest) == Some((f, rest))
  {
    var value := PrintValue(f.value) + rest;
    assert PrintField(f) + rest == PrintString(f.name) + (":" + value);
    ParseStringOfPrinted(f.name, ":" + value);
    assert (":" + value)[1..] == value;
    ParseValueOfPrinted(f.value, rest);
    assert value[0] == PrintValue(f.value)[0];
    assert !IsSpace(value[0]);
  }

  lemma ParseFieldsLast(s: string, f: Field, rest: string)
    requires ParseField(s) == Some((f, "}" + rest))
    ensures ParseFields(s) == Some(([f], rest))
  {
    assert ("}" + rest)[1..] == rest;
  }

  lemma ParseFieldsMore(s: string, f: Field, tail: string, fs: Object, rest: string)
    requires ParseField(s) == Some((f, "," + tail))
    requires tail != [] && !IsSpace(tail[0])
    requires ParseFields(tail) == Some((fs, rest))
    ensures ParseFields(s) == Some(([f] + fs, rest))
  {
    assert ("," + tail)[1..] == tail;
  }

  lemma {:induction false} ParseFieldsOfPrinted(o: Object, rest: string)
    requires o != []
    ensures ParseFields(PrintFields(o) + ("}" + rest)) == Some((o, rest))
  {
    var f, end := o[0], "}" + rest;
    var s := PrintFields(o) + end;
    if |o| == 1 {
      ParseFieldOfPrinted(f, end);
      ParseFieldsLast(s, f, rest);
      assert o == [f];
    } else {
      var inner := PrintFields(o[1..]);
      var tail := inner + end;
      assert s == PrintField(f) + ("," + tail) by {
        ConcatRegroups(PrintField(f), ",", inner, end);
      }
      ParseFieldOfPrinted(f, "," + tail);
      PrintFieldsHead(o[1..]);
      ParseFieldsOfPrinted(o[1..], rest);
      ParseFieldsMore(s, f, tail, o[1..], rest);
      assert o == [f] + o[1..];
    }
  }

  lemma ConcatRegroups(a: string, b: string, c: string, d: string)
    ensures a + b + c + d == a + (b + (c + d))
  {
  }

  lemma PrintFieldsHead(o: Object)
    requires o != []
    ensures PrintFields(o) != [] && PrintFields(o)[0] == '"'
  {
  }

  /** The parser returns exactly the object that was printed. */
  lemma ParsePrint(o: Object)
    ensures Parse(Print(o)) == Some(o)
  {
    var inner := PrintFields(o);
    var s := "{" + inner + "}";
    assert s[0] == '{' && s[1..] == inner + "}";
    if o == [] {
      assert s[1..] == "}";
    } else {
      ParseFieldsOfPrinted(o, "");
      assert "}" + "" == "}";
      PrintFieldsHead(o);
      ParseBraced(s, inner + "}", o);
    }
  }

  lemma ParseBraced(s: string, body: string, o: Object)
    requires s != [] && s[0] == '{' && s[1..] == body
    requires body != [] && body[0] == '"' && ParseFields(body) == Some((o, ""))
    ensures Parse(s) == Some(o)
  {
  }

  // ----- a printed object is one line

  predicate NoControls(s: string) {
    forall i :: 0 <= i < |s| ==> s[i] >= ' '
  }

  lemma NoControlsConcat(s: string, t: string)
    requires NoControls(s) && NoControls(t)
    ensures NoControls(s + t)
  {
  }

  lemma {:induction false} EscapeHasNoControls(s: string)
    ensures NoControls(Escape(s))
  {
    if s != [] {
      EscapeHasNoControls(s[1..]);
      NoControlsConcat(EscapeChar(s[0]), Escape(s[1..]));
    }
  }

  lemma PrintStringHasNoControls(s: string)
    ensures NoControls(PrintString(s))
  {
    EscapeHasNoControls(s);
    NoControlsConcat("\"", Escape(s));
    NoControlsConcat("\"" + Escape(s), "\"");
  }

  lemma DecimalHasNoControls(n: nat)
    ensures NoControls(Decimal(n))
  {
    var d := Decimal(n);
    forall i | 0 <= i < |d| ensures d[i] >= ' ' {
      assert d[i] in d;
    }
  }

  lemma PrintFieldHasNoControls(f: Field)
    ensures NoControls(PrintField(f))
  {
    PrintStringHasNoControls(f.name);
    match f.value {
      case Str(s) => PrintStringHasNoControls(s);
      case Int(n) =>
        DecimalHasNoControls(if n < 0 then -n else n);
        if n < 0 {
          NoControlsConcat("-", Decimal(-n));
        }
      case Bool(b) =>
      case Null =>
    }
    NoControlsConcat(PrintString(f.name), ":");
    NoControlsConcat(PrintString(f.name) + ":", PrintValue(f.value));
  }

  lemma {:induction false} PrintFieldsHasNoControls(o: Object)
    ensures NoControls(PrintFields(o))
  {
    if o != [] {
      PrintFieldHasNoControls(o[0]);
      PrintFieldsHasNoControls(o[1..]);
      NoControlsConcat(PrintField(o[0]), ",");
      NoControlsConcat(PrintField(o[0]) + ",", PrintFields(o[1..]));
    }
  }

  lemma PrintIsOneLine(o: Object)
    ensures NoControls(Print(o))
    ensures Trim(Print(o) + "\n") == Print(o)
  {
    var inner := PrintFields(o);
    PrintFieldsHasNoControls(o);
    NoControlsConcat("{", inner);
    NoControlsConcat("{" + inner, "}");
    var p := "{" + inner + "}";
    assert p[0] == '{' && p[|p| - 1] == '}';
    TrimLine(p);
  }
}
