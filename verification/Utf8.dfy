/** The UTF-8 encoding of Unicode scalar values, section 3 of RFC 3629. A Dafny `char` is a scalar value. */
module Utf8 {
  import opened Text

  newtype byte = b: int | 0 <= b < 256

  const NEWLINE: byte := 10

  /** The scalar values: every code point except the surrogates. */
  predicate IsScalar(n: int) {
    0 <= n < 0xD800 || 0xE000 <= n < 0x11_0000
  }

  function EncodeChar(c: char): (b: seq<byte>)
    ensures 1 <= |b| <= 4
    ensures |b| == 1 <==> c as int < 0x80
    ensures |b| == 1 ==> b[0] as int == c as int
    ensures |b| > 1 ==> forall i :: 0 <= i < |b| ==> 0x80 <= b[i]
  {
    var n := c as int;
    var n1 := n / 0x40;
    var n2 := n1 / 0x40;
    var n3 := n2 / 0x40;
    if n < 0x80 then [n as byte]
    else if n < 0x800 then [(0xC0 + n1) as byte, (0x80 + n % 0x40) as byte]
    else if n < 0x1_0000 then
      [(0xE0 + n2) as byte, (0x80 + n1 % 0x40) as byte, (0x80 + n % 0x40) as byte]
    else
      [(0xF0 + n3) as byte, (0x80 + n2 % 0x40) as byte, (0x80 + n1 % 0x40) as byte, (0x80 + n % 0x40) as byte]
  }

  function Encode(s: string): (b: seq<byte>)
    ensures |s| <= |b|
  {
    if s == [] then [] else EncodeChar(s[0]) + Encode(s[1..])
  }

  predicate IsTail(b: byte) {
    0x80 <= b < 0xC0
  }

  /** The number that a lead digit `n` and one more tail byte stand for. */
  function Push(n: nat, b: byte): nat
    requires IsTail(b)
  {
    n * 0x40 + (b as int - 0x80)
  }

  /**
   * The scalar value that starts `b` and the number of bytes it takes: over-long forms, surrogates and values
   * above U+10FFFF are refused.
   */
  function DecodeFirst(b: seq<byte>): (r: Option<(char, nat)>)
    requires b != []
    ensures r.Some? ==> 1 <= r.value.1 <= |b| && r.value.1 <= 4
    ensures r.Some? ==> forall i :: 1 <= i < r.value.1 ==> IsTail(b[i])
  {
    var b0 := b[0] as int;
    if b0 < 0x80 then Some((b0 as char, 1))
    else if 0xC2 <= b0 < 0xE0 && |b| >= 2 && IsTail(b[1]) then
      Some((Push(b0 - 0xC0, b[1]) as char, 2))
    else if 0xE0 <= b0 < 0xF0 && |b| >= 3 && IsTail(b[1]) && IsTail(b[2]) then
      var n := Push(Push(b0 - 0xE0, b[1]), b[2]);
      if n >= 0x800 && IsScalar(n) then Some((n as char, 3)) else None
    else if 0xF0 <= b0 < 0xF5 && |b| >= 4 && IsTail(b[1]) && IsTail(b[2]) && IsTail(b[3]) then
      var n := Push(Push(Push(b0 - 0xF0, b[1]), b[2]), b[3]);
      if n >= 0x1_0000 && IsScalar(n) then Some((n as char, 4)) else None
    else None
  }

  /** Rust's `String::from_utf8`. */
  function Decode(b: seq<byte>): Option<string> {
    if b == [] then Some("")
    else
      var first := DecodeFirst(b);
      if first.None? then None
      else
        var rest := Decode(b[first.value.1..]);
        if rest.None? then None else Some([first.value.0] + rest.value)
  }

  predicate Valid(b: seq<byte>) {
    Decode(b).Some?
  }

  lemma PushSplits(n: nat, q: nat, b: byte)
    requires IsTail(b)
    ensures Push(q, b) == n <==> q == n / 0x40 && b as int == 0x80 + n % 0x40
  {
    assert n == 0x40 * (n / 0x40) + n % 0x40;
  }

  lemma DecodeFirstOfEncoded(c: char, rest: seq<byte>)
    ensures DecodeFirst(EncodeChar(c) + rest) == Some((c, |EncodeChar(c)|))
  {
    var n := c as int;
    var e := EncodeChar(c);
    var b := e + rest;
    var n1 := n / 0x40;
    var n2 := n1 / 0x40;
    assert forall i :: 0 <= i < |e| ==> b[i] == e[i];
    if n >= 0x80 {
      PushSplits(n, n1, e[|e| - 1]);
    }
    if n >= 0x800 {
      PushSplits(n1, n2, e[|e| - 2]);
    }
    if n >= 0x1_0000 {
      PushSplits(n2, n2 / 0x40, e[|e| - 3]);
    }
  }

  lemma EncodeOfDecodedFirst(b: seq<byte>)
    requires b != [] && DecodeFirst(b).Some?
    ensures EncodeChar(DecodeFirst(b).value.0) == b[..DecodeFirst(b).value.1]
  {
    var (c, k) := DecodeFirst(b).value;
    var n := c as int;
    var n1 := n / 0x40;
    var n2 := n1 / 0x40;
    if k == 2 {
      PushSplits(n, b[0] as int - 0xC0, b[1]);
    } else if k == 3 {
      var q := b[0] as int - 0xE0;
      PushSplits(n, Push(q, b[1]), b[2]);
      PushSplits(n1, q, b[1]);
    } else if k == 4 {
      var q := b[0] as int - 0xF0;
      PushSplits(n, Push(Push(q, b[1]), b[2]), b[3]);
      PushSplits(n1, Push(q, b[1]), b[2]);
      PushSplits(n2, q, b[1]);
    }
  }

  /** Encoding is the inverse of decoding, so the byte strings accepted are exactly the encodings of texts. */
  lemma {:induction false} DecodeEncode(s: string)
    ensures Decode(Encode(s)) == Some(s)
  {
    if s != [] {
      var e, rest := EncodeChar(s[0]), Encode(s[1..]);
      DecodeFirstOfEncoded(s[0], rest);
      DecodeEncode(s[1..]);
      assert (e + rest)[|e|..] == rest;
      assert s == [s[0]] + s[1..];
    }
  }

  lemma DecodeStep(b: seq<byte>)
    requires Valid(b) && b != []
    ensures DecodeFirst(b).Some?
    ensures var (c, n) := DecodeFirst(b).value; Valid(b[n..]) && Decode(b).value == [c] + Decode(b[n..]).value
  {
  }

  lemma EncodeStep(c: char, t: string, b: seq<byte>, n: nat)
    requires n <= |b| && EncodeChar(c) == b[..n] && Encode(t) == b[n..]
    ensures Encode([c] + t) == b
  {
    assert ([c] + t)[1..] == t;
    assert b == b[..n] + b[n..];
  }

  lemma {:induction false} EncodeDecode(b: seq<byte>)
    requires Valid(b)
    ensures Encode(Decode(b).value) == b
  {
    if b != [] {
      DecodeStep(b);
      var (c, n) := DecodeFirst(b).value;
      EncodeOfDecodedFirst(b);
      EncodeDecode(b[n..]);
      EncodeStep(c, Decode(b[n..]).value, b, n);
    }
  }

  lemma DecodeFirstStopsAtNewline(a: seq<byte>, c: seq<byte>)
    requires a != []
    ensures DecodeFirst(a + [NEWLINE] + c) == DecodeFirst(a + [NEWLINE])
    ensures DecodeFirst(a + [NEWLINE]).Some? ==> DecodeFirst(a + [NEWLINE]).value.1 <= |a|
  {
    var whole, head := a + [NEWLINE] + c, a + [NEWLINE];
    assert forall i :: 0 <= i < |head| ==> whole[i] == head[i];
    assert head[|a|] == NEWLINE;
  }

  /** Cutting a byte string after a newline cuts no character in two. */
  lemma {:induction false} ValidSplitsAtNewline(a: seq<byte>, c: seq<byte>)
    ensures Valid(a + [NEWLINE] + c) <==> Valid(a + [NEWLINE]) && Valid(c)
  {
    var whole, head := a + [NEWLINE] + c, a + [NEWLINE];
    if a == [] {
      assert whole[1..] == c && head[1..] == [];
      assert DecodeFirst(whole) == DecodeFirst(head) == Some(('\n', 1));
      assert Decode(head[1..]) == Some("");
    } else {
      DecodeFirstStopsAtNewline(a, c);
      if DecodeFirst(whole).Some? {
        var n := DecodeFirst(whole).value.1;
        assert whole[n..] == a[n..] + [NEWLINE] + c;
        assert head[n..] == a[n..] + [NEWLINE];
        ValidSplitsAtNewline(a[n..], c);
      }
    }
  }

  lemma {:induction false} EncodeConcat(s: string, t: string)
    ensures Encode(s + t) == Encode(s) + Encode(t)
  {
    if s == [] {
      assert s + t == t;
    } else {
      assert (s + t)[1..] == s[1..] + t;
      EncodeConcat(s[1..], t);
    }
  }

  /** No newline byte hides inside a longer encoding. */
  lemma {:induction false} NewlineOnlyFromNewline(s: string)
    requires '\n' !in s
    ensures NEWLINE !in Encode(s)
  {
    if s != [] {
      assert '\n' !in s[1..];
      NewlineOnlyFromNewline(s[1..]);
      assert s[0] in s;
    }
  }

  /** One character of each length: these bytes and no others. */
  lemma EncodingExamples()
    ensures EncodeChar('A') == [0x41] && EncodeChar('\U{00E9}') == [0xC3, 0xA9]
    ensures EncodeChar('\U{20AC}') == [0xE2, 0x82, 0xAC] && EncodeChar('\U{10FFFF}') == [0xF4, 0x8F, 0xBF, 0xBF]
  {
  }
}
