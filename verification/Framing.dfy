/** Control-line framing: `read_line_limited` over a reader that delivers a byte stream in arbitrary chunks. */
module Framing {
  import opened Text
  import opened Utf8

  /** The cap on one control line. */
  const MAX_LINE: nat := 65536

  datatype ReadResult = Eof | Line(text: string) | Unterminated | NotUtf8

  /** The index of the first newline, or the length if there is none. */
  function NewlineAt(b: seq<byte>): (n: nat)
    ensures n <= |b|
    ensures n < |b| ==> b[n] == NEWLINE
    ensures forall i :: 0 <= i < n ==> b[i] != NEWLINE
  {
    if b == [] || b[0] == NEWLINE then 0 else NewlineAt(b[1..]) + 1
  }

  lemma NewlineAtIs(b: seq<byte>, n: nat)
    requires n <= |b| && (n < |b| ==> b[n] == NEWLINE)
    requires forall i :: 0 <= i < n ==> b[i] != NEWLINE
    ensures NewlineAt(b) == n
  {
  }

  function Window(stream: seq<byte>, max: nat): seq<byte> {
    if |stream| <= max then stream else stream[..max]
  }

  /** The bytes that one read takes: up to and including a newline, at most `max`. */
  function Taken(stream: seq<byte>, max: nat): (b: seq<byte>)
    ensures b <= stream && |b| <= max
    ensures |b| == 0 <==> stream == [] || max == 0
  {
    var w := Window(stream, max);
    var n := NewlineAt(w);
    if n < |w| then w[..n + 1] else w
  }

  function Interpret(taken: seq<byte>): ReadResult {
    if taken == [] then Eof
    else if taken[|taken| - 1] != NEWLINE then Unterminated
    else
      match Decode(taken)
      case None => NotUtf8
      case Some(text) => Line(text)
  }

  /** No newline among the first `k` bytes. */
  predicate Clear(stream: seq<byte>, k: nat)
    requires k <= |stream|
  {
    forall i :: 0 <= i < k ==> stream[i] != NEWLINE
  }

  lemma TakenUpTo(stream: seq<byte>, max: nat, n: nat)
    requires n < |stream| && n < max && Clear(stream, n) && stream[n] == NEWLINE
    ensures Taken(stream, max) == stream[..n + 1]
  {
    var w := Window(stream, max);
    NewlineAtIs(w, n);
    assert w[..n + 1] == stream[..n + 1];
  }

  lemma TakenWhole(stream: seq<byte>, max: nat, n: nat)
    requires n <= |stream| && n <= max && Clear(stream, n) && (n == |stream| || n == max)
    ensures Taken(stream, max) == stream[..n]
  {
    var w := Window(stream, max);
    assert w == stream[..n];
    NewlineAtIs(w, n);
  }

  /** What the read has taken so far: a part of the stream without a newline. */
  predicate Progress(stream: seq<byte>, buf: seq<byte>, max: nat) {
    buf <= stream && |buf| <= max && Clear(stream, |buf|)
  }

  lemma ReadOn(stream: seq<byte>, buf: seq<byte>, max: nat, available: seq<byte>)
    requires Progress(stream, buf, max) && available <= stream[|buf|..] && |buf| + |available| <= max
    requires NEWLINE !in available
    ensures Progress(stream, buf + available, max)
  {
    var longer := buf + available;
    forall i | 0 <= i < |longer| ensures longer[i] == stream[i] && stream[i] != NEWLINE {
      if i >= |buf| {
        assert available[i - |buf|] == stream[|buf|..][i - |buf|];
      }
    }
  }

  lemma ReadFound(stream: seq<byte>, buf: seq<byte>, max: nat, available: seq<byte>, i: nat)
    requires Progress(stream, buf, max) && available <= stream[|buf|..] && |buf| + |available| <= max
    requires i < |available| && available[i] == NEWLINE && NEWLINE !in available[..i]
    ensures buf + available[..i + 1] == Taken(stream, max)
  {
    var head := available[..i];
    assert head <= stream[|buf|..];
    ReadOn(stream, buf, max, head);
    var n := |buf| + i;
    assert stream[n] == stream[|buf|..][i];
    TakenUpTo(stream, max, n);
    assert buf + available[..i + 1] == buf + head + [NEWLINE];
    assert stream[..n + 1] == stream[..n] + [stream[n]];
  }

  lemma ReadEnds(stream: seq<byte>, buf: seq<byte>, max: nat)
    requires Progress(stream, buf, max) && (|buf| == |stream| || |buf| == max)
    ensures buf == Taken(stream, max)
  {
    TakenWhole(stream, max, |buf|);
  }

  /** A buffered reader: `chunks` is what its buffer holds and what the socket will still deliver, read by read. */
  class BufReader {
    var chunks: seq<seq<byte>>

    ghost predicate Valid()
      reads this
    {
      forall c :: c in chunks ==> c != []
    }

    ghost function Remaining(): seq<byte>
      reads this
    {
      Flatten(chunks)
    }

    constructor (chunks: seq<seq<byte>>)
      requires forall c :: c in chunks ==> c != []
      ensures Valid() && Remaining() == Flatten(chunks)
    {
      this.chunks := chunks;
    }

    /** The buffered bytes; empty only at the end of the stream. */
    function FillBuf(): (b: seq<byte>)
      reads this
      ensures b <= Remaining()
      ensures Valid() ==> (b == [] <==> Remaining() == [])
    {
      if chunks == [] then [] else
        assert chunks[0] in chunks;
        chunks[0]
    }

    method Consume(n: nat)
      requires Valid() && n <= |FillBuf()|
      modifies this
      ensures Valid() && Remaining() == old(Remaining())[n..]
    {
      if chunks != [] {
        ghost var rest := Flatten(chunks[1..]);
        assert (chunks[0] + rest)[n..] == chunks[0][n..] + rest;
        assert forall c :: c in chunks[1..] ==> c in chunks;
        chunks := if n == |chunks[0]| then chunks[1..] else [chunks[0][n..]] + chunks[1..];
      }
    }

    /** `take(max).read_until(b'\n')`: what it returns does not depend on where the chunks end. */
    method ReadUntilNewline(max: nat) returns (buf: seq<byte>)
      requires Valid()
      modifies this
      ensures Valid()
      ensures buf == Taken(old(Remaining()), max)
      ensures Remaining() == old(Remaining())[|buf|..]
    {
      ghost var stream := Remaining();
      buf := [];
      while true
        invariant Valid() && Progress(stream, buf, max) && Remaining() == stream[|buf|..]
        decreases max - |buf|
      {
        var available := Window(FillBuf(), max - |buf|);
        var i := NewlineAt(available);
        var done := i < |available|;
        var used := if done then i + 1 else |available|;
        if done {
          ReadFound(stream, buf, max, available, i);
        } else if used == 0 {
          ReadEnds(stream, buf, max);
        } else {
          ReadOn(stream, buf, max, available);
        }
        assert stream[|buf|..][used..] == stream[|buf| + used..];
        Consume(used);
        buf := buf + available[..used];
        if done || used == 0 {
          break;
        }
      }
    }

    method ReadLineLimited(max: nat) returns (r: ReadResult)
      requires Valid()
      modifies this
      ensures Valid()
      ensures var taken := Taken(old(Remaining()), max);
              r == Interpret(taken) && Remaining() == old(Remaining())[|taken|..]
    {
      var buf := ReadUntilNewline(max);
      if |buf| == 0 {
        return Eof;
      }
      if buf[|buf| - 1] != NEWLINE {
        return Unterminated;
      }
      match Decode(buf) {
        case None => r := NotUtf8;
        case Some(text) => r := Line(text);
      }
    }
  }

  /** The lines that repeated reads return, and the result that ends them. */
  function ReadAll(stream: seq<byte>, max: nat): (seq<string>, ReadResult)
    decreases |stream|
  {
    var taken := Taken(stream, max);
    var r := Interpret(taken);
    if !r.Line? then ([], r)
    else
      var (lines, end) := ReadAll(stream[|taken|..], max);
      ([r.text] + lines, end)
  }

  // ----- what the reads mean, stated on the newline split of the stream

  /** The stream cut after each newline. Only the last piece can lack one. */
  function Pieces(stream: seq<byte>): seq<seq<byte>>
    decreases |stream|
  {
    var n := NewlineAt(stream);
    if n == |stream| then (if n == 0 then [] else [stream])
    else [stream[..n + 1]] + Pieces(stream[n + 1..])
  }

  predicate IsLine(piece: seq<byte>) {
    piece != [] && piece[|piece| - 1] == NEWLINE
    && forall i :: 0 <= i < |piece| - 1 ==> piece[i] != NEWLINE
  }

  lemma {:induction false} PiecesAreTheSplit(stream: seq<byte>)
    ensures Flatten(Pieces(stream)) == stream
    ensures forall i :: 0 <= i < |Pieces(stream)| - 1 ==> IsLine(Pieces(stream)[i])
    ensures forall p :: p in Pieces(stream) ==> p != [] && (IsLine(p) || NEWLINE !in p)
    decreases |stream|
  {
    var n := NewlineAt(stream);
    if n < |stream| {
      PiecesAreTheSplit(stream[n + 1..]);
      assert stream == stream[..n + 1] + stream[n + 1..];
      assert IsLine(stream[..n + 1]);
    } else if n > 0 {
      assert Flatten([stream]) == stream + Flatten([]);
    }
  }

  predicate Acceptable(piece: seq<byte>, max: nat) {
    IsLine(piece) && |piece| <= max && Utf8.Valid(piece)
  }

  function GoodPrefix(pieces: seq<seq<byte>>, max: nat): (n: nat)
    ensures n <= |pieces|
    ensures forall i :: 0 <= i < n ==> Acceptable(pieces[i], max)
    ensures n < |pieces| ==> !Acceptable(pieces[n], max)
  {
    if pieces == [] || !Acceptable(pieces[0], max) then 0 else GoodPrefix(pieces[1..], max) + 1
  }

  function Texts(pieces: seq<seq<byte>>): seq<string>
    requires forall p :: p in pieces ==> Utf8.Valid(p)
  {
    if pieces == [] then []
    else
      assert pieces[0] in pieces;
      assert Utf8.Valid(pieces[0]) && forall p :: p in pieces[1..] ==> p in pieces;
      [Decode(pieces[0]).value] + Texts(pieces[1..])
  }

  function EndOf(pieces: seq<seq<byte>>, max: nat): ReadResult {
    var n := GoodPrefix(pieces, max);
    if n == |pieces| then Eof
    else if IsLine(pieces[n]) && |pieces[n]| <= max then NotUtf8
    else Unterminated
  }

  lemma LineUpTo(stream: seq<byte>, n: nat)
    requires n < |stream| && stream[n] == NEWLINE && Clear(stream, n)
    ensures IsLine(stream[..n + 1])
  {
    var p := stream[..n + 1];
    assert p[n] == NEWLINE && forall i :: 0 <= i < n ==> p[i] == stream[i];
  }

  lemma FirstPiece(stream: seq<byte>)
    requires stream != []
    ensures Pieces(stream) != []
    ensures var p := Pieces(stream)[0];
            && p != [] && p <= stream && Pieces(stream)[1..] == Pieces(stream[|p|..])
            && (IsLine(p) || (p == stream && NEWLINE !in stream))
  {
    var n := NewlineAt(stream);
    if n < |stream| {
      LineUpTo(stream, n);
      FirstOf(stream[..n + 1], Pieces(stream[n + 1..]));
    }
  }

  lemma FirstOf<T>(a: T, rest: seq<T>)
    ensures ([a] + rest)[0] == a && ([a] + rest)[1..] == rest
  {
  }

  lemma TakenIsFirstPiece(stream: seq<byte>, max: nat)
    requires 0 < max && stream != []
    ensures Pieces(stream) != []
    ensures var p := Pieces(stream)[0];
            && p != [] && p <= stream && Pieces(stream)[1..] == Pieces(stream[|p|..])
            && (IsLine(p) && |p| <= max ==> Taken(stream, max) == p)
            && (!(IsLine(p) && |p| <= max) ==> Interpret(Taken(stream, max)) == Unterminated)
  {
    FirstPiece(stream);
    var p := Pieces(stream)[0];
    if IsLine(p) && |p| <= max {
      assert Clear(stream, |p| - 1) && stream[|p| - 1] == NEWLINE;
      TakenUpTo(stream, max, |p| - 1);
      assert stream[..|p| - 1 + 1] == p;
    } else {
      var n := if |stream| <= max then |stream| else max;
      assert Clear(stream, n);
      TakenWhole(stream, max, n);
      assert stream[..n][n - 1] != NEWLINE;
    }
  }

  /**
   * Framing: repeated reads return the newline split of the stream up to the first piece that is over-long,
   * unterminated or not UTF-8. Together with `ReadLineLimited`, whose contract sees only the flat stream, this
   * holds however the stream is cut into chunks.
   */
  lemma {:induction false} ReadAllIsSplit(stream: seq<byte>, max: nat)
    requires 0 < max
    ensures var pieces := Pieces(stream);
            ReadAll(stream, max) == (Texts(pieces[..GoodPrefix(pieces, max)]), EndOf(pieces, max))
    decreases |stream|
  {
    var pieces := Pieces(stream);
    if stream == [] {
      assert pieces == [];
    } else {
      TakenIsFirstPiece(stream, max);
      var p := pieces[0];
      if Acceptable(p, max) {
        ReadAllIsSplit(stream[|p|..], max);
        SplitStarts(pieces, max);
      }
    }
  }

  lemma SplitStarts(pieces: seq<seq<byte>>, max: nat)
    requires pieces != [] && Acceptable(pieces[0], max)
    ensures EndOf(pieces, max) == EndOf(pieces[1..], max)
    ensures Texts(pieces[..GoodPrefix(pieces, max)])
         == [Decode(pieces[0]).value] + Texts(pieces[1..][..GoodPrefix(pieces[1..], max)])
  {
    var n := GoodPrefix(pieces, max);
    assert pieces[..n][1..] == pieces[1..][..n - 1];
  }

  lemma ValidSplitsAfterLine(line: seq<byte>, rest: seq<byte>)
    requires IsLine(line)
    ensures Utf8.Valid(line + rest) <==> Utf8.Valid(line) && Utf8.Valid(rest)
  {
    var a := line[..|line| - 1];
    assert a + [NEWLINE] == line;
    ValidSplitsAtNewline(a, rest);
  }

  /** A stream that is valid UTF-8 as a whole never fails on encoding, whatever the limit. */
  lemma {:induction false} ValidStreamNeverFailsOnEncoding(stream: seq<byte>, max: nat)
    requires 0 < max && Utf8.Valid(stream)
    ensures ReadAll(stream, max).1 != NotUtf8
    decreases |stream|
  {
    if stream != [] {
      TakenIsFirstPiece(stream, max);
      var p := Pieces(stream)[0];
      if IsLine(p) && |p| <= max {
        assert stream == p + stream[|p|..];
        ValidSplitsAfterLine(p, stream[|p|..]);
        ValidStreamNeverFailsOnEncoding(stream[|p|..], max);
      }
    }
  }
}
