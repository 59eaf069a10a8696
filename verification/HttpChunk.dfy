/** Chunked transfer coding as the upload writes it, against a decoder for section 7.1 of RFC 9112. */
module HttpChunk {
  import opened Bytes

  const CR: byte := 13
  const LF: byte := 10
  const CRLF: seq<byte> := [CR, LF]
  const LAST_CHUNK: seq<byte> := [48, 13, 10, 13, 10]

  // ---- encoding ----

  function HexDigit(d: nat): (b: byte)
    requires d < 16
  {
    if d < 10 then 48 + d else 87 + d
  }

  /** Lower-case hexadecimal without leading zeros. */
  function Hex(n: nat): (h: seq<byte>)
    ensures |h| > 0
  {
    if n < 16 then [HexDigit(n)] else Hex(n / 16) + [HexDigit(n % 16)]
  }

  function EncodeChunk(data: seq<byte>): seq<byte> {
    Hex(|data|) + CRLF + data + CRLF
  }

  function EncodeAll(chunks: seq<seq<byte>>): seq<byte> {
    if chunks == [] then [] else EncodeAll(chunks[..|chunks| - 1]) + EncodeChunk(chunks[|chunks| - 1])
  }

  function Flatten(chunks: seq<seq<byte>>): seq<byte> {
    if chunks == [] then [] else Flatten(chunks[..|chunks| - 1]) + chunks[|chunks| - 1]
  }

  /** An empty chunk would end the body, so the writer refuses one. */
  predicate NoEmptyChunk(chunks: seq<seq<byte>>) {
    forall i | 0 <= i < |chunks| :: chunks[i] != []
  }

  // ---- the receiver, section 7.1 of RFC 9112 ----

  datatype Decoded = Complete(body: seq<byte>, rest: seq<byte>) | Incomplete | Malformed

  datatype Line = LineEnd(next: nat) | Partial | BadLine

  predicate IsHexDigit(b: byte) {
    48 <= b <= 57 || 65 <= b <= 70 || 97 <= b <= 102
  }

  function DigitValue(b: byte): nat
    requires IsHexDigit(b)
  {
    if b <= 57 then b - 48 else if b <= 70 then b - 55 else b - 87
  }

  function HexRun(s: seq<byte>): (k: nat)
    ensures k <= |s| && forall i | 0 <= i < k :: IsHexDigit(s[i])
    ensures k < |s| ==> !IsHexDigit(s[k])
  {
    if s == [] || !IsHexDigit(s[0]) then 0 else 1 + HexRun(s[1..])
  }

  function HexValue(s: seq<byte>): nat
    requires forall i | 0 <= i < |s| :: IsHexDigit(s[i])
  {
    if s == [] then 0 else 16 * HexValue(s[..|s| - 1]) + DigitValue(s[|s| - 1])
  }

  /** The end of the line at or after `i`: a chunk extension or a trailer field is skipped. */
  function SkipLine(s: seq<byte>, i: nat): (l: Line)
    requires i <= |s|
    ensures l.LineEnd? ==> i + 2 <= l.next <= |s|
    decreases |s| - i
  {
    if i == |s| || (s[i] == CR && i + 1 == |s|) then Partial
    else if s[i] == CR then if s[i + 1] == LF then LineEnd(i + 2) else BadLine
    else SkipLine(s, i + 1)
  }

  /** What may follow the digits of a chunk size. */
  predicate EndsSize(b: byte) {
    b == CR || b == 59 || b == 32 || b == 9
  }

  function Trailer(s: seq<byte>): Decoded
    decreases |s|
  {
    match SkipLine(s, 0)
    case Partial => Incomplete
    case BadLine => Malformed
    case LineEnd(next) => if next == 2 then Complete([], s[2..]) else Trailer(s[next..])
  }

  datatype Size = Size(size: nat, start: nat) | NeedMore | BadSize

  /** The chunk-size line: the size, and where its data starts. */
  function ParseSize(s: seq<byte>): (r: Size)
    ensures r.Size? ==> 2 < r.start <= |s|
  {
    var k := HexRun(s);
    if k == |s| then NeedMore
    else if k == 0 || !EndsSize(s[k]) then BadSize
    else
      match SkipLine(s, k)
      case Partial => NeedMore
      case BadLine => BadSize
      case LineEnd(start) => Size(HexValue(s[..k]), start)
  }

  function Decode(s: seq<byte>): Decoded
    decreases |s|
  {
    match ParseSize(s)
    case NeedMore => Incomplete
    case BadSize => Malformed
    case Size(size, start) =>
      var t := s[start..];
      if size == 0 then Trailer(t)
      else if |t| < size + 2 then Incomplete
      else if t[size] != CR || t[size + 1] != LF then Malformed
      else Prepend(t[..size], Decode(t[size + 2..]))
  }

  function Prepend(data: seq<byte>, d: Decoded): Decoded {
    match d
    case Complete(body, rest) => Complete(data + body, rest)
    case other => other
  }

  // ---- round trip ----

  lemma {:induction false} HexRoundTrip(n: nat)
    ensures forall i | 0 <= i < |Hex(n)| :: IsHexDigit(Hex(n)[i])
    ensures HexValue(Hex(n)) == n
    decreases n
  {
    var h := Hex(n);
    if n < 16 {
      assert h[..0] == [];
    } else {
      HexRoundTrip(n / 16);
      assert h[..|h| - 1] == Hex(n / 16);
    }
  }

  lemma {:induction false} HexRunAppend(digits: seq<byte>, rest: seq<byte>)
    requires forall i | 0 <= i < |digits| :: IsHexDigit(digits[i])
    requires rest != [] ==> !IsHexDigit(rest[0])
    ensures HexRun(digits + rest) == |digits|
  {
    if digits != [] {
      assert (digits + rest)[1..] == digits[1..] + rest;
      HexRunAppend(digits[1..], rest);
    } else {
      assert digits + rest == rest;
    }
  }

  lemma SplitAtCrlf(h: seq<byte>, tail: seq<byte>)
    ensures var s, k := h + (CRLF + tail), |h|;
      k + 2 <= |s| && s[..k] == h && s[k] == CR && s[k + 1] == LF && s[k + 2..] == tail
  {
  }

  lemma {:induction false} ParseHeader(h: seq<byte>, tail: seq<byte>)
    requires h != [] && forall i | 0 <= i < |h| :: IsHexDigit(h[i])
    ensures ParseSize(h + (CRLF + tail)) == Size(HexValue(h), |h| + 2)
  {
    HexRunAppend(h, CRLF + tail);
    SplitAtCrlf(h, tail);
  }

  lemma {:induction false} DecodeOneChunk(data: seq<byte>, tail: seq<byte>)
    requires data != []
    ensures Decode(EncodeChunk(data) + tail) == Prepend(data, Decode(tail))
  {
    var h := Hex(|data|);
    var t := data + (CRLF + tail);
    assert EncodeChunk(data) + tail == h + (CRLF + t);
    HexRoundTrip(|data|);
    ParseHeader(h, t);
    SplitAtCrlf(h, t);
    SplitAtCrlf(data, tail);
    DecodeSized(h + (CRLF + t), |h| + 2, |data|, t);
  }

  lemma DecodeSized(s: seq<byte>, start: nat, size: nat, t: seq<byte>)
    requires size > 0 && ParseSize(s) == Size(size, start) && s[start..] == t
    requires size + 2 <= |t| && t[size] == CR && t[size + 1] == LF
    ensures Decode(s) == Prepend(t[..size], Decode(t[size + 2..]))
  {
  }

  /** A chunk cut anywhere before its last byte is not taken for more than it is. */
  lemma CutChunkIncomplete(data: seq<byte>, cut: nat)
    requires data != [] && cut < |EncodeChunk(data)|
    ensures Decode(EncodeChunk(data)[..cut]) == Incomplete
  {
    var h := Hex(|data|);
    var p := EncodeChunk(data)[..cut];
    HexRoundTrip(|data|);
    var k := |h|;
    if cut <= k {
      assert p == h[..cut];
      HexRunAppend(p, []);
      assert p + [] == p;
    } else {
      assert p == h + (CRLF + data + CRLF)[..cut - k];
      HexRunAppend(h, (CRLF + data + CRLF)[..cut - k]);
      assert p[k] == CR;
      if cut > k + 1 {
        assert p[k + 1] == LF;
        assert SkipLine(p, k) == LineEnd(k + 2);
        assert p[..k] == h;
      }
    }
  }

  lemma {:induction false} DecodeChunks(chunks: seq<seq<byte>>, tail: seq<byte>)
    requires NoEmptyChunk(chunks)
    ensures Decode(EncodeAll(chunks) + tail) == Prepend(Flatten(chunks), Decode(tail))
    decreases |chunks|
  {
    if chunks == [] {
      assert EncodeAll(chunks) + tail == tail;
      assert Decode(tail).Complete? ==> Flatten(chunks) + Decode(tail).body == Decode(tail).body;
    } else {
      var n := |chunks| - 1;
      var init, c := chunks[..n], chunks[n];
      assert EncodeAll(chunks) + tail == EncodeAll(init) + (EncodeChunk(c) + tail);
      DecodeChunks(init, EncodeChunk(c) + tail);
      DecodeOneChunk(c, tail);
      assert Decode(tail).Complete? ==>
        Flatten(init) + (c + Decode(tail).body) == Flatten(init) + c + Decode(tail).body;
    }
  }

  /** A body closed by the terminator decodes to exactly what the chunks carried. */
  lemma {:induction false} ClosedBodyDecodes(chunks: seq<seq<byte>>)
    requires NoEmptyChunk(chunks)
    ensures Decode(EncodeAll(chunks) + LAST_CHUNK) == Complete(Flatten(chunks), [])
  {
    DecodeChunks(chunks, LAST_CHUNK);
    CutTerminator(5);
  }

  lemma CutTerminator(cut: nat)
    requires cut <= 5
    ensures Decode(LAST_CHUNK[..cut]) == if cut == 5 then Complete([], []) else Incomplete
  {
    var p := LAST_CHUNK[..cut];
    HexRunAppend([48], [13, 10, 13, 10]);
    assert [48] + [13, 10, 13, 10] == LAST_CHUNK;
    if cut > 1 {
      HexRunAppend([48], p[1..]);
      assert p == [48] + p[1..];
      assert p[..1] == [48] && HexValue([48]) == 0 by {
        assert [48][..0] == [];
      }
      if cut > 2 {
        assert SkipLine(p, 1) == LineEnd(3);
        if cut == 5 {
          assert p[3..] == CRLF && SkipLine(CRLF, 0) == LineEnd(2);
          assert CRLF[2..] == [];
        }
      }
    } else if cut == 1 {
      HexRunAppend(p, []);
      assert p + [] == p;
    }
  }

  /** Without the whole terminator the receiver never sees a complete body. */
  lemma OpenBodyIncomplete(chunks: seq<seq<byte>>, next: seq<byte>, cut: nat)
    requires NoEmptyChunk(chunks)
    requires next == LAST_CHUNK || exists data :: data != [] && next == EncodeChunk(data)
    requires cut < |next|
    ensures Decode(EncodeAll(chunks) + next[..cut]) == Incomplete
  {
    DecodeChunks(chunks, next[..cut]);
    if next == LAST_CHUNK {
      CutTerminator(cut);
    } else {
      var data :| data != [] && next == EncodeChunk(data);
      CutChunkIncomplete(data, cut);
    }
  }

  // ---- the writer ----

  /** A socket with arbitrary behaviour: each write takes the next reply from the script, and a reply
      outside 1..length means the connection failed. */
  class Socket {
    var script: seq<int>
    var sent: seq<byte>
    ghost var broken: bool    // some reply said that the connection failed

    constructor (script: seq<int>)
      ensures sent == [] && this.script == script && !broken
    {
      this.script, sent, broken := script, [], false;
    }

    method Write(data: seq<byte>) returns (written: int)
      modifies this
      ensures sent == if 0 < written <= |data| then old(sent) + data[..written] else old(sent)
      ensures written > 0 ==> |script| < |old(script)|
      ensures broken == (old(broken) || !(0 < written <= |data|))
    {
      if script == [] {
        broken := true;
        return 0;
      }
      written, script := script[0], script[1..];
      if 0 < written <= |data| {
        sent := sent + data[..written];
      } else {
        broken := true;
      }
    }
  }

  method WriteAll(socket: Socket, data: seq<byte>) returns (ok: bool)
    modifies socket
    ensures old(socket.sent) <= socket.sent <= old(socket.sent) + data
    ensures ok <==> socket.sent == old(socket.sent) + data
    ensures !old(socket.broken) ==> (ok <==> !socket.broken)
  {
    ghost var start := socket.sent;
    var rest := data;
    while rest != []
      invariant |rest| <= |data| && rest == data[|data| - |rest|..]
      invariant socket.sent == start + data[..|data| - |rest|] && socket.broken == old(socket.broken)
      decreases |rest|
    {
      var written := socket.Write(rest);
      if written <= 0 || written > |rest| {
        return false;
      }
      rest := rest[written..];
    }
    return true;
  }

  method WriteChunk(socket: Socket, data: seq<byte>) returns (ok: bool)
    modifies socket
    ensures data == [] ==> !ok && socket.sent == old(socket.sent)
    ensures data != [] ==> old(socket.sent) <= socket.sent <= old(socket.sent) + EncodeChunk(data)
    ensures data != [] ==> (ok <==> socket.sent == old(socket.sent) + EncodeChunk(data))
    ensures data != [] && !old(socket.broken) ==> (ok <==> !socket.broken)
  {
    if data == [] {
      return false;
    }
    ghost var start := socket.sent;
    var header := Hex(|data|) + CRLF;
    ok := WriteAll(socket, header);
    assert start + EncodeChunk(data) == start + header + (data + CRLF);
    if ok {
      ok := WriteAll(socket, data);
      assert start + EncodeChunk(data) == start + header + data + CRLF;
      if ok {
        ok := WriteAll(socket, CRLF);
      }
    }
  }

  method Finish(socket: Socket) returns (ok: bool)
    modifies socket
    ensures old(socket.sent) <= socket.sent <= old(socket.sent) + LAST_CHUNK
    ensures ok <==> socket.sent == old(socket.sent) + LAST_CHUNK
    ensures !old(socket.broken) ==> (ok <==> !socket.broken)
  {
    ok := WriteAll(socket, LAST_CHUNK);
  }
}
