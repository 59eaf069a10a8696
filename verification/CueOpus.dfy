/** The Opus cue container: a header and length-prefixed packets of 20 ms each, and its playback with exact
    trimming at both ends. */
module CueOpus {
  import opened Bytes
  import opened Options

  const HEADER: nat := 32
  const MAX_BYTES: nat := 65536
  const MAX_PACKET: nat := 1275
  const FRAME: nat := 480
  const MAGIC: seq<byte> := [86, 67, 79, 80, 85, 83, 49, 0]

  // ---- packet durations ----

  /** Frame sizes of section 3.1 of RFC 6716 for the 32 configurations, in units of 2.5 ms. */
  const FRAME_UNITS: seq<nat> := [
    4, 8, 16, 24, 4, 8, 16, 24, 4, 8, 16, 24, 4, 8, 4, 8,
    1, 2, 4, 8, 1, 2, 4, 8, 1, 2, 4, 8, 1, 2, 4, 8]

  /** How many frames a packet holds, by section 3.2 of RFC 6716. */
  function Frames(packet: seq<byte>): nat
    requires |packet| >= 2
  {
    var code := packet[0] % 4;
    if code == 0 then 1 else if code == 3 then packet[1] % 64 else 2
  }

  /** A packet lasts 20 ms: eight units. */
  predicate Lasts20(packet: seq<byte>) {
    |packet| >= 2 && Frames(packet) * FRAME_UNITS[packet[0] / 8] == 8
  }

  /** Samples at 24 kHz in a frame, as the source computes them from the configuration. */
  function FrameSamples(config: nat): nat {
    if config >= 16 then
      60 * (if config % 4 == 0 then 1 else if config % 4 == 1 then 2 else if config % 4 == 2 then 4 else 8)
    else if config >= 12 then 240 * (if config % 2 == 0 then 1 else 2)
    else if config % 4 == 3 then 1440
    else 240 * (if config % 4 == 0 then 1 else if config % 4 == 1 then 2 else 4)
  }

  predicate Duration20(packet: seq<byte>) {
    |packet| >= 2 && Frames(packet) > 0 && FrameSamples(packet[0] / 8) * Frames(packet) == FRAME
  }

  lemma FrameSamplesTable(config: nat)
    requires config < 32
    ensures FrameSamples(config) == 60 * FRAME_UNITS[config] && FRAME_UNITS[config] > 0
  {
    if config < 12 {
      assert FRAME_UNITS[config] == [4, 8, 16, 24][config % 4];
    } else if config < 16 {
      assert FRAME_UNITS[config] == [4, 8][config % 2];
    } else {
      assert FRAME_UNITS[config] == [1, 2, 4, 8][config % 4];
    }
  }

  /** The source's test accepts exactly the packets the standard says last 20 ms. */
  lemma DurationIsStandard(packet: seq<byte>)
    ensures Duration20(packet) <==> Lasts20(packet)
  {
    if |packet| >= 2 {
      var config, n := packet[0] / 8, Frames(packet);
      FrameSamplesTable(config);
      var units := FRAME_UNITS[config];
      assert 60 * units * n == 60 * (n * units);
    }
  }

  // ---- the container ----

  function U16(d: seq<byte>, i: nat): nat
    requires i + 2 <= |d|
  {
    var low: nat, high: nat := d[i], d[i + 1];
    low + 256 * high
  }

  function U32(d: seq<byte>, i: nat): nat
    requires i + 4 <= |d|
  {
    U16(d, i) + 65536 * U16(d, i + 2)
  }

  datatype Cursor = Cursor(samples: nat, preskip: nat, count: nat, offset: nat, packet: nat)

  /** The next packet and the cursor after it. */
  function NextPacket(o: Cursor, data: seq<byte>): (r: Option<(seq<byte>, Cursor)>)
    ensures r.Some? ==> o.offset < r.value.1.offset <= |data| && o.packet < o.count
    ensures r.Some? ==> r.value.1 == o.(offset := r.value.1.offset, packet := o.packet + 1)
  {
    if o.packet >= o.count || o.offset + 2 > |data| then None
    else
      var n, start := U16(data, o.offset), o.offset + 2;
      if n < 2 || n > MAX_PACKET || start + n > |data| || !Duration20(data[start..start + n]) then None
      else Some((data[start..start + n], o.(offset := start + n, packet := o.packet + 1)))
  }

  function Length(n: nat): seq<byte>
    requires n < 65536
  {
    [n % 256, n / 256]
  }

  predicate GoodPacket(p: seq<byte>) {
    2 <= |p| <= MAX_PACKET && Lasts20(p)
  }

  predicate GoodPackets(ps: seq<seq<byte>>) {
    forall i | 0 <= i < |ps| :: GoodPacket(ps[i])
  }

  /** Packets laid end to end, each behind its length. */
  function Tiled(ps: seq<seq<byte>>): seq<byte>
    requires GoodPackets(ps)
  {
    if ps == [] then [] else Length(|ps[0]|) + ps[0] + Tiled(ps[1..])
  }

  /** The first `n` packets from a cursor, if they are all there. */
  function Take(o: Cursor, data: seq<byte>, n: nat): Option<(seq<seq<byte>>, Cursor)>
    decreases n
  {
    if n == 0 then Some(([], o))
    else
      match NextPacket(o, data)
      case None => None
      case Some((p, next)) =>
        match Take(next, data, n - 1)
        case None => None
        case Some((more, end)) => Some(([p] + more, end))
  }

  lemma NextFits(o: Cursor, data: seq<byte>)
    requires o.offset <= |data| && NextPacket(o, data).Some?
    ensures var (p, next) := NextPacket(o, data).value;
      GoodPacket(p) && data[o.offset..next.offset] == Length(|p|) + p
  {
    hide Duration20, Lasts20;
    var (p, next) := NextPacket(o, data).value;
    DurationIsStandard(p);
    LengthBack(data, o.offset);
    assert data[o.offset..next.offset] == data[o.offset..o.offset + 2] + p;
  }

  /** Packets that can be taken tile the bytes from one cursor to the other. */
  lemma {:induction false} TakenTile(o: Cursor, data: seq<byte>, n: nat)
    requires o.offset <= |data| && Take(o, data, n).Some?
    ensures var (ps, end) := Take(o, data, n).value;
      && |ps| == n && GoodPackets(ps) && o.offset <= end.offset <= |data| && data[o.offset..end.offset] == Tiled(ps)
    decreases n
  {
    hide NextPacket, GoodPacket, Length;
    if n > 0 {
      NextFits(o, data);
      var (p, next) := NextPacket(o, data).value;
      TakenTile(next, data, n - 1);
      var (more, end) := Take(next, data, n - 1).value;
      var ps := [p] + more;
      assert ps[1..] == more;
      assert data[o.offset..end.offset] == data[o.offset..next.offset] + data[next.offset..end.offset];
    }
  }

  lemma LengthBack(data: seq<byte>, i: nat)
    requires i + 2 <= |data|
    ensures data[i..i + 2] == Length(U16(data, i))
  {
  }

  /** A length and its packet are the next packet. */
  lemma NextIs(o: Cursor, data: seq<byte>, p: seq<byte>, tail: seq<byte>)
    requires o.offset <= |data| && GoodPacket(p) && data[o.offset..] == Length(|p|) + p + tail && o.packet < o.count
    ensures var next := o.(offset := o.offset + 2 + |p|, packet := o.packet + 1);
      NextPacket(o, data) == Some((p, next)) && next.offset <= |data| && data[next.offset..] == tail
  {
    hide Duration20, Lasts20;
    DurationIsStandard(p);
    var rest, start := data[o.offset..], o.offset + 2;
    assert rest[0] == |p| % 256 && rest[1] == |p| / 256;
    assert U16(data, o.offset) == |p|;
    assert data[start..start + |p|] == rest[2..2 + |p|] == p;
    assert data[start + |p|..] == rest[2 + |p|..] == tail;
  }

  /** And packets that tile the rest of the data can be taken. */
  lemma {:induction false} TiledTaken(o: Cursor, data: seq<byte>, ps: seq<seq<byte>>)
    requires o.offset <= |data| && GoodPackets(ps) && data[o.offset..] == Tiled(ps)
    requires o.packet + |ps| <= o.count
    ensures Take(o, data, |ps|) == Some((ps, o.(offset := |data|, packet := o.packet + |ps|)))
    decreases |ps|
  {
    hide NextPacket, GoodPacket, Length;
    if ps != [] {
      NextIs(o, data, ps[0], Tiled(ps[1..]));
      TiledTaken(o.(offset := o.offset + 2 + |ps[0]|, packet := o.packet + 1), data, ps[1..]);
      assert [ps[0]] + ps[1..] == ps;
    }
  }

  /** The fixed part of the header and the counts it holds. */
  predicate HeaderOk(data: seq<byte>) {
    && 34 <= |data| <= MAX_BYTES && data[..8] == MAGIC && U16(data, 8) == 1 && U16(data, 10) == 1
    && U32(data, 12) == 24000 && U16(data, 22) == FRAME && U16(data, 26) == 0 && U32(data, 28) == 24000
  }

  function Counts(data: seq<byte>): Cursor
    requires |data| >= HEADER
  {
    Cursor(U32(data, 16), U16(data, 20), U16(data, 24), HEADER, 0)
  }

  predicate CountsOk(o: Cursor) {
    && 0 < o.samples <= 120000 && o.preskip <= 960 && 0 < o.count <= 252
    && o.count == (o.samples + o.preskip + 479) / FRAME
  }

  /** A well-formed container: a good header, then exactly the promised packets and nothing else. */
  ghost predicate Container(data: seq<byte>, ps: seq<seq<byte>>) {
    && HeaderOk(data) && CountsOk(Counts(data))
    && |ps| == Counts(data).count && GoodPackets(ps) && data[HEADER..] == Tiled(ps)
  }

  // ---- a file as it is written ----

  function Long(n: nat): (l: seq<byte>)
    requires n < 0x1_0000_0000
    ensures |l| == 4
  {
    Length(n % 65536) + Length(n / 65536)
  }

  function Ascii(s: string): (b: seq<byte>)
    ensures |b| == |s|
  {
    seq(|s|, i requires 0 <= i < |s| => s[i] as int % 256)
  }

  /** The name and version of the container, one channel, 24 kHz, then how many samples are to be heard after how
      many to be skipped, 480 to a packet, how many packets, no flags and 24 kbit/s; then the packets. */
  function File(samples: nat, preskip: nat, ps: seq<seq<byte>>): seq<byte>
    requires samples <= 120000 && preskip <= 960 && |ps| <= 252 && GoodPackets(ps)
  {
    Ascii("VCOPUS1") + [0] + Length(1) + Length(1) + Long(24000) + Long(samples) + Length(preskip) + Length(480)
    + Length(|ps|) + Length(0) + Long(24000) + Tiled(ps)
  }

  /** Something to hear, as many packets as it takes, and not too long. */
  predicate FileOk(samples: nat, preskip: nat, ps: seq<seq<byte>>) {
    && 0 < samples <= 120000 && preskip <= 960 && 0 < |ps| <= 252 && GoodPackets(ps)
    && 480 * (|ps| - 1) < samples + preskip <= 480 * |ps| && |Tiled(ps)| <= 65504
  }

  lemma LengthIs(d: seq<byte>, i: nat, n: nat)
    requires i + 2 <= |d| && n < 65536
    ensures d[i..i + 2] == Length(n) <==> U16(d, i) == n
  {
    assert d[i..i + 2] == [d[i], d[i + 1]];
  }

  lemma LongIs(d: seq<byte>, i: nat, n: nat)
    requires i + 4 <= |d| && n < 0x1_0000_0000
    ensures d[i..i + 4] == Long(n) <==> U32(d, i) == n
  {
    LengthIs(d, i, n % 65536);
    LengthIs(d, i + 2, n / 65536);
    assert d[i..i + 4] == d[i..i + 2] + d[i + 2..i + 4];
    assert n == n % 65536 + 65536 * (n / 65536);
    hide Length;
    if d[i..i + 4] == Long(n) {
      assert d[i..i + 2] == d[i..i + 4][..2] && d[i + 2..i + 4] == d[i..i + 4][2..];
    }
  }

  lemma HeaderOfFile(samples: nat, preskip: nat, ps: seq<seq<byte>>)
    requires samples <= 120000 && preskip <= 960 && |ps| <= 252 && GoodPackets(ps)
    ensures var f := File(samples, preskip, ps);
      && |f| == HEADER + |Tiled(ps)| && f[HEADER..] == Tiled(ps) && f[..8] == MAGIC
      && f[8..10] == Length(1) && f[10..12] == Length(1) && f[12..16] == Long(24000) && f[16..20] == Long(samples)
      && f[20..22] == Length(preskip) && f[22..24] == Length(480) && f[24..26] == Length(|ps|)
      && f[26..28] == Length(0) && f[28..32] == Long(24000)
  {
    hide Tiled, GoodPackets, Long;
    assert Ascii("VCOPUS1") + [0] == MAGIC;
  }

  lemma CountsMeans(n: nat, count: nat)
    ensures n > 0 ==> (count == (n + 479) / FRAME <==> 480 * (count - 1) < n <= 480 * count)
  {
  }

  /** Containers are exactly the files that are written so, and what is read is what was written. */
  lemma ContainerIsFile(data: seq<byte>, ps: seq<seq<byte>>, samples: nat, preskip: nat)
    ensures Container(data, ps) && Counts(data) == Cursor(samples, preskip, |ps|, HEADER, 0) <==>
              FileOk(samples, preskip, ps) && data == File(samples, preskip, ps)
  {
    hide Tiled, GoodPackets, Length, Long, U16, U32;
    if samples <= 120000 && preskip <= 960 && |ps| <= 252 && GoodPackets(ps) {
      HeaderOfFile(samples, preskip, ps);
    }
    if samples <= 120000 && preskip <= 960 && |ps| <= 252 && GoodPackets(ps) && |data| >= HEADER {
      var f := File(samples, preskip, ps);
      assert |data| == HEADER + |data[HEADER..]|;
      TiledNotEmpty(ps);
      CountsMeans(samples + preskip, |ps|);
      LengthIs(data, 8, 1);
      LengthIs(data, 10, 1);
      LongIs(data, 12, 24000);
      LongIs(data, 16, samples);
      LengthIs(data, 20, preskip);
      LengthIs(data, 22, 480);
      LengthIs(data, 24, |ps|);
      LengthIs(data, 26, 0);
      LongIs(data, 28, 24000);
      HeadersAgree(data, f);
    }
  }

  lemma TiledNotEmpty(ps: seq<seq<byte>>)
    requires GoodPackets(ps)
    ensures ps != [] ==> |Tiled(ps)| >= 4
  {
    if ps != [] {
      assert GoodPacket(ps[0]);
    }
  }

  lemma HeadersAgree(d: seq<byte>, f: seq<byte>)
    requires |d| >= HEADER && |f| >= HEADER
    ensures d == f <==>
              && d[HEADER..] == f[HEADER..] && d[..8] == f[..8] && d[8..10] == f[8..10] && d[10..12] == f[10..12]
              && d[12..16] == f[12..16] && d[16..20] == f[16..20] && d[20..22] == f[20..22] && d[22..24] == f[22..24]
              && d[24..26] == f[24..26] && d[26..28] == f[26..28] && d[28..32] == f[28..32]
  {
    assert d == d[..8] + d[8..10] + d[10..12] + d[12..16] + d[16..20] + d[20..22] + d[22..24] + d[24..26]
                + d[26..28] + d[28..32] + d[32..];
    assert f == f[..8] + f[8..10] + f[10..12] + f[12..16] + f[16..20] + f[20..22] + f[22..24] + f[24..26]
                + f[26..28] + f[28..32] + f[32..];
  }

  lemma {:induction false} TakeSnoc(o: Cursor, data: seq<byte>, n: nat)
    requires Take(o, data, n).Some?
    ensures var (ps, end) := Take(o, data, n).value; var r := NextPacket(end, data);
      Take(o, data, n + 1) == if r.None? then None else Some((ps + [r.value.0], r.value.1))
    decreases n
  {
    hide NextPacket;
    var r := NextPacket(o, data);
    if n == 0 {
      if r.Some? {
        assert Take(r.value.1, data, 0) == Some(([], r.value.1));
        assert [r.value.0] + [] == [] + [r.value.0];
      }
    } else {
      var (p, next) := r.value;
      TakeSnoc(next, data, n - 1);
      var (more, end) := Take(next, data, n - 1).value;
      var last := NextPacket(end, data);
      if last.Some? {
        assert [p] + (more + [last.value.0]) == [p] + more + [last.value.0];
      }
    }
  }

  lemma {:induction false} TakeNone(o: Cursor, data: seq<byte>, n: nat, m: nat)
    requires n <= m && Take(o, data, n).None?
    ensures Take(o, data, m).None?
    decreases n
  {
    var r := NextPacket(o, data);
    if r.Some? {
      TakeNone(r.value.1, data, n - 1, m - 1);
    }
  }

  lemma TakeNothing(data: seq<byte>)
    ensures |data| >= HEADER ==> Take(Counts(data), data, 0) == Some(([], Counts(data)))
    ensures HeaderOk(data) ==> |data| >= HEADER
  {
  }

  /** The parser accepts a file exactly when it is a container, of packets that are then uniquely determined. */
  method Parse(data: seq<byte>) returns (o: Option<Cursor>, ghost packets: seq<seq<byte>>)
    ensures o.Some? <==> exists ps :: Container(data, ps)
    ensures o.Some? ==> o.value == Counts(data) && Container(data, packets)
    ensures o.Some? ==>
      Take(o.value, data, o.value.count) == Some((packets, o.value.(offset := |data|, packet := o.value.count)))
    ensures forall ps | Container(data, ps) :: ps == packets
  {
    hide NextPacket, Take, HeaderOk, CountsOk, GoodPackets, Tiled;
    packets := [];
    TakeNothing(data);
    if !HeaderOk(data) || !CountsOk(Counts(data)) {
      return None, packets;
    }
    var parsed := Counts(data);
    forall ps | Container(data, ps)
      ensures Take(parsed, data, parsed.count) == Some((ps, parsed.(offset := |data|, packet := parsed.count)))
    {
      TiledTaken(parsed, data, ps);
    }
    var scan := parsed;
    while scan.packet < scan.count
      invariant scan.packet <= scan.count == parsed.count && scan.offset <= |data|
      invariant Take(parsed, data, scan.packet) == Some((packets, scan))
      decreases scan.count - scan.packet
    {
      var r := NextPacket(scan, data);
      TakeSnoc(parsed, data, scan.packet);
      if r.None? {
        TakeNone(parsed, data, scan.packet + 1, parsed.count);
        return None, packets;
      }
      packets, scan := packets + [r.value.0], r.value.1;
    }
    TakenTile(parsed, data, parsed.count);
    if scan.offset != |data| {
      return None, packets;
    }
    assert data[HEADER..|data|] == data[HEADER..];
    assert Container(data, packets);
    o := Some(parsed);
  }
}
