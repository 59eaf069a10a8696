/** What an MP3 byte stream means to the player: the frame header, a machine that eats one byte at a
    time, and the grammar of the streams it accepts. */
module Mp3Stream {
  import opened Bytes
  import opened Options
  import opened Pcm
  import opened Resampler

  const MAX_BYTES: nat := 16777216
  const MAX_FRAME: nat := 2048
  const PCM_SAMPLES: nat := 2304
  const MAX_SKIP: nat := 65526
  const TAG_HEADER: nat := 10

  // ---- frame header ----

  datatype Params = Params(rate: nat, channels: nat, version: nat)
  datatype Header = Header(params: Params, bytes: nat)

  const RATES: seq<nat> := [44100, 48000, 32000]
  const BITRATES1: seq<nat> := [0, 32, 40, 48, 56, 64, 80, 96, 112, 128, 160, 192, 224, 256, 320]
  const BITRATES2: seq<nat> := [0, 8, 16, 24, 32, 40, 48, 56, 64, 80, 96, 112, 128, 144, 160]

  function FrameHeader(p: seq<byte>): Option<Header> {
    if |p| < 4 || p[0] != 255 || p[1] / 32 != 7 || (p[1] / 2) % 4 != 1 then None
    else
      var v, bitrate, sampleRate := (p[1] / 8) % 4, p[2] / 16, (p[2] / 4) % 4;
      if v == 1 || bitrate == 0 || bitrate == 15 || sampleRate == 3 || p[3] % 4 == 2 then None
      else
        var rate := RATES[sampleRate] / (if v == 3 then 1 else if v == 2 then 2 else 4);
        var channels := if p[3] / 64 == 3 then 1 else 2;
        if rate < 16000 then None
        else
          var bytes := (if v == 3 then 144000 * BITRATES1[bitrate] else 72000 * BITRATES2[bitrate]) / rate
                       + (p[2] / 2) % 2;
          if 4 <= bytes <= MAX_FRAME then Some(Header(Params(rate, channels, v), bytes)) else None
  }

  /** Every accepted frame is longer than the 10-byte window the player opens with, and fits. */
  lemma FrameBounds(p: seq<byte>)
    ensures var h := FrameHeader(p); h.Some? ==>
      && 24 <= h.value.bytes <= 1441 && h.value.params.rate >= 16000 && 1 <= h.value.params.channels <= 2
  {
    if FrameHeader(p).Some? {
      var v, b, r := (p[1] / 8) % 4, p[2] / 16, (p[2] / 4) % 4;
      assert r == 0 || r == 1 || r == 2;
      assert 32 <= BITRATES1[b] <= 320 && 8 <= BITRATES2[b] <= 160;
      if v == 3 {
        Quotient(144000 * BITRATES1[b], RATES[r], 96, 1440);
      } else {
        assert v == 2;
        Quotient(72000 * BITRATES2[b], RATES[r] / 2, 24, 720);
      }
    }
  }

  lemma {:induction false} Quotient(x: nat, d: nat, lo: nat, hi: nat)
    requires d > 0 && lo * d <= x && x <= hi * d
    ensures lo <= x / d <= hi
  {
    DivBounds(x, d);
    if x / d < lo {
      MulMonotone(x / d + 1, lo, d);
    }
    if x / d > hi {
      MulMonotone(hi + 1, x / d, d);
    }
  }

  // ---- decoder and samples ----

  /** The decoder keeps state between frames, so its answer is a function of all frames so far. */
  datatype Decoded = Decoded(rate: nat, channels: nat, samples: seq<int>) | DecodeError
  datatype Codec = Codec(decode: seq<seq<byte>> -> Decoded, window: nat -> seq<real>)

  function FilterTaps(codec: Codec, rate: nat): (t: seq<real>)
    ensures |t| == TAPS
  {
    if |codec.window(rate)| == TAPS then codec.window(rate) else seq(TAPS, _ => 0.0)
  }

  /** The mean of a stereo pair, truncated towards zero as C division does. */
  function Mean(l: int, r: int): int {
    if l + r >= 0 then (l + r) / 2 else -(-(l + r) / 2)
  }

  function Mix(samples: seq<int>, channels: nat): (m: seq<int>)
    requires channels == 1 || channels == 2
    ensures |m| == |samples| / channels
  {
    if channels == 1 then samples
    else seq(|samples| / 2, i requires 0 <= i < |samples| / 2 => Mean(samples[2 * i], samples[2 * i + 1]))
  }

  // ---- the machine, one byte at a time ----

  datatype Core = Core(
    headerChecked: bool, skip: nat, buf: seq<byte>, needed: nat, total: nat,
    params: Option<Params>, frames: seq<seq<byte>>, mixed: seq<int>, pcm: seq<byte>, failed: bool)

  const INIT := Core(false, 0, [], TAG_HEADER, 0, None, [], [], [], false)

  function Fail(c: Core): Core {
    c.(failed := true)
  }

  predicate IsTag(b: seq<byte>) {
    |b| >= 3 && b[0] == 73 && b[1] == 68 && b[2] == 51
  }

  /** An ID3v2.3 or v2.4 header with a synchsafe size. */
  predicate TagOk(b: seq<byte>)
    requires |b| >= TAG_HEADER
  {
    && (b[3] == 3 || b[3] == 4) && b[4] != 255
    && (if b[3] == 3 then b[5] % 32 == 0 else b[5] % 16 == 0)
    && b[6] < 128 && b[7] < 128 && b[8] < 128 && b[9] < 128
    && TagSize(b) <= MAX_SKIP
  }

  function TagSize(b: seq<byte>): nat
    requires |b| >= TAG_HEADER
  {
    var s3, s2, s1, s0: nat := b[6], b[7], b[8], b[9];
    s3 * 2097152 + s2 * 16384 + s1 * 128 + s0 + (if b[3] == 4 && (b[5] / 16) % 2 == 1 then 10 else 0)
  }

  /** The opening window is a tag header to skip past, or the start of the first frame. */
  function Opened(c: Core): Core
    requires |c.buf| >= TAG_HEADER
  {
    if !IsTag(c.buf) then c.(headerChecked := true, needed := 4)
    else if !TagOk(c.buf) then Fail(c.(headerChecked := true))
    else c.(headerChecked := true, skip := TagSize(c.buf), buf := [], needed := 4)
  }

  /** A frame header: the first one fixes the parameters, the others must agree. */
  function Learned(c: Core): Core {
    match FrameHeader(c.buf)
    case None => Fail(c)
    case Some(h) =>
      if c.frames != [] && c.params != Some(h.params) then Fail(c)
      else c.(params := if c.params.None? then Some(h.params) else c.params, needed := h.bytes)
  }

  /** The buffer holds what was needed: a tag, a header or a frame. */
  function Complete(codec: Codec, c: Core): Core {
    if !c.headerChecked && |c.buf| >= TAG_HEADER then
      if IsTag(c.buf) then Opened(c) else HaveHeader(codec, Opened(c))
    else if c.needed == 4 then HaveHeader(codec, c)
    else DecodeFrame(codec, c)
  }

  function HaveHeader(codec: Codec, c: Core): Core {
    var c' := Learned(c);
    if c'.failed || |c'.buf| < c'.needed then c' else DecodeFrame(codec, c')
  }

  predicate DecodeFits(d: Decoded, p: Params) {
    && d.Decoded? && |d.samples| <= PCM_SAMPLES && (p.channels == 1 || p.channels == 2)
    && (d.samples != [] ==> d.rate == p.rate && d.channels == p.channels && |d.samples| % p.channels == 0)
  }

  function DecodeFrame(codec: Codec, c: Core): Core {
    if c.params.None? || c.params.value.rate == 0 then Fail(c) else
    var p := c.params.value;
    var frames := c.frames + [c.buf];
    var d := codec.decode(frames);
    if !DecodeFits(d, p) then Fail(c)
    else
      var mixed := c.mixed + Mix(d.samples, p.channels);
      var from, to := OutCount(|c.mixed|, p.rate), OutCount(|mixed|, p.rate);
      if from > to || to - from > PCM_SAMPLES then Fail(c)
      else
        var made := Outputs(FilterTaps(codec, p.rate), mixed, p.rate, from, to);
        c.(frames := frames, mixed := mixed, pcm := c.pcm + ToBytes(made), buf := [], needed := 4)
  }

  /** What to do once the buffer is full; the byte-level facts below hold whatever it is. */
  type Completion = Core -> Core

  function Completing(codec: Codec): Completion {
    c => Complete(codec, c)
  }

  function Step(full: Completion, c: Core, b: byte): Core {
    if c.failed then c
    else if c.total >= MAX_BYTES then Fail(c)
    else if c.skip > 0 then c.(skip := c.skip - 1, total := c.total + 1)
    else
      var c' := c.(buf := c.buf + [b], total := c.total + 1);
      if |c'.buf| < c'.needed then c' else full(c')
  }

  function Run(full: Completion, c: Core, data: seq<byte>): Core
    decreases |data|
  {
    if data == [] then c else Run(full, Step(full, c, data[0]), data[1..])
  }

  lemma {:induction false} RunAppend(full: Completion, c: Core, a: seq<byte>, b: seq<byte>)
    ensures Run(full, c, a + b) == Run(full, Run(full, c, a), b)
    decreases |a|
  {
    if a == [] {
      assert a + b == b;
    } else {
      assert (a + b)[1..] == a[1..] + b;
      RunAppend(full, Step(full, c, a[0]), a[1..], b);
    }
  }

  lemma {:induction false} FailedStays(full: Completion, c: Core, data: seq<byte>)
    requires c.failed
    ensures Run(full, c, data) == c
    decreases |data|
  {
    if data != [] {
      FailedStays(full, c, data[1..]);
    }
  }

  /** A block skipped at once is its bytes skipped one by one. */
  lemma {:induction false} SkipBlock(full: Completion, c: Core, data: seq<byte>)
    requires !c.failed && |data| <= c.skip && c.total + |data| <= MAX_BYTES
    ensures Run(full, c, data) == c.(skip := c.skip - |data|, total := c.total + |data|)
    decreases |data|
  {
    if data != [] {
      SkipBlock(full, Step(full, c, data[0]), data[1..]);
    }
  }

  /** A block copied at once is its bytes taken one by one, completing at most at its end. */
  lemma {:induction false} CopyBlock(full: Completion, c: Core, data: seq<byte>)
    requires !c.failed && c.skip == 0 && data != [] && |c.buf| + |data| <= c.needed
    requires c.total + |data| <= MAX_BYTES
    ensures var c' := c.(buf := c.buf + data, total := c.total + |data|);
      Run(full, c, data) == if |c'.buf| < c.needed then c' else full(c')
    decreases |data|
  {
    var c1 := Step(full, c, data[0]);
    if |data| == 1 {
      assert data == [data[0]] && data[1..] == [];
      assert Run(full, c1, data[1..]) == c1;
    } else {
      assert c1 == c.(buf := c.buf + [data[0]], total := c.total + 1);
      CopyBlock(full, c1, data[1..]);
      assert c.buf + [data[0]] + data[1..] == c.buf + data;
    }
  }

  lemma {:induction false} RunGrows(full: Completion, c: Core, data: seq<byte>)
    requires forall d: Core :: d.pcm <= full(d).pcm
    ensures c.pcm <= Run(full, c, data).pcm
    decreases |data|
  {
    if data != [] {
      var c1 := Step(full, c, data[0]);
      assert c.pcm <= c1.pcm;
      RunGrows(full, c1, data[1..]);
    }
  }

  /** PCM already produced is never changed by later bytes. */
  lemma {:induction false} PcmOnlyGrows(codec: Codec, c: Core, data: seq<byte>)
    ensures c.pcm <= Run(Completing(codec), c, data).pcm
  {
    forall d: Core
      ensures d.pcm <= Completing(codec)(d).pcm
    {
      CompleteGrows(codec, d);
    }
    RunGrows(Completing(codec), c, data);
  }

  lemma CompleteGrows(codec: Codec, c: Core)
    ensures c.pcm <= Complete(codec, c).pcm
  {
    HeaderGrows(codec, c);
    HeaderGrows(codec, c.(headerChecked := true, needed := 4));
    DecodeGrows(codec, c);
  }

  lemma HeaderGrows(codec: Codec, c: Core)
    ensures c.pcm <= HaveHeader(codec, c).pcm
  {
    var h := FrameHeader(c.buf);
    if h.Some? {
      DecodeGrows(codec, c.(params := if c.params.None? then Some(h.value.params) else c.params,
                            needed := h.value.bytes));
    }
  }

  lemma DecodeGrows(codec: Codec, c: Core)
    ensures c.pcm <= DecodeFrame(codec, c).pcm
  {
  }

  // ---- the closed form of everything played ----

  ghost predicate PcmIsClosedForm(codec: Codec, c: Core) {
    && (c.mixed != [] ==> c.params.Some? && c.params.value.rate > 0)
    && c.pcm == if c.params.None? || c.params.value.rate == 0 then []
                else ToBytes(Outputs(FilterTaps(codec, c.params.value.rate), c.mixed, c.params.value.rate,
                                     0, OutCount(|c.mixed|, c.params.value.rate)))
  }

  lemma DecodeKeepsClosedForm(codec: Codec, c: Core)
    requires PcmIsClosedForm(codec, c)
    ensures PcmIsClosedForm(codec, DecodeFrame(codec, c))
  {
    var c' := DecodeFrame(codec, c);
    if c' != Fail(c) {
      var rate := c.params.value.rate;
      var taps := FilterTaps(codec, rate);
      var from, to := OutCount(|c.mixed|, rate), OutCount(|c'.mixed|, rate);
      var more := c'.mixed[|c.mixed|..];
      assert c'.mixed == c.mixed + more;
      OutputsExtend(taps, c.mixed, more, rate, 0);
      ToBytesAppend(Outputs(taps, c.mixed, rate, 0, from), Outputs(taps, c'.mixed, rate, from, to));
    }
  }

  lemma {:induction false} HeaderKeepsClosedForm(codec: Codec, c: Core)
    requires PcmIsClosedForm(codec, c)
    ensures PcmIsClosedForm(codec, HaveHeader(codec, c))
  {
    var h := FrameHeader(c.buf);
    if h.Some? {
      var c' := c.(params := if c.params.None? then Some(h.value.params) else c.params, needed := h.value.bytes);
      EmptyClosedForm(codec, c, c');
      DecodeKeepsClosedForm(codec, c');
    }
  }

  /** Learning the parameters before any sample exists changes nothing. */
  lemma EmptyClosedForm(codec: Codec, c: Core, c': Core)
    requires PcmIsClosedForm(codec, c) && c'.pcm == c.pcm && c'.mixed == c.mixed
    requires c.params.Some? ==> c'.params == c.params
    ensures PcmIsClosedForm(codec, c')
  {
  }

  lemma {:induction false} CompleteKeepsClosedForm(codec: Codec, c: Core)
    requires PcmIsClosedForm(codec, c)
    ensures PcmIsClosedForm(codec, Complete(codec, c))
  {
    if !c.headerChecked && |c.buf| >= TAG_HEADER {
      var c' := c.(headerChecked := true, needed := 4);
      EmptyClosedForm(codec, c, c');
      HeaderKeepsClosedForm(codec, c');
    } else if c.needed == 4 {
      HeaderKeepsClosedForm(codec, c);
    } else {
      DecodeKeepsClosedForm(codec, c);
    }
  }

  lemma {:induction false} RunKeeps(full: Completion, keep: Core -> bool, c: Core, data: seq<byte>)
    requires keep(c) && forall d: Core | keep(d) :: keep(full(d))
    requires forall d: Core, d': Core | keep(d) && d' == d.(skip := d'.skip, buf := d'.buf, total := d'.total,
                                                          failed := d'.failed) :: keep(d')
    ensures keep(Run(full, c, data))
    decreases |data|
  {
    if data != [] {
      var grown := c.(buf := c.buf + [data[0]], total := c.total + 1);
      assert keep(grown) && keep(full(grown));
      var c1 := Step(full, c, data[0]);
      assert keep(c1);
      RunKeeps(full, keep, c1, data[1..]);
    }
  }

  /** Whatever the frame boundaries, the PCM of a stream is the filter and interpolation evaluated at
      every output position of the whole decoded signal, and their number is the closed-form count. */
  lemma PcmClosedForm(codec: Codec, data: seq<byte>)
    ensures PcmIsClosedForm(codec, Run(Completing(codec), INIT, data))
  {
    var keep := (c: Core) => PcmIsClosedForm(codec, c);
    assert keep(INIT) by {
      assert ToBytes([]) == [];
    }
    forall d: Core | keep(d)
      ensures keep(Completing(codec)(d))
    {
      CompleteKeepsClosedForm(codec, d);
    }
    forall d: Core, d': Core
      | keep(d) && d' == d.(skip := d'.skip, buf := d'.buf, total := d'.total, failed := d'.failed)
      ensures keep(d')
    {
      EmptyClosedForm(codec, d, d');
    }
    RunKeeps(Completing(codec), keep, INIT, data);
  }

  // ---- the grammar of accepted streams ----

  /** Whole Layer III frames, all with the same parameters. */
  predicate FramesFrom(data: seq<byte>, params: Option<Params>)
    decreases |data|
  {
    data == [] ||
    match FrameHeader(data)
    case None => false
    case Some(h) =>
      && (params.None? || params.value == h.params) && h.bytes <= |data|
      && FramesFrom(data[h.bytes..], Some(h.params))
  }

  /** An optional ID3 tag, then one or more frames. */
  predicate Layout(data: seq<byte>) {
    if |data| >= TAG_HEADER && IsTag(data) then
      && TagOk(data) && TAG_HEADER + TagSize(data) < |data|
      && FramesFrom(data[TAG_HEADER + TagSize(data)..], None)
    else data != [] && FramesFrom(data, None)
  }

  /** The decoder takes a frame whose header the player accepted and yields at most one frame of sound. */
  ghost predicate Obliging(codec: Codec) {
    forall frames: seq<seq<byte>> | frames != [] && FrameHeader(frames[|frames| - 1]).Some? ::
      var p := FrameHeader(frames[|frames| - 1]).value.params;
      DecodeFits(codec.decode(frames), p) && |codec.decode(frames).samples| <= 1152 * p.channels
  }

  predicate AtBoundary(c: Core) {
    && !c.failed && c.headerChecked && c.skip == 0 && c.buf == [] && c.needed == 4
    && (c.frames == [] <==> c.params.None?)
  }

  /** A stream the player can finish: nothing pending and at least one frame. */
  predicate Whole(c: Core) {
    !c.failed && c.skip == 0 && c.buf == [] && c.frames != []
  }

  lemma HeaderPrefix(data: seq<byte>, n: nat)
    requires 4 <= n <= |data|
    ensures FrameHeader(data[..n]) == FrameHeader(data)
  {
    var p := data[..n];
    assert p[0] == data[0] && p[1] == data[1] && p[2] == data[2] && p[3] == data[3];
  }

  /** The first four bytes of a frame settle whether it can continue the stream. */
  lemma AfterFourBytes(codec: Codec, c: Core, data: seq<byte>)
    requires AtBoundary(c) && |data| >= 4 && c.total + 4 <= MAX_BYTES
    ensures var h, r := FrameHeader(data), Run(Completing(codec), c, data[..4]);
      if h.None? || (c.params.Some? && c.params.value != h.value.params) then r.failed
      else r == c.(buf := data[..4], total := c.total + 4, params := Some(h.value.params), needed := h.value.bytes)
  {
    hide FrameHeader, Run, DecodeFrame;
    HeaderPrefix(data, 4);
    FrameBounds(data);
    CopyBlock(Completing(codec), c, data[..4]);
    assert c.buf + data[..4] == data[..4];
  }

  lemma {:induction false} DecodesFrame(codec: Codec, c: Core)
    requires Obliging(codec) && !c.failed && FrameHeader(c.buf).Some?
    requires c.params == Some(FrameHeader(c.buf).value.params)
    ensures var c' := DecodeFrame(codec, c);
      && !c'.failed && c'.frames == c.frames + [c.buf] && c'.buf == [] && c'.needed == 4
      && c'.headerChecked == c.headerChecked && c'.skip == c.skip && c'.total == c.total && c'.params == c.params
  {
    FrameBounds(c.buf);
    var frames, p := c.frames + [c.buf], c.params.value;
    assert frames[|frames| - 1] == c.buf;
    var m := Mix(codec.decode(frames).samples, p.channels);
    assert |m| <= 1152;
    FrameFits(|c.mixed|, |m|, p.rate);
    OutCountMonotone(|c.mixed|, |m|, p.rate);
    assert |c.mixed + m| == |c.mixed| + |m|;
  }

  lemma WholeFrame(codec: Codec, c: Core, data: seq<byte>)
    requires Obliging(codec) && AtBoundary(c) && FrameHeader(data).Some?
    requires c.params.None? || c.params.value == FrameHeader(data).value.params
    requires FrameHeader(data).value.bytes <= |data| && c.total + FrameHeader(data).value.bytes <= MAX_BYTES
    ensures var h := FrameHeader(data).value; var c' := Run(Completing(codec), c, data[..h.bytes]);
      AtBoundary(c') && c'.frames != [] && c'.params == Some(h.params) && c'.total == c.total + h.bytes
  {
    hide FrameHeader, Run, DecodeFrame, HaveHeader;
    var h, full := FrameHeader(data).value, Completing(codec);
    FrameBounds(data);
    AfterFourBytes(codec, c, data);
    var c1 := Run(full, c, data[..4]);
    CopyBlock(full, c1, data[4..h.bytes]);
    assert data[..4] + data[4..h.bytes] == data[..h.bytes];
    RunAppend(full, c, data[..4], data[4..h.bytes]);
    HeaderPrefix(data, h.bytes);
    DecodesFrame(codec, c1.(buf := data[..h.bytes], total := c.total + h.bytes));
  }

  lemma {:induction false} CutFrame(codec: Codec, c: Core, data: seq<byte>)
    requires AtBoundary(c) && data != [] && c.total + |data| <= MAX_BYTES
    requires |data| < 4 || (FrameHeader(data).Some? && |data| < FrameHeader(data).value.bytes
                            && (c.params.None? || c.params.value == FrameHeader(data).value.params))
    ensures !Whole(Run(Completing(codec), c, data))
  {
    var full := Completing(codec);
    if |data| < 4 {
      CopyBlock(full, c, data);
    } else {
      AfterFourBytes(codec, c, data);
      var c1 := Run(full, c, data[..4]);
      assert data == data[..4] + data[4..];
      RunAppend(full, c, data[..4], data[4..]);
      if |data| > 4 {
        CopyBlock(full, c1, data[4..]);
      }
    }
  }

  /** From a frame boundary the machine accepts exactly the rest of a frame sequence. */
  lemma {:induction false} FramesAccepted(codec: Codec, c: Core, data: seq<byte>)
    requires Obliging(codec) && AtBoundary(c) && c.total + |data| <= MAX_BYTES
    ensures Whole(Run(Completing(codec), c, data)) <==> FramesFrom(data, c.params) && (data != [] || c.frames != [])
    decreases |data|
  {
    var full := Completing(codec);
    if data != [] {
      var h := FrameHeader(data);
      if |data| >= 4 && (h.None? || (c.params.Some? && c.params.value != h.value.params)) {
        AfterFourBytes(codec, c, data);
        assert data == data[..4] + data[4..];
        RunAppend(full, c, data[..4], data[4..]);
        FailedStays(full, Run(full, c, data[..4]), data[4..]);
      } else if |data| < 4 || |data| < h.value.bytes {
        CutFrame(codec, c, data);
      } else {
        FrameBounds(data);
        WholeFrame(codec, c, data);
        var c' := Run(full, c, data[..h.value.bytes]);
        assert data == data[..h.value.bytes] + data[h.value.bytes..];
        RunAppend(full, c, data[..h.value.bytes], data[h.value.bytes..]);
        FramesAccepted(codec, c', data[h.value.bytes..]);
      }
    }
  }

  // ---- the opening of a stream ----

  lemma AfterTagHeader(codec: Codec, head: seq<byte>)
    requires |head| == TAG_HEADER && IsTag(head)
    ensures var c := Run(Completing(codec), INIT, head);
      if TagOk(head)
      then c == INIT.(headerChecked := true, skip := TagSize(head), total := TAG_HEADER, needed := 4)
      else c.failed
  {
    CopyBlock(Completing(codec), INIT, head);
    assert [] + head == head;
  }

  lemma SkipThenRun(full: Completion, c: Core, rest: seq<byte>)
    requires !c.failed && c.skip <= |rest| && c.total + |rest| <= MAX_BYTES
    ensures Run(full, c, rest) == Run(full, c.(skip := 0, total := c.total + c.skip), rest[c.skip..])
  {
    SkipBlock(full, c, rest[..c.skip]);
    assert rest == rest[..c.skip] + rest[c.skip..];
    RunAppend(full, c, rest[..c.skip], rest[c.skip..]);
  }

  lemma {:induction false} AfterTagBody(codec: Codec, c: Core, rest: seq<byte>)
    requires Obliging(codec) && !c.failed && c.headerChecked && c.buf == [] && c.needed == 4
    requires c.frames == [] && c.params.None? && c.total + |rest| <= MAX_BYTES
    ensures Whole(Run(Completing(codec), c, rest)) <==> c.skip < |rest| && FramesFrom(rest[c.skip..], None)
  {
    var full := Completing(codec);
    if |rest| <= c.skip {
      SkipBlock(full, c, rest);
    } else {
      SkipThenRun(full, c, rest);
      FramesAccepted(codec, c.(skip := 0, total := c.total + c.skip), rest[c.skip..]);
    }
  }

  /** After a good tag header the tag body is skipped and frames follow. */
  lemma TagAccepted(codec: Codec, data: seq<byte>)
    requires |data| >= TAG_HEADER && IsTag(data) && |data| <= MAX_BYTES && Obliging(codec)
    ensures Whole(Run(Completing(codec), INIT, data)) <==> Layout(data)
  {
    var full := Completing(codec);
    var head, rest := data[..TAG_HEADER], data[TAG_HEADER..];
    assert data == head + rest;
    RunAppend(full, INIT, head, rest);
    AfterTagHeader(codec, head);
    assert IsTag(head) && TagOk(head) == TagOk(data) && TagSize(head) == TagSize(data);
    if TagOk(head) {
      AfterTagBody(codec, Run(full, INIT, head), rest);
      assert TagSize(data) < |rest| ==> rest[TagSize(data)..] == data[TAG_HEADER + TagSize(data)..];
    } else {
      FailedStays(full, Run(full, INIT, head), rest);
    }
  }

  lemma AfterWindow(codec: Codec, data: seq<byte>)
    requires |data| == TAG_HEADER && !IsTag(data)
    ensures var r, h := Run(Completing(codec), INIT, data), FrameHeader(data);
      if h.None? then r.failed
      else r == INIT.(headerChecked := true, buf := data, total := TAG_HEADER,
                      params := Some(h.value.params), needed := h.value.bytes)
  {
    hide FrameHeader, Run, DecodeFrame;
    CopyBlock(Completing(codec), INIT, data);
    assert [] + data == data;
    FrameBounds(data);
  }

  /** The player opens with a window of ten bytes, not four. Since no frame is that short, it ends up
      where a machine reading headers from the first byte would be. */
  lemma WindowIsHarmless(codec: Codec, data: seq<byte>)
    requires |data| == TAG_HEADER && !IsTag(data)
    ensures var a := Run(Completing(codec), INIT, data);
      var b := Run(Completing(codec), INIT.(headerChecked := true, needed := 4), data);
      a == b || (a.failed && b.failed)
  {
    var full, start := Completing(codec), INIT.(headerChecked := true, needed := 4);
    AfterWindow(codec, data);
    AfterFourBytes(codec, start, data);
    var b := Run(full, start, data[..4]);
    assert data == data[..4] + data[4..];
    RunAppend(full, start, data[..4], data[4..]);
    FrameBounds(data);
    if b.failed {
      FailedStays(full, b, data[4..]);
    } else {
      CopyBlock(full, b, data[4..]);
    }
  }

  lemma {:induction false} ShortNotAccepted(codec: Codec, data: seq<byte>)
    requires |data| < TAG_HEADER
    ensures !Whole(Run(Completing(codec), INIT, data)) && !Layout(data)
  {
    if data != [] {
      CopyBlock(Completing(codec), INIT, data);
      FrameBounds(data);
    }
  }

  /** Starting with the ten-byte window or with a four-byte one makes no difference to acceptance. */
  lemma {:induction false} WindowedRun(codec: Codec, data: seq<byte>)
    requires |data| >= TAG_HEADER && !IsTag(data)
    ensures var full := Completing(codec);
      Whole(Run(full, INIT, data)) == Whole(Run(full, INIT.(headerChecked := true, needed := 4), data))
  {
    var full, start := Completing(codec), INIT.(headerChecked := true, needed := 4);
    var head, rest := data[..TAG_HEADER], data[TAG_HEADER..];
    assert data == head + rest;
    WindowIsHarmless(codec, head);
    RunAppend(full, INIT, head, rest);
    RunAppend(full, start, head, rest);
    var a, b := Run(full, INIT, head), Run(full, start, head);
    if a.failed {
      FailedStays(full, a, rest);
      FailedStays(full, b, rest);
    }
  }

  /** A stream of at most 16 MiB is taken without failure, with nothing left over and at least one frame,
      exactly when it has the layout, for every decoder that takes valid frames. */
  lemma {:induction false} AcceptedIffLayout(codec: Codec, data: seq<byte>)
    requires |data| <= MAX_BYTES && Obliging(codec)
    ensures Whole(Run(Completing(codec), INIT, data)) <==> Layout(data)
  {
    if |data| < TAG_HEADER {
      ShortNotAccepted(codec, data);
    } else if IsTag(data) {
      TagAccepted(codec, data);
    } else {
      WindowedRun(codec, data);
      FramesAccepted(codec, INIT.(headerChecked := true, needed := 4), data);
    }
  }
}
