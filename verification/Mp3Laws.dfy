/** What a frame header, a tag header, a decoded frame and the resampler mean, said apart from how they are
    read and computed: by the fields that make up the bytes, and by what comes out for known inputs. */
module Mp3Laws {
  import opened Bytes
  import opened Mp3Stream
  import opened Options
  import opened Resampler

  // ---- frame headers ----

  /** The fields of a frame header after its sync byte, in the order of the standard. `rest` are the mode
      extension, copyright and original bits. */
  datatype Fields = Fields(
    version: nat, layer: nat, crc: nat, bitrate: nat, sampling: nat, padding: nat, priv: nat,
    mode: nat, rest: nat, emphasis: nat)
  {
    predicate Valid() {
      && version < 4 && layer < 4 && crc < 2 && bitrate < 16 && sampling < 4 && padding < 2 && priv < 2
      && mode < 4 && rest < 16 && emphasis < 4
    }

    function Bytes(): seq<byte>
      requires Valid()
    {
      [255, 224 + 8 * version + 2 * layer + crc, 16 * bitrate + 4 * sampling + 2 * padding + priv,
       64 * mode + 4 * rest + emphasis]
    }

    /** Layer III of MPEG-1 or MPEG-2, with a bit rate and a sampling rate that are not reserved. */
    predicate Legal() {
      (version == 3 || version == 2) && layer == 1 && 1 <= bitrate <= 14 && sampling < 3 && emphasis != 2
    }
  }

  /** The Layer III bit rates: steps of 8, 16 and 32 kbit/s that double with every four entries. */
  predicate IsKbps(version: nat, index: nat, kbps: nat) {
    if version == 3 then
      || (1 <= index <= 4 && kbps == 32 + 8 * (index - 1))
      || (5 <= index <= 8 && kbps == 64 + 16 * (index - 5))
      || (9 <= index <= 12 && kbps == 128 + 32 * (index - 9))
      || (13 <= index <= 14 && kbps == 256 + 64 * (index - 13))
    else
      || (1 <= index <= 8 && kbps == 8 * index)
      || (9 <= index <= 14 && kbps == 80 + 16 * (index - 9))
  }

  /** The sampling rates of MPEG-1, halved for MPEG-2. */
  predicate IsRate(version: nat, sampling: nat, rate: nat) {
    var full := if version == 3 then rate else 2 * rate;
    (sampling == 0 && full == 44100) || (sampling == 1 && full == 48000) || (sampling == 2 && full == 32000)
  }

  /** A frame lasts 1152 samples of MPEG-1 or 576 of MPEG-2, an eighth of a byte to a bit. */
  function BytesPerKbps(version: nat): nat {
    if version == 3 then 144000 else 72000
  }

  lemma FieldsRead(f: Fields)
    requires f.Valid()
    ensures var p := f.Bytes();
      && p[1] / 32 == 7 && (p[1] / 8) % 4 == f.version && (p[1] / 2) % 4 == f.layer
      && p[2] / 16 == f.bitrate && (p[2] / 4) % 4 == f.sampling && (p[2] / 2) % 2 == f.padding
      && p[3] / 64 == f.mode && p[3] % 4 == f.emphasis
  {
  }

  function RateOf(f: Fields): nat
    requires f.Valid() && f.Legal()
  {
    if f.version == 3 then RATES[f.sampling] else RATES[f.sampling] / 2
  }

  function KbpsOf(f: Fields): nat
    requires f.Valid() && f.Legal()
  {
    if f.version == 3 then BITRATES1[f.bitrate] else BITRATES2[f.bitrate]
  }

  /** What is read from a header, in terms of its fields. */
  lemma HeaderRead(f: Fields, tail: seq<byte>)
    requires f.Valid()
    ensures FrameHeader(f.Bytes() + tail) ==
      if f.Legal() then
        Some(Header(Params(RateOf(f), if f.mode == 3 then 1 else 2, f.version),
                    BytesPerKbps(f.version) * KbpsOf(f) / RateOf(f) + f.padding))
      else None
  {
    var p := f.Bytes() + tail;
    FieldsRead(f);
    assert p[0] == 255 && p[1] == f.Bytes()[1] && p[2] == f.Bytes()[2] && p[3] == f.Bytes()[3];
    if f.Legal() {
      LengthFits(f.version, f.sampling, f.bitrate);
    } else if f.version == 0 && f.sampling < 3 {
      assert RATES[f.sampling] / 4 < 16000;
    }
  }

  /** Four bytes are a header if and only if their fields are legal; the length is then the bit rate's share
      of a frame in whole bytes, and one more with padding. */
  lemma HeaderMeans(f: Fields, tail: seq<byte>)
    requires f.Valid()
    ensures var h := FrameHeader(f.Bytes() + tail);
      && (h.Some? <==> f.Legal())
      && (h.Some? ==>
            && h.value.params.version == f.version && h.value.params.channels == (if f.mode == 3 then 1 else 2)
            && IsRate(f.version, f.sampling, h.value.params.rate) && h.value.bytes >= f.padding
            && exists kbps | IsKbps(f.version, f.bitrate, kbps) ::
                 (h.value.bytes - f.padding) * h.value.params.rate <= BytesPerKbps(f.version) * kbps
                 < (h.value.bytes - f.padding + 1) * h.value.params.rate)
  {
    hide FrameHeader, Fields.Bytes;
    HeaderRead(f, tail);
    if f.Legal() {
      assert IsKbps(f.version, f.bitrate, KbpsOf(f));
      LengthFits(f.version, f.sampling, f.bitrate);
      DivBounds(BytesPerKbps(f.version) * KbpsOf(f), RateOf(f));
    }
  }

  /** Every legal length is between a header and the input buffer. */
  lemma LengthFits(version: nat, sampling: nat, bitrate: nat)
    requires (version == 3 || version == 2) && sampling < 3 && 1 <= bitrate <= 14
    ensures var rate := if version == 3 then RATES[sampling] else RATES[sampling] / 2;
      var kbps := if version == 3 then BITRATES1[bitrate] else BITRATES2[bitrate];
      rate >= 16000 && 4 <= BytesPerKbps(version) * kbps / rate <= MAX_FRAME - 1
  {
    assert 32 <= BITRATES1[bitrate] <= 320 && 8 <= BITRATES2[bitrate] <= 160;
    if version == 3 {
      Quotient(144000 * BITRATES1[bitrate], RATES[sampling], 96, 1440);
    } else {
      Quotient(72000 * BITRATES2[bitrate], RATES[sampling] / 2, 24, 720);
    }
  }

  lemma Split1(b: byte)
    requires b >= 224
    ensures 224 + 8 * ((b / 8) % 4) + 2 * ((b / 2) % 4) + b % 2 == b
  {
  }

  lemma Split2(b: byte)
    ensures 16 * (b / 16) + 4 * ((b / 4) % 4) + 2 * ((b / 2) % 2) + b % 2 == b && b / 16 < 16
  {
    var half, quarter := b / 2, b / 4;
    assert b == 2 * half + b % 2;
    assert half == 2 * quarter + half % 2;
    assert b / 16 == quarter / 4;
  }

  lemma Split3(b: byte)
    ensures 64 * (b / 64) + 4 * ((b / 4) % 16) + b % 4 == b && b / 64 < 4
  {
  }

  function FieldsOf(p: seq<byte>): (f: Fields)
    requires |p| >= 4 && p[0] == 255 && p[1] >= 224
    ensures f.Valid()
  {
    Fields((p[1] / 8) % 4, (p[1] / 2) % 4, p[1] % 2, p[2] / 16, (p[2] / 4) % 4, (p[2] / 2) % 2, p[2] % 2,
           p[3] / 64, (p[3] / 4) % 16, p[3] % 4)
  }

  lemma FieldsBack(p: seq<byte>)
    requires |p| >= 4 && p[0] == 255 && p[1] >= 224
    ensures FieldsOf(p).Bytes() == p[..4]
  {
    Split1(p[1]);
    Split2(p[2]);
    Split3(p[3]);
  }

  /** Bytes that are no fields after a sync byte are no header. */
  lemma NoSync(p: seq<byte>)
    ensures |p| < 4 || p[0] != 255 || p[1] < 224 ==> FrameHeader(p) == None
    ensures |p| >= 4 && p[0] == 255 && p[1] >= 224 ==> exists f: Fields :: f.Valid() && p == f.Bytes() + p[4..]
  {
    if |p| >= 4 && p[0] == 255 && p[1] >= 224 {
      hide Fields.Bytes, FieldsOf, FrameHeader;
      FieldsBack(p);
      var f := FieldsOf(p);
      assert f.Valid() && p == f.Bytes() + p[4..];
    }
  }

  /** The padding bit makes a frame exactly one byte longer and changes nothing else. */
  lemma PaddingIsOneByte(f: Fields, tail: seq<byte>)
    requires f.Valid() && f.Legal() && f.padding == 0
    ensures var h, padded := FrameHeader(f.Bytes() + tail), FrameHeader(f.(padding := 1).Bytes() + tail);
      h.Some? && padded == Some(Header(h.value.params, h.value.bytes + 1))
  {
    hide FrameHeader, Fields.Bytes;
    HeaderRead(f, tail);
    HeaderRead(f.(padding := 1), tail);
  }

  // ---- tag headers ----

  /** Four digits of seven bits. */
  function Synchsafe(n: nat): (s: seq<byte>)
    requires n < 268435456
    ensures |s| == 4
  {
    [n / 2097152, n / 16384 % 128, n / 128 % 128, n % 128]
  }

  /** A tag header by section 3.1 of ID3v2.4.0: the high nibble of the flags is unsynchronisation, extended
      header, experimental and footer, in that order; version 2.3 has no footer. */
  function TagHeader(version: byte, revision: byte, used: nat, footer: bool, unused: nat, n: nat): (t: seq<byte>)
    requires used < 8 && unused < 16 && n < 268435456
    ensures |t| == TAG_HEADER
  {
    [73, 68, 51, version, revision, 32 * used + (if footer then 16 else 0) + unused] + Synchsafe(n)
  }

  /** The tag is good exactly when it is of version 2.3 or 2.4 with no unknown flag, and short enough to skip;
      what is skipped is its size, and a footer. */
  lemma TagMeans(version: byte, revision: byte, used: nat, footer: bool, unused: nat, n: nat, tail: seq<byte>)
    requires used < 8 && unused < 16 && n < 268435456
    ensures var t := TagHeader(version, revision, used, footer, unused, n) + tail;
      var size := n + (if version == 4 && footer then 10 else 0);
      && IsTag(t) && TagSize(t) == size
      && (TagOk(t) <==> (version == 3 || version == 4) && revision != 255 && unused == 0
                        && (version == 3 ==> !footer) && size <= 65526)
  {
    var t := TagHeader(version, revision, used, footer, unused, n) + tail;
    SynchsafeValue(n);
    assert t[5] == 32 * used + (if footer then 16 else 0) + unused;
    assert t[6] == n / 2097152 && t[7] == n / 16384 % 128 && t[8] == n / 128 % 128 && t[9] == n % 128;
  }

  lemma SynchsafeValue(n: nat)
    requires n < 268435456
    ensures n / 2097152 * 2097152 + n / 16384 % 128 * 16384 + n / 128 % 128 * 128 + n % 128 == n
    ensures n / 2097152 < 128
  {
    var a, b, c := n / 128, n / 16384, n / 2097152;
    assert n == 128 * a + n % 128;
    assert a / 128 == b && b / 128 == c;
    assert a == 128 * b + a % 128 && b == 128 * c + b % 128;
  }

  /** A size byte with its top bit set is no tag. */
  lemma NotSynchsafe(b: seq<byte>)
    requires |b| >= TAG_HEADER && (b[6] >= 128 || b[7] >= 128 || b[8] >= 128 || b[9] >= 128)
    ensures !TagOk(b)
  {
  }

  // ---- decoded frames ----

  /** A frame fails exactly when the decoder does, gives more than fits, or gives sound of another rate, number
      of channels or an incomplete pair, or when the resampled sound does not fit. */
  lemma DecodeFailsIff(codec: Codec, c: Core)
    requires !c.failed && c.params.Some? && c.params.value.rate > 0
    requires c.params.value.channels == 1 || c.params.value.channels == 2
    ensures var d, p := codec.decode(c.frames + [c.buf]), c.params.value;
      DecodeFrame(codec, c).failed <==>
        || d.DecodeError? || |d.samples| > 2304
        || (d.samples != [] && (d.rate != p.rate || d.channels != p.channels || |d.samples| % p.channels != 0))
        || OutCount(|c.mixed| + |d.samples| / p.channels, p.rate) - OutCount(|c.mixed|, p.rate) > 2304
  {
    var d, p := codec.decode(c.frames + [c.buf]), c.params.value;
    if d.Decoded? {
      var mix := Mix(d.samples, p.channels);
      assert |c.mixed + mix| == |c.mixed| + |d.samples| / p.channels;
      OutCountMonotone(|c.mixed|, |mix|, p.rate);
    }
  }

  /** The mean of a pair lies between them, is the same either way round, and is rounded towards zero. */
  lemma MeanMeans(l: int, r: int)
    ensures (l <= r ==> l <= Mean(l, r) <= r) && Mean(l, r) == Mean(r, l) && Mean(-l, -r) == -Mean(l, r)
    ensures l + r >= 0 ==> 2 * Mean(l, r) <= l + r <= 2 * Mean(l, r) + 1
    ensures l == r ==> Mean(l, r) == l
  {
  }

  function Interleave(l: seq<int>, r: seq<int>): (s: seq<int>)
    requires |l| == |r|
    ensures |s| == 2 * |l|
  {
    if l == [] then []
    else Interleave(l[..|l| - 1], r[..|r| - 1]) + [l[|l| - 1], r[|r| - 1]]
  }

  lemma {:induction false} InterleaveAt(l: seq<int>, r: seq<int>, i: nat)
    requires |l| == |r| && i < |l|
    ensures Interleave(l, r)[2 * i] == l[i] && Interleave(l, r)[2 * i + 1] == r[i]
    decreases |l|
  {
    if i < |l| - 1 {
      InterleaveAt(l[..|l| - 1], r[..|r| - 1], i);
    }
  }

  /** A pair of equal channels mixes to that channel, and one channel is left alone. */
  lemma EqualChannels(xs: seq<int>)
    ensures Mix(Interleave(xs, xs), 2) == xs && Mix(xs, 1) == xs
  {
    forall i | 0 <= i < |xs|
      ensures Mix(Interleave(xs, xs), 2)[i] == xs[i]
    {
      InterleaveAt(xs, xs, i);
      MeanMeans(xs[i], xs[i]);
    }
  }

  // ---- the sound of a stream ----

  function Concat(frames: seq<seq<byte>>): seq<byte> {
    if frames == [] then [] else Concat(frames[..|frames| - 1]) + frames[|frames| - 1]
  }

  /** What the decoder makes of each frame after those before it, mixed down, one after another. */
  function AllMixed(codec: Codec, frames: seq<seq<byte>>, channels: nat): seq<int>
    requires channels == 1 || channels == 2
    decreases |frames|
  {
    if frames == [] then []
    else AllMixed(codec, frames[..|frames| - 1], channels) + Mix(SamplesOf(codec.decode(frames)), channels)
  }

  function SamplesOf(d: Decoded): seq<int> {
    if d.Decoded? then d.samples else []
  }

  /** The frames taken so far are whole, have the same parameters and were decoded in turn. */
  ghost predicate SoundSoFar(codec: Codec, c: Core) {
    if c.frames == [] then c.mixed == [] else
      && c.params.Some? && (c.params.value.channels == 1 || c.params.value.channels == 2)
      && c.mixed == AllMixed(codec, c.frames, c.params.value.channels)
      && forall i | 0 <= i < |c.frames| :: FrameHeader(c.frames[i]) == Some(Header(c.params.value, |c.frames[i]|))
  }

  /** Between bytes: waiting for a header, or for the rest of the frame whose header was read. */
  ghost predicate Waiting(codec: Codec, c: Core) {
    && !c.failed && c.headerChecked && c.skip == 0 && |c.buf| < c.needed && SoundSoFar(codec, c)
    && (if c.needed == 4 then c.frames == [] ==> c.params.None?
        else |c.buf| >= 4 && c.params.Some? && FrameHeader(c.buf) == Some(Header(c.params.value, c.needed)))
  }

  lemma DecodedSays(codec: Codec, c: Core)
    requires c.params.Some? && !c.failed && !DecodeFrame(codec, c).failed
    ensures var c', channels := DecodeFrame(codec, c), c.params.value.channels;
      && (channels == 1 || channels == 2)
      && c'.frames == c.frames + [c.buf] && c'.buf == [] && c'.needed == 4 && c'.params == c.params
      && c'.mixed == c.mixed + Mix(SamplesOf(codec.decode(c.frames + [c.buf])), channels)
      && c'.headerChecked == c.headerChecked && c'.skip == c.skip
  {
    hide OutCount, Outputs, FilterTaps;
  }

  lemma MixedMore(codec: Codec, frames: seq<seq<byte>>, frame: seq<byte>, channels: nat)
    requires channels == 1 || channels == 2
    ensures AllMixed(codec, frames + [frame], channels)
         == AllMixed(codec, frames, channels) + Mix(SamplesOf(codec.decode(frames + [frame])), channels)
  {
    hide Mix, SamplesOf;
    assert (frames + [frame])[..|frames|] == frames;
  }

  lemma {:induction false} FrameTaken(codec: Codec, c: Core)
    requires SoundSoFar(codec, c) && c.params.Some? && FrameHeader(c.buf) == Some(Header(c.params.value, |c.buf|))
    requires !DecodeFrame(codec, c).failed && !c.failed && c.headerChecked && c.skip == 0
    ensures var c' := DecodeFrame(codec, c); Waiting(codec, c') && c'.frames == c.frames + [c.buf] && c'.buf == []
  {
    hide FrameHeader, DecodeFrame, AllMixed, Mix, SamplesOf;
    DecodedSays(codec, c);
    MixedMore(codec, c.frames, c.buf, c.params.value.channels);
    if c.frames == [] {
      NothingMixed(codec, c.params.value.channels);
    }
  }

  lemma NothingMixed(codec: Codec, channels: nat)
    requires channels == 1 || channels == 2
    ensures AllMixed(codec, [], channels) == []
  {
  }

  /** The byte that completes a header. */
  lemma {:induction false} HeaderTaken(codec: Codec, c: Core)
    requires !c.failed && c.headerChecked && c.skip == 0 && |c.buf| == 4 == c.needed && SoundSoFar(codec, c)
    requires (c.frames == [] ==> c.params.None?) && !HaveHeader(codec, c).failed
    ensures var c' := HaveHeader(codec, c); Waiting(codec, c') && c'.frames == c.frames && c'.buf == c.buf
  {
    hide FrameHeader, DecodeFrame;
    FrameBounds(c.buf);
  }

  lemma {:induction false} ByteTaken(codec: Codec, c: Core, b: byte)
    requires Waiting(codec, c) && !Step(Completing(codec), c, b).failed
    ensures var c' := Step(Completing(codec), c, b);
      Waiting(codec, c') && Concat(c'.frames) + c'.buf == Concat(c.frames) + c.buf + [b]
  {
    hide FrameHeader, DecodeFrame, HaveHeader, AllMixed;
    var grown := c.(buf := c.buf + [b], total := c.total + 1);
    if c.needed != 4 {
      HeaderPrefix(grown.buf, |c.buf|);
      assert grown.buf[..|c.buf|] == c.buf;
    }
    if |grown.buf| == grown.needed {
      if c.needed == 4 {
        HeaderTaken(codec, grown);
      } else {
        FrameTaken(codec, grown);
        assert (c.frames + [grown.buf])[..|c.frames|] == c.frames;
      }
    }
  }

  lemma {:induction false} BytesTaken(codec: Codec, c: Core, data: seq<byte>)
    requires Waiting(codec, c) && !Run(Completing(codec), c, data).failed
    ensures var c' := Run(Completing(codec), c, data);
      Waiting(codec, c') && Concat(c'.frames) + c'.buf == Concat(c.frames) + c.buf + data
    decreases |data|
  {
    hide Waiting, Step;
    if data == [] {
      assert Concat(c.frames) + c.buf + data == Concat(c.frames) + c.buf;
    } else {
      var c1 := Step(Completing(codec), c, data[0]);
      if c1.failed {
        FailedStays(Completing(codec), c1, data[1..]);
      }
      ByteTaken(codec, c, data[0]);
      BytesTaken(codec, c1, data[1..]);
      assert Concat(c.frames) + c.buf + data == Concat(c.frames) + c.buf + [data[0]] + data[1..];
    }
  }

  /** A stream without the tag it may open with. */
  function Body(data: seq<byte>): seq<byte> {
    if |data| >= TAG_HEADER && IsTag(data) then
      if TAG_HEADER + TagSize(data) <= |data| then data[TAG_HEADER + TagSize(data)..] else []
    else data
  }

  /** What a stream taken whole sounds like: its body is its frames one after another, each with its header
      and length, and the signal that is resampled is what the decoder makes of them in turn. */
  lemma {:induction false} StreamIsFrames(codec: Codec, data: seq<byte>)
    requires |data| <= MAX_BYTES && Whole(Run(Completing(codec), INIT, data))
    ensures var c := Run(Completing(codec), INIT, data);
      Concat(c.frames) == Body(data) && SoundSoFar(codec, c)
  {
    hide FrameHeader, Run, Completing, SoundSoFar, Concat;
    var full := Completing(codec);
    if |data| < TAG_HEADER {
      ShortNotAccepted(codec, data);
    } else {
      var head, rest := data[..TAG_HEADER], data[TAG_HEADER..];
      assert data == head + rest;
      RunAppend(full, INIT, head, rest);
      if Run(full, INIT, head).failed {
        FailedStays(full, Run(full, INIT, head), rest);
      }
      if IsTag(data) {
        AfterTagHeader(codec, head);
        assert IsTag(head) && TagOk(head) == TagOk(data) && TagSize(head) == TagSize(data);
        BodyTaken(codec, Run(full, INIT, head), rest);
        assert TagSize(data) <= |rest| ==> rest[TagSize(data)..] == data[TAG_HEADER + TagSize(data)..];
      } else {
        WindowIsHarmless(codec, head);
        RunAppend(full, INIT.(headerChecked := true, needed := 4), head, rest);
        BodyTaken(codec, INIT.(headerChecked := true, needed := 4), data);
      }
    }
  }

  lemma {:induction false} BodyTaken(codec: Codec, c: Core, rest: seq<byte>)
    requires !c.failed && c.headerChecked && c.frames == [] && c.buf == [] && c.needed == 4 && c.mixed == []
    requires c.params.None? && c.total + |rest| <= MAX_BYTES && Whole(Run(Completing(codec), c, rest))
    ensures var c' := Run(Completing(codec), c, rest);
      c.skip <= |rest| && Concat(c'.frames) == rest[c.skip..] && SoundSoFar(codec, c')
  {
    if |rest| < c.skip {
      SkipBlock(Completing(codec), c, rest);
    } else {
      SkipThenRun(Completing(codec), c, rest);
      BytesTaken(codec, c.(skip := 0, total := c.total + c.skip), rest[c.skip..]);
      assert [] + rest[c.skip..] == rest[c.skip..];
    }
  }

  lemma CompleteKeepsTotal(codec: Codec, c: Core)
    ensures Complete(codec, c).total == c.total
  {
    hide FrameHeader, OutCount, Outputs, FilterTaps, DecodeFits;
  }

  /** Every byte taken is counted, and a stream longer than 16 MiB fails. */
  lemma {:induction false} TooLongFails(codec: Codec, c: Core, data: seq<byte>)
    requires c.total <= MAX_BYTES
    ensures var c' := Run(Completing(codec), c, data);
      c'.failed || c'.total == c.total + |data| <= MAX_BYTES
    decreases |data|
  {
    hide Complete;
    if data != [] {
      var c1 := Step(Completing(codec), c, data[0]);
      if c1.failed {
        FailedStays(Completing(codec), c1, data[1..]);
      } else {
        CompleteKeepsTotal(codec, c.(buf := c.buf + [data[0]], total := c.total + 1));
        TooLongFails(codec, c1, data[1..]);
      }
    }
  }

  // ---- the resampler ----

  /** The filter answers a single sample with its taps, one after another, and then with silence. */
  lemma {:induction false} ImpulseResponse(taps: seq<real>, xs: seq<int>, k: nat, i: nat)
    requires |taps| == TAPS && k < |xs| && forall j | 0 <= j < |xs| && j != k :: xs[j] == 0
    ensures Filtered(taps, xs, i) == if k <= i < k + TAPS then taps[i - k] * xs[k] as real else 0.0
  {
    ImpulseProducts(taps, xs, k, i, TAPS);
  }

  lemma {:induction false} ImpulseProducts(taps: seq<real>, xs: seq<int>, k: nat, i: nat, n: nat)
    requires n <= |taps| && k < |xs| && forall j | 0 <= j < |xs| && j != k :: xs[j] == 0
    ensures Products(taps, xs, i, n) == if k <= i < k + n then taps[i - k] * xs[k] as real else 0.0
    decreases n
  {
    if n > 0 {
      ImpulseProducts(taps, xs, k, i, n - 1);
      assert Input(xs, i - (n - 1)) == if i - (n - 1) == k then xs[k] as real else 0.0;
    }
  }

  function Sum(xs: seq<int>, ys: seq<int>): (s: seq<int>)
    requires |xs| == |ys|
    ensures |s| == |xs|
  {
    seq(|xs|, i requires 0 <= i < |xs| => xs[i] + ys[i])
  }

  /** And two signals together with the sum of its answers. */
  lemma {:induction false} FilterAdds(taps: seq<real>, xs: seq<int>, ys: seq<int>, i: int, n: nat)
    requires n <= |taps| && |xs| == |ys|
    ensures Products(taps, Sum(xs, ys), i, n) == Products(taps, xs, i, n) + Products(taps, ys, i, n)
    decreases n
  {
    if n > 0 {
      FilterAdds(taps, xs, ys, i, n - 1);
      var j := i - (n - 1);
      assert Input(Sum(xs, ys), j) == Input(xs, j) + Input(ys, j);
      Distribute(taps[n - 1], Input(xs, j), Input(ys, j));
    }
  }

  lemma Distribute(t: real, a: real, b: real)
    ensures t * (a + b) == t * a + t * b
  {
  }

  /** At 24 kHz every input is output as it is. */
  lemma NothingToResample(taps: seq<real>, xs: seq<int>)
    requires |taps| == TAPS
    ensures Outputs(taps, xs, OUT_RATE, 0, OutCount(|xs|, OUT_RATE)) == xs
  {
    OutCountUnit(|xs|);
  }

  /** At the position of an input the output is the filtered input itself. */
  lemma {:induction false} OutputAtInput(taps: seq<real>, xs: seq<int>, i: nat)
    requires |taps| == TAPS
    ensures Interpolated(taps, xs, i * OUT_RATE) == Filtered(taps, xs, i)
  {
    var pos := i * OUT_RATE;
    DivIs(pos + OUT_RATE - 1, OUT_RATE, i);
    if i > 0 {
      assert pos - (i - 1) * OUT_RATE == OUT_RATE;
      assert Fraction(pos, i) == 1.0;
      var before, now := Filtered(taps, xs, i - 1), Filtered(taps, xs, i);
      assert (now - before) * 1.0 == now - before;
    }
  }

  /** Between two inputs it lies on the line between them, at the share of the way that its position is. */
  lemma {:induction false} OutputBetween(taps: seq<real>, xs: seq<int>, i: nat, along: nat)
    requires |taps| == TAPS && 0 < along <= OUT_RATE
    ensures var a, b := Filtered(taps, xs, i), Filtered(taps, xs, i + 1);
      var o := Interpolated(taps, xs, i * OUT_RATE + along);
      && OUT_RATE as real * o == (OUT_RATE - along) as real * a + along as real * b
      && (a <= b ==> a <= o <= b) && (b <= a ==> b <= o <= a)
  {
    hide Filtered;
    var a, b := Filtered(taps, xs, i), Filtered(taps, xs, i + 1);
    var o := Interpolated(taps, xs, i * OUT_RATE + along);
    var d, f := b - a, along as real / OUT_RATE as real;
    var part := d * f;
    BetweenIs(taps, xs, i, along, f, d, part);
    Scaled(d, f, part);
    Share(a, b, along, f, part);
  }

  lemma {:induction false} BetweenIs(taps: seq<real>, xs: seq<int>, i: nat, along: nat, f: real, d: real, part: real)
    requires |taps| == TAPS && 0 < along <= OUT_RATE && f == along as real / OUT_RATE as real
    requires d == Filtered(taps, xs, i + 1) - Filtered(taps, xs, i) && part == d * f
    ensures Interpolated(taps, xs, i * OUT_RATE + along) == Filtered(taps, xs, i) + part
  {
    hide Filtered;
    var pos := i * OUT_RATE + along;
    DivIs(pos + OUT_RATE - 1, OUT_RATE, i + 1);
    assert IndexAfter(pos) == i + 1;
    var before: nat := i + 1 - 1;
    assert before == i;
    assert pos - before * OUT_RATE == along;
    assert Fraction(pos, i + 1) == f;
  }

  lemma Scaled(d: real, f: real, part: real)
    requires 0.0 <= f <= 1.0 && part == d * f
    ensures d >= 0.0 ==> 0.0 <= part <= d
    ensures d <= 0.0 ==> d <= part <= 0.0
  {
    assert d - part == d * (1.0 - f);
  }

  lemma Share(a: real, b: real, along: nat, f: real, part: real)
    requires along <= OUT_RATE && f == along as real / OUT_RATE as real && part == (b - a) * f
    ensures OUT_RATE as real * (a + part) == (OUT_RATE - along) as real * a + along as real * b
  {
    var n, k := OUT_RATE as real, along as real;
    var d := b - a;
    assert n * f == k;
    assert n * part == d * (n * f);
    Distribute(n, a, part);
    Distribute(k, a, d);
    assert b == a + d;
  }

  /** A sample is cut off at the ends of its range and otherwise rounded towards zero. */
  lemma SampleMeans(x: real)
    ensures -32768 <= ToSample(x) <= 32767
    ensures x >= 32767.0 ==> ToSample(x) == 32767
    ensures x <= -32768.0 ==> ToSample(x) == -32768
    ensures 0.0 <= x <= 32767.0 ==> ToSample(x) as real <= x < ToSample(x) as real + 1.0
    ensures -32768.0 <= x <= 0.0 ==> ToSample(x) as real - 1.0 < x <= ToSample(x) as real
  {
  }
}
