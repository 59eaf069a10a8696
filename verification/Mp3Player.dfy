/** The streaming MP3 player: fixed buffers filled in place, a queue the sink empties at its own pace, and
    the decoder and resampler run once per whole frame. Its ghost `core` is the one-byte-at-a-time machine
    the fields are proved to follow. */
module Mp3Player {
  import opened Bytes
  import opened Mp3Stream
  import opened Options
  import opened Pcm
  import opened Resampler

  method CopyIn(dst: array<byte>, at: nat, src: seq<byte>)
    requires at + |src| <= dst.Length
    modifies dst
    ensures dst[..at + |src|] == old(dst[..at]) + src
  {
    ghost var before := dst[..at];
    var i := 0;
    assert src[..0] == [];
    while i < |src|
      invariant i <= |src| && dst[..at + i] == before + src[..i]
    {
      ghost var front := dst[..at + i];
      dst[at + i] := src[i];
      assert dst[..at + i] == front;
      assert dst[..at + i + 1] == front + [src[i]];
      assert src[..i + 1] == src[..i] + [src[i]];
      i := i + 1;
    }
    assert src[..i] == src;
  }

  class Player {
    const codec: Codec
    const sink: Sink
    const input: array<byte>
    const output: array<int>
    const resampler: Converter         // holds the rate too
    var used: nat
    var needed: nat
    var total: nat
    var skip: nat
    var channels: nat
    var version: nat
    var decoder: seq<seq<byte>>    // the decoder's state: the frames it has been given
    var frames: nat
    var headerChecked: bool
    var failed: bool
    var finished: bool
    var queued: nat
    var sent: nat
    var pcmSamples: nat
    ghost var core: Core

    /** The decoding side of the fields is that of the machine. */
    ghost predicate Follows(c: Core)
      reads `used, `needed, `total, `skip, `headerChecked, input
      reads `channels, `version, `decoder, `frames, `pcmSamples, resampler, resampler.history
    {
      && headerChecked == c.headerChecked && skip == c.skip && total == c.total
      && used <= input.Length && input[..used] == c.buf
      && needed == c.needed <= input.Length
      && Tracks(c)
    }

    /** What the decoder and the resampler have been through. */
    ghost predicate Tracks(c: Core)
      reads `channels, `version, `decoder, `frames, `pcmSamples, resampler, resampler.history
    {
      && decoder == c.frames && frames == |c.frames| && pcmSamples == |c.mixed|
      && Resampling(c.mixed) && (c.params.None? ==> c.frames == [])
      && (c.params.None? <==> resampler.rate == 0)
      && (c.params.Some? ==>
            c.params.value == Params(resampler.rate, channels, version) && (channels == 1 || channels == 2))
    }

    /** The resampler has taken exactly `xs`. */
    ghost predicate Resampling(xs: seq<int>)
      reads resampler, resampler.history
    {
      && resampler.Valid() && resampler.inputs == xs
      && (resampler.rate > 0 ==> resampler.taps == FilterTaps(codec, resampler.rate))
    }

    /** What has been produced and not yet taken. */
    ghost function Pending(): seq<byte>
      requires sent <= queued <= 2 * output.Length && queued % 2 == 0
      reads `sent, `queued, output
    {
      ToBytes(output[..queued / 2])[sent..]
    }

    /** What the sink took, then what is pending, is all that was produced. */
    ghost predicate QueueOk(pcm: seq<byte>)
      reads `sent, `queued, output, sink
    {
      && sent <= queued <= 2 * output.Length && queued % 2 == 0 && sent % 2 == 0
      && sink.received + Pending() == pcm
    }

    ghost predicate Waiting()
      reads `used, `needed, `skip, `headerChecked, resampler`rate
    {
      && used < needed
      && (if headerChecked then needed == 4 || resampler.rate > 0 else needed == TAG_HEADER && skip == 0)
    }

    /** A player that failed has delivered what it produced up to then, or a part if the sink was at fault. */
    ghost predicate Delivered(pcm: seq<byte>)
      reads `queued, sink
    {
      sink.received <= pcm && (queued == 0 && !sink.fault ==> sink.received == pcm)
    }

    /** The player is in the state of the machine `c`. */
    ghost predicate Holds(c: Core)
      reads `used, `needed, `total, `skip, `headerChecked, `channels, `version, `decoder, `frames, `pcmSamples
      reads `failed, `queued, `sent, sink, input, output, resampler, resampler.history
    {
      && failed == (c.failed || sink.fault)
      && (if failed then Delivered(c.pcm) else Follows(c) && Waiting() && QueueOk(c.pcm))
    }

    ghost predicate Valid()
      reads this, sink, input, output, resampler, resampler.history
    {
      input.Length == MAX_FRAME && output.Length == PCM_SAMPLES && Holds(core)
    }

    lemma QueueDelivers(pcm: seq<byte>)
      requires QueueOk(pcm)
      ensures Delivered(pcm)
    {
      assert queued == 0 ==> Pending() == [];
    }

    constructor (codec: Codec, sink: Sink)
      requires !sink.fault && sink.received == []
      ensures Valid() && !failed && !finished && core == INIT && this.codec == codec && this.sink == sink
      ensures fresh(input) && fresh(output) && fresh(resampler) && fresh(resampler.history)
    {
      this.codec, this.sink := codec, sink;
      input := new byte[MAX_FRAME](_ => 0);
      output := new int[PCM_SAMPLES](_ => 0);
      resampler := new Converter();
      used, needed, total, skip := 0, TAG_HEADER, 0, 0;
      channels, version, frames, decoder := 0, 0, 0, [];
      headerChecked, failed, finished := false, false, false;
      queued, sent, pcmSamples := 0, 0, 0;
      core := INIT;
      new;
      assert input[..0] == [] && output[..0] == [];
    }

    // ---- the queue ----

    /** Offer the queue to the sink once. */
    method Drain() returns (empty: bool)
      requires Valid() && !failed
      modifies this`sent, this`queued, this`failed, sink
      ensures Valid() && core == old(core)
      ensures old(sink.received) <= sink.received
      ensures empty ==> !failed && queued == 0
      ensures !empty && !failed ==> sent < queued
      ensures old(sink.script) == [] ==> empty && sink.script == [] && !sink.fault
    {
      hide Tracks;
      if sent < queued {
        var n := Offer(core.pcm);
        if sink.fault {
          failed := true;
          return false;
        }
      }
      assert Follows(core) && Waiting();
      if sent != queued {
        return false;
      }
      EmptyQueue(core.pcm);
      return true;
    }

    method EmptyQueue(ghost pcm: seq<byte>)
      requires QueueOk(pcm) && sent == queued
      modifies this`sent, this`queued
      ensures QueueOk(pcm) && queued == 0
    {
      assert Pending() == [];
      sent, queued := 0, 0;
      assert output[..0] == [];
    }

    /** One call of the sink: a fault leaves the queue as it was. */
    method Offer(ghost pcm: seq<byte>) returns (n: nat)
      requires QueueOk(pcm) && sent < queued && !sink.fault
      modifies this`sent, sink
      ensures sink.fault <==> n > old(queued - sent) || n % 2 == 1
      ensures !sink.fault ==> QueueOk(pcm) && sent == old(sent) + n
      ensures old(sink.received) <= sink.received <= pcm
      ensures old(sink.script) == [] ==> sink.script == [] && n == old(queued - sent)
    {
      hide ToBytes;
      var all := ToBytes(output[..queued / 2]);
      var offer := all[sent..];
      n := sink.Write(offer);
      if n <= |offer| {
        MoveOver(old(sink.received), all, sent, n, pcm);
      }
      if n > queued - sent || n % 2 == 1 {
        return;
      }
      sent := sent + n;
    }

    static lemma MoveOver(received: seq<byte>, all: seq<byte>, sent: nat, n: nat, pcm: seq<byte>)
      requires sent + n <= |all| && received + all[sent..] == pcm
      ensures received + all[sent..][..n] <= pcm && received + all[sent..][..n] + all[sent + n..] == pcm
    {
      assert all[sent..] == all[sent..][..n] + all[sent + n..];
      assert received + all[sent..] == received + all[sent..][..n] + all[sent + n..];
    }

    // ---- decoding one frame ----

    /** The first `i` samples of a frame have been consumed and their outputs written. */
    ghost predicate RenderedTo(xs: seq<int>, mix: seq<int>, i: nat, out: nat)
      requires i <= |mix|
      reads resampler, resampler.history, output
    {
      && Resampling(xs + mix[..i]) && resampler.rate > 0
      && OutCount(|xs| + i, resampler.rate) == OutCount(|xs|, resampler.rate) + out && out <= output.Length
      && output[..out] == Rendered(FilterTaps(codec, resampler.rate), xs, mix, i, resampler.rate)
    }

    /** Mix down and resample a decoded frame into the empty output buffer. */
    method Render(samples: seq<int>, ghost xs: seq<int>, ghost mix: seq<int>) returns (out: nat, ok: bool)
      requires Resampling(xs) && resampler.rate > 0 && (channels == 1 || channels == 2)
      requires mix == Mix(samples, channels) && |samples| <= output.Length
      modifies output, resampler, resampler.history
      ensures resampler.rate == old(resampler.rate)
      ensures OutCount(|xs|, resampler.rate) <= OutCount(|xs| + |mix|, resampler.rate)
      ensures ok <==> OutCount(|xs| + |mix|, resampler.rate) - OutCount(|xs|, resampler.rate) <= output.Length
      ensures ok ==> RenderedTo(xs, mix, |mix|, out)
    {
      var count := |samples| / channels;
      out, ok := 0, true;
      OutCountMonotone(|xs|, |mix|, resampler.rate);
      assert RenderedTo(xs, mix, 0, 0) by {
        assert xs + mix[..0] == xs && output[..0] == [];
      }
      var i := 0;
      while i < count
        invariant i <= count == |mix| && RenderedTo(xs, mix, i, out) && resampler.rate == old(resampler.rate)
      {
        var mixed := if channels == 2 then Mean(samples[2 * i], samples[2 * i + 1]) else samples[i];
        out, ok := RenderOne(mixed, xs, mix, i, out);
        if !ok {
          return;
        }
        i := i + 1;
      }
    }

    method RenderOne(x: int, ghost xs: seq<int>, ghost mix: seq<int>, ghost i: nat, out: nat)
      returns (end: nat, ok: bool)
      requires i < |mix| <= output.Length && x == mix[i] && RenderedTo(xs, mix, i, out)
      modifies output, resampler, resampler.history
      ensures resampler.rate == old(resampler.rate)
      ensures ok ==> RenderedTo(xs, mix, i + 1, end)
      ensures OutCount(|xs|, resampler.rate) <= OutCount(|xs| + |mix|, resampler.rate)
      ensures !ok ==> OutCount(|xs| + |mix|, resampler.rate) - OutCount(|xs|, resampler.rate) > output.Length
    {
      RenderedStep(FilterTaps(codec, resampler.rate), xs, mix, i, resampler.rate);
      OutCountMonotone(|xs|, |mix|, resampler.rate);
      if resampler.rate == OUT_RATE {
        OutCountUnit(|xs|);
        OutCountUnit(|xs| + i);
      }
      end, ok := resampler.Feed(x, output, out);
    }

    /** The outputs of the first `i` samples of a frame. */
    static ghost function Rendered(taps: seq<real>, xs: seq<int>, mix: seq<int>, i: nat, rate: nat): seq<int>
      requires |taps| == TAPS && rate > 0 && i <= |mix|
    {
      OutCountMonotone(|xs|, i, rate);
      Outputs(taps, xs + mix[..i], rate, OutCount(|xs|, rate), OutCount(|xs| + i, rate))
    }

    static lemma {:induction false} RenderedStep(taps: seq<real>, xs: seq<int>, mix: seq<int>, i: nat, rate: nat)
      requires |taps| == TAPS && rate > 0 && i < |mix|
      ensures xs + mix[..i] + [mix[i]] == xs + mix[..i + 1]
      ensures OutCount(|xs| + i + 1, rate) <= OutCount(|xs| + |mix|, rate)
      ensures OutCount(|xs| + i, rate) <= OutCount(|xs| + i + 1, rate)
      ensures Rendered(taps, xs, mix, i + 1, rate) == Rendered(taps, xs, mix, i, rate)
          + Outputs(taps, xs + mix[..i + 1], rate, OutCount(|xs| + i, rate), OutCount(|xs| + i + 1, rate))
    {
      var before := xs + mix[..i];
      assert before + [mix[i]] == xs + mix[..i + 1];
      OutCountMonotone(|xs|, i, rate);
      OutCountGrows(|xs| + i, rate);
      OutCountMonotone(|xs| + i + 1, |mix| - i - 1, rate);
      OutputsExtend(taps, before, [mix[i]], rate, OutCount(|xs|, rate));
    }

    /** Count and render a frame and make its bytes the queue. */
    method Enqueue(samples: seq<int>, ghost xs: seq<int>, ghost mix: seq<int>, ghost pcm: seq<byte>) returns (ok: bool)
      requires Resampling(xs) && resampler.rate > 0 && (channels == 1 || channels == 2)
      requires mix == Mix(samples, channels) && |samples| <= output.Length && sink.received == pcm
      requires pcmSamples == |xs|
      modifies this`pcmSamples, this`queued, this`sent, output, resampler, resampler.history
      ensures resampler.rate == old(resampler.rate) && pcmSamples == |xs + mix|
      ensures OutCount(|xs|, resampler.rate) <= OutCount(|xs| + |mix|, resampler.rate)
      ensures ok <==> OutCount(|xs| + |mix|, resampler.rate) - OutCount(|xs|, resampler.rate) <= output.Length
      ensures if ok then Resampling(xs + mix) else queued == old(queued)
      ensures ok ==> QueueOk(pcm + ToBytes(Rendered(FilterTaps(codec, resampler.rate), xs, mix, |mix|, resampler.rate)))
    {
      pcmSamples := pcmSamples + |samples| / channels;
      var out;
      out, ok := Render(samples, xs, mix);
      if ok {
        queued, sent := out * 2, 0;
        assert mix[..|mix|] == mix;
        assert Pending() == ToBytes(output[..out]);
      }
    }

    /** `after` is what decoding the buffered frame makes of `c`. */
    ghost predicate FrameOutcome(c: Core, after: Core)
      requires c.params.Some? && c.params.value.rate > 0
    {
      var p, d := c.params.value, codec.decode(c.frames + [c.buf]);
      if !DecodeFits(d, p) then after == Fail(c)
      else
        var mix := Mix(d.samples, p.channels);
        if OutCount(|c.mixed| + |mix|, p.rate) - OutCount(|c.mixed|, p.rate) > PCM_SAMPLES then after == Fail(c)
        else after == c.(
          frames := c.frames + [c.buf], mixed := c.mixed + mix, buf := [], needed := 4,
          pcm := c.pcm + ToBytes(Rendered(FilterTaps(codec, p.rate), c.mixed, mix, |mix|, p.rate)))
    }

    lemma {:induction false} DecodeFrameOutcome(c: Core)
      requires c.params.Some? && c.params.value.rate > 0
      ensures FrameOutcome(c, DecodeFrame(codec, c))
    {
      var p, d := c.params.value, codec.decode(c.frames + [c.buf]);
      if DecodeFits(d, p) {
        var mix := Mix(d.samples, p.channels);
        OutCountMonotone(|c.mixed|, |mix|, p.rate);
        assert mix[..|mix|] == mix;
      }
    }

    /** Decode the frame in the input buffer and queue its sound. */
    method Decode(ghost c: Core, ghost after: Core) returns (ok: bool)
      requires Tracks(c) && !c.failed && resampler.rate > 0 && output.Length == PCM_SAMPLES
      requires used == needed <= input.Length && input[..used] == c.buf
      requires queued == sent == 0 && sink.received == c.pcm && FrameOutcome(c, after)
      modifies this`decoder, this`frames, this`pcmSamples, this`queued, this`sent
      modifies output, resampler, resampler.history
      ensures ok <==> !after.failed
      ensures if ok then Tracks(after) && QueueOk(after.pcm) else queued == 0
    {
      hide Rendered, ToBytes, OutCount, QueueOk;
      decoder := decoder + [input[..needed]];
      var d := codec.decode(decoder);
      if !DecodeFits(d, Params(resampler.rate, channels, version)) {
        return false;
      }
      ok := Enqueue(d.samples, c.mixed, Mix(d.samples, channels), c.pcm);
      if ok {
        assert QueueOk(after.pcm);
        frames := frames + 1;
      }
    }

    // ---- feeding ----

    /** Take the next block of a tag to be skipped. */
    method SkipBytes(data: seq<byte>, offset: nat) returns (n: nat)
      requires Valid() && !failed && offset < |data| && skip > 0 && total < MAX_BYTES
      modifies this`skip, this`total, this`core
      ensures Valid() && !failed && 0 < n <= |data| - offset
      ensures core == Run(Completing(codec), old(core), data[offset..offset + n])
    {
      hide Resampling;
      n := Min(Min(|data| - offset, skip), MAX_BYTES - total);
      skip, total := skip - n, total + n;
      SkipBlock(Completing(codec), core, data[offset..offset + n]);
      core := Run(Completing(codec), core, data[offset..offset + n]);
    }

    /** Copy the next block into the input buffer. */
    method CopyBytes(data: seq<byte>, offset: nat, ghost c: Core) returns (n: nat)
      requires input.Length == MAX_FRAME && Follows(c) && used < needed && offset < |data| && total < MAX_BYTES
      modifies this`used, this`total, input
      ensures 0 < n <= |data| - offset && used == old(used) + n <= needed && total == old(total) + n <= MAX_BYTES
      ensures Follows(c.(buf := c.buf + data[offset..offset + n], total := total))
    {
      n := Min(Min(needed - used, |data| - offset), MAX_BYTES - total);
      CopyIn(input, used, data[offset..offset + n]);
      used, total := used + n, total + n;
    }

    /** Look for a tag in the opening window; `go` when the window is to be read as a frame header. */
    method OpenStream(ghost c: Core) returns (go: bool)
      requires input.Length == MAX_FRAME && !failed && !c.failed && Follows(c) && used >= TAG_HEADER
      modifies this`headerChecked, this`skip, this`used, this`needed, this`failed
      ensures failed == Opened(c).failed && go == !IsTag(c.buf)
      ensures !failed ==> Follows(Opened(c)) && needed == 4
      ensures used == if go || failed then old(used) else 0
    {
      headerChecked := true;
      var b := input[..used];
      go := !IsTag(b);
      if !go {
        if !TagOk(b) {
          failed := true;
          return;
        }
        skip, used := TagSize(b), 0;
      }
      needed := 4;
      assert input[..0] == [];
    }

    /** Read a frame header; the first one fixes the parameters and the filter. */
    method LearnHeader(ghost c: Core)
      requires input.Length == MAX_FRAME && !failed && !c.failed && Follows(c) && needed == 4 <= used
      modifies this`channels, this`version, this`needed, this`failed, resampler`rate, resampler`taps
      ensures failed == Learned(c).failed
      ensures !failed ==> Follows(Learned(c)) && resampler.rate > 0 && needed > TAG_HEADER
    {
      var h := FrameHeader(input[..used]);
      FrameBounds(input[..used]);
      if h.None? {
        failed := true;
        return;
      }
      var p := h.value.params;
      if frames > 0 && (p.rate != resampler.rate || p.channels != channels || p.version != version) {
        failed := true;
        return;
      }
      if resampler.rate == 0 {
        resampler.SetRate(p.rate, FilterTaps(codec, p.rate));
        channels, version := p.channels, p.version;
      }
      needed := h.value.bytes;
    }

    /** The buffer holds what was needed and the queue is empty. */
    ghost predicate Filled(c: Core)
      reads this, sink, input, output, resampler, resampler.history
    {
      && input.Length == MAX_FRAME && output.Length == PCM_SAMPLES
      && !failed && !c.failed && !sink.fault && Follows(c) && used == needed
      && sent == queued == 0 && QueueOk(c.pcm)
      && (if headerChecked then needed == 4 || resampler.rate > 0 else needed == TAG_HEADER && skip == 0)
    }

    /** Decode the buffered frame and start on the next header. */
    method TakeFrame(ghost c: Core) returns (ok: bool, ghost after: Core)
      requires Filled(c) && headerChecked && resampler.rate > 0
      modifies this`used, this`needed, this`failed
      modifies this`decoder, this`frames, this`pcmSamples, this`queued, this`sent
      modifies output, resampler, resampler.history
      ensures after == DecodeFrame(codec, c) && Holds(after) && ok == !failed && (!ok ==> queued == 0)
    {
      DecodeFrameOutcome(c);
      assert Delivered(c.pcm) by {
        QueueDelivers(c.pcm);
      }
      hide DecodeFrame, Rendered, Resampling;
      after := DecodeFrame(codec, c);
      ok := Decode(c, after);
      Restart(ok, c, after);
    }

    /** After a frame: a failure is final, otherwise the buffer is empty and a header is next. */
    method Restart(ok: bool, ghost c: Core, ghost after: Core)
      requires !failed && !sink.fault && headerChecked && ok == !after.failed && (ok ==> resampler.rate > 0)
      requires headerChecked == c.headerChecked && skip == c.skip && total == c.total && 4 <= input.Length
      requires if ok then Tracks(after) && QueueOk(after.pcm) else Delivered(after.pcm)
      requires ok ==>
        after == c.(frames := after.frames, mixed := after.mixed, buf := [], needed := 4, pcm := after.pcm)
      modifies this`used, this`needed, this`failed
      ensures Holds(after) && failed == !ok
    {
      failed := !ok;
      if ok {
        used, needed := 0, 4;
        assert input[..0] == [];
      }
    }

    /** Act on a full buffer. */
    method Examine(ghost c: Core) returns (decoded: bool, ghost after: Core)
      requires Filled(c)
      modifies this`headerChecked, this`skip, this`used, this`needed, this`failed, this`channels
      modifies this`version, this`decoder, this`frames, this`pcmSamples, this`queued, this`sent
      modifies output, resampler, resampler.history
      ensures after == Complete(codec, c) && Holds(after)
      ensures decoded ==> !failed
      ensures !decoded ==> queued == 0
    {
      hide Resampling, DecodeFrame;
      assert Delivered(c.pcm) by {
        QueueDelivers(c.pcm);
      }
      after := c;
      if !headerChecked {
        after := Opened(c);
        var go := OpenStream(c);
        if !go {
          return false, after;
        }
      }
      if needed == 4 {
        LearnHeader(after);
        after := Learned(after);
        if failed || used < needed {
          return false, after;
        }
      }
      decoded, after := TakeFrame(after);
    }

    /** `c` after the bytes up to `offset`; a machine that failed is what it will be after all of them. */
    ghost predicate Ran(c: Core, data: seq<byte>, offset: nat)
      requires offset <= |data|
      reads `core
    {
      || core == Run(Completing(codec), c, data[..offset])
      || (core.failed && core == Run(Completing(codec), c, data))
    }

    lemma RanOn(c0: Core, c: Core, data: seq<byte>, offset: nat, n: nat)
      requires offset + n <= |data| && c == Run(Completing(codec), c0, data[..offset])
      requires Ran(c, data[offset..], n)
      ensures Ran(c0, data, offset + n)
    {
      var full := Completing(codec);
      assert data[..offset + n] == data[..offset] + data[offset..][..n];
      RunAppend(full, c0, data[..offset], data[offset..][..n]);
      assert data == data[..offset] + data[offset..];
      RunAppend(full, c0, data[..offset], data[offset..]);
    }

    /** Once it has taken everything, or failed, the player is what all of the data makes of it. */
    lemma RanAll(c: Core, data: seq<byte>, n: nat)
      requires n <= |data| && Ran(c, data, n) && (core.failed || n == |data|)
      ensures core == Run(Completing(codec), c, data)
    {
      assert data == data[..n] + data[n..];
      RunAppend(Completing(codec), c, data[..n], data[n..]);
      if core.failed {
        FailedStays(Completing(codec), core, data[n..]);
      }
    }

    /** Copy a block and act on the buffer if that fills it. */
    method TakeBlock(data: seq<byte>, offset: nat, ghost c: Core) returns (n: nat, decoded: bool, ghost after: Core)
      requires input.Length == MAX_FRAME && output.Length == PCM_SAMPLES && Holds(c)
      requires !failed && queued == 0 && offset < |data| && skip == 0 && total < MAX_BYTES
      modifies this`headerChecked, this`skip, this`total, this`used, this`needed, this`failed, this`channels
      modifies this`version, this`decoder, this`frames, this`pcmSamples, this`queued, this`sent
      modifies input, output, resampler, resampler.history
      ensures 0 < n <= |data| - offset && Holds(after) && after == Run(Completing(codec), c, data[offset..offset + n])
      ensures decoded ==> !failed
      ensures !decoded ==> queued == 0
    {
      hide Complete, Tracks;
      n := CopyBytes(data, offset, c);
      after := c.(buf := c.buf + data[offset..offset + n], total := total);
      assert QueueOk(after.pcm);
      CopyBlock(Completing(codec), c, data[offset..offset + n]);
      if used < needed {
        return n, false, after;
      }
      decoded, after := Examine(after);
    }

    /** One turn of the feeding loop. */
    method Take(data: seq<byte>, offset: nat) returns (n: nat, more: bool)
      requires Valid() && !failed && queued == 0 && offset < |data|
      modifies this`headerChecked, this`skip, this`total, this`used, this`needed, this`failed, this`core, this`channels
      modifies this`version, this`decoder, this`frames, this`pcmSamples, this`queued, this`sent
      modifies input, output, resampler, resampler.history, sink
      ensures Valid() && offset + n <= |data| && (n == 0 ==> failed)
      ensures Ran(old(core), data[offset..], n)
      ensures more ==> !failed && queued == 0
      ensures !more && !failed ==> sent < queued
      ensures old(sink.received) <= sink.received
      ensures old(sink.script) == [] ==> sink.script == [] && (more || core.failed) && queued == 0 && !sink.fault
    {
      hide Tracks;
      ghost var full, rest := Completing(codec), data[offset..];
      if total >= MAX_BYTES {
        assert Delivered(core.pcm) by {
          QueueDelivers(core.pcm);
        }
        failed, core := true, Fail(core);
        FailedStays(full, core, rest[1..]);
        return 0, false;
      }
      if skip > 0 {
        n := SkipBytes(data, offset);
        assert rest[..n] == data[offset..offset + n];
        return n, true;
      }
      var decoded;
      n, decoded, core := TakeBlock(data, offset, core);
      assert rest[..n] == data[offset..offset + n];
      if !decoded {
        return n, !failed;
      }
      more := Drain();
    }

    /** Feed a piece of the stream. What comes back is how much of it has been taken for good. */
    method Feed(data: seq<byte>) returns (offset: nat)
      requires Valid()
      modifies this`headerChecked, this`skip, this`total, this`used, this`needed, this`failed, this`core, this`channels
      modifies this`version, this`decoder, this`frames, this`pcmSamples, this`queued, this`sent
      modifies input, output, resampler, resampler.history, sink
      ensures Valid() && offset <= |data| && Ran(old(core), data, offset)
      ensures old(failed) ==> failed
      ensures old(failed || finished) ==> offset == 0 && core == old(core) && sink.received == old(sink.received)
      ensures offset < |data| && !failed && !finished ==> sent < queued
      ensures old(sink.received) <= sink.received
      ensures old(sink.script) == [] && !old(failed || finished) ==>
                && sink.script == [] && !sink.fault
                && (core.failed || offset == |data|) && sink.received == core.pcm
    {
      hide Follows, QueueOk;
      offset := 0;
      assert data[..0] == [];
      if failed || finished {
        return;
      }
      var more := Drain();
      if !more {
        return;
      }
      ghost var full, c0 := Completing(codec), core;
      while offset < |data| && more
        invariant Valid() && offset <= |data| && Ran(c0, data, offset)
        invariant if more then !failed && queued == 0 else offset < |data| && !failed ==> sent < queued
        invariant old(sink.received) <= sink.received && finished == old(finished)
        invariant old(sink.script) == [] ==> sink.script == [] && (more || core.failed) && queued == 0 && !sink.fault
        decreases |data| - offset, more
      {
        var n;
        ghost var c := core;
        n, more := Take(data, offset);
        RanOn(c0, c, data, offset, n);
        offset := offset + n;
      }
      if !failed {
        QueueDelivers(core.pcm);
      }
    }

    /** The end of the stream: true once everything is delivered and nothing is left over. */
    method Finish() returns (ok: bool)
      requires Valid()
      modifies this`sent, this`queued, this`failed, this`finished, this`core, sink
      ensures Valid() && (old(failed) ==> !ok && core == old(core) && sink.received == old(sink.received))
      ensures ok ==> finished && core == old(core) && Whole(core) && core.mixed != [] && sink.received == core.pcm
      ensures !ok ==> finished == old(finished)
      ensures old(sink.received) <= sink.received
      ensures !ok && !failed ==> sent < queued && core == old(core)
      ensures core == old(core) || (core == Fail(old(core)) && !(Whole(old(core)) && old(core).mixed != []))
      ensures old(sink.script) == [] && !old(failed) ==>
                && sink.script == [] && !sink.fault && ok != failed
                && (ok <==> Whole(old(core)) && old(core).mixed != [])
    {
      hide Resampling, QueueOk;
      if failed {
        return false;
      }
      var empty := Drain();
      if !empty {
        return false;
      }
      assert sink.received == core.pcm by {
        QueueDelivers(core.pcm);
      }
      if skip > 0 || used > 0 || frames == 0 || pcmSamples == 0 {
        failed, core := true, Fail(core);
        return false;
      }
      finished := true;
      return true;
    }
  }

  // ---- the caller ----

  /** What the whole stream decodes to. */
  ghost function Played(codec: Codec, data: seq<byte>): Core {
    Run(Completing(codec), INIT, data)
  }

  /** Everything was decodable, nothing is left over and there is something to hear. */
  ghost predicate Audible(c: Core) {
    Whole(c) && c.mixed != []
  }

  lemma PlayedGrows(codec: Codec, data: seq<byte>, n: nat)
    requires n <= |data|
    ensures Played(codec, data[..n]).pcm <= Played(codec, data).pcm
  {
    assert data == data[..n] + data[n..];
    RunAppend(Completing(codec), INIT, data[..n], data[n..]);
    PcmOnlyGrows(codec, Played(codec, data[..n]), data[n..]);
  }

  /** One feed of everything into a sink that takes everything. */
  method PlayAtOnce(codec: Codec, data: seq<byte>) returns (sound: seq<byte>, ok: bool)
    ensures sound == Played(codec, data).pcm && (ok <==> Audible(Played(codec, data)))
    ensures Obliging(codec) && |data| <= MAX_BYTES ==> (ok <==> Layout(data) && Played(codec, data).mixed != [])
  {
    hide Player.Follows, Player.QueueOk, Run, Layout, Obliging;
    var sink := new Sink([]);
    var player := new Player(codec, sink);
    var n := player.Feed(data);
    player.RanAll(INIT, data, n);
    sound := sink.received;
    ok := player.Finish();
    if Obliging(codec) && |data| <= MAX_BYTES {
      AcceptedIffLayout(codec, data);
    }
  }

  /** A cue being played: each tick feeds on from where the player stopped. */
  class Playback {
    const data: seq<byte>
    const player: Player
    var position: nat
    var status: Status

    /** Where the player can be after taking `position` bytes, or after the end was found wanting. */
    ghost predicate At()
      reads this, player
    {
      var c, end := player.core, Played(player.codec, data);
      && position <= |data|
      && (|| c == Played(player.codec, data[..position])
          || (c.failed && c == end)
          || (position == |data| && c == Fail(end) && !Audible(end)))
    }

    ghost predicate Valid()
      reads this, player, player.sink, player.input, player.output, player.resampler, player.resampler.history
    {
      && player.Valid() && At()
      && (player.finished ==> position == |data|)
      && (status == Done ==> Audible(player.core) && position == |data| && player.sink.received == player.core.pcm)
    }

    constructor (codec: Codec, data: seq<byte>, sink: Sink)
      requires !sink.fault && sink.received == []
      ensures Valid() && status == Busy && position == 0 && this.data == data
      ensures player.codec == codec && player.sink == sink && fresh(player) && fresh(player.input)
      ensures fresh(player.output) && fresh(player.resampler) && fresh(player.resampler.history)
    {
      this.data := data;
      player := new Player(codec, sink);
      position, status := 0, Busy;
      new;
      assert data[..0] == [];
    }

    /** What the sink has is always the start of what the stream decodes to, and all of it once done. */
    lemma Heard()
      requires Valid()
      ensures player.sink.received <= Played(player.codec, data).pcm
      ensures status == Done ==> player.sink.received == Played(player.codec, data).pcm
                                 && Audible(Played(player.codec, data))
    {
      PlayedGrows(player.codec, data, position);
      if !player.failed {
        player.QueueDelivers(player.core.pcm);
      }
      assert data[..|data|] == data;
    }

    lemma FedOn(c: Core, size: nat, n: nat)
      requires n <= size && position + size <= |data|
      requires player.Ran(c, data[position..][..size], n)
      requires var end := Played(player.codec, data);
        c == Played(player.codec, data[..position]) || (c.failed && c == end && player.core == c)
      ensures var end := Played(player.codec, data);
        player.core == Played(player.codec, data[..position + n]) || (player.core.failed && player.core == end)
    {
      hide Run;
      var full, piece := Completing(player.codec), data[position..][..size];
      assert data[..position + n] == data[..position] + piece[..n];
      RunAppend(full, INIT, data[..position], piece[..n]);
      assert data == data[..position] + piece + data[position + size..];
      RunAppend(full, INIT, data[..position], piece);
      RunAppend(full, INIT, data[..position] + piece, data[position + size..]);
      if player.core.failed {
        player.RanAll(c, piece, n);
        FailedStays(full, player.core, data[position + size..]);
      }
    }

    /** A machine that failed is one whose stream cannot be heard to its end. */
    lemma FailedMeans()
      requires player.Valid() && At() && player.core.failed
      ensures !Audible(Played(player.codec, data))
    {
      hide Run;
      var full := Completing(player.codec);
      if player.core == Played(player.codec, data[..position]) {
        assert data == data[..position] + data[position..];
        RunAppend(full, INIT, data[..position], data[position..]);
        FailedStays(full, player.core, data[position..]);
      }
    }

    /** Feed at most `limit` more bytes; at the end, finish and wait for the speaker to run dry. A tick goes
        wrong only if the speaker or the stream is at fault. A speaker that takes everything keeps nothing
        back: the tick takes all it may, and at the end of an audible stream it is done once the speaker is dry. */
    method Tick(limit: nat, drained: bool)
      requires Valid() && status == Busy
      modifies this`position, this`status, player, player.sink, player.input, player.output
      modifies player.resampler, player.resampler.history
      ensures Valid() && old(position) <= position && status != Idle
      ensures old(player.sink.received) <= player.sink.received
      ensures status == Error ==> player.sink.fault || !Audible(Played(player.codec, data))
      ensures old(player.failed) ==> status == Error
      ensures old(player.sink.script) == [] && !old(player.failed) ==>
                && player.sink.script == [] && !player.sink.fault
                && (status == Error || position == Min(|data|, old(position) + limit))
                && (position == |data| && status != Error ==>
                      && (status == Done <==> drained && Audible(Played(player.codec, data)))
                      && (player.failed <==> !Audible(Played(player.codec, data))))
    {
      hide Player.Follows, Player.QueueOk, Run;
      if position < |data| {
        var piece := data[position..][..Min(|data| - position, limit)];
        ghost var c := player.core;
        var n := player.Feed(piece);
        FedOn(c, |piece|, n);
        position := position + n;
      }
      if player.failed {
        status := Error;
        if !player.sink.fault {
          FailedMeans();
        }
        return;
      }
      if position == |data| {
        assert data[..|data|] == data;
        assert player.core == Played(player.codec, data);
        var ok := player.Finish();
        if ok && drained {
          status := Done;
        }
      }
    }
  }
}
