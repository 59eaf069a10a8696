/** Playing an Opus cue: one packet is decoded when the queue is empty, and its samples are trimmed to the
    window the header asks for before the speaker takes them at its own pace. */
module CuePlayback {
  import opened Bytes
  import opened CueOpus
  import opened Options
  import opened Pcm

  /** The decoder keeps state between packets; it should give 480 samples for each. */
  datatype Decoder = Decoder(frame: seq<seq<byte>> -> seq<int>)

  /** Everything the decoder makes of the packets. */
  function Decoded(d: Decoder, ps: seq<seq<byte>>): seq<int> {
    if ps == [] then [] else Decoded(d, ps[..|ps| - 1]) + d.frame(ps)
  }

  /** The samples from `preskip` on, at most `samples` of them. */
  function Window(pcm: seq<int>, preskip: nat, samples: nat): seq<int> {
    pcm[Min(preskip, |pcm|)..Min(preskip + samples, |pcm|)]
  }

  /** The part of a frame that starts at `start` and lies in the window. */
  function First(start: nat, preskip: nat): nat {
    Min(if start < preskip then preskip - start else 0, FRAME)
  }

  function Last(start: nat, limit: nat): nat {
    if start + FRAME > limit then if limit > start then limit - start else 0 else FRAME
  }

  /** One more frame adds its part to the window. The part is never backwards, so the source's guard
      against that does nothing. */
  lemma WindowGrows(pcm: seq<int>, frame: seq<int>, preskip: nat, samples: nat)
    requires |frame| == FRAME
    ensures var first, last := First(|pcm|, preskip), Last(|pcm|, preskip + samples);
      && first <= last <= FRAME
      && Window(pcm + frame, preskip, samples) == Window(pcm, preskip, samples) + frame[first..last]
  {
    var all := pcm + frame;
    var limit := preskip + samples;
    if limit <= |pcm| {
      assert all[Min(preskip, |all|)..limit] == pcm[Min(preskip, |pcm|)..limit];
    } else {
      var hi := Min(limit, |all|);
      if preskip <= |pcm| {
        assert all[preskip..hi] == pcm[preskip..] + frame[..hi - |pcm|];
      } else if preskip < |all| {
        assert all[preskip..hi] == frame[preskip - |pcm|..hi - |pcm|];
      }
    }
  }

  class OpusCue {
    const data: seq<byte>
    const decoder: Decoder
    const speaker: Sink
    const frame: array<int>
    var cursor: Cursor
    var given: seq<seq<byte>>    // the decoder's state: the packets it has been given
    var queuePosition: nat
    var queued: nat
    var decodedIndex: nat
    var status: Status
    ghost const packets: seq<seq<byte>>

    ghost function Pending(): seq<byte>
      requires queuePosition <= queued <= 2 * frame.Length && queued % 2 == 0
      reads `queuePosition, `queued, frame
    {
      ToBytes(frame[..queued / 2])[queuePosition..]
    }

    /** What the speaker took, then what is queued, is the window of everything decoded. */
    ghost predicate Delivers(pcm: seq<int>)
      reads `queuePosition, `queued, `cursor, frame, speaker
    {
      && queuePosition <= queued <= 2 * frame.Length && queued % 2 == 0 && queuePosition % 2 == 0
      && speaker.received + Pending() == ToBytes(Window(pcm, cursor.preskip, cursor.samples))
    }

    /** The packets given to the decoder are the first ones of the file. */
    ghost predicate Follows()
      reads `cursor, `given, `decodedIndex
    {
      && |data| >= HEADER && Container(data, packets)
      && cursor.packet <= cursor.count && Take(Counts(data), data, cursor.packet) == Some((given, cursor))
      && given <= packets && |given| == cursor.packet
      && cursor == Counts(data).(offset := cursor.offset, packet := cursor.packet)
      && decodedIndex == |Decoded(decoder, given)| == FRAME * cursor.packet
    }

    ghost predicate Valid()
      reads this, frame, speaker
    {
      && frame.Length == FRAME
      && (status == Busy ==> Follows() && Delivers(Decoded(decoder, given)) && !speaker.fault)
      && (status == Done ==> Heard())
    }

    /** A cue played to its end: the decoder gave a frame for each packet, and the speaker has exactly the
        samples from `preskip` to `preskip + samples` of them. */
    ghost predicate Heard()
      reads speaker
    {
      && |data| >= HEADER && Container(data, packets)
      && |Decoded(decoder, packets)| == FRAME * Counts(data).count
      && Counts(data).preskip + Counts(data).samples <= |Decoded(decoder, packets)|
      && speaker.received
         == ToBytes(Decoded(decoder, packets)[Counts(data).preskip..Counts(data).preskip + Counts(data).samples])
    }

    /** Start a file the parser has accepted. */
    constructor (data: seq<byte>, parsed: Cursor, ghost packets: seq<seq<byte>>, decoder: Decoder, speaker: Sink)
      requires Container(data, packets) && parsed == Counts(data) && speaker.received == [] && !speaker.fault
      ensures Valid() && status == Busy && this.data == data && this.packets == packets
      ensures this.decoder == decoder && this.speaker == speaker && fresh(frame)
    {
      this.data, this.decoder, this.speaker, this.packets := data, decoder, speaker, packets;
      frame := new int[FRAME](_ => 0);
      cursor, given := parsed, [];
      queuePosition, queued, decodedIndex, status := 0, 0, 0, Busy;
      new;
      assert frame[..0] == [] && Window([], parsed.preskip, parsed.samples) == [];
    }

    /** The parsed file has one more packet, and it is the next one. */
    lemma NextIsThere()
      requires Follows() && cursor.packet < cursor.count
      ensures var r := NextPacket(cursor, data);
        && r.Some? && given + [r.value.0] <= packets
        && Take(Counts(data), data, cursor.packet + 1) == Some((given + [r.value.0], r.value.1))
    {
      hide NextPacket;
      var start, n := Counts(data), cursor.packet;
      TiledTaken(start, data, packets);
      TakeSnoc(start, data, n);
      if NextPacket(cursor, data).None? {
        TakeNone(start, data, n + 1, start.count);
      }
      TakePrefix(start, data, n + 1, start.count);
    }

    /** Decode the next packet and queue the part of it that is to be heard. */
    method DecodeNext() returns (ok: bool)
      requires frame.Length == FRAME && Follows() && Delivers(Decoded(decoder, given)) && queuePosition == queued
      requires cursor.packet < cursor.count
      modifies this`cursor, this`given, this`queuePosition, this`queued, this`decodedIndex, frame
      ensures ok ==> Follows() && Delivers(Decoded(decoder, given)) && cursor.packet == old(cursor).packet + 1
      ensures given <= packets && |given| == old(|given|) + 1 && (ok <==> |decoder.frame(given)| == FRAME)
    {
      hide Take, NextPacket, Container, ToBytes, Window, Delivers;
      NextIsThere();
      var r := NextPacket(cursor, data);
      ghost var pcm := Decoded(decoder, given);
      NothingQueued(pcm);
      cursor := r.value.1;
      given := given + [r.value.0];
      var samples := decoder.frame(given);
      if |samples| != FRAME {
        return false;
      }
      assert given[..|given| - 1] == old(given);
      Queue(samples, pcm);
      ok := true;
    }

    /** Queue the part of a frame that lies in the window. */
    method Queue(samples: seq<int>, ghost pcm: seq<int>)
      requires frame.Length == FRAME == |samples| && decodedIndex == |pcm|
      requires speaker.received == ToBytes(Window(pcm, cursor.preskip, cursor.samples))
      modifies this`queuePosition, this`queued, this`decodedIndex, frame
      ensures Delivers(pcm + samples) && decodedIndex == old(decodedIndex) + FRAME
    {
      hide ToBytes, Window;
      forall i | 0 <= i < FRAME {
        frame[i] := samples[i];
      }
      assert frame[..] == samples;
      var start := decodedIndex;
      var first, last := First(start, cursor.preskip), Last(start, cursor.preskip + cursor.samples);
      decodedIndex := start + FRAME;
      queuePosition, queued := first * 2, last * 2;
      WindowGrows(pcm, samples, cursor.preskip, cursor.samples);
      Queues(samples, first, last);
      ToBytesAppend(Window(pcm, cursor.preskip, cursor.samples), samples[first..last]);
    }

    lemma NothingQueued(pcm: seq<int>)
      requires Delivers(pcm) && queuePosition == queued
      ensures speaker.received == ToBytes(Window(pcm, cursor.preskip, cursor.samples))
    {
      assert Pending() == [];
    }

    /** The bytes queued are the bytes of the part. */
    lemma Queues(samples: seq<int>, first: nat, last: nat)
      requires frame.Length == FRAME && frame[..] == samples && first <= last <= FRAME
      requires queuePosition == 2 * first && queued == 2 * last
      ensures Pending() == ToBytes(samples[first..last])
    {
      assert frame[..last] == samples[..last];
      assert samples[..last] == samples[..first] + samples[first..last];
      ToBytesAppend(samples[..first], samples[first..last]);
    }

    static lemma TakenFrom(received: seq<byte>, all: seq<byte>, from: nat, n: nat)
      requires from + n <= |all|
      ensures received + all[from..][..n] + all[from + n..] == received + all[from..]
    {
      assert all[from..] == all[from..][..n] + all[from + n..];
    }

    /** Offer the queue to the speaker once. */
    method Offer(ghost pcm: seq<int>) returns (ok: bool)
      requires Delivers(pcm) && queuePosition < queued && !speaker.fault
      modifies this`queuePosition, speaker
      ensures ok == !speaker.fault && (ok ==> Delivers(pcm)) && old(speaker.received) <= speaker.received
      ensures old(speaker.script) == [] ==> speaker.script == [] && ok && queuePosition == queued
    {
      hide ToBytes, Window;
      var all := ToBytes(frame[..queued / 2]);
      var offer := all[queuePosition..];
      var n := speaker.Write(offer);
      if n > queued - queuePosition || n % 2 == 1 {
        return false;
      }
      TakenFrom(old(speaker.received), all, queuePosition, n);
      queuePosition := queuePosition + n;
      ok := true;
    }

    /** The decoder gave something else than a frame for one of the packets. */
    ghost predicate BadFrame() {
      exists n | 0 < n <= |packets| :: |decoder.frame(packets[..n])| != FRAME
    }

    /** One tick: decode when the queue is empty, offer what is queued, and end when all is played. It goes wrong
        only if the decoder or the speaker does, and is done exactly when every packet is decoded, everything
        queued is taken and the speaker is dry. A speaker that takes everything gets a packet with every tick. */
    method Tick(drained: bool)
      requires Valid() && status == Busy
      modifies this, frame, speaker
      ensures Valid() && status != Idle && (status == Done ==> Heard())
      ensures old(speaker.received) <= speaker.received
      ensures status == Error ==> speaker.fault || BadFrame()
      ensures status != Error ==>
                (status == Done <==> cursor.packet == cursor.count && queuePosition == queued && drained)
      ensures status != Error && old(speaker.script) == [] ==>
                && speaker.script == [] && queuePosition == queued
                && cursor.packet == old(cursor).packet
                     + if old(queuePosition == queued && cursor.packet < cursor.count) then 1 else 0
    {
      hide Follows, Delivers, Container, Window;
      if queuePosition == queued && cursor.packet < cursor.count {
        HasPosition();
        var ok := DecodeNext();
        if !ok {
          assert given == packets[..|given|];
          status := Error;
          return;
        }
      }
      QueueOk(Decoded(decoder, given));
      if queuePosition < queued {
        var ok := Offer(Decoded(decoder, given));
        if !ok {
          status := Error;
          return;
        }
      }
      if cursor.packet == cursor.count && queuePosition == queued && drained {
        AllHeard();
        status := Done;
      }
    }

    lemma QueueOk(pcm: seq<int>)
      requires Delivers(pcm)
      ensures queuePosition <= queued
    {
    }

    lemma HasPosition()
      requires Follows()
      ensures cursor.packet <= cursor.count
    {
    }

    /** When every packet is decoded and taken, the speaker has the whole window. */
    lemma AllHeard()
      requires Follows() && Delivers(Decoded(decoder, given)) && frame.Length == FRAME
      requires cursor.packet == cursor.count && queuePosition == queued
      ensures Heard()
    {
      assert Pending() == [];
      assert given == packets;
      HeardLength(data, packets, Decoded(decoder, packets));
    }
  }

  lemma {:induction false} TakePrefix(o: Cursor, data: seq<byte>, n: nat, m: nat)
    requires n <= m && Take(o, data, m).Some?
    ensures Take(o, data, n).Some? && Take(o, data, n).value.0 <= Take(o, data, m).value.0
    decreases n
  {
    hide NextPacket;
    if n > 0 {
      var (p, next) := NextPacket(o, data).value;
      TakePrefix(next, data, n - 1, m - 1);
    }
  }

  /** The window of a whole cue is not cut short: it has exactly the promised number of samples. */
  lemma HeardLength(data: seq<byte>, packets: seq<seq<byte>>, pcm: seq<int>)
    requires Container(data, packets) && |pcm| == FRAME * |packets|
    ensures Counts(data).preskip + Counts(data).samples <= |pcm|
    ensures Window(pcm, Counts(data).preskip, Counts(data).samples)
         == pcm[Counts(data).preskip..Counts(data).preskip + Counts(data).samples]
  {
    var o := Counts(data);
    assert o.count * FRAME >= o.samples + o.preskip;
  }
}
