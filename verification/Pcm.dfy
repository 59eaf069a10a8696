/** Samples as bytes, and the speaker they are written to. */
module Pcm {
  import opened Bytes

  /** Little-endian 16-bit samples. */
  function ToBytes(samples: seq<int>): (b: seq<byte>)
    ensures |b| == 2 * |samples|
  {
    if samples == [] then []
    else ToBytes(samples[..|samples| - 1]) + [samples[|samples| - 1] % 256, samples[|samples| - 1] / 256 % 256]
  }

  lemma {:induction false} ToBytesAppend(a: seq<int>, b: seq<int>)
    ensures ToBytes(a + b) == ToBytes(a) + ToBytes(b)
    decreases |b|
  {
    if b == [] {
      assert a + b == a;
    } else {
      var n := |b| - 1;
      assert (a + b)[..|a + b| - 1] == a + b[..n];
      ToBytesAppend(a, b[..n]);
    }
  }

  /** What a player reads back: two bytes to a sample, the low one first, in two's complement. */
  function FromBytes(b: seq<byte>): (samples: seq<int>)
    requires |b| % 2 == 0
    ensures |samples| == |b| / 2
  {
    seq(|b| / 2, i requires 0 <= i < |b| / 2 =>
      var low: int, high: int := b[2 * i], b[2 * i + 1];
      if high < 128 then 256 * high + low else 256 * (high - 256) + low)
  }

  predicate Fits16(samples: seq<int>) {
    forall i | 0 <= i < |samples| :: -32768 <= samples[i] <= 32767
  }

  /** The bytes of 16-bit samples read back as those samples. */
  lemma {:induction false} BytesRoundTrip(samples: seq<int>)
    requires Fits16(samples)
    ensures FromBytes(ToBytes(samples)) == samples
    decreases |samples|
  {
    if samples != [] {
      var n := |samples| - 1;
      var x, front := samples[n], ToBytes(samples[..n]);
      BytesRoundTrip(samples[..n]);
      assert ToBytes(samples) == front + [x % 256, x / 256 % 256];
      TwosComplement(x);
      forall i | 0 <= i < n
        ensures FromBytes(ToBytes(samples))[i] == samples[i]
      {
        assert ToBytes(samples)[2 * i] == front[2 * i] && ToBytes(samples)[2 * i + 1] == front[2 * i + 1];
        assert FromBytes(front)[i] == samples[..n][i];
      }
    }
  }

  lemma TwosComplement(x: int)
    requires -32768 <= x <= 32767
    ensures x % 256 + 256 * (x / 256 % 256) == if x >= 0 then x else x + 65536
  {
    var high := x / 256;
    assert x == 256 * high + x % 256 && -128 <= high < 128;
    assert high % 256 == if high >= 0 then high else high + 256;
  }

  /** How a cue stands. */
  datatype Status = Idle | Busy | Done | Error

  /** A speaker with arbitrary behaviour: each call takes the next reply from the script, and everything
      once the script is used up. A reply that is odd or larger than the offer is a fault. */
  class Sink {
    var script: seq<nat>
    var received: seq<byte>
    var fault: bool

    constructor (script: seq<nat>)
      ensures this.script == script && received == [] && !fault
    {
      this.script, received, fault := script, [], false;
    }

    method Write(data: seq<byte>) returns (n: nat)
      modifies this
      ensures fault == (old(fault) || n > |data| || n % 2 == 1)
      ensures received == if n <= |data| then old(received) + data[..n] else old(received)
      ensures old(script) == [] && |data| % 2 == 0 ==> script == [] && n == |data|
    {
      if script == [] {
        n := |data|;
      } else {
        n, script := script[0], script[1..];
      }
      if n <= |data| {
        received := received + data[..n];
      }
      fault := fault || n > |data| || n % 2 == 1;
    }
  }
}
