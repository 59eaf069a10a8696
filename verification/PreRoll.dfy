/** The pre-roll buffer: a circular array that keeps the last 9600 bytes heard before recording. */
module PreRoll {
  import opened Bytes
  import RingBuffer

  const PREROLL_BYTES: nat := 9600

  function LastN(s: seq<byte>, n: nat): seq<byte> {
    if |s| <= n then s else s[|s| - n..]
  }

  class Buffer {
    const data: array<byte>
    var used: nat
    var head: nat
    ghost var heard: seq<byte>

    ghost predicate Valid()
      reads this, data
    {
      && data.Length == PREROLL_BYTES && head < PREROLL_BYTES && used == Min(|heard|, PREROLL_BYTES)
      && RingBuffer.Window(data[..], First(), used) == LastN(heard, PREROLL_BYTES)
      && head == RingBuffer.Wrap(First() + used, PREROLL_BYTES)
    }

    /** Where the oldest kept byte lies. */
    function First(): (f: nat)
      requires head < PREROLL_BYTES && used <= PREROLL_BYTES
      reads this
      ensures f < PREROLL_BYTES
    {
      RingBuffer.Wrap(head + PREROLL_BYTES - used, PREROLL_BYTES)
    }

    constructor ()
      ensures Valid() && heard == []
    {
      data := new byte[PREROLL_BYTES](_ => 0);
      used, head, heard := 0, 0, [];
    }

    method Clear()
      requires Valid()
      modifies this
      ensures Valid() && heard == []
    {
      used, head, heard := 0, 0, [];
    }

    method Append(pcm: seq<byte>)
      requires Valid()
      modifies this, data
      ensures Valid() && heard == old(heard) + pcm
    {
      ghost var before := heard;
      var i := 0;
      while i < |pcm|
        invariant i <= |pcm| && Valid() && heard == before + pcm[..i]
      {
        AppendByte(pcm[i]);
        assert pcm[..i + 1] == pcm[..i] + [pcm[i]];
        i := i + 1;
      }
    }

    method AppendByte(b: byte)
      requires Valid()
      modifies this, data
      ensures Valid() && heard == old(heard) + [b]
    {
      ghost var was, first, n := data[..], First(), used;
      data[head] := b;
      heard := heard + [b];
      head := RingBuffer.Wrap(head + 1, PREROLL_BYTES);
      if used < PREROLL_BYTES {
        used := used + 1;
      }
      assert data[..] == was[old(head) := b];
      WindowStep(was, first, n, b);
    }

    /** Writing at the end of the window slides it by one once it is full. */
    static lemma WindowStep(was: seq<byte>, first: nat, n: nat, b: byte)
      requires |was| == PREROLL_BYTES && first < PREROLL_BYTES && n <= PREROLL_BYTES
      ensures n < PREROLL_BYTES ==>
        RingBuffer.Window(was[RingBuffer.Wrap(first + n, PREROLL_BYTES) := b], first, n + 1)
        == RingBuffer.Window(was, first, n) + [b]
      ensures n == PREROLL_BYTES ==>
        RingBuffer.Window(was[first := b], RingBuffer.Wrap(first + 1, PREROLL_BYTES), n)
        == RingBuffer.Window(was, first, n)[1..] + [b]
    {
      if n < PREROLL_BYTES {
        RingBuffer.CopyExtends(was, was[RingBuffer.Wrap(first + n, PREROLL_BYTES) := b], first, n, [b]);
      } else {
        var now, next := was[first := b], RingBuffer.Wrap(first + 1, PREROLL_BYTES);
        forall k | 0 <= k < n
          ensures RingBuffer.Window(now, next, n)[k] == (RingBuffer.Window(was, first, n)[1..] + [b])[k]
        {
          if k + 1 < n {
            assert RingBuffer.Wrap(next + k, PREROLL_BYTES) == RingBuffer.Wrap(first + (k + 1), PREROLL_BYTES) != first;
          } else {
            assert RingBuffer.Wrap(next + k, PREROLL_BYTES) == first;
          }
        }
      }
    }

    /** The two runs pushed into the capture ring are, in order, exactly the kept bytes. */
    method Flatten() returns (oldest: seq<byte>, newest: seq<byte>)
      requires Valid()
      ensures oldest + newest == LastN(heard, PREROLL_BYTES)
    {
      var first := First();
      var part := Min(PREROLL_BYTES - first, used);
      oldest := data[first..first + part];
      newest := data[..used - part];
      RingBuffer.FrontOfWindow(data[..], first, used, used);
      ghost var w := RingBuffer.Window(data[..], first, used);
      assert w[..used] == w;
      assert oldest == data[..][first..first + part] && newest == data[..][..used - part];
    }
  }
}
