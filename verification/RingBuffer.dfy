/** Masking an index with a power of two less one. */
module Bits {
  /** Bitwise AND of two unsigned integers, bit by bit. */
  function BitAnd(x: nat, y: nat): nat
    decreases x
  {
    if x == 0 then 0 else 2 * BitAnd(x / 2, y / 2) + (if x % 2 == 1 && y % 2 == 1 then 1 else 0)
  }

  function Pow2(k: nat): (p: nat)
    ensures p > 0
  {
    if k == 0 then 1 else 2 * Pow2(k - 1)
  }

  /** The source's test for a legal capacity. */
  predicate IsPowerOfTwo(n: nat) {
    n != 0 && BitAnd(n, n - 1) == 0
  }

  lemma {:induction false} MaskIsModulus(x: nat, k: nat)
    ensures BitAnd(x, Pow2(k) - 1) == x % Pow2(k)
    decreases k
  {
    hide BitAnd;
    if k == 0 {
      AndZero(x);
    } else {
      var m := Pow2(k - 1);
      calc {
        BitAnd(x, Pow2(k) - 1);
        { assert Pow2(k) - 1 == 2 * (m - 1) + 1; }
        BitAnd(x, 2 * (m - 1) + 1);
        { AndOdd(x, m - 1); }
        2 * BitAnd(x / 2, m - 1) + x % 2;
        { MaskIsModulus(x / 2, k - 1); }
        2 * ((x / 2) % m) + x % 2;
        { ModDouble(x, m); }
        x % (2 * m);
      }
    }
  }

  lemma AndOdd(x: nat, y: nat)
    ensures BitAnd(x, 2 * y + 1) == 2 * BitAnd(x / 2, y) + x % 2
  {
    assert (2 * y + 1) / 2 == y && (2 * y + 1) % 2 == 1;
  }

  lemma {:induction false} AndZero(x: nat)
    ensures BitAnd(x, 0) == 0
    decreases x
  {
    if x != 0 {
      AndZero(x / 2);
    }
  }

  lemma {:induction false} ModDouble(x: nat, m: nat)
    requires m > 0
    ensures x % (2 * m) == 2 * ((x / 2) % m) + x % 2
  {
    var h := x / 2;
    var q, r := h / m, h % m;
    assert h == m * q + r;
    assert x == 2 * (m * q) + (2 * r + x % 2);
    assert 2 * (m * q) == (2 * m) * q;
    ModUnique(x, 2 * m, q, 2 * r + x % 2);
  }

  lemma {:induction false} ModUnique(x: nat, m: nat, q: nat, r: nat)
    requires 0 <= r < m && x == m * q + r
    ensures x % m == r
  {
    var d := x / m - q;
    assert x == m * (x / m) + x % m;
    assert m * (x / m) == m * q + m * d by {
      Distribute(m, q, d);
    }
    assert m * d == r - x % m;
    if d > 0 {
      Distribute(m, 1, d - 1);
      NonNegative(m, d - 1);
    } else if d < 0 {
      Distribute(m, d, -d);
      Distribute(m, 1, -d - 1);
      NonNegative(m, -d - 1);
    }
  }

  lemma Distribute(m: int, a: int, b: int)
    ensures m * (a + b) == m * a + m * b
  {
  }

  lemma NonNegative(m: nat, a: nat)
    ensures m * a >= 0
  {
  }

  lemma {:induction false} AndSelf(x: nat)
    ensures BitAnd(x, x) == x
    decreases x
  {
    if x != 0 {
      AndSelf(x / 2);
    }
  }

  /** The bit trick accepts exactly the powers of two. */
  lemma {:induction false} PowerOfTwoTest(n: nat)
    ensures IsPowerOfTwo(n) <==> exists k: nat :: n == Pow2(k)
    decreases n
  {
    if n == 0 {
    } else if n == 1 {
      assert n == Pow2(0);
    } else if n % 2 == 0 {
      var h := n / 2;
      PowerOfTwoTest(h);
      assert (n - 1) / 2 == h - 1;
      assert IsPowerOfTwo(n) <==> IsPowerOfTwo(h);
      if IsPowerOfTwo(h) {
        var k: nat :| h == Pow2(k);
        assert n == Pow2(k + 1);
      } else {
        forall k: nat
          ensures n != Pow2(k)
        {
          assert k > 0 ==> Pow2(k) == 2 * Pow2(k - 1);
        }
      }
    } else {
      var h := n / 2;
      assert (n - 1) / 2 == h && (n - 1) % 2 == 0;
      AndSelf(h);
      assert !IsPowerOfTwo(n);
      forall k: nat
        ensures n != Pow2(k)
      {
        assert k > 0 ==> Pow2(k) == 2 * Pow2(k - 1);
      }
    }
  }
}

/** The capture ring: an array used in place, with power-of-two index masking and a sticky
    overflow flag, proved against a plain FIFO. */
module RingBuffer {
  import opened Bytes
  import opened Bits

  // ---- the FIFO the ring is meant to be ----

  /** The bytes stored, oldest first, and the sticky flag. */
  datatype Fifo = Fifo(stored: seq<byte>, overflow: bool)

  datatype Op = Push(data: seq<byte>) | Pop(len: nat) | ClearOverflow

  function Accepted(cap: nat, f: Fifo, data: seq<byte>): nat
    requires |f.stored| <= cap
  {
    Min(|data|, cap - |f.stored|)
  }

  function Apply(cap: nat, f: Fifo, op: Op): (r: (Fifo, seq<byte>))
    requires |f.stored| <= cap
    ensures |r.0.stored| <= cap
  {
    match op
    case Push(data) =>
      var n := Accepted(cap, f, data);
      (Fifo(f.stored + data[..n], f.overflow || n < |data|), data[..n])
    case Pop(len) =>
      var n := Min(len, |f.stored|);
      (Fifo(f.stored[n..], f.overflow), f.stored[..n])
    case ClearOverflow => (Fifo(f.stored, false), [])
  }

  /** A push gives up bytes only when the ring is full, and a pop fewer than asked only when it is empty. */
  lemma TakesAllItCan(cap: nat, f: Fifo, data: seq<byte>, len: nat)
    requires |f.stored| <= cap
    ensures var (g, taken) := Apply(cap, f, Push(data));
      taken <= data && (taken != data ==> |g.stored| == cap) && (g.overflow <==> f.overflow || taken != data)
    ensures var (g, out) := Apply(cap, f, Pop(len));
      |out| <= len && (|out| < len ==> g.stored == []) && g.overflow == f.overflow
  {
    var n := Accepted(cap, f, data);
    assert n == |data| ==> data[..n] == data;
  }

  const EMPTY := Fifo([], false)

  function Run(cap: nat, ops: seq<Op>): (f: Fifo)
    ensures |f.stored| <= cap
  {
    if ops == [] then EMPTY else Apply(cap, Run(cap, ops[..|ops| - 1]), ops[|ops| - 1]).0
  }

  function AcceptedBytes(cap: nat, ops: seq<Op>): seq<byte> {
    if ops == [] then [] else
      var before := ops[..|ops| - 1];
      var op := ops[|ops| - 1];
      AcceptedBytes(cap, before) + if op.Push? then Apply(cap, Run(cap, before), op).1 else []
  }

  function PoppedBytes(cap: nat, ops: seq<Op>): seq<byte> {
    if ops == [] then [] else
      var before := ops[..|ops| - 1];
      var op := ops[|ops| - 1];
      PoppedBytes(cap, before) + if op.Pop? then Apply(cap, Run(cap, before), op).1 else []
  }

  ghost predicate LossAt(cap: nat, ops: seq<Op>, i: nat)
    requires i < |ops|
  {
    ops[i].Push? && Accepted(cap, Run(cap, ops[..i]), ops[i].data) < |ops[i].data|
  }

  ghost predicate NoClearAfter(ops: seq<Op>, i: nat) {
    forall j | i < j < |ops| :: !ops[j].ClearOverflow?
  }

  /** Some push after the last clear lost bytes. */
  ghost predicate LostSinceClear(cap: nat, ops: seq<Op>) {
    exists i: nat | i < |ops| :: LossAt(cap, ops, i) && NoClearAfter(ops, i)
  }

  /** Conservation over every run since a reset: nothing accepted is lost, duplicated or reordered. */
  lemma {:induction false} RunConserves(cap: nat, ops: seq<Op>)
    ensures AcceptedBytes(cap, ops) == PoppedBytes(cap, ops) + Run(cap, ops).stored
  {
    if ops != [] {
      var n := |ops| - 1;
      RunConserves(cap, ops[..n]);
      var f := Run(cap, ops[..n]);
      if ops[n].Pop? {
        var k := Min(ops[n].len, |f.stored|);
        assert f.stored == f.stored[..k] + f.stored[k..];
      }
    }
  }

  /** The sticky flag says exactly that bytes were lost since it was last cleared. */
  lemma {:induction false} FlagMeansLoss(cap: nat, ops: seq<Op>)
    ensures Run(cap, ops).overflow <==> LostSinceClear(cap, ops)
  {
    if ops != [] {
      var n := |ops| - 1;
      var before, op := ops[..n], ops[n];
      FlagMeansLoss(cap, before);
      assert forall i | 0 <= i <= n :: before[..i] == ops[..i];
      assert forall i: nat | i < n :: LossAt(cap, before, i) == LossAt(cap, ops, i);
      assert Run(cap, ops) == Apply(cap, Run(cap, before), op).0;
      if op.ClearOverflow? {
        assert forall i: nat | i < n :: !NoClearAfter(ops, i);
      } else {
        assert forall i: nat | i < n :: NoClearAfter(before, i) == NoClearAfter(ops, i);
        assert NoClearAfter(ops, n);
        assert LossAt(cap, ops, n) <==> op.Push? && Accepted(cap, Run(cap, before), op.data) < |op.data|;
        LossSplit(cap, ops);
      }
    }
  }

  lemma LossSplit(cap: nat, ops: seq<Op>)
    requires ops != []
    requires var n := |ops| - 1; forall i: nat | i < n ::
        LossAt(cap, ops[..n], i) == LossAt(cap, ops, i) && NoClearAfter(ops[..n], i) == NoClearAfter(ops, i)
    requires NoClearAfter(ops, |ops| - 1)
    ensures LostSinceClear(cap, ops) <==> LostSinceClear(cap, ops[..|ops| - 1]) || LossAt(cap, ops, |ops| - 1)
  {
    var n := |ops| - 1;
    if LostSinceClear(cap, ops[..n]) {
      var i: nat :| i < n && LossAt(cap, ops[..n], i) && NoClearAfter(ops[..n], i);
      assert LossAt(cap, ops, i) && NoClearAfter(ops, i);
    }
  }

  // ---- the ring itself ----

  /** Where a cursor below twice the capacity lands. */
  function Wrap(x: nat, cap: nat): nat {
    if x < cap then x else x - cap
  }

  /** The source advances its cursors with a mask; on a legal capacity that is wrapping. */
  lemma {:induction false} MaskWraps(x: nat, cap: nat)
    requires IsPowerOfTwo(cap) && x < 2 * cap
    ensures BitAnd(x, cap - 1) == x % cap == Wrap(x, cap)
  {
    PowerOfTwoTest(cap);
    var k: nat :| cap == Pow2(k);
    MaskIsModulus(x, k);
    ModUnique(x, cap, if x < cap then 0 else 1, Wrap(x, cap));
  }

  /** The stored bytes: `count` of them from `head` on, wrapping at the end of the storage. */
  function Window(storage: seq<byte>, head: nat, count: nat): (w: seq<byte>)
    requires head < |storage| && count <= |storage|
    ensures |w| == count
  {
    seq(count, k requires 0 <= k < count => storage[Wrap(head + k, |storage|)])
  }

  /** Copying a block into the free run behind the window extends it and disturbs nothing. */
  lemma CopyExtends(old_: seq<byte>, new_: seq<byte>, head: nat, count: nat, block: seq<byte>)
    requires |new_| == |old_| && head < |old_| && count + |block| <= |old_|
    requires Wrap(head + count, |old_|) + |block| <= |old_|
    requires var tail := Wrap(head + count, |old_|); new_ == old_[..tail] + block + old_[tail + |block|..]
    ensures Window(new_, head, count + |block|) == Window(old_, head, count) + block
  {
    var tail := Wrap(head + count, |old_|);
    forall k | 0 <= k < count + |block|
      ensures Window(new_, head, count + |block|)[k] == (Window(old_, head, count) + block)[k]
    {
      var at := Wrap(head + k, |old_|);
      if k >= count {
        assert at == tail + (k - count);
      } else {
        assert at < tail || at >= tail + |block|;
      }
    }
  }

  /** The free run that starts where the block went loses its front to it and keeps the rest. */
  lemma CopyKeepsFree(old_: seq<byte>, new_: seq<byte>, tail: nat, free: nat, block: seq<byte>)
    requires |new_| == |old_| && tail < |old_| && |block| <= free <= |old_| && tail + |block| <= |old_|
    requires new_ == old_[..tail] + block + old_[tail + |block|..]
    ensures Window(new_, Wrap(tail + |block|, |old_|), free - |block|) == Window(old_, tail, free)[|block|..]
  {
    forall k | 0 <= k < free - |block|
      ensures Window(new_, Wrap(tail + |block|, |old_|), free - |block|)[k] == Window(old_, tail, free)[|block|..][k]
    {
      var at := Wrap(Wrap(tail + |block|, |old_|) + k, |old_|);
      assert at == Wrap(tail + (|block| + k), |old_|);
      assert at < tail || at >= tail + |block|;
    }
  }

  /** Reading the front of the window takes at most two runs; what remains starts after them. */
  lemma FrontOfWindow(storage: seq<byte>, head: nat, count: nat, n: nat)
    requires head < |storage| && n <= count <= |storage|
    ensures var first := Min(n, |storage| - head);
      storage[head..head + first] + storage[..n - first] == Window(storage, head, count)[..n]
    ensures Window(storage, Wrap(head + n, |storage|), count - n) == Window(storage, head, count)[n..]
  {
    var cap := |storage|;
    var first := Min(n, cap - head);
    var w := Window(storage, head, count);
    var front := storage[head..head + first] + storage[..n - first];
    forall k | 0 <= k < n
      ensures front[k] == w[k]
    {
      assert w[k] == storage[Wrap(head + k, cap)];
      if k < first {
        assert front[k] == storage[head..head + first][k];
      } else {
        assert Wrap(head + k, cap) == k - first;
      }
    }
    assert front == w[..n];
    forall k | 0 <= k < count - n
      ensures Window(storage, Wrap(head + n, cap), count - n)[k] == w[n..][k]
    {
      assert Wrap(Wrap(head + n, cap) + k, cap) == Wrap(head + (n + k), cap);
    }
  }

  class Ring {
    const data: array<byte>
    var head: nat
    var tail: nat
    var count: nat
    var overflow: bool

    ghost predicate Valid()
      reads this
    {
      && head < data.Length && count <= data.Length
      && tail == Wrap(head + count, data.Length)
    }

    ghost function View(): (f: Fifo)
      requires Valid()
      reads this, data
    {
      Fifo(Window(data[..], head, count), overflow)
    }

    /** What lies in the free part of the storage, from the write cursor on. */
    ghost function Free(): (f: seq<byte>)
      requires Valid()
      reads this, data
    {
      Window(data[..], tail, data.Length - count)
    }

    constructor (storage: array<byte>)
      requires IsPowerOfTwo(storage.Length)
      ensures Valid() && data == storage && View() == EMPTY
    {
      data := storage;
      head, tail, count, overflow := 0, 0, 0, false;
    }

    method Mask(x: nat) returns (m: nat)
      requires IsPowerOfTwo(data.Length) && x < 2 * data.Length
      ensures m == Wrap(x, data.Length)
    {
      MaskWraps(x, data.Length);
      m := BitAnd(x, data.Length - 1);
    }

    method Push(bytes: seq<byte>) returns (accepted: nat)
      requires Valid() && IsPowerOfTwo(data.Length)
      modifies this`tail, this`count, this`overflow, data
      ensures Valid()
      ensures accepted == Accepted(data.Length, old(View()), bytes)
      ensures View() == Apply(data.Length, old(View()), Op.Push(bytes)).0
      ensures Free() == old(Free())[accepted..]
    {
      accepted := 0;
      ghost var start := View().stored;
      while accepted < |bytes|
        invariant Valid() && head == old(head)
        invariant accepted <= |bytes| && accepted <= data.Length - |start|
        invariant View().stored == start + bytes[..accepted]
        invariant overflow == old(overflow) && |old(Free())| == data.Length - |start|
        invariant Free() == old(Free())[accepted..]
        decreases |bytes| - accepted
      {
        var free := data.Length - count;
        if free == 0 {
          overflow := true;
          break;
        }
        var roomBeforeWrap := data.Length - tail;
        var chunk := Min(Min(|bytes| - accepted, free), roomBeforeWrap);
        CopyIn(bytes[accepted..accepted + chunk]);
        assert bytes[..accepted + chunk] == bytes[..accepted] + bytes[accepted..accepted + chunk];
        accepted := accepted + chunk;
      }
    }

    /** One block copied at `tail`, and the write cursor moved past it. */
    method CopyIn(block: seq<byte>)
      requires Valid() && IsPowerOfTwo(data.Length)
      requires count + |block| <= data.Length && tail + |block| <= data.Length
      modifies this`tail, this`count, data
      ensures Valid() && count == old(count) + |block|
      ensures View().stored == old(View().stored) + block
      ensures Free() == old(Free())[|block|..]
    {
      ghost var was, free := data[..], data.Length - count;
      forall k | 0 <= k < |block| {
        data[tail + k] := block[k];
      }
      assert data[..] == was[..tail] + block + was[tail + |block|..];
      CopyExtends(was, data[..], head, count, block);
      CopyKeepsFree(was, data[..], tail, free, block);
      tail := Mask(tail + |block|);
      count := count + |block|;
    }

    method Pop(len: nat) returns (out: seq<byte>)
      requires Valid() && IsPowerOfTwo(data.Length)
      modifies this`head, this`count
      ensures Valid()
      ensures out == Apply(data.Length, old(View()), Op.Pop(len)).1
      ensures View() == Apply(data.Length, old(View()), Op.Pop(len)).0
    {
      var chunk := Min(len, count);
      var first := Min(chunk, data.Length - head);
      out := data[head..head + first];
      FrontOfWindow(data[..], head, count, chunk);
      assert data[head..head + first] + data[..chunk - first] == Window(data[..], head, count)[..chunk] by {
        assert data[..][head..head + first] == data[head..head + first];
        assert data[..][..chunk - first] == data[..chunk - first];
      }
      if chunk > first {
        out := out + data[..chunk - first];
      }
      head := Mask(head + chunk);
      count := count - chunk;
    }

    method Clear()
      requires Valid()
      modifies this`overflow
      ensures Valid() && View() == Apply(data.Length, old(View()), ClearOverflow).0
    {
      overflow := false;
    }

    method Reset()
      requires data.Length > 0
      modifies this
      ensures Valid() && View() == EMPTY
    {
      head, tail, count, overflow := 0, 0, 0, false;
    }
  }
}
