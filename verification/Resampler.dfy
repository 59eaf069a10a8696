/** The 24 kHz resampler of the MP3 player: a 32-tap filter over a circular history, followed by linear
    interpolation at rational positions, against its closed form. Samples are reals where the device
    uses single-precision floats. */
module Resampler {

  const TAPS: nat := 32
  const OUT_RATE: nat := 24000

  // ---- closed form ----

  /** Input sample `i`; silence before the stream. */
  function Input(xs: seq<int>, i: int): real {
    if 0 <= i < |xs| then xs[i] as real else 0.0
  }

  /** The first `n` products of the filter at input position `i`. */
  function Products(taps: seq<real>, xs: seq<int>, i: int, n: nat): real
    requires n <= |taps|
  {
    if n == 0 then 0.0 else Products(taps, xs, i, n - 1) + taps[n - 1] * Input(xs, i - (n - 1))
  }

  function Filtered(taps: seq<real>, xs: seq<int>, i: int): real
    requires |taps| == TAPS
  {
    Products(taps, xs, i, TAPS)
  }

  /** How many outputs `n` inputs give: one for every multiple of rate/24000 up to the last input. */
  function OutCount(n: nat, rate: nat): nat
    requires rate > 0
  {
    if n == 0 then 0 else (n - 1) * OUT_RATE / rate + 1
  }

  /** The input index at or after position `pos`/24000. */
  function IndexAfter(pos: nat): nat {
    (pos + OUT_RATE - 1) / OUT_RATE
  }

  /** How far `pos`/24000 lies from input `i - 1` towards input `i`. */
  function Fraction(pos: nat, i: nat): real {
    (pos - (i - 1) * OUT_RATE) as real / OUT_RATE as real
  }

  function Interpolated(taps: seq<real>, xs: seq<int>, pos: nat): real
    requires |taps| == TAPS
  {
    var i := IndexAfter(pos);
    if i == 0 then Filtered(taps, xs, 0)
    else
      var before := Filtered(taps, xs, i - 1);
      before + (Filtered(taps, xs, i) - before) * Fraction(pos, i)
  }

  function Truncate(x: real): int {
    if x >= 0.0 then x.Floor else -((-x).Floor)
  }

  function ToSample(x: real): int {
    Truncate(if x > 32767.0 then 32767.0 else if x < -32768.0 then -32768.0 else x)
  }

  /** Output `k` of the whole stream, a function of its position alone. */
  function Output(taps: seq<real>, xs: seq<int>, rate: nat, k: nat): int
    requires |taps| == TAPS
  {
    if rate == OUT_RATE then if k < |xs| then xs[k] else 0
    else ToSample(Interpolated(taps, xs, k * rate))
  }

  function Outputs(taps: seq<real>, xs: seq<int>, rate: nat, from: nat, to: nat): (o: seq<int>)
    requires |taps| == TAPS && from <= to
    ensures |o| == to - from
  {
    seq(to - from, j requires 0 <= j < to - from && |taps| == TAPS => Output(taps, xs, rate, from + j))
  }

  // ---- facts about the closed form ----

  lemma DivBounds(x: nat, d: nat)
    requires d > 0
    ensures (x / d) * d <= x < (x / d + 1) * d
  {
    assert x == d * (x / d) + x % d;
    assert (x / d + 1) * d == (x / d) * d + d;
  }

  lemma {:induction false} DivIs(x: nat, d: nat, q: nat)
    requires d > 0 && q * d <= x < (q + 1) * d
    ensures x / d == q
  {
    DivBounds(x, d);
    var p := x / d;
    if p < q {
      MulMonotone(p + 1, q, d);
    } else if q < p {
      MulMonotone(q + 1, p, d);
    }
  }

  lemma MulMonotone(a: nat, b: nat, d: nat)
    requires a <= b
    ensures a * d <= b * d
  {
  }

  /** Output `c - 1` is the last at or before input `n - 1` and output `c` lies after it. */
  lemma {:induction false} OutCountIs(n: nat, rate: nat, c: nat)
    requires rate > 0 && n > 0 && c > 0 && (c - 1) * rate <= (n - 1) * OUT_RATE < c * rate
    ensures OutCount(n, rate) == c
  {
    DivIs((n - 1) * OUT_RATE, rate, c - 1);
  }

  lemma OutCountBounds(n: nat, rate: nat)
    requires rate > 0 && n > 0
    ensures var c := OutCount(n, rate); (c - 1) * rate <= (n - 1) * OUT_RATE < c * rate
  {
    DivBounds((n - 1) * OUT_RATE, rate);
  }

  lemma {:induction false} OutCountGrows(n: nat, rate: nat)
    requires rate > 0
    ensures OutCount(n, rate) <= OutCount(n + 1, rate)
  {
    if n > 0 {
      OutCountBounds(n, rate);
      OutCountBounds(n + 1, rate);
      var c, c' := OutCount(n, rate), OutCount(n + 1, rate);
      if c' < c {
        MulMonotone(c', c - 1, rate);
      }
    }
  }

  /** A frame of at most 1152 samples never fills the output buffer, whatever came before. */
  lemma {:induction false} FrameFits(n: nat, count: nat, rate: nat)
    requires rate >= 16000 && count <= 1152
    ensures OutCount(n + count, rate) <= OutCount(n, rate) + 1729
  {
    var c, c' := OutCount(n, rate), OutCount(n + count, rate);
    if c' > c {
      OutCountBounds(n + count, rate);
      if n > 0 {
        OutCountBounds(n, rate);
      }
      var d := c' - 1 - c;
      assert (c' - 1) * rate == c * rate + d * rate by {
        assert c' - 1 == c + d;
      }
      assert d * rate <= 1152 * OUT_RATE;
      MulMonotone(16000, rate, d);
    }
  }

  lemma {:induction false} ProductsPrefix(taps: seq<real>, xs: seq<int>, more: seq<int>, i: int, n: nat)
    requires n <= |taps| && i < |xs|
    ensures Products(taps, xs + more, i, n) == Products(taps, xs, i, n)
  {
    if n > 0 {
      ProductsPrefix(taps, xs, more, i, n - 1);
    }
  }

  lemma {:induction false} InterpolatedPrefix(taps: seq<real>, xs: seq<int>, more: seq<int>, pos: nat)
    requires |taps| == TAPS && IndexAfter(pos) < |xs|
    ensures Interpolated(taps, xs + more, pos) == Interpolated(taps, xs, pos)
  {
    var i := IndexAfter(pos);
    ProductsPrefix(taps, xs, more, i, TAPS);
    if i > 0 {
      ProductsPrefix(taps, xs, more, i - 1, TAPS);
    }
  }

  lemma {:induction false} ReachedIndex(n: nat, rate: nat, k: nat)
    requires rate > 0 && k < OutCount(n, rate)
    ensures IndexAfter(k * rate) < n && (rate == OUT_RATE ==> k < n)
  {
    OutCountBounds(n, rate);
    MulMonotone(k, OutCount(n, rate) - 1, rate);
  }

  /** An output depends only on the inputs up to its position, so later frames never change it. */
  lemma OutputPrefix(taps: seq<real>, xs: seq<int>, more: seq<int>, rate: nat, k: nat)
    requires |taps| == TAPS && rate > 0 && k < OutCount(|xs|, rate)
    ensures Output(taps, xs + more, rate, k) == Output(taps, xs, rate, k)
  {
    ReachedIndex(|xs|, rate, k);
    if rate != OUT_RATE {
      InterpolatedPrefix(taps, xs, more, k * rate);
    }
  }

  lemma OutputsSnoc(taps: seq<real>, xs: seq<int>, rate: nat, from: nat, to: nat)
    requires |taps| == TAPS && from <= to
    ensures Outputs(taps, xs, rate, from, to + 1) == Outputs(taps, xs, rate, from, to) + [Output(taps, xs, rate, to)]
  {
  }

  lemma OutputsSplit(taps: seq<real>, xs: seq<int>, rate: nat, a: nat, b: nat, c: nat)
    requires |taps| == TAPS && a <= b <= c
    ensures Outputs(taps, xs, rate, a, c) == Outputs(taps, xs, rate, a, b) + Outputs(taps, xs, rate, b, c)
  {
  }

  /** More inputs leave the outputs made so far alone and continue after them. */
  lemma OutputsExtend(taps: seq<real>, xs: seq<int>, more: seq<int>, rate: nat, from: nat)
    requires |taps| == TAPS && rate > 0 && from <= OutCount(|xs|, rate) <= OutCount(|xs + more|, rate)
    ensures var a, b := OutCount(|xs|, rate), OutCount(|xs + more|, rate);
      Outputs(taps, xs + more, rate, from, b) == Outputs(taps, xs, rate, from, a) + Outputs(taps, xs + more, rate, a, b)
  {
    var a, b := OutCount(|xs|, rate), OutCount(|xs + more|, rate);
    OutputsSplit(taps, xs + more, rate, from, a, b);
    forall k | from <= k < a
      ensures Output(taps, xs + more, rate, k) == Output(taps, xs, rate, k)
    {
      OutputPrefix(taps, xs, more, rate, k);
    }
    assert Outputs(taps, xs + more, rate, from, a) == Outputs(taps, xs, rate, from, a);
  }

  /** At the output rate itself every input is one output. */
  lemma OutCountUnit(n: nat)
    ensures OutCount(n, OUT_RATE) == n
  {
    if n > 0 {
      DivIs((n - 1) * OUT_RATE, OUT_RATE, n - 1);
    }
  }

  lemma {:induction false} OutCountMonotone(n: nat, more: nat, rate: nat)
    requires rate > 0
    ensures OutCount(n, rate) <= OutCount(n + more, rate)
  {
    if more > 0 {
      OutCountMonotone(n, more - 1, rate);
      OutCountGrows(n + more - 1, rate);
    }
  }

  // ---- the streaming form ----

  /** The slot holding the input written `back` writes ago. */
  function Slot(pos: nat, back: nat): (i: nat)
    requires pos < TAPS && back <= TAPS
    ensures i < TAPS
  {
    (pos + TAPS - back) % TAPS
  }

  /** The circular history holds the last 32 inputs. */
  ghost predicate Remembers(history: seq<real>, pos: nat, xs: seq<int>) {
    && |history| == TAPS && pos < TAPS
    && forall back | 1 <= back <= TAPS :: history[Slot(pos, back)] == Input(xs, |xs| - back)
  }

  lemma HistoryStep(history: seq<real>, pos: nat, xs: seq<int>, x: int)
    requires Remembers(history, pos, xs)
    ensures Remembers(history[pos := x as real], (pos + 1) % TAPS, xs + [x])
    ensures forall j | 0 <= j < TAPS :: history[pos := x as real][Slot(pos, j)] == Input(xs + [x], |xs| - j)
  {
    var now, xs' := history[pos := x as real], xs + [x];
    forall j | 0 <= j < TAPS
      ensures now[Slot(pos, j)] == Input(xs', |xs| - j)
    {
      if j > 0 {
        assert Slot(pos, j) != pos;
        assert Input(xs, |xs| - j) == Input(xs', |xs| - j);
      }
    }
    var pos' := (pos + 1) % TAPS;
    forall back | 1 <= back <= TAPS
      ensures now[Slot(pos', back)] == Input(xs', |xs'| - back)
    {
      assert Slot(pos', back) == Slot(pos, back - 1);
    }
  }

  class Converter {
    var rate: nat    // 0 until the first frame header
    var taps: seq<real>
    const history: array<real>
    var historyPos: nat
    var previous: real
    var inputSamples: nat
    var nextOutput: nat
    ghost var inputs: seq<int>

    ghost predicate Valid()
      reads this, history
    {
      && history.Length == TAPS && (if rate == 0 then inputs == [] else |taps| == TAPS)
      && (rate != OUT_RATE ==> Streaming())
    }

    ghost predicate Streaming()
      reads this, history
    {
      && Remembers(history[..], historyPos, inputs) && inputSamples == |inputs|
      && (if inputs == [] then nextOutput == 0
          else
            && rate > 0 && |taps| == TAPS && nextOutput == OutCount(|inputs|, rate) * rate
            && previous == Filtered(taps, inputs, |inputs| - 1))
    }

    constructor ()
      ensures Valid() && inputs == [] && rate == 0 && fresh(history)
    {
      rate, taps := 0, [];
      history := new real[TAPS](_ => 0.0);
      historyPos, previous, inputSamples, nextOutput, inputs := 0, 0.0, 0, 0, [];
    }

    /** The rate is known: install its filter, which the output rate itself never uses. */
    method SetRate(rate: nat, taps: seq<real>)
      requires Valid() && this.rate == 0 && rate > 0 && |taps| == TAPS
      modifies this`rate, this`taps
      ensures Valid() && this.rate == rate && this.taps == taps && inputs == []
    {
      this.rate, this.taps := rate, taps;
    }

    /** Put one input into the history and filter it. */
    method Filter(x: int) returns (value: real)
      requires Remembers(history[..], historyPos, inputs) && |taps| == TAPS
      modifies this`historyPos, this`inputs, history
      ensures inputs == old(inputs) + [x] && Remembers(history[..], historyPos, inputs)
      ensures value == Filtered(taps, inputs, |inputs| - 1)
    {
      HistoryStep(history[..], historyPos, inputs, x);
      ghost var was := history[..];
      history[historyPos] := x as real;
      assert history[..] == was[historyPos := x as real];
      ghost var n := |inputs|;
      inputs := inputs + [x];
      value := 0.0;
      var j := 0;
      while j < TAPS
        invariant j <= TAPS && value == Products(taps, inputs, n, j)
      {
        value := value + taps[j] * history[Slot(historyPos, j)];
        j := j + 1;
      }
      historyPos := (historyPos + 1) % TAPS;
    }

    /** One input sample: copy it at the output rate; otherwise filter it and write every output up to its
        position behind `out`. Fails only when the buffer is full. */
    method Feed(x: int, output: array<int>, out: nat) returns (end: nat, ok: bool)
      requires Valid() && rate > 0 && out <= output.Length && (rate == OUT_RATE ==> out < output.Length)
      modifies this`historyPos, this`inputs, this`previous, this`inputSamples, this`nextOutput, history, output
      ensures inputs == old(inputs) + [x]
      ensures OutCount(|old(inputs)|, rate) <= OutCount(|inputs|, rate)
      ensures ok <==> out + (OutCount(|inputs|, rate) - OutCount(|old(inputs)|, rate)) <= output.Length
      ensures ok ==> Valid() && end == out + (OutCount(|inputs|, rate) - OutCount(|old(inputs)|, rate))
      ensures ok ==> output[..end] == old(output[..out])
                       + Outputs(taps, inputs, rate, OutCount(|old(inputs)|, rate), OutCount(|inputs|, rate))
    {
      if rate == OUT_RATE {
        end, ok := Copy(x, output, out);
      } else {
        end, ok := Resample(x, output, out);
      }
    }

    method Copy(x: int, output: array<int>, out: nat) returns (end: nat, ok: bool)
      requires Valid() && rate == OUT_RATE && out < output.Length
      modifies this`inputs, output
      ensures Valid() && inputs == old(inputs) + [x] && ok && end == out + 1
      ensures OutCount(|old(inputs)|, rate) == |old(inputs)| && OutCount(|inputs|, rate) == |inputs|
      ensures output[..end] == old(output[..out]) + Outputs(taps, inputs, rate, |old(inputs)|, |inputs|)
    {
      OutCountUnit(|inputs|);
      OutCountUnit(|inputs| + 1);
      output[out] := x;
      inputs := inputs + [x];
      end, ok := out + 1, true;
      assert Output(taps, inputs, rate, |inputs| - 1) == x;
      assert output[..end] == output[..out] + [x];
    }

    method Resample(x: int, output: array<int>, out: nat) returns (end: nat, ok: bool)
      requires Valid() && rate > 0 && rate != OUT_RATE && out <= output.Length
      modifies this`historyPos, this`inputs, this`previous, this`inputSamples, this`nextOutput, history, output
      ensures inputs == old(inputs) + [x]
      ensures OutCount(|old(inputs)|, rate) <= OutCount(|inputs|, rate)
      ensures ok <==> out + (OutCount(|inputs|, rate) - OutCount(|old(inputs)|, rate)) <= output.Length
      ensures ok ==> Valid() && end == out + (OutCount(|inputs|, rate) - OutCount(|old(inputs)|, rate))
      ensures ok ==> output[..end] == old(output[..out])
                       + Outputs(taps, inputs, rate, OutCount(|old(inputs)|, rate), OutCount(|inputs|, rate))
    {
      ghost var before := inputs;
      var value := Filter(x);
      var index := inputSamples;
      inputSamples := inputSamples + 1;
      if index > 0 {
        ProductsPrefix(taps, before, [x], index - 1, TAPS);
      }
      end, ok := Emit(value, index, output, out);
      previous := value;
    }

    /** Write every output due by input `index`, interpolating between the previous and this value. */
    method Emit(value: real, index: nat, output: array<int>, out: nat) returns (end: nat, ok: bool)
      requires rate > 0 && rate != OUT_RATE && |taps| == TAPS && out <= output.Length
      requires |inputs| == index + 1 && value == Filtered(taps, inputs, index)
      requires index > 0 ==> previous == Filtered(taps, inputs, index - 1)
      requires nextOutput == OutCount(index, rate) * rate
      modifies this`nextOutput, output
      ensures OutCount(index, rate) <= OutCount(index + 1, rate)
      ensures ok <==> out + (OutCount(index + 1, rate) - OutCount(index, rate)) <= output.Length
      ensures ok ==> end == out + (OutCount(index + 1, rate) - OutCount(index, rate))
      ensures ok ==> nextOutput == OutCount(index + 1, rate) * rate
      ensures ok ==> output[..end] == old(output[..out])
                       + Outputs(taps, inputs, rate, OutCount(index, rate), OutCount(index + 1, rate))
    {
      end, ok := out, true;
      ghost var from, to := OutCount(index, rate), OutCount(index + 1, rate);
      ghost var made, start := from, output[..out];
      OutCountGrows(index, rate);
      assert start == start + Outputs(taps, inputs, rate, from, from);
      while nextOutput <= index * OUT_RATE
        invariant end == out + (made - from) <= output.Length && from <= made <= to
        invariant nextOutput == made * rate
        invariant output[..end] == start + Outputs(taps, inputs, rate, from, made)
        decreases index * OUT_RATE - nextOutput
      {
        NextIsDue(made, to, rate, index);
        var sample := Interpolate(value, index, made, from);
        if end >= output.Length {
          ok := false;
          return;
        }
        output[end] := ToSample(sample);
        assert output[..end + 1] == output[..end] + [Output(taps, inputs, rate, made)];
        OutputsSnoc(taps, inputs, rate, from, made);
        end := end + 1;
        Successor(made, rate);
        nextOutput := nextOutput + rate;
        made := made + 1;
      }
      AllAreMade(made, to, rate, index);
    }

    /** The value at the next output position. */
    method Interpolate(value: real, index: nat, ghost made: nat, ghost from: nat) returns (sample: real)
      requires rate > 0 && |taps| == TAPS && rate != OUT_RATE && |inputs| == index + 1
      requires value == Filtered(taps, inputs, index)
      requires index > 0 ==> previous == Filtered(taps, inputs, index - 1)
      requires made >= from == OutCount(index, rate) && nextOutput == made * rate <= index * OUT_RATE
      ensures sample == Interpolated(taps, inputs, made * rate)
    {
      OutputAt(made, from, index);
      sample := value;
      if index != 0 {
        var fraction := Fraction(nextOutput, index);
        sample := previous + (value - previous) * fraction;
      }
    }

    static lemma Successor(made: nat, rate: nat)
      ensures (made + 1) * rate == made * rate + rate
    {
    }

    /** An output position not past the current input is one still to be made. */
    static lemma NextIsDue(made: nat, to: nat, rate: nat, index: nat)
      requires rate > 0 && to == OutCount(index + 1, rate) && made * rate <= index * OUT_RATE
      ensures made < to
    {
      OutCountBounds(index + 1, rate);
      if made >= to {
        MulMonotone(to, made, rate);
      }
    }

    static lemma {:induction false} AllAreMade(made: nat, to: nat, rate: nat, index: nat)
      requires rate > 0 && to == OutCount(index + 1, rate) && made <= to && made * rate > index * OUT_RATE
      ensures made == to
    {
      OutCountBounds(index + 1, rate);
      if made < to {
        MulMonotone(made, to - 1, rate);
      }
    }

    /** The output about to be made lies between the previous input, exclusive, and this one. */
    lemma OutputAt(made: nat, from: nat, index: nat)
      requires rate > 0 && |taps| == TAPS && rate != OUT_RATE
      requires made >= from == OutCount(index, rate) && made * rate <= index * OUT_RATE
      ensures IndexAfter(made * rate) == index
      ensures index > 0 ==> 0.0 < Fraction(made * rate, index) <= 1.0
    {
      if index > 0 {
        OutCountBounds(index, rate);
        MulMonotone(from, made, rate);
      }
    }
  }
}
