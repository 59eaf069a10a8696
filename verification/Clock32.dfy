/** A millisecond clock of 32 bits, which wraps every 49.7 days. */
module Clock32 {
  const WRAP: nat := 0x1_0000_0000

  function Clock(t: nat): (c: nat)
    ensures c < WRAP
  {
    t % WRAP
  }

  /** 32-bit difference of two clock readings. */
  function Since(now: nat, start: nat): nat {
    (Clock(now) + WRAP - Clock(start)) % WRAP
  }

  /** The difference of two readings is the time between them, as long as that is under 2^32 ms. */
  lemma SinceIsElapsed(t: nat, s: nat)
    requires s <= t < s + WRAP
    ensures Since(Clock(t), Clock(s)) == t - s && Since(Clock(t), s) == t - s && Since(t, Clock(s)) == t - s
  {
    var a, b, d := t % WRAP, s % WRAP, t - s;
    assert t == WRAP * (t / WRAP) + a && s == WRAP * (s / WRAP) + b;
    var k := t / WRAP - s / WRAP;
    assert d == WRAP * k + (a - b);
    assert k == 0 || k == 1;
  }

  lemma ClockAdds(t: nat, d: nat)
    ensures Clock(Clock(t) + d) == Clock(t + d)
  {
    assert t == WRAP * (t / WRAP) + t % WRAP;
    assert t + d == WRAP * (t / WRAP) + (t % WRAP + d);
  }
}
