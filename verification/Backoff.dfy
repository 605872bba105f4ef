// Exponential retry delay with jitter (core/domain/backoff.py).
module Backoff {
  datatype Policy = Policy(base: int, max: int, jitter: real)

  function Pow2(n: nat): (p: nat)
    ensures p >= 1
  {
    if n == 0 then 1 else 2 * Pow2(n - 1)
  }

  function Max0(n: int): nat {
    if n < 0 then 0 else n
  }

  function Min(a: int, b: int): int {
    if a <= b then a else b
  }

  // The capped power, before jitter.
  function Raw(attempts: int, p: Policy): int {
    Min(p.base * Pow2(Max0(attempts - 1)), p.max)
  }

  function Jittered(raw: int, jitter: real, factor: real): real {
    var delay := raw as real * (1.0 + jitter * factor);
    if delay < 0.0 then 0.0 else delay
  }

  function Seconds(attempts: int, p: Policy, factor: real): real {
    Jittered(Raw(attempts, p), p.jitter, factor)
  }

  // The independent definition: start at the base, double each time, never pass the cap.
  function Doubling(n: nat, p: Policy): int
    requires n >= 1
  {
    if n == 1 then Min(p.base, p.max) else Min(2 * Doubling(n - 1, p), p.max)
  }

  // The closed form is the doubling recurrence.
  lemma {:induction false} ClosedFormIsRecurrence(n: nat, p: Policy)
    requires n >= 1 && p.base >= 0 && p.max >= 0
    ensures Raw(n, p) == Doubling(n, p)
    ensures 0 <= Raw(n, p) <= p.max
  {
    if n == 1 {
      assert p.base * Pow2(0) == p.base;
      assert Pow2(Max0(n - 1)) == 1;
    } else {
      ClosedFormIsRecurrence(n - 1, p);
      var q := Pow2(n - 2);
      assert Pow2(Max0(n - 1)) == 2 * q && Pow2(Max0(n - 2)) == q;
      assert p.base * (2 * q) == 2 * (p.base * q);
      assert p.base * q >= 0;
    }
  }

  lemma {:induction false} Pow2Monotone(m: nat, n: nat)
    requires m <= n
    ensures Pow2(m) <= Pow2(n)
  {
    if m < n {
      Pow2Monotone(m, n - 1);
    }
  }

  lemma RawMonotone(m: int, n: int, p: Policy)
    requires m <= n && p.base >= 0
    ensures Raw(m, p) <= Raw(n, p)
  {
    var a, b := Max0(m - 1), Max0(n - 1);
    Pow2Monotone(a, b);
    MulMonotone(p.base, Pow2(a), Pow2(b));
  }

  lemma MulMonotone(x: int, a: int, b: int)
    requires x >= 0 && a <= b
    ensures x * a <= x * b
  {
  }

  lemma RealMulMonotone(a: real, b: real, f: real)
    requires a <= b && f >= 0.0
    ensures a * f <= b * f
  {
  }

  lemma JitterFactor(j: real, f: real)
    requires 0.0 <= j <= 1.0 && -1.0 <= f <= 1.0
    ensures 0.0 <= 1.0 + j * f <= 1.0 + j
  {
    var g := 0.0 - f;
    RealMulMonotone(f, 1.0, j);
    RealMulMonotone(g, 1.0, j);
    var x, y := j * f, g * j;
    assert y + x == 0.0 by {
      assert g * j + f * j == (g + f) * j;
    }
    assert y <= j;
  }

  lemma Scaled(a: real, b: real, cap: real, f: real, g: real)
    requires 0.0 <= a <= b <= cap && 0.0 <= f <= g
    ensures 0.0 <= a * f <= b * f <= cap * g
  {
    RealMulMonotone(0.0, a, f);
    RealMulMonotone(a, b, f);
    RealMulMonotone(b, cap, f);
    RealMulMonotone(f, g, cap);
    assert f * cap == cap * f && g * cap == cap * g;
  }

  lemma JitteredBounds(a: int, b: int, cap: int, jitter: real, factor: real)
    requires 0 <= a <= b <= cap && 0.0 <= jitter <= 1.0 && -1.0 <= factor <= 1.0
    ensures 0.0 <= Jittered(a, jitter, factor) <= Jittered(b, jitter, factor) <= cap as real * (1.0 + jitter)
  {
    JitterFactor(jitter, factor);
    Scaled(a as real, b as real, cap as real, 1.0 + jitter * factor, 1.0 + jitter);
  }

  lemma RawInRange(n: int, p: Policy)
    requires p.base >= 0 && p.max >= 0
    ensures 0 <= Raw(n, p) <= p.max
  {
    MulMonotone(p.base, 0, Pow2(Max0(n - 1)));
  }

  // With jitter in [0,1] and the factor in [-1,1] the delay stays within the jittered cap
  // and never shrinks as attempts grow.
  lemma DelayBoundedAndMonotone(m: int, n: int, p: Policy, factor: real)
    requires m <= n && p.base >= 0 && p.max >= 0
    requires 0.0 <= p.jitter <= 1.0 && -1.0 <= factor <= 1.0
    ensures 0.0 <= Seconds(m, p, factor) <= p.max as real * (1.0 + p.jitter)
    ensures Seconds(m, p, factor) <= Seconds(n, p, factor)
  {
    RawMonotone(m, n, p);
    RawInRange(m, p);
    RawInRange(n, p);
    JitteredBounds(Raw(m, p), Raw(n, p), p.max, p.jitter, factor);
  }
}
