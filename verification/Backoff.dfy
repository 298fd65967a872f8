/** Capped exponential back-off with full jitter (src/fleetpulse/agent/client.py). Delays are reals. */
module Backoff {
  import opened Wrappers

  /** `base * 2**attempt` converts the integer power to a float; from 2**1024 on that raises. */
  datatype OverflowError = OverflowError

  const MAX_FLOAT_EXPONENT: nat := 1023

  function Pow2(n: nat): (r: nat)
    ensures r >= 1
  {
    if n == 0 then 1 else 2 * Pow2(n - 1)
  }

  function Exponent(attempt: int): (n: nat) {
    if attempt < 0 then 0 else attempt
  }

  function Min(x: real, y: real): (r: real) {
    if x <= y then x else y
  }

  /** The largest delay that can be drawn for an attempt. */
  function Ceiling(attempt: int, base: real, cap: real): (r: real) {
    Min(cap, base * Pow2(Exponent(attempt)) as real)
  }

  function FullJitterDelay(attempt: int, base: real, cap: real, uniform: (real, real) -> real): (r: Result<real, OverflowError>) {
    if Exponent(attempt) > MAX_FLOAT_EXPONENT then Failure(OverflowError)
    else Success(uniform(0.0, Ceiling(attempt, base, cap)))
  }

  /** What any source of randomness passed as `uniform` has to do. */
  ghost predicate IsUniform(uniform: (real, real) -> real) {
    forall a, b :: a <= b ==> a <= uniform(a, b) <= b
  }

  lemma {:induction false} Pow2Monotone(m: nat, n: nat)
    requires m <= n
    ensures Pow2(m) <= Pow2(n)
  {
    if m < n {
      Pow2Monotone(m, n - 1);
    }
  }

  /** The ceiling never decreases with the attempts, never exceeds the cap, and starts at base or cap. */
  lemma CeilingMonotone(a: int, b: int, base: real, cap: real)
    requires a <= b && 0.0 < base && 0.0 < cap
    ensures 0.0 < Ceiling(a, base, cap) <= Ceiling(b, base, cap) <= cap
    ensures a <= 0 ==> Ceiling(a, base, cap) == Min(cap, base)
  {
    Pow2Monotone(Exponent(a), Exponent(b));
    var x, y := Pow2(Exponent(a)) as real, Pow2(Exponent(b)) as real;
    assert 1.0 <= x <= y;
    assert base * y - base * x == base * (y - x);
    assert base * x - base == base * (x - 1.0);
  }

  /** The ceiling starts at the base and doubles with every attempt, up to the cap. */
  lemma CeilingDoubles(n: nat, base: real, cap: real)
    requires 0.0 < base && 0.0 < cap
    ensures Ceiling(0, base, cap) == Min(cap, base)
    ensures Ceiling(n + 1, base, cap) == Min(cap, 2.0 * Ceiling(n, base, cap))
  {
    var x := Pow2(n) as real;
    assert Pow2(n + 1) as real == 2.0 * x;
    assert base * (2.0 * x) == 2.0 * (base * x);
    Pow2Monotone(0, n);
  }

  /** A delay is the draw between zero and the ceiling, for every attempt up to 1023 and for no other. */
  lemma DelayExact(attempt: int, base: real, cap: real, uniform: (real, real) -> real)
    ensures FullJitterDelay(attempt, base, cap, uniform)
         == if attempt <= 1023 then Success(uniform(0.0, Ceiling(if attempt < 0 then 0 else attempt, base, cap)))
            else Failure(OverflowError)
  {
  }

  /** A delay is drawn exactly for the attempts a float can express, and lies between zero and the cap. */
  lemma DelayBounds(attempt: int, base: real, cap: real, uniform: (real, real) -> real)
    requires 0.0 < base && 0.0 < cap && IsUniform(uniform)
    ensures FullJitterDelay(attempt, base, cap, uniform).Success? <==> attempt <= 1023
    ensures FullJitterDelay(attempt, base, cap, uniform).Success? ==>
              var delay := FullJitterDelay(attempt, base, cap, uniform).value;
              0.0 <= delay <= cap && delay <= base * Pow2(Exponent(attempt)) as real
  {
    CeilingMonotone(attempt, attempt, base, cap);
  }
}
