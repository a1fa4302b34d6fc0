/** The retry delay of pkg/provider/resilience/retry.go: exponential growth in
    wrapping 64-bit arithmetic with a partial overflow check. */
module Backoff {
  const TWO63: int := 0x8000_0000_0000_0000
  const TWO64: int := 0x1_0000_0000_0000_0000

  /** A Go int, int64 or time.Duration. */
  type int64 = x: int | -TWO63 <= x < TWO63

  /** Two's complement reduction of an exact result to 64 bits. */
  function Wrap(x: int): int64 {
    (x + TWO63) % TWO64 - TWO63
  }

  function Pow2(n: nat): (p: nat)
    ensures p > 0
  {
    if n == 0 then 1 else 2 * Pow2(n - 1)
  }

  /** int64(1) << uint(shift): a negative shift becomes a huge unsigned one. */
  function ShiftOne(shift: int64): int64 {
    if 0 <= shift <= 63 then Wrap(Pow2(shift)) else 0
  }

  /** `jitter` is the value drawn by rand.N when base is positive. */
  function ComputeBackoff(attempt: int64, base: int64, max: int64, jitter: int64): (wait: int64)
    ensures wait <= max
  {
    var shift := Wrap(attempt - 1);
    if shift > 62 then max else Settle(Wrap(base * ShiftOne(shift)), shift, base, max, jitter)
  }

  /** The overflow check, the jitter and the cap, on an already wrapped product. */
  function Settle(wait: int64, shift: int64, base: int64, max: int64, jitter: int64): (settled: int64)
    ensures settled <= max
  {
    if wait < 0 || (shift > 0 && wait < base) then max
    else Min(if base > 0 then Wrap(wait + jitter) else wait, max)
  }

  function Min(a: int, b: int): int {
    if a > b then b else a
  }

  /** The promised delay, over unbounded integers. */
  function Promised(attempt: nat, base: nat, max: nat, jitter: nat): nat
    requires attempt >= 1
  {
    Min(base * Pow2(attempt - 1) + jitter, max)
  }

  lemma {:induction false} Pow2Sum(m: nat, n: nat)
    ensures Pow2(m + n) == Pow2(m) * Pow2(n)
  {
    if m > 0 {
      Pow2Sum(m - 1, n);
    }
  }

  lemma Pow2Byte(n: nat)
    ensures Pow2(n + 8) == 0x100 * Pow2(n)
  {
    assert Pow2(n + 4) == 0x10 * Pow2(n) by { assert Pow2(n + 2) == 4 * Pow2(n); }
    assert Pow2(n + 6) == 0x40 * Pow2(n);
  }

  lemma Pow2At63()
    ensures Pow2(63) == TWO63
  {
    assert Pow2(7) == 0x80 by { assert Pow2(3) == 8; }
    Pow2Byte(7); Pow2Byte(15); Pow2Byte(23); Pow2Byte(31); Pow2Byte(39); Pow2Byte(47); Pow2Byte(55);
  }

  lemma WrapSubtracts(x: int) returns (q: int)
    ensures Wrap(x) == x - q * TWO64
  {
    q := (x + TWO63) / TWO64;
  }

  lemma Regroup(q: int, c: int, p: int) returns (m: int)
    ensures q * (2 * (c * p)) == m * p
  {
    m := q * (2 * c);
    assert 2 * (c * p) == (2 * c) * p;
  }

  /** 2^shift divides 2^63, so a wrapped multiple of 2^shift is a multiple again. */
  lemma WrapKeepsMultiples(base: nat, shift: nat) returns (k: int)
    requires shift <= 62
    ensures Wrap(base * Pow2(shift)) == k * Pow2(shift)
    ensures TWO63 == Pow2(63 - shift) * Pow2(shift)
  {
    Pow2At63();
    Pow2Sum(63 - shift, shift);
    k := WrappedMultiple(base * Pow2(shift), base, Pow2(63 - shift), Pow2(shift));
  }

  lemma WrappedMultiple(x: int, base: int, c: int, p: int) returns (k: int)
    requires x == base * p && c * p == TWO63
    ensures Wrap(x) == k * p
  {
    var q := WrapSubtracts(x);
    var m := Regroup(q, c, p);
    k := base - m;
    Distribute(base, -m, p);
  }

  lemma MulMono(a: int, b: int, c: nat)
    requires a <= b
    ensures a * c <= b * c
  {
  }

  lemma ShiftIsPow2(shift: nat)
    requires shift <= 62
    ensures 0 < Pow2(shift) <= TWO63 / 2
    ensures ShiftOne(shift) == Pow2(shift)
  {
    Pow2At63();
    Pow2Sum(62 - shift, shift);
    assert Pow2(63) == 2 * Pow2(62);
    MulMono(1, Pow2(62 - shift), Pow2(shift));
  }

  /** No attempt above 63 is reached without the promised delay being capped. */
  lemma LateAttempt(attempt: int64, base: nat, max: nat, jitter: nat)
    requires attempt >= 64 && 1 <= base && max <= TWO63
    ensures Promised(attempt, base, max, jitter) == max
  {
    Pow2At63();
    Pow2Sum(attempt - 64, 63);
    MulMono(1, Pow2(attempt - 64), TWO63);
    MulMono(1, base, Pow2(attempt - 1));
  }

  lemma Distribute(a: int, b: int, c: int)
    ensures (a + b) * c == a * c + b * c
  {
  }

  /** A multiple of d below n * d is at most n * d - d; one above 0 is at least d. */
  lemma MultipleGap(k: int, n: int, d: nat)
    ensures k * d < n * d ==> k * d + d <= n * d
    ensures k * d > 0 ==> k * d >= d
  {
    if k < n { MulMono(k + 1, n, d); Distribute(k, 1, d); } else { MulMono(n, k, d); }
    if k > 0 { MulMono(1, k, d); } else { MulMono(k, 0, d); }
  }

  /** Below 2^63 the jitter cannot push the wait past 2^63 either: the gap to
      2^63 is a multiple of 2^shift, and base above 2^shift is at most max. */
  lemma NoJitterOverflow(base: int64, max: int64, shift: nat)
    requires shift <= 62 && 0 < base <= max && base * max <= TWO63
    requires base * Pow2(shift) < TWO63
    ensures base * Pow2(shift) + base <= TWO63
  {
    var p := Pow2(shift);
    var _ := WrapKeepsMultiples(base, shift);
    MultipleGap(base, Pow2(63 - shift), p);
    if base > p {
      MulMono(p + 1, max, base);
      Distribute(p, 1, base);
    }
  }

  /** A product that wraps leaves a multiple of 2^shift, and 2^shift >= max: so one that
      is not detected, being neither negative nor below base, reaches max. */
  lemma WrappedReachesMax(base: int64, max: int64, shift: nat) returns (k: int)
    requires shift <= 62 && 0 < base <= max && base * max <= TWO63
    requires base * Pow2(shift) >= TWO63
    ensures Wrap(base * Pow2(shift)) == k * Pow2(shift) && Pow2(shift) >= max
    ensures var wait := Wrap(base * Pow2(shift));
            !(wait < 0 || (shift > 0 && wait < base)) ==> k > 0 && max <= wait && wait + base <= TWO63
  {
    var p := Pow2(shift);
    k := WrapKeepsMultiples(base, shift);
    MultipleGap(k, Pow2(63 - shift), p);
    if p < max {
      MulMono(p + 1, max, base);
      Distribute(p, 1, base);
      assert false;
    }
  }

  /** The exact condition on a product: it fits together with the jitter, or its
      wrapped value is detected, or is at least max and fits with the jitter. */
  predicate Harmless(product: nat, shift: nat, base: int64, max: int64, jitter: int64) {
    if product < TWO63 then product + jitter < TWO63
    else
      var wait := Wrap(product);
      wait < 0 || (shift > 0 && wait < base) || max <= wait + jitter < TWO63
  }

  lemma SettleJustWhen(product: nat, shift: nat, base: int64, max: int64, jitter: int64)
    requires shift <= 62 && 0 < base <= max && 0 <= jitter < base <= product
    ensures Settle(Wrap(product), shift, base, max, jitter) == Min(product + jitter, max) <==>
            Harmless(product, shift, base, max, jitter)
  {
  }

  /** The code's wait, with its product named. */
  lemma CodeSettles(product: nat, one: int64, attempt: int64, base: int64, max: int64, jitter: int64)
    requires 1 <= attempt <= 63
    requires one == ShiftOne(attempt - 1) && product == base * one
    ensures ComputeBackoff(attempt, base, max, jitter) == Settle(Wrap(product), attempt - 1, base, max, jitter)
  {
    assert Wrap(attempt - 1) == attempt - 1;
  }

  /** Call by call, with no bound on base * max, the code is right just when the
      shift is clamped or the product is harmless. */
  lemma BackoffIsExactJustWhen(attempt: int64, base: int64, max: int64, jitter: int64)
    requires attempt >= 1
    requires 0 < base <= max && 0 <= jitter < base
    ensures ComputeBackoff(attempt, base, max, jitter) == Promised(attempt, base, max, jitter) <==>
            attempt > 63 || Harmless(base * Pow2(attempt - 1), attempt - 1, base, max, jitter)
  {
    if attempt > 63 {
      LateAttempt(attempt, base, max, jitter);
    } else {
      var one := Pow2(attempt - 1);
      var product := base * one;
      ShiftIsPow2(attempt - 1);
      MulMono(1, one, base);
      CodeSettles(product, one, attempt, base, max, jitter);
      SettleJustWhen(product, attempt - 1, base, max, jitter);
    }
  }

  /** The shifted base, in the code's arithmetic, serves every jitter: it fits with any
      jitter in [0, base), or its wrapped value is detected, or reaches max and fits. */
  predicate Serves(product: int, shift: nat, base: int64, max: int64) {
    if product < TWO63 then product + base <= TWO63
    else
      var wait := Wrap(product);
      wait < 0 || (shift > 0 && wait < base) || (max <= wait && wait + base <= TWO63)
  }

  /** Serving every jitter is serving the least and the greatest. */
  lemma ServesEveryJitter(product: nat, shift: nat, base: int64, max: int64, jitter: int64)
    requires 0 < base <= max && 0 <= jitter < base
    ensures Serves(product, shift, base, max) <==>
            Harmless(product, shift, base, max, 0) && Harmless(product, shift, base, max, base - 1)
    ensures Serves(product, shift, base, max) ==> Harmless(product, shift, base, max, jitter)
  {
  }

  predicate ServesAt(base: int64, max: int64, shift: nat) {
    Serves(base * Pow2(shift), shift, base, max)
  }

  predicate ExactAt(attempt: int64, base: int64, max: int64, jitter: int64)
    requires attempt >= 1 && 0 < base <= max && 0 <= jitter
  {
    ComputeBackoff(attempt, base, max, jitter) == Promised(attempt, base, max, jitter)
  }

  ghost predicate AlwaysExact(base: int64, max: int64)
    requires 0 < base <= max
  {
    forall attempt: int64, jitter: int64 | attempt >= 1 && 0 <= jitter < base :: ExactAt(attempt, base, max, jitter)
  }

  lemma ExactWhenServed(attempt: int64, base: int64, max: int64, jitter: int64)
    requires attempt >= 1 && 0 < base <= max && 0 <= jitter < base
    requires attempt <= 63 ==> ServesAt(base, max, attempt - 1)
    ensures ExactAt(attempt, base, max, jitter)
  {
    BackoffIsExactJustWhen(attempt, base, max, jitter);
    if attempt <= 63 {
      var one := Pow2(attempt - 1);
      MulMono(1, one, base);
      ServesEveryJitter(base * one, attempt - 1, base, max, jitter);
    }
  }

  lemma ServedWhenExact(base: int64, max: int64, shift: nat)
    requires 0 < base <= max && shift <= 62
    requires ExactAt(shift + 1, base, max, 0) && ExactAt(shift + 1, base, max, base - 1)
    ensures ServesAt(base, max, shift)
  {
    BackoffIsExactJustWhen(shift + 1, base, max, 0);
    BackoffIsExactJustWhen(shift + 1, base, max, base - 1);
    var one := Pow2(shift);
    MulMono(1, one, base);
    ServesEveryJitter(base * one, shift, base, max, 0);
  }

  /** A configuration gets the promised wait at every attempt and jitter if and only if
      each of its 63 shifted bases serves. */
  lemma ConfigurationExactlyWhen(base: int64, max: int64)
    requires 0 < base <= max
    ensures AlwaysExact(base, max) <==> forall shift: nat | shift <= 62 :: ServesAt(base, max, shift)
  {
    if AlwaysExact(base, max) {
      forall shift: nat | shift <= 62
        ensures ServesAt(base, max, shift)
      {
        ServedWhenExact(base, max, shift);
      }
    }
    if forall shift: nat | shift <= 62 :: ServesAt(base, max, shift) {
      forall attempt: int64, jitter: int64 | attempt >= 1 && 0 <= jitter < base
        ensures ExactAt(attempt, base, max, jitter)
      {
        ExactWhenServed(attempt, base, max, jitter);
      }
    }
  }

  /** The configured range in which the code keeps its promise: the overflow it
      does not detect leaves a nonzero multiple of 2^shift, still at least max. */
  lemma BackoffIsExact(attempt: int64, base: int64, max: int64, jitter: int64)
    requires attempt >= 1
    requires 0 < base <= max && base * max <= TWO63
    requires 0 <= jitter < base
    ensures ComputeBackoff(attempt, base, max, jitter) == Promised(attempt, base, max, jitter)
  {
    BackoffIsExactJustWhen(attempt, base, max, jitter);
    if attempt <= 63 {
      if base * Pow2(attempt - 1) < TWO63 {
        NoJitterOverflow(base, max, attempt - 1);
      } else {
        var _ := WrappedReachesMax(base, max, attempt - 1);
      }
    }
  }

  /** The validated configuration alone (0 < base <= max) is not enough. */
  lemma ValidConfigMayWrap()
    ensures var big: int64 := TWO63 - 1;
            ComputeBackoff(1, big, big, 1) == -TWO63 && Promised(1, big, big, 1) == big
  {
    assert Pow2(0) == 1;
  }
}
