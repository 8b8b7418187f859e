/** Consumer.retryDelay: exponential backoff in 64-bit nanoseconds. */
module Backoff {

  /** Go's time.Duration; the verifier shows that no operation on it overflows. */
  newtype Duration = x: int | -0x8000_0000_0000_0000 <= x < 0x8000_0000_0000_0000

  function Pow2(n: nat): (r: nat)
    ensures r >= 1
  {
    if n == 0 then 1 else 2 * Pow2(n - 1)
  }

  /** The delay before retry `n`, without a loop. */
  function Delay(base: int, max: int, n: int): (r: int)
    requires base > 0 && max > 0
    ensures 0 < r <= max
  {
    if n <= 0 then if base < max then base else max
    else if base * Pow2(n) >= 2 * (max / 2) then max else base * Pow2(n)
  }

  lemma Doubles(base: int, n: nat)
    ensures base * Pow2(n + 1) == 2 * (base * Pow2(n))
  {
  }

  lemma {:induction false} Grows(base: int, m: nat, n: nat)
    requires base > 0 && m <= n
    ensures base * Pow2(m) <= base * Pow2(n)
  {
    if m < n {
      Grows(base, m, n - 1);
      Doubles(base, n - 1);
      assert base * Pow2(n - 1) >= 0;
    }
  }

  method RetryDelay(base: Duration, max: Duration, retryCount: int) returns (delay: Duration)
    requires base > 0 && max > 0
    ensures delay as int == Delay(base as int, max as int, retryCount)
    ensures retryCount <= 0 ==> delay == if base < max then base else max
  {
    delay := base;
    var i := 0;
    while i < retryCount
      invariant 0 <= i && (i <= retryCount || i == 0)
      invariant delay > 0 && delay as int == base as int * Pow2(i)
      invariant i > 0 ==> delay as int < 2 * (max as int / 2)
    {
      Doubles(base as int, i);
      if delay >= max / 2 {
        Grows(base as int, i + 1, retryCount);
        return max;
      }
      delay := delay * 2;
      i := i + 1;
    }
    if delay > max { return max; }
  }

  /** Delays never get shorter as retries accumulate. */
  lemma DelayIsMonotone(base: int, max: int, m: int, n: int)
    requires base > 0 && max > 0 && m <= n
    ensures Delay(base, max, m) <= Delay(base, max, n)
  {
    if 0 < n {
      Grows(base, if m <= 0 then 0 else m, n);
      assert Pow2(0) == 1;
    }
  }

  /** The delay is min(base * 2^n, max), except that an odd maximum also absorbs the value just below it. */
  lemma DelayIsCappedPower(base: int, max: int, n: nat)
    requires base > 0 && max > 0
    ensures var power := base * Pow2(n);
            Delay(base, max, n) == (if power < max then power else max)
            <==> !(n > 0 && max % 2 == 1 && power == max - 1)
    ensures n > 0 && max % 2 == 1 && base * Pow2(n) == max - 1 ==> Delay(base, max, n) == max
  {
    if n > 0 { Doubles(base, n - 1); }
  }

  /** With enough retries every delay is the maximum. */
  lemma {:induction false} PowerExceeds(n: nat)
    ensures Pow2(n) > n
  {
    if n > 0 { PowerExceeds(n - 1); }
  }

  lemma DelayReachesMaximum(base: int, max: int, n: nat)
    requires base > 0 && max > 0 && n >= max
    ensures Delay(base, max, n) == max
  {
    PowerExceeds(n);
    TimesIsNotLess(base, Pow2(n));
  }

  lemma TimesIsNotLess(a: int, b: nat)
    requires a > 0
    ensures a * b >= b
  {
    assert a * b == b + (a - 1) * b;
  }
}
