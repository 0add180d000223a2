/**
 How long a failed room waits before it is tried again.
 */
module Backoff {

  const BASE_SECS: int := 15
  const CAP_SECS: int := 600

  /** 2 to the power `n`, as the shift computes it. */
  function Shift(n: nat): (r: int)
    ensures r >= 1
  {
    if n == 0 then 1 else 2 * Shift(n - 1)
  }

  /** The unjittered wait: 15 seconds doubling per failure, capped at ten minutes. */
  function BaseDelay(failures: int): int {
    var exponent := (if failures < 1 then 1 else if failures > 8 then 8 else failures) - 1;
    var base := BASE_SECS * Shift(exponent);
    if base <= CAP_SECS then base else CAP_SECS
  }

  /** The wait for a room whose id ends in byte `last`: within a fifth of the base, fixed per room. */
  function RetryDelay(failures: int, last: nat): int {
    var base := BaseDelay(failures);
    var spread := base * 2 / 5;
    base + spread * last / 255 - spread / 2
  }

  lemma {:induction false} Bases(failures: int)
    ensures BaseDelay(failures) ==
            if failures <= 1 then 15 else if failures == 2 then 30 else if failures == 3 then 60
            else if failures == 4 then 120 else if failures == 5 then 240 else if failures == 6 then 480 else 600
  {
    assert Shift(1) == 2 && Shift(2) == 4 && Shift(3) == 8 && Shift(4) == 16;
    assert Shift(5) == 32 && Shift(6) == 64 && Shift(7) == 128;
  }

  /** A full byte moves the wait by exactly the spread; every byte keeps it inside. */
  lemma {:induction false} JitterInside(spread: nat, last: nat)
    requires last <= 255
    ensures 0 <= spread * last / 255 <= spread
  {
    assert spread * last <= spread * 255;
  }

  lemma {:induction false} JitterGrows(small: nat, large: nat, last: nat)
    requires small <= large
    ensures small * last / 255 <= large * last / 255
  {
    assert small * last <= large * last;
  }

  /** 15 seconds doubling with each failure, and no more than ten minutes. */
  function Doubled(failures: int): int
    decreases failures
  {
    if failures <= 1 then 15 else if failures > 6 then 600 else 2 * Doubled(failures - 1)
  }

  lemma {:induction false} DoubledIsBase(failures: int)
    ensures Doubled(failures) == BaseDelay(failures)
  {
    Bases(failures);
    if 1 < failures <= 6 {
      DoubledIsBase(failures - 1);
      Bases(failures - 1);
    }
  }

  lemma {:induction false} WholePart(p: nat)
    ensures 255 * (p / 255) <= p < 255 * (p / 255) + 255
  {
  }

  lemma {:induction false} SpreadTimes(spread: int, base: int, last: int)
    requires 5 * spread == 2 * base
    ensures 2 * base * last == 5 * (spread * last)
  {
    assert (2 * base) * last == (5 * spread) * last;
  }

  lemma {:induction false} SpreadIsEven(failures: int)
    ensures var base := BaseDelay(failures);
            var spread := base * 2 / 5;
            base > 0 && 5 * spread == 2 * base && 2 * (spread / 2) == spread
  {
    Bases(failures);
  }

  /**
   Exactly how long a room waits: from a fifth under the doubled wait to a fifth over it, in proportion to the last
   byte of its id, down to whole seconds.
   */
  lemma {:induction false} DelayInterpolates(failures: int, last: nat)
    requires last <= 255
    ensures var base, delay := Doubled(failures), RetryDelay(failures, last);
            255 * (5 * delay - 4 * base) <= 2 * base * last < 255 * (5 * delay - 4 * base + 5)
  {
    var base := BaseDelay(failures);
    var spread := base * 2 / 5;
    DoubledIsBase(failures);
    SpreadIsEven(failures);
    SpreadTimes(spread, base, last);
    Positive(spread, last);
    var p := spread * last;
    WholePart(p);
    assert 5 * RetryDelay(failures, last) == 4 * base + 5 * (p / 255);
  }

  lemma {:induction false} Positive(a: nat, b: nat)
    ensures a * b >= 0
  {
  }

  /** Every wait lies between 12 seconds and 12 minutes. */
  lemma {:induction false} DelayBounds(failures: int, last: nat)
    requires last <= 255
    ensures 12 <= RetryDelay(failures, last) <= 720
    ensures failures >= 7 ==> 480 <= RetryDelay(failures, last)
  {
    Bases(failures);
    JitterInside(BaseDelay(failures) * 2 / 5, last);
  }

  /** More failures never shorten the wait, and from the seventh on it no longer changes. */
  lemma {:induction false} DelayGrows(fewer: int, more: int, last: nat)
    requires last <= 255 && fewer <= more
    ensures RetryDelay(fewer, last) <= RetryDelay(more, last)
    ensures fewer >= 7 ==> RetryDelay(fewer, last) == RetryDelay(more, last)
  {
    Bases(fewer);
    Bases(more);
    var small, large := BaseDelay(fewer) * 2 / 5, BaseDelay(more) * 2 / 5;
    JitterGrows(small, large, last);
    JitterInside(small, last);
    JitterInside(large, last);
  }
}
