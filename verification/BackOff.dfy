/**
 * Exponential back-off, computed as the code does: two to the power of the attempt in floating
 * point, truncated to a 64-bit integer, times a second in wrapping 64-bit arithmetic.
 */
module BackOff {
  import opened Domain

  const TWO_63 := 0x8000_0000_0000_0000
  const TWO_64 := 0x1_0000_0000_0000_0000

  function Wrap64(n: int): int64 {
    (n + TWO_63) % TWO_64 - TWO_63
  }

  function Pow2(n: nat): (p: nat)
    ensures p > 0
  {
    if n == 0 then 1 else 2 * Pow2(n - 1)
  }

  /**
   * The floating-point power, truncated. Powers up to 2^62 are exact; what a larger one converts
   * to depends on the machine, and is left open.
   */
  function Truncated(attempt: int, tooLarge: int64): int {
    if attempt < 0 then 0 else if attempt <= 62 then Pow2(attempt) else tooLarge
  }

  function Clamp(min: int, max: int, n: int): int {
    if n < min then min else if n > max then max else n
  }

  function BackOff(min: int64, max: int64, attempt: int, tooLarge: int64): int64 {
    Clamp(min, max, Wrap64(Truncated(attempt, tooLarge) * SECOND))
  }

  lemma {:induction false} Pow2Sum(m: nat, n: nat)
    ensures Pow2(m + n) == Pow2(m) * Pow2(n)
  {
    if m == 0 {
    } else {
      Pow2Sum(m - 1, n);
      assert Pow2(m + n) == 2 * Pow2(m - 1 + n);
      assert 2 * (Pow2(m - 1) * Pow2(n)) == (2 * Pow2(m - 1)) * Pow2(n);
    }
  }

  lemma {:induction false} Pow2Monotone(m: nat, n: nat)
    requires m <= n
    ensures Pow2(m) <= Pow2(n)
  {
    if m < n { Pow2Monotone(m, n - 1); }
  }

  lemma SomePowers()
    ensures Pow2(6) == 64
    ensures Pow2(33) == 0x2_0000_0000 && Pow2(34) == 0x4_0000_0000
  {
    assert Pow2(2) == 4 && Pow2(4) == 16 && Pow2(6) == 64 && Pow2(8) == 256;
    Pow2Sum(8, 8);
    Pow2Sum(16, 16);
    assert Pow2(33) == 2 * Pow2(32);
  }

  /** Up to attempt 33 nothing wraps: the back-off is the clamped power of two, in seconds. */
  lemma ExactUpTo33(min: int64, max: int64, attempt: nat, tooLarge: int64)
    requires attempt <= 33
    ensures BackOff(min, max, attempt, tooLarge) == Clamp(min, max, Pow2(attempt) * SECOND)
    ensures var wait := Pow2(attempt) * 1_000_000_000;
      BackOff(min, max, attempt, tooLarge) == if wait < min then min else if wait > max then max else wait
  {
    SomePowers();
    Pow2Monotone(attempt, 33);
    NothingWraps(Pow2(attempt) * SECOND);
    hide Wrap64;
  }

  lemma NothingWraps(n: nat)
    requires n < TWO_63
    ensures Wrap64(n) == n
  {}

  /** What the product wraps to, from attempt 34 on, in nanoseconds. */
  function Wrapped(attempt: nat): int {
    match attempt
    case 34 => -1266874889709551616
    case 35 => -2533749779419103232
    case 36 => -5067499558838206464
    case 37 => 8311744956033138688
    case 38 => -1823254161643274240
    case 39 => -3646508323286548480
    case 40 => -7293016646573096960
    case 41 => 3860710780563357696
    case 42 => 7721421561126715392
    case 43 => -3003900951456120832
    case 44 => -6007801902912241664
    case 45 => 6431140267885068288
    case 46 => -5584463537939415040
    case 47 => 7277816997830721536
    case 48 => -3891110078048108544
    case 49 => -7782220156096217088
    case 50 => 2882303761517117440
    case 51 => 5764607523034234880
    case 52 => -6917529027641081856
    case 53 => 4611686018427387904
    case 54 => -9223372036854775808
    case _ => 0
  }

  lemma WholeWrapsVanish(x: int, k: int)
    ensures (x + k * TWO_64) % TWO_64 == x % TWO_64
  {
    assert (x + k * TWO_64) / TWO_64 == x / TWO_64 + k;
  }

  lemma WrapDoubles(n: int)
    ensures Wrap64(2 * n) == Wrap64(2 * Wrap64(n))
  {
    var k := (n + TWO_63) / TWO_64;
    var m := n - k * TWO_64;
    assert Wrap64(n) == m;
    assert 2 * n + TWO_63 == (2 * m + TWO_63) + (2 * k) * TWO_64;
    WholeWrapsVanish(2 * m + TWO_63, 2 * k);
  }

  lemma WrapOnce(v: int64)
    ensures Wrap64(2 * v) == if 2 * v >= TWO_63 then 2 * v - TWO_64 else if 2 * v < -TWO_63 then 2 * v + TWO_64 else 2 * v
  {}

  lemma TableDoubles(attempt: nat)
    requires 35 <= attempt <= 62
    ensures var v := 2 * Wrapped(attempt - 1);
      Wrapped(attempt) == if v >= TWO_63 then v - TWO_64 else if v < -TWO_63 then v + TWO_64 else v
  {}

  lemma TableFits(attempt: nat)
    ensures -TWO_63 <= Wrapped(attempt) < TWO_63
  {}

  lemma {:induction false} WrapsAsListed(attempt: nat)
    requires 34 <= attempt <= 62
    ensures Wrap64(Pow2(attempt) * SECOND) == Wrapped(attempt)
  {
    if attempt == 34 {
      SomePowers();
    } else {
      assert Pow2(attempt) * SECOND == 2 * (Pow2(attempt - 1) * SECOND);
      hide Pow2, Wrap64, Wrapped;
      WrapsAsListed(attempt - 1);
      WrapDoubles(Pow2(attempt - 1) * SECOND);
      TableFits(attempt - 1);
      TableDoubles(attempt);
      WrapOnce(Wrapped(attempt - 1));
    }
  }

  /**
   * As long as the exponent converts, the back-off is right exactly up to attempt 33, with equal
   * bounds, or with a maximum no greater than the listed wrapped product.
   */
  lemma ExactlyWhenWrong(min: int64, max: int64, attempt: nat, tooLarge: int64)
    requires min <= max && attempt <= 62
    ensures BackOff(min, max, attempt, tooLarge) == Clamp(min, max, Pow2(attempt) * SECOND)
      <==> attempt <= 33 || min == max || max <= Wrapped(attempt)
  {
    if attempt <= 33 {
      ExactUpTo33(min, max, attempt, tooLarge);
    } else {
      SomePowers();
      Pow2Monotone(34, attempt);
      WrapsAsListed(attempt);
      hide Wrapped, Wrap64, Pow2;
    }
  }

  /** Attempts above 33 whose product happens to wrap to a long wait. */
  predicate WrapsLong(attempt: nat) {
    attempt == 37 || attempt == 41 || attempt == 42 || attempt == 45 || attempt == 47 || attempt == 50 || attempt == 51
    || attempt == 53
  }

  const LONG := 2_882_303_761_517_117_440

  lemma LongOrNothing(attempt: nat)
    requires attempt >= 34
    ensures if WrapsLong(attempt) then Wrapped(attempt) >= LONG else Wrapped(attempt) <= 0
  {}

  /** With any maximum up to ninety-one years, the attempts that wait as long as they should. */
  lemma RightAttempts(min: int64, max: int64, attempt: nat, tooLarge: int64)
    requires 0 <= min < max <= LONG && attempt <= 62
    ensures BackOff(min, max, attempt, tooLarge) == Clamp(min, max, Pow2(attempt) * SECOND)
      <==> attempt <= 33 || WrapsLong(attempt)
  {
    ExactlyWhenWrong(min, max, attempt, tooLarge);
    hide BackOff, Pow2, WrapsLong, Wrapped;
    if attempt >= 34 { LongOrNothing(attempt); }
  }

  /** The first wrong attempt: 2^34 seconds wrap to a negative duration, so the wait is the minimum. */
  lemma WrapsAt34(min: int64, max: int64, tooLarge: int64)
    requires 0 <= min < max
    ensures BackOff(min, max, 34, tooLarge) == min
    ensures Clamp(min, max, Pow2(34) * SECOND) == max
  {
    SomePowers();
  }

  /** From attempt 55 to 62 the product is a multiple of 2^64, so again the wait is the minimum. */
  lemma WrapsToZeroFrom55(min: int64, max: int64, attempt: nat, tooLarge: int64)
    requires 55 <= attempt <= 62 && 0 <= min <= max
    ensures BackOff(min, max, attempt, tooLarge) == min
  {
    hide Wrap64, Pow2;
    var rest := Pow2(attempt - 55);
    Pow2Sum(55, attempt - 55);
    Pow2Of55();
    assert Pow2(attempt) * SECOND == (1953125 * rest) * TWO_64;
    MultipleWraps(1953125 * rest);
  }

  lemma Pow2Of55()
    ensures Pow2(55) * SECOND == 1953125 * TWO_64
  {
    SomePowers();
    assert Pow2(3) == 8;
    hide Pow2;
    Pow2Sum(3, 6);
    Pow2Sum(9, 6);
    Pow2Sum(15, 6);
    Pow2Sum(21, 34);
  }

  lemma MultipleWraps(k: nat)
    ensures Wrap64(k * TWO_64) == 0
  {
    assert (k * TWO_64 + TWO_63) % TWO_64 == TWO_63;
  }

  /** Whatever wraps or overflows, the wait stays within the bounds. */
  lemma AlwaysWithinBounds(min: int64, max: int64, attempt: int, tooLarge: int64)
    requires min <= max
    ensures min <= BackOff(min, max, attempt, tooLarge) <= max
  {}

  lemma MonotoneUpTo33(min: int64, max: int64, a: nat, b: nat, tooLarge: int64)
    requires min <= max && a <= b <= 33
    ensures BackOff(min, max, a, tooLarge) <= BackOff(min, max, b, tooLarge)
  {
    ExactUpTo33(min, max, a, tooLarge);
    ExactUpTo33(min, max, b, tooLarge);
    Pow2Monotone(a, b);
  }

  // ---------------------------------------------------------------- total waits

  /** The waits of `n` failed attempts counted from `first`, added up. */
  function TotalWait(min: int64, max: int64, first: nat, n: nat, tooLarge: int64): int {
    if n == 0 then 0
    else TotalWait(min, max, first, n - 1, tooLarge) + BackOff(min, max, first + n - 1, tooLarge)
  }

  /** The HTTP client counts its attempts from one: unclamped, n failures wait 2^(n+1) - 2 seconds. */
  lemma {:induction false} ClientTotal(min: int64, max: int64, n: nat, tooLarge: int64)
    requires n <= 33 && min <= 2 * SECOND && Pow2(n) * SECOND <= max
    ensures TotalWait(min, max, 1, n, tooLarge) == (Pow2(n + 1) - 2) * SECOND
  {
    if n > 0 {
      Pow2Monotone(n - 1, n);
      Pow2Monotone(1, n);
      ClientTotal(min, max, n - 1, tooLarge);
      ExactUpTo33(min, max, n, tooLarge);
    } else {
      assert Pow2(1) == 2;
    }
  }

  /** The database connection counts from zero, between one second and sixty. */
  lemma {:induction false} DatabaseTotal(n: nat, tooLarge: int64)
    requires n <= 34
    ensures TotalWait(SECOND, 60 * SECOND, 0, n, tooLarge)
         == if n <= 6 then (Pow2(n) - 1) * SECOND else (63 + 60 * (n - 6)) * SECOND
  {
    if n > 0 {
      DatabaseTotal(n - 1, tooLarge);
      DatabaseWait(n - 1, tooLarge);
      if n == 7 { SomePowers(); }
    }
  }

  lemma DatabaseWait(attempt: nat, tooLarge: int64)
    requires attempt <= 33
    ensures BackOff(SECOND, 60 * SECOND, attempt, tooLarge) == if attempt < 6 then Pow2(attempt) * SECOND else 60 * SECOND
  {
    ExactUpTo33(SECOND, 60 * SECOND, attempt, tooLarge);
    hide BackOff;
    SomePowers();
    if attempt < 6 {
      Pow2Monotone(attempt, 5);
      assert Pow2(5) == 32 by { assert Pow2(6) == 2 * Pow2(5); }
    } else {
      Pow2Monotone(6, attempt);
    }
  }
}
