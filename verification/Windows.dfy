/** Fixed windows of the rate limiter: the unit table, the int64 arithmetic of
    `time.Duration`, and truncation to a window start counted from 1 January of year 1. */
module Windows {

  datatype LimitUnit = Second | Minute | Hour | Day

  function UnitToSeconds(unit: LimitUnit): int {
    match unit
    case Second => 1
    case Minute => 60
    case Hour => 3600
    case Day => 86400
  }

  const NANOS := 1_000_000_000
  const TWO63 := 0x8000_0000_0000_0000
  const TWO64 := 0x1_0000_0000_0000_0000

  /** Seconds from 1 January of year 1 to the Unix epoch. */
  const UNIX_TO_YEAR_ONE := 62135596800

  /** Two's complement wrap-around of an int64 result. */
  function Wrap64(x: int): int {
    (x + TWO63) % TWO64 - TWO63
  }

  predicate FitsInt64(x: int) {
    -TWO63 <= x < TWO63
  }

  /** The window size in nanoseconds, as the two int64 multiplications compute it. */
  function SizeNanos(period: int, unit: LimitUnit): int {
    Wrap64(Wrap64(period * UnitToSeconds(unit)) * NANOS)
  }

  /** `time.Unix(now, 0).Truncate(size).Unix()`: a size that is not positive leaves the time
      unchanged, otherwise time since year 1 is rounded down to a multiple of the size. */
  function WindowStart(now: int, period: int, unit: LimitUnit): int {
    var d := SizeNanos(period, unit);
    if d <= 0 then now
    else
      var abs := (now + UNIX_TO_YEAR_ONE) * NANOS;
      (abs - abs % d) / NANOS - UNIX_TO_YEAR_ONE
  }

  lemma WrapFits(x: int)
    ensures FitsInt64(Wrap64(x))
    ensures Wrap64(x) == x <==> FitsInt64(x)
  {
  }

  /** The nanosecond product is exact if and only if the true product fits in an int64. */
  lemma SizeExactIff(period: int, unit: LimitUnit)
    ensures SizeNanos(period, unit) == period * UnitToSeconds(unit) * NANOS
            <==> FitsInt64(period * UnitToSeconds(unit) * NANOS)
  {
    var secs := period * UnitToSeconds(unit);
    WrapFits(secs);
    WrapFits(Wrap64(secs) * NANOS);
  }

  /** Truncating nanoseconds by a whole number of seconds is truncating seconds. */
  lemma TruncateSeconds(a: int, size: int)
    requires size > 0
    ensures (a * NANOS) % (size * NANOS) == (a % size) * NANOS
  {
    var q, r := a / size, a % size;
    assert a * NANOS == q * (size * NANOS) + r * NANOS by {
      assert a == q * size + r;
    }
    DivModUnique(a * NANOS, size * NANOS, q, r * NANOS);
  }

  lemma DivModUnique(x: int, d: int, q: int, r: int)
    requires d > 0 && x == q * d + r && 0 <= r < d
    ensures x / d == q && x % d == r
  {
    var e := x / d - q;
    assert x == (x / d) * d + x % d;
    assert e * d == r - x % d by {
      assert e * d == (x / d) * d - q * d;
    }
    MultipleBounds(e, d);
  }

  lemma MultipleBounds(e: int, d: int)
    requires d > 0
    ensures e >= 1 ==> e * d >= d
    ensures e <= -1 ==> e * d <= -d
  {
  }

  /** Rounding down to multiples of `size` is monotone, and a rounded value is reached by
      exactly the `size` numbers from it on. */
  lemma RoundDown(a: int, b: int, size: int)
    requires size > 0 && a <= b
    ensures var ra, rb := a - a % size, b - b % size;
            && ra <= a < ra + size
            && ra <= rb
            && (ra == rb <==> b < ra + size)
            && (ra < rb ==> ra + size <= rb)
  {
    var e := b / size - a / size;
    assert (b - b % size) - (a - a % size) == e * size by {
      assert a == (a / size) * size + a % size && b == (b / size) * size + b % size;
      assert e * size == (b / size) * size - (a / size) * size;
    }
    MultipleBounds(e, size);
  }

  /** A size in seconds whose nanosecond count fits in an int64. */
  predicate GoodSize(period: int, unit: LimitUnit) {
    0 < period && FitsInt64(period * UnitToSeconds(unit) * NANOS)
  }

  lemma WindowStartSeconds(now: int, period: int, unit: LimitUnit)
    requires GoodSize(period, unit)
    ensures var size := period * UnitToSeconds(unit);
            size > 0 && WindowStart(now, period, unit) == now - (now + UNIX_TO_YEAR_ONE) % size
  {
    var size := period * UnitToSeconds(unit);
    SizeExactIff(period, unit);
    assert size > 0;
    var a := now + UNIX_TO_YEAR_ONE;
    TruncateSeconds(a, size);
    assert SizeNanos(period, unit) == size * NANOS > 0;
    assert a * NANOS - (a % size) * NANOS == (a - a % size) * NANOS;
  }

  /** Windows partition time: a window contains its sample, and two samples have the same
      start exactly when the later one falls inside the window of the earlier one. */
  lemma WindowsPartition(t1: int, t2: int, period: int, unit: LimitUnit)
    requires GoodSize(period, unit)
    requires t1 <= t2
    ensures var size := period * UnitToSeconds(unit);
            var w1, w2 := WindowStart(t1, period, unit), WindowStart(t2, period, unit);
            && w1 <= t1 < w1 + size
            && w1 <= w2
            && (w1 == w2 <==> t2 < w1 + size)
            && (w1 < w2 ==> w1 + size <= w2)
  {
    var size := period * UnitToSeconds(unit);
    WindowStartSeconds(t1, period, unit);
    WindowStartSeconds(t2, period, unit);
    RoundDown(t1 + UNIX_TO_YEAR_ONE, t2 + UNIX_TO_YEAR_ONE, size);
  }

  /** Window starts are the multiples of the size in Unix time for every sample if and only if
      the size divides the offset between year 1 and the Unix epoch. */
  lemma UnixAlignedIff(period: int, unit: LimitUnit)
    requires GoodSize(period, unit)
    ensures var size := period * UnitToSeconds(unit);
            size > 0 &&
            ((forall now :: WindowStart(now, period, unit) == now - now % size)
             <==> UNIX_TO_YEAR_ONE % size == 0)
  {
    var size := period * UnitToSeconds(unit);
    WindowStartSeconds(0, period, unit);
    if UNIX_TO_YEAR_ONE % size == 0 {
      forall now ensures WindowStart(now, period, unit) == now - now % size {
        WindowStartSeconds(now, period, unit);
        ShiftMod(now, UNIX_TO_YEAR_ONE, size);
      }
    } else {
      assert WindowStart(0, period, unit) != 0 - 0 % size;
    }
  }

  lemma ShiftMod(x: int, k: int, d: int)
    requires d > 0 && k % d == 0
    ensures (x + k) % d == x % d
  {
    assert x + k == (x / d + k / d) * d + x % d by {
      assert x == (x / d) * d + x % d && k == (k / d) * d;
    }
    DivModUnique(x + k, d, x / d + k / d, x % d);
  }

  /** Every size that divides a day is aligned with Unix time, because the offset is
      719162 days. */
  lemma DayDivisorsAligned(now: int, period: int, unit: LimitUnit)
    requires GoodSize(period, unit)
    requires 86400 % (period * UnitToSeconds(unit)) == 0
    ensures WindowStart(now, period, unit) == now - now % (period * UnitToSeconds(unit))
  {
    var size := period * UnitToSeconds(unit);
    var k := 86400 / size;
    assert UNIX_TO_YEAR_ONE == 719162 * (k * size) == (719162 * k) * size + 0;
    DivModUnique(UNIX_TO_YEAR_ONE, size, 719162 * k, 0);
    UnixAlignedIff(period, unit);
  }
}
