/** Wall-clock times as whole seconds in the configured time zone. Daylight
  * saving changes are not modelled: every day has 86400 seconds. */
module Clock {
  const MINUTE: int := 60
  const HOUR: int := 3600
  const DAY: int := 86400

  /** `t.replace(...)` that zeroes every field below `unit`. */
  function Truncate(t: int, unit: int): (r: int)
    requires unit == MINUTE || unit == HOUR || unit == DAY
    ensures r % unit == 0 && r <= t < r + unit
  {
    var r := t - t % unit;
    FloorMultiple(t, unit);
    r
  }

  lemma FloorMultiple(t: int, unit: int)
    requires unit == MINUTE || unit == HOUR || unit == DAY
    ensures (t - t % unit) % unit == 0 && 0 <= t % unit < unit
  {
    if unit == 60 {
      FloorMinute(t);
    } else if unit == 3600 {
      FloorHour(t);
    } else {
      FloorDay(t);
    }
  }

  lemma FloorMinute(t: int)
    ensures (t - t % 60) % 60 == 0 && 0 <= t % 60 < 60
  {
  }

  lemma FloorHour(t: int)
    ensures (t - t % 3600) % 3600 == 0 && 0 <= t % 3600 < 3600
  {
  }

  lemma FloorDay(t: int)
    ensures (t - t % 86400) % 86400 == 0 && 0 <= t % 86400 < 86400
  {
  }

  /** The calendar date of `t`, as a day number. */
  function Date(t: int): int
  {
    t / DAY
  }

  function HourOfDay(t: int): (r: int)
    ensures 0 <= r < 24
  {
    (t % DAY) / HOUR
  }

  function MinuteOfHour(t: int): (r: int)
    ensures 0 <= r < 60
  {
    (t % HOUR) / MINUTE
  }

  /** `int(a / b)` for a positive divisor: the quotient truncated toward zero. */
  function TruncDiv(a: int, b: int): (r: int)
    requires b > 0
    ensures a >= 0 ==> 0 <= r && r * b <= a < r * b + b
    ensures a < 0 ==> r <= 0 && a <= r * b < a + b
  {
    if a >= 0 then
      DivisionBounds(a, b);
      a / b
    else
      DivisionBounds(-a, b);
      NegateProduct(-a / b, b);
      -((-a) / b)
  }

  /** Euclidean division of a natural number by a positive divisor. */
  lemma DivisionBounds(a: int, b: int)
    requires a >= 0 && b > 0
    ensures 0 <= a / b && (a / b) * b <= a < (a / b) * b + b
  {
  }

  lemma NegateProduct(q: int, b: int)
    ensures (-q) * b == -(q * b)
  {
  }
}
