/** The time interval a controller collects over. */
module Collecting {
  import opened Wrappers
  import opened Handlers

  const U64 := 0x1_0000_0000_0000_0000

  datatype Interval = Interval(start: nat, duration: nat)

  /** Unsigned 64-bit subtraction as a release build performs it; a debug build panics where this
      wraps. */
  function WrappingSub(a: nat, b: nat): (r: nat)
    requires a < U64 && b < U64
  {
    if a >= b then a - b else a + U64 - b
  }

  /** `Interval::new` refuses an interval whose end is not a 64-bit time. */
  function NewInterval(start: nat, duration: nat): (r: Result<Interval>)
  {
    if start + duration < U64 then Ok(Interval(start, duration)) else Err
  }

  function CollectInterval(now: nat): (r: Result<Interval>)
    requires now < U64
  {
    var rounded := now / TIME_PRECISION * TIME_PRECISION;
    NewInterval(WrappingSub(rounded, TIME_PRECISION * 5), TIME_PRECISION * 15)
  }

  /** An interval is obtained exactly when five periods have passed since the epoch and its end
      still fits in 64 bits; it is aligned at both ends and covers everything from five periods
      before now to nine periods after, and no more than ten; it is fifteen periods long, and starts
      less than one period before five periods ago. */
  lemma CollectWindow(now: nat)
    requires now < U64
    ensures CollectInterval(now).Ok?
       <==> now >= 5 * TIME_PRECISION && now - now % TIME_PRECISION + 10 * TIME_PRECISION < U64
    ensures CollectInterval(now).Ok? ==>
              var i := CollectInterval(now).value;
              && i.start % TIME_PRECISION == 0 && (i.start + i.duration) % TIME_PRECISION == 0
              && i.duration == 15 * TIME_PRECISION
              && i.start <= now - 5 * TIME_PRECISION < i.start + TIME_PRECISION
              && now + 9 * TIME_PRECISION < i.start + i.duration <= now + 10 * TIME_PRECISION
  {
    var q := now / TIME_PRECISION;
    assert now == q * TIME_PRECISION + now % TIME_PRECISION;
    if q >= 5 {
      assert (q * TIME_PRECISION - 5 * TIME_PRECISION) == (q - 5) * TIME_PRECISION;
      assert (q - 5) * TIME_PRECISION + 15 * TIME_PRECISION == (q + 10) * TIME_PRECISION;
    }
  }
}
