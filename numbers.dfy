/** Numbers as the scanner receives them, the sanitizer that makes them usable,
    the integer conversion used by the scores, and the screening configuration. */
module Numbers {

  datatype Option<T> = None | Some(value: T)

  /** A value a Python float slot can hold: None, NaN, an infinity or a finite number. */
  datatype Raw = Null | NaN | Infinity(negative: bool) | Num(value: real)

  /** sanitize_float: missing, NaN and infinite values become 0.0, finite ones pass unchanged. */
  function Sanitize(x: Raw): (r: real)
    ensures x.Num? ==> r == x.value
    ensures r != 0.0 ==> x == Num(r)
  {
    match x
    case Num(v) => v
    case _ => 0.0
  }

  /** Sanitizing twice is the same as sanitizing once. */
  lemma SanitizeIdempotent(x: Raw)
    ensures Sanitize(Num(Sanitize(x))) == Sanitize(x)
  {
  }

  /** Python's int() on a float: truncation toward zero. */
  function Truncate(x: real): (n: int)
    ensures 0.0 <= x ==> 0 <= n && n as real <= x < n as real + 1.0
    ensures x < 0.0 ==> n <= 0 && n as real - 1.0 < x <= n as real
  {
    if x >= 0.0 then x.Floor else -((-x).Floor)
  }

  function Min(a: real, b: real): real { if b < a then b else a }

  function Max(a: real, b: real): real { if b > a then b else a }

  /** Clamp into [lo, hi], as min(hi, max(lo, x)). */
  function Clamp(x: real, lo: real, hi: real): (r: real)
    requires lo <= hi
    ensures lo <= r <= hi
    ensures lo <= x <= hi ==> r == x
    ensures x < lo ==> r == lo
    ensures x > hi ==> r == hi
  {
    Min(hi, Max(lo, x))
  }

  /** The four screening thresholds and the cache window, passed in as one immutable value. */
  datatype Config = Config(
    minGrossMargin: real,
    minRoic: real,
    maxDebtToEquity: real,
    minFcfYield: real,
    cacheDays: nat)

  /** The configuration the scanner ships with. */
  const Elite := Config(45.0, 25.0, 0.5, 5.0, 7)

  /** Revenue and invested capital at or below this are too small to give a ratio. */
  const MaterialityFloor: real := 1000000.0
}
