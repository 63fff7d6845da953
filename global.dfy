/** The `clamp` helper of scripts/global.js, which every numeric setter of the editor goes through. */
module Global {
  import opened Wrappers

  /** `max = max || 0`: a missing upper bound (or one of 0) counts as 0. */
  function MaxOrZero(max: Option<int>): int {
    max.GetOr(0)
  }

  /** The smaller of the two bounds once `clamp` has put them in order. */
  function Lower(min: int, max: Option<int>): int {
    if min > MaxOrZero(max) then MaxOrZero(max) else min
  }

  /** The larger of the two bounds once `clamp` has put them in order. */
  function Upper(min: int, max: Option<int>): int {
    if min > MaxOrZero(max) then min else MaxOrZero(max)
  }

  /**
   * `clamp(number, min, max)`. `number == None` is an input that `parseFloat` turns into
   * `NaN`, and the result is then `None` (the `NaN` sentinel). The bounds are swapped when they
   * arrive reversed, so `Clamp(v, 10000, Some(100))` clamps into [100, 10000] and
   * `Clamp(v, m, None)` into [0, m] (or [m, 0] for a negative m).
   */
  function Clamp(number: Option<int>, min: int, max: Option<int>): (r: Option<int>)
    ensures r.Some? <==> number.Some?
    ensures r.Some? ==> Lower(min, max) <= r.value <= Upper(min, max)
    ensures r.Some? ==> r.value == number.value || r.value == min || r.value == MaxOrZero(max)
  {
    var hi := MaxOrZero(max);
    var (lo, up) := if min > hi then (hi, min) else (min, hi);
    match number
    case None => None
    case Some(n) =>
      if n <= lo then Some(lo)
      else if n >= up then Some(up)
      else Some(n)
  }

  /** The order in which the two bounds are passed does not matter. */
  lemma ClampSymmetric(number: Option<int>, a: int, b: int)
    ensures Clamp(number, a, Some(b)) == Clamp(number, b, Some(a))
  {
  }

  /** A missing upper bound is the same as an upper bound of 0: `clamp(v, m)` with m >= 0 clamps into [0, m]. */
  lemma ClampDefaultMax(number: Option<int>, m: int)
    ensures Clamp(number, m, None) == Clamp(number, m, Some(0))
    ensures m >= 0 ==> Lower(m, None) == 0 && Upper(m, None) == m
  {
  }

  /** A value strictly between the bounds comes back unchanged; one at or beyond a bound comes back as that bound. */
  lemma ClampPiecewise(n: int, min: int, max: Option<int>)
    ensures Lower(min, max) < n < Upper(min, max) ==> Clamp(Some(n), min, max) == Some(n)
    ensures n <= Lower(min, max) ==> Clamp(Some(n), min, max) == Some(Lower(min, max))
    ensures Lower(min, max) < n && n >= Upper(min, max) ==> Clamp(Some(n), min, max) == Some(Upper(min, max))
  {
  }

  /** A number already within the ordered bounds is returned as it is. */
  lemma ClampWithin(n: int, min: int, max: Option<int>)
    requires Lower(min, max) <= n <= Upper(min, max)
    ensures Clamp(Some(n), min, max) == Some(n)
  {
  }

  /** Clamping twice with the same bounds is clamping once. */
  lemma ClampIdempotent(number: Option<int>, min: int, max: Option<int>)
    ensures Clamp(Clamp(number, min, max), min, max) == Clamp(number, min, max)
  {
  }

  /** Clamping preserves order: a larger input never yields a smaller result. */
  lemma ClampMonotone(a: int, b: int, min: int, max: Option<int>)
    requires a <= b
    ensures Clamp(Some(a), min, max).value <= Clamp(Some(b), min, max).value
  {
  }

  /** Non-numeric input yields the `NaN` sentinel whatever the bounds. */
  lemma ClampNaN(min: int, max: Option<int>)
    ensures Clamp(None, min, max) == None
  {
  }
}
