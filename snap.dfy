/**
 * The snap engine of scripts/diagram.js: `gridSnap` and `angleSnap` project a raw length or
 * angle onto the nearest multiple of the grid spacing or the snap angle. Raw values are stored;
 * these projections are applied when a value is read.
 */
module Snap {
  import opened Wrappers

  /** `x` is a whole multiple of `step`. */
  predicate IsMultiple(x: int, step: int)
    requires step > 0
  {
    x % step == 0
  }

  /** A nonzero multiple of a positive `step` is at least `step` away from 0. */
  lemma MultipleAwayFromZero(k: int, step: int)
    requires step > 0 && k != 0
    ensures k * step >= step || k * step <= -step
  {
    if k > 0 {
      assert (k - 1) * step >= 0;
    } else {
      assert (-k - 1) * step >= 0;
    }
  }

  /** Multiplying by a positive factor preserves order. */
  lemma MulMonotone(a: int, b: int, step: int)
    requires step > 0 && a <= b
    ensures a * step <= b * step
  {
    assert (b - a) * step >= 0;
  }

  /** The only multiple of `step` strictly between `-step` and `step` is 0. */
  lemma SmallMultipleIsZero(k: int, step: int)
    requires step > 0
    requires -step < k * step < step
    ensures k == 0
  {
    if k != 0 {
      MultipleAwayFromZero(k, step);
    }
  }

  /** A product with `step` is a multiple of `step`, and dividing it by `step` gives the factor back. */
  lemma ProductIsMultiple(k: int, step: int)
    requires step > 0
    ensures IsMultiple(k * step, step) && (k * step) / step == k
  {
    var q, m := (k * step) / step, (k * step) % step;
    assert k * step == q * step + m;
    assert (k - q) * step == m;
    SmallMultipleIsZero(k - q, step);
  }

  /** A multiple of `step` is `step` times its quotient. */
  lemma MultipleIsProduct(x: int, step: int)
    requires step > 0 && IsMultiple(x, step)
    ensures x == (x / step) * step
  {
  }

  /** The difference of two multiples of `step` is a multiple of `step`. */
  lemma MultipleDifference(a: int, b: int, step: int)
    requires step > 0 && IsMultiple(a, step) && IsMultiple(b, step)
    ensures IsMultiple(a - b, step)
  {
    MultipleIsProduct(a, step);
    MultipleIsProduct(b, step);
    assert a - b == (a / step - b / step) * step;
    ProductIsMultiple(a / step - b / step, step);
  }

  /**
   * `Math.round(value / step) * step` for a positive step: JavaScript's `Math.round` rounds
   * halves up, which over the integers is `floor((2 * value + step) / (2 * step))`. The result is
   * the multiple of `step` that lies in the half-open window (value - step/2, value + step/2], so
   * a value halfway between two multiples goes to the larger one.
   */
  function RoundToMultiple(value: int, step: int): (r: int)
    requires step > 0
    ensures IsMultiple(r, step)
    ensures -step <= 2 * (value - r) < step
    ensures value >= 0 ==> r >= 0
  {
    var q := (2 * value + step) / (2 * step);
    ProductIsMultiple(q, step);
    assert q * (2 * step) == 2 * (q * step);
    q * step
  }

  /** At most one multiple of `step` lies in the rounding window of `value`, so the window defines the rounding. */
  lemma {:induction false} RoundUnique(value: int, step: int, r: int)
    requires step > 0
    requires IsMultiple(r, step)
    requires -step <= 2 * (value - r) < step
    ensures r == RoundToMultiple(value, step)
  {
    var s := RoundToMultiple(value, step);
    MultipleIsProduct(r, step);
    MultipleIsProduct(s, step);
    var k := r / step - s / step;
    assert k * step == r - s;
    SmallMultipleIsZero(k, step);
  }

  /** Rounding a multiple of `step` leaves it alone. */
  lemma RoundIdempotent(value: int, step: int)
    requires step > 0
    ensures RoundToMultiple(RoundToMultiple(value, step), step) == RoundToMultiple(value, step)
  {
    var r := RoundToMultiple(value, step);
    RoundUnique(r, step, r);
  }

  /** A multiple of `step` rounds to itself. */
  lemma RoundOfMultiple(value: int, step: int)
    requires step > 0 && IsMultiple(value, step)
    ensures RoundToMultiple(value, step) == value
  {
    RoundUnique(value, step, value);
  }

  function Abs(x: int): int {
    if x < 0 then -x else x
  }

  /** No multiple of `step` is closer to `value` than its rounding. */
  lemma {:induction false} RoundNearest(value: int, step: int, k: int)
    ensures step > 0 ==> Abs(value - RoundToMultiple(value, step)) <= Abs(value - k * step)
  {
    if step > 0 {
      var r := RoundToMultiple(value, step);
      MultipleIsProduct(r, step);
      var q := r / step;
      if k != q {
        MultipleAwayFromZero(q - k, step);
        var m := (q - k) * step;
        assert value - k * step == (value - r) + m;
      }
    }
  }

  /** Rounding preserves order. */
  lemma {:induction false} RoundMonotone(a: int, b: int, step: int)
    requires step > 0 && a <= b
    ensures RoundToMultiple(a, step) <= RoundToMultiple(b, step)
  {
    var d := 2 * step;
    var qa, qb := (2 * a + step) / d, (2 * b + step) / d;
    if qa > qb {
      MulMonotone(qb + 1, qa, d);
      assert false;
    }
    MulMonotone(qa, qb, step);
  }

  /** Shifting by a multiple of `step` shifts the rounding by the same amount. */
  lemma RoundShift(value: int, step: int, shift: int)
    requires step > 0 && IsMultiple(shift, step)
    ensures RoundToMultiple(value + shift, step) == RoundToMultiple(value, step) + shift
  {
    var r := RoundToMultiple(value, step);
    MultipleIsProduct(r, step);
    MultipleIsProduct(shift, step);
    assert r + shift == (r / step + shift / step) * step;
    ProductIsMultiple(r / step + shift / step, step);
    RoundUnique(value + shift, step, r + shift);
  }

  /**
   * `Diagram.gridSnap(value)`: the identity when snapping to the grid is off; otherwise 0 for a
   * spacing that is not positive, and the nearest multiple of the spacing for a positive one.
   */
  function GridSnap(snapToGrid: bool, spacing: int, value: int): (r: int)
    ensures !snapToGrid ==> r == value
    ensures snapToGrid && spacing <= 0 ==> r == 0
    ensures snapToGrid && spacing > 0 ==> IsMultiple(r, spacing) && -spacing <= 2 * (value - r) < spacing
    ensures value >= 0 ==> r >= 0
  {
    if snapToGrid then
      (if spacing <= 0 then 0 else RoundToMultiple(value, spacing))
    else
      value
  }

  /** Snapping an already snapped value changes nothing. */
  lemma GridSnapIdempotent(snapToGrid: bool, spacing: int, value: int)
    ensures GridSnap(snapToGrid, spacing, GridSnap(snapToGrid, spacing, value)) == GridSnap(snapToGrid, spacing, value)
  {
    if snapToGrid && spacing > 0 {
      RoundIdempotent(value, spacing);
    }
  }

  /** The difference of two snapped values is already on the grid. */
  lemma GridSnapDifference(snapToGrid: bool, spacing: int, a: int, b: int)
    ensures var d := GridSnap(snapToGrid, spacing, a) - GridSnap(snapToGrid, spacing, b);
      GridSnap(snapToGrid, spacing, d) == d
  {
    if snapToGrid && spacing > 0 {
      var d := GridSnap(snapToGrid, spacing, a) - GridSnap(snapToGrid, spacing, b);
      MultipleDifference(GridSnap(snapToGrid, spacing, a), GridSnap(snapToGrid, spacing, b), spacing);
      RoundOfMultiple(d, spacing);
    }
  }

  /** With snapping on, no grid line is closer to the raw value than the snapped value. */
  lemma GridSnapNearest(spacing: int, value: int, k: int)
    requires spacing > 0
    ensures Abs(value - GridSnap(true, spacing, value)) <= Abs(value - k * spacing)
  {
    RoundNearest(value, spacing, k);
  }

  /** Snapping preserves order, so a raw length below a bound never snaps above the bound's snap. */
  lemma GridSnapMonotone(snapToGrid: bool, spacing: int, a: int, b: int)
    requires a <= b
    ensures GridSnap(snapToGrid, spacing, a) <= GridSnap(snapToGrid, spacing, b)
  {
    if snapToGrid && spacing > 0 {
      RoundMonotone(a, b, spacing);
    }
  }

  /**
   * `Diagram.angleSnap(value)` as the code evidently intends it: the identity when snapping to
   * the angle is off, otherwise the nearest multiple of the snap angle. No normalisation into a
   * range of degrees is done.
   */
  function AngleSnap(snapToAngle: bool, step: int, value: int): (r: int)
    requires step > 0
    ensures !snapToAngle ==> r == value
    ensures snapToAngle ==> IsMultiple(r, step) && -step <= 2 * (value - r) < step
  {
    if snapToAngle then RoundToMultiple(value, step) else value
  }

  /** Adding a multiple of the snap angle to a snapped angle moves the snapped angle by exactly that much. */
  lemma AngleSnapShift(snapToAngle: bool, step: int, angle: int, delta: int)
    requires step > 0 && IsMultiple(delta, step)
    ensures AngleSnap(snapToAngle, step, AngleSnap(snapToAngle, step, angle) + delta)
         == AngleSnap(snapToAngle, step, angle) + delta
  {
    if snapToAngle {
      var a := RoundToMultiple(angle, step);
      RoundShift(a, step, delta);
      RoundOfMultiple(a, step);
    }
  }

  /**
   * `Diagram.angleSnap(value)` as written: with snapping on, line 216 assigns to the constant
   * `angle`, which throws a TypeError before anything is returned.
   */
  function AngleSnapAsWritten(snapToAngle: bool, step: int, value: int): (r: Result<int, Thrown>)
    ensures r.Failure? <==> snapToAngle
    ensures r.Failure? ==> r.error == TypeError
    ensures r.Success? ==> r.value == value
  {
    if snapToAngle then Failure(TypeError) else Success(value)
  }

  /** Where the code as written returns at all, it agrees with the intended snap; it throws exactly where snapping is on. */
  lemma AngleSnapAsWrittenDiffers(step: int, value: int)
    requires step > 0
    ensures AngleSnapAsWritten(true, step, value) == Failure(TypeError)
    ensures AngleSnapAsWritten(false, step, value) == Success(AngleSnap(false, step, value))
  {
  }
}
