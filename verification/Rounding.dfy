/** `floor_step` and ceiling to a grid, over exact rationals. */
module Rounding {
  /** `k` whole steps. */
  function Grid(k: int, step: real): real {
    k as real * step
  }

  ghost predicate OnGrid(v: real, step: real) {
    exists k :: v == Grid(k, step)
  }

  /** (value / step).to_integral_value(ROUND_DOWN) * step: truncates toward zero. */
  function FloorStep(v: real, step: real): real
    requires step > 0.0
  {
    if v >= 0.0 then Grid((v / step).Floor, step) else Grid(-(-v / step).Floor, step)
  }

  /** to_integral_value(ROUND_CEILING) * step. */
  function CeilStep(v: real, step: real): real
    requires step > 0.0
  {
    Grid(-(-v / step).Floor, step)
  }

  lemma Scale(a: real, b: real, step: real)
    requires step > 0.0 && a <= b
    ensures a * step <= b * step
  {
  }

  lemma ScaleStrict(a: real, b: real, step: real)
    requires step > 0.0 && a < b
    ensures a * step < b * step
  {
  }

  lemma Distribute(a: real, step: real)
    ensures (a + 1.0) * step == a * step + step
  {
  }

  lemma FloorBelow(w: real, step: real)
    requires step > 0.0
    ensures Grid(w.Floor, step) <= w * step
  {
    var k := w.Floor as real;
    Scale(k, w, step);
    assert Grid(w.Floor, step) == k * step;
  }

  lemma FloorAbove(w: real, step: real)
    requires step > 0.0
    ensures w * step < Grid(w.Floor, step) + step
  {
    var k := w.Floor as real;
    var above := k + 1.0;
    ScaleStrict(w, above, step);
    Distribute(k, step);
    assert w * step < above * step;
    assert Grid(w.Floor, step) == k * step;
  }

  lemma GridFloor(v: real, step: real)
    requires step > 0.0
    ensures Grid((v / step).Floor, step) <= v < Grid((v / step).Floor, step) + step
    ensures v >= 0.0 ==> (v / step).Floor >= 0
  {
    var w := v / step;
    assert w * step == v;
    FloorBelow(w, step);
    FloorAbove(w, step);
    if v >= 0.0 && w < 0.0 {
      ScaleStrict(w, 0.0, step);
    }
  }

  lemma GridSign(k: int, step: real)
    requires step > 0.0
    ensures Grid(-k, step) == -Grid(k, step)
    ensures k >= 0 ==> Grid(k, step) >= 0.0
    ensures k >= 1 ==> Grid(k, step) >= step
  {
    if k >= 0 {
      Scale(0.0, k as real, step);
    }
    if k >= 1 {
      Scale(1.0, k as real, step);
    }
  }

  lemma GridMonotone(j: int, k: int, step: real)
    requires step > 0.0 && j <= k
    ensures Grid(j, step) <= Grid(k, step)
  {
    Scale(j as real, k as real, step);
  }

  /** Rounding down stays on the grid, loses less than one step, and keeps the sign. */
  lemma FloorStepBounds(v: real, step: real)
    requires step > 0.0
    ensures OnGrid(FloorStep(v, step), step)
    ensures v >= 0.0 ==> 0.0 <= FloorStep(v, step) <= v < FloorStep(v, step) + step
    ensures v < 0.0 ==> v <= FloorStep(v, step) <= 0.0 && FloorStep(v, step) - step < v
  {
    var w := if v >= 0.0 then v else -v;
    GridFloor(w, step);
    GridSign((w / step).Floor, step);
  }

  lemma Unscale(a: real, b: real, step: real)
    requires step > 0.0 && a * step <= b * step
    ensures a <= b
  {
    if a > b {
      ScaleStrict(b, a, step);
    }
  }

  /** No grid point lies strictly between the rounded value and the value. */
  lemma FloorStepLargest(v: real, step: real, k: int)
    requires step > 0.0 && v >= 0.0 && Grid(k, step) <= v
    ensures Grid(k, step) <= FloorStep(v, step)
  {
    var w := v / step;
    assert w * step == v;
    Unscale(k as real, w, step);
    GridMonotone(k, w.Floor, step);
  }

  lemma FloorStepExact(v: real, step: real)
    requires step > 0.0 && v >= 0.0 && OnGrid(v, step)
    ensures FloorStep(v, step) == v
  {
    var k :| v == Grid(k, step);
    FloorStepLargest(v, step, k);
    FloorStepBounds(v, step);
  }

  lemma CeilStepBounds(v: real, step: real)
    requires step > 0.0
    ensures OnGrid(CeilStep(v, step), step)
    ensures v <= CeilStep(v, step) < v + step
  {
    GridFloor(-v, step);
    GridSign((-v / step).Floor, step);
  }
}
