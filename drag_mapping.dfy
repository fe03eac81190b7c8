/**
 * The arithmetic of `MouseControls._handle_move`: how a mouse drag, measured
 * from the point where the button went down, is turned into a camera zoom, a
 * slice position or a pair of contrast limits.
 *
 * Pixel coordinates, ranges, zoom levels and contrast limits are `real`s, so
 * the linear scaling and the clamping are exact.
 */
module DragMapping {

  datatype Option<T> = None | Some(value: T)

  /** One entry of the viewer's `dims.range`: the lowest and highest world
      coordinate of an axis (the step size it also carries is not used here). */
  datatype Interval = Interval(lo: real, hi: real)

  /** Width of an axis range, `range[d][1] - range[d][0]`. */
  function Span(r: Interval): real { r.hi - r.lo }

  /** A pixel delta as a fraction of the viewer's extent in that direction. */
  function Relative(delta: real, extent: real): (f: real)
    requires extent > 0.0
    ensures f * extent == delta
    ensures (f < 0.0) == (delta < 0.0) && (f == 0.0) == (delta == 0.0)
  {
    delta / extent
  }

  // ---------------------------------------------------------------- Zoom

  /** Zoom mode: the zoom from drag start scaled by `1 + relative_y`, so
      dragging down zooms in and dragging up zooms out. */
  function ZoomAfterDrag(startZoom: real, relY: real): (zoom: real)
    ensures relY == 0.0 ==> zoom == startZoom
    ensures startZoom == 0.0 ==> zoom == 0.0
  {
    startZoom * (1.0 + relY)
  }

  /** A positive zoom stays positive as long as the drag upwards is shorter
      than the viewer's height; dragging down zooms in, dragging up zooms out. */
  lemma ZoomKeepsSign(startZoom: real, relY: real)
    requires startZoom > 0.0
    ensures relY > -1.0 ==> ZoomAfterDrag(startZoom, relY) > 0.0
    ensures relY > 0.0 ==> ZoomAfterDrag(startZoom, relY) > startZoom
    ensures relY < 0.0 ==> ZoomAfterDrag(startZoom, relY) < startZoom
  {
    var factor := 1.0 + relY;
    if relY > -1.0 {
      assert factor > 0.0;
      assert startZoom * factor > 0.0;
    }
  }

  /** Dragging further down never zooms out (for a non-negative start zoom). */
  lemma ZoomMonotone(startZoom: real, relY1: real, relY2: real)
    requires startZoom >= 0.0 && relY1 <= relY2
    ensures ZoomAfterDrag(startZoom, relY1) <= ZoomAfterDrag(startZoom, relY2)
  {
    assert ZoomAfterDrag(startZoom, relY2) - ZoomAfterDrag(startZoom, relY1) == startZoom * (relY2 - relY1);
    NonNegativeProduct(startZoom, relY2 - relY1);
  }

  /** The product of two non-negative reals is non-negative. */
  lemma NonNegativeProduct(a: real, b: real)
    requires a >= 0.0 && b >= 0.0
    ensures a * b >= 0.0
  {
  }

  // ------------------------------------------------------------- Slicing

  /** Value assigned to `new_dims[d]` in the source: first raised to `lo` if
      below it, then lowered to `hi` if above it (so `hi` wins when the range
      is empty). */
  function Clamp(v: real, lo: real, hi: real): (r: real)
    ensures r <= hi
    ensures lo <= hi ==> lo <= r
    ensures lo <= v <= hi ==> r == v
    ensures r == v || r == lo || r == hi
    ensures v < lo <= hi ==> r == lo
    ensures v > hi ==> r == hi
    ensures lo > hi ==> r == hi
  {
    var raised := if v < lo then lo else v;
    if raised > hi then hi else raised
  }

  /** Slicing works on 3-d data (axis 0 is z) and 4-d data (axis 0 is t,
      axis 1 is z); any other number of dimensions is left alone. */
  predicate HasSliceAxes(n: nat) { n == 3 || n == 4 }

  /** The z axis for `n` dimensions. */
  function ZAxis(n: nat): (z: nat)
    requires HasSliceAxes(n)
    ensures z < n
  {
    if n == 3 then 0 else 1
  }

  /** Whether axis `d` of `n` dimensions is moved by a slicing drag. */
  predicate IsSliceAxis(n: nat, d: nat)
    requires HasSliceAxes(n)
  {
    d == ZAxis(n) || (n == 4 && d == 0)
  }

  /** A coordinate moved by the axis range times a relative drag. */
  function Shifted(v: real, r: Interval, rel: real): (w: real)
    ensures rel == 0.0 ==> w == v
  {
    v + Span(r) * rel
  }

  /** Coordinate `d` of the new step: z moves against the vertical drag, t
      with the horizontal drag, each by its range times the relative delta
      and clamped into its range; other axes keep the snapshot value. */
  function SlicedCoordinate(step: seq<real>, range: seq<Interval>, relX: real, relY: real, d: nat): real
    requires HasSliceAxes(|step|) && |range| == |step| && d < |step|
  {
    if d == ZAxis(|step|) then
      Clamp(Shifted(step[d], range[d], -relY), range[d].lo, range[d].hi)
    else if |step| == 4 && d == 0 then
      Clamp(Shifted(step[d], range[d], relX), range[d].lo, range[d].hi)
    else
      step[d]
  }

  /** The `dims.current_step` a slicing drag asks for. */
  function SlicedStep(step: seq<real>, range: seq<Interval>, relX: real, relY: real): (r: seq<real>)
    requires HasSliceAxes(|step|) && |range| == |step|
    ensures |r| == |step|
    // only the z axis (and, with 4 dimensions, the t axis) can differ
    ensures |step| == 3 ==> r[1..] == step[1..]
    ensures |step| == 4 ==> r[2..] == step[2..]
    ensures forall d :: 0 <= d < |r| && !IsSliceAxis(|step|, d) ==> r[d] == step[d]
    // every moved coordinate stays inside its axis range
    ensures forall d :: 0 <= d < |r| && IsSliceAxis(|step|, d) && range[d].lo <= range[d].hi ==>
              range[d].lo <= r[d] <= range[d].hi
    // without a drag, the moved axes are only clamped
    ensures relX == 0.0 && relY == 0.0 ==>
              forall d :: 0 <= d < |r| && IsSliceAxis(|step|, d) ==> r[d] == Clamp(step[d], range[d].lo, range[d].hi)
  {
    seq(|step|, d requires 0 <= d < |step| => SlicedCoordinate(step, range, relX, relY, d))
  }

  /** A list is the sliced step when it has its coordinates. */
  lemma SlicedStepByCoordinates(step: seq<real>, range: seq<Interval>, relX: real, relY: real, dims: seq<real>)
    requires HasSliceAxes(|step|) && |range| == |step| && |dims| == |step|
    requires dims[ZAxis(|step|)] == SlicedCoordinate(step, range, relX, relY, ZAxis(|step|))
    requires |step| == 4 ==> dims[0] == SlicedCoordinate(step, range, relX, relY, 0)
    requires forall d :: 0 <= d < |step| && !IsSliceAxis(|step|, d) ==> dims[d] == step[d]
    ensures dims == SlicedStep(step, range, relX, relY)
  {
  }

  /** Clamping never reverses the order of two values. */
  lemma ClampMonotone(v1: real, v2: real, lo: real, hi: real)
    requires v1 <= v2
    ensures Clamp(v1, lo, hi) <= Clamp(v2, lo, hi)
  {
  }

  /** Dragging further down never moves z to a later slice: the z
      coordinate does not increase as the vertical drag grows. */
  lemma SlicedZMonotone(step: seq<real>, range: seq<Interval>, relX: real, relY1: real, relY2: real)
    requires HasSliceAxes(|step|) && |range| == |step| && relY1 <= relY2
    ensures SlicedStep(step, range, relX, relY2)[ZAxis(|step|)] <= SlicedStep(step, range, relX, relY1)[ZAxis(|step|)]
  {
    var z := ZAxis(|step|);
    var r := range[z];
    if r.lo <= r.hi {
      assert Shifted(step[z], r, -relY1) - Shifted(step[z], r, -relY2) == Span(r) * (relY2 - relY1);
      NonNegativeProduct(Span(r), relY2 - relY1);
      ClampMonotone(Shifted(step[z], r, -relY2), Shifted(step[z], r, -relY1), r.lo, r.hi);
    }
  }

  /** While the target stays inside the z range, z moves against the
      vertical drag by exactly the range's span times the relative drag. */
  lemma SlicedZFollowsDrag(step: seq<real>, range: seq<Interval>, relX: real, relY: real)
    requires HasSliceAxes(|step|) && |range| == |step|
    requires range[ZAxis(|step|)].lo <= step[ZAxis(|step|)] - Span(range[ZAxis(|step|)]) * relY <= range[ZAxis(|step|)].hi
    ensures SlicedStep(step, range, relX, relY)[ZAxis(|step|)] == step[ZAxis(|step|)] - Span(range[ZAxis(|step|)]) * relY
  {
    var z := ZAxis(|step|);
    assert Shifted(step[z], range[z], -relY) == step[z] - Span(range[z]) * relY;
  }

  /** With 4 dimensions, dragging further right never moves t to an earlier
      time point: coordinate 0 does not decrease as the horizontal drag grows. */
  lemma SlicedTMonotone(step: seq<real>, range: seq<Interval>, relX1: real, relX2: real, relY: real)
    requires |step| == 4 && |range| == |step| && relX1 <= relX2
    ensures SlicedStep(step, range, relX1, relY)[0] <= SlicedStep(step, range, relX2, relY)[0]
  {
    var r := range[0];
    if r.lo <= r.hi {
      assert Shifted(step[0], r, relX2) - Shifted(step[0], r, relX1) == Span(r) * (relX2 - relX1);
      NonNegativeProduct(Span(r), relX2 - relX1);
      ClampMonotone(Shifted(step[0], r, relX1), Shifted(step[0], r, relX2), r.lo, r.hi);
    }
  }

  /** While the target stays inside the t range, t moves with the horizontal
      drag by exactly the range's span times the relative drag. */
  lemma SlicedTFollowsDrag(step: seq<real>, range: seq<Interval>, relX: real, relY: real)
    requires |step| == 4 && |range| == |step|
    requires range[0].lo <= step[0] + Span(range[0]) * relX <= range[0].hi
    ensures SlicedStep(step, range, relX, relY)[0] == step[0] + Span(range[0]) * relX
  {
    assert SlicedStep(step, range, relX, relY)[0] == SlicedCoordinate(step, range, relX, relY, 0);
  }

  /** One of the two identical blocks of the slicing branch: write `v` into
      entry `d` of the list, then raise it to `lo` if below, then lower it to
      `hi` if above. */
  method SetClamped(dims: seq<real>, d: nat, v: real, lo: real, hi: real) returns (r: seq<real>)
    requires d < |dims|
    ensures r == dims[d := Clamp(v, lo, hi)]
  {
    r := dims[d := v];
    if r[d] < lo {
      r := r[d := lo];
    }
    if r[d] > hi {
      r := r[d := hi];
    }
  }

  /** The slicing branch of `_handle_move`: copy the snapshot into a new
      list, overwrite the z and t entries and clamp them. `None` stands for
      the early returns with fewer than 3 or more than 4 dimensions, where
      `dims.current_step` is not written. */
  method NewDims(step: seq<real>, range: seq<Interval>, relX: real, relY: real) returns (newDims: Option<seq<real>>)
    requires |range| == |step|
    ensures newDims.Some? <==> HasSliceAxes(|step|)
    ensures newDims.Some? ==> newDims.value == SlicedStep(step, range, relX, relY)
  {
    if |step| < 3 {
      return None;
    }
    var zDim, tDim := -1, -1;
    if |step| == 3 {
      zDim := 0;
    } else if |step| == 4 {
      zDim, tDim := 1, 0;
    } else {
      return None;
    }
    var dims := step;
    if zDim >= 0 {
      dims := SetClamped(dims, zDim, Shifted(step[zDim], range[zDim], -relY), range[zDim].lo, range[zDim].hi);
    }
    if tDim >= 0 {
      dims := SetClamped(dims, tDim, Shifted(step[tDim], range[tDim], relX), range[tDim].lo, range[tDim].hi);
    }
    SlicedStepByCoordinates(step, range, relX, relY, dims);
    newDims := Some(dims);
  }

  // ----------------------------------------------------------- Windowing

  /** Factor applied to the window width (from `relative_y`) and to the
      window position (from `relative_x`): `1 - rel` below 1 and `1 + rel`
      from 1 on, which is always positive. */
  function WindowFactor(rel: real): (f: real)
    ensures f > 0.0
    ensures rel == 0.0 ==> f == 1.0
  {
    if rel < 1.0 then 1.0 - rel else 1.0 + rel
  }

  /** Which way a drag moves the factor: a drag of less than one extent in
      the positive direction shrinks it, a negative drag grows it, and at one
      full extent it jumps to 2 and grows from there. */
  lemma WindowFactorDirection(rel1: real, rel2: real)
    ensures 0.0 < rel1 < 1.0 ==> WindowFactor(rel1) < 1.0
    ensures rel1 < 0.0 ==> WindowFactor(rel1) > 1.0
    ensures rel1 >= 1.0 ==> WindowFactor(rel1) >= 2.0
    ensures rel1 <= rel2 < 1.0 ==> WindowFactor(rel2) <= WindowFactor(rel1)
    ensures 1.0 <= rel1 <= rel2 ==> WindowFactor(rel1) <= WindowFactor(rel2)
  {
  }

  /** The contrast limits a windowing drag asks for, from the limits at drag
      start: the window width and position are scaled by their factors and
      the new limits lie half a width either side of the position. */
  function WindowedLimits(startMin: real, startMax: real, relX: real, relY: real): (limits: (real, real))
    // symmetric about the scaled window position ...
    ensures limits.0 + limits.1 == (startMin + startMax) * WindowFactor(relX)
    // ... and as far apart as the scaled window width
    ensures limits.1 - limits.0 == (startMax - startMin) * WindowFactor(relY)
    ensures relX == 0.0 ==> limits.0 + limits.1 == startMin + startMax
    ensures relY == 0.0 ==> limits.1 - limits.0 == startMax - startMin
  {
    var width := (startMax - startMin) * WindowFactor(relY);
    var position := (startMax + startMin) / 2.0 * WindowFactor(relX);
    (position - width / 2.0, position + width / 2.0)
  }

  /** Without a drag the start limits come back unchanged. */
  lemma WindowingZeroDrag(startMin: real, startMax: real)
    ensures WindowedLimits(startMin, startMax, 0.0, 0.0) == (startMin, startMax)
  {
  }

  /** Dragging down by less than the canvas height narrows a non-empty
      window, and dragging up widens it. */
  lemma WindowingWidthDirection(startMin: real, startMax: real, relX: real, relY: real)
    requires startMin < startMax
    ensures var limits := WindowedLimits(startMin, startMax, relX, relY);
            (0.0 < relY < 1.0 ==> limits.1 - limits.0 < startMax - startMin) &&
            (relY < 0.0 ==> limits.1 - limits.0 > startMax - startMin)
  {
    var limits := WindowedLimits(startMin, startMax, relX, relY);
    var width, w := startMax - startMin, WindowFactor(relY);
    WindowFactorDirection(relY, relY);
    assert limits.1 - limits.0 == width * w;
    assert width * w - width == width * (w - 1.0);
    if 0.0 < relY < 1.0 { assert width * (w - 1.0) < 0.0; }
    if relY < 0.0 { assert width * (w - 1.0) > 0.0; }
  }

  /** Both factors are positive, so an ordered pair of limits stays ordered
      (strictly so if it was), and the sign of the window position is kept. */
  lemma WindowingKeepsOrder(startMin: real, startMax: real, relX: real, relY: real)
    ensures startMin <= startMax ==> WindowedLimits(startMin, startMax, relX, relY).0 <= WindowedLimits(startMin, startMax, relX, relY).1
    ensures startMin < startMax ==> WindowedLimits(startMin, startMax, relX, relY).0 < WindowedLimits(startMin, startMax, relX, relY).1
    ensures var limits := WindowedLimits(startMin, startMax, relX, relY);
            (limits.0 + limits.1 > 0.0 <==> startMin + startMax > 0.0) &&
            (limits.0 + limits.1 == 0.0 <==> startMin + startMax == 0.0)
  {
    var limits := WindowedLimits(startMin, startMax, relX, relY);
    var w, c := WindowFactor(relY), WindowFactor(relX);
    var width, sum := startMax - startMin, startMin + startMax;
    assert limits.1 - limits.0 == width * w;
    assert limits.0 + limits.1 == sum * c;
    if sum == 0.0 { assert sum * c == 0.0; }
    if width >= 0.0 { assert width * w >= 0.0; }
    if width > 0.0 { assert width * w > 0.0; }
    if sum > 0.0 { assert sum * c > 0.0; }
    if sum < 0.0 { assert sum * c < 0.0; }
  }
}
