/** The value-level specification of one spoke (SpokeRenderer): its state
    as a record, the transitions that select/unselect/setters perform, the
    derived angles, and the point and vertex lists a spoke hands to the
    renderer. The class in module Spokes is proved against these. */
module SpokeGeometry {
  import opened JavaMath
  import opened Options

  /** Vec3d; `Plus` is Vec3d.add. */
  datatype Point = Point(x: real, y: real, z: real) {
    function Plus(d: Point): Point {
      Point(x + d.x, y + d.y, z + d.z)
    }
  }

  /** A colour as the four channels passed to ColorHelper.Argb.getArgb. */
  datatype Color = Argb(alpha: int, red: int, green: int, blue: int)

  /** One vertex sent to the buffer builder: `vertex(x, y, z).color(c)`. */
  datatype Vertex = Vertex(x: real, y: real, z: real, color: Color)

  /** RenderUtils.calcArcPoints(divisions, radius, startAngle, endAngle),
      whose source is not part of this model. */
  type ArcSampler = (int, real, real, real) -> seq<Point>

  /** RenderUtils.calcStroke(points, outerWeight, innerWeight), whose
      source is not part of this model. */
  type StrokeBuilder = (seq<Point>, real, real) -> seq<Point>

  const BaseFill: Color := Argb(96, 153, 102, 204)
  const SelectedFill: Color := Argb(150, 38, 97, 156)
  const OutlineColor: Color := Argb(128, 255, 255, 255)

  // ---------------------------------------------------------------------
  // Angles of spoke `index` out of `sections`, turned back by `offset`

  function StartAngle(index: int, sections: int, offset: real): real
    requires sections != 0
  {
    2.0 * PI * index as real / sections as real - offset
  }

  function EndAngle(index: int, sections: int, offset: real): real
    requires sections != 0
  {
    2.0 * PI * (index + 1) as real / sections as real - offset
  }

  function MidAngle(index: int, sections: int, offset: real): real
    requires sections != 0
  {
    2.0 * PI * (index as real + 0.5) / sections as real - offset
  }

  /** Every spoke sweeps 2*pi/sections, and its middle angle halves it. */
  lemma SweepWidth(index: int, sections: int, offset: real)
    requires sections != 0
    ensures EndAngle(index, sections, offset) - StartAngle(index, sections, offset)
            == 2.0 * PI / sections as real
    ensures MidAngle(index, sections, offset)
            == (StartAngle(index, sections, offset) + EndAngle(index, sections, offset)) / 2.0
  {
  }

  /** Spoke i ends where spoke i+1 starts. */
  lemma AdjacentSpokesMeet(index: int, sections: int, offset: real)
    requires sections != 0
    ensures EndAngle(index, sections, offset) == StartAngle(index + 1, sections, offset)
  {
  }

  /** Spokes 0 .. sections-1 together sweep exactly one full turn. */
  lemma SpokesSpanOneTurn(sections: int, offset: real)
    requires sections != 0
    ensures EndAngle(sections - 1, sections, offset) == StartAngle(0, sections, offset) + 2.0 * PI
  {
  }

  // ---------------------------------------------------------------------
  // The fields of a SpokeRenderer, as a value

  datatype SpokeState = SpokeState(
    outerRadius: real,
    innerRadius: real,
    gap: real,
    angleOffset: real,
    outerOutlineWeight: real,
    innerOutlineWeight: real,
    originX: real,
    originY: real,
    sections: int,
    sectionIndex: int,
    numDivisions: int,
    pullOutDistance: real,
    startAngle: real,
    endAngle: real,
    midAngle: real,
    gapHypot: real,
    offsetX: real,
    offsetY: real,
    isSelected: bool)

  /** initConsts: recompute the angles, the gap inset and the pull-out
      offset from the other fields. */
  function Recomputed(t: Trig, s: SpokeState): SpokeState
    requires s.sections != 0
  {
    var mid := MidAngle(s.sectionIndex, s.sections, s.angleOffset);
    var gh := (s.gap / 2.0) * t.sin(PI / s.sections as real);
    s.(startAngle := StartAngle(s.sectionIndex, s.sections, s.angleOffset),
       endAngle := EndAngle(s.sectionIndex, s.sections, s.angleOffset),
       midAngle := mid,
       gapHypot := gh,
       offsetX := (gh + s.pullOutDistance) * t.cos(mid) / 2.0,
       offsetY := (gh + s.pullOutDistance) * t.sin(mid) / 2.0)
  }

  /** The derived fields agree with the others, as initConsts leaves them. */
  ghost predicate Consistent(t: Trig, s: SpokeState) {
    s.sections != 0 && Recomputed(t, s) == s
  }

  /** The fields that neither selection nor initConsts touch. */
  predicate SameConfiguration(a: SpokeState, b: SpokeState) {
    && a.outerRadius == b.outerRadius
    && a.gap == b.gap
    && a.angleOffset == b.angleOffset
    && a.outerOutlineWeight == b.outerOutlineWeight
    && a.originX == b.originX
    && a.originY == b.originY
    && a.sections == b.sections
    && a.sectionIndex == b.sectionIndex
    && a.numDivisions == b.numDivisions
  }

  /** The constructor: field initialisers, the arguments, then initConsts. */
  function Initial(t: Trig, orX: real, orY: real, rad: real, numSecs: int, secIndex: int): SpokeState
    requires numSecs != 0
  {
    Recomputed(t, SpokeState(
      rad, 0.0, 10.0, PI * 0.5, 0.0, 0.0, orX, orY, numSecs, secIndex, 5, 0.0,
      0.0, 0.0, 0.0, 0.0, 0.0, 0.0, false))
  }

  function Selected(t: Trig, s: SpokeState): SpokeState
    requires s.sections != 0
  {
    Recomputed(t, s.(isSelected := true, innerOutlineWeight := 0.75,
                     pullOutDistance := 10.0, innerRadius := s.outerRadius * 0.2))
  }

  function Unselected(t: Trig, s: SpokeState): SpokeState
    requires s.sections != 0
  {
    Recomputed(t, s.(isSelected := false, innerOutlineWeight := 0.0,
                     pullOutDistance := 0.0, innerRadius := 0.0))
  }

  function WithGap(t: Trig, s: SpokeState, g: real): SpokeState
    requires s.sections != 0
  {
    Recomputed(t, s.(gap := g))
  }

  function WithInnerRadius(s: SpokeState, rad: real): SpokeState {
    s.(innerRadius := rad)
  }

  function WithAngleOffset(t: Trig, s: SpokeState, theta: real): SpokeState
    requires s.sections != 0
  {
    Recomputed(t, s.(angleOffset := theta))
  }

  /** initConsts leaves a consistent state, is idempotent, changes only
      the derived fields, and gives the angles of SweepWidth. */
  lemma RecomputedEffect(t: Trig, s: SpokeState)
    requires s.sections != 0
    ensures var r := Recomputed(t, s);
      && Consistent(t, r)
      && SameConfiguration(r, s)
      && r.innerRadius == s.innerRadius && r.innerOutlineWeight == s.innerOutlineWeight
      && r.pullOutDistance == s.pullOutDistance && r.isSelected == s.isSelected
      && r.endAngle - r.startAngle == 2.0 * PI / s.sections as real
      && r.midAngle == (r.startAngle + r.endAngle) / 2.0
  {
    SweepWidth(s.sectionIndex, s.sections, s.angleOffset);
  }

  /** A fresh spoke is unselected, with no pull-out and no inner outline. */
  lemma InitialEffect(t: Trig, orX: real, orY: real, rad: real, numSecs: int, secIndex: int)
    requires numSecs != 0
    ensures var r := Initial(t, orX, orY, rad, numSecs, secIndex);
      && Consistent(t, r)
      && !r.isSelected && r.innerRadius == 0.0 && r.pullOutDistance == 0.0
      && r.innerOutlineWeight == 0.0 && r.outerOutlineWeight == 0.0
      && r.gap == 10.0 && r.angleOffset == PI * 0.5 && r.numDivisions == 5
      && r.originX == orX && r.originY == orY && r.outerRadius == rad
      && r.sections == numSecs && r.sectionIndex == secIndex
  {
  }

  /** select(): the four selection fields take their selected values and
      the configuration is untouched. */
  lemma SelectEffect(t: Trig, s: SpokeState)
    requires s.sections != 0
    ensures var r := Selected(t, s);
      && Consistent(t, r) && SameConfiguration(r, s)
      && r.isSelected && r.innerOutlineWeight == 0.75
      && r.pullOutDistance == 10.0 && r.innerRadius == s.outerRadius * 0.2
  {
  }

  /** unselect(): the four selection fields are reset to false/0/0/0. */
  lemma UnselectEffect(t: Trig, s: SpokeState)
    requires s.sections != 0
    ensures var r := Unselected(t, s);
      && Consistent(t, r) && SameConfiguration(r, s)
      && !r.isSelected && r.innerOutlineWeight == 0.0
      && r.pullOutDistance == 0.0 && r.innerRadius == 0.0
  {
  }

  lemma SelectIdempotent(t: Trig, s: SpokeState)
    requires s.sections != 0
    ensures Selected(t, Selected(t, s)) == Selected(t, s)
  {
  }

  lemma UnselectIdempotent(t: Trig, s: SpokeState)
    requires s.sections != 0
    ensures Unselected(t, Unselected(t, s)) == Unselected(t, s)
  {
  }

  /** unselect() undoes select(): the result is what unselect() alone gives. */
  lemma UnselectAfterSelect(t: Trig, s: SpokeState)
    requires s.sections != 0
    ensures Unselected(t, Selected(t, s)) == Unselected(t, s)
  {
  }

  /** Selection depends on the configuration only, not on any earlier selection. */
  lemma SelectAfterUnselect(t: Trig, s: SpokeState)
    requires s.sections != 0
    ensures Selected(t, Unselected(t, s)) == Selected(t, s)
  {
  }

  /** setGap stores the gap and recomputes the derived fields. */
  lemma SetGapEffect(t: Trig, s: SpokeState, g: real)
    requires Consistent(t, s)
    ensures var r := WithGap(t, s, g);
      && Consistent(t, r) && r.gap == g
      && r.angleOffset == s.angleOffset && r.outerRadius == s.outerRadius
      && r.innerRadius == s.innerRadius && r.isSelected == s.isSelected
      && r.gapHypot == (g / 2.0) * t.sin(PI / s.sections as real)
  {
  }

  /** setAngleOffset stores the offset and recomputes the angles. */
  lemma SetAngleOffsetEffect(t: Trig, s: SpokeState, theta: real)
    requires Consistent(t, s)
    ensures var r := WithAngleOffset(t, s, theta);
      && Consistent(t, r) && r.angleOffset == theta
      && r.gap == s.gap && r.outerRadius == s.outerRadius
      && r.innerRadius == s.innerRadius && r.isSelected == s.isSelected
      && r.startAngle == StartAngle(s.sectionIndex, s.sections, theta)
      && r.endAngle == EndAngle(s.sectionIndex, s.sections, theta)
  {
  }

  /** setInnerRadius stores the radius and recomputes nothing; a consistent
      state stays consistent, because no derived field depends on innerRadius. */
  lemma SetInnerRadiusEffect(t: Trig, s: SpokeState, rad: real)
    requires Consistent(t, s)
    ensures var r := WithInnerRadius(s, rad);
      Consistent(t, r) && r.innerRadius == rad && r.(innerRadius := s.innerRadius) == s
  {
  }

  // ---------------------------------------------------------------------
  // Curves and the outline

  /** The raw arc of a curve getter: a single point at the local origin
      when the tested radius is not positive, else the sampled arc at that
      radius less the gap inset. */
  function RawCurve(arc: ArcSampler, radius: real, divisions: int, gapHypot: real,
                    start: real, end: real): seq<Point>
  {
    if radius <= 0.0 then [Point(0.0, 0.0, 0.0)]
    else arc(divisions, radius - gapHypot, start, end)
  }

  /** Where a spoke's curves are anchored: the wheel origin plus the pull-out offset. */
  function Anchor(s: SpokeState): Point {
    Point(s.originX + s.offsetX, s.originY + s.offsetY, 0.0)
  }

  /** Every point moved by `d`. */
  function Translated(raw: seq<Point>, d: Point): (r: seq<Point>)
    ensures |r| == |raw|
    ensures forall k :: 0 <= k < |raw| ==> r[k] == raw[k].Plus(d)
  {
    seq(|raw|, k requires 0 <= k < |raw| => raw[k].Plus(d))
  }

  /** getOuterCurvePoints. */
  function OuterCurve(arc: ArcSampler, s: SpokeState): seq<Point> {
    Translated(RawCurve(arc, s.outerRadius, s.numDivisions, s.gapHypot, s.startAngle, s.endAngle),
               Anchor(s))
  }

  /** getInnerCurvePoints. */
  function InnerCurve(arc: ArcSampler, s: SpokeState): seq<Point> {
    Translated(RawCurve(arc, s.innerRadius, s.numDivisions, s.gapHypot, s.startAngle, s.endAngle),
               Anchor(s))
  }

  /** A degenerate curve is the anchor alone; otherwise the curve is the
      sampled arc, point for point, moved to the anchor. */
  lemma CurveShape(arc: ArcSampler, radius: real, divisions: int, gapHypot: real,
                   start: real, end: real, d: Point)
    ensures var c := Translated(RawCurve(arc, radius, divisions, gapHypot, start, end), d);
      && (radius <= 0.0 ==> c == [Point(d.x, d.y, d.z)])
      && (0.0 < radius ==>
            var raw := arc(divisions, radius - gapHypot, start, end);
            |c| == |raw| && forall k :: 0 <= k < |raw| ==> c[k] == raw[k].Plus(d))
  {
  }

  function Reversed(s: seq<Point>): (r: seq<Point>)
    ensures |r| == |s|
    ensures forall k :: 0 <= k < |s| ==> r[k] == s[|s| - 1 - k]
  {
    seq(|s|, k requires 0 <= k < |s| => s[|s| - 1 - k])
  }

  /** getOutlinePoints: the inner curve, the outer curve backwards, and
      the first inner point again; None when the inner curve is empty
      (the source's `get(0)` would throw). */
  function Outline(inner: seq<Point>, outer: seq<Point>): Option<seq<Point>> {
    if |inner| == 0 then None else Some(inner + Reversed(outer) + [inner[0]])
  }

  /** The outline is a closed loop: inner points in order, then outer
      points in reverse, then the start point again. */
  lemma OutlineShape(inner: seq<Point>, outer: seq<Point>)
    ensures Outline(inner, outer).Some? <==> |inner| > 0
    ensures Outline(inner, outer).Some? ==>
      var o := Outline(inner, outer).value;
      && |o| == |inner| + |outer| + 1
      && (forall k :: 0 <= k < |inner| ==> o[k] == inner[k])
      && (forall k :: |inner| <= k < |inner| + |outer| ==> o[k] == outer[|inner| + |outer| - 1 - k])
      && o[0] == o[|o| - 1] == inner[0]
  {
  }

  // ---------------------------------------------------------------------
  // The fill strip of drawFill

  /** The point of a curve of `size` points that fill step `i` of `n`
      uses: floor(i * size / n). */
  function FillIndex(i: int, size: int, n: int): (j: int)
    requires 0 <= i < n && 0 <= size
    ensures 0 <= j
    ensures 0 < size ==> j < size
  {
    if size == 0 then 0
    else
      FillIndexBelow(i, size, n);
      i * size / n
  }

  lemma FillIndexBelow(i: int, size: int, n: int)
    requires 0 <= i < n && 0 < size
    ensures 0 <= i * size / n < size
  {
    MulLe(i, n - 1, size);
    assert (n - 1) * size == n * size - size;
    DivBelow(i * size, n, size);
  }

  /** a < n * b implies a / n < b. */
  lemma DivBelow(a: int, n: int, b: int)
    requires 0 <= a && 0 < n && a < n * b
    ensures 0 <= a / n < b
  {
    MulCancelLt(n, a / n, b);
  }

  lemma MulLe(a: int, b: int, c: int)
    requires a <= b && 0 <= c
    ensures a * c <= b * c
  {
  }

  lemma MulCancelLt(n: int, x: int, y: int)
    requires 0 < n && n * x < n * y
    ensures x < y
  {
  }

  /** n * q <= a < n * (q + 1) pins down a / n. */
  lemma DivBetween(a: int, n: int, q: int)
    requires 0 < n && n * q <= a < n * (q + 1)
    ensures a / n == q
  {
    var d := a / n;
    MulCancelLt(n, d, q + 1);
    MulCancelLt(n, q, d + 1);
  }

  /** The strip starts at the first point of a curve and, when the curve
      is no longer than the strip, ends at its last point. */
  lemma FillIndexEnds(size: int, n: int)
    requires 1 <= size <= n
    ensures FillIndex(0, size, n) == 0
    ensures FillIndex(n - 1, size, n) == size - 1
  {
    assert (n - 1) * size == n * size - size;
    MulLe(size, n, size - 1);
    assert n * (size - 1) == n * size - n;
    DivBetween((n - 1) * size, n, size - 1);
  }

  /** The first fill step that reaches point j of a curve with `size` points. */
  function FirstStep(j: int, size: int, n: int): int
    requires 0 < size
  {
    (j * n + size - 1) / size
  }

  /** No point is skipped: every point of a curve that is no longer than
      the strip is used by some fill step, namely FirstStep. */
  lemma FillIndexCovers(j: int, size: int, n: int)
    requires 0 <= j < size <= n
    ensures 0 <= FirstStep(j, size, n) < n
    ensures FillIndex(FirstStep(j, size, n), size, n) == j
  {
    var w := FirstStep(j, size, n);
    var a := j * n + size - 1;
    assert size * w <= a < size * w + size;
    assert j * n <= w * size;
    assert w * size < (j + 1) * n by {
      MulLe(size, n, 1);
      assert (j + 1) * n == j * n + n;
    }
    assert size * w < size * n by {
      MulLe(j, size - 1, n);
      assert (size - 1) * n == size * n - n;
    }
    MulCancelLt(size, w, n);
    DivBetween(w * size, n, j);
  }

  /** getColorFill: the base colour, except on the outer side of a selected spoke. */
  function FillColorOf(selected: bool, isInner: bool): (c: Color)
    ensures c == SelectedFill <==> selected && !isInner
    ensures c == BaseFill <==> isInner || !selected
  {
    if isInner || !selected then BaseFill else SelectedFill
  }

  function Max(a: int, b: int): int {
    if a > b then a else b
  }

  /** Vertex 2*i (inner side) and 2*i+1 (outer side) of the fill strip. */
  function FillVertex(inner: seq<Point>, outer: seq<Point>, selected: bool, k: int): Vertex
    requires 0 < |inner| && 0 < |outer| && 0 <= k < 2 * Max(|inner|, |outer|)
  {
    var n := Max(|inner|, |outer|);
    if k % 2 == 0 then
      var p := inner[FillIndex(k / 2, |inner|, n)];
      Vertex(p.x, p.y, 0.0, FillColorOf(selected, true))
    else
      var p := outer[FillIndex(k / 2, |outer|, n)];
      Vertex(p.x, p.y, 0.0, FillColorOf(selected, false))
  }

  /** The vertices drawFill emits: max(|inner|, |outer|) inner/outer pairs,
      or None when exactly one curve is empty (the source's `get` would
      throw on the first step). */
  function FillStrip(inner: seq<Point>, outer: seq<Point>, selected: bool): Option<seq<Vertex>> {
    var n := Max(|inner|, |outer|);
    if n == 0 then Some([])
    else if |inner| == 0 || |outer| == 0 then None
    else Some(seq(2 * n, k requires 0 <= k < 2 * n => FillVertex(inner, outer, selected, k)))
  }

  /** The strip alternates inner and outer vertices, 2 * max(|inner|, |outer|)
      of them, each taken from its curve at FillIndex and coloured by
      FillColorOf. */
  lemma FillStripShape(inner: seq<Point>, outer: seq<Point>, selected: bool)
    ensures var n := Max(|inner|, |outer|);
      FillStrip(inner, outer, selected).None? <==> n > 0 && (|inner| == 0 || |outer| == 0)
    ensures FillStrip(inner, outer, selected).Some? ==>
      |FillStrip(inner, outer, selected).value| == 2 * Max(|inner|, |outer|)
    ensures FillStrip(inner, outer, selected).Some? ==>
      forall i :: 0 <= i < Max(|inner|, |outer|) ==> FillStepAt(inner, outer, selected, i)
  {
    var n := Max(|inner|, |outer|);
    if n > 0 && |inner| > 0 && |outer| > 0 {
      forall i | 0 <= i < n
        ensures FillStepAt(inner, outer, selected, i)
      {
        assert (2 * i) / 2 == i && (2 * i + 1) / 2 == i;
        assert (2 * i) % 2 == 0 && (2 * i + 1) % 2 == 1;
      }
    }
  }

  /** Fill step i emits the inner point at FillIndex in the base colour,
      then the outer point at FillIndex, highlighted when selected. */
  ghost predicate FillStepAt(inner: seq<Point>, outer: seq<Point>, selected: bool, i: int)
    requires FillStrip(inner, outer, selected).Some? && 0 <= i < Max(|inner|, |outer|)
  {
    var n := Max(|inner|, |outer|);
    var v := FillStrip(inner, outer, selected).value;
    var p := inner[FillIndex(i, |inner|, n)];
    var q := outer[FillIndex(i, |outer|, n)];
    && |v| == 2 * n
    && v[2 * i] == Vertex(p.x, p.y, 0.0, BaseFill)
    && v[2 * i + 1] == Vertex(q.x, q.y, 0.0, if selected then SelectedFill else BaseFill)
  }

  /** The vertices drawOutline emits for a stroke: each stroke point, flat,
      in the outline colour. */
  function OutlineVertices(stroke: seq<Point>): (r: seq<Vertex>)
    ensures |r| == |stroke|
    ensures forall v :: 0 <= v < |stroke| ==>
      r[v] == Vertex(stroke[v].x, stroke[v].y, 0.0, OutlineColor)
  {
    seq(|stroke|, v requires 0 <= v < |stroke| => Vertex(stroke[v].x, stroke[v].y, 0.0, OutlineColor))
  }
}
