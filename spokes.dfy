/** SpokeRenderer: one spoke of the wheel, as an object whose fields the
    setters and select/unselect update in place. Every method is proved
    against the value-level transitions and lists of SpokeGeometry. */
module Spokes {
  import opened JavaMath
  import opened Options
  import opened SpokeGeometry

  /** Moves every point of `raw` by `d`, as the curve getters' loop does. */
  method TranslateAll(raw: seq<Point>, d: Point) returns (pts: seq<Point>)
    ensures pts == Translated(raw, d)
  {
    pts := [];
    for k := 0 to |raw|
      invariant |pts| == k
      invariant forall j :: 0 <= j < k ==> pts[j] == raw[j].Plus(d)
    {
      pts := pts + [raw[k].Plus(d)];
    }
  }

  /** One more loop step of drawFill appends vertices 2*i and 2*i+1 of the strip. */
  lemma FillStepExtends(inner: seq<Point>, outer: seq<Point>, selected: bool, i: int, vs: seq<Vertex>)
    requires 0 < |inner| && 0 < |outer| && 0 <= i < Max(|inner|, |outer|)
    requires |vs| == 2 * i
    requires forall k :: 0 <= k < 2 * i ==> vs[k] == FillVertex(inner, outer, selected, k)
    ensures var n := Max(|inner|, |outer|);
      var p := inner[FillIndex(i, |inner|, n)];
      var q := outer[FillIndex(i, |outer|, n)];
      var ws := vs + [Vertex(p.x, p.y, 0.0, FillColorOf(selected, true)),
                      Vertex(q.x, q.y, 0.0, FillColorOf(selected, false))];
      forall k :: 0 <= k < 2 * (i + 1) ==> ws[k] == FillVertex(inner, outer, selected, k)
  {
    assert (2 * i) / 2 == i && (2 * i + 1) / 2 == i;
    assert (2 * i) % 2 == 0 && (2 * i + 1) % 2 == 1;
  }

  /** The vertices the loop of drawFill has emitted when it ends are the strip. */
  lemma FillStripOfVertices(inner: seq<Point>, outer: seq<Point>, selected: bool, vs: seq<Vertex>)
    requires var n := Max(|inner|, |outer|);
      && (0 < n ==> 0 < |inner| && 0 < |outer|)
      && |vs| == 2 * n
      && forall k :: 0 <= k < 2 * n ==> vs[k] == FillVertex(inner, outer, selected, k)
    ensures FillStrip(inner, outer, selected) == Some(vs)
  {
    var n := Max(|inner|, |outer|);
    if 0 < n {
      assert vs == seq(2 * n, k requires 0 <= k < 2 * n => FillVertex(inner, outer, selected, k));
    }
  }

  class SpokeRenderer {
    /** Math.sin and Math.cos as the host provides them. */
    const trig: Trig

    var outerRadius: real
    var innerRadius: real
    var gap: real
    var angleOffset: real
    var outerOutlineWeight: real
    var innerOutlineWeight: real
    var originX: real
    var originY: real
    var sections: int
    var sectionIndex: int
    var numDivisions: int
    var pullOutDistance: real
    var startAngle: real
    var endAngle: real
    var midAngle: real
    var gapHypot: real
    var offsetX: real
    var offsetY: real
    var isSelected: bool

    /** All fields, as a value. */
    function State(): SpokeState
      reads this
    {
      SpokeState(outerRadius, innerRadius, gap, angleOffset, outerOutlineWeight,
                 innerOutlineWeight, originX, originY, sections, sectionIndex,
                 numDivisions, pullOutDistance, startAngle, endAngle, midAngle,
                 gapHypot, offsetX, offsetY, isSelected)
    }

    /** The derived fields are up to date. */
    ghost predicate Valid()
      reads this
    {
      Consistent(trig, State())
    }

    constructor (trig: Trig, orX: real, orY: real, rad: real, numSecs: int, secIndex: int)
      requires numSecs != 0
      ensures this.trig == trig
      ensures State() == Initial(trig, orX, orY, rad, numSecs, secIndex) && Valid()
    {
      this.trig := trig;
      outerRadius := rad;
      innerRadius := 0.0;
      gap := 10.0;
      angleOffset := PI * 0.5;
      outerOutlineWeight := 0.0;
      innerOutlineWeight := 0.0;
      originX := orX;
      originY := orY;
      sections := numSecs;
      sectionIndex := secIndex;
      numDivisions := 5;
      pullOutDistance := 0.0;
      startAngle, endAngle, midAngle := 0.0, 0.0, 0.0;
      gapHypot, offsetX, offsetY := 0.0, 0.0, 0.0;
      isSelected := false;
      new;
      InitConsts();
      InitialEffect(trig, orX, orY, rad, numSecs, secIndex);
    }

    /** initConsts. */
    method InitConsts()
      requires sections != 0
      modifies this
      ensures State() == Recomputed(trig, old(State())) && Valid()
    {
      ghost var before := State();
      startAngle := 2.0 * PI * sectionIndex as real / sections as real - angleOffset;
      endAngle := 2.0 * PI * (sectionIndex + 1) as real / sections as real - angleOffset;
      midAngle := 2.0 * PI * (sectionIndex as real + 0.5) / sections as real - angleOffset;
      gapHypot := (gap / 2.0) * trig.sin(PI / sections as real);
      offsetX := (gapHypot + pullOutDistance) * trig.cos(midAngle) / 2.0;
      offsetY := (gapHypot + pullOutDistance) * trig.sin(midAngle) / 2.0;
      assert State() == Recomputed(trig, before);
      RecomputedEffect(trig, before);
    }

    method SetGap(gap: real) returns (r: SpokeRenderer)
      requires Valid()
      modifies this
      ensures r == this && Valid()
      ensures State() == WithGap(trig, old(State()), gap)
    {
      this.gap := gap;
      InitConsts();
      r := this;
    }

    method SetInnerRadius(rad: real) returns (r: SpokeRenderer)
      requires Valid()
      modifies this
      ensures r == this && Valid()
      ensures State() == WithInnerRadius(old(State()), rad)
    {
      innerRadius := rad;
      SetInnerRadiusEffect(trig, old(State()), rad);
      r := this;
    }

    method SetAngleOffset(theta: real) returns (r: SpokeRenderer)
      requires Valid()
      modifies this
      ensures r == this && Valid()
      ensures State() == WithAngleOffset(trig, old(State()), theta)
    {
      angleOffset := theta;
      InitConsts();
      r := this;
    }

    method Select()
      requires Valid()
      modifies this
      ensures Valid() && State() == Selected(trig, old(State()))
    {
      isSelected := true;
      innerOutlineWeight := 0.75;
      pullOutDistance := 10.0;
      innerRadius := outerRadius * 0.2;
      InitConsts();
    }

    method Unselect()
      requires Valid()
      modifies this
      ensures Valid() && State() == Unselected(trig, old(State()))
    {
      isSelected := false;
      innerOutlineWeight := 0.0;
      pullOutDistance := 0.0;
      innerRadius := 0.0;
      InitConsts();
    }

    /** getOuterCurvePoints: the anchor alone when the outer radius is not
        positive, else the sampled arc moved to the anchor. */
    method GetOuterCurvePoints(arc: ArcSampler) returns (pts: seq<Point>)
      ensures pts == OuterCurve(arc, State())
      ensures outerRadius <= 0.0 ==> pts == [Point(originX + offsetX, originY + offsetY, 0.0)]
      ensures 0.0 < outerRadius ==>
        |pts| == |arc(numDivisions, outerRadius - gapHypot, startAngle, endAngle)|
    {
      var raw: seq<Point>;
      if outerRadius <= 0.0 {
        raw := [Point(0.0, 0.0, 0.0)];
      } else {
        raw := arc(numDivisions, outerRadius - gapHypot, startAngle, endAngle);
      }
      pts := TranslateAll(raw, Point(originX + offsetX, originY + offsetY, 0.0));
      CurveShape(arc, outerRadius, numDivisions, gapHypot, startAngle, endAngle, Anchor(State()));
    }

    /** getInnerCurvePoints: the same for the inner radius. */
    method GetInnerCurvePoints(arc: ArcSampler) returns (pts: seq<Point>)
      ensures pts == InnerCurve(arc, State())
      ensures innerRadius <= 0.0 ==> pts == [Point(originX + offsetX, originY + offsetY, 0.0)]
      ensures 0.0 < innerRadius ==>
        |pts| == |arc(numDivisions, innerRadius - gapHypot, startAngle, endAngle)|
    {
      var raw: seq<Point>;
      if innerRadius <= 0.0 {
        raw := [Point(0.0, 0.0, 0.0)];
      } else {
        raw := arc(numDivisions, innerRadius - gapHypot, startAngle, endAngle);
      }
      pts := TranslateAll(raw, Point(originX + offsetX, originY + offsetY, 0.0));
      CurveShape(arc, innerRadius, numDivisions, gapHypot, startAngle, endAngle, Anchor(State()));
    }

    /** getOutlinePoints: None stands for the exception of `get(0)` on an
        empty inner curve. */
    method GetOutlinePoints(arc: ArcSampler) returns (r: Option<seq<Point>>)
      ensures r == Outline(InnerCurve(arc, State()), OuterCurve(arc, State()))
    {
      var outer := GetOuterCurvePoints(arc);
      var inner := GetInnerCurvePoints(arc);
      outer := Reversed(outer);
      var rawOutline := inner + outer;
      if |inner| == 0 {
        return None;
      }
      r := Some(rawOutline + [inner[0]]);
    }

    /** getColorFill: the vertex index and the curve sizes do not matter. */
    function GetColorFill(vI: int, numOuter: int, numInner: int, isInner: bool): (c: Color)
      reads this
      ensures c == SelectedFill <==> isSelected && !isInner
      ensures c == BaseFill <==> isInner || !isSelected
    {
      FillColorOf(isSelected, isInner)
    }

    /** getColorOutline: the same translucent white for every outline vertex. */
    function GetColorOutline(vI: int): (c: Color)
      ensures c == Argb(128, 255, 255, 255)
    {
      OutlineColor
    }

    /** The vertex loop of drawFill; None stands for the exception of a
        `get` on an empty curve. */
    method DrawFill(arc: ArcSampler) returns (r: Option<seq<Vertex>>)
      ensures r == FillStrip(InnerCurve(arc, State()), OuterCurve(arc, State()), isSelected)
    {
      var outerCurvePoints := GetOuterCurvePoints(arc);
      var innerCurvePoints := GetInnerCurvePoints(arc);
      var numPoints := if |outerCurvePoints| > |innerCurvePoints| then |outerCurvePoints| else |innerCurvePoints|;
      var vs: seq<Vertex> := [];
      var i := 0;
      while i < numPoints
        invariant 0 <= i <= numPoints
        invariant 0 < i ==> 0 < |innerCurvePoints| && 0 < |outerCurvePoints|
        invariant |vs| == 2 * i
        invariant forall k :: 0 <= k < 2 * i ==> vs[k] == FillVertex(innerCurvePoints, outerCurvePoints, isSelected, k)
      {
        var inI := i * |innerCurvePoints| / numPoints;
        var outI := i * |outerCurvePoints| / numPoints;
        var inARGB := GetColorFill(i, |outerCurvePoints|, |innerCurvePoints|, true);
        var outARGB := GetColorFill(i, |outerCurvePoints|, |innerCurvePoints|, false);
        assert inI == FillIndex(i, |innerCurvePoints|, numPoints);
        assert outI == FillIndex(i, |outerCurvePoints|, numPoints);
        if inI >= |innerCurvePoints| || outI >= |outerCurvePoints| {
          assert numPoints == Max(|innerCurvePoints|, |outerCurvePoints|);
          return None;
        }
        var p := innerCurvePoints[inI];
        var q := outerCurvePoints[outI];
        FillStepExtends(innerCurvePoints, outerCurvePoints, isSelected, i, vs);
        vs := vs + [Vertex(p.x, p.y, 0.0, inARGB), Vertex(q.x, q.y, 0.0, outARGB)];
        i := i + 1;
      }
      assert numPoints == Max(|innerCurvePoints|, |outerCurvePoints|);
      FillStripOfVertices(innerCurvePoints, outerCurvePoints, isSelected, vs);
      r := Some(vs);
    }

    /** The vertex loop of drawOutline, over the stroke that calcStroke builds
        around the outline with this spoke's outline weights. */
    method DrawOutline(arc: ArcSampler, stroke: StrokeBuilder) returns (r: Option<seq<Vertex>>)
      ensures var o := Outline(InnerCurve(arc, State()), OuterCurve(arc, State()));
        r == if o.None? then None
             else Some(OutlineVertices(stroke(o.value, outerOutlineWeight, innerOutlineWeight)))
    {
      var rawOutline := GetOutlinePoints(arc);
      if rawOutline.None? {
        return None;
      }
      var outlineStroke := stroke(rawOutline.value, outerOutlineWeight, innerOutlineWeight);
      var vs: seq<Vertex> := [];
      for v := 0 to |outlineStroke|
        invariant |vs| == v
        invariant forall k :: 0 <= k < v ==>
          vs[k] == Vertex(outlineStroke[k].x, outlineStroke[k].y, 0.0, OutlineColor)
      {
        var point := outlineStroke[v];
        var vColor := GetColorOutline(v);
        vs := vs + [Vertex(point.x, point.y, 0.0, vColor)];
      }
      assert vs == OutlineVertices(outlineStroke);
      r := Some(vs);
    }

    /** render: the fill strip, then the outline strip. When drawFill throws
        (None), render stops there and draws no outline. */
    method Render(arc: ArcSampler, stroke: StrokeBuilder) returns (fill: Option<seq<Vertex>>, outline: Option<seq<Vertex>>)
      ensures fill == FillStrip(InnerCurve(arc, State()), OuterCurve(arc, State()), isSelected)
      ensures fill.None? ==> outline.None?
      ensures fill.Some? ==>
        var o := Outline(InnerCurve(arc, State()), OuterCurve(arc, State()));
        outline == if o.None? then None
                   else Some(OutlineVertices(stroke(o.value, outerOutlineWeight, innerOutlineWeight)))
    {
      fill := DrawFill(arc);
      if fill.None? {
        return fill, None;
      }
      outline := DrawOutline(arc, stroke);
    }
  }
}
