/** AbstractContextWheelScreen: the wheel's selection controller. It owns
    the list of spoke renderers and the hovered index (-1 for none), and
    turns cursor moves, clicks, key presses and the screen's removal into
    select/unselect calls and triggers. */
module Wheels {
  import opened JavaMath
  import opened Options
  import opened SpokeGeometry
  import opened Spokes
  import opened WheelInput

  // ---------------------------------------------------------------------
  // Values the screen derives

  /** upperBoundRadius: a tenth beyond the wheel's radius. */
  function UpperBound(outerRadius: real): (r: real)
    ensures 0.0 < outerRadius ==> outerRadius < r
    ensures r - outerRadius == outerRadius * 0.1
  {
    outerRadius * 1.1
  }

  /** lowerBoundRadius: the larger of a tenth of the radius and the inner radius. */
  function LowerBound(outerRadius: real, innerRadius: real): (r: real)
    ensures outerRadius * 0.1 <= r && innerRadius <= r
    ensures r == outerRadius * 0.1 || r == innerRadius
  {
    if outerRadius * 0.1 > innerRadius then outerRadius * 0.1 else innerRadius
  }

  /** With a positive radius and an inner radius inside it, the band the
      cursor must be in is not empty. */
  lemma BoundsOrdered(outerRadius: real, innerRadius: real)
    requires 0.0 < outerRadius && innerRadius < outerRadius
    ensures LowerBound(outerRadius, innerRadius) < outerRadius < UpperBound(outerRadius)
  {
  }

  /** The state genSpokeRenderer leaves a new spoke in: constructed, then
      setGap, setInnerRadius and setAngleOffset applied in that order. */
  function Generated(t: Trig, orX: real, orY: real, rad: real, numSecs: int, secIndex: int,
                     gap: real, innerRadius: real, angleOffset: real): SpokeState
    requires numSecs != 0
  {
    WithAngleOffset(t, WithInnerRadius(WithGap(t, Initial(t, orX, orY, rad, numSecs, secIndex), gap),
                                       innerRadius), angleOffset)
  }

  /** A generated spoke is consistent and unselected, carries the screen's
      settings, and sweeps exactly the angles of its position. */
  lemma GeneratedEffect(t: Trig, orX: real, orY: real, rad: real, numSecs: int, secIndex: int,
                        gap: real, innerRadius: real, angleOffset: real)
    requires numSecs != 0
    ensures var s := Generated(t, orX, orY, rad, numSecs, secIndex, gap, innerRadius, angleOffset);
      && Consistent(t, s) && !s.isSelected
      && s.sections == numSecs && s.sectionIndex == secIndex
      && s.originX == orX && s.originY == orY && s.outerRadius == rad
      && s.gap == gap && s.innerRadius == innerRadius && s.angleOffset == angleOffset
      && s.pullOutDistance == 0.0 && s.innerOutlineWeight == 0.0
      && s.startAngle == StartAngle(secIndex, numSecs, angleOffset)
      && s.endAngle == EndAngle(secIndex, numSecs, angleOffset)
  {
    var s0 := Initial(t, orX, orY, rad, numSecs, secIndex);
    InitialEffect(t, orX, orY, rad, numSecs, secIndex);
    var s1 := WithGap(t, s0, gap);
    SetGapEffect(t, s0, gap);
    var s2 := WithInnerRadius(s1, innerRadius);
    SetInnerRadiusEffect(t, s1, innerRadius);
    SetAngleOffsetEffect(t, s2, angleOffset);
  }

  /** The hit test and the drawing agree: every angle inside the sweep of
      the spoke generated for position i is hit-tested to i. */
  lemma GeneratedSpokeIsHitTested(t: Trig, orX: real, orY: real, rad: real, numSecs: int, i: int,
                                  gap: real, innerRadius: real, angleOffset: real, theta: real)
    requires 1 <= numSecs && 0 <= i < numSecs
    requires var s := Generated(t, orX, orY, rad, numSecs, i, gap, innerRadius, angleOffset);
      s.startAngle <= theta < s.endAngle
    ensures SectionIndexFromAngle(theta, angleOffset, numSecs) == i
  {
    GeneratedEffect(t, orX, orY, rad, numSecs, i, gap, innerRadius, angleOffset);
    SectionIndexMatchesSpoke(theta, angleOffset, numSecs, i);
  }

  /** How an input handler left the event: consumed (return true), or passed
      on to the base screen's handler. */
  datatype Handling = Consumed | PassedToBase

  class ContextWheelScreen {
    /** Math.atan (and sin, cos for the spokes) as the host provides them. */
    const trig: Trig
    const numSections: int

    /** The screen's size, set by the host before init(). */
    var width: int
    var height: int

    var centerX: real
    var centerY: real
    var outerRadius: real
    const innerRadius: real := 0.0
    const gap: real := 10.0
    const angleOffset: real := PI * 0.5

    /** The hovered spoke, -1 for none. */
    var selectedSection: int
    var lowerBoundRadius: real
    var upperBoundRadius: real

    var spokeRenderers: seq<SpokeRenderer>

    /** The spokes triggered so far, in order: the chat lines triggerSpoke posts. */
    var triggered: seq<int>
    /** Whether close() was requested. */
    var closeRequested: bool

    ghost function Spokes(): set<SpokeRenderer>
      reads this
    {
      set sr | sr in spokeRenderers
    }

    /** The spoke at position i was built for this wheel and that position. */
    ghost predicate SpokeFits(sr: SpokeRenderer, i: int)
      reads sr
    {
      sr.trig == trig && sr.Valid() && sr.sections == numSections && sr.sectionIndex == i
    }

    /** The list is empty (before init) or holds one distinct, up-to-date
        spoke per section, and the hovered index points into it. */
    ghost predicate Valid()
      reads this, Spokes()
    {
      && 1 <= numSections
      && AtanBounded(trig)
      && (|spokeRenderers| == 0 || |spokeRenderers| == numSections)
      && -1 <= selectedSection < |spokeRenderers|
      && (forall i, j :: 0 <= i < j < |spokeRenderers| ==> spokeRenderers[i] != spokeRenderers[j])
      && (forall i :: 0 <= i < |spokeRenderers| ==> SpokeFits(spokeRenderers[i], i))
    }

    /** init() has built the spokes. */
    predicate Initialized()
      reads this
    {
      |spokeRenderers| == numSections
    }

    /** Exactly the spoke at selectedSection is marked selected (none for -1). */
    ghost predicate SelectionConsistent()
      reads this, Spokes()
    {
      forall i :: 0 <= i < |spokeRenderers| ==> (spokeRenderers[i].isSelected <==> i == selectedSection)
    }

    /** getSectionIndexFromMouse with this screen's centre, bounds and offset. */
    function Hovered(mouseX: int, mouseY: int): int
      reads this
    {
      SectionIndexFromMouse(trig, mouseX, mouseY, centerX, centerY, lowerBoundRadius,
                            upperBoundRadius, angleOffset, numSections)
    }

    constructor (trig: Trig, numSecs: int)
      requires 1 <= numSecs && AtanBounded(trig)
      ensures this.trig == trig && numSections == numSecs
      ensures selectedSection == -1 && spokeRenderers == [] && triggered == [] && !closeRequested
      ensures Valid() && SelectionConsistent()
    {
      this.trig := trig;
      numSections := numSecs;
      width, height := 0, 0;
      centerX, centerY, outerRadius := 0.0, 0.0, 0.0;
      selectedSection := -1;
      lowerBoundRadius, upperBoundRadius := 0.0, 0.0;
      spokeRenderers := [];
      triggered := [];
      closeRequested := false;
    }

    /** initConsts: the centre, the radius a quarter of the height, and the
        hit-test band around it. */
    method InitConsts()
      modifies this`centerX, this`centerY, this`outerRadius, this`lowerBoundRadius, this`upperBoundRadius
      ensures centerX == width as real / 2.0 && centerY == height as real / 2.0
      ensures outerRadius == height as real / 4.0
      ensures upperBoundRadius == UpperBound(outerRadius)
      ensures lowerBoundRadius == LowerBound(outerRadius, innerRadius)
    {
      centerX := width as real / 2.0;
      centerY := height as real / 2.0;
      outerRadius := height as real / 4.0;
      upperBoundRadius := outerRadius * 1.1;
      lowerBoundRadius := if outerRadius * 0.1 > innerRadius then outerRadius * 0.1 else innerRadius;
    }

    /** genSpokeRenderer: a new spoke with this screen's gap, inner radius and offset. */
    method GenSpokeRenderer(orX: real, orY: real, rad: real, numSecs: int, secIndex: int)
      returns (sr: SpokeRenderer)
      requires numSecs != 0
      ensures fresh(sr) && sr.trig == trig && sr.Valid()
      ensures sr.State() == Generated(trig, orX, orY, rad, numSecs, secIndex, gap, innerRadius, angleOffset)
    {
      sr := new SpokeRenderer(trig, orX, orY, rad, numSecs, secIndex);
      sr := sr.SetGap(gap);
      sr := sr.SetInnerRadius(innerRadius);
      sr := sr.SetAngleOffset(angleOffset);
    }

    /** The list rebuild of addAllSections: numSections new spokes, the one
        at position i generated for section i. */
    method RebuildSpokes()
      requires 1 <= numSections
      modifies this`spokeRenderers
      ensures |spokeRenderers| == numSections
      ensures forall i, j :: 0 <= i < j < numSections ==> spokeRenderers[i] != spokeRenderers[j]
      ensures forall i :: 0 <= i < numSections ==>
        && fresh(spokeRenderers[i]) && SpokeFits(spokeRenderers[i], i)
        && spokeRenderers[i].State()
           == Generated(trig, centerX, centerY, outerRadius, numSections, i, gap, innerRadius, angleOffset)
    {
      spokeRenderers := [];
      for i := 0 to numSections
        invariant |spokeRenderers| == i
        invariant forall k, j :: 0 <= k < j < i ==> spokeRenderers[k] != spokeRenderers[j]
        invariant forall k :: 0 <= k < i ==>
          && fresh(spokeRenderers[k]) && SpokeFits(spokeRenderers[k], k)
          && spokeRenderers[k].State()
             == Generated(trig, centerX, centerY, outerRadius, numSections, k, gap, innerRadius, angleOffset)
      {
        var sr := GenSpokeRenderer(centerX, centerY, outerRadius, numSections, i);
        GeneratedEffect(trig, centerX, centerY, outerRadius, numSections, i, gap, innerRadius, angleOffset);
        spokeRenderers := spokeRenderers + [sr];
      }
    }

    /** addAllSections as the source writes it: the spokes are rebuilt, all
        unselected, but selectedSection keeps its old value, so a selection
        made before a re-init (the host re-runs init() on every resize) no
        longer matches the spoke marked selected. */
    method AddAllSectionsAsWritten()
      requires Valid()
      modifies this`centerX, this`centerY, this`outerRadius, this`lowerBoundRadius, this`upperBoundRadius,
               this`spokeRenderers
      ensures Valid() && Initialized()
      ensures selectedSection == old(selectedSection)
      ensures centerX == width as real / 2.0 && centerY == height as real / 2.0
      ensures outerRadius == height as real / 4.0
      ensures upperBoundRadius == UpperBound(outerRadius)
      ensures lowerBoundRadius == LowerBound(outerRadius, innerRadius)
      ensures forall i :: 0 <= i < numSections ==>
        && fresh(spokeRenderers[i]) && !spokeRenderers[i].isSelected
        && spokeRenderers[i].State()
           == Generated(trig, centerX, centerY, outerRadius, numSections, i, gap, innerRadius, angleOffset)
      ensures old(selectedSection) != -1 ==> !SelectionConsistent()
    {
      InitConsts();
      RebuildSpokes();
      if selectedSection != -1 {
        assert !spokeRenderers[selectedSection].isSelected;
      }
    }

    /** addAllSections with the selection discarded along with the old spokes. */
    method AddAllSections()
      requires Valid()
      modifies this`centerX, this`centerY, this`outerRadius, this`lowerBoundRadius, this`upperBoundRadius,
               this`spokeRenderers, this`selectedSection
      ensures Valid() && Initialized() && SelectionConsistent()
      ensures selectedSection == -1
      ensures centerX == width as real / 2.0 && centerY == height as real / 2.0
      ensures outerRadius == height as real / 4.0
      ensures upperBoundRadius == UpperBound(outerRadius)
      ensures lowerBoundRadius == LowerBound(outerRadius, innerRadius)
      ensures forall i :: 0 <= i < numSections ==>
        && fresh(spokeRenderers[i])
        && spokeRenderers[i].State()
           == Generated(trig, centerX, centerY, outerRadius, numSections, i, gap, innerRadius, angleOffset)
    {
      InitConsts();
      RebuildSpokes();
      selectedSection := -1;
    }

    /** init(), after the host has set the screen's size. */
    method Init(w: int, h: int)
      requires Valid()
      modifies this`width, this`height, this`centerX, this`centerY, this`outerRadius,
               this`lowerBoundRadius, this`upperBoundRadius, this`spokeRenderers, this`selectedSection
      ensures width == w && height == h
      ensures Valid() && Initialized() && SelectionConsistent() && selectedSection == -1
      ensures centerX == w as real / 2.0 && centerY == h as real / 2.0
      ensures outerRadius == h as real / 4.0
      ensures upperBoundRadius == UpperBound(outerRadius)
      ensures lowerBoundRadius == LowerBound(outerRadius, innerRadius)
      ensures forall i :: 0 <= i < numSections ==>
        fresh(spokeRenderers[i]) &&
        spokeRenderers[i].State()
        == Generated(trig, w as real / 2.0, h as real / 2.0, h as real / 4.0, numSections, i,
                     gap, innerRadius, angleOffset)
    {
      width, height := w, h;
      AddAllSections();
    }

    /** updateSelectedSection: the hovered index is recomputed; when it moved,
        the old spoke is unselected and the new one selected, and no other
        spoke is touched. */
    method UpdateSelectedSection(mouseX: int, mouseY: int)
      requires Valid() && Initialized()
      modifies this`selectedSection, Spokes()
      ensures Valid() && Initialized()
      ensures selectedSection == Hovered(mouseX, mouseY)
      ensures forall i :: 0 <= i < numSections ==>
        spokeRenderers[i].State() ==
          if old(selectedSection) == selectedSection then old(spokeRenderers[i].State())
          else if i == selectedSection then Selected(trig, old(spokeRenderers[i].State()))
          else if i == old(selectedSection) then Unselected(trig, old(spokeRenderers[i].State()))
          else old(spokeRenderers[i].State())
      ensures old(SelectionConsistent()) ==> SelectionConsistent()
    {
      var oldSelected := selectedSection;
      SectionIndexFromMouseInRange(trig, mouseX, mouseY, centerX, centerY, lowerBoundRadius,
                                   upperBoundRadius, angleOffset, numSections);
      selectedSection := Hovered(mouseX, mouseY);
      if oldSelected == selectedSection {
        return;
      }
      if oldSelected != -1 {
        var sr := spokeRenderers[oldSelected];
        sr.Unselect();
        UnselectEffect(trig, old(sr.State()));
      }
      if selectedSection != -1 {
        var sr := spokeRenderers[selectedSection];
        sr.Select();
        SelectEffect(trig, old(sr.State()));
      }
    }

    /** triggerSpoke: the selection is cleared before the trigger is posted.
        The spoke renderer keeps its selected look; the screen closes next. */
    method TriggerSpoke(index: int)
      requires Valid()
      modifies this`selectedSection, this`triggered
      ensures Valid()
      ensures selectedSection == -1 && triggered == old(triggered) + [index]
    {
      selectedSection := -1;
      triggered := triggered + [index];
    }

    /** removed(): the hovered spoke, if any, is triggered as the screen goes away. */
    method Removed()
      requires Valid()
      modifies this`selectedSection, this`triggered
      ensures Valid() && selectedSection == -1
      ensures triggered == old(triggered) + if old(selectedSection) != -1 then [old(selectedSection)] else []
    {
      if selectedSection != -1 {
        TriggerSpoke(selectedSection);
      }
    }

    /** mouseClicked: a left click over a spoke triggers it and closes the
        screen; any other click goes to the base screen. */
    method MouseClicked(mouseX: real, mouseY: real, button: int) returns (h: Handling)
      requires Valid()
      modifies this`selectedSection, this`triggered, this`closeRequested
      ensures Valid()
      ensures h == Consumed <==> button == 0 && old(selectedSection) != -1
      ensures h == Consumed ==>
        triggered == old(triggered) + [old(selectedSection)] && selectedSection == -1 && closeRequested
      ensures h == PassedToBase ==>
        && triggered == old(triggered) && selectedSection == old(selectedSection)
        && closeRequested == old(closeRequested)
    {
      if button == 0 {
        if selectedSection != -1 {
          TriggerSpoke(selectedSection);
          closeRequested := true;
          return Consumed;
        }
      }
      return PassedToBase;
    }

    /** keyPressed: a digit key naming an existing spoke triggers it and
        closes the screen; any other key goes to the base screen. */
    method KeyPressed(keyCode: int, scanCode: int, modifiers: int) returns (h: Handling)
      requires Valid()
      modifies this`selectedSection, this`triggered, this`closeRequested
      ensures Valid()
      ensures h == Consumed <==> KeyTarget(keyCode, numSections).Some?
      ensures h == Consumed ==>
        && triggered == old(triggered) + [KeyTarget(keyCode, numSections).value]
        && selectedSection == -1 && closeRequested
      ensures h == PassedToBase ==>
        && triggered == old(triggered) && selectedSection == old(selectedSection)
        && closeRequested == old(closeRequested)
    {
      if KEY_0 <= keyCode <= KEY_9 {
        var index := keyCode - KEY_0 - 1;
        if index == -1 {
          index := 9;
        }
        if index < numSections {
          TriggerSpoke(index);
          closeRequested := true;
          return Consumed;
        }
      }
      return PassedToBase;
    }
  }

  /** A click that triggers, followed by the removal the close leads to:
      exactly one trigger, for the spoke that was hovered. */
  method ClickThenClose(w: ContextWheelScreen, mouseX: real, mouseY: real)
    requires w.Valid() && w.selectedSection != -1
    modifies w
    ensures w.triggered == old(w.triggered) + [old(w.selectedSection)]
    ensures w.selectedSection == -1 && w.closeRequested
  {
    var h := w.MouseClicked(mouseX, mouseY, 0);
    w.Removed();
  }

  /** A digit key that triggers, followed by the removal the close leads to:
      exactly one trigger, for the key's spoke, whatever was hovered. */
  method KeyThenClose(w: ContextWheelScreen, keyCode: int)
    requires w.Valid() && KeyTarget(keyCode, w.numSections).Some?
    modifies w
    ensures w.triggered == old(w.triggered) + [KeyTarget(keyCode, w.numSections).value]
    ensures w.selectedSection == -1 && w.closeRequested
  {
    var h := w.KeyPressed(keyCode, 0, 0);
    w.Removed();
  }

  /** The defect of AddAllSectionsAsWritten, on a concrete wheel: eight
      spokes on a 400 by 400 screen, the cursor on the rim at three o'clock,
      then a re-init. Returns the stale index. */
  method StaleSelectionOnResize(t: Trig) returns (stale: int)
    requires AtanBounded(t)
    ensures 0 <= stale < 8
  {
    var w := new ContextWheelScreen(t, 8);
    w.Init(400, 400);
    assert (300 as real - w.centerX) * (300 as real - w.centerX) + (200 as real - w.centerY) * (200 as real - w.centerY)
           == w.outerRadius * w.outerRadius;
    RimIsSelectable(t, 300, 200, w.centerX, w.centerY, w.outerRadius, w.innerRadius, w.angleOffset, 8);
    w.UpdateSelectedSection(300, 200);
    stale := w.selectedSection;
    w.AddAllSectionsAsWritten();
    assert !w.SelectionConsistent();
  }
}
