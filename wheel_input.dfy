/** The input rules of AbstractContextWheelScreen as functions: which spoke
    a digit key names, and which spoke (or none) the cursor is over. */
module WheelInput {
  import opened JavaMath
  import opened Options
  import opened SpokeGeometry

  /** GLFW_KEY_0; the digit keys are KEY_0 + d for d in 0..9. */
  const KEY_0: int := 48
  const KEY_9: int := KEY_0 + 9

  // ---------------------------------------------------------------------
  // Digit keys

  /** The spoke index keyPressed computes for a key: '1'..'9' name spokes
      0..8 and '0' names spoke 9; other keys name none. */
  function DigitIndex(keyCode: int): (r: Option<int>)
    ensures r.Some? <==> KEY_0 <= keyCode <= KEY_9
    ensures r.Some? ==> 0 <= r.value <= 9
    ensures KEY_0 < keyCode <= KEY_9 ==> r == Some(keyCode - KEY_0 - 1)
    ensures keyCode == KEY_0 ==> r == Some(9)
  {
    if KEY_0 <= keyCode <= KEY_9 then
      var index := keyCode - KEY_0 - 1;
      Some(if index == -1 then 9 else index)
    else None
  }

  /** The digit key that names spoke `index`: '1' for 0, ..., '9' for 8, '0' for 9. */
  function KeyForIndex(index: int): (k: int)
    requires 0 <= index <= 9
    ensures KEY_0 <= k <= KEY_9
  {
    KEY_0 + (index + 1) % 10
  }

  /** Each of the ten spoke indices has its own digit key ... */
  lemma KeyForIndexRoundTrip(index: int)
    requires 0 <= index <= 9
    ensures DigitIndex(KeyForIndex(index)) == Some(index)
  {
  }

  /** ... and every digit key is the key of the index it names. */
  lemma DigitIndexRoundTrip(keyCode: int)
    requires DigitIndex(keyCode).Some?
    ensures KeyForIndex(DigitIndex(keyCode).value) == keyCode
  {
  }

  /** The spoke a key press triggers: its digit index, if that is below numSections. */
  function KeyTarget(keyCode: int, numSections: int): (r: Option<int>)
    ensures r.Some? <==> DigitIndex(keyCode).Some? && DigitIndex(keyCode).value < numSections
    ensures r.Some? ==> r == DigitIndex(keyCode)
  {
    match DigitIndex(keyCode)
    case Some(index) => if index < numSections then Some(index) else None
    case None => None
  }

  /** '0' triggers spoke 9 on a ten-spoke wheel and nothing on a nine-spoke wheel. */
  lemma ZeroKeyNeedsTenSpokes()
    ensures KeyTarget(KEY_0, 10) == Some(9)
    ensures KeyTarget(KEY_0, 9) == None
  {
  }

  // ---------------------------------------------------------------------
  // Angle to section

  /** getSectionIndexFromAngle: add the offset and 8*pi, take Java's
      remainder by 2*pi, and scale to numSections bins. With a non-negative
      operand to the remainder, the index is a valid spoke index. */
  function SectionIndexFromAngle(theta: real, angleOffset: real, numSections: int): (r: int)
    ensures 1 <= numSections && 0.0 <= theta + angleOffset + PI * 8.0 ==> 0 <= r < numSections
  {
    var t := Rem(theta + angleOffset + PI * 8.0, PI * 2.0);
    if 1 <= numSections && 0.0 <= theta + angleOffset + PI * 8.0 then
      FloorInBins(t / (2.0 * PI), numSections);
      (t / (2.0 * PI) * numSections as real).Floor
    else
      (t / (2.0 * PI) * numSections as real).Floor
  }

  /** Whole turns the remainder removes, beyond the four of the +8*pi. */
  function Turns(theta: real, angleOffset: real): int {
    Trunc((theta + angleOffset + PI * 8.0) / (PI * 2.0)) - 4
  }

  /** A fraction of a turn, scaled to n bins, falls into one of them. */
  lemma FloorInBins(a: real, numSections: int)
    requires 0.0 <= a < 1.0 && 1 <= numSections
    ensures 0 <= (a * numSections as real).Floor < numSections
  {
    var n := numSections as real;
    MulMonotoneStrict(n, a, 1.0);
    MulMonotone(n, 0.0, a);
    assert 0.0 <= a * n < n;
  }

  /** i <= a * n < i + 1 exactly when i / n <= a < (i + 1) / n. */
  lemma BinScale(a: real, i: real, n: real)
    requires 0.0 < n
    ensures i <= a * n < i + 1.0 <==> i / n <= a < (i + 1.0) / n
  {
    var c := 1.0 / n;
    assert c * n == 1.0;
    if i <= a * n < i + 1.0 {
      MulMonotone(c, i, a * n);
      MulMonotoneStrict(c, a * n, i + 1.0);
      assert c * (a * n) == a;
    }
    if i / n <= a < (i + 1.0) / n {
      MulMonotone(n, i / n, a);
      MulMonotoneStrict(n, a, (i + 1.0) / n);
    }
  }

  /** Spoke i's sweep, shifted by the offset, is bin i of [0, 2*pi) cut
      into n equal bins: the scaled angle has floor i exactly there. */
  lemma ScaledBin(u: real, i: int, n: int)
    requires 1 <= n
    ensures 2.0 * PI * i as real / n as real <= u < 2.0 * PI * (i + 1) as real / n as real
            <==> (u / (2.0 * PI) * n as real).Floor == i
  {
    var nr := n as real;
    var a := u / (2.0 * PI);
    assert 2.0 * PI * i as real / nr == 2.0 * PI * (i as real / nr);
    assert 2.0 * PI * (i + 1) as real / nr == 2.0 * PI * ((i as real + 1.0) / nr);
    BinScale(a, i as real, nr);
  }

  /** Every spoke's sweep, before the offset, lies within [0, 2*pi]. */
  lemma SweepWithinTurn(i: int, n: int)
    requires 0 <= i < n
    ensures 0.0 <= 2.0 * PI * i as real / n as real
    ensures 2.0 * PI * (i + 1) as real / n as real <= 2.0 * PI
  {
    var nr := n as real;
    var c := 1.0 / nr;
    MulMonotone(c, (i + 1) as real, nr);
    assert c * (i + 1) as real == (i + 1) as real / nr;
    assert c * nr == 1.0;
    assert 2.0 * PI * (i + 1) as real / nr == 2.0 * PI * ((i + 1) as real / nr);
  }

  /** For an angle already in [0, 2*pi), the +8*pi and the remainder cancel. */
  lemma RemOfShifted(u: real)
    requires 0.0 <= u < 2.0 * PI
    ensures Rem(u + PI * 8.0, PI * 2.0) == u
  {
    var x := u + PI * 8.0;
    assert 4.0 <= x / (PI * 2.0) < 5.0;
    assert Trunc(x / (PI * 2.0)) == 4;
  }

  /** An angle inside spoke i's sweep, as the spoke renderer computes it
      from the same offset and section count, is hit-tested to spoke i:
      the renderer and the hit test agree on where each spoke is. */
  lemma SectionIndexMatchesSpoke(theta: real, angleOffset: real, numSections: int, i: int)
    requires 1 <= numSections && 0 <= i < numSections
    requires StartAngle(i, numSections, angleOffset) <= theta < EndAngle(i, numSections, angleOffset)
    ensures SectionIndexFromAngle(theta, angleOffset, numSections) == i
  {
    var u := theta + angleOffset;
    SweepWithinTurn(i, numSections);
    RemOfShifted(u);
    ScaledBin(u, i, numSections);
  }

  /** Conversely, the angle lies in the sweep of the spoke it is hit-tested
      to, once the whole turns the remainder removed are taken off. */
  lemma SectionIndexLandsInSpoke(theta: real, angleOffset: real, numSections: int)
    requires 1 <= numSections && 0.0 <= theta + angleOffset + PI * 8.0
    ensures var i := SectionIndexFromAngle(theta, angleOffset, numSections);
      var w := theta - 2.0 * PI * Turns(theta, angleOffset) as real;
      StartAngle(i, numSections, angleOffset) <= w < EndAngle(i, numSections, angleOffset)
  {
    var i := SectionIndexFromAngle(theta, angleOffset, numSections);
    var x := theta + angleOffset + PI * 8.0;
    var t := Rem(x, PI * 2.0);
    var q := Trunc(x / (PI * 2.0));
    assert t == x - PI * 2.0 * q as real;
    var n := numSections as real;
    var v := t / (2.0 * PI) * n;
    assert i as real <= v < (i + 1) as real;
    ScaledBin(t, i, numSections);
    var w := theta - 2.0 * PI * Turns(theta, angleOffset) as real;
    assert w == t - angleOffset;
  }

  /** A worked example: eight spokes, the default offset pi/2, and a cursor
      at angle 0 (three o'clock) select spoke 2. */
  lemma ThreeOClockOnEightSpokes()
    ensures SectionIndexFromAngle(0.0, PI * 0.5, 8) == 2
  {
    assert Rem(PI * 0.5 + PI * 8.0, PI * 2.0) == PI * 0.5;
  }

  // ---------------------------------------------------------------------
  // Cursor to section

  /** The angle getSectionIndexFromMouse derives from the offset to the
      centre: straight down or up on the vertical axis, and in the cursor's
      half-plane otherwise, within [-pi/2, 3pi/2] in all cases. */
  function MouseAngle(t: Trig, diffX: real, diffY: real): (r: real)
    ensures diffX == 0.0 && diffY > 0.0 ==> r == PI * 0.5
    ensures diffX == 0.0 && diffY <= 0.0 ==> r == PI * 1.5
    ensures AtanBounded(t) && 0.0 < diffX ==> -PI / 2.0 <= r <= PI / 2.0
    ensures AtanBounded(t) && diffX < 0.0 ==> PI / 2.0 <= r <= PI * 1.5
    ensures AtanBounded(t) ==> -PI / 2.0 <= r <= PI * 1.5
  {
    if diffX == 0.0 then
      if diffY > 0.0 then PI * 0.5 else PI * 1.5
    else
      t.atan(diffY / diffX) + if diffX < 0.0 then PI else 0.0
  }

  /** getSectionIndexFromMouse, with the distance test done on squared
      distances (BelowAgrees, AboveAgrees): -1 at the exact centre and
      outside [lower, upper], else the section of the cursor's angle. */
  function SectionIndexFromMouse(t: Trig, mouseX: int, mouseY: int, centerX: real, centerY: real,
                                 lower: real, upper: real, angleOffset: real, numSections: int): (r: int)
    ensures var dx, dy := mouseX as real - centerX, mouseY as real - centerY;
      && (dx == 0.0 && dy == 0.0 ==> r == -1)
      && (BelowRadius(dx * dx + dy * dy, lower) ==> r == -1)
      && (AboveRadius(dx * dx + dy * dy, upper) ==> r == -1)
      && (r != -1 ==> r == SectionIndexFromAngle(MouseAngle(t, dx, dy), angleOffset, numSections))
      && (!(dx == 0.0 && dy == 0.0) && !BelowRadius(dx * dx + dy * dy, lower)
          && !AboveRadius(dx * dx + dy * dy, upper)
          ==> r == SectionIndexFromAngle(MouseAngle(t, dx, dy), angleOffset, numSections))
  {
    var diffX := mouseX as real - centerX;
    var diffY := mouseY as real - centerY;
    if diffX == 0.0 && diffY == 0.0 then -1
    else
      var d2 := diffX * diffX + diffY * diffY;
      if BelowRadius(d2, lower) || AboveRadius(d2, upper) then -1
      else SectionIndexFromAngle(MouseAngle(t, diffX, diffY), angleOffset, numSections)
  }

  /** The hovered index is -1 or a valid spoke index, whenever atan keeps
      its range and the offset is not below -7.5*pi (the default is pi/2). */
  lemma SectionIndexFromMouseInRange(t: Trig, mouseX: int, mouseY: int, centerX: real, centerY: real,
                                     lower: real, upper: real, angleOffset: real, numSections: int)
    requires AtanBounded(t) && 1 <= numSections && -PI * 7.5 <= angleOffset
    ensures -1 <= SectionIndexFromMouse(t, mouseX, mouseY, centerX, centerY, lower, upper,
                                        angleOffset, numSections) < numSections
  {
  }

  /** With the bounds initConsts derives (lower = max(0.1 * R, inner),
      upper = 1.1 * R), a cursor off the centre at exactly the wheel's
      radius R is over some spoke. */
  lemma RimIsSelectable(t: Trig, mouseX: int, mouseY: int, centerX: real, centerY: real,
                        outerRadius: real, innerRadius: real, angleOffset: real, numSections: int)
    requires AtanBounded(t) && 1 <= numSections && -PI * 7.5 <= angleOffset
    requires 0.0 < outerRadius && innerRadius <= outerRadius
    requires var dx, dy := mouseX as real - centerX, mouseY as real - centerY;
      dx * dx + dy * dy == outerRadius * outerRadius
    ensures var lower := if outerRadius * 0.1 > innerRadius then outerRadius * 0.1 else innerRadius;
      0 <= SectionIndexFromMouse(t, mouseX, mouseY, centerX, centerY, lower, outerRadius * 1.1,
                                 angleOffset, numSections) < numSections
  {
    var dx, dy := mouseX as real - centerX, mouseY as real - centerY;
    var lower := if outerRadius * 0.1 > innerRadius then outerRadius * 0.1 else innerRadius;
    var d2 := dx * dx + dy * dy;
    SquareStrict(0.0, outerRadius);
    assert 0.0 < d2;
    assert dx == 0.0 && dy == 0.0 ==> d2 == 0.0;
    assert !BelowRadius(d2, lower) by {
      if 0.0 < lower {
        SquareWeak(lower, outerRadius);
      }
    }
    assert !AboveRadius(d2, outerRadius * 1.1) by {
      SquareWeak(outerRadius, outerRadius * 1.1);
    }
  }
}
