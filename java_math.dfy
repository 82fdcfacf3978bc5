/** The numeric environment of the wheel: Java's Math.PI, the truncating
    remainder that Java's `%` computes on doubles, and the trigonometric
    functions the source calls, which this model leaves uninterpreted.
    Doubles are idealised as reals throughout. */
module JavaMath {

  /** Math.PI, written out as a decimal. */
  const PI: real := 3.141592653589793

  /** Math.sin, Math.cos and Math.atan, supplied by the host. Nothing is
      assumed about sin and cos; atan is assumed to stay in its range
      where that matters (see AtanBounded). */
  datatype Trig = Trig(sin: real -> real, cos: real -> real, atan: real -> real)

  /** Math.atan returns an angle in [-pi/2, pi/2]. */
  ghost predicate AtanBounded(t: Trig) {
    forall x: real :: -PI / 2.0 <= t.atan(x) <= PI / 2.0
  }

  /** Rounding toward zero, as Java's integer quotient and `%` do. */
  function Trunc(x: real): (q: int)
    ensures 0.0 <= x ==> q as real <= x < q as real + 1.0
    ensures x < 0.0 ==> q as real - 1.0 < x <= q as real
  {
    if x >= 0.0 then x.Floor else -((-x).Floor)
  }

  /** `x % m` on Java doubles: the remainder keeps the sign of the
      dividend (it is not Dafny's Euclidean remainder). */
  function Rem(x: real, m: real): (r: real)
    requires m > 0.0
    ensures 0.0 <= x ==> 0.0 <= r < m
    ensures x < 0.0 ==> -m < r <= 0.0
    ensures exists k: int :: WholeTurnsOff(r, x, m, k)
  {
    var d := x / m;
    var q := Trunc(d);
    var qr := q as real;
    assert m * d == x;
    RemBounds(x, m, d, qr);
    assert WholeTurnsOff(x - m * qr, x, m, q);
    x - m * qr
  }

  /** `r` is `x` less `k` whole times `m`. */
  predicate WholeTurnsOff(r: real, x: real, m: real, k: int) {
    r == x - m * k as real
  }

  /** x - m * q, for the truncated quotient q of x by a positive m, lies
      between 0 and m on the side of x's sign. */
  lemma RemBounds(x: real, m: real, d: real, qr: real)
    requires m > 0.0 && m * d == x
    requires 0.0 <= d ==> qr <= d < qr + 1.0
    requires d < 0.0 ==> qr - 1.0 < d <= qr
    ensures 0.0 <= x ==> 0.0 <= x - m * qr < m
    ensures x < 0.0 ==> -m < x - m * qr <= 0.0
  {
    SameSign(m, d);
    if 0.0 <= d {
      MulMonotone(m, qr, d);
      MulMonotoneStrict(m, d, qr + 1.0);
      Distrib(m, qr, 1.0);
      assert m * qr <= m * d;
      assert m * d < m * (qr + 1.0);
      assert m * (qr + 1.0) == m * qr + m * 1.0;
      assert m * 1.0 == m;
      assert x < m * qr + m;
      assert 0.0 <= x - m * qr;
    } else {
      MulMonotoneStrict(m, qr - 1.0, d);
      MulMonotone(m, d, qr);
      Distrib(m, qr, -1.0);
      assert m * (qr - 1.0) < m * d;
      assert m * d <= m * qr;
      assert m * (qr + -1.0) == m * qr + m * -1.0;
      assert m * -1.0 == -m;
      assert m * qr - m < x;
      assert x - m * qr <= 0.0;
    }
  }

  /** A positive factor keeps the sign of the other. */
  lemma SameSign(m: real, d: real)
    requires m > 0.0
    ensures 0.0 <= m * d <==> 0.0 <= d
  {
    if 0.0 <= d {
      MulMonotone(m, 0.0, d);
    } else {
      MulMonotoneStrict(m, d, 0.0);
    }
  }

  lemma Distrib(m: real, a: real, c: real)
    ensures m * (a + c) == m * a + m * c
  {
  }

  lemma MulMonotone(m: real, a: real, b: real)
    requires m > 0.0 && a <= b
    ensures m * a <= m * b
  {
  }

  lemma MulMonotoneStrict(m: real, a: real, b: real)
    requires m > 0.0 && a < b
    ensures m * a < m * b
  {
  }

  /** `Math.sqrt(d2) < bound` without the square root: for a distance
      `dist >= 0` with `dist * dist == d2` the two agree (BelowAgrees). */
  predicate BelowRadius(d2: real, bound: real) {
    0.0 < bound && d2 < bound * bound
  }

  /** `Math.sqrt(d2) > bound` without the square root (AboveAgrees). */
  predicate AboveRadius(d2: real, bound: real) {
    bound < 0.0 || bound * bound < d2
  }

  lemma BelowAgrees(dist: real, d2: real, bound: real)
    requires 0.0 <= dist && dist * dist == d2
    ensures dist < bound <==> BelowRadius(d2, bound)
  {
    if dist < bound {
      SquareStrict(dist, bound);
    } else if 0.0 < bound {
      SquareWeak(bound, dist);
    }
  }

  lemma AboveAgrees(dist: real, d2: real, bound: real)
    requires 0.0 <= dist && dist * dist == d2
    ensures dist > bound <==> AboveRadius(d2, bound)
  {
    if 0.0 <= bound {
      if bound < dist {
        SquareStrict(bound, dist);
      } else {
        SquareWeak(dist, bound);
      }
    }
  }

  /** Squaring is strictly monotone on non-negative reals. */
  lemma SquareStrict(a: real, b: real)
    requires 0.0 <= a < b
    ensures a * a < b * b
  {
    var ab := a * b;
    assert a * a <= ab;
    assert ab < b * b;
  }

  lemma SquareWeak(a: real, b: real)
    requires 0.0 <= a <= b
    ensures a * a <= b * b
  {
    if a < b {
      SquareStrict(a, b);
    }
  }
}
