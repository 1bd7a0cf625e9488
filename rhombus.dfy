/**
 * Rhombus<T>: a center, two diagonal lengths and a rotation angle (radians,
 * default 0). Diagonal d1 lies along the rotated x axis, d2 along the
 * rotated y axis.
 */
module Rhombi {
  import opened CMath
  import opened Points

  datatype Rhombus = Rhombus(center: Point, d1: real, d2: real, angle: real := 0.0)

  /** The angle tolerance of equals(): 1e-9. */
  const AngleTolerance: real := 0.000000001

  /** center(): the stored center. */
  function Center(r: Rhombus): Point {
    r.center
  }

  /** The constructor keeps its arguments, and the angle defaults to 0. */
  lemma ConstructorDefaults(c: Point, d1: real, d2: real)
    ensures Rhombus(c, d1, d2).angle == 0.0
    ensures Center(Rhombus(c, d1, d2)) == c
    ensures Rhombus(c, d1, d2).d1 == d1 && Rhombus(c, d1, d2).d2 == d2
  {
  }

  /** area(): half the product of the diagonals. */
  function Area(r: Rhombus): real {
    r.d1 * r.d2 / 2.0
  }

  /** Rotating a rhombus does not change its area. */
  lemma AreaIgnoresAngle(r: Rhombus, a: real)
    ensures Area(r.(angle := a)) == Area(r)
  {
  }

  /**
   * The rhombus of the tests, diagonals 6 and 8, has area 24 at angle 0 and
   * at any other angle.
   */
  lemma SampleArea(a: real)
    ensures Area(Rhombus(Point(), 6.0, 8.0)) == 24.0
    ensures Area(Rhombus(Point(), 6.0, 8.0, a)) == 24.0
  {
  }

  /** The diagonals are not checked: one negative diagonal gives a negative area. */
  lemma NegativeDiagonalArea()
    ensures Area(Rhombus(Point(), -6.0, 8.0)) == -24.0
  {
  }

  /** With two positive diagonals the area is positive. */
  lemma AreaPositive(r: Rhombus)
    requires 0.0 < r.d1 && 0.0 < r.d2
    ensures 0.0 < Area(r)
  {
    ProductPositive(r.d1, r.d2);
    assert Product(r.d1, r.d2) == r.d1 * r.d2;
  }

  /**
   * vertices(): the ends of the first diagonal and then of the second,
   * turned by the angle, in the order v0, v1, v2, v3 of the source.
   */
  function Vertices(r: Rhombus, m: Libm): (vs: seq<Point>)
    ensures |vs| == 4
  {
    var cosA := m.cos(r.angle);
    var sinA := m.sin(r.angle);
    var c := r.center;
    [ Point(c.x + r.d1 / 2.0 * cosA, c.y + r.d1 / 2.0 * sinA),
      Point(c.x - r.d2 / 2.0 * sinA, c.y + r.d2 / 2.0 * cosA),
      Point(c.x - r.d1 / 2.0 * cosA, c.y - r.d1 / 2.0 * sinA),
      Point(c.x + r.d2 / 2.0 * sinA, c.y - r.d2 / 2.0 * cosA) ]
  }

  /**
   * Whatever cos and sin return, the center is the midpoint of v0 and v2
   * and of v1 and v3: the vertices are the ends of two diagonals through it.
   */
  lemma CenterBisectsDiagonals(r: Rhombus, m: Libm)
    ensures var vs := Vertices(r, m);
            Div(Add(vs[0], vs[2]), 2.0) == Center(r) &&
            Div(Add(vs[1], vs[3]), 2.0) == Center(r)
  {
    var vs := Vertices(r, m);
    var hx, hy := r.d1 / 2.0 * m.cos(r.angle), r.d1 / 2.0 * m.sin(r.angle);
    var kx, ky := r.d2 / 2.0 * m.sin(r.angle), r.d2 / 2.0 * m.cos(r.angle);
    assert vs[0] == Point(r.center.x + hx, r.center.y + hy);
    assert vs[2] == Point(r.center.x - hx, r.center.y - hy);
    assert vs[1] == Point(r.center.x - kx, r.center.y + ky);
    assert vs[3] == Point(r.center.x + kx, r.center.y - ky);
  }

  /** Unrotated, the vertices lie on the axes through the center. */
  lemma VerticesAtZeroAngle(r: Rhombus, m: Libm)
    requires m.cos(0.0) == 1.0 && m.sin(0.0) == 0.0
    requires r.angle == 0.0
    ensures Vertices(r, m) ==
            [ Point(r.center.x + r.d1 / 2.0, r.center.y),
              Point(r.center.x, r.center.y + r.d2 / 2.0),
              Point(r.center.x - r.d1 / 2.0, r.center.y),
              Point(r.center.x, r.center.y - r.d2 / 2.0) ]
  {
    var vs := Vertices(r, m);
    assert vs[0] == Point(r.center.x + r.d1 / 2.0 * 1.0, r.center.y + r.d1 / 2.0 * 0.0);
    assert vs[1] == Point(r.center.x - r.d2 / 2.0 * 0.0, r.center.y + r.d2 / 2.0 * 1.0);
    assert vs[2] == Point(r.center.x - r.d1 / 2.0 * 1.0, r.center.y - r.d1 / 2.0 * 0.0);
    assert vs[3] == Point(r.center.x + r.d2 / 2.0 * 0.0, r.center.y - r.d2 / 2.0 * 1.0);
  }

  /**
   * equals() against another rhombus: exact center and diagonals, and
   * angles closer than the tolerance.
   */
  function Equals(r: Rhombus, o: Rhombus): bool {
    Eq(r.center, o.center) && r.d1 == o.d1 && r.d2 == o.d2 &&
    Abs(r.angle - o.angle) < AngleTolerance
  }

  /** Equal rhombi differ at most in their angle, and by less than the tolerance. */
  lemma EqualsIff(r: Rhombus, o: Rhombus)
    ensures Equals(r, o) <==>
            r.(angle := o.angle) == o && -AngleTolerance < r.angle - o.angle < AngleTolerance
  {
  }

  /** The comparison is reflexive and symmetric. */
  lemma EqualsReflexiveSymmetric(r: Rhombus, o: Rhombus)
    ensures Equals(r, r)
    ensures Equals(r, o) == Equals(o, r)
  {
    assert Abs(r.angle - o.angle) == Abs(o.angle - r.angle);
  }

  /**
   * The tolerance makes the comparison non-transitive: three rhombi whose
   * angles are 0, 6e-10 and 1.2e-9 apart.
   */
  lemma EqualsNotTransitive()
    ensures var a, b, c := Rhombus(Point(), 6.0, 8.0, 0.0),
                           Rhombus(Point(), 6.0, 8.0, 0.0000000006),
                           Rhombus(Point(), 6.0, 8.0, 0.0000000012);
            Equals(a, b) && Equals(b, c) && !Equals(a, c)
  {
  }

  /** clone() and the copy constructor and assignment: all four fields kept. */
  function Clone(r: Rhombus): (c: Rhombus)
    ensures c.center == r.center && c.d1 == r.d1 && c.d2 == r.d2 && c.angle == r.angle
  {
    Rhombus(r.center, r.d1, r.d2, r.angle)
  }

  /** A clone compares equal to its original and has the same area. */
  lemma CloneEqualsOriginal(r: Rhombus)
    ensures Equals(Clone(r), r) && Equals(r, Clone(r))
    ensures Area(Clone(r)) == Area(r)
  {
    EqualsReflexiveSymmetric(r, r);
  }
}
