/**
 * Figure<T>: the common interface of the three shapes. The virtual dispatch
 * and the dynamic_cast in equals() become a match on the variant.
 */
module Figures {
  import opened CMath
  import opened Points
  import Trapezoids
  import Rhombi
  import Pentagons

  datatype Shape =
    | Trapezoid(trapezoid: Trapezoids.Trapezoid)
    | Rhombus(rhombus: Rhombi.Rhombus)
    | Pentagon(pentagon: Pentagons.Pentagon)

  /** center(). */
  function Center(s: Shape): Point {
    match s
    case Trapezoid(t) => Trapezoids.Center(t)
    case Rhombus(r) => Rhombi.Center(r)
    case Pentagon(p) => Pentagons.Center(p)
  }

  /** area(); only the pentagon needs tan(pi/5) to be non-zero. */
  function Area(s: Shape, m: Libm): real
    requires m.tan(PI / 5.0) != 0.0
  {
    match s
    case Trapezoid(t) => Trapezoids.Area(t, m)
    case Rhombus(r) => Rhombi.Area(r)
    case Pentagon(p) => Pentagons.Area(p, m)
  }

  /** vertices(): four corners for the quadrilaterals, five for the pentagon. */
  function Vertices(s: Shape, m: Libm): (vs: seq<Point>)
    ensures |vs| == if s.Pentagon? then 5 else 4
  {
    match s
    case Trapezoid(t) => Trapezoids.Vertices(t)
    case Rhombus(r) => Rhombi.Vertices(r, m)
    case Pentagon(p) => Pentagons.Vertices(p, m)
  }

  /** operator double: the numeric value of a figure is its area. */
  function ToDouble(s: Shape, m: Libm): (r: real)
    requires m.tan(PI / 5.0) != 0.0
    ensures r == Area(s, m)
  {
    Area(s, m)
  }

  /** equals(): a per-variant comparison; figures of different variants never compare equal. */
  function Equals(s: Shape, o: Shape): bool {
    match (s, o)
    case (Trapezoid(a), Trapezoid(b)) => Trapezoids.SameCorners(a, b)
    case (Rhombus(a), Rhombus(b)) => Rhombi.Equals(a, b)
    case (Pentagon(a), Pentagon(b)) => Pentagons.Equals(a, b)
    case _ => false
  }

  /** clone(): a copy of the figure as a new handle. */
  function Clone(s: Shape): (c: Shape)
    ensures c == s
  {
    match s
    case Trapezoid(t) => Trapezoid(Trapezoids.Clone(t))
    case Rhombus(r) => Rhombus(Rhombi.Clone(r))
    case Pentagon(p) => Pentagon(Pentagons.Clone(p))
  }

  /** Both figures are of the same variant. */
  predicate SameVariant(s: Shape, o: Shape) {
    (s.Trapezoid? && o.Trapezoid?) || (s.Rhombus? && o.Rhombus?) || (s.Pentagon? && o.Pentagon?)
  }

  /** Figures of different variants never compare equal. */
  lemma EqualsAcrossVariants(s: Shape, o: Shape)
    ensures Equals(s, o) ==> SameVariant(s, o)
  {
  }

  /** Every figure equals itself, and the comparison is symmetric. */
  lemma EqualsReflexiveSymmetric(s: Shape, o: Shape)
    ensures Equals(s, s)
    ensures Equals(s, o) == Equals(o, s)
  {
    match (s, o)
    case (Trapezoid(a), Trapezoid(b)) =>
      Trapezoids.SameCornersIff(a, a);
      Trapezoids.SameCornersIff(a, b);
      Trapezoids.SameCornersIff(b, a);
    case (Rhombus(a), Rhombus(b)) =>
      Rhombi.EqualsReflexiveSymmetric(a, b);
    case (Trapezoid(a), _) =>
      Trapezoids.SameCornersIff(a, a);
    case (Rhombus(a), _) =>
      Rhombi.EqualsReflexiveSymmetric(a, a);
    case _ =>
  }

  /** Trapezoids and pentagons compare equal exactly when they are the same value. */
  lemma EqualsIffSameValue(s: Shape, o: Shape)
    requires !s.Rhombus?
    ensures Equals(s, o) <==> s == o
  {
    match (s, o)
    case (Trapezoid(a), Trapezoid(b)) => Trapezoids.SameCornersIff(a, b);
    case (Pentagon(a), Pentagon(b)) => Pentagons.EqualsIff(a, b);
    case _ =>
  }

  /** A clone equals its original, and has the same area, center and vertices. */
  lemma CloneRoundTrip(s: Shape, m: Libm)
    requires m.tan(PI / 5.0) != 0.0
    ensures Equals(Clone(s), s) && Equals(s, Clone(s))
    ensures Area(Clone(s), m) == Area(s, m)
    ensures Center(Clone(s)) == Center(s) && Vertices(Clone(s), m) == Vertices(s, m)
  {
    EqualsReflexiveSymmetric(s, s);
  }

  /**
   * Positive dimensions: a trapezoid with a parallel side of positive length
   * and non-zero height, a rhombus with positive diagonals, a pentagon with a
   * positive radius.
   */
  predicate NonDegenerate(s: Shape) {
    match s
    case Trapezoid(t) => (t.p0 != t.p1 || t.p2 != t.p3) && t.p0.y != t.p2.y
    case Rhombus(r) => 0.0 < r.d1 && 0.0 < r.d2
    case Pentagon(p) => 0.0 < p.radius
  }

  /** A figure with positive dimensions has a positive area and some vertices. */
  lemma NonDegenerateHasArea(s: Shape, m: Libm)
    requires m.Lawful() && NonDegenerate(s)
    ensures 0.0 < Area(s, m) && 0.0 < ToDouble(s, m)
    ensures 0 < |Vertices(s, m)|
  {
    match s
    case Trapezoid(t) => Trapezoids.AreaPositive(t, m);
    case Rhombus(r) => Rhombi.AreaPositive(r);
    case Pentagon(p) => Pentagons.AreaPositive(p, m);
  }

  /** The area of any figure is never negative once its dimensions are. */
  lemma AreaNonNegative(s: Shape, m: Libm)
    requires m.Lawful()
    requires s.Rhombus? ==> 0.0 <= s.rhombus.d1 && 0.0 <= s.rhombus.d2
    ensures 0.0 <= Area(s, m)
  {
    match s
    case Trapezoid(t) => Trapezoids.AreaNonNegative(t, m);
    case Rhombus(r) =>
      ProductNonNegative(r.d1, r.d2);
      assert Product(r.d1, r.d2) == r.d1 * r.d2;
    case Pentagon(p) =>
      if p.radius != 0.0 {
        Pentagons.AreaPositive(p, m);
      } else {
        Pentagons.AreaIsQuadratic(p, m);
      }
  }
}
