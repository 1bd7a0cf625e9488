/**
 * Trapezoid<T>: four stored corners in the caller's winding order. The side
 * p0p1 and the side p2p3 are taken to be the parallel sides, and the height
 * is measured vertically between p0 and p2; neither is checked.
 */
module Trapezoids {
  import opened CMath
  import opened Points

  datatype Trapezoid = Trapezoid(p0: Point, p1: Point, p2: Point, p3: Point)
  {
    /** The stored vector of corners. */
    function Corners(): (cs: seq<Point>)
      ensures |cs| == 4
    {
      [p0, p1, p2, p3]
    }
  }

  /** The trapezoid with corner i replaced by p. */
  function ReplaceCorner(t: Trapezoid, i: nat, p: Point): (r: Trapezoid)
    requires i < 4
    ensures r.Corners()[i] == p
    ensures forall j :: 0 <= j < 4 && j != i ==> r.Corners()[j] == t.Corners()[j]
  {
    match i
    case 0 => t.(p0 := p)
    case 1 => t.(p1 := p)
    case 2 => t.(p2 := p)
    case _ => t.(p3 := p)
  }

  /** The copy constructor: a fresh vector holding copies of the corners. */
  method Copy(t: Trapezoid) returns (r: Trapezoid)
    ensures r.Corners() == t.Corners()
  {
    var source := t.Corners();
    var copied: seq<Point> := [];
    for i := 0 to |source|
      invariant copied == source[..i]
    {
      copied := copied + [source[i]];
    }
    r := Trapezoid(copied[0], copied[1], copied[2], copied[3]);
  }

  /** clone(): a trapezoid built by the copy constructor. */
  function Clone(t: Trapezoid): (r: Trapezoid)
    ensures r.Corners() == t.Corners()
  {
    Trapezoid(t.p0, t.p1, t.p2, t.p3)
  }

  /** Component-wise sum of a sequence of points, accumulated left to right. */
  function SumPoints(ps: seq<Point>): Point {
    if ps == [] then Point(0.0, 0.0) else Add(SumPoints(ps[..|ps| - 1]), ps[|ps| - 1])
  }

  /** center(): the summed corners divided by 4. */
  function Center(t: Trapezoid): Point {
    Div(SumPoints(t.Corners()), 4.0)
  }

  /** The accumulation loop of center(). */
  method ComputeCenter(t: Trapezoid) returns (c: Point)
    ensures c == Center(t)
  {
    var corners := t.Corners();
    var sumX, sumY := 0.0, 0.0;
    for i := 0 to |corners|
      invariant Point(sumX, sumY) == SumPoints(corners[..i])
    {
      assert corners[..i + 1][..i] == corners[..i];
      sumX := sumX + corners[i].x;
      sumY := sumY + corners[i].y;
    }
    assert corners[..|corners|] == corners;
    c := Point(sumX / 4.0, sumY / 4.0);
  }

  /** The center is the arithmetic mean of the four corners. */
  lemma CenterIsMean(t: Trapezoid)
    ensures Center(t) == Point((t.p0.x + t.p1.x + t.p2.x + t.p3.x) / 4.0,
                               (t.p0.y + t.p1.y + t.p2.y + t.p3.y) / 4.0)
  {
    var cs := t.Corners();
    assert cs[..3] == [t.p0, t.p1, t.p2];
    assert [t.p0, t.p1, t.p2][..2] == [t.p0, t.p1];
    assert [t.p0, t.p1][..1] == [t.p0];
    assert [t.p0][..0] == [];
    assert SumPoints([t.p0]) == Add(Point(0.0, 0.0), t.p0);
    assert SumPoints([t.p0, t.p1]) == Add(SumPoints([t.p0]), t.p1);
    assert SumPoints([t.p0, t.p1, t.p2]) == Add(SumPoints([t.p0, t.p1]), t.p2);
    assert SumPoints(cs) == Add(SumPoints([t.p0, t.p1, t.p2]), t.p3);
  }

  /** The offsets of the four corners from the center cancel out. */
  lemma CenterBalancesCorners(t: Trapezoid)
    ensures var c := Center(t);
            Add(Add(Add(Sub(t.p0, c), Sub(t.p1, c)), Sub(t.p2, c)), Sub(t.p3, c)) == Point(0.0, 0.0)
  {
    CenterIsMean(t);
  }

  /** area(): the mean of the two parallel sides times the vertical height. */
  function Area(t: Trapezoid, m: Libm): real {
    var a := Distance(t.p0, t.p1, m);
    var b := Distance(t.p2, t.p3, m);
    var h := Abs(t.p0.y - t.p2.y);
    (a + b) * h / 2.0
  }

  /** The area is never negative. */
  lemma AreaNonNegative(t: Trapezoid, m: Libm)
    requires m.SqrtLaws()
    ensures 0.0 <= Area(t, m)
  {
    var a := Distance(t.p0, t.p1, m);
    var b := Distance(t.p2, t.p3, m);
    var h := Abs(t.p0.y - t.p2.y);
    DistanceSymmetric(t.p0, t.p1, m);
    DistanceSymmetric(t.p2, t.p3, m);
    ProductNonNegative(a + b, h);
    assert Product(a + b, h) == (a + b) * h;
  }

  /**
   * A trapezoid with a parallel side of positive length and a positive
   * height has a positive area.
   */
  lemma AreaPositive(t: Trapezoid, m: Libm)
    requires m.SqrtLaws()
    requires t.p0 != t.p1 || t.p2 != t.p3
    requires t.p0.y != t.p2.y
    ensures 0.0 < Area(t, m)
  {
    var a := Distance(t.p0, t.p1, m);
    var b := Distance(t.p2, t.p3, m);
    var h := Abs(t.p0.y - t.p2.y);
    DistanceSymmetric(t.p0, t.p1, m);
    DistanceSymmetric(t.p2, t.p3, m);
    DistanceZeroIff(t.p0, t.p1, m);
    DistanceZeroIff(t.p2, t.p3, m);
    ProductPositive(a + b, h);
    assert Product(a + b, h) == (a + b) * h;
  }

  /** vertices(): copies of the four stored corners, in stored order. */
  function Vertices(t: Trapezoid): (vs: seq<Point>)
    ensures |vs| == 4
    ensures forall i :: 0 <= i < 4 ==> vs[i] == t.Corners()[i]
  {
    [t.p0, t.p1, t.p2, t.p3]
  }

  /** The comparison equals() makes: corner by corner, in order. */
  predicate SameCorners(t: Trapezoid, o: Trapezoid) {
    forall i :: 0 <= i < 4 ==> Eq(t.Corners()[i], o.Corners()[i])
  }

  /** The loop of equals() for another trapezoid, with its early returns. */
  method Equals(t: Trapezoid, o: Trapezoid) returns (eq: bool)
    ensures eq == SameCorners(t, o)
  {
    var mine, theirs := t.Corners(), o.Corners();
    if |mine| != |theirs| {
      return false;
    }
    for i := 0 to |mine|
      invariant forall j :: 0 <= j < i ==> Eq(mine[j], theirs[j])
    {
      if Neq(mine[i], theirs[i]) {
        return false;
      }
    }
    return true;
  }

  /** Two trapezoids compare equal exactly when they have the same corners. */
  lemma SameCornersIff(t: Trapezoid, o: Trapezoid)
    ensures SameCorners(t, o) <==> t == o
  {
    if SameCorners(t, o) {
      assert Eq(t.Corners()[0], o.Corners()[0]) && Eq(t.Corners()[1], o.Corners()[1]);
      assert Eq(t.Corners()[2], o.Corners()[2]) && Eq(t.Corners()[3], o.Corners()[3]);
    }
  }

  /** Moving any one corner makes the comparison fail. */
  lemma MovedCornerBreaksEquality(t: Trapezoid, i: nat, p: Point)
    requires i < 4 && p != t.Corners()[i]
    ensures !SameCorners(t, ReplaceCorner(t, i, p))
  {
    assert !Eq(t.Corners()[i], ReplaceCorner(t, i, p).Corners()[i]);
  }

  /** The trapezoid of the tests: corners (0,0), (4,0), (3,3), (1,3). */
  function Sample(): Trapezoid {
    Trapezoid(Point(0.0, 0.0), Point(4.0, 0.0), Point(3.0, 3.0), Point(1.0, 3.0))
  }

  lemma SampleCenter()
    ensures Center(Sample()) == Point(2.0, 1.5)
  {
    CenterIsMean(Sample());
  }

  /** Its parallel sides have lengths 4 and 2 ... */
  lemma SampleSides(m: Libm)
    requires m.SqrtLaws()
    ensures Distance(Sample().p0, Sample().p1, m) == 4.0
    ensures Distance(Sample().p2, Sample().p3, m) == 2.0
  {
    var t := Sample();
    DistanceAlongAxis(t.p0, t.p1, m);
    DistanceAlongAxis(t.p2, t.p3, m);
  }

  /** ... and its height is 3, so its area is 9. */
  lemma SampleArea(m: Libm)
    requires m.SqrtLaws()
    ensures Area(Sample(), m) == 9.0
  {
    SampleSides(m);
  }

  /** The trapezoid moved by the offset d. */
  function Translate(t: Trapezoid, d: Point): Trapezoid {
    Trapezoid(Add(t.p0, d), Add(t.p1, d), Add(t.p2, d), Add(t.p3, d))
  }

  /** Moving a trapezoid moves its center by the same offset and keeps its area. */
  lemma TranslateMovesCenterKeepsArea(t: Trapezoid, d: Point, m: Libm)
    ensures Center(Translate(t, d)) == Add(Center(t), d)
    ensures Area(Translate(t, d), m) == Area(t, m)
  {
    var u := Translate(t, d);
    CenterIsMean(t);
    CenterIsMean(u);
    assert SquaredDistance(u.p0, u.p1) == SquaredDistance(t.p0, t.p1);
    assert SquaredDistance(u.p2, u.p3) == SquaredDistance(t.p2, t.p3);
  }

  /** The second trapezoid of the tests: the first one moved by (5, 5). */
  function ShiftedSample(): Trapezoid {
    Translate(Sample(), Point(5.0, 5.0))
  }

  lemma ShiftedSampleCorners()
    ensures ShiftedSample() ==
            Trapezoid(Point(5.0, 5.0), Point(9.0, 5.0), Point(8.0, 8.0), Point(6.0, 8.0))
  {
  }

  /** Moving keeps the area at 9. */
  lemma ShiftedSampleArea(m: Libm)
    requires m.SqrtLaws()
    ensures Area(ShiftedSample(), m) == 9.0
  {
    TranslateMovesCenterKeepsArea(Sample(), Point(5.0, 5.0), m);
    SampleArea(m);
  }
}
