/**
 * Pentagon<T>: a regular pentagon given by its center and circumradius, with
 * its first vertex on the positive x axis.
 */
module Pentagons {
  import opened CMath
  import opened Points

  datatype Pentagon = Pentagon(center: Point, radius: real)

  /** center(): the stored center. */
  function Center(p: Pentagon): Point {
    p.center
  }

  /** The side length, 2 r sin(pi/5). */
  function Side(p: Pentagon, m: Libm): real {
    2.0 * p.radius * m.sin(PI / 5.0)
  }

  /** area(): (5/4) side^2 cot(pi/5). */
  function Area(p: Pentagon, m: Libm): real
    requires m.tan(PI / 5.0) != 0.0
  {
    var side := Side(p, m);
    (5.0 / 4.0) * side * side * (1.0 / m.tan(PI / 5.0))
  }

  /** The factor K of area() = K r^2: 5 sin^2(pi/5) / tan(pi/5). */
  function AreaFactor(m: Libm): real
    requires m.tan(PI / 5.0) != 0.0
  {
    5.0 * Square(m.sin(PI / 5.0)) / m.tan(PI / 5.0)
  }

  /** The factor is positive. */
  lemma AreaFactorPositive(m: Libm)
    requires m.sin(PI / 5.0) > 0.0 && m.tan(PI / 5.0) > 0.0
    ensures 0.0 < AreaFactor(m)
  {
    var s, t := m.sin(PI / 5.0), m.tan(PI / 5.0);
    SquareSign(s);
    ProductPositive(5.0 * Square(s), 1.0 / t);
    assert Product(5.0 * Square(s), 1.0 / t) == AreaFactor(m);
  }

  /** The area depends on the radius alone, as K r^2. */
  lemma AreaIsQuadratic(p: Pentagon, m: Libm)
    requires m.tan(PI / 5.0) != 0.0
    ensures Area(p, m) == AreaFactor(m) * Square(p.radius)
  {
    var r, s, t := p.radius, m.sin(PI / 5.0), m.tan(PI / 5.0);
    var side := Side(p, m);
    calc {
      Area(p, m);
      (5.0 / 4.0) * side * side * (1.0 / t);
      { assert side * side == 4.0 * (Square(r) * Square(s)); }
      5.0 * (Square(r) * Square(s)) * (1.0 / t);
      AreaFactor(m) * Square(r);
    }
  }

  /** A pentagon with a non-zero radius has a positive area. */
  lemma AreaPositive(p: Pentagon, m: Libm)
    requires m.sin(PI / 5.0) > 0.0 && m.tan(PI / 5.0) > 0.0
    requires p.radius != 0.0
    ensures 0.0 < Area(p, m)
  {
    AreaIsQuadratic(p, m);
    AreaFactorPositive(m);
    SquareSign(p.radius);
    ProductPositive(AreaFactor(m), Square(p.radius));
    assert Product(AreaFactor(m), Square(p.radius)) == AreaFactor(m) * Square(p.radius);
  }

  /** The angle of vertex i, 2 pi i / 5. */
  function VertexAngle(i: nat): real {
    2.0 * PI * (i as real) / 5.0
  }

  /** Vertex i: at the vertex angle, at distance radius from the center. */
  function Vertex(p: Pentagon, m: Libm, i: nat): Point {
    var angle := VertexAngle(i);
    Point(p.center.x + p.radius * m.cos(angle), p.center.y + p.radius * m.sin(angle))
  }

  /** The five vertices in order of increasing angle. */
  function Vertices(p: Pentagon, m: Libm): (vs: seq<Point>)
    ensures |vs| == 5
    ensures forall i :: 0 <= i < 5 ==> vs[i] == Vertex(p, m, i)
  {
    seq(5, i requires 0 <= i => Vertex(p, m, i))
  }

  /** The loop of vertices(): one vertex per step, i from 0 to 4. */
  method ComputeVertices(p: Pentagon, m: Libm) returns (vs: seq<Point>)
    ensures vs == Vertices(p, m)
  {
    vs := [];
    for i := 0 to 5
      invariant |vs| == i
      invariant forall j :: 0 <= j < i ==> vs[j] == Vertex(p, m, j)
    {
      vs := vs + [Vertex(p, m, i)];
    }
  }

  /** The first vertex is (cx + r, cy). */
  lemma FirstVertex(p: Pentagon, m: Libm)
    requires m.cos(0.0) == 1.0 && m.sin(0.0) == 0.0
    ensures Vertices(p, m)[0] == Point(p.center.x + p.radius, p.center.y)
  {
    assert VertexAngle(0) == 0.0;
    assert Vertex(p, m, 0) == Point(p.center.x + p.radius * 1.0, p.center.y + p.radius * 0.0);
  }

  /** Every vertex lies at distance |radius| from the center. */
  lemma VertexOnCircumcircle(p: Pentagon, m: Libm, i: nat)
    requires m.SqrtLaws()
    requires m.PythagorasAt(VertexAngle(i))
    ensures Distance(p.center, Vertex(p, m, i), m) == Abs(p.radius)
  {
    var r, c, s := p.radius, m.cos(VertexAngle(i)), m.sin(VertexAngle(i));
    calc {
      SquaredDistance(p.center, Vertex(p, m, i));
      Square(-(r * c)) + Square(-(r * s));
      { assert Square(-(r * c)) == Square(r) * Square(c);
        assert Square(-(r * s)) == Square(r) * Square(s); }
      Square(r) * (Square(s) + Square(c));
      Square(r);
      { SquareAbs(r); }
      Square(Abs(r));
    }
    assert m.SqrtLawAt(Abs(r));
  }

  /** With the library's laws, all five vertices lie on the circumcircle. */
  lemma VerticesOnCircumcircle(p: Pentagon, m: Libm)
    requires m.Lawful()
    ensures forall i :: 0 <= i < 5 ==> Distance(p.center, Vertices(p, m)[i], m) == Abs(p.radius)
  {
    forall i | 0 <= i < 5
      ensures Distance(p.center, Vertices(p, m)[i], m) == Abs(p.radius)
    {
      assert m.PythagorasAt(VertexAngle(i));
      VertexOnCircumcircle(p, m, i);
    }
  }

  /** equals() against another pentagon: the same center and radius. */
  function Equals(p: Pentagon, o: Pentagon): bool {
    Eq(p.center, o.center) && p.radius == o.radius
  }

  /** Equal pentagons are identical values. */
  lemma EqualsIff(p: Pentagon, o: Pentagon)
    ensures Equals(p, o) <==> p == o
  {
  }

  /** clone() and the copy constructor and assignment: center and radius kept. */
  function Clone(p: Pentagon): (c: Pentagon)
    ensures c.center == p.center && c.radius == p.radius
  {
    Pentagon(p.center, p.radius)
  }

  /** A clone compares equal to its original and has the same area. */
  lemma CloneEqualsOriginal(p: Pentagon, m: Libm)
    requires m.tan(PI / 5.0) != 0.0
    ensures Equals(Clone(p), p)
    ensures Area(Clone(p), m) == Area(p, m)
  {
  }
}
