/**
 * Point<T>: a 2-D coordinate with value semantics. Coordinates are reals;
 * the constructor defaults both coordinates to 0.
 */
module Points {
  import opened CMath

  datatype Point = Point(x: real := 0.0, y: real := 0.0)

  /** The accessors return the constructor arguments, which default to 0. */
  lemma PointDefaults(a: real)
    ensures Point().x == 0.0 && Point().y == 0.0
    ensures Point(a).x == a && Point(a).y == 0.0
  {
  }

  /** setX: the same point with a new x coordinate. */
  function SetX(p: Point, v: real): (r: Point)
    ensures r.x == v && r.y == p.y
  {
    p.(x := v)
  }

  /** setY: the same point with a new y coordinate. */
  function SetY(p: Point, v: real): (r: Point)
    ensures r.y == v && r.x == p.x
  {
    p.(y := v)
  }

  /** operator==: exact comparison of both coordinates. */
  function Eq(p: Point, q: Point): (r: bool)
    ensures r <==> p == q
  {
    p.x == q.x && p.y == q.y
  }

  /** operator!=: the negation of operator==. */
  function Neq(p: Point, q: Point): (r: bool)
    ensures r <==> p != q
  {
    !Eq(p, q)
  }

  function Add(p: Point, q: Point): Point {
    Point(p.x + q.x, p.y + q.y)
  }

  function Sub(p: Point, q: Point): Point {
    Point(p.x - q.x, p.y - q.y)
  }

  /** operator*: scaling by a factor. */
  function Scale(p: Point, factor: real): Point {
    Point(p.x * factor, p.y * factor)
  }

  /** operator/: division by a scalar; a zero divisor is the caller's fault. */
  function Div(p: Point, divisor: real): Point
    requires divisor != 0.0
  {
    Point(p.x / divisor, p.y / divisor)
  }

  /** The square of the Euclidean distance, the argument of sqrt in distanceTo. */
  function SquaredDistance(p: Point, q: Point): real {
    Square(p.x - q.x) + Square(p.y - q.y)
  }

  /** distanceTo. */
  function Distance(p: Point, q: Point, m: Libm): real {
    m.sqrt(SquaredDistance(p, q))
  }

  /** Subtraction undoes addition and vice versa; addition commutes. */
  lemma AddSubInverse(p: Point, q: Point)
    ensures Sub(Add(p, q), q) == p
    ensures Add(Sub(p, q), q) == p
    ensures Add(p, q) == Add(q, p)
    ensures Sub(p, p) == Point(0.0, 0.0)
  {
  }

  /** Division undoes scaling by the same non-zero factor and vice versa. */
  lemma ScaleDivInverse(p: Point, k: real)
    requires k != 0.0
    ensures Div(Scale(p, k), k) == p
    ensures Scale(Div(p, k), k) == p
  {
  }

  /** Scaling distributes over addition, so the mean of points is affine. */
  lemma ScaleDistributes(p: Point, q: Point, k: real)
    ensures Scale(Add(p, q), k) == Add(Scale(p, k), Scale(q, k))
  {
  }

  /** The distance is non-negative and symmetric. */
  lemma DistanceSymmetric(p: Point, q: Point, m: Libm)
    requires m.SqrtLaws()
    ensures Distance(p, q, m) == Distance(q, p, m)
    ensures 0.0 <= Distance(p, q, m)
  {
    assert SquaredDistance(p, q) == SquaredDistance(q, p);
    SquaredDistanceZeroIff(p, q);
    assert m.SqrtLawAt(SquaredDistance(p, q));
  }

  /** The squared distance is zero exactly when the points coincide. */
  lemma SquaredDistanceZeroIff(p: Point, q: Point)
    ensures 0.0 <= SquaredDistance(p, q)
    ensures SquaredDistance(p, q) == 0.0 <==> p == q
  {
    SquareSign(p.x - q.x);
    SquareSign(p.y - q.y);
  }

  /** The distance between two points is zero exactly when they coincide. */
  lemma DistanceZeroIff(p: Point, q: Point, m: Libm)
    requires m.SqrtLaws()
    ensures Distance(p, q, m) == 0.0 <==> p == q
  {
    SquaredDistanceZeroIff(p, q);
    if p == q {
      assert m.SqrtLawAt(0.0);
      assert SquaredDistance(p, q) == Square(0.0);
    } else {
      SqrtPositive(m, SquaredDistance(p, q));
    }
  }

  /** Along one axis the distance is the difference of coordinates. */
  lemma DistanceAlongAxis(p: Point, q: Point, m: Libm)
    requires m.SqrtLaws()
    requires p.y == q.y
    ensures Distance(p, q, m) == Abs(p.x - q.x)
  {
    SquareAbs(p.x - q.x);
    assert SquaredDistance(p, q) == Square(Abs(p.x - q.x));
    assert m.SqrtLawAt(Abs(p.x - q.x));
  }
}
