/**
 * The floating-point functions the shapes call from <cmath> (sqrt, pow, sin,
 * cos, tan). Their IEEE-754 behaviour is outside the model: sqrt, sin, cos
 * and tan are supplied by the caller as functions over the reals, and
 * `Lawful` lists the only facts the proofs rely on.
 */
module CMath {

  /** The value of pi written out in Pentagon.h. */
  const PI: real := 3.14159265358979323846

  /** std::pow(a, 2). */
  function Square(a: real): real {
    a * a
  }

  datatype Libm = Libm(sqrt: real -> real, sin: real -> real, cos: real -> real, tan: real -> real)
  {
    /**
     * sqrt at a non-negative x: it undoes squaring, and its result is
     * non-negative, and positive when x is.
     */
    ghost predicate SqrtLawAt(x: real) {
      0.0 <= x ==> sqrt(Square(x)) == x && 0.0 <= sqrt(x) && (0.0 < x ==> 0.0 < sqrt(x))
    }

    /** Pythagoras' identity at the angle a. */
    ghost predicate PythagorasAt(a: real) {
      Square(sin(a)) + Square(cos(a)) == 1.0
    }

    /**
     * The sqrt laws hold everywhere. Each use names the point it needs, so
     * the solver instantiates the law only there.
     */
    ghost predicate SqrtLaws() {
      forall x :: SqrtLawAt(x)
    }

    /**
     * Pythagoras' identity holds at every angle; sin and cos take their usual
     * values at 0; sin and tan are positive at pi/5.
     */
    ghost predicate TrigLaws() {
      (forall a :: PythagorasAt(a)) &&
      sin(0.0) == 0.0 && cos(0.0) == 1.0 &&
      sin(PI / 5.0) > 0.0 && tan(PI / 5.0) > 0.0
    }

    /** The only facts about the library the proofs rely on. */
    ghost predicate Lawful() {
      SqrtLaws() && TrigLaws()
    }
  }

  /** The square root of a positive number is positive. */
  lemma SqrtPositive(m: Libm, x: real)
    requires m.SqrtLaws() && 0.0 < x
    ensures 0.0 < m.sqrt(x)
  {
    assert m.SqrtLawAt(x);
  }

  /**
   * A product kept behind a function, so that sign facts about it reach the
   * solver unchanged; used only in proofs.
   */
  function Product(a: real, b: real): real {
    a * b
  }

  lemma ProductPositive(a: real, b: real)
    requires 0.0 < a && 0.0 < b
    ensures 0.0 < Product(a, b)
  {
  }

  lemma ProductNonNegative(a: real, b: real)
    requires 0.0 <= a && 0.0 <= b
    ensures 0.0 <= Product(a, b)
  {
  }

  /** A square is non-negative, and positive when its base is not zero. */
  lemma SquareSign(a: real)
    ensures 0.0 <= Square(a)
    ensures a != 0.0 ==> 0.0 < Square(a)
  {
    if 0.0 < a {
      ProductPositive(a, a);
    } else if a < 0.0 {
      ProductPositive(-a, -a);
      assert Product(-a, -a) == Product(a, a);
    } else {
      ProductNonNegative(a, a);
    }
    assert Product(a, a) == Square(a);
  }

  function Abs(x: real): (r: real)
    ensures 0.0 <= r && (r == x || r == -x)
  {
    if x < 0.0 then -x else x
  }

  /** Squaring forgets the sign. */
  lemma SquareAbs(x: real)
    ensures Square(Abs(x)) == Square(x)
  {
  }
}
