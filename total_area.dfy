/**
 * totalArea() of Array<T>, for an array of figure handles (a null handle
 * contributes nothing) and for an array of figure values.
 */
module ShapeArrays {
  import opened CMath
  import opened Wrappers
  import opened Figures
  import opened Arrays
  import Trapezoids

  /** The area a handle contributes: the figure's area, or 0 for a null handle. */
  function HandleArea(h: Option<Shape>, m: Libm): real
    requires m.tan(PI / 5.0) != 0.0
  {
    match h
    case None => 0.0
    case Some(s) => Area(s, m)
  }

  /** The areas of the handles, added left to right. */
  function SumAreas(hs: seq<Option<Shape>>, m: Libm): real
    requires m.tan(PI / 5.0) != 0.0
  {
    if hs == [] then 0.0 else SumAreas(hs[..|hs| - 1], m) + HandleArea(hs[|hs| - 1], m)
  }

  /** The areas of the figures, added left to right. */
  function SumShapeAreas(ss: seq<Shape>, m: Libm): real
    requires m.tan(PI / 5.0) != 0.0
  {
    if ss == [] then 0.0 else SumShapeAreas(ss[..|ss| - 1], m) + Area(ss[|ss| - 1], m)
  }

  /** The figures behind the non-null handles, in order. */
  function Present(hs: seq<Option<Shape>>): (ss: seq<Shape>)
    ensures |ss| <= |hs|
  {
    if hs == [] then []
    else
      match hs[|hs| - 1]
      case None => Present(hs[..|hs| - 1])
      case Some(s) => Present(hs[..|hs| - 1]) + [s]
  }

  /** Every handle of a sequence of values is non-null. */
  function Handles(ss: seq<Shape>): (hs: seq<Option<Shape>>)
    ensures |hs| == |ss| && forall i :: 0 <= i < |ss| ==> hs[i] == Some(ss[i])
  {
    seq(|ss|, i requires 0 <= i < |ss| => Some(ss[i]))
  }

  /** totalArea() over handles: the loop that skips null handles. */
  method TotalArea(arr: Array<Option<Shape>>, m: Libm) returns (total: real)
    requires arr.Valid() && m.tan(PI / 5.0) != 0.0
    ensures total == SumAreas(arr.Elements(), m)
  {
    total := 0.0;
    for i := 0 to arr.size
      invariant total == SumAreas(arr.Elements()[..i], m)
    {
      assert arr.Elements()[..i + 1][..i] == arr.Elements()[..i];
      match arr.data[i]
      case Some(s) =>
        total := total + Area(s, m);
      case None =>
    }
    assert arr.Elements()[..arr.size] == arr.Elements();
  }

  /** totalArea() over values: every element contributes its area. */
  method TotalAreaOfValues(arr: Array<Shape>, m: Libm) returns (total: real)
    requires arr.Valid() && m.tan(PI / 5.0) != 0.0
    ensures total == SumShapeAreas(arr.Elements(), m)
  {
    total := 0.0;
    for i := 0 to arr.size
      invariant total == SumShapeAreas(arr.Elements()[..i], m)
    {
      assert arr.Elements()[..i + 1][..i] == arr.Elements()[..i];
      total := total + Area(arr.data[i], m);
    }
    assert arr.Elements()[..arr.size] == arr.Elements();
  }

  /** The sum over a concatenation is the sum of the two sums. */
  lemma {:induction false} SumAreasAppend(xs: seq<Option<Shape>>, ys: seq<Option<Shape>>, m: Libm)
    requires m.tan(PI / 5.0) != 0.0
    ensures SumAreas(xs + ys, m) == SumAreas(xs, m) + SumAreas(ys, m)
  {
    if ys == [] {
      assert xs + ys == xs;
    } else {
      var init := ys[..|ys| - 1];
      assert (xs + ys)[..|xs + ys| - 1] == xs + init;
      SumAreasAppend(xs, init, m);
    }
  }

  /** Null handles add nothing: the total is the sum over the present figures. */
  lemma {:induction false} NullHandlesContributeNothing(hs: seq<Option<Shape>>, m: Libm)
    requires m.tan(PI / 5.0) != 0.0
    ensures SumAreas(hs, m) == SumShapeAreas(Present(hs), m)
  {
    if hs != [] {
      var init := hs[..|hs| - 1];
      NullHandlesContributeNothing(init, m);
      match hs[|hs| - 1]
      case None =>
      case Some(s) =>
        var ps := Present(init) + [s];
        assert ps[..|ps| - 1] == Present(init);
    }
  }

  /** Both totalArea() forms agree on an array of values and its handles. */
  lemma {:induction false} ValuesAgreeWithHandles(ss: seq<Shape>, m: Libm)
    requires m.tan(PI / 5.0) != 0.0
    ensures SumAreas(Handles(ss), m) == SumShapeAreas(ss, m)
  {
    if ss != [] {
      var init := ss[..|ss| - 1];
      assert Handles(ss)[..|ss| - 1] == Handles(init);
      ValuesAgreeWithHandles(init, m);
    }
  }

  /** Removing handle i takes exactly its area away from the total. */
  lemma SumAreasRemove(hs: seq<Option<Shape>>, i: nat, m: Libm)
    requires i < |hs| && m.tan(PI / 5.0) != 0.0
    ensures SumAreas(hs[..i] + hs[i + 1..], m) == SumAreas(hs, m) - HandleArea(hs[i], m)
  {
    assert hs == hs[..i] + ([hs[i]] + hs[i + 1..]);
    SumAreasAppend(hs[..i], [hs[i]] + hs[i + 1..], m);
    SumAreasAppend([hs[i]], hs[i + 1..], m);
    SumAreasAppend(hs[..i], hs[i + 1..], m);
    assert [hs[i]][..0] == [];
  }

  /** With the library's laws and non-negative diagonals, the total is never negative. */
  lemma {:induction false} SumAreasNonNegative(hs: seq<Option<Shape>>, m: Libm)
    requires m.Lawful()
    requires forall i :: 0 <= i < |hs| && hs[i].Some? && hs[i].value.Rhombus? ==>
               0.0 <= hs[i].value.rhombus.d1 && 0.0 <= hs[i].value.rhombus.d2
    ensures 0.0 <= SumAreas(hs, m)
  {
    if hs != [] {
      SumAreasNonNegative(hs[..|hs| - 1], m);
      if hs[|hs| - 1].Some? {
        AreaNonNegative(hs[|hs| - 1].value, m);
      }
    }
  }

  /** The total of two handles, and of the second alone. */
  lemma SumOfTwo(hs: seq<Option<Shape>>, m: Libm)
    requires |hs| == 2 && m.tan(PI / 5.0) != 0.0
    ensures SumAreas(hs, m) == HandleArea(hs[0], m) + HandleArea(hs[1], m)
    ensures SumAreas(hs[1..], m) == HandleArea(hs[1], m)
  {
    assert hs[..|hs| - 1] == [hs[0]] && hs[1..] == [hs[1]];
    assert [hs[0]][..0] == [] && [hs[1]][..0] == [];
    assert SumAreas([hs[0]], m) == HandleArea(hs[0], m);
    assert SumAreas([hs[1]], m) == HandleArea(hs[1], m);
  }

  /**
   * Two figures in an array of handles: the total is the sum of their areas,
   * positive when both have positive dimensions, and after remove(0) it is
   * the area of the second.
   */
  method RemoveFirstScenario(first: Shape, second: Shape, m: Libm) returns (before: real, after: real, sizeAfter: nat)
    requires m.Lawful()
    ensures before == Area(first, m) + Area(second, m)
    ensures NonDegenerate(first) && NonDegenerate(second) ==> 0.0 < before
    ensures after == Area(second, m) && sizeAfter == 1
  {
    var hs := [Some(first), Some(second)];
    SumOfTwo(hs, m);
    var figures := new Array<Option<Shape>>();
    figures.PushBack(hs[0]);
    figures.PushBack(hs[1]);
    assert figures.Elements() == hs;
    before := TotalArea(figures, m);
    var ok := figures.Remove(0);
    assert figures.Elements() == hs[1..];
    after := TotalArea(figures, m);
    sizeAfter := figures.Size();
    if NonDegenerate(first) && NonDegenerate(second) {
      NonDegenerateHasArea(first, m);
      NonDegenerateHasArea(second, m);
    }
  }
}
