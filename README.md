# Growable figure array and shapes, in Dafny

This project models the core of a small C++ library (lab 4). It has two parts.

- `Array<T>` is a hand-written growable buffer. It has separate `size_` and `capacity_` fields, grows by doubling, and has bounds-checked access and removal. Copy and move constructors and assignments handle its storage, and `totalArea()` sums the areas of the figures it holds.
- Three figures stand behind a common `Figure<T>` interface: `Trapezoid`, `Rhombus` and `Pentagon`. They are built on a 2-D `Point<T>`.

## Layout

One module per header:

- `Points` (`point.dfy`)
- `Figures` (`figure.dfy`)
- `Trapezoids` (`trapezoid.dfy`)
- `Rhombi` (`rhombus.dfy`)
- `Pentagons` (`pentagon.dfy`)
- `Arrays` (`array.dfy`)

Two more modules support them:

- `ShapeArrays` (`total_area.dfy`) holds `totalArea()` once its elements are figures.
- `CMath` (`cmath.dfy`) stands for the few `<cmath>` functions the figures call.
- `Wrappers` holds the `Option` type that stands for a possibly-null figure handle.

How each part is modelled:

- **The array is a class.** A Dafny class has the fields `data: array<T>`, `size` and `capacity`.
  - `Valid()` is its invariant: the array owns exactly itself and its buffer (its footprint `Repr`), the buffer length is the capacity, and the size does not exceed it. Arrays with disjoint footprints never affect each other.
  - The ghost function `Elements()` is the sequence of live elements.
  - `resize`, the copy constructor, copy assignment and `remove` are loops over the buffer, proved against `Elements()`.
  - The `std::out_of_range` of `operator[]` and `remove` is a returned failure (`Access.OutOfRange`, or `ok == false`). The state is then unchanged.
- **The shapes are values.** Points and the three figures are datatypes, and `Figures.Shape` is their sum. The `dynamic_cast` in `equals()` becomes a match on the variant.
  - The loops in `Trapezoid::center()`, `Trapezoid::equals()`, the trapezoid copy constructor and `Pentagon::vertices()` are methods with loop invariants. Each is proved equal to a specification function.
- **Coordinates are reals.** `sqrt`, `sin`, `cos` and `tan` are passed in as a value `CMath.Libm`. The proofs use only the laws listed in `Libm.SqrtLaws()` and `Libm.TrigLaws()`:
  - sqrt undoes squaring, and keeps zero and positive arguments non-negative and positive;
  - Pythagoras' identity holds;
  - `sin 0 = 0` and `cos 0 = 1`;
  - `sin(π/5)` and `tan(π/5)` are positive.

## Model

| member | source | states |
|---|---|---|
| Arrays.Array.constructor | lab4/include/Array.h:28 | a default array has no elements, size 0 and capacity 0 |
| Arrays.Array.WithCapacity | lab4/include/Array.h:30-32 | `Array(n)` has no elements, size 0 and capacity n |
| Arrays.Array.Copy | lab4/include/Array.h:38-43 | the copy has the source's size, capacity and live elements, in a fresh buffer |
| Arrays.Array.CopyAssign | lab4/include/Array.h:45-56 | after assignment the target has the source's size, capacity and elements in a fresh buffer, and the source is untouched; self-assignment changes nothing |
| Arrays.Array.Move | lab4/include/Array.h:58-63 | the new array takes the source's buffer, size, capacity and elements; the source is left empty with size 0 and capacity 0 |
| Arrays.Array.MoveAssign | lab4/include/Array.h:65-76 | as the move constructor for distinct arrays; self-move changes nothing |
| Arrays.Array.Resize | lab4/include/Array.h:15-25 | the live elements are moved unchanged into a fresh buffer of the new capacity |
| Arrays.NextCapacity | lab4/include/Array.h:80 | the growth rule: capacity 0 becomes 1, any other capacity doubles |
| Arrays.NextCapacityGrows | lab4/include/Array.h:79-80 | the growth rule always makes room for one more element and at most doubles plus one |
| Arrays.CapacityAfter | lab4/include/Array.h:78-90 | the capacity after n pushes into a default array: the growth rule applied whenever the buffer is full |
| Arrays.Array.PushBack | lab4/include/Array.h:78-90 | the live elements become the old ones followed by the item; the capacity grows by the growth rule exactly when the buffer was full, and is otherwise unchanged |
| Arrays.CapacityAfterIsTightPowerOfTwo | lab4/include/Array.h:79-80 | after n ≥ 1 pushes into a default array the capacity is a power of two between n and 2n−1 |
| Arrays.FromSequence | lab4/include/Array.h:78-90 | pushing a sequence of values into a default array stores it in order, with the capacity predicted by the growth rule |
| Arrays.Array.Remove | lab4/include/Array.h:92-101 | a valid index yields `old[..i] + old[i+1..]` with size one less and the same buffer and capacity; an index ≥ size reports out-of-range and changes nothing |
| Arrays.Array.At | lab4/include/Array.h:103-115 | reading index i gives the i-th live element when i < size, and out-of-range otherwise |
| Arrays.Array.Set | lab4/include/Array.h:103-108 | a write through `operator[]` replaces exactly the i-th live element; out of range it changes nothing |
| Arrays.Array.Size | lab4/include/Array.h:117 | the size is the number of live elements |
| Arrays.Array.Capacity | lab4/include/Array.h:118 | the capacity is the buffer length and never below the size |
| Arrays.Array.Empty | lab4/include/Array.h:119 | `empty()` holds exactly when there are no live elements |
| Arrays.Array.Clear | lab4/include/Array.h:121-123 | clearing leaves no live elements and keeps the buffer and capacity |
| Arrays.PushLeavesOthersAlone | lab4/include/Array.h:78-90 | pushing onto one array appends to it and leaves every array with a separate footprint unchanged, even across a reallocation |
| Arrays.CopyThenWrite | lab4/tests/test_array.cpp:110-119 | writing to a copy never changes the source |
| Arrays.PushScenario | lab4/tests/test_array.cpp:12-64 | three pushes read back 1, 2, 3; index 10 is out of range; `Array(2)` grows to capacity 4 on its third push |
| Arrays.RemoveScenario | lab4/tests/test_array.cpp:72-96 | removing from the middle, the front and the back of 0..40 leaves 10, 30 with sizes 4, 3, 2 |
| Arrays.CopyMoveScenario | lab4/tests/test_array.cpp:104-125 | after writing 100 into a copy the source still starts with 1; the moved-to array holds 100, 2, 3 and the moved-from array is empty |
| ShapeArrays.HandleArea | lab4/include/Array.h:129-131 | a handle contributes its figure's area, and a null handle contributes 0 |
| ShapeArrays.SumAreas | lab4/include/Array.h:125-134 | the sum of the handles' contributions, added left to right |
| ShapeArrays.SumShapeAreas | lab4/include/Array.h:136-143 | the sum of the figures' areas, added left to right |
| ShapeArrays.TotalArea | lab4/include/Array.h:125-134 | the loop total equals the sum of the areas of the live handles, with null handles skipped |
| ShapeArrays.TotalAreaOfValues | lab4/include/Array.h:136-143 | the loop total equals the sum of the areas of the live figures |
| ShapeArrays.NullHandlesContributeNothing | lab4/include/Array.h:129-131 | the total over handles equals the total over the non-null figures alone |
| ShapeArrays.ValuesAgreeWithHandles | lab4/include/Array.h:125-143 | both `totalArea()` forms agree on the same figures |
| ShapeArrays.SumAreasAppend | lab4/include/Array.h:127-133 | the total over a concatenation is the sum of the totals |
| ShapeArrays.SumAreasRemove | lab4/include/Array.h:92-101 | removing handle i lowers the total by exactly that handle's area |
| ShapeArrays.SumAreasNonNegative | lab4/include/Array.h:125-134 | the total is never negative when no rhombus has a negative diagonal |
| ShapeArrays.SumOfTwo | lab4/include/Array.h:127-133 | the total of two handles is the sum of their areas, and after dropping the first it is the second's |
| ShapeArrays.RemoveFirstScenario | lab4/tests/test_array.cpp:151-164 | two figures total the sum of their areas, positive for non-degenerate figures; after `remove(0)` the total is the second's area |
| Points.Add | lab4/include/Point.h:38-40 | `+` is (p.x + q.x, p.y + q.y) |
| Points.Sub | lab4/include/Point.h:46-48 | `-` is (p.x − q.x, p.y − q.y) |
| Points.Scale | lab4/include/Point.h:50-52 | `*` by a factor k is (p.x·k, p.y·k) |
| Points.Div | lab4/include/Point.h:42-44 | `/` by a non-zero divisor d is (p.x/d, p.y/d) |
| Points.SquaredDistance | lab4/include/Point.h:26-28 | the argument of sqrt in `distanceTo`: (p.x − q.x)² + (p.y − q.y)² |
| Points.Distance | lab4/include/Point.h:26-28 | `distanceTo` is sqrt of the squared distance |
| Points.PointDefaults | lab4/include/Point.h:18-21 | the accessors return the constructor arguments, which default to 0 |
| Points.SetX | lab4/include/Point.h:23 | `setX` changes x and only x |
| Points.SetY | lab4/include/Point.h:24 | `setY` changes y and only y |
| Points.Eq | lab4/include/Point.h:30-32 | `==` holds exactly when both coordinates are equal |
| Points.Neq | lab4/include/Point.h:34-36 | `!=` is the negation of `==` |
| Points.AddSubInverse | lab4/include/Point.h:38-48 | component-wise `-` undoes `+` and vice versa; `+` commutes; `p - p` is the origin |
| Points.ScaleDivInverse | lab4/include/Point.h:42-52 | dividing by a non-zero scalar undoes multiplying by it, and vice versa |
| Points.ScaleDistributes | lab4/include/Point.h:38-52 | scaling distributes over `+` |
| Points.DistanceSymmetric | lab4/include/Point.h:26-28 | `distanceTo` is symmetric and never negative |
| Points.SquaredDistanceZeroIff | lab4/include/Point.h:26-28 | `dx² + dy²` is non-negative and zero exactly for equal points |
| Points.DistanceZeroIff | lab4/include/Point.h:26-28 | `distanceTo` is zero exactly from a point to itself |
| Points.DistanceAlongAxis | lab4/include/Point.h:26-28 | between points at the same height the distance is the absolute x difference |
| Figures.Center | lab4/include/Figure.h:13 | `center()` dispatches to the variant's own center |
| Figures.Area | lab4/include/Figure.h:14 | `area()` dispatches to the variant's own area formula |
| Figures.Equals | lab4/include/Figure.h:24 | `equals` compares two figures of the same variant by that variant's rule, and is false across variants |
| Figures.Vertices | lab4/include/Figure.h:16 | `vertices()` has 5 entries for a pentagon and 4 for the other figures |
| Figures.ToDouble | lab4/include/Figure.h:18-20 | the numeric value of a figure is exactly its `area()` |
| Figures.Clone | lab4/include/Figure.h:22 | `clone()` yields the same figure value |
| Figures.EqualsAcrossVariants | lab4/include/Figure.h:24 | figures of different variants never compare equal |
| Figures.EqualsReflexiveSymmetric | lab4/include/Figure.h:24 | every figure equals itself, and `equals` is symmetric |
| Figures.EqualsIffSameValue | lab4/include/Figure.h:24 | a trapezoid or pentagon equals another figure exactly when both are the same value |
| Figures.CloneRoundTrip | lab4/include/Figure.h:22-24 | a clone equals its original both ways and has the same area, center and vertices |
| Figures.NonDegenerateHasArea | lab4/include/Figure.h:14-20 | a figure with positive dimensions has a positive area and value, and a non-empty vertex list |
| Figures.AreaNonNegative | lab4/include/Figure.h:14 | every figure's area is non-negative, provided a rhombus's diagonals are |
| Trapezoids.Trapezoid.Corners | lab4/include/Trapezoid.h:12-18 | the constructor stores exactly four corners |
| Trapezoids.Copy | lab4/include/Trapezoid.h:20-34 | the copy loop reproduces the corners in order |
| Trapezoids.Clone | lab4/include/Trapezoid.h:67-69 | `clone()` reproduces the corners in order |
| Trapezoids.SumPoints | lab4/include/Trapezoid.h:40-44 | the component-wise sum of the corners, accumulated in stored order |
| Trapezoids.Center | lab4/include/Trapezoid.h:39-46 | `center()` is the summed corners divided by 4 |
| Trapezoids.Area | lab4/include/Trapezoid.h:48-53 | `area()` is (\|p0p1\| + \|p2p3\|) · \|y0 − y2\| / 2 |
| Trapezoids.SameCorners | lab4/include/Trapezoid.h:71-84 | the comparison of `equals`: corner i equals corner i for each of the four corners |
| Trapezoids.ComputeCenter | lab4/include/Trapezoid.h:39-46 | the accumulation loop computes the summed corners divided by 4 |
| Trapezoids.CenterIsMean | lab4/include/Trapezoid.h:39-46 | the center is the arithmetic mean of the four corners, coordinate by coordinate |
| Trapezoids.CenterBalancesCorners | lab4/include/Trapezoid.h:39-46 | the corners' offsets from the center sum to zero |
| Trapezoids.AreaNonNegative | lab4/include/Trapezoid.h:48-53 | (\|p0p1\| + \|p2p3\|)·\|y0 − y2\| / 2 is never negative |
| Trapezoids.AreaPositive | lab4/include/Trapezoid.h:48-53 | it is positive when one parallel side has positive length and the height is not zero |
| Trapezoids.Vertices | lab4/include/Trapezoid.h:59-65 | `vertices()` returns the four stored corners in stored order |
| Trapezoids.Equals | lab4/include/Trapezoid.h:71-84 | the comparison loop with early returns decides corner-by-corner equality in order |
| Trapezoids.SameCornersIff | lab4/include/Trapezoid.h:71-84 | two trapezoids compare equal exactly when they have the same corners |
| Trapezoids.MovedCornerBreaksEquality | lab4/include/Trapezoid.h:76-79 | moving any one corner makes the comparison fail |
| Trapezoids.SampleCenter | lab4/tests/test_figures.cpp:14-24 | the trapezoid (0,0),(4,0),(3,3),(1,3) has center (2, 1.5) |
| Trapezoids.SampleSides | lab4/tests/test_figures.cpp:26-29 | its parallel sides have lengths 4 and 2 |
| Trapezoids.SampleArea | lab4/tests/test_figures.cpp:26-29 | its area is 9 |
| Trapezoids.TranslateMovesCenterKeepsArea | lab4/include/Trapezoid.h:39-53 | moving a trapezoid moves its center by the same offset and keeps its area |
| Trapezoids.ShiftedSampleCorners | lab4/tests/test_array.cpp:144-149 | the second trapezoid of the tests is the first moved by (5, 5) |
| Trapezoids.ShiftedSampleArea | lab4/tests/test_array.cpp:144-159 | the second trapezoid also has area 9 |
| Rhombi.Center | lab4/include/Rhombus.h:41-43 | `center()` is the stored center |
| Rhombi.Area | lab4/include/Rhombus.h:45-47 | `area()` is d1 · d2 / 2 |
| Rhombi.Vertices | lab4/include/Rhombus.h:53-81 | center ± (d1/2)(cos a, sin a) and center ± (d2/2)(−sin a, cos a), in the order v0, v1, v2, v3 |
| Rhombi.Equals | lab4/include/Rhombus.h:87-95 | equal centers and diagonals, and \|angle − other angle\| < 1e-9 |
| Rhombi.ConstructorDefaults | lab4/include/Rhombus.h:18-20 | the constructor keeps center and diagonals, the angle defaults to 0, and `center()` returns the stored center |
| Rhombi.AreaIgnoresAngle | lab4/include/Rhombus.h:45-47 | the area `d1·d2/2` does not depend on the angle |
| Rhombi.SampleArea | lab4/tests/test_figures.cpp:44-74 | diagonals 6 and 8 give area 24 at angle 0 and at every angle |
| Rhombi.NegativeDiagonalArea | lab4/include/Rhombus.h:45-47 | unchecked diagonals can make the area negative |
| Rhombi.AreaPositive | lab4/include/Rhombus.h:45-47 | two positive diagonals give a positive area |
| Rhombi.CenterBisectsDiagonals | lab4/include/Rhombus.h:53-81 | whatever cos and sin return, the center is the midpoint of v0 and v2 and of v1 and v3, and there are four vertices |
| Rhombi.VerticesAtZeroAngle | lab4/include/Rhombus.h:57-78 | at angle 0 the vertices are (cx+d1/2, cy), (cx, cy+d2/2), (cx−d1/2, cy), (cx, cy−d2/2) |
| Rhombi.EqualsIff | lab4/include/Rhombus.h:87-95 | two rhombi compare equal exactly when center and diagonals are equal and the angles differ by less than 1e-9 |
| Rhombi.EqualsReflexiveSymmetric | lab4/include/Rhombus.h:87-95 | the comparison is reflexive and symmetric |
| Rhombi.EqualsNotTransitive | lab4/include/Rhombus.h:92 | the angle tolerance makes the comparison non-transitive |
| Rhombi.Clone | lab4/include/Rhombus.h:22-36 | the copy constructor, copy assignment and clone keep all four fields |
| Rhombi.CloneEqualsOriginal | lab4/include/Rhombus.h:83-85 | a clone compares equal to its original both ways and has the same area |
| Pentagons.Center | lab4/include/Pentagon.h:35-37 | `center()` is the stored center |
| Pentagons.Side | lab4/include/Pentagon.h:41 | the side is 2 · r · sin(π/5) |
| Pentagons.Area | lab4/include/Pentagon.h:39-43 | `area()` is (5/4) · side² · (1 / tan(π/5)) |
| Pentagons.VertexAngle | lab4/include/Pentagon.h:55 | vertex i sits at angle 2πi/5 |
| Pentagons.Vertex | lab4/include/Pentagon.h:54-59 | vertex i is center + r · (cos, sin) of its angle |
| Pentagons.Equals | lab4/include/Pentagon.h:69-74 | equal centers and equal radii |
| Pentagons.AreaFactorPositive | lab4/include/Pentagon.h:39-43 | the constant K = 5 sin²(π/5) / tan(π/5) is positive |
| Pentagons.AreaIsQuadratic | lab4/include/Pentagon.h:39-43 | the area depends on the radius alone, as K·r² |
| Pentagons.AreaPositive | lab4/include/Pentagon.h:39-43 | a non-zero radius gives a positive area |
| Pentagons.Vertices | lab4/include/Pentagon.h:49-63 | `vertices()` has five entries; entry i is at angle 2πi/5 and distance `radius` from the center |
| Pentagons.ComputeVertices | lab4/include/Pentagon.h:49-63 | the five-step loop builds exactly that sequence |
| Pentagons.FirstVertex | lab4/include/Pentagon.h:51-56 | entry 0 is (cx + r, cy) |
| Pentagons.VertexOnCircumcircle | lab4/include/Pentagon.h:51-56 | a vertex lies at distance \|radius\| from the center |
| Pentagons.VerticesOnCircumcircle | lab4/include/Pentagon.h:49-63 | all five vertices lie at distance \|radius\| from the center |
| Pentagons.EqualsIff | lab4/include/Pentagon.h:69-74 | two pentagons compare equal exactly when center and radius are equal |
| Pentagons.Clone | lab4/include/Pentagon.h:20-30 | the copy constructor, copy assignment and clone keep center and radius |
| Pentagons.CloneEqualsOriginal | lab4/include/Pentagon.h:65-67 | a clone compares equal to its original and has the same area |

## Left out

- Console output: every `print()` method and `lab4/src/main.cpp`.
- Floating point. Coordinates, areas and angles are exact reals.
  - `sqrt`, `sin`, `cos` and `tan` are a caller-supplied `Libm` value, constrained only by the laws above. No IEEE rounding is modelled.
  - `std::pow(x, 2)` is exact squaring.
  - The test tolerances of 1e-9 become exact equalities.
- `Arrays.Array.PushBack`: `capacity_ * 2` is unbounded here. The wrap-around of `size_t` is not modelled, because it needs more than 2^63 elements. The item is also taken by value. In the code both `push_back` overloads take a reference and read it after `resize` has moved from the old buffer and freed it (lines 19, 22, 82, 89 of `lab4/include/Array.h`). So `arr.push_back(arr[0])` on a full array, such as a default `Array<int>` after one push, reads freed memory. The model does not represent that: it appends the value the caller passed.
- Template instantiation over `int` and `float`. With integer coordinates, `Trapezoid::center()` truncates `sumX / 4` and `Rhombus::vertices()` truncates `diagonal1/2`. The model uses reals only.
- Pointer identity and ownership.
  - `unique_ptr`, `shared_ptr`, `delete[]` and the destructor are reduced to values.
  - A figure handle is an `Option<Shape>`, and a null handle is `None`.
  - Keeping pointers valid across a resize reduces to keeping element values.
  - The null buffer of a default or moved-from array is a buffer of length 0.
- The choice between the two `totalArea()` overloads. The template machinery that picks one is left out. Both forms are modelled, as `ShapeArrays.TotalArea` over handles and `ShapeArrays.TotalAreaOfValues` over values.
- `Points.Div` asks for a non-zero divisor. Division by zero in `Point::operator/` is the caller's responsibility.
- `Points.SetX`, `Points.SetY`: the mutators return the updated point value rather than changing a point in place.
- Move constructors and move assignments of the figures (`= default`). For the destination they coincide with copying. The moved-from figure is not represented:
  - a moved-from rhombus or pentagon has a null `center_`, so its `center()` and `equals` dereference null;
  - a moved-from trapezoid has an empty `vertices_`, so its `center()` is (0, 0), its `vertices()` is empty, its `area()` indexes an empty vector, and its `equals` fails the size test.
- The two concrete trapezoids of the array test are proved to have area 9 each (`Trapezoids.SampleArea`, `Trapezoids.ShiftedSampleArea`). `ShapeArrays.RemoveFirstScenario` states the totals for any two figures.
- Rhombus area sign: the code does not check the diagonals, so a negative diagonal gives a negative area. The model follows the code (`Rhombi.NegativeDiagonalArea`). The claim that every figure's area is non-negative holds only for non-negative diagonals (`Figures.AreaNonNegative`).
