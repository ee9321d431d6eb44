# FractalFX in Dafny

A model of the drawing core of FractalFX, a JavaFX fractal viewer, and proofs about it.

- **Pythagoras tree.** Each call of the generator strokes a square on a base edge, then a right-isosceles roof on top of it. It then recurses on the two roof edges until the branch counter reaches 14.
- **Sierpinski triangle.** Each call of the generator fills a triangle. It then recurses into three half-size triangles, one pivoting on the midpoint of each edge, until the iteration counter reaches 8.
- **Julia set.** The generator maps every pixel to the square [-1, 1) x [-1, 1) of the complex plane. It iterates z -> z^2 + seed until |z| > 2 or 100 steps have been made. The number of steps is the pixel's gray sample.
- **Value types.** The generators and shapes use these:
  - `ComplexNumber`;
  - the two identical `Point` classes, with their static `midPoint`;
  - the arithmetic part of the `Rectangle` shape: its constructors, area and closed-box containment;
  - the arithmetic part of the `Triangle` shape: its constructors, barycentre and signed area.

Drawing is replaced by returned data:

- the tree generator returns its line segments in stroke order;
- the triangle generator returns its filled triangles in fill order;
- the Julia generator returns the image as rows of samples, `img[y][x]`.

Java `double` is modelled as `real`. Java integer division is written out where a dividend can be negative (`JavaInt.Div`).

## Modules

| file | module | models |
|---|---|---|
| points.dfy | Points | both `Point` classes and `midPoint`, plus vector helpers used in the statements |
| complex.dfy | Complex | `ComplexNumber`, its setters, and `getAbs` as a relation |
| julia.dfy | JuliaFractal | pixel mapping, `applyFunction`, escape-time loop, `generateFractal` |
| pythagoras.dfy | PythagorasTree | `drawTree`, `genTree`, `MAX_BRANCH` |
| sierpinski.dfy | SierpinskiTriangle | `drawTriangle`, `genTriangle`, `MAX_ITER` |
| subdivision.dfy | Subdivision | the three-way recursion of `genTriangle`, stated once and also run with an explicit stack |
| triangle.dfy | Triangles | `Triangle` constructors, barycentre, `getArea` |
| rectangle.dfy | Rectangles | `Rectangle` constructors, `getArea`, both `contains` |
| javaint.dfy | JavaInt | Java's truncating `/` on `int` |
| powers.dfy, realarith.dfy, options.dfy | Powers, RealArith, Options | natural powers, facts about squares, `Option` |

The Java `ComplexNumber` is mutable. The model treats it as a value: `applyFunction` computes both new parts from the old ones before either setter runs, and returns the updated value.

`Math.sqrt` cannot be computed over `real`, so `getAbs` is the relation `Complex.IsAbs(c, r)`: `r >= 0` and `r * r == re^2 + im^2`. `Complex.AbsUnique` shows that at most one `r` satisfies it. The escape test compares squared magnitudes, and `JuliaFractal.EscapedMatchesAbs` shows that this agrees with `getAbs() <= THRESHOLD`.

The class comment of `JuliaFractal` calls the step `z^2 - c`. The code adds the seed. The model follows the code, and `JuliaFractal.ApplyFunctionSubtractsNegatedSeed` records that the comment's `c` is the negated seed.

The triangle generator is `Subdivision.Unfold` with the generator's three child functions. `SierpinskiTriangle.GenTriangleUnfold` spells out one recursive call of `genTriangle`: the call's own triangle, then the outputs for the bottom-left, bottom-right and top children.

Each generator has a partner definition that it is proved equal to:

- `PythagorasTree.GenTreeWithStack` runs the tree with an explicit worklist instead of recursion;
- `Subdivision.UnfoldWithStack` does the same for the triangles;
- `JuliaFractal.CountIterations` is the per-pixel `for` loop, and `JuliaFractal.EscapeTime` is the least-index definition it is proved equal to.

## Model

| member | source | states |
|---|---|---|
| Points.MidPoint | src/me/oskarmendel/util/Point.java:34-36 | the midpoint is as far from p1 as from p2 along each axis: m - p1 = p2 - m componentwise |
| Points.MidPointSymmetric | src/me/oskarmendel/util/Point.java:34-36 | midPoint(p1, p2) = midPoint(p2, p1) |
| Points.MidPointIdempotent | src/me/oskarmendel/util/geometry/Point.java:58-60 | midPoint(p, p) = p |
| Points.MidPointHalfway | src/me/oskarmendel/util/geometry/Point.java:58-60 | the midpoint lies half the vector p2 - p1 from p1, and the same half vector short of p2 |
| Points.MidPointBetween | src/me/oskarmendel/util/Point.java:34-36 | each midpoint coordinate lies between the min and max of the inputs' coordinates |
| Complex.SetReal | src/me/oskarmendel/util/ComplexNumber.java:56-58 | setReal sets the real part and leaves the imaginary part unchanged |
| Complex.SetImaginary | src/me/oskarmendel/util/ComplexNumber.java:74-76 | setImaginary sets the imaginary part and leaves the real part unchanged |
| Complex.NormSq | src/me/oskarmendel/util/ComplexNumber.java:93 | the quantity under getAbs's square root, imaginary^2 + real^2; NormSqNonNegative and AbsAtMostIff state what it means |
| Complex.IsAbs | src/me/oskarmendel/util/ComplexNumber.java:92-94 | getAbs as a relation: r is non-negative and r * r = re^2 + im^2; AbsUnique shows it fixes r, AbsAtMostIff turns comparisons with it into square-free tests |
| Complex.AbsUnique | src/me/oskarmendel/util/ComplexNumber.java:92-94 | two non-negative square roots of re^2 + im^2 are equal, so the relation determines getAbs |
| Complex.NormSqNonNegative | src/me/oskarmendel/util/ComplexNumber.java:92-94 | the quantity under the square root is never negative, so getAbs is always defined |
| Complex.AbsZeroIff | src/me/oskarmendel/util/ComplexNumber.java:92-94 | getAbs is non-negative, and it is 0 exactly when re^2 + im^2 is 0 |
| Complex.AbsAtMostIff | src/me/oskarmendel/util/ComplexNumber.java:92-94 | for T >= 0, getAbs() <= T holds exactly when re^2 + im^2 <= T^2 |
| JuliaFractal.PlaneCoordinate | src/me/oskarmendel/fractals/JuliaFractal.java:73-74 | a pixel coordinate 0 <= x < size maps into [-1, 1) |
| JuliaFractal.PixelStart | src/me/oskarmendel/fractals/JuliaFractal.java:73-76 | the pixel's starting complex number (PlaneCoordinate(x, width), PlaneCoordinate(y, height)); PixelStartInRange bounds it |
| JuliaFractal.PixelStartInRange | src/me/oskarmendel/fractals/JuliaFractal.java:73-76 | every pixel of the image starts inside [-1, 1) x [-1, 1) |
| JuliaFractal.ApplyFunction | src/me/oskarmendel/fractals/JuliaFractal.java:100-105 | one step is complex z*z plus the seed, from the old parts of z |
| JuliaFractal.ApplyFunctionSubtractsNegatedSeed | src/me/oskarmendel/fractals/JuliaFractal.java:32-35 | read as z^2 - c, the step uses c = -(realSeed, imaginarySeed) |
| JuliaFractal.Iterate | src/me/oskarmendel/fractals/JuliaFractal.java:78-81 | the value of `c` after n passes of the loop body: applyFunction applied n times to the pixel's start; CountIterations keeps `c` equal to it |
| JuliaFractal.EscapedMatchesAbs | src/me/oskarmendel/fractals/JuliaFractal.java:78 | the squared test re^2 + im^2 > 4 fails exactly when getAbs() <= THRESHOLD holds |
| JuliaFractal.Escaped | src/me/oskarmendel/fractals/JuliaFractal.java:78 | the negation of the loop guard's `getAbs() <= THRESHOLD`, written as re^2 + im^2 > 4; EscapedMatchesAbs proves the two agree |
| JuliaFractal.EscapeFrom | src/me/oskarmendel/fractals/JuliaFractal.java:78-81 | counting from i gives the first j >= i that escaped, or 100 if none below 100 did; every iterate in between stayed within the threshold |
| JuliaFractal.EscapeTime | src/me/oskarmendel/fractals/JuliaFractal.java:76-81 | the count lies in [0, 100]; it is the least j with j = 100 or an escaped iterate; it is 0 exactly when the start has already escaped |
| JuliaFractal.EscapeTimeUnique | src/me/oskarmendel/fractals/JuliaFractal.java:78-81 | any count with that least-index characterisation is the escape time |
| JuliaFractal.CountIterations | src/me/oskarmendel/fractals/JuliaFractal.java:78-81 | the per-pixel loop stops at the escape time, within [0, 100], with every earlier iterate within the threshold |
| JuliaFractal.PixelCount | src/me/oskarmendel/fractals/JuliaFractal.java:73-81 | the sample of a pixel is at most 100, and 0 exactly when the pixel's start already lies outside the threshold |
| JuliaFractal.GenerateFractal | src/me/oskarmendel/fractals/JuliaFractal.java:60-91 | height rows of width samples; sample (x, y) is the escape time of pixel (x, y), a function of the pixel, the size and the seed only; it is at most 100 and so fits an 8-bit gray sample |
| PythagorasTree.MakeFrame | src/me/oskarmendel/fractals/PythagorasTree.java:72-79 | the computed corners keep the given base edge as P1 P2 |
| PythagorasTree.MakeFrameIsSquareWithRoof | src/me/oskarmendel/fractals/PythagorasTree.java:72-79 | P1 P2 P3 P4 is a square; P4 P5 P3 is right-isosceles at P5; each roof edge has half the base's squared length |
| PythagorasTree.Outline | src/me/oskarmendel/fractals/PythagorasTree.java:82-89 | each call strokes exactly six segments |
| PythagorasTree.GenTree | src/me/oskarmendel/fractals/PythagorasTree.java:66-94 | a call at or past MAX_BRANCH draws nothing; a call k levels short of it draws 6 * (2^k - 1) segments |
| PythagorasTree.DrawTree | src/me/oskarmendel/fractals/PythagorasTree.java:50-52 | the tree has 98298 segments; the first is the root base from (width/2 - 50, height) to (width/2 + 50, height), with Java integer division |
| PythagorasTree.FirstSegmentIsBase | src/me/oskarmendel/fractals/PythagorasTree.java:82 | a call that draws anything first strokes its own base edge P1 -> P2 |
| PythagorasTree.TreeIsBlocks | src/me/oskarmendel/fractals/PythagorasTree.java:66-94 | the output splits into blocks of six strokes P1P2, P2P3, P3P4, P4P1, P4P5, P5P3, and each block outlines a true square with a right-isosceles roof |
| PythagorasTree.DepthFirstOrder | src/me/oskarmendel/fractals/PythagorasTree.java:82-93 | after a call's six strokes comes the whole left subtree on (P4, P5), then the whole right subtree on (P5, P3) |
| PythagorasTree.GenTreeWithStack | src/me/oskarmendel/fractals/PythagorasTree.java:66-94 | an explicit-stack traversal strokes exactly the recursive output, in the same order |
| SierpinskiTriangle.ChildrenHalveParent | src/me/oskarmendel/fractals/SierpinskiTriangle.java:84-106 | each child's third vertex is the midpoint of a parent edge; its two edges from that vertex are halves of the parent's edges from the opposite vertex |
| SierpinskiTriangle.ChildAreas | src/me/oskarmendel/fractals/SierpinskiTriangle.java:84-106 | each child's signed area is a quarter of the parent's; the second child's is negated; each child's area magnitude is a quarter of the parent's |
| SierpinskiTriangle.FirstChild | src/me/oskarmendel/fractals/SierpinskiTriangle.java:84-88 | the bottom-left child of lines 84-88; ChildrenHalveParent and ChildAreas state what it is |
| SierpinskiTriangle.SecondChild | src/me/oskarmendel/fractals/SierpinskiTriangle.java:93-97 | the bottom-right child of lines 93-97; ChildrenHalveParent and ChildAreas state what it is |
| SierpinskiTriangle.ThirdChild | src/me/oskarmendel/fractals/SierpinskiTriangle.java:102-106 | the top child of lines 102-106; ChildrenHalveParent and ChildAreas state what it is |
| SierpinskiTriangle.GenTriangle | src/me/oskarmendel/fractals/SierpinskiTriangle.java:72-109 | genTriangle: three-way subdivision by the three child functions for Levels(iter) levels; GenTriangleUnfold and GenTriangleSize pin it to lines 74-108 |
| SierpinskiTriangle.GenTriangleUnfold | src/me/oskarmendel/fractals/SierpinskiTriangle.java:72-109 | a call below MAX_ITER fills its triangle, then the whole output for mid(p1,p2), then mid(p2,p3), then mid(p1,p3) |
| SierpinskiTriangle.GenTriangleSize | src/me/oskarmendel/fractals/SierpinskiTriangle.java:74-109 | a call at or past MAX_ITER fills nothing; a call k levels short of it fills (3^k - 1) / 2 triangles, its own triangle first |
| SierpinskiTriangle.FullDepthCall | src/me/oskarmendel/fractals/SierpinskiTriangle.java:43 | a call with all 8 levels to go fills 3280 triangles |
| SierpinskiTriangle.RootTriangle | src/me/oskarmendel/fractals/SierpinskiTriangle.java:54-56 | the root's top edge p1 p3 is horizontal; on a canvas of non-negative size p2 lies on the bottom line, below the top edge and between p1 and p3 across |
| SierpinskiTriangle.DrawTriangle | src/me/oskarmendel/fractals/SierpinskiTriangle.java:52-59 | 3280 triangles; the first is the root (width/4, height/2), (width/2, height), (width/2 + width/4, height/2), with Java integer division |
| SierpinskiTriangle.ChildOrder | src/me/oskarmendel/fractals/SierpinskiTriangle.java:84-108 | for a call below MAX_ITER, after its own triangle r[1..1+n] is exactly the first child's whole output, r[1+n..1+2n] the second's and r[1+2n..] the third's, out of 1 + 3n in all; with another level to go, each starts with its child |
| SierpinskiTriangle.AreasBounded | src/me/oskarmendel/fractals/SierpinskiTriangle.java:72-109 | no filled triangle is larger than the starting one; none is degenerate unless that one is |
| SierpinskiTriangle.GenTriangleWithStack | src/me/oskarmendel/fractals/SierpinskiTriangle.java:72-109 | an explicit-stack traversal fills exactly the recursive output, in the same order |
| Subdivision.UnfoldSize | src/me/oskarmendel/fractals/SierpinskiTriangle.java:72-109 | d levels of three-way recursion emit (3^d - 1) / 2 shapes, the starting shape first |
| Subdivision.UnfoldWithStack | src/me/oskarmendel/fractals/SierpinskiTriangle.java:72-109 | popping a call, emitting its shape and pushing its parts last-first reproduces the recursive pre-order output |
| Triangles.Barycentre | src/me/oskarmendel/util/geometry/Triangle.java:60-61 | the vectors from the centre to the vertices sum to zero; the centre lies two thirds of the way from p1 to the midpoint of p2 p3 |
| Triangles.NewTriangle | src/me/oskarmendel/util/geometry/Triangle.java:54-62 | keeps the vertices, angle 0, centre at the barycentre |
| Triangles.NewRotatedTriangle | src/me/oskarmendel/util/geometry/Triangle.java:73-83 | keeps the vertices and the angle; same barycentre centre as the three-point constructor |
| Triangles.SignedArea | src/me/oskarmendel/util/geometry/Triangle.java:91-94 | getArea's formula is half the cross product of the edges p2 - p1 and p3 - p1 |
| Triangles.GetArea | src/me/oskarmendel/util/geometry/Triangle.java:91-94 | getArea is half the cross product of the edges p2 - p1 and p3 - p1 |
| Triangles.AreaDegenerate | src/me/oskarmendel/util/geometry/Triangle.java:92-93 | the area is 0 when two vertices coincide |
| Triangles.AreaSwapNegates | src/me/oskarmendel/util/geometry/Triangle.java:92-93 | swapping p2 and p3 negates the area |
| Triangles.AreaRotationInvariant | src/me/oskarmendel/util/geometry/Triangle.java:92-93 | the cyclic order (p2, p3, p1) has the same area |
| Triangles.AreaFromLastVertex | src/me/oskarmendel/util/geometry/Triangle.java:92-93 | the same area is half the cross product of the edges p1 - p3 and p2 - p3 leaving p3 |
| Triangles.AreaTranslationInvariant | src/me/oskarmendel/util/geometry/Triangle.java:92-93 | moving all three vertices by one vector keeps the area |
| Triangles.AreaIgnoresAngle | src/me/oskarmendel/util/geometry/Triangle.java:73-94 | the constructor's angle does not change getArea |
| Rectangles.NewRectangle | src/me/oskarmendel/util/geometry/Rectangle.java:60-65 | keeps x, y, width and height; angle 0; no centre |
| Rectangles.NewRotatedRectangle | src/me/oskarmendel/util/geometry/Rectangle.java:78-86 | keeps x, y, width, height and the angle; the centre is the midpoint of the diagonal from (x, y) to (x + w, y + h) |
| Rectangles.GetArea | src/me/oskarmendel/util/geometry/Rectangle.java:94-96 | width * height is the total signed area of the two triangles either side of the diagonal |
| Rectangles.Contains | src/me/oskarmendel/util/geometry/Rectangle.java:123-130 | contains(x, y), the nested bounds test; ContainsIff characterises it as closed-box membership |
| Rectangles.ContainsPoint | src/me/oskarmendel/util/geometry/Rectangle.java:105-112 | contains(Point), written out separately as in the Java class; ContainsPointAgrees proves it equals contains(x, y) |
| Rectangles.ContainsPointAgrees | src/me/oskarmendel/util/geometry/Rectangle.java:105-130 | contains(p) = contains(p.getX(), p.getY()) |
| Rectangles.ContainsIff | src/me/oskarmendel/util/geometry/Rectangle.java:123-130 | contains(x, y) holds exactly when this.x <= x <= this.x + width and this.y <= y <= this.y + height |
| Rectangles.ContainsCorners | src/me/oskarmendel/util/geometry/Rectangle.java:105-112 | with width, height >= 0 all four corners are contained |
| Rectangles.ContainsNothingWhenNegative | src/me/oskarmendel/util/geometry/Rectangle.java:123-130 | with a negative width or height no point is contained |
| Rectangles.ContainsIgnoresAngle | src/me/oskarmendel/util/geometry/Rectangle.java:60-86 | the five-argument constructor gives the same containment answers as the four-argument one |
| Rectangles.CenterContained | src/me/oskarmendel/util/geometry/Rectangle.java:85 | with width, height >= 0 the centre lies in the rectangle |
| JavaInt.Div | src/me/oskarmendel/fractals/PythagorasTree.java:51 | Java's int `/` by a positive divisor d truncates toward zero: for a >= 0, d * q is at most a and within one divisor of it; for a < 0, d * q is at least a and within one divisor of it |
| JavaInt.DivNegate | src/me/oskarmendel/fractals/SierpinskiTriangle.java:54-56 | negating the dividend negates the quotient, which is what truncation toward zero means and where it differs from floor division |

## Left out

- Drawing backends are not modelled: `GraphicsContext.strokeLine`/`fillPolygon`, `BufferedImage`/`WritableRaster` and `Graphics2D`. The generators return the primitives, or the sample grid, instead.
- IEEE-754 rounding is not modelled: `double` is `real`, so no claim is made about bit-exact pixels or rounded coordinates.
- `JuliaFractal.GenerateFractal` and `JuliaFractal.PlaneCoordinate` require `width > 0 && height > 0`. The Java code has no dimension check of its own; a non-positive size fails inside `BufferedImage`, which is not part of this model. The tree and triangle generators need no such requirement and have none.
- `Complex.AbsZeroIff`: proves that getAbs is 0 exactly when re^2 + im^2 is 0. It does not go on to "exactly when both parts are 0", because the last step, that a sum of two squares is 0 only when both are 0, was not established for `real`.
- `getAbs` is characterised by the relation `Complex.IsAbs`, not computed, because square roots are not computable over `real`.
- The conversion of the angle to radians (`a * Math.PI / 180`) is not modelled, because pi is not a `real` constant. The shapes keep the angle in degrees. Only the drawing code reads it.
- The rotated drawing paths are not modelled: `Rectangle.draw`/`drawFill` (Rectangle.java:139-276) and `Triangle.draw` (Triangle.java:129-188). They use trigonometry and a `Point.rotate` that the `Point` classes here do not define.
- Unimplemented stubs are not modelled: `Triangle.contains` (both overloads always return false, Triangle.java:103-120), `Triangle.drawFill` (Triangle.java:197-211), `ComplexNumber.toString` (returns "", ComplexNumber.java:101-105) and `JuliaFractal.toString` (the class name, JuliaFractal.java:114-117).
- Getters and the constructors of `Point` and `ComplexNumber` are not separate members. They are the datatype constructors and field destructors, so "a getter returns the constructor's argument" holds by definition.
- The 4-argument `Rectangle` constructor leaves `center` null. The model writes this as `None` and leaves `angle` at its default 0.
- The user interface and wiring are not part of this model: `FractalView`, `FractalFX` and `FractalModel`. Neither is the `Shape` interface, which has no behaviour of its own.
- `MAX_ITER` is 8 (SierpinskiTriangle.java:43).
