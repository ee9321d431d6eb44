/**
 * The Julia set generator: every pixel of a width x height image is mapped to a
 * point of the square [-1, 1) x [-1, 1) of the complex plane, the map
 * z -> z^2 + seed is iterated from that point until the magnitude exceeds the
 * threshold or the iteration cap is reached, and the number of iterations made
 * is the pixel's gray sample. The image is returned as rows of samples,
 * `img[y][x]`, instead of being written into a raster.
 */
module JuliaFractal {

  import opened Complex

  const MAX_RANGE: real := 1.0
  const MIN_RANGE: real := -1.0
  const THRESHOLD: int := 2
  const MAX_ITERATIONS: nat := 100

  /** The largest value an 8-bit gray sample holds. */
  const MAX_GRAY_SAMPLE: nat := 255

  /**
   * Maps pixel coordinate `x` of an axis `size` pixels long onto the plane.
   * Every pixel of the axis lands in [MIN_RANGE, MAX_RANGE).
   */
  function PlaneCoordinate(x: int, size: int): (a: real)
    requires size > 0
    ensures 0 <= x < size ==> MIN_RANGE <= a < MAX_RANGE
  {
    var q := x as real * (MAX_RANGE - MIN_RANGE) / size as real;
    assert 0 <= x < size ==> 0.0 <= q < MAX_RANGE - MIN_RANGE by {
      if 0 <= x < size {
        DivisionBounds(x as real * (MAX_RANGE - MIN_RANGE), size as real, MAX_RANGE - MIN_RANGE);
      }
    }
    q + MIN_RANGE
  }

  /** 0 <= n < k * d implies 0 <= n / d < k, for positive d. */
  lemma DivisionBounds(n: real, d: real, k: real)
    requires d > 0.0
    requires 0.0 <= n < k * d
    ensures 0.0 <= n / d < k
  {
  }

  /** One step of the iteration, computed from the old real and imaginary parts. */
  function ApplyFunction(z: ComplexNumber, realSeed: real, imaginarySeed: real): (r: ComplexNumber)
    ensures r == Plus(Times(z, z), ComplexNumber(realSeed, imaginarySeed))
  {
    var re := z.re * z.re - z.im * z.im + realSeed;
    var im := 2.0 * z.re * z.im + imaginarySeed;
    SetImaginary(SetReal(z, re), im)
  }

  /**
   * The step adds the seed. Read as z^2 - c, as the class comment puts it, the
   * constant c is the negated seed.
   */
  lemma ApplyFunctionSubtractsNegatedSeed(z: ComplexNumber, realSeed: real, imaginarySeed: real)
    ensures ApplyFunction(z, realSeed, imaginarySeed)
            == Minus(Times(z, z), ComplexNumber(-realSeed, -imaginarySeed))
  {
  }

  /** The n-th iterate of the step from z0. */
  function Iterate(z0: ComplexNumber, realSeed: real, imaginarySeed: real, n: nat): ComplexNumber
  {
    if n == 0 then z0 else ApplyFunction(Iterate(z0, realSeed, imaginarySeed, n - 1), realSeed, imaginarySeed)
  }

  /**
   * The iteration stops once the magnitude exceeds THRESHOLD. The test is made
   * on the squared magnitude; EscapedMatchesAbs shows it agrees with the
   * square-root test of Java's `getAbs`.
   */
  predicate Escaped(z: ComplexNumber)
  {
    NormSq(z) > (THRESHOLD * THRESHOLD) as real
  }

  lemma EscapedMatchesAbs(z: ComplexNumber, r: real)
    requires IsAbs(z, r)
    ensures Escaped(z) <==> !(r <= THRESHOLD as real)
  {
    AbsAtMostIff(z, r, THRESHOLD as real);
  }

  /**
   * The count reached from iterate i on: the first index j >= i at which the
   * iterate has escaped, or MAX_ITERATIONS if there is none below it.
   */
  function EscapeFrom(z0: ComplexNumber, realSeed: real, imaginarySeed: real, i: nat): (n: nat)
    requires i <= MAX_ITERATIONS
    ensures i <= n <= MAX_ITERATIONS
    ensures n < MAX_ITERATIONS ==> Escaped(Iterate(z0, realSeed, imaginarySeed, n))
    ensures forall j :: i <= j < n ==> !Escaped(Iterate(z0, realSeed, imaginarySeed, j))
    decreases MAX_ITERATIONS - i
  {
    if i < MAX_ITERATIONS && !Escaped(Iterate(z0, realSeed, imaginarySeed, i)) then
      EscapeFrom(z0, realSeed, imaginarySeed, i + 1)
    else
      i
  }

  /**
   * The escape-time count of z0: the least j with j = MAX_ITERATIONS or
   * |z_j| > THRESHOLD, every earlier iterate having stayed within the threshold.
   */
  function EscapeTime(z0: ComplexNumber, realSeed: real, imaginarySeed: real): (n: nat)
    ensures n <= MAX_ITERATIONS
    ensures n < MAX_ITERATIONS ==> Escaped(Iterate(z0, realSeed, imaginarySeed, n))
    ensures forall j :: 0 <= j < n ==> !Escaped(Iterate(z0, realSeed, imaginarySeed, j))
    ensures n == 0 <==> Escaped(z0)
  {
    EscapeFrom(z0, realSeed, imaginarySeed, 0)
  }

  /** Any count with the escape-time characterisation is the escape time. */
  lemma EscapeTimeUnique(z0: ComplexNumber, realSeed: real, imaginarySeed: real, n: nat)
    requires n <= MAX_ITERATIONS
    requires n < MAX_ITERATIONS ==> Escaped(Iterate(z0, realSeed, imaginarySeed, n))
    requires forall j :: 0 <= j < n ==> !Escaped(Iterate(z0, realSeed, imaginarySeed, j))
    ensures n == EscapeTime(z0, realSeed, imaginarySeed)
  {
    // Neither count can be below the other: the smaller one would be an index
    // the larger one's contract says has not escaped.
  }

  /** The starting point of pixel (x, y). */
  function PixelStart(x: int, y: int, width: int, height: int): ComplexNumber
    requires width > 0 && height > 0
  {
    ComplexNumber(PlaneCoordinate(x, width), PlaneCoordinate(y, height))
  }

  /** Every pixel of the image starts inside the square [-1, 1) x [-1, 1). */
  lemma PixelStartInRange(x: int, y: int, width: int, height: int)
    requires 0 <= x < width && 0 <= y < height
    ensures MIN_RANGE <= PixelStart(x, y, width, height).re < MAX_RANGE
    ensures MIN_RANGE <= PixelStart(x, y, width, height).im < MAX_RANGE
  {
  }

  /** The sample of pixel (x, y): a function of the pixel, the image size and the seed alone. */
  function PixelCount(x: int, y: int, width: int, height: int, realSeed: real, imaginarySeed: real): (n: nat)
    requires width > 0 && height > 0
    ensures n <= MAX_ITERATIONS
    ensures n == 0 <==> Escaped(PixelStart(x, y, width, height))
  {
    EscapeTime(PixelStart(x, y, width, height), realSeed, imaginarySeed)
  }

  /** The per-pixel loop: counts steps while below the cap and within the threshold. */
  method CountIterations(z0: ComplexNumber, realSeed: real, imaginarySeed: real) returns (i: nat)
    ensures i <= MAX_ITERATIONS
    ensures i < MAX_ITERATIONS ==> Escaped(Iterate(z0, realSeed, imaginarySeed, i))
    ensures forall j :: 0 <= j < i ==> !Escaped(Iterate(z0, realSeed, imaginarySeed, j))
    ensures i == EscapeTime(z0, realSeed, imaginarySeed)
  {
    var c := z0;
    i := 0;
    while i < MAX_ITERATIONS && !Escaped(c)
      invariant i <= MAX_ITERATIONS
      invariant c == Iterate(z0, realSeed, imaginarySeed, i)
      invariant forall j :: 0 <= j < i ==> !Escaped(Iterate(z0, realSeed, imaginarySeed, j))
      decreases MAX_ITERATIONS - i
    {
      c := ApplyFunction(c, realSeed, imaginarySeed);
      i := i + 1;
    }
    EscapeTimeUnique(z0, realSeed, imaginarySeed, i);
  }

  /**
   * Generates the image: one sample per pixel, `img[y][x]` being the escape
   * time of pixel (x, y), which fits an 8-bit gray sample.
   */
  method GenerateFractal(width: int, height: int, realSeed: real, imaginarySeed: real)
    returns (img: seq<seq<nat>>)
    requires width > 0 && height > 0
    ensures |img| == height
    ensures forall y :: 0 <= y < height ==> |img[y]| == width
    ensures forall y, x :: 0 <= y < height && 0 <= x < width ==>
              img[y][x] == PixelCount(x, y, width, height, realSeed, imaginarySeed)
    ensures forall y, x :: 0 <= y < height && 0 <= x < width ==>
              img[y][x] <= MAX_ITERATIONS <= MAX_GRAY_SAMPLE
  {
    img := [];
    var y := 0;
    while y < height
      invariant 0 <= y <= height
      invariant |img| == y
      invariant forall yy :: 0 <= yy < y ==> |img[yy]| == width
      invariant forall yy, x :: 0 <= yy < y && 0 <= x < width ==>
                  img[yy][x] == PixelCount(x, yy, width, height, realSeed, imaginarySeed)
    {
      var row: seq<nat> := [];
      var x := 0;
      while x < width
        invariant 0 <= x <= width
        invariant |row| == x
        invariant forall xx :: 0 <= xx < x ==> row[xx] == PixelCount(xx, y, width, height, realSeed, imaginarySeed)
      {
        var i := CountIterations(PixelStart(x, y, width, height), realSeed, imaginarySeed);
        row := row + [i];
        x := x + 1;
      }
      img := img + [row];
      y := y + 1;
    }
  }
}
