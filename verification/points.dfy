/**
 * A point of the plane with real coordinates. The application has two textually
 * identical Point classes (one used by the Sierpinski generator, one used by the
 * geometric shapes); both are this one datatype. The getters are the datatype's
 * destructors `x` and `y`, and the constructor is the datatype constructor.
 */
module Points {

  datatype Point = Point(x: real, y: real)

  /** The point halfway between p1 and p2, as the static midPoint helper computes it. */
  function MidPoint(p1: Point, p2: Point): (m: Point)
    ensures m.x - p1.x == p2.x - m.x
    ensures m.y - p1.y == p2.y - m.y
  {
    Point((p1.x + p2.x) / 2.0, (p1.y + p2.y) / 2.0)
  }

  // Vector arithmetic on points, used to state the geometric identities.

  function Add(p: Point, q: Point): Point
  {
    Point(p.x + q.x, p.y + q.y)
  }

  function Sub(p: Point, q: Point): Point
  {
    Point(p.x - q.x, p.y - q.y)
  }

  function Scale(k: real, p: Point): Point
  {
    Point(k * p.x, k * p.y)
  }

  /** Dot product of two vectors. */
  function Dot(u: Point, v: Point): real
  {
    u.x * v.x + u.y * v.y
  }

  /** Squared Euclidean length of a vector. */
  function NormSq(u: Point): real
  {
    Dot(u, u)
  }

  /** The z-component of the cross product of two vectors. */
  function Cross(u: Point, v: Point): real
  {
    u.x * v.y - u.y * v.x
  }

  /** Scaling both vectors by k scales their cross product by k squared. */
  lemma CrossScale(k: real, u: Point, v: Point)
    ensures Cross(Scale(k, u), Scale(k, v)) == k * k * Cross(u, v)
  {
    calc {
      Cross(Scale(k, u), Scale(k, v));
      (k * u.x) * (k * v.y) - (k * u.y) * (k * v.x);
      k * k * (u.x * v.y) - k * k * (u.y * v.x);
    }
  }

  /** Swapping the vectors negates their cross product. */
  lemma CrossAntisymmetric(u: Point, v: Point)
    ensures Cross(v, u) == -Cross(u, v)
  {
  }

  function Min(a: real, b: real): real
  {
    if a <= b then a else b
  }

  function Max(a: real, b: real): real
  {
    if a <= b then b else a
  }

  lemma MidPointSymmetric(p1: Point, p2: Point)
    ensures MidPoint(p1, p2) == MidPoint(p2, p1)
  {
  }

  lemma MidPointIdempotent(p: Point)
    ensures MidPoint(p, p) == p
  {
  }

  /** The midpoint is reached from p1 by half the vector from p1 to p2. */
  lemma MidPointHalfway(p1: Point, p2: Point)
    ensures Sub(MidPoint(p1, p2), p1) == Scale(0.5, Sub(p2, p1))
    ensures Sub(p2, MidPoint(p1, p2)) == Scale(0.5, Sub(p2, p1))
  {
  }

  /** Each coordinate of the midpoint lies between the inputs' coordinates. */
  lemma MidPointBetween(p1: Point, p2: Point)
    ensures Min(p1.x, p2.x) <= MidPoint(p1, p2).x <= Max(p1.x, p2.x)
    ensures Min(p1.y, p2.y) <= MidPoint(p1, p2).y <= Max(p1.y, p2.y)
  {
  }
}
