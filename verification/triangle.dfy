/**
 * The Triangle shape: three vertices, the barycentre as its centre, and an
 * optional rotation angle. The rotation angle is kept in degrees as given to
 * the constructor; the Java class converts it to radians, which only the drawing
 * code reads.
 */
module Triangles {

  import opened Points

  datatype Triangle = Triangle(p1: Point, p2: Point, p3: Point, center: Point, angleDegrees: real)

  /** The average of the three vertices. */
  function Barycentre(p1: Point, p2: Point, p3: Point): (c: Point)
    ensures Add(Add(Sub(p1, c), Sub(p2, c)), Sub(p3, c)) == Point(0.0, 0.0)
    ensures Sub(c, p1) == Scale(2.0 / 3.0, Sub(MidPoint(p2, p3), p1))
  {
    Point((p1.x + p2.x + p3.x) / 3.0, (p1.y + p2.y + p3.y) / 3.0)
  }

  /** The three-point constructor: no rotation, centre at the barycentre. */
  function NewTriangle(p1: Point, p2: Point, p3: Point): (t: Triangle)
    ensures t.p1 == p1 && t.p2 == p2 && t.p3 == p3
    ensures t.angleDegrees == 0.0
    ensures Add(Add(Sub(p1, t.center), Sub(p2, t.center)), Sub(p3, t.center)) == Point(0.0, 0.0)
  {
    Triangle(p1, p2, p3, Barycentre(p1, p2, p3), 0.0)
  }

  /** The constructor with a rotation angle in degrees; the centre is the barycentre as well. */
  function NewRotatedTriangle(p1: Point, p2: Point, p3: Point, a: real): (t: Triangle)
    ensures t.p1 == p1 && t.p2 == p2 && t.p3 == p3
    ensures t.angleDegrees == a
    ensures Add(Add(Sub(p1, t.center), Sub(p2, t.center)), Sub(p3, t.center)) == Point(0.0, 0.0)
    ensures t.center == NewTriangle(p1, p2, p3).center
  {
    Triangle(p1, p2, p3, Barycentre(p1, p2, p3), a)
  }

  /**
   * The signed area of the triangle p1 p2 p3, as getArea computes it: half the
   * cross product of the edges leaving p1.
   */
  function SignedArea(p1: Point, p2: Point, p3: Point): (a: real)
    ensures a == 0.5 * Cross(Sub(p2, p1), Sub(p3, p1))
  {
    ((p1.x - p3.x) * (p2.y - p1.y) - (p1.x - p2.x) * (p3.y - p1.y)) * 0.5
  }

  /** getArea: half the cross product of the triangle's edges leaving p1. */
  function GetArea(t: Triangle): (a: real)
    ensures 2.0 * a == Cross(Sub(t.p2, t.p1), Sub(t.p3, t.p1))
  {
    SignedArea(t.p1, t.p2, t.p3)
  }

  /** A triangle with two coincident vertices has area zero. */
  lemma AreaDegenerate(p: Point, q: Point)
    ensures SignedArea(p, p, q) == 0.0
    ensures SignedArea(p, q, p) == 0.0
    ensures SignedArea(q, p, p) == 0.0
  {
  }

  /** Swapping two vertices reverses the orientation and so negates the area. */
  lemma AreaSwapNegates(p1: Point, p2: Point, p3: Point)
    ensures SignedArea(p1, p3, p2) == -SignedArea(p1, p2, p3)
  {
  }

  /** Rotating the vertex order keeps the orientation and the area. */
  lemma AreaRotationInvariant(p1: Point, p2: Point, p3: Point)
    ensures SignedArea(p2, p3, p1) == SignedArea(p1, p2, p3)
  {
  }

  /** The area is also half the cross product of the edges leaving p3. */
  lemma AreaFromLastVertex(p1: Point, p2: Point, p3: Point)
    ensures SignedArea(p1, p2, p3) == 0.5 * Cross(Sub(p1, p3), Sub(p2, p3))
  {
    AreaRotationInvariant(p3, p1, p2);
    AreaRotationInvariant(p2, p3, p1);
  }

  /** Moving all three vertices by the same vector keeps the area. */
  lemma AreaTranslationInvariant(p1: Point, p2: Point, p3: Point, d: Point)
    ensures SignedArea(Add(p1, d), Add(p2, d), Add(p3, d)) == SignedArea(p1, p2, p3)
  {
  }

  /** The rotation angle given to the constructor does not change the area. */
  lemma AreaIgnoresAngle(p1: Point, p2: Point, p3: Point, a: real)
    ensures GetArea(NewRotatedTriangle(p1, p2, p3, a)) == GetArea(NewTriangle(p1, p2, p3))
  {
  }
}
