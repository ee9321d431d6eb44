/**
 * The Rectangle shape: upper-left corner (x, y), width, height, an optional
 * rotation angle and a centre. The four-argument constructor leaves the angle
 * at zero and the centre unset (a null reference in the Java class); the
 * five-argument constructor sets both. The angle is kept in degrees as given;
 * the Java class converts it to radians, which only the drawing code reads.
 */
module Rectangles {

  import opened Points
  import opened Options
  import Triangles

  datatype Rectangle = Rectangle(x: real, y: real, width: real, height: real,
                                 angleDegrees: real, center: Option<Point>)

  function NewRectangle(x: real, y: real, w: real, h: real): (r: Rectangle)
    ensures r.x == x && r.y == y && r.width == w && r.height == h
    ensures r.angleDegrees == 0.0 && r.center == None
  {
    Rectangle(x, y, w, h, 0.0, None)
  }

  /** The rotated rectangle's centre is the midpoint of its diagonal. */
  function NewRotatedRectangle(x: real, y: real, w: real, h: real, a: real): (r: Rectangle)
    ensures r.x == x && r.y == y && r.width == w && r.height == h
    ensures r.angleDegrees == a
    ensures r.center == Some(MidPoint(Point(x, y), Point(x + w, y + h)))
  {
    Rectangle(x, y, w, h, a, Some(Point(x + (w / 2.0), y + (h / 2.0))))
  }

  function TopLeft(r: Rectangle): Point { Point(r.x, r.y) }
  function TopRight(r: Rectangle): Point { Point(r.x + r.width, r.y) }
  function BottomLeft(r: Rectangle): Point { Point(r.x, r.y + r.height) }
  function BottomRight(r: Rectangle): Point { Point(r.x + r.width, r.y + r.height) }

  /** The area is what the two triangles either side of the diagonal cover together. */
  function GetArea(r: Rectangle): (a: real)
    ensures a == Triangles.SignedArea(TopLeft(r), TopRight(r), BottomLeft(r))
                 + Triangles.SignedArea(TopRight(r), BottomRight(r), BottomLeft(r))
  {
    r.width * r.height
  }

  /** contains(double x, double y): the test on the two coordinates, bounds included. */
  function Contains(r: Rectangle, px: real, py: real): bool
  {
    if px >= r.x && px <= r.x + r.width then
      if py >= r.y && py <= r.y + r.height then
        true
      else
        false
    else
      false
  }

  /** contains(Point p): the same test, reading the point's coordinates. */
  function ContainsPoint(r: Rectangle, p: Point): bool
  {
    if p.x >= r.x && p.x <= r.x + r.width then
      if p.y >= r.y && p.y <= r.y + r.height then
        true
      else
        false
    else
      false
  }

  lemma ContainsPointAgrees(r: Rectangle, p: Point)
    ensures ContainsPoint(r, p) == Contains(r, p.x, p.y)
  {
  }

  /** Containment is membership in the closed box [x, x + width] x [y, y + height]. */
  lemma ContainsIff(r: Rectangle, px: real, py: real)
    ensures Contains(r, px, py) <==>
              r.x <= px <= r.x + r.width && r.y <= py <= r.y + r.height
  {
  }

  /** With non-negative sides the bounds are inclusive, so every corner is contained. */
  lemma ContainsCorners(r: Rectangle)
    requires r.width >= 0.0 && r.height >= 0.0
    ensures ContainsPoint(r, TopLeft(r)) && ContainsPoint(r, TopRight(r))
    ensures ContainsPoint(r, BottomLeft(r)) && ContainsPoint(r, BottomRight(r))
  {
  }

  /** A negative width or height makes the box empty. */
  lemma ContainsNothingWhenNegative(r: Rectangle, px: real, py: real)
    requires r.width < 0.0 || r.height < 0.0
    ensures !Contains(r, px, py)
  {
  }

  /** The rotation angle plays no part in containment. */
  lemma ContainsIgnoresAngle(x: real, y: real, w: real, h: real, a: real, px: real, py: real)
    ensures Contains(NewRotatedRectangle(x, y, w, h, a), px, py) == Contains(NewRectangle(x, y, w, h), px, py)
  {
  }

  /** The centre set by the five-argument constructor lies in the rectangle when its sides are non-negative. */
  lemma CenterContained(x: real, y: real, w: real, h: real, a: real)
    requires w >= 0.0 && h >= 0.0
    ensures var r := NewRotatedRectangle(x, y, w, h, a);
            r.center.Some? && ContainsPoint(r, r.center.value)
  {
  }
}
