/**
 * The Sierpinski triangle generator. Each call fills its triangle and then
 * recurses into three half-size triangles, one pivoting on the midpoint of each
 * edge, until the iteration counter reaches MAX_ITER. The filled triangles are
 * returned in drawing order instead of being painted.
 */
module SierpinskiTriangle {

  import opened Points
  import opened Powers
  import Triangles
  import opened Subdivision
  import JavaInt

  const MAX_ITER: int := 8

  /** A filled polygon with three vertices. */
  datatype FilledTriangle = FilledTriangle(p1: Point, p2: Point, p3: Point)

  /** The signed area of a filled triangle, by the Triangle shape's area formula. */
  function Area(t: FilledTriangle): real
  {
    Triangles.SignedArea(t.p1, t.p2, t.p3)
  }

  function Abs(a: real): real
  {
    if a < 0.0 then -a else a
  }

  /**
   * The bottom-left child: pivots on the midpoint of p1 p2, and its edges from
   * the pivot are half the parent's edges from p3 to p1 and to p2.
   */
  function FirstChild(t: FilledTriangle): (c: FilledTriangle)
  {
    var m := MidPoint(t.p1, t.p2);
    FilledTriangle(Point(m.x + (t.p1.x - t.p3.x) / 2.0, m.y + (t.p1.y - t.p3.y) / 2.0),
                   Point(m.x + (t.p2.x - t.p3.x) / 2.0, m.y + (t.p2.y - t.p3.y) / 2.0),
                   m)
  }

  /**
   * The bottom-right child: pivots on the midpoint of p2 p3, and its edges from
   * the pivot are half the parent's edges from p1 to p3 and to p2.
   */
  function SecondChild(t: FilledTriangle): (c: FilledTriangle)
  {
    var m := MidPoint(t.p2, t.p3);
    FilledTriangle(Point(m.x + (t.p3.x - t.p1.x) / 2.0, m.y + (t.p3.y - t.p1.y) / 2.0),
                   Point(m.x + (t.p2.x - t.p1.x) / 2.0, m.y + (t.p2.y - t.p1.y) / 2.0),
                   m)
  }

  /**
   * The top child: pivots on the midpoint of p1 p3, and its edges from the
   * pivot are half the parent's edges from p2 to p3 and to p1.
   */
  function ThirdChild(t: FilledTriangle): (c: FilledTriangle)
  {
    var m := MidPoint(t.p1, t.p3);
    FilledTriangle(Point(m.x + (t.p3.x - t.p2.x) / 2.0, m.y + (t.p3.y - t.p2.y) / 2.0),
                   Point(m.x + (t.p1.x - t.p2.x) / 2.0, m.y + (t.p1.y - t.p2.y) / 2.0),
                   m)
  }

  /**
   * Each child pivots on the midpoint of one parent edge, and its two edges
   * from the pivot are halves of the parent's edges from the opposite vertex.
   */
  lemma ChildrenHalveParent(t: FilledTriangle)
    ensures FirstChild(t).p3 == MidPoint(t.p1, t.p2)
    ensures Sub(FirstChild(t).p1, FirstChild(t).p3) == Scale(0.5, Sub(t.p1, t.p3))
    ensures Sub(FirstChild(t).p2, FirstChild(t).p3) == Scale(0.5, Sub(t.p2, t.p3))
    ensures SecondChild(t).p3 == MidPoint(t.p2, t.p3)
    ensures Sub(SecondChild(t).p1, SecondChild(t).p3) == Scale(0.5, Sub(t.p3, t.p1))
    ensures Sub(SecondChild(t).p2, SecondChild(t).p3) == Scale(0.5, Sub(t.p2, t.p1))
    ensures ThirdChild(t).p3 == MidPoint(t.p1, t.p3)
    ensures Sub(ThirdChild(t).p1, ThirdChild(t).p3) == Scale(0.5, Sub(t.p3, t.p2))
    ensures Sub(ThirdChild(t).p2, ThirdChild(t).p3) == Scale(0.5, Sub(t.p1, t.p2))
  {
  }

  /**
   * Each child covers a quarter of its parent's area; the first and third keep
   * the parent's orientation, the second reverses it.
   */
  lemma ChildAreas(t: FilledTriangle)
    ensures 4.0 * Area(FirstChild(t)) == Area(t)
    ensures 4.0 * Area(SecondChild(t)) == -Area(t)
    ensures 4.0 * Area(ThirdChild(t)) == Area(t)
    ensures 4.0 * Abs(Area(FirstChild(t))) == Abs(Area(t))
    ensures 4.0 * Abs(Area(SecondChild(t))) == Abs(Area(t))
    ensures 4.0 * Abs(Area(ThirdChild(t))) == Abs(Area(t))
  {
    var c1, c2, c3 := FirstChild(t), SecondChild(t), ThirdChild(t);
    ChildrenHalveParent(t);
    // Each child's area is taken from its pivot p3, whose two edges are half
    // the parent's edges from one vertex; the parent's area from that vertex.
    Triangles.AreaFromLastVertex(c1.p1, c1.p2, c1.p3);
    Triangles.AreaFromLastVertex(c2.p1, c2.p2, c2.p3);
    Triangles.AreaFromLastVertex(c3.p1, c3.p2, c3.p3);
    CrossScale(0.5, Sub(t.p1, t.p3), Sub(t.p2, t.p3));
    CrossScale(0.5, Sub(t.p3, t.p1), Sub(t.p2, t.p1));
    CrossScale(0.5, Sub(t.p3, t.p2), Sub(t.p1, t.p2));
    Triangles.AreaFromLastVertex(t.p1, t.p2, t.p3);
    assert Area(t) == 0.5 * Cross(Sub(t.p2, t.p1), Sub(t.p3, t.p1));
    CrossAntisymmetric(Sub(t.p2, t.p1), Sub(t.p3, t.p1));
    Triangles.AreaFromLastVertex(t.p3, t.p1, t.p2);
    Triangles.AreaRotationInvariant(t.p1, t.p2, t.p3);
    Triangles.AreaRotationInvariant(t.p3, t.p1, t.p2);
  }

  /** The number of recursion levels still to run at an iteration counter. */
  function Levels(iter: int): nat
  {
    if iter >= MAX_ITER then 0 else MAX_ITER - iter
  }

  /** The generator's children, in the order it visits them. */
  function Split(t: FilledTriangle): Triple<FilledTriangle>
  {
    Triple(FirstChild(t), SecondChild(t), ThirdChild(t))
  }

  /**
   * The recursive generator: fill t, then recurse into the three children in
   * order, for the levels left before the counter reaches MAX_ITER. It is
   * three-way subdivision by Split; GenTriangleUnfold spells out one step.
   */
  function GenTriangle(t: FilledTriangle, iter: int): seq<FilledTriangle>
  {
    Unfold(Split, t, Levels(iter))
  }

  /** A call below the bound fills its own triangle, then its three children's outputs in turn. */
  lemma GenTriangleUnfold(t: FilledTriangle, iter: int)
    requires iter < MAX_ITER
    ensures GenTriangle(t, iter)
            == [t] + GenTriangle(FirstChild(t), iter + 1)
                   + GenTriangle(SecondChild(t), iter + 1)
                   + GenTriangle(ThirdChild(t), iter + 1)
  {
    assert Levels(iter) == Levels(iter + 1) + 1;
    UnfoldStep(Split, t, Levels(iter));
  }

  /**
   * A call at or past the bound fills nothing, and a call with k levels to go
   * fills (3^k - 1) / 2 triangles, its own first.
   */
  lemma GenTriangleSize(t: FilledTriangle, iter: int)
    ensures iter >= MAX_ITER ==> GenTriangle(t, iter) == []
    ensures 2 * |GenTriangle(t, iter)| + 1 == Pow(3, Levels(iter))
    ensures iter < MAX_ITER ==> |GenTriangle(t, iter)| > 0 && GenTriangle(t, iter)[0] == t
  {
    UnfoldSize(Split, t, Levels(iter));
  }

  /**
   * The root triangle, from the canvas size with Java integer division. Its
   * top edge p1 p3 is horizontal and, on a canvas of non-negative size, it
   * points down to p2 on the bottom line, with p2 between p1 and p3 across.
   */
  function RootTriangle(width: int, height: int): (t: FilledTriangle)
    ensures t.p1.y == t.p3.y && t.p2.y == height as real
    ensures height >= 0 ==> t.p1.y <= t.p2.y
    ensures width >= 0 ==> t.p1.x <= t.p2.x <= t.p3.x
  {
    var w2, w4, h2 := JavaInt.Div(width, 2), JavaInt.Div(width, 4), JavaInt.Div(height, 2);
    FilledTriangle(Point(w4 as real, h2 as real),
                   Point(w2 as real, height as real),
                   Point((w2 + w4) as real, h2 as real))
  }

  /** The root call fills 3280 triangles, the root triangle first. */
  function DrawTriangle(width: int, height: int): (r: seq<FilledTriangle>)
    ensures |r| == 3280
    ensures r[0] == RootTriangle(width, height)
  {
    var t := RootTriangle(width, height);
    FullDepthCall(t, 0);
    GenTriangle(t, 0)
  }

  /** A call with all eight levels to go fills 3280 triangles, its own first. */
  lemma FullDepthCall(t: FilledTriangle, iter: int)
    requires Levels(iter) == 8
    ensures |GenTriangle(t, iter)| == 3280
    ensures GenTriangle(t, iter)[0] == t
  {
    GenTriangleSize(t, iter);
    TriangleCountFromRoot();
  }

  lemma TriangleCountFromRoot()
    ensures Pow(3, 8) == 6561
  {
    assert Pow(3, 4) == 81 by {
      assert Pow(3, 2) == 9;
    }
    assert Pow(3, 8) == 6561 by {
      assert Pow(3, 5) == 243;
      assert Pow(3, 6) == 729;
      assert Pow(3, 7) == 2187;
    }
  }

  /**
   * The children are drawn in a fixed order, each child's whole output before
   * the next child's: the first child right after the parent, the second after
   * all n triangles of the first, the third after those of the second.
   */
  lemma ChildOrder(t: FilledTriangle, iter: int)
    requires iter < MAX_ITER
    ensures var r := GenTriangle(t, iter);
            var n := |GenTriangle(FirstChild(t), iter + 1)|;
            && 2 * n + 1 == Pow(3, Levels(iter + 1))
            && |r| == 1 + 3 * n
            && r[0] == t
            && (iter + 1 < MAX_ITER ==>
                  r[1] == FirstChild(t) && r[1 + n] == SecondChild(t) && r[1 + 2 * n] == ThirdChild(t))
            && r[1..1 + n] == GenTriangle(FirstChild(t), iter + 1)
            && r[1 + n..1 + 2 * n] == GenTriangle(SecondChild(t), iter + 1)
            && r[1 + 2 * n..] == GenTriangle(ThirdChild(t), iter + 1)
  {
    var a := GenTriangle(FirstChild(t), iter + 1);
    var b := GenTriangle(SecondChild(t), iter + 1);
    var c := GenTriangle(ThirdChild(t), iter + 1);
    var r := GenTriangle(t, iter);
    GenTriangleUnfold(t, iter);
    GenTriangleSize(FirstChild(t), iter + 1);
    GenTriangleSize(SecondChild(t), iter + 1);
    GenTriangleSize(ThirdChild(t), iter + 1);
    assert r == [t] + a + b + c;
    assert r[1..1 + |a|] == a;
    assert r[1 + |a|..1 + 2 * |a|] == b;
    assert r[1 + 2 * |a|..] == c;
    if iter + 1 < MAX_ITER {
      assert r[1 + |a|] == b[0];
      assert r[1 + 2 * |a|] == c[0];
    }
  }

  /**
   * No triangle of s is larger than t, and none is degenerate unless t is.
   */
  ghost predicate AreasBoundedBy(s: seq<FilledTriangle>, t: FilledTriangle)
  {
    forall i :: 0 <= i < |s| ==>
      && Abs(Area(s[i])) <= Abs(Area(t))
      && (Area(t) != 0.0 ==> Area(s[i]) != 0.0)
  }

  lemma BoundedConcat(a: seq<FilledTriangle>, b: seq<FilledTriangle>, t: FilledTriangle)
    requires AreasBoundedBy(a, t) && AreasBoundedBy(b, t)
    ensures AreasBoundedBy(a + b, t)
  {
    forall i | 0 <= i < |a + b|
      ensures Abs(Area((a + b)[i])) <= Abs(Area(t))
      ensures Area(t) != 0.0 ==> Area((a + b)[i]) != 0.0
    {
      if i >= |a| {
        assert (a + b)[i] == b[i - |a|];
      }
    }
  }

  /** A bound by a child carries over to its parent, which is four times larger. */
  lemma BoundedByChild(s: seq<FilledTriangle>, c: FilledTriangle, t: FilledTriangle)
    requires AreasBoundedBy(s, c)
    requires 4.0 * Abs(Area(c)) == Abs(Area(t))
    ensures AreasBoundedBy(s, t)
  {
  }

  /**
   * No triangle the generator fills is larger than the one it started from,
   * and none is degenerate unless that one is.
   */
  lemma {:induction false} AreasBounded(t: FilledTriangle, iter: int)
    ensures AreasBoundedBy(GenTriangle(t, iter), t)
    decreases MAX_ITER - iter
  {
    if iter < MAX_ITER {
      var c1, c2, c3 := FirstChild(t), SecondChild(t), ThirdChild(t);
      var a, b, c := GenTriangle(c1, iter + 1), GenTriangle(c2, iter + 1), GenTriangle(c3, iter + 1);
      ChildAreas(t);
      AreasBounded(c1, iter + 1);
      BoundedByChild(a, c1, t);
      AreasBounded(c2, iter + 1);
      BoundedByChild(b, c2, t);
      AreasBounded(c3, iter + 1);
      BoundedByChild(c, c3, t);
      assert AreasBoundedBy([t], t);
      BoundedConcat([t], a, t);
      BoundedConcat([t] + a, b, t);
      BoundedConcat([t] + a + b, c, t);
      GenTriangleUnfold(t, iter);
    }
  }

  /**
   * The generator run with an explicit stack instead of recursion. It fills
   * exactly what the recursive generator fills, in the same order.
   */
  method GenTriangleWithStack(t: FilledTriangle, iter: int) returns (out: seq<FilledTriangle>)
    ensures out == GenTriangle(t, iter)
  {
    out := UnfoldWithStack(Split, t, Levels(iter));
  }
}
