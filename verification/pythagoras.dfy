/**
 * The Pythagoras tree generator. Each call on a base edge (p1, p2) draws the
 * square standing on that edge and the right-isosceles roof on top of it, then
 * recurses on the two roof edges, until the branch counter reaches MAX_BRANCH.
 * The line segments are returned in drawing order instead of being stroked.
 */
module PythagorasTree {

  import opened Points
  import opened Powers
  import JavaInt

  const MAX_BRANCH: int := 14

  /** A stroked line from `from` to `to`. */
  datatype Segment = Segment(from: Point, to: Point)

  /**
   * The square p1 p2 p3 p4 standing on base p1 p2 and the apex p5 of its roof.
   */
  datatype Frame = Frame(p1: Point, p2: Point, p3: Point, p4: Point, p5: Point)

  /**
   * p1 p2 p3 p4 is a square (opposite sides equal, adjacent sides perpendicular
   * and of equal length), and p4 p5 p3 is a right isosceles triangle with its
   * right angle at p5, so each roof edge has half the squared length of the base.
   */
  ghost predicate SquareWithRoof(f: Frame)
  {
    && Sub(f.p3, f.p4) == Sub(f.p2, f.p1)
    && Dot(Sub(f.p3, f.p2), Sub(f.p2, f.p1)) == 0.0
    && NormSq(Sub(f.p3, f.p2)) == NormSq(Sub(f.p2, f.p1))
    && Dot(Sub(f.p5, f.p4), Sub(f.p3, f.p5)) == 0.0
    && NormSq(Sub(f.p5, f.p4)) == NormSq(Sub(f.p3, f.p5))
    && 2.0 * NormSq(Sub(f.p5, f.p4)) == NormSq(Sub(f.p2, f.p1))
  }

  /** The corners computed from the base edge, by rotating the edge vector a quarter turn. */
  function MakeFrame(p1: Point, p2: Point): (f: Frame)
    ensures f.p1 == p1 && f.p2 == p2
  {
    Frame(p1, p2,
          Point(p2.x - (p1.y - p2.y), p2.y - (p2.x - p1.x)),
          Point(p1.x - (p1.y - p2.y), p1.y - (p2.x - p1.x)),
          Point(p1.x - (p1.y - p2.y) + 0.5 * ((p2.x - p1.x) - (p1.y - p2.y)),
                p1.y - (p2.x - p1.x) - 0.5 * ((p2.x - p1.x) + (p1.y - p2.y))))
  }

  /** Every frame the generator computes is a square with a right-isosceles roof. */
  lemma MakeFrameIsSquareWithRoof(p1: Point, p2: Point)
    ensures SquareWithRoof(MakeFrame(p1, p2))
  {
  }

  /** The six strokes of one call: the square p1 p2 p3 p4, then the roof p4 p5 p3. */
  function Outline(f: Frame): (s: seq<Segment>)
    ensures |s| == 6
  {
    [Segment(f.p1, f.p2), Segment(f.p2, f.p3), Segment(f.p3, f.p4), Segment(f.p4, f.p1),
     Segment(f.p4, f.p5), Segment(f.p5, f.p3)]
  }

  /** The number of recursion levels still to run at a branch counter. */
  function Levels(branch: int): nat
  {
    if branch >= MAX_BRANCH then 0 else MAX_BRANCH - branch
  }

  /**
   * The recursive generator. It terminates because the branch counter rises
   * towards MAX_BRANCH; a call at or past the bound draws nothing, and a call
   * with k levels to go draws 6 * (2^k - 1) segments.
   */
  function GenTree(p1: Point, p2: Point, branch: int): (r: seq<Segment>)
    ensures branch >= MAX_BRANCH ==> r == []
    ensures |r| == 6 * (Pow(2, Levels(branch)) - 1)
    decreases MAX_BRANCH - branch
  {
    if branch >= MAX_BRANCH then
      []
    else
      var f := MakeFrame(p1, p2);
      Outline(f) + GenTree(f.p4, f.p5, branch + 1) + GenTree(f.p5, f.p3, branch + 1)
  }

  /**
   * The root call: a base edge of length 100 starting 50 left of the canvas's
   * middle (Java integer division), on its bottom line.
   */
  function DrawTree(width: int, height: int): (r: seq<Segment>)
    ensures |r| == 98298
    ensures r[0].from == Point((JavaInt.Div(width, 2) - 50) as real, height as real)
    ensures r[0].to == Point((JavaInt.Div(width, 2) - 50 + 100) as real, height as real)
  {
    var p1 := Point((JavaInt.Div(width, 2) - 50) as real, height as real);
    var p2 := Point((JavaInt.Div(width, 2) - 50 + 100) as real, height as real);
    TreeSizeFromRoot();
    FirstSegmentIsBase(p1, p2, 0);
    GenTree(p1, p2, 0)
  }

  lemma TreeSizeFromRoot()
    ensures 6 * (Pow(2, Levels(0)) - 1) == 98298
  {
    assert Levels(0) == 14;
    assert Pow(2, 4) == 16;
    assert Pow(2, 8) == 16 * 16 by {
      assert Pow(2, 5) == 32;
      assert Pow(2, 6) == 64;
      assert Pow(2, 7) == 128;
    }
    assert Pow(2, 14) == 16384 by {
      assert Pow(2, 9) == 512;
      assert Pow(2, 10) == 1024;
      assert Pow(2, 11) == 2048;
      assert Pow(2, 12) == 4096;
      assert Pow(2, 13) == 8192;
    }
  }

  /** A call that draws anything draws its base edge first. */
  lemma FirstSegmentIsBase(p1: Point, p2: Point, branch: int)
    requires branch < MAX_BRANCH
    ensures |GenTree(p1, p2, branch)| > 0
    ensures GenTree(p1, p2, branch)[0] == Segment(p1, p2)
  {
    var f := MakeFrame(p1, p2);
    assert GenTree(p1, p2, branch) == Outline(f) + GenTree(f.p4, f.p5, branch + 1) + GenTree(f.p5, f.p3, branch + 1);
  }

  /** Six consecutive strokes that outline one square with its roof, as one call draws them. */
  ghost predicate IsTreeBlock(s: seq<Segment>)
    requires |s| == 6
  {
    var f := Frame(s[0].from, s[0].to, s[1].to, s[2].to, s[4].to);
    s == Outline(f) && SquareWithRoof(f)
  }

  /** s is a sequence of complete blocks. */
  ghost predicate AllBlocks(s: seq<Segment>)
    decreases |s|
  {
    if |s| == 0 then true
    else |s| >= 6 && IsTreeBlock(s[..6]) && AllBlocks(s[6..])
  }

  lemma {:induction false} AllBlocksAppend(a: seq<Segment>, b: seq<Segment>)
    requires AllBlocks(a) && AllBlocks(b)
    ensures AllBlocks(a + b)
    decreases |a|
  {
    if |a| != 0 {
      assert (a + b)[..6] == a[..6];
      assert (a + b)[6..] == a[6..] + b;
      AllBlocksAppend(a[6..], b);
    } else {
      assert a + b == b;
    }
  }

  /**
   * Every output of the generator splits into blocks of six strokes, each
   * outlining a true square with a right-isosceles roof.
   */
  lemma {:induction false} TreeIsBlocks(p1: Point, p2: Point, branch: int)
    ensures AllBlocks(GenTree(p1, p2, branch))
    decreases MAX_BRANCH - branch
  {
    if branch < MAX_BRANCH {
      var f := MakeFrame(p1, p2);
      var o := Outline(f);
      TreeIsBlocks(f.p4, f.p5, branch + 1);
      TreeIsBlocks(f.p5, f.p3, branch + 1);
      assert o[..6] == o && o[6..] == [];
      MakeFrameIsSquareWithRoof(p1, p2);
      assert IsTreeBlock(o);
      assert AllBlocks(o);
      AllBlocksAppend(o, GenTree(f.p4, f.p5, branch + 1));
      AllBlocksAppend(o + GenTree(f.p4, f.p5, branch + 1), GenTree(f.p5, f.p3, branch + 1));
    }
  }

  /**
   * Depth-first order: after the six strokes of a call comes the whole subtree
   * on the left roof edge (p4, p5), and only then the whole subtree on the
   * right roof edge (p5, p3); each subtree that draws anything starts with
   * its own base edge.
   */
  lemma DepthFirstOrder(p1: Point, p2: Point, branch: int)
    requires branch < MAX_BRANCH
    ensures var r := GenTree(p1, p2, branch);
            var f := MakeFrame(p1, p2);
            var n := 6 * (Pow(2, Levels(branch + 1)) - 1);
            && |r| == 6 + 2 * n
            && r[..6] == Outline(f)
            && r[6..6 + n] == GenTree(f.p4, f.p5, branch + 1)
            && r[6 + n..] == GenTree(f.p5, f.p3, branch + 1)
            && (branch + 1 < MAX_BRANCH ==>
                  r[6] == Segment(f.p4, f.p5) && r[6 + n] == Segment(f.p5, f.p3))
  {
    var f := MakeFrame(p1, p2);
    var left := GenTree(f.p4, f.p5, branch + 1);
    var right := GenTree(f.p5, f.p3, branch + 1);
    var r := GenTree(p1, p2, branch);
    assert r == Outline(f) + left + right;
    if branch + 1 < MAX_BRANCH {
      FirstSegmentIsBase(f.p4, f.p5, branch + 1);
      FirstSegmentIsBase(f.p5, f.p3, branch + 1);
    }
  }

  // The explicit-stack run below follows the same pending-work scheme as
  // Subdivision.UnfoldWithStack, but is written out for this generator: a call
  // here emits six strokes computed from its frame rather than its own shape,
  // and splits into two subcalls rather than three.

  /** A pending call of the generator. */
  datatype Call = Call(p1: Point, p2: Point, branch: int)

  /** What the calls on a stack (top at the end) still have to draw, top first. */
  function Pending(stack: seq<Call>): seq<Segment>
  {
    if |stack| == 0 then []
    else
      var top := stack[|stack| - 1];
      GenTree(top.p1, top.p2, top.branch) + Pending(stack[..|stack| - 1])
  }

  /** Replacing a call on top of the stack by its two subcalls leaves only its six strokes owed. */
  lemma PendingAfterExpand(rest: seq<Call>, top: Call)
    requires top.branch < MAX_BRANCH
    ensures var f := MakeFrame(top.p1, top.p2);
            GenTree(top.p1, top.p2, top.branch) + Pending(rest)
            == Outline(f) + Pending(rest + [Call(f.p5, f.p3, top.branch + 1), Call(f.p4, f.p5, top.branch + 1)])
  {
    var f := MakeFrame(top.p1, top.p2);
    var right := Call(f.p5, f.p3, top.branch + 1);
    var left := Call(f.p4, f.p5, top.branch + 1);
    var next := rest + [right, left];
    assert next[..|next| - 1] == rest + [right];
    assert (rest + [right])[..|rest + [right]| - 1] == rest;
    assert Pending(rest + [right]) == GenTree(f.p5, f.p3, top.branch + 1) + Pending(rest);
    assert Pending(next) == GenTree(f.p4, f.p5, top.branch + 1) + Pending(rest + [right]);
  }

  /**
   * The generator run with an explicit stack instead of recursion: pop a call,
   * draw its six strokes, push the right call and then the left call. It draws
   * exactly what the recursive generator draws, in the same order.
   */
  method GenTreeWithStack(p1: Point, p2: Point, branch: int) returns (out: seq<Segment>)
    ensures out == GenTree(p1, p2, branch)
  {
    out := [];
    var stack := [Call(p1, p2, branch)];
    assert Pending(stack) == GenTree(p1, p2, branch) by {
      assert stack[..0] == [];
    }
    while |stack| > 0
      invariant out + Pending(stack) == GenTree(p1, p2, branch)
      decreases |Pending(stack)|, |stack|
    {
      var top := stack[|stack| - 1];
      var rest := stack[..|stack| - 1];
      assert Pending(stack) == GenTree(top.p1, top.p2, top.branch) + Pending(rest);
      if top.branch < MAX_BRANCH {
        var f := MakeFrame(top.p1, top.p2);
        var next := rest + [Call(f.p5, f.p3, top.branch + 1), Call(f.p4, f.p5, top.branch + 1)];
        PendingAfterExpand(rest, top);
        out := out + Outline(f);
        stack := next;
      } else {
        stack := rest;
      }
    }
  }
}
