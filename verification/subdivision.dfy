/**
 * The three-way recursion scheme of the Sierpinski generator, stated over any
 * shape type: a shape is emitted, then each of its three parts is subdivided
 * in turn, for a fixed number of levels. It is run both recursively and with
 * an explicit stack.
 */
module Subdivision {

  import opened Powers

  /** The three parts a shape splits into, in the order they are visited. */
  datatype Triple<T> = Triple(first: T, second: T, third: T)

  /** Pre-order output of `depth` levels of subdivision starting at t. */
  function Unfold<T>(split: T -> Triple<T>, t: T, depth: nat): seq<T>
  {
    if depth == 0 then
      []
    else
      var parts := split(t);
      [t] + Unfold(split, parts.first, depth - 1)
          + Unfold(split, parts.second, depth - 1)
          + Unfold(split, parts.third, depth - 1)
  }

  /** One level of subdivision: the shape, then each part's output in turn. */
  lemma UnfoldStep<T>(split: T -> Triple<T>, t: T, depth: nat)
    requires depth > 0
    ensures Unfold(split, t, depth)
            == [t] + Unfold(split, split(t).first, depth - 1)
                   + Unfold(split, split(t).second, depth - 1)
                   + Unfold(split, split(t).third, depth - 1)
  {
  }

  /** Each level triples the output: d levels emit (3^d - 1) / 2 shapes, the first shape first. */
  lemma {:induction false} UnfoldSize<T>(split: T -> Triple<T>, t: T, depth: nat)
    ensures 2 * |Unfold(split, t, depth)| + 1 == Pow(3, depth)
    ensures depth > 0 ==> |Unfold(split, t, depth)| > 0 && Unfold(split, t, depth)[0] == t
  {
    if depth > 0 {
      var parts := split(t);
      UnfoldSize(split, parts.first, depth - 1);
      UnfoldSize(split, parts.second, depth - 1);
      UnfoldSize(split, parts.third, depth - 1);
    }
  }

  /** A pending call: a shape and the levels still to run on it. */
  datatype Job<T> = Job(shape: T, depth: nat)

  /** What the jobs on a stack (top at the end) still have to emit, top first. */
  function Pending<T>(split: T -> Triple<T>, stack: seq<Job<T>>): seq<T>
  {
    if |stack| == 0 then []
    else
      var top := stack[|stack| - 1];
      Unfold(split, top.shape, top.depth) + Pending(split, stack[..|stack| - 1])
  }

  /** The jobs that replace a job: its parts, pushed last-first so the first part is on top. */
  function Subjobs<T>(split: T -> Triple<T>, job: Job<T>): seq<Job<T>>
    requires job.depth > 0
  {
    var parts := split(job.shape);
    [Job(parts.third, job.depth - 1), Job(parts.second, job.depth - 1), Job(parts.first, job.depth - 1)]
  }

  /** Pushing a job puts its whole output in front of what was owed. */
  lemma PendingPush<T>(split: T -> Triple<T>, rest: seq<Job<T>>, job: Job<T>)
    ensures Pending(split, rest + [job]) == Unfold(split, job.shape, job.depth) + Pending(split, rest)
  {
    assert (rest + [job])[..|rest + [job]| - 1] == rest;
  }

  /** Replacing the top job by its subjobs leaves only its own shape owed. */
  lemma {:induction false} PendingAfterExpand<T>(split: T -> Triple<T>, rest: seq<Job<T>>, job: Job<T>)
    requires job.depth > 0
    ensures Pending(split, rest + [job]) == [job.shape] + Pending(split, rest + Subjobs(split, job))
  {
    var parts := split(job.shape);
    var j3, j2, j1 := Job(parts.third, job.depth - 1), Job(parts.second, job.depth - 1), Job(parts.first, job.depth - 1);
    var a, b, c := Unfold(split, parts.first, job.depth - 1), Unfold(split, parts.second, job.depth - 1),
                   Unfold(split, parts.third, job.depth - 1);
    var p0 := Pending(split, rest);
    var s1 := rest + [j3];
    var s2 := s1 + [j2];
    assert rest + Subjobs(split, job) == s2 + [j1];
    calc {
      Pending(split, rest + [job]);
      { PendingPush(split, rest, job); }
      Unfold(split, job.shape, job.depth) + p0;
      ([job.shape] + a + b + c) + p0;
      { assert ([job.shape] + a + b + c) + p0 == [job.shape] + (a + (b + (c + p0))); }
      [job.shape] + (a + (b + (c + p0)));
      { PendingPush(split, rest, j3); }
      [job.shape] + (a + (b + Pending(split, s1)));
      { PendingPush(split, s1, j2); }
      [job.shape] + (a + Pending(split, s2));
      { PendingPush(split, s2, j1); }
      [job.shape] + Pending(split, s2 + [j1]);
    }
  }

  /**
   * Subdivision with an explicit stack instead of recursion: pop a job, emit
   * its shape, push its parts last-first. It emits exactly what the recursive
   * scheme emits, in the same order.
   */
  method UnfoldWithStack<T>(split: T -> Triple<T>, t: T, depth: nat) returns (out: seq<T>)
    ensures out == Unfold(split, t, depth)
  {
    out := [];
    var stack := [Job(t, depth)];
    PendingPush(split, [], Job(t, depth));
    while |stack| > 0
      invariant out + Pending(split, stack) == Unfold(split, t, depth)
      decreases |Pending(split, stack)|, |stack|
    {
      var top := stack[|stack| - 1];
      var rest := stack[..|stack| - 1];
      assert stack == rest + [top];
      PendingPush(split, rest, top);
      if top.depth > 0 {
        PendingAfterExpand(split, rest, top);
        out := out + [top.shape];
        stack := rest + Subjobs(split, top);
      } else {
        stack := rest;
      }
    }
  }
}
