/**
 * The push-in-a-`forEach` pattern both trackers use to collect warnings and
 * notifications: walking `xs` in order and pushing the entries `f(x)` of each
 * element yields their concatenation.
 */
module ForEach {

  /** The entries a `forEach` over `xs` pushes, `f(x)` for each `x` in order. */
  function ConcatMap<X, T>(f: X -> seq<T>, xs: seq<X>): seq<T>
  {
    if xs == [] then [] else ConcatMap(f, xs[..|xs| - 1]) + f(xs[|xs| - 1])
  }

  /** Walking one more element at the end pushes that element's entries. */
  lemma ConcatMapAppend<X, T>(f: X -> seq<T>, xs: seq<X>, x: X)
    ensures ConcatMap(f, xs + [x]) == ConcatMap(f, xs) + f(x)
  {
    assert (xs + [x])[..|xs|] == xs;
  }

  /** The walk over the prefix `xs[..j + 1]` extends the walk over `xs[..j]` by `f(xs[j])`. */
  lemma ConcatMapStep<X, T>(f: X -> seq<T>, xs: seq<X>, j: int)
    requires 0 <= j < |xs|
    ensures ConcatMap(f, xs[..j + 1]) == ConcatMap(f, xs[..j]) + f(xs[j])
  {
    assert xs[..j + 1][..j] == xs[..j];
  }

  /** A loop that has pushed the entries of `xs[..j]` after `before` and now pushes `f(xs[j])`. */
  lemma PushStep<X, T>(f: X -> seq<T>, xs: seq<X>, j: int, before: seq<T>, acc: seq<T>, pushed: seq<T>)
    requires 0 <= j < |xs| && acc == before + ConcatMap(f, xs[..j]) && pushed == f(xs[j])
    ensures acc + pushed == before + ConcatMap(f, xs[..j + 1])
  {
    ConcatMapStep(f, xs, j);
  }

  lemma ConcatMapOfThree<X, T>(f: X -> seq<T>, x0: X, x1: X, x2: X)
    ensures ConcatMap(f, [x0, x1, x2]) == f(x0) + f(x1) + f(x2)
  {
    ConcatMapAppend(f, [], x0);
    assert [] + [x0] == [x0];
    ConcatMapAppend(f, [x0], x1);
    assert [x0] + [x1] == [x0, x1];
    ConcatMapAppend(f, [x0, x1], x2);
    assert [x0, x1] + [x2] == [x0, x1, x2];
  }

  lemma ConcatMapOfFour<X, T>(f: X -> seq<T>, x0: X, x1: X, x2: X, x3: X)
    ensures ConcatMap(f, [x0, x1, x2, x3]) == f(x0) + f(x1) + f(x2) + f(x3)
  {
    ConcatMapOfThree(f, x0, x1, x2);
    ConcatMapAppend(f, [x0, x1, x2], x3);
    assert [x0, x1, x2] + [x3] == [x0, x1, x2, x3];
  }
}
