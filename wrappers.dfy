/** Option and Result, and an order-preserving flat-map, shared by the client and the orchestrator models. */
module Wrappers {

  /** A value that may be missing: JavaScript's `undefined`, a regex without a match. */
  datatype Option<+T> = None | Some(value: T)

  /** The outcome of an operation that can throw or reject: `Ok` resolves, `Err` rejects. */
  datatype Result<+T, +E> = Ok(value: T) | Err(error: E)
}

/** Order-preserving concatenation of per-element results. */
module Sequences {

  /** `f(xs[0]) + f(xs[1]) + ...`: the results of `f` over `xs`, concatenated in order. */
  function FlatMap<T, U>(f: T -> seq<U>, xs: seq<T>): seq<U> {
    if xs == [] then [] else FlatMap(f, xs[..|xs| - 1]) + f(xs[|xs| - 1])
  }

  lemma {:induction false} FlatMapAppend<T, U>(f: T -> seq<U>, a: seq<T>, b: seq<T>)
    ensures FlatMap(f, a + b) == FlatMap(f, a) + FlatMap(f, b)
    decreases |b|
  {
    if b == [] {
      assert a + b == a;
    } else {
      assert (a + b)[..|a + b| - 1] == a + b[..|b| - 1];
      FlatMapAppend(f, a, b[..|b| - 1]);
    }
  }

  lemma FlatMapSingleton<T, U>(f: T -> seq<U>, x: T)
    ensures FlatMap(f, [x]) == f(x)
  {
    assert [x][..0] == [];
  }

  lemma FlatMapPair<T, U>(f: T -> seq<U>, x: T, y: T)
    ensures FlatMap(f, [x, y]) == f(x) + f(y)
  {
    assert [x, y][..1] == [x];
    FlatMapSingleton(f, x);
  }

  /** Extending the input by one element extends the result by that element's part. */
  lemma FlatMapSnoc<T, U>(f: T -> seq<U>, xs: seq<T>, x: T)
    ensures FlatMap(f, xs + [x]) == FlatMap(f, xs) + f(x)
  {
    assert (xs + [x])[..|xs|] == xs;
  }

  lemma AppendAssoc<T>(a: seq<T>, b: seq<T>, c: seq<T>)
    ensures a + b + c == a + (b + c)
  {
  }

  /** The loop step: the result on a one-longer prefix extends the result on the prefix. */
  lemma FlatMapPrefix<T, U>(f: T -> seq<U>, xs: seq<T>, i: nat)
    requires i < |xs|
    ensures FlatMap(f, xs[..i + 1]) == FlatMap(f, xs[..i]) + f(xs[i])
  {
    assert xs[..i + 1] == xs[..i] + [xs[i]];
    FlatMapSnoc(f, xs[..i], xs[i]);
  }

  /** The element parts appear in the result in input order: the part of `x` starts where those before it end. */
  lemma FlatMapAt<T, U>(f: T -> seq<U>, before: seq<T>, x: T, after: seq<T>)
    ensures FlatMap(f, before + [x] + after) == FlatMap(f, before) + f(x) + FlatMap(f, after)
  {
    FlatMapAppend(f, before + [x], after);
    FlatMapSnoc(f, before, x);
  }

  /** An element whose part is empty contributes nothing: the parts around it are joined directly. */
  lemma FlatMapSkip<T, U>(f: T -> seq<U>, before: seq<T>, x: T, after: seq<T>)
    requires f(x) == []
    ensures FlatMap(f, before + [x] + after) == FlatMap(f, before) + FlatMap(f, after)
  {
    FlatMapAt(f, before, x, after);
  }
}
