/** The list a `for x in xs: out.extend(f(x))` loop builds: after `n`
    iterations it holds the first `n` contributions, in order. */
module Sequences {

  function ConcatMapUpTo<T, U>(xs: seq<T>, f: T -> seq<U>, n: nat): seq<U>
    requires n <= |xs|
  {
    if n == 0 then [] else ConcatMapUpTo(xs, f, n - 1) + f(xs[n - 1])
  }

  /** What the whole loop builds. */
  function ConcatMap<T, U>(xs: seq<T>, f: T -> seq<U>): seq<U>
  {
    ConcatMapUpTo(xs, f, |xs|)
  }

  /** Appending to a list built in two parts appends to its second part. */
  lemma AppendAssoc<T>(a: seq<T>, b: seq<T>, c: seq<T>)
    ensures a + b + c == a + (b + c)
  {
  }

  /** The first `n` contributions depend only on the first `n` elements. */
  lemma {:induction false} UpToPrefix<T, U>(xs: seq<T>, ys: seq<T>, f: T -> seq<U>, n: nat)
    requires n <= |xs| && n <= |ys| && xs[..n] == ys[..n]
    ensures ConcatMapUpTo(xs, f, n) == ConcatMapUpTo(ys, f, n)
  {
    if n > 0 {
      assert xs[n - 1] == xs[..n][n - 1] == ys[..n][n - 1] == ys[n - 1];
      assert xs[..n - 1] == xs[..n][..n - 1] == ys[..n][..n - 1] == ys[..n - 1];
      UpToPrefix(xs, ys, f, n - 1);
    }
  }

  /** What the loop has built after `n` iterations is the whole loop over
      the first `n` elements. */
  lemma UpToIsPrefix<T, U>(xs: seq<T>, f: T -> seq<U>, n: nat)
    requires n <= |xs|
    ensures ConcatMapUpTo(xs, f, n) == ConcatMap(xs[..n], f)
  {
    UpToPrefix(xs, xs[..n], f, n);
  }

  /** One more loop iteration appends the next element's contribution. */
  lemma ConcatMapStep<T, U>(xs: seq<T>, i: nat, f: T -> seq<U>)
    requires i < |xs|
    ensures ConcatMap(xs[..i + 1], f) == ConcatMap(xs[..i], f) + f(xs[i])
  {
    UpToIsPrefix(xs, f, i);
    UpToIsPrefix(xs, f, i + 1);
  }

  /** The last element's contribution comes last. */
  lemma ConcatMapLast<T, U>(xs: seq<T>, f: T -> seq<U>)
    requires xs != []
    ensures ConcatMap(xs, f) == ConcatMap(xs[..|xs| - 1], f) + f(xs[|xs| - 1])
  {
    UpToIsPrefix(xs, f, |xs| - 1);
  }

  /** Looping over a list and then over a second one continues the first loop. */
  lemma {:induction false} UpToAppend<T, U>(xs: seq<T>, ys: seq<T>, f: T -> seq<U>, m: nat)
    requires m <= |ys|
    ensures ConcatMapUpTo(xs + ys, f, |xs| + m) == ConcatMap(xs, f) + ConcatMapUpTo(ys, f, m)
  {
    if m == 0 {
      assert (xs + ys)[..|xs|] == xs[..|xs|];
      UpToPrefix(xs + ys, xs, f, |xs|);
    } else {
      UpToAppend(xs, ys, f, m - 1);
      assert (xs + ys)[|xs| + m - 1] == ys[m - 1];
      AppendAssoc(ConcatMap(xs, f), ConcatMapUpTo(ys, f, m - 1), f(ys[m - 1]));
    }
  }

  /** Looping over two lists one after the other is looping over their concatenation. */
  lemma ConcatMapAppend<T, U>(xs: seq<T>, ys: seq<T>, f: T -> seq<U>)
    ensures ConcatMap(xs + ys, f) == ConcatMap(xs, f) + ConcatMap(ys, f)
  {
    UpToAppend(xs, ys, f, |ys|);
  }

  /** The first element's contribution comes first. */
  lemma ConcatMapFront<T, U>(xs: seq<T>, f: T -> seq<U>)
    requires xs != []
    ensures ConcatMap(xs, f) == f(xs[0]) + ConcatMap(xs[1..], f)
  {
    assert xs == [xs[0]] + xs[1..];
    ConcatMapAppend([xs[0]], xs[1..], f);
    assert ConcatMapUpTo([xs[0]], f, 0) == [];
    assert ConcatMap([xs[0]], f) == [] + f(xs[0]);
  }

  /** An element of the first `n` contributions comes from one of them. */
  lemma {:induction false} InUpTo<T, U>(xs: seq<T>, f: T -> seq<U>, n: nat, y: U)
    requires n <= |xs|
    ensures y in ConcatMapUpTo(xs, f, n) <==> exists i :: 0 <= i < n && y in f(xs[i])
  {
    if n > 0 {
      InUpTo(xs, f, n - 1, y);
    }
  }

  /** An element of the result comes from the contribution of some element. */
  lemma InConcatMap<T, U>(xs: seq<T>, f: T -> seq<U>, y: U)
    ensures y in ConcatMap(xs, f) <==> exists i :: 0 <= i < |xs| && y in f(xs[i])
  {
    InUpTo(xs, f, |xs|, y);
  }

  /** The first `n` contributions depend only on the contributions of the
      first `n` elements. */
  lemma {:induction false} UpToCongruent<T, U>(xs: seq<T>, f: T -> seq<U>, g: T -> seq<U>, n: nat)
    requires n <= |xs|
    requires forall x :: x in xs ==> f(x) == g(x)
    ensures ConcatMapUpTo(xs, f, n) == ConcatMapUpTo(xs, g, n)
  {
    if n > 0 {
      assert xs[n - 1] in xs;
      UpToCongruent(xs, f, g, n - 1);
    }
  }

  /** The result depends only on the contributions of the elements of `xs`. */
  lemma ConcatMapCongruent<T, U>(xs: seq<T>, f: T -> seq<U>, g: T -> seq<U>)
    requires forall x :: x in xs ==> f(x) == g(x)
    ensures ConcatMap(xs, f) == ConcatMap(xs, g)
  {
    UpToCongruent(xs, f, g, |xs|);
  }
}
