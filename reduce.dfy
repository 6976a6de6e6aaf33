/**
 * The left-fold combinators of pkg/fp. Each combinator returns a closure
 * that captures the accumulator and reassigns it on every callback call, so
 * the accumulator carries over from one call of the closure to the next.
 * Each closure is a class whose `acc` field is that captured variable; the
 * ghost field `calls` records the arguments every callback call received
 * (besides the accumulator), in call order. Callbacks are pure functions.
 */
module Fp {

  /** The left fold of `f` over `xs` from `a`, as the loop computes it: the last element is applied last. */
  function FoldLeft<T, R>(f: (R, T) -> R, a: R, xs: seq<T>): R
    decreases |xs|
  {
    if xs == [] then a else f(FoldLeft(f, a, xs[..|xs| - 1]), xs[|xs| - 1])
  }

  /** The textbook left fold, first element first; the independent reference for FoldLeft. */
  function FoldFromFirst<T, R>(f: (R, T) -> R, a: R, xs: seq<T>): R
    decreases |xs|
  {
    if xs == [] then a else FoldFromFirst(f, f(a, xs[0]), xs[1..])
  }

  /** Folding a concatenation is folding the second part from the result of the first. */
  lemma {:induction false} FoldLeftAppend<T, R>(f: (R, T) -> R, a: R, xs: seq<T>, ys: seq<T>)
    ensures FoldLeft(f, FoldLeft(f, a, xs), ys) == FoldLeft(f, a, xs + ys)
    decreases |ys|
  {
    if ys == [] {
      assert xs + ys == xs;
    } else {
      var ys' := ys[..|ys| - 1];
      assert (xs + ys)[..|xs + ys| - 1] == xs + ys';
      FoldLeftAppend(f, a, xs, ys');
    }
  }

  /** The loop's fold is the textbook left fold. */
  lemma {:induction false} FoldLeftIsFoldFromFirst<T, R>(f: (R, T) -> R, a: R, xs: seq<T>)
    ensures FoldLeft(f, a, xs) == FoldFromFirst(f, a, xs)
    decreases |xs|
  {
    if xs != [] {
      FoldLeftIsFoldFromFirst(f, f(a, xs[0]), xs[1..]);
      FoldLeftAppend(f, a, [xs[0]], xs[1..]);
      assert [xs[0]] + xs[1..] == xs;
      assert [xs[0]][..0] == [];
    }
  }

  /** The indexed fold over the first `n` elements: step `k` is given `xs[k]` and `k`. */
  function FoldIndexed<T, R>(f: (R, T, int) -> R, a: R, xs: seq<T>, n: nat): R
    requires n <= |xs|
  {
    if n == 0 then a else f(FoldIndexed(f, a, xs, n - 1), xs[n - 1], n - 1)
  }

  /** The fold over the first `n` elements that also hands every step the whole slice `xs`. */
  function FoldWithSlice<T, R>(f: (R, T, int, seq<T>) -> R, a: R, xs: seq<T>, n: nat): R
    requires n <= |xs|
  {
    if n == 0 then a else f(FoldWithSlice(f, a, xs, n - 1), xs[n - 1], n - 1, xs)
  }

  /** The elements of `xs` paired with their indices 0, 1, ..., |xs| - 1. */
  function Enumerate<T>(xs: seq<T>): (e: seq<(T, int)>)
    ensures |e| == |xs|
    ensures forall k :: 0 <= k < |xs| ==> e[k] == (xs[k], k)
  {
    seq(|xs|, k requires 0 <= k < |xs| => (xs[k], k))
  }

  /** The elements of `xs` with their indices, each beside the whole slice. */
  function EnumerateWithSlice<T>(xs: seq<T>): (e: seq<(T, int, seq<T>)>)
    ensures |e| == |xs|
    ensures forall k :: 0 <= k < |xs| ==> e[k] == (xs[k], k, xs)
  {
    seq(|xs|, k requires 0 <= k < |xs| => (xs[k], k, xs))
  }

  /** An indexed callback that ignores the index folds exactly like Reduce. */
  lemma {:induction false} IndexIgnoredIsFoldLeft<T, R>(f: (R, T) -> R, a: R, xs: seq<T>, n: nat)
    requires n <= |xs|
    ensures FoldIndexed((r, x, i) => f(r, x), a, xs, n) == FoldLeft(f, a, xs[..n])
  {
    if n > 0 {
      IndexIgnoredIsFoldLeft(f, a, xs, n - 1);
      assert xs[..n][..n - 1] == xs[..n - 1];
    }
  }

  /** A slice callback that ignores the slice folds exactly like ReduceWithIndex. */
  lemma {:induction false} SliceIgnoredIsFoldIndexed<T, R>(f: (R, T, int) -> R, a: R, xs: seq<T>, n: nat)
    requires n <= |xs|
    ensures FoldWithSlice((r, x, i, s) => f(r, x, i), a, xs, n) == FoldIndexed(f, a, xs, n)
  {
    if n > 0 {
      SliceIgnoredIsFoldIndexed(f, a, xs, n - 1);
    }
  }

  /**
   * Reusing a ReduceWithIndex closure does not continue the indices: the second
   * call starts again at 0, so two calls differ from one call on the concatenation.
   */
  lemma ReusedIndexedClosureRestartsIndices()
    ensures var f := (r: int, x: int, i: int) => r + i;
      FoldIndexed(f, FoldIndexed(f, 0, [7], 1), [7], 1) == 0 &&
      FoldIndexed(f, 0, [7, 7], 2) == 1
  {
  }

  /** The closure returned by Reduce(callback, acc). */
  class ReduceClosure<T, R> {
    const callback: (R, T) -> R
    var acc: R
    ghost var calls: seq<T>

    /** Reduce(callback, acc): nothing has been folded yet. */
    constructor Reduce(callback: (R, T) -> R, acc: R)
      ensures this.callback == callback && this.acc == acc && calls == []
    {
      this.callback := callback;
      this.acc := acc;
      calls := [];
    }

    /** Calling the closure on `xs`: folds `xs` into the captured accumulator and returns it. */
    method Apply(xs: seq<T>) returns (r: R)
      modifies this
      ensures r == acc == FoldLeft(callback, old(acc), xs)
      ensures calls == old(calls) + xs
    {
      var i := 0;
      while i < |xs|
        invariant 0 <= i <= |xs|
        invariant acc == FoldLeft(callback, old(acc), xs[..i])
        invariant calls == old(calls) + xs[..i]
      {
        assert xs[..i + 1][..i] == xs[..i];
        acc := callback(acc, xs[i]);
        calls := calls + [xs[i]];
        i := i + 1;
      }
      assert xs[..i] == xs;
      r := acc;
    }
  }

  /** The closure returned by ReduceWithIndex(callback, acc). */
  class ReduceWithIndexClosure<T, R> {
    const callback: (R, T, int) -> R
    var acc: R
    ghost var calls: seq<(T, int)>

    constructor ReduceWithIndex(callback: (R, T, int) -> R, acc: R)
      ensures this.callback == callback && this.acc == acc && calls == []
    {
      this.callback := callback;
      this.acc := acc;
      calls := [];
    }

    /** Calling the closure on `xs`: indices 0 .. |xs| - 1 in increasing order, each with its element. */
    method Apply(xs: seq<T>) returns (r: R)
      modifies this
      ensures r == acc == FoldIndexed(callback, old(acc), xs, |xs|)
      ensures calls == old(calls) + Enumerate(xs)
    {
      var i := 0;
      while i < |xs|
        invariant 0 <= i <= |xs|
        invariant acc == FoldIndexed(callback, old(acc), xs, i)
        invariant calls == old(calls) + Enumerate(xs)[..i]
      {
        acc := callback(acc, xs[i], i);
        calls := calls + [(xs[i], i)];
        assert Enumerate(xs)[..i + 1] == Enumerate(xs)[..i] + [(xs[i], i)];
        i := i + 1;
      }
      assert Enumerate(xs)[..i] == Enumerate(xs);
      r := acc;
    }
  }

  /** The closure returned by ReduceWithSlice(callback, acc). */
  class ReduceWithSliceClosure<T, R> {
    const callback: (R, T, int, seq<T>) -> R
    var acc: R
    ghost var calls: seq<(T, int, seq<T>)>

    constructor ReduceWithSlice(callback: (R, T, int, seq<T>) -> R, acc: R)
      ensures this.callback == callback && this.acc == acc && calls == []
    {
      this.callback := callback;
      this.acc := acc;
      calls := [];
    }

    /** Calling the closure on `xs`: every callback call is handed the whole, unchanged `xs`. */
    method Apply(xs: seq<T>) returns (r: R)
      modifies this
      ensures r == acc == FoldWithSlice(callback, old(acc), xs, |xs|)
      ensures calls == old(calls) + EnumerateWithSlice(xs)
    {
      var i := 0;
      while i < |xs|
        invariant 0 <= i <= |xs|
        invariant acc == FoldWithSlice(callback, old(acc), xs, i)
        invariant calls == old(calls) + EnumerateWithSlice(xs)[..i]
      {
        acc := callback(acc, xs[i], i, xs);
        calls := calls + [(xs[i], i, xs)];
        assert EnumerateWithSlice(xs)[..i + 1] == EnumerateWithSlice(xs)[..i] + [(xs[i], i, xs)];
        i := i + 1;
      }
      assert EnumerateWithSlice(xs)[..i] == EnumerateWithSlice(xs);
      r := acc;
    }
  }

  /**
   * One closure from Reduce(f, a), called on `xs` and then on `ys`: the second
   * call continues from the first call's result, so it returns one fold over xs + ys.
   */
  method ReduceTwice<T, R>(f: (R, T) -> R, a: R, xs: seq<T>, ys: seq<T>) returns (first: R, second: R)
    ensures first == FoldFromFirst(f, a, xs)
    ensures second == FoldFromFirst(f, a, xs + ys)
  {
    var closure := new ReduceClosure.Reduce(f, a);
    first := closure.Apply(xs);
    second := closure.Apply(ys);
    FoldLeftAppend(f, a, xs, ys);
    FoldLeftIsFoldFromFirst(f, a, xs);
    FoldLeftIsFoldFromFirst(f, a, xs + ys);
  }

  /** A closure called on the empty slice gives back its current accumulator, here after a first call on `xs`. */
  method ReduceThenEmpty<T, R>(f: (R, T) -> R, a: R, xs: seq<T>) returns (first: R, again: R)
    ensures again == first == FoldFromFirst(f, a, xs)
  {
    var closure := new ReduceClosure.Reduce(f, a);
    first := closure.Apply(xs);
    again := closure.Apply([]);
    FoldLeftIsFoldFromFirst(f, a, xs);
  }
}
