/** The `worker_id` a worker announces in its messages. */
module Workers {
  datatype Id = Worker(number: int)
}

/** Parameter dictionaries and the elementwise arithmetic the server and the workers do on them.

An array is the sequence of its entries in flat order; a dictionary maps parameter names to arrays. */
module Params {

  type Vec = seq<real>
  type Params = map<string, Vec>

  /** The entry at flat index i of parameter `name`, 0 outside the dictionary. */
  function Entry(p: Params, name: string, i: int): real {
    if name in p && 0 <= i < |p[name]| then p[name][i] else 0.0
  }

  predicate HasEntry(p: Params, name: string, i: int) {
    name in p && 0 <= i < |p[name]|
  }

  predicate SameShape(a: Params, b: Params) {
    && a.Keys == b.Keys
    && forall k :: k in a ==> |a[k]| == |b[k]|
  }

  /** A dictionary of the shape of `shape` whose entries are given by f. */
  function Tabulate(shape: Params, f: (string, int) -> real): (p: Params)
    ensures SameShape(p, shape)
    ensures forall k, i :: HasEntry(shape, k, i) ==> Entry(p, k, i) == f(k, i)
  {
    map k | k in shape :: seq(|shape[k]|, i => f(k, i))
  }

  /** `weight_delta`: what the worker started from minus what it trained. */
  function Sub(a: Params, b: Params): (p: Params)
    ensures SameShape(p, a)
    ensures forall k, i :: HasEntry(a, k, i) ==> Entry(p, k, i) == Entry(a, k, i) - Entry(b, k, i)
  {
    Tabulate(a, (k, i) => Entry(a, k, i) - Entry(b, k, i))
  }

  /** Two dictionaries of one shape with the same entries are equal. */
  lemma Extensional(a: Params, b: Params)
    requires SameShape(a, b)
    requires forall k, i :: HasEntry(a, k, i) ==> Entry(a, k, i) == Entry(b, k, i)
    ensures a == b
  {
    forall k | k in a ensures a[k] == b[k] {
      forall i | 0 <= i < |a[k]| ensures a[k][i] == b[k][i] {
        assert HasEntry(a, k, i) && Entry(a, k, i) == Entry(b, k, i);
      }
    }
  }
}

/** Finite sums over a set of workers. */
module Sums {

  ghost function SumOver<T(!new)>(keys: set<T>, f: T -> real): real {
    if keys == {} then 0.0 else
      var x :| x in keys;
      f(x) + SumOver(keys - {x}, f)
  }

  /** The sum does not depend on which element is taken out first. */
  lemma {:induction false} SumTake<T(!new)>(keys: set<T>, f: T -> real, y: T)
    requires y in keys
    ensures SumOver(keys, f) == f(y) + SumOver(keys - {y}, f)
    decreases keys
  {
    var x :| x in keys && SumOver(keys, f) == f(x) + SumOver(keys - {x}, f);
    if x != y {
      SumTake(keys - {x}, f, y);
      SumTake(keys - {y}, f, x);
      assert keys - {x} - {y} == keys - {y} - {x};
    }
  }

  lemma {:induction false} SumCongruent<T(!new)>(keys: set<T>, f: T -> real, g: T -> real)
    requires forall x :: x in keys ==> f(x) == g(x)
    ensures SumOver(keys, f) == SumOver(keys, g)
    decreases keys
  {
    if keys != {} {
      var x :| x in keys;
      SumTake(keys, f, x);
      SumTake(keys, g, x);
      SumCongruent(keys - {x}, f, g);
    }
  }

  lemma OneMore(n: nat, c: real)
    ensures (n + 1) as real * c == n as real * c + c
  {
    assert (n + 1) as real == n as real + 1.0;
  }

  /** Summing c - f(x) gives |keys| * c minus the sum of f. */
  lemma {:induction false} SumOffset<T(!new)>(keys: set<T>, f: T -> real, c: real, g: T -> real)
    requires forall x :: x in keys ==> g(x) == c - f(x)
    ensures SumOver(keys, g) == |keys| as real * c - SumOver(keys, f)
    decreases keys
  {
    if keys != {} {
      var x :| x in keys;
      SumTake(keys, f, x);
      SumTake(keys, g, x);
      SumOffset(keys - {x}, f, c, g);
      OneMore(|keys - {x}|, c);
    }
  }

  lemma DivideOffset(n: real, c: real, total: real)
    requires n > 0.0
    ensures (n * c - total) / n == c - total / n
  {
    assert (n * c - total) / n == (n * c) / n - total / n;
  }

  /** The mean over a set that is not empty. */
  ghost function MeanOver<T(!new)>(keys: set<T>, f: T -> real): real
    requires keys != {}
  {
    SumOver(keys, f) / |keys| as real
  }

  /** The mean of c - f(x) is c minus the mean of f. */
  lemma MeanOffset<T(!new)>(keys: set<T>, f: T -> real, c: real, g: T -> real)
    requires keys != {} && forall x :: x in keys ==> g(x) == c - f(x)
    ensures MeanOver(keys, g) == c - MeanOver(keys, f)
  {
    SumOffset(keys, f, c, g);
    DivideOffset(|keys| as real, c, SumOver(keys, f));
  }

  lemma {:induction false} SumAdd<T(!new)>(keys: set<T>, f: T -> real, g: T -> real, h: T -> real)
    requires forall x :: x in keys ==> h(x) == f(x) + g(x)
    ensures SumOver(keys, h) == SumOver(keys, f) + SumOver(keys, g)
    decreases keys
  {
    if keys != {} {
      var x :| x in keys;
      SumTake(keys, f, x);
      SumTake(keys, g, x);
      SumTake(keys, h, x);
      SumAdd(keys - {x}, f, g, h);
    }
  }

  lemma DivideSum(n: real, a: real, b: real)
    requires n > 0.0
    ensures (a + b) / n == a / n + b / n
  {
  }

  lemma MeanAdd<T(!new)>(keys: set<T>, f: T -> real, g: T -> real, h: T -> real)
    requires keys != {} && forall x :: x in keys ==> h(x) == f(x) + g(x)
    ensures MeanOver(keys, h) == MeanOver(keys, f) + MeanOver(keys, g)
  {
    hide SumOver;
    SumAdd(keys, f, g, h);
    DivideSum(|keys| as real, SumOver(keys, f), SumOver(keys, g));
  }

  /** n copies of c added up. */
  function Times(n: nat, c: real): (r: real)
    ensures r == n as real * c
  {
    if n == 0 then 0.0 else OneMore(n - 1, c); c + Times(n - 1, c)
  }

  lemma {:induction false} SumBound<T(!new)>(keys: set<T>, f: T -> real, bound: real)
    requires forall x :: x in keys ==> -bound <= f(x) <= bound
    ensures -Times(|keys|, bound) <= SumOver(keys, f) <= Times(|keys|, bound)
    decreases keys
  {
    if keys != {} {
      var x :| x in keys;
      SumTake(keys, f, x);
      SumBound(keys - {x}, f, bound);
      assert |keys - {x}| == |keys| - 1;
    }
  }

  /** A mean of values within a bound is within it. */
  lemma MeanBound<T(!new)>(keys: set<T>, f: T -> real, bound: real)
    requires keys != {} && forall x :: x in keys ==> -bound <= f(x) <= bound
    ensures -bound <= MeanOver(keys, f) <= bound
  {
    hide SumOver, Times;
    SumBound(keys, f, bound);
    Quotient(SumOver(keys, f), |keys|, bound);
  }

  lemma Quotient(total: real, n: nat, bound: real)
    requires n > 0 && -Times(n, bound) <= total <= Times(n, bound)
    ensures -bound <= total / n as real <= bound
  {
    var m := n as real;
    assert Times(n, bound) == m * bound;
    assert (total / m) * m == total;
  }

  function SumSeq<T>(s: seq<T>, f: T -> real): real {
    if s == [] then 0.0 else SumSeq(s[..|s| - 1], f) + f(s[|s| - 1])
  }

  lemma SumMore<T>(s: seq<T>, x: T, f: T -> real)
    ensures SumSeq(s + [x], f) == SumSeq(s, f) + f(x)
  {
    assert (s + [x])[..|s|] == s;
  }

  function Itself(x: real): real {
    x
  }

  /** A list of numbers added up. */
  function AddUp(xs: seq<real>): real {
    SumSeq(xs, Itself)
  }

  ghost predicate Distinct<T>(s: seq<T>) {
    forall j, k :: 0 <= j < k < |s| ==> s[j] != s[k]
  }

  function Elements<T>(s: seq<T>): set<T> {
    set x | x in s
  }

  /** Summing a list without repetitions is summing over its elements. */
  lemma {:induction false} SumSeqIsSum<T(!new)>(s: seq<T>, f: T -> real)
    requires Distinct(s)
    ensures SumSeq(s, f) == SumOver(Elements(s), f) && |Elements(s)| == |s|
  {
    if s != [] {
      var p, x := s[..|s| - 1], s[|s| - 1];
      SumSeqIsSum(p, f);
      assert x in Elements(s);
      assert s == p + [x];
      assert Elements(s) - {x} == Elements(p);
      SumTake(Elements(s), f, x);
    }
  }
}
