/** One epoch of shuffled minibatches over the n = steps * environments transitions of a rollout. */
module Minibatches {
  import opened Sums

  /** The five fields of a rollout, flattened to one entry per transition. */
  datatype Flat<O> = Flat(states: seq<O>, actions: seq<O>, logProbs: seq<real>, advantages: seq<real>,
                          targets: seq<real>)

  predicate FlatOf<O>(f: Flat<O>, n: nat) {
    |f.states| == |f.actions| == |f.logProbs| == |f.advantages| == |f.targets| == n
  }

  /** One minibatch: the slice of the permutation it was cut from and the fields at those indices. */
  datatype Minibatch<O> = Minibatch(index: seq<nat>, fields: Flat<O>)

  ghost predicate Permutation(p: seq<nat>, n: nat) {
    |p| == n && Distinct(p) && forall j :: 0 <= j < n ==> p[j] < n
  }

  /** b * size, the start of block b when blocks of `size` follow one another. */
  function Stride(b: nat, size: nat): nat {
    if b == 0 then 0 else Stride(b - 1, size) + size
  }

  lemma {:induction false} StrideIsProduct(b: nat, size: nat)
    ensures Stride(b, size) == b * size
  {
    if b > 0 {
      StrideIsProduct(b - 1, size);
      assert (b - 1) * size + size == b * size;
    }
  }

  /** Later blocks start at or after the end of earlier ones. */
  lemma {:induction false} StrideGrows(b: nat, c: nat, size: nat)
    requires b < c
    ensures Stride(b, size) + size <= Stride(c, size)
  {
    if b < c - 1 {
      StrideGrows(b, c - 1, size);
    }
  }

  /** Every position lies in a block. */
  lemma {:induction false} Locate(q: nat, size: nat) returns (b: nat, j: nat)
    requires size > 0
    ensures j < size && Stride(b, size) + j == q
  {
    if q < size {
      b, j := 0, q;
    } else {
      b, j := Locate(q - size, size);
      b := b + 1;
    }
  }

  /** A position lies in one block only. */
  lemma SameBlock(b: nat, j: nat, c: nat, i: nat, size: nat)
    requires j < size && i < size && Stride(b, size) + j == Stride(c, size) + i
    ensures b == c && j == i
  {
    if b < c {
      StrideGrows(b, c, size);
    } else if c < b {
      StrideGrows(c, b, size);
    }
  }

  /** Row-major position of step t of environment e. */
  function At(t: nat, e: nat, envs: nat): nat {
    Stride(t, envs) + e
  }

  function Identity(n: nat): (s: seq<nat>)
    ensures |s| == n && forall i :: 0 <= i < n ==> s[i] == i
  {
    if n == 0 then [] else Identity(n - 1) + [n - 1]
  }

  lemma SubsetSize<T>(a: set<T>, b: set<T>)
    requires a <= b && |a| == |b|
    ensures a == b
  {
    assert b == a + (b - a);
  }

  /** A permutation hits every index. */
  lemma PermutationIsOnto(p: seq<nat>, n: nat)
    requires Permutation(p, n)
    ensures Elements(p) == Elements(Identity(n))
  {
    SumSeqIsSum(p, (x: nat) => 0.0);
    SumSeqIsSum(Identity(n), (x: nat) => 0.0);
    forall x | x in Elements(p) ensures x in Elements(Identity(n)) {
      assert Identity(n)[x] == x;
    }
    SubsetSize(Elements(p), Elements(Identity(n)));
  }

  /** Summing along a permutation does not depend on it. */
  lemma SumAlong(p: seq<nat>, n: nat, f: nat -> real)
    requires Permutation(p, n)
    ensures SumSeq(p, f) == SumSeq(Identity(n), f)
  {
    PermutationIsOnto(p, n);
    SumSeqIsSum(p, f);
    SumSeqIsSum(Identity(n), f);
  }

  /** Fancy indexing: the entries of `flat` at the indices of mb. */
  function Pick<T>(flat: seq<T>, mb: seq<nat>): (s: seq<T>)
    requires forall j :: 0 <= j < |mb| ==> mb[j] < |flat|
    ensures |s| == |mb| && forall j :: 0 <= j < |mb| ==> s[j] == flat[mb[j]]
  {
    seq(|mb|, j requires 0 <= j < |mb| => flat[mb[j]])
  }

  /** All five fields picked by one slice. */
  function Batch<O>(f: Flat<O>, mb: seq<nat>, n: nat): Minibatch<O>
    requires FlatOf(f, n) && forall j :: 0 <= j < |mb| ==> mb[j] < n
  {
    Minibatch(mb,
              Flat(Pick(f.states, mb), Pick(f.actions, mb), Pick(f.logProbs, mb), Pick(f.advantages, mb),
                   Pick(f.targets, mb)))
  }

  /** Where slice b starts: the stop of the last slice is cut off at n. */
  function Cut(b: nat, size: nat, n: nat): (k: nat)
    ensures k <= n
  {
    if Stride(b, size) <= n then Stride(b, size) else n
  }

  function Slice(p: seq<nat>, b: nat, size: nat): (mb: seq<nat>)
    ensures |mb| == Cut(b + 1, size, |p|) - Cut(b, size, |p|) <= size
    ensures forall j :: 0 <= j < |mb| ==> mb[j] == p[Cut(b, size, |p|) + j]
  {
    p[Cut(b, size, |p|)..Cut(b + 1, size, |p|)]
  }

  /** How many starts range(0, n, size) has: b-th start below n, the one after the last not. */
  predicate Count(count: nat, n: nat, size: nat) {
    n <= Stride(count, size) && (count > 0 ==> Stride(count - 1, size) < n)
  }

  /** n / size rounded up. */
  function Ceiling(n: nat, size: nat): nat
    requires size > 0
  {
    (n + size - 1) / size
  }

  lemma CountIsCeiling(count: nat, n: nat, size: nat)
    requires size > 0
    ensures Count(count, n, size) <==> count == Ceiling(n, size)
  {
    var c := Ceiling(n, size);
    var r := (n + size - 1) % size;
    StrideIsProduct(c, size);
    assert Stride(c, size) + r == n + size - 1;
    if c < count {
      StrideGrows(c, count, size);
      if c < count - 1 {
        StrideGrows(c, count - 1, size);
      }
    } else if count < c {
      StrideGrows(count, c, size);
    }
  }

  /** The batches of one epoch are the slices of the permutation, in order. */
  ghost predicate Epoch<O>(batches: seq<Minibatch<O>>, f: Flat<O>, p: seq<nat>, size: nat)
    requires size > 0 && FlatOf(f, |p|) && Permutation(p, |p|)
  {
    Count(|batches|, |p|, size) && forall b: nat :: b < |batches| ==> batches[b] == Batch(f, Slice(p, b, size), |p|)
  }

  /** The slicing loop: `for start in range(0, n, size)`. */
  method CutBatches<O>(f: Flat<O>, p: seq<nat>, size: nat) returns (batches: seq<Minibatch<O>>)
    requires size > 0 && FlatOf(f, |p|) && Permutation(p, |p|)
    ensures Epoch(batches, f, p, size)
  {
    hide Batch;
    batches := [];
    var start: nat := 0;
    while start < |p|
      invariant start == Stride(|batches|, size) && (|batches| > 0 ==> Stride(|batches| - 1, size) < |p|)
      invariant forall b: nat :: b < |batches| ==> batches[b] == Batch(f, Slice(p, b, size), |p|)
      decreases |p| + size - start
    {
      var stop := if start + size < |p| then start + size else |p|;
      assert p[start..stop] == Slice(p, |batches|, size);
      batches := batches + [Batch(f, p[start..stop], |p|)];
      start := start + size;
    }
  }

  /** Transition k is entry j of batch b. */
  predicate Occurs<O>(batches: seq<Minibatch<O>>, k: nat, b: nat, j: nat) {
    b < |batches| && j < |batches[b].index| && batches[b].index[j] == k
  }

  /** Entry j of a minibatch is transition k of the rollout in all five fields. */
  predicate SameFields<O(==)>(m: Flat<O>, j: nat, f: Flat<O>, k: nat) {
    && j < |m.states| && FlatOf(m, |m.states|) && k < |f.states| && FlatOf(f, |f.states|)
    && m.states[j] == f.states[k] && m.actions[j] == f.actions[k] && m.logProbs[j] == f.logProbs[k]
    && m.advantages[j] == f.advantages[k] && m.targets[j] == f.targets[k]
  }

  /** Only one place in the epoch holds a transition. */
  lemma OccursOnce<O>(batches: seq<Minibatch<O>>, f: Flat<O>, p: seq<nat>, size: nat, k: nat, b: nat, j: nat, c: nat,
                      i: nat)
    requires size > 0 && FlatOf(f, |p|) && Permutation(p, |p|) && Epoch(batches, f, p, size)
    requires Occurs(batches, k, b, j) && Occurs(batches, k, c, i)
    ensures b == c && j == i
  {
    OccursAt(batches, f, p, size, k, b, j);
    OccursAt(batches, f, p, size, k, c, i);
    hide Permutation, Epoch, Occurs;
    SamePosition(p, Stride(b, size) + j, Stride(c, size) + i);
    SameBlock(b, j, c, i, size);
  }

  /** Entry j of batch b is the permutation's entry b * size + j. */
  lemma OccursAt<O>(batches: seq<Minibatch<O>>, f: Flat<O>, p: seq<nat>, size: nat, k: nat, b: nat, j: nat)
    requires size > 0 && FlatOf(f, |p|) && Permutation(p, |p|) && Epoch(batches, f, p, size) && Occurs(batches, k, b, j)
    ensures j < size && Stride(b, size) + j < |p| && p[Stride(b, size) + j] == k
  {
  }

  lemma SamePosition(p: seq<nat>, x: nat, y: nat)
    requires x < |p| && y < |p| && Permutation(p, |p|) && p[x] == p[y]
    ensures x == y
  {
  }

  /** Some entry of the permutation is k. */
  lemma Hit(p: seq<nat>, k: nat) returns (q: nat)
    requires Permutation(p, |p|) && k < |p|
    ensures q < |p| && p[q] == k
  {
    PermutationIsOnto(p, |p|);
    assert Identity(|p|)[k] == k && k in Elements(p);
    q :| q < |p| && p[q] == k;
  }

  /** Every transition occurs, with all its fields. */
  lemma OccursSomewhere<O>(batches: seq<Minibatch<O>>, f: Flat<O>, p: seq<nat>, size: nat, k: nat)
    returns (b: nat, j: nat)
    requires size > 0 && FlatOf(f, |p|) && Permutation(p, |p|) && Epoch(batches, f, p, size) && k < |p|
    ensures Occurs(batches, k, b, j)
  {
    hide Permutation;
    var q := Hit(p, k);
    b, j := Locate(q, size);
    if b >= |batches| && b > |batches| {
      StrideGrows(|batches|, b, size);
    }
  }

  /** Wherever a transition occurs, its five fields are there. */
  lemma OccursWhole<O>(batches: seq<Minibatch<O>>, f: Flat<O>, p: seq<nat>, size: nat, k: nat, b: nat, j: nat)
    requires size > 0 && FlatOf(f, |p|) && Permutation(p, |p|) && Epoch(batches, f, p, size) && Occurs(batches, k, b, j)
    ensures k < |p| && SameFields(batches[b].fields, j, f, k)
  {
  }

  ghost predicate OccursAnywhere<O>(batches: seq<Minibatch<O>>, k: nat) {
    exists b: nat, j: nat :: Occurs(batches, k, b, j)
  }

  /** The partition theorem: in one epoch each transition occurs exactly once, with all five fields. */
  lemma EachTransitionOnce<O>(batches: seq<Minibatch<O>>, f: Flat<O>, p: seq<nat>, size: nat)
    requires size > 0 && FlatOf(f, |p|) && Permutation(p, |p|) && Epoch(batches, f, p, size)
    ensures forall k: nat :: k < |p| ==> OccursAnywhere(batches, k)
    ensures forall k: nat, b: nat, j: nat, c: nat, i: nat :: Occurs(batches, k, b, j) && Occurs(batches, k, c, i) ==>
      b == c && j == i
    ensures forall k: nat, b: nat, j: nat :: Occurs(batches, k, b, j) ==>
      k < |p| && SameFields(batches[b].fields, j, f, k)
  {
    hide Epoch, SameFields, FlatOf, Permutation;
    forall k: nat | k < |p| ensures OccursAnywhere(batches, k) {
      var b, j := OccursSomewhere(batches, f, p, size, k);
    }
    forall k: nat, b: nat, j: nat, c: nat, i: nat | Occurs(batches, k, b, j) && Occurs(batches, k, c, i)
      ensures b == c && j == i
    {
      OccursOnce(batches, f, p, size, k, b, j, c, i);
    }
    forall k: nat, b: nat, j: nat | Occurs(batches, k, b, j) ensures k < |p| && SameFields(batches[b].fields, j, f, k) {
      OccursWhole(batches, f, p, size, k, b, j);
    }
  }

  /** There are ceil(n / size) batches, none empty, and all but the last are full. */
  lemma BatchSizes<O>(batches: seq<Minibatch<O>>, f: Flat<O>, p: seq<nat>, size: nat)
    requires size > 0 && FlatOf(f, |p|) && Permutation(p, |p|) && Epoch(batches, f, p, size)
    ensures |batches| == Ceiling(|p|, size)
    ensures forall b: nat :: b < |batches| ==>
      0 < |batches[b].index| <= size && (b + 1 < |batches| ==> |batches[b].index| == size)
  {
    hide Ceiling;
    CountIsCeiling(|batches|, |p|, size);
    forall b: nat | b + 1 < |batches| ensures Stride(b, size) + size <= Stride(|batches| - 1, size) {
      StrideGrows(b, |batches| - 1, size);
    }
  }

  /** Advantages normalised over the whole rollout. */
  function Normalised(a: seq<real>, std: real): (s: seq<real>)
    requires std >= 0.0
    ensures |s| == |a|
  {
    if a == [] then [] else Centred(a, AddUp(a) / |a| as real, std + 0.00000001)
  }

  function Centred(a: seq<real>, mean: real, scale: real): (s: seq<real>)
    requires scale > 0.0
    ensures |s| == |a| && forall i :: 0 <= i < |a| ==> s[i] == (a[i] - mean) / scale
  {
    seq(|a|, i requires 0 <= i < |a| => (a[i] - mean) / scale)
  }

  lemma {:induction false} SumCentred(a: seq<real>, mean: real, scale: real)
    requires scale > 0.0
    ensures AddUp(Centred(a, mean, scale)) == (AddUp(a) - Times(|a|, mean)) / scale
  {
    if a != [] {
      var p, x := a[..|a| - 1], a[|a| - 1];
      SumCentred(p, mean, scale);
      assert Centred(a, mean, scale)[..|a| - 1] == Centred(p, mean, scale);
      CentredArithmetic(AddUp(p), Times(|p|, mean), x, mean, scale);
    }
  }

  lemma CentredArithmetic(total: real, means: real, x: real, mean: real, scale: real)
    requires scale > 0.0
    ensures (total - means) / scale + (x - mean) / scale == (total + x - (mean + means)) / scale
  {
  }

  /** Each entry, undone: scale, sign and place. */
  lemma NormalisedAt(a: seq<real>, std: real, i: nat)
    requires std >= 0.0 && i < |a|
    ensures Normalised(a, std)[i] * (std + 0.00000001) == a[i] - AddUp(a) / |a| as real
  {
    Undivided(a[i] - AddUp(a) / |a| as real, std + 0.00000001);
  }

  lemma Undivided(x: real, y: real)
    requires y > 0.0
    ensures x / y * y == x
  {
  }

  function SquareOff(x: real, mean: real): real {
    (x - mean) * (x - mean)
  }

  /** The squared deviations from `mean` added up. */
  function Spread(a: seq<real>, mean: real): real {
    SumSeq(a, x => SquareOff(x, mean))
  }

  lemma SpreadMore(p: seq<real>, x: real, mean: real)
    ensures Spread(p + [x], mean) == Spread(p, mean) + SquareOff(x, mean)
  {
    assert (p + [x])[..|p|] == p;
  }

  /** std is the standard deviation of a: its square times their number is the sum of their squared deviations. */
  predicate IsDeviation(a: seq<real>, std: real) {
    a != [] && std >= 0.0 && std * std * |a| as real == Spread(a, AddUp(a) / |a| as real)
  }

  lemma SquareStep(t: real, u: real, x: real, mean: real, scale: real)
    requires scale > 0.0 && t * (scale * scale) == u
    ensures (t + SquareOff((x - mean) / scale, 0.0)) * (scale * scale) == u + SquareOff(x, mean)
  {
    var y := (x - mean) / scale;
    assert y * scale == x - mean;
    assert (y * y) * (scale * scale) == (y * scale) * (y * scale);
    Distribute(t, y * y, scale * scale);
  }

  lemma Distribute(a: real, b: real, c: real)
    ensures (a + b) * c == a * c + b * c
  {
  }

  lemma CentredMore(p: seq<real>, x: real, mean: real, scale: real)
    requires scale > 0.0
    ensures Centred(p + [x], mean, scale) == Centred(p, mean, scale) + [(x - mean) / scale]
  {
  }

  lemma SpreadStep(p: seq<real>, x: real, mean: real, scale: real)
    requires scale > 0.0 && Spread(Centred(p, mean, scale), 0.0) * (scale * scale) == Spread(p, mean)
    ensures Spread(Centred(p + [x], mean, scale), 0.0) * (scale * scale) == Spread(p + [x], mean)
  {
    hide Spread, Centred, SquareOff;
    CentredMore(p, x, mean, scale);
    SpreadMore(p, x, mean);
    SpreadMore(Centred(p, mean, scale), (x - mean) / scale, 0.0);
    SquareStep(Spread(Centred(p, mean, scale), 0.0), Spread(p, mean), x, mean, scale);
  }

  lemma NoSpread(mean: real, scale: real)
    requires scale > 0.0
    ensures Spread(Centred([], mean, scale), 0.0) == 0.0 == Spread([], mean)
  {
  }

  lemma {:induction false} SpreadCentred(a: seq<real>, mean: real, scale: real)
    requires scale > 0.0
    ensures Spread(Centred(a, mean, scale), 0.0) * (scale * scale) == Spread(a, mean)
  {
    hide Spread, Centred;
    if a == [] {
      NoSpread(mean, scale);
    } else {
      var p, x := a[..|a| - 1], a[|a| - 1];
      assert a == p + [x];
      SpreadCentred(p, mean, scale);
      SpreadStep(p, x, mean, scale);
    }
  }

  /** Divided by the standard deviation plus 1e-8, the n advantages have squares that add up to n times
  std^2 / (std + 1e-8)^2. */
  lemma NormalisedSpread(a: seq<real>, std: real)
    requires IsDeviation(a, std)
    ensures Spread(Normalised(a, std), 0.0) * ((std + 0.00000001) * (std + 0.00000001)) == std * std * |a| as real
  {
    SpreadCentred(a, AddUp(a) / |a| as real, std + 0.00000001);
    hide Spread;
  }

  lemma NormalisedSumsToZero(a: seq<real>, std: real)
    requires std >= 0.0
    ensures AddUp(Normalised(a, std)) == 0.0
  {
    if a != [] {
      SumCentred(a, AddUp(a) / |a| as real, std + 0.00000001);
    }
  }

  lemma {:induction false} SumConcat<T>(a: seq<T>, b: seq<T>, f: T -> real)
    ensures SumSeq(a + b, f) == SumSeq(a, f) + SumSeq(b, f)
  {
    if b == [] {
      assert a + b == a;
    } else {
      SumConcat(a, b[..|b| - 1], f);
      assert (a + b)[..|a + b| - 1] == a + b[..|b| - 1];
    }
  }

  /** Picking and summing is summing the picked entries. */
  lemma {:induction false} SumPicked(flat: seq<real>, mb: seq<nat>, f: nat -> real)
    requires forall j :: 0 <= j < |mb| ==> mb[j] < |flat|
    requires forall i: nat :: i < |flat| ==> f(i) == flat[i]
    ensures AddUp(Pick(flat, mb)) == SumSeq(mb, f)
  {
    if mb != [] {
      var m := mb[..|mb| - 1];
      SumPicked(flat, m, f);
      assert Pick(flat, mb)[..|mb| - 1] == Pick(flat, m);
    }
  }

  function BatchSum<O>(m: Minibatch<O>): real {
    AddUp(m.fields.advantages)
  }

  /** One batch holds its part of the sum. */
  lemma BatchPart<O>(f: Flat<O>, p: seq<nat>, size: nat, b: nat, g: nat -> real)
    requires FlatOf(f, |p|) && (forall j :: 0 <= j < |p| ==> p[j] < |p|)
    requires forall i: nat :: i < |p| ==> g(i) == f.advantages[i]
    ensures BatchSum(Batch(f, Slice(p, b, size), |p|)) == SumSeq(Slice(p, b, size), g)
  {
    SumPicked(f.advantages, Slice(p, b, size), g);
  }

  lemma SlicesJoin(p: seq<nat>, size: nat, b: nat)
    ensures p[..Cut(b + 1, size, |p|)] == p[..Cut(b, size, |p|)] + Slice(p, b, size)
  {
  }

  lemma BatchAt<O>(batches: seq<Minibatch<O>>, f: Flat<O>, p: seq<nat>, size: nat, b: nat, g: nat -> real)
    requires size > 0 && FlatOf(f, |p|) && Permutation(p, |p|) && Epoch(batches, f, p, size) && b < |batches|
    requires forall i: nat :: i < |p| ==> g(i) == f.advantages[i]
    ensures BatchSum(batches[b]) == SumSeq(Slice(p, b, size), g)
  {
    BatchPart(f, p, size, b, g);
    hide BatchSum, SumSeq;
  }

  lemma NextPart<O>(batches: seq<Minibatch<O>>, p: seq<nat>, size: nat, k: nat, g: nat -> real)
    requires k < |batches| && BatchSum(batches[k]) == SumSeq(Slice(p, k, size), g)
    requires SumSeq(batches[..k], BatchSum) == SumSeq(p[..Cut(k, size, |p|)], g)
    ensures SumSeq(batches[..k + 1], BatchSum) == SumSeq(p[..Cut(k + 1, size, |p|)], g)
  {
    hide SumSeq, BatchSum, Cut, Slice;
    assert batches[..k + 1] == batches[..k] + [batches[k]];
    SumMore(batches[..k], batches[k], BatchSum);
    SlicesJoin(p, size, k);
    SumConcat(p[..Cut(k, size, |p|)], Slice(p, k, size), g);
  }

  lemma {:induction false} FirstBatches<O>(batches: seq<Minibatch<O>>, f: Flat<O>, p: seq<nat>, size: nat, k: nat,
                                           g: nat -> real)
    requires size > 0 && FlatOf(f, |p|) && Permutation(p, |p|) && Epoch(batches, f, p, size) && k <= |batches|
    requires forall i: nat :: i < |p| ==> g(i) == f.advantages[i]
    ensures SumSeq(batches[..k], BatchSum) == SumSeq(p[..Cut(k, size, |p|)], g)
  {
    hide Epoch, Permutation, FlatOf, Batch, BatchSum, Slice, Cut, SumSeq;
    if k > 0 {
      BatchAt(batches, f, p, size, k - 1, g);
      FirstBatches(batches, f, p, size, k - 1, g);
      NextPart(batches, p, size, k - 1, g);
    } else {
      NoBatch(batches, p, size, g);
    }
  }

  lemma NoBatch<O>(batches: seq<Minibatch<O>>, p: seq<nat>, size: nat, g: nat -> real)
    ensures SumSeq(batches[..0], BatchSum) == SumSeq(p[..Cut(0, size, |p|)], g)
  {
    assert Stride(0, size) == 0;
  }

  /** Over one epoch the advantages handed out add up to what the rollout holds, whatever the permutation. */
  lemma EpochSum<O>(batches: seq<Minibatch<O>>, f: Flat<O>, p: seq<nat>, size: nat)
    requires size > 0 && FlatOf(f, |p|) && Permutation(p, |p|) && Epoch(batches, f, p, size)
    ensures SumSeq(batches, BatchSum) == AddUp(f.advantages)
  {
    var g := (i: nat) => if i < |f.advantages| then f.advantages[i] else 0.0;
    FirstBatches(batches, f, p, size, |batches|, g);
    assert batches[..|batches|] == batches;
    assert p[..Cut(|batches|, size, |p|)] == p;
    SumAlong(p, |p|, g);
    SumPicked(f.advantages, Identity(|p|), g);
    assert Pick(f.advantages, Identity(|p|)) == f.advantages;
  }

  /** Normalised advantages sum to zero over an epoch. */
  lemma EpochCentred<O>(batches: seq<Minibatch<O>>, f: Flat<O>, p: seq<nat>, size: nat, raw: seq<real>, std: real)
    requires size > 0 && FlatOf(f, |p|) && Permutation(p, |p|) && Epoch(batches, f, p, size)
    requires std >= 0.0 && f.advantages == Normalised(raw, std)
    ensures SumSeq(batches, BatchSum) == 0.0
  {
    EpochSum(batches, f, p, size);
    NormalisedSumsToZero(raw, std);
  }
}
