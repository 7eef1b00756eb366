/** The rollout buffer as it is programmed: arrays over (time, environment), filled row by row, and the backward
loop that carries one running advantage per environment. */
module Rollouts {
  import opened Gae
  import opened Minibatches

  /** An observation or an action vector. */
  type Obs = seq<real>

  /** The first n entries of column e. */
  function Prefix(a: array2<real>, e: nat, n: nat): (s: seq<real>)
    requires n <= a.Length0 && e < a.Length1
    reads a
    ensures |s| == n && forall t :: 0 <= t < n ==> s[t] == a[t, e]
  {
    if n == 0 then [] else Prefix(a, e, n - 1) + [a[n - 1, e]]
  }

  /** The first n entries of row t. */
  function Row<T>(a: array2<T>, t: nat, n: nat): (s: seq<T>)
    requires t < a.Length0 && n <= a.Length1
    reads a
    ensures |s| == n && forall e :: 0 <= e < n ==> s[e] == a[t, e]
  {
    if n == 0 then [] else Row(a, t, n - 1) + [a[t, n - 1]]
  }

  /** The first `rows` rows one after another. */
  function Flatten<T>(a: array2<T>, rows: nat): (s: seq<T>)
    requires rows <= a.Length0
    reads a
    ensures |s| == Stride(rows, a.Length1)
  {
    if rows == 0 then [] else Flatten(a, rows - 1) + Row(a, rows - 1, a.Length1)
  }

  /** Flattening is row major: step t of environment e lands at At(t, e). */
  lemma {:induction false} FlattenAt<T>(a: array2<T>, rows: nat, t: nat, e: nat)
    requires t < rows <= a.Length0 && e < a.Length1
    ensures At(t, e, a.Length1) < Stride(rows, a.Length1) && Flatten(a, rows)[At(t, e, a.Length1)] == a[t, e]
  {
    if t < rows - 1 {
      FlattenAt(a, rows - 1, t, e);
    }
  }

  /** One step of the loop for all environments at once. */
  function CarryRow(gamma: real, lam: real, r: seq<real>, next: seq<real>, d: seq<real>, v: seq<real>,
                    adv: seq<real>): (s: seq<real>)
    requires |r| == |next| == |d| == |v| == |adv|
    ensures |s| == |adv|
    ensures forall e :: 0 <= e < |s| ==>
      s[e] == Carry(Residual(r[e], gamma, next[e], d[e], v[e]), gamma * lam, d[e], adv[e])
  {
    seq(|adv|,
        e requires 0 <= e < |adv| => Carry(Residual(r[e], gamma, next[e], d[e], v[e]), gamma * lam, d[e], adv[e]))
  }

  /** What the buffer holds of step t of one environment. */
  predicate AtStep(c: Column, t: nat, r: real, next: real, d: real, v: real) {
    Shaped(c) && t < |c.r| && r == c.r[t] && v == c.v[t] && d == c.d[t] && next == Value(c, t + 1)
  }

  /** If `adv` holds the advantages of step t + 1, CarryRow gives those of step t. */
  lemma CarriesBack(cs: seq<Column>, gamma: real, lam: real, t: nat,
                    r: seq<real>, next: seq<real>, d: seq<real>, v: seq<real>, adv: seq<real>)
    requires |r| == |next| == |d| == |v| == |adv| == |cs|
    requires forall e: nat :: e < |cs| ==> Shaped(cs[e]) && t < |cs[e].r|
    requires forall e: nat :: e < |cs| ==> AtStep(cs[e], t, r[e], next[e], d[e], v[e])
    requires forall e: nat :: e < |cs| ==> adv[e] == Advantage(cs[e], gamma, lam, t + 1)
    ensures forall e: nat :: e < |cs| ==> CarryRow(gamma, lam, r, next, d, v, adv)[e] == Advantage(cs[e], gamma, lam, t)
  {
    hide Carry, Residual, Value;
  }

  lemma TargetAt(c: Column, gamma: real, lam: real, t: nat)
    requires Shaped(c) && t < |c.r|
    ensures Target(c, gamma, lam, t) == Advantage(c, gamma, lam, t) + c.v[t]
  {
  }

  /** Row assignment. */
  method SetRow<T>(a: array2<T>, t: nat, row: seq<T>)
    requires t < a.Length0 && |row| == a.Length1
    modifies a
    ensures forall s, e :: 0 <= s < a.Length0 && 0 <= e < a.Length1 ==>
      a[s, e] == if s == t then row[e] else old(a[s, e])
  {
    forall e | 0 <= e < a.Length1 { a[t, e] := row[e]; }
  }

  /** The same for numbers: a row stored after the first t extends every column by its entry. */
  method AppendRow(a: array2<real>, t: nat, row: seq<real>)
    requires t < a.Length0 && |row| == a.Length1
    modifies a
    ensures forall e: nat :: e < a.Length1 ==> Prefix(a, e, t + 1) == old(Prefix(a, e, t)) + [row[e]]
    ensures forall s, e :: 0 <= s < a.Length0 && 0 <= e < a.Length1 ==>
      a[s, e] == if s == t then row[e] else old(a[s, e])
  {
    SetRow(a, t, row);
    forall e: nat | e < a.Length1 ensures Prefix(a, e, t + 1) == old(Prefix(a, e, t)) + [row[e]] {
      assert forall s :: 0 <= s < t ==> Prefix(a, e, t + 1)[s] == old(Prefix(a, e, t))[s];
    }
  }

  /** What the networks saw and gave at one timestep, all environments together. */
  datatype Shot = Shot(states: seq<Obs>, actions: seq<Obs>, values: seq<real>, logProbs: seq<real>)

  class RolloutBuffer {
    const numSteps: nat
    const numEnvs: nat
    const states: array2<Obs>
    const actions: array2<Obs>
    const rewards: array2<real>
    const values: array2<real>
    const logProbs: array2<real>
    const dones: array2<real>
    const advantages: array2<real>
    const targets: array2<real> // `returns`
    var ptr: nat

    predicate Sized<T>(a: array2<T>) {
      a.Length0 == numSteps && a.Length1 == numEnvs
    }

    predicate Valid()
      reads this
    {
      && ptr <= numSteps
      && Sized(states) && Sized(actions) && Sized(rewards) && Sized(values)
      && Sized(logProbs) && Sized(dones) && Sized(advantages) && Sized(targets)
      && states != actions
      && rewards !in {values, logProbs, dones, advantages, targets}
      && values !in {logProbs, dones, advantages, targets}
      && logProbs !in {dones, advantages, targets}
      && dones !in {advantages, targets} && advantages != targets
    }

    constructor (numSteps: nat, numEnvs: nat)
      ensures Valid() && ptr == 0 && this.numSteps == numSteps && this.numEnvs == numEnvs
      ensures fresh({states, actions}) && fresh({rewards, values, logProbs, dones, advantages, targets})
    {
      this.numSteps, this.numEnvs := numSteps, numEnvs;
      states := new Obs[numSteps, numEnvs]((t, e) => []);
      actions := new Obs[numSteps, numEnvs]((t, e) => []);
      rewards := new real[numSteps, numEnvs]((t, e) => 0.0);
      values := new real[numSteps, numEnvs]((t, e) => 0.0);
      logProbs := new real[numSteps, numEnvs]((t, e) => 0.0);
      dones := new real[numSteps, numEnvs]((t, e) => 0.0);
      advantages := new real[numSteps, numEnvs]((t, e) => 0.0);
      targets := new real[numSteps, numEnvs]((t, e) => 0.0);
      ptr := 0;
    }

    /** What environment e has recorded so far, bootstrapped from `last`. */
    function ColumnOf(e: nat, last: real): (c: Column)
      requires Valid() && e < numEnvs
      reads this, rewards, values, dones
      ensures Shaped(c) && |c.r| == ptr && c.last == last
    {
      Column(Prefix(rewards, e, ptr), Prefix(values, e, ptr), Prefix(dones, e, ptr), last)
    }

    /** The columns of all environments. */
    ghost function Columns(lastValues: seq<real>): (cs: seq<Column>)
      requires Valid() && |lastValues| == numEnvs
      reads this, rewards, values, dones
      ensures |cs| == numEnvs
      ensures forall e: nat :: e < numEnvs ==> cs[e] == ColumnOf(e, lastValues[e])
    {
      seq(numEnvs, e requires Valid() && 0 <= e < numEnvs reads this, rewards, values, dones =>
                     ColumnOf(e, lastValues[e]))
    }

    /** The first n rows. */
    ghost function Shots(n: nat): (s: seq<Shot>)
      requires Valid() && n <= numSteps
      reads this, states, actions, values, logProbs
      ensures |s| == n
      ensures forall t :: 0 <= t < n ==> s[t] == Shot(Row(states, t, numEnvs), Row(actions, t, numEnvs),
                                                      Row(values, t, numEnvs), Row(logProbs, t, numEnvs))
    {
      if n == 0 then [] else
        var t := n - 1;
        Shots(t) + [Shot(Row(states, t, numEnvs), Row(actions, t, numEnvs), Row(values, t, numEnvs),
                         Row(logProbs, t, numEnvs))]
    }

    /** Rows that have not changed. */
    twostate lemma {:induction false} ShotsKept(n: nat)
      requires old(Valid()) && Valid() && n <= numSteps
      requires forall t, e :: 0 <= t < n && 0 <= e < numEnvs ==>
        && states[t, e] == old(states[t, e]) && actions[t, e] == old(actions[t, e])
        && values[t, e] == old(values[t, e]) && logProbs[t, e] == old(logProbs[t, e])
      ensures Shots(n) == old(Shots(n))
    {
      if n > 0 {
        ShotsKept(n - 1);
        var t := n - 1;
        assert Row(states, t, numEnvs) == old(Row(states, t, numEnvs));
        assert Row(actions, t, numEnvs) == old(Row(actions, t, numEnvs));
        assert Row(values, t, numEnvs) == old(Row(values, t, numEnvs));
        assert Row(logProbs, t, numEnvs) == old(Row(logProbs, t, numEnvs));
      }
    }

    lemma ShotAt(t: nat, obs: seq<Obs>, acts: seq<Obs>, vs: seq<real>, lps: seq<real>)
      requires Valid() && t < numSteps && |obs| == |acts| == |vs| == |lps| == numEnvs
      requires forall e :: 0 <= e < numEnvs ==>
        states[t, e] == obs[e] && actions[t, e] == acts[e] && values[t, e] == vs[e] && logProbs[t, e] == lps[e]
      ensures Shots(t + 1) == Shots(t) + [Shot(obs, acts, vs, lps)]
    {
      assert Row(states, t, numEnvs) == obs && Row(actions, t, numEnvs) == acts;
      assert Row(values, t, numEnvs) == vs && Row(logProbs, t, numEnvs) == lps;
    }

    /** One timestep of all environments. A full buffer raises, and nothing is stored. */
    method Add(obs: seq<Obs>, acts: seq<Obs>, rs: seq<real>, vs: seq<real>, lps: seq<real>, ds: seq<real>)
      returns (ok: bool)
      requires Valid() && |obs| == |acts| == |rs| == |vs| == |lps| == |ds| == numEnvs
      modifies this`ptr, states, actions, rewards, values, logProbs, dones
      ensures Valid() && ok == (old(ptr) < numSteps) && ptr == old(ptr) + if ok then 1 else 0
      ensures forall e: nat, last :: e < numEnvs ==>
        ColumnOf(e, last) == if ok then Column(old(ColumnOf(e, last)).r + [rs[e]], old(ColumnOf(e, last)).v + [vs[e]],
                                               old(ColumnOf(e, last)).d + [ds[e]], last)
                             else old(ColumnOf(e, last))
      ensures ok ==> forall e :: 0 <= e < numEnvs ==>
        && states[old(ptr), e] == obs[e] && actions[old(ptr), e] == acts[e] && rewards[old(ptr), e] == rs[e]
        && values[old(ptr), e] == vs[e] && logProbs[old(ptr), e] == lps[e] && dones[old(ptr), e] == ds[e]
      ensures forall t, e :: 0 <= t < old(ptr) && 0 <= e < numEnvs ==>
        && states[t, e] == old(states[t, e]) && actions[t, e] == old(actions[t, e])
        && rewards[t, e] == old(rewards[t, e]) && values[t, e] == old(values[t, e])
        && logProbs[t, e] == old(logProbs[t, e]) && dones[t, e] == old(dones[t, e])
    {
      if ptr >= numSteps {
        return false;
      }
      hide Prefix;
      var t := ptr;
      SetRow(states, t, obs);
      SetRow(actions, t, acts);
      AppendRow(rewards, t, rs);
      AppendRow(values, t, vs);
      AppendRow(logProbs, t, lps);
      AppendRow(dones, t, ds);
      ptr := ptr + 1;
      ok := true;
    }

    /** Column by column the stored advantages are the recurrence of that column alone, and `returns` is their sum
    with the values. */
    ghost predicate Computed(lastValues: seq<real>, gamma: real, lam: real)
      requires Valid() && |lastValues| == numEnvs
      reads this, rewards, values, dones, advantages, targets
    {
      forall t: nat, e: nat :: t < ptr && e < numEnvs ==>
        && advantages[t, e] == Advantage(ColumnOf(e, lastValues[e]), gamma, lam, t)
        && targets[t, e] == Target(ColumnOf(e, lastValues[e]), gamma, lam, t)
    }

    /** The backward loop; a wrong number of bootstrap values raises. */
    method ComputeGae(lastValues: seq<real>, gamma: real, lam: real) returns (ok: bool)
      requires Valid()
      modifies advantages, targets
      ensures Valid() && ok == (|lastValues| == numEnvs)
      ensures ok ==> Computed(lastValues, gamma, lam)
    {
      if |lastValues| != numEnvs {
        return false;
      }
      Backward(lastValues, gamma, lam);
      hide Advantage, Target, Prefix;
      AddValues();
      forall s: nat, e: nat | s < ptr && e < numEnvs
        ensures targets[s, e] == Target(ColumnOf(e, lastValues[e]), gamma, lam, s)
      {
        TargetAt(ColumnOf(e, lastValues[e]), gamma, lam, s);
      }
      ok := true;
    }

    /** The body of the loop, up to the assignment. */
    method StepBack(lastValues: seq<real>, gamma: real, lam: real, t: nat, adv: seq<real>, ghost cs: seq<Column>)
      returns (back: seq<real>)
      requires Valid() && |lastValues| == |adv| == numEnvs && cs == Columns(lastValues) && t < ptr
      requires forall e: nat :: e < numEnvs ==> adv[e] == Advantage(cs[e], gamma, lam, t + 1)
      ensures |back| == numEnvs && forall e: nat :: e < numEnvs ==> back[e] == Advantage(cs[e], gamma, lam, t)
    {
      hide Advantage, AtStep, CarryRow, Prefix;
      var next := if t == ptr - 1 then lastValues else Row(values, t + 1, numEnvs);
      var r, d, v := Row(rewards, t, numEnvs), Row(dones, t, numEnvs), Row(values, t, numEnvs);
      RowsAtStep(cs, lastValues, t, next);
      CarriesBack(cs, gamma, lam, t, r, next, d, v, adv);
      back := CarryRow(gamma, lam, r, next, d, v, adv);
    }

    /** `for t in reversed(range(self.ptr))`. */
    method Backward(lastValues: seq<real>, gamma: real, lam: real)
      requires Valid() && |lastValues| == numEnvs
      modifies advantages
      ensures forall t: nat, e: nat :: t < ptr && e < numEnvs ==>
        advantages[t, e] == Advantage(ColumnOf(e, lastValues[e]), gamma, lam, t)
    {
      ghost var cs := Columns(lastValues);
      assert forall e: nat :: e < numEnvs ==> Advantage(cs[e], gamma, lam, ptr) == 0.0;
      hide Advantage, Prefix;
      var adv := seq(numEnvs, e => 0.0);
      var t: nat := ptr;
      while t > 0
        invariant t <= ptr && |adv| == numEnvs && cs == Columns(lastValues)
        invariant forall e: nat :: e < numEnvs ==> adv[e] == Advantage(cs[e], gamma, lam, t)
        invariant forall s: nat, e: nat :: t <= s < ptr && e < numEnvs ==>
          advantages[s, e] == Advantage(cs[e], gamma, lam, s)
      {
        t := t - 1;
        adv := StepBack(lastValues, gamma, lam, t, adv, cs);
        SetRow(advantages, t, adv);
      }
    }

    /** The rows that one pass of the loop reads are step t of every column. */
    lemma RowsAtStep(cs: seq<Column>, lastValues: seq<real>, t: nat, next: seq<real>)
      requires Valid() && |lastValues| == numEnvs && cs == Columns(lastValues) && t < ptr
      requires next == if t == ptr - 1 then lastValues else Row(values, t + 1, numEnvs)
      ensures forall e: nat :: e < numEnvs ==> Shaped(cs[e]) && t < |cs[e].r|
      ensures forall e: nat :: e < numEnvs ==>
        AtStep(cs[e], t, Row(rewards, t, numEnvs)[e], next[e], Row(dones, t, numEnvs)[e], Row(values, t, numEnvs)[e])
    {
    }

    /** `returns[:ptr] = advantages[:ptr] + values[:ptr]`. */
    method AddValues()
      requires Valid()
      modifies targets
      ensures forall t: nat, e: nat :: t < ptr && e < numEnvs ==> targets[t, e] == advantages[t, e] + values[t, e]
    {
      forall s, e | 0 <= s < ptr && 0 <= e < numEnvs { targets[s, e] := advantages[s, e] + values[s, e]; }
    }

    /** All transitions stored so far as flat fields, the advantages normalised by the given deviation. */
    function Flattened(std: real): (f: Flat<Obs>)
      requires Valid() && std >= 0.0
      reads this, states, actions, logProbs, advantages, targets
      ensures FlatOf(f, Stride(ptr, numEnvs))
    {
      Flat(Flatten(states, ptr), Flatten(actions, ptr), Flatten(logProbs, ptr),
           Normalised(Flatten(advantages, ptr), std), Flatten(targets, ptr))
    }

    /** The mean of all stored advantages. */
    function MeanAdvantage(): real
      requires Valid() && Stride(ptr, numEnvs) > 0
      reads this, advantages
    {
      Sums.AddUp(Flatten(advantages, ptr)) / Stride(ptr, numEnvs) as real
    }

    /** Entry j of a minibatch is step t of environment e, field by field; the advantage is centred, and divided by the
    deviation plus 1e-8. */
    ghost predicate IsTransition(m: Flat<Obs>, j: nat, t: nat, e: nat, std: real)
      requires Valid() && t < ptr && e < numEnvs && Stride(ptr, numEnvs) > 0
      reads this, states, actions, logProbs, advantages, targets
    {
      && j < |m.states| && FlatOf(m, |m.states|)
      && m.states[j] == states[t, e] && m.actions[j] == actions[t, e] && m.logProbs[j] == logProbs[t, e]
      && m.targets[j] == targets[t, e]
      && m.advantages[j] * (std + 0.00000001) == advantages[t, e] - MeanAdvantage()
    }

    /** One epoch of minibatches for a drawn permutation. A size of zero raises; a negative one gives no batch. */
    method GetMinibatches(size: int, perm: seq<nat>, std: real) returns (ok: bool, batches: seq<Minibatch<Obs>>)
      requires Valid() && std >= 0.0 && Permutation(perm, Stride(ptr, numEnvs))
      ensures ok == (size != 0) && (size <= 0 ==> batches == [])
      ensures size > 0 ==> Epoch(batches, Flattened(std), perm, size)
    {
      batches := [];
      if size <= 0 {
        return size < 0, [];
      }
      batches := CutBatches(Flattened(std), perm, size);
      ok := true;
    }

    /** So one epoch holds every (step, environment) exactly once, all its fields together. */
    lemma Partition(size: nat, perm: seq<nat>, std: real, batches: seq<Minibatch<Obs>>)
      requires Valid() && std >= 0.0 && Permutation(perm, Stride(ptr, numEnvs))
      requires size > 0 && Epoch(batches, Flattened(std), perm, size)
      ensures forall t: nat, e: nat :: t < ptr && e < numEnvs ==> OccursAnywhere(batches, At(t, e, numEnvs))
      ensures forall t: nat, e: nat, b: nat, j: nat ::
        t < ptr && e < numEnvs && Occurs(batches, At(t, e, numEnvs), b, j) ==>
        && At(t, e, numEnvs) < Stride(ptr, numEnvs)
        && IsTransition(batches[b].fields, j, t, e, std)
      ensures forall k: nat, b: nat, j: nat, c: nat, i: nat ::
        Occurs(batches, k, b, j) && Occurs(batches, k, c, i) ==> b == c && j == i
    {
      var f := Flattened(std);
      assert |perm| == Stride(ptr, numEnvs);
      hide Epoch, Permutation, FlatOf, IsTransition;
      forall t: nat, e: nat | t < ptr && e < numEnvs
        ensures At(t, e, numEnvs) < Stride(ptr, numEnvs) && OccursAnywhere(batches, At(t, e, numEnvs))
        ensures forall b: nat, j: nat :: Occurs(batches, At(t, e, numEnvs), b, j) ==>
          IsTransition(batches[b].fields, j, t, e, std)
      {
        TransitionAt(batches, f, perm, size, std, t, e);
      }
      EachTransitionOnce(batches, f, perm, size);
    }

    /** It comes in ceil(steps * environments / size) batches and its normalised advantages sum to zero. */
    lemma EpochTotals(size: nat, perm: seq<nat>, std: real, batches: seq<Minibatch<Obs>>)
      requires Valid() && std >= 0.0 && Permutation(perm, Stride(ptr, numEnvs))
      requires size > 0 && Epoch(batches, Flattened(std), perm, size)
      ensures |batches| == Ceiling(Stride(ptr, numEnvs), size)
      ensures Sums.SumSeq(batches, BatchSum) == 0.0
    {
      var f := Flattened(std);
      assert |perm| == Stride(ptr, numEnvs);
      hide Epoch, Permutation, FlatOf, Ceiling;
      BatchSizes(batches, f, perm, size);
      EpochCentred(batches, f, perm, size, Flatten(advantages, ptr), std);
    }

    lemma TransitionAt(batches: seq<Minibatch<Obs>>, f: Flat<Obs>, perm: seq<nat>, size: nat, std: real, t: nat, e: nat)
      requires Valid() && std >= 0.0 && Permutation(perm, Stride(ptr, numEnvs)) && f == Flattened(std)
      requires size > 0 && FlatOf(f, |perm|) && Epoch(batches, f, perm, size) && t < ptr && e < numEnvs
      ensures At(t, e, numEnvs) < Stride(ptr, numEnvs) && OccursAnywhere(batches, At(t, e, numEnvs))
      ensures forall b: nat, j: nat :: Occurs(batches, At(t, e, numEnvs), b, j) ==>
        IsTransition(batches[b].fields, j, t, e, std)
    {
      hide Epoch, Permutation, Normalised;
      EachTransitionOnce(batches, f, perm, size);
      FlattenAt(states, ptr, t, e);
      FlattenAt(actions, ptr, t, e);
      FlattenAt(logProbs, ptr, t, e);
      FlattenAt(targets, ptr, t, e);
      FlattenAt(advantages, ptr, t, e);
      NormalisedAt(Flatten(advantages, ptr), std, At(t, e, numEnvs));
    }
  }

  /** Step t of environment e of one buffer is step t of environment i of the other. */
  predicate SameStep(a: RolloutBuffer, e: nat, b: RolloutBuffer, i: nat, t: nat)
    requires a.Valid() && b.Valid() && e < a.numEnvs && i < b.numEnvs && t < a.ptr && t < b.ptr
    reads a, b, a.rewards, a.values, a.dones, b.rewards, b.values, b.dones
  {
    a.rewards[t, e] == b.rewards[t, i] && a.values[t, e] == b.values[t, i] && a.dones[t, e] == b.dones[t, i]
  }

  /** Nothing crosses an environment or an episode boundary. After `compute_gae` on two buffers, an environment that
  has gone through the same steps up to f in both has the same advantages and returns there, if f ended an episode
  or is the last step with the same bootstrap value: whatever the other environments hold, however many there are,
  and whatever follows f. */
  lemma NothingCrosses(a: RolloutBuffer, b: RolloutBuffer, lastA: seq<real>, lastB: seq<real>, gamma: real, lam: real,
                       e: nat, i: nat, f: nat)
    requires a.Valid() && b.Valid() && |lastA| == a.numEnvs && |lastB| == b.numEnvs
    requires a.Computed(lastA, gamma, lam) && b.Computed(lastB, gamma, lam)
    requires e < a.numEnvs && i < b.numEnvs && f < a.ptr && f < b.ptr
    requires forall t: nat :: t <= f ==> SameStep(a, e, b, i, t)
    requires a.dones[f, e] == 1.0 || (a.ptr == b.ptr == f + 1 && lastA[e] == lastB[i])
    ensures forall t: nat :: t <= f ==>
      a.advantages[t, e] == b.advantages[t, i] && a.targets[t, e] == b.targets[t, i]
  {
    var c, d := a.ColumnOf(e, lastA[e]), b.ColumnOf(i, lastB[i]);
    hide Prefix, Advantage, Target;
    forall t: nat | t <= f ensures c.r[t] == d.r[t] && c.v[t] == d.v[t] && c.d[t] == d.d[t] {
      assert SameStep(a, e, b, i, t);
    }
    forall t: nat | t <= f
      ensures Advantage(c, gamma, lam, t) == Advantage(d, gamma, lam, t)
      ensures Target(c, gamma, lam, t) == Target(d, gamma, lam, t)
    {
      if a.dones[f, e] == 1.0 {
        DoneSeparates(c, d, gamma, lam, f, t);
      } else {
        assert c == d;
      }
    }
  }
}
