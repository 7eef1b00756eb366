/** Generalised advantage estimation on one column of the rollout buffer: one environment over time.
The definitions follow Section 3 of Schulman et al., "High-Dimensional Continuous Control Using Generalized
Advantage Estimation" (arXiv 1506.02438), with episode boundaries masked by the done flags. */
module Gae {
  import opened Series
  import M = Momentum

  /** Rewards, value estimates and done flags of the steps, and the value estimate after the last step. */
  datatype Column = Column(r: seq<real>, v: seq<real>, d: seq<real>, last: real)

  predicate Shaped(c: Column) {
    |c.v| == |c.r| && |c.d| == |c.r|
  }

  /** Done flags are 0 or 1. */
  predicate Flags(c: Column) {
    forall t :: 0 <= t < |c.d| ==> c.d[t] == 0.0 || c.d[t] == 1.0
  }

  function Value(c: Column, t: nat): real
    requires Shaped(c) && t <= |c.r|
  {
    if t == |c.r| then c.last else c.v[t]
  }

  function Residual(r: real, gamma: real, next: real, d: real, v: real): real {
    r + gamma * next * (1.0 - d) - v
  }

  /** The TD residual of step t. */
  function Delta(c: Column, gamma: real, t: nat): real
    requires Shaped(c) && t < |c.r|
  {
    Residual(c.r[t], gamma, Value(c, t + 1), c.d[t], c.v[t])
  }

  /** The running advantage after one more step backwards. */
  function Carry(delta: real, mu: real, d: real, adv: real): real {
    delta + mu * (1.0 - d) * adv
  }

  /** The backward recurrence of `compute_gae`. */
  function Advantage(c: Column, gamma: real, lam: real, t: nat): real
    requires Shaped(c) && t <= |c.r|
    decreases |c.r| - t
  {
    if t == |c.r| then 0.0
    else Carry(Delta(c, gamma, t), gamma * lam, c.d[t], Advantage(c, gamma, lam, t + 1))
  }

  /** Product of 1 - d over l steps from t: 0 once an episode has ended. */
  function Mask(c: Column, t: nat, l: nat): real
    requires Shaped(c) && t + l <= |c.r|
  {
    if l == 0 then 1.0 else Mask(c, t, l - 1) * (1.0 - c.d[t + l - 1])
  }

  /** Summand l of a discounted sum from t on: gamma^l * mask * reward. */
  function Discounted(c: Column, gamma: real, t: nat): nat -> real
    requires Shaped(c)
  {
    (l: nat) => if t + l < |c.r| then Pow(gamma, l) * Mask(c, t, l) * c.r[t + l] else 0.0
  }

  /** The discounted rewards of k steps, cut off after the first done. */
  function Rewards(c: Column, gamma: real, t: nat, k: nat): real
    requires Shaped(c) && t + k <= |c.r|
  {
    SumTo(k, Discounted(c, gamma, t))
  }

  /** The discounted value estimate after k steps, 0 if an episode has ended in them. */
  function Bootstrap(c: Column, gamma: real, t: nat, k: nat): real
    requires Shaped(c) && t + k <= |c.r|
  {
    Pow(gamma, k) * Mask(c, t, k) * Value(c, t + k)
  }

  /** The k-step return. */
  function Return(c: Column, gamma: real, t: nat, k: nat): real
    requires Shaped(c) && t + k <= |c.r|
  {
    Rewards(c, gamma, t, k) + Bootstrap(c, gamma, t, k)
  }

  /** The k-step advantage estimator. */
  function Estimator(c: Column, gamma: real, t: nat, k: nat): real
    requires Shaped(c) && t + k <= |c.r|
  {
    Return(c, gamma, t, k) - Value(c, t)
  }

  lemma MaskMore(c: Column, t: nat, l: nat)
    requires Shaped(c) && t + l + 1 <= |c.r|
    ensures Mask(c, t, l + 1) == Mask(c, t, l) * (1.0 - c.d[t + l])
  {
  }

  lemma {:induction false} MaskShift(c: Column, t: nat, l: nat)
    requires Shaped(c) && t + l + 1 <= |c.r|
    ensures Mask(c, t, l + 1) == (1.0 - c.d[t]) * Mask(c, t + 1, l)
  {
    hide Mask;
    MaskMore(c, t, l);
    if l > 0 {
      MaskShift(c, t, l - 1);
      MaskMore(c, t + 1, l - 1);
      Associate(1.0 - c.d[t], Mask(c, t + 1, l - 1), 1.0 - c.d[t + l]);
    } else {
      NoMask(c, t);
      NoMask(c, t + 1);
    }
  }

  lemma NoMask(c: Column, t: nat)
    requires Shaped(c) && t <= |c.r|
    ensures Mask(c, t, 0) == 1.0
  {
  }

  lemma Associate(x: real, y: real, z: real)
    ensures (x * y) * z == x * (y * z)
  {
  }

  /** The k-step return, one step at a time. */
  lemma ReturnStep(c: Column, gamma: real, t: nat, k: nat)
    requires Shaped(c) && t + k + 1 <= |c.r|
    ensures Return(c, gamma, t, k + 1) == c.r[t] + gamma * (1.0 - c.d[t]) * Return(c, gamma, t + 1, k)
  {
    hide Rewards, Bootstrap;
    var g := gamma * (1.0 - c.d[t]);
    RewardsStep(c, gamma, t, k);
    BootstrapStep(c, gamma, t, k);
    assert g * (Rewards(c, gamma, t + 1, k) + Bootstrap(c, gamma, t + 1, k))
        == g * Rewards(c, gamma, t + 1, k) + g * Bootstrap(c, gamma, t + 1, k);
  }

  lemma RewardsStep(c: Column, gamma: real, t: nat, k: nat)
    requires Shaped(c) && t + k + 1 <= |c.r|
    ensures Rewards(c, gamma, t, k + 1) == c.r[t] + gamma * (1.0 - c.d[t]) * Rewards(c, gamma, t + 1, k)
  {
    hide Discounted, SumTo;
    var g := gamma * (1.0 - c.d[t]);
    var f, h := Discounted(c, gamma, t), Discounted(c, gamma, t + 1);
    var shifted := (l: nat) => g * h(l);
    forall l: nat | l < k ensures shifted(l) == f(l + 1) {
      DiscountedShift(c, gamma, t, l);
    }
    SumToShift(k, f, shifted);
    SumToScale(k, g, h, shifted);
    FirstDiscounted(c, gamma, t);
  }

  lemma BootstrapStep(c: Column, gamma: real, t: nat, k: nat)
    requires Shaped(c) && t + k + 1 <= |c.r|
    ensures Bootstrap(c, gamma, t, k + 1) == gamma * (1.0 - c.d[t]) * Bootstrap(c, gamma, t + 1, k)
  {
    MaskShift(c, t, k);
    assert Pow(gamma, k + 1) == gamma * Pow(gamma, k);
    Tail(gamma, 1.0 - c.d[t], Pow(gamma, k), Mask(c, t + 1, k), Value(c, t + 1 + k));
  }

  lemma FirstDiscounted(c: Column, gamma: real, t: nat)
    requires Shaped(c) && t < |c.r|
    ensures Discounted(c, gamma, t)(0) == c.r[t]
  {
    assert Pow(gamma, 0) == 1.0 && Mask(c, t, 0) == 1.0;
  }

  lemma DiscountedShift(c: Column, gamma: real, t: nat, l: nat)
    requires Shaped(c) && t + l + 1 < |c.r|
    ensures Discounted(c, gamma, t)(l + 1) == gamma * (1.0 - c.d[t]) * Discounted(c, gamma, t + 1)(l)
  {
    MaskShift(c, t, l);
    assert Pow(gamma, l + 1) == gamma * Pow(gamma, l);
    Tail(gamma, 1.0 - c.d[t], Pow(gamma, l), Mask(c, t + 1, l), c.r[t + 1 + l]);
  }

  lemma Tail(gamma: real, n: real, p: real, m: real, x: real)
    ensures (gamma * p) * (n * m) * x == gamma * n * (p * m * x)
  {
    assert (gamma * p) * (n * m) == (gamma * n) * (p * m);
    Associate(gamma * n, p * m, x);
  }

  // ---------- the lambda mixture ----------

  /** lam^j times the (j+1)-step estimator. */
  function Weighted(c: Column, gamma: real, lam: real, t: nat): nat -> real
    requires Shaped(c)
  {
    (j: nat) => if t + j + 1 <= |c.r| then Pow(lam, j) * Estimator(c, gamma, t, j + 1) else 0.0
  }

  /** (1 - lam) * sum of lam^(j-1) A^(j) for j from 1 to k - 1, plus lam^(k-1) A^(k). */
  function Mixture(c: Column, gamma: real, lam: real, t: nat, k: nat): real
    requires Shaped(c) && t + k <= |c.r|
  {
    if k == 0 then 0.0
    else (1.0 - lam) * SumTo(k - 1, Weighted(c, gamma, lam, t)) + Pow(lam, k - 1) * Estimator(c, gamma, t, k)
  }

  lemma EstimatorStep(c: Column, gamma: real, t: nat, k: nat)
    requires Shaped(c) && t + k + 1 <= |c.r|
    ensures Estimator(c, gamma, t, k + 1) == Delta(c, gamma, t) + gamma * (1.0 - c.d[t]) * Estimator(c, gamma, t + 1, k)
    ensures Estimator(c, gamma, t, 0) == 0.0
  {
    ReturnStep(c, gamma, t, k);
    assert Pow(gamma, 0) == 1.0 && Mask(c, t, 0) == 1.0;
    var g := gamma * (1.0 - c.d[t]);
    assert g * (Return(c, gamma, t + 1, k) - Value(c, t + 1)) == g * Return(c, gamma, t + 1, k) - g * Value(c, t + 1);
    assert g * Value(c, t + 1) == gamma * Value(c, t + 1) * (1.0 - c.d[t]);
  }

  /** One more step in the mixture replaces one estimator by the next. */
  lemma MixtureMore(c: Column, gamma: real, lam: real, t: nat, k: nat)
    requires Shaped(c) && t + k + 1 <= |c.r|
    ensures Mixture(c, gamma, lam, t, k + 1)
         == Mixture(c, gamma, lam, t, k) + Pow(lam, k) * (Estimator(c, gamma, t, k + 1) - Estimator(c, gamma, t, k))
  {
    hide Estimator;
    if k > 0 {
      var p, e := Pow(lam, k - 1), Estimator(c, gamma, t, k);
      assert SumTo(k, Weighted(c, gamma, lam, t)) == SumTo(k - 1, Weighted(c, gamma, lam, t)) + p * e;
      MixtureArithmetic(lam, SumTo(k - 1, Weighted(c, gamma, lam, t)), p, e, Estimator(c, gamma, t, k + 1));
    } else {
      EstimatorStep(c, gamma, t, 0);
      assert SumTo(0, Weighted(c, gamma, lam, t)) == 0.0 && Pow(lam, 0) == 1.0;
    }
  }

  lemma MixtureArithmetic(lam: real, s: real, p: real, e: real, e': real)
    ensures (1.0 - lam) * (s + p * e) + (lam * p) * e' == ((1.0 - lam) * s + p * e) + (lam * p) * (e' - e)
  {
  }

  lemma {:induction false} MixtureStep(c: Column, gamma: real, lam: real, t: nat, k: nat)
    requires Shaped(c) && t + k + 1 <= |c.r|
    ensures Mixture(c, gamma, lam, t, k + 1)
      == Delta(c, gamma, t) + gamma * lam * (1.0 - c.d[t]) * Mixture(c, gamma, lam, t + 1, k)
  {
    hide Mixture, Estimator;
    MixtureMore(c, gamma, lam, t, k);
    EstimatorStep(c, gamma, t, k);
    if k == 0 {
      FirstMixture(c, gamma, lam, t);
    } else {
      MixtureStep(c, gamma, lam, t, k - 1);
      EstimatorStep(c, gamma, t, k - 1);
      MixtureMore(c, gamma, lam, t + 1, k - 1);
      StepArithmetic(gamma * (1.0 - c.d[t]), gamma, c.d[t], lam, Pow(lam, k - 1), Mixture(c, gamma, lam, t + 1, k - 1),
                     Estimator(c, gamma, t + 1, k), Estimator(c, gamma, t + 1, k - 1));
    }
  }

  lemma FirstMixture(c: Column, gamma: real, lam: real, t: nat)
    requires Shaped(c) && t + 1 <= |c.r|
    ensures Mixture(c, gamma, lam, t, 1) == Delta(c, gamma, t) && Mixture(c, gamma, lam, t + 1, 0) == 0.0
  {
    EstimatorStep(c, gamma, t, 0);
    assert Pow(gamma, 0) == 1.0 && Mask(c, t + 1, 0) == 1.0;
    assert Estimator(c, gamma, t + 1, 0) == 0.0;
    assert SumTo(0, Weighted(c, gamma, lam, t)) == 0.0 && Pow(lam, 0) == 1.0;
  }

  lemma StepArithmetic(g: real, gamma: real, d: real, lam: real, p: real, m: real, e: real, e': real)
    requires g == gamma * (1.0 - d)
    ensures gamma * lam * (1.0 - d) * m + (lam * p) * (g * e - g * e') == gamma * lam * (1.0 - d) * (m + p * (e - e'))
  {
    assert gamma * lam * (1.0 - d) == lam * g;
    assert (lam * p) * (g * e - g * e') == (lam * g) * (p * (e - e'));
    assert (lam * g) * m + (lam * g) * (p * (e - e')) == (lam * g) * (m + p * (e - e'));
  }

  /** The advantage that the backward loop computes is the lambda mixture of all k-step estimators. */
  lemma {:induction false} AdvantageIsMixture(c: Column, gamma: real, lam: real, t: nat)
    requires Shaped(c) && t <= |c.r|
    ensures Advantage(c, gamma, lam, t) == Mixture(c, gamma, lam, t, |c.r| - t)
    decreases |c.r| - t
  {
    hide Mixture, Delta;
    if t < |c.r| {
      AdvantageIsMixture(c, gamma, lam, t + 1);
      MixtureStep(c, gamma, lam, t, |c.r| - t - 1);
    } else {
      EmptyMixture(c, gamma, lam, t);
    }
  }

  lemma EmptyMixture(c: Column, gamma: real, lam: real, t: nat)
    requires Shaped(c) && t <= |c.r|
    ensures Mixture(c, gamma, lam, t, 0) == 0.0
  {
  }

  /** The column whose rewards are the TD residuals. */
  function Residuals(c: Column, gamma: real): Column
    requires Shaped(c)
  {
    c.(r := seq(|c.r|, t requires 0 <= t < |c.r| => Delta(c, gamma, t)))
  }

  /** It is also the masked sum of the residuals discounted by gamma * lam. */
  lemma {:induction false} AdvantageIsResidualSum(c: Column, gamma: real, lam: real, t: nat)
    requires Shaped(c) && t <= |c.r|
    ensures Advantage(c, gamma, lam, t) == Rewards(Residuals(c, gamma), gamma * lam, t, |c.r| - t)
    decreases |c.r| - t
  {
    if t < |c.r| {
      hide Delta, Rewards;
      AdvantageIsResidualSum(c, gamma, lam, t + 1);
      RewardsStep(Residuals(c, gamma), gamma * lam, t, |c.r| - t - 1);
    }
  }

  // ---------- returns ----------

  /** What `compute_gae` stores in `returns`. */
  function Target(c: Column, gamma: real, lam: real, t: nat): real
    requires Shaped(c) && t <= |c.r|
  {
    Advantage(c, gamma, lam, t) + Value(c, t)
  }

  /** The lambda-return recursion. */
  lemma TargetStep(c: Column, gamma: real, lam: real, t: nat)
    requires Shaped(c) && t < |c.r|
    ensures Target(c, gamma, lam, t)
         == c.r[t] + gamma * (1.0 - c.d[t]) * ((1.0 - lam) * Value(c, t + 1) + lam * Target(c, gamma, lam, t + 1))
    ensures Target(c, gamma, lam, |c.r|) == c.last
  {
    var a, v, n := Advantage(c, gamma, lam, t + 1), Value(c, t + 1), 1.0 - c.d[t];
    assert gamma * n * ((1.0 - lam) * v + lam * (a + v)) == gamma * v * n + gamma * lam * n * a;
  }

  lemma Undamped(g: real, v: real, x: real)
    ensures g * ((1.0 - 1.0) * v + 1.0 * x) == g * x
  {
  }

  /** With lam = 1 it is the return to the end of the rollout. */
  lemma {:induction false} TargetIsReturn(c: Column, gamma: real, t: nat)
    requires Shaped(c) && t <= |c.r|
    ensures Target(c, gamma, 1.0, t) == Return(c, gamma, t, |c.r| - t)
    decreases |c.r| - t
  {
    if t < |c.r| {
      hide Target, Return;
      TargetIsReturn(c, gamma, t + 1);
      TargetStep(c, gamma, 1.0, t);
      Undamped(gamma * (1.0 - c.d[t]), Value(c, t + 1), Target(c, gamma, 1.0, t + 1));
      ReturnStep(c, gamma, t, |c.r| - t - 1);
    } else {
      assert Pow(gamma, 0) == 1.0 && Mask(c, t, 0) == 1.0;
    }
  }

  /** No episode ends in the steps from t up to, not including, u. */
  predicate NoDone(c: Column, t: nat, u: nat)
    requires u <= |c.d|
  {
    forall j :: t <= j < u ==> c.d[j] == 0.0
  }

  lemma {:induction false} MaskOpen(c: Column, t: nat, l: nat)
    requires Shaped(c) && t + l <= |c.r| && NoDone(c, t, t + l)
    ensures Mask(c, t, l) == 1.0
  {
    if l > 0 {
      MaskOpen(c, t, l - 1);
    }
  }

  lemma {:induction false} MaskClosed(c: Column, t: nat, l: nat, f: nat)
    requires Shaped(c) && t <= f < t + l <= |c.r| && c.d[f] == 1.0
    ensures Mask(c, t, l) == 0.0
  {
    if f < t + l - 1 {
      MaskClosed(c, t, l - 1, f);
    }
  }

  /** gamma^l times the reward l steps later, whatever the flags. */
  function Plain(c: Column, gamma: real, t: nat): nat -> real {
    (l: nat) => if t + l < |c.r| then Pow(gamma, l) * c.r[t + l] else 0.0
  }

  lemma {:induction false} RewardsOpen(c: Column, gamma: real, t: nat, k: nat)
    requires Shaped(c) && t + k <= |c.r| && (k > 0 ==> NoDone(c, t, t + k - 1))
    ensures Rewards(c, gamma, t, k) == SumTo(k, Plain(c, gamma, t))
  {
    if k > 0 {
      RewardsOpen(c, gamma, t, k - 1);
      MaskOpen(c, t, k - 1);
    }
  }

  lemma {:induction false} RewardsClosed(c: Column, gamma: real, t: nat, k: nat, f: nat)
    requires Shaped(c) && t <= f < t + k <= |c.r| && c.d[f] == 1.0
    ensures Rewards(c, gamma, t, k) == Rewards(c, gamma, t, f - t + 1)
  {
    if t + k > f + 1 {
      RewardsClosed(c, gamma, t, k - 1, f);
      MaskClosed(c, t, k - 1, f);
    }
  }

  /** With lam = 1, `returns[t]` is the discounted sum of the rewards up to and including the first done at or
  after t, and no value estimate enters. */
  lemma TargetToDone(c: Column, gamma: real, t: nat, f: nat)
    requires Shaped(c) && t <= f < |c.r| && c.d[f] == 1.0 && NoDone(c, t, f)
    ensures Target(c, gamma, 1.0, t) == SumTo(f - t + 1, Plain(c, gamma, t))
  {
    TargetIsReturn(c, gamma, t);
    RewardsClosed(c, gamma, t, |c.r| - t, f);
    RewardsOpen(c, gamma, t, f - t + 1);
    MaskClosed(c, t, |c.r| - t, f);
  }

  /** And without a done it is all the rewards plus the discounted value after the last step. */
  lemma TargetToEnd(c: Column, gamma: real, t: nat)
    requires Shaped(c) && t <= |c.r| && NoDone(c, t, |c.r|)
    ensures Target(c, gamma, 1.0, t) == SumTo(|c.r| - t, Plain(c, gamma, t)) + Pow(gamma, |c.r| - t) * c.last
  {
    TargetIsReturn(c, gamma, t);
    RewardsOpen(c, gamma, t, |c.r| - t);
    MaskOpen(c, t, |c.r| - t);
  }

  // ---------- episode boundaries ----------

  /** The two columns agree on every step up to and including f. */
  predicate AgreeTo(a: Column, b: Column, f: nat)
    requires Shaped(a) && Shaped(b) && f < |a.r| && f < |b.r|
  {
    forall t :: 0 <= t <= f ==> a.r[t] == b.r[t] && a.v[t] == b.v[t] && a.d[t] == b.d[t]
  }

  /** Nothing after a done step reaches back over it: columns that agree up to a done have the same advantages
  and returns there, whatever follows, however long they are and whatever they bootstrap from. */
  lemma {:induction false} DoneSeparates(a: Column, b: Column, gamma: real, lam: real, f: nat, t: nat)
    requires Shaped(a) && Shaped(b) && t <= f < |a.r| && f < |b.r| && AgreeTo(a, b, f) && a.d[f] == 1.0
    ensures Advantage(a, gamma, lam, t) == Advantage(b, gamma, lam, t)
    ensures Target(a, gamma, lam, t) == Target(b, gamma, lam, t)
    decreases f - t
  {
    if t < f {
      DoneSeparates(a, b, gamma, lam, f, t + 1);
    } else {
      assert gamma * lam * (1.0 - a.d[f]) == 0.0;
      assert gamma * Value(a, f + 1) * (1.0 - a.d[f]) == 0.0 == gamma * Value(b, f + 1) * (1.0 - b.d[f]);
    }
  }

  // ---------- bounds ----------

  predicate Bounded(c: Column, reward: real, value: real) {
    && (forall t :: 0 <= t < |c.r| ==> Abs(c.r[t]) <= reward)
    && (forall t :: 0 <= t < |c.v| ==> Abs(c.v[t]) <= value)
    && Abs(c.last) <= value
  }

  lemma ResidualBounded(c: Column, gamma: real, reward: real, value: real, t: nat)
    requires Shaped(c) && Flags(c) && Bounded(c, reward, value) && t < |c.r| && 0.0 <= gamma
    ensures Abs(Delta(c, gamma, t)) <= reward + (1.0 + gamma) * value
  {
    hide Residual;
    ResidualWithin(c.r[t], gamma, Value(c, t + 1), c.d[t], c.v[t], reward, value);
  }

  lemma ResidualWithin(r: real, gamma: real, next: real, d: real, v: real, reward: real, value: real)
    requires 0.0 <= gamma && (d == 0.0 || d == 1.0) && Abs(r) <= reward && Abs(next) <= value && Abs(v) <= value
    ensures Abs(Residual(r, gamma, next, d, v)) <= reward + (1.0 + gamma) * value
  {
    M.ScaledBound(gamma, next, value);
    M.Product(gamma, value);
    var x := gamma * next;
    FlagArithmetic(x, d);
    assert Abs(x * (1.0 - d)) <= gamma * value;
    assert Residual(r, gamma, next, d, v) == r + x * (1.0 - d) - v;
    assert (1.0 + gamma) * value == value + gamma * value;
  }

  lemma FlagArithmetic(x: real, d: real)
    requires d == 0.0 || d == 1.0
    ensures Abs(x * (1.0 - d)) <= Abs(x)
  {
  }

  lemma RecurrenceBounded(mu: real, d: real, delta: real, a: real, bound: real, limit: real)
    requires M.IsLimit(mu, bound, limit) && (d == 0.0 || d == 1.0) && Abs(delta) <= bound && Abs(a) <= limit
    ensures Abs(Carry(delta, mu, d, a)) <= limit
  {
    if d == 0.0 {
      M.Contraction(mu, a, delta, bound, limit);
      assert mu * (1.0 - d) * a == mu * a;
    } else {
      M.Product(mu, limit);
      assert limit == bound + mu * limit;
      assert mu * (1.0 - d) * a == 0.0;
    }
  }

  lemma {:induction false} AdvantageWithin(c: Column, gamma: real, lam: real, reward: real, value: real, limit: real,
                                           t: nat)
    requires Shaped(c) && Flags(c) && Bounded(c, reward, value) && t <= |c.r| && 0.0 <= gamma
    requires M.IsLimit(gamma * lam, reward + (1.0 + gamma) * value, limit) && limit >= 0.0
    ensures Abs(Advantage(c, gamma, lam, t)) <= limit
    decreases |c.r| - t
  {
    if t < |c.r| {
      hide Delta, M.IsLimit, Bounded, Carry;
      AdvantageWithin(c, gamma, lam, reward, value, limit, t + 1);
      ResidualBounded(c, gamma, reward, value, t);
      RecurrenceBounded(gamma * lam, c.d[t], Delta(c, gamma, t), Advantage(c, gamma, lam, t + 1),
                        reward + (1.0 + gamma) * value, limit);
    }
  }

  /** If rewards are within `reward` and values within `value`, every advantage is within
  (reward + (1 + gamma) * value) / (1 - gamma * lam), for any length and any pattern of done flags. */
  lemma AdvantageBounded(c: Column, gamma: real, lam: real, reward: real, value: real, t: nat)
    requires Shaped(c) && Flags(c) && Bounded(c, reward, value) && t <= |c.r|
    requires 0.0 <= gamma && 0.0 <= lam && gamma * lam < 1.0 && reward >= 0.0
    ensures Abs(Advantage(c, gamma, lam, t)) <= (reward + (1.0 + gamma) * value) / (1.0 - gamma * lam)
  {
    var mu, bound := gamma * lam, reward + (1.0 + gamma) * value;
    M.Product(gamma, lam);
    M.Product(1.0 + gamma, value);
    M.LimitExists(mu, bound);
    AdvantageWithin(c, gamma, lam, reward, value, bound / (1.0 - mu), t);
  }
}
