/** Powers, geometric sums and indexed sums of reals. */
module Series {

  function Pow(x: real, n: nat): real {
    if n == 0 then 1.0 else x * Pow(x, n - 1)
  }

  /** 1 + x + ... + x^(n-1). */
  function Geo(x: real, n: nat): real {
    if n == 0 then 0.0 else Geo(x, n - 1) + Pow(x, n - 1)
  }

  /** f(0) + ... + f(n-1). */
  function SumTo(n: nat, f: nat -> real): real {
    if n == 0 then 0.0 else SumTo(n - 1, f) + f(n - 1)
  }

  lemma {:induction false} SumToCongruent(n: nat, f: nat -> real, g: nat -> real)
    requires forall k: nat :: k < n ==> f(k) == g(k)
    ensures SumTo(n, f) == SumTo(n, g)
  {
    if n > 0 {
      SumToCongruent(n - 1, f, g);
    }
  }

  lemma {:induction false} SumToAdd(n: nat, f: nat -> real, g: nat -> real, h: nat -> real)
    requires forall k: nat :: k < n ==> h(k) == f(k) + g(k)
    ensures SumTo(n, h) == SumTo(n, f) + SumTo(n, g)
  {
    if n > 0 {
      SumToAdd(n - 1, f, g, h);
    }
  }

  lemma {:induction false} SumToScale(n: nat, x: real, f: nat -> real, g: nat -> real)
    requires forall k: nat :: k < n ==> g(k) == x * f(k)
    ensures SumTo(n, g) == x * SumTo(n, f)
  {
    if n > 0 {
      SumToScale(n - 1, x, f, g);
    }
  }

  /** Taking the first summand out. */
  lemma {:induction false} SumToShift(n: nat, f: nat -> real, g: nat -> real)
    requires forall k: nat :: k < n ==> g(k) == f(k + 1)
    ensures SumTo(n + 1, f) == f(0) + SumTo(n, g)
  {
    if n > 0 {
      SumToShift(n - 1, f, g);
    }
  }

  function Abs(x: real): real {
    if x < 0.0 then -x else x
  }
}

/** Stochastic gradient descent with momentum on one entry of the weights. */
module Momentum {
  import opened Series

  /** v' = mu * v + d. */
  function Blend(mu: real, v: real, d: real): real {
    mu * v + d
  }

  /** w' = w - lr * v. */
  function Descend(lr: real, w: real, v: real): real {
    w - lr * v
  }

  /** v and w after the updates with mean deltas g[0], g[1], ... */
  function V(mu: real, v0: real, g: seq<real>): real {
    if g == [] then v0 else Blend(mu, V(mu, v0, g[..|g| - 1]), g[|g| - 1])
  }

  function W(lr: real, mu: real, w0: real, v0: real, g: seq<real>): real {
    if g == [] then w0 else Descend(lr, W(lr, mu, w0, v0, g[..|g| - 1]), V(mu, v0, g))
  }

  /** mu^(T-1-s) * g[s], the share of update s in the velocity after T updates. */
  function Echo(mu: real, g: seq<real>, t: nat): nat -> real {
    (s: nat) => if s < |g| && s < t then Pow(mu, t - 1 - s) * g[s] else 0.0
  }

  /** (1 + mu + ... + mu^(T-1-s)) * g[s], its share in the distance travelled. */
  function Travel(mu: real, g: seq<real>, t: nat): nat -> real {
    (s: nat) => if s < |g| && s < t then Geo(mu, t - s) * g[s] else 0.0
  }

  /** mu^T v_0 + sum of mu^(T-1-s) g_s. */
  function Remembered(mu: real, v0: real, g: seq<real>): real {
    Pow(mu, |g|) * v0 + SumTo(|g|, Echo(mu, g, |g|))
  }

  /** v_T = mu^T v_0 + sum of mu^(T-1-s) g_s. */
  lemma {:induction false} VelocityUnrolled(mu: real, v0: real, g: seq<real>)
    ensures V(mu, v0, g) == Remembered(mu, v0, g)
  {
    if g != [] {
      hide Blend;
      var t := |g| - 1;
      VelocityUnrolled(mu, v0, g[..t]);
      EchoSum(mu, g);
      VelocityArithmetic(mu, Pow(mu, t), v0, SumTo(t, Echo(mu, g[..t], t)), g[t]);
    }
  }

  lemma VelocityArithmetic(mu: real, p: real, v0: real, e: real, d: real)
    ensures Blend(mu, p * v0 + e, d) == (mu * p) * v0 + (mu * e + d)
  {
  }

  lemma EchoSum(mu: real, g: seq<real>)
    requires g != []
    ensures SumTo(|g|, Echo(mu, g, |g|)) == mu * SumTo(|g| - 1, Echo(mu, g[..|g| - 1], |g| - 1)) + g[|g| - 1]
  {
    hide Echo, Pow;
    var t := |g| - 1;
    var p := g[..t];
    var scaled := (s: nat) => mu * Echo(mu, p, t)(s);
    SumToScale(t, mu, Echo(mu, p, t), scaled);
    forall s: nat | s < t ensures Echo(mu, g, |g|)(s) == scaled(s) {
      EchoStep(mu, g, s);
    }
    SumToCongruent(t, Echo(mu, g, |g|), scaled);
    EchoLast(mu, g);
  }

  lemma EchoLast(mu: real, g: seq<real>)
    requires g != []
    ensures Echo(mu, g, |g|)(|g| - 1) == g[|g| - 1]
  {
    assert Pow(mu, 0) == 1.0;
  }

  lemma EchoStep(mu: real, g: seq<real>, s: nat)
    requires s + 1 < |g|
    ensures Echo(mu, g, |g|)(s) == mu * Echo(mu, g[..|g| - 1], |g| - 1)(s)
  {
    var t := |g| - 1;
    assert Pow(mu, t - s) == mu * Pow(mu, t - 1 - s);
    assert (mu * Pow(mu, t - 1 - s)) * g[s] == mu * (Pow(mu, t - 1 - s) * g[s]);
  }

  /** mu (1 + ... + mu^(T-1)) v_0 + sum of (1 + ... + mu^(T-1-s)) g_s. */
  function Distance(mu: real, v0: real, g: seq<real>): real {
    mu * Geo(mu, |g|) * v0 + SumTo(|g|, Travel(mu, g, |g|))
  }

  /** w_T = w_0 - lr * (mu (1 + ... + mu^(T-1)) v_0 + sum of (1 + ... + mu^(T-1-s)) g_s). */
  lemma {:induction false} WeightsUnrolled(lr: real, mu: real, w0: real, v0: real, g: seq<real>)
    ensures W(lr, mu, w0, v0, g) == Descend(lr, w0, Distance(mu, v0, g))
  {
    if g == [] {
      assert mu * Geo(mu, 0) * v0 == 0.0;
    } else {
      hide V, Distance;
      var p := g[..|g| - 1];
      WeightsUnrolled(lr, mu, w0, v0, p);
      DistanceStep(mu, v0, g);
      assert lr * (Distance(mu, v0, p) + V(mu, v0, g)) == lr * Distance(mu, v0, p) + lr * V(mu, v0, g);
    }
  }

  lemma DistanceStep(mu: real, v0: real, g: seq<real>)
    requires g != []
    ensures Distance(mu, v0, g) == Distance(mu, v0, g[..|g| - 1]) + V(mu, v0, g)
  {
    hide V, SumTo, Travel, Echo, Pow, Geo;
    var t, p := |g| - 1, g[..|g| - 1];
    VelocityUnrolled(mu, v0, g);
    TravelSum(mu, g);
    PowersStep(mu, t);
    var x, e := SumTo(t, Travel(mu, p, t)), SumTo(|g|, Echo(mu, g, |g|));
    DistanceArithmetic(mu, Geo(mu, t), Pow(mu, t), Geo(mu, t + 1), Pow(mu, t + 1), v0, x, e);
    assert |p| == t;
    assert Distance(mu, v0, p) == mu * Geo(mu, t) * v0 + x;
    assert Distance(mu, v0, g) == mu * Geo(mu, t + 1) * v0 + (x + e);
  }

  lemma PowersStep(mu: real, t: nat)
    ensures Pow(mu, t + 1) == mu * Pow(mu, t) && Geo(mu, t + 1) == Geo(mu, t) + Pow(mu, t)
  {
  }

  lemma DistanceArithmetic(mu: real, geo: real, p: real, geo': real, p': real, v0: real, x: real, e: real)
    requires geo' == geo + p && p' == mu * p
    ensures mu * geo' * v0 + (x + e) == (mu * geo * v0 + x) + (p' * v0 + e)
  {
    assert mu * geo' == mu * geo + p';
    assert (mu * geo + p') * v0 == mu * geo * v0 + p' * v0;
  }

  lemma TravelSum(mu: real, g: seq<real>)
    requires g != []
    ensures SumTo(|g|, Travel(mu, g, |g|))
      == SumTo(|g| - 1, Travel(mu, g[..|g| - 1], |g| - 1)) + SumTo(|g|, Echo(mu, g, |g|))
  {
    hide Echo, Geo;
    var t := |g| - 1;
    forall s: nat | s < |g| ensures Travel(mu, g, |g|)(s) == Travel(mu, g[..t], t)(s) + Echo(mu, g, |g|)(s) {
      TravelStep(mu, g, s);
    }
    SumToAdd(|g|, Travel(mu, g[..t], t), Echo(mu, g, |g|), Travel(mu, g, |g|));
    assert Travel(mu, g[..t], t)(t) == 0.0;
  }

  lemma TravelStep(mu: real, g: seq<real>, s: nat)
    requires s < |g|
    ensures Travel(mu, g, |g|)(s) == Travel(mu, g[..|g| - 1], |g| - 1)(s) + Echo(mu, g, |g|)(s)
  {
    var t := |g| - 1;
    if s < t {
      assert Geo(mu, |g| - s) == Geo(mu, t - s) + Pow(mu, t - s);
      assert (Geo(mu, t - s) + Pow(mu, t - s)) * g[s] == Geo(mu, t - s) * g[s] + Pow(mu, t - s) * g[s];
    } else {
      assert Geo(mu, 1) == Geo(mu, 0) + Pow(mu, 0) == 1.0;
    }
  }

  /** limit is bound / (1 - mu). */
  predicate IsLimit(mu: real, bound: real, limit: real) {
    0.0 <= mu < 1.0 && limit * (1.0 - mu) == bound
  }

  /** With 0 <= mu < 1 and every mean delta at most `bound`, the velocity never leaves bound / (1 - mu). */
  lemma {:induction false} VelocityBounded(mu: real, v0: real, g: seq<real>, bound: real, limit: real)
    requires IsLimit(mu, bound, limit) && Abs(v0) <= limit
    requires forall s :: 0 <= s < |g| ==> Abs(g[s]) <= bound
    ensures Abs(V(mu, v0, g)) <= limit
  {
    hide IsLimit, Blend;
    if g != [] {
      var p := g[..|g| - 1];
      assert forall s :: 0 <= s < |p| ==> p[s] == g[s];
      VelocityBounded(mu, v0, p, bound, limit);
      Contraction(mu, V(mu, v0, p), g[|g| - 1], bound, limit);
    }
  }

  /** |x| <= limit scaled by a factor that is not negative. */
  lemma ScaledBound(a: real, x: real, limit: real)
    requires a >= 0.0 && Abs(x) <= limit
    ensures Abs(a * x) <= a * limit
  {
    Product(a, limit - x);
    Product(a, limit + x);
    assert a * (limit - x) == a * limit - a * x;
    assert a * (limit + x) == a * limit + a * x;
  }

  lemma Product(a: real, b: real)
    requires a >= 0.0 && b >= 0.0
    ensures a * b >= 0.0
  {
  }

  lemma Contraction(mu: real, v: real, d: real, bound: real, limit: real)
    requires IsLimit(mu, bound, limit) && Abs(v) <= limit && Abs(d) <= bound
    ensures Abs(Blend(mu, v, d)) <= limit
  {
    assert mu * limit + limit * (1.0 - mu) == limit;
    ScaledBound(mu, v, limit);
  }

  /** And the weights travel at most lr * bound / (1 - mu) per update. */
  lemma {:induction false} WeightsBounded(lr: real, mu: real, w0: real, v0: real, g: seq<real>, bound: real,
                                          limit: real)
    requires 0.0 < lr && IsLimit(mu, bound, limit) && Abs(v0) <= limit
    requires forall s :: 0 <= s < |g| ==> Abs(g[s]) <= bound
    ensures Abs(W(lr, mu, w0, v0, g) - w0) <= |g| as real * (lr * limit)
  {
    hide IsLimit, V, Descend;
    if g != [] {
      var p := g[..|g| - 1];
      assert forall s :: 0 <= s < |p| ==> p[s] == g[s];
      WeightsBounded(lr, mu, w0, v0, p, bound, limit);
      VelocityBounded(mu, v0, g, bound, limit);
      TravelBound(lr, W(lr, mu, w0, v0, p), w0, V(mu, v0, g), limit, |p|);
    }
  }

  lemma TravelBound(lr: real, w: real, w0: real, v: real, limit: real, n: nat)
    requires lr > 0.0 && Abs(v) <= limit && Abs(w - w0) <= n as real * (lr * limit)
    ensures Abs(Descend(lr, w, v) - w0) <= (n + 1) as real * (lr * limit)
  {
    ScaledBound(lr, v, limit);
    OneMoreStep(n, lr * limit);
  }

  lemma OneMoreStep(n: nat, x: real)
    ensures n as real * x + x == (n + 1) as real * x
  {
    assert (n + 1) as real == n as real + 1.0;
  }

  lemma LimitExists(mu: real, bound: real)
    requires 0.0 <= mu < 1.0 && bound >= 0.0
    ensures IsLimit(mu, bound, bound / (1.0 - mu)) && bound / (1.0 - mu) >= 0.0
  {
    QuotientNonNegative(bound, 1.0 - mu);
  }

  lemma QuotientNonNegative(a: real, b: real)
    requires a >= 0.0 && b > 0.0
    ensures a / b >= 0.0
  {
    var q := a / b;
    assert q * b == a;
    assert q < 0.0 ==> q * b < 0.0;
  }
}
