/** What the rounds of a run do to the global weights: federated averaging, momentum, and resuming from a
checkpoint. */
module Federated {
  import opened Workers
  import opened Params
  import opened Sums
  import opened Protocol
  import opened Conservation
  import opened Barrier
  import opened BarrierTheorems
  import opened Series
  import M = Momentum
  import S = Store

  // ---------- federated averaging ----------

  /** Plain blending: server_lr = 1 and momentum = 0. */
  const FED_AVG := S.Hyper(1.0, 0.0)

  /** One entry of the local weights of w, moved by what the global weights have moved since w pulled. */
  function Rebased(hist: History, now: Params, batch: Batch, name: string, i: int): Id -> real {
    (w: Id) =>
      if w in batch && batch[w].base < |hist|
      then Entry(batch[w].local, name, i) + (Entry(now, name, i) - Entry(hist[batch[w].base].weights, name, i))
      else 0.0
  }

  /** One entry of the local weights of w. */
  function Trained(batch: Batch, name: string, i: int): Id -> real {
    (w: Id) => if w in batch then Entry(batch[w].local, name, i) else 0.0
  }

  /** How far one entry of the global weights has moved since w pulled. */
  function Drift(hist: History, now: Params, batch: Batch, name: string, i: int): Id -> real {
    (w: Id) =>
      if w in batch && batch[w].base < |hist|
      then Entry(now, name, i) - Entry(hist[batch[w].base].weights, name, i)
      else 0.0
  }

  ghost function Average(batch: Batch, f: Id -> real): real
    requires batch.Keys != {}
  {
    MeanOver(batch.Keys, f)
  }

  /** The deltas of a batch are what their workers subtracted. */
  ghost predicate DeltasOf(hist: History, batch: Batch) {
    forall w :: w in batch ==>
      batch[w].base < |hist| && batch[w].grad == Sub(hist[batch[w].base].weights, batch[w].local)
  }

  lemma RebasedIsOffset(s: S.Store, hist: History, batch: Batch, name: string, i: int, w: Id)
    requires DeltasOf(hist, batch) && HasEntry(s.weights, name, i) && w in batch
    requires forall k :: 0 <= k < |hist| ==> SameShape(hist[k].weights, s.weights)
    ensures Rebased(hist, s.weights, batch, name, i)(w)
      == Entry(s.weights, name, i) - S.EntryOf(Grads(batch), name, i)(w)
  {
    var base := hist[batch[w].base].weights;
    assert SameShape(base, s.weights);
    assert HasEntry(base, name, i);
    assert batch[w].grad == Sub(base, batch[w].local);
  }

  lemma UpdateIsMean(s: S.Store, hist: History, batch: Batch, name: string, i: int)
    requires batch.Keys != {} && DeltasOf(hist, batch) && HasEntry(s.weights, name, i)
    requires forall k :: 0 <= k < |hist| ==> SameShape(hist[k].weights, s.weights)
    ensures Entry(S.Apply(FED_AVG, s, Grads(batch)).weights, name, i)
      == Average(batch, Rebased(hist, s.weights, batch, name, i))
  {
    hide S.Apply, Sub, S.EntryOf, Rebased, DeltasOf, SameShape, HasEntry, Entry;
    var g := Grads(batch);
    assert g.Keys == batch.Keys;
    var f := S.EntryOf(g, name, i);
    var here := Entry(s.weights, name, i);
    forall w | w in batch.Keys
      ensures Rebased(hist, s.weights, batch, name, i)(w) == here - f(w)
    {
      RebasedIsOffset(s, hist, batch, name, i, w);
    }
    hide MeanOver;
    MeanOffset(batch.Keys, f, here, Rebased(hist, s.weights, batch, name, i));
    PlainStep(s, g, name, i);
  }

  lemma PlainStep(s: S.Store, g: S.Grads, name: string, i: int)
    requires HasEntry(s.weights, name, i)
    ensures Entry(S.Apply(FED_AVG, s, g).weights, name, i) == Entry(s.weights, name, i) - S.Mean(g, name, i)
  {
    hide S.Mean, S.Apply;
    S.ApplyEntry(FED_AVG, s, g, name, i);
  }

  lemma {:induction false} ShapeKept(cfg: Config, s: State, k: nat)
    requires StoreOk(cfg, s) && k < |s.hist|
    ensures SameShape(s.hist[k].weights, cfg.start.weights)
  {
    hide S.Apply;
    if k > 0 {
      ShapeKept(cfg, s, k - 1);
      assert s.hist[k - 1 + 1] == S.Apply(cfg.hyper, s.hist[k - 1], Grads(s.fired[s.order[k - 1]]));
    }
  }

  lemma EntryKept(cfg: Config, s: State, k: nat, name: string, i: int)
    requires StoreOk(cfg, s) && k < |s.hist| && HasEntry(cfg.start.weights, name, i)
    ensures HasEntry(s.hist[k].weights, name, i)
  {
    hide S.Apply;
    ShapeKept(cfg, s, k);
  }

  lemma MeanOfRound(cfg: Config, t: State, r: nat, name: string, i: int)
    requires StoreOk(cfg, t) && cfg.hyper == FED_AVG && r < |t.order| && t.order[r] == r
    requires t.fired[r].Keys != {} && DeltasOf(t.hist, t.fired[r]) && HasEntry(cfg.start.weights, name, i)
    ensures Entry(t.hist[r + 1].weights, name, i)
      == Average(t.fired[r], Rebased(t.hist, t.hist[r].weights, t.fired[r], name, i))
  {
    hide S.Apply, Sub, DeltasOf, Rebased;
    forall k | 0 <= k < |t.hist| ensures SameShape(t.hist[k].weights, t.hist[r].weights) {
      ShapeKept(cfg, t, k);
      ShapeKept(cfg, t, r);
    }
    EntryKept(cfg, t, r, name, i);
    UpdateIsMean(t.hist[r], t.hist, t.fired[r], name, i);
  }

  lemma NobodyStale(hist: History, batch: Batch, r: nat, name: string, i: int)
    requires batch.Keys != {} && r < |hist| && forall w :: w in batch ==> batch[w].base == r
    ensures Average(batch, Rebased(hist, hist[r].weights, batch, name, i)) == Average(batch, Trained(batch, name, i))
  {
    SumCongruent(batch.Keys, Rebased(hist, hist[r].weights, batch, name, i), Trained(batch, name, i));
  }

  /** Federated averaging over whole runs: with server_lr = 1 and momentum = 0 every entry of the weights after
  round r is the mean over the contributors of their local weights, each moved by what the global weights had
  moved since its pull; and just the mean of the local weights if every contributor had pulled after the
  previous round, as everyone but a newcomer has. */
  lemma FederatedAveraging(cfg: Config, es: seq<Event>, t: State, r: nat, name: string, i: int)
    requires cfg.hyper == FED_AVG && CoveringRun(cfg, Init(cfg), es, t)
    requires r + 1 < |t.hist| && HasEntry(cfg.start.weights, name, i)
    ensures r < |t.fired| && t.fired[r].Keys != {}
    ensures Entry(t.hist[r + 1].weights, name, i)
      == Average(t.fired[r], Rebased(t.hist, t.hist[r].weights, t.fired[r], name, i))
    ensures (forall w :: w in t.fired[r] ==> t.fired[r][w].number > 0 || t.fired[r][w].base == r) ==>
              Entry(t.hist[r + 1].weights, name, i) == Average(t.fired[r], Trained(t.fired[r], name, i))
  {
    hide CoveringRun, S.Apply, HandlersOk, RoundsOk, LedgerOk, BarrierOk, Sub, Rebased, Trained, Average, Init;
    Invariants(cfg, es, t);
    RoundNotEmpty(cfg, t);
    RoundsInOrder(cfg, es, t);
    Staleness(cfg, es, t);
    var batch := t.fired[r];
    assert t.order[r] == r;
    MeanOfRound(cfg, t, r, name, i);
    if forall w :: w in batch ==> batch[w].number > 0 || batch[w].base == r {
      NobodyStale(t.hist, batch, r, name, i);
    }
  }

  /** The store's documentation promises the mean of the workers' weights without the drift. For any round of any
  run that holds of an entry if and only if the drift of the contributors averages to zero there. */
  lemma MeanOfWorkersExactly(cfg: Config, es: seq<Event>, t: State, r: nat, name: string, i: int)
    requires cfg.hyper == FED_AVG && CoveringRun(cfg, Init(cfg), es, t)
    requires r + 1 < |t.hist| && HasEntry(cfg.start.weights, name, i)
    ensures r < |t.fired| && t.fired[r].Keys != {}
    ensures Entry(t.hist[r + 1].weights, name, i) == Average(t.fired[r], Trained(t.fired[r], name, i))
            <==> Average(t.fired[r], Drift(t.hist, t.hist[r].weights, t.fired[r], name, i)) == 0.0
  {
    hide CoveringRun, BarrierOk, Rebased, Trained, Drift, Average, Init, Sub;
    FederatedAveraging(cfg, es, t, r, name, i);
    Staleness(cfg, es, t);
    DriftAdds(t.hist, t.hist[r].weights, t.fired[r], name, i);
  }

  lemma DriftAdds(hist: History, now: Params, batch: Batch, name: string, i: int)
    requires batch.Keys != {} && forall w :: w in batch ==> batch[w].base < |hist|
    ensures Average(batch, Rebased(hist, now, batch, name, i))
         == Average(batch, Trained(batch, name, i)) + Average(batch, Drift(hist, now, batch, name, i))
  {
    hide MeanOver;
    MeanAdd(batch.Keys, Trained(batch, name, i), Drift(hist, now, batch, name, i), Rebased(hist, now, batch, name, i));
  }

  lemma RoundNotEmpty(cfg: Config, t: State)
    requires Kept(cfg, t)
    ensures forall r :: 0 <= r < |t.fired| ==> t.fired[r].Keys != {}
  {
    hide HandlersOk, StoreOk, LedgerOk;
    assert forall r :: 0 <= r < |t.fired| ==> |t.fired[r]| >= 1;
  }

  // ---------- momentum ----------

  /** The mean deltas of one entry over the first n updates. */
  ghost function Means(t: State, n: nat, name: string, i: int): (g: seq<real>)
    requires n <= |t.order| && forall k :: 0 <= k < |t.order| ==> t.order[k] < |t.fired|
    ensures |g| == n
  {
    if n == 0 then [] else Means(t, n - 1, name, i) + [S.Mean(Grads(t.fired[t.order[n - 1]]), name, i)]
  }

  lemma StepFollows(h: S.Hyper, s: S.Store, g: S.Grads, name: string, i: int)
    requires HasEntry(s.weights, name, i)
    ensures var r := S.Apply(h, s, g);
            && Entry(r.velocity, name, i) == M.Blend(h.momentum, Entry(s.velocity, name, i), S.Mean(g, name, i))
            && Entry(r.weights, name, i) == M.Descend(h.lr, Entry(s.weights, name, i), Entry(r.velocity, name, i))
  {
    hide S.Mean, S.Apply;
    S.ApplyEntry(h, s, g, name, i);
  }

  /** One entry of the store's history is gradient descent with momentum on the mean deltas. */
  lemma {:induction false} EntryFollows(cfg: Config, t: State, n: nat, name: string, i: int)
    requires StoreOk(cfg, t) && n < |t.hist| && HasEntry(cfg.start.weights, name, i)
    ensures var g := Means(t, n, name, i);
            var v0, w0 := Entry(cfg.start.velocity, name, i), Entry(cfg.start.weights, name, i);
            && Entry(t.hist[n].velocity, name, i) == M.V(cfg.hyper.momentum, v0, g)
            && Entry(t.hist[n].weights, name, i) == M.W(cfg.hyper.lr, cfg.hyper.momentum, w0, v0, g)
  {
    hide S.Apply, S.Mean, M.Blend, M.Descend, Entry, SameShape;
    if n > 0 {
      EntryFollows(cfg, t, n - 1, name, i);
      EntryKept(cfg, t, n - 1, name, i);
      StepFollows(cfg.hyper, t.hist[n - 1], Grads(t.fired[t.order[n - 1]]), name, i);
      assert t.hist[n - 1 + 1] == S.Apply(cfg.hyper, t.hist[n - 1], Grads(t.fired[t.order[n - 1]]));
      var g := Means(t, n, name, i);
      assert g[..|g| - 1] == Means(t, n - 1, name, i);
    }
  }

  /** Momentum over whole runs of any mode, from any start (fresh or resumed): the velocity and the weights after
  n updates as sums over the mean deltas so far. */
  lemma MomentumUnrolled(cfg: Config, es: seq<Event>, t: State, n: nat, name: string, i: int)
    requires Run(cfg, Init(cfg), es, t) && n < |t.hist| && HasEntry(cfg.start.weights, name, i)
    ensures StoreOk(cfg, t)
    ensures var g := Means(t, n, name, i);
            var v0, w0 := Entry(cfg.start.velocity, name, i), Entry(cfg.start.weights, name, i);
            var mu := cfg.hyper.momentum;
            && Entry(t.hist[n].velocity, name, i) == M.Remembered(mu, v0, g)
            && Entry(t.hist[n].weights, name, i) == M.Descend(cfg.hyper.lr, w0, M.Distance(mu, v0, g))
  {
    hide Run, Init, HandlersOk, RoundsOk, LedgerOk, M.V, M.W, M.Remembered, M.Distance, M.Descend, S.Apply, S.Mean;
    KeptInit(cfg);
    KeptRun(cfg, Init(cfg), es, t);
    EntryFollows(cfg, t, n, name, i);
    var g := Means(t, n, name, i);
    M.VelocityUnrolled(cfg.hyper.momentum, Entry(cfg.start.velocity, name, i), g);
    M.WeightsUnrolled(cfg.hyper.lr, cfg.hyper.momentum, Entry(cfg.start.weights, name, i),
                      Entry(cfg.start.velocity, name, i), g);
  }

  /** Every entry of every averaged delta is at most `bound`. */
  ghost predicate DeltasBounded(t: State, name: string, i: int, bound: real) {
    forall r, w :: 0 <= r < |t.fired| && w in t.fired[r] ==> Abs(Entry(t.fired[r][w].grad, name, i)) <= bound
  }

  lemma MeanBounded(g: S.Grads, name: string, i: int, bound: real)
    requires bound >= 0.0 && forall w :: w in g ==> Abs(Entry(g[w], name, i)) <= bound
    ensures Abs(S.Mean(g, name, i)) <= bound
  {
    if g.Keys != {} {
      MeanBound(g.Keys, S.EntryOf(g, name, i), bound);
    }
  }

  lemma {:induction false} MeansBounded(t: State, n: nat, name: string, i: int, bound: real)
    requires n <= |t.order| && forall k :: 0 <= k < |t.order| ==> t.order[k] < |t.fired|
    requires bound >= 0.0 && DeltasBounded(t, name, i, bound)
    ensures forall s :: 0 <= s < n ==> Abs(Means(t, n, name, i)[s]) <= bound
  {
    if n > 0 {
      MeansBounded(t, n - 1, name, i, bound);
      var b := t.fired[t.order[n - 1]];
      assert forall w :: w in Grads(b) ==> Grads(b)[w] == b[w].grad;
      MeanBounded(Grads(b), name, i, bound);
    }
  }

  /** With 0 <= momentum < 1 and deltas of at most `bound`, a fresh store's velocity never leaves
  bound / (1 - momentum), and n updates move an entry by at most n * lr * bound / (1 - momentum). */
  lemma MomentumBounded(cfg: Config, es: seq<Event>, t: State, n: nat, name: string, i: int, bound: real)
    requires Run(cfg, Init(cfg), es, t) && n < |t.hist| && HasEntry(cfg.start.weights, name, i)
    requires 0.0 <= cfg.hyper.momentum < 1.0 && cfg.hyper.lr > 0.0 && Entry(cfg.start.velocity, name, i) == 0.0
    requires bound >= 0.0 && DeltasBounded(t, name, i, bound)
    ensures Abs(Entry(t.hist[n].velocity, name, i)) <= bound / (1.0 - cfg.hyper.momentum)
    ensures Abs(Entry(t.hist[n].weights, name, i) - Entry(cfg.start.weights, name, i))
         <= n as real * (cfg.hyper.lr * (bound / (1.0 - cfg.hyper.momentum)))
  {
    hide Run, Init, HandlersOk, RoundsOk, LedgerOk, M.V, M.W, S.Apply, S.Mean, DeltasBounded;
    var mu := cfg.hyper.momentum;
    KeptInit(cfg);
    KeptRun(cfg, Init(cfg), es, t);
    EntryFollows(cfg, t, n, name, i);
    MeansBounded(t, n, name, i, bound);
    var g := Means(t, n, name, i);
    var limit := bound / (1.0 - mu);
    M.LimitExists(mu, bound);
    M.VelocityBounded(mu, 0.0, g, bound, limit);
    M.WeightsBounded(cfg.hyper.lr, mu, Entry(cfg.start.weights, name, i), 0.0, g, bound, limit);
  }

  // ---------- resuming from a checkpoint ----------

  lemma UpdateAt(cfg: Config, t: State, k: nat)
    requires StoreOk(cfg, t) && k < |t.order| <= |t.fired| && t.order[k] == k
    ensures t.hist[k + 1] == S.Apply(cfg.hyper, t.hist[k], Grads(t.fired[k]))
  {
    hide S.Apply, Grads;
  }

  /** The updates of the listed rounds, one after the other. */
  ghost function Replay(h: S.Hyper, s: S.Store, rounds: seq<Batch>): S.Store {
    if rounds == [] then s else S.Apply(h, Replay(h, s, rounds[..|rounds| - 1]), Grads(Last(rounds)))
  }

  lemma ReplayMore(h: S.Hyper, s: S.Store, rounds: seq<Batch>, next: Batch)
    ensures Replay(h, s, rounds + [next]) == S.Apply(h, Replay(h, s, rounds), Grads(next))
  {
    assert (rounds + [next])[..|rounds|] == rounds;
  }

  lemma {:induction false} ReplayReaches(cfg: Config, t: State, lo: nat, hi: nat)
    requires StoreOk(cfg, t) && lo <= hi < |t.hist| && forall k :: 0 <= k < |t.order| ==> t.order[k] == k
    requires |t.order| <= |t.fired|
    ensures Replay(cfg.hyper, t.hist[lo], t.fired[lo..hi]) == t.hist[hi]
    decreases hi
  {
    if lo < hi {
      UpdateAt(cfg, t, hi - 1);
      hide S.Apply, Grads, Replay;
      ReplayReaches(cfg, t, lo, hi - 1);
      ReplayMore(cfg.hyper, t.hist[lo], t.fired[lo..hi - 1], t.fired[hi - 1]);
      assert t.fired[lo..hi] == t.fired[lo..hi - 1] + [t.fired[hi - 1]];
    }
  }

  /** Loading any checkpoint of a run and replaying the rounds fired after it, under the same server_lr and
  momentum, reaches exactly the state of the uninterrupted run: weights, velocity and step. */
  lemma ResumeReplays(cfg: Config, es: seq<Event>, t: State, k: nat, hi: nat)
    requires CoveringRun(cfg, Init(cfg), es, t) && k < |t.saves|
    requires (k + 1) * cfg.interval <= hi < |t.hist|
    ensures 0 <= (k + 1) * cfg.interval && hi <= |t.fired|
    ensures Replay(cfg.hyper, t.saves[k], t.fired[(k + 1) * cfg.interval..hi]) == t.hist[hi]
  {
    hide CoveringRun, Init, HandlersOk, RoundsOk, LedgerOk, BarrierOk, S.Apply;
    Invariants(cfg, es, t);
    RoundsInOrder(cfg, es, t);
    Checkpoints(cfg, es, t);
    ReplayReaches(cfg, t, (k + 1) * cfg.interval, hi);
  }

  /** The first rounds of u have averaged the same deltas as the rounds of t from lo on. */
  ghost predicate SameRounds(t: State, lo: nat, u: State) {
    forall j: nat :: j < |u.order| ==>
      j < |u.fired| && lo + j < |t.fired| && Grads(u.fired[j]) == Grads(t.fired[lo + j])
  }

  /** Two servers with the same server_lr and momentum that start from the same state and average the same deltas stay
  in the same state. */
  lemma {:induction false} SameUpdates(cfg: Config, t: State, lo: nat, resumed: Config, u: State, j: nat)
    requires StoreOk(cfg, t) && StoreOk(resumed, u) && resumed.hyper == cfg.hyper && SameRounds(t, lo, u)
    requires forall k :: 0 <= k < |t.order| ==> t.order[k] == k
    requires forall k :: 0 <= k < |u.order| ==> u.order[k] == k
    requires |t.order| <= |t.fired| && |u.order| <= |u.fired| && j <= |u.order| && lo + j <= |t.order|
    requires u.hist[0] == t.hist[lo]
    ensures u.hist[j] == t.hist[lo + j]
  {
    if j > 0 {
      SameUpdates(cfg, t, lo, resumed, u, j - 1);
      UpdateAt(cfg, t, lo + j - 1);
      UpdateAt(resumed, u, j - 1);
      hide S.Apply, Grads;
      assert Grads(u.fired[j - 1]) == Grads(t.fired[lo + (j - 1)]);
    }
  }

  /** A server that has loaded the k-th checkpoint of a run and then averages the deltas of that run's later rounds,
  under the same server_lr and momentum, goes through exactly the states of the uninterrupted run: weights, velocity
  and step. Its quorum, checkpoint interval, timeout, workers and interleaving may be different. */
  lemma ResumedRun(cfg: Config, es: seq<Event>, t: State, k: nat, resumed: Config, fs: seq<Event>, u: State, j: nat)
    requires CoveringRun(cfg, Init(cfg), es, t) && k < |t.saves|
    requires resumed.start == t.saves[k] && resumed.hyper == cfg.hyper && CoveringRun(resumed, Init(resumed), fs, u)
    requires SameRounds(t, (k + 1) * cfg.interval, u) && j <= |u.order| && (k + 1) * cfg.interval + j <= |t.order|
    ensures j < |u.hist| && (k + 1) * cfg.interval + j < |t.hist|
    ensures u.hist[j] == t.hist[(k + 1) * cfg.interval + j]
  {
    hide CoveringRun, Init, HandlersOk, RoundsOk, LedgerOk, BarrierOk, S.Apply, SameRounds;
    Invariants(cfg, es, t);
    Invariants(resumed, fs, u);
    RoundsInOrder(cfg, es, t);
    RoundsInOrder(resumed, fs, u);
    Checkpoints(cfg, es, t);
    SameUpdates(cfg, t, (k + 1) * cfg.interval, resumed, u, j);
  }
}
