/** A worker that joins between the firing of a round and its update: its first delta is computed from weights that
are one update old when it is averaged, and the mean of the workers' weights is missed. */
module Newcomers {
  import opened Workers
  import opened Params
  import opened Sums
  import opened Protocol
  import opened Barrier
  import opened Runs
  import opened Scenarios
  import opened Failures
  import opened Federated
  import S = Store
  import H = Heartbeat

  function Sent(snap: Snapshot, local: Params, number: nat): Delta {
    DeltaOf(snap, local).(number := number)
  }

  /** FIRST, alone, has trained `local` and fired round 0; before the update SECOND joins. */
  function Between(cfg: Config, local: Params): State {
    WithTraining(Fired(Pushing(WithTraining(Init(cfg), FIRST), FIRST, local), FIRST), SECOND)
  }

  lemma BetweenRun(cfg: Config, local: Params)
    requires Synchronous(cfg) && SameShape(local, cfg.start.weights)
    ensures Reached(cfg, Between(cfg, local))
  {
    hide Leads, S.Apply, Sub, Fires, SameShape;
    Stay(cfg, Init(cfg));
    JoinRun(cfg, Init(cfg), Init(cfg), FIRST);
    var s := WithTraining(Init(cfg), FIRST);
    PushRun(cfg, Init(cfg), s, FIRST, local);
    var p := Pushing(s, FIRST, local);
    LastFires(cfg, p, FIRST);
    FireRun(cfg, Init(cfg), p, FIRST);
    JoinRun(cfg, Init(cfg), Fired(p, FIRST), SECOND);
  }

  /** Round 0 has been applied and acknowledged, FIRST has pulled again, SECOND still has the start weights. */
  ghost predicate SecondIsOld(cfg: Config, local: Params, s: State) {
    && s.conns.Keys == {FIRST, SECOND} == s.agg.sockets && s.agg.buffer == map[] && H.Alive(s.mon, SECOND)
    && s.fired == [map[FIRST := Sent(Snapshot(cfg.start.weights, 0), local, 0)]]
    && s.hist == [cfg.start, S.Apply(cfg.hyper, cfg.start, Grads(s.fired[0]))] && s.order == [0]
    && Trainee(s.conns[FIRST]) && s.conns[FIRST].submits == 1
    && s.conns[FIRST].client.snap == Snapshot(s.hist[1].weights, 1)
    && Trainee(s.conns[SECOND]) && s.conns[SECOND].submits == 0
    && s.conns[SECOND].client.snap == Snapshot(cfg.start.weights, 0)
  }

  lemma OldRun(cfg: Config, local: Params) returns (s: State)
    requires Synchronous(cfg) && SameShape(local, cfg.start.weights)
    ensures Reached(cfg, s) && SecondIsOld(cfg, local, s)
  {
    hide Leads, S.Apply, Sub, SameShape, Acknowledged, Between, Grads;
    BetweenRun(cfg, local);
    BetweenFacts(cfg, local);
    var b := Between(cfg, local);
    var a := RoundRun(cfg, Init(cfg), b, FIRST);
    AckedFacts(cfg, local, b, a);
    NextPull(cfg, Init(cfg), a, FIRST);
    s := PulledAgain(a, FIRST);
  }

  /** What Between is, as far as it matters. */
  ghost predicate JoinedBetween(cfg: Config, local: Params, b: State) {
    && b.conns.Keys == {FIRST, SECOND} == b.agg.sockets && b.agg.buffer == map[] && H.Alive(b.mon, SECOND)
    && b.fired == [map[FIRST := Sent(Snapshot(cfg.start.weights, 0), local, 0)]]
    && b.hist == [cfg.start] && b.order == []
    && b.conns[FIRST] == Conn(AwaitAck, false, Apply(0, b.fired[0], {FIRST}), [], [], 1, 0, 0)
    && Trainee(b.conns[SECOND]) && b.conns[SECOND].submits == 0
    && b.conns[SECOND].client.snap == Snapshot(cfg.start.weights, 0)
  }

  lemma BetweenFacts(cfg: Config, local: Params)
    ensures JoinedBetween(cfg, local, Between(cfg, local))
  {
    hide Sub;
    assert Between(cfg, local).conns[FIRST].handler.sockets == {FIRST};
  }

  lemma AckedFacts(cfg: Config, local: Params, b: State, a: State)
    requires JoinedBetween(cfg, local, b) && a.hist == b.hist + [S.Apply(cfg.hyper, cfg.start, Grads(b.fired[0]))]
    requires Acknowledged(b, a, FIRST, {FIRST}, Last(a.hist).step, 0) && a.order == b.order + [0]
    requires FIRST in a.conns && a.conns[FIRST].handler == Recv(true)
    ensures a.conns.Keys == {FIRST, SECOND} == a.agg.sockets && a.agg.buffer == map[] && H.Alive(a.mon, SECOND)
    ensures a.fired == b.fired && a.order == [0]
    ensures a.hist == [cfg.start, S.Apply(cfg.hyper, cfg.start, Grads(b.fired[0]))]
    ensures var c := a.conns[FIRST];
            c.client.AwaitAck? && !c.gone && c.c2s == [] && |c.s2c| == 1 && c.s2c[0].Ack? && c.submits == 1
    ensures Trainee(a.conns[SECOND]) && a.conns[SECOND].submits == 0
    ensures a.conns[SECOND].client.snap == Snapshot(cfg.start.weights, 0)
  {
    hide S.Apply, Grads;
  }

  /** Round 1 has been applied: the deltas of FIRST from the weights before it, of SECOND from those before round 0. */
  ghost predicate OldAveraged(cfg: Config, local: Params, t: State) {
    && |t.fired| == 2 && t.fired[0] == map[FIRST := Sent(Snapshot(cfg.start.weights, 0), local, 0)]
    && |t.hist| == 3 && t.hist[0] == cfg.start && t.hist[1] == S.Apply(cfg.hyper, cfg.start, Grads(t.fired[0]))
    && t.fired[1] == map[FIRST := Sent(Snapshot(t.hist[1].weights, 1), t.hist[1].weights, 1),
                         SECOND := Sent(Snapshot(cfg.start.weights, 0), cfg.start.weights, 0)]
  }

  lemma AveragedRun(cfg: Config, local: Params) returns (t: State)
    requires Synchronous(cfg) && SameShape(local, cfg.start.weights)
    ensures Reached(cfg, t) && OldAveraged(cfg, local, t)
  {
    hide Leads, S.Apply, Sub, SameShape, Fires;
    var s := OldRun(cfg, local);
    SameShapeSelf(s.hist[1].weights);
    PushRun(cfg, Init(cfg), s, FIRST, s.hist[1].weights);
    var p := Pushing(s, FIRST, s.hist[1].weights);
    EarlierWaits(cfg, p, FIRST, SECOND);
    WaitRun(cfg, Init(cfg), p, FIRST);
    t := BothRun(cfg, local, Waiting(p, FIRST));
  }

  lemma SameShapeSelf(p: Params)
    ensures SameShape(p, p)
  {
  }

  lemma BothRun(cfg: Config, local: Params, s: State) returns (t: State)
    requires Synchronous(cfg) && Reached(cfg, s) && |s.hist| == 2 && s.agg.sockets == {FIRST, SECOND}
    requires s.fired == [map[FIRST := Sent(Snapshot(cfg.start.weights, 0), local, 0)]]
    requires s.hist == [cfg.start, S.Apply(cfg.hyper, cfg.start, Grads(s.fired[0]))]
    requires s.agg.buffer == map[FIRST := Sent(Snapshot(s.hist[1].weights, 1), s.hist[1].weights, 1)]
    requires SECOND in s.conns && Trainee(s.conns[SECOND]) && s.conns[SECOND].submits == 0
    requires s.conns[SECOND].client.snap == Snapshot(cfg.start.weights, 0)
    ensures Reached(cfg, t) && OldAveraged(cfg, local, t)
  {
    hide Leads, S.Apply, Sub, SameShape, Fires, Grads;
    SameShapeSelf(cfg.start.weights);
    PushRun(cfg, Init(cfg), s, SECOND, cfg.start.weights);
    var p := Pushing(s, SECOND, cfg.start.weights);
    LastFires(cfg, p, SECOND);
    FireRun(cfg, Init(cfg), p, SECOND);
    var f := Fired(p, SECOND);
    Further(cfg, Init(cfg), f, ApplyRound(SECOND));
    t := AfterApply(cfg, f, SECOND);
  }

  /** The staleness bound of one update is met, under every synchronous configuration: the first delta of a worker is
  averaged in round 1 although it was computed from the weights before round 0. */
  lemma NewcomerIsStale(cfg: Config)
    requires Synchronous(cfg)
    ensures exists t :: Reached(cfg, t) && |t.hist| == 3 && |t.fired| == 2 && SECOND in t.fired[1]
                        && t.fired[1][SECOND].number == 0 && t.fired[1][SECOND].base + 1 == 1
  {
    hide Leads, S.Apply, Sub;
    SameShapeSelf(cfg.start.weights);
    var t := AveragedRun(cfg, cfg.start.weights);
    assert SECOND in t.fired[1];
  }

  /** p with one entry raised by one. */
  function Raised(p: Params, name: string, i: int): (q: Params)
    requires HasEntry(p, name, i)
    ensures SameShape(q, p) && Entry(q, name, i) == Entry(p, name, i) + 1.0
  {
    p[name := p[name][i := p[name][i] + 1.0]]
  }

  lemma MeanOfOne(f: Id -> real, w: Id)
    ensures MeanOver({w}, f) == f(w)
  {
    SumTake({w}, f, w);
    assert {w} - {w} == {};
  }

  lemma MeanOfTwo(f: Id -> real, v: Id, w: Id)
    requires v != w
    ensures MeanOver({v, w}, f) == (f(v) + f(w)) / 2.0
  {
    SumTake({v, w}, f, v);
    SumTake({w}, f, w);
    assert {v, w} - {v} == {w} && {w} - {w} == {};
    assert |{v, w}| == 2;
  }

  /** Round 0 raises the entry that FIRST has raised. */
  lemma FirstRaises(cfg: Config, t: State, name: string, i: int)
    requires cfg.hyper == FED_AVG && HasEntry(cfg.start.weights, name, i)
    requires OldAveraged(cfg, Raised(cfg.start.weights, name, i), t)
    ensures Entry(t.hist[1].weights, name, i) == Entry(cfg.start.weights, name, i) + 1.0
  {
    hide S.Apply, Sub, MeanOver;
    var local := Raised(cfg.start.weights, name, i);
    var g := Grads(t.fired[0]);
    PlainStep(cfg.start, g, name, i);
    assert g.Keys == {FIRST};
    MeanOfOne(S.EntryOf(g, name, i), FIRST);
    assert S.EntryOf(g, name, i)(FIRST) == Entry(Sub(cfg.start.weights, local), name, i) == -1.0;
  }

  /** And the documentation's mean is missed: for every synchronous configuration with server_lr = 1 and momentum = 0
  and every entry of the weights there is a run in which the second update does not give the mean of the contributors'
  local weights there. */
  lemma MeanIsMissed(cfg: Config, name: string, i: int)
    requires Synchronous(cfg) && cfg.hyper == FED_AVG && HasEntry(cfg.start.weights, name, i)
    ensures exists es, t :: QuietRun(cfg, Init(cfg), es, t) && |t.hist| == 3 && |t.fired| == 2 && t.fired[1].Keys != {}
                            && Entry(t.hist[2].weights, name, i) != Average(t.fired[1], Trained(t.fired[1], name, i))
  {
    hide Leads, S.Apply, Sub, QuietRun, Run, CoveringRun, Average, Trained, Drift, Init, AliveOk;
    var local := Raised(cfg.start.weights, name, i);
    var t := AveragedRun(cfg, local);
    FirstRaises(cfg, t, name, i);
    DriftIsHalf(cfg, local, t, name, i);
    var es := QuietRunTo(cfg, Init(cfg), t);
    SynchronousCovers(cfg, es, t);
    MeanOfWorkersExactly(cfg, es, t, 1, name, i);
  }

  lemma DriftIsHalf(cfg: Config, local: Params, t: State, name: string, i: int)
    requires OldAveraged(cfg, local, t)
    requires Entry(t.hist[1].weights, name, i) == Entry(cfg.start.weights, name, i) + 1.0
    ensures t.fired[1].Keys != {} && Average(t.fired[1], Drift(t.hist, t.hist[1].weights, t.fired[1], name, i)) == 0.5
  {
    hide S.Apply, Sub, MeanOver, Grads;
    var b := t.fired[1];
    assert b.Keys == {FIRST, SECOND};
    MeanOfTwo(Drift(t.hist, t.hist[1].weights, b, name, i), FIRST, SECOND);
  }
}
