/** What the barrier guarantees over every covering run, so over every synchronous run without timeout demotion. */
module BarrierTheorems {
  import opened Workers
  import opened Params
  import opened Protocol
  import opened Conservation
  import opened Barrier
  import S = Store
  import A = Aggregation

  lemma Invariants(cfg: Config, es: seq<Event>, t: State)
    requires CoveringRun(cfg, Init(cfg), es, t)
    ensures Kept(cfg, t) && BarrierOk(cfg, t)
  {
    hide Kept, BarrierOk, CoveringRun, Init;
    KeptInit(cfg);
    BarrierInit(cfg);
    BarrierRun(cfg, Init(cfg), es, t);
  }

  /** Mutual exclusion: at most one handler is between the release of the buffer lock by a submission that
  fired and its return from `submit`; rounds are applied in firing order; and although the step is read
  under a separate lock, what a round's ACKs carry is the step right after that round. */
  lemma OneRoundAtATime(cfg: Config, es: seq<Event>, t: State)
    requires CoveringRun(cfg, Init(cfg), es, t)
    ensures forall f, g :: f in t.conns && g in t.conns && Firing(t.conns[f].handler) && Firing(t.conns[g].handler) ==>
      f == g
    ensures |t.order| <= |t.fired| <= |t.order| + 1 && forall k :: 0 <= k < |t.order| ==> t.order[k] == k
    ensures forall f :: f in t.conns ==>
      var h := t.conns[f].handler;
      (h.Acking? || h.Check? || h.Save?) ==> h.round < |t.order| && h.step == cfg.start.step + h.round + 1
    ensures forall w :: w in t.conns && !t.conns[w].gone && t.conns[w].s2c != [] && t.conns[w].s2c[0].Ack? ==>
      var a := t.conns[w].s2c[0];
      a.round < |t.order| && w in t.fired[a.round] && a.step == cfg.start.step + a.round + 1
  {
    hide CoveringRun, RoundsOk, LedgerOk, FreshDelta, Aligned, Current;
    Invariants(cfg, es, t);
    forall k: nat | k < |t.hist| ensures t.hist[k].step == cfg.start.step + k {
      HistorySteps(cfg, t, k);
    }
  }

  /** Every averaged delta was computed from the global weights standing right before its round, except that a
  worker's first contribution may have missed exactly the last update before it. */
  lemma Staleness(cfg: Config, es: seq<Event>, t: State)
    requires CoveringRun(cfg, Init(cfg), es, t)
    ensures forall r, w :: 0 <= r < |t.fired| && w in t.fired[r] ==>
      var d := t.fired[r][w];
      && d.base < |t.hist| && d.grad == Sub(t.hist[d.base].weights, d.local)
      && (d.number > 0 ==> d.base == r)
      && (d.number == 0 ==> d.base == r || d.base + 1 == r)
  {
    hide CoveringRun, Kept, PhaseOk, ConnsOk, SavesOk, Sub;
    Invariants(cfg, es, t);
  }

  /** The store's history is one update per fired round, in firing order. */
  lemma RoundsInOrder(cfg: Config, es: seq<Event>, t: State)
    requires CoveringRun(cfg, Init(cfg), es, t)
    ensures |t.hist| == |t.order| + 1 && t.hist[0] == cfg.start && |t.order| <= |t.fired| <= |t.order| + 1
    ensures forall r :: 0 <= r < |t.order| ==>
      t.order[r] == r && t.hist[r + 1] == S.Apply(cfg.hyper, t.hist[r], Grads(t.fired[r]))
  {
    hide CoveringRun, RoundsOk, LedgerOk, HandlersOk, GlobalOk, ConnsOk, SavesOk, S.Apply;
    Invariants(cfg, es, t);
  }

  /** Replies stay aligned with requests: a connected client has at most one unread message, it is of the type
  the client's next assert wants, and a worker has been sent one ACK for each of its pushes but the one that
  is still buffered or in the round being acknowledged. */
  lemma RepliesAligned(cfg: Config, es: seq<Event>, t: State, w: Id)
    requires CoveringRun(cfg, Init(cfg), es, t)
    requires w in t.conns && !t.conns[w].gone
    ensures var c := t.conns[w];
            && |c.c2s| <= 1 && |c.s2c| <= 1
            && (c.s2c != [] ==> Awaiting(c.client) && Received(c.client, c.s2c[0]) != Failed)
            && c.submits == c.acks + (if w in t.agg.buffer then 1 else 0) + (if w in ToAck(Phase(t)) then 1 else 0)
            && (w in t.agg.buffer ==> c.client.AwaitAck? && w !in ToAck(Phase(t)))
  {
    hide CoveringRun, RoundsOk, LedgerOk, StoreOk, SavesOk, PhaseOk, GlobalOk, FreshDelta, FreshSnap;
    Invariants(cfg, es, t);
  }

  /** 1 while the last push of w waits in the buffer. */
  function Held(s: State, w: Id): int {
    if w in s.agg.buffer then 1 else 0
  }

  /** Lockstep: the pushes of a connected worker, counted from the round it joined before, are the rounds fired,
  plus one exactly while its delta is buffered; so no two workers are more than one apart. */
  lemma Lockstep(cfg: Config, es: seq<Event>, t: State, v: Id, w: Id)
    requires CoveringRun(cfg, Init(cfg), es, t)
    requires v in t.conns && w in t.conns && Up(t.conns[v].handler) && Up(t.conns[w].handler)
    ensures t.conns[w].joined + t.conns[w].submits == |t.fired| + Held(t, w)
    ensures -1 <= (t.conns[v].joined + t.conns[v].submits) - (t.conns[w].joined + t.conns[w].submits) <= 1
  {
    hide CoveringRun, RoundsOk, LedgerOk, StoreOk, SavesOk, PhaseOk, GlobalOk, Aligned, Current, TrueAck;
    Invariants(cfg, es, t);
  }

  /** w is registered and its handler up. */
  predicate Connected(s: State, w: Id) {
    w in s.conns && Up(s.conns[w].handler)
  }

  /** Between any two moments of a run at which v and w are both connected, their numbers of pushes grow by
  amounts that differ exactly by how their buffered pushes changed. */
  lemma LockstepBetween(cfg: Config, es: seq<Event>, s: State, fs: seq<Event>, t: State, v: Id, w: Id)
    requires CoveringRun(cfg, Init(cfg), es, s) && CoveringRun(cfg, s, fs, t)
    requires Connected(s, v) && Connected(s, w) && Connected(t, v) && Connected(t, w)
    ensures (t.conns[v].submits - s.conns[v].submits) - (t.conns[w].submits - s.conns[w].submits)
         == (Held(t, v) - Held(s, v)) - (Held(t, w) - Held(s, w))
  {
    hide CoveringRun, RoundsOk, LedgerOk, StoreOk, SavesOk, PhaseOk, GlobalOk, Aligned, Current, TrueAck;
    Invariants(cfg, es, s);
    BarrierRun(cfg, s, fs, t);
    JoinedStays(cfg, s, fs, t, v);
    JoinedStays(cfg, s, fs, t, w);
  }

  /** Every worker whose handler is up has pushed in every round since it joined, and waits with at most one more. */
  predicate InStep(s: State) {
    forall w :: w in s.conns && Up(s.conns[w].handler) ==>
      s.conns[w].joined + s.conns[w].submits == |s.fired| + Held(s, w)
  }

  ghost predicate AlwaysInStep(cfg: Config, s: State, es: seq<Event>)
    decreases |es|
  {
    InStep(s) && (es != [] ==> Enabled(s, es[0]) && AlwaysInStep(cfg, After(cfg, s, es[0]), es[1..]))
  }

  /** A round that misses a worker puts it out of step. */
  lemma MissedIsOutOfStep(cfg: Config, s: State, e: Event)
    requires Enabled(s, e) && InStep(s) && InStep(After(cfg, s, e))
    ensures Covers(cfg, s, e)
  {
    if e.Submit? && Fires(cfg, s, e.w, e.norm) {
      var t := AfterSubmit(cfg, s, e.w, e.norm);
      forall v | v in s.conns && v != e.w && Up(s.conns[v].handler) ensures v in s.agg.buffer {
        assert t.conns[v] == s.conns[v] && v !in t.agg.buffer;
      }
    }
  }

  lemma BarrierInStep(cfg: Config, s: State)
    requires BarrierOk(cfg, s)
    ensures InStep(s)
  {
    hide PhaseOk, SavesOk, GlobalOk, Aligned, Current, TrueAck, Pending;
  }

  lemma {:induction false} InStepAlong(cfg: Config, s: State, es: seq<Event>, t: State)
    requires Run(cfg, s, es, t)
    ensures AlwaysInStep(cfg, s, es) ==> CoveringRun(cfg, s, es, t)
    ensures Kept(cfg, s) && BarrierOk(cfg, s) && CoveringRun(cfg, s, es, t) ==> AlwaysInStep(cfg, s, es)
    decreases |es|
  {
    hide Kept, BarrierOk, After, Enabled, Covers, InStep;
    if es != [] {
      InStepAlong(cfg, After(cfg, s, es[0]), es[1..], t);
      if AlwaysInStep(cfg, s, es) {
        assert InStep(After(cfg, s, es[0]));
        MissedIsOutOfStep(cfg, s, es[0]);
      }
      if Kept(cfg, s) && BarrierOk(cfg, s) && CoveringRun(cfg, s, es, t) {
        BothStep(cfg, s, es[0]);
      }
    }
    if Kept(cfg, s) && BarrierOk(cfg, s) {
      BarrierInStep(cfg, s);
    }
  }

  lemma BothStep(cfg: Config, s: State, e: Event)
    requires Kept(cfg, s) && BarrierOk(cfg, s) && Enabled(s, e) && Covers(cfg, s, e)
    ensures Kept(cfg, After(cfg, s, e)) && BarrierOk(cfg, After(cfg, s, e))
  {
    hide BarrierOk, StoreOk, RoundsOk, LedgerOk, HandlersOk, Covers, Enabled, After;
    KeptStep(cfg, s, e);
    BarrierStep(cfg, s, e);
  }

  /** The lockstep law exactly: in a run of any mode it holds at every point if and only if every submission that
  fired found in the buffer the push of every other worker whose handler was up. */
  lemma LockstepExactly(cfg: Config, es: seq<Event>, t: State)
    requires Run(cfg, Init(cfg), es, t)
    ensures AlwaysInStep(cfg, Init(cfg), es) <==> CoveringRun(cfg, Init(cfg), es, t)
  {
    hide Kept, BarrierOk, Run, CoveringRun, AlwaysInStep, Init;
    KeptInit(cfg);
    BarrierInit(cfg);
    InStepAlong(cfg, Init(cfg), es, t);
  }

  predicate WasJoined(h: Handler) {
    Joined(h) || h.Done?
  }

  lemma JoinedStep(cfg: Config, s: State, e: Event, w: Id)
    requires Enabled(s, e) && w in s.conns && WasJoined(s.conns[w].handler)
    ensures var t := After(cfg, s, e);
            w in t.conns && WasJoined(t.conns[w].handler) && t.conns[w].joined == s.conns[w].joined
  {
    hide S.Apply, A.Submitted, Sub;
    if e.Local? {
      MoveKeeps(s.conns[e.w], e.move, Last(s.hist), |s.hist| - 1);
    }
  }

  /** A registered connection keeps the round it joined before. */
  lemma {:induction false} JoinedStays(cfg: Config, s: State, es: seq<Event>, t: State, w: Id)
    requires CoveringRun(cfg, s, es, t) && w in s.conns && WasJoined(s.conns[w].handler)
    ensures w in t.conns && t.conns[w].joined == s.conns[w].joined
    decreases |es|
  {
    if es != [] {
      hide After, Enabled, Covers;
      JoinedStep(cfg, s, es[0], w);
      JoinedStays(cfg, After(cfg, s, es[0]), es[1..], t, w);
    }
  }

  lemma SaveIndex(cfg: Config, s: State, k: nat)
    requires StoreOk(cfg, s) && SavesOk(cfg, s) && k < |s.saves|
    ensures 0 <= (k + 1) * cfg.interval < |s.hist| && s.saves[k] == s.hist[(k + 1) * cfg.interval]
  {
    hide S.Apply, StoreOk;
    assert s.saves[k] in s.hist && s.saves[k].step == cfg.start.step + (k + 1) * cfg.interval;
    hide SavesOk;
    var j :| 0 <= j < |s.hist| && s.hist[j] == s.saves[k];
    HistorySteps(cfg, s, j);
  }

  lemma SavesBound(cfg: Config, s: State)
    requires StoreOk(cfg, s) && SavesOk(cfg, s) && |s.hist| == |s.order| + 1
    ensures |s.saves| * cfg.interval <= |s.order| <= (|s.saves| + 1) * cfg.interval
    ensures |s.order| == (|s.saves| + 1) * cfg.interval ==> Firing(Phase(s)) && !Phase(s).Apply?
  {
    HistorySteps(cfg, s, |s.order|);
    hide S.Apply, StoreOk;
    var m := |s.saves|;
    assert (m + 1) * cfg.interval == m * cfg.interval + cfg.interval;
    assert (m + 0) * cfg.interval == m * cfg.interval;
  }

  /** Checkpoints: they are the store after exactly every interval-th update, and unless a handler is between
  applying and saving, fewer than an interval of updates are unsaved. */
  lemma Checkpoints(cfg: Config, es: seq<Event>, t: State)
    requires CoveringRun(cfg, Init(cfg), es, t)
    ensures forall k :: 0 <= k < |t.saves| ==>
      0 <= (k + 1) * cfg.interval < |t.hist| && t.saves[k] == t.hist[(k + 1) * cfg.interval]
    ensures |t.saves| * cfg.interval <= |t.order| <= (|t.saves| + 1) * cfg.interval
    ensures |t.order| == (|t.saves| + 1) * cfg.interval ==> Firing(Phase(t)) && !Phase(t).Apply?
  {
    hide CoveringRun, RoundsOk, LedgerOk, HandlersOk, GlobalOk, ConnsOk, SavesOk, StoreOk;
    Invariants(cfg, es, t);
    SavesBound(cfg, t);
    forall k: nat | k < |t.saves|
      ensures 0 <= (k + 1) * cfg.interval < |t.hist| && t.saves[k] == t.hist[(k + 1) * cfg.interval]
    {
      SaveIndex(cfg, t, k);
    }
  }
}
