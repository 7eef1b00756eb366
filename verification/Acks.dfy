/** Who gets which ACK, in every mode. A round is acknowledged to all registered sockets, whoever contributed;
that goes wrong exactly when a round fires without the push of a registered worker whose client is still there. */
module Acks {
  import opened Workers
  import opened Params
  import opened Protocol
  import opened Conservation
  import opened Barrier
  import opened Runs
  import S = Store

  predicate Contributed(s: State, w: Id, round: nat) {
    round < |s.fired| && w in s.fired[round]
  }

  /** Every ACK that a client can still read is of a round to which it contributed. */
  predicate Routed(s: State) {
    forall w, k :: w in s.conns && !s.conns[w].gone && 0 <= k < |s.conns[w].s2c| && s.conns[w].s2c[k].Ack? ==>
      Contributed(s, w, s.conns[w].s2c[k].round)
  }

  function RoundOf(h: Handler): nat {
    if h.Apply? || h.ReadStep? || h.Acking? then h.round else 0
  }

  /** And so is every ACK that a handler has yet to send. */
  predicate ToRoute(s: State) {
    forall f, v :: f in s.conns && v in ToAck(s.conns[f].handler) ==>
      v in s.conns && (s.conns[v].gone || Contributed(s, v, RoundOf(s.conns[f].handler)))
  }

  predicate AcksOk(s: State) {
    Routed(s) && ToRoute(s)
  }

  /** A submission that fires finds the push of every other registered worker whose client is there. */
  predicate CoversLive(cfg: Config, s: State, e: Event)
    requires Enabled(s, e)
  {
    e.Submit? && Fires(cfg, s, e.w, e.norm) ==>
      forall v :: v in s.conns && v != e.w && v in s.agg.sockets && !s.conns[v].gone ==> v in s.agg.buffer
  }

  /** Only connection w changes; what it has to acknowledge does not grow, and its stream gains no ACK. */
  lemma OneRouted(s: State, t: State, w: Id)
    requires AcksOk(s) && t.fired == s.fired && w in t.conns && t.conns == s.conns[w := t.conns[w]]
    requires ToAck(t.conns[w].handler) == {} ||
             (w in s.conns && ToAck(t.conns[w].handler) <= ToAck(s.conns[w].handler)
              && RoundOf(t.conns[w].handler) == RoundOf(s.conns[w].handler))
    requires w in s.conns ==> (s.conns[w].gone ==> t.conns[w].gone)
    requires forall k :: 0 <= k < |t.conns[w].s2c| && t.conns[w].s2c[k].Ack? ==>
      w in s.conns && exists j :: 0 <= j < |s.conns[w].s2c| && s.conns[w].s2c[j] == t.conns[w].s2c[k]
    ensures AcksOk(t)
  {
  }

  lemma MoveRouted(c: Conn, m: Move, store: S.Store, version: nat)
    requires CanMove(c, m)
    ensures var d := Moved(c, m, store, version);
            && ToAck(d.handler) == ToAck(c.handler)
            && (ToAck(d.handler) != {} ==> RoundOf(d.handler) == RoundOf(c.handler))
            && (c.gone ==> d.gone)
    ensures var d := Moved(c, m, store, version);
            forall k :: 0 <= k < |d.s2c| && d.s2c[k].Ack? ==> exists j :: 0 <= j < |c.s2c| && c.s2c[j] == d.s2c[k]
  {
    hide Sub;
    var d := Moved(c, m, store, version);
    forall k | 0 <= k < |d.s2c| && d.s2c[k].Ack? ensures exists j :: 0 <= j < |c.s2c| && c.s2c[j] == d.s2c[k] {
      var j := if m.Receive? then k + 1 else k;
      assert c.s2c[j] == d.s2c[k];
    }
  }

  lemma FireRouted(s: State, t: State, w: Id)
    requires HandlersOk(s) && AcksOk(s) && SubmittedTo(s, t, w, true)
    requires forall v :: v in s.conns && v != w && v in s.agg.sockets && !s.conns[v].gone ==> v in s.agg.buffer
    ensures AcksOk(t)
  {
    var b := Offered(s, w);
    assert forall v, r: nat :: Contributed(s, v, r) ==> Contributed(t, v, r);
    assert forall v :: v in b ==> Contributed(t, v, |s.fired|);
  }

  lemma WaitRouted(s: State, t: State, w: Id)
    requires AcksOk(s) && SubmittedTo(s, t, w, false)
    ensures AcksOk(t)
  {
    OneRouted(s, t, w);
  }

  lemma SubmitRouted(cfg: Config, s: State, w: Id, norm: real)
    requires HandlersOk(s) && AcksOk(s) && Enabled(s, Submit(w, norm)) && CoversLive(cfg, s, Submit(w, norm))
    ensures AcksOk(AfterSubmit(cfg, s, w, norm))
  {
    SubmitShape(cfg, s, w, norm);
    hide AfterSubmit, AcksOk, HandlersOk, SubmittedTo, Fires;
    if Fires(cfg, s, w, norm) {
      FireRouted(s, AfterSubmit(cfg, s, w, norm), w);
    } else {
      WaitRouted(s, AfterSubmit(cfg, s, w, norm), w);
    }
  }

  lemma AckRouted(s: State, w: Id, to: Id)
    requires AcksOk(s) && Enabled(s, SendAck(w, to))
    ensures AcksOk(AfterAck(s, w, to))
  {
    var h := s.conns[w].handler;
    var s1 := With(s, w, s.conns[w].(handler := h.(todo := h.todo - {to})));
    OneRouted(s, s1, w);
    assert s1.conns[to].gone || Contributed(s1, to, h.round);
  }

  lemma AcksStep(cfg: Config, s: State, e: Event)
    requires HandlersOk(s) && AcksOk(s) && Enabled(s, e) && CoversLive(cfg, s, e)
    ensures AcksOk(After(cfg, s, e))
  {
    hide HandlersOk, AcksOk, AfterSubmit, AfterAck, S.Apply, CoversLive;
    match e
    case Submit(w, norm) => SubmitRouted(cfg, s, w, norm);
    case SendAck(w, to) => AckRouted(s, w, to);
    case Scan(_) => ScanRouted(cfg, s, e);
    case Local(w, m) =>
      MoveRouted(s.conns[w], m, Last(s.hist), |s.hist| - 1);
      hide Moved;
      OneRouted(s, After(cfg, s, e), w);
    case _ => OneRouted(s, After(cfg, s, e), e.w);
  }

  lemma ScanRouted(cfg: Config, s: State, e: Event)
    requires AcksOk(s) && e.Scan?
    ensures AcksOk(After(cfg, s, e))
  {
  }

  predicate NoSubmit(es: seq<Event>) {
    forall k :: 0 <= k < |es| ==> !es[k].Submit?
  }

  lemma {:induction false} AcksRun(cfg: Config, s: State, es: seq<Event>, t: State)
    requires Kept(cfg, s) && AcksOk(s) && Run(cfg, s, es, t) && NoSubmit(es)
    ensures AcksOk(t)
    decreases |es|
  {
    if es != [] {
      hide HandlersOk, StoreOk, RoundsOk, LedgerOk, AcksOk, After, Enabled;
      KeptStep(cfg, s, es[0]);
      AcksStep(cfg, s, es[0]);
      AcksRun(cfg, After(cfg, s, es[0]), es[1..], t);
    }
  }

  /** However the run goes on until the next submission, no client gets an ACK of a round it took no part in. */
  ghost predicate Safe(cfg: Config, s: State) {
    forall fs, t :: Run(cfg, s, fs, t) && NoSubmit(fs) ==> Routed(t)
  }

  ghost predicate AlwaysSafe(cfg: Config, s: State, es: seq<Event>)
    decreases |es|
  {
    Safe(cfg, s) && (es != [] ==> Enabled(s, es[0]) && AlwaysSafe(cfg, After(cfg, s, es[0]), es[1..]))
  }

  ghost predicate CoversLiveAlways(cfg: Config, s: State, es: seq<Event>)
    decreases |es|
  {
    es != [] ==> Enabled(s, es[0]) && CoversLive(cfg, s, es[0]) && CoversLiveAlways(cfg, After(cfg, s, es[0]), es[1..])
  }

  /** What w's handler does after firing a round, up to the ACK of `to`. */
  function ToAckOf(w: Id, to: Id): seq<Event> {
    [ApplyRound(w), Local(w, FetchStep), SendAck(w, to)]
  }

  /** The state after ToAckOf. */
  lemma AckReaches(cfg: Config, s: State, w: Id, to: Id) returns (t: State)
    requires w in s.conns && s.conns[w].handler.Apply? && to in s.conns[w].handler.sockets && to in s.conns
    ensures Run(cfg, s, ToAckOf(w, to), t) && NoSubmit(ToAckOf(w, to))
    ensures t.conns.Keys == s.conns.Keys && t.fired == s.fired && t.mon == s.mon && t.agg == s.agg
    ensures t.conns[to].client == s.conns[to].client && t.conns[to].gone == s.conns[to].gone
    ensures t.conns[to].c2s == s.conns[to].c2s
    ensures |t.conns[to].s2c| == |s.conns[to].s2c| + 1 && t.conns[to].s2c[..|s.conns[to].s2c|] == s.conns[to].s2c
    ensures Last(t.conns[to].s2c).Ack? && Last(t.conns[to].s2c).round == s.conns[w].handler.round
    ensures forall v :: v in s.conns && v != w && v != to ==> t.conns[v] == s.conns[v]
  {
    hide S.Apply;
    var s1 := AfterApply(cfg, s, w);
    var s2 := After(cfg, s1, Local(w, FetchStep));
    t := AfterAck(s2, w, to);
    ThreeSteps(cfg, s, s1, s2, t, ApplyRound(w), Local(w, FetchStep), SendAck(w, to));
  }

  lemma ThreeSteps(cfg: Config, s: State, s1: State, s2: State, t: State, e: Event, f: Event, g: Event)
    requires Enabled(s, e) && After(cfg, s, e) == s1 && Enabled(s1, f) && After(cfg, s1, f) == s2
    requires Enabled(s2, g) && After(cfg, s2, g) == t
    ensures Run(cfg, s, [e, f, g], t)
  {
    hide Run, Enabled, After;
    OneStep(cfg, s, e);
    OneStep(cfg, s1, f);
    OneStep(cfg, s2, g);
    RunJoin(cfg, s1, [f], s2, [g], t);
    RunJoin(cfg, s, [e], s1, [f] + [g], t);
    assert [e] + ([f] + [g]) == [e, f, g];
  }

  /** In a covering run every round reaches the workers that are there. */
  lemma {:induction false} CoveringReaches(cfg: Config, s: State, es: seq<Event>, t: State)
    requires Kept(cfg, s) && CoveringRun(cfg, s, es, t)
    ensures CoversLiveAlways(cfg, s, es)
    decreases |es|
  {
    if es != [] {
      hide StoreOk, RoundsOk, LedgerOk, After, Enabled, Fires;
      KeptStep(cfg, s, es[0]);
      hide HandlersOk;
      CoveringReaches(cfg, After(cfg, s, es[0]), es[1..], t);
      LiveIsUp(s);
    }
  }

  lemma LiveIsUp(s: State)
    requires HandlersOk(s)
    ensures forall v :: v in s.conns && v in s.agg.sockets && !s.conns[v].gone ==> Up(s.conns[v].handler)
  {
  }

  /** v is registered, its client is there, and the round that w fires is without it. */
  predicate LeftOut(cfg: Config, s: State, w: Id, norm: real, v: Id) {
    && Enabled(s, Submit(w, norm)) && Fires(cfg, s, w, norm)
    && v in s.conns && v != w && v in s.agg.sockets && !s.conns[v].gone && v !in s.agg.buffer
  }

  /** v has been sent one ACK more, of a round it took no part in. */
  predicate Misled(s: State, t: State, v: Id) {
    && v in s.conns && v in t.conns && t.conns[v].client == s.conns[v].client && !t.conns[v].gone
    && var n := |s.conns[v].s2c|;
       |t.conns[v].s2c| == n + 1 && t.conns[v].s2c[..n] == s.conns[v].s2c
       && t.conns[v].s2c[n].Ack? && !Contributed(t, v, t.conns[v].s2c[n].round)
  }

  /** f is s after w has fired a round without v. */
  predicate FiredWithout(s: State, f: State, w: Id, v: Id) {
    && w in s.conns && v in s.conns && v != w && !s.conns[v].gone && v !in s.agg.buffer
    && w in f.conns && v in f.conns && f.conns.Keys == s.conns.Keys && f.conns[v] == s.conns[v]
    && |f.fired| == |s.fired| + 1 && f.fired[|s.fired|].Keys == s.agg.buffer.Keys + {w}
    && f.conns[w].handler.Apply? && f.conns[w].handler.round == |s.fired| && v in f.conns[w].handler.sockets
  }

  lemma FiresWithout(cfg: Config, s: State, w: Id, norm: real, v: Id) returns (f: State)
    requires Enabled(s, Submit(w, norm)) && LeftOut(cfg, s, w, norm, v)
    ensures f == AfterSubmit(cfg, s, w, norm) && FiredWithout(s, f, w, v)
  {
    SubmitShape(cfg, s, w, norm);
    f := AfterSubmit(cfg, s, w, norm);
    hide AfterSubmit, SubmittedTo, Fires;
    TakenWithout(s, f, w, v);
  }

  lemma TakenWithout(s: State, f: State, w: Id, v: Id)
    requires SubmittedTo(s, f, w, true)
    requires v in s.conns && v != w && v in s.agg.sockets && !s.conns[v].gone && v !in s.agg.buffer
    ensures FiredWithout(s, f, w, v)
  {
  }

  /** A round that leaves out a registered worker whose client is there gets its ACK to it. */
  lemma LeftOutMisled(cfg: Config, s: State, w: Id, norm: real, v: Id) returns (t: State)
    requires Enabled(s, Submit(w, norm)) && LeftOut(cfg, s, w, norm, v)
    ensures Run(cfg, AfterSubmit(cfg, s, w, norm), ToAckOf(w, v), t) && Misled(s, t, v)
  {
    hide Run, AfterSubmit, LeftOut, ToAckOf, Misled;
    var f := FiresWithout(cfg, s, w, norm, v);
    t := AckReaches(cfg, f, w, v);
    NotContributed(s, f, t, w, v);
  }

  lemma NotContributed(s: State, f: State, t: State, w: Id, v: Id)
    requires FiredWithout(s, f, w, v) && t.fired == f.fired
    requires t.conns.Keys == f.conns.Keys && t.conns[v].client == f.conns[v].client
    requires t.conns[v].gone == f.conns[v].gone
    requires |t.conns[v].s2c| == |f.conns[v].s2c| + 1 && t.conns[v].s2c[..|f.conns[v].s2c|] == f.conns[v].s2c
    requires Last(t.conns[v].s2c).Ack? && Last(t.conns[v].s2c).round == f.conns[w].handler.round
    ensures Misled(s, t, v)
  {
  }

  lemma MisledNotRouted(s: State, t: State, v: Id)
    requires Misled(s, t, v)
    ensures !Routed(t)
  {
    assert !Contributed(t, v, t.conns[v].s2c[|s.conns[v].s2c|].round);
  }

  lemma LeftOutUnsafe(cfg: Config, s: State, w: Id, norm: real, v: Id)
    requires Enabled(s, Submit(w, norm)) && LeftOut(cfg, s, w, norm, v)
    ensures !Safe(cfg, AfterSubmit(cfg, s, w, norm))
  {
    hide Run, AfterSubmit, LeftOut, Misled, Routed;
    var t := LeftOutMisled(cfg, s, w, norm, v);
    MisledNotRouted(s, t, v);
    assert NoSubmit(ToAckOf(w, v));
  }

  lemma UncoveredUnsafe(cfg: Config, s: State, e: Event)
    requires Enabled(s, e) && Safe(cfg, After(cfg, s, e))
    ensures CoversLive(cfg, s, e)
  {
    hide Safe, Fires, AfterSubmit;
    if e.Submit? && Fires(cfg, s, e.w, e.norm) {
      forall v | v in s.conns && v != e.w && v in s.agg.sockets && !s.conns[v].gone ensures v in s.agg.buffer {
        if v !in s.agg.buffer {
          LeftOutUnsafe(cfg, s, e.w, e.norm, v);
        }
      }
    }
  }

  lemma AcksAreSafe(cfg: Config, s: State)
    requires Kept(cfg, s) && AcksOk(s)
    ensures Safe(cfg, s)
  {
    hide Run, HandlersOk, StoreOk, RoundsOk, LedgerOk, Routed, ToRoute;
    forall fs, t | Run(cfg, s, fs, t) && NoSubmit(fs) ensures Routed(t) {
      AcksRun(cfg, s, fs, t);
    }
  }

  lemma {:induction false} SafeAlong(cfg: Config, s: State, es: seq<Event>, t: State)
    requires Kept(cfg, s) && Run(cfg, s, es, t)
    ensures AlwaysSafe(cfg, s, es) ==> CoversLiveAlways(cfg, s, es)
    ensures AcksOk(s) && CoversLiveAlways(cfg, s, es) ==> AlwaysSafe(cfg, s, es)
    decreases |es|
  {
    hide HandlersOk, StoreOk, RoundsOk, LedgerOk, AcksOk, After, Enabled, CoversLive, Safe;
    if es != [] {
      KeptStep(cfg, s, es[0]);
      SafeAlong(cfg, After(cfg, s, es[0]), es[1..], t);
      if AlwaysSafe(cfg, s, es) {
        UncoveredUnsafe(cfg, s, es[0]);
      }
      if AcksOk(s) && CoversLiveAlways(cfg, s, es) {
        AcksStep(cfg, s, es[0]);
      }
    }
    if AcksOk(s) {
      AcksAreSafe(cfg, s);
    }
  }

  /** ACKs exactly, in every mode, with crashes and with demotion: in a run no client can ever get an ACK of a
  round to which it did not contribute if and only if every submission that fired found the push of every other
  registered worker whose client was still there. */
  lemma RoutedExactly(cfg: Config, es: seq<Event>, t: State)
    requires Run(cfg, Init(cfg), es, t)
    ensures AlwaysSafe(cfg, Init(cfg), es) <==> CoversLiveAlways(cfg, Init(cfg), es)
  {
    hide HandlersOk, StoreOk, RoundsOk, LedgerOk, Run, AlwaysSafe, CoversLiveAlways;
    KeptInit(cfg);
    SafeAlong(cfg, Init(cfg), es, t);
  }

  /** What a left-out worker's client may read next. */
  function ToRead(w: Id, norm: real, v: Id): seq<Event> {
    [Submit(w, norm)] + (ToAckOf(w, v) + [Local(v, Receive)])
  }

  /** The assert of a left-out worker that is waiting for weights, or for a heartbeat's answer, and has not been sent
  them when the round is acknowledged can fail. */
  lemma LeftOutFails(cfg: Config, s: State, w: Id, norm: real, v: Id) returns (t: State)
    requires Enabled(s, Submit(w, norm)) && LeftOut(cfg, s, w, norm, v)
    requires (s.conns[v].client.AwaitWeights? || s.conns[v].client.AwaitBeat?) && s.conns[v].s2c == []
    ensures Run(cfg, s, ToRead(w, norm, v), t) && v in t.conns && t.conns[v].client == Failed
  {
    hide Run, LeftOut, AfterSubmit, ToAckOf, Misled;
    var u := LeftOutMisled(cfg, s, w, norm, v);
    t := ReadFails(cfg, s, u, v);
    JoinRead(cfg, s, AfterSubmit(cfg, s, w, norm), Submit(w, norm), ToAckOf(w, v), u, Local(v, Receive), t);
  }

  lemma JoinRead(cfg: Config, s: State, f: State, e: Event, es: seq<Event>, u: State, r: Event, t: State)
    requires Enabled(s, e) && f == After(cfg, s, e) && Run(cfg, f, es, u) && Enabled(u, r) && t == After(cfg, u, r)
    ensures Run(cfg, s, [e] + (es + [r]), t)
  {
    hide Run, Enabled, After;
    OneStep(cfg, u, r);
    RunJoin(cfg, f, es, u, [r], t);
    FirstStep(cfg, s, e, es + [r], t);
  }

  lemma ReadFails(cfg: Config, s: State, u: State, v: Id) returns (t: State)
    requires Misled(s, u, v) && (s.conns[v].client.AwaitWeights? || s.conns[v].client.AwaitBeat?)
    requires s.conns[v].s2c == []
    ensures Enabled(u, Local(v, Receive)) && t == After(cfg, u, Local(v, Receive)) && t.conns[v].client == Failed
  {
    t := After(cfg, u, Local(v, Receive));
  }
}
