/** When the assert of a client can fail: not as long as every round reaches the registered workers that are there; and
for a worker that is left out, exactly in which states it can before the next submission. */
module Asserts {
  import opened Workers
  import opened Params
  import opened Protocol
  import opened Conservation
  import opened Barrier
  import opened Runs
  import opened Acks
  import opened Alignment
  import S = Store

  // ---------- no assert fails while everybody who is there is reached ----------

  /** No assert of any client has failed, and no push has been overwritten in the buffer. */
  predicate Faultless(s: State) {
    s.replaced == {} && forall w :: w in s.conns ==> s.conns[w].client != Failed
  }

  lemma FaultlessMove(cfg: Config, s: State, w: Id, m: Move)
    requires OrderlyOk(s) && Enabled(s, Local(w, m)) && Faultless(s)
    ensures Faultless(After(cfg, s, Local(w, m)))
  {
    OrderlyAt(s, w);
    MoveOrderly(s.conns[w], m, Last(s.hist), |s.hist| - 1, w in s.agg.buffer, Owed(s, w));
    hide Moved, OrderlyOk, Orderly;
  }

  lemma FaultlessOther(cfg: Config, s: State, e: Event)
    requires Enabled(s, e) && !e.Local? && !e.Submit? && Faultless(s)
    ensures Faultless(After(cfg, s, e))
  {
    hide S.Apply;
  }

  lemma FaultlessSubmit(s: State, t: State, w: Id, fires: bool)
    requires SubmittedTo(s, t, w, fires) && t.replaced == s.replaced && Faultless(s)
    ensures Faultless(t)
  {
  }

  lemma FaultlessStep(cfg: Config, s: State, e: Event)
    requires HandlersOk(s) && OrderlyOk(s) && Enabled(s, e) && CoversLive(cfg, s, e) && Faultless(s)
    ensures Faultless(After(cfg, s, e))
  {
    if e.Local? {
      FaultlessMove(cfg, s, e.w, e.move);
    } else if e.Submit? {
      LiveSubmit(cfg, s, e.w, e.norm);
      SubmitShape(cfg, s, e.w, e.norm);
      hide AfterSubmit, SubmittedTo, HandlersOk, OrderlyOk, CoversLive, Faultless;
      FaultlessSubmit(s, After(cfg, s, e), e.w, Fires(cfg, s, e.w, e.norm));
    } else {
      FaultlessOther(cfg, s, e);
    }
  }

  lemma OrderlyAt(s: State, v: Id)
    requires OrderlyOk(s) && v in s.conns
    ensures Orderly(s.conns[v], v in s.agg.buffer, Owed(s, v))
  {
    hide Orderly, Owed;
  }

  lemma {:induction false} FaultlessRun(cfg: Config, s: State, es: seq<Event>, t: State)
    requires Kept(cfg, s) && OrderlyOk(s) && Faultless(s) && Run(cfg, s, es, t) && CoversLiveAlways(cfg, s, es)
    ensures Faultless(t)
    decreases |es|
  {
    if es != [] {
      hide HandlersOk, StoreOk, RoundsOk, LedgerOk, OrderlyOk, After, Enabled, CoversLive, Faultless;
      KeptStep(cfg, s, es[0]);
      OrderlyStep(cfg, s, es[0]);
      FaultlessStep(cfg, s, es[0]);
      FaultlessRun(cfg, After(cfg, s, es[0]), es[1..], t);
    }
  }

  lemma OrderlyAlways(cfg: Config, es: seq<Event>, t: State)
    requires Run(cfg, Init(cfg), es, t) && CoversLiveAlways(cfg, Init(cfg), es)
    ensures Kept(cfg, t) && OrderlyOk(t)
  {
    hide Kept, OrderlyOk, Run, CoversLiveAlways;
    KeptInit(cfg);
    OrderlyInit(cfg);
    OrderlyRun(cfg, Init(cfg), es, t);
  }

  /** Every synchronous run without timeout demotion is of this kind. */
  lemma SynchronousReaches(cfg: Config, es: seq<Event>, t: State)
    requires Synchronous(cfg) && QuietRun(cfg, Init(cfg), es, t)
    ensures Run(cfg, Init(cfg), es, t) && CoversLiveAlways(cfg, Init(cfg), es) && Kept(cfg, t) && AliveOk(t)
  {
    hide Kept, Run, QuietRun, CoveringRun, CoversLiveAlways, AliveOk;
    KeptInit(cfg);
    SynchronousCovers(cfg, es, t);
    CoveringReaches(cfg, Init(cfg), es, t);
    QuietIsRun(cfg, Init(cfg), es, t);
    OrderlyAlways(cfg, es, t);
  }

  /** No assert of any client fails, and no push is overwritten, in a run of any mode, with crashes and with demotion,
  in which every submission that fires finds the push of every other registered worker whose client is there. */
  lemma NoAssertFails(cfg: Config, es: seq<Event>, t: State)
    requires Run(cfg, Init(cfg), es, t) && CoversLiveAlways(cfg, Init(cfg), es)
    ensures t.replaced == {} && forall w :: w in t.conns ==> t.conns[w].client != Failed
  {
    hide Kept, OrderlyOk, Run, CoversLiveAlways;
    KeptInit(cfg);
    OrderlyInit(cfg);
    FaultlessRun(cfg, Init(cfg), es, t);
  }

  /** A worker whose assert has failed is gone: it neither sends nor reads any more. In every run. */
  ghost predicate FailedGone(s: State) {
    forall w :: w in s.conns && s.conns[w].client.Failed? ==> s.conns[w].gone
  }

  lemma MoveFails(c: Conn, m: Move, store: S.Store, version: nat)
    requires CanMove(c, m) && (c.client.Failed? ==> c.gone)
    ensures var d := Moved(c, m, store, version); d.client.Failed? ==> d.gone
  {
    hide Sub;
  }

  lemma FailedGoneStep(cfg: Config, s: State, e: Event)
    requires Enabled(s, e) && FailedGone(s)
    ensures FailedGone(After(cfg, s, e))
  {
    if e.Submit? {
      SubmitShape(cfg, s, e.w, e.norm);
      hide AfterSubmit, Fires;
    } else if e.Local? {
      MoveFails(s.conns[e.w], e.move, Last(s.hist), |s.hist| - 1);
      hide Moved, CanMove;
    } else {
      hide S.Apply;
    }
  }

  lemma {:induction false} FailedIsGone(cfg: Config, s: State, es: seq<Event>, t: State)
    requires FailedGone(s) && Run(cfg, s, es, t)
    ensures FailedGone(t)
    decreases |es|
  {
    if es != [] {
      hide After, Enabled, FailedGone;
      FailedGoneStep(cfg, s, es[0]);
      FailedIsGone(cfg, After(cfg, s, es[0]), es[1..], t);
    }
  }

  lemma FailedStops(cfg: Config, es: seq<Event>, t: State, w: Id)
    requires Run(cfg, Init(cfg), es, t) && w in t.conns && t.conns[w].client.Failed?
    ensures t.conns[w].gone && forall m :: OfClient(m) ==> !CanMove(t.conns[w], m)
  {
    hide Run;
    FailedIsGone(cfg, Init(cfg), es, t);
  }

  /** And in such runs the replies stay aligned: a client that is there has at most one request and one reply under way,
  the reply is the one it awaits, and its submissions are its ACKs, plus one while its push is buffered, plus one while
  some handler has its ACK yet to send; at most one handler has. */
  lemma RepliesStayAligned(cfg: Config, es: seq<Event>, t: State, w: Id)
    requires Run(cfg, Init(cfg), es, t) && CoversLiveAlways(cfg, Init(cfg), es) && w in t.conns && !t.conns[w].gone
    ensures var c := t.conns[w];
            && |c.c2s| <= 1 && |c.s2c| <= 1
            && (c.s2c != [] ==> Awaiting(c.client) && Received(c.client, c.s2c[0]) != Failed)
            && c.submits == c.acks + (if w in t.agg.buffer then 1 else 0) + (if Owed(t, w) then 1 else 0)
            && (w in t.agg.buffer ==> c.client.AwaitAck? && !Owed(t, w))
    ensures forall f, g :: Acknowledges(t, f, w) && Acknowledges(t, g, w) ==> f == g
  {
    hide Kept, Run, CoversLiveAlways, Owed;
    OrderlyAlways(cfg, es, t);
    OrderlyAt(t, w);
    hide AllOrderly;
  }

  // ---------- a left-out worker whose assert can fail ----------

  /** v's assert can fail before the next submission. */
  ghost predicate CanFail(cfg: Config, s: State, v: Id) {
    exists es, t :: Run(cfg, s, es, t) && NoSubmit(es) && v in t.conns && t.conns[v].client == Failed
  }

  lemma FailsLater(cfg: Config, s: State, es: seq<Event>, t: State, v: Id)
    requires Run(cfg, s, es, t) && NoSubmit(es) && CanFail(cfg, t, v)
    ensures CanFail(cfg, s, v)
  {
    hide Run;
    var fs, u :| Run(cfg, t, fs, u) && NoSubmit(fs) && v in u.conns && u.conns[v].client == Failed;
    RunJoin(cfg, s, es, t, fs, u);
  }

  lemma FailsAfter(cfg: Config, s: State, e: Event, v: Id)
    requires Enabled(s, e) && !e.Submit? && CanFail(cfg, After(cfg, s, e), v)
    ensures CanFail(cfg, s, v)
  {
    hide Run, CanFail, Enabled, After;
    OneStep(cfg, s, e);
    FailsLater(cfg, s, [e], After(cfg, s, e), v);
  }

  /** w has just fired a round whose ACK will go to v, and v's client is there. */
  predicate Threatened(s: State, w: Id, v: Id) {
    && w in s.conns && v in s.conns && v != w && !s.conns[v].gone
    && s.conns[w].handler.Apply? && v in s.conns[w].handler.sockets
  }

  /** Waiting for something else with nothing to read: the ACK is read. */
  lemma WaitingFails(cfg: Config, s: State, w: Id, v: Id)
    requires Threatened(s, w, v) && s.conns[v].s2c == []
    requires s.conns[v].client.AwaitWeights? || s.conns[v].client.AwaitBeat?
    ensures CanFail(cfg, s, v)
  {
    hide Run;
    var t := AckReaches(cfg, s, w, v);
    ReadingFails(cfg, t, v);
    hide CanFail;
    FailsLater(cfg, s, ToAckOf(w, v), t, v);
  }

  lemma ReadingFails(cfg: Config, t: State, v: Id)
    requires v in t.conns && !t.conns[v].gone && t.conns[v].s2c != [] && t.conns[v].s2c[0].Ack?
    requires t.conns[v].client.AwaitWeights? || t.conns[v].client.AwaitBeat?
    ensures CanFail(cfg, t, v)
  {
    var e := Local(v, Receive);
    var u := After(cfg, t, e);
    assert u.conns[v].client == Failed;
    OneStep(cfg, t, e);
    hide Run;
    assert NoSubmit([e]);
  }

  /** Between requests: it asks for weights first. */
  lemma AckedFails(cfg: Config, s: State, w: Id, v: Id)
    requires Threatened(s, w, v) && s.conns[v].s2c == [] && s.conns[v].client.Acked?
    ensures CanFail(cfg, s, v)
  {
    hide CanFail;
    var e := Local(v, SendPull);
    WaitingFails(cfg, After(cfg, s, e), w, v);
    FailsAfter(cfg, s, e, v);
  }

  /** With the reply it awaits to be read: it reads it first. */
  lemma ReadyToReadFails(cfg: Config, s: State, w: Id, v: Id)
    requires Threatened(s, w, v) && |s.conns[v].s2c| == 1 && Awaiting(s.conns[v].client)
    requires Received(s.conns[v].client, s.conns[v].s2c[0]).Acked?
    ensures CanFail(cfg, s, v)
  {
    hide CanFail;
    var e := Local(v, Receive);
    AckedFails(cfg, After(cfg, s, e), w, v);
    FailsAfter(cfg, s, e, v);
  }

  /** Owed the ACK of its own push by another handler: that one is sent first. */
  lemma OwedFails(cfg: Config, s: State, w: Id, v: Id, g: Id)
    requires Threatened(s, w, v) && s.conns[v].s2c == [] && s.conns[v].client.AwaitAck?
    requires g != w && Acknowledges(s, g, v)
    ensures CanFail(cfg, s, v)
    decreases if s.conns[g].handler.Apply? then 2 else if s.conns[g].handler.ReadStep? then 1 else 0
  {
    hide CanFail, S.Apply;
    var h := s.conns[g].handler;
    if h.Apply? {
      OwedFails(cfg, AfterApply(cfg, s, g), w, v, g);
      FailsAfter(cfg, s, ApplyRound(g), v);
    } else if h.ReadStep? {
      OwedFails(cfg, After(cfg, s, Local(g, FetchStep)), w, v, g);
      FailsAfter(cfg, s, Local(g, FetchStep), v);
    } else {
      ReadyToReadFails(cfg, AfterAck(s, g, v), w, v);
      FailsAfter(cfg, s, SendAck(g, v), v);
    }
  }

  /** The states in which a left-out worker is in danger: between requests, waiting for a heartbeat's answer, waiting
  for
  weights that have not been sent, or waiting for an ACK that has been sent or is about to be. */
  ghost predicate Exposed(s: State, v: Id)
    requires v in s.conns
  {
    var c := s.conns[v];
    || c.client.Acked? || c.client.AwaitBeat? || (c.client.AwaitWeights? && c.s2c == [])
    || (c.client.AwaitAck? && (c.s2c != [] || Owed(s, v)))
  }

  /** f is s after w has fired a round without v: the connections besides w's are the same. */
  lemma FiredThreatens(cfg: Config, s: State, w: Id, norm: real, v: Id) returns (f: State)
    requires Enabled(s, Submit(w, norm)) && LeftOut(cfg, s, w, norm, v)
    ensures f == AfterSubmit(cfg, s, w, norm) && Threatened(f, w, v) && !s.conns[w].handler.Acking?
    ensures w in s.conns && f.conns == s.conns[w := f.conns[w]] && ToAck(s.conns[w].handler) == {}
  {
    SubmitShape(cfg, s, w, norm);
    hide AfterSubmit;
    f := AfterSubmit(cfg, s, w, norm);
  }

  lemma ExposedFails(cfg: Config, s: State, f: State, w: Id, v: Id)
    requires OrderlyOk(s) && v in s.conns && !s.conns[v].gone && v !in s.agg.buffer && Exposed(s, v)
    requires Threatened(f, w, v) && w in s.conns && f.conns == s.conns[w := f.conns[w]]
    requires ToAck(s.conns[w].handler) == {}
    ensures CanFail(cfg, f, v)
  {
    OrderlyAt(s, v);
    hide CanFail, OrderlyOk;
    var c := s.conns[v];
    if c.client.Acked? {
      AckedFails(cfg, f, w, v);
    } else if c.s2c != [] {
      ReadyToReadFails(cfg, f, w, v);
    } else if c.client.AwaitAck? {
      var g :| Acknowledges(s, g, v);
      assert g != w && Acknowledges(f, g, v);
      OwedFails(cfg, f, w, v, g);
    } else {
      WaitingFails(cfg, f, w, v);
    }
  }

  // ---------- a left-out worker whose assert cannot fail ----------

  predicate PushFirst(c: Conn) {
    (c.c2s != [] && c.c2s[0].Push? && c.handler == Recv(true)) || (c.handler.Dispatch? && c.handler.msg.Push?)
  }

  /** The worker reads the stray ACK, if at all, for its push, which is then in the way of every other request.
  `coming`:
  the stray ACK has not been sent yet. */
  predicate Harmless(c: Conn, coming: bool) {
    if c.gone then c.client != Failed
    else match c.client
      case AwaitWeights =>
        || (c.handler == Recv(true) && c.c2s == [] && |c.s2c| == 1 && c.s2c[0].Weights?)
        || (c.handler == Recv(true) && c.c2s == [] && |c.s2c| == 2 && c.s2c[0].Weights? && c.s2c[1].Ack? && !coming)
        || (PushFirst(c) && c.s2c == [] && !coming)
      case Ready(_) =>
        c.handler == Recv(true) && c.c2s == [] && (c.s2c == [] || (|c.s2c| == 1 && c.s2c[0].Ack? && !coming))
      case AwaitAck => PushFirst(c) && (c.s2c == [] || (|c.s2c| == 1 && c.s2c[0].Ack? && !coming))
      case Acked => PushFirst(c) && c.s2c == [] && !coming
      case AwaitBeat => PushFirst(c) && c.s2c == [] && !coming
      case _ => false
  }

  lemma MoveHarmless(c: Conn, m: Move, store: S.Store, version: nat, coming: bool)
    requires CanMove(c, m) && Harmless(c, coming)
    ensures Harmless(Moved(c, m, store, version), coming)
  {
    hide Sub;
  }

  /** Only w still has to acknowledge v, and v is harmless. */
  ghost predicate HarmlessAt(s: State, w: Id, v: Id) {
    && v in s.conns && (forall g :: Acknowledges(s, g, v) ==> g == w)
    && Harmless(s.conns[v], Acknowledges(s, w, v))
  }

  /** Without submissions nobody gets more to acknowledge. */
  lemma AcksShrink(cfg: Config, s: State, e: Event)
    requires Enabled(s, e) && !e.Submit?
    ensures forall g, v :: Acknowledges(After(cfg, s, e), g, v) ==> Acknowledges(s, g, v)
  {
    hide S.Apply;
    if e.Local? {
      MovePhase(s.conns[e.w], e.move, Last(s.hist), |s.hist| - 1);
      hide Moved;
    }
  }

  lemma FewerComing(c: Conn, coming: bool, still: bool)
    requires Harmless(c, coming) && (still ==> coming)
    ensures Harmless(c, still)
  {
  }

  lemma AckHarmless(c: Conn, d: Conn, step: nat, round: nat)
    requires Harmless(c, true)
    requires d == c.(handler := d.handler, s2c := c.s2c + [Ack(step, round)], acks := c.acks + 1)
    requires d.handler == c.handler || c.gone
    ensures Harmless(d, false)
  {
  }

  lemma HarmlessStep(cfg: Config, s: State, e: Event, w: Id, v: Id)
    requires Enabled(s, e) && !e.Submit? && HarmlessAt(s, w, v) && w != v
    ensures HarmlessAt(After(cfg, s, e), w, v)
  {
    var t := After(cfg, s, e);
    AcksShrink(cfg, s, e);
    if e.SendAck? && e.to == v {
      assert Acknowledges(s, e.w, v);
      AckHarmless(s.conns[v], t.conns[v], s.conns[w].handler.step, s.conns[w].handler.round);
      assert !Acknowledges(t, w, v);
    } else {
      hide Acknowledges, S.Apply;
      SameHarmless(cfg, s, e, v, Acknowledges(s, w, v));
      FewerComing(t.conns[v], Acknowledges(s, w, v), Acknowledges(t, w, v));
    }
  }

  lemma SameHarmless(cfg: Config, s: State, e: Event, v: Id, coming: bool)
    requires Enabled(s, e) && !e.Submit? && !(e.SendAck? && e.to == v) && v in s.conns && Harmless(s.conns[v], coming)
    ensures v in After(cfg, s, e).conns && Harmless(After(cfg, s, e).conns[v], coming)
  {
    hide S.Apply;
    if e.Local? {
      if e.w == v {
        MoveHarmless(s.conns[v], e.move, Last(s.hist), |s.hist| - 1, coming);
      }
      hide Moved, Harmless;
    }
  }

  lemma {:induction false} HarmlessRun(cfg: Config, s: State, es: seq<Event>, t: State, w: Id, v: Id)
    requires Run(cfg, s, es, t) && NoSubmit(es) && HarmlessAt(s, w, v) && w != v
    ensures HarmlessAt(t, w, v)
    decreases |es|
  {
    if es != [] {
      hide After, Enabled, HarmlessAt;
      HarmlessStep(cfg, s, es[0], w, v);
      HarmlessRun(cfg, After(cfg, s, es[0]), es[1..], t, w, v);
    }
  }

  lemma UnexposedHarmless(s: State, f: State, w: Id, v: Id)
    requires HandlersOk(s) && OrderlyOk(s) && v in s.conns && !s.conns[v].gone && v !in s.agg.buffer
    requires v in s.agg.sockets
    requires !Exposed(s, v)
    requires Threatened(f, w, v) && w in s.conns && f.conns == s.conns[w := f.conns[w]]
    requires ToAck(s.conns[w].handler) == {}
    ensures HarmlessAt(f, w, v)
  {
    OrderlyAt(s, v);
    hide OrderlyOk;
    assert !Owed(s, v);
    forall g | Acknowledges(f, g, v) ensures g == w {
      assert g != w ==> Acknowledges(s, g, v);
    }
  }

  lemma UnexposedSafe(cfg: Config, f: State, w: Id, v: Id)
    requires HarmlessAt(f, w, v) && w != v
    ensures !CanFail(cfg, f, v)
  {
    forall es, t | Run(cfg, f, es, t) && NoSubmit(es) && v in t.conns ensures t.conns[v].client != Failed {
      hide Run;
      HarmlessRun(cfg, f, es, t, w, v);
    }
  }

  /** The first round that leaves out a worker that is there, exactly: before the next submission its assert can fail if
  and only if it was exposed when the round fired. */
  lemma LeftOutFailsExactly(cfg: Config, es: seq<Event>, s: State, w: Id, norm: real, v: Id)
    requires Run(cfg, Init(cfg), es, s) && CoversLiveAlways(cfg, Init(cfg), es)
    requires Enabled(s, Submit(w, norm)) && LeftOut(cfg, s, w, norm, v)
    ensures CanFail(cfg, AfterSubmit(cfg, s, w, norm), v) <==> Exposed(s, v)
  {
    OrderlyAlways(cfg, es, s);
    var f := FiredThreatens(cfg, s, w, norm, v);
    hide Run, CoversLiveAlways, AfterSubmit, HandlersOk, StoreOk, RoundsOk, LedgerOk, OrderlyOk, Threatened, Fires;
    hide Exposed;
    if Exposed(s, v) {
      ExposedFails(cfg, s, f, w, v);
    } else {
      UnexposedHarmless(s, f, w, v);
      UnexposedSafe(cfg, f, w, v);
    }
  }
}
