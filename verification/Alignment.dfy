/** Requests and replies of the clients that are there, in every mode: as long as every round that fires reaches the
registered workers whose clients are there, nothing gets out of step for them, whatever happens to the others. */
module Alignment {
  import opened Workers
  import opened Params
  import opened Protocol
  import opened Conservation
  import opened Barrier
  import opened Acks
  import S = Store

  predicate Acknowledges(s: State, f: Id, v: Id) {
    f in s.conns && v in ToAck(s.conns[f].handler)
  }

  /** Some handler has an ACK for v yet to send. */
  ghost predicate Owed(s: State, v: Id) {
    exists f :: Acknowledges(s, f, v)
  }

  /** A connection whose client is there: where its request and its reply can be, and what it has been sent. */
  predicate LiveConn(c: Conn, inBuf: bool, owed: bool) {
    && Aligned(c, inBuf) && (Pending(c, inBuf) <==> owed)
    && c.submits == c.acks + (if inBuf then 1 else 0) + (if owed then 1 else 0)
  }

  predicate Carries(h: Handler) {
    (h.RegBeat? || h.RegSock? || h.Dispatch?) && h.msg.Push?
  }

  /** Any connection has at most one request under way, and a push only if none of its is buffered. */
  predicate OneRequest(c: Conn, inBuf: bool) {
    && |c.c2s| <= 1
    && (c.c2s != [] && c.c2s[0].Push? ==> !inBuf)
    && (Carries(c.handler) ==> c.c2s == [] && !inBuf)
  }

  predicate Orderly(c: Conn, inBuf: bool, owed: bool) {
    OneRequest(c, inBuf) && (!c.gone ==> LiveConn(c, inBuf, owed))
  }

  /** No client that is there is owed two ACKs, and ACKs are for connections. */
  ghost predicate OwedOnce(s: State) {
    && (forall f, v :: Acknowledges(s, f, v) ==> v in s.conns)
    && (forall f, g, v :: Acknowledges(s, f, v) && Acknowledges(s, g, v) ==> f == g || s.conns[v].gone)
  }

  ghost predicate AllOrderly(s: State) {
    forall v :: v in s.conns ==> Orderly(s.conns[v], v in s.agg.buffer, Owed(s, v))
  }

  ghost predicate OrderlyOk(s: State) {
    OwedOnce(s) && AllOrderly(s)
  }

  // ---------- steps that change one connection ----------

  /** Only connection w changes, and what it has to acknowledge stays the same. */
  ghost predicate OneLive(s: State, t: State, w: Id) {
    && w in t.conns && t.conns == s.conns[w := t.conns[w]]
    && ToAck(t.conns[w].handler) == (if w in s.conns then ToAck(s.conns[w].handler) else {})
    && (w in s.conns && s.conns[w].gone ==> t.conns[w].gone)
  }

  lemma OneLiveOwes(s: State, t: State, w: Id)
    requires OneLive(s, t, w) && OwedOnce(s)
    ensures OwedOnce(t) && forall v :: Owed(t, v) <==> Owed(s, v)
  {
    assert forall f, v :: Acknowledges(t, f, v) <==> Acknowledges(s, f, v);
  }

  lemma OneLiveKeeps(s: State, t: State, w: Id)
    requires OrderlyOk(s) && OneLive(s, t, w) && t.agg.buffer == s.agg.buffer
    requires Orderly(t.conns[w], w in s.agg.buffer, Owed(s, w))
    ensures OrderlyOk(t)
  {
    OneLiveOwes(s, t, w);
    hide Orderly, Owed, OwedOnce;
  }

  lemma ClientMoveOrderly(c: Conn, m: Move, store: S.Store, version: nat, inBuf: bool, owed: bool)
    requires CanMove(c, m) && OfClient(m) && Orderly(c, inBuf, owed)
    ensures var d := Moved(c, m, store, version);
            Orderly(d, inBuf, owed) && (c.client != Failed ==> d.client != Failed)
  {
    hide Sub;
  }

  lemma HandlerMoveOrderly(c: Conn, m: Move, store: S.Store, version: nat, inBuf: bool, owed: bool)
    requires CanMove(c, m) && !OfClient(m) && Orderly(c, inBuf, owed)
    ensures var d := Moved(c, m, store, version); Orderly(d, inBuf, owed) && d.client == c.client
  {
  }

  lemma MoveOrderly(c: Conn, m: Move, store: S.Store, version: nat, inBuf: bool, owed: bool)
    requires CanMove(c, m) && Orderly(c, inBuf, owed)
    ensures var d := Moved(c, m, store, version);
            Orderly(d, inBuf, owed) && (c.client != Failed ==> d.client != Failed)
  {
    hide Orderly, Moved, CanMove;
    if OfClient(m) {
      ClientMoveOrderly(c, m, store, version, inBuf, owed);
    } else {
      HandlerMoveOrderly(c, m, store, version, inBuf, owed);
    }
  }

  lemma LiveMove(cfg: Config, s: State, w: Id, m: Move)
    requires OrderlyOk(s) && Enabled(s, Local(w, m))
    ensures OrderlyOk(After(cfg, s, Local(w, m)))
  {
    hide Orderly, Owed, OwedOnce;
    MoveOrderly(s.conns[w], m, Last(s.hist), |s.hist| - 1, w in s.agg.buffer, Owed(s, w));
    MoveRouted(s.conns[w], m, Last(s.hist), |s.hist| - 1);
    hide Moved, AllOrderly;
    OneLiveKeeps(s, After(cfg, s, Local(w, m)), w);
  }

  /** The steps of a handler that change its own connection's handler, not the buffer and not a stream. */
  predicate Internal(e: Event) {
    e.Announce? || e.Join? || e.ApplyRound? || e.CheckSave? || e.WriteSave? || e.AnswerBeat? || e.Bury?
  }

  /** What such a step does to its handler. */
  ghost predicate Progressed(c: Conn, d: Conn, rounds: nat) {
    || (c.handler.RegBeat? && d == c.(handler := RegSock(c.handler.msg)))
    || (c.handler.RegSock? && d == c.(handler := Dispatch(c.handler.msg), joined := rounds))
    || (c.handler == Dispatch(Beat) && d == c.(handler := ReplyBeat))
    || (c.handler.Apply? && d == c.(handler := ReadStep(c.handler.round, c.handler.sockets)))
    || ((c.handler.Check? || c.handler.Save?) && d == c.(handler := Recv(true)))
    || (c.handler.Check? && d == c.(handler := Save(c.handler.round, c.handler.step)))
    || (c.gone && Dying(c.handler) && d == c.(handler := Unreg))
  }

  lemma InternalShape(cfg: Config, s: State, e: Event)
    requires HandlersOk(s) && Enabled(s, e) && Internal(e)
    ensures var t := After(cfg, s, e);
            && e.w in s.conns && e.w in t.conns && t.conns == s.conns[e.w := t.conns[e.w]]
            && t.agg.buffer == s.agg.buffer && Progressed(s.conns[e.w], t.conns[e.w], |s.fired|)
  {
    hide S.Apply;
  }

  lemma HandlerOrderly(c: Conn, d: Conn, inBuf: bool, owed: bool, rounds: nat)
    requires Orderly(c, inBuf, owed) && Progressed(c, d, rounds)
    ensures Orderly(d, inBuf, owed) && ToAck(d.handler) == ToAck(c.handler) && d.gone == c.gone
  {
  }

  lemma LiveInternal(cfg: Config, s: State, e: Event)
    requires HandlersOk(s) && OrderlyOk(s) && Enabled(s, e) && Internal(e)
    ensures OrderlyOk(After(cfg, s, e))
  {
    InternalShape(cfg, s, e);
    hide After, Orderly, Owed, OwedOnce, Progressed;
    var t := After(cfg, s, e);
    HandlerOrderly(s.conns[e.w], t.conns[e.w], e.w in s.agg.buffer, Owed(s, e.w), |s.fired|);
    OneLiveKeeps(s, t, e.w);
  }

  lemma LiveConnect(cfg: Config, s: State, w: Id)
    requires HandlersOk(s) && OrderlyOk(s) && Enabled(s, Connect(w))
    ensures OrderlyOk(After(cfg, s, Connect(w)))
  {
    assert !Owed(s, w);
    assert Orderly(FRESH_CONN, w in s.agg.buffer, Owed(s, w));
    hide Orderly, Owed, HandlersOk, OwedOnce, AllOrderly;
    OneLiveKeeps(s, After(cfg, s, Connect(w)), w);
  }

  /** Only the buffer changes, by connection w. */
  lemma BufferKeeps(s: State, t: State, w: Id)
    requires OwedOnce(s) && t.conns == s.conns && w in s.conns
    requires forall v :: v in s.conns && v != w ==> Orderly(s.conns[v], v in s.agg.buffer, Owed(s, v))
    requires forall v :: v in s.conns && v != w ==> (v in t.agg.buffer <==> v in s.agg.buffer)
    requires Orderly(t.conns[w], w in t.agg.buffer, Owed(s, w))
    ensures OrderlyOk(t)
  {
    assert OneLive(s, t, w);
    OneLiveOwes(s, t, w);
    hide Orderly, Owed, OwedOnce;
  }

  lemma LiveLeave(s: State, w: Id)
    requires HandlersOk(s) && OrderlyOk(s) && Enabled(s, Leave(w))
    ensures OrderlyOk(AfterLeave(s, w))
  {
    LeaverOrderly(s, w);
    var t := AfterLeave(s, w);
    var u := With(s, w, s.conns[w].(handler := Done));
    hide Orderly, Owed, OwedOnce, HandlersOk, AllOrderly;
    OneLiveKeeps(s, u, w);
    OneLiveOwes(s, u, w);
    LeaveBuffer(s, u, t, w);
  }

  lemma LeaverOrderly(s: State, w: Id)
    requires HandlersOk(s) && AllOrderly(s) && Enabled(s, Leave(w))
    ensures var d := s.conns[w].(handler := Done);
            OneLive(s, With(s, w, d), w) && Orderly(d, w in s.agg.buffer, Owed(s, w)) && Orderly(d, false, Owed(s, w))
  {
    hide Owed;
  }

  lemma LeaveBuffer(s: State, u: State, t: State, w: Id)
    requires w in s.conns && u == With(s, w, s.conns[w].(handler := Done)) && Enabled(s, Leave(w))
    requires t == AfterLeave(s, w)
    requires OrderlyOk(u) && Orderly(u.conns[w], false, Owed(u, w))
    ensures OrderlyOk(t)
  {
    hide Orderly, Owed, OwedOnce;
    BufferKeeps(u, t, w);
  }

  lemma LiveScan(cfg: Config, s: State, e: Event)
    requires OrderlyOk(s) && e.Scan?
    ensures OrderlyOk(After(cfg, s, e))
  {
    hide Orderly;
    var t := After(cfg, s, e);
    assert forall f, v :: Acknowledges(t, f, v) <==> Acknowledges(s, f, v);
  }

  // ---------- a submission ----------

  lemma WaitingOrderly(c: Conn, d: Conn, owed: bool)
    requires c.handler.Dispatch? && c.handler.msg.Push? && d == c.(submits := c.submits + 1, handler := Recv(true))
    requires Orderly(c, false, owed)
    ensures Orderly(d, true, owed)
  {
  }

  /** A push about to be submitted does not overwrite one. */
  lemma NothingOverwritten(s: State, w: Id)
    requires OrderlyOk(s) && w in s.conns && s.conns[w].handler.Dispatch? && s.conns[w].handler.msg.Push?
    ensures w !in s.agg.buffer
  {
  }

  lemma LiveWaits(s: State, t: State, w: Id)
    requires OrderlyOk(s) && SubmittedTo(s, t, w, false)
    ensures OrderlyOk(t)
  {
    NothingOverwritten(s, w);
    hide Orderly, Owed, OwedOnce;
    WaitingOrderly(s.conns[w], t.conns[w], Owed(s, w));
    var u := t.(agg := s.agg);
    OneLiveOwes(s, u, w);
    BufferKeeps(u, t, w);
  }

  /** The submission fires: the push of the connection, waiting or just submitted, is taken, and it is owed an ACK if
  and only if it is registered. */
  lemma TakenOrderly(c: Conn, d: Conn, own: bool, inBuf: bool, owed: bool, registered: bool)
    requires Orderly(c, inBuf, owed) && (registered <==> Joined(c.handler))
    requires if own
             then c.handler.Dispatch? && c.handler.msg.Push? && d.handler.Apply?
                  && d == c.(submits := c.submits + 1, handler := d.handler)
             else d == c && (registered && !c.gone ==> inBuf) && (inBuf ==> registered)
    ensures OneRequest(d, false) && (!d.gone ==> !owed && LiveConn(d, false, registered))
  {
  }

  /** w fires with everybody's push who is registered and there. */
  ghost predicate FiredByAll(s: State, t: State, w: Id) {
    && SubmittedTo(s, t, w, true)
    && forall v :: v in s.conns && v in s.agg.sockets && v != w && !s.conns[v].gone ==> v in s.agg.buffer
  }

  lemma FireOwes(s: State, t: State, w: Id)
    requires HandlersOk(s) && FiredByAll(s, t, w)
    ensures forall f, v :: Acknowledges(t, f, v) <==> if f == w then v in s.agg.sockets else Acknowledges(s, f, v)
    ensures forall v :: Owed(t, v) <==> Owed(s, v) || v in s.agg.sockets
  {
    forall f, v ensures Acknowledges(t, f, v) <==> if f == w then v in s.agg.sockets else Acknowledges(s, f, v) {
    }
    assert !exists v :: Acknowledges(s, w, v);
    forall v ensures Owed(t, v) <==> Owed(s, v) || v in s.agg.sockets {
      if v in s.agg.sockets {
        assert Acknowledges(t, w, v);
      } else if Owed(s, v) {
        var f :| Acknowledges(s, f, v);
        assert Acknowledges(t, f, v);
      }
    }
  }

  lemma FireOrderly(s: State, t: State, w: Id, v: Id)
    requires HandlersOk(s) && OrderlyOk(s) && FiredByAll(s, t, w) && v in s.conns
    ensures OneRequest(t.conns[v], false)
    ensures !t.conns[v].gone ==> !Owed(s, v) && LiveConn(t.conns[v], false, v in s.agg.sockets)
  {
    hide Orderly, LiveConn, OneRequest, Owed, OwedOnce;
    TakenOrderly(s.conns[v], t.conns[v], v == w, v in s.agg.buffer, Owed(s, v), v in s.agg.sockets);
  }

  lemma LiveFires(s: State, t: State, w: Id)
    requires HandlersOk(s) && OrderlyOk(s) && FiredByAll(s, t, w)
    ensures OrderlyOk(t)
  {
    FireOwes(s, t, w);
    forall v | v in t.conns
      ensures Orderly(t.conns[v], false, Owed(t, v)) && (!t.conns[v].gone ==> !Owed(s, v))
    {
      FireOrderly(s, t, w, v);
    }
    hide Orderly, LiveConn, FiredByAll, AllOrderly;
    forall f, g,
      v | Acknowledges(t, f, v) && Acknowledges(t, g, v) ensures v in t.conns && (f == g || t.conns[v].gone) {
      FireOnce(s, t, w, f, g, v);
    }
  }

  lemma FireOnce(s: State, t: State, w: Id, f: Id, g: Id, v: Id)
    requires HandlersOk(s) && OwedOnce(s) && FiredByAll(s, t, w) && Acknowledges(t, f, v) && Acknowledges(t, g, v)
    requires v in t.conns && !t.conns[v].gone ==> !Owed(s, v)
    ensures v in t.conns && (f == g || t.conns[v].gone)
  {
    FireOwes(s, t, w);
    assert f != w ==> Acknowledges(s, f, v);
    assert g != w ==> Acknowledges(s, g, v);
  }

  lemma LiveSubmit(cfg: Config, s: State, w: Id, norm: real)
    requires HandlersOk(s) && OrderlyOk(s) && Enabled(s, Submit(w, norm)) && CoversLive(cfg, s, Submit(w, norm))
    ensures OrderlyOk(AfterSubmit(cfg, s, w, norm)) && AfterSubmit(cfg, s, w, norm).replaced == s.replaced
  {
    NothingOverwritten(s, w);
    SubmitShape(cfg, s, w, norm);
    var t := AfterSubmit(cfg, s, w, norm);
    assert t.replaced == s.replaced;
    hide OrderlyOk, AfterSubmit, HandlersOk, Fires, SubmittedTo;
    if Fires(cfg, s, w, norm) {
      LiveFires(s, t, w);
    } else {
      LiveWaits(s, t, w);
    }
  }

  // ---------- an ACK ----------

  lemma AckedOrderly(c: Conn, d: Conn, step: nat, round: nat, inBuf: bool)
    requires Orderly(c, inBuf, true) && (d.handler == c.handler || (Firing(c.handler) && Firing(d.handler)))
    requires d == c.(handler := d.handler, s2c := c.s2c + [Ack(step, round)], acks := c.acks + 1)
    ensures Orderly(d, inBuf, false)
  {
  }

  lemma TodoOrderly(c: Conn, d: Conn, inBuf: bool, owed: bool)
    requires Orderly(c, inBuf, owed) && Firing(c.handler) && Firing(d.handler) && d == c.(handler := d.handler)
    ensures Orderly(d, inBuf, owed)
  {
  }

  /** A connection whose client is not there only has to keep its requests. */
  lemma GoneOrderly(c: Conn, d: Conn, inBuf: bool, owed: bool)
    requires OneRequest(c, inBuf) && c.gone && d.gone && d.c2s == c.c2s && (Carries(d.handler) ==> Carries(c.handler))
    ensures Orderly(d, inBuf, owed)
  {
  }

  lemma AckOwes(s: State, w: Id, to: Id)
    requires OwedOnce(s) && Enabled(s, SendAck(w, to))
    ensures var t := AfterAck(s, w, to);
            && (forall f, v :: Acknowledges(t, f, v) <==> Acknowledges(s, f, v) && !(f == w && v == to))
            && OwedOnce(t) && (forall v :: v != to ==> (Owed(t, v) <==> Owed(s, v)))
            && Owed(s, to) && (!s.conns[to].gone ==> !Owed(t, to))
  {
    var t := AfterAck(s, w, to);
    assert Acknowledges(s, w, to);
    assert forall f, v :: Acknowledges(t, f, v) <==> Acknowledges(s, f, v) && !(f == w && v == to);
    forall v | v != to ensures Owed(t, v) <==> Owed(s, v) {
      if Owed(s, v) {
        var f :| Acknowledges(s, f, v);
        assert Acknowledges(t, f, v);
      }
    }
  }

  lemma LiveAck(s: State, w: Id, to: Id)
    requires OrderlyOk(s) && Enabled(s, SendAck(w, to))
    ensures OrderlyOk(AfterAck(s, w, to))
  {
    var t := AfterAck(s, w, to);
    var h := s.conns[w].handler;
    AckOwes(s, w, to);
    hide Owed, OwedOnce, LiveConn, OneRequest, Orderly;
    forall v | v in t.conns ensures Orderly(t.conns[v], v in t.agg.buffer, Owed(t, v)) {
      if v == to {
        AckToOrderly(s, w, to);
      } else if v == w {
        TodoOrderly(s.conns[w], t.conns[w], w in s.agg.buffer, Owed(s, w));
      }
    }
  }

  lemma AckToOrderly(s: State, w: Id, to: Id)
    requires OrderlyOk(s) && Enabled(s, SendAck(w, to))
    ensures var t := AfterAck(s, w, to); to in t.conns && Orderly(t.conns[to], to in s.agg.buffer, Owed(t, to))
  {
    var t := AfterAck(s, w, to);
    var h := s.conns[w].handler;
    AckOwes(s, w, to);
    hide Owed, OwedOnce, LiveConn, OneRequest;
    if s.conns[to].gone {
      GoneOrderly(s.conns[to], t.conns[to], to in s.agg.buffer, Owed(t, to));
    } else {
      hide Orderly;
      AckedOrderly(s.conns[to], t.conns[to], h.step, h.round, to in s.agg.buffer);
    }
  }

  // ---------- every step ----------

  lemma OrderlyStep(cfg: Config, s: State, e: Event)
    requires HandlersOk(s) && OrderlyOk(s) && Enabled(s, e) && CoversLive(cfg, s, e)
    ensures OrderlyOk(After(cfg, s, e))
  {
    hide HandlersOk, OrderlyOk, Enabled, CoversLive, AfterSubmit, AfterApply, AfterAck, AfterLeave, AfterCheck, Moved;
    match e
    case Connect(w) => LiveConnect(cfg, s, w);
    case Local(w, m) => LiveMove(cfg, s, w, m);
    case Submit(w, norm) => LiveSubmit(cfg, s, w, norm);
    case SendAck(w, to) => LiveAck(s, w, to);
    case Leave(w) => LiveLeave(s, w);
    case Scan(_) => LiveScan(cfg, s, e);
    case _ => LiveInternal(cfg, s, e);
  }

  lemma OrderlyInit(cfg: Config)
    ensures OrderlyOk(Init(cfg))
  {
  }

  lemma {:induction false} OrderlyRun(cfg: Config, s: State, es: seq<Event>, t: State)
    requires Kept(cfg, s) && OrderlyOk(s) && Run(cfg, s, es, t) && CoversLiveAlways(cfg, s, es)
    ensures Kept(cfg, t) && OrderlyOk(t)
    decreases |es|
  {
    if es != [] {
      hide HandlersOk, StoreOk, RoundsOk, LedgerOk, OrderlyOk, After, Enabled, CoversLive;
      KeptStep(cfg, s, es[0]);
      OrderlyStep(cfg, s, es[0]);
      OrderlyRun(cfg, After(cfg, s, es[0]), es[1..], t);
    }
  }
}
