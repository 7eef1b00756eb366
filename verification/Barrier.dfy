/** The barrier in runs in which every round covers: joins, crashes and departures allowed, in any mode. Every
synchronous run without timeout demotion is one.

The invariant has a global part, about the one round that may be between the release of the buffer lock and
the return from `submit`, and a part for every connection whose handler has not failed. */
module Barrier {
  import opened Workers
  import opened Params
  import opened Protocol
  import opened Conservation
  import S = Store
  import H = Heartbeat
  import A = Aggregation

  /** The handler that fired last; outside `submit` any state that is not Firing. */
  function Phase(s: State): Handler {
    if s.firer in s.conns then s.conns[s.firer].handler else Done
  }

  /** The sockets a handler still has to send its round's ACK to. */
  function ToAck(h: Handler): set<Id> {
    if h.Apply? || h.ReadStep? then h.sockets else if h.Acking? then h.todo else {}
  }

  /** A push that has left the buffer and whose ACK has not been sent. */
  predicate Pending(c: Conn, inBuf: bool) {
    c.client.AwaitAck? && c.c2s == [] && c.s2c == [] && !inBuf && (c.handler.Recv? || Firing(c.handler))
  }

  predicate Idle(h: Handler) {
    h == Recv(true) || Firing(h)
  }

  /** Where the one request of a client and its one reply can be, for each state of the client. */
  predicate Aligned(c: Conn, inBuf: bool) {
    match c.client
    case Start => c.c2s == [] && c.s2c == [] && c.handler == Recv(false) && !inBuf
    case AwaitWeights =>
      && !inBuf
      && ((c.c2s == [Pull] && c.s2c == [] && (c.handler.Recv? || Firing(c.handler)))
          || (c.c2s == [] && c.s2c == [] &&
              (((c.handler.RegBeat? || c.handler.RegSock? || c.handler.Dispatch?) && c.handler.msg == Pull)
               || c.handler.ReplyWeights?))
          || (c.c2s == [] && |c.s2c| == 1 && c.s2c[0].Weights? && c.handler == Recv(true)))
    case Ready(_) => c.c2s == [] && c.s2c == [] && c.handler == Recv(true) && !inBuf
    case AwaitAck =>
      || (|c.c2s| == 1 && c.c2s[0].Push? && c.s2c == [] && c.handler == Recv(true) && !inBuf)
      || (c.c2s == [] && c.s2c == [] && c.handler.Dispatch? && c.handler.msg.Push? && !inBuf)
      || (c.c2s == [] && c.s2c == [] && c.handler == Recv(true))
      || (c.c2s == [] && c.s2c == [] && Firing(c.handler) && !inBuf)
      || (c.c2s == [] && |c.s2c| == 1 && c.s2c[0].Ack? && Idle(c.handler) && !inBuf)
    case Acked => c.c2s == [] && c.s2c == [] && Idle(c.handler) && !inBuf
    case AwaitBeat =>
      && !inBuf
      && ((c.c2s == [Beat] && c.s2c == [] && Idle(c.handler))
          || (c.c2s == [] && c.s2c == [] && (c.handler == Dispatch(Beat) || c.handler == ReplyBeat))
          || (c.c2s == [] && c.s2c == [BeatAck] && c.handler == Recv(true)))
    case Failed => false
  }

  /** Pulled weights are those before round `round`, or one update older if nothing was submitted yet. */
  predicate FreshSnap(snap: Snapshot, submits: nat, hist: History, round: nat) {
    && snap.version < |hist| && snap.weights == hist[snap.version].weights
    && (snap.version == round || (submits == 0 && snap.version + 1 == round))
  }

  /** The same of the weights a delta was computed from. */
  predicate FreshDelta(d: Delta, submits: nat, hist: History, round: nat) {
    && d.base < |hist| && d.grad == Sub(hist[d.base].weights, d.local)
    && (d.base == round || (submits == 0 && d.base + 1 == round))
  }

  predicate Current(c: Conn, hist: History, round: nat) {
    && (c.handler.ReplyWeights? ==> FreshSnap(c.handler.snap, c.submits, hist, round))
    && (c.s2c != [] && c.s2c[0].Weights? ==> FreshSnap(c.s2c[0].snap, c.submits, hist, round))
    && (c.client.Ready? ==> FreshSnap(c.client.snap, c.submits, hist, round))
    && (c.c2s != [] && c.c2s[0].Push? ==> FreshDelta(c.c2s[0].delta, c.submits, hist, round))
    && (c.handler.Dispatch? && c.handler.msg.Push? ==> FreshDelta(c.handler.msg.delta, c.submits, hist, round))
  }

  /** An ACK on its way carries the step right after its own round, to which its reader contributed. */
  predicate TrueAck(c: Conn, w: Id, hist: History, fired: seq<Batch>) {
    c.s2c != [] && c.s2c[0].Ack? ==>
      var a := c.s2c[0];
      a.round < |fired| && a.round + 1 < |hist| && w in fired[a.round] && a.step == hist[a.round + 1].step
  }

  /** Submissions and ACKs against the number of rounds fired. */
  predicate Counted(c: Conn, inBuf: bool, owed: bool, rounds: nat) {
    if Joined(c.handler) then
      && c.joined <= rounds
      && c.submits + c.joined == rounds + (if inBuf then 1 else 0)
      && c.acks + c.joined + (if owed then 1 else 0) == rounds
    else c.submits == 0 && c.acks == 0 && !inBuf && !owed
  }

  predicate ConnOk(w: Id, c: Conn, inBuf: bool, owed: bool, applying: bool, hist: History, fired: seq<Batch>) {
    && Aligned(c, inBuf)
    && (Pending(c, inBuf) <==> owed)
    && (owed ==> fired != [] && w in Last(fired))
    && Counted(c, inBuf, owed, |fired|)
    && (applying && Joined(c.handler) && !owed ==> c.joined == |fired|)
    && Current(c, hist, |fired|)
    && TrueAck(c, w, hist, fired)
  }

  predicate ConnsOk(s: State) {
    forall w :: w in s.conns && !Dying(s.conns[w].handler) ==>
      ConnOk(w, s.conns[w], w in s.agg.buffer, w in ToAck(Phase(s)), Phase(s).Apply?, s.hist, s.fired)
  }

  /** Rounds are applied in firing order, and at most the last one is outstanding. */
  predicate PhaseOk(s: State) {
    var p := Phase(s);
    && (forall k :: 0 <= k < |s.order| ==> s.order[k] == k)
    && |s.hist| == |s.order| + 1
    && (if p.Apply? then |s.order| + 1 == |s.fired| && p.round == |s.order| else |s.order| == |s.fired|)
    && (Firing(p) ==> p.round + 1 == |s.fired|)
    && (p.Acking? || p.Check? || p.Save? ==> p.step == Last(s.hist).step)
  }

  /** Checkpoints: one at every multiple of the interval, none missing but one being written. */
  predicate SavesOk(cfg: Config, s: State) {
    var p := Phase(s);
    && s.lastCheckpoint == cfg.start.step + (|s.saves| + if p.Save? then 1 else 0) * cfg.interval
    && s.lastCheckpoint <= Last(s.hist).step
    && Last(s.hist).step - s.lastCheckpoint <= cfg.interval
    && (Last(s.hist).step - s.lastCheckpoint == cfg.interval ==> p.ReadStep? || p.Acking? || p.Check?)
    && (p.Save? ==> s.lastCheckpoint == Last(s.hist).step)
    && (forall k :: 0 <= k < |s.saves| ==>
      s.saves[k] in s.hist && s.saves[k].step == cfg.start.step + (k + 1) * cfg.interval)
  }

  ghost predicate GlobalOk(s: State) {
    && (forall f :: f in s.conns && Firing(s.conns[f].handler) ==> f == s.firer)
    && (Firing(Phase(s)) ==> s.firer !in s.agg.buffer)
    && ToAck(Phase(s)) <= s.conns.Keys
    && (forall w :: w in s.agg.buffer ==> FreshDelta(s.agg.buffer[w], s.agg.buffer[w].number, s.hist, |s.fired|))
    && (forall r, w :: 0 <= r < |s.fired| && w in s.fired[r] ==>
      FreshDelta(s.fired[r][w], s.fired[r][w].number, s.hist, r))
  }

  // ---------- one connection ----------

  predicate OfClient(m: Move) {
    m.Crash? || m.SendPull? || m.SendPush? || m.SendBeat? || m.Receive?
  }

  lemma ClientMoveAligned(w: Id, c: Conn, m: Move, store: S.Store, version: nat,
                    inBuf: bool, owed: bool, applying: bool, hist: History, fired: seq<Batch>)
    requires CanMove(c, m) && OfClient(m) && !Dying(c.handler) && ConnOk(w, c, inBuf, owed, applying, hist, fired)
    ensures ConnOk(w, Moved(c, m, store, version), inBuf, owed, applying, hist, fired)
  {
    hide Sub;
  }

  lemma HandlerMoveAligned(w: Id, c: Conn, m: Move, store: S.Store, version: nat,
                    inBuf: bool, owed: bool, applying: bool, hist: History, fired: seq<Batch>)
    requires CanMove(c, m) && !OfClient(m) && !Dying(c.handler) && ConnOk(w, c, inBuf, owed, applying, hist, fired)
    requires store == Last(hist) && version == |hist| - 1
    requires if applying then |hist| == |fired| else |hist| == |fired| + 1
    ensures var d := Moved(c, m, store, version); Dying(d.handler) || ConnOk(w, d, inBuf, owed, applying, hist, fired)
  {
    hide Sub;
  }

  lemma MoveAligned(w: Id, c: Conn, m: Move, store: S.Store, version: nat,
                    inBuf: bool, owed: bool, applying: bool, hist: History, fired: seq<Batch>)
    requires CanMove(c, m) && !Dying(c.handler) && ConnOk(w, c, inBuf, owed, applying, hist, fired)
    requires store == Last(hist) && version == |hist| - 1
    requires if applying then |hist| == |fired| else |hist| == |fired| + 1
    ensures var d := Moved(c, m, store, version); Dying(d.handler) || ConnOk(w, d, inBuf, owed, applying, hist, fired)
  {
    hide ConnOk, Moved, CanMove, Dying;
    if OfClient(m) {
      ClientMoveAligned(w, c, m, store, version, inBuf, owed, applying, hist, fired);
    } else {
      HandlerMoveAligned(w, c, m, store, version, inBuf, owed, applying, hist, fired);
    }
  }

  lemma MovePhase(c: Conn, m: Move, store: S.Store, version: nat)
    requires CanMove(c, m)
    ensures var d := Moved(c, m, store, version);
            && (Firing(d.handler) <==> Firing(c.handler))
            && ToAck(d.handler) == ToAck(c.handler)
            && (d.handler.Apply? <==> c.handler.Apply?)
            && (Firing(c.handler) ==>
              || d.handler == c.handler
              || (c.handler.ReadStep? && d.handler == Acking(c.handler.round, store.step, c.handler.sockets))
              || (c.handler.Acking? && c.handler.todo == {} && d.handler == Check(c.handler.round, c.handler.step)))
  {
    hide Sub;
  }

  ghost predicate BarrierOk(cfg: Config, s: State) {
    PhaseOk(s) && SavesOk(cfg, s) && GlobalOk(s) && ConnsOk(s)
  }

  // ---------- steps of one connection ----------

  /** Only connection w changes, and neither the round outstanding nor what it owes. */
  ghost predicate OneConn(s: State, t: State, w: Id) {
    && t.agg.buffer == s.agg.buffer && t.fired == s.fired && t.order == s.order && t.hist == s.hist
    && t.firer == s.firer
    && w in t.conns && t.conns == s.conns[w := t.conns[w]]
    && ToAck(Phase(t)) == ToAck(Phase(s)) && (Phase(t).Apply? <==> Phase(s).Apply?)
  }

  lemma OneConnKeeps(s: State, t: State, w: Id)
    requires ConnsOk(s) && OneConn(s, t, w)
    requires Dying(t.conns[w].handler)
          || ConnOk(w, t.conns[w], w in s.agg.buffer, w in ToAck(Phase(s)), Phase(s).Apply?, s.hist, s.fired)
    ensures ConnsOk(t)
  {
    hide ConnOk;
  }

  /** The same for the global part: w may not start firing. */
  lemma OneConnGlobal(s: State, t: State, w: Id)
    requires GlobalOk(s) && OneConn(s, t, w)
    requires Firing(t.conns[w].handler) ==> w == s.firer && Firing(Phase(s))
    ensures GlobalOk(t)
  {
    hide FreshDelta;
  }

  lemma BarrierLocal(cfg: Config, s: State, w: Id, m: Move)
    requires HandlersOk(s) && BarrierOk(cfg, s) && Enabled(s, Local(w, m))
    ensures BarrierOk(cfg, After(cfg, s, Local(w, m)))
  {
    hide ConnOk, GlobalOk, ConnsOk, Moved;
    var c := s.conns[w];
    var store, version := Last(s.hist), |s.hist| - 1;
    var t := After(cfg, s, Local(w, m));
    MovePhase(c, m, store, version);
    MoveKeeps(c, m, store, version);
    assert OneConn(s, t, w);
    LocalConns(cfg, s, w, m);
    LocalGlobal(cfg, s, w, m);
  }

  lemma LocalConns(cfg: Config, s: State, w: Id, m: Move)
    requires PhaseOk(s) && ConnsOk(s) && Enabled(s, Local(w, m)) && OneConn(s, After(cfg, s, Local(w, m)), w)
    requires !Dying(s.conns[w].handler)
    ensures ConnsOk(After(cfg, s, Local(w, m)))
  {
    hide ConnOk, Moved, CanMove;
    MoveAligned(w, s.conns[w], m, Last(s.hist), |s.hist| - 1, w in s.agg.buffer, w in ToAck(Phase(s)), Phase(s).Apply?,
                s.hist, s.fired);
    OneConnKeeps(s, After(cfg, s, Local(w, m)), w);
  }

  lemma LocalGlobal(cfg: Config, s: State, w: Id, m: Move)
    requires GlobalOk(s) && Enabled(s, Local(w, m)) && OneConn(s, After(cfg, s, Local(w, m)), w)
    ensures GlobalOk(After(cfg, s, Local(w, m)))
  {
    hide FreshDelta, Moved, CanMove;
    MovePhase(s.conns[w], m, Last(s.hist), |s.hist| - 1);
    MoveKeeps(s.conns[w], m, Last(s.hist), |s.hist| - 1);
    OneConnGlobal(s, After(cfg, s, Local(w, m)), w);
  }

  predicate Registering(e: Event) {
    e.Connect? || e.Announce? || e.Join? || e.AnswerBeat? || e.Bury?
  }

  lemma ConnRegistering(w: Id, c: Conn, d: Conn, inBuf: bool, owed: bool, applying: bool, hist: History,
                        fired: seq<Batch>)
    requires ConnOk(w, c, inBuf, owed, applying, hist, fired)
    requires || (c.handler.RegBeat? && d == c.(handler := RegSock(c.handler.msg)))
             || (c.handler.RegSock? && d == c.(handler := Dispatch(c.handler.msg), joined := |fired|))
             || (c.handler == Dispatch(Beat) && d == c.(handler := ReplyBeat))
             || (Firing(c.handler) && !owed && !applying && d == c.(handler := Recv(true)))
             || (c.handler.Check? && d == c.(handler := Save(c.handler.round, c.handler.step)))
    ensures ConnOk(w, d, inBuf, owed, applying, hist, fired)
  {
    hide FreshDelta, FreshSnap;
  }

  lemma PhaseKeeps(cfg: Config, s: State, t: State)
    requires PhaseOk(s) && SavesOk(cfg, s)
    requires t.fired == s.fired && t.order == s.order && t.hist == s.hist && t.saves == s.saves
    requires t.lastCheckpoint == s.lastCheckpoint
    requires Phase(t) == Phase(s) || (!Firing(Phase(s)) && !Firing(Phase(t)))
    ensures PhaseOk(t) && SavesOk(cfg, t)
  {
  }

  lemma RegisteringPhase(cfg: Config, s: State, e: Event)
    requires HandlersOk(s) && GlobalOk(s) && PhaseOk(s) && SavesOk(cfg, s) && Enabled(s, e) && Registering(e)
    ensures PhaseOk(After(cfg, s, e)) && SavesOk(cfg, After(cfg, s, e))
  {
    hide PhaseOk, SavesOk, GlobalOk, HandlersOk;
    PhaseKeeps(cfg, s, After(cfg, s, e));
  }

  lemma RegisteringOne(cfg: Config, s: State, e: Event)
    requires HandlersOk(s) && GlobalOk(s) && Enabled(s, e) && Registering(e)
    ensures OneConn(s, After(cfg, s, e), e.w)
  {
  }

  lemma BarrierRegistering(cfg: Config, s: State, e: Event)
    requires HandlersOk(s) && BarrierOk(cfg, s) && Enabled(s, e) && Registering(e)
    ensures BarrierOk(cfg, After(cfg, s, e))
  {
    var t := After(cfg, s, e);
    var w := e.w;
    RegisteringOne(cfg, s, e);
    hide ConnOk, GlobalOk, PhaseOk, SavesOk, OneConn;
    RegisteringPhase(cfg, s, e);
    RegisteringGlobal(cfg, s, e);
    if e.Connect? {
      ConnectOk(s, w);
    } else if !e.Bury? {
      ConnRegistering(w, s.conns[w], t.conns[w], w in s.agg.buffer, w in ToAck(Phase(s)), Phase(s).Apply?, s.hist,
                      s.fired);
    }
    OneConnKeeps(s, t, w);
  }

  lemma ConnectOk(s: State, w: Id)
    requires HandlersOk(s) && GlobalOk(s) && w !in s.conns
    ensures ConnOk(w, FRESH_CONN, w in s.agg.buffer, w in ToAck(Phase(s)), Phase(s).Apply?, s.hist, s.fired)
  {
  }

  lemma RegisteringGlobal(cfg: Config, s: State, e: Event)
    requires HandlersOk(s) && GlobalOk(s) && Enabled(s, e) && Registering(e)
    requires OneConn(s, After(cfg, s, e), e.w)
    ensures GlobalOk(After(cfg, s, e))
  {
    hide GlobalOk, OneConn;
    var t := After(cfg, s, e);
    OneConnGlobal(s, t, e.w);
  }

  predicate Saving(e: Event) {
    e.CheckSave? || e.WriteSave?
  }

  lemma SavingPhase(cfg: Config, s: State, e: Event)
    requires PhaseOk(s) && SavesOk(cfg, s) && Enabled(s, e) && Saving(e) && e.w == s.firer
    ensures PhaseOk(After(cfg, s, e)) && SavesOk(cfg, After(cfg, s, e))
  {
    var n := |s.saves|;
    assert (n + 1) * cfg.interval == n * cfg.interval + cfg.interval;
    assert (n + 0) * cfg.interval == n * cfg.interval;
  }

  lemma BarrierSaving(cfg: Config, s: State, e: Event)
    requires BarrierOk(cfg, s) && Enabled(s, e) && Saving(e)
    ensures BarrierOk(cfg, After(cfg, s, e))
  {
    hide ConnOk, PhaseOk, SavesOk, FreshDelta;
    var t := After(cfg, s, e);
    var w := e.w;
    assert w == s.firer;
    assert OneConn(s, t, w);
    SavingPhase(cfg, s, e);
    ConnRegistering(w, s.conns[w], t.conns[w], w in s.agg.buffer, w in ToAck(Phase(s)), Phase(s).Apply?, s.hist,
                    s.fired);
    OneConnKeeps(s, t, w);
    OneConnGlobal(s, t, w);
  }

  lemma BarrierScan(cfg: Config, s: State, e: Event)
    requires BarrierOk(cfg, s) && Enabled(s, e) && e.Scan?
    ensures BarrierOk(cfg, After(cfg, s, e))
  {
    hide FreshDelta, ConnOk, H.Scanned;
  }

  lemma BarrierLeave(cfg: Config, s: State, w: Id)
    requires BarrierOk(cfg, s) && Enabled(s, Leave(w))
    ensures BarrierOk(cfg, AfterLeave(s, w))
  {
    hide FreshDelta, ConnOk;
  }

  // ---------- the steps of a round ----------

  /** While a round is outstanding no other submission can fire: the handler that fired it is up and has nothing
  in the buffer. */
  lemma NoOtherFires(cfg: Config, s: State, w: Id, norm: real)
    requires GlobalOk(s) && Enabled(s, Submit(w, norm)) && Covers(cfg, s, Submit(w, norm)) && Firing(Phase(s))
    ensures AfterSubmit(cfg, s, w, norm).fired == s.fired
  {
    hide A.ShouldApply, H.AliveWorkers, FreshDelta;
    if Fires(cfg, s, w, norm) {
      assert false;
    }
  }

  lemma ConnSubmits(w: Id, c: Conn, d: Conn, applying: bool, hist: History, fired: seq<Batch>)
    requires ConnOk(w, c, false, false, applying, hist, fired)
    requires c.handler.Dispatch? && c.handler.msg.Push? && d == c.(submits := c.submits + 1, handler := Recv(true))
    ensures ConnOk(w, d, true, false, applying, hist, fired)
  {
    hide FreshDelta, FreshSnap;
  }

  lemma ConnFires(w: Id, c: Conn, d: Conn, own: bool, inBuf: bool, hist: History, fired: seq<Batch>, batch: Batch)
    requires ConnOk(w, c, inBuf, false, false, hist, fired)
    requires if own
             then c.handler.Dispatch? && c.handler.msg.Push? && d.handler.Apply?
                  && d == c.(submits := c.submits + 1, handler := d.handler)
             else d == c && (Joined(c.handler) ==> inBuf)
    requires Joined(c.handler) ==> w in batch
    ensures ConnOk(w, d, false, Joined(c.handler), true, hist, fired + [batch])
  {
    hide FreshDelta, FreshSnap;
  }

  lemma ConnApplied(w: Id, c: Conn, d: Conn, inBuf: bool, owed: bool, hist: History, store: S.Store, fired: seq<Batch>)
    requires ConnOk(w, c, inBuf, owed, true, hist, fired)
    requires d == c || (c.handler.Apply? && d == c.(handler := ReadStep(c.handler.round, c.handler.sockets)))
    ensures ConnOk(w, d, inBuf, owed, false, hist + [store], fired)
  {
    hide Sub;
  }

  lemma ConnAcked(w: Id, c: Conn, d: Conn, step: nat, round: nat, inBuf: bool, hist: History, fired: seq<Batch>)
    requires ConnOk(w, c, inBuf, true, false, hist, fired)
    requires d == c.(handler := d.handler, s2c := c.s2c + [Ack(step, round)], acks := c.acks + 1)
    requires d.handler == c.handler || (Firing(c.handler) && Firing(d.handler))
    requires |hist| == |fired| + 1 && round + 1 == |fired| && step == Last(hist).step
    ensures ConnOk(w, d, inBuf, false, false, hist, fired)
  {
    hide FreshDelta, FreshSnap;
  }

  /** A covering round fires, with the last one all acknowledged. */
  lemma ConnsFire(s: State, t: State, w: Id)
    requires HandlersOk(s) && ConnsOk(s) && SubmittedTo(s, t, w, true) && ToAck(Phase(s)) == {} && !Phase(s).Apply?
    requires forall v :: v in s.conns && v != w && Up(s.conns[v].handler) ==> v in s.agg.buffer
    ensures ConnsOk(t)
  {
    hide ConnOk;
    forall v | v in s.conns && !Dying(t.conns[v].handler)
      ensures ConnOk(v, t.conns[v], false, v in s.agg.sockets, true, t.hist, t.fired)
    {
      ConnFires(v, s.conns[v], t.conns[v], v == w, v in s.agg.buffer, s.hist, s.fired, Offered(s, w));
    }
  }

  lemma ConnsWait(s: State, t: State, w: Id)
    requires ConnsOk(s) && GlobalOk(s) && SubmittedTo(s, t, w, false)
    ensures ConnsOk(t)
  {
    SubmitterClear(s, w);
    hide ConnOk, FreshDelta;
    ConnSubmits(w, s.conns[w], t.conns[w], Phase(s).Apply?, s.hist, s.fired);
    assert ToAck(Phase(t)) == ToAck(Phase(s));
  }

  lemma SubmitConns(cfg: Config, s: State, w: Id, norm: real)
    requires HandlersOk(s) && BarrierOk(cfg, s) && Enabled(s, Submit(w, norm)) && Covers(cfg, s, Submit(w, norm))
    ensures ConnsOk(AfterSubmit(cfg, s, w, norm))
  {
    if Firing(Phase(s)) {
      NoOtherFires(cfg, s, w, norm);
    }
    SubmitShape(cfg, s, w, norm);
    hide AfterSubmit, ConnsOk, SavesOk, GlobalOk, SubmittedTo;
    if Fires(cfg, s, w, norm) {
      ConnsFire(s, AfterSubmit(cfg, s, w, norm), w);
    } else {
      ConnsWait(s, AfterSubmit(cfg, s, w, norm), w);
    }
  }

  /** A worker whose push is being submitted has nothing in the buffer and is owed nothing. */
  lemma SubmitterClear(s: State, w: Id)
    requires ConnsOk(s) && w in s.conns && s.conns[w].handler.Dispatch? && s.conns[w].handler.msg.Push?
    ensures w !in s.agg.buffer && w !in ToAck(Phase(s))
    ensures FreshDelta(s.conns[w].handler.msg.delta, s.conns[w].submits, s.hist, |s.fired|)
  {
    hide FreshDelta;
    assert ConnOk(w, s.conns[w], w in s.agg.buffer, w in ToAck(Phase(s)), Phase(s).Apply?, s.hist, s.fired);
  }

  /** What is offered has just been computed. */
  lemma OfferedFresh(s: State, w: Id)
    requires ConnsOk(s) && GlobalOk(s) && w in s.conns && s.conns[w].handler.Dispatch? && s.conns[w].handler.msg.Push?
    ensures forall v :: v in Offered(s, w) ==> FreshDelta(Offered(s, w)[v], Offered(s, w)[v].number, s.hist, |s.fired|)
  {
    SubmitterClear(s, w);
    hide FreshDelta, ConnsOk;
    FreshNumber(s.conns[w].handler.msg.delta, s.conns[w].submits, s.hist, |s.fired|);
  }

  lemma GlobalSubmitted(s: State, t: State, w: Id, fires: bool)
    requires HandlersOk(s) && GlobalOk(s) && SubmittedTo(s, t, w, fires) && (fires ==> !Firing(Phase(s)))
    requires forall v :: v in Offered(s, w) ==> FreshDelta(Offered(s, w)[v], Offered(s, w)[v].number, s.hist, |s.fired|)
    ensures GlobalOk(t)
  {
    hide FreshDelta;
  }

  lemma SubmitGlobal(cfg: Config, s: State, w: Id, norm: real)
    requires HandlersOk(s) && BarrierOk(cfg, s) && Enabled(s, Submit(w, norm)) && Covers(cfg, s, Submit(w, norm))
    ensures GlobalOk(AfterSubmit(cfg, s, w, norm))
  {
    if Firing(Phase(s)) {
      NoOtherFires(cfg, s, w, norm);
    }
    SubmitShape(cfg, s, w, norm);
    OfferedFresh(s, w);
    hide AfterSubmit, GlobalOk, PhaseOk, SavesOk, FreshDelta, ConnsOk, Covers, SubmittedTo, Offered;
    GlobalSubmitted(s, AfterSubmit(cfg, s, w, norm), w, Fires(cfg, s, w, norm));
  }

  lemma FreshNumber(d: Delta, n: nat, hist: History, round: nat)
    requires FreshDelta(d, n, hist, round)
    ensures FreshDelta(d.(number := n), n, hist, round)
  {
  }

  lemma SubmitPhase(cfg: Config, s: State, w: Id, norm: real)
    requires HandlersOk(s) && BarrierOk(cfg, s) && Enabled(s, Submit(w, norm)) && Covers(cfg, s, Submit(w, norm))
    ensures PhaseOk(AfterSubmit(cfg, s, w, norm)) && SavesOk(cfg, AfterSubmit(cfg, s, w, norm))
  {
    hide ConnOk, GlobalOk, ConnsOk, A.ShouldApply, H.AliveWorkers;
    if Firing(Phase(s)) {
      NoOtherFires(cfg, s, w, norm);
    }
  }

  lemma ApplyConns(cfg: Config, s: State, w: Id)
    requires BarrierOk(cfg, s) && Enabled(s, ApplyRound(w))
    ensures ConnsOk(AfterApply(cfg, s, w))
  {
    hide ConnOk, SavesOk, S.Apply;
    var t := AfterApply(cfg, s, w);
    assert w == s.firer && ToAck(Phase(t)) == ToAck(Phase(s));
    forall v | v in s.conns && !Dying(t.conns[v].handler)
      ensures ConnOk(v, t.conns[v], v in t.agg.buffer, v in ToAck(Phase(t)), false, t.hist, t.fired)
    {
      ConnApplied(v, s.conns[v], t.conns[v], v in s.agg.buffer, v in ToAck(Phase(s)), s.hist, Last(t.hist), s.fired);
    }
  }

  lemma ApplyGlobal(cfg: Config, s: State, w: Id)
    requires BarrierOk(cfg, s) && Enabled(s, ApplyRound(w))
    ensures GlobalOk(AfterApply(cfg, s, w))
  {
    hide ConnOk, SavesOk, S.Apply, Sub;
    assert w == s.firer;
  }

  lemma ApplyPhase(cfg: Config, s: State, w: Id)
    requires BarrierOk(cfg, s) && Enabled(s, ApplyRound(w))
    ensures PhaseOk(AfterApply(cfg, s, w)) && SavesOk(cfg, AfterApply(cfg, s, w))
  {
    hide ConnsOk;
    assert w == s.firer;
    var t := AfterApply(cfg, s, w);
    assert Last(t.hist).step == Last(s.hist).step + 1;
  }

  lemma BarrierAck(cfg: Config, s: State, w: Id, to: Id)
    requires BarrierOk(cfg, s) && Enabled(s, SendAck(w, to))
    ensures BarrierOk(cfg, AfterAck(s, w, to))
  {
    hide ConnOk, FreshDelta;
    var t := AfterAck(s, w, to);
    var h := s.conns[w].handler;
    assert w == s.firer;
    assert ToAck(Phase(t)) == ToAck(Phase(s)) - {to};
    if !Dying(s.conns[to].handler) {
      ConnAcked(to, s.conns[to], t.conns[to], h.step, h.round, to in s.agg.buffer, s.hist, s.fired);
    }
    if w != to {
      ConnTodo(w, s.conns[w], t.conns[w], w in s.agg.buffer, w in ToAck(Phase(s)), s.hist, s.fired);
    }
  }

  lemma ConnTodo(w: Id, c: Conn, d: Conn, inBuf: bool, owed: bool, hist: History, fired: seq<Batch>)
    requires ConnOk(w, c, inBuf, owed, false, hist, fired)
    requires c.handler.Acking? && d.handler.Acking? && d == c.(handler := d.handler)
    ensures ConnOk(w, d, inBuf, owed, false, hist, fired)
  {
    hide FreshDelta, FreshSnap;
  }

  lemma BarrierStep(cfg: Config, s: State, e: Event)
    requires HandlersOk(s) && BarrierOk(cfg, s) && Enabled(s, e) && Covers(cfg, s, e)
    ensures BarrierOk(cfg, After(cfg, s, e))
  {
    hide HandlersOk, PhaseOk, SavesOk, GlobalOk, ConnsOk, Enabled, Covers, AfterSubmit, AfterApply, AfterAck;
    hide AfterLeave, AfterCheck, Moved;
    match e
    case Local(w, m) => BarrierLocal(cfg, s, w, m);
    case Submit(w, norm) =>
      SubmitConns(cfg, s, w, norm);
      SubmitGlobal(cfg, s, w, norm);
      SubmitPhase(cfg, s, w, norm);
    case ApplyRound(w) =>
      ApplyConns(cfg, s, w);
      ApplyGlobal(cfg, s, w);
      ApplyPhase(cfg, s, w);
    case SendAck(w, to) => BarrierAck(cfg, s, w, to);
    case Leave(w) => BarrierLeave(cfg, s, w);
    case Scan(_) => BarrierScan(cfg, s, e);
    case CheckSave(_) => BarrierSaving(cfg, s, e);
    case WriteSave(_) => BarrierSaving(cfg, s, e);
    case _ => BarrierRegistering(cfg, s, e);
  }

  lemma BarrierInit(cfg: Config)
    ensures BarrierOk(cfg, Init(cfg))
  {
  }

  lemma {:induction false} BarrierRun(cfg: Config, s: State, es: seq<Event>, t: State)
    requires Kept(cfg, s) && BarrierOk(cfg, s) && CoveringRun(cfg, s, es, t)
    ensures Kept(cfg, t) && BarrierOk(cfg, t)
    decreases |es|
  {
    if es != [] {
      hide HandlersOk, StoreOk, RoundsOk, LedgerOk, BarrierOk, After, Enabled, Covers;
      KeptStep(cfg, s, es[0]);
      BarrierStep(cfg, s, es[0]);
      BarrierRun(cfg, After(cfg, s, es[0]), es[1..], t);
    }
  }

  // ---------- synchronous runs without demotion ----------

  /** Every worker whose handler has announced it and not buried it is ALIVE. */
  ghost predicate AliveOk(s: State) {
    forall w :: w in s.conns && Announced(s.conns[w].handler) ==> H.Alive(s.mon, w)
  }

  lemma AliveStep(cfg: Config, s: State, e: Event)
    requires AliveOk(s) && Enabled(s, e) && Quiet(cfg, s, e)
    ensures AliveOk(After(cfg, s, e))
  {
    hide S.Apply, A.Submitted, H.Scanned;
    if e.Local? {
      MoveKeeps(s.conns[e.w], e.move, Last(s.hist), |s.hist| - 1);
      hide Moved;
    }
  }

  /** A synchronous submission that fires finds the push of every other worker whose handler is up. */
  lemma FireTakesAll(cfg: Config, s: State, w: Id, norm: real, v: Id)
    requires HandlersOk(s) && AliveOk(s) && Synchronous(cfg) && Enabled(s, Submit(w, norm)) && Fires(cfg, s, w, norm)
    requires v in s.conns && v != w && Up(s.conns[v].handler)
    ensures v in s.agg.buffer
  {
    assert H.Alive(s.mon, v) && v in s.agg.sockets;
    assert v in H.AliveWorkers(s.mon) * s.agg.sockets;
  }

  lemma {:induction false} QuietCovers(cfg: Config, s: State, es: seq<Event>, t: State)
    requires Synchronous(cfg) && Kept(cfg, s) && AliveOk(s) && QuietRun(cfg, s, es, t)
    ensures CoveringRun(cfg, s, es, t) && AliveOk(t)
    decreases |es|
  {
    if es != [] {
      hide HandlersOk, StoreOk, RoundsOk, LedgerOk, AliveOk, After, Enabled, Quiet, Fires;
      KeptStep(cfg, s, es[0]);
      AliveStep(cfg, s, es[0]);
      QuietCovers(cfg, After(cfg, s, es[0]), es[1..], t);
      if es[0].Submit? && Fires(cfg, s, es[0].w, es[0].norm) {
        forall v | v in s.conns && v != es[0].w && Up(s.conns[v].handler) ensures v in s.agg.buffer {
          FireTakesAll(cfg, s, es[0].w, es[0].norm, v);
        }
      }
    }
  }

  /** Every synchronous run without timeout demotion is a covering run. */
  lemma SynchronousCovers(cfg: Config, es: seq<Event>, t: State)
    requires Synchronous(cfg) && QuietRun(cfg, Init(cfg), es, t)
    ensures CoveringRun(cfg, Init(cfg), es, t) && AliveOk(t)
  {
    hide Kept, QuietRun, CoveringRun;
    KeptInit(cfg);
    QuietCovers(cfg, Init(cfg), es, t);
  }
}
