/** Pieces of concrete runs: a worker joins, pushes, waits, fires a round, is acknowledged and pulls again. The state
after each piece is given as a function of the state before. */
module Scenarios {
  import opened Workers
  import opened Params
  import opened Protocol
  import opened Runs
  import S = Store
  import H = Heartbeat
  import A = Aggregation

  lemma MoveRun(cfg: Config, o: State, s: State, w: Id, m: Move, d: Conn)
    requires Leads(cfg, o, s) && w in s.conns && CanMove(s.conns[w], m)
    requires d == Moved(s.conns[w], m, Last(s.hist), |s.hist| - 1)
    ensures Leads(cfg, o, With(s, w, d))
  {
    hide Leads;
    Further(cfg, o, s, Local(w, m));
  }

  // ---------- joining ----------

  /** A worker that has pulled and is training. */
  function Training(s: State): Conn {
    Conn(Ready(Snapshot(Last(s.hist).weights, |s.hist| - 1)), false, Recv(true), [], [], 0, |s.fired|, 0)
  }

  function WithTraining(s: State, w: Id): State {
    With(s, w, Training(s)).(mon := H.Seen(s.mon, w, 0.0), agg := A.Registered(s.agg, w))
  }

  /** The first pull of w has been received. */
  function Pulling(s: State, w: Id): State {
    With(s, w, Conn(AwaitWeights, false, RegBeat(Pull), [], [], 0, 0, 0))
  }

  /** w is registered, and its pull is about to be answered. */
  function Registered(s: State, w: Id): State {
    With(s, w, Conn(AwaitWeights, false, Dispatch(Pull), [], [], 0, |s.fired|, 0)).(
    mon := H.Seen(s.mon, w, 0.0), agg := A.Registered(s.agg, w))
  }

  lemma PullRun(cfg: Config, o: State, s: State, w: Id)
    requires Leads(cfg, o, s) && w !in s.conns
    ensures Leads(cfg, o, Pulling(s, w))
  {
    hide Leads, S.Apply, Sub, A.Submitted;
    Further(cfg, o, s, Connect(w));
    var s1 := With(s, w, FRESH_CONN);
    var c2 := Conn(AwaitWeights, false, Recv(false), [Pull], [], 0, 0, 0);
    MoveRun(cfg, o, s1, w, SendPull, c2);
    var s2 := With(s1, w, c2);
    MoveRun(cfg, o, s2, w, Deliver, Conn(AwaitWeights, false, RegBeat(Pull), [], [], 0, 0, 0));
    assert With(s2, w, Conn(AwaitWeights, false, RegBeat(Pull), [], [], 0, 0, 0)) == Pulling(s, w);
  }

  lemma RegisterRun(cfg: Config, o: State, s: State, w: Id)
    requires Leads(cfg, o, s) && w !in s.conns
    ensures Leads(cfg, o, Registered(s, w))
  {
    hide Leads, S.Apply, Sub, A.Submitted, Moved, H.Seen, A.Registered;
    PullRun(cfg, o, s, w);
    var s3 := Pulling(s, w);
    Further(cfg, o, s3, Announce(w, 0.0));
    var s4 := With(s, w, Conn(AwaitWeights, false, RegSock(Pull), [], [], 0, 0, 0)).(mon := H.Seen(s.mon, w, 0.0));
    assert After(cfg, s3, Announce(w, 0.0)) == s4;
    Further(cfg, o, s4, Join(w));
    assert After(cfg, s4, Join(w)) == Registered(s, w);
  }

  /** Answering the first pull, seen from its connection. */
  lemma AnswerMoves(c: Conn, store: S.Store, version: nat)
    requires c == Conn(AwaitWeights, false, Dispatch(Pull), [], [], 0, c.joined, 0)
    ensures var snap := Snapshot(store.weights, version);
            var d := c.(handler := ReplyWeights(snap));
            var e := c.(handler := Recv(true), s2c := [Weights(snap)]);
            && CanMove(c, CopyWeights) && Moved(c, CopyWeights, store, version) == d
            && CanMove(d, SendWeights) && Moved(d, SendWeights, store, version) == e
            && CanMove(e, Receive)
            && Moved(e, Receive, store, version) == Conn(Ready(snap), false, Recv(true), [], [], 0, c.joined, 0)
  {
  }

  lemma AnswerRun(cfg: Config, o: State, s: State, w: Id)
    requires Leads(cfg, o, s) && w in s.conns
    requires s.conns[w] == Conn(AwaitWeights, false, Dispatch(Pull), [], [], 0, |s.fired|, 0)
    ensures Leads(cfg, o, With(s, w, Training(s)))
  {
    hide Leads, Moved, CanMove;
    var c := s.conns[w];
    var snap := Snapshot(Last(s.hist).weights, |s.hist| - 1);
    AnswerMoves(c, Last(s.hist), |s.hist| - 1);
    var d := c.(handler := ReplyWeights(snap));
    var s1 := With(s, w, d);
    MoveRun(cfg, o, s, w, CopyWeights, d);
    var e := c.(handler := Recv(true), s2c := [Weights(snap)]);
    var s2 := With(s1, w, e);
    MoveRun(cfg, o, s1, w, SendWeights, e);
    MoveRun(cfg, o, s2, w, Receive, Training(s));
    assert With(s2, w, Training(s)) == With(s, w, Training(s));
  }

  lemma JoinRun(cfg: Config, o: State, s: State, w: Id)
    requires Leads(cfg, o, s) && w !in s.conns
    ensures Leads(cfg, o, WithTraining(s, w))
  {
    hide Leads;
    RegisterRun(cfg, o, s, w);
    AnswerRun(cfg, o, Registered(s, w), w);
    assert With(Registered(s, w), w, Training(s)) == WithTraining(s, w);
  }

  // ---------- pushing ----------

  /** Ready to push, with nothing on the way. */
  predicate Trainee(c: Conn) {
    c.client.Ready? && !c.gone && c.handler == Recv(true) && c.c2s == [] && c.s2c == []
  }

  function DeltaOf(snap: Snapshot, local: Params): Delta {
    Delta(Sub(snap.weights, local), snap.version, local, 0)
  }

  /** The push of w is about to be submitted. */
  function Pushing(s: State, w: Id, local: Params): State
    requires w in s.conns && s.conns[w].client.Ready?
  {
    var c := s.conns[w];
    With(s, w, c.(client := AwaitAck, handler := Dispatch(Push(DeltaOf(c.client.snap, local)))))
  }

  lemma PushRun(cfg: Config, o: State, s: State, w: Id, local: Params)
    requires Leads(cfg, o, s) && w in s.conns && Trainee(s.conns[w]) && SameShape(local, s.conns[w].client.snap.weights)
    ensures Leads(cfg, o, Pushing(s, w, local))
  {
    hide Leads, S.Apply, Sub, A.Submitted, SameShape;
    var c := s.conns[w];
    var d := DeltaOf(c.client.snap, local);
    var c1 := c.(client := AwaitAck, c2s := [Push(d)]);
    MoveRun(cfg, o, s, w, SendPush(local), c1);
    var c2 := c.(client := AwaitAck, handler := Dispatch(Push(d)));
    MoveRun(cfg, o, With(s, w, c1), w, Deliver, c2);
    assert With(With(s, w, c1), w, c2) == Pushing(s, w, local);
  }

  predicate Submitting(s: State, w: Id) {
    w in s.conns && s.conns[w].handler.Dispatch? && s.conns[w].handler.msg.Push? && w !in s.agg.buffer
  }

  function Numbered(s: State, w: Id): Delta
    requires Submitting(s, w)
  {
    s.conns[w].handler.msg.delta.(number := s.conns[w].submits)
  }

  /** The push of w has been buffered. */
  function Waiting(s: State, w: Id): State
    requires Submitting(s, w)
  {
    var c := s.conns[w];
    With(s, w, c.(submits := c.submits + 1, handler := Recv(true))).(agg := A.Buffered(s.agg, w, Numbered(s, w), 0.0))
  }

  lemma WaitRun(cfg: Config, o: State, s: State, w: Id)
    requires Leads(cfg, o, s) && Submitting(s, w) && !Fires(cfg, s, w, 0.0)
    ensures Leads(cfg, o, Waiting(s, w))
  {
    hide Leads, A.ShouldApply, H.AliveWorkers;
    Further(cfg, o, s, Submit(w, 0.0));
    assert s.replaced + {} == s.replaced;
    assert AfterSubmit(cfg, s, w, 0.0) == Waiting(s, w);
  }

  /** w has fired a round with its push and everything in the buffer. */
  function Fired(s: State, w: Id): State
    requires Submitting(s, w)
  {
    var c := s.conns[w];
    var b := s.agg.buffer[w := Numbered(s, w)];
    With(s, w, c.(submits := c.submits + 1, handler := Apply(|s.fired|, b, s.agg.sockets))).(
    agg := A.Agg(map[], map[], s.agg.sockets), fired := s.fired + [b], firer := w)
  }

  lemma FireRun(cfg: Config, o: State, s: State, w: Id)
    requires Leads(cfg, o, s) && Submitting(s, w) && Fires(cfg, s, w, 0.0)
    ensures Leads(cfg, o, Fired(s, w))
  {
    hide Leads, A.ShouldApply, H.AliveWorkers;
    Further(cfg, o, s, Submit(w, 0.0));
    assert s.replaced + {} == s.replaced;
    assert AfterSubmit(cfg, s, w, 0.0) == Fired(s, w);
  }

  /** A synchronous submission fires if everybody else is in the buffer or not ALIVE... */
  lemma LastFires(cfg: Config, s: State, w: Id)
    requires Synchronous(cfg) && Submitting(s, w)
    requires forall v :: v in s.agg.sockets && v != w && H.Alive(s.mon, v) ==> v in s.agg.buffer
    ensures Fires(cfg, s, w, 0.0)
  {
  }

  /** ... and waits if somebody is missing. */
  lemma EarlierWaits(cfg: Config, s: State, w: Id, v: Id)
    requires Synchronous(cfg) && Submitting(s, w) && v != w
    requires v in s.agg.sockets && H.Alive(s.mon, v) && v !in s.agg.buffer
    ensures !Fires(cfg, s, w, 0.0)
  {
    assert v in H.AliveWorkers(s.mon) * s.agg.sockets;
  }

  // ---------- a round ----------

  /** The ACKs of a round have been appended to the streams of `to`. */
  ghost predicate Acknowledged(s: State, t: State, w: Id, to: set<Id>, step: nat, round: nat) {
    && t.mon == s.mon && t.agg == s.agg && t.fired == s.fired && t.conns.Keys == s.conns.Keys
    && forall v :: v in s.conns ==> v in t.conns && var c, d := s.conns[v], t.conns[v];
         && d.client == c.client && d.gone == c.gone && d.c2s == c.c2s && d.submits == c.submits && d.joined == c.joined
         && (v != w ==> d.handler == c.handler)
         && d.s2c == c.s2c + (if v in to then [Ack(step, round)] else [])
  }

  /** The rest of the ACK loop. */
  lemma AckAll(cfg: Config, o: State, s: State, w: Id) returns (t: State)
    requires Leads(cfg, o, s) && w in s.conns && s.conns[w].handler.Acking? && s.conns[w].handler.todo <= s.conns.Keys
    ensures Leads(cfg, o, t) && t.hist == s.hist && t.order == s.order
    ensures Acknowledged(s, t, w, s.conns[w].handler.todo, s.conns[w].handler.step, s.conns[w].handler.round)
    ensures w in t.conns && t.conns[w].handler == s.conns[w].handler.(todo := {})
    decreases |s.conns[w].handler.todo|
  {
    hide Leads, Acknowledged;
    var h := s.conns[w].handler;
    if h.todo == {} {
      t := s;
      NothingToAck(s, w, h.step, h.round);
    } else {
      var to :| to in h.todo;
      Further(cfg, o, s, SendAck(w, to));
      t := AckAll(cfg, o, AfterAck(s, w, to), w);
      AckFirst(s, t, w, to, h.todo);
    }
  }

  lemma NothingToAck(s: State, w: Id, step: nat, round: nat)
    ensures Acknowledged(s, s, w, {}, step, round)
  {
  }

  lemma AckFirst(s: State, t: State, w: Id, to: Id, todo: set<Id>)
    requires w in s.conns && s.conns[w].handler.Acking? && to in s.conns && to in todo
    requires var h := s.conns[w].handler; Acknowledged(AfterAck(s, w, to), t, w, todo - {to}, h.step, h.round)
    ensures var h := s.conns[w].handler; Acknowledged(s, t, w, todo, h.step, h.round)
  {
  }

  /** From the update to the return from `submit`. */
  lemma RoundRun(cfg: Config, o: State, s: State, w: Id) returns (t: State)
    requires Leads(cfg, o, s) && w in s.conns && s.conns[w].handler.Apply? && s.conns[w].handler.sockets <= s.conns.Keys
    ensures Leads(cfg, o, t) && w in t.conns && t.conns[w].handler == Recv(true)
    ensures t.hist == s.hist + [S.Apply(cfg.hyper, Last(s.hist), Grads(s.conns[w].handler.batch))]
    ensures t.order == s.order + [s.conns[w].handler.round]
    ensures Acknowledged(s, t, w, s.conns[w].handler.sockets, Last(t.hist).step, s.conns[w].handler.round)
  {
    hide Leads, S.Apply, Grads, Acknowledged;
    var h := s.conns[w].handler;
    var s2 := UpdateRun(cfg, o, s, w);
    t := AckAll(cfg, o, s2, w);
    AckedSince(s, s2, t, w, h.sockets, Last(s2.hist).step, h.round);
    var s3 := t;
    t := LeaveRun(cfg, o, s3, w);
    AckedHandler(s, s3, t, w, h.sockets, Last(s2.hist).step, h.round);
  }

  /** The update and the reading of the step. */
  lemma UpdateRun(cfg: Config, o: State, s: State, w: Id) returns (t: State)
    requires Leads(cfg, o, s) && w in s.conns && s.conns[w].handler.Apply?
    ensures Leads(cfg, o, t) && w in t.conns && t.conns == s.conns[w := t.conns[w]]
    ensures t.mon == s.mon && t.agg == s.agg && t.fired == s.fired && t.order == s.order + [s.conns[w].handler.round]
    ensures t.hist == s.hist + [S.Apply(cfg.hyper, Last(s.hist), Grads(s.conns[w].handler.batch))]
    ensures t.conns[w] == s.conns[w].(
      handler := Acking(s.conns[w].handler.round, Last(t.hist).step, s.conns[w].handler.sockets))
  {
    hide Leads, S.Apply, Grads;
    Further(cfg, o, s, ApplyRound(w));
    var s1 := AfterApply(cfg, s, w);
    var c := s1.conns[w];
    var d := c.(handler := Acking(c.handler.round, Last(s1.hist).step, c.handler.sockets));
    MoveRun(cfg, o, s1, w, FetchStep, d);
    t := With(s1, w, d);
  }

  /** The end of `submit`. */
  lemma LeaveRun(cfg: Config, o: State, s: State, w: Id) returns (t: State)
    requires Leads(cfg, o, s) && w in s.conns && s.conns[w].handler.Acking? && s.conns[w].handler.todo == {}
    ensures Leads(cfg, o, t) && w in t.conns && t.conns == s.conns[w := s.conns[w].(handler := Recv(true))]
    ensures t.mon == s.mon && t.agg == s.agg && t.fired == s.fired && t.hist == s.hist && t.order == s.order
  {
    hide Leads;
    var c := s.conns[w];
    var d := c.(handler := Check(c.handler.round, c.handler.step));
    MoveRun(cfg, o, s, w, AcksDone, d);
    t := CheckRun(cfg, o, With(s, w, d), w);
  }

  lemma AckedSince(s: State, s2: State, t: State, w: Id, to: set<Id>, step: nat, round: nat)
    requires Acknowledged(s2, t, w, to, step, round) && w in s.conns && w in s2.conns
    requires s2.mon == s.mon && s2.agg == s.agg && s2.fired == s.fired && s2.conns == s.conns[w := s2.conns[w]]
    requires s2.conns[w] == s.conns[w].(handler := s2.conns[w].handler)
    ensures Acknowledged(s, t, w, to, step, round)
  {
  }

  lemma AckedHandler(s: State, t: State, u: State, w: Id, to: set<Id>, step: nat, round: nat)
    requires Acknowledged(s, t, w, to, step, round) && w in t.conns && w in u.conns
    requires u.mon == t.mon && u.agg == t.agg && u.fired == t.fired && u.conns == t.conns[w := u.conns[w]]
    requires u.conns[w] == t.conns[w].(handler := u.conns[w].handler)
    ensures Acknowledged(s, u, w, to, step, round)
  {
  }

  /** `_maybe_checkpoint`, whether or not a checkpoint is due. */
  lemma CheckRun(cfg: Config, o: State, s: State, w: Id) returns (t: State)
    requires Leads(cfg, o, s) && w in s.conns && s.conns[w].handler.Check?
    ensures Leads(cfg, o, t) && w in t.conns && t.conns == s.conns[w := s.conns[w].(handler := Recv(true))]
    ensures t.mon == s.mon && t.agg == s.agg && t.fired == s.fired && t.hist == s.hist && t.order == s.order
  {
    hide Leads;
    Further(cfg, o, s, CheckSave(w));
    t := AfterCheck(cfg, s, w);
    if t.conns[w].handler.Save? {
      Further(cfg, o, t, WriteSave(w));
      t := After(cfg, t, WriteSave(w));
    }
  }

  // ---------- reading the ACK and pulling again ----------

  function PulledAgain(s: State, w: Id): State
    requires w in s.conns
  {
    With(s, w, s.conns[w].(client := Ready(Snapshot(Last(s.hist).weights, |s.hist| - 1)), s2c := []))
  }

  lemma NextPull(cfg: Config, o: State, s: State, w: Id)
    requires Leads(cfg, o, s) && w in s.conns && s.conns[w].client.AwaitAck? && !s.conns[w].gone
    requires s.conns[w].handler == Recv(true) && s.conns[w].c2s == [] && |s.conns[w].s2c| == 1 && s.conns[w].s2c[0].Ack?
    ensures Leads(cfg, o, PulledAgain(s, w))
  {
    hide Leads, S.Apply, Sub, A.Submitted;
    var c := s.conns[w];
    var c1 := c.(client := Acked, s2c := []);
    MoveRun(cfg, o, s, w, Receive, c1);
    var c2 := c1.(client := AwaitWeights, c2s := [Pull]);
    MoveRun(cfg, o, With(s, w, c1), w, SendPull, c2);
    assert With(With(s, w, c1), w, c2) == With(s, w, c2);
    var c3 := c1.(client := AwaitWeights, handler := Dispatch(Pull));
    MoveRun(cfg, o, With(s, w, c2), w, Deliver, c3);
    assert With(With(s, w, c2), w, c3) == With(s, w, c3);
    AskedAgain(cfg, o, With(s, w, c3), w);
    assert With(With(s, w, c3), w, PulledAgain(s, w).conns[w]) == PulledAgain(s, w);
  }

  lemma AskedAgain(cfg: Config, o: State, s: State, w: Id)
    requires Leads(cfg, o, s) && w in s.conns && s.conns[w].client.AwaitWeights? && !s.conns[w].gone
    requires s.conns[w].handler == Dispatch(Pull) && s.conns[w].c2s == [] && s.conns[w].s2c == []
    ensures var snap := Snapshot(Last(s.hist).weights, |s.hist| - 1);
            Leads(cfg, o, With(s, w, s.conns[w].(client := Ready(snap), handler := Recv(true))))
  {
    hide Leads, S.Apply, Sub, A.Submitted;
    var snap := Snapshot(Last(s.hist).weights, |s.hist| - 1);
    var c := s.conns[w];
    var c1 := c.(handler := ReplyWeights(snap));
    MoveRun(cfg, o, s, w, CopyWeights, c1);
    var c2 := c.(handler := Recv(true), s2c := [Weights(snap)]);
    MoveRun(cfg, o, With(s, w, c1), w, SendWeights, c2);
    var c3 := c.(client := Ready(snap), handler := Recv(true));
    MoveRun(cfg, o, With(With(s, w, c1), w, c2), w, Receive, c3);
    assert With(With(With(s, w, c1), w, c2), w, c3) == With(s, w, c3);
  }
}
