/** Exchanges that are always possible: a heartbeat and its answer, and the end of a connection whose client has
gone. */
module Turns {
  import opened Workers
  import opened Params
  import opened Protocol
  import opened Runs
  import S = Store
  import H = Heartbeat

  /** Between two requests, with nothing under way. */
  predicate BetweenRequests(c: Conn) {
    c.client.Acked? && !c.gone && c.handler == Recv(true) && c.c2s == [] && c.s2c == []
  }

  function HeartbeatEvents(w: Id, now: real): seq<Event> {
    [Local(w, SendBeat), Local(w, Deliver), AnswerBeat(w, now), Local(w, SendBeatAck), Local(w, Receive)]
  }

  /** The connection during the exchange. */
  function BeatConn(c: Conn, k: nat): Conn
    requires k <= 4
  {
    match k
    case 0 => c.(client := AwaitBeat, c2s := [Beat])
    case 1 => c.(client := AwaitBeat, handler := Dispatch(Beat))
    case 2 => c.(client := AwaitBeat, handler := ReplyBeat)
    case 3 => c.(client := AwaitBeat, s2c := [BeatAck])
    case _ => c
  }

  lemma BeatMoves(c: Conn, store: S.Store, version: nat)
    requires BetweenRequests(c)
    ensures CanMove(c, SendBeat) && Moved(c, SendBeat, store, version) == BeatConn(c, 0)
    ensures var d := BeatConn(c, 0); CanMove(d, Deliver) && Moved(d, Deliver, store, version) == BeatConn(c, 1)
    ensures var d := BeatConn(c, 2); CanMove(d, SendBeatAck) && Moved(d, SendBeatAck, store, version) == BeatConn(c, 3)
    ensures var d := BeatConn(c, 3); CanMove(d, Receive) && Moved(d, Receive, store, version) == c
  {
  }

  lemma Three(cfg: Config, s: State, a: Event, b: Event, c: Event)
    requires Enabled(s, a) && Enabled(After(cfg, s, a), b) && Enabled(After(cfg, After(cfg, s, a), b), c)
    ensures Run(cfg, s, [a, b, c], After(cfg, After(cfg, After(cfg, s, a), b), c))
  {
    hide Run, After, Enabled;
    var s1 := After(cfg, s, a);
    var s2 := After(cfg, s1, b);
    OneStep(cfg, s2, c);
    FirstStep(cfg, s1, b, [c], After(cfg, s2, c));
    FirstStep(cfg, s, a, [b] + [c], After(cfg, s2, c));
    assert [a] + ([b] + [c]) == [a, b, c];
  }

  lemma OneMove(cfg: Config, s: State, w: Id, m: Move, d: Conn)
    requires w in s.conns && CanMove(s.conns[w], m) && d == Moved(s.conns[w], m, Last(s.hist), |s.hist| - 1)
    ensures Enabled(s, Local(w, m)) && After(cfg, s, Local(w, m)) == With(s, w, d)
  {
  }

  lemma WithTwice(s: State, w: Id, c: Conn, d: Conn)
    ensures With(With(s, w, c), w, d) == With(s, w, d)
    ensures w in s.conns ==> With(s, w, s.conns[w]) == s
  {
    assert s.conns[w := c][w := d] == s.conns[w := d];
    assert w in s.conns ==> s.conns[w := s.conns[w]] == s.conns;
  }

  /** s after the server has heard from w. */
  function Heard(s: State, w: Id, now: real): State {
    s.(mon := H.Seen(s.mon, w, now))
  }

  lemma AnswerStep(cfg: Config, s: State, w: Id, now: real, c: Conn)
    requires BetweenRequests(c)
    ensures var s1 := With(s, w, BeatConn(c, 1));
            && Enabled(s1, AnswerBeat(w, now))
            && After(cfg, s1, AnswerBeat(w, now)) == With(Heard(s, w, now), w, BeatConn(c, 2))
  {
    assert s.conns[w := BeatConn(c, 1)][w := BeatConn(c, 2)] == s.conns[w := BeatConn(c, 2)];
  }

  /** The server's part, and the reading of the answer. */
  lemma BeatReply(cfg: Config, s: State, w: Id, now: real)
    requires w in s.conns && BetweenRequests(s.conns[w])
    ensures Run(cfg, With(s, w, BeatConn(s.conns[w], 1)),
                [AnswerBeat(w, now), Local(w, SendBeatAck), Local(w, Receive)], Heard(s, w, now))
  {
    var c, r := s.conns[w], Heard(s, w, now);
    BeatMoves(c, Last(s.hist), |s.hist| - 1);
    AnswerStep(cfg, s, w, now, c);
    WithTwice(r, w, BeatConn(c, 2), BeatConn(c, 3));
    WithTwice(r, w, BeatConn(c, 3), c);
    var s2, s3 := With(r, w, BeatConn(c, 2)), With(r, w, BeatConn(c, 3));
    assert r.hist == s.hist && s2.hist == s.hist && s3.hist == s.hist && r.conns[w] == c;
    assert s2.conns[w] == BeatConn(c, 2) && s3.conns[w] == BeatConn(c, 3);
    hide Run, Moved, CanMove, BetweenRequests, After, Enabled, With, Heard, BeatConn;
    OneMove(cfg, s2, w, SendBeatAck, BeatConn(c, 3));
    OneMove(cfg, s3, w, Receive, c);
    Three(cfg, With(s, w, BeatConn(c, 1)), AnswerBeat(w, now), Local(w, SendBeatAck), Local(w, Receive));
  }

  /** The worker's part. */
  lemma BeatSent(cfg: Config, s: State, w: Id, rest: seq<Event>, t: State)
    requires w in s.conns && BetweenRequests(s.conns[w])
    requires Run(cfg, With(s, w, BeatConn(s.conns[w], 1)), rest, t)
    ensures Run(cfg, s, [Local(w, SendBeat)] + ([Local(w, Deliver)] + rest), t)
  {
    var c := s.conns[w];
    BeatMoves(c, Last(s.hist), |s.hist| - 1);
    var s0 := With(s, w, BeatConn(c, 0));
    WithTwice(s, w, BeatConn(c, 0), BeatConn(c, 1));
    assert s0.hist == s.hist && s0.conns[w] == BeatConn(c, 0);
    hide Run, Moved, CanMove, BetweenRequests, After, Enabled, With, BeatConn;
    OneMove(cfg, s, w, SendBeat, BeatConn(c, 0));
    OneMove(cfg, s0, w, Deliver, BeatConn(c, 1));
    FirstStep(cfg, s0, Local(w, Deliver), rest, t);
    FirstStep(cfg, s, Local(w, SendBeat), [Local(w, Deliver)] + rest, t);
  }

  /** A worker between two requests can always send a heartbeat and get its answer. Nothing comes of it but that the
  server has heard from the worker at that time. */
  lemma HeartbeatAnswered(cfg: Config, s: State, w: Id, now: real) returns (t: State)
    requires w in s.conns && BetweenRequests(s.conns[w])
    ensures Run(cfg, s, HeartbeatEvents(w, now), t)
    ensures t == s.(mon := t.mon) && H.Alive(t.mon, w) && w in t.mon.lastSeen && t.mon.lastSeen[w] == now
    ensures forall v :: v != w ==> (H.Alive(t.mon, v) <==> H.Alive(s.mon, v))
  {
    t := Heard(s, w, now);
    var rest := [AnswerBeat(w, now), Local(w, SendBeatAck), Local(w, Receive)];
    hide Run, BetweenRequests;
    BeatReply(cfg, s, w, now);
    BeatSent(cfg, s, w, rest, t);
    assert [Local(w, SendBeat)] + ([Local(w, Deliver)] + rest) == HeartbeatEvents(w, now);
  }

  /** Where a handler can find out that its client has gone: waiting for a message, or sending an answer. */
  predicate AtMessage(h: Handler) {
    h == Recv(true) || h.ReplyWeights? || h.ReplyBeat?
  }

  /** A handler that finds its client gone marks it dead and unregisters it, and touches nobody else. */
  lemma CleansUp(cfg: Config, s: State, w: Id) returns (m: Move, t: State)
    requires w in s.conns && s.conns[w].gone && AtMessage(s.conns[w].handler)
    ensures Run(cfg, s, [Local(w, m), Bury(w), Leave(w)], t)
    ensures t.conns == s.conns[w := s.conns[w].(handler := Done)] && t.hist == s.hist && t.fired == s.fired
    ensures w !in t.agg.sockets && w !in t.agg.buffer && w !in t.agg.norms && !H.Alive(t.mon, w)
    ensures forall v :: v != w ==>
      && (v in t.agg.sockets <==> v in s.agg.sockets) && (v in t.agg.buffer <==> v in s.agg.buffer)
      && (v in t.agg.buffer ==> t.agg.buffer[v] == s.agg.buffer[v]) && (H.Alive(t.mon, v) <==> H.Alive(s.mon, v))
  {
    var c := s.conns[w];
    m := if c.handler.Recv? then Hangup else ReplyFails;
    var s1 := With(s, w, c.(handler := MarkDead));
    assert Enabled(s, Local(w, m)) && After(cfg, s, Local(w, m)) == s1;
    hide Run, Moved, CanMove;
    var s2 := After(cfg, s1, Bury(w));
    t := AfterLeave(s2, w);
    assert t.conns == s.conns[w := c.(handler := Done)];
    Three(cfg, s, Local(w, m), Bury(w), Leave(w));
  }
}
