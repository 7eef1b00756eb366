/** In every run, of any mode: weights and answers to heartbeats only ever reach a client that is waiting for them. So
an assert in a client can only fail on an ACK. */
module Replies {
  import opened Workers
  import opened Protocol
  import opened Conservation
  import opened Params
  import S = Store

  function Requests(q: seq<Request>, r: Request): nat {
    if q == [] then 0 else (if q[0] == r then 1 else 0) + Requests(q[1..], r)
  }

  /** How many of the replies are weights, or with `beat` answers to heartbeats. */
  function Answers(q: seq<Reply>, beat: bool): nat {
    if q == [] then 0
    else (if (if beat then q[0].BeatAck? else q[0].Weights?) then 1 else 0) + Answers(q[1..], beat)
  }

  /** The request the handler has in hand, answered or not. */
  function InHand(h: Handler, beat: bool): nat {
    if ((h.RegBeat? || h.RegSock? || h.Dispatch?) && h.msg == (if beat then Beat else Pull))
       || (if beat then h.ReplyBeat? else h.ReplyWeights?)
    then 1 else 0
  }

  predicate Awaits(c: Client, beat: bool) {
    if beat then c.AwaitBeat? else c.AwaitWeights?
  }

  /** Of a kind there is one request or answer under way if the client waits for it, and none otherwise. */
  predicate Asked(c: Conn, beat: bool) {
    Requests(c.c2s, if beat then Beat else Pull) + InHand(c.handler, beat) + Answers(c.s2c, beat)
    == if Awaits(c.client, beat) then 1 else 0
  }

  predicate AskedFor(c: Conn) {
    c.gone || (Asked(c, false) && Asked(c, true))
  }

  ghost predicate AllAsked(s: State) {
    forall w :: w in s.conns ==> AskedFor(s.conns[w])
  }

  lemma {:induction false} RequestsMore(q: seq<Request>, x: Request, r: Request)
    ensures Requests(q + [x], r) == Requests(q, r) + if x == r then 1 else 0
  {
    if q == [] {
      assert [] + [x] == [x];
    } else {
      RequestsMore(q[1..], x, r);
      assert (q + [x])[1..] == q[1..] + [x];
    }
  }

  lemma {:induction false} AnswersMore(q: seq<Reply>, x: Reply, beat: bool)
    ensures Answers(q + [x], beat) == Answers(q, beat) + if (if beat then x.BeatAck? else x.Weights?) then 1 else 0
  {
    if q == [] {
      assert [] + [x] == [x];
    } else {
      AnswersMore(q[1..], x, beat);
      assert (q + [x])[1..] == q[1..] + [x];
    }
  }

  lemma MoveAsked(c: Conn, m: Move, store: S.Store, version: nat)
    requires CanMove(c, m) && AskedFor(c)
    ensures AskedFor(Moved(c, m, store, version))
  {
    hide Sub;
    match m
    case SendPull => SentAsked(c, Pull);
    case SendPush(local) => SentAsked(c, Moved(c, m, store, version).c2s[|c.c2s|]);
    case SendBeat => SentAsked(c, Beat);
    case SendWeights => RepliedAsked(c, Weights(c.handler.snap));
    case SendBeatAck => RepliedAsked(c, BeatAck);
    case _ =>
  }

  lemma SentAsked(c: Conn, r: Request)
    ensures Requests(c.c2s + [r], Pull) == Requests(c.c2s, Pull) + if r == Pull then 1 else 0
    ensures Requests(c.c2s + [r], Beat) == Requests(c.c2s, Beat) + if r == Beat then 1 else 0
  {
    RequestsMore(c.c2s, r, Pull);
    RequestsMore(c.c2s, r, Beat);
  }

  lemma RepliedAsked(c: Conn, r: Reply)
    ensures Answers(c.s2c + [r], false) == Answers(c.s2c, false) + if r.Weights? then 1 else 0
    ensures Answers(c.s2c + [r], true) == Answers(c.s2c, true) + if r.BeatAck? then 1 else 0
  {
    AnswersMore(c.s2c, r, false);
    AnswersMore(c.s2c, r, true);
  }

  lemma AskedSubmit(s: State, t: State, w: Id, fires: bool)
    requires AllAsked(s) && SubmittedTo(s, t, w, fires)
    ensures AllAsked(t)
  {
    hide Requests, Answers;
  }

  lemma AskedAck(s: State, w: Id, to: Id)
    requires AllAsked(s) && Enabled(s, SendAck(w, to))
    ensures AllAsked(AfterAck(s, w, to))
  {
    var h := s.conns[w].handler;
    RepliedAsked(s.conns[to], Ack(h.step, h.round));
    hide Requests, Answers;
  }

  lemma AskedOther(cfg: Config, s: State, e: Event)
    requires HandlersOk(s) && AllAsked(s) && Enabled(s, e) && !e.Local? && !e.Submit? && !e.SendAck?
    ensures AllAsked(After(cfg, s, e))
  {
    hide Requests, Answers, S.Apply;
    if e.Connect? {
      NothingAsked();
    }
  }

  lemma NothingAsked()
    ensures AskedFor(FRESH_CONN)
  {
  }

  lemma AskedStep(cfg: Config, s: State, e: Event)
    requires HandlersOk(s) && AllAsked(s) && Enabled(s, e)
    ensures AllAsked(After(cfg, s, e))
  {
    if e.Local? {
      MoveAsked(s.conns[e.w], e.move, Last(s.hist), |s.hist| - 1);
      hide Moved, CanMove, AskedFor;
    } else if e.Submit? {
      SubmitShape(cfg, s, e.w, e.norm);
      hide AfterSubmit, SubmittedTo, Fires, AskedFor;
      AskedSubmit(s, After(cfg, s, e), e.w, Fires(cfg, s, e.w, e.norm));
    } else if e.SendAck? {
      AskedAck(s, e.w, e.to);
    } else {
      AskedOther(cfg, s, e);
    }
  }

  lemma {:induction false} AskedRun(cfg: Config, s: State, es: seq<Event>, t: State)
    requires Kept(cfg, s) && AllAsked(s) && Run(cfg, s, es, t)
    ensures AllAsked(t)
    decreases |es|
  {
    if es != [] {
      hide After, Enabled, HandlersOk, StoreOk, RoundsOk, LedgerOk, AllAsked;
      KeptStep(cfg, s, es[0]);
      AskedStep(cfg, s, es[0]);
      AskedRun(cfg, After(cfg, s, es[0]), es[1..], t);
    }
  }

  lemma FirstAnswer(q: seq<Reply>)
    requires q != []
    ensures q[0].Weights? ==> Answers(q, false) > 0
    ensures q[0].BeatAck? ==> Answers(q, true) > 0
  {
  }

  /** The next reply of a client that is there is an ACK or what it waits for. */
  lemma OnlyAcksStray(cfg: Config, es: seq<Event>, t: State, w: Id)
    requires Run(cfg, Init(cfg), es, t) && w in t.conns && !t.conns[w].gone && t.conns[w].s2c != []
    ensures t.conns[w].s2c[0].Weights? ==> t.conns[w].client.AwaitWeights?
    ensures t.conns[w].s2c[0].BeatAck? ==> t.conns[w].client.AwaitBeat?
  {
    hide Run, Kept;
    KeptInit(cfg);
    AskedRun(cfg, Init(cfg), es, t);
    FirstAnswer(t.conns[w].s2c);
    hide Answers, Requests;
    assert AskedFor(t.conns[w]);
  }

  /** When an assert fails, exactly, in every run of any mode: when an ACK is read by a client that waits for weights or
  for the answer to a heartbeat. */
  lemma FailsExactly(cfg: Config, es: seq<Event>, s: State, e: Event, w: Id)
    requires Run(cfg, Init(cfg), es, s) && Enabled(s, e) && w in s.conns && !s.conns[w].client.Failed?
    ensures After(cfg, s, e).conns[w].client.Failed? <==>
            && e == Local(w, Receive) && s.conns[w].s2c[0].Ack?
            && (s.conns[w].client.AwaitWeights? || s.conns[w].client.AwaitBeat?)
  {
    hide Run;
    var c := s.conns[w];
    if e == Local(w, Receive) {
      OnlyAcksStray(cfg, es, s, w);
      assert After(cfg, s, e).conns[w].client == Received(c.client, c.s2c[0]);
    } else {
      OthersKeep(cfg, s, e, w);
    }
  }

  /** Only reading changes a client into a failed one. */
  lemma OthersKeep(cfg: Config, s: State, e: Event, w: Id)
    requires Enabled(s, e) && w in s.conns && !s.conns[w].client.Failed? && e != Local(w, Receive)
    ensures w in After(cfg, s, e).conns && !After(cfg, s, e).conns[w].client.Failed?
  {
    if e.Submit? {
      SubmitShape(cfg, s, e.w, e.norm);
      hide AfterSubmit, Fires;
    } else {
      hide S.Apply, Sub;
    }
  }
}
