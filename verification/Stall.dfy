/** When the barrier is satisfied but nobody fires it. It is tested only inside `submit`: a worker that dies
or is demoted while everybody else waits leaves the others waiting. */
module Stall {
  import opened Workers
  import opened Params
  import opened Protocol
  import opened Conservation
  import opened Barrier
  import opened Acks
  import opened Alignment
  import opened Asserts
  import S = Store
  import H = Heartbeat
  import A = Aggregation

  /** The workers the barrier waits for: ALIVE, registered and without a buffered push. */
  ghost function Missing(s: State): set<Id> {
    H.AliveWorkers(s.mon) * s.agg.sockets - s.agg.buffer.Keys
  }

  /** Pushes are waiting, for nobody. */
  ghost predicate Stalled(s: State) {
    s.agg.buffer.Keys != {} && Missing(s) == {}
  }

  /** A submission leaves the buffer empty or somebody to wait for. */
  lemma SubmitLeavesNoStall(cfg: Config, s: State, w: Id, norm: real)
    requires Synchronous(cfg) && Enabled(s, Submit(w, norm))
    ensures !Stalled(AfterSubmit(cfg, s, w, norm))
  {
    hide H.AliveWorkers;
    var t := AfterSubmit(cfg, s, w, norm);
    if t.agg.buffer.Keys != {} {
      assert !(H.AliveWorkers(s.mon) * t.agg.sockets <= t.agg.buffer.Keys);
      var v :| v in H.AliveWorkers(s.mon) * t.agg.sockets && v !in t.agg.buffer.Keys;
      assert v in Missing(t);
    }
  }

  /** A submission fires if and only if the barrier waits for nobody but the submitter, and then takes every
  buffered push. So a stalled barrier is released by the next submission, if there is one. */
  lemma SubmitFires(cfg: Config, s: State, w: Id, norm: real)
    requires Synchronous(cfg) && Enabled(s, Submit(w, norm))
    ensures var t := AfterSubmit(cfg, s, w, norm);
            && (|t.fired| > |s.fired| <==> Missing(s) <= {w})
            && (|t.fired| > |s.fired| ==> Last(t.fired).Keys == s.agg.buffer.Keys + {w})
    ensures Stalled(s) ==> |AfterSubmit(cfg, s, w, norm).fired| > |s.fired|
  {
    hide H.AliveWorkers;
    var wanted, have := H.AliveWorkers(s.mon) * s.agg.sockets, s.agg.buffer.Keys;
    assert wanted <= have + {w} <==> wanted - have <= {w} by {
      assert forall v :: v in wanted - have <==> v in wanted && v !in have;
    }
  }

  /** With a quorum it fires if and only if that many ALIVE workers have a push, whoever else is missing, and then takes
  every buffered push, of the ALIVE and of the others. */
  lemma QuorumFires(cfg: Config, s: State, w: Id, norm: real)
    requires cfg.minReady > 0 && Enabled(s, Submit(w, norm))
    ensures var t := AfterSubmit(cfg, s, w, norm);
            && (|t.fired| > |s.fired| <==> |(s.agg.buffer.Keys + {w}) * H.AliveWorkers(s.mon)| >= cfg.minReady)
            && (|t.fired| > |s.fired| ==> Last(t.fired).Keys == s.agg.buffer.Keys + {w})
  {
    hide H.AliveWorkers;
    var d := s.conns[w].handler.msg.delta.(number := s.conns[w].submits);
    assert s.agg.buffer[w := d].Keys == s.agg.buffer.Keys + {w};
  }

  /** What e takes off the list of ALIVE workers. */
  ghost function Removed(cfg: Config, s: State, e: Event): set<Id> {
    if e.Bury? then {e.w}
    else if e.Scan? then set w | w in s.mon.status && H.Overdue(s.mon, w, e.now, cfg.timeout)
    else {}
  }

  /** Exactly what stalls the barrier: a mark_dead, or a demoting scan, that takes away the last worker that
  pushes are waiting for. In particular unregistering never does. This holds with demotion too. */
  lemma StallCause(cfg: Config, s: State, e: Event)
    requires Synchronous(cfg) && HandlersOk(s) && !Stalled(s) && Enabled(s, e)
    ensures Stalled(After(cfg, s, e)) <==> s.agg.buffer.Keys != {} && Missing(s) <= Removed(cfg, s, e)
  {
    hide HandlersOk, S.Apply;
    var t := After(cfg, s, e);
    if e.Submit? {
      SubmitLeavesNoStall(cfg, s, e.w, e.norm);
    } else if e.Leave? {
      LeaveKeepsMissing(cfg, s, e);
    } else if e.Bury? || e.Scan? {
      RemovedFromMissing(cfg, s, e);
      A.EmptyDifference(Missing(s), Removed(cfg, s, e));
    } else {
      OthersKeepMissing(cfg, s, e);
    }
  }

  lemma LeaveKeepsMissing(cfg: Config, s: State, e: Event)
    requires HandlersOk(s) && Enabled(s, e) && e.Leave?
    ensures Missing(After(cfg, s, e)) == Missing(s) && After(cfg, s, e).agg.buffer.Keys <= s.agg.buffer.Keys
  {
  }

  lemma RemovedFromMissing(cfg: Config, s: State, e: Event)
    requires Enabled(s, e) && (e.Bury? || e.Scan?)
    ensures Missing(After(cfg, s, e)) == Missing(s) - Removed(cfg, s, e) && After(cfg, s, e).agg == s.agg
  {
    var t := After(cfg, s, e);
    assert forall w :: H.Alive(t.mon, w) <==> H.Alive(s.mon, w) && w !in Removed(cfg, s, e);
  }

  lemma OthersKeepMissing(cfg: Config, s: State, e: Event)
    requires Enabled(s, e) && !e.Submit? && !e.Leave? && !e.Bury? && !e.Scan?
    ensures After(cfg, s, e).agg.buffer == s.agg.buffer && Missing(s) <= Missing(After(cfg, s, e))
  {
    hide S.Apply, Sub;
  }

  // ---------- runs in which nobody departs ----------

  predicate Departs(e: Event) {
    e.Local? && e.move.Crash?
  }

  /** A synchronous run without demotion in which no client crashes or closes. */
  ghost predicate StayingRun(cfg: Config, s: State, es: seq<Event>, t: State) {
    QuietRun(cfg, s, es, t) && forall k :: 0 <= k < |es| ==> !Departs(es[k])
  }

  /** Everybody is there and the barrier is not stalled. */
  ghost predicate Live(s: State) {
    && !Stalled(s)
    && forall w :: w in s.conns ==> !s.conns[w].gone
  }

  lemma StayStep(cfg: Config, s: State, e: Event)
    requires OrderlyOk(s) && Enabled(s, e) && !Departs(e)
    requires forall w :: w in s.conns ==> !s.conns[w].gone
    ensures forall w :: w in After(cfg, s, e).conns ==> !After(cfg, s, e).conns[w].gone
  {
    hide OrderlyOk, S.Apply, A.Submitted, Sub;
    if e.Local? && e.move.Receive? {
      OrderlyAt(s, e.w);
    }
  }

  lemma LiveStep(cfg: Config, s: State, e: Event)
    requires Synchronous(cfg) && HandlersOk(s) && OrderlyOk(s) && Live(s)
    requires Enabled(s, e) && Quiet(cfg, s, e) && !Departs(e)
    ensures Live(After(cfg, s, e))
  {
    hide OrderlyOk, After, Missing;
    StayStep(cfg, s, e);
    StallCause(cfg, s, e);
    if e.Scan? {
      QuietRemovesNobody(cfg, s, e);
    }
  }

  lemma QuietRemovesNobody(cfg: Config, s: State, e: Event)
    requires e.Scan? && Quiet(cfg, s, e)
    ensures Removed(cfg, s, e) == {}
  {
    forall w ensures w !in Removed(cfg, s, e) {
      H.ScanKeepsRecent(s.mon, w, e.now, cfg.timeout);
    }
  }

  lemma {:induction false} LiveRun(cfg: Config, s: State, es: seq<Event>, t: State)
    requires Synchronous(cfg) && Kept(cfg, s) && OrderlyOk(s) && Live(s)
    requires StayingRun(cfg, s, es, t) && CoversLiveAlways(cfg, s, es)
    ensures Live(t)
    decreases |es|
  {
    if es != [] {
      hide HandlersOk, StoreOk, RoundsOk, LedgerOk, OrderlyOk, After, Enabled, Quiet, CoversLive, Live;
      KeptStep(cfg, s, es[0]);
      OrderlyStep(cfg, s, es[0]);
      assert !Departs(es[0]);
      LiveStep(cfg, s, es[0]);
      LiveRun(cfg, After(cfg, s, es[0]), es[1..], t);
    }
  }

  /** Steps of handlers, and the reading of a reply by a client: what answers a waiting client. */
  predicate Answering(e: Event) {
    && !e.Connect? && !e.Scan?
    && (e.Local? ==> !e.move.Crash? && !e.move.SendPull? && !e.move.SendPush? && !e.move.SendBeat?)
  }

  ghost predicate CanAnswer(s: State) {
    exists e :: Answering(e) && Enabled(s, e)
  }

  /** A handler that is not waiting for a message has a step of its own to take. */
  lemma BusyHandlerSteps(s: State, w: Id) returns (e: Event)
    requires OwedOnce(s) && w in s.conns && !s.conns[w].handler.Recv? && !s.conns[w].handler.Done?
    ensures Answering(e) && !e.Connect? && !e.Scan? && e.w == w && Enabled(s, e)
    ensures e.Local? ==>
      e.move.CopyWeights? || e.move.SendWeights? || e.move.SendBeatAck? || e.move.FetchStep? || e.move.AcksDone?
  {
    var h := s.conns[w].handler;
    e := match h
      case RegBeat(_) => Announce(w, 0.0)
      case RegSock(_) => Join(w)
      case Dispatch(m) =>
        if m.Pull? then Local(w, CopyWeights) else if m.Push? then Submit(w, 0.0) else AnswerBeat(w, 0.0)
      case ReplyWeights(_) => Local(w, SendWeights)
      case ReplyBeat => Local(w, SendBeatAck)
      case Apply(_, _, _) => ApplyRound(w)
      case ReadStep(_, _) => Local(w, FetchStep)
      case Acking(_, _, todo) => if todo == {} then Local(w, AcksDone) else (var to :| to in todo; SendAck(w, to))
      case Check(_, _) => CheckSave(w)
      case Save(_, _) => WriteSave(w)
      case MarkDead => Bury(w)
      case _ => Leave(w);
    assert h.Acking? ==> forall to :: to in h.todo ==> Acknowledges(s, w, to);
  }

  /** If nothing can be answered, every handler waits for a message or is gone. */
  lemma NobodyBusy(s: State, w: Id)
    requires OwedOnce(s) && !CanAnswer(s) && w in s.conns
    ensures s.conns[w].handler.Recv? || s.conns[w].handler.Done?
    ensures s.conns[w].gone ==> s.conns[w].handler.Done?
  {
    if !s.conns[w].handler.Recv? && !s.conns[w].handler.Done? {
      var e := BusyHandlerSteps(s, w);
    } else if s.conns[w].gone && s.conns[w].handler.Recv? {
      assert Answering(Local(w, Hangup)) && Enabled(s, Local(w, Hangup));
    }
  }

  lemma NothingToRead(s: State, w: Id)
    requires !CanAnswer(s) && w in s.conns && !s.conns[w].gone && Awaiting(s.conns[w].client)
    ensures s.conns[w].s2c == [] && (s.conns[w].handler.Recv? ==> s.conns[w].c2s == [])
  {
    assert !Enabled(s, Local(w, Deliver)) && !Enabled(s, Local(w, Receive)) by {
      assert Answering(Local(w, Deliver)) && Answering(Local(w, Receive));
    }
  }

  /** A waiting client with nothing left to do for anybody has its push in the buffer. */
  lemma QuietClientBuffered(s: State, w: Id)
    requires OrderlyOk(s) && !CanAnswer(s)
    requires w in s.conns && !s.conns[w].gone && Awaiting(s.conns[w].client)
    ensures w in s.agg.buffer
  {
    NobodyBusy(s, w);
    NothingToRead(s, w);
    OrderlyAt(s, w);
    if Owed(s, w) {
      var f :| Acknowledges(s, f, w);
      NobodyBusy(s, f);
    }
    hide OrderlyOk, CanAnswer, Owed;
  }

  /** Every connection is either registered, with its client there, or has been cleaned up. */
  predicate Settled(s: State) {
    forall w :: w in s.conns ==> if s.conns[w].gone then s.conns[w].handler.Done? else Joined(s.conns[w].handler)
  }

  /** Everybody who is there has a push in the buffer. */
  predicate AllPushed(s: State) {
    forall w :: w in s.conns && !s.conns[w].gone ==> w in s.agg.buffer
  }

  /** Somebody is there, and everybody who is waits for a reply. */
  predicate AllWait(s: State) {
    && (exists w :: w in s.conns && !s.conns[w].gone)
    && forall w :: w in s.conns && !s.conns[w].gone ==> Awaiting(s.conns[w].client)
  }

  lemma BlockedIsPushed(s: State)
    requires HandlersOk(s) && OrderlyOk(s) && AllWait(s) && !CanAnswer(s)
    ensures Settled(s) && AllPushed(s)
  {
    hide AllOrderly, OwedOnce, CanAnswer;
    forall w | w in s.conns && !s.conns[w].gone ensures w in s.agg.buffer {
      QuietClientBuffered(s, w);
    }
    forall w | w in s.conns && s.conns[w].gone ensures s.conns[w].handler.Done? {
      NobodyBusy(s, w);
    }
  }

  /** A worker that is there with its push in the buffer: nothing is on the way, its handler waits for a message. */
  lemma BufferedIsIdle(s: State, w: Id)
    requires OrderlyOk(s) && w in s.conns && !s.conns[w].gone && w in s.agg.buffer && Joined(s.conns[w].handler)
    ensures var c := s.conns[w]; c.client.AwaitAck? && c.c2s == [] && c.s2c == [] && c.handler == Recv(true)
  {
    OrderlyAt(s, w);
    hide OrderlyOk, Owed;
  }

  lemma PushedIsBlocked(s: State)
    requires OrderlyOk(s) && Settled(s) && AllPushed(s)
    ensures !CanAnswer(s)
  {
    hide OrderlyOk;
    forall w | w in s.conns && !s.conns[w].gone
      ensures var c := s.conns[w]; c.client.AwaitAck? && c.c2s == [] && c.s2c == [] && c.handler == Recv(true)
    {
      BufferedIsIdle(s, w);
    }
    forall e | Answering(e) ensures !Enabled(s, e) {
      IdleNotEnabled(s, e);
    }
  }

  lemma IdleNotEnabled(s: State, e: Event)
    requires Answering(e)
    requires forall w :: w in s.conns ==> var c := s.conns[w];
      if c.gone then c.handler.Done? else c.client.AwaitAck? && c.c2s == [] && c.s2c == [] && c.handler == Recv(true)
    ensures !Enabled(s, e)
  {
  }

  /** When waiting workers are blocked, exactly, in every mode, with crashes and with timeout demotion: in a run whose
  rounds reach the registered workers that are there, and at a moment at which every client still there waits for a
  reply, no step of a handler or a client can bring one if and only if every one of them has its push in the buffer and
  every other connection has been cleaned up. Then all that can still happen is that somebody connects or crashes, or a
  scan. */
  lemma BlockedExactly(cfg: Config, es: seq<Event>, t: State)
    requires Run(cfg, Init(cfg), es, t) && CoversLiveAlways(cfg, Init(cfg), es) && AllWait(t)
    ensures !CanAnswer(t) <==> Settled(t) && AllPushed(t)
    ensures !CanAnswer(t) ==> forall e :: Enabled(t, e) ==> e.Connect? || e.Scan? || (e.Local? && e.move.Crash?)
  {
    hide HandlersOk, StoreOk, RoundsOk, LedgerOk, OrderlyOk, Run, CoversLiveAlways, Settled, AllPushed, Init;
    OrderlyAlways(cfg, es, t);
    if !CanAnswer(t) {
      BlockedIsPushed(t);
      forall e | Enabled(t, e) ensures e.Connect? || e.Scan? || (e.Local? && e.move.Crash?) {
        assert !Answering(e);
      }
    } else if Settled(t) && AllPushed(t) {
      PushedIsBlocked(t);
    }
  }

  /** Where everybody announced is ALIVE that is to say that the barrier is stalled. */
  lemma PushedIsStalled(s: State)
    requires HandlersOk(s) && AliveOk(s) && AllWait(s) && Settled(s)
    ensures AllPushed(s) <==> Stalled(s)
  {
    var v :| v in s.conns && !s.conns[v].gone;
    if AllPushed(s) {
      assert v in s.agg.buffer.Keys;
      assert forall w :: w in s.agg.sockets ==> w in s.agg.buffer;
      assert Missing(s) == {};
    } else if Stalled(s) {
      forall w | w in s.conns && !s.conns[w].gone ensures w in s.agg.buffer {
        assert Announced(s.conns[w].handler) && H.Alive(s.mon, w) && w in s.agg.sockets && w !in Missing(s);
      }
    }
  }

  /** In particular in synchronous runs without demotion, crashes allowed, the workers are blocked if and only if the
  barrier is stalled and every connection settled. */
  lemma StalledExactly(cfg: Config, es: seq<Event>, t: State)
    requires Synchronous(cfg) && QuietRun(cfg, Init(cfg), es, t) && AllWait(t)
    ensures !CanAnswer(t) <==> Stalled(t) && Settled(t)
    ensures !CanAnswer(t) ==> forall e :: Enabled(t, e) ==> e.Connect? || e.Scan? || (e.Local? && e.move.Crash?)
  {
    hide HandlersOk, StoreOk, RoundsOk, LedgerOk, AliveOk, Run, QuietRun, CoversLiveAlways, Stalled, Settled, AllPushed;
    hide Init, CanAnswer;
    SynchronousReaches(cfg, es, t);
    BlockedExactly(cfg, es, t);
    if Settled(t) {
      PushedIsStalled(t);
    }
  }

  lemma InitLive(cfg: Config)
    ensures Live(Init(cfg))
  {
  }

  lemma StayingIsLive(cfg: Config, es: seq<Event>, t: State)
    requires Synchronous(cfg) && StayingRun(cfg, Init(cfg), es, t)
    ensures Live(t)
  {
    hide Kept, OrderlyOk, Run, QuietRun, CoversLiveAlways, AliveOk, Live;
    SynchronousReaches(cfg, es, t);
    KeptInit(cfg);
    OrderlyInit(cfg);
    InitLive(cfg);
    LiveRun(cfg, Init(cfg), es, t);
  }

  /** While nobody departs the barrier never deadlocks: whenever every client waits for a reply, some handler
  or some client has a step to take towards one. */
  lemma NoDeadlock(cfg: Config, es: seq<Event>, t: State)
    requires Synchronous(cfg) && StayingRun(cfg, Init(cfg), es, t) && AllWait(t)
    ensures CanAnswer(t)
  {
    hide QuietRun, CanAnswer, Stalled;
    StayingIsLive(cfg, es, t);
    StalledExactly(cfg, es, t);
  }
}
