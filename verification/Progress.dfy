/** Waiting workers get a reply after a bounded number of steps: every step of a handler, and every reply read by a
client, uses up some of the work that is on the way. */
module Progress {
  import opened Workers
  import opened Params
  import opened Protocol
  import opened Conservation
  import opened Barrier
  import opened Acks
  import opened Alignment
  import opened Asserts
  import opened Stall
  import S = Store
  import H = Heartbeat
  import A = Aggregation

  /** At most how many steps a handler is from having nothing to do, if there are n connections. */
  function Cost(h: Handler, n: nat): nat {
    match h
    case Done => 0
    case Unreg => 1
    case MarkDead => 2
    case Recv(_) => 3
    case Save(_, _) => 4
    case Check(_, _) => 5
    case Acking(_, _, todo) => 6 + 2 * |todo|
    case ReadStep(_, sockets) => 7 + 2 * |sockets|
    case Apply(_, _, sockets) => 8 + 2 * |sockets|
    case ReplyWeights(_) => 5
    case ReplyBeat => 5
    case Dispatch(m) => if m.Push? then 9 + 2 * n else 6
    case RegSock(m) => if m.Push? then 10 + 2 * n else 7
    case RegBeat(m) => if m.Push? then 11 + 2 * n else 8
  }

  /** The cost of k requests that have not been delivered. */
  function Queued(k: nat, n: nat): nat {
    if k == 0 then 0 else Queued(k - 1, n) + 9 + 2 * n
  }

  function ConnWork(c: Conn, n: nat): nat {
    Cost(c.handler, n) + Queued(|c.c2s|, n) + if c.gone then 0 else |c.s2c|
  }

  ghost function Work(conns: map<Id, Conn>, keys: set<Id>, n: nat): nat
    requires keys <= conns.Keys
  {
    if keys == {} then 0 else
      var w :| w in keys;
      ConnWork(conns[w], n) + Work(conns, keys - {w}, n)
  }

  /** All the work that is on the way. */
  ghost function Measure(s: State): nat {
    Work(s.conns, s.conns.Keys, |s.conns.Keys|)
  }

  lemma {:induction false} WorkTake(conns: map<Id, Conn>, keys: set<Id>, n: nat, v: Id)
    requires keys <= conns.Keys && v in keys
    ensures Work(conns, keys, n) == ConnWork(conns[v], n) + Work(conns, keys - {v}, n)
    decreases keys
  {
    var w :| w in keys && Work(conns, keys, n) == ConnWork(conns[w], n) + Work(conns, keys - {w}, n);
    if w != v {
      WorkTake(conns, keys - {w}, n, v);
      WorkTake(conns, keys - {v}, n, w);
      assert keys - {w} - {v} == keys - {v} - {w};
    }
  }

  lemma {:induction false} WorkFrame(conns: map<Id, Conn>, conns': map<Id, Conn>, keys: set<Id>, n: nat)
    requires keys <= conns.Keys && keys <= conns'.Keys && forall w :: w in keys ==> conns[w] == conns'[w]
    ensures Work(conns, keys, n) == Work(conns', keys, n)
    decreases keys
  {
    if keys != {} {
      var w :| w in keys;
      WorkTake(conns, keys, n, w);
      WorkTake(conns', keys, n, w);
      WorkFrame(conns, conns', keys - {w}, n);
    }
  }

  /** Changing one connection changes the total by that connection's change. */
  lemma WorkUpdate(s: State, t: State, w: Id)
    requires w in s.conns && w in t.conns && t.conns == s.conns[w := t.conns[w]]
    ensures Measure(t) == Measure(s) - ConnWork(s.conns[w], |s.conns.Keys|) + ConnWork(t.conns[w], |s.conns.Keys|)
  {
    var n := |s.conns.Keys|;
    assert t.conns.Keys == s.conns.Keys;
    WorkTake(s.conns, s.conns.Keys, n, w);
    WorkTake(t.conns, s.conns.Keys, n, w);
    WorkFrame(s.conns, t.conns, s.conns.Keys - {w}, n);
  }

  lemma MoveWorks(c: Conn, m: Move, store: S.Store, version: nat, n: nat)
    requires CanMove(c, m) && Answering(Local(Worker(0), m))
    ensures ConnWork(Moved(c, m, store, version), n) < ConnWork(c, n)
  {
    hide Sub;
  }

  lemma SubsetSmaller<T>(a: set<T>, b: set<T>)
    requires a <= b
    ensures |a| <= |b|
  {
    assert b == a + (b - a);
  }

  lemma SubmitWorks(cfg: Config, s: State, w: Id, norm: real)
    requires HandlersOk(s) && Enabled(s, Submit(w, norm))
    ensures Measure(AfterSubmit(cfg, s, w, norm)) < Measure(s)
  {
    hide A.ShouldApply, H.AliveWorkers, Measure;
    SubsetSmaller(s.agg.sockets, s.conns.Keys);
    WorkUpdate(s, AfterSubmit(cfg, s, w, norm), w);
  }

  lemma AckWorks(s: State, w: Id, to: Id)
    requires Enabled(s, SendAck(w, to))
    ensures Measure(AfterAck(s, w, to)) < Measure(s)
  {
    hide Measure;
    var h := s.conns[w].handler;
    var s1 := With(s, w, s.conns[w].(handler := h.(todo := h.todo - {to})));
    WorkUpdate(s, s1, w);
    WorkUpdate(s1, AfterAck(s, w, to), to);
  }

  lemma LocalWorks(cfg: Config, s: State, w: Id, m: Move)
    requires Enabled(s, Local(w, m)) && Answering(Local(w, m))
    ensures Measure(After(cfg, s, Local(w, m))) < Measure(s)
  {
    hide Measure, Queued;
    MoveWorks(s.conns[w], m, Last(s.hist), |s.hist| - 1, |s.conns.Keys|);
    hide Moved, ConnWork;
    WorkUpdate(s, After(cfg, s, Local(w, m)), w);
  }

  /** The other steps of a handler. */
  predicate Other(e: Event) {
    e.Announce? || e.Join? || e.ApplyRound? || e.CheckSave? || e.WriteSave? || e.AnswerBeat? || e.Bury? || e.Leave?
  }

  lemma OtherWorks(cfg: Config, s: State, e: Event)
    requires Enabled(s, e) && Other(e)
    ensures Measure(After(cfg, s, e)) < Measure(s)
  {
    hide Measure, Queued, S.Apply;
    WorkUpdate(s, After(cfg, s, e), e.w);
  }

  /** Every answering step uses up work. */
  lemma StepWorks(cfg: Config, s: State, e: Event)
    requires HandlersOk(s) && Enabled(s, e) && Answering(e)
    ensures Measure(After(cfg, s, e)) < Measure(s)
  {
    hide HandlersOk, Measure, Enabled, AfterSubmit, AfterAck, AfterApply, AfterCheck, AfterLeave, Moved;
    if e.Submit? {
      SubmitWorks(cfg, s, e.w, e.norm);
    } else if e.SendAck? {
      AckWorks(s, e.w, e.to);
    } else if e.Local? {
      LocalWorks(cfg, s, e.w, e.move);
    } else {
      OtherWorks(cfg, s, e);
    }
  }

  /** An answering step leaves a client alone or gives it its reply. */
  predicate Served(c: Conn, d: Conn) {
    && (d.client == c.client || d.client.Ready? || d.client.Acked? || d.client == Failed)
    && (c.gone ==> d.gone && d.client == c.client)
    && (d.gone ==> c.gone || d.client == Failed)
  }

  lemma StepServes(cfg: Config, s: State, e: Event)
    requires Enabled(s, e) && Answering(e)
    ensures After(cfg, s, e).conns.Keys == s.conns.Keys
    ensures forall w :: w in s.conns ==> Served(s.conns[w], After(cfg, s, e).conns[w])
  {
    hide S.Apply, A.Submitted, Sub;
  }

  lemma {:induction false} RunServes(cfg: Config, s: State, es: seq<Event>, t: State)
    requires Run(cfg, s, es, t) && AllAnswer(es)
    ensures t.conns.Keys == s.conns.Keys
    ensures forall w :: w in s.conns ==> Served(s.conns[w], t.conns[w])
    decreases |es|
  {
    hide After, Enabled, Answering;
    if es != [] {
      StepServes(cfg, s, es[0]);
      RunServes(cfg, After(cfg, s, es[0]), es[1..], t);
    }
  }

  predicate AllAnswer(es: seq<Event>) {
    forall k :: 0 <= k < |es| ==> Answering(es[k])
  }

  /** So a run of answering steps is no longer than the work at its start. */
  lemma {:induction false} AnsweringEnds(cfg: Config, s: State, es: seq<Event>, t: State)
    requires Kept(cfg, s) && Run(cfg, s, es, t) && AllAnswer(es)
    ensures |es| + Measure(t) <= Measure(s)
    decreases |es|
  {
    if es != [] {
      hide HandlersOk, StoreOk, RoundsOk, LedgerOk, After, Enabled, Measure, Answering;
      KeptStep(cfg, s, es[0]);
      StepWorks(cfg, s, es[0]);
      AnsweringEnds(cfg, After(cfg, s, es[0]), es[1..], t);
    }
  }

  /** k times x. */
  function Product(k: nat, x: nat): (r: nat)
    ensures r == k * x
  {
    if k == 0 then 0 else Product(k - 1, x) + x
  }

  lemma {:induction false} WorkBound(conns: map<Id, Conn>, keys: set<Id>, n: nat, bound: nat)
    requires keys <= conns.Keys && forall w :: w in keys ==> ConnWork(conns[w], n) <= bound
    ensures Work(conns, keys, n) <= Product(|keys|, bound)
    decreases keys
  {
    hide ConnWork;
    if keys != {} {
      var w :| w in keys;
      WorkTake(conns, keys, n, w);
      WorkBound(conns, keys - {w}, n, bound);
      assert |keys - {w}| == |keys| - 1;
    }
  }

  /** One connection never has more than 18 + 4 n work. */
  lemma ConnBound(c: Conn, inBuf: bool, owed: bool, n: nat)
    requires Orderly(c, inBuf, owed) && |ToAck(c.handler)| <= n
    ensures ConnWork(c, n) <= 18 + 4 * n
  {
    assert Queued(0, n) == 0 && Queued(1, n) == 9 + 2 * n;
  }

  lemma MeasureBound(s: State)
    requires OrderlyOk(s)
    ensures Measure(s) <= |s.conns.Keys| * (18 + 4 * |s.conns.Keys|)
  {
    hide Orderly, ConnWork, Owed;
    var n := |s.conns.Keys|;
    forall w | w in s.conns ensures ConnWork(s.conns[w], n) <= 18 + 4 * n {
      forall v | v in ToAck(s.conns[w].handler) ensures v in s.conns {
        assert Acknowledges(s, w, v);
      }
      SubsetSmaller(ToAck(s.conns[w].handler), s.conns.Keys);
      ConnBound(s.conns[w], w in s.agg.buffer, Owed(s, w), n);
    }
    WorkBound(s.conns, s.conns.Keys, n, 18 + 4 * n);
  }

  lemma {:induction false} AnsweringStays(cfg: Config, s: State, fs: seq<Event>, t: State)
    requires Run(cfg, s, fs, t) && AllAnswer(fs)
    ensures StayingRun(cfg, s, fs, t)
    decreases |fs|
  {
    hide After, Enabled;
    if fs != [] {
      AnsweringStays(cfg, After(cfg, s, fs[0]), fs[1..], t);
      assert forall k :: 0 <= k < |fs| - 1 ==> fs[1..][k] == fs[k + 1];
    }
  }

  lemma {:induction false} StayOn(cfg: Config, o: State, es: seq<Event>, s: State, fs: seq<Event>, t: State)
    requires StayingRun(cfg, o, es, s) && StayingRun(cfg, s, fs, t)
    ensures StayingRun(cfg, o, es + fs, t)
    decreases |es|
  {
    hide After, Enabled, Quiet;
    if es == [] {
      assert es + fs == fs;
    } else {
      assert (es + fs)[0] == es[0] && (es + fs)[1..] == es[1..] + fs;
      assert forall k :: 0 <= k < |es| - 1 ==> es[1..][k] == es[k + 1];
      StayOn(cfg, After(cfg, o, es[0]), es[1..], s, fs, t);
      assert forall k :: 0 <= k < |es + fs| ==> !Departs((es + fs)[k]);
    }
  }

  /** w has its reply. */
  predicate Answered(s: State, t: State, w: Id) {
    && w in s.conns && w in t.conns && Awaiting(s.conns[w].client)
    && (t.conns[w].client.Ready? || t.conns[w].client.Acked?)
  }

  lemma AnswersBounded(cfg: Config, es: seq<Event>, s: State, fs: seq<Event>, t: State)
    requires Run(cfg, Init(cfg), es, s) && CoversLiveAlways(cfg, Init(cfg), es) && Run(cfg, s, fs, t) && AllAnswer(fs)
    ensures |fs| <= |s.conns.Keys| * (18 + 4 * |s.conns.Keys|)
  {
    hide HandlersOk, StoreOk, RoundsOk, LedgerOk, OrderlyOk, Run, CoversLiveAlways, AllAnswer, Init, Measure;
    OrderlyAlways(cfg, es, s);
    AnsweringEnds(cfg, s, fs, t);
    MeasureBound(s);
  }

  /** A run goes on: what holds after it. */
  lemma RunGoesOn(cfg: Config, es: seq<Event>, s: State, fs: seq<Event>, t: State)
    requires Run(cfg, Init(cfg), es, s) && CoversLiveAlways(cfg, Init(cfg), es)
    requires Run(cfg, s, fs, t) && CoversLiveAlways(cfg, s, fs)
    ensures Kept(cfg, t) && OrderlyOk(t) && Faultless(s) && Faultless(t)
  {
    hide Kept, OrderlyOk, Run, CoversLiveAlways, Init;
    OrderlyAlways(cfg, es, s);
    NoAssertFails(cfg, es, s);
    OrderlyRun(cfg, s, fs, t);
    FaultlessRun(cfg, s, fs, t);
  }

  /** Progress, in every mode, with crashes and with demotion: in a run whose rounds reach the registered workers that
  are there, let every client still there wait for a reply. Whatever steps handlers take and replies clients read from
  there, in any order, after at most n * (18 + 4 n) of them, n the number of connections, there is none left to take,
  and by then some client has its reply, or every worker still there has its push in the buffer and everything else has
  been cleaned up. */
  lemma WaitersAnswered(cfg: Config, es: seq<Event>, s: State, fs: seq<Event>, t: State)
    requires Run(cfg, Init(cfg), es, s) && CoversLiveAlways(cfg, Init(cfg), es) && AllWait(s)
    requires Run(cfg, s, fs, t) && AllAnswer(fs) && CoversLiveAlways(cfg, s, fs)
    ensures |fs| <= |s.conns.Keys| * (18 + 4 * |s.conns.Keys|)
    ensures !CanAnswer(t) ==> (exists w :: Answered(s, t, w)) || (AllWait(t) && Settled(t) && AllPushed(t))
  {
    AnswersBounded(cfg, es, s, fs, t);
    hide HandlersOk, StoreOk, RoundsOk, LedgerOk, OrderlyOk, Run, CoversLiveAlways, AllAnswer, Init, CanAnswer, Settled;
    hide AllPushed, AllWait, Answered;
    RunGoesOn(cfg, es, s, fs, t);
    RunServes(cfg, s, fs, t);
    if !CanAnswer(t) {
      if !AllWait(t) {
        var w := SomeoneServed(s, t);
      } else {
        BlockedIsPushed(t);
      }
    }
  }

  lemma SomeoneServed(s: State, t: State) returns (w: Id)
    requires AllWait(s) && !AllWait(t) && Faultless(t) && t.conns.Keys == s.conns.Keys
    requires forall v :: v in s.conns ==> Served(s.conns[v], t.conns[v])
    ensures Answered(s, t, w)
  {
    var v :| v in s.conns && !s.conns[v].gone;
    assert !t.conns[v].gone;
    w :| w in t.conns && !t.conns[w].gone && !Awaiting(t.conns[w].client);
  }

  /** In particular in synchronous runs without demotion, crashes allowed: somebody has a reply, or the barrier is
  stalled. */
  lemma SurvivorsAnswered(cfg: Config, es: seq<Event>, s: State, fs: seq<Event>, t: State)
    requires Synchronous(cfg) && QuietRun(cfg, Init(cfg), es, s) && AllWait(s)
    requires Run(cfg, s, fs, t) && AllAnswer(fs)
    ensures |fs| <= |s.conns.Keys| * (18 + 4 * |s.conns.Keys|)
    ensures !CanAnswer(t) ==> (exists w :: Answered(s, t, w)) || (Stalled(t) && Settled(t))
  {
    hide HandlersOk, StoreOk, RoundsOk, LedgerOk, OrderlyOk, AliveOk, Run, QuietRun, CoveringRun, CoversLiveAlways;
    hide AllAnswer, Init, CanAnswer, Stalled, Settled, AllPushed, AllWait;
    SynchronousReaches(cfg, es, s);
    AnsweringStays(cfg, s, fs, t);
    QuietCovers(cfg, s, fs, t);
    CoveringReaches(cfg, s, fs, t);
    WaitersAnswered(cfg, es, s, fs, t);
    RunGoesOn(cfg, es, s, fs, t);
    if AllWait(t) && Settled(t) {
      PushedIsStalled(t);
    }
  }

  /** And while nobody departs somebody has a reply. */
  lemma StayersAnswered(cfg: Config, es: seq<Event>, s: State, fs: seq<Event>, t: State)
    requires Synchronous(cfg) && StayingRun(cfg, Init(cfg), es, s) && AllWait(s)
    requires Run(cfg, s, fs, t) && AllAnswer(fs)
    ensures |fs| <= |s.conns.Keys| * (18 + 4 * |s.conns.Keys|)
    ensures !CanAnswer(t) ==> exists w :: Answered(s, t, w)
  {
    hide QuietRun, Run, AllAnswer, Init, CanAnswer, Stalled, Settled, AllWait;
    SurvivorsAnswered(cfg, es, s, fs, t);
    AnsweringStays(cfg, s, fs, t);
    StayOn(cfg, Init(cfg), es, s, fs, t);
    StayingIsLive(cfg, es + fs, t);
  }
}
