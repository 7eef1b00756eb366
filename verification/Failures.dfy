/** Concrete runs in which a promise of the server's documentation does not hold, for every configuration
of the kind they are about. */
module Failures {
  import opened Workers
  import opened Params
  import opened Protocol
  import opened BarrierTheorems
  import opened Acks
  import opened Stall
  import opened Runs
  import opened Scenarios
  import S = Store
  import H = Heartbeat
  import A = Aggregation

  const FIRST := Worker(0)
  const SECOND := Worker(1)

  // ---------- a crash ----------

  /** Two workers that are training from the start weights. */
  function Pair(cfg: Config): State {
    WithTraining(WithTraining(Init(cfg), FIRST), SECOND)
  }

  lemma PairRun(cfg: Config)
    ensures Reached(cfg, Pair(cfg))
  {
    hide Leads;
    Stay(cfg, Init(cfg));
    JoinRun(cfg, Init(cfg), Init(cfg), FIRST);
    JoinRun(cfg, Init(cfg), WithTraining(Init(cfg), FIRST), SECOND);
  }

  /** The first of them has pushed, without having learned anything, and waits for the other. */
  function OneWaits(cfg: Config): State {
    Waiting(Pushing(Pair(cfg), FIRST, cfg.start.weights), FIRST)
  }

  lemma OneWaitsRun(cfg: Config)
    requires Synchronous(cfg)
    ensures Reached(cfg, OneWaits(cfg))
  {
    hide Leads, S.Apply, Sub, A.Submitted;
    PairRun(cfg);
    PushRun(cfg, Init(cfg), Pair(cfg), FIRST, cfg.start.weights);
    var s := Pushing(Pair(cfg), FIRST, cfg.start.weights);
    EarlierWaits(cfg, s, FIRST, SECOND);
    WaitRun(cfg, Init(cfg), s, FIRST);
  }

  /** w has crashed and its handler has cleaned up. */
  function Departed(s: State, w: Id): State
    requires w in s.conns
  {
    With(s, w, s.conns[w].(gone := true, handler := Done)).(
    mon := H.MarkedDead(s.mon, w), agg := A.Unregistered(s.agg, w))
  }

  lemma DepartRun(cfg: Config, o: State, s: State, w: Id)
    requires Leads(cfg, o, s) && w in s.conns && Trainee(s.conns[w]) && w !in s.agg.buffer
    ensures Leads(cfg, o, Departed(s, w))
  {
    hide Leads, S.Apply, Sub, A.Submitted;
    var c := s.conns[w];
    var c1 := c.(gone := true);
    MoveRun(cfg, o, s, w, Crash, c1);
    var c2 := c1.(handler := MarkDead);
    MoveRun(cfg, o, With(s, w, c1), w, Hangup, c2);
    assert With(With(s, w, c1), w, c2) == With(s, w, c2);
    BuryRun(cfg, o, With(s, w, c2), w);
    assert Departed(With(s, w, c2), w) == Departed(s, w);
  }

  lemma BuryRun(cfg: Config, o: State, s: State, w: Id)
    requires Leads(cfg, o, s) && w in s.conns && s.conns[w].handler == MarkDead && s.conns[w].gone && w !in s.agg.buffer
    ensures Leads(cfg, o, Departed(s, w))
  {
    hide Leads, S.Apply, Sub, A.Submitted;
    Further(cfg, o, s, Bury(w));
    var s1 := With(s, w, s.conns[w].(handler := Unreg)).(mon := H.MarkedDead(s.mon, w));
    assert After(cfg, s, Bury(w)) == s1;
    Further(cfg, o, s1, Leave(w));
    assert s.dropped + {} == s.dropped;
    assert AfterLeave(s1, w) == Departed(s, w);
  }

  /** The second worker has crashed and its handler has cleaned up. */
  function Survivor(cfg: Config): State {
    Departed(OneWaits(cfg), SECOND)
  }

  lemma SurvivorWaits(cfg: Config)
    requires Synchronous(cfg)
    ensures var t := Survivor(cfg);
            && t.conns.Keys == {FIRST, SECOND} && t.conns[SECOND].gone && t.conns[SECOND].handler.Done?
            && !t.conns[FIRST].gone && t.conns[FIRST].client.AwaitAck? && t.conns[FIRST].handler == Recv(true)
            && Stalled(t) && A.ShouldApply(t.agg, H.AliveWorkers(t.mon), cfg.minReady)
  {
    hide Sub;
    var t := Survivor(cfg);
    assert t.agg.buffer.Keys == {FIRST} && t.agg.sockets == {FIRST};
    assert H.AliveWorkers(t.mon) == {FIRST};
    assert Missing(t) == {};
  }

  lemma SurvivorReached(cfg: Config)
    requires Synchronous(cfg)
    ensures Reached(cfg, Survivor(cfg))
  {
    OneWaitsRun(cfg);
    hide Leads;
    DepartRun(cfg, Init(cfg), OneWaits(cfg), SECOND);
  }

  lemma SurvivorSettled(t: State)
    requires t.conns.Keys == {FIRST, SECOND} && t.conns[SECOND].gone && t.conns[SECOND].handler.Done?
    requires !t.conns[FIRST].gone && t.conns[FIRST].client.AwaitAck? && t.conns[FIRST].handler == Recv(true)
    ensures AllWait(t) && Settled(t)
  {
  }

  /** A crash can block training forever: under every synchronous configuration a run with two workers ends,
  after one of them has crashed and been unregistered, with the survivor waiting for an ACK although it is
  the only worker left and its push is buffered. No step of any handler or client can answer it: all that can
  still happen is a connection by somebody else, a scan, or the survivor's own crash. */
  lemma CrashBlocksSurvivor(cfg: Config)
    requires Synchronous(cfg)
    ensures Reached(cfg, Survivor(cfg))
    ensures var t := Survivor(cfg);
            && Stalled(t) && !CanAnswer(t)
            && A.ShouldApply(t.agg, H.AliveWorkers(t.mon), cfg.minReady)
            && FIRST in t.conns && !t.conns[FIRST].gone && t.conns[FIRST].client.AwaitAck?
            && forall e :: Enabled(t, e) ==> e.Connect? || e.Scan? || e == Local(FIRST, Crash)
  {
    var t := Survivor(cfg);
    SurvivorReached(cfg);
    SurvivorWaits(cfg);
    hide Leads, Survivor, Stalled, CanAnswer, QuietRun, A.ShouldApply;
    SurvivorSettled(t);
    var es := QuietRunTo(cfg, Init(cfg), t);
    hide AllWait, Settled;
    StalledExactly(cfg, es, t);
  }

  // ---------- a quorum ----------

  /** The worker that the round leaves out: registered, and waiting for the answer to its first pull. */
  predicate Asking(s: State, w: Id) {
    && w in s.conns && w in s.agg.sockets && w !in s.agg.buffer
    && s.conns[w] == Conn(AwaitWeights, false, Dispatch(Pull), [], [], 0, 0, 0)
  }

  /** w is connected; if `eager`, it is about to push. */
  ghost predicate Member(s: State, w: Id, eager: bool) {
    w in s.conns && H.Alive(s.mon, w) && w in s.agg.sockets && (eager ==> Trainee(s.conns[w]) && w !in s.agg.buffer)
  }

  /** Worker(1) to Worker(n) are connected, the first k of them have their push in the buffer, the others are about to
  push, and Worker(0) is waiting for weights. */
  ghost predicate Crowd(s: State, n: nat, k: nat) {
    && k <= n && Asking(s, FIRST) && s.fired == []
    && (forall i: nat :: 1 <= i <= n ==> Member(s, Worker(i), i > k))
    && (forall i: nat :: i > n ==> Worker(i) !in s.conns)
    && (forall w :: w in s.agg.buffer ==> H.Alive(s.mon, w))
    && |s.agg.buffer.Keys| == k
  }

  /** Any number of workers can gather. */
  lemma {:induction false} Gather(cfg: Config, n: nat) returns (s: State)
    ensures Reached(cfg, s) && Crowd(s, n, 0)
  {
    hide Leads, Crowd;
    if n == 0 {
      Stay(cfg, Init(cfg));
      RegisterRun(cfg, Init(cfg), Init(cfg), FIRST);
      s := Registered(Init(cfg), FIRST);
      NobodyYet(cfg);
    } else {
      var r := Gather(cfg, n - 1);
      CrowdJoins(r, n - 1);
      hide WithTraining;
      JoinRun(cfg, Init(cfg), r, Worker(n));
      s := WithTraining(r, Worker(n));
    }
  }

  lemma NobodyYet(cfg: Config)
    ensures Crowd(Registered(Init(cfg), FIRST), 0, 0)
  {
  }

  lemma CrowdJoins(r: State, n: nat)
    requires Crowd(r, n, 0)
    ensures Worker(n + 1) !in r.conns && Crowd(WithTraining(r, Worker(n + 1)), n + 1, 0)
  {
    hide Member;
    var s := WithTraining(r, Worker(n + 1));
    assert s.agg.buffer == r.agg.buffer;
    forall i: nat | 1 <= i <= n + 1 ensures Member(s, Worker(i), i > 0) {
      if i <= n {
        MemberStays(r, Worker(i), i > 0, Worker(n + 1));
      } else {
        MemberJoins(r, Worker(n + 1));
      }
    }
  }

  lemma MemberStays(r: State, w: Id, eager: bool, v: Id)
    requires Member(r, w, eager) && v != w
    ensures Member(WithTraining(r, v), w, eager)
  {
  }

  lemma MemberJoins(r: State, v: Id)
    requires v !in r.agg.buffer
    ensures Member(WithTraining(r, v), v, true)
  {
  }

  /** And all but the last of a quorum of n can push without firing. */
  lemma {:induction false} Push(cfg: Config, n: nat, k: nat) returns (s: State)
    requires cfg.minReady == n && k < n
    ensures Reached(cfg, s) && Crowd(s, n, k)
    decreases k
  {
    if k == 0 {
      s := Gather(cfg, n);
    } else {
      hide Reached, Leads, Crowd;
      var r := Push(cfg, n, k - 1);
      s := PushOne(cfg, r, n, k - 1);
    }
  }

  /** The next of the crowd is about to submit. */
  lemma NextSubmits(cfg: Config, r: State, n: nat, k: nat) returns (p: State)
    requires Reached(cfg, r) && Crowd(r, n, k) && k < n
    ensures Reached(cfg, p) && Submitting(p, Worker(k + 1)) && p.agg == r.agg && p.mon == r.mon && p.fired == r.fired
    ensures p.conns == r.conns[Worker(k + 1) := p.conns[Worker(k + 1)]]
  {
    hide Leads, S.Apply, Sub;
    var w := Worker(k + 1);
    assert Member(r, w, true);
    var local := r.conns[w].client.snap.weights;
    PushRun(cfg, Init(cfg), r, w, local);
    p := Pushing(r, w, local);
  }

  lemma PushOne(cfg: Config, r: State, n: nat, k: nat) returns (s: State)
    requires Reached(cfg, r) && Crowd(r, n, k) && cfg.minReady == n && k + 1 < n
    ensures Reached(cfg, s) && Crowd(s, n, k + 1)
  {
    hide Leads, Fires;
    var p := NextSubmits(cfg, r, n, k);
    FewWait(cfg, p, Worker(k + 1));
    WaitRun(cfg, Init(cfg), p, Worker(k + 1));
    s := Waiting(p, Worker(k + 1));
    CrowdPushes(r, p, s, n, k);
  }

  lemma CrowdPushes(r: State, p: State, s: State, n: nat, k: nat)
    requires Crowd(r, n, k) && k < n && Submitting(p, Worker(k + 1)) && s == Waiting(p, Worker(k + 1))
    requires p.agg == r.agg && p.mon == r.mon && p.fired == r.fired
    requires p.conns == r.conns[Worker(k + 1) := p.conns[Worker(k + 1)]]
    ensures Crowd(s, n, k + 1)
  {
    var w := Worker(k + 1);
    assert Member(r, w, true);
    assert s.agg.buffer.Keys == r.agg.buffer.Keys + {w};
    forall i: nat | 1 <= i <= n ensures Member(s, Worker(i), i > k + 1) {
      assert Member(r, Worker(i), i > k);
    }
  }

  lemma FewWait(cfg: Config, s: State, w: Id)
    requires Submitting(s, w) && |s.agg.buffer.Keys| + 1 < cfg.minReady
    ensures !Fires(cfg, s, w, 0.0)
  {
    QuorumFires(cfg, s, w, 0.0);
    hide Fires, H.AliveWorkers;
    var have, alive := s.agg.buffer.Keys + {w}, H.AliveWorkers(s.mon);
    assert have == have * alive + (have - alive);
  }

  lemma EnoughFire(cfg: Config, s: State, w: Id)
    requires Submitting(s, w) && |s.agg.buffer.Keys| + 1 >= cfg.minReady >= 1 && H.Alive(s.mon, w)
    requires forall v :: v in s.agg.buffer ==> H.Alive(s.mon, v)
    ensures Fires(cfg, s, w, 0.0)
  {
    QuorumFires(cfg, s, w, 0.0);
    hide Fires;
    var have := s.agg.buffer.Keys + {w};
    assert have * H.AliveWorkers(s.mon) == have;
    assert |have| == |s.agg.buffer.Keys| + 1;
  }

  /** With any quorum n, n workers are about to fire a round while another one is registered and waits for weights. */
  lemma QuorumLeavesOut(cfg: Config) returns (s: State, w: Id)
    requires cfg.minReady >= 1
    ensures Reached(cfg, s) && Asking(s, FIRST) && Enabled(s, Submit(w, 0.0)) && LeftOut(cfg, s, w, 0.0, FIRST)
  {
    hide Leads, Fires;
    var n := cfg.minReady;
    var r := Push(cfg, n, n - 1);
    w := Worker(n);
    assert Member(r, w, true);
    s := NextSubmits(cfg, r, n, n - 1);
    EnoughFire(cfg, s, w);
  }

  /** A run that leaves out FIRST goes on to send it an ACK it should not get, and to break its client. */
  lemma LeavingOutBreaks(cfg: Config, s: State, w: Id) returns (t: State, u: State)
    requires Asking(s, FIRST) && Enabled(s, Submit(w, 0.0)) && LeftOut(cfg, s, w, 0.0, FIRST)
    ensures Leads(cfg, s, t) && !Routed(t)
    ensures Leads(cfg, s, u) && FIRST in u.conns && u.conns[FIRST].client == Failed
  {
    hide Run, LeftOut, Routed, AfterSubmit, Misled, ToAckOf, ToRead, Scans;
    t := LeftOutMisled(cfg, s, w, 0.0, FIRST);
    MisledNotRouted(s, t, FIRST);
    FirstStep(cfg, s, Submit(w, 0.0), ToAckOf(w, FIRST), t);
    ScanFree(w, FIRST);
    u := LeftOutFails(cfg, s, w, 0.0, FIRST);
  }

  lemma ScanFree(w: Id, v: Id)
    ensures Scans([Submit(w, 0.0)] + ToAckOf(w, v)) == 0 && Scans(ToRead(w, 0.0, v)) == 0
  {
    hide Scans;
    var a, b, c, d := Submit(w, 0.0), ApplyRound(w), Local(w, FetchStep), SendAck(w, v);
    ScansOne(a);
    ScansOne(b);
    ScansOne(c);
    ScansOne(d);
    ScansOne(Local(v, Receive));
    ScansJoin([c], [d]);
    ScansJoin([b], [c] + [d]);
    assert [b] + ([c] + [d]) == ToAckOf(w, v);
    ScansJoin([a], ToAckOf(w, v));
    ScansJoin(ToAckOf(w, v), [Local(v, Receive)]);
    ScansJoin([a], ToAckOf(w, v) + [Local(v, Receive)]);
  }

  /** With any quorum the ACK of a round can go to a worker that took no part in it, and the assert of a worker that
  does nothing wrong can fail: it reads that ACK where it awaits weights. No scan is needed, only one worker more than
  the quorum. */
  lemma QuorumBreaksClient(cfg: Config)
    requires cfg.minReady >= 1
    ensures exists t :: Reached(cfg, t) && !Routed(t)
    ensures exists u :: Reached(cfg, u) && FIRST in u.conns && u.conns[FIRST].client == Failed
  {
    hide Leads, Asking, LeftOut, Routed, Enabled;
    var s, w := QuorumLeavesOut(cfg);
    var t, u := LeavingOutBreaks(cfg, s, w);
    Then(cfg, Init(cfg), s, t);
    Then(cfg, Init(cfg), s, u);
  }

  // ---------- demotion ----------

  /** FIRST waits for weights, and the push of SECOND is about to be submitted. */
  function Demoting(cfg: Config): State {
    Pushing(WithTraining(Registered(Init(cfg), FIRST), SECOND), SECOND, cfg.start.weights)
  }

  lemma DemotingRun(cfg: Config)
    ensures Reached(cfg, Demoting(cfg))
  {
    hide Leads, S.Apply, Sub;
    Stay(cfg, Init(cfg));
    RegisterRun(cfg, Init(cfg), Init(cfg), FIRST);
    JoinRun(cfg, Init(cfg), Registered(Init(cfg), FIRST), SECOND);
    PushRun(cfg, Init(cfg), WithTraining(Registered(Init(cfg), FIRST), SECOND), SECOND, cfg.start.weights);
  }

  function Demotion(cfg: Config): Event {
    Scan(cfg.timeout + 1.0)
  }

  /** After the scan nobody is ALIVE, and a synchronous submission waits for nobody. */
  lemma DemotionLeavesOut(cfg: Config)
    requires Synchronous(cfg)
    ensures var s := After(cfg, Demoting(cfg), Demotion(cfg));
            Asking(s, FIRST) && Enabled(s, Submit(SECOND, 0.0)) && LeftOut(cfg, s, SECOND, 0.0, FIRST)
  {
    hide S.Apply, Sub, Fires;
    var s := After(cfg, Demoting(cfg), Demotion(cfg));
    assert forall w :: !H.Alive(s.mon, w);
    LastFires(cfg, s, SECOND);
  }

  /** Demotion does the same to a synchronous server: one scan that finds workers overdue lets the round of another
  fire without them, its ACK still goes to all, and an assert can fail. So the theorems about quiet synchronous runs
  cannot do without the hypothesis of no timeout demotion. */
  lemma DemotionBreaksClient(cfg: Config)
    requires Synchronous(cfg)
    ensures exists es, t :: Run(cfg, Init(cfg), es, t) && Scans(es) == 1 && !Routed(t)
    ensures exists fs, u :: Run(cfg, Init(cfg), fs, u) && Scans(fs) == 1
                            && FIRST in u.conns && u.conns[FIRST].client == Failed
  {
    hide Leads, Run, Asking, LeftOut, Routed, Demoting, Init;
    DemotingRun(cfg);
    DemotionLeavesOut(cfg);
    var s := Demoting(cfg);
    var r := After(cfg, s, Demotion(cfg));
    var t, u := LeavingOutBreaks(cfg, r, SECOND);
    var es := AroundScan(cfg, s, t);
    var fs := AroundScan(cfg, s, u);
  }

  lemma AroundScan(cfg: Config, s: State, t: State) returns (es: seq<Event>)
    requires Reached(cfg, s) && Leads(cfg, After(cfg, s, Demotion(cfg)), t)
    ensures Run(cfg, Init(cfg), es, t) && Scans(es) == 1
  {
    hide Run, After, Init;
    var scan := Demotion(cfg);
    var first :| Run(cfg, Init(cfg), first, s) && Scans(first) == 0;
    var rest :| Run(cfg, After(cfg, s, scan), rest, t) && Scans(rest) == 0;
    OneStep(cfg, s, scan);
    ScansOne(scan);
    RunJoin(cfg, s, [scan], After(cfg, s, scan), rest, t);
    RunJoin(cfg, Init(cfg), first, s, [scan] + rest, t);
    ScansJoin([scan], rest);
    ScansJoin(first, [scan] + rest);
    es := first + ([scan] + rest);
  }

  // ---------- two pushes apart ----------

  /** Both have pushed, and SECOND has fired the round. */
  ghost predicate BothFired(f: State) {
    && f.conns.Keys == {FIRST, SECOND} == f.agg.sockets && f.agg.buffer == map[] && H.Alive(f.mon, FIRST)
    && f.conns[FIRST].submits == 1 && f.conns[FIRST].handler == Recv(true)
    && var c := f.conns[SECOND];
       && c.submits == 1 && c.client.AwaitAck? && !c.gone && c.c2s == [] && c.s2c == []
       && c.handler.Apply? && c.handler.sockets == {FIRST, SECOND}
  }

  /** SECOND's push is about to be submitted. */
  function BothPush(cfg: Config): (p: State)
    ensures Submitting(p, SECOND)
  {
    Pushing(OneWaits(cfg), SECOND, cfg.start.weights)
  }

  lemma BothPushFires(cfg: Config)
    requires Synchronous(cfg)
    ensures Fires(cfg, BothPush(cfg), SECOND, 0.0)
  {
    hide Sub, Fires;
    LastFires(cfg, BothPush(cfg), SECOND);
  }

  lemma BothPushFired(cfg: Config)
    ensures BothFired(Fired(BothPush(cfg), SECOND))
  {
    hide Sub;
  }

  lemma BothFire(cfg: Config) returns (f: State)
    requires Synchronous(cfg)
    ensures Leads(cfg, OneWaits(cfg), f) && BothFired(f)
  {
    var o := OneWaits(cfg);
    BothPushFires(cfg);
    BothPushFired(cfg);
    hide Leads, S.Apply, Sub, Fires, BothFired, Fired;
    Stay(cfg, o);
    PushRun(cfg, o, o, SECOND, cfg.start.weights);
    FireRun(cfg, o, BothPush(cfg), SECOND);
    f := Fired(BothPush(cfg), SECOND);
  }

  /** And both ACKs have been sent. */
  lemma BothAcked(cfg: Config) returns (t: State)
    requires Synchronous(cfg)
    ensures Leads(cfg, OneWaits(cfg), t) && t.conns.Keys == {FIRST, SECOND} && t.agg.buffer == map[]
    ensures t.agg.sockets == {FIRST, SECOND} && H.Alive(t.mon, FIRST)
    ensures t.conns[FIRST].submits == 1 && t.conns[FIRST].handler == Recv(true)
    ensures var c := t.conns[SECOND];
            && c.submits == 1 && c.client.AwaitAck? && !c.gone && c.handler == Recv(true)
            && c.c2s == [] && |c.s2c| == 1 && c.s2c[0].Ack?
  {
    hide Leads, S.Apply, Grads, OneWaits;
    var f := BothFire(cfg);
    t := RoundRun(cfg, OneWaits(cfg), f, SECOND);
  }

  /** From s to t SECOND has pushed twice more often than FIRST, both being connected at either moment. */
  predicate PushedTwiceMore(s: State, t: State) {
    && Connected(s, FIRST) && Connected(s, SECOND) && Connected(t, FIRST) && Connected(t, SECOND)
    && (t.conns[SECOND].submits - s.conns[SECOND].submits) - (t.conns[FIRST].submits - s.conns[FIRST].submits) == 2
  }

  /** The pushes of two workers since both have joined can be two apart: FIRST already has a push in the buffer at the
  earlier moment, SECOND completes that round and goes on to have a push of the next in the buffer. */
  lemma TwoApart(cfg: Config)
    requires Synchronous(cfg)
    ensures exists es, s, fs, t :: QuietRun(cfg, Init(cfg), es, s) && QuietRun(cfg, s, fs, t) && PushedTwiceMore(s, t)
  {
    hide Leads, S.Apply, Sub, QuietRun, Run, Fires;
    OneWaitsRun(cfg);
    var s := OneWaits(cfg);
    var a := BothAcked(cfg);
    NextPull(cfg, s, a, SECOND);
    var b := PulledAgain(a, SECOND);
    PushRun(cfg, s, b, SECOND, b.conns[SECOND].client.snap.weights);
    var p := Pushing(b, SECOND, b.conns[SECOND].client.snap.weights);
    EarlierWaits(cfg, p, SECOND, FIRST);
    WaitRun(cfg, s, p, SECOND);
    var t := Waiting(p, SECOND);
    var es := QuietRunTo(cfg, Init(cfg), s);
    var fs := QuietRunTo(cfg, s, t);
    assert s.conns[FIRST].submits == 1 && s.conns[SECOND].submits == 0;
    assert PushedTwiceMore(s, t);
  }
}
