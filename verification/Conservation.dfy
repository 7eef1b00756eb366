/** What every step of the protocol keeps, in every mode: asynchronous, with crashes and with timeout demotion. */
module Conservation {
  import opened Workers
  import opened Params
  import opened Protocol
  import S = Store
  import H = Heartbeat
  import A = Aggregation

  /** The shared dictionaries against the program counters of the handlers. */
  ghost predicate HandlersOk(s: State) {
    && s.agg.norms.Keys == s.agg.buffer.Keys <= s.agg.sockets <= s.conns.Keys
    && (forall w :: w in s.conns ==> (w in s.agg.sockets <==> Joined(s.conns[w].handler)))
    && (forall w :: H.Alive(s.mon, w) ==> w in s.conns && Announced(s.conns[w].handler))
    && (forall w :: w in s.conns && Dying(s.conns[w].handler) ==> s.conns[w].gone)
  }

  /** The store's history is the start followed by one update per applied round. */
  ghost predicate StoreOk(cfg: Config, s: State) {
    && |s.hist| == |s.order| + 1
    && s.hist[0] == cfg.start
    && (forall k :: 0 <= k < |s.order| ==> s.order[k] < |s.fired|)
    && (forall k :: 0 <= k < |s.order| ==>
      s.hist[k + 1] == S.Apply(cfg.hyper, s.hist[k], Grads(s.fired[s.order[k]])))
  }

  predicate AtApply(s: State, w: Id, r: nat) {
    w in s.conns && s.conns[w].handler.Apply? && s.conns[w].handler.round == r
  }

  predicate Applied(s: State, r: nat) {
    r in s.order
  }

  /** Every fired round has been applied exactly once or is held by exactly one handler. */
  ghost predicate RoundsOk(cfg: Config, s: State) {
    && (forall r :: 0 <= r < |s.fired| ==> |s.fired[r]| >= 1 && |s.fired[r]| >= cfg.minReady)
    && (forall w, r: nat :: AtApply(s, w, r) ==>
      r < |s.fired| && !Applied(s, r) && s.conns[w].handler.batch == s.fired[r])
    && (forall v, w, r: nat :: AtApply(s, v, r) && AtApply(s, w, r) ==> v == w)
    && (forall i, j :: 0 <= i < j < |s.order| ==> s.order[i] != s.order[j])
    && (forall r: nat :: r < |s.fired| ==> Applied(s, r) || exists w :: AtApply(s, w, r))
  }

  predicate InBuffer(s: State, w: Id, n: nat) {
    w in s.agg.buffer && s.agg.buffer[w].number == n
  }

  predicate InRound(s: State, w: Id, n: nat, r: nat) {
    r < |s.fired| && w in s.fired[r] && s.fired[r][w].number == n
  }

  ghost predicate Consumed(s: State, w: Id, n: nat) {
    exists r: nat :: InRound(s, w, n, r)
  }

  predicate Submission(s: State, w: Id, n: nat) {
    w in s.conns && n < s.conns[w].submits
  }

  /** No submission is in two of the four places: the buffer, a round, the overwritten ones, the dropped ones. */
  ghost predicate Exclusive(s: State) {
    && (forall w :: w in s.agg.buffer ==> w in s.conns && s.agg.buffer[w].number + 1 == s.conns[w].submits)
    && (forall w, n: nat, r: nat :: InRound(s, w, n, r) ==>
      Submission(s, w, n) && !InBuffer(s, w, n) && (w, n) !in s.replaced && (w, n) !in s.dropped)
    && (forall w, n: nat, q: nat, r: nat :: InRound(s, w, n, q) && InRound(s, w, n, r) ==> q == r)
    && (forall w, n: nat :: (w, n) in s.replaced ==>
      Submission(s, w, n + 1) && !InBuffer(s, w, n) && (w, n) !in s.dropped)
    && (forall w, n: nat :: (w, n) in s.dropped ==>
      Submission(s, w, n) && !InBuffer(s, w, n) && s.conns[w].handler.Done?)
  }

  /** And every submission is in one of them. */
  ghost predicate Placed(s: State) {
    forall w, n: nat :: Submission(s, w, n) ==>
      InBuffer(s, w, n) || Consumed(s, w, n) || (w, n) in s.replaced || (w, n) in s.dropped
  }

  ghost predicate LedgerOk(s: State) {
    Exclusive(s) && Placed(s)
  }

  ghost predicate Kept(cfg: Config, s: State) {
    HandlersOk(s) && StoreOk(cfg, s) && RoundsOk(cfg, s) && LedgerOk(s)
  }

  /** What a local step keeps of its own connection. */
  lemma MoveKeeps(c: Conn, m: Move, store: S.Store, version: nat)
    requires CanMove(c, m)
    ensures var d := Moved(c, m, store, version);
            && (Joined(d.handler) <==> Joined(c.handler)) && (Announced(d.handler) <==> Announced(c.handler))
            && (c.handler.Done? ==> d.handler.Done?)
            && (c.handler.Apply? || d.handler.Apply? ==> d.handler == c.handler)
            && d.submits == c.submits && d.joined == c.joined && d.acks == c.acks
            && (c.gone ==> d.gone)
            && (Dying(d.handler) ==> d.gone || d.handler == c.handler)
  {
  }

  /** A step that changes one connection and perhaps the monitor, not the aggregator. */
  lemma HandlersLocal(s: State, t: State, w: Id)
    requires HandlersOk(s)
    requires t.agg == s.agg && w in t.conns && t.conns == s.conns[w := t.conns[w]]
    requires Joined(t.conns[w].handler) <==> w in s.conns && Joined(s.conns[w].handler)
    requires forall v :: v != w && H.Alive(t.mon, v) ==> H.Alive(s.mon, v)
    requires H.Alive(t.mon, w) ==>
      Announced(t.conns[w].handler) || (!(w in s.conns && Announced(s.conns[w].handler)) && t.mon == s.mon)
    requires Dying(t.conns[w].handler) ==>
      t.conns[w].gone || (w in s.conns && Dying(s.conns[w].handler) && t.conns[w].gone == s.conns[w].gone)
    ensures HandlersOk(t)
  {
  }

  /** The submission that is buffered, and the buffer it may fire with. */
  function Offered(s: State, w: Id): Batch
    requires w in s.conns && s.conns[w].handler.Dispatch? && s.conns[w].handler.msg.Push?
  {
    s.agg.buffer[w := s.conns[w].handler.msg.delta.(number := s.conns[w].submits)]
  }

  /** What a submission of w does, by whether it fires. */
  ghost predicate SubmittedTo(s: State, t: State, w: Id, fires: bool) {
    && w in s.conns && s.conns[w].handler.Dispatch? && s.conns[w].handler.msg.Push?
    && w in t.conns && t.conns == s.conns[w := t.conns[w]]
    && t.conns[w] == s.conns[w].(submits := s.conns[w].submits + 1, handler := t.conns[w].handler)
    && t.mon == s.mon && t.hist == s.hist && t.agg.sockets == s.agg.sockets
    && (w !in s.agg.buffer ==> t.replaced == s.replaced)
    && if fires
       then t.fired == s.fired + [Offered(s, w)] && t.firer == w && t.agg == A.Agg(map[], map[], s.agg.sockets)
            && t.conns[w].handler == Apply(|s.fired|, Offered(s, w), s.agg.sockets)
       else t.fired == s.fired && t.firer == s.firer && t.conns[w].handler == Recv(true)
            && t.agg.buffer == Offered(s, w) && t.agg.norms.Keys == s.agg.norms.Keys + {w}
  }

  lemma SubmitShape(cfg: Config, s: State, w: Id, norm: real)
    requires Enabled(s, Submit(w, norm))
    ensures SubmittedTo(s, AfterSubmit(cfg, s, w, norm), w, Fires(cfg, s, w, norm))
    ensures !Fires(cfg, s, w, norm) ==> AfterSubmit(cfg, s, w, norm).agg.norms == s.agg.norms[w := norm]
  {
    hide A.ShouldApply, H.AliveWorkers;
    assert s.replaced + {} == s.replaced;
  }

  lemma HandlersSubmit(s: State, t: State, w: Id, fires: bool)
    requires HandlersOk(s) && SubmittedTo(s, t, w, fires)
    ensures HandlersOk(t)
  {
    HandlersLocal(s, t.(agg := s.agg), w);
  }

  lemma HandlersAck(s: State, w: Id, to: Id)
    requires HandlersOk(s) && Enabled(s, SendAck(w, to))
    ensures HandlersOk(AfterAck(s, w, to))
  {
    var h := s.conns[w].handler;
    var s1 := With(s, w, s.conns[w].(handler := h.(todo := h.todo - {to})));
    HandlersLocal(s, s1, w);
    HandlersLocal(s1, AfterAck(s, w, to), to);
  }

  lemma HandlersMove(cfg: Config, s: State, w: Id, m: Move)
    requires HandlersOk(s) && Enabled(s, Local(w, m))
    ensures HandlersOk(After(cfg, s, Local(w, m)))
  {
    MoveKeeps(s.conns[w], m, Last(s.hist), |s.hist| - 1);
    HandlersLocal(s, After(cfg, s, Local(w, m)), w);
  }

  lemma HandlersShared(cfg: Config, s: State, e: Event)
    requires HandlersOk(s) && Enabled(s, e) && (e.Join? || e.Leave? || e.Scan?)
    ensures HandlersOk(After(cfg, s, e))
  {
  }

  /** The steps that leave the aggregator and all connections but one alone. */
  predicate Plain(e: Event) {
    e.Connect? || e.Announce? || e.AnswerBeat? || e.Bury? || e.ApplyRound? || e.CheckSave? || e.WriteSave?
  }

  lemma HandlersPlain(cfg: Config, s: State, e: Event)
    requires HandlersOk(s) && Enabled(s, e) && Plain(e)
    ensures HandlersOk(After(cfg, s, e))
  {
    hide S.Apply, HandlersOk;
    HandlersLocal(s, After(cfg, s, e), e.w);
  }

  lemma HandlersStep(cfg: Config, s: State, e: Event)
    requires HandlersOk(s) && Enabled(s, e)
    ensures HandlersOk(After(cfg, s, e))
  {
    if Plain(e) {
      HandlersPlain(cfg, s, e);
    } else {
      hide HandlersOk, Enabled, AfterSubmit, AfterAck, AfterLeave;
      match e
      case Local(w, m) => HandlersMove(cfg, s, w, m);
      case Submit(w, norm) =>
        SubmitShape(cfg, s, w, norm);
        hide SubmittedTo, Fires;
        HandlersSubmit(s, After(cfg, s, e), w, Fires(cfg, s, w, norm));
      case SendAck(w, to) => HandlersAck(s, w, to);
      case _ => HandlersShared(cfg, s, e);
    }
  }

  /** The part of the state the rounds and the ledger are about. */
  ghost predicate Framed(s: State, t: State) {
    && t.fired == s.fired && t.order == s.order && t.hist == s.hist
    && s.conns.Keys <= t.conns.Keys
    && (forall v :: v in s.conns ==> t.conns[v].submits == s.conns[v].submits)
    && (forall v :: v in s.conns && (s.conns[v].handler.Apply? || t.conns[v].handler.Apply?) ==>
      t.conns[v].handler == s.conns[v].handler)
    && (forall v :: v in s.conns && s.conns[v].handler.Done? ==> t.conns[v].handler.Done?)
    && (forall v :: v in t.conns && v !in s.conns ==> t.conns[v] == FRESH_CONN)
  }

  ghost predicate SameLedger(s: State, t: State) {
    t.agg.buffer == s.agg.buffer && t.replaced == s.replaced && t.dropped == s.dropped
  }

  lemma FramedKeeps(cfg: Config, s: State, t: State)
    requires Framed(s, t)
    ensures StoreOk(cfg, s) ==> StoreOk(cfg, t)
    ensures RoundsOk(cfg, s) ==> RoundsOk(cfg, t)
    ensures SameLedger(s, t) && LedgerOk(s) ==> LedgerOk(t)
  {
    assert forall w, r: nat :: AtApply(s, w, r) <==> AtApply(t, w, r);
    assert forall r :: Applied(s, r) <==> Applied(t, r);
    if SameLedger(s, t) && LedgerOk(s) {
      assert forall w, n: nat, r: nat :: InRound(s, w, n, r) <==> InRound(t, w, n, r);
      assert forall w, n: nat :: InBuffer(s, w, n) <==> InBuffer(t, w, n);
      assert forall w, n: nat :: Submission(s, w, n) <==> Submission(t, w, n);
    }
  }

  lemma FramedOne(s: State, t: State, w: Id)
    requires w in s.conns && w in t.conns && t.conns == s.conns[w := t.conns[w]]
    requires t.fired == s.fired && t.order == s.order && t.hist == s.hist
    requires t.conns[w].submits == s.conns[w].submits
    requires s.conns[w].handler.Apply? || t.conns[w].handler.Apply? ==> t.conns[w].handler == s.conns[w].handler
    requires s.conns[w].handler.Done? ==> t.conns[w].handler.Done?
    ensures Framed(s, t)
  {
  }

  lemma FramedOther(cfg: Config, s: State, e: Event)
    requires Enabled(s, e) && (e.SendAck? || e.Connect? || e.Scan?)
    ensures Framed(s, After(cfg, s, e)) && SameLedger(s, After(cfg, s, e))
  {
  }

  lemma FramedStep(cfg: Config, s: State, e: Event)
    requires Enabled(s, e) && !e.Submit? && !e.ApplyRound?
    ensures Framed(s, After(cfg, s, e))
    ensures !e.Leave? ==> SameLedger(s, After(cfg, s, e))
  {
    var t := After(cfg, s, e);
    if e.Local? {
      MoveKeeps(s.conns[e.w], e.move, Last(s.hist), |s.hist| - 1);
      hide Moved, Framed;
      FramedOne(s, t, e.w);
    } else if e.SendAck? || e.Connect? || e.Scan? {
      hide Moved, Framed;
      FramedOther(cfg, s, e);
    } else {
      hide Moved, Framed;
      FramedOne(s, t, e.w);
    }
  }

  lemma StoreApply(cfg: Config, s: State, w: Id)
    requires StoreOk(cfg, s) && RoundsOk(cfg, s) && Enabled(s, ApplyRound(w))
    ensures StoreOk(cfg, AfterApply(cfg, s, w))
  {
    hide S.Apply;
    assert AtApply(s, w, s.conns[w].handler.round);
  }

  lemma RoundsApply(cfg: Config, s: State, w: Id)
    requires RoundsOk(cfg, s) && Enabled(s, ApplyRound(w))
    ensures RoundsOk(cfg, AfterApply(cfg, s, w))
  {
    hide S.Apply;
    var t := AfterApply(cfg, s, w);
    var q := s.conns[w].handler.round;
    assert AtApply(s, w, q);
    assert forall v, r: nat :: AtApply(t, v, r) <==> v != w && AtApply(s, v, r);
    assert t.order[|s.order|] == q;
    assert forall r :: Applied(t, r) <==> Applied(s, r) || r == q;
  }

  lemma LedgerApply(cfg: Config, s: State, w: Id)
    requires LedgerOk(s) && Enabled(s, ApplyRound(w))
    ensures LedgerOk(AfterApply(cfg, s, w))
  {
    hide S.Apply;
    var t := AfterApply(cfg, s, w);
    var u := t.(hist := s.hist, order := s.order, conns := s.conns);
    assert forall v, n: nat, r: nat :: InRound(s, v, n, r) <==> InRound(t, v, n, r);
    assert forall v, n: nat :: InBuffer(s, v, n) <==> InBuffer(t, v, n);
    assert forall v, n: nat :: Submission(s, v, n) <==> Submission(t, v, n);
  }

  /** A round that fires has the submitter and at least min_ready contributors. */
  lemma FiredSize<D>(a: A.Agg<D>, w: Id, d: D, norm: real, alive: set<Id>, minReady: int)
    ensures var out := A.Submitted(a, w, d, norm, alive, minReady).1;
            out.Fired? ==> w in out.batch && |out.batch| >= 1 && |out.batch| >= minReady
  {
    var have := a.buffer[w := d].Keys;
    assert w in have && have == have * alive + (have - alive);
  }

  lemma StoreSubmit(cfg: Config, s: State, w: Id, norm: real)
    requires StoreOk(cfg, s) && Enabled(s, Submit(w, norm))
    ensures StoreOk(cfg, AfterSubmit(cfg, s, w, norm))
  {
    hide A.Submitted, H.AliveWorkers, S.Apply;
  }

  lemma RoundsFire(cfg: Config, s: State, t: State, w: Id, b: Batch)
    requires RoundsOk(cfg, s) && StoreOk(cfg, s) && w in s.conns && !s.conns[w].handler.Apply?
    requires w in t.conns && t.conns == s.conns[w := t.conns[w]] && t.order == s.order && t.fired == s.fired + [b]
    requires t.conns[w].handler.Apply? && t.conns[w].handler.round == |s.fired| && t.conns[w].handler.batch == b
    requires |b| >= 1 && |b| >= cfg.minReady
    ensures RoundsOk(cfg, t)
  {
    hide S.Apply;
    var q := |s.fired|;
    assert AtApply(t, w, q);
    assert forall v, r: nat :: AtApply(t, v, r) <==> AtApply(s, v, r) || (v == w && r == q);
    assert forall r :: Applied(t, r) <==> Applied(s, r);
  }

  lemma RoundsWait(cfg: Config, s: State, t: State, w: Id)
    requires RoundsOk(cfg, s) && w in s.conns && !s.conns[w].handler.Apply?
    requires w in t.conns && t.conns == s.conns[w := t.conns[w]] && t.order == s.order && t.fired == s.fired
    requires !t.conns[w].handler.Apply?
    ensures RoundsOk(cfg, t)
  {
    assert forall v, r: nat :: AtApply(t, v, r) <==> AtApply(s, v, r);
    assert forall r :: Applied(t, r) <==> Applied(s, r);
  }

  lemma RoundsSubmit(cfg: Config, s: State, w: Id, norm: real)
    requires RoundsOk(cfg, s) && StoreOk(cfg, s) && Enabled(s, Submit(w, norm))
    ensures RoundsOk(cfg, AfterSubmit(cfg, s, w, norm))
  {
    hide A.Submitted, H.AliveWorkers, RoundsOk, StoreOk;
    var t := AfterSubmit(cfg, s, w, norm);
    var d := s.conns[w].handler.msg.delta.(number := s.conns[w].submits);
    var out := A.Submitted(s.agg, w, d, norm, H.AliveWorkers(s.mon), cfg.minReady).1;
    FiredSize(s.agg, w, d, norm, H.AliveWorkers(s.mon), cfg.minReady);
    if out.Fired? {
      RoundsFire(cfg, s, t, w, out.batch);
    } else {
      RoundsWait(cfg, s, t, w);
    }
  }

  /** Connection w submits its next push; nothing else is counted. */
  ghost predicate OneMore(s: State, t: State, w: Id) {
    && w in s.conns && t.conns.Keys == s.conns.Keys && t.dropped == s.dropped
    && t.replaced == s.replaced + (if w in s.agg.buffer then {(w, s.agg.buffer[w].number)} else {})
    && t.conns[w].submits == s.conns[w].submits + 1 && !s.conns[w].handler.Done?
    && forall v :: v in s.conns && v != w ==> t.conns[v] == s.conns[v]
  }

  /** Everything buffered is taken into the round b. */
  ghost predicate Taken(s: State, t: State, w: Id, b: Batch) {
    && OneMore(s, t, w) && t.fired == s.fired + [b] && t.agg.buffer == map[]
    && w in b && b[w].number == s.conns[w].submits && b.Keys == s.agg.buffer.Keys + {w}
    && forall v :: v in s.agg.buffer && v != w ==> b[v] == s.agg.buffer[v]
  }

  lemma TakenWhere(s: State, t: State, w: Id, b: Batch)
    requires Taken(s, t, w, b)
    ensures forall v, n: nat :: Submission(t, v, n) <==> Submission(s, v, n) || (v == w && n == s.conns[w].submits)
    ensures forall v, n: nat, r: nat :: InRound(t, v, n, r) <==>
      InRound(s, v, n, r)
      || (r == |s.fired| && ((v != w && InBuffer(s, v, n)) || (v == w && n == s.conns[w].submits)))
    ensures forall v, n: nat :: !InBuffer(t, v, n)
  {
  }

  lemma ExclusiveFires(s: State, t: State, w: Id, b: Batch)
    requires Exclusive(s) && Taken(s, t, w, b)
    ensures Exclusive(t)
  {
    TakenWhere(s, t, w, b);
  }

  lemma PlacedFires(s: State, t: State, w: Id, b: Batch)
    requires Placed(s) && Taken(s, t, w, b)
    ensures Placed(t)
  {
    TakenWhere(s, t, w, b);
    hide InRound, InBuffer, Submission;
    forall v, n: nat | Submission(t, v, n)
      ensures Consumed(t, v, n) || (v, n) in t.replaced || (v, n) in t.dropped
    {
      if Consumed(s, v, n) {
        var r: nat :| InRound(s, v, n, r);
        assert InRound(t, v, n, r);
      } else if (InBuffer(s, v, n) && v != w) || (v == w && n == s.conns[w].submits) {
        assert InRound(t, v, n, |s.fired|);
      } else {
        OverwrittenIsReplaced(s, t, w, v, n);
      }
    }
  }

  /** The push that w's next one overwrites in the buffer. */
  lemma OverwrittenIsReplaced(s: State, t: State, w: Id, v: Id, n: nat)
    requires OneMore(s, t, w)
    ensures v == w && InBuffer(s, v, n) ==> (v, n) in t.replaced
    ensures (v, n) in s.replaced ==> (v, n) in t.replaced
  {
  }

  /** The push of w joins the buffer. */
  ghost predicate Joins(s: State, t: State, w: Id) {
    && OneMore(s, t, w) && t.fired == s.fired
    && w in t.agg.buffer && t.agg.buffer == s.agg.buffer[w := t.agg.buffer[w]]
    && t.agg.buffer[w].number == s.conns[w].submits
  }

  lemma KeptWhere(s: State, t: State, w: Id)
    requires Joins(s, t, w)
    ensures forall v, n: nat :: Submission(t, v, n) <==> Submission(s, v, n) || (v == w && n == s.conns[w].submits)
    ensures forall v, n: nat, r: nat :: InRound(t, v, n, r) <==> InRound(s, v, n, r)
    ensures forall v, n: nat ::
      InBuffer(t, v, n) <==> (v != w && InBuffer(s, v, n)) || (v == w && n == s.conns[w].submits)
  {
  }

  lemma ExclusiveWaits(s: State, t: State, w: Id)
    requires Exclusive(s) && Joins(s, t, w)
    ensures Exclusive(t)
  {
    KeptWhere(s, t, w);
  }

  lemma PlacedWaits(s: State, t: State, w: Id)
    requires Placed(s) && Joins(s, t, w)
    ensures Placed(t)
  {
    KeptWhere(s, t, w);
    hide InRound, InBuffer, Submission;
    forall v, n: nat | Submission(t, v, n)
      ensures InBuffer(t, v, n) || Consumed(t, v, n) || (v, n) in t.replaced || (v, n) in t.dropped
    {
      OverwrittenIsReplaced(s, t, w, v, n);
      if Consumed(s, v, n) {
        var r: nat :| InRound(s, v, n, r);
        assert InRound(t, v, n, r);
      }
    }
  }

  lemma LedgerSubmit(cfg: Config, s: State, w: Id, norm: real)
    requires LedgerOk(s) && Enabled(s, Submit(w, norm))
    ensures LedgerOk(AfterSubmit(cfg, s, w, norm))
  {
    hide A.ShouldApply, H.AliveWorkers, Exclusive, Placed;
    var t := AfterSubmit(cfg, s, w, norm);
    assert OneMore(s, t, w);
    if |t.fired| > |s.fired| {
      ExclusiveFires(s, t, w, Offered(s, w));
      PlacedFires(s, t, w, Offered(s, w));
    } else {
      ExclusiveWaits(s, t, w);
      PlacedWaits(s, t, w);
    }
  }

  lemma LedgerLeave(s: State, w: Id)
    requires LedgerOk(s) && Enabled(s, Leave(w))
    ensures LedgerOk(AfterLeave(s, w))
  {
    var t := AfterLeave(s, w);
    assert forall v, n: nat, r: nat :: InRound(s, v, n, r) <==> InRound(t, v, n, r);
    assert forall v, n: nat :: InBuffer(t, v, n) <==> v != w && InBuffer(s, v, n);
    assert forall v, n: nat :: Submission(s, v, n) <==> Submission(t, v, n);
  }

  /** Every step, of any kind and in any mode, keeps all four. */
  lemma KeptStep(cfg: Config, s: State, e: Event)
    requires Kept(cfg, s) && Enabled(s, e)
    ensures Kept(cfg, After(cfg, s, e))
  {
    hide HandlersOk, StoreOk, RoundsOk, LedgerOk, AfterSubmit, AfterApply, AfterAck, AfterLeave, Moved, Framed;
    HandlersStep(cfg, s, e);
    if e.Submit? {
      StoreSubmit(cfg, s, e.w, e.norm);
      RoundsSubmit(cfg, s, e.w, e.norm);
      LedgerSubmit(cfg, s, e.w, e.norm);
    } else if e.ApplyRound? {
      StoreApply(cfg, s, e.w);
      RoundsApply(cfg, s, e.w);
      LedgerApply(cfg, s, e.w);
    } else {
      FramedStep(cfg, s, e);
      FramedKeeps(cfg, s, After(cfg, s, e));
      if e.Leave? {
        LedgerLeave(s, e.w);
      }
    }
  }

  lemma KeptInit(cfg: Config)
    ensures Kept(cfg, Init(cfg))
  {
  }

  lemma {:induction false} KeptRun(cfg: Config, s: State, es: seq<Event>, t: State)
    requires Kept(cfg, s) && Run(cfg, s, es, t)
    ensures Kept(cfg, t)
    decreases |es|
  {
    if es != [] {
      hide Kept, After;
      KeptStep(cfg, s, es[0]);
      KeptRun(cfg, After(cfg, s, es[0]), es[1..], t);
    }
  }

  lemma {:induction false} HistorySteps(cfg: Config, s: State, k: nat)
    requires StoreOk(cfg, s) && k < |s.hist|
    ensures s.hist[k].step == cfg.start.step + k
  {
    hide S.Apply;
    if k > 0 {
      HistorySteps(cfg, s, k - 1);
      assert s.hist[k - 1 + 1] == S.Apply(cfg.hyper, s.hist[k - 1], Grads(s.fired[s.order[k - 1]]));
    }
  }

  /** Conservation, in every mode: the n-th push submitted by w is averaged in at most one round, and it is in
  exactly one of four places: averaged, buffered, overwritten by a later push of w, or dropped when w left. */
  lemma PushesConserved(cfg: Config, es: seq<Event>, t: State, w: Id, n: nat)
    requires Run(cfg, Init(cfg), es, t)
    ensures Consumed(t, w, n) || InBuffer(t, w, n) || (w, n) in t.replaced || (w, n) in t.dropped <==>
      Submission(t, w, n)
    ensures forall q: nat, r: nat :: InRound(t, w, n, q) && InRound(t, w, n, r) ==> q == r
    ensures Consumed(t, w, n) ==> !InBuffer(t, w, n) && (w, n) !in t.replaced && (w, n) !in t.dropped
    ensures InBuffer(t, w, n) ==> (w, n) !in t.replaced && (w, n) !in t.dropped
    ensures (w, n) in t.replaced ==> (w, n) !in t.dropped && Submission(t, w, n + 1)
    ensures (w, n) in t.dropped ==> t.conns[w].handler.Done?
  {
    hide HandlersOk, StoreOk, RoundsOk, Run, Init, InRound;
    KeptInit(cfg);
    KeptRun(cfg, Init(cfg), es, t);
  }

  /** Every round averages at least max(1, min_ready_workers) workers and is applied at most once, no round is
  lost, and the step is the start step plus the number of applied rounds. */
  lemma RoundsConserved(cfg: Config, es: seq<Event>, t: State)
    requires Run(cfg, Init(cfg), es, t)
    ensures forall r :: 0 <= r < |t.fired| ==> |t.fired[r]| >= 1 && |t.fired[r]| >= cfg.minReady
    ensures forall i, j :: 0 <= i < j < |t.order| ==> t.order[i] != t.order[j]
    ensures forall r: nat :: r < |t.fired| ==> Applied(t, r) || exists w :: AtApply(t, w, r)
    ensures forall r :: r in t.order ==> r < |t.fired|
    ensures Last(t.hist).step == cfg.start.step + |t.order|
  {
    hide HandlersOk, LedgerOk, Run, Init, S.Apply;
    KeptInit(cfg);
    KeptRun(cfg, Init(cfg), es, t);
    HistorySteps(cfg, t, |t.order|);
  }

  /** The buffer and the norms have the same keys, all registered; and a connection that has not sent a message
  with its worker_id is neither registered nor ALIVE. */
  lemma ProbesDoNotCount(cfg: Config, es: seq<Event>, t: State, w: Id)
    requires Run(cfg, Init(cfg), es, t)
    ensures t.agg.norms.Keys == t.agg.buffer.Keys <= t.agg.sockets <= t.conns.Keys
    ensures w in t.conns && t.conns[w].handler == Recv(false) ==>
              w !in t.agg.sockets && w !in t.agg.buffer && !H.Alive(t.mon, w)
  {
    hide LedgerOk, StoreOk, RoundsOk, Run, Init;
    KeptInit(cfg);
    KeptRun(cfg, Init(cfg), es, t);
  }
}
