/** The aggregation barrier as a concurrent protocol: one handler thread per connection, one client per
connection, the aggregator, the liveness monitor and the weight store, interleaved at every lock
acquisition and every message.

An Id names one connection. A worker that comes back after its old handler has unregistered is a fresh Id
here: nothing of the old connection is left in the shared state but a DEAD entry of the monitor. */
module Protocol {
  import opened Workers
  import opened Params
  import S = Store
  import H = Heartbeat
  import A = Aggregation

  /** Global weights as pulled, with the number of updates they contain (not on the wire). */
  datatype Snapshot = Snapshot(weights: Params, version: nat)

  /** A pushed delta. Only `grad` is on the wire: `base` and `local` say what it was computed from,
  `number` counts the submissions of its worker. */
  datatype Delta = Delta(grad: Params, base: nat, local: Params, number: nat)

  datatype Request = Pull | Push(delta: Delta) | Beat

  /** `round` is the round an ACK answers (not on the wire). */
  datatype Reply = Weights(snap: Snapshot) | Ack(step: nat, round: nat) | BeatAck

  /** Where the worker's main loop stands. Failed: an assert on a reply's type failed. */
  datatype Client = Start | AwaitWeights | Ready(snap: Snapshot) | AwaitAck | Acked | AwaitBeat | Failed

  /** Where the handler thread stands. The states from Apply to Save are inside `submit`, after the
  buffer lock has been released by a submission that fired round number `round`. */
  datatype Handler =
    | Recv(known: bool)
    | RegBeat(msg: Request)
    | RegSock(msg: Request)
    | Dispatch(msg: Request)
    | ReplyWeights(snap: Snapshot)
    | ReplyBeat
    | Apply(round: nat, batch: Batch, sockets: set<Id>)
    | ReadStep(round: nat, sockets: set<Id>)
    | Acking(round: nat, step: nat, todo: set<Id>)
    | Check(round: nat, step: nat)
    | Save(round: nat, step: nat)
    | MarkDead
    | Unreg
    | Done

  /** One connection. `gone`: the client has crashed or closed, and neither sends nor reads any more.
  The counters are bookkeeping: submissions, rounds fired before the socket was registered, ACKs sent. */
  datatype Conn = Conn(client: Client, gone: bool, handler: Handler, c2s: seq<Request>, s2c: seq<Reply>,
                       submits: nat, joined: nat, acks: nat)

  const FRESH_CONN := Conn(Start, false, Recv(false), [], [], 0, 0, 0)

  /** `checkpoint_interval`, which the configuration asserts to be at least 1. */
  type Interval = n: int | n >= 1 witness 1

  datatype Config = Config(minReady: int, interval: Interval, timeout: real, hyper: S.Hyper, start: S.Store)

  type Batch = map<Id, Delta>

  type History = h: seq<S.Store> | h != [] witness [S.Store(map[], map[], 0)]

  /** `fired` lists the rounds in firing order, `order` the rounds in the order in which they were applied,
  `hist` the store after each update, `saves` the checkpoints; `firer` is the connection that fired last,
  `replaced` and `dropped` the submissions that left the buffer without being averaged. */
  datatype State = State(
    conns: map<Id, Conn>, mon: H.Monitor, agg: A.Agg<Delta>,
    fired: seq<Batch>, order: seq<nat>, hist: History,
    lastCheckpoint: int, saves: seq<S.Store>,
    firer: Id, replaced: set<(Id, nat)>, dropped: set<(Id, nat)>)

  function Init(cfg: Config): State {
    State(map[], H.EMPTY, A.Agg(map[], map[], {}), [], [], [cfg.start], cfg.start.step, [], Worker(0), {}, {})
  }

  /** A step of one client or one handler that changes nothing but its own connection.
  Deliver: `recv_message` returns the next request. Hangup: it raises because the client is gone.
  CopyWeights, SendWeights, SendBeatAck: the replies to a pull and to a heartbeat; ReplyFails: the send raises.
  FetchStep, AcksDone: inside `submit`, reading the step and leaving the ACK loop. */
  datatype Move =
    | Crash | SendPull | SendPush(local: Params) | SendBeat | Receive
    | Deliver | Hangup | CopyWeights | SendWeights | SendBeatAck | ReplyFails
    | FetchStep | AcksDone

  /** One atomic step. The remaining handler steps touch the monitor, the aggregator, the store or another
  connection's stream; Scan is one pass of the monitor's loop. */
  datatype Event =
    | Connect(w: Id)
    | Local(w: Id, move: Move)
    | Announce(w: Id, now: real)
    | Join(w: Id)
    | Submit(w: Id, norm: real)
    | ApplyRound(w: Id)
    | SendAck(w: Id, to: Id)
    | CheckSave(w: Id)
    | WriteSave(w: Id)
    | AnswerBeat(w: Id, now: real)
    | Bury(w: Id)
    | Leave(w: Id)
    | Scan(now: real)

  function Last<T>(s: seq<T>): T
    requires s != []
  {
    s[|s| - 1]
  }

  function Awaiting(c: Client): bool {
    c.AwaitWeights? || c.AwaitAck? || c.AwaitBeat?
  }

  /** What the client does with the next reply: the three `assert`s of the client. */
  function Received(c: Client, r: Reply): (k: Client)
    ensures k.Failed? <==>
            !((c.AwaitWeights? && r.Weights?) || (c.AwaitAck? && r.Ack?) || (c.AwaitBeat? && r.BeatAck?))
  {
    if c.AwaitWeights? && r.Weights? then Ready(r.snap)
    else if c.AwaitAck? && r.Ack? then Acked
    else if c.AwaitBeat? && r.BeatAck? then Acked
    else Failed
  }

  function Grads(b: Batch): S.Grads {
    map w | w in b :: b[w].grad
  }

  function With(s: State, w: Id, c: Conn): State {
    s.(conns := s.conns[w := c])
  }

  predicate CanMove(c: Conn, m: Move) {
    match m
    case Crash => !c.gone
    case SendPull => !c.gone && (c.client.Start? || c.client.Acked?)
    case SendPush(local) => !c.gone && c.client.Ready? && SameShape(local, c.client.snap.weights)
    case SendBeat => !c.gone && c.client.Acked?
    case Receive => !c.gone && Awaiting(c.client) && c.s2c != []
    case Deliver => c.handler.Recv? && c.c2s != []
    case Hangup => c.handler.Recv? && c.gone
    case CopyWeights => c.handler.Dispatch? && c.handler.msg.Pull?
    case SendWeights => c.handler.ReplyWeights?
    case SendBeatAck => c.handler.ReplyBeat?
    case ReplyFails => c.gone && (c.handler.ReplyWeights? || c.handler.ReplyBeat?)
    case FetchStep => c.handler.ReadStep?
    case AcksDone => c.handler.Acking? && c.handler.todo == {}
  }

  /** `store` is the store now, `version` the number of updates it has had. */
  function Moved(c: Conn, m: Move, store: S.Store, version: nat): Conn
    requires CanMove(c, m)
  {
    match m
    case Crash => c.(gone := true)
    case SendPull => c.(client := AwaitWeights, c2s := c.c2s + [Pull])
    case SendPush(local) =>
      var base := c.client.snap;
      c.(client := AwaitAck, c2s := c.c2s + [Push(Delta(Sub(base.weights, local), base.version, local, 0))])
    case SendBeat => c.(client := AwaitBeat, c2s := c.c2s + [Beat])
    case Receive =>
      var k := Received(c.client, c.s2c[0]);
      c.(client := k, s2c := c.s2c[1..], gone := k.Failed?)
    case Deliver =>
      c.(handler := if c.handler.known then Dispatch(c.c2s[0]) else RegBeat(c.c2s[0]), c2s := c.c2s[1..])
    case Hangup => c.(handler := if c.handler.known then MarkDead else Done)
    case CopyWeights => c.(handler := ReplyWeights(Snapshot(store.weights, version)))
    case SendWeights => c.(handler := Recv(true), s2c := c.s2c + [Weights(c.handler.snap)])
    case SendBeatAck => c.(handler := Recv(true), s2c := c.s2c + [BeatAck])
    case ReplyFails => c.(handler := MarkDead)
    case FetchStep => c.(handler := Acking(c.handler.round, store.step, c.handler.sockets))
    case AcksDone => c.(handler := Check(c.handler.round, c.handler.step))
  }

  predicate Enabled(s: State, e: Event) {
    if e.Scan? then true
    else if e.Connect? then e.w !in s.conns
    else if e.w !in s.conns then false
    else
      var c := s.conns[e.w];
      match e
      case Local(_, move) => CanMove(c, move)
      case Announce(_, _) => c.handler.RegBeat?
      case Join(_) => c.handler.RegSock?
      case Submit(_, _) => c.handler.Dispatch? && c.handler.msg.Push?
      case ApplyRound(_) => c.handler.Apply?
      case SendAck(_, to) => c.handler.Acking? && to in c.handler.todo && to in s.conns
      case CheckSave(_) => c.handler.Check?
      case WriteSave(_) => c.handler.Save?
      case AnswerBeat(_, _) => c.handler.Dispatch? && c.handler.msg.Beat?
      case Bury(_) => c.handler.MarkDead?
      case Leave(_) => c.handler.Unreg?
  }

  /** The section of `submit` under the buffer lock, linearised at its reading of the monitor. */
  function AfterSubmit(cfg: Config, s: State, w: Id, norm: real): State
    requires w in s.conns && s.conns[w].handler.Dispatch? && s.conns[w].handler.msg.Push?
  {
    var c := s.conns[w];
    var d := c.handler.msg.delta.(number := c.submits);
    var (agg', out) := A.Submitted(s.agg, w, d, norm, H.AliveWorkers(s.mon), cfg.minReady);
    var overwritten := if w in s.agg.buffer then {(w, s.agg.buffer[w].number)} else {};
    if out.Fired? then
      With(s, w, c.(submits := c.submits + 1, handler := Apply(|s.fired|, out.batch, out.sockets))).(
      agg := agg', fired := s.fired + [out.batch], firer := w, replaced := s.replaced + overwritten)
    else
      With(s, w, c.(submits := c.submits + 1, handler := Recv(true))).(
      agg := agg', replaced := s.replaced + overwritten)
  }

  ghost function AfterApply(cfg: Config, s: State, w: Id): State
    requires w in s.conns && s.conns[w].handler.Apply?
  {
    var c := s.conns[w];
    var h := c.handler;
    With(s, w, c.(handler := ReadStep(h.round, h.sockets))).(
    hist := s.hist + [S.Apply(cfg.hyper, Last(s.hist), Grads(h.batch))], order := s.order + [h.round])
  }

  function AfterAck(s: State, w: Id, to: Id): State
    requires w in s.conns && s.conns[w].handler.Acking? && to in s.conns
  {
    var h := s.conns[w].handler;
    var s1 := With(s, w, s.conns[w].(handler := h.(todo := h.todo - {to})));
    var c := s1.conns[to];
    With(s1, to, c.(s2c := c.s2c + [Ack(h.step, h.round)], acks := c.acks + 1))
  }

  /** `_maybe_checkpoint` up to the call of `save_checkpoint`. */
  function AfterCheck(cfg: Config, s: State, w: Id): State
    requires w in s.conns && s.conns[w].handler.Check?
  {
    var c := s.conns[w];
    var h := c.handler;
    if h.step - s.lastCheckpoint < cfg.interval
    then With(s, w, c.(handler := Recv(true)))
    else With(s, w, c.(handler := Save(h.round, h.step))).(lastCheckpoint := h.step)
  }

  function AfterLeave(s: State, w: Id): State
    requires w in s.conns
  {
    var lost := if w in s.agg.buffer then {(w, s.agg.buffer[w].number)} else {};
    With(s, w, s.conns[w].(handler := Done)).(agg := A.Unregistered(s.agg, w), dropped := s.dropped + lost)
  }

  ghost function After(cfg: Config, s: State, e: Event): State
    requires Enabled(s, e)
  {
    match e
    case Scan(now) => s.(mon := H.Scanned(s.mon, now, cfg.timeout))
    case Connect(w) => With(s, w, FRESH_CONN)
    case Local(w, m) => With(s, w, Moved(s.conns[w], m, Last(s.hist), |s.hist| - 1))
    case Announce(w, now) =>
      With(s, w, s.conns[w].(handler := RegSock(s.conns[w].handler.msg))).(mon := H.Seen(s.mon, w, now))
    case Join(w) =>
      With(s, w, s.conns[w].(handler := Dispatch(s.conns[w].handler.msg), joined := |s.fired|)).(
      agg := A.Registered(s.agg, w))
    case Submit(w, norm) => AfterSubmit(cfg, s, w, norm)
    case ApplyRound(w) => AfterApply(cfg, s, w)
    case SendAck(w, to) => AfterAck(s, w, to)
    case CheckSave(w) => AfterCheck(cfg, s, w)
    case WriteSave(w) => With(s, w, s.conns[w].(handler := Recv(true))).(saves := s.saves + [Last(s.hist)])
    case AnswerBeat(w, now) => With(s, w, s.conns[w].(handler := ReplyBeat)).(mon := H.Seen(s.mon, w, now))
    case Bury(w) => With(s, w, s.conns[w].(handler := Unreg)).(mon := H.MarkedDead(s.mon, w))
    case Leave(w) => AfterLeave(s, w)
  }

  /** A run of the protocol from s to t. */
  ghost predicate Run(cfg: Config, s: State, es: seq<Event>, t: State)
    decreases |es|
  {
    if es == [] then t == s
    else Enabled(s, es[0]) && Run(cfg, After(cfg, s, es[0]), es[1..], t)
  }

  /** No scan takes an ALIVE worker off the barrier. */
  ghost predicate Quiet(cfg: Config, s: State, e: Event) {
    e.Scan? ==> forall w :: H.Alive(s.mon, w) ==> H.Alive(H.Scanned(s.mon, e.now, cfg.timeout), w)
  }

  /** A run without timeout demotion. */
  ghost predicate QuietRun(cfg: Config, s: State, es: seq<Event>, t: State)
    decreases |es|
  {
    if es == [] then t == s
    else Enabled(s, es[0]) && Quiet(cfg, s, es[0]) && QuietRun(cfg, After(cfg, s, es[0]), es[1..], t)
  }

  predicate Synchronous(cfg: Config) {
    cfg.minReady <= 0
  }

  predicate Fires(cfg: Config, s: State, w: Id, norm: real)
    requires Enabled(s, Submit(w, norm))
  {
    |AfterSubmit(cfg, s, w, norm).fired| > |s.fired|
  }

  /** A submission that fires finds in the buffer the push of every other worker whose handler is up. */
  predicate Covers(cfg: Config, s: State, e: Event)
    requires Enabled(s, e)
  {
    e.Submit? && Fires(cfg, s, e.w, e.norm) ==>
      forall v :: v in s.conns && v != e.w && Up(s.conns[v].handler) ==> v in s.agg.buffer
  }

  /** A run in which every round covers. The mode is left open: `Synchronous` quiet runs are of this kind. */
  ghost predicate CoveringRun(cfg: Config, s: State, es: seq<Event>, t: State)
    decreases |es|
  {
    if es == [] then t == s
    else Enabled(s, es[0]) && Covers(cfg, s, es[0]) && CoveringRun(cfg, After(cfg, s, es[0]), es[1..], t)
  }

  /** Inside `submit`, after a firing submission has released the buffer lock. */
  predicate Firing(h: Handler) {
    h.Apply? || h.ReadStep? || h.Acking? || h.Check? || h.Save?
  }

  /** The handler's worker is in the monitor as ALIVE unless a scan demoted it. */
  predicate Announced(h: Handler) {
    !(h == Recv(false) || h.RegBeat? || h.Unreg? || h.Done?)
  }

  /** The handler's worker is among the registered sockets. */
  predicate Joined(h: Handler) {
    !(h == Recv(false) || h.RegBeat? || h.RegSock? || h.Done?)
  }

  /** Registered, and still in its receive loop or inside `submit`. */
  predicate Up(h: Handler) {
    Joined(h) && !Dying(h)
  }

  /** The handler has left its receive loop because of an error. */
  predicate Dying(h: Handler) {
    h.MarkDead? || h.Unreg? || h.Done?
  }
}
