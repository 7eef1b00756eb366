/** The aggregator as it is programmed, called by one thread at a time: dictionaries updated in place,
`submit` from the lock to the checkpoint. Other threads' steps between its lock sections are the business of
the protocol model. */
module Aggregators {
  import opened Workers
  import opened Params
  import opened WeightStores
  import A = Aggregation
  import H = Heartbeat
  import S = Store

  datatype ServerConfig = ServerConfig(minReady: int, checkpointInterval: int)

  /** A registered socket: the ACKs sent on it. Sending on a broken one raises, and the error is swallowed. */
  class Connection {
    var acks: seq<nat>
    var broken: bool

    constructor ()
      ensures acks == [] && !broken
    {
      acks, broken := [], false;
    }

    method SendAck(step: nat)
      modifies this
      ensures acks == (if broken then old(acks) else old(acks) + [step]) && broken == old(broken)
    {
      if !broken {
        acks := acks + [step];
      }
    }
  }

  class GradientAggregator {
    const weightStore: WeightStore
    const heartbeat: H.HeartbeatMonitor
    const config: Option<ServerConfig>
    var buffer: map<Id, Params>
    var norms: map<Id, real>
    var sockets: map<Id, Connection>
    var lastCheckpointStep: int
    var latest: Option<Checkpoint>

    /** Every delta has the names and shapes of the weights. */
    ghost predicate Shaped(batch: map<Id, Params>)
      reads weightStore
    {
      forall w :: w in batch ==> SameShape(batch[w], weightStore.weights)
    }

    /** Every worker has its own connection. */
    static ghost predicate Apart(sockets: map<Id, Connection>) {
      forall v, w :: v in sockets && w in sockets && v != w ==> sockets[v] != sockets[w]
    }

    ghost predicate Valid()
      reads this, weightStore
    {
      weightStore.Valid() && norms.Keys == buffer.Keys && Shaped(buffer) && Apart(sockets)
    }

    function Value(): A.Agg<Params>
      reads this
    {
      A.Agg(buffer, norms, sockets.Keys)
    }

    function MinReady(): int {
      if config.Some? then config.value.minReady else 0
    }

    constructor (weightStore: WeightStore, heartbeat: H.HeartbeatMonitor, config: Option<ServerConfig>)
      requires weightStore.Valid()
      ensures Valid() && Value() == A.Agg(map[], map[], {}) && lastCheckpointStep == weightStore.globalStep
      ensures this.weightStore == weightStore && this.heartbeat == heartbeat && this.config == config
    {
      this.weightStore, this.heartbeat, this.config := weightStore, heartbeat, config;
      buffer, norms, sockets := map[], map[], map[];
      lastCheckpointStep := weightStore.globalStep;
      latest := None;
    }

    method RegisterSocket(w: Id, sock: Connection)
      requires Valid() && forall v :: v in sockets && v != w ==> sockets[v] != sock
      modifies this`sockets
      ensures Valid() && Value() == A.Registered(old(Value()), w) && sockets == old(sockets)[w := sock]
    {
      sockets := sockets[w := sock];
    }

    method Unregister(w: Id)
      requires Valid()
      modifies this`sockets, this`buffer, this`norms
      ensures Valid() && Value() == A.Unregistered(old(Value()), w) && sockets == old(sockets) - {w}
      ensures buffer == old(buffer) - {w} && norms == old(norms) - {w}
    {
      sockets := sockets - {w};
      buffer := buffer - {w};
      norms := norms - {w};
    }

    /** The barrier as it is configured: without a configuration, or with min_ready_workers <= 0, nobody who is ALIVE
    and registered lacks a push; otherwise min_ready_workers ALIVE workers have one. */
    predicate Met(have: set<Id>, alive: set<Id>)
      reads this`sockets
    {
      if config.Some? && config.value.minReady > 0 then |have * alive| >= config.value.minReady
      else forall v :: v in alive && v in sockets ==> v in have
    }

    /** The barrier test. */
    method ShouldApply(alive: set<Id>) returns (yes: bool)
      ensures yes == Met(buffer.Keys, alive)
      ensures yes == A.ShouldApply(Value(), alive, MinReady())
    {
      var have := buffer.Keys;
      var readyCount := |have * alive|;
      if MinReady() <= 0 {
        var waitingOn := alive * sockets.Keys - have;
        A.EmptyDifference(alive * sockets.Keys, have);
        yes := waitingOn == {};
      } else {
        yes := readyCount >= MinReady();
      }
    }

    lemma ShapedMore(batch: map<Id, Params>, w: Id, grads: Params)
      requires Shaped(batch) && SameShape(grads, weightStore.weights)
      ensures Shaped(batch[w := grads]) && Shaped(map[])
    {
    }

    /** The section under the buffer lock. `fired` is None when the method returns early. */
    method SubmitLocked(w: Id, grads: Params, norm: real)
      returns (fired: Option<map<Id, Params>>, roundSockets: map<Id, Connection>)
      requires Valid() && SameShape(grads, weightStore.weights)
      modifies this`buffer, this`norms
      ensures Valid()
      ensures fired.Some? <==> Met(old(buffer).Keys + {w}, H.AliveWorkers(heartbeat.Value()))
      ensures fired.Some? ==> fired.value == old(buffer)[w := grads] && roundSockets == sockets
      ensures fired.Some? ==> Shaped(fired.value)
      ensures buffer == (if fired.Some? then map[] else old(buffer)[w := grads])
      ensures norms == (if fired.Some? then map[] else old(norms)[w := norm])
      ensures var (agg', out) := A.Submitted(old(Value()), w, grads, norm, H.AliveWorkers(heartbeat.Value()),
                                             MinReady());
              Value() == agg' && (fired.Some? <==> out.Fired?) && (fired.Some? ==> fired.value == out.batch)
    {
      hide A.ShouldApply, SameShape, Met, Shaped, Apart;
      ShapedMore(buffer, w, grads);
      buffer := buffer[w := grads];
      norms := norms[w := norm];
      var alive := heartbeat.GetAlive();
      var shouldApply := ShouldApply(alive);
      assert buffer.Keys == old(buffer).Keys + {w};
      if !shouldApply {
        return None, map[];
      }
      fired, roundSockets := Some(buffer), sockets;
      buffer, norms := map[], map[];
    }

    /** c is a checkpoint of the store as it is. */
    predicate IsSaved(c: Checkpoint)
      reads weightStore
    {
      Saved(c) == weightStore.Value() && S.Hyper(c.baseLr, c.momentum) == weightStore.Hyper()
    }

    /** `_maybe_checkpoint`. */
    method MaybeCheckpoint(step: nat)
      modifies this`lastCheckpointStep, this`latest
      ensures var due := config.Some? && step - old(lastCheckpointStep) >= config.value.checkpointInterval;
              && lastCheckpointStep == (if due then step else old(lastCheckpointStep))
              && (if due then latest.Some? && IsSaved(latest.value) else latest == old(latest))
    {
      if config.None? {
        return;
      }
      if step - lastCheckpointStep < config.value.checkpointInterval {
        return;
      }
      lastCheckpointStep := step;
      var c := weightStore.SaveCheckpoint();
      latest := Some(c);
    }

    /** `list(self.buffer.values())`: the values in some order of the keys. */
    static method ValuesList(m: map<Id, Params>) returns (list: seq<Params>, ghost order: seq<Id>)
      ensures ValuesOf(list, m, order) && (m != map[] ==> list != [])
    {
      list, order := [], [];
      var todo := m.Keys;
      while todo != {}
        invariant todo <= m.Keys && |order| == |list|
        invariant forall j :: 0 <= j < |order| ==> order[j] in m && order[j] !in todo && list[j] == m[order[j]]
        invariant forall j, k :: 0 <= j < k < |order| ==> order[j] != order[k]
        invariant forall w :: w in m && w !in todo ==> w in order
        decreases todo
      {
        var w :| w in todo;
        list, order, todo := list + [m[w]], order + [w], todo - {w};
      }
      if m != map[] {
        var w :| w in m.Keys;
        assert w in order;
      }
    }

    /** Sends the step to every socket of the round. */
    method SendAcks(roundSockets: map<Id, Connection>, step: nat)
      requires Apart(roundSockets)
      modifies roundSockets.Values
      ensures forall w :: w in roundSockets ==>
        roundSockets[w].acks == old(roundSockets[w].acks) + (if old(roundSockets[w].broken) then [] else [step])
    {
      var todo := roundSockets.Keys;
      while todo != {}
        invariant todo <= roundSockets.Keys
        invariant forall w :: w in roundSockets ==> roundSockets[w].broken == old(roundSockets[w].broken)
        invariant forall w :: w in roundSockets ==>
          roundSockets[w].acks == old(roundSockets[w].acks)
                                  + (if w in todo || old(roundSockets[w].broken) then [] else [step])
        decreases todo
      {
        var w :| w in todo;
        roundSockets[w].SendAck(step);
        todo := todo - {w};
      }
    }

    /** Averages and applies the batch, then reads the step. */
    method ApplyRound(batch: map<Id, Params>) returns (step: nat)
      requires weightStore.Valid() && batch != map[]
      requires Shaped(batch)
      modifies weightStore
      ensures weightStore.Valid() && SameShape(weightStore.weights, old(weightStore.weights))
      ensures weightStore.Value() == S.Apply(weightStore.Hyper(), old(weightStore.Value()), batch)
      ensures step == weightStore.globalStep == old(weightStore.globalStep) + 1
    {
      hide SameShape, S.Apply;
      var gradsList, order := ValuesList(batch);
      ValuesShaped(gradsList, batch, order, weightStore.weights);
      var _ := weightStore.ApplyGradients(gradsList, batch, order);
      step := weightStore.GetStep();
    }

    /** What `submit` does after it has released the buffer lock: the update, the ACKs and a due checkpoint. */
    method Finish(batch: map<Id, Params>, roundSockets: map<Id, Connection>)
      requires weightStore.Valid() && batch != map[]
      requires Shaped(batch)
      requires Apart(roundSockets)
      modifies this`lastCheckpointStep, this`latest, weightStore, roundSockets.Values
      ensures weightStore.Valid() && SameShape(weightStore.weights, old(weightStore.weights))
      ensures weightStore.Value() == S.Apply(weightStore.Hyper(), old(weightStore.Value()), batch)
      ensures forall v :: v in roundSockets ==>
        roundSockets[v].acks == old(roundSockets[v].acks)
                                + (if old(roundSockets[v].broken) then [] else [old(weightStore.globalStep) + 1])
      ensures
        var step := old(weightStore.globalStep) + 1;
        if config.Some? && step - old(lastCheckpointStep) >= config.value.checkpointInterval
        then lastCheckpointStep == step && latest.Some? && IsSaved(latest.value)
        else lastCheckpointStep == old(lastCheckpointStep) && latest == old(latest)
    {
      hide SameShape, S.Apply;
      var step := ApplyRound(batch);
      SendAcks(roundSockets, step);
      MaybeCheckpoint(step);
    }

    /** `submit`, uninterrupted: early return if the barrier is not met; otherwise the store has had the round's
    update, every registered socket that is not broken has been sent exactly one ACK, with the step right after
    that update, and a checkpoint of that very state has been written if one was due. */
    method Submit(w: Id, grads: Params, norm: real) returns (fired: bool)
      requires Valid() && SameShape(grads, weightStore.weights)
      modifies this`buffer, this`norms, this`lastCheckpointStep, this`latest, weightStore, sockets.Values
      ensures Valid()
      ensures fired <==> Met(old(buffer).Keys + {w}, set v | v in heartbeat.status && heartbeat.status[v] == H.ALIVE)
      ensures buffer == (if fired then map[] else old(buffer)[w := grads])
      ensures norms == (if fired then map[] else old(norms)[w := norm])
      ensures weightStore.Value() ==
              if fired then S.Apply(weightStore.Hyper(), old(weightStore.Value()), old(buffer)[w := grads])
              else old(weightStore.Value())
      ensures var (agg', out) := A.Submitted(old(Value()), w, grads, norm, H.AliveWorkers(old(heartbeat.Value())),
                                             MinReady());
              Value() == agg' && (fired <==> out.Fired?)
      ensures forall v :: v in sockets ==>
        sockets[v].acks == old(sockets[v].acks)
                           + (if fired && !old(sockets[v].broken) then [old(weightStore.globalStep) + 1] else [])
      ensures !fired ==> lastCheckpointStep == old(lastCheckpointStep) && latest == old(latest)
      ensures fired ==>
        var step := old(weightStore.globalStep) + 1;
        if config.Some? && step - old(lastCheckpointStep) >= config.value.checkpointInterval
        then lastCheckpointStep == step && latest.Some? && IsSaved(latest.value)
        else lastCheckpointStep == old(lastCheckpointStep) && latest == old(latest)
    {
      hide Met, SameShape, S.Apply, H.AliveWorkers, A.Submitted, IsSaved;
      assert H.AliveWorkers(heartbeat.Value()) == set v | v in heartbeat.status && heartbeat.status[v] == H.ALIVE;
      var batch, roundSockets := SubmitLocked(w, grads, norm);
      fired := batch.Some?;
      if !fired {
        return;
      }
      assert w in batch.value;
      Finish(batch.value, roundSockets);
    }
  }

  lemma ValuesShaped(list: seq<Params>, m: map<Id, Params>, order: seq<Id>, shape: Params)
    requires ValuesOf(list, m, order) && forall v :: v in m ==> SameShape(m[v], shape)
    ensures forall g :: g in list ==> SameShape(g, shape)
  {
  }
}
