/** The state of the weight store as a value, and what one aggregated update does to it. */
module Store {
  import opened Workers
  import opened Params
  import opened Sums

  /** Server-side blend: `server_lr` and `momentum` of the configuration. */
  datatype Hyper = Hyper(lr: real, momentum: real)

  datatype Store = Store(weights: Params, velocity: Params, step: nat)

  /** The deltas of one round, by worker. */
  type Grads = map<Id, Params>

  function EntryOf(grads: Grads, name: string, i: int): Id -> real {
    (w: Id) => if w in grads then Entry(grads[w], name, i) else 0.0
  }

  /** The mean over the contributing workers of one entry of their deltas. */
  ghost function Mean(grads: Grads, name: string, i: int): real
  {
    if grads.Keys == {} then 0.0 else MeanOver(grads.Keys, EntryOf(grads, name, i))
  }

  ghost function Velocity(h: Hyper, s: Store, grads: Grads): Params
  {
    Tabulate(s.weights, (k, i) => h.momentum * Entry(s.velocity, k, i) + Mean(grads, k, i))
  }

  /** One call of `apply_gradients`. */
  ghost function Apply(h: Hyper, s: Store, grads: Grads): (r: Store)
    ensures SameShape(r.weights, s.weights) && SameShape(r.velocity, s.weights)
    ensures r.step == s.step + 1
  {
    var v := Velocity(h, s, grads);
    Store(Tabulate(s.weights, (k, i) => Entry(s.weights, k, i) - h.lr * Entry(v, k, i)), v, s.step + 1)
  }

  /** One entry of the update: v' = momentum * v + mean, w' = w - lr * v'. */
  lemma ApplyEntry(h: Hyper, s: Store, grads: Grads, name: string, i: int)
    requires HasEntry(s.weights, name, i)
    ensures var r := Apply(h, s, grads);
            && Entry(r.velocity, name, i) == h.momentum * Entry(s.velocity, name, i) + Mean(grads, name, i)
            && Entry(r.weights, name, i) == Entry(s.weights, name, i) - h.lr * Entry(r.velocity, name, i)
  {
    hide Mean;
    var v := Velocity(h, s, grads);
    assert HasEntry(v, name, i);
  }
}
