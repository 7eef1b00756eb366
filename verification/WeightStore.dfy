/** The weight store as it is programmed: loops over the parameter names, updated in place. */
module WeightStores {
  import opened Workers
  import opened Params
  import opened Sums
  import S = Store

  datatype Option<+T> = None | Some(value: T)

  /** What `save_checkpoint` writes. */
  datatype Checkpoint = Checkpoint(weights: Params, momentumBuffers: Params, globalStep: nat, baseLr: real,
                                   momentum: real)

  function Add(a: Vec, b: Vec): (c: Vec)
    requires |a| == |b|
    ensures |c| == |a| && forall i :: 0 <= i < |a| ==> c[i] == a[i] + b[i]
  {
    seq(|a|, i requires 0 <= i < |a| => a[i] + b[i])
  }

  function Scale(x: real, a: Vec): (c: Vec)
    ensures |c| == |a| && forall i :: 0 <= i < |a| ==> c[i] == x * a[i]
  {
    seq(|a|, i requires 0 <= i < |a| => x * a[i])
  }

  function Divide(a: Vec, n: real): (c: Vec)
    requires n != 0.0
    ensures |c| == |a| && forall i :: 0 <= i < |a| ==> c[i] == a[i] / n
  {
    seq(|a|, i requires 0 <= i < |a| => a[i] / n)
  }

  /** The sum of one entry over the first k dictionaries of a list. */
  function ListSum(list: seq<Params>, k: nat, name: string, i: int): real
    requires k <= |list|
  {
    if k == 0 then 0.0 else ListSum(list, k - 1, name, i) + Entry(list[k - 1], name, i)
  }

  function ListMean(list: seq<Params>, name: string, i: int): real
    requires list != []
  {
    ListSum(list, |list|, name, i) / |list| as real
  }

  /** The list is the values of the dictionary `grads` in some order of its keys. */
  ghost predicate ValuesOf(list: seq<Params>, grads: S.Grads, order: seq<Id>) {
    && |order| == |list|
    && (forall j :: 0 <= j < |order| ==> order[j] in grads && list[j] == grads[order[j]])
    && (forall j, k :: 0 <= j < k < |order| ==> order[j] != order[k])
    && (forall w :: w in grads ==> w in order)
  }

  lemma {:induction false} ListSumIsSum(list: seq<Params>, grads: S.Grads, order: seq<Id>, k: nat, name: string, i: int)
    requires ValuesOf(list, grads, order) && k <= |list|
    ensures ListSum(list, k, name, i) == SumSeq(order[..k], S.EntryOf(grads, name, i))
  {
    if k > 0 {
      ListSumIsSum(list, grads, order, k - 1, name, i);
      assert order[..k][..k - 1] == order[..k - 1];
    }
  }

  /** The mean does not depend on the order in which the dictionary lists its values. */
  lemma ListMeanIsMean(list: seq<Params>, grads: S.Grads, order: seq<Id>, name: string, i: int)
    requires ValuesOf(list, grads, order) && list != []
    ensures ListMean(list, name, i) == S.Mean(grads, name, i)
  {
    ListSumIsSum(list, grads, order, |list|, name, i);
    assert order[..|list|] == order;
    SumSeqIsSum(order, S.EntryOf(grads, name, i));
    assert Elements(order) == grads.Keys;
    assert |grads| == |grads.Keys|;
  }

  class WeightStore {
    var weights: Params
    var momentumBuffers: Params
    var globalStep: nat
    const baseLr: real
    const momentum: real

    ghost predicate Valid()
      reads this
    {
      SameShape(momentumBuffers, weights)
    }

    function Hyper(): S.Hyper {
      S.Hyper(baseLr, momentum)
    }

    function Value(): S.Store
      reads this
    {
      S.Store(weights, momentumBuffers, globalStep)
    }

    constructor (initialWeights: Params, lr: real, momentum: real)
      ensures Valid() && weights == initialWeights && globalStep == 0
      ensures forall k, i :: Entry(momentumBuffers, k, i) == 0.0
      ensures Hyper() == S.Hyper(lr, momentum)
    {
      weights := initialWeights;
      momentumBuffers := map k | k in initialWeights :: Scale(0.0, initialWeights[k]);
      globalStep := 0;
      baseLr, this.momentum := lr, momentum;
    }

    /** A copy: later updates do not change it. */
    method GetWeights() returns (copy: Params)
      ensures copy == weights
    {
      copy := weights;
    }

    method GetStep() returns (step: nat)
      ensures step == Value().step
    {
      step := globalStep;
    }

    /** The mean of one parameter over the list, accumulated in place. */
    method AverageOf(list: seq<Params>, name: string) returns (avg: Vec)
      requires list != [] && name in weights && forall g :: g in list ==> name in g && |g[name]| == |weights[name]|
      ensures |avg| == |weights[name]|
      ensures forall i :: 0 <= i < |avg| ==> avg[i] == ListMean(list, name, i)
    {
      assert list[0] in list;
      avg := list[0][name];
      assert forall i :: 0 <= i < |avg| ==> ListSum(list, 1, name, i) == ListSum(list, 0, name, i) + avg[i];
      for k := 1 to |list|
        invariant |avg| == |weights[name]|
        invariant forall i :: 0 <= i < |avg| ==> avg[i] == ListSum(list, k, name, i)
      {
        assert list[k] in list;
        avg := Add(avg, list[k][name]);
      }
      avg := Divide(avg, |list| as real);
    }

    /** One pass of the loop over the names, starting from the store `before`. */
    method UpdateName(list: seq<Params>, name: string, ghost grads: S.Grads, ghost order: seq<Id>,
                      ghost before: S.Store)
      requires list != [] && ValuesOf(list, grads, order)
      requires SameShape(before.velocity, before.weights) && name in before.weights && name in weights
      requires name in momentumBuffers
      requires weights[name] == before.weights[name] && momentumBuffers[name] == before.velocity[name]
      requires forall g :: g in list ==> SameShape(g, before.weights)
      modifies this`weights, this`momentumBuffers
      ensures var after := S.Apply(Hyper(), before, grads);
              && name in after.weights && name in after.velocity
              && weights == old(weights)[name := after.weights[name]]
              && momentumBuffers == old(momentumBuffers)[name := after.velocity[name]]
    {
      var avg := AverageOf(list, name);
      var v := Add(Scale(momentum, momentumBuffers[name]), avg);
      var w := Add(weights[name], Scale(-1.0, Scale(baseLr, v)));
      Updated(Hyper(), before, list, grads, order, name, v, w);
      momentumBuffers := momentumBuffers[name := v];
      weights := weights[name := w];
    }

    /** v = momentum * v + mean, w = w - lr * v for every entry, step + 1. The grads list must not be empty,
    and every delta has the names and shapes of the weights. */
    method ApplyGradients(gradsList: seq<Params>, ghost grads: S.Grads, ghost order: seq<Id>)
      returns (newWeights: Params)
      requires Valid() && gradsList != [] && ValuesOf(gradsList, grads, order)
      requires forall g :: g in gradsList ==> SameShape(g, weights)
      modifies this
      ensures Valid() && Value() == S.Apply(Hyper(), old(Value()), grads)
      ensures newWeights == weights
    {
      ghost var before := Value();
      ghost var after := S.Apply(Hyper(), before, grads);
      assert before.weights.Keys == before.velocity.Keys == after.weights.Keys == after.velocity.Keys;
      hide S.Apply, ValuesOf, SameShape;
      var todo := weights.Keys;
      while todo != {}
        invariant todo <= before.weights.Keys
        invariant weights.Keys == momentumBuffers.Keys == before.weights.Keys
        invariant globalStep == before.step
        invariant forall k :: k in todo ==> weights[k] == before.weights[k] && momentumBuffers[k] == before.velocity[k]
        invariant forall k :: k in weights && k !in todo ==>
          weights[k] == after.weights[k] && momentumBuffers[k] == after.velocity[k]
        decreases todo
      {
        var name :| name in todo;
        UpdateName(gradsList, name, grads, order, before);
        todo := todo - {name};
      }
      assert weights == after.weights && momentumBuffers == after.velocity;
      globalStep := globalStep + 1;
      newWeights := weights;
    }

    /** A snapshot of the state and of the two settings. */
    method SaveCheckpoint() returns (c: Checkpoint)
      ensures c.weights == weights && c.momentumBuffers == momentumBuffers && c.globalStep == globalStep
      ensures c.baseLr == baseLr && c.momentum == momentum
      ensures Saved(c) == Value() && S.Hyper(c.baseLr, c.momentum) == Hyper()
    {
      c := Checkpoint(weights, momentumBuffers, globalStep, baseLr, momentum);
    }

    /** Restores weights, momentum buffers and step, and nothing of server_lr and momentum; no file, no change. */
    method LoadCheckpoint(file: Option<Checkpoint>) returns (ok: bool)
      modifies this
      ensures ok == file.Some?
      ensures ok ==> weights == file.value.weights && momentumBuffers == file.value.momentumBuffers
                     && globalStep == file.value.globalStep
      ensures Value() == if ok then Saved(file.value) else old(Value())
    {
      if file.None? {
        return false;
      }
      weights, momentumBuffers := file.value.weights, file.value.momentumBuffers;
      globalStep := file.value.globalStep;
      ok := true;
    }
  }

  /** The state in a checkpoint file. */
  function Saved(c: Checkpoint): S.Store {
    S.Store(c.weights, c.momentumBuffers, c.globalStep)
  }

  /** Saving one store and loading another from the file: the other is in the state of the first, can go on
  (`Valid`); its own server_lr and momentum are constants. Whatever happens to the first after the save does not
  matter. */
  method SaveThenLoad(first: WeightStore, other: WeightStore, gradsList: seq<Params>, ghost grads: S.Grads,
                      ghost order: seq<Id>)
    requires first != other && first.Valid() && gradsList != [] && ValuesOf(gradsList, grads, order)
    requires forall g :: g in gradsList ==> SameShape(g, first.weights)
    modifies first, other
    ensures other.Valid() && other.Value() == old(first.Value())
  {
    var c := first.SaveCheckpoint();
    var _ := first.ApplyGradients(gradsList, grads, order);
    var ok := other.LoadCheckpoint(Some(c));
    assert other.Value() == Saved(c);
  }

  /** The two arrays computed for one name are those of the specification. */
  lemma Updated(h: S.Hyper, s: S.Store, list: seq<Params>, grads: S.Grads, order: seq<Id>, name: string, v: Vec, w: Vec)
    requires list != [] && ValuesOf(list, grads, order) && name in s.weights && SameShape(s.velocity, s.weights)
    requires |v| == |w| == |s.weights[name]|
    requires forall i :: 0 <= i < |v| ==> v[i] == h.momentum * s.velocity[name][i] + ListMean(list, name, i)
    requires forall i :: 0 <= i < |w| ==> w[i] == s.weights[name][i] - h.lr * v[i]
    ensures var after := S.Apply(h, s, grads);
            name in after.weights && name in after.velocity && v == after.velocity[name] && w == after.weights[name]
  {
    hide S.Apply, S.Mean, ListMean, ValuesOf;
    var after := S.Apply(h, s, grads);
    forall i | 0 <= i < |v| ensures v[i] == after.velocity[name][i] && w[i] == after.weights[name][i] {
      assert HasEntry(s.weights, name, i);
      ListMeanIsMean(list, grads, order, name, i);
      S.ApplyEntry(h, s, grads, name, i);
    }
  }
}
