/** The aggregator's dictionaries as a value, generic in what is buffered per worker. */
module Aggregation {
  import opened Workers

  /** `buffer`, `norms` and the keys of `sockets`. */
  datatype Agg<D> = Agg(buffer: map<Id, D>, norms: map<Id, real>, sockets: set<Id>)

  /** What the submitting thread takes with it when it releases the buffer lock. */
  datatype Outcome<D> = Waiting | Fired(batch: map<Id, D>, sockets: set<Id>)

  function Registered<D>(a: Agg<D>, w: Id): Agg<D> {
    a.(sockets := a.sockets + {w})
  }

  function Unregistered<D>(a: Agg<D>, w: Id): Agg<D> {
    Agg(a.buffer - {w}, a.norms - {w}, a.sockets - {w})
  }

  function Buffered<D>(a: Agg<D>, w: Id, d: D, norm: real): Agg<D> {
    Agg(a.buffer[w := d], a.norms[w := norm], a.sockets)
  }

  /** The barrier test on lines 61 to 75 of the connection handler. */
  predicate ShouldApply<D>(a: Agg<D>, alive: set<Id>, minReady: int) {
    if minReady <= 0
    then alive * a.sockets <= a.buffer.Keys
    else |a.buffer.Keys * alive| >= minReady
  }

  /** The section of `submit` under the buffer lock. */
  function Submitted<D>(a: Agg<D>, w: Id, d: D, norm: real, alive: set<Id>, minReady: int): (Agg<D>, Outcome<D>) {
    var b := Buffered(a, w, d, norm);
    if ShouldApply(b, alive, minReady)
    then (Agg(map[], map[], b.sockets), Fired(b.buffer, b.sockets))
    else (b, Waiting)
  }

  lemma EmptyDifference<T>(a: set<T>, b: set<T>)
    ensures a - b == {} <==> a <= b
  {
    assert forall x :: x in a - b <==> x in a && x !in b;
  }
}
