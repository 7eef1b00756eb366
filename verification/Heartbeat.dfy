/** Worker liveness: the monitor's two dictionaries as a value, and the class that updates them in place.

Times are readings of the clock taken by the caller. */
module Heartbeat {
  import opened Workers

  datatype Status = ALIVE | DEAD

  datatype Monitor = Monitor(lastSeen: map<Id, real>, status: map<Id, Status>)

  const EMPTY := Monitor(map[], map[])

  predicate Alive(m: Monitor, w: Id) {
    w in m.status && m.status[w] == ALIVE
  }

  function AliveWorkers(m: Monitor): (alive: set<Id>)
    ensures forall w :: w in alive <==> Alive(m, w)
  {
    set w | w in m.status && m.status[w] == ALIVE
  }

  /** `register` and `beat` do the same thing. */
  function Seen(m: Monitor, w: Id, now: real): Monitor {
    Monitor(m.lastSeen[w := now], m.status[w := ALIVE])
  }

  function MarkedDead(m: Monitor, w: Id): Monitor {
    m.(status := m.status[w := DEAD])
  }

  predicate Overdue(m: Monitor, w: Id, now: real, timeout: real) {
    w in m.lastSeen && now - m.lastSeen[w] > timeout && Alive(m, w)
  }

  /** One pass of the scan: every ALIVE worker silent for longer than the timeout becomes DEAD. */
  function Scanned(m: Monitor, now: real, timeout: real): Monitor {
    m.(status := map w | w in m.status :: if Overdue(m, w, now, timeout) then DEAD else m.status[w])
  }

  class HeartbeatMonitor {
    const checkInterval: real
    const timeout: real
    var lastSeen: map<Id, real>
    var status: map<Id, Status>

    constructor (checkInterval: real := 10.0, timeout: real := 30.0)
      ensures Value() == EMPTY
      ensures this.checkInterval == checkInterval && this.timeout == timeout
    {
      this.checkInterval, this.timeout := checkInterval, timeout;
      lastSeen, status := map[], map[];
    }

    function Value(): Monitor
      reads this
    {
      Monitor(lastSeen, status)
    }

    method Register(w: Id, now: real)
      modifies this
      ensures lastSeen == old(lastSeen)[w := now] && status == old(status)[w := ALIVE]
      ensures Value() == Seen(old(Value()), w, now)
    {
      lastSeen := lastSeen[w := now];
      status := status[w := ALIVE];
    }

    method Beat(w: Id, now: real)
      modifies this
      ensures lastSeen == old(lastSeen)[w := now] && status == old(status)[w := ALIVE]
      ensures Value() == Seen(old(Value()), w, now)
    {
      lastSeen := lastSeen[w := now];
      status := status[w := ALIVE];
    }

    method MarkDead(w: Id)
      modifies this`status
      ensures status == old(status)[w := DEAD]
      ensures Value() == MarkedDead(old(Value()), w)
    {
      status := status[w := DEAD];
    }

    method GetAlive() returns (alive: set<Id>)
      ensures forall w :: w in alive <==> w in status && status[w] == ALIVE
      ensures alive == AliveWorkers(Value())
    {
      alive := {};
      var todo: set<Id> := status.Keys;
      while todo != {}
        invariant todo <= status.Keys
        invariant forall w :: w in alive <==> Alive(Value(), w) && w !in todo
        decreases todo
      {
        var w :| w in todo;
        if status[w] == ALIVE {
          alive := alive + {w};
        }
        todo := todo - {w};
      }
    }

    /** One pass of the background loop over `last_seen`. */
    method Scan(now: real)
      modifies this`status
      ensures status.Keys == old(status).Keys
      ensures forall w :: w in status ==>
        (status[w] == ALIVE <==> old(status)[w] == ALIVE && !(w in lastSeen && now - lastSeen[w] > timeout))
      ensures Value() == Scanned(old(Value()), now, timeout)
    {
      var todo: set<Id> := lastSeen.Keys;
      while todo != {}
        invariant todo <= lastSeen.Keys
        invariant status.Keys == old(status).Keys
        invariant forall w :: w in status ==>
          status[w] == if w in todo then old(status)[w] else Scanned(old(Value()), now, timeout).status[w]
        decreases todo
      {
        var w :| w in todo;
        if now - lastSeen[w] > timeout && w in status && status[w] == ALIVE {
          status := status[w := DEAD];
        }
        todo := todo - {w};
      }
    }
  }

  /** The server's monitor. */
  method ServerMonitor() returns (monitor: HeartbeatMonitor)
    ensures fresh(monitor) && monitor.lastSeen == map[] && monitor.status == map[]
    ensures monitor.checkInterval == 10.0 && monitor.timeout == 30.0
  {
    monitor := new HeartbeatMonitor();
  }

  /** A beat at time u keeps its worker ALIVE through a scan for as long as the timeout, and no longer. */
  method BeatThenScan(monitor: HeartbeatMonitor, w: Id, u: real, now: real)
    modifies monitor
    ensures w in monitor.status && (monitor.status[w] == ALIVE <==> now - u <= monitor.timeout)
    ensures monitor.lastSeen == old(monitor.lastSeen)[w := u]
  {
    monitor.Beat(w, u);
    monitor.Scan(now);
  }

  /** A worker that beat within the timeout survives every scan until then, and nobody is revived by one. */
  lemma ScanKeepsRecent(m: Monitor, w: Id, now: real, timeout: real)
    ensures Alive(Scanned(m, now, timeout), w) <==> Alive(m, w) && !(w in m.lastSeen && now - m.lastSeen[w] > timeout)
    ensures Scanned(m, now, timeout).lastSeen == m.lastSeen
  {
  }
}
