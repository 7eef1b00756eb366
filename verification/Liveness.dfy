/** Who is ALIVE at the end of a run, told from the events of the run alone. */
module Liveness {
  import opened Workers
  import opened Protocol
  import S = Store
  import H = Heartbeat

  /** The steps in which the server notes that it has heard from w. */
  predicate Sights(e: Event, w: Id) {
    (e.Announce? || e.AnswerBeat?) && e.w == w
  }

  /** The steps that end the life of a worker last heard from at u: its handler's `mark_dead`, and a scan later than the
  timeout. */
  predicate Ends(cfg: Config, e: Event, w: Id, u: real) {
    (e.Bury? && e.w == w) || (e.Scan? && e.now - u > cfg.timeout)
  }

  /** w was heard from in event i of the run, for the last time. */
  ghost predicate LastSighted(es: seq<Event>, w: Id, i: nat) {
    i < |es| && Sights(es[i], w) && forall j :: i < j < |es| ==> !Sights(es[j], w)
  }

  ghost predicate Ended(cfg: Config, es: seq<Event>, w: Id, u: real) {
    exists j :: 0 <= j < |es| && Ends(cfg, es[j], w, u)
  }

  ghost predicate Unseen(es: seq<Event>, w: Id) {
    forall j :: 0 <= j < |es| ==> !Sights(es[j], w)
  }

  /** w is in the monitor's books with the time u. */
  predicate HeardAt(m: H.Monitor, w: Id, u: real) {
    w in m.lastSeen && m.lastSeen[w] == u
  }

  /** The server's note: the time of this event, and ALIVE. */
  lemma Sighting(cfg: Config, s: State, e: Event, w: Id)
    requires Enabled(s, e) && Sights(e, w)
    ensures var t := After(cfg, s, e); H.Alive(t.mon, w) && HeardAt(t.mon, w, e.now)
  {
  }

  /** Any other step. */
  lemma NoSighting(cfg: Config, s: State, e: Event, w: Id, u: real)
    requires Enabled(s, e) && !Sights(e, w)
    ensures var t := After(cfg, s, e);
            && (HeardAt(s.mon, w, u) ==> HeardAt(t.mon, w, u))
            && (HeardAt(s.mon, w, u) ==> (H.Alive(t.mon, w) <==> H.Alive(s.mon, w) && !Ends(cfg, e, w, u)))
            && (!H.Alive(s.mon, w) ==> !H.Alive(t.mon, w))
  {
    hide S.Apply;
  }

  /** From the moment it is heard from on. */
  lemma {:induction false} WhileUnseen(cfg: Config, s: State, es: seq<Event>, t: State, w: Id, u: real)
    requires Run(cfg, s, es, t) && HeardAt(s.mon, w, u) && Unseen(es, w)
    ensures H.Alive(t.mon, w) <==> H.Alive(s.mon, w) && !Ended(cfg, es, w, u)
    decreases |es|
  {
    if es != [] {
      hide After, Enabled, HeardAt, Ends, Sights;
      NoSighting(cfg, s, es[0], w, u);
      assert forall j :: 0 <= j < |es| - 1 ==> es[1..][j] == es[j + 1];
      WhileUnseen(cfg, After(cfg, s, es[0]), es[1..], t, w, u);
      assert Ended(cfg, es, w, u) <==> Ends(cfg, es[0], w, u) || Ended(cfg, es[1..], w, u);
    }
  }

  /** A worker not heard from stays as it is, or dies. */
  lemma {:induction false} NeverRevived(cfg: Config, s: State, es: seq<Event>, t: State, w: Id)
    requires Run(cfg, s, es, t) && Unseen(es, w) && !H.Alive(s.mon, w)
    ensures !H.Alive(t.mon, w)
    decreases |es|
  {
    if es != [] {
      hide After, Enabled, Sights;
      NoSighting(cfg, s, es[0], w, 0.0);
      NeverRevived(cfg, After(cfg, s, es[0]), es[1..], t, w);
    }
  }

  /** A heartbeat, or the first message, keeps its worker ALIVE for exactly the timeout: after the step, and any others
  in which the server does not hear from it again, it is ALIVE if and only if neither its handler has marked it dead nor
  a scan has come later than the timeout. */
  lemma BeatKeepsAlive(cfg: Config, s: State, e: Event, es: seq<Event>, t: State, w: Id)
    requires Enabled(s, e) && Sights(e, w) && Run(cfg, After(cfg, s, e), es, t) && Unseen(es, w)
    ensures H.Alive(t.mon, w) <==> !Ended(cfg, es, w, e.now)
  {
    hide After, Enabled, Run, Unseen, Ended;
    Sighting(cfg, s, e, w);
    WhileUnseen(cfg, After(cfg, s, e), es, t, w, e.now);
  }

  /** In particular through one scan right after it. */
  lemma BeatThenScan(cfg: Config, s: State, e: Event, now: real)
    requires Enabled(s, e) && (e.Announce? || e.AnswerBeat?)
    ensures H.Alive(After(cfg, After(cfg, s, e), Scan(now)).mon, e.w) <==> now - e.now <= cfg.timeout
  {
    Sighting(cfg, s, e, e.w);
    NoSighting(cfg, After(cfg, s, e), Scan(now), e.w, e.now);
  }

  /** The run up to event i, and what comes after it. */
  lemma {:induction false} RunCut(cfg: Config, s: State, es: seq<Event>, t: State, i: nat) returns (r: State)
    requires Run(cfg, s, es, t) && i < |es|
    ensures Run(cfg, s, es[..i], r) && Enabled(r, es[i]) && Run(cfg, After(cfg, r, es[i]), es[i + 1..], t)
    decreases i
  {
    hide After, Enabled;
    if i == 0 {
      r := s;
    } else {
      r := RunCut(cfg, After(cfg, s, es[0]), es[1..], t, i - 1);
      assert es[..i][0] == es[0] && es[..i][1..] == es[1..][..i - 1];
      assert es[1..][i..] == es[i + 1..];
    }
  }

  /** At the end of a run of any mode a worker is ALIVE if and only if the server has heard from it, and since the last
  time its handler has not marked it dead and no scan has come later than the timeout after that time. */
  lemma AliveExactly(cfg: Config, es: seq<Event>, t: State, w: Id)
    requires Run(cfg, Init(cfg), es, t)
    ensures H.Alive(t.mon, w) <==>
            exists i: nat :: LastSighted(es, w, i) && !Ended(cfg, es[i + 1..], w, es[i].now)
  {
    hide Run, After, Enabled;
    if Unseen(es, w) {
      NeverRevived(cfg, Init(cfg), es, t, w);
    } else {
      var i := LastSight(es, w);
      var r := RunCut(cfg, Init(cfg), es, t, i);
      assert Unseen(es[i + 1..], w);
      hide Ended;
      BeatKeepsAlive(cfg, r, es[i], es[i + 1..], t, w);
      assert forall k: nat :: LastSighted(es, w, k) ==> k == i;
    }
  }

  lemma {:induction false} LastSight(es: seq<Event>, w: Id) returns (i: nat)
    requires !Unseen(es, w)
    ensures LastSighted(es, w, i)
  {
    i := |es| - 1;
    if !Sights(es[i], w) {
      assert forall j :: 0 <= j < i ==> es[..i][j] == es[j];
      i := LastSight(es[..i], w);
    }
  }
}
