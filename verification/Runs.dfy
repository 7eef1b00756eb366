/** Runs of the protocol put together. */
module Runs {
  import opened Protocol

  /** How many passes of the timeout scan a run contains. */
  function Scans(es: seq<Event>): nat {
    if es == [] then 0 else (if es[0].Scan? then 1 else 0) + Scans(es[1..])
  }

  lemma {:induction false} ScansJoin(es: seq<Event>, fs: seq<Event>)
    ensures Scans(es + fs) == Scans(es) + Scans(fs)
  {
    if es == [] {
      assert es + fs == fs;
    } else {
      assert (es + fs)[1..] == es[1..] + fs;
      ScansJoin(es[1..], fs);
    }
  }

  lemma {:induction false} RunJoin(cfg: Config, o: State, es: seq<Event>, s: State, fs: seq<Event>, t: State)
    requires Run(cfg, o, es, s) && Run(cfg, s, fs, t)
    ensures Run(cfg, o, es + fs, t)
    decreases |es|
  {
    hide After, Enabled;
    if es == [] {
      assert es + fs == fs;
    } else {
      assert (es + fs)[0] == es[0] && (es + fs)[1..] == es[1..] + fs;
      RunJoin(cfg, After(cfg, o, es[0]), es[1..], s, fs, t);
    }
  }

  lemma OneStep(cfg: Config, s: State, e: Event)
    requires Enabled(s, e)
    ensures Run(cfg, s, [e], After(cfg, s, e))
  {
    hide After, Enabled;
    assert [e][1..] == [];
  }

  lemma FirstStep(cfg: Config, s: State, e: Event, es: seq<Event>, t: State)
    requires Enabled(s, e) && Run(cfg, After(cfg, s, e), es, t)
    ensures Run(cfg, s, [e] + es, t)
  {
    hide Enabled, After;
    assert ([e] + es)[1..] == es;
  }

  lemma ScansOne(e: Event)
    ensures Scans([e]) == if e.Scan? then 1 else 0
  {
    assert [e][1..] == [];
  }

  /** A run without scans demotes nobody. */
  lemma {:induction false} ScanFreeIsQuiet(cfg: Config, s: State, es: seq<Event>, t: State)
    requires Run(cfg, s, es, t) && Scans(es) == 0
    ensures QuietRun(cfg, s, es, t)
    decreases |es|
  {
    hide After, Enabled;
    if es != [] {
      ScanFreeIsQuiet(cfg, After(cfg, s, es[0]), es[1..], t);
    }
  }

  lemma {:induction false} QuietIsRun(cfg: Config, s: State, es: seq<Event>, t: State)
    requires QuietRun(cfg, s, es, t)
    ensures Run(cfg, s, es, t)
    decreases |es|
  {
    hide After, Enabled, Quiet;
    if es != [] {
      QuietIsRun(cfg, After(cfg, s, es[0]), es[1..], t);
    }
  }

  /** t can be reached from s without scans. */
  ghost predicate Leads(cfg: Config, s: State, t: State) {
    exists es :: Run(cfg, s, es, t) && Scans(es) == 0
  }

  ghost predicate Reached(cfg: Config, t: State) {
    Leads(cfg, Init(cfg), t)
  }

  lemma Stay(cfg: Config, s: State)
    ensures Leads(cfg, s, s)
  {
    assert Run(cfg, s, [], s) && Scans([]) == 0;
  }

  lemma Then(cfg: Config, o: State, s: State, t: State)
    requires Leads(cfg, o, s) && Leads(cfg, s, t)
    ensures Leads(cfg, o, t)
  {
    hide Run;
    var es :| Run(cfg, o, es, s) && Scans(es) == 0;
    var fs :| Run(cfg, s, fs, t) && Scans(fs) == 0;
    RunJoin(cfg, o, es, s, fs, t);
    ScansJoin(es, fs);
  }

  lemma Further(cfg: Config, o: State, s: State, e: Event)
    requires Leads(cfg, o, s) && Enabled(s, e) && !e.Scan?
    ensures Leads(cfg, o, After(cfg, s, e))
  {
    hide Run, Enabled, After;
    OneStep(cfg, s, e);
    ScansOne(e);
    assert Leads(cfg, s, After(cfg, s, e));
    Then(cfg, o, s, After(cfg, s, e));
  }

  /** The quiet run that a scan-free one is. */
  lemma QuietRunTo(cfg: Config, s: State, t: State) returns (es: seq<Event>)
    requires Leads(cfg, s, t)
    ensures QuietRun(cfg, s, es, t) && Run(cfg, s, es, t) && Scans(es) == 0
  {
    hide Run, QuietRun;
    es :| Run(cfg, s, es, t) && Scans(es) == 0;
    ScanFreeIsQuiet(cfg, s, es, t);
  }
}
