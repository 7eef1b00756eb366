/** Auto-reset environments and the episode bookkeeping of a worker. */
module Episodes {
  import opened Rollouts
  import opened Sums

  /** What one `env.step` gives; `state` is everything the environment object carries, its generator included. */
  datatype Outcome<S> = Outcome(state: S, obs: Obs, reward: real, done: bool)

  /** An arbitrary environment. */
  datatype Env<!S> = Env(step: (S, Obs) -> Outcome<S>, reset: S -> (S, Obs))

  /** One step of one environment as the worker sees it. */
  datatype Tick = Tick(reward: real, done: bool)

  /** One step of the vectorizer on one environment: stepped, and reset at once when it is done. */
  function AutoStep<S>(env: Env<S>, s: S, a: Obs): Outcome<S> {
    var o := env.step(s, a);
    if o.done then o.(state := env.reset(o.state).0, obs := env.reset(o.state).1) else o
  }

  /** The state after a list of actions, and what was seen on the way, with resets... */
  function AutoState<S>(env: Env<S>, s: S, acts: seq<Obs>): S {
    if acts == [] then s else AutoStep(env, AutoState(env, s, acts[..|acts| - 1]), acts[|acts| - 1]).state
  }

  /** The observation shown after them: `first` before any action. */
  function Shown<S>(env: Env<S>, s: S, first: Obs, acts: seq<Obs>): Obs {
    if acts == [] then first else AutoStep(env, AutoState(env, s, acts[..|acts| - 1]), acts[|acts| - 1]).obs
  }

  function AutoTicks<S>(env: Env<S>, s: S, acts: seq<Obs>): (ticks: seq<Tick>)
    ensures |ticks| == |acts|
  {
    if acts == [] then [] else
      var o := AutoStep(env, AutoState(env, s, acts[..|acts| - 1]), acts[|acts| - 1]);
      AutoTicks(env, s, acts[..|acts| - 1]) + [Tick(o.reward, o.done)]
  }

  /** ... and without: the environment on its own. */
  function RawState<S>(env: Env<S>, s: S, acts: seq<Obs>): S {
    if acts == [] then s else env.step(RawState(env, s, acts[..|acts| - 1]), acts[|acts| - 1]).state
  }

  function RawShown<S>(env: Env<S>, s: S, first: Obs, acts: seq<Obs>): Obs {
    if acts == [] then first else env.step(RawState(env, s, acts[..|acts| - 1]), acts[|acts| - 1]).obs
  }

  function RawTicks<S>(env: Env<S>, s: S, acts: seq<Obs>): (ticks: seq<Tick>)
    ensures |ticks| == |acts|
  {
    if acts == [] then [] else
      var o := env.step(RawState(env, s, acts[..|acts| - 1]), acts[|acts| - 1]);
      RawTicks(env, s, acts[..|acts| - 1]) + [Tick(o.reward, o.done)]
  }

  /** Steps a..b belong to one episode that began at step a. */
  ghost predicate Within(ticks: seq<Tick>, a: nat, b: nat) {
    && a < b <= |ticks| && (a == 0 || ticks[a - 1].done)
    && forall k :: a <= k < b - 1 ==> !ticks[k].done
  }

  lemma {:induction false} TicksPrefix<S>(env: Env<S>, s: S, acts: seq<Obs>, k: nat)
    requires k <= |acts|
    ensures AutoTicks(env, s, acts)[..k] == AutoTicks(env, s, acts[..k])
  {
    if k == |acts| {
      assert acts[..k] == acts;
    } else {
      TicksPrefix(env, s, acts[..|acts| - 1], k);
      assert acts[..|acts| - 1][..k] == acts[..k];
    }
  }

  /** Until a done the vectorized environment is the environment itself. */
  lemma {:induction false} UndisturbedRun<S>(env: Env<S>, s: S, first: Obs, pre: seq<Obs>, mid: seq<Obs>)
    requires forall k :: |pre| <= k < |pre + mid| - 1 ==> !AutoTicks(env, s, pre + mid)[k].done
    ensures AutoTicks(env, s, pre + mid) == AutoTicks(env, s, pre) + RawTicks(env, AutoState(env, s, pre), mid)
    ensures mid == [] || !AutoTicks(env, s, pre + mid)[|pre + mid| - 1].done ==>
      AutoState(env, s, pre + mid) == RawState(env, AutoState(env, s, pre), mid)
    ensures mid == [] || !AutoTicks(env, s, pre + mid)[|pre + mid| - 1].done ==>
      Shown(env, s, first, pre + mid) == RawShown(env, AutoState(env, s, pre), Shown(env, s, first, pre), mid)
  {
    if mid == [] {
      assert pre + mid == pre;
    } else {
      var m := mid[..|mid| - 1];
      assert (pre + mid)[..|pre + mid| - 1] == pre + m;
      TicksPrefix(env, s, pre + mid, |pre + m|);
      assert forall k :: 0 <= k < |pre + m| ==> AutoTicks(env, s, pre + m)[k] == AutoTicks(env, s, pre + mid)[k];
      UndisturbedRun(env, s, first, pre, m);
    }
  }

  lemma ShownInEpisode<S>(env: Env<S>, s: S, first: Obs, acts: seq<Obs>, a: nat, k: nat, b: nat)
    requires Within(AutoTicks(env, s, acts), a, b) && a <= k < b
    ensures Shown(env, s, first, acts[..k])
         == RawShown(env, AutoState(env, s, acts[..a]), Shown(env, s, first, acts[..a]), acts[a..k])
  {
    assert acts[..k] == acts[..a] + acts[a..k];
    TicksPrefix(env, s, acts, k);
    assert forall j :: 0 <= j < k ==> AutoTicks(env, s, acts[..k])[j] == AutoTicks(env, s, acts)[j];
    UndisturbedRun(env, s, first, acts[..a], acts[a..k]);
  }

  /** So every episode is a run of the environment on its own, from the state it was left in at the start, in what it
  pays and in the observations it shows until it is done. */
  lemma EpisodeIsRun<S>(env: Env<S>, s: S, first: Obs, acts: seq<Obs>, a: nat, b: nat)
    requires Within(AutoTicks(env, s, acts), a, b)
    ensures AutoTicks(env, s, acts)[a..b] == RawTicks(env, AutoState(env, s, acts[..a]), acts[a..b])
    ensures forall k :: a <= k < b ==>
      Shown(env, s, first, acts[..k])
        == RawShown(env, AutoState(env, s, acts[..a]), Shown(env, s, first, acts[..a]), acts[a..k])
  {
    forall k | a <= k < b
      ensures Shown(env, s, first, acts[..k])
           == RawShown(env, AutoState(env, s, acts[..a]), Shown(env, s, first, acts[..a]), acts[a..k])
    {
      ShownInEpisode(env, s, first, acts, a, k, b);
    }
    assert acts[..b] == acts[..a] + acts[a..b];
    TicksPrefix(env, s, acts, b);
    TicksPrefix(env, s, acts, a);
    assert forall k :: 0 <= k < b ==> AutoTicks(env, s, acts[..b])[k] == AutoTicks(env, s, acts)[k];
    UndisturbedRun(env, s, first, acts[..a], acts[a..b]);
  }

  /** The state of an environment that has just been reset, and the observation the reset has shown. */
  ghost predicate FromReset<S(!new)>(env: Env<S>, s: S, obs: Obs) {
    exists before: S :: env.reset(before) == (s, obs)
  }

  /** The step after a done starts from a reset, and the observation shown before it is the one of that reset. */
  lemma StartsFresh<S(!new)>(env: Env<S>, s: S, first: Obs, acts: seq<Obs>, a: nat)
    requires 0 < a <= |acts| && AutoTicks(env, s, acts)[a - 1].done
    ensures FromReset(env, AutoState(env, s, acts[..a]), Shown(env, s, first, acts[..a]))
  {
    TicksPrefix(env, s, acts, a);
    assert acts[..a][..a - 1] == acts[..a - 1];
    assert AutoTicks(env, s, acts)[..a][a - 1] == AutoTicks(env, s, acts)[a - 1];
    assert env.reset(env.step(AutoState(env, s, acts[..a - 1]), acts[a - 1]).state)
        == (AutoState(env, s, acts[..a]), Shown(env, s, first, acts[..a]));
  }

  lemma AddUpMore(xs: seq<real>, x: real)
    ensures AddUp(xs + [x]) == AddUp(xs) + x
  {
    SumMore(xs, x, Itself);
  }

  function RewardOf(x: Tick): real {
    x.reward
  }

  /** Total reward of a list of steps. */
  function Total(ticks: seq<Tick>): real {
    SumSeq(ticks, RewardOf)
  }

  lemma TotalMore(ticks: seq<Tick>, x: Tick)
    ensures Total(ticks + [x]) == Total(ticks) + x.reward
  {
    SumMore(ticks, x, RewardOf);
  }

  /** Reward since the last done. */
  function Running(ticks: seq<Tick>): real {
    if ticks == [] || ticks[|ticks| - 1].done then 0.0
    else Running(ticks[..|ticks| - 1]) + ticks[|ticks| - 1].reward
  }

  /** Steps since the last done. */
  function Age(ticks: seq<Tick>): nat {
    if ticks == [] || ticks[|ticks| - 1].done then 0 else Age(ticks[..|ticks| - 1]) + 1
  }

  /** The returns of the finished episodes, oldest first. */
  function Finished(ticks: seq<Tick>): seq<real> {
    if ticks == [] then [] else
      var p, x := ticks[..|ticks| - 1], ticks[|ticks| - 1];
      Finished(p) + if x.done then [Running(p) + x.reward] else []
  }

  /** Everything earned is in a finished return or in the running one. */
  lemma {:induction false} Accounted(ticks: seq<Tick>)
    ensures Total(ticks) == AddUp(Finished(ticks)) + Running(ticks)
  {
    if ticks != [] {
      var p, x := ticks[..|ticks| - 1], ticks[|ticks| - 1];
      Accounted(p);
      AddUpMore(Finished(p), Running(p) + x.reward);
      assert Finished(p) + [] == Finished(p);
    }
  }

  /** No done from step a on, and one just before. */
  ghost predicate Open(ticks: seq<Tick>, a: nat) {
    && a <= |ticks| && (a == 0 || ticks[a - 1].done)
    && forall k :: a <= k < |ticks| ==> !ticks[k].done
  }

  lemma OpenMore(p: seq<Tick>, x: Tick, a: nat)
    requires Open(p, a)
    ensures (p + [x])[a..] == p[a..] + [x]
    ensures Within(p + [x], a, |p| + 1)
    ensures !x.done ==> Open(p + [x], a)
  {
  }

  lemma WithinMore(p: seq<Tick>, x: Tick, a: nat, b: nat)
    requires Within(p, a, b)
    ensures Within(p + [x], a, b) && (p + [x])[a..b] == p[a..b] && (p + [x])[b - 1] == p[b - 1]
  {
  }

  /** What one more step does to the books. */
  lemma BooksMore(p: seq<Tick>, x: Tick)
    ensures x.done ==>
      Running(p + [x]) == 0.0 && Age(p + [x]) == 0 && Finished(p + [x]) == Finished(p) + [Running(p) + x.reward]
    ensures !x.done ==>
      Running(p + [x]) == Running(p) + x.reward && Age(p + [x]) == Age(p) + 1 && Finished(p + [x]) == Finished(p)
  {
    assert (p + [x])[..|p|] == p;
    assert Finished(p) + [] == Finished(p);
  }

  lemma NothingOpen(ticks: seq<Tick>)
    requires ticks == [] || ticks[|ticks| - 1].done
    ensures Open(ticks, |ticks|) && Age(ticks) == 0 && Running(ticks) == 0.0 && Total(ticks[|ticks|..]) == 0.0
  {
  }

  /** The running return is the total of the steps since the last done. */
  lemma {:induction false} RunningIsTail(ticks: seq<Tick>)
    ensures Age(ticks) <= |ticks| && Open(ticks, |ticks| - Age(ticks))
    ensures Running(ticks) == Total(ticks[|ticks| - Age(ticks)..])
  {
    hide Open, Age, Running, Total;
    if ticks == [] || ticks[|ticks| - 1].done {
      NothingOpen(ticks);
    } else {
      var p, x := ticks[..|ticks| - 1], ticks[|ticks| - 1];
      assert ticks == p + [x];
      RunningIsTail(p);
      BooksMore(p, x);
      OpenMore(p, x, |p| - Age(p));
      TotalMore(p[|p| - Age(p)..], x);
    }
  }

  /** Every finished return is the total reward of one episode: the steps after one done up to the next. */
  lemma {:induction false} FinishedIsEpisode(ticks: seq<Tick>, k: nat) returns (a: nat, b: nat)
    requires k < |Finished(ticks)|
    ensures Within(ticks, a, b) && ticks[b - 1].done && Finished(ticks)[k] == Total(ticks[a..b])
  {
    assert ticks != [];
    hide Open, Age, Running, Total, Finished;
    var p, x := ticks[..|ticks| - 1], ticks[|ticks| - 1];
    assert ticks == p + [x];
    BooksMore(p, x);
    if k < |Finished(p)| {
      a, b := FinishedIsEpisode(p, k);
      WithinMore(p, x, a, b);
    } else {
      RunningIsTail(p);
      a, b := |p| - Age(p), |ticks|;
      OpenMore(p, x, a);
      TotalMore(p[a..], x);
      assert ticks[a..b] == ticks[a..];
    }
  }

  /** A return as it is appended, with the environment it came from. */
  datatype Return = Return(env: nat, value: real)

  function Of(rs: seq<Return>, e: nat): seq<real> {
    if rs == [] then [] else
      var x := rs[|rs| - 1];
      Of(rs[..|rs| - 1], e) + if x.env == e then [x.value] else []
  }

  function Values(rs: seq<Return>): (s: seq<real>)
    ensures |s| == |rs| && forall i :: 0 <= i < |s| ==> s[i] == rs[i].value
  {
    seq(|rs|, i requires 0 <= i < |rs| => rs[i].value)
  }

  lemma {:induction false} AddUpSplit(xs: seq<real>, ys: seq<real>, zs: seq<real>)
    requires |xs| == |ys| == |zs| && forall i :: 0 <= i < |xs| ==> xs[i] == ys[i] + zs[i]
    ensures AddUp(xs) == AddUp(ys) + AddUp(zs)
  {
    if xs != [] {
      AddUpSplit(xs[..|xs| - 1], ys[..|ys| - 1], zs[..|zs| - 1]);
    }
  }

  lemma {:induction false} AddUpAt(xs: seq<real>, k: nat, x: real)
    requires k < |xs|
    ensures AddUp(xs[k := xs[k] + x]) == AddUp(xs) + x
  {
    var p := xs[..|xs| - 1];
    if k < |p| {
      AddUpAt(p, k, x);
      assert xs[k := xs[k] + x][..|xs| - 1] == p[k := p[k] + x];
    } else {
      assert xs[k := xs[k] + x][..|xs| - 1] == p;
    }
  }

  lemma {:induction false} AddUpZero(xs: seq<real>)
    requires forall i :: 0 <= i < |xs| ==> xs[i] == 0.0
    ensures AddUp(xs) == 0.0
  {
    if xs != [] {
      AddUpZero(xs[..|xs| - 1]);
    }
  }

  /** The returns of each environment added up. */
  function PerEnv(rs: seq<Return>, n: nat): (s: seq<real>)
    ensures |s| == n && forall e: nat :: e < n ==> s[e] == AddUp(Of(rs, e))
  {
    seq(n, e requires 0 <= e < n => AddUp(Of(rs, e)))
  }

  lemma PerEnvMore(rs: seq<Return>, x: Return, n: nat)
    requires x.env < n
    ensures PerEnv(rs + [x], n) == PerEnv(rs, n)[x.env := PerEnv(rs, n)[x.env] + x.value]
  {
    hide AddUp;
    assert (rs + [x])[..|rs|] == rs;
    forall e: nat | e < n ensures AddUp(Of(rs + [x], e)) == AddUp(Of(rs, e)) + if e == x.env then x.value else 0.0 {
      AddUpMore(Of(rs, e), x.value);
      assert Of(rs, e) + [] == Of(rs, e);
    }
  }

  /** Grouping the appended returns by environment loses none. */
  lemma {:induction false} Grouped(rs: seq<Return>, n: nat)
    requires forall i :: 0 <= i < |rs| ==> rs[i].env < n
    ensures AddUp(Values(rs)) == AddUp(PerEnv(rs, n))
  {
    hide Of, AddUp;
    if rs == [] {
      PerEnvEmpty(n);
    } else {
      var p, x := rs[..|rs| - 1], rs[|rs| - 1];
      Grouped(p, n);
      assert rs == p + [x] && Values(rs) == Values(p) + [x.value];
      AddUpMore(Values(p), x.value);
      PerEnvMore(p, x, n);
      AddUpAt(PerEnv(p, n), x.env, x.value);
    }
  }

  lemma PerEnvEmpty(n: nat)
    ensures AddUp(Values([])) == AddUp(PerEnv([], n))
  {
    AddUpZero(PerEnv([], n));
  }

  /** An appended return is among the returns of its environment. */
  lemma {:induction false} OfHolds(rs: seq<Return>, i: nat) returns (k: nat)
    requires i < |rs|
    ensures k < |Of(rs, rs[i].env)| && Of(rs, rs[i].env)[k] == rs[i].value
  {
    var p := rs[..|rs| - 1];
    if i < |p| {
      k := OfHolds(p, i);
    } else {
      k := |Of(p, rs[i].env)|;
    }
  }
}
