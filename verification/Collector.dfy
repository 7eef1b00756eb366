/** How a worker collects rollouts and keeps its episode returns. */
module Collecting {
  import opened Episodes
  import opened Gae
  import opened Rollouts
  import opened Sums
  import opened VectorizedEnvs

  /** What the networks give for one timestep, batched over the environments. */
  datatype Decision = Decision(actions: seq<Obs>, values: seq<real>, logProbs: seq<real>)

  predicate Batched(d: Decision, n: nat) {
    |d.actions| == |d.values| == |d.logProbs| == n
  }

  predicate AllBatched(plan: seq<Decision>, n: nat) {
    forall i :: 0 <= i < |plan| ==> |plan[i].actions| == |plan[i].values| == |plan[i].logProbs| == n
  }

  lemma NextOfPlan(plan: seq<Decision>, i: nat, n: nat)
    requires AllBatched(plan, n) && i < |plan|
    ensures Batched(plan[i], n) && plan[..i + 1] == plan[..i] + [plan[i]]
  {
  }

  lemma WholePlan(plan: seq<Decision>, n: nat)
    ensures AllBatched(plan[..0], n) && plan[..0] == [] && plan[..|plan|] == plan
  {
  }

  /** The books of one environment agree with what it has gone through. */
  predicate Booked(running: real, count: nat, returned: seq<real>, ticks: seq<Tick>) {
    running == Running(ticks) && count == Age(ticks) && returned == Finished(ticks)
  }

  /** The same after a reward has been credited whose step is not yet in the ticks. */
  predicate Credited(running: real, count: nat, returned: seq<real>, ticks: seq<Tick>, reward: real) {
    running == Running(ticks) + reward && count == Age(ticks) + 1 && returned == Finished(ticks)
  }

  /** A done closes the books of the episode; otherwise they stay open. */
  lemma CloseBooks(running: real, count: nat, returned: seq<real>, ticks: seq<Tick>, x: Tick)
    requires Credited(running, count, returned, ticks, x.reward)
    ensures x.done ==> Booked(0.0, 0, returned + [running], ticks + [x])
    ensures !x.done ==> Booked(running, count, returned, ticks + [x])
  {
    assert (ticks + [x])[..|ticks|] == ticks;
  }

  lemma OfMore(rs: seq<Return>, x: Return, e: nat)
    ensures e == x.env ==> Of(rs + [x], e) == Of(rs, e) + [x.value]
    ensures e != x.env ==> Of(rs + [x], e) == Of(rs, e)
  {
    assert (rs + [x])[..|rs|] == rs;
  }

  /** The books of all environments agree with their ticks. */
  ghost predicate Books(running: seq<real>, counts: seq<nat>, rs: seq<Return>, ticks: seq<seq<Tick>>) {
    && |running| == |counts| == |ticks|
    && forall e: nat :: e < |ticks| ==> Booked(running[e], counts[e], Of(rs, e), ticks[e])
  }

  /** In the loop over the environments: closed below i, credited but open from i on. */
  ghost predicate Progress(running: seq<real>, counts: seq<nat>, rs: seq<Return>, ticks: seq<seq<Tick>>,
                           steps: seq<Tick>, i: nat) {
    && |running| == |counts| == |ticks| == |steps|
    && forall e: nat :: e < |ticks| ==>
      if e < i then Booked(running[e], counts[e], Of(rs, e), ticks[e] + [steps[e]])
      else Credited(running[e], counts[e], Of(rs, e), ticks[e], steps[e].reward)
  }

  /** Every environment's ticks with one more. */
  ghost function Extended(ticks: seq<seq<Tick>>, steps: seq<Tick>): (r: seq<seq<Tick>>)
    requires |ticks| == |steps|
    ensures |r| == |ticks| && forall e :: 0 <= e < |r| ==> r[e] == ticks[e] + [steps[e]]
  {
    seq(|ticks|, e requires 0 <= e < |ticks| => ticks[e] + [steps[e]])
  }

  lemma ProgressDone(running: seq<real>, counts: seq<nat>, rs: seq<Return>, before: seq<seq<Tick>>, steps: seq<Tick>)
    requires Progress(running, counts, rs, before, steps, |steps|) && |before| == |steps|
    ensures Books(running, counts, rs, Extended(before, steps))
  {
    hide Booked, Credited;
  }

  lemma ProgressOpen(running: seq<real>, counts: seq<nat>, rs: seq<Return>, ticks: seq<seq<Tick>>, steps: seq<Tick>,
                     i: nat)
    requires Progress(running, counts, rs, ticks, steps, i) && i < |steps| && !steps[i].done
    ensures Progress(running, counts, rs, ticks, steps, i + 1)
  {
    hide Booked, Credited;
    CloseBooks(running[i], counts[i], Of(rs, i), ticks[i], steps[i]);
  }

  lemma ProgressClosed(running: seq<real>, counts: seq<nat>, rs: seq<Return>, ticks: seq<seq<Tick>>, steps: seq<Tick>,
                       i: nat)
    requires Progress(running, counts, rs, ticks, steps, i) && i < |steps| && steps[i].done
    ensures Progress(running[i := 0.0], counts[i := 0], rs + [Return(i, running[i])], ticks, steps, i + 1)
  {
    hide Booked, Credited, Of;
    CloseBooks(running[i], counts[i], Of(rs, i), ticks[i], steps[i]);
    forall e: nat | e < |ticks|
      ensures e == i ==> Of(rs + [Return(i, running[i])], e) == Of(rs, e) + [running[i]]
      ensures e != i ==> Of(rs + [Return(i, running[i])], e) == Of(rs, e)
    {
      OfMore(rs, Return(i, running[i]), e);
    }
  }

  /** The recent returns are the latest appended ones. */
  predicate Latest(recent: seq<real>, appended: seq<Return>) {
    |recent| <= |appended| && recent == Values(appended)[|appended| - |recent|..]
  }

  lemma LatestMore(recent: seq<real>, appended: seq<Return>, x: Return)
    requires Latest(recent, appended)
    ensures Latest(recent + [x.value], appended + [x])
  {
  }

  lemma LatestFewer(recent: seq<real>, appended: seq<Return>, k: nat)
    requires Latest(recent, appended) && k <= |recent|
    ensures Latest(recent[|recent| - k..], appended)
  {
  }

  function Totals(ticks: seq<seq<Tick>>): (s: seq<real>)
    ensures |s| == |ticks| && forall e :: 0 <= e < |s| ==> s[e] == Total(ticks[e])
  {
    seq(|ticks|, e requires 0 <= e < |ticks| => Total(ticks[e]))
  }

  /** Return accounting: every reward ever stepped is in one appended return or in one running `ep_returns`. */
  lemma Accounting(running: seq<real>, counts: seq<nat>, rs: seq<Return>, ticks: seq<seq<Tick>>)
    requires Books(running, counts, rs, ticks) && forall i :: 0 <= i < |rs| ==> rs[i].env < |ticks|
    ensures AddUp(Totals(ticks)) == AddUp(Values(rs)) + AddUp(running)
  {
    Grouped(rs, |ticks|);
    forall e: nat | e < |ticks| ensures Totals(ticks)[e] == PerEnv(rs, |ticks|)[e] + running[e] {
      Accounted(ticks[e]);
    }
    AddUpSplit(Totals(ticks), PerEnv(rs, |ticks|), running);
  }

  /** And each appended return is the total of one episode of one environment. */
  lemma ReturnIsEpisode(running: seq<real>, counts: seq<nat>, rs: seq<Return>, ticks: seq<seq<Tick>>, i: nat)
    returns (a: nat, b: nat)
    requires Books(running, counts, rs, ticks) && i < |rs| && rs[i].env < |ticks|
    ensures Within(ticks[rs[i].env], a, b) && ticks[rs[i].env][b - 1].done
    ensures rs[i].value == Total(ticks[rs[i].env][a..b])
  {
    var k := OfHolds(rs, i);
    a, b := FinishedIsEpisode(ticks[rs[i].env], k);
  }

  /** A rollout column holds these steps. */
  predicate Recorded(r: seq<real>, d: seq<real>, ticks: seq<Tick>) {
    && |r| == |d| == |ticks|
    && forall t :: 0 <= t < |ticks| ==> r[t] == ticks[t].reward && d[t] == (if ticks[t].done then 1.0 else 0.0)
  }

  /** One more step, seen in both the ticks and the column. */
  ghost predicate Grown(was: seq<Tick>, now: seq<Tick>, c: Column, c': Column) {
    && |now| == |was| + 1 && was <= now
    && c'.r == c.r + [now[|was|].reward] && c'.d == c.d + [if now[|was|].done then 1.0 else 0.0]
  }

  lemma GrownBy(was: seq<Tick>, x: Tick, c: Column, c': Column)
    requires c'.r == c.r + [x.reward] && c'.d == c.d + [if x.done then 1.0 else 0.0]
    ensures Grown(was, was + [x], c, c')
  {
  }

  /** A column holds exactly the steps taken since `was`. */
  ghost predicate Stored(was: seq<Tick>, now: seq<Tick>, c: Column) {
    was <= now && Recorded(c.r, c.d, now[|was|..])
  }

  lemma StoredMore(was: seq<Tick>, now: seq<Tick>, next: seq<Tick>, c: Column, c': Column)
    requires Stored(was, now, c) && Grown(now, next, c, c')
    ensures Stored(was, next, c')
  {
  }

  /** The actions of one environment in a list of decisions. */
  function ActionsOf(plan: seq<Decision>, e: nat, n: nat): (acts: seq<Obs>)
    requires e < n && AllBatched(plan, n)
    ensures |acts| == |plan| && forall i :: 0 <= i < |plan| ==> acts[i] == plan[i].actions[e]
  {
    seq(|plan|, i requires 0 <= i < |plan| => plan[i].actions[e])
  }

  /** What the environments show after these actions and those of the plan. */
  ghost function ShownRow<S>(env: Env<S>, start: seq<S>, first: seq<Obs>, was: seq<seq<Obs>>, plan: seq<Decision>)
    : (row: seq<Obs>)
    requires |start| == |first| == |was| && AllBatched(plan, |was|)
    ensures |row| == |was| && forall e: nat :: e < |was| ==>
      row[e] == Shown(env, start[e], first[e], was[e] + ActionsOf(plan, e, |was|))
  {
    seq(|was|, e requires 0 <= e < |was| => Shown(env, start[e], first[e], was[e] + ActionsOf(plan, e, |was|)))
  }

  /** What is to be stored of the plan. */
  ghost function ShotsOf<S>(env: Env<S>, start: seq<S>, first: seq<Obs>, was: seq<seq<Obs>>, plan: seq<Decision>)
    : (shots: seq<Shot>)
    requires |start| == |first| == |was| && AllBatched(plan, |was|)
    ensures |shots| == |plan|
  {
    if plan == [] then [] else
      var p, d := plan[..|plan| - 1], plan[|plan| - 1];
      ShotsOf(env, start, first, was, p)
      + [Shot(ShownRow(env, start, first, was, p), d.actions, d.values, d.logProbs)]
  }

  lemma {:induction false} ShotsAt<S>(env: Env<S>, start: seq<S>, first: seq<Obs>, was: seq<seq<Obs>>,
                                      plan: seq<Decision>, t: nat)
    requires |start| == |first| == |was| && AllBatched(plan, |was|) && t < |plan|
    ensures ShotsOf(env, start, first, was, plan)[t]
         == Shot(ShownRow(env, start, first, was, plan[..t]), plan[t].actions, plan[t].values, plan[t].logProbs)
  {
    hide ShownRow;
    if t < |plan| - 1 {
      ShotsAt(env, start, first, was, plan[..|plan| - 1], t);
      assert plan[..|plan| - 1][..t] == plan[..t];
    }
  }

  /** Step t of environment e holds the observation that environment had shown before it, and the action, the value
  estimate and the log probability decided on that observation. */
  ghost predicate Holds<S>(buffer: RolloutBuffer, plan: seq<Decision>, env: Env<S>, start: seq<S>, first: seq<Obs>,
                           was: seq<seq<Obs>>)
    requires buffer.Valid() && |plan| <= buffer.numSteps && AllBatched(plan, |was|)
    requires |start| == |first| == |was| == buffer.numEnvs
    reads buffer, buffer.states, buffer.actions, buffer.values, buffer.logProbs
  {
    forall t: nat, e: nat :: t < |plan| && e < |was| ==>
      && buffer.actions[t, e] == plan[t].actions[e]
      && buffer.values[t, e] == plan[t].values[e] && buffer.logProbs[t, e] == plan[t].logProbs[e]
      && buffer.states[t, e] == Shown(env, start[e], first[e], was[e] + ActionsOf(plan[..t], e, |was|))
  }

  lemma ShotsHold<S>(buffer: RolloutBuffer, plan: seq<Decision>, env: Env<S>, start: seq<S>, first: seq<Obs>,
                     was: seq<seq<Obs>>)
    requires buffer.Valid() && |plan| <= buffer.numSteps && AllBatched(plan, |was|)
    requires |start| == |first| == |was| == buffer.numEnvs
    requires buffer.Shots(|plan|) == ShotsOf(env, start, first, was, plan)
    ensures Holds(buffer, plan, env, start, first, was)
  {
    hide Shown, ShotsOf;
    forall t: nat, e: nat | t < |plan| && e < |was|
      ensures buffer.actions[t, e] == plan[t].actions[e]
      ensures buffer.values[t, e] == plan[t].values[e] && buffer.logProbs[t, e] == plan[t].logProbs[e]
      ensures buffer.states[t, e] == Shown(env, start[e], first[e], was[e] + ActionsOf(plan[..t], e, |was|))
    {
      ShotsAt(env, start, first, was, plan, t);
      var shot := buffer.Shots(|plan|)[t];
      assert shot.states[e] == buffer.states[t, e] && shot.actions[e] == buffer.actions[t, e];
      assert shot.values[e] == buffer.values[t, e] && shot.logProbs[e] == buffer.logProbs[t, e];
    }
  }

  class Collector<S(!new)> {
    const venv: VectorizedEnv<S>
    const numEnvs: nat
    var obs: seq<Obs>
    const epReturns: array<real>
    const stepCounts: array<nat>
    var recent: seq<real>
    ghost var appended: seq<Return> // every return ever appended

    ghost predicate Sized()
      reads this`recent, this`appended
    {
      && epReturns.Length == stepCounts.Length == numEnvs
      && Latest(recent, appended) && forall i :: 0 <= i < |appended| ==> appended[i].env < numEnvs
    }

    ghost predicate Valid()
      reads this, venv, epReturns, stepCounts
    {
      && Sized() && venv.Valid() && venv.numEnvs == numEnvs
      && Books(epReturns[..], stepCounts[..], appended, Ticks()) && Showing()
      && forall e: nat :: e < numEnvs ==> FromReset(venv.env, venv.start[e], venv.first[e])
    }

    /** What each environment has gone through. */
    ghost function Ticks(): (ticks: seq<seq<Tick>>)
      requires venv.Valid() && venv.numEnvs == numEnvs
      reads venv
      ensures |ticks| == numEnvs && forall e: nat :: e < numEnvs ==> ticks[e] == venv.Ticks(e)
    {
      seq(numEnvs, e requires 0 <= e < numEnvs && venv.Valid() && venv.numEnvs == numEnvs reads venv => venv.Ticks(e))
    }

    constructor (venv: VectorizedEnv<S>)
      requires venv.Valid()
      modifies venv
      ensures Valid() && this.venv == venv && fresh(epReturns) && fresh(stepCounts) && appended == [] && recent == []
      ensures forall e: nat :: e < numEnvs ==> Ticks()[e] == []
    {
      this.venv, numEnvs := venv, venv.numEnvs;
      epReturns := new real[venv.numEnvs](e => 0.0);
      stepCounts := new nat[venv.numEnvs](e => 0);
      recent, appended := [], [];
      new;
      obs := venv.Reset();
    }

    /** `ep_returns += rewards` and `step_counts += 1`. */
    method Count(rewards: seq<real>, ghost ticks: seq<seq<Tick>>, ghost steps: seq<Tick>)
      requires epReturns.Length == stepCounts.Length == |rewards| == |steps|
      requires forall e: nat :: e < |rewards| ==> steps[e].reward == rewards[e]
      requires Books(epReturns[..], stepCounts[..], appended, ticks)
      modifies epReturns, stepCounts
      ensures Progress(epReturns[..], stepCounts[..], appended, ticks, steps, 0)
    {
      hide Running, Age, Of, Finished;
      forall e | 0 <= e < epReturns.Length { epReturns[e] := epReturns[e] + rewards[e]; }
      forall e | 0 <= e < stepCounts.Length { stepCounts[e] := stepCounts[e] + 1; }
    }

    /** Credits one step to every environment and closes the episodes that ended with it. */
    method Credit(rewards: seq<real>, dones: seq<real>, ghost before: seq<seq<Tick>>, ghost steps: seq<Tick>)
      requires Sized() && |rewards| == |dones| == |steps| == |before| == numEnvs
      requires Books(epReturns[..], stepCounts[..], appended, before)
      requires forall e: nat :: e < numEnvs ==> steps[e] == Tick(rewards[e], dones[e] != 0.0)
      modifies this`recent, this`appended, epReturns, stepCounts
      ensures Sized() && old(appended) <= appended
      ensures Books(epReturns[..], stepCounts[..], appended, Extended(before, steps))
    {
      hide Progress, Latest, Books;
      Count(rewards, before, steps);
      for i := 0 to numEnvs
        invariant Sized() && old(appended) <= appended
        invariant Progress(epReturns[..], stepCounts[..], appended, before, steps, i)
      {
        if dones[i] != 0.0 {
          CloseEpisode(i, before, steps);
        } else {
          ProgressOpen(epReturns[..], stepCounts[..], appended, before, steps, i);
        }
      }
      ProgressDone(epReturns[..], stepCounts[..], appended, before, steps);
    }

    /** What the worker does with a done flag. */
    method CloseEpisode(i: nat, ghost ticks: seq<seq<Tick>>, ghost steps: seq<Tick>)
      requires Sized() && i < numEnvs == |steps| && steps[i].done
      requires Progress(epReturns[..], stepCounts[..], appended, ticks, steps, i)
      modifies this`recent, this`appended, epReturns, stepCounts
      ensures Sized() && old(appended) < appended
      ensures Progress(epReturns[..], stepCounts[..], appended, ticks, steps, i + 1)
    {
      ghost var running, counts := epReturns[..], stepCounts[..];
      ProgressClosed(running, counts, appended, ticks, steps, i);
      LatestMore(recent, appended, Return(i, epReturns[i]));
      hide Progress, Latest;
      recent, appended := recent + [epReturns[i]], appended + [Return(i, epReturns[i])];
      epReturns[i] := 0.0;
      stepCounts[i] := 0;
      assert epReturns[..] == running[i := 0.0] && stepCounts[..] == counts[i := 0];
    }

    /** Stores one timestep of all environments, with the observations the actions were chosen for. */
    method Record(buffer: RolloutBuffer, d: Decision, rewards: seq<real>, dones: seq<real>, ghost was: seq<seq<Tick>>,
                  ghost now: seq<seq<Tick>>)
      requires buffer.Valid() && buffer.numEnvs == numEnvs == |obs| == |rewards| == |dones| && Batched(d, numEnvs)
      requires buffer.ptr < buffer.numSteps && |was| == |now| == numEnvs
      requires forall e: nat :: e < numEnvs ==>
        now[e] == was[e] + [Tick(rewards[e], dones[e] != 0.0)] && dones[e] == if dones[e] != 0.0 then 1.0 else 0.0
      modifies buffer`ptr, buffer.states, buffer.actions, buffer.rewards, buffer.values, buffer.logProbs, buffer.dones
      ensures buffer.Valid() && buffer.ptr == old(buffer.ptr) + 1
      ensures forall e: nat :: e < numEnvs ==>
        Grown(was[e], now[e], old(buffer.ColumnOf(e, 0.0)), buffer.ColumnOf(e, 0.0))
      ensures buffer.Shots(buffer.ptr)
           == old(buffer.Shots(buffer.ptr)) + [Shot(obs, d.actions, d.values, d.logProbs)]
    {
      hide Prefix, Row, Grown;
      ghost var cols, t := buffer.Columns(seq(numEnvs, e => 0.0)), buffer.ptr;
      var _ := buffer.Add(obs, d.actions, rewards, d.values, d.logProbs, dones);
      buffer.ShotsKept(t);
      buffer.ShotAt(t, obs, d.actions, d.values, d.logProbs);
      forall e: nat | e < numEnvs ensures Grown(was[e], now[e], cols[e], buffer.ColumnOf(e, 0.0)) {
        GrownBy(was[e], Tick(rewards[e], dones[e] != 0.0), cols[e], buffer.ColumnOf(e, 0.0));
      }
    }

    /** What every environment shows is what the next actions are chosen for. */
    ghost predicate Showing()
      requires venv.Valid() && venv.numEnvs == numEnvs
      reads this`obs, venv
    {
      |obs| == numEnvs && forall e: nat :: e < numEnvs ==> obs[e] == ShownBy(e)
    }

    ghost function ShownBy(e: nat): Obs
      requires venv.Valid() && e < venv.numEnvs
      reads venv
    {
      Shown(venv.env, venv.start[e], venv.first[e], venv.acts[e])
    }

    /** `vec_env.step` and `buffer.add`. */
    method StepAndStore(buffer: RolloutBuffer, d: Decision)
      returns (nextObs: seq<Obs>, rewards: seq<real>, dones: seq<real>, ghost steps: seq<Tick>)
      requires venv.Valid() && venv.numEnvs == numEnvs == |obs|
      requires buffer.Valid() && buffer.numEnvs == numEnvs && Batched(d, numEnvs) && buffer.ptr < buffer.numSteps
      modifies venv
      modifies buffer`ptr, buffer.states, buffer.actions, buffer.rewards, buffer.values, buffer.logProbs, buffer.dones
      ensures venv.Valid() && venv.start == old(venv.start) && venv.first == old(venv.first)
      ensures |nextObs| == |rewards| == |dones| == numEnvs && forall e: nat :: e < numEnvs ==> nextObs[e] == ShownBy(e)
      ensures forall e: nat :: e < numEnvs ==> venv.acts[e] == old(venv.acts[e]) + [d.actions[e]]
      ensures |steps| == numEnvs && Ticks() == Extended(old(Ticks()), steps)
      ensures forall e: nat :: e < numEnvs ==> steps[e] == Tick(rewards[e], dones[e] != 0.0)
      ensures buffer.Valid() && buffer.ptr == old(buffer.ptr) + 1
      ensures forall e: nat :: e < numEnvs ==>
        Grown(old(Ticks()[e]), Ticks()[e], old(buffer.ColumnOf(e, 0.0)), buffer.ColumnOf(e, 0.0))
      ensures buffer.Shots(buffer.ptr)
           == old(buffer.Shots(buffer.ptr)) + [Shot(obs, d.actions, d.values, d.logProbs)]
    {
      hide AutoTicks, AutoState, AutoStep, Prefix, Row, Shown, Grown;
      ghost var before := Ticks();
      nextObs, rewards, dones := venv.Step(d.actions);
      Record(buffer, d, rewards, dones, before, Ticks());
      steps := seq(numEnvs, e requires 0 <= e < |rewards| && |rewards| == |dones| => Tick(rewards[e], dones[e] != 0.0));
      assert Ticks() == Extended(before, steps);
    }

    /** The books, and the observations for the next actions. */
    method Account(nextObs: seq<Obs>, rewards: seq<real>, dones: seq<real>, ghost before: seq<seq<Tick>>,
                   ghost steps: seq<Tick>)
      requires Sized() && venv.Valid() && venv.numEnvs == numEnvs
      requires |nextObs| == |rewards| == |dones| == |steps| == |before| == numEnvs
      requires Books(epReturns[..], stepCounts[..], appended, before) && Ticks() == Extended(before, steps)
      requires forall e: nat :: e < numEnvs ==> steps[e] == Tick(rewards[e], dones[e] != 0.0)
      requires forall e: nat :: e < numEnvs ==> nextObs[e] == ShownBy(e)
      requires forall e: nat :: e < numEnvs ==> FromReset(venv.env, venv.start[e], venv.first[e])
      modifies this, epReturns, stepCounts
      ensures Valid() && old(appended) <= appended
    {
      hide Books, Progress, FromReset, Latest, ShownBy;
      Credit(rewards, dones, before, steps);
      obs := nextObs;
    }

    /** One pass of the rollout loop: step, store, credit. */
    method Step(buffer: RolloutBuffer, d: Decision)
      requires Valid() && buffer.Valid() && buffer.numEnvs == numEnvs && Batched(d, numEnvs)
      requires buffer.ptr < buffer.numSteps
      modifies this, venv, epReturns, stepCounts
      modifies buffer`ptr, buffer.states, buffer.actions, buffer.rewards, buffer.values, buffer.logProbs, buffer.dones
      ensures Valid() && buffer.Valid() && buffer.ptr == old(buffer.ptr) + 1 && old(appended) <= appended
      ensures venv.start == old(venv.start) && venv.first == old(venv.first)
      ensures forall e: nat :: e < numEnvs ==> venv.acts[e] == old(venv.acts[e]) + [d.actions[e]]
      ensures buffer.Shots(buffer.ptr)
           == old(buffer.Shots(buffer.ptr)) + [Shot(old(obs), d.actions, d.values, d.logProbs)]
      ensures forall e: nat :: e < numEnvs ==>
        Grown(old(Ticks()[e]), Ticks()[e], old(buffer.ColumnOf(e, 0.0)), buffer.ColumnOf(e, 0.0))
    {
      ghost var before := Ticks();
      hide Grown, Books, FromReset, Latest, AutoTicks, AutoState, AutoStep, Prefix, ShownBy, Row;
      var nextObs, rewards, dones, steps := StepAndStore(buffer, d);
      Account(nextObs, rewards, dones, before, steps);
    }

    /** Rows and actions of a rollout by this plan, begun after the actions `was`. */
    ghost predicate Gathered(buffer: RolloutBuffer, plan: seq<Decision>, was: seq<seq<Obs>>)
      requires venv.Valid() && buffer.Valid() && venv.numEnvs == numEnvs == buffer.numEnvs == |was|
      requires |plan| <= buffer.numSteps && AllBatched(plan, numEnvs)
      reads venv, buffer, buffer.states, buffer.actions, buffer.values, buffer.logProbs
    {
      && (forall e: nat :: e < numEnvs ==> venv.acts[e] == was[e] + ActionsOf(plan, e, numEnvs))
      && buffer.Shots(|plan|) == ShotsOf(venv.env, venv.start, venv.first, was, plan)
    }

    lemma GatheredMore(was: seq<seq<Obs>>, plan: seq<Decision>, d: Decision)
      requires venv.Valid() && venv.numEnvs == numEnvs == |was| && Showing()
      requires AllBatched(plan, numEnvs) && Batched(d, numEnvs)
      requires forall e: nat :: e < numEnvs ==> venv.acts[e] == was[e] + ActionsOf(plan, e, numEnvs)
      ensures AllBatched(plan + [d], numEnvs)
      ensures ShotsOf(venv.env, venv.start, venv.first, was, plan + [d])
           == ShotsOf(venv.env, venv.start, venv.first, was, plan) + [Shot(obs, d.actions, d.values, d.logProbs)]
      ensures forall e: nat :: e < numEnvs ==>
        venv.acts[e] + [d.actions[e]] == was[e] + ActionsOf(plan + [d], e, numEnvs)
    {
      hide Shown;
      assert (plan + [d])[..|plan|] == plan;
      assert obs == ShownRow(venv.env, venv.start, venv.first, was, plan);
    }

    /** What holds after the first i steps of a rollout. */
    ghost predicate Rolling(buffer: RolloutBuffer, plan: seq<Decision>, i: nat, before: seq<seq<Tick>>,
                            was: seq<seq<Obs>>)
      requires AllBatched(plan, numEnvs) && i <= |plan| && |before| == |was| == numEnvs
      reads this, venv, epReturns, stepCounts
      reads buffer, buffer.states, buffer.actions, buffer.rewards, buffer.values, buffer.logProbs, buffer.dones
    {
      && Valid() && buffer.Valid() && buffer.numEnvs == numEnvs && |plan| <= buffer.numSteps && buffer.ptr == i
      && (forall e: nat :: e < numEnvs ==> Stored(before[e], Ticks()[e], buffer.ColumnOf(e, 0.0)))
      && Gathered(buffer, plan[..i], was)
    }

    /** One pass of the loop. */
    method StepOn(buffer: RolloutBuffer, plan: seq<Decision>, i: nat, ghost before: seq<seq<Tick>>,
                  ghost was: seq<seq<Obs>>)
      requires AllBatched(plan, numEnvs) && i < |plan| && |before| == |was| == numEnvs
      requires Rolling(buffer, plan, i, before, was)
      modifies this, venv, epReturns, stepCounts
      modifies buffer`ptr, buffer.states, buffer.actions, buffer.rewards, buffer.values, buffer.logProbs, buffer.dones
      ensures Rolling(buffer, plan, i + 1, before, was) && old(appended) <= appended
      ensures venv.start == old(venv.start) && venv.first == old(venv.first)
    {
      ghost var mid, cols := Ticks(), buffer.Columns(seq(numEnvs, e => 0.0));
      NextOfPlan(plan, i, numEnvs);
      GatheredMore(was, plan[..i], plan[i]);
      hide Books, Sized, Showing, FromReset, AutoTicks, AutoState, Prefix, Grown, Stored, ShotsOf, ActionsOf;
      Step(buffer, plan[i]);
      forall e: nat | e < numEnvs ensures Stored(before[e], Ticks()[e], buffer.ColumnOf(e, 0.0)) {
        StoredMore(before[e], mid[e], Ticks()[e], cols[e], buffer.ColumnOf(e, 0.0));
      }
    }

    lemma NothingGathered(buffer: RolloutBuffer)
      requires venv.Valid() && buffer.Valid() && venv.numEnvs == numEnvs == buffer.numEnvs && buffer.ptr == 0
      ensures Gathered(buffer, [], venv.acts)
      ensures forall e: nat :: e < numEnvs ==> Stored(Ticks()[e], Ticks()[e], buffer.ColumnOf(e, 0.0))
    {
    }

    /** The rollout loop. */
    method Fill(buffer: RolloutBuffer, plan: seq<Decision>)
      requires Valid() && AllBatched(plan, numEnvs)
      requires buffer.Valid() && buffer.numEnvs == numEnvs && buffer.ptr == 0 && |plan| <= buffer.numSteps
      modifies this, venv, epReturns, stepCounts
      modifies buffer`ptr, buffer.states, buffer.actions, buffer.rewards, buffer.values, buffer.logProbs, buffer.dones
      ensures Valid() && buffer.Valid() && buffer.ptr == |plan| && old(appended) <= appended
      ensures venv.start == old(venv.start) && venv.first == old(venv.first)
      ensures forall e: nat :: e < numEnvs ==> Stored(old(Ticks()[e]), Ticks()[e], buffer.ColumnOf(e, 0.0))
      ensures Gathered(buffer, plan, old(venv.acts))
    {
      ghost var before, was := Ticks(), venv.acts;
      NothingGathered(buffer);
      WholePlan(plan, numEnvs);
      assert Rolling(buffer, plan, 0, before, was);
      hide Rolling;
      for i := 0 to |plan|
        invariant Rolling(buffer, plan, i, before, was) && old(appended) <= appended
        invariant venv.start == old(venv.start) && venv.first == old(venv.first)
      {
        StepOn(buffer, plan, i, before, was);
      }
      Rolled(buffer, plan, before, was);
    }

    lemma Rolled(buffer: RolloutBuffer, plan: seq<Decision>, before: seq<seq<Tick>>, was: seq<seq<Obs>>)
      requires AllBatched(plan, numEnvs) && |before| == |was| == numEnvs
      requires Rolling(buffer, plan, |plan|, before, was)
      ensures Valid() && buffer.Valid() && buffer.numEnvs == numEnvs && buffer.ptr == |plan| <= buffer.numSteps
      ensures forall e: nat :: e < numEnvs ==> Stored(before[e], Ticks()[e], buffer.ColumnOf(e, 0.0))
      ensures Gathered(buffer, plan, was)
    {
      WholePlan(plan, numEnvs);
    }

    lemma GatheredHolds(buffer: RolloutBuffer, plan: seq<Decision>, was: seq<seq<Obs>>)
      requires venv.Valid() && buffer.Valid() && venv.numEnvs == numEnvs == buffer.numEnvs == |was|
      requires |plan| <= buffer.numSteps && AllBatched(plan, numEnvs) && Gathered(buffer, plan, was)
      ensures Holds(buffer, plan, venv.env, venv.start, venv.first, was)
    {
      ShotsHold(buffer, plan, venv.env, venv.start, venv.first, was);
    }

    /** Its flags are 0 and 1, and 1 exactly where an episode ended. */
    lemma FlagsStored(was: seq<Tick>, now: seq<Tick>, c: Column)
      requires Stored(was, now, c)
      ensures Flags(c) && forall t :: 0 <= t < |c.d| ==> (c.d[t] == 1.0 <==> now[|was| + t].done)
    {
    }

    /** A whole rollout: column by column the buffer ends up with exactly the rewards and flags of the steps each
    environment took, and row by row with what it had shown before the step and what was decided on that. */
    method Collect(plan: seq<Decision>) returns (buffer: RolloutBuffer)
      requires Valid() && AllBatched(plan, numEnvs)
      modifies this, venv, epReturns, stepCounts
      ensures Valid() && buffer.Valid() && buffer.numEnvs == numEnvs && buffer.ptr == buffer.numSteps == |plan|
      ensures old(appended) <= appended && venv.start == old(venv.start) && venv.first == old(venv.first)
      ensures forall e: nat :: e < numEnvs ==>
        && Stored(old(Ticks()[e]), Ticks()[e], buffer.ColumnOf(e, 0.0)) && Flags(buffer.ColumnOf(e, 0.0))
        && venv.acts[e] == old(venv.acts[e]) + ActionsOf(plan, e, numEnvs)
      ensures Holds(buffer, plan, venv.env, venv.start, venv.first, old(venv.acts))
    {
      buffer := new RolloutBuffer(|plan|, numEnvs);
      hide Books, Sized, Showing, FromReset, AutoTicks, AutoState, Prefix, ShotsOf, Stored, Ticks, Shown, Holds;
      ghost var before := Ticks();
      ghost var was := venv.acts;
      Fill(buffer, plan);
      forall e: nat | e < numEnvs ensures Flags(buffer.ColumnOf(e, 0.0)) {
        FlagsStored(before[e], Ticks()[e], buffer.ColumnOf(e, 0.0));
      }
      GatheredHolds(buffer, plan, was);
    }

    /** `recent_episode_returns[-20:]`, after a heartbeat. */
    method Trim()
      requires Valid()
      modifies this`recent
      ensures Valid() && |recent| == (if |old(recent)| > 20 then 20 else |old(recent)|)
      ensures recent == old(recent)[|old(recent)| - |recent|..]
    {
      hide Books;
      if |recent| > 20 {
        LatestFewer(recent, appended, 20);
        recent := recent[|recent| - 20..];
      }
    }

    /** At every point of a run. */
    lemma ReturnsAccounted()
      requires Valid()
      ensures AddUp(Totals(Ticks())) == AddUp(Values(appended)) + AddUp(epReturns[..])
    {
      Accounting(epReturns[..], stepCounts[..], appended, Ticks());
    }

    /** Every return ever appended is what the environment on its own pays for the actions a..b from the state in
    which step a found it, which is one fresh from a reset. */
    lemma AppendedIsRun(i: nat) returns (a: nat, b: nat)
      requires Valid() && i < |appended|
      ensures var e := appended[i].env;
        && a < b <= |venv.acts[e]| && Within(Ticks()[e], a, b) && Ticks()[e][b - 1].done
        && appended[i].value == Total(RawTicks(venv.env, AutoState(venv.env, venv.start[e], venv.acts[e][..a]),
                                               venv.acts[e][a..b]))
        && FromReset(venv.env, AutoState(venv.env, venv.start[e], venv.acts[e][..a]), 
                     Shown(venv.env, venv.start[e], venv.first[e], venv.acts[e][..a]))
    {
      hide Books, Finished, FromReset;
      var e := appended[i].env;
      a, b := ReturnIsEpisode(epReturns[..], stepCounts[..], appended, Ticks(), i);
      EpisodeIsRun(venv.env, venv.start[e], venv.first[e], venv.acts[e], a, b);
      if a > 0 {
        StartsFresh(venv.env, venv.start[e], venv.first[e], venv.acts[e], a);
      } else {
        assert venv.acts[e][..a] == [];
      }
    }
  }
}
