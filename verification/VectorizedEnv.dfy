/** Environments stepped together and reset one by one as they finish. */
module VectorizedEnvs {
  import opened Episodes
  import opened Rollouts

  /** A done flag as it is stored, a number. */
  function Flag(done: bool): real {
    if done then 1.0 else 0.0
  }

  class VectorizedEnv<S> {
    const env: Env<S>
    const numEnvs: nat
    var states: seq<S> // the environment objects
    ghost var start: seq<S> // as the last Reset left them
    ghost var first: seq<Obs> // and the observations it returned
    ghost var acts: seq<seq<Obs>> // the actions each has taken since

    ghost predicate Valid()
      reads this
    {
      && |states| == |start| == |first| == |acts| == numEnvs
      && forall e: nat :: e < numEnvs ==> states[e] == AutoState(env, start[e], acts[e])
    }

    /** What environment e has gone through since the last Reset. */
    ghost function Ticks(e: nat): seq<Tick>
      requires Valid() && e < numEnvs
      reads this
    {
      AutoTicks(env, start[e], acts[e])
    }

    constructor (env: Env<S>, initial: seq<S>)
      requires initial != []
      ensures Valid() && this.env == env && states == initial && numEnvs == |initial|
    {
      this.env, numEnvs := env, |initial|;
      states, start, first, acts := initial, initial, seq(|initial|, e => []), seq(|initial|, e => []);
    }

    method Reset() returns (obs: seq<Obs>)
      requires Valid()
      modifies this
      ensures Valid() && |obs| == numEnvs && first == obs
      ensures forall e: nat :: e < numEnvs ==>
        states[e] == env.reset(old(states)[e]).0 && obs[e] == env.reset(old(states)[e]).1
      ensures forall e: nat :: e < numEnvs ==> start[e] == states[e] && Ticks(e) == []
    {
      obs := [];
      ghost var was := states;
      for i := 0 to numEnvs
        invariant |states| == numEnvs && |obs| == i && states[i..] == was[i..]
        invariant forall e: nat :: e < i ==> states[e] == env.reset(was[e]).0 && obs[e] == env.reset(was[e]).1
      {
        assert states[i] == states[i..][0] == was[i];
        var again := env.reset(states[i]);
        states := states[i := again.0];
        obs := obs + [again.1];
      }
      start, first, acts := states, obs, seq(numEnvs, e => []);
    }

    /** One step of all environments. The stored flag belongs to the step just taken, the observation already
    to the next episode when there is one. */
    method Step(actions: seq<Obs>) returns (obs: seq<Obs>, rewards: seq<real>, dones: seq<real>)
      requires Valid() && |actions| == numEnvs
      modifies this
      ensures Valid() && |obs| == |rewards| == |dones| == numEnvs && start == old(start) && first == old(first)
      ensures forall e: nat :: e < numEnvs ==> acts[e] == old(acts[e]) + [actions[e]]
      ensures forall e: nat :: e < numEnvs ==> var o := env.step(old(states[e]), actions[e]);
        && rewards[e] == o.reward && dones[e] == (if o.done then 1.0 else 0.0)
        && (states[e], obs[e]) == if o.done then env.reset(o.state) else (o.state, o.obs)
      ensures forall e: nat :: e < numEnvs ==> obs[e] == Shown(env, start[e], first[e], acts[e])
      ensures forall e: nat :: e < numEnvs ==> Ticks(e) == old(Ticks(e)) + [Tick(rewards[e], dones[e] != 0.0)]
    {
      obs, rewards, dones := [], [], [];
      ghost var was := states;
      for i := 0 to numEnvs
        invariant |states| == numEnvs && |obs| == |rewards| == |dones| == i && states[i..] == was[i..]
        invariant start == old(start) && first == old(first) && acts == old(acts)
        invariant forall e: nat :: e < i ==> Stepped(was[e], actions[e], states[e], obs[e], rewards[e], dones[e])
      {
        assert states[i] == states[i..][0] == was[i];
        var o := env.step(states[i], actions[i]);
        states := states[i := o.state];
        obs, rewards, dones := obs + [o.obs], rewards + [o.reward], dones + [Flag(o.done)];
        if o.done {
          var again := env.reset(states[i]);
          states := states[i := again.0];
          obs := obs[i := again.1];
        }
      }
      acts := seq(numEnvs, e requires 0 <= e < numEnvs && |old(acts)| == numEnvs => old(acts)[e] + [actions[e]]);
      forall e: nat | e < numEnvs
        ensures states[e] == AutoState(env, start[e], acts[e]) && obs[e] == Shown(env, start[e], first[e], acts[e])
        ensures AutoTicks(env, start[e], acts[e])
          == AutoTicks(env, start[e], old(acts)[e]) + [Tick(rewards[e], dones[e] != 0.0)]
      {
        assert acts[e][..|acts[e]| - 1] == old(acts)[e];
      }
    }

    ghost predicate Stepped(s: S, a: Obs, t: S, obs: Obs, reward: real, done: real) {
      AutoStep(env, s, a) == Outcome(t, obs, reward, done != 0.0) && done == Flag(done != 0.0)
    }
  }
}
