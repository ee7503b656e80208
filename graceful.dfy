/**
 * The graceful-shutdown registry: an array of cleanup hooks that `onExit`
 * appends to and `trigger` runs, all of them, without clearing it.
 *
 * A hook is a non-failing effect; it is modelled by its identity, and running
 * hooks is modelled by the multiset of hooks that ran (the source runs them
 * concurrently, so no order is claimed).
 */
module Graceful {

  /** The identity of a registered cleanup effect. */
  type Hook = nat

  /** The `graceful` capability created by the `graceful()` factory. */
  class Registry {
    var state: seq<Hook>

    /** `graceful()`: a new registry with nothing registered. */
    constructor ()
      ensures state == []
    {
      state := [];
    }

    /** `onExit(op)`: registers `op` at the end of the pending hooks. */
    method OnExit(op: Hook)
      modifies this
      ensures state == old(state) + [op]
    {
      state := state + [op];
    }

    /**
     * `trigger()`: runs every hook registered at the time of the call, once
     * each, and leaves the registry as it was.
     */
    method Trigger() returns (ran: multiset<Hook>)
      ensures ran == multiset(state)
    {
      ran := multiset{};
      var i := 0;
      while i < |state|
        invariant 0 <= i <= |state|
        invariant ran == multiset(state[..i])
      {
        assert state[..i + 1] == state[..i] + [state[i]];
        ran := ran + multiset{state[i]};
        i := i + 1;
      }
      assert state[..|state|] == state;
    }
  }

  /** An environment providing the `graceful` capability. */
  datatype GracefulEnv = GracefulEnv(graceful: Registry)

  /** The module-level `onExit`: registers on the registry found in the environment. */
  method OnExit(env: GracefulEnv, op: Hook)
    modifies env.graceful
    ensures env.graceful.state == old(env.graceful.state) + [op]
  {
    env.graceful.OnExit(op);
  }

  /** The module-level `trigger`: triggers the registry found in the environment. */
  method Trigger(env: GracefulEnv) returns (ran: multiset<Hook>)
    ensures ran == multiset(env.graceful.state)
  {
    ran := env.graceful.Trigger();
  }

  /**
   * Triggering twice runs the same hooks twice: `trigger` removes nothing, so
   * the second call finds every hook the first one ran.
   */
  method TriggerTwice(env: GracefulEnv) returns (first: multiset<Hook>, second: multiset<Hook>)
    ensures first == second == multiset(env.graceful.state)
    ensures first + second == multiset(env.graceful.state + env.graceful.state)
  {
    first := Trigger(env);
    second := Trigger(env);
  }

  /**
   * One hook registered on a fresh registry, one trigger: the hook (which
   * counts its own runs) has run exactly once.
   */
  method RecordAndTrigger(op: Hook) returns (calls: nat)
    ensures calls == 1
  {
    var registry := new Registry();
    var env := GracefulEnv(registry);
    OnExit(env, op);
    var ran := Trigger(env);
    calls := ran[op];
  }

  /**
   * Three hooks sharing one counter: after one trigger the counter reads three,
   * whatever the hooks are and in whichever order they complete.
   */
  method ThreeHooksOneTrigger(h1: Hook, h2: Hook, h3: Hook) returns (counter: nat)
    ensures counter == 3
  {
    var registry := new Registry();
    var env := GracefulEnv(registry);
    OnExit(env, h1);
    OnExit(env, h2);
    OnExit(env, h3);
    var ran := Trigger(env);
    counter := |ran|;
  }

  /**
   * Each `graceful()` call yields its own registry: registering on one leaves
   * the other empty, and triggering it runs nothing.
   */
  method IndependentRegistries(op: Hook) returns (ranFirst: multiset<Hook>, ranSecond: multiset<Hook>)
    ensures ranFirst == multiset{op} && ranSecond == multiset{}
  {
    var a := new Registry();
    var b := new Registry();
    a.OnExit(op);
    ranFirst := a.Trigger();
    ranSecond := b.Trigger();
  }
}
