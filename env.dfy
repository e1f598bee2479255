/** The environment object: its fixed configuration, the physical state it
    replaces on reset and advances on every step, and its step counter. */
module Environment {
  import opened RealMath
  import opened Dynamics

  datatype Option<T> = None | Some(value: T)

  class CartPoleSwingUpEnv {
    /** Set once by the constructor, including the derived constants. */
    const params: Params
    /** None until the first reset. */
    var state: Option<PhysState>
    /** Steps taken since the last reset. */
    var t: int

    predicate Valid()
    {
      params.Valid()
    }

    /** Stores the configuration and computes the total mass and the pole's
        mass-length product once; there is no state until the first reset. */
    constructor (
      gravity: real, cart_mass: real, pole_mass: real, pole_length: real,
      force_mag: real, dt: real, friction: real, x_threshold: real,
      time_limit: int, cost_mode: string, sigma_c: real)
      requires cart_mass > 0.0 && pole_mass >= 0.0 && pole_length > 0.0
      requires cost_mode == "pilco" ==> sigma_c != 0.0
      ensures Valid()
      ensures params == Configure(gravity, cart_mass, pole_mass, pole_length, force_mag, dt,
                                  friction, x_threshold, time_limit, cost_mode, sigma_c)
      ensures params.total_m == cart_mass + pole_mass && params.m_p_l == pole_mass * pole_length
      ensures state == None && t == 0
    {
      params := Configure(gravity, cart_mass, pole_mass, pole_length, force_mag, dt,
                          friction, x_threshold, time_limit, cost_mode, sigma_c);
      state := None;
      t := 0;
    }

    /** Starts an episode from initial, which stands for the random draw around
        the hanging-down rest position; the counter goes back to 0 and the
        observation is the new state. */
    method Reset(initial: PhysState) returns (obs: PhysState)
      requires Valid()
      modifies this
      ensures Valid()
      ensures state == Some(initial) && t == 0
      ensures obs == initial
    {
      state := Some(initial);
      t := 0;
      obs := initial;
    }

    /** One step under action. The new state is the Euler step of the old one
        and is stored before the reward is computed, so an unrecognised reward
        mode leaves the new state in place and the counter unchanged.
        Otherwise the counter goes up by one, termination is decided on the
        new cart position, and truncation on the new counter unless the step
        terminated. */
    method Step(m: Transcendentals, action: real) returns (r: Result<Transition>)
      requires Valid() && Lawful(m) && state.Some?
      modifies this
      ensures Valid()
      ensures state == Some(Next(params, m, old(state).value, action))
      ensures -PI <= state.value.theta < PI
      ensures r.Err? <==> !KnownMode(params.cost_mode)
      ensures r.Err? ==> r.error == InvalidCostMode(params.cost_mode) && t == old(t)
      ensures r.Ok? ==> t == old(t) + 1
      ensures r.Ok? ==> r.value.obs == state.value
      ensures r.Ok? ==> Ok(r.value.reward) == Reward(params, m, state.value)
      ensures r.Ok? ==> (r.value.terminated <==> state.value.x < -params.x_threshold || state.value.x > params.x_threshold)
      ensures r.Ok? ==> (r.value.truncated <==> t >= params.t_limit && !r.value.terminated)
      ensures r.Ok? ==> !(r.value.terminated && r.value.truncated)
      ensures r.Ok? ==> r.value == StepTransition(params, m, old(state).value, old(t), action)
    {
      var act := Clamp(action);
      var force := act * params.force_mag;
      assert force == Force(params, action);

      var x, x_dot, theta, theta_dot := state.value.x, state.value.x_dot, state.value.theta, state.value.theta_dot;
      var s := m.sin(theta);
      var c := m.cos(theta);
      var xdot_update := CartAccel(params, s, c, force, x_dot, theta_dot);
      var thetadot_update := PoleAccel(params, s, c, force, x_dot, theta_dot);
      x := Euler(x, x_dot, params.dt);
      theta := Euler(theta, theta_dot, params.dt);
      x_dot := Euler(x_dot, xdot_update, params.dt);
      theta_dot := Euler(theta_dot, thetadot_update, params.dt);

      theta := Wrap(theta);

      state := Some(PhysState(x, x_dot, theta, theta_dot));

      var reward := Reward(params, m, state.value);
      if reward.Err? {
        return Err(reward.error);
      }

      var terminated := false;
      var truncated := false;
      if x < -params.x_threshold || x > params.x_threshold {
        terminated := true;
      }
      t := t + 1;
      if t >= params.t_limit {
        truncated := true;
      }
      if terminated {
        truncated := false;
      }

      r := Ok(Transition(state.value, reward.value, terminated, truncated));
    }

    /** An episode: a reset to initial followed by one step per action. With
        a recognised reward mode no step fails, and the transitions handed
        back are those of the rollout from initial. */
    method Run(m: Transcendentals, initial: PhysState, actions: seq<real>) returns (trace: seq<Transition>)
      requires Valid() && Lawful(m) && KnownMode(params.cost_mode)
      modifies this
      ensures Valid()
      ensures trace == Rollout(params, m, initial, 0, actions)
      ensures state == Some(FinalState(params, m, initial, 0, actions)) && t == |actions|
    {
      var obs := Reset(initial);
      trace := [];
      var i := 0;
      while i < |actions|
        invariant 0 <= i <= |actions|
        invariant Valid() && t == i
        invariant trace == Rollout(params, m, initial, 0, actions[..i])
        invariant state == Some(FinalState(params, m, initial, 0, actions[..i]))
      {
        RolloutAppend(params, m, initial, 0, actions[..i], actions[i]);
        assert actions[..i + 1] == actions[..i] + [actions[i]];
        var r := Step(m, actions[i]);
        trace := trace + [r.value];
        i := i + 1;
      }
      assert actions[..|actions|] == actions;
    }
  }
}
