/** The dynamics of the cart-pole swing-up environment as pure functions:
    configuration, action clamping, the equations of motion, the explicit Euler
    step, the reward modes and the termination / truncation decision. */
module Dynamics {
  import opened RealMath

  /** The one error the step raises: an unrecognised reward mode. */
  datatype StepError = InvalidCostMode(mode: string)

  datatype Result<T> = Ok(value: T) | Err(error: StepError)

  /** Cart position and velocity, pole angle (0 is upright) and angular velocity. */
  datatype PhysState = PhysState(x: real, x_dot: real, theta: real, theta_dot: real)

  /** What one successful step hands back to the caller. */
  datatype Transition = Transition(obs: PhysState, reward: real, terminated: bool, truncated: bool)

  /** The environment's fixed configuration, including the two derived
      constants total_m and m_p_l. */
  datatype Params = Params(
    g: real, m_c: real, m_p: real, total_m: real, l: real, m_p_l: real,
    force_mag: real, dt: real, b: real, x_threshold: real, t_limit: int,
    cost_mode: string, sigma_c: real)
  {
    /** The derived constants agree with the masses and the length, the
        masses and the length are physical, so the equations of motion are
        well defined, and the pilco spread is non-zero when that mode is
        selected, so the pilco cost is a real number. */
    predicate Valid()
    {
      total_m == m_c + m_p && m_p_l == m_p * l &&
      m_c > 0.0 && m_p >= 0.0 && l > 0.0 &&
      (cost_mode == "pilco" ==> sigma_c != 0.0)
    }
  }

  /** The construction of the environment: stores the arguments and computes
      the total mass and the pole's mass-length product once. */
  function Configure(
    gravity: real, cart_mass: real, pole_mass: real, pole_length: real,
    force_mag: real, dt: real, friction: real, x_threshold: real,
    time_limit: int, cost_mode: string, sigma_c: real): (p: Params)
    requires cart_mass > 0.0 && pole_mass >= 0.0 && pole_length > 0.0
    requires cost_mode == "pilco" ==> sigma_c != 0.0
    ensures p.Valid()
    ensures p.g == gravity && p.m_c == cart_mass && p.m_p == pole_mass && p.l == pole_length
    ensures p.force_mag == force_mag && p.dt == dt && p.b == friction
    ensures p.x_threshold == x_threshold && p.t_limit == time_limit
    ensures p.cost_mode == cost_mode && p.sigma_c == sigma_c
  {
    Params(gravity, cart_mass, pole_mass, cart_mass + pole_mass, pole_length, pole_mass * pole_length,
           force_mag, dt, friction, x_threshold, time_limit, cost_mode, sigma_c)
  }

  /** The configuration built from the constructor's default arguments. */
  function DefaultParams(): (p: Params)
    ensures p.Valid() && p.cost_mode == "default"
    ensures p.x_threshold == 2.4 && p.t_limit == 1000
    ensures p.total_m == 1.0 && p.m_p_l == 0.3
  {
    Configure(9.82, 0.5, 0.5, 0.6, 10.0, 0.1, 0.1, 2.4, 1000, "default", 0.25)
  }

  /** The action clamped to [-1, 1]. */
  function Clamp(a: real): (r: real)
    ensures -1.0 <= r <= 1.0
    ensures -1.0 <= a <= 1.0 ==> r == a
    ensures a >= 1.0 ==> r == 1.0
    ensures a <= -1.0 ==> r == -1.0
  {
    if a < -1.0 then -1.0 else if a > 1.0 then 1.0 else a
  }

  /** The force applied to the cart for an action: proportional to the action
      inside [-1, 1], and the full force magnitude either way beyond it. */
  function Force(p: Params, action: real): (f: real)
    ensures -1.0 <= action <= 1.0 ==> f == action * p.force_mag
    ensures action >= 1.0 ==> f == p.force_mag
    ensures action <= -1.0 ==> f == -p.force_mag
  {
    Clamp(action) * p.force_mag
  }

  /** The applied force never exceeds the force magnitude either way. */
  lemma ForceBounded(p: Params, action: real)
    requires p.force_mag >= 0.0
    ensures -p.force_mag <= Force(p, action) <= p.force_mag
  {
    var a := Clamp(action);
    var fm := p.force_mag;
    assert Force(p, action) == a * fm;
    if fm > 0.0 {
      ScaleOrder(fm, a, 1.0);
      ScaleOrder(fm, -1.0, a);
      assert a * fm == fm * a;
    }
  }

  /** Denominator of the cart acceleration, 4 total_m - 3 m_p c^2. */
  function CartDenominator(p: Params, c: real): real
  {
    4.0 * p.total_m - 3.0 * p.m_p * Square(c)
  }

  /** Denominator of the pole's angular acceleration, 4 l total_m - 3 m_p_l c^2. */
  function PoleDenominator(p: Params, c: real): real
  {
    4.0 * p.l * p.total_m - 3.0 * p.m_p_l * Square(c)
  }

  /** Both denominators are positive whenever c lies in [-1, 1], so the
      equations of motion never divide by zero. */
  lemma DenominatorsPositive(p: Params, c: real)
    requires p.Valid() && -1.0 <= c <= 1.0
    ensures CartDenominator(p, c) > 0.0 && PoleDenominator(p, c) > 0.0
  {
    SquareAtMostOne(c);
    assert p.m_p * Square(c) <= p.m_p by {
      if p.m_p > 0.0 { ScaleOrder(p.m_p, Square(c), 1.0); }
    }
    assert CartDenominator(p, c) >= 4.0 * p.m_c + p.m_p;
    assert PoleDenominator(p, c) == p.l * CartDenominator(p, c);
    ScaleStrict(p.l, 0.0, CartDenominator(p, c));
  }

  /** Numerator of the cart acceleration. */
  function CartNumerator(p: Params, s: real, c: real, force: real, x_dot: real, theta_dot: real): real
  {
    -2.0 * p.m_p_l * Square(theta_dot) * s
    + 3.0 * p.m_p * p.g * s * c
    + 4.0 * force
    - 4.0 * p.b * x_dot
  }

  /** Numerator of the pole's angular acceleration. */
  function PoleNumerator(p: Params, s: real, c: real, force: real, x_dot: real, theta_dot: real): real
  {
    -3.0 * p.m_p_l * Square(theta_dot) * s * c
    + 6.0 * p.total_m * p.g * s
    + 6.0 * (force - p.b * x_dot) * c
  }

  /** A quotient by a positive number has the sign of its numerator. */
  lemma QuotientSign(n: real, d: real)
    requires d > 0.0
    ensures n / d > 0.0 <==> n > 0.0
    ensures n / d < 0.0 <==> n < 0.0
  {
    assert n == d * (n / d);
    if n / d > 0.0 { ScaleStrict(d, 0.0, n / d); }
    if n / d < 0.0 { ScaleStrict(d, n / d, 0.0); }
  }

  /** Cart acceleration from the pole's sine s and cosine c, the applied force
      and the velocities. With the pole vertical (s = 0) the cart accelerates
      in the direction of the applied force net of friction, and not at all
      when the two balance. */
  function CartAccel(p: Params, s: real, c: real, force: real, x_dot: real, theta_dot: real): (a: real)
    requires p.Valid() && -1.0 <= c <= 1.0
    ensures s == 0.0 ==> (a > 0.0 <==> force > p.b * x_dot) && (a < 0.0 <==> force < p.b * x_dot)
  {
    DenominatorsPositive(p, c);
    QuotientSign(CartNumerator(p, s, c, force, x_dot, theta_dot), CartDenominator(p, c));
    assert s == 0.0 ==> CartNumerator(p, s, c, force, x_dot, theta_dot) == 4.0 * (force - p.b * x_dot) by {
      if s == 0.0 {
        assert -2.0 * p.m_p_l * Square(theta_dot) * s == 0.0;
        assert 3.0 * p.m_p * p.g * s * c == 0.0;
      }
    }
    CartNumerator(p, s, c, force, x_dot, theta_dot) / CartDenominator(p, c)
  }

  /** Angular acceleration of the pole, from the same inputs. With the pole
      vertical (s = 0) its sign is that of the net force times c, and it is 0
      when the applied force balances friction. */
  function PoleAccel(p: Params, s: real, c: real, force: real, x_dot: real, theta_dot: real): (a: real)
    requires p.Valid() && -1.0 <= c <= 1.0
    ensures s == 0.0 ==> (a > 0.0 <==> Product(force - p.b * x_dot, c) > 0.0)
    ensures s == 0.0 ==> (a < 0.0 <==> Product(force - p.b * x_dot, c) < 0.0)
  {
    DenominatorsPositive(p, c);
    QuotientSign(PoleNumerator(p, s, c, force, x_dot, theta_dot), PoleDenominator(p, c));
    assert s == 0.0 ==> PoleNumerator(p, s, c, force, x_dot, theta_dot) == 6.0 * Product(force - p.b * x_dot, c) by {
      if s == 0.0 {
        assert -3.0 * p.m_p_l * Square(theta_dot) * s * c == 0.0;
        assert 6.0 * p.total_m * p.g * s == 0.0;
      }
    }
    PoleNumerator(p, s, c, force, x_dot, theta_dot) / PoleDenominator(p, c)
  }

  /** A larger force always gives a larger cart acceleration. */
  lemma CartAccelIncreasingInForce(p: Params, s: real, c: real, f1: real, f2: real, x_dot: real, theta_dot: real)
    requires p.Valid() && -1.0 <= c <= 1.0
    requires f1 < f2
    ensures CartAccel(p, s, c, f1, x_dot, theta_dot) < CartAccel(p, s, c, f2, x_dot, theta_dot)
  {
    DenominatorsPositive(p, c);
    var d := CartDenominator(p, c);
    var n1 := CartNumerator(p, s, c, f1, x_dot, theta_dot);
    var n2 := CartNumerator(p, s, c, f2, x_dot, theta_dot);
    assert n2 - n1 == 4.0 * (f2 - f1);
    assert n2 / d - n1 / d == (n2 - n1) / d;
    QuotientSign(n2 - n1, d);
  }

  /** One explicit Euler update of a coordinate: value + rate * dt. */
  function Euler(value: real, rate: real, dt: real): real
  {
    value + rate * dt
  }

  /** The explicit Euler step from st under action: the accelerations are taken
      at st, the positions advance with st's velocities, the velocities with
      the accelerations, and the angle is normalised into [-pi, pi). */
  function Next(p: Params, m: Transcendentals, st: PhysState, action: real): (r: PhysState)
    requires p.Valid() && Lawful(m)
    ensures -PI <= r.theta < PI
    ensures IsWhole((Euler(st.theta, st.theta_dot, p.dt) - r.theta) / TAU)
  {
    var force := Force(p, action);
    var s := m.sin(st.theta);
    var c := m.cos(st.theta);
    PhysState(
      Euler(st.x, st.x_dot, p.dt),
      Euler(st.x_dot, CartAccel(p, s, c, force, st.x_dot, st.theta_dot), p.dt),
      Wrap(Euler(st.theta, st.theta_dot, p.dt)),
      Euler(st.theta_dot, PoleAccel(p, s, c, force, st.x_dot, st.theta_dot), p.dt))
  }

  /** Every action at or above 1 acts like 1, and every action at or below -1
      acts like -1. */
  lemma SaturatedActionsAgree(p: Params, m: Transcendentals, st: PhysState, action: real)
    requires p.Valid() && Lawful(m)
    ensures action >= 1.0 ==> Next(p, m, st, action) == Next(p, m, st, 1.0)
    ensures action <= -1.0 ==> Next(p, m, st, action) == Next(p, m, st, -1.0)
  {
    if action >= 1.0 {
      assert Force(p, action) == Force(p, 1.0);
    } else if action <= -1.0 {
      assert Force(p, action) == Force(p, -1.0);
    }
  }

  /** Positions advance with the velocities held before the step, so the new
      cart position and pole angle do not depend on the action; only the new
      velocities do. */
  lemma PositionsIgnoreAction(p: Params, m: Transcendentals, st: PhysState, a1: real, a2: real)
    requires p.Valid() && Lawful(m)
    ensures Next(p, m, st, a1).x == Next(p, m, st, a2).x
    ensures Next(p, m, st, a1).theta == Next(p, m, st, a2).theta
  {
  }

  /** The two reward modes the step recognises. */
  predicate KnownMode(mode: string)
  {
    mode == "pilco" || mode == "default"
  }

  /** Squared distance of the pole tip (x + l sin theta, l cos theta) from the
      upright target (0, l). */
  function TipDistanceSquared(l: real, m: Transcendentals, st: PhysState): (d2: real)
    ensures d2 >= 0.0
  {
    var tip_x := st.x + l * m.sin(st.theta);
    var tip_y := l * m.cos(st.theta);
    SquareNonNegative(tip_x - 0.0);
    SquareNonNegative(tip_y - l);
    Square(tip_x - 0.0) + Square(tip_y - l)
  }

  /** The pilco spread 2 sigma_c^2. */
  function Spread(sigma_c: real): real
  {
    2.0 * Square(sigma_c)
  }

  /** The spread is positive for a non-zero sigma_c. */
  lemma SpreadPositive(sigma_c: real)
    requires sigma_c != 0.0
    ensures Spread(sigma_c) > 0.0
  {
    SquarePositive(sigma_c);
  }

  /** Minus a non-negative number over a positive one is non-positive. */
  lemma NonPositiveQuotient(d: real, q: real)
    requires d >= 0.0 && q > 0.0
    ensures -d / q <= 0.0
  {
  }

  /** The "pilco" reward, the negated saturating cost
      1 - exp(-d^2 / (2 sigma_c^2)). It lies in (-1, 0], and it is 0 on
      target. */
  function PilcoReward(p: Params, m: Transcendentals, st: PhysState): (r: real)
    requires p.sigma_c != 0.0
    ensures Lawful(m) ==> -1.0 < r <= 0.0
    ensures Lawful(m) && TipDistanceSquared(p.l, m, st) == 0.0 ==> r == 0.0
  {
    SpreadPositive(p.sigma_c);
    NonPositiveQuotient(TipDistanceSquared(p.l, m, st), Spread(p.sigma_c));
    var cost := 1.0 - m.exp(-TipDistanceSquared(p.l, m, st) / Spread(p.sigma_c));
    -cost
  }

  /** The "default" reward, cos(theta) cos(x), which lies in [-1, 1]. */
  function DefaultReward(m: Transcendentals, st: PhysState): (r: real)
    ensures Lawful(m) ==> -1.0 <= r <= 1.0
  {
    assert Lawful(m) ==> -1.0 <= Product(m.cos(st.theta), m.cos(st.x)) <= 1.0 by {
      if Lawful(m) {
        ProductAtMostOne(m.cos(st.theta), m.cos(st.x));
        ProductAtLeastMinusOne(m.cos(st.theta), m.cos(st.x));
      }
    }
    m.cos(st.theta) * m.cos(st.x)
  }

  /** The reward of the state after a step, chosen by the configured mode;
      pilco is tested first, then default, and any other mode is an error
      naming the mode. */
  function Reward(p: Params, m: Transcendentals, st: PhysState): (r: Result<real>)
    requires p.cost_mode == "pilco" ==> p.sigma_c != 0.0
    ensures r.Err? <==> !KnownMode(p.cost_mode)
    ensures r.Err? ==> r.error == InvalidCostMode(p.cost_mode)
  {
    if p.cost_mode == "pilco" then Ok(PilcoReward(p, m, st))
    else if p.cost_mode == "default" then Ok(DefaultReward(m, st))
    else Err(InvalidCostMode(p.cost_mode))
  }

  /** In default mode the reward is cos(theta) cos(x) and lies in [-1, 1]. */
  lemma DefaultRewardRange(p: Params, m: Transcendentals, st: PhysState)
    requires Lawful(m) && p.cost_mode == "default"
    ensures Reward(p, m, st) == Ok(m.cos(st.theta) * m.cos(st.x))
    ensures -1.0 <= Reward(p, m, st).value <= 1.0
  {
    assert p.cost_mode != "pilco" by {
      assert |p.cost_mode| == 7;
    }
    assert Reward(p, m, st) == Ok(DefaultReward(m, st));
    assert DefaultReward(m, st) == m.cos(st.theta) * m.cos(st.x);
  }

  /** In pilco mode (sigma_c non-zero) the reward lies in (-1, 0]. */
  lemma PilcoRewardRange(p: Params, m: Transcendentals, st: PhysState)
    requires Lawful(m) && p.cost_mode == "pilco" && p.sigma_c != 0.0
    ensures Reward(p, m, st).Ok?
    ensures -1.0 < Reward(p, m, st).value <= 0.0
  {
  }

  /** In pilco mode the reward is exactly 0 when the pole tip sits on the
      upright target. */
  lemma PilcoRewardAtTarget(p: Params, m: Transcendentals, st: PhysState)
    requires Lawful(m) && p.cost_mode == "pilco" && p.sigma_c != 0.0
    requires st.x + p.l * m.sin(st.theta) == 0.0 && p.l * m.cos(st.theta) == p.l
    ensures Reward(p, m, st) == Ok(0.0)
  {
    assert TipDistanceSquared(p.l, m, st) == 0.0;
  }

  /** The cart is out of bounds: strictly beyond the threshold on either side. */
  predicate Terminates(p: Params, x: real)
  {
    x < -p.x_threshold || x > p.x_threshold
  }

  /** The step limit is reached (the counter already incremented) and the step
      did not terminate. */
  predicate Truncates(p: Params, t: int, terminated: bool)
  {
    t >= p.t_limit && !terminated
  }

  /** The outcome of one successful step from st, with the counter at t
      before the step. */
  function StepTransition(p: Params, m: Transcendentals, st: PhysState, t: int, action: real): Transition
    requires p.Valid() && Lawful(m) && KnownMode(p.cost_mode)
  {
    var st' := Next(p, m, st, action);
    var terminated := Terminates(p, st'.x);
    Transition(st', Reward(p, m, st').value, terminated, Truncates(p, t + 1, terminated))
  }

  /** A step terminates exactly when the cart, moved on by its old velocity,
      leaves [-x_threshold, x_threshold]; the action, the angle and the
      counter play no part. */
  lemma StepTerminationBoundary(p: Params, m: Transcendentals, st: PhysState, t: int, action: real)
    requires p.Valid() && Lawful(m) && KnownMode(p.cost_mode)
    ensures StepTransition(p, m, st, t, action).terminated
        <==> !(-p.x_threshold <= st.x + st.x_dot * p.dt <= p.x_threshold)
  {
    var st' := Next(p, m, st, action);
    assert st'.x == st.x + st.x_dot * p.dt;
    assert StepTransition(p, m, st, t, action).terminated == Terminates(p, st'.x);
  }

  /** The transitions of consecutive successful steps from st, with the step
      counter at t before the first one. */
  function Rollout(p: Params, m: Transcendentals, st: PhysState, t: int, actions: seq<real>): (trace: seq<Transition>)
    requires p.Valid() && Lawful(m) && KnownMode(p.cost_mode)
    ensures |trace| == |actions|
    ensures forall i :: 0 <= i < |trace| ==> !(trace[i].terminated && trace[i].truncated)
    ensures forall i :: 0 <= i < |trace| ==>
      (trace[i].terminated <==> Terminates(p, trace[i].obs.x)) &&
      (trace[i].truncated <==> (t + i + 1 >= p.t_limit && !trace[i].terminated))
    decreases |actions|
  {
    if actions == [] then []
    else
      var first := StepTransition(p, m, st, t, actions[0]);
      [first] + Rollout(p, m, first.obs, t + 1, actions[1..])
  }

  /** The state a rollout ends in: st itself when there are no actions. */
  function FinalState(p: Params, m: Transcendentals, st: PhysState, t: int, actions: seq<real>): PhysState
    requires p.Valid() && Lawful(m) && KnownMode(p.cost_mode)
  {
    if actions == [] then st else Rollout(p, m, st, t, actions)[|actions| - 1].obs
  }

  /** One more action extends a rollout by the step from the state it ended in. */
  lemma {:induction false} RolloutAppend(p: Params, m: Transcendentals, st: PhysState, t: int, actions: seq<real>, a: real)
    requires p.Valid() && Lawful(m) && KnownMode(p.cost_mode)
    ensures Rollout(p, m, st, t, actions + [a])
         == Rollout(p, m, st, t, actions) + [StepTransition(p, m, FinalState(p, m, st, t, actions), t + |actions|, a)]
    decreases |actions|
  {
    if actions != [] {
      var first := StepTransition(p, m, st, t, actions[0]);
      assert (actions + [a])[1..] == actions[1..] + [a];
      RolloutAppend(p, m, first.obs, t + 1, actions[1..], a);
      assert FinalState(p, m, first.obs, t + 1, actions[1..]) == FinalState(p, m, st, t, actions);
    }
  }

  /** The states a rollout visits are the Euler steps of one another. */
  lemma {:induction false} RolloutFollowsNext(p: Params, m: Transcendentals, st: PhysState, t: int, actions: seq<real>, i: nat)
    requires p.Valid() && Lawful(m) && KnownMode(p.cost_mode)
    requires i < |actions|
    ensures Rollout(p, m, st, t, actions)[i].obs ==
      Next(p, m, if i == 0 then st else Rollout(p, m, st, t, actions)[i - 1].obs, actions[i])
    decreases i
  {
    if i > 0 {
      var st' := Next(p, m, st, actions[0]);
      RolloutFollowsNext(p, m, st', t + 1, actions[1..], i - 1);
    }
  }

  /** Starting from a reset (counter 0) with no step going out of bounds, the
      first t_limit - 1 steps are not truncated and step number t_limit is. */
  lemma TruncationFromReset(p: Params, m: Transcendentals, st: PhysState, actions: seq<real>)
    requires p.Valid() && Lawful(m) && KnownMode(p.cost_mode)
    requires forall i :: 0 <= i < |actions| ==> !Terminates(p, Rollout(p, m, st, 0, actions)[i].obs.x)
    ensures forall i :: 0 <= i < |actions| && i + 1 < p.t_limit ==> !Rollout(p, m, st, 0, actions)[i].truncated
    ensures 1 <= p.t_limit <= |actions| ==> Rollout(p, m, st, 0, actions)[p.t_limit - 1].truncated
  {
  }
}
