# Cart-pole swing-up environment, modelled in Dafny

A model of `CartPoleSwingUpEnv`, a Gymnasium environment. A cart on a track
carries a pole on a free pivot. The pole starts hanging down, and the agent
pushes the cart to swing the pole up and balance it. The model covers:

- the construction of the environment and its two derived constants;
- `reset`, which replaces the physical state and zeroes the step counter;
- `step`, which clamps the action, computes the cart and pole accelerations,
  takes one explicit Euler step, normalises the pole angle, computes the
  reward for the configured mode, and decides termination and truncation;
- the scalar layout arithmetic of `render`: the pixel scale, where the cart,
  its wheels and the track line go, and the unrotated cart and pole outlines.

Modules:

- `RealMath` (`realmath.dfy`): the constant pi, Python's float `% (2 * pi)` as
  `ModTau`, the angle normalisation `Wrap`, and sign facts about products.
  sin, cos and exp are handed in as a `Transcendentals` value. The only facts
  used about them (`Lawful`) are their ranges and exp(0) = 1.
- `Dynamics` (`dynamics.dfy`): the configuration record `Params`, the
  equations of motion, the Euler step `Next`, the reward modes, and the
  termination and truncation predicates. `Rollout` chains successful steps.
- `Environment` (`env.dfy`): the class `CartPoleSwingUpEnv`. Its fields are
  the fixed configuration, the state (absent until the first reset) and the
  step counter. `Reset` and `Step` update them in place, and `Step` is proved
  against `Next` and `Reward`.
- `Rendering` (`render.dfy`): the layout numbers of the scene.

Numbers are Dafny `real`s. Python's float `%` by 2 pi is written out as
`a - 2 pi floor(a / (2 pi))`, whose remainder has the sign of the divisor. Python's
`int()` is written out as truncation toward zero.

The angle normalisation `((theta + pi) % (2 pi)) - pi` gives angles in
[-pi, pi) in the real-number model: pi is never produced (`Wrap(PI) == -PI`).
With floats the `%` can round up to exactly 2 pi, so the program can store pi,
as the source comment "[-pi, pi]" at line 125 allows.

## Model

| member | source | states |
|---|---|---|
| Dynamics.Configure | gymnasium_cartpole_swingup/cartpole_swingup.py:37-55 | every argument is stored unchanged, and the configuration is valid: total_m is the sum of the masses and m_p_l the pole mass times the length |
| Dynamics.DefaultParams | gymnasium_cartpole_swingup/cartpole_swingup.py:20-34 | the default configuration is valid, with mode "default", threshold 2.4, limit 1000, total mass 1 and m_p_l 0.3 |
| Environment.CartPoleSwingUpEnv.constructor | gymnasium_cartpole_swingup/cartpole_swingup.py:20-74 | the object holds the configuration with the derived constants, no state, and counter 0 |
| Environment.CartPoleSwingUpEnv.Reset | gymnasium_cartpole_swingup/cartpole_swingup.py:76-94 | the state becomes the drawn initial state, the counter goes to 0, the observation is the new state, and the configuration is kept |
| Environment.CartPoleSwingUpEnv.Step | gymnasium_cartpole_swingup/cartpole_swingup.py:96-165 | the stored state becomes the Euler step of the old one, with the angle in [-pi, pi). The step fails exactly when the reward mode is neither "pilco" nor "default", with InvalidCostMode naming the mode, the new state kept and the counter unchanged. Otherwise the counter goes up by one, the observation is the new state, the reward is the mode's reward of the new state, terminated holds iff the new x is outside [-x_threshold, x_threshold], truncated holds iff the new counter reached the limit and the step did not terminate, and the transition is the one `StepTransition` describes |
| Environment.CartPoleSwingUpEnv.Run | gymnasium_cartpole_swingup/cartpole_swingup.py:76-165 | a reset followed by one step per action, with a recognised reward mode, hands back exactly the transitions of `Rollout` from the initial state, leaves the counter at the number of actions, and stores the rollout's last state |
| Dynamics.Clamp | gymnasium_cartpole_swingup/cartpole_swingup.py:98 | the clamped action lies in [-1, 1], equals the action inside that interval, and saturates at 1 above it and at -1 below it |
| Dynamics.Force | gymnasium_cartpole_swingup/cartpole_swingup.py:98-100 | the force is the action times force_mag inside [-1, 1], force_mag for every action at or above 1 and -force_mag for every action at or below -1 |
| Dynamics.ForceBounded | gymnasium_cartpole_swingup/cartpole_swingup.py:98-100 | the applied force lies in [-force_mag, force_mag] |
| Dynamics.SaturatedActionsAgree | gymnasium_cartpole_swingup/cartpole_swingup.py:98-100 | every action at or above 1 gives the same next state as 1, and every action at or below -1 the same as -1 |
| Dynamics.DenominatorsPositive | gymnasium_cartpole_swingup/cartpole_swingup.py:108-118 | both denominators of the equations of motion are positive for a valid configuration and any cosine in [-1, 1], so the step never divides by zero there |
| Dynamics.CartAccel | gymnasium_cartpole_swingup/cartpole_swingup.py:108-113 | with the pole vertical (sin theta = 0) the cart acceleration is positive iff the force exceeds the friction term b x_dot, negative iff it falls short of it, and so 0 when they balance |
| Dynamics.PoleAccel | gymnasium_cartpole_swingup/cartpole_swingup.py:114-118 | with the pole vertical the angular acceleration has the sign of (force - b x_dot) cos theta, and is 0 when the force balances friction |
| Dynamics.CartAccelIncreasingInForce | gymnasium_cartpole_swingup/cartpole_swingup.py:108-113 | a larger force gives a strictly larger cart acceleration |
| Dynamics.Next | gymnasium_cartpole_swingup/cartpole_swingup.py:103-128 | the new angle lies in [-pi, pi) and differs from the Euler-advanced angle by a whole number of turns |
| Dynamics.PositionsIgnoreAction | gymnasium_cartpole_swingup/cartpole_swingup.py:120-121 | the new cart position and pole angle are the same for every action, because positions advance with the velocities from before the step |
| RealMath.ModTau | gymnasium_cartpole_swingup/cartpole_swingup.py:126 | the remainder of a modulo 2 pi lies in [0, 2 pi) and differs from a by a whole number of turns |
| RealMath.ModTauUnique | gymnasium_cartpole_swingup/cartpole_swingup.py:126 | the remainder is the only value in [0, 2 pi) that differs from a by a whole number of turns |
| RealMath.Wrap | gymnasium_cartpole_swingup/cartpole_swingup.py:125-126 | the normalised angle lies in [-pi, pi) and differs from the input by a whole number of turns |
| RealMath.WrapUnique | gymnasium_cartpole_swingup/cartpole_swingup.py:125-126 | the normalised angle is the only angle in [-pi, pi) that differs from the input by whole turns |
| RealMath.WrapFixesPrincipal | gymnasium_cartpole_swingup/cartpole_swingup.py:125-126 | an angle already in [-pi, pi) is unchanged |
| RealMath.WrapIdempotent | gymnasium_cartpole_swingup/cartpole_swingup.py:125-126 | normalising twice equals normalising once |
| Dynamics.TipDistanceSquared | gymnasium_cartpole_swingup/cartpole_swingup.py:132-136 | the squared tip-to-target distance is non-negative |
| Dynamics.SpreadPositive | gymnasium_cartpole_swingup/cartpole_swingup.py:137 | the pilco spread 2 sigma_c^2 is positive when sigma_c is non-zero, so the exponent of exp is never positive |
| Dynamics.PilcoReward | gymnasium_cartpole_swingup/cartpole_swingup.py:131-138 | the pilco reward lies in (-1, 0], and is 0 when the pole tip is on the upright target |
| Dynamics.DefaultReward | gymnasium_cartpole_swingup/cartpole_swingup.py:139-140 | the default reward cos(theta) cos(x) lies in [-1, 1] |
| Dynamics.Reward | gymnasium_cartpole_swingup/cartpole_swingup.py:130-142 | the reward fails exactly when the mode is neither "pilco" nor "default", and then with InvalidCostMode naming the mode |
| Dynamics.DefaultRewardRange | gymnasium_cartpole_swingup/cartpole_swingup.py:139-140 | in default mode the reward is cos(theta) cos(x) and lies in [-1, 1] |
| Dynamics.PilcoRewardRange | gymnasium_cartpole_swingup/cartpole_swingup.py:131-138 | in pilco mode with non-zero sigma_c the reward exists and lies in (-1, 0] |
| Dynamics.PilcoRewardAtTarget | gymnasium_cartpole_swingup/cartpole_swingup.py:131-138 | in pilco mode the reward is exactly 0 when the pole tip is on the upright target |
| Dynamics.StepTerminationBoundary | gymnasium_cartpole_swingup/cartpole_swingup.py:120-149 | a step terminates iff the cart position advanced by its old velocity, x + x_dot dt, is outside [-x_threshold, x_threshold]; the action, the angle and the counter play no part |
| Dynamics.Rollout | gymnasium_cartpole_swingup/cartpole_swingup.py:144-157 | a run of successful steps gives one transition per action. In none are both terminated and truncated; terminated holds iff that step's cart is out of bounds; step i is truncated iff counter t + i + 1 has reached the limit and the step did not terminate |
| Dynamics.RolloutAppend | gymnasium_cartpole_swingup/cartpole_swingup.py:144-157 | one more action extends a rollout by exactly the step from the state the rollout ended in, with the counter advanced by the number of earlier steps |
| Dynamics.RolloutFollowsNext | gymnasium_cartpole_swingup/cartpole_swingup.py:103-128 | each state of a rollout is the Euler step of the previous one under that step's action |
| Dynamics.TruncationFromReset | gymnasium_cartpole_swingup/cartpole_swingup.py:85-156 | from a reset, if the cart stays in bounds, no step before step number t_limit is truncated, and step number t_limit is |
| Rendering.Scale | gymnasium_cartpole_swingup/cartpole_swingup.py:194-196 | the scale maps the 5 m world exactly onto the 600 pixel width |
| Rendering.CartX | gymnasium_cartpole_swingup/cartpole_swingup.py:207-208 | the cart column determines x: (cartx - 300) / 120 = x |
| Rendering.LayoutConstants | gymnasium_cartpole_swingup/cartpole_swingup.py:195-208 | 120 pixels per meter, cart centre row 300, wheel row 290 with radius 5, track row 285, pole 120 l pixels long |
| Rendering.CartColumnStrictlyIncreasing | gymnasium_cartpole_swingup/cartpole_swingup.py:207-208 | a cart further right is drawn further right |
| Rendering.CartVisibleIffInWorld | gymnasium_cartpole_swingup/cartpole_swingup.py:194-208 | the cart centre is on screen iff x lies in [-2.5, 2.5] |
| Rendering.RunningCartCentreOnScreen | gymnasium_cartpole_swingup/cartpole_swingup.py:148-149 | under the default configuration, a cart that has not terminated is drawn between columns 12 and 588 |
| Rendering.CartCorners | gymnasium_cartpole_swingup/cartpole_swingup.py:211-217 | the cart outline is an axis-aligned 40 by 20 rectangle centred on the cart centre, with corners in the order left-bottom, left-top, right-top, right-bottom |
| Rendering.PoleCorners | gymnasium_cartpole_swingup/cartpole_swingup.py:223-228 | the unrotated pole outline is an axis-aligned rectangle 6 pixels wide, centred on the pivot column, and pole_len long, starting 3 pixels below the pivot, with corners in the order left-bottom, left-top, right-top, right-bottom |
| Rendering.SceneLayout | gymnasium_cartpole_swingup/cartpole_swingup.py:262-283 | the cart is drawn at the column of x and the pole is scaled like the track; the wheel centres are the two bottom corners of the cart outline, and the track line touches the bottom of the wheels |
| Rendering.Truncate | gymnasium_cartpole_swingup/cartpole_swingup.py:238-245 | Python's int() truncates toward zero: the result has the argument's sign and is less than 1 away from it, on the zero side |
| Rendering.PixelRows | gymnasium_cartpole_swingup/cartpole_swingup.py:238-283 | the integer rows and radii passed to drawing: axle row 300 with radius 3, wheel row 290 with radius 5, track row 285 |

## Left out

- All pygame drawing is left out: polygons, circles, the rotation of the pole outline and tip, the vertical flip, blitting, the display, clock pacing and `close`. These are calls into a graphics library, and only their scalar inputs are modelled.
- The render-mode control flow of `render`, `reset` and `step` is left out. It only decides whether drawing happens.
- `Environment.CartPoleSwingUpEnv.Reset`: the Gaussian draw around (0, 0, pi, 0) with spread 0.05 is the input `initial`. The seed, `options` and the base-class reset are library concerns.
- Floating point is left out: reals stand in for floats, with no `float32` casts of the action, the initial state or the observation, and no rounding.
- `Dynamics.PilcoReward` (and `Dynamics.PilcoRewardRange`): the strict lower bound -1 < reward holds for reals only. In floats `1 - exp(-y)` rounds to exactly 1 once y exceeds about 37, so with the default sigma_c = 0.25 the program's pilco reward is exactly -1 whenever the squared tip distance exceeds about 4.7.
- sin, cos and exp are not computed. The model knows only their ranges and exp(0) = 1 (`Lawful`), so no statement depends on any other value of them.
- The action and observation space declarations and the unused 12-degree angle threshold are left out. They are metadata with no effect on the step.
- `Dynamics.Configure` requires cart mass > 0, pole mass >= 0 and pole length > 0, and sigma_c != 0 in pilco mode. The source accepts any numbers. Non-physical values could make a denominator of the equations of motion zero or negative. With sigma_c = 0, numpy division gives a pilco reward of -1, or NaN on target, and the step does not fail.
- `Environment.CartPoleSwingUpEnv.constructor` has the same requirements as `Dynamics.Configure`, for the same reasons.
- `Environment.CartPoleSwingUpEnv.Step` requires a prior `Reset`. The source fails when it unpacks the missing state.
- `Environment.CartPoleSwingUpEnv.Step` takes the action as one real number. The source takes a one-element array and reads its first entry.
- `Dynamics.Rollout` covers configurations with a recognised reward mode. With any other mode the first step fails, as `Step` states.
- The accelerations are not proved to solve the cart-pole equations of motion. That proof is nonlinear real arithmetic beyond the solver budget; the model states their signs for a vertical pole, the cart acceleration's growth in the force, and the finiteness of both instead.
