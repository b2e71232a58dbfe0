# Cart-pole simulator core, modelled in Dafny

This project models the state-transition core of the RL-Library cart-pole
environment: the classic Barto–Sutton–Anderson pole balanced on a cart,
advanced by forward-Euler steps of 0.02 s under a push of ±10 N.
The core exists in two near-identical Java variants, and both are modelled:

- `CartPole` (the RL-Glue environment) keeps four state fields (`x`, `x_dot`,
  `theta`, `theta_dot`) and four failure bounds. `env_init` and `env_start`
  zero the state. `env_step` maps the action to a force, integrates one step,
  wraps `theta` with two while-loops, and returns reward −1/terminal 1 on
  failure, otherwise reward 1/terminal 0. Observations, `inFailure` and the
  bound getters only read fields.
- `CartPoleState` (the state object) has the same fields, with `reset`,
  `update(int)`, getters and `inFailure`.

Files:

- `physics.dfy`, module `Physics`: the constants, the state and bounds
  values, the action-to-force map, the accelerations and the unwrapped Euler
  step (`Integrate`), and the failure envelope `WithinBounds`. Both Java files
  repeat these; here they are written once.
- `angle_wrap.dfy`, module `AngleWrap`: the wrap loops as recursive functions.
  `SubtractWhileAbove` is the loop `theta > PI`, `SubtractWhileAtOrAbove` is
  the loop `theta >= PI`, and `AddWhileBelow` is the loop `theta < -PI`.
  `WrapClosed` and `WrapHalfOpen` chain them as each variant does. The
  lemmas characterise the results without reference to the loops: the
  result is a whole number of turns from the input (`Coterminal`), it lies
  in a stated interval, and it is the only such angle.
- `cartpole.dfy`, module `CartPoleEnvironment`: class `CartPole`, plus the
  value-level specification of a step (`StepState`, `Reply`) and of an
  observation (`Observe`, `ObservedState`).
- `cartpole_state.dfy`, module `CartPoleStateObject`: class `CartPoleState`, plus
  `UpdateState`.

Modelling choices:

- Java `double` is Dafny `real`. Constants are the decimal literals of the
  source, and `4.0/3.0` is exact. `Math.PI` is the constant
  3.141592653589793.
- `Math.sin` and `Math.cos` are calls into code the model cannot see. They
  are a parameter `trig: Trig` of the stepping operations. The only property
  assumed is `CosineBounded(trig)`: every cosine value lies in [−1, 1]. That
  is exactly what is needed to show the divisor of `thetaacc` is positive.
  So the precondition describes `Math.cos`, not a demand on callers.
- The class methods assign the fields in the source's order, and the two
  wrap loops are `while` loops with invariants. Each method's `ensures`
  ties the new state to a specification function of the old state
  (`StepState`, `UpdateState`). The properties of those functions are their
  own `ensures` and lemmas.
- The Java fields are never validated, so bounds in any order are accepted.
  `CartPole`'s constructor takes the four bounds as plain arguments. A null
  parameter holder leaves them at 0.0, which is the same as passing zeros.
  `CartPoleState` declares no constructor, so all its fields start at 0.0,
  and the class itself never assigns its package-visible bound fields.
- `env_step` reads `action.intArray[0]`. For an action with no ints, Java
  throws `ArrayIndexOutOfBoundsException` before any field changes. The model
  returns `ArrayIndexOutOfBounds` and leaves the state unchanged.

Angle range and bounds, as the code has them:

- `CartPole.env_step` keeps `theta` in [−π, π]: an angle of exactly −π or π
  is left alone. `CartPoleState.update` keeps it in [−π, π): π becomes −π.
  Neither variant yields (−π, π]. See `WrapEdges`, `WrapVariantsDiffer` and
  `UpdateAtPi`.
- The code never checks that left < right for the bounds. `UncheckedBounds`
  states what happens instead: with inverted bounds every state fails, and
  with all-zero bounds only x = θ = 0 passes.

## Model

| member | source | states |
|---|---|---|
| `Physics.Force` | branches/Glue2.x/projects/environments/experimental/cartPole/src/org/rlcommunity/environments/cartpole/CartPole.java:132-136 | The force is positive iff the action is > 0, and its magnitude is always FORCE_MAG, so 0 and negative actions both push left (same test at CartPoleState.java:59-63) |
| `Physics.ThetaAccDivisorPositive` | branches/Glue2.x/projects/environments/experimental/cartPole/src/org/rlcommunity/environments/cartpole/CartPole.java:143 | For any cosine in [−1, 1], the `thetaacc` divisor `LENGTH*(4/3 − MASSPOLE*c²/TOTAL_MASS)` is at least its value at c = 1, which is positive, so the division is always defined |
| `Physics.IntegrateIgnoresCart` | branches/Glue2.x/projects/environments/experimental/cartPole/src/org/rlcommunity/environments/cartpole/CartPole.java:138-151 | The accelerations use only the pre-step theta, theta_dot and force: two states with the same angle and angular velocity get the same velocity increments and the same new angle, whatever their cart position or speed |
| `Physics.UncheckedBounds` | branches/Glue2.x/projects/environments/experimental/cartPole/src/org/rlcommunity/environments/cartpole/CartPole.java:59-70 | Bounds are stored unchecked: with a left bound above its right bound no state is inside the envelope, and with the default-initialised all-zero bounds only x = θ = 0 is |
| `Physics.RestWithinBounds` | branches/Glue2.x/projects/environments/experimental/cartPole/src/org/rlcommunity/environments/cartpole/CartPole.java:233-238 | The zero state is not a failure exactly when both bound pairs enclose 0 |
| `AngleWrap.SubtractWhileAboveLands` | branches/Glue2.x/projects/environments/experimental/cartPole/src/org/rlcommunity/environments/cartpole/CartPole.java:153-155 | The loop `while (theta > PI) theta -= 2PI` ends at ≤ PI, above −PI if it ran at all, a whole number of turns from its start, and changes nothing when theta ≤ PI |
| `AngleWrap.SubtractWhileAtOrAboveLands` | trunk/projects/environments/cartpole/src/org/rlcommunity/environments/cartpole/CartPoleState.java:81-83 | The loop `while (theta >= PI)` ends strictly below PI, at or above −PI if it ran, a whole number of turns from its start, and changes nothing when theta < PI |
| `AngleWrap.AddWhileBelowLands` | branches/Glue2.x/projects/environments/experimental/cartPole/src/org/rlcommunity/environments/cartpole/CartPole.java:156-158 | The loop `while (theta < -PI) theta += 2PI` ends at ≥ −PI, below PI if it ran, a whole number of turns from its start, and changes nothing when theta ≥ −PI |
| `AngleWrap.WrapClosedLands` | branches/Glue2.x/projects/environments/experimental/cartPole/src/org/rlcommunity/environments/cartpole/CartPole.java:153-158 | After both loops of env_step theta lies in [−π, π], a whole number of turns from the raw value, and a raw value already in [−π, π] is left unchanged |
| `AngleWrap.WrapClosedUnique` | branches/Glue2.x/projects/environments/experimental/cartPole/src/org/rlcommunity/environments/cartpole/CartPole.java:153-158 | Both directions: r is env_step's wrapped angle iff r is coterminal with the raw angle and r equals the raw angle when that is in [−π, π], lies in (−π, π] when it was above π, and lies in [−π, π) when it was below −π |
| `AngleWrap.WrapHalfOpenLands` | trunk/projects/environments/cartpole/src/org/rlcommunity/environments/cartpole/CartPoleState.java:81-86 | After both loops of update theta lies in [−π, π), a whole number of turns from the raw value, and a raw value already in [−π, π) is unchanged |
| `AngleWrap.WrapHalfOpenUnique` | trunk/projects/environments/cartpole/src/org/rlcommunity/environments/cartpole/CartPoleState.java:81-86 | Both directions: r is update's wrapped angle iff r is in [−π, π) and coterminal with the raw angle, so the result is the unique representative |
| `AngleWrap.WrapVariantsDiffer` | trunk/projects/environments/cartpole/src/org/rlcommunity/environments/cartpole/CartPoleState.java:81 | The two variants' wraps disagree exactly when CartPole.java's result is π; CartPoleState.java then gives −π |
| `AngleWrap.WrapEdges` | branches/Glue2.x/projects/environments/experimental/cartPole/src/org/rlcommunity/environments/cartpole/CartPole.java:153-158 | Edge values: CartPole.java keeps π as π and −π as −π; CartPoleState.java maps both π and −π to −π |
| `CartPoleEnvironment.Observe` | branches/Glue2.x/projects/environments/experimental/cartPole/src/org/rlcommunity/environments/cartpole/CartPole.java:221-229 | An observation has no ints and reads back as exactly the state it was made from, in the order x, x_dot, theta, theta_dot |
| `CartPoleEnvironment.StepState` | branches/Glue2.x/projects/environments/experimental/cartPole/src/org/rlcommunity/environments/cartpole/CartPole.java:138-158 | x advances by TAU·old x_dot and the velocities by TAU times accelerations from the pre-step angle. The new theta is in [−π, π], coterminal with old theta + TAU·old theta_dot, and equal to it when that is already in range |
| `CartPoleEnvironment.Reply` | branches/Glue2.x/projects/environments/experimental/cartPole/src/org/rlcommunity/environments/cartpole/CartPole.java:162-167 | terminal is 1 iff the post-step state is outside the envelope, else 0. The reward is −1 iff terminal is 1 and 1 iff terminal is 0. The observation reads back as the post-step state |
| `CartPoleEnvironment.FirstPushRight` | branches/Glue2.x/projects/environments/experimental/cartPole/src/org/rlcommunity/environments/cartpole/CartPole.java:132-167 | From rest, with sin 0 = 0 and cos 0 = 1, one push right keeps x = θ = 0 and gives x_dot > 0 and theta_dot < 0. With any bounds enclosing 0 the reply is reward 1, terminal 0 |
| `CartPoleEnvironment.DefaultBoundsEncloseRest` | branches/Glue2.x/projects/environments/experimental/cartPole/src/org/rlcommunity/environments/cartpole/CartPole.java:39-42 | The default bounds (±2.4 m, ±12°) contain the zero state, so a default episode does not start in failure |
| `CartPoleEnvironment.CartPole.constructor` | branches/Glue2.x/projects/environments/experimental/cartPole/src/org/rlcommunity/environments/cartpole/CartPole.java:59-70 | Stores the four given bounds unchecked; the state starts at zero |
| `CartPoleEnvironment.CartPole.EnvInit` | branches/Glue2.x/projects/environments/experimental/cartPole/src/org/rlcommunity/environments/cartpole/CartPole.java:108-111 | Whatever the state was, it is all zeros afterwards; the bounds are unchanged |
| `CartPoleEnvironment.CartPole.EnvStart` | branches/Glue2.x/projects/environments/experimental/cartPole/src/org/rlcommunity/environments/cartpole/CartPole.java:116-122 | The state becomes all zeros independently of the old state, so a second call changes nothing. It returns the observation [0, 0, 0, 0] and leaves the bounds unchanged |
| `CartPoleEnvironment.CartPole.EnvStep` | branches/Glue2.x/projects/environments/experimental/cartPole/src/org/rlcommunity/environments/cartpole/CartPole.java:124-168 | On an action with ints, the new state is `StepState` of the old state with the force of intArray[0], and the result is `Reply` of the new state and bounds, with terminal 1 iff `InFailure()`. On an action without ints it raises and nothing changes. The bounds never change |
| `CartPoleEnvironment.CartPole.MakeObservation` | branches/Glue2.x/projects/environments/experimental/cartPole/src/org/rlcommunity/environments/cartpole/CartPole.java:221-229 | The observation has no ints and its four doubles read back as the current state, in order |
| `CartPoleEnvironment.CartPole.InFailure` | branches/Glue2.x/projects/environments/experimental/cartPole/src/org/rlcommunity/environments/cartpole/CartPole.java:233-238 | The strict-comparison test holds iff the state is outside the closed envelope [leftCart, rightCart] × [leftAngle, rightAngle], so a value exactly on a bound is not a failure |
| `CartPoleEnvironment.CartPole.GetLeftCartBound` | branches/Glue2.x/projects/environments/experimental/cartPole/src/org/rlcommunity/environments/cartpole/CartPole.java:240-242 | Returns the stored left cart bound |
| `CartPoleEnvironment.CartPole.GetRightCartBound` | branches/Glue2.x/projects/environments/experimental/cartPole/src/org/rlcommunity/environments/cartpole/CartPole.java:244-246 | Returns the stored right cart bound |
| `CartPoleEnvironment.CartPole.GetRightAngleBound` | branches/Glue2.x/projects/environments/experimental/cartPole/src/org/rlcommunity/environments/cartpole/CartPole.java:248-250 | Returns the stored right angle bound |
| `CartPoleEnvironment.CartPole.GetLeftAngleBound` | branches/Glue2.x/projects/environments/experimental/cartPole/src/org/rlcommunity/environments/cartpole/CartPole.java:252-254 | Returns the stored left angle bound |
| `CartPoleStateObject.UpdateState` | trunk/projects/environments/cartpole/src/org/rlcommunity/environments/cartpole/CartPoleState.java:59-86 | Same Euler relations as env_step. The new theta is in [−π, π), coterminal with old theta + TAU·old theta_dot, and equal to it when that is already in range |
| `CartPoleStateObject.UpdateAtPi` | trunk/projects/environments/cartpole/src/org/rlcommunity/environments/cartpole/CartPoleState.java:81-83 | An integrated angle exactly equal to π comes out of update as −π |
| `CartPoleStateObject.CartPoleState.constructor` | trunk/projects/environments/cartpole/src/org/rlcommunity/environments/cartpole/CartPoleState.java:28-40 | With no declared constructor, every field starts at 0.0: the zero state and all-zero bounds |
| `CartPoleStateObject.CartPoleState.Reset` | trunk/projects/environments/cartpole/src/org/rlcommunity/environments/cartpole/CartPoleState.java:43-49 | The state becomes all zeros independently of the old state, so reset is idempotent; the bounds are unchanged |
| `CartPoleStateObject.CartPoleState.Update` | trunk/projects/environments/cartpole/src/org/rlcommunity/environments/cartpole/CartPoleState.java:51-87 | The new state is `UpdateState` of the old state with the force of `theAction`; the bounds are unchanged |
| `CartPoleStateObject.CartPoleState.GetX` | trunk/projects/environments/cartpole/src/org/rlcommunity/environments/cartpole/CartPoleState.java:89-91 | Returns the current cart position, reading only |
| `CartPoleStateObject.CartPoleState.GetXDot` | trunk/projects/environments/cartpole/src/org/rlcommunity/environments/cartpole/CartPoleState.java:93-95 | Returns the current cart velocity, reading only |
| `CartPoleStateObject.CartPoleState.GetTheta` | trunk/projects/environments/cartpole/src/org/rlcommunity/environments/cartpole/CartPoleState.java:97-99 | Returns the current pole angle, reading only |
| `CartPoleStateObject.CartPoleState.GetThetaDot` | trunk/projects/environments/cartpole/src/org/rlcommunity/environments/cartpole/CartPoleState.java:101-103 | Returns the current angular velocity, reading only |
| `CartPoleStateObject.CartPoleState.InFailure` | trunk/projects/environments/cartpole/src/org/rlcommunity/environments/cartpole/CartPoleState.java:106-111 | A pure read. It holds iff the state is outside the closed envelope, so values on a bound are not failures |
| `CartPoleStateObject.CartPoleState.GetLeftCartBound` | trunk/projects/environments/cartpole/src/org/rlcommunity/environments/cartpole/CartPoleState.java:113-115 | Returns the stored left cart bound |
| `CartPoleStateObject.CartPoleState.GetRightCartBound` | trunk/projects/environments/cartpole/src/org/rlcommunity/environments/cartpole/CartPoleState.java:117-119 | Returns the stored right cart bound |
| `CartPoleStateObject.CartPoleState.GetRightAngleBound` | trunk/projects/environments/cartpole/src/org/rlcommunity/environments/cartpole/CartPoleState.java:121-123 | Returns the stored right angle bound |
| `CartPoleStateObject.CartPoleState.GetLeftAngleBound` | trunk/projects/environments/cartpole/src/org/rlcommunity/environments/cartpole/CartPoleState.java:125-127 | Returns the stored left angle bound |

## Left out

- `env_message` and its RL-Viz message parsing, including the custom
  `GETCARTPOLETRACK` reply (CartPole.java:181-209). This is string-protocol
  glue into an unseen library, with stderr printing.
- `ParameterHolder` construction and `getDefaultParameters` (CartPole.java:55-86).
  They wrap an unseen library, so the bounds are plain constructor arguments
  instead. The default values are kept as `DEFAULT_BOUNDS`.
- The task-specification string built by `env_init` (CartPole.java:90-107).
  It depends on Java's double-to-string formatting, and its velocity ranges
  are metadata only.
- `env_cleanup`, the random-seed and state stubs, `getVisualizerClassName` and
  `DetailsProvider` (CartPole.java:170-179, 211-215, 257-289). They are empty
  or constant plumbing.
- A null action or a null `intArray`, which would raise NullPointerException.
  Dafny datatypes have no null.
- IEEE-754 rounding: doubles are exact reals here, so results are not
  bit-exact. The accuracy of `Math.sin`/`Math.cos` is not modelled either:
  only the cosine's range [−1, 1] is assumed (`CosineBounded`).
- Infinite, NaN and very large angles are outside the model, since reals
  have none of them. In Java, subtracting 2π from a theta above about
  7.2e16, or from +Infinity, leaves it unchanged, so the wrap loops of
  `env_step` and `update` never end; −Infinity does the same in the second
  loop. A NaN theta skips both loops, and every comparison in `inFailure` is
  then false, so a NaN state is never reported as a failure whatever the
  bounds. `EnvStep` and `Update` promise termination and a wrapped angle for
  every real angle only.
- Trajectory claims such as "the pole falls within 500 steps under constant
  pushing". They depend on floating-point values that real arithmetic with
  unknown trigonometric functions cannot produce.
- `CartPoleEnvironment.FirstPushRight` additionally assumes sin 0 = 0 and
  cos 0 = 1. Those values are needed to get the signs of the first step.
- The Swing entry point `GraphicalDriver.java` and the behaviour-free
  interface `getEnvMaxMinsInterface.java` are not part of this model.
