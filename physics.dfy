/**
 * The cart-pole physics that CartPole.java and CartPoleState.java both carry
 * (each file repeats the same constants and the same equations): the
 * physical constants, the force a binary action applies, the accelerations
 * of the Barto-Sutton-Anderson equations, one forward-Euler step, and the
 * failure envelope.
 *
 * Java doubles are modelled as reals; Math.sin and Math.cos are a parameter
 * `Trig`, of which only -1 <= cos(t) <= 1 is assumed.
 */
module Physics {

  const GRAVITY: real := 9.8
  const MASSCART: real := 1.0
  const MASSPOLE: real := 0.1
  const TOTAL_MASS: real := MASSPOLE + MASSCART
  /** Half the pole's length. */
  const LENGTH: real := 0.5
  const POLEMASS_LENGTH: real := MASSPOLE * LENGTH
  const FORCE_MAG: real := 10.0
  /** Seconds between state updates. */
  const TAU: real := 0.02
  const FOURTHIRDS: real := 4.0 / 3.0

  /** Java's Math.sin and Math.cos. */
  datatype Trig = Trig(sin: real -> real, cos: real -> real)

  /** All the model knows of Math.cos: its values stay within [-1, 1]. */
  ghost predicate CosineBounded(trig: Trig) {
    forall t :: -1.0 <= trig.cos(t) <= 1.0
  }

  /** The four state variables: cart position and velocity, pole angle and angular velocity. */
  datatype State = State(x: real, xDot: real, theta: real, thetaDot: real)

  /** The state both variants reset to. */
  const REST: State := State(0.0, 0.0, 0.0, 0.0)

  /** The four failure bounds. */
  datatype Bounds = Bounds(leftCart: real, rightCart: real, leftAngle: real, rightAngle: real)

  /**
   * The push an action applies: FORCE_MAG to the right for a positive action,
   * the same magnitude to the left for zero or any negative action.
   */
  function Force(action: int): (f: real)
    ensures f > 0.0 <==> action > 0
    ensures f == FORCE_MAG || f == -FORCE_MAG
  {
    if action > 0 then FORCE_MAG else -FORCE_MAG
  }

  /** The divisor of the angular acceleration, for cosine c. */
  function ThetaAccDivisor(c: real): real {
    LENGTH * (FOURTHIRDS - MASSPOLE * c * c / TOTAL_MASS)
  }

  /**
   * For every cosine value the divisor is at least its value at |c| = 1,
   * so the angular acceleration is always defined.
   */
  lemma ThetaAccDivisorPositive(c: real)
    requires -1.0 <= c <= 1.0
    ensures ThetaAccDivisor(c) >= ThetaAccDivisor(1.0) > 0.0
  {
    assert c * c <= 1.0 by {
      if c >= 0.0 { assert c * c <= c * 1.0; } else { assert c * c <= (-c) * 1.0; }
    }
  }

  function Temp(force: real, theta: real, thetaDot: real, trig: Trig): real {
    (force + POLEMASS_LENGTH * thetaDot * thetaDot * trig.sin(theta)) / TOTAL_MASS
  }

  function ThetaAcc(force: real, theta: real, thetaDot: real, trig: Trig): real
    requires CosineBounded(trig)
  {
    var c := trig.cos(theta);
    ThetaAccDivisorPositive(c);
    (GRAVITY * trig.sin(theta) - c * Temp(force, theta, thetaDot, trig)) / ThetaAccDivisor(c)
  }

  function XAcc(force: real, theta: real, thetaDot: real, trig: Trig): real
    requires CosineBounded(trig)
  {
    Temp(force, theta, thetaDot, trig)
      - POLEMASS_LENGTH * ThetaAcc(force, theta, thetaDot, trig) * trig.cos(theta) / TOTAL_MASS
  }

  /**
   * One forward-Euler step before the angle is normalised. Positions advance
   * by the old velocities; velocities advance by accelerations computed from
   * the old angle and angular velocity.
   */
  function Integrate(s: State, force: real, trig: Trig): State
    requires CosineBounded(trig)
  {
    State(s.x + TAU * s.xDot,
          s.xDot + TAU * XAcc(force, s.theta, s.thetaDot, trig),
          s.theta + TAU * s.thetaDot,
          s.thetaDot + TAU * ThetaAcc(force, s.theta, s.thetaDot, trig))
  }

  /**
   * The accelerations, and so the new velocities, depend on the old angle,
   * the old angular velocity and the force only: neither the cart position
   * nor the cart velocity feeds back into them.
   */
  lemma IntegrateIgnoresCart(s1: State, s2: State, force: real, trig: Trig)
    requires CosineBounded(trig)
    requires s1.theta == s2.theta && s1.thetaDot == s2.thetaDot
    ensures Integrate(s1, force, trig).xDot - s1.xDot == Integrate(s2, force, trig).xDot - s2.xDot
    ensures Integrate(s1, force, trig).thetaDot == Integrate(s2, force, trig).thetaDot
    ensures Integrate(s1, force, trig).theta == Integrate(s2, force, trig).theta
  {
  }

  /** Inside the envelope: every bounded value lies between its left and right bound, bounds included. */
  predicate WithinBounds(s: State, b: Bounds) {
    b.leftCart <= s.x <= b.rightCart && b.leftAngle <= s.theta <= b.rightAngle
  }

  /**
   * The bounds are never checked for order. With a left bound above its
   * right bound no state is inside the envelope; with all four bounds at 0.0
   * (the Java default) only x == theta == 0 is.
   */
  lemma UncheckedBounds(s: State, b: Bounds)
    ensures b.leftCart > b.rightCart || b.leftAngle > b.rightAngle ==> !WithinBounds(s, b)
    ensures b == Bounds(0.0, 0.0, 0.0, 0.0) ==> (WithinBounds(s, b) <==> s.x == 0.0 && s.theta == 0.0)
  {
  }

  /** The rest state is inside the envelope exactly when both bound pairs enclose 0. */
  lemma RestWithinBounds(b: Bounds)
    ensures WithinBounds(REST, b) <==> b.leftCart <= 0.0 <= b.rightCart && b.leftAngle <= 0.0 <= b.rightAngle
  {
  }
}
