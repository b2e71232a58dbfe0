/**
 * The factored-out cart-pole state object (class CartPoleState of
 * CartPoleState.java): the same four state variables and four bounds,
 * reset, update by one action, the getters and the failure test. It differs
 * from CartPole.env_step in one comparison: the first wrap loop runs while
 * theta >= PI, so the angle ends in [-PI, PI) rather than [-PI, PI].
 */
module CartPoleStateObject {
  import opened Physics
  import opened AngleWrap

  /**
   * The state after update: the Euler step of Integrate, then the angle
   * wrapped into [-PI, PI). The wrapped angle is the one angle in that
   * interval a whole number of turns from the integrated angle.
   */
  function UpdateState(s: State, force: real, trig: Trig): (next: State)
    requires CosineBounded(trig)
    ensures next.x == s.x + TAU * s.xDot
    ensures next.xDot == s.xDot + TAU * XAcc(force, s.theta, s.thetaDot, trig)
    ensures next.thetaDot == s.thetaDot + TAU * ThetaAcc(force, s.theta, s.thetaDot, trig)
    ensures -PI <= next.theta < PI
    ensures Coterminal(next.theta, s.theta + TAU * s.thetaDot)
    ensures -PI <= s.theta + TAU * s.thetaDot < PI ==> next.theta == s.theta + TAU * s.thetaDot
  {
    var raw := Integrate(s, force, trig);
    WrapHalfOpenLands(raw.theta);
    raw.(theta := WrapHalfOpen(raw.theta))
  }

  /**
   * An integrated angle landing exactly on PI comes out of update as -PI:
   * the state object never reports theta == PI.
   */
  lemma UpdateAtPi(s: State, force: real, trig: Trig)
    requires CosineBounded(trig)
    requires s.theta + TAU * s.thetaDot == PI
    ensures UpdateState(s, force, trig).theta == -PI
  {
    WrapEdges();
  }

  class CartPoleState {
    var leftCartBound: real
    var rightCartBound: real
    var leftAngleBound: real
    var rightAngleBound: real

    /** Cart position, meters. */
    var x: real
    /** Cart velocity. */
    var xDot: real
    /** Pole angle, radians. */
    var theta: real
    /** Pole angular velocity. */
    var thetaDot: real

    function CurrentState(): State
      reads this
    {
      State(x, xDot, theta, thetaDot)
    }

    function CurrentBounds(): Bounds
      reads this
    {
      Bounds(leftCartBound, rightCartBound, leftAngleBound, rightAngleBound)
    }

    /**
     * The class declares no constructor: every field, the bounds included,
     * starts at Java's default 0.0. The class itself never assigns the
     * bounds; they are package-visible fields.
     */
    constructor ()
      ensures CurrentState() == REST
      ensures CurrentBounds() == Bounds(0.0, 0.0, 0.0, 0.0)
    {
      leftCartBound, rightCartBound, leftAngleBound, rightAngleBound := 0.0, 0.0, 0.0, 0.0;
      x, xDot, theta, thetaDot := 0.0, 0.0, 0.0, 0.0;
    }

    /** reset: whatever the state was, it is zero afterwards (so a second reset changes nothing); the bounds stay. */
    method Reset()
      modifies this
      ensures CurrentState() == REST
      ensures CurrentBounds() == old(CurrentBounds())
    {
      x := 0.0;
      xDot := 0.0;
      theta := 0.0;
      thetaDot := 0.0;
    }

    /**
     * update: picks the force from the action, computes the accelerations
     * from the angle and angular velocity before the update, updates the four
     * variables by Euler's method (x and theta with the old velocities) and
     * wraps theta into [-PI, PI).
     */
    method Update(theAction: int, trig: Trig)
      requires CosineBounded(trig)
      modifies this
      ensures CurrentState() == UpdateState(old(CurrentState()), Force(theAction), trig)
      ensures CurrentBounds() == old(CurrentBounds())
    {
      var force: real;
      if theAction > 0 {
        force := FORCE_MAG;
      } else {
        force := -FORCE_MAG;
      }

      var thetaacc := ThetaAcc(force, theta, thetaDot, trig);
      var xacc := XAcc(force, theta, thetaDot, trig);

      // Euler's method
      x := x + TAU * xDot;
      xDot := xDot + TAU * xacc;
      theta := theta + TAU * thetaDot;
      thetaDot := thetaDot + TAU * thetaacc;

      ghost var s0 := State(old(x), old(xDot), old(theta), old(thetaDot));
      ghost var raw := Integrate(s0, force, trig);
      assert CurrentState() == raw;

      while theta >= PI
        invariant SubtractWhileAtOrAbove(theta) == SubtractWhileAtOrAbove(raw.theta)
        modifies this`theta
        decreases Laps(theta - PI)
      {
        LapsShrink(theta - PI);
        theta := theta - 2.0 * PI;
      }
      ghost var down := theta;
      while theta < -PI
        invariant AddWhileBelow(theta) == AddWhileBelow(down)
        modifies this`theta
        decreases Laps(-PI - theta)
      {
        LapsShrink(-PI - theta);
        theta := theta + 2.0 * PI;
      }
      assert theta == WrapHalfOpen(raw.theta);
      assert CurrentState() == UpdateState(s0, force, trig);
    }

    function GetX(): (r: real)
      reads this
      ensures r == CurrentState().x
    {
      x
    }

    function GetXDot(): (r: real)
      reads this
      ensures r == CurrentState().xDot
    {
      xDot
    }

    function GetTheta(): (r: real)
      reads this
      ensures r == CurrentState().theta
    {
      theta
    }

    function GetThetaDot(): (r: real)
      reads this
      ensures r == CurrentState().thetaDot
    {
      thetaDot
    }

    /** inFailure: the state has left the closed envelope; a value on a bound is not a failure. */
    function InFailure(): (failed: bool)
      reads this
      ensures failed <==> !WithinBounds(CurrentState(), CurrentBounds())
    {
      x < leftCartBound || x > rightCartBound || theta < leftAngleBound || theta > rightAngleBound
    }

    function GetLeftCartBound(): (r: real)
      reads this
      ensures r == CurrentBounds().leftCart
    {
      leftCartBound
    }

    function GetRightCartBound(): (r: real)
      reads this
      ensures r == CurrentBounds().rightCart
    {
      rightCartBound
    }

    function GetRightAngleBound(): (r: real)
      reads this
      ensures r == CurrentBounds().rightAngle
    {
      rightAngleBound
    }

    function GetLeftAngleBound(): (r: real)
      reads this
      ensures r == CurrentBounds().leftAngle
    {
      leftAngleBound
    }
  }
}
