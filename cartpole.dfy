/**
 * The RL-Glue cart-pole environment (class CartPole of CartPole.java):
 * the four state variables and four failure bounds as fields, env_init and
 * env_start that zero the state, env_step that pushes, integrates, wraps the
 * pole angle into [-PI, PI] and reports reward and termination, and the
 * read-only observation, failure test and bound getters.
 */
module CartPoleEnvironment {
  import opened Physics
  import opened AngleWrap

  /** rlglue.types.Action: the agent's action; env_step reads intArray[0]. */
  datatype Action = Action(intArray: seq<int>, doubleArray: seq<real>)

  /** rlglue.types.Observation. */
  datatype Observation = Observation(intArray: seq<int>, doubleArray: seq<real>)

  /** rlglue.types.Reward_observation: reward, observation and terminal flag (1 or 0). */
  datatype RewardObservation = RewardObservation(r: real, o: Observation, terminal: int)

  /** What env_step gives back: a result, or the exception an action without ints raises. */
  datatype StepOutcome = Returned(ro: RewardObservation) | ArrayIndexOutOfBounds

  datatype Option<T> = None | Some(value: T)

  /** The default failure bounds: 2.4 m either side, 12 degrees either side. */
  const DEFAULT_BOUNDS: Bounds := Bounds(-2.4, 2.4, -(12.0 / 180.0 * PI), 12.0 / 180.0 * PI)

  /** Reads a state back from an observation: four doubles in the order x, x_dot, theta, theta_dot. */
  function ObservedState(o: Observation): Option<State> {
    if |o.doubleArray| == 4
    then Some(State(o.doubleArray[0], o.doubleArray[1], o.doubleArray[2], o.doubleArray[3]))
    else None
  }

  /** The observation of a state: no ints and the four state variables, which read back as that state. */
  function Observe(s: State): (o: Observation)
    ensures o.intArray == []
    ensures ObservedState(o) == Some(s)
  {
    Observation([], [s.x, s.xDot, s.theta, s.thetaDot])
  }

  /**
   * The state after env_step: the Euler step of Integrate, then the angle
   * wrapped into [-PI, PI]. The wrapped angle is the integrated angle moved by
   * a whole number of turns, and is the integrated angle itself when that is
   * already in range.
   */
  function StepState(s: State, force: real, trig: Trig): (next: State)
    requires CosineBounded(trig)
    ensures next.x == s.x + TAU * s.xDot
    ensures next.xDot == s.xDot + TAU * XAcc(force, s.theta, s.thetaDot, trig)
    ensures next.thetaDot == s.thetaDot + TAU * ThetaAcc(force, s.theta, s.thetaDot, trig)
    ensures -PI <= next.theta <= PI
    ensures Coterminal(next.theta, s.theta + TAU * s.thetaDot)
    ensures -PI <= s.theta + TAU * s.thetaDot <= PI ==> next.theta == s.theta + TAU * s.thetaDot
  {
    var raw := Integrate(s, force, trig);
    WrapClosedLands(raw.theta);
    raw.(theta := WrapClosed(raw.theta))
  }

  /**
   * The reward and terminal flag for the state reached: reward -1 with
   * terminal 1 when the state has left the envelope, reward 1 with terminal 0
   * otherwise; the reward and the flag always agree.
   */
  function Reply(next: State, b: Bounds): (ro: RewardObservation)
    ensures ro.terminal == 1 <==> !WithinBounds(next, b)
    ensures ro.terminal == 0 || ro.terminal == 1
    ensures ro.r == -1.0 <==> ro.terminal == 1
    ensures ro.r == 1.0 <==> ro.terminal == 0
    ensures ObservedState(ro.o) == Some(next)
  {
    if !WithinBounds(next, b)
    then RewardObservation(-1.0, Observe(next), 1)
    else RewardObservation(1.0, Observe(next), 0)
  }

  /**
   * From rest, one push to the right with bounds that enclose 0 (the default
   * bounds, say): the cart speeds up to the right, the pole starts to turn
   * the other way, and the episode goes on with reward 1. This needs the
   * values sin(0) = 0 and cos(0) = 1, which the model does not otherwise assume.
   */
  lemma FirstPushRight(trig: Trig, b: Bounds)
    requires CosineBounded(trig)
    requires trig.sin(0.0) == 0.0 && trig.cos(0.0) == 1.0
    requires b.leftCart <= 0.0 <= b.rightCart && b.leftAngle <= 0.0 <= b.rightAngle
    ensures StepState(REST, Force(1), trig).x == 0.0
    ensures StepState(REST, Force(1), trig).theta == 0.0
    ensures StepState(REST, Force(1), trig).xDot > 0.0
    ensures StepState(REST, Force(1), trig).thetaDot < 0.0
    ensures Reply(StepState(REST, Force(1), trig), b).terminal == 0
    ensures Reply(StepState(REST, Force(1), trig), b).r == 1.0
  {
    var temp := Temp(FORCE_MAG, 0.0, 0.0, trig);
    assert temp > 0.0;
    ThetaAccDivisorPositive(1.0);
    var thetaAcc := ThetaAcc(FORCE_MAG, 0.0, 0.0, trig);
    assert thetaAcc == -temp / ThetaAccDivisor(1.0);
    assert thetaAcc < 0.0;
    assert XAcc(FORCE_MAG, 0.0, 0.0, trig) > 0.0;
  }

  lemma DefaultBoundsEncloseRest()
    ensures WithinBounds(REST, DEFAULT_BOUNDS)
  {
  }

  class CartPole {
    var leftCartBound: real
    var rightCartBound: real
    var leftAngleBound: real
    var rightAngleBound: real

    /** Cart position, meters. */
    var x: real
    /** Cart velocity. */
    var xDot: real
    /** Pole angle, radians. */
    var theta: real
    /** Pole angular velocity. */
    var thetaDot: real

    function CurrentState(): State
      reads this
    {
      State(x, xDot, theta, thetaDot)
    }

    function CurrentBounds(): Bounds
      reads this
    {
      Bounds(leftCartBound, rightCartBound, leftAngleBound, rightAngleBound)
    }

    /** Stores the bounds as given, in any order; the state starts at Java's default 0.0. */
    constructor (b: Bounds)
      ensures CurrentBounds() == b
      ensures CurrentState() == REST
    {
      leftAngleBound := b.leftAngle;
      rightAngleBound := b.rightAngle;
      leftCartBound := b.leftCart;
      rightCartBound := b.rightCart;
      x, xDot, theta, thetaDot := 0.0, 0.0, 0.0, 0.0;
    }

    /** env_init: whatever the state was, it is zero afterwards; the bounds stay. */
    method EnvInit()
      modifies this
      ensures CurrentState() == REST
      ensures CurrentBounds() == old(CurrentBounds())
    {
      x := 0.0;
      xDot := 0.0;
      theta := 0.0;
      thetaDot := 0.0;
    }

    /**
     * env_start: zeroes the state whatever it was (so a second call changes
     * nothing) and returns the observation [0, 0, 0, 0].
     */
    method EnvStart() returns (o: Observation)
      modifies this
      ensures CurrentState() == REST
      ensures CurrentBounds() == old(CurrentBounds())
      ensures o == MakeObservation()
      ensures o.doubleArray == [0.0, 0.0, 0.0, 0.0]
    {
      x := 0.0;
      xDot := 0.0;
      theta := 0.0;
      thetaDot := 0.0;
      o := MakeObservation();
    }

    /**
     * env_step: picks the force from action.intArray[0], computes the
     * accelerations from the angle and angular velocity before the step,
     * updates the four variables by Euler's method (x and theta with the old
     * velocities), wraps theta into [-PI, PI] and reports the reward. An
     * action without ints raises before anything changes.
     */
    method EnvStep(action: Action, trig: Trig) returns (out: StepOutcome)
      requires CosineBounded(trig)
      modifies this
      ensures CurrentBounds() == old(CurrentBounds())
      ensures |action.intArray| == 0 ==> out == ArrayIndexOutOfBounds && CurrentState() == old(CurrentState())
      ensures |action.intArray| > 0 ==>
        CurrentState() == StepState(old(CurrentState()), Force(action.intArray[0]), trig)
      ensures |action.intArray| > 0 ==>
        out == Returned(Reply(CurrentState(), CurrentBounds())) &&
        (out.ro.terminal == 1 <==> InFailure())
    {
      if |action.intArray| == 0 {
        return ArrayIndexOutOfBounds;
      }
      var force: real;
      if action.intArray[0] > 0 {
        force := FORCE_MAG;
      } else {
        force := -FORCE_MAG;
      }

      var thetaacc := ThetaAcc(force, theta, thetaDot, trig);
      var xacc := XAcc(force, theta, thetaDot, trig);

      // Euler's method
      x := x + TAU * xDot;
      xDot := xDot + TAU * xacc;
      theta := theta + TAU * thetaDot;
      thetaDot := thetaDot + TAU * thetaacc;

      ghost var s0 := State(old(x), old(xDot), old(theta), old(thetaDot));
      ghost var raw := Integrate(s0, force, trig);
      assert CurrentState() == raw;

      while theta > PI
        invariant SubtractWhileAbove(theta) == SubtractWhileAbove(raw.theta)
        modifies this`theta
        decreases Laps(theta - PI)
      {
        LapsShrink(theta - PI);
        theta := theta - 2.0 * PI;
      }
      ghost var down := theta;
      while theta < -PI
        invariant AddWhileBelow(theta) == AddWhileBelow(down)
        modifies this`theta
        decreases Laps(-PI - theta)
      {
        LapsShrink(-PI - theta);
        theta := theta + 2.0 * PI;
      }
      assert theta == WrapClosed(raw.theta);
      assert CurrentState() == StepState(s0, force, trig);

      if InFailure() {
        out := Returned(RewardObservation(-1.0, MakeObservation(), 1));
      } else {
        out := Returned(RewardObservation(1.0, MakeObservation(), 0));
      }
    }

    /** makeObservation: the current state as an observation, read back unchanged. */
    function MakeObservation(): (o: Observation)
      reads this
      ensures o.intArray == []
      ensures ObservedState(o) == Some(CurrentState())
    {
      Observe(CurrentState())
    }

    /** inFailure: the state has left the closed envelope; a value on a bound is not a failure. */
    function InFailure(): (failed: bool)
      reads this
      ensures failed <==> !WithinBounds(CurrentState(), CurrentBounds())
    {
      x < leftCartBound || x > rightCartBound || theta < leftAngleBound || theta > rightAngleBound
    }

    function GetLeftCartBound(): (r: real)
      reads this
      ensures r == CurrentBounds().leftCart
    {
      leftCartBound
    }

    function GetRightCartBound(): (r: real)
      reads this
      ensures r == CurrentBounds().rightCart
    {
      rightCartBound
    }

    function GetRightAngleBound(): (r: real)
      reads this
      ensures r == CurrentBounds().rightAngle
    {
      rightAngleBound
    }

    function GetLeftAngleBound(): (r: real)
      reads this
      ensures r == CurrentBounds().leftAngle
    {
      leftAngleBound
    }
  }
}
