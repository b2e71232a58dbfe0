/**
 * The angle normalisation both cart-pole variants apply to the pole angle
 * after each Euler step: two while-loops that subtract or add 2*PI.
 *
 * Each loop is specified here by a recursive function that performs the
 * same repeated subtraction (or addition); the lemmas then characterise the
 * result independently of the loops: it differs from the input by a whole
 * number of turns and lies in a stated interval, and it is the only such value.
 */
module AngleWrap {

  /** Java's Math.PI, the double closest to pi. */
  const PI: real := 3.141592653589793
  const TWO_PI: real := 2.0 * PI

  /** k whole turns, in radians. */
  function Turns(k: int): real {
    TWO_PI * (k as real)
  }

  /** a and b name the same direction: they differ by a whole number of turns. */
  ghost predicate Coterminal(a: real, b: real) {
    exists k: int :: a - b == Turns(k)
  }

  /**
   * Termination measure for the wrap loops, for a loop that runs while its
   * distance d past the limit is non-negative: a turn (more than 6) takes
   * at least 6 off the floor of d.
   */
  function Laps(d: real): nat {
    if d >= 0.0 then d.Floor / 6 + 1 else 0
  }

  lemma LapsShrink(d: real)
    requires d >= 0.0
    ensures Laps(d - TWO_PI) < Laps(d)
  {
    assert (d - TWO_PI).Floor <= d.Floor - 6;
  }

  /** Result of `while (t > PI) t -= 2 * PI;` (CartPole.java). */
  function SubtractWhileAbove(t: real): real
    decreases Laps(t - PI)
  {
    if t > PI then LapsShrink(t - PI); SubtractWhileAbove(t - TWO_PI) else t
  }

  /** Result of `while (t >= PI) t -= 2 * PI;` (CartPoleState.java). */
  function SubtractWhileAtOrAbove(t: real): real
    decreases Laps(t - PI)
  {
    if t >= PI then LapsShrink(t - PI); SubtractWhileAtOrAbove(t - TWO_PI) else t
  }

  /** Result of `while (t < -PI) t += 2 * PI;` (both variants). */
  function AddWhileBelow(t: real): real
    decreases Laps(-PI - t)
  {
    if t < -PI then LapsShrink(-PI - t); AddWhileBelow(t + TWO_PI) else t
  }

  /** The normalisation of CartPole.env_step: strict test against PI, then against -PI. */
  function WrapClosed(t: real): real {
    AddWhileBelow(SubtractWhileAbove(t))
  }

  /** The normalisation of CartPoleState.update: `>=` test against PI, then strict test against -PI. */
  function WrapHalfOpen(t: real): real {
    AddWhileBelow(SubtractWhileAtOrAbove(t))
  }

  lemma CoterminalStep(a: real, b: real, k: int)
    requires a - b == Turns(k)
    ensures Coterminal(a, b)
  {
  }

  /** Loop 1 of CartPole.java ends at or below PI, above -PI if it ran at all. */
  lemma {:induction false} SubtractWhileAboveLands(t: real)
    ensures SubtractWhileAbove(t) <= PI
    ensures t > PI ==> -PI < SubtractWhileAbove(t)
    ensures t <= PI ==> SubtractWhileAbove(t) == t
    ensures Coterminal(SubtractWhileAbove(t), t)
    decreases Laps(t - PI)
  {
    if t > PI {
      var u := t - TWO_PI;
      LapsShrink(t - PI);
      SubtractWhileAboveLands(u);
      var k :| SubtractWhileAbove(u) - u == Turns(k);
      CoterminalStep(SubtractWhileAbove(t), t, k - 1);
    } else {
      CoterminalStep(t, t, 0);
    }
  }

  /** Loop 1 of CartPoleState.java ends strictly below PI, at or above -PI if it ran at all. */
  lemma {:induction false} SubtractWhileAtOrAboveLands(t: real)
    ensures SubtractWhileAtOrAbove(t) < PI
    ensures t >= PI ==> -PI <= SubtractWhileAtOrAbove(t)
    ensures t < PI ==> SubtractWhileAtOrAbove(t) == t
    ensures Coterminal(SubtractWhileAtOrAbove(t), t)
    decreases Laps(t - PI)
  {
    if t >= PI {
      var u := t - TWO_PI;
      LapsShrink(t - PI);
      SubtractWhileAtOrAboveLands(u);
      var k :| SubtractWhileAtOrAbove(u) - u == Turns(k);
      CoterminalStep(SubtractWhileAtOrAbove(t), t, k - 1);
    } else {
      CoterminalStep(t, t, 0);
    }
  }

  /** Loop 2 (both variants) ends at or above -PI, below PI if it ran at all. */
  lemma {:induction false} AddWhileBelowLands(t: real)
    ensures -PI <= AddWhileBelow(t)
    ensures t < -PI ==> AddWhileBelow(t) < PI
    ensures t >= -PI ==> AddWhileBelow(t) == t
    ensures Coterminal(AddWhileBelow(t), t)
    decreases Laps(-PI - t)
  {
    if t < -PI {
      var u := t + TWO_PI;
      LapsShrink(-PI - t);
      AddWhileBelowLands(u);
      var k :| AddWhileBelow(u) - u == Turns(k);
      CoterminalStep(AddWhileBelow(t), t, k + 1);
    } else {
      CoterminalStep(t, t, 0);
    }
  }

  lemma CoterminalTrans(a: real, b: real, c: real)
    requires Coterminal(a, b) && Coterminal(b, c)
    ensures Coterminal(a, c)
  {
    var k :| a - b == Turns(k);
    var m :| b - c == Turns(m);
    CoterminalStep(a, c, k + m);
  }

  /** Two coterminal angles less than a full turn apart are equal. */
  lemma CoterminalClose(a: real, b: real)
    requires Coterminal(a, b)
    requires -TWO_PI < a - b < TWO_PI
    ensures a == b
  {
    var k :| a - b == Turns(k);
    assert -1 < k < 1;
  }

  /**
   * WrapClosed(t) is coterminal with t and lies in [-PI, PI]; an angle already
   * there is left alone; an angle above PI lands in (-PI, PI] and one below -PI
   * lands in [-PI, PI).
   */
  lemma WrapClosedLands(t: real)
    ensures -PI <= WrapClosed(t) <= PI
    ensures Coterminal(WrapClosed(t), t)
    ensures -PI <= t <= PI ==> WrapClosed(t) == t
    ensures t > PI ==> -PI < WrapClosed(t)
    ensures t < -PI ==> WrapClosed(t) < PI
  {
    var s := SubtractWhileAbove(t);
    SubtractWhileAboveLands(t);
    AddWhileBelowLands(s);
    CoterminalTrans(WrapClosed(t), s, t);
  }

  /**
   * WrapClosed picks, among the angles coterminal with t, exactly t itself when
   * t is in [-PI, PI], the one in (-PI, PI] when t is above PI, and the one in
   * [-PI, PI) when t is below -PI.
   */
  lemma WrapClosedUnique(t: real, r: real)
    ensures r == WrapClosed(t) <==>
      Coterminal(r, t) &&
      (if t > PI then -PI < r <= PI
       else if t < -PI then -PI <= r < PI
       else r == t)
  {
    WrapClosedLands(t);
    var w := WrapClosed(t);
    if Coterminal(r, t) && ((t > PI && -PI < r <= PI) || (t < -PI && -PI <= r < PI)) {
      CoterminalSym(w, t);
      CoterminalTrans(r, t, w);
      CoterminalClose(r, w);
    }
  }

  lemma CoterminalSym(a: real, b: real)
    requires Coterminal(a, b)
    ensures Coterminal(b, a)
  {
    var k :| a - b == Turns(k);
    CoterminalStep(b, a, -k);
  }

  /** WrapHalfOpen(t) is coterminal with t and lies in [-PI, PI). */
  lemma WrapHalfOpenLands(t: real)
    ensures -PI <= WrapHalfOpen(t) < PI
    ensures Coterminal(WrapHalfOpen(t), t)
    ensures -PI <= t < PI ==> WrapHalfOpen(t) == t
  {
    var s := SubtractWhileAtOrAbove(t);
    SubtractWhileAtOrAboveLands(t);
    AddWhileBelowLands(s);
    CoterminalTrans(WrapHalfOpen(t), s, t);
  }

  /** WrapHalfOpen(t) is the one and only angle in [-PI, PI) coterminal with t. */
  lemma WrapHalfOpenUnique(t: real, r: real)
    ensures r == WrapHalfOpen(t) <==> Coterminal(r, t) && -PI <= r < PI
  {
    WrapHalfOpenLands(t);
    if Coterminal(r, t) && -PI <= r < PI {
      CoterminalSym(WrapHalfOpen(t), t);
      CoterminalTrans(r, t, WrapHalfOpen(t));
      CoterminalClose(r, WrapHalfOpen(t));
    }
  }

  /**
   * The two normalisations disagree exactly where CartPole.java ends at PI;
   * CartPoleState.java sends those angles to -PI instead.
   */
  lemma WrapVariantsDiffer(t: real)
    ensures WrapClosed(t) != WrapHalfOpen(t) <==> WrapClosed(t) == PI
    ensures WrapClosed(t) == PI ==> WrapHalfOpen(t) == -PI
  {
    WrapClosedLands(t);
    WrapHalfOpenLands(t);
    var c, h := WrapClosed(t), WrapHalfOpen(t);
    CoterminalSym(h, t);
    CoterminalTrans(c, t, h);
    if c < PI {
      CoterminalClose(c, h);
    } else {
      var k :| c - h == Turns(k);
      assert k == 1;
    }
  }

  /** Concrete edge cases: neither variant yields the interval (-PI, PI]. */
  lemma WrapEdges()
    ensures WrapClosed(PI) == PI
    ensures WrapClosed(-PI) == -PI
    ensures WrapHalfOpen(PI) == -PI
    ensures WrapHalfOpen(-PI) == -PI
  {
    WrapHalfOpenLands(PI);
    assert SubtractWhileAtOrAbove(PI) == SubtractWhileAtOrAbove(-PI);
  }
}
