/**
 * engine/tweens.go: LinearEasing, the t, b, c, d linear tween: a value that
 * starts at b and changes by c over a duration d, sampled at time t.
 */
module Tweens {

  /**
   * LinearEasing(t, b, c, d): the value that starts at b and has changed by
   * c once the duration d has elapsed, growing in proportion to t. Go divides
   * by d, which must not be zero.
   */
  function LinearEasing(timePosition: real, startValue: real, deltaValue: real, duration: real): (r: real)
    requires duration != 0.0
    ensures timePosition == 0.0 ==> r == startValue
    ensures timePosition == duration ==> r == startValue + deltaValue
    ensures deltaValue == 0.0 ==> r == startValue
  {
    deltaValue * timePosition / duration + startValue
  }

  /** At time 0 the tween is at its start value. */
  lemma EasingStartsAtStart(b: real, c: real, d: real)
    requires d != 0.0
    ensures LinearEasing(0.0, b, c, d) == b
  {
  }

  /** At time d the tween has moved by the whole delta. */
  lemma EasingEndsAtEnd(b: real, c: real, d: real)
    requires d != 0.0
    ensures LinearEasing(d, b, c, d) == b + c
  {
    assert c * d / d == c;
  }

  /** The tween is affine in time: equal time steps give equal value steps, c / d per unit. */
  lemma EasingIsAffine(t1: real, t2: real, b: real, c: real, d: real)
    requires d != 0.0
    ensures LinearEasing(t2, b, c, d) - LinearEasing(t1, b, c, d) == (t2 - t1) * (c / d)
  {
    assert c * t2 / d == t2 * (c / d) && c * t1 / d == t1 * (c / d);
  }

  /** With a non-negative delta and a positive duration the tween never decreases. */
  lemma EasingMonotone(t1: real, t2: real, b: real, c: real, d: real)
    requires c >= 0.0 && d > 0.0 && t1 <= t2
    ensures LinearEasing(t1, b, c, d) <= LinearEasing(t2, b, c, d)
  {
    EasingIsAffine(t1, t2, b, c, d);
    assert c / d >= 0.0;
    assert (t2 - t1) * (c / d) >= 0.0;
  }

  /**
   * Within [0, d] the tween stays between its start and end values, in
   * whichever order they come.
   */
  lemma EasingBetweenEnds(t: real, b: real, c: real, d: real)
    requires d > 0.0 && 0.0 <= t <= d
    ensures c >= 0.0 ==> b <= LinearEasing(t, b, c, d) <= b + c
    ensures c <= 0.0 ==> b + c <= LinearEasing(t, b, c, d) <= b
  {
    EasingIsAffine(0.0, t, b, c, d);
    EasingIsAffine(t, d, b, c, d);
    EasingStartsAtStart(b, c, d);
    EasingEndsAtEnd(b, c, d);
    if c >= 0.0 {
      assert c / d >= 0.0;
      assert t * (c / d) >= 0.0 && (d - t) * (c / d) >= 0.0;
    }
    if c <= 0.0 {
      assert c / d <= 0.0;
      assert t * (c / d) <= 0.0 && (d - t) * (c / d) <= 0.0;
    }
  }
}
