/**
 * The brightness decision of car_light.py: Python's `round`, the defensive
 * clamp `clamp_brightness` (lines 39-48) and the threshold rule of the control
 * loop (lines 90-97).
 */
module Brightness {
  import opened Wrappers
  import opened Config
  import opened Geometry

  /** Python's `round` on a number: the nearest integer, a tie going to the even one. */
  function RoundHalfEven(x: real): (n: int)
    ensures -0.5 <= x - n as real <= 0.5
    ensures (x - n as real == 0.5 || x - n as real == -0.5) ==> n % 2 == 0
  {
    var f := x.Floor;
    var frac := x - f as real;
    if frac < 0.5 then f
    else if frac > 0.5 then f + 1
    else if f % 2 == 0 then f
    else f + 1
  }

  /** The two properties of RoundHalfEven determine its result: it is Python's rounding. */
  lemma RoundHalfEvenUnique(x: real, m: int)
    requires -0.5 <= x - m as real <= 0.5
    requires (x - m as real == 0.5 || x - m as real == -0.5) ==> m % 2 == 0
    ensures m == RoundHalfEven(x)
  {
    var n := RoundHalfEven(x);
    assert -1.0 <= (m - n) as real <= 1.0;
  }

  /** An integer is its own rounding: the int-valued callers pass through unchanged. */
  lemma RoundInteger(k: int)
    ensures RoundHalfEven(k as real) == k
  {
    RoundHalfEvenUnique(k as real, k);
  }

  /**
   * `clamp_brightness`: `None` gives the base brightness, anything else is rounded
   * and clamped into [BrightnessMin, BrightnessMax].
   */
  function ClampBrightness(val: Option<real>): (r: int)
    ensures BrightnessMin <= r <= BrightnessMax
    ensures val.None? ==> r == BrightnessBase
  {
    match val
    case None => BrightnessBase
    case Some(x) =>
      var v := RoundHalfEven(x);
      if v < BrightnessMin then BrightnessMin
      else if v > BrightnessMax then BrightnessMax
      else v
  }

  function Abs(k: int): nat {
    if k < 0 then -k else k
  }

  /**
   * For a number, the clamp yields the allowed brightness nearest to its rounding;
   * an in-range rounding is kept as it is.
   */
  lemma ClampIsNearest(x: real, m: int)
    requires BrightnessMin <= m <= BrightnessMax
    ensures Abs(ClampBrightness(Some(x)) - RoundHalfEven(x)) <= Abs(m - RoundHalfEven(x))
    ensures BrightnessMin <= RoundHalfEven(x) <= BrightnessMax ==> ClampBrightness(Some(x)) == RoundHalfEven(x)
    ensures RoundHalfEven(x) < BrightnessMin ==> ClampBrightness(Some(x)) == BrightnessMin
    ensures RoundHalfEven(x) > BrightnessMax ==> ClampBrightness(Some(x)) == BrightnessMax
  {
  }

  /** Clamping an already clamped brightness changes nothing. */
  lemma ClampIdempotent(val: Option<real>)
    ensures ClampBrightness(Some(ClampBrightness(val) as real)) == ClampBrightness(val)
  {
    RoundInteger(ClampBrightness(val));
  }

  /**
   * The threshold rule on the squared separation: strictly closer than
   * DistanceThreshold gives BrightnessLow, anything else BrightnessBase.
   */
  function TargetBrightness(distSq: real): (t: int)
    ensures t == BrightnessLow || t == BrightnessBase
  {
    if distSq < Square(DistanceThreshold) then BrightnessLow else BrightnessBase
  }

  /**
   * Stated on the distance itself, as the source compares it: LOW exactly when
   * the distance is below the threshold, so a distance of exactly 50 m gives BASE.
   */
  lemma TargetForDistance(p: Pos, q: Pos, d: real)
    requires IsDistance(p, q, d)
    ensures TargetBrightness(SquaredDistance(p, q)) == (if d < DistanceThreshold then BrightnessLow else BrightnessBase)
    ensures d == DistanceThreshold ==> TargetBrightness(SquaredDistance(p, q)) == BrightnessBase
  {
    BelowIffSquaredBelow(p, q, d, DistanceThreshold);
  }

  /**
   * The target after the defensive clamp, as the loop stores it: still LOW
   * exactly when the pair is close and BASE otherwise.
   */
  function ClampedTarget(distSq: real): (t: int)
    ensures t == BrightnessLow <==> distSq < Square(DistanceThreshold)
    ensures t == BrightnessBase <==> !(distSq < Square(DistanceThreshold))
    ensures BrightnessMin <= t <= BrightnessMax
  {
    var target := TargetBrightness(distSq);
    RoundInteger(target);
    ClampBrightness(Some(target as real))
  }
}
