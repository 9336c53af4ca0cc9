/**
 * The fixed configuration of the brightness controller (car_light.py, lines 24-33):
 * the monitored vehicle pairs, the brightness setpoints and bounds, and the
 * proximity threshold.
 */
module Config {
  /** Brightness (lm) a vehicle keeps while its partner is far away. */
  const BrightnessBase: int := 400
  /** Brightness (lm) both vehicles of a pair get while they are close. */
  const BrightnessLow: int := 250
  /** Lower bound of every brightness the controller hands out. */
  const BrightnessMin: int := 200
  /** Upper bound of every brightness the controller hands out. */
  const BrightnessMax: int := 600
  /** Separation (m) below which a pair counts as close. */
  const DistanceThreshold: real := 50.0

  /** Two vehicle ids watched together; the order is kept in the log. */
  datatype Pair = Pair(v1: string, v2: string)

  /** A and B drive east-west towards each other, C and D north-south. */
  const VehPairList: seq<Pair> := [Pair("A", "B"), Pair("C", "D")]

  /** The configuration is consistent: MIN <= LOW <= BASE <= MAX. */
  lemma SetpointsOrdered()
    ensures BrightnessMin <= BrightnessLow <= BrightnessBase <= BrightnessMax
  {
  }
}
