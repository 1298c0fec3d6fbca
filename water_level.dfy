/**
 * Water-level calibration of the tank screen: the ultrasonic sensor reports
 * the distance (in cm) from the sensor down to the water surface, and the
 * screen turns it into a fill percentage. A surface 5 cm or closer is a full
 * tank, 17 cm or farther is an empty one, and in between the percentage is
 * linear in the distance.
 */
module WaterLevel {

  /** Distance at or below which the tank reads as full. */
  const FullDistance: real := 5.0
  /** Distance at or above which the tank reads as empty. */
  const EmptyDistance: real := 17.0

  /** The fill percentage for a measured distance (the number shown before the `%`). */
  function WaterLevelPercent(distance: real): (level: real)
    ensures 0.0 <= level <= 100.0
  {
    if distance <= FullDistance then 100.0
    else if distance >= EmptyDistance then 0.0
    else ((EmptyDistance - distance) / 12.0) * 100.0
  }

  /** Reference definition: the calibration line, clamped to [0, 100]. */
  function Clamp(x: real, lo: real, hi: real): real
  {
    if x < lo then lo else if x > hi then hi else x
  }

  function CalibrationLine(distance: real): real
  {
    (EmptyDistance - distance) / 12.0 * 100.0
  }

  /** Both cutoffs are inclusive: exactly 100 at and below 5 cm. */
  lemma FullAtOrBelowFive(distance: real)
    requires distance <= 5.0
    ensures WaterLevelPercent(distance) == 100.0
  {
  }

  /** Exactly 0 at and above 17 cm. */
  lemma EmptyAtOrAboveSeventeen(distance: real)
    requires distance >= 17.0
    ensures WaterLevelPercent(distance) == 0.0
  {
  }

  /** Strictly inside the band the level follows the line and is never 0 or 100. */
  lemma InBandIsLinear(distance: real)
    requires 5.0 < distance < 17.0
    ensures WaterLevelPercent(distance) == (17.0 - distance) / 12.0 * 100.0
    ensures 0.0 < WaterLevelPercent(distance) < 100.0
  {
  }

  /** The piecewise definition agrees everywhere with the clamped calibration line,
      so the two cutoffs join the line without a jump. */
  lemma IsClampedLine(distance: real)
    ensures WaterLevelPercent(distance) == Clamp(CalibrationLine(distance), 0.0, 100.0)
  {
  }

  /** The midpoint of the band reads as half full. */
  lemma HalfAtEleven()
    ensures WaterLevelPercent(11.0) == 50.0
  {
  }

  /** A farther water surface never shows a higher level. */
  lemma NonIncreasing(d1: real, d2: real)
    requires d1 <= d2
    ensures WaterLevelPercent(d1) >= WaterLevelPercent(d2)
  {
  }

  /** Inside the band the map is strictly decreasing, hence one-to-one there. */
  lemma StrictlyDecreasingInBand(d1: real, d2: real)
    requires 5.0 <= d1 < d2 <= 17.0
    ensures WaterLevelPercent(d1) > WaterLevelPercent(d2)
  {
  }

  /** The distance that the calibration maps to a given level: the inverse of the line. */
  function DistanceForLevel(level: real): real
  {
    EmptyDistance - level * 12.0 / 100.0
  }

  /** Every percentage from 0 to 100 is shown for some distance, namely
      DistanceForLevel, which lies within the calibrated band. */
  lemma EveryLevelReached(level: real)
    requires 0.0 <= level <= 100.0
    ensures 5.0 <= DistanceForLevel(level) <= 17.0
    ensures WaterLevelPercent(DistanceForLevel(level)) == level
  {
  }

  /** Surjectivity stated as an existential: no level in [0, 100] is unreachable. */
  lemma Onto(level: real)
    requires 0.0 <= level <= 100.0
    ensures exists d :: WaterLevelPercent(d) == level
  {
    EveryLevelReached(level);
  }
}
