/** The simplified wind model: each artillery class drifts a fixed number
    of metres per wind level, split into a component along the line of
    fire (range) and one across it (deflection). */
module Wind {
  import opened Numerics

  /** The four entries of the deviation-per-level table. */
  datatype ArtilleryType = Gun120 | Gun150 | Rocket | Gun300

  /** Metres of drift per wind level. */
  function DeviationPerLevel(t: ArtilleryType): (r: real)
    ensures t == Gun300 ==> r == 50.0
    ensures t != Gun300 ==> r == 10.0
  {
    match t
    case Gun120 => 10.0
    case Gun150 => 10.0
    case Rocket => 10.0
    case Gun300 => 50.0
  }

  datatype WindVector = WindVector(range: real, deflection: real)

  const Calm: WindVector := WindVector(0.0, 0.0)

  /** The wind's direction relative to the shell's line of fire, in
      degrees, as the `%` operator computes it. Inside [0, 360) when the
      wind direction is at most 540 degrees below the shell's azimuth;
      below that the remainder lies in (-360, 0]. */
  function RelativeAngleDegrees(shellAzimuth: real, windDirection: real): (r: real)
    ensures windDirection - shellAzimuth >= -540.0 ==> 0.0 <= r < 360.0
    ensures windDirection - shellAzimuth < -540.0 ==> -360.0 < r <= 0.0
  {
    JsRem360(windDirection - shellAzimuth + 180.0 + 360.0)
  }

  /** calculateWindEffect. Level 0 short-circuits to no effect at all;
      otherwise the total drift (deviation times level) is projected on
      the relative angle. */
  function WindEffect(m: Math, shellAzimuth: real, windDirection: real, level: nat, t: ArtilleryType): (w: WindVector)
    ensures level == 0 ==> w == Calm
  {
    if level == 0 then Calm
    else
      var totalDeviation := DeviationPerLevel(t) * level as real;
      var relativeAngle := RelativeAngleDegrees(shellAzimuth, windDirection) * PI / 180.0;
      WindVector(totalDeviation * m.cos(relativeAngle), totalDeviation * m.sin(relativeAngle))
  }

  /** Zero wind gives exactly zero effect, whatever the other inputs. */
  lemma CalmHasNoEffect(m: Math, shellAzimuth: real, windDirection: real, t: ArtilleryType)
    ensures WindEffect(m, shellAzimuth, windDirection, 0, t) == Calm
  {
  }

  /** The effect grows linearly with the level: level L gives L times the
      effect of level 1, in both components and with the same angle. */
  lemma WindScalesLinearly(m: Math, shellAzimuth: real, windDirection: real, level: nat, t: ArtilleryType)
    ensures WindEffect(m, shellAzimuth, windDirection, level, t).range
         == level as real * WindEffect(m, shellAzimuth, windDirection, 1, t).range
    ensures WindEffect(m, shellAzimuth, windDirection, level, t).deflection
         == level as real * WindEffect(m, shellAzimuth, windDirection, 1, t).deflection
  {
    if level != 0 {
      var theta := RelativeAngleDegrees(shellAzimuth, windDirection) * PI / 180.0;
      var d := DeviationPerLevel(t);
      assert (d * level as real) * m.cos(theta) == level as real * ((d * 1 as real) * m.cos(theta));
      assert (d * level as real) * m.sin(theta) == level as real * ((d * 1 as real) * m.sin(theta));
    }
  }

  /** Level 2 is exactly twice level 1. */
  lemma WindLevelTwoIsDouble(m: Math, shellAzimuth: real, windDirection: real, t: ArtilleryType)
    ensures WindEffect(m, shellAzimuth, windDirection, 2, t)
         == WindVector(2.0 * WindEffect(m, shellAzimuth, windDirection, 1, t).range,
                       2.0 * WindEffect(m, shellAzimuth, windDirection, 1, t).deflection)
  {
    WindScalesLinearly(m, shellAzimuth, windDirection, 2, t);
  }

  /** The heavy class drifts five times as far as any of the others. */
  lemma HeavyDriftsFiveTimes(m: Math, shellAzimuth: real, windDirection: real, level: nat, t: ArtilleryType)
    requires t != Gun300
    ensures WindEffect(m, shellAzimuth, windDirection, level, Gun300).range
         == 5.0 * WindEffect(m, shellAzimuth, windDirection, level, t).range
    ensures WindEffect(m, shellAzimuth, windDirection, level, Gun300).deflection
         == 5.0 * WindEffect(m, shellAzimuth, windDirection, level, t).deflection
  {
  }

  /** With a wind direction far below the shell azimuth the remainder is
      not normalised into [0, 360): it goes negative, or reads 0 where the
      difference is a whole number of turns. */
  lemma RelativeAngleCanBeNegative()
    ensures RelativeAngleDegrees(541.0, 0.0) == -1.0
    ensures RelativeAngleDegrees(900.0, 0.0) == 0.0
  {
  }
}
