/** Triangulation mode (calculateArtilleryPosition): from the observed
    target and the observed impact point, both polar from the spotter, the
    correction to walk the next shell onto the target. Ranges are
    subtracted directly, bearings through the single-step normalisation,
    and the wind is taken along the impact bearing. */
module Triangulation {
  import opened Numerics
  import opened Geometry
  import opened Wind
  import opened Optional

  /** Everything the mode displays, each value rounded to one decimal. */
  datatype TriangulationResult = TriangulationResult(
    correctionDistance: real,
    correctionAzimuth: real,
    windEffect: WindVector,
    finalCorrection: Correction)

  /** The four text fields; None is a field left empty. */
  datatype Observations = Observations(
    targetDistance: Option<real>,
    targetAzimuth: Option<real>,
    impactDistance: Option<real>,
    impactAzimuth: Option<real>)

  /** The correction from the four numbers, once all are present. */
  function Triangulate(m: Math, target: Polar, impact: Polar, windDirection: real, windLevel: nat, t: ArtilleryType)
    : (r: TriangulationResult)
    ensures windLevel == 0 ==> r.windEffect == Calm
    ensures -180.0 <= target.azimuth - impact.azimuth <= 180.0 ==>
      r.correctionAzimuth == Round1(target.azimuth - impact.azimuth)
  {
    var correctionDistance := target.distance - impact.distance;
    var correctionAzimuth := NormalizeDelta(target.azimuth - impact.azimuth);
    var wind := WindEffect(m, impact.azimuth, windDirection, windLevel, t);
    var finalCorrection := Correction(
      Round1(correctionDistance + wind.range),
      Round1(correctionAzimuth + m.atan2(wind.deflection, impact.distance) * 180.0 / PI));
    TriangulationResult(
      Round1(correctionDistance),
      Round1(correctionAzimuth),
      WindVector(Round1(wind.range), Round1(wind.deflection)),
      finalCorrection)
  }

  /** The displayed final range correction differs from the displayed raw
      one by the wind's range effect along the impact bearing, up to the
      two roundings. */
  lemma FinalDistanceWithinDrift(m: Math, target: Polar, impact: Polar, windDirection: real, windLevel: nat, t: ArtilleryType)
    ensures var r := Triangulate(m, target, impact, windDirection, windLevel, t);
      var w := WindEffect(m, impact.azimuth, windDirection, windLevel, t);
      r.finalCorrection.distance - r.correctionDistance < w.range + 0.1 &&
      w.range - 0.1 < r.finalCorrection.distance - r.correctionDistance
  {
  }

  /** For bearing differences the normalisation can fold, the displayed raw
      azimuth correction falls in [-180, 180]. */
  lemma TriangulationAzimuthBounded(m: Math, target: Polar, impact: Polar, windDirection: real, windLevel: nat, t: ArtilleryType)
    requires -540.0 <= target.azimuth - impact.azimuth <= 540.0
    ensures -180.0 <= Triangulate(m, target, impact, windDirection, windLevel, t).correctionAzimuth <= 180.0
  {
    Round1WithinTenths(NormalizeDelta(target.azimuth - impact.azimuth), -1800, 1800);
  }

  /** calculateArtilleryPosition: nothing new is shown while any of the
      four fields is empty. */
  function CalculateArtilleryPosition(m: Math, fields: Observations, windDirection: real, windLevel: nat, t: ArtilleryType)
    : (r: Option<TriangulationResult>)
    ensures r.Some? <==>
      fields.targetDistance.Some? && fields.targetAzimuth.Some? &&
      fields.impactDistance.Some? && fields.impactAzimuth.Some?
    ensures r.Some? ==> r.value == Triangulate(m,
      Polar(fields.targetDistance.value, fields.targetAzimuth.value),
      Polar(fields.impactDistance.value, fields.impactAzimuth.value),
      windDirection, windLevel, t)
  {
    match fields
    case Observations(Some(td), Some(ta), Some(id), Some(ia)) =>
      Some(Triangulate(m, Polar(td, ta), Polar(id, ia), windDirection, windLevel, t))
    case _ => None
  }

  /** With no wind and a non-negative impact range, the final correction
      is the rounded range difference and the rounded normalised bearing
      difference, the same as the raw correction. */
  lemma CalmTriangulationIsRaw(m: Math, target: Polar, impact: Polar, windDirection: real, t: ArtilleryType)
    requires Lawful(m)
    requires 0.0 <= impact.distance
    ensures var r := Triangulate(m, target, impact, windDirection, 0, t);
      r.finalCorrection == Correction(
        Round1(target.distance - impact.distance),
        Round1(NormalizeDelta(target.azimuth - impact.azimuth))) &&
      r.finalCorrection == Correction(r.correctionDistance, r.correctionAzimuth) &&
      r.windEffect == Calm
  {
    assert m.atan2(0.0, impact.distance) == 0.0;
  }

  /** A target at 100 m bearing 50 and an impact at 90 m bearing 45, with
      no wind, call for 10 m more range and 5 degrees to the right. */
  lemma TriangulationCalmExample(m: Math, windDirection: real, t: ArtilleryType)
    requires Lawful(m)
    ensures Triangulate(m, Polar(100.0, 50.0), Polar(90.0, 45.0), windDirection, 0, t).finalCorrection
         == Correction(10.0, 5.0)
  {
    CalmTriangulationIsRaw(m, Polar(100.0, 50.0), Polar(90.0, 45.0), windDirection, t);
    assert JsRound(100.0) == 100;
    assert JsRound(50.0) == 50;
  }

  /** The wind is read along the impact bearing, so the target's bearing
      and range do not change the wind effect shown. */
  lemma WindFollowsImpactBearing(m: Math, target1: Polar, target2: Polar, impact: Polar, windDirection: real, windLevel: nat, t: ArtilleryType)
    ensures Triangulate(m, target1, impact, windDirection, windLevel, t).windEffect
         == Triangulate(m, target2, impact, windDirection, windLevel, t).windEffect
  {
  }
}
