/** Direct mode (calculateFiringData): the artillery piece and the target
    are both observed from the spotter; the firing vector is their
    difference on the map, read back as a range and bearing and then
    corrected for wind. */
module DirectMode {
  import opened Numerics
  import opened Geometry
  import opened Wind

  /** The six displayed values, each rounded to one decimal. */
  datatype FiringSolution = FiringSolution(
    baseDistance: real,
    baseAzimuth: real,
    windRangeEffect: real,
    windDeflectionEffect: real,
    adjustedDistance: real,
    adjustedAzimuth: real)

  /** The firing vector from the artillery piece to the target, as the
      unrounded range and bearing. */
  function BaseParams(m: Math, artillery: Polar, target: Polar): (p: Polar)
    ensures Lawful(m) ==> 0.0 <= p.distance && 0.0 <= p.azimuth < 360.0
  {
    var a := PolarToCartesian(m, artillery);
    var b := PolarToCartesian(m, target);
    CartesianToPolar(m, Cartesian(b.x - a.x, b.y - a.y))
  }

  /** calculateFiringData: every displayed value is a whole number of
      tenths, and with no wind both wind effects read zero. */
  function FiringData(m: Math, artillery: Polar, target: Polar, windDirection: real, windLevel: nat, t: ArtilleryType)
    : (s: FiringSolution)
    ensures windLevel == 0 ==> s.windRangeEffect == 0.0 && s.windDeflectionEffect == 0.0
    ensures (s.windRangeEffect * 10.0).Floor as real == s.windRangeEffect * 10.0
    ensures (s.windDeflectionEffect * 10.0).Floor as real == s.windDeflectionEffect * 10.0
    ensures (s.baseDistance * 10.0).Floor as real == s.baseDistance * 10.0
    ensures (s.baseAzimuth * 10.0).Floor as real == s.baseAzimuth * 10.0
    ensures (s.adjustedDistance * 10.0).Floor as real == s.adjustedDistance * 10.0
    ensures (s.adjustedAzimuth * 10.0).Floor as real == s.adjustedAzimuth * 10.0
  {
    var base := BaseParams(m, artillery, target);
    var wind := WindEffect(m, base.azimuth, windDirection, windLevel, t);
    var adjustedDistance := base.distance + wind.range;
    var adjustedAzimuth := base.azimuth + m.atan2(wind.deflection, base.distance) * 180.0 / PI;
    FiringSolution(
      Round1(base.distance), Round1(base.azimuth),
      Round1(wind.range), Round1(wind.deflection),
      Round1(adjustedDistance), Round1(adjustedAzimuth))
  }

  /** Identical artillery and target observations give the degenerate
      firing vector (0, 0), which reads back as range 0, bearing 90. */
  lemma BaseParamsSamePoint(m: Math, p: Polar)
    requires Lawful(m)
    ensures BaseParams(m, p, p) == Polar(0.0, 90.0)
  {
    CartesianToPolarOrigin(m);
  }

  /** The displayed base range is never negative and the displayed base
      bearing lies in [0, 360]; rounding can show 360.0 for a bearing just
      under 360. */
  lemma FiringDataBaseBounds(m: Math, artillery: Polar, target: Polar, windDirection: real, windLevel: nat, t: ArtilleryType)
    requires Lawful(m)
    ensures var s := FiringData(m, artillery, target, windDirection, windLevel, t);
      0.0 <= s.baseDistance && 0.0 <= s.baseAzimuth <= 360.0
  {
    var base := BaseParams(m, artillery, target);
    Round1Monotone(0.0, base.distance);
    Round1WithinTenths(base.azimuth, 0, 3600);
  }

  /** With no wind the adjusted solution is exactly the base solution and
      both wind effects read zero. */
  lemma CalmFiringDataIsBase(m: Math, artillery: Polar, target: Polar, windDirection: real, t: ArtilleryType)
    requires Lawful(m)
    ensures var s := FiringData(m, artillery, target, windDirection, 0, t);
      s.adjustedDistance == s.baseDistance && s.adjustedAzimuth == s.baseAzimuth &&
      s.windRangeEffect == 0.0 && s.windDeflectionEffect == 0.0
  {
    var base := BaseParams(m, artillery, target);
    assert m.atan2(0.0, base.distance) == 0.0;
  }

  /** The displayed adjusted range differs from the displayed base range
      by the wind's range effect, up to the two roundings. */
  lemma AdjustedDistanceWithinDrift(m: Math, artillery: Polar, target: Polar, windDirection: real, windLevel: nat, t: ArtilleryType)
    requires Lawful(m)
    ensures var s := FiringData(m, artillery, target, windDirection, windLevel, t);
      var base := BaseParams(m, artillery, target);
      var wind := WindEffect(m, base.azimuth, windDirection, windLevel, t);
      s.adjustedDistance - s.baseDistance < wind.range + 0.1 &&
      wind.range - 0.1 < s.adjustedDistance - s.baseDistance
  {
  }
}
