/** Coordinate transforms between the spotter's polar observations
    (distance, compass azimuth) and the map plane (x east, y north), and
    the single-step folding of an azimuth difference into [-180, 180]. */
module Geometry {
  import opened Numerics

  /** A range/bearing observation from the spotter; azimuth in degrees,
      0 = north, increasing clockwise. */
  datatype Polar = Polar(distance: real, azimuth: real)

  datatype Cartesian = Cartesian(x: real, y: real)

  /** A signed change of range (metres) and bearing (degrees). */
  datatype Correction = Correction(distance: real, azimuth: real)

  /** Compass degrees to the mathematical angle, in radians. */
  function CompassToRadians(azimuth: real): (r: real)
    ensures azimuth == 90.0 ==> r == 0.0
    ensures azimuth == 0.0 ==> r == PI / 2.0
    ensures azimuth < 90.0 <==> 0.0 < r
  {
    (90.0 - azimuth) * PI / 180.0
  }

  /** polarToCartesian */
  function PolarToCartesian(m: Math, p: Polar): (c: Cartesian)
    ensures p.distance == 0.0 ==> c == Cartesian(0.0, 0.0)
  {
    var angle := CompassToRadians(p.azimuth);
    Cartesian(p.distance * m.cos(angle), p.distance * m.sin(angle))
  }

  /** cartesianToPolar: the distance is the Euclidean norm and the
      azimuth is a compass bearing in [0, 360), whatever the point. */
  function CartesianToPolar(m: Math, c: Cartesian): (p: Polar)
    ensures Lawful(m) ==> 0.0 <= p.distance
    ensures Lawful(m) ==> p.distance * p.distance == c.x * c.x + c.y * c.y
    ensures Lawful(m) ==> 0.0 <= p.azimuth < 360.0
  {
    var distance := m.sqrt(c.x * c.x + c.y * c.y);
    var azimuth := 90.0 - m.atan2(c.y, c.x) * 180.0 / PI;
    Polar(distance, if azimuth < 0.0 then azimuth + 360.0 else azimuth)
  }

  /** The origin is a degenerate but defined point: distance 0, bearing 90. */
  lemma CartesianToPolarOrigin(m: Math)
    requires Lawful(m)
    ensures CartesianToPolar(m, Cartesian(0.0, 0.0)) == Polar(0.0, 90.0)
  {
    SqrtOfSquare(m, 0.0);
  }

  /** The bearing of a point on the positive x axis is due east. */
  lemma CartesianToPolarEast(m: Math, d: real)
    requires Lawful(m)
    requires 0.0 <= d
    ensures CartesianToPolar(m, Cartesian(d, 0.0)) == Polar(d, 90.0)
  {
    SqrtOfSquare(m, d);
  }

  /** The single-step azimuth normalisation: subtract 360 above 180, then
      add 360 below -180. */
  function NormalizeDelta(delta: real): (r: real)
    ensures r == delta || r == delta - 360.0 || r == delta + 360.0
    ensures -540.0 <= delta <= 540.0 ==> -180.0 <= r <= 180.0
    ensures -180.0 <= delta <= 180.0 ==> r == delta
    ensures delta > 540.0 ==> r > 180.0
    ensures delta < -540.0 ==> r < -180.0
  {
    var once := if delta > 180.0 then delta - 360.0 else delta;
    if once < -180.0 then once + 360.0 else once
  }

  /** The difference of two bearings in [0, 360) always qualifies, so it
      is folded into the closed half-turn range. */
  lemma NormalizeBearingDifference(a: real, b: real)
    requires 0.0 <= a < 360.0 && 0.0 <= b < 360.0
    ensures -180.0 <= NormalizeDelta(a - b) <= 180.0
    ensures Round1(NormalizeDelta(a - b)) <= 180.0
    ensures -180.0 <= Round1(NormalizeDelta(a - b))
  {
    Round1WithinTenths(NormalizeDelta(a - b), -1800, 1800);
  }
}
