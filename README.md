# Artillery calculator: a Dafny model of its correction engine

The calculator helps a spotter aim artillery in a game. The spotter stands at a
fixed point and observes ranges and compass bearings. The model covers the
arithmetic behind the calculator's three modes:

- **Direct mode** (`calculateFiringData`): the artillery piece and the target
  are both observed from the spotter. They are projected onto the map plane
  and subtracted. The difference is read back as a range and bearing, then
  corrected for wind.
- **Triangulation** (`calculateArtilleryPosition`): the target and a shell's
  impact point are observed. The two ranges are subtracted directly. The
  bearing difference is folded once into [-180, 180]. The wind is read along
  the impact bearing.
- **Group fire** (`ArtilleryGroupCalculator`): pieces are placed on a 50 x 20
  grid by double click and moved by dragging. The first piece placed is the
  central one. Every other piece gets a range and bearing correction from its
  grid offset to the central piece. Pieces are numbered, and the distance
  between two pieces is labelled.

Modules:

- `Numerics` (`numerics.dfy`): Math.PI, `Math.round`, the one-decimal rounding
  `Math.round(x * 10) / 10` used for every displayed value, and the truncated
  remainder of JavaScript's `%`. Over `real`.
- `Geometry` (`geometry.dfy`): polar/Cartesian conversion and the single-step
  azimuth normalisation.
- `Wind` (`wind.dfy`): the deviation-per-level table and `calculateWindEffect`.
- `DirectMode` (`direct.dfy`) and `Triangulation` (`triangulation.dfy`).
- `GroupFire` (`group.dfy`): the placement state as a class
  (`GroupCalculator`) whose handlers update its fields, the spec functions
  they are proved against, the corrections, the numbering and the distance.
- `Optional` (`option.dfy`): an Option datatype.

`sin`, `cos`, `atan2` and `sqrt` are fields of a `Math` value passed in, and
nothing about them is known except the predicate `Lawful`:

- `atan2` lies in (-PI, PI];
- `atan2(0, d) = 0` for `d >= 0`;
- `sqrt(x) >= 0` and `sqrt(x) * sqrt(x) = x` for `x >= 0`;
- `sqrt` is monotone.

Every property that relies on one of these says `Lawful(m)`.

Some behaviour of the code is easy to misread; the model follows the code:

- Azimuth deltas land in the closed range [-180, 180]: a delta of -180 is
  left unchanged, as is 180 (`NormalizeDelta`).
- `Math.round` rounds halves toward +infinity, so -0.05 is displayed as 0
  and 0.05 as 0.1 (`Round1NegativeHalf`).
- The wind's relative angle comes from the `%` operator, which keeps the
  sign of its operand, so the angle lies in (-360, 0] when the wind
  direction is more than 540 degrees below the shell azimuth: -1 for a shell
  azimuth of 541 and wind direction 0, and 0 for a shell azimuth of 900
  (`RelativeAngleCanBeNegative`).
- The rounded base bearing of direct mode can read 360.0 for a bearing just
  below 360 (`FiringDataBaseBounds` states [0, 360]).

## Model

| member | source | states |
|---|---|---|
| `Numerics.JsRound` | src/components/ArtilleryCalculator.jsx:753 | `Math.round` gives the integer within half a unit, with halves going up: y - 0.5 < r <= y + 0.5 |
| `Numerics.Round1` | src/components/ArtilleryCalculator.jsx:469-484 | the displayed value is a whole number of tenths and lies in (x - 0.05, x + 0.05] |
| `Numerics.Round1Idempotent` | src/components/ArtilleryCalculator.jsx:1165-1170 | rounding a displayed value again leaves it unchanged |
| `Numerics.Round1HalfUp` | src/components/ArtilleryCalculator.jsx:469-484 | a value exactly halfway between two tenths becomes the upper one |
| `Numerics.Round1NegativeHalf` | src/components/ArtilleryCalculator.jsx:478-484 | -0.05 is displayed as 0 and 0.05 as 0.1 |
| `Numerics.Round1Monotone` | src/components/ArtilleryCalculator.jsx:469-484 | rounding never reverses the order of two values |
| `Numerics.Round1WithinTenths` | src/components/ArtilleryCalculator.jsx:478-479 | a bound that is a whole number of tenths survives rounding |
| `Numerics.Trunc` | src/components/ArtilleryCalculator.jsx:25 | the integer part toward zero, as `%` uses it: for x >= 0 it is the floor, for x < 0 the ceiling, never larger in magnitude than x |
| `Numerics.JsRem360` | src/components/ArtilleryCalculator.jsx:25 | `x % 360` has the sign of x, magnitude below 360, and differs from x by a whole multiple of 360 |
| `Geometry.CompassToRadians` | src/components/ArtilleryCalculator.jsx:4 | compass bearing 90 (east) is angle 0, bearing 0 (north) is PI/2, and bearings below 90 give positive angles |
| `Geometry.PolarToCartesian` | src/components/ArtilleryCalculator.jsx:3-8 | a zero range projects to the origin whatever the bearing |
| `Geometry.CartesianToPolar` | src/components/ArtilleryCalculator.jsx:1123-1128 | the range is non-negative and squares to x² + y²; the bearing is in [0, 360) for every point |
| `Geometry.CartesianToPolarOrigin` | src/components/ArtilleryCalculator.jsx:1123-1128 | the origin gives the defined result range 0, bearing 90 |
| `Geometry.CartesianToPolarEast` | src/components/ArtilleryCalculator.jsx:1123-1128 | a point d metres along +x is at range d, bearing 90 (due east) |
| `Geometry.NormalizeDelta` | src/components/ArtilleryCalculator.jsx:451-455 | the result is the delta or the delta ± 360; a delta in [-540, 540] lands in [-180, 180]; a delta already in [-180, 180], 180 and -180 included, is unchanged; beyond ±540 the result stays outside |
| `Geometry.NormalizeBearingDifference` | src/components/ArtilleryCalculator.jsx:451-455 | the difference of two bearings in [0, 360) normalises into [-180, 180], before and after rounding |
| `Wind.DeviationPerLevel` | src/components/ArtilleryCalculator.jsx:12-17 | the drift per level is 50 m for the 300mm gun and 10 m for the 120mm, 150mm and rocket types; `Wind.HeavyDriftsFiveTimes` states its consequence for the wind effect |
| `Wind.RelativeAngleDegrees` | src/components/ArtilleryCalculator.jsx:25 | the relative wind angle is in [0, 360) when windDirection - shellAzimuth >= -540, and in (-360, 0] below that |
| `Wind.RelativeAngleCanBeNegative` | src/components/ArtilleryCalculator.jsx:1138 | a shell azimuth of 541 with wind direction 0 gives the relative angle -1; a shell azimuth of 900 gives 0 |
| `Wind.WindEffect` | src/components/ArtilleryCalculator.jsx:19-31 | level 0 short-circuits to exactly zero range and deflection |
| `Wind.CalmHasNoEffect` | src/components/ArtilleryCalculator.jsx:1130-1131 | with level 0 the effect is {0, 0} whatever the shell azimuth, wind direction or artillery type |
| `Wind.WindScalesLinearly` | src/components/ArtilleryCalculator.jsx:22-29 | for every level L, both components at level L are L times those at level 1, with the same angle |
| `Wind.WindLevelTwoIsDouble` | src/components/ArtilleryCalculator.jsx:1133-1142 | the effect at level 2 is exactly twice the effect at level 1 |
| `Wind.HeavyDriftsFiveTimes` | src/components/ArtilleryCalculator.jsx:12-17 | the table's 50 m for 300mm against 10 m for the others: the 300mm effect is five times that of any other type |
| `DirectMode.BaseParams` | src/components/ArtilleryCalculator.jsx:1147-1155 | the unrounded firing range is non-negative and its bearing is in [0, 360) |
| `DirectMode.FiringData` | src/components/ArtilleryCalculator.jsx:1146-1173 | all six displayed values (base, wind and adjusted) are whole numbers of tenths; with wind level 0 both wind effects read 0; `FiringDataBaseBounds`, `CalmFiringDataIsBase` and `AdjustedDistanceWithinDrift` state the rest |
| `DirectMode.BaseParamsSamePoint` | src/components/ArtilleryCalculator.jsx:1147-1155 | identical artillery and target observations give the firing vector (0, 0), read back as range 0 and bearing 90 |
| `DirectMode.FiringDataBaseBounds` | src/components/ArtilleryCalculator.jsx:1146-1173 | the displayed base range is non-negative and the displayed base bearing is in [0, 360] |
| `DirectMode.CalmFiringDataIsBase` | src/components/ArtilleryCalculator.jsx:1157-1170 | with wind level 0 the adjusted range and bearing equal the base ones exactly, and both wind effects read 0 |
| `DirectMode.AdjustedDistanceWithinDrift` | src/components/ArtilleryCalculator.jsx:1159-1170 | the displayed adjusted range minus the displayed base range is within 0.1 of the wind's range effect |
| `Triangulation.Triangulate` | src/components/ArtilleryCalculator.jsx:450-489 | with wind level 0 the wind effect shown is zero; a bearing difference already in [-180, 180] is shown only rounded; `TriangulationAzimuthBounded`, `CalmTriangulationIsRaw` and `WindFollowsImpactBearing` state the rest |
| `Triangulation.FinalDistanceWithinDrift` | src/components/ArtilleryCalculator.jsx:458-478 | the displayed final range correction minus the displayed raw range correction is within 0.1 of the wind's unrounded range effect along the impact bearing |
| `Triangulation.TriangulationAzimuthBounded` | src/components/ArtilleryCalculator.jsx:449-455 | when the bearing difference is within ±540, the displayed raw azimuth correction is in [-180, 180] |
| `Triangulation.CalculateArtilleryPosition` | src/components/ArtilleryCalculator.jsx:444-489 | a result is produced exactly when all four fields are filled in, and it is then `Triangulate` of the four numbers |
| `Triangulation.CalmTriangulationIsRaw` | src/components/ArtilleryCalculator.jsx:458-474 | with wind level 0 and a non-negative impact range, the final correction is {round1(td - id), round1(normalised Δaz)}, equals the raw correction, and the wind effect shown is zero |
| `Triangulation.TriangulationCalmExample` | src/components/ArtilleryCalculator.jsx:444-474 | target 100 m at 50°, impact 90 m at 45°, no wind: the final correction is +10 m, +5° |
| `Triangulation.WindFollowsImpactBearing` | src/components/ArtilleryCalculator.jsx:458-463 | the wind effect does not depend on the target observation |
| `GroupFire.FindIndex` | src/components/ArtilleryCalculator.jsx:673-675 | the result is -1 exactly when no element satisfies the test; otherwise it is the first element that does |
| `GroupFire.UnitAtCell` | src/components/ArtilleryCalculator.jsx:673-675 | -1 exactly when no piece stands on the cell; otherwise the first piece in list order on that cell |
| `GroupFire.RemoveAt` | src/components/ArtilleryCalculator.jsx:679 | the filter drops exactly position k and keeps the rest in order |
| `GroupFire.GridClick` | src/components/ArtilleryCalculator.jsx:662-696 | a click off the grid changes nothing; the list grows or shrinks by at most one; the first piece placed is central |
| `GroupFire.GridClickKeepsInvariant` | src/components/ArtilleryCalculator.jsx:662-696 | any click keeps the placement invariant (central piece first, no other central piece) and every piece on the grid; a non-empty list keeps its first piece |
| `GroupFire.RemoveSiblingKeepsInvariant` | src/components/ArtilleryCalculator.jsx:677-679 | removing a non-central piece keeps the invariant, the grid bound and the first piece |
| `GroupFire.AppendKeepsInvariant` | src/components/ArtilleryCalculator.jsx:680-688 | appending a piece that is central exactly when the list was empty keeps the invariant, keeps pieces on the grid and keeps the first piece |
| `GroupFire.GridClickKeepsCentral` | src/components/ArtilleryCalculator.jsx:677-679 | every central piece is still in the list after any click |
| `GroupFire.FirstClickPlacesNothing` | src/components/ArtilleryCalculator.jsx:693-696 | a click that is not the second of a double click only records cell and time |
| `GroupFire.DoubleClickOnEmptyCellAdds` | src/components/ArtilleryCalculator.jsx:680-692 | a double click on an empty cell appends one piece there, central exactly when the list was empty, and resets the remembered click to time 0 and no cell |
| `GroupFire.DoubleClickOnSiblingRemoves` | src/components/ArtilleryCalculator.jsx:677-692 | a double click on a non-central piece removes exactly that piece, keeping the others in order, and resets the remembered click |
| `GroupFire.DoubleClickOnCentralIgnored` | src/components/ArtilleryCalculator.jsx:677-678 | a double click on the central piece changes nothing, not even the remembered click |
| `GroupFire.MoveUnit` | src/components/ArtilleryCalculator.jsx:719-724 | pieces with the dragged id move to the new cell; ids, centrality, corrections, order and every other piece are unchanged |
| `GroupFire.MoveUnitKeepsInvariant` | src/components/ArtilleryCalculator.jsx:719-725 | moving onto the grid keeps the placement invariant and every piece on the grid |
| `GroupFire.SiblingCorrection` | src/components/ArtilleryCalculator.jsx:765-788 | both displayed corrections are whole numbers of tenths; `SiblingCorrectionBounds` and `SiblingOnCentralCell` state their bounds |
| `GroupFire.SiblingCorrectionBounds` | src/components/ArtilleryCalculator.jsx:768-790 | with a non-negative central range, a sibling's range correction is in [0, round1(abs(dx) + abs(dy))]; with a central bearing in [0, 360), its bearing correction is in [-180, 180] |
| `GroupFire.OffsetRangeBounds` | src/components/ArtilleryCalculator.jsx:777 | the offset range sqrt(b² + dx² + dy²) lies between b and b + abs(dx) + abs(dy) |
| `GroupFire.SiblingOnCentralCell` | src/components/ArtilleryCalculator.jsx:777-786 | a sibling on the central piece's cell gets range correction 0 |
| `GroupFire.CorrectUnit` | src/components/ArtilleryCalculator.jsx:761-790 | one element of the map: id, cell and centrality kept; the central piece gets {0, 0}, a sibling the correction of its offset from the central piece |
| `GroupFire.WithCorrections` | src/components/ArtilleryCalculator.jsx:761-790 | the length, order, ids, cells and centrality are kept; a central piece gets {0, 0}; each sibling gets the correction of its own offset from the central piece |
| `GroupFire.CorrectionsNonNegative` | src/components/ArtilleryCalculator.jsx:757-792 | with a non-negative central range no piece gets a negative range correction |
| `GroupFire.NonCentralCount` | src/components/ArtilleryCalculator.jsx:738-744 | the count is at most the length; it is 0 exactly when every piece is central and the length exactly when none is |
| `GroupFire.NonCentralCountOfPrefix` | src/components/ArtilleryCalculator.jsx:738-744 | under the placement invariant the first k pieces hold k - 1 non-central ones |
| `GroupFire.ArtilleryNumber` | src/components/ArtilleryCalculator.jsx:733-748 | the central piece is 1; any other is 2 plus the non-central pieces before it; under the placement invariant the number is position + 1, so numbers are distinct |
| `GroupFire.Distance` | src/components/ArtilleryCalculator.jsx:750-754 | the label is never negative; `DistanceBounds`, `DistanceSymmetric` and `DistanceToSelf` state the rest |
| `GroupFire.DistanceBounds` | src/components/ArtilleryCalculator.jsx:750-754 | the distance label is at least the larger axis offset and at most their sum |
| `GroupFire.RoundedNormBounds` | src/components/ArtilleryCalculator.jsx:753 | for whole dx and dy, `Math.round(sqrt(dx² + dy²))` lies between max(abs(dx), abs(dy)) and abs(dx) + abs(dy) |
| `GroupFire.DistanceSymmetric` | src/components/ArtilleryCalculator.jsx:750-754 | the distance does not depend on the order of the two pieces |
| `GroupFire.DistanceToSelf` | src/components/ArtilleryCalculator.jsx:750-754 | a piece is at distance 0 from itself |
| `GroupFire.GroupCalculator.constructor` | src/components/ArtilleryCalculator.jsx:631-641 | the initial state is an empty list, no drag and no remembered click |
| `GroupFire.GroupCalculator.HandleGridClick` | src/components/ArtilleryCalculator.jsx:643-697 | the new list and remembered click are `GridClick` of the old ones, so each of the branch lemmas above describes the new state; the drag fields are untouched; the class invariant is kept |
| `GroupFire.GroupCalculator.HandleDragStart` | src/components/ArtilleryCalculator.jsx:699-703 | records the dragged piece and starts dragging |
| `GroupFire.GroupCalculator.HandleDrag` | src/components/ArtilleryCalculator.jsx:705-726 | outside a drag or off the grid nothing changes; otherwise the list becomes `MoveUnit` of the old one; the class invariant is kept |
| `GroupFire.GroupCalculator.HandleDragEnd` | src/components/ArtilleryCalculator.jsx:728-731 | clears the dragged piece and stops dragging |
| `GroupFire.GroupCalculator.CalculateCorrections` | src/components/ArtilleryCalculator.jsx:757-793 | without a central piece the list is unchanged; otherwise it becomes `WithCorrections` relative to the first central piece; the class invariant is kept |

## Left out

- Rendering is left out: cards, maps, the compass, the wind guide, the grid drawing and `src/App.js`. They compute nothing that is displayed as a correction.
- The DOM work in the click and drag handlers is left out. This covers `DOMPoint`, `getScreenCTM().inverse()` and the conversion of screen points to grid cells. The handlers take the rounded grid cell as input.
- The clock (`new Date().getTime()`) and the new piece's id (`Date.now()`) are parameters.
- The form fields are left out. Text is parsed to numbers with `Number(...)`: the wind level becomes a `nat` from the select's options 0 to 5, and the artillery type becomes an enumeration. An empty direct-mode field reads as 0 through `Number('')`, which `FiringData` covers as the input 0.0. Only an artillery key outside the table would give `NaN`, and the select offers none. The central piece's range and bearing are parameters of `CalculateCorrections`.
- Floating point is not modelled: all arithmetic is over `real`. IEEE rounding of `x * 10`, the sign of zero and `NaN` are absent.
- `sin`, `cos`, `atan2` and `sqrt` are known only through `Lawful`. So the polar→Cartesian→polar round trip, the magnitude of the wind vector and the result for the calculator's default inputs (artillery 100 m at 180°, target 80 m at 90°, lines 1100-1103) are not stated. They need trigonometric identities and values.
- `Geometry.PolarToCartesian`: states only the zero-range case, because its coordinates depend on `sin` and `cos` alone.
- React's state setters and re-render scheduling are left out. Each handler assigns the fields directly, and each reads the state as the previous handler left it.
- `GroupFire.UnitAtCell`: the source's `Math.abs(art.x - x) < 1` test is written for whole-cell coordinates. Every placed or dragged piece is on a whole cell, so the test means "on the same cell".
- Uniqueness of piece ids is not part of the invariant. `MoveUnit` moves every piece carrying the dragged id, as the source's `map` does.
