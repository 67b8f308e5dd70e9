/** Group fire (ArtilleryGroupCalculator): artillery pieces are placed on a
    50 x 20 grid of one-metre cells; the first one placed is the central
    piece, whose firing solution is entered by hand, and every other
    piece gets a range and bearing correction from its grid offset. */
module GroupFire {
  import opened Numerics
  import opened Geometry
  import opened Optional

  const GridSizeX: int := 50
  const GridSizeY: int := 20
  /** Metres per grid cell. */
  const CellSize: int := 1
  /** Two clicks on the same cell closer together than this are a double click. */
  const DoubleClickMillis: int := 300

  datatype GridPoint = GridPoint(x: int, y: int)

  /** One placed piece; x and y are whole grid cells. */
  datatype Unit = Unit(id: int, x: int, y: int, isCentral: bool, correction: Correction)

  const NoCorrection: Correction := Correction(0.0, 0.0)

  predicate OnGrid(x: int, y: int)
  {
    0 <= x <= GridSizeX && 0 <= y <= GridSizeY
  }

  predicate AllOnGrid(units: seq<Unit>)
  {
    forall i :: 0 <= i < |units| ==> OnGrid(units[i].x, units[i].y)
  }

  /** The placement invariant: a non-empty group starts with its central
      piece and has no other. */
  predicate CentralFirst(units: seq<Unit>)
  {
    |units| > 0 ==> units[0].isCentral && forall i :: 0 < i < |units| ==> !units[i].isCentral
  }

  /** Array.prototype.findIndex: the first position satisfying p, or -1. */
  function FindIndex<T>(s: seq<T>, p: T -> bool): (r: int)
    ensures -1 <= r < |s|
    ensures r == -1 <==> forall j :: 0 <= j < |s| ==> !p(s[j])
    ensures 0 <= r ==> p(s[r]) && forall j :: 0 <= j < r ==> !p(s[j])
  {
    if |s| == 0 then -1
    else if p(s[0]) then 0
    else
      var k := FindIndex(s[1..], p);
      if k == -1 then -1 else k + 1
  }

  function IsCentral(u: Unit): (b: bool)
    ensures b <==> u.isCentral
  {
    u.isCentral
  }

  /** The piece on cell (x, y): coordinates are whole cells, so being less
      than one cell away on both axes is being on that cell. */
  function UnitAtCell(units: seq<Unit>, x: int, y: int): (r: int)
    ensures -1 <= r < |units|
    ensures r == -1 <==> forall j :: 0 <= j < |units| ==> !(units[j].x == x && units[j].y == y)
    ensures 0 <= r ==> units[r].x == x && units[r].y == y
    ensures 0 <= r ==> forall j :: 0 <= j < r ==> !(units[j].x == x && units[j].y == y)
  {
    FindIndex(units, (u: Unit) => -1 < u.x - x < 1 && -1 < u.y - y < 1)
  }

  /** The list without the element at position k (filter on the index). */
  function RemoveAt(units: seq<Unit>, k: nat): (r: seq<Unit>)
    requires k < |units|
    ensures |r| == |units| - 1
    ensures forall i :: 0 <= i < k ==> r[i] == units[i]
    ensures forall i :: k <= i < |r| ==> r[i] == units[i + 1]
  {
    units[..k] + units[k + 1..]
  }

  // ---------------------------------------------------------------------
  // Placement by double click

  /** The part of the calculator's state that a click changes. */
  datatype Placement = Placement(artillery: seq<Unit>, lastClickTime: int, lastClickPosition: Option<GridPoint>)

  /** handleGridClick, given the rounded grid cell, the clock and the id the
      new piece would get. A second click on the same cell within 300 ms
      removes the piece there (unless it is the central one) or places a new
      one; any other click on the grid only remembers where and when. */
  function GridClick(s: Placement, x: int, y: int, now: int, newId: int): (r: Placement)
    ensures !OnGrid(x, y) ==> r == s
    ensures |s.artillery| - 1 <= |r.artillery| <= |s.artillery| + 1
    ensures |s.artillery| == 0 && |r.artillery| == 1 ==> r.artillery[0] == Unit(newId, x, y, true, NoCorrection)
  {
    if !OnGrid(x, y) then s
    else if s.lastClickPosition == Some(GridPoint(x, y)) && now - s.lastClickTime < DoubleClickMillis then
      var k := UnitAtCell(s.artillery, x, y);
      if k != -1 && s.artillery[k].isCentral then s
      else if k != -1 then Placement(RemoveAt(s.artillery, k), 0, None)
      else Placement(s.artillery + [Unit(newId, x, y, |s.artillery| == 0, NoCorrection)], 0, None)
    else Placement(s.artillery, now, Some(GridPoint(x, y)))
  }

  /** A click keeps the placement invariant and keeps every piece on the
      grid; a non-empty list keeps its first (central) piece in first place. */
  lemma GridClickKeepsInvariant(s: Placement, x: int, y: int, now: int, newId: int)
    ensures var r := GridClick(s, x, y, now, newId);
      (CentralFirst(s.artillery) ==> CentralFirst(r.artillery)) &&
      (AllOnGrid(s.artillery) ==> AllOnGrid(r.artillery)) &&
      (CentralFirst(s.artillery) && |s.artillery| > 0 ==> |r.artillery| > 0 && r.artillery[0] == s.artillery[0])
  {
    if OnGrid(x, y) && s.lastClickPosition == Some(GridPoint(x, y)) && now - s.lastClickTime < DoubleClickMillis {
      var k := UnitAtCell(s.artillery, x, y);
      if k != -1 && !s.artillery[k].isCentral {
        RemoveSiblingKeepsInvariant(s.artillery, k);
      } else if k == -1 {
        AppendKeepsInvariant(s.artillery, Unit(newId, x, y, |s.artillery| == 0, NoCorrection));
      }
    }
  }

  /** Removing a non-central piece keeps the invariant and the first piece. */
  lemma RemoveSiblingKeepsInvariant(units: seq<Unit>, k: nat)
    requires k < |units| && !units[k].isCentral
    ensures CentralFirst(units) ==> CentralFirst(RemoveAt(units, k))
    ensures AllOnGrid(units) ==> AllOnGrid(RemoveAt(units, k))
    ensures CentralFirst(units) ==> |RemoveAt(units, k)| > 0 && RemoveAt(units, k)[0] == units[0]
  {
    var r := RemoveAt(units, k);
    if CentralFirst(units) {
      assert k != 0;
      assert r[0] == units[0];
    }
  }

  /** Appending a piece that is central exactly when the list is empty
      keeps the invariant and the first piece. */
  lemma AppendKeepsInvariant(units: seq<Unit>, u: Unit)
    requires u.isCentral <==> |units| == 0
    ensures CentralFirst(units) ==> CentralFirst(units + [u])
    ensures AllOnGrid(units) && OnGrid(u.x, u.y) ==> AllOnGrid(units + [u])
    ensures |units| > 0 ==> (units + [u])[0] == units[0]
  {
  }

  /** A click never removes the central piece: every central piece before a
      click is still in the list after it. */
  lemma GridClickKeepsCentral(s: Placement, x: int, y: int, now: int, newId: int, i: nat)
    requires i < |s.artillery| && s.artillery[i].isCentral
    ensures s.artillery[i] in GridClick(s, x, y, now, newId).artillery
  {
    var r := GridClick(s, x, y, now, newId);
    if OnGrid(x, y) && s.lastClickPosition == Some(GridPoint(x, y)) && now - s.lastClickTime < DoubleClickMillis {
      var k := UnitAtCell(s.artillery, x, y);
      if k != -1 && !s.artillery[k].isCentral {
        assert k != i;
        if i < k {
          assert r.artillery[i] == s.artillery[i];
        } else {
          assert r.artillery[i - 1] == s.artillery[i];
        }
      } else if k == -1 {
        assert r.artillery[i] == s.artillery[i];
      }
    }
  }

  /** A single click only arms the double click: the pieces stay as they
      are. */
  lemma FirstClickPlacesNothing(s: Placement, x: int, y: int, now: int, newId: int)
    requires OnGrid(x, y)
    requires s.lastClickPosition != Some(GridPoint(x, y)) || now - s.lastClickTime >= DoubleClickMillis
    ensures GridClick(s, x, y, now, newId) == Placement(s.artillery, now, Some(GridPoint(x, y)))
  {
  }

  /** A double click on an empty cell appends one piece there, central
      exactly when it is the first. */
  lemma DoubleClickOnEmptyCellAdds(s: Placement, x: int, y: int, now: int, newId: int)
    requires OnGrid(x, y)
    requires s.lastClickPosition == Some(GridPoint(x, y)) && now - s.lastClickTime < DoubleClickMillis
    requires forall j :: 0 <= j < |s.artillery| ==> !(s.artillery[j].x == x && s.artillery[j].y == y)
    ensures GridClick(s, x, y, now, newId)
         == Placement(s.artillery + [Unit(newId, x, y, |s.artillery| == 0, NoCorrection)], 0, None)
  {
  }

  /** A double click on a sibling removes exactly that piece and disarms
      the double click. */
  lemma DoubleClickOnSiblingRemoves(s: Placement, x: int, y: int, now: int, newId: int)
    requires OnGrid(x, y)
    requires s.lastClickPosition == Some(GridPoint(x, y)) && now - s.lastClickTime < DoubleClickMillis
    requires UnitAtCell(s.artillery, x, y) != -1 && !s.artillery[UnitAtCell(s.artillery, x, y)].isCentral
    ensures var r := GridClick(s, x, y, now, newId);
      r.artillery == RemoveAt(s.artillery, UnitAtCell(s.artillery, x, y)) &&
      |r.artillery| == |s.artillery| - 1 &&
      multiset(r.artillery) + multiset{s.artillery[UnitAtCell(s.artillery, x, y)]} == multiset(s.artillery) &&
      r.lastClickTime == 0 && r.lastClickPosition == None
  {
    var k := UnitAtCell(s.artillery, x, y);
    assert s.artillery == s.artillery[..k] + [s.artillery[k]] + s.artillery[k + 1..];
  }

  /** A double click on the central piece changes nothing, not even the
      remembered click, so the next quick click there is again a double
      click. */
  lemma DoubleClickOnCentralIgnored(s: Placement, x: int, y: int, now: int, newId: int)
    requires s.lastClickPosition == Some(GridPoint(x, y)) && now - s.lastClickTime < DoubleClickMillis
    requires UnitAtCell(s.artillery, x, y) != -1 && s.artillery[UnitAtCell(s.artillery, x, y)].isCentral
    ensures GridClick(s, x, y, now, newId) == s
  {
  }

  // ---------------------------------------------------------------------
  // Dragging

  /** handleDrag's update: every piece carrying the dragged id moves to
      (x, y); nothing else about any piece changes. */
  function MoveUnit(units: seq<Unit>, id: int, x: int, y: int): (r: seq<Unit>)
    ensures |r| == |units|
    ensures forall i :: 0 <= i < |units| ==>
      r[i].id == units[i].id && r[i].isCentral == units[i].isCentral && r[i].correction == units[i].correction
    ensures forall i :: 0 <= i < |units| && units[i].id != id ==> r[i] == units[i]
    ensures forall i :: 0 <= i < |units| && units[i].id == id ==> r[i].x == x && r[i].y == y
  {
    seq(|units|, i requires 0 <= i < |units| =>
      if units[i].id == id then units[i].(x := x, y := y) else units[i])
  }

  /** Moving keeps the placement invariant and, onto the grid, keeps every
      piece on the grid. */
  lemma MoveUnitKeepsInvariant(units: seq<Unit>, id: int, x: int, y: int)
    requires CentralFirst(units) && AllOnGrid(units) && OnGrid(x, y)
    ensures CentralFirst(MoveUnit(units, id, x, y)) && AllOnGrid(MoveUnit(units, id, x, y))
  {
  }

  // ---------------------------------------------------------------------
  // Corrections

  /** The correction of a piece offset by (dx, dy) cells from the central
      piece: the bearing to the target is taken from the lateral offset and
      the central range alone, the range from all three. */
  function SiblingCorrection(m: Math, baseDistance: real, baseAzimuth: real, dx: int, dy: int): (c: Correction)
    ensures (c.distance * 10.0).Floor as real == c.distance * 10.0
    ensures (c.azimuth * 10.0).Floor as real == c.azimuth * 10.0
  {
    var angleToTarget := m.atan2(baseDistance, dx as real) * 180.0 / PI;
    var newDistance := m.sqrt(baseDistance * baseDistance + (dx * dx) as real + (dy * dy) as real);
    var azimuthCorrection := NormalizeDelta(angleToTarget - baseAzimuth);
    Correction(Round1(newDistance - baseDistance), Round1(azimuthCorrection))
  }

  /** With a non-negative central range a sibling is never told to shorten
      its range, and never to lengthen it by more than its grid offset
      |dx| + |dy|; with a central bearing in [0, 360) the bearing correction
      lies in [-180, 180]. */
  lemma SiblingCorrectionBounds(m: Math, baseDistance: real, baseAzimuth: real, dx: int, dy: int)
    requires Lawful(m)
    ensures var c := SiblingCorrection(m, baseDistance, baseAzimuth, dx, dy);
      (0.0 <= baseDistance ==> 0.0 <= c.distance <= Round1(Abs(dx as real) + Abs(dy as real))) &&
      (0.0 <= baseAzimuth < 360.0 ==> -180.0 <= c.azimuth <= 180.0)
  {
    var b := baseDistance;
    if 0.0 <= b {
      var nd := m.sqrt(b * b + (dx * dx) as real + (dy * dy) as real);
      OffsetRangeBounds(m, b, dx, dy);
      Round1Monotone(0.0, nd - b);
      Round1Monotone(nd - b, Abs(dx as real) + Abs(dy as real));
    }
    var angle := m.atan2(b, dx as real) * 180.0 / PI;
    if 0.0 <= baseAzimuth < 360.0 {
      assert -180.0 < angle <= 180.0;
      Round1WithinTenths(NormalizeDelta(angle - baseAzimuth), -1800, 1800);
    }
  }

  /** The offset piece's range lies between the central range and the
      central range plus the offset along each axis. */
  lemma OffsetRangeBounds(m: Math, b: real, dx: int, dy: int)
    requires Lawful(m) && 0.0 <= b
    ensures var nd := m.sqrt(b * b + (dx * dx) as real + (dy * dy) as real);
      b <= nd <= b + Abs(dx as real) + Abs(dy as real)
  {
    var ax := Abs(dx as real);
    var ay := Abs(dy as real);
    var sum := b * b + (dx * dx) as real + (dy * dy) as real;
    var far := b + ax + ay;
    assert ax * ax == (dx * dx) as real && ay * ay == (dy * dy) as real;
    assert far * far == sum + 2.0 * (b * ax + b * ay + ax * ay);
    MulLeft(b, 0.0, ax);
    MulLeft(b, 0.0, ay);
    MulLeft(ax, 0.0, ay);
    MulLeft(ax, 0.0, ax);
    MulLeft(ay, 0.0, ay);
    SqrtBetween(m, b, sum, far);
  }

  /** A sibling standing on the central piece's cell needs no range change. */
  lemma SiblingOnCentralCell(m: Math, baseDistance: real, baseAzimuth: real)
    requires Lawful(m) && 0.0 <= baseDistance
    ensures SiblingCorrection(m, baseDistance, baseAzimuth, 0, 0).distance == 0.0
  {
    SqrtOfSquare(m, baseDistance);
  }

  /** One piece of calculateCorrections' map. */
  function CorrectUnit(m: Math, u: Unit, central: Unit, baseDistance: real, baseAzimuth: real): (r: Unit)
    ensures r.id == u.id && r.x == u.x && r.y == u.y && r.isCentral == u.isCentral
    ensures u.isCentral ==> r.correction == NoCorrection
    ensures !u.isCentral ==> r.correction == SiblingCorrection(m, baseDistance, baseAzimuth, u.x - central.x, u.y - central.y)
  {
    if u.isCentral then u.(correction := NoCorrection)
    else u.(correction := SiblingCorrection(m, baseDistance, baseAzimuth, u.x - central.x, u.y - central.y))
  }

  /** calculateCorrections' new list: same pieces in the same order at the
      same cells; the central piece gets no correction and each sibling
      one computed from its offset to the given central piece alone. */
  function WithCorrections(m: Math, units: seq<Unit>, central: Unit, baseDistance: real, baseAzimuth: real)
    : (r: seq<Unit>)
    ensures |r| == |units|
    ensures forall i :: 0 <= i < |units| ==>
      r[i].id == units[i].id && r[i].x == units[i].x && r[i].y == units[i].y &&
      r[i].isCentral == units[i].isCentral
    ensures forall i :: 0 <= i < |units| && units[i].isCentral ==> r[i].correction == NoCorrection
    ensures forall i :: 0 <= i < |units| && !units[i].isCentral ==>
      r[i].correction == SiblingCorrection(m, baseDistance, baseAzimuth, units[i].x - central.x, units[i].y - central.y)
  {
    seq(|units|, i requires 0 <= i < |units| => CorrectUnit(m, units[i], central, baseDistance, baseAzimuth))
  }

  /** With a non-negative central range no sibling gets a negative range
      correction. */
  lemma CorrectionsNonNegative(m: Math, units: seq<Unit>, central: Unit, baseDistance: real, baseAzimuth: real, i: nat)
    requires Lawful(m) && 0.0 <= baseDistance
    requires i < |units|
    ensures 0.0 <= WithCorrections(m, units, central, baseDistance, baseAzimuth)[i].correction.distance
  {
    if !units[i].isCentral {
      SiblingCorrectionBounds(m, baseDistance, baseAzimuth, units[i].x - central.x, units[i].y - central.y);
    }
  }

  // ---------------------------------------------------------------------
  // Numbering and spacing

  /** The number of non-central pieces in a list. */
  function NonCentralCount(units: seq<Unit>): (r: nat)
    ensures r <= |units|
    ensures r == 0 <==> forall i :: 0 <= i < |units| ==> units[i].isCentral
    ensures r == |units| <==> forall i :: 0 <= i < |units| ==> !units[i].isCentral
  {
    if |units| == 0 then 0
    else NonCentralCount(units[..|units| - 1]) + (if units[|units| - 1].isCentral then 0 else 1)
  }

  /** Under the placement invariant every piece before position k except
      the first is non-central. */
  lemma {:induction false} NonCentralCountOfPrefix(units: seq<Unit>, k: nat)
    requires CentralFirst(units) && 0 < k <= |units|
    ensures NonCentralCount(units[..k]) == k - 1
  {
    if k > 1 {
      NonCentralCountOfPrefix(units, k - 1);
      assert units[..k][..k - 1] == units[..k - 1];
    } else {
      assert units[..k][..0] == [];
    }
  }

  /** getArtilleryNumber: the central piece is number 1 and the others are
      numbered from 2 in list order. Under the placement invariant the
      number is simply the position plus one, so no two pieces share one. */
  method ArtilleryNumber(artillery: seq<Unit>, currentIndex: nat) returns (n: nat)
    requires currentIndex < |artillery|
    ensures artillery[currentIndex].isCentral ==> n == 1
    ensures !artillery[currentIndex].isCentral ==> n == NonCentralCount(artillery[..currentIndex]) + 2
    ensures CentralFirst(artillery) ==> n == currentIndex + 1
  {
    if artillery[currentIndex].isCentral {
      return 1;
    }
    var nonCentralCount := 0;
    for i := 0 to currentIndex
      invariant nonCentralCount == NonCentralCount(artillery[..i])
    {
      assert artillery[..i + 1][..i] == artillery[..i];
      if !artillery[i].isCentral {
        nonCentralCount := nonCentralCount + 1;
      }
    }
    n := nonCentralCount + 2;
    if CentralFirst(artillery) {
      NonCentralCountOfPrefix(artillery, currentIndex);
    }
  }

  /** calculateDistance: the rounded Euclidean distance in metres. */
  function Distance(m: Math, art1: Unit, art2: Unit): (r: int)
    ensures Lawful(m) ==> 0 <= r
  {
    var dx := (art1.x - art2.x) * CellSize;
    var dy := (art1.y - art2.y) * CellSize;
    JsRound(m.sqrt((dx * dx + dy * dy) as real))
  }

  /** The distance label lies between the larger axis offset and the sum of
      the axis offsets. */
  lemma DistanceBounds(m: Math, art1: Unit, art2: Unit)
    requires Lawful(m)
    ensures var ax := Abs((art1.x - art2.x) as real);
      var ay := Abs((art1.y - art2.y) as real);
      var d := Distance(m, art1, art2) as real;
      ax <= d && ay <= d && d <= ax + ay
  {
    RoundedNormBounds(m, art1.x - art2.x, art1.y - art2.y);
  }

  /** Math.round(sqrt(dx * dx + dy * dy)) for whole dx and dy lies between
      max(|dx|, |dy|) and |dx| + |dy|. */
  lemma RoundedNormBounds(m: Math, dx: int, dy: int)
    requires Lawful(m)
    ensures var d := JsRound(m.sqrt((dx * dx + dy * dy) as real)) as real;
      Abs(dx as real) <= d && Abs(dy as real) <= d && d <= Abs(dx as real) + Abs(dy as real)
  {
    var ix: nat := if dx < 0 then -dx else dx;
    var iy: nat := if dy < 0 then -dy else dy;
    var sum := dx * dx + dy * dy;
    SquareSumBetween(dx, dy, ix, iy);
    SqrtBetweenWhole(m, ix, sum, ix + iy);
    SqrtBetweenWhole(m, iy, sum, ix + iy);
    var root := m.sqrt(sum as real);
    JsRoundBetween(root, ix, ix + iy);
    JsRoundBetween(root, iy, ix + iy);
  }

  lemma SquareSumBetween(dx: int, dy: int, ix: nat, iy: nat)
    requires ix == (if dx < 0 then -dx else dx) && iy == (if dy < 0 then -dy else dy)
    ensures ix * ix <= dx * dx + dy * dy <= (ix + iy) * (ix + iy)
    ensures iy * iy <= dx * dx + dy * dy
  {
    assert dx * dx == ix * ix && dy * dy == iy * iy;
    assert (ix + iy) * (ix + iy) == ix * ix + iy * iy + 2 * (ix * iy);
    assert 0 <= ix * iy;
  }

  /** The square root of a whole number between two whole squares. */
  lemma SqrtBetweenWhole(m: Math, lo: nat, z: nat, hi: nat)
    requires Lawful(m)
    requires lo * lo <= z <= hi * hi
    ensures lo as real <= m.sqrt(z as real) <= hi as real
  {
    assert (lo as real) * (lo as real) == (lo * lo) as real;
    assert (hi as real) * (hi as real) == (hi * hi) as real;
    SqrtBetween(m, lo as real, z as real, hi as real);
  }

  lemma JsRoundBetween(x: real, lo: int, hi: int)
    requires lo as real <= x <= hi as real
    ensures lo <= JsRound(x) <= hi
  {
  }

  /** The distance does not depend on the order of the two pieces. */
  lemma DistanceSymmetric(m: Math, art1: Unit, art2: Unit)
    ensures Distance(m, art1, art2) == Distance(m, art2, art1)
  {
    var dx := (art1.x - art2.x) * CellSize;
    var dy := (art1.y - art2.y) * CellSize;
    assert dx * dx == ((art2.x - art1.x) * CellSize) * ((art2.x - art1.x) * CellSize);
    assert dy * dy == ((art2.y - art1.y) * CellSize) * ((art2.y - art1.y) * CellSize);
  }

  /** A piece is at distance zero from itself. */
  lemma DistanceToSelf(m: Math, art: Unit)
    requires Lawful(m)
    ensures Distance(m, art, art) == 0
  {
    SqrtOfSquare(m, 0.0);
  }

  // ---------------------------------------------------------------------
  // The component's state

  class GroupCalculator {
    var artillery: seq<Unit>
    var draggingArt: Option<Unit>
    var isDragging: bool
    var lastClickTime: int
    var lastClickPosition: Option<GridPoint>

    ghost predicate Valid()
      reads this
    {
      CentralFirst(artillery) && AllOnGrid(artillery) && (isDragging <==> draggingArt.Some?)
    }

    function ClickState(): (s: Placement)
      reads this
      ensures s.artillery == artillery && s.lastClickTime == lastClickTime && s.lastClickPosition == lastClickPosition
    {
      Placement(artillery, lastClickTime, lastClickPosition)
    }

    constructor ()
      ensures Valid()
      ensures artillery == [] && draggingArt == None && !isDragging
      ensures lastClickTime == 0 && lastClickPosition == None
    {
      artillery := [];
      draggingArt := None;
      isDragging := false;
      lastClickTime := 0;
      lastClickPosition := None;
    }

    /** handleGridClick on the rounded cell (x, y) at time `now`. */
    method HandleGridClick(x: int, y: int, now: int, newId: int)
      requires Valid()
      modifies this`artillery, this`lastClickTime, this`lastClickPosition
      ensures Valid()
      ensures ClickState() == GridClick(old(ClickState()), x, y, now, newId)
    {
      ghost var before := ClickState();
      ghost var after := GridClick(before, x, y, now, newId);
      GridClickKeepsInvariant(before, x, y, now, newId);
      assert CentralFirst(after.artillery) && AllOnGrid(after.artillery);
      if x < 0 || x > GridSizeX || y < 0 || y > GridSizeY {
        assert after == before;
        return;
      }
      var currentTime := now;
      if lastClickPosition.Some? && lastClickPosition.value.x == x && lastClickPosition.value.y == y
        && currentTime - lastClickTime < DoubleClickMillis
      {
        assert lastClickPosition == Some(GridPoint(x, y));
        var existingArtIndex := UnitAtCell(artillery, x, y);
        if existingArtIndex != -1 {
          if artillery[existingArtIndex].isCentral {
            DoubleClickOnCentralIgnored(before, x, y, now, newId);
            return;
          }
          DoubleClickOnSiblingRemoves(before, x, y, now, newId);
          artillery := RemoveAt(artillery, existingArtIndex);
        } else {
          DoubleClickOnEmptyCellAdds(before, x, y, now, newId);
          var newArtillery := Unit(newId, x, y, |artillery| == 0, NoCorrection);
          artillery := artillery + [newArtillery];
        }
        lastClickTime := 0;
        lastClickPosition := None;
      } else {
        FirstClickPlacesNothing(before, x, y, now, newId);
        lastClickTime := currentTime;
        lastClickPosition := Some(GridPoint(x, y));
      }
    }

    /** handleDragStart: remember the piece under the pointer. */
    method HandleDragStart(art: Unit)
      requires Valid()
      modifies this`draggingArt, this`isDragging
      ensures Valid()
      ensures draggingArt == Some(art) && isDragging
    {
      draggingArt := Some(art);
      isDragging := true;
    }

    /** handleDrag to the rounded cell (x, y): only while dragging and only
        onto the grid does anything move. */
    method HandleDrag(x: int, y: int)
      requires Valid()
      modifies this`artillery
      ensures Valid()
      ensures artillery == if isDragging && draggingArt.Some? && OnGrid(x, y)
        then MoveUnit(old(artillery), draggingArt.value.id, x, y)
        else old(artillery)
    {
      if !isDragging || draggingArt.None? {
        return;
      }
      if x >= 0 && x <= GridSizeX && y >= 0 && y <= GridSizeY {
        artillery := MoveUnit(artillery, draggingArt.value.id, x, y);
      }
    }

    /** handleDragEnd */
    method HandleDragEnd()
      requires Valid()
      modifies this`draggingArt, this`isDragging
      ensures Valid()
      ensures draggingArt == None && !isDragging
    {
      isDragging := false;
      draggingArt := None;
    }

    /** calculateCorrections with the central piece's range and bearing as
        entered: without a central piece nothing changes. */
    method CalculateCorrections(m: Math, centralDistance: real, centralAzimuth: real)
      requires Valid()
      modifies this`artillery
      ensures Valid()
      ensures var k := FindIndex(old(artillery), IsCentral);
        artillery == if k == -1 then old(artillery)
          else WithCorrections(m, old(artillery), old(artillery)[k], centralDistance, centralAzimuth)
    {
      var k := FindIndex(artillery, IsCentral);
      if k == -1 {
        return;
      }
      var centralArt := artillery[k];
      var updatedArtillery := WithCorrections(m, artillery, centralArt, centralDistance, centralAzimuth);
      artillery := updatedArtillery;
    }
  }
}
