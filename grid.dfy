/**
 * The cell computation of the client's `Grid` component, separated from its
 * markup: a pure map from an optional player position and an optional
 * treasure position to the 20 x 20 = 400 cell descriptors the component lays
 * out row by row.
 *
 * Cell `i` sits at column `i % 20` and row `floor(i / 20)`. It carries the
 * player marker iff the position is present and its vector is that
 * coordinate pair, and the treasure marker under the same rule for the
 * treasure. Absent inputs and coordinates off the grid are not errors: they
 * simply mark no cell.
 */
module Grid {
  import Bindings

  /** A render input that may be `undefined`. */
  datatype Option<T> = None | Some(value: T)

  /** The side length of the square grid. */
  const GridSize: nat := 20

  /** The number of cells the grid renders. */
  const CellCount: nat := GridSize * GridSize

  /** A cell descriptor: its coordinates and which markers it shows. */
  datatype Cell = Cell(x: nat, y: nat, player: bool, treasure: bool)

  /** The visual markers a cell can draw, in the order they are drawn. */
  datatype Marker = PlayerDot | TreasureGem

  /** The column of cell index `i`. */
  function Column(i: nat): (x: nat)
    ensures x < GridSize
  {
    i % GridSize
  }

  /** The row of cell index `i` (the floor of a non-negative quotient). */
  function Row(i: nat): (y: nat)
    ensures y * GridSize <= i < (y + 1) * GridSize
  {
    i / GridSize
  }

  /** The index of the cell at column `x` and row `y`, row by row. */
  function Index(x: nat, y: nat): nat
  {
    y * GridSize + x
  }

  /** Whether a coordinate pair names a cell of the grid. */
  predicate OnGrid(v: Bindings.Vec2)
  {
    0 <= v.x < GridSize && 0 <= v.y < GridSize
  }

  /** The vector of an optional player position. */
  function PositionVec(position: Option<Bindings.Position>): Option<Bindings.Vec2>
  {
    match position
    case None => None
    case Some(p) => Some(p.vec)
  }

  /** The vector of an optional treasure position. */
  function TreasureVec(treasure: Option<Bindings.TreasurePosition>): Option<Bindings.Vec2>
  {
    match treasure
    case None => None
    case Some(t) => Some(t.vec)
  }

  /** The marker condition: an optional vector whose `x` and `y` both equal the cell's. */
  predicate Matches(v: Option<Bindings.Vec2>, x: int, y: int)
  {
    v.Some? && v.value.x == x && v.value.y == y
  }

  /** The descriptor of cell `i`. */
  function CellAt(position: Option<Bindings.Position>, treasure: Option<Bindings.TreasurePosition>, i: nat): Cell
  {
    var x := Column(i);
    var y := Row(i);
    Cell(x, y, Matches(PositionVec(position), x, y), Matches(TreasureVec(treasure), x, y))
  }

  /** All cells of the grid, in index order. */
  function Cells(position: Option<Bindings.Position>, treasure: Option<Bindings.TreasurePosition>): (cells: seq<Cell>)
    ensures |cells| == CellCount
    ensures forall i :: 0 <= i < |cells| ==> OnGrid(Bindings.Vec2(cells[i].x, cells[i].y))
    ensures forall i :: 0 <= i < |cells| ==> Index(cells[i].x, cells[i].y) == i
  {
    seq(CellCount, i requires 0 <= i < CellCount => CellAt(position, treasure, i))
  }

  /** The condition under which a cell is styled `relative`: it shows some marker. */
  predicate Marked(c: Cell)
  {
    c.player || c.treasure
  }

  /** The markers a cell draws, player before treasure. */
  function Markers(c: Cell): seq<Marker>
  {
    (if c.player then [PlayerDot] else []) + (if c.treasure then [TreasureGem] else [])
  }

  /** Whether a cell carries the flag of a marker. */
  predicate Shows(c: Cell, m: Marker)
  {
    match m
    case PlayerDot => c.player
    case TreasureGem => c.treasure
  }

  /** The indices of the cells that show a marker. */
  function Showing(cells: seq<Cell>, m: Marker): set<nat>
  {
    set i: nat | i < |cells| && Shows(cells[i], m)
  }

  /** The number of cells that show a marker, counted one cell at a time. */
  function CountShowing(cells: seq<Cell>, m: Marker): (n: nat)
    ensures n <= |cells|
    ensures n == 0 <==> forall i :: 0 <= i < |cells| ==> !Shows(cells[i], m)
  {
    if cells == [] then 0
    else CountShowing(cells[..|cells| - 1], m) + (if Shows(cells[|cells| - 1], m) then 1 else 0)
  }

  /** The vector that places a marker: the position's for the player dot, the treasure's for the gem. */
  function MarkerVec(position: Option<Bindings.Position>, treasure: Option<Bindings.TreasurePosition>, m: Marker): Option<Bindings.Vec2>
  {
    match m
    case PlayerDot => PositionVec(position)
    case TreasureGem => TreasureVec(treasure)
  }

  /** The indices of the cells styled as marked. */
  function MarkedCells(cells: seq<Cell>): set<nat>
  {
    set i: nat | i < |cells| && Marked(cells[i])
  }

  /** The indices of the grid whose coordinates match an optional vector. */
  function MatchingIndices(v: Option<Bindings.Vec2>): set<nat>
  {
    set i: nat | i < CellCount && Matches(v, Column(i), Row(i))
  }

  /** The single index a marker lands on, if any: the vector's cell when it is present and on the grid. */
  function Target(v: Option<Bindings.Vec2>): set<nat>
  {
    if v.Some? && OnGrid(v.value) then {Index(v.value.x, v.value.y)} else {}
  }

  // ---------------------------------------------------------------------------
  // Index arithmetic.

  /** Every index below `CellCount` has on-grid coordinates and is recovered from them. */
  lemma IndexOfCoordinates(i: nat)
    requires i < CellCount
    ensures OnGrid(Bindings.Vec2(Column(i), Row(i)))
    ensures Index(Column(i), Row(i)) == i
  {
  }

  /** Every on-grid coordinate pair has an index below `CellCount` whose coordinates are that pair. */
  lemma CoordinatesOfIndex(x: nat, y: nat)
    requires x < GridSize && y < GridSize
    ensures Index(x, y) < CellCount
    ensures Column(Index(x, y)) == x && Row(Index(x, y)) == y
  {
    var i := Index(x, y);
    assert i < CellCount by {
      assert y * GridSize <= (GridSize - 1) * GridSize;
    }
    var r := Row(i);
    assert r == y by {
      assert r * GridSize <= y * GridSize + x < (r + 1) * GridSize;
    }
  }

  /** Index and coordinates determine each other: the map is a bijection between [0, CellCount) and the grid. */
  lemma IndexBijection(i: nat, x: nat, y: nat)
    requires i < CellCount && x < GridSize && y < GridSize
    ensures i == Index(x, y) <==> Column(i) == x && Row(i) == y
  {
    IndexOfCoordinates(i);
    CoordinatesOfIndex(x, y);
  }

  // ---------------------------------------------------------------------------
  // Markers.

  /** An optional vector matches exactly the cell of its target: one cell when present and on the grid, none otherwise. */
  lemma MatchingIndicesAreTarget(v: Option<Bindings.Vec2>)
    ensures MatchingIndices(v) == Target(v)
  {
    forall i: nat | i < CellCount
      ensures i in MatchingIndices(v) <==> i in Target(v)
    {
      IndexOfCoordinates(i);
      if v.Some? && OnGrid(v.value) {
        IndexBijection(i, v.value.x, v.value.y);
      }
    }
    if v.Some? && OnGrid(v.value) {
      CoordinatesOfIndex(v.value.x, v.value.y);
    }
  }

  /** A cell has the player marker iff the position is present and its vector is the cell's coordinates. */
  lemma PlayerFlag(position: Option<Bindings.Position>, treasure: Option<Bindings.TreasurePosition>, i: nat)
    requires i < CellCount
    ensures Cells(position, treasure)[i].player
      <==> position.Some? && position.value.vec == Bindings.Vec2(Column(i), Row(i))
  {
  }

  /** A cell has the treasure marker iff the treasure is present and its vector is the cell's coordinates. */
  lemma TreasureFlag(position: Option<Bindings.Position>, treasure: Option<Bindings.TreasurePosition>, i: nat)
    requires i < CellCount
    ensures Cells(position, treasure)[i].treasure
      <==> treasure.Some? && treasure.value.vec == Bindings.Vec2(Column(i), Row(i))
  {
  }

  /** The count of the cells showing a marker is the size of the set of their indices. */
  lemma {:induction false} CountIsCardinality(cells: seq<Cell>, m: Marker)
    ensures CountShowing(cells, m) == |Showing(cells, m)|
  {
    if cells != [] {
      var prefix, last := cells[..|cells| - 1], |cells| - 1;
      CountIsCardinality(prefix, m);
      assert Showing(cells, m)
        == Showing(prefix, m) + (if Shows(cells[last], m) then {last} else {});
      assert last !in Showing(prefix, m);
    }
  }

  /**
   * Each marker is on exactly one cell, the one at `y * 20 + x`, when its vector is present
   * and on the grid, and on no cell when it is absent or off the grid.
   */
  lemma MarkerPlacedOnce(position: Option<Bindings.Position>, treasure: Option<Bindings.TreasurePosition>, m: Marker)
    ensures Showing(Cells(position, treasure), m) == Target(MarkerVec(position, treasure, m))
    ensures var v := MarkerVec(position, treasure, m);
      CountShowing(Cells(position, treasure), m) == if v.Some? && OnGrid(v.value) then 1 else 0
  {
    var v := MarkerVec(position, treasure, m);
    MatchingIndicesAreTarget(v);
    assert Showing(Cells(position, treasure), m) == MatchingIndices(v);
    CountIsCardinality(Cells(position, treasure), m);
  }

  /** The player dot is on exactly the position's cell when the position is present and on the grid, and on no cell otherwise. */
  lemma PlayerMarkedOnce(position: Option<Bindings.Position>, treasure: Option<Bindings.TreasurePosition>)
    ensures position.Some? && OnGrid(position.value.vec) ==>
      Showing(Cells(position, treasure), PlayerDot) == {Index(position.value.vec.x, position.value.vec.y)}
      && CountShowing(Cells(position, treasure), PlayerDot) == 1
    ensures position.None? || !OnGrid(position.value.vec) ==>
      Showing(Cells(position, treasure), PlayerDot) == {} && CountShowing(Cells(position, treasure), PlayerDot) == 0
  {
    MarkerPlacedOnce(position, treasure, PlayerDot);
  }

  /** The gem is on exactly the treasure's cell when the treasure is present and on the grid, and on no cell otherwise. */
  lemma TreasureMarkedOnce(position: Option<Bindings.Position>, treasure: Option<Bindings.TreasurePosition>)
    ensures treasure.Some? && OnGrid(treasure.value.vec) ==>
      Showing(Cells(position, treasure), TreasureGem) == {Index(treasure.value.vec.x, treasure.value.vec.y)}
      && CountShowing(Cells(position, treasure), TreasureGem) == 1
    ensures treasure.None? || !OnGrid(treasure.value.vec) ==>
      Showing(Cells(position, treasure), TreasureGem) == {} && CountShowing(Cells(position, treasure), TreasureGem) == 0
  {
    MarkerPlacedOnce(position, treasure, TreasureGem);
  }

  /** The player markers do not depend on the treasure, nor the treasure markers on the position. */
  lemma MarkersIndependent(
    position: Option<Bindings.Position>, position': Option<Bindings.Position>,
    treasure: Option<Bindings.TreasurePosition>, treasure': Option<Bindings.TreasurePosition>,
    i: nat)
    requires i < CellCount
    ensures Cells(position, treasure)[i].player == Cells(position, treasure')[i].player
    ensures Cells(position, treasure)[i].treasure == Cells(position', treasure)[i].treasure
  {
  }

  /** A cell is styled as marked iff it draws at least one marker; a cell with both draws the player first. */
  lemma MarkedIffDrawsMarker(c: Cell)
    ensures Marked(c) <==> |Markers(c)| > 0
    ensures c.player && c.treasure ==> Markers(c) == [PlayerDot, TreasureGem]
    ensures |Markers(c)| <= 2
  {
  }

  /** The marked cells are those of the player and of the treasure; so there are at most two. */
  lemma MarkedCellsAreTargets(position: Option<Bindings.Position>, treasure: Option<Bindings.TreasurePosition>)
    ensures MarkedCells(Cells(position, treasure)) == Target(PositionVec(position)) + Target(TreasureVec(treasure))
    ensures |MarkedCells(Cells(position, treasure))| <= 2
  {
    var cells := Cells(position, treasure);
    MarkerPlacedOnce(position, treasure, PlayerDot);
    MarkerPlacedOnce(position, treasure, TreasureGem);
    assert MarkedCells(cells) == Showing(cells, PlayerDot) + Showing(cells, TreasureGem);
  }

  /** When both vectors name the same on-grid cell, that one cell shows both markers, player first. */
  lemma SharedCell(position: Bindings.Position, treasure: Bindings.TreasurePosition)
    requires position.vec == treasure.vec && OnGrid(position.vec)
    ensures MarkedCells(Cells(Some(position), Some(treasure))) == {Index(position.vec.x, position.vec.y)}
    ensures Markers(Cells(Some(position), Some(treasure))[Index(position.vec.x, position.vec.y)])
      == [PlayerDot, TreasureGem]
  {
    MarkedCellsAreTargets(Some(position), Some(treasure));
    PlayerMarkedOnce(Some(position), Some(treasure));
    TreasureMarkedOnce(Some(position), Some(treasure));
    var k := Index(position.vec.x, position.vec.y);
    assert k in Showing(Cells(Some(position), Some(treasure)), PlayerDot);
    assert k in Showing(Cells(Some(position), Some(treasure)), TreasureGem);
  }

  // ---------------------------------------------------------------------------
  // Concrete renderings.

  /** With neither input present, no cell is marked. */
  lemma EmptyGrid()
    ensures MarkedCells(Cells(None, None)) == {}
  {
    MarkedCellsAreTargets(None, None);
  }

  /** A player at (5, 3) and no treasure marks exactly cell 65, with the player marker only. */
  lemma PlayerOnlyGrid(position: Bindings.Position)
    requires position.vec == Bindings.Vec2(5, 3)
    ensures MarkedCells(Cells(Some(position), None)) == {65}
    ensures Markers(Cells(Some(position), None)[65]) == [PlayerDot]
  {
    MarkedCellsAreTargets(Some(position), None);
    PlayerMarkedOnce(Some(position), None);
    assert 65 in Showing(Cells(Some(position), None), PlayerDot);
  }

  /** A player and a treasure both at (2, 2) mark exactly cell 42, with both markers. */
  lemma SharedCellGrid(position: Bindings.Position, treasure: Bindings.TreasurePosition)
    requires position.vec == Bindings.Vec2(2, 2) && treasure.vec == Bindings.Vec2(2, 2)
    ensures MarkedCells(Cells(Some(position), Some(treasure))) == {42}
    ensures Markers(Cells(Some(position), Some(treasure))[42]) == [PlayerDot, TreasureGem]
  {
    SharedCell(position, treasure);
  }

  /** A player at (25, 0), off the grid, marks no cell and raises no error. */
  lemma OffGridPlayer(position: Bindings.Position)
    requires position.vec == Bindings.Vec2(25, 0)
    ensures MarkedCells(Cells(Some(position), None)) == {}
  {
    MarkedCellsAreTargets(Some(position), None);
  }
}
