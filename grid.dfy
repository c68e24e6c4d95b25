/**
 * The placement grid: which cells are occupied by towers, which lie on an
 * enemy path, and which are buildable; the placement check; and the
 * conversions between grid cells and pixel positions.
 */
module Grid {
  import opened GameTypes

  /** The argument of `SetPath`: one path, or several. */
  datatype PathArg = Single(path: seq<Cell>) | Multi(paths: seq<seq<Cell>>)

  /** The paths a `PathArg` stands for. */
  function PathsOf(arg: PathArg): (ps: seq<seq<Cell>>)
    ensures arg.Single? ==> ps == [arg.path]
    ensures arg.Multi? && arg.paths != [] ==> ps == arg.paths
  {
    match arg
    case Single(p) => [p]
    // An empty outer array is not recognised as "several paths" and is
    // read as one path with no points, which marks nothing.
    case Multi(ps) => if ps == [] then [[]] else ps
  }

  /** Every cell that occurs in one of `paths`. */
  ghost function CellsOf(paths: seq<seq<Cell>>): set<Cell> {
    set i, j | 0 <= i < |paths| && 0 <= j < |paths[i]| :: paths[i][j]
  }

  /**
   * The cells of columns [0, cols) and rows [1, rows) that are not in `path`,
   * followed by the cells of column `cols` with rows [1, y): what the nested
   * loop of `InitializeBuildableArea` has visited before (cols, y).
   */
  ghost function Visited(path: set<Cell>, cols: int, y: int): set<Cell> {
    set cx: int, cy: int | 0 <= cx < GridCols && 1 <= cy < GridRows && Cell(cx, cy) !in path &&
                           (cx < cols || (cx == cols && cy < y)) :: Cell(cx, cy)
  }

  /** Every cell outside row 0 and off `path`: the area a full sweep makes buildable. */
  ghost function BuildableRegion(path: set<Cell>): set<Cell> {
    Visited(path, GridCols, 0)
  }

  lemma VisitedNextRow(path: set<Cell>, x: int, y: int)
    requires 0 <= x < GridCols && 0 <= y < GridRows
    ensures Visited(path, x, y + 1) ==
            Visited(path, x, y) + (if y > 0 && Cell(x, y) !in path then {Cell(x, y)} else {})
  {
  }

  lemma VisitedNextColumn(path: set<Cell>, x: int)
    requires 0 <= x < GridCols
    ensures Visited(path, x, GridRows) == Visited(path, x + 1, 0)
  {
  }

  /** Is the cell inside [0, GridCols) x [0, GridRows)? */
  predicate InBounds(gx: int, gy: int) {
    0 <= gx < GridCols && 0 <= gy < GridRows
  }

  class GridSystem {
    var occupiedCells: set<Cell>
    var pathCells: set<Cell>
    var buildableArea: set<Cell>

    /**
     * The buildable area only ever grows by cells of the visible grid
     * below the UI row.
     */
    ghost predicate Valid()
      reads this
    {
      forall c :: c in buildableArea ==> 0 <= c.x < GridCols && 1 <= c.y < GridRows
    }

    constructor ()
      ensures Valid()
      ensures occupiedCells == {} && pathCells == {}
      ensures buildableArea == BuildableRegion({})
    {
      occupiedCells := {};
      pathCells := {};
      buildableArea := {};
      new;
      InitializeBuildableArea();
    }

    /**
     * Adds every cell below row 0 that is not a path cell; nothing is
     * removed, so cells that were buildable before stay buildable.
     */
    method InitializeBuildableArea()
      requires Valid()
      modifies this`buildableArea
      ensures Valid()
      ensures buildableArea == old(buildableArea) + BuildableRegion(pathCells)
    {
      for x := 0 to GridCols
        invariant buildableArea == old(buildableArea) + Visited(pathCells, x, 0)
      {
        for y := 0 to GridRows
          invariant buildableArea == old(buildableArea) + Visited(pathCells, x, y)
        {
          VisitedNextRow(pathCells, x, y);
          if y > 0 && !IsPathCell(x, y) {
            buildableArea := buildableArea + {Cell(x, y)};
          }
        }
        VisitedNextColumn(pathCells, x);
      }
    }

    /**
     * Replaces the path cells by exactly the cells of the given path(s),
     * then sweeps the grid again to extend the buildable area.
     */
    method SetPath(arg: PathArg)
      requires Valid()
      modifies this`pathCells, this`buildableArea
      ensures Valid()
      ensures pathCells == CellsOf(PathsOf(arg))
      ensures buildableArea == old(buildableArea) + BuildableRegion(pathCells)
    {
      pathCells := {};
      var paths := PathsOf(arg);
      for i := 0 to |paths|
        invariant pathCells == CellsOf(paths[..i])
        invariant buildableArea == old(buildableArea)
      {
        var single := paths[i];
        for j := 0 to |single|
          invariant pathCells == CellsOf(paths[..i]) + set k | 0 <= k < j :: single[k]
          invariant buildableArea == old(buildableArea)
        {
          pathCells := pathCells + {Cell(single[j].x, single[j].y)};
        }
        CellsOfSnoc(paths[..i], single);
        assert paths[..i + 1] == paths[..i] + [single];
      }
      assert paths[..|paths|] == paths;
      InitializeBuildableArea();
    }

    /**
     * Is a tower allowed on the cell? Only inside the grid, on a buildable
     * cell that is neither occupied nor a path cell.
     */
    function IsValidPlacement(gx: int, gy: int): (ok: bool)
      reads this
      ensures !InBounds(gx, gy) ==> !ok
      ensures ok <==> InBounds(gx, gy) && Cell(gx, gy) in buildableArea &&
                      Cell(gx, gy) !in occupiedCells && Cell(gx, gy) !in pathCells
    {
      if gx < 0 || gx >= GridCols || gy < 0 || gy >= GridRows then false
      else
        var key := Cell(gx, gy);
        if key !in buildableArea then false
        else if key in occupiedCells then false
        else if key in pathCells then false
        else true
    }

    /** Marks the cell as holding a tower; no check is made. */
    method OccupyCell(gx: int, gy: int)
      modifies this`occupiedCells
      ensures occupiedCells == old(occupiedCells) + {Cell(gx, gy)}
      ensures IsOccupied(gx, gy) && !IsValidPlacement(gx, gy)
    {
      occupiedCells := occupiedCells + {Cell(gx, gy)};
    }

    /** Frees the cell; occupancy of every other cell is unchanged. */
    method FreeCell(gx: int, gy: int)
      modifies this`occupiedCells
      ensures occupiedCells == old(occupiedCells) - {Cell(gx, gy)}
      ensures !IsOccupied(gx, gy)
    {
      occupiedCells := occupiedCells - {Cell(gx, gy)};
    }

    /** Whether a tower stands on the cell; an occupied cell is never a valid placement. */
    function IsOccupied(gx: int, gy: int): (b: bool)
      reads this
      ensures b ==> !IsValidPlacement(gx, gy)
    {
      Cell(gx, gy) in occupiedCells
    }

    /** Whether enemies walk over the cell; a path cell is never a valid placement. */
    function IsPathCell(gx: int, gy: int): (b: bool)
      reads this
      ensures b ==> !IsValidPlacement(gx, gy)
    {
      Cell(gx, gy) in pathCells
    }

    /** Pixel position of the centre of a cell. */
    function GridToWorld(gx: int, gy: int): (p: (real, real))
      ensures (GridSize * gx) as real < p.0 < (GridSize * (gx + 1)) as real
      ensures (GridSize * gy) as real < p.1 < (GridSize * (gy + 1)) as real
    {
      ((gx * GridSize) as real + GridSize as real / 2.0,
       (gy * GridSize) as real + GridSize as real / 2.0)
    }

    /** The cell containing a pixel position (flooring division). */
    function WorldToGrid(wx: real, wy: real): (c: Cell)
      ensures (GridSize * c.x) as real <= wx < (GridSize * (c.x + 1)) as real
      ensures (GridSize * c.y) as real <= wy < (GridSize * (c.y + 1)) as real
    {
      Cell((wx / GridSize as real).Floor, (wy / GridSize as real).Floor)
    }

    /** The centre of a cell lies in that cell: the two conversions round-trip. */
    lemma GridRoundTrip(gx: int, gy: int)
      ensures WorldToGrid(GridToWorld(gx, gy).0, GridToWorld(gx, gy).1) == Cell(gx, gy)
    {
    }

    /** Empties the occupancy set; path and buildable sets are kept. */
    method Clear()
      modifies this`occupiedCells
      ensures occupiedCells == {}
    {
      occupiedCells := {};
    }
  }

  lemma CellsOfSnoc(paths: seq<seq<Cell>>, p: seq<Cell>)
    ensures CellsOf(paths + [p]) == CellsOf(paths) + set k | 0 <= k < |p| :: p[k]
  {
    var lhs := CellsOf(paths + [p]);
    var rhs := CellsOf(paths) + set k | 0 <= k < |p| :: p[k];
    forall c | c in lhs ensures c in rhs {
      var i, j :| 0 <= i < |paths + [p]| && 0 <= j < |(paths + [p])[i]| && (paths + [p])[i][j] == c;
      if i < |paths| {
        assert paths[i][j] == c;
      }
    }
    forall c | c in rhs ensures c in lhs {
      if c in CellsOf(paths) {
        var i, j :| 0 <= i < |paths| && 0 <= j < |paths[i]| && paths[i][j] == c;
        assert (paths + [p])[i][j] == c;
      } else {
        var k :| 0 <= k < |p| && p[k] == c;
        assert (paths + [p])[|paths|][k] == c;
      }
    }
  }
}
