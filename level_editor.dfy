/**
 * The list rules of the level editor: placing spawn and target points and
 * decorations, drawing a path stroke point by point, committing a stroke,
 * erasing, clearing, loading, and the check made before a level is
 * play-tested. Positions are cells of the editor's fine path grid.
 */
module LevelEditor {
  import opened GameTypes

  datatype EditorMode = SpawnMode | TargetMode | PathMode | DecorMode | EraseMode

  /** Pointer positions above this line (in pixels) are on the toolbar. */
  const ToolbarHeight: real := 120.0

  /** Half-width, in path-grid cells, of the area a click erases a decoration from. */
  const DecorReach: int := 8

  function Abs(n: int): (a: int)
    ensures a >= 0 && (a == n || a == -n)
  {
    if n < 0 then -n else n
  }

  /** Chessboard distance between two cells. */
  function Chebyshev(a: Cell, b: Cell): (d: int)
    ensures d >= 0
    ensures d == 0 <==> a == b
  {
    Max(Abs(a.x - b.x), Abs(a.y - b.y))
  }

  /** A stroke: no cell twice, and each cell a king's move from the one before. */
  predicate IsStroke(path: seq<Cell>) {
    NoDuplicates(path) &&
    forall i :: 0 <= i < |path| - 1 ==> Chebyshev(path[i], path[i + 1]) == 1
  }

  // ---------------------------------------------------------------------
  // Filtering, as the array `filter` of the source
  // ---------------------------------------------------------------------

  /** The elements of `s` that satisfy `keep`, in their order. */
  function Filter<T(==,!new)>(keep: T -> bool, s: seq<T>): (r: seq<T>)
    ensures |r| <= |s|
    ensures forall x :: x in r <==> x in s && keep(x)
    decreases |s|
  {
    if s == [] then []
    else if keep(s[0]) then [s[0]] + Filter(keep, s[1..])
    else Filter(keep, s[1..])
  }

  /** Filtering a concatenation filters each part in turn: the kept elements keep their order. */
  lemma {:induction false} FilterAppend<T(!new)>(keep: T -> bool, a: seq<T>, b: seq<T>)
    ensures Filter(keep, a + b) == Filter(keep, a) + Filter(keep, b)
    decreases |a|
  {
    if a != [] {
      assert (a + b)[0] == a[0] && (a + b)[1..] == a[1..] + b;
      FilterAppend(keep, a[1..], b);
    } else {
      assert a + b == b;
    }
  }

  /** Each element is kept as often as it occurs, or dropped altogether. */
  lemma {:induction false} FilterMultiset<T(!new)>(keep: T -> bool, s: seq<T>, x: T)
    ensures multiset(Filter(keep, s))[x] == if keep(x) then multiset(s)[x] else 0
    decreases |s|
  {
    if s != [] {
      assert s == [s[0]] + s[1..];
      FilterMultiset(keep, s[1..], x);
    }
  }

  /** When nothing is rejected, filtering changes nothing. */
  lemma {:induction false} FilterKeepsAll<T(!new)>(keep: T -> bool, s: seq<T>)
    requires forall i :: 0 <= i < |s| ==> keep(s[i])
    ensures Filter(keep, s) == s
    decreases |s|
  {
    if s != [] {
      FilterKeepsAll(keep, s[1..]);
      assert s == [s[0]] + s[1..];
    }
  }

  /** A list without repeats stays without repeats when filtered. */
  lemma {:induction false} FilterNoDuplicates<T(!new)>(keep: T -> bool, s: seq<T>)
    requires NoDuplicates(s)
    ensures NoDuplicates(Filter(keep, s))
    decreases |s|
  {
    if s != [] {
      var tail := s[1..];
      assert NoDuplicates(tail) by {
        forall i, j | 0 <= i < j < |tail| ensures tail[i] != tail[j] {
          assert tail[i] == s[i + 1] && tail[j] == s[j + 1];
        }
      }
      FilterNoDuplicates(keep, tail);
      if keep(s[0]) {
        var rest := Filter(keep, tail);
        assert s[0] !in tail by {
          forall k | 0 <= k < |tail| ensures tail[k] != s[0] {
            assert tail[k] == s[k + 1];
          }
        }
        assert s[0] !in rest;
        var r := [s[0]] + rest;
        forall i, j | 0 <= i < j < |r| ensures r[i] != r[j] {
          if i == 0 {
            assert r[j] == rest[j - 1];
          } else {
            assert r[i] == rest[i - 1] && r[j] == rest[j - 1];
          }
        }
      }
    }
  }

  // ---------------------------------------------------------------------
  // The pure list operations behind the editor's handlers
  // ---------------------------------------------------------------------

  /** `s` with `p` appended unless it is already there. */
  function AddUnique(s: seq<Cell>, p: Cell): (r: seq<Cell>)
    ensures p in r
    ensures forall x :: x in r <==> x in s || x == p
    ensures |s| <= |r| <= |s| + 1 && r[..|s|] == s
    ensures NoDuplicates(s) ==> NoDuplicates(r)
  {
    if p in s then s else s + [p]
  }

  /**
   * The stroke after the pointer touches `p`: `p` is appended when it is
   * new and (unless the stroke is empty) within one cell of the last point.
   */
  function Extend(path: seq<Cell>, p: Cell): (r: seq<Cell>)
    ensures r == path || r == path + [p]
    ensures r == path + [p] <==> p !in path && (path == [] || Chebyshev(path[|path| - 1], p) <= 1)
  {
    if p in path then path
    else if path != [] && Chebyshev(path[|path| - 1], p) > 1 then path
    else path + [p]
  }

  /** Extending a stroke gives a stroke: consecutive points are exactly one cell apart. */
  lemma ExtendKeepsStroke(path: seq<Cell>, p: Cell)
    requires IsStroke(path)
    ensures IsStroke(Extend(path, p))
  {
    var r := Extend(path, p);
    if r != path {
      assert r == path + [p];
      forall i, j | 0 <= i < j < |r| ensures r[i] != r[j] {
        if j == |path| {
          assert r[i] == path[i];
        } else {
          assert r[i] == path[i] && r[j] == path[j];
        }
      }
      forall i | 0 <= i < |r| - 1 ensures Chebyshev(r[i], r[i + 1]) == 1 {
        if i + 1 == |path| {
          assert r[i] == path[|path| - 1] && r[i + 1] == p;
        } else {
          assert r[i] == path[i] && r[i + 1] == path[i + 1];
        }
      }
    }
  }

  /**
   * The path list and the stroke after the stroke is committed: a
   * non-empty stroke is appended to the paths; the stroke is left empty.
   */
  function Commit(paths: seq<seq<Cell>>, current: seq<Cell>): (r: (seq<seq<Cell>>, seq<Cell>))
    ensures r.1 == []
    ensures |r.0| == |paths| + (if current == [] then 0 else 1)
    ensures r.0[..|paths|] == paths
    ensures current != [] ==> r.0[|paths|] == current
  {
    if current != [] then (paths + [current], []) else (paths, [])
  }

  /** Committing twice is committing once. */
  lemma CommitIdempotent(paths: seq<seq<Cell>>, current: seq<Cell>)
    ensures var once := Commit(paths, current); Commit(once.0, once.1) == once
  {
    var once := Commit(paths, current);
    assert once.0[..|once.0|] == once.0;
  }

  /** Committing never adds an empty path. */
  lemma CommitKeepsPathsNonEmpty(paths: seq<seq<Cell>>, current: seq<Cell>)
    requires forall i :: 0 <= i < |paths| ==> paths[i] != []
    ensures var r := Commit(paths, current).0; forall i :: 0 <= i < |r| ==> r[i] != []
  {
    var r := Commit(paths, current).0;
    forall i | 0 <= i < |r| ensures r[i] != [] {
      if i < |paths| {
        assert r[i] == r[..|paths|][i];
      }
    }
  }

  /** The points of `s` other than `p`. */
  function RemovePoint(s: seq<Cell>, p: Cell): (r: seq<Cell>)
    ensures p !in r
    ensures forall x :: x in r <==> x in s && x != p
  {
    Filter((c: Cell) => c != p, s)
  }

  /** Erasing a point removes every copy of it and keeps every other point as often as it was there. */
  lemma RemovePointCounts(s: seq<Cell>, p: Cell, x: Cell)
    ensures multiset(RemovePoint(s, p))[x] == if x == p then 0 else multiset(s)[x]
  {
    FilterMultiset((c: Cell) => c != p, s, x);
  }

  /** Erasing keeps a duplicate-free point list duplicate-free. */
  lemma RemovePointNoDuplicates(s: seq<Cell>, p: Cell)
    requires NoDuplicates(s)
    ensures NoDuplicates(RemovePoint(s, p))
  {
    FilterNoDuplicates((c: Cell) => c != p, s);
  }

  /** Erasing a point the list does not hold changes nothing. */
  lemma RemoveAbsentPoint(s: seq<Cell>, p: Cell)
    requires p !in s
    ensures RemovePoint(s, p) == s
  {
    FilterKeepsAll((c: Cell) => c != p, s);
  }

  /** The paths of `paths` that do not pass through `p`. */
  function RemovePathsThrough(paths: seq<seq<Cell>>, p: Cell): (r: seq<seq<Cell>>)
    ensures forall q :: q in r ==> p !in q
    ensures forall q :: q in paths && p !in q ==> q in r
    ensures forall q :: q in r ==> q in paths
  {
    Filter((q: seq<Cell>) => p !in q, paths)
  }

  /** Is the decoration far enough from the click to survive it? */
  predicate OutOfReach(d: DecorObject, p: Cell) {
    Abs(d.position.x - p.x) > DecorReach || Abs(d.position.y - p.y) > DecorReach
  }

  /** The decorations whose area the click at `p` misses. */
  function RemoveDecorationsNear(ds: seq<DecorObject>, p: Cell): (r: seq<DecorObject>)
    ensures forall d :: d in r <==> d in ds && OutOfReach(d, p)
    ensures forall d :: d in r ==> Chebyshev(d.position, p) > DecorReach
  {
    Filter((d: DecorObject) => OutOfReach(d, p), ds)
  }

  /** Erasing keeps the surviving decorations in their order. */
  lemma EraseDecorationsKeepsOrder(a: seq<DecorObject>, b: seq<DecorObject>, p: Cell)
    ensures RemoveDecorationsNear(a + b, p) == RemoveDecorationsNear(a, p) + RemoveDecorationsNear(b, p)
  {
    FilterAppend((d: DecorObject) => OutOfReach(d, p), a, b);
  }

  /** Erasing keeps the surviving paths in their order. */
  lemma ErasePathsKeepsOrder(a: seq<seq<Cell>>, b: seq<seq<Cell>>, p: Cell)
    ensures RemovePathsThrough(a + b, p) == RemovePathsThrough(a, p) + RemovePathsThrough(b, p)
  {
    FilterAppend((q: seq<Cell>) => p !in q, a, b);
  }

  // ---------------------------------------------------------------------
  // The play-test check
  // ---------------------------------------------------------------------

  /** The record stored for a play-test. */
  datatype EditorLevel = EditorLevel(
    spawnPoints: seq<Cell>,
    targetPoints: seq<Cell>,
    paths: seq<seq<Cell>>,
    decorations: seq<DecorObject>,
    gridWidth: int,
    gridHeight: int)

  /** What the play-test check decides; `pathNumber` counts from 1, as the message does. */
  datatype TestResult = NoPaths | PathTooShort(pathNumber: int) | Ready(level: EditorLevel)

  /** Every path has at least two points. */
  predicate AllPathsLongEnough(paths: seq<seq<Cell>>) {
    forall i :: 0 <= i < |paths| ==> |paths[i]| >= 2
  }

  /**
   * Finds the first path with fewer than two points; `None` when there is
   * none.
   */
  method FirstShortPath(paths: seq<seq<Cell>>) returns (found: Option<int>)
    ensures found.None? <==> AllPathsLongEnough(paths)
    ensures found.Some? ==> 0 <= found.value < |paths| && |paths[found.value]| < 2 &&
                            AllPathsLongEnough(paths[..found.value])
  {
    for i := 0 to |paths|
      invariant AllPathsLongEnough(paths[..i])
    {
      if |paths[i]| < 2 {
        return Some(i);
      }
      assert paths[..i + 1] == paths[..i] + [paths[i]];
    }
    assert paths[..|paths|] == paths;
    return None;
  }

  /** A saved editor record whose lists may be absent. */
  datatype SavedLevel = SavedLevel(
    spawnPoints: Option<seq<Cell>>,
    targetPoints: Option<seq<Cell>>,
    paths: Option<seq<seq<Cell>>>)

  function OrEmpty<T>(o: Option<seq<T>>): (s: seq<T>)
    ensures o.None? ==> s == []
    ensures o.Some? ==> s == o.value
  {
    if o.Some? then o.value else []
  }

  /** Flooring division by a positive cell size lands in the cell holding the point. */
  lemma FloorDivBounds(w: real, size: int)
    requires size > 0
    ensures var k := (w / size as real).Floor;
            (size * k) as real <= w < (size * (k + 1)) as real
  {
    var d := size as real;
    var q := w / d;
    var k := q.Floor;
    assert q * d == w;
    assert k as real <= q < k as real + 1.0;
    assert k as real * d <= q * d;
    var e := (k as real + 1.0) - q;
    assert e > 0.0 && e * d > 0.0;
    assert (k as real + 1.0) * d == q * d + e * d;
    assert (size * k) as real == k as real * d;
    assert (size * (k + 1)) as real == (k as real + 1.0) * d;
    assert w < (k as real + 1.0) * d;
  }

  // ---------------------------------------------------------------------
  // The editor
  // ---------------------------------------------------------------------

  class Editor {
    /** Pixel size, columns and rows of the fine path grid. */
    const pathGridSize: int
    const pathGridCols: int
    const pathGridRows: int

    var mode: Option<EditorMode>
    var selectedDecorType: DecorType
    var spawnPoints: seq<Cell>
    var targetPoints: seq<Cell>
    var paths: seq<seq<Cell>>
    var decorations: seq<DecorObject>
    var currentPath: seq<Cell>
    var isDrawing: bool

    /** The stroke being drawn is always a stroke. */
    ghost predicate Valid()
      reads this
    {
      pathGridSize > 0 && IsStroke(currentPath)
    }

    constructor (size: int, cols: int, rows: int)
      requires size > 0
      ensures Valid()
      ensures pathGridSize == size && pathGridCols == cols && pathGridRows == rows
      ensures mode == None && selectedDecorType == Tux && !isDrawing
      ensures spawnPoints == [] && targetPoints == [] && paths == [] &&
              decorations == [] && currentPath == []
    {
      pathGridSize := size;
      pathGridCols := cols;
      pathGridRows := rows;
      mode := None;
      selectedDecorType := Tux;
      spawnPoints := [];
      targetPoints := [];
      paths := [];
      decorations := [];
      currentPath := [];
      isDrawing := false;
    }

    /** Is the cell on the fine path grid? */
    predicate OnPathGrid(c: Cell) {
      0 <= c.x < pathGridCols && 0 <= c.y < pathGridRows
    }

    /** The path-grid cell holding a pixel position (flooring division). */
    function WorldToPathGrid(wx: real, wy: real): (c: Cell)
      requires pathGridSize > 0
      ensures (pathGridSize * c.x) as real <= wx < (pathGridSize * (c.x + 1)) as real
      ensures (pathGridSize * c.y) as real <= wy < (pathGridSize * (c.y + 1)) as real
    {
      FloorDivBounds(wx, pathGridSize);
      FloorDivBounds(wy, pathGridSize);
      Cell((wx / pathGridSize as real).Floor, (wy / pathGridSize as real).Floor)
    }

    /** Adds a spawn point unless it is already one. */
    method AddSpawnPoint(pos: Cell)
      modifies this`spawnPoints
      ensures spawnPoints == AddUnique(old(spawnPoints), pos)
    {
      if pos !in spawnPoints {
        spawnPoints := spawnPoints + [pos];
      }
    }

    /** Adds a target point unless it is already one. */
    method AddTargetPoint(pos: Cell)
      modifies this`targetPoints
      ensures targetPoints == AddUnique(old(targetPoints), pos)
    {
      if pos !in targetPoints {
        targetPoints := targetPoints + [pos];
      }
    }

    /** Appends a decoration of the selected kind; overlapping ones are allowed. */
    method AddDecoration(pos: Cell)
      modifies this`decorations
      ensures decorations == old(decorations) + [DecorObject(selectedDecorType, pos)]
    {
      decorations := decorations + [DecorObject(selectedDecorType, pos)];
    }

    /** Extends the stroke being drawn with `pos` when it is new and adjacent. */
    method AddToCurrentPath(pos: Cell)
      requires Valid()
      modifies this`currentPath
      ensures Valid()
      ensures currentPath == Extend(old(currentPath), pos)
    {
      ExtendKeepsStroke(currentPath, pos);
      if pos !in currentPath {
        if |currentPath| > 0 {
          var last := currentPath[|currentPath| - 1];
          if Max(Abs(pos.x - last.x), Abs(pos.y - last.y)) > 1 {
            return;
          }
        }
        currentPath := currentPath + [pos];
      }
    }

    /** Moves a non-empty stroke to the path list. */
    method CommitCurrentPath()
      requires Valid()
      modifies this`paths, this`currentPath
      ensures Valid()
      ensures (paths, currentPath) == Commit(old(paths), old(currentPath))
    {
      if |currentPath| > 0 {
        paths := paths + [currentPath];
        currentPath := [];
      }
    }

    /**
     * Erases at a cell: the spawn and target points on it, every path
     * through it, and every decoration within reach.
     */
    method EraseAt(pos: Cell)
      modifies this`spawnPoints, this`targetPoints, this`paths, this`decorations
      ensures spawnPoints == RemovePoint(old(spawnPoints), pos)
      ensures targetPoints == RemovePoint(old(targetPoints), pos)
      ensures paths == RemovePathsThrough(old(paths), pos)
      ensures decorations == RemoveDecorationsNear(old(decorations), pos)
    {
      spawnPoints := RemovePoint(spawnPoints, pos);
      targetPoints := RemovePoint(targetPoints, pos);
      paths := RemovePathsThrough(paths, pos);
      decorations := RemoveDecorationsNear(decorations, pos);
    }

    /** Selecting a mode other than path drawing commits the stroke; drawing stops. */
    method SelectMode(m: EditorMode)
      requires Valid()
      modifies this`mode, this`paths, this`currentPath, this`isDrawing
      ensures Valid()
      ensures mode == Some(m) && !isDrawing
      ensures m != PathMode ==> (paths, currentPath) == Commit(old(paths), old(currentPath))
      ensures m == PathMode ==> paths == old(paths) && currentPath == old(currentPath)
    {
      mode := Some(m);
      if m != PathMode {
        CommitCurrentPath();
      }
      isDrawing := false;
    }

    /**
     * A press on the canvas: ignored on the toolbar, without a mode, or
     * off the path grid; otherwise handled by the selected mode.
     */
    method PointerDown(wx: real, wy: real)
      requires Valid()
      modifies this`spawnPoints, this`targetPoints, this`paths, this`decorations,
               this`currentPath, this`isDrawing
      ensures Valid()
      ensures var c := WorldToPathGrid(wx, wy);
              if wy < ToolbarHeight || mode.None? || !OnPathGrid(c) then
                unchanged(this)
              else
                (mode.value == SpawnMode ==> spawnPoints == AddUnique(old(spawnPoints), c)) &&
                (mode.value == TargetMode ==> targetPoints == AddUnique(old(targetPoints), c)) &&
                (mode.value == PathMode ==> isDrawing && currentPath == Extend(old(currentPath), c)) &&
                (mode.value == DecorMode ==>
                   decorations == old(decorations) + [DecorObject(selectedDecorType, c)]) &&
                (mode.value == EraseMode ==>
                   spawnPoints == RemovePoint(old(spawnPoints), c) &&
                   targetPoints == RemovePoint(old(targetPoints), c) &&
                   paths == RemovePathsThrough(old(paths), c) &&
                   decorations == RemoveDecorationsNear(old(decorations), c)) &&
                (mode.value != SpawnMode && mode.value != EraseMode ==> spawnPoints == old(spawnPoints)) &&
                (mode.value != TargetMode && mode.value != EraseMode ==> targetPoints == old(targetPoints)) &&
                (mode.value != EraseMode ==> paths == old(paths)) &&
                (mode.value != DecorMode && mode.value != EraseMode ==> decorations == old(decorations)) &&
                (mode.value != PathMode ==> currentPath == old(currentPath) && isDrawing == old(isDrawing))
    {
      if wy < ToolbarHeight || mode.None? {
        return;
      }
      var c := WorldToPathGrid(wx, wy);
      if c.x < 0 || c.x >= pathGridCols || c.y < 0 || c.y >= pathGridRows {
        return;
      }
      match mode.value
      case SpawnMode => AddSpawnPoint(c);
      case TargetMode => AddTargetPoint(c);
      case PathMode =>
        isDrawing := true;
        AddToCurrentPath(c);
      case DecorMode => AddDecoration(c);
      case EraseMode => EraseAt(c);
    }

    /** Dragging while drawing a path extends the stroke with cells on the path grid. */
    method PointerMove(wx: real, wy: real)
      requires Valid()
      modifies this`currentPath
      ensures Valid()
      ensures var c := WorldToPathGrid(wx, wy);
              if isDrawing && mode == Some(PathMode) && OnPathGrid(c) then
                currentPath == Extend(old(currentPath), c)
              else
                currentPath == old(currentPath)
    {
      if isDrawing && mode == Some(PathMode) {
        var c := WorldToPathGrid(wx, wy);
        if c.x >= 0 && c.x < pathGridCols && c.y >= 0 && c.y < pathGridRows {
          AddToCurrentPath(c);
        }
      }
    }

    /** Releasing the pointer ends a path stroke and commits it. */
    method PointerUp()
      requires Valid()
      modifies this`paths, this`currentPath, this`isDrawing
      ensures Valid()
      ensures if old(isDrawing) && mode == Some(PathMode) then
                !isDrawing && (paths, currentPath) == Commit(old(paths), old(currentPath))
              else
                unchanged(this)
    {
      if mode == Some(PathMode) && isDrawing {
        isDrawing := false;
        CommitCurrentPath();
      }
    }

    /**
     * The check made before a play-test: at least one path, every path
     * with at least two points; then the record of the level as drawn.
     */
    method TestLevel() returns (r: TestResult)
      ensures r.NoPaths? <==> paths == []
      ensures r.PathTooShort? ==>
                paths != [] && 1 <= r.pathNumber <= |paths| && |paths[r.pathNumber - 1]| < 2 &&
                AllPathsLongEnough(paths[..r.pathNumber - 1])
      ensures r.Ready? <==> paths != [] && AllPathsLongEnough(paths)
      ensures r.Ready? ==> r.level == EditorLevel(spawnPoints, targetPoints, paths, decorations,
                                                  pathGridCols, pathGridRows)
    {
      if |paths| == 0 {
        return NoPaths;
      }
      var short := FirstShortPath(paths);
      if short.Some? {
        return PathTooShort(short.value + 1);
      }
      return Ready(EditorLevel(spawnPoints, targetPoints, paths, decorations, pathGridCols, pathGridRows));
    }

    /** Empties all five lists; the mode and drawing flag are kept. */
    method ClearLevel()
      requires Valid()
      modifies this`spawnPoints, this`targetPoints, this`paths, this`currentPath, this`decorations
      ensures Valid()
      ensures spawnPoints == [] && targetPoints == [] && paths == [] &&
              currentPath == [] && decorations == []
    {
      spawnPoints := [];
      targetPoints := [];
      paths := [];
      currentPath := [];
      decorations := [];
    }

    /**
     * Loads the spawn points, target points and paths of a saved level,
     * an absent list reading as empty; decorations and the stroke are kept.
     */
    method LoadLevel(data: SavedLevel)
      modifies this`spawnPoints, this`targetPoints, this`paths
      ensures spawnPoints == OrEmpty(data.spawnPoints)
      ensures targetPoints == OrEmpty(data.targetPoints)
      ensures paths == OrEmpty(data.paths)
    {
      spawnPoints := OrEmpty(data.spawnPoints);
      targetPoints := OrEmpty(data.targetPoints);
      paths := OrEmpty(data.paths);
    }
  }
}
