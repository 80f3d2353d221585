/**
 * The two grid passes of the town builder that are not random: `smooth_roads`, which turns plain road
 * tiles into curbed segments, and `fill_road`, which paints a rectangle of road.  A level grid is indexed
 * `grid[row][col]`; here it is a rectangular `array2<int>` written in place.
 */
module Towns {
  import opened Wrappers

  const ROAD_WIDTH := 4
  const ROAD_MATERIAL := 81

  /** A neighbour signature: 1 for a road neighbour, 0 otherwise. */
  type Signature = (int, int, int, int)

  /** Keyed by (up, right, down, left). */
  const ROAD_MAJOR_TILES: map<Signature, int> :=
    map[(1, 1, 1, 1) := 81, (1, 1, 0, 0) := 85, (1, 0, 0, 1) := 87, (0, 1, 1, 0) := 75,
        (0, 0, 1, 1) := 77, (1, 1, 0, 1) := 86, (0, 1, 1, 1) := 76, (1, 0, 1, 1) := 82,
        (1, 1, 1, 0) := 80]

  /** Keyed by (up-left, up-right, down-left, down-right). */
  const ROAD_MINOR_TILES: map<Signature, int> :=
    map[(0, 1, 1, 1) := 78, (1, 0, 1, 1) := 79, (1, 1, 0, 1) := 83, (1, 1, 1, 0) := 84]

  predicate IsRoad(v: int) { v == ROAD_MATERIAL }

  function Bit(b: bool): int { if b then 1 else 0 }

  /** `g` has `rows` rows of `cols` cells each. */
  predicate IsGrid(g: seq<seq<int>>, rows: int, cols: int) {
    |g| == rows && forall r :: 0 <= r < rows ==> |g[r]| == cols
  }

  /** The cells the nested loops visit: every row but the first and last, every column but the first and last. */
  predicate Interior(g: seq<seq<int>>, r: int, c: int)
    requires IsGrid(g, |g|, if |g| == 0 then 0 else |g[0]|)
  {
    1 <= r < |g| - 1 && 1 <= c < |g[r]| - 1
  }

  function MajorSignature(g: seq<seq<int>>, r: int, c: int): Signature
    requires IsGrid(g, |g|, if |g| == 0 then 0 else |g[0]|) && Interior(g, r, c)
  {
    (Bit(IsRoad(g[r - 1][c])), Bit(IsRoad(g[r][c + 1])), Bit(IsRoad(g[r + 1][c])), Bit(IsRoad(g[r][c - 1])))
  }

  function MinorSignature(g: seq<seq<int>>, r: int, c: int): Signature
    requires IsGrid(g, |g|, if |g| == 0 then 0 else |g[0]|) && Interior(g, r, c)
  {
    (Bit(IsRoad(g[r - 1][c - 1])), Bit(IsRoad(g[r - 1][c + 1])),
     Bit(IsRoad(g[r + 1][c - 1])), Bit(IsRoad(g[r + 1][c + 1])))
  }

  /**
   * The value `smooth_roads` leaves in cell (r, c), computed from the untouched copy `og` only;
   * `None` where the `ROAD_MINOR_TILES` lookup raises KeyError.
   */
  function SmoothCell(og: seq<seq<int>>, r: int, c: int): Option<int>
    requires IsGrid(og, |og|, if |og| == 0 then 0 else |og[0]|)
    requires 0 <= r < |og| && 0 <= c < |og[r]|
  {
    if !Interior(og, r, c) || !IsRoad(og[r][c]) then Some(og[r][c])
    else
      var major := MajorSignature(og, r, c);
      if major !in ROAD_MAJOR_TILES then Some(og[r][c])
      else if ROAD_MAJOR_TILES[major] != ROAD_MATERIAL then Some(ROAD_MAJOR_TILES[major])
      else
        var minor := MinorSignature(og, r, c);
        if minor == (1, 1, 1, 1) then Some(og[r][c])
        else if minor in ROAD_MINOR_TILES then Some(ROAD_MINOR_TILES[minor])
        else None
  }

  /** The rows of the array as a value: `deepcopy(grid)`. */
  function Snapshot(g: array2<int>): (s: seq<seq<int>>)
    reads g
    ensures IsGrid(s, g.Length0, g.Length1)
    ensures forall r, c :: 0 <= r < g.Length0 && 0 <= c < g.Length1 ==> s[r][c] == g[r, c]
  {
    seq(g.Length0, r requires 0 <= r < g.Length0 reads g =>
      seq(g.Length1, c requires 0 <= c < g.Length1 reads g => g[r, c]))
  }

  /** (r, c) comes before (row, col) in the row-major visiting order. */
  predicate Before(r: int, c: int, row: int, col: int) {
    r < row || (r == row && c < col)
  }

  /** Where `smooth_roads` raised: the cell and the minor signature that is not a key of the table. */
  datatype LookupFailure = MissingKey(row: int, col: int, key: Signature)

  /**
   * `smooth_roads`: every signature is read from the copy, so the new grid is a cell-by-cell function
   * of the old one.  On KeyError the cells visited before the failing one are already rewritten.
   */
  method SmoothRoads(grid: array2<int>) returns (result: Result<array2<int>, LookupFailure>)
    modifies grid
    ensures var og := old(Snapshot(grid));
      result.Success? <==> forall r, c :: 0 <= r < grid.Length0 && 0 <= c < grid.Length1 ==> SmoothCell(og, r, c).Some?
    ensures var og := old(Snapshot(grid));
      result.Success? ==>
        result.value == grid &&
        forall r, c :: 0 <= r < grid.Length0 && 0 <= c < grid.Length1 ==> Some(grid[r, c]) == SmoothCell(og, r, c)
    ensures var og := old(Snapshot(grid));
      result.Failure? ==>
        var e := result.error;
        0 <= e.row < grid.Length0 && 0 <= e.col < grid.Length1 &&
        SmoothCell(og, e.row, e.col).None? && Interior(og, e.row, e.col) && e.key == MinorSignature(og, e.row, e.col) &&
        forall r, c :: 0 <= r < grid.Length0 && 0 <= c < grid.Length1 ==>
          if Before(r, c, e.row, e.col) then Some(grid[r, c]) == SmoothCell(og, r, c) else grid[r, c] == og[r][c]
  {
    var og := Snapshot(grid);
    var rows, cols := grid.Length0, grid.Length1;
    var row := 1;
    while row < rows - 1
      invariant 1 <= row && (rows >= 2 ==> row <= rows - 1)
      invariant forall r, c :: 0 <= r < rows && 0 <= c < cols ==>
        if Before(r, c, row, 1) then Some(grid[r, c]) == SmoothCell(og, r, c) else grid[r, c] == og[r][c]
    {
      var col := 1;
      while col < cols - 1
        invariant 1 <= col && (cols >= 2 ==> col <= cols - 1)
        invariant forall r, c :: 0 <= r < rows && 0 <= c < cols ==>
          if Before(r, c, row, col) then Some(grid[r, c]) == SmoothCell(og, r, c) else grid[r, c] == og[r][c]
      {
        if IsRoad(grid[row, col]) {
          var major := (Bit(IsRoad(og[row - 1][col])), Bit(IsRoad(og[row][col + 1])),
                        Bit(IsRoad(og[row + 1][col])), Bit(IsRoad(og[row][col - 1])));
          if major in ROAD_MAJOR_TILES {
            var newValue := ROAD_MAJOR_TILES[major];
            if newValue != ROAD_MATERIAL {
              grid[row, col] := newValue;
            } else {
              var minor := (Bit(IsRoad(og[row - 1][col - 1])), Bit(IsRoad(og[row - 1][col + 1])),
                            Bit(IsRoad(og[row + 1][col - 1])), Bit(IsRoad(og[row + 1][col + 1])));
              if minor != (1, 1, 1, 1) {
                if minor !in ROAD_MINOR_TILES {
                  assert SmoothCell(og, row, col).None?;
                  return Failure(MissingKey(row, col, minor));
                }
                grid[row, col] := ROAD_MINOR_TILES[minor];
              }
            }
          }
        }
        assert Some(grid[row, col]) == SmoothCell(og, row, col);
        col := col + 1;
      }
      row := row + 1;
    }
    result := Success(grid);
  }

  /** `fill_road`: exactly the `w` by `h` rectangle whose top-left cell is `grid[y][x]` becomes road. */
  method FillRoad(grid: array2<int>, x: int, y: int, w: int, h: int)
    requires w <= 0 || h <= 0 || (0 <= x && x + w <= grid.Length1 && 0 <= y && y + h <= grid.Length0)
    modifies grid
    ensures forall r, c :: 0 <= r < grid.Length0 && 0 <= c < grid.Length1 ==>
      grid[r, c] == if y <= r < y + h && x <= c < x + w then ROAD_MATERIAL else old(grid[r, c])
  {
    // `range` of a negative count is empty
    var rows, cols := if h < 0 then 0 else h, if w < 0 then 0 else w;
    for i := 0 to rows
      invariant forall r, c :: 0 <= r < grid.Length0 && 0 <= c < grid.Length1 ==>
        grid[r, c] == if y <= r < y + i && x <= c < x + w then ROAD_MATERIAL else old(grid[r, c])
    {
      for j := 0 to cols
        invariant forall r, c :: 0 <= r < grid.Length0 && 0 <= c < grid.Length1 ==>
          grid[r, c] == if (y <= r < y + i && x <= c < x + w) || (r == y + i && x <= c < x + j)
                        then ROAD_MATERIAL else old(grid[r, c])
      {
        grid[y + i, x + j] := ROAD_MATERIAL;
      }
    }
  }

  /** How many of the four diagonal neighbours are not road. */
  function Gaps(s: Signature): int { 4 - (s.0 + s.1 + s.2 + s.3) }

  lemma NonRoadUnchanged(og: seq<seq<int>>, r: int, c: int)
    requires IsGrid(og, |og|, if |og| == 0 then 0 else |og[0]|)
    requires 0 <= r < |og| && 0 <= c < |og[r]| && !IsRoad(og[r][c])
    ensures SmoothCell(og, r, c) == Some(og[r][c])
  {}

  lemma BorderUnchanged(og: seq<seq<int>>, r: int, c: int)
    requires IsGrid(og, |og|, if |og| == 0 then 0 else |og[0]|)
    requires 0 <= r < |og| && 0 <= c < |og[r]|
    requires r == 0 || r == |og| - 1 || c == 0 || c == |og[r]| - 1
    ensures SmoothCell(og, r, c) == Some(og[r][c])
  {}

  /** A road cell whose orthogonal signature is not a key keeps `ROAD_MATERIAL`; a key with another value is written as it is. */
  lemma MajorLookup(og: seq<seq<int>>, r: int, c: int)
    requires IsGrid(og, |og|, if |og| == 0 then 0 else |og[0]|)
    requires 0 <= r < |og| && 0 <= c < |og[r]| && Interior(og, r, c) && IsRoad(og[r][c])
    ensures MajorSignature(og, r, c) !in ROAD_MAJOR_TILES ==> SmoothCell(og, r, c) == Some(ROAD_MATERIAL)
    ensures MajorSignature(og, r, c) in ROAD_MAJOR_TILES && MajorSignature(og, r, c) != (1, 1, 1, 1) ==>
      SmoothCell(og, r, c) == Some(ROAD_MAJOR_TILES[MajorSignature(og, r, c)]) &&
      ROAD_MAJOR_TILES[MajorSignature(og, r, c)] != ROAD_MATERIAL
  {}

  /**
   * A road cell with road on all four sides: it stays road when all four diagonals are road, takes the
   * minor tile when exactly one diagonal is open, and the lookup fails when two or more are open.
   */
  lemma MinorLookup(og: seq<seq<int>>, r: int, c: int)
    requires IsGrid(og, |og|, if |og| == 0 then 0 else |og[0]|)
    requires 0 <= r < |og| && 0 <= c < |og[r]| && Interior(og, r, c) && IsRoad(og[r][c])
    requires MajorSignature(og, r, c) == (1, 1, 1, 1)
    ensures Gaps(MinorSignature(og, r, c)) == 0 ==> SmoothCell(og, r, c) == Some(ROAD_MATERIAL)
    ensures Gaps(MinorSignature(og, r, c)) == 1 ==>
      MinorSignature(og, r, c) in ROAD_MINOR_TILES && SmoothCell(og, r, c) == Some(ROAD_MINOR_TILES[MinorSignature(og, r, c)])
    ensures Gaps(MinorSignature(og, r, c)) >= 2 ==> SmoothCell(og, r, c).None?
  {}

  /** The KeyError happens exactly at road cells enclosed orthogonally with at least two open diagonals. */
  lemma LookupFailsExactly(og: seq<seq<int>>, r: int, c: int)
    requires IsGrid(og, |og|, if |og| == 0 then 0 else |og[0]|)
    requires 0 <= r < |og| && 0 <= c < |og[r]|
    ensures SmoothCell(og, r, c).None? <==>
      Interior(og, r, c) && IsRoad(og[r][c]) && MajorSignature(og, r, c) == (1, 1, 1, 1) && Gaps(MinorSignature(og, r, c)) >= 2
  {}

  /** Only road cells change, and only into a tile of one of the two tables. */
  lemma SmoothedValues(og: seq<seq<int>>, r: int, c: int)
    requires IsGrid(og, |og|, if |og| == 0 then 0 else |og[0]|)
    requires 0 <= r < |og| && 0 <= c < |og[r]|
    requires SmoothCell(og, r, c).Some? && SmoothCell(og, r, c).value != og[r][c]
    ensures IsRoad(og[r][c])
    ensures SmoothCell(og, r, c).value in ROAD_MAJOR_TILES.Values || SmoothCell(og, r, c).value in ROAD_MINOR_TILES.Values
  {}
}
