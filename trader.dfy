/**
 * Where a trader may stand: on road tiles only.  `get_placeable_locations` scans the tile grid row by
 * row (y outer, x inner) and collects every road cell as an (x, y) pair.
 */
module Trader {
  import Towns
  import opened Cells

  predicate CanPlaceAt(grid: seq<seq<int>>, x: int, y: int)
    requires 0 <= y < |grid| && 0 <= x < |grid[y]|
  {
    grid[y][x] == Towns.ROAD_MATERIAL
  }

  /** The road cells among the first `n` cells of row `y`. */
  function RowRoads(row: seq<int>, y: int, n: nat): seq<Cell>
    requires n <= |row|
  {
    if n == 0 then []
    else RowRoads(row, y, n - 1) + (if row[n - 1] == Towns.ROAD_MATERIAL then [(n - 1, y)] else [])
  }

  /** The road cells of the first `m` rows of the grid, in visiting order. */
  function GridRoads(grid: seq<seq<int>>, m: nat): seq<Cell>
    requires m <= |grid|
  {
    if m == 0 then [] else GridRoads(grid, m - 1) + RowRoads(grid[m - 1], m - 1, |grid[m - 1]|)
  }

  function StreetLocations(grid: seq<seq<int>>): seq<Cell> {
    GridRoads(grid, |grid|)
  }

  /** `Trader.get_placeable_locations`. */
  method PlaceableLocations(grid: seq<seq<int>>) returns (locations: seq<Cell>)
    ensures locations == StreetLocations(grid)
  {
    locations := [];
    for y := 0 to |grid|
      invariant locations == GridRoads(grid, y)
    {
      for x := 0 to |grid[y]|
        invariant locations == GridRoads(grid, y) + RowRoads(grid[y], y, x)
      {
        if grid[y][x] == Towns.ROAD_MATERIAL {
          locations := locations + [(x, y)];
        }
      }
    }
  }

  lemma {:induction false} RowRoadsMembers(row: seq<int>, y: int, n: nat)
    requires n <= |row|
    ensures forall p :: p in RowRoads(row, y, n) <==> p.1 == y && 0 <= p.0 < n && row[p.0] == Towns.ROAD_MATERIAL
    ensures StrictlyRowMajor(RowRoads(row, y, n))
  {
    if n > 0 {
      RowRoadsMembers(row, y, n - 1);
    }
  }

  lemma {:induction false} GridRoadsMembers(grid: seq<seq<int>>, m: nat)
    requires m <= |grid|
    ensures forall p :: p in GridRoads(grid, m) <==>
      0 <= p.1 < m && 0 <= p.0 < |grid[p.1]| && grid[p.1][p.0] == Towns.ROAD_MATERIAL
    ensures StrictlyRowMajor(GridRoads(grid, m))
  {
    if m > 0 {
      GridRoadsMembers(grid, m - 1);
      RowRoadsMembers(grid[m - 1], m - 1, |grid[m - 1]|);
      ConcatRowMajor(GridRoads(grid, m - 1), RowRoads(grid[m - 1], m - 1, |grid[m - 1]|));
    }
  }

  /** Every returned location is a road cell, and every road cell is returned. */
  lemma StreetLocationsExactly(grid: seq<seq<int>>, x: int, y: int)
    ensures (x, y) in StreetLocations(grid) <==> 0 <= y < |grid| && 0 <= x < |grid[y]| && CanPlaceAt(grid, x, y)
  {
    GridRoadsMembers(grid, |grid|);
  }

  /** The locations come in row-major order, hence each at most once. */
  lemma StreetLocationsOrdered(grid: seq<seq<int>>)
    ensures StrictlyRowMajor(StreetLocations(grid))
    ensures forall i, j :: 0 <= i < j < |StreetLocations(grid)| ==> StreetLocations(grid)[i] != StreetLocations(grid)[j]
  {
    GridRoadsMembers(grid, |grid|);
    RowMajorDistinct(StreetLocations(grid));
  }

  /** A grid without road yields the empty list, which the spawner reads as "place anywhere". */
  lemma NoRoadNoLocations(grid: seq<seq<int>>)
    ensures StreetLocations(grid) == [] <==>
      forall y, x :: 0 <= y < |grid| && 0 <= x < |grid[y]| ==> !CanPlaceAt(grid, x, y)
  {
    if StreetLocations(grid) != [] {
      var p := StreetLocations(grid)[0];
      StreetLocationsExactly(grid, p.0, p.1);
      assert p in StreetLocations(grid);
    } else {
      forall y, x | 0 <= y < |grid| && 0 <= x < |grid[y]|
        ensures !CanPlaceAt(grid, x, y)
      {
        StreetLocationsExactly(grid, x, y);
      }
    }
  }
}
