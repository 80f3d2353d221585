/**
 * The Go terrain record: a column-major grid of tile ids and a matching hitmap, and its hand-built
 * JSON-like text fragment.
 */
module Terrain {
  import opened Decimal
  import Text

  /** Go's `uint` on a 64-bit platform. */
  type Uint = n: int | 0 <= n < 0x1_0000_0000_0000_0000

  /** A portal is a plain record; it has no behaviour. Go's `float` fields are taken as reals. */
  datatype Portal = Portal(x: int, y: int, width: int, height: int, destination: string,
                           destinationX: real, destinationY: real)

  /** The cells of one tile column, comma-separated, as the loop with the `first` flag writes them. */
  function TileCells(col: seq<Uint>): string
    decreases |col|
  {
    if col == [] then []
    else TileCells(col[..|col| - 1]) + (if |col| > 1 then "," else "") + NatToDecimal(col[|col| - 1])
  }

  /** Every column as `[cells]`, with nothing between one column and the next. */
  function TileColumns(cols: seq<seq<Uint>>): string
    decreases |cols|
  {
    if cols == [] then [] else TileColumns(cols[..|cols| - 1]) + "[" + TileCells(cols[|cols| - 1]) + "]"
  }

  function HitText(cell: bool): string {
    if cell then "1" else "0"
  }

  function HitCells(col: seq<bool>): string
    decreases |col|
  {
    if col == [] then []
    else HitCells(col[..|col| - 1]) + (if |col| > 1 then "," else "") + HitText(col[|col| - 1])
  }

  function HitColumns(cols: seq<seq<bool>>): string
    decreases |cols|
  {
    if cols == [] then [] else HitColumns(cols[..|cols| - 1]) + "[" + HitCells(cols[|cols| - 1]) + "]"
  }

  /** The whole fragment: both grids as they are, then the four stored scalars. */
  function Serialized(tiles: seq<seq<Uint>>, hitmap: seq<seq<bool>>, height: int, width: int, x: int, y: int): string {
    "\"level\": [" + TileColumns(tiles) + "],\"hitmap\": [" + HitColumns(hitmap) +
    "], \"h\": " + IntToDecimal(height) + ", \"w\": " + IntToDecimal(width) +
    ", \"x\": " + IntToDecimal(x) + ", \"y\": " + IntToDecimal(y)
  }

  /** The decimal texts of the column's cells. */
  function TileTexts(col: seq<Uint>): (r: seq<string>)
    ensures |r| == |col| && forall i :: 0 <= i < |col| ==> r[i] == NatToDecimal(col[i])
  {
    seq(|col|, i requires 0 <= i < |col| => NatToDecimal(col[i]))
  }

  function HitTexts(col: seq<bool>): (r: seq<string>)
    ensures |r| == |col| && forall i :: 0 <= i < |col| ==> r[i] == HitText(col[i])
  {
    seq(|col|, i requires 0 <= i < |col| => HitText(col[i]))
  }

  /** A tile column's text is its cells' decimal texts joined by commas. */
  lemma {:induction false} TileCellsJoined(col: seq<Uint>)
    ensures TileCells(col) == Text.Join(TileTexts(col), ",")
    decreases |col|
  {
    if |col| == 1 {
      assert TileTexts(col) == [NatToDecimal(col[0])];
    } else if |col| > 1 {
      var init := col[..|col| - 1];
      TileCellsJoined(init);
      assert TileTexts(col) == TileTexts(init) + [NatToDecimal(col[|col| - 1])];
      Text.JoinSnoc(TileTexts(init), NatToDecimal(col[|col| - 1]), ",");
    }
  }

  /** A hitmap column's text is its cells' `1`/`0` joined by commas. */
  lemma {:induction false} HitCellsJoined(col: seq<bool>)
    ensures HitCells(col) == Text.Join(HitTexts(col), ",")
    decreases |col|
  {
    if |col| == 1 {
      assert HitTexts(col) == [HitText(col[0])];
    } else if |col| > 1 {
      var init := col[..|col| - 1];
      HitCellsJoined(init);
      assert HitTexts(col) == HitTexts(init) + [HitText(col[|col| - 1])];
      Text.JoinSnoc(HitTexts(init), HitText(col[|col| - 1]), ",");
    }
  }

  /** The cells of a hitmap column of `n` cells render in `2n - 1` characters (one digit each, `,` between), none when empty. */
  lemma {:induction false} HitColumnLength(col: seq<bool>)
    ensures |HitCells(col)| == if col == [] then 0 else 2 * |col| - 1
    decreases |col|
  {
    if col != [] { HitColumnLength(col[..|col| - 1]); }
  }

  /** `NewTerrain`'s grids: `width` columns of `height` zero tiles and `height` clear hitmap cells. */
  method NewGrids(height: int, width: int) returns (tiles: seq<seq<Uint>>, hitmap: seq<seq<bool>>)
    requires height >= 0 && width >= 0
    ensures |tiles| == width && |hitmap| == width
    ensures forall i :: 0 <= i < width ==> |tiles[i]| == height && |hitmap[i]| == height
    ensures forall i, j :: 0 <= i < width && 0 <= j < height ==> tiles[i][j] == 0 && !hitmap[i][j]
  {
    tiles := seq(width, _ => []);
    hitmap := seq(width, _ => []);
    for i := 0 to width
      invariant |tiles| == width && |hitmap| == width
      invariant forall k :: 0 <= k < i ==> tiles[k] == seq(height, _ => 0) && hitmap[k] == seq(height, _ => false)
    {
      tiles := tiles[i := seq(height, _ => 0)];
      hitmap := hitmap[i := seq(height, _ => false)];
    }
  }

  class Terrain {
    var height: int
    var width: int
    var x: int
    var y: int
    var tiles: seq<seq<Uint>>
    var hitmap: seq<seq<bool>>

    /** `NewTerrain`: `world` is accepted and not stored; negative sizes make Go's `make` panic. */
    constructor (world: string, height: int, width: int, x: int, y: int)
      requires height >= 0 && width >= 0
      ensures this.height == height && this.width == width && this.x == x && this.y == y
      ensures |tiles| == width && |hitmap| == width
      ensures forall i :: 0 <= i < width ==> |tiles[i]| == height && |hitmap[i]| == height
      ensures forall i, j :: 0 <= i < width && 0 <= j < height ==> tiles[i][j] == 0 && !hitmap[i][j]
    {
      var t, h := NewGrids(height, width);
      tiles := t;
      hitmap := h;
      this.height := height;
      this.width := width;
      this.x := x;
      this.y := y;
    }

    /** `String`: walks the grids themselves; `Width` and `Height` only appear in the trailer. */
    method String() returns (s: string)
      ensures s == Serialized(tiles, hitmap, height, width, x, y)
    {
      var buf := "\"level\": [";
      buf := WriteTileColumns(buf, tiles);
      buf := buf + "],\"hitmap\": [";
      buf := WriteHitColumns(buf, hitmap);
      buf := buf + "], \"h\": ";
      buf := buf + IntToDecimal(height);
      buf := buf + ", \"w\": ";
      buf := buf + IntToDecimal(width);
      buf := buf + ", \"x\": ";
      buf := buf + IntToDecimal(x);
      buf := buf + ", \"y\": ";
      buf := buf + IntToDecimal(y);
      s := buf;
    }
  }

  /** The `for colno := range self.Tiles` loop: appends every tile column to the buffer. */
  method WriteTileColumns(buf0: string, cols: seq<seq<Uint>>) returns (buf: string)
    ensures buf == buf0 + TileColumns(cols)
  {
    buf := buf0;
    for colno := 0 to |cols|
      invariant buf == buf0 + TileColumns(cols[..colno])
    {
      buf := buf + "[";
      buf := WriteTileCells(buf, cols[colno]);
      buf := buf + "]";
      assert cols[..colno + 1][..colno] == cols[..colno];
    }
    assert cols[..|cols|] == cols;
  }

  /** The inner loop: a comma before every cell but the first. */
  method WriteTileCells(buf0: string, col: seq<Uint>) returns (buf: string)
    ensures buf == buf0 + TileCells(col)
  {
    buf := buf0;
    var first := true;
    for cellno := 0 to |col|
      invariant first <==> cellno == 0
      invariant buf == buf0 + TileCells(col[..cellno])
    {
      if !first {
        buf := buf + ",";
      }
      first := false;
      buf := buf + NatToDecimal(col[cellno]);
      assert col[..cellno + 1][..cellno] == col[..cellno];
    }
    assert col[..|col|] == col;
  }

  /** The `for colno := range self.Hitmap` loop. */
  method WriteHitColumns(buf0: string, cols: seq<seq<bool>>) returns (buf: string)
    ensures buf == buf0 + HitColumns(cols)
  {
    buf := buf0;
    for colno := 0 to |cols|
      invariant buf == buf0 + HitColumns(cols[..colno])
    {
      buf := buf + "[";
      buf := WriteHitCells(buf, cols[colno]);
      buf := buf + "]";
      assert cols[..colno + 1][..colno] == cols[..colno];
    }
    assert cols[..|cols|] == cols;
  }

  method WriteHitCells(buf0: string, col: seq<bool>) returns (buf: string)
    ensures buf == buf0 + HitCells(col)
  {
    buf := buf0;
    var first := true;
    for cellno := 0 to |col|
      invariant first <==> cellno == 0
      invariant buf == buf0 + HitCells(col[..cellno])
    {
      if !first {
        buf := buf + ",";
      }
      first := false;
      if col[cellno] {
        buf := buf + "1";
      } else {
        buf := buf + "0";
      }
      assert col[..cellno + 1][..cellno] == col[..cellno];
    }
    assert col[..|col|] == col;
  }

  /** An empty grid has an empty body in both lists. */
  lemma EmptyTerrainText()
    ensures Serialized([], [], 0, 0, 0, 0) == "\"level\": [],\"hitmap\": [], \"h\": 0, \"w\": 0, \"x\": 0, \"y\": 0"
  {
    assert TileColumns([]) == [] && HitColumns([]) == [];
    SmallDecimals();
    assert "\"level\": [" + "" + "],\"hitmap\": [" == "\"level\": [],\"hitmap\": [";
    assert "\"level\": [],\"hitmap\": [" + "" + "], \"h\": " == "\"level\": [],\"hitmap\": [], \"h\": ";
    assert "\"level\": [],\"hitmap\": [], \"h\": " + "0" + ", \"w\": " == "\"level\": [],\"hitmap\": [], \"h\": 0, \"w\": ";
    assert "\"level\": [],\"hitmap\": [], \"h\": 0, \"w\": " + "0" + ", \"x\": " ==
           "\"level\": [],\"hitmap\": [], \"h\": 0, \"w\": 0, \"x\": ";
    assert "\"level\": [],\"hitmap\": [], \"h\": 0, \"w\": 0, \"x\": " + "0" + ", \"y\": " + "0" ==
           "\"level\": [],\"hitmap\": [], \"h\": 0, \"w\": 0, \"x\": 0, \"y\": 0";
  }

  lemma SmallDecimals()
    ensures IntToDecimal(0) == "0" && IntToDecimal(2) == "2" && IntToDecimal(5) == "5" && IntToDecimal(7) == "7"
  {
  }

  /** Two columns are written one straight after the other. */
  lemma TwoTileColumns(p: seq<Uint>, q: seq<Uint>)
    ensures TileColumns([p, q]) == "[" + TileCells(p) + "][" + TileCells(q) + "]"
  {
    assert [p][..0] == [];
    assert TileColumns([p]) == TileColumns([]) + "[" + TileCells(p) + "]";
    assert [p, q][..1] == [p];
    assert TileColumns([p, q]) == TileColumns([p]) + "[" + TileCells(q) + "]";
  }

  lemma TwoHitColumns(u: seq<bool>, v: seq<bool>)
    ensures HitColumns([u, v]) == "[" + HitCells(u) + "][" + HitCells(v) + "]"
  {
    assert [u][..0] == [];
    assert HitColumns([u]) == HitColumns([]) + "[" + HitCells(u) + "]";
    assert [u, v][..1] == [u];
    assert HitColumns([u, v]) == HitColumns([u]) + "[" + HitCells(v) + "]";
  }

  lemma TwoCells(a: Uint, b: Uint)
    requires a < 10 && b < 10
    ensures TileCells([a, b]) == [DigitChar(a), ',', DigitChar(b)]
  {
    assert [a, b][..1] == [a];
    assert TileCells([a]) == [DigitChar(a)] by { assert [a][..0] == []; }
  }

  lemma TwoHits(a: bool, b: bool)
    ensures HitCells([a, b]) == HitText(a) + "," + HitText(b)
  {
    assert [a, b][..1] == [a];
    assert HitCells([a]) == HitText(a) by { assert [a][..0] == []; }
  }

  lemma FreshColumns()
    ensures TileColumns([[0, 0], [0, 0]]) == "[0,0][0,0]"
    ensures HitColumns([[false, false], [false, false]]) == "[0,0][0,0]"
  {
    TwoCells(0, 0);
    TwoHits(false, false);
    assert TileCells([0, 0]) == "0,0" && HitCells([false, false]) == "0,0";
    TwoTileColumns([0, 0], [0, 0]);
    TwoHitColumns([false, false], [false, false]);
  }

  lemma EditedColumns()
    ensures TileColumns([[3, 0], [0, 0]]) == "[3,0][0,0]"
    ensures HitColumns([[false, false], [false, true]]) == "[0,0][0,1]"
  {
    EditedTileColumns();
    EditedHitColumns();
  }

  lemma EditedTileColumns()
    ensures TileColumns([[3, 0], [0, 0]]) == "[3,0][0,0]"
  {
    TwoCells(3, 0);
    TwoCells(0, 0);
    assert TileCells([3, 0]) == "3,0";
    assert TileCells([0, 0]) == "0,0";
    TwoTileColumns([3, 0], [0, 0]);
  }

  lemma EditedHitColumns()
    ensures HitColumns([[false, false], [false, true]]) == "[0,0][0,1]"
  {
    TwoHits(false, false);
    TwoHits(false, true);
    assert HitCells([false, false]) == "0,0";
    assert HitCells([false, true]) == "0,1";
    TwoHitColumns([false, false], [false, true]);
  }

  /** A fresh 2x2 terrain at (5, 7): the columns follow each other with no comma. */
  lemma FreshTwoByTwoText()
    ensures Serialized([[0, 0], [0, 0]], [[false, false], [false, false]], 2, 2, 5, 7) ==
            "\"level\": [[0,0][0,0]],\"hitmap\": [[0,0][0,0]], \"h\": 2, \"w\": 2, \"x\": 5, \"y\": 7"
  {
    SmallDecimals();
    FreshColumns();
    FreshTwoByTwoTextChain();
  }

  /** After `Tiles[0][0] = 3` and `Hitmap[1][1] = true` on a 2x2 terrain at the origin. */
  lemma EditedTwoByTwoText()
    ensures Serialized([[3, 0], [0, 0]], [[false, false], [false, true]], 2, 2, 0, 0) ==
            "\"level\": [[3,0][0,0]],\"hitmap\": [[0,0][0,1]], \"h\": 2, \"w\": 2, \"x\": 0, \"y\": 0"
  {
    SmallDecimals();
    EditedColumns();
    EditedTwoByTwoTextChain();
  }

  lemma FreshTwoByTwoTextChain()
    ensures "\"level\": [" + "[0,0][0,0]" + "],\"hitmap\": [" + "[0,0][0,0]" + "], \"h\": " + "2" + ", \"w\": " + "2" + ", \"x\": " + "5" + ", \"y\": " + "7" ==
            "\"level\": [[0,0][0,0]],\"hitmap\": [[0,0][0,0]], \"h\": 2, \"w\": 2, \"x\": 5, \"y\": 7"
  {
    assert "\"level\": [" + "[0,0][0,0]" + "],\"hitmap\": [" == "\"level\": [[0,0][0,0]],\"hitmap\": [";
    assert "\"level\": [[0,0][0,0]],\"hitmap\": [" + "[0,0][0,0]" + "], \"h\": " ==
           "\"level\": [[0,0][0,0]],\"hitmap\": [[0,0][0,0]], \"h\": ";
    assert "\"level\": [[0,0][0,0]],\"hitmap\": [[0,0][0,0]], \"h\": " + "2" + ", \"w\": " ==
           "\"level\": [[0,0][0,0]],\"hitmap\": [[0,0][0,0]], \"h\": 2, \"w\": ";
    assert "\"level\": [[0,0][0,0]],\"hitmap\": [[0,0][0,0]], \"h\": 2, \"w\": " + "2" + ", \"x\": " ==
           "\"level\": [[0,0][0,0]],\"hitmap\": [[0,0][0,0]], \"h\": 2, \"w\": 2, \"x\": ";
    assert "\"level\": [[0,0][0,0]],\"hitmap\": [[0,0][0,0]], \"h\": 2, \"w\": 2, \"x\": " + "5" + ", \"y\": " + "7" ==
           "\"level\": [[0,0][0,0]],\"hitmap\": [[0,0][0,0]], \"h\": 2, \"w\": 2, \"x\": 5, \"y\": 7";
  }

  lemma EditedTwoByTwoTextChain()
    ensures "\"level\": [" + "[3,0][0,0]" + "],\"hitmap\": [" + "[0,0][0,1]" + "], \"h\": " + "2" + ", \"w\": " + "2" + ", \"x\": " + "0" + ", \"y\": " + "0" ==
            "\"level\": [[3,0][0,0]],\"hitmap\": [[0,0][0,1]], \"h\": 2, \"w\": 2, \"x\": 0, \"y\": 0"
  {
    assert "\"level\": [" + "[3,0][0,0]" + "],\"hitmap\": [" == "\"level\": [[3,0][0,0]],\"hitmap\": [";
    assert "\"level\": [[3,0][0,0]],\"hitmap\": [" + "[0,0][0,1]" + "], \"h\": " ==
           "\"level\": [[3,0][0,0]],\"hitmap\": [[0,0][0,1]], \"h\": ";
    assert "\"level\": [[3,0][0,0]],\"hitmap\": [[0,0][0,1]], \"h\": " + "2" + ", \"w\": " ==
           "\"level\": [[3,0][0,0]],\"hitmap\": [[0,0][0,1]], \"h\": 2, \"w\": ";
    assert "\"level\": [[3,0][0,0]],\"hitmap\": [[0,0][0,1]], \"h\": 2, \"w\": " + "2" + ", \"x\": " ==
           "\"level\": [[3,0][0,0]],\"hitmap\": [[0,0][0,1]], \"h\": 2, \"w\": 2, \"x\": ";
    assert "\"level\": [[3,0][0,0]],\"hitmap\": [[0,0][0,1]], \"h\": 2, \"w\": 2, \"x\": " + "0" + ", \"y\": " + "0" ==
           "\"level\": [[3,0][0,0]],\"hitmap\": [[0,0][0,1]], \"h\": 2, \"w\": 2, \"x\": 0, \"y\": 0";
  }

}
