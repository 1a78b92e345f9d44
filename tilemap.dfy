/** The tile map: a tileset texture cut into TileSize-square regions (flattened row
    by row), a grid of tile ids loaded from a level description, and a renderer
    that issues one draw per non-empty cell. Draw calls are modelled as the
    sequence of draw commands the renderer issues. */
module Tiles {
  import opened Engine

  const TileSize: int := 64

  /** A rectangle of the tileset texture, in pixels. */
  datatype Region = Region(x: int, y: int, width: int, height: int)

  /** The region in tileset row `row`, column `col`, as the engine's split cuts it. */
  function SplitRegion(row: int, col: int): (r: Region)
    ensures r.width == TileSize && r.height == TileSize
    ensures r.x / TileSize == col && r.x % TileSize == 0
    ensures r.y / TileSize == row && r.y % TileSize == 0
  {
    Region(col * TileSize, row * TileSize, TileSize, TileSize)
  }

  /** One draw call: a region drawn at (x, y) with the given size. */
  datatype Draw = Draw(region: Region, x: int, y: int, width: int, height: int)

  /** A grid cell: column x, row y. */
  datatype Cell = Cell(x: int, y: int)

  /** The deserialised level: map size and the grid of tile ids (rows of columns). */
  datatype LevelJson = LevelJson(mapWidth: int, mapHeight: int, tileMap: array?<array<int>>)

  /** Row-major order: by row, then by column. */
  predicate RowMajorBefore(a: Cell, b: Cell) {
    a.y < b.y || (a.y == b.y && a.x < b.x)
  }

  /** The grid has h rows of at least w ids each (nothing is read when w is 0). */
  predicate Covers(g: seq<seq<int>>, w: nat, h: nat) {
    w == 0 || (h <= |g| && forall y :: 0 <= y < h ==> w <= |g[y]|)
  }

  /** Every non-empty id in the first h rows and w columns names one of n regions. */
  predicate IdsInRange(g: seq<seq<int>>, w: nat, h: nat, n: int)
    requires Covers(g, w, h)
  {
    forall y, x :: 0 <= y < h && 0 <= x < w && g[y][x] != 0 ==> 1 <= g[y][x] <= n
  }

  /** Cell (x, y) lies in the grid and holds a tile. */
  predicate Occupied(g: seq<seq<int>>, x: int, y: int) {
    0 <= y < |g| && 0 <= x < |g[y]| && g[y][x] != 0
  }

  /** The occupied cells a row-by-row scan of w columns has passed: those of
      every row above y, then those among the first x columns of row y. */
  function ScanCells(g: seq<seq<int>>, w: nat, y: nat, x: nat): (cs: seq<Cell>)
    decreases y, x
  {
    if x == 0 then (if y == 0 then [] else ScanCells(g, w, y - 1, w))
    else ScanCells(g, w, y, x - 1) + (if Occupied(g, x - 1, y) then [Cell(x - 1, y)] else [])
  }

  /** The occupied cells of the first h rows and w columns, row by row. */
  function RenderCells(g: seq<seq<int>>, w: nat, h: nat): (cs: seq<Cell>) {
    ScanCells(g, w, h, 0)
  }

  /** Only occupied cells of the first w columns that the scan has passed are listed. */
  lemma {:induction false} ScanCellsSound(g: seq<seq<int>>, w: nat, y: nat, x: nat)
    requires x <= w
    ensures forall i :: 0 <= i < |ScanCells(g, w, y, x)| ==>
      ScanCells(g, w, y, x)[i].x < w && RowMajorBefore(ScanCells(g, w, y, x)[i], Cell(x, y)) &&
      Occupied(g, ScanCells(g, w, y, x)[i].x, ScanCells(g, w, y, x)[i].y)
    decreases y, x
  {
    if x == 0 {
      if y > 0 {
        ScanCellsSound(g, w, y - 1, w);
      }
    } else {
      ScanCellsSound(g, w, y, x - 1);
      var before, cs := ScanCells(g, w, y, x - 1), ScanCells(g, w, y, x);
      forall i | 0 <= i < |cs|
        ensures cs[i].x < w && RowMajorBefore(cs[i], Cell(x, y)) && Occupied(g, cs[i].x, cs[i].y)
      {
        if i < |before| {
          assert cs[i] == before[i];
        }
      }
    }
  }

  /** The cells are listed in strict row-major order, so none is listed twice. */
  lemma {:induction false} ScanCellsOrdered(g: seq<seq<int>>, w: nat, y: nat, x: nat)
    requires x <= w
    ensures forall i, j :: 0 <= i < j < |ScanCells(g, w, y, x)| ==>
      RowMajorBefore(ScanCells(g, w, y, x)[i], ScanCells(g, w, y, x)[j])
    decreases y, x
  {
    if x == 0 {
      if y > 0 {
        ScanCellsOrdered(g, w, y - 1, w);
      }
    } else {
      ScanCellsOrdered(g, w, y, x - 1);
      ScanCellsSound(g, w, y, x - 1);
      var before, cs := ScanCells(g, w, y, x - 1), ScanCells(g, w, y, x);
      forall i, j | 0 <= i < j < |cs| ensures RowMajorBefore(cs[i], cs[j]) {
        if j < |before| {
          assert cs[i] == before[i] && cs[j] == before[j];
        } else {
          assert cs[i] == before[i] && cs[j] == Cell(x - 1, y);
        }
      }
    }
  }

  /** Every occupied cell of the first w columns that the scan has passed is listed. */
  lemma {:induction false} ScanCellsComplete(g: seq<seq<int>>, w: nat, y: nat, x: nat)
    requires x <= w
    ensures forall cy, cx :: 0 <= cx < w && RowMajorBefore(Cell(cx, cy), Cell(x, y)) && Occupied(g, cx, cy) ==>
      Cell(cx, cy) in ScanCells(g, w, y, x)
    decreases y, x
  {
    if x == 0 {
      if y > 0 {
        ScanCellsComplete(g, w, y - 1, w);
      }
    } else {
      ScanCellsComplete(g, w, y, x - 1);
    }
  }

  /** A cell that lies in the grid and holds the id of one of n regions. */
  predicate ValidCell(g: seq<seq<int>>, c: Cell, n: int) {
    0 <= c.y < |g| && 0 <= c.x < |g[c.y]| && 1 <= g[c.y][c.x] <= n
  }

  predicate ValidCells(g: seq<seq<int>>, cs: seq<Cell>, n: int) {
    forall i :: 0 <= i < |cs| ==> ValidCell(g, cs[i], n)
  }

  /** Within the covered part of the grid, every listed cell holds a region id. */
  lemma RenderCellsValid(g: seq<seq<int>>, w: nat, h: nat, n: int)
    requires Covers(g, w, h) && IdsInRange(g, w, h, n)
    ensures ValidCells(g, RenderCells(g, w, h), n)
  {
    ScanCellsSound(g, w, h, 0);
  }

  /** The draw for a cell: TileSize-square, scrolled horizontally by scrollX. */
  function DrawFor(region: Region, c: Cell, scrollX: int): (d: Draw) {
    Draw(region, c.x * TileSize - scrollX, c.y * TileSize, TileSize, TileSize)
  }

  /** The draw a cell issues: none for a cell that is not a valid cell of the
      grid, otherwise one, of region id - 1. */
  function CellDraw(g: seq<seq<int>>, regions: seq<Region>, c: Cell, scrollX: int): (ds: seq<Draw>)
    ensures |ds| <= 1 && (|ds| == 1 <==> ValidCell(g, c, |regions|))
  {
    if ValidCell(g, c, |regions|) then [DrawFor(regions[g[c.y][c.x] - 1], c, scrollX)] else []
  }

  /** The draws of a row-by-row scan, in the order the scan issues them. */
  function ScanDraws(g: seq<seq<int>>, regions: seq<Region>, w: nat, y: nat, x: nat, scrollX: int): (ds: seq<Draw>)
    ensures |ds| <= |ScanCells(g, w, y, x)|
    decreases y, x
  {
    if x == 0 then (if y == 0 then [] else ScanDraws(g, regions, w, y - 1, w, scrollX))
    else ScanDraws(g, regions, w, y, x - 1, scrollX) + CellDraw(g, regions, Cell(x - 1, y), scrollX)
  }

  /** What rendering a w-by-h grid issues. */
  function RenderDraws(g: seq<seq<int>>, regions: seq<Region>, w: nat, h: nat, scrollX: int): (ds: seq<Draw>)
    ensures |ds| <= |RenderCells(g, w, h)|
  {
    ScanDraws(g, regions, w, h, 0, scrollX)
  }

  /** Draw i of a scan is the draw of the i-th listed cell. */
  lemma {:induction false} ScanDrawsAt(g: seq<seq<int>>, regions: seq<Region>, w: nat, y: nat, x: nat, scrollX: int)
    requires ValidCells(g, ScanCells(g, w, y, x), |regions|)
    ensures |ScanDraws(g, regions, w, y, x, scrollX)| == |ScanCells(g, w, y, x)|
    ensures forall i :: 0 <= i < |ScanCells(g, w, y, x)| ==>
      ScanDraws(g, regions, w, y, x, scrollX)[i] ==
      DrawFor(regions[g[ScanCells(g, w, y, x)[i].y][ScanCells(g, w, y, x)[i].x] - 1],
              ScanCells(g, w, y, x)[i], scrollX)
    decreases y, x
  {
    if x == 0 {
      if y > 0 {
        ScanDrawsAt(g, regions, w, y - 1, w, scrollX);
      }
    } else {
      var before, cs := ScanCells(g, w, y, x - 1), ScanCells(g, w, y, x);
      assert ValidCells(g, before, |regions|) by {
        forall i | 0 <= i < |before| ensures ValidCell(g, before[i], |regions|) {
          assert cs[i] == before[i];
        }
      }
      ScanDrawsAt(g, regions, w, y, x - 1, scrollX);
      var prev, ds := ScanDraws(g, regions, w, y, x - 1, scrollX), ScanDraws(g, regions, w, y, x, scrollX);
      if Occupied(g, x - 1, y) {
        var c := Cell(x - 1, y);
        assert cs == before + [c] && ValidCell(g, cs[|before|], |regions|);
        assert ds == prev + [DrawFor(regions[g[c.y][c.x] - 1], c, scrollX)];
        forall i | 0 <= i < |cs|
          ensures ds[i] == DrawFor(regions[g[cs[i].y][cs[i].x] - 1], cs[i], scrollX)
        {
          if i < |before| {
            assert cs[i] == before[i] && ds[i] == prev[i];
          }
        }
      } else {
        assert cs == before && ds == prev;
      }
    }
  }

  /** Rendering issues one draw per occupied cell, in row-major order: draw i is
      the i-th occupied cell's tile, region id - 1, at the cell's position. */
  lemma RenderDrawsAt(g: seq<seq<int>>, regions: seq<Region>, w: nat, h: nat, scrollX: int)
    requires Covers(g, w, h) && IdsInRange(g, w, h, |regions|)
    ensures ValidCells(g, RenderCells(g, w, h), |regions|)
    ensures |RenderDraws(g, regions, w, h, scrollX)| == |RenderCells(g, w, h)|
    ensures forall i :: 0 <= i < |RenderCells(g, w, h)| ==>
      RenderDraws(g, regions, w, h, scrollX)[i] ==
      DrawFor(regions[g[RenderCells(g, w, h)[i].y][RenderCells(g, w, h)[i].x] - 1],
              RenderCells(g, w, h)[i], scrollX)
  {
    RenderCellsValid(g, w, h, |regions|);
    ScanDrawsAt(g, regions, w, h, 0, scrollX);
  }

  /** The listed cells are exactly the occupied cells of the first h rows and w
      columns, each once, in row-major order. */
  lemma RenderCellsExact(g: seq<seq<int>>, w: nat, h: nat)
    ensures forall c :: c in RenderCells(g, w, h) <==>
      0 <= c.x < w && 0 <= c.y < h && Occupied(g, c.x, c.y)
    ensures forall i, j :: 0 <= i < j < |RenderCells(g, w, h)| ==>
      RowMajorBefore(RenderCells(g, w, h)[i], RenderCells(g, w, h)[j])
  {
    ScanCellsSound(g, w, h, 0);
    ScanCellsComplete(g, w, h, 0);
    ScanCellsOrdered(g, w, h, 0);
    forall c ensures c in RenderCells(g, w, h) <==> 0 <= c.x < w && 0 <= c.y < h && Occupied(g, c.x, c.y) {
      if c in RenderCells(g, w, h) {
        var i :| 0 <= i < |RenderCells(g, w, h)| && RenderCells(g, w, h)[i] == c;
      }
    }
  }

  /** Scrolling changes only where the draws land: the same number of draws,
      each moved left by the scroll amount and otherwise the same. */
  lemma {:induction false} ScrollShiftsOnlyX(g: seq<seq<int>>, regions: seq<Region>, w: nat, y: nat, x: nat,
                                             s1: int, s2: int)
    ensures |ScanDraws(g, regions, w, y, x, s1)| == |ScanDraws(g, regions, w, y, x, s2)|
    ensures forall i :: 0 <= i < |ScanDraws(g, regions, w, y, x, s1)| ==>
      ScanDraws(g, regions, w, y, x, s1)[i].x - ScanDraws(g, regions, w, y, x, s2)[i].x == s2 - s1 &&
      ScanDraws(g, regions, w, y, x, s1)[i].(x := 0) == ScanDraws(g, regions, w, y, x, s2)[i].(x := 0)
    decreases y, x
  {
    if x == 0 {
      if y > 0 {
        ScrollShiftsOnlyX(g, regions, w, y - 1, w, s1, s2);
      }
    } else {
      ScrollShiftsOnlyX(g, regions, w, y, x - 1, s1, s2);
      var p1, p2 := ScanDraws(g, regions, w, y, x - 1, s1), ScanDraws(g, regions, w, y, x - 1, s2);
      var d1, d2 := ScanDraws(g, regions, w, y, x, s1), ScanDraws(g, regions, w, y, x, s2);
      var c := Cell(x - 1, y);
      assert d1 == p1 + CellDraw(g, regions, c, s1) && d2 == p2 + CellDraw(g, regions, c, s2);
      forall i | 0 <= i < |d1|
        ensures d1[i].x - d2[i].x == s2 - s1 && d1[i].(x := 0) == d2[i].(x := 0)
      {
        if i < |p1| {
          assert d1[i] == p1[i] && d2[i] == p2[i];
        }
      }
    }
  }

  /** The first n rows of an array of rows, as values. */
  ghost function RowsOf(t: array<array<int>>, n: nat): (g: seq<seq<int>>)
    requires n <= t.Length
    reads t, set i | 0 <= i < t.Length :: t[i]
    ensures |g| == n && forall y :: 0 <= y < n ==> g[y] == t[y][..]
  {
    if n == 0 then [] else RowsOf(t, n - 1) + [t[n - 1][..]]
  }

  class TileMap {
    var mapWidth: int
    var mapHeight: int
    /** The grid of tile ids, an array of rows; null until a level is loaded. */
    var tiles: array?<array<int>>
    var scrollX: int
    var tilesetTexture: Texture
    var tileRegions: array<Region>
    var tilesetColumns: int
    var tilesetRows: int

    /** The row arrays of the grid. */
    ghost function Rows(): (rows: set<object>)
      reads this, tiles
    {
      if tiles == null then {} else set i | 0 <= i < tiles.Length :: tiles[i] as object
    }

    /** The grid as a value: no rows while none is loaded. */
    ghost function Grid(): (g: seq<seq<int>>)
      reads this, tiles, Rows()
      ensures tiles == null ==> g == []
      ensures tiles != null ==>
        |g| == tiles.Length && forall y :: 0 <= y < tiles.Length ==> g[y] == tiles[y][..]
    {
      if tiles == null then [] else RowsOf(tiles, tiles.Length)
    }

    function Width(): (w: nat)
      reads this
    {
      if mapWidth < 0 then 0 else mapWidth
    }

    function Height(): (h: nat)
      reads this
    {
      if mapHeight < 0 then 0 else mapHeight
    }

    /** What rendering needs to stay in bounds: mapHeight rows of at least
        mapWidth ids, and every non-empty id naming a region. */
    ghost predicate RenderInBounds()
      reads this, tiles, Rows()
    {
      Covers(Grid(), Width(), Height()) &&
      IdsInRange(Grid(), Width(), Height(), tileRegions.Length)
    }

    /** Cuts the tileset into its regions and lists them row by row. */
    constructor (tilesetTexture: Texture)
      ensures this.tilesetTexture == tilesetTexture
      ensures tilesetColumns == tilesetTexture.width / TileSize
      ensures tilesetRows == tilesetTexture.height / TileSize
      ensures fresh(tileRegions) && tileRegions.Length == tilesetRows * tilesetColumns
      ensures tileRegions[..] == Flattened(tilesetRows, tilesetColumns)
      ensures mapWidth == 0 && mapHeight == 0 && tiles == null && scrollX == 0
    {
      var columns := tilesetTexture.width / TileSize;
      var rows := tilesetTexture.height / TileSize;
      var regions := new Region[rows * columns];
      FlattenedLength(rows, columns);
      var index := 0;
      for row := 0 to rows
        invariant index == |Flattened(row, columns)| <= regions.Length
        invariant regions[..index] == Flattened(row, columns)
      {
        FlattenedLength(row + 1, columns);
        FlattenedLength(rows, columns);
        MulMonotone(row + 1, rows, columns);
        for col := 0 to columns
          invariant index == |Flattened(row, columns)| + col
          invariant regions[..index] == Flattened(row, columns) + RowRegions(row, col)
        {
          regions[index] := SplitRegion(row, col);
          index := index + 1;
          assert regions[..index] == regions[..index - 1] + [regions[index - 1]];
        }
      }
      assert regions[..] == regions[..index];
      this.tilesetTexture := tilesetTexture;
      tilesetColumns, tilesetRows := columns, rows;
      tileRegions := regions;
      mapWidth, mapHeight, tiles, scrollX := 0, 0, null, 0;
    }

    /** Takes the level's size and grid; the grid array is shared, not copied. */
    method LoadFromLevel(level: LevelJson)
      modifies this`mapWidth, this`mapHeight, this`tiles
      ensures mapWidth == level.mapWidth && mapHeight == level.mapHeight
      ensures tiles == level.tileMap
      ensures scrollX == old(scrollX) && tilesetTexture == old(tilesetTexture)
      ensures tileRegions == old(tileRegions)
      ensures tilesetColumns == old(tilesetColumns) && tilesetRows == old(tilesetRows)
    {
      mapWidth := level.mapWidth;
      mapHeight := level.mapHeight;
      tiles := level.tileMap;
    }

    /** Issues the draws of the non-empty cells, row by row, left to right. */
    method Render() returns (draws: seq<Draw>)
      requires RenderInBounds()
      ensures draws == RenderDraws(Grid(), tileRegions[..], Width(), Height(), scrollX)
    {
      var grid, regionArray, width, height := tiles, tileRegions, mapWidth, mapHeight;
      ghost var g := Grid();
      ghost var regions := regionArray[..];
      ghost var w: nat, h: nat := if width < 0 then 0 else width, if height < 0 then 0 else height;
      draws := [];
      var y := 0;
      while y < height
        invariant 0 <= y <= h
        invariant draws == ScanDraws(g, regions, w, y, 0, scrollX)
      {
        var x := 0;
        while x < width
          invariant 0 <= x <= w
          invariant draws == ScanDraws(g, regions, w, y, x, scrollX)
        {
          var tileId := grid[y][x];
          assert tileId == g[y][x];
          if tileId != 0 {
            assert ValidCell(g, Cell(x, y), |regions|);
            var region := regionArray[tileId - 1];
            draws := draws + [Draw(region, x * TileSize - scrollX, y * TileSize, TileSize, TileSize)];
          }
          x := x + 1;
        }
        y := y + 1;
      }
    }

    /** The tileset belongs to the asset manager: disposing releases nothing. */
    method Dispose()
      ensures unchanged(this)
    {
    }
  }

  /** k * d is at least d for positive k and d. */
  lemma {:induction false} MulAtLeast(k: int, d: int)
    requires k >= 1 && d > 0
    ensures k * d >= d
    decreases k
  {
    if k > 1 {
      MulAtLeast(k - 1, d);
      assert k * d == (k - 1) * d + d;
    }
  }

  /** The regions of tileset row `row`, columns 0 to n - 1. */
  function RowRegions(row: nat, n: nat): (r: seq<Region>)
    ensures |r| == n
  {
    if n == 0 then [] else RowRegions(row, n - 1) + [SplitRegion(row, n - 1)]
  }

  /** The regions of the first `rows` tileset rows, row by row. */
  function Flattened(rows: nat, cols: nat): (r: seq<Region>) {
    if rows == 0 then [] else Flattened(rows - 1, cols) + RowRegions(rows - 1, cols)
  }

  lemma {:induction false} FlattenedLength(rows: nat, cols: nat)
    ensures |Flattened(rows, cols)| == rows * cols
  {
    if rows > 0 {
      FlattenedLength(rows - 1, cols);
      assert rows * cols == (rows - 1) * cols + cols;
    }
  }

  lemma MulMonotone(r1: nat, r2: nat, cols: nat)
    requires r1 <= r2
    ensures r1 * cols <= r2 * cols
  {
    if r1 < r2 && cols > 0 {
      MulAtLeast(r2 - r1, cols);
      assert r2 * cols - r1 * cols == (r2 - r1) * cols;
    }
  }

  lemma {:induction false} RowRegionsAt(row: nat, n: nat, c: nat)
    requires c < n
    ensures RowRegions(row, n)[c] == SplitRegion(row, c)
  {
    if c < n - 1 {
      RowRegionsAt(row, n - 1, c);
    }
  }

  /** Entry row * cols + col of the flattened tileset is the region at (row, col). */
  lemma {:induction false} FlattenedAt(rows: nat, cols: nat, row: nat, col: nat)
    requires row < rows && col < cols
    ensures row * cols + col < |Flattened(rows, cols)|
    ensures Flattened(rows, cols)[row * cols + col] == SplitRegion(row, col)
    decreases rows
  {
    FlattenedLength(rows - 1, cols);
    var before := Flattened(rows - 1, cols);
    assert Flattened(rows, cols) == before + RowRegions(rows - 1, cols);
    if row < rows - 1 {
      FlattenedAt(rows - 1, cols, row, col);
    } else {
      RowRegionsAt(row, cols, col);
    }
  }
}
