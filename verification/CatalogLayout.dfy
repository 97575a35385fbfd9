/** The adaptive tile grid: pure integer geometry. */
module CatalogLayout {
  const GRID_GAP: int := 16
  const TILE_RATIO_X100: int := 135

  datatype Bounds = Bounds(x: int, y: int, w: int, h: int)
  datatype Grid = Grid(rows: int, cols: int, tileW: int, tileH: int, horizontalCard: bool)
  datatype Position = Position(x: int, y: int)

  /** Division as the source's language has it, towards zero. */
  function Truncated(a: int, n: int): int
    requires n > 0
  {
    if a >= 0 then a / n else -(-a / n)
  }

  /** floor(sqrt n) rows, and no more columns than n tiles need. */
  ghost predicate IsShape(rows: int, cols: int, n: int) {
    && rows >= 1 && rows * rows <= n < (rows + 1) * (rows + 1)
    && cols >= 1 && (cols - 1) * rows < n <= cols * rows
  }

  /** n equal tiles and gaps of 16 pixels between them fit a length, and no larger tile would. */
  ghost predicate Fills(tile: int, n: int, length: int) {
    tile >= 0 && n * tile + (n - 1) * 16 <= length < n * (tile + 1) + (n - 1) * 16
  }

  ghost predicate IsGrid(g: Grid, n: int, b: Bounds) {
    && IsShape(g.rows, g.cols, n)
    && Fills(g.tileW, g.cols, b.w) && Fills(g.tileH, g.rows, b.h)
    && (g.horizontalCard <==> 100 * g.tileW > 135 * g.tileH)
  }

  method Isqrt(n: nat) returns (r: nat)
    requires n >= 1
    ensures r >= 1 && r * r <= n < (r + 1) * (r + 1)
  {
    r := 1;
    while (r + 1) * (r + 1) <= n
      invariant r >= 1 && r * r <= n
      decreases n - r
    {
      assert (r + 1) * (r + 1) == r * r + 2 * r + 1;
      r := r + 1;
    }
  }

  lemma DivisionFills(length: int, n: int)
    requires n >= 1 && length >= (n - 1) * GRID_GAP
    ensures Fills(Truncated(length - (n - 1) * GRID_GAP, n), n, length)
  {
    var room := length - (n - 1) * GRID_GAP;
    var t := room / n;
    assert n * t <= room < n * t + n;
    assert n * (t + 1) == n * t + n;
  }

  /** The layout of any number of tiles: always the right shape, and the largest tiles
      that fit whenever the bounds have room for the gaps. */
  method GridGeometry(count: nat, b: Bounds) returns (g: Grid)
    ensures IsShape(g.rows, g.cols, if count == 0 then 1 else count)
    ensures b.w >= (g.cols - 1) * GRID_GAP && b.h >= (g.rows - 1) * GRID_GAP ==> IsGrid(g, if count == 0 then 1 else count, b)
  {
    var n := if count == 0 then 1 else count;
    var rows := Isqrt(n);
    var cols := (n + rows - 1) / rows;
    ColumnsSuffice(n, rows);
    var tileW := Truncated(b.w - (cols - 1) * GRID_GAP, cols);
    var tileH := Truncated(b.h - (rows - 1) * GRID_GAP, rows);
    if b.w >= (cols - 1) * GRID_GAP {
      DivisionFills(b.w, cols);
    }
    if b.h >= (rows - 1) * GRID_GAP {
      DivisionFills(b.h, rows);
    }
    g := Grid(rows, cols, tileW, tileH, tileW * 100 > tileH * TILE_RATIO_X100);
  }

  lemma ColumnsSuffice(n: int, rows: int)
    requires n >= 1 && rows >= 1
    ensures var cols := (n + rows - 1) / rows;
            cols >= 1 && (cols - 1) * rows < n <= cols * rows
  {
    var cols := (n + rows - 1) / rows;
    assert rows * cols <= n + rows - 1 < rows * cols + rows;
    assert (cols - 1) * rows == rows * cols - rows;
    assert cols * rows == rows * cols;
    if cols <= 0 {
      Scale(cols, 0, rows);
    }
  }

  lemma Scale(a: int, b: int, k: int)
    requires a <= b && k >= 0
    ensures a * k <= b * k
  {
    assert (b - a) * k == b * k - a * k;
  }

  // ---- Where the tiles go -----------------------------------------------------

  function InRow(g: Grid, n: int, row: int): int {
    var remaining := n - row * g.cols;
    if remaining < g.cols then remaining else g.cols
  }

  function RowWidth(g: Grid, n: int, row: int): int {
    InRow(g, n, row) * g.tileW + (InRow(g, n, row) - 1) * GRID_GAP
  }

  function TileAt(g: Grid, b: Bounds, n: int, row: int, col: int): Position {
    Position(b.x + Truncated(b.w - RowWidth(g, n, row), 2) + col * (g.tileW + GRID_GAP),
             b.y + row * (g.tileH + GRID_GAP))
  }

  method TilePosition(g: Grid, b: Bounds, n: nat, index: nat) returns (p: Position)
    requires g.cols > 0 && index < n
    ensures p == TileAt(g, b, n, index / g.cols, index % g.cols)
  {
    var r, c := index / g.cols, index % g.cols;
    var remaining := n - r * g.cols;
    var inRow := if remaining < g.cols then remaining else g.cols;
    var rowW := inRow * g.tileW + (inRow - 1) * GRID_GAP;
    var x := b.x + Truncated(b.w - rowW, 2) + c * (g.tileW + GRID_GAP);
    var y := b.y + r * (g.tileH + GRID_GAP);
    return Position(x, y);
  }

  ghost predicate IsTile(g: Grid, n: int, row: int, col: int) {
    0 <= row && 0 <= col < g.cols && row * g.cols + col < n
  }

  lemma IndexIsTile(g: Grid, n: int, index: int)
    requires g.cols > 0 && 0 <= index < n
    ensures IsTile(g, n, index / g.cols, index % g.cols)
    ensures index / g.cols * g.cols + index % g.cols == index
  {
    assert g.cols * (index / g.cols) + index % g.cols == index;
  }

  lemma ShapeBounds(r: int, c: int, n: int)
    requires IsShape(r, c, n)
    ensures r <= c <= r + 2 && (r - 1) * c < n
  {
    assert (r + 1) * (r + 1) == r * r + 2 * r + 1;
    assert (c - 1) * r == c * r - r && (r - 1) * c == c * r - c;
    if c <= r - 1 {
      Scale(c, r - 1, r);
    }
    if c >= r + 3 {
      Scale(r + 2, c - 1, r);
    }
    assert (r - 1) * r == r * r - r && (r + 1) * r == r * r + r && (r + 2) * r == r * r + 2 * r;
  }

  /** Every row holds at least one tile, and all tiles lie in these rows. */
  lemma NoRowEmpty(g: Grid, n: int, row: int)
    requires IsShape(g.rows, g.cols, n)
    ensures 0 <= row < g.rows <==> 0 <= row && row * g.cols < n
    ensures 0 <= row < g.rows ==> 1 <= InRow(g, n, row) <= g.cols
  {
    ShapeBounds(g.rows, g.cols, n);
    assert g.rows * g.cols == g.cols * g.rows;
    if row < g.rows {
      Scale(row, g.rows - 1, g.cols);
    } else {
      Scale(g.rows, row, g.cols);
    }
  }

  /** k tiles and their gaps take no more room than n of them. */
  lemma FewerFit(k: int, n: int, tile: int)
    requires 1 <= k <= n && tile >= 0
    ensures 0 <= k * tile && k * tile + (k - 1) * GRID_GAP <= n * tile + (n - 1) * GRID_GAP
  {
    Scale(k, n, tile);
    Scale(0, k, tile);
  }

  /** The far edge of the last of k tiles is where the row ends. */
  lemma LastTile(k: int, tile: int)
    ensures (k - 1) * (tile + GRID_GAP) + tile == k * tile + (k - 1) * GRID_GAP
  {
    assert (k - 1) * (tile + GRID_GAP) == (k - 1) * tile + (k - 1) * GRID_GAP;
    assert (k - 1) * tile == k * tile - tile;
  }

  /** A row's tiles and gaps never exceed the bounds. */
  lemma RowFits(g: Grid, b: Bounds, n: int, row: int)
    requires IsGrid(g, n, b) && 0 <= row < g.rows
    ensures RowWidth(g, n, row) <= b.w
  {
    NoRowEmpty(g, n, row);
    FewerFit(InRow(g, n, row), g.cols, g.tileW);
  }

  /** A tile's distance from the start of k tiles. */
  lemma Offset(i: int, k: int, tile: int)
    requires 0 <= i < k && tile >= 0
    ensures 0 <= i * (tile + GRID_GAP) && i * (tile + GRID_GAP) + tile <= k * tile + (k - 1) * GRID_GAP
  {
    Scale(0, i, tile + GRID_GAP);
    Scale(i, k - 1, tile + GRID_GAP);
    LastTile(k, tile);
  }

  /** All tiles lie inside the bounds. */
  lemma TilesInside(g: Grid, b: Bounds, n: int, row: int, col: int)
    requires IsGrid(g, n, b) && IsTile(g, n, row, col)
    ensures var p := TileAt(g, b, n, row, col);
            && b.x <= p.x && p.x + g.tileW <= b.x + b.w
            && b.y <= p.y && p.y + g.tileH <= b.y + b.h
  {
    NoRowEmpty(g, n, row);
    RowFits(g, b, n, row);
    Offset(col, InRow(g, n, row), g.tileW);
    Offset(row, g.rows, g.tileH);
  }

  lemma Spacing(i: int, j: int, tile: int)
    requires i < j && tile >= 0
    ensures i * (tile + GRID_GAP) + tile + GRID_GAP <= j * (tile + GRID_GAP)
  {
    Scale(i + 1, j, tile + GRID_GAP);
    assert (i + 1) * (tile + GRID_GAP) == i * (tile + GRID_GAP) + tile + GRID_GAP;
  }

  /** Distinct tiles keep the gap between them, beside or below each other. */
  lemma TilesApart(g: Grid, b: Bounds, n: int, row: int, col: int, row': int, col': int)
    requires IsGrid(g, n, b) && IsTile(g, n, row, col) && IsTile(g, n, row', col')
    requires row < row' || (row == row' && col < col')
    ensures var p, q := TileAt(g, b, n, row, col), TileAt(g, b, n, row', col');
            if row < row' then p.y + g.tileH + GRID_GAP <= q.y
            else p.y == q.y && p.x + g.tileW + GRID_GAP <= q.x
  {
    if row < row' {
      Spacing(row, row', g.tileH);
    } else {
      Spacing(col, col', g.tileW);
    }
  }

  /** A row, to its last tile, is centred to within one pixel. */
  lemma RowCentred(g: Grid, b: Bounds, n: int, row: int)
    requires IsGrid(g, n, b) && 0 <= row < g.rows
    ensures var left := TileAt(g, b, n, row, 0).x - b.x;
            var last := if n - row * g.cols < g.cols then n - row * g.cols - 1 else g.cols - 1;
            var right := b.x + b.w - (TileAt(g, b, n, row, last).x + g.tileW);
            0 <= right - left <= 1
  {
    RowFits(g, b, n, row);
    LastTile(InRow(g, n, row), g.tileW);
  }

  // ---- The whole grid ---------------------------------------------------------

  /** Tile p, of the grid's size, lies in the bounds. */
  predicate Inside(g: Grid, b: Bounds, p: Position) {
    b.x <= p.x && p.x + g.tileW <= b.x + b.w && b.y <= p.y && p.y + g.tileH <= b.y + b.h
  }

  /** 16 pixels lie between two tiles, below or beside the first. */
  predicate Apart(g: Grid, p: Position, q: Position) {
    p.y + g.tileH + 16 <= q.y || (p.y == q.y && p.x + g.tileW + 16 <= q.x)
  }

  lemma IndexApart(g: Grid, b: Bounds, n: int, i: int, j: int)
    requires IsGrid(g, n, b) && 0 <= i < j < n
    ensures Apart(g, TileAt(g, b, n, i / g.cols, i % g.cols), TileAt(g, b, n, j / g.cols, j % g.cols))
  {
    IndexIsTile(g, n, i);
    IndexIsTile(g, n, j);
    RowMajor(i, j, g.cols);
    TilesApart(g, b, n, i / g.cols, i % g.cols, j / g.cols, j % g.cols);
  }

  lemma RowMajor(i: int, j: int, cols: int)
    requires 0 <= i < j && cols > 0
    ensures i / cols < j / cols || (i / cols == j / cols && i % cols < j % cols)
  {
    var r, r' := i / cols, j / cols;
    assert i == cols * r + i % cols && j == cols * r' + j % cols;
    NotBehind(r, r', i % cols, j % cols, cols);
  }

  lemma NotBehind(r: int, r': int, c: int, c': int, cols: int)
    requires 0 <= c < cols && 0 <= c' < cols && cols * r + c < cols * r' + c'
    ensures r <= r'
  {
    if r' < r {
      Scale(r' + 1, r, cols);
    }
  }

  /** A screen's tiles, placed one by one on the grid for their number: all inside the
      bounds and apart from each other, whenever the bounds have room for the gaps. */
  method PlaceTiles(n: nat, b: Bounds) returns (g: Grid, tiles: seq<Position>)
    ensures |tiles| == n
    ensures b.w >= (g.cols - 1) * GRID_GAP && b.h >= (g.rows - 1) * GRID_GAP ==>
              && (forall i :: 0 <= i < n ==> Inside(g, b, tiles[i]))
              && (forall i, j :: 0 <= i < j < n ==> Apart(g, tiles[i], tiles[j]))
  {
    g := GridGeometry(n, b);
    tiles := [];
    for i := 0 to n
      invariant |tiles| == i
      invariant forall k :: 0 <= k < i ==> tiles[k] == TileAt(g, b, n, k / g.cols, k % g.cols)
    {
      var p := TilePosition(g, b, n, i);
      tiles := tiles + [p];
    }
    if b.w >= (g.cols - 1) * GRID_GAP && b.h >= (g.rows - 1) * GRID_GAP {
      forall i | 0 <= i < n
        ensures Inside(g, b, tiles[i])
      {
        IndexIsTile(g, n, i);
        TilesInside(g, b, n, i / g.cols, i % g.cols);
      }
      forall i, j | 0 <= i < j < n
        ensures Apart(g, tiles[i], tiles[j])
      {
        IndexApart(g, b, n, i, j);
      }
    }
  }
}
