/** The level grid of the platformer: the tile codes, the authored first level,
    and the bounds-checked read and write that the simulation performs on it.
    A grid is handled here as a value (rows of tile codes); the running game
    keeps it in a two-dimensional array, and `GridOf` reads that array as a value. */
module LevelGrid {

  /** Edge length of one tile, in world units. Inside products and quotients it
      is written as the literal 16.0 (and the world size as 1024.0 by 256.0), which
      keeps that arithmetic linear for the verifier. */
  const TILE: real := 16.0
  /** Size of the first (and only) level, in tiles. */
  const WIDTH: int := 64
  const HEIGHT: int := 16

  /** Tile codes. */
  const EMPTY: int := 0
  const SOLID: int := 1
  const COIN: int := 2
  const FLAG: int := 3

  /** Rows of tile codes, indexed `g[row][column]`. */
  type Grid = seq<seq<int>>

  predicate WellShaped(g: Grid) {
    |g| == HEIGHT && forall r :: 0 <= r < |g| ==> |g[r]| == WIDTH
  }

  /** The index of the tile row or column that a world coordinate falls in. */
  function CellOf(p: real): int {
    (p / 16.0).Floor
  }

  /** The part of the world the grid covers. */
  predicate InWorld(px: real, py: real) {
    0.0 <= px < 1024.0 && 0.0 <= py < 256.0
  }

  /** The code of the tile under a world point; everything outside the grid
      counts as solid, below the grid included. */
  function TileAt(g: Grid, px: real, py: real): (t: int)
    requires WellShaped(g)
    ensures !InWorld(px, py) ==> t == SOLID
    ensures InWorld(px, py) ==>
      0 <= CellOf(px) < WIDTH && 0 <= CellOf(py) < HEIGHT && t == g[CellOf(py)][CellOf(px)]
  {
    var tx := CellOf(px);
    var ty := CellOf(py);
    if ty < 0 || ty >= HEIGHT || tx < 0 || tx >= WIDTH then SOLID else g[ty][tx]
  }

  /** The grid after writing `v` at column `tx`, row `ty`; a write outside the
      grid is ignored. */
  function SetCell(g: Grid, tx: int, ty: int, v: int): (r: Grid)
    requires WellShaped(g)
    ensures WellShaped(r)
    ensures !(0 <= ty < HEIGHT && 0 <= tx < WIDTH) ==> r == g
    ensures 0 <= ty < HEIGHT && 0 <= tx < WIDTH ==> r[ty][tx] == v
    ensures forall i, j :: 0 <= i < HEIGHT && 0 <= j < WIDTH && (i != ty || j != tx) ==> r[i][j] == g[i][j]
  {
    if ty < 0 || ty >= HEIGHT || tx < 0 || tx >= WIDTH then g
    else g[ty := g[ty][tx := v]]
  }

  /** The contents of a two-dimensional array, as rows. */
  function GridOf(a: array2<int>): (g: Grid)
    reads a
    ensures |g| == a.Length0
    ensures forall i :: 0 <= i < |g| ==> |g[i]| == a.Length1
    ensures forall i, j :: 0 <= i < a.Length0 && 0 <= j < a.Length1 ==> g[i][j] == a[i, j]
  {
    seq(a.Length0, i requires 0 <= i < a.Length0 reads a =>
      seq(a.Length1, j requires 0 <= j < a.Length1 reads a => a[i, j]))
  }

  /** Two well-shaped grids that agree on every cell are the same grid. */
  lemma SameCells(g: Grid, h: Grid)
    requires WellShaped(g) && WellShaped(h)
    requires forall i, j :: 0 <= i < HEIGHT && 0 <= j < WIDTH ==> g[i][j] == h[i][j]
    ensures g == h
  {
    forall i | 0 <= i < HEIGHT
      ensures g[i] == h[i]
    {
      assert forall j :: 0 <= j < WIDTH ==> g[i][j] == h[i][j];
    }
  }

  // ---------------------------------------------------------------------------
  // Counting coins

  function RowCoins(row: seq<int>): nat {
    if row == [] then 0 else (if row[0] == COIN then 1 else 0) + RowCoins(row[1..])
  }

  /** The number of coin tiles in a grid. */
  function CoinCount(g: Grid): nat {
    if g == [] then 0 else RowCoins(g[0]) + CoinCount(g[1..])
  }

  lemma {:induction false} RowCoinsUpdate(row: seq<int>, i: int, v: int)
    requires 0 <= i < |row|
    ensures RowCoins(row[i := v]) ==
      RowCoins(row) - (if row[i] == COIN then 1 else 0) + (if v == COIN then 1 else 0)
  {
    if i > 0 {
      assert row[i := v][1..] == row[1..][i - 1 := v];
      RowCoinsUpdate(row[1..], i - 1, v);
    }
  }

  lemma {:induction false} CoinCountUpdate(g: Grid, i: int, row: seq<int>)
    requires 0 <= i < |g|
    ensures CoinCount(g[i := row]) == CoinCount(g) - RowCoins(g[i]) + RowCoins(row)
  {
    if i > 0 {
      assert g[i := row][1..] == g[1..][i - 1 := row];
      CoinCountUpdate(g[1..], i - 1, row);
    }
  }

  /** Emptying a coin tile removes exactly one coin from the grid. */
  lemma {:induction false} TakeCoin(g: Grid, tx: int, ty: int)
    requires WellShaped(g)
    requires 0 <= ty < HEIGHT && 0 <= tx < WIDTH && g[ty][tx] == COIN
    ensures CoinCount(SetCell(g, tx, ty, EMPTY)) + 1 == CoinCount(g)
  {
    RowCoinsUpdate(g[ty], tx, EMPTY);
    CoinCountUpdate(g, ty, g[ty][tx := EMPTY]);
  }

  // ---------------------------------------------------------------------------
  // The authored first level

  /** The pits in the ground strip. */
  predicate IsGap(row: int, col: int) {
    (col == 14 && 12 <= row <= 15) || (15 <= col <= 16 && 12 <= row <= 13)
  }

  /** The four floating platforms. */
  predicate IsPlatform(row: int, col: int) {
    || (row == 9 && 6 <= col < 12)
    || (row == 8 && 18 <= col < 26)
    || (row == 10 && 30 <= col < 36)
    || (row == 7 && 42 <= col < 50)
  }

  predicate IsCoinSpot(row: int, col: int) {
    || (row == 8 && col == 8)
    || (row == 7 && col == 20)
    || (row == 6 && col == 22)
    || (row == 9 && col == 33)
    || (row == 6 && col == 45)
  }

  predicate IsFlagSpot(row: int, col: int) {
    col == 60 && 6 <= row <= 11
  }

  /** The authored code of one cell: flag over gap over coin over ground and
      platforms over empty sky. */
  function Level1Cell(row: int, col: int): int {
    if IsFlagSpot(row, col) then FLAG
    else if IsGap(row, col) then EMPTY
    else if IsCoinSpot(row, col) then COIN
    else if row >= 12 || IsPlatform(row, col) then SOLID
    else EMPTY
  }

  function Level1(): (g: Grid)
    ensures WellShaped(g)
    ensures forall i, j :: 0 <= i < HEIGHT && 0 <= j < WIDTH ==> g[i][j] == Level1Cell(i, j)
  {
    seq(HEIGHT, i => seq(WIDTH, j => Level1Cell(i, j)))
  }

  /** The ground strip, rows 12 to 15, is solid except for the pits, which are empty. */
  lemma Level1Ground(row: int, col: int)
    requires 12 <= row < HEIGHT && 0 <= col < WIDTH
    ensures Level1()[row][col] == (if IsGap(row, col) then EMPTY else SOLID)
  {
  }

  /** Coins lie at exactly five cells and the flag fills column 60, rows 6 to 11. */
  lemma Level1Items(row: int, col: int)
    requires 0 <= row < HEIGHT && 0 <= col < WIDTH
    ensures Level1()[row][col] == COIN <==> IsCoinSpot(row, col)
    ensures Level1()[row][col] == FLAG <==> IsFlagSpot(row, col)
    ensures EMPTY <= Level1()[row][col] <= FLAG
  {
  }

  /** Under the deepest pit cell the level reads as solid, because everything
      below the grid does: the pit at column 14 has a floor at y = 256. */
  lemma PitHasFloor(px: real)
    requires 224.0 <= px < 240.0
    ensures Level1()[15][14] == EMPTY
    ensures TileAt(Level1(), px, 256.0) == SOLID
  {
  }

  /** The lookup with the bottom edge open: below the grid, within its columns,
      nothing is solid, so a body can leave the level through a pit. Everywhere
      else it is `TileAt`. */
  function TileAtOpenBelow(g: Grid, px: real, py: real): (t: int)
    requires WellShaped(g)
    ensures 0.0 <= px < 1024.0 && 256.0 <= py ==> t == EMPTY
    ensures !(0.0 <= px < 1024.0 && 256.0 <= py) ==> t == TileAt(g, px, py)
  {
    if 0 <= CellOf(px) < WIDTH && CellOf(py) >= HEIGHT then EMPTY else TileAt(g, px, py)
  }

  /** With the open bottom edge the pit at column 14 is empty from the top of
      the ground strip all the way down. */
  lemma PitOpenBelow(px: real, py: real)
    requires 224.0 <= px < 240.0 && 192.0 <= py
    ensures TileAtOpenBelow(Level1(), px, py) == EMPTY
  {
    if py < 256.0 {
      assert 12 <= CellOf(py) < HEIGHT && CellOf(px) == 14;
    }
  }

  /** Writes `v` into columns `from` to `to - 1` of one row. */
  method FillRun(a: array2<int>, row: int, from: int, to: int, v: int)
    requires 0 <= row < a.Length0 && 0 <= from <= to <= a.Length1
    modifies a
    ensures forall i, j :: 0 <= i < a.Length0 && 0 <= j < a.Length1 ==>
      a[i, j] == if i == row && from <= j < to then v else old(a[i, j])
  {
    for x := from to to
      invariant forall i, j :: 0 <= i < a.Length0 && 0 <= j < a.Length1 ==>
        a[i, j] == if i == row && from <= j < x then v else old(a[i, j])
    {
      a[row, x] := v;
    }
  }

  /** The ground strip: rows 12 to the bottom, every column, column by column. */
  method LayGround(a: array2<int>)
    requires a.Length0 == HEIGHT && a.Length1 == WIDTH
    requires forall i, j :: 0 <= i < HEIGHT && 0 <= j < WIDTH ==> a[i, j] == EMPTY
    modifies a
    ensures forall i, j :: 0 <= i < HEIGHT && 0 <= j < WIDTH ==>
      a[i, j] == if i >= 12 then SOLID else EMPTY
  {
    for x := 0 to WIDTH
      invariant forall i, j :: 0 <= i < HEIGHT && 0 <= j < WIDTH ==>
        a[i, j] == if i >= 12 && j < x then SOLID else EMPTY
    {
      for y := 12 to HEIGHT
        invariant forall i, j :: 0 <= i < HEIGHT && 0 <= j < WIDTH ==>
          a[i, j] == if i >= 12 && (j < x || (j == x && i < y)) then SOLID else EMPTY
      {
        a[y, x] := SOLID;
      }
    }
  }

  method PlaceCoins(a: array2<int>)
    requires a.Length0 == HEIGHT && a.Length1 == WIDTH
    modifies a
    ensures forall i, j :: 0 <= i < HEIGHT && 0 <= j < WIDTH ==>
      a[i, j] == if IsCoinSpot(i, j) then COIN else old(a[i, j])
  {
    a[8, 8] := COIN;
    a[7, 20] := COIN;
    a[6, 22] := COIN;
    a[9, 33] := COIN;
    a[6, 45] := COIN;
  }

  method DigGaps(a: array2<int>)
    requires a.Length0 == HEIGHT && a.Length1 == WIDTH
    modifies a
    ensures forall i, j :: 0 <= i < HEIGHT && 0 <= j < WIDTH ==>
      a[i, j] == if IsGap(i, j) then EMPTY else old(a[i, j])
  {
    a[12, 14] := EMPTY; a[13, 14] := EMPTY; a[14, 14] := EMPTY; a[15, 14] := EMPTY;
    a[12, 15] := EMPTY; a[13, 15] := EMPTY; a[12, 16] := EMPTY; a[13, 16] := EMPTY;
  }

  method PlantFlag(a: array2<int>)
    requires a.Length0 == HEIGHT && a.Length1 == WIDTH
    modifies a
    ensures forall i, j :: 0 <= i < HEIGHT && 0 <= j < WIDTH ==>
      a[i, j] == if IsFlagSpot(i, j) then FLAG else old(a[i, j])
  {
    a[11, 60] := FLAG; a[10, 60] := FLAG; a[9, 60] := FLAG;
    a[8, 60] := FLAG; a[7, 60] := FLAG; a[6, 60] := FLAG;
  }

  /** Builds the first level: ground, platforms, coins, pits, then the flag;
      a later write wins over an earlier one. */
  method BuildLevel1() returns (a: array2<int>)
    ensures fresh(a) && a.Length0 == HEIGHT && a.Length1 == WIDTH
    ensures GridOf(a) == Level1()
  {
    a := new int[HEIGHT, WIDTH]((_, _) => EMPTY);
    LayGround(a);
    // platforms
    FillRun(a, 9, 6, 12, SOLID);
    FillRun(a, 8, 18, 26, SOLID);
    FillRun(a, 10, 30, 36, SOLID);
    FillRun(a, 7, 42, 50, SOLID);
    PlaceCoins(a);
    DigGaps(a);
    PlantFlag(a);
    SameCells(GridOf(a), Level1());
  }
}
