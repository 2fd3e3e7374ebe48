/**
 * The uniform spatial grid of the sketch in src/main_old.c: a height x width
 * array of cells, each holding a growable array of sprite pointers. Covered
 * here: the bounds-checked cell lookup, the clamped cell of a world position,
 * and removing a sprite from the cell it was filed under.
 */
module Grid {
  import opened Seqs
  import opened Scene

  class GridCell {
    /** The sprite pointer array; its length is the capacity. */
    var sprites: array<Sprite?>
    var count: nat

    /** createSpatialGrid: every cell starts empty with capacity 0. */
    constructor ()
      ensures Valid() && sprites.Length == 0 && count == 0
    {
      sprites := new Sprite?[0];
      count := 0;
    }

    ghost predicate Valid()
      reads this
    {
      count <= sprites.Length
    }

    /** The sprites filed in this cell, in insertion order. */
    ghost function Members(): seq<Sprite?>
      reads this, sprites
      requires Valid()
    {
      sprites[..count]
    }
  }

  class SpatialGrid {
    /** cells[y, x] is the cell in column x of row y. */
    var cells: array2<GridCell>
    /** Columns and rows. */
    var width: int
    var height: int
    /** Extent of one cell and origin of the grid, in world units. */
    var cellWidth: real
    var cellHeight: real
    var worldX: real
    var worldY: real

    ghost predicate Valid()
      reads this
    {
      cells.Length0 == height && cells.Length1 == width
    }
  }

  /**
   * getGridCell: NULL exactly when (cellX, cellY) lies outside the grid,
   * otherwise the cell in column cellX of row cellY.
   */
  function GetGridCell(grid: SpatialGrid, cellX: int, cellY: int): (c: GridCell?)
    reads grid, grid.cells
    requires grid.Valid()
    ensures c == null <==> !(0 <= cellX < grid.width && 0 <= cellY < grid.height)
    ensures c != null ==> c == grid.cells[cellY, cellX]
  {
    if cellX < 0 || cellX >= grid.width || cellY < 0 || cellY >= grid.height then null
    else grid.cells[cellY, cellX]
  }

  /** The C conversion (int)r: the integer part, rounding toward zero. */
  function TruncateToInt(r: real): (n: int)
    ensures r >= 0.0 ==> n as real <= r < n as real + 1.0
    ensures r < 0.0 ==> n as real - 1.0 < r <= n as real
  {
    if r >= 0.0 then r.Floor else -((-r).Floor)
  }

  /**
   * One coordinate of getSpriteGridPosition: the cell index of `pos`,
   * truncated toward zero, then raised to 0 and lowered to n - 1. With at
   * least one cell it is a valid index, equal to the unclamped one whenever
   * that one is valid.
   */
  function ClampedCell(pos: real, origin: real, cellSize: real, n: int): (c: int)
    requires cellSize != 0.0
    ensures n >= 1 ==> 0 <= c < n
    ensures var t := TruncateToInt((pos - origin) / cellSize);
      && (0 <= t < n ==> c == t)
      && (t < 0 && n >= 1 ==> c == 0)
      && (t >= n ==> c == n - 1)
    ensures n < 1 ==> c == n - 1
  {
    var c := TruncateToInt((pos - origin) / cellSize);
    var c := if c < 0 then 0 else c;
    if c >= n then n - 1 else c
  }

  /**
   * getSpriteGridPosition for a sprite whose world position (the translation
   * of its world transform) is (posX, posY): the clamped column and row.
   */
  function SpriteGridPosition(grid: SpatialGrid, posX: real, posY: real): (cell: (int, int))
    reads grid
    requires grid.cellWidth != 0.0 && grid.cellHeight != 0.0
    ensures grid.width >= 1 && grid.height >= 1 ==> 0 <= cell.0 < grid.width && 0 <= cell.1 < grid.height
  {
    (ClampedCell(posX, grid.worldX, grid.cellWidth, grid.width),
     ClampedCell(posY, grid.worldY, grid.cellHeight, grid.height))
  }

  /** On a grid with at least one cell, the clamped position always names a cell. */
  lemma ClampedPositionHasCell(grid: SpatialGrid, posX: real, posY: real)
    requires grid.Valid() && grid.width >= 1 && grid.height >= 1
    requires grid.cellWidth != 0.0 && grid.cellHeight != 0.0
    ensures var cell := SpriteGridPosition(grid, posX, posY);
      GetGridCell(grid, cell.0, cell.1) != null
  {
  }

  /**
   * removeSpriteFromGrid: looks up the cell the sprite was filed under; when
   * there is one and the sprite is in it, its first occurrence is removed by
   * shifting the later sprites down. Otherwise nothing changes.
   */
  method RemoveSpriteFromGrid(grid: SpatialGrid, sprite: Sprite)
    requires grid.Valid()
    requires var cell := GetGridCell(grid, sprite.cellX, sprite.cellY); cell != null ==> cell.Valid()
    modifies var cell := GetGridCell(grid, sprite.cellX, sprite.cellY);
      if cell == null then {} else {cell, cell.sprites}
    ensures var cell := GetGridCell(grid, sprite.cellX, sprite.cellY);
      cell != null ==>
        && cell.Valid()
        && (sprite in old(cell.Members()) ==> cell.Members() == RemoveFirstOf(old(cell.Members()), sprite))
        && (sprite !in old(cell.Members()) ==> cell.count == old(cell.count) && cell.sprites[..] == old(cell.sprites[..]))
  {
    var cell := GetGridCell(grid, sprite.cellX, sprite.cellY);
    if cell == null {
      return;
    }
    var found := RemoveFirst(cell.sprites, cell.count, sprite);
    if found {
      cell.count := cell.count - 1;
    }
  }
}
