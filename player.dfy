/**
 * The player of the text and mouse demos: a position kept on the 6 x 5 grid
 * and the tile that draws it there.
 */
module Sprites {
  import opened Wrappers
  import opened Display
  import opened Grid
  import opened Tiles

  class Player {
    var screen: bool
    var x: u32
    var y: u32
    /** The player's own tile; the player moves it through its setters. */
    const tile: Tile

    /** The tile follows the position, and the position stays on the grid. */
    ghost predicate Valid()
      reads this, tile
    {
      tile.Valid() && tile.x == x && tile.y == y &&
      Within(Cell(x, y), TilesWidthCount, TilesHeightCount)
    }

    /** A player at (0, 0); `sprite` is the shared player tile type, None when it was never loaded. */
    constructor (screen: bool, sprite: Option<Image>)
      ensures Valid() && x == 0 && y == 0 && this.screen == screen
      ensures tile.screen == screen && tile.tileType == sprite
      ensures fresh(tile)
    {
      this.screen := screen;
      x := 0;
      y := 0;
      tile := new Tile(screen, sprite, 0, 0);
    }

    /** The blits drawing the player issues: those of its tile. */
    function Blit(): (d: seq<Draw>)
      reads this, tile
      ensures Valid() && tile.screen && tile.tileType.Some? ==>
        d == [BlitImage(tile.tileType.value, RectOf(x, y))]
    {
      tile.Blit()
    }

    method MoveLeft()
      requires Valid()
      modifies this, tile
      ensures Valid() && Cell(x, y) == Step(old(Cell(x, y)), Left, TilesWidthCount, TilesHeightCount)
      ensures screen == old(screen) && tile.screen == old(tile.screen) && tile.tileType == old(tile.tileType)
    {
      if 0 < x {
        x := x - 1;
        var _ := tile.SetX(x);
      }
    }

    method MoveRight()
      requires Valid()
      modifies this, tile
      ensures Valid() && Cell(x, y) == Step(old(Cell(x, y)), Right, TilesWidthCount, TilesHeightCount)
      ensures screen == old(screen) && tile.screen == old(tile.screen) && tile.tileType == old(tile.tileType)
    {
      if x < TilesWidthCount - 1 {
        x := x + 1;
        var _ := tile.SetX(x);
      }
    }

    method MoveUp()
      requires Valid()
      modifies this, tile
      ensures Valid() && Cell(x, y) == Step(old(Cell(x, y)), Up, TilesWidthCount, TilesHeightCount)
      ensures screen == old(screen) && tile.screen == old(tile.screen) && tile.tileType == old(tile.tileType)
    {
      if 0 < y {
        y := y - 1;
        var _ := tile.SetY(y);
      }
    }

    method MoveDown()
      requires Valid()
      modifies this, tile
      ensures Valid() && Cell(x, y) == Step(old(Cell(x, y)), Down, TilesWidthCount, TilesHeightCount)
      ensures screen == old(screen) && tile.screen == old(tile.screen) && tile.tileType == old(tile.tileType)
    {
      if y < TilesHeightCount - 1 {
        y := y + 1;
        var _ := tile.SetY(y);
      }
    }
  }
}
