/**
 * Tiles: one image placed at a grid cell, the fixed decor and background lawn
 * every demo builds, and the blits they issue.
 */
module Tiles {
  import opened Wrappers
  import opened Display
  import opened Grid

  /** The rectangle origin a tile at grid coordinates (x, y) is blitted to. */
  function RectOf(x: nat, y: nat): (r: Rect)
    ensures x * TileWidth < 0x8000 && y * TileHeight < 0x8000 ==> r == Rect(x * TileWidth, y * TileHeight)
  {
    Rect(PixelOffset(x, TileWidth), PixelOffset(y, TileHeight))
  }

  class Tile {
    /** Whether the tile's screen pointer is non-null. */
    var screen: bool
    /** The image the tile shows, None for a null tile type. */
    var tileType: Option<Image>
    var x: u32
    var y: u32
    var rect: Rect

    /** The rectangle always follows the grid coordinates. */
    ghost predicate Valid()
      reads this
    {
      rect == RectOf(x, y)
    }

    constructor (screen: bool, tileType: Option<Image>, x: u32, y: u32)
      ensures Valid()
      ensures this.screen == screen && this.tileType == tileType && this.x == x && this.y == y
    {
      this.screen := screen;
      this.tileType := tileType;
      this.x := x;
      this.y := y;
      rect := Rect(PixelOffset(x, TileWidth), PixelOffset(y, TileHeight));
    }

    /** Moves the tile to column x, recomputing its rectangle, and returns x. */
    method SetX(x: u32) returns (r: u32)
      requires Valid()
      modifies this
      ensures Valid() && r == x
      ensures this.x == x && y == old(y) && screen == old(screen) && tileType == old(tileType)
    {
      rect := rect.(x := PixelOffset(x, TileWidth));
      this.x := x;
      r := this.x;
    }

    /** Moves the tile to row y, recomputing its rectangle, and returns y. */
    method SetY(y: u32) returns (r: u32)
      requires Valid()
      modifies this
      ensures Valid() && r == y
      ensures this.y == y && x == old(x) && screen == old(screen) && tileType == old(tileType)
    {
      rect := rect.(y := PixelOffset(y, TileHeight));
      this.y := y;
      r := this.y;
    }

    /** The blits drawing this tile issues: none when its screen or its tile type is null. */
    function Blit(): (d: seq<Draw>)
      reads this
      ensures |d| <= 1
      ensures d == [] <==> !screen || tileType.None?
      ensures Valid() && d != [] ==> d == [BlitImage(tileType.value, RectOf(x, y))]
    {
      if screen && tileType.Some? then [BlitImage(tileType.value, rect)] else []
    }
  }

  /** Which image a tile shows at which cell: the abstract value of a drawable tile. */
  datatype Placement = Placement(image: Image, at: Cell)

  function PlacementDraw(p: Placement): Draw {
    BlitImage(p.image, RectOf(p.at.x, p.at.y))
  }

  function Draws(ps: seq<Placement>): (d: seq<Draw>)
    ensures |d| == |ps| && forall k :: 0 <= k < |ps| ==> d[k] == PlacementDraw(ps[k])
  {
    seq(|ps|, k requires 0 <= k < |ps| => PlacementDraw(ps[k]))
  }

  /** The tiles ts show the placements ps, one for one, on the given screen. */
  ghost predicate Places(ts: seq<Tile>, ps: seq<Placement>, screen: bool)
    reads ts
  {
    |ts| == |ps| &&
    forall k :: 0 <= k < |ts| ==>
      ts[k].Valid() && ts[k].screen == screen && ts[k].tileType == Some(ps[k].image) &&
      ts[k].x == ps[k].at.x && ts[k].y == ps[k].at.y
  }

  /** The blits of a sequence of tiles, in sequence order. */
  function BlitsOf(ts: seq<Tile>): seq<Draw>
    reads ts
  {
    if ts == [] then [] else BlitsOf(ts[..|ts| - 1]) + ts[|ts| - 1].Blit()
  }

  lemma BlitsOfPrefix(ts: seq<Tile>, k: nat)
    requires k < |ts|
    ensures BlitsOf(ts[..k + 1]) == BlitsOf(ts[..k]) + ts[k].Blit()
  {
    assert ts[..k + 1][..k] == ts[..k];
  }

  /** Appending a tile that shows p extends what a sequence of tiles places by p. */
  lemma PlacesAppend(ts: seq<Tile>, ps: seq<Placement>, screen: bool, t: Tile, p: Placement)
    requires Places(ts, ps, screen)
    requires t.Valid() && t.screen == screen && t.tileType == Some(p.image) && t.x == p.at.x && t.y == p.at.y
    ensures Places(ts + [t], ps + [p], screen)
  {
  }

  /** Tiles on a screen draw their placements in order; tiles without a screen draw nothing. */
  lemma {:induction false} PlacesBlits(ts: seq<Tile>, ps: seq<Placement>, screen: bool)
    requires Places(ts, ps, screen)
    ensures BlitsOf(ts) == if screen then Draws(ps) else []
    decreases |ts|
  {
    if ts != [] {
      var n := |ts| - 1;
      assert Places(ts[..n], ps[..n], screen);
      PlacesBlits(ts[..n], ps[..n], screen);
      if screen {
        assert Draws(ps) == Draws(ps[..n]) + [PlacementDraw(ps[n])];
      }
    }
  }

  /** Blits each tile of ts in turn (the iterator loop of the render step). */
  method BlitEach(ts: seq<Tile>) returns (draws: seq<Draw>)
    ensures draws == BlitsOf(ts)
  {
    draws := [];
    var i := 0;
    while i < |ts|
      invariant 0 <= i <= |ts|
      invariant draws == BlitsOf(ts[..i])
    {
      BlitsOfPrefix(ts, i);
      draws := draws + ts[i].Blit();
      i := i + 1;
    }
    assert ts[..i] == ts;
  }

  // ---- The lawn ----

  /** The lawn placement at index k: the nested loops enumerate columns, then rows within a column. */
  function LawnCell(k: nat): Cell {
    Cell(k / TilesHeightCount, k % TilesHeightCount)
  }

  /** The background: one lawn tile per cell of the 6 x 5 grid, column by column. */
  function LawnLayout(): (ps: seq<Placement>)
    ensures |ps| == TilesCount == 30
  {
    seq(TilesCount, k requires 0 <= k < TilesCount => Placement(Lawn, LawnCell(k)))
  }

  /** The lawn entry at index i * TilesHeightCount + j is the tile of cell (i, j). */
  lemma LawnLayoutAt(i: nat, j: nat)
    requires Within(Cell(i, j), TilesWidthCount, TilesHeightCount)
    ensures i * TilesHeightCount + j < |LawnLayout()|
    ensures LawnLayout()[i * TilesHeightCount + j] == Placement(Lawn, Cell(i, j))
  {
    var k := i * TilesHeightCount + j;
    assert k / TilesHeightCount == i && k % TilesHeightCount == j;
  }

  /** Every cell of the grid carries exactly one lawn tile, and no lawn tile lies off the grid. */
  lemma LawnCoversGrid(c: Cell)
    ensures Within(c, TilesWidthCount, TilesHeightCount) <==>
      exists k :: 0 <= k < |LawnLayout()| && LawnLayout()[k].at == c
    ensures forall k, l :: 0 <= k < l < |LawnLayout()| ==> LawnLayout()[k].at != LawnLayout()[l].at
  {
    if Within(c, TilesWidthCount, TilesHeightCount) {
      LawnLayoutAt(c.x, c.y);
    }
    forall k, l | 0 <= k < l < |LawnLayout()|
      ensures LawnLayout()[k].at != LawnLayout()[l].at
    {
      assert k == (k / TilesHeightCount) * TilesHeightCount + k % TilesHeightCount;
      assert l == (l / TilesHeightCount) * TilesHeightCount + l % TilesHeightCount;
    }
  }

  /** The tile t is the lawn tile the nested loops push at index k. */
  ghost predicate IsLawnTile(t: Tile, k: nat, screen: bool)
    reads t
  {
    t.Valid() && t.screen == screen && t.tileType == Some(Lawn) && Cell(t.x, t.y) == LawnCell(k)
  }

  /** Builds the lawn with two nested loops, pushing one new tile per (column, row). */
  method BuildLawn(screen: bool) returns (lawn: seq<Tile>)
    ensures Places(lawn, LawnLayout(), screen)
  {
    lawn := [];
    var i := 0;
    while i < TilesWidthCount
      invariant 0 <= i <= TilesWidthCount
      invariant |lawn| == i * TilesHeightCount
      invariant forall k :: 0 <= k < |lawn| ==> IsLawnTile(lawn[k], k, screen)
    {
      var j := 0;
      while j < TilesHeightCount
        invariant 0 <= j <= TilesHeightCount
        invariant |lawn| == i * TilesHeightCount + j
        invariant forall k :: 0 <= k < |lawn| ==> IsLawnTile(lawn[k], k, screen)
      {
        LawnLayoutAt(i, j);
        var t := new Tile(screen, Some(Lawn), i, j);
        lawn := lawn + [t];
        j := j + 1;
      }
      i := i + 1;
    }
  }

  // ---- The decor ----

  /** The nine fixed tiles drawn over the lawn, in the order the demos declare and blit them. */
  function DecorLayout(): (ps: seq<Placement>)
    ensures |ps| == 9
  {
    [ Placement(Aqua, Cell(0, 0)), Placement(Lawn, Cell(1, 0)), Placement(MarbleDark, Cell(2, 0)),
      Placement(WallGrey, Cell(3, 0)), Placement(Wood, Cell(0, 1)), Placement(Wood, Cell(1, 1)),
      Placement(Wood, Cell(2, 1)), Placement(Wood, Cell(3, 1)), Placement(Wood, Cell(4, 1)) ]
  }

  /** Builds the nine decor tiles, each at its fixed cell. */
  method BuildDecor(screen: bool) returns (decor: seq<Tile>)
    ensures Places(decor, DecorLayout(), screen)
  {
    var aqua1 := new Tile(screen, Some(Aqua), 0, 0);
    var lawn1 := new Tile(screen, Some(Lawn), 1, 0);
    var marble1 := new Tile(screen, Some(MarbleDark), 2, 0);
    var wall1 := new Tile(screen, Some(WallGrey), 3, 0);
    var wood1 := new Tile(screen, Some(Wood), 0, 1);
    var wood2 := new Tile(screen, Some(Wood), 1, 1);
    var wood3 := new Tile(screen, Some(Wood), 2, 1);
    var wood4 := new Tile(screen, Some(Wood), 3, 1);
    var wood5 := new Tile(screen, Some(Wood), 4, 1);
    decor := [aqua1, lawn1, marble1, wall1, wood1, wood2, wood3, wood4, wood5];
    var ps := DecorLayout();
    forall k | 0 <= k < 9
      ensures decor[k].Valid() && decor[k].screen == screen && decor[k].tileType == Some(ps[k].image)
      ensures decor[k].x == ps[k].at.x && decor[k].y == ps[k].at.y
    {
      if k == 0 {} else if k == 1 {} else if k == 2 {} else if k == 3 {} else if k == 4 {}
      else if k == 5 {} else if k == 6 {} else if k == 7 {} else {}
    }
  }

  lemma BlitsOfNine(decor: seq<Tile>)
    requires |decor| == 9
    ensures BlitsOf(decor) == decor[0].Blit() + decor[1].Blit() + decor[2].Blit() + decor[3].Blit()
      + decor[4].Blit() + decor[5].Blit() + decor[6].Blit() + decor[7].Blit() + decor[8].Blit()
  {
    assert decor[..9] == decor;
    assert decor[..0] == [];
    forall k | 0 <= k < 9
      ensures BlitsOf(decor[..k + 1]) == BlitsOf(decor[..k]) + decor[k].Blit()
    {
      BlitsOfPrefix(decor, k);
    }
  }

  /** Blits the nine decor tiles one after another. */
  method BlitDecor(decor: seq<Tile>) returns (draws: seq<Draw>)
    requires |decor| == 9
    ensures draws == BlitsOf(decor)
  {
    draws := decor[0].Blit() + decor[1].Blit() + decor[2].Blit() + decor[3].Blit() + decor[4].Blit()
      + decor[5].Blit() + decor[6].Blit() + decor[7].Blit() + decor[8].Blit();
    BlitsOfNine(decor);
  }
}
