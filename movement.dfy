/**
 * The movement demo (05-movement): `main` keeps the player's cell in two
 * counters of its own and mirrors them into a plain tile. Its bounds checks
 * compare against the tile counts themselves, so the player can step one
 * cell past the lawn on the right and at the bottom.
 */
module MovementDemo {
  import opened Wrappers
  import opened Display
  import opened Grid
  import opened Events
  import opened Tiles
  import opened Loop

  /** `main`'s state: the quit flag, the player's counters and the tiles. */
  class Demo {
    var quit: bool
    var playerX: u32
    var playerY: u32
    /** `aqua1` to `wood5` in declaration order. */
    const decor: seq<Tile>
    /** `all_lawn`. */
    const lawn: seq<Tile>
    /** The tile drawn with the player image, kept at the player's counters. */
    const player1: Tile

    ghost predicate Valid()
      reads this, player1, lawn, decor
    {
      Places(lawn, LawnLayout(), true) && Places(decor, DecorLayout(), true) &&
      player1.Valid() && player1.screen && player1.tileType == Some(PlayerSprite) &&
      player1.x == playerX && player1.y == playerY &&
      playerX < Width(Movement) && playerY < Height(Movement) &&
      player1 !in lawn && player1 !in decor
    }

    /** The abstract state; this demo has no message. */
    function State(): GameState
      reads this
    {
      GameState(quit, Cell(playerX, playerY), None)
    }

    /** The setup part of `main`: decor tiles, the lawn, then the player tile at (0, 0). */
    constructor ()
      ensures Valid() && State() == Start
    {
      quit := false;
      playerX := 0;
      playerY := 0;
      var d := BuildDecor(true);
      var l := BuildLawn(true);
      decor := d;
      lawn := l;
      player1 := new Tile(true, Some(PlayerSprite), 0, 0);
    }

    /** The main loop: render, then handle every pending event, until quit is set. */
    method MainLoop(batches: seq<seq<Event>>) returns (frames: seq<seq<Draw>>)
      requires Valid()
      modifies this, player1
      ensures Valid()
      ensures Session(frames, State()) == Run(Movement, old(State()), batches)
    {
      frames := [];
      var k := 0;
      while !quit && k < |batches|
        invariant Valid() && k <= |batches|
        invariant Run(Movement, old(State()), batches) ==
          Session(frames + Run(Movement, State(), batches[k..]).frames, Run(Movement, State(), batches[k..]).final)
        decreases |batches| - k
      {
        RunStep(Movement, State(), batches, k);
        var frame := Render();
        frames := frames + [frame];
        HandlePending(batches[k]);
        k := k + 1;
      }
    }

    /** The lawn by index over all `TilesCount` tiles, the nine decor tiles, then the player. */
    method Render() returns (frame: seq<Draw>)
      requires Valid()
      ensures frame == Frame(State())
    {
      var lawnDraws := [];
      for i := 0 to TilesCount
        invariant lawnDraws == BlitsOf(lawn[..i])
      {
        BlitsOfPrefix(lawn, i);
        lawnDraws := lawnDraws + lawn[i].Blit();
      }
      assert lawn[..TilesCount] == lawn;
      var decorDraws := BlitDecor(decor);
      frame := lawnDraws + decorDraws + player1.Blit();
      PlacesBlits(lawn, LawnLayout(), true);
      PlacesBlits(decor, DecorLayout(), true);
    }

    method HandlePending(events: seq<Event>)
      requires Valid()
      modifies this, player1
      ensures Valid() && State() == Drain(Movement, old(State()), events)
    {
      var j := 0;
      while j < |events|
        invariant Valid() && j <= |events|
        invariant Drain(Movement, State(), events[j..]) == Drain(Movement, old(State()), events)
      {
        assert events[j..][1..] == events[j + 1..];
        HandleEvent(events[j]);
        j := j + 1;
      }
    }

    /**
     * One event: close and `q` set the quit flag; an arrow moves the counter
     * one cell unless the guard stops it, then copies it into the tile.
     */
    method HandleEvent(e: Event)
      requires Valid()
      modifies this, player1
      ensures Valid()
      ensures quit == (old(quit) || Quits(e))
      ensures Cell(playerX, playerY) == Move(Movement, old(Cell(playerX, playerY)), e)
      ensures State() == Handle(Movement, old(State()), e)
    {
      if e == Quit {
        quit := true;
      } else if e.KeyDown? {
        var key := e.key;
        if key == ArrowLeft {
          if 0 < playerX {
            playerX := playerX - 1;
            var _ := player1.SetX(playerX);
          }
        } else if key == ArrowRight {
          if playerX < TilesWidthCount as u32 {
            playerX := playerX + 1;
            var _ := player1.SetX(playerX);
          }
        } else if key == ArrowUp {
          if 0 < playerY {
            playerY := playerY - 1;
            var _ := player1.SetY(playerY);
          }
        } else if key == ArrowDown {
          if playerY < TilesHeightCount as u32 {
            playerY := playerY + 1;
            var _ := player1.SetY(playerY);
          }
        } else if key == KeyQ {
          quit := true;
        }
      }
    }
  }
}
