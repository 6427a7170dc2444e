/**
 * The text demo (06-text): everything lives in `main`'s locals. The tiles and
 * the player are set up once, then each iteration renders the scene with the
 * current message, if any, and handles the pending events.
 */
module TextDemo {
  import opened Wrappers
  import opened Display
  import opened Grid
  import opened Events
  import opened Messages
  import opened Tiles
  import opened Sprites
  import opened Loop

  /** `main`'s state: the quit flag, the tiles, the player and the message. */
  class Demo {
    var quit: bool
    /** The message surface; `None` until a recognised event has set one. */
    var message: Option<string>
    /** `aqua1` to `wood5` in declaration order. */
    const decor: seq<Tile>
    /** `all_lawn`. */
    const lawn: seq<Tile>
    const player: Player

    ghost predicate Valid()
      reads this, player, player.tile, lawn, decor
    {
      Places(lawn, LawnLayout(), true) && Places(decor, DecorLayout(), true) &&
      player.Valid() && player.tile.screen && player.tile.tileType == Some(PlayerSprite) &&
      player.tile !in lawn && player.tile !in decor
    }

    function State(): GameState
      reads this, player
    {
      GameState(quit, Cell(player.x, player.y), message)
    }

    /** The setup part of `main`: decor tiles, then the lawn, then the player. */
    constructor ()
      ensures Valid() && State() == Start
    {
      quit := false;
      var d := BuildDecor(true);
      var l := BuildLawn(true);
      decor := d;
      lawn := l;
      player := new Player(true, Some(PlayerSprite));
      message := None;
    }

    /** The main loop: render, then handle every pending event, until quit is set. */
    method MainLoop(batches: seq<seq<Event>>) returns (frames: seq<seq<Draw>>)
      requires Valid()
      modifies this, player, player.tile
      ensures Valid()
      ensures Session(frames, State()) == Run(Text, old(State()), batches)
    {
      frames := [];
      var k := 0;
      while !quit && k < |batches|
        invariant Valid() && k <= |batches|
        invariant Run(Text, old(State()), batches) ==
          Session(frames + Run(Text, State(), batches[k..]).frames, Run(Text, State(), batches[k..]).final)
        decreases |batches| - k
      {
        RunStep(Text, State(), batches, k);
        var frame := Render();
        frames := frames + [frame];
        HandlePending(batches[k]);
        k := k + 1;
      }
    }

    /** The lawn, the nine decor tiles, the player, then the message if there is one. */
    method Render() returns (frame: seq<Draw>)
      requires Valid()
      ensures frame == Frame(State())
    {
      var lawnDraws := BlitEach(lawn);
      var decorDraws := BlitDecor(decor);
      frame := lawnDraws + decorDraws + player.Blit();
      if message.Some? {
        frame := frame + [BlitText(message.value)];
      }
      PlacesBlits(lawn, LawnLayout(), true);
      PlacesBlits(decor, DecorLayout(), true);
    }

    method HandlePending(events: seq<Event>)
      requires Valid()
      modifies this, player, player.tile
      ensures Valid() && State() == Drain(Text, old(State()), events)
    {
      var j := 0;
      while j < |events|
        invariant Valid() && j <= |events|
        invariant Drain(Text, State(), events[j..]) == Drain(Text, old(State()), events)
      {
        assert events[j..][1..] == events[j + 1..];
        HandleEvent(events[j]);
        j := j + 1;
      }
    }

    /**
     * One event: window close and the five keys set a fixed message; the
     * arrows move the player, close and `q` set the quit flag. Anything else
     * changes nothing.
     */
    method HandleEvent(e: Event)
      requires Valid()
      modifies this, player, player.tile
      ensures Valid()
      ensures quit == (old(quit) || Quits(e))
      ensures Cell(player.x, player.y) == Move(Text, old(Cell(player.x, player.y)), e)
      ensures message == NewMessage(Text, old(message), e)
      ensures State() == Handle(Text, old(State()), e)
    {
      if e == Quit {
        message := Some("SDL_QUIT");
        quit := true;
      } else if e.KeyDown? {
        var key := e.key;
        if key == ArrowLeft {
          message := Some("SDL_KEYDOWN SDLK_LEFT");
          player.MoveLeft();
        } else if key == ArrowRight {
          message := Some("SDL_KEYDOWN SDLK_RIGHT");
          player.MoveRight();
        } else if key == ArrowUp {
          message := Some("SDL_KEYDOWN SDLK_UP");
          player.MoveUp();
        } else if key == ArrowDown {
          message := Some("SDL_KEYDOWN SDLK_DOWN");
          player.MoveDown();
        } else if key == KeyQ {
          message := Some("SDL_KEYDOWN SDLK_q");
          quit := true;
        }
      }
    }
  }
}
