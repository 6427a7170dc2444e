/**
 * The mouse demo (07-mouse): a `Game` object owning the tiles, the player,
 * the quit flag and the status message, with a main loop that renders and
 * then handles every pending event.
 */
module MouseDemo {
  import opened Wrappers
  import opened Display
  import opened Grid
  import opened Decimal
  import opened Events
  import opened Messages
  import opened Tiles
  import opened Sprites
  import opened Loop

  class Game {
    var quit: bool
    /** The text of the current status message. */
    var message: string
    /** The nine decor tiles, `_aqua1` to `_wood5` in declaration order. */
    const decor: seq<Tile>
    /** `_all_lawn`. */
    const lawn: seq<Tile>
    const player: Player

    /** Every tile is on the screen at its fixed place; the player has its own tile. */
    ghost predicate Valid()
      reads this, player, player.tile, lawn, decor
    {
      Places(lawn, LawnLayout(), true) && Places(decor, DecorLayout(), true) &&
      player.Valid() && player.tile.screen && player.tile.tileType == Some(PlayerSprite) &&
      player.tile !in lawn && player.tile !in decor
    }

    /** The abstract state: quit flag, player cell and message. */
    function State(): GameState
      reads this, player
    {
      GameState(quit, Cell(player.x, player.y), Some(message))
    }

    /**
     * Sets up the tiles and the player. The screen and the images are taken
     * as loaded; the message stays empty until the main loop sets it.
     */
    constructor ()
      ensures Valid() && State() == Start.(message := Some(""))
    {
      quit := false;
      var d := BuildDecor(true);
      var l := BuildLawn(true);
      decor := d;
      lawn := l;
      player := new Player(true, Some(PlayerSprite));
      message := "";
    }

    /** Renders one frame: the lawn, the decor, the player, the message. */
    method Blit() returns (frame: seq<Draw>)
      requires Valid()
      ensures frame == Frame(State())
    {
      var lawnDraws := BlitEach(lawn);
      var decorDraws := BlitDecor(decor);
      frame := lawnDraws + decorDraws + player.Blit() + [BlitText(message)];
      PlacesBlits(lawn, LawnLayout(), true);
      PlacesBlits(decor, DecorLayout(), true);
    }

    /** Handles one event, building the new message text piece by piece. */
    method HandleEvent(e: Event)
      requires Valid()
      modifies this, player, player.tile
      ensures Valid()
      ensures quit == (old(quit) || Quits(e))
      ensures Cell(player.x, player.y) == Move(Mouse, old(Cell(player.x, player.y)), e)
      ensures message == EventText(e)
      ensures State() == Handle(Mouse, old(State()), e)
    {
      var text := "";
      if e == Quit {
        text := text + "SDL_QUIT";
        quit := true;
      } else if e.KeyDown? {
        text := text + "SDL_KEYDOWN ";
        var name := HandleKey(e.key);
        text := text + name;
        assert text == EventText(e);
      } else if e.MouseButtonDown? {
        var click := ClickText(e.button, e.x, e.y);
        text := text + click;
        assert text == EventText(e);
      }
      message := text;
    }

    /**
     * The key-down branch of the handler: moves the player one cell for an
     * arrow, sets the quit flag for `q`, and returns the key's name.
     */
    method HandleKey(key: Key) returns (name: string)
      requires Valid()
      modifies this, player, player.tile
      ensures Valid() && name == KeyName(key) && message == old(message)
      ensures quit == (old(quit) || key == KeyQ)
      ensures Cell(player.x, player.y) == Move(Mouse, old(Cell(player.x, player.y)), KeyDown(key))
    {
      name := "";
      if key == ArrowLeft {
        name := "SDLK_LEFT";
        player.MoveLeft();
      } else if key == ArrowRight {
        name := "SDLK_RIGHT";
        player.MoveRight();
      } else if key == ArrowUp {
        name := "SDLK_UP";
        player.MoveUp();
      } else if key == ArrowDown {
        name := "SDLK_DOWN";
        player.MoveDown();
      } else if key == KeyQ {
        name := "SDLK_q";
        quit := true;
      }
    }

    /**
     * Sets the message to "Initialized", then renders and drains one batch of
     * pending events per iteration until the quit flag is set or the input ends.
     */
    method MainLoop(batches: seq<seq<Event>>) returns (frames: seq<seq<Draw>>)
      requires Valid()
      modifies this, player, player.tile
      ensures Valid()
      ensures Session(frames, State()) == Run(Mouse, old(State()).(message := Some("Initialized")), batches)
    {
      message := "Initialized";
      ghost var s0 := State();
      frames := [];
      var k := 0;
      while !quit && k < |batches|
        invariant Valid() && k <= |batches|
        invariant Run(Mouse, s0, batches) ==
          Session(frames + Run(Mouse, State(), batches[k..]).frames, Run(Mouse, State(), batches[k..]).final)
        decreases |batches| - k
      {
        RunStep(Mouse, State(), batches, k);
        var frame := Blit();
        frames := frames + [frame];
        HandlePending(batches[k]);
        k := k + 1;
      }
    }

    /** Handles every pending event in order. */
    method HandlePending(events: seq<Event>)
      requires Valid()
      modifies this, player, player.tile
      ensures Valid() && State() == Drain(Mouse, old(State()), events)
    {
      var j := 0;
      while j < |events|
        invariant Valid() && j <= |events|
        invariant Drain(Mouse, State(), events[j..]) == Drain(Mouse, old(State()), events)
      {
        assert events[j..][1..] == events[j + 1..];
        HandleEvent(events[j]);
        j := j + 1;
      }
    }
  }

  /**
   * The mouse-button branch of the handler: the event type, the button name
   * (empty for any other button) and the pointer's pixel coordinates in decimal.
   */
  method ClickText(button: Button, x: u16, y: u16) returns (text: string)
    ensures text == EventText(MouseButtonDown(button, x, y))
  {
    text := "SDL_MOUSEBUTTONDOWN ";
    if button == ButtonLeft {
      text := text + "LEFT";
    } else if button == ButtonMiddle {
      text := text + "MIDDLE";
    } else if button == ButtonRight {
      text := text + "RIGHT";
    }
    assert text == MousePrefix + ButtonName(button);
    text := text + " x = " + NatToDecimal(x);
    text := text + " y = " + NatToDecimal(y);
  }
}
