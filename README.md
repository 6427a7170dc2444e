# Grid movement in three SDL tutorial programs

Three small C++ programs each draw a 6 x 5 grid of 94-pixel lawn tiles with nine
decor tiles and a player sprite on top, and move the player with the arrow keys.
`05-movement` keeps the player's cell in two counters of `main`. `06-text` moves a
`Player` object and shows a fixed status message for each recognised event.
`07-mouse` wraps everything in a `Game` object. It also reports mouse clicks by
building the message text piece by piece.

The model keeps each program's own shape:

- `Tiles.Tile` and `Sprites.Player` are classes whose setters and moves update
  fields in place. A tile's pixel rectangle is an `SDL_Rect` of 16-bit signed
  fields, so it is modelled as the product truncated to 16 bits (`Display.PixelOffset`).
  On the grid this equals `coordinate * 94`.
- `MovementDemo.Demo`, `TextDemo.Demo` and `MouseDemo.Game` hold the state of
  `main` (05, 06) and of `Game` (07). Their set-up, render, event-handling and main
  loops are methods with loop invariants.
- `Loop` is the shared specification those methods are proved against. It defines
  an abstract `GameState` (quit flag, player cell, optional message) and `Handle`
  for one event. It also defines `Drain` for a batch of pending events, `Frame` for
  the ordered list of draws of one frame, and `Run` for the whole outer loop.
  `Version` selects the program: the arrow bounds of 05, the fixed messages of 06,
  the built message of 07.
- `Grid` is the clamped step on a grid and walks made of steps. `Events` is the
  event vocabulary. `Messages` holds the message texts and a reader that parses
  07's text back into its event. `Decimal` is the decimal rendering behind
  `boost::lexical_cast`.

A frame is a sequence of `Draw` records: `BlitImage(image, rect)` and `BlitText(text)`.
The event queue is a sequence of batches. Each batch holds the events pending at
one iteration of the outer loop.

06-text/text.c++:92-216 defines `Tile` and `Player` with the same code as
07-mouse/mouse.c++:138-262, so one class of each serves both programs. The `Tile`
of 05-movement/movement.c++:57-120 assigns the coordinate before it recomputes
the rectangle, and 07 does it the other way round. Both orders leave the same
state, so `Tiles.Tile` serves 05 as well. The getters `x()`/`y()` of `Tile` and
`Player` are plain field reads.

## Model

| member | source | states |
|---|---|---|
| Display.ToSint16 | 07-mouse/mouse.c++:143 | a value stored in an `SDL_Rect` field lies in the 16-bit signed range, is congruent to the input modulo 2^16, and equals the input when it already fits |
| Display.PixelOffset | 07-mouse/mouse.c++:157-158 | the stored pixel offset is in the 16-bit range and equals `coord * size` whenever that product fits |
| Tiles.RectOf | 07-mouse/mouse.c++:157-158 | a tile's rectangle is `(x * TILE_WIDTH, y * TILE_HEIGHT)` whenever both products fit in 16 bits, in particular on the whole grid |
| Tiles.Tile.constructor | 07-mouse/mouse.c++:150-159 | a new tile keeps the screen, type and coordinates it was given, and its rectangle matches its coordinates |
| Tiles.Tile.SetX | 07-mouse/mouse.c++:180-184 | the x setter stores the new column, returns it, keeps the rectangle matching, and changes no other field |
| Tiles.Tile.SetY | 07-mouse/mouse.c++:186-190 | the y setter stores the new row, returns it, keeps the rectangle matching, and changes no other field |
| Tiles.Tile.Blit | 07-mouse/mouse.c++:161-168 | a tile draws nothing exactly when it has no screen or no type, otherwise one image, at its rectangle |
| Tiles.PlacesBlits | 07-mouse/mouse.c++:346-350 | tiles that carry a layout draw exactly that layout's images at its cells, in order, and nothing when they have no screen |
| Tiles.BlitEach | 07-mouse/mouse.c++:346-350 | the iterator loop issues every tile's draws in vector order |
| Tiles.LawnLayout | 07-mouse/mouse.c++:337-341 | the lawn has `TILES_COUNT` = 30 entries |
| Tiles.LawnLayoutAt | 07-mouse/mouse.c++:337-341 | the lawn entry at index `i * TILES_HEIGHT_COUNT + j` is a lawn tile at `(i, j)` |
| Tiles.LawnCoversGrid | 07-mouse/mouse.c++:337-341 | a cell has a lawn tile exactly when it is on the 6 x 5 grid, and no cell has two |
| Tiles.BuildLawn | 07-mouse/mouse.c++:336-341 | the nested `push_back` loops build tiles that carry the lawn layout, index by index |
| Tiles.DecorLayout | 07-mouse/mouse.c++:327-335 | there are nine decor tiles |
| Tiles.BuildDecor | 07-mouse/mouse.c++:327-335 | the nine decor tiles carry their images at their fixed cells, in declaration order |
| Tiles.BlitDecor | 07-mouse/mouse.c++:351-359 | the nine decor blits issue the decor tiles' draws in declaration order |
| Sprites.Player.constructor | 07-mouse/mouse.c++:212-218 | a new player is at (0, 0) with its own freshly made tile at (0, 0) |
| Sprites.Player.Blit | 07-mouse/mouse.c++:230-233 | the player draws its sprite at the rectangle of its cell |
| Sprites.Player.MoveLeft | 07-mouse/mouse.c++:235-240 | moving left is the clamped step left on the 6 x 5 grid; the tile follows the player and the player stays on the grid |
| Sprites.Player.MoveRight | 07-mouse/mouse.c++:242-247 | moving right is the clamped step right on the 6 x 5 grid, so column 5 is the last one reached; the tile follows |
| Sprites.Player.MoveUp | 07-mouse/mouse.c++:249-254 | moving up is the clamped step up on the 6 x 5 grid; the tile follows |
| Sprites.Player.MoveDown | 07-mouse/mouse.c++:256-261 | moving down is the clamped step down on the 6 x 5 grid, so row 4 is the last one reached; the tile follows |
| Grid.StepIsClampedNeighbour | 07-mouse/mouse.c++:235-261 | a move goes to the neighbouring cell exactly when it is on the grid, and is dropped otherwise |
| Grid.EdgeMovesAreNoOps | 07-mouse/mouse.c++:235-261 | left in column 0, up in row 0, right in the last column and down in the last row change nothing |
| Grid.InnerMovesChangeOneAxis | 07-mouse/mouse.c++:235-261 | any move that does something changes exactly one coordinate, by exactly one |
| Grid.WalkStaysWithin | 07-mouse/mouse.c++:235-261 | any sequence of moves that starts on the grid stays on it |
| Grid.WalkAppend | 07-mouse/mouse.c++:235-261 | walking two sequences of moves one after the other is walking their concatenation |
| Grid.EveryCellReachable | 07-mouse/mouse.c++:235-261 | every cell of the grid is reached from (0, 0) by right presses, then down presses |
| Grid.Scenario | 07-mouse/mouse.c++:235-261 | right, right, down from (0, 0) ends at (2, 1), and left at (0, 0) is dropped |
| Decimal.NatToDecimal | 07-mouse/mouse.c++:400-401 | a number's decimal text is non-empty, all digits, has no leading zero and no space |
| Decimal.DecimalRoundTrip | 07-mouse/mouse.c++:400-401 | the decimal text reads back as the number |
| Decimal.NatToDecimalInjective | 07-mouse/mouse.c++:400-401 | distinct numbers have distinct decimal texts |
| Messages.FixedMessagesAgree | 06-text/text.c++:298-323 | 06 has a fixed message exactly for close and the five keys, and each is the text 07 builds for the same event |
| Messages.ExampleTexts | 07-mouse/mouse.c++:367-402 | left arrow gives "SDL_KEYDOWN SDLK_LEFT", another key "SDL_KEYDOWN " with its trailing space, a left click at (120, 80) "SDL_MOUSEBUTTONDOWN LEFT x = 120 y = 80" |
| Messages.ParseEventTextRoundTrip | 07-mouse/mouse.c++:367-402 | every message 07 builds parses back to the event it reports |
| Messages.EventTextInjective | 07-mouse/mouse.c++:367-402 | two different events never produce the same message |
| Loop.DrainQuit | 07-mouse/mouse.c++:365-402 | after a batch the quit flag is set exactly when it was set before or the batch holds a close or `q` event; nothing clears it |
| Loop.DrainPosition | 07-mouse/mouse.c++:374-385 | after a batch the player is where the batch's arrow keys walk it; clicks and other events never move it |
| Loop.DrainStaysWithin | 07-mouse/mouse.c++:235-261 | in every program the player stays within that program's bounds, whatever the events |
| Loop.DrainMouseMessage | 07-mouse/mouse.c++:365-403 | in 07 every handled event replaces the message, so after a batch it is the last event's text |
| Loop.DrainAppend | 07-mouse/mouse.c++:427-429 | draining two batches in turn is draining their concatenation |
| Loop.DrainTextUnrecognised | 06-text/text.c++:297-325 | in 06 a batch without close or one of the five keys leaves the message as it was |
| Loop.DrainTextMessage | 06-text/text.c++:297-325 | in 06 the message after a batch is the fixed text of its last recognised event |
| Loop.DrainMovementMessage | 05-movement/movement.c++:191-227 | 05 shows no message |
| Loop.RunStopsAfterQuittingBatch | 05-movement/movement.c++:174-228 | the loop renders one frame per batch up to and including the batch holding the first quit event and none after it; it ends with quit set exactly when some batch held a quit event |
| Loop.RunFramesShowStates | 07-mouse/mouse.c++:425-430 | frame i shows the state after the first i batches, and the run ends in the state after every batch it rendered |
| Loop.FrameLayout | 07-mouse/mouse.c++:344-362 | a frame draws the 30 lawn tiles column by column, then the nine decor tiles, then the player at its cell, then the message if there is one |
| Loop.EveryCellReachableByKeys | 07-mouse/mouse.c++:374-385 | every cell within a program's bounds is reached from the start by right presses, then down presses |
| Loop.MovementPassesLastColumn | 05-movement/movement.c++:204-209 | in 05 six right presses from the start reach column 6, a cell without lawn |
| Loop.MovementPassesLastRow | 05-movement/movement.c++:216-221 | in 05 five down presses from the start reach row 5, a cell without lawn |
| Loop.ClampedDemosStayOnLawn | 07-mouse/mouse.c++:242-261 | in 06 and 07 the player always stands on a lawn tile |
| Loop.MouseScenarioMoves | 07-mouse/mouse.c++:374-385 | in 07 right, right, down from the start put the player at (2, 1), and left at the start is dropped |
| Loop.MouseScenarioClick | 07-mouse/mouse.c++:390-403 | a left click at (120, 80) reports the button and coordinates and changes nothing else |
| Loop.ScenarioQuit | 07-mouse/mouse.c++:368-370 | closing the window sets the quit flag, and the loop presents exactly one frame when the first batch closes the window |
| MovementDemo.Demo.constructor | 05-movement/movement.c++:125-171 | set-up builds the decor and the lawn on the screen and puts the player tile at (0, 0) with quit clear |
| MovementDemo.Demo.MainLoop | 05-movement/movement.c++:174-228 | the outer loop's frames and final state are those of the specified run of 05 |
| MovementDemo.Demo.Render | 05-movement/movement.c++:176-189 | the indexed render loop stays within the lawn vector and issues the specified frame |
| MovementDemo.Demo.HandlePending | 05-movement/movement.c++:191-227 | draining the pending events reaches the specified state after the batch |
| MovementDemo.Demo.HandleEvent | 05-movement/movement.c++:192-225 | one event sets quit for close or `q` and moves the counters one cell within 0..6 by 0..5; the tile follows the counters |
| TextDemo.Demo.constructor | 06-text/text.c++:242-274 | set-up builds the decor, the lawn and the player at (0, 0), with quit clear and no message |
| TextDemo.Demo.MainLoop | 06-text/text.c++:276-326 | the outer loop's frames and final state are those of the specified run of 06 |
| TextDemo.Demo.Render | 06-text/text.c++:279-295 | the frame is lawn, decor, player, then the message only if there is one |
| TextDemo.Demo.HandlePending | 06-text/text.c++:297-325 | draining the pending events reaches the specified state after the batch |
| TextDemo.Demo.HandleEvent | 06-text/text.c++:298-324 | one event sets quit for close or `q`, moves the player for an arrow, and sets the fixed message for the six recognised events only |
| MouseDemo.Game.constructor | 07-mouse/mouse.c++:408-415 | set-up builds the decor, the lawn and the player at (0, 0) with quit clear |
| MouseDemo.Game.Blit | 07-mouse/mouse.c++:344-363 | the frame is lawn, decor, player, then the message |
| MouseDemo.Game.HandleEvent | 07-mouse/mouse.c++:365-404 | one event sets quit for close or `q`, moves the player for an arrow, and always replaces the message with the event's text |
| MouseDemo.Game.HandleKey | 07-mouse/mouse.c++:372-389 | the key branch appends the key's name, moves for an arrow, sets quit for `q` |
| MouseDemo.ClickText | 07-mouse/mouse.c++:390-401 | the click branch builds the type, the button name and both coordinates in decimal |
| MouseDemo.Game.HandlePending | 07-mouse/mouse.c++:427-429 | draining the pending events reaches the specified state after the batch |
| MouseDemo.Game.MainLoop | 07-mouse/mouse.c++:422-431 | the loop first shows "Initialized", then its frames and final state are those of the specified run of 07 |

## Left out

- SDL and SDL_ttf set-up (`SDL_Init`, `SDL_SetVideoMode`, `SDL_WM_SetCaption`, `TTF_Init`, `SDL_Delay`, `SDL_Flip`, `SDL_Quit`) is display I/O. Its `throw` paths on failure are not modelled: set-up is taken to succeed.
- Loading images and fonts and rendering text (`IMG_Load`, `SDL_DisplayFormatAlpha`, `TTF_OpenFont`, `TTF_RenderText_Solid`, `SDL_BlitSurface`) are foreign calls. An image is an enumerated name, and a message is its text.
- `SDL_PollEvent` is replaced by a sequence of batches of events. The model's main loops end when the batches run out, where the programs would keep rendering and polling until a quit event.
- Keys other than the arrows and `q`, buttons other than the three named ones, and event types other than close, key-down and button-down are each one constructor. The programs treat all members of each group alike.
- Memory management is left out: the destructors and the release of surfaces. The programs also replace the message without releasing the old one, so no property about releasing it is stated.
- `cout` logging in 05, including `noisy_blit`, is left out. Its blit is modelled as the plain `blit`.
- In 06 the message pointer starts uninitialised. The model starts it as no message, so the first frames draw no text.
- In 07 the constructor leaves `_message` unset, and `main_loop` sets it before the first frame. The model starts it as the empty text, and `MouseDemo.Game.MainLoop` sets "Initialized" first.
- Rendering an empty 07 message is a text draw of "" in the model. What such a draw shows on screen is not modelled.
- `_sdl_init` and `_load_images` of 07 and the static `Player::tile_type` are image and display set-up. The sprite image is passed to the `Player` constructor instead. `Game::_setup_tiles` is modelled by `Tiles.BuildDecor` and `Tiles.BuildLawn`, called from the constructor.
- 01-clownfish to 04-events are not part of this model.

## Findings

| source | as written | input that shows it | evidently intended | confidence | as-written member | corrected member |
|---|---|---|---|---|---|---|
| 05-movement/movement.c++:206 | the right-arrow guard is `player_x < TILES_WIDTH_COUNT` | six right-arrow presses from (0, 0) put the player at column 6, where no lawn tile is drawn | `player_x < TILES_WIDTH_COUNT - 1`, as in `Player::move_right` of 06 and 07 | high; not executed | Loop.MovementPassesLastColumn | Sprites.Player.MoveRight |
| 05-movement/movement.c++:218 | the down-arrow guard is `player_y < TILES_HEIGHT_COUNT` | five down-arrow presses from (0, 0) put the player at row 5, where no lawn tile is drawn | `player_y < TILES_HEIGHT_COUNT - 1`, as in `Player::move_down` of 06 and 07 | high; not executed | Loop.MovementPassesLastRow | Sprites.Player.MoveDown |
