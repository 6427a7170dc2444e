/**
 * The state machine the three demos run: render a frame, then drain every
 * pending event, until the quit flag is set. The demos differ in how far the
 * player may move and in the status message they keep; `Version` selects
 * which demo's rules apply.
 */
module Loop {
  import opened Wrappers
  import opened Display
  import opened Grid
  import opened Events
  import opened Messages
  import opened Tiles

  datatype Version =
    | Movement // 05-movement: bound checks against the tile counts themselves, no message
    | Text     // 06-text: clamped player, fixed messages for six events
    | Mouse    // 07-mouse: clamped player, a message for every event

  /** What the demos remember between events: the quit flag, the player's cell and the status message. */
  datatype GameState = GameState(quit: bool, at: Cell, message: Option<string>)

  /**
   * The grid the player's moves are clamped to. The movement demo increments
   * while `player_x < TILES_WIDTH_COUNT`, so its player can reach column
   * TILES_WIDTH_COUNT, one past the last lawn column; likewise for rows.
   */
  function Width(v: Version): nat {
    if v == Movement then TilesWidthCount + 1 else TilesWidthCount
  }

  function Height(v: Version): nat {
    if v == Movement then TilesHeightCount + 1 else TilesHeightCount
  }

  /** Where an event leaves the player: arrow keys step, everything else stays. */
  function Move(v: Version, at: Cell, e: Event): Cell {
    match Arrow(e)
    case Some(d) => Step(at, d, Width(v), Height(v))
    case None => at
  }

  /** The status message after an event. */
  function NewMessage(v: Version, m: Option<string>, e: Event): Option<string> {
    match v
    case Movement => m
    case Text => if FixedMessage(e).Some? then FixedMessage(e) else m
    case Mouse => Some(EventText(e))
  }

  /** Handling one event: the quit flag is only ever set, the player only moves on arrow keys. */
  function Handle(v: Version, s: GameState, e: Event): GameState {
    GameState(s.quit || Quits(e), Move(v, s.at, e), NewMessage(v, s.message, e))
  }

  /** Handling every event of one poll pass, in order. */
  function Drain(v: Version, s: GameState, es: seq<Event>): GameState
    decreases |es|
  {
    if es == [] then s else Drain(v, Handle(v, s, es[0]), es[1..])
  }

  function PlayerDraw(at: Cell): Draw {
    BlitImage(PlayerSprite, RectOf(at.x, at.y))
  }

  /** One frame, back to front: the lawn, the decor, the player, then the message if there is one. */
  function Frame(s: GameState): seq<Draw> {
    Draws(LawnLayout()) + Draws(DecorLayout()) + [PlayerDraw(s.at)] +
    (match s.message case Some(t) => [BlitText(t)] case None => [])
  }

  /** The frames a run presents and the state it ends in. */
  datatype Session = Session(frames: seq<seq<Draw>>, final: GameState)

  /**
   * The outer loop over a finite input: while the quit flag is clear, render
   * a frame and drain one batch of pending events. The run also ends when the
   * input runs out.
   */
  function Run(v: Version, s: GameState, batches: seq<seq<Event>>): Session
    decreases |batches|
  {
    if s.quit || batches == [] then Session([], s)
    else
      var rest := Run(v, Drain(v, s, batches[0]), batches[1..]);
      Session([Frame(s)] + rest.frames, rest.final)
  }

  /** The state after draining whole batches one after another. */
  function DrainAll(v: Version, s: GameState, batches: seq<seq<Event>>): GameState
    decreases |batches|
  {
    if batches == [] then s else DrainAll(v, Drain(v, s, batches[0]), batches[1..])
  }

  /** The state after setup: running, the player at the origin, no message yet. */
  const Start: GameState := GameState(false, Origin, None)

  predicate HasQuit(es: seq<Event>) {
    exists i :: 0 <= i < |es| && Quits(es[i])
  }

  // ---- One poll pass ----

  /** After a pass the quit flag is set exactly when it was set before or the pass held a quit event. */
  lemma {:induction false} DrainQuit(v: Version, s: GameState, es: seq<Event>)
    ensures Drain(v, s, es).quit <==> s.quit || HasQuit(es)
    decreases |es|
  {
    if es != [] {
      DrainQuit(v, Handle(v, s, es[0]), es[1..]);
      if HasQuit(es[1..]) {
        var i :| 0 <= i < |es[1..]| && Quits(es[1..][i]);
        assert Quits(es[i + 1]);
      }
      if HasQuit(es) && !Quits(es[0]) {
        var i :| 0 <= i < |es| && Quits(es[i]);
        assert Quits(es[1..][i - 1]);
      }
    }
  }

  /** A pass moves the player exactly as the arrow keys in it, in order, ask. */
  lemma {:induction false} DrainPosition(v: Version, s: GameState, es: seq<Event>)
    ensures Drain(v, s, es).at == Walk(s.at, Arrows(es), Width(v), Height(v))
    decreases |es|
  {
    if es != [] {
      DrainPosition(v, Handle(v, s, es[0]), es[1..]);
      match Arrow(es[0])
      case Some(d) =>
        assert Arrows(es) == [d] + Arrows(es[1..]);
      case None =>
        assert Arrows(es) == Arrows(es[1..]);
    }
  }

  /** No sequence of events moves the player off its grid. */
  lemma DrainStaysWithin(v: Version, s: GameState, es: seq<Event>)
    requires Within(s.at, Width(v), Height(v))
    ensures Within(Drain(v, s, es).at, Width(v), Height(v))
  {
    DrainPosition(v, s, es);
    WalkStaysWithin(s.at, Arrows(es), Width(v), Height(v));
  }

  /** The mouse demo's message after a pass is the text of the pass's last event; an empty pass keeps it. */
  lemma {:induction false} DrainMouseMessage(s: GameState, es: seq<Event>)
    ensures Drain(Mouse, s, es).message == if es == [] then s.message else Some(EventText(es[|es| - 1]))
    decreases |es|
  {
    if es != [] {
      DrainMouseMessage(Handle(Mouse, s, es[0]), es[1..]);
    }
  }

  /** Draining a + b is draining a, then b. */
  lemma {:induction false} DrainAppend(v: Version, s: GameState, a: seq<Event>, b: seq<Event>)
    ensures Drain(v, s, a + b) == Drain(v, Drain(v, s, a), b)
    decreases |a|
  {
    if a == [] {
      assert a + b == b;
    } else {
      assert (a + b)[1..] == a[1..] + b;
      DrainAppend(v, Handle(v, s, a[0]), a[1..], b);
    }
  }

  /** The text demo's message survives a pass without a recognised event. */
  lemma {:induction false} DrainTextUnrecognised(s: GameState, es: seq<Event>)
    requires forall i :: 0 <= i < |es| ==> !Recognised(es[i])
    ensures Drain(Text, s, es).message == s.message
    decreases |es|
  {
    if es != [] {
      FixedMessagesAgree(es[0]);
      assert forall i :: 0 <= i < |es[1..]| ==> es[1..][i] == es[i + 1];
      DrainTextUnrecognised(Handle(Text, s, es[0]), es[1..]);
    }
  }

  /** After a pass, the text demo shows the fixed message of the pass's last recognised event. */
  lemma DrainTextMessage(s: GameState, es: seq<Event>, i: nat)
    requires i < |es| && Recognised(es[i])
    requires forall j :: i < j < |es| ==> !Recognised(es[j])
    ensures Drain(Text, s, es).message == Some(EventText(es[i]))
  {
    var pre, post := es[..i], es[i + 1..];
    assert es == pre + [es[i]] + post;
    DrainAppend(Text, s, pre + [es[i]], post);
    DrainAppend(Text, s, pre, [es[i]]);
    FixedMessagesAgree(es[i]);
    assert forall j :: 0 <= j < |post| ==> post[j] == es[i + 1 + j];
    DrainTextUnrecognised(Drain(Text, s, pre + [es[i]]), post);
  }

  /** The movement demo keeps no message at all. */
  lemma {:induction false} DrainMovementMessage(s: GameState, es: seq<Event>)
    ensures Drain(Movement, s, es).message == s.message
    decreases |es|
  {
    if es != [] {
      DrainMovementMessage(Handle(Movement, s, es[0]), es[1..]);
    }
  }

  // ---- The outer loop ----

  /**
   * A run renders one frame per batch until the batch in which a quit event
   * arrives, renders no frame after it, and ends with the quit flag set
   * exactly when some batch held a quit event.
   */
  lemma {:induction false} RunStopsAfterQuittingBatch(v: Version, s: GameState, batches: seq<seq<Event>>)
    requires !s.quit
    ensures var n := |Run(v, s, batches).frames|;
      n <= |batches| && (batches != [] ==> 1 <= n) &&
      (forall i :: 0 <= i < n - 1 ==> !HasQuit(batches[i])) &&
      (n < |batches| ==> HasQuit(batches[n - 1]))
    ensures Run(v, s, batches).final.quit <==> exists i :: 0 <= i < |batches| && HasQuit(batches[i])
    decreases |batches|
  {
    if batches != [] {
      var s' := Drain(v, s, batches[0]);
      DrainQuit(v, s, batches[0]);
      if !s'.quit {
        var rest := batches[1..];
        RunStopsAfterQuittingBatch(v, s', rest);
        assert forall i :: 0 <= i < |rest| ==> rest[i] == batches[i + 1];
        if exists i :: 0 <= i < |batches| && HasQuit(batches[i]) {
          var i :| 0 <= i < |batches| && HasQuit(batches[i]);
          assert HasQuit(rest[i - 1]);
        }
      }
    }
  }

  /** One more iteration of the outer loop, seen from batch k on. */
  lemma RunStep(v: Version, s: GameState, batches: seq<seq<Event>>, k: nat)
    requires k < |batches| && !s.quit
    ensures var rest := Run(v, Drain(v, s, batches[k]), batches[k + 1..]);
      Run(v, s, batches[k..]) == Session([Frame(s)] + rest.frames, rest.final)
  {
    assert batches[k..][0] == batches[k];
    assert batches[k..][1..] == batches[k + 1..];
  }

  lemma DrainAllShift(v: Version, s: GameState, batches: seq<seq<Event>>, i: nat)
    requires i < |batches|
    ensures DrainAll(v, s, batches[..i + 1]) == DrainAll(v, Drain(v, s, batches[0]), batches[1..][..i])
  {
    assert batches[..i + 1][0] == batches[0];
    assert batches[..i + 1][1..] == batches[1..][..i];
  }

  /**
   * Frame i shows the state after the first i batches, and the run ends in
   * the state after every batch it rendered a frame for: the events that
   * follow a quit event in its batch are still handled, later batches never are.
   */
  lemma {:induction false} RunFramesShowStates(v: Version, s: GameState, batches: seq<seq<Event>>)
    ensures var r := Run(v, s, batches);
      |r.frames| <= |batches| &&
      (forall i :: 0 <= i < |r.frames| ==> r.frames[i] == Frame(DrainAll(v, s, batches[..i]))) &&
      r.final == DrainAll(v, s, batches[..|r.frames|])
    decreases |batches|
  {
    assert batches[..0] == [];
    if !s.quit && batches != [] {
      var s' := Drain(v, s, batches[0]);
      RunFramesShowStates(v, s', batches[1..]);
      var r := Run(v, s', batches[1..]);
      forall i | 0 <= i <= |r.frames|
        ensures DrainAll(v, s, batches[..i + 1]) == DrainAll(v, s', batches[1..][..i])
      {
        DrainAllShift(v, s, batches, i);
      }
    }
  }

  // ---- The frame ----

  /**
   * A frame draws the 30 lawn tiles column by column, then the nine decor
   * tiles, then the player at its cell, then the message if there is one: the
   * player is the last image drawn, so it covers the lawn tile of its cell.
   */
  lemma FrameLayout(s: GameState)
    requires Within(s.at, TilesWidthCount + 1, TilesHeightCount + 1)
    ensures var f := Frame(s);
      |f| == TilesCount + 9 + 1 + (if s.message.Some? then 1 else 0) &&
      (forall k :: 0 <= k < TilesCount ==>
        f[k] == BlitImage(Lawn, Rect((k / TilesHeightCount) * TileWidth, (k % TilesHeightCount) * TileHeight))) &&
      (forall k :: 0 <= k < 9 ==> f[TilesCount + k] == PlacementDraw(DecorLayout()[k])) &&
      f[TilesCount + 9] == BlitImage(PlayerSprite, Rect(s.at.x * TileWidth, s.at.y * TileHeight)) &&
      (forall k :: TilesCount + 9 < k < |f| ==> f[k] == BlitText(s.message.value))
  {
    var f := Frame(s);
    forall k | 0 <= k < TilesCount
      ensures f[k] == BlitImage(Lawn, Rect((k / TilesHeightCount) * TileWidth, (k % TilesHeightCount) * TileHeight))
    {
      assert f[k] == Draws(LawnLayout())[k];
    }
    forall k | 0 <= k < 9
      ensures f[TilesCount + k] == PlacementDraw(DecorLayout()[k])
    {
      assert f[TilesCount + k] == Draws(DecorLayout())[k];
    }
  }

  // ---- Scenarios and the movement demo's bound ----

  /** Every cell of a demo's grid is reachable by arrow keys: i presses of right, then j of down. */
  lemma EveryCellReachableByKeys(v: Version, i: nat, j: nat)
    requires Within(Cell(i, j), Width(v), Height(v))
    ensures Drain(v, Start, KeyPresses(Repeat(Right, i) + Repeat(Down, j))).at == Cell(i, j)
  {
    var ds := Repeat(Right, i) + Repeat(Down, j);
    DrainPosition(v, Start, KeyPresses(ds));
    ArrowsOfKeyPresses(ds);
    EveryCellReachable(i, j, Width(v), Height(v));
  }

  /**
   * In the movement demo six presses of the right arrow take the player to
   * column 6, where no lawn tile lies.
   */
  lemma MovementPassesLastColumn()
    ensures Drain(Movement, Start, KeyPresses(Repeat(Right, 6))).at == Cell(6, 0)
    ensures forall k :: 0 <= k < |LawnLayout()| ==> LawnLayout()[k].at != Cell(6, 0)
  {
    assert Repeat(Right, 6) + Repeat(Down, 0) == Repeat(Right, 6);
    EveryCellReachableByKeys(Movement, 6, 0);
    LawnCoversGrid(Cell(6, 0));
  }

  /** In the movement demo five presses of the down arrow take the player to row 5, where no lawn tile lies. */
  lemma MovementPassesLastRow()
    ensures Drain(Movement, Start, KeyPresses(Repeat(Down, 5))).at == Cell(0, 5)
    ensures forall k :: 0 <= k < |LawnLayout()| ==> LawnLayout()[k].at != Cell(0, 5)
  {
    assert Repeat(Right, 0) + Repeat(Down, 5) == Repeat(Down, 5);
    EveryCellReachableByKeys(Movement, 0, 5);
    LawnCoversGrid(Cell(0, 5));
  }

  /** The text and mouse demos keep the player on the lawn whatever the events. */
  lemma ClampedDemosStayOnLawn(v: Version, s: GameState, es: seq<Event>)
    requires v != Movement
    requires Within(s.at, TilesWidthCount, TilesHeightCount)
    ensures exists k :: 0 <= k < |LawnLayout()| && LawnLayout()[k].at == Drain(v, s, es).at
  {
    DrainStaysWithin(v, s, es);
    LawnCoversGrid(Drain(v, s, es).at);
  }

  /** The mouse demo's start after its initial message. */
  const MouseStart: GameState := Start.(message := Some("Initialized"))

  /** From the start, right, right, down puts the player at (2, 1), and left at the origin is dropped. */
  lemma MouseScenarioMoves()
    ensures Drain(Mouse, MouseStart, [KeyDown(ArrowRight), KeyDown(ArrowRight), KeyDown(ArrowDown)]).at == Cell(2, 1)
    ensures Handle(Mouse, MouseStart, KeyDown(ArrowLeft)).at == Origin
  {
    var es := [KeyDown(ArrowRight), KeyDown(ArrowRight), KeyDown(ArrowDown)];
    DrainPosition(Mouse, MouseStart, es);
    assert es == KeyPresses([Right, Right, Down]);
    ArrowsOfKeyPresses([Right, Right, Down]);
    Scenario();
  }

  /** A left click at pixel (120, 80) reports the button and the coordinates and leaves the player where it was. */
  lemma MouseScenarioClick(s: GameState)
    ensures Handle(Mouse, s, MouseButtonDown(ButtonLeft, 120, 80)) ==
      s.(message := Some("SDL_MOUSEBUTTONDOWN LEFT x = 120 y = 80"))
  {
    ExampleTexts();
  }

  /** Closing the window sets the quit flag, and the run presents no frame after that pass. */
  lemma ScenarioQuit(v: Version, s: GameState, later: seq<seq<Event>>)
    requires !s.quit
    ensures Handle(v, s, Quit).quit
    ensures |Run(v, s, [[Quit]] + later).frames| == 1
  {
    assert ([[Quit]] + later)[0] == [Quit];
  }
}
