/**
 * Input events as the demos distinguish them. SDL delivers an event type and,
 * for key and button events, a key symbol or button number; every key symbol
 * other than the five the demos test behaves alike, and so does every other
 * button and every other event type.
 */
module Events {
  import opened Wrappers
  import opened Display
  import opened Grid

  datatype Key = ArrowLeft | ArrowRight | ArrowUp | ArrowDown | KeyQ | OtherKey

  datatype Button = ButtonLeft | ButtonMiddle | ButtonRight | OtherButton

  datatype Event =
    | Quit                                            // SDL_QUIT: the window was closed
    | KeyDown(key: Key)                               // SDL_KEYDOWN
    | MouseButtonDown(button: Button, x: u16, y: u16) // SDL_MOUSEBUTTONDOWN at pixel (x, y)
    | OtherEvent                                      // any other event type, SDL_KEYUP included

  /** The events that end the demos: closing the window, or pressing `q`. */
  predicate Quits(e: Event) {
    e == Quit || e == KeyDown(KeyQ)
  }

  /** The move an event asks for: only the four arrow keys ask for one. */
  function Arrow(e: Event): Option<Direction> {
    match e
    case KeyDown(ArrowLeft) => Some(Left)
    case KeyDown(ArrowRight) => Some(Right)
    case KeyDown(ArrowUp) => Some(Up)
    case KeyDown(ArrowDown) => Some(Down)
    case _ => None
  }

  /** The moves a sequence of events asks for, in order. */
  function Arrows(es: seq<Event>): (ds: seq<Direction>)
    ensures |ds| <= |es|
  {
    if es == [] then []
    else (match Arrow(es[0]) case Some(d) => [d] case None => []) + Arrows(es[1..])
  }

  /** The key-down event for an arrow key. */
  function KeyPress(d: Direction): (e: Event)
    ensures Arrow(e) == Some(d) && !Quits(e)
  {
    match d
    case Left => KeyDown(ArrowLeft)
    case Right => KeyDown(ArrowRight)
    case Up => KeyDown(ArrowUp)
    case Down => KeyDown(ArrowDown)
  }

  function KeyPresses(ds: seq<Direction>): (es: seq<Event>)
    ensures |es| == |ds| && forall i :: 0 <= i < |ds| ==> es[i] == KeyPress(ds[i])
  {
    if ds == [] then [] else [KeyPress(ds[0])] + KeyPresses(ds[1..])
  }

  /** Pressing the arrow keys for a sequence of moves asks for exactly those moves. */
  lemma {:induction false} ArrowsOfKeyPresses(ds: seq<Direction>)
    ensures Arrows(KeyPresses(ds)) == ds
    decreases |ds|
  {
    if ds != [] {
      assert KeyPresses(ds)[1..] == KeyPresses(ds[1..]);
      ArrowsOfKeyPresses(ds[1..]);
    }
  }
}
