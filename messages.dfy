/**
 * The status messages the text and mouse demos render for an event, and a
 * reader that recovers the event from the mouse demo's message.
 */
module Messages {
  import opened Wrappers
  import opened Display
  import opened Decimal
  import opened Events

  const KeyDownPrefix: string := "SDL_KEYDOWN "
  const MousePrefix: string := "SDL_MOUSEBUTTONDOWN "

  function KeyName(k: Key): string {
    match k
    case ArrowLeft => "SDLK_LEFT"
    case ArrowRight => "SDLK_RIGHT"
    case ArrowUp => "SDLK_UP"
    case ArrowDown => "SDLK_DOWN"
    case KeyQ => "SDLK_q"
    case OtherKey => ""
  }

  function ButtonName(b: Button): string {
    match b
    case ButtonLeft => "LEFT"
    case ButtonMiddle => "MIDDLE"
    case ButtonRight => "RIGHT"
    case OtherButton => ""
  }

  /**
   * The text the mouse demo builds for an event: the event type, then the
   * key or button name, then for a button the pointer's pixel coordinates.
   * An unrecognised key leaves "SDL_KEYDOWN " with its trailing space, an
   * unrecognised button an empty name, any other event type the empty text.
   */
  function EventText(e: Event): string {
    match e
    case Quit => "SDL_QUIT"
    case KeyDown(k) => KeyDownPrefix + KeyName(k)
    case MouseButtonDown(b, x, y) =>
      MousePrefix + ButtonName(b) + " x = " + NatToDecimal(x) + " y = " + NatToDecimal(y)
    case OtherEvent => ""
  }

  /** The fixed message the text demo renders, for the six events it recognises. */
  function FixedMessage(e: Event): Option<string> {
    match e
    case Quit => Some("SDL_QUIT")
    case KeyDown(ArrowLeft) => Some("SDL_KEYDOWN SDLK_LEFT")
    case KeyDown(ArrowRight) => Some("SDL_KEYDOWN SDLK_RIGHT")
    case KeyDown(ArrowUp) => Some("SDL_KEYDOWN SDLK_UP")
    case KeyDown(ArrowDown) => Some("SDL_KEYDOWN SDLK_DOWN")
    case KeyDown(KeyQ) => Some("SDL_KEYDOWN SDLK_q")
    case _ => None
  }

  /** The six recognised events: window close and the five keys. */
  predicate Recognised(e: Event) {
    e == Quit || (e.KeyDown? && e.key != OtherKey)
  }

  /**
   * The text demo has a message exactly for the recognised events, and it is
   * the text the mouse demo later builds for the same event.
   */
  lemma FixedMessagesAgree(e: Event)
    ensures FixedMessage(e).Some? <==> Recognised(e)
    ensures FixedMessage(e).Some? ==> FixedMessage(e).value == EventText(e)
  {
  }

  /** A left-arrow key-down, an unrecognised key, and a left click at pixel (120, 80), as the mouse demo reports them. */
  lemma ExampleTexts()
    ensures EventText(KeyDown(ArrowLeft)) == "SDL_KEYDOWN SDLK_LEFT"
    ensures EventText(KeyDown(OtherKey)) == "SDL_KEYDOWN "
    ensures EventText(MouseButtonDown(ButtonLeft, 120, 80)) == "SDL_MOUSEBUTTONDOWN LEFT x = 120 y = 80"
  {
    ExampleNumbers();
  }

  lemma ExampleNumbers()
    ensures NatToDecimal(120) == "120" && NatToDecimal(80) == "80"
  {
    assert NatToDecimal(12) == "12";
    assert NatToDecimal(8) == "8";
  }

  // ---- Reading a message back ----

  function StripPrefix(p: string, t: string): (r: Option<string>)
    ensures r.Some? ==> t == p + r.value
  {
    if |p| <= |t| && t[..|p|] == p then Some(t[|p|..]) else None
  }

  lemma StripPrefixOfConcat(p: string, r: string)
    ensures StripPrefix(p, p + r) == Some(r)
  {
    assert (p + r)[..|p|] == p;
    assert (p + r)[|p|..] == r;
  }

  lemma StripPrefixMismatch(p: string, t: string, i: nat)
    requires i < |p| && i < |t| && p[i] != t[i]
    ensures StripPrefix(p, t) == None
  {
    if |p| <= |t| {
      assert t[..|p|][i] != p[i];
    }
  }

  function ParseKeyName(n: string): Option<Key> {
    if n == "" then Some(OtherKey)
    else if n == "SDLK_LEFT" then Some(ArrowLeft)
    else if n == "SDLK_RIGHT" then Some(ArrowRight)
    else if n == "SDLK_UP" then Some(ArrowUp)
    else if n == "SDLK_DOWN" then Some(ArrowDown)
    else if n == "SDLK_q" then Some(KeyQ)
    else None
  }

  /** Splits a button name and the " x = " after it from the front of r. */
  function ParseButtonName(r: string): Option<(Button, string)> {
    match StripPrefix("LEFT x = ", r)
    case Some(rest) => Some((ButtonLeft, rest))
    case None =>
      match StripPrefix("MIDDLE x = ", r)
      case Some(rest) => Some((ButtonMiddle, rest))
      case None =>
        match StripPrefix("RIGHT x = ", r)
        case Some(rest) => Some((ButtonRight, rest))
        case None =>
          match StripPrefix(" x = ", r)
          case Some(rest) => Some((OtherButton, rest))
          case None => None
  }

  /** The index of the first space in s, or |s| when there is none. */
  function FirstSpace(s: string): (i: nat)
    ensures i <= |s|
  {
    if s == [] || s[0] == ' ' then 0 else 1 + FirstSpace(s[1..])
  }

  lemma {:induction false} FirstSpaceAfter(a: string, b: string)
    requires ' ' !in a && b != [] && b[0] == ' '
    ensures FirstSpace(a + b) == |a|
    decreases |a|
  {
    if a == [] {
      assert a + b == b;
    } else {
      assert a[0] in a;
      assert (a + b)[1..] == a[1..] + b;
      assert forall c :: c in a[1..] ==> c in a;
      FirstSpaceAfter(a[1..], b);
    }
  }

  function ParseNumber(s: string): Option<u16> {
    if s != [] && AllDigits(s) && DecimalValue(s) < 0x1_0000 then Some(DecimalValue(s)) else None
  }

  /** Reads "X y = Y" into the pair of pointer coordinates. */
  function ParseCoordinates(s: string): Option<(u16, u16)> {
    var i := FirstSpace(s);
    match (ParseNumber(s[..i]), StripPrefix(" y = ", s[i..]))
    case (Some(x), Some(rest)) =>
      (match ParseNumber(rest) case Some(y) => Some((x, y)) case None => None)
    case _ => None
  }

  function ParseMouseText(r: string): Option<Event> {
    match ParseButtonName(r)
    case Some((b, rest)) =>
      (match ParseCoordinates(rest) case Some((x, y)) => Some(MouseButtonDown(b, x, y)) case None => None)
    case None => None
  }

  /** The event a mouse demo message describes, if it is one the demo can produce. */
  function ParseEventText(t: string): Option<Event> {
    match StripPrefix(MousePrefix, t)
    case Some(r) => ParseMouseText(r)
    case None =>
      match StripPrefix(KeyDownPrefix, t)
      case Some(n) => (match ParseKeyName(n) case Some(k) => Some(KeyDown(k)) case None => None)
      case None => if t == "SDL_QUIT" then Some(Quit) else if t == "" then Some(OtherEvent) else None
  }

  lemma NumberRoundTrip(n: u16)
    ensures ParseNumber(NatToDecimal(n)) == Some(n)
  {
    DecimalRoundTrip(n);
  }

  lemma CoordinatesRoundTrip(x: u16, y: u16)
    ensures ParseCoordinates(NatToDecimal(x) + " y = " + NatToDecimal(y)) == Some((x, y))
  {
    var dx, dy := NatToDecimal(x), NatToDecimal(y);
    var s := dx + " y = " + dy;
    assert s == dx + (" y = " + dy);
    FirstSpaceAfter(dx, " y = " + dy);
    assert s[..|dx|] == dx;
    assert s[|dx|..] == " y = " + dy;
    StripPrefixOfConcat(" y = ", dy);
    NumberRoundTrip(x);
    NumberRoundTrip(y);
  }

  lemma ButtonNameRoundTrip(b: Button, rest: string)
    ensures ParseButtonName(ButtonName(b) + " x = " + rest) == Some((b, rest))
  {
    var r := ButtonName(b) + " x = " + rest;
    assert r == (ButtonName(b) + " x = ") + rest;
    StripPrefixOfConcat(ButtonName(b) + " x = ", rest);
    match b
    case ButtonLeft =>
    case ButtonMiddle =>
      StripPrefixMismatch("LEFT x = ", r, 0);
    case ButtonRight =>
      StripPrefixMismatch("LEFT x = ", r, 0);
      StripPrefixMismatch("MIDDLE x = ", r, 0);
    case OtherButton =>
      StripPrefixMismatch("LEFT x = ", r, 0);
      StripPrefixMismatch("MIDDLE x = ", r, 0);
      StripPrefixMismatch("RIGHT x = ", r, 0);
  }

  /**
   * The mouse demo's message determines the event: reading it back gives the
   * event it was built for, so no two events share a message.
   */
  lemma KeyTextRoundTrip(k: Key)
    ensures ParseEventText(EventText(KeyDown(k))) == Some(KeyDown(k))
  {
    StripPrefixMismatch(MousePrefix, EventText(KeyDown(k)), 4);
    StripPrefixOfConcat(KeyDownPrefix, KeyName(k));
  }

  lemma MouseTextRoundTrip(b: Button, x: u16, y: u16)
    ensures ParseEventText(EventText(MouseButtonDown(b, x, y))) == Some(MouseButtonDown(b, x, y))
  {
    var r := ButtonName(b) + " x = " + (NatToDecimal(x) + " y = " + NatToDecimal(y));
    MouseTextShape(b, x, y);
    StripPrefixOfConcat(MousePrefix, r);
    ClickRoundTrip(b, x, y);
  }

  lemma MouseTextShape(b: Button, x: u16, y: u16)
    ensures EventText(MouseButtonDown(b, x, y)) ==
      MousePrefix + (ButtonName(b) + " x = " + (NatToDecimal(x) + " y = " + NatToDecimal(y)))
  {
  }

  lemma ClickRoundTrip(b: Button, x: u16, y: u16)
    ensures ParseMouseText(ButtonName(b) + " x = " + (NatToDecimal(x) + " y = " + NatToDecimal(y))) ==
      Some(MouseButtonDown(b, x, y))
  {
    ButtonNameRoundTrip(b, NatToDecimal(x) + " y = " + NatToDecimal(y));
    CoordinatesRoundTrip(x, y);
  }

  /** Every message the mouse demo builds reads back as the event it describes. */
  lemma ParseEventTextRoundTrip(e: Event)
    ensures ParseEventText(EventText(e)) == Some(e)
  {
    match e
    case Quit =>
    case OtherEvent =>
    case KeyDown(k) => KeyTextRoundTrip(k);
    case MouseButtonDown(b, x, y) => MouseTextRoundTrip(b, x, y);
  }

  lemma EventTextInjective(e1: Event, e2: Event)
    ensures EventText(e1) == EventText(e2) ==> e1 == e2
  {
    ParseEventTextRoundTrip(e1);
    ParseEventTextRoundTrip(e2);
  }
}
