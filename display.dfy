/**
 * Screen geometry, C integer widths and the draw records a frame is made of.
 * The three demos define the same preprocessor constants; they are declared
 * here once.
 */
module Display {

  const ScreenWidth: nat := 640
  const ScreenHeight: nat := 480
  const TileWidth: nat := 94
  const TileHeight: nat := 94
  /** C integer division: 640 / 94 leaves six whole columns. */
  const TilesWidthCount: nat := ScreenWidth / TileWidth
  /** 480 / 94 leaves five whole rows. */
  const TilesHeightCount: nat := ScreenHeight / TileHeight
  const TilesCount: nat := TilesWidthCount * TilesHeightCount

  /** C `unsigned int`, the type of every tile coordinate. */
  type u32 = x: int | 0 <= x < 0x1_0000_0000
  /** SDL's `Uint16`, the type of a mouse event's pointer coordinates. */
  type u16 = x: int | 0 <= x < 0x1_0000

  /** The value an integer takes once stored in a signed 16-bit field (wrapping modulo 2^16). */
  function ToSint16(v: int): (r: int)
    ensures -0x8000 <= r < 0x8000
    ensures (v - r) % 0x1_0000 == 0
    ensures 0 <= v < 0x8000 ==> r == v
  {
    var m := v % 0x1_0000;
    if m < 0x8000 then m else m - 0x1_0000
  }

  /**
   * The pixel offset `coord * size` as a tile computes it: an `unsigned int`
   * product (wrapping modulo 2^32) stored in the `Sint16` field of an SDL_Rect.
   */
  function PixelOffset(coord: nat, size: nat): (r: int)
    ensures -0x8000 <= r < 0x8000
    ensures coord * size < 0x8000 ==> r == coord * size
  {
    ToSint16((coord * size) % 0x1_0000_0000)
  }

  /** The decoded images the demos load; each stands for one image file. */
  datatype Image =
    | Aqua        // aqua.jpg
    | Lawn        // lawn.jpg
    | MarbleDark  // marble_dark.jpg
    | WallGrey    // wall-grey.jpg
    | Wood        // wood.jpg
    | PlayerSprite // player.png

  /** The origin of a destination rectangle (the `x` and `y` fields of SDL_Rect). */
  datatype Rect = Rect(x: int, y: int)

  /** One blit onto the screen surface; a frame is the sequence of them, back to front. */
  datatype Draw =
    | BlitImage(image: Image, at: Rect)
    | BlitText(text: string)
}
