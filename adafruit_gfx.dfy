/** The display and text state of the `Adafruit_GFX` drawing superclass and
    the members its header defines inline: the cursor, colour, wrap and
    CP437 setters, the geometry and cursor getters, `print`/`println`, and
    the `swap` helper the rasterisers use. */
module GfxCore {
  import opened CTypes

  /** Exchange two 16-bit coordinates through a temporary. The two C++
      references become an in-value and an out-value each. */
  method Swap(a: int16, b: int16) returns (a': int16, b': int16)
    ensures a' == b && b' == a
  {
    var t := a;
    a' := b;
    b' := t;
  }

  /** The value of the font pointer: null selects the built-in 5x7 font.
      The font it points to is borrowed and never read here. */
  datatype FontPtr = NullFont | FontAt(address: nat)

  /** Every field of an `Adafruit_GFX` object at one moment. */
  datatype Fields = Fields(
    rawWidth: int16, rawHeight: int16,
    width: int16, height: int16,
    cursorX: int16, cursorY: int16,
    textColor: uint16, textBgColor: uint16,
    textSizeX: uint8, textSizeY: uint8,
    rotation: uint8,
    wrap: bool,
    cp437: bool,
    gfxFont: FontPtr)

  class AdafruitGfx {
    /** Raw panel dimensions; never change. */
    var rawWidth: int16
    var rawHeight: int16
    /** Dimensions as seen through the current rotation. */
    var width: int16
    var height: int16
    /** Where the next character is printed. */
    var cursorX: int16
    var cursorY: int16
    /** Foreground and background text colours (16-bit 5-6-5). Equal
        colours mean "transparent background". */
    var textColor: uint16
    var textBgColor: uint16
    var textSizeX: uint8
    var textSizeY: uint8
    /** One of the four cardinal rotations, 0 to 3. */
    var rotation: uint8
    var wrap: bool
    var cp437: bool
    var gfxFont: FontPtr

    /** Every byte handed to `Write`, in order. */
    ghost var output: seq<uint8>

    /** The object invariant: the rotation is a cardinal one and the rotated
        dimensions are the raw ones, swapped for the two odd rotations. */
    ghost predicate Valid()
      reads this
    {
      rotation <= 3 &&
      (rotation % 2 == 0 ==> width == rawWidth && height == rawHeight) &&
      (rotation % 2 == 1 ==> width == rawHeight && height == rawWidth)
    }

    ghost function State(): Fields
      reads this
    {
      Fields(rawWidth, rawHeight, width, height, cursorX, cursorY,
             textColor, textBgColor, textSizeX, textSizeY,
             rotation, wrap, cp437, gfxFont)
    }

    /** Text is drawn without painting a background. */
    predicate TransparentBackground()
      reads this
    {
      textColor == textBgColor
    }

    /** `width()`: the width in the current rotation. */
    function Width(): (w: int16)
      reads this
      ensures Valid() ==> w == if rotation % 2 == 0 then rawWidth else rawHeight
    {
      width
    }

    /** `height()`: the height in the current rotation. */
    function Height(): (h: int16)
      reads this
      ensures Valid() ==> h == if rotation % 2 == 0 then rawHeight else rawWidth
    {
      height
    }

    /** `getRotation()`: 0 through 3. */
    function GetRotation(): (r: uint8)
      reads this
      ensures Valid() ==> r <= 3
    {
      rotation
    }

    /** `getCursorX()`: the x component of the object's state. */
    function GetCursorX(): (x: int16)
      reads this
      ensures x == State().cursorX
    {
      cursorX
    }

    /** `getCursorY()`: the y component of the object's state. */
    function GetCursorY(): (y: int16)
      reads this
      ensures y == State().cursorY
    {
      cursorY
    }

    method SetCursor(x: int16, y: int16)
      requires Valid()
      modifies this`cursorX, this`cursorY
      ensures Valid()
      ensures GetCursorX() == x && GetCursorY() == y
      ensures State() == old(State()).(cursorX := x, cursorY := y)
    {
      cursorX := x;
      cursorY := y;
    }

    /** One-argument `setTextColor`: transparent background. */
    method SetTextColor(c: uint16)
      requires Valid()
      modifies this`textColor, this`textBgColor
      ensures Valid()
      ensures textColor == c && TransparentBackground()
      ensures State() == old(State()).(textColor := c, textBgColor := c)
    {
      textBgColor := c;
      textColor := textBgColor;
    }

    /** Two-argument `setTextColor`: the background is opaque unless it
        equals the foreground. */
    method SetTextColorWithBackground(c: uint16, bg: uint16)
      requires Valid()
      modifies this`textColor, this`textBgColor
      ensures Valid()
      ensures textColor == c && textBgColor == bg
      ensures TransparentBackground() <==> c == bg
      ensures State() == old(State()).(textColor := c, textBgColor := bg)
    {
      textColor := c;
      textBgColor := bg;
    }

    method SetTextWrap(w: bool)
      requires Valid()
      modifies this`wrap
      ensures Valid()
      ensures State() == old(State()).(wrap := w)
    {
      wrap := w;
    }

    /** `cp437(x = true)`: select the corrected code page 437 glyph indices
        (true) or the historical shifted ones (false). */
    method Cp437(x: bool := true)
      requires Valid()
      modifies this`cp437
      ensures Valid()
      ensures State() == old(State()).(cp437 := x)
    {
      cp437 := x;
    }

    /** The virtual `write(uint8_t)`: its body belongs to the glyph
        renderer, so all that is known is that the byte is emitted, the
        raw dimensions (which never change) are kept and the object
        invariant holds afterwards. */
    method Write(c: uint8)
      requires Valid()
      modifies this
      ensures Valid()
      ensures rawWidth == old(rawWidth) && rawHeight == old(rawHeight)
      ensures output == old(output) + [c]
    {
      output := output + [c];
    }

    /** `print(sz)`: write each byte before the terminator, in order. The
        counter is a 32-bit `int`, so the string may not be longer than
        `INT_MAX`. */
    method Print(sz: seq<uint8>)
      requires Valid()
      requires 0 in sz && Strlen(sz) <= INT_MAX
      modifies this
      ensures Valid()
      ensures rawWidth == old(rawWidth) && rawHeight == old(rawHeight)
      ensures output == old(output) + CString(sz)
    {
      var len := Strlen(sz);
      var i: int32 := 0;
      while (i as int) < len
        invariant Valid()
        invariant rawWidth == old(rawWidth) && rawHeight == old(rawHeight)
        invariant 0 <= i as int <= len
        invariant output == old(output) + sz[..i]
      {
        Write(sz[i]);
        assert sz[..i + 1] == sz[..i] + [sz[i]];
        i := i + 1;
      }
    }

    /** `println(sz)`: `print(sz)` followed by one newline byte. */
    method Println(sz: seq<uint8>)
      requires Valid()
      requires 0 in sz && Strlen(sz) <= INT_MAX
      modifies this
      ensures Valid()
      ensures rawWidth == old(rawWidth) && rawHeight == old(rawHeight)
      ensures output == old(output) + CString(sz) + [NEWLINE]
    {
      Print(sz);
      Write(NEWLINE);
    }
  }
}
