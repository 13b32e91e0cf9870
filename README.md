# Adafruit_GFX display and text state

A model of the part of the `Adafruit_GFX` drawing superclass that its header
defines inline. It covers the object's display and text state (raw and rotated
dimensions, text cursor, text colours, text sizes, rotation, wrap flag, CP437
flag, font pointer) and the inline members that read or assign that state. It
also covers the `print`/`println` loops that feed a NUL-terminated string to
the virtual `write`, and the `swap` helper the rasterisers use.

- `ctypes.dfy` (module `CTypes`): the fixed-width integer types of the header.
  It also defines C strings as `print` reads them: `Strlen` and `CString`, the
  bytes before the terminator.
- `adafruit_gfx.dfy` (module `GfxCore`): `Swap` and the class `AdafruitGfx`.
  The class has one field per data member of the C++ class. A ghost log
  `output` records every byte given to `Write`. `Valid()` is the object
  invariant: the rotation is 0..3, and the rotated width and height are the raw
  ones, swapped for rotations 1 and 3. `State()` collects every field into a
  `Fields` value, so each setter can state its whole new state as the old state
  with only the assigned fields replaced.

The field comments at Adafruit_GFX.h:320-321 call `textcolor` the background colour and `textbgcolor` the text colour, while the setter documentation at Adafruit_GFX.h:220-232 says the opposite. The model follows the setters: `textColor` is the foreground and `textBgColor` the background.

The transparent background is not a separate flag. It is encoded as the
foreground colour equal to the background colour (`TransparentBackground`).

The C `char` of `print`'s argument is modelled as the byte it is converted to
when it is passed to `write(uint8_t)`. A string is a byte buffer that holds a
NUL terminator.

## Model

| member | source | states |
|---|---|---|
| `CTypes.Strlen` | Adafruit_GFX.h:60 | `strlen` returns the index of the first NUL byte: that byte is NUL and no byte before it is |
| `CTypes.StrlenUnique` | Adafruit_GFX.h:60 | any index that holds a NUL with no NUL before it is the length `strlen` returns |
| `CTypes.CString` | Adafruit_GFX.h:60-61 | the bytes `print` emits contain no NUL, and followed by a NUL they are a prefix of the buffer |
| `CTypes.CStringOfTerminated` | Adafruit_GFX.h:60-61 | a buffer holding `t`, a NUL and anything after it prints exactly `t` |
| `CTypes.CStringAppend` | Adafruit_GFX.h:59-62 | printing NUL-free bytes `t` followed by a string `s` emits `t` followed by what printing `s` emits |
| `GfxCore.Swap` | Adafruit_GFX.h:27-32 | afterwards the first holds the old second value and the second holds the old first value |
| `GfxCore.AdafruitGfx.Width` | Adafruit_GFX.h:274 | under the object invariant, the width is the raw width for rotations 0 and 2 and the raw height for rotations 1 and 3 |
| `GfxCore.AdafruitGfx.Height` | Adafruit_GFX.h:282 | under the object invariant, the height is the raw height for rotations 0 and 2 and the raw width for rotations 1 and 3 |
| `GfxCore.AdafruitGfx.GetRotation` | Adafruit_GFX.h:287-290 | under the object invariant, the rotation is 0 through 3 |
| `GfxCore.AdafruitGfx.GetCursorX` | Adafruit_GFX.h:300 | returns the x component of the object's state; after `SetCursor(x, y)` it is `x` |
| `GfxCore.AdafruitGfx.GetCursorY` | Adafruit_GFX.h:308 | returns the y component of the object's state; after `SetCursor(x, y)` it is `y` |
| `GfxCore.AdafruitGfx.SetCursor` | Adafruit_GFX.h:213-216 | sets the cursor to `(x, y)`, so `GetCursorX`/`GetCursorY` (lines 300, 308) return `x` and `y`; every other field, including the raw dimensions, is unchanged; the invariant holds |
| `GfxCore.AdafruitGfx.SetTextColor` | Adafruit_GFX.h:222-226 | foreground and background both become `c`, so the background is transparent; nothing else changes |
| `GfxCore.AdafruitGfx.SetTextColorWithBackground` | Adafruit_GFX.h:235-238 | foreground becomes `c` and background `bg`; the background is transparent exactly when `c == bg`; nothing else changes |
| `GfxCore.AdafruitGfx.SetTextWrap` | Adafruit_GFX.h:247 | only the wrap flag changes, to `w` |
| `GfxCore.AdafruitGfx.Cp437` | Adafruit_GFX.h:263 | only the CP437 flag changes, to `x`, which is `true` when omitted |
| `GfxCore.AdafruitGfx.Write` | Adafruit_GFX.h:266 | the byte is appended to the output; the raw dimensions are unchanged and the object invariant is kept |
| `GfxCore.AdafruitGfx.Print` | Adafruit_GFX.h:59-62 | `write` is called once per byte before the terminator, in order: the output grows by exactly the string's bytes; the raw dimensions are unchanged and the invariant holds |
| `GfxCore.AdafruitGfx.Println` | Adafruit_GFX.h:63-66 | the output grows by the string's bytes followed by one `'\n'`; the raw dimensions are unchanged |

## Left out

- The constructor, `setRotation`, `setTextSize` and `setFont` are declared but have no body in `Adafruit_GFX.h`. The class has no constructor. No setter changes the rotation, the dimensions, the text sizes or the font pointer, and `Write`, `Print` and `Println` keep the raw dimensions and the invariant linking rotation and rotated dimensions; beyond that they promise nothing about the other fields (see `Write` below).
- `GfxCore.AdafruitGfx.Write`: the real `write` renders a glyph and advances the cursor, and its body is not in `Adafruit_GFX.h`. The model only records the byte and keeps the object invariant. Its contract promises nothing about other fields, so `Print` and `Println` promise nothing about them either. Its `size_t` result is not modelled, because `print` ignores it.
- `GfxCore.AdafruitGfx.Print`: requires the string to be at most `INT_MAX` bytes long. The loop counter is a signed 32-bit `int`, so a longer string would overflow it. `int` is assumed to be 32 bits wide.
- All drawing primitives (lines, circles, triangles, rounded rectangles, bitmaps, `drawChar`, `getTextBounds`, `charBounds`) and `GFXcanvas1` are declared only. Their algorithms are not part of this model.
- `drawPixel`, `startWrite`/`endWrite` and `invertDisplay` are hardware hooks implemented by concrete displays, so they are left out.
- The `USE_IOABSTRACTION_TCMENU` variant inherits `print` from an external `Print` class. It is left out, and so are `Adafruit_GFX_Config.h` and `gfxfont.h`.
- The `_BV`, `BLACK` and `WHITE` macros are constants with no behaviour, so they are left out.
- The font pointer is modelled as its value only (`NullFont` or an address). The font it points to is never read by the inline members.
