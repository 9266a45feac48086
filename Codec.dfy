// The fixed-layout command frames of MatrixOrbitalApi.java: serial control,
// display control, cursor and drawing primitives, and the baud-code lookup that
// `connect` performs. The variable-length row text frame is in RowText.dfy and
// the LED frame in Leds.dfy.
module Codec {
  import opened Commands
  import opened Specifications
  import opened Types

  /** One call of a fixed-layout encoder, with its arguments. */
  datatype Command =
    | WarmReset
    | FlowControlOn
    | FlowControlOff
    | LockFilesystem
    | SetBaudRate(rate: Byte)
    | ClearScreen
    | MoveCursorHome
    | SetBacklightBrightness(level: BrightnessLevel)
    | SetDrawingColor(color: DrawingColor)
    | DrawPixel(x: int, y: int)
    | DrawLine(xa: int, ya: int, xb: int, yb: int)
    | DrawRectangle(color: DrawingColor, xa: int, ya: int, xb: int, yb: int)
    | DrawSolidRectangle(color: DrawingColor, xa: int, ya: int, xb: int, yb: int)

  /** Every coordinate of a drawing command lies on the screen; other commands
      have no coordinates and always pass. */
  predicate InBounds(c: Command) {
    match c
    case DrawPixel(x, y) => OnScreen(x, y)
    case DrawLine(xa, ya, xb, yb) => OnScreen(xa, ya) && OnScreen(xb, yb)
    case DrawRectangle(_, xa, ya, xb, yb) => OnScreen(xa, ya) && OnScreen(xb, yb)
    case DrawSolidRectangle(_, xa, ya, xb, yb) => OnScreen(xa, ya) && OnScreen(xb, yb)
    case _ => true
  }

  /** Zero draws white; any other value draws black, and the API sends 0xFE. */
  function ColorByte(color: DrawingColor): Byte {
    if color == White then 0x00 else 0xFE
  }

  function BacklightByte(level: BrightnessLevel): Byte {
    match level
    case Off => BACKLIGHT_OFF
    case Low => BACKLIGHT_LOW
    case Medium => BACKLIGHT_MEDIUM
    case High => BACKLIGHT_HIGH
  }

  /** The bytes one encoder call queues: its frame, or nothing at all when a
      drawing coordinate is off the screen. */
  function Encode(c: Command): (frame: seq<Byte>)
    ensures frame == [] <==> !InBounds(c)
    ensures frame != [] ==> frame[0] == START_BYTE && 2 <= |frame| <= 7
  {
    if !InBounds(c) then []
    else match c
      case WarmReset => [START_BYTE, WARM_RESET]
      case FlowControlOn => [START_BYTE, FLOW_CONTROL_ON, FLOW_CONTROL_FULL, FLOW_CONTROL_EMPTY]
      case FlowControlOff => [START_BYTE, FLOW_CONTROL_OFF]
      case LockFilesystem => [START_BYTE, SAVE_DATA_LOCK, SET_DATA_LOCK, LOCK_FILESYSTEM]
      case SetBaudRate(rate) => [START_BYTE, SET_BAUD_RATE, rate]
      case ClearScreen => [START_BYTE, CLEAR_SCREEN]
      case MoveCursorHome => [START_BYTE, RESET_CURSOR]
      case SetBacklightBrightness(level) => [START_BYTE, SET_BACKLIGHT_BRIGHTNESS, BacklightByte(level)]
      case SetDrawingColor(color) => [START_BYTE, SET_DRAWING_COLOR, ColorByte(color)]
      case DrawPixel(x, y) => [START_BYTE, DRAW_PIXEL, ToByte(x), ToByte(y)]
      case DrawLine(xa, ya, xb, yb) =>
        [START_BYTE, DRAW_LINE, ToByte(xa), ToByte(ya), ToByte(xb), ToByte(yb)]
      case DrawRectangle(color, xa, ya, xb, yb) =>
        [START_BYTE, DRAW_RECTANGLE, ColorByte(color), ToByte(xa), ToByte(ya), ToByte(xb), ToByte(yb)]
      case DrawSolidRectangle(color, xa, ya, xb, yb) =>
        [START_BYTE, DRAW_SOLID_RECTANGLE, ColorByte(color), ToByte(xa), ToByte(ya), ToByte(xb), ToByte(yb)]
  }

  /** `drawStylizedLine`: only the solid style draws; the dashed, long-dashed and
      dotted styles are declared but queue nothing. */
  function StylizedLine(style: DrawingStyle, lowerLeft: Point, upperRight: Point): (frame: seq<Byte>)
    ensures style != Solid ==> frame == []
    ensures style == Solid ==> frame == Encode(DrawLine(lowerLeft.x, lowerLeft.y, upperRight.x, upperRight.y))
  {
    if style == Solid then Encode(DrawLine(lowerLeft.x, lowerLeft.y, upperRight.x, upperRight.y)) else []
  }

  function LevelOfByte(b: Byte): Option<BrightnessLevel> {
    if b == BACKLIGHT_OFF then Some(BrightnessLevel.Off)
    else if b == BACKLIGHT_LOW then Some(Low)
    else if b == BACKLIGHT_MEDIUM then Some(Medium)
    else if b == BACKLIGHT_HIGH then Some(High)
    else None
  }

  function ColorOfByte(b: Byte): Option<DrawingColor> {
    if b == 0x00 then Some(White) else if b == 0xFE then Some(Black) else None
  }

  /** How the device reads one frame back into the command that produced it:
      a reference for what each encoder's bytes mean. */
  function Parse(f: seq<Byte>): Option<Command> {
    if |f| < 2 || f[0] != START_BYTE then None
    else if |f| == 2 then
      if f[1] == WARM_RESET then Some(WarmReset)
      else if f[1] == FLOW_CONTROL_OFF then Some(FlowControlOff)
      else if f[1] == CLEAR_SCREEN then Some(ClearScreen)
      else if f[1] == RESET_CURSOR then Some(MoveCursorHome)
      else None
    else if |f| == 3 then
      if f[1] == SET_BAUD_RATE then Some(SetBaudRate(f[2]))
      else if f[1] == SET_BACKLIGHT_BRIGHTNESS && LevelOfByte(f[2]).Some? then
        Some(SetBacklightBrightness(LevelOfByte(f[2]).value))
      else if f[1] == SET_DRAWING_COLOR && ColorOfByte(f[2]).Some? then
        Some(SetDrawingColor(ColorOfByte(f[2]).value))
      else None
    else if |f| == 4 then
      if f[1..] == [FLOW_CONTROL_ON, FLOW_CONTROL_FULL, FLOW_CONTROL_EMPTY] then Some(FlowControlOn)
      else if f[1..] == [SAVE_DATA_LOCK, SET_DATA_LOCK, LOCK_FILESYSTEM] then Some(LockFilesystem)
      else if f[1] == DRAW_PIXEL && OnScreen(f[2] as int, f[3] as int) then
        Some(DrawPixel(f[2] as int, f[3] as int))
      else None
    else if |f| == 6 then
      if f[1] == DRAW_LINE && OnScreen(f[2] as int, f[3] as int) && OnScreen(f[4] as int, f[5] as int) then
        Some(DrawLine(f[2] as int, f[3] as int, f[4] as int, f[5] as int))
      else None
    else if |f| == 7 then
      if ColorOfByte(f[2]).Some? && OnScreen(f[3] as int, f[4] as int) && OnScreen(f[5] as int, f[6] as int) then
        if f[1] == DRAW_RECTANGLE then
          Some(DrawRectangle(ColorOfByte(f[2]).value, f[3] as int, f[4] as int, f[5] as int, f[6] as int))
        else if f[1] == DRAW_SOLID_RECTANGLE then
          Some(DrawSolidRectangle(ColorOfByte(f[2]).value, f[3] as int, f[4] as int, f[5] as int, f[6] as int))
        else None
      else None
    else None
  }

  /** Every frame an encoder queues reads back as the call that queued it: the
      coordinate bytes lose nothing once the bounds check has passed, and no two
      encoder calls share a frame. */
  lemma ParseEncode(c: Command)
    requires InBounds(c)
    ensures Parse(Encode(c)) == Some(c)
  {
    match c
    case SetBacklightBrightness(level) =>
      assert LevelOfByte(BacklightByte(level)) == Some(level);
    case SetDrawingColor(color) =>
      assert ColorOfByte(ColorByte(color)) == Some(color);
    case DrawRectangle(color, _, _, _, _) =>
      assert ColorOfByte(ColorByte(color)) == Some(color);
    case DrawSolidRectangle(color, _, _, _, _) =>
      assert ColorOfByte(ColorByte(color)) == Some(color);
    case _ =>
  }

  /** Conversely, every frame the device reads as a command is exactly the frame
      that command's encoder queues. */
  lemma EncodeParse(f: seq<Byte>, c: Command)
    requires Parse(f) == Some(c)
    ensures InBounds(c) && Encode(c) == f
  {
    if |f| == 3 && f[1] == SET_BACKLIGHT_BRIGHTNESS {
      assert BacklightByte(LevelOfByte(f[2]).value) == f[2];
    }
    assert Encode(c) == f;
  }

  /** The rate `connect` configures the local serial port with for a rate code.
      BAUD_19200 is not in its switch: it, and every byte that is no rate code,
      leaves the default 19200. */
  function BaudRate(speed: Byte): (rate: int)
    ensures rate in BAUD_RATES
  {
    if speed == BAUD_9600 then 9600
    else if speed == BAUD_14400 then 14400
    else if speed == BAUD_28800 then 28800
    else if speed == BAUD_38400 then 38400
    else if speed == BAUD_57600 then 57600
    else if speed == BAUD_76800 then 76800
    else if speed == BAUD_115200 then 115200
    else 19200
  }

  /** The local port rate agrees with the rate code sent to the device for every
      code in the table, and only unknown codes fall back to the default. */
  lemma BaudRateMatchesTable(speed: Byte)
    ensures forall i :: 0 <= i < |BAUD_CODES| ==> BaudRate(BAUD_CODES[i]) == BAUD_RATES[i]
    ensures BaudRate(speed) == 19200 <==> speed == BAUD_19200 || speed !in BAUD_CODES
  {
  }
}
