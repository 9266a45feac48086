// The wire-byte table of the Matrix Orbital LK204-7T-1U command set
// (MatrixOrbitalCommands.java). Java's `byte` is signed; every constant here is
// the unsigned value of the same bit pattern, which is what travels on the wire.
module Commands {

  /** One byte on the wire, read as unsigned. */
  newtype Byte = x: int | 0 <= x < 256

  /** Java's narrowing cast `(byte)x`, read back as an unsigned wire byte:
      only the low eight bits of `x` survive. */
  function ToByte(x: int): (b: Byte)
    ensures (b as int - x) % 256 == 0
    ensures 0 <= x < 256 ==> b as int == x
  {
    (x % 256) as Byte
  }

  // Every command starts with this byte, which tells the device not to print
  // what follows as text.
  const START_BYTE: Byte := 0xFE
  const WARM_RESET: Byte := 0xFD

  // Text
  const CLEAR_SCREEN: Byte := 0x58
  const RESET_CURSOR: Byte := 0x48
  const SET_CURSOR: Byte := 0x47

  // Serial control: baud rate
  const SET_BAUD_RATE: Byte := 0x39
  const BAUD_9600: Byte := 0xCF
  const BAUD_14400: Byte := 0x8A
  const BAUD_19200: Byte := 0x67   // the device default
  const BAUD_28800: Byte := 0x44
  const BAUD_38400: Byte := 0x33
  const BAUD_57600: Byte := 0x22
  const BAUD_76800: Byte := 0x19
  const BAUD_115200: Byte := 0x10

  // Serial control: flow control, with the two buffer thresholds it is turned on with
  const FLOW_CONTROL_ON: Byte := 0x3A
  const FLOW_CONTROL_OFF: Byte := 0x3B
  const FLOW_CONTROL_FULL: Byte := 0x20    // report "almost full" when 32 bytes are left
  const FLOW_CONTROL_EMPTY: Byte := 0x78   // report "almost empty" when 120 bytes are left

  // File-system data lock
  const SAVE_DATA_LOCK: Byte := 0xCB
  const SET_DATA_LOCK: Byte := 0xF5
  const LOCK_RESERVED0: Byte := 0x00
  const LOCK_RESERVED1: Byte := 0x01
  const LOCK_RESERVED2: Byte := 0x02
  const LOCK_SPEED: Byte := 0x03
  const LOCK_SETTINGS: Byte := 0x04
  const LOCK_FILESYSTEM: Byte := 0x05
  const LOCK_COMMAND: Byte := 0x06
  const LOCK_DISPLAY: Byte := 0x07

  // General-purpose outputs: two outputs drive each tri-colour LED
  const GP_OUTPUT_PWR_OFF: Byte := 0x56
  const GP_OUTPUT_PWR_ON: Byte := 0x57
  const GP_OUTPUT_ONE: Byte := 0x01
  const GP_OUTPUT_TWO: Byte := 0x02
  const GP_OUTPUT_THREE: Byte := 0x03
  const GP_OUTPUT_FOUR: Byte := 0x04
  const GP_OUTPUT_FIVE: Byte := 0x05
  const GP_OUTPUT_SIX: Byte := 0x06

  // Backlight brightness and contrast
  const SAVE_BACKLIGHT_BRIGHTNESS: Byte := 0x98
  const SET_BACKLIGHT_BRIGHTNESS: Byte := 0x99
  const BACKLIGHT_OFF: Byte := 0x00
  const BACKLIGHT_LOW: Byte := 0x55
  const BACKLIGHT_MEDIUM: Byte := 0xAA
  const BACKLIGHT_HIGH: Byte := 0xFF
  const SAVE_BACKLIGHT_CONTRAST: Byte := 0x91
  const SET_BACKLIGHT_CONTRAST: Byte := 0x50

  // Drawing
  const SET_DRAWING_COLOR: Byte := 0x63
  const DRAW_PIXEL: Byte := 0x70
  const DRAW_LINE: Byte := 0x6C
  const DRAW_RECTANGLE: Byte := 0x72
  const DRAW_SOLID_RECTANGLE: Byte := 0x78

  // Bytes the keypad sends back when a button is pressed
  const KEYPAD_UP_ARROW: Byte := 0x42
  const KEYPAD_DOWN_ARROW: Byte := 0x48
  const KEYPAD_LEFT_ARROW: Byte := 0x44
  const KEYPAD_RIGHT_ARROW: Byte := 0x43
  const KEYPAD_CENTER_BUTTON: Byte := 0x45
  const KEYPAD_TOPLEFT_BUTTON: Byte := 0x41
  const KEYPAD_BOTTOMLEFT_BUTTON: Byte := 0x47

  /** The eight rate codes, slowest first. */
  const BAUD_CODES: seq<Byte> :=
    [BAUD_9600, BAUD_14400, BAUD_19200, BAUD_28800, BAUD_38400, BAUD_57600, BAUD_76800, BAUD_115200]

  /** The rate in bits per second that each entry of BAUD_CODES selects. */
  const BAUD_RATES: seq<int> := [9600, 14400, 19200, 28800, 38400, 57600, 76800, 115200]

  /** The seven keypad codes. */
  const KEYPAD_CODES: seq<Byte> :=
    [KEYPAD_UP_ARROW, KEYPAD_DOWN_ARROW, KEYPAD_LEFT_ARROW, KEYPAD_RIGHT_ARROW,
     KEYPAD_CENTER_BUTTON, KEYPAD_TOPLEFT_BUTTON, KEYPAD_BOTTOMLEFT_BUTTON]

  /** The six general-purpose output numbers, in order. */
  const GP_OUTPUTS: seq<Byte> :=
    [GP_OUTPUT_ONE, GP_OUTPUT_TWO, GP_OUTPUT_THREE, GP_OUTPUT_FOUR, GP_OUTPUT_FIVE, GP_OUTPUT_SIX]

  /** The four named backlight levels, dimmest first. */
  const BACKLIGHT_LEVELS: seq<Byte> := [BACKLIGHT_OFF, BACKLIGHT_LOW, BACKLIGHT_MEDIUM, BACKLIGHT_HIGH]

  predicate Distinct<T(==)>(s: seq<T>) {
    forall i, j :: 0 <= i < j < |s| ==> s[i] != s[j]
  }

  /** The baud codes tell the eight rates apart, and 0x67 is the default 19200. */
  lemma BaudCodesDistinct()
    ensures |BAUD_CODES| == |BAUD_RATES| == 8
    ensures Distinct(BAUD_CODES) && Distinct(BAUD_RATES)
    ensures BAUD_19200 == 0x67 && BAUD_RATES[2] == 19200 && BAUD_CODES[2] == BAUD_19200
  {
  }

  /** The keypad codes are pairwise distinct and none of them is a flow-control
      signal (0xFE "almost full", 0xFF "almost empty"). */
  lemma KeypadCodesDistinct()
    ensures |KEYPAD_CODES| == 7 && Distinct(KEYPAD_CODES)
    ensures 0xFE !in KEYPAD_CODES && 0xFF !in KEYPAD_CODES
  {
  }

  /** The two output levels differ, and the outputs are numbered 1 to 6. */
  lemma GpOutputTable()
    ensures GP_OUTPUT_PWR_OFF != GP_OUTPUT_PWR_ON
    ensures forall i :: 0 <= i < |GP_OUTPUTS| ==> GP_OUTPUTS[i] as int == i + 1
  {
  }

  /** Flow control asks to stop with fewer bytes left in the display's buffer
      than when it asks to resume. */
  lemma FlowThresholdsOrdered()
    ensures FLOW_CONTROL_FULL as int == 32 && FLOW_CONTROL_EMPTY as int == 120
    ensures FLOW_CONTROL_FULL < FLOW_CONTROL_EMPTY
  {
  }

  /** The backlight levels rise strictly, as unsigned bytes. */
  lemma BacklightLevelsRise()
    ensures forall i, j :: 0 <= i < j < |BACKLIGHT_LEVELS| ==> BACKLIGHT_LEVELS[i] < BACKLIGHT_LEVELS[j]
  {
  }
}
