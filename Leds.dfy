// The LED state table of MatrixOrbitalApi.java: colour, power and blink
// "frequency" of each of the three tri-colour LEDs, the general-purpose-output
// frame `updateLed` builds from one LED's state, and the effect of the three
// setters on the table and on the outbound queue.
module Leds {
  import opened Commands
  import opened Types

  /** One LED's stored settings. `freq` is compared against a millisecond
      counter by the blink step; 0 (or less) means steady. */
  datatype LedState = LedState(color: LedColor, power: LedPower, freq: int)

  /** The settings of LEDs one, two and three. */
  datatype LedTable = LedTable(one: LedState, two: LedState, three: LedState)

  /** A new table and the bytes queued on the way to it. */
  datatype Update = Update(table: LedTable, frames: seq<Byte>)

  /** Power-up settings: green, off, steady. */
  const INITIAL_TABLE := LedTable(LedState(Green, LedPower.Off, 0), LedState(Green, LedPower.Off, 0), LedState(Green, LedPower.Off, 0))

  /** The outputs wired to an LED, as (b[2], b[5]) of its frame; for NULL and ALL
      no case of `updateLed`'s switch matches and both stay 0. */
  function GpOutputs(led: LedNumber): (Byte, Byte) {
    match led
    case One => (GP_OUTPUT_TWO, GP_OUTPUT_ONE)
    case Two => (GP_OUTPUT_FOUR, GP_OUTPUT_THREE)
    case Three => (GP_OUTPUT_SIX, GP_OUTPUT_FIVE)
    case _ => (0, 0)
  }

  /** The on/off commands sent to those two outputs, as (b[1], b[4]). OFF drives
      both outputs on; any other power (ON or NULL) looks the colour up, and the
      NULL colour matches no case and leaves both bytes 0. */
  function GpLevels(color: LedColor, power: LedPower): (Byte, Byte) {
    if power == LedPower.Off then (GP_OUTPUT_PWR_ON, GP_OUTPUT_PWR_ON)
    else match color
      case Green => (GP_OUTPUT_PWR_OFF, GP_OUTPUT_PWR_ON)
      case Yellow => (GP_OUTPUT_PWR_OFF, GP_OUTPUT_PWR_OFF)
      case Red => (GP_OUTPUT_PWR_ON, GP_OUTPUT_PWR_OFF)
      case Null => (0, 0)
  }

  /** The six-byte frame `updateLed` queues: two general-purpose-output commands. */
  function LedFrame(led: LedNumber, color: LedColor, power: LedPower): (frame: seq<Byte>)
    ensures |frame| == 6 && frame[0] == START_BYTE && frame[3] == START_BYTE
  {
    var outputs := GpOutputs(led);
    var levels := GpLevels(color, power);
    [START_BYTE, levels.0, outputs.0, START_BYTE, levels.1, outputs.1]
  }

  /** What an LED shows. */
  datatype Look = Dark | Lit(color: LedColor)

  /** What an LED with these settings should show; a powered LED with the NULL
      colour shows nothing defined. */
  function Appearance(color: LedColor, power: LedPower): Option<Look> {
    if power == LedPower.Off then Some(Dark)
    else if color == LedColor.Null then None
    else Some(Lit(color))
  }

  /** The wiring of a tri-colour LED read backwards: which look a pair of output
      levels produces. */
  function LookOfLevels(levels: (Byte, Byte)): Option<Look> {
    if levels == (GP_OUTPUT_PWR_ON, GP_OUTPUT_PWR_ON) then Some(Dark)
    else if levels == (GP_OUTPUT_PWR_OFF, GP_OUTPUT_PWR_ON) then Some(Lit(Green))
    else if levels == (GP_OUTPUT_PWR_OFF, GP_OUTPUT_PWR_OFF) then Some(Lit(Yellow))
    else if levels == (GP_OUTPUT_PWR_ON, GP_OUTPUT_PWR_OFF) then Some(Lit(Red))
    else None
  }

  /** The levels `updateLed` sends make the LED show exactly what its settings
      say; the NULL colour on an LED that is not OFF sends the levels (0, 0),
      which are no valid look. */
  lemma WiringShowsSettings(color: LedColor, power: LedPower)
    ensures LookOfLevels(GpLevels(color, power)) == Appearance(color, power)
    ensures color == LedColor.Null && power != LedPower.Off ==> GpLevels(color, power) == (0, 0)
  {
  }

  /** Hence the four looks (off, green, yellow, red) use four different pairs of
      output levels. */
  lemma WiringDistinguishesLooks(c1: LedColor, p1: LedPower, c2: LedColor, p2: LedPower)
    requires Appearance(c1, p1).Some? && Appearance(c2, p2).Some?
    requires Appearance(c1, p1) != Appearance(c2, p2)
    ensures GpLevels(c1, p1) != GpLevels(c2, p2)
  {
    WiringShowsSettings(c1, p1);
    WiringShowsSettings(c2, p2);
  }

  /** LED n drives outputs 2n (third byte) and 2n - 1 (sixth byte), so the three
      LEDs use disjoint outputs. */
  lemma LedOutputs(led: LedNumber, n: int, color: LedColor, power: LedPower)
    requires (led == One && n == 1) || (led == Two && n == 2) || (led == Three && n == 3)
    ensures LedFrame(led, color, power)[2] as int == 2 * n
    ensures LedFrame(led, color, power)[5] as int == 2 * n - 1
  {
  }

  /** The frame `updateLed(led)` queues for the current table. */
  function UpdateFrame(t: LedTable, led: LedNumber): (frame: seq<Byte>)
    ensures |frame| == 6
  {
    match led
    case One => LedFrame(One, t.one.color, t.one.power)
    case Two => LedFrame(Two, t.two.color, t.two.power)
    case Three => LedFrame(Three, t.three.color, t.three.power)
    case _ => LedFrame(led, LedColor.Null, LedPower.Null)
  }

  /** `getLedColor`: ALL, and the NULL selector that matches no case, report LED one. */
  function GetColor(t: LedTable, led: LedNumber): LedColor {
    match led
    case Two => t.two.color
    case Three => t.three.color
    case _ => t.one.color
  }

  /** `getLedPower`: ALL and NULL report LED one. */
  function GetPower(t: LedTable, led: LedNumber): LedPower {
    match led
    case Two => t.two.power
    case Three => t.three.power
    case _ => t.one.power
  }

  /** `setLedColor`: store the colour and queue the LED's frame when its gating
      power is ON. LED THREE is gated on LED ONE's power, in its own case and in
      the ALL fan-out alike. */
  function SetColor(t: LedTable, led: LedNumber, color: LedColor): Update {
    match led
    case One =>
      var t1 := t.(one := t.one.(color := color));
      Update(t1, if t.one.power == On then UpdateFrame(t1, One) else [])
    case Two =>
      var t1 := t.(two := t.two.(color := color));
      Update(t1, if t.two.power == On then UpdateFrame(t1, Two) else [])
    case Three =>
      var t1 := t.(three := t.three.(color := color));
      Update(t1, if t.one.power == On then UpdateFrame(t1, Three) else [])
    case All =>
      var t1 := t.(one := t.one.(color := color));
      var f1 := if t1.one.power == On then UpdateFrame(t1, One) else [];
      var t2 := t1.(two := t1.two.(color := color));
      var f2 := if t2.two.power == On then UpdateFrame(t2, Two) else [];
      var t3 := t2.(three := t2.three.(color := color));
      var f3 := if t3.one.power == On then UpdateFrame(t3, Three) else [];
      Update(t3, f1 + f2 + f3)
    case Null => Update(t, [])
  }

  /** `setLedPower`: store the power, zero the LED's frequency (which stops it
      blinking) and always queue its frame. */
  function SetPower(t: LedTable, led: LedNumber, power: LedPower): Update {
    match led
    case One =>
      var t1 := t.(one := t.one.(power := power, freq := 0));
      Update(t1, UpdateFrame(t1, One))
    case Two =>
      var t1 := t.(two := t.two.(power := power, freq := 0));
      Update(t1, UpdateFrame(t1, Two))
    case Three =>
      var t1 := t.(three := t.three.(power := power, freq := 0));
      Update(t1, UpdateFrame(t1, Three))
    case All =>
      var t1 := t.(one := t.one.(power := power, freq := 0));
      var t2 := t1.(two := t1.two.(power := power, freq := 0));
      var t3 := t2.(three := t2.three.(power := power, freq := 0));
      Update(t3, UpdateFrame(t1, One) + UpdateFrame(t2, Two) + UpdateFrame(t3, Three))
    case Null => Update(t, [])
  }

  /** `setLedFrequency`: store only; nothing is queued. */
  function SetFrequency(t: LedTable, led: LedNumber, freq: int): Update {
    match led
    case One => Update(t.(one := t.one.(freq := freq)), [])
    case Two => Update(t.(two := t.two.(freq := freq)), [])
    case Three => Update(t.(three := t.three.(freq := freq)), [])
    case All => Update(t.(one := t.one.(freq := freq), two := t.two.(freq := freq), three := t.three.(freq := freq)), [])
    case Null => Update(t, [])
  }

  /** Run one update after another, collecting the frames in order. */
  function Then(u: Update, next: LedTable -> Update): Update {
    var v := next(u.table);
    Update(v.table, u.frames + v.frames)
  }

  /** The ALL selector is the three single-LED calls in the order ONE, TWO, THREE,
      for all three setters. */
  lemma AllFansOutInOrder(t: LedTable, color: LedColor, power: LedPower, freq: int)
    ensures SetColor(t, All, color)
      == Then(Then(SetColor(t, One, color), u => SetColor(u, Two, color)), u => SetColor(u, Three, color))
    ensures SetPower(t, All, power)
      == Then(Then(SetPower(t, One, power), u => SetPower(u, Two, power)), u => SetPower(u, Three, power))
    ensures SetFrequency(t, All, freq)
      == Then(Then(SetFrequency(t, One, freq), u => SetFrequency(u, Two, freq)), u => SetFrequency(u, Three, freq))
  {
    var c1 := SetColor(t, One, color);
    var c2 := SetColor(c1.table, Two, color);
    assert c2.table.one.power == t.one.power;
    assert SetColor(t, All, color).frames == c1.frames + c2.frames + SetColor(c2.table, Three, color).frames;
    var p1 := SetPower(t, One, power);
    var p2 := SetPower(p1.table, Two, power);
    assert SetPower(t, All, power).frames == p1.frames + p2.frames + SetPower(p2.table, Three, power).frames;
  }

  /** `setLedColor(ALL)` is the colour change of LED one, then two, then three,
      each from the table the previous one left. */
  lemma ColorFansOut(t: LedTable, color: LedColor)
    ensures var c1 := SetColor(t, One, color);
      var c2 := SetColor(c1.table, Two, color);
      var c3 := SetColor(c2.table, Three, color);
      SetColor(t, All, color) == Update(c3.table, c1.frames + c2.frames + c3.frames)
  {
    var c1 := SetColor(t, One, color);
    var c2 := SetColor(c1.table, Two, color);
    assert c2.table.one.power == t.one.power;
  }

  /** The power whose ON state lets `setLedColor` queue a frame for `led`. */
  function ColorGate(t: LedTable, led: LedNumber): LedPower {
    match led
    case Two => t.two.power
    case _ => t.one.power
  }

  /** A single-LED colour change stores the colour, leaves every power and
      frequency alone, leaves the other LEDs untouched, and queues that LED's
      frame with the new colour and its own power exactly when its gate is ON. */
  lemma SetColorEffect(t: LedTable, led: LedNumber, color: LedColor)
    requires led == One || led == Two || led == Three
    ensures var u := SetColor(t, led, color);
      && GetColor(u.table, led) == color
      && (led != One ==> u.table.one == t.one)
      && (led != Two ==> u.table.two == t.two)
      && (led != Three ==> u.table.three == t.three)
      && GetPower(u.table, led) == GetPower(t, led)
      && u.table.one.power == t.one.power && u.table.two.power == t.two.power && u.table.three.power == t.three.power
      && u.table.one.freq == t.one.freq && u.table.two.freq == t.two.freq && u.table.three.freq == t.three.freq
      && u.frames == if ColorGate(t, led) == On then LedFrame(led, color, GetPower(t, led)) else []
  {
  }

  /** LED THREE's colour change is gated on LED ONE: with LED three lit and LED
      one off the change is not sent, and with LED one lit and LED three off an
      "off" frame is sent for LED three. */
  lemma ThreeGatedOnOne(t: LedTable, color: LedColor)
    ensures t.one.power != On ==> SetColor(t, Three, color).frames == []
    ensures t.one.power == On && t.three.power == LedPower.Off ==>
      SetColor(t, Three, color).frames == LedFrame(Three, color, LedPower.Off)
  {
  }

  /** A colour set while the LED's gate is off is not shown until the LED is
      switched on, and then exactly one frame shows it. */
  lemma ColorDeferredUntilPowerOn(t: LedTable, led: LedNumber, color: LedColor)
    requires led == One || led == Two || led == Three
    requires ColorGate(t, led) == LedPower.Off
    ensures SetColor(t, led, color).frames == []
    ensures SetPower(SetColor(t, led, color).table, led, On).frames == LedFrame(led, color, On)
  {
  }

  /** A power change stores the power, zeroes the frequency, keeps the colour,
      leaves the LEDs it does not address untouched, and queues one frame per
      addressed LED in the order ONE, TWO, THREE. */
  lemma SetPowerEffect(t: LedTable, led: LedNumber, power: LedPower)
    requires led != LedNumber.Null
    ensures var u := SetPower(t, led, power);
      && GetPower(u.table, led) == power
      && (led == One || led == All ==> u.table.one == t.one.(power := power, freq := 0))
      && (led == Two || led == All ==> u.table.two == t.two.(power := power, freq := 0))
      && (led == Three || led == All ==> u.table.three == t.three.(power := power, freq := 0))
      && (led != One && led != All ==> u.table.one == t.one)
      && (led != Two && led != All ==> u.table.two == t.two)
      && (led != Three && led != All ==> u.table.three == t.three)
      && (led != All ==> u.frames == LedFrame(led, GetColor(t, led), power))
      && (led == All ==> u.frames == LedFrame(One, t.one.color, power)
                                   + LedFrame(Two, t.two.color, power)
                                   + LedFrame(Three, t.three.color, power))
  {
  }

  /** Switching all LEDs on and then off leaves each LED off and steady with
      its colour, after three frames each way. */
  lemma PowerAllOnThenOff(t: LedTable)
    ensures var on := SetPower(t, All, On);
      var off := SetPower(on.table, All, LedPower.Off);
      && off.table == LedTable(LedState(t.one.color, LedPower.Off, 0), LedState(t.two.color, LedPower.Off, 0), LedState(t.three.color, LedPower.Off, 0))
      && on.frames == LedFrame(One, t.one.color, On) + LedFrame(Two, t.two.color, On) + LedFrame(Three, t.three.color, On)
      && off.frames == LedFrame(One, t.one.color, LedPower.Off) + LedFrame(Two, t.two.color, LedPower.Off) + LedFrame(Three, t.three.color, LedPower.Off)
  {
    SetPowerEffect(t, All, On);
    SetPowerEffect(SetPower(t, All, On).table, All, LedPower.Off);
  }

  /** A frequency change queues nothing, leaves colours and powers alone,
      stores the frequency in each addressed LED and leaves the others' alone;
      the NULL selector changes nothing in any setter. */
  lemma SetFrequencyQuiet(t: LedTable, led: LedNumber, freq: int, color: LedColor, power: LedPower)
    ensures var u := SetFrequency(t, led, freq);
      && u.frames == []
      && u.table.one == t.one.(freq := u.table.one.freq)
      && u.table.two == t.two.(freq := u.table.two.freq)
      && u.table.three == t.three.(freq := u.table.three.freq)
      && (led == One || led == All ==> u.table.one.freq == freq)
      && (led == Two || led == All ==> u.table.two.freq == freq)
      && (led == Three || led == All ==> u.table.three.freq == freq)
      && (led != One && led != All ==> u.table.one == t.one)
      && (led != Two && led != All ==> u.table.two == t.two)
      && (led != Three && led != All ==> u.table.three == t.three)
    ensures led == LedNumber.Null ==>
      SetColor(t, led, color) == SetPower(t, led, power) == SetFrequency(t, led, freq) == Update(t, [])
  {
  }
}
