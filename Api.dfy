// The MatrixOrbitalApi object of MatrixOrbitalApi.java: its connection and
// flow-control flags, its two byte queues, its listener list and its LED
// settings, with every public command method, the private LED refresher, the
// event decoder and one pass of the `run` loop. Each method's new state is
// tied to the specification functions of Codec, Leds, RowText, Inbound and
// PollingLoop, where what the source promises is proved.
module Api {
  import opened Commands
  import opened Specifications
  import opened Types
  import opened Codec
  import opened Leds
  import opened RowText
  import opened Inbound
  import opened PollingLoop

  /** How `setRowText` ended: it returned its flag, or the frame copy threw at
      an array index (an ArrayIndexOutOfBoundsException escapes the method). */
  datatype RowTextOutcome = Returned(accepted: bool) | Threw(index: int)

  /** What one tick read from the display: every available byte, or the bytes
      read before an IOException stopped the read. */
  datatype ReadResult = ReadOk(bytes: seq<Byte>) | ReadFailed(partial: seq<Byte>)

  /** The bytes a read added to the inbound queue. */
  function ReadBytes(r: ReadResult): seq<Byte> {
    match r
    case ReadOk(bytes) => bytes
    case ReadFailed(partial) => partial
  }

  /** A tick that writes `w` from a queue to which it added `frames` keeps the
      account of a run: written bytes, then the queue, are the starting queue,
      then every blink frame so far. */
  lemma QueueAdvance(start: seq<Byte>, blinked: seq<Byte>, written: seq<Byte>, queue: seq<Byte>,
                     w: seq<Byte>, frames: seq<Byte>, queue': seq<Byte>)
    requires written + queue == start + blinked
    requires w + queue' == queue + frames
    ensures (written + w) + queue' == start + (blinked + frames)
  {
    calc {
      (written + w) + queue';
      written + (w + queue');
      (written + queue) + frames;
      start + (blinked + frames);
    }
  }

  class MatrixOrbitalApi {
    /** Set once a serial port has been opened; the loop does nothing before. */
    var connected: bool
    /** Whether the display last asked for data (0xFF) rather than a pause (0xFE). */
    var flowing: bool
    /** OUTBOUND: bytes queued by the command methods, waiting to be written to
        the display. (The source names the queues from the display's side.) */
    var inputBytes: seq<Byte>
    /** INBOUND: bytes read from the display, waiting to be decoded. */
    var outputBytes: seq<Byte>
    /** The registered button listeners, in registration order. */
    var listeners: seq<ListenerId>
    var ledOne: LedState
    var ledTwo: LedState
    var ledThree: LedState

    /** The three LEDs' settings as one table. */
    function Leds(): LedTable
      reads this
    {
      LedTable(ledOne, ledTwo, ledThree)
    }

    /** A new API object: not connected, data allowed, empty queues, no
        listeners, every LED green, off and steady. */
    constructor()
      ensures !connected && flowing
      ensures inputBytes == [] && outputBytes == [] && listeners == []
      ensures Leds() == INITIAL_TABLE
    {
      connected := false;
      flowing := true;
      inputBytes := [];
      outputBytes := [];
      listeners := [];
      ledOne := LedState(Green, LedPower.Off, 0);
      ledTwo := LedState(Green, LedPower.Off, 0);
      ledThree := LedState(Green, LedPower.Off, 0);
    }

    /** The loop every command ends with: each byte of the frame is added to the
        outbound queue in order. */
    method Enqueue(frame: seq<Byte>)
      modifies this`inputBytes
      ensures inputBytes == old(inputBytes) + frame
    {
      for i := 0 to |frame|
        invariant inputBytes == old(inputBytes) + frame[..i]
      {
        inputBytes := inputBytes + [frame[i]];
      }
    }

    // ------------------------------------------------------------ connection

    /** `connect(portName, speed)`. The port is opened at 19200 (`portOpened`
        is false when it is missing, in use or cannot be configured); once it is,
        the object is connected. A rate other than 19200 is then sent to the
        display and the local port is switched to it (`rateSwitchOk` is false
        when that switch throws, which leaves the object connected but makes
        `connect` report failure). On success flow control is switched on.
        `portRate` is the rate the local port is left at. */
    method Connect(speed: Byte, portOpened: bool, rateSwitchOk: bool) returns (conn: bool, portRate: int)
      modifies this`connected, this`inputBytes
      ensures !portOpened ==> !conn && connected == old(connected) && inputBytes == old(inputBytes)
      ensures portOpened ==> connected
      ensures portOpened && BaudRate(speed) == 19200 ==>
        conn && portRate == 19200 && inputBytes == old(inputBytes) + Encode(Command.FlowControlOn)
      ensures portOpened && BaudRate(speed) != 19200 ==>
        && conn == rateSwitchOk
        && portRate == (if rateSwitchOk then BaudRate(speed) else 19200)
        && inputBytes == old(inputBytes) + Encode(Command.SetBaudRate(speed))
                         + (if rateSwitchOk then Encode(Command.FlowControlOn) else [])
    {
      var baud := BaudRate(speed);
      var defaultBaud := 19200;
      conn := false;
      portRate := defaultBaud;
      if !portOpened {
        return;
      }
      connected := true;
      if baud != defaultBaud {
        SetBaudRate(speed);
        if !rateSwitchOk {
          return;
        }
        portRate := baud;
      }
      conn := true;
      SetFlowControlOn();
    }

    // ------------------------------------------------------ fixed-layout frames

    method WarmReset()
      modifies this`inputBytes
      ensures inputBytes == old(inputBytes) + Encode(Command.WarmReset)
    {
      Enqueue([START_BYTE, WARM_RESET]);
    }

    method SetFlowControlOn()
      modifies this`inputBytes
      ensures inputBytes == old(inputBytes) + Encode(Command.FlowControlOn)
    {
      Enqueue([START_BYTE, FLOW_CONTROL_ON, FLOW_CONTROL_FULL, FLOW_CONTROL_EMPTY]);
    }

    method SetFlowControlOff()
      modifies this`inputBytes
      ensures inputBytes == old(inputBytes) + Encode(Command.FlowControlOff)
    {
      Enqueue([START_BYTE, FLOW_CONTROL_OFF]);
    }

    method SetLockFilesystem()
      modifies this`inputBytes
      ensures inputBytes == old(inputBytes) + Encode(Command.LockFilesystem)
    {
      Enqueue([START_BYTE, SAVE_DATA_LOCK, SET_DATA_LOCK, LOCK_FILESYSTEM]);
    }

    method SetBaudRate(baudRate: Byte)
      modifies this`inputBytes
      ensures inputBytes == old(inputBytes) + Encode(Command.SetBaudRate(baudRate))
    {
      Enqueue([START_BYTE, SET_BAUD_RATE, baudRate]);
    }

    method ClearScreen()
      modifies this`inputBytes
      ensures inputBytes == old(inputBytes) + Encode(Command.ClearScreen)
    {
      Enqueue([START_BYTE, CLEAR_SCREEN]);
    }

    method SetBacklightBrightness(level: BrightnessLevel)
      modifies this`inputBytes
      ensures inputBytes == old(inputBytes) + Encode(Command.SetBacklightBrightness(level))
    {
      var b2: Byte;
      match level {
        case Off => b2 := BACKLIGHT_OFF;
        case Low => b2 := BACKLIGHT_LOW;
        case Medium => b2 := BACKLIGHT_MEDIUM;
        case High => b2 := BACKLIGHT_HIGH;
      }
      Enqueue([START_BYTE, SET_BACKLIGHT_BRIGHTNESS, b2]);
    }

    method MoveCursorHome()
      modifies this`inputBytes
      ensures inputBytes == old(inputBytes) + Encode(Command.MoveCursorHome)
    {
      Enqueue([START_BYTE, RESET_CURSOR]);
    }

    method SetDrawingColor(color: DrawingColor)
      modifies this`inputBytes
      ensures inputBytes == old(inputBytes) + Encode(Command.SetDrawingColor(color))
    {
      var b2: Byte := if color == White then 0x00 else 0xFE;
      Enqueue([START_BYTE, SET_DRAWING_COLOR, b2]);
    }

    /** Queues nothing unless the pixel is on the screen. */
    method DrawPixel(x: int, y: int)
      modifies this`inputBytes
      ensures inputBytes == old(inputBytes) + Encode(Command.DrawPixel(x, y))
    {
      if (x >= 0 && x < LCD_WIDTH) && (y >= 0 && y < LCD_HEIGHT) {
        Enqueue([START_BYTE, DRAW_PIXEL, ToByte(x), ToByte(y)]);
      }
    }

    /** Queues nothing unless both ends are on the screen. */
    method DrawLine(xa: int, ya: int, xb: int, yb: int)
      modifies this`inputBytes
      ensures inputBytes == old(inputBytes) + Encode(Command.DrawLine(xa, ya, xb, yb))
    {
      if (xa >= 0 && xa < LCD_WIDTH) && (ya >= 0 && ya < LCD_HEIGHT)
        && (xb >= 0 && xb < LCD_WIDTH) && (yb >= 0 && yb < LCD_HEIGHT)
      {
        Enqueue([START_BYTE, DRAW_LINE, ToByte(xa), ToByte(ya), ToByte(xb), ToByte(yb)]);
      }
    }

    method DrawStylizedLine(style: DrawingStyle, lowerLeft: Point, upperRight: Point)
      modifies this`inputBytes
      ensures inputBytes == old(inputBytes) + StylizedLine(style, lowerLeft, upperRight)
    {
      if style == Solid {
        DrawLine(lowerLeft.x, lowerLeft.y, upperRight.x, upperRight.y);
      }
    }

    method DrawRectangle(color: DrawingColor, xa: int, ya: int, xb: int, yb: int)
      modifies this`inputBytes
      ensures inputBytes == old(inputBytes) + Encode(Command.DrawRectangle(color, xa, ya, xb, yb))
    {
      if (xa >= 0 && xa < LCD_WIDTH) && (ya >= 0 && ya < LCD_HEIGHT)
        && (xb >= 0 && xb < LCD_WIDTH) && (yb >= 0 && yb < LCD_HEIGHT)
      {
        var b2: Byte := if color == White then 0x00 else 0xFE;
        Enqueue([START_BYTE, DRAW_RECTANGLE, b2, ToByte(xa), ToByte(ya), ToByte(xb), ToByte(yb)]);
      }
    }

    method DrawSolidRectangle(color: DrawingColor, xa: int, ya: int, xb: int, yb: int)
      modifies this`inputBytes
      ensures inputBytes == old(inputBytes) + Encode(Command.DrawSolidRectangle(color, xa, ya, xb, yb))
    {
      if (xa >= 0 && xa < LCD_WIDTH) && (ya >= 0 && ya < LCD_HEIGHT)
        && (xb >= 0 && xb < LCD_WIDTH) && (yb >= 0 && yb < LCD_HEIGHT)
      {
        var b2: Byte := if color == White then 0x00 else 0xFE;
        Enqueue([START_BYTE, DRAW_SOLID_RECTANGLE, b2, ToByte(xa), ToByte(ya), ToByte(xb), ToByte(yb)]);
      }
    }

    // ------------------------------------------------------------------ LEDs

    /** `updateLed`: queue the general-purpose-output frame for one LED's
        current settings. */
    method UpdateLed(led: LedNumber)
      modifies this`inputBytes
      ensures inputBytes == old(inputBytes) + UpdateFrame(Leds(), led)
    {
      var color := LedColor.Null;
      var power := LedPower.Null;
      var b2: Byte := 0;
      var b5: Byte := 0;
      match led {
        case One =>
          color, power, b2, b5 := ledOne.color, ledOne.power, GP_OUTPUT_TWO, GP_OUTPUT_ONE;
        case Two =>
          color, power, b2, b5 := ledTwo.color, ledTwo.power, GP_OUTPUT_FOUR, GP_OUTPUT_THREE;
        case Three =>
          color, power, b2, b5 := ledThree.color, ledThree.power, GP_OUTPUT_SIX, GP_OUTPUT_FIVE;
        case _ =>
      }
      var b1: Byte := 0;
      var b4: Byte := 0;
      if power == LedPower.Off {
        b1, b4 := GP_OUTPUT_PWR_ON, GP_OUTPUT_PWR_ON;
      } else {
        match color {
          case Green => b1, b4 := GP_OUTPUT_PWR_OFF, GP_OUTPUT_PWR_ON;
          case Yellow => b1, b4 := GP_OUTPUT_PWR_OFF, GP_OUTPUT_PWR_OFF;
          case Red => b1, b4 := GP_OUTPUT_PWR_ON, GP_OUTPUT_PWR_OFF;
          case Null =>
        }
      }
      Enqueue([START_BYTE, b1, b2, START_BYTE, b4, b5]);
    }

    /** `setLedColor`. */
    method SetLedColor(led: LedNumber, color: LedColor)
      modifies this`ledOne, this`ledTwo, this`ledThree, this`inputBytes
      ensures Leds() == SetColor(old(Leds()), led, color).table
      ensures inputBytes == old(inputBytes) + SetColor(old(Leds()), led, color).frames
    {
      match led {
        case All =>
          ColorFansOut(Leds(), color);
          SetOneLedColor(One, color);
          SetOneLedColor(Two, color);
          SetOneLedColor(Three, color);
        case Null =>
        case _ =>
          SetOneLedColor(led, color);
      }
    }

    /** One case of `setLedColor` for a single LED. */
    method SetOneLedColor(led: LedNumber, color: LedColor)
      requires led == One || led == Two || led == Three
      modifies this`ledOne, this`ledTwo, this`ledThree, this`inputBytes
      ensures Leds() == SetColor(old(Leds()), led, color).table
      ensures inputBytes == old(inputBytes) + SetColor(old(Leds()), led, color).frames
    {
      match led {
        case One =>
          ledOne := ledOne.(color := color);
          if ledOne.power == On { UpdateLed(One); }
        case Two =>
          ledTwo := ledTwo.(color := color);
          if ledTwo.power == On { UpdateLed(Two); }
        case Three =>
          ledThree := ledThree.(color := color);
          if ledOne.power == On { UpdateLed(Three); }
      }
    }

    /** `getLedColor`. */
    method GetLedColor(led: LedNumber) returns (color: LedColor)
      ensures color == GetColor(Leds(), led)
    {
      color := ledOne.color;
      match led
      case All =>
        color := ledOne.color;
      case One =>
        color := ledOne.color;
      case Two =>
        color := ledTwo.color;
      case Three =>
        color := ledThree.color;
      case Null =>
    }

    /** `setLedPower`. */
    method SetLedPower(led: LedNumber, power: LedPower)
      modifies this`ledOne, this`ledTwo, this`ledThree, this`inputBytes
      ensures Leds() == SetPower(old(Leds()), led, power).table
      ensures inputBytes == old(inputBytes) + SetPower(old(Leds()), led, power).frames
    {
      match led
      case One =>
        ledOne := ledOne.(power := power, freq := 0);
        UpdateLed(One);
      case Two =>
        ledTwo := ledTwo.(power := power, freq := 0);
        UpdateLed(Two);
      case Three =>
        ledThree := ledThree.(power := power, freq := 0);
        UpdateLed(Three);
      case All =>
        ledOne := ledOne.(power := power, freq := 0);
        UpdateLed(One);
        ledTwo := ledTwo.(power := power, freq := 0);
        UpdateLed(Two);
        ledThree := ledThree.(power := power, freq := 0);
        UpdateLed(Three);
      case Null =>
    }

    /** `getLedPower`. */
    method GetLedPower(led: LedNumber) returns (power: LedPower)
      ensures power == GetPower(Leds(), led)
    {
      power := ledOne.power;
      match led
      case All =>
        power := ledOne.power;
      case One =>
        power := ledOne.power;
      case Two =>
        power := ledTwo.power;
      case Three =>
        power := ledThree.power;
      case Null =>
    }

    /** `setLedFrequency`. */
    method SetLedFrequency(led: LedNumber, frequency: int)
      modifies this`ledOne, this`ledTwo, this`ledThree
      ensures Leds() == SetFrequency(old(Leds()), led, frequency).table
    {
      match led
      case One =>
        ledOne := ledOne.(freq := frequency);
      case Two =>
        ledTwo := ledTwo.(freq := frequency);
      case Three =>
        ledThree := ledThree.(freq := frequency);
      case All =>
        ledOne := ledOne.(freq := frequency);
        ledTwo := ledTwo.(freq := frequency);
        ledThree := ledThree.(freq := frequency);
      case Null =>
    }

    // -------------------------------------------------------------- row text

    /** `setRowText`: a rejected request queues nothing and returns false; an
        accepted one queues its frame and returns true, unless building the
        frame throws, in which case nothing is queued. */
    method SetRowText(row: int, text: string, alignment: TextAlignment, clearRow: bool)
      returns (outcome: RowTextOutcome)
      modifies this`inputBytes
      ensures !Accepted(row, |text|) ==> outcome == Returned(false) && inputBytes == old(inputBytes)
      ensures Accepted(row, |text|) && CopyThrows(text, alignment, clearRow) ==>
        && outcome == Threw(TextStart(Column(alignment, |text|), clearRow))
        && inputBytes == old(inputBytes)
      ensures Accepted(row, |text|) && !CopyThrows(text, alignment, clearRow) ==>
        && outcome == Returned(true)
        && inputBytes == old(inputBytes) + RowTextFrame(row, text, alignment, clearRow)
    {
      if !(row < FIRST_LCD_ROW || row > LAST_LCD_ROW) || !(|text| > ROW_LENGTH) {
        var r := BuildRowTextFrame(row, text, alignment, clearRow);
        match r
        case IndexOutOfBounds(index) =>
          outcome := Threw(index);
        case Built(frame) =>
          Enqueue(frame);
          outcome := Returned(true);
      } else {
        outcome := Returned(false);
      }
    }

    /** `clearRowText`: a row of spaces, whatever the row number. */
    method ClearRowText(row: int)
      modifies this`inputBytes
      ensures inputBytes == old(inputBytes) + [START_BYTE, SET_CURSOR, 1, ToByte(row)] + Repeat(SPACE, ROW_LENGTH)
    {
      ClearRowTextFrame(row);
      var _ := SetRowText(row, "", TextAlignment.Center, true);
    }

    // ------------------------------------------------------------- listeners

    /** `addLcdButtonPressEventListener`: append, duplicates included. */
    method AddListener(listener: ListenerId)
      modifies this`listeners
      ensures listeners == old(listeners) + [listener]
    {
      listeners := listeners + [listener];
    }

    /** `removeLcdButtonPressEventListener`: drop the first registration. */
    method RemoveListener(listener: ListenerId)
      modifies this`listeners
      ensures listeners == RemoveFirst(old(listeners), listener)
    {
      listeners := RemoveFirst(listeners, listener);
    }

    // ------------------------------------------------------ inbound decoding

    /** The listener loop of `executeEventHandlers`: every listener in order
        gets the event; one in `failing` throws, which is logged and skipped. */
    method Notify(button: LcdButton, failing: set<ListenerId>) returns (ds: seq<Delivery>)
      ensures ds == Broadcast(listeners, button, failing)
    {
      ds := [];
      for i := 0 to |listeners|
        invariant ds == Broadcast(listeners[..i], button, failing)
      {
        assert Broadcast(listeners[..i + 1], button, failing)
          == Broadcast(listeners[..i], button, failing) + [Delivery(listeners[i], button, listeners[i] in failing)];
        ds := ds + [Delivery(listeners[i], button, listeners[i] in failing)];
      }
      assert listeners[..|listeners|] == listeners;
    }

    /** The body of the decoding loop for one polled byte. */
    method HandleByte(b: Byte, failing: set<ListenerId>) returns (ds: seq<Delivery>)
      modifies this`flowing
      ensures var d := DecodeAll(old(flowing), [b], listeners, failing);
        flowing == d.flowing && ds == d.delivered
    {
      assert [b][1..] == [];
      ds := [];
      if b == 0xFE {
        flowing := false;
      } else if b == 0xFF {
        flowing := true;
      } else {
        var button := LcdButton.Null;
        if b == 65 {
          button := TopLeft;
        } else if b == 66 {
          button := Up;
        } else if b == 67 {
          button := LcdButton.Right;
        } else if b == 68 {
          button := LcdButton.Left;
        } else if b == 69 {
          button := LcdButton.Center;
        } else if b == 71 {
          button := BottomLeft;
        } else if b == 72 {
          button := Down;
        }
        if button != LcdButton.Null {
          ds := Notify(button, failing);
        }
      }
    }

    /** `executeEventHandlers`: poll the inbound queue empty, switching the
        flow state on a sentinel and calling every listener on a key press;
        a listener in `failing` throws, and the loop carries on. */
    method ExecuteEventHandlers(failing: set<ListenerId>) returns (delivered: seq<Delivery>)
      modifies this`outputBytes, this`flowing
      ensures outputBytes == []
      ensures var d := DecodeAll(old(flowing), old(outputBytes), listeners, failing);
        flowing == d.flowing && delivered == d.delivered
    {
      delivered := [];
      ghost var consumed: seq<Byte> := [];
      while |outputBytes| > 0
        invariant old(outputBytes) == consumed + outputBytes
        invariant DecodeAll(old(flowing), consumed, listeners, failing) == Decoded(flowing, delivered)
        decreases |outputBytes|
      {
        var b := outputBytes[0];
        outputBytes := outputBytes[1..];
        DecodeAppend(old(flowing), consumed, [b], listeners, failing);
        var ds := HandleByte(b, failing);
        delivered := delivered + ds;
        consumed := consumed + [b];
      }
      assert consumed == old(outputBytes);
    }

    // ---------------------------------------------------------- polling loop

    /** The read step of a tick: every byte read is added to the inbound queue,
        up to the failure if there is one. */
    method ReadInbound(read: ReadResult) returns (ok: bool)
      modifies this`outputBytes
      ensures ok == read.ReadOk?
      ensures outputBytes == old(outputBytes) + ReadBytes(read)
    {
      var bytes := ReadBytes(read);
      for i := 0 to |bytes|
        invariant outputBytes == old(outputBytes) + bytes[..i]
      {
        outputBytes := outputBytes + [bytes[i]];
      }
      ok := read.ReadOk?;
    }

    /** The write step of a tick: when the display allows data and the queue is
        not empty, poll min(size, 8) bytes off the outbound queue and write them. */
    method DrainOutbound() returns (written: seq<Byte>)
      modifies this`inputBytes
      ensures var d := Drain(flowing, old(inputBytes));
        written == d.written && inputBytes == d.remaining
    {
      written := [];
      if flowing && inputBytes != [] {
        var size := |inputBytes|;
        var max := if size < DRAIN_LIMIT then size else DRAIN_LIMIT;
        var counter := 0;
        while counter < max
          invariant 0 <= counter <= max
          invariant |written| == counter
          invariant old(inputBytes) == written + inputBytes
        {
          written := written + [inputBytes[0]];
          inputBytes := inputBytes[1..];
          counter := counter + 1;
        }
        assert written == old(inputBytes)[..max];
      }
    }

    /** One blink step for LED one, as the loop writes it. */
    method BlinkOne(counter: int) returns (next: int)
      modifies this`ledOne, this`inputBytes
      ensures var b := BlinkLed(old(ledOne).freq, old(ledOne).power, counter);
        && ledOne == old(ledOne).(power := b.power) && next == b.counter
        && inputBytes == old(inputBytes) + BlinkFrame(One, old(ledOne), b)
    {
      next := counter;
      if ledOne.freq > 0 {
        if next > ledOne.freq {
          if ledOne.power == On {
            ledOne := ledOne.(power := LedPower.Off);
          } else {
            ledOne := ledOne.(power := On);
          }
          UpdateLed(One);
          next := 0;
        } else {
          next := next + TICK_MILLIS;
        }
      }
    }

    method BlinkTwo(counter: int) returns (next: int)
      modifies this`ledTwo, this`inputBytes
      ensures var b := BlinkLed(old(ledTwo).freq, old(ledTwo).power, counter);
        && ledTwo == old(ledTwo).(power := b.power) && next == b.counter
        && inputBytes == old(inputBytes) + BlinkFrame(Two, old(ledTwo), b)
    {
      next := counter;
      if ledTwo.freq > 0 {
        if next > ledTwo.freq {
          if ledTwo.power == On {
            ledTwo := ledTwo.(power := LedPower.Off);
          } else {
            ledTwo := ledTwo.(power := On);
          }
          UpdateLed(Two);
          next := 0;
        } else {
          next := next + TICK_MILLIS;
        }
      }
    }

    method BlinkThree(counter: int) returns (next: int)
      modifies this`ledThree, this`inputBytes
      ensures var b := BlinkLed(old(ledThree).freq, old(ledThree).power, counter);
        && ledThree == old(ledThree).(power := b.power) && next == b.counter
        && inputBytes == old(inputBytes) + BlinkFrame(Three, old(ledThree), b)
    {
      next := counter;
      if ledThree.freq > 0 {
        if next > ledThree.freq {
          if ledThree.power == On {
            ledThree := ledThree.(power := LedPower.Off);
          } else {
            ledThree := ledThree.(power := On);
          }
          UpdateLed(Three);
          next := 0;
        } else {
          next := next + TICK_MILLIS;
        }
      }
    }

    /** The blink step of a tick: LEDs one, two and three in turn. */
    method BlinkStep(counters: BlinkCounters) returns (next: BlinkCounters)
      modifies this`ledOne, this`ledTwo, this`ledThree, this`inputBytes
      ensures var blink := BlinkAll(old(Leds()), counters);
        && Leds() == blink.table && next == blink.counters
        && inputBytes == old(inputBytes) + blink.frames
    {
      BlinkAllEffect(Leds(), counters);
      var c1 := BlinkOne(counters.one);
      var c2 := BlinkTwo(counters.two);
      var c3 := BlinkThree(counters.three);
      next := BlinkCounters(c1, c2, c3);
    }

    /** One pass of `run` after its sleep. Not connected: nothing happens.
        Connected: the blink step, then the read; a failed read ends the pass
        and leaves what it read queued; otherwise the inbound queue is decoded
        and the write step runs under the flow state the decoding left. */
    method Tick(counters: BlinkCounters, read: ReadResult, failing: set<ListenerId>)
      returns (next: BlinkCounters, delivered: seq<Delivery>, written: seq<Byte>)
      modifies this`ledOne, this`ledTwo, this`ledThree, this`inputBytes, this`outputBytes, this`flowing
      ensures !old(connected) ==>
        && next == counters && delivered == [] && written == []
        && Leds() == old(Leds()) && inputBytes == old(inputBytes)
        && outputBytes == old(outputBytes) && flowing == old(flowing)
      ensures old(connected) ==>
        var blink := BlinkAll(old(Leds()), counters);
        && Leds() == blink.table && next == blink.counters
        && written + inputBytes == old(inputBytes) + blink.frames
        && (read.ReadFailed? ==>
              && outputBytes == old(outputBytes) + read.partial && flowing == old(flowing)
              && delivered == [] && written == [] && inputBytes == old(inputBytes) + blink.frames)
        && (read.ReadOk? ==>
              var d := DecodeAll(old(flowing), old(outputBytes) + read.bytes, listeners, failing);
              var w := Drain(d.flowing, old(inputBytes) + blink.frames);
              && outputBytes == [] && flowing == d.flowing && delivered == d.delivered
              && written == w.written && inputBytes == w.remaining)
    {
      next, delivered, written := counters, [], [];
      if !connected {
        return;
      }
      next := BlinkStep(counters);
      ghost var queued := inputBytes;
      var ok := ReadInbound(read);
      if !ok {
        return;
      }
      if |outputBytes| > 0 {
        delivered := ExecuteEventHandlers(failing);
      }
      written := DrainOutbound();
      assert written + inputBytes == queued by {
        var w := Drain(flowing, queued);
      }
    }

    /** What a tick does to the outbound queue and the LEDs alone: the blink
        step (none when not connected) sets the LEDs and counters and queues its
        frames, and what the tick writes is taken from the front of the queue. */
    method TickQueue(counters: BlinkCounters, read: ReadResult, failing: set<ListenerId>)
      returns (next: BlinkCounters, delivered: seq<Delivery>, written: seq<Byte>, ghost blinked: seq<Byte>)
      modifies this`ledOne, this`ledTwo, this`ledThree, this`inputBytes, this`outputBytes, this`flowing
      ensures var o := if connected then BlinkAll(old(Leds()), counters) else BlinkOutcome(old(Leds()), counters, []);
        Leds() == o.table && next == o.counters && blinked == o.frames
      ensures written + inputBytes == old(inputBytes) + blinked
      ensures |written| <= DRAIN_LIMIT
      ensures !connected ==> written == [] && delivered == []
    {
      ghost var o := BlinkAll(Leds(), counters);
      blinked := if connected then o.frames else [];
      next, delivered, written := Tick(counters, read, failing);
    }

    /** `run` over a sequence of ticks, from zero counters: the LEDs blink as
        `BlinkRun` says, and nothing is written that was not queued, in queue
        order, so the bytes written followed by what is still queued are the
        bytes that were queued before followed by the blink frames of the run. */
    method Run(ticks: seq<ReadResult>, failing: set<ListenerId>)
      returns (written: seq<Byte>, delivered: seq<Delivery>, ghost blinked: seq<Byte>)
      modifies this`ledOne, this`ledTwo, this`ledThree, this`inputBytes, this`outputBytes, this`flowing
      ensures var o := BlinkRun(old(Leds()), INITIAL_COUNTERS, if connected then |ticks| else 0);
        Leds() == o.table && blinked == o.frames
      ensures written + inputBytes == old(inputBytes) + blinked
      ensures |written| <= DRAIN_LIMIT * |ticks|
      ensures !connected ==> written == [] && delivered == []
    {
      written, delivered, blinked := [], [], [];
      var counters := INITIAL_COUNTERS;
      ghost var start := Leds();
      for k := 0 to |ticks|
        invariant var o := BlinkRun(start, INITIAL_COUNTERS, if connected then k else 0);
          Leds() == o.table && counters == o.counters && blinked == o.frames
        invariant written + inputBytes == old(inputBytes) + blinked
        invariant |written| <= DRAIN_LIMIT * k
        invariant !connected ==> written == [] && delivered == []
      {
        ghost var queuedBefore := inputBytes;
        ghost var r := BlinkRun(start, INITIAL_COUNTERS, if connected then k else 0);
        var w, d;
        ghost var frames;
        counters, d, w, frames := TickQueue(counters, ticks[k], failing);
        if connected {
          assert BlinkRun(start, INITIAL_COUNTERS, k + 1) == BlinkOutcome(Leds(), counters, r.frames + frames);
        }
        QueueAdvance(old(inputBytes), blinked, written, queuedBefore, w, frames, inputBytes);
        written := written + w;
        delivered := delivered + d;
        blinked := blinked + frames;
      }
    }
  }
}
