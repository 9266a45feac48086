# Matrix Orbital LK204-7T-1U protocol engine, in Dafny

This project models the protocol engine of `MatrixOrbitalApi`, the Java driver for a
Matrix Orbital LK204-7T-1U character/graphic LCD with three tri-colour LEDs and a
seven-button keypad. The model covers:

- the wire-byte table of `MatrixOrbitalCommands` and the device geometry of
  `MatrixOrbitalSpecifications` and `Point` (modules `Commands`, `Specifications`, `Types`);
- every fixed-layout command frame: serial control, display control, cursor, and the
  drawing primitives with their silent off-screen drop. Also the baud-code lookup
  inside `connect` (module `Codec`);
- the row-text frame of `setRowText`/`clearRowText`: the acceptance guard, the
  alignment column, the byte array built in place, and the exception a negative
  start index raises (module `RowText`);
- the LED settings table: the colour, power and frequency setters, the `ALL`
  fan-out, the getters, and the 6-byte general-purpose-output frame of `updateLed`
  (module `Leds`);
- the inbound decoder `executeEventHandlers`: flow-control sentinels, keypad codes,
  broadcast to listeners with per-listener failure isolation, and the listener
  list (module `Inbound`);
- one pass of the `run` polling loop: the blink step, the read and decode, and the
  eight-byte drain (module `PollingLoop` for the step functions, and
  `Api.MatrixOrbitalApi.Tick` for the state step);
- the `MatrixOrbitalApi` object itself (module `Api`). It is a class whose fields
  are the connection and flow flags, the two byte queues, the listener list and
  the three LEDs. Each method's `ensures` ties its new state to the specification
  functions above.

The source names its queues from the display's side, and the model keeps those
names. `inputBytes` is the OUTBOUND queue: command methods append to it and the loop
writes it out. `outputBytes` is the INBOUND queue, which holds bytes read from the display.

Bytes are the `newtype Byte` (0..255), the unsigned reading of Java's signed
`byte`. `ToByte` is Java's narrowing cast `(byte)x`. Text is `seq<char>`, and each
character becomes the low eight bits of its code.

## Where the code and its documentation disagree

The model follows the code in each case:

- `setRowText` rejects a request only when the row is outside 1..7 **and** the text
  is longer than 27 characters, because its guard is a disjunction
  (`MatrixOrbitalApi.java:695-696`). Long text on a valid row is accepted and
  clamped to 27 copied characters. Row 8 with short text is accepted too. The
  Javadoc speaks of 8 rows and 31 characters. `RowText.Accepted` is the guard as written.
- In a cleared row, text can start inside the 4-byte header and overwrite it:
  right-aligned text of 28 to 31 characters (`RowText.LongTextOverwritesHeader`),
  centred text of 29 to 36 characters (`RowText.LongCenteredOverwritesHeader`), and
  any text with the NULL alignment, whose column 0 puts the first character over
  the row byte (`RowText.ClearedRowNullLayout`). Right-aligned text longer
  than 31 characters, or centred text of 37 or more, makes the copy start at a
  negative index. The copy then throws before anything is queued
  (`RowText.ThrowsOnlyForLongClearedRows`, outcome `Threw`).
- `setLedColor` decides whether to refresh LED THREE from LED ONE's power, both in
  its own case and inside `ALL` (`MatrixOrbitalApi.java:319`, `333`). This is
  reproduced, and `Leds.ThreeGatedOnOne` states its consequences.
- `setLedPower` zeroes the LED's blink frequency. It does not reset the blink counter,
  which is a local of `run` and keeps its value.
- The blink "frequency" is a millisecond threshold, not a rate in Hz. A blinking LED
  changes state every `freq / 4 + 2` ticks of 4 ms (`PollingLoop.BlinkToggles`).
- `connect` sets the object connected as soon as the port opens. If the later switch
  to a non-default rate fails, `connect` returns false but the object stays
  connected, with the baud frame already queued and the local port left at 19200.

## Model

| member | source | states |
|---|---|---|
| Commands.ToByte | src/com/simmetry/lcd/moapi/MatrixOrbitalApi.java:821-822 | `(byte)x` keeps x modulo 256, and leaves 0..255 unchanged |
| Commands.BaudCodesDistinct | src/com/simmetry/lcd/moapi/MatrixOrbitalCommands.java:30-37 | the eight baud codes are pairwise distinct; 0x67 is 19200, the default |
| Commands.KeypadCodesDistinct | src/com/simmetry/lcd/moapi/MatrixOrbitalCommands.java:97-103 | the seven keypad codes are pairwise distinct and are neither 0xFE nor 0xFF |
| Commands.GpOutputTable | src/com/simmetry/lcd/moapi/MatrixOrbitalCommands.java:67-74 | output power OFF and ON differ; the outputs are numbered 1..6 |
| Commands.FlowThresholdsOrdered | src/com/simmetry/lcd/moapi/MatrixOrbitalCommands.java:41-42 | "almost full" at 32 bytes left comes before "almost empty" at 120 |
| Commands.BacklightLevelsRise | src/com/simmetry/lcd/moapi/MatrixOrbitalCommands.java:80-83 | OFF < LOW < MEDIUM < HIGH as unsigned bytes |
| Specifications.OnScreenIsPointRange | src/com/simmetry/lcd/moapi/Point.java:16-19 | the drawing bounds check is exactly 0..191 by 0..63 |
| Codec.Encode | src/com/simmetry/lcd/moapi/MatrixOrbitalApi.java:812-953 | a command queues nothing iff a coordinate is off screen; any frame starts with 0xFE and has 2 to 7 bytes |
| Codec.ParseEncode | src/com/simmetry/lcd/moapi/MatrixOrbitalApi.java:206-287 | every frame an encoder queues reads back as the very call that queued it, so no two calls share a frame |
| Codec.EncodeParse | src/com/simmetry/lcd/moapi/MatrixOrbitalApi.java:787-953 | every frame that reads as a command is exactly that command's encoding, and the command is on screen |
| Codec.StylizedLine | src/com/simmetry/lcd/moapi/MatrixOrbitalApi.java:864-879 | SOLID is `drawLine` between the two points; the other styles queue nothing |
| Codec.BaudRate | src/com/simmetry/lcd/moapi/MatrixOrbitalApi.java:135-157 | the local port rate is always one of the eight table rates |
| Codec.BaudRateMatchesTable | src/com/simmetry/lcd/moapi/MatrixOrbitalApi.java:135-157 | each rate code selects its table rate; the result is 19200 iff the code is BAUD_19200 or unknown |
| Leds.LedFrame | src/com/simmetry/lcd/moapi/MatrixOrbitalApi.java:468-521 | the LED frame is six bytes, two output commands each starting with 0xFE |
| Leds.WiringShowsSettings | src/com/simmetry/lcd/moapi/MatrixOrbitalApi.java:498-517 | the levels sent make the LED show its settings: dark when OFF, its colour otherwise; the NULL colour sends the levels (0, 0), which are no valid look |
| Leds.WiringDistinguishesLooks | src/com/simmetry/lcd/moapi/MatrixOrbitalCommands.java:58-68 | off, green, yellow and red are sent as four different level pairs |
| Leds.LedOutputs | src/com/simmetry/lcd/moapi/MatrixOrbitalApi.java:477-496 | whatever its colour and power, LED n drives outputs 2n and 2n-1 |
| Leds.UpdateFrame | src/com/simmetry/lcd/moapi/MatrixOrbitalApi.java:468-522 | `updateLed` queues six bytes for every selector |
| Leds.AllFansOutInOrder | src/com/simmetry/lcd/moapi/MatrixOrbitalApi.java:323-336 | `ALL` is ONE, then TWO, then THREE, for colour, power and frequency |
| Leds.ColorFansOut | src/com/simmetry/lcd/moapi/MatrixOrbitalApi.java:323-336 | a colour change for `ALL` is the changes of ONE, TWO and THREE in turn, each seeing the table the previous one left |
| Leds.SetColorEffect | src/com/simmetry/lcd/moapi/MatrixOrbitalApi.java:301-338 | a colour change stores the colour, keeps powers and frequencies, leaves the other LEDs untouched, and queues the LED's frame iff its gate is ON |
| Leds.ThreeGatedOnOne | src/com/simmetry/lcd/moapi/MatrixOrbitalApi.java:317-322 | LED THREE's colour change follows LED ONE's power, not its own |
| Leds.ColorDeferredUntilPowerOn | src/com/simmetry/lcd/moapi/MatrixOrbitalApi.java:301-404 | a colour set while the gate is OFF is sent by the next power-on, in one frame |
| Leds.SetPowerEffect | src/com/simmetry/lcd/moapi/MatrixOrbitalApi.java:373-404 | power is stored, frequency zeroed, colour kept for each addressed LED, the other LEDs untouched, and one frame is queued per addressed LED in order |
| Leds.PowerAllOnThenOff | src/com/simmetry/lcd/moapi/MatrixOrbitalApi.java:392-400 | ALL on then ALL off leaves each LED off and steady, after three frames each way |
| Leds.SetFrequencyQuiet | src/com/simmetry/lcd/moapi/MatrixOrbitalApi.java:439-460 | a frequency change queues nothing, stores the frequency in each addressed LED (all three for ALL) and leaves colours, powers and the other LEDs alone; NULL changes nothing in any setter |
| RowText.JavaDiv | src/com/simmetry/lcd/moapi/MatrixOrbitalApi.java:710-712 | integer division rounds toward zero: the remainder has the sign of the dividend and is smaller than the divisor |
| RowText.TextBytes | src/com/simmetry/lcd/moapi/MatrixOrbitalApi.java:755-757 | each character becomes its low byte, in order |
| RowText.CopyWithinFrame | src/com/simmetry/lcd/moapi/MatrixOrbitalApi.java:751-757 | the copy never runs past the end of the array, so only a negative start can throw |
| RowText.RowTextFrame | src/com/simmetry/lcd/moapi/MatrixOrbitalApi.java:721-757 | a cleared row's frame is 31 bytes, otherwise the text length plus 4 |
| RowText.BuildRowTextFrame | src/com/simmetry/lcd/moapi/MatrixOrbitalApi.java:721-757 | filling, writing the header and copying in place gives the frame, or the negative index where the copy throws |
| RowText.ThrowsOnlyForLongClearedRows | src/com/simmetry/lcd/moapi/MatrixOrbitalApi.java:702-757 | the copy throws iff the row is cleared and the text is right-aligned beyond 31 characters or centred from 37 |
| RowText.ColumnPlacesText | src/com/simmetry/lcd/moapi/MatrixOrbitalApi.java:702-714 | text that fits: LEFT flush left, RIGHT flush right, CENTER with margins differing by at most one |
| RowText.CenterExample | src/com/simmetry/lcd/moapi/MatrixOrbitalApi.java:710-712 | "Testing" centred starts in column 11 |
| RowText.ColumnAtLeastOne | src/com/simmetry/lcd/moapi/MatrixOrbitalApi.java:702-720 | the column is 1 or more exactly for LEFT, RIGHT up to 27 characters and CENTER up to 28 |
| RowText.ClearedRowLayout | src/com/simmetry/lcd/moapi/MatrixOrbitalApi.java:724-757 | a cleared row whose column is 1 or more: header with column 1, spaces, the first 27 characters at most at the column, spaces to the end |
| RowText.OverwriteLayout | src/com/simmetry/lcd/moapi/MatrixOrbitalApi.java:733-757 | without clearing: header with the wrapped column byte, at most 27 text bytes, zeros after |
| RowText.LongTextOverwritesHeader | src/com/simmetry/lcd/moapi/MatrixOrbitalApi.java:724-757 | right-aligned text of 28 to 31 characters in a cleared row is copied from index 31 - len over the header; the header bytes before it stay and len - 27 spaces follow |
| RowText.ClearedRowNullLayout | src/com/simmetry/lcd/moapi/MatrixOrbitalApi.java:702-757 | with the NULL alignment a cleared row keeps three header bytes: the first character replaces the row byte, then at most 27 characters and spaces |
| RowText.LongCenteredOverwritesHeader | src/com/simmetry/lcd/moapi/MatrixOrbitalApi.java:710-757 | centred text of 29 to 36 characters in a cleared row starts at index 4 - (len - 27) / 2, over the header; the header bytes before it stay and spaces follow the text |
| RowText.ClearRowTextFrame | src/com/simmetry/lcd/moapi/MatrixOrbitalApi.java:773-777 | `clearRowText` is always accepted, never throws, and sends the header and 27 spaces |
| Inbound.ClassifyKeypad | src/com/simmetry/lcd/moapi/MatrixOrbitalApi.java:1142-1164 | the decoder's literals 65..72 are exactly the table's keypad codes, in both directions |
| Inbound.Broadcast | src/com/simmetry/lcd/moapi/MatrixOrbitalApi.java:1166-1177 | one call per listener in registration order; a failing listener does not stop the rest |
| Inbound.DecodeAppend | src/com/simmetry/lcd/moapi/MatrixOrbitalApi.java:1125-1184 | decoding two runs of bytes in turn is decoding them joined |
| Inbound.DecodeFlowLastSentinel | src/com/simmetry/lcd/moapi/MatrixOrbitalApi.java:1130-1138 | the flow state after decoding is set by the last 0xFE/0xFF received, and unchanged without one |
| Inbound.Buttons | src/com/simmetry/lcd/moapi/MatrixOrbitalApi.java:1142-1164 | the key presses of a run of bytes are never NULL and no more than the bytes |
| Inbound.BroadcastAll | src/com/simmetry/lcd/moapi/MatrixOrbitalApi.java:1166-1177 | one call per press per listener, counted round by round |
| Inbound.DecodeDeliveries | src/com/simmetry/lcd/moapi/MatrixOrbitalApi.java:1123-1185 | the listener calls are each key press broadcast in arrival order, whatever the flow bytes |
| Inbound.BroadcastAllAt | src/com/simmetry/lcd/moapi/MatrixOrbitalApi.java:1166-1177 | press k reaches listener i after k full rounds of the listeners |
| Inbound.BroadcastAllIndex | src/com/simmetry/lcd/moapi/MatrixOrbitalApi.java:1166-1177 | every press reaches every listener once, and press k reaches listener i at position k times the listener count plus i |
| Inbound.RemoveFirst | src/com/simmetry/lcd/moapi/MatrixOrbitalApi.java:1114-1117 | removing a listener that is not registered leaves the list as it was |
| Inbound.RemoveFirstCounts | src/com/simmetry/lcd/moapi/MatrixOrbitalApi.java:1114-1117 | removal drops exactly one registration of the listener if there is one, and no other registration |
| Inbound.RemoveFirstSplits | src/com/simmetry/lcd/moapi/MatrixOrbitalApi.java:1114-1117 | it is the first registration that goes, the order of the rest is kept |
| Inbound.RemoveAfterAdd | src/com/simmetry/lcd/moapi/MatrixOrbitalApi.java:1104-1117 | adding a new listener and removing it restores the list |
| PollingLoop.Toggle | src/com/simmetry/lcd/moapi/MatrixOrbitalApi.java:990-995 | a toggle always changes the power, and never to NULL |
| PollingLoop.ToggleTwice | src/com/simmetry/lcd/moapi/MatrixOrbitalApi.java:990-995 | toggling twice restores ON or OFF |
| PollingLoop.BlinkTicksAdd | src/com/simmetry/lcd/moapi/MatrixOrbitalApi.java:970-1040 | m ticks then n ticks are m + n ticks |
| PollingLoop.SteadyWithoutFrequency | src/com/simmetry/lcd/moapi/MatrixOrbitalApi.java:987 | with frequency 0 an LED and its counter never change |
| PollingLoop.BlinkRamp | src/com/simmetry/lcd/moapi/MatrixOrbitalApi.java:988-1003 | from 0 the counter climbs 4 a tick with no toggle while it has not passed the frequency |
| PollingLoop.BlinkToggles | src/com/simmetry/lcd/moapi/MatrixOrbitalApi.java:987-1003 | from 0 the LED keeps its power for freq/4 + 1 ticks, then toggles and restarts the counter |
| PollingLoop.BlinkCycle | src/com/simmetry/lcd/moapi/MatrixOrbitalApi.java:987-1003 | after two toggle periods a blinking LED is back where it started |
| PollingLoop.BlinkAllEffect | src/com/simmetry/lcd/moapi/MatrixOrbitalApi.java:985-1040 | the three LEDs blink independently, colours and frequencies stay, and toggled LEDs queue frames in order ONE, TWO, THREE |
| PollingLoop.BlinkAllSteady | src/com/simmetry/lcd/moapi/MatrixOrbitalApi.java:985-1040 | with no frequency set, the blink step changes nothing and queues nothing |
| PollingLoop.BlinkRun | src/com/simmetry/lcd/moapi/MatrixOrbitalApi.java:964-1040 | the blink steps of n ticks, each from the state the previous one left |
| PollingLoop.BlinkRunPerLed | src/com/simmetry/lcd/moapi/MatrixOrbitalApi.java:985-1040 | over n ticks each LED's power and counter are those of n ticks of its own frequency alone; colours and frequencies stay |
| PollingLoop.BlinkRunSteady | src/com/simmetry/lcd/moapi/MatrixOrbitalApi.java:985-1040 | with no frequency set, any number of ticks changes no LED and queues nothing |
| PollingLoop.Drain | src/com/simmetry/lcd/moapi/MatrixOrbitalApi.java:1071-1081 | the bytes written followed by the rest are the queue; min(8, n) are written when flowing, none otherwise |
| PollingLoop.DrainTwenty | src/com/simmetry/lcd/moapi/MatrixOrbitalApi.java:1071-1081 | twenty queued bytes: eight written, twelve left |
| PollingLoop.DrainTicksPrefix | src/com/simmetry/lcd/moapi/MatrixOrbitalApi.java:1068-1087 | n flowing ticks write the first min(8n, size) bytes in order; a queue empties in ceil(size/8) ticks |
| Api.MatrixOrbitalApi.constructor | src/com/simmetry/lcd/moapi/MatrixOrbitalApi.java:58-87 | a new object is disconnected, flowing, with empty queues, no listeners, LEDs green, off and steady |
| Api.MatrixOrbitalApi.Enqueue | src/com/simmetry/lcd/moapi/MatrixOrbitalApi.java:212-214 | the frame is appended to the outbound queue in order |
| Api.MatrixOrbitalApi.Connect | src/com/simmetry/lcd/moapi/MatrixOrbitalApi.java:127-199 | open failure changes nothing; otherwise connected, baud frame for a non-default rate, flow-on frame and success unless the rate switch fails |
| Api.MatrixOrbitalApi.WarmReset | src/com/simmetry/lcd/moapi/MatrixOrbitalApi.java:206-215 | appends exactly the warm-reset frame |
| Api.MatrixOrbitalApi.SetFlowControlOn | src/com/simmetry/lcd/moapi/MatrixOrbitalApi.java:223-234 | appends exactly the flow-on frame |
| Api.MatrixOrbitalApi.SetFlowControlOff | src/com/simmetry/lcd/moapi/MatrixOrbitalApi.java:239-248 | appends exactly the flow-off frame |
| Api.MatrixOrbitalApi.SetLockFilesystem | src/com/simmetry/lcd/moapi/MatrixOrbitalApi.java:253-263 | appends exactly the filesystem-lock frame |
| Api.MatrixOrbitalApi.SetBaudRate | src/com/simmetry/lcd/moapi/MatrixOrbitalApi.java:277-287 | appends exactly the baud frame with the given code |
| Api.MatrixOrbitalApi.ClearScreen | src/com/simmetry/lcd/moapi/MatrixOrbitalApi.java:530-539 | appends exactly the clear-screen frame |
| Api.MatrixOrbitalApi.SetBacklightBrightness | src/com/simmetry/lcd/moapi/MatrixOrbitalApi.java:545-569 | appends exactly the backlight frame for the level |
| Api.MatrixOrbitalApi.MoveCursorHome | src/com/simmetry/lcd/moapi/MatrixOrbitalApi.java:667-675 | appends exactly the cursor-home frame |
| Api.MatrixOrbitalApi.SetDrawingColor | src/com/simmetry/lcd/moapi/MatrixOrbitalApi.java:787-804 | appends exactly the drawing-colour frame |
| Api.MatrixOrbitalApi.DrawPixel | src/com/simmetry/lcd/moapi/MatrixOrbitalApi.java:812-829 | appends the pixel frame, or nothing off screen |
| Api.MatrixOrbitalApi.DrawLine | src/com/simmetry/lcd/moapi/MatrixOrbitalApi.java:841-862 | appends the line frame, or nothing off screen |
| Api.MatrixOrbitalApi.DrawStylizedLine | src/com/simmetry/lcd/moapi/MatrixOrbitalApi.java:864-879 | appends the stylised line's frame |
| Api.MatrixOrbitalApi.DrawRectangle | src/com/simmetry/lcd/moapi/MatrixOrbitalApi.java:889-916 | appends the rectangle frame, or nothing off screen |
| Api.MatrixOrbitalApi.DrawSolidRectangle | src/com/simmetry/lcd/moapi/MatrixOrbitalApi.java:926-953 | appends the solid rectangle frame, or nothing off screen |
| Api.MatrixOrbitalApi.UpdateLed | src/com/simmetry/lcd/moapi/MatrixOrbitalApi.java:468-522 | appends the LED's frame for its current settings |
| Api.MatrixOrbitalApi.SetLedColor | src/com/simmetry/lcd/moapi/MatrixOrbitalApi.java:301-338 | new LED table and queued frames as `Leds.SetColor` |
| Api.MatrixOrbitalApi.SetOneLedColor | src/com/simmetry/lcd/moapi/MatrixOrbitalApi.java:305-322 | a single-LED case of `setLedColor` has the table and frames of `Leds.SetColor` |
| Api.MatrixOrbitalApi.GetLedColor | src/com/simmetry/lcd/moapi/MatrixOrbitalApi.java:345-362 | the LED's colour; ALL and NULL report LED one |
| Api.MatrixOrbitalApi.SetLedPower | src/com/simmetry/lcd/moapi/MatrixOrbitalApi.java:373-404 | new LED table and queued frames as `Leds.SetPower` |
| Api.MatrixOrbitalApi.GetLedPower | src/com/simmetry/lcd/moapi/MatrixOrbitalApi.java:411-428 | the LED's power; ALL and NULL report LED one |
| Api.MatrixOrbitalApi.SetLedFrequency | src/com/simmetry/lcd/moapi/MatrixOrbitalApi.java:439-460 | new LED table as `Leds.SetFrequency`; the queue is untouched |
| Api.MatrixOrbitalApi.SetRowText | src/com/simmetry/lcd/moapi/MatrixOrbitalApi.java:688-767 | false and nothing queued iff rejected; otherwise the frame is queued and true returned, or the copy throws and nothing is queued |
| Api.MatrixOrbitalApi.ClearRowText | src/com/simmetry/lcd/moapi/MatrixOrbitalApi.java:773-777 | appends the header and 27 spaces for any row |
| Api.MatrixOrbitalApi.AddListener | src/com/simmetry/lcd/moapi/MatrixOrbitalApi.java:1104-1108 | appends the listener |
| Api.MatrixOrbitalApi.RemoveListener | src/com/simmetry/lcd/moapi/MatrixOrbitalApi.java:1114-1117 | drops its first registration |
| Api.MatrixOrbitalApi.Notify | src/com/simmetry/lcd/moapi/MatrixOrbitalApi.java:1166-1177 | the listener loop makes exactly the calls of `Inbound.Broadcast` |
| Api.MatrixOrbitalApi.HandleByte | src/com/simmetry/lcd/moapi/MatrixOrbitalApi.java:1127-1178 | one polled byte has the effect `Inbound.DecodeAll` gives it |
| Api.MatrixOrbitalApi.ExecuteEventHandlers | src/com/simmetry/lcd/moapi/MatrixOrbitalApi.java:1123-1185 | the inbound queue is emptied with the flow state and listener calls of `Inbound.DecodeAll` |
| Api.MatrixOrbitalApi.ReadInbound | src/com/simmetry/lcd/moapi/MatrixOrbitalApi.java:1049-1063 | the bytes read are appended to the inbound queue, up to a failure |
| Api.MatrixOrbitalApi.DrainOutbound | src/com/simmetry/lcd/moapi/MatrixOrbitalApi.java:1068-1087 | the polling loop writes and removes exactly what `PollingLoop.Drain` says |
| Api.MatrixOrbitalApi.BlinkOne | src/com/simmetry/lcd/moapi/MatrixOrbitalApi.java:987-1004 | LED one's power, counter and frame follow `PollingLoop.BlinkLed` |
| Api.MatrixOrbitalApi.BlinkTwo | src/com/simmetry/lcd/moapi/MatrixOrbitalApi.java:1005-1022 | LED two's power, counter and frame follow `PollingLoop.BlinkLed` |
| Api.MatrixOrbitalApi.BlinkThree | src/com/simmetry/lcd/moapi/MatrixOrbitalApi.java:1023-1040 | LED three's power, counter and frame follow `PollingLoop.BlinkLed` |
| Api.MatrixOrbitalApi.BlinkStep | src/com/simmetry/lcd/moapi/MatrixOrbitalApi.java:985-1041 | the blink step of a tick is `PollingLoop.BlinkAll` |
| Api.MatrixOrbitalApi.Tick | src/com/simmetry/lcd/moapi/MatrixOrbitalApi.java:983-1089 | disconnected: nothing changes; connected: blink, read, decode, and drain under the decoded flow state, a failed read skipping the decode and the drain |
| Api.MatrixOrbitalApi.TickQueue | src/com/simmetry/lcd/moapi/MatrixOrbitalApi.java:983-1089 | when connected, the LEDs, counters and queued frames are those of `PollingLoop.BlinkAll`, and nothing changes otherwise; the tick writes at most 8 bytes, taken from the front of the queue after those frames |
| Api.MatrixOrbitalApi.Run | src/com/simmetry/lcd/moapi/MatrixOrbitalApi.java:964-1093 | over many ticks the LEDs end and the blink frames are as `PollingLoop.BlinkRun` gives them, and no byte is lost, invented or reordered: written bytes then the queue are the old queue then those frames |

## Left out

- Serial port and socket I/O: opening the port, `setSerialPortParams`, the streams, `available`, `read`, `write` and `flush` are I/O. `Connect` takes the outcome of opening the port and of the rate switch as parameters. A tick takes what it read as a `ReadResult`, and it returns the bytes it wrote.
- `IPconnect` and `IPdisconnect`: a development path over TCP. A write failure in the drain step calls `IPdisconnect`, and the model does not include that failure.
- The service thread, `Thread.sleep`, `synchronized`, and the thread-safety of the concurrent queue and of `Vector`: each method and each tick is one atomic sequential step. `Run` covers a finite run of ticks from zero counters, where the source runs forever.
- A listener that adds or removes listeners while it is being called: listeners are opaque ids, and the set `failing` says which ones throw.
- `setBrightness`, `saveBrightness`, `setContrast` and `saveContrast` compute their level byte in floating point.
- Logging through log4j.
- Api.MatrixOrbitalApi.Tick: the blink counters and frequencies are unbounded integers, so `int` overflow of a counter after about 2^31 ms is not modelled.
- Api.MatrixOrbitalApi.ReadInbound: the byte `(byte)read()` gives for an end-of-stream -1 is not modelled. The model reads only available bytes.
- RowText.CharByte: characters outside the Basic Multilingual Plane are one `char` here but two UTF-16 units in Java, so `text.length()` differs for them.
- `DrawingColor` is modelled as WHITE and one other value, because the API only tests for WHITE (`MatrixOrbitalApi.java:793-798`).
- `Rectangle.java` is unused by the API. `LcdButtonPressEvent` and its listener interface are wrappers, modelled by the button value and the listener id. `LcdInterfaceTest.java` is a hardware demo driver and is not part of this model.
- A `null` enum argument, which makes the Java `switch` throw a NullPointerException.
