// The periodic work of `MatrixOrbitalApi.run`: every tick of 4 ms the loop
// steps each LED's blink counter, then decodes what the display sent, then
// writes at most eight queued bytes when flow control allows it. The reading
// and the class state live in Api.dfy; this module holds the pure step
// functions and what they promise over many ticks.
module PollingLoop {
  import opened Commands
  import opened Types
  import opened Leds

  /** The loop sleeps this many milliseconds per tick, and every blink counter
      that does not fire advances by the same amount. */
  const TICK_MILLIS := 4

  /** At most this many queued bytes are written per tick. */
  const DRAIN_LIMIT := 8

  // ---------------------------------------------------------------- blinking

  /** The blink counters of LEDs one, two and three: locals of the loop,
      zero when it starts. */
  datatype BlinkCounters = BlinkCounters(one: int, two: int, three: int)

  const INITIAL_COUNTERS := BlinkCounters(0, 0, 0)

  /** A blink toggle: ON goes OFF, and anything else (OFF, NULL) goes ON. */
  function Toggle(p: LedPower): (q: LedPower)
    ensures q != LedPower.Null && q != p
  {
    if p == On then LedPower.Off else On
  }

  /** Toggling twice restores a power that was ON or OFF. */
  lemma ToggleTwice(p: LedPower)
    requires p != LedPower.Null
    ensures Toggle(Toggle(p)) == p
  {
  }

  /** One LED's power and counter after one tick, and whether it toggled (and
      so queued its frame). */
  datatype Blink = Blink(power: LedPower, counter: int, toggled: bool)

  /** One tick of one LED. Only a positive frequency blinks; the counter fires
      once it has passed the frequency, and then restarts at 0. */
  function BlinkLed(freq: int, power: LedPower, counter: int): Blink {
    if freq > 0 then
      if counter > freq then Blink(Toggle(power), 0, true)
      else Blink(power, counter + TICK_MILLIS, false)
    else Blink(power, counter, false)
  }

  /** One LED's power and counter. */
  datatype LedClock = LedClock(power: LedPower, counter: int)

  /** One LED after n ticks at a fixed frequency. */
  function BlinkTicks(freq: int, power: LedPower, counter: int, n: nat): LedClock
    decreases n
  {
    if n == 0 then LedClock(power, counter)
    else
      var b := BlinkLed(freq, power, counter);
      BlinkTicks(freq, b.power, b.counter, n - 1)
  }

  /** m ticks and then n ticks are m + n ticks. */
  lemma {:induction false} BlinkTicksAdd(freq: int, power: LedPower, counter: int, m: nat, n: nat)
    ensures var mid := BlinkTicks(freq, power, counter, m);
      BlinkTicks(freq, power, counter, m + n) == BlinkTicks(freq, mid.power, mid.counter, n)
    decreases m
  {
    if m > 0 {
      var b := BlinkLed(freq, power, counter);
      BlinkTicksAdd(freq, b.power, b.counter, m - 1, n);
    }
  }

  /** A frequency of zero or less leaves the LED steady and its counter alone,
      however many ticks pass. */
  lemma {:induction false} SteadyWithoutFrequency(freq: int, power: LedPower, counter: int, n: nat)
    requires freq <= 0
    ensures BlinkTicks(freq, power, counter, n) == LedClock(power, counter)
    decreases n
  {
    if n > 0 {
      SteadyWithoutFrequency(freq, power, counter, n - 1);
    }
  }

  /** The number of ticks from a counter of 0 to the tick that toggles. */
  function BlinkPeriod(freq: int): nat
    requires freq > 0
  {
    freq / TICK_MILLIS + 2
  }

  /** From a counter of 0 the counter climbs by 4 a tick without toggling while
      it has not passed the frequency. */
  lemma {:induction false} BlinkRamp(freq: int, power: LedPower, n: nat)
    requires freq > 0 && n < BlinkPeriod(freq)
    ensures BlinkTicks(freq, power, 0, n) == LedClock(power, TICK_MILLIS * n)
    decreases n
  {
    if n > 0 {
      BlinkRamp(freq, power, n - 1);
      BlinkTicksAdd(freq, power, 0, n - 1, 1);
      assert TICK_MILLIS * (n - 1) <= freq;
    }
  }

  /** From a counter of 0 the LED keeps its power for freq / 4 + 1 ticks,
      toggles on the next one, and is back at a counter of 0: it changes state
      every freq / 4 + 2 ticks, that is about every freq + 8 milliseconds. */
  lemma BlinkToggles(freq: int, power: LedPower)
    requires freq > 0
    ensures forall n :: 0 <= n < BlinkPeriod(freq) ==> BlinkTicks(freq, power, 0, n).power == power
    ensures BlinkTicks(freq, power, 0, BlinkPeriod(freq)) == LedClock(Toggle(power), 0)
  {
    forall n | 0 <= n < BlinkPeriod(freq)
      ensures BlinkTicks(freq, power, 0, n).power == power
    {
      BlinkRamp(freq, power, n);
    }
    var k := BlinkPeriod(freq) - 1;
    BlinkRamp(freq, power, k);
    BlinkTicksAdd(freq, power, 0, k, 1);
  }

  /** A blinking LED that was ON or OFF is back where it started after two
      toggles. */
  lemma BlinkCycle(freq: int, power: LedPower)
    requires freq > 0 && power != LedPower.Null
    ensures BlinkTicks(freq, power, 0, 2 * BlinkPeriod(freq)) == LedClock(power, 0)
  {
    var p := BlinkPeriod(freq);
    BlinkToggles(freq, power);
    BlinkToggles(freq, Toggle(power));
    BlinkTicksAdd(freq, power, 0, p, p);
    ToggleTwice(power);
  }

  /** The LED table, the counters and the frames queued after one tick's blink
      step. */
  datatype BlinkOutcome = BlinkOutcome(table: LedTable, counters: BlinkCounters, frames: seq<Byte>)

  /** The blink step of one tick: LEDs one, two and three in that order, each
      toggled LED queuing its frame with its new power. */
  function BlinkAll(t: LedTable, c: BlinkCounters): BlinkOutcome {
    var b1 := BlinkLed(t.one.freq, t.one.power, c.one);
    var t1 := t.(one := t.one.(power := b1.power));
    var f1 := if b1.toggled then UpdateFrame(t1, One) else [];
    var b2 := BlinkLed(t1.two.freq, t1.two.power, c.two);
    var t2 := t1.(two := t1.two.(power := b2.power));
    var f2 := if b2.toggled then UpdateFrame(t2, Two) else [];
    var b3 := BlinkLed(t2.three.freq, t2.three.power, c.three);
    var t3 := t2.(three := t2.three.(power := b3.power));
    var f3 := if b3.toggled then UpdateFrame(t3, Three) else [];
    BlinkOutcome(t3, BlinkCounters(b1.counter, b2.counter, b3.counter), f1 + f2 + f3)
  }

  /** The frame a blink step queues for one LED. */
  function BlinkFrame(led: LedNumber, s: LedState, b: Blink): seq<Byte> {
    if b.toggled then LedFrame(led, s.color, b.power) else []
  }

  /** The LEDs blink independently: each one's power and counter move by its
      own frequency alone, colours and frequencies stay, and each toggled LED's
      frame shows its colour with its new power, in the order ONE, TWO, THREE. */
  lemma BlinkAllEffect(t: LedTable, c: BlinkCounters)
    ensures var o := BlinkAll(t, c);
      var b1 := BlinkLed(t.one.freq, t.one.power, c.one);
      var b2 := BlinkLed(t.two.freq, t.two.power, c.two);
      var b3 := BlinkLed(t.three.freq, t.three.power, c.three);
      && o.table == LedTable(t.one.(power := b1.power), t.two.(power := b2.power), t.three.(power := b3.power))
      && o.counters == BlinkCounters(b1.counter, b2.counter, b3.counter)
      && o.frames == BlinkFrame(One, t.one, b1) + BlinkFrame(Two, t.two, b2) + BlinkFrame(Three, t.three, b3)
  {
  }

  /** With no LED blinking a tick changes no LED and queues nothing. */
  lemma BlinkAllSteady(t: LedTable, c: BlinkCounters)
    requires t.one.freq <= 0 && t.two.freq <= 0 && t.three.freq <= 0
    ensures BlinkAll(t, c) == BlinkOutcome(t, c, [])
  {
  }

  /** The blink steps of n ticks in a row, each from the table and counters
      the previous one left, with their frames in tick order. */
  function BlinkRun(t: LedTable, c: BlinkCounters, n: nat): BlinkOutcome
    decreases n
  {
    if n == 0 then BlinkOutcome(t, c, [])
    else
      var r := BlinkRun(t, c, n - 1);
      var o := BlinkAll(r.table, r.counters);
      BlinkOutcome(o.table, o.counters, r.frames + o.frames)
  }

  /** Over many ticks each LED still blinks on its own: its power and counter
      are those of n ticks of its own frequency, and its colour and frequency
      do not change. */
  lemma {:induction false} BlinkRunPerLed(t: LedTable, c: BlinkCounters, n: nat)
    ensures var r := BlinkRun(t, c, n);
      var one := BlinkTicks(t.one.freq, t.one.power, c.one, n);
      var two := BlinkTicks(t.two.freq, t.two.power, c.two, n);
      var three := BlinkTicks(t.three.freq, t.three.power, c.three, n);
      && r.table == LedTable(t.one.(power := one.power), t.two.(power := two.power), t.three.(power := three.power))
      && r.counters == BlinkCounters(one.counter, two.counter, three.counter)
    decreases n
  {
    if n > 0 {
      var r := BlinkRun(t, c, n - 1);
      BlinkRunPerLed(t, c, n - 1);
      BlinkAllEffect(r.table, r.counters);
      BlinkTicksAdd(t.one.freq, t.one.power, c.one, n - 1, 1);
      BlinkTicksAdd(t.two.freq, t.two.power, c.two, n - 1, 1);
      BlinkTicksAdd(t.three.freq, t.three.power, c.three, n - 1, 1);
    }
  }

  /** With no LED blinking, no tick changes an LED or queues a frame. */
  lemma {:induction false} BlinkRunSteady(t: LedTable, c: BlinkCounters, n: nat)
    requires t.one.freq <= 0 && t.two.freq <= 0 && t.three.freq <= 0
    ensures BlinkRun(t, c, n) == BlinkOutcome(t, c, [])
    decreases n
  {
    if n > 0 {
      BlinkRunSteady(t, c, n - 1);
      BlinkAllSteady(t, c);
    }
  }

  // ---------------------------------------------------------------- writing

  /** The bytes one tick writes, and the queue left behind. */
  datatype Drained = Drained(written: seq<Byte>, remaining: seq<Byte>)

  function Min(a: int, b: int): int {
    if a < b then a else b
  }

  /** The write step of one tick: when the display allows data, the oldest
      min(8, n) queued bytes are written in queue order; otherwise nothing is. */
  function Drain(flowing: bool, queue: seq<Byte>): (d: Drained)
    ensures d.written + d.remaining == queue
    ensures flowing ==> |d.written| == Min(DRAIN_LIMIT, |queue|)
    ensures !flowing ==> d.written == []
  {
    if flowing && queue != [] then
      var n := if |queue| < DRAIN_LIMIT then |queue| else DRAIN_LIMIT;
      Drained(queue[..n], queue[n..])
    else Drained([], queue)
  }

  /** Twenty queued bytes: eight written in a tick, twelve left. */
  lemma DrainTwenty(queue: seq<Byte>)
    requires |queue| == 20
    ensures Drain(true, queue) == Drained(queue[..8], queue[8..])
    ensures |Drain(true, queue).remaining| == 12
  {
  }

  /** The bytes written over n ticks in which the display allows data and
      nothing new is queued. */
  function DrainTicks(queue: seq<Byte>, n: nat): seq<Byte>
    decreases n
  {
    if n == 0 then []
    else
      var d := Drain(true, queue);
      d.written + DrainTicks(d.remaining, n - 1)
  }

  /** Over n such ticks the first min(8n, |queue|) bytes are written, in
      queue order; a queue of k bytes is empty after ceil(k / 8) ticks. */
  lemma {:induction false} DrainTicksPrefix(queue: seq<Byte>, n: nat)
    ensures DrainTicks(queue, n) == queue[..Min(DRAIN_LIMIT * n, |queue|)]
    ensures n >= (|queue| + DRAIN_LIMIT - 1) / DRAIN_LIMIT ==> DrainTicks(queue, n) == queue
    decreases n
  {
    if n > 0 {
      var d := Drain(true, queue);
      DrainTicksPrefix(d.remaining, n - 1);
      var k := Min(DRAIN_LIMIT, |queue|);
      assert d.written == queue[..k] && d.remaining == queue[k..];
      assert queue[k..][..Min(DRAIN_LIMIT * (n - 1), |queue| - k)] == queue[k..Min(DRAIN_LIMIT * n, |queue|)];
      assert queue[..Min(DRAIN_LIMIT * n, |queue|)] == queue[..k] + queue[k..Min(DRAIN_LIMIT * n, |queue|)];
    }
    if n >= (|queue| + DRAIN_LIMIT - 1) / DRAIN_LIMIT {
      assert DRAIN_LIMIT * n >= |queue|;
      assert queue[..|queue|] == queue;
    }
  }
}
