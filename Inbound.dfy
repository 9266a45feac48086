// The inbound half of MatrixOrbitalApi.java: how `executeEventHandlers`
// decodes the bytes the display sends (flow-control sentinels and keypad
// codes), how a key press is broadcast to the registered listeners, and how
// the listener list is kept.
module Inbound {
  import opened Commands
  import opened Types

  /** A registered listener, compared by identity as `Vector.remove` does. */
  type ListenerId = nat

  /** What one inbound byte means. */
  datatype InboundByte = FlowStop | FlowResume | Key(button: LcdButton) | Stray

  /** The decoder's reading of one byte: 0xFE means the display's buffer is
      almost full, 0xFF that it is almost empty, and the seven keypad codes are
      the literals 65 to 72 without 70. Anything else is dropped. */
  function Classify(b: Byte): InboundByte {
    if b == 0xFE then FlowStop
    else if b == 0xFF then FlowResume
    else if b == 65 then Key(TopLeft)
    else if b == 66 then Key(Up)
    else if b == 67 then Key(LcdButton.Right)
    else if b == 68 then Key(LcdButton.Left)
    else if b == 69 then Key(LcdButton.Center)
    else if b == 71 then Key(BottomLeft)
    else if b == 72 then Key(Down)
    else Stray
  }

  /** The keypad code the command table gives for a button. */
  function ButtonCode(button: LcdButton): Byte
    requires button != LcdButton.Null
  {
    match button
    case Up => KEYPAD_UP_ARROW
    case Down => KEYPAD_DOWN_ARROW
    case Left => KEYPAD_LEFT_ARROW
    case Right => KEYPAD_RIGHT_ARROW
    case Center => KEYPAD_CENTER_BUTTON
    case TopLeft => KEYPAD_TOPLEFT_BUTTON
    case BottomLeft => KEYPAD_BOTTOMLEFT_BUTTON
  }

  /** The decoder's literals agree with the command table: a byte is read as a
      button exactly when it is that button's keypad code, and no keypad code is
      a flow-control sentinel. */
  lemma ClassifyKeypad(b: Byte, button: LcdButton)
    ensures Classify(b) == Key(button) <==> button != LcdButton.Null && b == ButtonCode(button)
    ensures Classify(b).Key? ==> Classify(b).button != LcdButton.Null
  {
  }

  /** One call of a listener's `lcdButtonPressAction`; `failed` records that
      it threw, which the decoder logs and swallows. */
  datatype Delivery = Delivery(listener: ListenerId, button: LcdButton, failed: bool)

  /** The calls one key press makes: every listener in registration order, a
      failing listener not stopping the ones after it. */
  function Broadcast(listeners: seq<ListenerId>, button: LcdButton, failing: set<ListenerId>): (ds: seq<Delivery>)
    ensures |ds| == |listeners|
    ensures forall i :: 0 <= i < |ds| ==> ds[i] == Delivery(listeners[i], button, listeners[i] in failing)
  {
    if listeners == [] then []
    else [Delivery(listeners[0], button, listeners[0] in failing)] + Broadcast(listeners[1..], button, failing)
  }

  /** The flow state and the listener calls after decoding a run of bytes. */
  datatype Decoded = Decoded(flowing: bool, delivered: seq<Delivery>)

  /** `executeEventHandlers`: take the bytes in arrival order, switch the flow
      state on a sentinel, broadcast a key press, drop anything else. */
  function DecodeAll(flowing: bool, bytes: seq<Byte>, listeners: seq<ListenerId>, failing: set<ListenerId>): Decoded
    decreases |bytes|
  {
    if bytes == [] then Decoded(flowing, [])
    else match Classify(bytes[0])
      case FlowStop => DecodeAll(false, bytes[1..], listeners, failing)
      case FlowResume => DecodeAll(true, bytes[1..], listeners, failing)
      case Key(button) =>
        var rest := DecodeAll(flowing, bytes[1..], listeners, failing);
        Decoded(rest.flowing, Broadcast(listeners, button, failing) + rest.delivered)
      case Stray => DecodeAll(flowing, bytes[1..], listeners, failing)
  }

  /** The last flow-control sentinel in a run of bytes, if any: true for 0xFF. */
  function LastSentinel(bytes: seq<Byte>): Option<bool> {
    if bytes == [] then None
    else
      var b := bytes[|bytes| - 1];
      if b == 0xFE then Some(false)
      else if b == 0xFF then Some(true)
      else LastSentinel(bytes[..|bytes| - 1])
  }

  /** Decoding a run of bytes in two parts is decoding the parts one after the
      other, from the flow state the first part leaves. */
  lemma {:induction false} DecodeAppend(flowing: bool, xs: seq<Byte>, ys: seq<Byte>, listeners: seq<ListenerId>, failing: set<ListenerId>)
    ensures var first := DecodeAll(flowing, xs, listeners, failing);
      var second := DecodeAll(first.flowing, ys, listeners, failing);
      DecodeAll(flowing, xs + ys, listeners, failing) == Decoded(second.flowing, first.delivered + second.delivered)
    decreases |xs|
  {
    if xs == [] {
      assert xs + ys == ys;
    } else {
      assert (xs + ys)[0] == xs[0];
      assert (xs + ys)[1..] == xs[1..] + ys;
      match Classify(xs[0])
      case FlowStop => DecodeAppend(false, xs[1..], ys, listeners, failing);
      case FlowResume => DecodeAppend(true, xs[1..], ys, listeners, failing);
      case Key(button) => DecodeAppend(flowing, xs[1..], ys, listeners, failing);
      case Stray => DecodeAppend(flowing, xs[1..], ys, listeners, failing);
    }
  }

  /** The flow state after decoding is set by the last sentinel received; with
      no sentinel it is what it was before. */
  lemma {:induction false} DecodeFlowLastSentinel(flowing: bool, bytes: seq<Byte>, listeners: seq<ListenerId>, failing: set<ListenerId>)
    ensures DecodeAll(flowing, bytes, listeners, failing).flowing
      == match LastSentinel(bytes) case None => flowing case Some(f) => f
    decreases |bytes|
  {
    if bytes != [] {
      var init := bytes[..|bytes| - 1];
      var last := bytes[|bytes| - 1];
      assert bytes == init + [last];
      DecodeAppend(flowing, init, [last], listeners, failing);
      DecodeFlowLastSentinel(flowing, init, listeners, failing);
      assert [last][1..] == [];
    }
  }

  /** The key presses in a run of bytes, in arrival order. */
  function Buttons(bytes: seq<Byte>): (bs: seq<LcdButton>)
    ensures |bs| <= |bytes|
    ensures forall k :: 0 <= k < |bs| ==> bs[k] != LcdButton.Null
  {
    if bytes == [] then []
    else match Classify(bytes[0])
      case Key(button) => [button] + Buttons(bytes[1..])
      case _ => Buttons(bytes[1..])
  }

  /** Every key press broadcast in turn. */
  function BroadcastAll(listeners: seq<ListenerId>, buttons: seq<LcdButton>, failing: set<ListenerId>): (ds: seq<Delivery>)
    ensures |ds| == Rows(|buttons|, |listeners|)
  {
    if buttons == [] then []
    else Broadcast(listeners, buttons[0], failing) + BroadcastAll(listeners, buttons[1..], failing)
  }

  /** k rows of n, counted one row at a time. */
  function Rows(k: nat, n: nat): nat {
    if k == 0 then 0 else n + Rows(k - 1, n)
  }

  /** The listener calls decoding makes do not depend on the flow state, and are
      each key press broadcast in arrival order. */
  lemma {:induction false} DecodeDeliveries(flowing: bool, bytes: seq<Byte>, listeners: seq<ListenerId>, failing: set<ListenerId>)
    ensures DecodeAll(flowing, bytes, listeners, failing).delivered == BroadcastAll(listeners, Buttons(bytes), failing)
    decreases |bytes|
  {
    if bytes != [] {
      match Classify(bytes[0])
      case FlowStop => DecodeDeliveries(false, bytes[1..], listeners, failing);
      case FlowResume => DecodeDeliveries(true, bytes[1..], listeners, failing);
      case Key(button) =>
        DecodeDeliveries(flowing, bytes[1..], listeners, failing);
        assert ([button] + Buttons(bytes[1..]))[1..] == Buttons(bytes[1..]);
      case Stray => DecodeDeliveries(flowing, bytes[1..], listeners, failing);
    }
  }

  /** Press k reaches listener i after k full rounds of the listeners. */
  lemma {:induction false} BroadcastAllAt(listeners: seq<ListenerId>, buttons: seq<LcdButton>, failing: set<ListenerId>, k: nat, i: nat)
    requires k < |buttons| && i < |listeners|
    ensures Rows(k, |listeners|) + i < |BroadcastAll(listeners, buttons, failing)|
    ensures BroadcastAll(listeners, buttons, failing)[Rows(k, |listeners|) + i]
      == Delivery(listeners[i], buttons[k], listeners[i] in failing)
    decreases k
  {
    var head := Broadcast(listeners, buttons[0], failing);
    var tail := BroadcastAll(listeners, buttons[1..], failing);
    assert BroadcastAll(listeners, buttons, failing) == head + tail;
    if k > 0 {
      BroadcastAllAt(listeners, buttons[1..], failing, k - 1, i);
    }
  }

  lemma {:induction false} RowsProduct(k: nat, n: nat)
    ensures Rows(k, n) == k * n
    decreases k
  {
    if k > 0 {
      RowsProduct(k - 1, n);
      assert k * n == (k - 1) * n + n;
    }
  }

  /** Where each call lands in the broadcast of several key presses: every
      press reaches every listener, and press k reaches listener i at position
      k * |listeners| + i. */
  lemma BroadcastAllIndex(listeners: seq<ListenerId>, buttons: seq<LcdButton>, failing: set<ListenerId>, k: nat, i: nat)
    requires k < |buttons| && i < |listeners|
    ensures |BroadcastAll(listeners, buttons, failing)| == |buttons| * |listeners|
    ensures k * |listeners| + i < |BroadcastAll(listeners, buttons, failing)|
    ensures BroadcastAll(listeners, buttons, failing)[k * |listeners| + i]
      == Delivery(listeners[i], buttons[k], listeners[i] in failing)
  {
    BroadcastAllAt(listeners, buttons, failing, k, i);
    RowsProduct(k, |listeners|);
    RowsProduct(|buttons|, |listeners|);
  }

  /** `Vector.remove`: drop the first occurrence, if there is one. */
  function RemoveFirst(s: seq<ListenerId>, x: ListenerId): (r: seq<ListenerId>)
    ensures x !in s ==> r == s
  {
    if s == [] then []
    else if s[0] == x then s[1..]
    else [s[0]] + RemoveFirst(s[1..], x)
  }

  /** Removal takes away exactly one registration of the listener when there
      is one, and no other registration. */
  lemma {:induction false} RemoveFirstCounts(s: seq<ListenerId>, x: ListenerId)
    ensures x in s ==> |RemoveFirst(s, x)| == |s| - 1
    ensures multiset(RemoveFirst(s, x)) == multiset(s) - multiset{x}
    decreases |s|
  {
    if s != [] {
      var t := s[1..];
      assert s == [s[0]] + t;
      assert multiset(s) == multiset{s[0]} + multiset(t);
      if s[0] == x {
        assert RemoveFirst(s, x) == t;
      } else {
        RemoveFirstCounts(t, x);
        assert RemoveFirst(s, x) == [s[0]] + RemoveFirst(t, x);
        assert x in s ==> x in t;
      }
    }
  }

  /** Removing the first occurrence keeps everything before it and everything
      after it, in order. */
  lemma {:induction false} RemoveFirstSplits(s: seq<ListenerId>, x: ListenerId, i: nat)
    requires i < |s| && s[i] == x && x !in s[..i]
    ensures RemoveFirst(s, x) == s[..i] + s[i + 1..]
  {
    if i == 0 {
      assert s[..0] + s[1..] == s[1..];
    } else {
      var t := s[1..];
      assert s[..i] == [s[0]] + t[..i - 1];
      assert s[0] != x && x !in t[..i - 1];
      RemoveFirstSplits(t, x, i - 1);
      assert RemoveFirst(s, x) == [s[0]] + (t[..i - 1] + t[i..]);
      assert t[i..] == s[i + 1..];
    }
  }

  /** Registering a listener that was not registered and removing it again
      restores the list. */
  lemma {:induction false} RemoveAfterAdd(s: seq<ListenerId>, x: ListenerId)
    requires x !in s
    ensures RemoveFirst(s + [x], x) == s
  {
    RemoveFirstSplits(s + [x], x, |s|);
    assert (s + [x])[..|s|] == s;
  }
}
