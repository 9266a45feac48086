// The row text command of MatrixOrbitalApi.java (`setRowText`, `clearRowText`):
// the acceptance guard, the column an alignment gives, and the frame that is
// built in a byte array and then queued.
module RowText {
  import opened Commands
  import opened Specifications
  import opened Types

  /** The byte `(byte)' '` that fills a cleared row. */
  const SPACE: Byte := 0x20

  /** The guard as written: it rejects only a row outside 1..7 whose text is also
      longer than a row. Row 8 with short text, and long text on a valid row,
      both pass. */
  predicate Accepted(row: int, len: int) {
    !(row < FIRST_LCD_ROW || row > LAST_LCD_ROW) || !(len > ROW_LENGTH)
  }

  /** Java's `/` on `int`: the quotient rounds toward zero, so the remainder
      has the sign of the dividend and is smaller than the divisor. */
  function JavaDiv(a: int, d: int): (q: int)
    requires d > 0
    ensures 0 <= a ==> 0 <= a - q * d < d
    ensures a < 0 ==> -d < a - q * d <= 0
  {
    if a >= 0 then a / d else -((-a) / d)
  }

  /** The starting column the alignment gives text of length `len`; the NULL
      alignment matches no case and leaves column 0. */
  function Column(alignment: TextAlignment, len: int): int {
    match alignment
    case Left => 1
    case Right => (ROW_LENGTH - len) + 1
    case Center => JavaDiv(ROW_LENGTH - len, 2) + 1
    case Null => 0
  }

  /** Index in the frame of the first text byte: after the four header bytes, and
      in a cleared row shifted to the column. */
  function TextStart(column: int, clearRow: bool): int {
    if clearRow then (column - 1) + 4 else 4
  }

  /** A cleared row spans the whole row; otherwise the frame is as long as the
      text, even when that is longer than a row. */
  function FrameLength(len: nat, clearRow: bool): nat {
    if clearRow then ROW_LENGTH + 4 else len + 4
  }

  /** At most one row of text is copied. */
  function CopyLength(len: nat): nat {
    if len > ROW_LENGTH then ROW_LENGTH else len
  }

  /** `(byte)c`: the low eight bits of the character. */
  function CharByte(c: char): Byte {
    ToByte(c as int)
  }

  function TextBytes(text: string): (bytes: seq<Byte>)
    ensures |bytes| == |text|
    ensures forall i :: 0 <= i < |text| ==> bytes[i] == CharByte(text[i])
  {
    seq(|text|, i requires 0 <= i < |text| => CharByte(text[i]))
  }

  /** The copy loop stores first at TextStart: when that is negative and there is
      text to copy, the very first store is out of bounds and throws. */
  predicate CopyThrows(text: string, alignment: TextAlignment, clearRow: bool) {
    TextStart(Column(alignment, |text|), clearRow) < 0 && CopyLength(|text|) > 0
  }

  /** The copy never runs past the end of the frame, whatever the alignment and
      length: only the negative start can throw. */
  lemma CopyWithinFrame(len: nat, alignment: TextAlignment, clearRow: bool)
    ensures TextStart(Column(alignment, len), clearRow) + CopyLength(len) <= FrameLength(len, clearRow)
  {
    if clearRow && alignment == TextAlignment.Center {
      if len <= ROW_LENGTH {
        assert JavaDiv(ROW_LENGTH - len, 2) <= ROW_LENGTH - len;
      } else {
        assert JavaDiv(ROW_LENGTH - len, 2) <= 0;
      }
    }
  }

  /** A header or filler byte: every frame position the text does not cover. */
  function FillByte(k: int, row: int, column: int, clearRow: bool): Byte {
    if k == 0 then START_BYTE
    else if k == 1 then SET_CURSOR
    else if k == 2 then (if clearRow then 1 else ToByte(column))
    else if k == 3 then ToByte(row)
    else if clearRow then SPACE
    else 0
  }

  /** The frame `setRowText` queues when nothing throws: header and filler, with
      the text copied over them from TextStart. Text copied into a cleared row at
      a start below 4 overwrites header bytes. */
  function RowTextFrame(row: int, text: string, alignment: TextAlignment, clearRow: bool): (frame: seq<Byte>)
    requires !CopyThrows(text, alignment, clearRow)
    ensures |frame| == FrameLength(|text|, clearRow)
  {
    var column := Column(alignment, |text|);
    var start := TextStart(column, clearRow);
    var stop := start + CopyLength(|text|);
    seq(FrameLength(|text|, clearRow), k =>
      if start <= k < stop then CharByte(text[k - start]) else FillByte(k, row, column, clearRow))
  }

  /** The frame, or the array index at which building it threw. */
  datatype FrameResult = Built(frame: seq<Byte>) | IndexOutOfBounds(index: int)

  /** The array `setRowText` allocates: Java zero-fills it, and a cleared row is
      then filled with spaces. */
  method NewRowBuffer(len: nat, clearRow: bool) returns (b: array<Byte>)
    ensures fresh(b) && b.Length == FrameLength(len, clearRow)
    ensures forall k :: 4 <= k < b.Length ==> b[k] == FillByte(k, 0, 0, clearRow)
  {
    if clearRow {
      b := new Byte[ROW_LENGTH + 4](_ => 0);
      for i := 0 to b.Length
        invariant forall k :: 0 <= k < i ==> b[k] == SPACE
      {
        b[i] := SPACE;
      }
    } else {
      b := new Byte[len + 4](_ => 0);
    }
  }

  /** Build the frame as `setRowText` does, in a byte array: fill, write the
      header, copy the text. */
  method BuildRowTextFrame(row: int, text: string, alignment: TextAlignment, clearRow: bool)
    returns (r: FrameResult)
    ensures CopyThrows(text, alignment, clearRow) ==>
      r == IndexOutOfBounds(TextStart(Column(alignment, |text|), clearRow))
    ensures !CopyThrows(text, alignment, clearRow) ==> r == Built(RowTextFrame(row, text, alignment, clearRow))
  {
    var column := Column(alignment, |text|);
    var b := NewRowBuffer(|text|, clearRow);
    var startText := if clearRow then (column - 1) + 4 else 4;
    b[0] := START_BYTE;
    b[1] := SET_CURSOR;
    if clearRow {
      b[2] := 1;
    } else {
      b[2] := ToByte(column);
    }
    b[3] := ToByte(row);

    var stopText := startText + |text|;
    if stopText > startText + ROW_LENGTH {
      stopText := startText + ROW_LENGTH;
    }
    // The copy loop's first store is at startText.
    if startText < stopText && startText < 0 {
      return IndexOutOfBounds(startText);
    }
    CopyWithinFrame(|text|, alignment, clearRow);
    for i := startText to stopText
      invariant forall k :: 0 <= k < b.Length ==>
        b[k] == if startText <= k < i then CharByte(text[k - startText]) else FillByte(k, row, column, clearRow)
    {
      b[i] := CharByte(text[i - startText]);
    }
    assert b[..] == RowTextFrame(row, text, alignment, clearRow);
    r := Built(b[..]);
  }

  /** Which inputs make `setRowText` throw: only long text in a cleared row,
      placed right-aligned beyond 31 characters or centred from 37 on. */
  lemma ThrowsOnlyForLongClearedRows(text: string, alignment: TextAlignment, clearRow: bool)
    ensures CopyThrows(text, alignment, clearRow) <==>
      clearRow && ((alignment == TextAlignment.Right && |text| > 31) || (alignment == TextAlignment.Center && |text| >= 37))
  {
    if clearRow && alignment == TextAlignment.Center && |text| > ROW_LENGTH {
      var a := ROW_LENGTH - |text|;
      assert JavaDiv(a, 2) == -((-a) / 2);
    }
  }

  /** For text that fits a row, a real alignment puts the whole text inside the
      row: LEFT flush left, RIGHT flush right, CENTER with margins that differ by
      at most one, the extra space on the right. */
  lemma ColumnPlacesText(alignment: TextAlignment, len: nat)
    requires alignment != TextAlignment.Null && len <= ROW_LENGTH
    ensures var column := Column(alignment, len);
      var leftMargin := column - 1;
      var rightMargin := ROW_LENGTH - (column - 1 + len);
      && 0 <= leftMargin && 0 <= rightMargin
      && (alignment == TextAlignment.Left ==> leftMargin == 0)
      && (alignment == TextAlignment.Right ==> rightMargin == 0)
      && (alignment == TextAlignment.Center ==> leftMargin <= rightMargin <= leftMargin + 1)
  {
  }

  /** The example of centring "Testing" on a 27-character row: column 11. */
  lemma CenterExample()
    ensures Column(TextAlignment.Center, |"Testing"|) == 11
  {
  }

  function Repeat(b: Byte, n: nat): (s: seq<Byte>)
    ensures |s| == n && forall i :: 0 <= i < n ==> s[i] == b
  {
    seq(n, _ => b)
  }

  /** The column is a real one (1 or more) for LEFT at any length, RIGHT up
      to one row and CENTER up to one row and one character. */
  lemma ColumnAtLeastOne(alignment: TextAlignment, len: nat)
    ensures Column(alignment, len) >= 1 <==>
      alignment == TextAlignment.Left
      || (alignment == TextAlignment.Right && len <= ROW_LENGTH)
      || (alignment == TextAlignment.Center && len <= ROW_LENGTH + 1)
  {
    if alignment == TextAlignment.Center && len > ROW_LENGTH {
      assert JavaDiv(ROW_LENGTH - len, 2) == -((len - ROW_LENGTH) / 2);
    }
  }

  /** A cleared row whose text starts at a real column: the header with column
      byte 1, spaces up to the column, at most one row of text, and spaces to
      the end of the row. Longer text is cut at 27 characters. */
  lemma ClearedRowLayout(row: int, text: string, alignment: TextAlignment)
    requires Column(alignment, |text|) >= 1
    ensures var column := Column(alignment, |text|);
      var n := CopyLength(|text|);
      && !CopyThrows(text, alignment, true)
      && (column - 1) + n <= ROW_LENGTH
      && RowTextFrame(row, text, alignment, true)
        == [START_BYTE, SET_CURSOR, 1, ToByte(row)]
           + Repeat(SPACE, column - 1) + TextBytes(text[..n]) + Repeat(SPACE, ROW_LENGTH - (column - 1) - n)
  {
    CopyWithinFrame(|text|, alignment, true);
    var column := Column(alignment, |text|);
    var n := CopyLength(|text|);
    var frame := RowTextFrame(row, text, alignment, true);
    var layout := [START_BYTE, SET_CURSOR, 1, ToByte(row)]
      + Repeat(SPACE, column - 1) + TextBytes(text[..n]) + Repeat(SPACE, ROW_LENGTH - (column - 1) - n);
    assert |frame| == |layout|;
    forall k | 0 <= k < |frame| ensures frame[k] == layout[k] {
      if k >= 4 && k < column + 3 {
        assert layout[k] == Repeat(SPACE, column - 1)[k - 4];
      } else if column + 3 <= k < column + 3 + n {
        assert layout[k] == TextBytes(text[..n])[k - column - 3];
      } else if k >= column + 3 + n {
        assert layout[k] == Repeat(SPACE, ROW_LENGTH - (column - 1) - n)[k - column - 3 - n];
      }
    }
  }

  /** Without clearing, the frame carries the column byte (wrapped to a byte,
      so 0 for NULL and a wrapped negative for long right-aligned text), then one
      row of text, then zeros for the rest of an overlong text. */
  lemma OverwriteLayout(row: int, text: string, alignment: TextAlignment)
    ensures !CopyThrows(text, alignment, false)
    ensures var n := CopyLength(|text|);
      RowTextFrame(row, text, alignment, false)
        == [START_BYTE, SET_CURSOR, ToByte(Column(alignment, |text|)), ToByte(row)]
           + TextBytes(text[..n]) + Repeat(0, |text| - n)
  {
    var n := CopyLength(|text|);
    var frame := RowTextFrame(row, text, alignment, false);
    var layout := [START_BYTE, SET_CURSOR, ToByte(Column(alignment, |text|)), ToByte(row)]
      + TextBytes(text[..n]) + Repeat(0, |text| - n);
    assert |frame| == |layout|;
    forall k | 0 <= k < |frame| ensures frame[k] == layout[k] {
      if 4 <= k < 4 + n {
        assert layout[k] == TextBytes(text[..n])[k - 4];
      } else if k >= 4 + n {
        assert layout[k] == Repeat(0, |text| - n)[k - 4 - n];
      }
    }
  }

  /** Long text in a cleared row can start inside the header: right-aligned
      text of 28 to 31 characters is copied from index 31 - len, over the header
      bytes, so the frame keeps only the header bytes before that index, then one
      row of text, then len - 27 spaces. */
  lemma LongTextOverwritesHeader(row: int, text: string)
    requires 28 <= |text| <= 31
    ensures var start := 31 - |text|;
      var frame := RowTextFrame(row, text, TextAlignment.Right, true);
      && !CopyThrows(text, TextAlignment.Right, true)
      && 0 <= start < 4
      && frame[..start] == [START_BYTE, SET_CURSOR, 1, ToByte(row)][..start]
      && frame[start..start + ROW_LENGTH] == TextBytes(text[..ROW_LENGTH])
      && frame[start + ROW_LENGTH..] == Repeat(SPACE, |text| - ROW_LENGTH)
  {
    var start := 31 - |text|;
    var frame := RowTextFrame(row, text, TextAlignment.Right, true);
    assert TextStart(Column(TextAlignment.Right, |text|), true) == start;
    var header := [START_BYTE, SET_CURSOR, 1, ToByte(row)];
    forall k | 0 <= k < start ensures frame[..start][k] == header[..start][k] {
      assert frame[k] == FillByte(k, row, Column(TextAlignment.Right, |text|), true);
    }
    forall k | 0 <= k < ROW_LENGTH ensures frame[start..start + ROW_LENGTH][k] == TextBytes(text[..ROW_LENGTH])[k] {
      assert frame[start + k] == CharByte(text[k]);
    }
    var tail := frame[start + ROW_LENGTH..];
    var spaces := Repeat(SPACE, |text| - ROW_LENGTH);
    forall k | 0 <= k < |spaces| ensures tail[k] == spaces[k] {
      assert frame[start + ROW_LENGTH + k] == SPACE;
    }
  }

  /** The NULL alignment leaves column 0, so in a cleared row the copy starts
      at index 3: even one character replaces the row byte, the frame keeps
      only three header bytes, and spaces fill the rest of the row. */
  lemma ClearedRowNullLayout(row: int, text: string)
    requires |text| >= 1
    ensures var n := CopyLength(|text|);
      && !CopyThrows(text, TextAlignment.Null, true)
      && n <= 27
      && RowTextFrame(row, text, TextAlignment.Null, true)
        == [START_BYTE, SET_CURSOR, 1] + TextBytes(text[..n]) + Repeat(SPACE, 28 - n)
  {
    var n := CopyLength(|text|);
    var frame := RowTextFrame(row, text, TextAlignment.Null, true);
    var layout := [START_BYTE, SET_CURSOR, 1] + TextBytes(text[..n]) + Repeat(SPACE, 28 - n);
    assert TextStart(Column(TextAlignment.Null, |text|), true) == 3;
    assert |frame| == |layout|;
    forall k | 0 <= k < |frame| ensures frame[k] == layout[k] {
      if 3 <= k < 3 + n {
        assert layout[k] == TextBytes(text[..n])[k - 3];
      } else if k >= 3 + n {
        assert layout[k] == Repeat(SPACE, 28 - n)[k - 3 - n];
      }
    }
  }

  /** Centred text of 29 to 36 characters in a cleared row starts at index
      4 - (len - 27) / 2, from 3 down to 0: the header bytes before that start
      survive, one row of text follows over the rest of the header, and spaces
      fill what is left. */
  lemma LongCenteredOverwritesHeader(row: int, text: string)
    requires 29 <= |text| <= 36
    ensures var start := 4 - (|text| - ROW_LENGTH) / 2;
      var frame := RowTextFrame(row, text, TextAlignment.Center, true);
      && !CopyThrows(text, TextAlignment.Center, true)
      && 0 <= start < 4
      && frame[..start] == [START_BYTE, SET_CURSOR, 1, ToByte(row)][..start]
      && frame[start..start + ROW_LENGTH] == TextBytes(text[..ROW_LENGTH])
      && frame[start + ROW_LENGTH..] == Repeat(SPACE, 4 - start)
  {
    var start := 4 - (|text| - ROW_LENGTH) / 2;
    assert JavaDiv(ROW_LENGTH - |text|, 2) == -((|text| - ROW_LENGTH) / 2);
    assert TextStart(Column(TextAlignment.Center, |text|), true) == start;
    var frame := RowTextFrame(row, text, TextAlignment.Center, true);
    var header := [START_BYTE, SET_CURSOR, 1, ToByte(row)];
    forall k | 0 <= k < start ensures frame[..start][k] == header[..start][k] {
      assert frame[k] == FillByte(k, row, Column(TextAlignment.Center, |text|), true);
    }
    forall k | 0 <= k < ROW_LENGTH ensures frame[start..start + ROW_LENGTH][k] == TextBytes(text[..ROW_LENGTH])[k] {
      assert frame[start + k] == CharByte(text[k]);
    }
    var tail := frame[start + ROW_LENGTH..];
    var spaces := Repeat(SPACE, 4 - start);
    forall k | 0 <= k < |spaces| ensures tail[k] == spaces[k] {
      assert frame[start + ROW_LENGTH + k] == SPACE;
    }
  }

  /** `clearRowText`: an empty text centred in a cleared row, which is never
      rejected and never throws, and sends a row of spaces. */
  lemma ClearRowTextFrame(row: int)
    ensures Accepted(row, 0) && !CopyThrows("", TextAlignment.Center, true)
    ensures RowTextFrame(row, "", TextAlignment.Center, true) == [START_BYTE, SET_CURSOR, 1, ToByte(row)] + Repeat(SPACE, ROW_LENGTH)
  {
    var frame := RowTextFrame(row, "", TextAlignment.Center, true);
    var layout := [START_BYTE, SET_CURSOR, 1, ToByte(row)] + Repeat(SPACE, ROW_LENGTH);
    forall k | 0 <= k < |frame| ensures frame[k] == layout[k] {
      if k >= 4 {
        assert layout[k] == Repeat(SPACE, ROW_LENGTH)[k - 4];
      }
    }
  }
}
