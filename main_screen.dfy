/** The screen of the three-channel controller as main.c draws it: a
    "CH n" label on pages 0, 5 and 10, an arrow beside the active channel,
    and under each label the channel's duty (page + 2) and its percentage
    (page + 3), each as three digits nine columns apart. */
module MainScreen {
  import opened I2c
  import opened Oled

  /** The transactions of oled_print: three digits (hundreds, tens, units)
      nine columns apart, then a cursor left just after the third digit. */
  function PrintMsgs(temp: int, col: int, line: int): (ms: seq<seq<bv8>>)
    ensures |ms| == 7
  {
    DigitMsgs(temp, col, line, 9, 3) + [Cursor(U8(col + 27), U8(line))]
  }

  /** oled_print: for i = 100, 10, 1, a cursor on (col, line) and the glyph
      of digit i of temp, col advancing by 9; then a last cursor. */
  method Print(bus: Bus, temp: int, col: int, line: int)
    requires bus.Free()
    modifies bus
    ensures bus.Free() && bus.sent == old(bus.sent) + PrintMsgs(temp, col, line)
  {
    var i := 100;
    var c := col;
    ghost var n := 0;
    while i > 0
      invariant 0 <= n <= 3 && c == col + 9 * n
      invariant i == if n < 3 then Divisors[n] else 0
      invariant bus.Free() && bus.sent == old(bus.sent) + DigitMsgs(temp, col, line, 9, n)
      decreases 3 - n
    {
      var digit := GetDigit(temp, i);
      DrawChar(bus, U8(c), U8(line), digit);
      DigitStep(temp, col, line, 9, n, c, digit);
      Assoc(old(bus.sent), DigitMsgs(temp, col, line, 9, n), Put(U8(c), U8(line), digit));
      NextDivisor(n);
      c := c + 9;
      i := i / 10;
      n := n + 1;
    }
    SetCursor(bus, U8(c), U8(line));
    Assoc(old(bus.sent), DigitMsgs(temp, col, line, 9, 3), [Cursor(U8(c), U8(line))]);
  }

  /** print_channel. */
  method PrintChannel(bus: Bus, row: bv8, n: int)
    requires 0 <= n < |Font|
    requires bus.Free()
    modifies bus
    ensures bus.Free() && bus.sent == old(bus.sent) + LabelMsgs(row, n)
  {
    DrawChar(bus, 0, row, Centigrade);
    DrawChar(bus, 7, row, LetterH);
    DrawChar(bus, 14, row, n);
    Concat3(old(bus.sent), Put(0, row, Centigrade), Put(7, row, LetterH), Put(14, row, n));
  }

  /** The two columns of the arrow slot beside each label. */
  const ArrowHeadCol: bv8 := 25
  const ArrowTailCol: bv8 := 31

  function ArrowMsgs(row: bv8): seq<seq<bv8>>
  {
    Put(ArrowHeadCol, row, ArrowHead) + Put(ArrowTailCol, row, ArrowTail)
  }

  /** print_arrow: the arrow head, then its tail, beside page row. */
  method PrintArrow(bus: Bus, row: bv8)
    requires bus.Free()
    modifies bus
    ensures bus.Free() && bus.sent == old(bus.sent) + ArrowMsgs(row)
  {
    DrawChar(bus, ArrowHeadCol, row, ArrowHead);
    DrawChar(bus, ArrowTailCol, row, ArrowTail);
    Assoc(old(bus.sent), Put(ArrowHeadCol, row, ArrowHead), Put(ArrowTailCol, row, ArrowTail));
  }

  function BlankSlotMsgs(row: bv8): seq<seq<bv8>>
  {
    Put(ArrowHeadCol, row, ClearSegment) + Put(ArrowTailCol, row, ClearSegment)
  }

  function ClearArrowsMsgs(): seq<seq<bv8>>
  {
    BlankSlotMsgs(0) + BlankSlotMsgs(5) + BlankSlotMsgs(10)
  }

  /** clear_arrows: a blank glyph over both arrow columns of pages 0, 5
      and 10. */
  method ClearArrows(bus: Bus)
    requires bus.Free()
    modifies bus
    ensures bus.Free() && bus.sent == old(bus.sent) + ClearArrowsMsgs()
  {
    DrawChar(bus, ArrowHeadCol, 0, ClearSegment);
    DrawChar(bus, ArrowTailCol, 0, ClearSegment);
    DrawChar(bus, ArrowHeadCol, 5, ClearSegment);
    DrawChar(bus, ArrowTailCol, 5, ClearSegment);
    DrawChar(bus, ArrowHeadCol, 10, ClearSegment);
    DrawChar(bus, ArrowTailCol, 10, ClearSegment);
  }

  /** The page of channel ch's label: 0, 5 or 10. */
  function LabelRow(ch: int): (row: bv8)
    requires 1 <= ch <= 3
    ensures row == 0 || row == 5 || row == 10
  {
    if ch == 1 then 0 else if ch == 2 then 5 else 10
  }

  /** Where clear_arrows blanks is exactly where print_arrow can draw for the
      three labels: the head and the tail glyph of each arrow land on a
      cursor clear_arrows has blanked, and every blank is such a place. */
  lemma ArrowsCleared(ch: int)
    requires 1 <= ch <= 3
    ensures var row := LabelRow(ch); var k := 4 * (ch - 1);
      && ClearArrowsMsgs()[k] == ArrowMsgs(row)[0]
      && ClearArrowsMsgs()[k + 2] == ArrowMsgs(row)[2]
      && ClearArrowsMsgs()[k + 1] == ClearArrowsMsgs()[k + 3] == Glyph(ClearSegment)
  {
  }

  /** The duty as a percentage: 100 * duty / 255 in C int arithmetic,
      truncated. */
  function Percentage(duty: int): (p: int)
    requires 0 <= duty < 256
    ensures 0 <= p <= 100
  {
    100 * duty / 255
  }

  /** The percentage is exact at both ends and never overstates the duty:
      0 for 0, 100 for 255, and p / 100 <= duty / 255 < (p + 1) / 100. */
  lemma PercentageBounds(duty: int)
    requires 0 <= duty < 256
    ensures Percentage(0) == 0 && Percentage(255) == 100
    ensures 255 * Percentage(duty) <= 100 * duty < 255 * (Percentage(duty) + 1)
  {
  }

  function ChannelMsgs(ch: int, duty: int): seq<seq<bv8>>
    requires 1 <= ch <= 3 && 0 <= duty < 256
  {
    ClearArrowsMsgs() + ArrowMsgs(LabelRow(ch))
      + PrintMsgs(duty, 0, LabelRow(ch) as int + 2)
      + PrintMsgs(Percentage(duty), 0, LabelRow(ch) as int + 3)
  }

  /** set_channel1, set_channel2 and set_channel3: blank every arrow slot,
      draw the arrow beside channel ch's label, then print its duty on the
      second page under the label and its percentage on the third. */
  method SetChannel(bus: Bus, ch: int, duty: int)
    requires 1 <= ch <= 3 && 0 <= duty < 256
    requires bus.Free()
    modifies bus
    ensures bus.Free() && bus.sent == old(bus.sent) + ChannelMsgs(ch, duty)
  {
    var row := LabelRow(ch);
    ClearArrows(bus);
    PrintArrow(bus, row);
    Print(bus, duty, 0, row as int + 2);
    Print(bus, 100 * duty / 255, 0, row as int + 3);
    Concat4(old(bus.sent), ClearArrowsMsgs(), ArrowMsgs(row), PrintMsgs(duty, 0, row as int + 2),
            PrintMsgs(Percentage(duty), 0, row as int + 3));
  }

  /** One channel's part of the start-up screen: its label, the duty and the
      percentage both printed as 000, and the percent sign where oled_print
      left the cursor. */
  function BootRowMsgs(row: bv8, n: int): seq<seq<bv8>>
    requires 0 <= n < |Font|
  {
    LabelMsgs(row, n) + PrintMsgs(0, 0, row as int + 2) + PrintMsgs(0, 0, row as int + 3) + [Glyph(Percent)]
  }

  method BootRow(bus: Bus, row: bv8, n: int)
    requires 0 <= n < |Font|
    requires bus.Free()
    modifies bus
    ensures bus.Free() && bus.sent == old(bus.sent) + BootRowMsgs(row, n)
  {
    PrintChannel(bus, row, n);
    Print(bus, 0, 0, row as int + 2);
    Print(bus, 0, 0, row as int + 3);
    PrintChar(bus, Percent);
    Concat4(old(bus.sent), LabelMsgs(row, n), PrintMsgs(0, 0, row as int + 2), PrintMsgs(0, 0, row as int + 3),
            [Glyph(Percent)]);
  }

  function BootMsgs(): seq<seq<bv8>>
  {
    [Command(InitCommands)] + ClearMsgs() + BootRowMsgs(0, 1) + BootRowMsgs(5, 2) + BootRowMsgs(10, 3)
  }

  /** The drawing part of main: oled_init, oled_clear, then the three
      channels with duty 0. */
  method Boot() returns (bus: Bus)
    ensures fresh(bus)
    ensures bus.Free() && bus.sent == BootMsgs()
  {
    bus := Init();
    Clear(bus);
    BootRow(bus, 0, 1);
    BootRow(bus, 5, 2);
    BootRow(bus, 10, 3);
  }
}
