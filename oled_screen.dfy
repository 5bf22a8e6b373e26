/** The drawing routines of oled.c: the "CH n" labels on pages 2, 8 and 14,
    big digits (each glyph doubled vertically across two pages and drawn
    three times as wide), three-digit prints eight columns apart, and the
    arrow column at 94 and 100. */
module OledScreen {
  import opened I2c
  import opened Oled
  import opened Bytes

  // ---------------------------------------------------------------------
  // oled_stretch.

  /** oled_stretch on a 16-bit int: every bit of the low byte doubled,
      "abcdefgh" becoming "aabbccddeeffgghh". */
  function Stretch(x: bv16): bv16
  {
    var a := ((x & 0xF0) << 4) | (x & 0x0F);
    var b := ((a << 2) | a) & 0x3333;
    var c := ((b << 1) | b) & 0x5555;
    c | (c << 1)
  }

  /** Pixel k (bit k, the top pixel being bit 0) of a display column byte. */
  function Pixel(b: bv8, k: nat): bool
    requires k < 8
  {
    (b >> k) & 1 == 1
  }

  /** What i2c_write sends of an int: its low byte. */
  function LowByte(s: bv16): bv8
  {
    (s & 0xFF) as bv8
  }

  /** What i2c_write sends of the int shifted right by 8. */
  function HighByte(s: bv16): bv8
  {
    (s >> 8) as bv8
  }

  /** Bit k of x becomes bits 2k and 2k + 1 of the result. */
  lemma StretchBit(x: bv8, k: nat)
    requires k < 8
    ensures (Stretch(x as bv16) >> (2 * k)) & 3 == if Pixel(x, k) then 3 else 0
  {
  }

  /** The low byte of the result depends only on bits 0-3 of x, the high byte
      only on bits 4-7. */
  lemma StretchNibbles(x: bv8)
    ensures LowByte(Stretch(x as bv16)) == LowByte(Stretch((x & 0x0F) as bv16))
    ensures HighByte(Stretch(x as bv16)) == LowByte(Stretch((x >> 4) as bv16))
  {
  }

  /** Pixel y of the two stacked bytes (the low byte on the upper page) is
      pixel y / 2 of the original column: every pixel doubled vertically. */
  lemma StretchPixel(v: bv8, y: nat)
    requires y < 16
    ensures Pixel(Half(v, y >= 8), y % 8) == Pixel(v, y / 2)
  {
  }

  /** A column byte with bit 7 clear stretches to at most 0x3FFF. */
  lemma StretchFits(x: bv8)
    requires x <= 0x7F
    ensures Stretch(x as bv16) <= 0x3FFF
  {
  }

  /** The digit glyphs, the only ones oled_print_big_char stretches, have
      bit 7 clear in every column, so their stretched columns stay at most
      0x3FFF and never reach the sign bit of a 16-bit int. */
  lemma DigitStretchFits(c: int, i: int)
    requires 0 <= c < 10 && 0 <= i < 6
    ensures Font[c][i] <= 0x7F && Stretch(Font[c][i] as bv16) <= 0x3FFF
  {
    if c < 5 {
      assert Font[c][i] <= 0x7F;
    } else {
      assert Font[c][i] <= 0x7F;
    }
    StretchFits(Font[c][i]);
  }

  // ---------------------------------------------------------------------
  // oled_print_big_char.

  /** Each stretched column byte is written this many times. */
  const FontSize := 3

  /** The byte of glyph column v sent on the upper page (the low byte of the
      stretched column) or on the lower page (its high byte). */
  function Half(v: bv8, lower: bool): bv8
  {
    if lower then HighByte(Stretch(v as bv16)) else LowByte(Stretch(v as bv16))
  }

  /** The 18 data bytes of one half of big glyph c: each stretched column
      byte three times. */
  function BigRow(c: int, lower: bool): (r: seq<bv8>)
    requires 0 <= c < |Font|
    ensures |r| == 6 * FontSize
  {
    FontWidth(c);
    seq(6 * FontSize, i requires 0 <= i < 6 * FontSize => Half(Font[c][i / FontSize], lower))
  }

  /** Pixel (x, y) of big glyph c, x in 0..17 across, y in 0..15 down the two
      pages. */
  function BigPixel(c: int, x: nat, y: nat): bool
    requires 0 <= c < |Font| && x < 6 * FontSize && y < 16
  {
    Pixel(BigRow(c, y >= 8)[x], y % 8)
  }

  /** A big glyph is the glyph scaled by 3 across and 2 down: pixel (x, y) of
      the big glyph is pixel (x / 3, y / 2) of the font glyph. */
  lemma BigGlyphScales(c: int, x: nat, y: nat)
    requires 0 <= c < |Font| && x < 6 * FontSize && y < 16
    ensures BigPixel(c, x, y) == Pixel(Font[c][x / FontSize], y / 2)
  {
    FontWidth(c);
    assert BigRow(c, y >= 8)[x] == Half(Font[c][x / FontSize], y >= 8);
    StretchPixel(Font[c][x / FontSize], y);
  }

  /** The column loops of oled_print_big_char: for each of the six columns,
      its stretched byte (low or high half) written three times. */
  lemma BigRowAt(c: int, lower: bool, column: int, j: int)
    requires 0 <= c < |Font| && 0 <= column < 6 && 0 <= j < FontSize
    ensures BigRow(c, lower)[FontSize * column + j] == Half(Font[c][column], lower)
  {
    var k := FontSize * column + j;
    assert k / FontSize == column;
    assert BigRow(c, lower)[k] == Half(Font[c][k / FontSize], lower);
  }

  /** One more byte of a half: the next byte of BigRow is column's half. */
  lemma BigRowGrows(prefix: seq<bv8>, c: int, lower: bool, column: int, j: int)
    requires 0 <= c < |Font| && 0 <= column < 6 && 0 <= j < FontSize
    ensures prefix + BigRow(c, lower)[..FontSize * column + j + 1]
         == prefix + BigRow(c, lower)[..FontSize * column + j] + [Half(Font[c][column], lower)]
  {
    var row, k := BigRow(c, lower), FontSize * column + j;
    BigRowAt(c, lower, column, j);
    TakeOneMore(row, k);
    Assoc(prefix, row[..k], [row[k]]);
  }

  method BigColumns(bus: Bus, c: int, lower: bool)
    requires 0 <= c < |Font|
    requires bus.Valid() && bus.started
    modifies bus
    ensures bus.Valid() && bus.started && bus.sent == old(bus.sent)
    ensures bus.open == old(bus.open) + BigRow(c, lower)
  {
    FontWidth(c);
    ghost var row := BigRow(c, lower);
    var column := 0;
    while column < 6
      invariant column <= 6
      invariant bus.Valid() && bus.started && bus.sent == old(bus.sent)
      invariant bus.open == old(bus.open) + row[..FontSize * column]
    {
      var bits := Stretch(Font[c][column] as bv16);
      var half := if lower then HighByte(bits) else LowByte(bits);
      assert half == Half(Font[c][column], lower);
      var j := 0;
      while j < FontSize
        invariant j <= FontSize
        invariant bus.Valid() && bus.started && bus.sent == old(bus.sent)
        invariant bus.open == old(bus.open) + row[..FontSize * column + j]
      {
        bus.Write(half);
        BigRowGrows(old(bus.open), c, lower, column, j);
        j := j + 1;
      }
      column := column + 1;
    }
    assert row[..FontSize * 6] == row;
  }

  /** One page of a big digit: a cursor, then the data transaction. */
  function HalfMsgs(x: int, y: int, c: int, lower: bool): seq<seq<bv8>>
    requires 0 <= c < |Font|
  {
    [Cursor(U8(x), U8(y)), Data(BigRow(c, lower))]
  }

  method BigHalf(bus: Bus, x: int, y: int, c: int, lower: bool)
    requires 0 <= c < |Font|
    requires bus.Free()
    modifies bus
    ensures bus.Free() && bus.sent == old(bus.sent) + HalfMsgs(x, y, c, lower)
  {
    SetCursor(bus, U8(x), U8(y));
    bus.Start(Address);
    bus.Write(DataMode);
    BigColumns(bus, c, lower);
    assert bus.open == Data(BigRow(c, lower));
    bus.Stop();
    Snoc2(old(bus.sent), Cursor(U8(x), U8(y)), Data(BigRow(c, lower)));
  }

  /** A big digit: its upper half on page y, its lower half on page y + 1. */
  function BigDigitMsgs(x: int, y: int, c: int): seq<seq<bv8>>
    requires 0 <= c < |Font|
  {
    HalfMsgs(x, y, c, false) + HalfMsgs(x, y + 1, c, true)
  }

  /** The body of the digit loop of oled_print_big_char: both halves, line
      moving down one page in between. */
  method BigDigit(bus: Bus, col: int, line: int, c: int) returns (next: int)
    requires 0 <= c < |Font|
    requires bus.Free()
    modifies bus
    ensures next == line + 1
    ensures bus.Free() && bus.sent == old(bus.sent) + BigDigitMsgs(col, line, c)
  {
    BigHalf(bus, col, line, c, false);
    next := line + 1;
    BigHalf(bus, col, next, c, true);
    Assoc(old(bus.sent), HalfMsgs(col, line, c, false), HalfMsgs(col, next, c, true));
  }

  /** The transactions of the first n big digits of temp, the k-th at
      column col + 18 k, pages line and line + 1. */
  function BigMsgs(temp: int, col: int, line: int, n: nat): (ms: seq<seq<bv8>>)
    requires n <= 3
    ensures |ms| == 4 * n
  {
    if n == 0 then []
    else
      var d := GetDigit(temp, Divisors[n - 1]);
      var x := col + 18 * (n - 1);
      BigMsgs(temp, col, line, n - 1) + BigDigitMsgs(x, line, d)
  }

  /** Big digit n is drawn after the n before it. */
  lemma BigStep(temp: int, col: int, line: int, n: nat)
    requires n < 3
    ensures BigMsgs(temp, col, line, n + 1)
         == BigMsgs(temp, col, line, n) + BigDigitMsgs(col + 18 * n, line, GetDigit(temp, Divisors[n]))
  {
  }

  /** What oled_print_big_char sends: three big digits, then an i2c_stop on
      a free bus (an empty message). */
  function BigCharMsgs(temp: int, col: int, line: int): seq<seq<bv8>>
  {
    BigMsgs(temp, col, line, 3) + [[]]
  }

  /** oled_print_big_char: for i = 100, 10, 1, digit i of temp as a big
      glyph, col advancing by 18 and line restored after each; then one
      more stop. */
  method PrintBigChar(bus: Bus, temp: int, col: int, line: int)
    requires bus.Free()
    modifies bus
    ensures bus.Free() && bus.sent == old(bus.sent) + BigCharMsgs(temp, col, line)
  {
    var i := 100;
    var c := col;
    var l := line;
    ghost var n := 0;
    while i > 0
      invariant 0 <= n <= 3 && c == col + 18 * n && l == line
      invariant i == if n < 3 then Divisors[n] else 0
      invariant bus.Free() && bus.sent == old(bus.sent) + BigMsgs(temp, col, line, n)
      decreases 3 - n
    {
      var digit := GetDigit(temp, i);
      l := BigDigit(bus, c, l, digit);
      BigStep(temp, col, line, n);
      NextDivisor(n);
      Assoc(old(bus.sent), BigMsgs(temp, col, line, n), BigDigitMsgs(c, line, digit));
      c := c + 6 * FontSize;
      l := l - 1;
      i := i / 10;
      n := n + 1;
    }
    bus.Stop();
  }

  /** The big digits are the hundreds, tens and units of temp, 18 columns
      apart, followed by the extra stop; for temp up to 999 they spell temp,
      leading zeros included. */
  lemma BigCharSpells(temp: int, col: int, line: int)
    ensures BigCharMsgs(temp, col, line)
         == BigDigitMsgs(col, line, GetDigit(temp, 100)) + BigDigitMsgs(col + 18, line, GetDigit(temp, 10))
            + BigDigitMsgs(col + 36, line, GetDigit(temp, 1)) + [[]]
    ensures 0 <= temp <= 999 ==> 100 * GetDigit(temp, 100) + 10 * GetDigit(temp, 10) + GetDigit(temp, 1) == temp
  {
    if 0 <= temp <= 999 {
      ThreeDigits(temp);
    }
    BigStep(temp, col, line, 0);
    assert BigMsgs(temp, col, line, 1) == BigDigitMsgs(col, line, GetDigit(temp, 100));
    BigStep(temp, col, line, 1);
    assert BigMsgs(temp, col, line, 2)
        == BigDigitMsgs(col, line, GetDigit(temp, 100)) + BigDigitMsgs(col + 18, line, GetDigit(temp, 10));
    BigStep(temp, col, line, 2);
    assert BigMsgs(temp, col, line, 3)
        == BigMsgs(temp, col, line, 2) + BigDigitMsgs(col + 36, line, GetDigit(temp, 1));
  }

  // ---------------------------------------------------------------------
  // oled_print_temp.

  /** oled_print_temp: for i = 100, 10, 1, a cursor on (col, line) and the
      glyph of digit i of temp, col advancing by 8; no cursor afterwards. */
  method PrintTemp(bus: Bus, temp: int, col: int, line: int)
    requires bus.Free()
    modifies bus
    ensures bus.Free() && bus.sent == old(bus.sent) + DigitMsgs(temp, col, line, 8, 3)
  {
    var i := 100;
    var c := col;
    ghost var n := 0;
    while i > 0
      invariant 0 <= n <= 3 && c == col + 8 * n
      invariant i == if n < 3 then Divisors[n] else 0
      invariant bus.Free() && bus.sent == old(bus.sent) + DigitMsgs(temp, col, line, 8, n)
      decreases 3 - n
    {
      var digit := GetDigit(temp, i);
      DrawChar(bus, U8(c), U8(line), digit);
      DigitStep(temp, col, line, 8, n, c, digit);
      Assoc(old(bus.sent), DigitMsgs(temp, col, line, 8, n), Put(U8(c), U8(line), digit));
      NextDivisor(n);
      c := c + 8;
      i := i / 10;
      n := n + 1;
    }
  }

  // ---------------------------------------------------------------------
  // Labels and arrows.

  /** oled_print_channel: for i = 0, 7, 14, a cursor on (i, row), then glyph
      k (12, then 13) while i < 8 and glyph n after that; the same "CH n"
      label main.c draws with three explicit calls. */
  method PrintChannel(bus: Bus, row: bv8, n: bv8)
    requires n as int < |Font|
    requires bus.Free()
    modifies bus
    ensures bus.Free() && bus.sent == old(bus.sent) + LabelMsgs(row, n as int)
  {
    var k: bv8 := 12;
    var i: bv8 := 0;
    while i < 15
      invariant i == 0 || i == 7 || i == 14 || i == 21
      invariant k == 12 + i / 7
      invariant bus.Free()
      invariant i == 0 ==> bus.sent == old(bus.sent)
      invariant i == 7 ==> bus.sent == old(bus.sent) + Put(0, row, Centigrade)
      invariant i == 14 ==> bus.sent == old(bus.sent) + Put(0, row, Centigrade) + Put(7, row, LetterH)
      invariant i == 21 ==> bus.sent == old(bus.sent) + LabelMsgs(row, n as int)
      decreases 21 - i as int
    {
      SetCursor(bus, i, row);
      if i < 8 {
        PrintChar(bus, k as int);
      } else if i > 7 {
        PrintChar(bus, n as int);
      }
      if i == 14 {
        Concat3(old(bus.sent), Put(0, row, Centigrade), Put(7, row, LetterH), Put(14, row, n as int));
      }
      k := k + 1;
      i := i + 7;
    }
  }

  const ArrowHeadCol: bv8 := 94
  const ArrowTailCol: bv8 := 100

  function ArrowMsgs(row: bv8): seq<seq<bv8>>
  {
    Put(ArrowHeadCol, row, ArrowHead) + Put(ArrowTailCol, row, ArrowTail)
  }

  /** oled_print_arrow: the head at column 94, the tail at 100. */
  method PrintArrow(bus: Bus, row: bv8)
    requires bus.Free()
    modifies bus
    ensures bus.Free() && bus.sent == old(bus.sent) + ArrowMsgs(row)
  {
    DrawChar(bus, ArrowHeadCol, row, ArrowHead);
    DrawChar(bus, ArrowTailCol, row, ArrowTail);
    Assoc(old(bus.sent), Put(ArrowHeadCol, row, ArrowHead), Put(ArrowTailCol, row, ArrowTail));
  }

  /** Blank pair t of oled_clear_arrows (t below 32): page t / 2, column 94
      for even t and 100 for odd t. */
  function BlankAt(t: nat): bv8
    requires t < 32
  {
    if t % 2 == 0 then ArrowHeadCol else ArrowTailCol
  }

  /** Every transaction oled_clear_arrows sends: 32 pairs of a cursor and a
      blank glyph. */
  function ClearArrowsMsgs(): (ms: seq<seq<bv8>>)
    ensures |ms| == 64
  {
    seq(64, m requires 0 <= m < 64 =>
      if m % 2 == 0 then Cursor(BlankAt(m / 2), (m / 4) as bv8) else Glyph(ClearSegment))
  }

  lemma PairIndex(i: nat, k: nat)
    requires k < 2
    ensures (4 * i + 2 * k) / 2 == 2 * i + k && (4 * i + 2 * k + 1) / 2 == 2 * i + k
    ensures (4 * i + 2 * k) % 2 == 0 && (4 * i + 2 * k + 1) % 2 == 1
    ensures (4 * i + 2 * k) / 4 == i
    ensures (2 * i + k) % 2 == k
  {
  }

  /** Pair 2 i + k of ClearArrowsMsgs: a cursor on page i at the head
      (k = 0) or tail (k = 1) column, then the blank glyph. */
  lemma ArrowPairAt(i: nat, k: nat)
    requires i < 16 && k < 2
    ensures ClearArrowsMsgs()[4 * i + 2 * k]
         == Cursor(if k == 0 then ArrowHeadCol else ArrowTailCol, i as bv8)
    ensures ClearArrowsMsgs()[4 * i + 2 * k + 1] == Glyph(ClearSegment)
  {
    ArrowCursorAt(i, k);
    PairIndex(i, k);
    ClearArrowsAt(4 * i + 2 * k + 1);
  }

  lemma ArrowCursorAt(i: nat, k: nat)
    requires i < 16 && k < 2
    ensures ClearArrowsMsgs()[4 * i + 2 * k]
         == Cursor(if k == 0 then ArrowHeadCol else ArrowTailCol, i as bv8)
  {
    var m := 4 * i + 2 * k;
    PairIndex(i, k);
    ClearArrowsAt(m);
    var t, p := m / 2, m / 4;
    assert t == 2 * i + k && p == i;
    assert BlankAt(t) == if k == 0 then ArrowHeadCol else ArrowTailCol;
    assert ClearArrowsMsgs()[m] == Cursor(BlankAt(t), p as bv8);
  }

  lemma ClearArrowsAt(m: nat)
    requires m < 64
    ensures ClearArrowsMsgs()[m]
         == if m % 2 == 0 then Cursor(BlankAt(m / 2), (m / 4) as bv8) else Glyph(ClearSegment)
  {
  }

  lemma ClearArrowsStep(i: nat, k: nat)
    requires i < 16 && k < 2
    ensures 4 * i + 2 * k + 1 < |ClearArrowsMsgs()|
    ensures ClearArrowsMsgs()[..4 * i + 2 * k + 2]
         == ClearArrowsMsgs()[..4 * i + 2 * k] + Put(if k == 0 then ArrowHeadCol else ArrowTailCol, i as bv8, ClearSegment)
  {
    var ms, m := ClearArrowsMsgs(), 4 * i + 2 * k;
    ArrowPairAt(i, k);
    TakeTwoMore(ms, m);
  }

  /** oled_clear_arrows: for each page i of 0..15, for j = 94 and 100, a
      cursor on (j, i) and a blank glyph. */
  method ClearArrows(bus: Bus)
    requires bus.Free()
    modifies bus
    ensures bus.Free() && bus.sent == old(bus.sent) + ClearArrowsMsgs()
  {
    ghost var all := ClearArrowsMsgs();
    var i := 0;
    while i <= 15
      invariant i <= 16
      invariant bus.Free() && bus.sent == old(bus.sent) + all[..4 * i]
    {
      var j: bv8 := ArrowHeadCol;
      ghost var k := 0;
      while j <= ArrowTailCol
        invariant k <= 2 && j == if k == 0 then ArrowHeadCol else if k == 1 then ArrowTailCol else ArrowTailCol + 6
        invariant bus.Free() && bus.sent == old(bus.sent) + all[..4 * i + 2 * k]
      {
        ghost var done := all[..4 * i + 2 * k];
        DrawChar(bus, j, i as bv8, ClearSegment);
        ClearArrowsStep(i, k);
        Assoc(old(bus.sent), done, Put(j, i as bv8, ClearSegment));
        j := j + 6;
        k := k + 1;
      }
      i := i + 1;
    }
    assert all[..4 * 16] == all;
  }

  /** oled_clear_arrows blanks exactly 32 glyphs, the two of every page, and
      so every arrow oled_print_arrow can draw: the head and the tail of the
      arrow on page row are cleared by pairs 2 row and 2 row + 1. */
  lemma {:induction false} ArrowsCleared(row: bv8)
    requires row < 16
    ensures var m := 4 * row as int;
      && ClearArrowsMsgs()[m] == Cursor(ArrowHeadCol, row)
      && ClearArrowsMsgs()[m + 2] == Cursor(ArrowTailCol, row)
  {
    PairIndex(row as int, 0);
    PairIndex(row as int, 1);
    IntRound(row);
  }

  // ---------------------------------------------------------------------
  // oled_print_main.

  /** One channel of the start-up screen: its label, its duty as three big
      zeros, the closing stop, and the percent sign. */
  function MainRowMsgs(row: bv8, n: bv8, line: int): seq<seq<bv8>>
    requires n as int < |Font|
  {
    LabelMsgs(row, n as int) + BigCharMsgs(0, 30, line) + [Glyph(Percent)]
  }

  method MainRow(bus: Bus, row: bv8, n: bv8, line: int)
    requires n as int < |Font|
    requires bus.Free()
    modifies bus
    ensures bus.Free() && bus.sent == old(bus.sent) + MainRowMsgs(row, n, line)
  {
    PrintChannel(bus, row, n);
    PrintBigChar(bus, 0, 30, line);
    PrintChar(bus, Percent);
    Concat3(old(bus.sent), LabelMsgs(row, n as int), BigCharMsgs(0, 30, line), [Glyph(Percent)]);
  }

  /** oled_print_main: channels 1, 2 and 3 labelled on pages 2, 8 and 14,
      each with big zeros from column 30 on the page above. */
  method PrintMain(bus: Bus)
    requires bus.Free()
    modifies bus
    ensures bus.Free()
    ensures bus.sent == old(bus.sent) + MainRowMsgs(2, 1, 1) + MainRowMsgs(8, 2, 7) + MainRowMsgs(14, 3, 13)
  {
    MainRow(bus, 2, 1, 1);
    MainRow(bus, 8, 2, 7);
    MainRow(bus, 14, 3, 13);
  }
}
