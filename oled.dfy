/** The display driver shared by both drawing front ends: the I2C address and
    control bytes of the OLED controller, the init command table, the 6x8
    font, and the routines that turn one drawing request into one bus
    transaction (address byte, control byte, payload). */
module Oled {
  import opened I2c
  import opened Bytes

  /** 7-bit address 0x3C, shifted left, with the R/W bit 0 (write). */
  const Address: bv8 := 0x78
  /** The address byte is the 7-bit address 0x3C in bits 7-1 with the R/W
      bit (bit 0) clear: a write. */
  lemma AddressIsWrite()
    ensures Address >> 1 == 0x3C && Address & 1 == 0
  {
  }

  /** Control byte: the rest of the transaction is command bytes. */
  const CommandMode: bv8 := 0x00
  /** Control byte: the rest of the transaction is display RAM data. */
  const DataMode: bv8 := 0x40

  /** Display off, horizontal addressing, multiplex ratio 128, display follows
      RAM, display on. */
  const InitCommands: seq<bv8> := [0xAE, 0x20, 0x00, 0xA8, 0x7F, 0xA4, 0xAF]

  /** Six columns per glyph, bit 0 the top pixel of the column. */
  const Font: seq<seq<bv8>> := [
    [0x3E, 0x51, 0x49, 0x45, 0x3E, 0x00],  // 0
    [0x00, 0x42, 0x7F, 0x40, 0x00, 0x00],  // 1
    [0x72, 0x49, 0x49, 0x49, 0x46, 0x00],  // 2
    [0x21, 0x41, 0x49, 0x4D, 0x33, 0x00],  // 3
    [0x18, 0x14, 0x12, 0x7F, 0x10, 0x00],  // 4
    [0x27, 0x45, 0x45, 0x45, 0x39, 0x00],  // 5
    [0x3C, 0x4A, 0x49, 0x49, 0x31, 0x00],  // 6
    [0x41, 0x21, 0x11, 0x09, 0x07, 0x00],  // 7
    [0x36, 0x49, 0x49, 0x49, 0x36, 0x00],  // 8
    [0x46, 0x49, 0x49, 0x29, 0x1E, 0x00],  // 9
    [0x00, 0x00, 0x00, 0x00, 0x00, 0x00],  // space
    [0xC6, 0x66, 0x30, 0x18, 0xCC, 0xC4],  // %
    [0x3E, 0x41, 0x41, 0x41, 0x22, 0x00],  // C
    [0x7F, 0x04, 0x04, 0x04, 0x78, 0x00],  // H
    [0x00, 0x08, 0x1C, 0x1C, 0x3E, 0x7F],  // arrow head
    [0x1C, 0x1C, 0x1C, 0x1C, 0x1C, 0x1C],  // arrow tail
    [0x00, 0x00, 0x00, 0x00, 0x00, 0x00]   // clear segment
  ]

  const Space := 10
  const Percent := 11
  const Centigrade := 12
  const LetterH := 13
  const ArrowHead := 14
  const ArrowTail := 15
  const ClearSegment := 16

  /** A transaction carrying command bytes. */
  function Command(cmds: seq<bv8>): seq<bv8>
  {
    [Address, CommandMode] + cmds
  }

  /** A transaction carrying display RAM bytes. */
  function Data(bytes: seq<bv8>): seq<bv8>
  {
    [Address, DataMode] + bytes
  }

  /** A C int, or any other integer, converted to uint8_t. */
  function U8(v: int): bv8
  {
    (v % 256) as bv8
  }

  /** oled_set_cursor: lower column nibble, higher column nibble, page. */
  function Cursor(x: bv8, y: bv8): seq<bv8>
  {
    Command([x & 0x0F, 0x10 | (x >> 4), 0xB0 | y])
  }

  function Glyph(c: int): seq<bv8>
    requires 0 <= c < |Font|
  {
    Data(Font[c])
  }

  const PixelOffMsg: seq<bv8> := Data([0x00])

  /** A glyph drawn at a position: a cursor transaction, then the glyph. */
  function Put(x: bv8, y: bv8, c: int): seq<seq<bv8>>
    requires 0 <= c < |Font|
  {
    [Cursor(x, y), Glyph(c)]
  }

  /** A cursor position as the controller reads it back from a transaction. */
  datatype Pos = Pos(x: bv8, y: bv8)

  /** The cursor a transaction sets, when it is a column-low, column-high,
      page command triple. */
  function DecodeCursor(m: seq<bv8>): Option<Pos>
  {
    if |m| == 5 && m[0] == Address && m[1] == CommandMode
       && m[2] & 0xF0 == 0x00 && m[3] & 0xF0 == 0x10 && m[4] & 0xF0 == 0xB0
    then Some(Pos(((m[3] & 0x0F) << 4) | m[2], m[4] & 0x0F))
    else None
  }

  /** Every column, and every page up to 15, is encoded without loss. */
  lemma CursorRoundTrip(x: bv8, y: bv8)
    requires y < 16
    ensures DecodeCursor(Cursor(x, y)) == Some(Pos(x, y))
  {
    var m := Cursor(x, y);
    assert m[2] == x & 0x0F && m[3] == 0x10 | (x >> 4) && m[4] == 0xB0 | y;
    assert ((m[3] & 0x0F) << 4) | m[2] == x;
  }

  /** On the 128x128 panel (x up to 127, y up to 15) the three command bytes
      are a column-low (00h-0Fh), a column-high (10h-17h) and a page
      (B0h-BFh) command. */
  lemma CursorRanges(x: bv8, y: bv8)
    requires x <= 127 && y <= 15
    ensures var m := Cursor(x, y);
      |m| == 5 && m[2] <= 0x0F && 0x10 <= m[3] <= 0x17 && 0xB0 <= m[4] <= 0xBF
  {
  }

  /** get_digit: the decimal digit of val picked by div, with val taken as
      the 16-bit unsigned int the routine receives. */
  function GetDigit(val: int, div: int): (d: int)
    requires 0 < div < 0x1_0000
    ensures 0 <= d < 10
  {
    ((val % 0x1_0000) / div) % 10
  }

  /** Hundreds, tens and units of a number up to 999 give the number back:
      nothing is lost by printing three digits with leading zeros. */
  lemma ThreeDigits(v: int)
    requires 0 <= v <= 999
    ensures 100 * GetDigit(v, 100) + 10 * GetDigit(v, 10) + GetDigit(v, 1) == v
  {
    var h, t, u := v / 100, (v / 10) % 10, v % 10;
    assert v % 0x1_0000 == v;
    assert h < 10;
    assert v / 10 == 10 * h + t;
    assert v == 10 * (v / 10) + u;
  }

  const Divisors: seq<int> := [100, 10, 1]

  /** The transactions of the first n digits of a three-digit print: a
      cursor at column col + pitch * k on page line, then the glyph of the
      k-th digit (hundreds, tens, units). */
  function DigitMsgs(temp: int, col: int, line: int, pitch: int, n: nat): (ms: seq<seq<bv8>>)
    requires n <= 3
    ensures |ms| == 2 * n
  {
    if n == 0 then []
    else DigitMsgs(temp, col, line, pitch, n - 1)
         + [Cursor(U8(col + pitch * (n - 1)), U8(line)), Glyph(GetDigit(temp, Divisors[n - 1]))]
  }

  /** Digit n of a three-digit print is drawn after the n before it, at
      column x = col + pitch * n. */
  lemma DigitStep(temp: int, col: int, line: int, pitch: int, n: nat, x: int, d: int)
    requires n < 3 && x == col + pitch * n && d == GetDigit(temp, Divisors[n])
    ensures DigitMsgs(temp, col, line, pitch, n + 1) == DigitMsgs(temp, col, line, pitch, n) + Put(U8(x), U8(line), d)
  {
  }

  /** Dividing the divisor by 10 moves to the next digit, and past the units
      to 0, which ends the digit loops. */
  lemma NextDivisor(n: nat)
    requires n < 3
    ensures Divisors[n] / 10 == if n < 2 then Divisors[n + 1] else 0
  {
  }

  /** The digits of a three-digit print, in order: their glyphs spell temp
      (for temp up to 999) at columns col, col + pitch, col + 2 * pitch. */
  lemma DigitMsgsSpell(temp: int, col: int, line: int, pitch: int)
    requires 0 <= temp <= 999
    ensures var ms := DigitMsgs(temp, col, line, pitch, 3);
      exists d0, d1, d2 ::
        0 <= d0 < 10 && 0 <= d1 < 10 && 0 <= d2 < 10 && 100 * d0 + 10 * d1 + d2 == temp
        && ms == [Cursor(U8(col), U8(line)), Glyph(d0),
                  Cursor(U8(col + pitch), U8(line)), Glyph(d1),
                  Cursor(U8(col + 2 * pitch), U8(line)), Glyph(d2)]
  {
    ThreeDigits(temp);
    var d0, d1, d2 := GetDigit(temp, 100), GetDigit(temp, 10), GetDigit(temp, 1);
    var c0, c1, c2 := Cursor(U8(col), U8(line)), Cursor(U8(col + pitch), U8(line)), Cursor(U8(col + 2 * pitch), U8(line));
    assert DigitMsgs(temp, col, line, pitch, 1) == [c0, Glyph(d0)];
    assert DigitMsgs(temp, col, line, pitch, 2) == [c0, Glyph(d0), c1, Glyph(d1)];
    assert DigitMsgs(temp, col, line, pitch, 3) == [c0, Glyph(d0), c1, Glyph(d1), c2, Glyph(d2)];
  }

  /** "CH" and the channel number: C at column 0, H at column 7, the digit
      glyph n at column 14, all on page row. */
  function LabelMsgs(row: bv8, n: int): seq<seq<bv8>>
    requires 0 <= n < |Font|
  {
    Put(0, row, Centigrade) + Put(7, row, LetterH) + Put(14, row, n)
  }

  /** Every glyph is six columns wide. */
  lemma FontWidth(c: int)
    requires 0 <= c < |Font|
    ensures |Font[c]| == 6
  {
  }

  // ---------------------------------------------------------------------
  // Routines that send one transaction.

  /** The byte loop of oled_init and oled_print_char: i2c_write of each
      byte in turn, inside the open transaction. */
  method WriteBytes(bus: Bus, bytes: seq<bv8>)
    requires bus.Valid() && bus.started
    modifies bus
    ensures bus.Valid() && bus.started && bus.sent == old(bus.sent)
    ensures bus.open == old(bus.open) + bytes
  {
    var i := 0;
    while i < |bytes|
      invariant 0 <= i <= |bytes|
      invariant bus.Valid() && bus.started && bus.sent == old(bus.sent)
      invariant bus.open == old(bus.open) + bytes[..i]
    {
      bus.Write(bytes[i]);
      TakeOneMore(bytes, i);
      Assoc(old(bus.open), bytes[..i], [bytes[i]]);
      i := i + 1;
    }
    assert bytes[..i] == bytes;
  }

  /** oled_init: i2c_init, then the init commands as one command
      transaction. */
  method Init() returns (bus: Bus)
    ensures fresh(bus)
    ensures bus.Free() && bus.sent == [Command(InitCommands)]
  {
    bus := new Bus();
    bus.Start(Address);
    bus.Write(CommandMode);
    WriteBytes(bus, InitCommands);
    assert bus.open == Command(InitCommands);
    bus.Stop();
  }

  method SetCursor(bus: Bus, x: bv8, y: bv8)
    requires bus.Free()
    modifies bus
    ensures bus.Free() && bus.sent == old(bus.sent) + [Cursor(x, y)]
  {
    bus.Start(Address);
    bus.Write(CommandMode);
    bus.Write(x & 0x0F);
    bus.Write(0x10 | (x >> 4));
    bus.Write(0xB0 | y);
    assert bus.open == Cursor(x, y);
    bus.Stop();
  }

  method PixelOff(bus: Bus)
    requires bus.Free()
    modifies bus
    ensures bus.Free() && bus.sent == old(bus.sent) + [PixelOffMsg]
  {
    bus.Start(Address);
    bus.Write(DataMode);
    bus.Write(0x00);
    assert bus.open == PixelOffMsg;
    bus.Stop();
  }

  /** oled_print_char: the six font bytes of glyph c as one data
      transaction. */
  method PrintChar(bus: Bus, c: int)
    requires 0 <= c < |Font|
    requires bus.Free()
    modifies bus
    ensures bus.Free() && bus.sent == old(bus.sent) + [Glyph(c)]
  {
    bus.Start(Address);
    bus.Write(DataMode);
    WriteBytes(bus, Font[c]);
    assert bus.open == Glyph(c);
    bus.Stop();
  }

  /** oled_set_cursor followed by oled_print_char, the pair every drawing
      routine is made of. */
  method DrawChar(bus: Bus, x: bv8, y: bv8, c: int)
    requires 0 <= c < |Font|
    requires bus.Free()
    modifies bus
    ensures bus.Free() && bus.sent == old(bus.sent) + Put(x, y, c)
  {
    SetCursor(bus, x, y);
    PrintChar(bus, c);
    Snoc2(old(bus.sent), Cursor(x, y), Glyph(c));
  }

  // ---------------------------------------------------------------------
  // Clearing the screen.

  /** Visit k of oled_clear (k below 128 * 16): the cursor on column k / 16,
      page k % 16, then one blank data byte. */
  function Visit(k: nat): (seq<bv8>, seq<bv8>)
    requires k < 128 * 16
  {
    (Cursor((k / 16) as bv8, (k % 16) as bv8), PixelOffMsg)
  }

  /** Every transaction oled_clear sends, in order: the two transactions of
      each visit. */
  function ClearMsgs(): (ms: seq<seq<bv8>>)
    ensures |ms| == 2 * 128 * 16
  {
    seq(2 * 128 * 16, t requires 0 <= t < 2 * 128 * 16 =>
      if t % 2 == 0 then Visit(t / 2).0 else Visit(t / 2).1)
  }

  /** The two transactions of visit k. */
  function VisitAt(ms: seq<seq<bv8>>, k: nat): (seq<bv8>, seq<bv8>)
    requires 2 * k + 1 < |ms|
  {
    (ms[2 * k], ms[2 * k + 1])
  }

  /** Visit 16 x + y, at transactions 32 x + 2 y and the one after, is the
      one oled_clear's loops make for column x, page y. */
  lemma VisitCell(x: nat, y: nat)
    requires x < 128 && y < 16
    ensures 32 * x + 2 * y + 1 < |ClearMsgs()|
    ensures ClearMsgs()[32 * x + 2 * y] == Cursor(x as bv8, y as bv8)
    ensures ClearMsgs()[32 * x + 2 * y + 1] == PixelOffMsg
  {
    var k := 16 * x + y;
    VisitIndex(k);
    assert k / 16 == x && k % 16 == y;
    assert 2 * k == 32 * x + 2 * y;
  }

  /** Transactions 2 k and 2 k + 1 are the two of visit k. */
  lemma VisitIndex(k: nat)
    requires k < 128 * 16
    ensures ClearMsgs()[2 * k] == Visit(k).0 && ClearMsgs()[2 * k + 1] == Visit(k).1
  {
    assert (2 * k) % 2 == 0 && (2 * k) / 2 == k;
    assert (2 * k + 1) % 2 == 1 && (2 * k + 1) / 2 == k;
  }

  /** oled_clear makes 2048 visits, each a cursor transaction followed by one
      blank data byte, visit k naming column k / 16, page k % 16. */
  lemma ClearCovers()
    ensures |ClearMsgs()| == 2 * 128 * 16
    ensures forall k: nat | k < 128 * 16 ::
      VisitAt(ClearMsgs(), k).1 == PixelOffMsg
      && DecodeCursor(VisitAt(ClearMsgs(), k).0) == Some(Pos((k / 16) as bv8, (k % 16) as bv8))
  {
    var ms := ClearMsgs();
    forall k: nat | k < 128 * 16
      ensures VisitAt(ms, k).1 == PixelOffMsg
      ensures DecodeCursor(VisitAt(ms, k).0) == Some(Pos((k / 16) as bv8, (k % 16) as bv8))
    {
      assert (2 * k) / 2 == k && (2 * k + 1) / 2 == k;
      PageByte(k % 16);
      CursorRoundTrip((k / 16) as bv8, (k % 16) as bv8);
    }
  }

  /** No cell is visited twice: two different visits of oled_clear set two
      different cursors. */
  lemma VisitsDistinct(k: nat, l: nat)
    requires k < l < 128 * 16
    ensures DecodeCursor(VisitAt(ClearMsgs(), k).0) != DecodeCursor(VisitAt(ClearMsgs(), l).0)
  {
    ClearCovers();
    var p, q := Pos((k / 16) as bv8, (k % 16) as bv8), Pos((l / 16) as bv8, (l % 16) as bv8);
    assert DecodeCursor(VisitAt(ClearMsgs(), k).0) == Some(p);
    assert DecodeCursor(VisitAt(ClearMsgs(), l).0) == Some(q);
    if k / 16 == l / 16 {
      ByteInjective(k % 16, l % 16);
    } else {
      ByteInjective(k / 16, l / 16);
    }
  }

  /** The two transactions of visit (i, j) are where the loops have got to. */
  lemma ClearStep(i: nat, j: nat)
    requires i < 128 && j < 16
    ensures 32 * i + 2 * j + 1 < |ClearMsgs()|
    ensures ClearMsgs()[..32 * i + 2 * j + 2]
         == ClearMsgs()[..32 * i + 2 * j] + [Cursor(i as bv8, j as bv8), PixelOffMsg]
  {
    VisitCell(i, j);
    TakeTwoMore(ClearMsgs(), 32 * i + 2 * j);
  }

  /** oled_clear: for each column, for each page, a cursor and a blank
      byte. */
  method Clear(bus: Bus)
    requires bus.Free()
    modifies bus
    ensures bus.Free() && bus.sent == old(bus.sent) + ClearMsgs()
  {
    ghost var all := ClearMsgs();
    var i := 0;
    while i <= 127
      invariant i <= 128
      invariant bus.Free() && bus.sent == old(bus.sent) + all[..32 * i]
    {
      var j := 0;
      while j <= 15
        invariant j <= 16
        invariant bus.Free() && bus.sent == old(bus.sent) + all[..32 * i + 2 * j]
      {
        ghost var done := all[..32 * i + 2 * j];
        SetCursor(bus, i as bv8, j as bv8);
        PixelOff(bus);
        ClearStep(i, j);
        Snoc2(old(bus.sent) + done, Cursor(i as bv8, j as bv8), PixelOffMsg);
        Assoc(old(bus.sent), done, [Cursor(i as bv8, j as bv8), PixelOffMsg]);
        j := j + 1;
      }
      i := i + 1;
    }
    assert all[..32 * 128] == all;
  }
}
