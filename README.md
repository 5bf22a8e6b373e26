# Heating controller firmware: display, I2C and encoder model

The firmware drives three PWM outputs from one rotary encoder with a push
button, and shows every channel's duty on a 128x128 OLED panel. The panel
sits on a two-wire (I2C) bus that the microcontroller bit-bangs, write
only.

This project models the parts of `main.c` and `oled.c` that turn inputs
into bus traffic and state changes:

- **The I2C master (module `I2c`).** `i2c_write`, `i2c_start` and
  `i2c_stop` append line events (SDA/SCL low or released) to the `Bus`
  object's record `lines`. Ghost fields keep the same history as
  messages: `sent` holds the completed byte strings, `open` the bytes of
  the transaction in progress.
  - The master is checked against a receiver written from sections 3.1.3
    to 3.1.6 of the NXP I2C-bus specification (UM10204). It turns line
    events into START, STOP and data-bit symbols, then groups the symbols
    into bytes with a shift register and a ninth acknowledge clock.
  - `Received` proves that whenever the bus is free, the receiver reads
    back exactly the messages sent.
- **The display driver (module `Oled`).** This module covers:
  - the address and control bytes and the init command table;
  - the 6x8 font;
  - `oled_set_cursor`, `oled_print_char`, `oled_pixel_off`, `oled_init`
    and `oled_clear`;
  - `get_digit`.

  Each drawing routine is a module-level method that takes the bus as a
  parameter. Its contract gives the transactions it adds to `sent`.
  `CursorRoundTrip` proves that a decoder reads every cursor transaction
  back.
- **The screen of `main.c` (module `MainScreen`).** This covers
  `oled_print`, `print_channel`, `print_arrow`, `clear_arrows`,
  `set_channel1..3` and the drawing part of `main`.
- **The screen of `oled.c` (module `OledScreen`).** This covers:
  - `oled_stretch`;
  - the big digits of `oled_print_big_char`;
  - `oled_print_temp`;
  - the loop versions of the label, arrow and arrow-clearing routines;
  - `oled_print_main`.
- **The encoder and the channel controller (module `Encoder`).** The
  decoding half of the pin-change interrupt is the function `Decode`, and
  the controlling half is `Commit`. Both are on the decoder's globals.
  - The class `Controller` holds the firmware's globals, the display bus
  and the list of duties handed to the PWM timers.
  - `Interrupt` runs one interrupt on one read of port B.
- **Conversions (module `Bytes`).** Lemmas about converting between C
  integers and bytes.

Two behaviours of the code are worth stating, because a reader might
expect otherwise:

- **Duties wrap modulo 256.** The code adds the step with no bound check
  (`main.c:343`, `349`, `355`). A duty stepped below 0 becomes 255, and
  one stepped above 255 becomes 0; it does not stop at either end.
- **The percentage truncates.** It is `100 * duty / 255` in C integer
  division (`main.c:269`), not rounded.

## Model

| member | source | states |
|---|---|---|
| I2c.Bus.constructor | main.c:24-27 | i2c_init: both lines released, an empty line record, nothing sent, the bus free |
| I2c.Bus.Clock | main.c:31-41 | the line record grows by exactly the bit pulses of the byte, most significant first, then the acknowledge pulse with SDA released |
| I2c.WriteBits | main.c:30-42 | the events of i2c_write(d) are one clock pulse carrying bit 7, then bits 6 down to 0, then the acknowledge slot; each pulse sets SDA before SCL rises |
| I2c.Bus.Write | main.c:30-42 | inside a transaction, the byte joins the open message; the messages already sent are unchanged and the line invariant is kept |
| I2c.Bus.Start | main.c:45-49 | SDA low, SCL low, then exactly the events of writing the address; a transaction opens whose only byte so far is the address |
| I2c.Bus.Stop | main.c:52-56 | SDA low, SCL high, SDA high; the open message is appended to the messages sent and the bus is free again (a stop on a free bus is an empty message) |
| I2c.ListenClockBit | main.c:32-36 | a receiver hears one data-bit pulse as exactly that bit, with no START or STOP |
| I2c.ListenBits | main.c:31-41 | the rest of a byte and its acknowledge slot are heard as the bits i2c_write sends |
| I2c.ListenMessage | main.c:45-56 | a message sent on a free bus is heard as START, its bytes and STOP, and leaves the bus free |
| I2c.PackByte | main.c:33-35 | shifting in the eight bits that i2c_write sends, most significant first, rebuilds the byte |
| I2c.ParseByte | main.c:30-42 | the symbols of one byte plus its acknowledge slot add exactly that byte to the message being received |
| I2c.ReceiveBus | main.c:30-56 | for every sequence of messages, the receiver reads the bus events back as exactly those messages |
| I2c.Received | main.c:30-56 | whenever the bus is free, the receiver reads its whole line record as exactly the messages sent |
| Oled.AddressIsWrite | main.c:69 | the address byte 78h is the 7-bit address 3Ch in bits 7-1 with the R/W bit clear, so every transaction is a write |
| Oled.CursorRoundTrip | main.c:116-123 | the cursor transaction decodes back to its column and page, for every column and every page below 16 |
| Oled.CursorRanges | main.c:116-123 | for x up to 127 and y up to 15, the three command bytes lie in 00h-0Fh, 10h-17h and B0h-BFh |
| Oled.Cursor | main.c:116-123 | the cursor transaction of oled_set_cursor; it has no contract of its own: `Oled.CursorRoundTrip` and `Oled.CursorRanges` state what it means |
| Oled.WriteBytes | main.c:112 | i2c_write of each byte in order: the open transaction grows by exactly those bytes |
| Oled.Init | main.c:108-114 | a fresh bus carries exactly one transaction: address, command mode, the seven init commands |
| Oled.SetCursor | main.c:116-123 | exactly one transaction: address, command mode, low column nibble, 10h with the high nibble, B0h with the page |
| Oled.PixelOff | main.c:125-130 | exactly one data transaction holding the single byte 00h |
| Oled.PrintChar | main.c:158-166 | exactly one data transaction holding the six font bytes of glyph c |
| Oled.GetDigit | main.c:168-176 | the digit is always in 0..9, with val taken as a 16-bit unsigned int |
| Oled.ThreeDigits | main.c:168-176 | for 0 <= v <= 999, 100 times the hundreds digit, plus 10 times the tens digit, plus the units digit gives v back |
| Oled.DigitMsgsSpell | main.c:178-184 | the three digits of a print are cursor and glyph pairs at col, col + pitch and col + 2 pitch, with digits d0, d1, d2 in 0..9 and 100 d0 + 10 d1 + d2 = temp, leading zeros kept |
| Oled.Clear | main.c:139-146 | oled_clear sends exactly its 4096 transactions in loop order: for column i, for page j, a cursor on (i, j), then one blank byte |
| Oled.ClearCovers | main.c:139-146 | visit k is a cursor decoding to column k / 16, page k % 16, followed by the 00h data byte, for all 2048 visits |
| Oled.VisitsDistinct | main.c:139-146 | two different visits set two different cursors, so no cell is visited twice |
| MainScreen.Print | main.c:178-186 | for i = 100, 10, 1: a cursor at col + 9 n and the glyph of digit i of temp; then a final cursor at col + 27 |
| MainScreen.PrintChannel | main.c:188-195 | glyph C at column 0, glyph H at column 7, the channel number glyph at column 14, all on the label's page |
| MainScreen.PrintArrow | main.c:197-202 | the arrow head at column 25 and the tail at 31, on the given page |
| MainScreen.ClearArrows | main.c:204-217 | a blank glyph at columns 25 and 31 of pages 0, 5 and 10, in that order |
| MainScreen.LabelRow | main.c:265-282 | the label page of a channel is 0, 5 or 10 |
| MainScreen.ArrowsCleared | main.c:197-217 | the two cursors of each channel's arrow are among those clear_arrows blanks, and each is followed there by a blank glyph |
| MainScreen.Percentage | main.c:269 | 100 * duty / 255, truncated, always in 0..100 |
| MainScreen.PercentageBounds | main.c:269 | 0 maps to 0 and 255 to 100, and the truncated percentage p satisfies 255 p <= 100 duty < 255 (p + 1) |
| MainScreen.SetChannel | main.c:265-282 | set_channelN: blank every arrow slot, draw the arrow on page 0, 5 or 10, print the duty on the page + 2 and its percentage on the page + 3 |
| MainScreen.BootRow | main.c:288-292 | one channel of the start-up screen: label, duty 000, percentage 000, then the percent sign at the cursor oled_print leaves |
| MainScreen.Boot | main.c:284-304 | a fresh bus carries the init commands, the clear and the three channel rows, in order |
| OledScreen.Stretch | oled.c:160-165 | oled_stretch on a 16-bit word; it has no contract of its own: `OledScreen.StretchBit`, `OledScreen.StretchNibbles`, `OledScreen.StretchPixel` and `OledScreen.DigitStretchFits` state what it computes |
| OledScreen.StretchBit | oled.c:160-165 | bit k of x becomes bits 2k and 2k + 1 of the result, and all other bits are zero ("abcdefgh" to "aabbccddeeffgghh") |
| OledScreen.StretchNibbles | oled.c:160-165 | the low byte of the result depends only on bits 0-3 of x, and the high byte only on bits 4-7 |
| OledScreen.StretchPixel | oled.c:160-165 | pixel y of the two stacked bytes is pixel y / 2 of the original column: every pixel is doubled vertically |
| OledScreen.StretchFits | oled.c:160-165 | a column byte with bit 7 clear stretches to at most 3FFFh |
| OledScreen.DigitStretchFits | oled.c:171-175 | every column of the digit glyphs 0..9, the only glyphs oled_print_big_char stretches, has bit 7 clear and stretches to at most 3FFFh, below the sign bit of a 16-bit int |
| OledScreen.BigGlyphScales | oled.c:174-187 | pixel (x, y) of a big glyph is pixel (x / 3, y / 2) of the font glyph: scaled 3 across and 2 down |
| OledScreen.BigColumns | oled.c:174-177 | for each of the six columns, its stretched low (or high) byte written three times: the 18 bytes of one half |
| OledScreen.BigHalf | oled.c:170-178 | a cursor, then one data transaction holding one half of the big glyph |
| OledScreen.BigDigit | oled.c:170-190 | the upper half on page line and the lower half on page line + 1; line is one page further down afterwards |
| OledScreen.PrintBigChar | oled.c:167-193 | three big digits (hundreds, tens, units) 18 columns apart, with line restored after each, then one extra stop |
| OledScreen.BigCharSpells | oled.c:167-193 | the big digits sit at col, col + 18 and col + 36, then the empty message of the extra stop; for temp up to 999 they spell temp |
| OledScreen.PrintTemp | oled.c:205-217 | hundreds, tens and units of temp at col, col + 8 and col + 16 on page line, with no cursor afterwards |
| OledScreen.PrintChannel | oled.c:117-126 | the loop i = 0, 7, 14 draws glyph 12 at column 0, glyph 13 at column 7 and glyph n at column 14 (the same label as main.c) |
| OledScreen.PrintArrow | oled.c:128-134 | the arrow head at column 94 and the tail at 100 |
| OledScreen.ClearArrows | oled.c:136-144 | exactly 32 cursor and blank-glyph pairs: columns 94 and 100 on every page 0..15, page by page |
| OledScreen.ArrowsCleared | oled.c:128-144 | the head and tail cursors oled_print_arrow uses on any page below 16 are the cursors of blank pairs 2 row and 2 row + 1 |
| OledScreen.MainRow | oled.c:148-150 | one channel of the oled.c start-up screen: label, three big zeros from column 30, the extra stop, the percent sign |
| OledScreen.PrintMain | oled.c:146-157 | channels 1, 2 and 3 labelled on pages 2, 8 and 14, with big zeros on pages 1, 7 and 13 |
| Encoder.Level | main.c:322-324 | a pin's level is the int 0 or 1, and it is 1 exactly when that bit of port B is set |
| Encoder.Wrap | main.c:251-254 | storing an int into a uint8_t keeps 0..255 and adds 256 to -256..-1 |
| Encoder.AddByte | main.c:343 | the sum of two uint8 values stored back into a uint8_t is their sum modulo 256 |
| Encoder.StepOf | main.c:260-263 | change_count gives +1 when the lines agree; otherwise -1 stored as uint8, the value that adds to 1 giving 0 |
| Encoder.NextChannel | main.c:335-338 | the next channel is in 1..3, differs from the current one, and is ch % 3 + 1 (3 wraps to 1) |
| Encoder.Decode | main.c:325-340 | the first half of the interrupt on a value; it has no contract of its own: `Encoder.RotationStep`, `Encoder.RotationFirst`, `Encoder.ButtonEdge`, `Encoder.TwoEdges` and `Encoder.DecodeKeeps` state what it does |
| Encoder.RotationStep | main.c:325-331 | the step is 1 exactly when both lines changed and now agree, 255 exactly when both changed and differ, 0 exactly when either line stayed |
| Encoder.RotationFirst | main.c:325-340 | when the clock line changed, the button level, the edge counter and the channel are left alone |
| Encoder.ButtonEdge | main.c:332-340 | the channel changes exactly on a button edge with one edge already counted and no rotation, then to the next channel with no edge pending; no rotation means no step |
| Encoder.TwoEdges | main.c:332-340 | two button edges with the encoder at rest advance the channel exactly once (1 to 2 to 3 to 1); the first edge alone does not |
| Encoder.DecodeKeeps | main.c:332-340 | decoding keeps the channel in 1..3 and at most one edge pending, so once count is cleared the globals are settled again |
| Encoder.Commit | main.c:342-359 | the second half of the interrupt on a value; it has no contract of its own: `Encoder.CommitActiveOnly` states what it does |
| Encoder.CommitActiveOnly | main.c:342-359 | only the active channel's duty changes: +1 (255 wrapping to 0), -1 (0 wrapping to 255) or not at all, as the step says; the other two are unchanged |
| Encoder.Controller.constructor | main.c:284-304 | start-up: the boot screen sent, every duty 0, channel 1, no step or edge pending, no PWM update yet |
| Encoder.Controller.ChangeCount | main.c:260-263 | count and the returned value are both the step of the direction |
| Encoder.Controller.Sample | main.c:321-341 | the decoder globals after the first half of the interrupt are Decode of the globals before |
| Encoder.Controller.Show | main.c:344-345 | set_channelN then pwm_chN: that channel's row redrawn with its duty, and one SetDuty event for it |
| Encoder.Controller.Drive | main.c:342-359 | the active duty is stepped (Commit), its channel redrawn, its duty handed to the timer once, and count cleared |
| Encoder.Controller.Interrupt | main.c:321-360 | one interrupt: the decoder globals become Decode of the old ones with count cleared, the duties become Commit, and exactly one redraw and one SetDuty happen, for the active channel; the invariant (channel 1..3, at most one edge pending, count 0, bus free) is kept |

`oled.c` repeats the driver routines of `main.c`: `oled_init`
(oled.c:54-60), `oled_set_cursor` (62-69), `oled_pixel_off` (71-76),
`oled_clear` (85-94), `oled_print_char` (106-114) and `get_digit`
(195-203). These copies send the same bytes, so the single `Oled` module
models both files.

## Left out

- Hardware registers are not modelled. This covers the port, pin-change
  and interrupt-enable setup in `main` (main.c:306-314) and the timer
  registers written by `pwm_ch1..3` (main.c:225-247). A PWM update
  appears as one `SetDuty(channel, duty)` event in `Controller.pwm`.
- Timing is not modelled: `_delay_ms` and the `nop` in `i2c_write`. For
  the same reason, `oled_light_up` and the `oled_pixel_on` it uses are
  not modelled either. They are a delay-paced test pattern that nothing
  else calls.
- The electrical side of the bus is not modelled. The lines are
  write-only open-drain events. The acknowledge bit is never read back by
  the source, so the model does not read it either.
- `PROGMEM` and `pgm_read_byte` are not modelled. The font and the init
  table are constant sequences.
- `i2c.h` and `oled.h` are not part of this model. `oled.c` is assumed to
  use the I2C routines of `main.c`.
- The `i2c_init` call at the start of the `oled.c` version of
  `oled_clear` (oled.c:86) adds no line events. It releases lines that
  are already released on a free bus.
- Concurrency is not modelled. The main loop is idle, so the interrupt is
  one atomic method.
- `Encoder.Controller.Sample` assumes that `count` is read before
  `change_count` writes it (main.c:329), so a rotation step is +1 or -1.
  C leaves the order unspecified. The other order would give +2 or -2.
- `Encoder.Controller.Drive` requires the channel to be in 1..3. The
  interrupt's branch for any other channel (main.c:342-359, no branch
  taken) is unreachable, because `Interrupt` keeps the channel in 1..3.
- `set_channel1..3` are one method, `MainScreen.SetChannel(ch, duty)`.
  `pwm_ch1..3` are one event type. They differ only in the page and in
  the timer used.
- `Oled.PrintChar` and the label routines require a glyph index inside
  the font. The C code reads outside the table otherwise, which the model
  does not describe.
- `OledScreen.Stretch` is computed on unsigned 16-bit words, while
  `oled_stretch` works on a signed 16-bit AVR `int`. For a byte with bit 7
  set (the % glyph's 0xC6, 0xCC and 0xC4) the C result would pass 32767.
  `oled_print_big_char` stretches only the digit glyphs 0..9 (oled.c:171,
  175), whose bytes are all at most 0x7F, and `OledScreen.DigitStretchFits`
  proves their stretched columns stay at most 0x3FFF, so the two agree
  wherever the firmware uses them.
- `OledScreen.ArrowsCleared`: states only that the arrow's two cursor
  transactions appear among the blanking pairs. It does not restate that
  each is followed by the blank glyph. That fact is part of the
  `ClearArrowsMsgs` definition that `OledScreen.ClearArrows` is proved
  against.
