/** The bit-banged, write-only two-wire (I2C) master of the firmware, as the
    sequence of line changes it makes, and a model of the receiving side that
    reads those changes back: START and STOP conditions, data bits sampled
    while SCL is high, bytes of eight bits followed by an acknowledge slot
    (sections 3.1.3 to 3.1.6 of the NXP I2C-bus specification UM10204). */
module I2c {

  datatype Option<T> = None | Some(value: T)

  /** One change the controller makes to a bus line. Both lines are open-drain:
      "high" releases the line to its pull-up, "low" drives it low. */
  datatype LineEvent = SdaLow | SdaHigh | SclLow | SclHigh

  /** The bit i2c_write tests: bit 7 of its working copy. */
  function Top(d: bv8): bool
  {
    d & 0x80 != 0
  }

  /** Bit k of d. */
  function Bit(d: bv8, k: bv8): bool
    requires k < 8
  {
    (d >> k) & 1 == 1
  }

  /** One data-bit clock pulse: SDA is pulled low, released again when the bit
      is 1, and only then is SCL raised and lowered. */
  function ClockBit(b: bool): seq<LineEvent>
  {
    if b then [SdaLow, SdaHigh, SclHigh, SclLow] else [SdaLow, SclHigh, SclLow]
  }

  /** The acknowledge slot: SDA released and one more clock pulse. The
      controller never reads SDA back, so the acknowledge is not checked. */
  const AckSlot: seq<LineEvent> := [SdaHigh, SclHigh, SclLow]

  /** The events of i2c_write's loop when n bits remain in the working copy
      d, followed by the acknowledge slot. */
  function ByteEvents(d: bv8, n: nat): seq<LineEvent>
    decreases n
  {
    if n == 0 then AckSlot else ClockBit(Top(d)) + ByteEvents(d << 1, n - 1)
  }

  /** The line events of writing one byte. */
  function WriteEvents(d: bv8): seq<LineEvent>
  {
    ByteEvents(d, 8)
  }

  /** i2c_write sends bits 7 down to 0 of its byte, one clock pulse each, and
      then gives the acknowledge slot. */
  lemma WriteBits(d: bv8)
    ensures WriteEvents(d)
         == ClockBit(Bit(d, 7)) + (ClockBit(Bit(d, 6)) + (ClockBit(Bit(d, 5)) + (ClockBit(Bit(d, 4))
          + (ClockBit(Bit(d, 3)) + (ClockBit(Bit(d, 2)) + (ClockBit(Bit(d, 1)) + (ClockBit(Bit(d, 0))
          + AckSlot)))))))
  {
    var x1 := d << 1; var x2 := x1 << 1; var x3 := x2 << 1; var x4 := x3 << 1;
    var x5 := x4 << 1; var x6 := x5 << 1; var x7 := x6 << 1;
    ShiftedTops(d);
    var e1 := ClockBit(Bit(d, 0)) + AckSlot;
    assert ByteEvents(x7, 1) == e1;
    var e2 := ClockBit(Bit(d, 1)) + e1;
    assert ByteEvents(x6, 2) == e2;
    var e3 := ClockBit(Bit(d, 2)) + e2;
    assert ByteEvents(x5, 3) == e3;
    var e4 := ClockBit(Bit(d, 3)) + e3;
    assert ByteEvents(x4, 4) == e4;
    var e5 := ClockBit(Bit(d, 4)) + e4;
    assert ByteEvents(x3, 5) == e5;
    var e6 := ClockBit(Bit(d, 5)) + e5;
    assert ByteEvents(x2, 6) == e6;
    var e7 := ClockBit(Bit(d, 6)) + e6;
    assert ByteEvents(x1, 7) == e7;
    assert ByteEvents(d, 8) == ClockBit(Bit(d, 7)) + e7;
  }

  /** Shifting left m times brings bit 7 - m to the top. */
  lemma ShiftedTops(d: bv8)
    ensures var x1 := d << 1; var x2 := x1 << 1; var x3 := x2 << 1; var x4 := x3 << 1;
      var x5 := x4 << 1; var x6 := x5 << 1; var x7 := x6 << 1;
      && Top(d) == Bit(d, 7) && Top(x1) == Bit(d, 6) && Top(x2) == Bit(d, 5) && Top(x3) == Bit(d, 4)
      && Top(x4) == Bit(d, 3) && Top(x5) == Bit(d, 2) && Top(x6) == Bit(d, 1) && Top(x7) == Bit(d, 0)
  {
  }

  function WriteAll(ds: seq<bv8>): seq<LineEvent>
  {
    if ds == [] then [] else WriteAll(ds[..|ds| - 1]) + WriteEvents(ds[|ds| - 1])
  }

  /** START condition (SDA falls while SCL is high), then SCL low. */
  const StartCondEvents: seq<LineEvent> := [SdaLow, SclLow]

  /** STOP condition: SDA low, SCL high, then SDA rises while SCL is high. */
  const StopEvents: seq<LineEvent> := [SdaLow, SclHigh, SdaHigh]

  /** The events of one message. A non-empty byte list is a whole transaction
      (a start with its first byte, the other bytes, a stop); the empty list
      is a stop issued on a free bus, which a receiver sees as a START
      immediately followed by a STOP. */
  function MessageEvents(bytes: seq<bv8>): seq<LineEvent>
  {
    if bytes == [] then StopEvents else StartCondEvents + WriteAll(bytes) + StopEvents
  }

  function BusEvents(ms: seq<seq<bv8>>): seq<LineEvent>
  {
    if ms == [] then [] else BusEvents(ms[..|ms| - 1]) + MessageEvents(ms[|ms| - 1])
  }

  lemma Assoc<T>(a: seq<T>, b: seq<T>, c: seq<T>)
    ensures a + b + c == a + (b + c)
  {
  }

  lemma Concat3<T>(s: seq<T>, a: seq<T>, b: seq<T>, c: seq<T>)
    ensures s + a + b + c == s + (a + b + c)
  {
  }

  lemma Concat4<T>(s: seq<T>, a: seq<T>, b: seq<T>, c: seq<T>, d: seq<T>)
    ensures s + a + b + c + d == s + (a + b + c + d)
  {
  }

  lemma TakeOneMore<T>(s: seq<T>, i: nat)
    requires i < |s|
    ensures s[..i + 1] == s[..i] + [s[i]]
  {
  }

  lemma TakeTwoMore<T>(s: seq<T>, i: nat)
    requires i + 1 < |s|
    ensures s[..i + 2] == s[..i] + [s[i], s[i + 1]]
  {
    TakeOneMore(s, i);
    TakeOneMore(s, i + 1);
    Snoc2(s[..i], s[i], s[i + 1]);
  }

  lemma Snoc2<T>(s: seq<T>, a: T, b: T)
    ensures s + [a] + [b] == s + [a, b]
  {
  }

  lemma Snoc3<T>(s: seq<T>, a: T, b: T, c: T)
    ensures s + [a] + [b] + [c] == s + [a, b, c]
  {
  }

  lemma Snoc4<T>(s: seq<T>, a: T, b: T, c: T, d: T)
    ensures s + [a] + [b] + [c] + [d] == s + [a, b, c, d]
  {
  }

  /** The two bus lines as the controller drives them; `lines` is every change
      made so far, starting from both lines released (i2c_init). The ghost
      fields read the same history as messages: `sent` holds the messages
      completed so far and, while a transaction is `started`, `open` holds
      the bytes written since its START. `frames` holds the line record of
      each completed message and `written` that of each byte of the open
      one. */
  class Bus {
    var lines: seq<LineEvent>
    ghost var sent: seq<seq<bv8>>
    ghost var started: bool
    ghost var open: seq<bv8>
    ghost var frames: seq<seq<LineEvent>>
    ghost var written: seq<seq<LineEvent>>

    ghost predicate Valid()
      reads this
    {
      Coherent(lines, sent, started, open, frames, written)
    }

    /** A free bus with no transaction in progress. */
    ghost predicate Free()
      reads this
    {
      Valid() && !started
    }

    /** i2c_init: both lines released, nothing sent. */
    constructor ()
      ensures Free() && sent == [] && lines == []
    {
      lines := [];
      sent := [];
      started := false;
      open := [];
      frames := [];
      written := [];
    }

    /** The pin loop of i2c_write: eight bits, most significant first,
        then the acknowledge slot. */
    method Clock(dat: bv8)
      modifies this`lines
      ensures lines == old(lines) + WriteEvents(dat)
    {
      var d := dat;
      var i := 8;
      while i != 0
        invariant 0 <= i <= 8
        invariant lines + ByteEvents(d, i) == old(lines) + WriteEvents(dat)
      {
        ghost var before := lines;
        ghost var bit := Top(d);
        lines := lines + [SdaLow];
        if d & 0x80 != 0 {
          lines := lines + [SdaHigh];
        }
        lines := lines + [SclHigh];
        d := d << 1;
        lines := lines + [SclLow];
        if bit {
          Snoc4(before, SdaLow, SdaHigh, SclHigh, SclLow);
        } else {
          Snoc3(before, SdaLow, SclHigh, SclLow);
        }
        Assoc(before, ClockBit(bit), ByteEvents(d, i - 1));
        i := i - 1;
      }
      ghost var bits := lines;
      lines := lines + [SdaHigh];
      lines := lines + [SclHigh];
      lines := lines + [SclLow];
      Snoc3(bits, SdaHigh, SclHigh, SclLow);
    }

    /** i2c_write: the byte goes out on the lines and joins the open
        transaction. */
    method Write(dat: bv8)
      requires Valid() && started
      modifies this
      ensures Valid() && started && sent == old(sent) && open == old(open) + [dat]
      ensures frames == old(frames)
    {
      ghost var pre := Flat(frames) + StartCondEvents;
      Clock(dat);
      Assoc(pre, Flat(written), WriteEvents(dat));
      FlatMore(written, WriteEvents(dat));
      WrittenMore(written, open, dat);
      written := written + [WriteEvents(dat)];
      open := open + [dat];
    }

    /** i2c_start: the START condition, then the address byte. */
    method Start(addr: bv8)
      requires Free()
      modifies this
      ensures lines == old(lines) + StartCondEvents + WriteEvents(addr)
      ensures Valid() && started && sent == old(sent) && open == [addr]
    {
      lines := lines + [SdaLow];
      lines := lines + [SclLow];
      Snoc2(old(lines), SdaLow, SclLow);
      StartCoherent(old(lines), sent, open, frames, written);
      started := true;
      Write(addr);
      FlatOne(written, open);
    }

    /** i2c_stop. After a transaction it completes the message; on a free
        bus it is heard as an empty message (a START immediately followed by
        a STOP). */
    method Stop()
      requires Valid() && (started ==> open != [])
      modifies this
      ensures lines == old(lines) + StopEvents
      ensures Free() && sent == old(sent) + [old(open)]
    {
      lines := lines + [SdaLow];
      lines := lines + [SclHigh];
      lines := lines + [SdaHigh];
      Snoc3(old(lines), SdaLow, SclHigh, SdaHigh);
      StopCoherent(old(lines), sent, started, open, frames, written);
      frames := frames + [MessageEvents(open)];
      sent := sent + [open];
      started := false;
      open := [];
      written := [];
    }
  }

  /** The invariant of Bus: the line record is the frames of the completed
      messages, then, inside a transaction, its START and the records of
      the bytes written since. */
  ghost predicate Coherent(lines: seq<LineEvent>, sent: seq<seq<bv8>>, started: bool, open: seq<bv8>,
                           frames: seq<seq<LineEvent>>, written: seq<seq<LineEvent>>)
  {
    && |frames| == |sent|
    && (forall i {:trigger MessageEvents(sent[i])} | 0 <= i < |sent| :: frames[i] == MessageEvents(sent[i]))
    && |written| == |open|
    && (forall j {:trigger WriteEvents(open[j])} | 0 <= j < |open| :: written[j] == WriteEvents(open[j]))
    && if started then lines == Flat(frames) + StartCondEvents + Flat(written)
       else lines == Flat(frames) && open == []
  }

  /** A START on a free bus opens an empty transaction. */
  lemma StartCoherent(lines: seq<LineEvent>, sent: seq<seq<bv8>>, open: seq<bv8>,
                      frames: seq<seq<LineEvent>>, written: seq<seq<LineEvent>>)
    requires Coherent(lines, sent, false, open, frames, written)
    ensures Coherent(lines + StartCondEvents, sent, true, open, frames, written)
  {
    assert Flat(written) == [];
  }

  lemma FlatOne(ws: seq<seq<LineEvent>>, ds: seq<bv8>)
    requires |ws| == |ds| == 1
    requires forall j {:trigger WriteEvents(ds[j])} | 0 <= j < |ds| :: ws[j] == WriteEvents(ds[j])
    ensures Flat(ws) == WriteEvents(ds[0])
  {
    assert ws[0] == WriteEvents(ds[0]);
    assert Flat(ws) == Flat(ws[..0]) + ws[0];
  }

  /** A STOP keeps the invariant and completes the open message. */
  lemma StopCoherent(lines: seq<LineEvent>, sent: seq<seq<bv8>>, started: bool, open: seq<bv8>,
                     frames: seq<seq<LineEvent>>, written: seq<seq<LineEvent>>)
    requires Coherent(lines, sent, started, open, frames, written) && (started ==> open != [])
    ensures Coherent(lines + StopEvents, sent + [open], false, [], frames + [MessageEvents(open)], [])
  {
    Closing(frames, written, open, started);
    FramesMore(frames, sent, open);
  }

  /** What a receiver on the bus makes of everything sent once the bus is
      free again: exactly the messages the transactions carried. */
  lemma Received(bus: Bus)
    requires bus.Free()
    ensures Receive(bus.lines) == Some(bus.sent)
  {
    FlatFrames(bus.frames, bus.sent);
    ReceiveBus(bus.sent);
  }

  /** The line records of several messages, one after another. */
  function Flat(fs: seq<seq<LineEvent>>): seq<LineEvent>
  {
    if |fs| == 0 then [] else Flat(fs[..|fs| - 1]) + fs[|fs| - 1]
  }

  lemma FlatMore(fs: seq<seq<LineEvent>>, f: seq<LineEvent>)
    ensures Flat(fs) + f == Flat(fs + [f])
  {
    assert (fs + [f])[..|fs|] == fs;
  }

  /** Message by message, the frames are the line events of the messages
      sent. */
  lemma {:induction false} FlatFrames(fs: seq<seq<LineEvent>>, ms: seq<seq<bv8>>)
    requires |fs| == |ms|
    requires forall i {:trigger MessageEvents(ms[i])} | 0 <= i < |ms| :: fs[i] == MessageEvents(ms[i])
    ensures Flat(fs) == BusEvents(ms)
    decreases |ms|
  {
    if |ms| > 0 {
      var n := |ms| - 1;
      var fs', ms' := fs[..n], ms[..n];
      forall i | 0 <= i < n
        ensures fs'[i] == MessageEvents(ms'[i])
      {
        assert fs[i] == MessageEvents(ms[i]);
      }
      FlatFrames(fs', ms');
      assert fs[n] == MessageEvents(ms[n]);
      assert Flat(fs) == Flat(fs') + fs[n];
      assert BusEvents(ms) == BusEvents(ms') + MessageEvents(ms[n]);
    }
  }

  /** A STOP completes the open transaction, or is an empty message on a
      free bus. */
  lemma Closing(fs: seq<seq<LineEvent>>, ws: seq<seq<LineEvent>>, ds: seq<bv8>, started: bool)
    requires |ws| == |ds| && (started ==> ds != []) && (!started ==> ds == [])
    requires forall j {:trigger WriteEvents(ds[j])} | 0 <= j < |ds| :: ws[j] == WriteEvents(ds[j])
    ensures (if started then Flat(fs) + StartCondEvents + Flat(ws) else Flat(fs)) + StopEvents
      == Flat(fs + [MessageEvents(ds)])
  {
    if started {
      FlatBytes(ws, ds);
      Assoc(Flat(fs), StartCondEvents, WriteAll(ds));
      Assoc(Flat(fs), StartCondEvents + WriteAll(ds), StopEvents);
    }
    FlatMore(fs, MessageEvents(ds));
  }

  lemma FramesMore(fs: seq<seq<LineEvent>>, ms: seq<seq<bv8>>, m: seq<bv8>)
    requires |fs| == |ms|
    requires forall i {:trigger MessageEvents(ms[i])} | 0 <= i < |ms| :: fs[i] == MessageEvents(ms[i])
    ensures forall i {:trigger MessageEvents((ms + [m])[i])} | 0 <= i < |ms| + 1 ::
      (fs + [MessageEvents(m)])[i] == MessageEvents((ms + [m])[i])
  {
    forall i | 0 <= i < |ms| + 1
      ensures (fs + [MessageEvents(m)])[i] == MessageEvents((ms + [m])[i])
    {
      if i < |ms| {
        assert fs[i] == MessageEvents(ms[i]);
      }
    }
  }

  lemma WrittenMore(ws: seq<seq<LineEvent>>, ds: seq<bv8>, d: bv8)
    requires |ws| == |ds|
    requires forall j {:trigger WriteEvents(ds[j])} | 0 <= j < |ds| :: ws[j] == WriteEvents(ds[j])
    ensures forall j {:trigger WriteEvents((ds + [d])[j])} | 0 <= j < |ds| + 1 ::
      (ws + [WriteEvents(d)])[j] == WriteEvents((ds + [d])[j])
  {
    forall j | 0 <= j < |ds| + 1
      ensures (ws + [WriteEvents(d)])[j] == WriteEvents((ds + [d])[j])
    {
      if j < |ds| {
        assert ws[j] == WriteEvents(ds[j]);
      }
    }
  }

  /** Byte by byte, the records are the line events of the bytes written. */
  lemma {:induction false} FlatBytes(ws: seq<seq<LineEvent>>, ds: seq<bv8>)
    requires |ws| == |ds|
    requires forall j {:trigger WriteEvents(ds[j])} | 0 <= j < |ds| :: ws[j] == WriteEvents(ds[j])
    ensures Flat(ws) == WriteAll(ds)
    decreases |ds|
  {
    if |ds| > 0 {
      var n := |ds| - 1;
      var ws', ds' := ws[..n], ds[..n];
      forall j | 0 <= j < n
        ensures ws'[j] == WriteEvents(ds'[j])
      {
        assert ws[j] == WriteEvents(ds[j]);
      }
      FlatBytes(ws', ds');
      assert ws[n] == WriteEvents(ds[n]);
      assert Flat(ws) == Flat(ws') + ws[n];
      assert WriteAll(ds) == WriteAll(ds') + WriteEvents(ds[n]);
    }
  }

  // ---------------------------------------------------------------------
  // The receiving side, layer 1: bus conditions and data bits.

  /** What a receiver makes of the lines: a START condition, a STOP
      condition, or a data bit (sampled while SCL was high and kept when SCL
      falls with no START or STOP in between). */
  datatype Symbol = StartCondition | StopCondition | DataBit(b: bool)

  datatype Sample = NoSample | Sampled(level: bool)

  /** The receiver's view of the lines, with every symbol recognised so far. */
  datatype Wires = Wires(sda: bool, scl: bool, sample: Sample, heard: seq<Symbol>)

  /** Both lines released: the bus is free. */
  function Idle(heard: seq<Symbol>): Wires
  {
    Wires(true, true, NoSample, heard)
  }

  /** SCL low, between two clock pulses. */
  function Between(sda: bool, heard: seq<Symbol>): Wires
  {
    Wires(sda, false, NoSample, heard)
  }

  function Next(w: Wires, e: LineEvent): Wires
  {
    match e
    case SdaLow =>
      if w.scl && w.sda then w.(sda := false, sample := NoSample, heard := w.heard + [StartCondition])
      else w.(sda := false)
    case SdaHigh =>
      if w.scl && !w.sda then w.(sda := true, sample := NoSample, heard := w.heard + [StopCondition])
      else w.(sda := true)
    case SclHigh =>
      if w.scl then w else w.(scl := true, sample := Sampled(w.sda))
    case SclLow =>
      if !w.scl then w
      else w.(scl := false, sample := NoSample,
              heard := w.heard + (if w.sample.Sampled? then [DataBit(w.sample.level)] else []))
  }

  function Listen(events: seq<LineEvent>, w: Wires): Wires
  {
    if events == [] then w else Listen(events[1..], Next(w, events[0]))
  }

  /** What a receiver hears of the last n bits of a byte whose remaining bits
      are the top n of d, and of the acknowledge slot with SDA released. */
  function BitSymbols(d: bv8, n: nat): seq<Symbol>
    decreases n
  {
    if n == 0 then [DataBit(true)] else [DataBit(Top(d))] + BitSymbols(d << 1, n - 1)
  }

  /** What a receiver hears of one byte: its eight bits, most significant
      first, then the acknowledge slot. */
  function ByteSymbols(d: bv8): seq<Symbol>
  {
    BitSymbols(d, 8)
  }

  function BytesSymbols(ds: seq<bv8>): seq<Symbol>
  {
    if ds == [] then [] else BytesSymbols(ds[..|ds| - 1]) + ByteSymbols(ds[|ds| - 1])
  }

  function MessageSymbols(bytes: seq<bv8>): seq<Symbol>
  {
    [StartCondition] + BytesSymbols(bytes) + [StopCondition]
  }

  function BusSymbols(ms: seq<seq<bv8>>): seq<Symbol>
  {
    if ms == [] then [] else BusSymbols(ms[..|ms| - 1]) + MessageSymbols(ms[|ms| - 1])
  }

  // ---------------------------------------------------------------------
  // The receiving side, layer 2: bytes and messages.

  /** A shift register that already holds acc, after the top n bits of d are
      shifted in, most significant first. */
  function Pack(acc: bv8, d: bv8, n: nat): bv8
    decreases n
  {
    if n == 0 then acc else Pack(ShiftIn(acc, Top(d)), d << 1, n - 1)
  }

  function ShiftIn(acc: bv8, b: bool): bv8
  {
    (acc << 1) | (if b then 1 else 0)
  }

  /** Inside a message: the bytes complete so far, and a shift register with
      the number of bits of the current byte it holds. */
  datatype Open = Closed | Receiving(bytes: seq<bv8>, shift: bv8, count: nat)

  /** The messages received so far, or Garbled once the symbols stop making
      sense for a write-only controller (a bit outside a message, a STOP in
      the middle of a byte, a START inside a message). */
  datatype Reader = Reader(done: seq<seq<bv8>>, open: Open) | Garbled

  function Accept(r: Reader, s: Symbol): Reader
  {
    match r
    case Garbled => Garbled
    case Reader(done, Closed) =>
      if s == StartCondition then Reader(done, Receiving([], 0, 0)) else Garbled
    case Reader(done, Receiving(bytes, shift, count)) =>
      match s
      case StartCondition => Garbled
      case StopCondition => if count == 0 then Reader(done + [bytes], Closed) else Garbled
      case DataBit(b) =>
        if count < 8 then Reader(done, Receiving(bytes, ShiftIn(shift, b), count + 1))
        else Reader(done, Receiving(bytes + [shift], 0, 0))
  }

  function Parse(syms: seq<Symbol>, r: Reader): Reader
  {
    if syms == [] then r else Parse(syms[1..], Accept(r, syms[0]))
  }

  /** The messages a receiver on the bus takes from a whole sequence of line
      events, starting from a free bus; None when they do not form complete
      messages. */
  function Receive(events: seq<LineEvent>): Option<seq<seq<bv8>>>
  {
    var r := Parse(Listen(events, Idle([])).heard, Reader([], Closed));
    if r.Reader? && r.open.Closed? then Some(r.done) else None
  }

  // ---------------------------------------------------------------------
  // Layer 1 lemmas.

  lemma {:induction false} ListenAppend(a: seq<LineEvent>, b: seq<LineEvent>, w: Wires)
    ensures Listen(a + b, w) == Listen(b, Listen(a, w))
  {
    if a == [] {
      assert a + b == b;
    } else {
      assert (a + b)[1..] == a[1..] + b;
      ListenAppend(a[1..], b, Next(w, a[0]));
    }
  }

  lemma ListenOne(e: LineEvent, w: Wires)
    ensures Listen([e], w) == Next(w, e)
  {
    assert [e][1..] == [];
  }

  lemma ListenThree(e1: LineEvent, e2: LineEvent, e3: LineEvent, w: Wires)
    ensures Listen([e1, e2, e3], w) == Next(Next(Next(w, e1), e2), e3)
  {
    assert [e1, e2, e3] == [e1] + [e2, e3];
    assert [e2, e3] == [e2] + [e3];
    ListenAppend([e1], [e2, e3], w);
    ListenAppend([e2], [e3], Next(w, e1));
    ListenOne(e1, w);
    ListenOne(e2, Next(w, e1));
    ListenOne(e3, Next(Next(w, e1), e2));
  }

  /** One data-bit pulse is heard as exactly that bit, and leaves SCL low
      with SDA at the bit's level. */
  lemma ListenClockBit(b: bool, sda: bool, h: seq<Symbol>)
    ensures Listen(ClockBit(b), Between(sda, h)) == Between(b, h + [DataBit(b)])
  {
    var w0 := Between(sda, h);
    if b {
      assert ClockBit(b) == [SdaLow] + [SdaHigh, SclHigh, SclLow];
      ListenAppend([SdaLow], [SdaHigh, SclHigh, SclLow], w0);
      ListenOne(SdaLow, w0);
      ListenThree(SdaHigh, SclHigh, SclLow, Between(false, h));
    } else {
      ListenThree(SdaLow, SclHigh, SclLow, w0);
    }
  }

  /** The rest of a byte, and its acknowledge slot, are heard as the bits
      i2c_write sends; no START or STOP appears inside a byte. */
  lemma {:induction false} ListenBits(d: bv8, n: nat, sda: bool, h: seq<Symbol>)
    ensures Listen(ByteEvents(d, n), Between(sda, h)) == Between(true, h + BitSymbols(d, n))
    decreases n
  {
    if n == 0 {
      ListenThree(SdaHigh, SclHigh, SclLow, Between(sda, h));
    } else {
      var b := Top(d);
      ListenAppend(ClockBit(b), ByteEvents(d << 1, n - 1), Between(sda, h));
      ListenClockBit(b, sda, h);
      ListenBits(d << 1, n - 1, b, h + [DataBit(b)]);
      Assoc(h, [DataBit(b)], BitSymbols(d << 1, n - 1));
    }
  }

  lemma {:induction false} ListenWriteAll(ds: seq<bv8>, sda: bool, h: seq<Symbol>)
    ensures Listen(WriteAll(ds), Between(sda, h)) == Between(ds != [] || sda, h + BytesSymbols(ds))
    decreases |ds|
  {
    if ds == [] {
      assert h + [] == h;
    } else {
      var init, last := ds[..|ds| - 1], ds[|ds| - 1];
      ListenWriteAll(init, sda, h);
      ListenAppend(WriteAll(init), WriteEvents(last), Between(sda, h));
      ListenBits(last, 8, init != [] || sda, h + BytesSymbols(init));
      Assoc(h, BytesSymbols(init), ByteSymbols(last));
    }
  }

  /** One message, sent on a free bus, is heard as START, its bytes and STOP,
      and leaves the bus free again. */
  lemma ListenMessage(bytes: seq<bv8>, h: seq<Symbol>)
    ensures Listen(MessageEvents(bytes), Idle(h)) == Idle(h + MessageSymbols(bytes))
  {
    if bytes == [] {
      ListenThree(SdaLow, SclHigh, SdaHigh, Idle(h));
      assert MessageSymbols(bytes) == [StartCondition, StopCondition];
    } else {
      var h1 := h + [StartCondition];
      var h2 := h1 + BytesSymbols(bytes);
      ListenAppend([SdaLow], [SclLow], Idle(h));
      ListenOne(SdaLow, Idle(h));
      ListenOne(SclLow, Wires(false, true, NoSample, h1));
      assert StartCondEvents == [SdaLow] + [SclLow];
      assert Listen(StartCondEvents, Idle(h)) == Between(false, h1);
      ListenAppend(StartCondEvents, WriteAll(bytes), Idle(h));
      ListenWriteAll(bytes, false, h1);
      assert Listen(StartCondEvents + WriteAll(bytes), Idle(h)) == Between(true, h2);
      ListenAppend(StartCondEvents + WriteAll(bytes), StopEvents, Idle(h));
      ListenThree(SdaLow, SclHigh, SdaHigh, Between(true, h2));
      assert Listen(StopEvents, Between(true, h2)) == Idle(h2 + [StopCondition]);
      Assoc(h, [StartCondition], BytesSymbols(bytes));
      Assoc(h, [StartCondition] + BytesSymbols(bytes), [StopCondition]);
    }
  }

  lemma {:induction false} ListenBus(ms: seq<seq<bv8>>, h: seq<Symbol>)
    ensures Listen(BusEvents(ms), Idle(h)) == Idle(h + BusSymbols(ms))
    decreases |ms|
  {
    if ms == [] {
      assert h + [] == h;
    } else {
      var init, last := ms[..|ms| - 1], ms[|ms| - 1];
      ListenBus(init, h);
      ListenAppend(BusEvents(init), MessageEvents(last), Idle(h));
      ListenMessage(last, h + BusSymbols(init));
      Assoc(h, BusSymbols(init), MessageSymbols(last));
    }
  }

  // ---------------------------------------------------------------------
  // Layer 2 lemmas.

  lemma {:induction false} ParseAppend(a: seq<Symbol>, b: seq<Symbol>, r: Reader)
    ensures Parse(a + b, r) == Parse(b, Parse(a, r))
  {
    if a == [] {
      assert a + b == b;
    } else {
      assert (a + b)[1..] == a[1..] + b;
      ParseAppend(a[1..], b, Accept(r, a[0]));
    }
  }

  lemma ParseOne(s: Symbol, r: Reader)
    ensures Parse([s], r) == Accept(r, s)
  {
    assert [s][1..] == [];
  }

  lemma RebuildByte(d: bv8)
    ensures
      var x1 := d << 1; var x2 := x1 << 1; var x3 := x2 << 1; var x4 := x3 << 1;
      var x5 := x4 << 1; var x6 := x5 << 1; var x7 := x6 << 1;
      var p1 := ShiftIn(0, Top(d));
      var p2 := ShiftIn(p1, Top(x1));
      var p3 := ShiftIn(p2, Top(x2));
      var p4 := ShiftIn(p3, Top(x3));
      var p5 := ShiftIn(p4, Top(x4));
      var p6 := ShiftIn(p5, Top(x5));
      var p7 := ShiftIn(p6, Top(x6));
      ShiftIn(p7, Top(x7)) == d
  {
  }

  lemma PackTwo(acc: bv8, x: bv8, n: nat)
    ensures Pack(acc, x, n + 2) == Pack(ShiftIn(ShiftIn(acc, Top(x)), Top(x << 1)), x << 1 << 1, n)
  {
  }

  /** The shift register rebuilds a byte from the bits i2c_write sends:
      sending most significant bit first and shifting in loses nothing. */
  lemma PackByte(d: bv8)
    ensures Pack(0, d, 8) == d
  {
    var x1 := d << 1; var x2 := x1 << 1; var x3 := x2 << 1; var x4 := x3 << 1;
    var x5 := x4 << 1; var x6 := x5 << 1; var x7 := x6 << 1;
    var p2 := ShiftIn(ShiftIn(0, Top(d)), Top(x1));
    var p4 := ShiftIn(ShiftIn(p2, Top(x2)), Top(x3));
    var p6 := ShiftIn(ShiftIn(p4, Top(x4)), Top(x5));
    var p8 := ShiftIn(ShiftIn(p6, Top(x6)), Top(x7));
    PackTwo(0, d, 6);
    PackTwo(p2, x2, 4);
    PackTwo(p4, x4, 2);
    PackTwo(p6, x6, 0);
    RebuildByte(d);
  }

  /** The last n bits of a byte, then its acknowledge slot, complete the byte
      in the shift register and append it to the message. */
  lemma {:induction false} ParseBits(d: bv8, n: nat, done: seq<seq<bv8>>, bytes: seq<bv8>, acc: bv8)
    requires n <= 8
    ensures Parse(BitSymbols(d, n), Reader(done, Receiving(bytes, acc, 8 - n)))
         == Reader(done, Receiving(bytes + [Pack(acc, d, n)], 0, 0))
    decreases n
  {
    if n == 0 {
      ParseOne(DataBit(true), Reader(done, Receiving(bytes, acc, 8)));
    } else {
      var s := BitSymbols(d, n);
      assert s[0] == DataBit(Top(d)) && s[1..] == BitSymbols(d << 1, n - 1);
      ParseBits(d << 1, n - 1, done, bytes, ShiftIn(acc, Top(d)));
    }
  }

  /** A whole byte with its acknowledge slot adds exactly that byte to the
      message. */
  lemma ParseByte(d: bv8, done: seq<seq<bv8>>, bytes: seq<bv8>)
    ensures Parse(ByteSymbols(d), Reader(done, Receiving(bytes, 0, 0)))
         == Reader(done, Receiving(bytes + [d], 0, 0))
  {
    ParseBits(d, 8, done, bytes, 0);
    PackByte(d);
  }

  lemma {:induction false} ParseBytes(ds: seq<bv8>, done: seq<seq<bv8>>, bytes: seq<bv8>)
    ensures Parse(BytesSymbols(ds), Reader(done, Receiving(bytes, 0, 0)))
         == Reader(done, Receiving(bytes + ds, 0, 0))
    decreases |ds|
  {
    if ds == [] {
      assert bytes + ds == bytes;
    } else {
      var init, last := ds[..|ds| - 1], ds[|ds| - 1];
      ParseBytes(init, done, bytes);
      ParseAppend(BytesSymbols(init), ByteSymbols(last), Reader(done, Receiving(bytes, 0, 0)));
      ParseByte(last, done, bytes + init);
      Assoc(bytes, init, [last]);
      assert init + [last] == ds;
    }
  }

  lemma ParseMessage(m: seq<bv8>, done: seq<seq<bv8>>)
    ensures Parse(MessageSymbols(m), Reader(done, Closed)) == Reader(done + [m], Closed)
  {
    var r := Reader(done, Closed);
    ParseAppend([StartCondition] + BytesSymbols(m), [StopCondition], r);
    ParseAppend([StartCondition], BytesSymbols(m), r);
    ParseOne(StartCondition, r);
    ParseBytes(m, done, []);
    assert [] + m == m;
    ParseOne(StopCondition, Reader(done, Receiving(m, 0, 0)));
  }

  lemma {:induction false} ParseBus(ms: seq<seq<bv8>>, done: seq<seq<bv8>>)
    ensures Parse(BusSymbols(ms), Reader(done, Closed)) == Reader(done + ms, Closed)
    decreases |ms|
  {
    if ms == [] {
      assert done + ms == done;
    } else {
      var init, last := ms[..|ms| - 1], ms[|ms| - 1];
      ParseBus(init, done);
      ParseAppend(BusSymbols(init), MessageSymbols(last), Reader(done, Closed));
      ParseMessage(last, done + init);
      Assoc(done, init, [last]);
      assert init + [last] == ms;
    }
  }

  /** Whatever sequence of messages the controller sends, a receiver on the
      bus gets exactly those messages back, byte for byte. */
  lemma ReceiveBus(ms: seq<seq<bv8>>)
    ensures Receive(BusEvents(ms)) == Some(ms)
  {
    ListenBus(ms, []);
    assert [] + BusSymbols(ms) == BusSymbols(ms);
    ParseBus(ms, []);
    assert [] + ms == ms;
  }
}
