/** The rotary encoder and its push button, and the three PWM channels they
    set: the pin-change interrupt of main.c decodes one edge, applies the
    step to the active channel's duty, redraws that channel on the display
    and hands the duty to its PWM timer. */
module Encoder {
  import opened I2c
  import opened Oled
  import opened MainScreen

  /** Port B bits the interrupt samples: the encoder clock, the encoder
      data line and the button. */
  const ClockPin: bv8 := 7
  const DataPin: bv8 := 4
  const SwitchPin: bv8 := 5

  /** The level of bit k of a port read, as the C int 0 or 1. */
  function Level(port: bv8, k: bv8): (l: int)
    requires k < 8
    ensures l == 0 || l == 1
    ensures l == 1 <==> Bit(port, k)
  {
    ((port >> k) & 1) as int
  }

  /** An unsigned 8-bit global: count, switch_count, channel and the duties. */
  type Byte = x: int | 0 <= x < 256

  /** Storing a C int into a uint8_t keeps it modulo 256. */
  function Wrap(x: int): (w: Byte)
    ensures 0 <= x < 256 ==> w == x
    ensures -256 <= x < 0 ==> w == x + 256
  {
    x % 256
  }

  /** The sum of two uint8 values, computed as a C int and stored back into
      a uint8_t. */
  function AddByte(x: Byte, y: Byte): (r: Byte)
    ensures r == (x + y) % 256
  {
    if x + y < 256 then x + y else x + y - 256
  }

  /** The decoder's globals: the last levels seen on the three pins, the
      pending step, the button edge counter and the active channel. */
  datatype Knob = Knob(a0: int, c0: int, s0: int, count: Byte, switchCount: Byte, channel: Byte)

  /** What every interrupt leaves behind: a channel in 1..3, at most one
      button edge pending and no step left over. */
  predicate Settled(k: Knob)
  {
    1 <= k.channel <= 3 && k.switchCount <= 1 && k.count == 0
  }

  /** The value change_count stores in count and returns: +1 when the two
      encoder lines agree, -1 as a uint8 (255) when they differ. */
  function StepOf(up: bool): (step: Byte)
    ensures up ==> step == 1
    ensures !up ==> AddByte(step, 1) == 0
  {
    Wrap(if up then 1 else -1)
  }

  /** The channel after channel 3 is channel 1 again. */
  function NextChannel(ch: int): (next: Byte)
    requires 1 <= ch <= 3
    ensures 1 <= next <= 3 && next != ch
    ensures next == ch % 3 + 1
  {
    if ch == 3 then 1 else ch + 1
  }

  /** The first half of the interrupt on levels a, b, s: a change of the
      clock line is a rotation (a step only when the data line changed too);
      otherwise a change of the button line is a button edge, and every
      second edge moves to the next channel. The step is added to count
      after count is read, so it is the step itself when count is 0. */
  function Decode(k: Knob, a: int, b: int, s: int): (r: Knob)
  {
    if a != k.a0 then
      if b != k.c0 then k.(a0 := a, c0 := b, count := AddByte(k.count, StepOf(a == b)))
      else k.(a0 := a)
    else if s != k.s0 then
      var edges := AddByte(k.switchCount, 1);
      if edges == 2 then
        var ch := AddByte(k.channel, 1);
        k.(s0 := s, switchCount := 0, channel := if ch > 3 then 1 else ch)
      else k.(s0 := s, switchCount := edges)
    else k
  }

  /** The three channels' duties, count_ch1, count_ch2 and count_ch3. */
  datatype Duties = Duties(ch1: Byte, ch2: Byte, ch3: Byte)

  function DutyOf(d: Duties, ch: int): Byte
    requires 1 <= ch <= 3
  {
    if ch == 1 then d.ch1 else if ch == 2 then d.ch2 else d.ch3
  }

  /** The second half of the interrupt: the pending step is added, as a
      uint8, to the duty of the active channel. */
  function Commit(k: Knob, d: Duties): (r: Duties)
    requires 1 <= k.channel <= 3
  {
    if k.channel == 1 then d.(ch1 := AddByte(d.ch1, k.count))
    else if k.channel == 2 then d.(ch2 := AddByte(d.ch2, k.count))
    else d.(ch3 := AddByte(d.ch3, k.count))
  }

  /** A rotation is a step of exactly +1 or -1 and only when both lines
      changed: +1 when they now agree, -1 (255) when they differ, and no
      step at all otherwise. */
  lemma RotationStep(k: Knob, a: int, b: int, s: int)
    requires Settled(k)
    ensures var r := Decode(k, a, b, s);
      && (r.count == 1 <==> a != k.a0 && b != k.c0 && a == b)
      && (r.count == 255 <==> a != k.a0 && b != k.c0 && a != b)
      && (r.count == 0 <==> a == k.a0 || b == k.c0)
  {
  }

  /** Rotation takes priority over the button: when the clock line changed,
      the button level, the edge counter and the channel stay as they were,
      whatever the button did. */
  lemma RotationFirst(k: Knob, a: int, b: int, s: int)
    requires a != k.a0
    ensures var r := Decode(k, a, b, s);
      r.s0 == k.s0 && r.switchCount == k.switchCount && r.channel == k.channel && r.a0 == a
  {
  }

  /** Only the button's second edge moves the channel, to the next one; a
      button edge, or no edge at all, carries no step. */
  lemma ButtonEdge(k: Knob, a: int, b: int, s: int)
    requires Settled(k)
    ensures var r := Decode(k, a, b, s);
      && (r.channel != k.channel <==> a == k.a0 && s != k.s0 && k.switchCount == 1)
      && (r.channel != k.channel ==> r.channel == NextChannel(k.channel) && r.switchCount == 0)
      && (a == k.a0 ==> r.count == 0 && r.c0 == k.c0)
  {
  }

  /** Two button edges in a row, with the encoder at rest, advance the
      channel exactly once, 1 to 2 to 3 to 1, and leave no edge pending;
      the first of them alone never changes the channel. */
  lemma TwoEdges(k: Knob, a: int, b: int, s: int, s': int)
    requires Settled(k) && k.switchCount == 0
    requires a == k.a0 && s != k.s0 && s' != s
    ensures var r := Decode(k, a, b, s);
      && r.channel == k.channel && r.switchCount == 1
      && Decode(r, a, b, s').channel == NextChannel(k.channel)
      && Decode(r, a, b, s').switchCount == 0
  {
  }

  /** Decoding keeps the channel in 1..3 and at most one edge pending, so
      once the step is committed the globals are settled again. */
  lemma DecodeKeeps(k: Knob, a: int, b: int, s: int)
    requires Settled(k)
    ensures var r := Decode(k, a, b, s);
      1 <= r.channel <= 3 && Settled(r.(count := 0))
  {
  }

  /** Committing a decoded interrupt moves the active channel's duty by one
      step at most, wrapping at the ends of the uint8 range (a step down
      from 0 gives 255, a step up from 255 gives 0), and leaves the other
      two duties as they were. */
  lemma CommitActiveOnly(k: Knob, a: int, b: int, s: int, d: Duties, ch: int)
    requires Settled(k) && 1 <= ch <= 3
    ensures var r := Decode(k, a, b, s);
      var before, after := DutyOf(d, ch), DutyOf(Commit(r, d), ch);
      && (ch != r.channel ==> after == before)
      && (ch == r.channel && r.count == 1 ==> after == if before == 255 then 0 else before + 1)
      && (ch == r.channel && r.count == 255 ==> after == if before == 0 then 255 else before - 1)
      && (ch == r.channel && r.count == 0 ==> after == before)
  {
    DecodeKeeps(k, a, b, s);
  }

  /** A duty event handed to one of the three PWM timers. */
  datatype PwmEvent = SetDuty(channel: Byte, duty: Byte)

  /** The firmware's globals and its display. */
  class Controller {
    var a0: int
    var c0: int
    var s0: int
    var count: Byte
    var switchCount: Byte
    var channel: Byte
    var duty1: Byte
    var duty2: Byte
    var duty3: Byte
    /** The duties handed to the PWM timers, in order. */
    var pwm: seq<PwmEvent>
    const bus: Bus

    function Knobs(): Knob
      reads this
    {
      Knob(a0, c0, s0, count, switchCount, channel)
    }

    function Settings(): Duties
      reads this
    {
      Duties(duty1, duty2, duty3)
    }

    ghost predicate Valid()
      reads this, bus
    {
      Settled(Knobs()) && bus.Free()
    }

    /** main: the start-up screen, every channel at duty 0 on channel 1. */
    constructor ()
      ensures Valid() && fresh(bus)
      ensures Knobs() == Knob(0, 0, 0, 0, 0, 1) && Settings() == Duties(0, 0, 0)
      ensures bus.sent == BootMsgs() && pwm == []
    {
      var display := Boot();
      a0, c0, s0, count := 0, 0, 0, 0;
      switchCount, channel := 0, 1;
      duty1, duty2, duty3 := 0, 0, 0;
      pwm := [];
      bus := display;
    }

    /** change_count: stores the step in count and returns it. */
    method ChangeCount(up: bool) returns (step: Byte)
      modifies this`count
      ensures count == step == StepOf(up)
    {
      count := Wrap(if up then 1 else -1);
      step := count;
    }

    /** The decoding half of the interrupt on levels a, b and s. */
    method Sample(a: int, b: int, s: int)
      modifies this`a0, this`c0, this`s0, this`count, this`switchCount, this`channel
      ensures Knobs() == Decode(old(Knobs()), a, b, s)
    {
      if a != a0 {
        a0 := a;
        if b != c0 {
          c0 := b;
          var pending := count;
          var step := ChangeCount(a == b);
          count := AddByte(pending, step);
        }
      } else if s != s0 {
        s0 := s;
        switchCount := AddByte(switchCount, 1);
        if switchCount == 2 {
          channel := AddByte(channel, 1);
          switchCount := 0;
          if channel > 3 {
            channel := 1;
          }
        }
      }
    }

    /** set_channelN followed by pwm_chN: channel ch redrawn with its duty,
        and the duty handed to its timer. */
    method Show(ch: int, duty: Byte)
      requires 1 <= ch <= 3 && bus.Free()
      modifies this`pwm, bus
      ensures bus.Free() && bus.sent == old(bus.sent) + ChannelMsgs(ch, duty)
      ensures pwm == old(pwm) + [SetDuty(ch, duty)]
    {
      SetChannel(bus, ch, duty);
      pwm := pwm + [SetDuty(ch, duty)];
    }

    /** The controlling half of the interrupt: the pending step goes to the
        active channel's duty, that channel is redrawn and its duty handed
        to its timer, and count is cleared. */
    method Drive()
      requires 1 <= channel <= 3 && bus.Free()
      modifies this`duty1, this`duty2, this`duty3, this`count, this`pwm, bus
      ensures Settings() == Commit(old(Knobs()), old(Settings())) && count == 0
      ensures bus.Free() && bus.sent == old(bus.sent) + ChannelMsgs(channel, DutyOf(Settings(), channel))
      ensures pwm == old(pwm) + [SetDuty(channel, DutyOf(Settings(), channel))]
    {
      var duty: Byte;
      if channel == 1 {
        duty1 := AddByte(duty1, count);
        duty := duty1;
      } else if channel == 2 {
        duty2 := AddByte(duty2, count);
        duty := duty2;
      } else {
        duty3 := AddByte(duty3, count);
        duty := duty3;
      }
      Show(channel, duty);
      count := 0;
    }

    /** The pin-change interrupt, run to completion on one read of port B. */
    method Interrupt(port: bv8)
      requires Valid()
      modifies this, bus
      ensures Valid()
      ensures var r := Decode(old(Knobs()), Level(port, ClockPin), Level(port, DataPin), Level(port, SwitchPin));
        && Knobs() == r.(count := 0)
        && Settings() == Commit(r, old(Settings()))
      ensures bus.sent == old(bus.sent) + ChannelMsgs(channel, DutyOf(Settings(), channel))
      ensures pwm == old(pwm) + [SetDuty(channel, DutyOf(Settings(), channel))]
    {
      var a := Level(port, ClockPin);
      var b := Level(port, DataPin);
      var s := Level(port, SwitchPin);
      DecodeKeeps(Knobs(), a, b, s);
      Sample(a, b, s);
      Drive();
    }
  }
}
