/** The standalone I2C-backpack driver of components/lcd/lcd_16x04.c. It
    frames each byte like the serial transport of hd44780.c, but sends
    every frame byte in a bus write of its own to `LCD_ADDRESS`, ignores
    every result, numbers rows from 1 and has its own init list. */
module Lcd16x04 {
  import opened Bits
  import opened Hal
  import opened Transport
  import opened Controller
  import Hd44780

  /** `LCD_ADDRESS`, the address every write of this driver passes. */
  const LcdAddress: byte := 0x27

  /** `lcd_set_command` and `lcd_set_char`, which have the same body: the
      byte's two nibbles, each in bits 7..4 of a byte of its own. */
  function Halves(b: byte): (a: seq<byte>)
    ensures |a| == 2
  {
    [b & 0xF0, (b << 4) & 0xF0]
  }

  /** The first half holds the high nibble in place, the second the low
      nibble moved up; their low bits are clear, and the two halves give the
      byte back. */
  lemma HalvesSplit(b: byte)
    ensures var a := Halves(b);
      && a[0] >> 4 == HighNibble(b) && a[1] >> 4 == LowNibble(b)
      && a[0] & 0x0F == 0 && a[1] & 0x0F == 0
      && a[0] | (a[1] >> 4) == b
  {
  }

  /** The calls of sending the bytes `f` one bus write per byte. */
  function ByteWrites(f: seq<byte>): seq<Event>
    decreases |f|
  {
    if f == [] then [] else ByteWrites(f[..|f| - 1]) + [BusWrite(LcdAddress, [f[|f| - 1]])]
  }

  lemma ByteWritesSnoc(f: seq<byte>, k: nat)
    requires k < |f|
    ensures ByteWrites(f[..k + 1]) == ByteWrites(f[..k]) + [BusWrite(LcdAddress, [f[k]])]
  {
    assert f[..k + 1][..k] == f[..k];
  }

  /** Every byte goes out in its own one-byte write to `LCD_ADDRESS`, in
      order. */
  lemma {:induction false} ByteWritesEach(f: seq<byte>)
    ensures |ByteWrites(f)| == |f|
    ensures forall i | 0 <= i < |f| :: ByteWrites(f)[i] == BusWrite(LcdAddress, [f[i]])
    decreases |f|
  {
    if f != [] {
      ByteWritesEach(f[..|f| - 1]);
    }
  }

  lemma {:induction false} ByteWritesAppend(a: seq<byte>, b: seq<byte>)
    ensures ByteWrites(a + b) == ByteWrites(a) + ByteWrites(b)
    decreases |b|
  {
    if b == [] {
      assert a + b == a;
    } else {
      var c := b[..|b| - 1];
      ByteWritesAppend(a, c);
      assert (a + b)[..|a + b| - 1] == a + c;
    }
  }

  /** The bytes that reach the expander are exactly the bytes sent. */
  lemma {:induction false} ByteWritesWire(f: seq<byte>)
    ensures WireBytes(ByteWrites(f), LcdAddress) == f
    decreases |f|
  {
    if f == [] {
      WireBytesEmpty(LcdAddress);
    } else {
      var g := f[..|f| - 1];
      ByteWritesWire(g);
      WireBytesAppend(ByteWrites(g), [BusWrite(LcdAddress, [f[|f| - 1]])], LcdAddress);
      WireBytesOne(BusWrite(LcdAddress, [f[|f| - 1]]), LcdAddress);
    }
  }

  /** What a controller behind the backpack at `LCD_ADDRESS` decodes from
      the calls `s`, E being `en` before them. */
  function Decoded(s: seq<Event>, en: bool): seq<Transfer>
  {
    Transfers(ExpanderSamples(WireBytes(s, LcdAddress), en))
  }

  /** Round trip: the frames of any commands and data bytes, sent a byte
      at a time, are decoded as those commands and data bytes. */
  lemma FramesDecode(xs: seq<Transfer>, en: bool)
    ensures Decoded(ByteWrites(Frames(xs)), en) == xs
  {
    ByteWritesWire(Frames(xs));
    FramesReplay(xs, en);
    PairsDecode(xs);
  }

  // ---------------------------------------------------------------------
  // Sending

  /** The loop of `i2c_send_command` and `i2c_send_char`: each of the four
      bytes in a write of its own, its result ignored. */
  method SendBytes(hw: Hardware, data: array<byte>)
    requires data.Length == 4
    modifies hw
    ensures hw.trace == old(hw.trace) + ByteWrites(data[..])
  {
    ghost var t0 := hw.trace;
    assert data[..0] == [];
    var i := 0;
    while i < 4
      invariant 0 <= i <= 4
      invariant hw.trace == t0 + ByteWrites(data[..i])
    {
      var ret := hw.BusWrite(LcdAddress, [data[i]]);
      ByteWritesSnoc(data[..], i);
      assert data[..][..i] == data[..i] && data[..][..i + 1] == data[..i + 1];
      i := i + 1;
    }
    assert data[..4] == data[..];
  }

  /** `i2c_send_command`: the four bytes of the command's frame, one write
      each; they are the bytes of the serial command frame of hd44780.c. */
  method SendCommand(hw: Hardware, c: byte)
    modifies hw
    ensures hw.trace == old(hw.trace) + ByteWrites(CommandFrame(c))
  {
    var halves := Halves(c);
    var upper, lower := halves[0], halves[1];
    var data := new byte[4] [upper | 0x04, upper, lower | 0x04, lower | 0x08];
    assert data[..] == [upper | 0x04, upper, lower | 0x04, lower | 0x08];
    CommandFrameFromHalves(c);
    SendBytes(hw, data);
  }

  /** `i2c_send_char`: the four bytes of the character's frame, one write
      each; they are the bytes of the serial data frame of hd44780.c. */
  method SendChar(hw: Hardware, d: byte)
    modifies hw
    ensures hw.trace == old(hw.trace) + ByteWrites(DataFrame(d))
  {
    var halves := Halves(d);
    var upper, lower := halves[0], halves[1];
    var data := new byte[4] [upper | 0x0D, upper | 0x09, lower | 0x0D, lower | 0x09];
    assert data[..] == [upper | 0x0D, upper | 0x09, lower | 0x0D, lower | 0x09];
    DataFrameFromHalves(d);
    SendBytes(hw, data);
  }

  /** The bytes `i2c_send_command` builds from the halves are the serial
      command frame. */
  lemma CommandFrameFromHalves(c: byte)
    ensures var a := Halves(c); [a[0] | 0x04, a[0], a[1] | 0x04, a[1] | 0x08] == CommandFrame(c)
  {
  }

  /** The bytes `i2c_send_char` builds from the halves are the serial data
      frame. */
  lemma DataFrameFromHalves(d: byte)
    ensures var a := Halves(d); [a[0] | 0x0D, a[0] | 0x09, a[1] | 0x0D, a[1] | 0x09] == DataFrame(d)
  {
  }

  lemma FramesSnoc(xs: seq<Transfer>, k: nat)
    requires k < |xs|
    ensures Frames(xs[..k + 1]) == Frames(xs[..k]) + Frame(xs[k])
  {
    assert xs[..k + 1][..k] == xs[..k];
  }

  /** One more character frame extends the string's calls. */
  lemma SendStringStep(xs: seq<Transfer>, k: nat, t0: seq<Event>, mid: seq<Event>, t1: seq<Event>)
    requires k < |xs| && xs[k].isData
    requires mid == t0 + ByteWrites(Frames(xs[..k]))
    requires t1 == mid + ByteWrites(DataFrame(xs[k].value))
    ensures t1 == t0 + ByteWrites(Frames(xs[..k + 1]))
  {
    FramesSnoc(xs, k);
    ByteWritesAppend(Frames(xs[..k]), Frame(xs[k]));
    AppendAssoc(t0, ByteWrites(Frames(xs[..k])), ByteWrites(DataFrame(xs[k].value)));
  }

  /** `i2c_send_string`: one character frame for every byte before the
      NUL, in order. */
  method SendString(hw: Hardware, str: array<byte>)
    requires 0 in str[..]
    modifies hw
    ensures hw.trace == old(hw.trace) + ByteWrites(Frames(Hd44780.DataBytes(Hd44780.UntilNul(str[..]))))
  {
    ghost var text := Hd44780.UntilNul(str[..]);
    ghost var xs := Hd44780.DataBytes(text);
    ghost var t0 := hw.trace;
    assert xs[..0] == [];
    var i := 0;
    while str[i] != 0
      invariant 0 <= i <= |text|
      invariant hw.trace == t0 + ByteWrites(Frames(xs[..i]))
      decreases |text| - i
    {
      ghost var mid := hw.trace;
      assert xs[i] == Data(str[i]) by {
        assert str[i] == text[i];
      }
      SendChar(hw, str[i]);
      SendStringStep(xs, i, t0, mid, hw.trace);
      i := i + 1;
    }
    assert xs[..i] == xs;
  }

  // ---------------------------------------------------------------------
  // Cursor placement

  /** The low eight bits of a C int in two's complement, as a conversion
      to `BYTE` keeps them. */
  function LowByte(x: int): byte
  {
    (x % 0x100) as byte
  }

  /** The command `LCD_goto_XY` sends for row `y` (1 or 2) and column `x`:
      the C int `0x80 | X` or `0xC0 | X` truncated to a byte. It is always a
      "set DDRAM address" instruction that keeps the column's low six bits;
      row 2 sets address bit 6, and row 1 leaves it as the column has it. */
  function GotoCommand(x: int, y: int): (cmd: byte)
    requires 1 <= y <= 2
    ensures cmd & 0x80 == 0x80
    ensures cmd & 0x3F == LowByte(x) & 0x3F
    ensures cmd & 0x40 == (if y == 2 then 0x40 else LowByte(x) & 0x40)
  {
    (if y == 1 then 0x80 else 0xC0) | LowByte(x)
  }

  /** For a column below 0x40 the command sets the DDRAM address of row
      `y`: the same command hd44780.c writes for the 0-based row `y - 1`. */
  lemma GotoMatchesHd44780(x: int, y: int)
    requires 1 <= y <= 2 && 0 <= x < 0x40
    ensures GotoCommand(x, y) == Hd44780.GotoCommand(x as byte, (y - 1) as byte)
    ensures GotoCommand(x, y) & 0x7F == Hd44780.RowStart((y - 1) as byte) + x as byte
  {
    var b := x as byte;
    assert LowByte(x) == b;
    assert b < 0x40;
  }

  /** A column of 0x40 or more on row 1 sets address bit 6 as well, so the
      cursor lands on row 2: column 0x40 of row 1 is column 0 of row 2. */
  lemma GotoWideColumnOverlaps()
    ensures GotoCommand(0x40, 1) == GotoCommand(0, 2)
  {
    assert LowByte(0x40) == 0x40 && LowByte(0) == 0;
  }

  /** `LCD_goto_XY`: nothing (besides a log line) for a row outside 1..2,
      otherwise the one command frame of `GotoCommand`. */
  method GotoXY(hw: Hardware, x: int, y: int)
    modifies hw
    ensures (y < 1 || y > 2) ==> hw.trace == old(hw.trace)
    ensures 1 <= y <= 2 ==> hw.trace == old(hw.trace) + ByteWrites(CommandFrame(GotoCommand(x, y)))
  {
    if y > 2 || y < 1 {
      return;
    }
    var cmd: byte := if y == 1 then 0x80 | ((x % 0x100) as byte) else 0xC0 | ((x % 0x100) as byte);
    assert cmd == GotoCommand(x, y);
    SendCommand(hw, cmd);
  }

  // ---------------------------------------------------------------------
  // Initialisation

  /** One step of `LCD_INIT`: a command and the pause after it. */
  datatype Step = Step(command: byte, ms: nat)

  /** The steps of `LCD_INIT`, in order: 0x33 then a 10 ms pause, then 0x32,
      function set 0x28, clear 0x01, entry mode 0x06, display on 0x0C and
      return home 0x02, each followed by a 50 ms pause. */
  function InitSteps(): (steps: seq<Step>)
    ensures |steps| == 7
  {
    [Step(0x33, 10), Step(0x32, 50), Step(0x28, 50), Step(0x01, 50), Step(0x06, 50), Step(0x0C, 50), Step(0x02, 50)]
  }

  /** The calls of the steps `steps`, one after the other. */
  function StepsEvents(steps: seq<Step>): seq<Event>
    decreases |steps|
  {
    if steps == [] then []
    else
      var st := steps[|steps| - 1];
      StepsEvents(steps[..|steps| - 1]) + ByteWrites(CommandFrame(st.command)) + [Delay(st.ms)]
  }

  /** The commands of the steps `steps`. */
  function StepCommands(steps: seq<Step>): (xs: seq<Transfer>)
    ensures |xs| == |steps| && forall i | 0 <= i < |steps| :: xs[i] == Command(steps[i].command)
  {
    seq(|steps|, i requires 0 <= i < |steps| => Command(steps[i].command))
  }

  /** The pauses are invisible on the wire: the steps put exactly the
      frames of their commands on the bus. */
  lemma {:induction false} StepsWire(steps: seq<Step>)
    ensures WireBytes(StepsEvents(steps), LcdAddress) == Frames(StepCommands(steps))
    decreases |steps|
  {
    if steps == [] {
      WireBytesEmpty(LcdAddress);
      assert StepCommands(steps) == [];
    } else {
      var rest, st := steps[..|steps| - 1], steps[|steps| - 1];
      StepsWire(rest);
      var a, b := StepsEvents(rest), ByteWrites(CommandFrame(st.command));
      WireBytesAppend(a + b, [Delay(st.ms)], LcdAddress);
      WireBytesAppend(a, b, LcdAddress);
      WireBytesOne(Delay(st.ms), LcdAddress);
      ByteWritesWire(CommandFrame(st.command));
      assert StepCommands(steps)[..|steps| - 1] == StepCommands(rest);
    }
  }

  lemma StepsSnoc(steps: seq<Step>, k: nat, t0: seq<Event>, mid: seq<Event>, t1: seq<Event>)
    requires k < |steps|
    requires mid == t0 + StepsEvents(steps[..k])
    requires t1 == mid + ByteWrites(CommandFrame(steps[k].command)) + [Delay(steps[k].ms)]
    ensures t1 == t0 + StepsEvents(steps[..k + 1])
  {
    assert steps[..k + 1][..k] == steps[..k];
    var a := StepsEvents(steps[..k]);
    var b := ByteWrites(CommandFrame(steps[k].command));
    AppendAssoc(t0, a, b);
    AppendAssoc(t0, a + b, [Delay(steps[k].ms)]);
  }

  /** One step: the command frame, then the pause. */
  method CommandThenDelay(hw: Hardware, ghost steps: seq<Step>, ghost k: nat, c: byte, ms: nat, ghost t0: seq<Event>)
    requires k < |steps| && steps[k] == Step(c, ms)
    requires hw.trace == t0 + StepsEvents(steps[..k])
    modifies hw
    ensures hw.trace == t0 + StepsEvents(steps[..k + 1])
  {
    ghost var mid := hw.trace;
    SendCommand(hw, c);
    hw.Delay(ms);
    StepsSnoc(steps, k, t0, mid, hw.trace);
  }

  /** `LCD_INIT`: the seven steps in order. */
  method Init(hw: Hardware)
    modifies hw
    ensures hw.trace == old(hw.trace) + StepsEvents(InitSteps())
  {
    ghost var steps := InitSteps();
    ghost var t0 := hw.trace;
    assert steps[..0] == [];
    CommandThenDelay(hw, steps, 0, 0x33, 10, t0);
    CommandThenDelay(hw, steps, 1, 0x32, 50, t0);
    CommandThenDelay(hw, steps, 2, 0x28, 50, t0);
    CommandThenDelay(hw, steps, 3, 0x01, 50, t0);
    CommandThenDelay(hw, steps, 4, 0x06, 50, t0);
    CommandThenDelay(hw, steps, 5, 0x0C, 50, t0);
    CommandThenDelay(hw, steps, 6, 0x02, 50, t0);
    assert steps[..7] == steps;
  }

  /** Any steps are decoded as exactly their commands, in order: the pauses
      between them reach neither the bus nor the controller. */
  lemma StepsDeliver(steps: seq<Step>, en: bool)
    ensures Decoded(StepsEvents(steps), en) == StepCommands(steps)
  {
    var xs := StepCommands(steps);
    StepsWire(steps);
    FramesReplay(xs, en);
    PairsDecode(xs);
  }

  /** A controller behind the backpack decodes the init as exactly the
      seven commands, in order. */
  lemma InitDelivers(en: bool)
    ensures Decoded(StepsEvents(InitSteps()), en) ==
      [Command(0x33), Command(0x32), Command(0x28), Command(0x01), Command(0x06), Command(0x0C), Command(0x02)]
  {
    StepsDeliver(InitSteps(), en);
    InitCommands();
  }

  lemma InitCommands()
    ensures StepCommands(InitSteps()) ==
      [Command(0x33), Command(0x32), Command(0x28), Command(0x01), Command(0x06), Command(0x0C), Command(0x02)]
  {
  }
}
