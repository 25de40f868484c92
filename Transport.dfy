/** The transport strategies of the HD44780 driver: how one command or data
    byte becomes GPIO level changes (4-bit parallel) or an I2C burst to the
    expander backpack (serial), how the 4-bit lines are set up, and how a
    status byte is read back over the 4-bit lines. The 8-bit transport is a
    stub in the source and issues nothing here either. hd44780.c and
    lcd_hd44780.c carry identical copies of the 4-bit writers and line
    set-up; both are modelled by the methods below. */
module Transport {
  import opened Bits
  import opened Hal

  /** One (port, num) GPIO coordinate; -1 in both marks an unassigned line. */
  datatype Pin = Pin(port: int, num: int)

  /** The wiring record `hd44780_hw_info_t`. */
  datatype HwInfo = HwInfo(
    rs: Pin, rw: Pin, en: Pin,
    d0: Pin, d1: Pin, d2: Pin, d3: Pin,
    d4: Pin, d5: Pin, d6: Pin, d7: Pin,
    i2cNum: int, i2cPinsPack: int)

  const Unassigned: int := -1

  /** The writers and the line set-up drive RW only when both of its
      coordinates differ from the sentinel. */
  predicate RwDriven(info: HwInfo)
  {
    info.rw.port != Unassigned && info.rw.num != Unassigned
  }

  /** A logical transfer to the controller: a command (RS low) or a data byte (RS high). */
  datatype Transfer = Transfer(isData: bool, value: byte)

  function Command(c: byte): Transfer { Transfer(false, c) }

  function Data(d: byte): Transfer { Transfer(true, d) }

  /** The transport a communication mode resolves to. */
  datatype Link = FourBit | EightBit | Serial

  // ---------------------------------------------------------------------
  // 4-bit parallel writes

  /** RS first (low for a command, high for data), then RW low if it is driven. */
  function SelectScript(info: HwInfo, isData: bool): (s: seq<Event>)
    ensures |s| == if RwDriven(info) then 2 else 1
  {
    [SetLevel(RS, isData)] + if RwDriven(info) then [SetLevel(RW, false)] else []
  }

  /** d4..d7 take bits 0..3 of the nibble, least significant first. */
  function DataLinesScript(n: byte): (s: seq<Event>)
    ensures |s| == 4
  {
    [SetLevel(D4, Bit(n, 0)), SetLevel(D5, Bit(n, 1)), SetLevel(D6, Bit(n, 2)), SetLevel(D7, Bit(n, 3))]
  }

  /** EN high, 1 ms, EN low, 1 ms. */
  function PulseScript(): (s: seq<Event>)
    ensures |s| == 4
  {
    [SetLevel(EN, true), Delay(1), SetLevel(EN, false), Delay(1)]
  }

  /** One nibble: the data lines, then the enable pulse. */
  function NibbleScript(n: byte): (s: seq<Event>)
    ensures |s| == 8
  {
    DataLinesScript(n) + PulseScript()
  }

  /** Every call a 4-bit write makes when none fails: the register select,
      then the high nibble, then the low nibble. It starts by driving RS to
      the register chosen, makes two enable pulses, and only drives lines
      and sleeps: no line is reconfigured or read. */
  function ParallelScript(info: HwInfo, x: Transfer): (s: seq<Event>)
    ensures |s| == |SelectScript(info, x.isData)| + 16 && s[0] == SetLevel(RS, x.isData)
    ensures forall i | 0 <= i < |s| :: s[i].SetLevel? || s[i].Delay?
  {
    SelectScript(info, x.isData) + NibbleScript(HighNibble(x.value)) + NibbleScript(LowNibble(x.value))
  }

  /** Drives RS, and RW when it is wired, stopping at the first failing call. */
  method SelectRegister(hw: Hardware, info: HwInfo, isData: bool) returns (ok: bool)
    modifies hw
    ensures var r := Run(SelectScript(info, isData), |old(hw.trace)|, hw.failing);
      hw.trace == old(hw.trace) + r.events && ok == r.ok
  {
    ghost var s, t0 := SelectScript(info, isData), hw.trace;
    ghost var t := hw.trace;
    IssueBegin(t0, s, hw.failing);
    ok := hw.SetLevel(RS, isData);
    IssueStep(t, hw.trace, t0, s, 0, hw.failing, ok);
    if !ok { return; }
    if info.rw.port != Unassigned && info.rw.num != Unassigned {
      t := hw.trace;
      ok := hw.SetLevel(RW, false);
      IssueStep(t, hw.trace, t0, s, 1, hw.failing, ok);
      if !ok { return; }
    }
    IssueDone(hw.trace, t0, s, hw.failing);
  }

  /** Puts a nibble on d4..d7, stopping at the first failing call. */
  method SetDataLines(hw: Hardware, nibble: byte) returns (ok: bool)
    modifies hw
    ensures var r := Run(DataLinesScript(nibble), |old(hw.trace)|, hw.failing);
      hw.trace == old(hw.trace) + r.events && ok == r.ok
  {
    ghost var s, t0 := DataLinesScript(nibble), hw.trace;
    ghost var t := hw.trace;
    IssueBegin(t0, s, hw.failing);
    var bit := Bit(nibble, 0);
    ok := hw.SetLevel(D4, bit);
    IssueStep(t, hw.trace, t0, s, 0, hw.failing, ok);
    if !ok { return; }
    t := hw.trace;
    bit := Bit(nibble, 1);
    ok := hw.SetLevel(D5, bit);
    IssueStep(t, hw.trace, t0, s, 1, hw.failing, ok);
    if !ok { return; }
    t := hw.trace;
    bit := Bit(nibble, 2);
    ok := hw.SetLevel(D6, bit);
    IssueStep(t, hw.trace, t0, s, 2, hw.failing, ok);
    if !ok { return; }
    t := hw.trace;
    bit := Bit(nibble, 3);
    ok := hw.SetLevel(D7, bit);
    IssueStep(t, hw.trace, t0, s, 3, hw.failing, ok);
    if !ok { return; }
    IssueDone(hw.trace, t0, s, hw.failing);
  }

  /** Pulses EN high then low, stopping at the first failing call. */
  method PulseEnable(hw: Hardware) returns (ok: bool)
    modifies hw
    ensures var r := Run(PulseScript(), |old(hw.trace)|, hw.failing);
      hw.trace == old(hw.trace) + r.events && ok == r.ok
  {
    ghost var s, t0 := PulseScript(), hw.trace;
    ghost var t := hw.trace;
    IssueBegin(t0, s, hw.failing);
    ok := hw.SetLevel(EN, true);
    IssueStep(t, hw.trace, t0, s, 0, hw.failing, ok);
    if !ok { return; }
    t := hw.trace;
    hw.Delay(1);
    IssueStep(t, hw.trace, t0, s, 1, hw.failing, true);
    t := hw.trace;
    ok := hw.SetLevel(EN, false);
    IssueStep(t, hw.trace, t0, s, 2, hw.failing, ok);
    if !ok { return; }
    t := hw.trace;
    hw.Delay(1);
    IssueStep(t, hw.trace, t0, s, 3, hw.failing, true);
    IssueDone(hw.trace, t0, s, hw.failing);
  }

  /** Sends one nibble: data lines, then the enable pulse. */
  method SendNibble(hw: Hardware, nibble: byte) returns (ok: bool)
    modifies hw
    ensures var r := Run(NibbleScript(nibble), |old(hw.trace)|, hw.failing);
      hw.trace == old(hw.trace) + r.events && ok == r.ok
  {
    ghost var d, p := DataLinesScript(nibble), PulseScript();
    ghost var t0 := hw.trace;
    ok := SetDataLines(hw, nibble);
    if !ok {
      RunStop(d, p, hw.failing, t0, hw.trace);
      return;
    }
    ghost var t := hw.trace;
    ok := PulseEnable(hw);
    RunThen(d, p, hw.failing, t0, t, hw.trace);
  }

  /** `_write_cmd_4bit` (x a command) and `_write_data_4bit` (x data): the
      calls of `ParallelScript`, in order, stopping at the first that fails. */
  method Write4Bit(hw: Hardware, info: HwInfo, x: Transfer) returns (ok: bool)
    modifies hw
    ensures var r := Run(ParallelScript(info, x), |old(hw.trace)|, hw.failing);
      hw.trace == old(hw.trace) + r.events && ok == r.ok
  {
    ghost var sel, hi, lo := SelectScript(info, x.isData), NibbleScript(HighNibble(x.value)), NibbleScript(LowNibble(x.value));
    ghost var t0 := hw.trace;
    var nibbleH := HighNibble(x.value);
    var nibbleL := LowNibble(x.value);
    ok := SelectRegister(hw, info, x.isData);
    if !ok {
      RunStop(sel, hi, hw.failing, t0, hw.trace);
      RunStop(sel + hi, lo, hw.failing, t0, hw.trace);
      return;
    }
    ghost var t := hw.trace;
    ok := SendNibble(hw, nibbleH);
    RunThen(sel, hi, hw.failing, t0, t, hw.trace);
    if !ok {
      RunStop(sel + hi, lo, hw.failing, t0, hw.trace);
      return;
    }
    t := hw.trace;
    ok := SendNibble(hw, nibbleL);
    RunThen(sel + hi, lo, hw.failing, t0, t, hw.trace);
  }

  // ---------------------------------------------------------------------
  // Serial (I2C expander backpack)

  /** `I2C_ADDR`, the expander's address 0x27 shifted left by one. */
  const I2cAddr: byte := 0x4E

  /** The expander's output bits: RS, RW, EN, backlight; bits 7..4 carry D7..D4. */
  const RsBit: byte := 0x01
  const RwBit: byte := 0x02
  const EnBit: byte := 0x04
  const BacklightBit: byte := 0x08

  /** The four expander bytes of a command, high nibble first. */
  function CommandFrame(c: byte): (f: seq<byte>)
    ensures |f| == 4
  {
    [(c & 0xF0) | 0x04, c & 0xF0, ((c << 4) & 0xF0) | 0x04, ((c << 4) & 0xF0) | 0x08]
  }

  /** The layout of a command frame: RS and RW low throughout, EN high
      then low around each nibble, high nibble first, the backlight bit set
      only in the last byte; the two nibbles give the command back. */
  lemma CommandFrameLayout(c: byte)
    ensures var f := CommandFrame(c);
      && (forall i | 0 <= i < 4 :: f[i] & RsBit == 0 && f[i] & RwBit == 0)
      && f[0] & EnBit != 0 && f[1] & EnBit == 0 && f[2] & EnBit != 0 && f[3] & EnBit == 0
      && f[0] >> 4 == f[1] >> 4 == HighNibble(c) && f[2] >> 4 == f[3] >> 4 == LowNibble(c)
      && f[3] & BacklightBit != 0 && (forall i | 0 <= i < 3 :: f[i] & BacklightBit == 0)
      && (f[0] & 0xF0) | (f[2] >> 4) == c
  {
  }

  /** The four expander bytes of a data byte, high nibble first. */
  function DataFrame(d: byte): (f: seq<byte>)
    ensures |f| == 4
  {
    [(d & 0xF0) | 0x0D, (d & 0xF0) | 0x09, ((d << 4) & 0xF0) | 0x0D, ((d << 4) & 0xF0) | 0x09]
  }

  /** The layout of a data frame: RS high and RW low throughout, the
      backlight on throughout, EN high then low around each nibble; the two
      nibbles give the byte back. */
  lemma DataFrameLayout(d: byte)
    ensures var f := DataFrame(d);
      && (forall i | 0 <= i < 4 :: f[i] & RsBit != 0 && f[i] & RwBit == 0 && f[i] & BacklightBit != 0)
      && f[0] & EnBit != 0 && f[1] & EnBit == 0 && f[2] & EnBit != 0 && f[3] & EnBit == 0
      && f[0] >> 4 == f[1] >> 4 == HighNibble(d) && f[2] >> 4 == f[3] >> 4 == LowNibble(d)
      && (f[0] & 0xF0) | (f[2] >> 4) == d
  {
  }

  function Frame(x: Transfer): seq<byte>
  {
    if x.isData then DataFrame(x.value) else CommandFrame(x.value)
  }

  /** `_write_cmd_serial` / `_write_data_serial`: the whole frame in one bus
      write to `I2C_ADDR`; its error is the routine's error. */
  method WriteSerial(hw: Hardware, x: Transfer) returns (ok: bool)
    modifies hw
    ensures var r := Run([BusWrite(I2cAddr, Frame(x))], |old(hw.trace)|, hw.failing);
      hw.trace == old(hw.trace) + r.events && ok == r.ok
  {
    var buf := if x.isData then DataFrame(x.value) else CommandFrame(x.value);
    RunSingle(BusWrite(I2cAddr, buf), |hw.trace|, hw.failing);
    ok := hw.BusWrite(I2cAddr, buf);
  }

  // ---------------------------------------------------------------------
  // Dispatch over the transport

  /** Every call one write makes over `link` when none fails. */
  function WriteScript(link: Link, info: HwInfo, x: Transfer): seq<Event>
  {
    match link
    case FourBit => ParallelScript(info, x)
    case EightBit => []
    case Serial => [BusWrite(I2cAddr, Frame(x))]
  }

  /** A call through the `_write_cmd` / `_write_data` pointer of a handle
      whose transport is `link`. */
  method Write(hw: Hardware, link: Link, info: HwInfo, x: Transfer) returns (ok: bool)
    modifies hw
    ensures var r := Run(WriteScript(link, info, x), |old(hw.trace)|, hw.failing);
      hw.trace == old(hw.trace) + r.events && ok == r.ok
  {
    match link
    case FourBit =>
      ok := Write4Bit(hw, info, x);
    case EightBit =>
      ok := true;
    case Serial =>
      ok := WriteSerial(hw, x);
  }

  /** Every call a sequence of fail-fast writes makes over `link` when none fails. */
  function StreamScript(link: Link, info: HwInfo, xs: seq<Transfer>): seq<Event>
    decreases |xs|
  {
    if xs == [] then [] else StreamScript(link, info, xs[..|xs| - 1]) + WriteScript(link, info, xs[|xs| - 1])
  }

  lemma StreamSnoc(link: Link, info: HwInfo, xs: seq<Transfer>, k: nat)
    requires k < |xs|
    ensures StreamScript(link, info, xs[..k + 1]) == StreamScript(link, info, xs[..k]) + WriteScript(link, info, xs[k])
  {
    assert xs[..k + 1][..k] == xs[..k];
  }

  lemma StreamBegin(link: Link, info: HwInfo, xs: seq<Transfer>, pos: nat, failing: set<nat>)
    ensures Run(StreamScript(link, info, xs[..0]), pos, failing) == Outcome([], true)
  {
    assert xs[..0] == [];
  }

  lemma StreamAll(link: Link, info: HwInfo, xs: seq<Transfer>)
    ensures StreamScript(link, info, xs[..|xs|]) == StreamScript(link, info, xs)
  {
    assert xs[..|xs|] == xs;
  }

  /** Two streams back to back make the calls of the one stream. */
  lemma {:induction false} StreamAppend(link: Link, info: HwInfo, xs: seq<Transfer>, ys: seq<Transfer>)
    ensures StreamScript(link, info, xs + ys) == StreamScript(link, info, xs) + StreamScript(link, info, ys)
    decreases |ys|
  {
    if ys == [] {
      assert xs + ys == xs;
    } else {
      var zs, y := ys[..|ys| - 1], ys[|ys| - 1];
      StreamAppend(link, info, xs, zs);
      SplitLast(xs, ys);
      StreamPush(link, info, zs, y);
      StreamPush(link, info, xs + zs, y);
      AppendAssoc(StreamScript(link, info, xs), StreamScript(link, info, zs), WriteScript(link, info, y));
    }
  }

  /** A non-empty sequence is its front followed by its last element, also after a prefix. */
  lemma SplitLast<T>(xs: seq<T>, ys: seq<T>)
    requires ys != []
    ensures ys == ys[..|ys| - 1] + [ys[|ys| - 1]]
    ensures xs + ys == (xs + ys[..|ys| - 1]) + [ys[|ys| - 1]]
  {
  }

  /** One more write at the end of a stream. */
  lemma StreamPush(link: Link, info: HwInfo, xs: seq<Transfer>, x: Transfer)
    ensures StreamScript(link, info, xs + [x]) == StreamScript(link, info, xs) + WriteScript(link, info, x)
  {
    assert (xs + [x])[..|xs|] == xs;
  }

  /** A stream of one write makes that write's calls. */
  lemma StreamOne(link: Link, info: HwInfo, x: Transfer)
    ensures StreamScript(link, info, [x]) == WriteScript(link, info, x)
  {
    assert [x][..0] == [];
  }

  /** Once the first `k` writes of a stream have failed, the later ones change nothing. */
  lemma {:induction false} StreamKeepsFailure(link: Link, info: HwInfo, xs: seq<Transfer>, k: nat, pos: nat, failing: set<nat>)
    requires k <= |xs| && !Run(StreamScript(link, info, xs[..k]), pos, failing).ok
    ensures Run(StreamScript(link, info, xs), pos, failing) == Run(StreamScript(link, info, xs[..k]), pos, failing)
    decreases |xs| - k
  {
    if k < |xs| {
      StreamSnoc(link, info, xs, k);
      RunAppend(StreamScript(link, info, xs[..k]), WriteScript(link, info, xs[k]), pos, failing);
      StreamKeepsFailure(link, info, xs, k + 1, pos, failing);
    } else {
      assert xs[..k] == xs;
    }
  }

  /** Write `k` of a stream, after the first `k` succeeded: the trace is that
      of the first `k + 1` writes, and if write `k` failed, that of the whole stream. */
  lemma StreamStep(link: Link, info: HwInfo, xs: seq<Transfer>, k: nat, failing: set<nat>, t0: seq<Event>, mid: seq<Event>, t1: seq<Event>)
    requires k < |xs|
    requires mid == t0 + Run(StreamScript(link, info, xs[..k]), |t0|, failing).events
    requires Run(StreamScript(link, info, xs[..k]), |t0|, failing).ok
    requires t1 == mid + Run(WriteScript(link, info, xs[k]), |mid|, failing).events
    ensures t1 == t0 + Run(StreamScript(link, info, xs[..k + 1]), |t0|, failing).events
    ensures Run(StreamScript(link, info, xs[..k + 1]), |t0|, failing).ok == Run(WriteScript(link, info, xs[k]), |mid|, failing).ok
    ensures !Run(WriteScript(link, info, xs[k]), |mid|, failing).ok ==>
      Run(StreamScript(link, info, xs), |t0|, failing) == Run(StreamScript(link, info, xs[..k + 1]), |t0|, failing)
  {
    StreamSnoc(link, info, xs, k);
    RunThen(StreamScript(link, info, xs[..k]), WriteScript(link, info, xs[k]), failing, t0, mid, t1);
    if !Run(WriteScript(link, info, xs[k]), |mid|, failing).ok {
      StreamKeepsFailure(link, info, xs, k + 1, |t0|, failing);
    }
  }

  /** Write `k` of a fail-fast stream `xs`, made once the first `k` succeeded. */
  method StreamWrite(hw: Hardware, link: Link, info: HwInfo, x: Transfer, ghost xs: seq<Transfer>, ghost k: nat, ghost t0: seq<Event>)
    returns (ok: bool)
    requires k < |xs| && xs[k] == x
    requires hw.trace == t0 + Run(StreamScript(link, info, xs[..k]), |t0|, hw.failing).events
    requires Run(StreamScript(link, info, xs[..k]), |t0|, hw.failing).ok
    modifies hw
    ensures hw.trace == t0 + Run(StreamScript(link, info, xs[..k + 1]), |t0|, hw.failing).events
    ensures ok == Run(StreamScript(link, info, xs[..k + 1]), |t0|, hw.failing).ok
    ensures !ok ==> Run(StreamScript(link, info, xs), |t0|, hw.failing) == Run(StreamScript(link, info, xs[..k + 1]), |t0|, hw.failing)
  {
    ghost var mid := hw.trace;
    ok := Write(hw, link, info, x);
    StreamStep(link, info, xs, k, hw.failing, t0, mid, hw.trace);
  }

  // ---------------------------------------------------------------------
  // Line set-up

  /** One line configured as a push-pull output, then driven low. */
  function SetUpScript(line: Line): seq<Event>
  {
    [Configure(line, Output), SetLevel(line, false)]
  }

  /** RW's set-up, present only when RW is wired. */
  function RwSetUpScript(info: HwInfo): seq<Event>
  {
    if RwDriven(info) then SetUpScript(RW) else []
  }

  /** The control lines of `_init_mode_4bit`: RS, RW (only if driven), EN. */
  function ControlSetUpScript(info: HwInfo): seq<Event>
  {
    SetUpScript(RS) + RwSetUpScript(info) + SetUpScript(EN)
  }

  /** The data lines of `_init_mode_4bit`: d4..d7. */
  function DataSetUpScript(): seq<Event>
  {
    SetUpScript(D4) + SetUpScript(D5) + SetUpScript(D6) + SetUpScript(D7)
  }

  /** Every call `_init_mode_4bit` makes when none fails. */
  function LinesScript(info: HwInfo): seq<Event>
  {
    ControlSetUpScript(info) + DataSetUpScript()
  }

  /** Configures one line as an output and drives it low. */
  method SetUpLine(hw: Hardware, line: Line) returns (ok: bool)
    modifies hw
    ensures var r := Run(SetUpScript(line), |old(hw.trace)|, hw.failing);
      hw.trace == old(hw.trace) + r.events && ok == r.ok
  {
    ghost var s, t0 := SetUpScript(line), hw.trace;
    ghost var t := hw.trace;
    IssueBegin(t0, s, hw.failing);
    ok := hw.Configure(line, Output);
    IssueStep(t, hw.trace, t0, s, 0, hw.failing, ok);
    if !ok { return; }
    t := hw.trace;
    ok := hw.SetLevel(line, false);
    IssueStep(t, hw.trace, t0, s, 1, hw.failing, ok);
    if !ok { return; }
    IssueDone(hw.trace, t0, s, hw.failing);
  }

  /** Sets up RS, RW when it is wired, and EN, stopping at the first failure. */
  method SetUpControlLines(hw: Hardware, info: HwInfo) returns (ok: bool)
    modifies hw
    ensures var r := Run(ControlSetUpScript(info), |old(hw.trace)|, hw.failing);
      hw.trace == old(hw.trace) + r.events && ok == r.ok
  {
    ghost var rs, rw, en := SetUpScript(RS), RwSetUpScript(info), SetUpScript(EN);
    ghost var t0 := hw.trace;
    ok := SetUpLine(hw, RS);
    if !ok {
      RunStop(rs, rw, hw.failing, t0, hw.trace);
      RunStop(rs + rw, en, hw.failing, t0, hw.trace);
      return;
    }
    ghost var t := hw.trace;
    if info.rw.port != Unassigned && info.rw.num != Unassigned {
      ok := SetUpLine(hw, RW);
    } else {
      RunEmpty(|hw.trace|, hw.failing);
    }
    RunThen(rs, rw, hw.failing, t0, t, hw.trace);
    if !ok {
      RunStop(rs + rw, en, hw.failing, t0, hw.trace);
      return;
    }
    t := hw.trace;
    ok := SetUpLine(hw, EN);
    RunThen(rs + rw, en, hw.failing, t0, t, hw.trace);
  }

  /** Sets up d4..d7, stopping at the first failure. */
  method SetUpDataLines(hw: Hardware) returns (ok: bool)
    modifies hw
    ensures var r := Run(DataSetUpScript(), |old(hw.trace)|, hw.failing);
      hw.trace == old(hw.trace) + r.events && ok == r.ok
  {
    ghost var d4, d5, d6, d7 := SetUpScript(D4), SetUpScript(D5), SetUpScript(D6), SetUpScript(D7);
    ghost var t0 := hw.trace;
    ok := SetUpLine(hw, D4);
    if !ok {
      RunStop(d4, d5, hw.failing, t0, hw.trace);
      RunStop(d4 + d5, d6, hw.failing, t0, hw.trace);
      RunStop(d4 + d5 + d6, d7, hw.failing, t0, hw.trace);
      return;
    }
    ghost var t := hw.trace;
    ok := SetUpLine(hw, D5);
    RunThen(d4, d5, hw.failing, t0, t, hw.trace);
    if !ok {
      RunStop(d4 + d5, d6, hw.failing, t0, hw.trace);
      RunStop(d4 + d5 + d6, d7, hw.failing, t0, hw.trace);
      return;
    }
    t := hw.trace;
    ok := SetUpLine(hw, D6);
    RunThen(d4 + d5, d6, hw.failing, t0, t, hw.trace);
    if !ok {
      RunStop(d4 + d5 + d6, d7, hw.failing, t0, hw.trace);
      return;
    }
    t := hw.trace;
    ok := SetUpLine(hw, D7);
    RunThen(d4 + d5 + d6, d7, hw.failing, t0, t, hw.trace);
  }

  /** `_init_mode_4bit`: the calls of `LinesScript`, stopping at the first failure. */
  method InitMode4Bit(hw: Hardware, info: HwInfo) returns (ok: bool)
    modifies hw
    ensures var r := Run(LinesScript(info), |old(hw.trace)|, hw.failing);
      hw.trace == old(hw.trace) + r.events && ok == r.ok
  {
    ghost var c, d := ControlSetUpScript(info), DataSetUpScript();
    ghost var t0 := hw.trace;
    ok := SetUpControlLines(hw, info);
    if !ok {
      RunStop(c, d, hw.failing, t0, hw.trace);
      return;
    }
    ghost var t := hw.trace;
    ok := SetUpDataLines(hw);
    RunThen(c, d, hw.failing, t0, t, hw.trace);
  }

  /** Every call `_init_func` makes over `link` when none fails; the 8-bit
      and serial set-ups are stubs. */
  function InitLinesScript(link: Link, info: HwInfo): seq<Event>
  {
    if link == FourBit then LinesScript(info) else []
  }

  /** A call through `_init_func` for `link`. */
  method InitLines(hw: Hardware, link: Link, info: HwInfo) returns (ok: bool)
    modifies hw
    ensures var r := Run(InitLinesScript(link, info), |old(hw.trace)|, hw.failing);
      hw.trace == old(hw.trace) + r.events && ok == r.ok
  {
    if link == FourBit {
      ok := InitMode4Bit(hw, info);
    } else {
      ok := true;
    }
  }

  // ---------------------------------------------------------------------
  // Status read over the 4-bit lines

  /** d4..d7 switched to `dir`, in that order. */
  function DataDirectionScript(dir: Direction): (s: seq<Event>)
    ensures |s| == 4
  {
    [Configure(D4, dir), Configure(D5, dir), Configure(D6, dir), Configure(D7, dir)]
  }

  /** EN driven to `level`, then 1 ms. */
  function EnableScript(level: bool): (s: seq<Event>)
    ensures |s| == 2
  {
    [SetLevel(EN, level), Delay(1)]
  }

  /** The four level reads of one nibble, d4 first. */
  function SampleScript(): (s: seq<Event>)
    ensures |s| == 4
  {
    [GetLevel(D4), GetLevel(D5), GetLevel(D6), GetLevel(D7)]
  }

  /** One read phase: EN high, sample d4..d7, EN low. */
  function ReadPhaseScript(): (s: seq<Event>)
    ensures |s| == 8
  {
    EnableScript(true) + SampleScript() + EnableScript(false)
  }

  /** Every call `_read_4bit` makes when none fails: the data lines become
      inputs, the high nibble is read, then the low nibble, and the data
      lines become outputs again. The level reads of the two phases sit
      at offsets `HighPhaseAt` and `LowPhaseAt`. */
  function ReadScript(): (s: seq<Event>)
    ensures |s| == 24
    ensures s[HighPhaseAt..HighPhaseAt + 4] == SampleScript() && s[LowPhaseAt..LowPhaseAt + 4] == SampleScript()
  {
    DataDirectionScript(Input) + ReadPhaseScript() + ReadPhaseScript() + DataDirectionScript(Output)
  }

  /** Trace offsets, within a read, of the first level read of each phase. */
  const HighPhaseAt: nat := 6
  const LowPhaseAt: nat := 14

  /** The nibble whose bits 0..3 are the levels read at trace positions
      `pos` .. `pos + 3`. */
  function SampledNibble(pos: nat, highs: set<nat>): (n: byte)
    ensures n < 16
  {
    NibbleOf(pos in highs, pos + 1 in highs, pos + 2 in highs, pos + 3 in highs)
  }

  /** The byte a read starting at trace position `pos` assembles when its
      nibble accumulators start out holding `accH` and `accL`: each phase
      ORs the lines that read high into its accumulator, and the result is
      `(nibble_h << 4) | nibble_l` truncated to a byte. */
  function Assembled(pos: nat, highs: set<nat>, accH: byte, accL: byte): byte
  {
    ((accH | SampledNibble(pos + HighPhaseAt, highs)) << 4) | (accL | SampledNibble(pos + LowPhaseAt, highs))
  }

  /** The status byte read at `pos` by a reader whose accumulators start at zero. */
  function StatusRead(pos: nat, highs: set<nat>): byte
  {
    Assembled(pos, highs, 0, 0)
  }

  /** The byte read is the high phase's levels followed by the low phase's. */
  lemma StatusReadNibbles(pos: nat, highs: set<nat>)
    ensures HighNibble(StatusRead(pos, highs)) == SampledNibble(pos + HighPhaseAt, highs)
    ensures LowNibble(StatusRead(pos, highs)) == SampledNibble(pos + LowPhaseAt, highs)
  {
    var h, l := SampledNibble(pos + HighPhaseAt, highs), SampledNibble(pos + LowPhaseAt, highs);
    NibbleJoinSplit(h, l);
  }

  /** The busy flag (bit 7) of the status byte is the level d7 reads in the
      high phase. */
  lemma BusyFlagIsHighD7(pos: nat, highs: set<nat>)
    ensures StatusRead(pos, highs) & 0x80 != 0 <==> pos + HighPhaseAt + 3 in highs
  {
    var h, l := SampledNibble(pos + HighPhaseAt, highs), SampledNibble(pos + LowPhaseAt, highs);
    NibbleJoinSplit(h, l);
    assert Bit(h, 3) == (pos + HighPhaseAt + 3 in highs);
  }

  /** Reading every call succeeds; level reads cannot fail. */
  lemma RunSample(pos: nat, failing: set<nat>)
    ensures Run(SampleScript(), pos, failing) == Outcome(SampleScript(), true)
  {
    RunClean(SampleScript(), pos, failing);
  }

  /** Switches d4..d7 to `dir`, stopping at the first failing call. */
  method SetDataDirection(hw: Hardware, dir: Direction) returns (ok: bool)
    modifies hw
    ensures var r := Run(DataDirectionScript(dir), |old(hw.trace)|, hw.failing);
      hw.trace == old(hw.trace) + r.events && ok == r.ok
  {
    ghost var s, t0 := DataDirectionScript(dir), hw.trace;
    ghost var t := hw.trace;
    IssueBegin(t0, s, hw.failing);
    ok := hw.Configure(D4, dir);
    IssueStep(t, hw.trace, t0, s, 0, hw.failing, ok);
    if !ok { return; }
    t := hw.trace;
    ok := hw.Configure(D5, dir);
    IssueStep(t, hw.trace, t0, s, 1, hw.failing, ok);
    if !ok { return; }
    t := hw.trace;
    ok := hw.Configure(D6, dir);
    IssueStep(t, hw.trace, t0, s, 2, hw.failing, ok);
    if !ok { return; }
    t := hw.trace;
    ok := hw.Configure(D7, dir);
    IssueStep(t, hw.trace, t0, s, 3, hw.failing, ok);
    if !ok { return; }
    IssueDone(hw.trace, t0, s, hw.failing);
  }

  /** Drives EN to `level` and waits 1 ms; a failing level-set ends it. */
  method SetEnable(hw: Hardware, level: bool) returns (ok: bool)
    modifies hw
    ensures var r := Run(EnableScript(level), |old(hw.trace)|, hw.failing);
      hw.trace == old(hw.trace) + r.events && ok == r.ok
  {
    ghost var s, t0 := EnableScript(level), hw.trace;
    ghost var t := hw.trace;
    IssueBegin(t0, s, hw.failing);
    ok := hw.SetLevel(EN, level);
    IssueStep(t, hw.trace, t0, s, 0, hw.failing, ok);
    if !ok { return; }
    t := hw.trace;
    hw.Delay(1);
    IssueStep(t, hw.trace, t0, s, 1, hw.failing, true);
    IssueDone(hw.trace, t0, s, hw.failing);
  }

  /** Reads d4..d7 and ORs bit i into `acc` when line d(4+i) reads high. */
  method SampleDataLines(hw: Hardware, acc: byte) returns (nibble: byte)
    modifies hw
    ensures hw.trace == old(hw.trace) + SampleScript()
    ensures nibble == acc | SampledNibble(|old(hw.trace)|, hw.highs)
  {
    nibble := acc;
    var level := hw.GetLevel(D4);
    if level { nibble := nibble | (1 << 0); }
    level := hw.GetLevel(D5);
    if level { nibble := nibble | (1 << 1); }
    level := hw.GetLevel(D6);
    if level { nibble := nibble | (1 << 2); }
    level := hw.GetLevel(D7);
    if level { nibble := nibble | (1 << 3); }
  }

  /** One read phase into the accumulator `acc`. */
  method ReadPhase(hw: Hardware, acc: byte) returns (ok: bool, nibble: byte)
    modifies hw
    ensures var r := Run(ReadPhaseScript(), |old(hw.trace)|, hw.failing);
      hw.trace == old(hw.trace) + r.events && ok == r.ok
    ensures ok ==> nibble == acc | SampledNibble(|old(hw.trace)| + 2, hw.highs)
  {
    ghost var eh, sm, el := EnableScript(true), SampleScript(), EnableScript(false);
    ghost var t0 := hw.trace;
    nibble := acc;
    ok := SetEnable(hw, true);
    if !ok {
      RunStop(eh, sm, hw.failing, t0, hw.trace);
      RunStop(eh + sm, el, hw.failing, t0, hw.trace);
      return;
    }
    ghost var t := hw.trace;
    nibble := SampleDataLines(hw, acc);
    RunSample(|t|, hw.failing);
    RunThen(eh, sm, hw.failing, t0, t, hw.trace);
    t := hw.trace;
    ok := SetEnable(hw, false);
    RunThen(eh + sm, el, hw.failing, t0, t, hw.trace);
  }

  /** `_read_4bit` with its two nibble accumulators starting at `accH` and
      `accL`: the calls of `ReadScript`, stopping at the first failure, and
      on success the assembled byte. */
  method ReadInto(hw: Hardware, accH: byte, accL: byte) returns (ok: bool, value: byte)
    modifies hw
    ensures var r := Run(ReadScript(), |old(hw.trace)|, hw.failing);
      hw.trace == old(hw.trace) + r.events && ok == r.ok
    ensures ok ==> value == Assembled(|old(hw.trace)|, hw.highs, accH, accL)
  {
    ghost var ci, ph, co := DataDirectionScript(Input), ReadPhaseScript(), DataDirectionScript(Output);
    ghost var t0 := hw.trace;
    value := 0;
    ok := SetDataDirection(hw, Input);
    if !ok {
      RunStop(ci, ph, hw.failing, t0, hw.trace);
      RunStop(ci + ph, ph, hw.failing, t0, hw.trace);
      RunStop(ci + ph + ph, co, hw.failing, t0, hw.trace);
      return;
    }
    ghost var t := hw.trace;
    var nibbleH;
    ok, nibbleH := ReadPhase(hw, accH);
    RunThen(ci, ph, hw.failing, t0, t, hw.trace);
    if !ok {
      RunStop(ci + ph, ph, hw.failing, t0, hw.trace);
      RunStop(ci + ph + ph, co, hw.failing, t0, hw.trace);
      return;
    }
    t := hw.trace;
    var nibbleL;
    ok, nibbleL := ReadPhase(hw, accL);
    RunThen(ci + ph, ph, hw.failing, t0, t, hw.trace);
    if !ok {
      RunStop(ci + ph + ph, co, hw.failing, t0, hw.trace);
      return;
    }
    t := hw.trace;
    ok := SetDataDirection(hw, Output);
    RunThen(ci + ph + ph, co, hw.failing, t0, t, hw.trace);
    value := (nibbleH << 4) | nibbleL;
  }

  /** `_read_4bit` of hd44780.c, whose accumulators start at zero: on
      success the status byte whose nibbles are the levels of the two phases. */
  method Read4Bit(hw: Hardware) returns (ok: bool, value: byte)
    modifies hw
    ensures var r := Run(ReadScript(), |old(hw.trace)|, hw.failing);
      hw.trace == old(hw.trace) + r.events && ok == r.ok
    ensures ok ==> value == StatusRead(|old(hw.trace)|, hw.highs)
  {
    ok, value := ReadInto(hw, 0, 0);
  }
}
