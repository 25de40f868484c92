/** The full driver of hd44780.c: the strategy selectors, `hd44780_init`,
    the two wait strategies and the session operations (clear, home,
    write_char, write_string, write_int, gotoxy, shift_cursor_forward and
    shift_cursor_backward). Each operation runs under the handle's mutex in
    the source; here every operation is atomic. */
module Hd44780 {
  import opened Bits
  import opened Hal
  import opened Transport
  import opened Controller

  // ---------------------------------------------------------------------
  // Enumerations and constants of include/hd44780.h and hd44780.c

  /** `HD44780_SIZE_MAX`: sizes 16x2, 16x4 and 20x4 are 0, 1, 2. */
  const SizeMax: nat := 3

  /** `HD44780_COMM_MODE_*`. */
  const Mode4Bit: nat := 0
  const Mode8Bit: nat := 1
  const ModeSerial: nat := 2
  const ModeMax: nat := 3

  /** `TICK_DELAY_DEFAULT`, the pause after each init command. */
  const TickDelayDefault: nat := 100

  /** The pause of `_wait_with_delay`. */
  const WaitDelayMs: nat := 2

  /** The result codes the operations return. */
  datatype Status = Ok | Fail | InvalidArg

  /** The two wait strategies: a fixed delay, or polling the busy flag. */
  datatype WaitKind = WaitDelay | WaitBusy

  // ---------------------------------------------------------------------
  // Strategy selection

  /** The transport `_get_init_func`, `_get_write_cmd_func` and
      `_get_write_data_func` resolve a mode to: the three selectors share
      one mapping, in which every mode other than 4-bit and 8-bit is serial. */
  function LinkFor(mode: nat): (link: Link)
    ensures link == Serial <==> mode != Mode4Bit && mode != Mode8Bit
  {
    if mode == Mode4Bit then FourBit
    else if mode == Mode8Bit then EightBit
    else Serial
  }

  /** `_get_wait_func`: the fixed delay exactly when both RW coordinates are
      the sentinel, the busy-poll otherwise. */
  function WaitFor(info: HwInfo): (w: WaitKind)
    ensures w == WaitDelay <==> info.rw == Pin(Unassigned, Unassigned)
  {
    if info.rw.port == Unassigned && info.rw.num == Unassigned then WaitDelay else WaitBusy
  }

  /** A wiring whose RW line is driven by the writers is always polled. */
  lemma DrivenRwIsPolled(info: HwInfo)
    requires RwDriven(info)
    ensures WaitFor(info) == WaitBusy
  {
  }

  /** The wiring `hd44780_init` leaves in the configuration: in serial mode
      both RW coordinates are overwritten with the sentinel. */
  function InitWiring(mode: nat, info: HwInfo): (w: HwInfo)
    ensures mode == ModeSerial ==> WaitFor(w) == WaitDelay && !RwDriven(w)
    ensures mode != ModeSerial ==> w == info
    ensures w.rs == info.rs && w.en == info.en && w.d4 == info.d4 && w.d7 == info.d7
  {
    if mode == ModeSerial then info.(rw := Pin(Unassigned, Unassigned)) else info
  }

  // ---------------------------------------------------------------------
  // Configuration and handle

  /** The configuration record `hd44780_cfg_t`, passed by pointer:
      `hd44780_init` rewrites its wiring in place in serial mode. */
  class Config {
    var size: nat
    var mode: nat
    var info: HwInfo

    constructor (size: nat, mode: nat, info: HwInfo)
      ensures this.size == size && this.mode == mode && this.info == info
    {
      this.size := size;
      this.mode := mode;
      this.info := info;
    }
  }

  /** The handle `hd44780_t`: the configuration it was made from and the
      strategies selected for it. The mutex is not modelled. */
  class Handle {
    const size: nat
    const mode: nat
    const info: HwInfo
    const writeCmd: Link
    const writeData: Link
    const wait: WaitKind

    /** The field updates at the end of `hd44780_init`. */
    constructor (size: nat, mode: nat, info: HwInfo)
      ensures this.size == size && this.mode == mode && this.info == info
      ensures writeCmd == LinkFor(mode) && writeData == LinkFor(mode) && wait == WaitFor(info)
    {
      this.size := size;
      this.mode := mode;
      this.info := info;
      writeCmd := LinkFor(mode);
      writeData := LinkFor(mode);
      wait := WaitFor(info);
    }

    /** What every handle `hd44780_init` returns satisfies. */
    predicate Valid()
    {
      size < SizeMax && mode < ModeMax &&
      writeCmd == LinkFor(mode) && writeData == LinkFor(mode) && wait == WaitFor(info) &&
      (mode == ModeSerial ==> info == InitWiring(mode, info))
    }
  }

  /** A valid serial handle waits with the fixed delay, so the busy-poll
      (which has no read routine for serial mode) is never reached for it. */
  lemma SerialHandleWaitsWithDelay(h: Handle)
    requires h.Valid() && h.mode == ModeSerial
    ensures h.wait == WaitDelay && h.writeCmd == Serial
  {
  }

  // ---------------------------------------------------------------------
  // Initialisation

  /** One init step: a command through `_write_cmd`, then a pause of `ms`. */
  function CommandThenDelayScript(link: Link, info: HwInfo, c: byte, ms: nat): seq<Event>
  {
    WriteScript(link, info, Command(c)) + [Delay(ms)]
  }

  /** Every call the command phase of the init makes when none fails: return
      home, function set (4-bit bus, two lines, 5x8 font), entry mode
      (increment), display on, clear, each followed by a pause. */
  function InitCommandsScript(link: Link, info: HwInfo, ms: nat): seq<Event>
  {
    CommandThenDelayScript(link, info, 0x02, ms) + CommandThenDelayScript(link, info, 0x28, ms)
    + CommandThenDelayScript(link, info, 0x06, ms) + CommandThenDelayScript(link, info, 0x0C, ms)
    + CommandThenDelayScript(link, info, 0x01, ms)
  }

  /** Every call `hd44780_init` makes after its argument checks when none
      fails: the line set-up of the mode, then the init commands. */
  function InitScript(link: Link, info: HwInfo, ms: nat): seq<Event>
  {
    InitLinesScript(link, info) + InitCommandsScript(link, info, ms)
  }

  /** Sends one command and, if it was accepted, pauses for `ms`. */
  method CommandThenDelay(hw: Hardware, link: Link, info: HwInfo, c: byte, ms: nat) returns (ok: bool)
    modifies hw
    ensures var r := Run(CommandThenDelayScript(link, info, c, ms), |old(hw.trace)|, hw.failing);
      hw.trace == old(hw.trace) + r.events && ok == r.ok
  {
    ghost var w, t0 := WriteScript(link, info, Command(c)), hw.trace;
    ok := Write(hw, link, info, Command(c));
    if !ok {
      RunStop(w, [Delay(ms)], hw.failing, t0, hw.trace);
      return;
    }
    ghost var t := hw.trace;
    hw.Delay(ms);
    RunSingle(Delay(ms), |t|, hw.failing);
    RunThen(w, [Delay(ms)], hw.failing, t0, t, hw.trace);
  }

  /** The command phase of the init: 0x02, 0x28, 0x06, 0x0C, 0x01, each
      followed by a pause of `ms`, stopping at the first rejected command. */
  method SendInitCommands(hw: Hardware, link: Link, info: HwInfo, ms: nat) returns (ok: bool)
    modifies hw
    ensures var r := Run(InitCommandsScript(link, info, ms), |old(hw.trace)|, hw.failing);
      hw.trace == old(hw.trace) + r.events && ok == r.ok
  {
    ghost var c0, c1, c2 := CommandThenDelayScript(link, info, 0x02, ms), CommandThenDelayScript(link, info, 0x28, ms), CommandThenDelayScript(link, info, 0x06, ms);
    ghost var c3 := CommandThenDelayScript(link, info, 0x0C, ms);
    ghost var t0 := hw.trace;
    ok := CommandThenDelay(hw, link, info, 0x02, ms);
    ok := NextInitCommand(hw, link, info, 0x28, ms, c0, t0, ok);
    ok := NextInitCommand(hw, link, info, 0x06, ms, c0 + c1, t0, ok);
    ok := NextInitCommand(hw, link, info, 0x0C, ms, c0 + c1 + c2, t0, ok);
    ok := NextInitCommand(hw, link, info, 0x01, ms, c0 + c1 + c2 + c3, t0, ok);
  }

  /** One more checked command of the init, after the calls `a` of the
      earlier ones: sent, with its pause, only if every earlier one succeeded. */
  method NextInitCommand(hw: Hardware, link: Link, info: HwInfo, c: byte, ms: nat, ghost a: seq<Event>, ghost t0: seq<Event>, okBefore: bool)
    returns (ok: bool)
    requires hw.trace == t0 + Run(a, |t0|, hw.failing).events && okBefore == Run(a, |t0|, hw.failing).ok
    modifies hw
    ensures hw.trace == t0 + Run(a + CommandThenDelayScript(link, info, c, ms), |t0|, hw.failing).events
    ensures ok == Run(a + CommandThenDelayScript(link, info, c, ms), |t0|, hw.failing).ok
  {
    ghost var b := CommandThenDelayScript(link, info, c, ms);
    if okBefore {
      ghost var mid := hw.trace;
      ok := CommandThenDelay(hw, link, info, c, ms);
      RunThen(a, b, hw.failing, t0, mid, hw.trace);
    } else {
      ok := false;
      RunStop(a, b, hw.failing, t0, hw.trace);
    }
  }

  /** The hardware phase of the init: the line set-up of `link`, then the
      init commands, stopping at the first failure. */
  method SetUpAndSendCommands(hw: Hardware, link: Link, info: HwInfo, ms: nat) returns (ok: bool)
    modifies hw
    ensures var r := Run(InitScript(link, info, ms), |old(hw.trace)|, hw.failing);
      hw.trace == old(hw.trace) + r.events && ok == r.ok
  {
    ghost var lines, cmds := InitLinesScript(link, info), InitCommandsScript(link, info, ms);
    ghost var t0 := hw.trace;
    ok := InitLines(hw, link, info);
    if !ok {
      RunStop(lines, cmds, hw.failing, t0, hw.trace);
      return;
    }
    ghost var t := hw.trace;
    ok := SendInitCommands(hw, link, info, ms);
    RunThen(lines, cmds, hw.failing, t0, t, hw.trace);
  }

  /** `hd44780_init`. A missing configuration, a size or a mode out of
      range: no call at all and no handle. Otherwise, in serial mode the
      configuration's RW coordinates are overwritten with the sentinel; then
      the lines of the mode are set up and the init commands are sent,
      stopping at the first failure, which yields no handle. On success the
      handle records the configuration and the strategies selected for it. */
  method Init(hw: Hardware, config: Config?) returns (h: Handle?)
    modifies hw, config
    ensures config == null || old(config.size) >= SizeMax || old(config.mode) >= ModeMax ==>
      h == null && hw.trace == old(hw.trace) && (config != null ==> unchanged(config))
    ensures config != null && old(config.size) < SizeMax && old(config.mode) < ModeMax ==>
      config.size == old(config.size) && config.mode == old(config.mode) &&
      config.info == InitWiring(old(config.mode), old(config.info)) &&
      var r := Run(InitScript(LinkFor(config.mode), config.info, TickDelayDefault), |old(hw.trace)|, hw.failing);
      hw.trace == old(hw.trace) + r.events && (h != null <==> r.ok) &&
      (h != null ==> fresh(h) && h.Valid() && h.size == config.size && h.mode == config.mode && h.info == config.info)
  {
    if config == null || !(config.size < SizeMax) || !(config.mode < ModeMax) {
      return null;
    }
    var link := LinkFor(config.mode);
    if config.mode == ModeSerial {
      config.info := config.info.(rw := Pin(Unassigned, Unassigned));
    }
    var ok := SetUpAndSendCommands(hw, link, config.info, TickDelayDefault);
    if !ok {
      return null;
    }
    h := new Handle(config.size, config.mode, config.info);
  }

  // ---------------------------------------------------------------------
  // What the controller receives from the init

  /** A command followed by a pause is latched as the command's two nibbles. */
  lemma CommandThenDelayDelivers(link: Link, info: HwInfo, c: byte, ms: nat, l: Lines)
    requires link != EightBit && Ready(link, info, l)
    ensures LinkSamples(link, CommandThenDelayScript(link, info, c, ms), l) == NibblePair(Command(c))
    ensures Ready(link, info, LinkAfter(link, CommandThenDelayScript(link, info, c, ms), l))
  {
    var w := WriteScript(link, info, Command(c));
    WriteDelivers(link, info, Command(c), l);
    DelayInvisible(link, ms, LinkAfter(link, w, l));
    LinkAppend(link, w, [Delay(ms)], l);
  }

  /** The line set-up latches nothing, as long as E starts low, and leaves
      the controller ready for writes. */
  lemma InitLinesQuiet(link: Link, info: HwInfo, l: Lines)
    requires link != EightBit && Ready(link, info, l) && !l.en
    ensures LinkSamples(link, InitLinesScript(link, info), l) == []
    ensures Ready(link, info, LinkAfter(link, InitLinesScript(link, info), l))
  {
    if link == FourBit {
      LinesReplay(info, l);
    } else {
      WireBytesEmpty(I2cAddr);
    }
  }

  /** The command phase of the init is latched as the nibbles of its five
      commands, in order. */
  lemma InitCommandsLatched(link: Link, info: HwInfo, ms: nat, l: Lines)
    requires link != EightBit && Ready(link, info, l)
    ensures LinkSamples(link, InitCommandsScript(link, info, ms), l) ==
      NibblePair(Command(0x02)) + NibblePair(Command(0x28)) + NibblePair(Command(0x06))
      + NibblePair(Command(0x0C)) + NibblePair(Command(0x01))
  {
    var c1, c2 := CommandThenDelayScript(link, info, 0x02, ms), CommandThenDelayScript(link, info, 0x28, ms);
    var c3, c4 := CommandThenDelayScript(link, info, 0x06, ms), CommandThenDelayScript(link, info, 0x0C, ms);
    var c5 := CommandThenDelayScript(link, info, 0x01, ms);
    CommandThenDelayDelivers(link, info, 0x02, ms, l);
    var l1 := LinkAfter(link, c1, l);
    CommandThenDelayDelivers(link, info, 0x28, ms, l1);
    LinkAppend(link, c1, c2, l);
    var l2 := LinkAfter(link, c1 + c2, l);
    CommandThenDelayDelivers(link, info, 0x06, ms, l2);
    LinkAppend(link, c1 + c2, c3, l);
    var l3 := LinkAfter(link, c1 + c2 + c3, l);
    CommandThenDelayDelivers(link, info, 0x0C, ms, l3);
    LinkAppend(link, c1 + c2 + c3, c4, l);
    var l4 := LinkAfter(link, c1 + c2 + c3 + c4, l);
    CommandThenDelayDelivers(link, info, 0x01, ms, l4);
    LinkAppend(link, c1 + c2 + c3 + c4, c5, l);
  }

  /** The nibbles of the five init commands join back into the commands. */
  lemma InitPairsDecode()
    ensures Transfers(NibblePair(Command(0x02)) + NibblePair(Command(0x28)) + NibblePair(Command(0x06))
      + NibblePair(Command(0x0C)) + NibblePair(Command(0x01))) ==
      [Command(0x02), Command(0x28), Command(0x06), Command(0x0C), Command(0x01)]
  {
    var p1, p2, p3 := NibblePair(Command(0x02)), NibblePair(Command(0x28)), NibblePair(Command(0x06));
    var p4, p5 := NibblePair(Command(0x0C)), NibblePair(Command(0x01));
    TransfersAppend(p1 + p2 + p3 + p4, p5);
    TransfersAppend(p1 + p2 + p3, p4);
    TransfersAppend(p1 + p2, p3);
    TransfersAppend(p1, p2);
    PairDecode(Command(0x02));
    PairDecode(Command(0x28));
    PairDecode(Command(0x06));
    PairDecode(Command(0x0C));
    PairDecode(Command(0x01));
  }

  /** Over either real transport, a controller that starts with E low and
      is ready for writes receives exactly the five init commands, in
      order: 0x02, 0x28, 0x06, 0x0C, 0x01. */
  lemma InitDelivers(link: Link, info: HwInfo, ms: nat, l: Lines)
    requires link != EightBit && Ready(link, info, l) && !l.en
    ensures Received(link, InitScript(link, info, ms), l) ==
      [Command(0x02), Command(0x28), Command(0x06), Command(0x0C), Command(0x01)]
  {
    var a, b := InitLinesScript(link, info), InitCommandsScript(link, info, ms);
    InitLinesQuiet(link, info, l);
    InitCommandsLatched(link, info, ms, LinkAfter(link, a, l));
    LinkAppend(link, a, b, l);
    assert LinkSamples(link, a + b, l) == LinkSamples(link, b, LinkAfter(link, a, l));
    InitPairsDecode();
  }

  // ---------------------------------------------------------------------
  // Waiting

  /** The calls `_read` makes in one round of the busy-poll: `_read_4bit`
      in 4-bit mode, none for the 8-bit stub. */
  function PollReadScript(link: Link): seq<Event>
  {
    if link == FourBit then ReadScript() else []
  }

  /** The calls of one round of `_wait_with_pinrw` starting at trace
      position `pos`, where `read` are the calls of `_read`: RS low and RW
      high, whose results are ignored, then the read, which stops at its
      first failing call. */
  function RoundEvents(read: seq<Event>, pos: nat, failing: set<nat>): seq<Event>
  {
    [SetLevel(RS, false), SetLevel(RW, true)] + Run(read, pos + 2, failing).events
  }

  /** `temp_val` after the read `read` that starts at `pos`: the status byte
      when the 4-bit read succeeds, and otherwise what it held before, since
      a failing read returns before storing and the 8-bit stub stores nothing. */
  function ReadValue(link: Link, read: seq<Event>, pos: nat, failing: set<nat>, highs: set<nat>, temp: byte): byte
  {
    if link == FourBit && Run(read, pos, failing).ok then StatusRead(pos, highs) else temp
  }

  /** `temp_val` after the round that starts at `pos`. */
  function RoundValue(link: Link, read: seq<Event>, pos: nat, failing: set<nat>, highs: set<nat>, temp: byte): byte
  {
    ReadValue(link, read, pos + 2, failing, highs, temp)
  }

  /** The busy-poll over `link`, whose `_read` makes the calls `read`,
      allowed at most `budget` rounds, with `temp_val` holding `temp` on
      entry: the calls it makes, and whether it ended because the value
      read had bit 7 (the busy flag) clear. A poll that ends has made at
      least the first round's RS and RW calls. */
  function Poll(link: Link, read: seq<Event>, pos: nat, temp: byte, budget: nat, failing: set<nat>, highs: set<nat>): (r: Outcome)
    ensures r.ok ==> 2 <= |r.events| && r.events[0] == SetLevel(RS, false) && r.events[1] == SetLevel(RW, true)
    decreases budget
  {
    if budget == 0 then Outcome([], false)
    else
      var e, v := RoundEvents(read, pos, failing), RoundValue(link, read, pos, failing, highs, temp);
      if v & 0x80 == 0 then Outcome(e, true)
      else
        var rest := Poll(link, read, pos + |e|, v, budget - 1, failing, highs);
        Outcome(e + rest.events, rest.ok)
  }

  /** The poll makes at most `budget` rounds of at most `2 + |read|` calls each. */
  lemma {:induction false} PollCalls(link: Link, read: seq<Event>, pos: nat, temp: byte, budget: nat, failing: set<nat>, highs: set<nat>)
    ensures |Poll(link, read, pos, temp, budget, failing, highs).events| <= budget * (2 + |read|)
    decreases budget
  {
    if budget > 0 {
      var e, v := RoundEvents(read, pos, failing), RoundValue(link, read, pos, failing, highs, temp);
      if v & 0x80 != 0 {
        PollCalls(link, read, pos + |e|, v, budget - 1, failing, highs);
        assert budget * (2 + |read|) == (budget - 1) * (2 + |read|) + (2 + |read|);
      }
    }
  }

  /** The `_read` of the busy-poll, storing into `temp`. */
  method PollRead(hw: Hardware, link: Link, temp: byte) returns (value: byte)
    requires link != Serial
    modifies hw
    ensures hw.trace == old(hw.trace) + Run(PollReadScript(link), |old(hw.trace)|, hw.failing).events
    ensures value == ReadValue(link, PollReadScript(link), |old(hw.trace)|, hw.failing, hw.highs, temp)
  {
    value := temp;
    if link == FourBit {
      var ok, v := Read4Bit(hw);
      if ok {
        value := v;
      }
    } else {
      RunEmpty(|hw.trace|, hw.failing);
    }
  }

  /** One round of the busy-poll. */
  method PollRound(hw: Hardware, link: Link, temp: byte) returns (value: byte)
    requires link != Serial
    modifies hw
    ensures hw.trace == old(hw.trace) + RoundEvents(PollReadScript(link), |old(hw.trace)|, hw.failing)
    ensures value == RoundValue(link, PollReadScript(link), |old(hw.trace)|, hw.failing, hw.highs, temp)
  {
    ghost var t0 := hw.trace;
    var rsSet := hw.SetLevel(RS, false);
    var rwSet := hw.SetLevel(RW, true);
    assert hw.trace == t0 + [SetLevel(RS, false), SetLevel(RW, true)];
    value := PollRead(hw, link, temp);
    AppendAssoc(t0, [SetLevel(RS, false), SetLevel(RW, true)], Run(PollReadScript(link), |t0| + 2, hw.failing).events);
  }

  /** One round of the busy-poll seen from the whole poll `p0`, of which
      the calls `done` are behind: either the flag reads clear and the poll
      ends after this round, or it goes on from after the round. */
  lemma PollStep(link: Link, read: seq<Event>, p0: Outcome, done: seq<Event>, t: seq<Event>, temp: byte, budget: nat,
                 failing: set<nat>, highs: set<nat>, t1: seq<Event>)
    requires budget > 0
    requires var p := Poll(link, read, |t|, temp, budget, failing, highs); p0.events == done + p.events && p0.ok == p.ok
    requires t1 == t + RoundEvents(read, |t|, failing)
    ensures var e, v := RoundEvents(read, |t|, failing), RoundValue(link, read, |t|, failing, highs, temp);
      if v & 0x80 == 0 then p0 == Outcome(done + e, true)
      else var rest := Poll(link, read, |t1|, v, budget - 1, failing, highs);
        p0.events == (done + e) + rest.events && p0.ok == rest.ok
  {
    var e, v := RoundEvents(read, |t|, failing), RoundValue(link, read, |t|, failing, highs, temp);
    assert |t1| == |t| + |e|;
    if v & 0x80 != 0 {
      AppendAssoc(done, e, Poll(link, read, |t1|, v, budget - 1, failing, highs).events);
    }
  }

  /** `_wait_with_pinrw`: rounds of RS low, RW high and a status read until
      the value read has the busy flag clear, starting from the stale
      `temp_val`. `ready` says the flag was seen clear within the budget. */
  method WaitBusyFlag(hw: Hardware, link: Link) returns (ready: bool)
    requires link != Serial
    modifies hw
    ensures var p := Poll(link, PollReadScript(link), |old(hw.trace)|, hw.stale, hw.pollBudget, hw.failing, hw.highs);
      hw.trace == old(hw.trace) + p.events && ready == p.ok
  {
    ghost var read := PollReadScript(link);
    ghost var t0 := hw.trace;
    ghost var p0 := Poll(link, read, |t0|, hw.stale, hw.pollBudget, hw.failing, hw.highs);
    ghost var done: seq<Event> := [];
    var temp := hw.stale;
    var rounds := 0;
    ready := false;
    while rounds < hw.pollBudget
      invariant rounds <= hw.pollBudget
      invariant hw.trace == t0 + done
      invariant p0.events == done + Poll(link, read, |hw.trace|, temp, hw.pollBudget - rounds, hw.failing, hw.highs).events
      invariant p0.ok == Poll(link, read, |hw.trace|, temp, hw.pollBudget - rounds, hw.failing, hw.highs).ok
      decreases hw.pollBudget - rounds
    {
      ghost var t, before := hw.trace, temp;
      ghost var e := RoundEvents(read, |t|, hw.failing);
      temp := PollRound(hw, link, temp);
      PollStep(link, read, p0, done, t, before, hw.pollBudget - rounds, hw.failing, hw.highs, hw.trace);
      AppendAssoc(t0, done, e);
      done := done + e;
      if temp & 0x80 == 0 {
        ready := true;
        return;
      }
      rounds := rounds + 1;
    }
  }

  /** With the 8-bit read stub nothing is ever stored in `temp_val`, so the
      poll only ever tests its stale content: it ends after one round when
      bit 7 of that byte is clear, and otherwise spends every round it is
      allowed on RS low and RW high. */
  lemma {:induction false} EightBitPollSeesStaleByte(pos: nat, temp: byte, budget: nat, failing: set<nat>, highs: set<nat>)
    ensures var p := Poll(EightBit, [], pos, temp, budget, failing, highs);
      (p.ok <==> budget > 0 && temp & 0x80 == 0) &&
      |p.events| == (if budget == 0 then 0 else if temp & 0x80 == 0 then 2 else 2 * budget)
    decreases budget
  {
    if budget > 0 {
      RunEmpty(pos + 2, failing);
      if temp & 0x80 != 0 {
        EightBitPollSeesStaleByte(pos + 2, temp, budget - 1, failing, highs);
      }
    }
  }

  /** In round `k` of a 4-bit busy-poll that starts at `pos` and in which
      no call fails, D7 reads low during the high phase: the controller is
      not busy. Each such round makes 26 calls. */
  predicate IdleInRound(pos: nat, k: nat, highs: set<nat>)
  {
    pos + 26 * k + 2 + HighPhaseAt + 3 !in highs
  }

  /** A clean 4-bit round reads the status byte, whose busy flag is D7. */
  lemma CleanRound(read: seq<Event>, pos: nat, temp: byte, highs: set<nat>)
    requires |read| == 24
    ensures |RoundEvents(read, pos, {})| == 26
    ensures RoundValue(FourBit, read, pos, {}, highs, temp) & 0x80 == 0 <==> IdleInRound(pos, 0, highs)
  {
    RunClean(read, pos + 2, {});
    BusyFlagIsHighD7(pos + 2, highs);
  }

  /** When no call fails, the 4-bit busy-poll stops right after the first
      round in which the controller reports not busy. */
  lemma {:induction false} PollStopsAtFirstIdle(read: seq<Event>, pos: nat, temp: byte, budget: nat, highs: set<nat>, j: nat)
    requires |read| == 24 && j < budget
    requires IdleInRound(pos, j, highs) && forall i | 0 <= i < j :: !IdleInRound(pos, i, highs)
    ensures var p := Poll(FourBit, read, pos, temp, budget, {}, highs); p.ok && |p.events| == 26 * (j + 1)
    decreases j
  {
    CleanRound(read, pos, temp, highs);
    if j > 0 {
      assert !IdleInRound(pos, 0, highs);
      var next := pos + 26;
      forall i | 0 <= i < j - 1
        ensures !IdleInRound(next, i, highs)
      {
        assert !IdleInRound(pos, i + 1, highs);
      }
      assert IdleInRound(pos, j, highs);
      var v := RoundValue(FourBit, read, pos, {}, highs, temp);
      PollStopsAtFirstIdle(read, pos + 26, v, budget - 1, highs, j - 1);
    }
  }

  /** When no call fails and the controller reports busy in every round,
      the 4-bit busy-poll uses up its whole budget without seeing the flag clear. */
  lemma {:induction false} PollGivesUpWhileBusy(read: seq<Event>, pos: nat, temp: byte, budget: nat, highs: set<nat>)
    requires |read| == 24
    requires forall i | 0 <= i < budget :: !IdleInRound(pos, i, highs)
    ensures var p := Poll(FourBit, read, pos, temp, budget, {}, highs); !p.ok && |p.events| == 26 * budget
    decreases budget
  {
    if budget > 0 {
      CleanRound(read, pos, temp, highs);
      assert !IdleInRound(pos, 0, highs);
      var next := pos + 26;
      forall i | 0 <= i < budget - 1
        ensures !IdleInRound(next, i, highs)
      {
        assert !IdleInRound(pos, i + 1, highs);
      }
      var v := RoundValue(FourBit, read, pos, {}, highs, temp);
      PollGivesUpWhileBusy(read, pos + 26, v, budget - 1, highs);
    }
  }

  /** The calls of the wait strategy `kind` selected for a handle over `link`. */
  function WaitEvents(kind: WaitKind, link: Link, pos: nat, stale: byte, budget: nat, failing: set<nat>, highs: set<nat>): seq<Event>
  {
    match kind
    case WaitDelay => [Delay(WaitDelayMs)]
    case WaitBusy => Poll(link, PollReadScript(link), pos, stale, budget, failing, highs).events
  }

  /** A call through the handle's `_wait` pointer. */
  method Wait(hw: Hardware, h: Handle)
    requires h.Valid()
    modifies hw
    ensures hw.trace == old(hw.trace) + WaitEvents(h.wait, h.writeCmd, |old(hw.trace)|, hw.stale, hw.pollBudget, hw.failing, hw.highs)
  {
    match h.wait
    case WaitDelay =>
      hw.Delay(WaitDelayMs);
    case WaitBusy =>
      var ready := WaitBusyFlag(hw, h.writeCmd);
  }

  // ---------------------------------------------------------------------
  // Session operations

  /** The trace after a command that waits once it is accepted, as clear
      and home make it, starting from trace `t0`: the write, stopping at its
      first failing call, and the wait only when the write succeeded. */
  function CommandAndWaitTrace(h: Handle, c: byte, t0: seq<Event>, stale: byte, budget: nat, failing: set<nat>, highs: set<nat>): seq<Event>
  {
    var r := Run(WriteScript(h.writeCmd, h.info, Command(c)), |t0|, failing);
    var t := t0 + r.events;
    if r.ok then t + WaitEvents(h.wait, h.writeCmd, |t|, stale, budget, failing, highs) else t
  }

  /** Writes command `c` and, if it was accepted, waits. */
  method CommandAndWait(hw: Hardware, h: Handle, c: byte) returns (st: Status)
    requires h.Valid()
    modifies hw
    ensures hw.trace == CommandAndWaitTrace(h, c, old(hw.trace), hw.stale, hw.pollBudget, hw.failing, hw.highs)
    ensures st == Ok <==> Run(WriteScript(h.writeCmd, h.info, Command(c)), |old(hw.trace)|, hw.failing).ok
    ensures st == Ok || st == Fail
  {
    var ok := Write(hw, h.writeCmd, h.info, Command(c));
    if !ok {
      return Fail;
    }
    Wait(hw, h);
    st := Ok;
  }

  /** `hd44780_clear`: command 0x01 (clear display), then the wait; a null
      handle is an invalid argument and makes no call. */
  method Clear(hw: Hardware, h: Handle?) returns (st: Status)
    requires h != null ==> h.Valid()
    modifies hw
    ensures h == null ==> st == InvalidArg && hw.trace == old(hw.trace)
    ensures h != null ==>
      hw.trace == CommandAndWaitTrace(h, 0x01, old(hw.trace), hw.stale, hw.pollBudget, hw.failing, hw.highs) &&
      (st == Ok <==> Run(WriteScript(h.writeCmd, h.info, Command(0x01)), |old(hw.trace)|, hw.failing).ok) &&
      st != InvalidArg
  {
    if h == null {
      return InvalidArg;
    }
    st := CommandAndWait(hw, h, 0x01);
  }

  /** `hd44780_home`: command 0x02 (return home), then the wait. */
  method Home(hw: Hardware, h: Handle?) returns (st: Status)
    requires h != null ==> h.Valid()
    modifies hw
    ensures h == null ==> st == InvalidArg && hw.trace == old(hw.trace)
    ensures h != null ==>
      hw.trace == CommandAndWaitTrace(h, 0x02, old(hw.trace), hw.stale, hw.pollBudget, hw.failing, hw.highs) &&
      (st == Ok <==> Run(WriteScript(h.writeCmd, h.info, Command(0x02)), |old(hw.trace)|, hw.failing).ok) &&
      st != InvalidArg
  {
    if h == null {
      return InvalidArg;
    }
    st := CommandAndWait(hw, h, 0x02);
  }

  /** `hd44780_write_char`: one data write, with no wait afterwards. */
  method WriteChar(hw: Hardware, h: Handle?, chr: byte) returns (st: Status)
    requires h != null ==> h.Valid()
    modifies hw
    ensures h == null ==> st == InvalidArg && hw.trace == old(hw.trace)
    ensures h != null ==> var r := Run(WriteScript(h.writeData, h.info, Data(chr)), |old(hw.trace)|, hw.failing);
      hw.trace == old(hw.trace) + r.events && (st == Ok <==> r.ok) && st != InvalidArg
  {
    if h == null {
      return InvalidArg;
    }
    var ok := Write(hw, h.writeData, h.info, Data(chr));
    st := if ok then Ok else Fail;
  }

  /** The data writes of the bytes `bs`, in order. */
  function DataBytes(bs: seq<byte>): (xs: seq<Transfer>)
    ensures |xs| == |bs| && forall i | 0 <= i < |bs| :: xs[i] == Data(bs[i])
  {
    seq(|bs|, i requires 0 <= i < |bs| => Data(bs[i]))
  }

  /** The bytes of a C string before its terminating NUL (all of `s` when
      it has none). */
  function UntilNul(s: seq<byte>): (r: seq<byte>)
    ensures r <= s && 0 !in r
    ensures |r| < |s| <==> 0 in s
    ensures |r| < |s| ==> s[|r|] == 0
    decreases |s|
  {
    if s == [] || s[0] == 0 then [] else [s[0]] + UntilNul(s[1..])
  }

  /** A loop that walks a C string stops at the NUL: the first zero byte
      sits right after the text. */
  lemma NulEndsText(s: seq<byte>, i: nat)
    requires i <= |UntilNul(s)| && i < |s| && s[i] == 0
    ensures i == |UntilNul(s)|
  {
    var r := UntilNul(s);
    if i < |r| {
      assert false;
    }
  }

  /** `hd44780_write_string`: one data write per byte before the NUL,
      stopping at the first failure; no wait. A null handle or string is an
      invalid argument and makes no call. */
  method WriteString(hw: Hardware, h: Handle?, str: array?<byte>) returns (st: Status)
    requires h != null ==> h.Valid()
    requires str != null ==> 0 in str[..]
    modifies hw
    ensures h == null || str == null ==> st == InvalidArg && hw.trace == old(hw.trace)
    ensures h != null && str != null ==>
      var r := Run(StreamScript(h.writeData, h.info, DataBytes(UntilNul(str[..]))), |old(hw.trace)|, hw.failing);
      hw.trace == old(hw.trace) + r.events && (st == Ok <==> r.ok) && st != InvalidArg
  {
    if h == null || str == null {
      return InvalidArg;
    }
    var ok := WriteText(hw, h, str);
    st := if ok then Ok else Fail;
  }

  /** The loop of `hd44780_write_string`: the bytes of `str` up to its NUL
      as data writes, stopping at the first failure. */
  method WriteText(hw: Hardware, h: Handle, str: array<byte>) returns (ok: bool)
    requires h.Valid() && 0 in str[..]
    modifies hw
    ensures var r := Run(StreamScript(h.writeData, h.info, DataBytes(UntilNul(str[..]))), |old(hw.trace)|, hw.failing);
      hw.trace == old(hw.trace) + r.events && ok == r.ok
  {
    ghost var text := UntilNul(str[..]);
    ghost var xs := DataBytes(text);
    ghost var t0 := hw.trace;
    StreamBegin(h.writeData, h.info, xs, |t0|, hw.failing);
    var i := 0;
    TextAt(str[..], i);
    while str[i] != 0
      invariant 0 <= i <= |text|
      invariant hw.trace == t0 + Run(StreamScript(h.writeData, h.info, xs[..i]), |t0|, hw.failing).events
      invariant Run(StreamScript(h.writeData, h.info, xs[..i]), |t0|, hw.failing).ok
      decreases |text| - i
    {
      TextAt(str[..], i);
      ok := StreamWrite(hw, h.writeData, h.info, Data(str[i]), xs, i, t0);
      if !ok {
        return;
      }
      i := i + 1;
    }
    TextAt(str[..], i);
    StreamAll(h.writeData, h.info, xs);
    ok := true;
  }

  /** Walking a C string: position `i`, within or right after the text,
      holds the NUL exactly when it is right after the text, and otherwise
      the text's byte. */
  lemma TextAt(s: seq<byte>, i: nat)
    requires 0 in s && i <= |UntilNul(s)|
    ensures i < |s|
    ensures s[i] == 0 <==> i == |UntilNul(s)|
    ensures i < |UntilNul(s)| ==> DataBytes(UntilNul(s))[i] == Data(s[i])
  {
    if s[i] == 0 {
      NulEndsText(s, i);
    }
  }

  /** The ASCII character of the decimal digit `d`. */
  function DigitChar(d: nat): (c: byte)
    requires d < 10
    ensures 0x30 <= c <= 0x39
  {
    (0x30 + d) as byte
  }

  /** The digit an ASCII decimal character stands for (0 for any other byte). */
  function DigitValue(c: byte): (d: nat)
    ensures d < 10
  {
    if 0x30 <= c <= 0x39 then (c - 0x30) as nat else 0
  }

  lemma DigitCharValue(d: nat)
    requires d < 10
    ensures DigitValue(DigitChar(d)) == d
  {
    if d == 0 {} else if d == 1 {} else if d == 2 {} else if d == 3 {} else if d == 4 {}
    else if d == 5 {} else if d == 6 {} else if d == 7 {} else if d == 8 {} else {}
  }

  /** What `sprintf("%d")` prints for a non-negative `n`: its decimal
      digits, most significant first, with no leading zero. */
  function Digits(n: nat): (ds: seq<byte>)
    ensures 1 <= |ds|
    decreases n
  {
    if n < 10 then [DigitChar(n)] else Digits(n / 10) + [DigitChar(n % 10)]
  }

  /** Every printed character is an ASCII decimal digit, and a number of
      more than one digit does not start with '0'. */
  lemma {:induction false} DigitsWellFormed(n: nat)
    ensures forall i | 0 <= i < |Digits(n)| :: 0x30 <= Digits(n)[i] <= 0x39
    ensures |Digits(n)| > 1 ==> Digits(n)[0] != 0x30
    decreases n
  {
    if n >= 10 {
      DigitsWellFormed(n / 10);
      if n / 10 < 10 {
        assert Digits(n / 10) == [DigitChar(n / 10)];
        assert n / 10 != 0;
        if DigitChar(n / 10) == 0x30 {
          DigitCharValue(n / 10);
        }
      }
    }
  }

  /** The number a string of decimal digits denotes. */
  function DecimalValue(ds: seq<byte>): nat
    decreases |ds|
  {
    if ds == [] then 0 else DecimalValue(ds[..|ds| - 1]) * 10 + DigitValue(ds[|ds| - 1])
  }

  /** The printed digits denote the number printed. */
  lemma {:induction false} DigitsDenote(n: nat)
    ensures DecimalValue(Digits(n)) == n
    decreases n
  {
    var ds := Digits(n);
    if n < 10 {
      DigitCharValue(n);
      assert ds[..0] == [];
    } else {
      DigitsDenote(n / 10);
      DigitCharValue(n % 10);
      assert ds[..|ds| - 1] == Digits(n / 10);
    }
  }

  /** The magnitude `hd44780_write_int` prints after `number *= -1`. */
  function Magnitude(n: int): nat
  {
    if n < 0 then -n else n
  }

  /** The minus sign `hd44780_write_int` writes first for a negative `n`. */
  function SignText(n: int): seq<byte>
  {
    if n < 0 then [0x2D] else []
  }

  /** What `hd44780_write_int` sends for `n`: a minus sign when negative,
      then the digits of its magnitude. */
  function IntText(n: int): seq<byte>
  {
    SignText(n) + Digits(Magnitude(n))
  }

  lemma DataBytesAppend(a: seq<byte>, b: seq<byte>)
    ensures DataBytes(a + b) == DataBytes(a) + DataBytes(b)
  {
    assert forall i | 0 <= i < |a + b| :: DataBytes(a + b)[i] == (DataBytes(a) + DataBytes(b))[i];
  }

  /** Writing the sign of `n` is one write of '-' when `n` is negative and
      nothing otherwise. */
  lemma SignWrites(link: Link, info: HwInfo, n: int)
    ensures StreamScript(link, info, DataBytes(SignText(n))) == if n < 0 then WriteScript(link, info, Data(0x2D)) else []
  {
    if n < 0 {
      assert DataBytes(SignText(n)) == [Data(0x2D)];
      StreamOne(link, info, Data(0x2D));
    } else {
      assert DataBytes(SignText(n)) == [];
    }
  }

  /** Writing the text of `n` is writing its sign, then its digits. */
  lemma IntTextWrites(link: Link, info: HwInfo, n: int)
    ensures StreamScript(link, info, DataBytes(IntText(n))) ==
      StreamScript(link, info, DataBytes(SignText(n))) + StreamScript(link, info, DataBytes(Digits(Magnitude(n))))
  {
    var sign, digits := SignText(n), Digits(Magnitude(n));
    DataBytesAppend(sign, digits);
    StreamAppend(link, info, DataBytes(sign), DataBytes(digits));
  }

  /** Different numbers are sent as different texts. */
  lemma IntTextInjective(m: int, n: int)
    requires IntText(m) == IntText(n)
    ensures m == n
  {
    var dm, dn := Digits(Magnitude(m)), Digits(Magnitude(n));
    DigitsWellFormed(Magnitude(m));
    DigitsWellFormed(Magnitude(n));
    assert (m < 0) == (IntText(m)[0] == 0x2D);
    assert (n < 0) == (IntText(n)[0] == 0x2D);
    if m < 0 {
      assert IntText(m)[1..] == dm;
      assert IntText(n)[1..] == dn;
    } else {
      assert IntText(m) == dm && IntText(n) == dn;
    }
    DigitsDenote(Magnitude(m));
    DigitsDenote(Magnitude(n));
  }

  /** The `num_digit` loop of `hd44780_write_int`: one more digit for every
      division by ten while the quotient exceeds 9. */
  method CountDigits(n: nat) returns (count: nat)
    ensures count == |Digits(n)|
  {
    count := 1;
    var temp := n;
    while temp > 9
      invariant count + |Digits(temp)| == |Digits(n)| + 1
      decreases temp
    {
      count := count + 1;
      temp := temp / 10;
    }
  }

  /** The digit loop of `hd44780_write_int`: the `numDigit` bytes of `buf`
      as data writes, stopping at the first failure. */
  method WriteDigits(hw: Hardware, h: Handle, buf: seq<byte>, numDigit: nat) returns (ok: bool)
    requires h.Valid() && numDigit == |buf|
    modifies hw
    ensures var r := Run(StreamScript(h.writeData, h.info, DataBytes(buf)), |old(hw.trace)|, hw.failing);
      hw.trace == old(hw.trace) + r.events && ok == r.ok
  {
    ghost var xs := DataBytes(buf);
    ghost var t0 := hw.trace;
    StreamBegin(h.writeData, h.info, xs, |t0|, hw.failing);
    var i := 0;
    while i < numDigit
      invariant 0 <= i <= numDigit
      invariant hw.trace == t0 + Run(StreamScript(h.writeData, h.info, xs[..i]), |t0|, hw.failing).events
      invariant Run(StreamScript(h.writeData, h.info, xs[..i]), |t0|, hw.failing).ok
    {
      ok := StreamWrite(hw, h.writeData, h.info, Data(buf[i]), xs, i, t0);
      if !ok {
        return;
      }
      i := i + 1;
    }
    StreamAll(h.writeData, h.info, xs);
    ok := true;
  }

  /** The sign step of `hd44780_write_int`: a '-' data write when `n` is
      negative, nothing otherwise. */
  method WriteSign(hw: Hardware, h: Handle, n: int) returns (ok: bool)
    requires h.Valid()
    modifies hw
    ensures var r := Run(StreamScript(h.writeData, h.info, DataBytes(SignText(n))), |old(hw.trace)|, hw.failing);
      hw.trace == old(hw.trace) + r.events && ok == r.ok
  {
    SignWrites(h.writeData, h.info, n);
    if n < 0 {
      ok := Write(hw, h.writeData, h.info, Data(0x2D));
    } else {
      RunEmpty(|hw.trace|, hw.failing);
      ok := true;
    }
  }

  /** `hd44780_write_int` for a 32-bit `n` other than INT_MIN, whose
      negation the source does not handle: the text of `n` written one data
      byte at a time, stopping at the first failure; no wait. */
  method WriteInt(hw: Hardware, h: Handle?, n: int) returns (st: Status)
    requires h != null ==> h.Valid()
    requires -0x8000_0000 < n < 0x8000_0000
    modifies hw
    ensures h == null ==> st == InvalidArg && hw.trace == old(hw.trace)
    ensures h != null ==>
      var r := Run(StreamScript(h.writeData, h.info, DataBytes(IntText(n))), |old(hw.trace)|, hw.failing);
      hw.trace == old(hw.trace) + r.events && (st == Ok <==> r.ok) && st != InvalidArg
  {
    if h == null {
      return InvalidArg;
    }
    ghost var t0 := hw.trace;
    ghost var a := StreamScript(h.writeData, h.info, DataBytes(SignText(n)));
    ghost var b := StreamScript(h.writeData, h.info, DataBytes(Digits(Magnitude(n))));
    IntTextWrites(h.writeData, h.info, n);
    var ok := WriteSign(hw, h, n);
    if !ok {
      RunStop(a, b, hw.failing, t0, hw.trace);
      return Fail;
    }
    var number := if n < 0 then -n else n;
    ghost var mid := hw.trace;
    var numDigit := CountDigits(number);
    ok := WriteDigits(hw, h, Digits(number), numDigit);
    RunThen(a, b, hw.failing, t0, mid, hw.trace);
    st := if ok then Ok else Fail;
  }

  /** The instruction base `hd44780_gotoxy` adds the column to: rows 0, 1
      and 2 have their own, every other row is treated as row 3. */
  function RowBase(row: byte): (base: byte)
    ensures base == 0x80 | RowStart(row)
  {
    if row == 0 then 0x80 else if row == 1 then 0xC0 else if row == 2 then 0x94 else 0xD4
  }

  /** The command `hd44780_gotoxy` writes: base plus column, truncated to a byte. */
  function GotoCommand(col: byte, row: byte): byte
  {
    RowBase(row) + col
  }

  /** The DDRAM address of the first character of each row of a 20x4
      display: rows 2 and 3 continue rows 0 and 1 after 20 characters. */
  function RowStart(row: byte): byte
  {
    if row == 0 then 0x00 else if row == 1 then 0x40 else if row == 2 then 0x14 else 0x54
  }

  /** For a column on a 20-column display the command is a "set DDRAM
      address" instruction (bit 7 set) whose address is the row's start
      plus the column. */
  lemma GotoSetsAddress(col: byte, row: byte)
    requires col < 20
    ensures GotoCommand(col, row) & 0x80 == 0x80
    ensures GotoCommand(col, row) & 0x7F == RowStart(row) + col
  {
  }

  /** Different positions on a 20x4 display get different commands. */
  lemma GotoDistinct(c1: byte, r1: byte, c2: byte, r2: byte)
    requires c1 < 20 && c2 < 20 && r1 < 4 && r2 < 4 && (c1, r1) != (c2, r2)
    ensures GotoCommand(c1, r1) != GotoCommand(c2, r2)
  {
    GotoSetsAddress(c1, r1);
    GotoSetsAddress(c2, r2);
  }

  /** `hd44780_gotoxy`: exactly one command write; no wait. */
  method Gotoxy(hw: Hardware, h: Handle?, col: byte, row: byte) returns (st: Status)
    requires h != null ==> h.Valid()
    modifies hw
    ensures h == null ==> st == InvalidArg && hw.trace == old(hw.trace)
    ensures h != null ==> var r := Run(WriteScript(h.writeCmd, h.info, Command(GotoCommand(col, row))), |old(hw.trace)|, hw.failing);
      hw.trace == old(hw.trace) + r.events && (st == Ok <==> r.ok) && st != InvalidArg
  {
    if h == null {
      return InvalidArg;
    }
    var cmd: byte;
    if row == 0 {
      cmd := 0x80 + col;
    } else if row == 1 {
      cmd := 0xC0 + col;
    } else if row == 2 {
      cmd := 0x94 + col;
    } else {
      cmd := 0xD4 + col;
    }
    assert cmd == GotoCommand(col, row);
    var ok := Write(hw, h.writeCmd, h.info, Command(cmd));
    st := if ok then Ok else Fail;
  }

  /** `n` copies of the write `x`. */
  function Repeat(x: Transfer, n: nat): (xs: seq<Transfer>)
    ensures |xs| == n && forall i | 0 <= i < n :: xs[i] == x
  {
    seq(n, _ => x)
  }

  /** The loop of the cursor shifts: `step` writes of command `c`, stopping
      at the first failure. */
  method ShiftCursor(hw: Hardware, h: Handle, c: byte, step: nat) returns (st: Status)
    requires h.Valid() && step < 0x100
    modifies hw
    ensures var r := Run(StreamScript(h.writeCmd, h.info, Repeat(Command(c), step)), |old(hw.trace)|, hw.failing);
      hw.trace == old(hw.trace) + r.events && (st == Ok <==> r.ok) && st != InvalidArg
  {
    ghost var xs := Repeat(Command(c), step);
    ghost var t0 := hw.trace;
    StreamBegin(h.writeCmd, h.info, xs, |t0|, hw.failing);
    var i := 0;
    while i < step
      invariant i <= step
      invariant hw.trace == t0 + Run(StreamScript(h.writeCmd, h.info, xs[..i]), |t0|, hw.failing).events
      invariant Run(StreamScript(h.writeCmd, h.info, xs[..i]), |t0|, hw.failing).ok
    {
      var ok := StreamWrite(hw, h.writeCmd, h.info, Command(c), xs, i, t0);
      if !ok {
        return Fail;
      }
      i := i + 1;
    }
    StreamAll(h.writeCmd, h.info, xs);
    st := Ok;
  }

  /** `hd44780_shift_cursor_forward`: `step` writes of 0x14 (cursor right). */
  method ShiftCursorForward(hw: Hardware, h: Handle?, step: nat) returns (st: Status)
    requires h != null ==> h.Valid()
    requires step < 0x100
    modifies hw
    ensures h == null ==> st == InvalidArg && hw.trace == old(hw.trace)
    ensures h != null ==> var r := Run(StreamScript(h.writeCmd, h.info, Repeat(Command(0x14), step)), |old(hw.trace)|, hw.failing);
      hw.trace == old(hw.trace) + r.events && (st == Ok <==> r.ok) && st != InvalidArg
  {
    if h == null {
      return InvalidArg;
    }
    st := ShiftCursor(hw, h, 0x14, step);
  }

  /** `hd44780_shift_cursor_backward`: `step` writes of 0x10 (cursor left). */
  method ShiftCursorBackward(hw: Hardware, h: Handle?, step: nat) returns (st: Status)
    requires h != null ==> h.Valid()
    requires step < 0x100
    modifies hw
    ensures h == null ==> st == InvalidArg && hw.trace == old(hw.trace)
    ensures h != null ==> var r := Run(StreamScript(h.writeCmd, h.info, Repeat(Command(0x10), step)), |old(hw.trace)|, hw.failing);
      hw.trace == old(hw.trace) + r.events && (st == Ok <==> r.ok) && st != InvalidArg
  {
    if h == null {
      return InvalidArg;
    }
    st := ShiftCursor(hw, h, 0x10, step);
  }
}
