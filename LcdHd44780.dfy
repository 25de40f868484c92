/** The older 4-bit-only driver of lcd_hd44780.c. Its pin-level writers,
    line set-up and status read make the same calls as those of hd44780.c,
    so they are shared through `Transport`; what differs is the init (no
    argument checks, only 4-bit mode resolves to a transport, a shorter
    pause) and the session operations, which ignore transport errors. */
module LcdHd44780 {
  import opened Bits
  import opened Hal
  import opened Transport
  import opened Controller
  import Hd44780

  /** `LCD_TICK_DELAY_DEFAULT`, the pause after each init command. */
  const TickDelayDefault: nat := 50

  /** The handle `lcd_hd44780_t`. Its write pointers come from the
      selectors, which return the 4-bit writers for 4-bit mode. */
  class Handle {
    const size: nat
    const mode: nat
    const info: HwInfo
    const writeCmd: Link
    const writeData: Link
    const wait: Hd44780.WaitKind

    /** The field updates at the end of `lcd_hd44780_init`. */
    constructor (size: nat, mode: nat, info: HwInfo)
      ensures this.size == size && this.mode == mode && this.info == info
      ensures writeCmd == Hd44780.LinkFor(mode) && writeData == Hd44780.LinkFor(mode)
      ensures wait == Hd44780.WaitFor(info)
    {
      this.size := size;
      this.mode := mode;
      this.info := info;
      writeCmd := Hd44780.LinkFor(mode);
      writeData := Hd44780.LinkFor(mode);
      wait := Hd44780.WaitFor(info);
    }

    /** What every handle `lcd_hd44780_init` returns satisfies. */
    predicate Valid()
    {
      mode == Hd44780.Mode4Bit &&
      writeCmd == Hd44780.LinkFor(mode) && writeData == Hd44780.LinkFor(mode) &&
      wait == Hd44780.WaitFor(info)
    }
  }

  /** `lcd_hd44780_init`. It checks neither the pointer nor the enum
      ranges, and its selectors return a function only for 4-bit mode, so
      only a 4-bit configuration has defined behaviour; for it the serial
      wiring override does not apply. The calls are the 4-bit line set-up
      and the five init commands, each followed by a 50 ms pause, stopping
      at the first failure, which yields no handle. */
  method Init(hw: Hardware, config: Hd44780.Config) returns (h: Handle?)
    requires config.mode == Hd44780.Mode4Bit
    modifies hw
    ensures var r := Run(Hd44780.InitScript(FourBit, config.info, TickDelayDefault), |old(hw.trace)|, hw.failing);
      hw.trace == old(hw.trace) + r.events && (h != null <==> r.ok)
    ensures h != null ==> fresh(h) && h.Valid() && h.size == config.size && h.mode == config.mode && h.info == config.info
  {
    var ok := Hd44780.SetUpAndSendCommands(hw, FourBit, config.info, TickDelayDefault);
    if !ok {
      return null;
    }
    h := new Handle(config.size, config.mode, config.info);
  }

  /** Over the 4-bit bus, a controller that starts with E low and R/W low
      or driven receives exactly the five init commands, in order. */
  lemma InitDelivers(info: HwInfo, l: Lines)
    requires !l.en && (!l.rw || RwDriven(info))
    ensures Received(FourBit, Hd44780.InitScript(FourBit, info, TickDelayDefault), l) ==
      [Command(0x02), Command(0x28), Command(0x06), Command(0x0C), Command(0x01)]
  {
    Hd44780.InitDelivers(FourBit, info, TickDelayDefault, l);
  }

  // ---------------------------------------------------------------------
  // Waiting

  /** A call through the handle's `_wait` pointer: the fixed delay, or the
      busy-poll with the 4-bit status read. */
  method Wait(hw: Hardware, h: Handle)
    requires h.Valid()
    modifies hw
    ensures hw.trace == old(hw.trace) +
      Hd44780.WaitEvents(h.wait, h.writeCmd, |old(hw.trace)|, hw.stale, hw.pollBudget, hw.failing, hw.highs)
  {
    match h.wait
    case WaitDelay =>
      hw.Delay(Hd44780.WaitDelayMs);
    case WaitBusy =>
      var ready := Hd44780.WaitBusyFlag(hw, h.writeCmd);
  }

  /** In the status read as written, the nibble accumulators start with
      whatever the stack holds. A stale high accumulator with bit 3 set
      lands in bit 7 after the shift, so the byte reads busy whatever the
      controller answers and the busy-poll cannot end. */
  lemma StaleAccumulatorReadsBusy(pos: nat, highs: set<nat>, accL: byte)
    ensures Assembled(pos, highs, 0x08, accL) & 0x80 != 0
  {
    var n := SampledNibble(pos + HighPhaseAt, highs);
    assert ((0x08 | n) << 4) & 0x80 == 0x80;
  }

  /** An idle controller (every line reads low) is read as busy by the
      read as written with a stale high accumulator of 0x08, and as idle by
      the read whose accumulators start at zero. */
  lemma StaleAccumulatorCounterexample(pos: nat)
    ensures Assembled(pos, {}, 0x08, 0x00) == 0x80
    ensures StatusRead(pos, {}) == 0x00
  {
    assert SampledNibble(pos + HighPhaseAt, {}) == 0;
    assert SampledNibble(pos + LowPhaseAt, {}) == 0;
  }

  // ---------------------------------------------------------------------
  // Session operations

  /** The calls of the first `k` routines of `ws` run one after the other
      when each is attempted whatever the earlier ones did: each stops at
      its own first failing call. */
  function Unchecked(ws: seq<seq<Event>>, k: nat, pos: nat, failing: set<nat>): seq<Event>
    requires k <= |ws|
  {
    if k == 0 then []
    else
      var prefix := Unchecked(ws, k - 1, pos, failing);
      prefix + Run(ws[k - 1], pos + |prefix|, failing).events
  }

  /** The calls of the first `k` routines of `ws` when none fails. */
  function Concat(ws: seq<seq<Event>>, k: nat): seq<Event>
    requires k <= |ws|
  {
    if k == 0 then [] else Concat(ws, k - 1) + ws[k - 1]
  }

  /** The routines of the writes `xs` over `link`. */
  function WriteScripts(link: Link, info: HwInfo, xs: seq<Transfer>): (ws: seq<seq<Event>>)
    ensures |ws| == |xs| && forall i | 0 <= i < |xs| :: ws[i] == WriteScript(link, info, xs[i])
  {
    seq(|xs|, i requires 0 <= i < |xs| => WriteScript(link, info, xs[i]))
  }

  /** The first `k` writes of `xs` one after the other are the routines of
      the single writes, joined. */
  lemma {:induction false} StreamIsConcat(link: Link, info: HwInfo, xs: seq<Transfer>, k: nat)
    requires k <= |xs|
    ensures StreamScript(link, info, xs[..k]) == Concat(WriteScripts(link, info, xs), k)
  {
    if k == 0 {
      assert xs[..0] == [];
    } else {
      StreamIsConcat(link, info, xs, k - 1);
      StreamSnoc(link, info, xs, k - 1);
    }
  }

  /** The calls `x` extend the calls of the fail-fast routine `c`, and are
      those calls when it succeeds. */
  ghost predicate Extends(x: seq<Event>, c: seq<Event>, pos: nat, failing: set<nat>)
  {
    Run(c, pos, failing).events <= x && (Run(c, pos, failing).ok ==> x == c)
  }

  /** One more routine `w` keeps the unchecked calls an extension of the
      fail-fast ones. */
  lemma ExtendsStep(s: seq<Event>, u: seq<Event>, w: seq<Event>, c: seq<Event>, x: seq<Event>, pos: nat, failing: set<nat>)
    requires Extends(u, s, pos, failing)
    requires c == s + w && x == u + Run(w, pos + |u|, failing).events
    ensures Extends(x, c, pos, failing)
  {
    if Run(s, pos, failing).ok {
      ExtendsAfterSuccess(s, u, w, pos, failing);
    } else {
      ExtendsAfterFailure(s, u, w, pos, failing);
    }
  }

  lemma ExtendsAfterSuccess(s: seq<Event>, u: seq<Event>, w: seq<Event>, pos: nat, failing: set<nat>)
    requires Run(s, pos, failing).ok && u == s
    ensures Extends(u + Run(w, pos + |u|, failing).events, s + w, pos, failing)
  {
    RunAppend(s, w, pos, failing);
  }

  lemma ExtendsAfterFailure(s: seq<Event>, u: seq<Event>, w: seq<Event>, pos: nat, failing: set<nat>)
    requires !Run(s, pos, failing).ok && Run(s, pos, failing).events <= u
    ensures Extends(u + Run(w, pos + |u|, failing).events, s + w, pos, failing)
  {
    RunAppend(s, w, pos, failing);
    PrefixExtend(Run(s, pos, failing).events, u, Run(w, pos + |u|, failing).events);
  }

  lemma PrefixExtend(a: seq<Event>, b: seq<Event>, c: seq<Event>)
    requires a <= b
    ensures a <= b + c
  {
    assert (b + c)[..|a|] == b[..|a|];
  }

  /** Fail-fast routines make a prefix of the calls the same routines make
      when failures are ignored, and the same calls when none fails. */
  lemma {:induction false} FailFastIsPrefix(ws: seq<seq<Event>>, k: nat, pos: nat, failing: set<nat>)
    requires k <= |ws|
    ensures Extends(Unchecked(ws, k, pos, failing), Concat(ws, k), pos, failing)
  {
    if k == 0 {
      RunEmpty(pos, failing);
    } else {
      FailFastIsPrefix(ws, k - 1, pos, failing);
      var s, u := Concat(ws, k - 1), Unchecked(ws, k - 1, pos, failing);
      ExtendsStep(s, u, ws[k - 1], Concat(ws, k), Unchecked(ws, k, pos, failing), pos, failing);
    }
  }

  lemma UncheckedNext(ws: seq<seq<Event>>, j: nat, pos: nat, failing: set<nat>)
    requires j < |ws|
    ensures var u := Unchecked(ws, j, pos, failing);
      Unchecked(ws, j + 1, pos, failing) == u + Run(ws[j], pos + |u|, failing).events
  {
  }

  /** One more write whose result is ignored extends the unchecked calls. */
  lemma UncheckedStep(ws: seq<seq<Event>>, k: nat, failing: set<nat>, t0: seq<Event>, mid: seq<Event>, t1: seq<Event>)
    requires k < |ws|
    requires mid == t0 + Unchecked(ws, k, |t0|, failing)
    requires t1 == mid + Run(ws[k], |mid|, failing).events
    ensures t1 == t0 + Unchecked(ws, k + 1, |t0|, failing)
  {
    AppendAssoc(t0, Unchecked(ws, k, |t0|, failing), Run(ws[k], |mid|, failing).events);
  }

  /** The calls of the first `j` routines are a prefix of those of the
      first `k`. */
  lemma {:induction false} UncheckedGrows(ws: seq<seq<Event>>, j: nat, k: nat, pos: nat, failing: set<nat>)
    requires j <= k <= |ws|
    ensures Unchecked(ws, j, pos, failing) <= Unchecked(ws, k, pos, failing)
    decreases k - j
  {
    if j < k {
      UncheckedGrows(ws, j + 1, k, pos, failing);
      var u := Unchecked(ws, j, pos, failing);
      PrefixExtend(u, u, Run(ws[j], pos + |u|, failing).events);
    }
  }

  /** Failures do not stop the later routines: the first call of every
      routine is made, right after the calls of the routines before it. */
  lemma UncheckedAttemptsEach(ws: seq<seq<Event>>, j: nat, k: nat, pos: nat, failing: set<nat>)
    requires j < k <= |ws| && ws[j] != []
    ensures var u := Unchecked(ws, j, pos, failing);
      |u| < |Unchecked(ws, k, pos, failing)| && Unchecked(ws, k, pos, failing)[|u|] == ws[j][0]
  {
    var u := Unchecked(ws, j, pos, failing);
    var e := Run(ws[j], pos + |u|, failing).events;
    UncheckedNext(ws, j, pos, failing);
    RunStartsWithFirst(ws[j], pos + |u|, failing);
    AppendAt(u, e);
    UncheckedGrows(ws, j + 1, k, pos, failing);
    PrefixAt(u + e, Unchecked(ws, k, pos, failing), |u|);
  }

  lemma AppendAt<T>(u: seq<T>, e: seq<T>)
    requires e != []
    ensures |u| < |u + e| && (u + e)[|u|] == e[0]
  {
  }

  /** A routine with calls makes its first call, whatever happens next. */
  lemma RunStartsWithFirst(s: seq<Event>, pos: nat, failing: set<nat>)
    requires s != []
    ensures var e := Run(s, pos, failing).events; e != [] && e[0] == s[0]
  {
  }

  lemma PrefixAt<T>(a: seq<T>, b: seq<T>, n: nat)
    requires a <= b && n < |a|
    ensures n < |b| && b[n] == a[n]
  {
  }

  /** When no call fails, writes whose failures are ignored deliver exactly
      their bytes, in order. */
  lemma UncheckedDelivers(link: Link, info: HwInfo, xs: seq<Transfer>, pos: nat, l: Lines)
    requires link != EightBit && Ready(link, info, l)
    ensures Received(link, Unchecked(WriteScripts(link, info, xs), |xs|, pos, {}), l) == xs
  {
    var ws := WriteScripts(link, info, xs);
    StreamIsConcat(link, info, xs, |xs|);
    StreamAll(link, info, xs);
    RunClean(StreamScript(link, info, xs), pos, {});
    FailFastIsPrefix(ws, |xs|, pos, {});
    RoundTrip(link, info, xs, l);
  }

  /** The trace after a command write whose result is ignored, followed by
      the wait, starting from trace `t0`. */
  function IgnoredCommandTrace(h: Handle, c: byte, t0: seq<Event>, stale: byte, budget: nat, failing: set<nat>, highs: set<nat>): seq<Event>
    reads h
  {
    var t := t0 + Run(WriteScript(h.writeCmd, h.info, Command(c)), |t0|, failing).events;
    t + Hd44780.WaitEvents(h.wait, h.writeCmd, |t|, stale, budget, failing, highs)
  }

  /** Writes command `c`, ignores the result, then waits. */
  method CommandIgnored(hw: Hardware, h: Handle, c: byte)
    requires h.Valid()
    modifies hw
    ensures hw.trace == IgnoredCommandTrace(h, c, old(hw.trace), hw.stale, hw.pollBudget, hw.failing, hw.highs)
  {
    var ignored := Write(hw, h.writeCmd, h.info, Command(c));
    Wait(hw, h);
  }

  /** `lcd_hd44780_clear`: command 0x01, its result ignored, then the wait;
      always `STM_OK`. */
  method Clear(hw: Hardware, h: Handle) returns (st: Hd44780.Status)
    requires h.Valid()
    modifies hw
    ensures hw.trace == IgnoredCommandTrace(h, 0x01, old(hw.trace), hw.stale, hw.pollBudget, hw.failing, hw.highs)
    ensures st == Hd44780.Ok
  {
    CommandIgnored(hw, h, 0x01);
    st := Hd44780.Ok;
  }

  /** `lcd_hd44780_home`: command 0x02, its result ignored, then the wait;
      always `STM_OK`. */
  method Home(hw: Hardware, h: Handle) returns (st: Hd44780.Status)
    requires h.Valid()
    modifies hw
    ensures hw.trace == IgnoredCommandTrace(h, 0x02, old(hw.trace), hw.stale, hw.pollBudget, hw.failing, hw.highs)
    ensures st == Hd44780.Ok
  {
    CommandIgnored(hw, h, 0x02);
    st := Hd44780.Ok;
  }

  /** One data write whose result is ignored, as the `ws[k]` routine of a
      run of unchecked writes. */
  method DataIgnored(hw: Hardware, h: Handle, b: byte, ghost ws: seq<seq<Event>>, ghost k: nat, ghost t0: seq<Event>)
    requires k < |ws| && ws[k] == WriteScript(h.writeData, h.info, Data(b))
    requires hw.trace == t0 + Unchecked(ws, k, |t0|, hw.failing)
    modifies hw
    ensures hw.trace == t0 + Unchecked(ws, k + 1, |t0|, hw.failing)
  {
    ghost var mid := hw.trace;
    var ignored := Write(hw, h.writeData, h.info, Data(b));
    UncheckedStep(ws, k, hw.failing, t0, mid, hw.trace);
  }

  /** `lcd_hd44780_write_string`: a data write for every byte before the
      NUL, each result ignored, with no wait; always `STM_OK`. */
  method WriteString(hw: Hardware, h: Handle, str: array<byte>) returns (st: Hd44780.Status)
    requires h.Valid() && 0 in str[..]
    modifies hw
    ensures var xs := Hd44780.DataBytes(Hd44780.UntilNul(str[..]));
      hw.trace == old(hw.trace) + Unchecked(WriteScripts(h.writeData, h.info, xs), |xs|, |old(hw.trace)|, hw.failing)
    ensures st == Hd44780.Ok
  {
    ghost var text := Hd44780.UntilNul(str[..]);
    ghost var xs := Hd44780.DataBytes(text);
    ghost var ws := WriteScripts(h.writeData, h.info, xs);
    ghost var t0 := hw.trace;
    var i := 0;
    Hd44780.TextAt(str[..], i);
    while str[i] != 0
      invariant 0 <= i <= |text|
      invariant hw.trace == t0 + Unchecked(ws, i, |t0|, hw.failing)
      decreases |text| - i
    {
      Hd44780.TextAt(str[..], i);
      assert ws[i] == WriteScript(h.writeData, h.info, Data(str[i]));
      DataIgnored(hw, h, str[i], ws, i, t0);
      i := i + 1;
    }
    Hd44780.TextAt(str[..], i);
    st := Hd44780.Ok;
  }
}
