/** The receiving end of the wire: what an HD44780 takes in from the calls
    the driver makes. This side is not part of the driver; it is the
    reference the transports are checked against, so that "the pin levels
    carry the byte" becomes "the controller decodes the stream that was
    sent". In 4-bit operation the controller latches RS and DB7..DB4 on
    each falling edge of E while R/W is low, high nibble first (HD44780U
    datasheet, "Interfacing to the MPU"); behind the I2C backpack the
    expander's output byte carries RS, R/W, E and the backlight in bits
    0..3 and DB4..DB7 in bits 4..7. */
module Controller {
  import opened Bits
  import opened Hal
  import opened Transport

  /** The levels on the controller's RS, R/W, E and DB4..DB7 inputs. */
  datatype Lines = Lines(rs: bool, rw: bool, en: bool, d4: bool, d5: bool, d6: bool, d7: bool)

  /** What the controller takes in on one falling edge of E during a
      write: the register select and the nibble on DB7..DB4. */
  datatype Sample = Sample(isData: bool, nibble: byte)

  /** The lines after one driver call; only level-sets move them. */
  function Drive(l: Lines, e: Event): Lines
  {
    match e
    case SetLevel(line, v) =>
      (match line
       case RS => l.(rs := v)
       case RW => l.(rw := v)
       case EN => l.(en := v)
       case D4 => l.(d4 := v)
       case D5 => l.(d5 := v)
       case D6 => l.(d6 := v)
       case D7 => l.(d7 := v))
    case _ => l
  }

  /** A write is latched when E falls while R/W is low. */
  function Latch(l: Lines, e: Event): seq<Sample>
  {
    if e.SetLevel? && e.line == EN && !e.level && l.en && !l.rw then [Sample(l.rs, NibbleOf(l.d4, l.d5, l.d6, l.d7))] else []
  }

  /** The lines after the calls `s`, starting from `l`. */
  function After(s: seq<Event>, l: Lines): Lines
    decreases |s|
  {
    if s == [] then l else After(s[1..], Drive(l, s[0]))
  }

  /** Everything the controller latches during the calls `s`, starting from `l`. */
  function Samples(s: seq<Event>, l: Lines): seq<Sample>
    decreases |s|
  {
    if s == [] then [] else Latch(l, s[0]) + Samples(s[1..], Drive(l, s[0]))
  }

  /** The controller joins latched nibbles in pairs, high nibble first. */
  function Transfers(ss: seq<Sample>): seq<Transfer>
    decreases |ss|
  {
    if |ss| < 2 then [] else [Transfer(ss[0].isData, (ss[0].nibble << 4) | ss[1].nibble)] + Transfers(ss[2..])
  }

  /** The two latches that carry one transfer. */
  function NibblePair(x: Transfer): seq<Sample>
  {
    [Sample(x.isData, HighNibble(x.value)), Sample(x.isData, LowNibble(x.value))]
  }

  /** The latches that carry a sequence of transfers. */
  function Pairs(xs: seq<Transfer>): (ss: seq<Sample>)
    ensures |ss| == 2 * |xs|
    decreases |xs|
  {
    if xs == [] then [] else Pairs(xs[..|xs| - 1]) + NibblePair(xs[|xs| - 1])
  }

  // ---------------------------------------------------------------------
  // Replaying calls piece by piece

  lemma {:induction false} ReplayAppend(a: seq<Event>, b: seq<Event>, l: Lines)
    ensures Samples(a + b, l) == Samples(a, l) + Samples(b, After(a, l))
    ensures After(a + b, l) == After(b, After(a, l))
    decreases |a|
  {
    if a == [] {
      assert a + b == b;
    } else {
      assert (a + b)[1..] == a[1..] + b;
      ReplayAppend(a[1..], b, Drive(l, a[0]));
    }
  }

  lemma ReplayCons(e: Event, s: seq<Event>, l: Lines)
    ensures Samples([e] + s, l) == Latch(l, e) + Samples(s, Drive(l, e))
    ensures After([e] + s, l) == After(s, Drive(l, e))
  {
    assert ([e] + s)[1..] == s;
  }

  lemma ReplayOne(e: Event, l: Lines)
    ensures Samples([e], l) == Latch(l, e)
    ensures After([e], l) == Drive(l, e)
  {
    assert [e][1..] == [];
  }

  /** Selecting the register sets RS and leaves R/W low; nothing is latched. */
  lemma SelectReplay(info: HwInfo, isData: bool, l: Lines)
    requires !l.rw || RwDriven(info)
    ensures Samples(SelectScript(info, isData), l) == []
    ensures var m := After(SelectScript(info, isData), l); m.rs == isData && !m.rw && m.en == l.en
  {
    var e := SetLevel(RS, isData);
    if RwDriven(info) {
      ReplayCons(e, [SetLevel(RW, false)], l);
      ReplayOne(SetLevel(RW, false), Drive(l, e));
    } else {
      assert SelectScript(info, isData) == [e];
      ReplayOne(e, l);
    }
  }

  /** Driving d4..d7 latches nothing and leaves the nibble on the data lines. */
  lemma DataLinesReplay(n: byte, l: Lines)
    ensures Samples(DataLinesScript(n), l) == []
    ensures var m := After(DataLinesScript(n), l);
      m == l.(d4 := Bit(n, 0), d5 := Bit(n, 1), d6 := Bit(n, 2), d7 := Bit(n, 3))
  {
    LevelsReplay(Bit(n, 0), Bit(n, 1), Bit(n, 2), Bit(n, 3), l);
  }

  /** The same for any four levels. */
  lemma LevelsReplay(b0: bool, b1: bool, b2: bool, b3: bool, l: Lines)
    ensures var s := [SetLevel(D4, b0), SetLevel(D5, b1), SetLevel(D6, b2), SetLevel(D7, b3)];
      Samples(s, l) == [] && After(s, l) == l.(d4 := b0, d5 := b1, d6 := b2, d7 := b3)
  {
    var a, b := [SetLevel(D4, b0), SetLevel(D5, b1)], [SetLevel(D6, b2), SetLevel(D7, b3)];
    PairReplay(D4, D5, b0, b1, l);
    PairReplay(D6, D7, b2, b3, After(a, l));
    ReplayAppend(a, b, l);
    DriveLevels(l, b0, b1, b2, b3);
    assert a + b == [SetLevel(D4, b0), SetLevel(D5, b1), SetLevel(D6, b2), SetLevel(D7, b3)];
  }

  /** Two level-sets on lines other than E latch nothing. */
  lemma PairReplay(x: Line, y: Line, vx: bool, vy: bool, l: Lines)
    requires x != EN && y != EN
    ensures Samples([SetLevel(x, vx), SetLevel(y, vy)], l) == []
    ensures After([SetLevel(x, vx), SetLevel(y, vy)], l) == Drive(Drive(l, SetLevel(x, vx)), SetLevel(y, vy))
  {
    ReplayCons(SetLevel(x, vx), [SetLevel(y, vy)], l);
    ReplayOne(SetLevel(y, vy), Drive(l, SetLevel(x, vx)));
    assert [SetLevel(x, vx)] + [SetLevel(y, vy)] == [SetLevel(x, vx), SetLevel(y, vy)];
  }

  /** Setting d4..d7 in turn sets exactly those lines. */
  lemma DriveLevels(l: Lines, b0: bool, b1: bool, b2: bool, b3: bool)
    ensures Drive(Drive(Drive(Drive(l, SetLevel(D4, b0)), SetLevel(D5, b1)), SetLevel(D6, b2)), SetLevel(D7, b3))
      == l.(d4 := b0, d5 := b1, d6 := b2, d7 := b3)
  {
  }

  /** An enable pulse with R/W low latches RS and the data lines once. */
  lemma PulseReplay(l: Lines)
    requires !l.rw
    ensures Samples(PulseScript(), l) == [Sample(l.rs, NibbleOf(l.d4, l.d5, l.d6, l.d7))]
    ensures After(PulseScript(), l) == l.(en := false)
  {
    var e0, e1, e2, e3 := SetLevel(EN, true), Delay(1), SetLevel(EN, false), Delay(1);
    assert PulseScript() == [e0] + ([e1] + ([e2] + [e3]));
    var l1 := Drive(l, e0);
    var l2 := Drive(l1, e1);
    var l3 := Drive(l2, e2);
    ReplayCons(e0, [e1] + ([e2] + [e3]), l);
    ReplayCons(e1, [e2] + [e3], l1);
    ReplayCons(e2, [e3], l2);
    ReplayOne(e3, l3);
    PulseLatches(l);
    assert Latch(l, e0) + (Latch(l1, e1) + (Latch(l2, e2) + Latch(l3, e3))) == Latch(l2, e2);
  }

  /** The line changes and latches of an enable pulse, call by call. */
  lemma PulseLatches(l: Lines)
    requires !l.rw
    ensures var l1 := Drive(l, SetLevel(EN, true)); var l2 := Drive(l1, Delay(1)); var l3 := Drive(l2, SetLevel(EN, false));
      Latch(l, SetLevel(EN, true)) == [] && Latch(l1, Delay(1)) == [] &&
      Latch(l2, SetLevel(EN, false)) == [Sample(l.rs, NibbleOf(l.d4, l.d5, l.d6, l.d7))] &&
      Latch(l3, Delay(1)) == [] && Drive(l3, Delay(1)) == l.(en := false)
  {
  }

  /** One nibble sent with RS set to `rs` is latched as that nibble. */
  lemma NibbleReplay(n: byte, l: Lines)
    requires n < 16 && !l.rw
    ensures Samples(NibbleScript(n), l) == [Sample(l.rs, n)]
    ensures var m := After(NibbleScript(n), l); m.rs == l.rs && !m.rw
  {
    DataLinesReplay(n, l);
    var m := After(DataLinesScript(n), l);
    PulseReplay(m);
    ReplayAppend(DataLinesScript(n), PulseScript(), l);
    NibbleLevels(n);
  }

  /** A 4-bit write is latched as its two nibbles, high first, with RS
      telling command from data; R/W is low afterwards. */
  lemma ParallelWriteReplay(info: HwInfo, x: Transfer, l: Lines)
    requires !l.rw || RwDriven(info)
    ensures Samples(ParallelScript(info, x), l) == NibblePair(x)
    ensures !After(ParallelScript(info, x), l).rw
  {
    var sel, hi, lo := SelectScript(info, x.isData), NibbleScript(HighNibble(x.value)), NibbleScript(LowNibble(x.value));
    SelectReplay(info, x.isData, l);
    var l1 := After(sel, l);
    NibbleReplay(HighNibble(x.value), l1);
    var l2 := After(hi, l1);
    NibbleReplay(LowNibble(x.value), l2);
    ReplayAppend(sel, hi, l);
    ReplayAppend(sel + hi, lo, l);
  }

  /** Setting up one line latches nothing unless E falls; E is set up
      only while it is low. */
  lemma SetUpReplay(line: Line, l: Lines)
    requires line != EN || !l.en
    ensures Samples(SetUpScript(line), l) == []
    ensures After(SetUpScript(line), l) == Drive(l, SetLevel(line, false))
  {
    ReplayCons(Configure(line, Output), [SetLevel(line, false)], l);
    ReplayOne(SetLevel(line, false), l);
  }

  /** Setting up R/W drives it low when it is wired and does nothing otherwise. */
  lemma RwSetUpReplay(info: HwInfo, l: Lines)
    ensures Samples(RwSetUpScript(info), l) == []
    ensures var m := After(RwSetUpScript(info), l); m.en == l.en && m.rw == (l.rw && !RwDriven(info))
  {
    if RwDriven(info) {
      SetUpReplay(RW, l);
    }
  }

  /** Two stretches of calls that latch nothing latch nothing together. */
  lemma QuietAppend(a: seq<Event>, b: seq<Event>, l: Lines)
    requires Samples(a, l) == [] && Samples(b, After(a, l)) == []
    ensures Samples(a + b, l) == [] && After(a + b, l) == After(b, After(a, l))
  {
    ReplayAppend(a, b, l);
  }

  /** Setting up RS, R/W (when wired) and E latches nothing, leaves E
      low, and leaves R/W low if it drives it. */
  lemma ControlReplay(info: HwInfo, l: Lines)
    requires !l.en
    ensures Samples(ControlSetUpScript(info), l) == []
    ensures var m := After(ControlSetUpScript(info), l); !m.en && m.rw == (l.rw && !RwDriven(info))
  {
    var rs, rw, en := SetUpScript(RS), RwSetUpScript(info), SetUpScript(EN);
    SetUpReplay(RS, l);
    var l1 := After(rs, l);
    DriveControl(l, RS, false);
    RwSetUpReplay(info, l1);
    var l2 := After(rw, l1);
    SetUpReplay(EN, l2);
    DriveControl(l2, EN, false);
    QuietAppend(rs, rw, l);
    QuietAppend(rs + rw, en, l);
  }

  /** What one level-set does to E and R/W. */
  lemma DriveControl(l: Lines, x: Line, v: bool)
    ensures Drive(l, SetLevel(x, v)).en == (if x == EN then v else l.en)
    ensures Drive(l, SetLevel(x, v)).rw == (if x == RW then v else l.rw)
  {
  }

  /** Setting up D4..D7 latches nothing and leaves E and R/W alone. */
  lemma DataSetUpReplay(m: Lines)
    ensures Samples(DataSetUpScript(), m) == []
    ensures After(DataSetUpScript(), m).en == m.en && After(DataSetUpScript(), m).rw == m.rw
  {
    var d4, d5, d6, d7 := SetUpScript(D4), SetUpScript(D5), SetUpScript(D6), SetUpScript(D7);
    SetUpReplay(D4, m);
    SetUpReplay(D5, After(d4, m));
    SetUpReplay(D6, After(d5, After(d4, m)));
    SetUpReplay(D7, After(d6, After(d5, After(d4, m))));
    QuietFour(d4, d5, d6, d7, m);
    DriveLevels(m, false, false, false, false);
  }

  /** Four stretches of calls, none of which latches anything, latch nothing together. */
  lemma QuietFour(a: seq<Event>, b: seq<Event>, c: seq<Event>, d: seq<Event>, l: Lines)
    requires Samples(a, l) == [] && Samples(b, After(a, l)) == []
    requires Samples(c, After(b, After(a, l))) == [] && Samples(d, After(c, After(b, After(a, l)))) == []
    ensures Samples(a + b + c + d, l) == []
    ensures After(a + b + c + d, l) == After(d, After(c, After(b, After(a, l))))
  {
    QuietAppend(a, b, l);
    QuietAppend(a + b, c, l);
    QuietAppend(a + b + c, d, l);
  }

  /** The 4-bit line set-up latches nothing when E starts low, leaves E
      low, and leaves R/W low if it drives it. */
  lemma LinesReplay(info: HwInfo, l: Lines)
    requires !l.en
    ensures Samples(LinesScript(info), l) == []
    ensures var m := After(LinesScript(info), l); !m.en && m.rw == (l.rw && !RwDriven(info))
  {
    ControlReplay(info, l);
    DataSetUpReplay(After(ControlSetUpScript(info), l));
    ReplayAppend(ControlSetUpScript(info), DataSetUpScript(), l);
  }

  // ---------------------------------------------------------------------
  // Round trips

  lemma {:induction false} TransfersAppend(ss: seq<Sample>, tt: seq<Sample>)
    requires |ss| % 2 == 0
    ensures Transfers(ss + tt) == Transfers(ss) + Transfers(tt)
    decreases |ss|
  {
    if ss != [] {
      assert (ss + tt)[2..] == ss[2..] + tt;
      TransfersAppend(ss[2..], tt);
    } else {
      assert ss + tt == tt;
    }
  }

  /** One latched pair decodes to the transfer it carries. */
  lemma PairDecode(x: Transfer)
    ensures Transfers(NibblePair(x)) == [x]
  {
    NibblesJoin(x.value);
    assert NibblePair(x)[2..] == [];
  }

  /** Joining the latched pairs gives back the transfers that were sent. */
  lemma {:induction false} PairsDecode(xs: seq<Transfer>)
    ensures Transfers(Pairs(xs)) == xs
    decreases |xs|
  {
    if xs != [] {
      var ys, x := xs[..|xs| - 1], xs[|xs| - 1];
      PairsDecode(ys);
      TransfersAppend(Pairs(ys), NibblePair(x));
      NibblesJoin(x.value);
      assert xs == ys + [x];
    }
  }

  /** The calls of a sequence of 4-bit writes are latched as the pairs of
      their nibbles, provided R/W is low to begin with or is driven. */
  lemma {:induction false} ParallelStreamReplay(info: HwInfo, xs: seq<Transfer>, l: Lines)
    requires !l.rw || RwDriven(info)
    ensures Samples(StreamScript(FourBit, info, xs), l) == Pairs(xs)
    ensures !l.rw ==> !After(StreamScript(FourBit, info, xs), l).rw
    decreases |xs|
  {
    if xs != [] {
      var ys, x := xs[..|xs| - 1], xs[|xs| - 1];
      ParallelStreamReplay(info, ys, l);
      var m := After(StreamScript(FourBit, info, ys), l);
      ParallelWriteReplay(info, x, m);
      ReplayAppend(StreamScript(FourBit, info, ys), ParallelScript(info, x), l);
    }
  }

  // ---------------------------------------------------------------------
  // Behind the I2C expander

  /** The bytes of every bus write to `addr` among the calls `s`, in order. */
  function WireBytes(s: seq<Event>, addr: byte): seq<byte>
    decreases |s|
  {
    if s == [] then []
    else (if s[0].BusWrite? && s[0].addr == addr then s[0].bytes else []) + WireBytes(s[1..], addr)
  }

  /** E as set by one expander output byte. */
  predicate EnOf(b: byte)
  {
    b & EnBit != 0
  }

  /** What one expander output byte `b` makes the controller latch, `en`
      being E before it: E falling with R/W low latches RS and DB7..DB4 of `b`. */
  function ExpanderLatch(b: byte, en: bool): seq<Sample>
  {
    if en && b & EnBit == 0 && b & RwBit == 0 then [Sample(b & RsBit != 0, b >> 4)] else []
  }

  /** What the controller latches from the expander's successive output
      bytes, `en` being E before the first. */
  function ExpanderSamples(bytes: seq<byte>, en: bool): seq<Sample>
    decreases |bytes|
  {
    if bytes == [] then [] else ExpanderLatch(bytes[0], en) + ExpanderSamples(bytes[1..], EnOf(bytes[0]))
  }

  /** E after the output bytes `bytes`, starting from `en`. */
  function EnAfter(bytes: seq<byte>, en: bool): bool
    decreases |bytes|
  {
    if bytes == [] then en else EnAfter(bytes[1..], EnOf(bytes[0]))
  }

  /** The frames of a sequence of transfers, back to back. */
  function Frames(xs: seq<Transfer>): seq<byte>
    decreases |xs|
  {
    if xs == [] then [] else Frames(xs[..|xs| - 1]) + Frame(xs[|xs| - 1])
  }

  lemma {:induction false} WireBytesAppend(a: seq<Event>, b: seq<Event>, addr: byte)
    ensures WireBytes(a + b, addr) == WireBytes(a, addr) + WireBytes(b, addr)
    decreases |a|
  {
    if a == [] {
      assert a + b == b;
    } else {
      assert (a + b)[1..] == a[1..] + b;
      WireBytesAppend(a[1..], b, addr);
    }
  }

  lemma WireBytesOne(e: Event, addr: byte)
    ensures WireBytes([e], addr) == if e.BusWrite? && e.addr == addr then e.bytes else []
  {
    assert [e][1..] == [];
  }

  lemma {:induction false} ExpanderAppend(a: seq<byte>, b: seq<byte>, en: bool)
    ensures ExpanderSamples(a + b, en) == ExpanderSamples(a, en) + ExpanderSamples(b, EnAfter(a, en))
    ensures EnAfter(a + b, en) == EnAfter(b, EnAfter(a, en))
    decreases |a|
  {
    if a == [] {
      assert a + b == b;
    } else {
      assert (a + b)[1..] == a[1..] + b;
      ExpanderAppend(a[1..], b, EnOf(a[0]));
    }
  }

  lemma ExpanderCons(b: byte, rest: seq<byte>, en: bool)
    ensures ExpanderSamples([b] + rest, en) == ExpanderLatch(b, en) + ExpanderSamples(rest, EnOf(b))
    ensures EnAfter([b] + rest, en) == EnAfter(rest, EnOf(b))
  {
    assert ([b] + rest)[1..] == rest;
  }

  /** Four output bytes, byte by byte. */
  lemma FourBytesReplay(f: seq<byte>, en: bool)
    requires |f| == 4
    ensures ExpanderSamples(f, en) ==
      ExpanderLatch(f[0], en) + ExpanderLatch(f[1], EnOf(f[0])) + ExpanderLatch(f[2], EnOf(f[1])) + ExpanderLatch(f[3], EnOf(f[2]))
    ensures EnAfter(f, en) == EnOf(f[3])
  {
    assert f == [f[0]] + ([f[1]] + ([f[2]] + ([f[3]] + [])));
    ExpanderCons(f[0], [f[1]] + ([f[2]] + ([f[3]] + [])), en);
    ExpanderCons(f[1], [f[2]] + ([f[3]] + []), EnOf(f[0]));
    ExpanderCons(f[2], [f[3]] + [], EnOf(f[1]));
    ExpanderCons(f[3], [], EnOf(f[2]));
    var a, b, c, d := ExpanderLatch(f[0], en), ExpanderLatch(f[1], EnOf(f[0])), ExpanderLatch(f[2], EnOf(f[1])), ExpanderLatch(f[3], EnOf(f[2]));
    assert a + (b + (c + (d + ExpanderSamples([], EnOf(f[3]))))) == a + b + c + d;
  }

  /** The latches of a frame's bytes: none on the bytes raising E, the high
      nibble on the second byte, the low nibble on the fourth. */
  lemma FrameLatches(x: Transfer, en: bool)
    ensures var f := Frame(x);
      ExpanderLatch(f[0], en) == [] && ExpanderLatch(f[1], EnOf(f[0])) == [Sample(x.isData, HighNibble(x.value))] &&
      ExpanderLatch(f[2], EnOf(f[1])) == [] && ExpanderLatch(f[3], EnOf(f[2])) == [Sample(x.isData, LowNibble(x.value))] &&
      !EnOf(f[3])
  {
  }

  /** Each frame is latched as its two nibbles, whatever E was before, and
      leaves E low. */
  lemma FrameReplay(x: Transfer, en: bool)
    ensures ExpanderSamples(Frame(x), en) == NibblePair(x)
    ensures !EnAfter(Frame(x), en)
  {
    FourBytesReplay(Frame(x), en);
    FrameLatches(x, en);
  }

  lemma {:induction false} FramesReplay(xs: seq<Transfer>, en: bool)
    ensures ExpanderSamples(Frames(xs), en) == Pairs(xs)
    ensures xs != [] ==> !EnAfter(Frames(xs), en)
    decreases |xs|
  {
    if xs != [] {
      var ys, x := xs[..|xs| - 1], xs[|xs| - 1];
      FramesReplay(ys, en);
      FrameReplay(x, EnAfter(Frames(ys), en));
      ExpanderAppend(Frames(ys), Frame(x), en);
    }
  }

  /** The serial stream puts exactly the frames of its transfers on the bus. */
  lemma {:induction false} SerialStreamWire(info: HwInfo, xs: seq<Transfer>)
    ensures WireBytes(StreamScript(Serial, info, xs), I2cAddr) == Frames(xs)
    decreases |xs|
  {
    if xs != [] {
      var ys, x := xs[..|xs| - 1], xs[|xs| - 1];
      SerialStreamWire(info, ys);
      WireBytesAppend(StreamScript(Serial, info, ys), [BusWrite(I2cAddr, Frame(x))], I2cAddr);
      WireBytesOne(BusWrite(I2cAddr, Frame(x)), I2cAddr);
    }
  }

  /** The 8-bit transport is a stub: nothing reaches the controller. */
  lemma {:induction false} EightBitSendsNothing(info: HwInfo, xs: seq<Transfer>)
    ensures StreamScript(EightBit, info, xs) == []
    decreases |xs|
  {
    if xs != [] {
      EightBitSendsNothing(info, xs[..|xs| - 1]);
    }
  }

  // ---------------------------------------------------------------------
  // Either transport

  /** What the controller latches from the calls `s` made over `link`,
      starting from the lines `l` (behind the expander only E matters). The
      8-bit transport issues no calls, so nothing is latched from it. */
  function LinkSamples(link: Link, s: seq<Event>, l: Lines): seq<Sample>
  {
    match link
    case FourBit => Samples(s, l)
    case Serial => ExpanderSamples(WireBytes(s, I2cAddr), l.en)
    case EightBit => []
  }

  /** The lines after the calls `s` made over `link`. */
  function LinkAfter(link: Link, s: seq<Event>, l: Lines): Lines
  {
    match link
    case FourBit => After(s, l)
    case Serial => l.(en := EnAfter(WireBytes(s, I2cAddr), l.en))
    case EightBit => l
  }

  /** The commands and data bytes the controller decodes from the calls `s`. */
  function Received(link: Link, s: seq<Event>, l: Lines): seq<Transfer>
  {
    Transfers(LinkSamples(link, s, l))
  }

  /** The controller is ready to take writes over `link`: in 4-bit mode R/W
      is low or is driven low by every write. */
  predicate Ready(link: Link, info: HwInfo, l: Lines)
  {
    link == FourBit ==> !l.rw || RwDriven(info)
  }

  lemma LinkAppend(link: Link, a: seq<Event>, b: seq<Event>, l: Lines)
    ensures LinkSamples(link, a + b, l) == LinkSamples(link, a, l) + LinkSamples(link, b, LinkAfter(link, a, l))
    ensures LinkAfter(link, a + b, l) == LinkAfter(link, b, LinkAfter(link, a, l))
  {
    match link
    case FourBit =>
      ReplayAppend(a, b, l);
    case Serial =>
      WireBytesAppend(a, b, I2cAddr);
      ExpanderAppend(WireBytes(a, I2cAddr), WireBytes(b, I2cAddr), l.en);
    case EightBit =>
  }

  /** A pause is invisible to the controller. */
  lemma DelayInvisible(link: Link, ms: nat, l: Lines)
    ensures LinkSamples(link, [Delay(ms)], l) == []
    ensures LinkAfter(link, [Delay(ms)], l) == l
  {
    ReplayOne(Delay(ms), l);
    WireBytesOne(Delay(ms), I2cAddr);
  }

  /** One write over a real transport is latched as its two nibbles and
      leaves the controller ready. */
  lemma WriteDelivers(link: Link, info: HwInfo, x: Transfer, l: Lines)
    requires link != EightBit && Ready(link, info, l)
    ensures LinkSamples(link, WriteScript(link, info, x), l) == NibblePair(x)
    ensures Ready(link, info, LinkAfter(link, WriteScript(link, info, x), l))
  {
    if link == FourBit {
      ParallelWriteReplay(info, x, l);
    } else {
      WireBytesOne(BusWrite(I2cAddr, Frame(x)), I2cAddr);
      FrameReplay(x, l.en);
    }
  }

  /** A sequence of writes over a real transport is latched as the pairs
      of nibbles of its transfers. */
  lemma {:induction false} StreamDelivers(link: Link, info: HwInfo, xs: seq<Transfer>, l: Lines)
    requires link != EightBit && Ready(link, info, l)
    ensures LinkSamples(link, StreamScript(link, info, xs), l) == Pairs(xs)
    ensures Ready(link, info, LinkAfter(link, StreamScript(link, info, xs), l))
    decreases |xs|
  {
    if xs == [] {
      assert LinkSamples(link, [], l) == [] by {
        WireBytesEmpty(I2cAddr);
      }
      assert LinkAfter(link, [], l) == l by {
        WireBytesEmpty(I2cAddr);
      }
    } else {
      var ys, x := xs[..|xs| - 1], xs[|xs| - 1];
      StreamDelivers(link, info, ys, l);
      var m := LinkAfter(link, StreamScript(link, info, ys), l);
      WriteDelivers(link, info, x, m);
      LinkAppend(link, StreamScript(link, info, ys), WriteScript(link, info, x), l);
    }
  }

  lemma WireBytesEmpty(addr: byte)
    ensures WireBytes([], addr) == []
  {
  }

  /** Round trip of both real transports: the controller decodes exactly
      the commands and data bytes that were written, in order. */
  lemma RoundTrip(link: Link, info: HwInfo, xs: seq<Transfer>, l: Lines)
    requires link != EightBit && Ready(link, info, l)
    ensures Received(link, StreamScript(link, info, xs), l) == xs
  {
    StreamDelivers(link, info, xs, l);
    PairsDecode(xs);
  }
}
