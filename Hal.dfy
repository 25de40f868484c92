/** The hardware the driver talks to, as seen from the driver: GPIO lines,
    the I2C bus and the delay primitive. Every call is recorded as an
    `Event` in an instrumented `Hardware` object, whose answers (which call
    fails, which level a line reads) are fixed in advance by two oracles. */
module Hal {
  import opened Bits

  /** The logical lines of the parallel interface. An event names the line;
      the driver's wiring record says which (port, num) pair carries it. */
  datatype Line = RS | RW | EN | D4 | D5 | D6 | D7

  datatype Direction = Input | Output

  datatype Event =
    | Configure(line: Line, dir: Direction)     // gpio_config
    | SetLevel(line: Line, level: bool)         // gpio_set_level
    | GetLevel(line: Line)                      // gpio_get_level
    | BusWrite(addr: byte, bytes: seq<byte>)    // one I2C write transaction; addr is the address the driver passes
    | Delay(ms: nat)                            // vTaskDelay

  /** Calls that return an error code; reading a level and sleeping cannot fail. */
  predicate Fallible(e: Event)
  {
    e.Configure? || e.SetLevel? || e.BusWrite?
  }

  /** Event `e`, recorded at trace position `pos`, is a call that fails. */
  predicate FailsAt(e: Event, pos: nat, failing: set<nat>)
  {
    Fallible(e) && pos in failing
  }

  /** What a fail-fast sequence of calls did: the calls it issued and whether all succeeded. */
  datatype Outcome = Outcome(events: seq<Event>, ok: bool)

  /** Reference semantics of a fail-fast driver routine whose calls, when
      every one succeeds, are `s`: it issues the calls in order, starting at
      trace position `pos`, and stops right after the first one that fails. */
  function Run(s: seq<Event>, pos: nat, failing: set<nat>): (r: Outcome)
    ensures |r.events| <= |s|
    ensures r.ok ==> r.events == s
    ensures !r.ok ==> 0 < |r.events| && FailsAt(r.events[|r.events| - 1], pos + |r.events| - 1, failing)
    decreases |s|
  {
    if s == [] then Outcome([], true)
    else
      var r := Run(s[..|s| - 1], pos, failing);
      if !r.ok then r
      else Outcome(s, !FailsAt(s[|s| - 1], pos + |s| - 1, failing))
  }

  /** When no call fails, a routine issues all its calls and succeeds. */
  lemma {:induction false} RunClean(s: seq<Event>, pos: nat, failing: set<nat>)
    requires forall i | 0 <= i < |s| :: !FailsAt(s[i], pos + i, failing)
    ensures Run(s, pos, failing) == Outcome(s, true)
    decreases |s|
  {
    if s != [] {
      RunClean(s[..|s| - 1], pos, failing);
    }
  }

  /** When the call at index `k` is the first that fails, a routine issues
      exactly the calls up to and including it, and reports failure. */
  lemma RunFailsFirstAt(s: seq<Event>, k: nat, pos: nat, failing: set<nat>)
    requires k < |s|
    requires forall i | 0 <= i < k :: !FailsAt(s[i], pos + i, failing)
    requires FailsAt(s[k], pos + k, failing)
    ensures Run(s, pos, failing) == Outcome(s[..k + 1], false)
  {
    RunClean(s[..k], pos, failing);
    assert s[..k + 1][..k] == s[..k];
    RunKeepsFailure(s, k + 1, pos, failing);
  }

  /** Once a prefix has failed, the calls after it change nothing. */
  lemma {:induction false} RunKeepsFailure(s: seq<Event>, k: nat, pos: nat, failing: set<nat>)
    requires k <= |s| && !Run(s[..k], pos, failing).ok
    ensures Run(s, pos, failing) == Run(s[..k], pos, failing)
    decreases |s| - k
  {
    if k < |s| {
      assert s[..k + 1][..k] == s[..k];
      RunKeepsFailure(s, k + 1, pos, failing);
    } else {
      assert s[..k] == s;
    }
  }

  /** Two fail-fast routines run back to back behave as one routine over the
      concatenated calls: the second runs only if the first succeeded. */
  lemma {:induction false} RunAppend(s: seq<Event>, t: seq<Event>, pos: nat, failing: set<nat>)
    ensures Run(s + t, pos, failing) ==
      var r := Run(s, pos, failing);
      if !r.ok then r
      else var q := Run(t, pos + |s|, failing); Outcome(s + q.events, q.ok)
    decreases |t|
  {
    if t == [] {
      assert s + t == s;
    } else {
      var t' := t[..|t| - 1];
      RunAppend(s, t', pos, failing);
      assert (s + t)[..|s + t| - 1] == s + t';
    }
  }

  /** Concatenation of traces is associative. */
  lemma AppendAssoc(x: seq<Event>, y: seq<Event>, z: seq<Event>)
    ensures x + (y + z) == x + y + z
  {
  }

  /** A routine with no calls issues nothing and succeeds. */
  lemma RunEmpty(pos: nat, failing: set<nat>)
    ensures Run([], pos, failing) == Outcome([], true)
  {
  }

  /** A single call is issued, and succeeds unless it fails at its position. */
  lemma RunSingle(e: Event, pos: nat, failing: set<nat>)
    ensures Run([e], pos, failing) == Outcome([e], !FailsAt(e, pos, failing))
  {
    assert [e][..0] == [];
  }

  // Straight-line routines, one call at a time.

  /** `t` is the trace `t0` followed by the first `k` calls of the routine
      `s`, none of which failed. */
  ghost predicate Issued(t: seq<Event>, t0: seq<Event>, s: seq<Event>, k: nat, failing: set<nat>)
  {
    k <= |s| && t == t0 + s[..k] && forall i | 0 <= i < k :: !FailsAt(s[i], |t0| + i, failing)
  }

  lemma IssueBegin(t0: seq<Event>, s: seq<Event>, failing: set<nat>)
    ensures Issued(t0, t0, s, 0, failing)
  {
    assert s[..0] == [];
  }

  /** Making call `k` of `s`: on success one more call is issued; on failure
      the trace is that of the whole routine `s`, which fails. */
  lemma IssueStep(t: seq<Event>, t1: seq<Event>, t0: seq<Event>, s: seq<Event>, k: nat, failing: set<nat>, ok: bool)
    requires Issued(t, t0, s, k, failing) && k < |s|
    requires t1 == t + [s[k]] && ok == !FailsAt(s[k], |t|, failing)
    ensures ok ==> Issued(t1, t0, s, k + 1, failing)
    ensures !ok ==> t1 == t0 + Run(s, |t0|, failing).events && !Run(s, |t0|, failing).ok
  {
    TakeSnoc(t0, s, k);
    if !ok {
      RunFailsFirstAt(s, k, |t0|, failing);
    }
  }

  lemma TakeSnoc(t0: seq<Event>, s: seq<Event>, k: nat)
    requires k < |s|
    ensures t0 + s[..k] + [s[k]] == t0 + s[..k + 1]
  {
    assert s[..k + 1] == s[..k] + [s[k]];
  }

  lemma IssueDone(t: seq<Event>, t0: seq<Event>, s: seq<Event>, failing: set<nat>)
    requires Issued(t, t0, s, |s|, failing)
    ensures t == t0 + Run(s, |t0|, failing).events && Run(s, |t0|, failing).ok
  {
    assert s[..|s|] == s;
    RunClean(s, |t0|, failing);
  }

  // Straight-line routines, one sub-routine at a time.

  /** A routine `a` that succeeded, followed by a routine `b`, has the trace
      and the result of the one fail-fast routine `a + b`. */
  lemma RunThen(a: seq<Event>, b: seq<Event>, failing: set<nat>, t0: seq<Event>, mid: seq<Event>, t1: seq<Event>)
    requires mid == t0 + Run(a, |t0|, failing).events && Run(a, |t0|, failing).ok
    requires t1 == mid + Run(b, |mid|, failing).events
    ensures t1 == t0 + Run(a + b, |t0|, failing).events
    ensures Run(a + b, |t0|, failing).ok == Run(b, |mid|, failing).ok
  {
    assert Run(a, |t0|, failing).events == a;
    RunAppend(a, b, |t0|, failing);
    var q := Run(b, |mid|, failing);
    assert Run(a + b, |t0|, failing) == Outcome(a + q.events, q.ok);
    AppendAssoc(t0, a, q.events);
  }

  /** A routine `a` that failed ends the fail-fast routine `a + b` there. */
  lemma RunStop(a: seq<Event>, b: seq<Event>, failing: set<nat>, t0: seq<Event>, t1: seq<Event>)
    requires t1 == t0 + Run(a, |t0|, failing).events && !Run(a, |t0|, failing).ok
    ensures t1 == t0 + Run(a + b, |t0|, failing).events && !Run(a + b, |t0|, failing).ok
  {
    RunAppend(a, b, |t0|, failing);
  }

  /** The instrumented hardware: `trace` records every call in order. A
      fallible call recorded at position `p` fails iff `p in failing`; a
      level read recorded at position `p` reads high iff `p in highs`.
      `pollBudget` bounds how many status reads a busy-poll wait makes
      before the model stops waiting (the source would keep polling), and
      `stale` is the byte an uninitialised local variable happens to hold. */
  class Hardware {
    var trace: seq<Event>
    const failing: set<nat>
    const highs: set<nat>
    const pollBudget: nat
    const stale: byte

    constructor (failing: set<nat>, highs: set<nat>, pollBudget: nat, stale: byte)
      ensures trace == [] && this.failing == failing && this.highs == highs
      ensures this.pollBudget == pollBudget && this.stale == stale
    {
      trace := [];
      this.failing := failing;
      this.highs := highs;
      this.pollBudget := pollBudget;
      this.stale := stale;
    }

    method Configure(line: Line, dir: Direction) returns (ok: bool)
      modifies this
      ensures trace == old(trace) + [Event.Configure(line, dir)]
      ensures ok == (|old(trace)| !in failing)
    {
      ok := |trace| !in failing;
      trace := trace + [Event.Configure(line, dir)];
    }

    method SetLevel(line: Line, level: bool) returns (ok: bool)
      modifies this
      ensures trace == old(trace) + [Event.SetLevel(line, level)]
      ensures ok == (|old(trace)| !in failing)
    {
      ok := |trace| !in failing;
      trace := trace + [Event.SetLevel(line, level)];
    }

    method GetLevel(line: Line) returns (level: bool)
      modifies this
      ensures trace == old(trace) + [Event.GetLevel(line)]
      ensures level == (|old(trace)| in highs)
    {
      level := |trace| in highs;
      trace := trace + [Event.GetLevel(line)];
    }

    method BusWrite(addr: byte, bytes: seq<byte>) returns (ok: bool)
      modifies this
      ensures trace == old(trace) + [Event.BusWrite(addr, bytes)]
      ensures ok == (|old(trace)| !in failing)
    {
      ok := |trace| !in failing;
      trace := trace + [Event.BusWrite(addr, bytes)];
    }

    method Delay(ms: nat)
      modifies this
      ensures trace == old(trace) + [Event.Delay(ms)]
    {
      trace := trace + [Event.Delay(ms)];
    }
  }
}
