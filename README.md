# HD44780 character-LCD driver, modelled in Dafny

This project models the core of an embedded driver for the Hitachi HD44780
character-LCD controller. The driver exists in three variants:

- `hd44780.c`, the full driver. It supports a 4-bit parallel transport over
  GPIO lines, an 8-bit transport that is a stub, and a serial transport
  through an I2C expander backpack. It has a fixed-delay wait and a
  busy-flag poll, an init sequencer, and the session operations clear,
  home, write_char, write_string, write_int, gotoxy and the cursor shifts.
- `lcd_hd44780.c`, an older 4-bit-only variant whose session operations
  ignore transport errors.
- `components/lcd/lcd_16x04.c`, a standalone I2C-backpack driver with
  1-based rows and its own init list.

The hardware is the class `Hal.Hardware`. It records every GPIO, bus and
delay call in a `trace`. Two oracles fix its answers:

- `failing` names the trace positions at which a fallible call fails.
- `highs` names the trace positions at which a level read returns high.

Every driver routine is a method that makes these calls, the way the C code
does. Each method is proved against a specification function: the calls the
routine makes when no call fails (a "script"), passed through `Hal.Run`.
`Hal.Run` is the fail-fast semantics of the driver's
`HD44780_CHECK(..., return STM_FAIL)` chains: it issues the calls in order
and stops right after the first one that fails.

The partner of every writer is the module `Controller`, a model of the
receiving HD44780. It latches RS and DB7..DB4 on each falling edge of E
while R/W is low, high nibble first. Behind the expander, bits 0..3 of each
output byte are RS, R/W, E and the backlight. The round-trip lemmas prove
that the controller decodes exactly the commands and data bytes that were
written, over both real transports. They also prove that the init sequences
deliver exactly their opcodes, in order. The opcodes are those of Table 6
("Instructions") of the HD44780U datasheet.

Modules:

- `Bits`: the nibble split and bit levels.
- `Hal`: events, `Run` and the instrumented hardware.
- `Transport`: the writers, the line set-up and the status read. They are
  shared by both GPIO drivers, whose copies of these routines make the same
  calls.
- `Controller`: the receiving side.
- `Hd44780`: hd44780.c.
- `LcdHd44780`: lcd_hd44780.c.
- `Lcd16x04`: lcd_16x04.c.

Behaviour of the code worth knowing, which the model keeps:

- Serial command frames set the backlight bit only in their last byte;
  data frames set it in all four.
- A 4-bit write drives RS, and RW when it is wired, once per byte, not once
  per nibble.
- Only clear and home wait. write_char, write_string, write_int, gotoxy and
  the shifts do not.
- The busy-poll is selected unless both RW coordinates are -1. With only
  one of them -1 the poll is still selected, although the writers do not
  drive RW in that case.
- init checks only the configuration pointer, the size and the mode, not
  the pin values.
- A failing status read returns before the data lines are switched back to
  outputs.

## Model

| member | source | states |
|---|---|---|
| Bits.NibblesSplit | hd44780.c:113-114 | both nibbles are below 16; the high nibble moved back up is the top half of the byte, and the low nibble with that top half is the byte |
| Bits.NibblesJoin | hd44780.c:113-114 | `(high << 4) \| low` is the byte again: the split loses nothing |
| Bits.BitIsMask | hd44780.c:124-131 | the level `(n >> i) & 0x01` is high exactly when bit `i` is set in `n` |
| Bits.NibbleOfBits | hd44780.c:265-276 | the nibble a reader builds with `\|=` from four levels is below 16 and has those levels as bits 0..3 |
| Bits.NibbleLevels | hd44780.c:124-131 | reading back the four levels a nibble was driven with gives the nibble |
| Bits.NibbleJoinSplit | hd44780.c:319 | joining two nibbles as `(h << 4) \| l` and splitting the byte again gives them back |
| Hal.Run | hd44780.c:117-152 | a fail-fast routine issues at most its calls, all of them when it succeeds, and when it fails the last call issued is one that fails |
| Hal.RunClean | hd44780.c:117-152 | when no call fails, a routine issues every call and succeeds |
| Hal.RunFailsFirstAt | hd44780.c:117-150 | when call `k` is the first that fails, exactly calls 0..k are issued and the routine fails: no later pin operation |
| Hal.RunKeepsFailure | hd44780.c:117-150 | once a prefix of the calls has failed, the calls after it change nothing |
| Hal.RunAppend | hd44780.c:433-448 | two fail-fast routines back to back are one routine over the joined calls; the second runs only if the first succeeded |
| Hal.RunThen | hd44780.c:433-448 | a routine that succeeded, followed by a second one, has the trace and the result of the joined routine |
| Hal.RunStop | hd44780.c:433-448 | a routine that failed ends the joined routine there, with failure |
| Transport.SelectScript | hd44780.c:117-121 | a write selects the register with two calls when RW is wired (both coordinates not -1) and with one call otherwise |
| Transport.SelectRegister | hd44780.c:117-121 | the trace grows by the fail-fast run of "RS to the register, then RW low only when wired"; the result is whether every call succeeded |
| Transport.SetDataLines | hd44780.c:124-131 | d4..d7 get bits 0..3 of the nibble, in that order, stopping at the first failing call |
| Transport.PulseEnable | hd44780.c:133-136 | EN high, 1 ms, EN low, 1 ms, stopping at the first failing level-set |
| Transport.SendNibble | hd44780.c:123-136 | the data lines, then the enable pulse, as one fail-fast routine |
| Transport.ParallelScript | hd44780.c:110-216 | the calls of a 4-bit write when none fails: it starts by driving RS to the register chosen, has the select calls plus 16 more (two nibbles of four line levels and an enable pulse each), and only sets levels and sleeps: no line is reconfigured or read |
| Transport.Write4Bit | hd44780.c:110-216 | `_write_cmd_4bit` and `_write_data_4bit`: register select, then the high nibble, then the low nibble, stopping at the first failing call; the result says whether all succeeded |
| Transport.CommandFrame | hd44780.c:162-166 | `buf_send` of `_write_cmd_serial`: four expander bytes (their layout is stated by CommandFrameLayout) |
| Transport.CommandFrameLayout | hd44780.c:160-171 | the command frame has RS and RW clear in all four bytes, EN set only in bytes 0 and 2, the backlight only in byte 3 and the high nibble first; `(f[0] & 0xF0) \| (f[2] >> 4)` is the command |
| Transport.DataFrame | hd44780.c:225-228 | `buf_send` of `_write_data_serial`: four expander bytes (their layout is stated by DataFrameLayout) |
| Transport.DataFrameLayout | hd44780.c:223-234 | the data frame has RS and the backlight set and RW clear in all four bytes, EN set only in bytes 0 and 2 and the high nibble first; the two nibbles give the byte back |
| Transport.WriteSerial | hd44780.c:160-171 | `_write_cmd_serial` and `_write_data_serial`: exactly one bus write of the 4-byte frame to `I2C_ADDR` (0x27 << 1), whose error is the result |
| Transport.Write | hd44780.c:370-394 | a write through the selected pointer: the 4-bit writer, the 8-bit stub (no call, success) or the serial writer |
| Transport.StreamAppend | hd44780.c:555-583 | two sequences of writes back to back make the calls of the joined sequence |
| Transport.StreamKeepsFailure | hd44780.c:532-540 | once a write of a sequence has failed, the later writes of the sequence change nothing |
| Transport.StreamStep | hd44780.c:532-540 | write `k` of a sequence, made after the first `k` succeeded, extends the trace to that of the first `k + 1` writes; if it fails, that is the trace of the whole sequence |
| Transport.StreamWrite | hd44780.c:532-540 | one write of a fail-fast loop: the trace becomes that of the first `k + 1` writes, and a failure ends the whole sequence there |
| Transport.SetUpLine | hd44780.c:60-63 | configure one line as an output, then drive it low, stopping at the first failure |
| Transport.SetUpControlLines | hd44780.c:60-75 | RS, then RW only when it is wired, then EN, stopping at the first failure |
| Transport.SetUpDataLines | hd44780.c:77-95 | d4, d5, d6, d7 in order, stopping at the first failure |
| Transport.InitMode4Bit | hd44780.c:54-98 | `_init_mode_4bit`: the control lines, then the data lines, as one fail-fast routine |
| Transport.InitLines | hd44780.c:357-368 | `_init_func`: the 4-bit line set-up in 4-bit mode; the 8-bit and serial set-ups make no call and succeed |
| Transport.SetDataDirection | hd44780.c:242-260 | d4..d7 switched to the given direction, in order, stopping at the first failure |
| Transport.SetEnable | hd44780.c:263-264 | EN driven to the level, then 1 ms; a failing level-set ends it |
| Transport.SampleDataLines | hd44780.c:265-276 | four level reads d4..d7; the result is the accumulator with bit `i` set for each line that read high |
| Transport.ReadPhase | hd44780.c:262-278 | EN high, the four samples, EN low, stopping at the first failure; on success the sampled nibble ORed into the accumulator |
| Transport.ReadInto | lcd_hd44780.c:181-267 | the status read with its accumulators starting at whatever they hold: the fail-fast calls of the read and, on success, `(accH \| high) << 4 \| (accL \| low)` |
| Transport.ReadScript | hd44780.c:236-322 | the calls of `_read_4bit` when none fails: 24 of them, with the four level reads of the high phase at offset 6 and those of the low phase at offset 14 |
| Transport.Read4Bit | hd44780.c:236-322 | `_read_4bit`: inputs, high phase, low phase, outputs, stopping at the first failure; on success the byte whose nibbles are the levels of the two phases |
| Transport.StatusReadNibbles | hd44780.c:319 | the high nibble of the status byte is the levels of the high phase, the low nibble those of the low phase |
| Transport.BusyFlagIsHighD7 | hd44780.c:262-319 | bit 7 of the status byte is set exactly when D7 read high in the high phase |
| Controller.SelectReplay | hd44780.c:117-121 | selecting the register latches nothing, sets RS to the register and leaves R/W low and E unchanged |
| Controller.DataLinesReplay | hd44780.c:124-131 | driving d4..d7 latches nothing and leaves the nibble's bits on the data lines |
| Controller.PulseReplay | hd44780.c:133-136 | one enable pulse with R/W low latches RS and the data lines exactly once and leaves E low |
| Controller.NibbleReplay | hd44780.c:123-136 | one nibble is latched as exactly that nibble with the current RS |
| Controller.ParallelWriteReplay | hd44780.c:110-216 | a 4-bit write is latched as two samples, high nibble then low nibble, with RS telling command from data; R/W is low afterwards |
| Controller.LinesReplay | hd44780.c:54-98 | the 4-bit line set-up latches nothing when E starts low, leaves E low, and leaves R/W low when it drives it |
| Controller.PairDecode | hd44780.c:110-216 | the two latched nibbles of a write join back into that write |
| Controller.PairsDecode | hd44780.c:110-216 | joining the latched pairs gives back the writes that were sent, in order |
| Controller.ParallelStreamReplay | hd44780.c:532-540 | a sequence of 4-bit writes is latched as the nibble pairs of its writes, in order |
| Controller.FrameReplay | hd44780.c:160-171 | each expander frame is latched as its two nibbles, whatever E was before, and leaves E low |
| Controller.FramesReplay | hd44780.c:223-234 | frames sent back to back are latched as the nibble pairs of their writes, in order |
| Controller.SerialStreamWire | hd44780.c:160-171 | a sequence of serial writes puts exactly the frames of its writes on the bus at `I2C_ADDR` |
| Controller.EightBitSendsNothing | hd44780.c:155-158 | the 8-bit writers are stubs: a sequence of them makes no call at all |
| Controller.WriteDelivers | hd44780.c:370-394 | one write over a real transport is latched as its two nibbles and leaves the controller ready for the next |
| Controller.StreamDelivers | hd44780.c:532-540 | a sequence of writes over a real transport is latched as the nibble pairs of its writes |
| Controller.RoundTrip | hd44780.c:110-234 | over the 4-bit bus and over the expander, the controller decodes exactly the commands and data bytes written, in order |
| Hd44780.LinkFor | hd44780.c:357-394 | the selectors resolve a mode to the serial transport exactly when it is neither 4-bit nor 8-bit |
| Hd44780.WaitFor | hd44780.c:396-405 | `_get_wait_func` selects the fixed delay exactly when both RW coordinates are -1 |
| Hd44780.DrivenRwIsPolled | hd44780.c:396-405 | a wiring whose RW the writers drive is always polled |
| Hd44780.InitWiring | hd44780.c:426-430 | in serial mode the RW coordinates become -1, so the fixed delay is selected and RW is never driven; other modes keep the wiring |
| Hd44780.Handle.constructor | hd44780.c:450-456 | the handle records size, mode and wiring, and the writers and the wait that the selectors return for them |
| Hd44780.SerialHandleWaitsWithDelay | hd44780.c:338-345 | a serial handle waits with the fixed delay, so the poll, which has no read routine in serial mode, is never reached |
| Hd44780.CommandThenDelay | hd44780.c:435-436 | one init step: the command write and, only if it succeeded, the pause |
| Hd44780.NextInitCommand | hd44780.c:438-448 | the next init step runs only when every earlier one succeeded; the trace is that of the joined fail-fast routine |
| Hd44780.SendInitCommands | hd44780.c:435-448 | 0x02, 0x28, 0x06, 0x0C, 0x01, each followed by the pause, stopping at the first rejected command |
| Hd44780.SetUpAndSendCommands | hd44780.c:433-448 | the line set-up of the mode, then the init commands, as one fail-fast routine |
| Hd44780.Init | hd44780.c:412-460 | a null configuration or a size or mode out of range gives no handle and no call; otherwise the serial RW override, then the set-up and the commands; any failure gives no handle; on success a valid handle built from the updated configuration |
| Hd44780.CommandThenDelayDelivers | hd44780.c:435-436 | an init step is latched as the command's two nibbles; the pause is invisible |
| Hd44780.InitLinesQuiet | hd44780.c:433 | the line set-up latches nothing when E starts low and leaves the controller ready |
| Hd44780.InitCommandsLatched | hd44780.c:435-448 | the command phase is latched as the nibbles of the five commands, in order |
| Hd44780.InitPairsDecode | hd44780.c:435-448 | those nibbles join back into the five commands |
| Hd44780.InitDelivers | hd44780.c:433-448 | over either real transport the controller receives exactly 0x02, 0x28, 0x06, 0x0C, 0x01, in that order |
| Hd44780.PollRead | hd44780.c:338-352 | the poll's `_read`: the 4-bit status read, whose byte is stored only on success, or the 8-bit stub, which makes no call and stores nothing |
| Hd44780.PollRound | hd44780.c:347-352 | one round: RS low and RW high with results ignored, then the read; the value is what `temp_val` holds afterwards |
| Hd44780.PollStep | hd44780.c:347-354 | after one round, either the flag read clear and the poll ends, or the rest of the poll goes on from after the round |
| Hd44780.Poll | hd44780.c:347-354 | the `while (1)` loop within a budget of rounds: a poll that ends began with the round's RS-low and RW-high calls |
| Hd44780.PollCalls | hd44780.c:347-354 | the poll makes at most `budget` rounds of RS, RW and the read's calls |
| Hd44780.WaitBusyFlag | hd44780.c:334-355 | `_wait_with_pinrw`: the calls of `Poll` starting from the stale `temp_val`, ending once bit 7 of the value read is clear |
| Hd44780.EightBitPollSeesStaleByte | hd44780.c:334-355 | with the 8-bit read stub, the poll only ever tests the stale `temp_val`: one round if its bit 7 is clear, otherwise every round allowed |
| Hd44780.CleanRound | hd44780.c:347-353 | a round in which no call fails makes 26 calls and reads not-busy exactly when D7 read low in the high phase |
| Hd44780.PollStopsAtFirstIdle | hd44780.c:347-354 | with no failures, the 4-bit poll ends right after the first round in which the controller reports not busy |
| Hd44780.PollGivesUpWhileBusy | hd44780.c:347-354 | with no failures, a controller busy in every round keeps the poll going for every round allowed |
| Hd44780.Wait | hd44780.c:329-355 | a call through `_wait`: one 2 ms pause, or the busy-poll |
| Hd44780.CommandAndWait | hd44780.c:469-480 | the command write, and the wait only when it succeeded; Ok exactly when the write succeeded, Fail otherwise |
| Hd44780.Clear | hd44780.c:462-481 | a null handle is an invalid argument with no call; otherwise command 0x01, then the wait if it was accepted; Ok exactly when the write succeeded |
| Hd44780.Home | hd44780.c:483-502 | the same with command 0x02 |
| Hd44780.WriteChar | hd44780.c:504-521 | a null handle is an invalid argument; otherwise one data write and no wait; Ok exactly when it succeeded |
| Hd44780.UntilNul | hd44780.c:532 | the text of a C string is a prefix without zero bytes; it is shorter than the buffer exactly when the buffer holds a zero, and then the zero follows it |
| Hd44780.NulEndsText | hd44780.c:532 | a zero byte within or right after the text sits right after it |
| Hd44780.TextAt | hd44780.c:532-539 | walking the string, position `i` holds the NUL exactly when it is right after the text, and otherwise the text's byte |
| Hd44780.WriteText | hd44780.c:532-540 | the loop: one data write per byte before the NUL, in order, stopping at the first failure |
| Hd44780.WriteString | hd44780.c:523-544 | a null handle or string is an invalid argument with no call; otherwise the data writes of the text, fail-fast, no wait; Ok exactly when all succeeded |
| Hd44780.DigitCharValue | hd44780.c:574 | the ASCII digit of `d` stands for `d` |
| Hd44780.Digits | hd44780.c:574 | what `sprintf("%d")` prints for a non-negative number: at least one character (DigitsWellFormed and DigitsDenote state what they are) |
| Hd44780.DigitsWellFormed | hd44780.c:574 | `%d` of a non-negative number prints only ASCII digits, with no leading '0' unless it is the number 0 |
| Hd44780.DigitsDenote | hd44780.c:574 | the printed digits denote the number printed |
| Hd44780.SignWrites | hd44780.c:555-561 | the sign is one data write of '-' for a negative number and nothing otherwise |
| Hd44780.IntTextWrites | hd44780.c:555-583 | writing a number is writing its sign, then its digits |
| Hd44780.IntTextInjective | hd44780.c:555-583 | different numbers are sent as different texts |
| Hd44780.CountDigits | hd44780.c:565-571 | the `num_digit` loop counts exactly the digits `%d` prints |
| Hd44780.WriteDigits | hd44780.c:576-583 | the digit loop: one data write per digit, in order, stopping at the first failure |
| Hd44780.WriteSign | hd44780.c:555-563 | a '-' data write exactly when the number is negative |
| Hd44780.WriteInt | hd44780.c:546-588 | a null handle is an invalid argument; otherwise the sign and the decimal digits of the magnitude as data writes, fail-fast, no wait; Ok exactly when all succeeded |
| Hd44780.RowBase | hd44780.c:645-676 | each row's base is the set-DDRAM-address instruction (bit 7) of that row's first address on a 20x4 display: 0x00, 0x40, 0x14, and 0x54 for any other row |
| Hd44780.GotoCommand | hd44780.c:645-676 | the base plus the column, truncated to a byte as the `uint8_t` argument truncates it; it has no contract of its own, and GotoSetsAddress and GotoDistinct state what it means |
| Hd44780.GotoSetsAddress | hd44780.c:645-676 | for a column below 20, the command is a set-DDRAM-address instruction whose address is the row's start (0x00, 0x40, 0x14, 0x54) plus the column |
| Hd44780.GotoDistinct | hd44780.c:645-676 | different positions on a 20x4 display get different commands |
| Hd44780.Gotoxy | hd44780.c:637-680 | a null handle is an invalid argument; otherwise exactly one command write, base (0x80, 0xC0, 0x94, or 0xD4 for any other row) plus column truncated to a byte; no wait |
| Hd44780.ShiftCursor | hd44780.c:690-697 | `step` writes of the command, stopping at the first failure; none when `step` is 0 |
| Hd44780.ShiftCursorForward | hd44780.c:682-701 | a null handle is an invalid argument; otherwise `step` writes of 0x14, fail-fast |
| Hd44780.ShiftCursorBackward | hd44780.c:703-722 | a null handle is an invalid argument; otherwise `step` writes of 0x10, fail-fast |
| LcdHd44780.Handle.constructor | lcd_hd44780.c:361-367 | the handle records the configuration and the writers and wait the selectors return |
| LcdHd44780.Init | lcd_hd44780.c:328-371 | no argument check; the 4-bit line set-up and the five init commands, each followed by a 50 ms pause, fail-fast; any failure gives no handle |
| LcdHd44780.InitDelivers | lcd_hd44780.c:343-359 | over the 4-bit bus the controller receives exactly 0x02, 0x28, 0x06, 0x0C, 0x01 |
| LcdHd44780.Wait | lcd_hd44780.c:269-291 | a call through `_wait`: a 2 ms pause, or the busy-poll with the 4-bit read |
| LcdHd44780.StaleAccumulatorReadsBusy | lcd_hd44780.c:185 | with a stale high accumulator of 0x08, the assembled byte has bit 7 set whatever the lines read |
| LcdHd44780.StaleAccumulatorCounterexample | lcd_hd44780.c:181-267 | an idle controller (all lines low) reads 0x80, busy, with that stale accumulator, and 0x00 with zeroed ones |
| LcdHd44780.StreamIsConcat | lcd_hd44780.c:396-399 | the first `k` writes of a sequence are the single writes' calls joined |
| LcdHd44780.FailFastIsPrefix | lcd_hd44780.c:396-399 | writes that stop at the first failure make a prefix of the calls the error-ignoring loop makes, and the same calls when none fails |
| LcdHd44780.UncheckedStep | lcd_hd44780.c:397 | one more write whose result is ignored extends the trace by its own fail-fast run |
| LcdHd44780.UncheckedGrows | lcd_hd44780.c:396-399 | the calls of fewer writes are a prefix of the calls of more |
| LcdHd44780.UncheckedAttemptsEach | lcd_hd44780.c:396-399 | a failure does not stop later writes: the first call of every write is made, right after the calls of the writes before it |
| LcdHd44780.UncheckedDelivers | lcd_hd44780.c:393-402 | when no call fails, the error-ignoring writes deliver exactly their bytes, in order |
| LcdHd44780.CommandIgnored | lcd_hd44780.c:376-377 | the command write, its result ignored, then always the wait |
| LcdHd44780.Clear | lcd_hd44780.c:373-381 | command 0x01, then the wait whatever the write did; always Ok |
| LcdHd44780.Home | lcd_hd44780.c:383-391 | command 0x02, then the wait whatever the write did; always Ok |
| LcdHd44780.DataIgnored | lcd_hd44780.c:397 | one data write of the loop, its result ignored |
| LcdHd44780.WriteString | lcd_hd44780.c:393-402 | a data write for every byte before the NUL, each attempted whatever the earlier ones did; no wait; always Ok |
| Lcd16x04.Halves | components/lcd/lcd_16x04.c:3-16 | `lcd_set_command` and `lcd_set_char`: two bytes (HalvesSplit states their content) |
| Lcd16x04.HalvesSplit | components/lcd/lcd_16x04.c:3-16 | the halves carry the high nibble in place and the low nibble moved up, their low bits are clear, and `a[0] \| (a[1] >> 4)` is the byte |
| Lcd16x04.ByteWritesEach | components/lcd/lcd_16x04.c:27-30 | every byte goes out in a one-byte write of its own to `LCD_ADDRESS`, in order |
| Lcd16x04.ByteWritesWire | components/lcd/lcd_16x04.c:27-30 | the bytes that reach the expander are exactly the bytes sent |
| Lcd16x04.FramesDecode | components/lcd/lcd_16x04.c:17-47 | frames of any commands and characters, sent a byte at a time, are decoded as those commands and characters |
| Lcd16x04.SendBytes | components/lcd/lcd_16x04.c:27-30 | the loop: the four bytes in order, each in its own write, results ignored |
| Lcd16x04.CommandFrameFromHalves | components/lcd/lcd_16x04.c:19-26 | the bytes built from the halves are byte for byte the serial command frame of hd44780.c |
| Lcd16x04.DataFrameFromHalves | components/lcd/lcd_16x04.c:35-42 | the bytes built from the halves are byte for byte the serial data frame of hd44780.c |
| Lcd16x04.SendCommand | components/lcd/lcd_16x04.c:17-31 | the four bytes of the command frame, one write each |
| Lcd16x04.SendChar | components/lcd/lcd_16x04.c:33-47 | the four bytes of the data frame, one write each |
| Lcd16x04.SendStringStep | components/lcd/lcd_16x04.c:51-55 | one more character frame extends the string's calls |
| Lcd16x04.SendString | components/lcd/lcd_16x04.c:49-56 | one character frame for every byte before the NUL, in order |
| Lcd16x04.GotoCommand | components/lcd/lcd_16x04.c:66 | `0x80 \| X` or `0xC0 \| X` truncated to a byte is always a set-DDRAM-address instruction that keeps the column's low six bits; row 2 sets address bit 6 |
| Lcd16x04.GotoMatchesHd44780 | components/lcd/lcd_16x04.c:66 | for a column below 0x40, row `y` gets the same command hd44780.c writes for row `y - 1` |
| Lcd16x04.GotoWideColumnOverlaps | components/lcd/lcd_16x04.c:66 | column 0x40 of row 1 gives the same command as column 0 of row 2 |
| Lcd16x04.GotoXY | components/lcd/lcd_16x04.c:57-69 | no call for a row outside 1..2; otherwise the one command frame of the computed command |
| Lcd16x04.StepsWire | components/lcd/lcd_16x04.c:70-92 | the pauses are invisible on the wire: the init puts exactly the frames of its commands on the bus |
| Lcd16x04.CommandThenDelay | components/lcd/lcd_16x04.c:72-73 | one init step: the command frame, then the pause |
| Lcd16x04.InitSteps | components/lcd/lcd_16x04.c:70-92 | the `LCD_INIT` list: seven steps, each a command with its pause (InitCommands states the commands) |
| Lcd16x04.Init | components/lcd/lcd_16x04.c:70-92 | the seven steps, in order |
| Lcd16x04.StepsDeliver | components/lcd/lcd_16x04.c:70-92 | any steps are decoded as exactly their commands, in order |
| Lcd16x04.InitDelivers | components/lcd/lcd_16x04.c:70-92 | a controller behind the backpack decodes the init as exactly 0x33, 0x32, 0x28, 0x01, 0x06, 0x0C, 0x02 |
| Lcd16x04.InitCommands | components/lcd/lcd_16x04.c:72-90 | the init's commands are 0x33, 0x32, 0x28, 0x01, 0x06, 0x0C, 0x02 |

## Left out

- The FreeRTOS mutex (`mutex_lock`, `mutex_unlock`, `mutex_create`): every operation is atomic in the model.
- Tick arithmetic: a pause is a `Delay(ms)` event carrying the milliseconds the source divides by `portTICK_PERIOD_MS`.
- `hd44780_write_float`: it needs floating-point comparison and `%.*f` formatting.
- Memory: `calloc`/`free`, the failed-`calloc` path of both inits, the leaked `malloc` of `lcd_set_command` and `lcd_set_char`, and `hd44780_destroy` and the cleanup helpers. A handle is a freshly allocated object, and destroying it is not modelled.
- Logging (`STM_LOGE`, `printf("wrong rows\n")`): it has no effect on results.
- I2C and GPIO internals (`i2c_master_write_bytes`, `master_write_byte`, `gpio_config`, `gpio_set_level`, `gpio_get_level`) are foreign calls. Each is one trace event whose success and level come from the oracles. Pins are named by logical line (RS, RW, EN, D4..D7), not by their (port, num) pair.
- Bus addresses are recorded as passed. hd44780.c passes 0x27 << 1 to `i2c_master_write_bytes`, and lcd_16x04.c passes 0x27 to `master_write_byte`. The shift `master_write_byte` applies is in i2c_protocol.c, which is not part of this model.
- The bus number and the timeout of a bus write are not recorded: a `BusWrite` event holds the address and the bytes only, not the `hw_info.i2c_num` or the `TICK_DELAY_DEFAULT` that hd44780.c:168 and 231 pass. `HwInfo` keeps `i2cNum` and `i2cPinsPack` as the configuration record has them, but no event uses them.
- The 8-bit transport: the stubs `_init_mode_8bit`, `_write_cmd_8bit`, `_write_data_8bit` and `_read_8bit` make no call and succeed; `_init_mode_serial` likewise. No 8-bit bit layout is invented.
- Hd44780.WaitBusyFlag: the source polls forever (`while (1)`). The model stops after `pollBudget` rounds, a constant of the hardware, and reports whether the flag was seen clear. PollStopsAtFirstIdle and PollGivesUpWhileBusy state what happens within the budget.
- Hd44780.WaitBusyFlag: the initial content of the uninitialised `temp_val` is the hardware constant `stale`.
- Hd44780.WriteInt: requires `INT_MIN < n`, because `number *= -1` overflows for `INT_MIN` in C.
- Hd44780.WriteInt: the `sprintf` writes its terminating NUL one byte past `buf[num_digit]`. The model sends the `num_digit` printed digits and does not model the overrun.
- Hd44780.ShiftCursor: `step` is a `uint8_t` in the source, so the model requires `step < 0x100`.
- The poll's `_read = NULL` for serial mode is not modelled as a call: SerialHandleWaitsWithDelay shows that a serial handle never reaches the poll.
- LcdHd44780.Init: requires 4-bit mode. Its selectors fall off the end without a return value for any other mode, so only 4-bit mode has defined behaviour; the serial RW override therefore never applies. The missing null check means a null configuration is outside the model.
- LcdHd44780.Clear, LcdHd44780.Home, LcdHd44780.WriteString: a null handle is outside the model, as the source dereferences it without a check.
- LcdHd44780.Wait: the busy-poll reads with the corrected status read (accumulators starting at zero), not with the uninitialised accumulators of lcd_hd44780.c; see Findings.
- Hd44780.WriteString, LcdHd44780.WriteString, Lcd16x04.SendString: require a NUL within the array, as a C string has one.

## Findings

| source | as written | input that shows it | evidently intended | confidence | as-written member | corrected member |
|---|---|---|---|---|---|---|
| lcd_hd44780.c:185 | `uint8_t nibble_h, nibble_l;` are never initialised before the read ORs the sampled levels into them, so the status byte includes whatever the stack held | stale `nibble_h` = 0x08 with every data line reading low (an idle controller): the byte is 0x80, the busy flag reads set, and `_wait_with_pinrw` never leaves its loop | both accumulators start at zero, as in hd44780.c:240, so the byte is exactly the two sampled nibbles and bit 7 is D7 of the high phase | not executed | Transport.ReadInto, LcdHd44780.StaleAccumulatorCounterexample | Transport.Read4Bit, Transport.BusyFlagIsHighD7 |
