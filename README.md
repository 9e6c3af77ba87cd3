# Clock module core model

A Dafny model of the generation engine of an eight-channel Eurorack clock and
CV module running on an 8-bit AVR. The module counts PPQN ticks (192 per
quarter note) in a timer interrupt. Each of its eight output channels holds one
pending event: a gate opening, a gate closing, or a PWM step for the analog
channels. A channel plays one of seven output types:

- a plain gate clock;
- a Euclidean rhythm;
- random triggers;
- a rising or falling saw;
- a sine;
- stepped random voltages.

A rotary encoder with a button edits the BPM, the swing and one channel's
settings at a time. An edit is staged in shadow `edit*` fields. It is applied
at once when the clock is stopped, or on the next bar boundary while it runs.

The model is imperative where the firmware is. `Output` and `CmModel` become
Dafny classes with the fields the core uses, and their methods update them in
place. The interrupt handler of `CmHardware` becomes methods on the model.

| module | file | models |
|---|---|---|
| `Resources` | `resources.dfy` | The constants, the note-length table `CLOCK_LENGTH_TO_PPQN` and the enums of `Resources.h`. |
| `Bits` | `bits.dfy` | The 16-bit patterns the firmware keeps in a signed `int`: bit tests, `s \| (1 << b)`, the arithmetic shift, `uint8_t` and `unsigned` truncation. |
| `Outputs` | `outputs.dfy` | The class `Output` of `Output.cpp`, and the pure definitions its methods are proved against. Those include the Euclidean and random-trigger patterns, the gate times, the saw ramp and the rescheduling of a reset channel. |
| `CmModel` | `cmmodel.dfy` | The class `Model` of `CmModel.cpp`: the default channels, the swing table, the editor state machine (`handleButton`, `handleButtonLongPress`, `handleRotary`), and the output and swing commits. |
| `Hardware` | `hardware.dfy` | The body of `ISR(TIMER1_COMPA_vect)` as one atomic `Tick`. The counter advances and wraps, pending commits apply on a bar boundary, and every due channel is dispatched on its event. |

Conventions:
- **Integer widths.** The AVR `int` and `unsigned int` are 16 bits wide. Every
  scheduled time is therefore the sum truncated to 16 bits (`Bits.Wrap16`),
  then folded below `INTERRUPT_COUNTER_LIMIT` by `handleEventTimeOverflow`.
  The `uint8_t` fields wrap with `Bits.Byte`, so the firmware's tests for 255
  after a step below 0 are reproduced.
- **Patterns.** `sequence` and `sequenceB` are 16-bit patterns (`uint16`).
- **Inputs the model cannot compute.** Each call of `random(n)` becomes a
  supplied draw with its range, `0 <= r < n`. The SINE level computed with
  `cos()` becomes a supplied byte.
- **Channel state.** `Output.Settings()` and `Output.State()` are ghost views
  of a channel's fields. The specification predicates relate those views
  before and after a call: `Restarted`, `Scheduled`, `Rescheduled`,
  `GateDecided`, `PwmStepped`, `GateClosed`, `GateOpened`, `Dispatched` and
  `TickedChannel`.

A tick runs in a fixed order:
- **Order of a tick.** The interrupt first increments the counter
  (CmHardware.cpp:312-313), then applies the commits (CmHardware.cpp:318-325),
  then dispatches the channels (CmHardware.cpp:330-365).
- **Commit time.** A commit therefore sees the incremented counter, and the
  committed channel is rescheduled from it.

Two behaviours are modelled as the code has them and are not claimed as defects:
- **Trigger preview probability.** The trigger previews of the editor are drawn with the channel's live probability, not the one being edited (`CmModel.TriggerRowEdited`).
- **Swingable gate times.** These lack the one-tick correction of the default gate times, and the swung half of a pair subtracts the swing s from the open time in unsigned 16-bit arithmetic (Output.cpp:203). With no swing, a clock below 1/16 dotted whose gate is as long as the clock has open time 0. Its GATE_OPEN then falls on the tick being dispatched and is seen again only after the counter wraps. When s exceeds the open time, `Outputs.SwungOpenBehind` gives the swung GATE_OPEN scheduled at tick t in two cases. If s <= t + open, it lands s - open ticks behind t and is reached only after the counter wraps, 49152 - (s - open) ticks later. If t + open < s, the 16-bit difference wraps below 0 and one fold leaves 16384 + t + open - s. That time is ahead of t and is reached 16384 + open - s ticks later, with no wrap. An instance of the first case is a 1/16 clock with a 1/32 gate at swing 30: the open time is 24 and the swung GATE_OPEN lands 6 ticks back, so the channel waits 49146 ticks (`CmModel.SwingOutgrowsOpenTime`). While the swing is no longer than the open time, a swung pair of periods spans exactly two clocks (`Outputs.SwungPairSpansTwoClocks`).

## Model

| member | source | states |
|---|---|---|
| `Resources.NoteTicks` | Resources.h:94-122 | Every entry of the note-length table is below the wrap limit and at most 24 quarter notes. Entry `NO_CLOCK` is 0, and every reachable clock length 1..21 is at least 3 ticks. |
| `Resources.TableFacts` | Resources.h:94-122 | The table has 26 entries, so every index up to `NUM_CLOCKS` (21) is in bounds. Entry 0 is 0, and all entries lie below `INTERRUPT_COUNTER_LIMIT`. |
| `Resources.TableIncreasesUpTo6x1` | Resources.h:95-113 | Entries 1 to 18 strictly increase, from 3 up to 4608. |
| `Resources.LongClocksAsWritten` | Resources.h:114-116 | Entries 19 to 21 are 6, 18 and 3, as the reversed shifts make them, so the reachable table is not monotone. |
| `Resources.TimingConstants` | Resources.h:67-70 | The wrap limit is 49152 and a bar is 768 ticks. A bar divides the limit, and 2^16 lies between the limit and twice the limit. |
| `Bits.SetBit` | Output.cpp:343 | `s \| (1 << b)` sets bit b and leaves every other bit as it was. A position outside [0,16) adds nothing. |
| `Outputs.HandleEventTimeOverflow` | Output.cpp:215-223 | The result is below the limit and congruent to t modulo the limit. A t already below the limit is returned unchanged, so the function is idempotent. |
| `Outputs.ScheduleAt` | Output.cpp:163-172 | A scheduled sum, truncated to 16 bits and folded, is below the limit. For in-range sums it is the sum modulo the limit. |
| `Outputs.ScheduleAhead` | Output.cpp:215-223 | Scheduling d ticks ahead (1 <= d <= 2^16 - limit) from a counter below the limit lands on (now + d) mod limit, never on now. |
| `Outputs.DefaultGateTimes` | Output.cpp:299-307 | If the gate is shorter than the clock, the gate closes after its length and opens after the rest. If they are equal, the close time is one tick short and the open time is 1. Whenever gate <= clock, open + close is the clock exactly and open is at least 1. A longer gate makes the open time wrap as a 16-bit `unsigned`. |
| `Outputs.SwingableGateTimes` | Output.cpp:309-313 | The close time is the gate length, open + close is the clock length when gate <= clock, and the open time wraps when the gate is longer. There is no one-tick correction here. |
| `Outputs.SwingAlternates` | Output.cpp:201-209 | The offset identity only: the offsets of two consecutive swung periods cancel, and the first period after a reset (`swinging` false) is pushed later by the swing. |
| `Outputs.SwungPairSpansTwoClocks` | Output.cpp:201-209 | While the swing is no longer than the open time, the GATE_OPEN times after a reset at t are the folded t + open + swing, then t + clock + open, then the first plus two clocks: a swung pair spans exactly two clocks. |
| `Outputs.ScheduleWithin16Bits` | Output.cpp:215-222 | Below 2^16 the scheduled time is handleEventTimeOverflow of the sum itself, at most one subtraction of the limit. |
| `Outputs.SwungOpenBehind` | Output.cpp:201-204 | For a swing s longer than the open time, scheduled at tick t: when s <= t + open the swung GATE_OPEN lands s - open ticks behind t and is reached only after the counter wraps; when t + open < s the unsigned 16-bit difference wraps and one fold puts it at 16384 + t + open - s, ahead of t. |
| `Outputs.EuclideanNextIndex` | Output.cpp:353-357 | The Euclidean reader steps down one position and wraps from 0 to `sequenceLength - 1`, so an index inside the pattern stays inside. |
| `Outputs.AdvanceIndex` | Output.cpp:486-490 | The trigger and voltage reader steps up one position and wraps to 0 at the length, so the index stays below a positive length. |
| `Outputs.EuclideanStepMod` | Output.cpp:353-357 | One step of the Euclidean reader is a subtraction of 1 modulo the length. |
| `Outputs.AdvanceStepMod` | Output.cpp:486-490 | One step of the trigger reader is an addition of 1 modulo the length. |
| `Outputs.EuclideanWalk` | Output.cpp:353-357 | After m Euclidean steps, the reader is at (idx - m) mod length. |
| `Outputs.AdvanceWalk` | Output.cpp:486-490 | After m trigger steps, the reader is at (idx + m) mod length. |
| `Outputs.EuclideanStartIndex` | Output.cpp:397 | The corrected start index lies inside the pattern. It is the position one reader step after the top bit, which the firmware's comment says is already played. |
| `Outputs.EuclideanStartIndexAsWrittenDiffers` | Output.cpp:397 | The firmware's `sequenceLength - 2` agrees with the corrected index for every length of at least 2. For length 1 it gives 255, outside the pattern, and the reader then walks on to 254. For length 0 it gives 254 where the corrected index is 0. |
| `Outputs.LengthOneStaysSilent` | Output.cpp:349-358 | As written, a length-1 channel with the pattern 1 reads indices 255 down to 1 on its first 255 gates, all of them closed, and the pulse at index 0 only on gate 255. |
| `Outputs.NumeratorIsProduct` | Output.cpp:337-344 | The accumulated Bresenham numerator after i steps is i * n, so pulse i sits at `ceil(i*n/k)`. |
| `Outputs.EuclideanPositions` | Output.cpp:339-345 | For 1 <= k <= n, the first pulse lands on bit n-1. Every pulse lands on a bit in [0, n-1], and each pulse lands strictly below the one before. |
| `Outputs.EuclideanPatternBits` | Output.cpp:339-345 | After i pulses, all set bits lie between the lowest pulse so far and n. |
| `Outputs.EuclideanPatternStep` | Output.cpp:341-343 | Each pulse lands on a bit that is still clear, so the OR adds a new bit. |
| `Outputs.EuclideanTopBit` | Output.cpp:339-345 | Once at least one pulse is placed, bit n-1 (step 0) is set. |
| `Outputs.EuclideanPatternCount` | Output.cpp:339-345 | The pattern after i pulses has exactly i bits set. |
| `Outputs.EuclideanPatternHits` | Output.cpp:339-345 | A bit is set exactly when one of the pulses placed so far lands on it (both directions). |
| `Outputs.EuclideanPatternIs` | Output.cpp:334-347 | A 16-bit value whose set bits are exactly the k pulse positions is the generated pattern. |
| `Outputs.GenerateEuclideanRhythm` | Output.cpp:334-347 | The loop returns the pattern of all k pulses. For 1 <= k <= n <= 16 that pattern has exactly k bits set, all below bit n, and bit n-1 among them. |
| `Outputs.EuclideanPatternShape` | Output.cpp:334-347 | For 1 <= k <= n <= 16, the full pattern has exactly k bits, all of them below n, with bit n-1 set. |
| `Outputs.TriggerPatternBits` | Output.cpp:461-466 | Bit j of the trigger pattern after i draws is set exactly when j < i, j < 16, and draw j fell below the probability. |
| `Outputs.TriggerPatternNever` | Output.cpp:463 | Probability 0 gives the empty pattern. |
| `Outputs.TriggerPatternAlways` | Output.cpp:463 | Probability 100 or more sets all `min(len, 16)` low bits, because every draw lies in [0,100). |
| `Outputs.GenerateRandomTriggerSequence` | Output.cpp:457-468 | The loop returns the trigger pattern, so a bit is set exactly when it is below the length and its draw was below p. p = 0 gives 0, and p >= 100 gives all the low bits. |
| `Outputs.SawLevelIs` | Output.cpp:253-264 | The saw level is `floor(255*x/G)` and the inverted saw level is `255 - floor(255*x/G)`, where x is the tick count. x falls back to 0 once it passes the gate length G. |
| `Outputs.SawMapFloor` | Output.cpp:259-261 | Arduino's `map` onto [0,255] or [255,0], with C's truncating division, is that floor formula for 0 <= x <= G. |
| `Outputs.SawRamp` | Output.cpp:253-264 | The saw rises monotonically from 0 to 255 over the gate, and the inverted saw falls from 255 to 0. Past the gate they read 0 and 255. |
| `Outputs.FirstEventAhead` | CmModel.cpp:130-147 | The first event after a reset comes between 1 tick and 24 quarter notes plus 6 ticks later, so it is never scheduled on the current tick. |
| `Outputs.RescheduledTwice` | CmModel.cpp:116-148 | Two resets on the same tick with unchanged settings and the same level are one reset. |
| `Outputs.RescheduledAhead` | CmModel.cpp:116-148 | A reset channel has exactly one pending event, and its event time is the delay ahead modulo the limit, never the current tick. |
| `Outputs.Output.constructor` | Output.cpp:12-41 | The fields of `Output(p, a)`: no output, no clock, probability 100, dOut high, gate open, and no event. |
| `Outputs.Output.Reset` | Output.cpp:48-77 | (corrected, see Findings) No event at time 0, and the playback state `Restarted`. Restarted means: the gate is open and the swing phase cleared; a Euclidean index starts at its start index; PWM types restart the counter and index and take their first level (the pattern's low byte, or a draw plus 1 for a voltage channel); dOut is high exactly for an undelayed gate type. |
| `Outputs.Output.RestartPwm` | Output.cpp:63-75 | The PWM branch of reset: counter, dOut and index are cleared, and the level restarts. |
| `Outputs.Output.SetOutputType` | Output.cpp:82-107 | The type is set and pwmOut cleared. dOut drops for the PWM types and is otherwise kept. |
| `Outputs.Output.SetClockLength` | Output.cpp:112-115 | The clock length is set. |
| `Outputs.Output.SetGateLength` | Output.cpp:120-134 | Euclidean and trigger channels get the shortest gate, 1/256, and the others get the given one. PWM types restart their sub-counter. |
| `Outputs.Output.SetStartDelayLength` | Output.cpp:139-146 | The delay is set, and dOut is high exactly when there is no delay. |
| `Outputs.Output.SetEuclideanSteps` | Output.cpp:325-328 | The step count is set. |
| `Outputs.Output.SetRandomTriggerProbability` | Output.cpp:452-455 | The probability is set. |
| `Outputs.Output.SetSequence` | Output.cpp:431-434 | The pattern is set. |
| `Outputs.Output.SetSequences` | Output.cpp:436-440 | Both pattern halves are set. |
| `Outputs.Output.SetSequenceLength` | Output.cpp:442-445 | The length is set. |
| `Outputs.Output.SetEvent` | Output.cpp:157-161 | The pending event and its time are set. |
| `Outputs.Output.SetDelayedEvent` | Output.cpp:163-167 | The event comes after the start delay, wrapped below the limit, which is (t + delay) mod limit for t below the limit. |
| `Outputs.Output.SetGateCloseEvent` | Output.cpp:169-172 | GATE_CLOSE comes t_gateClose ticks after t, wrapped below the limit. |
| `Outputs.Output.HandleEuclideanGate` | Output.cpp:349-358 | The gate is bit `sequenceIndex` of the pattern, with an arithmetic shift past bit 15. The index then steps down with wrap, and an index inside the pattern stays inside. |
| `Outputs.Output.HandleRandomTriggersGate` | Output.cpp:470-492 | With no pattern, the gate is the coin `draw < p` and the index is kept. Otherwise the gate is bit idx of `sequence` for idx < 16 and bit idx-16 of `sequenceB` beyond; the index then advances with wrap and stays below the length. |
| `Outputs.Output.SetGateOpenEvent` | Output.cpp:174-187 | The next gate is decided (`GateDecided`), and GATE_OPEN comes t_gateOpen ticks after t. |
| `Outputs.Output.SetSwingGateOpenEvent` | Output.cpp:189-210 | The gate is decided as above. GATE_OPEN comes at t + t_gateOpen + swing when not swinging and at t + t_gateOpen - swing when swinging, after which the phase flips. |
| `Outputs.Output.SetPwmEvent` | Output.cpp:228-231 | PWM_EVENT is pending at the folded time. |
| `Outputs.Output.HandlePwmEvent` | Output.cpp:233-288 | The counter advances, and restarts at 0 exactly when the ticks covered reach the clock length minus 1 (`PwmCounterAfter`). The level steps as `LevelStepped` says for the ticks covered: saw ramp, voltage step, or the supplied sine level. |
| `Outputs.Output.LevelStep` | Output.cpp:242-282 | The type dispatch of handlePwmEvent satisfies `LevelStepped` for the same ticks. |
| `Outputs.Output.SawStep` | Output.cpp:253-264 | pwmOut is the saw (or inverted saw) level for the ticks covered and the gate length. |
| `Outputs.Output.VoltageStep` | Output.cpp:265-282 | Before a clock length is covered, nothing changes. After it, a channel without a pattern takes a draw plus 1 and keeps its index. A channel with a pattern advances its index with wrap, stays inside the pattern, and outputs the byte `sequence >> index & 0xFF`. |
| `Outputs.Output.SetDefaultGateTimes` | Output.cpp:299-307 | The gate times are `DefaultGateTimes` of the clock and gate lengths. |
| `Outputs.Output.SetDefaultGateTimesForSwingable` | Output.cpp:309-313 | The gate times are `SwingableGateTimes` of the clock and gate lengths. |
| `Outputs.Output.GenerateSequence` | Output.cpp:365-400 | (corrected, see Findings) It depends on the output type. A voltage channel caps the length at 32, and a positive length draws a fresh pattern and outputs its byte at the old index, while length 0 outputs a draw plus 1. A trigger channel's two halves are fresh trigger patterns, or 0 for length 0. A Euclidean channel gets the full Euclidean pattern and the start index. Other types change only the length. |
| `Outputs.Output.GenerateTemporarySequence` | Output.cpp:402-424 | A voltage preview is the draw, or 0 for length 0. A trigger preview is the trigger pattern of at most 16 steps, with no bit at or above the length. Other types give 0. |
| `Outputs.Output.GenerateTemporaryEuclideanSequence` | Output.cpp:426-429 | The preview is the Euclidean pattern. For 1 <= k <= n <= 16 it has k bits, including bit n-1. |
| `CmModel.StepBpm` | CmModel.cpp:453-459 | The BPM stays in [30, 200]. From inside that range, a step is `bpm + m` clamped to it. |
| `CmModel.StepUpTo` | CmModel.cpp:464-470 | The swing (and the shared step shape) stays in [0, hi]. From inside, a step is clamped, so a decrement from 0 stays at 0. |
| `CmModel.StepPositive` | CmModel.cpp:298-302 | The clock, gate, Euclidean length and steps stay in [1, hi]. From inside, a step is clamped to [1, hi]. |
| `CmModel.StepType` | CmModel.cpp:283-293 | The type stays in [1, 7], and in [1, 3] on channels 0 to 3. From inside, a step is clamped. |
| `CmModel.StepProbability` | CmModel.cpp:347-353 | The trigger probability stays in [0, 100] and steps by 5, clamped. |
| `CmModel.StepTriggerLength` | CmModel.cpp:354-360 | The trigger length stays at most 32 and is never 1. From [2,32], a step is clamped. From 0 it goes to 2 or 32. |
| `CmModel.StepVoltageLength` | CmModel.cpp:370-376 | The voltage length steps within [0, 32], clamped. |
| `CmModel.SwingTableShape` | CmModel.cpp:89-106 | Swing 0 gives six zeros. Any other swing s gives entries in [1, s], non-decreasing, with entry 5 equal to s. |
| `CmModel.SwingOutgrowsOpenTime` | Output.cpp:201-204 | As written: a 1/16 clock with a 1/32 gate opens for 24 ticks while swing 30 gives that clock an offset of 30, so the swung GATE_OPEN is scheduled 6 ticks before the tick that schedules it and is reached only 49146 ticks later. |
| `CmModel.RescheduledKeepsValid` | CmModel.cpp:116-148 | A reset channel with valid settings has one pending event below the limit, and its readers inside its pattern. |
| `CmModel.CommitMirrorKeepsSettings` | CmModel.cpp:408-445 | Committing an untouched edit (a full copy of the settings) leaves the channel's settings as they were. |
| `CmModel.StalePreviewCommitDiffers` | CmModel.cpp:266-277 | With the firmware's prepare, an untouched Euclidean edit whose stale editSequence differs commits that stale pattern. |
| `CmModel.CommitKeepsValid` | CmModel.cpp:408-445 | A commit of an edit within range keeps the settings valid for the channel, and the edit fields stay within range. |
| `CmModel.MirrorInRange` | CmModel.cpp:266-277 | The copy of valid settings, corrected or stale, is an edit within range. |
| `CmModel.ValueChangedInRange` | CmModel.cpp:279-403 | Every encoder step on the settings page keeps the edit within range, and only row 0 changes the type. A voltage channel's gate follows a clock edit. Euclidean and trigger previews match the edited parameters. A trigger length edit never gives 1. Rows 4 and above change no timing field. |
| `CmModel.DefaultSettingsValid` | CmModel.cpp:28-87 | Every default channel has settings the editor could have produced. |
| `CmModel.DefaultRhythm8` | CmModel.cpp:64-69 | Channel 4's default rhythm, 5 pulses over 8 steps, is 0xAD. |
| `CmModel.DefaultRhythm11` | CmModel.cpp:71-76 | Channel 5's default rhythm, 5 pulses over 11 steps, is 0x4AA. |
| `CmModel.BootVisitWipesEuclideanPattern` | CmModel.cpp:266-277 | Leaving channel 4's page after power-up without turning the encoder commits pattern 0 over 0xAD with the firmware's prepare. It commits the settings unchanged with the corrected one. |
| `CmModel.ListRowStepped` | CmModel.cpp:246-252 | The list row stays in [0, 7] and steps clamped. |
| `CmModel.PressTogglesBpmSwing` | CmModel.cpp:163-171 | A press flips between BPM and swing, and a second press restores the editor. |
| `CmModel.PressWhilePendingIgnored` | CmModel.cpp:173-177 | In the list, a press while a commit is pending changes nothing. |
| `CmModel.UntouchedVisitKeepsSettings` | CmModel.cpp:173-194 | Open a list row, press through its 3 rows (voltage) or 4 rows, and leave with the clock stopped. The commit then writes the settings unchanged, the list is back on that row, and nothing is pending. |
| `CmModel.LeavingWhileRunningDefers` | CmModel.cpp:183-194 | Leaving the page with the clock running marks the edit pending and commits nothing. With the clock stopped, leaving commits at once. |
| `CmModel.LongPressBacksUp` | CmModel.cpp:215-224 | A long press on row 0 cancels the edit back to the list on that channel, uncommitted. A long press on a later row goes back one row. |
| `CmModel.NewOutputs` | CmModel.cpp:6-16 | Eight fresh, distinct channels with empty patterns. |
| `CmModel.Model.constructor` | CmModel.cpp:6-16 | The model starts with eight fresh channels, the counter at 0, the clock stopped and no pending commit. |
| `CmModel.Model.Initialize` | CmModel.cpp:18-26 | Default BPM and swing, the BPM page shown, and the model invariant established. Every channel has its default settings and is rescheduled from its post-setup state: gate open, swing phase cleared, start index, first level, dOut, and its first event scheduled from the counter. |
| `CmModel.Model.StartDefaultOutputs` | CmModel.cpp:23-24 | After the setup and the reset, every channel is valid, with its default settings, and is rescheduled from its post-setup state (`Rescheduled`: restarted, and its first event scheduled from the counter). |
| `CmModel.Model.SetupDefaultOutputs` | CmModel.cpp:28-87 | Every channel ends with `DefaultSettings(i)`. |
| `CmModel.Model.SetupCommonDefaults` | CmModel.cpp:31-41 | The loop gives every channel the base settings: a gate clock on quarter notes with a 1/32 gate. |
| `CmModel.Model.SetupBase` | CmModel.cpp:33-40 | One pass of that loop gives a channel the base settings and keeps it valid, with its patterns empty. |
| `CmModel.Model.SetupBaseParameters` | CmModel.cpp:34-39 | The six setters leave a valid channel whose settings are the base ones except for its patterns and its length, which are untouched. |
| `CmModel.Model.SetupClockDefaults` | CmModel.cpp:47-62 | Channels 0 to 3 get their defaults. |
| `CmModel.Model.SetupAnalogDefaults` | CmModel.cpp:64-86 | Channels 4 to 7 get their defaults. |
| `CmModel.Model.SetupChannelDefault` | CmModel.cpp:47-86 | Channel k goes from the base settings to its default. |
| `CmModel.Model.SetupChannel` | CmModel.cpp:47-49 | Type, clock and gate set. Pattern types get the 1/256 gate. |
| `CmModel.Model.SetupDelayed` | CmModel.cpp:51-54 | Channel 1's delayed clock. |
| `CmModel.Model.SetupPattern` | CmModel.cpp:64-69 | A Euclidean default with the generated `steps`-over-`len` pattern. |
| `CmModel.Model.SetupVoltage` | CmModel.cpp:78-82 | The voltage default with a drawn pattern. |
| `CmModel.Model.UpdateSwingTable` | CmModel.cpp:89-106 | The array holds `SwingTable(swing)` (see `SwingTableShape`). |
| `CmModel.Model.ResetOutput` | CmModel.cpp:116-148 | The channel keeps its settings and is `Rescheduled` at the counter: restarted, with gate times for its clock, and one event ahead. The event is GATE_CLOSE, PWM_EVENT at +1, GATE_OPEN after the delay, or PWM_EVENT after 6 plus the delay. |
| `CmModel.Model.RestartOutput` | CmModel.cpp:119-128 | Restarted, with the swingable gate times below CLOCK_1x16D and the default ones otherwise. |
| `CmModel.Model.ScheduleFirstEvent` | CmModel.cpp:130-147 | The pending event is `FirstEvent` at `FirstEventDelay` past the counter. |
| `CmModel.Model.ResetOutputs` | CmModel.cpp:108-114 | Every channel is rescheduled with its settings kept, and valid channels stay valid. |
| `CmModel.Model.ClockStopped` | CmModel.cpp:150-154 | The counter goes back to 0, every channel is rescheduled from 0, and the invariant is kept. |
| `CmModel.Model.HandleButton` | CmModel.cpp:156-197 | (corrected, see Findings) The editor moves as `Pressed` says. A press that leaves the page with the clock stopped commits the edit into the edited channel and reschedules it. Every other press leaves that channel untouched. |
| `CmModel.Model.SwitchParameter` | CmModel.cpp:163-171 | BPM and swing exchange places as `Pressed` says. |
| `CmModel.Model.ListButton` | CmModel.cpp:173-181 | (corrected, see Findings) The list press opens the page unless a commit is pending. |
| `CmModel.Model.NextSettingsRow` | CmModel.cpp:183-195 | The next row, or past the last row leave the page, with the same commit contract as HandleButton. |
| `CmModel.Model.OpenSettings` | CmModel.cpp:178-180 | (corrected, see Findings) The page opens on row 0 of the selected channel, with a full copy of its settings. |
| `CmModel.Model.LeaveSettings` | CmModel.cpp:185-194 | Back to the list on the edited channel. While running, the edit becomes pending and the channel is untouched. When stopped, it commits and reschedules now. |
| `CmModel.Model.HandleButtonLongPress` | CmModel.cpp:199-229 | The editor moves as `LongPressed` says. |
| `CmModel.Model.HandleRotary` | CmModel.cpp:231-258 | Exactly one of BPM, swing, list row or edit steps, by mode. A swing step with the clock stopped reschedules every channel, and every other step leaves all channel states untouched. Outside swing mode the pending swing commit is untouched. |
| `CmModel.Model.RotaryParameter` | CmModel.cpp:238-244 | The BPM and swing cases of HandleRotary: the BPM or the swing steps within its bounds, the swing change is queued while the clock runs and rescheduled at once while it is stopped, and the channel states stay put otherwise. A BPM step leaves the pending swing commit untouched. |
| `CmModel.Model.RotaryEditor` | CmModel.cpp:246-256 | The list and settings cases of HandleRotary: the list row steps within [0, 7], or the edited value steps as `ValueChanged` says, and the invariant is kept. |
| `CmModel.Model.BpmChange` | CmModel.cpp:453-462 | The BPM is `StepBpm`. |
| `CmModel.Model.SwingChange` | CmModel.cpp:464-475 | The swing steps and the table follows. The flag ends set exactly while the clock runs. With the clock stopped, every channel is rescheduled, and while it runs none is touched. |
| `CmModel.Model.CommitSwingChange` | CmModel.cpp:477-482 | The flag is cleared and every channel rescheduled. |
| `CmModel.Model.OutputSettingsValueChange` | CmModel.cpp:279-319 | The edit becomes `ValueChanged`: the common rows, then the edited type's rows. The invariant is kept. |
| `CmModel.Model.StepEditedRow` | CmModel.cpp:279-319 | The edit fields become `ValueChanged` of the old ones and stay within the ranges of the edited channel. |
| `CmModel.Model.CommonRowChange` | CmModel.cpp:281-309 | Rows 0 and 1: the type and clock steps. |
| `CmModel.Model.TypeRowsChange` | CmModel.cpp:311-318 | The dispatch on the edited type. |
| `CmModel.Model.ValueChangeEuclidean` | CmModel.cpp:321-341 | Length or steps step within [1, 32], and the preview is the new Euclidean pattern. |
| `CmModel.Model.ValueChangeRandomTriggers` | CmModel.cpp:343-364 | Probability or length steps, and both halves are redrawn with the channel's live probability. |
| `CmModel.Model.ValueChangeVoltage` | CmModel.cpp:366-379 | The length steps within [0, 32], and the preview is redrawn, or 0 for length 0. |
| `CmModel.Model.ValueChangeGateSineSaw` | CmModel.cpp:381-403 | The gate steps within [1, 21], and the delay within [0, 21]. |
| `CmModel.Model.PrepareOutputSettingsChange` | CmModel.cpp:266-277 | The corrected prepare: the edit is a full copy of the selected channel's settings, patterns included, on row 0. |
| `CmModel.Model.PrepareOutputSettingsChangeAsWritten` | CmModel.cpp:266-277 | The firmware's prepare: every field is copied except editSequence and editSequenceB, which keep their old values. |
| `CmModel.Model.CommitOutputSettingsChange` | CmModel.cpp:408-445 | The flag is cleared, pattern channels get the 1/128 edit gate, and the channel gets `CommittedSettings`. The channel is rescheduled at the counter, and the invariant is kept. |
| `CmModel.Model.CommitInto` | CmModel.cpp:416-443 | The settings are written and the channel reset. It stays valid. |
| `CmModel.Model.WriteSettings` | CmModel.cpp:421-441 | The setter calls produce `CommittedSettings`. The delay is skipped for voltage. Steps, probability and patterns are written only for the types that use them. |
| `Hardware.NextCounter` | CmHardware.cpp:312-313 | The counter goes up by 1 modulo the limit and always stays below it. |
| `Hardware.NextCounterAtBar` | CmHardware.cpp:312-318 | The wrap keeps bar boundaries: the wrapped counter starts a bar exactly when the unwrapped count does. |
| `Hardware.DispatchKeepsValid` | CmHardware.cpp:338-363 | A dispatch keeps a channel valid. |
| `Hardware.DispatchOutput` | CmHardware.cpp:338-363 | A due channel is `Dispatched` on its pending event, and its settings and gate times never change. |
| `Hardware.CloseGate` | CmHardware.cpp:341-351 | GATE_CLOSE drops dOut and pwmOut and decides the next gate. GATE_OPEN then comes t_gateOpen later, swung by `swingTable[clockLength]` with the phase flipped for clock lengths below 6. |
| `Hardware.OpenGate` | CmHardware.cpp:352-357 | GATE_OPEN raises dOut only when the gate was decided open, drops pwmOut, and schedules GATE_CLOSE at the counter plus t_gateClose. |
| `Hardware.StepPwm` | CmHardware.cpp:358-362 | PWM_EVENT steps the level (`PwmStepped`) and comes back 6 ticks later. |
| `Hardware.DispatchOutputs` | CmHardware.cpp:330-365 | Each channel is dispatched when its event time equals the counter. All other channels are left exactly as they were. |
| `Hardware.Tick` | CmHardware.cpp:259-366 | With the clock stopped, nothing changes. While it runs: the counter advances with wrap; an output commit applies exactly when one was pending and the new counter starts a bar, and stays pending otherwise; the same holds for the swing commit; then exactly the due channels are dispatched. |
| `Hardware.RunningTick` | CmHardware.cpp:312-365 | The running half of Tick: increment, commits, dispatch. |
| `Hardware.CommitsAtBar` | CmHardware.cpp:318-325 | The output commit and then the swing commit, each applied exactly when it was pending and the counter starts a bar. |
| `Hardware.OutputCommitAtBar` | CmHardware.cpp:318-321 | The output commit applies on a bar boundary only. The committed channel is rescheduled from the counter, and no other channel changes. |
| `Hardware.SwingCommitAtBar` | CmHardware.cpp:322-325 | The swing commit on a bar boundary reschedules every channel with its settings kept. |
| `Hardware.DefaultChannelZeroTimeline` | CmHardware.cpp:341-357 | Channel 0's default, a 1/4 clock with a 1/8 gate, reset at 0, closes at 96, opens again at 192 with dOut low before, and closes at 288 with dOut high. |

## Left out

- The display (`CmView`), the view flags `viewChanged`, `typeChanged` and `renderView`, and `printFreeMem`. They affect only what is shown.
- `updateOCR1A_limit`, the bpm timer and the rest of `CmHardware` outside the interrupt. That is double arithmetic for the timer period and the main loop's input handling; `BpmChange` models the clamp only.
- The port writes, `analogWrite` and the debug prints inside the interrupt and in `reset`. They are output I/O; dOut and pwmOut stand for what they write.
- Concurrency between the interrupt and the main loop (`volatile` fields). A tick is one atomic step, and each foreground handler is a separate method.
- Outputs.Output.LevelStep: the SINE branch takes its level as a parameter, because it is computed with `cos()` in floating point.
- `random()` and `randomSeed`. Each draw is a parameter with its range (`coin < 100`, `level < 255`, `word < MAX_LONG`, `rolls[i] < 100`).
- Outputs.GenerateEuclideanRhythm: the accumulated double `slope` is replaced by the exact integer `ceil(i*n/k)`. The properties are stated for 1 <= k <= n <= 16.
- Shifts of a 16-bit `int` by 16 or more, which C leaves undefined. The model lets them repeat the sign bit, as the AVR's arithmetic shift continues, and a `1 << b` outside [0,16) sets nothing.
- The signed overflow of `interruptCounter` above 32767. Time is a natural number kept below the wrap limit.
- The uninitialised loop variable of `setupDefaultOutputs`; the loop starts at 0.
- The preview of `generateTemporarySequence` takes no trigger draws in the voltage branch and no word in the trigger branch. Unused draws are not parameters there.
- `getInstance` and the singleton plumbing, which hold no logic.

## Findings

| source | as written | input that shows it | evidently intended | confidence | as-written member | corrected member |
|---|---|---|---|---|---|---|
| Output.cpp:397 | `sequenceIndex = sequenceLength - 2` in `uint8_t`, also at Output.cpp:54 | A Euclidean channel of length 1 starts its reader at 255, outside the pattern, and stays silent for 255 gates before its one pulse at index 0 (`Outputs.LengthOneStaysSilent`). A length 0, which the editor can commit, starts the reader at 254 where the corrected index is 0. | start one reader step after the top bit, that is position n-2 modulo n for n >= 1, and 0 for n = 0 | not executed | `Outputs.EuclideanStartIndexAsWrittenDiffers` | `Outputs.EuclideanStartIndex` |
| CmModel.cpp:266-277 | `prepareOutputSettingsChange` copies every setting except `sequence` and `sequenceB` into the edit fields | After power-up, open channel 4's page and press through it without turning the encoder. The commit writes editSequence 0 over the rhythm 0xAD. | the edit starts from a full copy, so an untouched visit commits the settings unchanged | not executed | `CmModel.BootVisitWipesEuclideanPattern` | `CmModel.Model.PrepareOutputSettingsChange` |

The first row is about the reader's start index. `Outputs.EuclideanStartIndexAsWritten` is the firmware's index. The lemma shows that it agrees with the corrected index for lengths of 2 or more and falls outside the pattern for length 1. `Outputs.Output.Reset` and `Outputs.Output.GenerateSequence` use the corrected index.

The second row is about the prepare step. `CmModel.Model.PrepareOutputSettingsChangeAsWritten` and `CmModel.StaleMirror` model the firmware's prepare, and `CmModel.StalePreviewCommitDiffers` is the general form of the counterexample. `CmModel.Model.OpenSettings`, and through it `CmModel.Model.ListButton` and `CmModel.Model.HandleButton`, use the corrected prepare, and `CmModel.CommitMirrorKeepsSettings` and `CmModel.UntouchedVisitKeepsSettings` prove the intended property about it.
