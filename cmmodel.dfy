/**
 * The model of the clock module (CmModel.h, CmModel.cpp): the eight
 * channels, the swing table, the editor that stages changes to one channel
 * in shadow fields, and the commits that apply them.
 *
 * The editor's `uint8_t` arithmetic is written out with Byte, so a step
 * below 0 reads 255, as the firmware's tests for 255 expect.
 */
module CmModel {
  import opened Resources
  import opened Bits
  import opened Outputs

  // ---------------------------------------------------------------------
  // Clamped steps of the editor's parameters
  // ---------------------------------------------------------------------

  /** The rotary modifier: +1 for a clockwise step, -1 otherwise. */
  predicate IsModifier(m: int) {
    m == 1 || m == -1
  }

  function Clamp(x: int, lo: int, hi: int): int
    requires lo <= hi
  {
    if x < lo then lo else if x > hi then hi else x
  }

  /** bpmChange: BPM + modifier as a byte, clamped to [MIN_BPM, MAX_BPM]. */
  function StepBpm(bpm: uint8, m: int): (r: uint8)
    requires IsModifier(m)
    ensures MIN_BPM <= r <= MAX_BPM
    ensures MIN_BPM <= bpm <= MAX_BPM ==> r == Clamp(bpm + m, MIN_BPM, MAX_BPM)
  {
    var b := Byte(bpm + m);
    if b < MIN_BPM then MIN_BPM else if b > MAX_BPM then MAX_BPM else b
  }

  /** The step shared by swing, the list row and the start delay: x +
      modifier as a byte, 255 (a step below 0) read as 0, capped at hi. */
  function StepUpTo(x: uint8, m: int, hi: nat): (r: uint8)
    requires IsModifier(m) && hi < 254
    ensures r <= hi
    ensures x <= hi ==> r == Clamp(x + m, 0, hi)
  {
    var v := Byte(x + m);
    if v == 255 then 0 else if v > hi then hi else v
  }

  /** The step shared by the clock, gate, Euclidean length and Euclidean
      steps: x + modifier as a byte, capped at hi, 0 raised to 1. */
  function StepPositive(x: uint8, m: int, hi: nat): (r: uint8)
    requires IsModifier(m) && 1 <= hi < 255
    ensures 1 <= r <= hi
    ensures 1 <= x <= hi ==> r == Clamp(x + m, 1, hi)
  {
    var v := Byte(x + m);
    var v' := if v > hi then hi else v;
    if v' == 0 then 1 else v'
  }

  /** The highest output type channel `output` may take: channels 0 to 3
      have no analog output and stop at RANDOM_TRIGGERS. */
  function TypeLimit(output: nat): uint8 {
    if output < 4 then RANDOM_TRIGGERS else VOLTAGE
  }

  /** Row 0 of outputSettingsValueChange: the type steps within [1, 7],
      within [1, 3] on channels 0 to 3. */
  function StepType(t: uint8, m: int, output: nat): (r: uint8)
    requires IsModifier(m)
    ensures CLOCK <= t <= VOLTAGE ==> CLOCK <= r <= TypeLimit(output)
    ensures CLOCK <= t <= TypeLimit(output) ==> r == Clamp(t + m, CLOCK, TypeLimit(output))
  {
    var v := Byte(t + m);
    var v1 := if v == 8 then 7 else v;
    var v2 := if v1 == 0 then 1 else v1;
    if output < 4 && v2 > 3 then 3 else v2
  }

  const RANDOM_TRIGGER_PROBABILITY_CHANGE_STEP_SIZE: nat := 5

  /** The trigger probability steps by 5 within [0, 100]; a step below 0
      wraps past 250 and reads as 0. */
  function StepProbability(p: uint8, m: int): (r: uint8)
    requires IsModifier(m)
    ensures r <= 100
    ensures p <= 100 ==> r == Clamp(p + 5 * m, 0, 100)
  {
    var v := Byte(p + m * RANDOM_TRIGGER_PROBABILITY_CHANGE_STEP_SIZE);
    var v' := if v > 250 then 0 else v;
    if v' > 100 then 100 else v'
  }

  /** The trigger length steps within [2, 32]: it is never 1, and 0 (no
      pattern, a coin per gate) is left at the first step, never re-entered. */
  function StepTriggerLength(len: uint8, m: int): (r: uint8)
    requires IsModifier(m)
    ensures r <= MAX_EUCLIDEAN_LENGTH && r != 1
    ensures 2 <= len <= 32 ==> r == Clamp(len + m, 2, 32)
    ensures len == 0 ==> r == (if m == 1 then 2 else 32)
  {
    var v := Byte(len + m);
    var v' := if v == 1 then 2 else v;
    if v' > 32 then 32 else v'
  }

  /** The voltage length steps within [0, 32]: 255 reads as 0, 33 as 32. */
  function StepVoltageLength(len: uint8, m: int): (r: uint8)
    requires IsModifier(m)
    ensures len <= MAX_RANDOM_VOLTAGE_SEQUENCE_LENGTH ==> r == Clamp(len + m, 0, MAX_RANDOM_VOLTAGE_SEQUENCE_LENGTH)
  {
    var v := Byte(len + m);
    var v' := if v == 255 then 0 else v;
    if v' == MAX_RANDOM_VOLTAGE_SEQUENCE_LENGTH + 1 then MAX_RANDOM_VOLTAGE_SEQUENCE_LENGTH else v'
  }

  // ---------------------------------------------------------------------
  // The swing table
  // ---------------------------------------------------------------------

  /** The swing offsets per clock length below CLOCK_1x16D, before flooring. */
  function RawSwingTable(s: uint8): seq<uint8> {
    [0, s / 16, s / 8, s / 4, s / 2, s]
  }

  function AtLeastOne(x: uint8): uint8 {
    if x < 1 then 1 else x
  }

  /** updateSwingTable: the raw table, every entry raised to at least 1
      once there is any swing. */
  function SwingTable(s: uint8): (r: seq<uint8>)
    ensures |r| == CLOCK_LENGTH_SWINGABLE_LIMIT
  {
    var raw := RawSwingTable(s);
    if s > 0 then seq(6, i requires 0 <= i < 6 => AtLeastOne(raw[i])) else raw
  }

  /** No swing gives an all-zero table; otherwise the entries rise with
      the clock length from 1 to the swing itself. */
  lemma SwingTableShape(s: uint8)
    ensures s == 0 ==> forall i :: 0 <= i < 6 ==> SwingTable(s)[i] == 0
    ensures s > 0 ==> forall i :: 0 <= i < 6 ==> 1 <= SwingTable(s)[i] <= s
    ensures forall i, j :: 0 <= i <= j < 6 ==> SwingTable(s)[i] <= SwingTable(s)[j]
    ensures SwingTable(s)[5] == s
  {
  }

  /** The swing outgrowing the open time, as written: a 1/16 clock with a
      1/32 gate opens for 24 ticks, while the swing table gives that clock
      the whole swing of 30.  The swung half of each pair then schedules its
      GATE_OPEN 6 ticks before the GATE_CLOSE tick that schedules it, and
      the channel waits for the counter to come round to it. */
  lemma SwingOutgrowsOpenTime(t: nat)
    requires 6 <= t < INTERRUPT_COUNTER_LIMIT
    ensures SwingableGateTimes(CLOCK_1x16 as nat, CLOCK_1x32 as nat) == GateTimes(24, 24)
    ensures SwingTable(MAX_SWING as uint8)[CLOCK_1x16] == 30
    ensures ScheduleAt(t + 24 + SwingOffset(true, 30)) == t - 6
    ensures (t + (INTERRUPT_COUNTER_LIMIT - 6)) % INTERRUPT_COUNTER_LIMIT == t - 6
  {
    SwungOpenBehind(t, 24, 30);
  }

  // ---------------------------------------------------------------------
  // The staged edit
  // ---------------------------------------------------------------------

  /** The editor's shadow copy of one channel's settings (the edit* fields). */
  datatype EditState = EditState(
    kind: uint8, clock: uint8, gate: uint8, delay: uint8,
    sequence: uint16, sequenceB: uint16,
    probability: uint8, steps: uint8, length: uint8)

  /** The settings the editor can give channel i. */
  predicate SettingsValid(s: ChannelSettings, i: nat) {
    && CLOCK <= s.kind <= TypeLimit(i)
    && 1 <= s.clock <= NUM_CLOCKS && 1 <= s.gate <= NUM_CLOCKS && s.delay <= NUM_CLOCKS
    && (s.kind == EUCLIDEAN || s.kind == RANDOM_TRIGGERS ==> s.gate == CLOCK_1x256)
    && s.steps <= MAX_EUCLIDEAN_LENGTH && s.probability <= 100
    && s.length <= MAX_EUCLIDEAN_LENGTH
  }

  /** The ranges every edit* field keeps while channel `output` is edited. */
  predicate EditRanges(e: EditState, output: nat) {
    && CLOCK <= e.kind <= TypeLimit(output)
    && 1 <= e.clock <= NUM_CLOCKS && 1 <= e.gate <= NUM_CLOCKS && e.delay <= NUM_CLOCKS
    && e.steps <= MAX_EUCLIDEAN_LENGTH && e.probability <= 100
    && e.length <= MAX_EUCLIDEAN_LENGTH
  }

  /** A channel's state as the rest of the model keeps it: valid settings,
      one pending event below the wrap limit, and the Euclidean and voltage
      readers inside their patterns. */
  predicate StateValid(st: ChannelState, i: nat) {
    var s := st.settings;
    && SettingsValid(s, i)
    && st.eventTime < INTERRUPT_COUNTER_LIMIT
    && st.event != NoEvent
    && ((s.kind == EUCLIDEAN || s.kind == VOLTAGE) && 1 <= s.length ==> st.sequenceIndex < s.length)
  }

  ghost predicate ChannelValid(o: Output, i: nat)
    reads o
  {
    o.Valid() && StateValid(o.State(), i)
  }

  /** A channel with valid settings is left valid by a reset, whatever its
      state before. */
  lemma RescheduledKeepsValid(b: ChannelState, a: ChannelState, now: nat, level: nat, i: nat)
    requires SettingsValid(a.settings, i) && now < INTERRUPT_COUNTER_LIMIT
    requires Rescheduled(b, a, now, level)
    ensures StateValid(a, i)
  {
    RescheduledAhead(a, now);
  }

  /** The edit prepareOutputSettingsChange starts from: a copy of every
      setting of the channel, its patterns included. */
  function Mirror(s: ChannelSettings): (e: EditState)
    ensures e.kind == s.kind && e.clock == s.clock && e.gate == s.gate && e.delay == s.delay
    ensures e.sequence == s.sequence && e.sequenceB == s.sequenceB
    ensures e.probability == s.probability && e.steps == s.steps && e.length == s.length
  {
    EditState(s.kind, s.clock, s.gate, s.delay, s.sequence, s.sequenceB,
      s.probability, s.steps, s.length)
  }

  /** The edit the firmware's prepareOutputSettingsChange starts from: it
      copies every setting but the two patterns, which keep whatever the last
      edit left in editSequence and editSequenceB. */
  function StaleMirror(s: ChannelSettings, last: EditState): EditState {
    Mirror(s).(sequence := last.sequence, sequenceB := last.sequenceB)
  }

  /** The edit fields after commitOutputSettingsChange: pattern channels get
      the CLOCK_1x128 gate. */
  function CommitEdit(e: EditState): EditState {
    if e.kind == EUCLIDEAN || e.kind == RANDOM_TRIGGERS then e.(gate := CLOCK_1x128) else e
  }

  /** The settings commitOutputSettingsChange writes into the channel:
      type and clock always; the gate, forced to the shortest on pattern
      channels; the delay except on voltage channels; steps, probability and
      patterns only for the types that use them. */
  function CommittedSettings(s: ChannelSettings, e: EditState): ChannelSettings {
    var pattern := e.kind == EUCLIDEAN || e.kind == VOLTAGE || e.kind == RANDOM_TRIGGERS;
    ChannelSettings(
      e.kind, e.clock,
      if e.kind == EUCLIDEAN || e.kind == RANDOM_TRIGGERS then CLOCK_1x256 else e.gate,
      if e.kind != VOLTAGE then e.delay else s.delay,
      if e.kind == EUCLIDEAN then e.steps else s.steps,
      if e.kind == RANDOM_TRIGGERS then e.probability else s.probability,
      if pattern then e.sequence else s.sequence,
      if e.kind == RANDOM_TRIGGERS then e.sequenceB else s.sequenceB,
      if pattern then e.length else s.length)
  }

  /** Committing an untouched edit leaves the channel's settings as they were. */
  lemma CommitMirrorKeepsSettings(s: ChannelSettings, i: nat)
    requires SettingsValid(s, i)
    ensures CommittedSettings(s, Mirror(s)) == s
  {
  }

  /** With the firmware's prepare, committing an untouched edit of a
      Euclidean channel installs the stale pattern instead of its own. */
  lemma StalePreviewCommitDiffers(s: ChannelSettings, last: EditState)
    requires s.kind == EUCLIDEAN && last.sequence != s.sequence
    ensures CommittedSettings(s, StaleMirror(s, last)) != s
    ensures CommittedSettings(s, StaleMirror(s, last)).sequence == last.sequence
  {
  }

  /** A commit of an edit within range keeps the channel's settings valid. */
  lemma CommitKeepsValid(s: ChannelSettings, e: EditState, i: nat)
    requires SettingsValid(s, i) && EditRanges(e, i)
    ensures SettingsValid(CommittedSettings(s, e), i)
    ensures EditRanges(CommitEdit(e), i)
  {
  }

  /** The mirror of valid settings is an edit within range. */
  lemma MirrorInRange(s: ChannelSettings, i: nat)
    requires SettingsValid(s, i)
    ensures EditRanges(Mirror(s), i) && EditRanges(StaleMirror(s, Mirror(s)), i)
  {
  }

  // ---------------------------------------------------------------------
  // One rotary step in the settings page
  // ---------------------------------------------------------------------

  /** Rows 0 (type) and 1 (clock) of outputSettingsValueChange; a voltage
      channel's gate follows its clock. */
  function CommonRowEdited(e: EditState, row: uint8, output: nat, m: int): EditState
    requires IsModifier(m)
  {
    if row == 0 then e.(kind := StepType(e.kind, m, output))
    else if row == 1 then
      var c := StepPositive(e.clock, m, NUM_CLOCKS);
      e.(clock := c, gate := if e.kind == VOLTAGE then c else e.gate)
    else e
  }

  /** outputSettingsValueChangeEuclidean: row 2 the length, row 3 the
      steps, and the preview pattern regenerated on every step. */
  function EuclideanRowEdited(e: EditState, row: uint8, m: int): EditState
    requires IsModifier(m)
  {
    var e' := if row == 2 then e.(length := StepPositive(e.length, m, MAX_EUCLIDEAN_LENGTH))
              else if row == 3 then e.(steps := StepPositive(e.steps, m, MAX_EUCLIDEAN_LENGTH))
              else e;
    e'.(sequence := EuclideanPattern(e'.steps, e'.length, e'.steps))
  }

  /** The trigger preview of generateTemporarySequence: at most 16 steps,
      drawn with probability p. */
  function TriggerPreview(p: nat, len: uint8, rolls: seq<nat>): uint16
    requires Rolls(rolls, 16)
  {
    if len > 0 then TriggerPattern(p, rolls, Min(len, 16)) else 0
  }

  /** outputSettingsValueChangeRandomTriggers: row 2 the probability, row 3
      the length, and both preview halves redrawn on every step with the
      channel's current probability p. */
  function TriggerRowEdited(e: EditState, row: uint8, m: int, p: nat, rollsA: seq<nat>, rollsB: seq<nat>): EditState
    requires IsModifier(m) && Rolls(rollsA, 16) && Rolls(rollsB, 16)
  {
    var e' := if row == 2 then e.(probability := StepProbability(e.probability, m))
              else if row == 3 then e.(length := StepTriggerLength(e.length, m))
              else e;
    e'.(sequence := TriggerPreview(p, e'.length, rollsA), sequenceB := TriggerPreview(p, e'.length, rollsB))
  }

  /** outputSettingsValueChangeVoltage: row 2 the length, and the preview
      pattern redrawn (no pattern for length 0). */
  function VoltageRowEdited(e: EditState, row: uint8, m: int, word: nat): EditState
    requires IsModifier(m)
  {
    var e' := if row == 2 then e.(length := StepVoltageLength(e.length, m)) else e;
    e'.(sequence := if e'.length > 0 then Wrap16(word) else 0)
  }

  /** outputSettingsValueChangeGateSineSaw: row 2 the gate, row 3 the delay. */
  function GateRowEdited(e: EditState, row: uint8, m: int): EditState
    requires IsModifier(m)
  {
    if row == 2 then e.(gate := StepPositive(e.gate, m, NUM_CLOCKS))
    else if row == 3 then e.(delay := StepUpTo(e.delay, m, NUM_CLOCKS))
    else e
  }

  /** The rows of the edited type, dispatched on the type rows 0 and 1 left. */
  function TypeRowsEdited(c: EditState, row: uint8, m: int, p: nat,
                          word: nat, rollsA: seq<nat>, rollsB: seq<nat>): EditState
    requires IsModifier(m) && Rolls(rollsA, 16) && Rolls(rollsB, 16)
  {
    if c.kind == EUCLIDEAN then EuclideanRowEdited(c, row, m)
    else if c.kind == RANDOM_TRIGGERS then TriggerRowEdited(c, row, m, p, rollsA, rollsB)
    else if c.kind == VOLTAGE then VoltageRowEdited(c, row, m, word)
    else GateRowEdited(c, row, m)
  }

  /** outputSettingsValueChange: the common rows, then the rows of the
      (possibly new) type.  `p` is the edited channel's live trigger
      probability, `word` a draw of random(MAX_LONG), `rollsA`/`rollsB`
      draws of random(100). */
  function ValueChanged(e: EditState, row: uint8, output: nat, m: int, p: nat,
                        word: nat, rollsA: seq<nat>, rollsB: seq<nat>): EditState
    requires IsModifier(m) && Rolls(rollsA, 16) && Rolls(rollsB, 16)
  {
    TypeRowsEdited(CommonRowEdited(e, row, output, m), row, m, p, word, rollsA, rollsB)
  }

  /** Every rotary step keeps the edit within range; only row 0 changes the
      type; a voltage channel's gate follows a clock edit; Euclidean and
      trigger previews match the edited parameters. */
  lemma ValueChangedInRange(e: EditState, row: uint8, output: nat, m: int, p: nat,
                            word: nat, rollsA: seq<nat>, rollsB: seq<nat>)
    requires IsModifier(m) && Rolls(rollsA, 16) && Rolls(rollsB, 16)
    requires EditRanges(e, output) && p <= 100
    ensures var r := ValueChanged(e, row, output, m, p, word, rollsA, rollsB);
      && EditRanges(r, output)
      && (row != 0 ==> r.kind == e.kind)
      && (row == 1 && r.kind == VOLTAGE ==> r.gate == r.clock)
      && (r.kind == EUCLIDEAN ==> r.sequence == EuclideanPattern(r.steps, r.length, r.steps))
      && (r.kind == RANDOM_TRIGGERS ==> r.sequence == TriggerPreview(p, r.length, rollsA))
      && (r.kind == RANDOM_TRIGGERS && row == 3 ==> r.length != 1)
      && (row >= 4 ==> r.kind == e.kind && r.clock == e.clock && r.gate == e.gate && r.delay == e.delay)
  {
  }

  // ---------------------------------------------------------------------
  // Default channels
  // ---------------------------------------------------------------------

  /** The settings the loop of setupDefaultOutputs gives every channel. */
  function BaseSettings(): ChannelSettings {
    ChannelSettings(CLOCK, CLOCK_1x4, CLOCK_1x32, NO_CLOCK,
      DEFAULT_EUCLIDEAN_STEPS, DEFAULT_RANDOM_TRIGGER_PROBABILITY, 0, 0, DEFAULT_SEQUENCE_LENGTH)
  }

  /** The pattern generateEuclideanRhythm(k, n) returns. */
  function Rhythm(k: nat, n: nat): uint16 {
    EuclideanPattern(k, n, k)
  }

  /** The settings setupDefaultOutputs gives channel i; `word` is the draw
      the voltage channel's pattern is taken from. */
  function DefaultSettings(i: nat, word: nat): ChannelSettings {
    var base := BaseSettings();
    if i == 0 then base.(gate := CLOCK_1x8)
    else if i == 1 then base.(gate := CLOCK_1x8, delay := CLOCK_1x8)
    else if i == 2 then base.(clock := CLOCK_1x8, gate := CLOCK_1x16)
    else if i == 3 then base.(clock := CLOCK_1x16, gate := CLOCK_1x128)
    else if i == 4 then
      base.(kind := EUCLIDEAN, clock := CLOCK_1x8, gate := CLOCK_1x256,
            length := 8).(sequence := 0xAD)
    else if i == 5 then
      base.(kind := EUCLIDEAN, clock := CLOCK_1x16, gate := CLOCK_1x256,
            length := 11).(sequence := 0x4AA)
    else if i == 6 then
      base.(kind := VOLTAGE, clock := CLOCK_1x1, gate := CLOCK_1x1, sequence := Wrap16(word), length := 4)
    else base.(kind := SINE, clock := CLOCK_2x1, gate := CLOCK_2x1)
  }

  /** Every default channel has settings the editor could have produced. */
  lemma DefaultSettingsValid(i: nat, word: nat)
    requires i < NUM_OUTPUTS
    ensures SettingsValid(DefaultSettings(i, word), i)
  {
  }

  /** The rhythm of channel 4: five pulses over 8 steps, on bits 7, 5, 3, 2 and 0. */
  lemma DefaultRhythm8()
    ensures Rhythm(DEFAULT_EUCLIDEAN_STEPS, 8) == 0xAD
  {
    PulsesOf8();
    BitsOf8();
    EuclideanPatternIs(5, 8, 0xAD, [7, 5, 3, 2, 0]);
  }

  /** Pulse i of generateEuclideanRhythm(k, n) lands on bit n - q - 1 when
      i * n + k - 1 leaves quotient q by k. */
  lemma EuclideanPositionIs(k: nat, n: nat, i: nat, q: nat, r: nat)
    requires 0 < k && r < k && i * n + k - 1 == k * q + r
    ensures EuclideanPosition(k, n, i) == n - q - 1
  {
    NumeratorIsProduct(n, i);
    DivUnique(i * n + k - 1, k, q, r);
  }

  /** The pulses of generateEuclideanRhythm(k, n) land on ps, given for
      each pulse m the quotient qs[m] and remainder rs[m] of m * n + k - 1 by k. */
  lemma PulsesAt(k: nat, n: nat, ps: seq<int>, qs: seq<nat>, rs: seq<nat>)
    requires 0 < k && |ps| == k && |qs| == k && |rs| == k
    requires forall m :: 0 <= m < k ==> rs[m] < k && m * n + k - 1 == k * qs[m] + rs[m]
    requires forall m :: 0 <= m < k ==> ps[m] == n - qs[m] - 1
    ensures forall m :: 0 <= m < k ==> EuclideanPosition(k, n, m) == ps[m]
  {
    forall m | 0 <= m < k
      ensures EuclideanPosition(k, n, m) == ps[m]
    {
      EuclideanPositionIs(k, n, m, qs[m], rs[m]);
    }
  }

  lemma PulsesOf8()
    ensures forall m :: 0 <= m < 5 ==> EuclideanPosition(5, 8, m) == [7, 5, 3, 2, 0][m]
  {
    var qs, rs := [0, 2, 4, 5, 7], [4, 2, 0, 3, 1];
    forall m | 0 <= m < 5
      ensures rs[m] < 5 && m * 8 + 4 == 5 * qs[m] + rs[m]
    {
      if m == 0 {} else if m == 1 {} else if m == 2 {} else if m == 3 {} else {}
    }
    PulsesAt(5, 8, [7, 5, 3, 2, 0], qs, rs);
  }

  lemma BitsOf8()
    ensures forall j :: 0 <= j < 16 ==> (Bit(0xAD, j) <==> j in [7, 5, 3, 2, 0])
  {
    forall j | 0 <= j < 16
      ensures Bit(0xAD, j) <==> j in [7, 5, 3, 2, 0]
    {
      if j < 4 {
        if j == 0 {} else if j == 1 {} else if j == 2 {} else {}
      } else if j < 8 {
        if j == 4 {} else if j == 5 {} else if j == 6 {} else {}
      } else {
        Pow2Values();
        NoBitAbove(0xAD, 8, j);
      }
    }
  }

  /** The rhythm of channel 5: five pulses over 11 steps, on bits 10, 7, 5, 3 and 1. */
  lemma DefaultRhythm11()
    ensures Rhythm(DEFAULT_EUCLIDEAN_STEPS, 11) == 0x4AA
  {
    PulsesOf11();
    BitsOf11();
    EuclideanPatternIs(5, 11, 0x4AA, [10, 7, 5, 3, 1]);
  }

  lemma PulsesOf11()
    ensures forall m :: 0 <= m < 5 ==> EuclideanPosition(5, 11, m) == [10, 7, 5, 3, 1][m]
  {
    var qs, rs := [0, 3, 5, 7, 9], [4, 0, 1, 2, 3];
    forall m | 0 <= m < 5
      ensures rs[m] < 5 && m * 11 + 4 == 5 * qs[m] + rs[m]
    {
      if m == 0 {} else if m == 1 {} else if m == 2 {} else if m == 3 {} else {}
    }
    PulsesAt(5, 11, [10, 7, 5, 3, 1], qs, rs);
  }

  lemma BitsOf11()
    ensures forall j :: 0 <= j < 16 ==> (Bit(0x4AA, j) <==> j in [10, 7, 5, 3, 1])
  {
    forall j | 0 <= j < 16
      ensures Bit(0x4AA, j) <==> j in [10, 7, 5, 3, 1]
    {
      if j < 4 {
        if j == 0 {} else if j == 1 {} else if j == 2 {} else {}
      } else if j < 8 {
        if j == 4 {} else if j == 5 {} else if j == 6 {} else {}
      } else if j < 11 {
        if j == 8 {} else if j == 9 {} else {}
      } else {
        assert Pow2(11) == 2048;
        NoBitAbove(0x4AA, 11, j);
      }
    }
  }

  /** The first visit to channel 4's settings after power-up, left without
      turning the encoder: the firmware's prepare keeps editSequence at its
      initial 0, so the commit wipes the default rhythm 0xAD; the corrected
      prepare commits the settings unchanged. */
  lemma BootVisitWipesEuclideanPattern(word: nat)
    ensures var s := DefaultSettings(4, word);
      var initial := EditState(0, 0, 0, 0, 0, 0, 0, 0, 0);
      && s.sequence == 0xAD
      && CommittedSettings(s, StaleMirror(s, initial)).sequence == 0
      && CommittedSettings(s, Mirror(s)) == s
  {
    DefaultSettingsValid(4, word);
    CommitMirrorKeepsSettings(DefaultSettings(4, word), 4);
  }

  /** Draws of random(255) for the eight channels' resets. */
  predicate Levels(levels: seq<nat>) {
    |levels| == NUM_OUTPUTS && forall i :: 0 <= i < |levels| ==> levels[i] < 255
  }

  /** The editor's visible state. */
  datatype Editor = Editor(mode: Mode, row: uint8, output: uint8, edit: EditState, pending: bool)

  /** The settings page is left once the row passes the last one of the
      type: row 2 for a voltage channel, row 3 for the others. */
  predicate LeavesSettings(kind: uint8, row: int) {
    (kind == VOLTAGE && row > 2) || row > 3
  }

  /** handleButton's effect on the editor.  `listed` holds the settings of
      the channel on the selected row, `running` whether the clock runs: a
      running clock defers the commit to the next bar, a stopped one commits
      at once. */
  function Pressed(ed: Editor, listed: ChannelSettings, running: bool): Editor {
    match ed.mode
    case ModeBpm => ed.(mode := ModeSwing)
    case ModeSwing => ed.(mode := ModeBpm)
    case ModeOutputList =>
      if ed.pending then ed
      else Editor(ModeOutputSettings, 0, ed.row, Mirror(listed), false)
    case ModeOutputSettings =>
      var row := Byte(ed.row + 1);
      if !LeavesSettings(ed.edit.kind, row) then ed.(row := row)
      else if running then Editor(ModeOutputList, ed.output, ed.output, ed.edit, true)
      else Editor(ModeOutputList, ed.output, ed.output, CommitEdit(ed.edit), false)
  }

  /** Whether that press commits the edit into the channel at once. */
  predicate PressCommits(ed: Editor, running: bool) {
    ed.mode == ModeOutputSettings && LeavesSettings(ed.edit.kind, Byte(ed.row + 1)) && !running
  }

  /** handleButtonLongPress's effect on the editor: BPM and swing open the
      list at row 0, the list goes back to BPM, and the settings page backs
      up one row, leaving the edit (uncommitted) from row 0. */
  function LongPressed(ed: Editor): Editor {
    match ed.mode
    case ModeBpm => ed.(mode := ModeOutputList, row := 0)
    case ModeSwing => ed.(mode := ModeOutputList, row := 0)
    case ModeOutputList => ed.(mode := ModeBpm)
    case ModeOutputSettings =>
      var row := Byte(ed.row - 1);
      if row == 255 then ed.(mode := ModeOutputList, row := ed.output) else ed.(row := row)
  }

  /** handleRotary in the list: the selected row steps within [0, 7]. */
  function ListRowStepped(row: uint8, m: int): (r: uint8)
    requires IsModifier(m)
    ensures r < NUM_OUTPUTS
    ensures row < NUM_OUTPUTS ==> r == Clamp(row + m, 0, NUM_OUTPUTS - 1)
  {
    StepUpTo(row, m, NUM_OUTPUTS - 1)
  }

  /** A press flips BPM and swing, so a second press restores the editor. */
  lemma PressTogglesBpmSwing(ed: Editor, listed: ChannelSettings, running: bool)
    requires ed.mode == ModeBpm || ed.mode == ModeSwing
    ensures Pressed(ed, listed, running).mode != ed.mode
    ensures Pressed(Pressed(ed, listed, running), listed, running) == ed
  {
  }

  /** No second edit opens while one waits for the bar. */
  lemma PressWhilePendingIgnored(ed: Editor, listed: ChannelSettings, running: bool)
    requires ed.mode == ModeOutputList && ed.pending
    ensures Pressed(ed, listed, running) == ed
  {
  }

  /** Opening the list's row i, pressing through every row of the page and
      leaving it with the clock stopped commits the settings unchanged; the
      list shows row i again and nothing is pending.  A voltage channel's
      page has three rows, so it is left on the fourth press; the others on
      the fifth. */
  lemma UntouchedVisitKeepsSettings(ed: Editor, s: ChannelSettings, i: nat)
    requires ed.mode == ModeOutputList && !ed.pending && ed.row as nat == i
    requires SettingsValid(s, i)
    ensures var e1 := Pressed(ed, s, false);
      var e2 := Pressed(e1, s, false);
      var e3 := Pressed(e2, s, false);
      var e4 := Pressed(e3, s, false);
      var e5 := Pressed(e4, s, false);
      var before := if s.kind == VOLTAGE then e3 else e4;
      var last := if s.kind == VOLTAGE then e4 else e5;
      && e1.mode == ModeOutputSettings && e1.row == 0 && e1.output as nat == i
      && PressCommits(before, false)
      && before.edit == Mirror(s)
      && last.mode == ModeOutputList && last.row as nat == i && !last.pending
      && CommittedSettings(s, before.edit) == s
  {
    CommitMirrorKeepsSettings(s, i);
  }

  /** Leaving the page with the clock running marks the edit pending and
      changes no channel; the row is back on the edited channel. */
  lemma LeavingWhileRunningDefers(ed: Editor, listed: ChannelSettings)
    requires ed.mode == ModeOutputSettings && LeavesSettings(ed.edit.kind, Byte(ed.row + 1))
    ensures var r := Pressed(ed, listed, true);
      r.mode == ModeOutputList && r.pending && r.edit == ed.edit && r.row == ed.output
    ensures !PressCommits(ed, true) && PressCommits(ed, false)
  {
  }

  /** A long press on row 0 of the page cancels the edit: the list is back
      on the channel and nothing is pending; a long press on a later row
      goes back one row. */
  lemma LongPressBacksUp(ed: Editor)
    requires ed.mode == ModeOutputSettings && ed.row <= 3
    ensures ed.row == 0 ==> LongPressed(ed) == ed.(mode := ModeOutputList, row := ed.output)
    ensures ed.row > 0 ==> LongPressed(ed) == ed.(row := ed.row - 1)
  {
  }

  // ---------------------------------------------------------------------
  // The model
  // ---------------------------------------------------------------------

  /** One channel as CmModel() builds it: Output(p, a) with no pattern yet. */
  method NewOutput() returns (o: Output)
    ensures fresh(o) && o.Valid() && o.sequence == 0 && o.sequenceB == 0
  {
    o := new Output();
  }

  /** The eight channels o0 to o7 of CmModel(), each one a fresh Output(p, a). */
  method NewOutputs() returns (os: seq<Output>)
    ensures |os| == NUM_OUTPUTS
    ensures forall i :: 0 <= i < NUM_OUTPUTS ==>
      fresh(os[i]) && os[i].Valid() && os[i].sequence == 0 && os[i].sequenceB == 0
    ensures forall i, j :: 0 <= i < j < |os| ==> os[i] != os[j]
  {
    var o0 := NewOutput();
    var o1 := NewOutput();
    var o2 := NewOutput();
    var o3 := NewOutput();
    var o4 := NewOutput();
    var o5 := NewOutput();
    var o6 := NewOutput();
    var o7 := NewOutput();
    os := [o0, o1, o2, o3, o4, o5, o6, o7];
  }

  class Model {
    /** The tick counter; an `int` on the AVR, kept below the wrap limit. */
    var interruptCounter: nat
    const outputs: seq<Output>
    var bpm: uint8
    var swing: uint8
    const swingTable: array<uint8>
    var clockRunning: bool
    var outputChangesReadyForCommit: bool
    var swingChangeReadyForCommit: bool
    var currentMode: Mode
    var currentRow: uint8
    var currentOutput: uint8
    var editType: uint8
    var editClockLength: uint8
    var editGateLength: uint8
    var editStartDelayLength: uint8
    var editSequence: uint16
    var editSequenceB: uint16
    var editRandomTriggerProbability: uint8
    var editEuclideanSteps: uint8
    var editSequenceLength: uint8

    /** Eight distinct channels and a six-entry swing table. */
    ghost predicate Allocated() {
      && |outputs| == NUM_OUTPUTS
      && (forall i, j :: 0 <= i < j < |outputs| ==> outputs[i] != outputs[j])
      && swingTable.Length == CLOCK_LENGTH_SWINGABLE_LIMIT
    }

    function Edit(): EditState
      reads this`editType, this`editClockLength, this`editGateLength, this`editStartDelayLength
      reads this`editSequence, this`editSequenceB, this`editRandomTriggerProbability
      reads this`editEuclideanSteps, this`editSequenceLength
    {
      EditState(editType, editClockLength, editGateLength, editStartDelayLength,
        editSequence, editSequenceB, editRandomTriggerProbability, editEuclideanSteps,
        editSequenceLength)
    }

    ghost function Editing(): Editor
      reads this
    {
      Editor(currentMode, currentRow, currentOutput, Edit(), outputChangesReadyForCommit)
    }

    /** The invariant every handler keeps: valid channels, the swing table
        of the current swing, and a valid editor. */
    ghost predicate Valid()
      reads this, outputs, swingTable
    {
      Allocated() && ChannelsValid() && SwingValid() && EditorValid()
    }

    /** Every channel valid for its position. */
    ghost predicate ChannelsValid()
      reads outputs
    {
      |outputs| == NUM_OUTPUTS && forall i :: 0 <= i < NUM_OUTPUTS ==> ChannelValid(outputs[i], i)
    }

    /** The swing table holds the offsets of the current swing. */
    ghost predicate SwingValid()
      reads this`swing, swingTable
    {
      swingTable[..] == SwingTable(swing)
    }

    /** Parameters in range, a selected channel, and an edit within range
        while it is open or waiting for the bar.  An edit is never open while
        another waits. */
    ghost predicate EditorValid()
      reads this`interruptCounter, this`bpm, this`swing, this`currentMode, this`currentRow
      reads this`currentOutput, this`outputChangesReadyForCommit
      reads this`editType, this`editClockLength, this`editGateLength, this`editStartDelayLength
      reads this`editSequence, this`editSequenceB, this`editRandomTriggerProbability
      reads this`editEuclideanSteps, this`editSequenceLength
    {
      && interruptCounter < INTERRUPT_COUNTER_LIMIT
      && MIN_BPM <= bpm <= MAX_BPM && swing <= MAX_SWING
      && currentOutput < NUM_OUTPUTS && currentRow < NUM_OUTPUTS
      && (currentMode == ModeOutputSettings ==> currentRow <= 3 && !outputChangesReadyForCommit)
      && (currentMode == ModeOutputSettings || outputChangesReadyForCommit ==>
            EditRanges(Edit(), currentOutput))
    }

    /** The state the constructor leaves for initialize(). */
    ghost predicate Pristine()
      reads this, outputs
    {
      && Allocated()
      && (forall i :: 0 <= i < NUM_OUTPUTS ==>
            outputs[i].Valid() && outputs[i].sequence == 0 && outputs[i].sequenceB == 0)
      && interruptCounter == 0 && !clockRunning
      && !outputChangesReadyForCommit && !swingChangeReadyForCommit
      && currentRow == 0 && currentOutput == 0
    }

    /** Every channel keeps its settings and is rescheduled at `now`. */
    twostate predicate AllRescheduled(now: nat, levels: seq<nat>)
      reads outputs
      requires |outputs| == NUM_OUTPUTS && |levels| == NUM_OUTPUTS
    {
      forall j :: 0 <= j < NUM_OUTPUTS ==>
        && outputs[j].Settings() == old(outputs[j].Settings())
        && Rescheduled(old(outputs[j].State()), outputs[j].State(), now, levels[j])
    }

    /** CmModel(): the eight channels o0 to o7. */
    constructor ()
      ensures Pristine() && swingTable[..] == SwingTable(0)
      ensures forall i :: 0 <= i < NUM_OUTPUTS ==> fresh(outputs[i])
      ensures fresh(swingTable)
    {
      var os := NewOutputs();
      outputs := os;
      swingTable := new uint8[CLOCK_LENGTH_SWINGABLE_LIMIT](_ => 0);
      interruptCounter := 0;
      bpm := DEFAULT_BPM;
      swing := DEFAULT_SWING;
      clockRunning := false;
      outputChangesReadyForCommit := false;
      swingChangeReadyForCommit := false;
      currentMode := ModeBpm;
      currentRow := 0;
      currentOutput := 0;
      editType := 0;
      editClockLength := 0;
      editGateLength := 0;
      editStartDelayLength := 0;
      editSequence := 0;
      editSequenceB := 0;
      editRandomTriggerProbability := 0;
      editEuclideanSteps := 0;
      editSequenceLength := 0;
      new;
      assert swingTable[..] == SwingTable(0);
    }

    /** initialize(): default BPM and swing, the default channels, all of
        them started at the current tick, and the BPM page shown. */
    method Initialize(word: nat, levels: seq<nat>) returns (ghost setup: seq<ChannelState>)
      requires Pristine() && word < MAX_LONG && Levels(levels)
      modifies this`bpm, this`swing, swingTable, outputs, this`currentMode
      ensures Valid()
      ensures bpm == DEFAULT_BPM && swing == DEFAULT_SWING && currentMode == ModeBpm
      ensures |setup| == NUM_OUTPUTS
      ensures forall i :: 0 <= i < NUM_OUTPUTS ==>
        && outputs[i].Settings() == DefaultSettings(i, word)
        && Rescheduled(setup[i], outputs[i].State(), interruptCounter, levels[i])
    {
      bpm := DEFAULT_BPM;
      swing := DEFAULT_SWING;
      UpdateSwingTable();
      setup := StartDefaultOutputs(word, levels);
      currentMode := ModeBpm;
    }

    /** The channel half of initialize(): the default channels, then all of
        them started at the current tick; `setup` holds their states between
        the two. */
    method StartDefaultOutputs(word: nat, levels: seq<nat>) returns (ghost setup: seq<ChannelState>)
      requires Allocated() && word < MAX_LONG && Levels(levels) && interruptCounter < INTERRUPT_COUNTER_LIMIT
      requires forall i :: 0 <= i < NUM_OUTPUTS ==>
        outputs[i].Valid() && outputs[i].sequence == 0 && outputs[i].sequenceB == 0
      modifies outputs
      ensures ChannelsValid()
      ensures |setup| == NUM_OUTPUTS
      ensures forall i :: 0 <= i < NUM_OUTPUTS ==>
        && outputs[i].Settings() == DefaultSettings(i, word)
        && Rescheduled(setup[i], outputs[i].State(), interruptCounter, levels[i])
    {
      SetupDefaultOutputs(word);
      setup := seq(NUM_OUTPUTS, j requires 0 <= j < NUM_OUTPUTS reads outputs => outputs[j].State());
      forall j | 0 <= j < NUM_OUTPUTS
        ensures SettingsValid(outputs[j].Settings(), j)
      {
        DefaultSettingsValid(j, word);
      }
      ResetOutputs(levels);
    }

    /** setupDefaultOutputs(): every channel a CLOCK on quarter notes, then
        the per-channel defaults. */
    method SetupDefaultOutputs(word: nat)
      requires Allocated() && word < MAX_LONG
      requires forall i :: 0 <= i < NUM_OUTPUTS ==>
        outputs[i].Valid() && outputs[i].sequence == 0 && outputs[i].sequenceB == 0
      modifies outputs
      ensures forall i :: 0 <= i < NUM_OUTPUTS ==>
        && outputs[i].Valid()
        && outputs[i].Settings() == DefaultSettings(i, word)
    {
      SetupCommonDefaults(word);
      SetupClockDefaults(word);
      SetupAnalogDefaults(word);
    }

    /** The defaults of the four gate-only channels 0 to 3. */
    method SetupClockDefaults(word: nat)
      requires Allocated() && word < MAX_LONG
      requires forall j :: 0 <= j < 4 ==> outputs[j].Valid() && outputs[j].Settings() == BaseSettings()
      modifies outputs[0], outputs[1], outputs[2], outputs[3]
      ensures forall j :: 0 <= j < 4 ==> outputs[j].Valid() && outputs[j].Settings() == DefaultSettings(j, word)
    {
      SetupChannelDefault(0, word);
      SetupChannelDefault(1, word);
      SetupChannelDefault(2, word);
      SetupChannelDefault(3, word);
      forall j | 0 <= j < 4
        ensures outputs[j].Valid() && outputs[j].Settings() == DefaultSettings(j, word)
      {
        if j == 0 {} else if j == 1 {} else if j == 2 {} else {}
      }
    }

    /** The defaults of the four channels 4 to 7 with an analog output. */
    method SetupAnalogDefaults(word: nat)
      requires Allocated() && word < MAX_LONG
      requires forall j :: 4 <= j < 8 ==> outputs[j].Valid() && outputs[j].Settings() == BaseSettings()
      modifies outputs[4], outputs[5], outputs[6], outputs[7]
      ensures forall j :: 4 <= j < 8 ==> outputs[j].Valid() && outputs[j].Settings() == DefaultSettings(j, word)
    {
      SetupChannelDefault(4, word);
      SetupChannelDefault(5, word);
      SetupChannelDefault(6, word);
      SetupChannelDefault(7, word);
      forall j | 4 <= j < 8
        ensures outputs[j].Valid() && outputs[j].Settings() == DefaultSettings(j, word)
      {
        if j == 4 {} else if j == 5 {} else if j == 6 {} else {}
      }
    }

    /** The lines of setupDefaultOutputs that set up channel k. */
    method SetupChannelDefault(k: nat, word: nat)
      requires Allocated() && k < NUM_OUTPUTS && word < MAX_LONG
      requires outputs[k].Valid() && outputs[k].Settings() == BaseSettings()
      modifies outputs[k]
      ensures outputs[k].Valid() && outputs[k].Settings() == DefaultSettings(k, word)
    {
      if k == 0 {
        SetupChannel(0, CLOCK, CLOCK_1x4, CLOCK_1x8);
      } else if k == 1 {
        SetupDelayed(1, CLOCK_1x4, CLOCK_1x8, CLOCK_1x8);
      } else if k == 2 {
        SetupChannel(2, CLOCK, CLOCK_1x8, CLOCK_1x16);
      } else if k == 3 {
        SetupChannel(3, CLOCK, CLOCK_1x16, CLOCK_1x128);
      } else if k == 4 {
        SetupPattern(4, CLOCK_1x8, DEFAULT_EUCLIDEAN_STEPS as uint8, 8, word);
        DefaultRhythm8();
      } else if k == 5 {
        SetupPattern(5, CLOCK_1x16, DEFAULT_EUCLIDEAN_STEPS as uint8, 11, word);
        DefaultRhythm11();
      } else if k == 6 {
        SetupVoltage(6, CLOCK_1x1, 4, word);
      } else {
        SetupChannel(7, SINE, CLOCK_2x1, CLOCK_2x1);
      }
    }

    /** The loop of setupDefaultOutputs over all eight channels. */
    method SetupCommonDefaults(word: nat)
      requires Allocated() && word < MAX_LONG
      requires forall i :: 0 <= i < NUM_OUTPUTS ==>
        outputs[i].Valid() && outputs[i].sequence == 0 && outputs[i].sequenceB == 0
      modifies outputs
      ensures forall i :: 0 <= i < NUM_OUTPUTS ==>
        && outputs[i].Valid()
        && outputs[i].Settings() == BaseSettings()
    {
      var i := 0;
      while i < NUM_OUTPUTS
        invariant 0 <= i <= NUM_OUTPUTS
        invariant forall j :: 0 <= j < NUM_OUTPUTS ==>
          outputs[j].Valid() && outputs[j].sequence == 0 && outputs[j].sequenceB == 0
        invariant forall j :: 0 <= j < i ==> outputs[j].Settings() == BaseSettings()
      {
        label LoopHead:
        var o := outputs[i];
        SetupBase(o, word);
        forall j | 0 <= j < NUM_OUTPUTS && j != i
          ensures outputs[j].Valid() && outputs[j].sequence == 0 && outputs[j].sequenceB == 0
          ensures outputs[j].Settings() == old@LoopHead(outputs[j].Settings())
        {
          assert outputs[j] != o;
        }
        i := i + 1;
      }
    }

    /** The body of that loop: the setter calls that give one channel the
        base settings. */
    method SetupBase(o: Output, word: nat)
      requires o.Valid() && o.sequence == 0 && o.sequenceB == 0 && word < MAX_LONG
      modifies o
      ensures o.Valid() && o.sequence == 0 && o.sequenceB == 0
      ensures o.Settings() == BaseSettings()
    {
      SetupBaseParameters(o);
      o.GenerateSequence(DEFAULT_SEQUENCE_LENGTH as uint8, word, 0, [], []);
    }

    /** The setter calls of that loop body before generateSequence. */
    method SetupBaseParameters(o: Output)
      requires o.Valid()
      modifies o
      ensures o.Valid() && o.sequence == old(o.sequence) && o.sequenceB == old(o.sequenceB)
      ensures o.Settings() == BaseSettings().(sequence := o.sequence, sequenceB := o.sequenceB,
        length := o.sequenceLength)
    {
      o.SetOutputType(CLOCK);
      o.SetClockLength(CLOCK_1x4);
      o.SetGateLength(CLOCK_1x32);
      o.SetStartDelayLength(NO_CLOCK);
      o.SetEuclideanSteps(DEFAULT_EUCLIDEAN_STEPS as uint8);
      o.SetRandomTriggerProbability(DEFAULT_RANDOM_TRIGGER_PROBABILITY as uint8);
    }

    /** The setOutputType, setClockLength, setGateLength calls of one default. */
    method SetupChannel(k: nat, t: uint8, c: uint8, g: uint8)
      requires Allocated() && k < NUM_OUTPUTS && outputs[k].Valid()
      requires c <= NUM_CLOCKS && g <= NUM_CLOCKS
      requires outputs[k].Settings() == BaseSettings()
      modifies outputs[k]
      ensures outputs[k].Valid()
      ensures outputs[k].Settings() == BaseSettings().(kind := t, clock := c,
        gate := if t == EUCLIDEAN || t == RANDOM_TRIGGERS then CLOCK_1x256 else g)
    {
      outputs[k].SetOutputType(t);
      outputs[k].SetClockLength(c);
      outputs[k].SetGateLength(g);
    }

    /** The delayed clock default of channel 1. */
    method SetupDelayed(k: nat, c: uint8, g: uint8, d: uint8)
      requires Allocated() && k < NUM_OUTPUTS && outputs[k].Valid()
      requires c <= NUM_CLOCKS && g <= NUM_CLOCKS && d <= NUM_CLOCKS
      requires outputs[k].Settings() == BaseSettings()
      modifies outputs[k]
      ensures outputs[k].Valid()
      ensures outputs[k].Settings() == BaseSettings().(clock := c, gate := g, delay := d)
    {
      SetupChannel(k, CLOCK, c, g);
      outputs[k].SetStartDelayLength(d);
    }

    /** The Euclidean defaults of channels 4 and 5: `steps` pulses over `len`. */
    method SetupPattern(k: nat, c: uint8, steps: uint8, len: uint8, word: nat)
      requires Allocated() && k < NUM_OUTPUTS && outputs[k].Valid()
      requires c <= NUM_CLOCKS && word < MAX_LONG
      requires outputs[k].Settings() == BaseSettings()
      modifies outputs[k]
      ensures outputs[k].Valid()
      ensures outputs[k].Settings() == BaseSettings().(kind := EUCLIDEAN, clock := c,
        gate := CLOCK_1x256, steps := steps, sequence := EuclideanPattern(steps, len, steps), length := len)
    {
      var o := outputs[k];
      o.SetOutputType(EUCLIDEAN);
      o.SetClockLength(c);
      o.SetGateLength(CLOCK_1x128);
      o.SetEuclideanSteps(steps);
      o.SetSequenceLength(len);
      assert o.Settings() == BaseSettings().(kind := EUCLIDEAN, clock := c,
        gate := CLOCK_1x256, steps := steps, length := len);
      o.GenerateSequence(len, word, 0, [], []);
    }

    /** The voltage default of channel 6: a random pattern of `len` bytes. */
    method SetupVoltage(k: nat, c: uint8, len: uint8, word: nat)
      requires Allocated() && k < NUM_OUTPUTS && outputs[k].Valid()
      requires c <= NUM_CLOCKS && 0 < len <= 32 && word < MAX_LONG
      requires outputs[k].Settings() == BaseSettings()
      modifies outputs[k]
      ensures outputs[k].Valid()
      ensures outputs[k].Settings() == BaseSettings().(kind := VOLTAGE, clock := c,
        gate := c, sequence := Wrap16(word), length := len)
    {
      SetupChannel(k, VOLTAGE, c, c);
      outputs[k].SetSequenceLength(len);
      outputs[k].GenerateSequence(len, word, 0, [], []);
    }

    /** updateSwingTable() */
    method UpdateSwingTable()
      requires Allocated()
      modifies swingTable
      ensures swingTable[..] == SwingTable(swing)
    {
      swingTable[0] := 0;
      swingTable[1] := swing / 16;
      swingTable[2] := swing / 8;
      swingTable[3] := swing / 4;
      swingTable[4] := swing / 2;
      swingTable[5] := swing;
      ghost var raw := RawSwingTable(swing);
      assert swingTable[..] == raw;
      if swing > 0 {
        var i := 0;
        while i < CLOCK_LENGTH_SWINGABLE_LIMIT
          invariant 0 <= i <= CLOCK_LENGTH_SWINGABLE_LIMIT
          invariant forall j :: 0 <= j < i ==> swingTable[j] == AtLeastOne(raw[j])
          invariant forall j :: i <= j < CLOCK_LENGTH_SWINGABLE_LIMIT ==> swingTable[j] == raw[j]
        {
          if swingTable[i] < 1 {
            swingTable[i] := 1;
          }
          i := i + 1;
        }
        assert swingTable[..] == SwingTable(swing);
      }
    }

    /** resetOutput(o): restart channel k and schedule its first event from
        the current tick. */
    method ResetOutput(k: nat, level: nat)
      requires Allocated() && k < NUM_OUTPUTS && outputs[k].Valid()
      requires interruptCounter < INTERRUPT_COUNTER_LIMIT && level < 255
      modifies outputs[k]
      ensures outputs[k].Valid() && outputs[k].Settings() == old(outputs[k].Settings())
      ensures Rescheduled(old(outputs[k].State()), outputs[k].State(), interruptCounter, level)
    {
      var o := outputs[k];
      RestartOutput(o, level);
      ScheduleFirstEvent(o, interruptCounter);
    }

    /** The first half of resetOutput: the restart and the gate times. */
    method RestartOutput(o: Output, level: nat)
      requires o.Valid() && level < 255
      modifies o
      ensures o.Valid() && o.Settings() == old(o.Settings())
      ensures Restarted(old(o.State()), o.State(), level)
      ensures GateTimes(o.tGateOpen, o.tGateClose) == GateTimesFor(o.clockLength, o.gateLength)
    {
      o.Reset(level);
      if o.clockLength < CLOCK_LENGTH_SWINGABLE_LIMIT as uint8 {
        o.SetDefaultGateTimesForSwingable();
      } else {
        o.SetDefaultGateTimes();
      }
    }

    /** The second half of resetOutput: the first event, counted from `now`. */
    method ScheduleFirstEvent(o: Output, now: nat)
      requires o.Valid() && now < INTERRUPT_COUNTER_LIMIT
      modifies o`event, o`eventTime
      ensures o.Valid()
      ensures o.event == FirstEvent(o.outputType, o.startDelayLength)
      ensures o.eventTime == ScheduleAt(now + FirstEventDelay(o.outputType, o.startDelayLength,
        GateTimes(o.tGateOpen, o.tGateClose)))
    {
      if o.startDelayLength > 0 {
        if IsPwmType(o.outputType) {
          o.SetDelayedEvent(PwmEvent, Wrap16(now + PWM_EVENT_PPQN));
        } else {
          o.SetDelayedEvent(GateOpen, Wrap16(now));
        }
      } else {
        if IsPwmType(o.outputType) {
          o.SetPwmEvent(Wrap16(now + 1));
        } else {
          o.SetGateCloseEvent(Wrap16(now));
        }
      }
    }

    /** resetOutputs(): every channel, in order. */
    method ResetOutputs(levels: seq<nat>)
      requires Allocated() && Levels(levels) && interruptCounter < INTERRUPT_COUNTER_LIMIT
      requires forall j :: 0 <= j < NUM_OUTPUTS ==> outputs[j].Valid()
      modifies outputs
      ensures AllRescheduled(interruptCounter, levels)
      ensures forall j :: 0 <= j < NUM_OUTPUTS ==> outputs[j].Valid()
      ensures forall j :: 0 <= j < NUM_OUTPUTS && SettingsValid(outputs[j].Settings(), j) ==>
        StateValid(outputs[j].State(), j)
    {
      var i := 0;
      while i < NUM_OUTPUTS
        invariant 0 <= i <= NUM_OUTPUTS
        invariant forall j :: 0 <= j < NUM_OUTPUTS ==>
          outputs[j].Valid() && outputs[j].Settings() == old(outputs[j].Settings())
        invariant forall j :: 0 <= j < i ==>
          Rescheduled(old(outputs[j].State()), outputs[j].State(), interruptCounter, levels[j])
        invariant forall j :: i <= j < NUM_OUTPUTS ==> outputs[j].State() == old(outputs[j].State())
      {
        ResetOutput(i, levels[i]);
        i := i + 1;
      }
      forall j | 0 <= j < NUM_OUTPUTS && SettingsValid(outputs[j].Settings(), j)
        ensures StateValid(outputs[j].State(), j)
      {
        RescheduledKeepsValid(old(outputs[j].State()), outputs[j].State(), interruptCounter, levels[j], j);
      }
    }

    /** clockStopped(): the counter back to 0 and every channel restarted. */
    method ClockStopped(levels: seq<nat>)
      requires Valid() && Levels(levels)
      modifies this`interruptCounter, outputs
      ensures Valid() && interruptCounter == 0
      ensures AllRescheduled(0, levels)
    {
      interruptCounter := 0;
      ResetOutputs(levels);
    }

    // -------------------------------------------------------------------
    // The editor
    // -------------------------------------------------------------------

    /** handleButton(): `level` is the draw of random(255) the reset of a
        committed channel takes. */
    method HandleButton(level: nat)
      requires Valid() && level < 255
      modifies this`currentMode, this`currentRow, this`currentOutput, this`outputChangesReadyForCommit
      modifies this`editType, this`editClockLength, this`editGateLength, this`editStartDelayLength
      modifies this`editSequence, this`editSequenceB, this`editRandomTriggerProbability
      modifies this`editEuclideanSteps, this`editSequenceLength
      modifies outputs[currentOutput]
      ensures Valid()
      ensures Editing() == Pressed(old(Editing()), old(outputs[currentRow].Settings()), clockRunning)
      ensures PressCommits(old(Editing()), clockRunning) ==>
        && outputs[currentOutput].Settings() == CommittedSettings(old(outputs[currentOutput].Settings()), old(Edit()))
        && Rescheduled(old(outputs[currentOutput].State()), outputs[currentOutput].State(), interruptCounter, level)
      ensures !PressCommits(old(Editing()), clockRunning) ==> unchanged(outputs[old(currentOutput)])
    {
      match currentMode
      case ModeBpm =>
        SwitchParameter(ModeSwing);
      case ModeSwing =>
        SwitchParameter(ModeBpm);
      case ModeOutputList =>
        ListButton();
      case ModeOutputSettings =>
        NextSettingsRow(level);
    }

    /** The BPM and swing cases of handleButton: the encoder moves on to the
        other parameter. */
    method SwitchParameter(next: Mode)
      requires Valid() && (currentMode == ModeBpm || currentMode == ModeSwing)
      requires next == (if currentMode == ModeBpm then ModeSwing else ModeBpm)
      modifies this`currentMode
      ensures Valid()
      ensures Editing() == Pressed(old(Editing()), old(outputs[currentRow].Settings()), clockRunning)
    {
      currentMode := next;
    }

    /** The list case of handleButton: a pending edit blocks the page. */
    method ListButton()
      requires Valid() && currentMode == ModeOutputList
      modifies this`currentMode, this`currentRow, this`currentOutput
      modifies this`editType, this`editClockLength, this`editGateLength, this`editStartDelayLength
      modifies this`editSequence, this`editSequenceB, this`editRandomTriggerProbability
      modifies this`editEuclideanSteps, this`editSequenceLength
      ensures Valid()
      ensures Editing() == Pressed(old(Editing()), old(outputs[currentRow].Settings()), clockRunning)
    {
      if !outputChangesReadyForCommit {
        OpenSettings();
      }
    }

    /** The settings case of handleButton: the next row, or past the page's
        last row back to the list. */
    method NextSettingsRow(level: nat)
      requires Valid() && currentMode == ModeOutputSettings && level < 255
      modifies this`currentMode, this`currentRow, this`outputChangesReadyForCommit, this`editGateLength
      modifies outputs[currentOutput]
      ensures Valid()
      ensures Editing() == Pressed(old(Editing()), old(outputs[currentRow].Settings()), clockRunning)
      ensures PressCommits(old(Editing()), clockRunning) ==>
        && outputs[currentOutput].Settings() == CommittedSettings(old(outputs[currentOutput].Settings()), old(Edit()))
        && Rescheduled(old(outputs[currentOutput].State()), outputs[currentOutput].State(), interruptCounter, level)
      ensures !PressCommits(old(Editing()), clockRunning) ==> unchanged(outputs[old(currentOutput)])
    {
      var row := Byte(currentRow + 1);
      if LeavesSettings(editType, row) {
        LeaveSettings(level);
      } else {
        currentRow := row;
      }
    }

    /** The list case of handleButton: the selected channel's settings page
        opens on a copy of its settings. */
    method OpenSettings()
      requires Valid() && currentMode == ModeOutputList && !outputChangesReadyForCommit
      modifies this`currentMode, this`currentRow, this`currentOutput
      modifies this`editType, this`editClockLength, this`editGateLength, this`editStartDelayLength
      modifies this`editSequence, this`editSequenceB, this`editRandomTriggerProbability
      modifies this`editEuclideanSteps, this`editSequenceLength
      ensures Valid()
      ensures Editing() == Editor(ModeOutputSettings, 0, old(currentRow),
        Mirror(outputs[old(currentRow)].Settings()), false)
    {
      currentMode := ModeOutputSettings;
      PrepareOutputSettingsChange();
    }

    /** The settings case of handleButton past the page's last row: back to
        the list on the edited channel, the edit pending while the clock runs
        and committed at once otherwise. */
    method LeaveSettings(level: nat)
      requires Valid() && currentMode == ModeOutputSettings && level < 255
      modifies this`currentMode, this`currentRow, this`outputChangesReadyForCommit, this`editGateLength
      modifies outputs[currentOutput]
      ensures Valid()
      ensures currentMode == ModeOutputList && currentRow == currentOutput
      ensures clockRunning ==>
        outputChangesReadyForCommit && Edit() == old(Edit()) && unchanged(outputs[currentOutput])
      ensures !clockRunning ==>
        && !outputChangesReadyForCommit && Edit() == CommitEdit(old(Edit()))
        && outputs[currentOutput].Settings() == CommittedSettings(old(outputs[currentOutput].Settings()), old(Edit()))
        && Rescheduled(old(outputs[currentOutput].State()), outputs[currentOutput].State(), interruptCounter, level)
    {
      currentMode := ModeOutputList;
      currentRow := currentOutput;
      if clockRunning {
        outputChangesReadyForCommit := true;
      } else {
        CommitOutputSettingsChange(level);
      }
    }

    /** handleButtonLongPress() */
    method HandleButtonLongPress()
      requires Valid()
      modifies this`currentMode, this`currentRow
      ensures Valid()
      ensures Editing() == LongPressed(old(Editing()))
    {
      match currentMode
      case ModeBpm =>
        currentMode := ModeOutputList;
        currentRow := 0;
      case ModeSwing =>
        currentMode := ModeOutputList;
        currentRow := 0;
      case ModeOutputList =>
        currentMode := ModeBpm;
      case ModeOutputSettings =>
        currentRow := Byte(currentRow - 1);
        if currentRow == 255 {
          currentMode := ModeOutputList;
          currentRow := currentOutput;
        }
    }

    /** handleRotary(): one encoder step, clockwise when `increment`.  `word`
        and `rollsA`/`rollsB` are the draws of random(MAX_LONG) and
        random(100) a regenerated preview takes, `levels` the draws of
        random(255) for the resets of a swing commit. */
    method HandleRotary(increment: bool, word: nat, rollsA: seq<nat>, rollsB: seq<nat>, levels: seq<nat>)
      requires Valid() && word < MAX_LONG && Rolls(rollsA, 16) && Rolls(rollsB, 16) && Levels(levels)
      modifies this`bpm, this`swing, swingTable, this`swingChangeReadyForCommit, outputs, this`currentRow
      modifies this`editType, this`editClockLength, this`editGateLength, this`editStartDelayLength
      modifies this`editSequence, this`editSequenceB, this`editRandomTriggerProbability
      modifies this`editEuclideanSteps, this`editSequenceLength
      ensures Valid()
      ensures var m := if increment then 1 else -1;
        && bpm == (if currentMode == ModeBpm then StepBpm(old(bpm), m) else old(bpm))
        && swing == (if currentMode == ModeSwing then StepUpTo(old(swing), m, MAX_SWING) else old(swing))
        && currentRow == (if currentMode == ModeOutputList then ListRowStepped(old(currentRow), m) else old(currentRow))
        && Edit() == (if currentMode == ModeOutputSettings then
             ValueChanged(old(Edit()), currentRow, currentOutput, m,
               outputs[currentOutput].randomTriggerProbability, word, rollsA, rollsB)
           else old(Edit()))
      ensures currentMode == ModeSwing ==> swingChangeReadyForCommit == clockRunning
      ensures currentMode == ModeSwing && !clockRunning ==> AllRescheduled(interruptCounter, levels)
      ensures currentMode != ModeSwing ==> swingChangeReadyForCommit == old(swingChangeReadyForCommit)
      ensures currentMode != ModeSwing || clockRunning ==> forall j :: 0 <= j < NUM_OUTPUTS ==>
        outputs[j].State() == old(outputs[j].State())
    {
      var modifier := if increment then 1 else -1;
      if currentMode == ModeBpm || currentMode == ModeSwing {
        RotaryParameter(modifier, word, rollsA, rollsB, levels);
      } else {
        RotaryEditor(modifier, word, rollsA, rollsB, levels);
      }
    }

    /** The BPM and swing cases of handleRotary. */
    method RotaryParameter(m: int, word: nat, rollsA: seq<nat>, rollsB: seq<nat>, levels: seq<nat>)
      requires Valid() && IsModifier(m) && Levels(levels)
      requires currentMode == ModeBpm || currentMode == ModeSwing
      modifies this`bpm, this`swing, swingTable, this`swingChangeReadyForCommit, outputs
      ensures Valid()
      ensures && bpm == (if currentMode == ModeBpm then StepBpm(old(bpm), m) else old(bpm))
        && swing == (if currentMode == ModeSwing then StepUpTo(old(swing), m, MAX_SWING) else old(swing))
      ensures currentMode == ModeSwing ==> swingChangeReadyForCommit == clockRunning
      ensures currentMode == ModeSwing && !clockRunning ==> AllRescheduled(interruptCounter, levels)
      ensures currentMode != ModeSwing ==> swingChangeReadyForCommit == old(swingChangeReadyForCommit)
      ensures currentMode != ModeSwing || clockRunning ==> forall j :: 0 <= j < NUM_OUTPUTS ==>
        outputs[j].State() == old(outputs[j].State())
    {
      if currentMode == ModeBpm {
        BpmChange(m);
      } else {
        SwingChange(m, levels);
      }
    }

    /** The list and settings cases of handleRotary: the list row steps
        within [0, 7], and the settings page steps the edited row. */
    method RotaryEditor(m: int, word: nat, rollsA: seq<nat>, rollsB: seq<nat>, levels: seq<nat>)
      requires Valid() && IsModifier(m) && word < MAX_LONG && Rolls(rollsA, 16) && Rolls(rollsB, 16)
      requires currentMode == ModeOutputList || currentMode == ModeOutputSettings
      modifies this`currentRow
      modifies this`editType, this`editClockLength, this`editGateLength, this`editStartDelayLength
      modifies this`editSequence, this`editSequenceB, this`editRandomTriggerProbability
      modifies this`editEuclideanSteps, this`editSequenceLength
      ensures Valid()
      ensures && currentRow == (if currentMode == ModeOutputList then ListRowStepped(old(currentRow), m) else old(currentRow))
        && Edit() == (if currentMode == ModeOutputSettings then
             ValueChanged(old(Edit()), currentRow, currentOutput, m,
               outputs[currentOutput].randomTriggerProbability, word, rollsA, rollsB)
           else old(Edit()))
    {
      if currentMode == ModeOutputList {
        var row := Byte(currentRow + m);
        if row == 255 {
          row := 0;
        } else if row > 7 {
          row := 7;
        }
        currentRow := row;
      } else {
        OutputSettingsValueChange(m, word, rollsA, rollsB);
      }
    }

    /** bpmChange(): the new BPM; the timer it sets is not part of this model. */
    method BpmChange(m: int)
      requires Valid() && IsModifier(m)
      modifies this`bpm
      ensures Valid() && bpm == StepBpm(old(bpm), m)
    {
      var b := Byte(bpm + m);
      if b < MIN_BPM as uint8 {
        b := MIN_BPM as uint8;
      } else if b > MAX_BPM as uint8 {
        b := MAX_BPM as uint8;
      }
      bpm := b;
    }

    /** swingChange(): the new swing and its table, committed at once when
        the clock is stopped and at the next bar otherwise. */
    method SwingChange(m: int, levels: seq<nat>)
      requires Valid() && IsModifier(m) && Levels(levels)
      modifies this`swing, swingTable, this`swingChangeReadyForCommit, outputs
      ensures Valid()
      ensures swing == StepUpTo(old(swing), m, MAX_SWING) && swingTable[..] == SwingTable(swing)
      ensures swingChangeReadyForCommit == clockRunning
      ensures !clockRunning ==> AllRescheduled(interruptCounter, levels)
      ensures clockRunning ==> forall j :: 0 <= j < NUM_OUTPUTS ==>
        outputs[j].State() == old(outputs[j].State())
    {
      var v := Byte(swing + m);
      if v == 255 {
        v := 0;
      } else if v > MAX_SWING as uint8 {
        v := MAX_SWING as uint8;
      }
      swing := v;
      UpdateSwingTable();
      swingChangeReadyForCommit := true;
      if !clockRunning {
        CommitSwingChange(levels);
      }
    }

    /** commitSwingChange(): every channel restarted on the new table. */
    method CommitSwingChange(levels: seq<nat>)
      requires Valid() && Levels(levels)
      modifies this`swingChangeReadyForCommit, outputs
      ensures Valid() && !swingChangeReadyForCommit
      ensures AllRescheduled(interruptCounter, levels)
    {
      swingChangeReadyForCommit := false;
      ResetOutputs(levels);
    }

    /** outputSettingsValueChange(): rows 0 and 1 step the type and the
        clock, then the rows of the edited type follow. */
    method OutputSettingsValueChange(m: int, word: nat, rollsA: seq<nat>, rollsB: seq<nat>)
      requires Valid() && currentMode == ModeOutputSettings
      requires IsModifier(m) && word < MAX_LONG && Rolls(rollsA, 16) && Rolls(rollsB, 16)
      modifies this`editType, this`editClockLength, this`editGateLength, this`editStartDelayLength
      modifies this`editSequence, this`editSequenceB, this`editRandomTriggerProbability
      modifies this`editEuclideanSteps, this`editSequenceLength
      ensures Valid()
      ensures Edit() == ValueChanged(old(Edit()), currentRow, currentOutput, m,
        outputs[currentOutput].randomTriggerProbability, word, rollsA, rollsB)
    {
      StepEditedRow(m, word, rollsA, rollsB);
    }

    /** The two halves of outputSettingsValueChange on the edit fields, which
        stay within range. */
    method StepEditedRow(m: int, word: nat, rollsA: seq<nat>, rollsB: seq<nat>)
      requires Allocated() && currentOutput < NUM_OUTPUTS && EditRanges(Edit(), currentOutput as nat)
      requires outputs[currentOutput].randomTriggerProbability <= 100
      requires IsModifier(m) && word < MAX_LONG && Rolls(rollsA, 16) && Rolls(rollsB, 16)
      modifies this`editType, this`editClockLength, this`editGateLength, this`editStartDelayLength
      modifies this`editSequence, this`editSequenceB, this`editRandomTriggerProbability
      modifies this`editEuclideanSteps, this`editSequenceLength
      ensures EditRanges(Edit(), currentOutput as nat)
      ensures Edit() == ValueChanged(old(Edit()), currentRow, currentOutput, m,
        outputs[currentOutput].randomTriggerProbability, word, rollsA, rollsB)
    {
      CommonRowChange(m);
      TypeRowsChange(m, word, rollsA, rollsB);
      ValueChangedInRange(old(Edit()), currentRow, currentOutput as nat, m,
        outputs[currentOutput].randomTriggerProbability, word, rollsA, rollsB);
    }

    /** The type and clock rows of outputSettingsValueChange. */
    method CommonRowChange(m: int)
      requires IsModifier(m)
      modifies this`editType, this`editClockLength, this`editGateLength
      ensures Edit() == CommonRowEdited(old(Edit()), currentRow, currentOutput as nat, m)
    {
      if currentRow == 0 {
        var t := Byte(editType + m);
        if t == 8 {
          t := 7;
        }
        if t == 0 {
          t := 1;
        }
        if currentOutput < 4 && t > 3 {
          t := 3;
        }
        editType := t;
      } else if currentRow == 1 {
        var c := Byte(editClockLength + m);
        if c > NUM_CLOCKS as uint8 {
          c := NUM_CLOCKS as uint8;
        }
        if c == 0 {
          c := 1;
        }
        editClockLength := c;
        if editType == VOLTAGE {
          editGateLength := c;
        }
      }
    }

    /** The dispatch of outputSettingsValueChange to the rows of the edited type. */
    method TypeRowsChange(m: int, word: nat, rollsA: seq<nat>, rollsB: seq<nat>)
      requires Allocated() && currentOutput < NUM_OUTPUTS
      requires IsModifier(m) && word < MAX_LONG && Rolls(rollsA, 16) && Rolls(rollsB, 16)
      modifies this`editGateLength, this`editStartDelayLength
      modifies this`editSequence, this`editSequenceB, this`editRandomTriggerProbability
      modifies this`editEuclideanSteps, this`editSequenceLength
      ensures Edit() == TypeRowsEdited(old(Edit()), currentRow, m,
        outputs[currentOutput].randomTriggerProbability, word, rollsA, rollsB)
    {
      if editType == EUCLIDEAN {
        ValueChangeEuclidean(m);
      } else if editType == RANDOM_TRIGGERS {
        ValueChangeRandomTriggers(m, rollsA, rollsB);
      } else if editType == VOLTAGE {
        ValueChangeVoltage(m, word);
      } else {
        ValueChangeGateSineSaw(m);
      }
    }

    /** outputSettingsValueChangeEuclidean() */
    method ValueChangeEuclidean(m: int)
      requires Allocated() && currentOutput < NUM_OUTPUTS && IsModifier(m)
      modifies this`editSequence, this`editEuclideanSteps, this`editSequenceLength
      ensures Edit() == EuclideanRowEdited(old(Edit()), currentRow, m)
    {
      if currentRow == 2 {
        var v := Byte(editSequenceLength + m);
        if v > MAX_EUCLIDEAN_LENGTH as uint8 {
          v := MAX_EUCLIDEAN_LENGTH as uint8;
        }
        if v == 0 {
          v := 1;
        }
        editSequenceLength := v;
      } else if currentRow == 3 {
        var v := Byte(editEuclideanSteps + m);
        if v > MAX_EUCLIDEAN_LENGTH as uint8 {
          v := MAX_EUCLIDEAN_LENGTH as uint8;
        }
        if v == 0 {
          v := 1;
        }
        editEuclideanSteps := v;
      }
      editSequence := outputs[currentOutput].GenerateTemporaryEuclideanSequence(editEuclideanSteps, editSequenceLength);
    }

    /** outputSettingsValueChangeRandomTriggers(): both halves of the preview
        are drawn with the channel's current probability. */
    method ValueChangeRandomTriggers(m: int, rollsA: seq<nat>, rollsB: seq<nat>)
      requires Allocated() && currentOutput < NUM_OUTPUTS && IsModifier(m)
      requires Rolls(rollsA, 16) && Rolls(rollsB, 16)
      modifies this`editSequence, this`editSequenceB, this`editRandomTriggerProbability, this`editSequenceLength
      ensures Edit() == TriggerRowEdited(old(Edit()), currentRow, m,
        outputs[currentOutput].randomTriggerProbability, rollsA, rollsB)
    {
      if currentRow == 2 {
        var v := Byte(editRandomTriggerProbability + m * RANDOM_TRIGGER_PROBABILITY_CHANGE_STEP_SIZE);
        if v > 250 {
          v := 0;
        }
        if v > 100 {
          v := 100;
        }
        editRandomTriggerProbability := v;
      } else if currentRow == 3 {
        var v := Byte(editSequenceLength + m);
        if v == 1 {
          v := 2;
        }
        if v > 32 {
          v := 32;
        }
        editSequenceLength := v;
      }
      var o := outputs[currentOutput];
      editSequence := o.GenerateTemporarySequence(RANDOM_TRIGGERS, editSequenceLength, 0, rollsA);
      editSequenceB := o.GenerateTemporarySequence(RANDOM_TRIGGERS, editSequenceLength, 0, rollsB);
    }

    /** outputSettingsValueChangeVoltage(): `word` is the draw the preview takes. */
    method ValueChangeVoltage(m: int, word: nat)
      requires Allocated() && currentOutput < NUM_OUTPUTS && IsModifier(m) && word < MAX_LONG
      modifies this`editSequence, this`editSequenceLength
      ensures Edit() == VoltageRowEdited(old(Edit()), currentRow, m, word)
    {
      if currentRow == 2 {
        var v := Byte(editSequenceLength + m);
        if v == 255 {
          v := 0;
        }
        if v == MAX_RANDOM_VOLTAGE_SEQUENCE_LENGTH as uint8 + 1 {
          v := MAX_RANDOM_VOLTAGE_SEQUENCE_LENGTH as uint8;
        }
        editSequenceLength := v;
      }
      editSequence := outputs[currentOutput].GenerateTemporarySequence(VOLTAGE, editSequenceLength, word, []);
    }

    /** outputSettingsValueChangeGateSineSaw() */
    method ValueChangeGateSineSaw(m: int)
      requires IsModifier(m)
      modifies this`editGateLength, this`editStartDelayLength
      ensures Edit() == GateRowEdited(old(Edit()), currentRow, m)
    {
      if currentRow == 2 {
        var v := Byte(editGateLength + m);
        if v > NUM_CLOCKS as uint8 {
          v := NUM_CLOCKS as uint8;
        }
        if v == 0 {
          v := 1;
        }
        editGateLength := v;
      } else if currentRow == 3 {
        var v := Byte(editStartDelayLength + m);
        if v == 255 {
          v := 0;
        }
        if v > NUM_CLOCKS as uint8 {
          v := NUM_CLOCKS as uint8;
        }
        editStartDelayLength := v;
      }
    }

    /** prepareOutputSettingsChange(), with the two patterns copied as well:
        the edit starts from the selected channel's settings. */
    method PrepareOutputSettingsChange()
      requires Allocated() && currentRow < NUM_OUTPUTS
      requires SettingsValid(outputs[currentRow].Settings(), currentRow as nat)
      modifies this`currentRow, this`currentOutput
      modifies this`editType, this`editClockLength, this`editGateLength, this`editStartDelayLength
      modifies this`editSequence, this`editSequenceB, this`editRandomTriggerProbability
      modifies this`editEuclideanSteps, this`editSequenceLength
      ensures currentOutput == old(currentRow) && currentRow == 0
      ensures Edit() == Mirror(outputs[currentOutput].Settings())
      ensures EditRanges(Edit(), currentOutput)
    {
      currentOutput := currentRow;
      currentRow := 0;
      var o := outputs[currentOutput];
      editType := o.outputType;
      editClockLength := o.clockLength;
      editGateLength := o.gateLength;
      editStartDelayLength := o.startDelayLength;
      editEuclideanSteps := o.euclideanSteps;
      editSequenceLength := o.sequenceLength;
      editRandomTriggerProbability := o.randomTriggerProbability;
      editSequence := o.sequence;
      editSequenceB := o.sequenceB;
      MirrorInRange(o.Settings(), currentOutput as nat);
    }

    /** prepareOutputSettingsChange() as the firmware has it: editSequence
        and editSequenceB keep what the last edit left in them. */
    method PrepareOutputSettingsChangeAsWritten()
      requires Allocated() && currentRow < NUM_OUTPUTS
      modifies this`currentRow, this`currentOutput
      modifies this`editType, this`editClockLength, this`editGateLength, this`editStartDelayLength
      modifies this`editRandomTriggerProbability, this`editEuclideanSteps, this`editSequenceLength
      ensures currentOutput == old(currentRow) && currentRow == 0
      ensures Edit() == StaleMirror(outputs[currentOutput].Settings(), old(Edit()))
    {
      currentOutput := currentRow;
      currentRow := 0;
      var o := outputs[currentOutput];
      editType := o.outputType;
      editClockLength := o.clockLength;
      editGateLength := o.gateLength;
      editStartDelayLength := o.startDelayLength;
      editEuclideanSteps := o.euclideanSteps;
      editSequenceLength := o.sequenceLength;
      editRandomTriggerProbability := o.randomTriggerProbability;
    }

    /** commitOutputSettingsChange(): the edit written into the edited
        channel, which is then reset from the current tick. */
    method CommitOutputSettingsChange(level: nat)
      requires Valid() && level < 255
      requires EditRanges(Edit(), currentOutput)
      modifies this`outputChangesReadyForCommit, this`editGateLength, outputs[currentOutput]
      ensures Valid()
      ensures !outputChangesReadyForCommit && Edit() == CommitEdit(old(Edit()))
      ensures outputs[currentOutput].Settings() == CommittedSettings(old(outputs[currentOutput].Settings()), old(Edit()))
      ensures Rescheduled(old(outputs[currentOutput].State()), outputs[currentOutput].State(), interruptCounter, level)
    {
      var k := currentOutput as nat;
      var o := outputs[k];
      outputChangesReadyForCommit := false;
      if editType == EUCLIDEAN || editType == RANDOM_TRIGGERS {
        editGateLength := CLOCK_1x128;
      }
      CommitKeepsValid(o.Settings(), old(Edit()), k);
      assert EditorValid();
      CommitInto(o, Edit(), k, interruptCounter, level);
      forall i | 0 <= i < NUM_OUTPUTS
        ensures ChannelValid(outputs[i], i)
      {
        if i != k {
          assert outputs[i] != o;
        }
      }
    }

    /** The commit of edit e into channel k, o, and its resetOutput at tick `now`. */
    method CommitInto(o: Output, e: EditState, k: nat, now: nat, level: nat)
      requires ChannelValid(o, k) && EditRanges(e, k) && now < INTERRUPT_COUNTER_LIMIT && level < 255
      requires e.kind == EUCLIDEAN || e.kind == RANDOM_TRIGGERS ==> e.gate == CLOCK_1x128
      modifies o
      ensures ChannelValid(o, k)
      ensures o.Settings() == CommittedSettings(old(o.Settings()), e)
      ensures Rescheduled(old(o.State()), o.State(), now, level)
    {
      CommitKeepsValid(o.Settings(), e, k);
      WriteSettings(o, e);
      ghost var written := o.State();
      RestartOutput(o, level);
      ScheduleFirstEvent(o, now);
      assert Restarted(written, o.State(), level);
      RescheduledKeepsValid(old(o.State()), o.State(), now, level, k);
    }

    /** The setter calls of commitOutputSettingsChange. */
    method WriteSettings(o: Output, e: EditState)
      requires o.Valid() && e.clock <= NUM_CLOCKS && e.gate <= NUM_CLOCKS && e.delay <= NUM_CLOCKS
      requires e.kind == EUCLIDEAN || e.kind == RANDOM_TRIGGERS ==> e.gate == CLOCK_1x128
      modifies o
      ensures o.Valid()
      ensures o.Settings() == CommittedSettings(old(o.Settings()), e)
      ensures o.sequenceIndex == old(o.sequenceIndex)
      ensures !IsPwmType(e.kind) ==> o.pwmPpqnCounter == old(o.pwmPpqnCounter)
    {
      o.SetOutputType(e.kind);
      o.SetClockLength(e.clock);
      o.SetGateLength(e.gate);
      if e.kind != VOLTAGE {
        o.SetStartDelayLength(e.delay);
      }
      if e.kind == EUCLIDEAN {
        o.SetEuclideanSteps(e.steps);
      } else if e.kind == RANDOM_TRIGGERS {
        o.SetRandomTriggerProbability(e.probability);
      }
      if e.kind == EUCLIDEAN || e.kind == VOLTAGE {
        o.SetSequence(e.sequence);
        o.SetSequenceLength(e.length);
      } else if e.kind == RANDOM_TRIGGERS {
        o.SetSequences(e.sequence, e.sequenceB);
        o.SetSequenceLength(e.length);
      }
    }
  }
}
