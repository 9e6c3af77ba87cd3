/**
 * Timing constants, settings limits, enumerations and the note-length
 * table of the clock module (Resources.h).
 *
 * The firmware runs on an 8-bit AVR, where `int` is 16 bits wide.  The
 * subset types below give every field the width it has there.
 */
module Resources {

  type uint8 = x: int | 0 <= x < 0x100
  type uint16 = x: int | 0 <= x < 0x1_0000

  /** Settings limits */
  const MAX_BPM: nat := 200
  const MIN_BPM: nat := 30
  const MAX_SWING: nat := 30
  const MAX_EUCLIDEAN_LENGTH: nat := 32
  const MAX_RANDOM_VOLTAGE_SEQUENCE_LENGTH: nat := 32
  const NUM_CLOCKS: nat := 21
  const NUM_TYPES: nat := 8
  const CLOCK_LENGTH_SWINGABLE_LIMIT: nat := 6
  const NUM_OUTPUTS: nat := 8

  /** Settings defaults */
  const DEFAULT_BPM: nat := 100
  const DEFAULT_SWING: nat := 0
  const DEFAULT_SEQUENCE_LENGTH: nat := 8
  const DEFAULT_EUCLIDEAN_STEPS: nat := 5
  const DEFAULT_RANDOM_TRIGGER_PROBABILITY: nat := 50

  /** Timing constants */
  const PPQN: nat := 192
  const INTERRUPT_COUNTER_LIMIT: nat := PPQN * 4 * 64
  const PWM_EVENT_PPQN: nat := 6
  const PPQN_BAR: nat := PPQN * 4

  /** The largest value Arduino's random() is asked for (MAX_LONG in Output.cpp). */
  const MAX_LONG: nat := 2147483647

  /**
   * Note length in ticks, indexed by ClockLength.  `PPQN >> n` is written
   * `PPQN / 2^n` and `PPQN << n` is written `PPQN * 2^n`.  Entries 19 to 25
   * are as the firmware has them: their shifts point the wrong way, so
   * "8/1" is 6 ticks, "12/1" is 18 and "16/1" is 3.
   */
  const CLOCK_LENGTH_TO_PPQN: seq<nat> := [
    /* 0  NO_DELAY */ 0,
    /* 1  1x256    */ PPQN / 64,
    /* 2  1x128    */ PPQN / 32,
    /* 3  1x64     */ PPQN / 16,
    /* 4  1x32     */ PPQN / 8,
    /* 5  1x16     */ PPQN / 4,
    /* 6  1x16D    */ PPQN / 4 + PPQN / 8,
    /* 7  1x8      */ PPQN / 2,
    /* 8  1x8D     */ PPQN / 2 + PPQN / 4,
    /* 9  1x4      */ PPQN,
    /* 10 1x4D     */ PPQN + PPQN / 2,
    /* 11 1x2      */ PPQN * 2,
    /* 12 1x2D     */ PPQN * 2 + PPQN,
    /* 13 1x1      */ PPQN * 4,
    /* 14 1x1D     */ PPQN * 4 + PPQN * 2,
    /* 15 2x1      */ PPQN * 8,
    /* 16 3x1      */ PPQN * 8 + PPQN * 4,
    /* 17 4x1      */ PPQN * 16,
    /* 18 6x1      */ PPQN * 16 + PPQN * 8,
    /* 19 8x1      */ PPQN / 32,
    /* 20 12x1     */ PPQN / 32 + PPQN / 16,
    /* 21 16x1     */ PPQN / 64,
    /* 22 24x1     */ PPQN / 64 + PPQN / 32,
    /* 23 32x1     */ PPQN / 128,
    /* 24 48x1     */ PPQN / 128 + PPQN / 64,
    /* 25 64x1     */ PPQN / 256
  ]

  /** Event */
  datatype Event = NoEvent | GateOpen | GateClose | PwmEvent

  /** OutputType (kept numeric: the editor steps it by +1/-1) */
  const NO_OUTPUT: uint8 := 0
  const CLOCK: uint8 := 1
  const EUCLIDEAN: uint8 := 2
  const RANDOM_TRIGGERS: uint8 := 3
  const SAW: uint8 := 4
  const SAW_INVERTED: uint8 := 5
  const SINE: uint8 := 6
  const VOLTAGE: uint8 := 7

  /** ClockLength (kept numeric: it indexes CLOCK_LENGTH_TO_PPQN and is stepped by the editor) */
  const NO_CLOCK: uint8 := 0
  const CLOCK_1x256: uint8 := 1
  const CLOCK_1x128: uint8 := 2
  const CLOCK_1x64: uint8 := 3
  const CLOCK_1x32: uint8 := 4
  const CLOCK_1x16: uint8 := 5
  const CLOCK_1x16D: uint8 := 6
  const CLOCK_1x8: uint8 := 7
  const CLOCK_1x8D: uint8 := 8
  const CLOCK_1x4: uint8 := 9
  const CLOCK_1x4D: uint8 := 10
  const CLOCK_1x2: uint8 := 11
  const CLOCK_1x2D: uint8 := 12
  const CLOCK_1x1: uint8 := 13
  const CLOCK_1x1D: uint8 := 14
  const CLOCK_2x1: uint8 := 15
  const CLOCK_3x1: uint8 := 16
  const CLOCK_4x1: uint8 := 17
  const CLOCK_6x1: uint8 := 18
  const CLOCK_8x1: uint8 := 19
  const CLOCK_12x1: uint8 := 20
  const CLOCK_16x1: uint8 := 21

  /** Mode of the editor */
  datatype Mode = ModeBpm | ModeSwing | ModeOutputList | ModeOutputSettings

  /** The output types driven through PWM events rather than gate events. */
  predicate IsPwmType(t: uint8) {
    t == SAW || t == SAW_INVERTED || t == SINE || t == VOLTAGE
  }

  /** Ticks of a note length: the table entry at index c. */
  function NoteTicks(c: nat): (r: nat)
    requires c < |CLOCK_LENGTH_TO_PPQN|
    ensures r < INTERRUPT_COUNTER_LIMIT
    ensures r <= PPQN * 24
    ensures c == NO_CLOCK ==> r == 0
    ensures 1 <= c <= NUM_CLOCKS ==> 3 <= r
  {
    TableFacts();
    CLOCK_LENGTH_TO_PPQN[c]
  }

  /** The table has 26 entries, each one below the wrap limit. */
  lemma TableFacts()
    ensures |CLOCK_LENGTH_TO_PPQN| == 26
    ensures NUM_CLOCKS < |CLOCK_LENGTH_TO_PPQN|
    ensures CLOCK_LENGTH_TO_PPQN[0] == 0
    ensures forall i :: 1 <= i <= NUM_CLOCKS ==> 3 <= CLOCK_LENGTH_TO_PPQN[i]
    ensures forall i :: 0 <= i < |CLOCK_LENGTH_TO_PPQN| ==> CLOCK_LENGTH_TO_PPQN[i] <= PPQN * 24 < INTERRUPT_COUNTER_LIMIT
  {
  }

  /** Entries 1 to 18 strictly increase from 3 to 4608. */
  lemma TableIncreasesUpTo6x1(i: nat, j: nat)
    requires 1 <= i < j <= 18
    ensures CLOCK_LENGTH_TO_PPQN[i] < CLOCK_LENGTH_TO_PPQN[j]
    ensures CLOCK_LENGTH_TO_PPQN[1] == 3 && CLOCK_LENGTH_TO_PPQN[18] == 4608
  {
  }

  /** Entries 19 to 21 are 6, 18 and 3: the reachable part of the table is not monotone. */
  lemma LongClocksAsWritten()
    ensures CLOCK_LENGTH_TO_PPQN[CLOCK_8x1] == 6
    ensures CLOCK_LENGTH_TO_PPQN[CLOCK_12x1] == 18
    ensures CLOCK_LENGTH_TO_PPQN[CLOCK_16x1] == 3
    ensures CLOCK_LENGTH_TO_PPQN[CLOCK_16x1] < CLOCK_LENGTH_TO_PPQN[CLOCK_6x1]
  {
  }

  /** The wrap limit is 64 bars, so bar boundaries survive the wrap. */
  lemma TimingConstants()
    ensures INTERRUPT_COUNTER_LIMIT == 49152 && PPQN_BAR == 768
    ensures INTERRUPT_COUNTER_LIMIT % PPQN_BAR == 0
    ensures INTERRUPT_COUNTER_LIMIT < 0x1_0000 < 2 * INTERRUPT_COUNTER_LIMIT
    ensures CLOCK_LENGTH_SWINGABLE_LIMIT == 6
  {
  }
}
