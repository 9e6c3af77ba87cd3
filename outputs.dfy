/**
 * One output channel of the clock module (Output.h, Output.cpp): its
 * settings, its single pending event, the gate durations it derives from
 * the note-length table, and its pattern readers and generators.
 *
 * Calls to Arduino's random(n) are supplied draws whose range the callers
 * guarantee; analogWrite and the pin numbers are not part of this model.
 */
module Outputs {
  import opened Resources
  import opened Bits

  // ---------------------------------------------------------------------
  // Event times
  // ---------------------------------------------------------------------

  /** handleEventTimeOverflow: a 16-bit time brought back below the wrap limit. */
  function HandleEventTimeOverflow(t: uint16): (r: nat)
    ensures r < INTERRUPT_COUNTER_LIMIT
    ensures r % INTERRUPT_COUNTER_LIMIT == t % INTERRUPT_COUNTER_LIMIT
    ensures t < INTERRUPT_COUNTER_LIMIT ==> r == t
  {
    if t >= INTERRUPT_COUNTER_LIMIT then t - INTERRUPT_COUNTER_LIMIT else t
  }

  /** The time the setters schedule for the sum x: the sum is taken in
      16-bit unsigned arithmetic and then passed to handleEventTimeOverflow. */
  function ScheduleAt(x: int): (r: nat)
    ensures r < INTERRUPT_COUNTER_LIMIT
    ensures 0 <= x < WORD ==> r == x % INTERRUPT_COUNTER_LIMIT
  {
    HandleEventTimeOverflow(Wrap16(x))
  }

  /** An event d ticks after `now` lands d ticks further round the
      counter's circle, and never on `now` itself. */
  lemma ScheduleAhead(now: nat, d: nat)
    requires now < INTERRUPT_COUNTER_LIMIT && 1 <= d <= WORD - INTERRUPT_COUNTER_LIMIT
    ensures ScheduleAt(now + d) == (now + d) % INTERRUPT_COUNTER_LIMIT
    ensures ScheduleAt(now + d) != now
  {
  }

  // ---------------------------------------------------------------------
  // Gate times
  // ---------------------------------------------------------------------

  /** The ticks a gate stays open and closed in one clock period. */
  datatype GateTimes = GateTimes(open: uint16, close: uint16)

  /** setDefaultGateTimes: the gate closes after the gate length, one tick
      early when gate and clock are equally long, so the gate still drops. */
  function DefaultGateTimes(clock: nat, gate: nat): (r: GateTimes)
    requires clock < |CLOCK_LENGTH_TO_PPQN| && gate < |CLOCK_LENGTH_TO_PPQN|
    ensures var c, g := NoteTicks(clock), NoteTicks(gate);
      && (g < c ==> r.close == g && r.open == c - g)
      && (1 <= clock <= NUM_CLOCKS && g == c ==> r.close == c - 1 && r.open == 1)
      && (1 <= clock <= NUM_CLOCKS && g <= c ==> r.open + r.close == c && 1 <= r.open)
      && (c < g ==> r.close == g && r.open == WORD - (g - c))
  {
    var c, g := NoteTicks(clock), NoteTicks(gate);
    var close := if g == c then Wrap16(g - 1) else g;
    GateTimes(Wrap16(c - close), close)
  }

  /** setDefaultGateTimesForSwingable: the same split without the early close. */
  function SwingableGateTimes(clock: nat, gate: nat): (r: GateTimes)
    requires clock < |CLOCK_LENGTH_TO_PPQN| && gate < |CLOCK_LENGTH_TO_PPQN|
    ensures var c, g := NoteTicks(clock), NoteTicks(gate);
      && r.close == g
      && (g <= c ==> r.open + r.close == c)
      && (c < g ==> r.open == WORD - (g - c))
  {
    var c, g := NoteTicks(clock), NoteTicks(gate);
    GateTimes(Wrap16(c - g), g)
  }

  /** The split resetOutput chooses: the swingable one for clocks below CLOCK_1x16D. */
  function GateTimesFor(clock: nat, gate: nat): GateTimes
    requires clock < |CLOCK_LENGTH_TO_PPQN| && gate < |CLOCK_LENGTH_TO_PPQN|
  {
    if clock < CLOCK_LENGTH_SWINGABLE_LIMIT then SwingableGateTimes(clock, gate)
    else DefaultGateTimes(clock, gate)
  }

  /** The offset applied to a swung gate-open time. */
  function SwingOffset(swinging: bool, swing: nat): int {
    if swinging then -(swing as int) else swing
  }

  /** The offset identity: the offsets of two consecutive swung periods
      cancel out, and the first after a reset (swinging false) is positive. */
  lemma SwingAlternates(swinging: bool, swing: nat)
    ensures SwingOffset(swinging, swing) + SwingOffset(!swinging, swing) == 0
    ensures SwingOffset(false, swing) == swing
  {
  }

  /** The GATE_OPEN times o1, o2, o3 and GATE_CLOSE times c1, c2 of a
      swingable channel reset at t, as setSwingGateOpenEvent and
      setGateCloseEvent schedule them, while the swing s is no longer than
      the open time.  The first gate opens s ticks late, the second on time
      one clock later, and the third 2 * c after the first: a swung pair of
      periods spans exactly two clocks.  Every sum stays below 2^16, where
      the scheduled time is handleEventTimeOverflow of the sum itself
      (ScheduleWithin16Bits). */
  lemma SwungPairSpansTwoClocks(t: nat, open: nat, close: nat, s: nat,
                                o1: uint16, c1: uint16, o2: uint16, c2: uint16, o3: uint16)
    requires t < INTERRUPT_COUNTER_LIMIT && open + close <= PPQN && s <= open
    requires o1 as int == HandleEventTimeOverflow(t + open + SwingOffset(false, s))
    requires c1 as int == HandleEventTimeOverflow(o1 + close)
    requires o2 as int == HandleEventTimeOverflow(c1 + open + SwingOffset(true, s))
    requires c2 as int == HandleEventTimeOverflow(o2 + close)
    requires o3 as int == HandleEventTimeOverflow(c2 + open + SwingOffset(false, s))
    ensures o1 as int == HandleEventTimeOverflow(t + open + s)
    ensures o2 as int == HandleEventTimeOverflow(t + (open + close) + open)
    ensures o3 as int == HandleEventTimeOverflow(o1 + 2 * (open + close))
  {
  }

  /** Below 2^16 the 16-bit truncation leaves the sum alone, so the
      scheduled time is folded at most once. */
  lemma ScheduleWithin16Bits(x: int)
    requires 0 <= x < WORD
    ensures ScheduleAt(x) == HandleEventTimeOverflow(x)
    ensures ScheduleAt(x) == if x < INTERRUPT_COUNTER_LIMIT then x else x - INTERRUPT_COUNTER_LIMIT
  {
  }

  /** As written, the swung GATE_OPEN for a swing s longer than the open
      time, scheduled at tick t.  When s <= t + open it lands s - open ticks
      behind t, so it is reached only after the counter wraps, L - (s - open)
      ticks later.  When t + open < s the 16-bit difference wraps below 0 and
      one fold leaves WORD - L + t + open - s, a time ahead of t that the
      counter reaches with no wrap. */
  lemma SwungOpenBehind(t: nat, open: nat, s: nat)
    requires t < INTERRUPT_COUNTER_LIMIT && open < s <= 255
    ensures var r := ScheduleAt(t + open + SwingOffset(true, s));
      && (s <= t + open ==> r == t - (s - open) && (t + (INTERRUPT_COUNTER_LIMIT - (s - open))) % INTERRUPT_COUNTER_LIMIT == r)
      && (t + open < s ==> r == WORD - INTERRUPT_COUNTER_LIMIT + t + open - s)
  {
    var L := INTERRUPT_COUNTER_LIMIT;
    if s <= t + open {
      ModUnique(t + (L - (s - open)), L, 1, t - (s - open));
    }
  }

  // ---------------------------------------------------------------------
  // Sequence indices
  // ---------------------------------------------------------------------

  /** handleEuclideanGate's index step: a uint8_t decrement, 255 becoming
      sequenceLength + 255 (mod 256), i.e. sequenceLength - 1. */
  function EuclideanNextIndex(idx: uint8, len: uint8): (r: uint8)
    ensures idx < len ==> r < len
    ensures 0 < idx ==> r == idx - 1
    ensures idx == 0 ==> r == Byte(len - 1)
  {
    var d := Byte(idx - 1);
    if d == 255 then Byte(len + d) else d
  }

  /** The index step shared by handleRandomTriggersGate and the voltage
      branch of handlePwmEvent: a uint8_t increment, back to 0 at the length. */
  function AdvanceIndex(idx: uint8, len: uint8): (r: uint8)
    ensures 0 < len ==> r < len
    ensures idx + 1 < len ==> r == idx + 1
    ensures len <= idx + 1 ==> r == 0
  {
    var n := Byte(idx + 1);
    if n >= len then 0 else n
  }

  /** The index after m steps of EuclideanNextIndex. */
  function EuclideanIndexAfter(idx: uint8, len: uint8, m: nat): uint8 {
    if m == 0 then idx else EuclideanNextIndex(EuclideanIndexAfter(idx, len, m - 1), len)
  }

  /** The index after m steps of AdvanceIndex. */
  function AdvanceIndexAfter(idx: uint8, len: uint8, m: nat): uint8 {
    if m == 0 then idx else AdvanceIndex(AdvanceIndexAfter(idx, len, m - 1), len)
  }

  /** One step of the Euclidean reader is one step down modulo the length. */
  lemma EuclideanStepMod(x: uint8, len: uint8, a: int)
    requires x < len && x == a % (len as int)
    ensures EuclideanNextIndex(x, len) == (a - 1) % (len as int)
  {
    var q := a / (len as int);
    assert a == len * q + x;
    if x > 0 {
      ModUnique(a - 1, len, q, x - 1);
    } else {
      ModUnique(a - 1, len, q - 1, len - 1);
    }
  }

  /** One step of AdvanceIndex is one step up modulo the length. */
  lemma AdvanceStepMod(x: uint8, len: uint8, a: int)
    requires x < len && x == a % (len as int)
    ensures AdvanceIndex(x, len) == (a + 1) % (len as int)
  {
    var q := a / (len as int);
    assert a == len * q + x;
    if x + 1 < len {
      ModUnique(a + 1, len, q, x + 1);
    } else {
      ModUnique(a + 1, len, q + 1, 0);
    }
  }

  /** The Euclidean reader walks the pattern downwards, cyclically. */
  lemma {:induction false} EuclideanWalk(idx: uint8, len: uint8, m: nat)
    requires idx < len
    ensures EuclideanIndexAfter(idx, len, m) == (idx - m) % (len as int)
  {
    if m == 0 {
      ModUnique(idx, len, 0, idx);
    } else {
      EuclideanWalk(idx, len, m - 1);
      EuclideanStepMod(EuclideanIndexAfter(idx, len, m - 1), len, idx - (m - 1));
    }
  }

  /** The trigger and voltage readers walk the pattern upwards, cyclically. */
  lemma {:induction false} AdvanceWalk(idx: uint8, len: uint8, m: nat)
    requires idx < len
    ensures AdvanceIndexAfter(idx, len, m) == (idx + m) % (len as int)
  {
    if m == 0 {
      ModUnique(idx, len, 0, idx);
    } else {
      AdvanceWalk(idx, len, m - 1);
      AdvanceStepMod(AdvanceIndexAfter(idx, len, m - 1), len, idx + (m - 1));
    }
  }

  /** The index a Euclidean channel reads first after a reset, whose own
      pulse already played step n - 1: the step after n - 1. */
  function EuclideanStartIndex(len: uint8): (r: uint8)
    ensures 1 <= len ==> r < len && r == EuclideanNextIndex(len - 1, len)
  {
    if len < 2 then 0 else len - 2
  }

  /** `sequenceIndex = sequenceLength - 2` as the firmware computes it in uint8_t. */
  function EuclideanStartIndexAsWritten(len: uint8): uint8 {
    Byte(len - 2)
  }

  /** The two agree for every length of at least 2; for a one-step pattern
      the firmware's index is 255, outside the pattern, and the reader then
      walks 255, 254, ... down through positions no pattern of length 1 has.
      For length 0, which the editor can commit, the firmware's index is 254
      and the corrected one is 0. */
  lemma EuclideanStartIndexAsWrittenDiffers(len: uint8)
    ensures 2 <= len ==> EuclideanStartIndexAsWritten(len) == EuclideanStartIndex(len)
    ensures EuclideanStartIndexAsWritten(1) == 255 && EuclideanStartIndex(1) == 0
    ensures EuclideanNextIndex(EuclideanStartIndexAsWritten(1), 1) == 254
    ensures EuclideanStartIndexAsWritten(0) == 254 && EuclideanStartIndex(0) == 0
  {
  }

  /** As written, the one-step pattern of length 1, which is bit 0, is read
      from index 255 downwards: gates 0 to 254 read indices 255 to 1, where
      the arithmetic shift gives the clear sign bit, and only gate 255 reads
      the pulse at index 0. */
  lemma {:induction false} LengthOneStaysSilent(m: nat)
    requires m <= 255
    ensures EuclideanIndexAfter(EuclideanStartIndexAsWritten(1), 1, m) == 255 - m
    ensures SignedBit(1, 255 - m) <==> m == 255
  {
    assert Pow2(1) - 1 == 1;
    LowMaskBits(1, if 255 - m < 16 then 255 - m else 15);
    if m > 0 {
      LengthOneStaysSilent(m - 1);
    }
  }

  /** The bit the trigger reader plays at index idx: the first half holds steps 0..15. */
  predicate RandomTriggerBit(s: uint16, sB: uint16, idx: uint8) {
    if idx < 16 then SignedBit(s, idx) else SignedBit(sB, idx - 16)
  }

  // ---------------------------------------------------------------------
  // Euclidean rhythms
  // ---------------------------------------------------------------------

  /** ceil(a / k) for naturals. */
  function CeilDiv(a: nat, k: nat): nat
    requires 0 < k
  {
    (a + k - 1) / k
  }

  /** The slope accumulated over i pulses, scaled by k: pattern_index is Numerator(n, i) / k. */
  function Numerator(n: nat, i: nat): nat {
    if i == 0 then 0 else Numerator(n, i - 1) + n
  }

  lemma {:induction false} NumeratorIsProduct(n: nat, i: nat)
    ensures Numerator(n, i) == i * n
  {
    if i > 0 {
      NumeratorIsProduct(n, i - 1);
    }
  }

  /** The bit generateEuclideanRhythm sets for its i-th pulse: n - ceil(i * n / k) - 1. */
  function EuclideanPosition(k: nat, n: nat, i: nat): int
    requires 0 < k
  {
    n - CeilDiv(Numerator(n, i), k) - 1
  }

  /** The pattern after the first i pulses of generateEuclideanRhythm(k, n). */
  function EuclideanPattern(k: nat, n: nat, i: nat): uint16
    requires i <= k
  {
    if i == 0 then 0 else SetBit(EuclideanPattern(k, n, i - 1), EuclideanPosition(k, n, i - 1))
  }

  /** The first pulse lands on bit n - 1, each later one strictly lower, all within [0, n). */
  lemma EuclideanPositions(k: nat, n: nat, i: nat)
    requires 1 <= k <= n && i < k
    ensures EuclideanPosition(k, n, 0) == n - 1
    ensures 0 <= EuclideanPosition(k, n, i) <= n - 1
    ensures i + 1 < k ==> EuclideanPosition(k, n, i + 1) < EuclideanPosition(k, n, i)
  {
    var a := Numerator(n, i);
    NumeratorBound(n, i, k);
    assert CeilDiv(0, k) == 0 by {
      DivBelow(k - 1, k, 1);
    }
    DivBelow(a + k - 1, k, n);
    if i + 1 < k {
      assert Numerator(n, i + 1) == a + n;
      DivMonotone(a + k - 1 + k, a + n + k - 1, k);
      DivAddDivisor(a + k - 1, k);
    }
  }

  /** Before the last pulse the numerator is at most (k - 1) * n. */
  lemma NumeratorBound(n: nat, i: nat, k: nat)
    requires i < k
    ensures Numerator(n, i) + n <= n * k
  {
    NumeratorIsProduct(n, i);
    MulMonotone(n, i + 1, k);
  }

  /** Every set bit of s lies in [lo, hi). */
  ghost predicate BitsWithin(s: nat, lo: int, hi: int) {
    forall j: nat :: Bit(s, j) ==> lo <= j < hi
  }

  lemma NoBitsInZero(lo: int, hi: int)
    ensures BitsWithin(0, lo, hi)
  {
    forall j: nat ensures !Bit(0, j) {
      NoBitAbove(0, 0, j);
    }
  }

  /** Setting bit p below all the bits of s, which lie in [q, n), moves the
      lower bound down to p; the bit was clear. */
  lemma BitsWithinSetBit(s: uint16, p: int, q: int, n: nat)
    requires 0 <= p < q && p < n <= 16 && BitsWithin(s, q, n)
    ensures BitsWithin(SetBit(s, p), p, n) && !Bit(s, p)
  {
    forall j: nat | Bit(SetBit(s, p), j)
      ensures p <= j < n
    {
      if j != p {
        assert Bit(s, j);
      }
    }
  }

  /** The lowest bit a pattern of i pulses may hold: the last pulse, or n when there is none. */
  function EuclideanLowest(k: nat, n: nat, i: nat): int
    requires 0 < k
  {
    if i == 0 then n else EuclideanPosition(k, n, i - 1)
  }

  /** After i pulses every set bit lies below n and at or above the last pulse. */
  lemma {:induction false} EuclideanPatternBits(k: nat, n: nat, i: nat)
    requires 1 <= k <= n <= 16 && i <= k
    ensures BitsWithin(EuclideanPattern(k, n, i), EuclideanLowest(k, n, i), n)
    decreases i, 1
  {
    if i == 0 {
      NoBitsInZero(n, n);
    } else {
      EuclideanPatternStep(k, n, i);
    }
  }

  lemma {:induction false} EuclideanPatternStep(k: nat, n: nat, i: nat)
    requires 1 <= k <= n <= 16 && 1 <= i <= k
    ensures BitsWithin(EuclideanPattern(k, n, i), EuclideanLowest(k, n, i), n)
    ensures 0 <= EuclideanPosition(k, n, i - 1) && !Bit(EuclideanPattern(k, n, i - 1), EuclideanPosition(k, n, i - 1))
    decreases i, 0
  {
    var p := EuclideanPosition(k, n, i - 1);
    var q := EuclideanLowest(k, n, i - 1);
    EuclideanPatternBits(k, n, i - 1);
    EuclideanPositions(k, n, i - 1);
    if i > 1 {
      EuclideanPositions(k, n, i - 2);
    }
    assert 0 <= p < q && p < n;
    BitsWithinSetBit(EuclideanPattern(k, n, i - 1), p, q, n);
  }

  /** Bit n - 1 is set from the first pulse on. */
  lemma {:induction false} EuclideanTopBit(k: nat, n: nat, i: nat)
    requires 1 <= k <= n <= 16 && 1 <= i <= k
    ensures Bit(EuclideanPattern(k, n, i), n - 1)
  {
    EuclideanPositions(k, n, i - 1);
    if i > 1 {
      EuclideanTopBit(k, n, i - 1);
      EuclideanPositions(k, n, i - 2);
      assert EuclideanPosition(k, n, i - 1) != n - 1;
    }
  }

  /** After i pulses exactly i bits are set: no pulse lands on an earlier one. */
  lemma {:induction false} EuclideanPatternCount(k: nat, n: nat, i: nat)
    requires 1 <= k <= n <= 16 && i <= k
    ensures PopCount(EuclideanPattern(k, n, i), 16) == i
  {
    if i == 0 {
      ZeroPopCount(16);
    } else {
      EuclideanPatternCount(k, n, i - 1);
      EuclideanPatternStep(k, n, i);
      EuclideanPositions(k, n, i - 1);
      PopCountSetBit(EuclideanPattern(k, n, i - 1), EuclideanPosition(k, n, i - 1), 16);
    }
  }

  lemma {:induction false} ZeroPopCount(w: nat)
    ensures PopCount(0, w) == 0
  {
    if w > 0 {
      ZeroPopCount(w - 1);
      NoBitAbove(0, 0, w - 1);
    }
  }

  /** Bit j of the pattern is set exactly when one of the first i pulses lands on it. */
  lemma {:induction false} EuclideanPatternHits(k: nat, n: nat, i: nat, j: nat)
    requires 1 <= k <= n <= 16 && i <= k
    ensures Bit(EuclideanPattern(k, n, i), j) <==> exists m :: 0 <= m < i && EuclideanPosition(k, n, m) == j
  {
    if i == 0 {
      NoBitAbove(0, 0, j);
    } else {
      var prev := EuclideanPattern(k, n, i - 1);
      var p := EuclideanPosition(k, n, i - 1);
      EuclideanPatternHits(k, n, i - 1, j);
      EuclideanPositions(k, n, i - 1);
      assert EuclideanPattern(k, n, i) == SetBit(prev, p);
      if j == p {
        assert Bit(SetBit(prev, p), j);
        assert 0 <= i - 1 < i && EuclideanPosition(k, n, i - 1) == j;
      } else {
        assert Bit(SetBit(prev, p), j) <==> Bit(prev, j);
        if exists m :: 0 <= m < i && EuclideanPosition(k, n, m) == j {
          var m :| 0 <= m < i && EuclideanPosition(k, n, m) == j;
          assert m != i - 1;
          assert 0 <= m < i - 1 && EuclideanPosition(k, n, m) == j;
        }
      }
    }
  }

  /** The pattern of k pulses over n steps is the value v whose bits below 16
      are the pulse positions ps. */
  lemma EuclideanPatternIs(k: nat, n: nat, v: uint16, ps: seq<int>)
    requires 1 <= k <= n <= 16 && |ps| == k
    requires forall m :: 0 <= m < k ==> EuclideanPosition(k, n, m) == ps[m]
    requires forall j :: 0 <= j < 16 ==> (Bit(v, j) <==> j in ps)
    ensures EuclideanPattern(k, n, k) == v
  {
    Pow2Values();
    forall j | 0 <= j < 16
      ensures Bit(EuclideanPattern(k, n, k), j) <==> Bit(v, j)
    {
      EuclideanPatternHits(k, n, k, j);
      if j in ps {
        var m :| 0 <= m < k && ps[m] == j;
        assert EuclideanPosition(k, n, m) == j;
      }
    }
    SameBits(EuclideanPattern(k, n, k), v, 16);
  }

  /** generateEuclideanRhythm: k pulses spread over n steps (Bresenham),
      step 0 being bit n - 1.  The double-precision slope is replaced by the
      exact ceiling it approximates. */
  method GenerateEuclideanRhythm(k: uint8, n: uint8) returns (euclidean: uint16)
    ensures euclidean == EuclideanPattern(k, n, k)
    ensures 1 <= k <= n <= 16 ==>
      && PopCount(euclidean, 16) == k
      && (forall j: nat :: Bit(euclidean, j) ==> j < n)
      && Bit(euclidean, n - 1)
  {
    euclidean := 0;
    var patternIndex := 0;
    var i := 0;
    while i < k
      invariant 0 <= i <= k
      invariant patternIndex == Numerator(n, i)
      invariant euclidean == EuclideanPattern(k, n, i)
    {
      var index := CeilDiv(patternIndex, k);
      var bitIndex := n - index - 1;
      euclidean := SetBit(euclidean, bitIndex);
      patternIndex := patternIndex + n;
      i := i + 1;
    }
    if 1 <= k <= n <= 16 {
      EuclideanPatternShape(k, n);
    }
  }

  /** The whole pattern: k set bits, all below n, the first one at n - 1. */
  lemma EuclideanPatternShape(k: nat, n: nat)
    requires 1 <= k <= n <= 16
    ensures PopCount(EuclideanPattern(k, n, k), 16) == k
    ensures forall j: nat :: Bit(EuclideanPattern(k, n, k), j) ==> j < n
    ensures Bit(EuclideanPattern(k, n, k), n - 1)
  {
    EuclideanPatternBits(k, n, k);
    EuclideanPatternCount(k, n, k);
    EuclideanTopBit(k, n, k);
  }

  // ---------------------------------------------------------------------
  // Random triggers
  // ---------------------------------------------------------------------

  /** Draws of random(100), one per step. */
  predicate Rolls(rolls: seq<nat>, count: nat) {
    count <= |rolls| && forall i :: 0 <= i < |rolls| ==> rolls[i] < 100
  }

  /** The pattern after the first i steps of generateRandomTriggerSequence. */
  function TriggerPattern(p: nat, rolls: seq<nat>, i: nat): uint16
    requires i <= |rolls|
  {
    if i == 0 then 0
    else
      var s := TriggerPattern(p, rolls, i - 1);
      if rolls[i - 1] < p then SetBit(s, i - 1) else s
  }

  /** Step j is on exactly when its draw fell below the probability. */
  lemma {:induction false} TriggerPatternBits(p: nat, rolls: seq<nat>, i: nat, j: nat)
    requires i <= |rolls|
    ensures Bit(TriggerPattern(p, rolls, i), j) <==> j < i && j < 16 && rolls[j] < p
  {
    if i == 0 {
      NoBitAbove(0, 0, j);
    } else {
      TriggerPatternBits(p, rolls, i - 1, j);
      if j >= 16 {
        Pow2Values();
        NoBitAbove(TriggerPattern(p, rolls, i), 16, j);
      }
    }
  }

  lemma {:induction false} TriggerPatternNever(rolls: seq<nat>, i: nat)
    requires i <= |rolls|
    ensures TriggerPattern(0, rolls, i) == 0
  {
    if i > 0 {
      TriggerPatternNever(rolls, i - 1);
    }
  }

  lemma {:induction false} TriggerPatternAlways(p: nat, rolls: seq<nat>, i: nat)
    requires 100 <= p && Rolls(rolls, i)
    ensures TriggerPattern(p, rolls, i) == Pow2(Min(i, 16)) - 1
  {
    if i > 0 {
      TriggerPatternAlways(p, rolls, i - 1);
      var s := TriggerPattern(p, rolls, i - 1);
      assert rolls[i - 1] < p;
      if i - 1 < 16 {
        LowMaskBits(i - 1, i - 1);
        Pow2Values();
        AddBitBelow(s, i - 1, 16);
      }
    }
  }

  /** generateRandomTriggerSequence: step i is on when its draw is below p. */
  method GenerateRandomTriggerSequence(probability: uint8, length: uint8, rolls: seq<nat>) returns (s: uint16)
    requires Rolls(rolls, length)
    ensures s == TriggerPattern(probability, rolls, length)
    ensures forall j: nat :: Bit(s, j) <==> j < length && j < 16 && rolls[j] < probability
    ensures probability == 0 ==> s == 0
    ensures 100 <= probability ==> s == Pow2(Min(length, 16)) - 1
  {
    s := 0;
    var i := 0;
    while i < length
      invariant 0 <= i <= length
      invariant s == TriggerPattern(probability, rolls, i)
    {
      var trigger := rolls[i] < probability;
      if trigger {
        s := SetBit(s, i);
      }
      i := i + 1;
    }
    forall j: nat ensures Bit(s, j) <==> j < length && j < 16 && rolls[j] < probability {
      TriggerPatternBits(probability, rolls, length, j);
    }
    if probability == 0 {
      TriggerPatternNever(rolls, length);
    }
    if 100 <= probability {
      TriggerPatternAlways(probability, rolls, length);
    }
  }

  // ---------------------------------------------------------------------
  // PWM levels
  // ---------------------------------------------------------------------

  function Abs(x: int): nat {
    if x < 0 then -x else x
  }

  /** C's long division, which truncates toward zero. */
  function CDiv(a: int, b: int): int
    requires b != 0
  {
    var q := Abs(a) / Abs(b);
    if (a < 0) == (b < 0) then q else -q
  }

  /** Arduino's map(). */
  function ArduinoMap(x: int, inMin: int, inMax: int, outMin: int, outMax: int): int
    requires inMax != inMin
  {
    CDiv((x - inMin) * (outMax - outMin), inMax - inMin) + outMin
  }

  /** The ticks a PWM channel has covered once its sub-counter is incremented:
      `pwmPpqnCounter * PWM_EVENT_PPQN` in 16-bit unsigned arithmetic. */
  function PwmTotal(counter: uint16): uint16 {
    Wrap16(Wrap16(counter + 1) * PWM_EVENT_PPQN)
  }

  /** The level of a saw (or inverted saw) whose gate is g ticks long, total ticks in. */
  function SawLevel(inverted: bool, total: nat, g: nat): uint8
    requires 0 < g
  {
    var x := if total > g then 0 else total;
    SawMapFloor(x, g);
    ArduinoMap(x, 0, g, if inverted then 255 else 0, if inverted then 0 else 255)
  }

  /** The saw's level is the floor of 255 * x / g, x being the ticks into
      the gate (0 once it is over); the inverted saw's is 255 minus it. */
  lemma SawLevelIs(inverted: bool, total: nat, g: nat)
    requires 0 < g
    ensures var x := if total > g then 0 else total;
      && (!inverted ==> SawLevel(inverted, total, g) == 255 * x / g)
      && (inverted ==> SawLevel(inverted, total, g) == 255 - 255 * x / g)
  {
    SawMapFloor(if total > g then 0 else total, g);
  }

  lemma SawMapFloor(x: nat, g: nat)
    requires 0 < g && x <= g
    ensures 0 <= 255 * x / g <= 255
    ensures ArduinoMap(x, 0, g, 0, 255) == 255 * x / g
    ensures ArduinoMap(x, 0, g, 255, 0) == 255 - 255 * x / g
  {
    MulMonotone(255, x, g);
    DivMonotone(255 * x, 255 * g, g);
    DivUnique(255 * g, g, 255, 0);
    assert (x - 0) * (0 - 255) == -(255 * x);
  }

  /** The saw rises from 0 to 255 across the gate and drops to 0 after it;
      the inverted saw is its mirror image. */
  lemma SawRamp(g: nat, x1: nat, x2: nat)
    requires 0 < g && x1 <= x2 <= g
    ensures SawLevel(false, 0, g) == 0 && SawLevel(false, g, g) == 255
    ensures SawLevel(true, 0, g) == 255 && SawLevel(true, g, g) == 0
    ensures SawLevel(false, x1, g) <= SawLevel(false, x2, g)
    ensures SawLevel(true, x2, g) <= SawLevel(true, x1, g)
    ensures SawLevel(false, g + 1, g) == 0 && SawLevel(true, g + 1, g) == 255
  {
    SawLevelIs(false, 0, g);
    SawLevelIs(true, 0, g);
    SawLevelIs(false, g, g);
    SawLevelIs(true, g, g);
    SawLevelIs(false, x1, g);
    SawLevelIs(true, x1, g);
    SawLevelIs(false, x2, g);
    SawLevelIs(true, x2, g);
    SawLevelIs(false, g + 1, g);
    SawLevelIs(true, g + 1, g);
    DivUnique(255 * g, g, 255, 0);
    MulMonotone(255, x1, x2);
    DivMonotone(255 * x1, 255 * x2, g);
  }

  /** The level reset() leaves: a voltage channel plays its first byte, or
      a fresh draw when it has no pattern; every other channel drops to 0. */
  function RestartLevel(kind: uint8, s: uint16, len: uint8, level: nat): int {
    if kind != VOLTAGE then 0
    else if len > 0 then ShiftRightByte(s, 0)
    else level + 1
  }

  // ---------------------------------------------------------------------
  // First event after a reset
  // ---------------------------------------------------------------------

  /** The event resetOutput schedules first. */
  function FirstEvent(kind: uint8, delay: nat): Event {
    if IsPwmType(kind) then PwmEvent else if delay > 0 then GateOpen else GateClose
  }

  /** How many ticks after the reset that event comes. */
  function FirstEventDelay(kind: uint8, delay: nat, times: GateTimes): nat
    requires delay < |CLOCK_LENGTH_TO_PPQN|
  {
    if delay > 0 then
      (if IsPwmType(kind) then PWM_EVENT_PPQN + NoteTicks(delay) else NoteTicks(delay))
    else if IsPwmType(kind) then 1
    else times.close
  }

  /** With the settings the editor produces, the first event comes between
      1 and 4614 ticks ahead, so it is never due on the tick of the reset. */
  lemma FirstEventAhead(kind: uint8, clock: nat, gate: nat, delay: nat, now: nat)
    requires 1 <= clock <= NUM_CLOCKS && 1 <= gate <= NUM_CLOCKS && delay <= NUM_CLOCKS
    requires now < INTERRUPT_COUNTER_LIMIT
    ensures 1 <= FirstEventDelay(kind, delay, GateTimesFor(clock, gate)) <= PPQN * 24 + PWM_EVENT_PPQN
    ensures (now + FirstEventDelay(kind, delay, GateTimesFor(clock, gate))) % INTERRUPT_COUNTER_LIMIT != now
  {
    var close := GateTimesFor(clock, gate).close;
    assert 2 <= close <= PPQN * 24 by {
      var c, g := NoteTicks(clock), NoteTicks(gate);
      if clock >= CLOCK_LENGTH_SWINGABLE_LIMIT && g == c {
        assert close == c - 1;
      }
    }
    var d := FirstEventDelay(kind, delay, GateTimesFor(clock, gate));
    assert 1 <= d <= PPQN * 24 + PWM_EVENT_PPQN;
    if now + d < INTERRUPT_COUNTER_LIMIT {
      ModUnique(now + d, INTERRUPT_COUNTER_LIMIT, 0, now + d);
    } else {
      ModUnique(now + d, INTERRUPT_COUNTER_LIMIT, 1, now + d - INTERRUPT_COUNTER_LIMIT);
    }
  }

  // ---------------------------------------------------------------------
  // The channel
  // ---------------------------------------------------------------------

  /** The settings the editor writes into a channel. */
  datatype ChannelSettings = ChannelSettings(
    kind: uint8, clock: uint8, gate: uint8, delay: uint8,
    steps: uint8, probability: uint8,
    sequence: uint16, sequenceB: uint16, length: uint8)

  /** A channel's whole state: its settings and its playback state. */
  datatype ChannelState = ChannelState(
    settings: ChannelSettings,
    swinging: bool, pwmOut: uint8, dOut: bool, gateOpen: bool,
    tGateOpen: uint16, tGateClose: uint16, pwmPpqnCounter: uint16,
    event: Event, eventTime: uint16, sequenceIndex: uint8)

  /** The three note-length indices of the settings lie inside the table. */
  predicate InTable(s: ChannelSettings) {
    && s.clock < |CLOCK_LENGTH_TO_PPQN|
    && s.gate < |CLOCK_LENGTH_TO_PPQN|
    && s.delay < |CLOCK_LENGTH_TO_PPQN|
  }

  /** The playback state reset() leaves: gate open, swing phase cleared,
      index at the pattern's start, level and outputs restarted. */
  predicate Restarted(b: ChannelState, a: ChannelState, level: nat) {
    var s := a.settings;
    && a.gateOpen
    && !a.swinging
    && a.sequenceIndex == (if s.kind == EUCLIDEAN then EuclideanStartIndex(s.length)
                           else if IsPwmType(s.kind) then 0
                           else b.sequenceIndex)
    && a.pwmOut == RestartLevel(s.kind, s.sequence, s.length, level)
    && a.dOut == (!IsPwmType(s.kind) && s.delay == 0)
    && a.pwmPpqnCounter == (if IsPwmType(s.kind) then 0 else b.pwmPpqnCounter)
  }

  /** What a gate-open step decides: a Euclidean channel plays the bit at its
      index and steps down, a trigger channel plays its bit and steps up (or
      throws the coin when it has no pattern), other channels keep their gate. */
  predicate GateDecided(b: ChannelState, a: ChannelState, coin: nat) {
    var s := a.settings;
    if s.kind == EUCLIDEAN then
      && a.gateOpen == SignedBit(s.sequence, b.sequenceIndex)
      && a.sequenceIndex == EuclideanNextIndex(b.sequenceIndex, s.length)
    else if s.kind == RANDOM_TRIGGERS then
      if s.length == 0 then
        a.gateOpen == (coin < s.probability) && a.sequenceIndex == b.sequenceIndex
      else
        && a.gateOpen == RandomTriggerBit(s.sequence, s.sequenceB, b.sequenceIndex)
        && a.sequenceIndex == AdvanceIndex(b.sequenceIndex, s.length)
    else
      a.gateOpen == b.gateOpen && a.sequenceIndex == b.sequenceIndex
  }

  /** What a PWM step does: the sub-counter advances and restarts once the
      clock length is covered; a saw follows its ramp, a voltage channel
      moves to its next byte once the clock length is covered, and a sine
      channel takes the supplied level. */
  predicate PwmStepped(b: ChannelState, a: ChannelState, level: nat, sineLevel: uint8) {
    var s := a.settings;
    && InTable(s)
    && a.pwmPpqnCounter == PwmCounterAfter(b.pwmPpqnCounter, NoteTicks(s.clock))
    && LevelStepped(s, PwmTotal(b.pwmPpqnCounter), b.pwmOut, b.sequenceIndex, a.pwmOut, a.sequenceIndex,
         level, sineLevel)
  }

  /** The sub-counter after a PWM event: incremented, and back to 0 once
      the ticks covered reach the clock length less one. */
  function PwmCounterAfter(counter: uint16, clockTicks: nat): uint16 {
    if PwmTotal(counter) >= Wrap16(clockTicks - 1) then 0 else Wrap16(counter + 1)
  }

  /** The level and pattern position a PWM event leaves, total ticks into
      the clock length: the sine's supplied level, the saw's ramp, the
      voltage channel's next byte (or a fresh draw without a pattern) once
      a clock length is covered; other types keep both. */
  predicate LevelStepped(s: ChannelSettings, total: nat, out: uint8, index: uint8,
                         out': uint8, index': uint8, level: nat, sineLevel: uint8)
    requires InTable(s)
  {
    if s.kind == SINE then
      out' == sineLevel && index' == index
    else if s.kind == SAW || s.kind == SAW_INVERTED then
      && 0 < NoteTicks(s.gate)
      && out' == SawLevel(s.kind == SAW_INVERTED, total, NoteTicks(s.gate))
      && index' == index
    else if s.kind == VOLTAGE then
      if total < NoteTicks(s.clock) then
        out' == out && index' == index
      else if s.length == 0 then
        out' == level + 1 && index' == index
      else
        && index' == AdvanceIndex(index, s.length)
        && index' < s.length
        && out' == ShiftRightByte(s.sequence, index')
    else
      out' == out && index' == index
  }

  /** The gate split and the first event resetOutput installs at counter `now`. */
  predicate Scheduled(a: ChannelState, now: nat) {
    var s := a.settings;
    && InTable(s)
    && GateTimes(a.tGateOpen, a.tGateClose) == GateTimesFor(s.clock, s.gate)
    && a.event == FirstEvent(s.kind, s.delay)
    && a.eventTime == ScheduleAt(now + FirstEventDelay(s.kind, s.delay, GateTimesFor(s.clock, s.gate)))
  }

  /** resetOutput: the channel restarted and its first event scheduled. */
  predicate Rescheduled(b: ChannelState, a: ChannelState, now: nat, level: nat) {
    Restarted(b, a, level) && Scheduled(a, now)
  }

  /** Two reschedulings on the same tick, the second with unchanged settings,
      leave what the second alone would have left after the first's input. */
  lemma RescheduledTwice(b: ChannelState, m: ChannelState, a: ChannelState, now: nat, level: nat)
    requires Rescheduled(b, m, now, level) && Rescheduled(m, a, now, level)
    requires m.settings == a.settings
    ensures Rescheduled(b, a, now, level)
  {
  }

  /** For settings the editor can produce, the first event is pending and
      lands strictly ahead of the tick of the reset, d ticks round the circle. */
  lemma RescheduledAhead(a: ChannelState, now: nat)
    requires Scheduled(a, now) && now < INTERRUPT_COUNTER_LIMIT
    requires 1 <= a.settings.clock <= NUM_CLOCKS && 1 <= a.settings.gate <= NUM_CLOCKS
    requires a.settings.delay <= NUM_CLOCKS
    ensures a.event != NoEvent && a.eventTime != now
    ensures var s := a.settings;
      a.eventTime == (now + FirstEventDelay(s.kind, s.delay, GateTimesFor(s.clock, s.gate))) % INTERRUPT_COUNTER_LIMIT
  {
    var s := a.settings;
    FirstEventAhead(s.kind, s.clock, s.gate, s.delay, now);
  }

  class Output {
    var outputType: uint8
    var clockLength: uint8
    var gateLength: uint8
    var startDelayLength: uint8
    var swinging: bool
    var pwmOut: uint8
    var dOut: bool
    var gateOpen: bool
    var tGateOpen: uint16
    var tGateClose: uint16
    var pwmPpqnCounter: uint16
    var event: Event
    var eventTime: uint16
    var sequence: uint16
    var sequenceB: uint16
    var sequenceIndex: uint8
    var sequenceLength: uint8
    var euclideanSteps: uint8
    var randomTriggerProbability: uint8

    /** Every note-length index lies inside the table and the pending time
        below the wrap limit. */
    ghost predicate Valid()
      reads this
    {
      && clockLength < |CLOCK_LENGTH_TO_PPQN|
      && gateLength < |CLOCK_LENGTH_TO_PPQN|
      && startDelayLength < |CLOCK_LENGTH_TO_PPQN|
      && eventTime < INTERRUPT_COUNTER_LIMIT
    }

    ghost function Settings(): ChannelSettings
      reads this
    {
      ChannelSettings(outputType, clockLength, gateLength, startDelayLength,
        euclideanSteps, randomTriggerProbability, sequence, sequenceB, sequenceLength)
    }

    ghost function State(): ChannelState
      reads this
    {
      ChannelState(Settings(), swinging, pwmOut, dOut, gateOpen, tGateOpen, tGateClose,
        pwmPpqnCounter, event, eventTime, sequenceIndex)
    }

    /** Output(p, a) */
    constructor ()
      ensures Valid()
      ensures Settings() == ChannelSettings(NO_OUTPUT, NO_CLOCK, NO_CLOCK, NO_CLOCK, 0, 100, 0, 0, 0)
      ensures pwmOut == 0 && dOut && !swinging && gateOpen
      ensures tGateOpen == 0 && tGateClose == 0 && pwmPpqnCounter == 0
      ensures event == NoEvent && eventTime == 0 && sequenceIndex == 0
    {
      outputType := NO_OUTPUT;
      clockLength := NO_CLOCK;
      gateLength := NO_CLOCK;
      startDelayLength := NO_CLOCK;
      pwmOut := 0;
      dOut := true;
      swinging := false;
      gateOpen := true;
      tGateOpen := 0;
      tGateClose := 0;
      pwmPpqnCounter := 0;
      event := NoEvent;
      eventTime := 0;
      sequence := 0;
      sequenceB := 0;
      sequenceIndex := 0;
      sequenceLength := 0;
      euclideanSteps := 0;
      randomTriggerProbability := 100;
    }

    /** reset(); `level` is the draw of random(255) a voltage channel
        without a pattern takes. */
    method Reset(level: nat)
      requires Valid() && level < 255
      modifies this`event, this`eventTime, this`gateOpen, this`sequenceIndex
      modifies this`pwmOut, this`swinging, this`dOut, this`pwmPpqnCounter
      ensures Valid()
      ensures event == NoEvent && eventTime == 0
      ensures Restarted(old(State()), State(), level)
    {
      event := NoEvent;
      eventTime := 0;
      gateOpen := true;
      if outputType == EUCLIDEAN {
        sequenceIndex := EuclideanStartIndex(sequenceLength);
      }
      if outputType != VOLTAGE {
        pwmOut := 0;
      }
      swinging := false;
      if startDelayLength > 0 {
        dOut := false;
      } else {
        dOut := true;
      }
      if IsPwmType(outputType) {
        RestartPwm(level);
      }
      assert pwmOut == RestartLevel(outputType, sequence, sequenceLength, level);
      assert dOut == (!IsPwmType(outputType) && startDelayLength == 0);
    }

    /** The part of reset() for the PWM-driven channels. */
    method RestartPwm(level: nat)
      requires IsPwmType(outputType) && level < 255
      requires outputType != VOLTAGE ==> pwmOut == 0
      modifies this`pwmPpqnCounter, this`dOut, this`sequenceIndex, this`pwmOut
      ensures pwmPpqnCounter == 0 && !dOut && sequenceIndex == 0
      ensures pwmOut == RestartLevel(outputType, sequence, sequenceLength, level)
    {
      pwmPpqnCounter := 0;
      dOut := false;
      sequenceIndex := 0;
      if outputType == VOLTAGE {
        if sequenceLength > 0 {
          pwmOut := ShiftRightByte(sequence, sequenceIndex);
        } else {
          pwmOut := level + 1;
        }
      }
    }

    /** setOutputType */
    method SetOutputType(t: uint8)
      modifies this`outputType, this`dOut, this`pwmOut
      ensures outputType == t && pwmOut == 0
      ensures dOut == (if IsPwmType(t) then false else old(dOut))
    {
      outputType := t;
      if IsPwmType(outputType) {
        dOut := false;
        pwmOut := 0;
      } else {
        pwmOut := 0;
      }
    }

    /** setClockLength */
    method SetClockLength(c: uint8)
      requires c < |CLOCK_LENGTH_TO_PPQN|
      modifies this`clockLength
      ensures clockLength == c
    {
      clockLength := c;
    }

    /** setGateLength: pattern channels always get the shortest gate. */
    method SetGateLength(c: uint8)
      requires c < |CLOCK_LENGTH_TO_PPQN|
      modifies this`gateLength, this`pwmPpqnCounter
      ensures gateLength == (if outputType == EUCLIDEAN || outputType == RANDOM_TRIGGERS then CLOCK_1x256 else c)
      ensures pwmPpqnCounter == (if IsPwmType(outputType) then 0 else old(pwmPpqnCounter))
    {
      var g := c;
      if outputType == EUCLIDEAN || outputType == RANDOM_TRIGGERS {
        g := CLOCK_1x256;
      }
      gateLength := g;
      if IsPwmType(outputType) {
        pwmPpqnCounter := 0;
      }
    }

    /** setStartDelayLength: a delayed channel starts low. */
    method SetStartDelayLength(c: uint8)
      requires c < |CLOCK_LENGTH_TO_PPQN|
      modifies this`startDelayLength, this`dOut
      ensures startDelayLength == c && dOut == (c == 0)
    {
      startDelayLength := c;
      if startDelayLength > 0 {
        dOut := false;
      } else {
        dOut := true;
      }
    }

    /** setEuclideanSteps */
    method SetEuclideanSteps(k: uint8)
      modifies this`euclideanSteps
      ensures euclideanSteps == k
    {
      euclideanSteps := k;
    }

    /** setRandomTriggerProbability */
    method SetRandomTriggerProbability(p: uint8)
      modifies this`randomTriggerProbability
      ensures randomTriggerProbability == p
    {
      randomTriggerProbability := p;
    }

    /** setSequence(s) */
    method SetSequence(s: uint16)
      modifies this`sequence
      ensures sequence == s
    {
      sequence := s;
    }

    /** setSequence(s, sB) */
    method SetSequences(s: uint16, sB: uint16)
      modifies this`sequence, this`sequenceB
      ensures sequence == s && sequenceB == sB
    {
      sequence := s;
      sequenceB := sB;
    }

    /** setSequenceLength */
    method SetSequenceLength(len: uint8)
      modifies this`sequenceLength
      ensures sequenceLength == len
    {
      sequenceLength := len;
    }

    /** setEvent */
    method SetEvent(e: Event, t: uint16)
      modifies this`event, this`eventTime
      ensures event == e && eventTime == t
    {
      event := e;
      eventTime := t;
    }

    /** setDelayedEvent: the event comes after the start delay. */
    method SetDelayedEvent(e: Event, t: uint16)
      requires Valid()
      modifies this`event, this`eventTime
      ensures Valid() && event == e
      ensures eventTime == ScheduleAt(t + NoteTicks(startDelayLength))
      ensures t < INTERRUPT_COUNTER_LIMIT ==>
        eventTime == (t + NoteTicks(startDelayLength)) % INTERRUPT_COUNTER_LIMIT
    {
      SetEvent(e, HandleEventTimeOverflow(Wrap16(t + NoteTicks(startDelayLength))));
    }

    /** setGateCloseEvent: the gate closes t_gateClose ticks after t. */
    method SetGateCloseEvent(t: uint16)
      requires Valid()
      modifies this`event, this`eventTime
      ensures Valid() && event == GateClose
      ensures eventTime == ScheduleAt(t + tGateClose)
    {
      SetEvent(GateClose, HandleEventTimeOverflow(Wrap16(t + tGateClose)));
    }

    /** handleEuclideanGate */
    method HandleEuclideanGate()
      modifies this`gateOpen, this`sequenceIndex
      ensures gateOpen == SignedBit(sequence, old(sequenceIndex))
      ensures sequenceIndex == EuclideanNextIndex(old(sequenceIndex), sequenceLength)
      ensures old(sequenceIndex) < sequenceLength ==> sequenceIndex < sequenceLength
    {
      gateOpen := SignedBit(sequence, sequenceIndex);
      sequenceIndex := Byte(sequenceIndex - 1);
      if sequenceIndex == 255 {
        sequenceIndex := Byte(sequenceLength + sequenceIndex);
      }
    }

    /** handleRandomTriggersGate; `coin` is the draw of random(100). */
    method HandleRandomTriggersGate(coin: nat)
      requires coin < 100
      modifies this`gateOpen, this`sequenceIndex
      ensures sequenceLength == 0 ==>
        gateOpen == (coin < randomTriggerProbability) && sequenceIndex == old(sequenceIndex)
      ensures sequenceLength > 0 ==>
        && gateOpen == RandomTriggerBit(sequence, sequenceB, old(sequenceIndex))
        && sequenceIndex == AdvanceIndex(old(sequenceIndex), sequenceLength)
        && sequenceIndex < sequenceLength
    {
      if sequenceLength == 0 {
        gateOpen := coin < randomTriggerProbability;
      } else {
        if sequenceIndex < 16 {
          gateOpen := SignedBit(sequence, sequenceIndex);
        } else {
          gateOpen := SignedBit(sequenceB, sequenceIndex - 16);
        }
        sequenceIndex := Byte(sequenceIndex + 1);
        if sequenceIndex >= sequenceLength {
          sequenceIndex := 0;
        }
      }
    }

    /** setGateOpenEvent: decide the next gate, then open t_gateOpen ticks after t. */
    method SetGateOpenEvent(t: uint16, coin: nat)
      requires Valid() && coin < 100
      modifies this`gateOpen, this`sequenceIndex, this`event, this`eventTime
      ensures Valid() && GateDecided(old(State()), State(), coin)
      ensures event == GateOpen && eventTime == ScheduleAt(t + tGateOpen)
    {
      if outputType == EUCLIDEAN {
        HandleEuclideanGate();
      } else if outputType == RANDOM_TRIGGERS {
        HandleRandomTriggersGate(coin);
      }
      SetEvent(GateOpen, HandleEventTimeOverflow(Wrap16(t + tGateOpen)));
    }

    /** setSwingGateOpenEvent: as setGateOpenEvent, every other period
        pushed later by `swing` ticks and the next pulled back by as many. */
    method SetSwingGateOpenEvent(t: uint16, swing: uint8, coin: nat)
      requires Valid() && coin < 100
      modifies this`gateOpen, this`sequenceIndex, this`event, this`eventTime, this`swinging
      ensures Valid() && GateDecided(old(State()), State(), coin)
      ensures event == GateOpen
      ensures eventTime == ScheduleAt(t + tGateOpen + SwingOffset(old(swinging), swing))
      ensures swinging == !old(swinging)
    {
      if outputType == EUCLIDEAN {
        HandleEuclideanGate();
      } else if outputType == RANDOM_TRIGGERS {
        HandleRandomTriggersGate(coin);
      }
      if swinging {
        SetEvent(GateOpen, HandleEventTimeOverflow(Wrap16(t + tGateOpen - swing)));
      } else {
        SetEvent(GateOpen, HandleEventTimeOverflow(Wrap16(t + tGateOpen + swing)));
      }
      swinging := !swinging;
    }

    /** setPwmEvent */
    method SetPwmEvent(t: uint16)
      requires Valid()
      modifies this`event, this`eventTime
      ensures Valid() && event == PwmEvent && eventTime == HandleEventTimeOverflow(t)
    {
      SetEvent(PwmEvent, HandleEventTimeOverflow(t));
    }

    /** handlePwmEvent for the saw, inverted saw and voltage channels; the
        sine channel's level, which the firmware computes with cos(), is
        supplied as `sineLevel`.  `level` is the draw of random(255). */
    method HandlePwmEvent(level: nat, sineLevel: uint8)
      requires Valid() && level < 255
      requires (outputType == SAW || outputType == SAW_INVERTED) ==> 0 < NoteTicks(gateLength)
      modifies this`pwmPpqnCounter, this`pwmOut, this`sequenceIndex
      ensures Valid()
      ensures pwmPpqnCounter == PwmCounterAfter(old(pwmPpqnCounter), NoteTicks(clockLength))
      ensures LevelStepped(Settings(), PwmTotal(old(pwmPpqnCounter)), old(pwmOut), old(sequenceIndex),
        pwmOut, sequenceIndex, level, sineLevel)
    {
      pwmPpqnCounter := Wrap16(pwmPpqnCounter + 1);
      var totalPpqn := Wrap16(pwmPpqnCounter * PWM_EVENT_PPQN);
      LevelStep(totalPpqn, level, sineLevel);
      if totalPpqn >= Wrap16(NoteTicks(clockLength) as int - 1) {
        pwmPpqnCounter := 0;
      }
    }

    /** The type-dependent part of handlePwmEvent. */
    method LevelStep(totalPpqn: uint16, level: nat, sineLevel: uint8)
      requires Valid() && level < 255
      requires (outputType == SAW || outputType == SAW_INVERTED) ==> 0 < NoteTicks(gateLength)
      modifies this`pwmOut, this`sequenceIndex
      ensures LevelStepped(Settings(), totalPpqn, old(pwmOut), old(sequenceIndex), pwmOut, sequenceIndex,
        level, sineLevel)
    {
      if outputType == SINE {
        pwmOut := sineLevel;
      } else if outputType == SAW || outputType == SAW_INVERTED {
        SawStep(totalPpqn);
      } else if outputType == VOLTAGE {
        VoltageStep(totalPpqn, level);
      }
    }

    /** The saw branch of handlePwmEvent. */
    method SawStep(totalPpqn: uint16)
      requires Valid() && 0 < NoteTicks(gateLength)
      modifies this`pwmOut
      ensures pwmOut == SawLevel(outputType == SAW_INVERTED, totalPpqn, NoteTicks(gateLength))
    {
      var g := NoteTicks(gateLength);
      var mappedPpqn := totalPpqn;
      if totalPpqn > g {
        mappedPpqn := 0;
      }
      SawMapFloor(mappedPpqn, g);
      var mapped;
      if outputType == SAW_INVERTED {
        mapped := ArduinoMap(mappedPpqn, 0, g, 255, 0);
      } else {
        mapped := ArduinoMap(mappedPpqn, 0, g, 0, 255);
      }
      pwmOut := mapped;
    }

    /** The voltage branch of handlePwmEvent: once a clock length is
        covered, the next byte of the pattern, or a fresh draw without one. */
    method VoltageStep(totalPpqn: uint16, level: nat)
      requires Valid() && level < 255
      modifies this`pwmOut, this`sequenceIndex
      ensures if totalPpqn < NoteTicks(clockLength) then
          pwmOut == old(pwmOut) && sequenceIndex == old(sequenceIndex)
        else if sequenceLength == 0 then
          pwmOut == level + 1 && sequenceIndex == old(sequenceIndex)
        else
          && sequenceIndex == AdvanceIndex(old(sequenceIndex), sequenceLength)
          && sequenceIndex < sequenceLength
          && pwmOut == ShiftRightByte(sequence, sequenceIndex)
    {
      if totalPpqn >= NoteTicks(clockLength) {
        if sequenceLength == 0 {
          pwmOut := level + 1;
        } else {
          sequenceIndex := Byte(sequenceIndex + 1);
          if sequenceIndex >= sequenceLength {
            sequenceIndex := 0;
          }
          pwmOut := ShiftRightByte(sequence, sequenceIndex);
        }
      }
    }

    /** setDefaultGateTimes */
    method SetDefaultGateTimes()
      requires Valid()
      modifies this`tGateOpen, this`tGateClose
      ensures GateTimes(tGateOpen, tGateClose) == DefaultGateTimes(clockLength, gateLength)
    {
      tGateClose := NoteTicks(gateLength);
      if NoteTicks(gateLength) == NoteTicks(clockLength) {
        tGateClose := Wrap16(tGateClose - 1);
      }
      tGateOpen := Wrap16(NoteTicks(clockLength) as int - tGateClose);
    }

    /** setDefaultGateTimesForSwingable */
    method SetDefaultGateTimesForSwingable()
      requires Valid()
      modifies this`tGateOpen, this`tGateClose
      ensures GateTimes(tGateOpen, tGateClose) == SwingableGateTimes(clockLength, gateLength)
    {
      tGateOpen := Wrap16(NoteTicks(clockLength) as int - NoteTicks(gateLength));
      tGateClose := NoteTicks(gateLength);
    }

    /** generateSequence(len).  `word` is the draw of random(MAX_LONG) (only
        its low 16 bits fit the pattern), `level` that of random(255), and
        `rollsA`, `rollsB` the random(100) draws of the two trigger halves. */
    method GenerateSequence(len: uint8, word: nat, level: nat, rollsA: seq<nat>, rollsB: seq<nat>)
      requires word < MAX_LONG && level < 255
      requires outputType == RANDOM_TRIGGERS ==> Rolls(rollsA, len) && Rolls(rollsB, len)
      modifies this`sequenceLength, this`sequence, this`sequenceB, this`pwmOut, this`sequenceIndex
      ensures outputType == VOLTAGE ==>
        && sequenceLength == Min(len, MAX_RANDOM_VOLTAGE_SEQUENCE_LENGTH)
        && sequenceB == old(sequenceB)
        && (if len > 0 then
              && sequence == Wrap16(word) && sequenceIndex == 0
              && pwmOut == ShiftRightByte(sequence, old(sequenceIndex))
            else sequence == old(sequence) && sequenceIndex == old(sequenceIndex) && pwmOut == level + 1)
      ensures outputType == RANDOM_TRIGGERS ==>
        && sequenceLength == len && pwmOut == old(pwmOut) && sequenceIndex == old(sequenceIndex)
        && sequence == (if len > 0 then TriggerPattern(randomTriggerProbability, rollsA, len) else 0)
        && sequenceB == (if len > 0 then TriggerPattern(randomTriggerProbability, rollsB, len) else 0)
      ensures outputType == EUCLIDEAN ==>
        && sequenceLength == len && pwmOut == old(pwmOut) && sequenceB == old(sequenceB)
        && sequenceIndex == EuclideanStartIndex(len)
        && sequence == EuclideanPattern(euclideanSteps, len, euclideanSteps)
      ensures outputType != VOLTAGE && outputType != RANDOM_TRIGGERS && outputType != EUCLIDEAN ==>
        && sequenceLength == len && pwmOut == old(pwmOut) && sequenceIndex == old(sequenceIndex)
        && sequence == old(sequence) && sequenceB == old(sequenceB)
    {
      sequenceLength := len;
      if outputType == VOLTAGE {
        if sequenceLength > MAX_RANDOM_VOLTAGE_SEQUENCE_LENGTH as uint8 {
          sequenceLength := MAX_RANDOM_VOLTAGE_SEQUENCE_LENGTH as uint8;
        }
        if sequenceLength > 0 {
          sequence := Wrap16(word);
          pwmOut := ShiftRightByte(sequence, sequenceIndex);
          sequenceIndex := 0;
        } else {
          pwmOut := level + 1;
        }
      } else if outputType == RANDOM_TRIGGERS {
        sequence := 0;
        sequenceB := 0;
        if len > 0 {
          sequence := GenerateRandomTriggerSequence(randomTriggerProbability, sequenceLength, rollsA);
          sequenceB := GenerateRandomTriggerSequence(randomTriggerProbability, sequenceLength, rollsB);
        }
      } else if outputType == EUCLIDEAN {
        sequenceIndex := EuclideanStartIndex(sequenceLength);
        sequence := GenerateEuclideanRhythm(euclideanSteps, sequenceLength);
      }
    }

    /** generateTemporarySequence: a pattern for the editor's preview, drawn
        with this channel's current trigger probability. */
    method GenerateTemporarySequence(stype: uint8, len: uint8, word: nat, rolls: seq<nat>) returns (s: uint16)
      requires word < MAX_LONG
      requires stype == RANDOM_TRIGGERS ==> Rolls(rolls, Min(len, 16))
      ensures stype == VOLTAGE ==> s == (if len > 0 then Wrap16(word) else 0)
      ensures stype == RANDOM_TRIGGERS ==>
        s == (if len > 0 then TriggerPattern(randomTriggerProbability, rolls, Min(len, 16)) else 0)
      ensures stype == RANDOM_TRIGGERS ==> forall j: nat :: Bit(s, j) ==> j < len && j < 16
      ensures stype != VOLTAGE && stype != RANDOM_TRIGGERS ==> s == 0
    {
      s := 0;
      var n := len;
      if stype == VOLTAGE {
        if n > MAX_RANDOM_VOLTAGE_SEQUENCE_LENGTH as uint8 {
          n := MAX_RANDOM_VOLTAGE_SEQUENCE_LENGTH as uint8;
        }
        if n > 0 {
          s := Wrap16(word);
        }
      } else if stype == RANDOM_TRIGGERS {
        if n > 0 {
          if n > 16 {
            n := 16;
          }
          s := GenerateRandomTriggerSequence(randomTriggerProbability, n, rolls);
        }
      }
      if stype == RANDOM_TRIGGERS && len == 0 {
        forall j: nat ensures !Bit(s, j) {
          NoBitAbove(0, 0, j);
        }
      }
    }

    /** generateTemporaryEuclideanSequence: the editor's Euclidean preview. */
    method GenerateTemporaryEuclideanSequence(k: uint8, n: uint8) returns (s: uint16)
      ensures s == EuclideanPattern(k, n, k)
      ensures 1 <= k <= n <= 16 ==> PopCount(s, 16) == k && Bit(s, n - 1)
    {
      s := GenerateEuclideanRhythm(k, n);
    }
  }
}
