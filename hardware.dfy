/**
 * The timer interrupt of the clock module (the body of
 * ISR(TIMER1_COMPA_vect) in CmHardware.cpp), taken as one atomic step: the
 * counter advances and wraps, pending commits land on a bar boundary, and
 * every channel whose event is due is dispatched.
 *
 * The port writes and debug prints of the interrupt are output I/O and are
 * not part of this model; a channel's observable outputs are its dOut and
 * pwmOut fields.
 */
module Hardware {
  import opened Resources
  import opened Bits
  import opened Outputs
  import opened CmModel

  /** The draws one channel's dispatch may take: random(100) for a trigger
      channel without a pattern, random(255) for a voltage channel without a
      pattern, and the level a sine channel computes with cos(). */
  datatype ChannelDraws = ChannelDraws(coin: nat, level: nat, sineLevel: uint8)

  predicate DrawsValid(draws: seq<ChannelDraws>) {
    |draws| == NUM_OUTPUTS && forall i :: 0 <= i < |draws| ==> draws[i].coin < 100 && draws[i].level < 255
  }

  /** The counter goes up by one and wraps to 0 at the limit (CmHardware.cpp:312-313). */
  function NextCounter(c: nat): (r: nat)
    requires c < INTERRUPT_COUNTER_LIMIT
    ensures r < INTERRUPT_COUNTER_LIMIT
    ensures r == (c + 1) % INTERRUPT_COUNTER_LIMIT
    ensures c + 1 < INTERRUPT_COUNTER_LIMIT ==> r == c + 1
  {
    if c + 1 == INTERRUPT_COUNTER_LIMIT then 0 else c + 1
  }

  /** The first tick of a bar. */
  predicate AtBar(c: nat) {
    c % PPQN_BAR == 0
  }

  /** The wrap keeps bar boundaries: the counter after a tick starts a bar
      exactly when the unwrapped count does. */
  lemma NextCounterAtBar(c: nat)
    requires c < INTERRUPT_COUNTER_LIMIT
    ensures AtBar(NextCounter(c)) <==> AtBar(c + 1)
  {
    TimingConstants();
  }

  /** The whole state of every channel. */
  ghost function States(os: seq<Output>): (r: seq<ChannelState>)
    reads os
    ensures |r| == |os| && forall j :: 0 <= j < |os| ==> r[j] == os[j].State()
  {
    seq(|os|, j requires 0 <= j < |os| reads os => os[j].State())
  }

  /** GATE_CLOSE: both outputs drop, the next gate is decided and opens
      t_gateOpen ticks later, swung by the table's offset on the clocks
      below CLOCK_1x16D. */
  predicate GateClosed(b: ChannelState, a: ChannelState, now: nat, table: seq<uint8>, coin: nat)
    requires |table| == CLOCK_LENGTH_SWINGABLE_LIMIT
  {
    var s := b.settings;
    && !a.dOut && a.pwmOut == 0 && a.pwmPpqnCounter == b.pwmPpqnCounter
    && a.event == GateOpen && GateDecided(b, a, coin)
    && if s.clock < CLOCK_LENGTH_SWINGABLE_LIMIT then
         && a.swinging == !b.swinging
         && a.eventTime == ScheduleAt(now + b.tGateOpen + SwingOffset(b.swinging, table[s.clock]))
       else
         a.swinging == b.swinging && a.eventTime == ScheduleAt(now + b.tGateOpen)
  }

  /** GATE_OPEN: dOut rises when the gate was decided open, pwmOut drops,
      and the gate closes t_gateClose ticks later. */
  predicate GateOpened(b: ChannelState, a: ChannelState, now: nat) {
    && a.pwmOut == 0 && a.dOut == (b.gateOpen || b.dOut)
    && a.gateOpen == b.gateOpen && a.swinging == b.swinging
    && a.sequenceIndex == b.sequenceIndex && a.pwmPpqnCounter == b.pwmPpqnCounter
    && a.event == GateClose && a.eventTime == ScheduleAt(now + b.tGateClose)
  }

  /** PWM_EVENT: the level steps and the event comes back PWM_EVENT_PPQN ticks later. */
  predicate PwmDispatched(b: ChannelState, a: ChannelState, now: nat, d: ChannelDraws) {
    && PwmStepped(b, a, d.level, d.sineLevel)
    && a.dOut == b.dOut && a.gateOpen == b.gateOpen && a.swinging == b.swinging
    && a.event == PwmEvent && a.eventTime == ScheduleAt(now + PWM_EVENT_PPQN)
  }

  /** The dispatch of a due channel at tick `now`, by its pending event;
      settings and gate times never change. */
  predicate Dispatched(b: ChannelState, a: ChannelState, now: nat, table: seq<uint8>, d: ChannelDraws)
    requires |table| == CLOCK_LENGTH_SWINGABLE_LIMIT
  {
    && a.settings == b.settings
    && a.tGateOpen == b.tGateOpen && a.tGateClose == b.tGateClose
    && match b.event
       case NoEvent => a == b
       case GateClose => GateClosed(b, a, now, table, d.coin)
       case GateOpen => GateOpened(b, a, now)
       case PwmEvent => PwmDispatched(b, a, now, d)
  }

  /** A channel is dispatched when its event is due and left alone otherwise. */
  predicate TickedChannel(b: ChannelState, a: ChannelState, now: nat, table: seq<uint8>, d: ChannelDraws)
    requires |table| == CLOCK_LENGTH_SWINGABLE_LIMIT
  {
    if b.eventTime == now then Dispatched(b, a, now, table, d) else a == b
  }

  /** GateDecided looks only at the settings, the gate and the index of
      the state before. */
  lemma GateDecidedOnPlayback(b: ChannelState, b': ChannelState, a: ChannelState, coin: nat)
    requires GateDecided(b, a, coin)
    requires b'.settings == b.settings && b'.gateOpen == b.gateOpen && b'.sequenceIndex == b.sequenceIndex
    ensures GateDecided(b', a, coin)
  {
  }

  /** handlePwmEvent's field-wise contract is the PWM step of the whole state. */
  lemma PwmSteppedIntro(b: ChannelState, a: ChannelState, level: nat, sineLevel: uint8)
    requires a.settings == b.settings && InTable(b.settings)
    requires a.pwmPpqnCounter == PwmCounterAfter(b.pwmPpqnCounter, NoteTicks(b.settings.clock))
    requires LevelStepped(b.settings, PwmTotal(b.pwmPpqnCounter), b.pwmOut, b.sequenceIndex,
      a.pwmOut, a.sequenceIndex, level, sineLevel)
    ensures PwmStepped(b, a, level, sineLevel)
  {
  }

  /** A PWM step followed by setPwmEvent is the PWM_EVENT dispatch:
      PwmStepped does not look at the pending event of the state after. */
  lemma PwmStepRescheduled(b: ChannelState, a: ChannelState, a': ChannelState, now: nat, d: ChannelDraws)
    requires PwmStepped(b, a, d.level, d.sineLevel)
    requires a'.settings == a.settings && a'.pwmPpqnCounter == a.pwmPpqnCounter
    requires a'.pwmOut == a.pwmOut && a'.sequenceIndex == a.sequenceIndex
    requires a'.dOut == b.dOut && a'.gateOpen == b.gateOpen && a'.swinging == b.swinging
    requires a'.event == PwmEvent && a'.eventTime == ScheduleAt(now + PWM_EVENT_PPQN)
    ensures PwmDispatched(b, a', now, d)
  {
  }

  /** Dispatch keeps a channel valid. */
  lemma DispatchKeepsValid(b: ChannelState, a: ChannelState, now: nat, table: seq<uint8>, d: ChannelDraws, i: nat)
    requires |table| == CLOCK_LENGTH_SWINGABLE_LIMIT
    requires StateValid(b, i) && Dispatched(b, a, now, table, d)
    ensures StateValid(a, i)
  {
  }

  /** The output commit of a tick at counter c, of the edit of channel k:
      applied exactly when one was pending and the tick starts a bar, and
      pending afterwards exactly when it was not applied. */
  predicate OutputCommitted(c: nat, k: nat, pendingAfter: bool, editAfter: EditState,
                            before: seq<ChannelState>, after: seq<ChannelState>,
                            pending: bool, edit: EditState, level: nat)
  {
    && |before| == NUM_OUTPUTS && |after| == NUM_OUTPUTS && k < NUM_OUTPUTS
    && pendingAfter == (pending && !AtBar(c))
    && if pending && AtBar(c) then
         && editAfter == CommitEdit(edit)
         && after[k].settings == CommittedSettings(before[k].settings, edit)
         && Rescheduled(before[k], after[k], c, level)
         && forall j :: 0 <= j < NUM_OUTPUTS && j != k ==> after[j] == before[j]
       else
         editAfter == edit && after == before
  }

  /** The swing commit of a tick at counter c: every channel rescheduled
      with its settings kept, exactly when one was pending and the tick
      starts a bar. */
  predicate SwingCommitted(c: nat, pendingAfter: bool, before: seq<ChannelState>, after: seq<ChannelState>,
                           pending: bool, levels: seq<nat>)
    requires Levels(levels)
  {
    && |before| == NUM_OUTPUTS && |after| == NUM_OUTPUTS
    && pendingAfter == (pending && !AtBar(c))
    && if pending && AtBar(c) then
         forall j :: 0 <= j < NUM_OUTPUTS ==>
           after[j].settings == before[j].settings
           && Rescheduled(before[j], after[j], c, levels[j])
       else
         after == before
  }

  /** The switch over the due channel's event in the interrupt. */
  method DispatchOutput(o: Output, now: nat, table: array<uint8>, d: ChannelDraws, ghost i: nat)
    requires ChannelValid(o, i) && now < INTERRUPT_COUNTER_LIMIT
    requires table.Length == CLOCK_LENGTH_SWINGABLE_LIMIT && d.coin < 100 && d.level < 255
    modifies o
    ensures ChannelValid(o, i)
    ensures Dispatched(old(o.State()), o.State(), now, table[..], d)
  {
    match o.event
    case NoEvent =>
    case GateClose =>
      CloseGate(o, now, table, d.coin);
    case GateOpen =>
      OpenGate(o, now);
    case PwmEvent =>
      StepPwm(o, now, d);
    DispatchKeepsValid(old(o.State()), o.State(), now, table[..], d, i);
  }

  /** The GATE_CLOSE case. */
  method CloseGate(o: Output, now: nat, table: array<uint8>, coin: nat)
    requires o.Valid() && now < INTERRUPT_COUNTER_LIMIT
    requires table.Length == CLOCK_LENGTH_SWINGABLE_LIMIT && coin < 100
    modifies o
    ensures o.Valid() && o.Settings() == old(o.Settings())
    ensures o.tGateOpen == old(o.tGateOpen) && o.tGateClose == old(o.tGateClose)
    ensures GateClosed(old(o.State()), o.State(), now, table[..], coin)
  {
    o.dOut := false;
    o.pwmOut := 0;
    ghost var dropped := o.State();
    if o.clockLength < CLOCK_LENGTH_SWINGABLE_LIMIT as uint8 {
      var swing := table[o.clockLength];
      o.SetSwingGateOpenEvent(now, swing, coin);
    } else {
      o.SetGateOpenEvent(now, coin);
    }
    GateDecidedOnPlayback(dropped, old(o.State()), o.State(), coin);
  }

  /** The GATE_OPEN case. */
  method OpenGate(o: Output, now: nat)
    requires o.Valid() && now < INTERRUPT_COUNTER_LIMIT
    modifies o
    ensures o.Valid() && o.Settings() == old(o.Settings())
    ensures o.tGateOpen == old(o.tGateOpen) && o.tGateClose == old(o.tGateClose)
    ensures GateOpened(old(o.State()), o.State(), now)
  {
    o.pwmOut := 0;
    if o.gateOpen {
      o.dOut := true;
    }
    o.SetGateCloseEvent(now);
  }

  /** The PWM_EVENT case. */
  method StepPwm(o: Output, now: nat, d: ChannelDraws)
    requires o.Valid() && d.level < 255
    requires (o.outputType == SAW || o.outputType == SAW_INVERTED) ==> 0 < NoteTicks(o.gateLength)
    modifies o`pwmPpqnCounter, o`pwmOut, o`sequenceIndex, o`event, o`eventTime
    ensures o.Valid() && o.Settings() == old(o.Settings())
    ensures o.tGateOpen == old(o.tGateOpen) && o.tGateClose == old(o.tGateClose)
    ensures PwmDispatched(old(o.State()), o.State(), now, d)
  {
    ghost var b := o.State();
    o.HandlePwmEvent(d.level, d.sineLevel);
    ghost var stepped := o.State();
    PwmSteppedIntro(b, stepped, d.level, d.sineLevel);
    o.SetPwmEvent(Wrap16(now + PWM_EVENT_PPQN));
    PwmStepRescheduled(b, stepped, o.State(), now, d);
  }

  /** The loop of the interrupt over the eight channels. */
  method DispatchOutputs(m: Model, draws: seq<ChannelDraws>)
    requires m.Valid() && DrawsValid(draws)
    modifies m.outputs
    ensures m.Valid()
    ensures forall j :: 0 <= j < NUM_OUTPUTS ==>
      TickedChannel(old(m.outputs[j].State()), m.outputs[j].State(), m.interruptCounter, m.swingTable[..], draws[j])
  {
    var i := 0;
    while i < NUM_OUTPUTS
      invariant 0 <= i <= NUM_OUTPUTS
      invariant m.ChannelsValid()
      invariant forall j :: 0 <= j < i ==>
        TickedChannel(old(m.outputs[j].State()), m.outputs[j].State(), m.interruptCounter, m.swingTable[..], draws[j])
      invariant forall j :: i <= j < NUM_OUTPUTS ==> m.outputs[j].State() == old(m.outputs[j].State())
    {
      label LoopHead:
      var o := m.outputs[i];
      if m.interruptCounter == o.eventTime {
        DispatchOutput(o, m.interruptCounter, m.swingTable, draws[i], i);
      }
      forall j | 0 <= j < NUM_OUTPUTS && j != i
        ensures m.outputs[j].State() == old@LoopHead(m.outputs[j].State())
        ensures ChannelValid(m.outputs[j], j)
      {
        assert m.outputs[j] != o;
      }
      i := i + 1;
    }
  }

  /** One tick of the interrupt.  The ghost results are the channel states
      after the output commit and after the swing commit, the states the
      dispatch starts from.  `commitLevel` and `levels` are the draws of
      random(255) the resets of the commits take. */
  method Tick(m: Model, commitLevel: nat, levels: seq<nat>, draws: seq<ChannelDraws>)
    returns (ghost committed: seq<ChannelState>, ghost due: seq<ChannelState>)
    requires m.Valid() && commitLevel < 255 && Levels(levels) && DrawsValid(draws)
    modifies m`interruptCounter, m`outputChangesReadyForCommit, m`editGateLength
    modifies m`swingChangeReadyForCommit, m.outputs
    ensures m.Valid()
    ensures !m.clockRunning ==>
      && m.interruptCounter == old(m.interruptCounter)
      && m.outputChangesReadyForCommit == old(m.outputChangesReadyForCommit)
      && m.swingChangeReadyForCommit == old(m.swingChangeReadyForCommit)
      && m.Edit() == old(m.Edit())
      && States(m.outputs) == old(States(m.outputs))
    ensures m.clockRunning ==> m.interruptCounter == NextCounter(old(m.interruptCounter))
    ensures m.clockRunning ==>
      OutputCommitted(m.interruptCounter, m.currentOutput as nat, m.outputChangesReadyForCommit, m.Edit(),
        old(States(m.outputs)), committed, old(m.outputChangesReadyForCommit), old(m.Edit()), commitLevel)
    ensures m.clockRunning ==>
      SwingCommitted(m.interruptCounter, m.swingChangeReadyForCommit,
        committed, due, old(m.swingChangeReadyForCommit), levels)
    ensures m.clockRunning ==> forall j :: 0 <= j < NUM_OUTPUTS ==>
      TickedChannel(due[j], m.outputs[j].State(), m.interruptCounter, m.swingTable[..], draws[j])
  {
    if m.clockRunning {
      committed, due := RunningTick(m, commitLevel, levels, draws);
    } else {
      committed := States(m.outputs);
      due := committed;
    }
  }

  /** The tick of a running clock: the counter advances, the commits land
      if the new count starts a bar, and the due channels are dispatched. */
  method RunningTick(m: Model, commitLevel: nat, levels: seq<nat>, draws: seq<ChannelDraws>)
    returns (ghost committed: seq<ChannelState>, ghost due: seq<ChannelState>)
    requires m.Valid() && commitLevel < 255 && Levels(levels) && DrawsValid(draws)
    modifies m`interruptCounter, m`outputChangesReadyForCommit, m`editGateLength
    modifies m`swingChangeReadyForCommit, m.outputs
    ensures m.Valid()
    ensures m.interruptCounter == NextCounter(old(m.interruptCounter))
    ensures OutputCommitted(m.interruptCounter, m.currentOutput as nat, m.outputChangesReadyForCommit, m.Edit(),
      old(States(m.outputs)), committed, old(m.outputChangesReadyForCommit), old(m.Edit()), commitLevel)
    ensures SwingCommitted(m.interruptCounter, m.swingChangeReadyForCommit,
      committed, due, old(m.swingChangeReadyForCommit), levels)
    ensures forall j :: 0 <= j < NUM_OUTPUTS ==>
      TickedChannel(due[j], m.outputs[j].State(), m.interruptCounter, m.swingTable[..], draws[j])
  {
    m.interruptCounter := NextCounter(m.interruptCounter);
    committed, due := CommitsAtBar(m, commitLevel, levels);
    ghost var edit := m.Edit();
    DispatchOutputs(m, draws);
    assert m.Edit() == edit;
  }

  /** The two commits of a tick, on the counter already advanced. */
  method CommitsAtBar(m: Model, commitLevel: nat, levels: seq<nat>)
    returns (ghost committed: seq<ChannelState>, ghost due: seq<ChannelState>)
    requires m.Valid() && commitLevel < 255 && Levels(levels)
    modifies m`outputChangesReadyForCommit, m`editGateLength, m`swingChangeReadyForCommit, m.outputs
    ensures m.Valid() && due == States(m.outputs)
    ensures OutputCommitted(m.interruptCounter, m.currentOutput as nat, m.outputChangesReadyForCommit, m.Edit(),
      old(States(m.outputs)), committed, old(m.outputChangesReadyForCommit), old(m.Edit()), commitLevel)
    ensures SwingCommitted(m.interruptCounter, m.swingChangeReadyForCommit,
      committed, due, old(m.swingChangeReadyForCommit), levels)
  {
    committed := OutputCommitAtBar(m, commitLevel);
    due := SwingCommitAtBar(m, levels);
  }

  /** A pending output edit is committed when the new count starts a bar (CmHardware.cpp:318-320). */
  method OutputCommitAtBar(m: Model, level: nat) returns (ghost committed: seq<ChannelState>)
    requires m.Valid() && level < 255
    modifies m`outputChangesReadyForCommit, m`editGateLength, m.outputs
    ensures m.Valid() && committed == States(m.outputs)
    ensures OutputCommitted(m.interruptCounter, m.currentOutput as nat, m.outputChangesReadyForCommit, m.Edit(),
      old(States(m.outputs)), committed, old(m.outputChangesReadyForCommit), old(m.Edit()), level)
  {
    if m.outputChangesReadyForCommit && m.interruptCounter % PPQN_BAR == 0 {
      m.CommitOutputSettingsChange(level);
    }
    committed := States(m.outputs);
  }

  /** A pending swing change is committed when the new count starts a bar (CmHardware.cpp:322-324). */
  method SwingCommitAtBar(m: Model, levels: seq<nat>) returns (ghost due: seq<ChannelState>)
    requires m.Valid() && Levels(levels)
    modifies m`swingChangeReadyForCommit, m.outputs
    ensures m.Valid() && due == States(m.outputs)
    ensures SwingCommitted(m.interruptCounter, m.swingChangeReadyForCommit,
      old(States(m.outputs)), due, old(m.swingChangeReadyForCommit), levels)
  {
    if m.swingChangeReadyForCommit && m.interruptCounter % PPQN_BAR == 0 {
      m.CommitSwingChange(levels);
    }
    due := States(m.outputs);
  }

  /** Channel 0 as setupDefaultOutputs leaves it (a 1/4 clock with a 1/8
      gate), reset at tick 0: its gate closes at 96, opens again at 192 and
      closes at 288, raised between 192 and 288. */
  lemma DefaultChannelZeroTimeline(word: nat, b: ChannelState, a0: ChannelState, a1: ChannelState,
                                   a2: ChannelState, level: nat, table: seq<uint8>,
                                   d1: ChannelDraws, d2: ChannelDraws)
    requires |table| == CLOCK_LENGTH_SWINGABLE_LIMIT
    requires a0.settings == DefaultSettings(0, word) && Rescheduled(b, a0, 0, level)
    requires Dispatched(a0, a1, 96, table, d1) && Dispatched(a1, a2, 192, table, d2)
    ensures a0.event == GateClose && a0.eventTime == 96
    ensures a1.event == GateOpen && a1.eventTime == 192 && !a1.dOut
    ensures a2.event == GateClose && a2.eventTime == 288 && a2.dOut
  {
    var s := a0.settings;
    assert s.clock == CLOCK_1x4 && s.gate == CLOCK_1x8 && s.kind == CLOCK && s.delay == 0;
    assert NoteTicks(CLOCK_1x4) == 192 && NoteTicks(CLOCK_1x8) == 96;
    assert a0.tGateClose == 96 && a0.tGateOpen == 96;
  }
}
