/**
 * Sequences of controller commands, as the firmware's state machine issues
 * them one after another, and what holds after any such sequence: which
 * limit interrupts are armed, whether motion is complete, which value each
 * setting holds, how many blocks the planner has queued and what the
 * canonical machine is doing.
 */
module Runs {
  import opened Bits
  import opened Types
  import opened Platform
  import opened ControllerState
  import Operations

  /** One command of MotorController, with the inputs it reads at the time of the call. */
  datatype Call =
    | Initialize
    | Reset
    | GenerateInterrupt
    | HandleSettingsCommand(event: EventData, axis: Axis)
    | HomeZAxis(homingDistance: int32, switchHit: bool)
    | HomeRAxis(homingDistance: int32, switchHit: bool)
    | HandleAxisLimitReached
    | Move(motorIndex: uint8, distance: int32, settings: AxisSettings)
    | EndMotion

  function Apply(s: State, c: Config, call: Call): State {
    match call
    case Initialize => Operations.Initialize(s, c)
    case Reset => Operations.Reset(s)
    case GenerateInterrupt => Operations.GenerateInterrupt(s, c)
    case HandleSettingsCommand(ev, axis) => Operations.HandleSettingsCommand(s, ev, axis)
    case HomeZAxis(d, hit) => Operations.HomeZAxis(s, c, d, hit)
    case HomeRAxis(d, hit) => Operations.HomeRAxis(s, c, d, hit)
    case HandleAxisLimitReached => Operations.HandleAxisLimitReached(s)
    case Move(i, d, st) => Operations.Move(s, c, i, d, st)
    case EndMotion => Operations.EndMotion(s)
  }

  /** The state after the commands of `calls`, first to last. */
  function Run(s: State, c: Config, calls: seq<Call>): State
    decreases |calls|
  {
    if calls == [] then s else Apply(Run(s, c, calls[..|calls| - 1]), c, calls[|calls| - 1])
  }

  /** A homing command for `axis` that found the switch open and so starts a seek. */
  predicate Seeks(call: Call, axis: Axis) {
    ((call.HomeZAxis? && axis == Z) || (call.HomeRAxis? && axis == R)) && !call.switchHit
  }

  /** A homing command that found its axis already at home. */
  predicate FindsHome(call: Call) {
    (call.HomeZAxis? || call.HomeRAxis?) && call.switchHit
  }

  /** A command that queues one straight feed. */
  predicate Feeds(call: Call) {
    call.Move? || Seeks(call, Z) || Seeks(call, R)
  }

  /** A command that empties the planner buffer. */
  predicate Flushes(call: Call) {
    call.Initialize? || call.EndMotion?
  }

  /** A settings command that writes field `f` of `axis`. */
  predicate Writes(call: Call, axis: Axis, f: Setting) {
    call.HandleSettingsCommand? && call.axis == axis && call.event.command == Recognized(f)
  }

  // ------------------------------------------------------ limit interrupts

  /**
   * Whether the limit interrupt of `axis` is armed after `calls`, read from
   * the commands alone: the last seek of the axis arms it, the last
   * initialisation disarms it, and nothing else touches it.
   */
  function ArmedAfter(calls: seq<Call>, axis: Axis, initially: bool): bool
    decreases |calls|
  {
    if calls == [] then initially
    else
      var last := calls[|calls| - 1];
      if last.Initialize? then false
      else if Seeks(last, axis) then true
      else ArmedAfter(calls[..|calls| - 1], axis, initially)
  }

  /** The pin-change mask after one command, given the mask before it. */
  function MaskStore(pcmsk: Byte, c: Config, call: Call): Byte {
    match call
    case Initialize => ClearBits(ClearBits(pcmsk, c.zPcintBm), c.rPcintBm)
    case HomeZAxis(_, hit) => if hit then pcmsk else SetBits(pcmsk, c.zPcintBm)
    case HomeRAxis(_, hit) => if hit then pcmsk else SetBits(pcmsk, c.rPcintBm)
    case _ => pcmsk
  }

  /** The pin-change mask after `calls`, given the mask before them. */
  function MaskAfter(pcmsk: Byte, c: Config, calls: seq<Call>): Byte
    decreases |calls|
  {
    if calls == [] then pcmsk
    else MaskStore(MaskAfter(pcmsk, c, calls[..|calls| - 1]), c, calls[|calls| - 1])
  }

  /** One command's stores into the pin-change mask. */
  lemma MaskStep(s: State, c: Config, call: Call)
    ensures Apply(s, c, call).regs.pcmsk == MaskStore(s.regs.pcmsk, c, call)
  {
  }

  /**
   * The pin-change mask after any commands is determined by the
   * initialisations and homing seeks among them: no other command stores
   * into it.
   */
  lemma {:induction false} PinChangeMaskAfterRun(s: State, c: Config, calls: seq<Call>)
    ensures Run(s, c, calls).regs.pcmsk == MaskAfter(s.regs.pcmsk, c, calls)
    decreases |calls|
  {
    if calls != [] {
      var before := calls[..|calls| - 1];
      PinChangeMaskAfterRun(s, c, before);
      MaskStep(Run(s, c, before), c, calls[|calls| - 1]);
    }
  }

  /** One command's effect on whether the mask enables the Z switch's interrupt. */
  lemma MaskStoreEnablesZ(pcmsk: Byte, c: Config, call: Call)
    requires c.SeparateSwitchPins()
    ensures c.Enables(MaskStore(pcmsk, c, call), Z) ==
      if call.Initialize? then false else if Seeks(call, Z) then true else c.Enables(pcmsk, Z)
  {
  }

  /** One command's effect on whether the mask enables the R switch's interrupt. */
  lemma MaskStoreEnablesR(pcmsk: Byte, c: Config, call: Call)
    requires c.SeparateSwitchPins()
    ensures c.Enables(MaskStore(pcmsk, c, call), R) ==
      if call.Initialize? then false else if Seeks(call, R) then true else c.Enables(pcmsk, R)
  {
  }

  /** Whether the mask after `calls` enables the interrupt of `axis`, by induction on `calls`. */
  lemma {:induction false} MaskAfterEnables(pcmsk: Byte, c: Config, calls: seq<Call>, axis: Axis)
    requires c.SeparateSwitchPins()
    ensures c.Enables(MaskAfter(pcmsk, c, calls), axis) == ArmedAfter(calls, axis, c.Enables(pcmsk, axis))
    decreases |calls|
  {
    if calls != [] {
      var before := calls[..|calls| - 1];
      MaskAfterEnables(pcmsk, c, before, axis);
      if axis == Z {
        MaskStoreEnablesZ(MaskAfter(pcmsk, c, before), c, calls[|calls| - 1]);
      } else {
        MaskStoreEnablesR(MaskAfter(pcmsk, c, before), c, calls[|calls| - 1]);
      }
    }
  }

  /**
   * A limit interrupt is armed exactly when a seek of its axis came after
   * the last initialisation (or it was armed before and neither happened):
   * the controller never disarms an axis once homing ends.
   */
  lemma LimitInterruptArmedOnlyBySeeking(s: State, c: Config, calls: seq<Call>, axis: Axis)
    requires c.SeparateSwitchPins()
    ensures Run(s, c, calls).Armed(c, axis) == ArmedAfter(calls, axis, s.Armed(c, axis))
  {
    PinChangeMaskAfterRun(s, c, calls);
    MaskAfterEnables(s.regs.pcmsk, c, calls, axis);
  }

  // ------------------------------------------------------- motion complete

  /** One command's effect on the motion-complete flag. */
  lemma MotionCompleteStep(s: State, c: Config, call: Call)
    ensures Apply(s, c, call).motionComplete == (s.motionComplete || FindsHome(call))
  {
  }

  /** Whether some command of `calls` found its axis already at home. */
  function HomeFound(calls: seq<Call>): bool
    decreases |calls|
  {
    calls != [] && (FindsHome(calls[|calls| - 1]) || HomeFound(calls[..|calls| - 1]))
  }

  /** HomeFound read as an existential over the positions of `calls`. */
  lemma {:induction false} HomeFoundSomewhere(calls: seq<Call>)
    ensures HomeFound(calls) <==> exists i | 0 <= i < |calls| :: FindsHome(calls[i])
    decreases |calls|
  {
    if calls != [] {
      var before := calls[..|calls| - 1];
      HomeFoundSomewhere(before);
      if HomeFound(before) {
        var i :| 0 <= i < |before| && FindsHome(before[i]);
        assert calls[i] == before[i];
      }
      if exists i | 0 <= i < |calls| :: FindsHome(calls[i]) {
        var i :| 0 <= i < |calls| && FindsHome(calls[i]);
        if i < |before| {
          assert before[i] == calls[i];
        }
      }
    }
  }

  /** The motion-complete flag after `calls`, by induction on `calls`. */
  lemma {:induction false} MotionCompleteAfterRun(s: State, c: Config, calls: seq<Call>)
    ensures Run(s, c, calls).motionComplete == (s.motionComplete || HomeFound(calls))
    decreases |calls|
  {
    if calls != [] {
      var before := calls[..|calls| - 1];
      MotionCompleteAfterRun(s, c, before);
      MotionCompleteStep(Run(s, c, before), c, calls[|calls| - 1]);
    }
  }

  /**
   * The controller only ever sets the motion-complete flag, and only when a
   * homing command finds its axis already at home.
   */
  lemma MotionCompleteOnlyWhenAtHome(s: State, c: Config, calls: seq<Call>)
    ensures Run(s, c, calls).motionComplete <==>
      s.motionComplete || exists i | 0 <= i < |calls| :: FindsHome(calls[i])
  {
    MotionCompleteAfterRun(s, c, calls);
    HomeFoundSomewhere(calls);
  }

  // -------------------------------------------------------------- settings

  /** The value field `f` of `axis` holds after `calls`: the last write to it wins. */
  function LastWritten(calls: seq<Call>, axis: Axis, f: Setting, initially: int): int
    decreases |calls|
  {
    if calls == [] then initially
    else
      var last := calls[|calls| - 1];
      if Writes(last, axis, f) then StoredValue(f, last.event.parameter)
      else LastWritten(calls[..|calls| - 1], axis, f, initially)
  }

  /** One command's effect on field `f` of `axis`. */
  lemma SettingStep(s: State, c: Config, call: Call, axis: Axis, f: Setting)
    ensures Apply(s, c, call).Settings(axis).Get(f) ==
      if Writes(call, axis, f) then StoredValue(f, call.event.parameter) else s.Settings(axis).Get(f)
  {
  }

  /**
   * Every setting of every axis holds the value of the last settings command
   * that named it, or its initial value if none did: no other command,
   * initialisation included, changes the settings.
   */
  lemma {:induction false} SettingsLastWriterWins(s: State, c: Config, calls: seq<Call>, axis: Axis, f: Setting)
    ensures Run(s, c, calls).Settings(axis).Get(f) == LastWritten(calls, axis, f, s.Settings(axis).Get(f))
    decreases |calls|
  {
    if calls != [] {
      var before := calls[..|calls| - 1];
      SettingsLastWriterWins(s, c, before, axis, f);
      SettingStep(Run(s, c, before), c, calls[|calls| - 1], axis, f);
    }
  }

  // --------------------------------------------------------------- planner

  /** The number of queued blocks after `calls`, from the commands alone. */
  function Pending(calls: seq<Call>, initially: nat): nat
    decreases |calls|
  {
    if calls == [] then initially
    else
      var last := calls[|calls| - 1];
      if Flushes(last) then 0
      else if Feeds(last) then Pending(calls[..|calls| - 1], initially) + 1
      else Pending(calls[..|calls| - 1], initially)
  }

  /** One command's effect on the planner buffer. */
  lemma BufferStep(s: State, c: Config, call: Call)
    ensures |Apply(s, c, call).planner.buffer| ==
      if Flushes(call) then 0 else if Feeds(call) then |s.planner.buffer| + 1 else |s.planner.buffer|
    ensures !Flushes(call) ==> s.planner.buffer <= Apply(s, c, call).planner.buffer
  {
  }

  /**
   * Each move and each homing seek queues exactly one block, initialisation
   * and the end of motion discard every queued block, and no other command
   * touches the buffer; without a flush, the blocks queued before stay
   * queued, in front.
   */
  lemma {:induction false} QueuedBlocks(s: State, c: Config, calls: seq<Call>)
    ensures |Run(s, c, calls).planner.buffer| == Pending(calls, |s.planner.buffer|)
    ensures (forall i | 0 <= i < |calls| :: !Flushes(calls[i])) ==> s.planner.buffer <= Run(s, c, calls).planner.buffer
    decreases |calls|
  {
    if calls != [] {
      var before := calls[..|calls| - 1];
      QueuedBlocks(s, c, before);
      BufferStep(Run(s, c, before), c, calls[|calls| - 1]);
    }
  }

  // ----------------------------------------------------- canonical machine

  /** The machining cycle after `calls`: started by every feed, ended by initialisation and by EndMotion. */
  function CycleAfter(calls: seq<Call>, initially: Cycle): Cycle
    decreases |calls|
  {
    if calls == [] then initially
    else
      var last := calls[|calls| - 1];
      if Flushes(last) then Off
      else if Feeds(last) then Machining
      else CycleAfter(calls[..|calls| - 1], initially)
  }

  /** Whether a feedhold is requested after `calls`: by the limit handler, until the next initialisation. */
  function HoldAfter(calls: seq<Call>, initially: bool): bool
    decreases |calls|
  {
    if calls == [] then initially
    else
      var last := calls[|calls| - 1];
      if last.Initialize? then false
      else if last.HandleAxisLimitReached? then true
      else HoldAfter(calls[..|calls| - 1], initially)
  }

  /** One command's effect on the canonical machine. */
  lemma MachineStep(s: State, c: Config, call: Call)
    ensures Apply(s, c, call).machine == CanonicalMachine(
      if Flushes(call) then Off else if Feeds(call) then Machining else s.machine.cycle,
      if call.Initialize? then false else if call.HandleAxisLimitReached? then true else s.machine.feedholdRequested)
  {
  }

  /**
   * The canonical machine is cycling exactly when a feed came after the last
   * initialisation or end of motion, and a feedhold stays requested from the
   * limit handler until the next initialisation.
   */
  lemma {:induction false} MachineAfterRun(s: State, c: Config, calls: seq<Call>)
    ensures Run(s, c, calls).machine ==
      CanonicalMachine(CycleAfter(calls, s.machine.cycle), HoldAfter(calls, s.machine.feedholdRequested))
    decreases |calls|
  {
    if calls != [] {
      var before := calls[..|calls| - 1];
      MachineAfterRun(s, c, before);
      MachineStep(Run(s, c, before), c, calls[|calls| - 1]);
    }
  }
}
