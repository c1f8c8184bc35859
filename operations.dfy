/**
 * The controller's commands as functions from the state before the call to
 * the state after it. Each function performs the same register stores and
 * collaborator calls, in the same order, as the command does. What a command
 * achieves is stated in the postconditions of the function or, where the
 * proof would be large, in the lemmas that follow it.
 */
module Operations {
  import opened Bits
  import opened Types
  import opened Platform
  import opened ControllerState

  // ---------------------------------------------------------------- Initialize

  /** Lines 29 and 31: the interrupt line becomes an output driven high (its idle level). */
  function SetUpInterruptLine(s: State, c: Config): State {
    var output := StoreRegister(s, InterruptDdr, SetBits(s.regs.interruptDdr, c.interruptDdBm));
    StoreRegister(output, InterruptPort, SetBits(output.regs.interruptPort, c.interruptBm))
  }

  /** Lines 34-39: both limit-switch pins become inputs, then get their pull-ups. */
  function SetUpLimitSwitches(s: State, c: Config): State {
    var zInput := StoreRegister(s, LimitSwitchDdr, ClearBits(s.regs.limitSwitchDdr, c.zLimitSwitchDdBm));
    var rInput := StoreRegister(zInput, LimitSwitchDdr, ClearBits(zInput.regs.limitSwitchDdr, c.rLimitSwitchDdBm));
    var zPullUp := StoreRegister(rInput, LimitSwitchPort, SetBits(rInput.regs.limitSwitchPort, c.zLimitSwitchBm));
    StoreRegister(zPullUp, LimitSwitchPort, SetBits(zPullUp.regs.limitSwitchPort, c.rLimitSwitchBm))
  }

  /** Lines 42-46: the switches' pin-change group is enabled, then both switch pins are masked. */
  function SetUpPinChange(s: State, c: Config): State {
    var enabled := StoreRegister(s, Pcicr, SetBits(s.regs.pcicr, c.limitSwitchPcieBm));
    var zMasked := StoreRegister(enabled, Pcmsk, ClearBits(enabled.regs.pcmsk, c.zPcintBm));
    StoreRegister(zMasked, Pcmsk, ClearBits(zMasked.regs.pcmsk, c.rPcintBm))
  }

  /**
   * MotorController::Initialize: the register set-up above, then the motors
   * driver, the planner and the canonical machine are initialised.
   */
  function Initialize(s: State, c: Config): State {
    var configured := SetUpPinChange(SetUpLimitSwitches(SetUpInterruptLine(s, c), c), c);
    CmInitCall(MpInitCall(MotorsInitializeCall(configured)))
  }

  /** The interrupt line is an output idling high; no other bit of its registers changes. */
  lemma InitializeInterruptLine(s: State, c: Config)
    ensures Raised(s.regs.interruptDdr, Initialize(s, c).regs.interruptDdr, c.interruptDdBm)
    ensures Raised(s.regs.interruptPort, Initialize(s, c).regs.interruptPort, c.interruptBm)
  {
  }

  /**
   * Both limit-switch pins are inputs (DDR bits clear) with pull-ups (PORT
   * bits set); no other pin of their port changes.
   */
  lemma InitializeLimitSwitchPins(s: State, c: Config)
    ensures Lowered(s.regs.limitSwitchDdr, Initialize(s, c).regs.limitSwitchDdr, c.LimitSwitchDdBms())
    ensures Raised(s.regs.limitSwitchPort, Initialize(s, c).regs.limitSwitchPort, c.LimitSwitchBms())
  {
  }

  /** The two pin-change registers after initialisation, store by store. */
  lemma InitializePinChangeRegisters(s: State, c: Config)
    ensures Initialize(s, c).regs.pcicr == SetBits(s.regs.pcicr, c.limitSwitchPcieBm)
    ensures Initialize(s, c).regs.pcmsk == ClearBits(ClearBits(s.regs.pcmsk, c.zPcintBm), c.rPcintBm)
  {
  }

  /** The pin-change group of the limit switches is enabled; no other PCICR bit changes. */
  lemma InitializeEnablesPinChange(s: State, c: Config)
    ensures Raised(s.regs.pcicr, Initialize(s, c).regs.pcicr, c.limitSwitchPcieBm)
  {
  }

  /** Both switch pins are masked in PCMSK; no other pin's mask bit changes. */
  lemma InitializeMasksLimitSwitches(s: State, c: Config)
    ensures Lowered(s.regs.pcmsk, Initialize(s, c).regs.pcmsk, c.PcintBms())
  {
  }

  /** So no switch transition raises an interrupt until homing arms one. */
  lemma InitializeDisarmsLimitInterrupts(s: State, c: Config, axis: Axis)
    ensures !Initialize(s, c).Armed(c, axis)
  {
  }

  /**
   * The registers Initialize stores into, in program order: the interrupt
   * line, then the limit-switch pins (Z before R on each), then PCICR before
   * the two PCMSK clears.
   */
  const InitializeRegisters: seq<Register> :=
    [InterruptDdr, InterruptPort, LimitSwitchDdr, LimitSwitchDdr,
     LimitSwitchPort, LimitSwitchPort, Pcicr, Pcmsk, Pcmsk]

  /**
   * Nine register stores come first, into InitializeRegisters in that order;
   * then Motors::Initialize, mp_init and cm_init, in that order.
   */
  lemma InitializeOrder(s: State, c: Config)
    ensures var t := Initialize(s, c);
      && |t.trace| == |s.trace| + 12 && t.trace[..|s.trace|] == s.trace
      && (forall k | 0 <= k < 9 ::
            t.trace[|s.trace| + k].Store? && t.trace[|s.trace| + k].register == InitializeRegisters[k])
      && t.trace[|s.trace| + 9..] == [MotorsInitialize, MpInit, CmInit]
  {
  }

  /**
   * The planner starts empty, the canonical machine idle; the settings, the
   * flag, the counters and the driver mode are left as they were.
   */
  lemma InitializeResetsSubsystems(s: State, c: Config)
    ensures var t := Initialize(s, c);
      && t.planner == s.planner.(buffer := [])
      && t.machine == CanonicalMachine(Off, false)
      && t.motors == s.motors && t.motionComplete == s.motionComplete
      && t.zAxisSettings == s.zAxisSettings && t.rAxisSettings == s.rAxisSettings
      && t.stepCount == s.stepCount && t.pulsesPerUnit == s.pulsesPerUnit
  {
  }

  // --------------------------------------------------------------------- Reset

  /** MotorController::Reset: a motors-driver reset and nothing else. */
  function Reset(s: State): (t: State)
    ensures t.trace == s.trace + [MotorsReset]
    ensures t.Observable() == s.Observable()
  {
    MotorsResetCall(s)
  }

  // --------------------------------------------------------- GenerateInterrupt

  /**
   * MotorController::GenerateInterrupt: the interrupt line is driven low and
   * then high again; the 50 ms between the two stores is not modelled.
   */
  function GenerateInterrupt(s: State, c: Config): State {
    var low := StoreRegister(s, InterruptPort, ClearBits(s.regs.interruptPort, c.interruptBm));
    StoreRegister(low, InterruptPort, SetBits(low.regs.interruptPort, c.interruptBm))
  }

  /** The line ends high; no other bit of any register, and nothing else, changes. */
  lemma GenerateInterruptEndsHigh(s: State, c: Config)
    ensures var t := GenerateInterrupt(s, c);
      && Raised(s.regs.interruptPort, t.regs.interruptPort, c.interruptBm)
      && t.Observable() == s.Observable().(regs := s.regs.(interruptPort := t.regs.interruptPort))
  {
  }

  /** The pulse is two stores to the interrupt PORT: the line low, then high. */
  lemma GenerateInterruptPulsesLow(s: State, c: Config)
    ensures var t := GenerateInterrupt(s, c);
      && |t.trace| == |s.trace| + 2 && t.trace[..|s.trace|] == s.trace
      && t.trace[|s.trace|].Store? && t.trace[|s.trace|].register == InterruptPort
      && Lowered(s.regs.interruptPort, t.trace[|s.trace|].value, c.interruptBm)
      && t.trace[|s.trace| + 1] == Store(InterruptPort, t.regs.interruptPort)
      && c.interruptBm <= t.regs.interruptPort
  {
  }

  /** A pulse started from the idle-high line ends with every register as it was. */
  lemma PulseReturnsToIdle(s: State, c: Config)
    requires c.interruptBm <= s.regs.interruptPort
    ensures GenerateInterrupt(s, c).regs == s.regs
  {
  }

  // ----------------------------------------------------- HandleSettingsCommand

  /**
   * MotorController::HandleSettingsCommand on the settings record of `axis`:
   * a recognised command writes exactly its own field; only the
   * microstepping command also reconfigures the motors driver, with the same
   * `uint8_t` value; an unrecognised command changes nothing.
   */
  function HandleSettingsCommand(s: State, ev: EventData, axis: Axis): (t: State)
    ensures forall f: Setting :: (t.Settings(axis).Get(f) ==
      if ev.command == Recognized(f) then StoredValue(f, ev.parameter) else s.Settings(axis).Get(f))
    ensures t.Settings(axis.Other()) == s.Settings(axis.Other())
    ensures t.motors.microsteppingMode ==
      if ev.command == Recognized(MicrosteppingMode) then ToUint8(ev.parameter) else s.motors.microsteppingMode
    ensures t.trace ==
      if ev.command == Recognized(MicrosteppingMode) then s.trace + [MotorsSetMicrosteppingMode(ToUint8(ev.parameter))]
      else s.trace
    ensures t.regs == s.regs && t.motionComplete == s.motionComplete
    ensures t.stepCount == s.stepCount && t.pulsesPerUnit == s.pulsesPerUnit
    ensures t.planner == s.planner && t.machine == s.machine
    ensures ev.command.Unrecognized? ==> t == s
  {
    var st := s.Settings(axis);
    var p := ev.parameter;
    match ev.command
    case Recognized(StepAngle) => s.WithSettings(axis, st.(stepAngle := p))
    case Recognized(UnitsPerRevolution) => s.WithSettings(axis, st.(unitsPerRevolution := p))
    case Recognized(MicrosteppingMode) =>
      var driven := MotorsSetMicrosteppingModeCall(s, ToUint8(p));
      driven.WithSettings(axis, st.(microsteppingMode := ToUint8(p)))
    case Recognized(MaxJerk) => s.WithSettings(axis, st.(maxJerk := p))
    case Recognized(Speed) => s.WithSettings(axis, st.(speed := p))
    case Recognized(MaxSpeed) => s.WithSettings(axis, st.(maxSpeed := p))
    case Unrecognized(_) => s
  }

  // ---------------------------------------------------------------------- Move

  /**
   * MotorController::Move: counters reset, pulses-per-unit cached from the
   * settings, both axis positions made zero whichever axis moves, then a
   * cycle start and one straight feed of the distance's magnitude.
   */
  function Move(s: State, c: Config, motorIndex: uint8, distance: int32, settings: AxisSettings): (t: State)
    ensures t.stepCount == 0
    ensures t.pulsesPerUnit == c.pulsesPerUnit(settings)
    ensures t.planner.positions.Keys == s.planner.positions.Keys + {c.zAxis, c.rAxis}
    ensures t.planner.positions[c.zAxis] == 0.0 && t.planner.positions[c.rAxis] == 0.0
    ensures forall k | k in s.planner.positions && k != c.zAxis && k != c.rAxis ::
      t.planner.positions[k] == s.planner.positions[k]
    ensures t.planner.buffer == s.planner.buffer + [Block(motorIndex, Magnitude(distance), settings)]
    ensures t.machine == s.machine.(cycle := Machining)
    ensures t.regs == s.regs && t.motionComplete == s.motionComplete && t.motors == s.motors
    ensures t.zAxisSettings == s.zAxisSettings && t.rAxisSettings == s.rAxisSettings
    ensures t.trace == s.trace + [MpSetAxisPosition(c.zAxis, 0.0), MpSetAxisPosition(c.rAxis, 0.0),
                                  CmCycleStart, CmStraightFeed(Block(motorIndex, Magnitude(distance), settings))]
  {
    var counted := s.(stepCount := 0, pulsesPerUnit := c.pulsesPerUnit(settings));
    var zeroed := MpSetAxisPositionCall(MpSetAxisPositionCall(counted, c.zAxis, 0.0), c.rAxis, 0.0);
    CmStraightFeedCall(CmCycleStartCall(zeroed), Block(motorIndex, Magnitude(distance), settings))
  }

  /** A move and the same move in the opposite direction submit the same request. */
  lemma MoveIgnoresSign(s: State, c: Config, motorIndex: uint8, distance: int32, settings: AxisSettings)
    requires distance as int != -0x8000_0000
    ensures Move(s, c, motorIndex, -distance, settings) == Move(s, c, motorIndex, distance, settings)
  {
  }

  // ------------------------------------------------------ HomeZAxis, HomeRAxis

  /**
   * The common shape of HomeZAxis and HomeRAxis, with `switchHit` the level
   * of the axis's limit switch at the time of the call: at home, the
   * motion-complete flag is set; otherwise the axis's pin-change bit
   * `pcintBm` is armed with `LIMIT_SW_PCMSK |= pcintBm`, then the homing
   * move is issued with the axis's motor index and settings.
   */
  function HomeAxis(s: State, c: Config, switchHit: bool, pcintBm: Byte, motorIndex: uint8,
                    settings: AxisSettings, distance: int32): State
  {
    if switchHit then
      s.(motionComplete := true)
    else
      var armed := StoreRegister(s, Pcmsk, SetBits(s.regs.pcmsk, pcintBm));
      Move(armed, c, motorIndex, distance, settings)
  }

  /** MotorController::HomeZAxis */
  function HomeZAxis(s: State, c: Config, homingDistance: int32, switchHit: bool): State {
    HomeAxis(s, c, switchHit, c.zPcintBm, c.zAxis, s.zAxisSettings, homingDistance)
  }

  /** MotorController::HomeRAxis */
  function HomeRAxis(s: State, c: Config, homingDistance: int32, switchHit: bool): State {
    HomeAxis(s, c, switchHit, c.rPcintBm, c.rAxis, s.rAxisSettings, homingDistance)
  }

  /** At home: the flag is set and nothing else changes, no register, no call. */
  lemma HomingAlreadyHome(s: State, c: Config, pcintBm: Byte, motorIndex: uint8, settings: AxisSettings, distance: int32)
    ensures var t := HomeAxis(s, c, true, pcintBm, motorIndex, settings, distance);
      t.motionComplete && t.Observable() == s.Observable().(motionComplete := true) && t.trace == s.trace
  {
  }

  /**
   * Not at home: the axis's pin-change bit is set, every other bit of the
   * mask is kept, and no other register changes.
   */
  lemma HomingSeekArmsAxis(s: State, c: Config, pcintBm: Byte, motorIndex: uint8, settings: AxisSettings, distance: int32)
    ensures var t := HomeAxis(s, c, false, pcintBm, motorIndex, settings, distance);
      Raised(s.regs.pcmsk, t.regs.pcmsk, pcintBm) && t.regs == s.regs.(pcmsk := t.regs.pcmsk)
  {
  }

  /**
   * Not at home: the homing move is queued for the axis's motor with the
   * axis's settings and the distance's magnitude; the flag is untouched.
   */
  lemma HomingSeekMovesAxis(s: State, c: Config, pcintBm: Byte, motorIndex: uint8, settings: AxisSettings, distance: int32)
    ensures var t := HomeAxis(s, c, false, pcintBm, motorIndex, settings, distance);
      && t.motionComplete == s.motionComplete
      && t.stepCount == 0 && t.pulsesPerUnit == c.pulsesPerUnit(settings)
      && t.planner.buffer == s.planner.buffer + [Block(motorIndex, Magnitude(distance), settings)]
      && t.machine == s.machine.(cycle := Machining)
      && t.zAxisSettings == s.zAxisSettings && t.rAxisSettings == s.rAxisSettings && t.motors == s.motors
  {
  }

  /** Not at home: the arming store is the first effect, before the cycle start and the feed. */
  lemma HomingSeekArmsBeforeCycleStart(s: State, c: Config, pcintBm: Byte, motorIndex: uint8, settings: AxisSettings, distance: int32)
    ensures var t := HomeAxis(s, c, false, pcintBm, motorIndex, settings, distance);
      && |t.trace| == |s.trace| + 5 && t.trace[..|s.trace|] == s.trace
      && t.trace[|s.trace|] == Store(Pcmsk, SetBits(s.regs.pcmsk, pcintBm))
      && t.trace[|s.trace| + 3] == CmCycleStart && t.trace[|s.trace| + 4].CmStraightFeed?
  {
  }

  /** Homing the Z axis away from home arms the Z limit interrupt. */
  lemma HomeZAxisArmsZ(s: State, c: Config, homingDistance: int32)
    requires c.SeparateSwitchPins()
    ensures HomeZAxis(s, c, homingDistance, false).Armed(c, Z)
  {
  }

  /** Homing the Z axis leaves the R limit interrupt armed or not as it was. */
  lemma HomeZAxisKeepsR(s: State, c: Config, homingDistance: int32)
    requires c.SeparateSwitchPins()
    ensures HomeZAxis(s, c, homingDistance, false).Armed(c, R) == s.Armed(c, R)
  {
  }

  /** Homing the R axis away from home arms the R limit interrupt. */
  lemma HomeRAxisArmsR(s: State, c: Config, homingDistance: int32)
    requires c.SeparateSwitchPins()
    ensures HomeRAxis(s, c, homingDistance, false).Armed(c, R)
  {
  }

  /** Homing the R axis leaves the Z limit interrupt armed or not as it was. */
  lemma HomeRAxisKeepsZ(s: State, c: Config, homingDistance: int32)
    requires c.SeparateSwitchPins()
    ensures HomeRAxis(s, c, homingDistance, false).Armed(c, Z) == s.Armed(c, Z)
  {
  }

  // --------------------------------------------------- HandleAxisLimitReached

  /** MotorController::HandleAxisLimitReached: a feedhold request and nothing else. */
  function HandleAxisLimitReached(s: State): (t: State)
    ensures t.machine.feedholdRequested
    ensures t.Observable() == s.Observable().(machine := s.machine.(feedholdRequested := true))
    ensures t.trace == s.trace + [CmBeginFeedhold]
  {
    CmBeginFeedholdCall(s)
  }

  /** A second feedhold request changes nothing but the history of calls. */
  lemma FeedholdRequestIdempotent(s: State)
    ensures HandleAxisLimitReached(HandleAxisLimitReached(s)).Observable() == HandleAxisLimitReached(s).Observable()
  {
  }

  // ---------------------------------------------------------------- EndMotion

  /**
   * MotorController::EndMotion: step count zero, planner buffer flushed and
   * the cycle ended, whatever the state before.
   */
  function EndMotion(s: State): (t: State)
    ensures t.stepCount == 0 && t.planner.buffer == [] && t.machine.cycle == Off
    ensures t.Observable() == s.Observable().(stepCount := 0, planner := t.planner, machine := t.machine)
    ensures t.planner.positions == s.planner.positions
    ensures t.machine.feedholdRequested == s.machine.feedholdRequested
    ensures t.trace == s.trace + [MpInitBuffers, CmCycleEnd]
  {
    CmCycleEndCall(MpInitBuffersCall(s.(stepCount := 0)))
  }

  /** Ending motion a second time changes nothing but the history of calls. */
  lemma EndMotionIdempotent(s: State)
    ensures EndMotion(EndMotion(s)).Observable() == EndMotion(s).Observable()
  {
  }
}
