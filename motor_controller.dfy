/**
 * MotorController as the firmware runs it: the I/O registers, the fields of
 * the shared controller record and the controller's own globals are updated
 * in place, one store or call at a time. Each method is proved to leave the
 * controller in the state that the function of the same name in Operations
 * computes, so everything proved there and in Runs holds of these methods.
 */
module MotorControl {
  import opened Bits
  import opened Types
  import opened Platform
  import opened ControllerState
  import Operations

  class MotorController {
    /** The board's pin masks and axis indices. */
    const config: Config

    var interruptDdr: Byte     // INTERRUPT_DDR
    var interruptPort: Byte    // INTERRUPT_PORT
    var limitSwitchDdr: Byte   // Z_AXIS_LIMIT_SW_DDR, R_AXIS_LIMIT_SW_DDR
    var limitSwitchPort: Byte  // Z_AXIS_LIMIT_SW_PORT, R_AXIS_LIMIT_SW_PORT
    var pcicr: Byte            // PCICR
    var pcmsk: Byte            // LIMIT_SW_PCMSK

    var motionComplete: bool        // mcState->motionComplete
    var zAxisSettings: AxisSettings // mcState->zAxisSettings
    var rAxisSettings: AxisSettings // mcState->rAxisSettings
    var stepCount: int32            // MotorController::stepCount
    var pulsesPerUnit: real         // MotorController::PulsesPerUnit

    var planner: Planner
    var machine: CanonicalMachine
    var motors: Motors

    /** Every register store and collaborator call so far, oldest first. */
    ghost var trace: seq<Event>

    /** The controller's state as a value. */
    ghost function Snapshot(): State
      reads this
    {
      State(Registers(interruptDdr, interruptPort, limitSwitchDdr, limitSwitchPort, pcicr, pcmsk),
            motionComplete, zAxisSettings, rAxisSettings, stepCount, pulsesPerUnit,
            planner, machine, motors, trace)
    }

    /** A controller on board `config`, in whatever state power-up left it. */
    constructor(config: Config, initial: State)
      ensures this.config == config && Snapshot() == initial
    {
      this.config := config;
      interruptDdr := initial.regs.interruptDdr;
      interruptPort := initial.regs.interruptPort;
      limitSwitchDdr := initial.regs.limitSwitchDdr;
      limitSwitchPort := initial.regs.limitSwitchPort;
      pcicr := initial.regs.pcicr;
      pcmsk := initial.regs.pcmsk;
      motionComplete := initial.motionComplete;
      zAxisSettings := initial.zAxisSettings;
      rAxisSettings := initial.rAxisSettings;
      stepCount := initial.stepCount;
      pulsesPerUnit := initial.pulsesPerUnit;
      planner := initial.planner;
      machine := initial.machine;
      motors := initial.motors;
      trace := initial.trace;
    }

    // ------------------------------------------- stores and collaborator calls

    /** One store into an I/O register. */
    method Write(r: Register, v: Byte)
      modifies this
      ensures Snapshot() == StoreRegister(old(Snapshot()), r, v)
    {
      trace := trace + [Store(r, v)];
      match r
      case InterruptDdr => interruptDdr := v;
      case InterruptPort => interruptPort := v;
      case LimitSwitchDdr => limitSwitchDdr := v;
      case LimitSwitchPort => limitSwitchPort := v;
      case Pcicr => pcicr := v;
      case Pcmsk => pcmsk := v;
    }

    /** Motors::Initialize(mcState) */
    method InitMotors()
      modifies this
      ensures Snapshot() == MotorsInitializeCall(old(Snapshot()))
    {
      trace := trace + [MotorsInitialize];
    }

    /** Motors::Reset() */
    method ResetMotors()
      modifies this
      ensures Snapshot() == MotorsResetCall(old(Snapshot()))
    {
      trace := trace + [MotorsReset];
    }

    /** Motors::SetMicrosteppingMode(mode) */
    method SetMicrosteppingMode(mode: uint8)
      modifies this
      ensures Snapshot() == MotorsSetMicrosteppingModeCall(old(Snapshot()), mode)
    {
      motors := Motors(mode);
      trace := trace + [MotorsSetMicrosteppingMode(mode)];
    }

    /** mp_init() */
    method InitPlanner()
      modifies this
      ensures Snapshot() == MpInitCall(old(Snapshot()))
    {
      planner := planner.(buffer := []);
      trace := trace + [MpInit];
    }

    /** mp_init_buffers() */
    method InitPlannerBuffers()
      modifies this
      ensures Snapshot() == MpInitBuffersCall(old(Snapshot()))
    {
      planner := planner.(buffer := []);
      trace := trace + [MpInitBuffers];
    }

    /** mp_set_axis_position(axis, position) */
    method SetAxisPosition(axis: uint8, position: real)
      modifies this
      ensures Snapshot() == MpSetAxisPositionCall(old(Snapshot()), axis, position)
    {
      planner := planner.(positions := planner.positions[axis := position]);
      trace := trace + [MpSetAxisPosition(axis, position)];
    }

    /** cm_init() */
    method InitMachine()
      modifies this
      ensures Snapshot() == CmInitCall(old(Snapshot()))
    {
      machine := CanonicalMachine(Off, false);
      trace := trace + [CmInit];
    }

    /** cm_cycle_start() */
    method CycleStart()
      modifies this
      ensures Snapshot() == CmCycleStartCall(old(Snapshot()))
    {
      machine := machine.(cycle := Machining);
      trace := trace + [CmCycleStart];
    }

    /** cm_straight_feed(motorIndex, distance, settings) */
    method StraightFeed(block: Block)
      modifies this
      ensures Snapshot() == CmStraightFeedCall(old(Snapshot()), block)
    {
      planner := planner.(buffer := planner.buffer + [block]);
      trace := trace + [CmStraightFeed(block)];
    }

    /** cm_cycle_end() */
    method CycleEnd()
      modifies this
      ensures Snapshot() == CmCycleEndCall(old(Snapshot()))
    {
      machine := machine.(cycle := Off);
      trace := trace + [CmCycleEnd];
    }

    /** cm_begin_feedhold() */
    method BeginFeedhold()
      modifies this
      ensures Snapshot() == CmBeginFeedholdCall(old(Snapshot()))
    {
      machine := machine.(feedholdRequested := true);
      trace := trace + [CmBeginFeedhold];
    }

    /** Replaces the settings record of `axis`, the one the command's reference names. */
    method StoreSettings(axis: Axis, st: AxisSettings)
      modifies this
      ensures Snapshot() == old(Snapshot()).WithSettings(axis, st)
    {
      if axis == Z {
        zAxisSettings := st;
      } else {
        rAxisSettings := st;
      }
    }

    // ------------------------------------------------------------- commands

    /** Register set-up, then the motors driver, the planner and the canonical machine. */
    method Initialize()
      modifies this
      ensures Snapshot() == Operations.Initialize(old(Snapshot()), config)
    {
      Write(InterruptDdr, SetBits(interruptDdr, config.interruptDdBm));
      Write(InterruptPort, SetBits(interruptPort, config.interruptBm));

      Write(LimitSwitchDdr, ClearBits(limitSwitchDdr, config.zLimitSwitchDdBm));
      Write(LimitSwitchDdr, ClearBits(limitSwitchDdr, config.rLimitSwitchDdBm));
      Write(LimitSwitchPort, SetBits(limitSwitchPort, config.zLimitSwitchBm));
      Write(LimitSwitchPort, SetBits(limitSwitchPort, config.rLimitSwitchBm));

      Write(Pcicr, SetBits(pcicr, config.limitSwitchPcieBm));
      Write(Pcmsk, ClearBits(pcmsk, config.zPcintBm));
      Write(Pcmsk, ClearBits(pcmsk, config.rPcintBm));

      InitMotors();
      InitPlanner();
      InitMachine();
    }

    /** Motors::Reset() and nothing else. */
    method Reset()
      modifies this
      ensures Snapshot() == Operations.Reset(old(Snapshot()))
    {
      ResetMotors();
    }

    /** The interrupt line low, then high again. */
    method GenerateInterrupt()
      modifies this
      ensures Snapshot() == Operations.GenerateInterrupt(old(Snapshot()), config)
    {
      Write(InterruptPort, ClearBits(interruptPort, config.interruptBm));
      Write(InterruptPort, SetBits(interruptPort, config.interruptBm));
    }

    /** One setter of the settings record of `axis`, chosen by the command tag. */
    method HandleSettingsCommand(eventData: EventData, axis: Axis)
      modifies this
      ensures Snapshot() == Operations.HandleSettingsCommand(old(Snapshot()), eventData, axis)
    {
      var st := if axis == Z then zAxisSettings else rAxisSettings;
      var p := eventData.parameter;
      match eventData.command
      case Recognized(StepAngle) => StoreSettings(axis, st.(stepAngle := p));
      case Recognized(UnitsPerRevolution) => StoreSettings(axis, st.(unitsPerRevolution := p));
      case Recognized(MicrosteppingMode) =>
        SetMicrosteppingMode(ToUint8(p));
        StoreSettings(axis, st.(microsteppingMode := ToUint8(p)));
      case Recognized(MaxJerk) => StoreSettings(axis, st.(maxJerk := p));
      case Recognized(Speed) => StoreSettings(axis, st.(speed := p));
      case Recognized(MaxSpeed) => StoreSettings(axis, st.(maxSpeed := p));
      case Unrecognized(_) =>
    }

    /** Home the Z axis; `zSwitchHit` is the level of its limit switch at the time of the call. */
    method HomeZAxis(homingDistance: int32, zSwitchHit: bool)
      modifies this
      ensures Snapshot() == Operations.HomeZAxis(old(Snapshot()), config, homingDistance, zSwitchHit)
    {
      if zSwitchHit {
        motionComplete := true;
      } else {
        Write(Pcmsk, SetBits(pcmsk, config.zPcintBm));
        Move(config.zAxis, homingDistance, zAxisSettings);
      }
    }

    /** Home the R axis; `rSwitchHit` is the level of its limit switch at the time of the call. */
    method HomeRAxis(homingDistance: int32, rSwitchHit: bool)
      modifies this
      ensures Snapshot() == Operations.HomeRAxis(old(Snapshot()), config, homingDistance, rSwitchHit)
    {
      if rSwitchHit {
        motionComplete := true;
      } else {
        Write(Pcmsk, SetBits(pcmsk, config.rPcintBm));
        Move(config.rAxis, homingDistance, rAxisSettings);
      }
    }

    /** A feedhold request and nothing else. */
    method HandleAxisLimitReached()
      modifies this
      ensures Snapshot() == Operations.HandleAxisLimitReached(old(Snapshot()))
    {
      BeginFeedhold();
    }

    /** Queue one relative movement block for motor `motorIndex`. */
    method Move(motorIndex: uint8, distance: int32, settings: AxisSettings)
      modifies this
      ensures Snapshot() == Operations.Move(old(Snapshot()), config, motorIndex, distance, settings)
    {
      stepCount := 0;
      pulsesPerUnit := config.pulsesPerUnit(settings);
      SetAxisPosition(config.zAxis, 0.0);
      SetAxisPosition(config.rAxis, 0.0);
      CycleStart();
      StraightFeed(Block(motorIndex, Magnitude(distance), settings));
    }

    /** Counter reset, planner buffers flushed, cycle ended. */
    method EndMotion()
      modifies this
      ensures Snapshot() == Operations.EndMotion(old(Snapshot()))
    {
      stepCount := 0;
      InitPlannerBuffers();
      CycleEnd();
    }
  }
}
