/**
 * A snapshot of everything the controller reads or writes: its registers,
 * the shared controller record, its own globals, and the part of the motors
 * driver, planner and canonical machine that its calls change. Every
 * register store and every call into a collaborator is also recorded, in
 * order, in a trace of events.
 */
module ControllerState {
  import opened Bits
  import opened Types
  import opened Platform

  /** One straight-feed request as submitted to the canonical machine. */
  datatype Block = Block(motorIndex: uint8, distance: nat, settings: AxisSettings)

  /** The planner as the controller sees it: axis positions and the queued blocks. */
  datatype Planner = Planner(positions: map<uint8, real>, buffer: seq<Block>)

  datatype Cycle = Off | Machining

  /** The canonical machine as the controller sees it. */
  datatype CanonicalMachine = CanonicalMachine(cycle: Cycle, feedholdRequested: bool)

  /** The motors driver as the controller sees it. */
  datatype Motors = Motors(microsteppingMode: uint8)

  /** A register store, or a call into a collaborator. */
  datatype Event =
    | Store(register: Register, value: Byte)
    | MotorsInitialize
    | MotorsReset
    | MotorsSetMicrosteppingMode(mode: uint8)
    | MpInit
    | MpInitBuffers
    | MpSetAxisPosition(axis: uint8, position: real)
    | CmInit
    | CmCycleStart
    | CmStraightFeed(block: Block)
    | CmCycleEnd
    | CmBeginFeedhold

  datatype State = State(
    regs: Registers,
    motionComplete: bool,        // mcState->motionComplete
    zAxisSettings: AxisSettings, // mcState->zAxisSettings
    rAxisSettings: AxisSettings, // mcState->rAxisSettings
    stepCount: int32,
    pulsesPerUnit: real,
    planner: Planner,
    machine: CanonicalMachine,
    motors: Motors,
    trace: seq<Event>)
  {
    function Settings(axis: Axis): AxisSettings {
      if axis == Z then zAxisSettings else rAxisSettings
    }

    function WithSettings(axis: Axis, st: AxisSettings): State {
      if axis == Z then this.(zAxisSettings := st) else this.(rAxisSettings := st)
    }

    /** The limit-switch interrupt of `axis` is enabled in the pin-change mask. */
    predicate Armed(c: Config, axis: Axis) {
      c.Enables(regs.pcmsk, axis)
    }

    /** The state without its history: what a second identical call may not change. */
    function Observable(): State {
      this.(trace := [])
    }
  }

  /** A store of `v` into register `r`. */
  function StoreRegister(s: State, r: Register, v: Byte): State {
    s.(regs := s.regs.With(r, v), trace := s.trace + [Store(r, v)])
  }

  // The collaborators' entry points, each with the one effect on the
  // controller-visible state that its name promises.

  /** Motors::Initialize(mcState) */
  function MotorsInitializeCall(s: State): State {
    s.(trace := s.trace + [MotorsInitialize])
  }

  /** Motors::Reset() */
  function MotorsResetCall(s: State): State {
    s.(trace := s.trace + [MotorsReset])
  }

  /** Motors::SetMicrosteppingMode(mode) */
  function MotorsSetMicrosteppingModeCall(s: State, mode: uint8): State {
    s.(motors := Motors(mode), trace := s.trace + [MotorsSetMicrosteppingMode(mode)])
  }

  /** mp_init(): the planner starts with an empty buffer. */
  function MpInitCall(s: State): State {
    s.(planner := s.planner.(buffer := []), trace := s.trace + [MpInit])
  }

  /** mp_init_buffers(): queued blocks are discarded. */
  function MpInitBuffersCall(s: State): State {
    s.(planner := s.planner.(buffer := []), trace := s.trace + [MpInitBuffers])
  }

  /** mp_set_axis_position(axis, position) */
  function MpSetAxisPositionCall(s: State, axis: uint8, position: real): State {
    s.(planner := s.planner.(positions := s.planner.positions[axis := position]),
       trace := s.trace + [MpSetAxisPosition(axis, position)])
  }

  /** cm_init(): no cycle, no hold. */
  function CmInitCall(s: State): State {
    s.(machine := CanonicalMachine(Off, false), trace := s.trace + [CmInit])
  }

  /** cm_cycle_start() */
  function CmCycleStartCall(s: State): State {
    s.(machine := s.machine.(cycle := Machining), trace := s.trace + [CmCycleStart])
  }

  /** cm_straight_feed(motorIndex, distance, settings): one block is queued. */
  function CmStraightFeedCall(s: State, b: Block): State {
    s.(planner := s.planner.(buffer := s.planner.buffer + [b]), trace := s.trace + [CmStraightFeed(b)])
  }

  /** cm_cycle_end() */
  function CmCycleEndCall(s: State): State {
    s.(machine := s.machine.(cycle := Off), trace := s.trace + [CmCycleEnd])
  }

  /** cm_begin_feedhold() */
  function CmBeginFeedholdCall(s: State): State {
    s.(machine := s.machine.(feedholdRequested := true), trace := s.trace + [CmBeginFeedhold])
  }
}
