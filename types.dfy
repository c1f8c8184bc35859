/**
 * Scalar types of the firmware and the per-axis settings record that the
 * settings command updates and every move reads.
 */
module Types {

  /** `int32_t` */
  newtype int32 = x: int | -0x8000_0000 <= x < 0x8000_0000

  /** `uint8_t` */
  newtype uint8 = x: int | 0 <= x < 0x100

  /** `static_cast<uint8_t>` of a 32-bit value: the value reduced modulo 2^8. */
  function ToUint8(p: int32): (r: uint8)
    ensures 0 <= p < 0x100 ==> r as int == p as int
    ensures (p as int - r as int) % 0x100 == 0
  {
    (p as int % 0x100) as uint8
  }

  /**
   * `fabs(static_cast<float>(d))`, taken as the exact magnitude of `d`:
   * the rounding of the float conversion is not modelled.
   */
  function Magnitude(d: int32): (r: nat)
    ensures r == d as int || r == -(d as int)
  {
    if d < 0 then -(d as int) else d as int
  }

  /** The two axes of the printer: the build-plate Z axis and the rotation R axis. */
  datatype Axis = Z | R {
    function Other(): (a: Axis)
      ensures a != this
    {
      if this == Z then R else Z
    }
  }

  /** The six fields of an AxisSettings record that a settings command can name. */
  datatype Setting = StepAngle | UnitsPerRevolution | MicrosteppingMode | MaxJerk | Speed | MaxSpeed

  /**
   * Per-axis calibration. Each field holds, as an abstract value, the
   * argument its setter is passed: the command's parameter, or its `uint8_t`
   * cast for the microstepping mode. The setters' own conversions are not
   * modelled.
   */
  datatype AxisSettings = AxisSettings(
    stepAngle: int32,
    unitsPerRevolution: int32,
    microsteppingMode: uint8,
    maxJerk: int32,
    speed: int32,
    maxSpeed: int32)
  {
    /** The value of field `f`. */
    function Get(f: Setting): int {
      match f
      case StepAngle => stepAngle as int
      case UnitsPerRevolution => unitsPerRevolution as int
      case MicrosteppingMode => microsteppingMode as int
      case MaxJerk => maxJerk as int
      case Speed => speed as int
      case MaxSpeed => maxSpeed as int
    }
  }

  /** The command tag of a settings event: one of the six settings, or a code no case matches. */
  datatype SettingsCommand = Recognized(setting: Setting) | Unrecognized(code: uint8)

  /** The command envelope: a tag and one numeric parameter. */
  datatype EventData = EventData(command: SettingsCommand, parameter: int32)

  /**
   * The argument a recognised command passes to the setter of field `f`:
   * the parameter, or its `uint8_t` cast for the microstepping mode.
   */
  function StoredValue(f: Setting, p: int32): (v: int)
    ensures f != MicrosteppingMode ==> v == p as int
    ensures f == MicrosteppingMode ==> 0 <= v < 0x100 && (p as int - v) % 0x100 == 0
  {
    if f == MicrosteppingMode then ToUint8(p) as int else p as int
  }
}
