/**
 * What the controller takes from headers and classes outside this model:
 * the pin masks and axis indices of Hardware.h and the kinematics header,
 * and AxisSettings::PulsesPerUnit. The I/O registers it touches form a small
 * register file.
 */
module Platform {
  import opened Bits
  import opened Types

  /**
   * The board's constants. The limit switches of both axes sit on one port
   * (a single pin-change mask serves them both), so the Z and R switch
   * masks select pins of the same DDR and PORT registers.
   */
  datatype Config = Config(
    interruptDdBm: Byte,      // INTERRUPT_DD_BM
    interruptBm: Byte,        // INTERRUPT_BM
    zLimitSwitchDdBm: Byte,   // Z_AXIS_LIMIT_SW_DD_BM
    rLimitSwitchDdBm: Byte,   // R_AXIS_LIMIT_SW_DD_BM
    zLimitSwitchBm: Byte,     // Z_AXIS_LIMIT_SW_BM
    rLimitSwitchBm: Byte,     // R_AXIS_LIMIT_SW_BM
    limitSwitchPcieBm: Byte,  // LIMIT_SW_PCIE_BM
    zPcintBm: Byte,           // Z_AXIS_LIMIT_SW_PCINT_BM
    rPcintBm: Byte,           // R_AXIS_LIMIT_SW_PCINT_BM
    zAxis: uint8,            // Z_AXIS
    rAxis: uint8,            // R_AXIS
    pulsesPerUnit: AxisSettings -> real)  // AxisSettings::PulsesPerUnit()
  {
    /**
     * Each limit switch has pin-change pins of its own, which the other
     * switch's mask does not select. This is all the model needs of the
     * board's masks: every other property holds for any mask values.
     */
    predicate SeparateSwitchPins() {
      zPcintBm != {} && rPcintBm != {} && zPcintBm * rPcintBm == {}
    }

    /** The pin-change mask value `pcmsk` enables the limit-switch interrupt of `axis`. */
    predicate Enables(pcmsk: Byte, axis: Axis) {
      if axis == Z then pcmsk * zPcintBm != {} else pcmsk * rPcintBm != {}
    }

    /** Both limit-switch masks of one kind together. */
    function LimitSwitchDdBms(): Byte { zLimitSwitchDdBm + rLimitSwitchDdBm }
    function LimitSwitchBms(): Byte { zLimitSwitchBm + rLimitSwitchBm }
    function PcintBms(): Byte { zPcintBm + rPcintBm }
  }

  /** The registers the controller writes. */
  datatype Register = InterruptDdr | InterruptPort | LimitSwitchDdr | LimitSwitchPort | Pcicr | Pcmsk

  datatype Registers = Registers(
    interruptDdr: Byte,     // INTERRUPT_DDR
    interruptPort: Byte,    // INTERRUPT_PORT
    limitSwitchDdr: Byte,   // Z_AXIS_LIMIT_SW_DDR, R_AXIS_LIMIT_SW_DDR
    limitSwitchPort: Byte,  // Z_AXIS_LIMIT_SW_PORT, R_AXIS_LIMIT_SW_PORT
    pcicr: Byte,            // PCICR
    pcmsk: Byte)            // LIMIT_SW_PCMSK
  {
    /** The register file after a store of `v` into `r`. */
    function With(r: Register, v: Byte): Registers {
      match r
      case InterruptDdr => this.(interruptDdr := v)
      case InterruptPort => this.(interruptPort := v)
      case LimitSwitchDdr => this.(limitSwitchDdr := v)
      case LimitSwitchPort => this.(limitSwitchPort := v)
      case Pcicr => this.(pcicr := v)
      case Pcmsk => this.(pcmsk := v)
    }
  }
}
