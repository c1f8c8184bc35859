/**
 * How the three kinds of store into the pin-change mask register change
 * which limit-switch interrupts it enables.
 */
module Arming {
  import opened Bits
  import opened Types
  import opened Platform

  /** `LIMIT_SW_PCMSK |= Z_AXIS_LIMIT_SW_PCINT_BM` enables the Z switch's interrupt. */
  lemma SetZEnablesZ(pcmsk: Byte, c: Config)
    requires c.SeparateSwitchPins()
    ensures c.Enables(SetBits(pcmsk, c.zPcintBm), Z)
  {
  }

  /** `LIMIT_SW_PCMSK |= Z_AXIS_LIMIT_SW_PCINT_BM` leaves the R switch's interrupt as it was. */
  lemma SetZKeepsR(pcmsk: Byte, c: Config)
    requires c.SeparateSwitchPins()
    ensures c.Enables(SetBits(pcmsk, c.zPcintBm), R) == c.Enables(pcmsk, R)
  {
  }

  /** `LIMIT_SW_PCMSK |= R_AXIS_LIMIT_SW_PCINT_BM` enables the R switch's interrupt. */
  lemma SetREnablesR(pcmsk: Byte, c: Config)
    requires c.SeparateSwitchPins()
    ensures c.Enables(SetBits(pcmsk, c.rPcintBm), R)
  {
  }

  /** `LIMIT_SW_PCMSK |= R_AXIS_LIMIT_SW_PCINT_BM` leaves the Z switch's interrupt as it was. */
  lemma SetRKeepsZ(pcmsk: Byte, c: Config)
    requires c.SeparateSwitchPins()
    ensures c.Enables(SetBits(pcmsk, c.rPcintBm), Z) == c.Enables(pcmsk, Z)
  {
  }

  /** Clearing both switches' pin-change bits disables both interrupts, whatever the masks. */
  lemma ClearBothDisables(pcmsk: Byte, c: Config, axis: Axis)
    ensures !c.Enables(ClearBits(ClearBits(pcmsk, c.zPcintBm), c.rPcintBm), axis)
  {
  }
}
