# MotorController of the AVR motor board, in Dafny

This project models `MotorController`, the top layer of the AVR motor-controller firmware. It holds nine commands:
- `Initialize` sets up the host-interrupt line, the two limit-switch inputs and the pin-change interrupt registers, then initialises the motors driver, the planner and the canonical machine.
- `Reset` resets the motors driver.
- `GenerateInterrupt` pulses the host-interrupt line low and then high.
- `HandleSettingsCommand` applies one settings command to an axis's `AxisSettings` record.
- `HomeZAxis` and `HomeRAxis` each home one axis. If the axis's limit switch is already hit, they set the motion-complete flag. Otherwise they arm the axis's pin-change interrupt and then issue the homing move.
- `HandleAxisLimitReached` is the limit handler; it requests a feedhold.
- `Move` queues one relative movement.
- `EndMotion` flushes the planner and ends the cycle.

The model has three layers:

- **`MotorControl.MotorController`** (`motor_controller.dfy`) is a class whose fields are:
  - the six I/O registers;
  - the motion-complete flag and the two axis settings records of the shared controller record;
  - the controller's own globals, `stepCount` and `PulsesPerUnit`;
  - the part of the planner, the canonical machine and the motors driver that the controller changes;
  - a ghost trace of every register store and collaborator call, in order.

  Each command is a method that updates these fields one store or call at a time, as the firmware does. Each method is proved to end in the state that the function of the same name in `Operations` computes.
- **`Operations`** (`operations.dfy`) holds one function per command, on a state value (`ControllerState.State`). Its postconditions and lemmas state what each command achieves:
  - which register bits change and which are kept;
  - which settings field is written;
  - what is queued, and in what order calls happen;
  - idempotence.
- **`Runs`** (`runs.dfy`) considers any sequence of commands and proves what holds after it, by induction:
  - which limit interrupts are armed;
  - when the motion-complete flag is set;
  - which value each setting holds;
  - how many blocks are queued;
  - what the canonical machine is doing.

A register value or mask is modelled as the set of its 1 bits (`Bits.Byte`, a set of bit positions 0 to 7). This is an exact representation of an 8-bit value:
- `reg |= MASK` is union (`Bits.SetBits`);
- `reg &= ~MASK` is difference (`Bits.ClearBits`);
- a test `reg & MASK` is intersection.

The board's constants from `Hardware.h` and the kinematics header form a `Platform.Config` record: the pin masks, the axis indices, and `AxisSettings::PulsesPerUnit` as a function. A property that depends on the masks assumes only `Config.SeparateSwitchPins`: the Z and R switches' pin-change masks are non-empty and share no bit. Every other property holds for any mask values.

The code never disarms a limit interrupt once homing ends: only `Initialize` clears the switches' PCMSK bits (`Runs.LimitInterruptArmedOnlyBySeeking`). The homing feed is `fabs(distance)`, so the sign of the homing distance is lost (`Operations.MoveIgnoresSign`).

## Model

| member | source | states |
|---|---|---|
| Bits.SetBits | AVR/MotorController/MotorController.cpp:38-39 | `reg \|= mask` sets every bit of the mask and keeps every other bit |
| Bits.ClearBits | AVR/MotorController/MotorController.cpp:34-35 | `reg &= ~mask` clears every bit of the mask and keeps every other bit |
| Bits.RaisedLoweredUnique | AVR/MotorController/MotorController.cpp:29-46 | "these bits set (cleared), all others kept" determines the new register value uniquely |
| Types.ToUint8 | AVR/MotorController/MotorController.cpp:99-100 | `static_cast<uint8_t>` keeps values already in 0..255 and otherwise agrees with the parameter modulo 256 |
| Types.Magnitude | AVR/MotorController/MotorController.cpp:201 | `fabs` of the distance is the distance or its negation, never negative |
| Types.StoredValue | AVR/MotorController/MotorController.cpp:90-113 | the field's abstract value is the argument its setter is passed: the parameter, or its `uint8_t` cast (congruent modulo 256, in 0..255) for MC_MICROSTEPPING |
| Arming.SetZEnablesZ | AVR/MotorController/MotorController.cpp:142 | `LIMIT_SW_PCMSK \|= Z_AXIS_LIMIT_SW_PCINT_BM` enables the Z switch's interrupt |
| Arming.SetZKeepsR | AVR/MotorController/MotorController.cpp:142 | the same store leaves the R switch's interrupt enabled or disabled as it was |
| Arming.SetREnablesR | AVR/MotorController/MotorController.cpp:167 | `LIMIT_SW_PCMSK \|= R_AXIS_LIMIT_SW_PCINT_BM` enables the R switch's interrupt |
| Arming.SetRKeepsZ | AVR/MotorController/MotorController.cpp:167 | the same store leaves the Z switch's interrupt as it was |
| Arming.ClearBothDisables | AVR/MotorController/MotorController.cpp:45-46 | clearing both switches' PCINT bits disables both limit interrupts, whatever the masks |
| Operations.Initialize | AVR/MotorController/MotorController.cpp:26-59 | the nine register stores of lines 29-46 in order (which register each writes is `Operations.InitializeOrder`), then Motors::Initialize, mp_init and cm_init; its contract is the lemmas InitializeInterruptLine to InitializeResetsSubsystems below |
| Operations.InitializeInterruptLine | AVR/MotorController/MotorController.cpp:29-31 | after Initialize the interrupt pin is an output driven high; no other bit of its DDR or PORT changes |
| Operations.InitializeLimitSwitchPins | AVR/MotorController/MotorController.cpp:34-39 | both limit-switch pins are inputs (DDR bits clear) with pull-ups (PORT bits set); no other bit changes |
| Operations.InitializePinChangeRegisters | AVR/MotorController/MotorController.cpp:42-46 | PCICR and PCMSK after Initialize are the results of their stores, in order |
| Operations.InitializeEnablesPinChange | AVR/MotorController/MotorController.cpp:42 | the limit switches' pin-change group is enabled in PCICR; no other PCICR bit changes |
| Operations.InitializeMasksLimitSwitches | AVR/MotorController/MotorController.cpp:44-46 | both switches' PCINT bits are clear in PCMSK; no other PCMSK bit changes |
| Operations.InitializeDisarmsLimitInterrupts | AVR/MotorController/MotorController.cpp:44-46 | after Initialize neither axis's limit interrupt is armed |
| Operations.InitializeOrder | AVR/MotorController/MotorController.cpp:26-59 | Initialize performs nine register stores first, into INTERRUPT_DDR, INTERRUPT_PORT, the switch DDR twice, the switch PORT twice, PCICR, then PCMSK twice (lines 29-46 in order, so PCICR is enabled before the PCMSK clears); then Motors::Initialize, mp_init and cm_init, in that order |
| Operations.InitializeResetsSubsystems | AVR/MotorController/MotorController.cpp:52-58 | the planner buffer is empty and the canonical machine idle with no feedhold; settings, flag, counters and driver mode are untouched |
| Operations.Reset | AVR/MotorController/MotorController.cpp:65-68 | Reset is one motors-driver reset and changes nothing else |
| Operations.GenerateInterrupt | AVR/MotorController/MotorController.cpp:75-80 | a clearing store and then a setting store of INTERRUPT_BM on INTERRUPT_PORT; its contract is the lemmas GenerateInterruptEndsHigh, GenerateInterruptPulsesLow and PulseReturnsToIdle below |
| Operations.GenerateInterruptEndsHigh | AVR/MotorController/MotorController.cpp:75-80 | the interrupt bit ends set, every other bit of INTERRUPT_PORT is kept, and nothing else changes |
| Operations.GenerateInterruptPulsesLow | AVR/MotorController/MotorController.cpp:77-79 | the pulse is exactly two PORT stores: the first clears the interrupt bit, the second sets it |
| Operations.PulseReturnsToIdle | AVR/MotorController/MotorController.cpp:75-80 | a pulse from the idle-high line leaves every register as it was |
| Operations.HandleSettingsCommand | AVR/MotorController/MotorController.cpp:86-118 | a recognised tag writes exactly its own field of the addressed axis; only MC_MICROSTEPPING also sets the driver mode, to the same truncated value; an unrecognised tag changes nothing; the other axis is untouched |
| Operations.Move | AVR/MotorController/MotorController.cpp:184-202 | step count zero, pulses-per-unit from the settings, Z and R positions zero and other positions kept, cycle started, one block with the distance's magnitude appended; calls in source order |
| Operations.MoveIgnoresSign | AVR/MotorController/MotorController.cpp:199-201 | a move by `-d` and a move by `d` lead to the same state |
| Operations.HomeAxis | AVR/MotorController/MotorController.cpp:129-171 | the shape shared by both homing commands: at home the flag is set, otherwise the axis's PCINT bits are or'ed into PCMSK and then Move runs; its contract is the Homing* lemmas below |
| Operations.HomeZAxis | AVR/MotorController/MotorController.cpp:129-146 | HomeAxis with the Z PCINT mask, Z_AXIS and the Z settings; its contract is the Homing* lemmas and HomeZAxisArmsZ, HomeZAxisKeepsR below |
| Operations.HomeRAxis | AVR/MotorController/MotorController.cpp:156-171 | HomeAxis with the R PCINT mask, R_AXIS and the R settings; its contract is the Homing* lemmas and HomeRAxisArmsR, HomeRAxisKeepsZ below |
| Operations.HomingAlreadyHome | AVR/MotorController/MotorController.cpp:131-135 | at home, homing sets motion-complete and changes nothing else: no register store, no call |
| Operations.HomingSeekArmsAxis | AVR/MotorController/MotorController.cpp:141-142 | not at home, the axis's PCINT bits are set, the other PCMSK bits are kept and no other register changes |
| Operations.HomingSeekMovesAxis | AVR/MotorController/MotorController.cpp:143-144 | not at home, one block for the axis's motor with its settings and the distance's magnitude is queued, the cycle starts, and motion-complete is untouched |
| Operations.HomingSeekArmsBeforeCycleStart | AVR/MotorController/MotorController.cpp:141-144 | not at home, the PCMSK store is the first effect, before the cycle start and the straight feed |
| Operations.HomeZAxisArmsZ | AVR/MotorController/MotorController.cpp:129-146 | homing Z away from home arms the Z limit interrupt |
| Operations.HomeZAxisKeepsR | AVR/MotorController/MotorController.cpp:142 | homing Z leaves the R limit interrupt armed or disarmed as it was |
| Operations.HomeRAxisArmsR | AVR/MotorController/MotorController.cpp:156-171 | homing R away from home arms the R limit interrupt |
| Operations.HomeRAxisKeepsZ | AVR/MotorController/MotorController.cpp:167 | homing R leaves the Z limit interrupt as it was |
| Operations.HandleAxisLimitReached | AVR/MotorController/MotorController.cpp:173-176 | the limit handler requests a feedhold and changes no register, flag, counter or planner field |
| Operations.FeedholdRequestIdempotent | AVR/MotorController/MotorController.cpp:173-176 | a second limit event changes nothing but the call history |
| Operations.EndMotion | AVR/MotorController/MotorController.cpp:208-218 | step count zero, planner buffer empty, cycle off, whatever the state before; positions and feedhold kept |
| Operations.EndMotionIdempotent | AVR/MotorController/MotorController.cpp:208-218 | a second EndMotion changes nothing but the call history |
| Runs.MaskStep | AVR/MotorController/MotorController.cpp:45-169 | PCMSK after one command: cleared by Initialize, set by a homing seek, otherwise unchanged |
| Runs.PinChangeMaskAfterRun | AVR/MotorController/MotorController.cpp:45-169 | PCMSK after any command sequence is determined by its initialisations and homing seeks alone |
| Runs.MaskStoreEnablesZ | AVR/MotorController/MotorController.cpp:142 | a command disables the Z interrupt if it initialises, enables it if it seeks Z, and otherwise keeps it |
| Runs.MaskStoreEnablesR | AVR/MotorController/MotorController.cpp:167 | the same for the R interrupt |
| Runs.MaskAfterEnables | AVR/MotorController/MotorController.cpp:45-169 | the mask after any commands enables an axis's interrupt exactly when the last initialise-or-seek-this-axis command was a seek |
| Runs.LimitInterruptArmedOnlyBySeeking | AVR/MotorController/MotorController.cpp:45-169 | after any command sequence, an axis's limit interrupt is armed exactly when a seek of that axis came after the last initialisation (or it was armed before and neither happened); nothing else disarms it |
| Runs.MotionCompleteStep | AVR/MotorController/MotorController.cpp:131-160 | one command sets motion-complete exactly when it is a homing command at home, and never clears it |
| Runs.HomeFoundSomewhere | AVR/MotorController/MotorController.cpp:129-171 | "some command found its axis home" read from the back agrees with the existential over positions |
| Runs.MotionCompleteAfterRun | AVR/MotorController/MotorController.cpp:131-160 | motion-complete after a command sequence is its initial value or'ed with whether some homing command found its axis home |
| Runs.MotionCompleteOnlyWhenAtHome | AVR/MotorController/MotorController.cpp:129-171 | motion-complete is true after any sequence exactly when it was true before or some homing command found its switch hit |
| Runs.SettingStep | AVR/MotorController/MotorController.cpp:86-118 | one command changes a field of an axis's settings only if it is a settings command for that field and axis, and then to the stored value |
| Runs.SettingsLastWriterWins | AVR/MotorController/MotorController.cpp:86-118 | after any sequence, each setting holds the value of the last command that wrote it, or its initial value; no other command changes settings |
| Runs.BufferStep | AVR/MotorController/MotorController.cpp:55-217 | a move or seek queues one block, Initialize and EndMotion empty the buffer, other commands leave it; queued blocks stay in front |
| Runs.QueuedBlocks | AVR/MotorController/MotorController.cpp:55-217 | the number of queued blocks after any sequence is counted from the commands alone; with no flush, earlier blocks remain a prefix |
| Runs.MachineStep | AVR/MotorController/MotorController.cpp:58-217 | one command's effect on the cycle (started by feeds, ended by Initialize and EndMotion) and on the feedhold request (set by the limit handler, cleared by Initialize) |
| Runs.MachineAfterRun | AVR/MotorController/MotorController.cpp:58-217 | the canonical machine after any sequence: cycling exactly when a feed followed the last flush; feedhold requested from the last limit event until the next Initialize |
| MotorControl.MotorController.Initialize | AVR/MotorController/MotorController.cpp:26-59 | the in-place command ends in the state Operations.Initialize computes |
| MotorControl.MotorController.Reset | AVR/MotorController/MotorController.cpp:65-68 | the in-place command ends in the state Operations.Reset computes |
| MotorControl.MotorController.GenerateInterrupt | AVR/MotorController/MotorController.cpp:75-80 | the in-place command ends in the state Operations.GenerateInterrupt computes |
| MotorControl.MotorController.HandleSettingsCommand | AVR/MotorController/MotorController.cpp:86-118 | the in-place command, with the settings reference given as the axis it names, ends in the state Operations.HandleSettingsCommand computes |
| MotorControl.MotorController.HomeZAxis | AVR/MotorController/MotorController.cpp:129-146 | the in-place command, with the switch level as a parameter, ends in the state Operations.HomeZAxis computes |
| MotorControl.MotorController.HomeRAxis | AVR/MotorController/MotorController.cpp:156-171 | the in-place command, with the switch level as a parameter, ends in the state Operations.HomeRAxis computes |
| MotorControl.MotorController.HandleAxisLimitReached | AVR/MotorController/MotorController.cpp:173-176 | the in-place command ends in the state Operations.HandleAxisLimitReached computes |
| MotorControl.MotorController.Move | AVR/MotorController/MotorController.cpp:184-202 | the in-place command ends in the state Operations.Move computes |
| MotorControl.MotorController.EndMotion | AVR/MotorController/MotorController.cpp:208-218 | the in-place command ends in the state Operations.EndMotion computes |

## Left out

- The 50 ms `_delay_ms` between the two stores of GenerateInterrupt: time is not modelled, so the pulse is two ordered stores.
- The `DEBUG` `printf_P` output.
- Interrupt context: HandleAxisLimitReached is modelled as an ordinary sequential call, and no interleaving of it with a main-context command is considered.
- The bodies of the collaborators are not part of this model: the planner (`mp_*`), the canonical machine (`cm_*`) and the motors driver (`Motors::*`). Each call is recorded in the trace, with the one effect on controller-visible state that its name promises and no other: in particular no collaborator except `cm_init` clears a pending feedhold request, and `mp_init` keeps the axis positions. `Motors::Initialize` and `Motors::Reset` are recorded only.
- `AxisSettings::PulsesPerUnit` is a function of `Platform.Config` whose body is not modelled; the AxisSettings class is not part of this model.
- Runs.MachineAfterRun: the feedhold part rests on the assumed non-effects of `cm_cycle_start`, `cm_cycle_end` and `mp_init_buffers`, whose bodies are not part of this model. A hold requested by a limit event therefore stays requested after EndMotion and into the next Move, until Initialize runs `cm_init`; the real canonical machine may clear it earlier.
- Runs.MachineStep: the same assumed non-effects on the feedhold request, for one command.
- Operations.EndMotion: "feedhold kept" and "positions kept" are the assumed non-effects of `mp_init_buffers` and `cm_cycle_end`, not behaviour the code shows.
- Operations.InitializeResetsSubsystems: that the axis positions are kept is the assumed non-effect of `mp_init`, and that the feedhold is cleared is the assumed effect of `cm_init`; neither body is part of this model.
- Types.StoredValue: the `AxisSettings` setters' own bodies, and any conversion they make of the value (to a floating-point field, say), are not part of this model; each field holds the argument its setter is passed. `EventData.parameter` is taken to be a 32-bit signed integer, since the header declaring it is not part of this model; that width is what makes the `uint8_t` cast modular, as `Types.ToUint8` states.
- Types.Magnitude: `fabs(static_cast<float>(distance))` is taken as the exact integer magnitude; float rounding of large 32-bit distances is not modelled.
- `Hardware.h` and the kinematics header are not part of this model: the pin masks and axis indices are fields of `Platform.Config`, and only `SeparateSwitchPins` is assumed of them.
- The Z and R limit switches' DDR and PORT registers are modelled as one DDR and one PORT register. They share one pin-change mask, so they sit on one port. The registers the controller writes are assumed to be distinct.
- The `MC_*` command codes of the shared header are modelled as the `Types.SettingsCommand` datatype, with any other code as `Unrecognized`. The header's numeric values are not part of this model.
- HandleSettingsCommand's `AxisSettings&` parameter is modelled as the axis whose record it refers to; a reference to some other record is not modelled.
- The limit-switch levels read by `Z_AXIS_LIMIT_SW_HIT` and `R_AXIS_LIMIT_SW_HIT` are parameters of the homing commands.
- Error reporting for an unrecognised settings tag and validation of motion parameters do not exist in the code and are not modelled.
- The Ruby print-data command client, `PrinterStatus.h`, `Projector.h` and `HardwareFactory.h` are not part of this model: they are I/O plumbing and declarations with no controller behaviour.
