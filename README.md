# ACMSimPy controller core in Dafny

ACMSimPy simulates an AC motor (PMSM or induction machine) under digital
field-oriented control. This project models the discrete parts of its
controller and inverter emulation, all from
`simulation/tutorials_ep9_yzz_paper.py`, and proves properties about them.
Signal values are exact `real`s, and counters are `int`s. The slip and the flux estimates can also be a float64 infinity or NaN.

- **Angles** (`angles.dfy`): `angle_diff`, the wrapped position error of the speed observer. Also the two `while` loops that re-wrap the observer's position state.
- **Regulators** (`regulators.dfy`): the Tustin PID (`The_PID_Regulator`, `tustin_pid`) and the incremental PI (`The_PI_Regulator`, `incremental_pi`). Each is a class whose call is tied to a pure step function.
- **DownSampling** (`downsampling.dfy`): the reset-at-ceiling counters. These are the driver's `jj`, which runs the controller, and the controller's `velocity_loop_counter`, which runs the speed loop.
- **Foc** (`foc.dfy`): `FOC`. It covers:
  - the down-sampled speed loop;
  - induction-machine flux current and slip;
  - zero-d-axis or field-weakening d current;
  - synchronous frequency;
  - the two current loops;
  - decoupling voltages re-limited by the q-axis regulator's limit.
- **SpaceVector** (`svpwm.dfy`): `SVGEN_DQ`. Sector choice from three projections, per-sector switching times, inversion, and the duty clamp. Also the driver's compare-value latch.
- **Gate** (`gate.dfy`): `gate_signal_generator` as a step function. It has the up/down carrier, the interrupt-event reset, the peak turn-around, complementary switches and per-leg dead time. The terminal-potential rule is here too.
- **Svgen** (`svgen_object.dfy`): the `SVgen_Object` the driver updates in place. `SVGEN_DQ`, the compare-value latch, the gate emulator and the voltage-source-inverter block are its methods. That block either resolves the terminals from the emulator's switches or applies the command directly.
- **Flux** (`flux.dfy`): the bookkeeping of the saturation-time based flux estimator in `DSP`. It covers:
  - the rotor-flux clamp with its saturation timers;
  - sign-run counters;
  - the two-level zero-crossing debounce per axis and direction;
  - half-cycle resets;
  - the `u_offset` bias integrator.

  `FluxEstimator.Update` is tied to a pure `Step`. The lemmas about `Step` state what every call keeps.

Three behaviours of the code that are easy to misread:
- Both `angle_diff` and the position wrap can return −π, so their range is [−π, π], not (−π, π]. `angle_diff` returns the second candidate on a tie. The wrap loop stops at −π because its test is strict.
- The dead-time gap is not the same on both edges. The high side comes on `DEAD_TIME_AS_COUNT` ticks late when counting up (a `<=` test). The low side comes on one tick less late when counting down (a `<` test). `Gate.CarrierPeriod` states both delays.
- The carrier turns down only when the counter equals exactly half of `CPU_TICK_PER_SAMPLING_PERIOD`. With an odd tick count that never happens, so between two interrupt events the carrier only counts up, like a sawtooth. `Gate.OddPeriodCountsUp` states this.

## Model

| member | source | states |
|---|---|---|
| Angles.Mod2Pi | simulation/tutorials_ep9_yzz_paper.py:363-364 | the floored `divmod` remainder lies in [0, 2π) and differs from the angle by whole turns |
| Angles.AngleDiff | simulation/tutorials_ep9_yzz_paper.py:361-373 | the result lies in [−π, π] and is the difference of the reduced angles, or that difference ±2π |
| Angles.AngleDiffSelf | simulation/tutorials_ep9_yzz_paper.py:361-373 | an angle's error against itself is 0 |
| Angles.Mod2PiPeriodic | simulation/tutorials_ep9_yzz_paper.py:363-364 | adding k whole turns does not change the reduced angle |
| Angles.AngleDiffPeriodic | simulation/tutorials_ep9_yzz_paper.py:361-373 | the error depends only on both angles modulo a turn |
| Angles.AngleDiffIsShortest | simulation/tutorials_ep9_yzz_paper.py:366-373 | no whole-turn shift of the reduced difference is shorter than the result |
| Angles.AngleDiffAntisymmetric | simulation/tutorials_ep9_yzz_paper.py:361-373 | away from the ±π tie, swapping the arguments negates the error |
| Angles.WrapPosition | simulation/tutorials_ep9_yzz_paper.py:867-868 | the two loops end with the position in [−π, π], whole turns away from the input, and leave an in-range input unchanged |
| Regulators.Clamp | simulation/tutorials_ep9_yzz_paper.py:488-491 | for a non-negative limit the result is within ±limit, and equals the input exactly when the input is within ±limit |
| Regulators.TustinPidStep | simulation/tutorials_ep9_yzz_paper.py:475-511 | after a call the output is within ±OutLimit and the integrator within ±IntLimit (non-negative limits), and prevError/prevMeasurement hold this call's error and measurement |
| Regulators.PidCall | simulation/tutorials_ep9_yzz_paper.py:475-511 | the statements of `tustin_pid` (both clamps as written) compute `TustinPidStep` |
| Regulators.DerivativeOnMeasurement | simulation/tutorials_ep9_yzz_paper.py:494-496 | the differentiator does not depend on the setpoint (derivative on the measurement) |
| Regulators.TustinPidUnsaturated | simulation/tutorials_ep9_yzz_paper.py:478-499 | with neither clamp acting, the output is the proportional plus trapezoidal-integral plus filtered-derivative terms |
| Regulators.PidOutputsBounded | simulation/tutorials_ep9_yzz_paper.py:499-504 | over any sequence of calls, every output stays within ±OutLimit |
| Regulators.PidRegulator.constructor | simulation/tutorials_ep9_yzz_paper.py:176-206 | the gains and limits are stored and the memory starts at zero |
| Regulators.PidRegulator.TustinPid | simulation/tutorials_ep9_yzz_paper.py:475-511 | the new memory is `TustinPidStep` of the old; gains, limits and inputs are unchanged; the bounds are kept |
| Regulators.IncrementalPiStep | simulation/tutorials_ep9_yzz_paper.py:463-473 | the output is within ±OutLimit, `ErrPrev = Err` and `OutPrev = Out` |
| Regulators.PiCall | simulation/tutorials_ep9_yzz_paper.py:463-473 | the statements of `incremental_pi` compute `IncrementalPiStep` |
| Regulators.IncrementalPiIsPositional | simulation/tutorials_ep9_yzz_paper.py:463-473 | while the clamp never acts, the incremental PI equals the positional PI (start output + kp·Δerror + ki·Σerrors) |
| Regulators.PiRegulator.constructor | simulation/tutorials_ep9_yzz_paper.py:164-173 | the gains and limit are stored and the memory starts at zero |
| Regulators.PiRegulator.IncrementalPi | simulation/tutorials_ep9_yzz_paper.py:463-473 | the new memory is `IncrementalPiStep` of the old; the output is within ±OutLimit |
| DownSampling.Schedule | simulation/tutorials_ep9_yzz_paper.py:516-520 | started at ceiling−1, the counter stays in [0, ceiling) and the speed loop runs on the first call and then exactly every ceiling-th call |
| DownSampling.ControllerSchedule | simulation/tutorials_ep9_yzz_paper.py:1139-1141 | with `jj` started at the ceiling, the controller runs at plant step i exactly when i is a multiple of the ceiling |
| SpaceVector.Sector | simulation/tutorials_ep9_yzz_paper.py:904-912 | the sector is in 0..6 (never 7), and is 0 exactly when Talfa = Tbeta = 0 |
| SpaceVector.SectorDecodes | simulation/tutorials_ep9_yzz_paper.py:909-912 | each bit of the sector is the sign test of its projection |
| SpaceVector.SectorDuties | simulation/tutorials_ep9_yzz_paper.py:915-958 | sector 0 gives 50 % on every phase, and a sector outside 0..6 keeps the previous duties |
| SpaceVector.ZeroSequenceCentred | simulation/tutorials_ep9_yzz_paper.py:915-958 | in every active sector the first and last switching times sum to 1 + Tz |
| SpaceVector.ClampDuty | simulation/tutorials_ep9_yzz_paper.py:966-971 | the clamped duty is in [0.04, 0.96], and equals the input exactly when the input is inside that range |
| SpaceVector.SvgenDuties | simulation/tutorials_ep9_yzz_paper.py:896-971 | all three duties `SVGEN_DQ` leaves lie in [0.04, 0.96] |
| SpaceVector.ZeroCommandHalfDuty | simulation/tutorials_ep9_yzz_paper.py:919-922 | the zero command gives 50 % on all three phases |
| SpaceVector.Truncate | simulation/tutorials_ep9_yzz_paper.py:1212-1214 | `int()` truncates toward zero |
| SpaceVector.CompareValue | simulation/tutorials_ep9_yzz_paper.py:1209-1214 | a duty in [0.04, 0.96] gives a compare value in [0, CPU_TICK/2] |
| Gate.LegStep | simulation/tutorials_ep9_yzz_paper.py:1015-1068 | a leg's switches follow the ideal comparison or are off, and never both on (no shoot-through) |
| Gate.GateStep | simulation/tutorials_ep9_yzz_paper.py:975-1068 | after a call the event flag is clear and each leg is `LegStep` at the new count |
| Gate.BeforeCount | simulation/tutorials_ep9_yzz_paper.py:977-1006 | a pending event is consumed and restarts the count at 0; the direction turns down when already counting down or when the counter is at half the period; both resets zero the dead-time counters and clear both delay flags; the compare values are kept |
| Gate.CarrierStep | simulation/tutorials_ep9_yzz_paper.py:977-1012 | a pending event is consumed and restarts an up-count from 0; at counter = CPU_TICK/2 the direction turns down; the counter then moves by exactly ±1 |
| Gate.ResetClearsDeadTime | simulation/tutorials_ep9_yzz_paper.py:977-1006 | a call that consumes an event or turns at the peak restarts the legs' dead-time counting: each counter is then at most 1 |
| Gate.UpCallOnSchedule | simulation/tutorials_ep9_yzz_paper.py:1023-1045 | counting up, the dead-time counter counts calls with counter ≥ CMPA and the high side is held off for `DEAD_TIME_AS_COUNT` of them (`<=`) |
| Gate.DownCallOnSchedule | simulation/tutorials_ep9_yzz_paper.py:1046-1068 | counting down, the low side is held off for only `DEAD_TIME_AS_COUNT − 1` calls (`<`) |
| Gate.FirstCallOnPeriod | simulation/tutorials_ep9_yzz_paper.py:977-1045 | the call that consumes the interrupt event counts up to 1 and starts every leg's schedule |
| Gate.NextCallOnPeriod | simulation/tutorials_ep9_yzz_paper.py:994-1068 | each later call of the period moves the counter one step along the triangle, turning at the peak, and keeps the leg on schedule |
| Gate.CarrierPeriod | simulation/tutorials_ep9_yzz_paper.py:975-1068 | over one carrier period after an event, the counter runs the triangle 1..n/2..0 and every leg follows the asymmetric dead-time schedule |
| Gate.OddStepCountsUp | simulation/tutorials_ep9_yzz_paper.py:994-1012 | with an odd tick count an up-counting or restarted carrier moves up by one and does not turn |
| Gate.OddPeriodCountsUp | simulation/tutorials_ep9_yzz_paper.py:977-1012 | with an odd tick count, the k-th call after an event leaves the carrier counting up at k |
| Gate.TerminalPotential | simulation/tutorials_ep9_yzz_paper.py:1231-1250 | the potential is Vdc or 0: Vdc if the high switch is on, 0 if only the low one is, and otherwise Vdc exactly when the phase current is negative |
| Gate.TerminalAfterStep | simulation/tutorials_ep9_yzz_paper.py:1231-1250 | after a gate call, a terminal follows the carrier comparison outside dead time and the current sign inside it |
| Svgen.SectorTimes | simulation/tutorials_ep9_yzz_paper.py:904-958 | the imperative sector decode and time placement compute `SectorDuties` of `Sector` |
| Svgen.InvertAndClamp | simulation/tutorials_ep9_yzz_paper.py:961-971 | inverting the duties and applying the upper then the lower limit gives `ClampDuty` of each inverted duty |
| Svgen.LegTick | simulation/tutorials_ep9_yzz_paper.py:1015-1068 | the imperative per-leg switch and dead-time logic computes `LegStep` |
| Svgen.InverterTick | simulation/tutorials_ep9_yzz_paper.py:975-1068 | the imperative emulator call computes `GateStep`, with no shoot-through and the compare values kept |
| Svgen.SvgenObject.constructor | simulation/tutorials_ep9_yzz_paper.py:209-236 | duties start at 0.5, the carrier at 0 counting up, compare values at CPU_TICK/4, and all switches off |
| Svgen.SvgenObject.SvgenDq | simulation/tutorials_ep9_yzz_paper.py:896-973 | the duties become `SvgenDuties` of the per-unit command (hence in [0.04, 0.96]); Ualfa/Ubeta are unchanged |
| Svgen.SvgenObject.LatchCompareValues | simulation/tutorials_ep9_yzz_paper.py:1209-1216 | the duties are flipped back, each compare value is `CompareValue` of the duty and lies in [0, CPU_TICK/2], and the event is raised |
| Svgen.SvgenObject.GateSignalGenerator | simulation/tutorials_ep9_yzz_paper.py:975-1068 | the emulator state becomes `GateStep` of the old state, with no shoot-through |
| Svgen.SvgenObject.ResolveTerminalVoltages | simulation/tutorials_ep9_yzz_paper.py:1221-1259 | each terminal potential is `TerminalPotential` at its phase current (so in {0, Vdc}), and the line-to-line and alpha-beta voltages follow from the potentials |
| Svgen.SvgenObject.VoltageSourceInverter | simulation/tutorials_ep9_yzz_paper.py:1219-1264 | with at least 20 CPU ticks per period the emulator takes one `GateStep` and the terminals are resolved from its switches; with fewer, the commanded α-β voltage is applied unchanged and the inverter state is left alone |
| Foc.RpmRoundTrip | simulation/tutorials_ep9_yzz_paper.py:514-548 | the speed setpoint (r/min to elec. rad/s) and the schedule's speed conversion (back to r/min) are inverse |
| Foc.SpeedSetpoint | simulation/tutorials_ep9_yzz_paper.py:514 | for a positive pole-pair count the electrical speed setpoint has the sign of the r/min command and is 0 exactly when it is |
| Foc.MechanicalRpm | simulation/tutorials_ep9_yzz_paper.py:548 | the r/min speed times 2π·npp is 60 times the electrical speed |
| Foc.FieldWeakeningId | simulation/tutorials_ep9_yzz_paper.py:548-555 | the field-weakening d current is in [−60, 0]: 0 below 450 r/min, −60 from 1000 r/min |
| Foc.FieldWeakeningMonotone | simulation/tutorials_ep9_yzz_paper.py:550-555 | the demagnetising current never shrinks as the speed rises; the ramp starts at 0 A at 450 r/min, and its distance to −60 A shrinks linearly to 0 at 1000 r/min, so it meets both plateaus |
| Foc.ImFluxCurrent | simulation/tutorials_ep9_yzz_paper.py:529 | the induction-machine d current times (Ld − Lq) is the flux command |
| Foc.SlipFrequency | simulation/tutorials_ep9_yzz_paper.py:530 | the float64 slip is finite exactly when KA ≠ 0, and then slip·KA = Rreq·iq; with KA = 0 it is an infinity, or NaN when the numerator is 0 |
| Foc.SlipFollowsTorqueCurrent | simulation/tutorials_ep9_yzz_paper.py:528-530 | for positive Rreq and KA, the slip is finite, has the sign of the torque current and vanishes only with it |
| Foc.SlipWithoutActiveFlux | simulation/tutorials_ep9_yzz_paper.py:528-530 | for positive Rreq and KA = 0, the slip is +∞ or −∞ with the sign of the torque current, and NaN when that current is 0 |
| Foc.IdCommand | simulation/tutorials_ep9_yzz_paper.py:528-555 | the d current command: flux current for an induction machine; for a PMSM it is in [−60, 0], and 0 under zero-d control |
| Foc.GuardAsWrittenAlwaysHolds | simulation/tutorials_ep9_yzz_paper.py:556 | for a positive rated current, the signed guard holds at every speed |
| Foc.GuardAsWrittenAdmitsNegativeRadicand | simulation/tutorials_ep9_yzz_paper.py:556-557 | with IN = 3 A at 1000 r/min the guard holds while the square-root argument is negative |
| Foc.CorrectedGuardRadicandPositive | simulation/tutorials_ep9_yzz_paper.py:556-557 | comparing with the magnitude of the d current holds exactly when the square-root argument is positive |
| Foc.DecouplingVoltages | simulation/tutorials_ep9_yzz_paper.py:582-583 | a finite ω_syn gives finite decoupling voltages, and a NaN ω_syn gives NaN on both axes |
| Foc.NoCouplingAtStandstill | simulation/tutorials_ep9_yzz_paper.py:582-583 | with ω_syn = 0 both decoupling voltages are 0 |
| Foc.ClampExt | simulation/tutorials_ep9_yzz_paper.py:590-596 | on a finite value the clamp is `Clamp`; +∞ and −∞ are pinned to +limit and −limit; NaN passes both comparisons and stays NaN |
| Foc.VoltageCommands | simulation/tutorials_ep9_yzz_paper.py:581-596 | without decoupling the regulator outputs pass through; with it, both axes end within ±`reg_iq.OutLimit` or NaN; a finite ω_syn gives finite commands, a NaN ω_syn gives NaN on both axes, and an infinite ω_syn pins each axis at ±`reg_iq.OutLimit` or makes it NaN |
| Foc.VoltageCommandsBounded | simulation/tutorials_ep9_yzz_paper.py:581-596 | with both regulators sharing one limit and a finite ω_syn, the voltage commands are finite and stay within the limit whether or not decoupling is on |
| Foc.ApplyDecoupling | simulation/tutorials_ep9_yzz_paper.py:581-596 | the decoupling statements and the re-clamp to `reg_iq.OutLimit` compute `VoltageCommands` |
| Foc.Regulate | simulation/tutorials_ep9_yzz_paper.py:562-578 | feeding a current regulator its command and measurement and calling it leaves the gains unchanged and the memory at `TustinPidStep` |
| Foc.Controller.constructor | simulation/tutorials_ep9_yzz_paper.py:11-61 | the counter starts at ceiling − 1; cmd_psi is 0.9 for an induction machine and KE otherwise; closed loop and zero-d on, decoupling off |
| Foc.Controller.Foc | simulation/tutorials_ep9_yzz_paper.py:513-596 | one `FOC` call: speed setpoint, counter tick with the speed PID on a wrap, the id/iq commands, slip as `SlipFrequency` (infinite or NaN at KA = 0) for an induction machine and 0 otherwise, ω_syn = ω_r + ω_slip carrying a non-finite slip, both current PIDs, and voltage commands as `VoltageCommands` |
| Foc.Controller.SpeedLoop | simulation/tutorials_ep9_yzz_paper.py:514-520 | the counter is bumped and reset at the ceiling, and the speed PID runs exactly on the reset |
| Foc.Controller.CurrentCommands | simulation/tutorials_ep9_yzz_paper.py:523-559 | the q command follows the speed output in closed loop; the d command is `IdCommand`; slip is `SlipFrequency` (infinite or NaN at KA = 0) for an induction machine and 0 otherwise; ω_syn = ω_r + ω_slip carrying a non-finite slip |
| Foc.Controller.CurrentLoops | simulation/tutorials_ep9_yzz_paper.py:562-596 | both current PIDs run on their commands and measurements, and the voltage commands are `VoltageCommands` re-limited by `reg_iq.OutLimit` |
| Flux.Quotient | simulation/tutorials_ep9_yzz_paper.py:719-720 | a float64 division is non-finite exactly when the divisor is 0, and otherwise times the divisor gives the dividend |
| Flux.Accumulate | simulation/tutorials_ep9_yzz_paper.py:722 | the gated sum stays finite only while both terms are; a closed gate adds nothing; an open gate adds the increment |
| Flux.FluxRoundTrip | simulation/tutorials_ep9_yzz_paper.py:624-682 | rebuilding the stator flux from the rotor flux inverts `psi_2 = psi_1 − Lq·i` |
| Flux.SaturateAxis | simulation/tutorials_ep9_yzz_paper.py:641-659 | with a nonzero speed command a sample above psi_aster_max becomes psi_aster_max and adds CL_TS to sat_max_time, and a sample below −psi_aster_max becomes −psi_aster_max and adds CL_TS to sat_min_time; a sample in band is unchanged and takes CL_TS off each positive timer; with no speed command nothing changes; each maximum is the larger of its old value and the new timer; the correction is sat_max − sat_min |
| Flux.TimerStaysOnGrid | simulation/tutorials_ep9_yzz_paper.py:645-652 | growing, keeping, shrinking-if-positive or zeroing a timer that is whole periods keeps it whole periods and ≥ 0 |
| Flux.SaturationKeepsGrid | simulation/tutorials_ep9_yzz_paper.py:641-652 | the clamp keeps both saturation timers whole periods, hence ≥ 0 |
| Flux.CountSign | simulation/tutorials_ep9_yzz_paper.py:662-678 | a sample extends its sign's run, ends and records the other sign's run, and keeps the two runs never both nonzero |
| Flux.NegativeHalfCycle | simulation/tutorials_ep9_yzz_paper.py:704-748 | a confirmed negative half cycle counts once, measures the period since the last pos-to-neg crossing, disarms the other direction, zeroes the minimum saturation time and records the correction, with sign −1; it resets the extremes, computes the LPF input, the increment and the gated direct sum from the half-sum of the extremes, and records the saturation-time offset |
| Flux.PositiveHalfCycle | simulation/tutorials_ep9_yzz_paper.py:764-800 | a confirmed positive half cycle counts once, measures the period since the last neg-to-pos crossing, disarms the other direction, zeroes the maximum saturation time and records the correction, with sign +1; it resets the extremes, computes the LPF input, the increment and the gated direct sum, and keeps the saturation-time offset |
| Flux.Pos2Neg | simulation/tutorials_ep9_yzz_paper.py:702-760 | the negative count rises exactly on a first confirmation, the positive count is untouched, and the detector is armed after the call exactly on a sign change to negative or a confirmed armed state |
| Flux.Neg2Pos | simulation/tutorials_ep9_yzz_paper.py:762-812 | the positive count rises exactly on a first confirmation, the negative count is untouched, and the detector is armed after the call exactly on a sign change to positive or a confirmed armed state |
| Flux.CrossAxis | simulation/tutorials_ep9_yzz_paper.py:699-812 | both detectors of one axis leave its fluxes, its previous sample, its offset and its sign runs unchanged |
| Flux.DebounceRules | simulation/tutorials_ep9_yzz_paper.py:699-812 | LevelA arms on a sign change and records timebase; it stays armed only while confirmed; half cycles are counted only on LevelB false→true, which clears the opposite flags, zeroes one timer and moves the reference time; only pos→neg resets the maxima |
| Flux.ArmedMatchesSign | simulation/tutorials_ep9_yzz_paper.py:702-812 | an armed detector has seen the sign it waits to confirm, so both directions are never armed together |
| Flux.CrossingKeepsOneHalfCycle | simulation/tutorials_ep9_yzz_paper.py:702-812 | at most one direction of an axis holds a confirmed (LevelB) half cycle |
| Flux.CrossingKeepsCorrection | simulation/tutorials_ep9_yzz_paper.py:719-722 | the crossing work recomputes the correction to the value measured at line 655 |
| Flux.CrossingKeepsGrid | simulation/tutorials_ep9_yzz_paper.py:748-800 | the half-cycle resets keep the timers whole periods |
| Flux.CrossPrefix | simulation/tutorials_ep9_yzz_paper.py:699-812 | the crossing loop leaves the axes it has not reached untouched |
| Flux.RealtimeGain | simulation/tutorials_ep9_yzz_paper.py:826 | the realtime gain times the measured period equals REALTIME·INIT |
| Flux.GainOff | simulation/tutorials_ep9_yzz_paper.py:823-828 | gain_off is GAIN_OFFSET_INIT when GAIN_OFFSET_REALTIME = 0; otherwise it is `RealtimeGain` of the finished runs, or unchanged while no run has finished |
| Flux.Measured | simulation/tutorials_ep9_yzz_paper.py:621-682 | an axis before the crossing loop: the rotor flux is the clamp of psi_1 − Lq·i, the timers are those of that clamp, the sign run is updated, and the stator flux is rebuilt from the clamped rotor flux |
| Flux.MeasureAxes | simulation/tutorials_ep9_yzz_paper.py:621-684 | the statements before the crossing loop compute `MeasuredAxes` |
| Flux.InitialState | simulation/tutorials_ep9_yzz_paper.py:238-299 | the estimator starts with two axes and a six-entry state vector |
| Flux.Step | simulation/tutorials_ep9_yzz_paper.py:621-836 | one call keeps two axes and a six-entry state vector |
| Flux.StepClampsFlux | simulation/tutorials_ep9_yzz_paper.py:638-684 | psi_aster_max = cmd_psi + extra_limit; with cmd_rpm ≠ 0 both psi_2 end within ±psi_aster_max; xFlux[0..1] is rebuilt from them; psi_2_prev keeps them |
| Flux.StepIntegratesOffset | simulation/tutorials_ep9_yzz_paper.py:820-833 | each u_offset moves by gain_off·CL_TS·(sat_max − sat_min) measured at line 655 and is copied to xFlux[2..3]; gain_off = INIT when REALTIME = 0 |
| Flux.StepCountsHalfCycles | simulation/tutorials_ep9_yzz_paper.py:699-812 | the shared negative/positive cycle counters rise by exactly the number of first confirmations in that direction |
| Flux.StepArmedMatchesSign | simulation/tutorials_ep9_yzz_paper.py:699-836 | after every call, an armed pos→neg detector has psi_2_prev < 0 and an armed neg→pos one has psi_2_prev > 0 |
| Flux.InitialConsistent | simulation/tutorials_ep9_yzz_paper.py:238-299 | the initial state meets the estimator invariant |
| Flux.ConsistentTimersNonNegative | simulation/tutorials_ep9_yzz_paper.py:645-652 | under the invariant both saturation timers of each axis are ≥ 0 |
| Flux.StepKeepsConsistent | simulation/tutorials_ep9_yzz_paper.py:641-812 | every call keeps the invariant: timers whole periods, sign runs exclusive, at most one confirmed half cycle per axis |
| Flux.SaturateAll | simulation/tutorials_ep9_yzz_paper.py:641-659 | the clamp loop applies `SaturateAxis` to every axis |
| Flux.CrossAll | simulation/tutorials_ep9_yzz_paper.py:699-812 | the crossing loop computes `CrossPrefix` over all axes, threading the shared counters |
| Flux.Pos2NegDetector | simulation/tutorials_ep9_yzz_paper.py:702-760 | the imperative pos→neg detector computes `Pos2Neg` |
| Flux.Neg2PosDetector | simulation/tutorials_ep9_yzz_paper.py:762-812 | the imperative neg→pos detector computes `Neg2Pos` |
| Flux.EstimatorBlock | simulation/tutorials_ep9_yzz_paper.py:621-836 | the statements of the estimator block on a copy of the state compute `Step` |
| Flux.FluxEstimator.constructor | simulation/tutorials_ep9_yzz_paper.py:238-299 | the object starts in `InitialState`: zero arrays, Delta_t = 1, psi_aster_max = 0.9, gain 10, realtime factor 0 |
| Flux.FluxEstimator.Update | simulation/tutorials_ep9_yzz_paper.py:621-836 | one call of the estimator block leaves the object in `Step` of its old state |

## Left out

- Plant and observer numerics are not modelled: `DYNAMICS_MACHINE`, `RK4_MACHINE`, `DYNAMICS_SpeedObserver`, `DYNAMICS_FluxEstimator` and `RK4_ObserverSolver_CJH_Style`. They are floating-point ODE integration with no discrete contract.
  - The flux estimator's new stator flux arrives in `xFlux[0..1]`.
  - The observer's position arrives as the input of `WrapPosition`.
- `cos`, `sin` and `sqrt`, and with them the Park/Clarke rotations of `DSP`, are not modelled. Real arithmetic has no exact versions of them.
- The flux-angle `cosT`/`sinT` and `psi_2_ampl` (lines 839-847) are left out. Lines 846-847 immediately overwrite them with the measured angle.
- Floating point: values are exact reals, so rounding, NaN from invalid operations, and overflow are not modelled.
  - Float64 division by zero is modelled in two places. The flux estimates use `Flux.Num`. The slip uses `Foc.Ext`, which keeps the sign of an infinity because the decoupling clamp treats +∞, −∞ and NaN differently.
  - The slip division `Rreq·cmd_idq[1]/KA` (line 530) is a float64 division, and KA is recomputed from the measured d current at every step (line 858). Its infinity or NaN is modelled as `Foc.Ext` and carried through ω_syn, the decoupling voltages and their clamp.
  - Ld ≠ Lq is a precondition for the induction machine. `cmd_psi/(Ld − Lq)` (line 529) divides Python floats and raises on a zero divisor.
  - 2·tau + T ≠ 0 for the PID (lines 494-496) and npp ≠ 0 for the field-weakening speed (line 548) are preconditions. These are float64 divisions that would give infinities or NaN, which the model does not carry. Every call site meets both: tau = 0; T = CL_TS for the current regulators and VL_TS = 5·CL_TS for the speed regulator, both > 0; and npp ≥ 1.
  - CL_TS > 0 is a precondition for the flux estimator.
- Ceilings are positive ints. `velocity_loop_ceiling` is `VL_TS / CL_TS`, a float in the code. The driver's ceiling is `int(CL_TS / MACHINE_TS)`.
- Svgen.SvgenObject: the code keeps the ePWM compare registers, carrier, dead-time counters, delay flags and S1–S6 as separate attributes. They are grouped in one field `pwm` of type `Gate.Inverter`. The dead-time counters (float arrays in the code) are ints.
- Foc.Controller.CurrentCommands: the square root for the field-weakening `OutLimit` (line 557) is not computed. It is supplied as `fwLimit`, required to be the non-negative root of the radicand.
- Foc.Controller.CurrentCommands: the model updates the limit under the corrected guard, not the signed one (see Findings).
- Foc.Controller.Foc: it runs `CurrentCommands`, so it too updates the limit under the corrected guard and takes the root as `fwLimit`.
- Console and scripting are not modelled: the hard-coded command schedule, sweep excitation, vehicle load model, trace recording, plotting, `ACMSimPyWrapper`, `Simulation_Benchmark` and `lpf1_inverter`.
- Dead `if False:` branches are not modelled, including the adaptive `extra_limit` updates at lines 734-746 and 787-798. `extra_limit` therefore stays at its initial 0.
- `simulation/test.py` is not part of this model. It is a plotting and code-generation script.
- Flux.Cycles: `Delta_t_last` has no initial value in the code. It is written before it is first read, and the model starts it at 0.
- Flux.SignRun: the run counters are float arrays in the code that only ever hold whole numbers. They are `nat`s here.
- Flux.FluxEstimator: `IM_STAOTR_RESISTANCE` (`rs_est`) is not used by the modelled block and is not a constructor parameter.

## Findings

| source | as written | input that shows it | evidently intended | confidence | as-written member | corrected member |
|---|---|---|---|---|---|---|
| simulation/tutorials_ep9_yzz_paper.py:556-557 | the guard before `reg_speed.OutLimit = sqrt((IN·1.414)² − id²)` compares `IN·1.414 > cmd_idq[0]` with the signed d current, which is never positive, so the guard always holds | IN = 3 A (the default) at ≥ 1000 r/min: id = −60, so the guard holds while the radicand 17.99 − 3600 is negative | compare with the magnitude, `IN·1.414 > |cmd_idq[0]|`, so the limit is only replaced when the radicand is positive | not executed | Foc.GuardAsWrittenAdmitsNegativeRadicand | Foc.CorrectedGuardRadicandPositive |
