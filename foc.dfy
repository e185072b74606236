/** Field-oriented control (`FOC`): the speed loop run at the down-sampled
    rate, the d/q current commands (induction machine, or synchronous
    machine with zero-d-axis or field-weakening d-axis current), the slip and
    synchronous frequencies, the two current regulators, and the optional
    decoupling voltages re-limited by the q-axis regulator's limit. */
module Foc {
  import opened Angles
  import opened Regulators
  import opened DownSampling

  /** The largest demagnetising d-axis current of the field-weakening
      schedule [A]. */
  const MAX_DEMAG_CURRENT: real := 60.0

  /** Commanded mechanical speed [r/min] as an electrical angular speed
      [elec. rad/s] for a machine with `npp` pole pairs. */
  function SpeedSetpoint(cmdRpm: real, npp: real): (r: real)
    ensures npp > 0.0 ==> (r > 0.0 <==> cmdRpm > 0.0) && (r == 0.0 <==> cmdRpm == 0.0)
  {
    cmdRpm / 60.0 * TWO_PI * npp
  }

  /** The inverse conversion the field-weakening schedule uses. */
  function MechanicalRpm(omegaElec: real, npp: real): (r: real)
    requires npp != 0.0
    ensures r * (TWO_PI * npp) == omegaElec * 60.0
  {
    omegaElec * 60.0 / (TWO_PI * npp)
  }

  /** The speed setpoint and the schedule's speed are the same quantity in two
      units: converting a speed command to electrical rad/s and back gives the
      command again. */
  lemma RpmRoundTrip(cmdRpm: real, npp: real)
    requires npp != 0.0
    ensures MechanicalRpm(SpeedSetpoint(cmdRpm, npp), npp) == cmdRpm
  {
    var x := TWO_PI * npp;
    assert x != 0.0;
    assert SpeedSetpoint(cmdRpm, npp) == (cmdRpm / 60.0) * x;
    calc {
      MechanicalRpm(SpeedSetpoint(cmdRpm, npp), npp);
      (cmdRpm / 60.0) * x * 60.0 / x;
      { assert (cmdRpm / 60.0) * x * 60.0 == cmdRpm * x; }
      cmdRpm * x / x;
    }
  }

  /** The simple field-weakening schedule: no d-axis current below 450 r/min,
      a linear ramp down to -60 A at 1000 r/min, -60 A above. */
  function FieldWeakeningId(speedRpm: real): (r: real)
    ensures -MAX_DEMAG_CURRENT <= r <= 0.0
    ensures speedRpm < 450.0 ==> r == 0.0
    ensures speedRpm >= 1000.0 ==> r == -MAX_DEMAG_CURRENT
  {
    if speedRpm < 450.0 then 0.0
    else if speedRpm < 1000.0 then (speedRpm - 450.0) / (1000.0 - 450.0) * -MAX_DEMAG_CURRENT
    else -MAX_DEMAG_CURRENT
  }

  /** The demagnetising current never decreases in magnitude as the speed
      rises, and the ramp meets both plateaus (no jump at 450 or 1000 r/min). */
  lemma FieldWeakeningMonotone(s1: real, s2: real)
    requires s1 <= s2
    ensures FieldWeakeningId(s2) <= FieldWeakeningId(s1)
    ensures FieldWeakeningId(450.0) == 0.0
    ensures 450.0 <= s1 < 1000.0 ==>
              FieldWeakeningId(s1) + MAX_DEMAG_CURRENT == (1000.0 - s1) / 550.0 * MAX_DEMAG_CURRENT
  {
    if 450.0 <= s1 && s2 < 1000.0 {
      assert (s2 - 450.0) / 550.0 >= (s1 - 450.0) / 550.0;
    }
  }

  /** The d-axis current command of the induction machine: the rotor flux
      command over the inductance difference. */
  function ImFluxCurrent(cmdPsi: real, Ld: real, Lq: real): (r: real)
    requires Ld != Lq
    ensures r * (Ld - Lq) == cmdPsi
  {
    cmdPsi / (Ld - Lq)
  }

  // ------------------------------------------------- float64 slip values

  /** A float64 value of the slip path: a finite number, an infinity or NaN.
      The slip division is the controller's one float64 division whose
      divisor (the active flux KA, recomputed from the measured d current at
      every step) the controller does not keep away from zero; it then gives
      an infinity or NaN instead of raising. */
  datatype Ext = Real(v: real) | PosInf | NegInf | NaN

  /** `x + e` for a finite `x`: an infinity or NaN absorbs it. */
  function Plus(x: real, e: Ext): (r: Ext)
    ensures r.Real? <==> e.Real?
    ensures !e.Real? ==> r == e
  {
    if e.Real? then Real(x + e.v) else e
  }

  /** `-e`. */
  function Negate(e: Ext): Ext
  {
    match e
    case Real(v) => Real(-v)
    case PosInf => NegInf
    case NegInf => PosInf
    case NaN => NaN
  }

  /** `e * y` for a finite `y`: an infinity times zero is NaN. */
  function Times(e: Ext, y: real): (r: Ext)
    ensures r.Real? <==> e.Real?
    ensures r.NaN? <==> e.NaN? || (!e.Real? && y == 0.0)
  {
    match e
    case Real(v) => Real(v * y)
    case PosInf => if y > 0.0 then PosInf else if y < 0.0 then NegInf else NaN
    case NegInf => if y > 0.0 then NegInf else if y < 0.0 then PosInf else NaN
    case NaN => NaN
  }

  lemma ZeroTimes(y: real)
    ensures Times(Real(0.0), y) == Real(0.0) && Negate(Real(0.0)) == Real(0.0)
  {
  }

  /** `e > y` for a finite `y` (false for NaN). */
  predicate Above(e: Ext, y: real)
  {
    e.PosInf? || (e.Real? && e.v > y)
  }

  /** `e < y` for a finite `y` (false for NaN). */
  predicate Below(e: Ext, y: real)
  {
    e.NegInf? || (e.Real? && e.v < y)
  }

  /** A value the clamp to `limit` lets through: within the limit, or NaN,
      which fails both comparisons of the clamp. */
  predicate WithinOrNaN(e: Ext, limit: real)
  {
    e.NaN? || (e.Real? && -limit <= e.v <= limit)
  }

  /** The upper-then-lower clamp on a float64 value: on a finite value it is
      `Clamp`, an infinity is pinned to the limit of its sign, NaN stays. */
  function ClampExt(e: Ext, limit: real): (r: Ext)
    ensures e.Real? ==> r == Real(Clamp(e.v, limit))
    ensures limit >= 0.0 ==> WithinOrNaN(r, limit)
    ensures e.PosInf? ==> r == Real(limit)
    ensures e.NegInf? ==> r == Real(-limit)
    ensures r.NaN? <==> e.NaN?
  {
    if Above(e, limit) then Real(limit) else if Below(e, -limit) then Real(-limit) else e
  }

  /** The slip frequency of the induction machine, computed from the current
      command: finite exactly when KA is not zero, and then the quotient;
      with KA = 0 an infinity of the sign of the numerator, or NaN for 0/0. */
  function SlipFrequency(Rreq: real, iqCmd: real, KA: real): (r: Ext)
    ensures r.Real? <==> KA != 0.0
    ensures r.Real? ==> r.v * KA == Rreq * iqCmd
    ensures r.NaN? <==> KA == 0.0 && Rreq * iqCmd == 0.0
  {
    if KA != 0.0 then Real(Rreq * iqCmd / KA)
    else if Rreq * iqCmd > 0.0 then PosInf
    else if Rreq * iqCmd < 0.0 then NegInf
    else NaN
  }

  /** With a positive rotor resistance and active flux the slip has the sign
      of the torque current, and vanishes exactly when it does. */
  lemma SlipFollowsTorqueCurrent(Rreq: real, iqCmd: real, KA: real)
    requires Rreq > 0.0 && KA > 0.0
    ensures SlipFrequency(Rreq, iqCmd, KA).Real?
    ensures SlipFrequency(Rreq, iqCmd, KA).v > 0.0 <==> iqCmd > 0.0
    ensures SlipFrequency(Rreq, iqCmd, KA).v == 0.0 <==> iqCmd == 0.0
  {
    var r := SlipFrequency(Rreq, iqCmd, KA).v;
    if iqCmd > 0.0 {
      assert Rreq * iqCmd > 0.0;
    } else if iqCmd < 0.0 {
      assert Rreq * iqCmd < 0.0;
    }
    assert r * KA == Rreq * iqCmd;
    if r > 0.0 { assert r * KA > 0.0; }
    if r < 0.0 { assert r * KA < 0.0; }
  }

  /** With no active flux the slip is not a number the machine can follow:
      an infinity with the sign of the torque current, or NaN when that
      current is zero. */
  lemma SlipWithoutActiveFlux(Rreq: real, iqCmd: real)
    requires Rreq > 0.0
    ensures SlipFrequency(Rreq, iqCmd, 0.0) ==
              if iqCmd > 0.0 then PosInf else if iqCmd < 0.0 then NegInf else NaN
  {
    if iqCmd > 0.0 {
      assert Rreq * iqCmd > 0.0;
    } else if iqCmd < 0.0 {
      assert Rreq * -iqCmd > 0.0;
    }
  }

  /** The d-axis current command for either machine. */
  function IdCommand(Rreq: real, zeroId: bool, cmdPsi: real, Ld: real, Lq: real,
                     omegaRElec: real, npp: real): (r: real)
    requires Rreq > 0.0 ==> Ld != Lq
    requires Rreq <= 0.0 && !zeroId ==> npp != 0.0
    ensures Rreq > 0.0 ==> r * (Ld - Lq) == cmdPsi
    ensures Rreq <= 0.0 ==> -MAX_DEMAG_CURRENT <= r <= 0.0
    ensures Rreq <= 0.0 && zeroId ==> r == 0.0
  {
    if Rreq > 0.0 then ImFluxCurrent(cmdPsi, Ld, Lq)
    else if zeroId then 0.0
    else FieldWeakeningId(MechanicalRpm(omegaRElec, npp))
  }

  // ------------------------------------------------- field-weakening limit

  /** The current amplitude left for the q axis: (IN*1.414)^2 - id^2. */
  function Radicand(IN: real, idCmd: real): real
  {
    (IN * 1.414) * (IN * 1.414) - idCmd * idCmd
  }

  /** The guard as written: the rated amplitude compared with the signed
      d-axis command. */
  predicate GuardAsWritten(IN: real, idCmd: real)
  {
    IN * 1.414 > idCmd
  }

  /** The guard compared with the magnitude of the d-axis command. */
  predicate CorrectedGuard(IN: real, idCmd: real)
  {
    IN * 1.414 > Abs(idCmd)
  }

  /** The d-axis command is never positive, so for a positive rated current
      the guard as written holds for every speed: it filters nothing. */
  lemma GuardAsWrittenAlwaysHolds(IN: real, speedRpm: real)
    requires IN > 0.0
    ensures GuardAsWritten(IN, FieldWeakeningId(speedRpm))
  {
  }

  /** With the default rated current of 3 A at 1000 r/min or above, the guard
      as written lets through a negative radicand (about 17.99 - 3600), so
      the square root taken for the new speed-regulator limit is not a real
      number. */
  lemma GuardAsWrittenAdmitsNegativeRadicand()
    ensures GuardAsWritten(3.0, FieldWeakeningId(1000.0))
    ensures Radicand(3.0, FieldWeakeningId(1000.0)) < 0.0
  {
  }

  lemma MulMonotone(x: real, y: real, z: real)
    requires x >= 0.0 && y <= z
    ensures x * y <= x * z
  {
    assert x * z - x * y == x * (z - y);
  }

  lemma MulPositive(x: real, y: real)
    requires x > 0.0 && y > 0.0
    ensures x * y > 0.0
  {
  }

  lemma SquareMonotone(a: real, b: real)
    requires 0.0 <= b
    ensures a > b ==> a * a > b * b
    ensures a * a > b * b && a >= 0.0 ==> a > b
  {
    if a > b {
      assert a * a - b * b == (a - b) * (a + b);
      MulPositive(a - b, a + b);
    } else if a >= 0.0 {
      MulMonotone(a, a, b);
      MulMonotone(b, a, b);
    }
  }

  /** The corrected guard holds exactly when the radicand is positive (for a
      non-negative rated current), so the limit it sets is always real. */
  lemma CorrectedGuardRadicandPositive(IN: real, idCmd: real)
    requires IN >= 0.0
    ensures CorrectedGuard(IN, idCmd) <==> Radicand(IN, idCmd) > 0.0
  {
    var a := IN * 1.414;
    SquareMonotone(a, Abs(idCmd));
    assert Abs(idCmd) * Abs(idCmd) == idCmd * idCmd;
  }

  /** Whether a `FOC` call replaces the speed regulator's output limit. */
  predicate FieldWeakeningApplies(Rreq: real, zeroId: bool, IN: real, omegaRElec: real, npp: real)
  {
    Rreq <= 0.0 && !zeroId && npp != 0.0
    && CorrectedGuard(IN, FieldWeakeningId(MechanicalRpm(omegaRElec, npp)))
  }

  // ---------------------------------------------------------- decoupling

  /** The cross-coupling voltages of the two axes at synchronous speed
      `omegaSyn`: -omegaSyn*Lq*iq on the d (M) axis, omegaSyn*(KA + Lq*id) on
      the q (T) axis, evaluated left to right in float64. */
  function DecouplingVoltages(omegaSyn: Ext, Lq: real, KA: real, idCmd: real, iqCmd: real): (r: (Ext, Ext))
    ensures omegaSyn.Real? ==> r.0.Real? && r.1.Real?
    ensures omegaSyn.NaN? ==> r == (NaN, NaN)
  {
    (Times(Times(Negate(omegaSyn), Lq), iqCmd), Times(omegaSyn, KA + Lq * idCmd))
  }

  /** At standstill of the synchronous frame there is nothing to decouple. */
  lemma NoCouplingAtStandstill(Lq: real, KA: real, idCmd: real, iqCmd: real)
    ensures DecouplingVoltages(Real(0.0), Lq, KA, idCmd, iqCmd) == (Real(0.0), Real(0.0))
  {
    ZeroTimes(Lq);
    ZeroTimes(iqCmd);
    ZeroTimes(KA + Lq * idCmd);
  }

  /** The voltage commands from the two regulator outputs: passed through, or
      with the decoupling voltages added and both axes re-limited by the
      q-axis regulator's limit. A finite synchronous speed keeps them finite;
      an infinite one pins each decoupled axis at a limit or makes it NaN. */
  function VoltageCommands(udOut: real, uqOut: real, decoupling: bool, omegaSyn: Ext,
                           Lq: real, KA: real, idCmd: real, iqCmd: real, iqLimit: real): (r: (Ext, Ext))
    ensures !decoupling ==> r == (Real(udOut), Real(uqOut))
    ensures omegaSyn.Real? ==> r.0.Real? && r.1.Real?
    ensures decoupling && iqLimit >= 0.0 ==> WithinOrNaN(r.0, iqLimit) && WithinOrNaN(r.1, iqLimit)
    ensures decoupling && omegaSyn.NaN? ==> r == (NaN, NaN)
    ensures decoupling && (omegaSyn.PosInf? || omegaSyn.NegInf?) ==>
              (r.0.NaN? || r.0 == Real(iqLimit) || r.0 == Real(-iqLimit))
              && (r.1.NaN? || r.1 == Real(iqLimit) || r.1 == Real(-iqLimit))
  {
    if decoupling then
      var d := DecouplingVoltages(omegaSyn, Lq, KA, idCmd, iqCmd);
      (ClampExt(Plus(udOut, d.0), iqLimit), ClampExt(Plus(uqOut, d.1), iqLimit))
    else (Real(udOut), Real(uqOut))
  }

  /** Whatever the decoupling switch, the voltage commands stay within the
      regulators' limits when both current regulators share one limit (as
      the driver builds them) and the synchronous speed is finite. */
  lemma VoltageCommandsBounded(udOut: real, uqOut: real, decoupling: bool, omegaSyn: Ext,
                               Lq: real, KA: real, idCmd: real, iqCmd: real, limit: real)
    requires limit >= 0.0 && omegaSyn.Real?
    requires -limit <= udOut <= limit && -limit <= uqOut <= limit
    ensures var r := VoltageCommands(udOut, uqOut, decoupling, omegaSyn, Lq, KA, idCmd, iqCmd, limit);
            && r.0.Real? && -limit <= r.0.v <= limit
            && r.1.Real? && -limit <= r.1.v <= limit
  {
  }

  /** The statements that turn the regulator outputs into voltage commands:
      add the decoupling voltages, then clamp each axis to `iqLimit`. */
  method ApplyDecoupling(ud: real, uq: real, decoupling: bool, omegaSyn: Ext,
                         Lq: real, KA: real, idCmd: real, iqCmd: real, iqLimit: real) returns (r: (Ext, Ext))
    ensures r == VoltageCommands(ud, uq, decoupling, omegaSyn, Lq, KA, idCmd, iqCmd, iqLimit)
  {
    var d0, d1 := Real(ud), Real(uq);
    if decoupling {
      var d := DecouplingVoltages(omegaSyn, Lq, KA, idCmd, iqCmd);
      d0 := Plus(ud, d.0);
      d1 := Plus(uq, d.1);
      if Above(d0, iqLimit) {
        d0 := Real(iqLimit);
      } else if Below(d0, -iqLimit) {
        d0 := Real(-iqLimit);
      }
      if Above(d1, iqLimit) {
        d1 := Real(iqLimit);
      } else if Below(d1, -iqLimit) {
        d1 := Real(-iqLimit);
      }
    }
    r := (d0, d1);
  }

  /** Feed a current regulator its command and measurement, then call it. */
  method Regulate(reg: PidRegulator, setpoint: real, measurement: real) returns (out: real)
    requires 2.0 * reg.tau + reg.T != 0.0
    modifies reg
    ensures reg.setpoint == setpoint && reg.measurement == measurement
    ensures reg.Gains() == old(reg.Gains())
    ensures reg.Memory() == TustinPidStep(reg.Gains(), old(reg.Memory()), setpoint, measurement)
    ensures out == reg.Out
  {
    reg.setpoint, reg.measurement := setpoint, measurement;
    out := reg.TustinPid();
  }

  // --------------------------------------------------------- the object

  /** The part of the controller object (`The_Motor_Controller`) that `FOC`
      reads and writes. */
  class Controller {
    var velocityLoopCeiling: int
    var velocityLoopCounter: int
    var cmdRpm: real
    var npp: real
    var IN: real
    var Ld: real
    var Lq: real
    var KE: real
    var KA: real
    var Rreq: real
    var cmdPsi: real
    var omegaRElec: real
    var omegaSlip: Ext
    var omegaSyn: Ext
    var boolApplySpeedClosedLoopControl: bool
    var boolZeroIdControl: bool
    var boolApplyDecouplingVoltagesToCurrentRegulation: bool
    var cmdIdq: seq<real>
    var cmdUdq: seq<Ext>
    var idq: seq<real>

    /** Two-element vectors and the speed-loop counter inside its period. */
    ghost predicate Valid()
      reads this
    {
      && |cmdIdq| == 2 && |cmdUdq| == 2 && |idq| == 2
      && velocityLoopCeiling >= 1 && 0 <= velocityLoopCounter < velocityLoopCeiling
    }

    /** The constructor's defaults: the counter one short of the ceiling (so
        the first call runs the speed loop), the flux command 0.9 Wb for an
        induction machine and KE otherwise, active flux KE, closed speed loop
        with zero d-axis current and no decoupling. */
    constructor (ceiling: int, npp: real, IN: real, Ld: real, Lq: real, KE: real, Rreq: real)
      requires ceiling >= 1
      ensures Valid()
      ensures velocityLoopCeiling == ceiling && velocityLoopCounter == ceiling - 1
      ensures this.npp == npp && this.IN == IN && this.Ld == Ld && this.Lq == Lq
      ensures this.KE == KE && KA == KE && this.Rreq == Rreq
      ensures cmdPsi == (if Rreq > 0.0 then 0.9 else KE)
      ensures cmdRpm == 0.0 && omegaRElec == 0.0 && omegaSlip == Real(0.0) && omegaSyn == Real(0.0)
      ensures boolApplySpeedClosedLoopControl && boolZeroIdControl
      ensures !boolApplyDecouplingVoltagesToCurrentRegulation
      ensures cmdIdq == [0.0, 0.0] && cmdUdq == [Real(0.0), Real(0.0)] && idq == [0.0, 0.0]
    {
      velocityLoopCeiling := ceiling;
      velocityLoopCounter := ceiling - 1;
      this.npp, this.IN, this.Ld, this.Lq, this.KE, this.Rreq := npp, IN, Ld, Lq, KE, Rreq;
      KA := KE;
      cmdPsi := if Rreq > 0.0 then 0.9 else KE;
      cmdRpm, omegaRElec, omegaSlip, omegaSyn := 0.0, 0.0, Real(0.0), Real(0.0);
      boolApplySpeedClosedLoopControl := true;
      boolZeroIdControl := true;
      boolApplyDecouplingVoltagesToCurrentRegulation := false;
      cmdIdq, cmdUdq, idq := [0.0, 0.0], [Real(0.0), Real(0.0)], [0.0, 0.0];
    }

    /** `FOC(CTRL, reg_speed, reg_id, reg_iq)`. The square root the
        field-weakening branch takes for the speed regulator's new limit is
        supplied as `fwLimit`. */
    method Foc(regSpeed: PidRegulator, regId: PidRegulator, regIq: PidRegulator, fwLimit: real)
      requires Valid()
      requires regSpeed != regId && regSpeed != regIq && regId != regIq
      requires 2.0 * regSpeed.tau + regSpeed.T != 0.0
      requires 2.0 * regId.tau + regId.T != 0.0
      requires 2.0 * regIq.tau + regIq.T != 0.0
      requires Rreq > 0.0 ==> Ld != Lq
      requires Rreq <= 0.0 && !boolZeroIdControl ==> npp != 0.0
      requires FieldWeakeningApplies(Rreq, boolZeroIdControl, IN, omegaRElec, npp) ==>
                 fwLimit >= 0.0 && fwLimit * fwLimit == Radicand(IN, FieldWeakeningId(MechanicalRpm(omegaRElec, npp)))
      modifies this`velocityLoopCounter, this`cmdIdq, this`omegaSlip, this`omegaSyn, this`cmdUdq
      modifies regSpeed, regId, regIq
      ensures Valid()
      // speed loop, every `velocityLoopCeiling` calls
      ensures regSpeed.setpoint == SpeedSetpoint(cmdRpm, npp) && regSpeed.measurement == omegaRElec
      ensures velocityLoopCounter == Tick(old(velocityLoopCounter), velocityLoopCeiling).0
      ensures Tick(old(velocityLoopCounter), velocityLoopCeiling).1 ==>
                regSpeed.Memory() == TustinPidStep(old(regSpeed.Gains()), old(regSpeed.Memory()),
                                                   regSpeed.setpoint, regSpeed.measurement)
      ensures !Tick(old(velocityLoopCounter), velocityLoopCeiling).1 ==> regSpeed.Memory() == old(regSpeed.Memory())
      ensures regSpeed.Gains() == old(regSpeed.Gains()).(outLimit := regSpeed.OutLimit)
      ensures regSpeed.OutLimit == if FieldWeakeningApplies(Rreq, boolZeroIdControl, IN, omegaRElec, npp)
                                   then fwLimit else old(regSpeed.OutLimit)
      // current commands and frequencies
      ensures cmdIdq[1] == if boolApplySpeedClosedLoopControl then regSpeed.Out else old(cmdIdq[1])
      ensures cmdIdq[0] == IdCommand(Rreq, boolZeroIdControl, cmdPsi, Ld, Lq, omegaRElec, npp)
      ensures omegaSlip == if Rreq > 0.0 then SlipFrequency(Rreq, cmdIdq[1], KA) else Real(0.0)
      ensures omegaSyn == Plus(omegaRElec, omegaSlip)
      // current loops
      ensures regId.setpoint == cmdIdq[0] && regId.measurement == idq[0]
      ensures regId.Gains() == old(regId.Gains())
      ensures regId.Memory() == TustinPidStep(regId.Gains(), old(regId.Memory()), cmdIdq[0], idq[0])
      ensures regIq.setpoint == cmdIdq[1] && regIq.measurement == idq[1]
      ensures regIq.Gains() == old(regIq.Gains())
      ensures regIq.Memory() == TustinPidStep(regIq.Gains(), old(regIq.Memory()), cmdIdq[1], idq[1])
      ensures (cmdUdq[0], cmdUdq[1]) ==
                VoltageCommands(regId.Out, regIq.Out, boolApplyDecouplingVoltagesToCurrentRegulation, omegaSyn,
                                Lq, KA, cmdIdq[0], cmdIdq[1], regIq.OutLimit)
    {
      SpeedLoop(regSpeed);
      CurrentCommands(regSpeed, fwLimit);
      CurrentLoops(regId, regIq);
    }

    /** The speed regulator's setpoint and measurement, then the down-sampled
        speed loop. */
    method SpeedLoop(regSpeed: PidRegulator)
      requires velocityLoopCeiling >= 1 && 0 <= velocityLoopCounter < velocityLoopCeiling
      requires 2.0 * regSpeed.tau + regSpeed.T != 0.0
      modifies this`velocityLoopCounter, regSpeed
      ensures 0 <= velocityLoopCounter < velocityLoopCeiling
      ensures regSpeed.setpoint == SpeedSetpoint(cmdRpm, npp) && regSpeed.measurement == omegaRElec
      ensures velocityLoopCounter == Tick(old(velocityLoopCounter), velocityLoopCeiling).0
      ensures Tick(old(velocityLoopCounter), velocityLoopCeiling).1 ==>
                regSpeed.Memory() == TustinPidStep(old(regSpeed.Gains()), old(regSpeed.Memory()),
                                                   regSpeed.setpoint, regSpeed.measurement)
      ensures !Tick(old(velocityLoopCounter), velocityLoopCeiling).1 ==> regSpeed.Memory() == old(regSpeed.Memory())
      ensures regSpeed.Gains() == old(regSpeed.Gains())
    {
      regSpeed.setpoint := SpeedSetpoint(cmdRpm, npp);
      regSpeed.measurement := omegaRElec;
      velocityLoopCounter := velocityLoopCounter + 1;
      if velocityLoopCounter >= velocityLoopCeiling {
        velocityLoopCounter := 0;
        var _ := regSpeed.TustinPid();
      }
    }

    /** The d/q current commands, the field-weakening limit, and the slip and
        synchronous frequencies. */
    method CurrentCommands(regSpeed: PidRegulator, fwLimit: real)
      requires |cmdIdq| == 2
      requires Rreq > 0.0 ==> Ld != Lq
      requires Rreq <= 0.0 && !boolZeroIdControl ==> npp != 0.0
      requires FieldWeakeningApplies(Rreq, boolZeroIdControl, IN, omegaRElec, npp) ==>
                 fwLimit >= 0.0 && fwLimit * fwLimit == Radicand(IN, FieldWeakeningId(MechanicalRpm(omegaRElec, npp)))
      modifies this`cmdIdq, this`omegaSlip, this`omegaSyn, regSpeed`OutLimit
      ensures |cmdIdq| == 2
      ensures regSpeed.OutLimit == if FieldWeakeningApplies(Rreq, boolZeroIdControl, IN, omegaRElec, npp)
                                   then fwLimit else old(regSpeed.OutLimit)
      ensures cmdIdq[1] == if boolApplySpeedClosedLoopControl then regSpeed.Out else old(cmdIdq[1])
      ensures cmdIdq[0] == IdCommand(Rreq, boolZeroIdControl, cmdPsi, Ld, Lq, omegaRElec, npp)
      ensures omegaSlip == if Rreq > 0.0 then SlipFrequency(Rreq, cmdIdq[1], KA) else Real(0.0)
      ensures omegaSyn == Plus(omegaRElec, omegaSlip)
    {
      var idCmd, iqCmd := cmdIdq[0], cmdIdq[1];
      if boolApplySpeedClosedLoopControl {
        iqCmd := regSpeed.Out;
      }

      if Rreq > 0.0 {
        idCmd := ImFluxCurrent(cmdPsi, Ld, Lq);
        omegaSlip := SlipFrequency(Rreq, iqCmd, KA);
      } else {
        omegaSlip := Real(0.0);
        if boolZeroIdControl {
          idCmd := 0.0;
        } else {
          idCmd := FieldWeakeningId(MechanicalRpm(omegaRElec, npp));
          if CorrectedGuard(IN, idCmd) {
            regSpeed.OutLimit := fwLimit;
          }
        }
      }
      cmdIdq := [idCmd, iqCmd];

      omegaSyn := Plus(omegaRElec, omegaSlip);
    }

    /** The d- and q-axis current regulators on the current commands and the
        measured currents, then the optional decoupling voltages. */
    method CurrentLoops(regId: PidRegulator, regIq: PidRegulator)
      requires |cmdIdq| == 2 && |idq| == 2
      requires regId != regIq
      requires 2.0 * regId.tau + regId.T != 0.0
      requires 2.0 * regIq.tau + regIq.T != 0.0
      modifies this`cmdUdq, regId, regIq
      ensures regId.setpoint == cmdIdq[0] && regId.measurement == idq[0]
      ensures regId.Gains() == old(regId.Gains())
      ensures regId.Memory() == TustinPidStep(regId.Gains(), old(regId.Memory()), cmdIdq[0], idq[0])
      ensures regIq.setpoint == cmdIdq[1] && regIq.measurement == idq[1]
      ensures regIq.Gains() == old(regIq.Gains())
      ensures regIq.Memory() == TustinPidStep(regIq.Gains(), old(regIq.Memory()), cmdIdq[1], idq[1])
      ensures |cmdUdq| == 2
      ensures (cmdUdq[0], cmdUdq[1]) ==
                VoltageCommands(regId.Out, regIq.Out, boolApplyDecouplingVoltagesToCurrentRegulation, omegaSyn,
                                Lq, KA, cmdIdq[0], cmdIdq[1], regIq.OutLimit)
    {
      var idCmd, iqCmd := cmdIdq[0], cmdIdq[1];
      var ud := Regulate(regId, idCmd, idq[0]);
      var uq := Regulate(regIq, iqCmd, idq[1]);

      var u := ApplyDecoupling(ud, uq, boolApplyDecouplingVoltagesToCurrentRegulation, omegaSyn,
                               Lq, KA, idCmd, iqCmd, regIq.OutLimit);
      cmdUdq := [u.0, u.1];
    }
  }
}
