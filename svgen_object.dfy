/** The modulator/inverter object (`SVgen_Object`) whose fields the driver,
    `SVGEN_DQ` and `gate_signal_generator` update in place. Each method's new
    state is tied to the step functions of SpaceVector and Gate. */
module Svgen {
  import opened SpaceVector
  import opened Gate

  /** The sector decode and switching-time placement of `SVGEN_DQ`, on
      locals: the duties before inversion and clamping. */
  method SectorTimes(talfa: real, tbeta: real, tz: real, prev: Duties) returns (ta: real, tb: real, tc: real)
    ensures Duties(ta, tb, tc) == SectorDuties(Sector(talfa, tbeta), talfa, tbeta, tz, prev)
  {
    var a := tbeta;
    var c := 1.7320508 * talfa - tbeta;
    var b := -1.7320508 * talfa - tbeta;

    var sector := 0;
    if a > 0.0 { sector := 1; }
    if c > 0.0 { sector := sector + 2; }
    if b > 0.0 { sector := sector + 4; }
    assert sector == Sector(talfa, tbeta);

    var x := tbeta * 1.7320508;
    var y := 1.5 * talfa + tbeta * 0.8660254;
    var z := -1.5 * talfa + tbeta * 0.8660254;

    ta, tb, tc := prev.ta, prev.tb, prev.tc;
    if sector == 0 {
      ta, tb, tc := 0.5, 0.5, 0.5;
      assert Duties(ta, tb, tc) == SectorDuties(sector, talfa, tbeta, tz, prev);
    }
    if sector == 1 {
      var t1, t2 := z, y;
      tb := (1.0 - t1 - t2) * 0.5 + tz * 0.5;
      ta := tb + t1;
      tc := ta + t2;
      assert Duties(ta, tb, tc) == SectorDuties(sector, talfa, tbeta, tz, prev);
    } else if sector == 2 {
      var t1, t2 := y, -x;
      ta := (1.0 - t1 - t2) * 0.5 + tz * 0.5;
      tc := ta + t1;
      tb := tc + t2;
      assert Duties(ta, tb, tc) == SectorDuties(sector, talfa, tbeta, tz, prev);
    } else if sector == 3 {
      var t1, t2 := -z, x;
      ta := (1.0 - t1 - t2) * 0.5 + tz * 0.5;
      tb := ta + t1;
      tc := tb + t2;
      assert Duties(ta, tb, tc) == SectorDuties(sector, talfa, tbeta, tz, prev);
    } else if sector == 4 {
      var t1, t2 := -x, z;
      tc := (1.0 - t1 - t2) * 0.5 + tz * 0.5;
      tb := tc + t1;
      ta := tb + t2;
      assert Duties(ta, tb, tc) == SectorDuties(sector, talfa, tbeta, tz, prev);
    } else if sector == 5 {
      var t1, t2 := x, -y;
      tb := (1.0 - t1 - t2) * 0.5 + tz * 0.5;
      tc := tb + t1;
      ta := tc + t2;
      assert Duties(ta, tb, tc) == SectorDuties(sector, talfa, tbeta, tz, prev);
    } else if sector == 6 {
      var t1, t2 := -y, -z;
      tc := (1.0 - t1 - t2) * 0.5 + tz * 0.5;
      ta := tc + t1;
      tb := ta + t2;
      assert Duties(ta, tb, tc) == SectorDuties(sector, talfa, tbeta, tz, prev);
    }
    assert Duties(ta, tb, tc) == SectorDuties(sector, talfa, tbeta, tz, prev);
  }

  /** The end of `SVGEN_DQ` on locals: invert the duties for the active-low
      gates, then apply the upper and the lower duty limit. */
  method InvertAndClamp(raw: Duties) returns (d: Duties)
    ensures d == Duties(ClampDuty(1.0 - raw.ta), ClampDuty(1.0 - raw.tb), ClampDuty(1.0 - raw.tc))
  {
    var ta, tb, tc := 1.0 - raw.ta, 1.0 - raw.tb, 1.0 - raw.tc;
    if ta > MAX_DUTY { ta := MAX_DUTY; }
    if tb > MAX_DUTY { tb := MAX_DUTY; }
    if tc > MAX_DUTY { tc := MAX_DUTY; }
    if ta < MIN_DUTY { ta := MIN_DUTY; }
    if tb < MIN_DUTY { tb := MIN_DUTY; }
    if tc < MIN_DUTY { tc := MIN_DUTY; }
    d := Duties(ta, tb, tc);
  }

  /** A voltage normalised by the dc-bus voltage (`one_over_Vdc`). */
  function PerUnit(u: real, oneOverVdc: real): real
  {
    u * oneOverVdc
  }

  /** One leg of `gate_signal_generator` after the count: the ideal
      complementary pair, then the dead-time delay on the edge the carrier
      direction makes (rising edge of the upper switch while counting up,
      of the lower switch while counting down). */
  method LegTick(l: Leg, countingDown: bool, counter: int, deadTimeCount: int) returns (r: Leg)
    ensures r == LegStep(l, countingDown, counter, deadTimeCount)
  {
    var deadtime, rising, falling := l.deadtime, l.risingDelay, l.fallingDelay;
    var high := counter as real >= l.cmpa;
    var low := !high;
    if !countingDown {
      if counter as real >= l.cmpa {
        deadtime := deadtime + 1;
        if deadtime <= deadTimeCount {
          rising := true;
          high := false;
        }
      }
    } else {
      if counter as real < l.cmpa {
        deadtime := deadtime + 1;
        if deadtime < deadTimeCount {
          falling := true;
          low := false;
        }
      }
    }
    r := Leg(l.cmpa, deadtime, rising, falling, high, low);
  }

  /** `gate_signal_generator` on a value: the interrupt-event reset, the
      turn-around at the peak, one count, then each leg's dead-time logic. */
  method InverterTick(g: Inverter, cpuTick: int, deadTimeCount: int) returns (r: Inverter)
    ensures r == GateStep(g, cpuTick, deadTimeCount)
    ensures !(r.u.high && r.u.low) && !(r.v.high && r.v.low) && !(r.w.high && r.w.low)
    ensures r.u.cmpa == g.u.cmpa && r.v.cmpa == g.v.cmpa && r.w.cmpa == g.w.cmpa
  {
    var ev, down, cnt := g.carrier.event, g.carrier.countingDown, g.carrier.counter;
    var u, v, w := g.u, g.v, g.w;
    if ev {
      ev, down, cnt := false, false, 0;
      u, v, w := ClearDeadTime(u), ClearDeadTime(v), ClearDeadTime(w);
    }
    if cnt as real == cpuTick as real * 0.5 {
      down := true;
      u, v, w := ClearDeadTime(u), ClearDeadTime(v), ClearDeadTime(w);
    }
    assert Inverter(Carrier(ev, down, cnt), u, v, w) == BeforeCount(g, cpuTick);
    if down {
      cnt := cnt - 1;
    } else {
      cnt := cnt + 1;
    }
    u := LegTick(u, down, cnt, deadTimeCount);
    v := LegTick(v, down, cnt, deadTimeCount);
    w := LegTick(w, down, cnt, deadTimeCount);
    r := Inverter(Carrier(ev, down, cnt), u, v, w);
  }

  class SvgenObject {
    var Ualfa: real
    var Ubeta: real
    var Unot: real
    var Ta: real
    var Tb: real
    var Tc: real
    /** The ePWM registers of the three legs and the six gate signals
        S1..S6 (upper switches S1, S2, S3; lower S4, S5, S6). */
    var pwm: Inverter
    var voltagePotentialAtTerminal: seq<real>
    var lineToLineAC: real
    var lineToLineBC: real
    var lineToLineAB: real

    /** Duties inside the modulator's limits, three terminal potentials, and
        no leg with both switches on. */
    ghost predicate Valid()
      reads this
    {
      && |voltagePotentialAtTerminal| == 3
      && MIN_DUTY <= Ta <= MAX_DUTY && MIN_DUTY <= Tb <= MAX_DUTY && MIN_DUTY <= Tc <= MAX_DUTY
      && !(pwm.u.high && pwm.u.low) && !(pwm.v.high && pwm.v.low) && !(pwm.w.high && pwm.w.low)
    }

    function Duty(): Duties
      reads this
    {
      Duties(Ta, Tb, Tc)
    }

    /** Duties at 50 %, carrier at 0 counting up, compare values at half the
        up/down maximum, all switches off. */
    constructor (cpuTick: int)
      ensures Valid()
      ensures Duty() == Duties(0.5, 0.5, 0.5) && Ualfa == 0.0 && Ubeta == 0.0 && Unot == 0.0
      ensures pwm == Inverter(Carrier(false, false, 0),
                              Leg(0.5 * (0.5 * cpuTick as real), 0, false, false, false, false),
                              Leg(0.5 * (0.5 * cpuTick as real), 0, false, false, false, false),
                              Leg(0.5 * (0.5 * cpuTick as real), 0, false, false, false, false))
      ensures voltagePotentialAtTerminal == [0.0, 0.0, 0.0]
    {
      Ualfa, Ubeta, Unot := 0.0, 0.0, 0.0;
      Ta, Tb, Tc := 0.5, 0.5, 0.5;
      var leg := Leg(0.5 * (0.5 * cpuTick as real), 0, false, false, false, false);
      pwm := Inverter(Carrier(false, false, 0), leg, leg, leg);
      voltagePotentialAtTerminal := [0.0, 0.0, 0.0];
      lineToLineAC, lineToLineBC, lineToLineAB := 0.0, 0.0, 0.0;
    }

    /** `SVGEN_DQ(v, one_over_Vdc)`: only the three duties change. */
    method SvgenDq(oneOverVdc: real)
      requires Valid()
      modifies this`Ta, this`Tb, this`Tc
      ensures Valid()
      ensures Duty() == SvgenDuties(PerUnit(Ualfa, oneOverVdc), PerUnit(Ubeta, oneOverVdc), PerUnit(Unot, oneOverVdc), old(Duty()))
    {
      var talfa := PerUnit(Ualfa, oneOverVdc);
      var tbeta := PerUnit(Ubeta, oneOverVdc);
      var tz := PerUnit(Unot, oneOverVdc);

      var ta, tb, tc := SectorTimes(talfa, tbeta, tz, Duty());

      var d := InvertAndClamp(Duties(ta, tb, tc));
      assert d == SvgenDuties(talfa, tbeta, tz, old(Duty()));
      Ta, Tb, Tc := d.ta, d.tb, d.tc;
    }

    /** The driver after `SVGEN_DQ` (controller rate): flip the duties back,
        latch the compare values as truncated fractions of the half carrier
        period, and raise the interrupt event for the emulator. */
    method LatchCompareValues(cpuTick: int)
      requires Valid()
      modifies this`Ta, this`Tb, this`Tc, this`pwm
      ensures Valid()
      ensures Duty() == Duties(1.0 - old(Ta), 1.0 - old(Tb), 1.0 - old(Tc))
      ensures pwm.u.cmpa == CompareValue(old(Ta), cpuTick) as real
      ensures pwm.v.cmpa == CompareValue(old(Tb), cpuTick) as real
      ensures pwm.w.cmpa == CompareValue(old(Tc), cpuTick) as real
      ensures cpuTick >= 0 ==> && 0.0 <= pwm.u.cmpa <= cpuTick as real * 0.5
                               && 0.0 <= pwm.v.cmpa <= cpuTick as real * 0.5
                               && 0.0 <= pwm.w.cmpa <= cpuTick as real * 0.5
      ensures pwm.carrier == old(pwm.carrier).(event := true)
      ensures pwm.u == old(pwm.u).(cmpa := pwm.u.cmpa) && pwm.v == old(pwm.v).(cmpa := pwm.v.cmpa)
      ensures pwm.w == old(pwm.w).(cmpa := pwm.w.cmpa)
    {
      var ta, tb, tc := Ta, Tb, Tc;
      Ta, Tb, Tc := 1.0 - ta, 1.0 - tb, 1.0 - tc;
      var c1, c2, c3 := CompareValue(ta, cpuTick), CompareValue(tb, cpuTick), CompareValue(tc, cpuTick);
      pwm := pwm.(u := pwm.u.(cmpa := c1 as real), v := pwm.v.(cmpa := c2 as real), w := pwm.w.(cmpa := c3 as real));
      pwm := pwm.(carrier := pwm.carrier.(event := true));
    }

    /** `gate_signal_generator(ii, v, CPU_TICK_PER_SAMPLING_PERIOD,
        DEAD_TIME_AS_COUNT)`: one plant-rate tick of the emulator. */
    method GateSignalGenerator(cpuTick: int, deadTimeCount: int)
      requires Valid()
      modifies this`pwm
      ensures Valid()
      ensures pwm == GateStep(old(pwm), cpuTick, deadTimeCount)
    {
      pwm := InverterTick(pwm, cpuTick, deadTimeCount);
    }

    /** The inverter's terminal potentials and applied voltage at one plant
        step, for the present gate signals: phase currents from the
        stationary-frame current by the amplitude-invariant inverse Clarke
        transform, each terminal resolved by `TerminalPotential`, the
        line-to-line voltages, and the stationary-frame voltage applied to
        the machine. */
    ghost predicate TerminalsResolved(vdc: real, iAlfa: real, iBeta: real, uAlfa: real, uBeta: real)
      reads this
    {
      && |voltagePotentialAtTerminal| == 3
      && voltagePotentialAtTerminal[0] == TerminalPotential(pwm.u.high, pwm.u.low, iAlfa, vdc)
      && voltagePotentialAtTerminal[1] == TerminalPotential(pwm.v.high, pwm.v.low, iAlfa * -0.5 + iBeta * 0.8660254, vdc)
      && voltagePotentialAtTerminal[2] == TerminalPotential(pwm.w.high, pwm.w.low, iAlfa * -0.5 + iBeta * -0.8660254, vdc)
      && lineToLineAC == voltagePotentialAtTerminal[0] - voltagePotentialAtTerminal[2]
      && lineToLineBC == voltagePotentialAtTerminal[1] - voltagePotentialAtTerminal[2]
      && lineToLineAB == voltagePotentialAtTerminal[0] - voltagePotentialAtTerminal[1]
      && uAlfa == lineToLineAC * 0.6666667 - lineToLineBC * 0.3333333
      && uBeta == 0.577350269 * lineToLineBC
    }

    /** The voltage source inverter at one plant step: with at least 20 CPU
        ticks per sampling period the gate emulator runs and the terminals
        are resolved from its switches; otherwise the commanded voltage is
        applied as it is and the inverter's state is left alone. */
    method VoltageSourceInverter(cpuTick: int, deadTimeCount: int, vdc: real, iAlfa: real, iBeta: real,
                                 cmdAlfa: real, cmdBeta: real) returns (uAlfa: real, uBeta: real)
      requires Valid()
      modifies this`pwm, this`voltagePotentialAtTerminal, this`lineToLineAC, this`lineToLineBC, this`lineToLineAB
      ensures Valid()
      ensures cpuTick >= 20 ==> pwm == GateStep(old(pwm), cpuTick, deadTimeCount)
      ensures cpuTick >= 20 ==> TerminalsResolved(vdc, iAlfa, iBeta, uAlfa, uBeta)
      ensures cpuTick < 20 ==> uAlfa == cmdAlfa && uBeta == cmdBeta
      ensures cpuTick < 20 ==> && pwm == old(pwm) && voltagePotentialAtTerminal == old(voltagePotentialAtTerminal)
                               && lineToLineAC == old(lineToLineAC) && lineToLineBC == old(lineToLineBC)
                               && lineToLineAB == old(lineToLineAB)
    {
      if cpuTick >= 20 {
        GateSignalGenerator(cpuTick, deadTimeCount);
        uAlfa, uBeta := ResolveTerminalVoltages(vdc, iAlfa, iBeta);
      } else {
        uAlfa, uBeta := cmdAlfa, cmdBeta;
      }
    }

    /** The terminal block of the inverter for the present gate signals:
        every terminal sits at one of the two bus rails. */
    method ResolveTerminalVoltages(vdc: real, iAlfa: real, iBeta: real) returns (uAlfa: real, uBeta: real)
      requires Valid()
      modifies this`voltagePotentialAtTerminal, this`lineToLineAC, this`lineToLineBC, this`lineToLineAB
      ensures Valid()
      ensures TerminalsResolved(vdc, iAlfa, iBeta, uAlfa, uBeta)
      ensures forall i :: 0 <= i < 3 ==> voltagePotentialAtTerminal[i] == vdc || voltagePotentialAtTerminal[i] == 0.0
    {
      var ia := iAlfa;
      var ib := iAlfa * -0.5 + iBeta * 0.8660254;
      var ic := iAlfa * -0.5 + iBeta * -0.8660254;

      var va := TerminalPotential(pwm.u.high, pwm.u.low, ia, vdc);
      var vb := TerminalPotential(pwm.v.high, pwm.v.low, ib, vdc);
      var vc := TerminalPotential(pwm.w.high, pwm.w.low, ic, vdc);
      voltagePotentialAtTerminal := [va, vb, vc];

      lineToLineAC := va - vc;
      lineToLineBC := vb - vc;
      lineToLineAB := va - vb;

      uAlfa := lineToLineAC * 0.6666667 - (lineToLineBC + 0.0) * 0.3333333;
      uBeta := 0.577350269 * (lineToLineBC - 0.0);
    }
  }
}
