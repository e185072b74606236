/** The two discrete regulators of the controller: the Tustin PID with a
    clamped integrator and a band-limited derivative on the measurement, and
    the incremental (velocity-form) PI. Each is a small object whose call
    updates its memory in place; the update is specified by a pure step
    function, and the properties are proved about that function. */
module Regulators {

  /** The symmetric saturation written out in both regulators: above `limit`
      gives `limit`, below `-limit` gives `-limit`, anything else passes. */
  function Clamp(x: real, limit: real): (r: real)
    ensures limit >= 0.0 ==> -limit <= r <= limit
    ensures limit >= 0.0 ==> (r == x <==> -limit <= x <= limit)
  {
    if x > limit then limit else if x < -limit then -limit else x
  }

  // ---------------------------------------------------------------- Tustin PID

  datatype PidGains = PidGains(kp: real, ki: real, kd: real, tau: real,
                               outLimit: real, intLimit: real, t: real)

  /** What a call of the PID reads from and writes back to its memory. */
  datatype PidMemory = PidMemory(integrator: real, prevError: real,
                                 differentiator: real, prevMeasurement: real,
                                 out: real)

  /** The trapezoidal (Tustin) integrator update, before clamping. */
  function TustinIntegral(g: PidGains, m: PidMemory, error: real): real {
    m.integrator + 0.5 * g.ki * g.t * (error + m.prevError)
  }

  /** The band-limited differentiator, computed on the measurement (hence
      the minus sign). */
  function BandLimitedDerivative(g: PidGains, m: PidMemory, measurement: real): real
    requires 2.0 * g.tau + g.t != 0.0
  {
    -(2.0 * g.kd * (measurement - m.prevMeasurement) + (2.0 * g.tau - g.t) * m.differentiator)
      / (2.0 * g.tau + g.t)
  }

  /** One call of `tustin_pid`: trapezoidal integral clamped to the integrator
      limit, band-limited derivative of the measurement, output clamped to the
      output limit, error and measurement stored for the next call. */
  function TustinPidStep(g: PidGains, m: PidMemory, setpoint: real, measurement: real): (r: PidMemory)
    requires 2.0 * g.tau + g.t != 0.0
    ensures g.outLimit >= 0.0 ==> -g.outLimit <= r.out <= g.outLimit
    ensures g.intLimit >= 0.0 ==> -g.intLimit <= r.integrator <= g.intLimit
    ensures r.prevError == setpoint - measurement
    ensures r.prevMeasurement == measurement
  {
    var error := setpoint - measurement;
    var integrator := Clamp(TustinIntegral(g, m, error), g.intLimit);
    var differentiator := BandLimitedDerivative(g, m, measurement);
    PidMemory(integrator, error, differentiator, measurement,
              Clamp(g.kp * error + integrator + differentiator, g.outLimit))
  }

  /** The derivative acts on the measurement, not on the error: a step of the
      setpoint leaves the differentiator untouched (no derivative kick). */
  lemma DerivativeOnMeasurement(g: PidGains, m: PidMemory, sp1: real, sp2: real, y: real)
    requires 2.0 * g.tau + g.t != 0.0
    ensures TustinPidStep(g, m, sp1, y).differentiator == TustinPidStep(g, m, sp2, y).differentiator
  {
  }

  /** When neither clamp acts, the output is the textbook sum of the
      proportional, trapezoidal-integral and filtered-derivative terms. */
  lemma TustinPidUnsaturated(g: PidGains, m: PidMemory, setpoint: real, measurement: real)
    requires 2.0 * g.tau + g.t != 0.0 && g.outLimit >= 0.0 && g.intLimit >= 0.0
    requires -g.intLimit <= TustinIntegral(g, m, setpoint - measurement) <= g.intLimit
    ensures var r := TustinPidStep(g, m, setpoint, measurement);
            -g.outLimit <= g.kp * (setpoint - measurement) + r.integrator + r.differentiator <= g.outLimit
            ==> r.out == g.kp * (setpoint - measurement)
                         + TustinIntegral(g, m, setpoint - measurement)
                         + BandLimitedDerivative(g, m, measurement)
  {
  }

  /** The outputs of successive calls fed with `inputs`, a sequence of
      (setpoint, measurement) pairs, starting from memory `m`. */
  function PidOutputs(g: PidGains, m: PidMemory, inputs: seq<(real, real)>): (outs: seq<real>)
    requires 2.0 * g.tau + g.t != 0.0
    ensures |outs| == |inputs|
    decreases |inputs|
  {
    if inputs == [] then []
    else
      var m' := TustinPidStep(g, m, inputs[0].0, inputs[0].1);
      [m'.out] + PidOutputs(g, m', inputs[1..])
  }

  /** Whatever the setpoints and measurements (steps far beyond the limit
      included), no output of any call leaves [-outLimit, outLimit]. */
  lemma {:induction false} PidOutputsBounded(g: PidGains, m: PidMemory, inputs: seq<(real, real)>)
    requires 2.0 * g.tau + g.t != 0.0 && g.outLimit >= 0.0
    ensures forall i :: 0 <= i < |inputs| ==> -g.outLimit <= PidOutputs(g, m, inputs)[i] <= g.outLimit
    decreases |inputs|
  {
    if inputs != [] {
      var m' := TustinPidStep(g, m, inputs[0].0, inputs[0].1);
      PidOutputsBounded(g, m', inputs[1..]);
      assert PidOutputs(g, m, inputs) == [m'.out] + PidOutputs(g, m', inputs[1..]);
    }
  }

  /** The statements of `tustin_pid` on a copy of the regulator's gains and
      memory: clamp the integrator, then the output. */
  method PidCall(g: PidGains, m: PidMemory, setpoint: real, measurement: real) returns (r: PidMemory)
    requires 2.0 * g.tau + g.t != 0.0
    ensures r == TustinPidStep(g, m, setpoint, measurement)
  {
    var error := setpoint - measurement;
    var proportional := g.kp * error;
    var integ := TustinIntegral(g, m, error);
    if integ > g.intLimit {
      integ := g.intLimit;
    } else if integ < -g.intLimit {
      integ := -g.intLimit;
    }
    var diff := BandLimitedDerivative(g, m, measurement);
    var out := proportional + integ + diff;
    if out > g.outLimit {
      out := g.outLimit;
    } else if out < -g.outLimit {
      out := -g.outLimit;
    }
    r := PidMemory(integ, error, diff, measurement, out);
  }

  /** The PID object (`The_PID_Regulator`). */
  class PidRegulator {
    var Kp: real
    var Ki: real
    var Kd: real
    var tau: real
    var OutLimit: real
    var IntLimit: real
    var T: real
    var integrator: real
    var prevError: real
    var differentiator: real
    var prevMeasurement: real
    var Out: real
    var setpoint: real
    var measurement: real

    function Gains(): PidGains
      reads this
    {
      PidGains(Kp, Ki, Kd, tau, OutLimit, IntLimit, T)
    }

    function Memory(): PidMemory
      reads this
    {
      PidMemory(integrator, prevError, differentiator, prevMeasurement, Out)
    }

    /** Limits that make the bounds meaningful, and the bounds themselves. */
    ghost predicate Valid()
      reads this
    {
      && OutLimit >= 0.0 && IntLimit >= 0.0 && 2.0 * tau + T != 0.0
      && -OutLimit <= Out <= OutLimit && -IntLimit <= integrator <= IntLimit
    }

    constructor (Kp: real, Ki: real, Kd: real, tau: real, OutLimit: real, IntLimit: real, T: real)
      ensures Gains() == PidGains(Kp, Ki, Kd, tau, OutLimit, IntLimit, T)
      ensures Memory() == PidMemory(0.0, 0.0, 0.0, 0.0, 0.0)
      ensures setpoint == 0.0 && measurement == 0.0
      ensures OutLimit >= 0.0 && IntLimit >= 0.0 && 2.0 * tau + T != 0.0 ==> Valid()
    {
      this.Kp, this.Ki, this.Kd, this.tau := Kp, Ki, Kd, tau;
      this.OutLimit, this.IntLimit, this.T := OutLimit, IntLimit, T;
      integrator, prevError, differentiator, prevMeasurement := 0.0, 0.0, 0.0, 0.0;
      Out := 0.0;
      setpoint, measurement := 0.0, 0.0;
    }

    /** `tustin_pid(reg)`: one regulator call on the stored setpoint and
        measurement. The gains, limits and inputs are not changed. */
    method TustinPid() returns (out: real)
      requires 2.0 * tau + T != 0.0
      modifies this`integrator, this`prevError, this`differentiator, this`prevMeasurement, this`Out
      ensures Memory() == TustinPidStep(Gains(), old(Memory()), setpoint, measurement)
      ensures out == Out
      ensures old(Valid()) ==> Valid()
    {
      var r := PidCall(Gains(), Memory(), setpoint, measurement);
      integrator, prevError, differentiator, prevMeasurement := r.integrator, r.prevError, r.differentiator, r.prevMeasurement;
      Out := r.out;
      out := Out;
    }
  }

  // ------------------------------------------------------------ incremental PI

  /** What a call of the incremental PI reads from and writes back. */
  datatype PiMemory = PiMemory(err: real, errPrev: real, out: real, outPrev: real)

  /** The output of a call before the clamp: the previous output plus `kp`
      times the change of error plus `ki` times the error. */
  function RawOut(kp: real, ki: real, m: PiMemory, err: real): real
  {
    m.outPrev + kp * (err - m.errPrev) + ki * err
  }

  /** One call of `incremental_pi`: the new output is the previous output plus
      `kp` times the change of error plus `ki` times the error, clamped. */
  function IncrementalPiStep(kp: real, ki: real, outLimit: real, m: PiMemory,
                             setpoint: real, measurement: real): (r: PiMemory)
    ensures outLimit >= 0.0 ==> -outLimit <= r.out <= outLimit
    ensures r.err == setpoint - measurement && r.errPrev == r.err
    ensures r.outPrev == r.out
  {
    var err := setpoint - measurement;
    var out := Clamp(RawOut(kp, ki, m, err), outLimit);
    PiMemory(err, err, out, out)
  }

  /** The memory after the calls fed with `inputs`, applied in order. */
  function PiRun(kp: real, ki: real, outLimit: real, m: PiMemory, inputs: seq<(real, real)>): PiMemory
  {
    if inputs == [] then m
    else
      var p := PiRun(kp, ki, outLimit, m, inputs[..|inputs| - 1]);
      var x := inputs[|inputs| - 1];
      IncrementalPiStep(kp, ki, outLimit, p, x.0, x.1)
  }

  /** Sum of the errors of all calls. */
  function ErrorSum(inputs: seq<(real, real)>): real
  {
    if inputs == [] then 0.0
    else ErrorSum(inputs[..|inputs| - 1]) + (inputs[|inputs| - 1].0 - inputs[|inputs| - 1].1)
  }

  /** True when no call of the run hits the output clamp. */
  predicate NeverSaturates(kp: real, ki: real, outLimit: real, m: PiMemory, inputs: seq<(real, real)>)
  {
    if inputs == [] then true
    else
      var p := PiRun(kp, ki, outLimit, m, inputs[..|inputs| - 1]);
      var x := inputs[|inputs| - 1];
      var err := x.0 - x.1;
      && NeverSaturates(kp, ki, outLimit, m, inputs[..|inputs| - 1])
      && -outLimit <= RawOut(kp, ki, p, err) <= outLimit
  }

  /** The positional PI law: the output reached from memory `m0` once the
      error has become `e` and the errors of all calls sum to `sum`. */
  function PositionalOut(m0: PiMemory, kp: real, ki: real, e: real, sum: real): real
  {
    m0.outPrev + kp * (e - m0.errPrev) + ki * sum
  }

  /** One more unclamped call keeps the positional form. */
  lemma PositionalStep(m0: PiMemory, p: PiMemory, kp: real, ki: real, sum: real, err: real)
    requires p.outPrev == PositionalOut(m0, kp, ki, p.errPrev, sum)
    ensures RawOut(kp, ki, p, err) == PositionalOut(m0, kp, ki, err, sum + err)
  {
    assert kp * (p.errPrev - m0.errPrev) + kp * (err - p.errPrev) == kp * (err - m0.errPrev);
    assert ki * sum + ki * err == ki * (sum + err);
  }

  /** The incremental form is the positional PI in disguise: as long as the
      clamp never acts, the output equals the starting output plus `kp` times
      the change of error plus `ki` times the sum of all errors. */
  lemma {:induction false} IncrementalPiIsPositional(kp: real, ki: real, outLimit: real,
                                                      m: PiMemory, inputs: seq<(real, real)>)
    requires outLimit >= 0.0
    requires NeverSaturates(kp, ki, outLimit, m, inputs)
    ensures var r := PiRun(kp, ki, outLimit, m, inputs);
            r.outPrev == PositionalOut(m, kp, ki, r.errPrev, ErrorSum(inputs))
  {
    if inputs != [] {
      var init := inputs[..|inputs| - 1];
      var x := inputs[|inputs| - 1];
      var p := PiRun(kp, ki, outLimit, m, init);
      var err := x.0 - x.1;
      IncrementalPiIsPositional(kp, ki, outLimit, m, init);
      UnclampedPiStep(kp, ki, outLimit, p, x.0, x.1);
      PositionalStep(m, p, kp, ki, ErrorSum(init), err);
    }
  }

  /** A call whose raw output is inside the limit is not clamped. */
  lemma UnclampedPiStep(kp: real, ki: real, outLimit: real, p: PiMemory, setpoint: real, measurement: real)
    requires outLimit >= 0.0
    requires -outLimit <= RawOut(kp, ki, p, setpoint - measurement) <= outLimit
    ensures var r := IncrementalPiStep(kp, ki, outLimit, p, setpoint, measurement);
            r.errPrev == setpoint - measurement && r.outPrev == RawOut(kp, ki, p, setpoint - measurement)
  {
  }

  /** The statements of `incremental_pi` on a copy of the regulator's memory. */
  method PiCall(kp: real, ki: real, outLimit: real, m: PiMemory, setpoint: real, measurement: real)
    returns (r: PiMemory)
    ensures r == IncrementalPiStep(kp, ki, outLimit, m, setpoint, measurement)
  {
    var err := setpoint - measurement;
    var out := RawOut(kp, ki, m, err);
    if out > outLimit {
      out := outLimit;
    } else if out < -outLimit {
      out := -outLimit;
    }
    r := PiMemory(err, err, out, out);
  }

  /** The PI object (`The_PI_Regulator`). */
  class PiRegulator {
    var Kp: real
    var Ki: real
    var Err: real
    var setpoint: real
    var measurement: real
    var Out: real
    var OutLimit: real
    var ErrPrev: real
    var OutPrev: real

    function Memory(): PiMemory
      reads this
    {
      PiMemory(Err, ErrPrev, Out, OutPrev)
    }

    constructor (KpCode: real, KiCode: real, OutputLimit: real)
      ensures Kp == KpCode && Ki == KiCode && OutLimit == OutputLimit
      ensures Memory() == PiMemory(0.0, 0.0, 0.0, 0.0)
      ensures setpoint == 0.0 && measurement == 0.0
    {
      Kp, Ki, OutLimit := KpCode, KiCode, OutputLimit;
      Err, ErrPrev, Out, OutPrev := 0.0, 0.0, 0.0, 0.0;
      setpoint, measurement := 0.0, 0.0;
    }

    /** `incremental_pi(reg)`: one call on the stored setpoint and measurement. */
    method IncrementalPi()
      modifies this`Err, this`Out, this`ErrPrev, this`OutPrev
      ensures Memory() == IncrementalPiStep(Kp, Ki, OutLimit, old(Memory()), setpoint, measurement)
      ensures OutLimit >= 0.0 ==> -OutLimit <= Out <= OutLimit
      ensures OutPrev == Out && ErrPrev == Err
    {
      var r := PiCall(Kp, Ki, OutLimit, Memory(), setpoint, measurement);
      Err, Out := r.err, r.out;
      ErrPrev, OutPrev := r.errPrev, r.outPrev;
    }
  }
}
