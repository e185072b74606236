/** The bookkeeping of the saturation-time based flux estimator in the
    sensorless branch of the controller: the per-axis clamp of the rotor flux
    with its high/low saturation timers, the sign-run counters, the two-level
    zero-crossing debounce per axis and direction with its half-cycle resets,
    and the `u_offset` bias integrator fed by the saturation-time difference.
    The numerical flux integration that produces the stator flux is not part
    of this model: its result arrives as the first two entries of `xFlux`. */
module Flux {

  /** A value numpy may leave infinite or not-a-number: a float64 division by
      zero does not raise, and a non-finite value absorbs later sums. */
  datatype Num = Finite(v: real) | NonFinite

  function Quotient(n: real, d: real): (r: Num)
    ensures r.NonFinite? <==> d == 0.0
    ensures r.Finite? ==> r.v * d == n
  {
    if d == 0.0 then NonFinite else Finite(n / d)
  }

  /** `acc += enabled * inc`: a boolean times a non-finite value is still
      not finite, so the gate does not shield the sum from it. */
  function Accumulate(acc: Num, enabled: bool, inc: Num): (r: Num)
    ensures r.Finite? <==> acc.Finite? && inc.Finite?
    ensures r.Finite? && !enabled ==> r == acc
    ensures acc.Finite? && inc.Finite? && enabled ==> r == Finite(acc.v + inc.v)
  {
    if acc.NonFinite? || inc.NonFinite? then NonFinite
    else Finite(acc.v + (if enabled then inc.v else 0.0))
  }

  /** Rotor flux from stator flux, and back: psi_2 = psi_1 - Lq*i. */
  function RotorFlux(psi1: real, Lq: real, i: real): real { psi1 - Lq * i }
  function StatorFlux(psi2: real, Lq: real, i: real): real { psi2 + Lq * i }

  lemma FluxRoundTrip(psi1: real, Lq: real, i: real)
    ensures StatorFlux(RotorFlux(psi1, Lq, i), Lq, i) == psi1
  {
  }

  /** `k` control periods of length `ts`, in seconds. */
  function Seconds(k: nat, ts: real): real { k as real * ts }

  /** One integration step of the bias integrator. */
  function OffsetIncrement(gain: real, ts: real, input: real): real { gain * ts * input }

  /** The saturation timers of one axis, their running maxima, and the
      correction (high-side minus low-side saturation time). */
  datatype Saturation = Saturation(satMax: real, satMin: real,
                                   maxOfSatMax: real, maxOfSatMin: real,
                                   correction: real)

  /** The length of the current positive/negative run of samples, and the
      length of the last finished run of each sign. */
  datatype SignRun = SignRun(positive: nat, negative: nat,
                             positiveInCount: nat, negativeInCount: nat)

  /** One zero-crossing detector: armed (LevelA), confirmed (LevelB), the time
      the crossing was seen and the time of the previous confirmed crossing. */
  datatype Detector = Detector(levelA: bool, levelB: bool, time: real, timePrev: real)

  /** Flux extremes over the current half cycles. */
  datatype Extremes = Extremes(psi1Max: real, psi2Max: real, psi1Min: real, psi2Min: real)

  /** The per-half-cycle offset estimates the estimator keeps for inspection. */
  datatype Estimates = Estimates(lpfInput: Num, increment: Num, directCalculated: Num,
                                 sign: real, satTimeOffset: real)

  /** Everything the estimator keeps per axis (alpha, beta). */
  datatype Axis = Axis(psi1: real, psi2: real, psi2Prev: real, uOffset: real,
                       sat: Saturation, run: SignRun,
                       pos2neg: Detector, neg2pos: Detector,
                       ext: Extremes, est: Estimates)

  /** Counters shared by both axes: confirmed negative and positive half
      cycles, and the last two half-cycle durations. */
  datatype Cycles = Cycles(negative: nat, positive: nat, deltaT: real, deltaTLast: real)

  function InitialAxis(): Axis
  {
    Axis(0.0, 0.0, 0.0, 0.0,
         Saturation(0.0, 0.0, 0.0, 0.0, 0.0), SignRun(0, 0, 0, 0),
         Detector(false, false, 0.0, 0.0), Detector(false, false, 0.0, 0.0),
         Extremes(0.0, 0.0, 0.0, 0.0),
         Estimates(Finite(0.0), Finite(0.0), Finite(0.0), 0.0, 0.0))
  }

  // ---------------------------------------------------------------------
  // Saturation clamp and timers

  /** Clamp the rotor flux into [-limit, limit] while the speed command is
      nonzero; a clamped sample adds one period to the matching timer, an
      unclamped one takes a period off each positive timer. The correction
      and the running maxima are updated whether or not the clamp is active. */
  function SaturateAxis(a: Axis, limit: real, ts: real, active: bool): (r: Axis)
    ensures active && limit >= 0.0 ==> -limit <= r.psi2 <= limit
    ensures -limit <= a.psi2 <= limit || !active ==> r.psi2 == a.psi2
    ensures !active ==> r.sat.satMax == a.sat.satMax && r.sat.satMin == a.sat.satMin
    ensures r.sat.correction == r.sat.satMax - r.sat.satMin
    ensures active && a.psi2 > limit ==>
              r.psi2 == limit && r.sat.satMax == a.sat.satMax + ts && r.sat.satMin == a.sat.satMin
    ensures active && !(a.psi2 > limit) && a.psi2 < -limit ==>
              r.psi2 == -limit && r.sat.satMin == a.sat.satMin + ts && r.sat.satMax == a.sat.satMax
    ensures active && !(a.psi2 > limit) && !(a.psi2 < -limit) ==>
              && r.sat.satMax == (if a.sat.satMax > 0.0 then a.sat.satMax - ts else a.sat.satMax)
              && r.sat.satMin == (if a.sat.satMin > 0.0 then a.sat.satMin - ts else a.sat.satMin)
    ensures r.sat.maxOfSatMax == if r.sat.satMax > a.sat.maxOfSatMax then r.sat.satMax else a.sat.maxOfSatMax
    ensures r.sat.maxOfSatMin == if r.sat.satMin > a.sat.maxOfSatMin then r.sat.satMin else a.sat.maxOfSatMin
    ensures r == a.(psi2 := r.psi2, sat := r.sat)
  {
    var s := a.sat;
    var high := active && a.psi2 > limit;
    var low := active && !high && a.psi2 < -limit;
    var inBand := active && !high && !low;
    var satMax := if high then s.satMax + ts else if inBand && s.satMax > 0.0 then s.satMax - ts else s.satMax;
    var satMin := if low then s.satMin + ts else if inBand && s.satMin > 0.0 then s.satMin - ts else s.satMin;
    a.(psi2 := if high then limit else if low then -limit else a.psi2,
       sat := Saturation(satMax, satMin,
                         if satMax > s.maxOfSatMax then satMax else s.maxOfSatMax,
                         if satMin > s.maxOfSatMin then satMin else s.maxOfSatMin,
                         satMax - satMin))
  }

  /** A time that is a whole number of control periods. */
  ghost predicate OnGrid(t: real, ts: real)
  {
    exists k: nat :: t == Seconds(k, ts)
  }

  lemma OnGridNonNegative(t: real, ts: real)
    requires ts > 0.0 && OnGrid(t, ts)
    ensures t >= 0.0
  {
    var k: nat :| t == Seconds(k, ts);
  }

  /** Growing, keeping, shrinking-if-positive or zeroing a timer on the grid
      leaves it on the grid; counted in periods it therefore never goes
      below zero, which a real-valued timer alone would not guarantee. */
  lemma {:induction false} TimerStaysOnGrid(t: real, t': real, ts: real)
    requires ts > 0.0 && OnGrid(t, ts)
    requires t' == t + ts || t' == t || (t > 0.0 && t' == t - ts) || t' == 0.0
    ensures OnGrid(t', ts) && t' >= 0.0
  {
    var k: nat :| t == Seconds(k, ts);
    if t' == t + ts {
      assert t' == Seconds(k + 1, ts);
    } else if t' == t {
      assert t' == Seconds(k, ts);
    } else if t' == 0.0 {
      assert t' == Seconds(0, ts);
    } else {
      if k == 0 {
        assert false;
      }
      assert t' == Seconds(k - 1, ts);
    }
    OnGridNonNegative(t', ts);
  }

  ghost predicate TimersOnGrid(a: Axis, ts: real)
  {
    OnGrid(a.sat.satMax, ts) && OnGrid(a.sat.satMin, ts)
  }

  lemma SaturationKeepsGrid(a: Axis, limit: real, ts: real, active: bool)
    requires ts > 0.0 && TimersOnGrid(a, ts)
    ensures TimersOnGrid(SaturateAxis(a, limit, ts, active), ts)
    ensures SaturateAxis(a, limit, ts, active).sat.satMax >= 0.0
    ensures SaturateAxis(a, limit, ts, active).sat.satMin >= 0.0
  {
    var r := SaturateAxis(a, limit, ts, active);
    TimerStaysOnGrid(a.sat.satMax, r.sat.satMax, ts);
    TimerStaysOnGrid(a.sat.satMin, r.sat.satMin, ts);
  }

  // ---------------------------------------------------------------------
  // Sign-run counters

  ghost predicate RunExclusive(run: SignRun)
  {
    run.positive == 0 || run.negative == 0
  }

  /** Count one sample into the current run; a sample of the other sign
      records the finished run's length and restarts its counter. A zero
      sample counts nowhere. */
  function CountSign(run: SignRun, psi2: real): (r: SignRun)
    ensures psi2 > 0.0 ==> r.positive == run.positive + 1 && r.negative == 0
    ensures psi2 < 0.0 ==> r.negative == run.negative + 1 && r.positive == 0
    ensures psi2 == 0.0 ==> r == run
    ensures psi2 > 0.0 ==> r.negativeInCount == (if run.negative != 0 then run.negative else run.negativeInCount)
    ensures psi2 < 0.0 ==> r.positiveInCount == (if run.positive != 0 then run.positive else run.positiveInCount)
    ensures psi2 > 0.0 ==> r.positiveInCount == run.positiveInCount
    ensures psi2 < 0.0 ==> r.negativeInCount == run.negativeInCount
    ensures RunExclusive(run) ==> RunExclusive(r)
  {
    if psi2 > 0.0 then
      if run.negative != 0 then SignRun(run.positive + 1, 0, run.positiveInCount, run.negative)
      else run.(positive := run.positive + 1)
    else if psi2 < 0.0 then
      if run.positive != 0 then SignRun(0, run.negative + 1, run.positive, run.negativeInCount)
      else run.(negative := run.negative + 1)
    else run
  }

  // ---------------------------------------------------------------------
  // Zero-crossing debounce and half-cycle resets

  /** The positive-to-negative detector confirms for the first time. */
  predicate Pos2NegConfirms(a: Axis)
  {
    a.pos2neg.levelA && !a.pos2neg.levelB && a.psi2Prev < 0.0 && a.psi2 < 0.0
  }

  /** The negative-to-positive detector confirms for the first time. */
  predicate Neg2PosConfirms(a: Axis)
  {
    a.neg2pos.levelA && !a.neg2pos.levelB && a.psi2Prev > 0.0 && a.psi2 > 0.0
  }

  /** The work done once when a negative half cycle is confirmed. */
  function NegativeHalfCycle(a: Axis, c: Cycles): (r: (Axis, Cycles))
    ensures r.1.negative == c.negative + 1 && r.1.positive == c.positive
    ensures r.1.deltaT == a.pos2neg.time - a.pos2neg.timePrev && r.1.deltaTLast == c.deltaT
    ensures r.0.pos2neg.timePrev == a.pos2neg.time
    ensures !r.0.neg2pos.levelA && !r.0.neg2pos.levelB
    ensures r.0.sat.satMin == 0.0 && r.0.sat.correction == a.sat.satMax - a.sat.satMin
    ensures r.0.est.sign == -1.0
    ensures r.0.ext == Extremes(a.ext.psi2Max, a.ext.psi2Max, 0.0, 0.0)
    ensures var halfSum := 0.5 * (a.ext.psi2Min + a.ext.psi2Max);
            var period := r.1.deltaT + r.1.deltaTLast;
            && r.0.est.lpfInput == Quotient(halfSum, period)
            && r.0.est.increment == Quotient(halfSum, period - (a.sat.satMax + a.sat.satMin))
            && r.0.est.directCalculated ==
                 Accumulate(a.est.directCalculated, r.1.negative + r.1.positive > 4, r.0.est.increment)
            && r.0.est.satTimeOffset == a.sat.maxOfSatMax - a.sat.maxOfSatMin
  {
    var c1 := Cycles(c.negative + 1, c.positive, a.pos2neg.time - a.pos2neg.timePrev, c.deltaT);
    var halfSum := 0.5 * (a.ext.psi2Min + a.ext.psi2Max);
    var period := c1.deltaT + c1.deltaTLast;
    var inc := Quotient(halfSum, period - (a.sat.satMax + a.sat.satMin));
    (a.(pos2neg := a.pos2neg.(timePrev := a.pos2neg.time),
        neg2pos := a.neg2pos.(levelA := false, levelB := false),
        ext := Extremes(a.ext.psi2Max, a.ext.psi2Max, 0.0, 0.0),
        est := Estimates(Quotient(halfSum, period), inc,
                         Accumulate(a.est.directCalculated, c1.negative + c1.positive > 4, inc),
                         -1.0, a.sat.maxOfSatMax - a.sat.maxOfSatMin),
        sat := Saturation(a.sat.satMax, 0.0, 0.0, 0.0, a.sat.satMax - a.sat.satMin)),
     c1)
  }

  /** The work done once when a positive half cycle is confirmed. Unlike its
      mirror it neither records the saturation-time offset nor resets the
      saturation-time maxima. */
  function PositiveHalfCycle(a: Axis, c: Cycles): (r: (Axis, Cycles))
    ensures r.1.positive == c.positive + 1 && r.1.negative == c.negative
    ensures r.1.deltaT == a.neg2pos.time - a.neg2pos.timePrev && r.1.deltaTLast == c.deltaT
    ensures r.0.neg2pos.timePrev == a.neg2pos.time
    ensures !r.0.pos2neg.levelA && !r.0.pos2neg.levelB
    ensures r.0.sat.satMax == 0.0 && r.0.sat.correction == a.sat.satMax - a.sat.satMin
    ensures r.0.est.sign == 1.0
    ensures r.0.ext == Extremes(0.0, 0.0, a.ext.psi2Min, a.ext.psi2Min)
    ensures var halfSum := 0.5 * (a.ext.psi2Min + a.ext.psi2Max);
            var period := r.1.deltaT + r.1.deltaTLast;
            && r.0.est.lpfInput == Quotient(halfSum, period)
            && r.0.est.increment == Quotient(halfSum, period - (a.sat.satMax + a.sat.satMin))
            && r.0.est.directCalculated ==
                 Accumulate(a.est.directCalculated, r.1.negative + r.1.positive > 4, r.0.est.increment)
            && r.0.est.satTimeOffset == a.est.satTimeOffset
  {
    var c1 := Cycles(c.negative, c.positive + 1, a.neg2pos.time - a.neg2pos.timePrev, c.deltaT);
    var halfSum := 0.5 * (a.ext.psi2Min + a.ext.psi2Max);
    var period := c1.deltaT + c1.deltaTLast;
    var inc := Quotient(halfSum, period - (a.sat.satMax + a.sat.satMin));
    (a.(neg2pos := a.neg2pos.(timePrev := a.neg2pos.time),
        pos2neg := a.pos2neg.(levelA := false, levelB := false),
        ext := Extremes(0.0, 0.0, a.ext.psi2Min, a.ext.psi2Min),
        est := a.est.(lpfInput := Quotient(halfSum, period), increment := inc,
                      directCalculated := Accumulate(a.est.directCalculated, c1.negative + c1.positive > 4, inc),
                      sign := 1.0),
        sat := a.sat.(satMax := 0.0, correction := a.sat.satMax - a.sat.satMin)),
     c1)
  }

  /** The positive-to-negative detector for one sample: an armed detector
      confirms when the previous and current samples are both negative (doing
      the half-cycle work only on the first confirmation, then tracking the
      minimum) and disarms otherwise; a sign change from positive to negative
      arms it and records the time. */
  function Pos2Neg(a: Axis, c: Cycles, timebase: real): (r: (Axis, Cycles))
    ensures r.1.negative == c.negative + (if Pos2NegConfirms(a) then 1 else 0) && r.1.positive == c.positive
    ensures r.0.pos2neg.levelA <==>
              (a.psi2Prev > 0.0 && a.psi2 < 0.0) || (a.pos2neg.levelA && a.psi2Prev < 0.0 && a.psi2 < 0.0)
  {
    var confirmed := a.pos2neg.levelA && a.psi2Prev < 0.0 && a.psi2 < 0.0;
    var b :=
      if confirmed then
        var h := if a.pos2neg.levelB then (a, c) else NegativeHalfCycle(a, c);
        (h.0.(pos2neg := h.0.pos2neg.(levelB := true),
              ext := h.0.ext.(psi2Min := if a.psi2 < h.0.ext.psi2Min then a.psi2 else h.0.ext.psi2Min)),
         h.1)
      else if a.pos2neg.levelA then (a.(pos2neg := a.pos2neg.(levelA := false)), c)
      else (a, c);
    if a.psi2Prev > 0.0 && a.psi2 < 0.0 then
      (b.0.(pos2neg := b.0.pos2neg.(levelA := true, time := timebase)), b.1)
    else b
  }

  /** The mirror detector, negative to positive, tracking the maximum. */
  function Neg2Pos(a: Axis, c: Cycles, timebase: real): (r: (Axis, Cycles))
    ensures r.1.positive == c.positive + (if Neg2PosConfirms(a) then 1 else 0) && r.1.negative == c.negative
    ensures r.0.neg2pos.levelA <==>
              (a.psi2Prev < 0.0 && a.psi2 > 0.0) || (a.neg2pos.levelA && a.psi2Prev > 0.0 && a.psi2 > 0.0)
  {
    var confirmed := a.neg2pos.levelA && a.psi2Prev > 0.0 && a.psi2 > 0.0;
    var b :=
      if confirmed then
        var h := if a.neg2pos.levelB then (a, c) else PositiveHalfCycle(a, c);
        (h.0.(neg2pos := h.0.neg2pos.(levelB := true),
              ext := h.0.ext.(psi2Max := if a.psi2 > h.0.ext.psi2Max then a.psi2 else h.0.ext.psi2Max)),
         h.1)
      else if a.neg2pos.levelA then (a.(neg2pos := a.neg2pos.(levelA := false)), c)
      else (a, c);
    if a.psi2Prev < 0.0 && a.psi2 > 0.0 then
      (b.0.(neg2pos := b.0.neg2pos.(levelA := true, time := timebase)), b.1)
    else b
  }

  /** Both detectors of one axis, positive-to-negative first. */
  function CrossAxis(a: Axis, c: Cycles, timebase: real): (r: (Axis, Cycles))
    ensures r.0.psi1 == a.psi1 && r.0.psi2 == a.psi2 && r.0.psi2Prev == a.psi2Prev
    ensures r.0.uOffset == a.uOffset && r.0.run == a.run
  {
    var p := Pos2Neg(a, c, timebase);
    Neg2Pos(p.0, p.1, timebase)
  }

  /** The debounce rules of one axis: arming on a sign change, staying armed
      only while confirmed, counting a half cycle only on the first
      confirmation, which also clears the other direction's flags, zeroes the
      matching saturation timer and moves the reference time. */
  lemma DebounceRules(a: Axis, c: Cycles, timebase: real)
    ensures var r := CrossAxis(a, c, timebase);
      && (r.0.pos2neg.levelA <==>
            ((a.psi2Prev > 0.0 && a.psi2 < 0.0) || (a.pos2neg.levelA && a.psi2Prev < 0.0 && a.psi2 < 0.0)))
      && (r.0.neg2pos.levelA <==>
            ((a.psi2Prev < 0.0 && a.psi2 > 0.0) || (a.neg2pos.levelA && a.psi2Prev > 0.0 && a.psi2 > 0.0)))
      && r.0.pos2neg.time == (if a.psi2Prev > 0.0 && a.psi2 < 0.0 then timebase else a.pos2neg.time)
      && r.0.neg2pos.time == (if a.psi2Prev < 0.0 && a.psi2 > 0.0 then timebase else a.neg2pos.time)
      && r.1.negative == c.negative + (if Pos2NegConfirms(a) then 1 else 0)
      && r.1.positive == c.positive + (if Neg2PosConfirms(a) then 1 else 0)
      && (Pos2NegConfirms(a) ==>
            && !r.0.neg2pos.levelA && !r.0.neg2pos.levelB && r.0.pos2neg.levelB
            && r.0.sat.satMin == 0.0 && r.0.sat.satMax == a.sat.satMax
            && r.0.pos2neg.timePrev == a.pos2neg.time
            && r.0.sat.maxOfSatMax == 0.0 && r.0.sat.maxOfSatMin == 0.0
            && r.0.est.satTimeOffset == a.sat.maxOfSatMax - a.sat.maxOfSatMin
            && r.0.est.sign == -1.0)
      && (Neg2PosConfirms(a) ==>
            && !r.0.pos2neg.levelA && !r.0.pos2neg.levelB && r.0.neg2pos.levelB
            && r.0.sat.satMax == 0.0 && r.0.sat.satMin == a.sat.satMin
            && r.0.neg2pos.timePrev == a.neg2pos.time
            && r.0.sat.maxOfSatMax == a.sat.maxOfSatMax && r.0.sat.maxOfSatMin == a.sat.maxOfSatMin
            && r.0.est.satTimeOffset == a.est.satTimeOffset
            && r.0.est.sign == 1.0)
      && (!Pos2NegConfirms(a) && !Neg2PosConfirms(a) ==>
            r.0.sat == a.sat && r.1 == c
            && r.0.pos2neg.timePrev == a.pos2neg.timePrev && r.0.neg2pos.timePrev == a.neg2pos.timePrev)
  {
    var p := Pos2Neg(a, c, timebase);
    if Pos2NegConfirms(a) {
      assert p.0.neg2pos.levelA == false;
    } else {
      assert p.0.sat == a.sat && p.1 == c && p.0.neg2pos == a.neg2pos;
    }
  }

  /** An armed detector has seen the sign it is waiting to confirm, so the
      two directions are never armed together. */
  lemma ArmedMatchesSign(a: Axis, c: Cycles, timebase: real)
    ensures var r := CrossAxis(a, c, timebase);
      && (r.0.pos2neg.levelA ==> r.0.psi2 < 0.0)
      && (r.0.neg2pos.levelA ==> r.0.psi2 > 0.0)
  {
    DebounceRules(a, c, timebase);
  }

  /** At most one direction holds a confirmed half cycle. */
  ghost predicate OneHalfCycle(a: Axis)
  {
    !(a.pos2neg.levelB && a.neg2pos.levelB)
  }

  lemma CrossingKeepsOneHalfCycle(a: Axis, c: Cycles, timebase: real)
    requires OneHalfCycle(a)
    ensures OneHalfCycle(CrossAxis(a, c, timebase).0)
  {
    var p := Pos2Neg(a, c, timebase);
    if a.pos2neg.levelA && a.psi2Prev < 0.0 && a.psi2 < 0.0 {
      assert !p.0.neg2pos.levelB;
    } else {
      assert p.0.pos2neg.levelB == a.pos2neg.levelB && p.0.neg2pos == a.neg2pos;
    }
  }

  /** The crossing work recomputes the correction from the same timers before
      zeroing one of them, so the value measured right after the clamp is
      the one the bias integrator receives. */
  lemma CrossingKeepsCorrection(a: Axis, c: Cycles, timebase: real)
    requires a.sat.correction == a.sat.satMax - a.sat.satMin
    ensures CrossAxis(a, c, timebase).0.sat.correction == a.sat.correction
  {
    DebounceRules(a, c, timebase);
  }

  /** The crossing work only keeps or zeroes a saturation timer. */
  lemma CrossingKeepsGrid(a: Axis, c: Cycles, timebase: real, ts: real)
    requires ts > 0.0 && TimersOnGrid(a, ts)
    ensures TimersOnGrid(CrossAxis(a, c, timebase).0, ts)
  {
    var r := CrossAxis(a, c, timebase).0;
    DebounceRules(a, c, timebase);
    TimerStaysOnGrid(a.sat.satMax, r.sat.satMax, ts);
    TimerStaysOnGrid(a.sat.satMin, r.sat.satMin, ts);
  }

  /** The first `n` axes after the crossing loop, in axis order, with the
      shared counters threaded through. */
  function CrossPrefix(axes: seq<Axis>, c: Cycles, timebase: real, n: nat): (r: (seq<Axis>, Cycles))
    requires n <= |axes|
    ensures |r.0| == |axes|
    ensures forall k :: n <= k < |axes| ==> r.0[k] == axes[k]
    decreases n
  {
    if n == 0 then (axes, c)
    else
      var p := CrossPrefix(axes, c, timebase, n - 1);
      var q := CrossAxis(axes[n - 1], p.1, timebase);
      (p.0[n - 1 := q.0], q.1)
  }

  lemma CrossTwo(axes: seq<Axis>, c: Cycles, timebase: real)
    requires |axes| == 2
    ensures var q0 := CrossAxis(axes[0], c, timebase);
            var q1 := CrossAxis(axes[1], q0.1, timebase);
            CrossPrefix(axes, c, timebase, 2) == ([q0.0, q1.0], q1.1)
  {
    var q0 := CrossAxis(axes[0], c, timebase);
    var q1 := CrossAxis(axes[1], q0.1, timebase);
    var p1 := CrossPrefix(axes, c, timebase, 1);
    assert CrossPrefix(axes, c, timebase, 0) == (axes, c);
    assert p1 == (axes[0 := q0.0], q0.1);
    assert p1.0[1 := q1.0] == [q0.0, q1.0];
  }

  // ---------------------------------------------------------------------
  // One call of the estimator block

  /** The estimator's state: the integrator state vector (stator flux in
      entries 0-1, bias voltages in 2-3), the per-axis records, the shared
      half-cycle counters, the clamp level, and the bias-integrator gain. */
  datatype EstimatorState = EstimatorState(xFlux: seq<real>, axes: seq<Axis>, cycles: Cycles,
                                           psiAsterMax: real, extraLimit: real, gainOff: real,
                                           gainOffsetInit: real, gainOffsetRealtime: real)

  ghost predicate Shaped(e: EstimatorState)
  {
    |e.xFlux| == 6 && |e.axes| == 2
  }

  function InitialState(): (r: EstimatorState)
    ensures Shaped(r)
  {
    EstimatorState([0.0, 0.0, 0.0, 0.0, 0.0, 0.0], [InitialAxis(), InitialAxis()],
                   Cycles(0, 0, 1.0, 0.0), 0.9, 0.0, 10.0, 10.0, 0.0)
  }

  /** The realtime gain: inversely proportional to the measured flux period. */
  function RealtimeGain(realtime: real, init: real, samples: nat, ts: real): (r: real)
    requires samples > 0 && ts > 0.0
    ensures r * (samples as real * ts) == realtime * init
  {
    realtime * init / (samples as real * ts)
  }

  /** The lengths of the last finished sign runs of both axes. */
  function InCountSum(axes: seq<Axis>): nat
    requires |axes| == 2
  {
    axes[0].run.negativeInCount + axes[0].run.positiveInCount
    + axes[1].run.negativeInCount + axes[1].run.positiveInCount
  }

  /** The bias-integrator gain: the initial gain unless a realtime factor is
      set, in which case it follows the measured period and keeps its old
      value while no run has finished yet. */
  function GainOff(realtime: real, init: real, axes: seq<Axis>, ts: real, prev: real): (r: real)
    requires |axes| == 2 && ts > 0.0
    ensures realtime == 0.0 ==> r == init
    ensures realtime != 0.0 && InCountSum(axes) == 0 ==> r == prev
    ensures realtime != 0.0 && InCountSum(axes) > 0 ==> r == RealtimeGain(realtime, init, InCountSum(axes), ts)
  {
    if realtime != 0.0 then
      if InCountSum(axes) > 0 then RealtimeGain(realtime, init, InCountSum(axes), ts) else prev
    else init
  }

  /** One axis up to the crossing loop: rotor flux from the integrated
      stator flux, the clamp, the sign run, and the stator flux rebuilt from
      the clamped rotor flux. */
  function Measured(a: Axis, x: real, i: real, Lq: real, limit: real, ts: real, active: bool): (r: Axis)
    ensures r.psi2 == SaturateAxis(a.(psi2 := RotorFlux(x, Lq, i)), limit, ts, active).psi2
    ensures r.psi1 == StatorFlux(r.psi2, Lq, i)
    ensures r.sat == SaturateAxis(a.(psi2 := RotorFlux(x, Lq, i)), limit, ts, active).sat
    ensures r.run == CountSign(a.run, r.psi2)
  {
    var s := SaturateAxis(a.(psi1 := x, psi2 := RotorFlux(x, Lq, i)), limit, ts, active);
    var n := s.(run := CountSign(s.run, s.psi2));
    n.(psi1 := StatorFlux(n.psi2, Lq, i))
  }

  /** The bias integrator and the memory of this call's rotor flux. */
  function Integrated(a: Axis, gain: real, ts: real): Axis
  {
    a.(uOffset := a.uOffset + OffsetIncrement(gain, ts, a.sat.correction), psi2Prev := a.psi2)
  }

  function MeasuredAxes(e: EstimatorState, iab: seq<real>, Lq: real, cmdRpm: real, cmdPsi: real, ts: real): (r: seq<Axis>)
    requires Shaped(e) && |iab| == 2
    ensures |r| == 2
  {
    var limit := cmdPsi + e.extraLimit;
    [Measured(e.axes[0], e.xFlux[0], iab[0], Lq, limit, ts, cmdRpm != 0.0),
     Measured(e.axes[1], e.xFlux[1], iab[1], Lq, limit, ts, cmdRpm != 0.0)]
  }

  /** The whole block for one control period. */
  function Step(e: EstimatorState, iab: seq<real>, Lq: real, cmdRpm: real, cmdPsi: real,
                timebase: real, ts: real): (r: EstimatorState)
    requires Shaped(e) && |iab| == 2 && ts > 0.0
    ensures Shaped(r)
  {
    var m := MeasuredAxes(e, iab, Lq, cmdRpm, cmdPsi, ts);
    var x := CrossPrefix(m, e.cycles, timebase, 2);
    var gain := GainOff(e.gainOffsetRealtime, e.gainOffsetInit, x.0, ts, e.gainOff);
    var post := [Integrated(x.0[0], gain, ts), Integrated(x.0[1], gain, ts)];
    e.(xFlux := e.xFlux[0 := post[0].psi1][1 := post[1].psi1][2 := post[0].uOffset][3 := post[1].uOffset],
       axes := post, cycles := x.1, psiAsterMax := cmdPsi + e.extraLimit, gainOff := gain)
  }

  /** `Step` spelled out through the crossing results of the two axes. */
  lemma StepUnfolds(e: EstimatorState, iab: seq<real>, Lq: real, cmdRpm: real, cmdPsi: real,
                    timebase: real, ts: real)
    requires Shaped(e) && |iab| == 2 && ts > 0.0
    ensures var m := MeasuredAxes(e, iab, Lq, cmdRpm, cmdPsi, ts);
            var q0 := CrossAxis(m[0], e.cycles, timebase);
            var q1 := CrossAxis(m[1], q0.1, timebase);
            var gain := GainOff(e.gainOffsetRealtime, e.gainOffsetInit, [q0.0, q1.0], ts, e.gainOff);
            var r := Step(e, iab, Lq, cmdRpm, cmdPsi, timebase, ts);
            && r.gainOff == gain && r.cycles == q1.1 && r.psiAsterMax == cmdPsi + e.extraLimit
            && r.axes == [Integrated(q0.0, gain, ts), Integrated(q1.0, gain, ts)]
            && r.xFlux[2] == r.axes[0].uOffset && r.xFlux[3] == r.axes[1].uOffset
            && r.xFlux[0] == r.axes[0].psi1 && r.xFlux[1] == r.axes[1].psi1
  {
    var m := MeasuredAxes(e, iab, Lq, cmdRpm, cmdPsi, ts);
    CrossTwo(m, e.cycles, timebase);
  }

  /** Before the crossing loop each axis keeps its bias voltage and holds
      the saturation record of the clamp. */
  lemma MeasuredAxesFacts(e: EstimatorState, iab: seq<real>, Lq: real, cmdRpm: real, cmdPsi: real, ts: real)
    requires Shaped(e) && |iab| == 2
    ensures var m := MeasuredAxes(e, iab, Lq, cmdRpm, cmdPsi, ts);
            forall j :: 0 <= j < 2 ==>
              && m[j].uOffset == e.axes[j].uOffset
              && m[j].sat == SaturateAxis(e.axes[j].(psi2 := RotorFlux(e.xFlux[j], Lq, iab[j])),
                                          cmdPsi + e.extraLimit, ts, cmdRpm != 0.0).sat
  {
  }

  /** While the speed command is nonzero, both rotor-flux components end
      within the clamp level, which is the flux command plus the extra limit;
      the stator flux written back is rebuilt from the clamped rotor flux,
      and the clamped value is remembered for the next call. */
  lemma StepClampsFlux(e: EstimatorState, iab: seq<real>, Lq: real, cmdRpm: real, cmdPsi: real,
                       timebase: real, ts: real)
    requires Shaped(e) && |iab| == 2 && ts > 0.0
    ensures var r := Step(e, iab, Lq, cmdRpm, cmdPsi, timebase, ts);
      && r.psiAsterMax == cmdPsi + e.extraLimit
      && forall j :: 0 <= j < 2 ==>
           && (cmdRpm != 0.0 && r.psiAsterMax >= 0.0 ==> -r.psiAsterMax <= r.axes[j].psi2 <= r.psiAsterMax)
           && (cmdRpm == 0.0 ==> r.axes[j].psi2 == RotorFlux(e.xFlux[j], Lq, iab[j]))
           && r.axes[j].psi2Prev == r.axes[j].psi2
           && r.xFlux[j] == StatorFlux(r.axes[j].psi2, Lq, iab[j])
  {
    var m := MeasuredAxes(e, iab, Lq, cmdRpm, cmdPsi, ts);
    CrossTwo(m, e.cycles, timebase);
  }

  /** Each bias voltage moves by gain times period times the saturation-time
      difference as measured right after the clamp (the crossing work may
      recompute it, but to the same value), and the gain is the initial one
      while the realtime factor is zero. */
  lemma StepIntegratesOffset(e: EstimatorState, iab: seq<real>, Lq: real, cmdRpm: real, cmdPsi: real,
                             timebase: real, ts: real)
    requires Shaped(e) && |iab| == 2 && ts > 0.0
    ensures var r := Step(e, iab, Lq, cmdRpm, cmdPsi, timebase, ts);
      && (e.gainOffsetRealtime == 0.0 ==> r.gainOff == e.gainOffsetInit)
      && forall j :: 0 <= j < 2 ==>
           var clamped := SaturateAxis(e.axes[j].(psi2 := RotorFlux(e.xFlux[j], Lq, iab[j])),
                                       cmdPsi + e.extraLimit, ts, cmdRpm != 0.0).sat;
           && r.axes[j].uOffset
                == e.axes[j].uOffset + OffsetIncrement(r.gainOff, ts, clamped.satMax - clamped.satMin)
           && r.xFlux[2 + j] == r.axes[j].uOffset
  {
    var m := MeasuredAxes(e, iab, Lq, cmdRpm, cmdPsi, ts);
    StepUnfolds(e, iab, Lq, cmdRpm, cmdPsi, timebase, ts);
    MeasuredAxesFacts(e, iab, Lq, cmdRpm, cmdPsi, ts);
    var q0 := CrossAxis(m[0], e.cycles, timebase);
    var gain := Step(e, iab, Lq, cmdRpm, cmdPsi, timebase, ts).gainOff;
    CrossingOffset(m[0], e.cycles, timebase, gain, ts);
    CrossingOffset(m[1], q0.1, timebase, gain, ts);
  }

  /** The bias integrator after the crossing work uses the correction as
      measured before it. */
  lemma CrossingOffset(a: Axis, c: Cycles, timebase: real, gain: real, ts: real)
    requires a.sat.correction == a.sat.satMax - a.sat.satMin
    ensures Integrated(CrossAxis(a, c, timebase).0, gain, ts).uOffset
              == a.uOffset + OffsetIncrement(gain, ts, a.sat.satMax - a.sat.satMin)
  {
    CrossingKeepsCorrection(a, c, timebase);
  }

  /** Each confirmed half cycle is counted once, in axis order. */
  lemma StepCountsHalfCycles(e: EstimatorState, iab: seq<real>, Lq: real, cmdRpm: real, cmdPsi: real,
                             timebase: real, ts: real)
    requires Shaped(e) && |iab| == 2 && ts > 0.0
    ensures var r := Step(e, iab, Lq, cmdRpm, cmdPsi, timebase, ts);
            var m := MeasuredAxes(e, iab, Lq, cmdRpm, cmdPsi, ts);
      && r.cycles.negative == e.cycles.negative
           + (if Pos2NegConfirms(m[0]) then 1 else 0) + (if Pos2NegConfirms(m[1]) then 1 else 0)
      && r.cycles.positive == e.cycles.positive
           + (if Neg2PosConfirms(m[0]) then 1 else 0) + (if Neg2PosConfirms(m[1]) then 1 else 0)
  {
    var m := MeasuredAxes(e, iab, Lq, cmdRpm, cmdPsi, ts);
    CrossTwo(m, e.cycles, timebase);
    var q0 := CrossAxis(m[0], e.cycles, timebase);
    DebounceRules(m[0], e.cycles, timebase);
    DebounceRules(m[1], q0.1, timebase);
  }

  /** After every call an armed detector has the sign it waits to confirm
      stored as the previous sample, so both directions are never armed at
      once. */
  lemma StepArmedMatchesSign(e: EstimatorState, iab: seq<real>, Lq: real, cmdRpm: real, cmdPsi: real,
                             timebase: real, ts: real)
    requires Shaped(e) && |iab| == 2 && ts > 0.0
    ensures var r := Step(e, iab, Lq, cmdRpm, cmdPsi, timebase, ts);
      forall j :: 0 <= j < 2 ==>
        && (r.axes[j].pos2neg.levelA ==> r.axes[j].psi2Prev < 0.0)
        && (r.axes[j].neg2pos.levelA ==> r.axes[j].psi2Prev > 0.0)
  {
    var m := MeasuredAxes(e, iab, Lq, cmdRpm, cmdPsi, ts);
    CrossTwo(m, e.cycles, timebase);
    var q0 := CrossAxis(m[0], e.cycles, timebase);
    ArmedMatchesSign(m[0], e.cycles, timebase);
    ArmedMatchesSign(m[1], q0.1, timebase);
  }

  /** What every call keeps: timers a whole number of periods (hence never
      negative), at most one sign run open, at most one confirmed half cycle
      per axis. */
  ghost predicate Consistent(e: EstimatorState, ts: real)
  {
    && Shaped(e)
    && forall j :: 0 <= j < 2 ==>
         TimersOnGrid(e.axes[j], ts) && RunExclusive(e.axes[j].run) && OneHalfCycle(e.axes[j])
  }

  lemma InitialConsistent(ts: real)
    ensures Consistent(InitialState(), ts)
  {
    assert Seconds(0, ts) == 0.0;
  }

  lemma ConsistentTimersNonNegative(e: EstimatorState, ts: real)
    requires ts > 0.0 && Consistent(e, ts)
    ensures forall j :: 0 <= j < 2 ==> e.axes[j].sat.satMax >= 0.0 && e.axes[j].sat.satMin >= 0.0
  {
    forall j | 0 <= j < 2
      ensures e.axes[j].sat.satMax >= 0.0 && e.axes[j].sat.satMin >= 0.0
    {
      OnGridNonNegative(e.axes[j].sat.satMax, ts);
      OnGridNonNegative(e.axes[j].sat.satMin, ts);
    }
  }

  lemma MeasuredKeepsConsistent(a: Axis, x: real, i: real, Lq: real, limit: real, ts: real, active: bool)
    requires ts > 0.0 && TimersOnGrid(a, ts) && RunExclusive(a.run) && OneHalfCycle(a)
    ensures var m := Measured(a, x, i, Lq, limit, ts, active);
      TimersOnGrid(m, ts) && RunExclusive(m.run) && OneHalfCycle(m)
  {
    var p := a.(psi1 := x, psi2 := RotorFlux(x, Lq, i));
    assert p.sat == a.sat;
    SaturationKeepsGrid(p, limit, ts, active);
  }

  lemma StepKeepsConsistent(e: EstimatorState, iab: seq<real>, Lq: real, cmdRpm: real, cmdPsi: real,
                            timebase: real, ts: real)
    requires Consistent(e, ts) && |iab| == 2 && ts > 0.0
    ensures Consistent(Step(e, iab, Lq, cmdRpm, cmdPsi, timebase, ts), ts)
  {
    var limit := cmdPsi + e.extraLimit;
    var m := MeasuredAxes(e, iab, Lq, cmdRpm, cmdPsi, ts);
    MeasuredKeepsConsistent(e.axes[0], e.xFlux[0], iab[0], Lq, limit, ts, cmdRpm != 0.0);
    MeasuredKeepsConsistent(e.axes[1], e.xFlux[1], iab[1], Lq, limit, ts, cmdRpm != 0.0);
    CrossTwo(m, e.cycles, timebase);
    var q0 := CrossAxis(m[0], e.cycles, timebase);
    CrossingKeepsGrid(m[0], e.cycles, timebase, ts);
    CrossingKeepsGrid(m[1], q0.1, timebase, ts);
    CrossingKeepsOneHalfCycle(m[0], e.cycles, timebase);
    CrossingKeepsOneHalfCycle(m[1], q0.1, timebase);
  }

  // ---------------------------------------------------------------------
  // The block as the controller runs it

  /** The clamp loop over the axes. */
  method SaturateAll(axes: seq<Axis>, limit: real, ts: real, active: bool) returns (r: seq<Axis>)
    ensures |r| == |axes|
    ensures forall k :: 0 <= k < |axes| ==> r[k] == SaturateAxis(axes[k], limit, ts, active)
  {
    r := axes;
    for ind := 0 to |axes|
      invariant |r| == |axes|
      invariant forall k :: 0 <= k < ind ==> r[k] == SaturateAxis(axes[k], limit, ts, active)
      invariant forall k :: ind <= k < |axes| ==> r[k] == axes[k]
    {
      var a := r[ind];
      var psi2 := a.psi2;
      var satMax := a.sat.satMax;
      var satMin := a.sat.satMin;
      if active {
        if psi2 > limit {
          psi2 := limit;
          satMax := satMax + ts;
        } else if psi2 < -limit {
          psi2 := -limit;
          satMin := satMin + ts;
        } else {
          if satMax > 0.0 { satMax := satMax - ts; }
          if satMin > 0.0 { satMin := satMin - ts; }
        }
      }
      var maxOfSatMin := a.sat.maxOfSatMin;
      var maxOfSatMax := a.sat.maxOfSatMax;
      if satMin > maxOfSatMin { maxOfSatMin := satMin; }
      if satMax > maxOfSatMax { maxOfSatMax := satMax; }
      r := r[ind := a.(psi2 := psi2, sat := Saturation(satMax, satMin, maxOfSatMax, maxOfSatMin, satMax - satMin))];
    }
  }

  /** The crossing loop over the axes, threading the shared counters. */
  method CrossAll(axes: seq<Axis>, c: Cycles, timebase: real) returns (r: seq<Axis>, rc: Cycles)
    ensures (r, rc) == CrossPrefix(axes, c, timebase, |axes|)
  {
    r, rc := axes, c;
    for ind := 0 to |axes|
      invariant (r, rc) == CrossPrefix(axes, c, timebase, ind)
    {
      var a, c' := Pos2NegDetector(r[ind], rc, timebase);
      a, c' := Neg2PosDetector(a, c', timebase);
      r, rc := r[ind := a], c';
    }
  }

  method Pos2NegDetector(a: Axis, c: Cycles, timebase: real) returns (r: Axis, rc: Cycles)
    ensures (r, rc) == Pos2Neg(a, c, timebase)
  {
    r, rc := a, c;
    if r.pos2neg.levelA {
      if r.psi2Prev < 0.0 && r.psi2 < 0.0 {
        if !r.pos2neg.levelB {
          r, rc := NegativeHalfCycle(r, rc).0, NegativeHalfCycle(r, rc).1;
        }
        r := r.(pos2neg := r.pos2neg.(levelB := true));
        if r.psi2 < r.ext.psi2Min {
          r := r.(ext := r.ext.(psi2Min := r.psi2));
        }
      } else {
        r := r.(pos2neg := r.pos2neg.(levelA := false));
      }
    }
    if r.psi2Prev > 0.0 && r.psi2 < 0.0 {
      r := r.(pos2neg := r.pos2neg.(levelA := true, time := timebase));
    }
  }

  method Neg2PosDetector(a: Axis, c: Cycles, timebase: real) returns (r: Axis, rc: Cycles)
    ensures (r, rc) == Neg2Pos(a, c, timebase)
  {
    r, rc := a, c;
    if r.neg2pos.levelA {
      if r.psi2Prev > 0.0 && r.psi2 > 0.0 {
        if !r.neg2pos.levelB {
          r, rc := PositiveHalfCycle(r, rc).0, PositiveHalfCycle(r, rc).1;
        }
        r := r.(neg2pos := r.neg2pos.(levelB := true));
        if r.psi2 > r.ext.psi2Max {
          r := r.(ext := r.ext.(psi2Max := r.psi2));
        }
      } else {
        r := r.(neg2pos := r.neg2pos.(levelA := false));
      }
    }
    if r.psi2Prev < 0.0 && r.psi2 > 0.0 {
      r := r.(neg2pos := r.neg2pos.(levelA := true, time := timebase));
    }
  }

  /** The part of the estimator block before the crossing loop, on a copy of
      the per-axis records: rotor flux from the integrated stator flux, the
      clamp loop, the sign runs, and the stator flux rebuilt. */
  method MeasureAxes(e: EstimatorState, iab: seq<real>, Lq: real, cmdRpm: real, cmdPsi: real, ts: real)
    returns (a: seq<Axis>)
    requires Shaped(e) && |iab| == 2
    ensures a == MeasuredAxes(e, iab, Lq, cmdRpm, cmdPsi, ts)
  {
    a := e.axes;
    a := a[0 := a[0].(psi1 := e.xFlux[0], psi2 := RotorFlux(e.xFlux[0], Lq, iab[0]))];
    a := a[1 := a[1].(psi1 := e.xFlux[1], psi2 := RotorFlux(e.xFlux[1], Lq, iab[1]))];
    a := SaturateAll(a, cmdPsi + e.extraLimit, ts, cmdRpm != 0.0);
    a := a[0 := a[0].(run := CountSign(a[0].run, a[0].psi2))];
    a := a[1 := a[1].(run := CountSign(a[1].run, a[1].psi2))];
    a := a[0 := a[0].(psi1 := StatorFlux(a[0].psi2, Lq, iab[0]))];
    a := a[1 := a[1].(psi1 := StatorFlux(a[1].psi2, Lq, iab[1]))];
  }

  /** The statements of the estimator block (lines after the flux
      integration up to the memory of this call's rotor flux), on a copy of
      the estimator's state. */
  method EstimatorBlock(e: EstimatorState, iab: seq<real>, Lq: real, cmdRpm: real, cmdPsi: real,
                        timebase: real, ts: real) returns (r: EstimatorState)
    requires Shaped(e) && |iab| == 2 && ts > 0.0
    ensures r == Step(e, iab, Lq, cmdRpm, cmdPsi, timebase, ts)
  {
    var psiAsterMax := cmdPsi + e.extraLimit;
    var a := MeasureAxes(e, iab, Lq, cmdRpm, cmdPsi, ts);
    var xFlux := e.xFlux[0 := a[0].psi1][1 := a[1].psi1];
    var cycles;
    a, cycles := CrossAll(a, e.cycles, timebase);
    var gainOff := e.gainOff;
    if e.gainOffsetRealtime != 0.0 {
      var sum := InCountSum(a);
      if sum > 0 {
        gainOff := RealtimeGain(e.gainOffsetRealtime, e.gainOffsetInit, sum, ts);
      }
    } else {
      gainOff := e.gainOffsetInit;
    }
    a := [Integrated(a[0], gainOff, ts), Integrated(a[1], gainOff, ts)];
    xFlux := xFlux[2 := a[0].uOffset][3 := a[1].uOffset];
    StepUnfolds(e, iab, Lq, cmdRpm, cmdPsi, timebase, ts);
    r := e.(xFlux := xFlux, axes := a, cycles := cycles, psiAsterMax := psiAsterMax, gainOff := gainOff);
  }

  /** The estimator object of the controller. */
  class FluxEstimator {
    var xFlux: seq<real>
    var axes: seq<Axis>
    var cycles: Cycles
    var psiAsterMax: real
    var extraLimit: real
    var gainOff: real
    var gainOffsetInit: real
    var gainOffsetRealtime: real

    function State(): EstimatorState
      reads this
    {
      EstimatorState(xFlux, axes, cycles, psiAsterMax, extraLimit, gainOff, gainOffsetInit, gainOffsetRealtime)
    }

    ghost predicate Valid()
      reads this
    {
      Shaped(State())
    }

    constructor()
      ensures Valid() && State() == InitialState()
    {
      xFlux := [0.0, 0.0, 0.0, 0.0, 0.0, 0.0];
      axes := [InitialAxis(), InitialAxis()];
      cycles := Cycles(0, 0, 1.0, 0.0);
      psiAsterMax := 0.9;
      extraLimit := 0.0;
      gainOffsetInit := 10.0;
      gainOff := 10.0;
      gainOffsetRealtime := 0.0;
    }

    /** The estimator block for one control period, after the flux
        integration has left the new stator flux in `xFlux[0..2]`. */
    method Update(iab: seq<real>, Lq: real, cmdRpm: real, cmdPsi: real, timebase: real, ts: real)
      requires Valid() && |iab| == 2 && ts > 0.0
      modifies this
      ensures Valid()
      ensures State() == Step(old(State()), iab, Lq, cmdRpm, cmdPsi, timebase, ts)
    {
      var r := EstimatorBlock(State(), iab, Lq, cmdRpm, cmdPsi, timebase, ts);
      xFlux, axes, cycles := r.xFlux, r.axes, r.cycles;
      psiAsterMax, gainOff := r.psiAsterMax, r.gainOff;
    }
  }
}
