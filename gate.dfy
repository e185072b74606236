/** The gate-signal emulator (`gate_signal_generator`) as a step function on
    its state, and the terminal-potential rule of the inverter. An up/down
    carrier counter runs from 0 to half the carrier period and back; each
    phase leg compares it with its compare value to get ideal complementary
    gate signals, and a per-leg dead-time counter holds one switch off after
    each edge. */
module Gate {

  /** One inverter leg: its compare value, dead-time counter, the two
      (unused) delay-active flags, and the high-side and low-side switch
      states (S1/S4, S2/S5 or S3/S6). */
  datatype Leg = Leg(cmpa: real, deadtime: int, risingDelay: bool, fallingDelay: bool,
                     high: bool, low: bool)

  /** The carrier: the pending interrupt event, the direction and the count. */
  datatype Carrier = Carrier(event: bool, countingDown: bool, counter: int)

  datatype Inverter = Inverter(carrier: Carrier, u: Leg, v: Leg, w: Leg)

  /** Leg `p` (0, 1, 2 for phases U, V, W). */
  function LegOf(g: Inverter, p: int): Leg
    requires 0 <= p < 3
  {
    if p == 0 then g.u else if p == 1 then g.v else g.w
  }

  function ClearDeadTime(l: Leg): Leg {
    l.(deadtime := 0, risingDelay := false, fallingDelay := false)
  }

  /** The switch states of one leg once the carrier has moved to `counter`.
      Ideally the high side is on iff `counter >= cmpa` and the low side is
      its negation. Counting up, the high side stays off while the dead-time
      counter is at most `deadTimeCount`; counting down, the low side stays
      off while it is below `deadTimeCount`. Dead time only turns switches
      off, so the two sides are never on together. */
  function LegStep(l: Leg, countingDown: bool, counter: int, deadTimeCount: int): (r: Leg)
    ensures r.cmpa == l.cmpa
    ensures r.high ==> counter as real >= l.cmpa
    ensures r.low ==> counter as real < l.cmpa
    ensures !(r.high && r.low)
  {
    var ideal := counter as real >= l.cmpa;
    if !countingDown then
      if ideal then
        var d := l.deadtime + 1;
        if d <= deadTimeCount then l.(deadtime := d, risingDelay := true, high := false, low := false)
        else l.(deadtime := d, high := true, low := false)
      else l.(high := false, low := true)
    else
      if !ideal then
        var d := l.deadtime + 1;
        if d < deadTimeCount then l.(deadtime := d, fallingDelay := true, high := false, low := false)
        else l.(deadtime := d, high := false, low := true)
      else l.(high := true, low := false)
  }

  /** The emulator state after the event and peak handling that precede the
      count: a pending event is consumed and restarts an up-count from 0; at
      the peak (`counter == cpuTick / 2`) the direction turns down. Both clear
      every dead-time counter and flag. */
  function BeforeCount(g: Inverter, cpuTick: int): (r: Inverter)
    ensures !r.carrier.event
    ensures r.carrier.counter == if g.carrier.event then 0 else g.carrier.counter
    ensures r.carrier.countingDown <==>
              (!g.carrier.event && g.carrier.countingDown) || r.carrier.counter as real == cpuTick as real * 0.5
    ensures forall p :: 0 <= p < 3 ==> LegOf(r, p).cmpa == LegOf(g, p).cmpa
    ensures g.carrier.event || r.carrier.counter as real == cpuTick as real * 0.5 ==>
              forall p :: 0 <= p < 3 ==>
                LegOf(r, p).deadtime == 0 && !LegOf(r, p).risingDelay && !LegOf(r, p).fallingDelay
  {
    var g1 := if g.carrier.event
              then Inverter(Carrier(false, false, 0), ClearDeadTime(g.u), ClearDeadTime(g.v), ClearDeadTime(g.w))
              else g;
    if g1.carrier.counter as real == cpuTick as real * 0.5
    then Inverter(g1.carrier.(countingDown := true),
                  ClearDeadTime(g1.u), ClearDeadTime(g1.v), ClearDeadTime(g1.w))
    else g1
  }

  /** One call of `gate_signal_generator`. */
  function GateStep(g: Inverter, cpuTick: int, deadTimeCount: int): (r: Inverter)
    ensures !r.carrier.event
    ensures var b := BeforeCount(g, cpuTick);
            forall p :: 0 <= p < 3 ==>
              LegOf(r, p) == LegStep(LegOf(b, p), r.carrier.countingDown, r.carrier.counter, deadTimeCount)
  {
    var b := BeforeCount(g, cpuTick);
    var down := b.carrier.countingDown;
    var counter := if down then b.carrier.counter - 1 else b.carrier.counter + 1;
    Inverter(Carrier(false, down, counter),
             LegStep(b.u, down, counter, deadTimeCount),
             LegStep(b.v, down, counter, deadTimeCount),
             LegStep(b.w, down, counter, deadTimeCount))
  }

  /** The carrier part of a call: the event is consumed once and restarts an
      up-count from 0, the peak turns the count down, and the counter then
      moves by exactly one in the current direction. */
  lemma CarrierStep(g: Inverter, cpuTick: int, deadTimeCount: int)
    ensures var r := GateStep(g, cpuTick, deadTimeCount).carrier;
            var base := if g.carrier.event then 0 else g.carrier.counter;
            var wasDown := !g.carrier.event && g.carrier.countingDown;
            && !r.event
            && (r.countingDown <==> wasDown || base as real == cpuTick as real * 0.5)
            && r.counter == (if r.countingDown then base - 1 else base + 1)
  {
  }

  /** A call that consumes an event or turns at the peak starts every leg's
      dead-time bookkeeping from zero (`BeforeCount` clears the counters and
      delay flags): the dead-time counter is then at most one. */
  lemma ResetClearsDeadTime(g: Inverter, cpuTick: int, deadTimeCount: int, p: int)
    requires 0 <= p < 3
    requires g.carrier.event || (g.carrier.counter as real == cpuTick as real * 0.5)
    ensures var l := LegOf(GateStep(g, cpuTick, deadTimeCount), p);
            0 <= l.deadtime <= 1
  {
    var b := BeforeCount(g, cpuTick);
    assert LegOf(b, p).deadtime == 0;
  }

  /** With an odd number of CPU ticks per period the counter never equals
      half of it, so the carrier never turns: after an event it only counts
      up, a sawtooth restarted by the next event. */
  lemma {:induction false} OddPeriodCountsUp(g: Inverter, cpuTick: int, deadTimeCount: int, k: nat)
    requires g.carrier.event && cpuTick % 2 == 1
    ensures Run(g, cpuTick, deadTimeCount, k).carrier ==
              if k == 0 then g.carrier else Carrier(false, false, k)
  {
    if k == 1 {
      OddStepCountsUp(g, cpuTick, deadTimeCount);
    } else if k > 1 {
      var prev := Run(g, cpuTick, deadTimeCount, k - 1);
      OddPeriodCountsUp(g, cpuTick, deadTimeCount, k - 1);
      OddStepCountsUp(prev, cpuTick, deadTimeCount);
    }
  }

  /** One call with an odd period: an up-counting (or freshly restarted)
      carrier moves up by one and does not turn. */
  lemma OddStepCountsUp(g: Inverter, cpuTick: int, deadTimeCount: int)
    requires cpuTick % 2 == 1 && (g.carrier.event || !g.carrier.countingDown)
    ensures GateStep(g, cpuTick, deadTimeCount).carrier ==
              Carrier(false, false, (if g.carrier.event then 0 else g.carrier.counter) + 1)
  {
    CarrierStep(g, cpuTick, deadTimeCount);
    var base := if g.carrier.event then 0 else g.carrier.counter;
    if base as real == cpuTick as real * 0.5 {
      assert false;
    }
  }

  /** `k` calls without a new interrupt event. */
  function Run(g: Inverter, cpuTick: int, deadTimeCount: int, k: nat): Inverter
  {
    if k == 0 then g else GateStep(Run(g, cpuTick, deadTimeCount, k - 1), cpuTick, deadTimeCount)
  }

  /** The carrier value after the `k`-th call of a carrier period of `n`
      ticks: a triangle from 1 up to n/2 and back down to 0. */
  function Triangle(n: int, k: int): int {
    if k <= n / 2 then k else n - k
  }

  function Max(a: int, b: int): int { if a >= b then a else b }

  /** Dead-time count after the up-counting call that brought the counter to
      `k`: the number of calls so far with counter >= c. */
  function UpDeadTime(k: int, c: int): int {
    if k >= c then k - Max(c, 1) + 1 else 0
  }

  /** Dead-time count after the down-counting call that brought the counter
      to `v`: the number of calls since the peak with counter < c. */
  function DownDeadTime(v: int, c: int): int {
    if v < c then c - v else 0
  }

  /** Leg bookkeeping along one carrier period started by an interrupt event,
      for a leg whose compare value `c` lies in [0, n/2]:
      - counting up (call `k <= n/2`, counter `k`), the dead-time counter
        counts the calls with counter >= c, the low side follows its ideal
        signal and the high side comes on `deadTimeCount` calls late;
      - counting down (counter `v = n - k`), the counter restarts at the peak
        and counts the calls with counter < c, the high side follows its ideal
        signal and the low side comes on only `deadTimeCount - 1` calls late. */
  predicate LegOnSchedule(l: Leg, n: int, k: int, c: int, deadTimeCount: int)
  {
    && l.cmpa == c as real
    && (k <= n / 2 ==>
          && l.deadtime == UpDeadTime(k, c)
          && (l.low <==> k < c)
          && (l.high <==> k >= c && k >= Max(c, 1) + deadTimeCount))
    && (k > n / 2 ==>
          && l.deadtime == DownDeadTime(n - k, c)
          && (l.high <==> n - k >= c)
          && (l.low <==> n - k < c && c - (n - k) >= deadTimeCount))
  }

  /** One up-counting call keeps a leg on schedule. */
  lemma UpCallOnSchedule(l: Leg, n: int, k: int, c: int, deadTimeCount: int)
    requires 1 <= k <= n / 2 && 0 <= c && deadTimeCount >= 0
    requires l.cmpa == c as real && l.deadtime == UpDeadTime(k - 1, c)
    ensures LegOnSchedule(LegStep(l, false, k, deadTimeCount), n, k, c, deadTimeCount)
  {
  }

  /** One down-counting call keeps a leg on schedule. */
  lemma DownCallOnSchedule(l: Leg, n: int, k: int, c: int, deadTimeCount: int)
    requires n / 2 < k <= n && c <= n / 2 && deadTimeCount >= 0
    requires l.cmpa == c as real && l.deadtime == DownDeadTime(n - k + 1, c)
    ensures LegOnSchedule(LegStep(l, true, n - k, deadTimeCount), n, k, c, deadTimeCount)
  {
  }

  /** Where call `k` of a carrier period of `n` calls leaves the emulator:
      the counter on the triangle 1, 2, .., n/2, .., 1, 0, counting down in
      the second half, no event pending, and leg `p` on schedule. */
  predicate OnPeriod(r: Inverter, n: int, deadTimeCount: int, k: int, p: int, c: int)
    requires 0 <= p < 3
  {
    && r.carrier.counter == Triangle(n, k)
    && (r.carrier.countingDown <==> k > n / 2)
    && !r.carrier.event
    && 0 <= r.carrier.counter <= n / 2
    && LegOnSchedule(LegOf(r, p), n, k, c, deadTimeCount)
  }

  /** The call that consumes the event starts the period. */
  lemma FirstCallOnPeriod(g: Inverter, n: int, deadTimeCount: int, p: int, c: int)
    requires n >= 2 && n % 2 == 0 && deadTimeCount >= 0
    requires g.carrier.event
    requires 0 <= p < 3
    requires 0 <= c <= n / 2 && LegOf(g, p).cmpa == c as real
    ensures OnPeriod(GateStep(g, n, deadTimeCount), n, deadTimeCount, 1, p, c)
  {
    var b := BeforeCount(g, n);
    assert b.carrier == Carrier(false, false, 0);
    assert LegOf(b, p) == ClearDeadTime(LegOf(g, p));
    UpCallOnSchedule(LegOf(b, p), n, 1, c, deadTimeCount);
  }

  /** Every later call of the period moves one step along it. */
  lemma NextCallOnPeriod(prev: Inverter, n: int, deadTimeCount: int, k: int, p: int, c: int)
    requires n >= 2 && n % 2 == 0 && deadTimeCount >= 0
    requires 0 <= p < 3
    requires 0 <= c <= n / 2
    requires 2 <= k <= n
    requires OnPeriod(prev, n, deadTimeCount, k - 1, p, c)
    ensures OnPeriod(GateStep(prev, n, deadTimeCount), n, deadTimeCount, k, p, c)
  {
    var b := BeforeCount(prev, n);
    if k - 1 == n / 2 {
      assert prev.carrier.counter as real == n as real * 0.5;
      assert b.carrier == Carrier(false, true, n / 2);
      assert LegOf(b, p) == ClearDeadTime(LegOf(prev, p));
      DownCallOnSchedule(LegOf(b, p), n, k, c, deadTimeCount);
    } else {
      assert prev.carrier.counter as real != n as real * 0.5;
      assert b == prev;
      if k <= n / 2 {
        UpCallOnSchedule(LegOf(b, p), n, k, c, deadTimeCount);
      } else {
        DownCallOnSchedule(LegOf(b, p), n, k, c, deadTimeCount);
      }
    }
  }

  /** Over one carrier period of an even number `n` of calls started by an
      interrupt event, the counter runs the triangle 1, 2, .., n/2, .., 1, 0,
      and every leg follows `LegOnSchedule`: the high side is delayed by
      `deadTimeCount` ticks on the rising edge and the low side by one tick
      less on the falling edge. */
  lemma {:induction false} CarrierPeriod(g: Inverter, n: int, deadTimeCount: int, k: nat, p: int, c: int)
    requires n >= 2 && n % 2 == 0 && deadTimeCount >= 0
    requires g.carrier.event
    requires 0 <= p < 3
    requires 0 <= c <= n / 2 && LegOf(g, p).cmpa == c as real
    requires 1 <= k <= n
    ensures OnPeriod(Run(g, n, deadTimeCount, k), n, deadTimeCount, k, p, c)
  {
    if k == 1 {
      FirstCallOnPeriod(g, n, deadTimeCount, p, c);
    } else {
      CarrierPeriod(g, n, deadTimeCount, k - 1, p, c);
      NextCallOnPeriod(Run(g, n, deadTimeCount, k - 1), n, deadTimeCount, k, p, c);
    }
  }

  /** The potential of one motor terminal: the bus voltage when the high
      switch is on, zero when the low switch is on, and during dead time,
      with both off, whichever rail the freewheeling diode connects: the bus
      voltage for a current flowing out of the motor (negative), else zero. */
  function TerminalPotential(high: bool, low: bool, current: real, vdc: real): (r: real)
    ensures r == vdc || r == 0.0
    ensures high ==> r == vdc
    ensures low && !high ==> r == 0.0
    ensures !high && !low && vdc != 0.0 ==> (r == vdc <==> current < 0.0)
  {
    if high then vdc else if low then 0.0 else if current < 0.0 then vdc else 0.0
  }

  /** Outside the dead-time window a leg's terminal follows the carrier
      comparison alone; inside it the phase current decides. */
  lemma TerminalAfterStep(g: Inverter, cpuTick: int, deadTimeCount: int, p: int, current: real, vdc: real)
    requires 0 <= p < 3 && vdc != 0.0
    ensures var r := GateStep(g, cpuTick, deadTimeCount);
            var l := LegOf(r, p);
            var e := TerminalPotential(l.high, l.low, current, vdc);
            && (l.high || l.low ==> (e == vdc <==> r.carrier.counter as real >= l.cmpa))
            && (!l.high && !l.low ==> (e == vdc <==> current < 0.0))
  {
  }
}
