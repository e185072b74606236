/** Space-vector modulation (`SVGEN_DQ`): a stationary-frame voltage command,
    normalised by the DC-bus voltage, is turned into three duty ratios. The
    sign pattern of three projections picks one of six 60-degree sectors,
    each sector has its own pair of active times, a symmetric zero-sequence
    term centres them, and the duties are inverted (active-low gates) and
    kept inside [MIN_DUTY, MAX_DUTY]. */
module SpaceVector {

  /** sqrt(3) and sqrt(3)/2 as the source writes them, truncated. */
  const SQRT3: real := 1.7320508
  const HALF_SQRT3: real := 0.8660254

  /** Duty limits: the bus sags under load, so full duty is never used. */
  const MAX_DUTY: real := 0.96
  const MIN_DUTY: real := 0.04

  datatype Duties = Duties(ta: real, tb: real, tc: real)

  /** The projections A (0-degree line), C and B whose signs pick the sector. */
  function ProjA(talfa: real, tbeta: real): real { tbeta }
  function ProjC(talfa: real, tbeta: real): real { SQRT3 * talfa - tbeta }
  function ProjB(talfa: real, tbeta: real): real { -SQRT3 * talfa - tbeta }

  /** `Sector = [A>0] + 2*[C>0] + 4*[B>0]`. The three projections cannot all
      be positive (they sum to -A), so 7 never occurs, and 0 occurs only for
      the zero vector. */
  function Sector(talfa: real, tbeta: real): (s: int)
    ensures 0 <= s <= 6
    ensures s == 0 <==> talfa == 0.0 && tbeta == 0.0
  {
    var a := ProjA(talfa, tbeta);
    var c := ProjC(talfa, tbeta);
    var b := ProjB(talfa, tbeta);
    (if a > 0.0 then 1 else 0) + (if c > 0.0 then 2 else 0) + (if b > 0.0 then 4 else 0)
  }

  /** The sector number encodes the sign triple: each bit can be read back. */
  lemma SectorDecodes(talfa: real, tbeta: real)
    ensures var s := Sector(talfa, tbeta);
            && (s % 2 == 1 <==> ProjA(talfa, tbeta) > 0.0)
            && ((s / 2) % 2 == 1 <==> ProjC(talfa, tbeta) > 0.0)
            && (s / 4 == 1 <==> ProjB(talfa, tbeta) > 0.0)
  {
  }

  /** The duties before inversion. `prev` is what the object held before the
      call; it is only kept for a sector outside 0..6, which never occurs. */
  function SectorDuties(sector: int, talfa: real, tbeta: real, tz: real, prev: Duties): (r: Duties)
    ensures sector == 0 ==> r == Duties(0.5, 0.5, 0.5)
    ensures !(0 <= sector <= 6) ==> r == prev
  {
    var x := tbeta * SQRT3;
    var y := 1.5 * talfa + tbeta * HALF_SQRT3;
    var z := -1.5 * talfa + tbeta * HALF_SQRT3;
    if sector == 0 then Duties(0.5, 0.5, 0.5)
    else if sector == 1 then
      var t1, t2 := z, y;
      var tb := (1.0 - t1 - t2) * 0.5 + tz * 0.5;
      var ta := tb + t1;
      Duties(ta, tb, ta + t2)
    else if sector == 2 then
      var t1, t2 := y, -x;
      var ta := (1.0 - t1 - t2) * 0.5 + tz * 0.5;
      var tc := ta + t1;
      Duties(ta, tc + t2, tc)
    else if sector == 3 then
      var t1, t2 := -z, x;
      var ta := (1.0 - t1 - t2) * 0.5 + tz * 0.5;
      var tb := ta + t1;
      Duties(ta, tb, tb + t2)
    else if sector == 4 then
      var t1, t2 := -x, z;
      var tc := (1.0 - t1 - t2) * 0.5 + tz * 0.5;
      var tb := tc + t1;
      Duties(tb + t2, tb, tc)
    else if sector == 5 then
      var t1, t2 := x, -y;
      var tb := (1.0 - t1 - t2) * 0.5 + tz * 0.5;
      var tc := tb + t1;
      Duties(tc + t2, tb, tc)
    else if sector == 6 then
      var t1, t2 := -y, -z;
      var tc := (1.0 - t1 - t2) * 0.5 + tz * 0.5;
      var ta := tc + t1;
      Duties(ta, ta + t2, tc)
    else prev
  }

  /** Symmetric zero sequence: in every active sector the phase that switches
      first and the phase that switches last are centred on (1 + Tz) / 2. */
  lemma ZeroSequenceCentred(talfa: real, tbeta: real, tz: real, prev: Duties)
    requires Sector(talfa, tbeta) != 0
    ensures var s := Sector(talfa, tbeta);
            var d := SectorDuties(s, talfa, tbeta, tz, prev);
            && (s == 1 ==> d.tb + d.tc == 1.0 + tz)
            && (s == 2 ==> d.ta + d.tb == 1.0 + tz)
            && (s == 3 ==> d.ta + d.tc == 1.0 + tz)
            && (s == 4 ==> d.tc + d.ta == 1.0 + tz)
            && (s == 5 ==> d.tb + d.ta == 1.0 + tz)
            && (s == 6 ==> d.tc + d.tb == 1.0 + tz)
  {
  }

  /** Saturation into [MIN_DUTY, MAX_DUTY]: upper limit first, then lower. */
  function ClampDuty(x: real): (r: real)
    ensures MIN_DUTY <= r <= MAX_DUTY
    ensures r == x <==> MIN_DUTY <= x <= MAX_DUTY
    ensures x > MAX_DUTY ==> r == MAX_DUTY
    ensures x < MIN_DUTY ==> r == MIN_DUTY
  {
    var y := if x > MAX_DUTY then MAX_DUTY else x;
    if y < MIN_DUTY then MIN_DUTY else y
  }

  /** The duties `SVGEN_DQ` leaves in the object for a normalised command
      (Talfa, Tbeta) and zero-sequence time Tz: inverted and clamped. */
  function SvgenDuties(talfa: real, tbeta: real, tz: real, prev: Duties): (d: Duties)
    ensures MIN_DUTY <= d.ta <= MAX_DUTY
    ensures MIN_DUTY <= d.tb <= MAX_DUTY
    ensures MIN_DUTY <= d.tc <= MAX_DUTY
  {
    var raw := SectorDuties(Sector(talfa, tbeta), talfa, tbeta, tz, prev);
    Duties(ClampDuty(1.0 - raw.ta), ClampDuty(1.0 - raw.tb), ClampDuty(1.0 - raw.tc))
  }

  /** The zero command gives a 50 % duty on all three phases, whatever Tz. */
  lemma ZeroCommandHalfDuty(tz: real, prev: Duties)
    ensures SvgenDuties(0.0, 0.0, tz, prev) == Duties(0.5, 0.5, 0.5)
  {
    assert Sector(0.0, 0.0) == 0;
    assert SectorDuties(0, 0.0, 0.0, tz, prev) == Duties(0.5, 0.5, 0.5);
    assert ClampDuty(1.0 - 0.5) == 0.5;
  }

  /** Python's `int(x)` on a float: truncation toward zero. */
  function Truncate(x: real): (n: int)
    ensures x >= 0.0 ==> 0 <= n && n as real <= x < n as real + 1.0
    ensures x < 0.0 ==> n <= 0 && n as real - 1.0 < x <= n as real
  {
    if x >= 0.0 then x.Floor else -((-x).Floor)
  }

  /** The compare value the driver latches for one phase: the duty is flipped
      back (`1 - T`) and scaled to the half carrier period, then truncated. */
  function CompareValue(duty: real, cpuTick: int): (c: int)
    ensures MIN_DUTY <= duty <= MAX_DUTY && cpuTick >= 0 ==>
              0 <= c && c as real <= cpuTick as real * 0.5
  {
    CompareArgumentInRange(duty, cpuTick);
    Truncate((1.0 - duty) * cpuTick as real * 0.5)
  }

  /** A duty inside the limits scales to a point of the half carrier period. */
  lemma CompareArgumentInRange(duty: real, cpuTick: int)
    ensures MIN_DUTY <= duty <= MAX_DUTY && cpuTick >= 0 ==>
              0.0 <= (1.0 - duty) * cpuTick as real * 0.5 <= cpuTick as real * 0.5
  {
    if MIN_DUTY <= duty <= MAX_DUTY && cpuTick >= 0 {
      var half := cpuTick as real * 0.5;
      assert (1.0 - duty) * cpuTick as real * 0.5 == (1.0 - duty) * half;
      ScaleWithin(1.0 - duty, half);
    }
  }

  /** A fraction in [0, 1] of a non-negative amount lies between 0 and it. */
  lemma ScaleWithin(f: real, h: real)
    requires 0.0 <= f <= 1.0 && 0.0 <= h
    ensures 0.0 <= f * h <= h
  {
    assert h - f * h == (1.0 - f) * h;
  }
}
