/** The reset-at-ceiling down-sampling counters of the multi-rate loop: the
    driver's `jj`, which runs the controller every `ceiling` plant steps, and
    the controller's `velocity_loop_counter`, which runs the speed regulator
    every `ceiling` controller calls. Both bump the counter first and, once it
    reaches the ceiling, reset it to 0 and run the slower task. */
module DownSampling {

  /** One bump: the new counter value and whether the slower task runs. */
  function Tick(counter: int, ceiling: int): (r: (int, bool))
  {
    if counter + 1 >= ceiling then (0, true) else (counter + 1, false)
  }

  /** The counter after `k` bumps from `start`. */
  function CounterAfter(start: int, ceiling: int, k: nat): int
  {
    if k == 0 then start else Tick(CounterAfter(start, ceiling, k - 1), ceiling).0
  }

  /** Whether the `k`-th bump (counting from 1) runs the slower task. */
  function RunsAt(start: int, ceiling: int, k: nat): bool
    requires k >= 1
  {
    Tick(CounterAfter(start, ceiling, k - 1), ceiling).1
  }

  /** Euclidean remainder is determined by any quotient/remainder split. */
  lemma ModUnique(n: int, c: int, q: int, r: int)
    requires c >= 1 && 0 <= r < c && n == q * c + r
    ensures n % c == r
  {
    var q', r' := n / c, n % c;
    assert n == q' * c + r';
    if q > q' {
      assert (q - q') * c == q * c - q' * c;
      MulAtLeast(q - q', c);
    } else if q < q' {
      assert (q' - q) * c == q' * c - q * c;
      MulAtLeast(q' - q, c);
    }
  }

  lemma {:induction false} MulAtLeast(d: int, c: int)
    requires d >= 1 && c >= 1
    ensures d * c >= c
    decreases d
  {
    if d > 1 {
      MulAtLeast(d - 1, c);
      assert d * c == (d - 1) * c + c;
    }
  }

  /** Bumping a number bumps its remainder, wrapping at the divisor. */
  lemma ModSucc(n: int, c: int)
    requires c >= 1
    ensures (n + 1) % c == if n % c + 1 == c then 0 else n % c + 1
  {
    var q, r := n / c, n % c;
    assert n == q * c + r;
    if r + 1 == c {
      ModUnique(n + 1, c, q + 1, 0);
    } else {
      ModUnique(n + 1, c, q, r + 1);
    }
  }

  /** Started at `ceiling - 1` (the speed loop) or at `ceiling` (the driver),
      the counter stays in [0, ceiling) and the slower task runs on the first
      bump and then on exactly every `ceiling`-th one. */
  lemma {:induction false} Schedule(start: int, ceiling: int, k: nat)
    requires ceiling >= 1 && start >= ceiling - 1 && k >= 1
    ensures CounterAfter(start, ceiling, k) == (k - 1) % ceiling
    ensures 0 <= CounterAfter(start, ceiling, k) < ceiling
    ensures RunsAt(start, ceiling, k) <==> (k - 1) % ceiling == 0
  {
    if k == 1 {
      ModUnique(0, ceiling, 0, 0);
    } else {
      Schedule(start, ceiling, k - 1);
      ModSucc(k - 2, ceiling);
    }
  }

  /** The driver's main loop as far as `jj` is concerned: `jj` starts at the
      ceiling so that the controller runs at the first plant step; entry `i`
      of `runs` says whether the controller ran at plant step `i`. */
  method ControllerSchedule(steps: nat, ceiling: int) returns (runs: seq<bool>)
    requires ceiling >= 1
    ensures |runs| == steps
    ensures forall i :: 0 <= i < steps ==> (runs[i] <==> i % ceiling == 0)
  {
    var jj := ceiling;
    runs := [];
    var ii := 0;
    while ii < steps
      invariant 0 <= ii <= steps && |runs| == ii
      invariant ii == 0 ==> jj == ceiling
      invariant ii > 0 ==> jj == (ii - 1) % ceiling
      invariant forall i :: 0 <= i < ii ==> (runs[i] <==> i % ceiling == 0)
    {
      if ii == 0 {
        ModUnique(0, ceiling, 0, 0);
      } else {
        ModSucc(ii - 1, ceiling);
      }
      jj := jj + 1;
      var run := false;
      if jj >= ceiling {
        jj := 0;
        run := true;
      }
      runs := runs + [run];
      ii := ii + 1;
    }
  }
}
