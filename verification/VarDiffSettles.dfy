// A miner of constant speed settles: its difficulty climbs or falls to the ideal and then stays.
module VarDiffSettles {
  import opened VarDiff

  /** Whole-number difficulties between whole-number bounds. */
  predicate WholeNumbers(cfg: Config, lo: nat, hi: nat) {
    cfg.Valid() && !cfg.floatDiff && 1 <= lo <= hi && cfg.minDiff == lo as real && cfg.maxDiff == hi as real
  }

  /** The speed of a miner: at difficulty d it finds a share every d * pace seconds, and `ideal` is the difficulty
      at which that is the target time. */
  predicate Paced(cfg: Config, lo: nat, hi: nat, pace: real, ideal: real) {
    pace > 0.0 && ideal * pace == cfg.targetTime && lo as real <= ideal <= hi as real
  }

  /** Where a retarget takes a whole difficulty: at most four times up or down, otherwise straight to the ideal. */
  function Next(d: nat, ideal: real): (n: int)
  {
    if ideal > 4.0 * d as real then 4 * d
    else if ideal < d as real / 4.0 then Round(d as real / 4.0)
    else Round(ideal)
  }

  lemma RatioToIdeal(d: real, pace: real, ideal: real, target: real)
    requires d > 0.0 && pace > 0.0 && ideal * pace == target
    ensures d * pace > 0.0
    ensures d * (target / (d * pace)) == ideal
  {
    var ratio := target / (d * pace);
    assert ratio * (d * pace) == target;
    assert (ratio * d) * pace == ideal * pace;
    CancelPace(ratio * d, ideal, pace);
  }

  lemma CancelPace(a: real, b: real, pace: real)
    requires pace > 0.0 && a * pace == b * pace
    ensures a == b
  {
    assert (a - b) * pace == 0.0;
  }

  lemma ScaledRatio(d: real, ratio: real, bound: real)
    requires d > 0.0
    ensures ratio > bound <==> d * ratio > d * bound
    ensures ratio < bound <==> d * ratio < d * bound
  {
    if ratio > bound {
      assert d * (ratio - bound) > 0.0;
    } else if ratio < bound {
      assert d * (bound - ratio) > 0.0;
    }
  }

  lemma RoundKeepsBounds(x: real, lo: nat, hi: nat)
    requires lo as real <= x <= hi as real
    ensures lo <= Round(x) <= hi
  {
  }

  /** Clamping the ratio clamps the difficulty it leads to. */
  lemma ClampedRatio(d: real, ratio: real)
    requires d > 0.0
    ensures var wanted := d * ratio;
            d * ClampRatio(ratio) == if wanted > 4.0 * d then 4.0 * d else if wanted < d / 4.0 then d / 4.0 else wanted
  {
    ScaledRatio(d, ratio, 4.0);
    ScaledRatio(d, ratio, 0.25);
  }

  /** The difficulty aimed at before rounding. */
  function Aim(d: real, ideal: real): real {
    if ideal > 4.0 * d then 4.0 * d else if ideal < d / 4.0 then d / 4.0 else ideal
  }

  lemma RoundedAim(cfg: Config, lo: nat, hi: nat, ideal: real, d: nat)
    requires WholeNumbers(cfg, lo, hi) && lo as real <= ideal <= hi as real && lo <= d <= hi
    ensures lo <= Next(d, ideal) <= hi
    ensures RoundDifficulty(cfg, ClampDifficulty(cfg, Aim(d as real, ideal))) == Next(d, ideal) as real
  {
    var aim := Aim(d as real, ideal);
    RoundKeepsBounds(aim, lo, hi);
    assert Round(4.0 * d as real) == 4 * d;
  }

  lemma AimedAt(cfg: Config, d: real, avg: real, ideal: real)
    requires d > 0.0 && avg > 0.0 && d * (cfg.targetTime / avg) == ideal
    ensures Wanted(cfg, d, avg) == Aim(d, ideal)
  {
    ClampedRatio(d, cfg.targetTime / avg);
  }

  lemma RetargetIsNext(cfg: Config, lo: nat, hi: nat, pace: real, ideal: real, d: nat, avg: real)
    requires WholeNumbers(cfg, lo, hi) && Paced(cfg, lo, hi, pace, ideal) && lo <= d <= hi
    requires avg == d as real * pace
    ensures avg > 0.0
    ensures lo <= Next(d, ideal) <= hi
    ensures Retargeted(cfg, d as real, avg) == Next(d, ideal) as real
  {
    RatioToIdeal(d as real, pace, ideal, cfg.targetTime);
    AimedAt(cfg, d as real, avg, ideal);
    RoundedAim(cfg, lo, hi, ideal, d);
  }

  /** Every retarget stays in bounds and ends no further from the ideal than it began; strictly nearer unless the ideal
      lies half way between the two. */
  lemma MovesTowardsIdeal(cfg: Config, lo: nat, hi: nat, pace: real, ideal: real, d: nat)
    requires WholeNumbers(cfg, lo, hi) && Paced(cfg, lo, hi, pace, ideal) && lo <= d <= hi
    requires d as real * pace > 0.0
    ensures var n := Retargeted(cfg, d as real, d as real * pace);
            && cfg.minDiff <= n <= cfg.maxDiff
            && Abs(n - ideal) <= Abs(d as real - ideal)
            && (n != d as real ==> Abs(n - ideal) < Abs(d as real - ideal) || n + d as real == 2.0 * ideal)
  {
    RetargetIsNext(cfg, lo, hi, pace, ideal, d, d as real * pace);
    RoundIsNearest(ideal, d);
  }

  lemma RoundIsNearest(x: real, d: nat)
    requires x >= 0.0
    ensures Abs(Round(x) as real - x) <= 0.5
    ensures Round(x) != d ==> Abs(Round(x) as real - x) < Abs(d as real - x) || Round(x) as real + d as real == 2.0 * x
  {
  }

  // ---- Runs ----

  datatype Event = Share(time: real) | Delivered(time: real)

  /** A share comes one interval after the share before it in the window. */
  predicate Timely(s: State, e: Event, pace: real) {
    e.Share? && s.shareTimes != [] ==> e.time == s.shareTimes[|s.shareTimes| - 1] + s.currentDiff * pace
  }

  function After(cfg: Config, s: State, e: Event): State
    requires cfg.Valid()
  {
    match e
    case Share(now) => Recorded(cfg, s, now).state
    case Delivered(now) => State(s.currentDiff, [], now)
  }

  predicate Adjusts(cfg: Config, s: State, e: Event)
    requires cfg.Valid()
  {
    e.Share? && Recorded(cfg, s, e.time).result.Adjusted?
  }

  predicate SteadyRun(cfg: Config, s: State, run: seq<Event>, pace: real)
    requires cfg.Valid()
    decreases |run|
  {
    run == [] || (Timely(s, run[0], pace) && SteadyRun(cfg, After(cfg, s, run[0]), run[1..], pace))
  }

  function Adjustments(cfg: Config, s: State, run: seq<Event>): nat
    requires cfg.Valid()
    decreases |run|
  {
    if run == [] then 0
    else (if Adjusts(cfg, s, run[0]) then 1 else 0) + Adjustments(cfg, After(cfg, s, run[0]), run[1..])
  }

  predicate EvenlySpaced(times: seq<real>, gap: real) {
    forall i :: 0 <= i < |times| - 1 ==> times[i + 1] - times[i] == gap
  }

  lemma {:induction false} EvenSpan(times: seq<real>, gap: real)
    requires times != [] && EvenlySpaced(times, gap)
    ensures times[|times| - 1] - times[0] == (|times| - 1) as real * gap
  {
    if |times| > 1 {
      var front := times[..|times| - 1];
      EvenSpan(front, gap);
      var n := |times| - 2;
      assert times[n + 1] - times[n] == gap;
      assert (n + 1) as real * gap == n as real * gap + gap;
    }
  }

  lemma Shares(n: nat, gap: real, span: real)
    requires n > 0 && span == n as real * gap
    ensures span / n as real == gap
  {
    var q := span / n as real;
    assert q * n as real == span;
    assert (q - gap) * n as real == 0.0;
  }

  lemma EvenAverage(times: seq<real>, gap: real)
    requires |times| >= 2 && EvenlySpaced(times, gap)
    ensures Average(times) == gap
  {
    var n, span := |times| - 1, times[|times| - 1] - times[0];
    EvenSpan(times, gap);
    assert span == n as real * gap;
    Shares(n, gap, span);
    assert Average(times) == span / n as real;
  }

  lemma WindowEven(s: State, now: real, gap: real)
    requires EvenlySpaced(s.shareTimes, gap)
    requires s.shareTimes != [] ==> now == s.shareTimes[|s.shareTimes| - 1] + gap
    ensures EvenlySpaced(Window(s.shareTimes, now), gap)
  {
    var all, w := s.shareTimes + [now], Window(s.shareTimes, now);
    var cut := |all| - |w|;
    forall i | 0 <= i < |w| - 1
      ensures w[i + 1] - w[i] == gap
    {
      assert w[i] == all[i + cut] && w[i + 1] == all[i + cut + 1];
    }
  }

  predicate InRange(s: State, lo: nat, hi: nat, pace: real, d: nat) {
    lo <= d <= hi && s.currentDiff == d as real && (s.shareTimes == [] || EvenlySpaced(s.shareTimes, d as real * pace))
  }

  lemma SteadyShare(cfg: Config, s: State, now: real, gap: real)
    requires cfg.Valid() && EvenlySpaced(s.shareTimes, gap) && gap > 0.0
    requires s.shareTimes != [] ==> now == s.shareTimes[|s.shareTimes| - 1] + gap
    ensures var o := Recorded(cfg, s, now);
            if o.result.Adjusted? then
              && o.state.currentDiff == o.result.newDiff == Retargeted(cfg, s.currentDiff, gap)
              && !Negligible(s.currentDiff, o.result.newDiff)
              && o.state.shareTimes == []
            else
              o.state.currentDiff == s.currentDiff && EvenlySpaced(o.state.shareTimes, gap)
  {
    var window := Window(s.shareTimes, now);
    WindowEven(s, now, gap);
    if |window| >= 2 {
      EvenAverage(window, gap);
    }
  }

  /** One event of a steady run: the difficulty stays, or an adjustment takes it to the next one. */
  lemma SteadyStep(cfg: Config, lo: nat, hi: nat, pace: real, ideal: real, s: State, d: nat, e: Event) returns (d': nat)
    requires WholeNumbers(cfg, lo, hi) && Paced(cfg, lo, hi, pace, ideal)
    requires InRange(s, lo, hi, pace, d) && Timely(s, e, pace)
    ensures InRange(After(cfg, s, e), lo, hi, pace, d')
    ensures d' == if Adjusts(cfg, s, e) then Next(d, ideal) else d
    ensures Adjusts(cfg, s, e) ==> d' != d
  {
    d' := d;
    if e.Share? {
      SteadyShareNext(cfg, lo, hi, pace, ideal, s, d, e.time, d as real * pace);
      if Adjusts(cfg, s, e) {
        d' := Next(d, ideal);
      }
    }
  }

  lemma SteadyShareNext(cfg: Config, lo: nat, hi: nat, pace: real, ideal: real, s: State, d: nat, now: real, gap: real)
    requires WholeNumbers(cfg, lo, hi) && Paced(cfg, lo, hi, pace, ideal)
    requires lo <= d <= hi && s.currentDiff == d as real && gap == d as real * pace
    requires EvenlySpaced(s.shareTimes, gap)
    requires s.shareTimes != [] ==> now == s.shareTimes[|s.shareTimes| - 1] + gap
    ensures var o := Recorded(cfg, s, now);
            if o.result.Adjusted? then
              && lo <= Next(d, ideal) <= hi && Next(d, ideal) != d
              && o.state.currentDiff == Next(d, ideal) as real
              && o.state.shareTimes == []
            else
              o.state.currentDiff == s.currentDiff && EvenlySpaced(o.state.shareTimes, gap)
  {
    RetargetIsNext(cfg, lo, hi, pace, ideal, d, gap);
    SteadyShare(cfg, s, now, gap);
    NoChange(s.currentDiff);
  }

  lemma NoChange(d: real)
    requires d > 0.0
    ensures Negligible(d, d)
  {
  }

  /** x doubled n times. */
  function Doubled(x: real, n: nat): real {
    if n == 0 then x else 2.0 * Doubled(x, n - 1)
  }

  /** The ratio between a difficulty and the ideal allows for `n` adjustments. */
  predicate Allows(d: nat, ideal: real, n: nat) {
    && (d == Round(ideal) ==> n == 0)
    && (n >= 2 ==> Doubled(d as real, n - 1) <= ideal || Doubled(ideal, n - 1) <= d as real)
  }

  lemma {:induction false} DoubledGrows(x: real, n: nat)
    requires x >= 0.0
    ensures Doubled(x, n) >= x
    ensures n >= 1 ==> Doubled(x, n) >= 2.0 * x
  {
    if n > 0 {
      DoubledGrows(x, n - 1);
    }
  }

  lemma {:induction false} DoubledScales(x: real, n: nat)
    ensures Doubled(4.0 * x, n) == 4.0 * Doubled(x, n)
  {
    if n > 0 {
      DoubledScales(x, n - 1);
    }
  }

  /** One more clamped step upwards in front. */
  lemma OneMoreUp(d: nat, ideal: real, n: nat)
    requires d >= 1 && n >= 1 && ideal > 4.0 * d as real
    requires Allows(4 * d, ideal, n)
    ensures Doubled(d as real, n) <= ideal
  {
    assert (4 * d) as real == 4.0 * d as real;
    DoubledScales(d as real, n - 1);
    DoubledGrows(ideal, n - 1);
    DoubledGrows(d as real, n - 1);
  }

  /** One more clamped step downwards in front: rounding a quarter still at least halves. */
  lemma OneMoreDown(d: nat, next: nat, ideal: real, n: nat)
    requires n >= 1 && 1.0 <= ideal < d as real / 4.0 && next == Round(d as real / 4.0)
    requires Allows(next, ideal, n)
    ensures Doubled(ideal, n) <= d as real
  {
    DoubledGrows(next as real, n - 1);
  }

  lemma OneMore(d: nat, ideal: real, n: nat)
    requires d >= 1 && ideal >= 1.0 && Next(d, ideal) >= 0 && Next(d, ideal) != d
    requires Allows(Next(d, ideal), ideal, n)
    ensures Allows(d, ideal, n + 1)
  {
    RoundIsNearest(ideal, d);
    if n >= 1 {
      if ideal > 4.0 * d as real {
        OneMoreUp(d, ideal, n);
      } else {
        OneMoreDown(d, Next(d, ideal), ideal, n);
      }
    }
  }

  /** In every steady run the number n > 1 of adjustments satisfies 2^(n - 1) <= ideal / start or start / ideal, and there
      is none at all from the difficulty nearest the ideal: a miner of constant speed settles. */
  lemma {:induction false} Settles(cfg: Config, lo: nat, hi: nat, pace: real, ideal: real, s: State, d: nat,
                                   run: seq<Event>)
    requires WholeNumbers(cfg, lo, hi) && Paced(cfg, lo, hi, pace, ideal)
    requires InRange(s, lo, hi, pace, d) && SteadyRun(cfg, s, run, pace)
    ensures Allows(d, ideal, Adjustments(cfg, s, run))
    decreases |run|
  {
    if run != [] {
      var d' := SteadyStep(cfg, lo, hi, pace, ideal, s, d, run[0]);
      Settles(cfg, lo, hi, pace, ideal, After(cfg, s, run[0]), d', run[1..]);
      if Adjusts(cfg, s, run[0]) {
        OneMore(d, ideal, Adjustments(cfg, After(cfg, s, run[0]), run[1..]));
      }
    }
  }
}
