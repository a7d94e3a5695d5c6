// Every run of the controller, shares and restarts at any times: how far apart its adjustments are and what they rest on.
module VarDiffRuns {
  import opened VarDiff

  /** A share, or a restart from a difficulty set from outside. */
  datatype Event = Share(now: real) | Restart(newDiff: real, now: real)

  function After(cfg: Config, s: State, run: seq<Event>): State
    requires cfg.Valid()
    decreases |run|
  {
    if run == [] then s
    else
      var before, last := After(cfg, s, run[..|run| - 1]), run[|run| - 1];
      match last
      case Share(now) => Recorded(cfg, before, now).state
      case Restart(newDiff, now) => State(newDiff, [], now)
  }

  /** What the share at `i` was answered. */
  function Answer(cfg: Config, s: State, run: seq<Event>, i: nat): Result
    requires cfg.Valid() && i < |run| && run[i].Share?
  {
    Recorded(cfg, After(cfg, s, run[..i]), run[i].now).result
  }

  /** The pace was measured: the difficulty was adjusted or found to be right. */
  predicate Measures(cfg: Config, s: State, run: seq<Event>, i: nat)
    requires cfg.Valid() && i < |run|
  {
    run[i].Share? && (Answer(cfg, s, run, i).Adjusted? || Answer(cfg, s, run, i).WithinVariance?)
  }

  predicate Adjusts(cfg: Config, s: State, run: seq<Event>, i: nat)
    requires cfg.Valid() && i < |run|
  {
    run[i].Share? && Answer(cfg, s, run, i).Adjusted?
  }

  /** When the controller last started, was restarted or measured. */
  function LastMeasured(cfg: Config, s: State, run: seq<Event>, start: real, n: nat): real
    requires cfg.Valid() && n <= |run|
  {
    if n == 0 then start
    else if run[n - 1].Restart? || Measures(cfg, s, run, n - 1) then run[n - 1].now
    else LastMeasured(cfg, s, run, start, n - 1)
  }

  /** The times of the shares since the controller last started, was restarted or made an adjustment. */
  function SharesSince(cfg: Config, s: State, run: seq<Event>, n: nat): seq<real>
    requires cfg.Valid() && n <= |run|
  {
    if n == 0 || run[n - 1].Restart? || Adjusts(cfg, s, run, n - 1) then []
    else SharesSince(cfg, s, run, n - 1) + [run[n - 1].now]
  }

  function LastTen(times: seq<real>): seq<real> {
    if |times| > 10 then times[|times| - 10..] else times
  }

  lemma WindowIsLastTen(times: seq<real>, now: real)
    ensures Window(LastTen(times), now) == LastTen(times + [now])
  {
    if |times| > 10 {
      var k := |times| - 10;
      assert (times[k..] + [now])[1..] == times[k + 1..] + [now];
      assert (times + [now])[k + 1..] == times[k + 1..] + [now];
    }
  }

  /** What a share leaves of the controller's memory. */
  lemma MemoryAfter(cfg: Config, s: State, now: real)
    requires cfg.Valid()
    ensures var o := Recorded(cfg, s, now);
            && o.state.shareTimes == (if o.result.Adjusted? then [] else Window(s.shareTimes, now))
            && o.state.lastRetarget == (if o.result.Adjusted? || o.result.WithinVariance? then now else s.lastRetarget)
  {
  }

  lemma AfterNext(cfg: Config, s: State, run: seq<Event>, n: nat)
    requires cfg.Valid() && n < |run|
    ensures After(cfg, s, run[..n + 1])
         == match run[n]
            case Share(now) => Recorded(cfg, After(cfg, s, run[..n]), now).state
            case Restart(newDiff, now) => State(newDiff, [], now)
  {
    assert run[..n + 1][..n] == run[..n];
  }

  ghost predicate KnownState(cfg: Config, s: State, run: seq<Event>, start: real, n: nat)
    requires cfg.Valid() && n <= |run|
  {
    && After(cfg, s, run[..n]).shareTimes == LastTen(SharesSince(cfg, s, run, n))
    && After(cfg, s, run[..n]).lastRetarget == LastMeasured(cfg, s, run, start, n)
  }

  lemma NextKnown(cfg: Config, s: State, run: seq<Event>, start: real, n: nat)
    requires cfg.Valid() && n < |run| && KnownState(cfg, s, run, start, n)
    ensures KnownState(cfg, s, run, start, n + 1)
  {
    AfterNext(cfg, s, run, n);
    if run[n].Share? {
      MemoryAfter(cfg, After(cfg, s, run[..n]), run[n].now);
      WindowIsLastTen(SharesSince(cfg, s, run, n), run[n].now);
    }
  }

  lemma {:induction false} StateInRun(cfg: Config, d: real, start: real, run: seq<Event>, n: nat)
    requires cfg.Valid() && n <= |run|
    ensures KnownState(cfg, State(d, [], start), run, start, n)
  {
    if n > 0 {
      StateInRun(cfg, d, start, run, n - 1);
      NextKnown(cfg, State(d, [], start), run, start, n - 1);
    }
  }

  ghost predicate InTime(run: seq<Event>, start: real) {
    && (forall i :: 0 <= i < |run| ==> start <= run[i].now)
    && (forall i, k :: 0 <= i < k < |run| ==> run[i].now <= run[k].now)
  }

  lemma {:induction false} MeasuredNoEarlier(cfg: Config, s: State, run: seq<Event>, start: real, i: nat, n: nat)
    requires cfg.Valid() && InTime(run, start) && i < n <= |run| && (run[i].Restart? || Measures(cfg, s, run, i))
    ensures run[i].now <= LastMeasured(cfg, s, run, start, n)
    decreases n
  {
    if i < n - 1 && !(run[n - 1].Restart? || Measures(cfg, s, run, n - 1)) {
      MeasuredNoEarlier(cfg, s, run, start, i, n - 1);
    }
  }

  lemma MeasuredFromStart(cfg: Config, s: State, run: seq<Event>, start: real, n: nat)
    requires cfg.Valid() && InTime(run, start) && n <= |run|
    ensures start <= LastMeasured(cfg, s, run, start, n)
  {
  }

  /** In every run, an adjustment comes at least the retarget time after the controller started, after every restart, and after
      every earlier adjustment or measurement that led to none. */
  lemma AdjustmentsApart(cfg: Config, d: real, start: real, run: seq<Event>, i: nat, k: nat)
    requires cfg.Valid() && InTime(run, start) && i < k < |run|
    requires var s := State(d, [], start); (run[i].Restart? || Measures(cfg, s, run, i)) && Measures(cfg, s, run, k)
    ensures run[k].now - run[i].now >= cfg.retargetTime
    ensures run[k].now - start >= cfg.retargetTime
  {
    var s := State(d, [], start);
    StateInRun(cfg, d, start, run, k);
    MeasuredNoEarlier(cfg, s, run, start, i, k);
    MeasuredFromStart(cfg, s, run, start, k);
  }

  /** The mean time between shares. */
  function MeanGap(times: seq<real>): real
    requires |times| >= 2
  {
    (times[|times| - 1] - times[0]) / (|times| - 1) as real
  }

  /** Far enough from the target pace for another difficulty, and one that is not within 1% of the one in force. */
  predicate WorthAdjusting(cfg: Config, current: real, gap: real)
    requires cfg.Valid()
  {
    && gap > 0.0 && Abs(gap - cfg.targetTime) / cfg.targetTime > cfg.variancePct / 100.0
    && (current == 0.0 || Abs(Retargeted(cfg, current, gap) - current) / current >= 0.01)
  }

  lemma MeanIsAverage(times: seq<real>)
    requires |times| >= 2
    ensures Average(times) == MeanGap(times)
  {
  }

  lemma DecidesIff(cfg: Config, current: real, gap: real)
    requires cfg.Valid() && gap > 0.0
    ensures Decision(cfg, current, gap).Adjusted? <==> WorthAdjusting(cfg, current, gap)
  {
  }

  lemma RecordedIff(cfg: Config, s: State, now: real, times: seq<real>, last: real)
    requires cfg.Valid() && Window(s.shareTimes, now) == times && s.lastRetarget == last
    ensures Recorded(cfg, s, now).result.Adjusted? <==>
              |times| >= 4 && now - last >= cfg.retargetTime && WorthAdjusting(cfg, s.currentDiff, MeanGap(times))
  {
    if |times| >= 4 && Average(times) > 0.0 {
      DecidesIff(cfg, s.currentDiff, Average(times));
    }
  }

  /** In every run, a share brings an adjustment exactly when it is at least the fourth since the last adjustment or restart, the
      retarget time has passed since the last measurement, and the mean gap of the last ten of those shares is worth it. */
  lemma AdjustsIff(cfg: Config, d: real, start: real, run: seq<Event>, k: nat)
    requires cfg.Valid() && k < |run| && run[k].Share?
    ensures var s := State(d, [], start);
            var now, times := run[k].now, LastTen(SharesSince(cfg, s, run, k) + [run[k].now]);
            Adjusts(cfg, s, run, k) <==>
              && |times| >= 4 && now - LastMeasured(cfg, s, run, start, k) >= cfg.retargetTime
              && WorthAdjusting(cfg, After(cfg, s, run[..k]).currentDiff, MeanGap(times))
  {
    var s, now := State(d, [], start), run[k].now;
    StateInRun(cfg, d, start, run, k);
    WindowIsLastTen(SharesSince(cfg, s, run, k), now);
    RecordedIff(cfg, After(cfg, s, run[..k]), now, LastTen(SharesSince(cfg, s, run, k) + [now]),
                LastMeasured(cfg, s, run, start, k));
  }

  // ---- The difficulty an adjustment leads to ----

  /** How many parts a difficulty is rounded to. */
  function Places(cfg: Config, diff: real): (p: real)
    ensures p >= 1.0
  {
    if !cfg.floatDiff || (cfg.floatDiffBelowOne && diff >= 1.0) then 1.0 else Pow10(cfg.floatPrecision)
  }

  lemma NearestPart(diff: real, p: real)
    requires p > 0.0 && diff >= 0.0
    ensures var r := Round(Scaled(diff, p)) as real / p;
            Scaled(r, p) == Round(Scaled(diff, p)) as real && Abs(Scaled(r, p) - Scaled(diff, p)) <= 0.5
  {
    NotNegative(diff, p);
  }

  /** A difficulty is rounded to the nearest multiple of its last place: a whole number, but for decimals where those are
      configured. In whole numbers it is never less than one. */
  lemma RoundedNearest(cfg: Config, diff: real)
    requires diff >= 0.0
    ensures var r, p := RoundDifficulty(cfg, diff), Places(cfg, diff);
            && Scaled(r, p) == Scaled(r, p).Floor as real
            && (Abs(Scaled(r, p) - Scaled(diff, p)) <= 0.5 || (!cfg.floatDiff && diff < 0.5 && r == 1.0))
  {
    var p := Pow10(cfg.floatPrecision);
    NearestPart(diff, p);
    WholeFloor(Round(Scaled(diff, p)));
    Swap(diff, 1.0);
  }

  lemma WholeFloor(n: int)
    ensures (n as real).Floor == n
  {
  }

  /** At most four times up or down, and then into the bounds. */
  lemma FourfoldAtMost(cfg: Config, current: real, avg: real)
    requires cfg.Valid() && current > 0.0 && avg > 0.0 && cfg.minDiff <= cfg.maxDiff
    ensures current / 4.0 <= Wanted(cfg, current, avg) <= 4.0 * current
    ensures cfg.minDiff <= ClampDifficulty(cfg, Wanted(cfg, current, avg)) <= cfg.maxDiff
  {
    var r := ClampRatio(cfg.targetTime / avg);
    Scaling(r, 4.0, current);
    Scaling(0.25, r, current);
    Swap(r, current);
    Swap(current, 4.0);
    Swap(current, 0.25);
  }
}
