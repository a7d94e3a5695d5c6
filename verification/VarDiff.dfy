// The variable-difficulty controller: it watches share times and retargets towards the wanted pace.
module VarDiff {
  const MAX_SHARES := 10
  const MIN_SHARES := 4

  datatype Config = Config(minDiff: real, maxDiff: real, targetTime: real, retargetTime: real, variancePct: real,
                           floatDiff: bool, floatDiffBelowOne: bool, floatPrecision: nat)
  {
    /** The configuration is refused unless the target time is positive. */
    predicate Valid() {
      targetTime > 0.0
    }
  }

  datatype State = State(currentDiff: real, shareTimes: seq<real>, lastRetarget: real)

  datatype Result = MinShares | RetargetWait | WithinVariance | Adjusted(newDiff: real)

  datatype Outcome = Outcome(state: State, result: Result)

  function Abs(x: real): real {
    if x < 0.0 then -x else x
  }

  /** Nearest whole number, halves away from zero. */
  function Round(x: real): int {
    if x >= 0.0 then (x + 0.5).Floor else -(0.5 - x).Floor
  }

  function Pow10(n: nat): (p: real)
    ensures p >= 1.0
  {
    if n == 0 then 1.0 else 10.0 * Pow10(n - 1)
  }

  /** A difficulty in units of the last decimal place. */
  function Scaled(diff: real, unit: real): real {
    diff * unit
  }

  function RoundDifficulty(cfg: Config, diff: real): real {
    if !cfg.floatDiff then
      if Round(diff) < 1 then 1.0 else Round(diff) as real
    else if cfg.floatDiffBelowOne && diff >= 1.0 then Round(diff) as real
    else Round(Scaled(diff, Pow10(cfg.floatPrecision))) as real / Pow10(cfg.floatPrecision)
  }

  function ClampRatio(ratio: real): real {
    if ratio > 4.0 then 4.0 else if ratio < 0.25 then 0.25 else ratio
  }

  /** The minimum is applied first, so with crossed bounds the maximum wins. */
  function ClampDifficulty(cfg: Config, diff: real): real {
    var raised := if diff < cfg.minDiff then cfg.minDiff else diff;
    if raised > cfg.maxDiff then cfg.maxDiff else raised
  }

  function Average(times: seq<real>): real {
    if |times| < 2 then 0.0 else (times[|times| - 1] - times[0]) / (|times| - 1) as real
  }

  /** The difficulty at which shares would come at the target pace, at most four times up or down. */
  function Wanted(cfg: Config, current: real, avg: real): real
    requires avg > 0.0
  {
    current * ClampRatio(cfg.targetTime / avg)
  }

  function Retargeted(cfg: Config, current: real, avg: real): real
    requires avg > 0.0
  {
    RoundDifficulty(cfg, ClampDifficulty(cfg, Wanted(cfg, current, avg)))
  }

  /** A change under 1% is not worth sending; a current difficulty of zero counts as a change. */
  predicate Negligible(current: real, proposed: real) {
    current != 0.0 && Abs(proposed - current) / current < 0.01
  }

  /** What a measured average leads to. */
  function Decision(cfg: Config, current: real, avg: real): (result: Result)
    requires cfg.Valid() && avg > 0.0
    ensures result.Adjusted? ==> result.newDiff == Retargeted(cfg, current, avg) && !Negligible(current, result.newDiff)
  {
    if Abs(avg - cfg.targetTime) / cfg.targetTime <= cfg.variancePct / 100.0 then WithinVariance
    else
      var proposed := Retargeted(cfg, current, avg);
      if Negligible(current, proposed) then WithinVariance else Adjusted(proposed)
  }

  function Window(times: seq<real>, now: real): (w: seq<real>)
    ensures 0 < |w| && w[|w| - 1] == now
  {
    var all := times + [now];
    if |all| > MAX_SHARES then all[1..] else all
  }

  /** One share: the controller's next state and what it decided. */
  function Recorded(cfg: Config, s: State, now: real): Outcome
    requires cfg.Valid()
  {
    var window := Window(s.shareTimes, now);
    var waiting := s.(shareTimes := window);
    if |window| < MIN_SHARES then Outcome(waiting, MinShares)
    else if now - s.lastRetarget < cfg.retargetTime then Outcome(waiting, RetargetWait)
    else if Average(window) <= 0.0 then Outcome(waiting, RetargetWait)
    else
      match Decision(cfg, s.currentDiff, Average(window))
      case Adjusted(newDiff) => Outcome(State(newDiff, [], now), Adjusted(newDiff))
      case _ => Outcome(waiting.(lastRetarget := now), WithinVariance)
  }

  // ---- Proposals that round to nothing ----

  /** With decimals, both bounds are at least half of the last decimal place. */
  predicate NeverRoundsToZero(cfg: Config) {
    var unit := Pow10(cfg.floatPrecision);
    !cfg.floatDiff || (Scaled(cfg.minDiff, unit) >= 0.5 && Scaled(cfg.maxDiff, unit) >= 0.5)
  }

  lemma Scaling(a: real, b: real, p: real)
    requires p > 0.0
    ensures a <= b <==> Scaled(a, p) <= Scaled(b, p)
  {
    if a <= b {
      NotNegative(b - a, p);
      Distribute(b, a, p);
    } else {
      PositiveProduct(a - b, p);
      Distribute(a, b, p);
    }
  }

  lemma Distribute(a: real, b: real, p: real)
    ensures (a - b) * p == a * p - b * p
  {
  }

  lemma PositiveProduct(a: real, b: real)
    requires a > 0.0 && b > 0.0
    ensures a * b > 0.0
  {
  }

  lemma NotNegative(a: real, b: real)
    requires a >= 0.0 && b >= 0.0
    ensures a * b >= 0.0
  {
  }

  lemma QuotientSign(n: real, p: real)
    requires p > 0.0
    ensures n / p > 0.0 <==> n > 0.0
  {
  }

  /** What is left of a difficulty after rounding: nothing exactly when it is below half of the last decimal place. */
  lemma RoundedPositiveIff(cfg: Config, diff: real)
    ensures RoundDifficulty(cfg, diff) > 0.0 <==> !cfg.floatDiff || Scaled(diff, Pow10(cfg.floatPrecision)) >= 0.5
  {
    var p := Pow10(cfg.floatPrecision);
    if cfg.floatDiff && cfg.floatDiffBelowOne && diff >= 1.0 {
      Scaling(1.0, diff, p);
    } else if cfg.floatDiff {
      RoundSign(Scaled(diff, p));
      QuotientSign(Round(Scaled(diff, p)) as real, p);
    }
  }

  lemma RoundSign(x: real)
    ensures Round(x) > 0 <==> x >= 0.5
  {
  }

  lemma ClampedAbove(cfg: Config, diff: real, p: real)
    requires p > 0.0 && Scaled(cfg.minDiff, p) >= 0.5 && Scaled(cfg.maxDiff, p) >= 0.5
    ensures Scaled(ClampDifficulty(cfg, diff), p) >= 0.5
  {
    Scaling(cfg.minDiff, diff, p);
  }

  lemma ClampedBelow(cfg: Config, diff: real, p: real)
    requires p > 0.0 && Scaled(diff, p) < 0.5 && (Scaled(cfg.minDiff, p) < 0.5 || Scaled(cfg.maxDiff, p) < 0.5)
    ensures Scaled(ClampDifficulty(cfg, diff), p) < 0.5
  {
    var raised := if diff < cfg.minDiff then cfg.minDiff else diff;
    Scaling(cfg.maxDiff, raised, p);
  }

  /** With such bounds no proposal is nothing, whatever it is made from. */
  lemma ProposalPositive(cfg: Config, s: State, now: real)
    requires cfg.Valid() && Recorded(cfg, s, now).result.Adjusted? && NeverRoundsToZero(cfg)
    ensures Recorded(cfg, s, now).result.newDiff > 0.0
    ensures Recorded(cfg, s, now).state.currentDiff == Recorded(cfg, s, now).result.newDiff
  {
    var wanted := Wanted(cfg, s.currentDiff, Average(Window(s.shareTimes, now)));
    RoundedPositiveIff(cfg, ClampDifficulty(cfg, wanted));
    if cfg.floatDiff {
      ClampedAbove(cfg, wanted, Pow10(cfg.floatPrecision));
    }
  }

  /** An average so slow that the controller asks for a quarter. */
  function SlowPace(cfg: Config): real {
    cfg.targetTime * (5.0 + Abs(cfg.variancePct) / 100.0)
  }

  lemma SlowPaceIsSlow(cfg: Config)
    requires cfg.Valid()
    ensures SlowPace(cfg) > 0.0 && ClampRatio(cfg.targetTime / SlowPace(cfg)) == 0.25
    ensures Abs(SlowPace(cfg) - cfg.targetTime) / cfg.targetTime > cfg.variancePct / 100.0
  {
    var t, v := cfg.targetTime, Abs(cfg.variancePct) / 100.0;
    NotNegative(t, v);
    assert SlowPace(cfg) == 5.0 * t + t * v;
    QuotientBelow(t, SlowPace(cfg));
    assert SlowPace(cfg) - t == t * (4.0 + v);
    Cancel(t, 4.0 + v);
  }

  lemma QuotientBelow(t: real, g: real)
    requires t > 0.0 && g >= 5.0 * t
    ensures 0.0 < t / g < 0.25
  {
    var q := t / g;
    assert q * g == t;
    Scaling(0.25, q, g);
    QuotientSign(t, g);
  }

  lemma Cancel(t: real, x: real)
    requires t > 0.0
    ensures t * x / t == x
  {
  }

  /** Below half of the last decimal place a slow average leads to nothing, unless both bounds keep it up. */
  lemma SlowRoundsToZero(cfg: Config, d: real)
    requires cfg.Valid() && !NeverRoundsToZero(cfg) && d > 0.0 && Scaled(d, Pow10(cfg.floatPrecision)) < 0.5
    ensures var r := Decision(cfg, d, SlowPaceOf(cfg));
            r.Adjusted? && r.newDiff <= 0.0 && (cfg.minDiff > 0.0 && cfg.maxDiff > 0.0 ==> r.newDiff == 0.0)
  {
    var p := Pow10(cfg.floatPrecision);
    SlowPaceIsSlow(cfg);
    var wanted := Wanted(cfg, d, SlowPaceOf(cfg));
    assert wanted == d * 0.25;
    Scaling(wanted, d, p);
    ClampedBelow(cfg, wanted, p);
    RoundedPositiveIff(cfg, ClampDifficulty(cfg, wanted));
    NotNegligible(d, Retargeted(cfg, d, SlowPaceOf(cfg)));
    if cfg.minDiff > 0.0 && cfg.maxDiff > 0.0 {
      RoundedNotNegative(cfg, ClampDifficulty(cfg, wanted));
    }
  }

  lemma RoundedNotNegative(cfg: Config, diff: real)
    requires diff > 0.0
    ensures RoundDifficulty(cfg, diff) >= 0.0
  {
    var p := Pow10(cfg.floatPrecision);
    NotNegative(diff, p);
    QuotientNotNegative(Round(Scaled(diff, p)) as real, p);
  }

  lemma QuotientNotNegative(n: real, p: real)
    requires n >= 0.0 && p > 0.0
    ensures n / p >= 0.0
  {
  }

  /** A difficulty of 0.4 of the last decimal place. */
  lemma FourTenths(p: real)
    requires p > 0.0
    ensures 0.4 / p > 0.0 && Scaled(0.4 / p, p) == 0.4
  {
    QuotientSign(0.4, p);
  }

  lemma NotNegligible(current: real, proposed: real)
    requires current > 0.0 && proposed <= 0.0
    ensures !Negligible(current, proposed)
  {
    OneOrMore(Abs(proposed - current), current);
  }

  lemma OneOrMore(a: real, c: real)
    requires a >= c > 0.0
    ensures a / c >= 1.0
  {
    var q := a / c;
    assert q * c == a;
    Scaling(1.0, q, c);
  }

  function SlowPaceOf(cfg: Config): (g: real)
    requires cfg.Valid()
    ensures g > 0.0
  {
    SlowPaceIsSlow(cfg);
    SlowPace(cfg)
  }

  /** Every decision to adjust a positive difficulty is for a positive one. */
  ghost predicate ProposalsPositive(cfg: Config)
    requires cfg.Valid()
  {
    forall current: real, avg: real :: current > 0.0 && avg > 0.0 && Decision(cfg, current, avg).Adjusted? ==>
      Decision(cfg, current, avg).newDiff > 0.0
  }

  /** That depends on the mode and the bounds alone. */
  lemma ProposalsPositiveIff(cfg: Config)
    requires cfg.Valid()
    ensures ProposalsPositive(cfg) <==> NeverRoundsToZero(cfg)
  {
    if NeverRoundsToZero(cfg) {
      forall current: real, avg: real | current > 0.0 && avg > 0.0 && Decision(cfg, current, avg).Adjusted?
        ensures Decision(cfg, current, avg).newDiff > 0.0
      {
        var wanted := Wanted(cfg, current, avg);
        RoundedPositiveIff(cfg, ClampDifficulty(cfg, wanted));
        if cfg.floatDiff {
          ClampedAbove(cfg, wanted, Pow10(cfg.floatPrecision));
        }
      }
    } else {
      var p := Pow10(cfg.floatPrecision);
      FourTenths(p);
      SlowRoundsToZero(cfg, 0.4 / p);
      var r := Decision(cfg, 0.4 / p, SlowPaceOf(cfg));
    }
  }

  // ---- Four slow shares ----

  /** The bounded difficulty nearest 0.4 of the last decimal place. */
  function Tiny(cfg: Config): real {
    ClampDifficulty(cfg, 0.4 / Pow10(cfg.floatPrecision))
  }

  /** Positive, below half of the last decimal place, and so below one half. */
  lemma TinyIsTiny(cfg: Config)
    requires 0.0 < cfg.minDiff < cfg.maxDiff && !NeverRoundsToZero(cfg)
    ensures 0.0 < Tiny(cfg) <= 0.5 && Scaled(Tiny(cfg), Pow10(cfg.floatPrecision)) < 0.5
  {
    var p := Pow10(cfg.floatPrecision);
    FourTenths(p);
    ClampedBelow(cfg, 0.4 / p, p);
    Scaling(1.0, p, Tiny(cfg));
    Swap(Tiny(cfg), p);
  }

  lemma Swap(a: real, b: real)
    ensures Scaled(a, b) == Scaled(b, a) && Scaled(1.0, a) == a
  {
  }

  /** Shares a slow pace apart, after the retarget wait. */
  function SlowTime(cfg: Config, i: nat): real
    requires cfg.Valid()
  {
    10.0 + Abs(cfg.retargetTime) + i as real * SlowPaceOf(cfg)
  }

  lemma EarlyShare(cfg: Config, s: State, now: real)
    requires cfg.Valid() && |s.shareTimes| < 3
    ensures Recorded(cfg, s, now) == Outcome(s.(shareTimes := s.shareTimes + [now]), MinShares)
  {
  }

  /** The fourth of them takes the smallest difficulty to nothing. */
  lemma FourthSlowShare(cfg: Config)
    requires cfg.Valid() && 0.0 < cfg.minDiff < cfg.maxDiff && !NeverRoundsToZero(cfg)
    ensures Recorded(cfg, State(Tiny(cfg), [SlowTime(cfg, 0), SlowTime(cfg, 1), SlowTime(cfg, 2)], 0.0), SlowTime(cfg, 3))
         == Outcome(State(0.0, [], SlowTime(cfg, 3)), Adjusted(0.0))
  {
    var times := [SlowTime(cfg, 0), SlowTime(cfg, 1), SlowTime(cfg, 2)];
    var window := Window(times, SlowTime(cfg, 3));
    assert window == [SlowTime(cfg, 0), SlowTime(cfg, 1), SlowTime(cfg, 2), SlowTime(cfg, 3)];
    assert Average(window) == SlowPaceOf(cfg);
    TinyIsTiny(cfg);
    SlowRoundsToZero(cfg, Tiny(cfg));
  }

  class Controller {
    const cfg: Config
    var currentDiff: real
    var shareTimes: seq<real>
    var lastRetarget: real

    function View(): State
      reads this
    {
      State(currentDiff, shareTimes, lastRetarget)
    }

    constructor (cfg: Config, initialDiff: real, now: real)
      ensures this.cfg == cfg && View() == State(initialDiff, [], now)
    {
      this.cfg := cfg;
      currentDiff, shareTimes, lastRetarget := initialDiff, [], now;
    }

    /** Called once a difficulty has been delivered, so that it is measured from a clean start. */
    method ResetWindow(newDiff: real, now: real)
      modifies this
      ensures View() == State(newDiff, [], now)
    {
      currentDiff, shareTimes, lastRetarget := newDiff, [], now;
    }

    method Bound(diff: real) returns (newDiff: real)
      ensures newDiff == ClampDifficulty(cfg, diff)
    {
      newDiff := diff;
      if newDiff < cfg.minDiff {
        newDiff := cfg.minDiff;
      }
      if newDiff > cfg.maxDiff {
        newDiff := cfg.maxDiff;
      }
    }

    method ProposeDifficulty(avgTime: real) returns (newDiff: real)
      requires avgTime > 0.0
      ensures newDiff == Retargeted(cfg, currentDiff, avgTime)
    {
      newDiff := Bound(Wanted(cfg, currentDiff, avgTime));
      newDiff := RoundDifficulty(cfg, newDiff);
    }

    method Decide(avgTime: real) returns (result: Result)
      requires cfg.Valid() && avgTime > 0.0
      ensures result == Decision(cfg, currentDiff, avgTime)
    {
      if Abs(avgTime - cfg.targetTime) / cfg.targetTime <= cfg.variancePct / 100.0 {
        return WithinVariance;
      }
      var newDiff := ProposeDifficulty(avgTime);
      result := if Negligible(currentDiff, newDiff) then WithinVariance else Adjusted(newDiff);
    }

    method RecordShare(now: real) returns (result: Result)
      requires cfg.Valid()
      modifies this
      ensures Outcome(View(), result) == Recorded(cfg, old(View()), now)
    {
      shareTimes := shareTimes + [now];
      if |shareTimes| > MAX_SHARES {
        shareTimes := shareTimes[1..];
      }
      if |shareTimes| < MIN_SHARES {
        return MinShares;
      }
      if now - lastRetarget < cfg.retargetTime {
        return RetargetWait;
      }
      var avgTime := Average(shareTimes);
      if avgTime <= 0.0 {
        return RetargetWait;
      }
      result := Decide(avgTime);
      lastRetarget := now;
      if result.Adjusted? {
        currentDiff, shareTimes := result.newDiff, [];
      }
    }
  }
}
