// When the controller of an SV2 channel can come to believe another difficulty than the one its shares are judged by.
module Sv2Agreement {
  import opened Bytes
  import opened Hex
  import opened LaneStore
  import opened Merkle
  import opened ShareHeader
  import opened Target
  import opened Channel
  import opened Sv2Session
  import opened Sv2Protocol
  import opened Sv2Runs
  import Sv2Difficulty
  import VarDiff

  /** A waiting change is the controller's, and with none waiting the controller's difficulty is the one shares are judged by. */
  predicate Agrees(c: ChannelState) {
    c.vardiff.Some? ==> c.vardiff.value.state.currentDiff == if c.pendingDiff > 0.0 then c.pendingDiff else c.poolDifficulty
  }

  predicate AllAgree(s: SessionState) {
    forall id :: id in s.lanes ==> Agrees(s.lanes[id].channel)
  }

  /** Every channel is opened under the one configuration. */
  predicate OpensWith(cfg: VarDiff.Config, run: seq<Event>) {
    forall i :: 0 <= i < |run| && run[i].Open? ==> run[i].request.cfg == Some(cfg)
  }

  ghost predicate AlwaysAgrees(sha: Sha256d, feed: Feed, cfg: VarDiff.Config) {
    forall run: seq<Event> :: PossibleRun(RulesOf(sha), feed, NEW_SESSION, run) && OpensWith(cfg, run) ==>
      AllAgree(After(RulesOf(sha), feed, NEW_SESSION, run))
  }

  // ---- A run to a controller at nothing ----

  /** A standard channel that starts at the smallest bounded difficulty. */
  function Request(cfg: VarDiff.Config): OpenRequest {
    OpenRequest(1, false, [], 0, Some(cfg), VarDiff.Tiny(cfg))
  }

  function RequestInfo(sha: Sha256d, feed: Feed, cfg: VarDiff.Config): ChannelInfo {
    InfoOf(RulesOf(sha), Request(cfg), false, Some(feed(1)))
  }

  /** A share for the first job on that channel that meets difficulty 1. */
  predicate MeetsOne(sha: Sha256d, feed: Feed, cfg: VarDiff.Config, share: Share) {
    && share.channelID == 1 && share.jobID == 1
    && HashNumber(ShareHash(sha, RequestInfo(sha, feed, cfg), feed(1), share)) <= DIFF1
  }

  ghost predicate Measuring(sha: Sha256d, feed: Feed, s: SessionState, cfg: VarDiff.Config, times: seq<real>) {
    && s.Valid() && 1 in s.lanes && Stored(s.templates, 1, 1) && s.templates[1][1] == feed(1)
    && var c := s.lanes[1].channel;
       && c.info == RequestInfo(sha, feed, cfg) && c.currentJobID == 1
       && c.poolDifficulty == VarDiff.Tiny(cfg) && c.pendingDiff == 0.0
       && c.poolTarget == Sv2DifficultyToTarget(VarDiff.Tiny(cfg))
       && c.vardiff == Some(Tracker(cfg, VarDiff.State(VarDiff.Tiny(cfg), times, 0.0)))
  }

  lemma OpenMeasures(sha: Sha256d, feed: Feed, cfg: VarDiff.Config)
    requires Numbered(feed) && cfg.Valid() && 0.0 < VarDiff.Tiny(cfg)
    ensures Proper(Request(cfg))
    ensures Measuring(sha, feed, Opened(RulesOf(sha), NEW_SESSION, Request(cfg), false, Some(feed(1)), None, 0.0), cfg, [])
  {
    var rules := RulesOf(sha);
    var c := OpenedChannel(rules, Request(cfg), false, Some(feed(1)), None, 0.0);
    var d := FirstWorkSent(rules, c, feed(1), 0.0);
    assert d.stored == feed(1);
  }

  lemma Hits(sha: Sha256d, feed: Feed, s: SessionState, cfg: VarDiff.Config, times: seq<real>, share: Share, now: real)
    requires Measuring(sha, feed, s, cfg, times) && MeetsOne(sha, feed, cfg, share) && 0.0 < VarDiff.Tiny(cfg) <= 0.5
    ensures Judged(RulesOf(sha), s, share, false, 0.0, now) == ShareAccepted
  {
    EasierAtOnce(VarDiff.Tiny(cfg));
  }

  lemma EasierAtOnce(d: real)
    requires 0.0 < d <= 0.5
    ensures DIFF1 <= Sv2DifficultyToTarget(d)
  {
    WithinQuotient(DIFF1, DIFF1, d);
    AtMostWhole(DIFF1, d);
  }

  lemma AtMostWhole(n: nat, d: real)
    requires 0.0 < d <= 0.5
    ensures n as real * d <= n as real
  {
    VarDiff.NotNegative(n as real, 1.0 - d);
    VarDiff.Distribute(1.0, d, n as real);
  }

  lemma EarlySubmit(sha: Sha256d, feed: Feed, s: SessionState, cfg: VarDiff.Config, times: seq<real>, share: Share, now: real)
    requires Measuring(sha, feed, s, cfg, times) && MeetsOne(sha, feed, cfg, share) && 0.0 < VarDiff.Tiny(cfg) <= 0.5
    requires |times| < 3
    ensures Measuring(sha, feed, Submitted(RulesOf(sha), s, share, false, 0.0, now), cfg, times + [now])
  {
    Hits(sha, feed, s, cfg, times, share, now);
    VarDiff.EarlyShare(cfg, s.lanes[1].channel.vardiff.value.state, now);
  }

  function SlowTimes(cfg: VarDiff.Config): seq<real>
    requires cfg.Valid()
  {
    [VarDiff.SlowTime(cfg, 0), VarDiff.SlowTime(cfg, 1), VarDiff.SlowTime(cfg, 2)]
  }

  /** The controller is at nothing, which is never delivered, and the channel where it was. */
  lemma FourthSubmit(sha: Sha256d, feed: Feed, s: SessionState, cfg: VarDiff.Config, share: Share)
    requires cfg.Valid() && 0.0 < cfg.minDiff < cfg.maxDiff && !VarDiff.NeverRoundsToZero(cfg)
    requires Measuring(sha, feed, s, cfg, SlowTimes(cfg)) && MeetsOne(sha, feed, cfg, share)
    ensures !AllAgree(Submitted(RulesOf(sha), s, share, false, 0.0, VarDiff.SlowTime(cfg, 3)))
  {
    VarDiff.TinyIsTiny(cfg);
    Hits(sha, feed, s, cfg, SlowTimes(cfg), share, VarDiff.SlowTime(cfg, 3));
    VarDiff.FourthSlowShare(cfg);
    var t := Submitted(RulesOf(sha), s, share, false, 0.0, VarDiff.SlowTime(cfg, 3));
    assert 1 in t.lanes && !Agrees(t.lanes[1].channel);
  }

  lemma {:induction false} OneMore(rules: Rules, feed: Feed, s: SessionState, run: seq<Event>, e: Event)
    requires s.Valid() && PossibleRun(rules, feed, s, run) && Possible(After(rules, feed, s, run), e)
    ensures PossibleRun(rules, feed, s, run + [e])
    ensures After(rules, feed, s, run + [e]) == Step(rules, feed, After(rules, feed, s, run), e)
    decreases |run|
  {
    if run == [] {
      assert run + [e] == [e] && [e][1..] == [];
    } else {
      assert (run + [e])[1..] == run[1..] + [e];
      OneMore(rules, feed, Step(rules, feed, s, run[0]), run[1..], e);
    }
  }

  /** A run that measures, and one share more. */
  ghost predicate Measured(sha: Sha256d, feed: Feed, cfg: VarDiff.Config, run: seq<Event>, times: seq<real>) {
    && PossibleRun(RulesOf(sha), feed, NEW_SESSION, run) && OpensWith(cfg, run)
    && Measuring(sha, feed, After(RulesOf(sha), feed, NEW_SESSION, run), cfg, times)
  }

  lemma Opening(sha: Sha256d, feed: Feed, cfg: VarDiff.Config) returns (run: seq<Event>)
    requires Numbered(feed) && cfg.Valid() && 0.0 < VarDiff.Tiny(cfg)
    ensures Measured(sha, feed, cfg, run, [])
  {
    OpenMeasures(sha, feed, cfg);
    var e := Open(Request(cfg), false, Some(1), None, 0.0);
    OneMore(RulesOf(sha), feed, NEW_SESSION, [], e);
    run := [] + [e];
  }

  lemma Submitting(sha: Sha256d, feed: Feed, cfg: VarDiff.Config, run: seq<Event>, times: seq<real>, share: Share, now: real)
    requires Measured(sha, feed, cfg, run, times) && MeetsOne(sha, feed, cfg, share) && 0.0 < VarDiff.Tiny(cfg) <= 0.5
    requires |times| < 3
    ensures Measured(sha, feed, cfg, run + [Submit(share, false, 0.0, now)], times + [now])
  {
    OneMore(RulesOf(sha), feed, NEW_SESSION, run, Submit(share, false, 0.0, now));
    EarlySubmit(sha, feed, After(RulesOf(sha), feed, NEW_SESSION, run), cfg, times, share, now);
  }

  /** A channel opened at the smallest bounded difficulty, and four slow shares. */
  lemma ZeroDisagrees(sha: Sha256d, feed: Feed, cfg: VarDiff.Config, share: Share) returns (run: seq<Event>)
    requires Numbered(feed) && cfg.Valid() && 0.0 < cfg.minDiff < cfg.maxDiff && MeetsOne(sha, feed, cfg, share)
    requires !VarDiff.NeverRoundsToZero(cfg)
    ensures PossibleRun(RulesOf(sha), feed, NEW_SESSION, run) && OpensWith(cfg, run)
    ensures !AllAgree(After(RulesOf(sha), feed, NEW_SESSION, run))
  {
    VarDiff.TinyIsTiny(cfg);
    var t0, t1, t2 := VarDiff.SlowTime(cfg, 0), VarDiff.SlowTime(cfg, 1), VarDiff.SlowTime(cfg, 2);
    run := Opening(sha, feed, cfg);
    Submitting(sha, feed, cfg, run, [], share, t0);
    run := run + [Submit(share, false, 0.0, t0)];
    Submitting(sha, feed, cfg, run, [] + [t0], share, t1);
    run := run + [Submit(share, false, 0.0, t1)];
    Submitting(sha, feed, cfg, run, [] + [t0] + [t1], share, t2);
    run := run + [Submit(share, false, 0.0, t2)];
    assert [] + [t0] + [t1] + [t2] == SlowTimes(cfg);
    OneMore(RulesOf(sha), feed, NEW_SESSION, run, Submit(share, false, 0.0, VarDiff.SlowTime(cfg, 3)));
    FourthSubmit(sha, feed, After(RulesOf(sha), feed, NEW_SESSION, run), cfg, share);
    run := run + [Submit(share, false, 0.0, VarDiff.SlowTime(cfg, 3))];
  }

  /** Under a configuration, controllers and channels agree in every run exactly when it never rounds a difficulty to nothing;
      that is, wherever some share can meet difficulty 1 at all. */
  lemma AgreesIff(sha: Sha256d, feed: Feed, cfg: VarDiff.Config, share: Share)
    requires Numbered(feed) && cfg.Valid() && 0.0 < cfg.minDiff < cfg.maxDiff && MeetsOne(sha, feed, cfg, share)
    ensures AlwaysAgrees(sha, feed, cfg) <==> VarDiff.NeverRoundsToZero(cfg)
  {
    if VarDiff.NeverRoundsToZero(cfg) {
      forall run: seq<Event> | PossibleRun(RulesOf(sha), feed, NEW_SESSION, run) && OpensWith(cfg, run)
        ensures AllAgree(After(RulesOf(sha), feed, NEW_SESSION, run))
      {
        Sv2Difficulty.RunSynced(RulesOf(sha), feed, NEW_SESSION, run);
      }
    } else {
      var run := ZeroDisagrees(sha, feed, cfg, share);
    }
  }
}
