// When a difficulty that rounds to nothing does harm in a V1 session, and when not.
module V1Refusals {
  import opened Arith
  import opened Bytes
  import opened Hex
  import opened Merkle
  import opened ShareHeader
  import opened Target
  import opened V1Session
  import opened V1Runs
  import VarDiff

  /** In no run is a share refused that meets the difficulty in force when SendJob sent its job, while that job is tracked. */
  ghost predicate NothingRefused(server: ServerConfig, cfg: Option<VarDiff.Config>, lowDiffGrace: real)
    requires Configured(server, cfg)
  {
    forall start: real, before: seq<Event>, jobID: string, clean: bool, sentAt: real, between: seq<Event>, hash: Hash, now: real ::
      (jobID != "" && After(server, NewSession(server, cfg, start), before).authorized
       && V1MeetsDifficulty(hash, SentAfter(server, cfg, start, before, jobID, clean, sentAt).difficulty)
       && TrackedAlong(server, SentAfter(server, cfg, start, before, jobID, clean, sentAt), between, jobID)) ==>
        Accepts(After(server, SentAfter(server, cfg, start, before, jobID, clean, sentAt), between), jobID, hash,
                lowDiffGrace, now)
  }

  /** In every run the controller agrees. */
  ghost predicate AlwaysAgrees(server: ServerConfig, cfg: Option<VarDiff.Config>)
    requires Configured(server, cfg)
  {
    forall start: real, run: seq<Event> :: ControllerAgrees(After(server, NewSession(server, cfg, start), run))
  }

  // ---- A run to a difficulty of nothing ----

  const JOB := "j"

  /** A miner asks for a difficulty of 0.4 of the last decimal place in its password, and is sent a job ten seconds later. */
  function Prelude(cfg: VarDiff.Config): seq<Event> {
    [Authorize(Some(0.4 / VarDiff.Pow10(cfg.floatPrecision)), None, 0.0)]
  }

  /** Four slow shares. */
  function Shares(cfg: VarDiff.Config): seq<Event>
    requires cfg.Valid()
  {
    [Share(None, VarDiff.SlowTime(cfg, 0)), Share(None, VarDiff.SlowTime(cfg, 1)), Share(None, VarDiff.SlowTime(cfg, 2)),
     Share(None, VarDiff.SlowTime(cfg, 3))]
  }

  ghost predicate Ready(s: SessionState, cfg: VarDiff.Config, times: seq<real>) {
    && s.Valid() && s.authorized && s.difficulty == VarDiff.Tiny(cfg) && s.pendingDiff == 0.0
    && s.jobDiff == map[JOB := VarDiff.Tiny(cfg)]
    && s.vardiff == Some(Tracker(cfg, VarDiff.State(VarDiff.Tiny(cfg), times, 0.0)))
  }

  lemma Prepared(server: ServerConfig, cfg: VarDiff.Config)
    requires Configured(server, Some(cfg)) && !VarDiff.NeverRoundsToZero(cfg)
    ensures After(server, NewSession(server, Some(cfg), 0.0), Prelude(cfg)).authorized
    ensures Ready(SentAfter(server, Some(cfg), 0.0, Prelude(cfg), JOB, true, 10.0), cfg, [])
  {
    VarDiff.FourTenths(VarDiff.Pow10(cfg.floatPrecision));
    var s0 := NewSession(server, Some(cfg), 0.0);
    var s1 := Step(server, s0, Prelude(cfg)[0]);
    assert Prelude(cfg)[1..] == [];
    assert After(server, s0, Prelude(cfg)) == s1;
    assert DifficultyOnRecord(s1, 10.0) == VarDiff.Tiny(cfg);
  }

  lemma EarlyShare(server: ServerConfig, s: SessionState, cfg: VarDiff.Config, times: seq<real>, now: real)
    requires Ready(s, cfg, times) && |times| < 3
    ensures Ready(Step(server, s, Share(None, now)), cfg, times + [now])
  {
    VarDiff.EarlyShare(cfg, s.vardiff.value.state, now);
  }

  lemma FourthShare(server: ServerConfig, s: SessionState, cfg: VarDiff.Config)
    requires cfg.Valid() && Ready(s, cfg, [VarDiff.SlowTime(cfg, 0), VarDiff.SlowTime(cfg, 1), VarDiff.SlowTime(cfg, 2)])
    requires 0.0 < cfg.minDiff < cfg.maxDiff && !VarDiff.NeverRoundsToZero(cfg)
    ensures var t := Step(server, s, Share(None, VarDiff.SlowTime(cfg, 3)));
            && t.Valid() && t.jobDiff == s.jobDiff && t.pendingDiff == 0.0
            && t.vardiff.Some? && t.vardiff.value.state.currentDiff == 0.0
            && (if server.vardiffOnNewBlock then t.difficulty == VarDiff.Tiny(cfg)
                else t.difficulty == 0.0 && t.diffChangedAt == VarDiff.SlowTime(cfg, 3))
  {
    VarDiff.FourthSlowShare(cfg);
  }

  /** Where the run ends: on new blocks the zero waits for delivery that never comes, mid-block it is in force. */
  lemma Ends(server: ServerConfig, cfg: VarDiff.Config)
    requires Configured(server, Some(cfg)) && !VarDiff.NeverRoundsToZero(cfg)
    ensures var s := SentAfter(server, Some(cfg), 0.0, Prelude(cfg), JOB, true, 10.0);
            var t := After(server, s, Shares(cfg));
            && s.difficulty == VarDiff.Tiny(cfg) && TrackedAlong(server, s, Shares(cfg), JOB)
            && t.jobDiff == map[JOB := VarDiff.Tiny(cfg)] && t.pendingDiff == 0.0
            && t.vardiff.Some? && t.vardiff.value.state.currentDiff == 0.0
            && (if server.vardiffOnNewBlock then t.difficulty == VarDiff.Tiny(cfg)
                else t.difficulty == 0.0 && t.diffChangedAt == VarDiff.SlowTime(cfg, 3))
  {
    Prepared(server, cfg);
    var s := SentAfter(server, Some(cfg), 0.0, Prelude(cfg), JOB, true, 10.0);
    var t0, t1, t2 := VarDiff.SlowTime(cfg, 0), VarDiff.SlowTime(cfg, 1), VarDiff.SlowTime(cfg, 2);
    var s1 := Step(server, s, Share(None, t0));
    EarlyShare(server, s, cfg, [], t0);
    assert [] + [t0] == [t0] && [t0] + [t1] == [t0, t1] && [t0, t1] + [t2] == [t0, t1, t2];
    var s2 := Step(server, s1, Share(None, t1));
    EarlyShare(server, s1, cfg, [t0], t1);
    var s3 := Step(server, s2, Share(None, t2));
    EarlyShare(server, s2, cfg, [t0, t1], t2);
    FourthShare(server, s3, cfg);
    FourSteps(server, s, Shares(cfg), s1, s2, s3, Step(server, s3, Share(None, VarDiff.SlowTime(cfg, 3))), JOB);
  }

  lemma FourSteps(server: ServerConfig, s: SessionState, run: seq<Event>, s1: SessionState, s2: SessionState,
                  s3: SessionState, s4: SessionState, jobID: string)
    requires |run| == 4 && s.Valid() && s1 == Step(server, s, run[0]) && s2 == Step(server, s1, run[1])
    requires s3 == Step(server, s2, run[2]) && s4 == Step(server, s3, run[3])
    requires jobID in s.jobDiff && jobID in s1.jobDiff && jobID in s2.jobDiff && jobID in s3.jobDiff && jobID in s4.jobDiff
    ensures After(server, s, run) == s4 && TrackedAlong(server, s, run, jobID)
  {
    var r1, r2, r3 := run[1..], run[2..], run[3..];
    assert r1[0] == run[1] && r1[1..] == r2 && r2[0] == run[2] && r2[1..] == r3 && r3[0] == run[3] && r3[1..] == [];
    assert After(server, s3, r3) == s4 && TrackedAlong(server, s3, r3, jobID);
    assert After(server, s2, r2) == s4 && TrackedAlong(server, s2, r2, jobID);
    assert After(server, s1, r1) == s4 && TrackedAlong(server, s1, r1, jobID);
  }

  // ---- A hash in between ----

  lemma BytesOf(n: nat, k: nat) returns (b: seq<byte>)
    requires n < Pow256(k)
    ensures |b| == k && FromBE(Reverse(b)) == n
  {
    b := LE(n, k);
    FromBEReverse(b);
    LERoundTrip(n, k);
    SmallRemainder(n, Pow256(k));
  }

  lemma SmallRemainder(n: nat, p: nat)
    requires n < p
    ensures n % p == n
  {
  }

  lemma HashOf(n: nat) returns (hash: Hash)
    requires n < Pow256(32)
    ensures HashNumber(hash) == n
  {
    hash := BytesOf(n, 32);
  }

  /** Good enough for a difficulty of at most 0.5, not for what a difficulty of nothing is read as. */
  lemma BetweenHash(d: real) returns (hash: Hash)
    requires 0.0 < d <= 0.5
    ensures V1MeetsDifficulty(hash, d) && !V1MeetsDifficulty(hash, 0.0)
  {
    Diff1Fits();
    hash := HashOf(DIFF1 + 1);
    JustAbove(DIFF1, d);
  }

  lemma JustAbove(n: nat, d: real)
    requires n >= 1 && 0.0 < d <= 0.5
    ensures n + 1 <= Quotient(n, d)
  {
    WithinQuotient(n + 1, n, d);
    ScaleRight((n + 1) as real, d, 0.5);
  }

  lemma Diff1Fits()
    ensures 1 <= DIFF1 && DIFF1 + 1 < Pow256(32)
  {
    Sixfold(26);
    assert Pow256(26) >= 1;
  }

  lemma Sixfold(k: nat)
    ensures Pow256(k + 6) >= 0x1_0000_0000_0000 * Pow256(k)
  {
    assert Pow256(k + 1) == 256 * Pow256(k) && Pow256(k + 2) == 256 * Pow256(k + 1) && Pow256(k + 3) == 256 * Pow256(k + 2);
    assert Pow256(k + 4) == 256 * Pow256(k + 3) && Pow256(k + 5) == 256 * Pow256(k + 4) && Pow256(k + 6) == 256 * Pow256(k + 5);
  }

  // ---- The two conditions ----

  /** Mid-block, with decimals, the session's difficulty becomes nothing, which is read as the target of difficulty 1; the record
      of a lower difficulty then no longer counts, and a share good enough for it is refused. */
  lemma ZeroRefuses(server: ServerConfig, cfg: VarDiff.Config, lowDiffGrace: real) returns (hash: Hash, now: real)
    requires Configured(server, Some(cfg)) && !NothingDelivered(server, Some(cfg))
    ensures var s := SentAfter(server, Some(cfg), 0.0, Prelude(cfg), JOB, true, 10.0);
            && After(server, NewSession(server, Some(cfg), 0.0), Prelude(cfg)).authorized
            && V1MeetsDifficulty(hash, s.difficulty) && TrackedAlong(server, s, Shares(cfg), JOB)
            && After(server, s, Shares(cfg)).difficulty == 0.0
            && !Accepts(After(server, s, Shares(cfg)), JOB, hash, lowDiffGrace, now)
  {
    Prepared(server, cfg);
    Ends(server, cfg);
    VarDiff.TinyIsTiny(cfg);
    hash := BetweenHash(VarDiff.Tiny(cfg));
    now := VarDiff.SlowTime(cfg, 3) + VarDiff.Abs(lowDiffGrace) + 1.0;
  }

  /** No share is ever refused so exactly when no difficulty that rounds to nothing is delivered. */
  lemma NeverRefusedIff(server: ServerConfig, cfg: Option<VarDiff.Config>, lowDiffGrace: real)
    requires Configured(server, cfg)
    ensures NothingRefused(server, cfg, lowDiffGrace) <==> NothingDelivered(server, cfg)
  {
    if NothingDelivered(server, cfg) {
      forall start: real, before: seq<Event>, jobID: string, clean: bool, sentAt: real, between: seq<Event>, hash: Hash, now: real |
        jobID != "" && After(server, NewSession(server, cfg, start), before).authorized
        && V1MeetsDifficulty(hash, SentAfter(server, cfg, start, before, jobID, clean, sentAt).difficulty)
        && TrackedAlong(server, SentAfter(server, cfg, start, before, jobID, clean, sentAt), between, jobID)
        ensures Accepts(After(server, SentAfter(server, cfg, start, before, jobID, clean, sentAt), between), jobID, hash,
                        lowDiffGrace, now)
      {
        NeverRefused(server, cfg, start, before, jobID, clean, sentAt, between, hash, lowDiffGrace, now);
      }
    } else {
      var hash, now := ZeroRefuses(server, cfg.value, lowDiffGrace);
    }
  }

  lemma {:induction false} AfterConcat(server: ServerConfig, s: SessionState, a: seq<Event>, b: seq<Event>)
    requires s.Valid()
    ensures After(server, s, a + b) == After(server, After(server, s, a), b)
    decreases |a|
  {
    if a == [] {
      assert a + b == b;
    } else {
      assert (a + b)[1..] == a[1..] + b;
      AfterConcat(server, Step(server, s, a[0]), a[1..], b);
    }
  }

  /** On new blocks the controller is left at nothing while the session keeps its difficulty. */
  lemma ZeroDisagrees(server: ServerConfig, cfg: VarDiff.Config) returns (run: seq<Event>)
    requires Configured(server, Some(cfg)) && !NothingQueued(server, Some(cfg))
    ensures !ControllerAgrees(After(server, NewSession(server, Some(cfg), 0.0), run))
  {
    Ends(server, cfg);
    VarDiff.TinyIsTiny(cfg);
    var s0, send := NewSession(server, Some(cfg), 0.0), SendJob(JOB, true, 10.0);
    run := Prelude(cfg) + ([send] + Shares(cfg));
    AfterConcat(server, s0, Prelude(cfg), [send] + Shares(cfg));
    assert ([send] + Shares(cfg))[1..] == Shares(cfg);
  }

  /** The controller agrees in every run exactly when no difficulty that rounds to nothing is queued. */
  lemma AgreesIff(server: ServerConfig, cfg: Option<VarDiff.Config>)
    requires Configured(server, cfg)
    ensures AlwaysAgrees(server, cfg) <==> NothingQueued(server, cfg)
  {
    if NothingQueued(server, cfg) {
      forall start: real, run: seq<Event>
        ensures ControllerAgrees(After(server, NewSession(server, cfg, start), run))
      {
        DifficultiesAgree(server, cfg, start, run);
      }
    } else {
      var run := ZeroDisagrees(server, cfg.value);
    }
  }
}
