// Jobs a V1 session sends without putting them on record: after a difficulty change mid-block, and on authorizing.
module V1Resends {
  import opened Bytes
  import opened Hex
  import opened Merkle
  import opened ShareHeader
  import opened Target
  import opened V1Session
  import opened V1Runs
  import opened V1Refusals
  import VarDiff

  /** Every share meeting the present difficulty is accepted for a job in every continuation; one in which a job that is on record
      is forgotten does not count. */
  ghost predicate Covered(server: ServerConfig, s: SessionState, jobID: string, lowDiffGrace: real)
    requires s.Valid()
  {
    forall run: seq<Event>, hash: Hash, now: real ::
      (jobID in s.jobDiff ==> TrackedAlong(server, s, run, jobID)) && V1MeetsDifficulty(hash, s.difficulty) ==>
        Accepts(After(server, s, run), jobID, hash, lowDiffGrace, now)
  }

  /** The largest hash that meets a difficulty. */
  function Reach(difficulty: real): nat {
    var target := V1DifficultyToTarget(difficulty);
    if target < Pow256(32) then target else Pow256(32) - 1
  }

  lemma MeetsIffReached(hash: Hash, difficulty: real)
    ensures V1MeetsDifficulty(hash, difficulty) <==> HashNumber(hash) <= Reach(difficulty)
  {
    FromBEReverse(hash);
    FromLEBound(hash);
  }

  lemma BestHash(difficulty: real) returns (hash: Hash)
    ensures HashNumber(hash) == Reach(difficulty)
  {
    hash := HashOf(Reach(difficulty));
  }

  /** A record no higher than a difficulty reaches as far. */
  lemma LowerReachesFurther(low: real, high: real)
    requires 0.0 < low <= high
    ensures Reach(high) <= Reach(low)
  {
    EasierDifficultyAcceptsMore(V1DifficultyToTarget(high), low, high);
  }

  /** The job is on record at a difficulty whose target is no harder. */
  predicate RecordReaches(s: SessionState, jobID: string, difficulty: real) {
    jobID in s.jobDiff && Reach(difficulty) <= Reach(s.jobDiff[jobID])
  }

  /** The hardest target a miner can ask for in its password: none at all without a controller, and else its upper bound's. */
  function HardestAsked(cfg: Option<VarDiff.Config>): nat {
    match cfg
    case None => 0
    case Some(cfg) => V1DifficultyToTarget(cfg.maxDiff)
  }

  /** The miner may ask for a difficulty harder than this one. */
  predicate RoomToRaise(cfg: Option<VarDiff.Config>, difficulty: real) {
    HardestAsked(cfg) < Reach(difficulty)
  }

  function Hardest(cfg: Option<VarDiff.Config>): real {
    match cfg
    case None => (DIFF1 + 1) as real
    case Some(cfg) => cfg.maxDiff
  }

  lemma HardestIsAsked(server: ServerConfig, s: SessionState)
    requires Configured(server, ConfigOf(s))
    ensures ClampToBounds(s, Hardest(ConfigOf(s))) == Hardest(ConfigOf(s)) > 0.0
    ensures V1DifficultyToTarget(Hardest(ConfigOf(s))) == HardestAsked(ConfigOf(s))
  {
    if s.vardiff.None? {
      WithinQuotient(1, DIFF1, (DIFF1 + 1) as real);
    }
  }

  /** Authorizing again puts that difficulty in force and leaves the record alone. */
  lemma Raised(server: ServerConfig, s: SessionState, jobID: string, at: real) returns (run: seq<Event>)
    requires s.Valid() && Configured(server, ConfigOf(s))
    ensures jobID in s.jobDiff ==> TrackedAlong(server, s, run, jobID)
    ensures var t := After(server, s, run);
            t.jobDiff == s.jobDiff && t.difficulty == Hardest(ConfigOf(s)) && t.diffChangedAt == at
  {
    HardestIsAsked(server, s);
    run := [Authorize(Some(Hardest(ConfigOf(s))), None, at)];
    assert run[1..] == [];
  }

  /** A raise by authorizing again, at any time, refuses the best hash the record does not reach once the grace is over. */
  lemma RaiseRefuses(server: ServerConfig, s: SessionState, jobID: string, lowDiffGrace: real, at: real)
    requires Inv(server, s) && RoomToRaise(ConfigOf(s), s.difficulty) && !RecordReaches(s, jobID, s.difficulty)
    ensures !Covered(server, s, jobID, lowDiffGrace)
  {
    var hash := BestHash(s.difficulty);
    var now := at + VarDiff.Abs(lowDiffGrace) + 1.0;
    HardestIsAsked(server, s);
    var run := Raised(server, s, jobID, at);
    RaisedRefuses(s, After(server, s, run), jobID, hash, lowDiffGrace, at, now);
    MeetsIffReached(hash, s.difficulty);
    NotCovered(server, s, run, jobID, hash, lowDiffGrace, now);
  }

  lemma NotCovered(server: ServerConfig, s: SessionState, run: seq<Event>, jobID: string, hash: Hash, lowDiffGrace: real,
                   now: real)
    requires s.Valid() && (jobID in s.jobDiff ==> TrackedAlong(server, s, run, jobID)) && V1MeetsDifficulty(hash, s.difficulty)
    requires !Accepts(After(server, s, run), jobID, hash, lowDiffGrace, now)
    ensures !Covered(server, s, jobID, lowDiffGrace)
  {
  }

  lemma RaisedRefuses(s: SessionState, t: SessionState, jobID: string, hash: Hash, lowDiffGrace: real, at: real, now: real)
    requires t.jobDiff == s.jobDiff && t.diffChangedAt == at && now == at + VarDiff.Abs(lowDiffGrace) + 1.0
    requires HashNumber(hash) == Reach(s.difficulty) > Reach(t.difficulty) && !RecordReaches(s, jobID, s.difficulty)
    ensures !Accepts(t, jobID, hash, lowDiffGrace, now)
  {
    MeetsIffReached(hash, t.difficulty);
    if jobID in s.jobDiff {
      MeetsIffReached(hash, s.jobDiff[jobID]);
    }
  }

  /** A job sent without being put on record is covered exactly when it is on record already, at a difficulty no harder. */
  lemma CoveredIff(server: ServerConfig, s: SessionState, jobID: string, lowDiffGrace: real, at: real)
    requires Inv(server, s) && NothingDelivered(server, ConfigOf(s)) && RoomToRaise(ConfigOf(s), s.difficulty)
    ensures Covered(server, s, jobID, lowDiffGrace) <==> RecordReaches(s, jobID, s.difficulty)
  {
    if RecordReaches(s, jobID, s.difficulty) {
      forall run: seq<Event>, hash: Hash, now: real |
        (jobID in s.jobDiff ==> TrackedAlong(server, s, run, jobID)) && V1MeetsDifficulty(hash, s.difficulty)
        ensures Accepts(After(server, s, run), jobID, hash, lowDiffGrace, now)
      {
        MeetsIffReached(hash, s.difficulty);
        MeetsIffReached(hash, s.jobDiff[jobID]);
        RecordCovers(server, s, run, jobID, hash, lowDiffGrace, now);
      }
    } else {
      RaiseRefuses(server, s, jobID, lowDiffGrace, at);
    }
  }

  /** Without a controller a miner may ask for anything, and only a difficulty that no hash but zero meets needs no record. */
  lemma CoveredWithoutController(server: ServerConfig, s: SessionState, jobID: string, lowDiffGrace: real, at: real)
    requires Inv(server, s) && s.vardiff.None?
    ensures Covered(server, s, jobID, lowDiffGrace) <==> RecordReaches(s, jobID, s.difficulty) || Reach(s.difficulty) == 0
  {
    if Reach(s.difficulty) == 0 {
      forall run: seq<Event>, hash: Hash, now: real | V1MeetsDifficulty(hash, s.difficulty)
        ensures Accepts(After(server, s, run), jobID, hash, lowDiffGrace, now)
      {
        MeetsIffReached(hash, s.difficulty);
        MeetsIffReached(hash, After(server, s, run).difficulty);
      }
    } else {
      CoveredIff(server, s, jobID, lowDiffGrace, at);
    }
  }

  /** A job sent again mid-block. */
  lemma MidBlockCoveredIff(server: ServerConfig, s: SessionState, d: real, jobID: string, now: real, lowDiffGrace: real)
    requires Configured(server, ConfigOf(s)) && Registered(s) && NothingDelivered(server, ConfigOf(s)) && Positive(s)
    requires d > 0.0 && RoomToRaise(ConfigOf(s), d)
    ensures Covered(server, MidBlock(s, d, Some(jobID), now), jobID, lowDiffGrace) <==> RecordReaches(s, jobID, d)
  {
    MidBlockInv(server, s, d, Some(jobID), now);
    CoveredIff(server, MidBlock(s, d, Some(jobID), now), jobID, lowDiffGrace, now);
  }

  /** The job sent on authorizing. */
  lemma AuthorizeCoveredIff(server: ServerConfig, s: SessionState, password: Option<real>, jobID: string, now: real,
                            lowDiffGrace: real)
    requires Inv(server, s) && NothingDelivered(server, ConfigOf(s))
    requires RoomToRaise(ConfigOf(s), AfterPassword(s, password, now).difficulty)
    ensures Covered(server, AfterAuthorize(s, password, Some(jobID), now), jobID, lowDiffGrace)
       <==> RecordReaches(s, jobID, AfterPassword(s, password, now).difficulty)
  {
    AuthorizeInv(server, s, password, Some(jobID), now);
    CoveredIff(server, AfterAuthorize(s, password, Some(jobID), now), jobID, lowDiffGrace, now);
  }

  /** So a miner's first authorize always leaves its first job uncovered: nothing is on record yet. */
  lemma FirstJobUncovered(server: ServerConfig, cfg: Option<VarDiff.Config>, start: real, password: Option<real>, jobID: string,
                          now: real, lowDiffGrace: real)
    requires Configured(server, cfg) && NothingDelivered(server, cfg)
    requires RoomToRaise(cfg, AfterPassword(NewSession(server, cfg, start), password, now).difficulty)
    ensures !Covered(server, AfterAuthorize(NewSession(server, cfg, start), password, Some(jobID), now), jobID, lowDiffGrace)
  {
    AuthorizeCoveredIff(server, NewSession(server, cfg, start), password, jobID, now, lowDiffGrace);
  }
}
