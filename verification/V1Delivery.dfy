// When a V1 session's difficulty changes: with which job a waiting change goes out, and what later jobs are put on record at.
module V1Delivery {
  import opened Bytes
  import opened Hex
  import opened Merkle
  import opened ShareHeader
  import opened V1Session
  import opened V1Runs
  import VarDiff

  /** A job takes a waiting change with it, the miner being told of it first, exactly when changes are not put off or the job is a
      clean one; otherwise the job goes out alone and the change goes on waiting. */
  lemma DeliveredIff(server: ServerConfig, s: SessionState, jobID: string, clean: bool, now: real)
    requires s.authorized && s.pendingDiff > 0.0
    ensures var s', due := AfterSendJob(server, s, jobID, clean, now), !server.vardiffOnNewBlock || clean;
            && s'.sent == s.sent + (if due then [SetDifficulty(s.pendingDiff), Notify(jobID)] else [Notify(jobID)])
            && s'.difficulty == (if due then s.pendingDiff else s.difficulty)
            && s'.pendingDiff == (if due then 0.0 else s.pendingDiff)
            && s'.prevDiff == (if due then s.difficulty else s.prevDiff)
            && s'.diffChangedAt == (if due then now else s.diffChangedAt)
  {
  }

  // ---- Runs of jobs and shares ----

  predicate JobOrShare(e: Event) {
    e.SendJob? || e.Share?
  }

  predicate CleanJob(e: Event) {
    e.SendJob? && e.clean
  }

  /** What the miner hears of an event when its difficulty stays. */
  function Notices(run: seq<Event>): seq<Note>
    decreases |run|
  {
    if run == [] then [] else NoticesOf(run[0]) + Notices(run[1..])
  }

  function NoticesOf(e: Event): seq<Note> {
    if e.SendJob? then [Notify(e.jobID)] else []
  }

  lemma WaitsOn(server: ServerConfig, s: SessionState, e: Event)
    requires s.Valid() && server.vardiffOnNewBlock && s.authorized && s.pendingDiff > 0.0
    requires JobOrShare(e) && !CleanJob(e)
    ensures var next := Step(server, s, e);
            && next.authorized && next.difficulty == s.difficulty && next.pendingDiff == s.pendingDiff
            && next.sent == s.sent + NoticesOf(e)
  {
    if e.SendJob? {
      DeliveredIff(server, s, e.jobID, e.clean, e.now);
    } else {
      assert s.sent + NoticesOf(e) == s.sent;
    }
  }

  /** A change put off for a clean job waits for it through any number of other jobs and of shares, at the same value, while
      the miner is told of the jobs alone. The clean job then brings it. */
  lemma {:induction false} WaitsForCleanJob(server: ServerConfig, s: SessionState, run: seq<Event>)
    requires s.Valid() && server.vardiffOnNewBlock && s.authorized && s.pendingDiff > 0.0
    requires forall i :: 0 <= i < |run| ==> JobOrShare(run[i]) && !CleanJob(run[i])
    ensures var end := After(server, s, run);
            && end.difficulty == s.difficulty && end.pendingDiff == s.pendingDiff && end.authorized
            && end.sent == s.sent + Notices(run)
    decreases |run|
  {
    if run != [] {
      WaitsOn(server, s, run[0]);
      WaitsForCleanJob(server, Step(server, s, run[0]), run[1..]);
      Assoc(s.sent, NoticesOf(run[0]), Notices(run[1..]));
    } else {
      assert s.sent + Notices(run) == s.sent;
    }
  }

  lemma BroughtByCleanJob(server: ServerConfig, s: SessionState, run: seq<Event>, jobID: string, now: real)
    requires s.Valid() && server.vardiffOnNewBlock && s.authorized && s.pendingDiff > 0.0
    requires forall i :: 0 <= i < |run| ==> JobOrShare(run[i]) && !CleanJob(run[i])
    ensures var end := Step(server, After(server, s, run), SendJob(jobID, true, now));
            && end.difficulty == s.pendingDiff && end.pendingDiff == 0.0
            && end.sent == s.sent + Notices(run) + [SetDifficulty(s.pendingDiff), Notify(jobID)]
  {
    WaitsForCleanJob(server, s, run);
    DeliveredIff(server, After(server, s, run), jobID, true, now);
  }

  /** Where changes are put off, a job or a share changes the difficulty only as a clean job does, to the value that was waiting. */
  lemma ChangesWithCleanJob(server: ServerConfig, s: SessionState, e: Event)
    requires s.Valid() && server.vardiffOnNewBlock && JobOrShare(e)
    ensures var s' := Step(server, s, e);
            s'.difficulty != s.difficulty ==> CleanJob(e) && s.authorized && s'.difficulty == s.pendingDiff > 0.0
  {
  }

  lemma {:induction false} AfterMore(server: ServerConfig, s: SessionState, run: seq<Event>, e: Event)
    requires s.Valid()
    ensures After(server, s, run + [e]) == Step(server, After(server, s, run), e)
    decreases |run|
  {
    if run == [] {
      assert run + [e] == [e];
      assert After(server, Step(server, s, e), []) == Step(server, s, e);
    } else {
      assert (run + [e])[1..] == run[1..] + [e];
      AfterMore(server, Step(server, s, run[0]), run[1..], e);
    }
  }

  /** So along jobs and shares alone the difficulty changes only at clean jobs. */
  lemma ChangesOnlyAtCleanJobs(server: ServerConfig, s: SessionState, run: seq<Event>, i: nat)
    requires s.Valid() && server.vardiffOnNewBlock && i < |run| && forall k :: 0 <= k < |run| ==> JobOrShare(run[k])
    ensures var before, after := After(server, s, run[..i]), After(server, s, run[..i + 1]);
            after.difficulty != before.difficulty ==> CleanJob(run[i]) && after.difficulty == before.pendingDiff
  {
    assert run[..i + 1] == run[..i] + [run[i]];
    AfterMore(server, s, run[..i], run[i]);
    ChangesWithCleanJob(server, After(server, s, run[..i]), run[i]);
  }

  /** What the controller decides on a share waits for a job where changes are put off; elsewhere it is in force at once, and the
      miner is told of it and then of its job again. */
  lemma AdjustmentReaches(server: ServerConfig, s: SessionState, job: Option<string>, now: real)
    requires s.Valid() && s.vardiff.Some? && s.pendingDiff <= 0.0
    requires VarDiff.Recorded(s.vardiff.value.cfg, s.vardiff.value.state, now).result.Adjusted?
    ensures var d := VarDiff.Recorded(s.vardiff.value.cfg, s.vardiff.value.state, now).result.newDiff;
            var s' := AfterShare(server, s, job, now);
            if server.vardiffOnNewBlock then
              s'.pendingDiff == d && s'.difficulty == s.difficulty && s'.sent == s.sent
            else
              && s'.pendingDiff == 0.0 && s'.difficulty == d && s'.prevDiff == s.difficulty && s'.diffChangedAt == now
              && s'.sent == s.sent + [SetDifficulty(d)] + (if job.Some? then [Notify(job.value)] else [])
  {
  }

  // ---- What a job is put on record at ----

  lemma NewOnRecord(s: SessionState, jobID: string, now: real)
    requires Registered(s) && jobID != "" && jobID !in s.jobDiff
    ensures jobID in Recorded(s, jobID, now).jobDiff
    ensures Recorded(s, jobID, now).jobDiff[jobID] == DifficultyOnRecord(s, now)
  {
    assert jobID !in s.jobOrder;
  }

  lemma StepRegistered(server: ServerConfig, s: SessionState, e: Event)
    requires s.Valid() && Registered(s)
    ensures Registered(Step(server, s, e))
  {
    if e.SendJob? {
      RecordedRegistered(FlushedFor(server, s, e.clean, e.now), e.jobID, e.now);
    }
  }

  lemma SentUnchanged(server: ServerConfig, s: SessionState, jobID: string, clean: bool, now: real)
    requires s.authorized && (s.pendingDiff <= 0.0 || (server.vardiffOnNewBlock && !clean))
    ensures AfterSendJob(server, s, jobID, clean, now).jobDiff == Recorded(s, jobID, now).jobDiff
  {
  }

  lemma ChangedJustNow(server: ServerConfig, s: SessionState, e: Event)
    requires s.Valid() && Step(server, s, e).difficulty != s.difficulty
    ensures Step(server, s, e).prevDiff == s.difficulty && Step(server, s, e).diffChangedAt == e.now
  {
  }

  /** The first job sent after a change, when it brings none itself: in the five seconds in which a share for it may still be the
      work of before, it is put on record at the lower of the two difficulties, and after that at the new one. */
  lemma SettlesInFiveSeconds(server: ServerConfig, s: SessionState, e: Event, jobID: string, clean: bool, now: real)
    requires s.Valid() && Registered(s) && s.difficulty > 0.0 && Step(server, s, e).difficulty != s.difficulty
    requires var s' := Step(server, s, e);
             && s'.authorized && jobID != "" && jobID !in s'.jobDiff
             && (s'.pendingDiff <= 0.0 || (server.vardiffOnNewBlock && !clean))
    ensures var s' := Step(server, s, e);
            var s'' := Step(server, s', SendJob(jobID, clean, now));
            && jobID in s''.jobDiff
            && s''.jobDiff[jobID] == if now - e.now < 5.0 then Min(s.difficulty, s'.difficulty) else s'.difficulty
  {
    StepRegistered(server, s, e);
    ChangedJustNow(server, s, e);
    SentUnchanged(server, Step(server, s, e), jobID, clean, now);
    NewOnRecord(Step(server, s, e), jobID, now);
  }

  /** A new job that brings a change is itself on record at the lower of the two. */
  lemma OnRecordWithItsChange(server: ServerConfig, s: SessionState, jobID: string, clean: bool, now: real)
    requires Registered(s) && s.authorized && s.difficulty > 0.0 && s.pendingDiff > 0.0
    requires (!server.vardiffOnNewBlock || clean) && jobID != "" && jobID !in s.jobDiff
    ensures var s' := AfterSendJob(server, s, jobID, clean, now);
            jobID in s'.jobDiff && s'.jobDiff[jobID] == Min(s.difficulty, s.pendingDiff)
  {
    NewOnRecord(FlushedFor(server, s, clean, now), jobID, now);
  }

  // ---- What a miner may ask for ----

  /** With bounds in order, a suggestion is answered with the allowed difficulty nearest to it. */
  lemma SuggestedNearest(server: ServerConfig, s: SessionState, suggested: real, other: real)
    requires s.vardiff.Some? && Configured(server, ConfigOf(s))
    requires s.vardiff.value.cfg.minDiff <= other <= s.vardiff.value.cfg.maxDiff
    ensures var d := Suggested(server, s, suggested);
            && s.vardiff.value.cfg.minDiff <= d <= s.vardiff.value.cfg.maxDiff
            && VarDiff.Abs(d - suggested) <= VarDiff.Abs(other - suggested)
  {
  }

  // ---- How long a job stays on record ----

  function JobsSent(run: seq<Event>): nat {
    if run == [] then 0 else JobsSent(run[1..]) + if run[0].SendJob? then 1 else 0
  }

  lemma RecordedOrder(s: SessionState, jobID: string, now: real)
    requires Registered(s)
    ensures var order := Recorded(s, jobID, now).jobOrder;
            order == s.jobOrder || order == s.jobOrder + [jobID] || (|s.jobOrder| == 64 && order == s.jobOrder[1..] + [jobID])
  {
  }

  lemma OrderAfter(server: ServerConfig, s: SessionState, e: Event)
    requires s.Valid() && Registered(s)
    ensures var order := Step(server, s, e).jobOrder;
            || order == s.jobOrder
            || (e.SendJob? && order == s.jobOrder + [e.jobID])
            || (e.SendJob? && |s.jobOrder| == 64 && order == s.jobOrder[1..] + [e.jobID])
  {
    if e.SendJob? {
      RecordedOrder(FlushedFor(server, s, e.clean, e.now), e.jobID, e.now);
    }
  }

  /** A job on record with some newer ones behind it stays there until 64 newer ones are: through any run with no more jobs. */
  lemma {:induction false} StaysOnRecord(server: ServerConfig, s: SessionState, run: seq<Event>, i: nat)
    requires s.Valid() && Registered(s) && i < |s.jobOrder|
    requires |s.jobOrder| - 1 - i + JobsSent(run) <= 63
    ensures TrackedAlong(server, s, run, s.jobOrder[i])
    decreases |run|
  {
    if run != [] {
      var next := Step(server, s, run[0]);
      StepRegistered(server, s, run[0]);
      OrderAfter(server, s, run[0]);
      var at := if i < |next.jobOrder| && next.jobOrder[i] == s.jobOrder[i] then i else i - 1;
      StaysOnRecord(server, next, run[1..], at);
    }
    assert s.jobOrder[i] in s.jobOrder;
  }

  lemma NewestOnRecord(server: ServerConfig, s: SessionState, jobID: string, clean: bool, now: real)
    requires s.authorized && Registered(s) && jobID != "" && jobID !in s.jobDiff
    ensures var order := AfterSendJob(server, s, jobID, clean, now).jobOrder; order != [] && order[|order| - 1] == jobID
  {
  }

  lemma TrackedFromSending(server: ServerConfig, s: SessionState, jobID: string, clean: bool, sentAt: real, between: seq<Event>)
    requires s.Valid() && s.authorized && Registered(s) && jobID != "" && jobID !in s.jobDiff && JobsSent(between) <= 63
    ensures AfterSendJob(server, s, jobID, clean, sentAt).Valid()
    ensures TrackedAlong(server, AfterSendJob(server, s, jobID, clean, sentAt), between, jobID)
  {
    var next := Step(server, s, SendJob(jobID, clean, sentAt));
    StepRegistered(server, s, SendJob(jobID, clean, sentAt));
    NewestOnRecord(server, s, jobID, clean, sentAt);
    StaysOnRecord(server, next, between, |next.jobOrder| - 1);
  }

  lemma RegisteredInRun(server: ServerConfig, cfg: Option<VarDiff.Config>, start: real, run: seq<Event>)
    requires Configured(server, cfg)
    ensures Registered(After(server, NewSession(server, cfg, start), run))
  {
    RunInv(server, NewSession(server, cfg, start), run);
  }

  /** So in every run a share that meets the difficulty in force when SendJob sent its job, a new one, is accepted for as long as no
      more than 63 jobs follow, whatever changes of difficulty come in between. */
  lemma NeverRefusedForSixtyThree(server: ServerConfig, cfg: Option<VarDiff.Config>, start: real, before: seq<Event>,
                                  jobID: string, clean: bool, sentAt: real, between: seq<Event>, hash: Hash,
                                  lowDiffGrace: real, now: real)
    requires Configured(server, cfg) && NothingDelivered(server, cfg) && jobID != "" && JobsSent(between) <= 63
    requires After(server, NewSession(server, cfg, start), before).authorized
    requires jobID !in After(server, NewSession(server, cfg, start), before).jobDiff
    requires V1MeetsDifficulty(hash, SentAfter(server, cfg, start, before, jobID, clean, sentAt).difficulty)
    ensures Accepts(After(server, SentAfter(server, cfg, start, before, jobID, clean, sentAt), between), jobID, hash,
                    lowDiffGrace, now)
  {
    RegisteredInRun(server, cfg, start, before);
    TrackedFromSending(server, After(server, NewSession(server, cfg, start), before), jobID, clean, sentAt, between);
    NeverRefused(server, cfg, start, before, jobID, clean, sentAt, between, hash, lowDiffGrace, now);
  }
}
