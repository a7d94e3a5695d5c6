// Every run of a V1 session: which shares can be refused, and what the controller, the session and the miner believe.
module V1Runs {
  import opened Hex
  import opened Merkle
  import opened ShareHeader
  import opened Target
  import opened V1Session
  import VarDiff

  datatype Event =
    | Suggest(difficulty: real, now: real)
    | Initial(difficulty: real, now: real)
    | Authorize(password: Option<real>, job: Option<string>, now: real)
    | SendJob(jobID: string, clean: bool, now: real)
    | Share(job: Option<string>, now: real)

  function Step(server: ServerConfig, s: SessionState, e: Event): (r: SessionState)
    requires s.Valid()
    ensures r.Valid()
  {
    match e
    case Suggest(d, now) => AfterSuggest(server, s, d, now)
    case Initial(d, now) => AfterInitial(s, d, now)
    case Authorize(password, job, now) => AfterAuthorize(s, password, job, now)
    case SendJob(jobID, clean, now) => AfterSendJob(server, s, jobID, clean, now)
    case Share(job, now) => AfterShare(server, s, job, now)
  }

  function After(server: ServerConfig, s: SessionState, run: seq<Event>): (r: SessionState)
    requires s.Valid()
    ensures r.Valid()
    decreases |run|
  {
    if run == [] then s else After(server, Step(server, s, run[0]), run[1..])
  }

  /** What a configuration is checked for when it is loaded; the default difficulty is positive. */
  predicate Configured(server: ServerConfig, cfg: Option<VarDiff.Config>) {
    server.defaultDiff > 0.0 && (cfg.Some? ==> cfg.value.Valid() && 0.0 < cfg.value.minDiff < cfg.value.maxDiff)
  }

  /** No difficulty that the controller rounds to nothing reaches the session: it is not proposed, or it is queued and, being
      nothing, never delivered. */
  predicate NothingDelivered(server: ServerConfig, cfg: Option<VarDiff.Config>) {
    cfg.Some? ==> server.vardiffOnNewBlock || VarDiff.NeverRoundsToZero(cfg.value)
  }

  /** No difficulty that the controller rounds to nothing is queued: it is not proposed, or it goes out at once. */
  predicate NothingQueued(server: ServerConfig, cfg: Option<VarDiff.Config>) {
    cfg.Some? ==> !server.vardiffOnNewBlock || VarDiff.NeverRoundsToZero(cfg.value)
  }

  // ---- The register of jobs ----

  function Ids(order: seq<string>): set<string> {
    set j | j in order
  }

  /** The map and the order list hold the same jobs, each once and at most 64. */
  ghost predicate Register(jobDiff: map<string, real>, jobOrder: seq<string>) {
    && |jobOrder| <= MAX_JOB_DIFFS && jobDiff.Keys == Ids(jobOrder)
    && (forall i, k :: 0 <= i < k < |jobOrder| ==> jobOrder[i] != jobOrder[k])
  }

  ghost predicate Registered(s: SessionState) {
    Register(s.jobDiff, s.jobOrder)
  }

  function ConfigOf(s: SessionState): Option<VarDiff.Config> {
    match s.vardiff
    case None => None
    case Some(t) => Some(t.cfg)
  }

  /** Shares are judged by positive difficulties. */
  predicate Positive(s: SessionState) {
    s.difficulty > 0.0 && s.prevDiff >= 0.0 && forall j :: j in s.jobDiff ==> s.jobDiff[j] > 0.0
  }

  /** With nothing pending the controller's difficulty is the session's. */
  predicate InStep(server: ServerConfig, s: SessionState) {
    && (s.vardiff.None? || !server.vardiffOnNewBlock ==> s.pendingDiff == 0.0)
    && s.pendingDiff >= 0.0
    && (s.vardiff.Some? && s.pendingDiff == 0.0 ==> s.vardiff.value.state.currentDiff == s.difficulty)
  }

  function LastTold(sent: seq<Note>): Option<real>
    decreases |sent|
  {
    if sent == [] then None
    else
      match sent[|sent| - 1]
      case SetDifficulty(d) => Some(d)
      case Notify(_) => LastTold(sent[..|sent| - 1])
  }

  /** The miner was last told the difficulty its shares are judged by. */
  predicate MinerTold(s: SessionState) {
    s.authorized ==> LastTold(s.sent) == Some(s.difficulty)
  }

  ghost predicate Inv(server: ServerConfig, s: SessionState) {
    && Configured(server, ConfigOf(s)) && Registered(s) && MinerTold(s)
    && (NothingDelivered(server, ConfigOf(s)) ==> Positive(s))
    && (NothingQueued(server, ConfigOf(s)) ==> InStep(server, s))
  }

  lemma ToldLast(sent: seq<Note>, note: Note)
    ensures LastTold(sent + [note]) == match note case SetDifficulty(d) => Some(d) case Notify(_) => LastTold(sent)
  {
    assert (sent + [note])[..|sent|] == sent;
  }

  /** Appending an ID that is new and dropping the oldest keeps the list one of distinct IDs. */
  lemma OrderMoves(order: seq<string>, jobID: string)
    requires jobID !in order && forall i, k :: 0 <= i < k < |order| ==> order[i] != order[k]
    ensures var all := order + [jobID];
            && Ids(all) == Ids(order) + {jobID}
            && Ids(all[1..]) == Ids(all) - {all[0]}
            && forall i, k :: 0 <= i < k < |all| ==> all[i] != all[k]
  {
    var all := order + [jobID];
    assert all == [all[0]] + all[1..];
    forall i, k | 0 <= i < k < |all|
      ensures all[i] != all[k]
    {
      assert k == |order| ==> all[i] == order[i] && order[i] in order;
    }
    assert all[0] !in all[1..];
  }

  lemma NewlyRegistered(jobDiff: map<string, real>, jobOrder: seq<string>, jobID: string, d: real)
    requires Register(jobDiff, jobOrder) && jobID !in jobDiff
    ensures var order, diffs := jobOrder + [jobID], jobDiff[jobID := d];
            if |order| > MAX_JOB_DIFFS then Register(diffs - {order[0]}, order[1..]) else Register(diffs, order)
  {
    var order, diffs := jobOrder + [jobID], jobDiff[jobID := d];
    assert jobID !in jobOrder;
    OrderMoves(jobOrder, jobID);
    if |order| > MAX_JOB_DIFFS {
      assert (diffs - {order[0]}).Keys == diffs.Keys - {order[0]};
    }
  }

  lemma RecordedRegistered(s: SessionState, jobID: string, now: real)
    requires Registered(s)
    ensures Registered(Recorded(s, jobID, now))
  {
    if jobID != "" && jobID !in s.jobDiff {
      NewlyRegistered(s.jobDiff, s.jobOrder, jobID, DifficultyOnRecord(s, now));
    }
  }

  lemma OnRecord(s: SessionState, jobID: string, now: real)
    requires Registered(s) && jobID != ""
    ensures jobID in Recorded(s, jobID, now).jobDiff && Recorded(s, jobID, now).jobDiff[jobID] <= s.difficulty
  {
    if jobID !in s.jobDiff {
      assert jobID !in s.jobOrder;
    }
  }

  lemma ShareInv(server: ServerConfig, s: SessionState, job: Option<string>, now: real)
    requires Inv(server, s)
    ensures Inv(server, AfterShare(server, s, job, now))
  {
    if s.vardiff.Some? && s.pendingDiff <= 0.0 {
      var t := s.vardiff.value;
      var o := VarDiff.Recorded(t.cfg, t.state, now);
      var heard := s.(vardiff := Some(t.(state := o.state)));
      if o.result.Adjusted? {
        if VarDiff.NeverRoundsToZero(t.cfg) {
          VarDiff.ProposalPositive(t.cfg, t.state, now);
        }
        if !server.vardiffOnNewBlock {
          MidBlockInv(server, heard, o.result.newDiff, job, now);
        }
      } else {
        UnadjustedKeeps(t.cfg, t.state, now);
      }
    }
  }

  lemma UnadjustedKeeps(cfg: VarDiff.Config, s: VarDiff.State, now: real)
    requires cfg.Valid() && !VarDiff.Recorded(cfg, s, now).result.Adjusted?
    ensures VarDiff.Recorded(cfg, s, now).state.currentDiff == s.currentDiff
  {
  }

  lemma MidBlockInv(server: ServerConfig, s: SessionState, d: real, job: Option<string>, now: real)
    requires Configured(server, ConfigOf(s)) && Registered(s)
    requires NothingDelivered(server, ConfigOf(s)) ==> Positive(s) && d > 0.0
    ensures Inv(server, MidBlock(s, d, job, now))
  {
    ToldLast(s.sent, SetDifficulty(d));
    if job.Some? {
      ToldLast(s.sent + [SetDifficulty(d)], Notify(job.value));
    }
  }

  lemma FlushInv(server: ServerConfig, s: SessionState, clean: bool, now: real)
    requires Inv(server, s)
    ensures Inv(server, FlushedFor(server, s, clean, now))
  {
    ToldLast(s.sent, SetDifficulty(s.pendingDiff));
  }

  lemma RecordPositive(s: SessionState, jobID: string, now: real)
    requires Positive(s)
    ensures Positive(Recorded(s, jobID, now))
  {
    assert DifficultyOnRecord(s, now) > 0.0;
  }

  lemma RecordKeeps(server: ServerConfig, s: SessionState, jobID: string, now: real)
    ensures var r := Recorded(s, jobID, now);
            && ConfigOf(r) == ConfigOf(s) && MinerTold(r) == MinerTold(s) && InStep(server, r) == InStep(server, s)
  {
  }

  lemma RecordInv(server: ServerConfig, s: SessionState, jobID: string, now: real)
    requires Inv(server, s)
    ensures Inv(server, Recorded(s, jobID, now))
  {
    RecordedRegistered(s, jobID, now);
    RecordKeeps(server, s, jobID, now);
    if NothingDelivered(server, ConfigOf(s)) {
      RecordPositive(s, jobID, now);
    }
  }

  lemma SendJobInv(server: ServerConfig, s: SessionState, jobID: string, clean: bool, now: real)
    requires Inv(server, s)
    ensures Inv(server, AfterSendJob(server, s, jobID, clean, now))
    ensures var s' := AfterSendJob(server, s, jobID, clean, now);
            s.authorized && jobID != "" ==> jobID in s'.jobDiff && s'.jobDiff[jobID] <= s'.difficulty
  {
    if s.authorized {
      var flushed := FlushedFor(server, s, clean, now);
      FlushInv(server, s, clean, now);
      RecordInv(server, flushed, jobID, now);
      if jobID != "" {
        OnRecord(flushed, jobID, now);
      }
      ToldLast(flushed.sent, Notify(jobID));
    }
  }

  lemma AuthorizeInv(server: ServerConfig, s: SessionState, password: Option<real>, job: Option<string>, now: real)
    requires Inv(server, s)
    ensures Inv(server, AfterAuthorize(s, password, job, now))
  {
    var ready := AfterPassword(s, password, now);
    ToldLast(s.sent, SetDifficulty(ready.difficulty));
    if job.Some? {
      ToldLast(s.sent + [SetDifficulty(ready.difficulty)], Notify(job.value));
    }
  }

  lemma StepInv(server: ServerConfig, s: SessionState, e: Event)
    requires Inv(server, s)
    ensures Inv(server, Step(server, s, e))
  {
    match e
    case Suggest(d, now) => ToldLast(s.sent, SetDifficulty(Suggested(server, s, d)));
    case Initial(d, now) => ToldLast(s.sent, SetDifficulty(d));
    case Authorize(password, job, now) => AuthorizeInv(server, s, password, job, now);
    case SendJob(jobID, clean, now) => SendJobInv(server, s, jobID, clean, now);
    case Share(job, now) => ShareInv(server, s, job, now);
  }

  lemma SameConfig(server: ServerConfig, s: SessionState, e: Event)
    requires s.Valid()
    ensures ConfigOf(Step(server, s, e)) == ConfigOf(s)
  {
  }

  lemma {:induction false} RunInv(server: ServerConfig, s: SessionState, run: seq<Event>)
    requires Inv(server, s)
    ensures Inv(server, After(server, s, run)) && ConfigOf(After(server, s, run)) == ConfigOf(s)
    decreases |run|
  {
    if run != [] {
      StepInv(server, s, run[0]);
      SameConfig(server, s, run[0]);
      RunInv(server, Step(server, s, run[0]), run[1..]);
    }
  }

  /** With nothing pending, the controller's difficulty is the one shares are judged by. */
  predicate ControllerAgrees(s: SessionState) {
    s.vardiff.Some? && s.pendingDiff == 0.0 ==> s.vardiff.value.state.currentDiff == s.difficulty
  }

  /** In every run of a configuration under which nothing that rounds to nothing is queued, the controller agrees; in every
      run at all an authorized miner was last told the difficulty its shares are judged by, and the register's map and order
      list hold the same jobs, each once and at most 64. */
  lemma DifficultiesAgree(server: ServerConfig, cfg: Option<VarDiff.Config>, start: real, run: seq<Event>)
    requires Configured(server, cfg)
    ensures var s := After(server, NewSession(server, cfg, start), run);
            && (NothingQueued(server, cfg) ==> ControllerAgrees(s))
            && (s.authorized ==> LastTold(s.sent) == Some(s.difficulty))
            && s.jobDiff.Keys == Ids(s.jobOrder) && |s.jobOrder| <= MAX_JOB_DIFFS
            && (forall i, k :: 0 <= i < k < |s.jobOrder| ==> s.jobOrder[i] != s.jobOrder[k])
  {
    RunInv(server, NewSession(server, cfg, start), run);
  }

  /** Unlike on SV2, a pending change need not be the controller's difficulty: a suggestion taken while one is pending moves the
      controller alone, so the two agree afterwards exactly when the suggestion is the pending difficulty. */
  lemma SuggestionParts(server: ServerConfig, s: SessionState, suggested: real, now: real)
    requires server.acceptSuggestDiff && s.vardiff.Some?
    ensures var s' := AfterSuggest(server, s, suggested, now);
            && s'.vardiff.value.state.currentDiff == s'.difficulty == Suggested(server, s, suggested)
            && (s'.pendingDiff == s'.vardiff.value.state.currentDiff <==> s.pendingDiff == Suggested(server, s, suggested))
  {
  }

  // ---- Which shares are accepted ----

  function Min(a: real, b: real): real {
    if a < b then a else b
  }

  /** The lowest of the difficulties a share may be judged by. */
  function Lowest(s: SessionState, jobID: string, lowDiffGrace: real, now: real): real {
    var graced := if lowDiffGrace > 0.0 && s.prevDiff > 0.0 && now - s.diffChangedAt < lowDiffGrace
                  then Min(s.difficulty, s.prevDiff) else s.difficulty;
    if jobID in s.jobDiff then Min(graced, s.jobDiff[jobID]) else graced
  }

  lemma Easier(hash: Hash, low: real, high: real)
    requires 0.0 < low <= high && V1MeetsDifficulty(hash, high)
    ensures V1MeetsDifficulty(hash, low)
  {
    EasierDifficultyAcceptsMore(HashNumber(hash), low, high);
  }

  /** Meeting the lowest is exactly what it takes. */
  lemma AcceptsLowest(s: SessionState, jobID: string, hash: Hash, lowDiffGrace: real, now: real)
    requires Positive(s)
    ensures Accepts(s, jobID, hash, lowDiffGrace, now)
       <==> V1MeetsDifficulty(hash, Lowest(s, jobID, lowDiffGrace, now))
  {
    var lowest := Lowest(s, jobID, lowDiffGrace, now);
    if V1MeetsDifficulty(hash, s.difficulty) {
      Easier(hash, lowest, s.difficulty);
    }
    if lowDiffGrace > 0.0 && s.prevDiff > 0.0 && now - s.diffChangedAt < lowDiffGrace && V1MeetsDifficulty(hash, s.prevDiff) {
      Easier(hash, lowest, s.prevDiff);
    }
    if jobID in s.jobDiff && V1MeetsDifficulty(hash, s.jobDiff[jobID]) {
      Easier(hash, lowest, s.jobDiff[jobID]);
    }
  }

  /** The job is on record in every state of the run. */
  predicate TrackedAlong(server: ServerConfig, s: SessionState, run: seq<Event>, jobID: string)
    requires s.Valid()
    decreases |run|
  {
    jobID in s.jobDiff && (run == [] || TrackedAlong(server, Step(server, s, run[0]), run[1..], jobID))
  }

  lemma RecordOnlyFalls(server: ServerConfig, s: SessionState, e: Event, jobID: string)
    requires s.Valid() && jobID in s.jobDiff && jobID in Step(server, s, e).jobDiff
    ensures Step(server, s, e).jobDiff[jobID] <= s.jobDiff[jobID]
  {
  }

  lemma {:induction false} RecordOnlyFallsAlong(server: ServerConfig, s: SessionState, run: seq<Event>, jobID: string)
    requires s.Valid() && TrackedAlong(server, s, run, jobID)
    ensures jobID in After(server, s, run).jobDiff && After(server, s, run).jobDiff[jobID] <= s.jobDiff[jobID]
    decreases |run|
  {
    if run != [] {
      RecordOnlyFalls(server, s, run[0], jobID);
      RecordOnlyFallsAlong(server, Step(server, s, run[0]), run[1..], jobID);
    }
  }

  /** A job stays covered down to the difficulty it is on record at. */
  lemma RecordCovers(server: ServerConfig, s: SessionState, run: seq<Event>, jobID: string, hash: Hash, lowDiffGrace: real,
                     now: real)
    requires Inv(server, s) && NothingDelivered(server, ConfigOf(s)) && TrackedAlong(server, s, run, jobID)
    requires V1MeetsDifficulty(hash, s.jobDiff[jobID])
    ensures Accepts(After(server, s, run), jobID, hash, lowDiffGrace, now)
  {
    RunInv(server, s, run);
    RecordOnlyFallsAlong(server, s, run, jobID);
    var end := After(server, s, run);
    Easier(hash, Lowest(end, jobID, lowDiffGrace, now), s.jobDiff[jobID]);
    AcceptsLowest(end, jobID, hash, lowDiffGrace, now);
  }

  /** A job sent by SendJob: where a run has got to, and the session right after. */
  function SentAfter(server: ServerConfig, cfg: Option<VarDiff.Config>, start: real, before: seq<Event>, jobID: string,
                     clean: bool, sentAt: real): (s: SessionState)
    requires Configured(server, cfg)
    ensures s.Valid()
  {
    AfterSendJob(server, After(server, NewSession(server, cfg, start), before), jobID, clean, sentAt)
  }

  /** A share whose hash meets the difficulty in force when SendJob sent its job is accepted for as long as that job stays on
      record, whatever changes of difficulty come in between. */
  lemma NeverRefused(server: ServerConfig, cfg: Option<VarDiff.Config>, start: real, before: seq<Event>, jobID: string,
                     clean: bool, sentAt: real, between: seq<Event>, hash: Hash, lowDiffGrace: real, now: real)
    requires Configured(server, cfg) && NothingDelivered(server, cfg) && jobID != ""
    requires After(server, NewSession(server, cfg, start), before).authorized
    requires var s := SentAfter(server, cfg, start, before, jobID, clean, sentAt);
             V1MeetsDifficulty(hash, s.difficulty) && TrackedAlong(server, s, between, jobID)
    ensures Accepts(After(server, SentAfter(server, cfg, start, before, jobID, clean, sentAt), between), jobID, hash,
                    lowDiffGrace, now)
  {
    var s0 := After(server, NewSession(server, cfg, start), before);
    RunInv(server, NewSession(server, cfg, start), before);
    SendJobInv(server, s0, jobID, clean, sentAt);
    SameConfig(server, s0, SendJob(jobID, clean, sentAt));
    var s := SentAfter(server, cfg, start, before, jobID, clean, sentAt);
    Easier(hash, s.jobDiff[jobID], s.difficulty);
    RecordCovers(server, s, between, jobID, hash, lowDiffGrace, now);
  }

  /** The controller of the example below: four shares half a minute apart halve its difficulty. */
  function SlowConfig(): VarDiff.Config {
    VarDiff.Config(1.0, 1000.0, 15.0, 0.0, 30.0, false, false, 0)
  }

  lemma SlowShares(s: VarDiff.State)
    requires s == VarDiff.State(100.0, [20.0, 50.0, 80.0], 0.0)
    ensures VarDiff.Recorded(SlowConfig(), s, 110.0) == VarDiff.Outcome(VarDiff.State(50.0, [], 110.0), VarDiff.Adjusted(50.0))
  {
    var window := VarDiff.Window(s.shareTimes, 110.0);
    assert window == [20.0, 50.0, 80.0, 110.0];
    assert VarDiff.Average(window) == 30.0;
    assert VarDiff.Wanted(SlowConfig(), 100.0, 30.0) == 50.0;
    assert VarDiff.Round(50.0) == 50;
  }

  function ExampleServer(): ServerConfig {
    ServerConfig(100.0, true, false)
  }

  /** Authorized at 100, sent a job, three shares in. */
  function ExampleStart(job: string): SessionState {
    var server := ExampleServer();
    var begun := Step(server, NewSession(server, Some(SlowConfig()), 0.0), Authorize(None, None, 0.0));
    var sent := Step(server, begun, SendJob(job, true, 10.0));
    Step(server, Step(server, Step(server, sent, Share(Some(job), 20.0)), Share(Some(job), 50.0)), Share(Some(job), 80.0))
  }

  lemma ExampleStarts(job: string)
    requires job != ""
    ensures var s := ExampleStart(job);
            && s.difficulty == 100.0 && s.pendingDiff == 0.0 && s.jobDiff == map[job := 100.0]
            && s.vardiff == Some(Tracker(SlowConfig(), VarDiff.State(100.0, [20.0, 50.0, 80.0], 0.0)))
  {
    var server := ExampleServer();
    var begun := Step(server, NewSession(server, Some(SlowConfig()), 0.0), Authorize(None, None, 0.0));
    var sent := Step(server, begun, SendJob(job, true, 10.0));
    assert sent.jobDiff == map[job := 100.0];
    var one := Step(server, sent, Share(Some(job), 20.0));
    assert one.vardiff.value.state == VarDiff.State(100.0, [20.0], 0.0);
    var two := Step(server, one, Share(Some(job), 50.0));
    assert two.vardiff.value.state == VarDiff.State(100.0, [20.0, 50.0], 0.0);
    var three := Step(server, two, Share(Some(job), 80.0));
    assert three.vardiff.value.state == VarDiff.State(100.0, [20.0, 50.0, 80.0], 0.0);
  }

  /** The fourth share halves the difficulty and has the job sent again; the record stays as it was. */
  lemma ExampleResends(job: string)
    requires job != ""
    ensures var resent := Step(ExampleServer(), ExampleStart(job), Share(Some(job), 110.0));
            && resent.difficulty == 50.0 && resent.jobDiff == map[job := 100.0]
            && resent.vardiff == Some(Tracker(SlowConfig(), VarDiff.State(50.0, [], 110.0)))
            && resent.sent == ExampleStart(job).sent + [SetDifficulty(50.0), Notify(job)]
  {
    ExampleStarts(job);
    SlowShares(ExampleStart(job).vardiff.value.state);
  }

  lemma ExampleRaises(s: SessionState)
    requires s.Valid() && s.vardiff.Some? && s.vardiff.value.cfg == SlowConfig()
    ensures var raised := Step(ExampleServer(), s, Suggest(200.0, 120.0));
            raised.difficulty == 200.0 && raised.jobDiff == s.jobDiff && raised.diffChangedAt == 120.0
  {
  }

  /** A job sent again mid-block is not put on record at its new difficulty. A session at 100 is sent a job and finds four shares
      in half-minute steps, so it is lowered to 50 and sent the job again; a suggestion then raises it to 200. Once the grace is
      over, a hash good enough for the 50 but not for the 100 is refused for that job. */
  lemma ResendNotCovered(job: string, hash: Hash, lowDiffGrace: real)
    requires job != "" && 0.0 <= lowDiffGrace <= 60.0
    requires V1MeetsDifficulty(hash, 50.0) && !V1MeetsDifficulty(hash, 100.0)
    ensures var resent := Step(ExampleServer(), ExampleStart(job), Share(Some(job), 110.0));
            var raised := Step(ExampleServer(), resent, Suggest(200.0, 120.0));
            && resent.difficulty == 50.0 && raised.difficulty == 200.0
            && resent.sent == ExampleStart(job).sent + [SetDifficulty(50.0), Notify(job)]
            && !Accepts(raised, job, hash, lowDiffGrace, 200.0)
  {
    ExampleResends(job);
    ExampleRaises(Step(ExampleServer(), ExampleStart(job), Share(Some(job), 110.0)));
    if V1MeetsDifficulty(hash, 200.0) {
      Easier(hash, 100.0, 200.0);
    }
  }
}
