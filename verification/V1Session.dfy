// A V1 miner session: its difficulty, a change waiting for delivery, and the difficulty each recent job was sent at.
module V1Session {
  import opened Hex
  import opened Merkle
  import opened ShareHeader
  import VarDiff

  const MAX_JOB_DIFFS := 64
  const JOB_DIFF_SETTLE := 5.0

  datatype ServerConfig = ServerConfig(defaultDiff: real, acceptSuggestDiff: bool, vardiffOnNewBlock: bool)

  datatype Tracker = Tracker(cfg: VarDiff.Config, state: VarDiff.State)

  datatype Note = SetDifficulty(difficulty: real) | Notify(jobID: string)

  datatype SessionState = SessionState(authorized: bool, difficulty: real, prevDiff: real, diffChangedAt: real,
                                       pendingDiff: real, jobDiff: map<string, real>, jobOrder: seq<string>,
                                       vardiff: Option<Tracker>, sent: seq<Note>)
  {
    predicate Valid() {
      vardiff.Some? ==> vardiff.value.cfg.Valid()
    }
  }

  function NewSession(server: ServerConfig, cfg: Option<VarDiff.Config>, now: real): SessionState {
    SessionState(false, server.defaultDiff, 0.0, 0.0, 0.0, map[], [],
                 match cfg
                 case None => None
                 case Some(cfg) => Some(Tracker(cfg, VarDiff.State(server.defaultDiff, [], now))),
                 [])
  }

  // ---- Changing the difficulty ----

  function ClampToBounds(s: SessionState, d: real): real {
    match s.vardiff
    case None => d
    case Some(t) =>
      var raised := if d < t.cfg.minDiff then t.cfg.minDiff else d;
      if raised > t.cfg.maxDiff then t.cfg.maxDiff else raised
  }

  /** A difficulty in force from now on; the one before is remembered and the controller starts afresh from the new one. */
  function Changed(s: SessionState, d: real, now: real): SessionState {
    s.(prevDiff := s.difficulty, diffChangedAt := now, difficulty := d,
       vardiff := match s.vardiff
                  case None => None
                  case Some(t) => Some(t.(state := VarDiff.State(d, [], now))))
  }

  function Told(s: SessionState, note: Note): SessionState {
    s.(sent := s.sent + [note])
  }

  function Suggested(server: ServerConfig, s: SessionState, suggested: real): real {
    var d := ClampToBounds(s, suggested);
    if d <= 0.0 then server.defaultDiff else d
  }

  function AfterSuggest(server: ServerConfig, s: SessionState, suggested: real, now: real): SessionState {
    if !server.acceptSuggestDiff then s
    else
      var d := Suggested(server, s, suggested);
      Told(Changed(s, d, now), SetDifficulty(d))
  }

  /** A stored difficulty is restored as it is; nothing happens unless it is positive. */
  function AfterInitial(s: SessionState, d: real, now: real): SessionState {
    if d <= 0.0 then s else Told(Changed(s, d, now), SetDifficulty(d))
  }

  /** A difficulty asked for in the password counts when it is positive. */
  function AfterPassword(s: SessionState, password: Option<real>, now: real): SessionState {
    if password.None? || password.value <= 0.0 then s else Changed(s, ClampToBounds(s, password.value), now)
  }

  /** The job sent on authorizing is not put on record. */
  function AfterAuthorize(s: SessionState, password: Option<real>, job: Option<string>, now: real): SessionState {
    var ready := AfterPassword(s, password, now).(authorized := true);
    var told := Told(ready, SetDifficulty(ready.difficulty));
    if job.Some? then Told(told, Notify(job.value)) else told
  }

  // ---- Jobs ----

  function DifficultyOnRecord(s: SessionState, now: real): real {
    if s.prevDiff > 0.0 && s.prevDiff < s.difficulty && now - s.diffChangedAt < JOB_DIFF_SETTLE then s.prevDiff
    else s.difficulty
  }

  /** A job sent again keeps the lower of its difficulties; above 64 jobs the oldest is forgotten. */
  function Recorded(s: SessionState, jobID: string, now: real): SessionState {
    var d := DifficultyOnRecord(s, now);
    if jobID == "" then s
    else if jobID in s.jobDiff then
      if d < s.jobDiff[jobID] then s.(jobDiff := s.jobDiff[jobID := d]) else s
    else
      var order := s.jobOrder + [jobID];
      if |order| > MAX_JOB_DIFFS then
        s.(jobDiff := s.jobDiff[jobID := d] - {order[0]}, jobOrder := order[1..])
      else
        s.(jobDiff := s.jobDiff[jobID := d], jobOrder := order)
  }

  function FlushedFor(server: ServerConfig, s: SessionState, clean: bool, now: real): SessionState {
    if s.pendingDiff > 0.0 && (!server.vardiffOnNewBlock || clean) then
      Told(Changed(s, s.pendingDiff, now).(pendingDiff := 0.0), SetDifficulty(s.pendingDiff))
    else s
  }

  function AfterSendJob(server: ServerConfig, s: SessionState, jobID: string, clean: bool, now: real): SessionState {
    if !s.authorized then s
    else Told(Recorded(FlushedFor(server, s, clean, now), jobID, now), Notify(jobID))
  }

  // ---- Shares ----

  /** Whether a share's hash is good enough: for the current difficulty, for the previous one shortly after a change, or for
      the lower difficulty its job is on record with. */
  predicate Accepts(s: SessionState, jobID: string, hash: Hash, lowDiffGrace: real, now: real) {
    || V1MeetsDifficulty(hash, s.difficulty)
    || (lowDiffGrace > 0.0 && s.prevDiff > 0.0 && now - s.diffChangedAt < lowDiffGrace
        && V1MeetsDifficulty(hash, s.prevDiff))
    || (jobID in s.jobDiff && s.jobDiff[jobID] < s.difficulty && V1MeetsDifficulty(hash, s.jobDiff[jobID]))
  }

  /** A change decided mid-block goes out at once, with the current job again; that job is not put on record either. */
  function MidBlock(s: SessionState, d: real, job: Option<string>, now: real): SessionState {
    var told := Told(Changed(s, d, now).(pendingDiff := 0.0), SetDifficulty(d));
    if job.Some? then Told(told, Notify(job.value)) else told
  }

  /** After an accepted share: the controller hears of it unless a change is waiting. */
  function AfterShare(server: ServerConfig, s: SessionState, job: Option<string>, now: real): SessionState
    requires s.Valid()
  {
    if s.vardiff.None? || s.pendingDiff > 0.0 then s
    else
      var t := s.vardiff.value;
      var o := VarDiff.Recorded(t.cfg, t.state, now);
      var heard := s.(vardiff := Some(t.(state := o.state)));
      match o.result
      case Adjusted(d) => if server.vardiffOnNewBlock then heard.(pendingDiff := d) else MidBlock(heard, d, job, now)
      case _ => heard
  }

  class Session {
    const server: ServerConfig
    const vardiff: VarDiff.Controller?
    var authorized: bool
    var difficulty: real
    var prevDiff: real
    var diffChangedAt: real
    var pendingDiff: real
    var jobDiff: map<string, real>
    var jobOrder: seq<string>
    var sent: seq<Note>

    ghost const Repr: set<object> := if vardiff == null then {this} else {this, vardiff}

    ghost function View(): SessionState
      reads Repr
    {
      SessionState(authorized, difficulty, prevDiff, diffChangedAt, pendingDiff, jobDiff, jobOrder,
                   if vardiff == null then None else Some(Tracker(vardiff.cfg, vardiff.View())), sent)
    }

    constructor (server: ServerConfig, cfg: Option<VarDiff.Config>, now: real)
      ensures fresh(Repr) && this.server == server && View() == NewSession(server, cfg, now)
    {
      this.server := server;
      authorized, difficulty, prevDiff, diffChangedAt, pendingDiff := false, server.defaultDiff, 0.0, 0.0, 0.0;
      jobDiff, jobOrder, sent := map[], [], [];
      if cfg.Some? {
        vardiff := new VarDiff.Controller(cfg.value, server.defaultDiff, now);
      } else {
        vardiff := null;
      }
    }

    method SendJSON(note: Note)
      modifies `sent
      ensures sent == old(sent) + [note]
    {
      sent := sent + [note];
    }

    method ChangeDifficulty(newDiff: real, now: real)
      modifies Repr
      ensures View() == Changed(old(View()), newDiff, now)
    {
      prevDiff, diffChangedAt, difficulty := difficulty, now, newDiff;
      if vardiff != null {
        vardiff.ResetWindow(newDiff, now);
      }
    }

    method ClampedToBounds(d: real) returns (newDiff: real)
      ensures newDiff == ClampToBounds(View(), d)
    {
      newDiff := d;
      if vardiff != null {
        if newDiff < vardiff.cfg.minDiff {
          newDiff := vardiff.cfg.minDiff;
        }
        if newDiff > vardiff.cfg.maxDiff {
          newDiff := vardiff.cfg.maxDiff;
        }
      }
    }

    method HandleSuggestDifficulty(suggested: real, now: real)
      modifies Repr
      ensures View() == AfterSuggest(server, old(View()), suggested, now)
    {
      if !server.acceptSuggestDiff {
        return;
      }
      var newDiff := ClampedToBounds(suggested);
      if newDiff <= 0.0 {
        newDiff := server.defaultDiff;
      }
      ChangeDifficulty(newDiff, now);
      SendJSON(SetDifficulty(newDiff));
    }

    method SetInitialDifficulty(diff: real, now: real)
      modifies Repr
      ensures View() == AfterInitial(old(View()), diff, now)
    {
      if diff <= 0.0 {
        return;
      }
      ChangeDifficulty(diff, now);
      SendJSON(SetDifficulty(diff));
    }

    /** `password` is the difficulty given as d=… in the password, `job` the job at hand for this session. */
    method HandleAuthorize(password: Option<real>, job: Option<string>, now: real)
      modifies Repr
      ensures View() == AfterAuthorize(old(View()), password, job, now)
    {
      if password.Some? && password.value > 0.0 {
        var d := ClampedToBounds(password.value);
        ChangeDifficulty(d, now);
      }
      authorized := true;
      SendJSON(SetDifficulty(difficulty));
      if job.Some? {
        SendJSON(Notify(job.value));
      }
    }

    method RecordJobDifficulty(jobID: string, now: real)
      modifies `jobDiff, `jobOrder
      ensures |old(jobOrder)| <= MAX_JOB_DIFFS ==> View() == Recorded(old(View()), jobID, now)
    {
      if jobID == "" {
        return;
      }
      var d := difficulty;
      if prevDiff > 0.0 && prevDiff < d && now - diffChangedAt < JOB_DIFF_SETTLE {
        d := prevDiff;
      }
      if jobID in jobDiff {
        if d < jobDiff[jobID] {
          jobDiff := jobDiff[jobID := d];
        }
        return;
      }
      jobDiff := jobDiff[jobID := d];
      jobOrder := jobOrder + [jobID];
      ghost var all, order := jobDiff, jobOrder;
      while |jobOrder| > MAX_JOB_DIFFS
        invariant |old(jobOrder)| <= MAX_JOB_DIFFS ==>
                    if |order| > MAX_JOB_DIFFS && |jobOrder| <= MAX_JOB_DIFFS
                    then jobDiff == all - {order[0]} && jobOrder == order[1..]
                    else jobDiff == all && jobOrder == order
        decreases |jobOrder|
      {
        jobDiff := jobDiff - {jobOrder[0]};
        jobOrder := jobOrder[1..];
      }
    }

    method SendJob(jobID: string, clean: bool, now: real)
      requires |jobOrder| <= MAX_JOB_DIFFS
      modifies Repr
      ensures View() == AfterSendJob(server, old(View()), jobID, clean, now)
    {
      if !authorized {
        return;
      }
      if pendingDiff > 0.0 && (!server.vardiffOnNewBlock || clean) {
        var newDiff := pendingDiff;
        ChangeDifficulty(newDiff, now);
        pendingDiff := 0.0;
        SendJSON(SetDifficulty(newDiff));
      }
      RecordJobDifficulty(jobID, now);
      SendJSON(Notify(jobID));
    }

    method SendMidBlockDifficulty(newDiff: real, job: Option<string>, now: real)
      modifies Repr
      ensures View() == MidBlock(old(View()), newDiff, job, now)
    {
      ChangeDifficulty(newDiff, now);
      pendingDiff := 0.0;
      SendJSON(SetDifficulty(newDiff));
      if job.Some? {
        SendJSON(Notify(job.value));
      }
    }

    method JudgeShare(jobID: string, hash: Hash, lowDiffGrace: real, now: real) returns (accepted: bool)
      ensures accepted == Accepts(View(), jobID, hash, lowDiffGrace, now)
    {
      if V1MeetsDifficulty(hash, difficulty) {
        return true;
      }
      accepted := false;
      if lowDiffGrace > 0.0 {
        if prevDiff > 0.0 && now - diffChangedAt < lowDiffGrace {
          accepted := V1MeetsDifficulty(hash, prevDiff);
        }
      }
      if !accepted && jobID in jobDiff {
        accepted := jobDiff[jobID] < difficulty && V1MeetsDifficulty(hash, jobDiff[jobID]);
      }
    }

    /** The part of handleSubmit that follows an accepted share; `job` is the server's current job. */
    method ShareAccepted(job: Option<string>, now: real)
      requires View().Valid()
      modifies Repr
      ensures View() == AfterShare(server, old(View()), job, now)
    {
      if vardiff != null && pendingDiff <= 0.0 {
        var result := vardiff.RecordShare(now);
        if result.Adjusted? {
          if !server.vardiffOnNewBlock {
            SendMidBlockDifficulty(result.newDiff, job, now);
          } else {
            pendingDiff := result.newDiff;
          }
        }
      }
    }
  }
}
