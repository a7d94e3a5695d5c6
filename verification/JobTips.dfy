// Which jobs are kept and which are clean, over every run of the job manager.
module JobTips {
  import opened Hex
  import opened JobCache
  import opened JobCacheRuns
  import Sets

  // ---- Pruning ----

  /** The numbers above `low` up to `high`. */
  function Numbers(low: nat, high: nat): (ids: set<nat>)
    ensures forall id :: id in ids <==> low < id <= high
  {
    if low < high then Numbers(low, high - 1) + {high} else {}
  }

  lemma {:induction false} NumbersSize(low: nat, high: nat)
    requires low <= high
    ensures |Numbers(low, high)| == high - low
    decreases high - low
  {
    if low < high {
      NumbersSize(low, high - 1);
    }
  }

  /** How far back jobs are kept. */
  function Floor(seed: nat, counter: nat): nat {
    if counter > seed + 20 then counter - 20 else seed
  }

  ghost predicate Spans(jobs: map<nat, JobData>, low: nat, high: nat) {
    forall id :: id in jobs <==> low < id <= high
  }

  ghost predicate Ages(jobs: map<nat, JobData>) {
    forall i, k :: i in jobs && k in jobs && i < k ==> jobs[i].created < jobs[k].created
  }

  lemma SizeKept(jobs: map<nat, JobData>, kept: map<nat, JobData>)
    requires Pruned(jobs, kept, MAX_JOB_HISTORY)
    ensures kept.Keys <= jobs.Keys && |kept.Keys| == (if |jobs.Keys| > 20 then 20 else |jobs.Keys|)
  {
    assert |kept| == |kept.Keys| && |jobs| == |jobs.Keys|;
  }

  lemma LowestDropped(jobs: map<nat, JobData>, kept: map<nat, JobData>, low: nat, high: nat)
    requires Ages(jobs) && Spans(jobs, low, high) && high == low + 21
    requires Pruned(jobs, kept, MAX_JOB_HISTORY)
    ensures Spans(kept, low + 1, high)
  {
    NumbersSize(low, high);
    NumbersSize(low + 1, high);
    assert jobs.Keys == Numbers(low, high);
    SizeKept(jobs, kept);
    if low + 1 in kept {
      NothingOlderDropped(jobs, kept, low + 1);
    }
    assert kept.Keys <= Numbers(low + 1, high);
    AllKept(kept.Keys, Numbers(low + 1, high));
  }

  /** Pruning jobs of consecutive numbers, each newer than the one before, drops those with the lowest numbers. */
  lemma PruningDropsLowest(jobs: map<nat, JobData>, kept: map<nat, JobData>, seed: nat, counter: nat)
    requires seed <= counter && Ages(jobs) && Spans(jobs, Floor(seed, counter), counter + 1)
    requires Pruned(jobs, kept, MAX_JOB_HISTORY)
    ensures Spans(kept, Floor(seed, counter + 1), counter + 1)
  {
    if counter + 1 > seed + 20 {
      LowestDropped(jobs, kept, Floor(seed, counter), counter + 1);
    } else {
      NumbersSize(seed, counter + 1);
      assert jobs.Keys == Numbers(seed, counter + 1);
      SizeKept(jobs, kept);
      AllKept(kept.Keys, jobs.Keys);
    }
  }

  lemma AllKept(a: set<nat>, b: set<nat>)
    requires a <= b && |a| == |b|
    ensures a == b
  {
    if x :| x in b && x !in a {
      Sets.SubsetSize(a, b - {x});
    }
  }

  lemma NothingOlderDropped(jobs: map<nat, JobData>, kept: map<nat, JobData>, oldest: nat)
    requires Pruned(jobs, kept, MAX_JOB_HISTORY) && Ages(jobs) && oldest in kept
    requires forall id :: id in jobs ==> oldest <= id
    ensures kept.Keys == jobs.Keys
  {
    forall d | d in jobs
      ensures d in kept
    {
      assert d == oldest || jobs[oldest].created < jobs[d].created;
    }
  }

  // ---- Tips ----

  function TipOf(j: JobData): string {
    j.template.previousBlockHash
  }

  /** The tip the newest job is on. */
  function LatestTip(s: State): string {
    if s.jobCounter in s.jobs then TipOf(s.jobs[s.jobCounter]) else ""
  }

  /** A job is clean exactly when it is on another tip than the job before it; before the first there is none. */
  predicate CleanRight(seed: nat, jobs: map<nat, JobData>, id: nat)
    requires id in jobs
  {
    && (id == seed + 1 ==> (jobs[id].clean <==> TipOf(jobs[id]) != ""))
    && (id >= 1 && id - 1 in jobs ==> (jobs[id].clean <==> TipOf(jobs[id]) != TipOf(jobs[id - 1])))
  }

  ghost predicate Tips(seed: nat, s: State) {
    && s.jobCounter >= seed && Spans(s.jobs, Floor(seed, s.jobCounter), s.jobCounter)
    && Ages(s.jobs)
    && (forall id {:trigger CleanRight(seed, s.jobs, id)} :: id in s.jobs ==> CleanRight(seed, s.jobs, id))
    && (match s.refreshing
        case None => s.currentTip == LatestTip(s)
        case Some(r) =>
          s.currentTip == r.template.previousBlockHash && (r.clean <==> r.template.previousBlockHash != LatestTip(s)))
  }

  lemma FirstOrNext(seed: nat, s: State, kept: map<nat, JobData>, job: JobData)
    requires Tips(seed, s) && s.jobCounter + 1 in kept && kept[s.jobCounter + 1] == job
    requires forall id :: id in kept && id != s.jobCounter + 1 ==> id in s.jobs && kept[id] == s.jobs[id]
    requires job.clean <==> TipOf(job) != LatestTip(s)
    ensures CleanRight(seed, kept, s.jobCounter + 1)
  {
  }

  lemma OthersClean(seed: nat, s: State, kept: map<nat, JobData>, id: nat)
    requires Tips(seed, s) && id in s.jobs && id in kept && kept[id] == s.jobs[id] && id <= s.jobCounter
    requires id >= 1 && id - 1 in kept ==> id - 1 in s.jobs && kept[id - 1] == s.jobs[id - 1]
    ensures CleanRight(seed, kept, id)
  {
    assert CleanRight(seed, s.jobs, id);
  }

  lemma OneMoreKey(s: State, seed: nat, job: JobData)
    requires Tips(seed, s)
    ensures Spans(s.jobs[s.jobCounter + 1 := job], Floor(seed, s.jobCounter), s.jobCounter + 1)
  {
  }

  lemma OneMoreAge(jobs: map<nat, JobData>, id: nat, job: JobData)
    requires Ages(jobs) && forall i :: i in jobs ==> i < id && jobs[i].created < job.created
    ensures Ages(jobs[id := job])
  {
  }

  lemma AgesKept(jobs: map<nat, JobData>, kept: map<nat, JobData>)
    requires Ages(jobs) && Pruned(jobs, kept, MAX_JOB_HISTORY)
    ensures Ages(kept)
  {
  }

  /** The jobs there will be, whichever pruning leaves them. */
  lemma CommitKeeps(seed: nat, s: State, job: JobData, kept: map<nat, JobData>)
    requires Tips(seed, s) && forall id :: id in s.jobs ==> s.jobs[id].created < job.created
    requires Pruned(s.jobs[s.jobCounter + 1 := job], kept, MAX_JOB_HISTORY)
    ensures Spans(kept, Floor(seed, s.jobCounter + 1), s.jobCounter + 1) && Ages(kept)
    ensures s.jobCounter + 1 in kept && kept[s.jobCounter + 1] == job
    ensures forall id :: id in kept && id != s.jobCounter + 1 ==> id in s.jobs && kept[id] == s.jobs[id]
  {
    var all := s.jobs[s.jobCounter + 1 := job];
    OneMoreKey(s, seed, job);
    OneMoreAge(s.jobs, s.jobCounter + 1, job);
    PruningDropsLowest(all, kept, seed, s.jobCounter);
    AgesKept(all, kept);
  }

  lemma AllClean(seed: nat, s: State, kept: map<nat, JobData>, job: JobData)
    requires Tips(seed, s) && s.jobCounter + 1 in kept && kept[s.jobCounter + 1] == job
    requires forall id :: id in kept ==> id <= s.jobCounter + 1
    requires forall id :: id in kept && id != s.jobCounter + 1 ==> id in s.jobs && kept[id] == s.jobs[id]
    requires job.clean <==> TipOf(job) != LatestTip(s)
    ensures forall id {:trigger CleanRight(seed, kept, id)} :: id in kept ==> CleanRight(seed, kept, id)
  {
    FirstOrNext(seed, s, kept, job);
    forall id | id in kept && id != s.jobCounter + 1
      ensures CleanRight(seed, kept, id)
    {
      OthersClean(seed, s, kept, id);
    }
  }

  lemma CommitTips(build: Builder, fallback: string, seed: nat, s: State, kept: map<nat, JobData>, now: real)
    requires Tips(seed, s) && s.refreshing.Some? && s.refreshing.value.addresses.Some?
    requires forall id :: id in s.jobs ==> s.jobs[id].created < now
    requires Pruned(s.jobs[s.jobCounter + 1 := NewJob(build, fallback, s.refreshing.value, now)], kept, MAX_JOB_HISTORY)
    ensures Tips(seed, s.(jobs := kept, latest := s.jobCounter + 1, jobCounter := s.jobCounter + 1, refreshing := None))
  {
    var job := NewJob(build, fallback, s.refreshing.value, now);
    CommitKeeps(seed, s, job, kept);
    AllClean(seed, s, kept, job);
  }

  lemma FillTips(build: Builder, seed: nat, s: State, jobs: map<nat, JobData>, address: string)
    requires Tips(seed, s) && AllFilled(build, s.jobs, jobs, address)
    ensures Tips(seed, s.(jobs := jobs))
  {
    forall id | id in jobs
      ensures jobs[id].template == s.jobs[id].template && jobs[id].clean == s.jobs[id].clean
      ensures jobs[id].created == s.jobs[id].created
    {
    }
    forall id | id in jobs
      ensures CleanRight(seed, jobs, id)
    {
      assert CleanRight(seed, s.jobs, id);
    }
  }

  lemma SameJobs(seed: nat, s: State, s': State)
    requires Tips(seed, s) && s' == s.(connected := s'.connected, pending := s'.pending)
    ensures Tips(seed, s')
  {
  }

  lemma RefreshTips(seed: nat, s: State, t: Template, force: bool, now: real)
    requires Tips(seed, s) && LockFree(s) && !Skips(s, t, force, now)
    ensures Tips(seed, Begun(s, t, now))
  {
  }

  lemma ReadTips(seed: nat, s: State, addresses: seq<string>)
    requires Tips(seed, s) && s.refreshing.Some?
    ensures Tips(seed, s.(refreshing := Some(s.refreshing.value.(addresses := Some(addresses)))))
  {
  }

  lemma NextTips(build: Builder, fallback: string, seed: nat, s: System, e: Event, s': System)
    requires Tips(seed, s.jm) && Next(build, fallback, s, e, s')
    ensures Tips(seed, s'.jm)
  {
    match e
    case Begin(t, force, now) =>
      if !Skips(s.jm, t, force, now) {
        RefreshTips(seed, s.jm, t, force, now);
      }
    case Read(addresses) => ReadTips(seed, s.jm, addresses);
    case Commit(now) => CommitTips(build, fallback, seed, s.jm, s'.jm.jobs, now);
    case Fill(address) =>
      FillTips(build, seed, s.jm, s'.jm.jobs, address);
      SameJobs(seed, s.jm.(jobs := s'.jm.jobs), s'.jm);
    case Authorize(_, address) => SameJobs(seed, s.jm, Counted(s.jm, address));
    case Remove(session) => SameJobs(seed, s.jm, Uncounted(s.jm, s.sessions[session]));
  }

  lemma {:induction false} RunTips(build: Builder, fallback: string, seed: nat, pinned: Option<string>, states: seq<System>,
                                   n: nat)
    requires Run(build, fallback, seed, pinned, states) && n < |states|
    ensures Tips(seed, states[n].jm)
    decreases n
  {
    if n > 0 {
      RunTips(build, fallback, seed, pinned, states, n - 1);
      var e :| Next(build, fallback, states[n - 1], e, states[n]);
      NextTips(build, fallback, seed, states[n - 1], e, states[n]);
    }
  }

  /** In every run, whatever interleaves, the jobs kept are the latest twenty, none missing; and a job is clean exactly when it is
      on another tip than the job before it. */
  lemma LatestTwenty(build: Builder, fallback: string, seed: nat, pinned: Option<string>, states: seq<System>, n: nat)
    requires Run(build, fallback, seed, pinned, states) && n < |states|
    ensures var s := states[n].jm;
            forall id: nat :: id in s.jobs <==> seed < id <= s.jobCounter && id + 20 > s.jobCounter
  {
    RunTips(build, fallback, seed, pinned, states, n);
  }

  lemma CleanIff(build: Builder, fallback: string, seed: nat, pinned: Option<string>, states: seq<System>, n: nat, id: nat)
    requires Run(build, fallback, seed, pinned, states) && n < |states|
    requires id in states[n].jm.jobs
    ensures var jobs := states[n].jm.jobs;
            && (id == seed + 1 ==> (jobs[id].clean <==> jobs[id].template.previousBlockHash != ""))
            && (id > seed + 1 && id + 19 > states[n].jm.jobCounter ==>
                  && id - 1 in jobs
                  && (jobs[id].clean <==> jobs[id].template.previousBlockHash != jobs[id - 1].template.previousBlockHash))
  {
    RunTips(build, fallback, seed, pinned, states, n);
    assert CleanRight(seed, states[n].jm.jobs, id);
  }

  // ---- Refreshes on the same tip ----

  /** The events of a run beside its states. */
  ghost predicate Passes(build: Builder, fallback: string, seed: nat, pinned: Option<string>, states: seq<System>,
                         events: seq<Event>) {
    && |states| == |events| + 1 && states[0] == Start(seed, pinned)
    && forall i :: 0 <= i < |events| ==> Next(build, fallback, states[i], events[i], states[i + 1])
  }

  /** A refresh began, and for a clean job. */
  ghost predicate Began(s: System, e: Event, s': System) {
    e.Begin? && s.jm.refreshing.None? && s'.jm.refreshing.Some?
  }

  ghost predicate BeganClean(s: System, e: Event, s': System) {
    Began(s, e, s') && s'.jm.refreshing.value.clean
  }

  /** When the last refresh for a clean job began. */
  ghost function LastClean(states: seq<System>, events: seq<Event>, n: nat): real
    requires |states| == |events| + 1 && n < |states|
  {
    if n == 0 then 0.0
    else if BeganClean(states[n - 1], events[n - 1], states[n]) then events[n - 1].now
    else LastClean(states, events, n - 1)
  }

  lemma CleanTimeNext(build: Builder, fallback: string, s: System, e: Event, s': System)
    requires Next(build, fallback, s, e, s')
    ensures s'.jm.lastCleanJobAt == if BeganClean(s, e, s') then e.now else s.jm.lastCleanJobAt
  {
  }

  lemma CleanTimeStep(build: Builder, fallback: string, seed: nat, pinned: Option<string>, states: seq<System>,
                      events: seq<Event>, n: nat)
    requires Passes(build, fallback, seed, pinned, states, events) && 0 < n < |states|
    ensures states[n].jm.lastCleanJobAt
         == if BeganClean(states[n - 1], events[n - 1], states[n]) then events[n - 1].now else states[n - 1].jm.lastCleanJobAt
  {
    assert Next(build, fallback, states[n - 1], events[n - 1], states[n - 1 + 1]);
    CleanTimeNext(build, fallback, states[n - 1], events[n - 1], states[n]);
  }

  /** Times that follow the clean refreshes are the times of the last one. */
  lemma {:induction false} FollowsClean(states: seq<System>, events: seq<Event>, times: seq<real>, n: nat)
    requires |states| == |events| + 1 == |times| && n < |states| && times[0] == 0.0
    requires forall i {:trigger events[i]} :: 0 <= i < |events| ==>
               times[i + 1] == if BeganClean(states[i], events[i], states[i + 1]) then events[i].now else times[i]
    ensures times[n] == LastClean(states, events, n)
  {
    if n > 0 {
      FollowsClean(states, events, times, n - 1);
    }
  }

  lemma CleanTime(build: Builder, fallback: string, seed: nat, pinned: Option<string>, states: seq<System>,
                  events: seq<Event>, n: nat)
    requires Passes(build, fallback, seed, pinned, states, events) && n < |states|
    ensures states[n].jm.lastCleanJobAt == LastClean(states, events, n)
  {
    var times := seq(|states|, i requires 0 <= i < |states| => states[i].jm.lastCleanJobAt);
    forall i | 0 <= i < |events|
      ensures times[i + 1] == if BeganClean(states[i], events[i], states[i + 1]) then events[i].now else times[i]
    {
      CleanTimeStep(build, fallback, seed, pinned, states, events, i + 1);
    }
    FollowsClean(states, events, times, n);
  }

  /** In every run, an unforced template on the tip there is leads to a job only from half a minute after the last clean one was
      begun; a forced one, or one on another tip, always does. */
  lemma RefreshesIff(build: Builder, fallback: string, seed: nat, pinned: Option<string>, states: seq<System>,
                     events: seq<Event>, n: nat)
    requires Passes(build, fallback, seed, pinned, states, events) && n < |events| && events[n].Begin?
    ensures var e, s := events[n], states[n].jm;
            Began(states[n], e, states[n + 1]) <==>
              e.force || e.template.previousBlockHash != s.currentTip || e.now - LastClean(states, events, n) >= 30.0
  {
    CleanTime(build, fallback, seed, pinned, states, events, n);
    PassesIsRun(build, fallback, seed, pinned, states, events);
    RunInv(build, fallback, seed, pinned, states, n);
    assert Next(build, fallback, states[n], events[n], states[n + 1]);
  }

  lemma PassesIsRun(build: Builder, fallback: string, seed: nat, pinned: Option<string>, states: seq<System>,
                    events: seq<Event>)
    requires Passes(build, fallback, seed, pinned, states, events)
    ensures Run(build, fallback, seed, pinned, states)
  {
    forall i | 0 < i < |states|
      ensures Follows(build, fallback, states[i - 1], states[i])
    {
      assert Next(build, fallback, states[i - 1], events[i - 1], states[i]);
    }
  }
}
