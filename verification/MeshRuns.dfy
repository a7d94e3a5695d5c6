// A meshed miner over whole runs: shares find the coin their job came from, and jobs match the extranonce the miner has.
module MeshRuns {
  import opened Hex
  import opened JobIds
  import opened Mesh

  datatype Event =
    | Subscribes
    | TakesExtranonces
    | Authorizes(assignment: Assignment)
    | AuthorizeEnds
    | Submits(id: string)
    | SendsJob(coin: nat, job: CoinJob)
    | SendsDifficulty(coin: nat, difficulty: real)
    | Dies(coin: nat)
    | Redials(coin: nat, extranonce: string)
    | Revives(coin: nat)
    | FailbackTick
    | RotationTick(coin: nat, overdue: bool)
    | Reassigns(coin: nat, split: bool)
    | NumbersElsewhere
    | Leaves

  /** What can happen. The miner is read one message at a time, an authorize to its end; a coin's jobs are for its present
      connection; only dead coins are dialled again, and one comes back when its new connection has sent a job. */
  predicate Possible(s: State, e: Event) {
    match e
    case Subscribes => !s.closed && s.awaiting.None?
    case TakesExtranonces => !s.closed && s.awaiting.None?
    case Authorizes(_) => !s.closed && s.awaiting.None?
    case Submits(_) => !s.closed && s.awaiting.None?
    case AuthorizeEnds => s.awaiting.Some?
    case SendsJob(coin, job) => coin < |s.backends| && job.extranonce == s.backends[coin].extranonce
    case SendsDifficulty(coin, _) => coin < |s.backends|
    case Dies(coin) => coin < |s.backends|
    case Redials(coin, _) => coin < |s.backends| && s.backends[coin].dead
    case Revives(coin) => coin < |s.backends| && s.backends[coin].dead && s.backends[coin].hasJob
    case _ => true
  }

  function Step(epoch: string, s: State, e: Event): State
    requires Possible(s, e)
  {
    match e
    case Subscribes => Subscribed(s)
    case TakesExtranonces => Sends(s.(canSwitch := true), Answered)
    case Authorizes(a) => AuthorizeBegun(s, a)
    case AuthorizeEnds => AuthorizeDone(epoch, s)
    case Submits(id) => Submitted(s, id)
    case SendsJob(coin, job) => JobArrived(epoch, s, coin, job)
    case SendsDifficulty(coin, d) => DifficultyArrived(s, coin, d)
    case Dies(coin) => Died(epoch, s, coin)
    case Redials(coin, extranonce) => Redialled(s, coin, extranonce)
    case Revives(coin) => Revived(s, coin)
    case FailbackTick => FailedBack(epoch, s)
    case RotationTick(coin, overdue) => Rotated(epoch, s, coin, overdue)
    case Reassigns(coin, split) => Reassigned(s, coin, split)
    case NumbersElsewhere => s.(counter := s.counter + 1, elsewhere := s.elsewhere + {s.counter + 1})
    case Leaves => s.(closed := true)
  }

  // ---- The registry ----

  ghost predicate RecordInv(issued: seq<Issue>, counter: nat, elsewhere: set<nat>) {
    && (forall i, j :: 0 <= i < j < |issued| ==> issued[i].number < issued[j].number)
    && (forall i :: 0 <= i < |issued| ==> issued[i].number <= counter && issued[i].number !in elsewhere)
    && (forall n :: n in elsewhere ==> n <= counter)
  }

  /** How many registrations are forgotten. */
  function Forgotten(issued: seq<Issue>): nat {
    if |issued| <= 512 then 0 else |issued| - 512
  }

  /** An ID stands for the coin and job of its registration. */
  ghost predicate StandsFor(epoch: string, jobs: map<string, JobRef>, id: string, issue: Issue) {
    id == JobId(epoch, issue.number) && id in jobs && jobs[id] == JobRef(issue.coin, issue.job)
  }

  /** The registry is the registrations from `off` on: the order list has their IDs, and the map nothing else. */
  ghost predicate Holds(epoch: string, jobs: map<string, JobRef>, order: seq<string>, issued: seq<Issue>, off: nat) {
    && off <= |issued| && |order| == |issued| - off
    && (forall k :: 0 <= k < |order| ==> StandsFor(epoch, jobs, order[k], issued[off + k]))
    && (forall id :: id in jobs <==> id in order)
  }

  ghost predicate Registry(epoch: string, s: State) {
    RecordInv(s.issued, s.counter, s.elsewhere) && Holds(epoch, s.jobs, s.jobOrder, s.issued, Forgotten(s.issued))
  }

  /** Numbers in order give distinct IDs, and the next one is new. */
  lemma OrderDistinct(epoch: string, jobs: map<string, JobRef>, order: seq<string>, issued: seq<Issue>, off: nat,
                      counter: nat, elsewhere: set<nat>)
    requires RecordInv(issued, counter, elsewhere) && Holds(epoch, jobs, order, issued, off)
    ensures forall i, j :: 0 <= i < j < |order| ==> order[i] != order[j]
    ensures JobId(epoch, counter + 1) !in order
  {
    forall i, j | 0 <= i < j < |order|
      ensures order[i] != order[j]
    {
      assert StandsFor(epoch, jobs, order[i], issued[off + i]) && StandsFor(epoch, jobs, order[j], issued[off + j]);
      JobIdsDiffer(epoch, issued[off + i].number, epoch, issued[off + j].number);
    }
    forall i | 0 <= i < |order|
      ensures order[i] != JobId(epoch, counter + 1)
    {
      assert StandsFor(epoch, jobs, order[i], issued[off + i]);
      JobIdsDiffer(epoch, issued[off + i].number, epoch, counter + 1);
    }
  }

  lemma AddedKeeps(epoch: string, s: State, coin: nat, job: CoinJob)
    requires Registry(epoch, s)
    ensures Registry(epoch, Registered(epoch, s, coin, job))
  {
    var issue, id, off := Issue(s.counter + 1, coin, job), JobId(epoch, s.counter + 1), Forgotten(s.issued);
    OrderDistinct(epoch, s.jobs, s.jobOrder, s.issued, off, s.counter, s.elsewhere);
    RecordGrows(s.issued, s.counter, s.elsewhere, issue);
    HoldsMore(epoch, s.jobs, s.jobOrder, s.issued, off, issue, id);
    var s1 := Added(epoch, s, coin, job);
    assert Holds(epoch, s1.jobs, s1.jobOrder, s1.issued, off);
    TrimKeeps(epoch, s1, off);
  }

  lemma RecordGrows(issued: seq<Issue>, counter: nat, elsewhere: set<nat>, issue: Issue)
    requires RecordInv(issued, counter, elsewhere) && issue.number == counter + 1
    ensures RecordInv(issued + [issue], counter + 1, elsewhere)
  {
  }

  lemma HoldsMore(epoch: string, jobs: map<string, JobRef>, order: seq<string>, issued: seq<Issue>, off: nat,
                  issue: Issue, id: string)
    requires Holds(epoch, jobs, order, issued, off) && id == JobId(epoch, issue.number) && id !in order
    ensures Holds(epoch, jobs[id := JobRef(issue.coin, issue.job)], order + [id], issued + [issue], off)
  {
    var jobs', order', issued' := jobs[id := JobRef(issue.coin, issue.job)], order + [id], issued + [issue];
    forall k | 0 <= k < |order'|
      ensures StandsFor(epoch, jobs', order'[k], issued'[off + k])
    {
      if k < |order| {
        assert StandsFor(epoch, jobs, order[k], issued[off + k]);
      }
    }
  }

  lemma HoldsLess(epoch: string, jobs: map<string, JobRef>, order: seq<string>, issued: seq<Issue>, off: nat)
    requires Holds(epoch, jobs, order, issued, off) && order != []
    requires forall i, j :: 0 <= i < j < |order| ==> order[i] != order[j]
    ensures Holds(epoch, jobs - {order[0]}, order[1..], issued, off + 1)
  {
    var rest, left := order[1..], jobs - {order[0]};
    forall k | 0 <= k < |rest|
      ensures StandsFor(epoch, left, rest[k], issued[off + 1 + k])
    {
      assert StandsFor(epoch, jobs, order[k + 1], issued[off + (k + 1)]);
    }
    assert forall id :: id in order <==> id == order[0] || id in rest;
  }

  lemma TrimKeeps(epoch: string, s: State, off: nat)
    requires RecordInv(s.issued, s.counter, s.elsewhere) && Holds(epoch, s.jobs, s.jobOrder, s.issued, off)
    requires off == Forgotten(s.issued) || (off + 1 == Forgotten(s.issued) && |s.jobOrder| > MAX_TRACKED_JOBS)
    ensures Registry(epoch, Trimmed(s))
  {
    if |s.jobOrder| > MAX_TRACKED_JOBS {
      OffTrims(s, off);
      TrimHolds(epoch, s.jobs, s.jobOrder, s.issued, off, s.counter, s.elsewhere);
      Registering(epoch, s.(jobs := s.jobs - {s.jobOrder[0]}, jobOrder := s.jobOrder[1..]), off + 1);
    } else {
      Registering(epoch, s, off);
    }
  }

  lemma OffTrims(s: State, off: nat)
    requires |s.jobOrder| > MAX_TRACKED_JOBS && |s.jobOrder| == |s.issued| - off
    requires off == Forgotten(s.issued) || off + 1 == Forgotten(s.issued)
    ensures off + 1 == Forgotten(s.issued)
  {
  }

  lemma Registering(epoch: string, s: State, off: nat)
    requires RecordInv(s.issued, s.counter, s.elsewhere) && Holds(epoch, s.jobs, s.jobOrder, s.issued, off)
    requires off == Forgotten(s.issued)
    ensures Registry(epoch, s)
  {
  }

  lemma TrimHolds(epoch: string, jobs: map<string, JobRef>, order: seq<string>, issued: seq<Issue>, off: nat,
                  counter: nat, elsewhere: set<nat>)
    requires RecordInv(issued, counter, elsewhere) && Holds(epoch, jobs, order, issued, off) && order != []
    ensures Holds(epoch, jobs - {order[0]}, order[1..], issued, off + 1)
  {
    OrderDistinct(epoch, jobs, order, issued, off, counter, elsewhere);
    HoldsLess(epoch, jobs, order, issued, off);
  }

  /** Nothing else touches the registry. */
  ghost predicate SameRegistry(s: State, t: State) {
    s.jobs == t.jobs && s.jobOrder == t.jobOrder && s.issued == t.issued && s.counter == t.counter && s.elsewhere == t.elsewhere
  }

  lemma JobSentKeeps(epoch: string, s: State, coin: nat, job: CoinJob)
    requires Registry(epoch, s)
    ensures Registry(epoch, JobSent(epoch, s, coin, job))
  {
    if job.id != "" {
      AddedKeeps(epoch, s, coin, job);
    }
  }

  lemma ReplayedKeeps(epoch: string, s: State, coin: nat, given: Option<CoinJob>)
    requires Registry(epoch, s) && coin < |s.backends|
    ensures Registry(epoch, Replayed(epoch, s, coin, given))
  {
    var b := s.backends[coin];
    var s1 := DifficultySent(s.(backends := s.backends[coin := b.(live := true)]), coin);
    assert SameRegistry(s, s1);
    var notify := if given.Some? then given else b.lastNotify;
    if notify.Some? {
      JobSentKeeps(epoch, s1, coin, notify.value);
    }
  }

  lemma SwitchedKeeps(epoch: string, s: State, target: nat, given: Option<CoinJob>)
    requires Registry(epoch, s)
    ensures Registry(epoch, Switched(epoch, s, target, given))
  {
    if s.active != Some(target) && Alive(s, target) {
      var s1 := Warmed(s.(pending := None));
      assert SameRegistry(s, s1);
      if s1.canSwitch && !s1.closed {
        ReplayedKeeps(epoch, Told(s1.(active := Some(target)), target), target, given);
      }
    }
  }

  lemma JobRegistry(epoch: string, s: State, coin: nat, job: CoinJob)
    requires Registry(epoch, s) && coin < |s.backends|
    ensures Registry(epoch, JobArrived(epoch, s, coin, job))
  {
    var b := s.backends[coin];
    var s1 := s.(backends := s.backends[coin := b.(lastNotify := Some(job), hasJob := true)]);
    if b.live {
      JobSentKeeps(epoch, s1, coin, job);
    } else {
      SwitchedKeeps(epoch, s1, coin, Some(job));
    }
  }

  lemma AuthorizeRegistry(epoch: string, s: State)
    requires Registry(epoch, s)
    ensures Registry(epoch, AuthorizeDone(epoch, s))
  {
    if s.awaiting.Some? && s.awaiting.value < |s.backends| {
      ReplayedKeeps(epoch, Sends(s.(awaiting := None), Answered), s.awaiting.value, None);
    }
  }

  lemma DeathRegistry(epoch: string, s: State, coin: nat)
    requires Registry(epoch, s) && coin < |s.backends|
    ensures Registry(epoch, Died(epoch, s, coin))
  {
    var s1 := s.(backends := s.backends[coin := s.backends[coin].(dead := true)]);
    var next := FirstAlive(s1.backends, Some(coin), 0);
    if next.Some? {
      SwitchedKeeps(epoch, s1, next.value, None);
    }
  }

  lemma FailbackRegistry(epoch: string, s: State)
    requires Registry(epoch, s)
    ensures Registry(epoch, FailedBack(epoch, s))
  {
    var next := FirstAlive(s.backends, None, 0);
    if s.home.Some? {
      SwitchedKeeps(epoch, s, s.home.value, None);
    } else if next.Some? {
      SwitchedKeeps(epoch, s, next.value, None);
    }
  }

  lemma MinerRegistry(epoch: string, s: State, e: Event)
    requires Possible(s, e) && (e.Subscribes? || e.TakesExtranonces? || e.Authorizes? || e.Submits?)
    ensures SameRegistry(s, Step(epoch, s, e))
  {
    match e
    case Subscribes =>
    case TakesExtranonces =>
    case Authorizes(_) =>
    case Submits(_) =>
  }

  lemma QuietRegistry(epoch: string, s: State, e: Event)
    requires Possible(s, e) && (e.SendsDifficulty? || e.Redials? || e.Revives? || e.Reassigns? || e.Leaves?)
    ensures SameRegistry(s, Step(epoch, s, e))
  {
    match e
    case SendsDifficulty(_, _) =>
    case Redials(_, _) =>
    case Revives(_) =>
    case Reassigns(_, _) =>
    case Leaves =>
  }

  lemma StepRegistry(epoch: string, s: State, e: Event)
    requires Registry(epoch, s) && Possible(s, e)
    ensures Registry(epoch, Step(epoch, s, e))
  {
    match e
    case SendsJob(coin, job) => JobRegistry(epoch, s, coin, job);
    case AuthorizeEnds => AuthorizeRegistry(epoch, s);
    case Dies(coin) => DeathRegistry(epoch, s, coin);
    case FailbackTick => FailbackRegistry(epoch, s);
    case RotationTick(coin, _) => SwitchedKeeps(epoch, s, coin, None);
    case NumbersElsewhere =>
    case Subscribes => MinerRegistry(epoch, s, e);
    case TakesExtranonces => MinerRegistry(epoch, s, e);
    case Authorizes(_) => MinerRegistry(epoch, s, e);
    case Submits(_) => MinerRegistry(epoch, s, e);
    case _ => QuietRegistry(epoch, s, e);
  }

  // ---- Extranonces ----

  /** The extranonce the miner was told last. */
  function LastExtranonce(sent: seq<ToMiner>): Option<string> {
    if sent == [] then None
    else if sent[|sent| - 1].Extranonce? then Some(sent[|sent| - 1].value)
    else LastExtranonce(sent[..|sent| - 1])
  }

  /** The job a coin would replay is for its present connection, for a coin that is up or about to be. */
  predicate FreshJob(b: Backend) {
    b.lastNotify.Some? && (b.hasJob || !b.dead) ==> b.lastNotify.value.extranonce == b.extranonce
  }

  predicate CachesFresh(backends: seq<Backend>) {
    && (forall b :: 0 <= b < |backends| ==> FreshJob(backends[b]))
    && (forall b :: 0 <= b < |backends| && backends[b].hasJob ==> backends[b].lastNotify.Some?)
  }

  /** The active coin of an open session is up. */
  predicate TuneInv(s: State) {
    CachesFresh(s.backends) && (!s.closed ==> s.active.Some? && Alive(s, s.active.value))
  }

  /** The extranonce the miner was told last is that of its coin. */
  predicate Heard(s: State) {
    !s.closed ==> s.active.Some? && s.active.value < |s.backends|
                  && LastExtranonce(s.sent) == Some(s.backends[s.active.value].extranonce)
  }

  /** Of the messages from `k` on, every job is for the extranonce the miner had when it was sent. */
  ghost predicate InTuneFrom(sent: seq<ToMiner>, k: nat) {
    forall i :: k <= i < |sent| && sent[i].Job? ==> LastExtranonce(sent[..i]) == Some(sent[i].job.extranonce)
  }

  /** A run of messages that tells no extranonce leaves the last one told, and is in tune when all its jobs are for that one. */
  lemma {:induction false} Follow(sent: seq<ToMiner>, ms: seq<ToMiner>)
    requires forall i :: 0 <= i < |ms| ==> !ms[i].Extranonce?
    ensures LastExtranonce(sent + ms) == LastExtranonce(sent)
    decreases |ms|
  {
    if ms == [] {
      assert sent + ms == sent;
    } else {
      var n := |ms| - 1;
      Follow(sent, ms[..n]);
      assert (sent + ms)[..|sent| + n] == sent + ms[..n];
    }
  }

  lemma FollowInTune(sent: seq<ToMiner>, ms: seq<ToMiner>, k: nat)
    requires forall i :: 0 <= i < |ms| ==> !ms[i].Extranonce?
    requires forall i :: 0 <= i < |ms| && ms[i].Job? ==> LastExtranonce(sent) == Some(ms[i].job.extranonce)
    requires InTuneFrom(sent, k)
    ensures InTuneFrom(sent + ms, k)
  {
    var all := sent + ms;
    forall i | k <= i < |all| && all[i].Job?
      ensures LastExtranonce(all[..i]) == Some(all[i].job.extranonce)
    {
      if i < |sent| {
        assert all[..i] == sent[..i];
      } else {
        assert all[..i] == sent + ms[..i - |sent|];
        Follow(sent, ms[..i - |sent|]);
      }
    }
  }

  lemma Tells(sent: seq<ToMiner>, value: string)
    ensures LastExtranonce(sent + [Extranonce(value)]) == Some(value)
    ensures InTuneFrom(sent + [Extranonce(value)], |sent|)
  {
  }

  /** What a replay says: never an extranonce, and no job but the one replayed. */
  lemma ReplayedSays(epoch: string, s: State, coin: nat, given: Option<CoinJob>) returns (ms: seq<ToMiner>)
    requires coin < |s.backends|
    ensures var t := Replayed(epoch, s, coin, given);
            && t.sent == s.sent + ms && t.closed == s.closed && t.active == s.active
            && t.backends == s.backends[coin := s.backends[coin].(live := true)]
    ensures s.closed ==> ms == []
    ensures var notify := if given.Some? then given else s.backends[coin].lastNotify;
            && (forall i :: 0 <= i < |ms| ==> !ms[i].Extranonce? && (ms[i].Job? ==> notify == Some(ms[i].job)))
            && (!s.closed && notify.Some? ==> ms != [] && ms[|ms| - 1].Job?)
  {
    var b := s.backends[coin];
    var s1 := DifficultySent(s.(backends := s.backends[coin := b.(live := true)]), coin);
    ms := if s.closed || b.lastDifficulty.None? then [] else [Difficulty(coin, b.lastDifficulty.value)];
    assert s1.sent == s.sent + ms;
    var notify := if given.Some? then given else b.lastNotify;
    if notify.Some? {
      var more := JobSays(epoch, s1, coin, notify.value);
      assert s.sent + ms + more == s.sent + (ms + more);
      ms := ms + more;
    }
  }

  lemma JobSays(epoch: string, s: State, coin: nat, job: CoinJob) returns (ms: seq<ToMiner>)
    ensures var t := JobSent(epoch, s, coin, job);
            && t.sent == s.sent + ms && t.closed == s.closed && t.active == s.active
            && t.backends == s.backends
    ensures if s.closed then ms == [] else |ms| == 1 && ms[0].Job? && ms[0].job == job
  {
    ms := if s.closed then [] else [Job(if job.id == "" then "" else JobId(epoch, s.counter + 1), coin, job)];
  }

  /** A move leaves the miner on the target with the target's extranonce, and the job it starts on is the target's. */
  lemma SwitchedInTune(epoch: string, s: State, target: nat, given: Option<CoinJob>)
    requires CachesFresh(s.backends)
    requires s.active == Some(target) || !Alive(s, target) ==> TuneInv(s)
    requires given.Some? && target < |s.backends| ==> given.value.extranonce == s.backends[target].extranonce
    ensures var t := Switched(epoch, s, target, given);
            && TuneInv(t) && InTuneFrom(t.sent, |s.sent|)
            && (Heard(s) || (s.active != Some(target) && Alive(s, target)) ==> Heard(t))
  {
    if s.active != Some(target) && Alive(s, target) {
      var s1 := Warmed(s.(pending := None));
      WarmedFresh(s.(pending := None));
      ArrivedInTune(epoch, s1, target, given);
    }
  }

  lemma ArrivedInTune(epoch: string, s: State, target: nat, given: Option<CoinJob>)
    requires CachesFresh(s.backends) && Alive(s, target)
    requires given.Some? ==> given.value.extranonce == s.backends[target].extranonce
    ensures var t := Arrived(epoch, s, target, given);
            TuneInv(t) && Heard(t) && InTuneFrom(t.sent, |s.sent|)
  {
    if s.canSwitch && !s.closed {
      var s2 := Told(s.(active := Some(target)), target);
      Tells(s.sent, s.backends[target].extranonce);
      var ms := ReplayedSays(epoch, s2, target, given);
      assert FreshJob(s.backends[target]);
      Follow(s2.sent, ms);
      FollowInTune(s2.sent, ms, |s.sent|);
      LiveFresh(s.backends, target);
    }
  }

  lemma WarmedFresh(s: State)
    requires CachesFresh(s.backends)
    ensures var t := Warmed(s);
            && CachesFresh(t.backends) && |t.backends| == |s.backends| && t.sent == s.sent && t.closed == s.closed
            && t.active == s.active && t.canSwitch == s.canSwitch
            && forall b :: 0 <= b < |s.backends| ==>
                 t.backends[b].dead == s.backends[b].dead && t.backends[b].extranonce == s.backends[b].extranonce
  {
  }

  lemma LiveFresh(backends: seq<Backend>, coin: nat)
    requires CachesFresh(backends) && coin < |backends|
    ensures CachesFresh(backends[coin := backends[coin].(live := true)])
  {
  }

  /** The coin whose job a step passes on without telling the miner an extranonce first. */
  function PassesOn(s: State, e: Event): Option<nat>
    requires Possible(s, e)
  {
    match e
    case SendsJob(coin, _) => if s.backends[coin].live && s.active == Some(coin) && !s.closed then Some(coin) else None
    case AuthorizeEnds =>
      if s.awaiting.value < |s.backends| && s.backends[s.awaiting.value].hasJob && !s.closed then s.awaiting else None
    case _ => None
  }

  /** That coin's extranonce is the one the miner was told last. */
  predicate Matches(s: State, e: Event)
    requires Possible(s, e)
  {
    PassesOn(s, e).Some? ==> LastExtranonce(s.sent) == Some(s.backends[PassesOn(s, e).value].extranonce)
  }

  ghost predicate StepGood(epoch: string, s: State, e: Event)
    requires Possible(s, e)
  {
    var t := Step(epoch, s, e);
    && TuneInv(t) && (InTuneFrom(t.sent, |s.sent|) <==> Matches(s, e))
    && (e.Subscribes? || (Heard(s) && !e.Authorizes?) ==> Heard(t))
  }

  /** Jobs of one connection, passed on with no extranonce told, are in tune exactly when its extranonce was told last. */
  lemma PassedOn(sent: seq<ToMiner>, ms: seq<ToMiner>, extranonce: string)
    requires forall i :: 0 <= i < |ms| ==> !ms[i].Extranonce? && (ms[i].Job? ==> ms[i].job.extranonce == extranonce)
    requires ms != [] && ms[|ms| - 1].Job?
    ensures InTuneFrom(sent + ms, |sent|) <==> LastExtranonce(sent) == Some(extranonce)
  {
    var n := |ms| - 1;
    if LastExtranonce(sent) == Some(extranonce) {
      FollowInTune(sent, ms, |sent|);
    } else {
      assert (sent + ms)[..|sent| + n] == sent + ms[..n];
      Follow(sent, ms[..n]);
      assert (sent + ms)[|sent| + n] == ms[n];
    }
  }

  lemma JobStep(epoch: string, s: State, coin: nat, job: CoinJob)
    requires TuneInv(s) && Possible(s, SendsJob(coin, job))
    ensures StepGood(epoch, s, SendsJob(coin, job))
  {
    var b := s.backends[coin];
    var s1 := s.(backends := s.backends[coin := b.(lastNotify := Some(job), hasJob := true)]);
    assert TuneInv(s1);
    if b.live {
      if s.active == Some(coin) {
        var ms := JobSays(epoch, s1, coin, job);
        Follow(s.sent, ms);
        if !s.closed {
          PassedOn(s.sent, ms, job.extranonce);
        }
      }
    } else if s.pending == Some(coin) {
      SwitchedInTune(epoch, s1, coin, Some(job));
    }
  }

  lemma Says(s: State, m: ToMiner)
    requires TuneInv(s) && !m.Extranonce? && !m.Job?
    ensures TuneInv(Sends(s, m)) && InTuneFrom(Sends(s, m).sent, |s.sent|) && (Heard(s) ==> Heard(Sends(s, m)))
  {
    Follow(s.sent, [m]);
    FollowInTune(s.sent, [m], |s.sent|);
  }

  lemma DifficultyStep(epoch: string, s: State, coin: nat, d: real)
    requires TuneInv(s) && Possible(s, SendsDifficulty(coin, d))
    ensures StepGood(epoch, s, SendsDifficulty(coin, d))
  {
    var s1 := s.(backends := s.backends[coin := s.backends[coin].(lastDifficulty := Some(d))]);
    assert TuneInv(s1);
    Says(s1, Difficulty(coin, d));
  }

  lemma DeathStep(epoch: string, s: State, coin: nat)
    requires TuneInv(s) && Possible(s, Dies(coin))
    ensures StepGood(epoch, s, Dies(coin))
  {
    var s1 := s.(backends := s.backends[coin := s.backends[coin].(dead := true)]);
    assert CachesFresh(s1.backends);
    if !s.backends[coin].dead && !s.closed && s.active == Some(coin) {
      var next := FirstAlive(s1.backends, Some(coin), 0);
      if next.Some? {
        SwitchedInTune(epoch, s1, next.value, None);
      }
    }
  }

  lemma AuthorizeEndStep(epoch: string, s: State)
    requires TuneInv(s) && Possible(s, AuthorizeEnds)
    ensures StepGood(epoch, s, AuthorizeEnds)
  {
    if s.awaiting.value < |s.backends| && s.backends[s.awaiting.value].hasJob && !s.closed {
      ReplayStep(epoch, s, s.awaiting.value);
    }
  }

  /** What an authorize that ends says. */
  lemma AuthorizeSays(epoch: string, s: State, coin: nat) returns (ms: seq<ToMiner>)
    requires TuneInv(s) && !s.closed && s.awaiting == Some(coin) && coin < |s.backends| && s.backends[coin].hasJob
    ensures var t := AuthorizeDone(epoch, s);
            && t.sent == s.sent + ms && t.closed == s.closed && t.active == s.active
            && t.backends == s.backends[coin := s.backends[coin].(live := true)]
    ensures ms != [] && ms[|ms| - 1].Job?
    ensures forall i :: 0 <= i < |ms| ==>
              !ms[i].Extranonce? && (ms[i].Job? ==> ms[i].job.extranonce == s.backends[coin].extranonce)
  {
    var s1 := Sends(s.(awaiting := None), Answered);
    var more := ReplayedSays(epoch, s1, coin, None);
    ms := [Answered] + more;
    assert s1.sent + more == s.sent + ms;
    assert FreshJob(s.backends[coin]);
    assert ms[|ms| - 1] == more[|more| - 1];
  }

  lemma ReplayStep(epoch: string, s: State, coin: nat)
    requires TuneInv(s) && !s.closed && s.awaiting == Some(coin) && coin < |s.backends| && s.backends[coin].hasJob
    ensures var t := AuthorizeDone(epoch, s);
            && TuneInv(t) && (Heard(s) ==> Heard(t))
            && (InTuneFrom(t.sent, |s.sent|) <==> LastExtranonce(s.sent) == Some(s.backends[coin].extranonce))
  {
    var ms := AuthorizeSays(epoch, s, coin);
    PassedOn(s.sent, ms, s.backends[coin].extranonce);
    Follow(s.sent, ms);
    LiveFresh(s.backends, coin);
  }

  lemma SubscribeStep(epoch: string, s: State)
    requires TuneInv(s) && Possible(s, Subscribes)
    ensures StepGood(epoch, s, Subscribes)
  {
    Tells(s.sent, s.backends[s.active.value].extranonce);
  }

  lemma AuthorizeStep(epoch: string, s: State, a: Assignment)
    requires TuneInv(s) && Possible(s, Authorizes(a))
    ensures StepGood(epoch, s, Authorizes(a))
  {
  }

  lemma MinerStep(epoch: string, s: State, e: Event)
    requires TuneInv(s) && Possible(s, e) && (e.TakesExtranonces? || e.Submits?)
    ensures StepGood(epoch, s, e)
  {
    match e
    case TakesExtranonces => Says(s.(canSwitch := true), Answered);
    case Submits(id) => Says(s, Stale(id));
  }

  lemma DialledStep(epoch: string, s: State, e: Event)
    requires TuneInv(s) && Possible(s, e) && (e.Redials? || e.Revives?)
    ensures StepGood(epoch, s, e)
  {
  }

  lemma QuietStep(epoch: string, s: State, e: Event)
    requires TuneInv(s) && Possible(s, e) && (e.Reassigns? || e.NumbersElsewhere? || e.Leaves?)
    ensures StepGood(epoch, s, e)
  {
  }

  lemma FailbackStep(epoch: string, s: State)
    requires TuneInv(s)
    ensures StepGood(epoch, s, FailbackTick)
  {
    var next := FirstAlive(s.backends, None, 0);
    if s.home.Some? {
      SwitchedInTune(epoch, s, s.home.value, None);
    } else if next.Some? {
      SwitchedInTune(epoch, s, next.value, None);
    }
  }

  lemma RotationStep(epoch: string, s: State, coin: nat, overdue: bool)
    requires TuneInv(s)
    ensures StepGood(epoch, s, RotationTick(coin, overdue))
  {
    SwitchedInTune(epoch, s, coin, None);
  }

  lemma StepInTune(epoch: string, s: State, e: Event)
    requires TuneInv(s) && Possible(s, e)
    ensures StepGood(epoch, s, e)
  {
    match e
    case SendsJob(coin, job) => JobStep(epoch, s, coin, job);
    case SendsDifficulty(coin, d) => DifficultyStep(epoch, s, coin, d);
    case Dies(coin) => DeathStep(epoch, s, coin);
    case AuthorizeEnds => AuthorizeEndStep(epoch, s);
    case Subscribes => SubscribeStep(epoch, s);
    case Authorizes(a) => AuthorizeStep(epoch, s, a);
    case FailbackTick => FailbackStep(epoch, s);
    case RotationTick(coin, overdue) => RotationStep(epoch, s, coin, overdue);
    case TakesExtranonces => MinerStep(epoch, s, e);
    case Submits(_) => MinerStep(epoch, s, e);
    case Redials(_, _) => DialledStep(epoch, s, e);
    case Revives(_) => DialledStep(epoch, s, e);
    case _ => QuietStep(epoch, s, e);
  }

  // ---- Whole runs ----

  /** A session as it is bonded: each coin connected or down, none live, nothing received from any. */
  predicate Bondable(backends: seq<Backend>) {
    forall b :: 0 <= b < |backends| ==>
      !backends[b].live && !backends[b].hasJob && backends[b].lastNotify.None? && backends[b].lastDifficulty.None?
  }

  ghost predicate Run(epoch: string, backends: seq<Backend>, counter: nat, elsewhere: set<nat>,
                      states: seq<State>, events: seq<Event>)
  {
    && Bondable(backends) && (forall n :: n in elsewhere ==> n <= counter)
    && |states| == |events| + 1 && states[0] == Bonded(backends, counter, elsewhere)
    && forall i :: 0 <= i < |events| ==> Possible(states[i], events[i]) && states[i + 1] == Step(epoch, states[i], events[i])
  }

  lemma {:induction false} RunInv(epoch: string, backends: seq<Backend>, counter: nat, elsewhere: set<nat>,
                                  states: seq<State>, events: seq<Event>, n: nat)
    requires Run(epoch, backends, counter, elsewhere, states, events) && n < |states|
    ensures Registry(epoch, states[n]) && TuneInv(states[n])
  {
    if n > 0 {
      RunInv(epoch, backends, counter, elsewhere, states, events, n - 1);
      StepRegistry(epoch, states[n - 1], events[n - 1]);
      StepInTune(epoch, states[n - 1], events[n - 1]);
    }
  }

  // ---- Shares ----

  /** A share for one of the last 512 registered jobs goes to that job's coin and nowhere else, under the coin's own ID. */
  lemma SharesFindTheirCoin(epoch: string, s: State, k: nat)
    requires Registry(epoch, s) && Forgotten(s.issued) <= k < |s.issued|
    ensures var t := Submitted(s, JobId(epoch, s.issued[k].number));
            t.forwarded == s.forwarded + [Forward(s.issued[k].coin, s.issued[k].job.id)] && t.sent == s.sent
  {
    IssuedIsHeld(epoch, s.jobs, s.jobOrder, s.issued, Forgotten(s.issued), k);
  }

  lemma HeldIsIssued(epoch: string, jobs: map<string, JobRef>, order: seq<string>, issued: seq<Issue>, off: nat, id: string)
    requires Holds(epoch, jobs, order, issued, off) && id in jobs
    ensures exists k :: off <= k < |issued| && JobId(epoch, issued[k].number) == id
  {
    var i :| 0 <= i < |order| && order[i] == id;
    assert StandsFor(epoch, jobs, order[i], issued[off + i]);
  }

  lemma IssuedIsHeld(epoch: string, jobs: map<string, JobRef>, order: seq<string>, issued: seq<Issue>, off: nat, k: nat)
    requires Holds(epoch, jobs, order, issued, off) && off <= k < |issued|
    ensures StandsFor(epoch, jobs, JobId(epoch, issued[k].number), issued[k])
  {
    assert StandsFor(epoch, jobs, order[k - off], issued[off + (k - off)]);
  }

  /** The registry knows exactly the IDs of the last registrations. */
  lemma KnownIffIssued(epoch: string, s: State, id: string)
    requires Registry(epoch, s)
    ensures id in s.jobs <==> exists k :: Forgotten(s.issued) <= k < |s.issued| && JobId(epoch, s.issued[k].number) == id
  {
    var off := Forgotten(s.issued);
    if id in s.jobs {
      HeldIsIssued(epoch, s.jobs, s.jobOrder, s.issued, off, id);
    } else if k :| off <= k < |s.issued| && JobId(epoch, s.issued[k].number) == id {
      IssuedIsHeld(epoch, s.jobs, s.jobOrder, s.issued, off, k);
    }
  }

  /** A share for any other job is forwarded nowhere and answered stale. */
  lemma OtherSharesAreStale(epoch: string, s: State, id: string)
    requires Registry(epoch, s) && id != "" && !s.closed
    requires forall k :: Forgotten(s.issued) <= k < |s.issued| ==> JobId(epoch, s.issued[k].number) != id
    ensures var t := Submitted(s, id);
            t.forwarded == s.forwarded && t.sent == s.sent + [Stale(id)]
  {
    KnownIffIssued(epoch, s, id);
  }

  /** So a share from another session of this start, or from another start of the engine, is never taken for one of these. */
  lemma ForeignSharesAreStale(epoch: string, s: State, other: string, n: nat)
    requires Registry(epoch, s) && !s.closed && |other| == |epoch| && (other != epoch || n in s.elsewhere)
    ensures var t := Submitted(s, JobId(other, n));
            t.forwarded == s.forwarded && t.sent == s.sent + [Stale(JobId(other, n))]
  {
    forall k | Forgotten(s.issued) <= k < |s.issued|
      ensures JobId(epoch, s.issued[k].number) != JobId(other, n)
    {
      JobIdsDiffer(epoch, s.issued[k].number, other, n);
    }
    OtherSharesAreStale(epoch, s, JobId(other, n));
  }

  /** Every share in a run is routed so. */
  lemma RunRoutes(epoch: string, backends: seq<Backend>, counter: nat, elsewhere: set<nat>,
                  states: seq<State>, events: seq<Event>, n: nat)
    requires Run(epoch, backends, counter, elsewhere, states, events) && n < |events|
    requires events[n].Submits? && events[n].id != ""
    ensures var s, t, id := states[n], states[n + 1], events[n].id;
            (t.forwarded == s.forwarded && t.sent == s.sent + [Stale(id)])
            || exists k :: Forgotten(s.issued) <= k < |s.issued| && id == JobId(epoch, s.issued[k].number)
                           && t.sent == s.sent
                           && t.forwarded == s.forwarded + [Forward(s.issued[k].coin, s.issued[k].job.id)]
  {
    var s, id := states[n], events[n].id;
    RunInv(epoch, backends, counter, elsewhere, states, events, n);
    if k :| Forgotten(s.issued) <= k < |s.issued| && id == JobId(epoch, s.issued[k].number) {
      SharesFindTheirCoin(epoch, s, k);
    } else {
      OtherSharesAreStale(epoch, s, id);
    }
  }

  // ---- Jobs and extranonces ----

  /** In every run, the jobs a step sends are for the extranonce the miner was told last before each exactly when the coin
      whose job it passes on as it is, if any, has the extranonce told last. */
  lemma JobsMatchIff(epoch: string, backends: seq<Backend>, counter: nat, elsewhere: set<nat>,
                     states: seq<State>, events: seq<Event>, n: nat)
    requires Run(epoch, backends, counter, elsewhere, states, events) && n < |events|
    ensures InTuneFrom(states[n + 1].sent, |states[n].sent|) <==> Matches(states[n], events[n])
  {
    RunInv(epoch, backends, counter, elsewhere, states, events, n);
    StepInTune(epoch, states[n], events[n]);
  }

  lemma BegunSame(s: State, a: Assignment)
    requires TuneInv(s) && Possible(s, Authorizes(a))
    ensures var s1 := AuthorizeBegun(s, a);
            && TuneInv(s1) && s1.sent == s.sent && s1.backends == s.backends && !s1.closed && s1.awaiting == s1.active
            && s1.active.Some? && s1.active.value < |s.backends|
  {
  }

  /** So an authorize that ends at once is in tune exactly when the coin it puts the miner on has the extranonce of the one
      before, when the miner had that. */
  lemma AuthorizeMatchesIff(epoch: string, s: State, a: Assignment, coin: nat)
    requires TuneInv(s) && Heard(s) && Possible(s, Authorizes(a))
    requires AuthorizeBegun(s, a).active == Some(coin) && coin < |s.backends| && s.backends[coin].hasJob
    ensures InTuneFrom(AuthorizeDone(epoch, AuthorizeBegun(s, a)).sent, |s.sent|)
            <==> s.backends[coin].extranonce == s.backends[s.active.value].extranonce
  {
    BegunSame(s, a);
    ReplayStep(epoch, AuthorizeBegun(s, a), coin);
  }

  /** From a subscribe, or any time the miner has its coin's extranonce, until an authorize begins or one ends after the miner
      was moved off its coin, every job the miner is sent is for the extranonce it was told last. */
  lemma {:induction false} InTuneUntilAuthorize(epoch: string, backends: seq<Backend>, counter: nat, elsewhere: set<nat>,
                                                states: seq<State>, events: seq<Event>, from: nat, n: nat)
    requires Run(epoch, backends, counter, elsewhere, states, events) && from <= n < |events|
    requires events[from].Subscribes? || Heard(states[from])
    requires forall i :: from <= i <= n ==>
               !events[i].Authorizes? && (events[i].AuthorizeEnds? ==> states[i].awaiting == states[i].active)
    ensures Heard(states[n + 1]) && InTuneFrom(states[n + 1].sent, |states[n].sent|)
  {
    RunInv(epoch, backends, counter, elsewhere, states, events, n);
    if from < n {
      InTuneUntilAuthorize(epoch, backends, counter, elsewhere, states, events, from, n - 1);
    }
    StepInTune(epoch, states[n], events[n]);
  }

  /** The miner is on a coin and the last thing it was sent is a job of that coin, just registered. */
  ghost predicate Landed(t: State, coin: nat, job: CoinJob) {
    && t.active == Some(coin) && t.pending == None
    && t.sent != [] && t.sent[|t.sent| - 1].Job? && t.sent[|t.sent| - 1].job == job
    && t.issued != [] && t.issued[|t.issued| - 1] == Issue(t.counter, coin, job)
  }

  lemma ArrivedLands(epoch: string, s: State, coin: nat, job: CoinJob)
    requires coin < |s.backends| && s.canSwitch && !s.closed && s.pending == None && job.id != ""
    ensures Landed(Arrived(epoch, s, coin, Some(job)), coin, job)
  {
    var s1 := Told(s.(active := Some(coin)), coin);
    var ms := ReplayedSays(epoch, s1, coin, Some(job));
    ReplayIssues(epoch, s1, coin, job);
  }

  lemma WarmedStays(s: State)
    ensures var t := Warmed(s);
            t.canSwitch == s.canSwitch && t.closed == s.closed && t.pending == s.pending && |t.backends| == |s.backends|
  {
  }

  /** A deferred move happens on the target's own job: that job is the last thing the miner is sent, freshly registered, and the
      move is no longer pending. */
  lemma MoveLandsOnItsJob(epoch: string, s: State, coin: nat, job: CoinJob)
    requires Possible(s, SendsJob(coin, job)) && job.id != ""
    requires s.pending == Some(coin) && s.active != Some(coin) && !s.backends[coin].live && !s.backends[coin].dead
    requires s.canSwitch && !s.closed
    ensures Landed(JobArrived(epoch, s, coin, job), coin, job)
  {
    var s1 := s.(backends := s.backends[coin := s.backends[coin].(lastNotify := Some(job), hasJob := true)]);
    WarmedStays(s1.(pending := None));
    ArrivedLands(epoch, Warmed(s1.(pending := None)), coin, job);
  }

  lemma JobIssues(epoch: string, s: State, coin: nat, job: CoinJob)
    requires job.id != ""
    ensures var t := JobSent(epoch, s, coin, job);
            t.issued == s.issued + [Issue(s.counter + 1, coin, job)] && t.counter == s.counter + 1 && t.pending == s.pending
  {
  }

  lemma ReplayIssues(epoch: string, s: State, coin: nat, job: CoinJob)
    requires coin < |s.backends| && job.id != ""
    ensures var t := Replayed(epoch, s, coin, Some(job));
            t.issued == s.issued + [Issue(s.counter + 1, coin, job)] && t.counter == s.counter + 1 && t.pending == s.pending
  {
    var s1 := DifficultySent(s.(backends := s.backends[coin := s.backends[coin].(live := true)]), coin);
    assert s1.issued == s.issued && s1.counter == s.counter && s1.pending == s.pending;
    JobIssues(epoch, s1, coin, job);
  }
}
