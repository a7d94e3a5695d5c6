// One miner behind the mesh: bonded to several coins, fed by one, its jobs renamed so that a share finds its way back.
module Mesh {
  import opened Hex
  import opened JobIds

  const MAX_TRACKED_JOBS := 512

  /** A job as a coin issues it: the coin's own ID for it, and the extranonce of the connection it is for. */
  datatype CoinJob = CoinJob(id: string, extranonce: string)

  /** A connection to one coin. Only a live one forwards to the miner; `hasJob` is signalled by its first job. */
  datatype Backend = Backend(live: bool, dead: bool, hasJob: bool, extranonce: string,
                             lastNotify: Option<CoinJob>, lastDifficulty: Option<real>)

  datatype JobRef = JobRef(coin: nat, job: CoinJob)

  /** What the miner is sent. A job carries the ID it is sent under, and the coin and job behind it. */
  datatype ToMiner =
    | Extranonce(value: string)
    | Difficulty(source: nat, difficulty: real)
    | Job(id: string, coin: nat, job: CoinJob)
    | Stale(id: string)
    | Answered

  datatype Forward = Forward(coin: nat, jobId: string)

  /** A registration, in the order they were made. */
  datatype Issue = Issue(number: nat, coin: nat, job: CoinJob)

  /** The session; `awaiting` is the coin an authorize in progress waits on. Behind it the records kept to reason with: every
      registration, everything sent and forwarded, and the numbers given to other sessions. */
  datatype State = State(active: Option<nat>, pending: Option<nat>, home: Option<nat>, rotating: bool, canSwitch: bool,
                         closed: bool, awaiting: Option<nat>, jobs: map<string, JobRef>, jobOrder: seq<string>,
                         backends: seq<Backend>, counter: nat,
                         issued: seq<Issue>, sent: seq<ToMiner>, forwarded: seq<Forward>, elsewhere: set<nat>)

  function Sends(s: State, m: ToMiner): State {
    if s.closed then s else s.(sent := s.sent + [m])
  }

  function Alive(s: State, b: nat): bool {
    b < |s.backends| && !s.backends[b].dead
  }

  // ---- Jobs ----

  /** A job gets the next ID. */
  function Added(epoch: string, s: State, coin: nat, job: CoinJob): State {
    var id := JobId(epoch, s.counter + 1);
    s.(counter := s.counter + 1, issued := s.issued + [Issue(s.counter + 1, coin, job)],
       jobs := s.jobs[id := JobRef(coin, job)], jobOrder := s.jobOrder + [id])
  }

  /** The oldest job is forgotten once there are too many. */
  function Trimmed(s: State): State {
    if |s.jobOrder| > MAX_TRACKED_JOBS then s.(jobs := s.jobs - {s.jobOrder[0]}, jobOrder := s.jobOrder[1..]) else s
  }

  function Registered(epoch: string, s: State, coin: nat, job: CoinJob): State {
    Trimmed(Added(epoch, s, coin, job))
  }

  /** A job on its way to the miner; one without an ID goes as it is. */
  function JobSent(epoch: string, s: State, coin: nat, job: CoinJob): State {
    if job.id == "" then Sends(s, Job("", coin, job))
    else Sends(Registered(epoch, s, coin, job), Job(JobId(epoch, s.counter + 1), coin, job))
  }

  function DifficultySent(s: State, coin: nat): State
    requires coin < |s.backends|
  {
    match s.backends[coin].lastDifficulty
    case None => s
    case Some(d) => Sends(s, Difficulty(coin, d))
  }

  /** A coin goes live: its last difficulty and a job, the given one or its last, are replayed. */
  function Replayed(epoch: string, s: State, coin: nat, given: Option<CoinJob>): State
    requires coin < |s.backends|
  {
    var b := s.backends[coin];
    var s1 := DifficultySent(s.(backends := s.backends[coin := b.(live := true)]), coin);
    match if given.Some? then given else b.lastNotify
    case None => s1
    case Some(job) => JobSent(epoch, s1, coin, job)
  }

  // ---- Moving ----

  function Warmed(s: State): State {
    if s.active.Some? && s.active.value < |s.backends| then
      s.(backends := s.backends[s.active.value := s.backends[s.active.value].(live := false)])
    else s
  }

  /** The miner is told the extranonce of the coin it is put on, and that coin goes live. A miner that cannot be told is closed
      instead. */
  function Arrived(epoch: string, s: State, target: nat, given: Option<CoinJob>): State
    requires target < |s.backends|
  {
    if !s.canSwitch then s.(closed := true)
    else if s.closed then s.(active := Some(target))
    else Replayed(epoch, Told(s.(active := Some(target)), target), target, given)
  }

  function Told(s: State, coin: nat): State
    requires coin < |s.backends|
  {
    Sends(s, Extranonce(s.backends[coin].extranonce))
  }

  /** A move now: nothing for a coin that is active or dead. */
  function Switched(epoch: string, s: State, target: nat, given: Option<CoinJob>): State {
    if s.active == Some(target) || !Alive(s, target) then s
    else Arrived(epoch, Warmed(s.(pending := None)), target, given)
  }

  /** A move at the target's next job. */
  function Deferred(s: State, target: nat): State {
    if s.active == Some(target) || !Alive(s, target) then s else s.(pending := Some(target))
  }

  /** The first coin alive from `k` on, leaving one out: none before it is. */
  function FirstAlive(backends: seq<Backend>, skip: Option<nat>, k: nat): (r: Option<nat>)
    requires k <= |backends|
    ensures r.Some? ==> k <= r.value < |backends| && !backends[r.value].dead && Some(r.value) != skip
    ensures forall b :: k <= b < |backends| && (r.Some? ==> b < r.value) ==> backends[b].dead || Some(b) == skip
    decreases |backends| - k
  {
    if k == |backends| then None
    else if Some(k) != skip && !backends[k].dead then Some(k)
    else FirstAlive(backends, skip, k + 1)
  }

  // ---- What coins do ----

  /** A coin sends a job: it is kept, and sent on if the coin is live and active; on a warm coin it may be the one a move was
      waiting for. */
  function JobArrived(epoch: string, s: State, coin: nat, job: CoinJob): State
    requires coin < |s.backends|
  {
    var b := s.backends[coin];
    var s1 := s.(backends := s.backends[coin := b.(lastNotify := Some(job), hasJob := true)]);
    if b.live then
      if s.active == Some(coin) then JobSent(epoch, s1, coin, job) else s1
    else if s.pending == Some(coin) then Switched(epoch, s1, coin, Some(job))
    else s1
  }

  function DifficultyArrived(s: State, coin: nat, d: real): State
    requires coin < |s.backends|
  {
    var b := s.backends[coin];
    var s1 := s.(backends := s.backends[coin := b.(lastDifficulty := Some(d))]);
    if b.live && s.active == Some(coin) then Sends(s1, Difficulty(coin, d)) else s1
  }

  /** A connection ends. Under the miner it is replaced by the first coin alive; with none, the miner is closed. */
  function Died(epoch: string, s: State, coin: nat): State
    requires coin < |s.backends|
  {
    var s1 := s.(backends := s.backends[coin := s.backends[coin].(dead := true)]);
    if s.backends[coin].dead || s.closed || s.active != Some(coin) then s1
    else
      match FirstAlive(s1.backends, Some(coin), 0)
      case Some(next) => Switched(epoch, s1, next, None)
      case None => s1.(closed := true)
  }

  /** A dead coin is dialled again: a new connection with its own extranonce, and no job on it yet. */
  function Redialled(s: State, coin: nat, extranonce: string): State
    requires coin < |s.backends|
  {
    s.(backends := s.backends[coin := s.backends[coin].(extranonce := extranonce, hasJob := false)])
  }

  function Revived(s: State, coin: nat): State
    requires coin < |s.backends|
  {
    s.(backends := s.backends[coin := s.backends[coin].(dead := false)])
  }

  // ---- What the loops and the user do ----

  /** The miner returns to its home, or without one to the first coin alive ahead of its own. */
  function FailedBack(epoch: string, s: State): State {
    if s.closed || s.active.None? || s.rotating then s
    else if s.home.Some? then
      if s.home != s.active && Alive(s, s.home.value) then Switched(epoch, s, s.home.value, None) else s
    else
      match FirstAlive(s.backends, None, 0)
      case Some(b) => if b < s.active.value then Switched(epoch, s, b, None) else s
      case None => s
  }

  /** A rotating miner is to be on a coin; a wait that has lasted too long is cut short. */
  function Rotated(epoch: string, s: State, want: nat, overdue: bool): State {
    if s.closed || !s.rotating || s.active == Some(want) || !Alive(s, want) then s
    else if s.pending == Some(want) then if overdue then Switched(epoch, s, want, None) else s
    else Deferred(s, want)
  }

  /** A user gives the miner a coin it is bonded to, or a split that starts on one. */
  function Reassigned(s: State, target: nat, split: bool): State {
    if target >= |s.backends| then s
    else Deferred(s.(rotating := split, home := if split then None else Some(target)), target)
  }

  // ---- What the miner does ----

  function Subscribed(s: State): State {
    if s.active.None? || s.active.value >= |s.backends| then s
    else Told(s, s.active.value)
  }

  datatype Assignment = Unassigned | Split | Pinned(coin: nat)

  /** An assigned coin that is alive becomes the active one, with nothing sent; one that is not is remembered. */
  function PutOn(s: State, coin: nat): State {
    if coin >= |s.backends| then s
    else if s.active == Some(coin) || !Alive(s, coin) then s.(home := Some(coin))
    else s.(active := Some(coin), home := Some(coin))
  }

  /** The first half of an authorize. */
  function AuthorizeBegun(s: State, a: Assignment): State {
    var s1 :=
      match a
      case Unassigned => s
      case Split => s.(rotating := true)
      case Pinned(coin) => PutOn(s, coin);
    s1.(awaiting := s1.active)
  }

  /** The second half, when its coin has a job or the wait is over: that coin goes live, whichever is active by then. */
  function AuthorizeDone(epoch: string, s: State): State {
    if s.awaiting.None? || s.awaiting.value >= |s.backends| then s
    else
      var coin := s.awaiting.value;
      var s1 := s.(awaiting := None);
      if !s.backends[coin].hasJob then s1.(closed := true)
      else if s.closed then s1
      else Replayed(epoch, Sends(s1, Answered), coin, None)
  }

  /** A share goes to the coin its job came from, under the coin's ID; an unknown job is answered here. */
  function Submitted(s: State, id: string): State {
    if id == "" then
      if s.active.Some? then s.(forwarded := s.forwarded + [Forward(s.active.value, "")]) else s
    else if id in s.jobs then s.(forwarded := s.forwarded + [Forward(s.jobs[id].coin, s.jobs[id].job.id)])
    else Sends(s, Stale(id))
  }

  // ---- The session ----

  class Session {
    const epoch: string
    var active: Option<nat>
    var pending: Option<nat>
    var home: Option<nat>
    var rotating: bool
    var canSwitch: bool
    var closed: bool
    var awaiting: Option<nat>
    var jobs: map<string, JobRef>
    var jobOrder: seq<string>
    var backends: seq<Backend>
    var counter: nat
    ghost var issued: seq<Issue>
    ghost var sent: seq<ToMiner>
    ghost var forwarded: seq<Forward>
    ghost var elsewhere: set<nat>

    ghost function View(): State
      reads this
    {
      State(active, pending, home, rotating, canSwitch, closed, awaiting, jobs, jobOrder, backends, counter,
            issued, sent, forwarded, elsewhere)
    }

    /** A miner arrives: the first coin serving is active. */
    constructor (epoch: string, backends: seq<Backend>, counter: nat, ghost elsewhere: set<nat>)
      ensures this.epoch == epoch
      ensures View() == Bonded(backends, counter, elsewhere)
    {
      this.epoch := epoch;
      var first := FirstServing(backends, None);
      this.active, this.closed := first, first.None?;
      this.pending, this.home, this.awaiting := None, None, None;
      this.rotating, this.canSwitch := false, false;
      this.jobs, this.jobOrder := map[], [];
      this.backends, this.counter := backends, counter;
      this.issued, this.sent, this.forwarded, this.elsewhere := [], [], [], elsewhere;
    }

    method Send(m: ToMiner)
      modifies this`sent
      ensures View() == Sends(old(View()), m)
    {
      if !closed {
        sent := sent + [m];
      }
    }

    method RegisterJob(coin: nat, job: CoinJob) returns (id: string)
      modifies this
      ensures View() == Registered(epoch, old(View()), coin, job) && id == JobId(epoch, old(counter) + 1)
    {
      id := Add(coin, job);
      Trim();
    }

    method Add(coin: nat, job: CoinJob) returns (id: string)
      modifies this`counter, this`issued, this`jobs, this`jobOrder
      ensures View() == Added(epoch, old(View()), coin, job) && id == JobId(epoch, old(counter) + 1)
    {
      counter := counter + 1;
      id := JobId(epoch, counter);
      issued := issued + [Issue(counter, coin, job)];
      jobs := jobs[id := JobRef(coin, job)];
      jobOrder := jobOrder + [id];
    }

    method Trim()
      modifies this`jobs, this`jobOrder
      ensures View() == Trimmed(old(View()))
    {
      if |jobOrder| > MAX_TRACKED_JOBS {
        jobs := jobs - {jobOrder[0]};
        jobOrder := jobOrder[1..];
      }
    }

    method SendJob(coin: nat, job: CoinJob)
      modifies this
      ensures View() == JobSent(epoch, old(View()), coin, job)
    {
      var id := "";
      if job.id != "" {
        id := RegisterJob(coin, job);
      }
      Send(Job(id, coin, job));
    }

    method GoLive(coin: nat, given: Option<CoinJob>)
      requires coin < |backends|
      modifies this
      ensures View() == Replayed(epoch, old(View()), coin, given)
    {
      var b := backends[coin];
      backends := backends[coin := b.(live := true)];
      if b.lastDifficulty.Some? {
        Send(Difficulty(coin, b.lastDifficulty.value));
      }
      var notify := if given.Some? then given else b.lastNotify;
      if notify.Some? {
        SendJob(coin, notify.value);
      }
    }

    method SwitchTo(target: nat, given: Option<CoinJob>)
      modifies this
      ensures View() == Switched(epoch, old(View()), target, given)
    {
      if active == Some(target) || target >= |backends| || backends[target].dead {
        return;
      }
      pending := None;
      GoWarm();
      Arrive(target, given);
    }

    method Arrive(target: nat, given: Option<CoinJob>)
      requires target < |backends|
      modifies this
      ensures View() == Arrived(epoch, old(View()), target, given)
    {
      if !canSwitch {
        closed := true;
        return;
      }
      active := Some(target);
      if closed {
        return;
      }
      Tell(target);
      GoLive(target, given);
    }

    method Tell(coin: nat)
      requires coin < |backends|
      modifies this`sent
      ensures View() == Told(old(View()), coin)
    {
      Send(Extranonce(backends[coin].extranonce));
    }

    method GoWarm()
      modifies this`backends
      ensures View() == Warmed(old(View()))
    {
      if active.Some? && active.value < |backends| {
        backends := backends[active.value := backends[active.value].(live := false)];
      }
    }

    method SwitchDeferred(target: nat)
      modifies this`pending
      ensures View() == Deferred(old(View()), target)
    {
      if active == Some(target) || target >= |backends| || backends[target].dead {
        return;
      }
      pending := Some(target);
    }

    /** A coin's job, read from its connection. */
    method OnNotify(coin: nat, job: CoinJob)
      requires coin < |backends|
      modifies this
      ensures View() == JobArrived(epoch, old(View()), coin, job)
    {
      var b := backends[coin];
      backends := backends[coin := b.(lastNotify := Some(job), hasJob := true)];
      if b.live {
        if active == Some(coin) {
          SendJob(coin, job);
        }
      } else if pending == Some(coin) {
        SwitchTo(coin, Some(job));
      }
    }

    method OnDead(coin: nat)
      requires coin < |backends|
      modifies this
      ensures View() == Died(epoch, old(View()), coin)
    {
      var was := backends[coin].dead;
      backends := backends[coin := backends[coin].(dead := true)];
      if was || closed || active != Some(coin) {
        return;
      }
      var next := FirstServing(backends, Some(coin));
      if next.Some? {
        SwitchTo(next.value, None);
      } else {
        closed := true;
      }
    }

    /** One tick of the failback loop: coins ahead of the current one are tried in order. */
    method Failback()
      modifies this
      ensures View() == FailedBack(epoch, old(View()))
    {
      if closed || active.None? || rotating {
        return;
      }
      if home.Some? {
        if home != active && home.value < |backends| && !backends[home.value].dead {
          SwitchTo(home.value, None);
        }
        return;
      }
      var i := 0;
      while i < |backends| && i != active.value
        invariant i <= |backends| && i <= active.value && View() == old(View())
        invariant FirstAlive(backends, None, 0) == FirstAlive(backends, None, i)
      {
        if !backends[i].dead {
          SwitchTo(i, None);
          return;
        }
        i := i + 1;
      }
    }

    method OnDifficulty(coin: nat, d: real)
      requires coin < |backends|
      modifies this
      ensures View() == DifficultyArrived(old(View()), coin, d)
    {
      var b := backends[coin];
      backends := backends[coin := b.(lastDifficulty := Some(d))];
      if b.live && active == Some(coin) {
        Send(Difficulty(coin, d));
      }
    }

    method Redial(coin: nat, extranonce: string)
      requires coin < |backends|
      modifies this`backends
      ensures View() == Redialled(old(View()), coin, extranonce)
    {
      backends := backends[coin := backends[coin].(extranonce := extranonce, hasJob := false)];
    }

    method Revive(coin: nat)
      requires coin < |backends|
      modifies this`backends
      ensures View() == Revived(old(View()), coin)
    {
      backends := backends[coin := backends[coin].(dead := false)];
    }

    /** One tick of the rotation loop, on the coin whose turn it is. */
    method Rotate(want: nat, overdue: bool)
      modifies this
      ensures View() == Rotated(epoch, old(View()), want, overdue)
    {
      if closed || !rotating || active == Some(want) || want >= |backends| || backends[want].dead {
        return;
      }
      if pending == Some(want) {
        if overdue {
          SwitchTo(want, None);
        }
      } else {
        SwitchDeferred(want);
      }
    }

    method Reassign(target: nat, split: bool)
      modifies this
      ensures View() == Reassigned(old(View()), target, split)
    {
      if target >= |backends| {
        return;
      }
      rotating := split;
      home := if split then None else Some(target);
      SwitchDeferred(target);
    }

    method Subscribe()
      modifies this
      ensures View() == Subscribed(old(View()))
    {
      if active.Some? && active.value < |backends| {
        Tell(active.value);
      }
    }

    method Authorize(a: Assignment)
      modifies this
      ensures View() == AuthorizeBegun(old(View()), a)
    {
      match a {
        case Unassigned =>
        case Split => rotating := true;
        case Pinned(coin) => Pin(coin);
      }
      awaiting := active;
    }

    method Pin(coin: nat)
      modifies this`active, this`home
      ensures View() == PutOn(old(View()), coin)
    {
      if coin >= |backends| {
        return;
      }
      if active != Some(coin) && !backends[coin].dead {
        active := Some(coin);
      }
      home := Some(coin);
    }

    method FinishAuthorize()
      modifies this
      ensures View() == AuthorizeDone(epoch, old(View()))
    {
      if awaiting.None? || awaiting.value >= |backends| {
        return;
      }
      var coin := awaiting.value;
      awaiting := None;
      if !backends[coin].hasJob {
        closed := true;
        return;
      }
      if closed {
        return;
      }
      Send(Answered);
      GoLive(coin, None);
    }

    method Submit(id: string)
      modifies this
      ensures View() == Submitted(old(View()), id)
    {
      if id == "" {
        if active.Some? {
          forwarded := forwarded + [Forward(active.value, "")];
        }
      } else if id in jobs {
        forwarded := forwarded + [Forward(jobs[id].coin, jobs[id].job.id)];
      } else {
        Send(Stale(id));
      }
    }
  }

  /** A miner just bonded to its coins. */
  function Bonded(backends: seq<Backend>, counter: nat, elsewhere: set<nat>): State {
    var first := FirstAlive(backends, None, 0);
    State(first, None, None, false, false, first.None?, None, map[], [], backends, counter, [], [], [], elsewhere)
  }

  method FirstServing(backends: seq<Backend>, skip: Option<nat>) returns (r: Option<nat>)
    ensures r == FirstAlive(backends, skip, 0)
  {
    var i := 0;
    while i < |backends|
      invariant i <= |backends| && FirstAlive(backends, skip, 0) == FirstAlive(backends, skip, i)
    {
      if Some(i) != skip && !backends[i].dead {
        return Some(i);
      }
      i := i + 1;
    }
    r := None;
  }
}
