// Which coin a miner ends up on: when it fails back, when its coin dies, when its turn comes, in every run.
module MeshTicks {
  import opened Bytes
  import opened Hex
  import opened JobIds
  import opened Mesh
  import opened MeshRuns

  // ---- A move ----

  function Difficulties(s: State, coin: nat): seq<ToMiner>
    requires coin < |s.backends|
  {
    if s.backends[coin].lastDifficulty.Some? then [Difficulty(coin, s.backends[coin].lastDifficulty.value)] else []
  }

  function Jobs(epoch: string, s: State, coin: nat, job: Option<CoinJob>): seq<ToMiner> {
    match job
    case None => []
    case Some(job) => [Job(if job.id == "" then "" else JobId(epoch, s.counter + 1), coin, job)]
  }

  function Chosen(s: State, coin: nat, given: Option<CoinJob>): Option<CoinJob>
    requires coin < |s.backends|
  {
    if given.Some? then given else s.backends[coin].lastNotify
  }

  /** What a miner is sent when it is put on a coin: the extranonce first, then the coin's difficulty and a job, where there are
      any. */
  function Greeting(epoch: string, s: State, coin: nat, given: Option<CoinJob>): seq<ToMiner>
    requires coin < |s.backends|
  {
    [Extranonce(s.backends[coin].extranonce)] + (Difficulties(s, coin) + Jobs(epoch, s, coin, Chosen(s, coin, given)))
  }

  /** The miner has been moved to a coin: told of it, fed by it alone where it was fed by the one before, and due nowhere else. */
  ghost predicate MovedTo(epoch: string, s: State, t: State, coin: nat, given: Option<CoinJob>)
    requires coin < |s.backends| && s.active.Some? && s.active.value < |s.backends|
  {
    var from := s.active.value;
    && t.active == Some(coin) && t.pending == None && !t.closed
    && t.backends == s.backends[from := s.backends[from].(live := false)][coin := s.backends[coin].(live := true)]
    && t.sent == s.sent + Greeting(epoch, s, coin, given)
  }

  /** A miner that cannot be told of another extranonce is let go instead. */
  predicate LetGo(s: State, t: State) {
    t.closed && t.sent == s.sent && t.active == s.active
  }

  ghost predicate Unmoved(s: State, t: State) {
    t.active == s.active && t.pending == s.pending && !t.closed && t.backends == s.backends
  }

  lemma JobSends(epoch: string, s: State, coin: nat, job: CoinJob)
    requires !s.closed
    ensures var t := JobSent(epoch, s, coin, job); Unmoved(s, t) && t.sent == s.sent + Jobs(epoch, s, coin, Some(job))
  {
  }

  lemma DifficultySends(s: State, coin: nat)
    requires coin < |s.backends| && !s.closed
    ensures var t := DifficultySent(s, coin);
            Unmoved(s, t) && t.sent == s.sent + Difficulties(s, coin) && t.counter == s.counter
  {
  }

  lemma ReplaySends(epoch: string, s: State, coin: nat, given: Option<CoinJob>)
    requires coin < |s.backends| && !s.closed
    ensures var t := Replayed(epoch, s, coin, given);
            && Unmoved(s.(backends := s.backends[coin := s.backends[coin].(live := true)]), t)
            && t.sent == s.sent + (Difficulties(s, coin) + Jobs(epoch, s, coin, Chosen(s, coin, given)))
  {
    var b := s.backends[coin];
    var live := s.(backends := s.backends[coin := b.(live := true)]);
    DifficultySends(live, coin);
    var job := Chosen(s, coin, given);
    Assoc(s.sent, Difficulties(s, coin), Jobs(epoch, s, coin, job));
    if job.Some? {
      JobSends(epoch, DifficultySent(live, coin), coin, job.value);
    }
  }

  /** A miner on its way to a coin, with the coin it is on fed no longer. */
  lemma ArriveMoves(epoch: string, s: State, warm: State, target: nat, given: Option<CoinJob>)
    requires !s.closed && s.canSwitch && target < |s.backends| && s.active.Some? && s.active.value < |s.backends|
    requires s.active.value != target
    requires var from := s.active.value;
             warm == s.(pending := None, backends := s.backends[from := s.backends[from].(live := false)])
    ensures MovedTo(epoch, s, Arrived(epoch, warm, target, given), target, given)
  {
    var told := Told(warm.(active := Some(target)), target);
    ReplaySends(epoch, told, target, given);
    assert warm.backends[target] == s.backends[target];
    Assoc(s.sent, [Extranonce(s.backends[target].extranonce)],
          Difficulties(s, target) + Jobs(epoch, s, target, Chosen(s, target, given)));
  }

  lemma SwitchMoves(epoch: string, s: State, target: nat, given: Option<CoinJob>)
    requires !s.closed && s.active.Some? && s.active.value < |s.backends|
    requires s.active != Some(target) && Alive(s, target)
    ensures var t := Switched(epoch, s, target, given);
            if s.canSwitch then MovedTo(epoch, s, t, target, given) else LetGo(s, t)
  {
    if s.canSwitch {
      ArriveMoves(epoch, s, Warmed(s.(pending := None)), target, given);
    }
  }

  // ---- Failing back ----

  /** Where a miner belongs: at home while that is up, and without a home on the first coin that is up. */
  function Belongs(s: State): Option<nat> {
    if s.home.Some? then if Alive(s, s.home.value) then s.home else s.active
    else FirstAlive(s.backends, None, 0)
  }

  /** A miner on a coin that is up has somewhere it belongs, and without a home no coin that is up comes before it. */
  lemma BelongsFirst(s: State)
    requires s.active.Some? && Alive(s, s.active.value)
    ensures Belongs(s).Some?
    ensures s.home.None? ==>
              && Alive(s, Belongs(s).value) && Belongs(s).value <= s.active.value
              && forall b: nat :: b < Belongs(s).value ==> !Alive(s, b)
  {
  }

  /** In every run, the failback tick leaves an open miner that is not rotating where it belongs, moving it when it is elsewhere
      and doing nothing when it is not. */
  lemma FailsBackIff(epoch: string, backends: seq<Backend>, counter: nat, elsewhere: set<nat>, states: seq<State>,
                     events: seq<Event>, n: nat)
    requires Run(epoch, backends, counter, elsewhere, states, events) && n < |events| && events[n].FailbackTick?
    ensures var s, t := states[n], states[n + 1];
            if s.closed || s.rotating || Belongs(s) == s.active then t == s
            else
              && s.active.Some? && s.active.value < |s.backends| && Belongs(s).Some? && Alive(s, Belongs(s).value)
              && if s.canSwitch then MovedTo(epoch, s, t, Belongs(s).value, None) else LetGo(s, t)
  {
    var s := states[n];
    RunInv(epoch, backends, counter, elsewhere, states, events, n);
    if !s.closed && !s.rotating && Belongs(s) != s.active {
      BelongsFirst(s);
      SwitchMoves(epoch, s, Belongs(s).value, None);
    }
  }

  // ---- Dying ----

  lemma FirstOther(s: State, fallen: State, coin: nat)
    requires coin < |s.backends| && fallen == s.(backends := s.backends[coin := s.backends[coin].(dead := true)])
    ensures match FirstAlive(fallen.backends, Some(coin), 0)
            case None => forall b: nat :: b != coin ==> !Alive(s, b)
            case Some(next) => next != coin && Alive(s, next) && forall b: nat :: b < next && b != coin ==> !Alive(s, b)
  {
    var next := FirstAlive(fallen.backends, Some(coin), 0);
    forall b: nat | b != coin && (next.Some? ==> b < next.value)
      ensures !Alive(s, b)
    {
      if b < |s.backends| {
        assert fallen.backends[b].dead;
      }
    }
  }

  /** In every run, when the coin under an open miner dies the miner is moved to the first coin that is up, and let go when none
      is; when any other coin dies it stays. */
  lemma DeathMovesIff(epoch: string, backends: seq<Backend>, counter: nat, elsewhere: set<nat>, states: seq<State>,
                      events: seq<Event>, n: nat, coin: nat)
    requires Run(epoch, backends, counter, elsewhere, states, events) && n < |events| && events[n] == Dies(coin)
    requires !states[n].closed
    ensures var s, t := states[n], states[n + 1];
            var fallen := s.(backends := s.backends[coin := s.backends[coin].(dead := true)]);
            if s.active != Some(coin) then t == fallen
            else if forall b: nat :: b != coin ==> !Alive(s, b) then t == fallen.(closed := true)
            else exists next: nat ::
              && next != coin && Alive(s, next) && (forall b: nat :: b < next && b != coin ==> !Alive(s, b))
              && if s.canSwitch then MovedTo(epoch, fallen, t, next, None) else LetGo(fallen, t)
  {
    var s := states[n];
    var fallen := s.(backends := s.backends[coin := s.backends[coin].(dead := true)]);
    RunInv(epoch, backends, counter, elsewhere, states, events, n);
    if s.active == Some(coin) {
      var next := FirstAlive(fallen.backends, Some(coin), 0);
      FirstOther(s, fallen, coin);
      if next.Some? {
        SwitchMoves(epoch, fallen, next.value, None);
      }
    }
  }

  // ---- Taking turns ----

  /** A rotation tick puts a move off to the job of the coin whose turn it is, and makes it there and then only when it has been
      put off too long. Miners that do not rotate, and coins that are down, are left alone. */
  lemma RotatesIff(epoch: string, backends: seq<Backend>, counter: nat, elsewhere: set<nat>, states: seq<State>,
                   events: seq<Event>, n: nat, want: nat, overdue: bool)
    requires Run(epoch, backends, counter, elsewhere, states, events) && n < |events| && events[n] == RotationTick(want, overdue)
    ensures var s, t := states[n], states[n + 1];
            if s.closed || !s.rotating || s.active == Some(want) || !Alive(s, want) then t == s
            else if s.pending == Some(want) && overdue then
              && s.active.Some? && s.active.value < |s.backends|
              && if s.canSwitch then MovedTo(epoch, s, t, want, None) else LetGo(s, t)
            else t == s.(pending := Some(want))
  {
    var s := states[n];
    RunInv(epoch, backends, counter, elsewhere, states, events, n);
    if !s.closed && s.rotating && s.active != Some(want) && Alive(s, want) && s.pending == Some(want) && overdue {
      SwitchMoves(epoch, s, want, None);
    }
  }

  /** A move put off by a tick lands on the next job its coin sends, and the miner is moved with that very job. */
  lemma TurnComes(epoch: string, backends: seq<Backend>, counter: nat, elsewhere: set<nat>, states: seq<State>,
                  events: seq<Event>, n: nat, want: nat, job: CoinJob)
    requires Run(epoch, backends, counter, elsewhere, states, events) && n + 1 < |events|
    requires events[n] == RotationTick(want, false) && events[n + 1] == SendsJob(want, job)
    requires var s := states[n];
             && !s.closed && s.rotating && s.active != Some(want) && Alive(s, want) && !s.backends[want].live
    ensures var s, t := states[n + 1], states[n + 2];
            var fed := s.(backends := s.backends[want := s.backends[want].(lastNotify := Some(job), hasJob := true)]);
            && s.active == states[n].active && s.active.Some? && s.active.value < |s.backends|
            && if s.canSwitch then MovedTo(epoch, fed, t, want, Some(job)) else LetGo(fed, t)
  {
    var s := states[n + 1];
    RotatesIff(epoch, backends, counter, elsewhere, states, events, n, want, false);
    RunInv(epoch, backends, counter, elsewhere, states, events, n + 1);
    var fed := s.(backends := s.backends[want := s.backends[want].(lastNotify := Some(job), hasJob := true)]);
    SwitchMoves(epoch, fed, want, Some(job));
  }

  // ---- Being assigned ----

  /** A coin given to a miner by a user, or found for it when it authorizes. */
  predicate Assigns(e: Event, coin: nat) {
    e == Reassigns(coin, false) || e == Authorizes(Pinned(coin))
  }

  lemma AssignedHome(epoch: string, s: State, e: Event, coin: nat)
    requires Possible(s, e) && Assigns(e, coin) && coin < |s.backends|
    ensures var t := Step(epoch, s, e);
            && t.home == Some(coin) && |t.backends| == |s.backends| && Alive(t, coin) == Alive(s, coin)
            && t.closed == s.closed && t.canSwitch == s.canSwitch
            && (e.Reassigns? ==> !t.rotating) && (e.Authorizes? ==> t.rotating == s.rotating)
  {
  }

  /** In every run, a miner assigned a coin that is up is on it after the next failback tick, if it can be told, rather than on any
      coin listed before it. */
  lemma AssignedComesHome(epoch: string, backends: seq<Backend>, counter: nat, elsewhere: set<nat>, states: seq<State>,
                          events: seq<Event>, n: nat, coin: nat)
    requires Run(epoch, backends, counter, elsewhere, states, events) && n + 1 < |events|
    requires Assigns(events[n], coin) && events[n + 1].FailbackTick?
    requires var s := states[n];
             && coin < |s.backends| && Alive(s, coin) && !s.closed && s.canSwitch && (events[n].Authorizes? ==> !s.rotating)
    ensures states[n + 2].active == Some(coin) && !states[n + 2].closed
  {
    AssignedHome(epoch, states[n], events[n], coin);
    FailsBackIff(epoch, backends, counter, elsewhere, states, events, n + 1);
  }

  /** And a miner given a split is left where it is by failback, its turns alone moving it. */
  lemma SplitStays(epoch: string, backends: seq<Backend>, counter: nat, elsewhere: set<nat>, states: seq<State>,
                   events: seq<Event>, n: nat, coin: nat)
    requires Run(epoch, backends, counter, elsewhere, states, events) && n + 1 < |events|
    requires events[n] == Reassigns(coin, true) || events[n] == Authorizes(Split)
    requires events[n] == Reassigns(coin, true) ==> coin < |states[n].backends|
    requires events[n + 1].FailbackTick?
    ensures states[n + 2] == states[n + 1]
  {
    FailsBackIff(epoch, backends, counter, elsewhere, states, events, n + 1);
  }
}
