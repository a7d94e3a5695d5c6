// The difficulty a meshed miner works at, against that of the coin that feeds it.
module MeshDifficulty {
  import opened Bytes
  import opened Hex
  import opened Mesh
  import opened MeshRuns
  import opened MeshTicks

  /** The last difficulty the miner was told, and whose it was. */
  function LastDifficulty(sent: seq<ToMiner>): Option<(nat, real)> {
    if sent == [] then None
    else
      match sent[|sent| - 1]
      case Difficulty(coin, d) => Some((coin, d))
      case _ => LastDifficulty(sent[..|sent| - 1])
  }

  /** An open miner was told last the difficulty of the coin that feeds it, where that coin has sent one. */
  predicate WorksAtIts(s: State) {
    !s.closed && s.active.Some? && s.active.value < |s.backends| ==> Fits(s.backends[s.active.value], s.active.value, s.sent)
  }

  predicate Fits(b: Backend, coin: nat, sent: seq<ToMiner>) {
    b.live && b.lastDifficulty.Some? ==> LastDifficulty(sent) == Some((coin, b.lastDifficulty.value))
  }

  lemma ToldMore(sent: seq<ToMiner>, m: ToMiner)
    ensures LastDifficulty(sent + [m]) == match m case Difficulty(coin, d) => Some((coin, d)) case _ => LastDifficulty(sent)
  {
    assert (sent + [m])[..|sent|] == sent;
  }

  lemma JobsTold(epoch: string, s: State, coin: nat, job: Option<CoinJob>, sent: seq<ToMiner>)
    ensures LastDifficulty(sent + Jobs(epoch, s, coin, job)) == LastDifficulty(sent)
  {
    if job.None? {
      assert sent + Jobs(epoch, s, coin, job) == sent;
    } else {
      ToldMore(sent, Jobs(epoch, s, coin, job)[0]);
    }
  }

  /** The coin's difficulty and then a job leave the coin's difficulty the last one told, where it has one. */
  lemma ReplayTold(epoch: string, s: State, coin: nat, job: Option<CoinJob>, sent: seq<ToMiner>)
    requires coin < |s.backends|
    ensures LastDifficulty(sent + (Difficulties(s, coin) + Jobs(epoch, s, coin, job)))
         == match s.backends[coin].lastDifficulty case Some(d) => Some((coin, d)) case None => LastDifficulty(sent)
  {
    var told := Difficulties(s, coin);
    Assoc(sent, told, Jobs(epoch, s, coin, job));
    JobsTold(epoch, s, coin, job, sent + told);
    if told == [] {
      assert sent + told == sent;
    } else {
      ToldMore(sent, told[0]);
    }
  }

  lemma GreetingTold(epoch: string, s: State, coin: nat, given: Option<CoinJob>)
    requires coin < |s.backends|
    ensures LastDifficulty(s.sent + Greeting(epoch, s, coin, given))
         == match s.backends[coin].lastDifficulty case Some(d) => Some((coin, d)) case None => LastDifficulty(s.sent)
  {
    var ext: ToMiner := Extranonce(s.backends[coin].extranonce);
    var job := Chosen(s, coin, given);
    Assoc(s.sent, [ext], Difficulties(s, coin) + Jobs(epoch, s, coin, job));
    ToldMore(s.sent, ext);
    ReplayTold(epoch, s, coin, job, s.sent + [ext]);
  }

  lemma SwitchWorks(epoch: string, s: State, target: nat, given: Option<CoinJob>)
    requires WorksAtIts(s) && (!s.closed ==> s.active.Some? && s.active.value < |s.backends|)
    ensures WorksAtIts(Switched(epoch, s, target, given))
  {
    if s.active != Some(target) && Alive(s, target) && !s.closed {
      SwitchMoves(epoch, s, target, given);
      GreetingTold(epoch, s, target, given);
    } else if s.active != Some(target) && Alive(s, target) {
      StaysClosed(epoch, s, target, given);
    }
  }

  lemma StaysClosed(epoch: string, s: State, target: nat, given: Option<CoinJob>)
    requires s.closed
    ensures Switched(epoch, s, target, given).closed
  {
  }

  // ---- Every event ----

  lemma JobWorks(epoch: string, s: State, coin: nat, job: CoinJob)
    requires WorksAtIts(s) && TuneInv(s) && coin < |s.backends|
    ensures WorksAtIts(JobArrived(epoch, s, coin, job))
  {
    var b := s.backends[coin];
    var s1 := s.(backends := s.backends[coin := b.(lastNotify := Some(job), hasJob := true)]);
    assert WorksAtIts(s1);
    if b.live && s.active == Some(coin) {
      if !s.closed {
        JobSends(epoch, s1, coin, job);
        JobsTold(epoch, s1, coin, Some(job), s1.sent);
      }
    } else if !b.live && s.pending == Some(coin) {
      SwitchWorks(epoch, s1, coin, Some(job));
    }
  }

  lemma DifficultyWorks(s: State, coin: nat, d: real)
    requires WorksAtIts(s) && coin < |s.backends|
    ensures WorksAtIts(DifficultyArrived(s, coin, d))
  {
    ToldMore(s.sent, Difficulty(coin, d));
  }

  lemma DeathWorks(epoch: string, s: State, coin: nat)
    requires WorksAtIts(s) && TuneInv(s) && coin < |s.backends|
    ensures WorksAtIts(Died(epoch, s, coin))
  {
    var s1 := s.(backends := s.backends[coin := s.backends[coin].(dead := true)]);
    assert WorksAtIts(s1);
    var next := FirstAlive(s1.backends, Some(coin), 0);
    if next.Some? {
      SwitchWorks(epoch, s1, next.value, None);
    }
  }

  lemma FailbackWorks(epoch: string, s: State)
    requires WorksAtIts(s) && TuneInv(s)
    ensures WorksAtIts(FailedBack(epoch, s))
  {
    var next := FirstAlive(s.backends, None, 0);
    if s.home.Some? {
      SwitchWorks(epoch, s, s.home.value, None);
    } else if next.Some? {
      SwitchWorks(epoch, s, next.value, None);
    }
  }

  lemma EndReplays(epoch: string, s: State)
    requires s.awaiting.Some? && s.awaiting.value < |s.backends| && !s.closed && s.backends[s.awaiting.value].hasJob
    ensures AuthorizeDone(epoch, s)
         == Replayed(epoch, s.(awaiting := None, sent := s.sent + [Answered]), s.awaiting.value, None)
  {
  }

  /** A coin goes live as the answer to an authorize. */
  lemma EndSends(epoch: string, s: State)
    requires s.awaiting.Some? && s.awaiting.value < |s.backends| && !s.closed && s.backends[s.awaiting.value].hasJob
    ensures var coin, t := s.awaiting.value, AuthorizeDone(epoch, s);
            && t.active == s.active && !t.closed
            && t.backends == s.backends[coin := s.backends[coin].(live := true)]
            && t.sent == s.sent + [Answered] + (Difficulties(s, coin) + Jobs(epoch, s, coin, s.backends[coin].lastNotify))
  {
    var coin := s.awaiting.value;
    var answered := s.(awaiting := None, sent := s.sent + [Answered]);
    EndReplays(epoch, s);
    ReplaySends(epoch, answered, coin, None);
    assert Difficulties(answered, coin) == Difficulties(s, coin);
    assert Jobs(epoch, answered, coin, Chosen(answered, coin, None)) == Jobs(epoch, s, coin, s.backends[coin].lastNotify);
  }

  lemma EndWorks(epoch: string, s: State)
    requires WorksAtIts(s) && s.awaiting.Some? && s.awaiting == s.active
    ensures WorksAtIts(AuthorizeDone(epoch, s))
  {
    if s.awaiting.value < |s.backends| && !s.closed && s.backends[s.awaiting.value].hasJob {
      var coin := s.awaiting.value;
      EndSends(epoch, s);
      ToldMore(s.sent, Answered);
      ReplayTold(epoch, s, coin, s.backends[coin].lastNotify, s.sent + [Answered]);
    }
  }

  lemma MinerWorks(epoch: string, s: State, e: Event)
    requires WorksAtIts(s) && Possible(s, e) && (e.Subscribes? || e.TakesExtranonces? || e.Submits?)
    ensures WorksAtIts(Step(epoch, s, e))
  {
    match e
    case Subscribes =>
      if s.active.Some? && s.active.value < |s.backends| {
        ToldMore(s.sent, Extranonce(s.backends[s.active.value].extranonce));
      }
    case TakesExtranonces => ToldMore(s.sent, Answered);
    case Submits(id) => ToldMore(s.sent, Stale(id));
  }

  lemma QuietWorks(epoch: string, s: State, e: Event)
    requires WorksAtIts(s) && Possible(s, e)
    requires e.Redials? || e.Revives? || e.Reassigns? || e.NumbersElsewhere? || e.Leaves?
    ensures WorksAtIts(Step(epoch, s, e))
  {
    match e
    case Redials(_, _) =>
    case Revives(_) =>
    case Reassigns(_, _) =>
    case NumbersElsewhere =>
    case Leaves =>
  }

  /** An authorize may make another coin active without a word, and may end on a coin the miner has left. */
  predicate Steady(s: State, e: Event) {
    !e.Authorizes? && (e.AuthorizeEnds? ==> s.awaiting == s.active)
  }

  lemma StepWorks(epoch: string, s: State, e: Event)
    requires WorksAtIts(s) && TuneInv(s) && Possible(s, e) && Steady(s, e)
    ensures WorksAtIts(Step(epoch, s, e))
  {
    match e
    case SendsJob(coin, job) => JobWorks(epoch, s, coin, job);
    case SendsDifficulty(coin, d) => DifficultyWorks(s, coin, d);
    case Dies(coin) => DeathWorks(epoch, s, coin);
    case AuthorizeEnds => EndWorks(epoch, s);
    case FailbackTick => FailbackWorks(epoch, s);
    case RotationTick(coin, _) => SwitchWorks(epoch, s, coin, None);
    case Subscribes => MinerWorks(epoch, s, e);
    case TakesExtranonces => MinerWorks(epoch, s, e);
    case Submits(_) => MinerWorks(epoch, s, e);
    case _ => QuietWorks(epoch, s, e);
  }

  /** In every run, from any time the miner works at its coin's difficulty, it goes on doing so until an authorize begins or ends on
      a coin it has left. */
  lemma {:induction false} ToldItsDifficulty(epoch: string, backends: seq<Backend>, counter: nat, elsewhere: set<nat>,
                                             states: seq<State>, events: seq<Event>, from: nat, n: nat)
    requires Run(epoch, backends, counter, elsewhere, states, events) && from <= n < |states|
    requires from == 0 || WorksAtIts(states[from])
    requires forall i :: from <= i < n ==> Steady(states[i], events[i])
    ensures WorksAtIts(states[n])
    decreases n - from
  {
    if n > from {
      ToldItsDifficulty(epoch, backends, counter, elsewhere, states, events, from, n - 1);
      RunInv(epoch, backends, counter, elsewhere, states, events, n - 1);
      StepWorks(epoch, states[n - 1], events[n - 1]);
    }
  }

  /** In every run, an authorize that ends with the miner still there ends with a job: the last one of the coin waited for, behind
      the coin's difficulty. */
  lemma AuthorizeEndsWithJob(epoch: string, backends: seq<Backend>, counter: nat, elsewhere: set<nat>, states: seq<State>,
                             events: seq<Event>, n: nat)
    requires Run(epoch, backends, counter, elsewhere, states, events) && n < |events| && events[n].AuthorizeEnds?
    requires states[n].awaiting.value < |states[n].backends| && !states[n].closed
    ensures var s, t, coin := states[n], states[n + 1], states[n].awaiting.value;
            if t.closed then !s.backends[coin].hasJob && t.sent == s.sent
            else
              && s.backends[coin].lastNotify.Some? && t.sent != []
              && t.sent == s.sent + [Answered] + (Difficulties(s, coin) + Jobs(epoch, s, coin, s.backends[coin].lastNotify))
              && t.sent[|t.sent| - 1].Job? && t.sent[|t.sent| - 1].coin == coin
              && t.sent[|t.sent| - 1].job == s.backends[coin].lastNotify.value
  {
    var s, coin := states[n], states[n].awaiting.value;
    RunInv(epoch, backends, counter, elsewhere, states, events, n);
    if s.backends[coin].hasJob {
      EndSends(epoch, s);
    }
  }
}
