// Two runs after which a meshed miner is sent a job for an extranonce it was not told last.
module MeshUntold {
  import opened Hex
  import opened Mesh
  import opened MeshRuns

  ghost predicate Reached(epoch: string, backends: seq<Backend>, counter: nat, s: State) {
    exists states, events :: Run(epoch, backends, counter, {}, states, events) && states[|states| - 1] == s
  }

  lemma ReachedNext(epoch: string, backends: seq<Backend>, counter: nat, s: State, e: Event)
    requires Reached(epoch, backends, counter, s) && Possible(s, e)
    ensures Reached(epoch, backends, counter, Step(epoch, s, e))
  {
    var states, events :| Run(epoch, backends, counter, {}, states, events) && states[|states| - 1] == s;
    assert Run(epoch, backends, counter, {}, states + [Step(epoch, s, e)], events + [e]);
  }

  lemma ReachedInv(epoch: string, backends: seq<Backend>, counter: nat, s: State)
    requires Reached(epoch, backends, counter, s)
    ensures TuneInv(s)
  {
    var states, events :| Run(epoch, backends, counter, {}, states, events) && states[|states| - 1] == s;
    RunInv(epoch, backends, counter, {}, states, events, |events|);
  }

  /** A coin connected with nothing received from it, and one that has sent its first job. */
  function Connected(extranonce: string): Backend {
    Backend(false, false, false, extranonce, None, None)
  }

  function WithJob(extranonce: string, id: string): Backend {
    Backend(false, false, true, extranonce, Some(CoinJob(id, extranonce)), None)
  }

  /** An open session on two coins, what the miner was told last, and what an authorize waits on. */
  predicate At(s: State, active: nat, awaiting: Option<nat>, first: Backend, second: Backend, told: Option<string>) {
    && s.active == Some(active) && s.awaiting == awaiting && s.backends == [first, second]
    && LastExtranonce(s.sent) == told && s.pending == None && !s.closed
  }

  lemma Subscribing(epoch: string, x: string, y: string, counter: nat) returns (s: State)
    ensures Reached(epoch, [Connected(x), Connected(y)], counter, s) && At(s, 0, None, Connected(x), Connected(y), Some(x))
  {
    var backends := [Connected(x), Connected(y)];
    var s0 := Bonded(backends, counter, {});
    assert Run(epoch, backends, counter, {}, [s0], []);
    ReachedNext(epoch, backends, counter, s0, Subscribes);
    s := Subscribed(s0);
  }

  /** A coin's first job, which is kept as the coin is not live. */
  lemma GettingJob(epoch: string, backends: seq<Backend>, counter: nat, s: State, x: string, y: string, coin: nat, id: string)
    returns (t: State)
    requires coin < 2 && Reached(epoch, backends, counter, s) && At(s, coin, Some(coin), Connected(x), Connected(y), Some(x))
    ensures Reached(epoch, backends, counter, t) && t.canSwitch == s.canSwitch
    ensures At(t, coin, Some(coin), if coin == 0 then WithJob(x, id) else Connected(x),
               if coin == 1 then WithJob(y, id) else Connected(y), Some(x))
  {
    var e := SendsJob(coin, CoinJob(id, if coin == 0 then x else y));
    ReachedNext(epoch, backends, counter, s, e);
    t := Step(epoch, s, e);
  }

  lemma Pinning(epoch: string, x: string, y: string, counter: nat) returns (s: State)
    ensures Reached(epoch, [Connected(x), Connected(y)], counter, s) && At(s, 1, Some(1), Connected(x), Connected(y), Some(x))
  {
    var s1 := Subscribing(epoch, x, y, counter);
    ReachedNext(epoch, [Connected(x), Connected(y)], counter, s1, Authorizes(Pinned(1)));
    s := Step(epoch, s1, Authorizes(Pinned(1)));
  }

  /** An authorize for the other coin, which then sends its first job: the job the authorize ends on is for that coin's
      extranonce, which the miner was not told. */
  lemma PinnedUntold(epoch: string, x: string, y: string, counter: nat, id: string) returns (s: State)
    requires x != y
    ensures Reached(epoch, [Connected(x), Connected(y)], counter, s)
    ensures s.awaiting == s.active == Some(1) && LastExtranonce(s.sent) == Some(x)
    ensures !InTuneFrom(Step(epoch, s, AuthorizeEnds).sent, |s.sent|)
  {
    var backends := [Connected(x), Connected(y)];
    var s1 := Pinning(epoch, x, y, counter);
    s := GettingJob(epoch, backends, counter, s1, x, y, 1, id);
    ReachedInv(epoch, backends, counter, s);
    StepInTune(epoch, s, AuthorizeEnds);
  }

  lemma Authorizing(epoch: string, x: string, y: string, counter: nat) returns (s: State)
    ensures Reached(epoch, [Connected(x), Connected(y)], counter, s) && s.canSwitch
    ensures At(s, 0, Some(0), Connected(x), Connected(y), Some(x))
  {
    var backends := [Connected(x), Connected(y)];
    var s1 := Subscribing(epoch, x, y, counter);
    ReachedNext(epoch, backends, counter, s1, TakesExtranonces);
    var s2 := Step(epoch, s1, TakesExtranonces);
    Follow(s1.sent, [Answered]);
    ReachedNext(epoch, backends, counter, s2, Authorizes(Unassigned));
    s := Step(epoch, s2, Authorizes(Unassigned));
  }

  lemma FailsOver(epoch: string, s: State, x: string, y: string, id: string)
    requires s.canSwitch && At(s, 0, Some(0), WithJob(x, id), Connected(y), Some(x))
    ensures var t := Died(epoch, s, 0);
            && At(t, 1, Some(0), WithJob(x, id).(dead := true), Connected(y).(live := true), Some(y))
  {
    var down := s.(backends := s.backends[0 := s.backends[0].(dead := true)]);
    assert FirstAlive(down.backends, Some(0), 1) == Some(1);
    var told := Told(Warmed(down).(active := Some(1)), 1);
    var ms := ReplayedSays(epoch, told, 1, None);
    Tells(s.sent, y);
    Follow(told.sent, ms);
  }

  /** The coin an authorize waits on dies, and the miner is moved to the other and told its extranonce: when the wait ends the
      miner is sent the dead coin's job all the same. */
  lemma MovedUntold(epoch: string, x: string, y: string, counter: nat, id: string) returns (s: State)
    requires x != y
    ensures Reached(epoch, [Connected(x), Connected(y)], counter, s)
    ensures s.awaiting == Some(0) && s.active == Some(1) && LastExtranonce(s.sent) == Some(y)
    ensures !InTuneFrom(Step(epoch, s, AuthorizeEnds).sent, |s.sent|)
  {
    var backends := [Connected(x), Connected(y)];
    var s1 := Authorizing(epoch, x, y, counter);
    var s2 := GettingJob(epoch, backends, counter, s1, x, y, 0, id);
    ReachedNext(epoch, backends, counter, s2, Dies(0));
    s := Step(epoch, s2, Dies(0));
    FailsOver(epoch, s2, x, y, id);
    ReachedInv(epoch, backends, counter, s);
    StepInTune(epoch, s, AuthorizeEnds);
  }
}
