// When a solo job has tails to send but no first part to send with them.
module JobHeads {
  import opened Hex
  import opened JobCache
  import opened JobCacheRuns

  /** A job that has a tail for some miner has the first part as well. */
  predicate Headed(j: JobData) {
    j.addressCoinb2s != map[] ==> j.coinb1 != ""
  }

  predicate FallbackBuilds(build: Builder, fallback: string, t: Template) {
    fallback != "" && build(t, fallback).Some?
  }

  // ---- One refresh ----

  /** A refresh makes a job with tails and no first part exactly when the address the map gives first does not build, a later
      one does, and the configured address is not there to help. */
  lemma NewJobHeadlessIff(build: Builder, fallback: string, r: Refresh, now: real)
    requires HeadsGiven(build) && r.addresses.Some?
    ensures var addresses := r.addresses.value;
            !Headed(NewJob(build, fallback, r, now)) <==>
            && addresses != [] && build(r.template, addresses[0]).None?
            && (exists i :: 0 < i < |addresses| && build(r.template, addresses[i]).Some?)
            && !FallbackBuilds(build, fallback, r.template)
  {
    var t, addresses := r.template, r.addresses.value;
    var tails := Tails(build, t, addresses);
    forall a
      ensures a in tails <==> a in addresses && build(t, a).Some?
    {
      TailsBuilt(build, t, addresses, a);
    }
    if tails != map[] {
      var a :| a in tails;
      assert exists i :: 0 <= i < |addresses| && addresses[i] == a;
    }
  }

  /** Filling in a tail keeps it so: the first part comes with it when there was none. */
  lemma FilledHeaded(build: Builder, j: JobData, address: string)
    requires HeadsGiven(build) && Headed(j)
    ensures Headed(Filled(build, j, address))
  {
  }

  // ---- Runs ----

  /** The configured address is pinned at the start; sessions bring addresses the coin's validation admits. */
  function Pinned(fallback: string): Option<string> {
    if fallback == "" then None else Some(fallback)
  }

  predicate Known(fallback: string, valid: string -> bool, a: string) {
    valid(a) || Pinned(fallback) == Some(a)
  }

  ghost predicate SoloRun(build: Builder, fallback: string, valid: string -> bool, seed: nat, states: seq<System>) {
    && Run(build, fallback, seed, Pinned(fallback), states)
    && forall i :: 0 <= i < |states| ==> Admitted(valid, states[i])
  }

  predicate Admitted(valid: string -> bool, s: System) {
    forall k :: k in s.sessions ==> valid(s.sessions[k])
  }

  predicate AllHeaded(s: State) {
    forall id :: id in s.jobs ==> Headed(s.jobs[id])
  }

  /** In every run every job that has a tail has a first part. */
  ghost predicate NeverHeadless(build: Builder, fallback: string, valid: string -> bool) {
    forall seed: nat, states: seq<System>, n: nat ::
      SoloRun(build, fallback, valid, seed, states) && n < |states| ==> AllHeaded(states[n].jm)
  }

  /** The configured address builds for the template, or the addresses that may be connected build for it all or none. */
  ghost predicate Settled(build: Builder, fallback: string, valid: string -> bool, t: Template) {
    FallbackBuilds(build, fallback, t)
    || forall a, b {:trigger build(t, a), build(t, b)} ::
         Known(fallback, valid, a) && Known(fallback, valid, b) && build(t, a).Some? ==> build(t, b).Some?
  }

  predicate AllKnown(fallback: string, valid: string -> bool, s: State) {
    && (forall a :: a in s.connected ==> Known(fallback, valid, a))
    && (s.refreshing.Some? && s.refreshing.value.addresses.Some? ==>
          forall a :: a in s.refreshing.value.addresses.value ==> Known(fallback, valid, a))
  }

  lemma NextKnown(build: Builder, fallback: string, valid: string -> bool, s: System, e: Event, s': System)
    requires AllKnown(fallback, valid, s.jm) && Next(build, fallback, s, e, s') && Admitted(valid, s')
    ensures AllKnown(fallback, valid, s'.jm)
  {
    if e.Authorize? {
      assert s'.sessions[e.session] == e.address;
    }
  }

  lemma CommitHeaded(build: Builder, fallback: string, valid: string -> bool, s: State, now: real)
    requires HeadsGiven(build) && AllKnown(fallback, valid, s) && s.refreshing.Some?
    requires s.refreshing.value.addresses.Some? && Settled(build, fallback, valid, s.refreshing.value.template)
    ensures Headed(NewJob(build, fallback, s.refreshing.value, now))
  {
    NewJobHeadlessIff(build, fallback, s.refreshing.value, now);
  }

  lemma NextHeaded(build: Builder, fallback: string, valid: string -> bool, s: System, e: Event, s': System)
    requires HeadsGiven(build) && (forall t: Template :: Settled(build, fallback, valid, t))
    requires AllKnown(fallback, valid, s.jm) && AllHeaded(s.jm) && Next(build, fallback, s, e, s')
    ensures AllHeaded(s'.jm)
  {
    match e
    case Commit(now) => CommitHeaded(build, fallback, valid, s.jm, now);
    case Fill(address) =>
      forall id | id in s.jm.jobs
        ensures Headed(s'.jm.jobs[id])
      {
        FilledHeaded(build, s.jm.jobs[id], address);
      }
    case _ =>
  }

  lemma {:induction false} RunHeaded(build: Builder, fallback: string, valid: string -> bool, seed: nat,
                                     states: seq<System>, n: nat)
    requires HeadsGiven(build) && (forall t: Template :: Settled(build, fallback, valid, t))
    requires SoloRun(build, fallback, valid, seed, states) && n < |states|
    ensures AllKnown(fallback, valid, states[n].jm) && AllHeaded(states[n].jm)
    decreases n
  {
    if n > 0 {
      RunHeaded(build, fallback, valid, seed, states, n - 1);
      assert Follows(build, fallback, states[n - 1], states[n]);
      var e :| Next(build, fallback, states[n - 1], e, states[n]);
      NextKnown(build, fallback, valid, states[n - 1], e, states[n]);
      NextHeaded(build, fallback, valid, states[n - 1], e, states[n]);
    }
  }

  // ---- A run to a job without a first part ----

  lemma Extends(build: Builder, fallback: string, valid: string -> bool, seed: nat, states: seq<System>, e: Event, s': System)
    requires SoloRun(build, fallback, valid, seed, states) && Next(build, fallback, states[|states| - 1], e, s')
    requires Admitted(valid, s')
    ensures SoloRun(build, fallback, valid, seed, states + [s'])
  {
    var longer := states + [s'];
    forall i | 0 < i < |longer|
      ensures Follows(build, fallback, longer[i - 1], longer[i])
    {
      if i < |states| {
        assert Follows(build, fallback, states[i - 1], states[i]);
      }
    }
  }

  /** Nothing built yet, and just these two addresses connected. */
  predicate Waiting(s: State, bad: string, good: string) {
    && s.jobs == map[] && s.refreshing.None? && s.currentTip == s.lastBroadcastTip == ""
    && bad != good && s.connected.Keys == {bad, good}
  }

  lemma CommitsOne(build: Builder, fallback: string, s: System, now: real)
    requires s.jm.jobs == map[] && s.jm.refreshing.Some? && s.jm.refreshing.value.addresses.Some?
    ensures var j, id := NewJob(build, fallback, s.jm.refreshing.value, now), s.jm.jobCounter + 1;
            Next(build, fallback, s, Commit(now),
                 s.(jm := s.jm.(jobs := map[id := j], latest := id, jobCounter := id, refreshing := None)))
  {
    var j, id := NewJob(build, fallback, s.jm.refreshing.value, now), s.jm.jobCounter + 1;
    assert s.jm.jobs[id := j] == map[id := j];
  }

  lemma Headless(build: Builder, fallback: string, valid: string -> bool, seed: nat, states: seq<System>, t: Template,
                 bad: string, good: string)
    returns (longer: seq<System>)
    requires HeadsGiven(build) && SoloRun(build, fallback, valid, seed, states)
    requires Waiting(states[|states| - 1].jm, bad, good)
    requires build(t, bad).None? && build(t, good).Some? && !FallbackBuilds(build, fallback, t)
    ensures SoloRun(build, fallback, valid, seed, longer) && !AllHeaded(longer[|longer| - 1].jm)
  {
    var s := states[|states| - 1];
    var addresses := [bad, good];
    var begun := s.(jm := Begun(s.jm, t, 0.0));
    Extends(build, fallback, valid, seed, states, Begin(t, true, 0.0), begun);
    var r := Refresh(t, begun.jm.refreshing.value.clean, Some(addresses));
    var read := begun.(jm := begun.jm.(refreshing := Some(r)));
    Extends(build, fallback, valid, seed, states + [begun], Read(addresses), read);
    var j, id := NewJob(build, fallback, r, 0.0), read.jm.jobCounter + 1;
    var last := read.(jm := read.jm.(jobs := map[id := j], latest := id, jobCounter := id, refreshing := None));
    CommitsOne(build, fallback, read, 0.0);
    Extends(build, fallback, valid, seed, states + [begun] + [read], Commit(0.0), last);
    longer := states + [begun] + [read] + [last];
    NewJobHeadlessIff(build, fallback, r, 0.0);
    assert addresses[1] == good;
    assert id in last.jm.jobs;
  }

  /** The two addresses connect: one is there already when it is the configured one. */
  lemma Connects(build: Builder, fallback: string, valid: string -> bool, bad: string, good: string)
    returns (states: seq<System>)
    requires valid(good) && bad != good && (if fallback == "" then valid(bad) else bad == fallback)
    ensures SoloRun(build, fallback, valid, 0, states) && Waiting(states[|states| - 1].jm, bad, good)
  {
    var start := Start(0, Pinned(fallback));
    states := [start];
    var s := start;
    if fallback == "" {
      s := System(Counted(start.jm, bad), start.sessions[0 := bad]);
      Extends(build, fallback, valid, 0, states, Authorize(0, bad), s);
      states := states + [s];
    }
    var s' := System(Counted(s.jm, good), s.sessions[1 := good]);
    Extends(build, fallback, valid, 0, states, Authorize(1, good), s');
    states := states + [s'];
  }

  lemma UnsettledReached(build: Builder, fallback: string, valid: string -> bool, t: Template)
    requires HeadsGiven(build) && !Settled(build, fallback, valid, t)
    ensures !NeverHeadless(build, fallback, valid)
  {
    var good, b :| Known(fallback, valid, good) && Known(fallback, valid, b) && build(t, good).Some? && build(t, b).None?;
    var states := Connects(build, fallback, valid, if fallback == "" then b else fallback, good);
    var longer := Headless(build, fallback, valid, 0, states, t, if fallback == "" then b else fallback, good);
    assert |longer| - 1 < |longer|;
  }

  /** Every job that has a tail has a first part, in every run, exactly when for every template the configured address builds
      or the addresses that may be connected build all or none. */
  lemma NeverHeadlessIff(build: Builder, fallback: string, valid: string -> bool)
    requires HeadsGiven(build)
    ensures NeverHeadless(build, fallback, valid) <==> forall t: Template :: Settled(build, fallback, valid, t)
  {
    if t: Template :| !Settled(build, fallback, valid, t) {
      UnsettledReached(build, fallback, valid, t);
    } else {
      forall seed: nat, states: seq<System>, n: nat | SoloRun(build, fallback, valid, seed, states) && n < |states|
        ensures AllHeaded(states[n].jm)
      {
        RunHeaded(build, fallback, valid, seed, states, n);
      }
    }
  }

  /** So where it holds, whatever tail a session is sent, it is sent with the rest of its coinbase. */
  lemma WholeWhenSettled(build: Builder, fallback: string, valid: string -> bool, seed: nat, states: seq<System>, n: nat,
                         id: nat, a: string)
    requires OneHead(build) && HeadsGiven(build) && (forall t: Template :: Settled(build, fallback, valid, t))
    requires SoloRun(build, fallback, valid, seed, states) && n < |states| && id in states[n].jm.jobs
    requires a in states[n].jm.jobs[id].addressCoinb2s
    ensures var j := states[n].jm.jobs[id]; build(j.template, a) == Some(Parts(j.coinb1, j.addressCoinb2s[a]))
  {
    RunHeaded(build, fallback, valid, seed, states, n);
    WholeCoinbase(build, fallback, seed, Pinned(fallback), states, n, id, a);
  }
}
