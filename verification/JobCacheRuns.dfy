// Every interleaving of refreshes, registrations and departures keeps the cache equal to the coinbases it stands for.
module JobCacheRuns {
  import opened Hex
  import opened JobCache
  import opened Sets

  /** The job manager, and the address each live session mines to. */
  datatype System = System(jm: State, sessions: map<nat, string>)

  datatype Event =
    | Begin(template: Template, force: bool, now: real)
    | Read(addresses: seq<string>)
    | Commit(now: real)
    | Authorize(session: nat, address: string)
    | Fill(address: string)
    | Remove(session: nat)

  /** One lock section. A session may authorize again under another address; only its last address is given up at the end. */
  ghost predicate Next(build: Builder, fallback: string, s: System, e: Event, s': System) {
    match e
    case Begin(t, force, now) =>
      LockFree(s.jm) && s' == (if Skips(s.jm, t, force, now) then s else s.(jm := Begun(s.jm, t, now)))
    case Read(addresses) =>
      && s.jm.refreshing.Some? && s.jm.refreshing.value.addresses.None?
      && Lists(addresses, s.jm.connected)
      && s' == s.(jm := s.jm.(refreshing := Some(s.jm.refreshing.value.(addresses := Some(addresses)))))
    case Commit(now) =>
      && s.jm.refreshing.Some? && s.jm.refreshing.value.addresses.Some?
      && (forall id :: id in s.jm.jobs ==> s.jm.jobs[id].created < now)
      && Pruned(s.jm.jobs[s.jm.jobCounter + 1 := NewJob(build, fallback, s.jm.refreshing.value, now)], s'.jm.jobs,
                MAX_JOB_HISTORY)
      && s' == s.(jm := s.jm.(jobs := s'.jm.jobs, latest := s.jm.jobCounter + 1, jobCounter := s.jm.jobCounter + 1,
                              refreshing := None))
    case Authorize(session, address) =>
      s' == System(Counted(s.jm, address), s.sessions[session := address])
    case Fill(address) =>
      && LockFree(s.jm) && address in s.jm.pending
      && AllFilled(build, s.jm.jobs, s'.jm.jobs, address)
      && s' == s.(jm := s.jm.(jobs := s'.jm.jobs, pending := s.jm.pending - multiset{address}))
    case Remove(session) =>
      session in s.sessions && s' == System(Uncounted(s.jm, s.sessions[session]), s.sessions - {session})
  }

  /** A configured payout address is registered once and for all before anything else happens. */
  function Start(seed: nat, pinned: Option<string>): System {
    var empty := State(map[], 0, seed, "", "", 0.0, map[], None, multiset{});
    System(match pinned case None => empty case Some(a) => Counted(empty, a), map[])
  }

  /** A run: the states passed through, each following from the one before by some event. */
  ghost predicate Run(build: Builder, fallback: string, seed: nat, pinned: Option<string>, states: seq<System>) {
    && states != [] && states[0] == Start(seed, pinned)
    && forall i :: 0 < i < |states| ==> Follows(build, fallback, states[i - 1], states[i])
  }

  ghost predicate Follows(build: Builder, fallback: string, s: System, s': System) {
    exists e :: Next(build, fallback, s, e, s')
  }

  // ---- Tails ----

  /** Every tail a job has is the one its own template builds, and a first part it has was built from that template too. */
  ghost predicate TailsTrue(build: Builder, j: JobData) {
    && (forall a :: a in j.addressCoinb2s ==>
          build(j.template, a).Some? && j.addressCoinb2s[a] == build(j.template, a).value.coinb2)
    && (j.coinb1 != "" ==> exists a :: HeadFrom(build, j, a))
  }

  predicate HeadFrom(build: Builder, j: JobData, address: string) {
    build(j.template, address).Some? && j.coinb1 == build(j.template, address).value.coinb1
  }

  predicate HasTail(build: Builder, j: JobData, address: string) {
    build(j.template, address).Some? ==> address in j.addressCoinb2s
  }

  lemma {:induction false} TailsBuilt(build: Builder, t: Template, addresses: seq<string>, a: string)
    ensures a in Tails(build, t, addresses) <==> a in addresses && build(t, a).Some?
    ensures a in Tails(build, t, addresses) ==> Tails(build, t, addresses)[a] == build(t, a).value.coinb2
    decreases |addresses|
  {
    if addresses != [] {
      var n := |addresses| - 1;
      TailsBuilt(build, t, addresses[..n], a);
      assert addresses == addresses[..n] + [addresses[n]];
    }
  }

  lemma NewJobHead(build: Builder, fallback: string, r: Refresh, now: real)
    requires r.addresses.Some?
    ensures var j := NewJob(build, fallback, r, now);
            j.coinb1 != "" ==> exists a :: HeadFrom(build, j, a)
  {
    var j, addresses := NewJob(build, fallback, r, now), r.addresses.value;
    if addresses != [] && Head(build, r.template, addresses[0]) != "" {
      assert HeadFrom(build, j, addresses[0]);
    } else if j.coinb1 != "" {
      assert HeadFrom(build, j, fallback);
    }
  }

  lemma NewJobTails(build: Builder, fallback: string, r: Refresh, now: real)
    requires r.addresses.Some?
    ensures TailsTrue(build, NewJob(build, fallback, r, now))
    ensures forall a :: a in r.addresses.value ==> HasTail(build, NewJob(build, fallback, r, now), a)
  {
    NewJobHead(build, fallback, r, now);
    forall a
      ensures a in r.addresses.value ==> HasTail(build, NewJob(build, fallback, r, now), a)
      ensures a in NewJob(build, fallback, r, now).addressCoinb2s ==>
                build(r.template, a).Some?
                && NewJob(build, fallback, r, now).addressCoinb2s[a] == build(r.template, a).value.coinb2
    {
      TailsBuilt(build, r.template, r.addresses.value, a);
    }
  }

  lemma FilledTails(build: Builder, j: JobData, address: string)
    requires TailsTrue(build, j)
    ensures TailsTrue(build, Filled(build, j, address)) && HasTail(build, Filled(build, j, address), address)
    ensures forall a :: HasTail(build, j, a) ==> HasTail(build, Filled(build, j, address), a)
    ensures Filled(build, j, address).template == j.template && Filled(build, j, address).created == j.created
  {
    var filled := Filled(build, j, address);
    if j.coinb1 != "" {
      var a :| HeadFrom(build, j, a);
      assert HeadFrom(build, filled, a);
    } else if filled.coinb1 != "" {
      assert HeadFrom(build, filled, address);
    }
  }

  // ---- The invariant ----

  /** A connected address whose fill is not still to come has a tail in every job, and is among those an unfinished refresh
      has read. */
  predicate Served(build: Builder, s: State, a: string) {
    && (forall id :: id in s.jobs ==> HasTail(build, s.jobs[id], a))
    && (s.refreshing.Some? && s.refreshing.value.addresses.Some? ==> a in s.refreshing.value.addresses.value)
  }

  ghost predicate CacheTrue(build: Builder, s: State) {
    && (forall id :: id in s.jobs ==> TailsTrue(build, s.jobs[id]))
    && (forall a :: a in s.connected && a !in s.pending ==> Served(build, s, a))
  }

  predicate Kept(s: State) {
    && |s.jobs| <= MAX_JOB_HISTORY
    && (forall id :: id in s.jobs ==> id <= s.jobCounter)
    && (s.jobs != map[] ==> s.latest in s.jobs)
    && s.currentTip == s.lastBroadcastTip
  }

  function LiveAt(sessions: map<nat, string>, a: string): set<nat> {
    set i | i in sessions && sessions[i] == a
  }

  function Count(s: State, a: string): nat {
    if a in s.connected then s.connected[a] else 0
  }

  function Pins(pinned: Option<string>, a: string): nat {
    if pinned == Some(a) then 1 else 0
  }

  /** An address is counted at least once for each live session mining to it, and once more when it is pinned. */
  ghost predicate Accounted(pinned: Option<string>, s: System) {
    forall a: string :: Count(s.jm, a) >= |LiveAt(s.sessions, a)| + Pins(pinned, a)
  }

  ghost predicate Inv(build: Builder, pinned: Option<string>, s: System) {
    CacheTrue(build, s.jm) && Kept(s.jm) && Accounted(pinned, s)
    && Positive(s.jm)
  }

  predicate Positive(s: State) {
    forall a :: a in s.connected ==> s.connected[a] >= 1
  }

  lemma CommitTrue(build: Builder, fallback: string, s: State, kept: map<nat, JobData>, now: real)
    requires CacheTrue(build, s) && Kept(s) && s.refreshing.Some? && s.refreshing.value.addresses.Some?
    requires forall id :: id in s.jobs ==> s.jobs[id].created < now
    requires Pruned(s.jobs[s.jobCounter + 1 := NewJob(build, fallback, s.refreshing.value, now)], kept, MAX_JOB_HISTORY)
    ensures var s' := s.(jobs := kept, latest := s.jobCounter + 1, jobCounter := s.jobCounter + 1, refreshing := None);
            CacheTrue(build, s') && Kept(s')
  {
    var j := NewJob(build, fallback, s.refreshing.value, now);
    var all := s.jobs[s.jobCounter + 1 := j];
    NewJobTails(build, fallback, s.refreshing.value, now);
    NewestKept(all, kept, s.jobCounter + 1);
    forall id | id in kept
      ensures TailsTrue(build, kept[id])
      ensures forall a :: a in s.connected && a !in s.pending ==> HasTail(build, kept[id], a)
    {
      assert kept[id] == all[id];
      if id != s.jobCounter + 1 {
        assert TailsTrue(build, s.jobs[id]);
        forall a | a in s.connected && a !in s.pending
          ensures HasTail(build, s.jobs[id], a)
        {
          assert Served(build, s, a);
        }
      } else {
        forall a | a in s.connected && a !in s.pending
          ensures a in s.refreshing.value.addresses.value
        {
          assert Served(build, s, a);
        }
      }
    }
  }

  /** The newest job survives pruning. */
  lemma NewestKept(all: map<nat, JobData>, kept: map<nat, JobData>, newest: nat)
    requires newest in all && forall id :: id in all && id != newest ==> all[id].created < all[newest].created
    requires Pruned(all, kept, MAX_JOB_HISTORY)
    ensures newest in kept
  {
  }

  lemma FillTrue(build: Builder, s: State, jobs: map<nat, JobData>, address: string)
    requires CacheTrue(build, s) && Kept(s) && LockFree(s) && address in s.pending
    requires AllFilled(build, s.jobs, jobs, address)
    ensures var s' := s.(jobs := jobs, pending := s.pending - multiset{address}); CacheTrue(build, s') && Kept(s')
  {
    var s' := s.(jobs := jobs, pending := s.pending - multiset{address});
    assert |jobs| == |jobs.Keys| == |s.jobs.Keys| == |s.jobs|;
    forall id | id in jobs
      ensures TailsTrue(build, jobs[id]) && HasTail(build, jobs[id], address)
      ensures forall a :: HasTail(build, s.jobs[id], a) ==> HasTail(build, jobs[id], a)
    {
      assert TailsTrue(build, s.jobs[id]);
      FilledTails(build, s.jobs[id], address);
    }
    forall a | a in s'.connected && a !in s'.pending
      ensures Served(build, s', a)
    {
      if a != address {
        assert a !in s.pending;
        assert Served(build, s, a);
      }
    }
  }

  lemma CountedTrue(build: Builder, s: State, address: string)
    requires CacheTrue(build, s) && Kept(s) && Positive(s)
    ensures CacheTrue(build, Counted(s, address)) && Kept(Counted(s, address))
  {
    var s' := Counted(s, address);
    forall a | a in s'.connected && a !in s'.pending
      ensures Served(build, s', a)
    {
      if a == address {
        assert address in s.connected && s'.pending == s.pending;
      }
      assert a !in s.pending && a in s.connected;
      assert Served(build, s, a);
    }
  }

  lemma UncountedTrue(build: Builder, s: State, address: string)
    requires CacheTrue(build, s) && Kept(s)
    ensures CacheTrue(build, Uncounted(s, address)) && Kept(Uncounted(s, address))
  {
    var s' := Uncounted(s, address);
    forall a | a in s'.connected && a !in s'.pending
      ensures Served(build, s', a)
    {
      assert Served(build, s, a);
    }
  }

  lemma BegunTrue(build: Builder, s: State, t: Template, force: bool, now: real)
    requires CacheTrue(build, s) && Kept(s) && LockFree(s) && !Skips(s, t, force, now)
    ensures CacheTrue(build, Begun(s, t, now)) && Kept(Begun(s, t, now))
  {
    forall a | a in s.connected && a !in s.pending
      ensures Served(build, Begun(s, t, now), a)
    {
      assert Served(build, s, a);
    }
  }

  lemma ReadTrue(build: Builder, s: State, addresses: seq<string>)
    requires CacheTrue(build, s) && Kept(s) && s.refreshing.Some? && s.refreshing.value.addresses.None?
    requires Lists(addresses, s.connected)
    ensures var s' := s.(refreshing := Some(s.refreshing.value.(addresses := Some(addresses))));
            CacheTrue(build, s') && Kept(s')
  {
    var s' := s.(refreshing := Some(s.refreshing.value.(addresses := Some(addresses))));
    forall a | a in s.connected && a !in s.pending
      ensures Served(build, s', a)
    {
      assert Served(build, s, a);
    }
  }

  // ---- Counting sessions ----

  lemma SessionMoves(sessions: map<nat, string>, session: nat, address: string, a: string)
    ensures |LiveAt(sessions[session := address], a)| <= |LiveAt(sessions, a)| + if a == address then 1 else 0
  {
    var before, after := LiveAt(sessions, a), LiveAt(sessions[session := address], a);
    SubsetSize(after, if a == address then before + {session} else before);
  }

  lemma SessionLeaves(sessions: map<nat, string>, session: nat, a: string)
    requires session in sessions
    ensures |LiveAt(sessions - {session}, a)| == |LiveAt(sessions, a)| - if a == sessions[session] then 1 else 0
  {
    assert LiveAt(sessions - {session}, a) == LiveAt(sessions, a) - {session};
  }

  lemma AuthorizeAccounted(pinned: Option<string>, s: System, session: nat, address: string)
    requires Accounted(pinned, s)
    ensures Accounted(pinned, System(Counted(s.jm, address), s.sessions[session := address]))
  {
    var s' := System(Counted(s.jm, address), s.sessions[session := address]);
    forall a: string
      ensures Count(s'.jm, a) >= |LiveAt(s'.sessions, a)| + Pins(pinned, a)
    {
      assert Count(s.jm, a) >= |LiveAt(s.sessions, a)| + Pins(pinned, a);
      SessionMoves(s.sessions, session, address, a);
    }
  }

  lemma RemoveAccounted(pinned: Option<string>, s: System, session: nat)
    requires Accounted(pinned, s) && session in s.sessions
    ensures Accounted(pinned, System(Uncounted(s.jm, s.sessions[session]), s.sessions - {session}))
  {
    var s' := System(Uncounted(s.jm, s.sessions[session]), s.sessions - {session});
    forall a: string
      ensures Count(s'.jm, a) >= |LiveAt(s'.sessions, a)| + Pins(pinned, a)
    {
      assert Count(s.jm, a) >= |LiveAt(s.sessions, a)| + Pins(pinned, a);
      SessionLeaves(s.sessions, session, a);
    }
  }

  // ---- Runs ----

  lemma StartInv(build: Builder, seed: nat, pinned: Option<string>)
    ensures Inv(build, pinned, Start(seed, pinned))
  {
    forall a: string
      ensures LiveAt(map[], a) == {}
    {
    }
  }

  lemma NextTrue(build: Builder, fallback: string, s: System, e: Event, s': System)
    requires CacheTrue(build, s.jm) && Kept(s.jm) && Next(build, fallback, s, e, s')
    requires Positive(s.jm)
    ensures CacheTrue(build, s'.jm) && Kept(s'.jm)
  {
    match e
    case Begin(t, force, now) =>
      if !Skips(s.jm, t, force, now) {
        BegunTrue(build, s.jm, t, force, now);
      }
    case Read(addresses) => ReadTrue(build, s.jm, addresses);
    case Commit(now) => CommitTrue(build, fallback, s.jm, s'.jm.jobs, now);
    case Authorize(session, address) => CountedTrue(build, s.jm, address);
    case Fill(address) => FillTrue(build, s.jm, s'.jm.jobs, address);
    case Remove(session) => UncountedTrue(build, s.jm, s.sessions[session]);
  }

  lemma NextPositive(build: Builder, fallback: string, s: System, e: Event, s': System)
    requires Positive(s.jm) && Next(build, fallback, s, e, s')
    ensures Positive(s'.jm)
  {
  }

  lemma NextAccounted(build: Builder, fallback: string, pinned: Option<string>, s: System, e: Event, s': System)
    requires Accounted(pinned, s) && Next(build, fallback, s, e, s')
    ensures Accounted(pinned, s')
  {
    match e
    case Authorize(session, address) => AuthorizeAccounted(pinned, s, session, address);
    case Remove(session) => RemoveAccounted(pinned, s, session);
    case _ =>
      forall a: string
        ensures Count(s'.jm, a) >= |LiveAt(s'.sessions, a)| + Pins(pinned, a)
      {
        assert Count(s.jm, a) >= |LiveAt(s.sessions, a)| + Pins(pinned, a);
      }
  }

  lemma NextInv(build: Builder, fallback: string, pinned: Option<string>, s: System, e: Event, s': System)
    requires Inv(build, pinned, s) && Next(build, fallback, s, e, s')
    ensures Inv(build, pinned, s')
  {
    NextTrue(build, fallback, s, e, s');
    NextPositive(build, fallback, s, e, s');
    NextAccounted(build, fallback, pinned, s, e, s');
  }

  lemma {:induction false} RunInv(build: Builder, fallback: string, seed: nat, pinned: Option<string>, states: seq<System>,
                                  n: nat)
    requires Run(build, fallback, seed, pinned, states) && n < |states|
    ensures Inv(build, pinned, states[n])
    decreases n
  {
    if n == 0 {
      StartInv(build, seed, pinned);
    } else {
      RunInv(build, fallback, seed, pinned, states, n - 1);
      var e :| Next(build, fallback, states[n - 1], e, states[n]);
      NextInv(build, fallback, pinned, states[n - 1], e, states[n]);
    }
  }

  /** Whenever the job lock is free, every retained job has a tail for every connected address whose fill is not pending and
      for which its own template builds; every tail of every job is the one that job's template builds. */
  lemma CacheComplete(build: Builder, fallback: string, seed: nat, pinned: Option<string>, states: seq<System>, n: nat,
                      id: nat, a: string)
    requires Run(build, fallback, seed, pinned, states) && n < |states| && id in states[n].jm.jobs
    ensures var s := states[n].jm;
            var j := s.jobs[id];
            && (a in s.connected && a !in s.pending ==>
                  (a in j.addressCoinb2s <==> build(j.template, a).Some?))
            && (a in j.addressCoinb2s ==>
                  build(j.template, a).Some? && j.addressCoinb2s[a] == build(j.template, a).value.coinb2)
  {
    RunInv(build, fallback, seed, pinned, states, n);
    var s := states[n].jm;
    assert TailsTrue(build, s.jobs[id]);
    if a in s.connected && a !in s.pending {
      assert Served(build, s, a);
      assert HasTail(build, s.jobs[id], a);
    }
  }

  /** The first part of a coinbase does not depend on whom it pays. */
  ghost predicate OneHead(build: Builder) {
    forall t: Template, a: string, b: string {:trigger build(t, a), build(t, b)} ::
      build(t, a).Some? && build(t, b).Some? ==> build(t, a).value.coinb1 == build(t, b).value.coinb1
  }

  /** A builder that never gives an empty first part. */
  ghost predicate HeadsGiven(build: Builder) {
    forall t: Template, a: string {:trigger build(t, a)} :: build(t, a).Some? ==> build(t, a).value.coinb1 != ""
  }

  /** With such builders, the two parts a session is sent are the coinbase of that job's template for its address, whichever
      address the job's first part was made for, exactly when the job has a first part. */
  lemma WholeCoinbase(build: Builder, fallback: string, seed: nat, pinned: Option<string>, states: seq<System>, n: nat,
                      id: nat, a: string)
    requires OneHead(build) && HeadsGiven(build)
    requires Run(build, fallback, seed, pinned, states) && n < |states| && id in states[n].jm.jobs
    requires a in states[n].jm.jobs[id].addressCoinb2s
    ensures var j := states[n].jm.jobs[id];
            build(j.template, a) == Some(Parts(j.coinb1, j.addressCoinb2s[a])) <==> j.coinb1 != ""
  {
    RunInv(build, fallback, seed, pinned, states, n);
    var j := states[n].jm.jobs[id];
    assert TailsTrue(build, j);
    if j.coinb1 != "" {
      var b :| HeadFrom(build, j, b);
      assert build(j.template, a).value.coinb1 == build(j.template, b).value.coinb1;
    }
  }

  /** The pinned address and the address of every live session stay connected in every run. */
  lemma StaysConnected(build: Builder, fallback: string, seed: nat, pinned: Option<string>, states: seq<System>, n: nat,
                       a: string)
    requires Run(build, fallback, seed, pinned, states) && n < |states|
    requires pinned == Some(a) || exists i :: i in states[n].sessions && states[n].sessions[i] == a
    ensures a in states[n].jm.connected
  {
    RunInv(build, fallback, seed, pinned, states, n);
    assert Count(states[n].jm, a) >= |LiveAt(states[n].sessions, a)| + Pins(pinned, a);
    if pinned != Some(a) {
      var i :| i in states[n].sessions && states[n].sessions[i] == a;
      assert i in LiveAt(states[n].sessions, a);
    }
  }

  /** At most 20 jobs are kept, the newest among them, and the check for a tip another refresh has already handled never
      finds one: a tip recorded as broadcast is always the current tip. */
  lemma NewestRetained(build: Builder, fallback: string, seed: nat, pinned: Option<string>, states: seq<System>, n: nat)
    requires Run(build, fallback, seed, pinned, states) && n < |states|
    ensures var s := states[n].jm;
            && |s.jobs| <= MAX_JOB_HISTORY && (s.jobs != map[] ==> s.latest in s.jobs)
            && (forall t: Template ::
                  !(t.previousBlockHash != s.currentTip && s.lastBroadcastTip == t.previousBlockHash))
  {
    RunInv(build, fallback, seed, pinned, states, n);
  }
}
