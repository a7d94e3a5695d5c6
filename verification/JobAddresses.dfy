// How many times a payout address is counted: once for each session mining to it, and once for every count that was never given up.
module JobAddresses {
  import opened Hex
  import opened JobCache
  import opened JobCacheRuns
  import opened JobTips
  import opened Sets

  /** A count of the address that its session will not give up: the session authorizes again, or it leaves an address that is
      empty, which departures pass over. */
  predicate Leaks(s: System, e: Event, a: string) {
    match e
    case Authorize(session, _) => session in s.sessions && s.sessions[session] == a
    case Remove(session) => session in s.sessions && s.sessions[session] == a == ""
    case _ => false
  }

  function Leaked(states: seq<System>, events: seq<Event>, n: nat, a: string): nat
    requires |states| == |events| + 1 && n < |states|
  {
    if n == 0 then 0 else Leaked(states, events, n - 1, a) + if Leaks(states[n - 1], events[n - 1], a) then 1 else 0
  }

  predicate Conserved(pinned: Option<string>, s: System, a: string, leaked: nat) {
    Count(s.jm, a) == |LiveAt(s.sessions, a)| + Pins(pinned, a) + leaked
  }

  lemma CountUp(s: State, address: string, a: string)
    ensures Count(Counted(s, address), a) == Count(s, a) + if a == address then 1 else 0
  {
  }

  lemma CountDown(s: State, address: string, a: string)
    requires Count(s, address) >= 1
    ensures Count(Uncounted(s, address), a) == Count(s, a) - if a == address && address != "" then 1 else 0
  {
  }

  lemma SizeWithout(ids: set<nat>, x: nat)
    ensures |ids| == |ids - {x}| + if x in ids then 1 else 0
  {
  }

  lemma OthersLive(sessions: map<nat, string>, session: nat, address: string, a: string)
    ensures LiveAt(sessions[session := address], a) - {session} == LiveAt(sessions, a) - {session}
    ensures session in LiveAt(sessions[session := address], a) <==> a == address
  {
  }

  lemma LiveAfter(sessions: map<nat, string>, session: nat, address: string, a: string)
    ensures |LiveAt(sessions[session := address], a)|
         == |LiveAt(sessions, a)| + (if a == address then 1 else 0)
            - (if session in sessions && sessions[session] == a then 1 else 0)
  {
    OthersLive(sessions, session, address, a);
    SizeWithout(LiveAt(sessions[session := address], a), session);
    SizeWithout(LiveAt(sessions, a), session);
  }

  lemma NextConserved(build: Builder, fallback: string, pinned: Option<string>, s: System, e: Event, s': System, a: string,
                      leaked: nat)
    requires Next(build, fallback, s, e, s') && Conserved(pinned, s, a, leaked)
    requires e.Remove? ==> Count(s.jm, s.sessions[e.session]) >= 1
    ensures Conserved(pinned, s', a, leaked + if Leaks(s, e, a) then 1 else 0)
  {
    match e
    case Authorize(session, address) =>
      CountUp(s.jm, address, a);
      LiveAfter(s.sessions, session, address, a);
    case Remove(session) =>
      CountDown(s.jm, s.sessions[session], a);
      SessionLeaves(s.sessions, session, a);
    case _ =>
  }

  lemma PassStep(build: Builder, fallback: string, seed: nat, pinned: Option<string>, states: seq<System>,
                 events: seq<Event>, n: nat)
    requires Passes(build, fallback, seed, pinned, states, events) && 0 < n < |states|
    ensures Next(build, fallback, states[n - 1], events[n - 1], states[n])
  {
    assert Next(build, fallback, states[n - 1], events[n - 1], states[n - 1 + 1]);
  }

  lemma {:induction false} RunConserved(build: Builder, fallback: string, seed: nat, pinned: Option<string>,
                                        states: seq<System>, events: seq<Event>, n: nat, a: string)
    requires Passes(build, fallback, seed, pinned, states, events) && n < |states|
    ensures Conserved(pinned, states[n], a, Leaked(states, events, n, a))
    decreases n
  {
    if n == 0 {
      assert LiveAt(map[], a) == {};
    } else {
      RunConserved(build, fallback, seed, pinned, states, events, n - 1, a);
      StepConserved(build, fallback, seed, pinned, states, events, n, a);
    }
  }

  lemma StepConserved(build: Builder, fallback: string, seed: nat, pinned: Option<string>, states: seq<System>,
                      events: seq<Event>, n: nat, a: string)
    requires Passes(build, fallback, seed, pinned, states, events) && 0 < n < |states|
    requires Conserved(pinned, states[n - 1], a, Leaked(states, events, n - 1, a))
    ensures Conserved(pinned, states[n], a, Leaked(states, events, n, a))
  {
    PassStep(build, fallback, seed, pinned, states, events, n);
    if events[n - 1].Remove? {
      LeaverCounted(build, fallback, seed, pinned, states, events, n - 1, events[n - 1].session);
    }
    NextConserved(build, fallback, pinned, states[n - 1], events[n - 1], states[n], a, Leaked(states, events, n - 1, a));
  }

  lemma LeaverCounted(build: Builder, fallback: string, seed: nat, pinned: Option<string>, states: seq<System>,
                      events: seq<Event>, n: nat, session: nat)
    requires Passes(build, fallback, seed, pinned, states, events) && n < |states| && session in states[n].sessions
    ensures Count(states[n].jm, states[n].sessions[session]) >= 1
  {
    PassesIsRun(build, fallback, seed, pinned, states, events);
    RunInv(build, fallback, seed, pinned, states, n);
    assert session in LiveAt(states[n].sessions, states[n].sessions[session]);
  }

  /** In every run, an address is counted exactly once for each live session mining to it, once more when it is pinned, and once
      for every count a session left behind. */
  lemma CountsExactly(build: Builder, fallback: string, seed: nat, pinned: Option<string>, states: seq<System>,
                      events: seq<Event>, n: nat, a: string)
    requires Passes(build, fallback, seed, pinned, states, events) && n < |states|
    ensures Count(states[n].jm, a) == |LiveAt(states[n].sessions, a)| + Pins(pinned, a) + Leaked(states, events, n, a)
  {
    RunConserved(build, fallback, seed, pinned, states, events, n, a);
  }

  /** So an address has its coinbases built exactly while a session mines to it, it is pinned, or a count of it was left behind. */
  lemma ConnectedIff(build: Builder, fallback: string, seed: nat, pinned: Option<string>, states: seq<System>,
                     events: seq<Event>, n: nat, a: string)
    requires Passes(build, fallback, seed, pinned, states, events) && n < |states|
    ensures a in states[n].jm.connected <==>
              || (exists session :: session in states[n].sessions && states[n].sessions[session] == a)
              || pinned == Some(a) || Leaked(states, events, n, a) > 0
  {
    CountsExactly(build, fallback, seed, pinned, states, events, n, a);
    PassesIsRun(build, fallback, seed, pinned, states, events);
    RunInv(build, fallback, seed, pinned, states, n);
    var live := LiveAt(states[n].sessions, a);
    if |live| > 0 {
      var session :| session in live;
    }
    forall session | session in states[n].sessions && states[n].sessions[session] == a
      ensures |live| > 0
    {
      assert session in live;
    }
  }
}
