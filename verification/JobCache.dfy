// The job manager in solo mode: recent jobs, each with one coinbase tail per connected payout address, kept by three
// operations that interleave between two locks.
module JobCache {
  import opened Hex

  const MAX_JOB_HISTORY := 20
  const TX_UPDATE_INTERVAL := 30.0

  /** Payments a template may demand: one to the first of some addresses, one to a script in hex. */
  datatype MinerFund = MinerFund(addresses: seq<string>, minimum: int)

  datatype StakingRewards = StakingRewards(script: string, minimum: int)

  /** A block template; transactions as hex. */
  datatype Template = Template(previousBlockHash: string, height: int, coinbaseValue: int, transactions: seq<string>,
                               witnessCommitment: string, fund: Option<MinerFund>, staking: Option<StakingRewards>)

  datatype Parts = Parts(coinb1: string, coinb2: string)

  /** The coin's coinbase builder for a template and a payout address; None when it fails. */
  type Builder = (Template, string) -> Option<Parts>

  datatype JobData = JobData(template: Template, clean: bool, coinb1: string, coinb2: string,
                             addressCoinb2s: map<string, string>, created: real)

  /** A template being turned into a job under the job lock. The addresses are read later, under their own lock. */
  datatype Refresh = Refresh(template: Template, clean: bool, addresses: Option<seq<string>>)

  datatype State = State(jobs: map<nat, JobData>, latest: nat, jobCounter: nat,
                         currentTip: string, lastBroadcastTip: string, lastCleanJobAt: real,
                         connected: map<string, nat>,
                         refreshing: Option<Refresh>,
                         pending: multiset<string>)

  predicate LockFree(s: State) {
    s.refreshing.None?
  }

  // ---- Refresh ----

  /** Templates that lead to no job: one on a tip already handled, and one on the current tip that is neither forced nor due. */
  predicate Skips(s: State, t: Template, force: bool, now: real) {
    var clean := t.previousBlockHash != s.currentTip;
    || (clean && s.lastBroadcastTip == t.previousBlockHash)
    || (!clean && !force && now - s.lastCleanJobAt < TX_UPDATE_INTERVAL)
  }

  function Begun(s: State, t: Template, now: real): State {
    var clean := t.previousBlockHash != s.currentTip;
    s.(lastBroadcastTip := if clean then t.previousBlockHash else s.lastBroadcastTip,
       lastCleanJobAt := if clean then now else s.lastCleanJobAt,
       currentTip := t.previousBlockHash,
       refreshing := Some(Refresh(t, clean, None)))
  }

  /** The sequence lists exactly the addresses of the map, each once. */
  ghost predicate Lists(addresses: seq<string>, connected: map<string, nat>) {
    && (forall a :: a in addresses <==> a in connected)
    && (forall i, j :: 0 <= i < j < |addresses| ==> addresses[i] != addresses[j])
  }

  /** The tails of the addresses that build, in the order they were read. */
  function Tails(build: Builder, t: Template, addresses: seq<string>): map<string, string>
    decreases |addresses|
  {
    if addresses == [] then map[]
    else
      var n := |addresses| - 1;
      match build(t, addresses[n])
      case None => Tails(build, t, addresses[..n])
      case Some(p) => Tails(build, t, addresses[..n])[addresses[n] := p.coinb2]
  }

  function Head(build: Builder, t: Template, address: string): string {
    match build(t, address)
    case None => ""
    case Some(p) => p.coinb1
  }

  /** The first part comes from the first address, and from the configured one when that gave nothing. */
  function Coinb1(build: Builder, fallback: string, t: Template, addresses: seq<string>): string {
    var first := if addresses == [] then "" else Head(build, t, addresses[0]);
    if first == "" && fallback != "" then Head(build, t, fallback) else first
  }

  function NewJob(build: Builder, fallback: string, r: Refresh, now: real): JobData
    requires r.addresses.Some?
  {
    JobData(r.template, r.clean, Coinb1(build, fallback, r.template, r.addresses.value), "",
            Tails(build, r.template, r.addresses.value), now)
  }

  /** `kept` is `jobs` cut down to the limit, and nothing kept is older than anything dropped. */
  ghost predicate Pruned(jobs: map<nat, JobData>, kept: map<nat, JobData>, limit: nat) {
    && kept.Keys <= jobs.Keys
    && (forall id :: id in kept ==> kept[id] == jobs[id])
    && |kept| == (if |jobs| > limit then limit else |jobs|)
    && (forall k, d :: k in kept && d in jobs && d !in kept ==> jobs[d].created <= kept[k].created)
  }

  // ---- Register and unregister ----

  function Counted(s: State, address: string): State {
    var count := if address in s.connected then s.connected[address] else 0;
    s.(connected := s.connected[address := count + 1],
       pending := if count == 0 then s.pending + multiset{address} else s.pending)
  }

  function Filled(build: Builder, j: JobData, address: string): JobData {
    if address in j.addressCoinb2s then j
    else
      match build(j.template, address)
      case None => j
      case Some(p) =>
        j.(addressCoinb2s := j.addressCoinb2s[address := p.coinb2],
           coinb1 := if j.coinb1 == "" then p.coinb1 else j.coinb1)
  }

  ghost predicate AllFilled(build: Builder, jobs: map<nat, JobData>, jobs': map<nat, JobData>, address: string) {
    jobs'.Keys == jobs.Keys && forall id :: id in jobs ==> jobs'[id] == Filled(build, jobs[id], address)
  }

  function Uncounted(s: State, address: string): State {
    if address == "" || address !in s.connected then s
    else if s.connected[address] <= 1 then s.(connected := s.connected - {address})
    else s.(connected := s.connected[address := s.connected[address] - 1])
  }

  // ---- The job manager ----

  class JobManager {
    const build: Builder
    const address: string
    var jobs: map<nat, JobData>
    var latestJob: nat
    var jobCounter: nat
    var currentTip: string
    var lastBroadcastTip: string
    var lastCleanJobAt: real
    var connectedAddrs: map<string, nat>
    // Where the operations in flight have got to.
    ghost var refreshing: Option<Refresh>
    ghost var pending: multiset<string>

    ghost function View(): State
      reads this
    {
      State(jobs, latestJob, jobCounter, currentTip, lastBroadcastTip, lastCleanJobAt, connectedAddrs, refreshing, pending)
    }

    constructor (build: Builder, address: string, seed: nat)
      ensures this.build == build && this.address == address
      ensures View() == State(map[], 0, seed, "", "", 0.0, map[], None, multiset{})
    {
      this.build, this.address := build, address;
      jobs, latestJob, jobCounter, currentTip, lastBroadcastTip, lastCleanJobAt := map[], 0, seed, "", "", 0.0;
      connectedAddrs, refreshing, pending := map[], None, multiset{};
    }

    /** refreshTemplate up to the point where it reads the addresses. */
    method BeginRefresh(t: Template, force: bool, now: real) returns (building: bool, clean: bool)
      requires LockFree(View())
      modifies this
      ensures building == !Skips(old(View()), t, force, now)
      ensures building ==> clean == (t.previousBlockHash != old(currentTip))
      ensures View() == if building then Begun(old(View()), t, now) else old(View())
    {
      clean := t.previousBlockHash != currentTip;
      if clean && lastBroadcastTip == t.previousBlockHash {
        return false, clean;
      }
      if !clean && !force {
        if now - lastCleanJobAt < TX_UPDATE_INTERVAL {
          return false, clean;
        }
      }
      if clean {
        lastBroadcastTip := t.previousBlockHash;
        lastCleanJobAt := now;
      }
      currentTip := t.previousBlockHash;
      building := true;
      refreshing := Some(Refresh(t, clean, None));
    }

    /** The addresses connected at this moment, in whatever order the map gives them. */
    method ReadAddresses() returns (addresses: seq<string>)
      requires refreshing.Some? && refreshing.value.addresses.None?
      modifies `refreshing
      ensures Lists(addresses, connectedAddrs)
      ensures View() == old(View()).(refreshing := Some(old(refreshing).value.(addresses := Some(addresses))))
    {
      addresses := [];
      var left := connectedAddrs.Keys;
      while left != {}
        invariant left <= connectedAddrs.Keys && refreshing == old(refreshing)
        invariant forall a :: a in addresses <==> a in connectedAddrs && a !in left
        invariant forall i, j :: 0 <= i < j < |addresses| ==> addresses[i] != addresses[j]
        decreases |left|
      {
        var a :| a in left;
        addresses := addresses + [a];
        left := left - {a};
      }
      refreshing := Some(refreshing.value.(addresses := Some(addresses)));
    }

    method BuildTails(t: Template, addresses: seq<string>) returns (coinb1: string, tails: map<string, string>)
      ensures tails == Tails(build, t, addresses)
      ensures coinb1 == if addresses == [] then "" else Head(build, t, addresses[0])
    {
      coinb1, tails := "", map[];
      for i := 0 to |addresses|
        invariant tails == Tails(build, t, addresses[..i])
        invariant coinb1 == if i == 0 then "" else Head(build, t, addresses[0])
      {
        assert addresses[..i + 1][..i] == addresses[..i];
        var parts := build(t, addresses[i]);
        if parts.Some? {
          if i == 0 {
            coinb1 := parts.value.coinb1;
          }
          tails := tails[addresses[i] := parts.value.coinb2];
        }
      }
      assert addresses[..|addresses|] == addresses;
    }

    /** The rest of refreshTemplate, up to releasing the job lock. */
    method CommitRefresh(t: Template, clean: bool, addresses: seq<string>, now: real)
      requires refreshing == Some(Refresh(t, clean, Some(addresses)))
      modifies this
      ensures LockFree(View()) && jobCounter == old(jobCounter) + 1 && latestJob == jobCounter
      ensures Pruned(old(jobs)[jobCounter := NewJob(build, address, old(refreshing).value, now)], jobs, MAX_JOB_HISTORY)
      ensures View() == old(View()).(jobs := jobs, latest := latestJob, jobCounter := jobCounter, refreshing := None)
    {
      var coinb1, tails := BuildTails(t, addresses);
      if coinb1 == "" && address != "" {
        coinb1 := Head(build, t, address);
      }
      StoreJob(JobData(t, clean, coinb1, "", tails, now));
      refreshing := None;
    }

    method StoreJob(j: JobData)
      modifies `jobs, `jobCounter, `latestJob
      ensures jobCounter == old(jobCounter) + 1 && latestJob == jobCounter
      ensures Pruned(old(jobs)[jobCounter := j], jobs, MAX_JOB_HISTORY)
    {
      jobCounter := jobCounter + 1;
      jobs := jobs[jobCounter := j];
      latestJob := jobCounter;
      if |jobs| > MAX_JOB_HISTORY {
        PruneJobs();
      }
    }

    method OldestJob() returns (oldest: nat)
      requires jobs != map[]
      ensures oldest in jobs && forall id :: id in jobs ==> jobs[oldest].created <= jobs[id].created
    {
      var left := jobs.Keys;
      assert left != {} by { var id :| id in jobs; }
      oldest :| oldest in left;
      left := left - {oldest};
      while left != {}
        invariant left <= jobs.Keys && oldest in jobs
        invariant forall id :: id in jobs && id !in left ==> jobs[oldest].created <= jobs[id].created
        decreases |left|
      {
        var id :| id in left;
        if jobs[id].created < jobs[oldest].created {
          oldest := id;
        }
        left := left - {id};
      }
    }

    /** Drops the oldest job until no more than the limit are left. */
    method PruneJobs()
      modifies `jobs
      ensures Pruned(old(jobs), jobs, MAX_JOB_HISTORY)
    {
      while |jobs| > MAX_JOB_HISTORY
        invariant jobs.Keys <= old(jobs).Keys && forall id :: id in jobs ==> jobs[id] == old(jobs)[id]
        invariant |jobs| >= if |old(jobs)| > MAX_JOB_HISTORY then MAX_JOB_HISTORY else |old(jobs)|
        invariant |jobs| <= |old(jobs)|
        invariant forall k, d :: k in jobs && d in old(jobs) && d !in jobs ==> old(jobs)[d].created <= jobs[k].created
        decreases |jobs|
      {
        var oldest := OldestJob();
        Without(jobs, oldest);
        jobs := jobs - {oldest};
      }
    }

    /** RegisterAddress under the address lock; whether the tails are then still to be filled in. */
    method CountAddress(address: string) returns (isNew: bool)
      modifies `connectedAddrs, `pending
      ensures View() == Counted(old(View()), address)
      ensures isNew == (pending != old(pending))
    {
      var count := if address in connectedAddrs then connectedAddrs[address] else 0;
      connectedAddrs := connectedAddrs[address := count + 1];
      isNew := connectedAddrs[address] == 1;
      if isNew {
        pending := pending + multiset{address};
        assert |pending| == |old(pending)| + 1;
      }
    }

    method FillOne(id: nat, address: string)
      requires id in jobs
      modifies `jobs
      ensures jobs == old(jobs)[id := Filled(build, old(jobs)[id], address)]
    {
      var j := jobs[id];
      if address !in j.addressCoinb2s {
        var parts := build(j.template, address);
        if parts.Some? {
          j := j.(addressCoinb2s := j.addressCoinb2s[address := parts.value.coinb2]);
          if j.coinb1 == "" {
            j := j.(coinb1 := parts.value.coinb1);
          }
        }
      }
      jobs := jobs[id := j];
    }

    /** RegisterAddress under the job lock. */
    method FillTails(address: string)
      requires LockFree(View()) && address in pending
      modifies `jobs, `pending
      ensures AllFilled(build, old(jobs), jobs, address)
      ensures View() == old(View()).(jobs := jobs, pending := old(pending) - multiset{address})
    {
      FillAll(address);
      pending := pending - multiset{address};
    }

    method FillAll(address: string)
      modifies `jobs
      ensures AllFilled(build, old(jobs), jobs, address)
    {
      var left := jobs.Keys;
      while left != {}
        invariant left <= jobs.Keys == old(jobs).Keys
        invariant forall id :: id in jobs ==>
                    jobs[id] == if id in left then old(jobs)[id] else Filled(build, old(jobs)[id], address)
        decreases |left|
      {
        var id :| id in left;
        FillOne(id, address);
        left := left - {id};
      }
    }

    method UnregisterAddress(address: string)
      modifies `connectedAddrs
      ensures View() == Uncounted(old(View()), address)
    {
      if address == "" {
        return;
      }
      if address in connectedAddrs {
        var count := connectedAddrs[address];
        if count <= 1 {
          connectedAddrs := connectedAddrs - {address};
        } else {
          connectedAddrs := connectedAddrs[address := count - 1];
        }
      }
    }

    /** The tail a session is sent with a job. */
    method GetAddressCoinb2(jobID: nat, address: string) returns (c2: Option<string>)
      ensures c2 == if jobID in jobs && address in jobs[jobID].addressCoinb2s
                    then Some(jobs[jobID].addressCoinb2s[address]) else None
    {
      if jobID !in jobs || address !in jobs[jobID].addressCoinb2s {
        return None;
      }
      c2 := Some(jobs[jobID].addressCoinb2s[address]);
    }
  }

  lemma Without(jobs: map<nat, JobData>, id: nat)
    requires id in jobs
    ensures |jobs - {id}| == |jobs| - 1
  {
    assert (jobs - {id}).Keys == jobs.Keys - {id};
    assert |jobs| == |jobs.Keys| && |jobs - {id}| == |(jobs - {id}).Keys|;
  }
}
