// A spec-following SV2 miner and the session's view of it stay in step over every run.
module Sv2Protocol {
  import opened Bytes
  import opened Hex
  import opened Merkle
  import opened ShareHeader
  import opened Target
  import opened Channel
  import opened Sv2Session

  /** The templates the server broadcasts, by the job ID each was given; a job ID stands for one template. */
  type Feed = nat -> JobTemplate

  ghost predicate Numbered(feed: Feed) {
    forall j: nat :: feed(j).jobID == j
  }

  ghost predicate RealPrevHashes(feed: Feed) {
    forall j: nat :: feed(j).prevHash != ZERO_HASH
  }

  // ---- One channel and its miner ----

  /** The miner has committed no fault, holds nothing staged, and works on the channel's current job, on the prev-hash
      of that job, which is the channel's, to the channel's target. */
  predicate InStep(feed: Feed, l: Lane, last: nat) {
    var c, m := l.channel, l.miner;
    && c.Valid()
    && !m.fault && m.staged == {}
    && m.target == c.poolTarget
    && m.active == c.currentJobID <= last
    && (if m.active == 0 then m.prevHash == None && c.activePrevHash == ZERO_HASH && m.first == 0
        else m.prevHash == Some(c.activePrevHash) && feed(m.active).prevHash == c.activePrevHash
             && m.active in m.jobs && m.first in m.jobs)
    && (forall j :: j in m.jobs ==> 1 <= m.first <= j <= m.active)
  }

  /** A channel's copy of a template differs from it in the coinbase at most. */
  predicate SameJob(t: JobTemplate, from: JobTemplate) {
    t == from.(coinbase1 := t.coinbase1, coinbase2 := t.coinbase2)
  }

  /** The copy `t` stored for job `j` is what the miner was last sent under that ID and the prev-hash it mined it on. */
  predicate Backed(rules: Rules, feed: Feed, l: Lane, j: nat, t: JobTemplate) {
    && j in l.miner.jobs && l.miner.jobs[j] == rules.payload(l.channel.info, t)
    && j in l.miner.workedOn && l.miner.workedOn[j] == t.prevHash
    && t.jobID == j && SameJob(t, feed(j)) && (l.channel.ownCoinbase.None? ==> t == feed(j))
  }

  /** Whatever was backed under another job ID still is. */
  ghost predicate KeepsOthers(l: Lane, l': Lane, j: nat) {
    && l'.channel.info == l.channel.info && (l'.channel.ownCoinbase.None? ==> l.channel.ownCoinbase.None?)
    && (forall k :: k in l.miner.jobs && k != j ==> k in l'.miner.jobs && l'.miner.jobs[k] == l.miner.jobs[k])
    && (forall k :: k in l'.miner.jobs && k != j ==> k in l.miner.jobs)
    && (forall k :: k in l.miner.workedOn && k != j ==>
          k in l'.miner.workedOn && l'.miner.workedOn[k] == l.miner.workedOn[k])
  }

  lemma ReceiveLast(m: Miner, msgs: seq<Message>, msg: Message)
    ensures ReceiveAll(m, msgs + [msg]) == Receive(ReceiveAll(m, msgs), msg)
  {
    assert (msgs + [msg])[..|msgs|] == msgs;
  }

  lemma TargetThenJob(m: Miner, c: ChannelState, due: bool, job: Message)
    ensures ReceiveAll(m, TargetMessages(c, due) + [job]) == Receive(if due then m.(target := c.poolTarget) else m, job)
  {
    ReceiveLast(m, TargetMessages(c, due), job);
    if due {
      ReceiveLast(m, [], SetTarget(c.poolTarget));
      assert [] + [SetTarget(c.poolTarget)] == TargetMessages(c, due);
    }
  }

  lemma TargetsMatch(c: ChannelState, jobID: nat, future: bool, now: real)
    requires c.Valid()
    ensures !FlushDue(c, future) ==> Readied(c, jobID, future, now).poolTarget == c.poolTarget
  {
  }

  /** The target a job may bring with it never leaves the miner with another target than the channel's. */
  lemma JobReceived(rules: Rules, c: ChannelState, m: Miner, t: JobTemplate, future: bool, now: real)
    requires c.Valid() && m.target == c.poolTarget
    ensures ReceiveAll(m, JobSent(rules, c, t, future, now).messages)
         == Receive(m.(target := Readied(c, t.jobID, future, now).poolTarget),
                    JobMessage(rules, c.info, Resolved(c, t), future))
  {
    TargetThenJob(m, Readied(c, t.jobID, future, now), FlushDue(c, future), JobMessage(rules, c.info, Resolved(c, t), future));
    TargetsMatch(c, t.jobID, future, now);
  }

  /** The miner after a job that starts at once, on the prev-hash it is on. */
  function Started(m: Miner, j: nat, payload: Payload): Miner
    requires m.prevHash.Some?
  {
    m.(jobs := m.jobs[j := payload], first := if m.first == 0 then j else m.first,
       staged := m.staged - {j}, active := j, workedOn := m.workedOn[j := m.prevHash.value])
  }

  /** The miner after a job is staged and the prev-hash that names it arrives. */
  function Activated(m: Miner, j: nat, payload: Payload, prevHash: Hash): Miner {
    m.(jobs := m.jobs[j := payload], first := if m.first == 0 then j else m.first,
       staged := {}, active := j, prevHash := Some(prevHash), workedOn := m.workedOn[j := prevHash])
  }

  function Faulted(m: Miner, j: nat, payload: Payload): Miner {
    m.(jobs := m.jobs[j := payload], first := if m.first == 0 then j else m.first, fault := true)
  }

  function AfterWork(m: Miner, c: ChannelState, d: Dispatch, t: JobTemplate, payload: Payload): Miner
    requires c.activePrevHash == t.prevHash ==> m.prevHash.Some?
  {
    if c.activePrevHash == t.prevHash then Started(m.(target := d.channel.poolTarget), t.jobID, payload)
    else Activated(m.(target := d.channel.poolTarget), t.jobID, payload, t.prevHash)
  }

  lemma StagedThenNamed(m: Miner, msgs: seq<Message>, staged: Miner, job: Message, t: JobTemplate)
    requires job.NewJob? && job.jobID == t.jobID && job.minNtime.None?
    requires ReceiveAll(m, msgs) == Receive(staged, job)
    ensures ReceiveAll(m, msgs + [PrevHashMessage(t)]) == Activated(staged, t.jobID, job.payload, t.prevHash)
  {
    ReceiveLast(m, msgs, PrevHashMessage(t));
  }

  lemma NothingToStartOn(m: Miner, msgs: seq<Message>, idle: Miner, job: Message, t: JobTemplate)
    requires job.NewJob? && job.jobID == t.jobID && job.minNtime.Some?
    requires ReceiveAll(m, msgs) == Receive(idle, job) && idle.prevHash.None? && idle.staged == {}
    ensures ReceiveAll(m, msgs + [PrevHashMessage(t)]) == Faulted(idle, t.jobID, job.payload)
  {
    ReceiveLast(m, msgs, PrevHashMessage(t));
  }

  lemma ActivatedReceived(rules: Rules, c: ChannelState, m: Miner, t: JobTemplate, now: real)
    requires c.Valid() && m.target == c.poolTarget
    ensures var d := JobSent(rules, c, t, true, now);
            (ReceiveAll(m, d.messages + [PrevHashMessage(t)])
          == Activated(m.(target := d.channel.poolTarget), t.jobID, rules.payload(c.info, d.stored), t.prevHash))
  {
    var msgs := JobSent(rules, c, t, true, now).messages;
    JobReceived(rules, c, m, t, true, now);
    StagedThenNamed(m, msgs, m.(target := Readied(c, t.jobID, true, now).poolTarget),
                    JobMessage(rules, c.info, Resolved(c, t), true), t);
  }

  lemma StartedReceived(rules: Rules, c: ChannelState, m: Miner, t: JobTemplate, now: real)
    requires c.Valid() && m.target == c.poolTarget && m.prevHash.Some?
    ensures var d := JobSent(rules, c, t, false, now);
            (ReceiveAll(m, d.messages)
          == Started(m.(target := d.channel.poolTarget), t.jobID, rules.payload(c.info, d.stored)))
  {
    JobReceived(rules, c, m, t, false, now);
  }

  /** New work reaches a miner on the old prev-hash as an active job, any other miner as a staged job and a prev-hash. */
  lemma WorkReceived(rules: Rules, c: ChannelState, m: Miner, t: JobTemplate, built: Option<Coinbase>, now: real)
    requires c.Valid() && m.target == c.poolTarget
    requires c.activePrevHash == t.prevHash ==> m.prevHash.Some?
    ensures var d := WorkSent(rules, c, t, built, now);
            ReceiveAll(m, d.messages) == AfterWork(m, c, d, t, rules.payload(c.info, d.stored))
  {
    var on := Rebuilt(c, built).(activePrevHash := t.prevHash);
    if c.activePrevHash == t.prevHash {
      StartedReceived(rules, on, m, t, now);
    } else {
      ActivatedReceived(rules, on, m, t, now);
    }
  }

  /** A channel and a miner that agree on the current job, its prev-hash and the target are in step. */
  lemma Agreeing(feed: Feed, m: Miner, c: ChannelState, log: seq<Message>, j: nat)
    requires c.Valid() && c.currentJobID == j >= 1 && !m.fault && m.staged == {}
    requires m.active == j && m.target == c.poolTarget
    requires m.prevHash == Some(c.activePrevHash) && feed(j).prevHash == c.activePrevHash
    requires j in m.jobs && m.first in m.jobs && m.first >= 1
    requires forall k :: k in m.jobs ==> m.first <= k <= j
    ensures InStep(feed, Lane(c, m, log), j)
  {
  }

  lemma KnownJobs(m: Miner, j: nat, payload: Payload, feed: Feed, l: Lane, last: nat)
    requires InStep(feed, l, last) && m == l.miner && 1 <= j && last <= j
    ensures var jobs, first := m.jobs[j := payload], if m.first == 0 then j else m.first;
            first >= 1 && first in jobs && forall k :: k in jobs ==> first <= k <= j
  {
  }

  lemma AfterWorkInStep(feed: Feed, l: Lane, d: Dispatch, t: JobTemplate, payload: Payload, last: nat)
    requires InStep(feed, l, last) && 1 <= t.jobID && last <= t.jobID && t.prevHash == feed(t.jobID).prevHash != ZERO_HASH
    requires d.channel.Valid() && d.channel.info == l.channel.info
    requires d.channel.currentJobID == t.jobID && d.channel.activePrevHash == t.prevHash
    requires d.channel.ownCoinbase.None? ==> l.channel.ownCoinbase.None?
    ensures var l' := Lane(d.channel, AfterWork(l.miner, l.channel, d, t, payload), l.log + d.messages);
            && InStep(feed, l', t.jobID) && KeepsOthers(l, l', t.jobID)
            && t.jobID in l'.miner.jobs && l'.miner.jobs[t.jobID] == payload
            && t.jobID in l'.miner.workedOn && l'.miner.workedOn[t.jobID] == t.prevHash
  {
    KnownJobs(l.miner, t.jobID, payload, feed, l, last);
    Agreeing(feed, AfterWork(l.miner, l.channel, d, t, payload), d.channel, l.log + d.messages, t.jobID);
  }

  lemma WorkFacts(rules: Rules, c: ChannelState, t: JobTemplate, built: Option<Coinbase>, now: real)
    requires c.Valid()
    ensures var d := WorkSent(rules, c, t, built, now);
            && d.channel.currentJobID == t.jobID && d.channel.activePrevHash == t.prevHash
            && d.stored.jobID == t.jobID && d.stored.prevHash == t.prevHash
            && SameJob(d.stored, t) && (d.channel.ownCoinbase.None? ==> c.ownCoinbase.None? && d.stored == t)
  {
  }

  /** New work keeps the two in step: staged and then activated on a new prev-hash, active at once on the old one. */
  lemma WorkInStep(rules: Rules, feed: Feed, l: Lane, t: JobTemplate, built: Option<Coinbase>, now: real, last: nat)
    requires InStep(feed, l, last)
    requires 1 <= t.jobID && last <= t.jobID && t == feed(t.jobID) && t.prevHash != ZERO_HASH
    ensures var d := WorkSent(rules, l.channel, t, built, now);
            var l' := AfterDispatch(l, d);
            && InStep(feed, l', t.jobID) && Backed(rules, feed, l', t.jobID, d.stored) && KeepsOthers(l, l', t.jobID)
  {
    var d := WorkSent(rules, l.channel, t, built, now);
    var payload := rules.payload(l.channel.info, d.stored);
    WorkFacts(rules, l.channel, t, built, now);
    WorkReceived(rules, l.channel, l.miner, t, built, now);
    AfterWorkInStep(feed, l, d, t, payload, last);
  }

  lemma ResendInStep(rules: Rules, feed: Feed, l: Lane, t: JobTemplate, now: real, last: nat)
    requires InStep(feed, l, last) && last >= 1
    requires Backed(rules, feed, l, last, t)
    ensures var d := JobSent(rules, l.channel, t, false, now);
            var l' := AfterDispatch(l, d);
            && InStep(feed, l', last) && Backed(rules, feed, l', last, d.stored) && KeepsOthers(l, l', last)
  {
    JobReceived(rules, l.channel, l.miner, t, false, now);
  }

  /** A job that starts at once while there is no prev-hash to start on, and then a prev-hash naming it. */
  lemma FaultReceived(rules: Rules, c: ChannelState, m: Miner, t: JobTemplate, now: real)
    requires c.Valid() && m.target == c.poolTarget && m.prevHash.None? && m.staged == {}
    ensures var d := JobSent(rules, c, t, false, now);
            (ReceiveAll(m, d.messages + [PrevHashMessage(t)])
          == Faulted(m.(target := d.channel.poolTarget), t.jobID, rules.payload(c.info, d.stored)))
  {
    var msgs := JobSent(rules, c, t, false, now).messages;
    JobReceived(rules, c, m, t, false, now);
    NothingToStartOn(m, msgs, m.(target := Readied(c, t.jobID, false, now).poolTarget),
                     JobMessage(rules, c.info, Resolved(c, t), false), t);
  }

  lemma FirstWorkFacts(rules: Rules, c: ChannelState, t: JobTemplate, now: real)
    requires c.Valid()
    ensures var d := FirstWorkSent(rules, c, t, now);
            && d.channel.currentJobID == t.jobID && d.channel.activePrevHash == t.prevHash
            && d.stored.jobID == t.jobID && d.stored.prevHash == t.prevHash
            && SameJob(d.stored, t) && (d.channel.ownCoinbase.None? ==> d.stored == t)
  {
  }

  lemma FirstWorkReceived(rules: Rules, c: ChannelState, t: JobTemplate, now: real)
    requires c.Valid() && c.activePrevHash == ZERO_HASH
    ensures var d, m := FirstWorkSent(rules, c, t, now), Receive(NEW_MINER, Welcome(c)).(target := c.poolTarget);
            var payload := rules.payload(c.info, d.stored);
            (ReceiveAll(m, d.messages)
          == if t.prevHash == ZERO_HASH then Faulted(m.(target := d.channel.poolTarget), t.jobID, payload)
             else Activated(m.(target := d.channel.poolTarget), t.jobID, payload, t.prevHash))
  {
    var m := Receive(NEW_MINER, Welcome(c));
    var on := c.(activePrevHash := t.prevHash);
    if t.prevHash == ZERO_HASH {
      FaultReceived(rules, on, m, t, now);
    } else {
      ActivatedReceived(rules, on, m, t, now);
    }
  }

  /** A new channel's first work starts the miner, except on an all-zero prev-hash, which the channel takes for one it
      is on already: then, and only then, the miner is left with a protocol fault. */
  lemma FirstWork(rules: Rules, feed: Feed, c: ChannelState, t: JobTemplate, now: real)
    requires c.Valid() && c.activePrevHash == ZERO_HASH
    requires 1 <= t.jobID && t == feed(t.jobID)
    ensures var d := FirstWorkSent(rules, c, t, now);
            var l := AfterDispatch(Lane(c, Receive(NEW_MINER, Welcome(c)), [Welcome(c)]), d);
            && (l.miner.fault <==> t.prevHash == ZERO_HASH)
            && (t.prevHash != ZERO_HASH ==> InStep(feed, l, t.jobID) && Backed(rules, feed, l, t.jobID, d.stored))
            && l.miner.jobs.Keys == {t.jobID} && l.miner.first == t.jobID
  {
    var d := FirstWorkSent(rules, c, t, now);
    FirstWorkFacts(rules, c, t, now);
    FirstWorkReceived(rules, c, t, now);
    if t.prevHash != ZERO_HASH {
      Agreeing(feed, ReceiveAll(Receive(NEW_MINER, Welcome(c)), d.messages), d.channel, [Welcome(c)] + d.messages, t.jobID);
    }
  }

  /** New work faults a miner in step exactly when it is the first work of the channel and its prev-hash is all zeros. */
  lemma WorkFaults(rules: Rules, feed: Feed, l: Lane, t: JobTemplate, built: Option<Coinbase>, now: real, last: nat)
    requires InStep(feed, l, last)
    ensures AfterDispatch(l, WorkSent(rules, l.channel, t, built, now)).miner.fault
       <==> l.miner.active == 0 && t.prevHash == ZERO_HASH
  {
    if l.miner.active == 0 && t.prevHash == ZERO_HASH {
      var on := Rebuilt(l.channel, built).(activePrevHash := t.prevHash);
      JobReceived(rules, on, l.miner, t, false, now);
    } else {
      WorkReceived(rules, l.channel, l.miner, t, built, now);
    }
  }
}
