// What a channel remembers of its run: the changes of its difficulty, its latest jobs and its own coinbase, all as the messages
// sent on it and the events of the run tell.
module Sv2Memory {
  import opened Bytes
  import opened Hex
  import opened JobWindow
  import opened LaneStore
  import opened Merkle
  import opened ShareHeader
  import opened Channel
  import opened Sv2Session
  import opened Sv2Protocol
  import opened Sv2Runs
  import opened Sv2Eviction
  import opened Sv2Lanes
  import opened Sv2Broadcast

  // ---- The messages sent on a channel ----

  /** The targets a miner was told, in order. */
  function Told(log: seq<Message>): seq<nat> {
    if log == [] then []
    else
      var before, last := Told(log[..|log| - 1]), log[|log| - 1];
      if last.OpenSuccess? || last.SetTarget? then before + [last.target] else before
  }

  /** The jobs it was sent, in order. */
  function JobsIn(log: seq<Message>): seq<nat> {
    if log == [] then []
    else
      var before, last := JobsIn(log[..|log| - 1]), log[|log| - 1];
      if last.NewJob? then before + [last.jobID] else before
  }

  /** The latest nine of the jobs, newest first, with zeros where there were none. */
  function Newest(jobs: seq<nat>): (w: seq<nat>)
    ensures |w| == WINDOW
  {
    seq(WINDOW, i requires 0 <= i < WINDOW => if i < |jobs| then jobs[|jobs| - 1 - i] else 0)
  }

  lemma NewestMore(jobs: seq<nat>, j: nat)
    ensures Newest(jobs + [j]) == Pushed(Newest(jobs), j)
  {
  }

  /** What a message says of a template is what the template has. */
  predicate Truthful(feed: Feed, msg: Message) {
    match msg
    case NewJob(j, minNtime, version, _) => version == feed(j).version && (minNtime.Some? ==> minNtime.value == feed(j).nTime)
    case SetNewPrevHash(j, prevHash, nTime, nBits) =>
      prevHash == feed(j).prevHash && nTime == feed(j).nTime && nBits == feed(j).nBits
    case _ => true
  }

  lemma OneMore(log: seq<Message>, msg: Message)
    ensures Told(log + [msg]) == if msg.OpenSuccess? || msg.SetTarget? then Told(log) + [msg.target] else Told(log)
    ensures JobsIn(log + [msg]) == if msg.NewJob? then JobsIn(log) + [msg.jobID] else JobsIn(log)
  {
    assert (log + [msg])[..|log|] == log;
  }

  lemma TargetAndJob(log: seq<Message>, c: ChannelState, due: bool, job: Message)
    requires job.NewJob?
    ensures var after := log + (TargetMessages(c, due) + [job]);
            && Told(after) == (if due then Told(log) + [c.poolTarget] else Told(log))
            && JobsIn(after) == JobsIn(log) + [job.jobID]
  {
    var told := TargetMessages(c, due);
    Assoc(log, told, [job]);
    OneMore(log + told, job);
    if due {
      OneMore(log, SetTarget(c.poolTarget));
    } else {
      assert log + told == log;
    }
  }

  lemma ThenPrevHash(log: seq<Message>, msgs: seq<Message>, msg: Message)
    requires msg.SetNewPrevHash?
    ensures Told(log + (msgs + [msg])) == Told(log + msgs) && JobsIn(log + (msgs + [msg])) == JobsIn(log + msgs)
  {
    Assoc(log, msgs, [msg]);
    OneMore(log + msgs, msg);
  }

  // ---- What the channel keeps of them ----

  /** A change of difficulty: the one in force before it, and when it was made. */
  datatype Change = Change(before: real, at: real)

  function PrevDiff(change: Option<Change>): real {
    if change.Some? then change.value.before else 0.0
  }

  /** The difficulty in force and its target, the one before the last change, and when that was. */
  ghost predicate Measured(rules: Rules, c: ChannelState, change: Option<Change>) {
    && c.poolDifficulty > 0.0 && c.info.toTarget == rules.toTarget && c.poolTarget == rules.toTarget(c.poolDifficulty)
    && c.prevDiff == PrevDiff(change)
    && (change.Some? ==> change.value.before > 0.0 && c.diffChangedAt == change.value.at)
  }

  /** The messages tell what the channel is: its extranonce, its latest jobs, and the templates' own fields. */
  predicate Logged(feed: Feed, l: Lane) {
    && l.log != [] && l.log[0].OpenSuccess?
    && l.log[0].extranonce1 == l.channel.info.extranonce1 && l.log[0].extranonceSize == l.channel.info.extranonce2Size
    && (forall i :: 0 <= i < |l.log| ==> Truthful(feed, l.log[i]))
    && WindowOf(l.channel) == Newest(JobsIn(l.log))
    && l.miner == ReceiveAll(NEW_MINER, l.log)
  }

  /** A template built around a coinbase, its own when there is no other. */
  function BuiltAround(t: JobTemplate, own: Option<Coinbase>): JobTemplate {
    if own.Some? then t.(coinbase1 := own.value.coinbase1, coinbase2 := own.value.coinbase2) else t
  }

  /** The miner's current job is made of the channel's own coinbase. */
  predicate OnOwn(rules: Rules, feed: Feed, l: Lane, own: Option<Coinbase>) {
    var c, m := l.channel, l.miner;
    && c.ownCoinbase == own
    && (c.currentJobID != 0 ==>
          c.currentJobID in m.jobs && m.jobs[c.currentJobID] == rules.payload(c.info, BuiltAround(feed(c.currentJobID), own)))
  }

  ghost predicate Remembers(rules: Rules, feed: Feed, l: Lane, change: Option<Change>, own: Option<Coinbase>) {
    l.channel.Valid() && Measured(rules, l.channel, change) && Logged(feed, l) && OnOwn(rules, feed, l, own)
  }

  /** The change that shows in the messages between two moments of a channel. */
  function ChangeBetween(l: Lane, l': Lane, now: real, last: Option<Change>): Option<Change> {
    if Told(l'.log) != Told(l.log) then Some(Change(l.channel.poolDifficulty, now)) else last
  }

  // ---- One send ----

  lemma ReadiedMeasured(rules: Rules, c: ChannelState, jobID: nat, future: bool, now: real, change: Option<Change>)
    requires c.Valid() && Measured(rules, c, change)
    ensures Measured(rules, Readied(c, jobID, future, now),
                     if FlushDue(c, future) then Some(Change(c.poolDifficulty, now)) else change)
  {
  }

  lemma AllTruthful(feed: Feed, log: seq<Message>, c: ChannelState, due: bool, job: Message)
    requires (forall i :: 0 <= i < |log| ==> Truthful(feed, log[i])) && Truthful(feed, job)
    ensures forall i :: 0 <= i < |log + (TargetMessages(c, due) + [job])| ==>
              Truthful(feed, (log + (TargetMessages(c, due) + [job]))[i])
  {
  }

  /** A job that goes out on a channel `c`, which is the lane's but for its prev-hash and its coinbase. */
  lemma JobMeasured(rules: Rules, l: Lane, c: ChannelState, t: JobTemplate, future: bool, now: real, change: Option<Change>)
    requires l.channel.Valid() && Measured(rules, l.channel, change)
    requires c == l.channel.(activePrevHash := c.activePrevHash, ownCoinbase := c.ownCoinbase)
    ensures var l' := AfterDispatch(l, JobSent(rules, c, t, future, now));
            Measured(rules, l'.channel, ChangeBetween(l, l', now, change))
  {
    var ready, job := Readied(c, t.jobID, future, now), JobMessage(rules, c.info, Resolved(c, t), future);
    ReadiedMeasured(rules, c, t.jobID, future, now, change);
    TargetAndJob(l.log, ready, FlushDue(c, future), job);
  }

  lemma JobLogged(rules: Rules, feed: Feed, l: Lane, c: ChannelState, t: JobTemplate, future: bool, now: real)
    requires l.channel.Valid() && Logged(feed, l) && SameJob(t, feed(t.jobID))
    requires c == l.channel.(activePrevHash := c.activePrevHash, ownCoinbase := c.ownCoinbase)
    ensures Logged(feed, AfterDispatch(l, JobSent(rules, c, t, future, now)))
  {
    var d := JobSent(rules, c, t, future, now);
    var ready, job := Readied(c, t.jobID, future, now), JobMessage(rules, c.info, Resolved(c, t), future);
    TargetAndJob(l.log, ready, FlushDue(c, future), job);
    AllTruthful(feed, l.log, ready, FlushDue(c, future), job);
    ReadiedWindow(c, t.jobID, future, now);
    NewestMore(JobsIn(l.log), t.jobID);
    ReceiveMore(NEW_MINER, l.log, d.messages);
  }

  /** The prev-hash that follows a job. */
  lemma PrevHashLogged(feed: Feed, l: Lane, d: Dispatch, t: JobTemplate)
    requires Logged(feed, AfterDispatch(l, d)) && t == feed(t.jobID)
    ensures Logged(feed, AfterDispatch(l, d.(messages := d.messages + [PrevHashMessage(t)])))
    ensures Told(l.log + (d.messages + [PrevHashMessage(t)])) == Told(l.log + d.messages)
  {
    var msg := PrevHashMessage(t);
    ThenPrevHash(l.log, d.messages, msg);
    Assoc(l.log, d.messages, [msg]);
    MoreReceived(l, d.messages, [msg]);
  }

  lemma MoreReceived(l: Lane, msgs: seq<Message>, more: seq<Message>)
    requires ReceiveAll(l.miner, msgs) == ReceiveAll(NEW_MINER, l.log + msgs)
    ensures ReceiveAll(l.miner, msgs + more) == ReceiveAll(NEW_MINER, l.log + (msgs + more))
  {
    Assoc(l.log, msgs, more);
    ReceiveMore(NEW_MINER, l.log + msgs, more);
    ReceiveMore(l.miner, msgs, more);
  }

  lemma WorkMeasured(rules: Rules, feed: Feed, l: Lane, t: JobTemplate, built: Option<Coinbase>, now: real,
                     change: Option<Change>)
    requires l.channel.Valid() && Measured(rules, l.channel, change) && Logged(feed, l) && t == feed(t.jobID)
    ensures var l' := AfterDispatch(l, WorkSent(rules, l.channel, t, built, now));
            Measured(rules, l'.channel, ChangeBetween(l, l', now, change)) && Logged(feed, l')
  {
    var on, newBlock := Rebuilt(l.channel, built).(activePrevHash := t.prevHash), l.channel.activePrevHash != t.prevHash;
    var d := JobSent(rules, on, t, newBlock, now);
    JobMeasured(rules, l, on, t, newBlock, now, change);
    JobLogged(rules, feed, l, on, t, newBlock, now);
    if newBlock {
      PrevHashLogged(feed, l, d, t);
    }
  }

  lemma FirstWorkMeasured(rules: Rules, feed: Feed, l: Lane, t: JobTemplate, now: real, change: Option<Change>)
    requires l.channel.Valid() && Measured(rules, l.channel, change) && Logged(feed, l) && t == feed(t.jobID)
    ensures var l' := AfterDispatch(l, FirstWorkSent(rules, l.channel, t, now));
            Measured(rules, l'.channel, ChangeBetween(l, l', now, change)) && Logged(feed, l')
  {
    var on, newBlock := l.channel.(activePrevHash := t.prevHash), l.channel.activePrevHash != t.prevHash;
    var d := JobSent(rules, on, t, newBlock, now);
    JobMeasured(rules, l, on, t, newBlock, now, change);
    JobLogged(rules, feed, l, on, t, newBlock, now);
    PrevHashLogged(feed, l, d, t);
  }

  lemma NoChangeWaiting(l: Lane, t: JobTemplate, rules: Rules, now: real)
    requires l.channel.Valid() && l.channel.pendingDiff <= 0.0 && l.log != []
    ensures Told(AfterDispatch(l, FirstWorkSent(rules, l.channel, t, now)).log) == Told(l.log)
  {
    var on, newBlock := l.channel.(activePrevHash := t.prevHash), l.channel.activePrevHash != t.prevHash;
    var d := JobSent(rules, on, t, newBlock, now);
    TargetAndJob(l.log, d.channel, false, JobMessage(rules, on.info, Resolved(on, t), newBlock));
    ThenPrevHash(l.log, d.messages, PrevHashMessage(t));
  }

  // ---- One event ----

  lemma WorkRemembers(rules: Rules, feed: Feed, l: Lane, j: nat, built: Option<Coinbase>, now: real, last: nat,
                      change: Option<Change>, own: Option<Coinbase>)
    requires Numbered(feed) && RealPrevHashes(feed) && InStep(feed, l, last) && 1 <= j && last <= j
    requires Remembers(rules, feed, l, change, own)
    ensures var l' := AfterDispatch(l, WorkSent(rules, l.channel, feed(j), built, now));
            Remembers(rules, feed, l', ChangeBetween(l, l', now, change), if built.Some? then built else own)
  {
    WorkMeasured(rules, feed, l, feed(j), built, now, change);
    WorkInStep(rules, feed, l, feed(j), built, now, last);
  }

  lemma ResendRemembers(rules: Rules, feed: Feed, l: Lane, t: JobTemplate, now: real, last: nat, change: Option<Change>,
                        own: Option<Coinbase>)
    requires Numbered(feed) && InStep(feed, l, last) && last >= 1 && Backed(rules, feed, l, last, t)
    requires Remembers(rules, feed, l, change, own)
    ensures var l' := AfterDispatch(l, JobSent(rules, l.channel, t, false, now));
            Remembers(rules, feed, l', ChangeBetween(l, l', now, change), own)
  {
    JobMeasured(rules, l, l.channel, t, false, now, change);
    JobLogged(rules, feed, l, l.channel, t, false, now);
    ResendInStep(rules, feed, l, t, now, last);
  }

  lemma RecordRemembers(rules: Rules, feed: Feed, l: Lane, now: real, change: Option<Change>, own: Option<Coinbase>)
    requires Remembers(rules, feed, l, change, own)
    ensures Remembers(rules, feed, l.(channel := ShareRecorded(l.channel, now)), change, own)
  {
  }

  lemma JoinedRemembers(rules: Rules, feed: Feed, c: ChannelState)
    requires Unused(c) && c.info.toTarget == rules.toTarget && c.poolTarget == rules.toTarget(c.poolDifficulty)
    requires c.poolDifficulty > 0.0 && c.prevDiff == 0.0
    ensures Remembers(rules, feed, Joined(c), None, c.ownCoinbase)
  {
    OneMore([], Welcome(c));
    assert [] + [Welcome(c)] == [Welcome(c)];
    ReceiveLast(NEW_MINER, [], Welcome(c));
    assert forall i :: 0 <= i < WINDOW ==> WindowOf(c)[i] == 0;
  }

  lemma OpenedRemembers(rules: Rules, feed: Feed, e: Event)
    requires Numbered(feed) && RealPrevHashes(feed) && e.Open? && Proper(e.request) && (e.latest.Some? ==> e.latest.value >= 1)
    ensures Remembers(rules, feed, LaneOpened(rules, feed, e), None, e.built)
  {
    var at := TemplateOf(feed, e.latest);
    var c := OpenedChannel(rules, e.request, e.onNewBlock, at, e.built, e.now);
    NewChannelUnused(rules, e.request, e.onNewBlock, at, e.built, e.now);
    JoinedRemembers(rules, feed, c);
    if at.Some? {
      FirstWorkMeasured(rules, feed, Joined(c), at.value, e.now, None);
      NoChangeWaiting(Joined(c), at.value, rules, e.now);
      FirstWork(rules, feed, c, at.value, e.now);
    }
  }

  /** What an event gives a channel for its own coinbase. */
  function OwnAfter(e: Event, id: nat, own: Option<Coinbase>): Option<Coinbase> {
    if e.Update? && id in e.coinbases then Some(e.coinbases[id]) else own
  }

  lemma CopyBacked(rules: Rules, feed: Feed, s: SessionState, id: nat)
    requires Consistent(rules, feed, s) && id in s.lanes && Stored(s.templates, s.lastJobID, id)
    ensures s.lastJobID >= 1 && Backed(rules, feed, s.lanes[id], s.lastJobID, s.templates[s.lastJobID][id])
  {
    assert IsBacked(rules, feed)(s.lanes[id], s.lastJobID, s.templates[s.lastJobID][id]);
  }

  lemma EventRemembers(rules: Rules, feed: Feed, s: SessionState, e: Event, id: nat, change: Option<Change>,
                       own: Option<Coinbase>)
    requires Numbered(feed) && RealPrevHashes(feed) && Consistent(rules, feed, s) && Possible(s, e) && id in s.lanes
    requires Remembers(rules, feed, s.lanes[id], change, own)
    ensures var l' := LaneAfter(rules, feed, s, e, id);
            Remembers(rules, feed, l', ChangeBetween(s.lanes[id], l', e.now, change), OwnAfter(e, id, own))
  {
    var l := s.lanes[id];
    assert FollowsChannel(feed)(l, s.lastJobID);
    match e
    case Open(_, _, _, _, _) =>
    case Update(j, _, coinbases, now) =>
      WorkRemembers(rules, feed, l, j, BuiltFor(coinbases, id), now, s.lastJobID, change, own);
    case Keepalive(_, now) =>
      if Stored(s.templates, s.lastJobID, id) {
        CopyBacked(rules, feed, s, id);
        ResendRemembers(rules, feed, l, s.templates[s.lastJobID][id], now, s.lastJobID, change, own);
      }
    case Submit(_, _, _, now) => RecordRemembers(rules, feed, l, now, change, own);
  }
}
