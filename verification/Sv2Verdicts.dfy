// What every share of every run is answered, as its miner can tell: from the messages it was sent, the header it hashed, and the
// last change of its difficulty.
module Sv2Verdicts {
  import opened Bytes
  import opened Hex
  import opened JobWindow
  import opened LaneStore
  import opened Merkle
  import opened ShareHeader
  import opened Target
  import opened Channel
  import opened Sv2Session
  import opened Sv2Protocol
  import opened Sv2Runs
  import opened Sv2Eviction
  import opened Sv2Lanes
  import opened Sv2Broadcast
  import opened Sv2Memory

  // ---- A channel's history, read off a run ----

  ghost predicate HasLane(m: System, id: nat) {
    id in m.session.lanes
  }

  /** The last time in a run that a channel's miner was told another target: the difficulty in force until then, and when. */
  ghost function LastChange(states: seq<System>, happenings: seq<Happening>, n: nat, id: nat): Option<Change>
    requires |states| == |happenings| + 1 && n < |states|
    decreases n
  {
    if n == 0 || !HasLane(states[n], id) || !HasLane(states[n - 1], id) then None
    else
      var earlier, h := LastChange(states, happenings, n - 1, id), happenings[n - 1];
      var l, l' := states[n - 1].session.lanes[id], states[n].session.lanes[id];
      if h.Acts? && Told(l'.log) != Told(l.log) then Some(Change(l.channel.poolDifficulty, h.event.now)) else earlier
  }

  /** The coinbase last built for a channel: when it was opened, or with a template. */
  ghost function LastBuilt(states: seq<System>, happenings: seq<Happening>, n: nat, id: nat): Option<Coinbase>
    requires |states| == |happenings| + 1 && n < |states|
    decreases n
  {
    if n == 0 || !HasLane(states[n], id) then None
    else
      var h := happenings[n - 1];
      if !HasLane(states[n - 1], id) then if h.Acts? && h.event.Open? then h.event.built else None
      else if h.Acts? then OwnAfter(h.event, id, LastBuilt(states, happenings, n - 1, id))
      else LastBuilt(states, happenings, n - 1, id)
  }

  lemma JoinsRemembering(rules: Rules, feed: Feed, m: System, h: Happening, id: nat)
    requires Numbered(feed) && RealPrevHashes(feed) && Ordered(m) && Can(m, h)
    requires !HasLane(m, id) && HasLane(Next(rules, feed, m, h), id)
    ensures h.Acts? && h.event.Open?
    ensures Remembers(rules, feed, Next(rules, feed, m, h).session.lanes[id], None, h.event.built)
  {
    if h.Acts? {
      CanIsPossible(m, h);
      StepChannels(rules, feed, m.session, h.event);
      if h.event.Open? {
        OpenedRemembers(rules, feed, h.event);
      }
    }
  }

  lemma StaysRemembering(rules: Rules, feed: Feed, m: System, e: Event, id: nat, change: Option<Change>, own: Option<Coinbase>)
    requires Numbered(feed) && RealPrevHashes(feed) && Good(rules, feed, m) && Can(m, Acts(e)) && HasLane(m, id)
    requires Remembers(rules, feed, m.session.lanes[id], change, own)
    ensures var next := Next(rules, feed, m, Acts(e));
            && HasLane(next, id)
            && Remembers(rules, feed, next.session.lanes[id],
                         ChangeBetween(m.session.lanes[id], next.session.lanes[id], e.now, change), OwnAfter(e, id, own))
  {
    CanIsPossible(m, Acts(e));
    StepLane(rules, feed, m.session, e, id);
    EventRemembers(rules, feed, m.session, e, id, change, own);
  }

  ghost predicate RemembersAt(rules: Rules, feed: Feed, states: seq<System>, happenings: seq<Happening>, n: nat, id: nat)
    requires |states| == |happenings| + 1 && n < |states|
  {
    HasLane(states[n], id) ==>
      Remembers(rules, feed, states[n].session.lanes[id], LastChange(states, happenings, n, id),
                LastBuilt(states, happenings, n, id))
  }

  /** One moment of the run later, the history is the same but for what the event added. */
  lemma HistoryStep(states: seq<System>, happenings: seq<Happening>, n: nat, id: nat, e: Event)
    requires |states| == |happenings| + 1 && 0 < n < |states| && happenings[n - 1] == Acts(e)
    requires HasLane(states[n - 1], id) && HasLane(states[n], id)
    ensures LastChange(states, happenings, n, id)
         == ChangeBetween(states[n - 1].session.lanes[id], states[n].session.lanes[id], e.now,
                          LastChange(states, happenings, n - 1, id))
    ensures LastBuilt(states, happenings, n, id) == OwnAfter(e, id, LastBuilt(states, happenings, n - 1, id))
  {
  }

  lemma StayRemembers(rules: Rules, feed: Feed, states: seq<System>, happenings: seq<Happening>, n: nat, id: nat)
    requires Numbered(feed) && RealPrevHashes(feed) && Run(rules, feed, states, happenings) && 0 < n < |states|
    requires HasLane(states[n - 1], id) && RemembersAt(rules, feed, states, happenings, n - 1, id)
    ensures RemembersAt(rules, feed, states, happenings, n, id)
  {
    var m, h := states[n - 1], happenings[n - 1];
    RunStep(rules, feed, states, happenings, n);
    if h.Acts? {
      RunGood(rules, feed, states, happenings, n - 1);
      StaysRemembering(rules, feed, m, h.event, id, LastChange(states, happenings, n - 1, id),
                       LastBuilt(states, happenings, n - 1, id));
      HistoryStep(states, happenings, n, id, h.event);
    }
  }

  lemma JoinRemembers(rules: Rules, feed: Feed, states: seq<System>, happenings: seq<Happening>, n: nat, id: nat)
    requires Numbered(feed) && RealPrevHashes(feed) && Run(rules, feed, states, happenings) && 0 < n < |states|
    requires !HasLane(states[n - 1], id)
    ensures RemembersAt(rules, feed, states, happenings, n, id)
  {
    RunStep(rules, feed, states, happenings, n);
    if HasLane(states[n], id) {
      JoinsRemembering(rules, feed, states[n - 1], happenings[n - 1], id);
    }
  }

  lemma StepRemembers(rules: Rules, feed: Feed, states: seq<System>, happenings: seq<Happening>, n: nat, id: nat)
    requires Numbered(feed) && RealPrevHashes(feed) && Run(rules, feed, states, happenings) && 0 < n < |states|
    requires RemembersAt(rules, feed, states, happenings, n - 1, id)
    ensures RemembersAt(rules, feed, states, happenings, n, id)
  {
    if HasLane(states[n - 1], id) {
      StayRemembers(rules, feed, states, happenings, n, id);
    } else {
      JoinRemembers(rules, feed, states, happenings, n, id);
    }
  }

  /** What holds at the start and at each moment after one at which it holds. */
  lemma {:induction false} HoldsThroughout(at: nat -> bool, end: nat, n: nat)
    requires at(0) && (forall k: nat :: k < end && at(k) ==> at(k + 1)) && n <= end
    ensures at(n)
  {
    if n > 0 {
      HoldsThroughout(at, end, n - 1);
    }
  }

  lemma RunRemembers(rules: Rules, feed: Feed, states: seq<System>, happenings: seq<Happening>, n: nat, id: nat)
    requires Numbered(feed) && RealPrevHashes(feed) && Run(rules, feed, states, happenings) && n < |states|
    ensures RemembersAt(rules, feed, states, happenings, n, id)
  {
    var at := (k: nat) => k < |states| ==> RemembersAt(rules, feed, states, happenings, k, id);
    forall k: nat | k < n && at(k)
      ensures at(k + 1)
    {
      StepRemembers(rules, feed, states, happenings, k + 1, id);
    }
    HoldsThroughout(at, n, n);
  }

  // ---- The verdict ----

  /** The header a miner hashed for a share, from its own memory of the job, and the nBits of the job. */
  function MinedHeader(sha: Sha256d, l: Lane, nBits: nat, share: Share): seq<byte>
    requires share.jobID in l.miner.jobs && share.jobID in l.miner.workedOn
  {
    BuildHeader(share.version, l.miner.workedOn[share.jobID],
                MinedRoot(sha, l.miner.jobs[share.jobID], l.channel.info.extranonce1, share.extranonce),
                share.nTime, nBits, share.nonce)
  }

  /** A hash that still meets the difficulty before the last change, soon enough after it. */
  predicate MeetsEarlier(hash: Hash, change: Option<Change>, lowDiffGrace: real, now: real) {
    lowDiffGrace > 0.0 && change.Some? && now - change.value.at < lowDiffGrace && ShareDifficulty(hash) >= change.value.before
  }

  /** The job is one of the nine latest its channel was sent, or it is an older one with its template still there and grace. */
  predicate Welcomed(s: SessionState, share: Share, staleGrace: bool)
    requires share.channelID in s.lanes
  {
    && share.jobID != 0
    && (share.jobID in Newest(JobsIn(s.lanes[share.channelID].log))
        || (staleGrace && HasTemplate(s, share.jobID, share.channelID)))
  }

  lemma Foreseen(sha: Sha256d, feed: Feed, s: SessionState, share: Share, staleGrace: bool, lowDiffGrace: real, now: real,
                 change: Option<Change>, own: Option<Coinbase>)
    requires Consistent(RulesOf(sha), feed, s) && share.channelID in s.lanes
    requires share.extranonce.Some? == s.lanes[share.channelID].channel.info.isExtended
    requires Remembers(RulesOf(sha), feed, s.lanes[share.channelID], change, own)
    requires var c, j := s.lanes[share.channelID].channel, share.jobID;
             j != 0 && IsJobValid(c, j) ==> HasTemplate(s, j, share.channelID)
    ensures var l := s.lanes[share.channelID];
            if !Welcomed(s, share, staleGrace) then
              Judged(RulesOf(sha), s, share, staleGrace, lowDiffGrace, now) == StaleShare
            else
              && share.jobID in l.miner.jobs && share.jobID in l.miner.workedOn
              && var hash := sha(MinedHeader(sha, l, feed(share.jobID).nBits, share));
                 Judged(RulesOf(sha), s, share, staleGrace, lowDiffGrace, now)
                 == if HashNumber(hash) <= l.miner.target || MeetsEarlier(hash, change, lowDiffGrace, now) then ShareAccepted
                    else LowDifficulty
  {
    var l := s.lanes[share.channelID];
    WindowAccepts(l.channel, share.jobID);
    assert FollowsChannel(feed)(l, s.lastJobID);
    if HasTemplate(s, share.jobID, share.channelID) {
      var t := s.templates[share.jobID][share.channelID];
      ConsistentlyJudged(sha, feed, s, share);
      assert IsBacked(RulesOf(sha), feed)(l, share.jobID, t);
    }
  }

  /** In every run, a share on an open channel is stale exactly when its job is not among the nine latest sent to the miner (or,
      under grace, has lost its template). Any other share is accepted exactly when the header its miner hashed is within the
      target the miner was last told, or, for a while after the last change, meets the difficulty in force before it. */
  lemma EveryVerdict(sha: Sha256d, feed: Feed, states: seq<System>, happenings: seq<Happening>, n: nat, share: Share,
                     staleGrace: bool, lowDiffGrace: real, now: real)
    requires Numbered(feed) && RealPrevHashes(feed) && Run(RulesOf(sha), feed, states, happenings) && n < |states|
    requires HasLane(states[n], share.channelID)
    requires share.extranonce.Some? == states[n].session.lanes[share.channelID].channel.info.isExtended
    ensures var s := states[n].session;
            var l, verdict := s.lanes[share.channelID], Judged(RulesOf(sha), s, share, staleGrace, lowDiffGrace, now);
            if !Welcomed(s, share, staleGrace) then verdict == StaleShare
            else
              && share.jobID in l.miner.jobs && share.jobID in l.miner.workedOn
              && var hash := sha(MinedHeader(sha, l, feed(share.jobID).nBits, share));
                 verdict == if HashNumber(hash) <= l.miner.target
                               || MeetsEarlier(hash, LastChange(states, happenings, n, share.channelID), lowDiffGrace, now)
                            then ShareAccepted else LowDifficulty
  {
    var rules := RulesOf(sha);
    RunGood(rules, feed, states, happenings, n);
    RunRemembers(rules, feed, states, happenings, n, share.channelID);
    if share.jobID != 0 && IsJobValid(states[n].session.lanes[share.channelID].channel, share.jobID) {
      AcceptedJobsHaveTemplates(rules, feed, states, happenings, n, share.channelID, share.jobID);
    }
    Foreseen(sha, feed, states[n].session, share, staleGrace, lowDiffGrace, now,
             LastChange(states, happenings, n, share.channelID), LastBuilt(states, happenings, n, share.channelID));
  }

  /** So without grace a share for a job its channel accepts is good exactly when its header is within the target last told. */
  lemma AcceptedIff(sha: Sha256d, feed: Feed, states: seq<System>, happenings: seq<Happening>, n: nat, share: Share,
                    staleGrace: bool, lowDiffGrace: real, now: real)
    requires Numbered(feed) && RealPrevHashes(feed) && Run(RulesOf(sha), feed, states, happenings) && n < |states|
    requires HasLane(states[n], share.channelID) && lowDiffGrace <= 0.0
    requires share.jobID != 0 && IsJobValid(states[n].session.lanes[share.channelID].channel, share.jobID)
    requires share.extranonce.Some? == states[n].session.lanes[share.channelID].channel.info.isExtended
    ensures var s := states[n].session;
            var l, verdict := s.lanes[share.channelID], Judged(RulesOf(sha), s, share, staleGrace, lowDiffGrace, now);
            && share.jobID in l.miner.jobs && share.jobID in l.miner.workedOn
            && (verdict == ShareAccepted <==>
                  HashNumber(sha(MinedHeader(sha, l, feed(share.jobID).nBits, share))) <= l.miner.target)
            && (verdict != ShareAccepted ==> verdict == LowDifficulty)
  {
    var l := states[n].session.lanes[share.channelID];
    RunRemembers(RulesOf(sha), feed, states, happenings, n, share.channelID);
    WindowAccepts(l.channel, share.jobID);
    EveryVerdict(sha, feed, states, happenings, n, share, staleGrace, lowDiffGrace, now);
  }

  // ---- The messages ----

  /** In every run, whatever a channel's messages say of a job is what its template has; the first tells the channel's extranonce;
      and the last target told is the one of the difficulty in force. */
  lemma MessagesTruthful(sha: Sha256d, feed: Feed, states: seq<System>, happenings: seq<Happening>, n: nat, id: nat)
    requires Numbered(feed) && RealPrevHashes(feed) && Run(RulesOf(sha), feed, states, happenings) && n < |states|
    requires HasLane(states[n], id)
    ensures var l := states[n].session.lanes[id];
            && (forall i :: 0 <= i < |l.log| ==> Truthful(feed, l.log[i]))
            && l.miner == ReceiveAll(NEW_MINER, l.log)
            && l.log != [] && l.log[0].OpenSuccess? && l.log[0].extranonce1 == l.channel.info.extranonce1
            && l.miner.target == Sv2DifficultyToTarget(l.channel.poolDifficulty)
  {
    RunGood(RulesOf(sha), feed, states, happenings, n);
    RunRemembers(RulesOf(sha), feed, states, happenings, n, id);
    assert FollowsChannel(feed)(states[n].session.lanes[id], states[n].session.lastJobID);
  }

  /** In every run, the job a channel's miner works on is made of the coinbase last built for the channel, and of the template's
      own where none ever was. */
  lemma MinesItsOwn(sha: Sha256d, feed: Feed, states: seq<System>, happenings: seq<Happening>, n: nat, id: nat)
    requires Numbered(feed) && RealPrevHashes(feed) && Run(RulesOf(sha), feed, states, happenings) && n < |states|
    requires HasLane(states[n], id) && states[n].session.lanes[id].miner.active != 0
    ensures var l := states[n].session.lanes[id];
            var j, own, info := l.miner.active, LastBuilt(states, happenings, n, id), l.channel.info;
            var (cb1, cb2) := if own.Some? then (own.value.coinbase1, own.value.coinbase2)
                              else (feed(j).coinbase1, feed(j).coinbase2);
            && j in l.miner.jobs
            && l.miner.jobs[j] ==
               if info.isExtended then Halves(cb1, cb2, feed(j).merkleBranch)
               else MerkleRoot(Fold(sha, sha(cb1 + info.extranonce1 + Zeros(feed(j).extraNonce2Size) + cb2), feed(j).merkleBranch))
  {
    RunGood(RulesOf(sha), feed, states, happenings, n);
    RunRemembers(RulesOf(sha), feed, states, happenings, n, id);
    assert FollowsChannel(feed)(states[n].session.lanes[id], states[n].session.lastJobID);
  }
}
