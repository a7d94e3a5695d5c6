// Every run of an SV2 session: opens, new templates, keepalives and shares in any order.
module Sv2Runs {
  import opened Bytes
  import opened Hex
  import opened LaneStore
  import opened Merkle
  import opened ShareHeader
  import opened Target
  import opened Channel
  import opened Sv2Session
  import opened Sv2Protocol

  datatype Event =
    | Open(request: OpenRequest, onNewBlock: bool, latest: Option<nat>, built: Option<Coinbase>, now: real)
    | Update(jobID: nat, order: seq<nat>, coinbases: map<nat, Coinbase>, now: real)
    | Keepalive(order: seq<nat>, now: real)
    | Submit(share: Share, staleGrace: bool, lowDiffGrace: real, now: real)

  /** Job IDs start at 1 and are delivered in order; channel IDs are handed out in order. */
  ghost predicate Possible(s: SessionState, e: Event) {
    match e
    case Open(r, _, latest, _, _) =>
      && Proper(r)
      && (forall id :: id in s.lanes ==> id < r.id)
      && (latest.Some? ==> latest.value >= 1 && latest.value >= s.lastJobID)
    case Update(j, order, _, _) => j >= 1 && j >= s.lastJobID && IsOrder(order, s.lanes.Keys)
    case Keepalive(order, _) => IsOrder(order, s.lanes.Keys)
    case Submit(_, _, _, _) => true
  }

  function TemplateOf(feed: Feed, latest: Option<nat>): Option<JobTemplate> {
    if latest.Some? then Some(feed(latest.value)) else None
  }

  ghost function Step(rules: Rules, feed: Feed, s: SessionState, e: Event): (r: SessionState)
    requires s.Valid() && Possible(s, e)
    ensures r.Valid()
  {
    match e
    case Open(r, onNewBlock, latest, built, now) => Opened(rules, s, r, onNewBlock, TemplateOf(feed, latest), built, now)
    case Update(j, order, coinbases, now) => Updated(rules, s, order, feed(j), coinbases, now)
    case Keepalive(order, now) => KeptAlive(rules, s, order, now)
    case Submit(share, staleGrace, lowDiffGrace, now) => Submitted(rules, s, share, staleGrace, lowDiffGrace, now)
  }

  ghost predicate PossibleRun(rules: Rules, feed: Feed, s: SessionState, run: seq<Event>)
    requires s.Valid()
    decreases |run|
  {
    run == [] || (Possible(s, run[0]) && PossibleRun(rules, feed, Step(rules, feed, s, run[0]), run[1..]))
  }

  ghost function After(rules: Rules, feed: Feed, s: SessionState, run: seq<Event>): (r: SessionState)
    requires s.Valid() && PossibleRun(rules, feed, s, run)
    ensures r.Valid()
    decreases |run|
  {
    if run == [] then s else After(rules, feed, Step(rules, feed, s, run[0]), run[1..])
  }

  // ---- The miner follows ----

  function FollowsChannel(feed: Feed): Party<Lane> {
    (l: Lane, last: nat) => InStep(feed, l, last)
  }

  function IsBacked(rules: Rules, feed: Feed): Entry<Lane, JobTemplate> {
    (l: Lane, j: nat, t: JobTemplate) => Backed(rules, feed, l, j, t)
  }

  /** Every miner is in step with its channel, and every stored copy is what its channel was last sent under its job ID. */
  ghost predicate Consistent(rules: Rules, feed: Feed, s: SessionState) {
    s.Valid() && AllWell(s.lanes, s.templates, s.lastJobID, FollowsChannel(feed), IsBacked(rules, feed))
  }

  lemma OthersBacked(rules: Rules, feed: Feed, l: Lane, l': Lane, j: nat)
    requires KeepsOthers(l, l', j)
    ensures KeepsEntries(l, l', j, IsBacked(rules, feed))
  {
  }

  lemma SentConsistent(rules: Rules, feed: Feed, s: SessionState, j: nat, id: nat, d: Dispatch)
    requires Consistent(rules, feed, s) && 1 <= j == s.lastJobID && id in s.lanes && FitsLane(s.lanes[id], d)
    requires MovesOn(s.lanes[id], AfterDispatch(s.lanes[id], d), j, d.stored, FollowsChannel(feed), IsBacked(rules, feed))
    ensures Consistent(rules, feed, Sent(s, j, id, d))
  {
    MoveOnWell(s.lanes, s.templates, j, id, AfterDispatch(s.lanes[id], d), d.stored, FollowsChannel(feed),
               IsBacked(rules, feed));
  }

  lemma WorkConsistent(rules: Rules, feed: Feed, s: SessionState, j: nat, id: nat, coinbases: map<nat, Coinbase>, now: real)
    requires Numbered(feed) && RealPrevHashes(feed) && Consistent(rules, feed, s) && 1 <= j == s.lastJobID && id in s.lanes
    ensures Consistent(rules, feed, Sent(s, j, id, Work(rules, s, id, feed(j), coinbases, now)))
  {
    var l, d := s.lanes[id], Work(rules, s, id, feed(j), coinbases, now);
    assert FollowsChannel(feed)(l, s.lastJobID);
    WorkInStep(rules, feed, l, feed(j), BuiltFor(coinbases, id), now, j);
    OthersBacked(rules, feed, l, AfterDispatch(l, d), j);
    SentConsistent(rules, feed, s, j, id, d);
  }

  lemma {:induction false} WorkedAllConsistent(rules: Rules, feed: Feed, s: SessionState, order: seq<nat>, j: nat,
                                               coinbases: map<nat, Coinbase>, now: real)
    requires Numbered(feed) && RealPrevHashes(feed) && Consistent(rules, feed, s) && 1 <= j == s.lastJobID
    requires forall i :: 0 <= i < |order| ==> order[i] in s.lanes
    ensures Consistent(rules, feed, WorkedAll(rules, s, order, feed(j), coinbases, now))
    decreases |order|
  {
    if order != [] {
      WorkConsistent(rules, feed, s, j, order[0], coinbases, now);
      WorkedAllConsistent(rules, feed, Sent(s, j, order[0], Work(rules, s, order[0], feed(j), coinbases, now)), order[1..],
                          j, coinbases, now);
    }
  }

  lemma BegunConsistent(rules: Rules, feed: Feed, s: SessionState, j: nat)
    requires Consistent(rules, feed, s) && j >= s.lastJobID
    ensures Consistent(rules, feed, s.(lastJobID := j))
    ensures Consistent(rules, feed, Begun(s, j))
  {
    forall id | id in s.lanes
      ensures FollowsChannel(feed)(s.lanes[id], j)
    {
      assert FollowsChannel(feed)(s.lanes[id], s.lastJobID);
    }
    forall k: nat, id: nat | Stored(Evicted(s.templates), k, id)
      ensures Stored(s.templates, k, id)
    {
    }
  }

  lemma ResendConsistent(rules: Rules, feed: Feed, s: SessionState, id: nat, t: JobTemplate, now: real)
    requires Consistent(rules, feed, s) && s.lastJobID >= 1 && id in s.lanes
    requires Backed(rules, feed, s.lanes[id], s.lastJobID, t)
    ensures Consistent(rules, feed, Sent(s, s.lastJobID, id, Resend(rules, s, id, t, now)))
  {
    var l, d := s.lanes[id], Resend(rules, s, id, t, now);
    assert FollowsChannel(feed)(l, s.lastJobID);
    ResendInStep(rules, feed, l, t, now, s.lastJobID);
    OthersBacked(rules, feed, l, AfterDispatch(l, d), s.lastJobID);
    SentConsistent(rules, feed, s, s.lastJobID, id, d);
  }

  /** Every copy still to be sent is backed. */
  ghost predicate CopiesBacked(rules: Rules, feed: Feed, s: SessionState, order: seq<nat>, copies: map<nat, JobTemplate>) {
    && (forall i, k :: 0 <= i < k < |order| ==> order[i] != order[k])
    && (forall i :: 0 <= i < |order| ==> order[i] in s.lanes)
    && (forall i :: 0 <= i < |order| && order[i] in copies ==>
          s.lastJobID >= 1 && Backed(rules, feed, s.lanes[order[i]], s.lastJobID, copies[order[i]]))
  }

  lemma CopiesStillBacked(rules: Rules, feed: Feed, s: SessionState, next: SessionState, order: seq<nat>,
                          copies: map<nat, JobTemplate>)
    requires order != [] && CopiesBacked(rules, feed, s, order, copies)
    requires next.lastJobID == s.lastJobID && next.lanes.Keys == s.lanes.Keys
    requires forall id :: id in s.lanes && id != order[0] ==> next.lanes[id] == s.lanes[id]
    ensures CopiesBacked(rules, feed, next, order[1..], copies)
  {
    var rest := order[1..];
    forall i | 0 <= i < |rest|
      ensures rest[i] in next.lanes && next.lanes[rest[i]] == s.lanes[rest[i]]
      ensures rest[i] in copies ==>
                s.lastJobID >= 1 && Backed(rules, feed, next.lanes[rest[i]], s.lastJobID, copies[rest[i]])
    {
      assert rest[i] == order[i + 1];
    }
  }

  lemma ResentOthers(rules: Rules, s: SessionState, id: nat, copies: map<nat, JobTemplate>, now: real)
    requires s.Valid() && id in s.lanes
    ensures forall other :: other in s.lanes && other != id ==>
              ResentOne(rules, s, id, copies, now).lanes[other] == s.lanes[other]
  {
  }

  lemma ResentConsistent(rules: Rules, feed: Feed, s: SessionState, id: nat, copies: map<nat, JobTemplate>, now: real)
    requires Consistent(rules, feed, s) && id in s.lanes
    requires id in copies ==> s.lastJobID >= 1 && Backed(rules, feed, s.lanes[id], s.lastJobID, copies[id])
    ensures Consistent(rules, feed, ResentOne(rules, s, id, copies, now))
  {
    if id in copies {
      ResendConsistent(rules, feed, s, id, copies[id], now);
    }
  }

  lemma NextConsistent(rules: Rules, feed: Feed, s: SessionState, order: seq<nat>, copies: map<nat, JobTemplate>,
                       now: real)
    requires Consistent(rules, feed, s) && CopiesBacked(rules, feed, s, order, copies) && order != []
    ensures Consistent(rules, feed, ResentOne(rules, s, order[0], copies, now))
    ensures CopiesBacked(rules, feed, ResentOne(rules, s, order[0], copies, now), order[1..], copies)
  {
    ResentConsistent(rules, feed, s, order[0], copies, now);
    ResentOthers(rules, s, order[0], copies, now);
    CopiesStillBacked(rules, feed, s, ResentOne(rules, s, order[0], copies, now), order, copies);
  }

  lemma {:induction false} ResentAllConsistent(rules: Rules, feed: Feed, s: SessionState, order: seq<nat>,
                                               copies: map<nat, JobTemplate>, now: real)
    requires Consistent(rules, feed, s) && CopiesBacked(rules, feed, s, order, copies)
    ensures Consistent(rules, feed, ResentAll(rules, s, order, copies, now))
    decreases |order|
  {
    if order != [] {
      NextConsistent(rules, feed, s, order, copies, now);
      ResentAllConsistent(rules, feed, ResentOne(rules, s, order[0], copies, now), order[1..], copies, now);
    }
  }

  lemma StoredCopiesBacked(rules: Rules, feed: Feed, s: SessionState, order: seq<nat>)
    requires Consistent(rules, feed, s) && IsOrder(order, s.lanes.Keys)
    ensures CopiesBacked(rules, feed, s, order, Under(s.templates, s.lastJobID))
  {
    var copies := Under(s.templates, s.lastJobID);
    forall i | 0 <= i < |order| && order[i] in copies
      ensures s.lastJobID >= 1 && Backed(rules, feed, s.lanes[order[i]], s.lastJobID, copies[order[i]])
    {
      assert Stored(s.templates, s.lastJobID, order[i]);
      assert IsBacked(rules, feed)(s.lanes[order[i]], s.lastJobID, copies[order[i]]);
    }
  }

  lemma KeepaliveConsistent(rules: Rules, feed: Feed, s: SessionState, order: seq<nat>, now: real)
    requires Consistent(rules, feed, s) && IsOrder(order, s.lanes.Keys)
    ensures Consistent(rules, feed, KeptAlive(rules, s, order, now))
  {
    StoredCopiesBacked(rules, feed, s, order);
    ResentAllConsistent(rules, feed, s, order, Under(s.templates, s.lastJobID), now);
  }

  lemma RecordedInStep(rules: Rules, feed: Feed, l: Lane, last: nat, now: real)
    requires InStep(feed, l, last)
    ensures InStep(feed, l.(channel := ShareRecorded(l.channel, now)), last)
    ensures forall j, t :: Backed(rules, feed, l, j, t) ==> Backed(rules, feed, l.(channel := ShareRecorded(l.channel, now)), j, t)
  {
  }

  lemma RecordedConsistent(rules: Rules, feed: Feed, s: SessionState, id: nat, now: real)
    requires Consistent(rules, feed, s) && id in s.lanes
    ensures Consistent(rules, feed, s.(lanes := s.lanes[id := s.lanes[id].(channel := ShareRecorded(s.lanes[id].channel, now))]))
  {
    assert FollowsChannel(feed)(s.lanes[id], s.lastJobID);
    RecordedInStep(rules, feed, s.lanes[id], s.lastJobID, now);
  }

  lemma SubmitConsistent(rules: Rules, feed: Feed, s: SessionState, share: Share, staleGrace: bool, lowDiffGrace: real,
                         now: real)
    requires Consistent(rules, feed, s)
    ensures Consistent(rules, feed, Submitted(rules, s, share, staleGrace, lowDiffGrace, now))
  {
    if Judged(rules, s, share, staleGrace, lowDiffGrace, now) == ShareAccepted {
      RecordedConsistent(rules, feed, s, share.channelID, now);
    }
  }

  lemma JoinedConsistent(rules: Rules, feed: Feed, s: SessionState, c: ChannelState)
    requires Consistent(rules, feed, s) && c.info.id !in s.lanes
    requires c.Valid() && c.currentJobID == 0 && c.activePrevHash == ZERO_HASH
    ensures Consistent(rules, feed, s.(lanes := s.lanes[c.info.id := Lane(c, Receive(NEW_MINER, Welcome(c)), [Welcome(c)])]))
  {
  }

  lemma FirstWorkMovesOn(rules: Rules, feed: Feed, c: ChannelState, t: JobTemplate, now: real)
    requires c.Valid() && c.activePrevHash == ZERO_HASH
    requires 1 <= t.jobID && t == feed(t.jobID) && t.prevHash != ZERO_HASH
    ensures var l, d := Lane(c, Receive(NEW_MINER, Welcome(c)), [Welcome(c)]), FirstWorkSent(rules, c, t, now);
            MovesOn(l, AfterDispatch(l, d), t.jobID, d.stored, FollowsChannel(feed), IsBacked(rules, feed))
  {
    FirstWork(rules, feed, c, t, now);
  }

  lemma OpenConsistent(rules: Rules, feed: Feed, s: SessionState, r: OpenRequest, onNewBlock: bool, latest: Option<nat>,
                       built: Option<Coinbase>, now: real)
    requires Numbered(feed) && RealPrevHashes(feed)
    requires Consistent(rules, feed, s) && Possible(s, Open(r, onNewBlock, latest, built, now))
    ensures Consistent(rules, feed, Opened(rules, s, r, onNewBlock, TemplateOf(feed, latest), built, now))
  {
    var at := TemplateOf(feed, latest);
    if !Refused(s, r, at) {
      var c := OpenedChannel(rules, r, onNewBlock, at, built, now);
      var joined := s.(lanes := s.lanes[r.id := Lane(c, Receive(NEW_MINER, Welcome(c)), [Welcome(c)])]);
      JoinedConsistent(rules, feed, s, c);
      if latest.Some? {
        var t := feed(latest.value);
        FirstWorkMovesOn(rules, feed, c, t, now);
        BegunConsistent(rules, feed, joined, t.jobID);
        SentConsistent(rules, feed, joined.(lastJobID := t.jobID), t.jobID, r.id, FirstWorkSent(rules, c, t, now));
      }
    }
  }

  lemma StepConsistent(rules: Rules, feed: Feed, s: SessionState, e: Event)
    requires Numbered(feed) && RealPrevHashes(feed) && Consistent(rules, feed, s) && Possible(s, e)
    ensures Consistent(rules, feed, Step(rules, feed, s, e))
  {
    match e
    case Open(r, onNewBlock, latest, built, now) => OpenConsistent(rules, feed, s, r, onNewBlock, latest, built, now);
    case Update(j, order, coinbases, now) =>
      BegunConsistent(rules, feed, s, j);
      WorkedAllConsistent(rules, feed, Begun(s, j), order, j, coinbases, now);
    case Keepalive(order, now) => KeepaliveConsistent(rules, feed, s, order, now);
    case Submit(share, staleGrace, lowDiffGrace, now) =>
      SubmitConsistent(rules, feed, s, share, staleGrace, lowDiffGrace, now);
  }

  lemma {:induction false} RunConsistent(rules: Rules, feed: Feed, s: SessionState, run: seq<Event>)
    requires Numbered(feed) && RealPrevHashes(feed) && Consistent(rules, feed, s) && PossibleRun(rules, feed, s, run)
    ensures Consistent(rules, feed, After(rules, feed, s, run))
    decreases |run|
  {
    if run != [] {
      StepConsistent(rules, feed, s, run[0]);
      RunConsistent(rules, feed, Step(rules, feed, s, run[0]), run[1..]);
    }
  }

  /** In every run the miner of every channel is without fault: each prev-hash it was sent named the job staged for it,
      each job sent to start at once was on the prev-hash last activated, and it works on the channel's current job,
      prev-hash and target. */
  lemma MinersFollow(rules: Rules, feed: Feed, run: seq<Event>, id: nat)
    requires Numbered(feed) && RealPrevHashes(feed) && PossibleRun(rules, feed, NEW_SESSION, run)
    requires id in After(rules, feed, NEW_SESSION, run).lanes
    ensures var l := After(rules, feed, NEW_SESSION, run).lanes[id];
            && !l.miner.fault && l.miner.staged == {}
            && l.miner.active == l.channel.currentJobID
            && l.miner.prevHash == (if l.miner.active == 0 then None else Some(l.channel.activePrevHash))
            && (l.miner.active != 0 ==> feed(l.miner.active).prevHash == l.channel.activePrevHash)
            && l.miner.target == l.channel.poolTarget
  {
    RunConsistent(rules, feed, NEW_SESSION, run);
    var s := After(rules, feed, NEW_SESSION, run);
    assert FollowsChannel(feed)(s.lanes[id], s.lastJobID);
  }

  // ---- What shares are judged against ----

  /** The root a miner hashes under, from the job it was sent and the extranonce it rolled. */
  function MinedRoot(sha: Sha256d, payload: Payload, extranonce1: seq<byte>, extranonce: Option<seq<byte>>): Hash {
    match (payload, extranonce)
    case (Halves(cb1, cb2, path), Some(en2)) => Fold(sha, sha(cb1 + extranonce1 + en2 + cb2), path)
    case (Halves(_, _, _), None) => ZERO_HASH
    case (MerkleRoot(root), _) => root
  }

  lemma SameRoot(sha: Sha256d, info: ChannelInfo, t: JobTemplate, extranonce: Option<seq<byte>>)
    requires extranonce.Some? == info.isExtended
    ensures ShareRoot(sha, info, t, extranonce)
         == MinedRoot(sha, RulesOf(sha).payload(info, t), info.extranonce1, extranonce)
  {
  }

  lemma ConsistentlyJudged(sha: Sha256d, feed: Feed, s: SessionState, share: Share)
    requires Consistent(RulesOf(sha), feed, s)
    requires share.channelID in s.lanes && HasTemplate(s, share.jobID, share.channelID)
    requires share.extranonce.Some? == s.lanes[share.channelID].channel.info.isExtended
    ensures var l, t := s.lanes[share.channelID], s.templates[share.jobID][share.channelID];
            && share.jobID in l.miner.jobs && share.jobID in l.miner.workedOn
            && ShareRoot(sha, l.channel.info, t, share.extranonce)
               == MinedRoot(sha, l.miner.jobs[share.jobID], l.channel.info.extranonce1, share.extranonce)
            && t.prevHash == l.miner.workedOn[share.jobID] == feed(share.jobID).prevHash
  {
    var l, t := s.lanes[share.channelID], s.templates[share.jobID][share.channelID];
    assert IsBacked(RulesOf(sha), feed)(l, share.jobID, t);
    SameRoot(sha, l.channel.info, t, share.extranonce);
  }

  /** In every run, a share for a job that still has a template is hashed by the server exactly as by the miner: over the
      root, or the coinbase halves, last sent to its channel under that job ID, and over the prev-hash the miner worked
      that job on. */
  lemma JudgedAsMined(sha: Sha256d, feed: Feed, run: seq<Event>, share: Share)
    requires Numbered(feed) && RealPrevHashes(feed) && PossibleRun(RulesOf(sha), feed, NEW_SESSION, run)
    requires var s := After(RulesOf(sha), feed, NEW_SESSION, run);
             && share.channelID in s.lanes && HasTemplate(s, share.jobID, share.channelID)
             && share.extranonce.Some? == s.lanes[share.channelID].channel.info.isExtended
    ensures var s := After(RulesOf(sha), feed, NEW_SESSION, run);
            var l, t := s.lanes[share.channelID], s.templates[share.jobID][share.channelID];
            && share.jobID in l.miner.jobs && share.jobID in l.miner.workedOn
            && ShareRoot(sha, l.channel.info, t, share.extranonce)
               == MinedRoot(sha, l.miner.jobs[share.jobID], l.channel.info.extranonce1, share.extranonce)
            && t.prevHash == l.miner.workedOn[share.jobID] == feed(share.jobID).prevHash
  {
    RunConsistent(RulesOf(sha), feed, NEW_SESSION, run);
    ConsistentlyJudged(sha, feed, After(RulesOf(sha), feed, NEW_SESSION, run), share);
  }
}
