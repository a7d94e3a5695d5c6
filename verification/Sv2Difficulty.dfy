// Difficulty changes on SV2 channels: what the controller believes, what shares are judged by and what the miner was told.
module Sv2Difficulty {
  import opened Bytes
  import opened Hex
  import opened LaneStore
  import opened Merkle
  import opened ShareHeader
  import opened Target
  import opened Channel
  import opened Sv2Session
  import opened Sv2Protocol
  import opened Sv2Runs
  import VarDiff

  /** A waiting change is the controller's own difficulty; with none waiting, the controller's is the one shares are judged
      by. The target always belongs to that difficulty. */
  ghost predicate Synced(c: ChannelState, toTarget: real -> nat) {
    && c.Valid() && c.info.toTarget == toTarget
    && c.poolDifficulty > 0.0 && c.pendingDiff >= 0.0
    && c.poolTarget == toTarget(c.poolDifficulty)
    && match c.vardiff
       case None => c.pendingDiff == 0.0
       case Some(t) =>
         && VarDiff.NeverRoundsToZero(t.cfg)
         && t.state.currentDiff == if c.pendingDiff > 0.0 then c.pendingDiff else c.poolDifficulty
  }

  lemma NewSynced(info: ChannelInfo, cfg: Option<VarDiff.Config>, startDiff: real, built: Option<Coinbase>, now: real)
    requires cfg.Some? ==> cfg.value.Valid() && VarDiff.NeverRoundsToZero(cfg.value)
    ensures Synced(Rebuilt(NewChannel(info, cfg, startDiff, now), built), info.toTarget)
  {
  }

  lemma RecordedSynced(c: ChannelState, now: real)
    requires Synced(c, c.info.toTarget)
    ensures Synced(ShareRecorded(c, now), c.info.toTarget)
  {
    if c.vardiff.Some? && c.pendingDiff <= 0.0 {
      var t := c.vardiff.value;
      if VarDiff.Recorded(t.cfg, t.state, now).result.Adjusted? {
        VarDiff.ProposalPositive(t.cfg, t.state, now);
      }
    }
  }

  lemma ReadiedSynced(c: ChannelState, jobID: nat, future: bool, now: real)
    requires Synced(c, c.info.toTarget)
    ensures Synced(Readied(c, jobID, future, now), c.info.toTarget)
  {
  }

  lemma WorkSynced(rules: Rules, c: ChannelState, t: JobTemplate, built: Option<Coinbase>, now: real)
    requires Synced(c, c.info.toTarget)
    ensures Synced(WorkSent(rules, c, t, built, now).channel, c.info.toTarget)
    ensures Synced(FirstWorkSent(rules, c, t, now).channel, c.info.toTarget)
  {
    var newBlock := c.activePrevHash != t.prevHash;
    ReadiedSynced(Rebuilt(c, built).(activePrevHash := t.prevHash), t.jobID, newBlock, now);
    ReadiedSynced(c.(activePrevHash := t.prevHash), t.jobID, newBlock, now);
  }

  ghost predicate AllSynced(s: SessionState, toTarget: real -> nat) {
    forall id :: id in s.lanes ==> Synced(s.lanes[id].channel, toTarget)
  }

  predicate NeverZero(e: Event) {
    e.Open? && e.request.cfg.Some? ==> VarDiff.NeverRoundsToZero(e.request.cfg.value)
  }

  lemma SentSynced(s: SessionState, j: nat, id: nat, d: Dispatch, toTarget: real -> nat)
    requires s.Valid() && id in s.lanes && FitsLane(s.lanes[id], d) && AllSynced(s, toTarget) && Synced(d.channel, toTarget)
    ensures AllSynced(Sent(s, j, id, d), toTarget)
  {
  }

  lemma {:induction false} WorkedAllSynced(rules: Rules, s: SessionState, order: seq<nat>, t: JobTemplate,
                                           coinbases: map<nat, Coinbase>, now: real)
    requires s.Valid() && AllSynced(s, rules.toTarget) && forall i :: 0 <= i < |order| ==> order[i] in s.lanes
    ensures AllSynced(WorkedAll(rules, s, order, t, coinbases, now), rules.toTarget)
    decreases |order|
  {
    if order != [] {
      var id := order[0];
      var d := Work(rules, s, id, t, coinbases, now);
      WorkSynced(rules, s.lanes[id].channel, t, BuiltFor(coinbases, id), now);
      SentSynced(s, t.jobID, id, d, rules.toTarget);
      WorkedAllSynced(rules, Sent(s, t.jobID, id, d), order[1..], t, coinbases, now);
    }
  }

  lemma {:induction false} ResentAllSynced(rules: Rules, s: SessionState, order: seq<nat>, copies: map<nat, JobTemplate>,
                                           now: real)
    requires s.Valid() && AllSynced(s, rules.toTarget) && forall i :: 0 <= i < |order| ==> order[i] in s.lanes
    ensures AllSynced(ResentAll(rules, s, order, copies, now), rules.toTarget)
    decreases |order|
  {
    if order != [] {
      var id := order[0];
      if id in copies {
        var d := Resend(rules, s, id, copies[id], now);
        ReadiedSynced(s.lanes[id].channel, copies[id].jobID, false, now);
        SentSynced(s, copies[id].jobID, id, d, rules.toTarget);
      }
      ResentAllSynced(rules, ResentOne(rules, s, id, copies, now), order[1..], copies, now);
    }
  }

  lemma OpenSynced(rules: Rules, s: SessionState, r: OpenRequest, onNewBlock: bool, latest: Option<JobTemplate>,
                   built: Option<Coinbase>, now: real)
    requires s.Valid() && AllSynced(s, rules.toTarget) && Proper(r) && (r.cfg.Some? ==> VarDiff.NeverRoundsToZero(r.cfg.value))
    ensures AllSynced(Opened(rules, s, r, onNewBlock, latest, built, now), rules.toTarget)
  {
    if !Refused(s, r, latest) {
      var c := OpenedChannel(rules, r, onNewBlock, latest, built, now);
      NewSynced(InfoOf(rules, r, onNewBlock, latest), r.cfg, r.startDiff, built, now);
      if latest.Some? {
        WorkSynced(rules, c, latest.value, None, now);
        var joined := s.(lanes := s.lanes[r.id := Lane(c, Receive(NEW_MINER, Welcome(c)), [Welcome(c)])]);
        SentSynced(joined, latest.value.jobID, r.id, FirstWorkSent(rules, c, latest.value, now), rules.toTarget);
      }
    }
  }

  lemma StepSynced(rules: Rules, feed: Feed, s: SessionState, e: Event)
    requires s.Valid() && AllSynced(s, rules.toTarget) && Possible(s, e) && NeverZero(e)
    ensures AllSynced(Step(rules, feed, s, e), rules.toTarget)
  {
    match e
    case Open(r, onNewBlock, latest, built, now) =>
      OpenSynced(rules, s, r, onNewBlock, TemplateOf(feed, latest), built, now);
    case Update(j, order, coinbases, now) =>
      WorkedAllSynced(rules, Begun(s, feed(j).jobID), order, feed(j), coinbases, now);
    case Keepalive(order, now) => ResentAllSynced(rules, s, order, Under(s.templates, s.lastJobID), now);
    case Submit(share, staleGrace, lowDiffGrace, now) =>
      if Judged(rules, s, share, staleGrace, lowDiffGrace, now) == ShareAccepted {
        RecordedSynced(s.lanes[share.channelID].channel, now);
      }
  }

  lemma {:induction false} RunSynced(rules: Rules, feed: Feed, s: SessionState, run: seq<Event>)
    requires s.Valid() && AllSynced(s, rules.toTarget) && PossibleRun(rules, feed, s, run)
    requires forall i :: 0 <= i < |run| ==> NeverZero(run[i])
    ensures AllSynced(After(rules, feed, s, run), rules.toTarget)
    decreases |run|
  {
    if run != [] {
      StepSynced(rules, feed, s, run[0]);
      RunSynced(rules, feed, Step(rules, feed, s, run[0]), run[1..]);
    }
  }

  /** In every run under configurations that never round a difficulty to nothing: with no change waiting the controller's
      difficulty is the one shares are judged by; a waiting change is the controller's; and the miner's target is the one of that
      judging difficulty. */
  lemma DifficultiesAgree(sha: Sha256d, feed: Feed, run: seq<Event>, id: nat)
    requires Numbered(feed) && RealPrevHashes(feed) && PossibleRun(RulesOf(sha), feed, NEW_SESSION, run)
    requires forall i :: 0 <= i < |run| ==> NeverZero(run[i])
    requires id in After(RulesOf(sha), feed, NEW_SESSION, run).lanes
    ensures var l := After(RulesOf(sha), feed, NEW_SESSION, run).lanes[id];
            && l.miner.target == l.channel.poolTarget == Sv2DifficultyToTarget(l.channel.poolDifficulty)
            && (l.channel.vardiff.Some? ==>
                  l.channel.vardiff.value.state.currentDiff ==
                  if l.channel.pendingDiff > 0.0 then l.channel.pendingDiff else l.channel.poolDifficulty)
            && (l.channel.vardiff.None? ==> l.channel.pendingDiff == 0.0)
  {
    MinersFollow(RulesOf(sha), feed, run, id);
    RunSynced(RulesOf(sha), feed, NEW_SESSION, run);
  }

  /** A difficulty the controller decides on is queued while shares go on being judged as before; the next job that is not held
      back for a new block brings it, its target first, and with it the difficulty left behind. */
  lemma AdjustmentReaches(rules: Rules, c: ChannelState, shareAt: real, t: JobTemplate, jobAt: real)
    requires c.Valid() && c.vardiff.Some? && c.pendingDiff <= 0.0
    requires VarDiff.Recorded(c.vardiff.value.cfg, c.vardiff.value.state, shareAt).result.Adjusted?
    ensures var d := VarDiff.Recorded(c.vardiff.value.cfg, c.vardiff.value.state, shareAt).result.newDiff;
            var heard := ShareRecorded(c, shareAt);
            var sent := JobSent(rules, heard, t, false, jobAt);
            && heard.poolTarget == c.poolTarget && heard.poolDifficulty == c.poolDifficulty && heard.pendingDiff == d
            && (d > 0.0 ==>
                  && sent.messages[0] == SetTarget(c.info.toTarget(d))
                  && sent.channel.poolDifficulty == d && sent.channel.pendingDiff == 0.0
                  && sent.channel.prevDiff == c.poolDifficulty && sent.channel.diffChangedAt == jobAt)
  {
  }
}
