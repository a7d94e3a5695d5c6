// The server behind an SV2 session: every new template is kept as the latest and sent on its way to every session. Under it no
// job a channel accepts ever loses its template.
module Sv2Broadcast {
  import opened Hex
  import opened JobWindow
  import opened LaneStore
  import opened Merkle
  import opened ShareHeader
  import opened Channel
  import opened Sv2Session
  import opened Sv2Protocol
  import opened Sv2Runs
  import opened Sv2Eviction

  /** A server and one of its sessions: the latest job, which new channels open on, and the jobs on their way to the session. */
  datatype System = System(latest: Option<nat>, underway: seq<nat>, session: SessionState)

  datatype Happening = Broadcasts(jobID: nat) | Acts(event: Event)

  ghost predicate InOrder(jobs: seq<nat>) {
    forall i, k :: 0 <= i < k < |jobs| ==> jobs[i] <= jobs[k]
  }

  /** A session as it connects: the latest template is pushed to it, perhaps behind others broadcast since it was registered,
      perhaps more than once. */
  ghost predicate Connects(m: System) {
    && m.session == NEW_SESSION && InOrder(m.underway) && (forall i :: 0 <= i < |m.underway| ==> m.underway[i] >= 1)
    && (m.latest.Some? <==> m.underway != [])
    && (m.latest.Some? ==> m.latest.value == m.underway[|m.underway| - 1])
  }

  /** New jobs have new numbers, and jobs reach the session in order: what arrives is the next job underway, and a channel opens
      on the latest job only when no older one is still underway. */
  ghost predicate Can(m: System, h: Happening) {
    match h
    case Broadcasts(j) => j >= 1 && (m.latest.Some? ==> j > m.latest.value)
    case Acts(Open(r, _, latest, _, _)) =>
      && Proper(r) && (forall id :: id in m.session.lanes ==> id < r.id) && latest == m.latest
      && (forall i :: 0 <= i < |m.underway| ==> m.latest == Some(m.underway[i]))
    case Acts(Update(j, order, _, _)) => m.underway != [] && j == m.underway[0] && IsOrder(order, m.session.lanes.Keys)
    case Acts(Keepalive(order, _)) => IsOrder(order, m.session.lanes.Keys)
    case Acts(Submit(_, _, _, _)) => true
  }

  ghost predicate InLine(latest: Option<nat>, underway: seq<nat>, last: nat) {
    && InOrder(underway)
    && (forall i :: 0 <= i < |underway| ==> underway[i] >= 1 && underway[i] >= last)
    && (latest.None? ==> underway == [] && last == 0)
    && (latest.Some? ==> latest.value >= 1 && latest.value == if underway == [] then last else underway[|underway| - 1])
  }

  /** Holds in every state of every run, see NextOrdered. */
  ghost predicate Ordered(m: System) {
    m.session.Valid() && InLine(m.latest, m.underway, m.session.lastJobID)
  }

  /** The session sees no more than jobs in increasing order, which is what its own runs ask for. */
  lemma CanIsPossible(m: System, h: Happening)
    requires Ordered(m) && Can(m, h) && h.Acts?
    ensures Possible(m.session, h.event)
  {
    match h.event
    case Open(_, _, latest, _, _) =>
      if latest.Some? && m.underway != [] {
        assert m.underway[|m.underway| - 1] >= m.session.lastJobID;
      }
    case _ =>
  }

  ghost function Next(rules: Rules, feed: Feed, m: System, h: Happening): System
    requires Ordered(m) && Can(m, h)
  {
    match h
    case Broadcasts(j) => m.(latest := Some(j), underway := m.underway + [j])
    case Acts(e) =>
      CanIsPossible(m, h);
      m.(session := Step(rules, feed, m.session, e), underway := if e.Update? then m.underway[1..] else m.underway)
  }

  lemma {:induction false} WorkedAllLast(rules: Rules, s: SessionState, order: seq<nat>, t: JobTemplate,
                                         built: map<nat, Coinbase>, now: real)
    requires s.Valid() && forall i :: 0 <= i < |order| ==> order[i] in s.lanes
    ensures WorkedAll(rules, s, order, t, built, now).lastJobID == s.lastJobID
    decreases |order|
  {
    if order != [] {
      WorkedAllLast(rules, Sent(s, t.jobID, order[0], Work(rules, s, order[0], t, built, now)), order[1..], t, built, now);
    }
  }

  lemma {:induction false} ResentAllLast(rules: Rules, s: SessionState, order: seq<nat>, copies: map<nat, JobTemplate>, now: real)
    requires s.Valid() && forall i :: 0 <= i < |order| ==> order[i] in s.lanes
    ensures ResentAll(rules, s, order, copies, now).lastJobID == s.lastJobID
    decreases |order|
  {
    if order != [] {
      ResentAllLast(rules, ResentOne(rules, s, order[0], copies, now), order[1..], copies, now);
    }
  }

  /** The last job a session knows is changed by a template that arrives and by a channel that opens on one. */
  lemma LastJob(rules: Rules, feed: Feed, s: SessionState, e: Event)
    requires Numbered(feed) && s.Valid() && Possible(s, e)
    ensures Step(rules, feed, s, e).lastJobID ==
            match e
            case Update(j, _, _, _) => j
            case Open(r, _, latest, _, _) =>
              if latest.Some? && !Refused(s, r, TemplateOf(feed, latest)) then latest.value else s.lastJobID
            case _ => s.lastJobID
  {
    match e
    case Update(j, order, coinbases, now) => WorkedAllLast(rules, Begun(s, j), order, feed(j), coinbases, now);
    case Keepalive(order, now) => ResentAllLast(rules, s, order, Under(s.templates, s.lastJobID), now);
    case _ =>
  }

  lemma FirstArrives(latest: Option<nat>, underway: seq<nat>, last: nat)
    requires InLine(latest, underway, last) && underway != []
    ensures InLine(latest, underway[1..], underway[0])
  {
  }

  lemma OpensOnLatest(latest: Option<nat>, underway: seq<nat>, last: nat)
    requires InLine(latest, underway, last) && latest.Some? && forall i :: 0 <= i < |underway| ==> latest == Some(underway[i])
    ensures InLine(latest, underway, latest.value)
  {
  }

  lemma ActOrdered(rules: Rules, feed: Feed, m: System, e: Event)
    requires Numbered(feed) && Ordered(m) && Can(m, Acts(e))
    ensures Ordered(Next(rules, feed, m, Acts(e)))
  {
    CanIsPossible(m, Acts(e));
    LastJob(rules, feed, m.session, e);
    if e.Update? {
      FirstArrives(m.latest, m.underway, m.session.lastJobID);
    } else if m.latest.Some? && e.Open? {
      OpensOnLatest(m.latest, m.underway, m.session.lastJobID);
    }
  }

  lemma NextOrdered(rules: Rules, feed: Feed, m: System, h: Happening)
    requires Numbered(feed) && Ordered(m) && Can(m, h)
    ensures Ordered(Next(rules, feed, m, h))
  {
    if h.Acts? {
      ActOrdered(rules, feed, m, h.event);
    }
  }

  /** What every channel may still lack: the next job underway. */
  function Due(underway: seq<nat>): set<nat> {
    if underway == [] then {} else {underway[0]}
  }

  ghost predicate Good(rules: Rules, feed: Feed, m: System) {
    Ordered(m) && Consistent(rules, feed, m.session) && Available(m.session, Due(m.underway))
  }

  lemma ActAvailable(rules: Rules, feed: Feed, m: System, e: Event)
    requires Numbered(feed) && RealPrevHashes(feed) && Good(rules, feed, m) && Can(m, Acts(e)) && Possible(m.session, e)
    ensures Available(Step(rules, feed, m.session, e), if e.Update? then {} else Due(m.underway))
  {
    var s, due := m.session, Due(m.underway);
    match e
    case Open(r, onNewBlock, latest, built, now) =>
      OpenedAvailable(rules, feed, s, r, onNewBlock, latest, built, now, due);
    case Update(j, order, coinbases, now) => UpdateAvailable(rules, feed, s, j, order, coinbases, now);
    case Keepalive(order, now) => KeepaliveAvailable(rules, feed, s, order, now, due);
    case Submit(share, staleGrace, lowDiffGrace, now) =>
      if Judged(rules, s, share, staleGrace, lowDiffGrace, now) == ShareAccepted {
        RecordedAvailable(s, share.channelID, now, due);
      }
  }

  lemma NextGood(rules: Rules, feed: Feed, m: System, h: Happening)
    requires Numbered(feed) && RealPrevHashes(feed) && Good(rules, feed, m) && Can(m, h)
    ensures Good(rules, feed, Next(rules, feed, m, h))
  {
    var next := Next(rules, feed, m, h);
    NextOrdered(rules, feed, m, h);
    match h
    case Broadcasts(_) => MoreDue(m.session, Due(m.underway), Due(next.underway));
    case Acts(e) =>
      CanIsPossible(m, h);
      ActAvailable(rules, feed, m, e);
      StepConsistent(rules, feed, m.session, e);
      if e.Update? {
        MoreDue(next.session, {}, Due(next.underway));
      }
  }

  // ---- Every run ----

  ghost predicate Run(rules: Rules, feed: Feed, states: seq<System>, happenings: seq<Happening>) {
    && |states| == |happenings| + 1 && Connects(states[0])
    && forall i :: 0 <= i < |happenings| ==>
         Ordered(states[i]) && Can(states[i], happenings[i]) && states[i + 1] == Next(rules, feed, states[i], happenings[i])
  }

  lemma RunStep(rules: Rules, feed: Feed, states: seq<System>, happenings: seq<Happening>, n: nat)
    requires Run(rules, feed, states, happenings) && 0 < n < |states|
    ensures Ordered(states[n - 1]) && Can(states[n - 1], happenings[n - 1])
    ensures states[n] == Next(rules, feed, states[n - 1], happenings[n - 1])
  {
  }

  lemma StartGood(rules: Rules, feed: Feed, m: System)
    requires Connects(m)
    ensures Good(rules, feed, m)
  {
  }

  lemma {:induction false} RunGood(rules: Rules, feed: Feed, states: seq<System>, happenings: seq<Happening>, n: nat)
    requires Numbered(feed) && RealPrevHashes(feed) && Run(rules, feed, states, happenings) && n < |states|
    ensures Good(rules, feed, states[n])
  {
    if n == 0 {
      StartGood(rules, feed, states[0]);
    } else {
      RunGood(rules, feed, states, happenings, n - 1);
      NextGood(rules, feed, states[n - 1], happenings[n - 1]);
    }
  }

  /** What no happening takes away, while all is well otherwise. */
  ghost predicate Lasts(rules: Rules, feed: Feed, holds: System -> bool) {
    forall m: System, h: Happening {:trigger Can(m, h)} ::
      Good(rules, feed, m) && Can(m, h) && holds(m) ==> holds(Next(rules, feed, m, h))
  }

  lemma {:induction false} RunLasts(rules: Rules, feed: Feed, states: seq<System>, happenings: seq<Happening>, n: nat,
                                    holds: System -> bool)
    requires Numbered(feed) && RealPrevHashes(feed) && Run(rules, feed, states, happenings) && n < |states|
    requires Lasts(rules, feed, holds) && holds(states[0])
    ensures holds(states[n])
  {
    if n > 0 {
      RunLasts(rules, feed, states, happenings, n - 1, holds);
      RunGood(rules, feed, states, happenings, n - 1);
      RunStep(rules, feed, states, happenings, n);
    }
  }

  /** In every run, each non-zero job ID a channel accepts still has that channel's template, however many channels there are. */
  lemma AcceptedJobsHaveTemplates(rules: Rules, feed: Feed, states: seq<System>, happenings: seq<Happening>, n: nat,
                                  id: nat, j: nat)
    requires Numbered(feed) && RealPrevHashes(feed) && Run(rules, feed, states, happenings) && n < |states|
    requires id in states[n].session.lanes && j != 0 && IsJobValid(states[n].session.lanes[id].channel, j)
    ensures HasTemplate(states[n].session, j, id)
  {
    RunGood(rules, feed, states, happenings, n);
    var s := states[n].session;
    assert Lasting(s.templates, s.lastJobID, Due(states[n].underway))(s.lanes[id], id);
    WindowAccepts(s.lanes[id].channel, j);
    var i :| 0 <= i < WINDOW && WindowOf(s.lanes[id].channel)[i] == j;
  }

  /** In every run the templates a channel was never sent, of those newer than its first, are at most one: a job still underway. */
  lemma LacksOnlyTheNext(rules: Rules, feed: Feed, states: seq<System>, happenings: seq<Happening>, n: nat, id: nat)
    requires Numbered(feed) && RealPrevHashes(feed) && Run(rules, feed, states, happenings) && n < |states|
    requires id in states[n].session.lanes
    ensures var s, m := states[n].session, states[n].session.lanes[id].miner;
            Missed(s.templates.Keys, m.jobs.Keys, m.first) <= Due(states[n].underway)
  {
    RunGood(rules, feed, states, happenings, n);
    var s := states[n].session;
    assert Lasting(s.templates, s.lastJobID, Due(states[n].underway))(s.lanes[id], id);
  }

  /** So every share for a job its channel accepts, in every run, is hashed by the server exactly as by the miner. */
  lemma AcceptedSharesJudgedAsMined(sha: Sha256d, feed: Feed, states: seq<System>, happenings: seq<Happening>, n: nat,
                                    share: Share)
    requires Numbered(feed) && RealPrevHashes(feed) && Run(RulesOf(sha), feed, states, happenings) && n < |states|
    requires var lanes := states[n].session.lanes;
             && share.channelID in lanes && share.jobID != 0 && IsJobValid(lanes[share.channelID].channel, share.jobID)
             && share.extranonce.Some? == lanes[share.channelID].channel.info.isExtended
    ensures var s := states[n].session;
            && HasTemplate(s, share.jobID, share.channelID)
            && var l, t := s.lanes[share.channelID], s.templates[share.jobID][share.channelID];
               && share.jobID in l.miner.jobs && share.jobID in l.miner.workedOn
               && ShareRoot(sha, l.channel.info, t, share.extranonce)
                  == MinedRoot(sha, l.miner.jobs[share.jobID], l.channel.info.extranonce1, share.extranonce)
               && t.prevHash == l.miner.workedOn[share.jobID]
  {
    AcceptedJobsHaveTemplates(RulesOf(sha), feed, states, happenings, n, share.channelID, share.jobID);
    RunGood(RulesOf(sha), feed, states, happenings, n);
    ConsistentlyJudged(sha, feed, states[n].session, share);
  }
}
