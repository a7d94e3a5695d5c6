// The template store forgets old jobs; none that a channel still accepts, as long as a channel lacks no job but the one on its way.
module Sv2Eviction {
  import opened Bytes
  import opened Hex
  import opened JobWindow
  import opened LaneStore
  import opened Merkle
  import opened Sets
  import opened ShareHeader
  import opened Channel
  import opened Sv2Session
  import opened Sv2Protocol
  import opened Sv2Runs

  function WindowOf(c: ChannelState): seq<nat> {
    [c.currentJobID] + c.staleJobIDs
  }

  lemma WindowAccepts(c: ChannelState, j: nat)
    requires c.Valid()
    ensures IsJobValid(c, j) && j != 0 <==> j in WindowOf(c) && j != 0
    ensures WindowOf(WithCurrentJob(c, j)) == Pushed(WindowOf(c), j)
  {
  }

  predicate HasAll(window: seq<nat>, templates: Store<JobTemplate>, id: nat) {
    forall i :: 0 <= i < |window| && window[i] != 0 ==> Stored(templates, window[i], id)
  }

  /** The window's copies are stored, and no job was missed but those still due. Job `last` counts as offered, stored or not. */
  predicate LaneAvailable(window: seq<nat>, m: Miner, templates: Store<JobTemplate>, last: nat, due: set<nat>, id: nat) {
    && Tracks(window, m.jobs.Keys)
    && HasAll(window, templates, id)
    && Missed(templates.Keys + {last}, m.jobs.Keys, m.first) <= due
  }

  function Lasting(templates: Store<JobTemplate>, last: nat, due: set<nat>): (Lane, nat) -> bool {
    (l: Lane, id: nat) => LaneAvailable(WindowOf(l.channel), l.miner, templates, last, due, id)
  }

  /** The copy of every job in a channel's window is still stored, and a channel missed no jobs but those still due. */
  ghost predicate Available(s: SessionState, due: set<nat>) {
    && (forall k :: k in s.templates ==> k <= s.lastJobID)
    && Everyone(s.lanes, Lasting(s.templates, s.lastJobID, due))
  }

  /** A channel that job `j` has yet to reach may have lost the oldest job of its window. */
  predicate LanePending(window: seq<nat>, m: Miner, templates: Store<JobTemplate>, j: nat, due: set<nat>, id: nat) {
    && Tracks(window, m.jobs.Keys)
    && HasAll(window[..WINDOW - 1], templates, id)
    && Missed(templates.Keys - {j}, m.jobs.Keys, m.first) <= due
  }

  function Halfway(templates: Store<JobTemplate>, j: nat, done: set<nat>): (Lane, nat) -> bool {
    (l: Lane, id: nat) =>
      if id in done then LaneAvailable(WindowOf(l.channel), l.miner, templates, j, {}, id)
      else LanePending(WindowOf(l.channel), l.miner, templates, j, {}, id)
  }

  ghost predicate Reaching(s: SessionState, done: set<nat>) {
    && (forall k :: k in s.templates ==> k <= s.lastJobID)
    && Everyone(s.lanes, Halfway(s.templates, s.lastJobID, done))
  }

  lemma MoreDue(s: SessionState, due: set<nat>, more: set<nat>)
    requires Available(s, due) && due <= more
    ensures Available(s, more)
  {
    forall id | id in s.lanes
      ensures Lasting(s.templates, s.lastJobID, more)(s.lanes[id], id)
    {
      assert Lasting(s.templates, s.lastJobID, due)(s.lanes[id], id);
    }
  }

  // ---- Evicting ----

  /** The evicted job is not among a channel's eight latest: with at most one job missed, the store would be too small to
      evict from. */
  lemma EvictedNotRecent(window: seq<nat>, m: Miner, templates: Store<JobTemplate>, last: nat, due: set<nat>, id: nat)
    requires LaneAvailable(window, m, templates, last, due, id) && |due| <= 1
    requires |templates| > MAX_TEMPLATE_HISTORY
    requires m.jobs != map[] ==> m.first in m.jobs && m.first >= 1
    requires forall j :: j in m.jobs ==> m.first <= j
    ensures var oldest := Oldest(templates.Keys); oldest == 0 || oldest !in window[..WINDOW - 1]
  {
    var oldest := Oldest(templates.Keys);
    if oldest != 0 && oldest in window[..WINDOW - 1] {
      assert m.jobs != map[] by {
        var i :| 0 <= i < WINDOW - 1 && window[i] == oldest;
        assert window[i] in m.jobs;
      }
      OldestInWindow(window, m.jobs.Keys, m.first, templates.Keys, oldest);
      SubsetSize(Missed(templates.Keys, m.jobs.Keys, m.first), due);
    }
  }

  lemma RecentSurvive(window: seq<nat>, m: Miner, templates: Store<JobTemplate>, last: nat, due: set<nat>, id: nat)
    requires LaneAvailable(window, m, templates, last, due, id) && |due| <= 1
    requires m.jobs != map[] ==> m.first in m.jobs && m.first >= 1
    requires forall j :: j in m.jobs ==> m.first <= j
    ensures HasAll(window[..WINDOW - 1], Evicted(templates), id)
  {
    if |templates| > MAX_TEMPLATE_HISTORY {
      EvictedNotRecent(window, m, templates, last, due, id);
      var recent := window[..WINDOW - 1];
      forall i | 0 <= i < |recent| && recent[i] != 0
        ensures Stored(Evicted(templates), recent[i], id)
      {
        assert Stored(templates, window[i], id);
        assert recent[i] in recent;
      }
    }
  }

  // ---- One send ----

  /** A send under `j` leaves the window complete when the eight latest were and the new copy is stored. */
  lemma PushedHasAll(window: seq<nat>, templates: Store<JobTemplate>, j: nat, id: nat, t: JobTemplate)
    requires |window| == WINDOW && HasAll(window[..WINDOW - 1], templates, id)
    ensures HasAll(Pushed(window, j), WithStored(templates, j, id, t), id)
  {
    var after := Pushed(window, j);
    forall i | 0 <= i < |after| && after[i] != 0
      ensures Stored(WithStored(templates, j, id, t), after[i], id)
    {
      StoredEntries(templates, j, id, t, after[i], id);
      if i > 0 {
        assert after[i] == window[..WINDOW - 1][i - 1];
      }
    }
  }

  lemma KeptHasAll(window: seq<nat>, templates: Store<JobTemplate>, j: nat, other: nat, t: JobTemplate, id: nat)
    requires HasAll(window, templates, id)
    ensures HasAll(window, WithStored(templates, j, other, t), id)
  {
    forall i | 0 <= i < |window| && window[i] != 0
      ensures Stored(WithStored(templates, j, other, t), window[i], id)
    {
      StoredEntries(templates, j, other, t, window[i], id);
    }
  }

  lemma RecentHasAll(w: seq<nat>, templates: Store<JobTemplate>, id: nat)
    requires HasAll(w, templates, id) && |w| == WINDOW
    ensures HasAll(w[..WINDOW - 1], templates, id)
  {
  }

  /** A send under the newest ID adds nothing to what was missed. */
  lemma MissedAfterSend(keys: set<nat>, m: Miner, m': Miner, j: nat)
    requires forall k :: k in keys ==> k <= j
    requires m'.jobs.Keys == m.jobs.Keys + {j} && m'.first == if m.first == 0 then j else m.first
    ensures Missed(keys + {j}, m'.jobs.Keys, m'.first) <= Missed(keys - {j}, m.jobs.Keys, m.first)
  {
  }

  /** The channel that is sent job `j`. */
  lemma LaneAfterSend(w: seq<nat>, m: Miner, m': Miner, templates: Store<JobTemplate>, j: nat, t: JobTemplate,
                      due: set<nat>, id: nat)
    requires LanePending(w, m, templates, j, due, id) && w[0] <= j
    requires forall k :: k in templates ==> k <= j
    requires m'.jobs.Keys == m.jobs.Keys + {j} && m'.first == if m.first == 0 then j else m.first
    ensures LaneAvailable(Pushed(w, j), m', WithStored(templates, j, id, t), j, due, id)
  {
    PushTracks(w, m.jobs.Keys, j);
    PushedHasAll(w, templates, j, id, t);
    MissedAfterSend(templates.Keys, m, m', j);
    assert WithStored(templates, j, id, t).Keys + {j} == templates.Keys + {j};
  }

  /** A channel beside it that has the job already, or is still to be sent it. */
  lemma LaneBesideSend(w: seq<nat>, m: Miner, templates: Store<JobTemplate>, j: nat, other: nat, t: JobTemplate,
                       due: set<nat>, id: nat)
    ensures LanePending(w, m, templates, j, due, id) ==> LanePending(w, m, WithStored(templates, j, other, t), j, due, id)
    ensures LaneAvailable(w, m, templates, j, due, id) ==>
              LaneAvailable(w, m, WithStored(templates, j, other, t), j, due, id)
  {
    var after := WithStored(templates, j, other, t);
    if LanePending(w, m, templates, j, due, id) {
      KeptHasAll(w[..WINDOW - 1], templates, j, other, t, id);
      assert after.Keys - {j} == templates.Keys - {j};
    }
    if LaneAvailable(w, m, templates, j, due, id) {
      KeptHasAll(w, templates, j, other, t, id);
      assert after.Keys + {j} == templates.Keys + {j};
    }
  }

  /** A complete channel may be treated as one the job has yet to reach; then that job is no longer counted as missed. */
  lemma AvailableIsPending(w: seq<nat>, m: Miner, templates: Store<JobTemplate>, last: nat, due: set<nat>, id: nat, j: nat)
    requires LaneAvailable(w, m, templates, last, due, id)
    ensures LanePending(w, m, templates, j, due - {j}, id)
  {
    RecentHasAll(w, templates, id);
  }

  lemma WorkWindow(rules: Rules, c: ChannelState, t: JobTemplate, built: Option<Coinbase>, now: real)
    requires c.Valid()
    ensures WindowOf(WorkSent(rules, c, t, built, now).channel) == Pushed(WindowOf(c), t.jobID)
  {
    var on := Rebuilt(c, built).(activePrevHash := t.prevHash);
    ReadiedWindow(on, t.jobID, c.activePrevHash != t.prevHash, now);
  }

  lemma ReadiedWindow(c: ChannelState, j: nat, future: bool, now: real)
    requires c.Valid()
    ensures WindowOf(Readied(c, j, future, now)) == Pushed(WindowOf(c), j)
  {
    WindowAccepts(c, j);
  }

  lemma AfterWorkMemory(m: Miner, c: ChannelState, d: Dispatch, t: JobTemplate, payload: Payload)
    requires c.activePrevHash == t.prevHash ==> m.prevHash.Some?
    ensures var m' := AfterWork(m, c, d, t, payload);
            m'.jobs.Keys == m.jobs.Keys + {t.jobID} && m'.first == if m.first == 0 then t.jobID else m.first
  {
  }

  /** What new work does to the memory the window is measured against. */
  lemma WorkMemory(rules: Rules, l: Lane, t: JobTemplate, built: Option<Coinbase>, now: real)
    requires l.channel.Valid() && l.miner.target == l.channel.poolTarget
    requires l.channel.activePrevHash == t.prevHash ==> l.miner.prevHash.Some?
    ensures var l' := AfterDispatch(l, WorkSent(rules, l.channel, t, built, now));
            && WindowOf(l'.channel) == Pushed(WindowOf(l.channel), t.jobID)
            && l'.miner.jobs.Keys == l.miner.jobs.Keys + {t.jobID}
            && l'.miner.first == if l.miner.first == 0 then t.jobID else l.miner.first
  {
    var d := WorkSent(rules, l.channel, t, built, now);
    WorkReceived(rules, l.channel, l.miner, t, built, now);
    AfterWorkMemory(l.miner, l.channel, d, t, rules.payload(l.channel.info, d.stored));
    WorkWindow(rules, l.channel, t, built, now);
  }

  lemma ResendMemory(rules: Rules, l: Lane, t: JobTemplate, now: real)
    requires l.channel.Valid() && l.miner.target == l.channel.poolTarget && l.miner.prevHash.Some?
    ensures var l' := AfterDispatch(l, JobSent(rules, l.channel, t, false, now));
            && WindowOf(l'.channel) == Pushed(WindowOf(l.channel), t.jobID)
            && l'.miner.jobs.Keys == l.miner.jobs.Keys + {t.jobID}
            && l'.miner.first == if l.miner.first == 0 then t.jobID else l.miner.first
  {
    StartedReceived(rules, l.channel, l.miner, t, now);
    ReadiedWindow(l.channel, t.jobID, false, now);
  }

  // ---- A new template ----

  lemma PendingAfterEviction(w: seq<nat>, m: Miner, templates: Store<JobTemplate>, last: nat, id: nat, j: nat)
    requires LaneAvailable(w, m, templates, last, {j}, id)
    requires m.jobs != map[] ==> m.first in m.jobs && m.first >= 1
    requires forall k :: k in m.jobs ==> m.first <= k
    ensures LanePending(w, m, Evicted(templates), j, {}, id)
  {
    RecentSurvive(w, m, templates, last, {j}, id);
  }

  lemma BegunLane(feed: Feed, l: Lane, last: nat, templates: Store<JobTemplate>, id: nat, j: nat)
    requires FollowsChannel(feed)(l, last) && Lasting(templates, last, {j})(l, id)
    ensures Halfway(Evicted(templates), j, {})(l, id)
  {
    PendingAfterEviction(WindowOf(l.channel), l.miner, templates, last, id, j);
  }

  lemma BegunReaching(rules: Rules, feed: Feed, s: SessionState, j: nat)
    requires Consistent(rules, feed, s) && Available(s, {j}) && j >= s.lastJobID
    ensures Reaching(Begun(s, j), {})
  {
    forall id | id in s.lanes
      ensures Halfway(Evicted(s.templates), j, {})(s.lanes[id], id)
    {
      BegunLane(feed, s.lanes[id], s.lastJobID, s.templates, id, j);
    }
  }

  lemma WorkLane(rules: Rules, feed: Feed, l: Lane, templates: Store<JobTemplate>, j: nat, built: Option<Coinbase>,
                 now: real, id: nat)
    requires Numbered(feed) && RealPrevHashes(feed) && InStep(feed, l, j)
    requires LanePending(WindowOf(l.channel), l.miner, templates, j, {}, id)
    requires forall k :: k in templates ==> k <= j
    ensures var d := WorkSent(rules, l.channel, feed(j), built, now);
            var l' := AfterDispatch(l, d);
            LaneAvailable(WindowOf(l'.channel), l'.miner, WithStored(templates, j, id, d.stored), j, {}, id)
  {
    var d := WorkSent(rules, l.channel, feed(j), built, now);
    WorkMemory(rules, l, feed(j), built, now);
    LaneAfterSend(WindowOf(l.channel), l.miner, AfterDispatch(l, d).miner, templates, j, d.stored, {}, id);
  }

  lemma OtherLane(l: Lane, templates: Store<JobTemplate>, j: nat, done: set<nat>, other: nat, t: JobTemplate, id: nat)
    requires Halfway(templates, j, done)(l, id) && id != other
    ensures Halfway(WithStored(templates, j, other, t), j, done + {other})(l, id)
  {
    LaneBesideSend(WindowOf(l.channel), l.miner, templates, j, other, t, {}, id);
  }

  lemma WorkReaching(rules: Rules, feed: Feed, s: SessionState, done: set<nat>, id: nat, coinbases: map<nat, Coinbase>,
                     now: real)
    requires Numbered(feed) && RealPrevHashes(feed) && Consistent(rules, feed, s) && id in s.lanes
    requires Reaching(s, done) && s.lastJobID >= 1
    ensures Reaching(Sent(s, s.lastJobID, id, Work(rules, s, id, feed(s.lastJobID), coinbases, now)), done + {id})
  {
    var j, d := s.lastJobID, Work(rules, s, id, feed(s.lastJobID), coinbases, now);
    var l := s.lanes[id];
    assert FollowsChannel(feed)(l, j);
    assert Halfway(s.templates, j, done)(l, id);
    if id in done {
      AvailableIsPending(WindowOf(l.channel), l.miner, s.templates, j, {}, id, j);
    }
    WorkLane(rules, feed, l, s.templates, j, BuiltFor(coinbases, id), now, id);
    SendReaching(s, done, id, d);
  }

  lemma SendReaching(s: SessionState, done: set<nat>, id: nat, d: Dispatch)
    requires s.Valid() && Reaching(s, done) && id in s.lanes && FitsLane(s.lanes[id], d)
    requires Halfway(WithStored(s.templates, s.lastJobID, id, d.stored), s.lastJobID, done + {id})
                    (AfterDispatch(s.lanes[id], d), id)
    ensures Reaching(Sent(s, s.lastJobID, id, d), done + {id})
  {
    var j := s.lastJobID;
    forall other | other in s.lanes && other != id
      ensures Halfway(WithStored(s.templates, j, id, d.stored), j, done + {id})(s.lanes[other], other)
    {
      assert Halfway(s.templates, j, done)(s.lanes[other], other);
      OtherLane(s.lanes[other], s.templates, j, done, id, d.stored, other);
    }
  }

  lemma WorkStep(rules: Rules, feed: Feed, s: SessionState, done: set<nat>, id: nat, coinbases: map<nat, Coinbase>,
                 now: real) returns (next: SessionState)
    requires Numbered(feed) && RealPrevHashes(feed) && Consistent(rules, feed, s) && id in s.lanes
    requires Reaching(s, done) && s.lastJobID >= 1
    ensures next == Sent(s, s.lastJobID, id, Work(rules, s, id, feed(s.lastJobID), coinbases, now))
    ensures Consistent(rules, feed, next) && Reaching(next, done + {id})
    ensures next.lastJobID == s.lastJobID && next.lanes.Keys == s.lanes.Keys
  {
    next := Sent(s, s.lastJobID, id, Work(rules, s, id, feed(s.lastJobID), coinbases, now));
    WorkReaching(rules, feed, s, done, id, coinbases, now);
    WorkConsistent(rules, feed, s, s.lastJobID, id, coinbases, now);
  }

  lemma {:induction false} WorkedAllReaching(rules: Rules, feed: Feed, s: SessionState, done: set<nat>, order: seq<nat>,
                                             coinbases: map<nat, Coinbase>, now: real)
    requires Numbered(feed) && RealPrevHashes(feed) && Consistent(rules, feed, s) && Reaching(s, done) && s.lastJobID >= 1
    requires forall i :: 0 <= i < |order| ==> order[i] in s.lanes
    ensures Reaching(WorkedAll(rules, s, order, feed(s.lastJobID), coinbases, now), done + Elements(order))
    decreases |order|
  {
    if order == [] {
      assert done + Elements(order) == done;
    } else {
      var next := WorkStep(rules, feed, s, done, order[0], coinbases, now);
      WorkedAllReaching(rules, feed, next, done + {order[0]}, order[1..], coinbases, now);
      HeadElement(done, order);
    }
  }

  lemma HeadElement(done: set<nat>, order: seq<nat>)
    requires order != []
    ensures done + {order[0]} + Elements(order[1..]) == done + Elements(order)
  {
  }

  lemma Reached(s: SessionState, done: set<nat>)
    requires Reaching(s, done) && s.lanes.Keys <= done
    ensures Available(s, {})
  {
    forall id | id in s.lanes
      ensures Lasting(s.templates, s.lastJobID, {})(s.lanes[id], id)
    {
      assert Halfway(s.templates, s.lastJobID, done)(s.lanes[id], id);
    }
  }

  /** A job that arrives is due no longer. */
  lemma UpdateAvailable(rules: Rules, feed: Feed, s: SessionState, j: nat, order: seq<nat>, coinbases: map<nat, Coinbase>,
                        now: real)
    requires Numbered(feed) && RealPrevHashes(feed) && Consistent(rules, feed, s) && Available(s, {j})
    requires j >= 1 && j >= s.lastJobID && IsOrder(order, s.lanes.Keys)
    ensures Available(Updated(rules, s, order, feed(j), coinbases, now), {})
  {
    BegunReaching(rules, feed, s, j);
    BegunConsistent(rules, feed, s, j);
    WorkedAllReaching(rules, feed, Begun(s, j), {}, order, coinbases, now);
    Reached(WorkedAll(rules, Begun(s, j), order, feed(j), coinbases, now), {} + Elements(order));
  }

  // ---- Keepalive ----

  lemma ResendAvailable(rules: Rules, feed: Feed, s: SessionState, id: nat, t: JobTemplate, now: real, due: set<nat>)
    requires Consistent(rules, feed, s) && Available(s, due) && id in s.lanes && s.lastJobID in s.templates
    requires Backed(rules, feed, s.lanes[id], s.lastJobID, t)
    ensures Available(Sent(s, s.lastJobID, id, Resend(rules, s, id, t, now)), due)
  {
    var l, j, d := s.lanes[id], s.lastJobID, Resend(rules, s, id, t, now);
    var w := WindowOf(l.channel);
    assert FollowsChannel(feed)(l, j);
    assert Lasting(s.templates, j, due)(l, id);
    ResendMemory(rules, l, t, now);
    AvailableIsPending(w, l.miner, s.templates, j, due, id, j);
    LaneAfterSend(w, l.miner, AfterDispatch(l, d).miner, s.templates, j, d.stored, due - {j}, id);
    OthersAvailable(s, id, d, due);
  }

  lemma OthersAvailable(s: SessionState, id: nat, d: Dispatch, due: set<nat>)
    requires s.Valid() && Available(s, due) && id in s.lanes && FitsLane(s.lanes[id], d) && s.lastJobID in s.templates
    requires Lasting(WithStored(s.templates, s.lastJobID, id, d.stored), s.lastJobID, due)(AfterDispatch(s.lanes[id], d), id)
    ensures Available(Sent(s, s.lastJobID, id, d), due)
  {
    var templates := WithStored(s.templates, s.lastJobID, id, d.stored);
    forall other | other in s.lanes && other != id
      ensures Lasting(templates, s.lastJobID, due)(s.lanes[other], other)
    {
      var l := s.lanes[other];
      assert Lasting(s.templates, s.lastJobID, due)(l, other);
      LaneBesideSend(WindowOf(l.channel), l.miner, s.templates, s.lastJobID, id, d.stored, due, other);
    }
  }

  lemma NextAvailable(rules: Rules, feed: Feed, s: SessionState, order: seq<nat>, copies: map<nat, JobTemplate>,
                      now: real, due: set<nat>)
    requires Consistent(rules, feed, s) && CopiesBacked(rules, feed, s, order, copies) && Available(s, due) && order != []
    requires copies != map[] ==> s.lastJobID in s.templates
    ensures var next := ResentOne(rules, s, order[0], copies, now);
            Available(next, due) && (copies != map[] ==> next.lastJobID in next.templates)
  {
    var id := order[0];
    if id in copies {
      assert Backed(rules, feed, s.lanes[id], s.lastJobID, copies[id]);
      ResendAvailable(rules, feed, s, id, copies[id], now, due);
    }
  }

  lemma {:induction false} ResentAllAvailable(rules: Rules, feed: Feed, s: SessionState, order: seq<nat>,
                                              copies: map<nat, JobTemplate>, now: real, due: set<nat>)
    requires Consistent(rules, feed, s) && CopiesBacked(rules, feed, s, order, copies) && Available(s, due)
    requires copies != map[] ==> s.lastJobID in s.templates
    ensures Available(ResentAll(rules, s, order, copies, now), due)
    decreases |order|
  {
    if order != [] {
      NextAvailable(rules, feed, s, order, copies, now, due);
      NextConsistent(rules, feed, s, order, copies, now);
      ResentAllAvailable(rules, feed, ResentOne(rules, s, order[0], copies, now), order[1..], copies, now, due);
    }
  }

  lemma KeepaliveAvailable(rules: Rules, feed: Feed, s: SessionState, order: seq<nat>, now: real, due: set<nat>)
    requires Consistent(rules, feed, s) && Available(s, due) && IsOrder(order, s.lanes.Keys)
    ensures Available(KeptAlive(rules, s, order, now), due)
  {
    var copies := Under(s.templates, s.lastJobID);
    StoredCopiesBacked(rules, feed, s, order);
    ResentAllAvailable(rules, feed, s, order, copies, now, due);
  }

  // ---- A new channel ----

  /** A channel beside one that opens on job `j`: it has that job, or the job is on its way to it. */
  lemma LaneBesideOpen(w: seq<nat>, m: Miner, templates: Store<JobTemplate>, last: nat, j: nat, t: JobTemplate,
                       due: set<nat>, id: nat, newest: nat)
    requires LaneAvailable(w, m, templates, last, due, id) && (j == last || j in due)
    ensures LaneAvailable(w, m, WithStored(templates, j, newest, t), j, due, id)
  {
    KeptHasAll(w, templates, j, newest, t, id);
    var known, grown := Missed(templates.Keys + {last}, m.jobs.Keys, m.first),
                        Missed(WithStored(templates, j, newest, t).Keys + {j}, m.jobs.Keys, m.first);
    assert grown <= known + due;
  }

  lemma OthersBesideOpen(s: SessionState, j: nat, t: JobTemplate, newest: nat, due: set<nat>)
    requires Available(s, due) && (j == s.lastJobID || j in due)
    ensures Everyone(s.lanes, Lasting(WithStored(s.templates, j, newest, t), j, due))
  {
    forall id | id in s.lanes
      ensures Lasting(WithStored(s.templates, j, newest, t), j, due)(s.lanes[id], id)
    {
      assert Lasting(s.templates, s.lastJobID, due)(s.lanes[id], id);
      LaneBesideOpen(WindowOf(s.lanes[id].channel), s.lanes[id].miner, s.templates, s.lastJobID, j, t, due, id, newest);
    }
  }

  lemma EmptyWindow(c: ChannelState, m: Miner, templates: Store<JobTemplate>, last: nat, due: set<nat>, id: nat)
    requires c.currentJobID == 0 && c.staleJobIDs == [0, 0, 0, 0, 0, 0, 0, 0] && m.jobs == map[] && m.first == 0
    ensures LaneAvailable(WindowOf(c), m, templates, last, due, id)
  {
    assert forall i :: 0 <= i < WINDOW ==> WindowOf(c)[i] == 0;
    assert Missed(templates.Keys + {last}, m.jobs.Keys, m.first) == {};
  }

  predicate Unused(c: ChannelState) {
    c.Valid() && c.currentJobID == 0 && c.staleJobIDs == [0, 0, 0, 0, 0, 0, 0, 0] && c.activePrevHash == ZERO_HASH
  }

  lemma NewestLane(rules: Rules, feed: Feed, templates: Store<JobTemplate>, c: ChannelState, j: nat, now: real,
                   due: set<nat>, d: Dispatch, m: Miner)
    requires Numbered(feed) && Unused(c) && j >= 1 && forall k :: k in templates ==> k <= j
    requires d == FirstWorkSent(rules, c, feed(j), now) && m == ReceiveAll(Receive(NEW_MINER, Welcome(c)), d.messages)
    ensures LaneAvailable(WindowOf(d.channel), m, WithStored(templates, j, c.info.id, d.stored), j, due, c.info.id)
  {
    var idle := Receive(NEW_MINER, Welcome(c));
    FirstWork(rules, feed, c, feed(j), now);
    ReadiedWindow(c.(activePrevHash := feed(j).prevHash), j, c.activePrevHash != feed(j).prevHash, now);
    EmptyWindow(c, idle, templates, j, due, c.info.id);
    AvailableIsPending(WindowOf(c), idle, templates, j, due, c.info.id, j);
    LaneAfterSend(WindowOf(c), idle, m, templates, j, d.stored, due - {j}, c.info.id);
  }

  lemma JoinedIdle(s: SessionState, c: ChannelState, due: set<nat>)
    requires Available(s, due) && Unused(c)
    ensures Available(s.(lanes := s.lanes[c.info.id := Lane(c, Receive(NEW_MINER, Welcome(c)), [Welcome(c)])]), due)
  {
    var id, m := c.info.id, Receive(NEW_MINER, Welcome(c));
    EmptyWindow(c, m, s.templates, s.lastJobID, due, id);
    forall other | other in s.lanes
      ensures Lasting(s.templates, s.lastJobID, due)(s.lanes[other], other)
    {
    }
  }

  lemma JoinedWorking(rules: Rules, feed: Feed, s: SessionState, c: ChannelState, j: nat, now: real, d: Dispatch, l: Lane,
                      due: set<nat>)
    requires Numbered(feed) && Available(s, due) && s.Valid() && Unused(c)
    requires j >= 1 && j >= s.lastJobID && (j == s.lastJobID || j in due)
    requires d == FirstWorkSent(rules, c, feed(j), now) 
    requires l.channel == d.channel && l.miner == ReceiveAll(Receive(NEW_MINER, Welcome(c)), d.messages)
    ensures Available(SessionState(s.lanes[c.info.id := l],
                                   WithStored(s.templates, j, c.info.id, d.stored), j), due)
  {
    OthersBesideOpen(s, j, d.stored, c.info.id, due);
    NewestLane(rules, feed, s.templates, c, j, now, due, d, l.miner);
  }

  lemma NewChannelUnused(rules: Rules, r: OpenRequest, onNewBlock: bool, latest: Option<JobTemplate>,
                         built: Option<Coinbase>, now: real)
    requires Proper(r)
    ensures var c := OpenedChannel(rules, r, onNewBlock, latest, built, now); Unused(c) && c.info.id == r.id
  {
  }

  lemma SentFirst(rules: Rules, s: SessionState, c: ChannelState, t: JobTemplate, now: real)
    requires s.Valid() && c.Valid() && c.info.id !in s.lanes
    ensures var id, l, d := c.info.id, Lane(c, Receive(NEW_MINER, Welcome(c)), [Welcome(c)]), FirstWorkSent(rules, c, t, now);
            (Sent(s.(lanes := s.lanes[id := l]), t.jobID, id, d).(lastJobID := t.jobID)
          == SessionState(s.lanes[id := AfterDispatch(l, d)], WithStored(s.templates, t.jobID, id, d.stored), t.jobID))
  {
    var id, l, d := c.info.id, Lane(c, Receive(NEW_MINER, Welcome(c)), [Welcome(c)]), FirstWorkSent(rules, c, t, now);
    assert s.lanes[id := l][id := AfterDispatch(l, d)] == s.lanes[id := AfterDispatch(l, d)];
  }

  lemma OpenedAvailable(rules: Rules, feed: Feed, s: SessionState, r: OpenRequest, onNewBlock: bool, latest: Option<nat>,
                        built: Option<Coinbase>, now: real, due: set<nat>)
    requires Numbered(feed) && Available(s, due) && s.Valid() && Possible(s, Open(r, onNewBlock, latest, built, now))
    requires latest.Some? ==> latest.value == s.lastJobID || latest.value in due
    ensures Available(Opened(rules, s, r, onNewBlock, TemplateOf(feed, latest), built, now), due)
  {
    var at := TemplateOf(feed, latest);
    if !Refused(s, r, at) {
      var c := OpenedChannel(rules, r, onNewBlock, at, built, now);
      NewChannelUnused(rules, r, onNewBlock, at, built, now);
      if latest.None? {
        JoinedIdle(s, c, due);
      } else {
        var d := FirstWorkSent(rules, c, feed(latest.value), now);
        JoinedWorking(rules, feed, s, c, latest.value, now, d,
                      AfterDispatch(Lane(c, Receive(NEW_MINER, Welcome(c)), [Welcome(c)]), d), due);
        SentFirst(rules, s, c, feed(latest.value), now);
      }
    }
  }

  // ---- Shares ----

  lemma SameWindow(s: SessionState, id: nat, l: Lane, due: set<nat>)
    requires Available(s, due) && id in s.lanes
    requires l.miner == s.lanes[id].miner && WindowOf(l.channel) == WindowOf(s.lanes[id].channel)
    ensures Available(s.(lanes := s.lanes[id := l]), due)
  {
    assert Lasting(s.templates, s.lastJobID, due)(s.lanes[id], id);
  }

  lemma RecordedAvailable(s: SessionState, id: nat, now: real, due: set<nat>)
    requires s.Valid() && Available(s, due) && id in s.lanes
    ensures Available(s.(lanes := s.lanes[id := s.lanes[id].(channel := ShareRecorded(s.lanes[id].channel, now))]), due)
  {
    SameWindow(s, id, s.lanes[id].(channel := ShareRecorded(s.lanes[id].channel, now)), due);
  }
}
