// The template store stays small in every run: twenty jobs, the one that arrives, and one a channel may have opened on before it.
module Sv2StoreBound {
  import opened Hex
  import opened LaneStore
  import opened Sets
  import opened ShareHeader
  import opened Channel
  import opened Sv2Session
  import opened Sv2Protocol
  import opened Sv2Runs
  import opened Sv2Eviction
  import opened Sv2Lanes
  import opened Sv2Broadcast

  // ---- What events do to the jobs in the store ----

  lemma {:induction false} WorkedKeys(rules: Rules, s: SessionState, order: seq<nat>, t: JobTemplate,
                                      built: map<nat, Coinbase>, now: real)
    requires s.Valid() && forall i :: 0 <= i < |order| ==> order[i] in s.lanes
    ensures WorkedAll(rules, s, order, t, built, now).templates.Keys
         == s.templates.Keys + (if order == [] then {} else {t.jobID})
    decreases |order|
  {
    if order != [] {
      WorkedKeys(rules, Sent(s, t.jobID, order[0], Work(rules, s, order[0], t, built, now)), order[1..], t, built, now);
    }
  }

  lemma ResentKeysOne(rules: Rules, s: SessionState, id: nat, copies: map<nat, JobTemplate>, now: real)
    requires s.Valid() && id in s.lanes && (id in copies ==> copies[id].jobID in s.templates)
    ensures ResentOne(rules, s, id, copies, now).templates.Keys == s.templates.Keys
  {
  }

  lemma {:induction false} ResentKeys(rules: Rules, s: SessionState, order: seq<nat>, copies: map<nat, JobTemplate>, now: real)
    requires s.Valid() && forall i :: 0 <= i < |order| ==> order[i] in s.lanes
    requires forall id :: id in copies ==> copies[id].jobID in s.templates
    ensures ResentAll(rules, s, order, copies, now).templates.Keys == s.templates.Keys
    decreases |order|
  {
    if order != [] {
      ResentKeysOne(rules, s, order[0], copies, now);
      ResentKeys(rules, ResentOne(rules, s, order[0], copies, now), order[1..], copies, now);
    }
  }

  lemma OpenedKeys(rules: Rules, s: SessionState, r: OpenRequest, onNewBlock: bool, t: JobTemplate, built: Option<Coinbase>,
                   now: real)
    requires s.Valid() && Proper(r) && !Refused(s, r, Some(t)) && r.id !in s.lanes
    ensures Opened(rules, s, r, onNewBlock, Some(t), built, now).templates.Keys == s.templates.Keys + {t.jobID}
  {
    var c := OpenedChannel(rules, r, onNewBlock, Some(t), built, now);
    SentFirst(rules, s, c, t, now);
  }

  // ---- Counting them ----

  /** The next job underway, if a channel opened on it before it arrived. */
  function Early(keys: set<nat>, underway: seq<nat>): nat {
    if underway != [] && underway[0] in keys then 1 else 0
  }

  ghost predicate Small(keys: set<nat>, idle: bool, underway: seq<nat>, last: nat) {
    && |keys| <= 21 + Early(keys, underway)
    && (forall k :: k in keys ==> k <= last)
    && (idle ==> keys == {})
    && (underway == [] && keys != {} ==> last in keys)
  }

  ghost predicate SmallStore(m: System) {
    Small(m.session.templates.Keys, m.session.lanes == map[], m.underway, m.session.lastJobID)
  }

  lemma EvictedKeys(templates: Store<JobTemplate>)
    ensures Evicted(templates).Keys == if |templates.Keys| > 20 then templates.Keys - {Oldest(templates.Keys)} else templates.Keys
  {
    assert |templates| == |templates.Keys|;
  }

  /** More than one job is stored, so the oldest is not the newest. */
  lemma OldestIsNotNewest(keys: set<nat>, j: nat)
    requires |keys| > 1 && forall k :: k in keys ==> k <= j
    ensures Oldest(keys) != j
  {
    assert |keys - {j}| >= 1;
    var other :| other in keys - {j};
  }

  lemma ArrivalSmall(keys: set<nat>, idle: bool, underway: seq<nat>, last: nat, kept: set<nat>, after: set<nat>)
    requires Small(keys, idle, underway, last) && underway != [] && underway[0] >= last
    requires kept == if |keys| > 20 then keys - {Oldest(keys)} else keys
    requires after == kept + (if idle then {} else {underway[0]})
    ensures Small(after, idle, underway[1..], underway[0])
  {
    if |keys| > 20 {
      OldestIsNotNewest(keys, underway[0]);
    }
  }

  lemma OpenSmall(keys: set<nat>, idle: bool, underway: seq<nat>, last: nat, j: nat)
    requires Small(keys, idle, underway, last) && j >= last
    requires if underway == [] then j == last else underway[0] == j
    ensures Small(keys + {j}, false, underway, j)
  {
    if j in keys {
      assert keys + {j} == keys;
    }
  }

  lemma UpdateSmall(rules: Rules, feed: Feed, m: System, e: Event)
    requires Numbered(feed) && Ordered(m) && Can(m, Acts(e)) && e.Update? && SmallStore(m) && Possible(m.session, e)
    ensures SmallStore(Next(rules, feed, m, Acts(e)))
  {
    var s := m.session;
    var begun := Begun(s, e.jobID);
    EvictedKeys(s.templates);
    WorkedKeys(rules, begun, e.order, feed(e.jobID), e.coinbases, e.now);
    WorkedAllLast(rules, begun, e.order, feed(e.jobID), e.coinbases, e.now);
    OrderIdle(e.order, s.lanes.Keys);
    ArrivalSmall(s.templates.Keys, s.lanes == map[], m.underway, s.lastJobID, begun.templates.Keys,
                 Step(rules, feed, s, e).templates.Keys);
    SameIdle(s.lanes, Step(rules, feed, s, e).lanes);
  }

  lemma OrderIdle(order: seq<nat>, ids: set<nat>)
    requires IsOrder(order, ids)
    ensures order == [] <==> ids == {}
  {
    if order != [] {
      assert order[0] in ids;
    }
  }

  lemma SameIdle(lanes: map<nat, Lane>, after: map<nat, Lane>)
    requires lanes.Keys == after.Keys
    ensures lanes == map[] <==> after == map[]
    ensures lanes == map[] <==> lanes.Keys == {}
  {
    if lanes.Keys == {} {
      assert lanes == map[] && after == map[];
    }
  }

  lemma OpensSmall(rules: Rules, feed: Feed, m: System, e: Event)
    requires Numbered(feed) && Ordered(m) && Can(m, Acts(e)) && e.Open? && SmallStore(m) && Possible(m.session, e)
    ensures SmallStore(Next(rules, feed, m, Acts(e)))
  {
    var s, at := m.session, TemplateOf(feed, e.latest);
    LastJob(rules, feed, s, e);
    StepChannels(rules, feed, s, e);
    if !Refused(s, e.request, at) {
      assert e.request.id in Step(rules, feed, s, e).lanes;
      if e.latest.Some? {
        OpenedKeys(rules, s, e.request, e.onNewBlock, feed(e.latest.value), e.built, e.now);
        OpenSmall(s.templates.Keys, s.lanes == map[], m.underway, s.lastJobID, e.latest.value);
      }
    }
  }

  lemma KeepaliveSmall(rules: Rules, feed: Feed, m: System, e: Event)
    requires Numbered(feed) && RealPrevHashes(feed) && Good(rules, feed, m) && Can(m, Acts(e)) && e.Keepalive?
    requires SmallStore(m) && Possible(m.session, e)
    ensures SmallStore(Next(rules, feed, m, Acts(e)))
  {
    var s := m.session;
    var copies := Under(s.templates, s.lastJobID);
    forall id | id in copies
      ensures copies[id].jobID in s.templates
    {
      assert Stored(s.templates, s.lastJobID, id);
      assert IsBacked(rules, feed)(s.lanes[id], s.lastJobID, copies[id]);
    }
    ResentKeys(rules, s, e.order, copies, e.now);
    LastJob(rules, feed, s, e);
    SameIdle(s.lanes, Step(rules, feed, s, e).lanes);
  }

  lemma SubmitSmall(rules: Rules, feed: Feed, m: System, e: Event)
    requires Ordered(m) && Can(m, Acts(e)) && e.Submit? && SmallStore(m) && Possible(m.session, e)
    ensures SmallStore(Next(rules, feed, m, Acts(e)))
  {
    var s := m.session;
    var after := Step(rules, feed, s, e);
    assert after.lanes.Keys == s.lanes.Keys;
    SameIdle(s.lanes, after.lanes);
  }

  lemma NextSmall(rules: Rules, feed: Feed, m: System, h: Happening)
    requires Numbered(feed) && RealPrevHashes(feed) && Good(rules, feed, m) && Can(m, h) && SmallStore(m)
    ensures SmallStore(Next(rules, feed, m, h))
  {
    match h
    case Broadcasts(_) =>
    case Acts(e) =>
      CanIsPossible(m, h);
      match e {
        case Open(_, _, _, _, _) => OpensSmall(rules, feed, m, e);
        case Update(_, _, _, _) => UpdateSmall(rules, feed, m, e);
        case Keepalive(_, _) => KeepaliveSmall(rules, feed, m, e);
        case Submit(_, _, _, _) => SubmitSmall(rules, feed, m, e);
      }
  }

  ghost function SmallOf(): System -> bool {
    (m: System) => SmallStore(m)
  }

  lemma SmallLasts(rules: Rules, feed: Feed)
    requires Numbered(feed) && RealPrevHashes(feed)
    ensures Lasts(rules, feed, SmallOf())
  {
    forall m: System, h: Happening | Good(rules, feed, m) && Can(m, h) && SmallStore(m)
      ensures SmallStore(Next(rules, feed, m, h))
    {
      NextSmall(rules, feed, m, h);
    }
  }

  /** In every run the store holds at most twenty-two jobs, and at most twenty-one while no channel has opened on a job that is
      still to arrive. */
  lemma StoreBounded(rules: Rules, feed: Feed, states: seq<System>, happenings: seq<Happening>, n: nat)
    requires Numbered(feed) && RealPrevHashes(feed) && Run(rules, feed, states, happenings) && n < |states|
    ensures var keys, underway := states[n].session.templates.Keys, states[n].underway;
            && |keys| <= 22
            && (underway == [] || underway[0] !in keys ==> |keys| <= 21)
  {
    SmallLasts(rules, feed);
    RunLasts(rules, feed, states, happenings, n, SmallOf());
  }
}
