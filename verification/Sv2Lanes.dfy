// What an event does to one channel of a session, whatever it does to the others and in whatever order it comes to them.
module Sv2Lanes {
  import opened Hex
  import opened LaneStore
  import opened ShareHeader
  import opened Channel
  import opened Sv2Session
  import opened Sv2Protocol
  import opened Sv2Runs

  function Joined(c: ChannelState): Lane {
    Lane(c, Receive(NEW_MINER, Welcome(c)), [Welcome(c)])
  }

  /** A channel that was there before the event. */
  function LaneAfter(rules: Rules, feed: Feed, s: SessionState, e: Event, id: nat): Lane
    requires s.Valid() && id in s.lanes
  {
    var l := s.lanes[id];
    match e
    case Open(_, _, _, _, _) => l
    case Update(j, _, coinbases, now) =>
      AfterDispatch(l, WorkSent(rules, l.channel, feed(j), BuiltFor(coinbases, id), now))
    case Keepalive(_, now) =>
      if Stored(s.templates, s.lastJobID, id)
      then AfterDispatch(l, JobSent(rules, l.channel, s.templates[s.lastJobID][id], false, now))
      else l
    case Submit(share, staleGrace, lowDiffGrace, now) =>
      if share.channelID == id && Judged(rules, s, share, staleGrace, lowDiffGrace, now) == ShareAccepted
      then l.(channel := ShareRecorded(l.channel, now))
      else l
  }

  /** A channel that is opened. */
  function LaneOpened(rules: Rules, feed: Feed, e: Event): Lane
    requires e.Open? && Proper(e.request)
  {
    var at := TemplateOf(feed, e.latest);
    var c := OpenedChannel(rules, e.request, e.onNewBlock, at, e.built, e.now);
    match at
    case None => Joined(c)
    case Some(t) => AfterDispatch(Joined(c), FirstWorkSent(rules, c, t, e.now))
  }

  ghost predicate Distinct(order: seq<nat>) {
    forall i, k :: 0 <= i < k < |order| ==> order[i] != order[k]
  }

  lemma HeadOrTail(order: seq<nat>, id: nat)
    requires order != [] && Distinct(order)
    ensures Distinct(order[1..]) && (id in order <==> id == order[0] || id in order[1..])
    ensures id == order[0] ==> id !in order[1..]
  {
    assert order == [order[0]] + order[1..];
  }

  lemma {:induction false} WorkedLane(rules: Rules, s: SessionState, order: seq<nat>, t: JobTemplate,
                                      built: map<nat, Coinbase>, now: real, id: nat)
    requires s.Valid() && Distinct(order) && (forall i :: 0 <= i < |order| ==> order[i] in s.lanes) && id in s.lanes
    ensures WorkedAll(rules, s, order, t, built, now).lanes[id]
         == if id in order then AfterDispatch(s.lanes[id], Work(rules, s, id, t, built, now)) else s.lanes[id]
    decreases |order|
  {
    if order != [] {
      var next := Sent(s, t.jobID, order[0], Work(rules, s, order[0], t, built, now));
      WorkedLane(rules, next, order[1..], t, built, now, id);
      HeadOrTail(order, id);
    }
  }

  lemma ResentOneLane(rules: Rules, s: SessionState, other: nat, copies: map<nat, JobTemplate>, now: real, id: nat)
    requires s.Valid() && other in s.lanes && id in s.lanes
    ensures ResentOne(rules, s, other, copies, now).lanes[id]
         == if id == other && id in copies then AfterDispatch(s.lanes[id], Resend(rules, s, id, copies[id], now))
            else s.lanes[id]
  {
  }

  lemma {:induction false} ResentLane(rules: Rules, s: SessionState, order: seq<nat>, copies: map<nat, JobTemplate>, now: real,
                                      id: nat)
    requires s.Valid() && Distinct(order) && (forall i :: 0 <= i < |order| ==> order[i] in s.lanes) && id in s.lanes
    ensures ResentAll(rules, s, order, copies, now).lanes[id]
         == if id in order && id in copies then AfterDispatch(s.lanes[id], Resend(rules, s, id, copies[id], now))
            else s.lanes[id]
    decreases |order|
  {
    if order != [] {
      ResentOneLane(rules, s, order[0], copies, now, id);
      ResentLane(rules, ResentOne(rules, s, order[0], copies, now), order[1..], copies, now, id);
      HeadOrTail(order, id);
    }
  }

  /** Every channel is given its work exactly once, and from its own state alone: the order of the visits does not show. */
  lemma StepLane(rules: Rules, feed: Feed, s: SessionState, e: Event, id: nat)
    requires s.Valid() && Possible(s, e) && id in s.lanes
    ensures id in Step(rules, feed, s, e).lanes
    ensures Step(rules, feed, s, e).lanes[id] == LaneAfter(rules, feed, s, e, id)
  {
    match e
    case Update(j, order, coinbases, now) =>
      var begun := Begun(s, feed(j).jobID);
      assert begun.lanes == s.lanes;
      WorkedLane(rules, begun, order, feed(j), coinbases, now, id);
    case Keepalive(order, now) => ResentLane(rules, s, order, Under(s.templates, s.lastJobID), now, id);
    case _ =>
  }

  lemma OpenedLanes(rules: Rules, s: SessionState, r: OpenRequest, onNewBlock: bool, latest: Option<JobTemplate>,
                    built: Option<Coinbase>, now: real)
    requires s.Valid() && Proper(r) && !Refused(s, r, latest)
    ensures var after, c := Opened(rules, s, r, onNewBlock, latest, built, now),
                            OpenedChannel(rules, r, onNewBlock, latest, built, now);
            && after.lanes.Keys == s.lanes.Keys + {r.id}
            && after.lanes[r.id] == if latest.None? then Joined(c)
                                    else AfterDispatch(Joined(c), FirstWorkSent(rules, c, latest.value, now))
  {
  }

  lemma NoneOpened(rules: Rules, feed: Feed, s: SessionState, e: Event)
    requires s.Valid() && Possible(s, e) && !e.Open?
    ensures Step(rules, feed, s, e).lanes.Keys == s.lanes.Keys
  {
  }

  /** Only an open that is not refused makes a channel, and then the one asked for. */
  lemma StepChannels(rules: Rules, feed: Feed, s: SessionState, e: Event)
    requires s.Valid() && Possible(s, e)
    ensures var opens := e.Open? && !Refused(s, e.request, TemplateOf(feed, e.latest));
            && Step(rules, feed, s, e).lanes.Keys == s.lanes.Keys + (if opens then {e.request.id} else {})
            && (opens ==> Step(rules, feed, s, e).lanes[e.request.id] == LaneOpened(rules, feed, e))
  {
    if !e.Open? {
      NoneOpened(rules, feed, s, e);
    } else if !Refused(s, e.request, TemplateOf(feed, e.latest)) {
      OpenedLanes(rules, s, e.request, e.onNewBlock, TemplateOf(feed, e.latest), e.built, e.now);
    }
  }

  /** However many are asked for, a session never has more than sixteen channels. */
  lemma ChannelLimit(rules: Rules, feed: Feed, s: SessionState, e: Event)
    requires s.Valid() && Possible(s, e) && |s.lanes.Keys| <= 16
    ensures |Step(rules, feed, s, e).lanes.Keys| <= 16
  {
    StepChannels(rules, feed, s, e);
    assert |s.lanes| == |s.lanes.Keys|;
  }

  lemma Greeted(rules: Rules, feed: Feed, e: Event)
    requires e.Open? && Proper(e.request)
    ensures var l := LaneOpened(rules, feed, e);
            l.log != [] && l.log[0] == Welcome(OpenedChannel(rules, e.request, e.onNewBlock, TemplateOf(feed, e.latest), e.built, e.now))
  {
  }

  /** The miner of a new channel is told the target of its start difficulty first, and the extranonce it was given; on an extended
      channel as much room for its own as the coinbase reserves, which is some and no less than it asked for. */
  lemma OpenedAsAsked(rules: Rules, feed: Feed, s: SessionState, e: Event)
    requires s.Valid() && Possible(s, e) && e.Open? && !Refused(s, e.request, TemplateOf(feed, e.latest))
    requires e.latest.Some? ==> feed(e.latest.value).extraNonce2Size < 0x1_0000
    ensures e.request.isExtended ==> e.latest.Some?
    ensures var r, log := e.request, LaneOpened(rules, feed, e).log;
            var room := if r.isExtended then feed(e.latest.value).extraNonce2Size else 0;
            && log != []
            && log[0] == OpenSuccess(rules.toTarget(if r.startDiff <= 0.0 then 512.0 else r.startDiff), r.extranonce1, room)
            && (r.isExtended ==> room > 0 && room >= r.minExtranonceSize)
  {
    Greeted(rules, feed, e);
  }
}
