// The SV2 session as the program keeps it: channel objects, a template store and one stream of outgoing frames.
module Sv2Server {
  import opened Bytes
  import opened Hex
  import opened LaneStore
  import opened Merkle
  import opened ShareHeader
  import opened Channel
  import opened Sv2Session

  datatype Packet = Packet(channel: nat, message: Message)

  /** What one channel sees of the stream. */
  function OnChannel(sent: seq<Packet>, id: nat): seq<Message>
    decreases |sent|
  {
    if sent == [] then []
    else
      var before, last := OnChannel(sent[..|sent| - 1], id), sent[|sent| - 1];
      if last.channel == id then before + [last.message] else before
  }

  function MinerOf(sent: seq<Packet>, id: nat): Miner {
    ReceiveAll(NEW_MINER, OnChannel(sent, id))
  }

  function Packets(id: nat, msgs: seq<Message>): (ps: seq<Packet>)
    ensures |ps| == |msgs|
  {
    if msgs == [] then [] else Packets(id, msgs[..|msgs| - 1]) + [Packet(id, msgs[|msgs| - 1])]
  }

  lemma OnePacketMore(sent: seq<Packet>, p: Packet, other: nat)
    ensures OnChannel(sent + [p], other)
         == if p.channel == other then OnChannel(sent, other) + [p.message] else OnChannel(sent, other)
  {
    assert (sent + [p])[..|sent|] == sent;
  }

  lemma {:induction false} PacketsArrive(sent: seq<Packet>, id: nat, msgs: seq<Message>, other: nat)
    ensures OnChannel(sent + Packets(id, msgs), other)
         == if other == id then OnChannel(sent, id) + msgs else OnChannel(sent, other)
    decreases |msgs|
  {
    if msgs == [] {
      assert sent + Packets(id, msgs) == sent;
    } else {
      var front, last := msgs[..|msgs| - 1], msgs[|msgs| - 1];
      assert sent + Packets(id, msgs) == sent + Packets(id, front) + [Packet(id, last)];
      OnePacketMore(sent + Packets(id, front), Packet(id, last), other);
      PacketsArrive(sent, id, front, other);
      assert msgs == front + [last];
    }
  }

  lemma PacketsTo(id: nat, msgs: seq<Message>)
    ensures forall i :: 0 <= i < |msgs| ==> Packets(id, msgs)[i].channel == id
  {
  }

  lemma OneMorePacket(sent: seq<Packet>, id: nat, msgs: seq<Message>, msg: Message)
    ensures sent + Packets(id, msgs + [msg]) == sent + Packets(id, msgs) + [Packet(id, msg)]
  {
    assert (msgs + [msg])[..|msgs|] == msgs;
  }

  lemma MinersAfter(sent: seq<Packet>, id: nat, msgs: seq<Message>, other: nat)
    ensures MinerOf(sent + Packets(id, msgs), other)
         == if other == id then ReceiveAll(MinerOf(sent, id), msgs) else MinerOf(sent, other)
  {
    PacketsArrive(sent, id, msgs, other);
    ReceiveMore(NEW_MINER, OnChannel(sent, id), msgs);
  }

  method OldestJob(keys: set<nat>) returns (oldest: nat)
    requires keys != {}
    ensures oldest == Oldest(keys)
  {
    var left := keys;
    oldest :| oldest in left;
    left := left - {oldest};
    while left != {}
      invariant left <= keys && IsLeast(oldest, keys - left)
      decreases |left|
    {
      var id :| id in left;
      if id < oldest {
        oldest := id;
      }
      left := left - {id};
    }
    assert keys - left == keys;
  }

  /** What the stream and the channels come to: each channel beside the miner that follows what was sent on it. */
  ghost predicate Tracks(lanes: map<nat, Lane>, channels: map<nat, ChannelState>, sent: seq<Packet>) {
    && lanes.Keys == channels.Keys
    && (forall id :: id in channels ==> TracksOne(lanes, channels, sent, id))
    && (forall i :: 0 <= i < |sent| ==> sent[i].channel in channels)
  }

  ghost predicate TracksOne(lanes: map<nat, Lane>, channels: map<nat, ChannelState>, sent: seq<Packet>, id: nat)
    requires id in channels
  {
    && id in lanes && lanes[id] == Lane(channels[id], MinerOf(sent, id), OnChannel(sent, id))
    && channels[id].Valid() && channels[id].info.id == id
  }

  lemma TracksSend(lanes: map<nat, Lane>, channels: map<nat, ChannelState>, sent: seq<Packet>, id: nat, d: Dispatch)
    requires Tracks(lanes, channels, sent) && id in channels && FitsLane(lanes[id], d)
    ensures Tracks(lanes[id := AfterDispatch(lanes[id], d)], channels[id := d.channel], sent + Packets(id, d.messages))
  {
    PacketsTo(id, d.messages);
    var lanes', channels', sent' := lanes[id := AfterDispatch(lanes[id], d)], channels[id := d.channel],
                                    sent + Packets(id, d.messages);
    forall other | other in channels'
      ensures TracksOne(lanes', channels', sent', other)
    {
      assert TracksOne(lanes, channels, sent, other);
      MinersAfter(sent, id, d.messages, other);
      PacketsArrive(sent, id, d.messages, other);
    }
  }

  lemma TracksSendFrom(lanes: map<nat, Lane>, channels: map<nat, ChannelState>, sent: seq<Packet>, id: nat, d: Dispatch)
    requires Tracks(lanes, channels, sent) && id in channels && d.channel.Valid() && d.channel.info == channels[id].info
    ensures id in lanes && channels[id] == lanes[id].channel && channels[id].Valid() && channels[id].info.id == id
    ensures Tracks(lanes[id := AfterDispatch(lanes[id], d)], channels[id := d.channel], sent + Packets(id, d.messages))
  {
    assert TracksOne(lanes, channels, sent, id);
    TracksSend(lanes, channels, sent, id, d);
  }

  lemma {:induction false} NothingSent(sent: seq<Packet>, id: nat)
    requires forall i :: 0 <= i < |sent| ==> sent[i].channel != id
    ensures OnChannel(sent, id) == []
    decreases |sent|
  {
    if sent != [] {
      NothingSent(sent[..|sent| - 1], id);
    }
  }

  lemma FirstMessage(m: Miner, msg: Message)
    ensures ReceiveAll(m, [msg]) == Receive(m, msg)
  {
    assert [msg][..0] == [];
    assert ReceiveAll(m, []) == m;
  }

  lemma JoinSeen(sent: seq<Packet>, id: nat, msg: Message, other: nat)
    requires forall i :: 0 <= i < |sent| ==> sent[i].channel != id
    ensures MinerOf(sent + [Packet(id, msg)], other) ==
            if other == id then Receive(NEW_MINER, msg) else MinerOf(sent, other)
    ensures OnChannel(sent + [Packet(id, msg)], other) == if other == id then [msg] else OnChannel(sent, other)
  {
    OnePacketMore(sent, Packet(id, msg), other);
    if other == id {
      NothingSent(sent, id);
      assert [] + [msg] == [msg];
      FirstMessage(NEW_MINER, msg);
    }
  }

  lemma TracksJoin(lanes: map<nat, Lane>, channels: map<nat, ChannelState>, sent: seq<Packet>, c: ChannelState)
    requires Tracks(lanes, channels, sent) && c.info.id !in channels && c.Valid()
    ensures Tracks(lanes[c.info.id := Lane(c, Receive(NEW_MINER, Welcome(c)), [Welcome(c)])], channels[c.info.id := c],
                   sent + [Packet(c.info.id, Welcome(c))])
  {
    var id, msg := c.info.id, Welcome(c);
    var lanes', channels' := lanes[id := Lane(c, Receive(NEW_MINER, msg), [msg])], channels[id := c];
    forall other | other in channels'
      ensures TracksOne(lanes', channels', sent + [Packet(id, msg)], other)
    {
      JoinSeen(sent, id, msg, other);
      if other != id {
        assert TracksOne(lanes, channels, sent, other);
      }
    }
  }

  lemma TracksRecord(lanes: map<nat, Lane>, channels: map<nat, ChannelState>, sent: seq<Packet>, id: nat, now: real)
    requires Tracks(lanes, channels, sent) && id in channels && channels[id].Valid()
    ensures var c := ShareRecorded(channels[id], now);
            Tracks(lanes[id := lanes[id].(channel := c)], channels[id := c], sent)
  {
    assert TracksOne(lanes, channels, sent, id);
    forall other | other in channels && other != id
      ensures TracksOne(lanes, channels, sent, other)
    {
    }
  }

  function GivenFirst(rules: Rules, s: SessionState, id: nat, t: JobTemplate, now: real): (r: SessionState)
    requires s.Valid() && id in s.lanes
    ensures r.Valid()
  {
    Sent(s, t.jobID, id, FirstWorkSent(rules, s.lanes[id].channel, t, now)).(lastJobID := t.jobID)
  }

  lemma JoinedValid(s: SessionState, c: ChannelState)
    requires s.Valid() && c.Valid()
    ensures s.(lanes := s.lanes[c.info.id := Lane(c, Receive(NEW_MINER, Welcome(c)), [Welcome(c)])]).Valid()
  {
  }

  /** Joined, and given the latest work if there is any, is what a channel opened comes to. */
  lemma OpenedInSteps(rules: Rules, s: SessionState, r: OpenRequest, onNewBlock: bool, latest: Option<JobTemplate>,
                      built: Option<Coinbase>, now: real, joined: SessionState)
    requires s.Valid() && Proper(r) && !Refused(s, r, latest)
    requires var c := OpenedChannel(rules, r, onNewBlock, latest, built, now);
             joined == s.(lanes := s.lanes[r.id := Lane(c, Receive(NEW_MINER, Welcome(c)), [Welcome(c)])])
    ensures joined.Valid()
    ensures Opened(rules, s, r, onNewBlock, latest, built, now)
         == if latest.Some? then GivenFirst(rules, joined, r.id, latest.value, now) else joined
  {
    var c := OpenedChannel(rules, r, onNewBlock, latest, built, now);
    JoinedValid(s, c);
    assert joined.lanes[r.id].channel == c;
  }

  /** The session holds its channels by value: each belongs to it alone, and what class Channel's methods do to one is what the
      functions used here make of its state. */
  class Session {
    const rules: Rules
    const vardiffOnNewBlock: bool
    var channels: map<nat, ChannelState>
    var templates: Store<JobTemplate>
    var lastJobID: nat
    var sent: seq<Packet>
    ghost var lanes: map<nat, Lane>

    ghost predicate Valid()
      reads this
    {
      Tracks(lanes, channels, sent)
    }

    ghost function View(): (s: SessionState)
      requires Valid()
      reads this
      ensures s.Valid() && s.lanes.Keys == channels.Keys
    {
      assert forall id :: id in lanes ==> TracksOne(lanes, channels, sent, id);
      SessionState(lanes, templates, lastJobID)
    }

    constructor (rules: Rules, vardiffOnNewBlock: bool)
      ensures Valid() && View() == NEW_SESSION
      ensures this.rules == rules && this.vardiffOnNewBlock == vardiffOnNewBlock
    {
      this.rules, this.vardiffOnNewBlock := rules, vardiffOnNewBlock;
      channels, templates, lastJobID, sent, lanes := map[], map[], 0, [], map[];
    }

    /** A pending difficulty that is due goes out before the job; the template is kept as this channel resolved it. */
    method SendJob(c: ChannelState, t: JobTemplate, future: bool, now: real) returns (ch: ChannelState)
      requires c.Valid()
      modifies `templates, `sent
      ensures var d := JobSent(rules, c, t, future, now);
              && ch == d.channel
              && templates == WithStored(old(templates), t.jobID, c.info.id, d.stored)
              && sent == old(sent) + Packets(c.info.id, d.messages)
    {
      var messages;
      ch, messages := ReadyChannel(c, t.jobID, future, now);
      var stored := OwnTemplate(ch, t);
      templates := WithStored(templates, t.jobID, c.info.id, stored);
      messages := messages + [JobMessage(rules, ch.info, stored, future)];
      sent := sent + Packets(c.info.id, messages);
    }

    method ReadyChannel(c: ChannelState, jobID: nat, future: bool, now: real)
      returns (ch: ChannelState, messages: seq<Message>)
      requires c.Valid()
      ensures ch == Readied(c, jobID, future, now) && messages == TargetMessages(ch, FlushDue(c, future))
    {
      ch := WithCurrentJob(c, jobID);
      messages := [];
      if ch.pendingDiff > 0.0 && (!ch.info.vardiffOnNewBlock || !future) {
        ch := Flushed(ch, now);
        messages := [SetTarget(ch.poolTarget)];
      }
    }

    method OwnTemplate(c: ChannelState, t: JobTemplate) returns (stored: JobTemplate)
      ensures stored == Resolved(c, t)
    {
      stored := t;
      if c.ownCoinbase.Some? {
        stored := t.(coinbase1 := c.ownCoinbase.value.coinbase1, coinbase2 := c.ownCoinbase.value.coinbase2);
      }
    }

    /** One channel's part of a new template: a new prev-hash follows the job that was staged for it. */
    method SendWork(c: ChannelState, t: JobTemplate, built: Option<Coinbase>, now: real) returns (ch: ChannelState)
      requires c.Valid()
      modifies `templates, `sent
      ensures var d := WorkSent(rules, c, t, built, now);
              && ch == d.channel
              && templates == WithStored(old(templates), t.jobID, c.info.id, d.stored)
              && sent == old(sent) + Packets(c.info.id, d.messages)
    {
      ch := if built.Some? then c.(ownCoinbase := built) else c;
      var newBlock := ch.activePrevHash != t.prevHash;
      ch := ch.(activePrevHash := t.prevHash);
      ghost var d := JobSent(rules, ch, t, newBlock, now);
      ch := SendJob(ch, t, newBlock, now);
      if newBlock {
        sent := sent + [Packet(c.info.id, PrevHashMessage(t))];
        OneMorePacket(old(sent), c.info.id, d.messages, PrevHashMessage(t));
      }
    }

    /** The first work of a channel: the prev-hash follows in any case. */
    method SendFirstWork(c: ChannelState, t: JobTemplate, now: real) returns (ch: ChannelState)
      requires c.Valid()
      modifies `templates, `sent
      ensures var d := FirstWorkSent(rules, c, t, now);
              && ch == d.channel
              && templates == WithStored(old(templates), t.jobID, c.info.id, d.stored)
              && sent == old(sent) + Packets(c.info.id, d.messages)
    {
      var newBlock := c.activePrevHash != t.prevHash;
      ghost var d := JobSent(rules, c.(activePrevHash := t.prevHash), t, newBlock, now);
      FirstWorkIs(rules, c, t, now, d);
      ch := SendJob(c.(activePrevHash := t.prevHash), t, newBlock, now);
      sent := sent + [Packet(c.info.id, PrevHashMessage(t))];
      OneMorePacket(old(sent), c.info.id, d.messages, PrevHashMessage(t));
    }

    method SendWorkTo(id: nat, t: JobTemplate, built: map<nat, Coinbase>, now: real)
      requires Valid() && id in channels && id in lanes && lanes[id].channel.Valid()
      modifies `channels, `templates, `sent, `lanes
      ensures Valid() && channels.Keys == old(channels).Keys
      ensures var d := WorkSent(rules, old(lanes[id]).channel, t, BuiltFor(built, id), now);
              lanes == old(lanes)[id := AfterDispatch(old(lanes[id]), d)]
              && templates == WithStored(old(templates), t.jobID, id, d.stored)
    {
      assert TracksOne(lanes, channels, sent, id);
      ghost var d := WorkSent(rules, channels[id], t, BuiltFor(built, id), now);
      var ch := SendWork(channels[id], t, BuiltFor(built, id), now);
      PutChannel(id, ch, old(sent), d);
    }

    /** The channel as it is once its messages are on the stream. */
    method PutChannel(id: nat, ch: ChannelState, ghost was: seq<Packet>, ghost d: Dispatch)
      requires id in channels && id in lanes && ch == d.channel
      requires Tracks(lanes, channels, was) && sent == was + Packets(id, d.messages)
      requires d.channel.Valid() && d.channel.info == channels[id].info
      modifies `channels, `lanes
      ensures Valid() && channels == old(channels)[id := ch] && channels.Keys == old(channels).Keys
      ensures lanes == old(lanes)[id := AfterDispatch(old(lanes[id]), d)]
    {
      TracksSendFrom(lanes, channels, was, id, d);
      channels := channels[id := ch];
      lanes := lanes[id := AfterDispatch(lanes[id], d)];
    }

    method Evict()
      modifies `templates
      ensures templates == Evicted(old(templates))
    {
      if |templates| > MAX_TEMPLATE_HISTORY {
        assert |templates| == |templates.Keys|;
        var oldest := OldestJob(templates.Keys);
        templates := templates - {oldest};
      }
    }

    /** `order` is the order in which the channels happen to be visited. */
    method UpdateTemplate(t: JobTemplate, order: seq<nat>, built: map<nat, Coinbase>, now: real)
      requires Valid() && IsOrder(order, channels.Keys)
      modifies this
      ensures Valid() && channels.Keys == old(channels).Keys
      ensures View() == Updated(rules, old(View()), order, t, built, now)
    {
      lastJobID := t.jobID;
      Evict();
      ghost var begun := View();
      assert order[0..] == order;
      for i := 0 to |order|
        invariant Valid() && channels.Keys == old(channels).Keys
        invariant WorkedAll(rules, View(), order[i..], t, built, now) == WorkedAll(rules, begun, order, t, built, now)
      {
        assert order[i..][1..] == order[i + 1..];
        assert TracksOne(lanes, channels, sent, order[i]);
        SendWorkTo(order[i], t, built, now);
      }
    }

    method ResendTo(id: nat, t: JobTemplate, now: real)
      requires Valid() && id in channels && id in lanes && lanes[id].channel.Valid()
      modifies `channels, `templates, `sent, `lanes
      ensures Valid() && channels.Keys == old(channels).Keys
      ensures var d := JobSent(rules, old(lanes[id]).channel, t, false, now);
              lanes == old(lanes)[id := AfterDispatch(old(lanes[id]), d)]
              && templates == WithStored(old(templates), t.jobID, id, d.stored)
    {
      assert TracksOne(lanes, channels, sent, id);
      ghost var d := JobSent(rules, channels[id], t, false, now);
      var ch := SendJob(channels[id], t, false, now);
      PutChannel(id, ch, old(sent), d);
    }

    method ResendTurn(id: nat, byChannel: map<nat, JobTemplate>, now: real)
      requires Valid() && id in channels
      modifies `channels, `templates, `sent, `lanes
      ensures Valid() && channels.Keys == old(channels).Keys
      ensures View() == ResentOne(rules, old(View()), id, byChannel, now)
    {
      if id in byChannel {
        assert TracksOne(lanes, channels, sent, id);
        ResendTo(id, byChannel[id], now);
      }
    }

    method Keepalive(order: seq<nat>, now: real)
      requires Valid() && IsOrder(order, channels.Keys)
      modifies this
      ensures Valid() && channels.Keys == old(channels).Keys
      ensures View() == KeptAlive(rules, old(View()), order, now)
    {
      var byChannel := Under(templates, lastJobID);
      assert order[0..] == order;
      for i := 0 to |order|
        invariant Valid() && channels.Keys == old(channels).Keys
        invariant ResentAll(rules, View(), order[i..], byChannel, now)
               == ResentAll(rules, old(View()), order, byChannel, now)
      {
        assert order[i..][1..] == order[i + 1..];
        ResendTurn(order[i], byChannel, now);
      }
    }

    /** What the session answers to a request for a channel. */
    method Refuses(r: OpenRequest, latest: Option<JobTemplate>) returns (refused: bool)
      requires Valid()
      ensures refused == Refused(View(), r, latest)
    {
      assert |View().lanes.Keys| == |channels.Keys| && |channels| == |channels.Keys| && |lanes| == |lanes.Keys|;
      if |channels| >= MAX_CHANNELS {
        return true;
      }
      var reserved := Reserved(latest);
      refused := r.isExtended && (reserved == 0 || r.minExtranonceSize > reserved % 0x1_0000);
    }

    /** Nothing can have been sent yet on a channel that is only now opened. */
    method JoinChannel(r: OpenRequest, latest: Option<JobTemplate>, built: Option<Coinbase>, now: real)
      requires Valid() && Proper(r) && r.id !in channels
      modifies `channels, `sent, `lanes
      ensures Valid() && channels.Keys == old(channels).Keys + {r.id}
      ensures var c := OpenedChannel(rules, r, vardiffOnNewBlock, latest, built, now);
              channels[r.id] == c && lanes == old(lanes)[r.id := Lane(c, Receive(NEW_MINER, Welcome(c)), [Welcome(c)])]
    {
      var c := OpenedChannel(rules, r, vardiffOnNewBlock, latest, built, now);
      TracksJoin(lanes, channels, sent, c);
      channels := channels[r.id := c];
      sent := sent + [Packet(r.id, Welcome(c))];
      lanes := lanes[r.id := Lane(c, Receive(NEW_MINER, Welcome(c)), [Welcome(c)])];
    }

    method SendFirstWorkTo(id: nat, t: JobTemplate, now: real)
      requires Valid() && id in channels && id in lanes && lanes[id].channel.Valid()
      modifies `channels, `templates, `sent, `lanes
      ensures Valid() && channels.Keys == old(channels).Keys
      ensures var d := FirstWorkSent(rules, old(lanes[id]).channel, t, now);
              lanes == old(lanes)[id := AfterDispatch(old(lanes[id]), d)]
              && templates == WithStored(old(templates), t.jobID, id, d.stored)
    {
      assert TracksOne(lanes, channels, sent, id);
      ghost var d := FirstWorkSent(rules, channels[id], t, now);
      var ch := SendFirstWork(channels[id], t, now);
      PutChannel(id, ch, old(sent), d);
    }

    method GiveFirstWork(id: nat, t: JobTemplate, now: real)
      requires Valid() && id in channels
      modifies this
      ensures Valid() && channels.Keys == old(channels).Keys
      ensures View() == GivenFirst(rules, old(View()), id, t, now)
    {
      assert TracksOne(lanes, channels, sent, id);
      SendFirstWorkTo(id, t, now);
      lastJobID := t.jobID;
    }

    /** Opens a channel unless it is refused, and gives it work when there is a template. */
    method OpenChannel(r: OpenRequest, latest: Option<JobTemplate>, built: Option<Coinbase>, now: real) returns (ok: bool)
      requires Valid() && Proper(r) && r.id !in channels
      modifies this
      ensures Valid() && ok == !Refused(old(View()), r, latest)
      ensures View() == Opened(rules, old(View()), r, vardiffOnNewBlock, latest, built, now)
    {
      var refused := Refuses(r, latest);
      ok := !refused;
      if ok {
        JoinChannel(r, latest, built, now);
        OpenedInSteps(rules, old(View()), r, vardiffOnNewBlock, latest, built, now, View());
        if latest.Some? {
          GiveFirstWork(r.id, latest.value, now);
        }
      }
    }

    /** The reply to a share; an accepted one is recorded with its channel. */
    method SubmitShare(share: Share, staleGrace: bool, lowDiffGrace: real, now: real) returns (reply: Reply)
      requires Valid()
      modifies `channels, `lanes
      ensures Valid() && reply == Judged(rules, old(View()), share, staleGrace, lowDiffGrace, now)
      ensures View() == Submitted(rules, old(View()), share, staleGrace, lowDiffGrace, now)
    {
      var id := share.channelID;
      if id !in channels {
        return UnknownChannel;
      }
      assert TracksOne(lanes, channels, sent, id);
      var ch := channels[id];
      if !IsJobValid(ch, share.jobID) && !staleGrace {
        return StaleShare;
      }
      if share.jobID !in templates || id !in templates[share.jobID] {
        return StaleShare;
      }
      var hash := ShareHash(rules.sha, ch.info, templates[share.jobID][id], share);
      if HashNumber(hash) > ch.poolTarget && !InLowDiffGrace(ch, hash, lowDiffGrace, now) {
        return LowDifficulty;
      }
      RecordShare(id, now);
      reply := ShareAccepted;
    }

    method RecordShare(id: nat, now: real)
      requires Valid() && id in channels
      modifies `channels, `lanes
      ensures Valid()
      ensures View() == old(View()).(lanes := old(lanes)[id := old(lanes)[id].(channel := ShareRecorded(old(channels[id]), now))])
    {
      assert TracksOne(lanes, channels, sent, id);
      TracksRecord(lanes, channels, sent, id, now);
      channels := channels[id := ShareRecorded(channels[id], now)];
      lanes := lanes[id := lanes[id].(channel := channels[id])];
    }
  }
}
