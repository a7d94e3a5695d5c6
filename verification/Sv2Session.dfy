// One SV2 connection as values: its channels, its template store, and what each handler does to them.
module Sv2Session {
  import opened Bytes
  import opened Hex
  import opened LaneStore
  import opened Merkle
  import opened ShareHeader
  import opened Target
  import opened Channel
  import VarDiff

  const MAX_CHANNELS := 16
  const MAX_TEMPLATE_HISTORY := 20

  // ---- Messages, and the miner that follows them ----

  /** What a job tells the miner to hash: a finished root, or the parts to build one from. */
  datatype Payload =
    | MerkleRoot(root: Hash)
    | Halves(coinbase1: seq<byte>, coinbase2: seq<byte>, merklePath: seq<Hash>)

  datatype Message =
    | OpenSuccess(target: nat, extranonce1: seq<byte>, extranonceSize: nat)
    | NewJob(jobID: nat, minNtime: Option<nat>, version: nat, payload: Payload)
    | SetNewPrevHash(jobID: nat, prevHash: Hash, nTime: nat, nBits: nat)
    | SetTarget(target: nat)

  /** A client doing what section 5.3.15 of the SV2 Mining Protocol asks. `jobs` and `workedOn` are its memory: the last
      payload of each job ID and the prev-hash the job was put to work on. */
  datatype Miner = Miner(target: nat, staged: set<nat>, active: nat, prevHash: Option<Hash>,
                         jobs: map<nat, Payload>, workedOn: map<nat, Hash>, first: nat, fault: bool)

  const NEW_MINER := Miner(0, {}, 0, None, map[], map[], 0, false)

  /** A job without min_ntime is staged. One with it starts at once, which takes a prev-hash to start on. A new prev-hash
      starts the staged job it names and drops the others. Anything else is a protocol fault. */
  function Receive(m: Miner, msg: Message): Miner {
    match msg
    case OpenSuccess(target, _, _) => m.(target := target)
    case SetTarget(target) => m.(target := target)
    case NewJob(j, minNtime, _, payload) =>
      var known := m.(jobs := m.jobs[j := payload], first := if m.first == 0 then j else m.first);
      if minNtime.None? then known.(staged := m.staged + {j})
      else if m.prevHash.None? then known.(fault := true)
      else known.(staged := m.staged - {j}, active := j, workedOn := m.workedOn[j := m.prevHash.value])
    case SetNewPrevHash(j, prevHash, _, _) =>
      if j !in m.staged then m.(fault := true)
      else m.(staged := {}, active := j, prevHash := Some(prevHash), workedOn := m.workedOn[j := prevHash])
  }

  function ReceiveAll(m: Miner, msgs: seq<Message>): Miner
    decreases |msgs|
  {
    if msgs == [] then m else Receive(ReceiveAll(m, msgs[..|msgs| - 1]), msgs[|msgs| - 1])
  }

  lemma {:induction false} ReceiveMore(m: Miner, msgs: seq<Message>, more: seq<Message>)
    ensures ReceiveAll(m, msgs + more) == ReceiveAll(ReceiveAll(m, msgs), more)
    decreases |more|
  {
    var all := msgs + more;
    if more == [] {
      assert all == msgs;
    } else {
      assert all[..|all| - 1] == msgs + more[..|more| - 1];
      ReceiveMore(m, msgs, more[..|more| - 1]);
    }
  }

  // ---- Sending work to one channel ----

  /** The template as this channel mines it: with the channel's own coinbase when it has one. */
  function Resolved(c: ChannelState, t: JobTemplate): JobTemplate {
    match c.ownCoinbase
    case None => t
    case Some(own) => t.(coinbase1 := own.coinbase1, coinbase2 := own.coinbase2)
  }

  /** A standard channel's extranonce2 space is filled with zeros. */
  function StandardRoot(sha: Sha256d, info: ChannelInfo, t: JobTemplate): Hash {
    Sv2Root(sha, t, info.extranonce1, Zeros(t.extraNonce2Size))
  }

  /** How a job's payload is made and how a difficulty becomes a target. The protocol is the same for all such rules. */
  datatype Rules = Rules(sha: Sha256d, payload: (ChannelInfo, JobTemplate) -> Payload, toTarget: real -> nat)

  /** The rules of the program, for a given hash function. */
  function RulesOf(sha: Sha256d): Rules {
    Rules(sha,
          (info: ChannelInfo, t: JobTemplate) =>
            if info.isExtended then Halves(t.coinbase1, t.coinbase2, t.merkleBranch)
            else MerkleRoot(StandardRoot(sha, info, t)),
          d => Sv2DifficultyToTarget(d))
  }

  predicate FlushDue(c: ChannelState, future: bool) {
    c.pendingDiff > 0.0 && (!c.info.vardiffOnNewBlock || !future)
  }

  /** The channel afterwards, the template copy its shares will be validated with, and the messages sent. */
  datatype Dispatch = Dispatch(channel: ChannelState, stored: JobTemplate, messages: seq<Message>)

  /** The channel as a job goes out: it is the current one now, and a difficulty change that was due is made. */
  function Readied(c: ChannelState, jobID: nat, future: bool, now: real): (r: ChannelState)
    requires c.Valid()
    ensures r.Valid() && r.info == c.info && r.currentJobID == jobID && r.ownCoinbase == c.ownCoinbase
    ensures r.activePrevHash == c.activePrevHash
  {
    var tracked := WithCurrentJob(c, jobID);
    if FlushDue(tracked, future) then Flushed(tracked, now) else tracked
  }

  /** A future job carries no min_ntime. */
  function JobMessage(rules: Rules, info: ChannelInfo, t: JobTemplate, future: bool): Message {
    NewJob(t.jobID, if future then None else Some(t.nTime), t.version, rules.payload(info, t))
  }

  function TargetMessages(c: ChannelState, due: bool): seq<Message> {
    if due then [SetTarget(c.poolTarget)] else []
  }

  /** A job, behind a target when a difficulty change is due. */
  function JobSent(rules: Rules, c: ChannelState, t: JobTemplate, future: bool, now: real): (d: Dispatch)
    requires c.Valid()
    ensures d.channel.Valid() && d.channel.info == c.info
  {
    var ready, own := Readied(c, t.jobID, future, now), Resolved(c, t);
    Dispatch(ready, own, TargetMessages(ready, FlushDue(c, future)) + [JobMessage(rules, c.info, own, future)])
  }

  function PrevHashMessage(t: JobTemplate): Message {
    SetNewPrevHash(t.jobID, t.prevHash, t.nTime, t.nBits)
  }

  /** A coinbase that could not be built leaves the channel with the one it had. */
  function Rebuilt(c: ChannelState, built: Option<Coinbase>): (r: ChannelState)
    requires c.Valid()
    ensures r.Valid() && r.info == c.info
  {
    if built.Some? then c.(ownCoinbase := built) else c
  }

  /** New work: staged and then activated when it is on a new prev-hash, active at once when not. */
  function WorkSent(rules: Rules, c: ChannelState, t: JobTemplate, built: Option<Coinbase>, now: real): (d: Dispatch)
    requires c.Valid()
    ensures d.channel.Valid() && d.channel.info == c.info
  {
    var newBlock := c.activePrevHash != t.prevHash;
    var d := JobSent(rules, Rebuilt(c, built).(activePrevHash := t.prevHash), t, newBlock, now);
    if newBlock then d.(messages := d.messages + [PrevHashMessage(t)]) else d
  }

  /** New work makes a waiting difficulty change, telling the miner first, exactly when the channel does not put changes off or
      the work is on the prev-hash already active. */
  lemma ChangeMadeIff(rules: Rules, c: ChannelState, t: JobTemplate, built: Option<Coinbase>, now: real)
    requires c.Valid() && c.pendingDiff > 0.0
    ensures var d, due := WorkSent(rules, c, t, built, now), !c.info.vardiffOnNewBlock || c.activePrevHash == t.prevHash;
            && d.messages[0] == (if due then SetTarget(c.info.toTarget(c.pendingDiff))
                                 else JobMessage(rules, c.info, d.stored, true))
            && d.channel.pendingDiff == (if due then 0.0 else c.pendingDiff)
            && d.channel.poolDifficulty == (if due then c.pendingDiff else c.poolDifficulty)
  {
  }

  /** The first work of a channel: the prev-hash follows whether or not it was found to be new. */
  function FirstWorkSent(rules: Rules, c: ChannelState, t: JobTemplate, now: real): (d: Dispatch)
    requires c.Valid()
    ensures d.channel.Valid() && d.channel.info == c.info
  {
    var newBlock := c.activePrevHash != t.prevHash;
    var d := JobSent(rules, c.(activePrevHash := t.prevHash), t, newBlock, now);
    d.(messages := d.messages + [PrevHashMessage(t)])
  }

  lemma FirstWorkIs(rules: Rules, c: ChannelState, t: JobTemplate, now: real, d: Dispatch)
    requires c.Valid()
    requires d == JobSent(rules, c.(activePrevHash := t.prevHash), t, c.activePrevHash != t.prevHash, now)
    ensures FirstWorkSent(rules, c, t, now) == Dispatch(d.channel, d.stored, d.messages + [PrevHashMessage(t)])
  {
  }

  // ---- The session ----

  /** A channel beside the miner at its other end; `log` is all it was ever sent, in order. */
  datatype Lane = Lane(channel: ChannelState, miner: Miner, log: seq<Message>)

  datatype SessionState = SessionState(lanes: map<nat, Lane>, templates: Store<JobTemplate>, lastJobID: nat)
  {
    predicate Valid() {
      forall id :: id in lanes ==> lanes[id].channel.Valid() && lanes[id].channel.info.id == id
    }
  }

  const NEW_SESSION := SessionState(map[], map[], 0)

  function AfterDispatch(l: Lane, d: Dispatch): Lane {
    Lane(d.channel, ReceiveAll(l.miner, d.messages), l.log + d.messages)
  }

  ghost predicate FitsLane(l: Lane, d: Dispatch) {
    d.channel.Valid() && d.channel.info == l.channel.info
  }

  /** The session once one channel has been sent its work under `jobID`. */
  function Sent(s: SessionState, jobID: nat, id: nat, d: Dispatch): (r: SessionState)
    requires s.Valid() && id in s.lanes && FitsLane(s.lanes[id], d)
    ensures r.Valid() && r.lanes.Keys == s.lanes.Keys
  {
    s.(lanes := s.lanes[id := AfterDispatch(s.lanes[id], d)], templates := WithStored(s.templates, jobID, id, d.stored))
  }

  ghost predicate IsLeast(m: nat, keys: set<nat>) {
    m in keys && forall k :: k in keys ==> m <= k
  }

  lemma {:induction false} LeastExists(keys: set<nat>) returns (m: nat)
    requires keys != {}
    ensures IsLeast(m, keys)
    decreases |keys|
  {
    var x :| x in keys;
    var rest := keys - {x};
    assert forall k :: k in keys ==> k == x || k in rest;
    m := x;
    if rest != {} {
      var least := LeastExists(rest);
      m := if x < least then x else least;
    }
  }

  ghost function Oldest(keys: set<nat>): (m: nat)
    requires keys != {}
    ensures IsLeast(m, keys)
  {
    assert exists m :: IsLeast(m, keys) by { var m := LeastExists(keys); }
    var m :| IsLeast(m, keys);
    m
  }

  /** At most one old job is forgotten per new template, and only above 20. */
  ghost function Evicted(templates: Store<JobTemplate>): Store<JobTemplate> {
    if |templates| > MAX_TEMPLATE_HISTORY then templates - {Oldest(templates.Keys)} else templates
  }

  /** An order in which a handler may come to the channels: each of them once, in whatever order. */
  ghost predicate IsOrder(order: seq<nat>, ids: set<nat>) {
    && (forall i :: 0 <= i < |order| ==> order[i] in ids)
    && (forall id :: id in ids ==> id in order)
    && (forall i, k :: 0 <= i < k < |order| ==> order[i] != order[k])
  }

  function BuiltFor(built: map<nat, Coinbase>, id: nat): Option<Coinbase> {
    if id in built then Some(built[id]) else None
  }

  /** One channel's part of a new template. */
  function Work(rules: Rules, s: SessionState, id: nat, t: JobTemplate, built: map<nat, Coinbase>, now: real): (d: Dispatch)
    requires s.Valid() && id in s.lanes
    ensures FitsLane(s.lanes[id], d)
  {
    WorkSent(rules, s.lanes[id].channel, t, BuiltFor(built, id), now)
  }

  function WorkedAll(rules: Rules, s: SessionState, order: seq<nat>, t: JobTemplate, built: map<nat, Coinbase>, now: real)
    : (r: SessionState)
    requires s.Valid() && forall i :: 0 <= i < |order| ==> order[i] in s.lanes
    ensures r.Valid() && r.lanes.Keys == s.lanes.Keys
    decreases |order|
  {
    if order == [] then s
    else
      WorkedAll(rules, Sent(s, t.jobID, order[0], Work(rules, s, order[0], t, built, now)), order[1..], t, built, now)
  }

  ghost function Begun(s: SessionState, jobID: nat): SessionState {
    s.(lastJobID := jobID, templates := Evicted(s.templates))
  }

  ghost function Updated(rules: Rules, s: SessionState, order: seq<nat>, t: JobTemplate, built: map<nat, Coinbase>,
                         now: real): (r: SessionState)
    requires s.Valid() && IsOrder(order, s.lanes.Keys)
    ensures r.Valid() && r.lanes.Keys == s.lanes.Keys
  {
    WorkedAll(rules, Begun(s, t.jobID), order, t, built, now)
  }

  /** A copy again, as an active job. */
  function Resend(rules: Rules, s: SessionState, id: nat, t: JobTemplate, now: real): (d: Dispatch)
    requires s.Valid() && id in s.lanes
    ensures FitsLane(s.lanes[id], d)
  {
    JobSent(rules, s.lanes[id].channel, t, false, now)
  }

  /** One channel's turn in a keepalive: a channel without a copy is passed over. */
  function ResentOne(rules: Rules, s: SessionState, id: nat, copies: map<nat, JobTemplate>, now: real): (r: SessionState)
    requires s.Valid() && id in s.lanes
    ensures r.Valid() && r.lanes.Keys == s.lanes.Keys && r.lastJobID == s.lastJobID
  {
    if id in copies then Sent(s, copies[id].jobID, id, Resend(rules, s, id, copies[id], now)) else s
  }

  function ResentAll(rules: Rules, s: SessionState, order: seq<nat>, copies: map<nat, JobTemplate>, now: real)
    : (r: SessionState)
    requires s.Valid() && forall i :: 0 <= i < |order| ==> order[i] in s.lanes
    ensures r.Valid() && r.lanes.Keys == s.lanes.Keys
    decreases |order|
  {
    if order == [] then s
    else ResentAll(rules, ResentOne(rules, s, order[0], copies, now), order[1..], copies, now)
  }

  ghost function KeptAlive(rules: Rules, s: SessionState, order: seq<nat>, now: real): (r: SessionState)
    requires s.Valid() && IsOrder(order, s.lanes.Keys)
    ensures r.Valid() && r.lanes.Keys == s.lanes.Keys
  {
    ResentAll(rules, s, order, Under(s.templates, s.lastJobID), now)
  }

  datatype OpenRequest = OpenRequest(id: nat, isExtended: bool, extranonce1: seq<byte>, minExtranonceSize: nat,
                                     cfg: Option<VarDiff.Config>, startDiff: real)

  function Reserved(latest: Option<JobTemplate>): nat {
    if latest.Some? then latest.value.extraNonce2Size else 0
  }

  /** Refused at the channel limit, and for an extended channel when the coinbase reserves too little space. */
  predicate Refused(s: SessionState, r: OpenRequest, latest: Option<JobTemplate>) {
    || |s.lanes| >= MAX_CHANNELS
    || (r.isExtended && (Reserved(latest) == 0 || r.minExtranonceSize > Reserved(latest) % 0x1_0000))
  }

  function InfoOf(rules: Rules, r: OpenRequest, onNewBlock: bool, latest: Option<JobTemplate>): ChannelInfo {
    ChannelInfo(r.id, r.isExtended, r.extranonce1, if r.isExtended then Reserved(latest) % 0x1_0000 else 0, onNewBlock,
                rules.toTarget)
  }

  predicate Proper(r: OpenRequest) {
    r.cfg.Some? ==> r.cfg.value.Valid()
  }

  function OpenedChannel(rules: Rules, r: OpenRequest, onNewBlock: bool, latest: Option<JobTemplate>,
                         built: Option<Coinbase>, now: real)
    : (c: ChannelState)
    requires Proper(r)
    ensures c.Valid() && c.info.id == r.id
  {
    Rebuilt(NewChannel(InfoOf(rules, r, onNewBlock, latest), r.cfg, r.startDiff, now), built)
  }

  function Welcome(c: ChannelState): Message {
    OpenSuccess(c.poolTarget, c.info.extranonce1, c.info.extranonce2Size)
  }

  /** With a template at hand the new channel is given work at once. */
  function Opened(rules: Rules, s: SessionState, r: OpenRequest, onNewBlock: bool, latest: Option<JobTemplate>,
                  built: Option<Coinbase>, now: real): (after: SessionState)
    requires s.Valid() && Proper(r)
    ensures after.Valid()
  {
    if Refused(s, r, latest) then s
    else
      var c := OpenedChannel(rules, r, onNewBlock, latest, built, now);
      var joined := s.(lanes := s.lanes[r.id := Lane(c, Receive(NEW_MINER, Welcome(c)), [Welcome(c)])]);
      match latest
      case None => joined
      case Some(t) => Sent(joined, t.jobID, r.id, FirstWorkSent(rules, c, t, now)).(lastJobID := t.jobID)
  }

  // ---- Shares ----

  /** An extended share carries the extranonce the miner rolled. */
  datatype Share = Share(channelID: nat, jobID: nat, version: nat, nTime: nat, nonce: nat, extranonce: Option<seq<byte>>)

  datatype Reply = UnknownChannel | StaleShare | LowDifficulty | ShareAccepted

  function ShareRoot(sha: Sha256d, info: ChannelInfo, t: JobTemplate, extranonce: Option<seq<byte>>): Hash {
    match extranonce
    case None => StandardRoot(sha, info, t)
    case Some(en2) => Sv2Root(sha, t, info.extranonce1, en2)
  }

  function ShareHash(sha: Sha256d, info: ChannelInfo, t: JobTemplate, share: Share): Hash {
    sha(BuildHeader(share.version, t.prevHash, ShareRoot(sha, info, t, share.extranonce), share.nTime, t.nBits, share.nonce))
  }

  /** Below the target a share may still clear the previous difficulty for a while after a change. */
  predicate InLowDiffGrace(c: ChannelState, hash: Hash, lowDiffGrace: real, now: real) {
    lowDiffGrace > 0.0 && c.prevDiff > 0.0 && now - c.diffChangedAt < lowDiffGrace && ShareDifficulty(hash) >= c.prevDiff
  }

  predicate HasTemplate(s: SessionState, jobID: nat, id: nat) {
    Stored(s.templates, jobID, id)
  }

  function Judged(rules: Rules, s: SessionState, share: Share, staleGrace: bool, lowDiffGrace: real, now: real): Reply {
    if share.channelID !in s.lanes then UnknownChannel
    else
      var c := s.lanes[share.channelID].channel;
      if !IsJobValid(c, share.jobID) && !staleGrace then StaleShare
      else if !HasTemplate(s, share.jobID, share.channelID) then StaleShare
      else
        var hash := ShareHash(rules.sha, c.info, s.templates[share.jobID][share.channelID], share);
        if HashNumber(hash) <= c.poolTarget || InLowDiffGrace(c, hash, lowDiffGrace, now) then ShareAccepted
        else LowDifficulty
  }

  function Submitted(rules: Rules, s: SessionState, share: Share, staleGrace: bool, lowDiffGrace: real, now: real)
    : (r: SessionState)
    requires s.Valid()
    ensures r.Valid()
  {
    if Judged(rules, s, share, staleGrace, lowDiffGrace, now) != ShareAccepted then s
    else
      var l := s.lanes[share.channelID];
      s.(lanes := s.lanes[share.channelID := l.(channel := ShareRecorded(l.channel, now))])
  }
}
