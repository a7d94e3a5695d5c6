// One SV2 mining channel: its jobs, its prev-hash, and its difficulty with a change waiting to be delivered.
module Channel {
  import opened Bytes
  import opened Hex
  import opened Merkle
  import VarDiff

  const DEFAULT_POOL_DIFFICULTY := 512.0
  const STALE_JOBS := 8

  /** What is fixed when a channel opens; `toTarget` is how a difficulty becomes a target. */
  datatype ChannelInfo = ChannelInfo(id: nat, isExtended: bool, extranonce1: seq<byte>, extranonce2Size: nat,
                                     vardiffOnNewBlock: bool, toTarget: real -> nat)

  datatype Tracker = Tracker(cfg: VarDiff.Config, state: VarDiff.State)

  datatype Coinbase = Coinbase(coinbase1: seq<byte>, coinbase2: seq<byte>)

  datatype ChannelState = ChannelState(info: ChannelInfo,
                                       currentJobID: nat,
                                       staleJobIDs: seq<nat>,
                                       activePrevHash: Hash,
                                       ownCoinbase: Option<Coinbase>,
                                       poolTarget: nat,
                                       poolDifficulty: real,
                                       pendingDiff: real,
                                       prevDiff: real,
                                       diffChangedAt: real,
                                       vardiff: Option<Tracker>)
  {
    predicate Valid() {
      && |staleJobIDs| == STALE_JOBS
      && (vardiff.Some? ==> vardiff.value.cfg.Valid())
    }
  }

  function StartDifficulty(startDiff: real): (d: real)
    ensures d > 0.0
  {
    if startDiff <= 0.0 then DEFAULT_POOL_DIFFICULTY else startDiff
  }

  function NewChannel(info: ChannelInfo, cfg: Option<VarDiff.Config>, startDiff: real, now: real): (c: ChannelState)
    requires cfg.Some? ==> cfg.value.Valid()
    ensures c.Valid()
  {
    var d := StartDifficulty(startDiff);
    ChannelState(info, 0, [0, 0, 0, 0, 0, 0, 0, 0], ZERO_HASH, None, info.toTarget(d), d, 0.0, 0.0, 0.0,
                 match cfg
                 case None => None
                 case Some(cfg) => Some(Tracker(cfg, VarDiff.State(d, [], now))))
  }

  /** The current job moves to the front of the recently superseded ones, the oldest of which is forgotten. */
  function WithCurrentJob(c: ChannelState, jobID: nat): (r: ChannelState)
    requires c.Valid()
    ensures r.Valid()
  {
    c.(currentJobID := jobID, staleJobIDs := [c.currentJobID] + c.staleJobIDs[..STALE_JOBS - 1])
  }

  predicate IsJobValid(c: ChannelState, jobID: nat) {
    jobID == c.currentJobID || (jobID != 0 && jobID in c.staleJobIDs)
  }

  /** A waiting difficulty takes effect, and the controller starts measuring afresh from it. */
  function Flushed(c: ChannelState, now: real): (r: ChannelState)
    requires c.Valid()
    ensures r.Valid()
  {
    if c.pendingDiff <= 0.0 then c
    else
      c.(pendingDiff := 0.0,
         prevDiff := c.poolDifficulty,
         diffChangedAt := now,
         poolTarget := c.info.toTarget(c.pendingDiff),
         poolDifficulty := c.pendingDiff,
         vardiff := match c.vardiff
                    case None => None
                    case Some(t) => Some(t.(state := VarDiff.State(c.pendingDiff, [], now))))
  }

  /** The controller hears of a share only while no change is waiting to be delivered. */
  function ShareRecorded(c: ChannelState, now: real): (r: ChannelState)
    requires c.Valid()
    ensures r.Valid()
  {
    if c.vardiff.None? || c.pendingDiff > 0.0 then c
    else
      var t := c.vardiff.value;
      var o := VarDiff.Recorded(t.cfg, t.state, now);
      c.(vardiff := Some(t.(state := o.state)),
         pendingDiff := if o.result.Adjusted? then o.result.newDiff else c.pendingDiff)
  }

  class Channel {
    const info: ChannelInfo
    const vardiff: VarDiff.Controller?
    var currentJobID: nat
    var staleJobIDs: seq<nat>
    var activePrevHash: Hash
    var ownCoinbase: Option<Coinbase>
    var poolTarget: nat
    var poolDifficulty: real
    var pendingDiff: real
    var prevDiff: real
    var diffChangedAt: real

    ghost const Repr: set<object> := if vardiff == null then {this} else {this, vardiff}

    ghost function View(): ChannelState
      reads Repr
    {
      ChannelState(info, currentJobID, staleJobIDs, activePrevHash, ownCoinbase, poolTarget, poolDifficulty,
                   pendingDiff, prevDiff, diffChangedAt,
                   if vardiff == null then None else Some(Tracker(vardiff.cfg, vardiff.View())))
    }

    ghost predicate Valid()
      reads Repr
    {
      View().Valid()
    }

    constructor (info: ChannelInfo, cfg: Option<VarDiff.Config>, startDiff: real, now: real)
      requires cfg.Some? ==> cfg.value.Valid()
      ensures Valid() && fresh(Repr) && this.info == info
      ensures View() == NewChannel(info, cfg, startDiff, now)
    {
      var d := StartDifficulty(startDiff);
      this.info := info;
      currentJobID, staleJobIDs := 0, [0, 0, 0, 0, 0, 0, 0, 0];
      activePrevHash, ownCoinbase := ZERO_HASH, None;
      poolTarget, poolDifficulty := info.toTarget(d), d;
      pendingDiff, prevDiff, diffChangedAt := 0.0, 0.0, 0.0;
      if cfg.Some? {
        vardiff := new VarDiff.Controller(cfg.value, d, now);
      } else {
        vardiff := null;
      }
    }

    method SetOwnCoinbase(coinbase: Coinbase)
      modifies this
      ensures View() == old(View()).(ownCoinbase := Some(coinbase))
    {
      ownCoinbase := Some(coinbase);
    }

    method SetCurrentJob(jobID: nat)
      requires Valid()
      modifies this
      ensures View() == WithCurrentJob(old(View()), jobID)
    {
      staleJobIDs := [currentJobID] + staleJobIDs[..STALE_JOBS - 1];
      currentJobID := jobID;
    }

    /** Whether the prev-hash is new to this channel, which then mines on it. */
    method ActivatePrevHash(prevHash: Hash) returns (isNew: bool)
      modifies this
      ensures isNew == (old(View()).activePrevHash != prevHash)
      ensures View() == old(View()).(activePrevHash := prevHash)
    {
      if activePrevHash == prevHash {
        return false;
      }
      activePrevHash := prevHash;
      isNew := true;
    }

    method AcceptsJob(jobID: nat) returns (ok: bool)
      ensures ok == IsJobValid(View(), jobID)
    {
      if jobID == currentJobID {
        return true;
      }
      for i := 0 to |staleJobIDs|
        invariant jobID == 0 || jobID !in staleJobIDs[..i]
      {
        if staleJobIDs[i] != 0 && staleJobIDs[i] == jobID {
          return true;
        }
      }
      assert staleJobIDs[..|staleJobIDs|] == staleJobIDs;
      ok := false;
    }

    method RecordShare(now: real)
      requires Valid()
      modifies Repr
      ensures View() == ShareRecorded(old(View()), now)
    {
      if vardiff != null && pendingDiff <= 0.0 {
        var result := vardiff.RecordShare(now);
        if result.Adjusted? {
          pendingDiff := result.newDiff;
        }
      }
    }

    method FlushPendingDiff(now: real) returns (ok: bool)
      requires Valid()
      modifies Repr
      ensures ok == (old(View()).pendingDiff > 0.0)
      ensures View() == Flushed(old(View()), now)
    {
      if pendingDiff <= 0.0 {
        return false;
      }
      var newDiff := pendingDiff;
      pendingDiff := 0.0;
      prevDiff, diffChangedAt := poolDifficulty, now;
      poolTarget, poolDifficulty := info.toTarget(newDiff), newDiff;
      if vardiff != null {
        vardiff.ResetWindow(newDiff, now);
      }
      ok := true;
    }
  }
}
