// What a coinbase pays: the coins' output lists, the donations, and how the outputs add up to what the block is worth.
module Payout {
  import opened Bytes
  import opened Hex
  import opened Transaction
  import opened Coinbase
  import JobCache
  import JobCacheRuns

  type Template = JobCache.Template

  function Sum(outputs: seq<CoinbaseOutput>): int {
    if outputs == [] then 0 else Sum(outputs[..|outputs| - 1]) + outputs[|outputs| - 1].value
  }

  lemma {:induction false} SumConcat(a: seq<CoinbaseOutput>, b: seq<CoinbaseOutput>)
    ensures Sum(a + b) == Sum(a) + Sum(b)
    decreases |b|
  {
    if b == [] {
      assert a + b == a;
    } else {
      var n := |b| - 1;
      SumConcat(a, b[..n]);
      assert (a + b)[..|a| + n] == a + b[..n];
    }
  }

  // ---- Donations ----

  /** A donation's script, if it has one, and its percentage of the pool's reward. */
  datatype Donation = Donation(script: Option<seq<byte>>, percent: real)

  function Percentage(reward: int, percent: real): int {
    (reward as real * percent / 100.0).Floor
  }

  /** The output of one donation: nothing for one that rounds to nothing. */
  function Given(reward: int, d: Donation): seq<CoinbaseOutput> {
    if d.script.Some? && d.percent > 0.0 && Percentage(reward, d.percent) > 0 then
      [CoinbaseOutput(Percentage(reward, d.percent), d.script.value)]
    else []
  }

  function DonationOutputs(reward: int, first: Donation, second: Donation): seq<CoinbaseOutput> {
    Given(reward, first) + Given(reward, second)
  }

  lemma GivenWithin(reward: int, d: Donation)
    requires reward >= 0
    ensures 0 <= Sum(Given(reward, d))
    ensures d.percent >= 0.0 ==> 100.0 * Sum(Given(reward, d)) as real <= reward as real * d.percent
    ensures |Given(reward, d)| <= 1 && forall o :: o in Given(reward, d) ==> o.value > 0
  {
    var g := Given(reward, d);
    if g == [] {
      assert d.percent >= 0.0 ==> reward as real * d.percent >= 0.0;
    } else {
      assert Sum(g[..0]) == 0;
    }
  }

  /** Percentages that add up to no more than the whole never give away more than the reward. */
  lemma DonationsWithin(reward: int, first: Donation, second: Donation)
    requires reward >= 0 && first.percent >= 0.0 && second.percent >= 0.0 && first.percent + second.percent <= 100.0
    ensures var outputs := DonationOutputs(reward, first, second);
            0 <= Sum(outputs) <= reward && forall o :: o in outputs ==> o.value > 0
  {
    GivenWithin(reward, first);
    GivenWithin(reward, second);
    SumConcat(Given(reward, first), Given(reward, second));
    Together(Sum(Given(reward, first)), Sum(Given(reward, second)), reward as real, first.percent, second.percent);
  }

  lemma Together(a: int, b: int, whole: real, p: real, q: real)
    requires whole >= 0.0 && p + q <= 100.0 && 100.0 * a as real <= whole * p && 100.0 * b as real <= whole * q
    ensures (a + b) as real <= whole
  {
    Shares(whole, p, q);
    assert (a + b) as real == a as real + b as real;
  }

  lemma Shares(r: real, p: real, q: real)
    requires r >= 0.0 && p + q <= 100.0
    ensures r * p + r * q <= 100.0 * r
  {
    var s := 100.0 - (p + q);
    NotNegative(r, s);
    assert r * (p + q) == r * p + r * q;
    assert r * (p + q) + r * s == r * (p + q + s);
  }

  lemma NotNegative(a: real, b: real)
    requires a >= 0.0 && b >= 0.0
    ensures a * b >= 0.0
  {
  }

  // ---- Bitcoin ----

  /** The witness commitment's output, if the template has one; None when it is no hex. */
  function Committed(t: Template): Option<seq<CoinbaseOutput>> {
    if t.witnessCommitment == "" then Some([])
    else
      match Decode(t.witnessCommitment)
      case None => None
      case Some(script) => Some([CoinbaseOutput(0, script)])
  }

  function BitcoinOutputs(t: Template, script: seq<byte>, extras: seq<CoinbaseOutput>): Option<seq<CoinbaseOutput>> {
    match Committed(t)
    case None => None
    case Some(commitment) => Some([CoinbaseOutput(t.coinbaseValue - Sum(extras), script)] + extras + commitment)
  }

  /** Numbers and lengths the wire formats hold. */
  predicate Representable(t: Template, text: seq<byte>, size1: nat, size2: nat, outputs: seq<CoinbaseOutput>) {
    t.height < 0x8000_0000_0000_0000 && |text| + size1 + size2 + 10 < MAX_COUNT && Lengths(outputs)
  }

  function Halves(t: Template, text: seq<byte>, size1: nat, size2: nat, outputs: Option<seq<CoinbaseOutput>>):
      Option<JobCache.Parts>
  {
    if outputs.None? || !Representable(t, text, size1, size2, outputs.value) then None
    else Some(JobCache.Parts(HeadText(t.height, text, size1 + size2), TailText(outputs.value)))
  }

  method BitcoinBuildCoinbase(t: Template, script: Option<seq<byte>>, text: seq<byte>, size1: nat, size2: nat,
                              extras: seq<CoinbaseOutput>)
    returns (r: Option<JobCache.Parts>)
    ensures r == if script.None? then None else Halves(t, text, size1, size2, BitcoinOutputs(t, script.value, extras))
  {
    if script.None? {
      return None;
    }
    var poolValue := Remaining(t.coinbaseValue, extras);
    var outputs := [CoinbaseOutput(poolValue, script.value)];
    outputs := outputs + extras;
    if t.witnessCommitment != "" {
      var commitment := Decode(t.witnessCommitment);
      if commitment.None? {
        return None;
      }
      outputs := outputs + [CoinbaseOutput(0, commitment.value)];
    }
    assert outputs == BitcoinOutputs(t, script.value, extras).value;
    if !Representable(t, text, size1, size2, outputs) {
      return None;
    }
    var coinb1, coinb2 := BuildCoinbaseParts(t.height, text, size1, size2, outputs);
    r := Some(JobCache.Parts(coinb1, coinb2));
  }

  /** What is left of a value after some outputs. */
  method Remaining(value: int, extras: seq<CoinbaseOutput>) returns (left: int)
    ensures left == value - Sum(extras)
  {
    left := value;
    for i := 0 to |extras|
      invariant left == value - Sum(extras[..i])
    {
      assert extras[..i + 1][..i] == extras[..i];
      left := left - extras[i].value;
    }
    assert extras[..|extras|] == extras;
  }

  lemma SumOne(o: CoinbaseOutput)
    ensures Sum([o]) == o.value
  {
    assert [o][..0] == [];
  }

  /** The outputs pay exactly what the block is worth, whatever is donated. */
  lemma BitcoinPaysAll(t: Template, script: seq<byte>, extras: seq<CoinbaseOutput>)
    requires Committed(t).Some?
    ensures Sum(BitcoinOutputs(t, script, extras).value) == t.coinbaseValue
  {
    var pool := CoinbaseOutput(t.coinbaseValue - Sum(extras), script);
    SumConcat([pool], extras);
    SumConcat([pool] + extras, Committed(t).value);
    SumOne(pool);
    if t.witnessCommitment != "" {
      SumOne(Committed(t).value[0]);
    }
  }

  // ---- eCash ----

  function FundMinimum(t: Template): int {
    if t.fund.Some? then t.fund.value.minimum else 0
  }

  function StakingMinimum(t: Template): int {
    if t.staking.Some? then t.staking.value.minimum else 0
  }

  /** The pool's share once everything the template demands is deducted, paid out or not; never below zero. */
  function ECashPoolReward(t: Template): (r: int)
    ensures r >= 0
  {
    var reward := t.coinbaseValue - FundMinimum(t) - StakingMinimum(t);
    if reward < 0 then 0 else reward
  }

  /** The miner fund's output: left out when there is no address for it. */
  function FundOutput(t: Template, toScript: string -> Option<seq<byte>>): Option<seq<CoinbaseOutput>> {
    if t.fund.Some? && t.fund.value.addresses != [] && t.fund.value.minimum > 0 then
      match toScript(t.fund.value.addresses[0])
      case None => None
      case Some(script) => Some([CoinbaseOutput(t.fund.value.minimum, script)])
    else Some([])
  }

  /** The staking output: left out when there is no script for it. */
  function StakingOutput(t: Template): Option<seq<CoinbaseOutput>> {
    if t.staking.Some? && t.staking.value.minimum > 0 && t.staking.value.script != "" then
      match Decode(t.staking.value.script)
      case None => None
      case Some(script) => Some([CoinbaseOutput(t.staking.value.minimum, script)])
    else Some([])
  }

  function ECashOutputs(t: Template, toScript: string -> Option<seq<byte>>, script: seq<byte>, extras: seq<CoinbaseOutput>):
      Option<seq<CoinbaseOutput>>
  {
    match (FundOutput(t, toScript), StakingOutput(t))
    case (Some(fund), Some(staking)) =>
      Some([CoinbaseOutput(ECashPoolReward(t) - Sum(extras), script)] + fund + staking + extras)
    case _ => None
  }

  method ECashBuildCoinbase(t: Template, toScript: string -> Option<seq<byte>>, address: string, text: seq<byte>,
                            size1: nat, size2: nat, extras: seq<CoinbaseOutput>)
    returns (r: Option<JobCache.Parts>)
    ensures r == if toScript(address).None? then None
                 else Halves(t, text, size1, size2, ECashOutputs(t, toScript, toScript(address).value, extras))
  {
    var script := toScript(address);
    if script.None? {
      return None;
    }
    var poolReward := Remaining(ECashPoolReward(t), extras);
    var outputs := [CoinbaseOutput(poolReward, script.value)];
    if t.fund.Some? && t.fund.value.addresses != [] && t.fund.value.minimum > 0 {
      var fundScript := toScript(t.fund.value.addresses[0]);
      if fundScript.None? {
        return None;
      }
      outputs := outputs + [CoinbaseOutput(t.fund.value.minimum, fundScript.value)];
    }
    if t.staking.Some? && t.staking.value.minimum > 0 {
      if t.staking.value.script != "" {
        var stakingScript := Decode(t.staking.value.script);
        if stakingScript.None? {
          return None;
        }
        outputs := outputs + [CoinbaseOutput(t.staking.value.minimum, stakingScript.value)];
      }
    }
    outputs := outputs + extras;
    assert outputs == ECashOutputs(t, toScript, script.value, extras).value;
    if !Representable(t, text, size1, size2, outputs) {
      return None;
    }
    var coinb1, coinb2 := BuildCoinbaseParts(t.height, text, size1, size2, outputs);
    r := Some(JobCache.Parts(coinb1, coinb2));
  }

  /** What the template demands and the coinbase pays. */
  function FundPaid(t: Template): int {
    if t.fund.Some? && t.fund.value.addresses != [] && t.fund.value.minimum > 0 then t.fund.value.minimum else 0
  }

  function StakingPaid(t: Template): int {
    if t.staking.Some? && t.staking.value.minimum > 0 && t.staking.value.script != "" then t.staking.value.minimum else 0
  }

  lemma FundSum(t: Template, toScript: string -> Option<seq<byte>>)
    requires FundOutput(t, toScript).Some?
    ensures Sum(FundOutput(t, toScript).value) == FundPaid(t)
  {
    var fund := FundOutput(t, toScript).value;
    if fund != [] {
      SumOne(fund[0]);
    }
  }

  lemma StakingSum(t: Template)
    requires StakingOutput(t).Some?
    ensures Sum(StakingOutput(t).value) == StakingPaid(t)
  {
    var staking := StakingOutput(t).value;
    if staking != [] {
      SumOne(staking[0]);
    }
  }

  lemma FourSum(a: CoinbaseOutput, b: seq<CoinbaseOutput>, c: seq<CoinbaseOutput>, d: seq<CoinbaseOutput>)
    ensures Sum([a] + b + c + d) == a.value + Sum(b) + Sum(c) + Sum(d)
  {
    SumOne(a);
    SumConcat([a], b);
    SumConcat([a] + b, c);
    SumConcat([a] + b + c, d);
  }

  lemma ECashSum(t: Template, toScript: string -> Option<seq<byte>>, script: seq<byte>, extras: seq<CoinbaseOutput>)
    requires ECashOutputs(t, toScript, script, extras).Some?
    ensures Sum(ECashOutputs(t, toScript, script, extras).value) == ECashPoolReward(t) + FundPaid(t) + StakingPaid(t)
  {
    FundSum(t, toScript);
    StakingSum(t);
    FourSum(CoinbaseOutput(ECashPoolReward(t) - Sum(extras), script), FundOutput(t, toScript).value, StakingOutput(t).value,
            extras);
  }

  /** The outputs pay exactly what the block is worth if and only if what is deducted is paid out or, where the demands exceed
      the block's worth, the demands paid out are all of it. */
  lemma ECashPaysAllIff(t: Template, toScript: string -> Option<seq<byte>>, script: seq<byte>, extras: seq<CoinbaseOutput>)
    requires ECashOutputs(t, toScript, script, extras).Some?
    ensures Sum(ECashOutputs(t, toScript, script, extras).value) == t.coinbaseValue
       <==> FundPaid(t) + StakingPaid(t)
            == if FundMinimum(t) + StakingMinimum(t) <= t.coinbaseValue then FundMinimum(t) + StakingMinimum(t)
               else t.coinbaseValue
  {
    ECashSum(t, toScript, script, extras);
  }

  /** A fund with no address to pay costs the pool the fund's share: that much is never claimed. */
  lemma FundWithoutAddress(t: Template, toScript: string -> Option<seq<byte>>, script: seq<byte>, extras: seq<CoinbaseOutput>)
    requires ECashOutputs(t, toScript, script, extras).Some? && t.fund.Some? && t.fund.value.addresses == []
    requires 0 < t.fund.value.minimum <= t.coinbaseValue && t.staking.None?
    ensures Sum(ECashOutputs(t, toScript, script, extras).value) == t.coinbaseValue - t.fund.value.minimum
  {
    ECashSum(t, toScript, script, extras);
  }

  // ---- From the template to the parsed coinbase ----

  /** The value a parsed transaction's outputs carry. */
  function Total(outputs: seq<Output>): nat {
    if outputs == [] then 0 else Total(outputs[..|outputs| - 1]) + outputs[|outputs| - 1].value
  }

  lemma {:induction false} TotalCarried(outputs: seq<CoinbaseOutput>)
    requires Lengths(outputs) && forall o :: o in outputs ==> 0 <= o.value < MAX_COUNT
    ensures Total(CarriedAll(outputs)) == Sum(outputs)
  {
    if outputs == [] {
    } else {
      var n := |outputs| - 1;
      TotalCarried(outputs[..n]);
      assert CarriedAll(outputs)[..n] == CarriedAll(outputs[..n]);
    }
  }

  /** A pool that donates no more than its reward: every share's coinbase is one transaction whose first output is the pool's
      script, and whose outputs carry exactly the block's worth. */
  lemma BitcoinCoinbasePays(t: Template, script: seq<byte>, text: seq<byte>, nonces: seq<byte>,
                            first: Donation, second: Donation)
    requires first.percent >= 0.0 && second.percent >= 0.0 && first.percent + second.percent <= 100.0
    requires 0 <= t.coinbaseValue < MAX_COUNT
    requires var outputs := BitcoinOutputs(t, script, DonationOutputs(t.coinbaseValue, first, second));
             outputs.Some? && Representable(t, text, |nonces|, 0, outputs.value)
    ensures var outputs := BitcoinOutputs(t, script, DonationOutputs(t.coinbaseValue, first, second)).value;
            var tx := Parse(Coinbase.Head(t.height, text, |nonces|) + nonces + Tail(outputs));
            && tx.Some? && |tx.value.outputs| > 0 && tx.value.outputs[0].script == script
            && Total(tx.value.outputs) == t.coinbaseValue
  {
    var extras := DonationOutputs(t.coinbaseValue, first, second);
    var outputs := BitcoinOutputs(t, script, extras).value;
    DonationsWithin(t.coinbaseValue, first, second);
    BitcoinPaysAll(t, script, extras);
    NoneAbove(extras, Sum(extras));
    assert outputs[0] == CoinbaseOutput(t.coinbaseValue - Sum(extras), script);
    assert forall o :: o in outputs ==> o == outputs[0] || o in extras || o in Committed(t).value;
    TotalCarried(outputs);
    HalvesWritten(t.height, text, nonces, outputs);
    ParseWritten(CoinbaseTx(HeightPush(t.height) + text + nonces, outputs));
  }

  lemma {:induction false} NoneAbove(outputs: seq<CoinbaseOutput>, total: int)
    requires Sum(outputs) <= total && forall o :: o in outputs ==> o.value > 0
    ensures Sum(outputs) >= 0 && forall o :: o in outputs ==> o.value <= total
  {
    if outputs != [] {
      var n := |outputs| - 1;
      NoneAbove(outputs[..n], total - outputs[n].value);
      assert forall o :: o in outputs ==> o in outputs[..n] || o == outputs[n];
    }
  }

  // ---- The builders the job manager uses ----

  /** What varies between the coins: the reward donations are taken from, and the outputs. */
  type Coin = (Template, seq<byte>, seq<CoinbaseOutput>) -> Option<seq<CoinbaseOutput>>

  function CoinBuilder(reward: Template -> int, coin: Coin, toScript: string -> Option<seq<byte>>, text: seq<byte>,
                       size1: nat, size2: nat, first: Donation, second: Donation): JobCache.Builder
  {
    (t: Template, address: string) =>
      match toScript(address)
      case None => None
      case Some(script) =>
        Halves(t, text, size1, size2, coin(t, script, DonationOutputs(reward(t), first, second)))
  }

  function BlockValue(t: Template): int {
    t.coinbaseValue
  }

  function ECashCoin(toScript: string -> Option<seq<byte>>): Coin {
    (t, script, extras) => ECashOutputs(t, toScript, script, extras)
  }

  function BitcoinBuilder(toScript: string -> Option<seq<byte>>, text: seq<byte>, size1: nat, size2: nat,
                          first: Donation, second: Donation): JobCache.Builder
  {
    CoinBuilder(BlockValue, BitcoinOutputs, toScript, text, size1, size2, first, second)
  }

  function ECashBuilder(toScript: string -> Option<seq<byte>>, text: seq<byte>, size1: nat, size2: nat,
                        first: Donation, second: Donation): JobCache.Builder
  {
    CoinBuilder(ECashPoolReward, ECashCoin(toScript), toScript, text, size1, size2, first, second)
  }

  /** The half before the extranonces never depends on the address or the outputs, so one serves every miner of a job. */
  lemma FirstHalfShared(reward: Template -> int, coin: Coin, toScript: string -> Option<seq<byte>>, text: seq<byte>,
                        size1: nat, size2: nat, first: Donation, second: Donation)
    ensures JobCacheRuns.OneHead(CoinBuilder(reward, coin, toScript, text, size1, size2, first, second))
  {
    var build := CoinBuilder(reward, coin, toScript, text, size1, size2, first, second);
    forall t: Template, a: string, b: string | build(t, a).Some? && build(t, b).Some?
      ensures build(t, a).value.coinb1 == build(t, b).value.coinb1
    {
      HalvesHead(t, text, size1, size2, coin(t, toScript(a).value, DonationOutputs(reward(t), first, second)));
      HalvesHead(t, text, size1, size2, coin(t, toScript(b).value, DonationOutputs(reward(t), first, second)));
    }
  }

  /** And it is never empty. */
  lemma FirstHalfGiven(reward: Template -> int, coin: Coin, toScript: string -> Option<seq<byte>>, text: seq<byte>,
                       size1: nat, size2: nat, first: Donation, second: Donation)
    ensures JobCacheRuns.HeadsGiven(CoinBuilder(reward, coin, toScript, text, size1, size2, first, second))
  {
    var build := CoinBuilder(reward, coin, toScript, text, size1, size2, first, second);
    forall t: Template, a: string | build(t, a).Some?
      ensures build(t, a).value.coinb1 != ""
    {
      HalvesHead(t, text, size1, size2, coin(t, toScript(a).value, DonationOutputs(reward(t), first, second)));
      assert |Coinbase.Head(t.height, text, size1 + size2)| > 0;
    }
  }

  lemma HalvesHead(t: Template, text: seq<byte>, size1: nat, size2: nat, outputs: Option<seq<CoinbaseOutput>>)
    requires Halves(t, text, size1, size2, outputs).Some?
    ensures t.height < 0x8000_0000_0000_0000 && |text| + (size1 + size2) + 10 < MAX_COUNT
    ensures Halves(t, text, size1, size2, outputs).value.coinb1 == HeadText(t.height, text, size1 + size2)
  {
  }
}
