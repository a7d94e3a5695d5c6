// What a node finds in the coinbase of a share: the whole list of its outputs, and in the block the witness it commits to.
module CoinbaseOutputs {
  import opened Bytes
  import opened Hex
  import opened Transaction
  import opened Coinbase
  import opened Payout
  import Block
  import JobCache

  // ---- One donation ----

  /** The whole units in a percentage of a reward. */
  predicate IsPercentage(a: int, reward: int, percent: real) {
    100.0 * a as real <= reward as real * percent < 100.0 * (a + 1) as real
  }

  /** The output of a donation of `a`, as a transaction carries it: none for a donation without a script, or of nothing. */
  function Gift(d: Donation, a: int): seq<Output> {
    if d.script.Some? && d.percent > 0.0 && a > 0 then [Output(a, d.script.value)] else []
  }

  function GiftValue(d: Donation, a: int): int {
    if d.script.Some? && d.percent > 0.0 && a > 0 then a else 0
  }

  lemma FloorIsPercentage(reward: int, percent: real)
    requires 0 <= reward && percent <= 100.0
    ensures IsPercentage(Percentage(reward, percent), reward, percent) && Percentage(reward, percent) <= reward
  {
    AtMostWhole(reward, percent, Percentage(reward, percent));
  }

  lemma AtMostWhole(reward: int, percent: real, a: int)
    requires 0 <= reward && percent <= 100.0 && IsPercentage(a, reward, percent)
    ensures a <= reward
  {
    NotNegative(reward as real, 100.0 - percent);
    assert reward as real * (100.0 - percent) == 100.0 * reward as real - reward as real * percent;
  }

  lemma GiftCarried(d: Donation, a: int, given: seq<CoinbaseOutput>)
    requires a < MAX_COUNT && Lengths(given)
    requires given == if d.script.Some? && d.percent > 0.0 && a > 0 then [CoinbaseOutput(a, d.script.value)] else []
    ensures CarriedAll(given) == Gift(d, a) && Sum(given) == GiftValue(d, a)
  {
    if given != [] {
      SumOne(given[0]);
      CarriedOne(given[0]);
    }
  }

  /** A donation is one output of its script, of as many whole units as its percentage of the reward holds. */
  lemma GivenIs(reward: int, d: Donation) returns (a: int)
    requires 0 <= reward < MAX_COUNT && d.percent <= 100.0 && Lengths(Given(reward, d))
    ensures IsPercentage(a, reward, d.percent)
    ensures CarriedAll(Given(reward, d)) == Gift(d, a) && Sum(Given(reward, d)) == GiftValue(d, a)
  {
    a := Percentage(reward, d.percent);
    FloorIsPercentage(reward, d.percent);
    GiftCarried(d, a, Given(reward, d));
  }

  lemma CarriedConcat(a: seq<CoinbaseOutput>, b: seq<CoinbaseOutput>)
    requires Lengths(a + b)
    ensures Lengths(a) && Lengths(b) && CarriedAll(a + b) == CarriedAll(a) + CarriedAll(b)
  {
    assert forall o :: o in a || o in b ==> o in a + b;
  }

  lemma GiftsAre(reward: int, first: Donation, second: Donation) returns (a: int, b: int)
    requires 0 <= reward < MAX_COUNT && 0.0 <= first.percent && 0.0 <= second.percent && first.percent + second.percent <= 100.0
    requires Lengths(DonationOutputs(reward, first, second))
    ensures IsPercentage(a, reward, first.percent) && IsPercentage(b, reward, second.percent)
    ensures CarriedAll(DonationOutputs(reward, first, second)) == Gift(first, a) + Gift(second, b)
    ensures Sum(DonationOutputs(reward, first, second)) == GiftValue(first, a) + GiftValue(second, b)
    ensures GiftValue(first, a) + GiftValue(second, b) <= reward
  {
    CarriedConcat(Given(reward, first), Given(reward, second));
    a := GivenIs(reward, first);
    b := GivenIs(reward, second);
    SumConcat(Given(reward, first), Given(reward, second));
    DonationsWithin(reward, first, second);
  }

  // ---- A share's coinbase ----

  /** A share's coinbase is one transaction of one input and of exactly these outputs, without a witness. */
  ghost predicate IsPlainCoinbase(cb: Option<seq<byte>>, outputs: seq<Output>) {
    && cb.Some? && Parse(cb.value).Some?
    && var tx := Parse(cb.value).value;
       Fits(tx) && WriteTx(tx) == cb.value && |tx.inputs| == 1 && tx.stacks.None? && tx.outputs == outputs
  }

  /** The coinbase a miner with its extranonces makes of the halves it was sent. */
  function ShareCoinbase(parts: JobCache.Parts, en1: string, en2: string): Option<seq<byte>> {
    AssembleCoinbase(parts.coinb1, en1, en2, parts.coinb2)
  }

  ghost predicate Extranonces(en1: string, en2: string, size1: nat, size2: nat) {
    && Decode(en1).Some? && |Decode(en1).value| == size1
    && Decode(en2).Some? && |Decode(en2).value| == size2
  }

  lemma SharePlain(t: Template, text: seq<byte>, size1: nat, size2: nat, outputs: seq<CoinbaseOutput>, en1: string, en2: string)
    requires Representable(t, text, size1, size2, outputs) && Extranonces(en1, en2, size1, size2)
    ensures IsPlainCoinbase(ShareCoinbase(Halves(t, text, size1, size2, Some(outputs)).value, en1, en2), CarriedAll(outputs))
  {
    var x1, x2 := Decode(en1).value, Decode(en2).value;
    AssembledIs(t.height, text, x1 + x2, size1 + size2, outputs, en1, en2, x1, x2);
    AssembledParses(t.height, text, x1 + x2, size1 + size2, outputs, en1, en2, x1, x2);
  }

  /** The output of the witness commitment: the template's, decoded, paid nothing. */
  function Commitment(t: Template): seq<Output> {
    if t.witnessCommitment == "" || Decode(t.witnessCommitment).None? then []
    else [Output(0, Decode(t.witnessCommitment).value)]
  }

  lemma CarriedOne(o: CoinbaseOutput)
    requires |o.script| < MAX_COUNT && 0 <= o.value < MAX_COUNT
    ensures Lengths([o]) && CarriedAll([o]) == [Output(o.value, o.script)]
  {
  }

  /** What a builder that succeeds has made. */
  lemma Built(reward: Template -> int, coin: Coin, toScript: string -> Option<seq<byte>>, text: seq<byte>, size1: nat,
              size2: nat, first: Donation, second: Donation, t: Template, address: string)
    returns (script: seq<byte>, outputs: seq<CoinbaseOutput>)
    requires CoinBuilder(reward, coin, toScript, text, size1, size2, first, second)(t, address).Some?
    ensures toScript(address) == Some(script)
    ensures coin(t, script, DonationOutputs(reward(t), first, second)) == Some(outputs)
    ensures Representable(t, text, size1, size2, outputs)
    ensures CoinBuilder(reward, coin, toScript, text, size1, size2, first, second)(t, address)
         == Halves(t, text, size1, size2, Some(outputs))
  {
    script := toScript(address).value;
    var made := coin(t, script, DonationOutputs(reward(t), first, second));
    OutputsOf(t, text, size1, size2, made);
    outputs := made.value;
  }

  lemma OutputsOf(t: Template, text: seq<byte>, size1: nat, size2: nat, made: Option<seq<CoinbaseOutput>>)
    requires Halves(t, text, size1, size2, made).Some?
    ensures made.Some? && Representable(t, text, size1, size2, made.value)
  {
  }

  /** Every share of a Bitcoin job is a transaction that pays the pool's script what the donations leave, each donation its
      percentage of the reward, and nothing else, and that carries the template's witness commitment last, if it has one. */
  lemma BitcoinShareOutputs(toScript: string -> Option<seq<byte>>, text: seq<byte>, size1: nat, size2: nat, first: Donation,
                            second: Donation, t: Template, address: string, en1: string, en2: string)
    returns (a: int, b: int)
    requires first.percent >= 0.0 && second.percent >= 0.0 && first.percent + second.percent <= 100.0
    requires 0 <= t.coinbaseValue < MAX_COUNT && Extranonces(en1, en2, size1, size2)
    requires BitcoinBuilder(toScript, text, size1, size2, first, second)(t, address).Some?
    ensures IsPercentage(a, t.coinbaseValue, first.percent) && IsPercentage(b, t.coinbaseValue, second.percent)
    ensures GiftValue(first, a) + GiftValue(second, b) <= t.coinbaseValue
    ensures toScript(address).Some? && (t.witnessCommitment != "" ==> Decode(t.witnessCommitment).Some?)
    ensures IsPlainCoinbase(ShareCoinbase(BitcoinBuilder(toScript, text, size1, size2, first, second)(t, address).value, en1, en2),
                            [Output(t.coinbaseValue - GiftValue(first, a) - GiftValue(second, b), toScript(address).value)]
                            + (Gift(first, a) + Gift(second, b)) + Commitment(t))
  {
    var script, outputs := Built(BlockValue, BitcoinOutputs, toScript, text, size1, size2, first, second, t, address);
    a, b := BitcoinCarried(t, script, first, second, outputs);
    SharePlain(t, text, size1, size2, outputs, en1, en2);
  }

  lemma BitcoinCarried(t: Template, script: seq<byte>, first: Donation, second: Donation, outputs: seq<CoinbaseOutput>)
    returns (a: int, b: int)
    requires first.percent >= 0.0 && second.percent >= 0.0 && first.percent + second.percent <= 100.0
    requires 0 <= t.coinbaseValue < MAX_COUNT && Lengths(outputs)
    requires BitcoinOutputs(t, script, DonationOutputs(t.coinbaseValue, first, second)) == Some(outputs)
    ensures IsPercentage(a, t.coinbaseValue, first.percent) && IsPercentage(b, t.coinbaseValue, second.percent)
    ensures GiftValue(first, a) + GiftValue(second, b) <= t.coinbaseValue
    ensures t.witnessCommitment != "" ==> Decode(t.witnessCommitment).Some?
    ensures CarriedAll(outputs) == [Output(t.coinbaseValue - GiftValue(first, a) - GiftValue(second, b), script)]
                                   + (Gift(first, a) + Gift(second, b)) + Commitment(t)
  {
    var extras := DonationOutputs(t.coinbaseValue, first, second);
    var commitment := BitcoinParts(t, script, extras, outputs);
    DonationsWithin(t.coinbaseValue, first, second);
    ThreeCarried(CoinbaseOutput(t.coinbaseValue - Sum(extras), script), extras, commitment);
    CommitmentCarried(t);
    a, b := GiftsAre(t.coinbaseValue, first, second);
  }

  lemma BitcoinParts(t: Template, script: seq<byte>, extras: seq<CoinbaseOutput>, outputs: seq<CoinbaseOutput>)
    returns (commitment: seq<CoinbaseOutput>)
    requires BitcoinOutputs(t, script, extras) == Some(outputs)
    ensures Committed(t) == Some(commitment)
    ensures outputs == [CoinbaseOutput(t.coinbaseValue - Sum(extras), script)] + extras + commitment
  {
    commitment := Committed(t).value;
  }

  lemma ThreeCarried(a: CoinbaseOutput, b: seq<CoinbaseOutput>, c: seq<CoinbaseOutput>)
    requires Lengths([a] + b + c) && 0 <= a.value < MAX_COUNT
    ensures Lengths(b) && Lengths(c)
    ensures CarriedAll([a] + b + c) == [Output(a.value, a.script)] + CarriedAll(b) + CarriedAll(c)
  {
    CarriedConcat([a] + b, c);
    CarriedConcat([a], b);
    CarriedOne(a);
  }

  lemma CommitmentCarried(t: Template)
    requires Committed(t).Some? && Lengths(Committed(t).value)
    ensures CarriedAll(Committed(t).value) == Commitment(t)
    ensures t.witnessCommitment != "" ==> Decode(t.witnessCommitment).Some?
  {
    var commitment := Committed(t).value;
    if commitment != [] {
      CarriedOne(commitment[0]);
    }
  }

  // ---- eCash ----

  /** The outputs an eCash template asks for, where it says to whom. */
  function FundOf(t: Template, toScript: string -> Option<seq<byte>>): seq<Output> {
    if FundPaid(t) == 0 || toScript(t.fund.value.addresses[0]).None? then []
    else [Output(FundPaid(t), toScript(t.fund.value.addresses[0]).value)]
  }

  function StakingOf(t: Template): seq<Output> {
    if StakingPaid(t) == 0 || Decode(t.staking.value.script).None? then []
    else [Output(StakingPaid(t), Decode(t.staking.value.script).value)]
  }

  lemma FourCarried(a: CoinbaseOutput, b: seq<CoinbaseOutput>, c: seq<CoinbaseOutput>, d: seq<CoinbaseOutput>)
    requires Lengths([a] + b + c + d) && 0 <= a.value < MAX_COUNT
    ensures Lengths(b) && Lengths(c) && Lengths(d)
    ensures CarriedAll([a] + b + c + d) == [Output(a.value, a.script)] + CarriedAll(b) + CarriedAll(c) + CarriedAll(d)
  {
    CarriedConcat([a] + b + c, d);
    CarriedConcat([a] + b, c);
    CarriedConcat([a], b);
    CarriedOne(a);
  }

  /** Every share of an eCash job pays the pool's script what is left, then the miner fund and the staking reward where the
      template says to whom, then each donation its percentage of the pool's reward, and nothing else. */
  lemma ECashShareOutputs(toScript: string -> Option<seq<byte>>, text: seq<byte>, size1: nat, size2: nat, first: Donation,
                          second: Donation, t: Template, address: string, en1: string, en2: string)
    returns (a: int, b: int)
    requires first.percent >= 0.0 && second.percent >= 0.0 && first.percent + second.percent <= 100.0
    requires ECashPoolReward(t) < MAX_COUNT && FundMinimum(t) < MAX_COUNT && StakingMinimum(t) < MAX_COUNT
    requires Extranonces(en1, en2, size1, size2)
    requires ECashBuilder(toScript, text, size1, size2, first, second)(t, address).Some?
    ensures IsPercentage(a, ECashPoolReward(t), first.percent) && IsPercentage(b, ECashPoolReward(t), second.percent)
    ensures GiftValue(first, a) + GiftValue(second, b) <= ECashPoolReward(t)
    ensures toScript(address).Some? && (FundPaid(t) != 0 ==> toScript(t.fund.value.addresses[0]).Some?)
    ensures StakingPaid(t) != 0 ==> Decode(t.staking.value.script).Some?
    ensures IsPlainCoinbase(ShareCoinbase(ECashBuilder(toScript, text, size1, size2, first, second)(t, address).value, en1, en2),
                            [Output(ECashPoolReward(t) - GiftValue(first, a) - GiftValue(second, b), toScript(address).value)]
                            + FundOf(t, toScript) + StakingOf(t) + (Gift(first, a) + Gift(second, b)))
  {
    var script, outputs := Built(ECashPoolReward, ECashCoin(toScript), toScript, text, size1, size2, first, second, t, address);
    a, b := ECashCarried(t, toScript, script, first, second, outputs);
    SharePlain(t, text, size1, size2, outputs, en1, en2);
  }

  lemma FundCarried(t: Template, toScript: string -> Option<seq<byte>>)
    requires FundOutput(t, toScript).Some? && Lengths(FundOutput(t, toScript).value) && FundMinimum(t) < MAX_COUNT
    ensures CarriedAll(FundOutput(t, toScript).value) == FundOf(t, toScript)
    ensures FundPaid(t) != 0 ==> toScript(t.fund.value.addresses[0]).Some?
  {
    var fund := FundOutput(t, toScript).value;
    if fund != [] {
      CarriedOne(fund[0]);
    }
  }

  lemma StakingCarried(t: Template)
    requires StakingOutput(t).Some? && Lengths(StakingOutput(t).value) && StakingMinimum(t) < MAX_COUNT
    ensures CarriedAll(StakingOutput(t).value) == StakingOf(t)
    ensures StakingPaid(t) != 0 ==> Decode(t.staking.value.script).Some?
  {
    var staking := StakingOutput(t).value;
    if staking != [] {
      CarriedOne(staking[0]);
    }
  }

  lemma ECashParts(t: Template, toScript: string -> Option<seq<byte>>, script: seq<byte>, extras: seq<CoinbaseOutput>,
                   outputs: seq<CoinbaseOutput>) returns (fund: seq<CoinbaseOutput>, staking: seq<CoinbaseOutput>)
    requires ECashOutputs(t, toScript, script, extras) == Some(outputs)
    ensures FundOutput(t, toScript) == Some(fund) && StakingOutput(t) == Some(staking)
    ensures outputs == [CoinbaseOutput(ECashPoolReward(t) - Sum(extras), script)] + fund + staking + extras
  {
    fund, staking := FundOutput(t, toScript).value, StakingOutput(t).value;
  }

  lemma ECashCarried(t: Template, toScript: string -> Option<seq<byte>>, script: seq<byte>, first: Donation, second: Donation,
                     outputs: seq<CoinbaseOutput>)
    returns (a: int, b: int)
    requires first.percent >= 0.0 && second.percent >= 0.0 && first.percent + second.percent <= 100.0
    requires ECashPoolReward(t) < MAX_COUNT && FundMinimum(t) < MAX_COUNT && StakingMinimum(t) < MAX_COUNT
    requires Lengths(outputs)
    requires ECashOutputs(t, toScript, script, DonationOutputs(ECashPoolReward(t), first, second)) == Some(outputs)
    ensures IsPercentage(a, ECashPoolReward(t), first.percent) && IsPercentage(b, ECashPoolReward(t), second.percent)
    ensures GiftValue(first, a) + GiftValue(second, b) <= ECashPoolReward(t)
    ensures FundPaid(t) != 0 ==> toScript(t.fund.value.addresses[0]).Some?
    ensures StakingPaid(t) != 0 ==> Decode(t.staking.value.script).Some?
    ensures CarriedAll(outputs) == [Output(ECashPoolReward(t) - GiftValue(first, a) - GiftValue(second, b), script)]
                                   + FundOf(t, toScript) + StakingOf(t) + (Gift(first, a) + Gift(second, b))
  {
    var reward := ECashPoolReward(t);
    var extras := DonationOutputs(reward, first, second);
    var fund, staking := ECashParts(t, toScript, script, extras, outputs);
    DonationsWithin(reward, first, second);
    FourCarried(CoinbaseOutput(reward - Sum(extras), script), fund, staking, extras);
    a, b := GiftsAre(reward, first, second);
    FundCarried(t, toScript);
    StakingCarried(t);
  }

  // ---- The block ----

  /** A block made of a share reads as the share's transaction, with the same outputs; and its coinbase has a witness exactly when
      the template has a commitment, which is then its last output. */
  lemma WitnessIsCommitted(header: seq<byte>, cb: Option<seq<byte>>, outputs: seq<Output>, t: Template, count: nat,
                           rest: seq<byte>)
    requires IsPlainCoinbase(cb, outputs + Commitment(t)) && count < MAX_COUNT
    requires t.witnessCommitment != "" ==> Decode(t.witnessCommitment).Some?
    ensures var block := header + SerializeVarInt(count) + Block.CoinbasePart(cb.value, t.witnessCommitment) + rest;
            var read := Block.ReadBlock(|header|, block);
            && read.Some? && read.value.0 == header && read.value.1 == count && read.value.3 == rest
            && read.value.2.outputs == outputs + Commitment(t)
            && (read.value.2.stacks.Some? <==> t.witnessCommitment != "")
            && (read.value.2.stacks.Some? ==>
                  |read.value.2.outputs| == |outputs| + 1
                  && read.value.2.outputs[|outputs|] == Output(0, Decode(t.witnessCommitment).value))
  {
    Block.BlockReads(header, Parse(cb.value).value, t.witnessCommitment, count, rest);
  }
}
