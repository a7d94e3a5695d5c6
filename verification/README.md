# ForgeNX engine: verified model

A Dafny model of a mining pool engine and of the properties its design relies on. The engine turns a node's block template into
jobs, hands them to miners over Stratum V1 and V2, rebuilds what a miner hashed, judges the share, and moves miners between coins.
`dafny verify dfyconfig.toml` checks all of it.

What the modules cover:

- **Work pipeline.** `Merkle`, `Transaction`, `Coinbase`, `Payout`, `CoinbaseOutputs`, `Block`, `Target`, `ShareHeader`: Merkle
  branches against the whole tree, the coinbase in two halves against a parser of whole transactions, its outputs against what the
  template and the donations ask for, and the V1 and V2 forms of header, target and verdict against each other. The double
  SHA-256 is a function parameter with 32-byte results.
- **SV2 session.** `Channel`, `Sv2Session` (what the messages are and do), `Sv2Server` (the session as an object), `Sv2Protocol`,
  `Sv2Runs`, `Sv2Difficulty`, `Sv2Agreement`, `JobWindow`, `Sv2Eviction`, `Sv2Broadcast`, `Sv2StoreBound`, `Sv2Lanes`, `Sv2Memory`,
  `Sv2Verdicts`; `LaneStore` holds the bookkeeping they share. Every channel is paired with a miner that follows the protocol and
  with all it was sent; the two are kept in step over every run, and every verdict is stated in the miner's terms.
  `Sv2Broadcast` puts the server's broadcasts around the session: jobs reach it in the order they are made, and a channel opens
  when no job older than the latest is still underway.
- **Solo-mode job cache.** `JobCache`, `JobCacheRuns`, `JobHeads`, `JobTips`, `JobAddresses`: three operations under two locks,
  one lock section a step.
- **Codecs.** `Bech32` over the general `LinearCode`, `Bech32Text`, `Bech32Vector`, `BitRegroup`, `Base58`, `Hex`, `FrameCodec`.
- **Mesh.** `JobIds`, `Mesh`, `MeshRuns`, `MeshTicks`, `MeshDifficulty`, `MeshUntold`: one miner bonded to several coins.
  `Balancer`, `BalancerGap`, `BalancerRuns`, `Rearrangement`: the fleet balancer.
- **Difficulty control.** `VarDiff`, `VarDiffRuns`, `VarDiffSettles`, `V1Session`, `V1Delivery`, `V1Runs`, `V1Refusals`,
  `V1Resends`. Configurations are those that pass the checks at loading (pkg/config/config.go:316-326).
- **Small shared theories.** `Arith`, `Bytes`, `Sets`.

Conventions: floating point is `real`; times are `real` seconds passed in; each handler or lock section is one step; the order in
which a Go map is visited is a parameter or left open. Objects whose methods change fields in place are classes with those fields;
each method is proved equal to a function of the state before it, and runs are reasoned about with those functions.

Where the code does not do what its comments say, or a property has an exact limit, the model follows the code:

- A new SV2 channel whose first template has an all-zero prev-hash sends its miner a job to start at once before the miner has any
  prev-hash to start on (`Sv2Protocol.FirstWork`).
- A pending SV2 difficulty set to wait for a new block goes out with jobs that are not future, where the comment speaks of the
  new-block boundary (`Sv2Session.ChangeMadeIff`).
- Compact bits with the sign bit set are read differently by the V1 and the SV2 side, unless the exponent is zero
  (`Target.CompactReadingsAgree`).
- V1 does not record a job it sends again mid-block, or sends on authorize, at the difficulty then in force. While that is below
  the hardest difficulty the miner can ask for in its password, such a job is covered against later raises exactly when it is on
  record already at a difficulty no harder (`V1Resends.CoveredIff`); the job of a first authorize is on no record
  (`V1Resends.FirstJobUncovered`).
- A V1 suggestion taken while a change is pending leaves two difficulties in play (`V1Runs.SuggestionParts`).
- With decimals, a retarget can round a difficulty to zero, which the target computation reads as difficulty 1. Exactly the
  configurations under which that can happen and be delivered mid-block refuse V1 shares that a job's recorded difficulty should
  have covered (`V1Refusals.NeverRefusedIff`). Where it waits for a job to go out with, as always on SV2, it is never delivered
  and leaves the controller apart (`V1Refusals.AgreesIff`, `Sv2Agreement.AgreesIff`).
- A solo job can have tails and no first part: when the address the map gives first does not build and the configured address is
  absent or does not build either (`JobHeads.NewJobHeadlessIff`, `JobHeads.NeverHeadlessIff`). Addresses are validated by other
  code than the code that builds for them (pkg/coin/ecash.go:48-121), and a configured one is not validated in solo mode
  (pkg/engine/coinrunner.go:154-159).
- A solo address whose session authorizes again keeps a count nobody gives up, so its coinbases go on being built
  (`JobAddresses.ConnectedIff`).
- The eCash outputs fall short of the block's value when a demanded payment has no address or script to go to
  (`Payout.ECashPaysAllIff`).
- The job manager's check for a tip another refresh has already broadcast never applies (`JobCacheRuns.NewestRetained`).
- In the mesh an authorize may put a miner on another coin without telling it that coin's extranonce (`MeshUntold.PinnedUntold`),
  and its replay may come from a coin the miner has left meanwhile (`MeshUntold.MovedUntold`); `MeshRuns.JobsMatchIff` says exactly
  which steps send a job for another extranonce than the one told last. A share for a job out of the registry is answered stale,
  where the comment above the code speaks of the active coin.

## Model

| member | source | states |
|---|---|---|
| Merkle.BranchesFoldToRoot | pkg/engine/jobmanager.go:495-534 | For every list of transaction hashes, every coinbase hash and every hash function: folding the branches built around a placeholder gives the root of the full list with that coinbase first, odd levels included |
| Merkle.BranchCount | pkg/engine/jobmanager.go:489-534 | A tree of up to 2^d hashes has at most d branches |
| Merkle.NextLevelAt | pkg/coinbase/builder.go:166-181 | The i-th hash of a level is the hash of hashes 2i and 2i+1 below it, an odd last one standing on both sides |
| Merkle.NextLevelByPadding | pkg/coinbase/builder.go:166-181 | Padding an odd level with a copy of its last hash gives the next level |
| Merkle.NextLevelByIndex | pkg/engine/jobmanager.go:510-531 | Looking the right neighbour up, an odd last hash standing in for it, gives the same next level |
| Merkle.MerkleRoot | pkg/coinbase/builder.go:158-183 | The loop computes the root of the whole list; 32 zero bytes for an empty one |
| Merkle.ComputeStratumMerkleBranches | pkg/engine/jobmanager.go:495-534 | The loop builds the branch list, and folding any coinbase hash over it gives the root of the full list |
| Merkle.ComputeMerkleRootFromBranches | pkg/coinbase/builder.go:187-199 | The loop is the fold that the branch theorem is about |
| Transaction.VarIntRoundTrip | pkg/coinbase/script.go:91-103 | Whatever follows, reading back a serialized count gives the number and exactly its width |
| Transaction.ReadersAgree | pkg/coinbase/builder.go:129-154 | The count reader and the transaction parser take the same number and width from any bytes; a count cut short reads as 0 |
| Transaction.TxRoundTrip | pkg/coinbase/builder.go:29-85 | Any transaction whose fields fit, with or without a witness, is read back whole by a parser for the BIP144 format, leaving exactly what follows it |
| Coinbase.SerializeHeight | pkg/coinbase/script.go:106-130 | The digit loop and the sign byte give the height push |
| Coinbase.HeightRoundTrip | pkg/coinbase/script.go:106-130 | The push decodes to the height from the front of any scriptSig (BIP34); a negative height reads as 0 |
| Coinbase.HeightMinimal | pkg/coinbase/script.go:115-124 | The push of a positive height has no byte it could do without |
| Coinbase.BuildCoinbaseParts | pkg/coinbase/builder.go:29-85 | The two halves are the hex of the bytes before and after the extranonces; the first does not mention the outputs |
| Coinbase.SerializeOutputs | pkg/coinbase/builder.go:69-73 | The output loop writes each value in 64 bits, the script behind its length, in order |
| Coinbase.HalvesWritten | pkg/coinbase/builder.go:46-79 | Around extranonces of the reserved size the two halves are the bytes of the coinbase transaction meant |
| Coinbase.AssembledParses | pkg/coinbase/builder.go:89-92 | For every height, text and output list and extranonces of the reserved sizes, the assembled bytes parse as one transaction with exactly the declared scriptSig and outputs, and nothing behind it |
| Coinbase.HeightInShare | pkg/coinbase/builder.go:37-62 | The scriptSig of every share of a job starts with the height of the job |
| Coinbase.WitnessForm | pkg/coinbase/builder.go:101-126 | For any transaction with one input: the result parses as the same transaction with one reserved value as its witness, and without the witness it is the same bytes (BIP141) |
| Block.BuildBlock | pkg/coin/bitcoin.go:159-180 | Header, count, the coinbase in the form the template asks for, then the transactions; an error exactly when one is no hex |
| Block.BlockReads | pkg/coin/bitcoin.go:159-180 | A node reading the block finds the header, one transaction more than the template has, the share's own coinbase, with a witness exactly when the template commits to one, and the template's transactions |
| CoinbaseOutputs.BitcoinShareOutputs | pkg/coin/bitcoin.go:120-157 | The coinbase assembled from a built job and any extranonces of the reserved sizes parses with exactly these outputs: the pool's script with what is left, each donation's script with the whole units of its percentage, in order and none that rounds to nothing, and last, at value 0, the decoded witness commitment, exactly when the template has one |
| CoinbaseOutputs.ECashShareOutputs | pkg/coin/ecash.go:123-179 | The same for eCash: the pool's script with what is left, the miner fund and the staking reward where the template says to whom, then the donations of the pool's reward |
| CoinbaseOutputs.GivenIs | pkg/engine/jobmanager.go:242-258 | A donation is one output of its script worth a, where 100 a is at most reward times percentage and 100 (a + 1) above it, and none when a is 0 |
| CoinbaseOutputs.WitnessIsCommitted | pkg/coin/bitcoin.go:139-180 | A block made of such a share reads with those outputs, and its coinbase has a witness if and only if the template has a commitment, which is then the last output |
| Payout.BitcoinBuildCoinbase | pkg/coin/bitcoin.go:120-157 | Output list and halves as built: pool output, donations, commitment; an error for a bad address or commitment |
| Payout.Remaining | pkg/coin/bitcoin.go:128-131 | The loop leaves the value less the sum of the outputs |
| Payout.BitcoinPaysAll | pkg/coin/bitcoin.go:128-148 | The outputs add up to the block's coinbase value, whatever is donated |
| Payout.DonationsWithin | pkg/engine/jobmanager.go:242-258 | Percentages of at most 100 together never give away more than the reward, and every donation output is positive |
| Payout.BitcoinCoinbasePays | pkg/coin/bitcoin.go:120-157 | With such donations the parsed coinbase of every share pays the pool's script first, and its outputs carry exactly the coinbase value |
| Payout.ECashBuildCoinbase | pkg/coin/ecash.go:123-179 | Output list and halves as built: pool output, miner fund, staking reward, donations; errors for bad addresses and scripts |
| Payout.ECashPaysAllIff | pkg/coin/ecash.go:199-213 | The outputs add up to the coinbase value if and only if the demanded payments that are made equal those deducted or, where the demands exceed the value, equal the value |
| Payout.FundWithoutAddress | pkg/coin/ecash.go:141-153 | A miner fund without an address is deducted and not paid: the outputs fall short by exactly its minimum |
| Payout.FirstHalfShared | pkg/engine/jobmanager.go:345-369 | For every coin the first half is the same for all addresses of a job, as the cached coinbases rely on |
| Payout.FirstHalfGiven | pkg/coinbase/builder.go:29-85 | And it is never empty, as the check for a missing one relies on |
| Target.EasierDifficultyAcceptsMore | pkg/coin/difficulty.go:61-101 | A lower positive difficulty accepts every hash a higher one accepts |
| Target.WithinQuotient | pkg/coin/difficulty.go:61-72 | A hash is within the rounded-down target exactly when hash times difficulty is within the difficulty-1 target |
| Target.MinimalBEValue | pkg/stratumv2/pow.go:54-61 | The shortest big-endian bytes of a number stand for it and start with a non-zero byte |
| Target.TargetBytesRoundTrip | pkg/stratumv2/pow.go:54-73 | The wire form of a target exists exactly below 2^256 and reads back as the same number |
| Target.CompactReadingsAgree | pkg/stratumv2/pow.go:37-50 | The two readings of compact bits agree if and only if the sign bit is clear or the exponent is zero |
| Target.DifficultyOne | pkg/coin/difficulty.go:20-25 | The difficulty-1 target is what the bits 0x1d00ffff stand for, on both sides, and what both make of difficulty 1 |
| Target.NotPositive | pkg/coin/difficulty.go:61-64 | A difficulty that is not positive accepts on V1 what difficulty 1 accepts, and on SV2 every hash |
| ShareHeader.HeaderReads | pkg/stratumv2/pow.go:113-134 | Each field reads back from its place in the 80 bytes |
| ShareHeader.ReverseInPlace | pkg/stratumv2/pow.go:252-256 | The in-place loop reverses the array |
| ShareHeader.SwapHashBytes | pkg/engine/jobmanager.go:664-687 | Reversal, then each 4-byte word mirrored in place |
| ShareHeader.PrevHashFormsAgree | pkg/engine/sharevalidator.go:477-493 | The word swap of the job manager undone by the validator's is the plain reversal SV2 makes of the displayed hash |
| ShareHeader.BuildV1Header | pkg/engine/sharevalidator.go:110-190 | The header assembled field by field with its error cases |
| ShareHeader.HeadersAgree | pkg/stratumv2/adapter.go:73-121 | For the same template, halves, extranonces, rolled version, time and nonce, the 80 bytes V1 hashes are BuildHeader over the adapted template |
| ShareHeader.VersionRolls | pkg/engine/sharevalidator.go:139-155 | A rolled version has each of its 32 bits flipped exactly where the share's version bits say so |
| ShareHeader.VerdictsAgree | pkg/stratumv2/pow.go:159-204 | For any header both protocols hash the same bytes and give the same pool verdict (difficulty positive, target below 2^256), and the same block verdict when the sign bit of the compact bits is clear |
| ShareHeader.GraceTestsAgree | pkg/stratumv2/session.go:700-735 | Asking by target (V1's grace) and asking by the share's own difficulty (SV2's grace) agree if and only if the hash is not zero |
| Hex.DecodeConcat | pkg/coinbase/builder.go:89-92 | Decoding a concatenation is concatenating the decoded parts |
| Hex.ValueIsBigEndian | pkg/stratumv2/adapter.go:146-156 | A hex field read as a number is its bytes read big-endian |
| Bech32.ComputePolymod | pkg/coin/bech32.go:32-45 | The loop over symbols and generator words computes the linear register |
| Bech32.ComputeHRPExpand | pkg/coin/bech32.go:47-57 | High bits, a zero, low bits of the human-readable part |
| Bech32.BurstDetected | pkg/coin/bech32.go:32-62 | Two different data parts of equal length that differ only inside six consecutive symbols never both verify, at any length (BIP173) |
| Bech32.ChecksumVerifies | pkg/coin/bech32.go:64-73 | A created checksum verifies, for every human-readable part and data |
| Bech32.ChecksumUnique | pkg/coin/bech32.go:59-73 | Of all six-symbol endings only the created one verifies |
| LinearCode.BurstChangesRegister | pkg/coin/bech32.go:32-45 | From one register, runs that differ only inside a short window end in different registers, for any linear step that loses nothing |
| LinearCode.LinearFromParts | pkg/coin/bech32.go:35-43 | A step that moves the register on, takes a symbol in and folds back what was moved out is linear when each of these is additive |
| Bech32.StepIsLinear | pkg/coin/bech32.go:35-43 | The polymod step is such a one: linear in register and symbol together |
| Bech32Vector.Alphabet | pkg/coin/bech32.go:19-30 | Symbol by symbol the alphabet of BIP173 |
| Bech32Vector.FirstValidString | pkg/coin/bech32.go:32-122 | The prefix a with no data encodes to a12uel5l, BIP173's first valid string, which fixes generator words and expansion |
| Bech32Text.Encode | pkg/coin/bech32.go:112-122 | The loop writes the encoded string |
| Bech32Text.Decode | pkg/coin/bech32.go:76-109 | The loops and checks decode, with each error case: length, mixed case, separator, stray character, checksum |
| Bech32Text.EncodeDecode | pkg/coin/bech32.go:76-122 | A string decodes to the parts it was made from if and only if the human-readable part is not empty and has no upper-case letter and the whole is at most 90 characters |
| Bech32Text.DecodeEncode | pkg/coin/bech32.go:76-122 | Whatever decodes is, in lower case, the encoding of what it decodes to |
| Bech32Text.AddressRoundTrip | pkg/coin/bech32.go:156-184 | A SegWit address made from a version and a program decodes to both |
| BitRegroup.ConvertBits | pkg/coin/bech32.go:125-152 | The accumulator loop, wrapping at 64 bits, computes the regrouped bit stream, with its error cases, on input of any length |
| BitRegroup.WrapKeepsLowBits | pkg/coin/bech32.go:130-141 | Wrapping at 64 bits never disturbs the bits still pending |
| BitRegroup.RegroupRoundTrip | pkg/coin/bech32.go:125-152 | Padded regrouping into smaller groups and back without padding loses nothing |
| BitRegroup.RegroupInverse | pkg/coin/bech32.go:125-152 | Whatever the unpadded conversion accepts, the padded one gives back |
| Base58.ShiftInByte | pkg/engine/coinrunner.go:1103-1114 | One pass over the digit array multiplies by 256 and adds a byte, growing for the last carry |
| Base58.Encode | pkg/engine/coinrunner.go:1090-1128 | The nested loops write the leading ones and the digits of the number |
| Base58.Decode | pkg/coin/base58.go:34-65 | The loop and the leading ones give the bytes, or an error for a stray character |
| Base58.EncodeDecode | pkg/engine/coinrunner.go:1090-1128 | A byte string survives encoding and decoding if and only if it holds a non-zero byte |
| Base58.DecodeEncode | pkg/coin/base58.go:34-65 | A valid string survives decoding and encoding if and only if it holds a character other than 1 |
| Base58.AuthorityKeyDecodes | pkg/coin/base58.go:69-93 | The text of a 32-byte authority key check-decodes to version 1 and a zero byte followed by the key |
| Base58.CheckDecodedIff | pkg/coin/base58.go:69-93 | A text check-decodes to a version and data if and only if it decodes to them with the first four bytes of their double hash behind |
| Base58.AlphabetInOrder | pkg/coin/base58.go:14-32 | The alphabet is the digits, capitals and small letters in order without 0, I, O and l |
| FrameCodec.SealedLength | pkg/stratumv2/codec.go:195-236 | The sealed payload is the payload and 16 bytes for each chunk |
| FrameCodec.ChunksRoundTrip | pkg/stratumv2/codec.go:157-184 | A reader cutting every 65535 bytes cuts where the writer did, and opens the payload with the nonces in step |
| FrameCodec.FrameRoundTrip | pkg/stratumv2/codec.go:125-236 | Any frame of up to 2^24-1 bytes is read back, channel bit masked, leaving what follows and the two nonces equal |
| FrameCodec.StreamRoundTrip | pkg/stratumv2/codec.go:125-236 | Any sequence of frames comes back in order, and the nonces are in step after each |
| FrameCodec.Codec.WriteChunks | pkg/stratumv2/codec.go:220-233 | The payload loop seals one chunk after the other with a nonce each |
| FrameCodec.Codec.WriteFrame | pkg/stratumv2/codec.go:195-236 | Writes the sealed frame and advances the nonce, or refuses without writing: no cipher, or more than 2^24-1 bytes |
| FrameCodec.Codec.WriteChannelFrame | pkg/stratumv2/codec.go:113-115 | The same with the channel bit set, which reading masks off |
| FrameCodec.Codec.OpenAll | pkg/stratumv2/codec.go:167-180 | The chunk loop opens the payload chunk by chunk, or fails at the first that does not open |
| FrameCodec.Codec.ReadFrame | pkg/stratumv2/codec.go:125-191 | Reads one frame, masks the channel bit and advances the nonce, with its error cases |
| VarDiff.Controller.ResetWindow | pkg/stratum/vardiff.go:121-127 | The difficulty set and the measurement started afresh |
| VarDiff.Controller.RecordShare | pkg/stratum/vardiff.go:131-239 | The whole decision: window, retarget time, variance band, silence, proposal, bounds |
| VarDiffRuns.AdjustmentsApart | pkg/stratum/vardiff.go:147-149 | In every run of shares and restarts with times that do not go back: an adjustment comes at least the retarget time after the start, after every restart and after every earlier adjustment or measurement |
| VarDiffRuns.AdjustsIff | pkg/stratum/vardiff.go:131-239 | In every run a share brings an adjustment if and only if it is at least the fourth since the last adjustment or restart, the retarget time has passed since the last measurement, and the last ten of those shares are off the pace by more than the variance, to a difficulty more than 1% away |
| VarDiffRuns.RoundedNearest | pkg/stratum/vardiff.go:96-109 | A difficulty is rounded to the nearest multiple of its last place, whole or decimal as configured, and in whole numbers never below one |
| VarDiffRuns.FourfoldAtMost | pkg/stratum/vardiff.go:177-196 | A retarget aims at no more than four times up or down, and then into the bounds |
| VarDiff.ProposalPositive | pkg/stratum/vardiff.go:96-109 | No retarget proposes zero or less in whole-number mode, or with decimals when both bounds are at least half of the last decimal place |
| VarDiff.RoundedPositiveIff | pkg/stratum/vardiff.go:96-109 | Rounding leaves something if and only if the mode is whole numbers or the difficulty is at least half of the last decimal place |
| VarDiff.ProposalsPositiveIff | pkg/stratum/vardiff.go:160-230 | Every adjustment from a positive difficulty, at any pace, is to a positive one if and only if the mode is whole numbers or both bounds are at least half of the last decimal place |
| VarDiff.SlowRoundsToZero | pkg/stratum/vardiff.go:160-230 | Otherwise slow shares at any positive difficulty below half of the last decimal place bring the difficulty to nothing |
| VarDiffSettles.RetargetIsNext | pkg/stratum/vardiff.go:160-230 | With shares at a steady pace a retarget is the ideal, clamped to a quarter and four times the difficulty, rounded, in bounds |
| VarDiffSettles.MovesTowardsIdeal | pkg/stratum/vardiff.go:160-230 | Every retarget is in bounds and no further from the ideal, and strictly nearer unless the ideal lies half way |
| VarDiffSettles.SteadyStep | pkg/stratum/vardiff.go:131-239 | One share of a steady run changes the difficulty only to the next value, and then really changes it |
| VarDiffSettles.Settles | pkg/stratum/vardiff.go:131-239 | In every steady run n > 1 adjustments need a start off the ideal by a factor of at least 2^(n-1), and from the difficulty nearest the ideal there is none |
| V1Session.Session.SendJob | pkg/stratum/session.go:429-458 | A change that is due is delivered first, the job recorded at the difficulty in force |
| V1Delivery.DeliveredIff | pkg/stratum/session.go:429-458 | For an authorized session with a change waiting: the difficulty is told before the job, and becomes the session's, if and only if changes are not put off or the job is clean; otherwise the job goes alone and the change goes on waiting |
| V1Delivery.WaitsForCleanJob | pkg/stratum/session.go:435-438 | Where changes are put off, a waiting one stays as it is through any run of shares and of jobs that are not clean, and the miner hears of the jobs alone |
| V1Delivery.BroughtByCleanJob | pkg/stratum/session.go:435-458 | The first clean job after any such run brings the very value that was waiting, the difficulty first |
| V1Delivery.ChangesOnlyAtCleanJobs | pkg/stratum/session.go:435-458 | Where changes are put off, along every run of jobs and shares the difficulty changes only at a clean job, to the value waiting just before it |
| V1Delivery.AdjustmentReaches | pkg/stratum/session.go:270-305 | What the controller decides on a share is queued where changes are put off, and elsewhere in force at once, told with the job again |
| V1Delivery.SettlesInFiveSeconds | pkg/stratum/session.go:720-729 | After any event that changes the difficulty, a new job sent with nothing due is on record at the lower of the two difficulties for five seconds, and after that at the new one |
| V1Delivery.OnRecordWithItsChange | pkg/stratum/session.go:435-458 | A new job that brings a change is on record at the lower of the two |
| V1Delivery.StaysOnRecord | pkg/stratum/session.go:736-741 | A job on record stays there through any run until 64 newer jobs are on record |
| V1Delivery.NeverRefusedForSixtyThree | pkg/engine/sharevalidator.go:215-259 | So in every run a share that meets the difficulty in force when SendJob sent its job, a new one, is accepted for as long as no more than 63 jobs follow, whatever changes come in between |
| V1Delivery.SuggestedNearest | pkg/stratum/session.go:308-340 | A suggestion is answered with the allowed difficulty nearest to it |
| V1Session.Session.RecordJobDifficulty | pkg/stratum/session.go:712-742 | Map and order list grow together, keep the lower difficulty for a job seen before and forget the oldest beyond 64 |
| V1Session.Session.HandleSuggestDifficulty | pkg/stratum/session.go:308-354 | The suggestion clamped to the bounds, taken by session and controller and sent |
| V1Session.Session.SetInitialDifficulty | pkg/stratum/session.go:543-572 | A positive stored difficulty taken as it is by session and controller and sent; the caller has clamped it |
| V1Session.Session.HandleAuthorize | pkg/stratum/session.go:185-244 | Password difficulty, authorization, the difficulty and the job at hand |
| V1Session.Session.SendMidBlockDifficulty | pkg/stratum/session.go:463-492 | A new difficulty, higher or lower, in force and sent at once with the job again |
| V1Session.Session.JudgeShare | pkg/engine/sharevalidator.go:215-259 | The session's difficulty, then the previous one within the grace, then the lower one the job was recorded at |
| V1Session.Session.ShareAccepted | pkg/stratum/session.go:270-305 | The controller asked only while nothing is pending; a change queued or sent mid-block |
| V1Runs.DifficultiesAgree | pkg/stratum/session.go:429-492 | In every run: an authorized miner was last told the session's difficulty; the record's map and list hold the same jobs, each once, at most 64; and, where no zero is queued, with nothing pending the controller's difficulty is the session's |
| V1Runs.SuggestionParts | pkg/stratum/session.go:308-354 | A suggestion taken while a change is pending leaves the pending value equal to the controller's if and only if it is the suggested one |
| V1Runs.AcceptsLowest | pkg/engine/sharevalidator.go:215-259 | A share is accepted if and only if its hash meets the lowest of the difficulties that count |
| V1Runs.RecordOnlyFalls | pkg/stratum/session.go:712-742 | The difficulty on record for a job never rises while the job stays on record |
| V1Runs.NeverRefused | pkg/engine/sharevalidator.go:215-259 | In every run a share that meets the difficulty in force when SendJob sent its job is never refused as low while that job is tracked, whatever difficulty changes follow, in every mode under which no difficulty of zero is delivered |
| V1Refusals.NeverRefusedIff | pkg/engine/sharevalidator.go:215-259 | That holds of all runs of a configuration if and only if changes wait for new blocks, the mode is whole numbers, or both bounds are at least half of the last decimal place |
| V1Refusals.ZeroRefuses | pkg/stratum/session.go:390-420 | Under any other configuration, in either mode, a miner that asks for 0.4 of the last decimal place in its password and then sends four slow shares is at a session difficulty of zero, and a share good for the difficulty its tracked job was sent at is refused |
| V1Refusals.AgreesIff | pkg/stratum/session.go:270-305 | Controller and session agree in every run if and only if changes go out mid-block, the mode is whole numbers, or both bounds are at least half of the last decimal place |
| V1Refusals.ZeroDisagrees | pkg/stratum/session.go:429-458 | Under any other configuration the same miner has zero queued, which is never delivered, and controller and session are left apart |
| V1Runs.ResendNotCovered | pkg/stratum/session.go:463-492 | A run in which a job sent again mid-block is not recorded at its new difficulty: a share that meets that one is later refused |
| V1Resends.CoveredIff | pkg/stratum/session.go:712-750 | While the present difficulty is below the hardest one the miner can ask for in its password: every share meeting it stays accepted for a job in every continuation that keeps the job tracked if and only if the job is on record at a difficulty whose target is no harder |
| V1Resends.CoveredWithoutController | pkg/stratum/session.go:390-420 | Without a controller, where a miner may ask for anything: if and only if that is so, or no hash but zero meets the present difficulty |
| V1Resends.MidBlockCoveredIff | pkg/stratum/session.go:463-492 | The same of the job sent again mid-block, in terms of the record before it |
| V1Resends.AuthorizeCoveredIff | pkg/stratum/session.go:185-244 | The same of the job sent on authorize, in terms of the record before it |
| V1Resends.FirstJobUncovered | pkg/stratum/session.go:185-244 | The job sent on a session's first authorize is not covered, unless the session is at the hardest difficulty the miner can ask for already |
| V1Resends.LowerReachesFurther | pkg/coin/difficulty.go:61-72 | A job recorded at a difficulty no higher than the present one is recorded at a target no harder, which is what a caller can check |
| Channel.Channel.SetCurrentJob | pkg/stratumv2/channel.go:339-345 | The current job becomes the newest of the superseded ones, the oldest is forgotten |
| Channel.Channel.ActivatePrevHash | pkg/stratumv2/channel.go:351-359 | True exactly for a prev-hash other than the active one, which it replaces |
| Channel.Channel.AcceptsJob | pkg/stratumv2/channel.go:363-375 | The current job and non-zero superseded ones |
| Channel.Channel.RecordShare | pkg/stratumv2/channel.go:387-439 | The controller asked only while no change waits; a change is queued, not made |
| Channel.Channel.FlushPendingDiff | pkg/stratumv2/channel.go:461-484 | A waiting change becomes difficulty and target, the old difficulty kept for the grace, the controller started afresh |
| Sv2Server.Session.SendJob | pkg/stratumv2/session.go:1125-1184 | A due difficulty goes out before the job; the template is kept under job and channel as that channel resolved it |
| Sv2Server.Session.SendWorkTo | pkg/stratumv2/session.go:930-970 | One channel's part of a new template: job staged and prev-hash on a new block, active job otherwise |
| Sv2Server.Session.Evict | pkg/stratumv2/session.go:904-917 | Beyond the history limit the templates of the lowest job ID are dropped |
| Sv2Server.OldestJob | pkg/stratumv2/session.go:906-915 | The loop over the map finds the lowest job ID |
| Sv2Server.Session.UpdateTemplate | pkg/stratumv2/session.go:898-980 | All channels given the new work, in whatever order they are visited |
| Sv2Server.Session.Keepalive | pkg/stratumv2/session.go:283-328 | The last job again to every channel that has a copy of it |
| Sv2Server.Session.OpenChannel | pkg/stratumv2/session.go:448-636 | A channel refused, or opened and given the latest work: job, then prev-hash in any case |
| Sv2Server.Session.SubmitShare | pkg/stratumv2/session.go:639-876 | The reply to a share with every error case, and the share recorded when accepted |
| Sv2Verdicts.EveryVerdict | pkg/stratumv2/session.go:639-876 | In every run, the answer to any share on an open channel: stale unless its job is among the nine latest sent to the miner (or has its template, under grace), and then accepted if and only if the header its miner hashed is within the target it was last told or, for the grace after the last change, meets the difficulty in force before it; otherwise low-difficulty |
| Sv2Verdicts.AcceptedIff | pkg/stratumv2/session.go:700-735 | Without grace, a share for a non-zero job its channel accepts is accepted if and only if that header is within the target last told, and is otherwise low-difficulty |
| Sv2Verdicts.RunRemembers | pkg/stratumv2/channel.go:387-484 | In every run a channel's earlier difficulty and the time of its change are those of the last time its miner was told another target, its accepted jobs are the nine latest sent, and its coinbase is the last one built for it |
| Sv2Verdicts.MessagesTruthful | pkg/stratumv2/session.go:1042-1184 | In every run each message says of a job what its template has (version, time, prev-hash, nBits), the first tells the channel's extranonce, and the target last told is the one of the difficulty in force |
| Sv2Verdicts.MinesItsOwn | pkg/stratumv2/session.go:930-970 | In every run the job a miner works on is made of the coinbase last built for its channel, in the extended or the standard form, and of the template's where none ever was |
| Sv2Lanes.StepLane | pkg/stratumv2/session.go:898-980 | What an event does to a channel depends on that channel alone: each is given its work once, whatever the order of the visits |
| Sv2Lanes.StepChannels | pkg/stratumv2/session.go:448-536 | Only an open that is not refused makes a channel, and then exactly the one asked for |
| Sv2Lanes.OpenedAsAsked | pkg/stratumv2/session.go:544-600 | A new channel's miner is told first the target of its start difficulty and its extranonce, and on an extended channel the room the coinbase reserves, which is some and no less than asked for |
| Sv2StoreBound.StoreBounded | pkg/stratumv2/session.go:904-917 | In every run the template store holds at most 22 jobs, and at most 21 while no channel has opened on a job still to arrive |
| Sv2Protocol.WorkInStep | pkg/stratumv2/session.go:930-970 | New work leaves channel and miner in step: same job, prev-hash and target, the stored copy what the miner was sent |
| Sv2Protocol.ResendInStep | pkg/stratumv2/session.go:985-993 | A resent job does so too |
| Sv2Protocol.FirstWork | pkg/stratumv2/session.go:500-536 | A new channel's first work puts the miner in step if and only if the prev-hash is not all zeros; on an all-zero one the miner is left with a protocol fault |
| Sv2Protocol.WorkFaults | pkg/stratumv2/channel.go:351-359 | New work faults a miner in step if and only if it is the channel's first and its prev-hash is all zeros |
| Sv2Runs.MinersFollow | pkg/stratumv2/session.go:947-972 | In every run of opens, templates, keepalives and shares a miner that follows section 5.3.15 of the SV2 Mining Protocol is without fault and its active job, prev-hash and target are the server's view of the channel |
| Sv2Runs.JudgedAsMined | pkg/stratumv2/session.go:1012-1035 | In every run a share for a job that has its template is hashed over the root, or coinbase halves, last sent to that channel under that job ID, and over the prev-hash the miner worked on |
| Sv2Runs.RunConsistent | pkg/stratumv2/session.go:898-980 | The invariant behind both, over every run |
| Sv2Difficulty.DifficultiesAgree | pkg/stratumv2/channel.go:387-484 | In every run whose configurations are whole-number or have both bounds at least half of the last decimal place: with nothing waiting the controller's difficulty is the judging one; a waiting change is the controller's; the channel's target is the one last sent to the miner and that of the judging difficulty |
| Sv2Difficulty.AdjustmentReaches | pkg/stratumv2/channel.go:426-484 | A difficulty the controller decides on is queued while shares are judged as before; the next job that is not held back brings it, its target first |
| Sv2Agreement.AgreesIff | pkg/stratumv2/channel.go:387-484 | Controller and channel agree so in every run of a configuration if and only if it is one of those, for any hash function and templates for which some share meets difficulty 1 |
| Sv2Agreement.ZeroDisagrees | pkg/stratumv2/channel.go:426-436 | Under any other configuration four slow shares on a channel opened at the bounded difficulty nearest 0.4 of the last decimal place leave a zero that is never delivered |
| JobWindow.OldestInWindow | pkg/stratumv2/session.go:904-917 | The oldest stored job can be among a channel's eight latest only while the store holds no more jobs than eight and those the channel missed |
| Sv2Session.ChangeMadeIff | pkg/stratumv2/session.go:1125-1145 | New work makes a waiting difficulty change, target before job, if and only if the channel does not put changes off or the work is on the prev-hash already active |
| Sv2Broadcast.NextOrdered | pkg/stratumv2/server.go:343-370 | Jobs made and delivered in order stay so: the session is never ahead of what is underway, and the latest template is the last of it |
| Sv2Broadcast.LacksOnlyTheNext | pkg/stratumv2/server.go:343-370 | In every run the templates newer than a channel's first that it was never sent are at most one, a job still underway |
| Sv2Broadcast.AcceptedJobsHaveTemplates | pkg/stratumv2/channel.go:363-375 | In every run, with any number of channels, each non-zero job ID a channel accepts still has that channel's template despite eviction |
| Sv2Broadcast.AcceptedSharesJudgedAsMined | pkg/stratumv2/session.go:1012-1035 | So in every run every share for a non-zero job its channel accepts is hashed over the root, or coinbase halves, and prev-hash its miner used, the template never missing |
| JobCache.JobManager.BeginRefresh | pkg/engine/jobmanager.go:292-333 | A template skipped, or the tip taken and the refresh begun under the job lock |
| JobCache.JobManager.ReadAddresses | pkg/engine/jobmanager.go:338-343 | A list of exactly the addresses connected at that moment, each once, in no particular order |
| JobCache.JobManager.BuildTails | pkg/engine/jobmanager.go:348-361 | One tail for each address that builds; the first one's head |
| JobCache.JobManager.CommitRefresh | pkg/engine/jobmanager.go:375-453 | The job stored as the newest and the history pruned |
| JobCache.JobManager.PruneJobs | pkg/engine/jobmanager.go:634-656 | The oldest jobs dropped until 20 are left |
| JobCache.JobManager.CountAddress | pkg/engine/jobmanager.go:538-545 | The count under the address lock, and whether tails are still to be filled |
| JobCache.JobManager.FillTails | pkg/engine/jobmanager.go:546-571 | Every retained job given the address's tail, built from that job's own template |
| JobCache.JobManager.UnregisterAddress | pkg/engine/jobmanager.go:575-590 | The count lowered, and at zero the address forgotten |
| JobCache.JobManager.GetAddressCoinb2 | pkg/engine/jobmanager.go:621-632 | The tail of a job for an address, if there is one |
| JobCacheRuns.CacheComplete | pkg/engine/jobmanager.go:335-360 | Under any interleaving of refresh, the two halves of registering, and unregistering: with the job lock free, every retained job has a tail for every connected address with no fill pending exactly when its own template builds one, and every tail is the one that builds |
| JobCacheRuns.WholeCoinbase | pkg/engine/jobmanager.go:593-618 | The two parts a session is sent are the coinbase of that job's template for its address, whichever address the head was built for, if and only if the job has a head |
| JobHeads.NewJobHeadlessIff | pkg/engine/jobmanager.go:348-369 | A refresh makes a job with tails and no head if and only if the first address does not build, a later one does, and the configured address is empty or does not build |
| JobHeads.NeverHeadlessIff | pkg/engine/jobmanager.go:335-369 | Every job with a tail has a head in every run if and only if for every template the configured address builds, or the addresses that may be connected build all or none; where not, a run reaches such a job |
| JobHeads.WholeWhenSettled | pkg/engine/jobmanager.go:593-618 | Where that holds, the two parts sent are always the whole coinbase |
| JobCacheRuns.StaysConnected | pkg/engine/coinrunner.go:254-342 | In every run the pinned address and the address of every live session stay connected |
| JobCacheRuns.NewestRetained | pkg/engine/jobmanager.go:310-333 | At most 20 jobs are kept, the newest among them; the check for a tip already broadcast by another refresh never finds one |
| JobTips.LatestTwenty | pkg/engine/jobmanager.go:634-656 | In every interleaving the jobs kept are exactly the latest twenty, none missing |
| JobTips.CleanIff | pkg/engine/jobmanager.go:304-330 | In every interleaving a job kept is clean if and only if it is on another tip than the job before it |
| JobTips.RefreshesIff | pkg/engine/jobmanager.go:304-323 | In every run a template leads to a job if and only if it is forced, on another tip, or half a minute after the last clean one was begun |
| JobAddresses.CountsExactly | pkg/engine/jobmanager.go:538-590 | In every run an address is counted exactly once for each live session mining to it, once more when it is pinned, and once for every count a session left behind by authorizing again or by leaving an empty address |
| JobAddresses.ConnectedIff | pkg/engine/jobmanager.go:575-590 | So it is connected if and only if a session mines to it, it is pinned, or a count of it was left behind |
| JobCacheRuns.RunInv | pkg/engine/jobmanager.go:292-590 | The invariant behind these, over every run |
| JobIds.JobIdsDiffer | pkg/mesh/session.go:384-401 | IDs of two numbers, or of two starts of the engine, are equal only when start and number are |
| Mesh.Session.RegisterJob | pkg/mesh/session.go:315-329 | The next ID, entered in map and order list; beyond 512 the oldest forgotten |
| Mesh.Session.SwitchTo | pkg/mesh/relay.go:301-354 | Nothing for the active or a dead coin; otherwise the old coin goes warm and the miner is told the new extranonce, then the replayed difficulty and a job under a fresh ID; a miner that cannot be told is closed |
| Mesh.Session.GoLive | pkg/mesh/backend.go:481-486 | The coin live, its last difficulty and the given or last job sent |
| Mesh.Session.SwitchDeferred | pkg/mesh/relay.go:289-296 | The move put off to the target's next job |
| Mesh.Session.OnNotify | pkg/mesh/backend.go:283-327 | A coin's job kept, and sent on from the live active coin, or the move made that waited for it |
| Mesh.Session.OnDead | pkg/mesh/relay.go:420-439 | The active coin's death moves the miner to the first coin alive or closes it; another's does nothing |
| Mesh.FirstServing | pkg/mesh/relay.go:57-64 | The loop finds the first coin alive, one left out |
| Mesh.Session.Failback | pkg/mesh/relay.go:220-262 | Home when it is up, or else the first coin alive ahead of the current one; a rotating miner is left alone |
| Mesh.Session.Rotate | pkg/mesh/relay.go:182-214 | The coin whose turn it is, deferred, or at once when the wait is overdue |
| Mesh.Session.Reassign | pkg/mesh/mesh.go:526-562 | Home or split set, and the move deferred |
| Mesh.Session.Subscribe | pkg/mesh/relay.go:517-539 | The miner told the active coin's extranonce |
| Mesh.Session.Authorize | pkg/mesh/relay.go:541-610 | An assigned coin that is up made active, with no extranonce sent |
| Mesh.Session.FinishAuthorize | pkg/mesh/relay.go:611-648 | The coin waited for goes live and replays, or the session ends without a first job |
| Mesh.Session.Submit | pkg/mesh/relay.go:660-699 | A share sent to its job's coin under the coin's ID, or answered stale |
| Mesh.FirstAlive | pkg/mesh/relay.go:57-64 | The coin found is alive and not the one left out, and no earlier one is; none when there is no such coin |
| MeshRuns.MoveLandsOnItsJob | pkg/mesh/backend.go:322-323 | A deferred move happens on the target's own job, which is the last thing the miner is sent, freshly registered; the move is then no longer pending |
| MeshRuns.SharesFindTheirCoin | pkg/mesh/relay.go:660-694 | A share for one of the last 512 registered jobs goes to that job's coin and nowhere else, under the coin's own ID |
| MeshRuns.OtherSharesAreStale | pkg/mesh/relay.go:668-681 | A share for any other job is forwarded nowhere and answered stale |
| MeshRuns.ForeignSharesAreStale | pkg/mesh/session.go:384-401 | So is one for a job of another session or of another start of the engine |
| MeshRuns.RunRoutes | pkg/mesh/relay.go:660-699 | Every share with a job ID in every run is routed one of these two ways |
| MeshRuns.KnownIffIssued | pkg/mesh/session.go:315-340 | The registry resolves an ID if and only if it is one of the last 512 registered |
| MeshRuns.JobsMatchIff | pkg/mesh/relay.go:301-354 | In every run, the jobs a step sends are all for the extranonce the miner was told last before each if and only if the coin whose job is passed on without a new extranonce, on a job line or at the end of an authorize, has the extranonce told last |
| MeshRuns.AuthorizeMatchesIff | pkg/mesh/relay.go:568-648 | An authorize that ends at once sends jobs for the extranonce told last if and only if the coin it puts the miner on has the same extranonce as the one before |
| MeshRuns.InTuneUntilAuthorize | pkg/mesh/relay.go:301-354 | From a subscribe, or any time the miner has its coin's extranonce, until an authorize begins or ends on a coin left meanwhile, every job sent is for the extranonce last sent |
| MeshTicks.FailsBackIff | pkg/mesh/relay.go:220-262 | In every run a failback tick moves an open miner that is not rotating if and only if it is not where it belongs: at home while that is up, and without a home on the first coin that is up; a miner that cannot be told is let go |
| MeshTicks.BelongsFirst | pkg/mesh/relay.go:248-258 | Where a miner without a home belongs is up, and no coin before it is |
| MeshTicks.DeathMovesIff | pkg/mesh/relay.go:420-441 | In every run the death of the coin under an open miner moves it to the first other coin that is up, or lets it go when there is none; the death of another coin moves nobody |
| MeshTicks.RotatesIff | pkg/mesh/relay.go:133-215 | In every run a rotation tick puts the move off to the next job of the coin whose turn it is, and makes it at once only when it has been put off too long |
| MeshTicks.TurnComes | pkg/mesh/relay.go:301-354 | A move put off so lands on the next job that coin sends, the miner told extranonce, difficulty and that very job |
| MeshTicks.AssignedComesHome | pkg/mesh/relay.go:243-250 | In every run a miner assigned a coin that is up, by a user or on authorize, is on it after the next failback tick when it can be told |
| MeshTicks.SplitStays | pkg/mesh/relay.go:232-238 | A miner given a split is left alone by failback |
| MeshDifficulty.ToldItsDifficulty | pkg/mesh/relay.go:301-410 | In every run, until an authorize begins or ends on a coin the miner has left: the difficulty an open miner was told last is the last one of the coin that feeds it |
| MeshDifficulty.AuthorizeEndsWithJob | pkg/mesh/relay.go:611-648 | In every run an authorize that ends with the miner still there ends with a job of the coin waited for, after its difficulty |
| MeshUntold.PinnedUntold | pkg/mesh/relay.go:568-648 | A run to an authorize for another coin, whose job is for an extranonce the miner was not told, for any two extranonces |
| MeshUntold.MovedUntold | pkg/mesh/relay.go:611-648 | A run in which the coin waited for dies, the miner is moved and told the other extranonce, and the authorize ends on the dead coin's job |
| Balancer.HelpfulMoves | pkg/mesh/balancer.go:211-227 | The loops list exactly the allowed moves that help |
| Balancer.BestOf | pkg/mesh/balancer.go:231-247 | The pick is within the tie tolerance of the lowest score and of the least fit among those that are |
| Balancer.ChooseMove | pkg/mesh/balancer.go:199-250 | One greedy choice, none exactly when no allowed move helps |
| Balancer.GreedyMoves | pkg/mesh/balancer.go:198-251 | The loop of at most three moves is a round |
| Balancer.Fleets.Balance | pkg/mesh/balancer.go:84-267 | A round from the recorded placements, and the record afterwards: every placement, the time of each that changed |
| BalancerGap.WorstIff | pkg/mesh/balancer.go:165-194 | The worst deviation is at most x if and only if every coin looked at has hashrate within x of the total from its share of the total, a coin outside the target having no share |
| BalancerGap.ScoreZeroIff | pkg/mesh/balancer.go:165-194 | The squared distance is nothing if and only if every coin looked at has its very share |
| BalancerGap.HelpsIff | pkg/mesh/balancer.go:211-227 | A move helps if and only if it takes a free miner with hashrate to another target coin it can reach and lowers the sum of the squares of what the coins' hashrates are off by, by more than the least gain |
| BalancerGap.MovesIff | pkg/mesh/balancer.go:198-230 | A round moves someone if and only if some coin is more than 5% of the hashrate off its share and some move helps |
| BalancerGap.FirstMoveFits | pkg/mesh/balancer.go:231-250 | The first move of a round is within 0.0004 of the best score, and fits no worse than any other that is |
| BalancerGap.ThreeAtMost | pkg/mesh/balancer.go:198-251 | A round has at most three moves |
| BalancerGap.MovesReachable | pkg/mesh/balancer.go:206-220 | Every move of a round is of a miner with hashrate, to a target coin it can reach |
| BalancerGap.CoinsShareAll | pkg/mesh/balancer.go:165-173 | The hashrates on the coins add up to the total, whoever is where |
| BalancerGap.MoveShifts | pkg/mesh/balancer.go:215-220 | A move takes the miner's hashrate from the one coin to the other and changes no third |
| BalancerRuns.RoundDescends | pkg/mesh/balancer.go:198-251 | The squared distance after a round and 1e-9 for each of its moves are within the distance before it |
| BalancerRuns.RoundEnds | pkg/mesh/balancer.go:198-251 | A round ends within tolerance, after three moves, or where no allowed move of a miner left alone helps |
| BalancerRuns.MovesFree | pkg/mesh/balancer.go:211-250 | A round has at most three moves, of distinct miners, each out of its cooldown and to another coin |
| BalancerRuns.ElsewhereIffMoved | pkg/mesh/balancer.go:253-266 | The miners elsewhere at the end of a round are exactly those it moved |
| BalancerRuns.FinitelyManyMoves | pkg/mesh/balancer.go:84-267 | Over any number of rounds with fixed hashrates, target and coins, the number of moves times 1e-9 is within the distance at the start |
| BalancerRuns.IdleAddsNothing | pkg/mesh/balancer.go:183-189 | A coin outside the target with nobody on it adds nothing to the distance |
| BalancerRuns.NextCovers | pkg/mesh/balancer.go:177-189 | Coins that include target and placements at the start of a round do so at the start of the next |
| BalancerRuns.ComesBackAnew | pkg/mesh/balancer.go:142-154 | A worker dropped in a round has no place afterwards: whenever it comes back it starts on the coin its session is on |
| BalancerRuns.CooldownHolds | pkg/mesh/balancer.go:143-267 | No worker is moved twice within the cooldown, whatever miners come and go between rounds |
| BalancerRuns.LeastIffMatched | pkg/mesh/balancer.go:293-331 | The fit is least among all arrangements with as many miners on each coin if and only if larger miners sit on coins at least as hard, for any number of miners |
| BalancerRuns.Better | pkg/mesh/balancer.go:293-331 | Where a larger miner sits on an easier coin, exchanging two miners makes the fit strictly less |
| Rearrangement.OpposedIsLeast | pkg/mesh/balancer.go:323-330 | For any cost that charges more for pairing large with large: the opposed order costs least of all orders |

## Left out

- Noise handshake, keys and the cipher itself: sealing is a function whose opening gives the plaintext back and adds 16 bytes; sv2noise.go is not part of this model.
- SHA-256: a function with 32-byte results; nothing is claimed about collisions.
- Sockets, deadlines, JSON text, RPC, ZMQ, HTTP, storage, logging, metrics, activity and rejection records: plumbing.
- Write failures: every write to a miner or coin that is still open succeeds.
- Races inside one handler: each handler or lock section is one step; the authorize of a mesh miner, which waits for a job, is two.
- IEEE rounding: difficulties, hashrates and percentages are reals, and a donation is the floor of the real product.
- Integer widths: unbounded, except where written out: the regrouping accumulator (64 bits, wrapping), values and lengths in a transaction (64 bits), header fields (32 bits); block heights and amounts are taken to fit an int64, and counters do not wrap.
- Sv2Server.Session: holds its channels by value, so two holders of one channel object are not modelled; Channel.Channel is the object form.
- Sv2Broadcast.AcceptedJobsHaveTemplates: for jobs that reach a session in order; goroutines of two broadcasts that overtake each other, or a channel opened on a latest template while an older one is still underway, are not modelled.
- Closed channels, cumulative share acknowledgements, best-share records and rejection counters.
- A channel's target is kept as a number; Target.TargetBytesRoundTrip says what its wire form is.
- The V1 coinbase cache of pool mode, where one coinbase serves all, and the merkle branches and header fields stored with a job: the cache is about tails.
- The SV2 extranonce allocator, and whether V1 and SV2 extranonces can coincide: the two sides write opposite byte orders, so the comment's claim is not about the bytes.
- Text: human-readable parts and addresses are ASCII; hex is accepted in either case, as the decoder does; the quirks of Sscanf on malformed fields are not modelled.
- CashAddr, the other coins' copies of the Bitcoin builder, address version tables and script templates.
- Coinbase.AssembledParses: says nothing of extranonces that are not of the reserved size, which the pool hands out itself.
- Payout.DonationsWithin: percentages beyond 100 together are not ruled out by the code; the pool's own output can then be negative.
- CoinbaseOutputs.BitcoinShareOutputs: for percentages of at most 100 together and values below 2^64, as DonationsWithin; so is the eCash form.
- Sv2Verdicts.EveryVerdict: for shares of the form the channel was opened in, extended with an extranonce or standard without; and for jobs that reach the session in order, as AcceptedJobsHaveTemplates.
- Sv2Lanes.OpenedAsAsked: a coinbase reserving 2^16 bytes or more is told in 16 bits and not covered.
- VarDiffRuns.AdjustmentsApart: for a clock that does not go back.
- BalancerGap.WorstIff: for hashrates that are not negative, as readings are; so are the other members of the module.
- V1Resends.CoveredIff: says nothing of a session under a controller that is already at the hardest difficulty its miner can ask for; only rounding, a default beyond the bounds or a restored difficulty could raise it further.
- VarDiffSettles.Settles: for whole-number bounds and start and a steady pace, as the design has it; random share times are not modelled.
- Balancer.ChooseMove: which of several equally good moves is taken, and in which order miners of equal hashrate are listed, is left open, as the sort leaves it.
- BalancerRuns.LeastIffMatched: coins of equal difficulty share a rank here, where the code gives them ranks in an order its sort leaves open; with distinct difficulties the two are the same.
- The balancer's target shares, hashrate readings and the reassignment that carries a move out: parameters, and Mesh.Session.Reassign.
- Mesh.Session.Submit: the worker name put into a forwarded share, the passing back of replies and the two-minute list of shares awaiting one.
- Mesh.Session.OnNotify: job lines are taken as parsed; lines that are no valid notify or submit pass through unchanged in the code.
- Mesh.Session.Redial: the clearing of a dead coin and the end of its new connection are not interleaved.
- Rotation schedules: which coin's turn it is, and whether a wait is overdue, are inputs of a tick.
- Version-rolling negotiation, vendor strings and the keepalive that repeats a difficulty: nothing here depends on them.
