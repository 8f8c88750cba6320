# Zagros Core: verified model

Zagros Core is a blockchain node: a BFT engine that agrees on blocks, an executor with a
constant-product exchange, a bridge and an ERC-20 view of the native ZERENYA token inside
the EVM, epoch-wise validator management, on-chain governance, and a mempool that feeds the
proposer. This project models the parts whose correctness is decided by their own code and
proves what they are for: agreement, exactly-once effects, conservation of money, exact
limits, exact indexes, and formats that read back.

| part | files | what is at stake |
|---|---|---|
| consensus | `ConsensusTypes`, `EngineSpec`, `EngineLemmas`, `EngineMoves`, `Certificates`, `Engine`, `Network`, `DoubleSign` | the class `BftEngine` keeps an invariant through its mutually recursive handlers; networks of such engines agree; the double-sign guard survives crashes |
| EVM journal | `Journal`, `Interceptor`, `TokenSupply` | first-touch undo logs refine full snapshots; the token supply never changes |
| exchange | `TimedLog`, `Breaker`, `Amm`, `Dex` | the volume breaker's exact bound; quotes, settlement and conservation over runs |
| bridge | `MintLimit`, `Multisig`, `Bridge`, `BridgeRuns` | an exact sliding window, order-free signature counting, one execution per source |
| validators | `Lifecycle`, `EpochSpec`, `Epoch`, `EpochLaws`, `ShadowVotes`, `ShadowLaws` | the epoch transition and the pruned replay ledger |
| governance | `Tally`, `Governance`, `GovernanceRuns`, `GovernanceLaws` | lifecycle, deposits, capped tallies |
| mempool | `MempoolSpec`, `MempoolQueue`, `MempoolMoves`, `MempoolTurns`, `Mempool`, `MempoolRuns`, `MempoolLaws`, `BlockSelection` | companion indexes, the forward-nonce queue, FIFO selection |
| replay guard | `Text`, `ReplayGuard` | printer and parser |
| shared | `Options`, `Words`, `Products`, `Lists`, `Ordering`, `Sums` | |

Objects whose methods update fields are classes with those fields. A method's contract ties
the new state to a function of the old one, and the theorems are about those functions over
all runs. Some predicates take a `depth` argument that has no meaning of its own: it keeps a
definition folded in proofs that only pass it along, and the lemma named after the predicate
with `Is` (or `Open`) unfolds it. The modules named `…Laws` say in numbers what the named
conditions of the operations amount to.

The mutual recursion of the engine's handlers ends because of `Rank`: a round is hot when the
votes recorded in it and one's own could reach a quorum, later rounds are never hot, and each
nested call either advances the step or leaves a hot round for a cold one.

Agreement holds for honest nodes that do not restart inside a height they have voted in: lock
and valid value live in memory only (crates/zagros-consensus/src/engine.rs:403-406). Across
restarts `DoubleSign` gives what the file can give, no two different votes for one height,
round and step. The guard file may be damaged at any time but is never deleted.

## Where the code gives less than one would expect

- A ZERENYA transfer inside the EVM whose credit would pass 128 bits loses the amount:
  `TokenSupply.MoveSupply` says exactly when the supply is kept, `TokenSupply.OverflowHappens`
  shows a loss.
- A bridge signature covers recipient, chain and hash joined without lengths
  (bridge.rs:636-660): `Multisig.MessageIs` says exactly which proposals share a message,
  `Multisig.SignatureBindsContent` when a signature binds its content, and
  `Bridge.SourceCutElsewhere` and `Bridge.MintedTwice` show one signature minting twice.
- Rolling back a failed frame leaves blank accounts where there were none:
  `Journal.FailedCallExact` says exactly when the state is restored, `TokenSupply.BlankMatters`
  that a zero transfer is the one call that can tell, `TokenSupply.BlankTells` shows one that does.
- The daily mint limit forgets what is minted at second zero (`MintLimit.SecondZeroForgotten`):
  `MintLimit.ExactWindow` and `MintLimit.LimitHolds` say exactly when it is a window of a day.
- For the bridge authority the pending cost of the mempool can fall below what is reserved
  (`MempoolRuns.BridgeShortfall`); `MempoolRuns.StepHeld` says by how much and exactly when.
- A proposal rejected at an epoch boundary can still be voted on until its voting period is
  over by the clock (`GovernanceRuns.RejectedStillVotable`, `GovernanceRuns.VotedAfterRejection`); only its tallies move, status and
  schedule are final (`GovernanceRuns.TerminalIsFinal`).
- No unchecked body is to be committed (crates/zagros-consensus/src/engine.rs:1418-1421), but
  the engine remembers which hashes are good, not which bodies:
  `Engine.BftEngine.HandsOutChecked` says exactly when every copy it may hand out passes,
  `Engine.BftEngine.OtherBodyHandedOut` shows one that does not.
- The replay-guard format reads back exactly the canonical data (`ReplayGuard.RoundTrip`,
  `ReplayGuard.SpaceIsLost`).

## Model

| member | source | states |
|---|---|---|
| `QuorumMath.QuorumsShareHonest` | crates/zagros-consensus/src/engine.rs:3-6 | any two sets of Q = ⌊2N/3⌋+1 voters share a validator outside every faulty set of at most f = ⌊(N−1)/3⌋ |
| `ConsensusTypes.ThresholdsAre` | crates/zagros-types/src/consensus.rs:115-140 | Q is the least number above two thirds of the set, f the greatest below one third |
| `EngineLemmas.OneQuorum` | crates/zagros-consensus/src/engine.rs:1464-1480 | at most one value reaches Q in the slot of a round and phase |
| `Certificates.QuorumValue` | crates/zagros-consensus/src/engine.rs:1464-1480 | returns the value with Q votes and all of its votes, and nothing exactly when no value has Q |
| `Certificates.BuildQc` | crates/zagros-crypto/src/lib.rs:211-255 | what is built verifies and lists exactly the distinct validators counted for the block; with sound votes it is built if and only if Q of them are counted for a block |
| `Certificates.QcIsQuorum` | crates/zagros-crypto/src/lib.rs:184-210 | a valid certificate names Q distinct validators, each with a verified non-shadow precommit for its block |
| `Certificates.OneCertificatePerRound` | crates/zagros-crypto/src/lib.rs:184-255 | two valid certificates of one height and round share an honest signer, whatever they certify |
| `Engine.BftEngine.New` | crates/zagros-consensus/src/engine.rs:444-518 | an engine is built exactly for parameters in range, valid sets without repeated keys or addresses, an identity that holds its seat and, beyond genesis, a tip with its own valid certificate; it starts at the height after the tip with nothing locked, keeping the record of earlier heights |
| `Engine.OpensIff` | crates/zagros-consensus/src/engine.rs:444-518 | the whole list of what an engine asks for, in numbers |
| `Engine.BftEngine.MaySign` | crates/zagros-consensus/src/engine.rs:312-343 | a vote is signed only if the double-sign guard, when there is one, grants exactly this height, round, step and hash |
| `Engine.BftEngine.SignBallot` | crates/zagros-consensus/src/engine.rs:1482-1540 | a validator signs only while its slot is free and only what its guard granted, without a guard always; it and an observer start the vote timer either way |
| `Engine.BftEngine.CastVote` | crates/zagros-consensus/src/engine.rs:1482-1578 | the first output is the ballot for exactly this value in this round and phase, or there is none; a validator free to vote does vote; invariant, monotone round and lock, and the bound on view changes hold over all nested calls |
| `Engine.BftEngine.OnVote` | crates/zagros-consensus/src/engine.rs:1240-1298 | files a sound vote or reports it against the first one of its slot; a vote that brings the voters of a later round above f moves the engine to exactly that round; no matter how far the nested calls run, at most two view changes follow and the invariant is kept |
| `Engine.BftEngine.CountVote` | crates/zagros-consensus/src/engine.rs:1279-1298 | filing a vote and then skipping or checking thresholds keeps the invariant; the node's own vote is part of the nested call that cast it |
| `Engine.BftEngine.ReportDoubleVote` | crates/zagros-consensus/src/engine.rs:1262-1278 | the first conflicting vote per validator, round and phase is reported with both votes, once |
| `Engine.BftEngine.StartRound` | crates/zagros-consensus/src/engine.rs:740-793 | announces the view change from the current round to the new one, enters it, asks its proposer for a block when the block interval is over, replays the proposal stored for it, and answers all thresholds |
| `Engine.BftEngine.EnterRound` | crates/zagros-consensus/src/engine.rs:766-785 | the timers of a round: the proposal is due one round timeout after the block interval, a proposer is asked now or reminded then, and no vote timer runs |
| `Engine.BftEngine.TimeoutsAre` | crates/zagros-consensus/src/engine.rs:606-618 | for parameters in range the proposal timeout is the base times the number of the round, at most ten times the base, and the vote timeout half of that |
| `Engine.BftEngine.TimeoutsGrow` | crates/zagros-consensus/src/engine.rs:606-618 | no timeout is shorter in a later round |
| `Engine.BftEngine.ProposersRotate` | crates/zagros-consensus/src/engine.rs:599-602 | in any N consecutive rounds every validator proposes exactly once |
| `Engine.BftEngine.CheckedExtendsTip` | crates/zagros-consensus/src/engine.rs:1157-1238 | a proposal that checks out is of the next height, on the hash and after the time of the tip, by the proposer of its rotation slot, with the tip certified and its state root computed |
| `Engine.BftEngine.OnProposal` | crates/zagros-consensus/src/engine.rs:1014-1133 | a validator free to vote answers the first timely proposal of the round with a prevote for the value the lock rule gives, nil if the proposal does not check out; a later one is stored once within the lookahead, a second one of a round is compared with the first, and one of an earlier round only ever brings the body of the certified block, which is then committed |
| `Engine.BftEngine.ReportIff` | crates/zagros-consensus/src/engine.rs:1134-1155 | two different blocks of one proposer and round are evidence, the first time |
| `Engine.BftEngine.KeepIfGood` | crates/zagros-consensus/src/engine.rs:1094-1112 | a timely proposal is kept, and its hash remembered as good, exactly when it checks out |
| `Engine.BftEngine.PrevoteOn` | crates/zagros-consensus/src/engine.rs:1099-1131 | the prevote is for the block when unlocked, locked on it, or shown a newer quorum of prevotes for it from before this round, and for nil otherwise |
| `Engine.BftEngine.PrevoteIff` | crates/zagros-consensus/src/engine.rs:1099-1131 | the vote is for the block exactly when it checks out and nothing is locked, or it is, or more than two thirds of the set prevoted it in a round after the lock and before this one |
| `Engine.BftEngine.AdvancePrevotes` | crates/zagros-consensus/src/engine.rs:1334-1358 | Q prevotes for nil, or for a block whose proposal is here, make a validator free to vote precommit exactly that value, and lock the block |
| `Engine.BftEngine.LockAndPrecommit` | crates/zagros-consensus/src/engine.rs:1344-1349 | precommits the block of the quorum and leaves, as long as the height lasts, a lock on it or one of a later round |
| `Engine.BftEngine.TryAdvance` | crates/zagros-consensus/src/engine.rs:1323-1461 | all thresholds in order; afterwards none that has been reached is left unanswered: Q prevotes for nil or a block at hand have led to the precommit step, Q precommits for a block to a certificate unless a grace window is open, Q for nil to the next round; with no precommit due, a certified block that is here is committed at once |
| `Engine.BftEngine.CloseQc` | crates/zagros-consensus/src/engine.rs:1360-1409 | a certificate that is set is for the first round with Q precommits for a block and for that block, signed by everyone who precommitted it there; with grace 0 it is set exactly when there is such a round: the grace window delays and never adds |
| `Engine.BftEngine.GraceVerdict` | crates/zagros-consensus/src/engine.rs:1366-1394 | whether to wait for more precommits, until when, and with which reason the certificate closes |
| `Engine.BftEngine.CommitPending` | crates/zagros-consensus/src/engine.rs:1410-1444 | commits only the block named by the pending certificate, and does so at once when its body is here and verified; the copy handed out is one of those stored, checked in this call unless its hash is known to be good |
| `Engine.BftEngine.CheckBody` | crates/zagros-consensus/src/engine.rs:1422-1440 | a body whose hash is not yet known to be good is checked now, and all copies of a bad one are thrown away |
| `Engine.BftEngine.HandsOutChecked` | crates/zagros-consensus/src/engine.rs:1410-1444 | every copy that may be handed out passes the check if and only if the hash is not yet known to be good or all stored copies pass |
| `Engine.BftEngine.OtherBodyHandedOut` | crates/zagros-consensus/src/engine.rs:1053-1060 | the failing input: a second copy put aside for a later round, with the same header and another body, may be handed out although it fails the check |
| `Engine.BftEngine.CommitBlock` | crates/zagros-consensus/src/engine.rs:1580-1618 | emits the commit of exactly the certified block with its certificate and starts the next height on it |
| `Engine.BftEngine.NilQuorumSkip` | crates/zagros-consensus/src/engine.rs:1446-1459 | Q precommits for nil start the next round |
| `Engine.BftEngine.ProposeTimeout` | crates/zagros-consensus/src/engine.rs:692-703 | a silent proposer earns a nil prevote |
| `Engine.BftEngine.PrevoteTimeout` | crates/zagros-consensus/src/engine.rs:704-713 | no quorum of prevotes in time earns a nil precommit |
| `Engine.BftEngine.PrecommitTimeout` | crates/zagros-consensus/src/engine.rs:714-737 | no certificate in time starts exactly the next round, unless a certificate is pending or waits for its grace window |
| `Engine.BftEngine.Tick` | crates/zagros-consensus/src/engine.rs:673-738 | before `start` nothing; else a waiting proposer is reminded, a silent one earns a nil prevote, a missing quorum a nil precommit, a missing certificate the next round, each exactly when its timer has passed; every threshold is answered afterwards, and one call changes rounds at most twice |
| `Engine.BftEngine.Handle` | crates/zagros-consensus/src/engine.rs:937-963 | a sound vote of this height, at most 16 rounds ahead, is known afterwards, on file if its slot was free, and reported together with the first one if it differs; a proposal and a heartbeat have the effect of their handlers; a message of a later height, or before the height is started, is put aside for up to two heights and 4096 messages; one of an earlier height changes nothing; at most two view changes follow, and every threshold that has been reached stays answered |
| `Engine.BftEngine.OnHeartbeat` | crates/zagros-consensus/src/engine.rs:980-1012 | a heartbeat of the awaited proposer moves the proposal deadline, and nothing else |
| `Engine.BftEngine.AliveIff` | crates/zagros-consensus/src/engine.rs:980-1012 | a heartbeat counts when it is signed by the awaited proposer and not from the future, while the chain may idle |
| `Engine.BftEngine.Start` | crates/zagros-consensus/src/engine.rs:653-671 | opens the height, asks its first proposer when that is due, and replays what was put aside: unless it led to a commit, every sound vote put aside has been counted |
| `Engine.BftEngine.Draft` | crates/zagros-consensus/src/engine.rs:800-904 | what a proposer signs: the valid value under this round, or a new block that the host executed and found sound, and only what its guard granted |
| `Engine.BftEngine.Propose` | crates/zagros-consensus/src/engine.rs:800-904 | only the proposer of the round proposes, once; a valid value is proposed again with its round, a new block extends the tip at this height and round; one that is locked proposes a block with a quorum of prevotes at least as recent as its lock |
| `EngineMoves.LockBehindValid` | crates/zagros-consensus/src/engine.rs:1335-1350 | the lock never outruns the valid value, equal rounds mean equal blocks, and both have Q prevotes in the book and the proposal at hand |
| `EngineMoves.FewAhead` | crates/zagros-consensus/src/engine.rs:1282-1295 | in every reachable state at most f validators have been heard from in any later round |
| `EngineMoves.RoundsRise` | crates/zagros-consensus/src/engine.rs:740-765 | every view change of a call starts at the round before it and goes strictly up |
| `EngineMoves.QuorumsStay` | crates/zagros-consensus/src/engine.rs:1464-1480 | within a height no call takes a validator out of those who back a value in a slot: what has reached Q stays there |
| `EngineMoves.BodyIsCertified` | crates/zagros-consensus/src/engine.rs:1410-1444 | whatever call commits, the block it hands out is the one its certificate names |
| `EngineLemmas.LockRule` | crates/zagros-consensus/src/engine.rs:1099-1131 | the rule for prevotes never lets a validator vote against a block it precommitted unless a newer quorum of prevotes released it |
| `Network.RunKeeps` | crates/zagros-consensus/src/engine.rs:403-410 | the network invariant holds in every state of every run |
| `Network.NoRival` | crates/zagros-consensus/src/engine.rs:1108-1131 | after Q precommits for a block no later round gathers Q prevotes for another |
| `Network.CertificatesAgree` | crates/zagros-consensus/src/engine.rs:1410-1444 | with at most f faulty validators all certificates honest nodes ever commit at one height, over all runs and at all times, are for one block |
| `Network.Agreement` | crates/zagros-consensus/src/engine.rs:1410-1444 | the blocks that any two calls of honest nodes hand out as committed at one height are the same, over all runs |
| `Network.CommitsAreQuorums` | crates/zagros-consensus/src/engine.rs:1360-1409 | behind every commit stand more than f honest validators who precommitted exactly that block |
| `Network.HonestNeverAccused` | crates/zagros-consensus/src/engine.rs:1262-1278 | only faulty validators are ever reported for voting twice |
| `DoubleSign.ParseFormat` | crates/zagros-consensus/src/engine.rs:295-310 | reading back the written line gives the same height, round, step and hash |
| `DoubleSign.FormatIs` | crates/zagros-consensus/src/engine.rs:295-310 | the file holds height, round, step and hash, in this order |
| `DoubleSign.BelowIsEarlier` | crates/zagros-consensus/src/engine.rs:312-376 | the order of the guard is that of height, round and step read as one number |
| `DoubleSign.GrantsIff` | crates/zagros-consensus/src/engine.rs:312-376 | a request is granted exactly when its place is after the last one and its record is written, or it is the last one again with the same hash |
| `DoubleSign.NeverEquivocates` | crates/zagros-consensus/src/engine.rs:250-376 | over every run of requests, failed writes, crashes, reloads and file damage the granted triples never go down and each is granted for one hash |
| `DoubleSign.PoisonedGrantsNothing` | crates/zagros-consensus/src/engine.rs:250-293 | a guard that loaded an unreadable or garbled file signs nothing |
| `DoubleSign.DoubleSignProtector.constructor` | crates/zagros-consensus/src/engine.rs:250-293 | load: an absent file is a clean start, a bad one poisons |
| `DoubleSign.DoubleSignProtector.Allow` | crates/zagros-consensus/src/engine.rs:312-376 | grants a higher triple once it is on disk, and the same triple for the same hash |
| `Journal.RunRefines` | crates/zagros-executor/src/evm.rs:80-136 | over every run whose writes are recorded first, the stack of first-touch logs does what a stack of full snapshots would |
| `Journal.FailedCallUndone` | crates/zagros-executor/src/evm.rs:110-136 | a failed call leaves every account as it was at its push, whatever nested calls did and however they ended |
| `Journal.FailedCallExact` | crates/zagros-executor/src/evm.rs:110-136 | after a failed call exactly the touched accounts are present besides the earlier ones, blank where they were absent: the state is the same if and only if everything touched was there before |
| `Journal.KeepRefines` | crates/zagros-executor/src/evm.rs:110-125 | a successful pop hands the oldest value of each account to the parent |
| `Interceptor.ZerenyaInterceptor.PushFrame` | crates/zagros-executor/src/evm.rs:95-100 | opens a frame |
| `Interceptor.ZerenyaInterceptor.RecordMutation` | crates/zagros-executor/src/evm.rs:84-108 | records the first touch of an account in the open frame |
| `Interceptor.ZerenyaInterceptor.PopFrame` | crates/zagros-executor/src/evm.rs:110-136 | failure writes the recorded values back, success merges them into the parent, in whatever order the entries come |
| `Interceptor.ZerenyaInterceptor.RecordTransfer` | crates/zagros-executor/src/lib.rs:966-1007 | writes the next numbered transfer record, recorded like any account |
| `Interceptor.ZerenyaInterceptor.TransferArm` | crates/zagros-executor/src/evm.rs:272-360 | succeeds exactly when the caller has the amount, and then performs exactly the debit, index entry and credit |
| `Interceptor.ZerenyaInterceptor.TransferFromArm` | crates/zagros-executor/src/evm.rs:175-268 | needs balance and allowance, lowers the allowance, and then moves the amount |
| `Interceptor.ZerenyaInterceptor.ApproveArm` | crates/zagros-executor/src/evm.rs:380-406 | sets the allowance of the spender, keeping no entry for zero, as `TokenSupply.ApproveExact` says in full |
| `TokenSupply.CallDisciplined` | crates/zagros-executor/src/evm.rs:175-406 | no arm writes an account before recording it |
| `TokenSupply.MoveExact` | crates/zagros-executor/src/evm.rs:175-360 | the amount leaves the source and arrives at the target, self-transfers included; nothing else moves |
| `TokenSupply.ApproveExact` | crates/zagros-executor/src/evm.rs:380-406 | an approval sets what this spender may take from this owner and changes nothing else of any account |
| `TokenSupply.ApprovedMaySpend` | crates/zagros-executor/src/evm.rs:159-215 | right after it the spender succeeds with any part of that amount the owner has, to anyone but the pool |
| `TokenSupply.ListedExact` | crates/zagros-executor/src/evm.rs:216-245 | a transfer is listed under the next number with its parties and amount, and the list keeps the last ten thousand |
| `TokenSupply.MoveSupply` | crates/zagros-executor/src/evm.rs:175-360 | the supply is kept exactly when the credit does not overflow 128 bits |
| `TokenSupply.OverflowHappens` | crates/zagros-executor/src/evm.rs:175-360 | a concrete transfer that loses its amount |
| `TokenSupply.CallSupply` | crates/zagros-executor/src/evm.rs:175-406 | while the whole supply fits into 128 bits no arm changes it |
| `TokenSupply.BlankMatters` | crates/zagros-executor/src/evm.rs:127-132 | two states that differ only by blank accounts disagree on a transfer exactly when it is of nothing, not to the pool, and the caller is blank in one and absent in the other |
| `TokenSupply.OthersCannotTell` | crates/zagros-executor/src/evm.rs:138-360 | the other two calls never tell them apart, and where success agrees so does everything written |
| `TokenSupply.BlankLeft` | crates/zagros-executor/src/evm.rs:127-132 | a failed positive transfer of an absent account leaves that account blank and nothing else |
| `TokenSupply.BlankTells` | crates/zagros-executor/src/evm.rs:127-132 | a run from the empty state after which a transfer succeeds that failed before |
| `TokenSupply.SupplyConserved` | crates/zagros-executor/src/evm.rs:522-551 | total ZERENYA is the same after every run of nested calls and creates with any pattern of failures |
| `Breaker.SwapVolumeTracker.AdvanceTo` | crates/zagros-executor/src/swap.rs:116-132 | moves the two buckets to the window of the given second |
| `Breaker.SwapVolumeTracker.EffectiveVolume` | crates/zagros-executor/src/swap.rs:134-145 | the current bucket and the weighted previous one |
| `Breaker.VolumeRecord.CheckAndRecord` | crates/zagros-executor/src/swap.rs:196-232 | records the swap exactly when the cap is kept; a refusal leaves the record alone |
| `Breaker.RunTracks` | crates/zagros-executor/src/swap.rs:97-157 | over any run with non-decreasing time the buckets are the accepted volumes of the last two windows and nothing saturates |
| `Breaker.EffectiveWithinCap` | crates/zagros-executor/src/swap.rs:196-232 | the effective volume of either direction never exceeds the cap |
| `Breaker.SixtySecondBound` | crates/zagros-executor/src/swap.rs:97-157 | any sixty consecutive seconds accept at most c + ⌈58·c/60⌉ in one direction |
| `Breaker.BoundReached` | crates/zagros-executor/src/swap.rs:97-157 | that bound is reached, so it is the exact one |
| `Amm.OutIs` | crates/zagros-executor/src/swap.rs:247-287 | the quote rounds the exact quotient down and never empties the other side |
| `Amm.CapIs` | crates/zagros-executor/src/swap.rs:247-262 | a single swap is at most a twentieth of the reserve it goes into |
| `Amm.BuyQuotedIff` | crates/zagros-executor/src/swap.rs:247-287 | a purchase is quoted exactly when the pool holds a million ZAGROS and 250 ZERENYA, the amount is at most a twentieth of the reserve it goes into, and something comes out; the fee is a thousandth |
| `Amm.SellQuotedIff` | crates/zagros-executor/src/lib.rs:1736-1822 | so is a sale, if it reaches the minimum asked for |
| `Amm.BuyExact` | crates/zagros-executor/src/swap.rs:247-287 | all ZERENYA stays, the quotient leaves, fee and trader share it exactly, and the product does not fall |
| `Amm.SellExact` | crates/zagros-executor/src/lib.rs:1736-1822 | the fee never enters the pool, the rest does, the quotient leaves it, and the product does not fall |
| `Amm.BuysAgree` | crates/zagros-executor/src/evm.rs:739-821 | native, bridge and EVM buys agree on every input, refusals included |
| `Amm.SellsAgree` | crates/zagros-executor/src/evm.rs:660-737 | native, bridge and EVM sells agree on every input, refusals included |
| `Amm.OneSideHolds` | crates/zagros-executor/src/swap.rs:247-364 | a pool whose product did not fall and that holds no more of one asset holds at least as much of the other |
| `Dex.EvmExecutor.SwapSell` | crates/zagros-executor/src/evm.rs:660-737 | moves the money of a sale exactly at the native quote and records its volume |
| `Dex.EvmExecutor.SwapBuy` | crates/zagros-executor/src/evm.rs:739-821 | moves the money of a purchase exactly at the native quote and records its volume |
| `Dex.DoneIff` | crates/zagros-executor/src/swap.rs:247-364 | a deal goes through exactly when it is quoted at its minimum or better, its party has what it gives, and what leaves over the bridge is backed |
| `Dex.DealBalanced` | crates/zagros-executor/src/lib.rs:1696-1822 | one deal changes only the party and the pool, and conserves both assets across them, the fee and the backing |
| `Dex.MoneyConserved` | crates/zagros-executor/src/lib.rs:2675-2835 | over every run of buys, sells and bridge swaps all ZAGROS is still there, and ZERENYA appears and goes only with its bridge backing |
| `Dex.RunGrows` | crates/zagros-executor/src/swap.rs:247-364 | the reserve product never falls over a run |
| `Dex.PoolNotDrained` | crates/zagros-executor/src/swap.rs:247-364 | a run that leaves no more of one asset in the pool leaves at least as much of the other |
| `MintLimit.DailyMintTracker.CheckAndRecord` | crates/zagros-executor/src/bridge.rs:1624-1686 | prunes and records exactly when the limit is kept |
| `MintLimit.DailyMintTracker.DailyMintStatus` | crates/zagros-executor/src/bridge.rs:1688-1744 | reports used, remaining and the wait |
| `MintLimit.CountsExactly` | crates/zagros-executor/src/bridge.rs:1624-1686 | a mint is accepted if and only if it fits with what is counted: the accepted amounts of the last 86400 seconds without those of second zero |
| `MintLimit.DayIs` | crates/zagros-executor/src/bridge.rs:1624-1686 | a day is 86400 seconds |
| `MintLimit.ExactWindow` | crates/zagros-executor/src/bridge.rs:1624-1686 | for all non-decreasing timestamps acceptance is the exact sliding window if and only if a day has passed or nothing was accepted at second zero |
| `MintLimit.LimitHolds` | crates/zagros-executor/src/bridge.rs:1624-1686 | every window of 86400 seconds stays within the limit if and only if the first one does |
| `MintLimit.LimitAlwaysHolds` | crates/zagros-executor/src/bridge.rs:1624-1686 | which is so whenever nothing is accepted at second zero |
| `MintLimit.RemainingIsExact` | crates/zagros-executor/src/bridge.rs:1688-1744 | the reported remainder is exactly the largest amount the next check accepts, and used is what is counted |
| `MintLimit.RetryIsSound` | crates/zagros-executor/src/bridge.rs:1688-1744 | with the limit used up nothing positive is accepted before the reported wait is over, whatever is tried in between |
| `MintLimit.RetryIsEnough` | crates/zagros-executor/src/bridge.rs:1688-1744 | and once it is over the first unit fits again, if nothing was minted in between; the wait is zero exactly when something is left |
| `MintLimit.SecondZeroForgotten` | crates/zagros-executor/src/bridge.rs:1624-1686 | the failing input: two mints of the whole limit at second zero are both accepted |
| `Multisig.Validate` | crates/zagros-executor/src/bridge.rs:187-223 | accepts a set exactly when it is well formed, without duplicates and with enough active authorities |
| `Multisig.CountValidSignatures` | crates/zagros-executor/src/bridge.rs:266-300 | counts the authorities accepted from the list |
| `Multisig.CountIsSigners` | crates/zagros-executor/src/bridge.rs:266-300 | the count is the number of active authorities with at least one valid signature in the list |
| `Multisig.CountIgnoresOrder` | crates/zagros-executor/src/bridge.rs:266-300 | order, repetition and letter case never change it |
| `Multisig.Layout` | crates/zagros-executor/src/bridge.rs:636-672 | where each field stands among the bytes that are signed |
| `Multisig.MessageIs` | crates/zagros-executor/src/bridge.rs:636-672 | two proposals sign the same message exactly when identifier, kind, amount, times, nonce, minimum and swap flag agree and recipient, chain and hash joined end to end are the same text |
| `Multisig.SignatureBindsContent` | crates/zagros-executor/src/bridge.rs:266-300 | a signature that counts for two proposals ties all but the borders between the three texts, and ties the whole content if and only if recipients and chains have equal lengths |
| `Bridge.BridgeManager.Load` | crates/zagros-executor/src/bridge.rs:1363-1458 | a restart takes pending proposals and counters from disk and the authorities from the configuration |
| `Bridge.BridgeManager.CreateProposal` | crates/zagros-executor/src/bridge.rs:424-540 | accepted if and only if dated within the last hour and the next five minutes and either already pending, which gives that proposal back, or of an unprocessed source, positive, and for a mint at most 100 tokens within the daily limit; the stored content is the request |
| `Bridge.BridgeManager.SignProposal` | crates/zagros-executor/src/bridge.rs:542-634 | adds a signature if and only if it is by an active authority with its 32-byte key over this very content, at most an hour old and five minutes ahead, and the first of that authority |
| `Bridge.BridgeManager.ExecuteProposal` | crates/zagros-executor/src/bridge.rs:848-914 | executes if and only if the proposal is unexecuted, carries the required signatures, its timestamp plus time lock has passed, its source is unprocessed and a mint fits the daily limit; marks the source and counts the mint |
| `Bridge.BridgeManager.PersistProposal` | crates/zagros-executor/src/bridge.rs:1323-1361 | writes the proposal and the index of pending ones |
| `Bridge.ExecuteMint` | crates/zagros-executor/src/lib.rs:578-655 | mints if and only if the payload is the named one, unexecuted, past its time lock, with the required signatures of which the threshold of distinct active authorities of the chain is valid, a mint of exactly this receiver, amount and kind, and of an unprocessed source |
| `Bridge.ExecutedAtMostOnce` | crates/zagros-executor/src/bridge.rs:1086-1153 | over every run of creating, signing, executing, minting, relaying, pruning and reloading, no case-folded source is executed twice, however many proposals name it |
| `BridgeRuns.ExecutedWhenDue` | crates/zagros-executor/src/bridge.rs:828-846 | over every run everything executed had passed its timestamp plus time lock and carried the required signatures, and mints the threshold of distinct active authorities |
| `BridgeRuns.ExecutedByAuthorities` | crates/zagros-executor/src/bridge.rs:542-634 | what the manager itself executed carried them from as many distinct active authorities of its configuration, if blocks bring along only proposals signed that way |
| `BridgeRuns.IngestedReplaces` | crates/zagros-executor/src/bridge.rs:1363-1458 | otherwise not: a version of a pending proposal that comes with a block replaces, at the next restart, the one that was checked, exactly when it is pending |
| `Bridge.ProcessedIsFinal` | crates/zagros-executor/src/bridge.rs:1096-1146 | a processed source stays processed: it is never executed again and no new proposal is made for it |
| `Bridge.MintIsAuthorised` | crates/zagros-executor/src/lib.rs:578-655 | behind every mint stands the threshold of distinct active authorities, each of whose signatures in the payload is for the message of exactly this payload |
| `Bridge.SignedIsExecuted` | crates/zagros-executor/src/bridge.rs:636-672 | what an authority signed and what is minted differ at most by where recipient, chain and hash are cut, and not at all if and only if recipients and chains have equal lengths |
| `Bridge.SourceCutElsewhere` | crates/zagros-executor/src/lib.rs:578-655 | the failing input: the payload that minted for Ethereum, 0xab12 mints again as Ethereum0, xab12, another source key, under the same signatures |
| `Bridge.MintedTwice` | crates/zagros-executor/src/lib.rs:578-655 | with one authority and nothing processed, one signature mints under two source keys |
| `Bridge.ReloadRestores` | crates/zagros-executor/src/bridge.rs:1323-1458 | over every run of calls each followed by its writes, a restart brings back exactly the unexecuted proposals and the counters |
| `Lifecycle.FallenStaysDown` | crates/zagros-executor/src/validator_set.rs:614-740 | whoever loses Active at a boundary is not promoted at the same boundary |
| `Epoch.ValidatorRegistry.SettleAll` | crates/zagros-executor/src/validator_set.rs:538-581 | matured stake is settled for every account and into the total |
| `Epoch.StakeConserved` | crates/zagros-executor/src/validator_set.rs:538-581 | a whole transition moves matured stake from pending to staked without loss, and the recorded total grows by exactly what the registered accounts have staked more |
| `Epoch.TotalIsCapped` | crates/zagros-executor/src/validator_set.rs:538-556 | the recorded total takes all that has matured, stopping at 128 bits |
| `EpochLaws.SettledIs` | crates/zagros-executor/src/validator_set.rs:538-556 | pending stake joins when its time has come and counts for rewards from then on |
| `Epoch.ValidatorRegistry.ApplyPendingKeyRotations` | crates/zagros-executor/src/validator_set.rs:450-475 | exactly the rotations requested in earlier epochs are applied and taken off the list |
| `EpochLaws.RotatedIs` | crates/zagros-executor/src/validator_set.rs:450-475 | a requested key takes effect at the first boundary after the epoch of the request |
| `Epoch.ValidatorRegistry.JudgeAll` | crates/zagros-executor/src/validator_set.rs:614-675 | every account is judged as `EpochLaws.ActiveJudged` and `EpochLaws.OthersJudged` say in numbers; delinquents are only listed |
| `EpochLaws.ActiveJudged` | crates/zagros-executor/src/validator_set.rs:626-672 | an active account gets one strike more for a measured epoch below the uptime, none after one that reached it, and keeps its count without a measurement; too many lead to demotion, before epoch 48 to seven days of jail, and else too little stake to probation |
| `EpochLaws.OthersJudged` | crates/zagros-executor/src/validator_set.rs:614-625 | exits are completed, jail terms end, and nothing else happens to anyone else |
| `EpochLaws.AmnestiedIs` | crates/zagros-executor/src/validator_set.rs:586-610 | once, at epoch 57, whoever is in jail and has stake goes to probation with a clean record |
| `EpochLaws.DelinquentsAre` | crates/zagros-executor/src/validator_set.rs:626-660 | the delinquents are exactly the active accounts whose count so described has reached the maximum |
| `EpochLaws.DemotedHadMissed` | crates/zagros-executor/src/validator_set.rs:626-712 | over a run of epochs the strikes of an active validator are the measured epochs it missed in a row, so it is delinquent exactly after as many as the rules allow |
| `EpochLaws.UptimeSpares` | crates/zagros-executor/src/validator_set.rs:614-740 | whoever reached the uptime in the epoch that ended, and has the stake, ends the whole transition active with no strike |
| `EpochLaws.DelinquentFalls` | crates/zagros-executor/src/validator_set.rs:676-712 | with four active validators left over every delinquent goes to probation |
| `EpochLaws.GraduatesIff` | crates/zagros-executor/src/validator_set.rs:714-740 | promotion in numbers: probation served, measured at the uptime or above, stake and key in place |
| `EpochLaws.RisenAre` | crates/zagros-executor/src/validator_set.rs:676-777 | what demotion, promotion and admission set |
| `EpochLaws.ThresholdIs` | crates/zagros-executor/src/params.rs:171-176 | the stake asked for is what was asked at registration less the hysteresis, rounded down |
| `Epoch.ValidatorRegistry.DemoteAll` | crates/zagros-executor/src/validator_set.rs:676-712 | the listed delinquents, and nobody else, go to probation |
| `Epoch.ValidatorRegistry.AdmitAll` | crates/zagros-executor/src/validator_set.rs:741-777 | the first of the queue are admitted, as many as there are free slots |
| `Epoch.QueueIsFifo` | crates/zagros-executor/src/validator_set.rs:755-776 | sorting and taking is the same as having fewer approved validators ahead than free slots |
| `Epoch.ValidatorRegistry.AdvanceEpochIfDue` | crates/zagros-executor/src/validator_set.rs:560-854 | nothing happens inside an epoch; at a boundary every account takes its final state, the total takes what matured, the next set is stored, and keys keep matching |
| `EpochSpec.NextSetIsSized` | crates/zagros-executor/src/validator_set.rs:778-842 | from a valid set the next one has a larger epoch and between 4 and 101 members |
| `EpochSpec.DemotionAllOrNone` | crates/zagros-executor/src/validator_set.rs:676-712 | liveness demotion hits all delinquents or none, and never leaves fewer than four active |
| `EpochSpec.BreakerOnlyWhenNeeded` | crates/zagros-executor/src/validator_set.rs:676-712 | the breaker holds back only when carrying on would have left fewer than four |
| `EpochSpec.FallenStayDown` | crates/zagros-executor/src/validator_set.rs:614-740 | no account demoted in a transition ends it active |
| `EpochSpec.ActiveWasActiveOrProbation` | crates/zagros-executor/src/validator_set.rs:714-740 | nobody becomes active except from probation served and measured |
| `EpochSpec.AdmissionIsFifo` | crates/zagros-executor/src/validator_set.rs:755-776 | whoever is admitted was registered before everyone who still waits, addresses only breaking ties |
| `EpochSpec.OccupancyBounded` | crates/zagros-executor/src/validator_set.rs:741-777 | admissions never take occupancy past the maximum |
| `EpochLaws.AdmissionFills` | crates/zagros-executor/src/validator_set.rs:741-777 | if anyone is left waiting, all places are taken |
| `EpochLaws.MembersInOrder` | crates/zagros-executor/src/validator_set.rs:786-800 | members stand in the order of registration, then of the epoch of their status, then of address |
| `EpochLaws.ValidMembersIff` | crates/zagros-types/src/consensus.rs:205-225 | a stored set has four to 101 members, no key or address twice and none without a key |
| `EpochSpec.MemberKeysMatch` | crates/zagros-executor/src/validator_set.rs:792-842 | every member key of the stored set, kept sets included, is the key of its account |
| `ShadowVotes.ShadowVoteState.MarkUsed` | crates/zagros-executor/src/validator_set.rs:241-263 | prunes, then inserts |
| `ShadowVotes.ShadowVoteState.VerifyAndRecord` | crates/zagros-executor/src/validator_set.rs:139-162 | counts a sound vote exactly when it is not in the ledger |
| `ShadowVotes.ShadowVoteState.ApplyAttestations` | crates/zagros-executor/src/validator_set.rs:214-239 | handles the attestations of a block up to its maximum |
| `ShadowVotes.PruningIsInvisible` | crates/zagros-executor/src/validator_set.rs:190-263 | with non-decreasing block numbers the pruned ledger and an unbounded one count the same |
| `ShadowVotes.CountedAtMostOnce` | crates/zagros-executor/src/validator_set.rs:190-263 | no vote raises a counter twice over a whole run |
| `ShadowLaws.CountedIffTimely` | crates/zagros-executor/src/validator_set.rs:190-239 | over a run with non-decreasing block numbers a vote is counted if and only if some block carries it, sound, among its first 256, and about one of the 128 blocks before it |
| `ShadowLaws.CountersAreCounts` | crates/zagros-executor/src/validator_set.rs:117-137 | within one epoch the counters of an address are the number of its votes that were counted |
| `ShadowLaws.TickedExact` | crates/zagros-executor/src/validator_set.rs:117-137 | each counted vote is one more of both counters, which start again with a new epoch, strikes aside |
| `ShadowVotes.LedgerIsBounded` | crates/zagros-executor/src/validator_set.rs:214-263 | with one call per block the ledger never exceeds 128 × 256 entries |
| `Tally.ValidatorTally` | crates/zagros-executor/src/governance.rs:250-267 | one voice per member of the set, and never more than there are members |
| `Tally.StakerTally` | crates/zagros-executor/src/governance.rs:269-312 | weights capped by stake at the vote, stake now and the cap |
| `Tally.StakersIff` | crates/zagros-executor/src/governance.rs:269-312 | stakers accept exactly when the ballots, each at the stake of its casting but at most the stake now and the cap, reach the quorum of all stake and more of them are in favour |
| `Tally.AcceptanceIsBacked` | crates/zagros-executor/src/governance.rs:269-312 | when stakers accept, distinct addresses holding the quorum of all stake have voted and more capped weight is for than against |
| `Governance.GovernanceState.EscrowDeposit` | crates/zagros-executor/src/governance.rs:111-121 | the deposit goes into escrow under its proposal |
| `Governance.GovernanceState.SettleDeposit` | crates/zagros-executor/src/governance.rs:155-185 | pays the deposit out once, to the proposer or the reward pool |
| `Governance.GovernanceState.Terminalize` | crates/zagros-executor/src/governance.rs:345-360 | ends a proposal and lowers the active counter by one |
| `Governance.GovernanceState.ProcessAtEpoch` | crates/zagros-executor/src/governance.rs:362-484 | every listed proposal takes its step of the boundary, in list order; `GovernanceLaws.Decision`, `GovernanceLaws.RefundedIff` and `GovernanceLaws.CarryingOut` say which in numbers |
| `Governance.GovernanceState.ApplyVeto` | crates/zagros-executor/src/governance.rs:544-580 | a veto ends an open proposal of the consensus channel and forfeits its deposit |
| `Governance.GovernanceState.RecordVote` | crates/zagros-executor/src/lib.rs:3007-3074 | accepted exactly while the effective status is active, once per address and proposal, from a staker; raises one tally by the stake of that moment |
| `Governance.GovernanceState.Submit` | crates/zagros-executor/src/lib.rs:2841-3006 | accepted exactly with stake and fee in hand, room under the ceiling of active proposals and a sound payload; charges the fee and opens the proposal |
| `GovernanceRuns.RunInvariant` | crates/zagros-executor/src/governance.rs:111-185 | over every run the escrow is the sum of the unsettled deposits, all ZAGROS is conserved, the counter counts, and every deposit is held or was paid once |
| `GovernanceRuns.Reachable` | crates/zagros-executor/src/governance.rs:111-185 | every state reached from balances and stakes alone keeps these rules and holds exactly the ZAGROS it began with |
| `GovernanceRuns.VotableIff` | crates/zagros-types/src/lib.rs:2975-3009 | the effective status is active exactly for a stored active or rejected proposal inside its voting period and before it expires |
| `GovernanceRuns.CeilingHolds` | crates/zagros-executor/src/lib.rs:2841-3006 | over every run the counter of active proposals never passes its ceiling |
| `GovernanceRuns.EndedIsPaid` | crates/zagros-executor/src/governance.rs:155-185 | every proposal that no longer waits for its boundary, text proposals included, has had its deposit paid exactly once, in full, to the proposer or the reward pool |
| `GovernanceRuns.VotingEnds` | crates/zagros-executor/src/governance.rs:362-484 | a boundary at or after the end of voting leaves no listed proposal waiting, whatever else it processes |
| `GovernanceLaws.Decision` | crates/zagros-executor/src/governance.rs:396-466 | a proposal whose voting is over is queued exactly when four fifths of the set (for an upgrade) or two thirds (for anything else) voted in favour, and on the economic channel the stakers agree; else rejected |
| `GovernanceLaws.BoundaryDecides` | crates/zagros-executor/src/governance.rs:362-466 | so the next boundary queues every open proposal that carries and rejects every other one, whatever else is listed |
| `GovernanceLaws.RefundedIff` | crates/zagros-executor/src/governance.rs:155-185 | the deposit goes back to the proposer exactly when the proposal is accepted or the quorum voted, and else to the reward pool, in full |
| `GovernanceLaws.ForfeitShared` | crates/zagros-executor/src/governance.rs:128-152 | a forfeited deposit raises the reward of each unit staked by its share, rounded down |
| `GovernanceLaws.CarryingOut` | crates/zagros-executor/src/governance.rs:467-484 | an accepted proposal waits for its delay and is then executed or, if its effect fails, rejected |
| `GovernanceRuns.TerminalizedKept` | crates/zagros-executor/src/governance.rs:345-360 | ending takes exactly one from the counter and keeps the register consistent |
| `GovernanceRuns.ExecutedWasAccepted` | crates/zagros-executor/src/governance.rs:362-484 | whatever ran was accepted by its thresholds in an earlier call and waited the delay set then |
| `GovernanceLaws.AcceptedInNumbers` | crates/zagros-executor/src/governance.rs:396-440 | over every run whatever is queued or executed has a record of acceptance with four fifths of the set in favour for an upgrade and two thirds for anything else |
| `GovernanceLaws.RecordedVotes` | crates/zagros-executor/src/governance.rs:396-440 | and that record counts the seats of the set whose holder voted in favour at that boundary |
| `GovernanceLaws.SubmittedExact` | crates/zagros-executor/src/lib.rs:2841-3006 | what a submission changes, and that it changes nothing otherwise |
| `GovernanceLaws.VoteExact` | crates/zagros-executor/src/lib.rs:3007-3074 | what a vote changes, and that it changes nothing otherwise |
| `GovernanceLaws.VetoExact` | crates/zagros-executor/src/governance.rs:544-580 | what a veto changes, and that it changes nothing otherwise |
| `GovernanceRuns.OneStepPerCall` | crates/zagros-executor/src/governance.rs:362-484 | nothing is accepted and carried out in the same call |
| `GovernanceRuns.TerminalIsFinal` | crates/zagros-executor/src/governance.rs:345-484 | status, action, schedule and proposer of a terminal proposal never change again |
| `GovernanceRuns.RecordIsFinal` | crates/zagros-executor/src/lib.rs:3007-3074 | its tallies do not change either, unless it was rejected and is voted on inside its voting period |
| `GovernanceRuns.RejectedStillVotable` | crates/zagros-executor/src/lib.rs:3025-3034 | a rejected proposal takes another vote exactly inside its voting period and before it expires |
| `GovernanceRuns.VotedAfterRejection` | crates/zagros-executor/src/lib.rs:3025-3034 | a run from the empty register: submitted, rejected at a boundary, voted for after that |
| `GovernanceRuns.VotesStayOrderly` | crates/zagros-executor/src/governance.rs:60-104 | over every run each voter list names an address once and has its ballot |
| `MempoolQueue.PendingNonce` | crates/zagros-mempool/src/lib.rs:253-260 | the first nonce from the committed one on that is not pooled |
| `MempoolQueue.NextFreeIs` | crates/zagros-mempool/src/lib.rs:253-260 | exactly that number has nothing but pooled nonces below it |
| `Mempool.Mempool.AddTransaction` | crates/zagros-mempool/src/lib.rs:308-496 | accepts exactly what passes all checks; every companion index stays exact either way |
| `MempoolLaws.CostIs` | crates/zagros-mempool/src/lib.rs:224-249 | what a transaction of each kind is charged |
| `MempoolLaws.PricedIs` | crates/zagros-mempool/src/lib.rs:524-552 | native transactions carry the fixed fee of the moment, contract calls what they declared |
| `MempoolLaws.AcceptsIff` | crates/zagros-mempool/src/lib.rs:308-469 | the whole list of conditions of admission, in numbers |
| `MempoolLaws.AddedExact` | crates/zagros-mempool/src/lib.rs:471-496 | what is accepted is pooled under its identifier, dated now and numbered after everything before it |
| `Mempool.Mempool.RemoveTransaction` | crates/zagros-mempool/src/lib.rs:555-618 | removes one transaction from all seven companions at once |
| `Mempool.Mempool.AdmitTransaction` | crates/zagros-mempool/src/lib.rs:524-552 | the verdict is exactly: full, waiting within the gap, wrong nonce, pooled or refused; the new state is that of `MempoolTurns.AfterAdmission`, and a refusal changes neither pool nor queue |
| `Mempool.Mempool.EnqueueForwardNonce` | crates/zagros-mempool/src/lib.rs:622-653 | queues exactly when structurally sound, funded and within both caps, intrinsic gas not being looked at; replacing an entry does not count twice |
| `MempoolLaws.QueuedIff` | crates/zagros-mempool/src/lib.rs:622-653 | the conditions of waiting: sound, funded, fewer than 5000 in all and fewer than 32 of the sender |
| `MempoolLaws.EnqueuedExact` | crates/zagros-mempool/src/lib.rs:622-653 | an entry waits under its nonce, a second one replaces it, and no other queue changes |
| `MempoolLaws.VerdictIs` | crates/zagros-mempool/src/lib.rs:524-552 | a nonce up to 32 ahead waits, the one expected is tried, any other is refused |
| `Mempool.Mempool.PromoteQueued` | crates/zagros-mempool/src/lib.rs:669-724 | does exactly the turns of `MempoolTurns.Promotion`: the due entry joins the pool exactly when the pool accepts it at the present fee, and the loop goes on exactly then |
| `MempoolTurns.PromotionKeeps` | crates/zagros-mempool/src/lib.rs:669-724 | promotion keeps every index exact; the queue keeps exactly the entries above the nonce now expected, other queues are untouched, and what joined waited there under its own nonce |
| `Mempool.Mempool.PurgeBelowNonce` | crates/zagros-mempool/src/lib.rs:766-783 | removes exactly the consecutive run below the given nonce, one transaction each, then promotes; the new state is that of the purge in the runs below |
| `Mempool.Mempool.EvictExpired` | crates/zagros-mempool/src/lib.rs:785-816 | removes exactly what is older than the expiry, in pool and queue |
| `MempoolLaws.ExpiredIff` | crates/zagros-mempool/src/lib.rs:785-816 | what is older than the expiry goes, in pool and queue alike |
| `MempoolSpec.AddedCoherent` | crates/zagros-mempool/src/lib.rs:471-496 | admission keeps nonce index, lanes, admission numbers, byte, count and cost counters exact |
| `MempoolSpec.RemovedCoherent` | crates/zagros-mempool/src/lib.rs:555-618 | so does removal |
| `MempoolRuns.RunGood` | crates/zagros-mempool/src/lib.rs:308-816 | over every run of additions, admissions from outside, removals, queueing, promotions, purges, sweeps and local marks all indexes agree with the pool, the limits hold, and the queue is counted exactly |
| `MempoolRuns.CountersExact` | crates/zagros-mempool/src/lib.rs:471-816 | after every run each counter is the number or sum it stands for; pending cost for every sender but the bridge authority, for which it is at most what was reserved |
| `MempoolRuns.NoncesDistinct` | crates/zagros-mempool/src/lib.rs:446-451 | no two pooled transactions share sender and nonce in any letter case |
| `MempoolRuns.AcceptedIsAffordable` | crates/zagros-mempool/src/lib.rs:453-469 | what is accepted and reserves anything can be paid together with everything its sender has reserved, less what that hold falls short; for every sender but the bridge authority that is everything it has pending |
| `MempoolRuns.StepHeld` | crates/zagros-mempool/src/lib.rs:456-816 | for every operation and sender the pending cost falls short of what was reserved by exactly what exempt mints gave back, as far as there was anything to give; from an exact hold it stays exact if and only if the removed exempt mints cost nothing or nothing reserved remains |
| `MempoolRuns.BridgeShortfall` | crates/zagros-mempool/src/lib.rs:456-575 | the failing input, from the empty pool: a payment and a mint of the bridge authority come in, the mint leaves, and less is held than the payment reserved |
| `BlockSelection.DrainHeavy` | crates/zagros-mempool/src/lib.rs:896-934 | the longest prefix of the heavy lane within count and declared gas |
| `MempoolLaws.HeavyIff` | crates/zagros-mempool/src/lib.rs:471-496 | contract calls and deployments are heavy |
| `BlockSelection.Drain` | crates/zagros-mempool/src/lib.rs:937-967 | the first transactions of the light lane |
| `BlockSelection.LongestIsLongest` | crates/zagros-mempool/src/lib.rs:896-934 | no other prefix within count and gas is longer |
| `BlockSelection.SelectionIsFifo` | crates/zagros-mempool/src/lib.rs:876-892 | in every coherent pool the lanes list each transaction of their weight once, in admission order |
| `BlockSelection.TimestampsDoNotOrder` | crates/zagros-mempool/src/lib.rs:476-479 | whatever timestamps senders claim, the same transactions are chosen in the same order |
| `BlockSelection.FitBytes` | crates/zagros-mempool/src/lib.rs:856-874 | keeps a prefix within the byte cap |
| `BlockSelection.BytesIsLongest` | crates/zagros-mempool/src/lib.rs:856-874 | no other prefix within the byte cap is longer |
| `Mempool.Mempool.KeepTimely` | crates/zagros-mempool/src/lib.rs:840-857 | drops what the executor would call too old or too new, and removes the too old from the pool |
| `MempoolLaws.TimelyAre` | crates/zagros-mempool/src/lib.rs:840-857 | proposed are the transactions dated within 270 seconds of now |
| `MempoolLaws.AgedAre` | crates/zagros-mempool/src/lib.rs:840-857 | and what is older than that leaves the pool |
| `Mempool.Mempool.GetTransactionsForBlock` | crates/zagros-mempool/src/lib.rs:834-874 | selection, age window and byte cap in this order; the pool loses exactly the too old among the chosen |
| `ReplayGuard.ToFileFormat` | crates/zagros-cli/src/replay_guard.rs:84-96 | prints one line per account and source |
| `ReplayGuard.LinesPrinted` | crates/zagros-cli/src/replay_guard.rs:84-96 | the printed form of an entry and of a source |
| `ReplayGuard.ParseFile` | crates/zagros-cli/src/replay_guard.rs:98-145 | reads the file and stops at the first malformed line |
| `ReplayGuard.RoundTrip` | crates/zagros-cli/src/replay_guard.rs:84-145 | printing and parsing gives the data back if and only if the addresses are lower case and well formed, nonces fit 64 bits and source keys are trimmed single lines |
| `ReplayGuard.SpaceIsLost` | crates/zagros-cli/src/replay_guard.rs:84-145 | a source key that does not read back |
| `ReplayGuard.AcceptedIff` | crates/zagros-cli/src/replay_guard.rs:98-145 | a file is accepted if and only if every line is blank, a comment or one of the two forms |
| `ReplayGuard.LineForms` | crates/zagros-cli/src/replay_guard.rs:98-145 | the forms of a line and what each says |
| `ReplayGuard.ParsedIsCanonical` | crates/zagros-cli/src/replay_guard.rs:98-145 | whatever is accepted is canonical |
| `ReplayGuard.Normalises` | crates/zagros-cli/src/replay_guard.rs:84-145 | rewriting an accepted file in the printed layout changes nothing it says |

## Left out

- Cryptography: signatures are ideal, hashes are injective or opaque; no Ed25519, secp256k1, Keccak, EIP-712 or EIP-191.
- Storage: the state is a durable map, the guard file a value replaced atomically or not at all, and each write's success is an input; RocksDB, flushing and fsync are not modelled.
- Networking, codecs, clocks, metrics, RPC, the command line, genesis boot and snapshots; time is an input of every call.
- revm, bytecode, gas metering, receipts, `eth_call` and the commit of revm's own changes: nested calls appear as pushes, pops and token calls in any order.
- Liveness of consensus (that a block is eventually committed).
- Rotation of the validator set inside the engine, heartbeats sent, rule-set checks, statistics and the texts of `Dropped`; rounds and heights are unbounded where the code has 32 and 64 bits.
- The body checks of a proposal beyond its header (count, root, size, chain id, execution) are one predicate of the verifier handed to the engine.
- The signer bit set of a certificate is the domain of the map of its signatures.
- Evidence of double proposals is produced by the model's engine, but only double votes have theorems.
- Network.Agreement: not across a restart inside a height already voted in, which the code does not promise.
- Interceptor: the read-only arms (balance, allowance, total supply), the hash behind an allowance slot (the slot is the spender), identifier and time of a transfer record; no sender is the pool, whose zero address has no key.
- Breaker: migration of the older record format; a corrupt record is an error there and not a case here.
- Amm and Dex: reserves together with the input fit into 128 bits; conversions that panic above that, the distribution of fees to stakers and the transaction-level checkpoint after a refused swap are not part of this model.
- Engine.BftEngine.New: the ranges of the chain parameters that the engine does not read are one flag.
- Bridge: texts are ASCII, so that characters count as bytes in a signed message; claim vouchers, relay collection, legacy migrations, the hash of a proposal identifier (it is its preimage here) and Unicode letter case.
- Epoch: diversity caps, the admin multisig, scheduled upgrades, slashing evidence, contract accounts among the candidates; participation counters are given. Counts are kept in sixteen bits as in the code, and the theorems on sizes ask for fewer than 65536 registered accounts.
- Shadow votes: signature and account lookup are one flag per attestation.
- Governance.GovernanceState.Submit: the early checks of a payload (shape, bounds, target account) are one flag.
- Governance: the effects of an execution are an outcome given from outside; text proposals never lower the active counter, as in the code; transaction identifiers are unique; balances that would pass 128 bits.
- Mempool: each call is atomic (the code's concurrent maps allow other interleavings); fees come from a table given as a function of transaction and load; the structural and signature checks are one flag and the intrinsic-gas check another; an address is its canonical form with a spelling; nonces are unbounded, so the walk past a pooled nonce of 2^64 − 1 is not modelled; rebroadcast bookkeeping.
- Replay guard: export from a state directory and application to a genesis.
