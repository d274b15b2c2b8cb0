# go-nitro: a verified model

go-nitro is a state channel node. Two participants who share a *ledger channel* lock funds on chain
once, and then fund any number of *virtual channels* through it off chain, by adding and removing
guarantees. This project models the parts of it that decide where money can go, and proves what they
keep over whole runs.

- **Ledger channels** (`LedgerVars`, `LedgerEncoding`, `Consensus`, `LedgerRun`, `Resync`,
  `NoEquivocation`, `LedgerAnswers`, `Solvency`): a leader and a follower each hold a doubly signed
  state and a queue of signed proposals. The operations are methods of a class with those two
  mutable fields, proved against functions on values; runs are sequences of steps over both sides
  and the set of all messages ever sent, so that delivery may lose, repeat and reorder.
- **Channels and their opening** (`Channels`, `MergeOrder`, `ChannelSupport`, `Setup`, `Messages`):
  signed states, how they are merged and stored, when a stored state counts as supported, and the two
  rounds of signatures that open a channel.
- **Virtual funding and defunding** (`VirtualFund`, `VirtualFundCrank`, `GuaranteeRun`,
  `VirtualFundWorld`, `VirtualFundSteps`, `VirtualFundCranks`, `VirtualFundRun`,
  `VirtualFundLedgers`, `VirtualFundAnswers`, and the same for defunding with `RemovalRun`,
  `VirtualDefundSolvency` and `DefundObject`): the objectives, what one ledger goes through on their
  behalf, and runs of three participants over two ledgers that other objectives use at the same
  time. `DefundObject` is the defund objective as an object, because its copies share their ledgers.
- **Neutrality** (`Neutrality`, `LedgerMoves`, `VirtualPayment`): what any interleaving of funding and
  defunding of any number of virtual channels does to the balances of Alice, the intermediary and Bob,
  and what one channel does to them from its funding to its defunding by three participants.
- **Direct funding** (`DirectFund`, `DirectFundCrank`, `DirectFundWorld`, `DirectFundMoney`,
  `DirectFundSteps`, `DirectFundCranks`, `DirectFundRun`, `DirectFundSafety`, `DirectFundAnswers`):
  the objective that deposits on chain, and runs of any number of participants with the chain, to
  which others may deposit too.
- **Payout arithmetic** (`Outcomes`, `DepositSafety`, `AssetHolder`, `Claims`): transfers, claims,
  affordability, deposit safety and diversion to a guarantee over prioritised allocations.

`dafny verify dfyconfig.toml` checks everything.

Conventions. Destinations and addresses are the numbers their bytes spell. A signature is a pair of
signer and state, so that hashing is injective and nobody signs for somebody else; a channel id is
the digest of the whole fixed part. Amounts are unbounded integers, and so are turn and block
numbers. A map of signatures is gone through in an explicit order wherever the order matters.
Objectives hold outcomes of a single asset and no application data, and their participants are
distinct. In runs, a message reaches nobody but its addressee, other objectives propose nothing
about the channel in question, and an objective whose crank fails is left as it was, which is a
lemma for either kind (`VirtualFundAnswers.FailedCrankChangesNothing`,
`VirtualDefundCranks.FailedCrankChangesNothing`).

Where the code and its comments disagree the model follows the code: the Go transfer never moves on
from its first listed index, `Add` charges the left deposit to the leader whoever is left, a virtual
fund connection drops every error of `Receive`, `calculatePaidToBob` uses a channel before it checks
that one was found, and a defund objective that fails on its right ledger has already changed its left
one.

Some properties one might expect are false of the code. Each of these has a lemma with an input that
shows it and one that says exactly when it holds: safety of on-chain deposits (a participant paid in
several places deposits for all of them once it is safe for the first), solvency of ledgers (amounts
are not checked for their sign), removing what was added and moving a payment when the follower is
the left party, support of states by the signatures of all participants, keeping a full set of
signatures full, merging in every map order, affordability of an allocation of nothing, and the Go
transfer of more than one index.

## Model

| member | source | states |
|---|---|---|
| LedgerRun.Agreement | channel/consensus_channel/leader_channel.go:23-116 | For every run of an honest leader and follower over a network that loses, repeats and reorders: both sides stay validly signed, the leader is never ahead of the follower, two sides at the same turn hold the same doubly signed state, and every state held shares out the initial total |
| LedgerRun.EveryRunIsExplained | channel/consensus_channel/follower_channel.go:27-109 | Every run has a proposal history behind it, made of proposals the leader was asked to make: both current states are folds of its prefixes, both queues are contiguous segments of it, the proposals sent are exactly its entries and the countersignatures sent are on entries |
| LedgerRun.HistoryIsDetermined | channel/consensus_channel/follower_channel.go:27-109 | That history is unique: two histories from the same first state that explain the same system are equal |
| LedgerRun.RoundGoesThrough | channel/consensus_channel/leader_channel.go:23-116 | With empty queues, proposing, delivering, signing and delivering back brings any applicable proposal through on both sides and leaves the queues empty |
| LedgerRun.StepIsExplained | channel/consensus_channel/leader_channel.go:23-116 | Every single step keeps the history as a prefix, moves neither side back, and adds an entry only when the leader proposes it |
| LedgerRun.OnlyStaleOrFutureAreRefused | channel/consensus_channel/follower_channel.go:72-109 | In every run a proposal the leader sent is refused for its turn number or not at all, and a countersignature the follower sent is never refused |
| LedgerRun.FollowerTakesNext | channel/consensus_channel/follower_channel.go:72-109 | The follower's answer to each entry of the history: taken exactly when it is the next one, an invalid turn number otherwise |
| LedgerRun.LeaderTakesCountersignature | channel/consensus_channel/leader_channel.go:65-116 | The leader accepts every countersignature of the history and jumps to the state it signs, or stays if that is behind it |
| Resync.QueueResynchronises | protocols/messages.go:185-198 | From every reachable state, handing the follower the leader's queue in sorted order brings what it has been proposed level with what the leader has proposed, and touches nothing else |
| Resync.SortingIsDetermined | protocols/messages.go:185-198 | A sorted arrangement of a strictly sorted queue is that queue, whatever sorting algorithm is used |
| Resync.SortedExactlyWhen | protocols/messages.go:185-198 | Sorted payloads come by ascending channel id and within a channel by turn number |
| NoEquivocation.NeverEquivocates | channel/consensus_channel/consensus_channel.go:231-240 | Whatever the other party sends, an honest party makes at most one signature for each turn number, and its own side stays validly signed |
| NoEquivocation.AgreesOnlyToRequests | channel/consensus_channel/follower_channel.go:27-69 | Whatever the other party sends, what an honest follower has adopted is the fold of exactly the proposals it was asked to sign and signed, and what an honest leader has proposed is the fold of exactly those it was asked to propose and proposed |
| NoEquivocation.SignsOnlyOpenStates | channel/consensus_channel/consensus_channel.go:231-240 | Nor does it ever sign a final state, or a state of another channel |
| LedgerAnswers.ProposeExactlyWhen | channel/consensus_channel/leader_channel.go:23-50 | On a valid ledger a proposal is made if and only if the leader makes it with its own key, for this ledger, and it can be applied on top of all it has proposed; it is then queued last, signed on the state it leads to; what each error says is so |
| LedgerAnswers.SignNextExactlyWhen | channel/consensus_channel/follower_channel.go:27-69 | On a valid ledger signing succeeds if and only if the follower asks with its own key and the head of the queue is the whole expected proposal; the new state is the old one with the expected proposal applied, signed by both; what each error says is so |
| LedgerAnswers.FollowerReceiveExactlyWhen | channel/consensus_channel/follower_channel.go:72-109 | A proposal is queued if and only if it is for this ledger, has the next turn number, can be applied and is signed by the leader on the state it leads to; an invalid turn number is reported if and only if that is what is wrong |
| LedgerAnswers.LeaderReceiveExactlyWhen | channel/consensus_channel/leader_channel.go:65-116 | A countersignature is accepted if and only if it is for this ledger and is stale or the follower's signature on a queued state; the leader moves to exactly that state and keeps the rest of the queue |
| LedgerAnswers.IsProposedExactlyWhen | channel/consensus_channel/consensus_channel.go:125-134 | Unless a removal for its target is queued, a guarantee is proposed if and only if some queued proposal adds it |
| Consensus.ProposeKeeps | channel/consensus_channel/leader_channel.go:23-50 | A successful proposal keeps the signed-queue invariant and extends what is proposed by exactly that proposal |
| Consensus.LeaderReceiveKeeps | channel/consensus_channel/leader_channel.go:65-116 | Accepting a countersignature keeps the signed-queue invariant and changes nothing of what is proposed; the signature taken unchecked from the queue is the right one |
| Consensus.FollowerReceiveKeeps | channel/consensus_channel/follower_channel.go:72-109 | Queueing a proposal keeps the signed-queue invariant and extends what is proposed by exactly that proposal |
| Consensus.SignNextKeeps | channel/consensus_channel/follower_channel.go:27-69 | Countersigning keeps the signed-queue invariant, moves the turn on by one and changes nothing of what is proposed; the leader's signature taken unchecked from the queue is the right one |
| Consensus.ProposedNextIsHeadAdd | channel/consensus_channel/consensus_channel.go:136-154 | A guarantee is proposed next exactly when the head of the queue is an addition of that very guarantee, without an error |
| Consensus.ConsensusChannel.New | channel/consensus_channel/consensus_channel.go:55-101 | A channel is made exactly when the id is not external and both parties signed the initial state; it is then valid with an empty queue |
| Consensus.ConsensusChannel.LatestProposedVars | channel/consensus_channel/consensus_channel.go:265-277 | The loop over the queue computes the fold of the current vars with it, or its first error |
| Consensus.ConsensusChannel.Propose | channel/consensus_channel/leader_channel.go:23-50 | New state and result on success and on each error; validity is kept and a failure changes nothing |
| Consensus.ConsensusChannel.LeaderReceive | channel/consensus_channel/leader_channel.go:65-116 | The loop that advances a candidate: new state and result on success, on stale countersignatures and on each error; validity is kept |
| Consensus.ConsensusChannel.FollowerReceive | channel/consensus_channel/follower_channel.go:72-109 | New state and result on success and on each error; validity is kept |
| Consensus.ConsensusChannel.SignNextProposal | channel/consensus_channel/follower_channel.go:27-69 | New state and result on success and on each error; validity is kept |
| Consensus.ConsensusChannel.Receive | channel/consensus_channel/consensus_channel.go:111-120 | Dispatch by role, with the new state and the error of the operation chosen |
| Consensus.ConsensusChannel.HasRemovalBeenProposed | channel/consensus_channel/consensus_channel.go:173-183 | True exactly when some queued proposal removes the target |
| LedgerVars.WorkingVars.Add | channel/consensus_channel/consensus_channel.go:759-794 | In-place addition: the new vars, or the error with everything left as it was |
| LedgerVars.WorkingVars.Remove | channel/consensus_channel/consensus_channel.go:807-841 | In-place removal: the new vars, or the error with everything left as it was |
| LedgerVars.WorkingVars.HandleProposal | channel/consensus_channel/consensus_channel.go:730-745 | Dispatch to addition or removal with the same all-or-nothing effect |
| LedgerVars.ApplyConserves | channel/consensus_channel/consensus_channel.go:759-841 | Leader balance, follower balance and all guarantees add up to the same total after every successful proposal |
| LedgerVars.SolventExactlyWhen | channel/consensus_channel/consensus_channel.go:759-841 | A proposal keeps all amounts non-negative if and only if it adds no negative guarantee and returns no negative share that its left party cannot cover; neither is checked by the code |
| LedgerAnswers.AddRefusedExactlyWhen | channel/consensus_channel/consensus_channel.go:759-794 | When each of the three errors of an addition is reported |
| LedgerAnswers.RemoveRefusedExactlyWhen | channel/consensus_channel/consensus_channel.go:807-841 | When each of the two errors of a removal is reported |
| LedgerVars.ApplyKeepsKeys | channel/consensus_channel/consensus_channel.go:759-841 | Guarantees stay stored under their own targets, parties keep their destinations and the turn moves on by one |
| LedgerVars.ApplyKeepsOthers | channel/consensus_channel/consensus_channel.go:759-841 | A proposal leaves the guarantees for all other targets as they were |
| LedgerVars.AddRemoveRoundTripExactlyWhen | channel/consensus_channel/consensus_channel.go:786-835 | Adding a guarantee and removing it with the same left share restores the outcome if and only if the leader is the left party or both parties put in the same, because Add always charges the left deposit to the leader |
| LedgerVars.RoundTripFails | channel/consensus_channel/consensus_channel.go:786-835 | An input for which it does not: with the follower left and deposits 3 and 1 the balances come back as 8 and 12 instead of 10 and 10 |
| Solvency.EveryProposedStateConserves | channel/consensus_channel/consensus_channel.go:265-277 | The current state and every queued state of a valid ledger share out the same total, and from a solvent current state all are solvent if and only if every queued proposal is harmless where it stands |
| Solvency.SolventUpToExactlyWhen | channel/consensus_channel/consensus_channel.go:759-841 | The same for any prefix of any queue |
| Solvency.RunSolventExactlyWhen | channel/consensus_channel/consensus_channel.go:759-841 | In every run from a solvent ledger, all states either side ever proposed or held are solvent if and only if every entry of the history is harmless where it stands |
| Solvency.DecentRunsAreSolvent | channel/consensus_channel/consensus_channel.go:759-841 | If no proposal asked for speaks of a negative amount, both current states and all queued states are solvent in every run |
| Solvency.RemovalSafeExactlyWhen | channel/consensus_channel/consensus_channel.go:807-841 | For a guarantee that is held: all runs whose other proposals speak of no negative amount stay solvent if and only if the removal returns no negative amount to the left party |
| Solvency.InsolventRun | channel/consensus_channel/consensus_channel.go:807-841 | The failing run: the leader first commits all that the left party has and then proposes the removal |
| LedgerEncoding.AsOutcome | channel/consensus_channel/consensus_channel.go:484-507 | The exit lists leader, follower and the guarantees by ascending target, whatever order the map yields its keys in |
| LedgerEncoding.FromExit | channel/consensus_channel/consensus_channel.go:448-478 | Reads the outcome back, the last guarantee for a target winning, or reports metadata too short to decode |
| LedgerEncoding.ExitLayout | channel/consensus_channel/consensus_channel.go:484-507 | The first allocation is the leader's, the second the follower's, and the rest encode guarantees by ascending target, with left and right party as metadata |
| LedgerEncoding.EveryGuaranteeListed | channel/consensus_channel/consensus_channel.go:484-507 | Every guarantee has such an allocation |
| LedgerEncoding.ReadExactlyWhen | channel/consensus_channel/consensus_channel.go:448-478 | An exit can be read if and only if every guarantee in it names two parties; leader and follower are the first two allocations and for every target the last guarantee counts |
| LedgerEncoding.ExitRoundTrip | channel/consensus_channel/consensus_channel.go:448-507 | FromExit undoes AsOutcome on every well-keyed ledger outcome |
| LedgerEncoding.SignaturePinsVars | channel/consensus_channel/consensus_channel.go:864-880 | A signature that recovers on two ledger states shows their fixed parts, turn numbers, balances and guarantees to be the same |
| LedgerEncoding.AsStateInjective | channel/consensus_channel/consensus_channel.go:864-880 | Different well-keyed vars give different states |
| LedgerEncoding.AddSucceedsExactlyWhenDivertDoes | channel/consensus_channel/consensus_channel.go:759-794 | With the leader left, the follower right and a fresh target, Add succeeds exactly when the left deposit fits the amount and diverting on the allocation list leaves no entry negative |
| LedgerEncoding.AddRefinesDivert | channel/state/outcome/allocation.go:136-178 | The allocations Add leaves are a permutation of those diverting leaves |
| SortedLists.SortKeys | channel/consensus_channel/consensus_channel.go:489-495 | Sorting distinct keys gives the same keys in ascending order |
| SortedLists.AscendingIsUnique | channel/consensus_channel/consensus_channel.go:489-495 | There is only one way to list a set in ascending order |
| Types.ExternalExactlyWhen | types/destination.go:9-16 | A destination is external if and only if its first 12 of 32 bytes are zero, that is, if it is below 2 to the 160 |
| Outcomes.Total | channel/state/outcome/allocation.go:69-75 | Sum of all amounts |
| Outcomes.TotalFor | channel/state/outcome/allocation.go:78-86 | Sum of the amounts for one destination |
| Outcomes.AllocatedToOnce | channel/state/outcome/allocation.go:78-86 | A destination named once is owed exactly that allocation |
| Outcomes.ComputeTransferGo | channel/state/outcome/transfer.go:10-44 | Position i is paid min(amount, what the holdings leave after all earlier amounts), for every position with an empty list and else only for the first listed index, which the loop never moves on from |
| Outcomes.PayoutStep | channel/state/outcome/transfer.go:10-44 | A payout is between nothing and the amount, and what is left for the next position is what was left minus the payout |
| Outcomes.Affords | channel/state/outcome/allocation.go:93-110 | True exactly when a first allocation equal to the given one exists, its amount fits what is left, and something is left unless it is first in line |
| Outcomes.AffordsIsPaidInFull | channel/state/outcome/allocation.go:93-110 | For a positive amount, affordable if and only if a transfer of everything pays that allocation in full; for a zero amount the extra condition is made explicit |
| Outcomes.PaidInFullButNotAffordable | channel/state/outcome/allocation.go:93-110 | An input on which the two differ: an allocation of nothing behind one that takes all |
| Outcomes.DepositSafetyThreshold | channel/state/outcome/deposit-safety.go:12-26 | Sum of the amounts before the first allocation for the destination |
| Outcomes.DepositSafetyIsExact | channel/state/outcome/deposit-safety.go:12-26 | For an allocation of something: holdings reach the threshold if and only if every later deposit is recoverable, that is, a transfer pays at least the smaller of the allocation and the deposit; an allocation of nothing is always safe |
| DepositSafety.DepositRecoverableExactlyWhen | channel/state/outcome/deposit-safety.go:12-26 | For any non-negative list and any destination: holdings of the threshold plus all that is allocated to the destination pay it all of that if and only if no positive allocation to somebody else stands between its first allocation and a positive one (its allocations are unbroken), because the threshold stops at the first allocation |
| DepositSafety.UnbrokenInOrder | channel/state/outcome/deposit-safety.go:12-26 | Two destinations with unbroken positive allocations are served one after the other: the threshold of the second covers threshold and allocations of the first |
| Outcomes.DivertToGuarantee | channel/state/outcome/allocation.go:136-178 | Fails exactly for equal debtees or an entry that would go negative; else both debtees are debited and the guarantee with its metadata is appended |
| AssetHolder.ComputeTransfer | nitro-protocol/src/contract/multi-asset-holder.ts:196-253 | New allocations, exits in list order, total paid and the all-zero flag in closed form, for any index list |
| AssetHolder.IncreasingListIsHonoured | nitro-protocol/src/contract/multi-asset-holder.ts:220-245 | A strictly increasing index list pays exactly the positions it names |
| AssetHolder.ExitsInOrder | nitro-protocol/src/contract/multi-asset-holder.ts:220-245 | The exits of the chosen positions come in order and carry exactly their payouts |
| AssetHolder.TransferIsPathIndependent | nitro-protocol/src/contract/multi-asset-holder.ts:196-253 | Paying two disjoint sets of positions one after the other, the second from the reduced holdings and allocations, leaves the same allocations, holdings and payouts as paying their union at once |
| AssetHolder.TransferListsCommute | nitro-protocol/src/contract/multi-asset-holder.ts:196-253 | The same for strictly increasing index lists without common indices and their merge |
| AssetHolder.GoTransferAgreesExactlyWhen | channel/state/outcome/transfer.go:10-44 | For any index list the Go and TypeScript forms leave the same allocations if and only if nothing would be paid to a position that the TypeScript form pays and the Go form does not; for a strictly increasing list those are the listed positions after the first |
| AssetHolder.GoTransferDiffers | channel/state/outcome/transfer.go:10-44 | An input on which they differ: two listed positions with funds for both |
| Claims.ComputeClaim | nitro-protocol/src/contract/multi-asset-holder.ts:67-187 | Fails exactly for an entry that is not a guarantee; else kept plus exit is the old target entry everywhere, the guarantee falls by the sum of exits, nothing else in the source changes, nothing goes negative, the total is at most the guarantee's share of the holdings, and every payout is given in closed form, for any index list and any guarantee destinations, repeated or not; with an empty list the total is the smaller of the share and what the beneficiaries are owed |
| Claims.ClaimRespectsPriority | nitro-protocol/src/contract/multi-asset-holder.ts:67-187 | What a claim leaves of the holdings covers every earlier source entry, it takes nothing if those are not covered before, and a guarantee that is covered and owed is paid out in full |
| Claims.PayBeneficiaries | nitro-protocol/src/contract/multi-asset-holder.ts:135-179 | The loop over guarantee destinations conserves each target entry, pays each beneficiary its closed-form amount in priority order and nobody else, and leaves what is not set aside |
| Claims.SourceSurplus | nitro-protocol/src/contract/multi-asset-holder.ts:109-121 | What the holdings leave after all earlier source entries, with the early exit |
| Claims.PayAtKeepsOrder | nitro-protocol/src/contract/multi-asset-holder.ts:141-176 | One iteration pays the closed-form amount and leaves the closed-form surplus, also when the destination has had its turn before |
| Claims.OpenIsFirst | nitro-protocol/src/contract/multi-asset-holder.ts:141-176 | With an empty index list a target allocation is set money aside for at its first occurrence among the beneficiaries only |
| Channels.AddSignature | channel/state/signedstate.go:28-49 | Stores a signature under the index of the first participant with its signer's address, if that is free; else it is reported as already signed, by no participant, or not recoverable |
| Channels.Merge | channel/state/signedstate.go:94-112 | The merged signatures and error, for the order in which the map happened to be gone through |
| Channels.MergeKeepsGenuine | channel/state/signedstate.go:94-112 | Whatever is merged, whether or not it succeeds, signatures stay with their signers and none is lost or replaced |
| Channels.MergeGenuineIsUnion | channel/state/signedstate.go:94-112 | Merging genuine signatures of distinct participants succeeds and gives their union in every order |
| Channels.MergeDependsOnOrder | channel/state/signedstate.go:94-112 | An input on which success depends on the map order |
| MergeOrder.MergeSucceedsInEveryOrderExactlyWhen | channel/state/signedstate.go:94-112 | Merging succeeds in every map order if and only if the states are equal, every incoming signature under a stored index is the stored one, and all others recover to different participants whose places are free among the stored and the other incoming signatures |
| Channels.ChannelObject.New | channel/channel.go:33-67 | A channel is made exactly when its id is not external; it then stores both setup states unsigned, holds nothing and supports nothing |
| Channels.ChannelObject.AddSignedState | channel/channel.go:240-272 | New channel and answer, including the signatures a failed merge leaves behind |
| ChannelSupport.EveryAdditionKeeps | channel/channel.go:240-272 | Over any sequence of additions the setup states hold only genuine signatures, the latest supported turn once set never goes back, and if additions are keyed by participant index the latest supported state has as many signatures as there are participants |
| ChannelSupport.TakenExactlyWhen | channel/channel.go:240-272 | A signed state is taken if and only if it is of this channel, not older than the latest supported one and can be merged with what is stored for its turn; only what is stored for that turn changes, and the turn becomes the latest supported one if and only if the state is taken and then has all its signatures |
| ChannelSupport.OutOfScopeChangesNothing | channel/channel.go:244-253 | A state of another channel, or an older one, is answered with false and changes nothing |
| ChannelSupport.EveryStoredStateIsOwn | channel/channel.go:240-272 | Over any sequence of additions every stored state, and so the latest supported one, is of this channel and stored under its own turn |
| ChannelSupport.SupportedBySignaturesExactlyWhen | channel/channel.go:240-272 | Over any sequence of additions the latest supported state is signed by every participant if and only if the signatures it was first stored with are genuine, since those are never checked; for the two setup states it always is |
| ChannelSupport.OutsiderSupportsState | channel/channel.go:246-250 | The failing input: a state for a new turn number whose signatures are all by somebody who is no participant becomes the latest supported state |
| ChannelSupport.FullStaysFullExactlyWhen | channel/channel.go:255-267 | A full set of signatures stays full under every merge if and only if it is keyed by participant indices |
| ChannelSupport.SupportOvershoots | channel/channel.go:255-267 | The failing input, through two additions: a signature stored under an index that no participant has leaves the latest supported state with one signature too many |
| Setup.SignPre | channel/channel.go:275-301 | An honest participant can always sign the prefund state: both panics are unreachable |
| Setup.SignPost | channel/channel.go:280-301 | The same for the postfund state once all prefund signatures are there |
| Setup.AddPreSignature | channel/channel.go:240-272 | Adding one prefund signature to an honest channel adds that participant; it is refused as stale only once all postfund signatures are there |
| Setup.AddPostSignature | channel/channel.go:240-272 | Adding one postfund signature to an honest channel adds that participant and always succeeds |
| Setup.SetupQueries | channel/channel.go:157-185 | The four queries answer who has signed and whether everybody has |
| Setup.SetupStart | channel/channel.go:33-67 | A new channel is the honest channel that has seen no signature |
| Messages.CreateSignedStateMessages | protocols/messages.go:148-166 | One message for every participant but the sender, in order, each addressed to that participant and carrying the signed state |
| Messages.EachOtherOnce | protocols/messages.go:148-166 | With distinct participants nobody is written to twice and nobody writes to itself |
| Messages.StateMessagesCarry | protocols/messages.go:148-166 | Those messages bring the signed state to everybody else, and no proposal |
| VirtualFundRun.PostfundMeansGuaranteed | protocols/virtualfund/virtualfund.go:300-419 | In every run of the three objectives over two ledgers shared with other objectives, wherever a participant's postfund signature is seen that participant holds the guarantee of both amounts in a doubly signed state of each of its ledgers |
| VirtualFundRun.CompletionMeansGuaranteed | protocols/virtualfund/virtualfund.go:355-453 | Once one participant has completed or has all postfund signatures, every participant holds the guarantee on all its ledgers, so both ledgers hold it from both sides |
| VirtualFundRun.CranksFailOnlyForFunds | protocols/virtualfund/virtualfund.go:355-419 | In every run a crank can only fail for want of approval or of ledger funds: no panic, no query error, no mismatch of proposals |
| VirtualFundRun.CrankIsIdempotentInRuns | protocols/virtualfund/virtualfund.go:355-419 | Idempotence of Crank in every reachable state |
| VirtualFundCranks.CrankStep | protocols/virtualfund/virtualfund.go:355-419 | A crank in any accounted world keeps the invariant, and can only fail for want of approval or of funds |
| VirtualFundRun.EveryRunIsAccounted | protocols/virtualfund/virtualfund.go:300-419 | The invariant behind these, for every run: who has seen whose signatures, whose signatures circulate, and one history for each ledger |
| VirtualFundLedgers.LedgerGoesThrough | protocols/virtualfund/virtualfund.go:355-419 | In every run of the three objectives each ledger goes through a run of its own, in which the leader is asked for nothing but the expected guarantee and what other objectives propose |
| VirtualFundLedgers.FundingStaysSolvent | protocols/virtualfund/virtualfund.go:355-419 | In every run with solvent ledgers and no negative amounts proposed by others, both sides' current and queued states stay solvent |
| VirtualFundLedgers.FundingCharges | protocols/virtualfund/virtualfund.go:355-453 | In every run, once one participant has completed, each side of each ledger has moved exactly the first amount from the leader and the second from the follower for the channel, besides what other objectives moved |
| VirtualFundWorld.UpdateIsDeliveryOnItsLedger | protocols/virtualfund/virtualfund.go:300-350 | Updating an objective with a proposal delivers it on exactly the ledger it names |
| VirtualFundWorld.ObjectivesAreConstructed | protocols/virtualfund/virtualfund.go:161-266 | The objectives of a run are those the constructor makes, approved at once or not |
| VirtualFundAnswers.ConstructedExactlyWhen | protocols/virtualfund/virtualfund.go:161-266 | An objective is made if and only if the channel is single-hop with one allocation for Alice and one for Bob, its id is not external, the caller is a participant and has the ledgers its place calls for; what each error says is so |
| VirtualFundAnswers.UpdatedExactlyWhen | protocols/virtualfund/virtualfund.go:300-350 | An update succeeds if and only if everything in the event concerns the objective; it changes the channel by the signed state and the ledger named by the proposal, and nothing else |
| VirtualFundAnswers.FundedExactlyWhen | protocols/virtualfund/virtualfund.go:89-115 | A connection counts as funded if and only if the ledger's current state holds, for the channel, a guarantee of both amounts together between the two parties |
| VirtualFundAnswers.LeftBeforeRight | protocols/virtualfund/virtualfund.go:379-396 | The left ledger is worked on before the right one, messages come in that order, and what was done counts only if both succeed |
| VirtualFundAnswers.FailedCrankChangesNothing | protocols/virtualfund/virtualfund.go:355-419 | A crank that fails returns the objective as it was and sends nothing |
| VirtualFund.NeighboursProposeTheSame | protocols/virtualfund/virtualfund.go:225-263 | What a participant builds for its right ledger is what its neighbour builds for its left ledger, with amount a0 + b0 |
| VirtualFund.InferRole | protocols/virtualfund/virtualfund.go:177-188 | The role is the last position of the address among the participants, and there is none if and only if it is not among them |
| VirtualFundCranks.FundingOfCrank | protocols/virtualfund/virtualfund.go:379-396 | In a run, work on the ledgers is the proposal or signing step on each of the participant's ledgers, with the messages those steps send, and can only fail for insufficient funds |
| VirtualFundCrank.CrankIsIdempotent | protocols/virtualfund/virtualfund.go:355-419 | Cranking the result of a successful crank sends nothing and waits for the same thing, or reports not-approved when completed |
| VirtualFundCrank.CrankLeavesNothingUndone | protocols/virtualfund/virtualfund.go:355-419 | After a successful crank the participant has signed prefund, has worked both ledgers as far as they go once prefund is complete, has signed postfund once both are funded, is completed exactly when all is there, and waits for the first thing missing |
| VirtualFundCrank.UpdateLedgerTwice | protocols/virtualfund/virtualfund.go:618-656 | Work on one ledger leaves it funded, proposed, or with nothing next to sign, and a second attempt does nothing |
| VirtualFundCrank.CrankShape | protocols/virtualfund/virtualfund.go:355-419 | For an honest participant no panic is reachable and the crank depends on signatures only through who has signed |
| GuaranteeRun.LeaderUpdates | protocols/virtualfund/virtualfund.go:572-592 | On any ledger history that proposes nothing else about the channel, the leader's part is the proposal step, with its whole queue sent to the follower and nobody else, or nothing; it fails only for insufficient funds |
| GuaranteeRun.FollowerUpdates | protocols/virtualfund/virtualfund.go:594-656 | The follower's part is the signing step, with the countersignature sent to the leader and nobody else, or nothing; it never fails |
| GuaranteeRun.GuaranteeStays | channel/consensus_channel/consensus_channel.go:759-841 | Along such a history a guarantee once there stays |
| LedgerMoves.AdditionMoves | channel/consensus_channel/consensus_channel.go:759-794 | Along such a history, whatever is proposed about other channels, the addition moves its deposits once and nothing more |
| GuaranteeRun.StepKeepsTrack | protocols/virtualfund/virtualfund.go:618-656 | Every ledger step by anybody keeps such a history, and neither side loses the guarantee |
| GuaranteeRun.UpdateIsDelivery | protocols/virtualfund/virtualfund.go:68-86 | Handling a proposal is the ledger's delivery step with every error dropped |
| VirtualDefundRun.RemovalMeansAllSigned | protocols/virtualdefund/virtualdefund.go:289-346 | In every run of the three objectives over two ledgers shared with others, as long as one participant has not signed the final state both sides of both ledgers hold the guarantee; and they hold it for ever if Bob is to pay more than his share |
| VirtualDefundRun.CompletionMeansDefunded | protocols/virtualdefund/virtualdefund.go:289-346 | In every run a completed participant has no guarantee for the channel left on its ledgers, and all three have signed the final state |
| VirtualDefundRun.CranksFailOnlyWhenOverpaid | protocols/virtualdefund/virtualdefund.go:289-417 | In every run a crank fails only for want of approval, or with an invalid amount if Bob is to pay more than his share: proposals never mismatch |
| VirtualDefundRun.CrankIsIdempotentInRuns | protocols/virtualdefund/virtualdefund.go:289-346 | Idempotence of Crank in every reachable state |
| VirtualDefundCranks.CrankStep | protocols/virtualdefund/virtualdefund.go:289-346 | A crank in any accounted world keeps the invariant, and fails only for want of approval or for a payment out of range |
| VirtualDefundRun.EveryRunIsAccounted | protocols/virtualdefund/virtualdefund.go:289-346 | The invariant behind these, for every run |
| VirtualDefundCranks.FailedCrankChangesNothing | protocols/virtualdefund/virtualdefund.go:289-346 | In every accounted world a crank that fails leaves the objective and both its ledgers as they were |
| VirtualDefundLedgers.LedgerGoesThrough | protocols/virtualdefund/virtualdefund.go:289-346 | In every run of the three objectives each ledger goes through a run of its own, in which the leader is asked for nothing but the expected removal and what other objectives propose |
| VirtualDefundLedgers.DefundingReturns | protocols/virtualdefund/virtualdefund.go:289-346 | In every run, once all participants have completed, each side of each ledger has returned Alice's amount less the payment to the guarantee's left party and the rest to the other, besides what other objectives moved |
| VirtualDefundSolvency.DefundRunSolventExactlyWhen | protocols/virtualdefund/virtualdefund.go:206-213 | In every run with solvent ledgers and no negative amounts proposed by others, all states ever proposed on a ledger are solvent if and only if the removal of this channel is harmless wherever it was proposed |
| VirtualDefundSolvency.DefundRunsSolventExactlyWhen | protocols/virtualdefund/virtualdefund.go:206-213 | Provided nobody has rejected the objective: all such runs keep both ledgers solvent if and only if Alice pays no more than her share, which the code does not check |
| VirtualDefundSolvency.InsolventDefundRun | protocols/virtualdefund/virtualdefund.go:206-213 | The failing runs: if Alice pays more, another objective commits her balance, the three sign, and her removal overdraws it |
| VirtualDefundSolvency.OwnRemovalOverdraws | protocols/virtualdefund/virtualdefund.go:376-397 | With 5 from each and a payment of 20 the leader's own proposal leaves it with -10 |
| VirtualDefundSteps.UpdateIsDeliveryOnItsLedger | protocols/virtualdefund/virtualdefund.go:521-552 | Updating an objective with a proposal delivers it on exactly the ledger it names and is never an error |
| VirtualDefundSteps.TakeOwned | protocols/virtualdefund/virtualdefund.go:486-520 | Genuine incoming signatures are all taken and add up to the union |
| VirtualDefund.ResponderAgrees | protocols/virtualdefund/virtualdefund.go:164-213 | What a responder makes of the initiator's final state is what the initiator would make in its place: the payment read off is the initiator's, so both derive the same final state and the same removal for every ledger |
| VirtualDefundAnswers.MadeExactlyWhen | protocols/virtualdefund/virtualdefund.go:64-127 | An objective is made if and only if the channel is found, the caller is a participant and has the ledgers its place calls for |
| VirtualDefundAnswers.ObjectivesAreMade | protocols/virtualdefund/virtualdefund.go:64-127 | The objectives of a run are those the constructor makes, approved at once or not: Alice's ledger left and Bob's right for the intermediary, the right status, role, terms and no signatures |
| VirtualDefundAnswers.PaidExactlyWhen | protocols/virtualdefund/virtualdefund.go:164-178 | A payment can be read off if and only if the state is final and the channel is found; it is what Bob's final amount exceeds his initial one by |
| VirtualDefundAnswers.FinalStateMovesThePayment | protocols/virtualdefund/virtualdefund.go:200-213 | The final state follows the postfund state, moves the payment from Alice's allocation to Bob's and leaves all else as it was |
| VirtualDefundAnswers.SignaturesTakenExactlyWhen | protocols/virtualdefund/virtualdefund.go:486-520 | Signatures are taken if and only if each is the stored one or new and genuine, and then all are stored; what each error says is so |
| VirtualDefundAnswers.ReceivedExactlyWhen | protocols/virtualdefund/virtualdefund.go:531-552 | A ledger's refusal is an error unless the turn number is to blame, and then the proposal is ignored |
| VirtualDefundAnswers.UpdatedExactlyWhen | protocols/virtualdefund/virtualdefund.go:479-554 | An update succeeds if and only if everything in the event concerns the objective and is accepted; it stores the signatures, changes the ledger named by the proposal, and nothing else |
| VirtualDefundAnswers.LeftBeforeRight | protocols/virtualdefund/virtualdefund.go:322-345 | The left ledger is worked on before the right one and messages come in that order; if the right one fails the left one stays changed |
| VirtualDefundAnswers.FailedCrankSendsNothing | protocols/virtualdefund/virtualdefund.go:289-346 | A crank that fails sends nothing, and at most the left ledger, or the party's own signature if it could not be announced, has changed |
| VirtualDefund.SignedFinalHoldsAll | protocols/virtualdefund/virtualdefund.go:186-197 | Genuine signatures can all be put on the final state, each under its participant's index |
| VirtualDefund.TakeSignaturesKeeps | protocols/virtualdefund/virtualdefund.go:486-520 | An update stores only genuine signatures and neither loses nor replaces one |
| VirtualDefund.UpdateKeepsGenuine | protocols/virtualdefund/virtualdefund.go:479-554 | The same for a whole update, which never changes the final state |
| VirtualDefundCrank.NoRemovalBeforeAllSigned | protocols/virtualdefund/virtualdefund.go:289-346 | A crank touches the ledgers only once all three participants have signed the same final state |
| VirtualDefundCrank.CrankIsIdempotent | protocols/virtualdefund/virtualdefund.go:289-346 | Cranking the result of a successful crank sends nothing and waits for the same thing, or reports not-approved when completed |
| VirtualDefundCrank.CrankLeavesNothingUndone | protocols/virtualdefund/virtualdefund.go:289-346 | After a successful crank the participant has signed, has worked both ledgers as far as they go once all have signed, is completed exactly when both are defunded, and waits for the first thing missing |
| VirtualDefundCrank.UpdateLedgerTwice | protocols/virtualdefund/virtualdefund.go:376-417 | Work on one ledger leaves it defunded, with the removal proposed, or with nothing next to sign, and a second attempt does nothing |
| VirtualDefundCrank.SigningSucceeds | protocols/virtualdefund/virtualdefund.go:298-315 | An honest participant's signature and announcement never fail |
| RemovalRun.HeldUntilRemoved | channel/consensus_channel/consensus_channel.go:807-841 | Along a ledger history that proposes nothing else about the channel, the guarantee stays exactly as it was until its removal and is not seen again |
| LedgerMoves.RemovalMoves | channel/consensus_channel/consensus_channel.go:807-841 | Along such a history, whatever is proposed about other channels, the removal returns the guarantee that was there at first once and nothing more |
| RemovalRun.LeaderCloses | protocols/virtualdefund/virtualdefund.go:376-397 | On such a history the leader's part is the proposal step, with its whole queue sent to the follower and nobody else, or nothing; it fails only to return more than the guarantee holds |
| RemovalRun.FollowerCloses | protocols/virtualdefund/virtualdefund.go:397-417 | The follower's part is the signing step, with the countersignature sent to the leader and nobody else, or nothing; it never fails |
| RemovalRun.RemovedWithinAmount | channel/consensus_channel/consensus_channel.go:807-841 | A removal that returns more than the guarantee holds is never made |
| RemovalRun.ExcessiveChangesNothing | protocols/virtualdefund/virtualdefund.go:376-417 | Such a removal leaves the ledger as it was whichever side attempts its part |
| RemovalRun.StepKeepsCourse | protocols/virtualdefund/virtualdefund.go:376-417 | Every ledger step by anybody keeps such a history, and neither side gets the guarantee back |
| RemovalRun.SentProposalsAreTaken | protocols/virtualdefund/virtualdefund.go:531-552 | A proposal the other side sent is never an error for the objective |
| DefundObject.DefundObjective.CrankObjective | protocols/virtualdefund/virtualdefund.go:289-346 | Result of cranking the object, and that the ledgers it shares with its copy change in both, also when a later ledger fails |
| DefundObject.DefundObjective.RemoveGuarantees | protocols/virtualdefund/virtualdefund.go:322-336 | Left before right on the shared ledgers; an error on the right keeps what was done on the left |
| DefundObject.DefundObjective.UpdateLedgerToRemoveGuarantee | protocols/virtualdefund/virtualdefund.go:376-417 | New ledger value and messages, or the error with the ledger unchanged |
| DefundObject.DefundObjective.SignFinal | protocols/virtualdefund/virtualdefund.go:298-315 | Own signature stored once, and the signed final state with every stored signature announced to the others |
| DefundObject.DefundObjective.Clone | protocols/virtualdefund/virtualdefund.go:263-286 | A copy with signatures and status of its own and the same ledgers |
| DefundObject.DefundObjective.IsFullySigned | protocols/virtualdefund/virtualdefund.go:349-356 | True exactly when all three signatures are stored |
| DefundObject.DefundObjective.SignedFinalState | protocols/virtualdefund/virtualdefund.go:186-197 | The loop computes the final state with all stored signatures, or the first error |
| DefundObject.DefundObjective.TakeIncoming | protocols/virtualdefund/virtualdefund.go:493-518 | The loop takes new valid signatures, skips known ones and stops at a conflicting or invalid one |
| Neutrality.RunsAreNeutral | channel/consensus_channel/consensus_channel.go:759-841 | For any runs of the two ledgers in which objectives for any number of channels propose, seen from any side: once no channel is held and each was funded as often on one ledger as on the other, the intermediary has what it had, Alice is down and Bob up by exactly what was paid |
| Neutrality.IntermediaryIsNeutralExactlyWhen | protocols/virtualdefund/virtualdefund.go:206-213 | Once no channel is held, Alice is down by what was paid on her ledger, Bob up by what was paid on his, and the intermediary has what it had if and only if the two are the same |
| Neutrality.ChannelsFundedOnceAreNeutral | protocols/virtualdefund/virtualdefund.go:206-213 | If the same channels were funded on both ledgers and none twice, Alice has paid to Bob the sum of those channels' payments |
| Neutrality.SomeNeutralRuns | protocols/virtualdefund/virtualdefund.go:206-213 | There are such runs: Alice pays Bob 2 through a channel with 5 from each, and both ledgers settle |
| VirtualPayment.PaymentGoesThroughExactlyWhen | protocols/virtualdefund/virtualdefund.go:289-346 | A channel is funded in one run of three participants and defunded in another that starts from the ledgers as the first left them, while other objectives use the ledgers: apart from what those moved, Alice is down by the payment if and only if she leads her ledger or both put in the same, Bob is up by it if and only if the intermediary leads his ledger or both put in the same, and the intermediary has what it had if and only if it leads exactly one of the two or both put in the same |
| VirtualPayment.LedgerNet | channel/consensus_channel/consensus_channel.go:759-841 | What leader and follower of one ledger gain by the channel over the two runs, by who leads |
| Neutrality.RunBalances | channel/consensus_channel/consensus_channel.go:759-841 | In every such run, for its one history, either side's balances are the initial ones, minus or plus what was paid through the channels it has seen defunded, minus what the channels still held have locked up, and the channels funded are those defunded plus those held |
| Neutrality.FundedIsDefundedOrHeld | channel/consensus_channel/consensus_channel.go:759-841 | After any interleaving of funding and defunding proposals every channel funded has been defunded or is held, counted with repetition |
| Neutrality.BalancesAfter | channel/consensus_channel/consensus_channel.go:759-841 | The closed form after any interleaving of funding and defunding proposals |
| Neutrality.ObjectivesMakePlanned | protocols/virtualfund/virtualfund.go:558-569 | The proposals in question are those the two objectives make |
| Neutrality.PaymentMovesExactlyWhen | channel/consensus_channel/consensus_channel.go:786-835 | Funding and defunding one channel moves exactly the payment from leader to follower if and only if the leader is the left party or a0 = b0 + 2 paid |
| Neutrality.PaymentGoesAstray | channel/consensus_channel/consensus_channel.go:786-835 | An input for which it does not: the follower is left, 4 and 1 are put in and 2 are paid, but only 1 moves |
| DirectFundRun.DepositsAreSafe | protocols/directfund/directfund.go:250-386 | If every participant's allocations are unbroken and nobody else deposits: in every run of any number of participants over a chain, with events and messages lost, repeated and reordered, the holdings are a prefix sum of the allocations and at most their total, and each participant submits at most one deposit, of exactly its share |
| DirectFundRun.PostfundMeansExactlyFunded | protocols/directfund/directfund.go:269-330 | Under the same condition a postfund signature or completion means that the chain holds exactly the whole amount |
| DirectFundRun.DepositsAreRecoverable | protocols/directfund/directfund.go:269-386 | For any non-negative outcome of one asset and whoever else deposits: in every run each participant submits at most one deposit, of no more than its share, and if its own allocations are unbroken a transfer of what is held pays it back |
| DirectFundSafety.DepositsRecoverableExactlyWhen | protocols/directfund/directfund.go:269-386 | A participant can recover its deposit in every run, whatever others deposit, if and only if its allocations are unbroken, which the constructor does not check |
| DirectFundSafety.NobodyLosesExactlyWhen | protocols/directfund/directfund.go:269-386 | So every participant can in every run if and only if all participants' allocations are unbroken |
| DirectFundSafety.TurnTaken | protocols/directfund/directfund.go:269-330 | Every participant that is allocated something has a run in which it comes to deposit its whole share on top of its threshold, without anybody else's deposit if it is first in line |
| DirectFundSafety.TwicePaidLoses | protocols/directfund/directfund.go:143-151 | The failing input: allocated 5, then 4 behind another participant's 3, the first participant deposits 9, which is no prefix sum; a transfer pays it 6 and the other one 3, who is due to deposit -1, and the channel does not count as funded |
| DirectFundRun.PostfundMeansFunded | protocols/directfund/directfund.go:269-330 | For any non-negative outcome of one asset and whoever else deposits: in every run, once any postfund signature is seen or anybody has completed, the chain holds the whole amount at least |
| DirectFundRun.BeliefsNeverGoDown | protocols/directfund/directfund.go:250-265 | For any non-negative outcome of one asset and whoever else deposits: in every run what a participant believes is held never goes down and never exceeds what is held, whatever order events arrive in |
| DirectFundRun.CrankIsIdempotentInRuns | protocols/directfund/directfund.go:269-330 | For any non-negative outcome of one asset and whoever else deposits: in every run cranks fail only for want of approval, and cranking twice does nothing more |
| DirectFundMoney.DepositIsShare | protocols/directfund/directfund.go:356-386 | If all are served in turn and nobody else deposits, a participant that finds it safe to deposit is looking at the present, and what it deposits is exactly its share |
| DirectFundMoney.ProcessMoney | client/engine/chainservice/mockchain.go:40-60 | Likewise, a processed deposit keeps the money invariant: no other deposit was waiting and nobody later in line had begun |
| DirectFundRun.EveryRunIsAccounted | protocols/directfund/directfund.go:250-330 | The invariant behind these, for every run of any outcome of one asset: beliefs, deposits on the way to their targets, who has seen whose signatures |
| DirectFundWorld.ConstructedOnTerms | protocols/directfund/directfund.go:143-151 | For any non-negative outcome of one asset an objective is made exactly when the id is not external and the state is not final; its thresholds are the amounts ahead of the participant's first allocation, those plus all it is allocated, and the total |
| DirectFundCrank.DirectCrankIsIdempotent | protocols/directfund/directfund.go:269-330 | Cranking the result of a crank sends nothing, submits nothing and waits for the same thing, or reports not-approved when completed |
| DirectFundCrank.CrankLeavesNothingUndone | protocols/directfund/directfund.go:269-330 | After a crank the participant has signed what it can, has submitted a deposit if it is its turn and something is due, is completed exactly when all is there, and waits for the first thing missing; a deposit is submitted exactly when it is marked, for what is missing to the target |
| DirectFundCrank.DirectCrankShape | protocols/directfund/directfund.go:269-330 | For an honest participant no panic is reachable and the crank depends on signatures only through who has signed |
| DirectFund.ConstructFromInitialState | protocols/directfund/directfund.go:97-154 | Thresholds and channel computed by the loops, or the first of four errors |
| DirectFundAnswers.ConstructedExactlyWhen | protocols/directfund/directfund.go:97-154 | An objective is made if and only if the state is a prefund state that is not final, the id is not external and the caller is a participant; what each error says is so |
| DirectFundAnswers.UpdatedExactlyWhen | protocols/directfund/directfund.go:236-246 | An event for another objective is refused; one for this objective touches the channel only |
| DirectFundAnswers.BelievesTheNewest | protocols/directfund/directfund.go:250-265 | Whatever chain events arrive, and in whatever order, the objective believes what the newest block reported first, if that is newer than what it knew |
| DirectFundAnswers.HandledExactlyWhen | protocols/directfund/directfund.go:250-265 | Deposit events are handled and no others, and one from a block that is not newer changes nothing |
| DirectFundAnswers.FailedCrankSendsNothing | protocols/directfund/directfund.go:269-330 | A crank that fails sends and submits nothing |

## Left out

- Hashing, ABI packing and ECDSA: abstracted as injective digests and unforgeable signatures.
- Bounds of uint64 turn and block numbers and of uint256 amounts: the model counts without wrapping round.
- Guarantee metadata that is not a whole number of 32-byte words.
- Outcomes of several assets in the objectives, and with them the choice of a first asset from a map.
- `ProposalsToProcess`: merging side effects drops them, so no objective's caller ever sees them.
- The engine, client, policy maker, message and chain services, stores and JSON encodings: plumbing around what is modelled.
- `protocols/directdefund`: the same pattern as direct funding, with easier properties.
- `CreateConsensusChannel` and the hand-over from a funded channel to a ledger channel.
- The check that no channel with the counterparty exists before direct funding: a lookup in the store.
- Withdrawals on the mock chain, and chains that reorganise.
- Liveness: runs may stop at any point; the members named CrankLeavesNothingUndone say that no objective stops early on its own account.
- Virtual fund and direct fund objectives as objects: their operations work on deep copies, so functions on values lose nothing but the copying.
- Aliasing of the signature map between a signed state and the channel that stores it under a new turn number.
