# A model of the 2-chain HotStuff replica and of its network

The repository is a replicated state machine: authorities that hold stake exchange blocks,
votes and timeouts, and every honest replica hands a chain of blocks to its application.
This project models one replica in detail, a network of honest replicas with an adversary
that speaks for all other authorities, and the self-contained components around the replica
core, and proves what they promise.

## How it is built

| file | what it holds |
|---|---|
| `Config.dfy` | stake, quorum threshold, sums of stake over sets of authorities |
| `Messages.dfy` | blocks, votes, timeouts, quorum and timeout certificates (QC, TC) and their checks |
| `Leader.dfy` | round-robin leader election |
| `Aggregation.dfy` | collecting ballots into certificates, as functions on values |
| `Handlers.dfy` | one replica as a value and its handlers as functions: the specification of `Core.dfy` |
| `Core.dfy` | the aggregator and the replica core as objects whose methods update fields |
| `Frames.dfy` | what each handler can send, and what it leaves alone |
| `ReplicaInvariant.dfy` | what every handler keeps |
| `Outcomes.dfy` | what every event does, said by what holds before it |
| `System.dfy` | the network as a transition system, its runs and their invariant |
| `Accounts.dfy` | messages against signatures, commits against the store, in every state of every run |
| `Locking.dfy` | certificates, one per round, and the lock |
| `Commits.dfy` | which blocks are delivered, how often, and in which order |
| `Agreement.dfy` | the safety theorems over all runs |
| `Proposing.dfy` | proposal requests: never two for a round, and which of them can win votes |
| `Validity.dfy` | whose blocks are voted for and delivered |
| `PastRounds.dfy` | which tallies of past rounds the aggregator can hold |
| `Nodes.dfy` | whole nodes: the core wired to its store, synchronizer and payload waiter |
| `Flows.dfy` | where a block can be in a node between being let go by the core and being processed |
| `Alone.dfy` | a replica that is a quorum by itself, step by step |
| `Witness.dfy`, `TwoAuthorities.dfy` | runs: one of any length that delivers blocks, and one for each thing the code does not do |
| `Synchronizer.dfy` | blocks suspended for a missing parent |
| `PayloadWaiter.dfy` | blocks suspended for a missing payload |
| `Store.dfy` | the store's command loop and its notify-read obligations |
| `ReliableSender.dfy` | the retransmission queue of one connection |
| `Timer.dfy` | the adaptive round timer |

The handlers appear twice. `Handlers.dfy` gives each as a function from the replica's state
to its next state, its status and what it sends; `Core.dfy` gives each in its original,
imperative form, and the methods' postconditions say that they compute exactly those
functions. All theorems are then proved about the functions. The calls on the replica's timer
are part of its state, as a log.

In the network, a run starts with every honest replica booted. In each step one honest
replica handles one event: a message, which may be anything whose signatures exist, a block
that comes back from its own proposer, synchronizer or payload waiter, an alarm, a turn of
its proposer, or the arrival of a batch. Messages may thus be lost, delayed, reordered,
repeated and invented; a signature of an honest replica exists only once that replica asked
for it. The faulty authorities hold at most f = (N - 1) / 3 of the total stake N.

`Outcomes.dfy` says what each event must do: which round is entered, whether a vote is signed,
where it goes, when a certificate is completed, what is sent. It asks of a replica only what
holds in every state of every run (`Accounts.OutcomesApply`).

In a network of nodes (`Nodes.dfy`) the core's channels are connected: what it sends to its
synchronizer and payload waiter is taken in there, in order, each notify-read is a command to
the node's store, a block is handed back only when the store has answered, and only blocks
handed back or proposed come back to the core. The cores of such a run make a run of replicas
(`Nodes.NetRunKeeps`), so that all theorems about those hold of it.

A digest is the term that was hashed. A block's digest covers its author, round, payload and
the parent's digest, and neither the round or votes of its QC nor its TC, so two blocks
of one digest may differ in these, and the theorems speak about digests.

## What the code does not do

- Order of delivery. `commit` pushes each ancestor to the front of its queue, then the head,
  and pops from the back, so with two or more ancestors they leave newest first.
  `Commits.OrderOfDelivery` says exactly when one call delivers oldest first, and
  `Witness.NewestAncestorFirst` is a run that delivers the blocks of rounds 3, 1 and 5 in
  this order.
- Repeated delivery. After a gap in the rounds the block committed last is delivered once
  more. `Commits.GapResends` says exactly when for one commit, `Agreement.DeliveredExactly`
  says how often each block is delivered over a whole run, and `TwoAuthorities.DeliveredTwice`
  is a run that delivers one block twice. Genesis is never delivered twice; what looks like
  its repetition is its first delivery.
- Proposals on a received TC. `handle_tc` proposes on the local high QC, which may be older
  than the rounds reported inside the TC; nobody will vote for that block.
  `Proposing.HandleTcVotableExactly` says exactly when it can be voted for, and
  `TwoAuthorities.StaleRequest` is a run of honest replicas that ends in such a request.
- Cleanup. `handle_timeout` can put a timeout into a round that was already cleaned up, since
  the QC inside the timeout is processed between the round check and the count.
  `PastRounds.PastTimeoutsExactly` says exactly when, `PastRounds.OvertakenIsFaulty` that only
  a faulty authority can bring it about, and `TwoAuthorities.PastTimeoutCounted` is a run in
  which one does.

## Model

| member | source | states |
|---|---|---|
| Config.WeightRemove | consensus/src/config.rs:63-65 | a sum of stake over a set of names does not depend on the order in which it is taken |
| Config.InclusionExclusion | consensus/src/config.rs:63-71 | the stakes of two sets add up to those of their union and their intersection |
| Config.WeightAtMostTotal | consensus/src/config.rs:63-71 | no set of names, strangers included, outweighs the committee |
| Config.QuorumIsTotalLessFaults | consensus/src/config.rs:67-72 | the threshold is N - f, for every positive total stake N |
| Config.QuorumsIntersect | consensus/src/config.rs:67-72 | any two sets that reach the threshold share stake greater than f |
| Config.QuorumsShareHonest | consensus/src/config.rs:67-72 | any two quorums share an honest authority |
| Messages.QC.Verify | consensus/src/messages.rs:180-198 | the loop returns the first error in order: reuse, unknown authority, too little stake, bad signature |
| Messages.TallyExact | consensus/src/messages.rs:182-190 | the tally succeeds iff the voters are distinct and have stake, and then is their joint stake |
| Messages.QCCheckExact | consensus/src/messages.rs:180-198 | a QC passes iff distinct authorities that together reach the threshold all signed it |
| Messages.QCCheckErrors | consensus/src/messages.rs:180-198 | which error a failing QC brings: the first repeated or unknown name, too little stake, or a bad signature, each iff |
| Messages.TC.Verify | consensus/src/messages.rs:290-315 | the loops return the first error in order, each ballot being checked over its own reported round |
| Messages.TCCheckExact | consensus/src/messages.rs:290-315 | a TC passes iff distinct authorities that reach the threshold all signed the round and their report |
| Messages.TCCheckErrors | consensus/src/messages.rs:290-315 | the same for a failing TC |
| Messages.DigestsBind | consensus/src/messages.rs:79-90 | two blocks have one digest iff author, round, payload and parent agree; likewise votes and timeouts |
| ReplicaInvariant.BlockCheckExact | consensus/src/messages.rs:55-76 | a block passes iff its author has stake and signed it, its QC is genesis or valid, and its TC, if any, is valid |
| Leader.Sort | consensus/src/leader.rs:18-18 | sorting in place leaves a sorted permutation |
| Leader.SortedIsUnique | consensus/src/leader.rs:17-18 | there is only one sorted list of given distinct keys |
| Leader.GetLeader | consensus/src/leader.rs:16-20 | the leader has as many smaller keys beside it as the round modulo n, whatever the iteration order of the authority map |
| Leader.LeaderRank | consensus/src/leader.rs:19-19 | the leader of a round is the authority with exactly round modulo n smaller keys |
| Leader.EachLeadsOnce | consensus/src/leader.rs:16-20 | among any n consecutive rounds of a committee of size n each authority leads exactly one |
| Core.Maker.Append | consensus/src/aggregator.rs:74-94 | a maker refuses a second ballot of an author, and returns all ballots and restarts its weight at the threshold |
| Core.Aggregator.AddVote | consensus/src/aggregator.rs:28-39 | the maker of the vote's round and digest decides the result; every other vote tally and all timeouts stay as they were |
| Core.Aggregator.AddTimeout | consensus/src/aggregator.rs:41-50 | the maker of the timeout's round decides the result; every other timeout tally and all votes stay as they were |
| Core.Aggregator.Cleanup | consensus/src/aggregator.rs:52-55 | the tallies of the given round and later are kept, all others are gone |
| Aggregation.OthersUntouched | consensus/src/aggregator.rs:28-50 | a vote leaves every tally but its own alone, and so does a timeout |
| Aggregation.CleanupExact | consensus/src/aggregator.rs:52-55 | a cleanup keeps the tallies of the given round and later and empties the others |
| Aggregation.AppendKeepsInv | consensus/src/aggregator.rs:74-94 | voters stay distinct, the weight is their joint stake or a quorum less, and a returned certificate is quorate |
| Aggregation.AtMostOneCertificate | consensus/src/aggregator.rs:83-93 | a maker fed any ballots returns one certificate iff the voters reach the threshold, and never two, although its weight restarts |
| Aggregation.FedLikeOneQCMaker | consensus/src/aggregator.rs:28-39 | the aggregator's tally and QCs for one block and round are those of one maker fed just the votes for them, whatever came in between |
| Aggregation.FedLikeOneTCMaker | consensus/src/aggregator.rs:41-50 | the same for the timeouts of one round |
| Aggregation.RefusedIffRepeated | consensus/src/aggregator.rs:75-81 | a vote or timeout is refused iff its author had already one for that block and round, whatever came in between |
| Aggregation.VotesMakeOneValidQC | consensus/src/aggregator.rs:28-95 | an aggregator fed votes, timeouts and earlier cleanups in any order returns a QC for a block and round iff the voters form a quorum, one only, and it passes `QC::verify` |
| Aggregation.TimeoutsMakeOneValidTC | consensus/src/aggregator.rs:41-139 | the same for the timeouts of one round and `TC::verify` |
| Core.Core.HighestReport | consensus/src/core.rs:105-105 | the maximum of the reported high-QC rounds |
| Core.Core.MakeVote | consensus/src/core.rs:99-116 | a vote is made iff both safety rules hold, and then the last voted round is the block's |
| Core.Core.GetParentBlock | consensus/src/synchronizer.rs:120-134 | genesis under the genesis QC, else the stored parent, else a request to the synchronizer |
| Core.Core.WalkUp | consensus/src/core.rs:124-134 | the queue is the walk from the block to the last committed round, last found first, or a parent is missing |
| Core.Core.SendCommitted | consensus/src/core.rs:140-155 | the queue is delivered from its back |
| Core.Core.Commit | consensus/src/core.rs:118-157 | the whole new state of a commit, with the delivered blocks in the order they leave |
| Core.Core.UpdateHighQc | consensus/src/core.rs:159-163 | the high QC is replaced only by one of a higher round |
| Core.Core.LocalTimeoutRound | consensus/src/core.rs:165-201 | the round is given up for voting, the timeout signed, the timer started anew, the timeout broadcast and handled |
| Core.Core.HandleVote | consensus/src/core.rs:203-226 | state, messages and error of handling a vote, in every branch |
| Core.Core.HandleTimeout | consensus/src/core.rs:228-267 | state, messages and error of handling a timeout, in every branch |
| Core.Core.AdvanceRound | consensus/src/core.rs:269-282 | a round not in the past is left behind, the timer started anew, and earlier tallies are forgotten |
| Core.Core.ProcessQc | consensus/src/core.rs:306-310 | the timer takes a sample whatever the QC, then the round advances and the high QC is updated |
| Core.Core.ProcessBlock | consensus/src/core.rs:312-366 | store, cleanups, commit and vote in order, or suspension, or an error |
| Core.Core.MissingPayload | consensus/src/mempool.rs:40-46 | the payload digests that are not in the store, in order |
| Core.Core.HandleProposal | consensus/src/core.rs:368-401 | leader check, block check, certificates, payload check, processing, in every branch |
| Core.Core.HandleTc | consensus/src/core.rs:403-413 | state, messages and error of handling a TC, in every branch |
| Core.Core.Handle | consensus/src/core.rs:424-438 | each kind of event goes to its handler, and a message the core does not expect is a panic |
| Core.Core.Boot | consensus/src/core.rs:415-422 | the timer is started, and the leader of round 1 asks for the first block |
| Frames.ReactFrame | consensus/src/core.rs:89-437 | everything a step can send, for each kind of event; the store only grows, and only handling a block commits |
| Outcomes.BootOutcome | consensus/src/core.rs:415-422 | a replica starts in round 1 with its timer running, nothing voted for or committed, and the leader's request for the first block |
| Outcomes.VoteOutcome | consensus/src/core.rs:203-226 | a vote is counted iff it is current, well signed and its author's first; iff it completes a quorum the next round is entered with the new QC, and the leader asks for a block |
| Outcomes.TimeoutOutcome | consensus/src/core.rs:228-267 | the QC in an acceptable timeout is used in any case; iff the timeout completes a quorum the TC is broadcast and the round after it entered |
| Outcomes.TcOutcome | consensus/src/core.rs:403-413 | a valid TC of no past round, and no other, moves the replica on, and the leader asks for a block on its own high QC |
| Outcomes.AlarmOutcome | consensus/src/core.rs:165-201 | an alarm signs and broadcasts a timeout with the replica's round and high QC that passes the checks, and counts it unless an alarm of that round came before |
| Outcomes.CommitOutcome | consensus/src/core.rs:328-339 | a head is committed iff its child is of the next round and its own round was not reached before; what proposer and mempool are told |
| Outcomes.ProposalRound | consensus/src/core.rs:368-401 | a well-formed proposal takes the replica to the highest round its QC and TC allow, even if it is suspended |
| Outcomes.RejectedFor | consensus/src/core.rs:371-382 | a proposal that is not well formed changes nothing, and the error names the first condition that fails |
| Outcomes.VoteForOutcome | consensus/src/core.rs:342-363 | a vote is made iff round and both rules allow, and goes to the leader of the next round or into the replica's own count |
| Outcomes.VoteCastExactly | consensus/src/core.rs:312-401 | for every event: a vote for a block is signed iff the event brings the block with its payload and both ancestors stored, it is of the round its certificates lead to, and both rules hold |
| ReplicaInvariant.HandleVoteKeeps | consensus/src/core.rs:203-226 | the replica invariant is kept, and with it the validity of every certificate the replica holds |
| ReplicaInvariant.HandleTimeoutKeeps | consensus/src/core.rs:228-267 | the replica invariant is kept; the reports held never exceed the replica's own high QC |
| ReplicaInvariant.LocalTimeoutKeeps | consensus/src/core.rs:165-201 | the replica invariant is kept, so a signed timeout reports a high QC at least that of every block voted for until then |
| ReplicaInvariant.SignVoteKeeps | consensus/src/core.rs:99-116 | the replica invariant is kept by a vote under the two rules: one vote per round, and no signed timeout of that round or later below its QC |
| ReplicaInvariant.WalkFindsAll | consensus/src/core.rs:126-131 | in a parent-closed store the commit walk never misses a parent |
| ReplicaInvariant.ProcessBlockKeeps | consensus/src/core.rs:312-366 | the replica invariant is kept, the store stays parent-closed, and neither `expect` fires |
| ReplicaInvariant.HandleProposalKeeps | consensus/src/core.rs:368-401 | the replica invariant is kept for any proposal whatever |
| ReplicaInvariant.LoopbackKeeps | consensus/src/core.rs:435-435 | it is kept for blocks that bypass `handle_proposal`, from proposer, synchronizer or payload waiter |
| ReplicaInvariant.ReactKeeps | consensus/src/core.rs:424-437 | every event keeps the invariant and makes no handler panic |
| System.RunKeeps | consensus/src/core.rs:415-445 | the invariant holds of every honest replica in every state of every run |
| System.NoPanic | consensus/src/synchronizer.rs:136-149 | in every reachable state no event makes an `expect` of `get_ancestors`, `commit` or `make_vote` fail |
| System.RunStore | consensus/src/core.rs:321-330 | the stored blocks are closed under parents in every reachable state |
| Accounts.VotesExactlyWhenDue | consensus/src/core.rs:312-401 | the same in every state of every run, without any assumption on the replica |
| Accounts.ProposalsAdvance | consensus/src/core.rs:384-387 | in every state of every run a well-formed proposal takes the replica past the rounds of its QC and its TC |
| Accounts.SignedVotesAreSent | consensus/src/core.rs:347-363 | every vote an honest replica signs is sent to the leader of the next round, or counted by itself |
| Accounts.SentVotesWereSigned | consensus/src/core.rs:347-363 | every vote sent was signed, passes the checks, and goes to the leader of the next round |
| Accounts.TimeoutsAreBroadcast | consensus/src/core.rs:165-201 | an honest replica broadcasts exactly the timeouts it signs, and each passes the checks |
| Accounts.BroadcastTCsAreValid | consensus/src/core.rs:242-258 | every TC broadcast is valid and of a round left behind |
| Accounts.LastCommittedExactly | consensus/src/core.rs:334-339 | the last committed round is the highest round of the grandparents of stored blocks whose parent is of the next round: the commit rule misses nothing and adds nothing |
| Accounts.MempoolFollowsCommits | consensus/src/core.rs:334-338 | the mempool is told to clean up to the round committed last, and never beyond |
| Accounts.ProposerDropsStored | consensus/src/core.rs:292-304 | the proposer is told to drop a digest iff it is in the payload of a stored block |
| Accounts.SamplesFollowStarts | consensus/src/core.rs:269-310 | every sample of the timer comes after a start |
| Locking.HonestVoter | consensus/src/messages.rs:180-198 | behind every certificate stands an honest voter, and its round is the one in the block's digest |
| Locking.OneCertifiedPerRound | consensus/src/core.rs:95-113 | two certified blocks of one round are the same block |
| Locking.ParentOfCertified | consensus/src/core.rs:99-116 | the parent of a certified block is genesis or certified, and of a lower round, though `make_vote` does not compare them |
| Locking.TimeoutQuorumKnowsLock | consensus/src/core.rs:103-107 | a TC of the lock's round or later reports a high QC at least as high as the lock |
| Locking.Lock | consensus/src/core.rs:99-110 | once a block has a certified child of the next round, every certified block of its round or later descends from it |
| Locking.HeadsComparable | consensus/src/core.rs:334-339 | two blocks that satisfy the commit rule lie on one chain |
| Locking.ReachesGenesis | consensus/src/messages.rs:79-90 | every certified block descends from genesis |
| Commits.WalkExact | consensus/src/core.rs:124-134 | each block of the walk is the parent of the one before, and the walk stops exactly at the last committed round |
| Commits.WalkCovers | consensus/src/core.rs:123-134 | walk, head and what was committed before make up the whole chain: the round test skips no ancestor |
| Commits.GapResends | consensus/src/core.rs:126-134 | the block committed last is collected again iff no block of the very next round follows it on the chain |
| Commits.SegmentCounts | consensus/src/core.rs:124-141 | one commit delivers each block above the last head once, that head iff a gap follows it, and nothing older |
| Commits.ScriptCounts | consensus/src/core.rs:118-157 | over all commits each block of the chain is delivered once, and a second time iff it was a head followed by a gap; genesis at most once |
| Commits.NothingOlderAgain | consensus/src/core.rs:126-134 | no commit delivers anything below the head committed before it |
| Commits.OrderOfDelivery | consensus/src/core.rs:124-141 | one call delivers oldest first iff the walk found at most one ancestor; the head always leaves last |
| Commits.CommitBlockDelivers | consensus/src/core.rs:118-157 | a commit adds one head above the last, and its deliveries are exactly those of that head, in order |
| Commits.CommitRuleKeeps | consensus/src/core.rs:334-339 | the commit rule delivers only heads of 2-chains and never lowers the last committed round |
| Agreement.Agreement | consensus/src/core.rs:99-157 | in every run any two blocks delivered by honest replicas lie on one chain |
| Agreement.DeliveredIsOneChain | consensus/src/core.rs:118-157 | what a replica delivered is, genesis aside, exactly the ancestors of its highest block, all certified |
| Agreement.LaggingIsContained | consensus/src/core.rs:118-157 | of two honest replicas the one that committed less has delivered nothing the other has not, genesis aside |
| Agreement.DeliveredExactly | consensus/src/core.rs:118-157 | in every run the deliveries of a replica are, one by one and in order, those of its heads, and how often each block occurs |
| Agreement.LastCommittedNeverDecreases | consensus/src/core.rs:118-138 | over any stretch of a run the last committed round does not decrease |
| Agreement.OneBlockPerRound | consensus/src/core.rs:95-113 | any two certificates of one round that can be made in a reachable state are for one block |
| Agreement.HighQcLock | consensus/src/core.rs:165-178 | after a vote the high QC and all timeouts of that round or later are at least the voted block's QC; one vote per round |
| Proposing.HandleVoteMakes | consensus/src/core.rs:214-223 | a request on a local QC is for the round just entered and satisfies rule 2 of `make_vote` |
| Proposing.HandleTimeoutMakes | consensus/src/core.rs:237-264 | a request on a local TC is for the round just entered, even if the timeout's QC moved the replica past it |
| Proposing.HandleTimeoutMakesVotable | consensus/src/core.rs:237-264 | the reports of a local TC do not exceed the replica's high QC, so the request satisfies rule 2 |
| Proposing.HandleTcVotableExactly | consensus/src/core.rs:403-413 | a request on a received TC satisfies rule 2 iff the TC's reports do not exceed the local high QC |
| Proposing.LocalMakesVotable | consensus/src/core.rs:415-437 | in every reachable state every request but those on a received TC satisfies rule 2 |
| Proposing.MakeRoundsIncrease | consensus/src/core.rs:284-290 | the rounds of a replica's requests strictly increase over every run, for any distribution of stake |
| Proposing.NoEquivocation | consensus/src/proposer.rs:61-71 | an honest replica signs at most one block per round, and only for rounds it leads |
| Proposing.HonestProposalPasses | consensus/src/core.rs:371-382 | every proposal of an honest authority passes the leader and block checks everywhere |
| Validity.VotesAreForTheLeader | consensus/src/core.rs:371-382 | honest votes go to blocks of the round's leader, and to a block of an honest leader only if it proposed it |
| Validity.DeliveredWereProposed | consensus/src/core.rs:140-155 | every delivered block is by its round's leader, and was proposed by that leader if it is honest |
| PastRounds.VotesAreCurrent | consensus/src/core.rs:280-281 | in every reachable state no votes of a past round are held |
| PastRounds.PastTimeoutsExactly | consensus/src/core.rs:228-241 | timeouts of a past round come to be held iff a valid timeout carries a QC not older than itself |
| PastRounds.OvertakenIsFaulty | consensus/src/core.rs:165-178 | no honest authority signs such a timeout |
| Witness.SoloRun | consensus/src/core.rs:415-445 | for every n there is a run of n rounds that delivers the blocks of the first n - 2, once each and in order |
| Witness.NewestAncestorFirst | consensus/src/core.rs:124-141 | a run that delivers the blocks of rounds 3, 1 and 5 of one chain in this order |
| TwoAuthorities.DeliveredTwice | consensus/src/core.rs:126-134 | a run that delivers the block of round 1, and once more before that of round 4 |
| TwoAuthorities.PastTimeoutCounted | consensus/src/core.rs:228-241 | a run after which a replica counts a faulty authority's timeout in a round it has left |
| TwoAuthorities.StaleRequest | consensus/src/core.rs:403-413 | a run of honest replicas after which a TC makes one of them ask for a block that breaks rule 2 |
| Nodes.NetRunKeeps | consensus/src/consensus.rs:78-124 | the cores of a run of nodes make a run of replicas, and store, synchronizer and payload waiter stay in step with them |
| Nodes.StoreIsTheReplicas | store/src/lib.rs:32-59 | the node's store holds exactly the blocks and batches the core's handlers go by, each under its digest |
| Nodes.SuspendedIsNotLost | consensus/src/synchronizer.rs:49-83 | a block suspended for its parent is in the channel, pending, or handed back, once per intake; a missing parent stays requested |
| Nodes.ReadyIffParentStored | consensus/src/synchronizer.rs:115-118 | a waiting block can be handed back iff its parent is in the node's store: the store's obligations decide |
| Nodes.HandedBackIsProcessed | consensus/src/synchronizer.rs:115-149 | every block handed back finds both ancestors, and is in the channel to the core or stored |
| Nodes.VotedPayloadIsStored | consensus/src/core.rs:392-400 | a block an honest replica voted for has its payload in that replica's store, or is its own |
| Flows.PayloadSuspendedIsNotLost | consensus/src/mempool.rs:127-169 | a block suspended for its payload is on its way to the payload waiter, pending there, or back; or its round is committed |
| Flows.PayloadReadyIffStored | consensus/src/mempool.rs:110-125 | a waiting block can be handed back iff all the batches that were missing are in the node's store |
| Flows.ReturnedIsProcessed | consensus/src/core.rs:435-435 | every block proposed or handed back with its payload is in the channel to the core, stored, or suspended for its parent |
| Synchronizer.Synchronizer.OnBlock | consensus/src/synchronizer.rs:50-73 | a block that is not pending is suspended, and its parent requested unless that was done |
| Synchronizer.Synchronizer.OnReady | consensus/src/synchronizer.rs:74-83 | a block whose parent arrived is no longer pending or requested, and is handed back |
| Synchronizer.Synchronizer.OnTimer | consensus/src/synchronizer.rs:84-104 | the overdue requests are repeated, once each, in the map's order |
| Synchronizer.RetriesExact | consensus/src/synchronizer.rs:86-91 | whatever that order, a request is repeated exactly once if it is overdue and otherwise not |
| Synchronizer.RequestsExact | consensus/src/synchronizer.rs:58-80 | a parent is on record exactly while a request for it is open; each request went to the author of a waiting block, and none while another was open |
| Synchronizer.RequestTimes | consensus/src/synchronizer.rs:58-64 | a request's delay counts from when it was first sent |
| Synchronizer.PendingUntilResumed | consensus/src/synchronizer.rs:74-83 | a block stops being pending only by being handed back |
| Handlers.MissingExact | consensus/src/mempool.rs:40-50 | the missing digests are exactly those of the payload not in the store; none are missing iff all are stored |
| PayloadWaiter.VerifyExact | consensus/src/mempool.rs:40-63 | mempool and payload waiter are asked for just the missing part of a payload, and iff there is one |
| PayloadWaiter.PayloadWaiter.OnWait | consensus/src/mempool.rs:135-147 | a block that is not pending is registered with a new cancel channel |
| PayloadWaiter.PayloadWaiter.OnCleanup | consensus/src/mempool.rs:148-155 | exactly the waiters of the given round or before are told to stop and forgotten |
| PayloadWaiter.PayloadWaiter.OnReady | consensus/src/mempool.rs:157-162 | the block is handed back, and the entry of its digest removed, whichever waiter it belongs to |
| PayloadWaiter.PayloadWaiter.OnCancelled | consensus/src/mempool.rs:163-163 | a cancelled waiter ends, its block is not handed back, and the pending entries stay |
| PayloadWaiter.ResumedWithPayload | consensus/src/mempool.rs:110-125 | a block comes back only with its whole payload stored |
| PayloadWaiter.NoneLost | consensus/src/mempool.rs:127-169 | each block taken in is handed back, waiting or dropped, and dropped only if its round or a later one was cleaned up |
| PayloadWaiter.WaitingIsPending | consensus/src/mempool.rs:127-169 | a waiting block of a round never cleaned up is pending and cannot be dropped |
| PayloadWaiter.CleanupReaches | consensus/src/mempool.rs:148-155 | a cleanup forgets exactly the entries of its round and before, and every such waiter may then be dropped |
| PayloadWaiter.MempoolIsAsked | consensus/src/mempool.rs:52-78 | for all that is waited for the mempool was asked, by the author's name, and it was told of every cleanup |
| Store.Store.Handle | store/src/lib.rs:32-59 | the new database, obligations and replies of each command |
| Store.Store.AnswerAll | store/src/lib.rs:36-40 | all waiting senders are answered with the written value, in order |
| Store.Database | store/src/lib.rs:34-35 | after any commands each key holds the value written last |
| Store.Obligations | store/src/lib.rs:46-56 | obligations are kept for exactly the absent keys somebody waits for, so never for a key in the database |
| Store.RepliesAreOwed | store/src/lib.rs:42-56 | a reply is sent iff it is owed: the current value, or for an absent key the value of the first later write |
| Store.RepliesInOrder | store/src/lib.rs:36-40 | no sender is answered twice, and those waiting for one key are answered in order of arrival |
| Store.NotifiedIffPresent | store/src/lib.rs:46-56 | a notify-read was answered iff its key is in the store |
| ReliableSender.Connection.AcceptWaiting | network/src/reliable_sender.rs:173-176 | without a connection messages are buffered and cancelled ones purged |
| ReliableSender.Connection.SendBuffer | network/src/reliable_sender.rs:193-212 | the buffer is sent in order, cancelled messages are skipped, and a failed write breaks the connection |
| ReliableSender.Connection.AcceptConnected | network/src/reliable_sender.rs:215-219 | with a connection a message is buffered last, and nothing is purged |
| ReliableSender.Connection.HandleReply | network/src/reliable_sender.rs:220-237 | a reply settles the oldest unacknowledged message, anything else breaks the connection |
| ReliableSender.Connection.PutBack | network/src/reliable_sender.rs:241-246 | what was not acknowledged returns to the front of the buffer in its order |
| ReliableSender.NothingLost | network/src/reliable_sender.rs:162-247 | pending then buffered messages are, up to cancelled ones, exactly those accepted and not acknowledged, in order of acceptance |
| ReliableSender.AllIsSent | network/src/reliable_sender.rs:193-212 | while no write fails the buffer goes out in order, but for cancelled messages |
| ReliableSender.NothingIsSkipped | network/src/reliable_sender.rs:193-246 | whichever writes fail, nothing but cancelled messages leaves the queue, and the order stays |
| ReliableSender.ReplyOutcome | network/src/reliable_sender.rs:220-237 | an answer resolves the oldest queued message with its own bytes; no answer, or one nobody waits for, breaks the connection and nothing is resolved |
| ReliableSender.PurgedWhileWaiting | network/src/reliable_sender.rs:173-176 | without a connection no cancelled message stays in the buffer |
| ReliableSender.ResolvedOnce | network/src/reliable_sender.rs:220-229 | handlers are resolved at most once, in order of acceptance, and never while their message is queued |
| Timer.Timer.OnRoundComplete | consensus/src/timer.rs:45-63 | a started round updates deviation, estimate and timeout; otherwise nothing changes |
| Timer.Timer.Reset | consensus/src/timer.rs:69-74 | a round starts now and the alarm is due after the current timeout |
| Timer.TimeoutCoversSample | consensus/src/timer.rs:47-56 | after any samples the timeout is at least min(last sample, 30000) and within [1500, 30000] |
| Timer.EstimateInHull | consensus/src/timer.rs:49-51 | the estimate never leaves the interval of its start and the samples |
| Timer.EstimateExact | consensus/src/timer.rs:49-51 | estimate and deviation after any samples, in closed form: each sample, or its distance from the estimate before it, with weights falling by 7/8 and 3/4 |
| Timer.TimeoutExact | consensus/src/timer.rs:53-56 | the timeout after any samples: that estimate and four such deviations, within [1500, 30000], cut to whole milliseconds |
| Timer.ErrorDecays | consensus/src/timer.rs:49-51 | under a constant sample the error of the estimate shrinks by exactly 7/8 per sample |
| Timer.DeviationExact | consensus/src/timer.rs:49-51 | under a constant sample the deviation is exactly (3/4)^n of its start and 2 ((7/8)^n - (3/4)^n) of the first error |
| Timer.DeviationVanishes | consensus/src/timer.rs:49-51 | under a constant sample the deviation tends to 0 |
| Timer.TimeoutSettles | consensus/src/timer.rs:53-56 | under a constant sample the timeout is, from some point on, that sample within the bounds |

## Left out

- Cryptography: signatures and digests are terms, so digests do not collide and signatures are not forged.
- Restarts: `last_voted_round` is not persisted (consensus/src/core.rs:114), so the theorems are about replicas that are not restarted.
- Storage and serialization errors: writes succeed and what is read back is what was written; blocks and batches are kept in two maps, so a batch under a block's key is not modelled.
- Liveness: real time is not part of the replica's state, and a request on a received TC may be one that wins no votes.
- Widths of integers: rounds and stakes are unbounded, where the program uses 64 and 32 bits.
- Rounding in the timer: `Timer.dfy` is in exact arithmetic, and the samples are whole milliseconds.
- When the alarm fires: it may in any state. The core's calls on its timer are logged in order; the timer is a component of its own that takes arbitrary samples.
- The helper that answers requests for blocks (consensus/src/helper.rs): its answer is a proposal like any other.
- Sharing of makers: the aggregator owns the makers in its maps, so they are values there that `Core.Maker` updates; the QC and TC makers are one generic class, since they differ only in their ballots.
- The proposer's buffer and its wait for acknowledgements (consensus/src/proposer.rs:105-121): each request is served once, in order, with an arbitrary payload, which covers any buffer and any wait. That a replica has the payload of its own block is up to its mempool.
- Channels: they are queues without bound, so capacity and back-pressure are not modelled; `select!` is a free choice of the next event.
- Connecting: the delay between attempts and the retry counter of `ReliableSender` only matter for time.
- The synchronizer's store errors, and the addresses it sends to, other than the name they belong to.
- The mempool crate, `SimpleSender`, the receivers, the fixed and exponential timers, which are not compiled in, and the benchmark scripts.
- A corrected commit loop: only the loop as written is modelled.
