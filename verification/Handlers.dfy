/** One replica as a value, and its handlers as functions on that value
    (consensus/src/core.rs, consensus/src/synchronizer.rs, consensus/src/proposer.rs).
    `Core.dfy` holds the handlers in their original, state-updating form. */
module Handlers {
  import opened Config
  import opened Messages
  import opened Aggregation
  import opened Leader

  /** What a replica sends on its channels, in the order in which it does. */
  datatype Effect =
    | SignVote(block: Block)                       // to the signature service
    | SignTimeout(timeout: Timeout)                // to the signature service
    | SendVote(to: Key, vote: Vote)
    | BroadcastTimeout(timeout: Timeout)
    | BroadcastTC(tc: TC)
    | Make(round: Round, qc: QC, proposalTc: Option<TC>)   // to the proposer
    | CleanupProposer(digests: seq<Digest>)
    | CleanupMempool(upTo: Round)
    | Commit(block: Block)                         // to the application
    | AwaitParent(block: Block)                    // to the synchronizer
    | AwaitPayload(missing: seq<Digest>, block: Block)     // to the payload waiter
    | Propose(block: Block)                        // signed, broadcast and looped back

  /** The digest the replica asked its signature service to sign, if any. */
  function SignedDigest(e: Effect): Option<Digest> {
    match e
    case SignVote(block) => Some(OfVote(block.BlockDigest(), block.round))
    case SignTimeout(timeout) => Some(timeout.TimeoutDigest())
    case Propose(block) => Some(block.BlockDigest())
    case _ => None
  }

  /** Blocks by digest; batches are kept apart since their digests differ from any block's. */
  type BlockStore = m: map<Digest, Block> | forall d | d in m :: m[d].BlockDigest() == d

  datatype Env = Env(name: Key, committee: Committee)

  /** The calls on the replica's timer, in order. */
  datatype TimerCall = OnRoundComplete | Reset | StartRound

  datatype Replica = Replica(
    round: Round,
    lastVotedRound: Round,
    lastCommittedRound: Round,
    highQc: QC,
    tallies: Tallies,
    blocks: BlockStore,
    batches: set<Digest>,
    timer: seq<TimerCall>,
    out: seq<Effect>)
  {
    /** The keys in the store. */
    function Stored(): set<Digest> {
      blocks.Keys + batches
    }

    function Send(e: Effect): Replica {
      this.(out := out + [e])
    }

    /** Starts the round's timer anew. */
    function Rewind(): Replica {
      this.(timer := timer + [Reset, StartRound])
    }

    function Sample(): Replica {
      this.(timer := timer + [OnRoundComplete])
    }
  }

  datatype Step = Step(replica: Replica, status: Outcome)

  // ---------- rounds and certificates ----------

  function AdvanceRound(r: Replica, round: Round): Replica {
    if round < r.round then r
    else r.Rewind().(round := round + 1, tallies := Cleanup(r.tallies, round + 1))
  }

  function UpdateHighQc(r: Replica, qc: QC): Replica {
    if qc.round > r.highQc.round then r.(highQc := qc) else r
  }

  function ProcessQc(r: Replica, qc: QC): Replica {
    UpdateHighQc(AdvanceRound(r.Sample(), qc.round), qc)
  }

  function GenerateProposal(r: Replica, tc: Option<TC>): Replica {
    r.Send(Make(r.round, r.highQc, tc))
  }

  function ProposeIfLeader(env: Env, r: Replica, tc: Option<TC>): Replica
    requires env.committee.authorities != map[]
  {
    if env.name == LeaderOf(env.committee, r.round) then GenerateProposal(r, tc) else r
  }

  function HandleVote(env: Env, r: Replica, vote: Vote): Step
    requires env.committee.authorities != map[]
  {
    if vote.round < r.round then Step(r, Pass)
    else
      var check := vote.Check(env.committee);
      if check.Fail? then Step(r, check)
      else
        var (tallies, made) := AddVote(env.committee, r.tallies, vote);
        var r1 := r.(tallies := tallies);
        match made
        case Failure(e) => Step(r1, Fail(e))
        case Success(None) => Step(r1, Pass)
        case Success(Some(qc)) => Step(ProposeIfLeader(env, ProcessQc(r1, qc), None), Pass)
  }

  /** Enters the round after a locally assembled TC and tells everybody. */
  function AdvanceOnTc(env: Env, r: Replica, tc: TC): Replica
    requires env.committee.authorities != map[]
  {
    ProposeIfLeader(env, AdvanceRound(r, tc.round).Send(BroadcastTC(tc)), Some(tc))
  }

  function HandleTimeout(env: Env, r: Replica, timeout: Timeout): Step
    requires env.committee.authorities != map[]
  {
    if timeout.round < r.round then Step(r, Pass)
    else
      var check := timeout.Check(env.committee);
      if check.Fail? then Step(r, check)
      else
        var r1 := ProcessQc(r, timeout.highQc);
        var (tallies, made) := AddTimeout(env.committee, r1.tallies, timeout);
        var r2 := r1.(tallies := tallies);
        match made
        case Failure(e) => Step(r2, Fail(e))
        case Success(None) => Step(r2, Pass)
        case Success(Some(tc)) => Step(AdvanceOnTc(env, r2, tc), Pass)
  }

  function HandleTc(env: Env, r: Replica, tc: TC): Step
    requires env.committee.authorities != map[]
  {
    var check := tc.Check(env.committee);
    if check.Fail? then Step(r, check)
    else if tc.round < r.round then Step(r, Pass)
    else Step(ProposeIfLeader(env, AdvanceRound(r, tc.round), Some(tc)), Pass)
  }

  function OwnTimeout(env: Env, r: Replica): Timeout {
    NewTimeout(r.highQc, r.round, env.name)
  }

  /** Gives up voting in the round, then signs and broadcasts the timeout. */
  function GiveUpRound(env: Env, r: Replica): Replica {
    var timeout := OwnTimeout(env, r);
    var r1 := r.(lastVotedRound := if r.round > r.lastVotedRound then r.round else r.lastVotedRound);
    r1.Send(SignTimeout(timeout)).Rewind().Send(BroadcastTimeout(timeout))
  }

  function LocalTimeout(env: Env, r: Replica): Step
    requires env.committee.authorities != map[]
  {
    HandleTimeout(env, GiveUpRound(env, r), OwnTimeout(env, r))
  }

  // ---------- blocks ----------

  /** The parent of a block: genesis under the genesis QC, otherwise the stored block. */
  function ParentOf(blocks: BlockStore, block: Block): Option<Block> {
    if block.qc.IsGenesis() then Some(GENESIS)
    else if block.qc.hash in blocks then Some(blocks[block.qc.hash])
    else None
  }

  /** The two conditions under which a replica votes for a block. */
  predicate RuleOne(block: Block, lastVotedRound: Round) {
    block.round > lastVotedRound
  }

  predicate RuleTwo(qc: QC, tc: Option<TC>, round: Round) {
    || qc.round + 1 == round
    || (tc.Some? && tc.value.round + 1 == round && tc.value.AtMost(qc.round))
  }

  /** Votes for the block if both rules allow it. A TC without ballots has no maximum. */
  function MakeVote(env: Env, r: Replica, block: Block): (Replica, Result<Option<Vote>>) {
    if block.tc.Some? && block.tc.value.votes == [] then (r, Failure(Panicked))
    else if !(RuleOne(block, r.lastVotedRound) && RuleTwo(block.qc, block.tc, block.round)) then
      (r, Success(None))
    else
      (r.(lastVotedRound := block.round).Send(SignVote(block)), Success(Some(NewVote(block, env.name))))
  }

  /** The ancestors collected by the commit walk, nearest first, or none of them if a
      parent is missing: then the block whose parent is missing is reported. */
  function Walk(blocks: BlockStore, last: Round, block: Block): (seq<Block>, Option<Block>)
    decreases block != GENESIS, block.BlockDigest()
  {
    if last + 1 >= block.round then ([], None)
    else
      match ParentOf(blocks, block)
      case None => ([], Some(block))
      case Some(parent) =>
        var (found, missing) := Walk(blocks, last, parent);
        ([parent] + found, missing)
  }

  function CommitEffects(delivered: seq<Block>): (effects: seq<Effect>)
    ensures |effects| == |delivered|
    ensures forall i | 0 <= i < |delivered| :: effects[i] == Commit(delivered[i])
  {
    seq(|delivered|, i requires 0 <= i < |delivered| => Commit(delivered[i]))
  }

  /** The blocks delivered by one call: the walked ancestors, newest first, then the head. */
  function CommitBlock(r: Replica, block: Block): Step {
    if r.lastCommittedRound >= block.round then Step(r, Pass)
    else
      var (found, missing) := Walk(r.blocks, r.lastCommittedRound, block);
      if missing.Some? then Step(r.Send(AwaitParent(missing.value)), Fail(Panicked))
      else
        Step(r.(lastCommittedRound := block.round, out := r.out + CommitEffects(found + [block])), Pass)
  }

  function StoreBlock(r: Replica, block: Block): Replica {
    r.(blocks := r.blocks[block.BlockDigest() := block])
  }

  /** The commit rule: a block is committed once its child is of the next round and
      certified. */
  function CommitIfConsecutive(r: Replica, b0: Block, b1: Block): Step {
    if b0.round + 1 == b1.round then CommitBlock(r.Send(CleanupMempool(b0.round)), b0)
    else Step(r, Pass)
  }

  /** The part of block processing after the ancestors are known: store, clean up, commit. */
  function StoreAndCommit(r: Replica, b0: Block, b1: Block, block: Block): Step {
    var cleanup := CleanupProposer(b0.payload + b1.payload + block.payload);
    CommitIfConsecutive(StoreBlock(r, block).Send(cleanup), b0, b1)
  }

  /** The last part of block processing: vote if the block belongs to this round. */
  function VoteFor(env: Env, r: Replica, block: Block): Step
    requires env.committee.authorities != map[]
  {
    if block.round != r.round then Step(r, Pass)
    else
      var (r1, made) := MakeVote(env, r, block);
      match made
      case Failure(e) => Step(r1, Fail(e))
      case Success(None) => Step(r1, Pass)
      case Success(Some(vote)) =>
        var nextLeader := LeaderOf(env.committee, r1.round + 1);
        if nextLeader == env.name then HandleVote(env, r1, vote)
        else Step(r1.Send(SendVote(nextLeader, vote)), Pass)
  }

  function ProcessBlock(env: Env, r: Replica, block: Block): Step
    requires env.committee.authorities != map[]
  {
    match ParentOf(r.blocks, block)
    case None => Step(r.Send(AwaitParent(block)), Pass)
    case Some(b1) =>
      match ParentOf(r.blocks, b1)
      case None => Step(r.Send(AwaitParent(b1)), Fail(Panicked))
      case Some(b0) =>
        var stored := StoreAndCommit(r, b0, b1, block);
        if stored.status.Fail? then stored
        else VoteFor(env, stored.replica, block)
  }

  /** The payload digests that are not in the store, in order. */
  function Missing(stored: set<Digest>, payload: seq<Digest>): seq<Digest> {
    if payload == [] then []
    else (if payload[0] in stored then [] else [payload[0]]) + Missing(stored, payload[1..])
  }

  lemma {:induction false} MissingExact(stored: set<Digest>, payload: seq<Digest>)
    ensures forall x :: x in Missing(stored, payload) <==> x in payload && x !in stored
    ensures Missing(stored, payload) == [] <==> forall x | x in payload :: x in stored
    decreases |payload|
  {
    if payload != [] {
      MissingExact(stored, payload[1..]);
      assert forall x :: x in payload <==> x == payload[0] || x in payload[1..];
    }
  }

  predicate PayloadStored(r: Replica, block: Block) {
    forall x | x in block.payload :: x in r.Stored()
  }

  /** The rounds a proposal's certificates move the replica to. */
  function ProcessCertificates(r: Replica, block: Block): Replica {
    var r1 := ProcessQc(r, block.qc);
    if block.tc.Some? then AdvanceRound(r1, block.tc.value.round) else r1
  }

  function HandleProposal(env: Env, r: Replica, block: Block): Step
    requires env.committee.authorities != map[]
  {
    if block.author != LeaderOf(env.committee, block.round) then
      Step(r, Fail(WrongLeader(block.BlockDigest(), block.author, block.round)))
    else
      var check := block.Check(env.committee);
      if check.Fail? then Step(r, check)
      else
        var r1 := ProcessCertificates(r, block);
        var missing := Missing(r1.Stored(), block.payload);
        if missing != [] then Step(r1.Send(AwaitPayload(missing, block)), Pass)
        else ProcessBlock(env, r1, block)
  }

  // ---------- boot, proposer and events ----------

  const FRESH := Replica(1, 0, 0, GENESIS_QC, NO_TALLIES, map[], {}, [], [])

  const STARTED := FRESH.Rewind()

  function Boot(env: Env): Replica
    requires env.committee.authorities != map[]
  {
    ProposeIfLeader(env, STARTED, None)
  }

  function Makes(out: seq<Effect>): seq<Effect> {
    if out == [] then []
    else Makes(out[..|out| - 1]) + (if out[|out| - 1].Make? then [out[|out| - 1]] else [])
  }

  function Proposals(out: seq<Effect>): seq<Effect> {
    if out == [] then []
    else Proposals(out[..|out| - 1]) + (if out[|out| - 1].Propose? then [out[|out| - 1]] else [])
  }

  lemma {:induction false} MakesAreMakes(out: seq<Effect>)
    ensures forall i | 0 <= i < |Makes(out)| :: Makes(out)[i].Make? && Makes(out)[i] in out
  {
    if out != [] {
      MakesAreMakes(out[..|out| - 1]);
    }
  }

  /** The proposer takes the oldest request it has not served yet and turns it into a
      block with the payload it has buffered. */
  function ServeMake(env: Env, r: Replica, payload: seq<Digest>): Replica {
    var makes, served := Makes(r.out), |Proposals(r.out)|;
    if served >= |makes| then r
    else
      MakesAreMakes(r.out);
      var make := makes[served];
      r.Send(Propose(NewBlock(make.qc, make.proposalTc, env.name, make.round, payload)))
  }

  datatype Event =
    | ReceiveProposal(block: Block)
    | ReceiveVote(vote: Vote)
    | ReceiveTimeout(timeout: Timeout)
    | ReceiveTC(tc: TC)
    | ReceiveSyncRequest(missing: Digest, origin: Key)
    | Loopback(block: Block)
    | TimerFires
    | ProposerRuns(payload: seq<Digest>)
    | BatchStored(digest: Digest)

  /** A block may come back to the replica from its proposer, its synchronizer or its
      payload waiter, and from nowhere else. */
  ghost predicate MayLoopBack(r: Replica, block: Block) {
    exists e | e in r.out :: LoopsBack(e, block)
  }

  predicate LoopsBack(e: Effect, block: Block) {
    e == AwaitParent(block) || e == Propose(block) || (e.AwaitPayload? && e.block == block)
  }

  function React(env: Env, r: Replica, event: Event): Step
    requires env.committee.authorities != map[]
  {
    match event
    case ReceiveProposal(block) => HandleProposal(env, r, block)
    case ReceiveVote(vote) => HandleVote(env, r, vote)
    case ReceiveTimeout(timeout) => HandleTimeout(env, r, timeout)
    case ReceiveTC(tc) => HandleTc(env, r, tc)
    case ReceiveSyncRequest(missing, origin) => Step(r, Fail(Panicked))
    case Loopback(block) => ProcessBlock(env, r, block)
    case TimerFires => LocalTimeout(env, r)
    case ProposerRuns(payload) => Step(ServeMake(env, r, payload), Pass)
    case BatchStored(digest) => Step(r.(batches := r.batches + {digest}), Pass)
  }
}
