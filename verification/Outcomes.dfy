/** What each event does to a replica, said by what holds before it: when a certificate is
    completed, which round is entered, which messages leave. */
module Outcomes {
  import opened Config
  import opened Messages
  import opened Aggregation
  import opened Leader
  import opened Handlers
  import opened Frames
  import opened ReplicaInvariant

  function Max(a: Round, b: Round): Round {
    if a >= b then a else b
  }

  /** The leader of the round asks its proposer for a block, and nobody else does. */
  function Request(env: Env, round: Round, qc: QC, tc: Option<TC>): seq<Effect>
    requires env.committee.authorities != map[]
  {
    if env.name == LeaderOf(env.committee, round) then [Make(round, qc, tc)] else []
  }

  const REWIND := [Reset, StartRound]

  /** The timer is started anew for each round entered. */
  function RewindIf(entered: bool): seq<TimerCall> {
    if entered then REWIND else []
  }

  // ---------- tallies ----------

  /** The tallies of `from` and later rounds are kept, all others are gone. */
  ghost predicate KeptFrom(ts: Tallies, ts': Tallies, from: Round) {
    && (forall k: Round, d :: VoteTally(ts', k, d) == if k >= from then VoteTally(ts, k, d) else EmptyTally())
    && (forall k: Round :: TimeoutTally(ts', k) == if k >= from then TimeoutTally(ts, k) else EmptyTally())
  }

  /** One ballot was added for this round and digest; nothing else changed. */
  ghost predicate VoteAdded(ts: Tallies, ts': Tallies, vote: Vote) {
    && (forall k: Round, d | k != vote.round || d != vote.VoteDigest() :: VoteTally(ts', k, d) == VoteTally(ts, k, d))
    && (forall k: Round :: TimeoutTally(ts', k) == TimeoutTally(ts, k))
    && var (t, t') := (VoteTally(ts, vote.round, vote.VoteDigest()), VoteTally(ts', vote.round, vote.VoteDigest()));
       t'.used == t.used + {vote.author} && t'.votes == t.votes + [(vote.author, vote.signature)]
  }

  /** One report was added for this round, after the tallies before `from` were dropped. */
  ghost predicate TimeoutAdded(ts: Tallies, ts': Tallies, from: Round, timeout: Timeout) {
    && (forall k: Round, d :: VoteTally(ts', k, d) == if k >= from then VoteTally(ts, k, d) else EmptyTally())
    && (forall k: Round | k != timeout.round :: TimeoutTally(ts', k) == if k >= from then TimeoutTally(ts, k) else EmptyTally())
    && var (t, t') := (if timeout.round >= from then TimeoutTally(ts, timeout.round) else EmptyTally(), TimeoutTally(ts', timeout.round));
       t'.used == t.used + {timeout.author} && t'.votes == t.votes + [(timeout.author, (timeout.signature, timeout.highQc.round))]
  }

  /** The tallies of `from` and later rounds are kept but for one of timeouts, all others are
      gone. */
  ghost predicate KeptBut(ts: Tallies, ts': Tallies, from: Round, round: Round) {
    && (forall k: Round, d :: VoteTally(ts', k, d) == if k >= from then VoteTally(ts, k, d) else EmptyTally())
    && (forall k: Round | k != round :: TimeoutTally(ts', k) == if k >= from then TimeoutTally(ts, k) else EmptyTally())
  }

  /** The ballot brings the voters' stake from below the threshold to it. */
  ghost predicate Completes<V>(c: Committee, t: Tally<V>, author: Key) {
    author !in t.used && c.Weight(t.used) < c.QuorumThreshold() <= c.Weight(t.used + {author})
  }

  lemma AppendExact<V>(c: Committee, t: Tally<V>, author: Key, ballot: V)
    requires TallyInv(c, t) && c.StakeOf(author) > 0
    ensures var (t', made) := Append(c, t, author, ballot);
            if author in t.used then t' == t && made == Failure(AuthorityReuse(author))
            else
              && t'.used == t.used + {author} && t'.votes == t.votes + [(author, ballot)]
              && made == Success(if Completes(c, t, author) then Some(t'.votes) else None)
  {
    AppendKeepsInv(c, t, author, ballot);
    SpentIsHeavy(c, t);
    SpentIsHeavy(c, Append(c, t, author, ballot).0);
  }

  /** An author's second ballot is refused; another one is added, and makes a certificate iff
      it completes a quorum. */
  lemma {:induction false} AddVoteExact(c: Committee, ts: Tallies, vote: Vote)
    requires TallyInv(c, VoteTally(ts, vote.round, vote.VoteDigest())) && c.StakeOf(vote.author) > 0
    ensures var (t, (ts', made)) := (VoteTally(ts, vote.round, vote.VoteDigest()), AddVote(c, ts, vote));
            var qc := QC(vote.hash, vote.round, t.votes + [(vote.author, vote.signature)]);
            if vote.author in t.used then KeptFrom(ts, ts', 0) && made == Failure(AuthorityReuse(vote.author))
            else VoteAdded(ts, ts', vote) && made == Success(if Completes(c, t, vote.author) then Some(qc) else None)
  {
    AppendExact(c, VoteTally(ts, vote.round, vote.VoteDigest()), vote.author, vote.signature);
  }

  lemma {:induction false} AddTimeoutExact(c: Committee, ts: Tallies, timeout: Timeout)
    requires TallyInv(c, TimeoutTally(ts, timeout.round)) && c.StakeOf(timeout.author) > 0
    ensures var (t, (ts', made)) := (TimeoutTally(ts, timeout.round), AddTimeout(c, ts, timeout));
            var tc := TC(timeout.round, t.votes + [(timeout.author, (timeout.signature, timeout.highQc.round))]);
            if timeout.author in t.used then KeptFrom(ts, ts', 0) && made == Failure(AuthorityReuse(timeout.author))
            else TimeoutAdded(ts, ts', 0, timeout) && made == Success(if Completes(c, t, timeout.author) then Some(tc) else None)
  {
    AppendExact(c, TimeoutTally(ts, timeout.round), timeout.author, (timeout.signature, timeout.highQc.round));
  }

  // ---------- certificates and rounds ----------

  /** A certificate of a round at least the replica's moves it to the round after that one,
      and only then are the timer started anew and earlier tallies forgotten. */
  lemma AdvanceExact(r: Replica, round: Round)
    ensures var r' := AdvanceRound(r, round);
            && r' == r.(round := Max(r.round, round + 1), timer := r.timer + RewindIf(r'.round > r.round), tallies := r'.tallies)
            && KeptFrom(r.tallies, r'.tallies, if r'.round > r.round then r'.round else 0)
  {
  }

  /** Every QC processed is a sample for the timer, taken before the timer is started anew;
      of two QCs of one round the replica keeps the one it has. */
  lemma ProcessQcExact(r: Replica, qc: QC)
    ensures var r' := ProcessQc(r, qc);
            && r' == r.(round := Max(r.round, qc.round + 1),
                        highQc := if qc.round <= r.highQc.round then r.highQc else qc,
                        timer := r.timer + [OnRoundComplete] + RewindIf(r'.round > r.round),
                        tallies := r'.tallies)
            && KeptFrom(r.tallies, r'.tallies, if r'.round > r.round then r'.round else 0)
  {
    AdvanceExact(r.Sample(), qc.round);
  }

  // ---------- votes ----------

  /** The vote is not of a past round, and its author has stake and signed it. */
  predicate Countable(c: Committee, round: Round, vote: Vote) {
    && vote.round >= round
    && c.StakeOf(vote.author) > 0
    && vote.signature == Signed(vote.author, OfVote(vote.hash, vote.round))
  }

  lemma {:induction false} EntersOnQc(env: Env, r: Replica, qc: QC)
    requires env.committee.authorities != map[] && r.highQc.round < r.round <= qc.round
    ensures var r' := ProposeIfLeader(env, ProcessQc(r, qc), None);
            && r' == r.(round := qc.round + 1, highQc := qc, timer := r.timer + [OnRoundComplete] + REWIND,
                        tallies := r'.tallies, out := r.out + Request(env, qc.round + 1, qc, None))
            && KeptFrom(r.tallies, r'.tallies, qc.round + 1)
  {
    ProcessQcExact(r, qc);
  }

  /** A vote is counted iff it is countable and its author's first for that block and round.
      If it completes a quorum, the replica enters the next round with the new QC. */
  lemma {:induction false} VoteOutcome(env: Env, r: Replica, vote: Vote)
    requires env.committee.authorities != map[]
    requires TallyInv(env.committee, VoteTally(r.tallies, vote.round, vote.VoteDigest()))
    requires r.highQc.round < r.round
    ensures var (c, t) := (env.committee, VoteTally(r.tallies, vote.round, vote.VoteDigest()));
            var Step(r', status) := HandleVote(env, r, vote);
            var qc := QC(vote.hash, vote.round, t.votes + [(vote.author, vote.signature)]);
            if vote.round < r.round then r' == r && status == Pass
            else if !Countable(c, r.round, vote) then
              r' == r && status == Fail(if c.StakeOf(vote.author) == 0 then UnknownAuthority(vote.author) else InvalidSignature)
            else if vote.author in t.used then
              r' == r.(tallies := r'.tallies) && KeptFrom(r.tallies, r'.tallies, 0) && status == Fail(AuthorityReuse(vote.author))
            else if !Completes(c, t, vote.author) then
              r' == r.(tallies := r'.tallies) && VoteAdded(r.tallies, r'.tallies, vote) && status == Pass
            else
              && r' == r.(round := vote.round + 1, highQc := qc, timer := r.timer + [OnRoundComplete] + REWIND,
                          tallies := r'.tallies, out := r.out + Request(env, vote.round + 1, qc, None))
              && KeptFrom(r.tallies, r'.tallies, vote.round + 1) && status == Pass
  {
    if Countable(env.committee, r.round, vote) {
      AddVoteExact(env.committee, r.tallies, vote);
      var (tallies, made) := AddVote(env.committee, r.tallies, vote);
      if made.Success? && made.value.Some? {
        EntersOnQc(env, r.(tallies := tallies), made.value.value);
      }
    }
  }

  // ---------- timeouts ----------

  /** The timeout is not of a past round, its author has stake and signed it, and its QC is
      genesis or valid. */
  predicate Acceptable(c: Committee, round: Round, timeout: Timeout) {
    && timeout.round >= round
    && c.StakeOf(timeout.author) > 0
    && timeout.signature == Signed(timeout.author, OfTimeout(timeout.round, timeout.highQc.round))
    && (timeout.highQc.IsGenesis() || timeout.highQc.Valid(c))
  }

  /** The replica after it has learnt of the QC inside a timeout. */
  function Informed(r: Replica, qc: QC): Replica {
    r.(round := Max(r.round, qc.round + 1),
       highQc := if qc.round <= r.highQc.round then r.highQc else qc,
       timer := r.timer + [OnRoundComplete] + RewindIf(qc.round >= r.round))
  }

  /** The reports for a timeout's round that are still held once the timeout's own QC has
      been processed: none if that QC is not older than the timeout. */
  function ReportsHeldFor(r: Replica, timeout: Timeout): Tally<Report> {
    if timeout.highQc.round >= timeout.round then EmptyTally() else TimeoutTally(r.tallies, timeout.round)
  }

  lemma {:induction false} InformedExact(r: Replica, timeout: Timeout)
    requires timeout.round >= r.round
    ensures var (r1, from) := (ProcessQc(r, timeout.highQc), if timeout.highQc.round >= r.round then timeout.highQc.round + 1 else 0);
            && r1 == Informed(r, timeout.highQc).(tallies := r1.tallies)
            && KeptFrom(r.tallies, r1.tallies, from)
            && TimeoutTally(r1.tallies, timeout.round) == ReportsHeldFor(r, timeout)
  {
    ProcessQcExact(r, timeout.highQc);
  }

  lemma AdvanceOnTcExact(env: Env, r: Replica, tc: TC)
    requires env.committee.authorities != map[]
    ensures var r' := AdvanceOnTc(env, r, tc);
            r' == r.(round := Max(r.round, tc.round + 1), timer := r.timer + RewindIf(tc.round >= r.round), tallies := r'.tallies,
                     out := r.out + [BroadcastTC(tc)] + Request(env, r'.round, r.highQc, Some(tc)))
    ensures KeptFrom(r.tallies, AdvanceOnTc(env, r, tc).tallies, if tc.round >= r.round then tc.round + 1 else 0)
  {
  }

  /** The QC inside an acceptable timeout is processed in any case. The timeout is counted
      iff it is its author's first for the round, as far as the replica remembers; if it
      completes a quorum, the TC is broadcast and the round after it is entered. */
  lemma {:induction false} TimeoutOutcome(env: Env, r: Replica, timeout: Timeout)
    requires env.committee.authorities != map[]
    requires TallyInv(env.committee, TimeoutTally(r.tallies, timeout.round))
    ensures var (c, t) := (env.committee, ReportsHeldFor(r, timeout));
            var Step(r', status) := HandleTimeout(env, r, timeout);
            var r1 := Informed(r, timeout.highQc);
            var from := if r'.round > r.round then r'.round else 0;
            var tc := TC(timeout.round, t.votes + [(timeout.author, (timeout.signature, timeout.highQc.round))]);
            if timeout.round < r.round then r' == r && status == Pass
            else if !Acceptable(c, r.round, timeout) then
              r' == r && status == (if c.StakeOf(timeout.author) == 0 then Fail(UnknownAuthority(timeout.author))
                                    else if timeout.signature != Signed(timeout.author, OfTimeout(timeout.round, timeout.highQc.round))
                                    then Fail(InvalidSignature) else timeout.highQc.Check(c)) && status != Pass
            else if timeout.author in t.used then
              r' == r1.(tallies := r'.tallies) && KeptFrom(r.tallies, r'.tallies, from) && status == Fail(AuthorityReuse(timeout.author))
            else if !Completes(c, t, timeout.author) then
              r' == r1.(tallies := r'.tallies) && TimeoutAdded(r.tallies, r'.tallies, from, timeout) && status == Pass
            else
              && r'.round == Max(r1.round, timeout.round + 1)
              && r' == r1.(round := r'.round, timer := r1.timer + RewindIf(r'.round > r1.round), tallies := r'.tallies,
                           out := r.out + [BroadcastTC(tc)] + Request(env, r'.round, r1.highQc, Some(tc)))
              && KeptBut(r.tallies, r'.tallies, r'.round, timeout.round) && status == Pass
  {
    QCCheckExact(env.committee, timeout.highQc);
    if Acceptable(env.committee, r.round, timeout) {
      InformedExact(r, timeout);
      var r1 := ProcessQc(r, timeout.highQc);
      EmptyTallyInv<Report>(env.committee);
      AddTimeoutExact(env.committee, r1.tallies, timeout);
      var (tallies, made) := AddTimeout(env.committee, r1.tallies, timeout);
      if made.Success? && made.value.Some? {
        AdvanceOnTcExact(env, r1.(tallies := tallies), made.value.value);
      }
    }
  }

  /** A valid TC of no past round moves the replica on, whose leader then asks for a block on
      the high QC it has. */
  lemma TcOutcome(env: Env, r: Replica, tc: TC)
    requires env.committee.authorities != map[]
    ensures var Step(r', status) := HandleTc(env, r, tc);
            if !tc.Valid(env.committee) then r' == r && status.Fail?
            else if tc.round < r.round then r' == r && status == Pass
            else
              && r' == r.(round := tc.round + 1, timer := r.timer + REWIND, tallies := r'.tallies,
                          out := r.out + Request(env, tc.round + 1, r.highQc, Some(tc)))
              && KeptFrom(r.tallies, r'.tallies, tc.round + 1) && status == Pass
  {
    TCCheckExact(env.committee, tc);
    AdvanceExact(r, tc.round);
  }

  // ---------- the alarm ----------

  /** The replica after its alarm, before it counts its own timeout: it will not vote in the
      round any more, and the timeout is signed and broadcast. */
  function GivenUp(r: Replica, timeout: Timeout): Replica {
    r.(lastVotedRound := Max(r.round, r.lastVotedRound),
       timer := r.timer + REWIND + [OnRoundComplete],
       out := r.out + [SignTimeout(timeout), BroadcastTimeout(timeout)])
  }

  lemma {:induction false} GivenUpExact(env: Env, r: Replica)
    requires r.highQc.round < r.round
    ensures OwnTimeout(env, r) == Timeout(r.highQc, r.round, env.name, Signed(env.name, OfTimeout(r.round, r.highQc.round)))
    ensures Informed(GiveUpRound(env, r), r.highQc) == GivenUp(r, OwnTimeout(env, r))
    ensures GiveUpRound(env, r).tallies == r.tallies && GiveUpRound(env, r).round == r.round
  {
    var timeout, r1 := OwnTimeout(env, r), GiveUpRound(env, r);
    assert r1.out == r.out + [SignTimeout(timeout), BroadcastTimeout(timeout)];
    assert r1.timer + [OnRoundComplete] + RewindIf(false) == r.timer + REWIND + [OnRoundComplete];
  }

  /** An alarm makes the replica sign and broadcast a timeout with its round and high QC,
      which passes the checks everywhere; and it counts it itself, unless an alarm of the
      same round came before. */
  lemma {:induction false} AlarmOutcome(env: Env, r: Replica)
    requires env.committee.authorities != map[] && env.committee.StakeOf(env.name) > 0
    requires r.highQc.round < r.round && (r.highQc.IsGenesis() || r.highQc.Valid(env.committee))
    requires TallyInv(env.committee, TimeoutTally(r.tallies, r.round))
    ensures var (c, t) := (env.committee, TimeoutTally(r.tallies, r.round));
            var signature := Signed(env.name, OfTimeout(r.round, r.highQc.round));
            var timeout := Timeout(r.highQc, r.round, env.name, signature);
            var Step(r', status) := LocalTimeout(env, r);
            var r1 := GivenUp(r, timeout);
            var tc := TC(r.round, t.votes + [(env.name, (signature, r.highQc.round))]);
            && timeout.Check(c) == Pass
            && if env.name in t.used then
                 r' == r1.(tallies := r'.tallies) && KeptFrom(r.tallies, r'.tallies, 0) && status == Fail(AuthorityReuse(env.name))
               else if !Completes(c, t, env.name) then
                 r' == r1.(tallies := r'.tallies) && TimeoutAdded(r.tallies, r'.tallies, 0, timeout) && status == Pass
               else
                 && r' == r1.(round := r.round + 1, timer := r1.timer + REWIND, tallies := r'.tallies,
                              out := r1.out + [BroadcastTC(tc)] + Request(env, r.round + 1, r.highQc, Some(tc)))
                 && KeptBut(r.tallies, r'.tallies, r.round + 1, r.round) && status == Pass
  {
    QCCheckExact(env.committee, r.highQc);
    GivenUpExact(env, r);
    TimeoutOutcome(env, GiveUpRound(env, r), OwnTimeout(env, r));
  }

  // ---------- voting ----------

  /** The block's own certificate is of the round before, or it carries a TC of the round
      before none of whose reports exceeds its certificate. */
  predicate Justified(block: Block) {
    || block.qc.round + 1 == block.round
    || (block.tc.Some? && block.tc.value.round + 1 == block.round
        && forall i | 0 <= i < |block.tc.value.votes| :: block.tc.value.votes[i].1.1 <= block.qc.round)
  }

  /** A replica of this round, having last voted in `voted`, votes for the block. */
  predicate Voted(round: Round, voted: Round, block: Block) {
    block.round == round && block.round > voted && Justified(block)
  }

  function VoteOf(name: Key, block: Block): Vote {
    Vote(block.BlockDigest(), block.round, name, Signed(name, OfVote(block.BlockDigest(), block.round)))
  }

  /** The replica after it has signed a vote. */
  function Cast(r: Replica, block: Block): Replica {
    r.(lastVotedRound := block.round, out := r.out + [SignVote(block)])
  }

  /** The vote goes to the leader of the next round, and is counted if that is the replica
      itself. */
  lemma {:induction false} VoteForOutcome(env: Env, r: Replica, block: Block)
    requires env.committee.authorities != map[]
    requires block.tc.Some? ==> block.tc.value.votes != []
    ensures var (step, next) := (VoteFor(env, r, block), LeaderOf(env.committee, block.round + 1));
            if !Voted(r.round, r.lastVotedRound, block) then step == Step(r, Pass)
            else if next == env.name then step == HandleVote(env, Cast(r, block), VoteOf(env.name, block))
            else step == Step(Cast(r, block).Send(SendVote(next, VoteOf(env.name, block))), Pass)
  {
    assert RuleTwo(block.qc, block.tc, block.round) <==> Justified(block);
  }

  // ---------- blocks ----------

  /** The parent and the grandparent are stored, or genesis. */
  predicate Placed(blocks: BlockStore, block: Block) {
    && (block.qc.IsGenesis() || block.qc.hash in blocks)
    && (!block.qc.IsGenesis() ==>
          var parent := blocks[block.qc.hash]; parent.qc.IsGenesis() || parent.qc.hash in blocks)
  }

  /** What storing a block and its commit rule do: the proposer is told of the payloads of
      three blocks; if parent and grandparent are of consecutive rounds, the mempool is told
      the grandparent's round, and it is committed unless that round was before. */
  lemma CommitOutcome(r: Replica, b0: Block, b1: Block, block: Block) returns (delivered: seq<Block>)
    requires StoreAndCommit(r, b0, b1, block).status == Pass
    ensures var r' := StoreAndCommit(r, b0, b1, block).replica;
            var twoChain := b0.round + 1 == b1.round;
            && r' == r.(blocks := r.blocks[block.BlockDigest() := block],
                        lastCommittedRound := if twoChain then Max(r.lastCommittedRound, b0.round) else r.lastCommittedRound,
                        out := r.out + [CleanupProposer(b0.payload + b1.payload + block.payload)]
                               + (if twoChain then [CleanupMempool(b0.round)] else []) + CommitEffects(delivered))
            && (delivered == [] <==> !(twoChain && b0.round > r.lastCommittedRound))
            && (delivered != [] ==> delivered[|delivered| - 1] == b0)
  {
    delivered := [];
    var r1 := StoreBlock(r, block).Send(CleanupProposer(b0.payload + b1.payload + block.payload));
    assert CommitEffects([]) == [];
    if b0.round + 1 == b1.round && b0.round > r.lastCommittedRound {
      delivered := Walk(r1.blocks, r1.lastCommittedRound, b0).0 + [b0];
    }
  }

  lemma {:induction false} ProcessOutcome(env: Env, r: Replica, block: Block) returns (stored: Replica)
    requires env.committee.authorities != map[] && ProcessBlock(env, r, block).status != Fail(Panicked)
    ensures if Placed(r.blocks, block) then
              && ProcessBlock(env, r, block) == VoteFor(env, stored, block)
              && r.out <= stored.out && (forall e | e in Added(r, stored) :: Minor(e) || e.Commit?)
              && stored == r.(blocks := r.blocks[block.BlockDigest() := block],
                              lastCommittedRound := stored.lastCommittedRound, out := stored.out)
            else
              && !block.qc.IsGenesis() && block.qc.hash !in r.blocks
              && ProcessBlock(env, r, block) == Step(r.Send(AwaitParent(block)), Pass)
  {
    stored := r;
    if Placed(r.blocks, block) {
      var b1 := ParentOf(r.blocks, block).value;
      var b0 := ParentOf(r.blocks, b1).value;
      StoreAndCommitFrame(r, b0, b1, block);
      stored := StoreAndCommit(r, b0, b1, block).replica;
      StoreStatus(r, b0, b1, block);
      var delivered := CommitOutcome(r, b0, b1, block);
    }
  }

  lemma StoreStatus(r: Replica, b0: Block, b1: Block, block: Block)
    ensures StoreAndCommit(r, b0, b1, block).status == Pass || StoreAndCommit(r, b0, b1, block).status == Fail(Panicked)
  {
  }

  /** Handling a block adds a vote for it, and for nothing else, iff its ancestors are there
      and the replica votes for it in its round. */
  lemma {:induction false} ProcessVotes(env: Env, r: Replica, block: Block, b: Block)
    requires env.committee.authorities != map[] && ProcessBlock(env, r, block).status != Fail(Panicked)
    ensures var r' := ProcessBlock(env, r, block).replica;
            && r.out <= r'.out
            && (SignVote(b) in Added(r, r') <==>
                b == block && Placed(r.blocks, block) && Voted(r.round, r.lastVotedRound, block))
  {
    var stored := ProcessOutcome(env, r, block);
    var r' := ProcessBlock(env, r, block).replica;
    if Placed(r.blocks, block) {
      VoteForVotes(env, stored, block, b);
      AddedTwice(r, stored, r');
    } else {
      SendFrame(r, AwaitParent(block), {AwaitParent(block)});
    }
  }

  lemma {:induction false} VoteForVotes(env: Env, r: Replica, block: Block, b: Block)
    requires env.committee.authorities != map[] && VoteFor(env, r, block).status != Fail(Panicked)
    ensures var r' := VoteFor(env, r, block).replica;
            && r.out <= r'.out
            && (SignVote(b) in Added(r, r') <==> b == block && Voted(r.round, r.lastVotedRound, block))
  {
    if block.round == r.round {
      VoteForOutcome(env, r, block);
      VoteForFrame(env, r, block);
      var r1, r' := Cast(r, block), VoteFor(env, r, block).replica;
      if Voted(r.round, r.lastVotedRound, block) {
        HandleVoteFrame(env, r1, VoteOf(env.name, block));
        assert r1.out <= r'.out;
        assert r'.out[|r.out|] == SignVote(block);
        assert Added(r, r')[0] == SignVote(block);
      }
    }
  }

  ghost predicate GoodTallies(c: Committee, ts: Tallies) {
    && (forall k: Round, d :: TallyInv(c, VoteTally(ts, k, d)))
    && (forall k: Round :: TallyInv(c, TimeoutTally(ts, k)))
  }

  lemma TalliesAreGood(c: Committee, pool: Pool, r: Replica)
    requires ReplicaInv(c, pool, r)
    ensures GoodTallies(c, r.tallies)
  {
    EmptyTallyInv<Signature>(c);
    EmptyTallyInv<Report>(c);
    forall k: Round, d ensures TallyInv(c, VoteTally(r.tallies, k, d)) {
      assert k in r.tallies.votes && d in r.tallies.votes[k] ==> VoteTallyOk(c, pool, d, r.tallies.votes[k][d]);
    }
    forall k: Round ensures TallyInv(c, TimeoutTally(r.tallies, k)) {
      assert k in r.tallies.timeouts ==> TimeoutTallyOk(c, pool, r.highQc.round, k, r.tallies.timeouts[k]);
    }
  }

  lemma KeptAreGood(c: Committee, ts: Tallies, ts': Tallies, from: Round)
    requires GoodTallies(c, ts) && KeptFrom(ts, ts', from)
    ensures GoodTallies(c, ts')
  {
    EmptyTallyInv<Signature>(c);
    EmptyTallyInv<Report>(c);
    assert forall k: Round, d :: TallyInv(c, VoteTally(ts, k, d));
    assert forall k: Round :: TallyInv(c, TimeoutTally(ts, k));
  }

  /** The replica has counted its own vote for the block, or is past the block's round. */
  predicate OwnCounted(env: Env, r: Replica, block: Block) {
    r.round > block.round || env.name in VoteTally(r.tallies, block.round, OfVote(block.BlockDigest(), block.round)).used
  }

  /** Where a vote goes: to the next leader, or into the replica's own count. */
  predicate VoteSent(env: Env, r: Replica, block: Block)
    requires env.committee.authorities != map[]
  {
    var next := LeaderOf(env.committee, block.round + 1);
    if next != env.name then SendVote(next, VoteOf(env.name, block)) in r.out
    else env.committee.StakeOf(env.name) > 0 ==> OwnCounted(env, r, block)
  }

  lemma {:induction false} VoteForGoes(env: Env, r: Replica, block: Block)
    requires env.committee.authorities != map[] && VoteFor(env, r, block).status != Fail(Panicked)
    requires GoodTallies(env.committee, r.tallies) && r.highQc.round < r.round
    ensures var r' := VoteFor(env, r, block).replica;
            && r'.lastVotedRound == (if Voted(r.round, r.lastVotedRound, block) then block.round else r.lastVotedRound)
            && (Voted(r.round, r.lastVotedRound, block) ==> VoteSent(env, r', block))
            && (r'.round == r.round
                || (r'.round == block.round + 1 && Voted(r.round, r.lastVotedRound, block)
                    && LeaderOf(env.committee, block.round + 1) == env.name))
  {
    if block.round == r.round {
      VoteForOutcome(env, r, block);
      if Voted(r.round, r.lastVotedRound, block) {
        VoteOutcome(env, Cast(r, block), VoteOf(env.name, block));
      }
    }
  }

  /** What handling a block does to the round and the vote. */
  lemma {:induction false} ProcessRound(env: Env, r: Replica, block: Block)
    requires env.committee.authorities != map[] && ProcessBlock(env, r, block).status != Fail(Panicked)
    requires GoodTallies(env.committee, r.tallies) && r.highQc.round < r.round
    ensures var (r', votes) := (ProcessBlock(env, r, block).replica, Placed(r.blocks, block) && Voted(r.round, r.lastVotedRound, block));
            && r'.lastVotedRound == (if votes then block.round else r.lastVotedRound)
            && (votes ==> VoteSent(env, r', block))
            && (r'.round == r.round || (r'.round == block.round + 1 && votes && LeaderOf(env.committee, block.round + 1) == env.name))
  {
    var stored := ProcessOutcome(env, r, block);
    if Placed(r.blocks, block) {
      VoteForGoes(env, stored, block);
    }
  }

  // ---------- proposals ----------

  /** The highest of the replica's round and the rounds after a block's certificates. */
  function TopRound(r: Replica, block: Block): Round {
    Max(Max(r.round, block.qc.round + 1), if block.tc.Some? then block.tc.value.round + 1 else 0)
  }

  /** Both certificates of a block move the replica on. */
  lemma {:induction false} CertificatesExact(r: Replica, block: Block)
    ensures var (r', onQc) := (ProcessCertificates(r, block), Max(r.round, block.qc.round + 1));
            && r' == r.(round := TopRound(r, block),
                        highQc := if block.qc.round <= r.highQc.round then r.highQc else block.qc,
                        timer := r.timer + [OnRoundComplete] + RewindIf(onQc > r.round) + RewindIf(r'.round > onQc),
                        tallies := r'.tallies)
            && KeptFrom(r.tallies, r'.tallies, if r'.round > r.round then r'.round else 0)
  {
    ProcessQcExact(r, block.qc);
    if block.tc.Some? {
      AdvanceExact(ProcessQc(r, block.qc), block.tc.value.round);
    } else {
      assert RewindIf(false) == [];
    }
  }

  /** The block is from the leader of its round, signed, and its certificates are valid. */
  predicate WellFormed(c: Committee, block: Block)
    requires c.authorities != map[]
  {
    && block.author == LeaderOf(c, block.round) && c.StakeOf(block.author) > 0
    && block.signature == Signed(block.author, block.BlockDigest())
    && (block.qc.IsGenesis() || block.qc.Valid(c))
    && (block.tc.Some? ==> block.tc.value.Valid(c))
  }

  /** Why a proposal is turned down: the first of the five conditions that does not hold. */
  lemma {:induction false} RejectedFor(env: Env, r: Replica, block: Block)
    requires env.committee.authorities != map[] && !WellFormed(env.committee, block)
    ensures var c := env.committee;
            HandleProposal(env, r, block)
            == Step(r, if block.author != LeaderOf(c, block.round) then Fail(WrongLeader(block.BlockDigest(), block.author, block.round))
                       else if c.StakeOf(block.author) == 0 then Fail(UnknownAuthority(block.author))
                       else if block.signature != Signed(block.author, block.BlockDigest()) then Fail(InvalidSignature)
                       else if !block.qc.IsGenesis() && !block.qc.Valid(c) then block.qc.Check(c)
                       else block.tc.value.Check(c))
  {
    QCCheckExact(env.committee, block.qc);
    if block.tc.Some? {
      TCCheckExact(env.committee, block.tc.value);
    }
  }

  /** What a proposal does before its block is processed: nothing unless it is well formed;
      otherwise its certificates are used, and a missing payload is asked for. */
  lemma {:induction false} ProposalSplits(env: Env, r: Replica, block: Block) returns (r1: Replica)
    requires env.committee.authorities != map[]
    ensures var step := HandleProposal(env, r, block);
            if !WellFormed(env.committee, block) then step.replica == r && step.status.Fail?
            else
              && r1 == ProcessCertificates(r, block)
              && if PayloadStored(r, block) then step == ProcessBlock(env, r1, block)
                 else step == Step(r1.Send(AwaitPayload(Missing(r.Stored(), block.payload), block)), Pass)
  {
    r1 := ProcessCertificates(r, block);
    BlockCheckExact(env.committee, block);
    CertificatesExact(r, block);
    MissingExact(r.Stored(), block.payload);
  }

  lemma {:induction false} CertificatesKeepGood(c: Committee, pool: Pool, r: Replica, block: Block)
    requires ReplicaInv(c, pool, r)
    ensures var r1 := ProcessCertificates(r, block);
            && GoodTallies(c, r1.tallies) && r1.highQc.round < r1.round
            && r1.round == TopRound(r, block) && r1.lastVotedRound == r.lastVotedRound && r1.blocks == r.blocks
  {
    var r1 := ProcessCertificates(r, block);
    CertificatesExact(r, block);
    TalliesAreGood(c, pool, r);
    KeptAreGood(c, r.tallies, r1.tallies, if r1.round > r.round then r1.round else 0);
  }

  lemma {:induction false} RoundAfterCertificates(env: Env, r1: Replica, block: Block)
    requires env.committee.authorities != map[] && ProcessBlock(env, r1, block).status != Fail(Panicked)
    requires GoodTallies(env.committee, r1.tallies) && r1.highQc.round < r1.round
    ensures var r' := ProcessBlock(env, r1, block).replica;
            r'.round == r1.round
            || (r'.round == r1.round + 1 && block.round == r1.round && LeaderOf(env.committee, block.round + 1) == env.name
                && r'.lastVotedRound == block.round)
  {
    var r' := ProcessBlock(env, r1, block).replica;
    ProcessRound(env, r1, block);
    assert r'.round != r1.round ==> r'.round == block.round + 1 && Voted(r1.round, r1.lastVotedRound, block);
  }

  /** A well-formed proposal takes the replica to the round its certificates allow, even if
      the block itself is suspended, and one further only if its own vote makes a QC. */
  lemma {:induction false} ProposalRound(env: Env, pool: Pool, r: Replica, block: Block)
    requires env.committee.authorities != map[] && ReplicaInv(env.committee, pool, r)
    requires HandleProposal(env, r, block).status != Fail(Panicked)
    ensures var (r', top) := (HandleProposal(env, r, block).replica, TopRound(r, block));
            if !WellFormed(env.committee, block) then r' == r
            else
              || r'.round == top
              || (r'.round == top + 1 && block.round == top && LeaderOf(env.committee, block.round + 1) == env.name
                  && r'.lastVotedRound == block.round)
  {
    var r1 := ProposalSplits(env, r, block);
    CertificatesKeepGood(env.committee, pool, r, block);
    if WellFormed(env.committee, block) && PayloadStored(r, block) {
      RoundAfterCertificates(env, r1, block);
    }
  }

  // ---------- when a replica votes ----------

  /** The event makes the replica vote for the block: a well-formed proposal whose payload is
      stored, or a block that comes back; in both cases its ancestors are there, and it is of
      the round the replica is in once it has used the certificates. */
  predicate VotesOn(env: Env, r: Replica, event: Event, b: Block)
    requires env.committee.authorities != map[]
  {
    && Placed(r.blocks, b)
    && ((event == ReceiveProposal(b) && WellFormed(env.committee, b) && PayloadStored(r, b)
         && Voted(TopRound(r, b), r.lastVotedRound, b))
        || (event == Loopback(b) && Voted(r.round, r.lastVotedRound, b)))
  }

  /** A replica signs a vote exactly when it should. */
  lemma {:induction false} VoteCastExactly(env: Env, r: Replica, event: Event, b: Block)
    requires env.committee.authorities != map[] && React(env, r, event).status != Fail(Panicked)
    ensures r.out <= React(env, r, event).replica.out
    ensures SignVote(b) in Added(r, React(env, r, event).replica) <==> VotesOn(env, r, event, b)
  {
    ReactFrame(env, r, event);
    match event
    case ReceiveProposal(block) =>
      var r1 := ProposalSplits(env, r, block);
      if WellFormed(env.committee, block) {
        CertificatesExact(r, block);
        if PayloadStored(r, block) {
          ProcessVotes(env, r1, block, b);
          assert Added(r, React(env, r, event).replica) == Added(r1, ProcessBlock(env, r1, block).replica);
        } else {
          SendFrame(r1, AwaitPayload(Missing(r.Stored(), block.payload), block), {AwaitPayload(Missing(r.Stored(), block.payload), block)});
          assert Added(r, React(env, r, event).replica) == Added(r1, React(env, r, event).replica);
        }
      }
    case Loopback(block) => ProcessVotes(env, r, block, b);
    case ProposerRuns(payload) => OnlyProposes(env, r, payload);
    case _ =>
  }

  /** The proposer turns the oldest unserved request into a block with the given payload. */
  lemma OnlyProposes(env: Env, r: Replica, payload: seq<Digest>)
    ensures var (r', makes, n) := (ServeMake(env, r, payload), Makes(r.out), |Proposals(r.out)|);
            if n >= |makes| then r' == r
            else
              && r'.out == r.out + [r'.out[|r.out|]] && r'.out[|r.out|].Propose? && makes[n].Make?
              && var b := r'.out[|r.out|].block;
                 && b.qc == makes[n].qc && b.tc == makes[n].proposalTc && b.round == makes[n].round
                 && b.payload == payload && b.author == env.name && b.signature == Signed(env.name, b.BlockDigest())
  {
    MakesAreMakes(r.out);
  }

  /** A replica starts in round 1 with its timer started and nothing voted for, and asks for
      the first block if it leads that round. */
  lemma BootOutcome(env: Env)
    requires env.committee.authorities != map[]
    ensures Boot(env) == Replica(1, 0, 0, GENESIS_QC, NO_TALLIES, map[], {}, REWIND, Request(env, 1, GENESIS_QC, None))
  {
    assert [] + REWIND == REWIND;
  }
}
