/** What every step of one replica keeps, whatever messages arrive. */
module ReplicaInvariant {
  import opened Config
  import opened Messages
  import opened Aggregation
  import opened Leader
  import opened Handlers
  import opened Frames

  /** The signatures that exist: every honest one in it was asked for by its signer. */
  type Pool = iset<Signature>

  // ---------- certificates whose signatures exist ----------

  ghost predicate VotesHeld(pool: Pool, votes: seq<(Key, Signature)>) {
    forall i | 0 <= i < |votes| :: votes[i].1 in pool
  }

  ghost predicate ReportsHeld(pool: Pool, votes: seq<(Key, Report)>) {
    forall i | 0 <= i < |votes| :: votes[i].1.0 in pool
  }

  ghost predicate QcHeld(c: Committee, pool: Pool, qc: QC) {
    qc.IsGenesis() || (qc.Valid(c) && VotesHeld(pool, qc.votes))
  }

  ghost predicate TcHeld(c: Committee, pool: Pool, tc: TC) {
    tc.Valid(c) && ReportsHeld(pool, tc.votes)
  }

  ghost predicate OptTcHeld(c: Committee, pool: Pool, tc: Option<TC>) {
    tc.Some? ==> TcHeld(c, pool, tc.value)
  }

  ghost predicate BlockHeld(c: Committee, pool: Pool, block: Block) {
    QcHeld(c, pool, block.qc) && OptTcHeld(c, pool, block.tc)
  }

  // ---------- the invariant ----------

  /** What was known when an effect was sent; `high` and `voted` only ever grow. */
  ghost predicate EffectOk(c: Committee, pool: Pool, high: Round, voted: Round, e: Effect) {
    match e
    case SignVote(block) =>
      && BlockHeld(c, pool, block)
      && block.qc.round <= high && block.round <= voted
      && block.qc.round < block.round
      && RuleTwo(block.qc, block.tc, block.round)
    case SignTimeout(timeout) => timeout.highQc.round < timeout.round <= voted
    case Make(round, qc, tc) => QcHeld(c, pool, qc) && OptTcHeld(c, pool, tc) && qc.round <= high
    case AwaitParent(block) => BlockHeld(c, pool, block) && block.qc.round <= high
    case AwaitPayload(_, block) => BlockHeld(c, pool, block) && block.qc.round <= high
    case Propose(block) => BlockHeld(c, pool, block) && block.qc.round <= high
    case BroadcastTimeout(timeout) => QcHeld(c, pool, timeout.highQc)
    case BroadcastTC(tc) => TcHeld(c, pool, tc)
    case _ => true
  }

  ghost predicate LogInv(c: Committee, pool: Pool, high: Round, voted: Round, out: seq<Effect>) {
    forall e | e in out :: EffectOk(c, pool, high, voted, e)
  }

  /** At most one vote is signed per round. */
  ghost predicate VoteOnce(out: seq<Effect>) {
    forall a, b | SignVote(a) in out && SignVote(b) in out && a.round == b.round :: a == b
  }

  /** A timeout signed for a round reports a high QC at least as high as the QC of every
      block voted for in that round or before. */
  ghost predicate TimeoutLock(out: seq<Effect>) {
    forall b, t | SignVote(b) in out && SignTimeout(t) in out && b.round <= t.round ::
      b.qc.round <= t.highQc.round
  }

  /** The stored blocks are closed under taking parents. */
  ghost predicate StoreInv(c: Committee, pool: Pool, high: Round, blocks: BlockStore) {
    forall d | d in blocks ::
      BlockHeld(c, pool, blocks[d]) && blocks[d].qc.round <= high && ParentOf(blocks, blocks[d]).Some?
  }

  ghost predicate VoteTallyOk(c: Committee, pool: Pool, digest: Digest, t: Tally<Signature>) {
    && TallyInv(c, t)
    && VotesHeld(pool, t.votes)
    && forall i | 0 <= i < |t.votes| :: t.votes[i].1.Checks(digest, t.votes[i].0)
  }

  ghost predicate TimeoutTallyOk(c: Committee, pool: Pool, high: Round, round: Round, t: Tally<Report>) {
    && TallyInv(c, t)
    && ReportsHeld(pool, t.votes)
    && TC(round, t.votes).SignaturesCheck()
    && TC(round, t.votes).AtMost(high)
  }

  ghost predicate TalliesOk(c: Committee, pool: Pool, high: Round, ts: Tallies) {
    && (forall round, digest | round in ts.votes && digest in ts.votes[round] ::
          VoteTallyOk(c, pool, digest, ts.votes[round][digest]))
    && (forall round | round in ts.timeouts ::
          TimeoutTallyOk(c, pool, high, round, ts.timeouts[round]))
  }

  ghost predicate ReplicaInv(c: Committee, pool: Pool, r: Replica) {
    && QcHeld(c, pool, r.highQc)
    && r.highQc.round < r.round
    && LogInv(c, pool, r.highQc.round, r.lastVotedRound, r.out)
    && VoteOnce(r.out)
    && TimeoutLock(r.out)
    && StoreInv(c, pool, r.highQc.round, r.blocks)
    && TalliesOk(c, pool, r.highQc.round, r.tallies)
  }

  /** Every signature the replica asked for exists. */
  ghost predicate OwnHeld(name: Key, pool: Pool, out: seq<Effect>) {
    forall e | e in out && SignedDigest(e).Some? :: Signed(name, SignedDigest(e).value) in pool
  }

  /** Sending an effect that is not a signature request. */
  lemma SendKeeps(c: Committee, pool: Pool, r: Replica, e: Effect)
    requires ReplicaInv(c, pool, r)
    requires !e.SignVote? && !e.SignTimeout?
    requires EffectOk(c, pool, r.highQc.round, r.lastVotedRound, e)
    ensures ReplicaInv(c, pool, r.Send(e))
  {
    assert forall x | x in r.out + [e] :: x in r.out || x == e;
  }

  // ---------- rounds and certificates ----------

  lemma AdvanceRoundKeeps(c: Committee, pool: Pool, r: Replica, round: Round)
    requires ReplicaInv(c, pool, r)
    ensures ReplicaInv(c, pool, AdvanceRound(r, round))
    ensures AdvanceRound(r, round).round > round
  {
  }

  lemma ProcessQcKeeps(c: Committee, pool: Pool, r: Replica, qc: QC)
    requires ReplicaInv(c, pool, r) && QcHeld(c, pool, qc)
    ensures ReplicaInv(c, pool, ProcessQc(r, qc))
    ensures qc.round <= ProcessQc(r, qc).highQc.round
  {
    var r1 := AdvanceRound(r, qc.round);
    AdvanceRoundKeeps(c, pool, r, qc.round);
    if qc.round > r1.highQc.round {
      HigherKeeps(c, pool, r1, qc.round);
    }
  }

  lemma HigherKeeps(c: Committee, pool: Pool, r: Replica, high: Round)
    requires ReplicaInv(c, pool, r) && r.highQc.round <= high
    ensures LogInv(c, pool, high, r.lastVotedRound, r.out)
    ensures StoreInv(c, pool, high, r.blocks)
    ensures TalliesOk(c, pool, high, r.tallies)
  {
    forall e | e in r.out ensures EffectOk(c, pool, high, r.lastVotedRound, e) {
      assert EffectOk(c, pool, r.highQc.round, r.lastVotedRound, e);
    }
  }

  lemma ProposeKeeps(env: Env, pool: Pool, r: Replica, tc: Option<TC>)
    requires env.committee.authorities != map[]
    requires ReplicaInv(env.committee, pool, r) && OptTcHeld(env.committee, pool, tc)
    ensures ReplicaInv(env.committee, pool, ProposeIfLeader(env, r, tc))
  {
    SendKeeps(env.committee, pool, r, Make(r.round, r.highQc, tc));
  }

  // ---------- votes and timeouts ----------

  lemma {:induction false} AddVoteKeeps(c: Committee, pool: Pool, high: Round, ts: Tallies, vote: Vote)
    requires TalliesOk(c, pool, high, ts)
    requires vote.Check(c).Pass? && vote.signature in pool
    ensures TalliesOk(c, pool, high, AddVote(c, ts, vote).0)
    ensures var made := AddVote(c, ts, vote).1;
            made.Success? && made.value.Some? ==>
              made.value.value.round == vote.round && QcHeld(c, pool, made.value.value)
  {
    var digest := vote.VoteDigest();
    var t := VoteTally(ts, vote.round, digest);
    EmptyTallyInv<Signature>(c);
    assert VoteTallyOk(c, pool, digest, t);
    var (t', made) := Append(c, t, vote.author, vote.signature);
    AppendKeepsInv(c, t, vote.author, vote.signature);
    assert VoteTallyOk(c, pool, digest, t');
  }

  lemma {:induction false} AddTimeoutKeeps(c: Committee, pool: Pool, high: Round, ts: Tallies, timeout: Timeout)
    requires TalliesOk(c, pool, high, ts)
    requires timeout.Check(c).Pass? && timeout.signature in pool && timeout.highQc.round <= high
    ensures TalliesOk(c, pool, high, AddTimeout(c, ts, timeout).0)
    ensures var made := AddTimeout(c, ts, timeout).1;
            made.Success? && made.value.Some? ==>
              var tc := made.value.value;
              tc.round == timeout.round && TcHeld(c, pool, tc) && tc.AtMost(high)
  {
    var t := TimeoutTally(ts, timeout.round);
    EmptyTallyInv<Report>(c);
    assert TimeoutTallyOk(c, pool, high, timeout.round, t);
    var report := (timeout.signature, timeout.highQc.round);
    var (t', made) := Append(c, t, timeout.author, report);
    AppendKeepsInv(c, t, timeout.author, report);
    var tc := TC(timeout.round, t'.votes);
    forall i | 0 <= i < |tc.votes| ensures tc.SignatureChecks(i) {
      if i < |t.votes| {
        assert TC(timeout.round, t.votes).SignatureChecks(i);
      }
    }
    assert TimeoutTallyOk(c, pool, high, timeout.round, t');
  }

  lemma HandleVoteKeeps(env: Env, pool: Pool, r: Replica, vote: Vote)
    requires env.committee.authorities != map[]
    requires ReplicaInv(env.committee, pool, r) && vote.signature in pool
    ensures ReplicaInv(env.committee, pool, HandleVote(env, r, vote).replica)
    ensures HandleVote(env, r, vote).status != Fail(Panicked)
  {
    var c := env.committee;
    if vote.round >= r.round && vote.Check(c).Pass? {
      AddVoteKeeps(c, pool, r.highQc.round, r.tallies, vote);
      var (tallies, made) := AddVote(c, r.tallies, vote);
      var r1 := r.(tallies := tallies);
      if made.Success? && made.value.Some? {
        var qc := made.value.value;
        ProcessQcKeeps(c, pool, r1, qc);
        ProposeKeeps(env, pool, ProcessQc(r1, qc), None);
      }
    }
  }

  lemma AdvanceOnTcKeeps(env: Env, pool: Pool, r: Replica, tc: TC)
    requires env.committee.authorities != map[]
    requires ReplicaInv(env.committee, pool, r) && TcHeld(env.committee, pool, tc)
    ensures ReplicaInv(env.committee, pool, AdvanceOnTc(env, r, tc))
  {
    var c := env.committee;
    var r1 := AdvanceRound(r, tc.round);
    AdvanceRoundKeeps(c, pool, r, tc.round);
    SendKeeps(c, pool, r1, BroadcastTC(tc));
    ProposeKeeps(env, pool, r1.Send(BroadcastTC(tc)), Some(tc));
  }

  lemma HandleTimeoutKeeps(env: Env, pool: Pool, r: Replica, timeout: Timeout)
    requires env.committee.authorities != map[]
    requires ReplicaInv(env.committee, pool, r)
    requires timeout.signature in pool
    requires timeout.highQc.IsGenesis() || VotesHeld(pool, timeout.highQc.votes)
    ensures ReplicaInv(env.committee, pool, HandleTimeout(env, r, timeout).replica)
    ensures HandleTimeout(env, r, timeout).status != Fail(Panicked)
  {
    var c := env.committee;
    QcCheckNotPanicked(c, timeout.highQc);
    if timeout.round >= r.round && timeout.Check(c).Pass? {
      QCCheckExact(c, timeout.highQc);
      ProcessQcKeeps(c, pool, r, timeout.highQc);
      var r1 := ProcessQc(r, timeout.highQc);
      AddTimeoutKeeps(c, pool, r1.highQc.round, r1.tallies, timeout);
      var (tallies, made) := AddTimeout(c, r1.tallies, timeout);
      var r2 := r1.(tallies := tallies);
      if made.Success? && made.value.Some? {
        var tc := made.value.value;
        AdvanceOnTcKeeps(env, pool, r2, tc);
      }
    }
  }

  lemma HandleTcKeeps(env: Env, pool: Pool, r: Replica, tc: TC)
    requires env.committee.authorities != map[]
    requires ReplicaInv(env.committee, pool, r) && ReportsHeld(pool, tc.votes)
    ensures ReplicaInv(env.committee, pool, HandleTc(env, r, tc).replica)
    ensures HandleTc(env, r, tc).status != Fail(Panicked)
  {
    TcCheckNotPanicked(env.committee, tc);
    TCCheckExact(env.committee, tc);
    if tc.Valid(env.committee) && tc.round >= r.round {
      AdvanceRoundKeeps(env.committee, pool, r, tc.round);
      ProposeKeeps(env, pool, AdvanceRound(r, tc.round), Some(tc));
    }
  }

  lemma {:induction false} TallyNotPanicked(c: Committee, names: seq<Key>, used: set<Key>, weight: Stake)
    ensures TallyVoters(c, names, used, weight) != Failure(Panicked)
    decreases names
  {
    if names != [] && names[0] !in used && c.StakeOf(names[0]) > 0 {
      TallyNotPanicked(c, names[1..], used + {names[0]}, weight + c.StakeOf(names[0]));
    }
  }

  lemma QcCheckNotPanicked(c: Committee, qc: QC)
    ensures qc.Check(c) != Fail(Panicked)
  {
    TallyNotPanicked(c, Names(qc.votes), {}, 0);
  }

  lemma TcCheckNotPanicked(c: Committee, tc: TC)
    ensures tc.Check(c) != Fail(Panicked)
  {
    TallyNotPanicked(c, Names(tc.votes), {}, 0);
  }

  lemma {:induction false} SignTimeoutKeeps(c: Committee, pool: Pool, r: Replica, timeout: Timeout)
    requires ReplicaInv(c, pool, r)
    requires timeout.highQc == r.highQc && timeout.round == r.round
    ensures var voted := if r.round > r.lastVotedRound then r.round else r.lastVotedRound;
            ReplicaInv(c, pool, r.(lastVotedRound := voted).Send(SignTimeout(timeout)))
  {
    var voted := if r.round > r.lastVotedRound then r.round else r.lastVotedRound;
    var r1 := r.(lastVotedRound := voted).Send(SignTimeout(timeout));
    assert forall e | e in r1.out :: e in r.out || e == SignTimeout(timeout);
    forall e | e in r1.out ensures EffectOk(c, pool, r1.highQc.round, voted, e) {
      assert e in r.out ==> EffectOk(c, pool, r.highQc.round, r.lastVotedRound, e);
    }
    forall b | SignVote(b) in r1.out ensures b.qc.round <= timeout.highQc.round {
      assert SignVote(b) in r.out;
      assert EffectOk(c, pool, r.highQc.round, r.lastVotedRound, SignVote(b));
    }
  }

  lemma GiveUpRoundKeeps(env: Env, pool: Pool, r: Replica)
    requires ReplicaInv(env.committee, pool, r)
    ensures ReplicaInv(env.committee, pool, GiveUpRound(env, r))
  {
    var c, timeout := env.committee, OwnTimeout(env, r);
    var voted := if r.round > r.lastVotedRound then r.round else r.lastVotedRound;
    var r1 := r.(lastVotedRound := voted).Send(SignTimeout(timeout));
    SignTimeoutKeeps(c, pool, r, timeout);
    RewindKeeps(c, pool, r1);
    SendKeeps(c, pool, r1.Rewind(), BroadcastTimeout(timeout));
  }

  lemma RewindKeeps(c: Committee, pool: Pool, r: Replica)
    requires ReplicaInv(c, pool, r)
    ensures ReplicaInv(c, pool, r.Rewind())
  {
  }

  lemma LocalTimeoutKeeps(env: Env, pool: Pool, r: Replica)
    requires env.committee.authorities != map[]
    requires ReplicaInv(env.committee, pool, r)
    requires OwnHeld(env.name, pool, LocalTimeout(env, r).replica.out)
    ensures ReplicaInv(env.committee, pool, LocalTimeout(env, r).replica)
    ensures LocalTimeout(env, r).status != Fail(Panicked)
  {
    var timeout, r2 := OwnTimeout(env, r), GiveUpRound(env, r);
    GiveUpRoundKeeps(env, pool, r);
    HandleTimeoutFrame(env, r2, timeout);
    assert SignTimeout(timeout) in r2.out;
    assert SignedDigest(SignTimeout(timeout)).Some?;
    HandleTimeoutKeeps(env, pool, r2, timeout);
  }

  // ---------- blocks ----------

  lemma {:induction false} WalkFindsAll(c: Committee, pool: Pool, high: Round, blocks: BlockStore, last: Round, block: Block)
    requires StoreInv(c, pool, high, blocks) && ParentOf(blocks, block).Some?
    ensures Walk(blocks, last, block).1 == None
    decreases block != GENESIS, block.BlockDigest()
  {
    if last + 1 < block.round {
      WalkFindsAll(c, pool, high, blocks, last, ParentOf(blocks, block).value);
    }
  }

  lemma CommitBlockKeeps(c: Committee, pool: Pool, r: Replica, block: Block)
    requires ReplicaInv(c, pool, r) && ParentOf(r.blocks, block).Some?
    ensures ReplicaInv(c, pool, CommitBlock(r, block).replica)
    ensures CommitBlock(r, block).status == Pass
    ensures var r' := CommitBlock(r, block).replica;
            r'.round == r.round && r'.highQc == r.highQc && r'.lastVotedRound == r.lastVotedRound
    ensures r.out <= CommitBlock(r, block).replica.out
  {
    WalkFindsAll(c, pool, r.highQc.round, r.blocks, r.lastCommittedRound, block);
    DeliverKeeps(c, pool, r, Walk(r.blocks, r.lastCommittedRound, block).0 + [block]);
  }

  lemma DeliverKeeps(c: Committee, pool: Pool, r: Replica, delivered: seq<Block>)
    requires ReplicaInv(c, pool, r)
    ensures ReplicaInv(c, pool, r.(out := r.out + CommitEffects(delivered)))
  {
    var effects := CommitEffects(delivered);
    forall e | e in effects ensures e.Commit? {
      var i :| 0 <= i < |effects| && effects[i] == e;
    }
    assert forall e | e in r.out + effects :: e in r.out || e in effects;
  }

  lemma StoreBlockKeeps(c: Committee, pool: Pool, r: Replica, block: Block)
    requires ReplicaInv(c, pool, r)
    requires BlockHeld(c, pool, block) && block.qc.round <= r.highQc.round
    requires ParentOf(r.blocks, block).Some?
    ensures ReplicaInv(c, pool, StoreBlock(r, block))
    ensures forall b | ParentOf(r.blocks, b).Some? :: ParentOf(StoreBlock(r, block).blocks, b).Some?
  {
    StaysClosed(c, pool, r.highQc.round, r.blocks, block);
  }

  /** Adding a block whose parent is there keeps the store closed under taking parents. */
  lemma {:induction false} StaysClosed(c: Committee, pool: Pool, high: Round, blocks: BlockStore, block: Block)
    requires StoreInv(c, pool, high, blocks)
    requires BlockHeld(c, pool, block) && block.qc.round <= high && ParentOf(blocks, block).Some?
    ensures StoreInv(c, pool, high, blocks[block.BlockDigest() := block])
    ensures forall b | ParentOf(blocks, b).Some? :: ParentOf(blocks[block.BlockDigest() := block], b).Some?
  {
    var blocks' := blocks[block.BlockDigest() := block];
    assert forall b | ParentOf(blocks, b).Some? :: ParentOf(blocks', b).Some?;
    forall d | d in blocks'
      ensures BlockHeld(c, pool, blocks'[d]) && blocks'[d].qc.round <= high && ParentOf(blocks', blocks'[d]).Some?
    {
      assert blocks'[d] == if d == block.BlockDigest() then block else blocks[d];
      assert d != block.BlockDigest() ==> BlockHeld(c, pool, blocks[d]);
    }
  }

  lemma CommitIfConsecutiveKeeps(c: Committee, pool: Pool, r: Replica, b0: Block, b1: Block)
    requires ReplicaInv(c, pool, r) && ParentOf(r.blocks, b0).Some?
    ensures ReplicaInv(c, pool, CommitIfConsecutive(r, b0, b1).replica)
    ensures CommitIfConsecutive(r, b0, b1).status == Pass
    ensures var r' := CommitIfConsecutive(r, b0, b1).replica;
            r'.round == r.round && r'.highQc == r.highQc && r'.lastVotedRound == r.lastVotedRound
    ensures r.out <= CommitIfConsecutive(r, b0, b1).replica.out
  {
    if b0.round + 1 == b1.round {
      var cleanup := CleanupMempool(b0.round);
      SendKeeps(c, pool, r, cleanup);
      CommitBlockKeeps(c, pool, r.Send(cleanup), b0);
      assert r.out <= r.Send(cleanup).out;
    }
  }

  lemma StoreAndCommitKeeps(c: Committee, pool: Pool, r: Replica, b0: Block, b1: Block, block: Block)
    requires ReplicaInv(c, pool, r)
    requires BlockHeld(c, pool, block) && block.qc.round <= r.highQc.round
    requires ParentOf(r.blocks, block).Some? && ParentOf(r.blocks, b0).Some?
    ensures ReplicaInv(c, pool, StoreAndCommit(r, b0, b1, block).replica)
    ensures StoreAndCommit(r, b0, b1, block).status == Pass
    ensures var r' := StoreAndCommit(r, b0, b1, block).replica;
            r'.round == r.round && r'.highQc == r.highQc && r'.lastVotedRound == r.lastVotedRound
    ensures r.out <= StoreAndCommit(r, b0, b1, block).replica.out
  {
    StoreBlockKeeps(c, pool, r, block);
    var cleanup := CleanupProposer(b0.payload + b1.payload + block.payload);
    SendKeeps(c, pool, StoreBlock(r, block), cleanup);
    CommitIfConsecutiveKeeps(c, pool, StoreBlock(r, block).Send(cleanup), b0, b1);
    assert r.out <= StoreBlock(r, block).Send(cleanup).out;
  }

  lemma {:induction false} VoteForKeeps(env: Env, pool: Pool, r: Replica, block: Block)
    requires env.committee.authorities != map[]
    requires ReplicaInv(env.committee, pool, r)
    requires BlockHeld(env.committee, pool, block) && block.qc.round <= r.highQc.round
    requires OwnHeld(env.name, pool, VoteFor(env, r, block).replica.out)
    ensures ReplicaInv(env.committee, pool, VoteFor(env, r, block).replica)
    ensures VoteFor(env, r, block).status != Fail(Panicked)
  {
    var c := env.committee;
    TcNotEmpty(c, pool, block);
    if block.round == r.round {
      VoteForFrame(env, r, block);
      var (r1, made) := MakeVote(env, r, block);
      if made.Success? && made.value.Some? {
        SignVoteKeeps(c, pool, r, block);
        OwnVoteHeld(env, pool, r1, block, VoteFor(env, r, block).replica.out);
        HandleVoteKeeps(env, pool, r1, made.value.value);
        SendKeeps(c, pool, r1, SendVote(LeaderOf(c, r1.round + 1), made.value.value));
      }
    }
  }

  lemma TcNotEmpty(c: Committee, pool: Pool, block: Block)
    requires BlockHeld(c, pool, block)
    ensures block.tc.Some? ==> block.tc.value.votes != []
  {
    if block.tc.Some? {
      QuorateNotEmpty(c, Names(block.tc.value.votes));
    }
  }

  lemma OwnVoteHeld(env: Env, pool: Pool, r: Replica, block: Block, out: seq<Effect>)
    requires SignVote(block) in r.out && r.out <= out && OwnHeld(env.name, pool, out)
    ensures NewVote(block, env.name).signature in pool
  {
    assert SignVote(block) in out && SignedDigest(SignVote(block)).Some?;
  }

  lemma {:induction false} SignVoteKeeps(c: Committee, pool: Pool, r: Replica, block: Block)
    requires ReplicaInv(c, pool, r)
    requires BlockHeld(c, pool, block) && block.qc.round <= r.highQc.round && block.round == r.round
    requires RuleOne(block, r.lastVotedRound) && RuleTwo(block.qc, block.tc, block.round)
    ensures ReplicaInv(c, pool, r.(lastVotedRound := block.round).Send(SignVote(block)))
  {
    var r1 := r.(lastVotedRound := block.round).Send(SignVote(block));
    assert forall e | e in r1.out :: e in r.out || e == SignVote(block);
    forall e | e in r1.out ensures EffectOk(c, pool, r1.highQc.round, r1.lastVotedRound, e) {
      assert e in r.out ==> EffectOk(c, pool, r.highQc.round, r.lastVotedRound, e);
    }
    forall e | e in r.out && (e.SignVote? || e.SignTimeout?)
      ensures e.SignVote? ==> e.block.round < block.round
      ensures e.SignTimeout? ==> e.timeout.round < block.round
    {
      assert EffectOk(c, pool, r.highQc.round, r.lastVotedRound, e);
    }
  }

  lemma ProcessBlockKeeps(env: Env, pool: Pool, r: Replica, block: Block)
    requires env.committee.authorities != map[]
    requires ReplicaInv(env.committee, pool, r)
    requires BlockHeld(env.committee, pool, block) && block.qc.round <= r.highQc.round
    requires OwnHeld(env.name, pool, ProcessBlock(env, r, block).replica.out)
    ensures ReplicaInv(env.committee, pool, ProcessBlock(env, r, block).replica)
    ensures ProcessBlock(env, r, block).status != Fail(Panicked)
    ensures r.out <= ProcessBlock(env, r, block).replica.out
  {
    var c := env.committee;
    var parent := ParentOf(r.blocks, block);
    if parent.None? {
      SendKeeps(c, pool, r, AwaitParent(block));
    } else {
      var b1 := parent.value;
      assert ParentOf(r.blocks, b1).Some?;
      var b0 := ParentOf(r.blocks, b1).value;
      assert ParentOf(r.blocks, b0).Some?;
      StoreAndCommitKeeps(c, pool, r, b0, b1, block);
      var r1 := StoreAndCommit(r, b0, b1, block).replica;
      VoteForFrame(env, r1, block);
      VoteForKeeps(env, pool, r1, block);
    }
  }

  lemma ProcessCertificatesKeeps(c: Committee, pool: Pool, r: Replica, block: Block)
    requires ReplicaInv(c, pool, r) && BlockHeld(c, pool, block)
    ensures ReplicaInv(c, pool, ProcessCertificates(r, block))
    ensures block.qc.round <= ProcessCertificates(r, block).highQc.round
    ensures ProcessCertificates(r, block).out == r.out
  {
    ProcessQcKeeps(c, pool, r, block.qc);
    if block.tc.Some? {
      AdvanceRoundKeeps(c, pool, ProcessQc(r, block.qc), block.tc.value.round);
    }
  }

  lemma BlockCheckExact(c: Committee, block: Block)
    ensures block.Check(c) != Fail(Panicked)
    ensures block.Check(c).Pass? <==>
              && c.StakeOf(block.author) > 0
              && block.signature.Checks(block.BlockDigest(), block.author)
              && (block.qc.IsGenesis() || block.qc.Valid(c))
              && (block.tc.Some? ==> block.tc.value.Valid(c))
  {
    QCCheckExact(c, block.qc);
    QcCheckNotPanicked(c, block.qc);
    if block.tc.Some? {
      TCCheckExact(c, block.tc.value);
      TcCheckNotPanicked(c, block.tc.value);
    }
  }

  ghost predicate BlockSignaturesHeld(pool: Pool, block: Block) {
    && block.signature in pool
    && VotesHeld(pool, block.qc.votes)
    && (block.tc.Some? ==> ReportsHeld(pool, block.tc.value.votes))
  }

  lemma HandleProposalKeeps(env: Env, pool: Pool, r: Replica, block: Block)
    requires env.committee.authorities != map[]
    requires ReplicaInv(env.committee, pool, r) && BlockSignaturesHeld(pool, block)
    requires OwnHeld(env.name, pool, HandleProposal(env, r, block).replica.out)
    ensures ReplicaInv(env.committee, pool, HandleProposal(env, r, block).replica)
    ensures HandleProposal(env, r, block).status != Fail(Panicked)
  {
    var c := env.committee;
    BlockCheckExact(c, block);
    if block.author == LeaderOf(c, block.round) && block.Check(c).Pass? {
      ProcessCertificatesKeeps(c, pool, r, block);
      var r1 := ProcessCertificates(r, block);
      var missing := Missing(r1.Stored(), block.payload);
      if missing != [] {
        SendKeeps(c, pool, r1, AwaitPayload(missing, block));
      } else {
        ProcessBlockKeeps(env, pool, r1, block);
      }
    }
  }

  // ---------- every step ----------

  lemma BootKeeps(env: Env, pool: Pool)
    requires env.committee.authorities != map[]
    ensures ReplicaInv(env.committee, pool, Boot(env))
  {
    assert ReplicaInv(env.committee, pool, STARTED);
    ProposeKeeps(env, pool, STARTED, None);
  }

  lemma ServeMakeKeeps(env: Env, pool: Pool, r: Replica, payload: seq<Digest>)
    requires ReplicaInv(env.committee, pool, r)
    ensures ReplicaInv(env.committee, pool, ServeMake(env, r, payload))
  {
    var makes, served := Makes(r.out), |Proposals(r.out)|;
    if served < |makes| {
      MakesAreMakes(r.out);
      var make := makes[served];
      assert EffectOk(env.committee, pool, r.highQc.round, r.lastVotedRound, make);
      var block := NewBlock(make.qc, make.proposalTc, env.name, make.round, payload);
      SendKeeps(env.committee, pool, r, Propose(block));
    }
  }

  /** The signatures a message carries all exist, and a looped-back block is one the
      replica itself sent to its proposer, synchronizer or payload waiter. The network's
      receiver hands requests for blocks to a helper and never to the core. */
  ghost predicate EventHeld(pool: Pool, r: Replica, event: Event) {
    match event
    case ReceiveProposal(block) => BlockSignaturesHeld(pool, block)
    case ReceiveVote(vote) => vote.signature in pool
    case ReceiveTimeout(timeout) => timeout.signature in pool && VotesHeld(pool, timeout.highQc.votes)
    case ReceiveTC(tc) => ReportsHeld(pool, tc.votes)
    case ReceiveSyncRequest(_, _) => false
    case Loopback(block) => MayLoopBack(r, block)
    case BatchStored(digest) => digest.OfBatch?
    case _ => true
  }

  lemma LoopbackKeeps(env: Env, pool: Pool, r: Replica, block: Block)
    requires env.committee.authorities != map[]
    requires ReplicaInv(env.committee, pool, r) && MayLoopBack(r, block)
    requires OwnHeld(env.name, pool, ProcessBlock(env, r, block).replica.out)
    ensures ReplicaInv(env.committee, pool, ProcessBlock(env, r, block).replica)
    ensures ProcessBlock(env, r, block).status != Fail(Panicked)
  {
    var e :| e in r.out && LoopsBack(e, block);
    assert EffectOk(env.committee, pool, r.highQc.round, r.lastVotedRound, e);
    ProcessBlockKeeps(env, pool, r, block);
  }

  /** Whatever happens to a replica in a good state, it ends in a good state, and none of
      its handlers panics. */
  lemma ReactKeeps(env: Env, pool: Pool, r: Replica, event: Event)
    requires env.committee.authorities != map[]
    requires ReplicaInv(env.committee, pool, r) && EventHeld(pool, r, event)
    requires OwnHeld(env.name, pool, React(env, r, event).replica.out)
    ensures ReplicaInv(env.committee, pool, React(env, r, event).replica)
    ensures React(env, r, event).status != Fail(Panicked)
  {
    match event
    case ReceiveProposal(block) => HandleProposalKeeps(env, pool, r, block);
    case ReceiveVote(vote) => HandleVoteKeeps(env, pool, r, vote);
    case ReceiveTimeout(timeout) => HandleTimeoutKeeps(env, pool, r, timeout);
    case ReceiveTC(tc) => HandleTcKeeps(env, pool, r, tc);
    case Loopback(block) => LoopbackKeeps(env, pool, r, block);
    case TimerFires => LocalTimeoutKeeps(env, pool, r);
    case ProposerRuns(payload) => ServeMakeKeeps(env, pool, r, payload);
    case BatchStored(digest) =>
  }
}
