/** What a replica's messages, store, commits and timer have to do with one another in every
    state of every run: nothing is signed that is not sent, nothing is sent that is not
    signed, and the commit rule is applied to everything stored. */
module Accounts {
  import opened Config
  import opened Messages
  import opened Aggregation
  import opened Leader
  import opened Handlers
  import opened Frames
  import opened ReplicaInvariant
  import opened System
  import opened Locking
  import opened Outcomes

  // ---------- votes and timeouts ----------

  /** Every signed vote was sent to the leader of the next round, or counted by the replica
      itself if it is that leader. */
  ghost predicate VotesAreSent(env: Env, r: Replica)
    requires env.committee.authorities != map[]
  {
    forall b | SignVote(b) in r.out :: VoteSent(env, r, b)
  }

  /** Every vote sent is one the replica signed, and goes to the next leader. */
  ghost predicate SentVotesAreSigned(env: Env, r: Replica)
    requires env.committee.authorities != map[]
  {
    forall to, v | SendVote(to, v) in r.out :: exists b :: SignVote(b) in r.out && IsVoteFor(env, to, v, b)
  }

  predicate IsVoteFor(env: Env, to: Key, v: Vote, b: Block)
    requires env.committee.authorities != map[]
  {
    v == VoteOf(env.name, b) && to == LeaderOf(env.committee, b.round + 1) && to != env.name
  }

  /** Timeouts are signed and broadcast, all of them, and each is of a round entered. */
  ghost predicate TimeoutsAreSent(r: Replica) {
    forall t :: SignTimeout(t) in r.out <==> BroadcastTimeout(t) in r.out
  }

  ghost predicate TimeoutsAreOwn(env: Env, r: Replica) {
    forall t | SignTimeout(t) in r.out :: t == NewTimeout(t.highQc, t.round, env.name) && t.round <= r.round
  }

  /** A TC is broadcast for rounds left behind only. */
  ghost predicate TCsArePast(r: Replica) {
    forall tc | BroadcastTC(tc) in r.out :: tc.round < r.round
  }

  // ---------- blocks ----------

  /** The parent and the grandparent of `id` are of consecutive rounds. */
  predicate EndsTwoChain(id: Digest) {
    id.OfBlock? && id.parent.OfBlock? && id.parent.round == RoundOf(id.parent.parent) + 1
  }

  /** The round committed last is the highest round of the grandparents of all those stored
      blocks whose parent is of the round right after it. */
  ghost predicate CommitsAll(r: Replica) {
    && (forall id | id in r.blocks && EndsTwoChain(id) :: RoundOf(id.parent.parent) <= r.lastCommittedRound)
    && (r.lastCommittedRound > 0 ==>
          exists id :: id in r.blocks && EndsTwoChain(id) && RoundOf(id.parent.parent) == r.lastCommittedRound)
  }

  /** The mempool was told every round committed last, and no later one. */
  ghost predicate MempoolKnows(r: Replica) {
    && (forall round: Round | CleanupMempool(round) in r.out :: round <= r.lastCommittedRound)
    && (r.lastCommittedRound > 0 ==> CleanupMempool(r.lastCommittedRound) in r.out)
  }

  function PayloadOf(id: Digest): seq<Digest> {
    if id.OfBlock? then id.payload else []
  }

  /** The proposer was told the payloads of the block, its parent and its grandparent, in
      one message. */
  predicate Told(digests: seq<Digest>, id: Digest) {
    && id.OfBlock?
    && (forall x | x in PayloadOf(id) :: x in digests)
    && (forall x | x in PayloadOf(id.parent) :: x in digests)
    && (id.parent.OfBlock? ==> forall x | x in PayloadOf(id.parent.parent) :: x in digests)
  }

  ghost predicate ProposerKnows(r: Replica) {
    forall id | id in r.blocks :: exists digests :: CleanupProposer(digests) in r.out && Told(digests, id)
  }

  ghost predicate OfStored(blocks: BlockStore, digests: seq<Digest>) {
    forall x | x in digests :: exists id | id in blocks :: x in PayloadOf(id)
  }

  /** The proposer was told of nothing but payloads of stored blocks. */
  ghost predicate ProposerToldStored(r: Replica) {
    forall digests | CleanupProposer(digests) in r.out :: OfStored(r.blocks, digests)
  }

  // ---------- the timer ----------

  /** The timer is reset and started together, first of all at boot. */
  predicate WellTimed(log: seq<TimerCall>) {
    && |log| >= 2 && log[0] == Reset
    && (forall i | 0 <= i < |log| && log[i] == Reset :: i + 1 < |log| && log[i + 1] == StartRound)
    && (forall i | 0 <= i < |log| && log[i] == StartRound :: i > 0 && log[i - 1] == Reset)
  }

  lemma TimerGoesOn(log: seq<TimerCall>, entered: bool)
    requires WellTimed(log)
    ensures WellTimed(log + [OnRoundComplete]) && WellTimed(log + REWIND) && WellTimed(log + RewindIf(entered))
  {
    assert forall i | 0 <= i < |log| :: (log + [OnRoundComplete])[i] == log[i] && (log + REWIND)[i] == log[i];
    assert log + [] == log;
  }

  // ---------- all of it ----------

  ghost predicate Sent(env: Env, r: Replica)
    requires env.committee.authorities != map[]
  {
    VotesAreSent(env, r) && SentVotesAreSigned(env, r) && TimeoutsAreSent(r) && TimeoutsAreOwn(env, r) && TCsArePast(r)
  }

  ghost predicate Kept(r: Replica) {
    CommitsAll(r) && MempoolKnows(r) && ProposerKnows(r) && ProposerToldStored(r)
  }

  // ---------- steps that only use certificates ----------

  /** The step sends requests and TCs at most, and forgets no tally but those of rounds it
      leaves behind. */
  ghost predicate Certifies(r: Replica, r': Replica) {
    && r.out <= r'.out
    && (forall e | e in Added(r, r') :: e.Make? || (e.BroadcastTC? && e.tc.round < r'.round))
    && r'.blocks == r.blocks && r'.lastCommittedRound == r.lastCommittedRound && r'.lastVotedRound == r.lastVotedRound
    && r.round <= r'.round
    && (forall k: Round, d | k >= r'.round :: VoteTally(r.tallies, k, d).used <= VoteTally(r'.tallies, k, d).used)
    && (WellTimed(r.timer) ==> WellTimed(r'.timer))
  }

  lemma {:induction false} AdvanceCertifies(r: Replica, round: Round)
    ensures Certifies(r, AdvanceRound(r, round))
  {
    AdvanceExact(r, round);
    if WellTimed(r.timer) {
      TimerGoesOn(r.timer, round >= r.round);
    }
  }

  lemma {:induction false} QcCertifies(r: Replica, qc: QC)
    ensures Certifies(r, ProcessQc(r, qc))
  {
    AdvanceCertifies(r.Sample(), qc.round);
    if WellTimed(r.timer) {
      TimerGoesOn(r.timer, false);
    }
  }

  lemma CertifiesTwice(r: Replica, r1: Replica, r2: Replica)
    requires Certifies(r, r1) && Certifies(r1, r2)
    ensures Certifies(r, r2)
  {
    AddedTwice(r, r1, r2);
  }

  lemma SendCertifies(r: Replica, e: Effect)
    requires e.Make? || (e.BroadcastTC? && e.tc.round < r.round)
    ensures Certifies(r, r.Send(e))
  {
    assert Added(r, r.Send(e)) == [e];
  }

  lemma ProposeCertifies(env: Env, r: Replica, tc: Option<TC>)
    requires env.committee.authorities != map[]
    ensures Certifies(r, ProposeIfLeader(env, r, tc))
  {
    SendCertifies(r, Make(r.round, r.highQc, tc));
  }

  lemma {:induction false} HandleVoteCertifies(env: Env, r: Replica, vote: Vote)
    requires env.committee.authorities != map[]
    ensures Certifies(r, HandleVote(env, r, vote).replica)
  {
    var (tallies, made) := AddVote(env.committee, r.tallies, vote);
    var r1 := r.(tallies := tallies);
    assert Certifies(r, r1);
    if made.Success? && made.value.Some? {
      QcCertifies(r1, made.value.value);
      var r2 := ProcessQc(r1, made.value.value);
      ProposeCertifies(env, r2, None);
      CertifiesTwice(r, r1, r2);
      CertifiesTwice(r, r2, ProposeIfLeader(env, r2, None));
    }
  }

  lemma {:induction false} AdvanceOnTcCertifies(env: Env, r: Replica, tc: TC)
    requires env.committee.authorities != map[]
    ensures Certifies(r, AdvanceOnTc(env, r, tc))
  {
    var r1 := AdvanceRound(r, tc.round);
    var r2 := r1.Send(BroadcastTC(tc));
    AdvanceCertifies(r, tc.round);
    SendCertifies(r1, BroadcastTC(tc));
    ProposeCertifies(env, r2, Some(tc));
    CertifiesTwice(r, r1, r2);
    CertifiesTwice(r, r2, ProposeIfLeader(env, r2, Some(tc)));
  }

  lemma {:induction false} HandleTimeoutCertifies(env: Env, r: Replica, timeout: Timeout)
    requires env.committee.authorities != map[]
    ensures Certifies(r, HandleTimeout(env, r, timeout).replica)
  {
    var r1 := ProcessQc(r, timeout.highQc);
    var (tallies, made) := AddTimeout(env.committee, r1.tallies, timeout);
    var r2 := r1.(tallies := tallies);
    QcCertifies(r, timeout.highQc);
    assert Certifies(r1, r2);
    CertifiesTwice(r, r1, r2);
    if made.Success? && made.value.Some? {
      AdvanceOnTcCertifies(env, r2, made.value.value);
      CertifiesTwice(r, r2, AdvanceOnTc(env, r2, made.value.value));
    }
  }

  lemma HandleTcCertifies(env: Env, r: Replica, tc: TC)
    requires env.committee.authorities != map[]
    ensures Certifies(r, HandleTc(env, r, tc).replica)
  {
    var r1 := AdvanceRound(r, tc.round);
    AdvanceCertifies(r, tc.round);
    ProposeCertifies(env, r1, Some(tc));
    CertifiesTwice(r, r1, ProposeIfLeader(env, r1, Some(tc)));
  }

  lemma CertificatesCertify(r: Replica, block: Block)
    ensures Certifies(r, ProcessCertificates(r, block))
  {
    QcCertifies(r, block.qc);
    if block.tc.Some? {
      AdvanceCertifies(ProcessQc(r, block.qc), block.tc.value.round);
      CertifiesTwice(r, ProcessQc(r, block.qc), ProcessCertificates(r, block));
    }
  }

  // ---------- what such steps keep ----------

  /** The step neither signs nor sends a vote or a timeout. */
  ghost predicate Silent(r: Replica, r': Replica) {
    && r.out <= r'.out
    && (forall e | e in Added(r, r') ::
          !e.SignVote? && !e.SendVote? && !e.SignTimeout? && !e.BroadcastTimeout? && (e.BroadcastTC? ==> e.tc.round < r'.round))
    && r.round <= r'.round
    && (forall k: Round, d | k >= r'.round :: VoteTally(r.tallies, k, d).used <= VoteTally(r'.tallies, k, d).used)
  }

  lemma VoteStaysSent(env: Env, r: Replica, r': Replica, b: Block)
    requires env.committee.authorities != map[] && VoteSent(env, r, b)
    requires r.out <= r'.out && r.round <= r'.round
    requires forall k: Round, d | k >= r'.round :: VoteTally(r.tallies, k, d).used <= VoteTally(r'.tallies, k, d).used
    ensures VoteSent(env, r', b)
  {
  }

  lemma {:induction false} SilentKeepsSent(env: Env, r: Replica, r': Replica)
    requires env.committee.authorities != map[] && Sent(env, r) && Silent(r, r')
    ensures Sent(env, r')
  {
    forall b | SignVote(b) in r'.out ensures VoteSent(env, r', b) {
      InAdded(r, r', SignVote(b));
      VoteStaysSent(env, r, r', b);
    }
    forall to, v | SendVote(to, v) in r'.out ensures exists b :: SignVote(b) in r'.out && IsVoteFor(env, to, v, b) {
      InAdded(r, r', SendVote(to, v));
      var b :| SignVote(b) in r.out && IsVoteFor(env, to, v, b);
      assert SignVote(b) in r'.out;
    }
    forall t ensures SignTimeout(t) in r'.out <==> BroadcastTimeout(t) in r'.out {
      assert SignTimeout(t) in r.out ==> SignTimeout(t) in r'.out;
      assert BroadcastTimeout(t) in r.out ==> BroadcastTimeout(t) in r'.out;
      if SignTimeout(t) in r'.out {
        InAdded(r, r', SignTimeout(t));
      }
      if BroadcastTimeout(t) in r'.out {
        InAdded(r, r', BroadcastTimeout(t));
      }
    }
    forall t | SignTimeout(t) in r'.out ensures t == NewTimeout(t.highQc, t.round, env.name) && t.round <= r'.round {
      InAdded(r, r', SignTimeout(t));
    }
    forall tc | BroadcastTC(tc) in r'.out ensures tc.round < r'.round {
      InAdded(r, r', BroadcastTC(tc));
    }
  }

  /** The step tells neither the mempool nor the proposer what to forget. */
  lemma {:induction false} OthersKeepBlocks(r: Replica, r': Replica)
    requires Kept(r) && r'.blocks == r.blocks && r'.lastCommittedRound == r.lastCommittedRound
    requires r.out <= r'.out && forall e | e in Added(r, r') :: !e.CleanupMempool? && !e.CleanupProposer?
    ensures Kept(r')
  {
    forall round: Round | CleanupMempool(round) in r'.out ensures round <= r'.lastCommittedRound {
      InAdded(r, r', CleanupMempool(round));
    }
    forall id | id in r'.blocks ensures exists digests :: CleanupProposer(digests) in r'.out && Told(digests, id) {
      var digests :| CleanupProposer(digests) in r.out && Told(digests, id);
      assert CleanupProposer(digests) in r'.out;
    }
    forall digests | CleanupProposer(digests) in r'.out ensures OfStored(r'.blocks, digests) {
      InAdded(r, r', CleanupProposer(digests));
    }
  }

  // ---------- the alarm ----------

  lemma {:induction false} GiveUpKeepsSent(env: Env, r: Replica)
    requires env.committee.authorities != map[] && Sent(env, r)
    ensures Sent(env, GiveUpRound(env, r))
  {
    var t0, r' := OwnTimeout(env, r), GiveUpRound(env, r);
    assert r'.out == r.out + [SignTimeout(t0), BroadcastTimeout(t0)];
    assert forall e :: e in r'.out <==> e in r.out || e == SignTimeout(t0) || e == BroadcastTimeout(t0);
    forall b | SignVote(b) in r'.out ensures VoteSent(env, r', b) {
      VoteStaysSent(env, r, r', b);
    }
    forall to, v | SendVote(to, v) in r'.out ensures exists b :: SignVote(b) in r'.out && IsVoteFor(env, to, v, b) {
      var b :| SignVote(b) in r.out && IsVoteFor(env, to, v, b);
      assert SignVote(b) in r'.out;
    }
  }

  // ---------- votes ----------

  lemma {:induction false} CastEffects(env: Env, r: Replica, block: Block, e: Effect)
    requires env.committee.authorities != map[] && VoteFor(env, r, block).status != Fail(Panicked)
    ensures var r' := VoteFor(env, r, block).replica;
            var next := LeaderOf(env.committee, block.round + 1);
            && r.out <= r'.out
            && (e in r'.out ==>
                  || e in r.out || e.Make? || (e.BroadcastTC? && e.tc.round < r'.round)
                  || (e == SignVote(block) && Voted(r.round, r.lastVotedRound, block))
                  || (e == SendVote(next, VoteOf(env.name, block)) && next != env.name && SignVote(block) in r'.out))
  {
    if block.round == r.round {
      VoteForOutcome(env, r, block);
      var r1 := Cast(r, block);
      HandleVoteCertifies(env, r1, VoteOf(env.name, block));
      if e in HandleVote(env, r1, VoteOf(env.name, block)).replica.out {
        InAdded(r1, HandleVote(env, r1, VoteOf(env.name, block)).replica, e);
      }
    }
  }

  lemma {:induction false} VoteForGrows(env: Env, r: Replica, block: Block)
    requires env.committee.authorities != map[] && VoteFor(env, r, block).status != Fail(Panicked)
    ensures var r' := VoteFor(env, r, block).replica;
            && r.out <= r'.out && r.round <= r'.round && r'.blocks == r.blocks && r'.lastCommittedRound == r.lastCommittedRound
            && (forall k: Round, d | k >= r'.round :: VoteTally(r.tallies, k, d).used <= VoteTally(r'.tallies, k, d).used)
            && (WellTimed(r.timer) ==> WellTimed(r'.timer))
  {
    if block.round == r.round {
      VoteForOutcome(env, r, block);
      HandleVoteCertifies(env, Cast(r, block), VoteOf(env.name, block));
    }
  }

  lemma {:induction false} VoteForKeepsSent(env: Env, r: Replica, block: Block)
    requires env.committee.authorities != map[] && VoteFor(env, r, block).status != Fail(Panicked)
    requires GoodTallies(env.committee, r.tallies) && r.highQc.round < r.round
    requires Sent(env, r)
    ensures Sent(env, VoteFor(env, r, block).replica)
  {
    var r' := VoteFor(env, r, block).replica;
    VoteForGrows(env, r, block);
    VoteForGoes(env, r, block);
    forall b | SignVote(b) in r'.out ensures VoteSent(env, r', b) {
      CastEffects(env, r, block, SignVote(b));
      if SignVote(b) in r.out {
        VoteStaysSent(env, r, r', b);
      }
    }
    forall to, v | SendVote(to, v) in r'.out ensures exists b :: SignVote(b) in r'.out && IsVoteFor(env, to, v, b) {
      CastEffects(env, r, block, SendVote(to, v));
      if SendVote(to, v) in r.out {
        var b :| SignVote(b) in r.out && IsVoteFor(env, to, v, b);
        assert SignVote(b) in r'.out;
      } else {
        assert SignVote(block) in r'.out && IsVoteFor(env, to, v, block);
      }
    }
    VoteForKeepsTimeouts(env, r, block);
  }

  lemma {:induction false} VoteForKeepsTimeouts(env: Env, r: Replica, block: Block)
    requires env.committee.authorities != map[] && VoteFor(env, r, block).status != Fail(Panicked)
    requires TimeoutsAreSent(r) && TimeoutsAreOwn(env, r) && TCsArePast(r)
    ensures var r' := VoteFor(env, r, block).replica; TimeoutsAreSent(r') && TimeoutsAreOwn(env, r') && TCsArePast(r')
  {
    var r' := VoteFor(env, r, block).replica;
    VoteForGrows(env, r, block);
    forall t ensures SignTimeout(t) in r'.out <==> BroadcastTimeout(t) in r'.out {
      CastEffects(env, r, block, SignTimeout(t));
      CastEffects(env, r, block, BroadcastTimeout(t));
      assert SignTimeout(t) in r.out ==> SignTimeout(t) in r'.out;
      assert BroadcastTimeout(t) in r.out ==> BroadcastTimeout(t) in r'.out;
    }
    forall t | SignTimeout(t) in r'.out ensures t == NewTimeout(t.highQc, t.round, env.name) && t.round <= r'.round {
      CastEffects(env, r, block, SignTimeout(t));
    }
    forall tc | BroadcastTC(tc) in r'.out ensures tc.round < r'.round {
      CastEffects(env, r, block, BroadcastTC(tc));
    }
  }

  // ---------- storing and committing ----------

  /** The digest of a placed block tells the rounds and payloads of its ancestors. */
  lemma FamilyIds(blocks: BlockStore, block: Block) returns (b0: Block, b1: Block)
    requires Placed(blocks, block)
    ensures ParentOf(blocks, block) == Some(b1) && ParentOf(blocks, b1) == Some(b0)
    ensures var id := block.BlockDigest();
            && (EndsTwoChain(id) <==> b0.round + 1 == b1.round)
            && (EndsTwoChain(id) ==> RoundOf(id.parent.parent) == b0.round)
            && PayloadOf(id) == block.payload && PayloadOf(id.parent) == b1.payload
            && (id.parent.OfBlock? ==> PayloadOf(id.parent.parent) == b0.payload)
    ensures b1.payload == [] || b1.BlockDigest() in blocks
    ensures b0.payload == [] || b0.BlockDigest() in blocks
  {
    b1 := ParentOf(blocks, block).value;
    b0 := ParentOf(blocks, b1).value;
  }

  /** The effects of storing a placed block. */
  lemma {:induction false} StoredEffects(r: Replica, block: Block, b0: Block, b1: Block, e: Effect)
    requires StoreAndCommit(r, b0, b1, block).status == Pass
    ensures var r' := StoreAndCommit(r, b0, b1, block).replica;
            && r.out <= r'.out
            && (e in r'.out <==>
                  || e in r.out || e == CleanupProposer(b0.payload + b1.payload + block.payload)
                  || (b0.round + 1 == b1.round && e == CleanupMempool(b0.round))
                  || (e.Commit? && e in r'.out))
  {
    var delivered := CommitOutcome(r, b0, b1, block);
    CommitEffectsCommit(delivered);
  }

  lemma {:induction false} StoringKeepsCommits(r: Replica, block: Block, b0: Block, b1: Block)
    requires Placed(r.blocks, block) && ParentOf(r.blocks, block) == Some(b1) && ParentOf(r.blocks, b1) == Some(b0)
    requires StoreAndCommit(r, b0, b1, block).status == Pass && CommitsAll(r) && MempoolKnows(r)
    ensures CommitsAll(StoreAndCommit(r, b0, b1, block).replica) && MempoolKnows(StoreAndCommit(r, b0, b1, block).replica)
  {
    var r', id := StoreAndCommit(r, b0, b1, block).replica, block.BlockDigest();
    var delivered := CommitOutcome(r, b0, b1, block);
    var x0, x1 := FamilyIds(r.blocks, block);
    assert r'.blocks.Keys == r.blocks.Keys + {id};
    if r'.lastCommittedRound > 0 {
      if r'.lastCommittedRound == r.lastCommittedRound {
        var last :| last in r.blocks && EndsTwoChain(last) && RoundOf(last.parent.parent) == r.lastCommittedRound;
        assert last in r'.blocks;
      } else {
        assert id in r'.blocks && EndsTwoChain(id) && RoundOf(id.parent.parent) == r'.lastCommittedRound;
      }
      StoredEffects(r, block, b0, b1, CleanupMempool(r'.lastCommittedRound));
    }
    forall round: Round | CleanupMempool(round) in r'.out ensures round <= r'.lastCommittedRound {
      StoredEffects(r, block, b0, b1, CleanupMempool(round));
    }
  }

  lemma {:induction false} StoringKeepsPayloads(r: Replica, block: Block, b0: Block, b1: Block)
    requires Placed(r.blocks, block) && ParentOf(r.blocks, block) == Some(b1) && ParentOf(r.blocks, b1) == Some(b0)
    requires StoreAndCommit(r, b0, b1, block).status == Pass && ProposerKnows(r) && ProposerToldStored(r)
    ensures ProposerKnows(StoreAndCommit(r, b0, b1, block).replica) && ProposerToldStored(StoreAndCommit(r, b0, b1, block).replica)
  {
    var r', added := StoreAndCommit(r, b0, b1, block).replica, block.BlockDigest();
    var told := b0.payload + b1.payload + block.payload;
    var delivered := CommitOutcome(r, b0, b1, block);
    var x0, x1 := FamilyIds(r.blocks, block);
    StoredEffects(r, block, b0, b1, CleanupProposer(told));
    forall id | id in r'.blocks ensures exists digests :: CleanupProposer(digests) in r'.out && Told(digests, id) {
      if id == added {
        assert Told(told, added);
      } else {
        var digests :| CleanupProposer(digests) in r.out && Told(digests, id);
        assert CleanupProposer(digests) in r'.out;
      }
    }
    forall digests | CleanupProposer(digests) in r'.out ensures OfStored(r'.blocks, digests) {
      StoredEffects(r, block, b0, b1, CleanupProposer(digests));
      if CleanupProposer(digests) in r.out {
        OfStoredMore(r.blocks, r'.blocks, digests);
      } else {
        ToldOfStored(r'.blocks, b0, b1, block);
      }
    }
  }

  lemma OfStoredMore(blocks: BlockStore, blocks': BlockStore, digests: seq<Digest>)
    requires blocks.Keys <= blocks'.Keys && OfStored(blocks, digests)
    ensures OfStored(blocks', digests)
  {
    forall x | x in digests ensures exists id | id in blocks' :: x in PayloadOf(id) {
      var id :| id in blocks && x in PayloadOf(id);
      assert id in blocks';
    }
  }

  lemma ToldOfStored(blocks: BlockStore, b0: Block, b1: Block, block: Block)
    requires forall b | b == b0 || b == b1 || b == block :: b.payload == [] || b.BlockDigest() in blocks
    ensures OfStored(blocks, b0.payload + b1.payload + block.payload)
  {
    forall x | x in b0.payload + b1.payload + block.payload ensures exists id | id in blocks :: x in PayloadOf(id) {
      var b := if x in b0.payload then b0 else if x in b1.payload then b1 else block;
      assert x in PayloadOf(b.BlockDigest()) && b.BlockDigest() in blocks;
    }
  }

  lemma {:induction false} StoringIsSilent(r: Replica, block: Block, b0: Block, b1: Block)
    requires StoreAndCommit(r, b0, b1, block).status == Pass
    ensures Silent(r, StoreAndCommit(r, b0, b1, block).replica)
  {
    var r' := StoreAndCommit(r, b0, b1, block).replica;
    var delivered := CommitOutcome(r, b0, b1, block);
    CommitEffectsCommit(delivered);
    StoreAndCommitFrame(r, b0, b1, block);
    assert Added(r, r') == [CleanupProposer(b0.payload + b1.payload + block.payload)]
                           + (if b0.round + 1 == b1.round then [CleanupMempool(b0.round)] else []) + CommitEffects(delivered);
  }

  // ---------- handling a block ----------

  lemma {:induction false} VoteForKeepsKept(env: Env, r: Replica, block: Block)
    requires env.committee.authorities != map[] && VoteFor(env, r, block).status != Fail(Panicked)
    requires Kept(r)
    ensures Kept(VoteFor(env, r, block).replica)
  {
    var r' := VoteFor(env, r, block).replica;
    VoteForGrows(env, r, block);
    VoteForFrame(env, r, block);
    forall e | e in Added(r, r') ensures !e.CleanupMempool? && !e.CleanupProposer? {
      AddedByVoting(env, r, block, e);
    }
    OthersKeepBlocks(r, r');
  }

  lemma {:induction false} AddedByVoting(env: Env, r: Replica, block: Block, e: Effect)
    requires env.committee.authorities != map[] && VoteFor(env, r, block).status != Fail(Panicked)
    requires r.out <= VoteFor(env, r, block).replica.out && e in Added(r, VoteFor(env, r, block).replica)
    ensures e.Make? || e.BroadcastTC? || e.SignVote? || e.SendVote?
  {
    if block.round == r.round {
      VoteForOutcome(env, r, block);
      var r1 := Cast(r, block);
      var r2 := HandleVote(env, r1, VoteOf(env.name, block)).replica;
      HandleVoteCertifies(env, r1, VoteOf(env.name, block));
      assert Added(r, r1) == [SignVote(block)];
      AddedTwice(r, r1, r2);
    }
  }

  /** Everything accounted for here. */
  ghost predicate Accounted(env: Env, r: Replica)
    requires env.committee.authorities != map[]
  {
    Sent(env, r) && Kept(r) && WellTimed(r.timer)
  }

  lemma {:induction false} StoringKeeps(env: Env, r: Replica, block: Block, b0: Block, b1: Block)
    requires env.committee.authorities != map[] && Accounted(env, r)
    requires Placed(r.blocks, block) && ParentOf(r.blocks, block) == Some(b1) && ParentOf(r.blocks, b1) == Some(b0)
    requires StoreAndCommit(r, b0, b1, block).status == Pass
    ensures Accounted(env, StoreAndCommit(r, b0, b1, block).replica)
  {
    StoringKeepsCommits(r, block, b0, b1);
    StoringKeepsPayloads(r, block, b0, b1);
    StoringIsSilent(r, block, b0, b1);
    SilentKeepsSent(env, r, StoreAndCommit(r, b0, b1, block).replica);
    var delivered := CommitOutcome(r, b0, b1, block);
  }

  lemma {:induction false} VotingKeeps(env: Env, r: Replica, block: Block)
    requires env.committee.authorities != map[] && VoteFor(env, r, block).status != Fail(Panicked)
    requires GoodTallies(env.committee, r.tallies) && r.highQc.round < r.round
    requires Accounted(env, r)
    ensures Accounted(env, VoteFor(env, r, block).replica)
  {
    VoteForKeepsSent(env, r, block);
    VoteForKeepsKept(env, r, block);
    VoteForGrows(env, r, block);
  }

  /** A block that is suspended or proposed. */
  lemma {:induction false} SendKeepsAccounts(env: Env, r: Replica, e: Effect)
    requires env.committee.authorities != map[] && Accounted(env, r)
    requires e.AwaitParent? || e.AwaitPayload? || e.Propose?
    ensures Accounted(env, r.Send(e))
  {
    assert Added(r, r.Send(e)) == [e];
    SilentKeepsSent(env, r, r.Send(e));
    OthersKeepBlocks(r, r.Send(e));
  }

  lemma {:induction false} ProcessSplits(env: Env, r: Replica, block: Block) returns (b0: Block, b1: Block)
    requires env.committee.authorities != map[] && ProcessBlock(env, r, block).status != Fail(Panicked)
    requires Placed(r.blocks, block)
    ensures ParentOf(r.blocks, block) == Some(b1) && ParentOf(r.blocks, b1) == Some(b0)
    ensures var step := StoreAndCommit(r, b0, b1, block);
            && step.status == Pass && step.replica.tallies == r.tallies
            && step.replica.round == r.round && step.replica.highQc == r.highQc
            && ProcessBlock(env, r, block) == VoteFor(env, step.replica, block)
  {
    b0, b1 := FamilyIds(r.blocks, block);
    StoreStatus(r, b0, b1, block);
    var delivered := CommitOutcome(r, b0, b1, block);
  }

  lemma {:induction false} ProcessKeepsAccounts(env: Env, r: Replica, block: Block)
    requires env.committee.authorities != map[] && ProcessBlock(env, r, block).status != Fail(Panicked)
    requires GoodTallies(env.committee, r.tallies) && r.highQc.round < r.round
    requires Accounted(env, r)
    ensures Accounted(env, ProcessBlock(env, r, block).replica)
  {
    if Placed(r.blocks, block) {
      var b0, b1 := ProcessSplits(env, r, block);
      StoringKeeps(env, r, block, b0, b1);
      VotingKeeps(env, StoreAndCommit(r, b0, b1, block).replica, block);
    } else {
      var r1 := ProcessOutcome(env, r, block);
      SendKeepsAccounts(env, r, AwaitParent(block));
    }
  }

  lemma {:induction false} CertifiesKeepsAccounts(env: Env, r: Replica, r': Replica)
    requires env.committee.authorities != map[] && Accounted(env, r) && Certifies(r, r')
    ensures Accounted(env, r')
  {
    SilentKeepsSent(env, r, r');
    OthersKeepBlocks(r, r');
  }

  lemma {:induction false} ProposalKeepsAccounts(env: Env, pool: Pool, r: Replica, block: Block)
    requires env.committee.authorities != map[] && ReplicaInv(env.committee, pool, r)
    requires HandleProposal(env, r, block).status != Fail(Panicked) && Accounted(env, r)
    ensures Accounted(env, HandleProposal(env, r, block).replica)
  {
    var r1 := ProposalSplits(env, r, block);
    if WellFormed(env.committee, block) {
      CertificatesCertify(r, block);
      CertifiesKeepsAccounts(env, r, r1);
      CertificatesKeepGood(env.committee, pool, r, block);
      if PayloadStored(r, block) {
        ProcessKeepsAccounts(env, r1, block);
      } else {
        SendKeepsAccounts(env, r1, AwaitPayload(Missing(r.Stored(), block.payload), block));
      }
    }
  }

  lemma {:induction false} AlarmKeepsAccounts(env: Env, r: Replica)
    requires env.committee.authorities != map[] && Accounted(env, r)
    ensures Accounted(env, LocalTimeout(env, r).replica)
  {
    var r1 := GiveUpRound(env, r);
    GiveUpKeepsSent(env, r);
    assert Added(r, r1) == [SignTimeout(OwnTimeout(env, r)), BroadcastTimeout(OwnTimeout(env, r))];
    OthersKeepBlocks(r, r1);
    TimerGoesOn(r.timer, true);
    HandleTimeoutCertifies(env, r1, OwnTimeout(env, r));
    CertifiesKeepsAccounts(env, r1, LocalTimeout(env, r).replica);
  }

  lemma {:induction false} ReactKeepsAccounts(env: Env, pool: Pool, r: Replica, event: Event)
    requires env.committee.authorities != map[] && ReplicaInv(env.committee, pool, r)
    requires React(env, r, event).status != Fail(Panicked) && Accounted(env, r)
    ensures Accounted(env, React(env, r, event).replica)
  {
    var r' := React(env, r, event).replica;
    match event
    case ReceiveProposal(block) => ProposalKeepsAccounts(env, pool, r, block);
    case ReceiveVote(vote) =>
      HandleVoteCertifies(env, r, vote);
      CertifiesKeepsAccounts(env, r, r');
    case ReceiveTimeout(timeout) =>
      HandleTimeoutCertifies(env, r, timeout);
      CertifiesKeepsAccounts(env, r, r');
    case ReceiveTC(tc) =>
      HandleTcCertifies(env, r, tc);
      CertifiesKeepsAccounts(env, r, r');
    case Loopback(block) =>
      TalliesAreGood(env.committee, pool, r);
      ProcessKeepsAccounts(env, r, block);
    case TimerFires => AlarmKeepsAccounts(env, r);
    case ProposerRuns(payload) =>
      OnlyProposes(env, r, payload);
      if r' != r {
        SendKeepsAccounts(env, r, r'.out[|r.out|]);
      }
    case BatchStored(digest) => AccountsIgnoreBatches(env, r, digest);
  }

  lemma {:induction false} AccountsIgnoreBatches(env: Env, r: Replica, digest: Digest)
    requires env.committee.authorities != map[] && Accounted(env, r)
    ensures Accounted(env, r.(batches := r.batches + {digest}))
  {
    var r' := r.(batches := r.batches + {digest});
    assert Added(r, r') == [];
    SilentKeepsSent(env, r, r');
    OthersKeepBlocks(r, r');
  }

  lemma {:induction false} BootIsAccounted(env: Env)
    requires env.committee.authorities != map[]
    ensures Accounted(env, Boot(env))
  {
    assert STARTED.timer == [Reset, StartRound] && STARTED.out == [];
    assert Accounted(env, STARTED);
    ProposeCertifies(env, STARTED, None);
    CertifiesKeepsAccounts(env, STARTED, Boot(env));
  }

  // ---------- whole runs ----------

  ghost predicate AllAccounted(c: Committee, s: System)
    requires c.authorities != map[]
  {
    forall k | k in s :: Accounted(Env(k, c), s[k])
  }

  lemma {:induction false} StepAccounted(c: Committee, s: System, k: Key, event: Event)
    requires c.authorities != map[] && SystemInv(c, s) && k in s && Accounted(Env(k, c), s[k])
    requires React(Env(k, c), s[k], event).status != Fail(Panicked)
    ensures Accounted(Env(k, c), React(Env(k, c), s[k], event).replica)
  {
    assert ReplicaInv(c, PoolOf(s), s[k]);
    ReactKeepsAccounts(Env(k, c), PoolOf(s), s[k], event);
  }

  lemma {:induction false} NextAccounted(c: Committee, s: System, s': System)
    requires c.authorities != map[] && SystemInv(c, s) && AllAccounted(c, s) && Next(c, s, s')
    ensures AllAccounted(c, s')
  {
    var k, event :| StepBy(c, s, s', k, event);
    StepKeeps(c, s, s', k, event);
    StepAccounted(c, s, k, event);
    OneMoved(c, s, k, s'[k]);
  }

  lemma {:induction false} OneMoved(c: Committee, s: System, k: Key, r: Replica)
    requires c.authorities != map[] && AllAccounted(c, s) && k in s && Accounted(Env(k, c), r)
    ensures AllAccounted(c, s[k := r])
  {
    forall j | j in s ensures Accounted(Env(j, c), s[k := r][j]) {
      if j != k {
        assert Accounted(Env(j, c), s[j]);
      }
    }
  }

  lemma {:induction false} InitAccounted(c: Committee, honest: set<Key>, s: System)
    requires c.authorities != map[] && Init(c, honest, s)
    ensures AllAccounted(c, s)
  {
    forall k | k in s ensures Accounted(Env(k, c), s[k]) {
      BootIsAccounted(Env(k, c));
    }
  }

  ghost predicate InOrder(c: Committee, s: System)
    requires c.authorities != map[]
  {
    SystemInv(c, s) && AllAccounted(c, s)
  }

  lemma {:induction false} AccountsGoOn(c: Committee, s: System, s': System)
    requires c.authorities != map[] && InOrder(c, s) && Next(c, s, s')
    ensures InOrder(c, s')
  {
    NextKeeps(c, s, s');
    NextAccounted(c, s, s');
  }

  lemma {:induction false} AccountsStart(c: Committee, honest: set<Key>, s: System)
    requires c.authorities != map[] && Init(c, honest, s)
    ensures InOrder(c, s)
  {
    InitKeeps(c, honest, s);
    InitAccounted(c, honest, s);
  }

  lemma {:induction false} RunAccounted(c: Committee, honest: set<Key>, run: seq<System>, i: nat)
    requires Setting(c, honest) && IsRun(c, honest, run) && i < |run|
    ensures InOrder(c, run[i])
    decreases i
  {
    if i == 0 {
      AccountsStart(c, honest, run[0]);
    } else {
      RunAccounted(c, honest, run, i - 1);
      StepOfRun(c, honest, run, i);
      AccountsGoOn(c, run[i - 1], run[i]);
    }
  }

  lemma AccountOf(c: Committee, honest: set<Key>, run: seq<System>, i: nat, k: Key)
    requires Setting(c, honest) && IsRun(c, honest, run) && i < |run| && k in run[i]
    ensures ReplicaInv(c, PoolOf(run[i]), run[i][k]) && Accounted(Env(k, c), run[i][k])
  {
    RunAccounted(c, honest, run, i);
  }

  /** No honest replica keeps a signed vote to itself: it was sent to the leader of the next
      round, or, if that is the replica, counted by it, unless that round is over. */
  lemma SignedVotesAreSent(c: Committee, honest: set<Key>, run: seq<System>, i: nat, k: Key, b: Block)
    requires Setting(c, honest) && IsRun(c, honest, run) && i < |run| && k in run[i] && c.StakeOf(k) > 0
    requires SignVote(b) in run[i][k].out
    ensures var (r, next, digest) := (run[i][k], LeaderOf(c, b.round + 1), OfVote(b.BlockDigest(), b.round));
            if next != k then SendVote(next, Vote(b.BlockDigest(), b.round, k, Signed(k, digest))) in r.out
            else r.round > b.round || k in VoteTally(r.tallies, b.round, digest).used
  {
    AccountOf(c, honest, run, i, k);
  }

  /** Every vote an honest replica sends is one it signed, it is well signed, and goes to the
      leader of the next round, another replica. */
  lemma SentVotesWereSigned(c: Committee, honest: set<Key>, run: seq<System>, i: nat, k: Key, to: Key, v: Vote)
    requires Setting(c, honest) && IsRun(c, honest, run) && i < |run| && k in run[i] && c.StakeOf(k) > 0
    requires SendVote(to, v) in run[i][k].out
    ensures to == LeaderOf(c, v.round + 1) && to != k && v.author == k && v.Check(c).Pass?
    ensures exists b :: SignVote(b) in run[i][k].out && b.BlockDigest() == v.hash && b.round == v.round
  {
    AccountOf(c, honest, run, i, k);
    var b :| SignVote(b) in run[i][k].out && IsVoteFor(Env(k, c), to, v, b);
  }

  /** An honest replica broadcasts exactly the timeouts it signs, and each passes the checks
      of every other replica. */
  lemma TimeoutsAreBroadcast(c: Committee, honest: set<Key>, run: seq<System>, i: nat, k: Key, t: Timeout)
    requires Setting(c, honest) && IsRun(c, honest, run) && i < |run| && k in run[i] && c.StakeOf(k) > 0
    ensures var r := run[i][k];
            && (SignTimeout(t) in r.out <==> BroadcastTimeout(t) in r.out)
            && (SignTimeout(t) in r.out ==> t.author == k && t.round <= r.round && t.Check(c).Pass?)
  {
    AccountOf(c, honest, run, i, k);
    var r := run[i][k];
    if SignTimeout(t) in r.out {
      assert EffectOk(c, PoolOf(run[i]), r.highQc.round, r.lastVotedRound, BroadcastTimeout(t));
      QCCheckExact(c, t.highQc);
    }
  }

  /** Every TC an honest replica broadcasts is valid, and of a round it has left. */
  lemma BroadcastTCsAreValid(c: Committee, honest: set<Key>, run: seq<System>, i: nat, k: Key, tc: TC)
    requires Setting(c, honest) && IsRun(c, honest, run) && i < |run| && k in run[i]
    requires BroadcastTC(tc) in run[i][k].out
    ensures tc.Check(c).Pass? && tc.round < run[i][k].round
  {
    AccountOf(c, honest, run, i, k);
    var r := run[i][k];
    assert EffectOk(c, PoolOf(run[i]), r.highQc.round, r.lastVotedRound, BroadcastTC(tc));
    TCCheckExact(c, tc);
  }

  /** The commit rule is applied to everything stored, and nothing else: the round committed
      last is the highest among the grandparents of stored blocks whose parent is of the
      very next round, and 0 if there are none. */
  lemma LastCommittedExactly(c: Committee, honest: set<Key>, run: seq<System>, i: nat, k: Key, n: Round)
    requires Setting(c, honest) && IsRun(c, honest, run) && i < |run| && k in run[i]
    ensures var r := run[i][k];
            r.lastCommittedRound <= n <==>
              forall id | id in r.blocks && EndsTwoChain(id) :: RoundOf(id.parent.parent) <= n
  {
    AccountOf(c, honest, run, i, k);
  }

  /** The mempool is told to clean up to the round committed last, and never further. */
  lemma MempoolFollowsCommits(c: Committee, honest: set<Key>, run: seq<System>, i: nat, k: Key)
    requires Setting(c, honest) && IsRun(c, honest, run) && i < |run| && k in run[i]
    ensures var r := run[i][k];
            && (r.lastCommittedRound > 0 ==> CleanupMempool(r.lastCommittedRound) in r.out)
            && forall round: Round | CleanupMempool(round) in r.out :: round <= r.lastCommittedRound
  {
    AccountOf(c, honest, run, i, k);
  }

  /** The proposer is told to drop a digest iff it is in the payload of a stored block. */
  lemma ProposerDropsStored(c: Committee, honest: set<Key>, run: seq<System>, i: nat, k: Key, x: Digest)
    requires Setting(c, honest) && IsRun(c, honest, run) && i < |run| && k in run[i]
    ensures var r := run[i][k];
            (exists digests | CleanupProposer(digests) in r.out :: x in digests) <==>
            exists id | id in r.blocks :: x in PayloadOf(id)
  {
    AccountOf(c, honest, run, i, k);
    var r := run[i][k];
    if digests :| CleanupProposer(digests) in r.out && x in digests {
      assert OfStored(r.blocks, digests);
    }
    if id :| id in r.blocks && x in PayloadOf(id) {
      var digests :| CleanupProposer(digests) in r.out && Told(digests, id);
      assert x in digests;
    }
  }

  /** Every sample the timer takes is of a round it was started for. */
  lemma SamplesFollowStarts(c: Committee, honest: set<Key>, run: seq<System>, i: nat, k: Key, n: nat)
    requires Setting(c, honest) && IsRun(c, honest, run) && i < |run| && k in run[i]
    requires n < |run[i][k].timer| && run[i][k].timer[n] == OnRoundComplete
    ensures exists m :: 0 <= m < n && run[i][k].timer[m] == StartRound
  {
    AccountOf(c, honest, run, i, k);
    assert run[i][k].timer[1] == StartRound;
  }

  // ---------- every event of every run ----------

  /** What the lemmas about single events ask of a replica holds in every state of a run. */
  lemma OutcomesApply(c: Committee, honest: set<Key>, run: seq<System>, i: nat, k: Key)
    requires Setting(c, honest) && IsRun(c, honest, run) && i < |run| && k in run[i]
    ensures var r := run[i][k];
            GoodTallies(c, r.tallies) && r.highQc.round < r.round && (r.highQc.IsGenesis() || r.highQc.Valid(c))
  {
    RunKeeps(c, honest, run, i);
    assert ReplicaInv(c, PoolOf(run[i]), run[i][k]);
    TalliesAreGood(c, PoolOf(run[i]), run[i][k]);
  }

  /** In every state of every run, whatever happens next: the replica signs a vote for a block
      exactly if it gets the block, well formed and with its payload, or gets it back from
      one of its components; if both ancestors are stored, the block is of the round the
      replica is in once it has used the block's certificates, and the two rules allow it. */
  lemma VotesExactlyWhenDue(c: Committee, honest: set<Key>, run: seq<System>, i: nat, k: Key, event: Event, b: Block)
    requires Setting(c, honest) && IsRun(c, honest, run) && i < |run|
    requires k in run[i] && EventHeld(PoolOf(run[i]), run[i][k], event)
    ensures var (r, r') := (run[i][k], React(Env(k, c), run[i][k], event).replica);
            r.out <= r'.out && (SignVote(b) in Added(r, r') <==> VotesOn(Env(k, c), r, event, b))
  {
    NoPanic(c, honest, run, i, k, event);
    VoteCastExactly(Env(k, c), run[i][k], event, b);
  }

  /** The replica is past the rounds of both certificates, and no further than they lead, but
      for a QC it made with its own vote. */
  predicate Advanced(env: Env, r: Replica, b: Block, r': Replica)
    requires env.committee.authorities != map[]
  {
    && r'.round >= r.round && r'.round >= b.qc.round + 1
    && (b.tc.Some? ==> r'.round >= b.tc.value.round + 1)
    && (r'.round == r.round || r'.round == b.qc.round + 1 || (b.tc.Some? && r'.round == b.tc.value.round + 1)
        || (r'.round == b.round + 1 && LeaderOf(env.committee, b.round + 1) == env.name && r'.lastVotedRound == b.round))
  }

  lemma {:induction false} ProposalAdvances(env: Env, pool: Pool, r: Replica, b: Block)
    requires env.committee.authorities != map[] && ReplicaInv(env.committee, pool, r)
    requires HandleProposal(env, r, b).status != Fail(Panicked) && WellFormed(env.committee, b)
    ensures Advanced(env, r, b, HandleProposal(env, r, b).replica)
  {
    ProposalRound(env, pool, r, b);
  }

  /** In every state of every run a well-formed proposal takes the replica at once to the
      highest round its certificates allow. */
  lemma ProposalsAdvance(c: Committee, honest: set<Key>, run: seq<System>, i: nat, k: Key, b: Block)
    requires Setting(c, honest) && IsRun(c, honest, run) && i < |run|
    requires k in run[i] && EventHeld(PoolOf(run[i]), run[i][k], ReceiveProposal(b)) && WellFormed(c, b)
    ensures Advanced(Env(k, c), run[i][k], b, HandleProposal(Env(k, c), run[i][k], b).replica)
  {
    AccountOf(c, honest, run, i, k);
    NoPanic(c, honest, run, i, k, ReceiveProposal(b));
    ProposalAdvances(Env(k, c), PoolOf(run[i]), run[i][k], b);
  }
}
