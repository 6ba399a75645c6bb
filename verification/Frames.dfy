/** What each handler can append to the replica's output, and what it leaves alone. */
module Frames {
  import opened Messages
  import opened Aggregation
  import opened Leader
  import opened Handlers

  /** An effect that neither commits a block, nor votes for one, nor sends one around. */
  predicate Minor(e: Effect) {
    match e
    case SignVote(_) => false
    case Commit(_) => false
    case AwaitParent(_) => false
    case AwaitPayload(_, _) => false
    case Propose(_) => false
    case _ => true
  }

  /** The effects a step appended. */
  function Added(r: Replica, r': Replica): seq<Effect>
    requires r.out <= r'.out
  {
    r'.out[|r.out|..]
  }

  /** The step appends minor effects and effects among `allowed`; it stores and commits
      nothing. */
  ghost predicate Frame(r: Replica, r': Replica, allowed: set<Effect>) {
    && r.out <= r'.out
    && (forall e | e in Added(r, r') :: Minor(e) || e in allowed)
    && r'.blocks == r.blocks && r'.batches == r.batches
    && r'.lastCommittedRound == r.lastCommittedRound
  }

  lemma InAdded(r: Replica, r': Replica, e: Effect)
    requires r.out <= r'.out && e in r'.out
    ensures e in r.out || e in Added(r, r')
  {
    var i :| 0 <= i < |r'.out| && r'.out[i] == e;
    if i >= |r.out| {
      assert Added(r, r')[i - |r.out|] == e;
    }
  }

  lemma AddedTwice(r: Replica, r1: Replica, r2: Replica)
    requires r.out <= r1.out <= r2.out
    ensures Added(r, r2) == Added(r, r1) + Added(r1, r2)
  {
  }

  lemma FrameTwice(r: Replica, r1: Replica, r2: Replica, allowed: set<Effect>)
    requires Frame(r, r1, allowed) && Frame(r1, r2, allowed)
    ensures Frame(r, r2, allowed)
  {
    AddedTwice(r, r1, r2);
  }

  lemma SendFrame(r: Replica, e: Effect, allowed: set<Effect>)
    requires Minor(e) || e in allowed
    ensures Frame(r, r.Send(e), allowed)
  {
    assert Added(r, r.Send(e)) == [e];
  }

  // ---------- certificates ----------

  lemma ProposeFrame(env: Env, r: Replica, tc: Option<TC>)
    requires env.committee.authorities != map[]
    ensures Frame(r, ProposeIfLeader(env, r, tc), {})
  {
    SendFrame(r, Make(r.round, r.highQc, tc), {});
  }

  lemma {:induction false} HandleVoteFrame(env: Env, r: Replica, vote: Vote)
    requires env.committee.authorities != map[]
    ensures Frame(r, HandleVote(env, r, vote).replica, {})
  {
    var (tallies, made) := AddVote(env.committee, r.tallies, vote);
    if made.Success? && made.value.Some? {
      ProposeFrame(env, ProcessQc(r.(tallies := tallies), made.value.value), None);
    }
  }

  lemma AdvanceOnTcFrame(env: Env, r: Replica, tc: TC)
    requires env.committee.authorities != map[]
    ensures Frame(r, AdvanceOnTc(env, r, tc), {})
  {
    var r1 := AdvanceRound(r, tc.round);
    SendFrame(r1, BroadcastTC(tc), {});
    ProposeFrame(env, r1.Send(BroadcastTC(tc)), Some(tc));
    FrameTwice(r, r1.Send(BroadcastTC(tc)), AdvanceOnTc(env, r, tc), {});
  }

  lemma {:induction false} HandleTimeoutFrame(env: Env, r: Replica, timeout: Timeout)
    requires env.committee.authorities != map[]
    ensures Frame(r, HandleTimeout(env, r, timeout).replica, {})
  {
    var r1 := ProcessQc(r, timeout.highQc);
    var (tallies, made) := AddTimeout(env.committee, r1.tallies, timeout);
    var r2 := r1.(tallies := tallies);
    assert Frame(r, r2, {});
    if made.Success? && made.value.Some? {
      AdvanceOnTcFrame(env, r2, made.value.value);
      FrameTwice(r, r2, AdvanceOnTc(env, r2, made.value.value), {});
    }
  }

  lemma HandleTcFrame(env: Env, r: Replica, tc: TC)
    requires env.committee.authorities != map[]
    ensures Frame(r, HandleTc(env, r, tc).replica, {})
  {
    ProposeFrame(env, AdvanceRound(r, tc.round), Some(tc));
  }

  lemma GiveUpRoundFrame(env: Env, r: Replica)
    ensures Frame(r, GiveUpRound(env, r), {})
  {
    var timeout := OwnTimeout(env, r);
    assert Added(r, GiveUpRound(env, r)) == [SignTimeout(timeout), BroadcastTimeout(timeout)];
  }

  lemma LocalTimeoutFrame(env: Env, r: Replica)
    requires env.committee.authorities != map[]
    ensures Frame(r, LocalTimeout(env, r).replica, {})
  {
    GiveUpRoundFrame(env, r);
    HandleTimeoutFrame(env, GiveUpRound(env, r), OwnTimeout(env, r));
    FrameTwice(r, GiveUpRound(env, r), LocalTimeout(env, r).replica, {});
  }

  lemma CertificatesFrame(r: Replica, block: Block)
    ensures Frame(r, ProcessCertificates(r, block), {})
    ensures ProcessCertificates(r, block).out == r.out
  {
  }

  // ---------- blocks ----------

  lemma {:induction false} VoteForFrame(env: Env, r: Replica, block: Block)
    requires env.committee.authorities != map[]
    ensures Frame(r, VoteFor(env, r, block).replica, {SignVote(block)})
    ensures block.round == r.round ==> MakeVote(env, r, block).0.out <= VoteFor(env, r, block).replica.out
  {
    var (r1, made) := MakeVote(env, r, block);
    SendFrame(r.(lastVotedRound := block.round), SignVote(block), {SignVote(block)});
    if block.round == r.round && made.Success? && made.value.Some? {
      var vote := made.value.value;
      var r2 := VoteFor(env, r, block).replica;
      HandleVoteFrame(env, r1, vote);
      SendFrame(r1, SendVote(LeaderOf(env.committee, r1.round + 1), vote), {});
      FrameTwice(r, r1, r2, {SignVote(block)});
    }
  }

  lemma CommitEffectsCommit(blocks: seq<Block>)
    ensures forall e | e in CommitEffects(blocks) :: e.Commit?
  {
    forall e | e in CommitEffects(blocks) ensures e.Commit? {
      var i :| 0 <= i < |blocks| && CommitEffects(blocks)[i] == e;
    }
  }

  /** A commit appends the blocks it delivers; if a parent is missing, a request instead. */
  lemma CommitBlockFrame(r: Replica, block: Block)
    ensures var step := CommitBlock(r, block); var r' := step.replica;
            && r.out <= r'.out && r'.blocks == r.blocks && r'.batches == r.batches
            && forall e | e in Added(r, r') :: if step.status == Pass then e.Commit? else e.AwaitParent?
  {
    CommitEffectsCommit(Walk(r.blocks, r.lastCommittedRound, block).0 + [block]);
  }

  lemma {:induction false} StoreAndCommitFrame(r: Replica, b0: Block, b1: Block, block: Block)
    ensures var step := StoreAndCommit(r, b0, b1, block); var r' := step.replica;
            && r.out <= r'.out && r'.blocks == r.blocks[block.BlockDigest() := block] && r'.batches == r.batches
            && forall e | e in Added(r, r') :: Minor(e) || e.Commit? || (e.AwaitParent? && step.status != Pass)
  {
    var r1 := StoreBlock(r, block).Send(CleanupProposer(b0.payload + b1.payload + block.payload));
    if b0.round + 1 == b1.round {
      var r2 := r1.Send(CleanupMempool(b0.round));
      CommitBlockFrame(r2, b0);
      AddedTwice(r, r1, r2);
      AddedTwice(r, r2, CommitBlock(r2, b0).replica);
    }
  }

  /** What handling a block can append, given that nothing panicked. */
  predicate OfProcessing(block: Block, e: Effect) {
    Minor(e) || e.Commit? || e == SignVote(block) || e == AwaitParent(block)
  }

  lemma {:induction false} ProcessBlockFrame(env: Env, r: Replica, block: Block)
    requires env.committee.authorities != map[]
    ensures var step := ProcessBlock(env, r, block); var r' := step.replica;
            && r.out <= r'.out && r.blocks.Keys <= r'.blocks.Keys && r'.batches == r.batches
            && (step.status != Fail(Panicked) ==> forall e | e in Added(r, r') :: OfProcessing(block, e))
  {
    var parent := ParentOf(r.blocks, block);
    if parent.Some? && ParentOf(r.blocks, parent.value).Some? {
      var b0 := ParentOf(r.blocks, parent.value).value;
      var r1 := StoreAndCommit(r, b0, parent.value, block).replica;
      StoreAndCommitFrame(r, b0, parent.value, block);
      if StoreAndCommit(r, b0, parent.value, block).status == Pass {
        VoteForFrame(env, r1, block);
        AddedTwice(r, r1, ProcessBlock(env, r, block).replica);
      }
    }
  }

  // ---------- every event ----------

  /** The block passed the checks of `handle_proposal`. */
  predicate Admitted(env: Env, block: Block)
    requires env.committee.authorities != map[]
  {
    block.author == LeaderOf(env.committee, block.round) && block.Check(env.committee).Pass?
  }

  /** The effects an event can bring, given that nothing panics: a proposal is processed if
      its payload is stored, and otherwise handed to the payload waiter; a block that came
      back is processed; the proposer sends off a block. */
  ghost predicate MayAdd(env: Env, r: Replica, event: Event, e: Effect)
    requires env.committee.authorities != map[]
  {
    match event
    case ReceiveProposal(block) =>
      var missing := Missing(r.Stored(), block.payload);
      || Minor(e)
      || (Admitted(env, block) && if missing == [] then OfProcessing(block, e) else e == AwaitPayload(missing, block))
    case Loopback(block) => OfProcessing(block, e)
    case ProposerRuns(payload) => r.out + [e] == ServeMake(env, r, payload).out
    case _ => Minor(e)
  }

  lemma {:induction false} HandleProposalFrame(env: Env, r: Replica, block: Block)
    requires env.committee.authorities != map[]
    ensures var step := HandleProposal(env, r, block); var r' := step.replica;
            && r.out <= r'.out && r.Stored() <= r'.Stored()
            && (step.status != Fail(Panicked) ==>
                  forall e | e in Added(r, r') :: MayAdd(env, r, ReceiveProposal(block), e))
  {
    if Admitted(env, block) {
      var r1 := ProcessCertificates(r, block);
      CertificatesFrame(r, block);
      assert r1.Stored() == r.Stored();
      ProcessBlockFrame(env, r1, block);
      assert Added(r, ProcessBlock(env, r1, block).replica) == Added(r1, ProcessBlock(env, r1, block).replica);
    }
  }

  /** Everything a step can append, the store only grows, and only handling a block
      commits. */
  lemma {:induction false} ReactFrame(env: Env, r: Replica, event: Event)
    requires env.committee.authorities != map[]
    ensures var step := React(env, r, event); var r' := step.replica;
            && r.out <= r'.out && r.Stored() <= r'.Stored()
            && (step.status != Fail(Panicked) ==> forall e | e in Added(r, r') :: MayAdd(env, r, event, e))
    ensures !event.ReceiveProposal? && !event.Loopback? ==>
              React(env, r, event).replica.lastCommittedRound == r.lastCommittedRound
  {
    match event
    case ReceiveProposal(block) => HandleProposalFrame(env, r, block);
    case ReceiveVote(vote) => HandleVoteFrame(env, r, vote);
    case ReceiveTimeout(timeout) => HandleTimeoutFrame(env, r, timeout);
    case ReceiveTC(tc) => HandleTcFrame(env, r, tc);
    case ReceiveSyncRequest(missing, origin) =>
    case Loopback(block) => ProcessBlockFrame(env, r, block);
    case TimerFires => LocalTimeoutFrame(env, r);
    case ProposerRuns(payload) =>
    case BatchStored(digest) =>
  }
}
