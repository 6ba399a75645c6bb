/** A replica that holds a quorum by itself: what it does, step by step. With it, concrete
    runs can be followed to the end. */
module Alone {
  import opened Config
  import opened Messages
  import opened Aggregation
  import opened Leader
  import opened Handlers
  import opened Frames
  import opened Commits
  import opened Proposing

  ghost predicate Quorum(env: Env) {
    env.committee.authorities != map[] && env.committee.StakeOf(env.name) >= env.committee.QuorumThreshold()
  }

  function OwnQc(env: Env, b: Block): QC {
    QC(b.BlockDigest(), b.round, [(env.name, NewVote(b, env.name).signature)])
  }

  function OwnTc(env: Env, round: Round, qc: QC): TC {
    TC(round, [(env.name, (NewTimeout(qc, round, env.name).signature, qc.round))])
  }

  lemma QuorateAlone(env: Env)
    requires Quorum(env)
    ensures Quorate(env.committee, [env.name])
  {
    assert NameSet([env.name]) == {env.name};
    WeightRemove(env.committee, {env.name}, env.name);
    assert {env.name} - {env.name} == {};
  }

  lemma OwnQcPasses(env: Env, b: Block)
    requires Quorum(env)
    ensures OwnQc(env, b).Check(env.committee).Pass?
  {
    QuorateAlone(env);
    assert Names(OwnQc(env, b).votes) == [env.name];
    QCCheckExact(env.committee, OwnQc(env, b));
  }

  lemma OwnTcPasses(env: Env, round: Round, qc: QC)
    requires Quorum(env)
    ensures OwnTc(env, round, qc).Check(env.committee).Pass?
  {
    QuorateAlone(env);
    assert Names(OwnTc(env, round, qc).votes) == [env.name];
    TCCheckExact(env.committee, OwnTc(env, round, qc));
  }

  // ---------- what a step changes ----------

  /** What matters of a replica's state, its output and its requests included. */
  datatype View = View(
    round: Round,
    voted: Round,
    committed: Round,
    qc: QC,
    blocks: BlockStore,
    makes: seq<Effect>,
    served: nat,
    delivered: seq<Digest>)

  function ViewOf(r: Replica): View {
    View(r.round, r.lastVotedRound, r.lastCommittedRound, r.highQc, r.blocks, Makes(r.out), |Proposals(r.out)|, Deliveries(r.out))
  }

  /** The request that entering a round brings, if the replica leads it. */
  function Asks(env: Env, round: Round, qc: QC, tc: Option<TC>): seq<Effect>
    requires env.committee.authorities != map[]
  {
    if LeaderOf(env.committee, round) == env.name then [Make(round, qc, tc)] else []
  }

  /** After an alarm. */
  function TimedOut(env: Env, v: View): View
    requires env.committee.authorities != map[]
  {
    v.(round := v.round + 1, voted := if v.round > v.voted then v.round else v.voted,
       makes := v.makes + Asks(env, v.round + 1, v.qc, Some(OwnTc(env, v.round, v.qc))))
  }

  /** After a vote, which is a certificate if the next leader is the replica itself. */
  function VotedFor(env: Env, v: View, b: Block): View
    requires env.committee.authorities != map[]
  {
    if LeaderOf(env.committee, v.round + 1) == env.name
    then v.(round := v.round + 1, voted := b.round, qc := OwnQc(env, b),
            makes := v.makes + Asks(env, v.round + 1, OwnQc(env, b), None))
    else v.(voted := b.round)
  }

  /** After storing a block with these ancestors, and committing what is due. */
  function StoredIn(v: View, b0: Block, b1: Block, b: Block): View {
    var blocks := v.blocks[b.BlockDigest() := b];
    if b0.round + 1 == b1.round && b0.round > v.committed
    then v.(blocks := blocks, committed := b0.round,
            delivered := v.delivered + Ids(Walk(blocks, v.committed, b0).0 + [b0]))
    else v.(blocks := blocks)
  }

  /** After the certificate of a proposal. */
  function Caught(v: View, qc: QC): View {
    v.(round := if qc.round >= v.round then qc.round + 1 else v.round, qc := if qc.round > v.qc.round then qc else v.qc)
  }

  /** Nothing is collected, and the high QC is of a past round. */
  predicate Ready(env: Env, r: Replica) {
    && r.tallies == NO_TALLIES && r.highQc.round < r.round
    && (r.highQc.IsGenesis() || r.highQc.Check(env.committee).Pass?)
  }

  lemma SendView(r: Replica, e: Effect)
    ensures var v := ViewOf(r);
            ViewOf(r.Send(e)) == v.(makes := v.makes + if e.Make? then [e] else [],
                                    served := v.served + if e.Propose? then 1 else 0,
                                    delivered := v.delivered + if e.Commit? then [IdOf(e.block)] else [])
  {
    SendAdds(r, e);
    assert (r.out + [e])[..|r.out|] == r.out;
  }

  lemma ProposeView(env: Env, r: Replica, tc: Option<TC>)
    requires env.committee.authorities != map[]
    ensures var v := ViewOf(r);
            ViewOf(ProposeIfLeader(env, r, tc)) == v.(makes := v.makes + Asks(env, r.round, r.highQc, tc))
  {
    SendView(r, Make(r.round, r.highQc, tc));
  }

  // ---------- a vote and a timeout are certificates ----------

  lemma CountsVote(env: Env, r: Replica, b: Block)
    requires Quorum(env) && Ready(env, r) && r.round == b.round
    ensures HandleVote(env, r, NewVote(b, env.name)) ==
              Step(ProposeIfLeader(env, r.Sample().Rewind().(round := b.round + 1, highQc := OwnQc(env, b)), None), Pass)
  {
    var c, vote := env.committee, NewVote(b, env.name);
    assert VoteTally(NO_TALLIES, vote.round, vote.VoteDigest()) == EmptyTally();
    assert EmptyTally<Signature>().votes + [(env.name, vote.signature)] == [(env.name, vote.signature)];
    var (tallies, made) := AddVote(c, NO_TALLIES, vote);
    assert made == Success(Some(OwnQc(env, b)));
    assert Cleanup(tallies, b.round + 1) == NO_TALLIES;
  }

  lemma CountsTimeout(env: Env, r: Replica)
    requires Quorum(env) && Ready(env, r)
    ensures var tc := OwnTc(env, r.round, r.highQc);
            HandleTimeout(env, r, OwnTimeout(env, r)) ==
              Step(ProposeIfLeader(env, r.Sample().Rewind().(round := r.round + 1).Send(BroadcastTC(tc)), Some(tc)), Pass)
  {
    var c, timeout, tc := env.committee, OwnTimeout(env, r), OwnTc(env, r.round, r.highQc);
    assert TimeoutTally(NO_TALLIES, timeout.round) == EmptyTally();
    assert EmptyTally<Report>().votes + tc.votes == tc.votes;
    var (tallies, made) := AddTimeout(c, NO_TALLIES, timeout);
    assert made == Success(Some(tc));
    assert Cleanup(tallies, r.round + 1) == NO_TALLIES;
    assert ProcessQc(r, timeout.highQc) == r.Sample();
  }

  lemma GiveUpView(env: Env, r: Replica)
    ensures var v := ViewOf(r);
            ViewOf(GiveUpRound(env, r)) == v.(voted := if r.round > v.voted then r.round else v.voted)
    ensures SignTimeout(OwnTimeout(env, r)) in GiveUpRound(env, r).out
  {
    var timeout := OwnTimeout(env, r);
    var r1 := r.(lastVotedRound := if r.round > r.lastVotedRound then r.round else r.lastVotedRound);
    SendView(r1, SignTimeout(timeout));
    SendView(r1.Send(SignTimeout(timeout)).Rewind(), BroadcastTimeout(timeout));
  }

  /** The state right after the alarm's timeout has become a certificate. */
  function NextRound(env: Env, r: Replica): Replica {
    GiveUpRound(env, r).Sample().Rewind().(round := r.round + 1)
  }

  lemma NextRoundView(env: Env, r: Replica)
    ensures var v := ViewOf(r);
            ViewOf(NextRound(env, r)) ==
              v.(round := r.round + 1, voted := if r.round > v.voted then r.round else v.voted)
    ensures SignTimeout(OwnTimeout(env, r)) in NextRound(env, r).out
  {
    GiveUpView(env, r);
  }

  /** One alarm: the round is over at once. */
  lemma {:induction false} AfterTimeout(env: Env, r: Replica) returns (r': Replica)
    requires Quorum(env) && Ready(env, r)
    ensures r' == LocalTimeout(env, r).replica
    ensures Ready(env, r') && SignTimeout(OwnTimeout(env, r)) in r'.out && BroadcastTC(OwnTc(env, r.round, r.highQc)) in r'.out
    ensures ViewOf(r') == TimedOut(env, ViewOf(r))
  {
    LocalTimeoutIs(env, r);
    r' := LocalTimeout(env, r).replica;
    NextRoundView(env, r);
    AfterTc(env, NextRound(env, r), OwnTc(env, r.round, r.highQc), r');
  }

  lemma {:induction false} LocalTimeoutIs(env: Env, r: Replica)
    requires Quorum(env) && Ready(env, r)
    ensures LocalTimeout(env, r).replica ==
              ProposeIfLeader(env, NextRound(env, r).Send(BroadcastTC(OwnTc(env, r.round, r.highQc))), Some(OwnTc(env, r.round, r.highQc)))
  {
    CountsTimeout(env, GiveUpRound(env, r));
  }

  lemma {:induction false} AfterTc(env: Env, r: Replica, tc: TC, r': Replica)
    requires env.committee.authorities != map[] && Ready(env, r)
    requires r' == ProposeIfLeader(env, r.Send(BroadcastTC(tc)), Some(tc))
    ensures Ready(env, r') && r.Send(BroadcastTC(tc)).out <= r'.out && BroadcastTC(tc) in r'.out
    ensures var v := ViewOf(r);
            ViewOf(r') == v.(makes := v.makes + Asks(env, r.round, r.highQc, Some(tc)))
  {
    SendView(r, BroadcastTC(tc));
    ProposeView(env, r.Send(BroadcastTC(tc)), Some(tc));
    assert BroadcastTC(tc) in r.Send(BroadcastTC(tc)).out;
  }

  /** The state right after the replica has signed its vote. */
  function Voted(r: Replica, b: Block): Replica {
    r.(lastVotedRound := b.round).Send(SignVote(b))
  }

  lemma {:induction false} VotedView(r: Replica, b: Block)
    ensures ViewOf(Voted(r, b)) == ViewOf(r).(voted := b.round) && SignVote(b) in Voted(r, b).out
  {
    SendView(r.(lastVotedRound := b.round), SignVote(b));
    assert Voted(r, b).out[|r.out|] == SignVote(b);
  }

  lemma {:induction false} VoteForIs(env: Env, r: Replica, b: Block, r': Replica)
    requires env.committee.authorities != map[] && b.round == r.round
    requires RuleOne(b, r.lastVotedRound) && RuleTwo(b.qc, b.tc, b.round)
    requires b.tc.Some? ==> b.tc.value.votes != []
    requires var leader, vote := LeaderOf(env.committee, r.round + 1), NewVote(b, env.name);
             r' == if leader == env.name then HandleVote(env, Voted(r, b), vote).replica
                   else Voted(r, b).Send(SendVote(leader, vote))
    ensures r' == VoteFor(env, r, b).replica
  {
  }

  /** A vote: a certificate if the next leader is the replica itself. */
  lemma {:induction false} AfterVote(env: Env, r: Replica, b: Block) returns (r': Replica)
    requires Quorum(env) && Ready(env, r) && b.round == r.round
    requires RuleOne(b, r.lastVotedRound) && RuleTwo(b.qc, b.tc, b.round)
    requires b.tc.Some? ==> b.tc.value.votes != []
    ensures r' == VoteFor(env, r, b).replica
    ensures Ready(env, r') && SignVote(b) in r'.out
    ensures ViewOf(r') == VotedFor(env, ViewOf(r), b)
  {
    VotedView(r, b);
    var leader := LeaderOf(env.committee, r.round + 1);
    if leader == env.name {
      r' := AfterOwnVote(env, Voted(r, b), b);
    } else {
      r' := Voted(r, b).Send(SendVote(leader, NewVote(b, env.name)));
      SendView(Voted(r, b), SendVote(leader, NewVote(b, env.name)));
    }
    VoteForIs(env, r, b, r');
  }

  lemma {:induction false} AfterOwnVote(env: Env, r: Replica, b: Block) returns (r': Replica)
    requires Quorum(env) && Ready(env, r) && b.round == r.round && env.name == LeaderOf(env.committee, r.round + 1)
    ensures r' == HandleVote(env, r, NewVote(b, env.name)).replica
    ensures Ready(env, r') && r.out <= r'.out
    ensures var v, next := ViewOf(r), r.round + 1;
            ViewOf(r') == v.(round := next, qc := OwnQc(env, b), makes := v.makes + Asks(env, next, OwnQc(env, b), None))
  {
    var r1 := r.Sample().Rewind().(round := b.round + 1, highQc := OwnQc(env, b));
    r' := ProposeIfLeader(env, r1, None);
    OwnQcPasses(env, b);
    ProposeView(env, r1, None);
    CountsVote(env, r, b);
  }

  // ---------- blocks ----------

  lemma {:induction false} AfterStore(env: Env, r: Replica, b0: Block, b1: Block, b: Block) returns (r': Replica)
    requires Ready(env, r)
    requires b0.round + 1 == b1.round ==> Walk(r.blocks[b.BlockDigest() := b], r.lastCommittedRound, b0).1 == None
    ensures StoreAndCommit(r, b0, b1, b) == Step(r', Pass)
    ensures Ready(env, r') && r.out <= r'.out
    ensures ViewOf(r') == StoredIn(ViewOf(r), b0, b1, b)
  {
    var cleanup := CleanupProposer(b0.payload + b1.payload + b.payload);
    var r1 := StoreBlock(r, b);
    SendView(r1, cleanup);
    StoredView(r, b0, b1, b);
    r' := StoreAndCommit(r, b0, b1, b).replica;
    if b0.round + 1 == b1.round && b0.round > r.lastCommittedRound {
      r' := CommitsView(env, Stored(r, b0, b1, b), b0, Walk(r.blocks[b.BlockDigest() := b], r.lastCommittedRound, b0).0);
    }
  }

  /** The state right before the commit. */
  function Stored(r: Replica, b0: Block, b1: Block, b: Block): Replica {
    StoreBlock(r, b).Send(CleanupProposer(b0.payload + b1.payload + b.payload)).Send(CleanupMempool(b0.round))
  }

  lemma {:induction false} StoredView(r: Replica, b0: Block, b1: Block, b: Block)
    ensures ViewOf(Stored(r, b0, b1, b)) == ViewOf(r).(blocks := r.blocks[b.BlockDigest() := b])
    ensures r.out <= Stored(r, b0, b1, b).out && Stored(r, b0, b1, b).tallies == r.tallies
  {
    var cleanup := CleanupProposer(b0.payload + b1.payload + b.payload);
    SendView(StoreBlock(r, b), cleanup);
    SendView(StoreBlock(r, b).Send(cleanup), CleanupMempool(b0.round));
  }

  lemma {:induction false} CommitsView(env: Env, r: Replica, b0: Block, found: seq<Block>) returns (r': Replica)
    requires Ready(env, r)
    requires b0.round > r.lastCommittedRound && Walk(r.blocks, r.lastCommittedRound, b0) == (found, None)
    ensures CommitBlock(r, b0) == Step(r', Pass) && Ready(env, r') && r.out <= r'.out
    ensures ViewOf(r') == ViewOf(r).(committed := b0.round, delivered := ViewOf(r).delivered + Ids(found + [b0]))
  {
    var effects := CommitEffects(found + [b0]);
    CommitEffectsCommit(found + [b0]);
    OnlyCommitsAdd(r.out, effects);
    DeliveriesConcat(r.out, effects);
    DeliveriesOf(found + [b0]);
    r' := CommitBlock(r, b0).replica;
  }

  /** A block is voted for after it was stored, if it is of the current round. */
  lemma {:induction false} ProcessBlockIs(env: Env, r: Replica, b0: Block, b1: Block, b: Block, stored: Replica)
    requires env.committee.authorities != map[]
    requires ParentOf(r.blocks, b) == Some(b1) && ParentOf(r.blocks, b1) == Some(b0)
    requires StoreAndCommit(r, b0, b1, b) == Step(stored, Pass)
    ensures ProcessBlock(env, r, b) == VoteFor(env, stored, b)
    ensures b.round != stored.round ==> ProcessBlock(env, r, b).replica == stored
  {
  }

  /** A proposal without payload and TC that passes the checks is processed at once. */
  lemma {:induction false} AfterProposal(env: Env, r: Replica, b: Block) returns (r': Replica)
    requires env.committee.authorities != map[] && Admitted(env, b) && b.payload == [] && b.tc == None
    requires Ready(env, r)
    ensures HandleProposal(env, r, b) == ProcessBlock(env, r', b)
    ensures Ready(env, r') && r'.out == r.out && ViewOf(r') == Caught(ViewOf(r), b.qc)
  {
    r' := ProcessQc(r, b.qc);
    assert Cleanup(NO_TALLIES, b.qc.round + 1) == NO_TALLIES;
  }

  /** The proposer's next block, for the oldest request not served. */
  lemma {:induction false} AfterServing(env: Env, r: Replica, n: nat, qc: QC, tc: Option<TC>) returns (r': Replica, b: Block)
    requires ViewOf(r).served < |ViewOf(r).makes| && ViewOf(r).makes[ViewOf(r).served] == Make(n, qc, tc)
    ensures b == NewBlock(qc, tc, env.name, n, []) && r' == ServeMake(env, r, [])
    ensures Propose(b) in r'.out && MayLoopBack(r', b)
    ensures (Ready(env, r) ==> Ready(env, r')) && ViewOf(r') == ViewOf(r).(served := ViewOf(r).served + 1)
  {
    b := NewBlock(qc, tc, env.name, n, []);
    r' := r.Send(Propose(b));
    SendView(r, Propose(b));
    assert r'.out[|r.out|] == Propose(b);
    assert LoopsBack(Propose(b), b);
  }
}
