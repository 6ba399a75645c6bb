/** The replica core in its original form: objects whose fields the handlers update
    (consensus/src/aggregator.rs, consensus/src/core.rs). Each method is proved to do what
    its function in `Aggregation.dfy` or `Handlers.dfy` says. */
module Core {
  import opened Config
  import opened Messages
  import opened Leader
  import opened H = Handlers
  import A = Aggregation

  /** Accumulates the ballots for one certificate. */
  class Maker<V> {
    var weight: Stake
    var votes: seq<(Key, V)>
    var used: set<Key>

    function State(): A.Tally<V>
      reads this
    {
      A.Tally(weight, votes, used)
    }

    /** A maker with the given contents; a new one is empty. */
    constructor (contents: A.Tally<V>)
      ensures State() == contents
    {
      weight, votes, used := contents.weight, contents.votes, contents.used;
    }

    method Append(c: Committee, author: Key, ballot: V) returns (made: Result<Option<seq<(Key, V)>>>)
      modifies this
      ensures (State(), made) == A.Append(c, old(State()), author, ballot)
    {
      if author in used {
        return Failure(AuthorityReuse(author));
      }
      used := used + {author};
      votes := votes + [(author, ballot)];
      weight := weight + c.StakeOf(author);
      if weight >= c.QuorumThreshold() {
        weight := 0;
        return Success(Some(votes));
      }
      return Success(None);
    }
  }

  /** The makers sit in boxes that the maps own: a maker is taken out of its box, updated
      and put back. */
  class Aggregator {
    const committee: Committee
    var votesAggregators: map<Round, map<Digest, A.Tally<Signature>>>
    var timeoutsAggregators: map<Round, A.Tally<Report>>

    function State(): A.Tallies
      reads this
    {
      A.Tallies(votesAggregators, timeoutsAggregators)
    }

    constructor (committee: Committee)
      ensures State() == A.NO_TALLIES && this.committee == committee
    {
      this.committee := committee;
      votesAggregators, timeoutsAggregators := map[], map[];
    }

    method AddVote(vote: Vote) returns (made: Result<Option<QC>>)
      modifies this
      ensures (State(), made) == A.AddVote(committee, old(State()), vote)
      ensures timeoutsAggregators == old(timeoutsAggregators)
      ensures forall round, digest | round != vote.round || digest != vote.VoteDigest() ::
                A.VoteTally(State(), round, digest) == A.VoteTally(old(State()), round, digest)
    {
      if vote.round !in votesAggregators {
        votesAggregators := votesAggregators[vote.round := map[]];
      }
      var ofRound := votesAggregators[vote.round];
      var digest := vote.VoteDigest();
      var maker := new Maker(if digest in ofRound then ofRound[digest] else A.EmptyTally());
      var votes := maker.Append(committee, vote.author, vote.signature);
      votesAggregators := votesAggregators[vote.round := ofRound[digest := maker.State()]];
      assert State() == A.PutVoteTally(old(State()), vote.round, digest, maker.State());
      made := match votes
        case Failure(e) => Failure(e)
        case Success(None) => Success(None)
        case Success(Some(v)) => Success(Some(QC(vote.hash, vote.round, v)));
    }

    method AddTimeout(timeout: Timeout) returns (made: Result<Option<TC>>)
      modifies this
      ensures (State(), made) == A.AddTimeout(committee, old(State()), timeout)
      ensures votesAggregators == old(votesAggregators)
      ensures forall round | round != timeout.round ::
                A.TimeoutTally(State(), round) == A.TimeoutTally(old(State()), round)
    {
      var round := timeout.round;
      var maker := new Maker(if round in timeoutsAggregators then timeoutsAggregators[round] else A.EmptyTally());
      var votes := maker.Append(committee, timeout.author, (timeout.signature, timeout.highQc.round));
      timeoutsAggregators := timeoutsAggregators[round := maker.State()];
      made := match votes
        case Failure(e) => Failure(e)
        case Success(None) => Success(None)
        case Success(Some(v)) => Success(Some(TC(timeout.round, v)));
    }

    /** Forgets the rounds before `round`. */
    method Cleanup(round: Round)
      modifies this
      ensures State() == A.Cleanup(old(State()), round)
      ensures forall k: Round, digest ::
                A.VoteTally(State(), k, digest) == if k >= round then A.VoteTally(old(State()), k, digest) else A.EmptyTally()
      ensures forall k: Round ::
                A.TimeoutTally(State(), k) == if k >= round then A.TimeoutTally(old(State()), k) else A.EmptyTally()
    {
      votesAggregators := map k | k in votesAggregators && k >= round :: votesAggregators[k];
      timeoutsAggregators := map k | k in timeoutsAggregators && k >= round :: timeoutsAggregators[k];
    }
  }

  /** The replica core. What it sends on its channels is appended to `out`; `blocks` and
      `batches` are its part of the store. */
  class Core {
    const name: Key
    const committee: Committee
    const aggregator: Aggregator
    var blocks: BlockStore
    var batches: set<Digest>
    var timer: seq<TimerCall>
    var out: seq<Effect>
    var round: Round
    var lastVotedRound: Round
    var lastCommittedRound: Round
    var highQc: QC

    function Env(): Env {
      H.Env(name, committee)
    }

    predicate Valid() {
      aggregator.committee == committee && committee.authorities != map[]
    }

    function State(): Replica
      reads this, aggregator
    {
      H.Replica(round, lastVotedRound, lastCommittedRound, highQc, aggregator.State(), blocks, batches, timer, out)
    }

    constructor (name: Key, committee: Committee)
      requires committee.authorities != map[]
      ensures Valid() && this.name == name && this.committee == committee && fresh(aggregator)
      ensures State() == FRESH
    {
      this.name, this.committee := name, committee;
      blocks, batches, timer, out := map[], {}, [], [];
      round, lastVotedRound, lastCommittedRound, highQc := 1, 0, 0, GENESIS_QC;
      aggregator := new Aggregator(committee);
    }

    method Send(e: Effect)
      modifies this`out
      ensures State() == old(State()).Send(e)
    {
      out := out + [e];
    }

    /** Starts the round's timer anew. */
    method Rewind()
      modifies this`timer
      ensures State() == old(State()).Rewind()
    {
      timer := timer + [Reset];
      timer := timer + [StartRound];
    }

    method IncreaseLastVotedRound(target: Round)
      modifies this`lastVotedRound
      ensures lastVotedRound == if target > old(lastVotedRound) then target else old(lastVotedRound)
    {
      if target > lastVotedRound {
        lastVotedRound := target;
      }
    }

    method MakeVote(block: Block) returns (made: Result<Option<Vote>>)
      requires Valid()
      modifies this`lastVotedRound, this`out
      ensures (State(), made) == H.MakeVote(Env(), old(State()), block)
    {
      var safetyRule1 := block.round > lastVotedRound;
      var safetyRule2 := block.qc.round + 1 == block.round;
      if block.tc.Some? {
        var tc := block.tc.value;
        if tc.votes == [] {
          return Failure(Panicked);
        }
        var highest := HighestReport(tc);
        var canExtend := tc.round + 1 == block.round;
        canExtend := canExtend && block.qc.round >= highest;
        safetyRule2 := safetyRule2 || canExtend;
      }
      if !(safetyRule1 && safetyRule2) {
        return Success(None);
      }
      IncreaseLastVotedRound(block.round);
      Send(SignVote(block));
      return Success(Some(NewVote(block, name)));
    }

    /** The maximum of the reported high-QC rounds. */
    static method HighestReport(tc: TC) returns (highest: Round)
      requires tc.votes != []
      ensures forall r :: highest <= r <==> tc.AtMost(r)
    {
      highest := tc.votes[0].1.1;
      for i := 0 to |tc.votes|
        invariant exists j | 0 <= j < |tc.votes| :: tc.votes[j].1.1 == highest
        invariant forall j | 0 <= j < i :: tc.votes[j].1.1 <= highest
      {
        if tc.votes[i].1.1 > highest {
          highest := tc.votes[i].1.1;
        }
      }
    }

    method UpdateHighQc(qc: QC)
      modifies this`highQc
      ensures State() == H.UpdateHighQc(old(State()), qc)
    {
      if qc.round > highQc.round {
        highQc := qc;
      }
    }

    method AdvanceRound(target: Round)
      modifies this`round, this`timer, aggregator
      ensures State() == H.AdvanceRound(old(State()), target)
    {
      if target < round {
        return;
      }
      Rewind();
      round := target + 1;
      aggregator.Cleanup(round);
    }

    method ProcessQc(qc: QC)
      modifies this`round, this`highQc, this`timer, aggregator
      ensures State() == H.ProcessQc(old(State()), qc)
    {
      timer := timer + [OnRoundComplete];
      AdvanceRound(qc.round);
      UpdateHighQc(qc);
    }

    method GenerateProposal(tc: Option<TC>)
      modifies this`out
      ensures State() == H.GenerateProposal(old(State()), tc)
    {
      Send(Make(round, highQc, tc));
    }

    method ProposeIfLeader(tc: Option<TC>)
      requires Valid()
      modifies this`out
      ensures State() == H.ProposeIfLeader(Env(), old(State()), tc)
    {
      if name == LeaderOf(committee, round) {
        GenerateProposal(tc);
      }
    }

    method HandleVote(vote: Vote) returns (status: Outcome)
      requires Valid()
      modifies this, aggregator
      ensures Step(State(), status) == H.HandleVote(Env(), old(State()), vote)
    {
      if vote.round < round {
        return Pass;
      }
      var check := vote.Check(committee);
      if check.Fail? {
        return check;
      }
      var made := aggregator.AddVote(vote);
      if made.Failure? {
        return Fail(made.error);
      }
      if made.value.Some? {
        ProcessQc(made.value.value);
        ProposeIfLeader(None);
      }
      return Pass;
    }

    method HandleTimeout(timeout: Timeout) returns (status: Outcome)
      requires Valid()
      modifies this, aggregator
      ensures Step(State(), status) == H.HandleTimeout(Env(), old(State()), timeout)
    {
      if timeout.round < round {
        return Pass;
      }
      var check := timeout.Check(committee);
      if check.Fail? {
        return check;
      }
      ProcessQc(timeout.highQc);
      var made := aggregator.AddTimeout(timeout);
      if made.Failure? {
        return Fail(made.error);
      }
      if made.value.Some? {
        var tc := made.value.value;
        AdvanceRound(tc.round);
        Send(BroadcastTC(tc));
        ProposeIfLeader(Some(tc));
      }
      return Pass;
    }

    method HandleTc(tc: TC) returns (status: Outcome)
      requires Valid()
      modifies this, aggregator
      ensures Step(State(), status) == H.HandleTc(Env(), old(State()), tc)
    {
      var check := tc.Verify(committee);
      if check.Fail? {
        return check;
      }
      if tc.round < round {
        return Pass;
      }
      AdvanceRound(tc.round);
      ProposeIfLeader(Some(tc));
      return Pass;
    }

    method LocalTimeoutRound() returns (status: Outcome)
      requires Valid()
      modifies this, aggregator
      ensures Step(State(), status) == H.LocalTimeout(Env(), old(State()))
    {
      IncreaseLastVotedRound(round);
      var timeout := NewTimeout(highQc, round, name);
      Send(SignTimeout(timeout));
      Rewind();
      Send(BroadcastTimeout(timeout));
      status := HandleTimeout(timeout);
    }

    /** The parent of a block, or a request to the synchronizer. */
    method GetParentBlock(block: Block) returns (parent: Option<Block>)
      modifies this`out
      ensures parent == ParentOf(old(blocks), block)
      ensures State() == if parent.Some? then old(State()) else old(State()).Send(AwaitParent(block))
    {
      if block.qc.IsGenesis() {
        return Some(GENESIS);
      }
      if block.qc.hash in blocks {
        return Some(blocks[block.qc.hash]);
      }
      Send(AwaitParent(block));
      return None;
    }

    /** Walks up from `block` to the last committed round; each ancestor is pushed to the
        front of the queue. A missing one ends the walk. */
    method WalkUp(block: Block) returns (queue: Option<seq<Block>>)
      modifies this`out
      ensures var (found, missing) := Walk(blocks, lastCommittedRound, block);
              if missing.Some? then queue.None? && State() == old(State()).Send(AwaitParent(missing.value))
              else queue.Some? && Reversed(queue.value) == found && State() == old(State())
    {
      var toCommit: seq<Block> := [];
      var parent := block;
      ghost var last := lastCommittedRound;
      assert Reversed(toCommit) + Walk(blocks, last, block).0 == Walk(blocks, last, block).0;
      while lastCommittedRound + 1 < parent.round
        invariant State() == old(State())
        invariant Walk(blocks, last, block)
                  == (Reversed(toCommit) + Walk(blocks, last, parent).0, Walk(blocks, last, parent).1)
        decreases parent != GENESIS, parent.BlockDigest()
      {
        var ancestor := GetParentBlock(parent);
        if ancestor.None? {
          assert Walk(blocks, last, parent).1 == Some(parent);
          return None;
        }
        WalkStep(blocks, last, block, parent, toCommit);
        toCommit := [ancestor.value] + toCommit;
        parent := ancestor.value;
      }
      return Some(toCommit);
    }

    method Commit(block: Block) returns (status: Outcome)
      modifies this`lastCommittedRound, this`out
      ensures Step(State(), status) == CommitBlock(old(State()), block)
    {
      if lastCommittedRound >= block.round {
        return Pass;
      }
      var toCommit := WalkUp(block);
      if toCommit.None? {
        return Fail(Panicked);
      }
      ReversedCons(block, toCommit.value);
      lastCommittedRound := block.round;
      SendCommitted([block] + toCommit.value);
      return Pass;
    }

    /** Drains the queue from its back into the application's channel. */
    method SendCommitted(queue: seq<Block>)
      modifies this`out
      ensures out == old(out) + CommitEffects(Reversed(queue))
    {
      var toCommit := queue;
      ghost var sent: seq<Block> := [];
      while toCommit != []
        invariant sent + Reversed(toCommit) == Reversed(queue)
        invariant out == old(out) + CommitEffects(sent)
        decreases |toCommit|
      {
        var rest, block := toCommit[..|toCommit| - 1], toCommit[|toCommit| - 1];
        assert toCommit == rest + [block];
        ReversedSnoc(rest, block);
        CommitEffectsSnoc(sent, block);
        toCommit := rest;
        sent := sent + [block];
        out := out + [Effect.Commit(block)];
      }
    }

    method StoreBlock(block: Block)
      modifies this`blocks
      ensures State() == H.StoreBlock(old(State()), block)
    {
      blocks := blocks[block.BlockDigest() := block];
    }

    method ProcessBlock(block: Block) returns (status: Outcome)
      requires Valid()
      modifies this, aggregator
      ensures Step(State(), status) == H.ProcessBlock(Env(), old(State()), block)
    {
      var parent := GetParentBlock(block);
      if parent.None? {
        return Pass;
      }
      var b1 := parent.value;
      var grandparent := GetParentBlock(b1);
      if grandparent.None? {
        return Fail(Panicked);
      }
      var b0 := grandparent.value;
      status := StoreAndCommit(b0, b1, block);
      if status.Pass? {
        status := VoteFor(block);
      }
    }

    method StoreAndCommit(b0: Block, b1: Block, block: Block) returns (status: Outcome)
      modifies this`blocks, this`lastCommittedRound, this`out
      ensures Step(State(), status) == H.StoreAndCommit(old(State()), b0, b1, block)
    {
      StoreBlock(block);
      Send(CleanupProposer(b0.payload + b1.payload + block.payload));
      status := Pass;
      if b0.round + 1 == b1.round {
        Send(CleanupMempool(b0.round));
        status := Commit(b0);
      }
    }

    method VoteFor(block: Block) returns (status: Outcome)
      requires Valid()
      modifies this, aggregator
      ensures Step(State(), status) == H.VoteFor(Env(), old(State()), block)
    {
      if block.round != round {
        return Pass;
      }
      var made := MakeVote(block);
      if made.Failure? {
        return Fail(made.error);
      }
      status := Pass;
      if made.value.Some? {
        var vote := made.value.value;
        var nextLeader := LeaderOf(committee, round + 1);
        if nextLeader == name {
          status := HandleVote(vote);
        } else {
          Send(SendVote(nextLeader, vote));
        }
      }
    }

    /** The payload digests that are not in the store. */
    method MissingPayload(payload: seq<Digest>) returns (missing: seq<Digest>)
      ensures missing == Missing(State().Stored(), payload)
    {
      var stored := blocks.Keys + batches;
      var rest := payload;
      missing := [];
      while rest != []
        invariant Missing(stored, payload) == missing + Missing(stored, rest)
        decreases |rest|
      {
        if rest[0] !in stored {
          missing := missing + [rest[0]];
        }
        rest := rest[1..];
      }
    }

    method HandleProposal(block: Block) returns (status: Outcome)
      requires Valid()
      modifies this, aggregator
      ensures Step(State(), status) == H.HandleProposal(Env(), old(State()), block)
    {
      if block.author != LeaderOf(committee, block.round) {
        return Fail(WrongLeader(block.BlockDigest(), block.author, block.round));
      }
      var check := block.Check(committee);
      if check.Fail? {
        return check;
      }
      ProcessQc(block.qc);
      if block.tc.Some? {
        AdvanceRound(block.tc.value.round);
      }
      var missing := MissingPayload(block.payload);
      if missing != [] {
        Send(AwaitPayload(missing, block));
        return Pass;
      }
      status := ProcessBlock(block);
    }

    /** One turn of the main loop. The proposer and the mempool run beside the core. */
    method Handle(event: Event) returns (status: Outcome)
      requires Valid() && !event.ProposerRuns? && !event.BatchStored?
      modifies this, aggregator
      ensures Step(State(), status) == React(Env(), old(State()), event)
    {
      match event
      case ReceiveProposal(block) => status := HandleProposal(block);
      case ReceiveVote(vote) => status := HandleVote(vote);
      case ReceiveTimeout(timeout) => status := HandleTimeout(timeout);
      case ReceiveTC(tc) => status := HandleTc(tc);
      case ReceiveSyncRequest(missing, origin) => status := Fail(Panicked);
      case Loopback(block) => status := ProcessBlock(block);
      case TimerFires => status := LocalTimeoutRound();
    }

    /** Upon booting, the leader of the first round asks for the very first block. */
    method Boot()
      requires Valid() && State() == FRESH
      modifies this`timer, this`out
      ensures State() == H.Boot(Env())
    {
      Rewind();
      ProposeIfLeader(None);
    }
  }

  /** One more ancestor is found, and put in front of those found so far. */
  lemma {:induction false} WalkStep(blocks: BlockStore, last: Round, block: Block, at: Block, found: seq<Block>)
    requires last + 1 < at.round && ParentOf(blocks, at).Some?
    requires Walk(blocks, last, block) == (Reversed(found) + Walk(blocks, last, at).0, Walk(blocks, last, at).1)
    ensures var parent := ParentOf(blocks, at).value;
            Walk(blocks, last, block)
            == (Reversed([parent] + found) + Walk(blocks, last, parent).0, Walk(blocks, last, parent).1)
  {
    var parent := ParentOf(blocks, at).value;
    ReversedCons(parent, found);
    var above := Walk(blocks, last, parent).0;
    assert Reversed(found) + ([parent] + above) == Reversed(found) + [parent] + above;
  }

  lemma CommitEffectsSnoc(sent: seq<Block>, block: Block)
    ensures CommitEffects(sent + [block]) == CommitEffects(sent) + [Effect.Commit(block)]
  {
  }

  function Reversed(blocks: seq<Block>): seq<Block> {
    if blocks == [] then [] else Reversed(blocks[1..]) + [blocks[0]]
  }

  lemma ReversedCons(first: Block, rest: seq<Block>)
    ensures Reversed([first] + rest) == Reversed(rest) + [first]
  {
    assert ([first] + rest)[1..] == rest;
  }

  lemma {:induction false} ReversedSnoc(blocks: seq<Block>, last: Block)
    ensures Reversed(blocks + [last]) == [last] + Reversed(blocks)
    decreases |blocks|
  {
    if blocks == [] {
      assert Reversed([last]) == Reversed([]) + [last];
    } else {
      ReversedSnoc(blocks[1..], last);
      assert (blocks + [last])[1..] == blocks[1..] + [last];
    }
  }
}
