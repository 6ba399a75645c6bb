/** What the aggregator's cleanup achieves: a replica holds no votes of past rounds, and
    timeouts of past rounds in one case only. */
module PastRounds {
  import opened Config
  import opened Messages
  import opened Aggregation
  import opened Handlers
  import opened ReplicaInvariant
  import opened System

  predicate NoPastVotes(r: Replica) {
    forall round | round in r.tallies.votes :: round >= r.round
  }

  predicate NoPastTimeouts(r: Replica) {
    forall round | round in r.tallies.timeouts :: round >= r.round
  }

  /** The QC inside the timeout moves the replica beyond the timeout's own round, between
      the check of that round and the moment the timeout is counted. */
  predicate Overtaken(env: Env, r: Replica, timeout: Timeout) {
    && timeout.round >= r.round
    && timeout.Check(env.committee).Pass?
    && timeout.highQc.round >= timeout.round
  }

  ghost predicate Forgets(r: Replica, r': Replica) {
    && (NoPastVotes(r) ==> NoPastVotes(r'))
    && (NoPastTimeouts(r) ==> NoPastTimeouts(r'))
  }

  // ---------- the handlers ----------

  lemma AdvanceForgets(r: Replica, round: Round)
    ensures Forgets(r, AdvanceRound(r, round))
    ensures round >= r.round ==> NoPastVotes(AdvanceRound(r, round)) && NoPastTimeouts(AdvanceRound(r, round))
  {
  }

  lemma {:induction false} HandleVoteForgets(env: Env, r: Replica, vote: Vote)
    requires env.committee.authorities != map[]
    ensures Forgets(r, HandleVote(env, r, vote).replica)
  {
    var r1 := r.(tallies := AddVote(env.committee, r.tallies, vote).0);
    AdvanceForgets(r1, vote.round);
  }

  lemma AdvanceOnTcForgets(env: Env, r: Replica, tc: TC)
    requires env.committee.authorities != map[]
    ensures Forgets(r, AdvanceOnTc(env, r, tc))
    ensures tc.round >= r.round ==> NoPastTimeouts(AdvanceOnTc(env, r, tc))
    ensures tc.round < r.round ==> AdvanceOnTc(env, r, tc).tallies == r.tallies && AdvanceOnTc(env, r, tc).round == r.round
  {
    AdvanceForgets(r, tc.round);
  }

  /** Of a timeout, and of nothing else, a tally of a past round can be left behind: exactly
      when the timeout was overtaken by its own QC. */
  lemma {:induction false} HandleTimeoutForgets(env: Env, r: Replica, timeout: Timeout)
    requires env.committee.authorities != map[]
    ensures NoPastVotes(r) ==> NoPastVotes(HandleTimeout(env, r, timeout).replica)
    ensures NoPastTimeouts(r) ==>
              (NoPastTimeouts(HandleTimeout(env, r, timeout).replica) <==> !Overtaken(env, r, timeout))
  {
    if timeout.round >= r.round && timeout.Check(env.committee).Pass? {
      var r1 := ProcessQc(r, timeout.highQc);
      AdvanceForgets(r, timeout.highQc.round);
      var (tallies, made) := AddTimeout(env.committee, r1.tallies, timeout);
      var r2 := r1.(tallies := tallies);
      assert timeout.round in r2.tallies.timeouts;
      if made.Success? && made.value.Some? {
        AdvanceOnTcForgets(env, r2, made.value.value);
      }
    }
  }

  lemma VoteForForgets(env: Env, r: Replica, block: Block)
    requires env.committee.authorities != map[]
    ensures Forgets(r, VoteFor(env, r, block).replica)
  {
    if block.round == r.round {
      var (r1, made) := MakeVote(env, r, block);
      if made.Success? && made.value.Some? {
        HandleVoteForgets(env, r1, made.value.value);
      }
    }
  }

  lemma StoreAndCommitForgets(r: Replica, b0: Block, b1: Block, block: Block)
    ensures Forgets(r, StoreAndCommit(r, b0, b1, block).replica)
  {
  }

  lemma ProcessBlockForgets(env: Env, r: Replica, block: Block)
    requires env.committee.authorities != map[]
    ensures Forgets(r, ProcessBlock(env, r, block).replica)
  {
    var b1 := ParentOf(r.blocks, block);
    if b1.Some? && ParentOf(r.blocks, b1.value).Some? {
      var b0 := ParentOf(r.blocks, b1.value).value;
      var stored := StoreAndCommit(r, b0, b1.value, block);
      StoreAndCommitForgets(r, b0, b1.value, block);
      VoteForForgets(env, stored.replica, block);
    }
  }

  lemma HandleProposalForgets(env: Env, r: Replica, block: Block)
    requires env.committee.authorities != map[]
    ensures Forgets(r, HandleProposal(env, r, block).replica)
  {
    var r1 := ProcessCertificates(r, block);
    AdvanceForgets(r, block.qc.round);
    if block.tc.Some? {
      AdvanceForgets(ProcessQc(r, block.qc), block.tc.value.round);
    }
    ProcessBlockForgets(env, r1, block);
  }

  lemma LocalTimeoutForgets(env: Env, r: Replica)
    requires env.committee.authorities != map[] && r.highQc.round < r.round
    ensures Forgets(r, LocalTimeout(env, r).replica)
  {
    HandleTimeoutForgets(env, GiveUpRound(env, r), OwnTimeout(env, r));
  }

  lemma {:induction false} ReactForgets(env: Env, r: Replica, event: Event)
    requires env.committee.authorities != map[] && r.highQc.round < r.round
    ensures NoPastVotes(r) ==> NoPastVotes(React(env, r, event).replica)
    ensures NoPastTimeouts(r) ==>
              (NoPastTimeouts(React(env, r, event).replica) <==>
               !(event.ReceiveTimeout? && Overtaken(env, r, event.timeout)))
  {
    match event
    case ReceiveProposal(block) => HandleProposalForgets(env, r, block);
    case ReceiveVote(vote) => HandleVoteForgets(env, r, vote);
    case ReceiveTimeout(timeout) => HandleTimeoutForgets(env, r, timeout);
    case ReceiveTC(tc) => AdvanceForgets(r, tc.round);
    case ReceiveSyncRequest(missing, origin) =>
    case Loopback(block) => ProcessBlockForgets(env, r, block);
    case TimerFires => LocalTimeoutForgets(env, r);
    case ProposerRuns(payload) =>
    case BatchStored(digest) =>
  }

  // ---------- whole runs ----------

  lemma {:induction false} NextForgets(c: Committee, s: System, s': System, k: Key)
    requires c.authorities != map[] && SystemInv(c, s) && Next(c, s, s') && k in s'
    ensures k in s && (NoPastVotes(s[k]) ==> NoPastVotes(s'[k]))
  {
    var k', event :| StepBy(c, s, s', k', event);
    assert ReplicaInv(c, PoolOf(s), s[k]);
    ReactForgets(Env(k', c), s[k'], event);
  }

  lemma {:induction false} StepForgets(c: Committee, honest: set<Key>, run: seq<System>, i: nat, k: Key)
    requires Setting(c, honest) && IsRun(c, honest, run) && 0 < i < |run| && k in run[i]
    ensures k in run[i - 1] && (NoPastVotes(run[i - 1][k]) ==> NoPastVotes(run[i][k]))
  {
    RunKeeps(c, honest, run, i - 1);
    assert StepAt(c, run, i);
    NextForgets(c, run[i - 1], run[i], k);
  }

  lemma BootForgets(env: Env)
    requires env.committee.authorities != map[]
    ensures NoPastVotes(Boot(env))
  {
  }

  /** No replica ever holds votes of a round it has left. */
  lemma {:induction false} VotesAreCurrent(c: Committee, honest: set<Key>, run: seq<System>, i: nat, k: Key)
    requires Setting(c, honest) && IsRun(c, honest, run) && i < |run| && k in run[i]
    ensures NoPastVotes(run[i][k])
    decreases i
  {
    if i == 0 {
      BootForgets(Env(k, c));
    } else {
      StepForgets(c, honest, run, i, k);
      VotesAreCurrent(c, honest, run, i - 1, k);
    }
  }

  /** A replica that holds no timeouts of a past round comes to hold some exactly when it
      handles a valid timeout whose QC is not older than the timeout itself. */
  lemma PastTimeoutsExactly(c: Committee, honest: set<Key>, run: seq<System>, i: nat, k: Key, event: Event)
    requires Setting(c, honest) && IsRun(c, honest, run) && i < |run|
    requires k in run[i] && NoPastTimeouts(run[i][k])
    ensures NoPastTimeouts(React(Env(k, c), run[i][k], event).replica) <==>
            !(event.ReceiveTimeout? && Overtaken(Env(k, c), run[i][k], event.timeout))
  {
    RunKeeps(c, honest, run, i);
    assert ReplicaInv(c, PoolOf(run[i]), run[i][k]);
    ReactForgets(Env(k, c), run[i][k], event);
  }

  /** A timeout with an honest author's signature reports a QC older than itself. */
  lemma HonestTimeoutIsOlder(c: Committee, s: System, timeout: Timeout)
    requires SystemInv(c, s) && timeout.author in s && timeout.signature in PoolOf(s)
    requires timeout.Check(c).Pass?
    ensures timeout.highQc.round < timeout.round
  {
    var r := s[timeout.author];
    assert SignedBy(r, timeout.TimeoutDigest());
    var e :| e in r.out && SignedDigest(e) == Some(timeout.TimeoutDigest());
    assert ReplicaInv(c, PoolOf(s), r);
    assert EffectOk(c, PoolOf(s), r.highQc.round, r.lastVotedRound, e);
  }

  /** Only a faulty authority signs a timeout that is overtaken. */
  lemma OvertakenIsFaulty(c: Committee, honest: set<Key>, run: seq<System>, i: nat, k: Key, timeout: Timeout)
    requires Setting(c, honest) && IsRun(c, honest, run) && i < |run| && k in run[i]
    requires EventHeld(PoolOf(run[i]), run[i][k], ReceiveTimeout(timeout))
    requires Overtaken(Env(k, c), run[i][k], timeout)
    ensures timeout.author !in honest
  {
    RunKeeps(c, honest, run, i);
    if timeout.author in honest {
      HonestTimeoutIsOlder(c, run[i], timeout);
      assert false;
    }
  }
}
