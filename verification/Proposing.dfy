/** When a replica asks its proposer for a block, and which blocks come of it. */
module Proposing {
  import opened Config
  import opened Messages
  import opened Aggregation
  import opened Leader
  import opened Handlers
  import opened ReplicaInvariant
  import opened System

  // ---------- the requests of one step ----------

  /** A step that sends no request and does not lower the round. */
  ghost predicate NoMake(r: Replica, r': Replica) {
    Makes(r'.out) == Makes(r.out) && Proposals(r'.out) == Proposals(r.out) && r.round <= r'.round
  }

  /** The step sends exactly this request, for the round it has just entered. */
  ghost predicate OneMake(env: Env, r: Replica, r': Replica, m: Effect)
    requires env.committee.authorities != map[]
  {
    && m.Make?
    && Makes(r'.out) == Makes(r.out) + [m] && Proposals(r'.out) == Proposals(r.out)
    && r.round < r'.round == m.round
    && m.qc == r'.highQc
    && env.name == LeaderOf(env.committee, m.round)
  }

  ghost predicate MakesOnlyOnEntry(env: Env, r: Replica, r': Replica)
    requires env.committee.authorities != map[]
  {
    NoMake(r, r') || exists m :: OneMake(env, r, r', m)
  }

  /** Every request of the step satisfies the second voting rule. */
  ghost predicate NewMakesVotable(r: Replica, r': Replica) {
    forall i | |Makes(r.out)| <= i < |Makes(r'.out)| ::
      var m := Makes(r'.out)[i];
      m.Make? && RuleTwo(m.qc, m.proposalTc, m.round)
  }

  lemma SendAdds(r: Replica, e: Effect)
    ensures Makes(r.Send(e).out) == Makes(r.out) + if e.Make? then [e] else []
    ensures Proposals(r.Send(e).out) == Proposals(r.out) + if e.Propose? then [e] else []
  {
    assert (r.out + [e])[..|r.out|] == r.out;
  }

  lemma ProposeOnEntry(env: Env, r: Replica, r1: Replica, tc: Option<TC>)
    requires env.committee.authorities != map[]
    requires NoMake(r, r1) && r.round < r1.round
    ensures MakesOnlyOnEntry(env, r, ProposeIfLeader(env, r1, tc))
    ensures RuleTwo(r1.highQc, tc, r1.round) ==> NewMakesVotable(r, ProposeIfLeader(env, r1, tc))
  {
    var m := Make(r1.round, r1.highQc, tc);
    SendAdds(r1, m);
    if env.name == LeaderOf(env.committee, r1.round) {
      assert OneMake(env, r, r1.Send(m), m);
    }
  }

  /** A locally assembled QC: the new round follows it directly. */
  lemma HandleVoteMakes(env: Env, r: Replica, vote: Vote)
    requires env.committee.authorities != map[]
    ensures MakesOnlyOnEntry(env, r, HandleVote(env, r, vote).replica)
    ensures r.highQc.round < r.round ==> NewMakesVotable(r, HandleVote(env, r, vote).replica)
  {
    var (tallies, made) := AddVote(env.committee, r.tallies, vote);
    if vote.round >= r.round && made.Success? && made.value.Some? {
      ProposeOnEntry(env, r, ProcessQc(r.(tallies := tallies), made.value.value), None);
    }
  }

  lemma AdvanceOnTcMakes(env: Env, r: Replica, r1: Replica, tc: TC)
    requires env.committee.authorities != map[]
    requires NoMake(r, r1) && r.round < AdvanceRound(r1, tc.round).round
    ensures MakesOnlyOnEntry(env, r, AdvanceOnTc(env, r1, tc))
    ensures var r2 := AdvanceRound(r1, tc.round);
            RuleTwo(r2.highQc, Some(tc), r2.round) ==> NewMakesVotable(r, AdvanceOnTc(env, r1, tc))
  {
    var r2 := AdvanceRound(r1, tc.round);
    SendAdds(r2, BroadcastTC(tc));
    ProposeOnEntry(env, r, r2.Send(BroadcastTC(tc)), Some(tc));
  }

  /** A timeout that completes a TC moves the replica on, be it through the QC the timeout
      carries or through the TC: a request always is for a round just entered. */
  lemma HandleTimeoutMakes(env: Env, r: Replica, timeout: Timeout)
    requires env.committee.authorities != map[]
    ensures MakesOnlyOnEntry(env, r, HandleTimeout(env, r, timeout).replica)
  {
    var r1 := ProcessQc(r, timeout.highQc);
    var (tallies, made) := AddTimeout(env.committee, r1.tallies, timeout);
    if timeout.round >= r.round && made.Success? && made.value.Some? {
      AdvanceOnTcMakes(env, r, r1.(tallies := tallies), made.value.value);
    }
  }

  /** The maker's reports never exceed the replica's own high QC, so the request made on a
      locally assembled TC can be voted for. */
  lemma {:induction false} HandleTimeoutMakesVotable(env: Env, pool: Pool, r: Replica, timeout: Timeout)
    requires env.committee.authorities != map[]
    requires ReplicaInv(env.committee, pool, r) && timeout.signature in pool
    requires timeout.highQc.IsGenesis() || VotesHeld(pool, timeout.highQc.votes)
    ensures NewMakesVotable(r, HandleTimeout(env, r, timeout).replica)
  {
    var c := env.committee;
    if timeout.round >= r.round && timeout.Check(c).Pass? {
      var r1 := ProcessQc(r, timeout.highQc);
      var (tallies, made) := AddTimeout(c, r1.tallies, timeout);
      if made.Success? && made.value.Some? {
        var tc := made.value.value;
        var r2 := r1.(tallies := tallies);
        LocalTcVotable(c, pool, r, timeout);
        AdvanceOnTcMakes(env, r, r2, tc);
      }
    }
  }

  lemma LocalTcVotable(c: Committee, pool: Pool, r: Replica, timeout: Timeout)
    requires ReplicaInv(c, pool, r) && timeout.signature in pool
    requires timeout.highQc.IsGenesis() || VotesHeld(pool, timeout.highQc.votes)
    requires timeout.round >= r.round && timeout.Check(c).Pass?
    ensures var r1 := ProcessQc(r, timeout.highQc);
            var made := AddTimeout(c, r1.tallies, timeout).1;
            made.Success? && made.value.Some? ==>
              var tc := made.value.value;
              && tc.round == timeout.round
              && RuleTwo(r1.highQc, Some(tc), AdvanceRound(r1, tc.round).round)
  {
    QCCheckExact(c, timeout.highQc);
    ProcessQcKeeps(c, pool, r, timeout.highQc);
    var r1 := ProcessQc(r, timeout.highQc);
    AddTimeoutKeeps(c, pool, r1.highQc.round, r1.tallies, timeout);
  }

  lemma HandleTcMakes(env: Env, r: Replica, tc: TC)
    requires env.committee.authorities != map[]
    ensures MakesOnlyOnEntry(env, r, HandleTc(env, r, tc).replica)
  {
    if tc.round >= r.round {
      ProposeOnEntry(env, r, AdvanceRound(r, tc.round), Some(tc));
    }
  }

  /** A received TC: the request it leads to can be voted for exactly when the replica's
      own high QC is no older than every report in the TC. */
  lemma HandleTcVotableExactly(env: Env, r: Replica, tc: TC)
    requires env.committee.authorities != map[]
    requires r.highQc.round < r.round <= tc.round && tc.Check(env.committee).Pass?
    requires env.name == LeaderOf(env.committee, tc.round + 1)
    ensures var r' := HandleTc(env, r, tc).replica;
            |Makes(r'.out)| == |Makes(r.out)| + 1
            && (NewMakesVotable(r, r') <==> tc.AtMost(r.highQc.round))
  {
    var r1 := AdvanceRound(r, tc.round);
    var m := Make(r1.round, r1.highQc, Some(tc));
    SendAdds(r1, m);
    OneNewMake(r, r1.Send(m), m);
  }

  lemma OneNewMake(r: Replica, r': Replica, m: Effect)
    requires m.Make? && Makes(r'.out) == Makes(r.out) + [m]
    ensures NewMakesVotable(r, r') <==> RuleTwo(m.qc, m.proposalTc, m.round)
  {
    assert Makes(r'.out)[|Makes(r.out)|] == m;
  }

  // ---------- the other handlers ----------

  lemma StoreAndCommitMakesNone(r: Replica, b0: Block, b1: Block, block: Block)
    ensures NoMake(r, StoreAndCommit(r, b0, b1, block).replica)
    ensures StoreAndCommit(r, b0, b1, block).replica.highQc == r.highQc
    ensures StoreAndCommit(r, b0, b1, block).replica.round == r.round
  {
    var cleanup := CleanupProposer(b0.payload + b1.payload + block.payload);
    var r1 := StoreBlock(r, block);
    SendAdds(r1, cleanup);
    if b0.round + 1 == b1.round {
      var r2 := r1.Send(cleanup);
      SendAdds(r2, CleanupMempool(b0.round));
      CommitBlockMakesNone(r2.Send(CleanupMempool(b0.round)), b0);
    }
  }

  lemma CommitBlockMakesNone(r: Replica, block: Block)
    ensures NoMake(r, CommitBlock(r, block).replica)
  {
    var (found, missing) := Walk(r.blocks, r.lastCommittedRound, block);
    if missing.Some? {
      SendAdds(r, AwaitParent(missing.value));
    }
    OnlyCommitsAdd(r.out, CommitEffects(found + [block]));
  }

  lemma {:induction false} OnlyCommitsAdd(out: seq<Effect>, more: seq<Effect>)
    requires forall i | 0 <= i < |more| :: more[i].Commit?
    ensures Makes(out + more) == Makes(out) && Proposals(out + more) == Proposals(out)
    decreases |more|
  {
    if more == [] {
      assert out + more == out;
    } else {
      OnlyCommitsAdd(out, more[..|more| - 1]);
      assert (out + more)[..|out + more| - 1] == out + more[..|more| - 1];
    }
  }

  lemma VoteForMakes(env: Env, r: Replica, block: Block)
    requires env.committee.authorities != map[]
    ensures MakesOnlyOnEntry(env, r, VoteFor(env, r, block).replica)
    ensures r.highQc.round < r.round ==> NewMakesVotable(r, VoteFor(env, r, block).replica)
  {
    if block.round == r.round {
      var (r1, made) := MakeVote(env, r, block);
      SendAdds(r.(lastVotedRound := block.round), SignVote(block));
      assert NoMake(r, r1);
      if made.Success? && made.value.Some? {
        var vote := made.value.value;
        HandleVoteMakes(env, r1, vote);
        EntryAfterQuiet(env, r, r1, HandleVote(env, r1, vote).replica);
        SendAdds(r1, SendVote(LeaderOf(env.committee, r1.round + 1), vote));
      }
    }
  }

  lemma EntryAfterQuiet(env: Env, r: Replica, r1: Replica, r2: Replica)
    requires env.committee.authorities != map[]
    requires NoMake(r, r1) && MakesOnlyOnEntry(env, r1, r2)
    ensures MakesOnlyOnEntry(env, r, r2)
    ensures NewMakesVotable(r1, r2) ==> NewMakesVotable(r, r2)
  {
    if !NoMake(r1, r2) {
      var m :| OneMake(env, r1, r2, m);
      assert OneMake(env, r, r2, m);
    }
  }

  lemma ProcessBlockMakes(env: Env, r: Replica, block: Block)
    requires env.committee.authorities != map[]
    ensures MakesOnlyOnEntry(env, r, ProcessBlock(env, r, block).replica)
    ensures r.highQc.round < r.round ==> NewMakesVotable(r, ProcessBlock(env, r, block).replica)
  {
    SendAdds(r, AwaitParent(block));
    var parent := ParentOf(r.blocks, block);
    if parent.Some? {
      var b1 := parent.value;
      SendAdds(r, AwaitParent(b1));
      if ParentOf(r.blocks, b1).Some? {
        var b0 := ParentOf(r.blocks, b1).value;
        var stored := StoreAndCommit(r, b0, b1, block).replica;
        StoreAndCommitMakesNone(r, b0, b1, block);
        VoteForMakes(env, stored, block);
        EntryAfterQuiet(env, r, stored, VoteFor(env, stored, block).replica);
      }
    }
  }

  lemma CertificatesMakeNone(r: Replica, block: Block)
    ensures NoMake(r, ProcessCertificates(r, block))
    ensures r.highQc.round < r.round ==>
              ProcessCertificates(r, block).highQc.round < ProcessCertificates(r, block).round
  {
  }

  lemma {:induction false} HandleProposalMakes(env: Env, r: Replica, block: Block)
    requires env.committee.authorities != map[]
    ensures MakesOnlyOnEntry(env, r, HandleProposal(env, r, block).replica)
    ensures r.highQc.round < r.round ==> NewMakesVotable(r, HandleProposal(env, r, block).replica)
  {
    var r1 := ProcessCertificates(r, block);
    CertificatesMakeNone(r, block);
    SendAdds(r1, AwaitPayload(Missing(r1.Stored(), block.payload), block));
    EntryAfterCertificates(env, r, r1, block);
  }

  lemma EntryAfterCertificates(env: Env, r: Replica, r1: Replica, block: Block)
    requires env.committee.authorities != map[] && NoMake(r, r1)
    ensures MakesOnlyOnEntry(env, r, ProcessBlock(env, r1, block).replica)
    ensures r1.highQc.round < r1.round ==> NewMakesVotable(r, ProcessBlock(env, r1, block).replica)
  {
    ProcessBlockMakes(env, r1, block);
    EntryAfterQuiet(env, r, r1, ProcessBlock(env, r1, block).replica);
  }

  lemma GiveUpRoundMakesNone(env: Env, r: Replica)
    ensures NoMake(r, GiveUpRound(env, r))
  {
    var timeout := OwnTimeout(env, r);
    var r1 := r.(lastVotedRound := if r.round > r.lastVotedRound then r.round else r.lastVotedRound);
    SendAdds(r1, SignTimeout(timeout));
    SendAdds(r1.Send(SignTimeout(timeout)).Rewind(), BroadcastTimeout(timeout));
  }

  lemma LocalTimeoutMakes(env: Env, r: Replica)
    requires env.committee.authorities != map[]
    ensures MakesOnlyOnEntry(env, r, LocalTimeout(env, r).replica)
  {
    var r2, timeout := GiveUpRound(env, r), OwnTimeout(env, r);
    GiveUpRoundMakesNone(env, r);
    HandleTimeoutMakes(env, r2, timeout);
    EntryAfterQuiet(env, r, r2, HandleTimeout(env, r2, timeout).replica);
  }

  // ---------- requests and proposals over whole runs ----------

  ghost predicate BlockOfMake(env: Env, m: Effect, e: Effect) {
    && m.Make? && e.Propose?
    && e.block == NewBlock(m.qc, m.proposalTc, env.name, m.round, e.block.payload)
  }

  /** The rounds of the requests strictly increase, each is for a round this replica leads
      and has entered, and the proposals answer the requests one by one. */
  ghost predicate MakesInv(env: Env, r: Replica)
    requires env.committee.authorities != map[]
  {
    var makes, proposals := Makes(r.out), Proposals(r.out);
    && (forall i | 0 <= i < |makes| ::
          makes[i].Make? && makes[i].round <= r.round && env.name == LeaderOf(env.committee, makes[i].round))
    && (forall i, j | 0 <= i < j < |makes| :: makes[i].Make? && makes[j].Make? && makes[i].round < makes[j].round)
    && |proposals| <= |makes|
    && (forall i | 0 <= i < |proposals| :: BlockOfMake(env, makes[i], proposals[i]))
  }

  lemma OnEntryKeeps(env: Env, r: Replica, r': Replica)
    requires env.committee.authorities != map[]
    requires MakesInv(env, r) && MakesOnlyOnEntry(env, r, r')
    ensures MakesInv(env, r')
  {
    if !NoMake(r, r') {
      var m :| OneMake(env, r, r', m);
    }
  }

  lemma ServeMakeKeepsMakes(env: Env, r: Replica, payload: seq<Digest>)
    requires env.committee.authorities != map[] && MakesInv(env, r)
    ensures MakesInv(env, ServeMake(env, r, payload))
  {
    var makes, served := Makes(r.out), |Proposals(r.out)|;
    if served < |makes| {
      MakesAreMakes(r.out);
      var m := makes[served];
      SendAdds(r, Propose(NewBlock(m.qc, m.proposalTc, env.name, m.round, payload)));
    }
  }

  /** No handler of the core asks for a block but for the round it enters. */
  lemma CoreMakesOnEntry(env: Env, r: Replica, event: Event)
    requires env.committee.authorities != map[] && !event.ProposerRuns?
    ensures MakesOnlyOnEntry(env, r, React(env, r, event).replica)
  {
    match event
    case ReceiveProposal(block) => HandleProposalMakes(env, r, block);
    case ReceiveVote(vote) => HandleVoteMakes(env, r, vote);
    case ReceiveTimeout(timeout) => HandleTimeoutMakes(env, r, timeout);
    case ReceiveTC(tc) => HandleTcMakes(env, r, tc);
    case ReceiveSyncRequest(missing, origin) =>
    case Loopback(block) => ProcessBlockMakes(env, r, block);
    case TimerFires => LocalTimeoutMakes(env, r);
    case BatchStored(digest) =>
  }

  lemma ReactMakes(env: Env, r: Replica, event: Event)
    requires env.committee.authorities != map[] && MakesInv(env, r)
    ensures MakesInv(env, React(env, r, event).replica)
  {
    if event.ProposerRuns? {
      ServeMakeKeepsMakes(env, r, event.payload);
    } else {
      CoreMakesOnEntry(env, r, event);
      OnEntryKeeps(env, r, React(env, r, event).replica);
    }
  }

  lemma BootMakes(env: Env)
    requires env.committee.authorities != map[]
    ensures MakesInv(env, Boot(env))
  {
    assert Makes(STARTED.out) == [] && Proposals(STARTED.out) == [];
    SendAdds(STARTED, Make(1, GENESIS_QC, None));
  }

  lemma BootMakesVotable(env: Env)
    requires env.committee.authorities != map[]
    ensures NewMakesVotable(STARTED, Boot(env))
  {
    var m := Make(1, GENESIS_QC, None);
    SendAdds(STARTED, m);
    OneNewMake(STARTED, STARTED.Send(m), m);
  }

  lemma NextMakes(c: Committee, s: System, s': System, k: Key)
    requires c.authorities != map[] && Next(c, s, s') && k in s'
    ensures k in s && (MakesInv(Env(k, c), s[k]) ==> MakesInv(Env(k, c), s'[k]))
  {
    var k', event :| StepBy(c, s, s', k', event);
    if k == k' && MakesInv(Env(k, c), s[k]) {
      ReactMakes(Env(k, c), s[k], event);
    }
  }

  lemma StepMakes(c: Committee, honest: set<Key>, run: seq<System>, i: nat, k: Key)
    requires c.authorities != map[] && IsRun(c, honest, run) && 0 < i < |run| && k in run[i]
    ensures k in run[i - 1] && (MakesInv(Env(k, c), run[i - 1][k]) ==> MakesInv(Env(k, c), run[i][k]))
  {
    assert StepAt(c, run, i);
    NextMakes(c, run[i - 1], run[i], k);
  }

  lemma {:induction false} RunMakes(c: Committee, honest: set<Key>, run: seq<System>, i: nat, k: Key)
    requires c.authorities != map[] && IsRun(c, honest, run) && i < |run| && k in run[i]
    ensures MakesInv(Env(k, c), run[i][k])
    decreases i
  {
    if i == 0 {
      BootMakes(Env(k, c));
    } else {
      StepMakes(c, honest, run, i, k);
      RunMakes(c, honest, run, i - 1, k);
    }
  }

  /** The rounds for which a replica asks its proposer for a block strictly increase, so
      it never asks twice for one round. This needs no bound on anybody's stake. */
  lemma MakeRoundsIncrease(c: Committee, honest: set<Key>, run: seq<System>, i: nat, k: Key, m: nat, n: nat)
    requires c.authorities != map[] && IsRun(c, honest, run) && i < |run| && k in run[i]
    requires m < n < |Makes(run[i][k].out)|
    ensures var makes := Makes(run[i][k].out);
            makes[m].Make? && makes[n].Make? && makes[m].round < makes[n].round <= run[i][k].round
  {
    RunMakes(c, honest, run, i, k);
  }

  lemma {:induction false} ProposalsHoldAll(out: seq<Effect>, e: Effect)
    requires e in out && e.Propose?
    ensures e in Proposals(out)
    decreases |out|
  {
    if e in out[..|out| - 1] {
      ProposalsHoldAll(out[..|out| - 1], e);
    }
  }

  /** Every proposal answers one of the requests. */
  lemma AnswersMake(env: Env, r: Replica, b: Block) returns (n: nat)
    requires env.committee.authorities != map[] && MakesInv(env, r) && Propose(b) in r.out
    ensures n < |Proposals(r.out)| <= |Makes(r.out)|
    ensures Proposals(r.out)[n] == Propose(b) && BlockOfMake(env, Makes(r.out)[n], Propose(b))
  {
    ProposalsHoldAll(r.out, Propose(b));
    n :| 0 <= n < |Proposals(r.out)| && Proposals(r.out)[n] == Propose(b);
  }

  /** An honest replica never signs two blocks of one round, and signs only blocks of
      rounds it leads. */
  lemma NoEquivocation(c: Committee, honest: set<Key>, run: seq<System>, i: nat, k: Key, b: Block, b': Block)
    requires c.authorities != map[] && IsRun(c, honest, run) && i < |run| && k in run[i]
    requires Propose(b) in run[i][k].out && Propose(b') in run[i][k].out
    ensures b.author == k == LeaderOf(c, b.round)
    ensures b.round == b'.round ==> b == b'
  {
    RunMakes(c, honest, run, i, k);
    var m := AnswersMake(Env(k, c), run[i][k], b);
    var n := AnswersMake(Env(k, c), run[i][k], b');
  }

  /** Every block an honest authority proposes passes the checks of `handle_proposal` at
      every replica. */
  lemma HonestProposalPasses(c: Committee, honest: set<Key>, run: seq<System>, i: nat, k: Key, b: Block)
    requires Setting(c, honest) && IsRun(c, honest, run) && i < |run| && k in run[i]
    requires Propose(b) in run[i][k].out && c.StakeOf(k) > 0
    ensures b.author == LeaderOf(c, b.round) && b.Check(c).Pass?
  {
    RunMakes(c, honest, run, i, k);
    var n := AnswersMake(Env(k, c), run[i][k], b);
    ProposedIsHeld(c, honest, run, i, k, b);
    BlockCheckExact(c, b);
  }

  lemma ProposedIsHeld(c: Committee, honest: set<Key>, run: seq<System>, i: nat, k: Key, b: Block)
    requires Setting(c, honest) && IsRun(c, honest, run) && i < |run| && k in run[i]
    requires Propose(b) in run[i][k].out
    ensures BlockHeld(c, PoolOf(run[i]), b)
  {
    RunKeeps(c, honest, run, i);
    var r := run[i][k];
    assert EffectOk(c, PoolOf(run[i]), r.highQc.round, r.lastVotedRound, Propose(b));
  }

  /** Every request made at boot or on a certificate the replica assembled itself, in
      whatever state a run has led to, satisfies the second voting rule. */
  lemma {:induction false} LocalMakesVotable(c: Committee, honest: set<Key>, run: seq<System>, i: nat, k: Key, event: Event)
    requires Setting(c, honest) && IsRun(c, honest, run) && i < |run|
    requires k in run[i] && EventHeld(PoolOf(run[i]), run[i][k], event) && !event.ReceiveTC?
    ensures NewMakesVotable(STARTED, Boot(Env(k, c)))
    ensures NewMakesVotable(run[i][k], React(Env(k, c), run[i][k], event).replica)
  {
    var env, r := Env(k, c), run[i][k];
    BootMakesVotable(env);
    RunKeeps(c, honest, run, i);
    match event
    case ReceiveProposal(block) => HandleProposalMakes(env, r, block);
    case ReceiveVote(vote) => HandleVoteMakes(env, r, vote);
    case ReceiveTimeout(timeout) => HandleTimeoutMakesVotable(env, PoolOf(run[i]), r, timeout);
    case Loopback(block) => ProcessBlockMakes(env, r, block);
    case TimerFires => LocalTimeoutVotable(c, run[i], k);
    case ProposerRuns(payload) =>
      var makes, served := Makes(r.out), |Proposals(r.out)|;
      if served < |makes| {
        MakesAreMakes(r.out);
        var m := makes[served];
        SendAdds(r, Propose(NewBlock(m.qc, m.proposalTc, env.name, m.round, payload)));
      }
    case BatchStored(digest) =>
  }

  /** The replica's own timeout, whose signature is only now being made. */
  lemma LocalTimeoutVotable(c: Committee, s: System, k: Key)
    requires c.authorities != map[] && SystemInv(c, s) && k in s
    ensures NewMakesVotable(s[k], LocalTimeout(Env(k, c), s[k]).replica)
  {
    var env, r := Env(k, c), s[k];
    var pool := iset sig: Signature | sig in PoolOf(s) || (sig.Signed? && sig.signer == k);
    HeldMonotone(c, PoolOf(s), pool, r);
    GiveUpRoundKeeps(env, pool, r);
    GiveUpRoundMakesNone(env, r);
    HandleTimeoutMakesVotable(env, pool, GiveUpRound(env, r), OwnTimeout(env, r));
  }
}
