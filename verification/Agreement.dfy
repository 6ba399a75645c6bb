/** The safety theorems: over every run, the honest replicas deliver one chain. */
module Agreement {
  import opened Config
  import opened Messages
  import opened Handlers
  import opened Frames
  import opened ReplicaInvariant
  import opened System
  import opened Locking
  import opened Commits

  lemma DeliveredMonotone(c: Committee, s: System, s': System, r: Replica, heads: seq<Digest>)
    requires PoolOf(s) <= PoolOf(s') && DeliveredUpTo(c, s, r, heads)
    ensures DeliveredUpTo(c, s', r, heads)
  {
    var head := Last(heads);
    if head != Zero {
      CertifiedMonotone(c, s, s', head);
      var child :| IsNextChild(c, s, head, child);
      CertifiedMonotone(c, s, s', child);
      assert IsNextChild(c, s', head, child);
    }
  }

  lemma CertifiedMonotone(c: Committee, s: System, s': System, id: Digest)
    requires PoolOf(s) <= PoolOf(s') && Certified(c, s, id)
    ensures Certified(c, s', id)
  {
    var qc :| CertifiedBy(c, s, id, qc);
    assert CertifiedBy(c, s', id, qc);
  }

  // ---------- one step ----------

  lemma {:induction false} StoreAndCommitDelivers(c: Committee, s: System, r: Replica, b0: Block, b1: Block, block: Block, heads: seq<Digest>)
    returns (heads': seq<Digest>)
    requires Good(c, s) && ReplicaInv(c, PoolOf(s), r) && DeliveredUpTo(c, s, r, heads)
    requires BlockHeld(c, PoolOf(s), block) && block.qc.round <= r.highQc.round
    requires ParentOf(r.blocks, block) == Some(b1) && ParentOf(r.blocks, b1) == Some(b0)
    ensures DeliveredUpTo(c, s, StoreAndCommit(r, b0, b1, block).replica, heads') && heads <= heads'
    ensures r.lastCommittedRound <= StoreAndCommit(r, b0, b1, block).replica.lastCommittedRound
  {
    var stored := StoreBlock(r, block);
    var cleanup := CleanupProposer(b0.payload + b1.payload + block.payload);
    assert ParentOf(r.blocks, b0).Some?;
    StoreBlockKeeps(c, PoolOf(s), r, block);
    SendKeeps(c, PoolOf(s), stored, cleanup);
    SendQuiet(stored, cleanup);
    KeepsParents(r, b0, b1, block);
    heads' := CommitRuleKeeps(c, s, stored.Send(cleanup), b0, b1, block, heads);
  }

  /** Storing a block does not change the parents already found for it. */
  lemma KeepsParents(r: Replica, b0: Block, b1: Block, block: Block)
    requires ParentOf(r.blocks, block) == Some(b1) && ParentOf(r.blocks, b1) == Some(b0)
    ensures var blocks := StoreBlock(r, block).blocks;
            ParentOf(blocks, block) == Some(b1) && ParentOf(blocks, b1) == Some(b0)
  {
  }

  lemma GrandparentStored(c: Committee, pool: Pool, r: Replica, block: Block) returns (b0: Block)
    requires ReplicaInv(c, pool, r) && ParentOf(r.blocks, block).Some?
    requires BlockHeld(c, pool, block) && block.qc.round <= r.highQc.round
    ensures ParentOf(r.blocks, ParentOf(r.blocks, block).value) == Some(b0)
    ensures StoreAndCommit(r, b0, ParentOf(r.blocks, block).value, block).status == Pass
  {
    var b1 := ParentOf(r.blocks, block).value;
    assert ParentOf(r.blocks, b1).Some?;
    b0 := ParentOf(r.blocks, b1).value;
    assert ParentOf(r.blocks, b0).Some?;
    StoreAndCommitKeeps(c, pool, r, b0, b1, block);
  }

  lemma VoteForQuiet(env: Env, r: Replica, block: Block)
    requires env.committee.authorities != map[]
    ensures Quiet(r, VoteFor(env, r, block).replica)
  {
    VoteForFrame(env, r, block);
    FrameQuiet(r, VoteFor(env, r, block).replica, {SignVote(block)});
  }

  lemma {:induction false} ProcessBlockDelivers(env: Env, s: System, r: Replica, block: Block, heads: seq<Digest>) returns (heads': seq<Digest>)
    requires Good(env.committee, s) && ReplicaInv(env.committee, PoolOf(s), r)
    requires DeliveredUpTo(env.committee, s, r, heads)
    requires BlockHeld(env.committee, PoolOf(s), block) && block.qc.round <= r.highQc.round
    ensures DeliveredUpTo(env.committee, s, ProcessBlock(env, r, block).replica, heads') && heads <= heads'
    ensures r.lastCommittedRound <= ProcessBlock(env, r, block).replica.lastCommittedRound
  {
    var parent := ParentOf(r.blocks, block);
    heads' := heads;
    if parent.None? {
      SendQuiet(r, AwaitParent(block));
    } else {
      var b0 := GrandparentStored(env.committee, PoolOf(s), r, block);
      heads' := StoreAndCommitDelivers(env.committee, s, r, b0, parent.value, block, heads);
      VoteForQuiet(env, StoreAndCommit(r, b0, parent.value, block).replica, block);
    }
  }

  lemma HandleProposalDelivers(env: Env, s: System, r: Replica, block: Block, heads: seq<Digest>) returns (heads': seq<Digest>)
    requires Good(env.committee, s) && ReplicaInv(env.committee, PoolOf(s), r)
    requires DeliveredUpTo(env.committee, s, r, heads) && BlockSignaturesHeld(PoolOf(s), block)
    ensures DeliveredUpTo(env.committee, s, HandleProposal(env, r, block).replica, heads') && heads <= heads'
    ensures r.lastCommittedRound <= HandleProposal(env, r, block).replica.lastCommittedRound
  {
    var c := env.committee;
    heads' := heads;
    if Admitted(env, block) {
      BlockCheckExact(c, block);
      ProcessCertificatesKeeps(c, PoolOf(s), r, block);
      CertificatesFrame(r, block);
      var r1 := ProcessCertificates(r, block);
      SendQuiet(r1, AwaitPayload(Missing(r1.Stored(), block.payload), block));
      if Missing(r1.Stored(), block.payload) == [] {
        heads' := ProcessBlockDelivers(env, s, r1, block, heads);
      }
    }
  }

  lemma LoopbackDelivers(env: Env, s: System, r: Replica, block: Block, heads: seq<Digest>) returns (heads': seq<Digest>)
    requires Good(env.committee, s) && ReplicaInv(env.committee, PoolOf(s), r)
    requires DeliveredUpTo(env.committee, s, r, heads) && MayLoopBack(r, block)
    ensures DeliveredUpTo(env.committee, s, ProcessBlock(env, r, block).replica, heads') && heads <= heads'
    ensures r.lastCommittedRound <= ProcessBlock(env, r, block).replica.lastCommittedRound
  {
    var e :| e in r.out && LoopsBack(e, block);
    assert EffectOk(env.committee, PoolOf(s), r.highQc.round, r.lastVotedRound, e);
    heads' := ProcessBlockDelivers(env, s, r, block, heads);
  }

  /** An event other than a block to handle delivers nothing. */
  lemma {:induction false} OthersQuiet(env: Env, r: Replica, event: Event)
    requires env.committee.authorities != map[]
    requires !event.ReceiveProposal? && !event.Loopback? && !event.ReceiveSyncRequest?
    requires React(env, r, event).status != Fail(Panicked)
    ensures Quiet(r, React(env, r, event).replica)
  {
    var r' := React(env, r, event).replica;
    ReactFrame(env, r, event);
    forall e | e in Added(r, r') ensures !e.Commit? {
      assert MayAdd(env, r, event, e);
      if event.ProposerRuns? {
        assert (r.out + [e])[|r.out|] == e;
      }
    }
    NothingDelivered(Added(r, r'));
    assert r'.out == r.out + Added(r, r');
    DeliveriesConcat(r.out, Added(r, r'));
  }

  lemma ReactDelivers(env: Env, s: System, r: Replica, event: Event, heads: seq<Digest>) returns (heads': seq<Digest>)
    requires Good(env.committee, s) && ReplicaInv(env.committee, PoolOf(s), r)
    requires DeliveredUpTo(env.committee, s, r, heads) && EventHeld(PoolOf(s), r, event)
    requires React(env, r, event).status != Fail(Panicked)
    ensures DeliveredUpTo(env.committee, s, React(env, r, event).replica, heads') && heads <= heads'
    ensures r.lastCommittedRound <= React(env, r, event).replica.lastCommittedRound
  {
    if event.ReceiveProposal? {
      heads' := HandleProposalDelivers(env, s, r, event.block, heads);
    } else if event.Loopback? {
      heads' := LoopbackDelivers(env, s, r, event.block, heads);
    } else {
      OthersQuiet(env, r, event);
      heads' := heads;
    }
  }

  // ---------- one step of the network ----------

  /** One step, seen from the state it leads to. */
  lemma CommitStep(c: Committee, s: System, s': System, k: Key, event: Event, heads: seq<Digest>) returns (heads': seq<Digest>)
    requires Good(c, s) && StepBy(c, s, s', k, event)
    requires Good(c, s') && PoolOf(s) <= PoolOf(s')
    requires DeliveredUpTo(c, s', s[k], heads)
    ensures DeliveredUpTo(c, s', s'[k], heads') && heads <= heads'
    ensures s[k].lastCommittedRound <= s'[k].lastCommittedRound
  {
    StepKeeps(c, s, s', k, event);
    EventMonotone(PoolOf(s), PoolOf(s'), s[k], event);
    HeldMonotone(c, PoolOf(s), PoolOf(s'), s[k]);
    heads' := ReactDelivers(Env(k, c), s', s[k], event, heads);
  }

  lemma {:induction false} StepIsGood(c: Committee, s: System, s': System, k: Key, event: Event)
    requires Good(c, s) && StepBy(c, s, s', k, event)
    ensures Good(c, s') && s'.Keys == s.Keys && PoolOf(s) <= PoolOf(s')
  {
    StepKeeps(c, s, s', k, event);
    ReactFrame(Env(k, c), s[k], event);
    PoolGrows(s, s', k, s'[k]);
    assert s'.Keys == s.Keys;
  }

  lemma StepDelivers(c: Committee, s: System, s': System, k: Key, event: Event)
    requires Good(c, s) && CommitInv(c, s) && StepBy(c, s, s', k, event)
    requires Good(c, s') && s'.Keys == s.Keys && PoolOf(s) <= PoolOf(s')
    ensures CommitInv(c, s')
    ensures forall j | j in s :: s[j].lastCommittedRound <= s'[j].lastCommittedRound
  {
    assert HasHeads(c, s, s[k]);
    var heads :| DeliveredUpTo(c, s, s[k], heads);
    DeliveredMonotone(c, s, s', s[k], heads);
    var heads' := CommitStep(c, s, s', k, event, heads);
    forall j | j in s
      ensures HasHeads(c, s', s'[j]) && s[j].lastCommittedRound <= s'[j].lastCommittedRound
    {
      OthersKeep(c, s, s', k, event, j, heads');
    }
  }

  lemma OthersKeep(c: Committee, s: System, s': System, k: Key, event: Event, j: Key, heads': seq<Digest>)
    requires c.authorities != map[] && CommitInv(c, s) && StepBy(c, s, s', k, event)
    requires j in s && PoolOf(s) <= PoolOf(s') && DeliveredUpTo(c, s', s'[k], heads')
    ensures HasHeads(c, s', s'[j])
    ensures j != k ==> s'[j] == s[j]
  {
    if j != k {
      assert HasHeads(c, s, s[j]);
      var heads :| DeliveredUpTo(c, s, s[j], heads);
      DeliveredMonotone(c, s, s', s[j], heads);
      assert s'[j] == s[j];
    }
  }

  // ---------- theorems over runs ----------

  lemma InitDelivers(c: Committee, honest: set<Key>, s: System)
    requires Setting(c, honest) && Init(c, honest, s)
    ensures Good(c, s) && CommitInv(c, s)
  {
    forall k | k in s
      ensures ReplicaInv(c, PoolOf(s), s[k])
      ensures HasHeads(c, s, s[k])
    {
      BootKeeps(Env(k, c), PoolOf(s));
      ProposeFrame(Env(k, c), STARTED, None);
      FrameQuiet(STARTED, s[k], {});
      assert DeliveredUpTo(c, s, s[k], [Zero]);
    }
  }

  lemma NextDelivers(c: Committee, s: System, s': System)
    requires Good(c, s) && CommitInv(c, s) && Next(c, s, s')
    ensures Good(c, s') && CommitInv(c, s') && s'.Keys == s.Keys
    ensures forall k | k in s :: s[k].lastCommittedRound <= s'[k].lastCommittedRound
  {
    var k, event :| StepBy(c, s, s', k, event);
    StepIsGood(c, s, s', k, event);
    StepDelivers(c, s, s', k, event);
  }

  lemma {:induction false} DeliversOn(c: Committee, honest: set<Key>, run: seq<System>, i: nat)
    requires c.authorities != map[] && IsRun(c, honest, run) && 0 < i < |run|
    requires Good(c, run[i - 1]) && CommitInv(c, run[i - 1])
    ensures Good(c, run[i]) && CommitInv(c, run[i]) && run[i].Keys == run[i - 1].Keys
    ensures forall k | k in run[i] :: run[i - 1][k].lastCommittedRound <= run[i][k].lastCommittedRound
  {
    StepOfRun(c, honest, run, i);
    NextDelivers(c, run[i - 1], run[i]);
  }

  lemma {:induction false} RunDelivers(c: Committee, honest: set<Key>, run: seq<System>, i: nat)
    requires Setting(c, honest) && IsRun(c, honest, run) && i < |run|
    ensures Good(c, run[i]) && CommitInv(c, run[i])
    decreases i
  {
    if i == 0 {
      InitDelivers(c, honest, run[0]);
    } else {
      RunDelivers(c, honest, run, i - 1);
      DeliversOn(c, honest, run, i);
    }
  }

  /** The heads a replica committed in turn. */
  lemma HeadsOf(c: Committee, honest: set<Key>, run: seq<System>, i: nat, k: Key) returns (heads: seq<Digest>)
    requires Setting(c, honest) && IsRun(c, honest, run) && i < |run| && k in run[i]
    ensures Good(c, run[i]) && DeliveredUpTo(c, run[i], run[i][k], heads)
    ensures Falling(Last(heads)) && Delivered(run[i][k].out) + {Zero} == Ancestors(Last(heads))
  {
    RunDelivers(c, honest, run, i);
    assert HasHeads(c, run[i], run[i][k]);
    heads :| DeliveredUpTo(c, run[i], run[i][k], heads);
    DeliveredExact(c, run[i], run[i][k], heads);
  }

  /** Of two honest replicas, the one that has committed less has delivered nothing the
      other has not, genesis aside. */
  lemma LaggingIsContained(c: Committee, honest: set<Key>, run: seq<System>, i: nat, k: Key, k': Key)
    requires Setting(c, honest) && IsRun(c, honest, run) && i < |run| && k in run[i] && k' in run[i]
    requires run[i][k].lastCommittedRound <= run[i][k'].lastCommittedRound
    ensures Delivered(run[i][k].out) <= Delivered(run[i][k'].out) + {Zero}
  {
    var heads := HeadsOf(c, honest, run, i, k);
    var heads' := HeadsOf(c, honest, run, i, k');
    HeadsComparable(c, run[i], Last(heads), Last(heads'));
    AncestorsWithin(Last(heads'), Last(heads));
  }

  /** Agreement: any two blocks delivered by honest replicas lie on one chain. */
  lemma Agreement(c: Committee, honest: set<Key>, run: seq<System>, i: nat, k: Key, k': Key, b: Block, b': Block)
    requires Setting(c, honest) && IsRun(c, honest, run) && i < |run|
    requires k in run[i] && Commit(b) in run[i][k].out
    requires k' in run[i] && Commit(b') in run[i][k'].out
    ensures Extends(IdOf(b), IdOf(b')) || Extends(IdOf(b'), IdOf(b))
  {
    CommittedIsDelivered(run[i][k].out, b);
    CommittedIsDelivered(run[i][k'].out, b');
    var last := if run[i][k].lastCommittedRound <= run[i][k'].lastCommittedRound then k' else k;
    var heads := HeadsOf(c, honest, run, i, last);
    LaggingIsContained(c, honest, run, i, if last == k then k' else k, last);
    AncestorsExact(Last(heads), IdOf(b));
    AncestorsExact(Last(heads), IdOf(b'));
    AncestorsComparable(Last(heads), IdOf(b), IdOf(b'));
  }

  /** Completeness: what a replica has delivered, genesis aside, is exactly the certified
      chain that ends in its highest delivered block. */
  lemma DeliveredIsOneChain(c: Committee, honest: set<Key>, run: seq<System>, i: nat, k: Key) returns (head: Digest)
    requires Setting(c, honest) && IsRun(c, honest, run) && i < |run| && k in run[i]
    ensures Delivered(run[i][k].out) + {Zero} == Ancestors(head)
    ensures RoundOf(head) == run[i][k].lastCommittedRound
    ensures forall id | id in Delivered(run[i][k].out) && id != head :: RoundOf(id) < RoundOf(head)
    ensures forall id | id in Delivered(run[i][k].out) && id != Zero :: Certified(c, run[i], id)
  {
    var heads := HeadsOf(c, honest, run, i, k);
    head := Last(heads);
    forall id | id in Delivered(run[i][k].out)
      ensures id != head ==> RoundOf(id) < RoundOf(head)
      ensures id != Zero ==> Certified(c, run[i], id)
    {
      AncestorsExact(head, id);
      if id != head {
        AncestorsOlder(c, run[i], head, id);
      }
    }
  }

  /** The deliveries of a replica, one by one: it committed the heads of 2-chains on one
      chain, and its deliveries are exactly those the commits bring, in their order. A block
      is delivered once if it is on the chain, and a second time exactly if it was a head
      followed by a gap; genesis at most once, on a gap before the first head. By
      `NothingOlderAgain` no commit delivers anything below the head before it. */
  lemma DeliveredExactly(c: Committee, honest: set<Key>, run: seq<System>, i: nat, k: Key) returns (heads: seq<Digest>)
    requires Setting(c, honest) && IsRun(c, honest, run) && i < |run| && k in run[i]
    ensures Climbs(heads) && Falling(Last(heads)) && RoundOf(Last(heads)) == run[i][k].lastCommittedRound
    ensures Deliveries(run[i][k].out) == Script(heads)
    ensures forall x :: multiset(Deliveries(run[i][k].out))[x] ==
              (if x in Ancestors(Last(heads)) && x != Zero then 1 else 0) + (if GapAfter(heads, x) then 1 else 0)
  {
    heads := HeadsOf(c, honest, run, i, k);
    forall x ensures multiset(Deliveries(run[i][k].out))[x] ==
              (if x in Ancestors(Last(heads)) && x != Zero then 1 else 0) + (if GapAfter(heads, x) then 1 else 0)
    {
      ScriptCounts(heads, x);
    }
  }

  lemma {:induction false} NextCommitted(c: Committee, honest: set<Key>, run: seq<System>, j: nat, k: Key)
    requires Setting(c, honest) && IsRun(c, honest, run) && 0 < j < |run| && k in run[j - 1]
    ensures k in run[j] && run[j - 1][k].lastCommittedRound <= run[j][k].lastCommittedRound
  {
    RunDelivers(c, honest, run, j - 1);
    DeliversOn(c, honest, run, j);
  }

  /** The last committed round never decreases. */
  lemma {:induction false} LastCommittedNeverDecreases(c: Committee, honest: set<Key>, run: seq<System>, i: nat, j: nat, k: Key)
    requires Setting(c, honest) && IsRun(c, honest, run) && i <= j < |run| && k in run[i]
    ensures k in run[j] && run[i][k].lastCommittedRound <= run[j][k].lastCommittedRound
    decreases j
  {
    if i < j {
      LastCommittedNeverDecreases(c, honest, run, i, j - 1, k);
      NextCommitted(c, honest, run, j, k);
    }
  }

  /** At most one block is certified per round, in every reachable state. */
  lemma OneBlockPerRound(c: Committee, honest: set<Key>, run: seq<System>, i: nat, qc: QC, qc': QC)
    requires Setting(c, honest) && IsRun(c, honest, run) && i < |run|
    requires QcHeld(c, PoolOf(run[i]), qc) && QcHeld(c, PoolOf(run[i]), qc')
    requires qc.round == qc'.round
    ensures qc.hash == qc'.hash
  {
    RunDelivers(c, honest, run, i);
    var s := run[i];
    ParentCertificate(c, s, qc);
    ParentCertificate(c, s, qc');
    if qc.hash != Zero && qc'.hash != Zero {
      OneCertifiedPerRound(c, s, qc.hash, qc'.hash);
    } else {
      if qc.hash != Zero {
        ParentOfCertified(c, s, qc.hash);
      }
      if qc'.hash != Zero {
        ParentOfCertified(c, s, qc'.hash);
      }
    }
  }

  /** The lock a vote leaves behind: the high QC is at least the QC of every block voted
      for, and so is the round reported by every timeout of that round or a later one. */
  lemma HighQcLock(c: Committee, honest: set<Key>, run: seq<System>, i: nat, k: Key, b: Block)
    requires Setting(c, honest) && IsRun(c, honest, run) && i < |run|
    requires k in run[i] && SignVote(b) in run[i][k].out
    ensures b.qc.round <= run[i][k].highQc.round < run[i][k].round
    ensures b.qc.round < b.round <= run[i][k].lastVotedRound
    ensures forall t | SignTimeout(t) in run[i][k].out && t.round >= b.round :: t.highQc.round >= b.qc.round
    ensures forall b' | SignVote(b') in run[i][k].out && b'.round == b.round :: b' == b
  {
    RunKeeps(c, honest, run, i);
    var r := run[i][k];
    assert EffectOk(c, PoolOf(run[i]), r.highQc.round, r.lastVotedRound, SignVote(b));
  }
}
