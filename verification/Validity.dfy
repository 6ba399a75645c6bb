/** Whose blocks replicas vote for: those of the round's leader, and if the leader is
    honest, only a block it proposed. */
module Validity {
  import opened Config
  import opened Messages
  import opened Leader
  import opened Handlers
  import opened Frames
  import opened ReplicaInvariant
  import opened System
  import opened Locking
  import opened Commits
  import Agreement
  import opened Proposing

  /** The effect is a vote for the block, or puts it on its way back to the replica. */
  predicate Carries(e: Effect, block: Block) {
    e == SignVote(block) || LoopsBack(e, block)
  }

  /** The block is by the leader of its round, with a signature that exists. */
  ghost predicate Authored(c: Committee, pool: Pool, block: Block) {
    && c.authorities != map[]
    && block.author == LeaderOf(c, block.round)
    && block.signature.Checks(block.BlockDigest(), block.author)
    && block.signature in pool
  }

  ghost predicate AuthoredInv(c: Committee, pool: Pool, r: Replica) {
    forall e, b | e in r.out && Carries(e, b) :: Authored(c, pool, b)
  }

  // ---------- one step ----------

  /** The proposer signs blocks of rounds the replica leads. */
  lemma ServedIsAuthored(env: Env, pool: Pool, r: Replica, payload: seq<Digest>, e: Effect, block: Block)
    requires env.committee.authorities != map[] && MakesInv(env, r)
    requires r.out + [e] == ServeMake(env, r, payload).out && Carries(e, block)
    requires OwnHeld(env.name, pool, r.out + [e])
    ensures Authored(env.committee, pool, block)
  {
    MakesAreMakes(r.out);
    assert (r.out + [e])[|r.out|] == e && e in r.out + [e];
    assert SignedDigest(e) == Some(block.BlockDigest());
  }

  /** A block on its way comes from a proposal that passed the checks, or was on its way
      before, or is the replica's own. */
  lemma AddedIsAuthored(env: Env, pool: Pool, r: Replica, event: Event, e: Effect, block: Block)
    requires env.committee.authorities != map[] && MakesInv(env, r)
    requires AuthoredInv(env.committee, pool, r) && EventHeld(pool, r, event)
    requires OwnHeld(env.name, pool, React(env, r, event).replica.out)
    requires MayAdd(env, r, event, e) && Carries(e, block)
    ensures Authored(env.committee, pool, block)
  {
    match event
    case ReceiveProposal(b) => BlockCheckExact(env.committee, b);
    case Loopback(b) =>
      var sent :| sent in r.out && LoopsBack(sent, b);
      assert Carries(sent, b);
    case ProposerRuns(payload) => ServedIsAuthored(env, pool, r, payload, e, block);
    case _ =>
  }

  lemma ReactAuthored(env: Env, pool: Pool, r: Replica, event: Event)
    requires env.committee.authorities != map[] && MakesInv(env, r)
    requires AuthoredInv(env.committee, pool, r) && EventHeld(pool, r, event)
    requires OwnHeld(env.name, pool, React(env, r, event).replica.out)
    requires React(env, r, event).status != Fail(Panicked)
    ensures AuthoredInv(env.committee, pool, React(env, r, event).replica)
  {
    var r' := React(env, r, event).replica;
    ReactFrame(env, r, event);
    forall e, b | e in r'.out && Carries(e, b) ensures Authored(env.committee, pool, b) {
      InAdded(r, r', e);
      if e !in r.out {
        AddedIsAuthored(env, pool, r, event, e, b);
      }
    }
  }

  // ---------- whole runs ----------

  ghost predicate AllAuthored(c: Committee, s: System) {
    forall k | k in s :: AuthoredInv(c, PoolOf(s), s[k])
  }

  ghost predicate AllMakes(c: Committee, s: System)
    requires c.authorities != map[]
  {
    forall k | k in s :: MakesInv(Env(k, c), s[k])
  }

  lemma AuthoredMonotone(c: Committee, pool: Pool, pool': Pool, r: Replica)
    requires pool <= pool' && AuthoredInv(c, pool, r)
    ensures AuthoredInv(c, pool', r)
  {
  }

  lemma {:induction false} StepAuthored(c: Committee, s: System, s': System, k: Key, event: Event)
    requires c.authorities != map[] && SystemInv(c, s) && AllMakes(c, s) && AllAuthored(c, s)
    requires StepBy(c, s, s', k, event)
    ensures AllAuthored(c, s')
  {
    var env, pool, pool' := Env(k, c), PoolOf(s), PoolOf(s');
    StepKeeps(c, s, s', k, event);
    ReactFrame(env, s[k], event);
    PoolGrows(s, s', k, s'[k]);
    OwnSignaturesInPool(s', k);
    EventMonotone(pool, pool', s[k], event);
    AuthoredMonotone(c, pool, pool', s[k]);
    ReactAuthored(env, pool', s[k], event);
    forall j | j in s' ensures AuthoredInv(c, pool', s'[j]) {
      if j != k {
        AuthoredMonotone(c, pool, pool', s[j]);
      }
    }
  }

  ghost predicate Sound(c: Committee, s: System) {
    c.authorities != map[] && SystemInv(c, s) && AllMakes(c, s) && AllAuthored(c, s)
  }

  lemma InitSound(c: Committee, honest: set<Key>, s: System)
    requires c.authorities != map[] && Init(c, honest, s)
    ensures Sound(c, s)
  {
    InitKeeps(c, honest, s);
    forall k | k in s ensures MakesInv(Env(k, c), s[k]) && AuthoredInv(c, PoolOf(s), s[k]) {
      BootMakes(Env(k, c));
      assert s[k].out == [] || s[k].out == [Make(1, GENESIS_QC, None)];
    }
  }

  lemma NextSound(c: Committee, s: System, s': System)
    requires Sound(c, s) && Next(c, s, s')
    ensures Sound(c, s')
  {
    NextKeeps(c, s, s');
    forall k | k in s' ensures MakesInv(Env(k, c), s'[k]) {
      NextMakes(c, s, s', k);
    }
    var k, event :| StepBy(c, s, s', k, event);
    StepAuthored(c, s, s', k, event);
  }

  lemma {:induction false} RunSound(c: Committee, honest: set<Key>, run: seq<System>, i: nat)
    requires c.authorities != map[] && IsRun(c, honest, run) && i < |run|
    ensures Sound(c, run[i])
    decreases i
  {
    if i == 0 {
      InitSound(c, honest, run[0]);
    } else {
      RunSound(c, honest, run, i - 1);
      StepOfRun(c, honest, run, i);
      NextSound(c, run[i - 1], run[i]);
    }
  }

  // ---------- theorems ----------

  /** An honest replica votes only for blocks of the round's leader, and if that leader is
      honest, only for a block the leader itself proposed, however the block came in. */
  lemma VotesAreForTheLeader(c: Committee, honest: set<Key>, run: seq<System>, i: nat, k: Key, b: Block)
    requires Setting(c, honest) && IsRun(c, honest, run) && i < |run|
    requires k in run[i] && SignVote(b) in run[i][k].out
    ensures b.author == LeaderOf(c, b.round)
    ensures b.author in honest ==> Proposed(run[i], b.author, b.BlockDigest())
  {
    RunSound(c, honest, run, i);
    RunKeeps(c, honest, run, i);
    VoterChecked(c, run[i], k, b);
  }

  lemma VoterChecked(c: Committee, s: System, k: Key, b: Block)
    requires AllAuthored(c, s) && k in s && SignVote(b) in s[k].out
    ensures c.authorities != map[] && b.author == LeaderOf(c, b.round)
    ensures b.author in s ==> Proposed(s, b.author, b.BlockDigest())
  {
    assert Carries(SignVote(b), b) && Authored(c, PoolOf(s), b);
    if b.author in s {
      assert SignedBy(s[b.author], b.BlockDigest());
      var e :| e in s[b.author].out && SignedDigest(e) == Some(b.BlockDigest());
      assert e == Propose(e.block);
    }
  }

  ghost predicate Proposed(s: System, k: Key, id: Digest) {
    k in s && exists b :: Propose(b) in s[k].out && b.BlockDigest() == id
  }

  /** Nobody can make up a block of an honest leader: every block delivered to the
      application, genesis aside, is by the leader of its round, and by an honest leader
      only if that leader proposed it. */
  lemma DeliveredWereProposed(c: Committee, honest: set<Key>, run: seq<System>, i: nat, k: Key, b: Block)
    requires Setting(c, honest) && IsRun(c, honest, run) && i < |run|
    requires k in run[i] && Commit(b) in run[i][k].out && b != GENESIS
    ensures b.author == LeaderOf(c, b.round)
    ensures b.author in honest ==> Proposed(run[i], b.author, b.BlockDigest())
  {
    var head := Agreement.DeliveredIsOneChain(c, honest, run, i, k);
    Agreement.RunDelivers(c, honest, run, i);
    CommittedIsDelivered(run[i][k].out, b);
    assert IdOf(b) == b.BlockDigest();
    var voter, voted := HonestVoter(c, run[i], b.BlockDigest());
    RunKeeps(c, honest, run, i);
    VotesAreForTheLeader(c, honest, run, i, voter, voted);
  }
}
