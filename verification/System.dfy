/** The network of honest replicas and faulty authorities as a transition system.
    Messages may be dropped, delayed, reordered, repeated and forged at will; only the
    signatures of honest replicas cannot be made up. */
module System {
  import opened Config
  import opened Messages
  import opened Aggregation
  import opened Handlers
  import opened Frames
  import opened ReplicaInvariant

  /** The honest replicas by name; every other key is in the adversary's hands. */
  type System = map<Key, Replica>

  ghost predicate SignedBy(r: Replica, digest: Digest) {
    exists e | e in r.out :: SignedDigest(e) == Some(digest)
  }

  /** The signatures the adversary can put in a message. */
  ghost function PoolOf(s: System): Pool {
    iset sig: Signature |
      sig.Garbage? || sig.signer !in s || SignedBy(s[sig.signer], sig.digest)
  }

  /** A committee whose faulty authorities hold at most f = (N - 1) / 3 of the stake. */
  ghost predicate Setting(c: Committee, honest: set<Key>) {
    c.authorities != map[] && FaultsBounded(c, honest)
  }

  ghost predicate Init(c: Committee, honest: set<Key>, s: System)
    requires c.authorities != map[]
  {
    s.Keys == honest && forall k | k in s :: s[k] == Boot(Env(k, c))
  }

  /** The honest replica `k` handles one event. */
  ghost predicate StepBy(c: Committee, s: System, s': System, k: Key, event: Event)
    requires c.authorities != map[]
  {
    && k in s
    && EventHeld(PoolOf(s), s[k], event)
    && s' == s[k := React(Env(k, c), s[k], event).replica]
  }

  ghost predicate Next(c: Committee, s: System, s': System)
    requires c.authorities != map[]
  {
    exists k, event :: StepBy(c, s, s', k, event)
  }

  ghost predicate IsRun(c: Committee, honest: set<Key>, run: seq<System>)
    requires c.authorities != map[]
  {
    && run != []
    && Init(c, honest, run[0])
    && forall i | 0 < i < |run| :: StepAt(c, run, i)
  }

  ghost predicate StepAt(c: Committee, run: seq<System>, i: nat)
    requires c.authorities != map[] && 0 < i < |run|
  {
    Next(c, run[i - 1], run[i])
  }

  lemma StepOfRun(c: Committee, honest: set<Key>, run: seq<System>, i: nat)
    requires c.authorities != map[] && IsRun(c, honest, run) && 0 < i < |run|
    ensures Next(c, run[i - 1], run[i])
  {
    assert StepAt(c, run, i);
  }

  ghost predicate Reachable(c: Committee, honest: set<Key>, s: System)
    requires c.authorities != map[]
  {
    exists run :: IsRun(c, honest, run) && run[|run| - 1] == s
  }

  lemma Starts(c: Committee, honest: set<Key>, s: System)
    requires c.authorities != map[] && Init(c, honest, s)
    ensures Reachable(c, honest, s)
  {
    assert IsRun(c, honest, [s]);
  }

  lemma GoesOn(c: Committee, honest: set<Key>, s: System, s': System)
    requires c.authorities != map[] && Reachable(c, honest, s) && Next(c, s, s')
    ensures Reachable(c, honest, s')
  {
    var run :| IsRun(c, honest, run) && run[|run| - 1] == s;
    var all := run + [s'];
    forall i | 0 < i < |all| ensures StepAt(c, all, i) {
      if i < |run| {
        assert StepAt(c, run, i);
        assert all[i] == run[i] && all[i - 1] == run[i - 1];
      }
    }
    assert IsRun(c, honest, all) && all[|all| - 1] == s';
  }

  lemma {:induction false} Moves(c: Committee, honest: set<Key>, s: System, k: Key, event: Event, r': Replica)
    requires c.authorities != map[] && Reachable(c, honest, s)
    requires k in s && EventHeld(PoolOf(s), s[k], event) && r' == React(Env(k, c), s[k], event).replica
    ensures Reachable(c, honest, s[k := r'])
  {
    assert StepBy(c, s, s[k := r'], k, event);
    GoesOn(c, honest, s, s[k := r']);
  }

  // ---------- the invariant of the whole system ----------

  ghost predicate SystemInv(c: Committee, s: System) {
    forall k | k in s :: ReplicaInv(c, PoolOf(s), s[k])
  }

  lemma PoolGrows(s: System, s': System, k: Key, r: Replica)
    requires k in s && s' == s[k := r] && s[k].out <= r.out
    ensures PoolOf(s) <= PoolOf(s')
  {
    forall sig | sig in PoolOf(s) ensures sig in PoolOf(s') {
      if sig.Signed? && sig.signer in s {
        var e :| e in s[sig.signer].out && SignedDigest(e) == Some(sig.digest);
        assert e in s'[sig.signer].out;
      }
    }
  }

  lemma OwnSignaturesInPool(s: System, k: Key)
    requires k in s
    ensures OwnHeld(k, PoolOf(s), s[k].out)
  {
  }

  lemma HeldMonotone(c: Committee, pool: Pool, pool': Pool, r: Replica)
    requires pool <= pool' && ReplicaInv(c, pool, r)
    ensures ReplicaInv(c, pool', r)
  {
    forall e | e in r.out ensures EffectOk(c, pool', r.highQc.round, r.lastVotedRound, e) {
      assert EffectOk(c, pool, r.highQc.round, r.lastVotedRound, e);
    }
    forall d | d in r.blocks ensures BlockHeld(c, pool', r.blocks[d]) {
      assert BlockHeld(c, pool, r.blocks[d]);
    }
    TalliesMonotone(c, pool, pool', r.highQc.round, r.tallies);
  }

  lemma TalliesMonotone(c: Committee, pool: Pool, pool': Pool, high: Round, ts: Tallies)
    requires pool <= pool' && TalliesOk(c, pool, high, ts)
    ensures TalliesOk(c, pool', high, ts)
  {
    forall round, digest | round in ts.votes && digest in ts.votes[round]
      ensures VoteTallyOk(c, pool', digest, ts.votes[round][digest])
    {
      assert VoteTallyOk(c, pool, digest, ts.votes[round][digest]);
    }
    forall round | round in ts.timeouts
      ensures TimeoutTallyOk(c, pool', high, round, ts.timeouts[round])
    {
      assert TimeoutTallyOk(c, pool, high, round, ts.timeouts[round]);
    }
  }

  lemma EventMonotone(pool: Pool, pool': Pool, r: Replica, event: Event)
    requires pool <= pool' && EventHeld(pool, r, event)
    ensures EventHeld(pool', r, event)
  {
  }

  lemma StepKeeps(c: Committee, s: System, s': System, k: Key, event: Event)
    requires c.authorities != map[] && SystemInv(c, s) && StepBy(c, s, s', k, event)
    ensures SystemInv(c, s')
    ensures React(Env(k, c), s[k], event).status != Fail(Panicked)
  {
    var env := Env(k, c);
    var pool, pool' := PoolOf(s), PoolOf(s');
    ReactFrame(env, s[k], event);
    PoolGrows(s, s', k, s'[k]);
    OwnSignaturesInPool(s', k);
    EventMonotone(pool, pool', s[k], event);
    HeldMonotone(c, pool, pool', s[k]);
    ReactKeeps(env, pool', s[k], event);
    forall j | j in s' ensures ReplicaInv(c, pool', s'[j]) {
      if j != k {
        HeldMonotone(c, pool, pool', s[j]);
      }
    }
  }

  lemma InitKeeps(c: Committee, honest: set<Key>, s: System)
    requires c.authorities != map[] && Init(c, honest, s)
    ensures SystemInv(c, s)
  {
    forall k | k in s ensures ReplicaInv(c, PoolOf(s), s[k]) {
      BootKeeps(Env(k, c), PoolOf(s));
    }
  }

  lemma NextKeeps(c: Committee, s: System, s': System)
    requires c.authorities != map[] && SystemInv(c, s) && Next(c, s, s')
    ensures SystemInv(c, s') && s'.Keys == s.Keys
  {
    var k, event :| StepBy(c, s, s', k, event);
    StepKeeps(c, s, s', k, event);
  }

  /** Every state of every run is good. */
  lemma {:induction false} RunKeeps(c: Committee, honest: set<Key>, run: seq<System>, i: nat)
    requires Setting(c, honest) && IsRun(c, honest, run) && i < |run|
    ensures SystemInv(c, run[i]) && run[i].Keys == honest
    decreases i
  {
    if i == 0 {
      InitKeeps(c, honest, run[0]);
    } else {
      RunKeeps(c, honest, run, i - 1);
      StepOfRun(c, honest, run, i);
      NextKeeps(c, run[i - 1], run[i]);
    }
  }

  /** No handler of an honest replica ever panics: the parents that `get_ancestors` and
      `commit` expect are always there, and no TC is empty. */
  lemma NoPanic(c: Committee, honest: set<Key>, run: seq<System>, i: nat, k: Key, event: Event)
    requires Setting(c, honest) && IsRun(c, honest, run) && i < |run|
    requires k in run[i] && EventHeld(PoolOf(run[i]), run[i][k], event)
    ensures React(Env(k, c), run[i][k], event).status != Fail(Panicked)
  {
    RunKeeps(c, honest, run, i);
    StepKeeps(c, run[i], run[i][k := React(Env(k, c), run[i][k], event).replica], k, event);
  }

  // ---------- what is stored ----------

  lemma BlocksOfProcessing(env: Env, r: Replica, block: Block)
    requires env.committee.authorities != map[]
    requires ParentOf(r.blocks, block).Some? && ParentOf(r.blocks, ParentOf(r.blocks, block).value).Some?
    ensures ProcessBlock(env, r, block).replica.blocks == r.blocks[block.BlockDigest() := block]
  {
    var b1 := ParentOf(r.blocks, block).value;
    var b0 := ParentOf(r.blocks, b1).value;
    StoreAndCommitFrame(r, b0, b1, block);
    VoteForFrame(env, StoreAndCommit(r, b0, b1, block).replica, block);
  }

  /** The store of an honest replica is closed under taking parents, in every state. */
  lemma RunStore(c: Committee, honest: set<Key>, run: seq<System>, i: nat, k: Key)
    requires Setting(c, honest) && IsRun(c, honest, run) && i < |run| && k in run[i]
    ensures forall d | d in run[i][k].blocks :: ParentOf(run[i][k].blocks, run[i][k].blocks[d]).Some?
  {
    RunKeeps(c, honest, run, i);
    var r := run[i][k];
    assert StoreInv(c, PoolOf(run[i]), r.highQc.round, r.blocks);
  }
}
