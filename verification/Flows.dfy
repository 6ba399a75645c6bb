/** Where a block can be between the moment its core lets go of it and the moment it is
    processed: nothing falls between the components of a node. */
module Flows {
  import opened Config
  import opened Messages
  import opened Handlers
  import opened Frames
  import opened ReplicaInvariant
  import opened System
  import opened Locking
  import opened Nodes
  import Outcomes
  import Accounts

  /** A block of this digest came back from the payload waiter. */
  ghost predicate LoopedBack(w: Pw.Waiter, digest: Digest) {
    exists b :: b in w.looped && b.BlockDigest() == digest
  }

  /** A block suspended for its payload is on its way to the payload waiter, or pending
      there, or came back, or its round was cleaned up. */
  ghost predicate AwaitsPayload(n: Node, missing: seq<Digest>, b: Block) {
    || Pw.Wait(missing, b) in n.waiter.inbox
    || b.BlockDigest() in n.waiter.pending
    || LoopedBack(n.waiter, b.BlockDigest())
    || Pw.Obsolete(n.waiter, b)
  }

  ghost predicate PayloadFlow(n: Node) {
    forall missing, b | AwaitPayload(missing, b) in n.replica.out :: AwaitsPayload(n, missing, b)
  }

  /** What the payload waiter was told to clean up, the core told it. */
  ghost predicate CleanupFlow(n: Node) {
    && (forall round: Round | Pw.Cleanup(round) in n.waiter.inbox :: CleanupMempool(round) in n.replica.out)
    && (forall round: Round | round in n.waiter.cleaned :: CleanupMempool(round) in n.replica.out)
  }

  /** The block is stored, or suspended for its parent. */
  predicate Processed(r: Replica, b: Block) {
    b.BlockDigest() in r.blocks || AwaitParent(b) in r.out
  }

  /** The block was proposed here, or came back from the payload waiter. */
  predicate Returns(n: Node, b: Block) {
    b in n.waiter.looped || Propose(b) in n.replica.out
  }

  ghost predicate ReturnFlow(n: Node) {
    forall b | Returns(n, b) :: b in n.loopback || Processed(n.replica, b)
  }

  ghost predicate Flow(n: Node) {
    PayloadFlow(n) && CleanupFlow(n) && ReturnFlow(n)
  }

  // ---------- a step of the core ----------

  lemma {:induction false} ToWaiterCleanups(effects: seq<Effect>)
    ensures forall round: Round :: Pw.Cleanup(round) in ToWaiter(effects) <==> CleanupMempool(round) in effects
    decreases |effects|
  {
    if effects != [] {
      ToWaiterCleanups(effects[1..]);
      assert forall e :: e in effects <==> e == effects[0] || e in effects[1..];
    }
  }

  lemma {:induction false} CorePayload(n: Node, n': Node, added: seq<Effect>)
    requires PayloadFlow(n) && n'.replica.out == n.replica.out + added
    requires n'.waiter == n.waiter.(stored := n'.waiter.stored, inbox := n.waiter.inbox + ToWaiter(added))
    ensures PayloadFlow(n')
  {
    Routed(added);
    forall missing, b | AwaitPayload(missing, b) in n'.replica.out ensures AwaitsPayload(n', missing, b) {
      if AwaitPayload(missing, b) in n.replica.out {
        assert AwaitsPayload(n, missing, b);
      }
    }
  }

  lemma {:induction false} CoreCleanup(n: Node, n': Node, added: seq<Effect>)
    requires CleanupFlow(n) && n'.replica.out == n.replica.out + added
    requires n'.waiter == n.waiter.(stored := n'.waiter.stored, inbox := n.waiter.inbox + ToWaiter(added))
    ensures CleanupFlow(n')
  {
    ToWaiterCleanups(added);
  }

  lemma ProcessedGrows(r: Replica, r': Replica, b: Block)
    requires Processed(r, b) && r.out <= r'.out && r.blocks.Keys <= r'.blocks.Keys
    ensures Processed(r', b)
  {
  }

  lemma {:induction false} CoreReturn(n: Node, n': Node, added: seq<Effect>)
    requires n'.replica.out == n.replica.out + added && n.replica.blocks.Keys <= n'.replica.blocks.Keys
    requires n'.waiter.looped == n.waiter.looped && n'.loopback == n.loopback + ToCore(added)
    requires forall b | Returns(n, b) :: b in n.loopback || Processed(n.replica, b) || Processed(n'.replica, b)
    ensures ReturnFlow(n')
  {
    Routed(added);
    forall b | Returns(n', b) ensures b in n'.loopback || Processed(n'.replica, b) {
      if Returns(n, b) && Processed(n.replica, b) {
        ProcessedGrows(n.replica, n'.replica, b);
      }
    }
  }

  /** Blocks are never removed from the store. */
  lemma {:induction false} BlocksStay(env: Env, n: Node, event: Event)
    requires env.committee.authorities != map[] && NodeInv(n) && Goes(env, n, event)
    ensures n.replica.blocks.Keys <= React(env, n.replica, event).replica.blocks.Keys
  {
    CoreStepKeeps(env, n, event);
    var n', added := CoreFrame(env, n, event);
    forall d | d in n.replica.blocks ensures d in n'.replica.blocks {
      assert d in n'.replica.Stored();
    }
  }

  lemma {:induction false} CoreFlow(env: Env, n: Node, event: Event)
    requires env.committee.authorities != map[] && NodeInv(n) && Goes(env, n, event)
    requires PayloadFlow(n) && CleanupFlow(n)
    requires forall b | Returns(n, b) ::
               b in n.loopback || Processed(n.replica, b) || Processed(React(env, n.replica, event).replica, b)
    ensures Flow(CoreStep(env, n, event))
  {
    BlocksStay(env, n, event);
    var n', added := CoreFrame(env, n, event);
    CorePayload(n, n', added);
    CoreCleanup(n, n', added);
    CoreReturn(n, n', added);
  }

  /** A block that comes back to the core is stored or suspended for its parent. */
  lemma {:induction false} LoopbackProcesses(env: Env, r: Replica, b: Block)
    requires env.committee.authorities != map[] && ProcessBlock(env, r, b).status != Fail(Panicked)
    ensures Processed(ProcessBlock(env, r, b).replica, b)
  {
    var stored := Outcomes.ProcessOutcome(env, r, b);
    if Outcomes.Placed(r.blocks, b) {
      VoteForFrame(env, stored, b);
    } else {
      assert r.Send(AwaitParent(b)).out[|r.out|] == AwaitParent(b);
    }
  }

  lemma {:induction false} PoppedFlow(n: Node)
    requires Flow(n) && n.loopback != []
    ensures var n0 := n.(loopback := n.loopback[1..]);
            && PayloadFlow(n0) && CleanupFlow(n0)
            && forall b | Returns(n0, b) :: b == n.loopback[0] || b in n0.loopback || Processed(n0.replica, b)
  {
    var n0 := n.(loopback := n.loopback[1..]);
    forall missing, b | AwaitPayload(missing, b) in n0.replica.out ensures AwaitsPayload(n0, missing, b) {
      assert AwaitsPayload(n, missing, b);
    }
    forall b | Returns(n0, b) ensures b == n.loopback[0] || b in n0.loopback || Processed(n0.replica, b) {
      assert Returns(n, b);
    }
  }

  lemma {:induction false} TakesBackFlow(c: Committee, s: System, k: Key, n: Node)
    requires Good(c, s) && k in s && s[k] == n.replica && NodeGood(n) && Flow(n) && n.loopback != []
    ensures Flow(CoreStep(Env(k, c), n.(loopback := n.loopback[1..]), Loopback(n.loopback[0])))
  {
    var b0, n0 := n.loopback[0], n.(loopback := n.loopback[1..]);
    PoppedKeeps(n);
    PoppedFlow(n);
    NeverPanics(c, s, k, Loopback(b0));
    LoopbackProcesses(Env(k, c), n.replica, b0);
    CoreFlow(Env(k, c), n0, Loopback(b0));
  }

  // ---------- the steps of the components ----------

  lemma {:induction false} SyncFlow(n: Node, n': Node)
    requires Flow(n) && n'.replica == n.replica && n'.waiter == n.waiter
    requires forall b | b in n.loopback :: b in n'.loopback
    ensures Flow(n')
  {
    forall missing, b | AwaitPayload(missing, b) in n'.replica.out ensures AwaitsPayload(n', missing, b) {
      assert AwaitsPayload(n, missing, b);
    }
  }

  /** Cleaning up forgets blocks of the given round and before, and no others. */
  lemma {:induction false} CleanedFlow(w: Pw.Waiter, round: Round, b: Block)
    requires Pw.Valid(w) && b.BlockDigest() in w.pending
    ensures b.BlockDigest() in Pw.CleanUp(w, round).pending || Pw.Obsolete(Pw.CleanUp(w, round), b)
  {
    var d := b.BlockDigest();
    var t :| t in w.tasks && Pw.HoldsEntry(t, d, w.pending[d]);
    assert round in Pw.CleanUp(w, round).cleaned;
  }

  lemma {:induction false} WaiterTakePayload(n: Node)
    requires NodeInv(n) && PayloadFlow(n) && n.waiter.inbox != []
    ensures PayloadFlow(WaiterTake(n))
  {
    var n', m := WaiterTake(n), n.waiter.inbox[0];
    forall missing, b | AwaitPayload(missing, b) in n'.replica.out ensures AwaitsPayload(n', missing, b) {
      assert AwaitsPayload(n, missing, b);
      if Pw.Wait(missing, b) in n.waiter.inbox {
        assert Pw.Wait(missing, b) == m || Pw.Wait(missing, b) in n.waiter.inbox[1..];
      } else if m.Cleanup? {
        if b.BlockDigest() in n.waiter.pending {
          PoppedIsValid(n.waiter);
          CleanedFlow(n.waiter.(inbox := n.waiter.inbox[1..]), m.round, b);
        } else if Pw.Obsolete(n.waiter, b) {
          var r :| r in n.waiter.cleaned && r >= b.round;
          assert r in n'.waiter.cleaned;
        }
      }
    }
  }

  lemma PoppedIsValid(w: Pw.Waiter)
    requires Pw.Valid(w) && w.inbox != []
    ensures Pw.Valid(w.(inbox := w.inbox[1..]))
  {
    Pw.InboxKeeps(w, w.inbox[1..], w.toMempool);
    assert w.(inbox := w.inbox[1..], toMempool := w.toMempool) == w.(inbox := w.inbox[1..]);
  }

  lemma {:induction false} WaiterTakeCleanup(n: Node)
    requires CleanupFlow(n) && n.waiter.inbox != []
    ensures CleanupFlow(WaiterTake(n))
  {
    var m, n' := n.waiter.inbox[0], WaiterTake(n);
    assert m in n.waiter.inbox;
    assert forall x | x in n'.waiter.inbox :: x in n.waiter.inbox;
    assert forall round | round in n'.waiter.cleaned :: round in n.waiter.cleaned || m == Pw.Cleanup(round);
  }

  lemma {:induction false} WaiterTakeReturn(n: Node)
    requires ReturnFlow(n) && n.waiter.inbox != []
    ensures ReturnFlow(WaiterTake(n))
  {
    var n' := WaiterTake(n);
    assert n'.waiter.looped == n.waiter.looped && n'.loopback == n.loopback && n'.replica == n.replica;
    assert forall b | Returns(n', b) :: Returns(n, b);
  }

  lemma {:induction false} WaiterTakeFlow(n: Node)
    requires NodeInv(n) && Flow(n) && n.waiter.inbox != []
    ensures Flow(WaiterTake(n))
  {
    WaiterTakePayload(n);
    WaiterTakeCleanup(n);
    WaiterTakeReturn(n);
  }

  lemma {:induction false} WaiterBackFlow(n: Node, i: nat)
    requires Flow(n) && i < |n.waiter.tasks|
    ensures Flow(WaiterBack(n, i))
  {
    var n', b0 := WaiterBack(n, i), n.waiter.tasks[i].block;
    assert n'.waiter.looped[|n.waiter.looped|] == b0 && n'.loopback[|n.loopback|] == b0;
    forall missing, b | AwaitPayload(missing, b) in n'.replica.out ensures AwaitsPayload(n', missing, b) {
      assert AwaitsPayload(n, missing, b);
      if b.BlockDigest() == b0.BlockDigest() {
        assert b0 in n'.waiter.looped;
      } else if LoopedBack(n.waiter, b.BlockDigest()) {
        var l :| l in n.waiter.looped && l.BlockDigest() == b.BlockDigest();
        assert l in n'.waiter.looped;
      }
    }
    forall b | Returns(n', b) ensures b in n'.loopback || Processed(n'.replica, b) {
      assert Returns(n, b) || b == b0;
    }
  }

  lemma {:induction false} WaiterDropFlow(n: Node, i: nat)
    requires Flow(n) && i < |n.waiter.tasks|
    ensures Flow(n.(waiter := Pw.Drop(n.waiter, i)))
  {
    var n' := n.(waiter := Pw.Drop(n.waiter, i));
    forall missing, b | AwaitPayload(missing, b) in n'.replica.out ensures AwaitsPayload(n', missing, b) {
      assert AwaitsPayload(n, missing, b);
    }
    assert forall b :: Returns(n', b) ==> Returns(n, b);
  }

  lemma {:induction false} ComponentFlow(env: Env, pool: Pool, n: Node, e: NodeEvent)
    requires env.committee.authorities != map[] && NodeGood(n) && Flow(n) && Enabled(pool, n, e)
    requires !e.Core? && !e.TakesBack?
    ensures Flow(After(env, pool, n, e))
  {
    match e
    case SyncTakes(now) => SyncFlow(n, SyncTake(n, now));
    case SyncReady(i) => SyncFlow(n, SyncBack(n, i));
    case WaiterTakes => WaiterTakeFlow(n);
    case WaiterReady(i) => WaiterBackFlow(n, i);
    case WaiterCancelled(i) => WaiterDropFlow(n, i);
  }

  // ---------- whole runs ----------

  ghost predicate AllFlow(net: Network) {
    forall k | k in net :: Flow(net[k])
  }

  lemma {:induction false} OneFlows(net: Network, k: Key, n': Node)
    requires AllFlow(net) && Flow(n')
    ensures AllFlow(net[k := n'])
  {
  }

  lemma {:induction false} CoreEventFlow(c: Committee, s: System, k: Key, n: Node, event: Event)
    requires Good(c, s) && k in s && s[k] == n.replica && NodeGood(n) && Flow(n)
    requires EventHeld(PoolOf(s), n.replica, event) && !event.Loopback?
    ensures Flow(CoreStep(Env(k, c), n, event))
  {
    NeverPanics(c, s, k, event);
    CoreFlow(Env(k, c), n, event);
  }

  lemma {:induction false} NetStepFlows(c: Committee, honest: set<Key>, net: Network, k: Key, e: NodeEvent)
    requires Setting(c, honest) && NetInv(c, honest, net) && AllFlow(net)
    requires k in net && Enabled(PoolOf(Cores(net)), net[k], e)
    ensures Flow(After(Env(k, c), PoolOf(Cores(net)), net[k], e))
  {
    assert NodeGood(net[k]) && Flow(net[k]);
    if e.Core? || e.TakesBack? {
      ReachableIsGood(c, honest, Cores(net));
      if e.Core? {
        CoreEventFlow(c, Cores(net), k, net[k], e.event);
      } else {
        TakesBackFlow(c, Cores(net), k, net[k]);
      }
    } else {
      ComponentFlow(Env(k, c), PoolOf(Cores(net)), net[k], e);
    }
  }

  lemma {:induction false} NetNextFlows(c: Committee, honest: set<Key>, net: Network, net': Network)
    requires Setting(c, honest) && NetInv(c, honest, net) && AllFlow(net) && NetNext(c, net, net')
    ensures AllFlow(net')
  {
    var k, e :| NetStepBy(c, net, net', k, e);
    NetStepFlows(c, honest, net, k, e);
    OneFlows(net, k, net'[k]);
  }

  lemma {:induction false} StartFlows(env: Env)
    requires env.committee.authorities != map[]
    ensures Flow(Start(env))
  {
    assert forall e | e in Start(env).replica.out :: e.Make?;
  }

  lemma NetStepOfRun(c: Committee, honest: set<Key>, run: seq<Network>, i: nat)
    requires c.authorities != map[] && IsNetRun(c, honest, run) && 0 < i < |run|
    ensures NetNext(c, run[i - 1], run[i])
  {
    assert NetStepAt(c, run, i);
  }

  ghost predicate NetFlow(c: Committee, honest: set<Key>, net: Network)
    requires c.authorities != map[]
  {
    NetInv(c, honest, net) && AllFlow(net)
  }

  lemma {:induction false} NetFlowsOn(c: Committee, honest: set<Key>, net: Network, net': Network)
    requires Setting(c, honest) && NetFlow(c, honest, net) && NetNext(c, net, net')
    ensures NetFlow(c, honest, net')
  {
    NetNextKeeps(c, honest, net, net');
    NetNextFlows(c, honest, net, net');
  }

  lemma {:induction false} NetStartFlows(c: Committee, honest: set<Key>, net: Network)
    requires c.authorities != map[] && NetInit(c, honest, net)
    ensures NetFlow(c, honest, net)
  {
    NetInitKeeps(c, honest, net);
    forall k | k in net ensures Flow(net[k]) {
      StartFlows(Env(k, c));
    }
  }

  lemma {:induction false} NetRunFlows(c: Committee, honest: set<Key>, run: seq<Network>, i: nat)
    requires Setting(c, honest) && IsNetRun(c, honest, run) && i < |run|
    ensures NetFlow(c, honest, run[i])
    decreases i
  {
    if i == 0 {
      NetStartFlows(c, honest, run[0]);
    } else {
      NetRunFlows(c, honest, run, i - 1);
      NetStepOfRun(c, honest, run, i);
      NetFlowsOn(c, honest, run[i - 1], run[i]);
    }
  }

  lemma NodeOf(c: Committee, honest: set<Key>, run: seq<Network>, i: nat, k: Key)
    requires Setting(c, honest) && IsNetRun(c, honest, run) && i < |run| && k in run[i]
    ensures NodeGood(run[i][k]) && Flow(run[i][k])
  {
    NetRunFlows(c, honest, run, i);
  }

  lemma {:induction false} EndIsAccounted(c: Committee, honest: set<Key>, cores: seq<System>, s: System, k: Key)
    requires Setting(c, honest) && IsRun(c, honest, cores) && cores[|cores| - 1] == s && k in s
    ensures Accounts.MempoolKnows(s[k])
  {
    Accounts.AccountOf(c, honest, cores, |cores| - 1, k);
  }

  lemma {:induction false} ReachableIsAccounted(c: Committee, honest: set<Key>, s: System, k: Key)
    requires Setting(c, honest) && Reachable(c, honest, s) && k in s
    ensures Accounts.MempoolKnows(s[k])
  {
    var cores := Retraced(c, honest, s);
    EndIsAccounted(c, honest, cores, s, k);
  }

  /** The rounds a payload waiter has cleaned up were committed. */
  lemma CleanedIsCommitted(c: Committee, honest: set<Key>, run: seq<Network>, i: nat, k: Key, round: Round)
    requires Setting(c, honest) && IsNetRun(c, honest, run) && i < |run| && k in run[i]
    requires round in run[i][k].waiter.cleaned
    ensures round <= run[i][k].replica.lastCommittedRound
  {
    NodeOf(c, honest, run, i, k);
    NetRunKeeps(c, honest, run, i);
    ReachableIsAccounted(c, honest, Cores(run[i]), k);
  }

  /** A block suspended for its payload is on its way to the payload waiter, or pending
      there, or a block of its digest came back to the core; or its round is committed. */
  lemma PayloadSuspendedIsNotLost(c: Committee, honest: set<Key>, run: seq<Network>, i: nat, k: Key, missing: seq<Digest>, b: Block)
    requires Setting(c, honest) && IsNetRun(c, honest, run) && i < |run| && k in run[i]
    requires AwaitPayload(missing, b) in run[i][k].replica.out
    ensures var n := run[i][k];
            || Pw.Wait(missing, b) in n.waiter.inbox
            || b.BlockDigest() in n.waiter.pending
            || (exists b' :: b' in n.waiter.looped && b'.BlockDigest() == b.BlockDigest())
            || b.round <= n.replica.lastCommittedRound
  {
    NodeOf(c, honest, run, i, k);
    assert AwaitsPayload(run[i][k], missing, b);
    if Pw.Obsolete(run[i][k].waiter, b) {
      var round :| round in run[i][k].waiter.cleaned && round >= b.round;
      CleanedIsCommitted(c, honest, run, i, k, round);
    }
  }

  /** A block that waits for its payload can be handed back exactly when all batches that
      were missing are in the node's store. */
  lemma PayloadReadyIffStored(c: Committee, honest: set<Key>, run: seq<Network>, i: nat, k: Key, index: nat)
    requires Setting(c, honest) && IsNetRun(c, honest, run) && i < |run| && k in run[i]
    requires index < |run[i][k].waiter.tasks|
    ensures Enabled(PoolOf(Cores(run[i])), run[i][k], WaiterReady(index)) <==>
            forall x | x in run[i][k].waiter.tasks[index].missing :: x in run[i][k].replica.Stored()
  {
    NodeOf(c, honest, run, i, k);
    SlipsAnswered(PoolOf(Cores(run[i])), run[i][k], index);
  }

  lemma {:induction false} SlipsAnswered(pool: Pool, n: Node, index: nat)
    requires NodeInv(n) && index < |n.waiter.tasks|
    ensures Enabled(pool, n, WaiterReady(index)) <==>
            forall x | x in n.waiter.tasks[index].missing :: x in n.replica.Stored()
  {
    var t := n.waiter.tasks[index];
    assert t in n.waiter.tasks && HasSlips(n, t);
    forall j | 0 <= j < |t.missing|
      ensures Answered(n, n.slips[t.id][j]) <==> t.missing[j] in n.replica.Stored()
    {
      AnsweredIffStored(n, n.slips[t.id][j], t.missing[j]);
    }
  }

  /** Every block a node proposed, and every one its payload waiter handed back, is in the
      channel to the core, or stored, or suspended for its parent. */
  lemma ReturnedIsProcessed(c: Committee, honest: set<Key>, run: seq<Network>, i: nat, k: Key, b: Block)
    requires Setting(c, honest) && IsNetRun(c, honest, run) && i < |run| && k in run[i]
    requires Propose(b) in run[i][k].replica.out || b in run[i][k].waiter.looped
    ensures var n := run[i][k];
            b in n.loopback || b.BlockDigest() in n.replica.blocks || AwaitParent(b) in n.replica.out
  {
    NodeOf(c, honest, run, i, k);
    assert Returns(run[i][k], b);
  }
}
