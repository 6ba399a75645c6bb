/** Whole nodes: each replica core with its store, its synchronizer, its payload waiter and
    the channels between them. What the core alone may do at any moment, a node does only
    when its components let it. */
module Nodes {
  import opened Config
  import opened Messages
  import opened Handlers
  import opened Frames
  import opened ReplicaInvariant
  import opened System
  import opened Locking
  import Agreement
  import St = Store
  import Sy = Synchronizer
  import Pw = PayloadWaiter

  /** `commands` is all that was sent to the store, reads aside, which change nothing.
      `inner` is the channel to the synchronizer and `loopback` the one back to the core;
      the channel to the payload waiter is the waiter's inbox. A waiting block has a
      notify-read of its parent at `tickets`, and a waiting task one of each missing batch
      at `slips`, both given as positions in `commands`. */
  datatype Node = Node(
    replica: Replica,
    commands: seq<St.Command>,
    inner: seq<Block>,
    sync: Sy.Sync,
    tickets: seq<nat>,
    waiter: Pw.Waiter,
    slips: map<nat, seq<nat>>,
    loopback: seq<Block>)

  // ---------- where the core's output goes ----------

  function ToSync(effects: seq<Effect>): seq<Block> {
    if effects == [] then []
    else (if effects[0].AwaitParent? then [effects[0].block] else []) + ToSync(effects[1..])
  }

  function ToWaiter(effects: seq<Effect>): seq<Pw.Message> {
    if effects == [] then []
    else
      (match effects[0]
       case AwaitPayload(missing, block) => [Pw.Wait(missing, block)]
       case CleanupMempool(round) => [Pw.Cleanup(round)]
       case _ => [])
      + ToWaiter(effects[1..])
  }

  function ToCore(effects: seq<Effect>): seq<Block> {
    if effects == [] then []
    else (if effects[0].Propose? then [effects[0].block] else []) + ToCore(effects[1..])
  }

  lemma {:induction false} Routed(effects: seq<Effect>)
    ensures forall b :: b in ToSync(effects) <==> AwaitParent(b) in effects
    ensures forall b :: b in ToCore(effects) <==> Propose(b) in effects
    ensures forall missing, b :: Pw.Wait(missing, b) in ToWaiter(effects) <==> AwaitPayload(missing, b) in effects
    decreases |effects|
  {
    if effects != [] {
      Routed(effects[1..]);
      assert forall e :: e in effects <==> e == effects[0] || e in effects[1..];
    }
  }

  // ---------- what the core writes ----------

  /** A block is written once both its ancestors are found. */
  function WriteOf(r: Replica, b: Block): seq<St.Command> {
    var parent := ParentOf(r.blocks, b);
    if parent.Some? && ParentOf(r.blocks, parent.value).Some?
    then [St.Write(b.BlockDigest(), St.BlockBytes(b))] else []
  }

  function Writes(env: Env, r: Replica, event: Event): seq<St.Command>
    requires env.committee.authorities != map[]
  {
    match event
    case ReceiveProposal(b) =>
      if Admitted(env, b) && Missing(r.Stored(), b.payload) == [] then WriteOf(r, b) else []
    case Loopback(b) => WriteOf(r, b)
    case BatchStored(digest) => [St.Write(digest, St.BatchBytes(digest))]
    case _ => []
  }

  // ---------- the steps of a node ----------

  datatype NodeEvent =
    | Core(event: Event)
    | TakesBack
    | SyncTakes(now: Sy.Time)
    | SyncReady(index: nat)
    | WaiterTakes
    | WaiterReady(index: nat)
    | WaiterCancelled(index: nat)

  /** The store has answered the notify-read at this position. */
  ghost predicate Answered(n: Node, ticket: nat) {
    exists reply :: reply in St.Run(n.commands).replies && reply.to == ticket
  }

  ghost predicate Enabled(pool: Pool, n: Node, e: NodeEvent) {
    match e
    case Core(event) => !event.Loopback? && EventHeld(pool, n.replica, event)
    case TakesBack => n.loopback != []
    case SyncTakes(_) => n.inner != []
    case SyncReady(i) => i < |n.sync.waiting| && i < |n.tickets| && Answered(n, n.tickets[i])
    case WaiterTakes => n.waiter.inbox != []
    case WaiterReady(i) =>
      && i < |n.waiter.tasks| && n.waiter.tasks[i].id in n.slips
      && forall j | 0 <= j < |n.slips[n.waiter.tasks[i].id]| :: Answered(n, n.slips[n.waiter.tasks[i].id][j])
    case WaiterCancelled(i) =>
      i < |n.waiter.tasks| && (n.waiter.tasks[i].id in n.waiter.signalled || !Pw.Registered(n.waiter, n.waiter.tasks[i]))
  }

  function NewEffects(r: Replica, r': Replica): seq<Effect> {
    if r.out <= r'.out then Added(r, r') else []
  }

  /** The core handles an event; what it sends is put on the channels. */
  function CoreStep(env: Env, n: Node, event: Event): Node
    requires env.committee.authorities != map[]
  {
    var r' := React(env, n.replica, event).replica;
    var added := NewEffects(n.replica, r');
    n.(replica := r',
       commands := n.commands + Writes(env, n.replica, event),
       inner := n.inner + ToSync(added),
       sync := n.sync.(stored := r'.Stored()),
       waiter := n.waiter.(stored := r'.Stored(), inbox := n.waiter.inbox + ToWaiter(added)),
       loopback := n.loopback + ToCore(added))
  }

  function SyncTake(n: Node, now: Sy.Time): Node
    requires n.inner != []
  {
    var b := n.inner[0];
    var n1 := n.(inner := n.inner[1..], sync := Sy.TakeIn(n.sync, b, now));
    if b.BlockDigest() in n.sync.pending then n1
    else n1.(commands := n.commands + [St.NotifyRead(Sy.Parent(b))], tickets := n.tickets + [|n.commands|])
  }

  function SyncBack(n: Node, i: nat): Node
    requires i < |n.sync.waiting| && i < |n.tickets|
  {
    n.(sync := Sy.HandBack(n.sync, i), tickets := n.tickets[..i] + n.tickets[i + 1..],
       loopback := n.loopback + [n.sync.waiting[i]])
  }

  function NotifyReads(keys: seq<Digest>): (commands: seq<St.Command>)
    ensures |commands| == |keys| && forall i | 0 <= i < |keys| :: commands[i] == St.NotifyRead(keys[i])
  {
    seq(|keys|, i requires 0 <= i < |keys| => St.NotifyRead(keys[i]))
  }

  function WaiterTake(n: Node): Node
    requires n.waiter.inbox != []
  {
    var n1 := n.(waiter := Pw.Apply(n.waiter, Pw.Receive));
    match n.waiter.inbox[0]
    case Cleanup(_) => n1
    case Wait(missing, b) =>
      if b.BlockDigest() in n.waiter.pending then n1
      else n1.(commands := n.commands + NotifyReads(missing),
               slips := n.slips[n.waiter.next := seq(|missing|, i requires 0 <= i < |missing| => |n.commands| + i)])
  }

  function WaiterBack(n: Node, i: nat): Node
    requires i < |n.waiter.tasks|
  {
    n.(waiter := Pw.HandBack(n.waiter, i), loopback := n.loopback + [n.waiter.tasks[i].block])
  }

  ghost function After(env: Env, pool: Pool, n: Node, e: NodeEvent): Node
    requires env.committee.authorities != map[] && Enabled(pool, n, e)
  {
    match e
    case Core(event) => CoreStep(env, n, event)
    case TakesBack => CoreStep(env, n.(loopback := n.loopback[1..]), Loopback(n.loopback[0]))
    case SyncTakes(now) => SyncTake(n, now)
    case SyncReady(i) => SyncBack(n, i)
    case WaiterTakes => WaiterTake(n)
    case WaiterReady(i) => WaiterBack(n, i)
    case WaiterCancelled(i) => n.(waiter := Pw.Drop(n.waiter, i))
  }

  function Start(env: Env): Node
    requires env.committee.authorities != map[]
  {
    Node(Boot(env), [], [], Sy.QUIET, [], Pw.QUIET, map[], [])
  }

  // ---------- the invariant of a node ----------

  predicate IsTicket(n: Node, ticket: nat, key: Digest) {
    ticket < |n.commands| && n.commands[ticket] == St.NotifyRead(key)
  }

  /** What the core's handlers take the store to hold. */
  function Holds(r: Replica): map<Digest, St.Value> {
    map d | d in r.Stored() :: if d in r.blocks then St.BlockBytes(r.blocks[d]) else St.BatchBytes(d)
  }

  /** The store holds just that. */
  ghost predicate StoreOk(n: Node) {
    && St.Contents(n.commands) == Holds(n.replica)
    && forall d | d in n.replica.batches :: d.OfBatch?
  }

  ghost predicate SyncOk(n: Node) {
    && Sy.Valid(n.sync) && n.sync.stored == n.replica.Stored()
    && |n.tickets| == |n.sync.waiting|
    && forall i | 0 <= i < |n.tickets| :: IsTicket(n, n.tickets[i], Sy.Parent(n.sync.waiting[i]))
  }

  ghost predicate HasSlips(n: Node, t: Pw.Task) {
    && t.id in n.slips && |n.slips[t.id]| == |t.missing|
    && forall i | 0 <= i < |t.missing| :: IsTicket(n, n.slips[t.id][i], t.missing[i])
  }

  ghost predicate WaiterOk(n: Node) {
    && Pw.Valid(n.waiter) && n.waiter.stored == n.replica.Stored()
    && forall t | t in n.waiter.tasks :: HasSlips(n, t)
  }

  /** Whatever is with the synchronizer or the payload waiter was sent there. */
  ghost predicate OriginOk(n: Node) {
    && (forall b | b in n.inner || b in n.sync.arrived :: AwaitParent(b) in n.replica.out)
    && (forall m | m in n.waiter.inbox && m.Wait? :: AwaitPayload(m.missing, m.block) in n.replica.out)
    && (forall t | t in n.waiter.tasks :: AwaitPayload(t.missing, t.block) in n.replica.out)
  }

  /** The block may come back: it is the replica's own, or its parent has been stored, or
      its payload has. */
  ghost predicate MayReturn(r: Replica, b: Block) {
    || Propose(b) in r.out
    || (AwaitParent(b) in r.out && Sy.Parent(b) in r.Stored())
    || (PayloadStored(r, b) && exists missing :: AwaitPayload(missing, b) in r.out)
  }

  /** A block suspended for its parent is on its way to the synchronizer, or pending there,
      or was handed back. */
  ghost predicate SuspendedOk(n: Node) {
    forall b | AwaitParent(b) in n.replica.out ::
      b in n.inner || b.BlockDigest() in n.sync.pending || HandedBack(n.sync, b.BlockDigest())
  }

  ghost predicate HandedBack(s: Sy.Sync, digest: Digest) {
    exists b :: Sy.Resume(b) in s.out && b.BlockDigest() == digest
  }

  /** A block that was handed back is on its way to the core, or stored. */
  ghost predicate ResumedOk(n: Node) {
    forall b | Sy.Resume(b) in n.sync.out :: b in n.loopback || b.BlockDigest() in n.replica.blocks
  }

  /** The replica has the payload, or made the block itself. */
  ghost predicate Settled(r: Replica, b: Block) {
    PayloadStored(r, b) || Propose(b) in r.out
  }

  ghost predicate SettledOk(r: Replica) {
    forall e, b | e in r.out && (e == SignVote(b) || e == AwaitParent(b)) :: Settled(r, b)
  }

  ghost predicate BackOk(n: Node) {
    forall b | b in n.loopback :: MayReturn(n.replica, b)
  }

  ghost predicate NodeInv(n: Node) {
    StoreOk(n) && SyncOk(n) && WaiterOk(n) && OriginOk(n) && BackOk(n) && SuspendedOk(n) && SettledOk(n.replica)
  }

  // ---------- the store ----------

  lemma ContentsSnoc(commands: seq<St.Command>, command: St.Command)
    ensures St.Contents(commands + [command]) ==
              if command.Write? then St.Contents(commands)[command.key := command.value] else St.Contents(commands)
  {
    assert (commands + [command])[..|commands|] == commands;
  }

  lemma {:induction false} ReadsChangeNothing(commands: seq<St.Command>, keys: seq<Digest>)
    ensures St.Contents(commands + NotifyReads(keys)) == St.Contents(commands)
    decreases |keys|
  {
    var asked := NotifyReads(keys);
    if keys == [] {
      assert commands + asked == commands;
    } else {
      var init := keys[..|keys| - 1];
      ReadsChangeNothing(commands, init);
      assert (commands + asked)[..|commands + asked| - 1] == commands + NotifyReads(init);
    }
  }

  /** The contents after at most one write. */
  function Put(contents: map<Digest, St.Value>, writes: seq<St.Command>): map<Digest, St.Value> {
    if writes != [] && writes[0].Write? then contents[writes[0].key := writes[0].value] else contents
  }

  lemma {:induction false} ProcessedStored(env: Env, r: Replica, b: Block)
    requires env.committee.authorities != map[]
    ensures var r' := ProcessBlock(env, r, b).replica;
            Holds(r') == Put(Holds(r), WriteOf(r, b)) && r'.batches == r.batches
  {
    ProcessBlockFrame(env, r, b);
    if WriteOf(r, b) != [] {
      BlocksOfProcessing(env, r, b);
    }
  }

  lemma {:induction false} WritesExact(env: Env, r: Replica, event: Event)
    requires env.committee.authorities != map[]
    requires event.BatchStored? ==> event.digest.OfBatch?
    ensures var r' := React(env, r, event).replica;
            && Holds(r') == Put(Holds(r), Writes(env, r, event))
            && r'.batches == r.batches + (if event.BatchStored? then {event.digest} else {})
    ensures |Writes(env, r, event)| <= 1 && forall w | w in Writes(env, r, event) :: w.Write?
  {
    match event
    case ReceiveProposal(b) => ProposalStored(env, r, b);
    case ReceiveVote(vote) => HandleVoteFrame(env, r, vote);
    case ReceiveTimeout(timeout) => HandleTimeoutFrame(env, r, timeout);
    case ReceiveTC(tc) => HandleTcFrame(env, r, tc);
    case ReceiveSyncRequest(missing, origin) =>
    case Loopback(b) => ProcessedStored(env, r, b);
    case TimerFires => LocalTimeoutFrame(env, r);
    case ProposerRuns(payload) =>
    case BatchStored(digest) =>
  }

  lemma {:induction false} ProposalStored(env: Env, r: Replica, b: Block)
    requires env.committee.authorities != map[]
    ensures var r' := HandleProposal(env, r, b).replica;
            Holds(r') == Put(Holds(r), Writes(env, r, ReceiveProposal(b))) && r'.batches == r.batches
  {
    if Admitted(env, b) {
      var r1 := ProcessCertificates(r, b);
      CertificatesFrame(r, b);
      assert Holds(r1) == Holds(r) && WriteOf(r1, b) == WriteOf(r, b);
      if Missing(r.Stored(), b.payload) == [] {
        ProcessedStored(env, r1, b);
      }
    }
  }

  /** The store's contents follow the replica's. */
  lemma {:induction false} WritesMatch(env: Env, n: Node, event: Event)
    requires env.committee.authorities != map[] && StoreOk(n)
    requires event.BatchStored? ==> event.digest.OfBatch?
    ensures StoreOk(CoreStep(env, n, event))
  {
    var writes := Writes(env, n.replica, event);
    WritesExact(env, n.replica, event);
    if writes == [] {
      assert n.commands + writes == n.commands;
    } else {
      assert writes == [writes[0]] && writes[0] in writes;
      ContentsSnoc(n.commands, writes[0]);
    }
  }

  /** A notify-read is answered exactly when its key is stored. */
  lemma AnsweredIffStored(n: Node, ticket: nat, key: Digest)
    requires StoreOk(n) && IsTicket(n, ticket, key)
    ensures Answered(n, ticket) <==> key in n.replica.Stored()
  {
    St.NotifiedIffPresent(n.commands, ticket);
  }

  // ---------- a step of the core ----------

  /** The step is a good one: nothing panics, batches are batches, and a block that comes
      back was sent off and may. */
  ghost predicate Goes(env: Env, n: Node, event: Event)
    requires env.committee.authorities != map[]
  {
    && React(env, n.replica, event).status != Fail(Panicked)
    && (event.BatchStored? ==> event.digest.OfBatch?)
    && (event.Loopback? ==> MayReturn(n.replica, event.block))
  }

  lemma {:induction false} CoreFrame(env: Env, n: Node, event: Event) returns (n': Node, added: seq<Effect>)
    requires env.committee.authorities != map[] && Goes(env, n, event)
    ensures n' == CoreStep(env, n, event)
    ensures n.replica.out <= n'.replica.out && added == Added(n.replica, n'.replica)
    ensures n'.replica.out == n.replica.out + added
    ensures n.replica.Stored() <= n'.replica.Stored() && n.commands <= n'.commands
    ensures forall e | e in added :: MayAdd(env, n.replica, event, e)
    ensures n' == n.(replica := n'.replica, commands := n'.commands, inner := n.inner + ToSync(added),
                     sync := n.sync.(stored := n'.replica.Stored()),
                     waiter := n.waiter.(stored := n'.replica.Stored(), inbox := n.waiter.inbox + ToWaiter(added)),
                     loopback := n.loopback + ToCore(added))
  {
    ReactFrame(env, n.replica, event);
    n' := CoreStep(env, n, event);
    added := Added(n.replica, n'.replica);
  }

  lemma CoreSync(n: Node, n': Node)
    requires SyncOk(n) && n.replica.Stored() <= n'.replica.Stored() && n.commands <= n'.commands
    requires n'.sync == n.sync.(stored := n'.replica.Stored()) && n'.tickets == n.tickets
    ensures SyncOk(n')
  {
    Sy.StoredKeeps(n.sync, n'.replica.Stored());
  }

  lemma {:induction false} CoreWaiter(env: Env, n: Node, event: Event, n': Node, added: seq<Effect>)
    requires env.committee.authorities != map[] && WaiterOk(n)
    requires n.replica.Stored() <= n'.replica.Stored() && n.commands <= n'.commands
    requires forall e | e in added :: MayAdd(env, n.replica, event, e)
    requires n'.waiter == n.waiter.(stored := n'.replica.Stored(), inbox := n.waiter.inbox + ToWaiter(added))
    requires n'.slips == n.slips
    ensures WaiterOk(n')
  {
    var w := n.waiter.(stored := n'.replica.Stored());
    Pw.StoredKeeps(n.waiter, n'.replica.Stored());
    Routed(added);
    forall m | m in n'.waiter.inbox && m.Wait? ensures m in w.inbox || Pw.Asked(w, m.missing, m.block) {
      if m !in w.inbox {
        AddedAsks(env, n.replica, event, m.missing, m.block);
      }
    }
    Pw.InboxKeeps(w, n'.waiter.inbox, w.toMempool);
    assert w.(inbox := n'.waiter.inbox, toMempool := w.toMempool) == n'.waiter;
    forall t | t in n'.waiter.tasks ensures HasSlips(n', t) {
      assert HasSlips(n, t);
    }
  }

  /** The missing payload a block waits for is all of its payload that is not stored. */
  lemma AddedAsks(env: Env, r: Replica, event: Event, missing: seq<Digest>, b: Block)
    requires env.committee.authorities != map[] && MayAdd(env, r, event, AwaitPayload(missing, b))
    ensures forall x | x in b.payload :: x in r.Stored() || x in missing
  {
    MissingExact(r.Stored(), b.payload);
    ProposerProposes(env, r, event, AwaitPayload(missing, b));
  }

  lemma ProposerProposes(env: Env, r: Replica, event: Event, e: Effect)
    requires env.committee.authorities != map[] && MayAdd(env, r, event, e)
    ensures event.ProposerRuns? ==> e.Propose?
  {
    assert (r.out + [e])[|r.out|] == e;
  }

  lemma {:induction false} CoreOrigin(n: Node, n': Node, added: seq<Effect>)
    requires OriginOk(n) && n'.replica.out == n.replica.out + added
    requires n'.inner == n.inner + ToSync(added) && n'.sync.arrived == n.sync.arrived
    requires n'.waiter.inbox == n.waiter.inbox + ToWaiter(added) && n'.waiter.tasks == n.waiter.tasks
    ensures OriginOk(n')
  {
    Routed(added);
  }

  lemma ReturnGrows(r: Replica, r': Replica, b: Block)
    requires MayReturn(r, b) && r.out <= r'.out && r.Stored() <= r'.Stored()
    ensures MayReturn(r', b)
  {
    if PayloadStored(r, b) && exists missing :: AwaitPayload(missing, b) in r.out {
      var missing :| AwaitPayload(missing, b) in r.out;
      assert AwaitPayload(missing, b) in r'.out;
    }
  }

  lemma {:induction false} CoreBack(n: Node, n': Node, added: seq<Effect>)
    requires BackOk(n) && n'.replica.out == n.replica.out + added && n.replica.Stored() <= n'.replica.Stored()
    requires n'.loopback == n.loopback + ToCore(added)
    ensures BackOk(n')
  {
    Routed(added);
    forall b | b in n'.loopback ensures MayReturn(n'.replica, b) {
      if b in n.loopback {
        ReturnGrows(n.replica, n'.replica, b);
      }
    }
  }

  lemma {:induction false} CoreSuspended(n: Node, n': Node, added: seq<Effect>)
    requires SuspendedOk(n) && n'.replica.out == n.replica.out + added
    requires n'.inner == n.inner + ToSync(added) && n'.sync == n.sync.(stored := n'.sync.stored)
    ensures SuspendedOk(n')
  {
    Routed(added);
    forall b | AwaitParent(b) in n'.replica.out
      ensures b in n'.inner || b.BlockDigest() in n'.sync.pending || HandedBack(n'.sync, b.BlockDigest())
    {
      if AwaitParent(b) in n.replica.out && HandedBack(n.sync, b.BlockDigest()) {
        var b' :| Sy.Resume(b') in n.sync.out && b'.BlockDigest() == b.BlockDigest();
        assert Sy.Resume(b') in n'.sync.out;
      }
    }
  }

  lemma SettledGrows(r: Replica, r': Replica, b: Block)
    requires Settled(r, b) && r.out <= r'.out && r.Stored() <= r'.Stored()
    ensures Settled(r', b)
  {
  }

  /** A block that may come back has its payload, or waits for nothing but its parent. */
  lemma ReturnsSettled(r: Replica, b: Block)
    requires SettledOk(r) && MayReturn(r, b)
    ensures Settled(r, b)
  {
  }

  lemma {:induction false} CoreSettled(env: Env, r: Replica, event: Event, r': Replica, added: seq<Effect>)
    requires env.committee.authorities != map[] && SettledOk(r)
    requires r'.out == r.out + added && r.Stored() <= r'.Stored()
    requires forall e | e in added :: MayAdd(env, r, event, e)
    requires event.Loopback? ==> MayReturn(r, event.block)
    ensures SettledOk(r')
  {
    forall e, b | e in r'.out && (e == SignVote(b) || e == AwaitParent(b)) ensures Settled(r', b) {
      if e !in r.out {
        AddedSettled(env, r, event, e, b);
      }
      SettledGrows(r, r', b);
    }
  }

  lemma {:induction false} AddedSettled(env: Env, r: Replica, event: Event, e: Effect, b: Block)
    requires env.committee.authorities != map[] && SettledOk(r)
    requires MayAdd(env, r, event, e) && (e == SignVote(b) || e == AwaitParent(b))
    requires event.Loopback? ==> MayReturn(r, event.block)
    ensures Settled(r, b)
  {
    ProposerProposes(env, r, event, e);
    MissingExact(r.Stored(), b.payload);
    if event.Loopback? {
      ReturnsSettled(r, b);
    }
  }

  lemma {:induction false} CoreStepKeeps(env: Env, n: Node, event: Event)
    requires env.committee.authorities != map[] && NodeInv(n) && Goes(env, n, event)
    ensures NodeInv(CoreStep(env, n, event))
    ensures n.replica.out <= CoreStep(env, n, event).replica.out
  {
    WritesMatch(env, n, event);
    var n', added := CoreFrame(env, n, event);
    CoreSync(n, n');
    CoreWaiter(env, n, event, n', added);
    CoreOrigin(n, n', added);
    CoreBack(n, n', added);
    CoreSuspended(n, n', added);
    CoreSettled(env, n.replica, event, n'.replica, added);
  }

  // ---------- the steps of the components ----------

  lemma {:induction false} MoreCommands(n: Node, n': Node)
    requires StoreOk(n) && WaiterOk(n) && n.commands <= n'.commands
    requires n'.replica == n.replica && St.Contents(n'.commands) == St.Contents(n.commands)
    requires n'.waiter == n.waiter && n'.slips == n.slips
    ensures StoreOk(n') && WaiterOk(n')
  {
    forall t | t in n'.waiter.tasks ensures HasSlips(n', t) {
      assert HasSlips(n, t);
    }
  }

  lemma {:induction false} SyncTakeKeeps(n: Node, now: Sy.Time)
    requires NodeInv(n) && n.inner != []
    ensures NodeInv(SyncTake(n, now))
  {
    var b := n.inner[0];
    assert b in n.inner;
    if b.BlockDigest() !in n.sync.pending {
      ContentsSnoc(n.commands, St.NotifyRead(Sy.Parent(b)));
    }
    MoreCommands(n, SyncTake(n, now));
    TakenBySync(n, now);
    TakeInOutput(n.sync, b, now);
    TakenStaysSuspended(n, now);
  }

  lemma {:induction false} TakenBySync(n: Node, now: Sy.Time)
    requires SyncOk(n) && n.inner != []
    ensures SyncOk(SyncTake(n, now))
  {
    Sy.TakeInKeeps(n.sync, n.inner[0], now);
    TicketsMore(n, now);
  }

  lemma {:induction false} TicketsMore(n: Node, now: Sy.Time)
    requires |n.tickets| == |n.sync.waiting| && n.inner != []
    requires forall j | 0 <= j < |n.tickets| :: IsTicket(n, n.tickets[j], Sy.Parent(n.sync.waiting[j]))
    ensures var n' := SyncTake(n, now);
            && |n'.tickets| == |n'.sync.waiting|
            && forall j | 0 <= j < |n'.tickets| :: IsTicket(n', n'.tickets[j], Sy.Parent(n'.sync.waiting[j]))
  {
  }

  lemma {:induction false} TakenStaysSuspended(n: Node, now: Sy.Time)
    requires SuspendedOk(n) && n.inner != []
    ensures SuspendedOk(SyncTake(n, now))
  {
    var b, n' := n.inner[0], SyncTake(n, now);
    assert n'.sync.pending == n.sync.pending + {b.BlockDigest()};
    TakeInOutput(n.sync, b, now);
    forall x | AwaitParent(x) in n'.replica.out
      ensures x in n'.inner || x.BlockDigest() in n'.sync.pending || HandedBack(n'.sync, x.BlockDigest())
    {
      assert x in n.inner ==> x == b || x in n'.inner;
      KeepsHandedBack(n.sync, n'.sync, x.BlockDigest());
    }
  }

  lemma TakeInOutput(s: Sy.Sync, b: Block, now: Sy.Time)
    ensures var s' := Sy.TakeIn(s, b, now);
            && (forall x :: Sy.Resume(x) in s'.out <==> Sy.Resume(x) in s.out)
            && (forall x | x in s'.arrived :: x in s.arrived || x == b)
  {
  }

  lemma KeepsHandedBack(s: Sy.Sync, s': Sy.Sync, digest: Digest)
    requires forall x | Sy.Resume(x) in s.out :: Sy.Resume(x) in s'.out
    ensures HandedBack(s, digest) ==> HandedBack(s', digest)
  {
    if HandedBack(s, digest) {
      var b :| Sy.Resume(b) in s.out && b.BlockDigest() == digest;
      assert Sy.Resume(b) in s'.out;
    }
  }

  lemma {:induction false} SyncBackKeeps(n: Node, i: nat)
    requires NodeInv(n) && i < |n.sync.waiting| && i < |n.tickets| && Answered(n, n.tickets[i])
    ensures NodeInv(SyncBack(n, i))
  {
    var b, n' := n.sync.waiting[i], SyncBack(n, i);
    assert b in n.sync.waiting && b in n.sync.arrived;
    AnsweredIffStored(n, n.tickets[i], Sy.Parent(b));
    SyncBackSync(n, i);
    SyncBackSuspended(n, i);
    OldSlips(n, n');
    assert MayReturn(n.replica, b);
  }

  lemma {:induction false} SyncBackSync(n: Node, i: nat)
    requires SyncOk(n) && i < |n.sync.waiting| && Sy.Parent(n.sync.waiting[i]) in n.replica.Stored()
    ensures SyncOk(SyncBack(n, i))
  {
    Sy.HandBackKeeps(n.sync, i);
    TicketsLeft(n, i);
  }

  lemma {:induction false} TicketsLeft(n: Node, i: nat)
    requires |n.tickets| == |n.sync.waiting| && i < |n.tickets|
    requires forall j | 0 <= j < |n.tickets| :: IsTicket(n, n.tickets[j], Sy.Parent(n.sync.waiting[j]))
    ensures var n' := SyncBack(n, i);
            && |n'.tickets| == |n'.sync.waiting|
            && forall j | 0 <= j < |n'.tickets| :: IsTicket(n', n'.tickets[j], Sy.Parent(n'.sync.waiting[j]))
  {
    var n' := SyncBack(n, i);
    forall j | 0 <= j < |n'.tickets| ensures IsTicket(n', n'.tickets[j], Sy.Parent(n'.sync.waiting[j])) {
      var k := if j < i then j else j + 1;
      assert n'.tickets[j] == n.tickets[k] && n'.sync.waiting[j] == n.sync.waiting[k];
    }
  }

  lemma {:induction false} SyncBackSuspended(n: Node, i: nat)
    requires SuspendedOk(n) && i < |n.sync.waiting| && i < |n.tickets|
    ensures SuspendedOk(SyncBack(n, i))
  {
    var b, n' := n.sync.waiting[i], SyncBack(n, i);
    assert n'.sync.out[|n.sync.out|] == Sy.Resume(b);
    forall x | AwaitParent(x) in n'.replica.out
      ensures x in n'.inner || x.BlockDigest() in n'.sync.pending || HandedBack(n'.sync, x.BlockDigest())
    {
      KeepsHandedBack(n.sync, n'.sync, x.BlockDigest());
    }
  }

  lemma {:induction false} WaiterTakeKeeps(n: Node)
    requires NodeInv(n) && n.waiter.inbox != []
    ensures NodeInv(WaiterTake(n))
  {
    WaiterTakeWaiter(n);
    WaiterTakeOthers(n);
    SameSync(n, WaiterTake(n));
  }

  lemma {:induction false} WaiterTakeWaiter(n: Node)
    requires WaiterOk(n) && n.waiter.inbox != []
    ensures WaiterOk(WaiterTake(n))
  {
    var m := n.waiter.inbox[0];
    Pw.ReceiveKeeps(n.waiter);
    if m.Wait? && m.block.BlockDigest() !in n.waiter.pending {
      NewSlips(n);
    } else {
      OldSlips(n, WaiterTake(n));
    }
  }

  lemma {:induction false} WaiterTakeOthers(n: Node)
    requires StoreOk(n) && SyncOk(n) && OriginOk(n) && BackOk(n) && n.waiter.inbox != []
    ensures StoreOk(WaiterTake(n)) && SyncOk(WaiterTake(n)) && OriginOk(WaiterTake(n)) && BackOk(WaiterTake(n))
  {
    var m := n.waiter.inbox[0];
    assert m in n.waiter.inbox;
    if m.Wait? {
      ReadsChangeNothing(n.commands, m.missing);
    }
  }

  lemma OldSlips(n: Node, n': Node)
    requires WaiterOk(n) && n'.commands == n.commands && n'.slips == n.slips
    requires forall t | t in n'.waiter.tasks :: t in n.waiter.tasks
    ensures forall t | t in n'.waiter.tasks :: HasSlips(n', t)
  {
    forall t | t in n'.waiter.tasks ensures HasSlips(n', t) {
      assert HasSlips(n, t);
    }
  }

  lemma SameSync(n: Node, n': Node)
    requires n'.replica == n.replica && n'.sync == n.sync && n'.inner == n.inner
    ensures SuspendedOk(n) ==> SuspendedOk(n')
  {
  }

  lemma {:induction false} NewSlips(n: Node)
    requires WaiterOk(n) && n.waiter.inbox != [] && n.waiter.inbox[0].Wait?
    requires n.waiter.inbox[0].block.BlockDigest() !in n.waiter.pending
    ensures forall t | t in WaiterTake(n).waiter.tasks :: HasSlips(WaiterTake(n), t)
  {
    var m, n' := n.waiter.inbox[0], WaiterTake(n);
    var task := Pw.Task(n.waiter.next, m.missing, m.block);
    Pw.AddedTask(n.waiter.tasks, task);
    forall t | t in n'.waiter.tasks ensures HasSlips(n', t) {
      if t != task {
        assert HasSlips(n, t) && t.id < n.waiter.next;
      }
    }
  }

  lemma {:induction false} WaiterBackKeeps(n: Node, i: nat)
    requires NodeInv(n) && i < |n.waiter.tasks| && Enabled(iset{}, n, WaiterReady(i))
    ensures NodeInv(WaiterBack(n, i))
  {
    var t, n' := n.waiter.tasks[i], WaiterBack(n, i);
    assert t in n.waiter.tasks && HasSlips(n, t);
    forall x | x in t.missing ensures x in n.waiter.stored {
      var j :| 0 <= j < |t.missing| && t.missing[j] == x;
      AnsweredIffStored(n, n.slips[t.id][j], x);
    }
    Pw.HandBackKeeps(n.waiter, i);
    Pw.RemovedTask(n.waiter.tasks, i);
    assert Pw.Asked(n.waiter, t.missing, t.block);
    assert MayReturn(n.replica, t.block);
    OldSlips(n, n');
    SameSync(n, n');
  }

  lemma {:induction false} WaiterDropKeeps(n: Node, i: nat)
    requires NodeInv(n) && Enabled(iset{}, n, WaiterCancelled(i))
    ensures NodeInv(n.(waiter := Pw.Drop(n.waiter, i)))
  {
    var n' := n.(waiter := Pw.Drop(n.waiter, i));
    Pw.DropKeeps(n.waiter, i);
    Pw.RemovedTask(n.waiter.tasks, i);
    OldSlips(n, n');
    SameSync(n, n');
  }

  // ---------- the network of nodes ----------

  type Network = map<Key, Node>

  /** The cores alone: a state of the network of replicas. */
  ghost function Cores(net: Network): System {
    map k | k in net :: net[k].replica
  }

  ghost predicate NetInit(c: Committee, honest: set<Key>, net: Network)
    requires c.authorities != map[]
  {
    net.Keys == honest && forall k | k in net :: net[k] == Start(Env(k, c))
  }

  ghost predicate NetStepBy(c: Committee, net: Network, net': Network, k: Key, e: NodeEvent)
    requires c.authorities != map[]
  {
    && k in net && Enabled(PoolOf(Cores(net)), net[k], e)
    && net' == net[k := After(Env(k, c), PoolOf(Cores(net)), net[k], e)]
  }

  ghost predicate NetNext(c: Committee, net: Network, net': Network)
    requires c.authorities != map[]
  {
    exists k, e :: NetStepBy(c, net, net', k, e)
  }

  ghost predicate NetStepAt(c: Committee, run: seq<Network>, i: nat)
    requires c.authorities != map[] && 0 < i < |run|
  {
    NetNext(c, run[i - 1], run[i])
  }

  ghost predicate IsNetRun(c: Committee, honest: set<Key>, run: seq<Network>)
    requires c.authorities != map[]
  {
    run != [] && NetInit(c, honest, run[0]) && forall i | 0 < i < |run| :: NetStepAt(c, run, i)
  }

  ghost predicate NetInv(c: Committee, honest: set<Key>, net: Network)
    requires c.authorities != map[]
  {
    net.Keys == honest && Reachable(c, honest, Cores(net)) && AllGood(net)
  }

  ghost predicate NodeGood(n: Node) {
    NodeInv(n) && ResumedOk(n)
  }

  lemma {:induction false} NetUpdate(c: Committee, honest: set<Key>, net: Network, k: Key, n': Node)
    requires c.authorities != map[] && NetInv(c, honest, net) && k in net
    requires NodeGood(n') && Reachable(c, honest, Cores(net)[k := n'.replica])
    ensures NetInv(c, honest, net[k := n'])
  {
    CoresUpdate(net, k, n');
    GoodUpdate(net, k, n');
  }

  lemma {:induction false} CoresUpdate(net: Network, k: Key, n': Node)
    requires k in net
    ensures Cores(net[k := n']) == Cores(net)[k := n'.replica]
    ensures n'.replica == net[k].replica ==> Cores(net[k := n']) == Cores(net)
  {
  }

  ghost predicate AllGood(net: Network) {
    forall k | k in net :: NodeGood(net[k])
  }

  lemma {:induction false} GoodUpdate(net: Network, k: Key, n': Node)
    requires AllGood(net) && NodeGood(n')
    ensures AllGood(net[k := n'])
  {
  }

  lemma {:induction false} ReachableIsGood(c: Committee, honest: set<Key>, s: System)
    requires Setting(c, honest) && Reachable(c, honest, s)
    ensures Good(c, s)
  {
    var run := Retraced(c, honest, s);
    EndIsGood(c, honest, run, s);
  }

  lemma {:induction false} EndIsGood(c: Committee, honest: set<Key>, run: seq<System>, s: System)
    requires Setting(c, honest) && IsRun(c, honest, run) && run[|run| - 1] == s
    ensures Good(c, s)
  {
    Agreement.RunDelivers(c, honest, run, |run| - 1);
  }

  lemma Retraced(c: Committee, honest: set<Key>, s: System) returns (run: seq<System>)
    requires c.authorities != map[] && Reachable(c, honest, s)
    ensures IsRun(c, honest, run) && run[|run| - 1] == s
  {
    run :| IsRun(c, honest, run) && run[|run| - 1] == s;
  }

  /** A suspended block whose parent is stored finds both its ancestors. */
  lemma {:induction false} FindsParents(c: Committee, s: System, k: Key, b: Block)
    requires Good(c, s) && k in s && AwaitParent(b) in s[k].out && b.qc.hash in s[k].Stored()
    requires forall d | d in s[k].batches :: d.OfBatch?
    ensures ParentOf(s[k].blocks, b).Some? && ParentOf(s[k].blocks, ParentOf(s[k].blocks, b).value).Some?
  {
    var r := s[k];
    assert ReplicaInv(c, PoolOf(s), r);
    assert EffectOk(c, PoolOf(s), r.highQc.round, r.lastVotedRound, AwaitParent(b));
    if !b.qc.IsGenesis() {
      assert CertifiedBy(c, s, b.qc.hash, b.qc);
      var voter, voted := HonestVoter(c, s, b.qc.hash);
      assert b.qc.hash in r.blocks;
    }
  }

  /** A block that was handed back finds its ancestors, and is stored when it is processed. */
  lemma {:induction false} ResumedFinds(c: Committee, s: System, k: Key, n: Node, b: Block)
    requires Good(c, s) && k in s && s[k] == n.replica && StoreOk(n) && SyncOk(n) && OriginOk(n)
    requires Sy.Resume(b) in n.sync.out
    ensures ParentOf(n.replica.blocks, b).Some?
    ensures ParentOf(n.replica.blocks, ParentOf(n.replica.blocks, b).value).Some?
    ensures ProcessBlock(Env(k, c), n.replica, b).replica.blocks == n.replica.blocks[b.BlockDigest() := b]
  {
    FindsParents(c, s, k, b);
    BlocksOfProcessing(Env(k, c), n.replica, b);
  }

  // ---------- a step of the network ----------

  /** What was stored stays stored, as a block. */
  lemma {:induction false} CoreResumed(env: Env, n: Node, event: Event)
    requires env.committee.authorities != map[] && NodeInv(n) && Goes(env, n, event)
    requires forall b | Sy.Resume(b) in n.sync.out ::
               b in n.loopback || b.BlockDigest() in n.replica.blocks
               || b.BlockDigest() in React(env, n.replica, event).replica.blocks
    ensures NodeGood(CoreStep(env, n, event))
  {
    CoreStepKeeps(env, n, event);
    var n', added := CoreFrame(env, n, event);
    forall b | Sy.Resume(b) in n'.sync.out ensures b in n'.loopback || b.BlockDigest() in n'.replica.blocks {
      assert b.BlockDigest() in n.replica.blocks ==> b.BlockDigest() in n'.replica.Stored();
    }
  }

  /** The core handles an event other than a block coming back. */
  lemma {:induction false} CoreKeeps(c: Committee, s: System, k: Key, n: Node, event: Event)
    requires Good(c, s) && k in s && s[k] == n.replica && NodeGood(n)
    requires EventHeld(PoolOf(s), n.replica, event) && !event.Loopback?
    ensures NodeGood(CoreStep(Env(k, c), n, event))
  {
    NeverPanics(c, s, k, event);
    CoreResumed(Env(k, c), n, event);
  }

  lemma {:induction false} NeverPanics(c: Committee, s: System, k: Key, event: Event)
    requires Good(c, s) && k in s && EventHeld(PoolOf(s), s[k], event)
    ensures React(Env(k, c), s[k], event).status != Fail(Panicked)
  {
    StepKeeps(c, s, s[k := React(Env(k, c), s[k], event).replica], k, event);
  }

  /** The channel to the core without its first block. */
  lemma {:induction false} PoppedKeeps(n: Node)
    requires NodeInv(n) && n.loopback != []
    ensures NodeInv(n.(loopback := n.loopback[1..])) && MayReturn(n.replica, n.loopback[0])
    ensures MayLoopBack(n.replica, n.loopback[0])
  {
    var n', b := n.(loopback := n.loopback[1..]), n.loopback[0];
    assert b in n.loopback;
    SameSync(n, n');
    OldSlips(n, n');
    if Propose(b) in n.replica.out {
      assert LoopsBack(Propose(b), b);
    } else if AwaitParent(b) in n.replica.out {
      assert LoopsBack(AwaitParent(b), b);
    } else {
      var missing :| AwaitPayload(missing, b) in n.replica.out;
      assert LoopsBack(AwaitPayload(missing, b), b);
    }
  }

  /** A block comes back to the core; if it was handed back by the synchronizer, it is now
      stored. */
  lemma {:induction false} TakesBackKeeps(c: Committee, s: System, k: Key, n: Node)
    requires Good(c, s) && k in s && s[k] == n.replica && NodeGood(n) && n.loopback != []
    ensures MayLoopBack(n.replica, n.loopback[0])
    ensures NodeGood(CoreStep(Env(k, c), n.(loopback := n.loopback[1..]), Loopback(n.loopback[0])))
  {
    var b0, n0 := n.loopback[0], n.(loopback := n.loopback[1..]);
    PoppedKeeps(n);
    NeverPanics(c, s, k, Loopback(b0));
    if Sy.Resume(b0) in n.sync.out {
      ResumedFinds(c, s, k, n, b0);
    }
    assert forall b | b in n.loopback :: b == b0 || b in n0.loopback;
    CoreResumed(Env(k, c), n0, Loopback(b0));
  }

  lemma {:induction false} TakenKeepsResumed(n: Node, now: Sy.Time)
    requires ResumedOk(n) && n.inner != []
    ensures ResumedOk(SyncTake(n, now))
  {
    TakeInOutput(n.sync, n.inner[0], now);
  }

  lemma {:induction false} BackKeepsResumed(n: Node, i: nat)
    requires ResumedOk(n) && i < |n.sync.waiting| && i < |n.tickets|
    ensures ResumedOk(SyncBack(n, i))
  {
  }

  lemma {:induction false} SyncKeeps(env: Env, pool: Pool, n: Node, e: NodeEvent)
    requires env.committee.authorities != map[] && NodeGood(n) && Enabled(pool, n, e) && (e.SyncTakes? || e.SyncReady?)
    ensures NodeGood(After(env, pool, n, e)) && After(env, pool, n, e).replica == n.replica
  {
    if e.SyncTakes? {
      SyncTakeKeeps(n, e.now);
      TakenKeepsResumed(n, e.now);
    } else {
      SyncBackKeeps(n, e.index);
      BackKeepsResumed(n, e.index);
    }
  }

  lemma {:induction false} WaiterKeeps(env: Env, pool: Pool, n: Node, e: NodeEvent)
    requires env.committee.authorities != map[] && NodeGood(n) && Enabled(pool, n, e)
    requires e.WaiterTakes? || e.WaiterReady? || e.WaiterCancelled?
    ensures NodeGood(After(env, pool, n, e)) && After(env, pool, n, e).replica == n.replica
  {
    if e.WaiterTakes? {
      WaiterTakeKeeps(n);
    } else if e.WaiterReady? {
      WaiterBackKeeps(n, e.index);
    } else {
      WaiterDropKeeps(n, e.index);
    }
  }

  lemma {:induction false} NetCoreKeeps(c: Committee, honest: set<Key>, net: Network, k: Key, event: Event)
    requires Setting(c, honest) && NetInv(c, honest, net) && k in net
    requires !event.Loopback? && EventHeld(PoolOf(Cores(net)), net[k].replica, event)
    ensures NetInv(c, honest, net[k := CoreStep(Env(k, c), net[k], event)])
  {
    var s, n' := Cores(net), CoreStep(Env(k, c), net[k], event);
    ReachableIsGood(c, honest, s);
    CoreKeeps(c, s, k, net[k], event);
    Moves(c, honest, s, k, event, n'.replica);
    NetUpdate(c, honest, net, k, n');
  }

  lemma {:induction false} NetBackKeeps(c: Committee, honest: set<Key>, net: Network, k: Key)
    requires Setting(c, honest) && NetInv(c, honest, net) && k in net && net[k].loopback != []
    ensures var n := net[k];
            NetInv(c, honest, net[k := CoreStep(Env(k, c), n.(loopback := n.loopback[1..]), Loopback(n.loopback[0]))])
  {
    var s, n := Cores(net), net[k];
    var n' := CoreStep(Env(k, c), n.(loopback := n.loopback[1..]), Loopback(n.loopback[0]));
    ReachableIsGood(c, honest, s);
    TakesBackKeeps(c, s, k, n);
    Moves(c, honest, s, k, Loopback(n.loopback[0]), n'.replica);
    NetUpdate(c, honest, net, k, n');
  }

  lemma {:induction false} NetComponentKeeps(c: Committee, honest: set<Key>, net: Network, k: Key, n': Node)
    requires c.authorities != map[] && NetInv(c, honest, net) && k in net
    requires NodeGood(n') && n'.replica == net[k].replica
    ensures NetInv(c, honest, net[k := n'])
  {
    CoresUpdate(net, k, n');
    GoodUpdate(net, k, n');
  }

  lemma {:induction false} NetStepKeeps(c: Committee, honest: set<Key>, net: Network, k: Key, e: NodeEvent)
    requires Setting(c, honest) && NetInv(c, honest, net) && k in net && Enabled(PoolOf(Cores(net)), net[k], e)
    ensures NetInv(c, honest, net[k := After(Env(k, c), PoolOf(Cores(net)), net[k], e)])
  {
    if e.Core? {
      NetCoreKeeps(c, honest, net, k, e.event);
    } else if e.TakesBack? {
      NetBackKeeps(c, honest, net, k);
    } else {
      if e.SyncTakes? || e.SyncReady? {
        SyncKeeps(Env(k, c), PoolOf(Cores(net)), net[k], e);
      } else {
        WaiterKeeps(Env(k, c), PoolOf(Cores(net)), net[k], e);
      }
      NetComponentKeeps(c, honest, net, k, After(Env(k, c), PoolOf(Cores(net)), net[k], e));
    }
  }

  lemma {:induction false} StartIsGood(env: Env)
    requires env.committee.authorities != map[]
    ensures NodeGood(Start(env))
  {
    assert Start(env).replica.out == [] || Start(env).replica.out == [Make(1, GENESIS_QC, None)];
    Sy.AlwaysValid([]);
    Pw.AlwaysValid([]);
  }

  lemma {:induction false} NetInitKeeps(c: Committee, honest: set<Key>, net: Network)
    requires c.authorities != map[] && NetInit(c, honest, net)
    ensures NetInv(c, honest, net)
  {
    Starts(c, honest, Cores(net));
    forall k | k in net ensures NodeGood(net[k]) {
      StartIsGood(Env(k, c));
    }
  }

  lemma {:induction false} NetNextKeeps(c: Committee, honest: set<Key>, net: Network, net': Network)
    requires Setting(c, honest) && NetInv(c, honest, net) && NetNext(c, net, net')
    ensures NetInv(c, honest, net')
  {
    var k, e :| NetStepBy(c, net, net', k, e);
    NetStepKeeps(c, honest, net, k, e);
  }

  /** The cores of a run of nodes make a run of replicas, so that everything proved of those
      holds here; and the nodes' invariant holds throughout. */
  lemma {:induction false} NetRunKeeps(c: Committee, honest: set<Key>, run: seq<Network>, i: nat)
    requires Setting(c, honest) && IsNetRun(c, honest, run) && i < |run|
    ensures NetInv(c, honest, run[i])
    decreases i
  {
    if i == 0 {
      NetInitKeeps(c, honest, run[0]);
    } else {
      NetRunKeeps(c, honest, run, i - 1);
      assert NetStepAt(c, run, i);
      NetNextKeeps(c, honest, run[i - 1], run[i]);
    }
  }

  // ---------- theorems over runs of nodes ----------

  /** A block suspended for its parent is on its way to the synchronizer, or pending there,
      or was handed back; it was taken in as often as it was handed back, and once more
      while it is pending; and while its parent is missing, a request for that is open. */
  lemma SuspendedIsNotLost(c: Committee, honest: set<Key>, run: seq<Network>, i: nat, k: Key, b: Block)
    requires Setting(c, honest) && IsNetRun(c, honest, run) && i < |run| && k in run[i]
    requires AwaitParent(b) in run[i][k].replica.out
    ensures var n, digest := run[i][k], b.BlockDigest();
            && (b in n.inner || digest in n.sync.pending || HandedBack(n.sync, digest))
            && Sy.CountBlock(n.sync.arrived, digest)
               == Sy.CountResumed(n.sync.out, digest) + (if digest in n.sync.pending then 1 else 0)
            && (b in n.sync.waiting && Sy.Parent(b) !in n.replica.Stored() ==> Sy.Open(n.sync.out, Sy.Parent(b)))
  {
    NetRunKeeps(c, honest, run, i);
    var s := run[i][k].sync;
    assert NodeGood(run[i][k]) && Sy.CountsMatch(s);
    assert b in s.waiting ==> Sy.Parent(b) in Sy.Parents(s.waiting);
  }

  /** A waiting block can be handed back exactly when its parent is in the node's store. */
  lemma ReadyIffParentStored(c: Committee, honest: set<Key>, run: seq<Network>, i: nat, k: Key, index: nat)
    requires Setting(c, honest) && IsNetRun(c, honest, run) && i < |run| && k in run[i]
    requires index < |run[i][k].sync.waiting|
    ensures Enabled(PoolOf(Cores(run[i])), run[i][k], SyncReady(index)) <==>
            Sy.Parent(run[i][k].sync.waiting[index]) in run[i][k].replica.Stored()
  {
    NetRunKeeps(c, honest, run, i);
    assert NodeGood(run[i][k]);
    ReadyExact(PoolOf(Cores(run[i])), run[i][k], index);
  }

  lemma {:induction false} ReadyExact(pool: Pool, n: Node, index: nat)
    requires StoreOk(n) && SyncOk(n) && index < |n.sync.waiting|
    ensures Enabled(pool, n, SyncReady(index)) <==> Sy.Parent(n.sync.waiting[index]) in n.replica.Stored()
  {
    AnsweredIffStored(n, n.tickets[index], Sy.Parent(n.sync.waiting[index]));
  }

  /** Every block that was ever handed back has both its ancestors in the store, and is on
      its way to the core or already stored itself. */
  lemma HandedBackIsProcessed(c: Committee, honest: set<Key>, run: seq<Network>, i: nat, k: Key, b: Block)
    requires Setting(c, honest) && IsNetRun(c, honest, run) && i < |run| && k in run[i]
    requires Sy.Resume(b) in run[i][k].sync.out
    ensures var n := run[i][k]; var blocks := n.replica.blocks;
            && ParentOf(blocks, b).Some? && ParentOf(blocks, ParentOf(blocks, b).value).Some?
            && (b in n.loopback || b.BlockDigest() in blocks)
            && ProcessBlock(Env(k, c), n.replica, b).replica.blocks == blocks[b.BlockDigest() := b]
  {
    NetRunKeeps(c, honest, run, i);
    assert NodeGood(run[i][k]);
    ReachableIsGood(c, honest, Cores(run[i]));
    ResumedFinds(c, Cores(run[i]), k, run[i][k], b);
  }

  /** An honest replica votes for a block only if the block's payload is in its store, or
      the block is its own. */
  lemma VotedPayloadIsStored(c: Committee, honest: set<Key>, run: seq<Network>, i: nat, k: Key, b: Block)
    requires Setting(c, honest) && IsNetRun(c, honest, run) && i < |run| && k in run[i]
    requires SignVote(b) in run[i][k].replica.out
    ensures PayloadStored(run[i][k].replica, b) || Propose(b) in run[i][k].replica.out
  {
    NetRunKeeps(c, honest, run, i);
    assert NodeGood(run[i][k]);
    assert Settled(run[i][k].replica, b);
  }

  /** The store holds exactly the blocks and batches the replica's handlers take it to hold. */
  lemma StoreIsTheReplicas(c: Committee, honest: set<Key>, run: seq<Network>, i: nat, k: Key)
    requires Setting(c, honest) && IsNetRun(c, honest, run) && i < |run| && k in run[i]
    ensures HoldsJust(St.Run(run[i][k].commands).db, run[i][k].replica)
  {
    NetRunKeeps(c, honest, run, i);
    assert NodeGood(run[i][k]);
    StoreHoldsJust(run[i][k]);
  }

  predicate HoldsJust(db: map<Digest, St.Value>, r: Replica) {
    && db.Keys == r.blocks.Keys + r.batches
    && (forall d | d in r.blocks :: db[d] == St.BlockBytes(r.blocks[d]))
    && (forall d | d in r.batches :: db[d] == St.BatchBytes(d))
  }

  lemma {:induction false} StoreHoldsJust(n: Node)
    requires StoreOk(n)
    ensures HoldsJust(St.Run(n.commands).db, n.replica)
  {
    St.Database(n.commands);
    assert forall d | d in n.replica.blocks :: d == n.replica.blocks[d].BlockDigest();
  }
}
