/** Suspending blocks whose payload is missing and resuming them (consensus/src/mempool.rs).
    The driver runs inside the core and talks to the waiter through a channel. */
module PayloadWaiter {
  import opened Config
  import opened Messages
  import H = Handlers

  datatype Message = Wait(missing: seq<Digest>, block: Block) | Cleanup(round: Round)

  datatype ToMempool = Synchronize(missing: seq<Digest>, author: Key) | CleanupMempool(round: Round)

  /** A future that waits for the missing batches or for its cancel channel. */
  datatype Task = Task(id: nat, missing: seq<Digest>, block: Block)

  /** A pending entry holds the block's round and the sending end of the cancel channel of
      the future with that id. `signalled` are those that were told to stop, `looped` the
      blocks handed back to the core. The last four fields are history: what the store
      holds, the blocks taken in and dropped, and the rounds cleaned up to. */
  datatype Waiter = Waiter(
    inbox: seq<Message>,
    toMempool: seq<ToMempool>,
    pending: map<Digest, (Round, nat)>,
    tasks: seq<Task>,
    signalled: set<nat>,
    next: nat,
    looped: seq<Block>,
    stored: set<Digest>,
    taken: multiset<Block>,
    dropped: multiset<Block>,
    cleaned: set<Round>)

  const QUIET := Waiter([], [], map[], [], {}, 0, [], {}, multiset{}, multiset{}, {})

  datatype Event =
    | Verify(block: Block)
    | SendCleanup(round: Round)
    | Receive
    | Stored(digest: Digest)
    | Ready(index: nat)
    | Cancelled(index: nat)

  // ---------- the driver ----------

  /** Asks for the missing payload of a block, if any is missing. */
  function DriverVerify(s: Waiter, block: Block): Waiter {
    var missing := H.Missing(s.stored, block.payload);
    if missing == [] then s
    else s.(toMempool := s.toMempool + [Synchronize(missing, block.author)],
            inbox := s.inbox + [Wait(missing, block)])
  }

  function DriverCleanup(s: Waiter, round: Round): Waiter {
    s.(toMempool := s.toMempool + [CleanupMempool(round)], inbox := s.inbox + [Cleanup(round)])
  }

  // ---------- the waiter ----------

  /** A block of a digest that is already pending is ignored. */
  function TakeIn(s: Waiter, missing: seq<Digest>, block: Block): Waiter {
    var digest := block.BlockDigest();
    if digest in s.pending then s
    else s.(pending := s.pending[digest := (block.round, s.next)],
            tasks := s.tasks + [Task(s.next, missing, block)],
            next := s.next + 1,
            taken := s.taken + multiset{block})
  }

  /** Tells the futures of the given round and before to stop, and forgets them. */
  function CleanUp(s: Waiter, round: Round): Waiter {
    s.(signalled := s.signalled + (set d | d in s.pending && s.pending[d].0 <= round :: s.pending[d].1),
       pending := map d | d in s.pending && s.pending[d].0 > round :: s.pending[d],
       cleaned := s.cleaned + {round})
  }

  function Remaining(tasks: seq<Task>, index: nat): seq<Task>
    requires index < |tasks|
  {
    tasks[..index] + tasks[index + 1..]
  }

  /** All batches are there. The pending entry of the digest goes, whichever future it belongs to. */
  function HandBack(s: Waiter, index: nat): Waiter
    requires index < |s.tasks|
  {
    var block := s.tasks[index].block;
    s.(pending := s.pending - {block.BlockDigest()},
       tasks := Remaining(s.tasks, index),
       looped := s.looped + [block])
  }

  function Drop(s: Waiter, index: nat): Waiter
    requires index < |s.tasks|
  {
    s.(tasks := Remaining(s.tasks, index), dropped := s.dropped + multiset{s.tasks[index].block})
  }

  /** The cancel channel is still open, and nothing was sent on it. */
  predicate Registered(s: Waiter, t: Task) {
    var digest := t.block.BlockDigest();
    digest in s.pending && s.pending[digest].1 == t.id
  }

  predicate Complete(s: Waiter, t: Task) {
    forall x | x in t.missing :: x in s.stored
  }

  /** A task may end as soon as one of the two things it waits for has happened. */
  function Apply(s: Waiter, event: Event): Waiter {
    match event
    case Verify(block) => DriverVerify(s, block)
    case SendCleanup(round) => DriverCleanup(s, round)
    case Receive =>
      if s.inbox == [] then s
      else
        var s1 := s.(inbox := s.inbox[1..]);
        match s.inbox[0] {
          case Wait(missing, block) => TakeIn(s1, missing, block)
          case Cleanup(round) => CleanUp(s1, round)
        }
    case Stored(digest) => s.(stored := s.stored + {digest})
    case Ready(index) =>
      if index < |s.tasks| && Complete(s, s.tasks[index]) then HandBack(s, index) else s
    case Cancelled(index) =>
      if index < |s.tasks| && (s.tasks[index].id in s.signalled || !Registered(s, s.tasks[index]))
      then Drop(s, index) else s
  }

  function ApplyAll(events: seq<Event>): Waiter {
    if events == [] then QUIET
    else Apply(ApplyAll(events[..|events| - 1]), events[|events| - 1])
  }

  class PayloadWaiter {
    var pending: map<Digest, (Round, nat)>
    var tasks: seq<Task>
    var signalled: set<nat>
    var next: nat
    var looped: seq<Block>
    ghost var inbox: seq<Message>
    ghost var toMempool: seq<ToMempool>
    ghost var stored: set<Digest>
    ghost var taken: multiset<Block>
    ghost var dropped: multiset<Block>
    ghost var cleaned: set<Round>

    ghost function State(): Waiter
      reads this
    {
      Waiter(inbox, toMempool, pending, tasks, signalled, next, looped, stored, taken, dropped, cleaned)
    }

    constructor ()
      ensures State() == QUIET
    {
      pending, tasks, signalled, next, looped := map[], [], {}, 0, [];
      inbox, toMempool, stored := [], [], {};
      taken, dropped, cleaned := multiset{}, multiset{}, {};
    }

    method OnWait(missing: seq<Digest>, block: Block)
      modifies this
      ensures State() == TakeIn(old(State()), missing, block)
    {
      var digest := block.BlockDigest();
      if digest in pending {
        return;
      }
      pending := pending[digest := (block.round, next)];
      tasks := tasks + [Task(next, missing, block)];
      next := next + 1;
      taken := taken + multiset{block};
    }

    /** `listed` is the iteration order of the pending entries. */
    method OnCleanup(round: Round, listed: seq<Digest>)
      requires forall d :: d in listed <==> d in pending
      modifies this
      ensures State() == CleanUp(old(State()), round)
    {
      for i := 0 to |listed|
        invariant pending == old(pending)
        invariant State() == old(State()).(signalled := signalled)
        invariant signalled == old(signalled) + set d | d in listed[..i] && pending[d].0 <= round :: pending[d].1
      {
        assert listed[..i + 1] == listed[..i] + [listed[i]];
        if pending[listed[i]].0 <= round {
          signalled := signalled + {pending[listed[i]].1};
        }
      }
      assert listed[..|listed|] == listed;
      pending := map d | d in pending && pending[d].0 > round :: pending[d];
      cleaned := cleaned + {round};
    }

    method OnReady(index: nat)
      requires index < |tasks|
      modifies this
      ensures State() == HandBack(old(State()), index)
    {
      var block := tasks[index].block;
      tasks := tasks[..index] + tasks[index + 1..];
      pending := pending - {block.BlockDigest()};
      looped := looped + [block];
    }

    method OnCancelled(index: nat)
      requires index < |tasks|
      modifies this
      ensures State() == Drop(old(State()), index)
    {
      dropped := dropped + multiset{tasks[index].block};
      tasks := tasks[..index] + tasks[index + 1..];
    }
  }

  // ---------- suspended until the payload is there ----------

  /** Whatever of the block's payload is not in the store is among the missing batches. */
  ghost predicate Asked(s: Waiter, missing: seq<Digest>, block: Block) {
    forall x | x in block.payload :: x in s.stored || x in missing
  }

  /** The block's round, or a later one, was cleaned up. */
  ghost predicate Obsolete(s: Waiter, block: Block) {
    exists r | r in s.cleaned :: r >= block.round
  }

  function Blocks(tasks: seq<Task>): seq<Block> {
    seq(|tasks|, i requires 0 <= i < |tasks| => tasks[i].block)
  }

  ghost predicate TasksOk(s: Waiter) {
    && (forall i, j | 0 <= i < j < |s.tasks| :: s.tasks[i].id != s.tasks[j].id)
    && (forall t | t in s.tasks :: t.id < s.next && Asked(s, t.missing, t.block))
    && (forall t | t in s.tasks :: Registered(s, t) || Obsolete(s, t.block))
    && (forall id | id in s.signalled :: id < s.next)
  }

  ghost predicate HoldsEntry(t: Task, digest: Digest, entry: (Round, nat)) {
    t.id == entry.1 && t.block.BlockDigest() == digest && t.block.round == entry.0
  }

  /** Each pending entry holds the channel of one of the futures, which was not signalled. */
  ghost predicate PendingOk(s: Waiter) {
    forall d | d in s.pending ::
      s.pending[d].1 !in s.signalled && exists t | t in s.tasks :: HoldsEntry(t, d, s.pending[d])
  }

  ghost predicate PayloadStored(s: Waiter, block: Block) {
    forall x | x in block.payload :: x in s.stored
  }

  ghost predicate LogOk(s: Waiter) {
    && (forall m | m in s.inbox && m.Wait? :: Asked(s, m.missing, m.block))
    && (forall b | b in s.looped :: PayloadStored(s, b))
    && (forall b | b in s.dropped :: Obsolete(s, b))
  }

  ghost predicate Conserved(s: Waiter) {
    s.taken == multiset(s.looped) + s.dropped + multiset(Blocks(s.tasks))
  }

  ghost predicate Valid(s: Waiter) {
    TasksOk(s) && PendingOk(s) && LogOk(s) && Conserved(s)
  }

  lemma AddedTask(tasks: seq<Task>, t: Task)
    ensures multiset(Blocks(tasks + [t])) == multiset(Blocks(tasks)) + multiset{t.block}
    ensures forall u :: u in tasks + [t] <==> u in tasks || u == t
  {
    assert Blocks(tasks + [t]) == Blocks(tasks) + [t.block];
  }

  lemma RemovedTask(tasks: seq<Task>, index: nat)
    requires index < |tasks|
    requires forall i, j | 0 <= i < j < |tasks| :: tasks[i].id != tasks[j].id
    ensures forall t :: t in Remaining(tasks, index) <==> t in tasks && t != tasks[index]
    ensures var rest := Remaining(tasks, index); forall i, j | 0 <= i < j < |rest| :: rest[i].id != rest[j].id
  {
    var rest := Remaining(tasks, index);
    assert forall i | 0 <= i < |rest| :: rest[i] == tasks[if i < index then i else i + 1];
    forall u | u in tasks && u != tasks[index] ensures u in rest {
      var i :| 0 <= i < |tasks| && tasks[i] == u;
      assert rest[if i < index then i else i - 1] == u;
    }
  }

  lemma RemovedBlock(tasks: seq<Task>, index: nat)
    requires index < |tasks|
    ensures multiset(Blocks(tasks)) == multiset(Blocks(Remaining(tasks, index))) + multiset{tasks[index].block}
  {
    var before, t, after := tasks[..index], tasks[index], tasks[index + 1..];
    assert Blocks(tasks) == Blocks(before) + [t.block] + Blocks(after);
    assert Blocks(Remaining(tasks, index)) == Blocks(before) + Blocks(after);
  }

  lemma DriverVerifyKeeps(s: Waiter, block: Block)
    requires Valid(s)
    ensures Valid(DriverVerify(s, block))
  {
    H.MissingExact(s.stored, block.payload);
    var missing := H.Missing(s.stored, block.payload);
    if missing != [] {
      InboxKeeps(s, s.inbox + [Wait(missing, block)], s.toMempool + [Synchronize(missing, block.author)]);
    }
  }

  lemma TakeInKeeps(s: Waiter, missing: seq<Digest>, block: Block)
    requires Valid(s) && Asked(s, missing, block)
    ensures Valid(TakeIn(s, missing, block))
  {
    if block.BlockDigest() !in s.pending {
      AddedTask(s.tasks, Task(s.next, missing, block));
      TakenTasks(s, missing, block);
      TakenPending(s, missing, block);
      assert LogOk(TakeIn(s, missing, block)) by {
        assert LogOk(s);
      }
    }
  }

  lemma TakenTasks(s: Waiter, missing: seq<Digest>, block: Block)
    requires TasksOk(s) && Asked(s, missing, block) && block.BlockDigest() !in s.pending
    ensures TasksOk(TakeIn(s, missing, block))
  {
    var t, s' := Task(s.next, missing, block), TakeIn(s, missing, block);
    AddedTask(s.tasks, t);
    forall u | u in s'.tasks
      ensures u.id < s'.next && Asked(s', u.missing, u.block)
      ensures Registered(s', u) || Obsolete(s', u.block)
    {
      if u != t {
        assert Registered(s, u) || Obsolete(s, u.block);
      }
    }
    assert forall i | 0 <= i < |s.tasks| :: s.tasks[i] in s.tasks;
  }

  lemma TakenPending(s: Waiter, missing: seq<Digest>, block: Block)
    requires TasksOk(s) && PendingOk(s) && block.BlockDigest() !in s.pending
    ensures PendingOk(TakeIn(s, missing, block))
  {
    var t, s' := Task(s.next, missing, block), TakeIn(s, missing, block);
    AddedTask(s.tasks, t);
    assert HoldsEntry(t, block.BlockDigest(), s'.pending[block.BlockDigest()]);
    forall d | d in s.pending ensures exists u | u in s'.tasks :: HoldsEntry(u, d, s'.pending[d]) {
      var u :| u in s.tasks && HoldsEntry(u, d, s.pending[d]);
      assert u in s'.tasks;
    }
  }

  lemma {:induction false} AlwaysValid(events: seq<Event>)
    ensures Valid(ApplyAll(events))
    decreases |events|
  {
    if events != [] {
      AlwaysValid(events[..|events| - 1]);
      ApplyKeeps(ApplyAll(events[..|events| - 1]), events[|events| - 1]);
    }
  }

  /** The entry a future is registered in tells its block's round. */
  lemma EntryOf(s: Waiter, t: Task)
    requires TasksOk(s) && PendingOk(s) && t in s.tasks && Registered(s, t)
    ensures HoldsEntry(t, t.block.BlockDigest(), s.pending[t.block.BlockDigest()])
    ensures t.id !in s.signalled
  {
    var d := t.block.BlockDigest();
    var u :| u in s.tasks && HoldsEntry(u, d, s.pending[d]);
    assert u.id == t.id;
  }

  lemma SameEntry(s: Waiter, d: Digest, e: Digest)
    requires TasksOk(s) && PendingOk(s) && d in s.pending && e in s.pending
    requires s.pending[d].1 == s.pending[e].1
    ensures d == e
  {
    var t :| t in s.tasks && HoldsEntry(t, d, s.pending[d]);
    var u :| u in s.tasks && HoldsEntry(u, e, s.pending[e]);
    assert t.id == u.id;
  }

  lemma CleanUpKeeps(s: Waiter, round: Round)
    requires Valid(s)
    ensures Valid(CleanUp(s, round))
  {
    var s' := CleanUp(s, round);
    CleanedTasks(s, round);
    forall d | d in s'.pending ensures s'.pending[d].1 !in s'.signalled {
      forall e | e in s.pending && s.pending[e].1 == s.pending[d].1 ensures e == d {
        SameEntry(s, d, e);
      }
    }
    assert PendingOk(s');
    assert LogOk(s') by {
      assert forall b | b in s.dropped :: Obsolete(s, b) ==> Obsolete(s', b);
    }
  }

  lemma CleanedTasks(s: Waiter, round: Round)
    requires TasksOk(s) && PendingOk(s)
    ensures TasksOk(CleanUp(s, round))
  {
    var s' := CleanUp(s, round);
    forall t | t in s.tasks ensures Registered(s', t) || Obsolete(s', t.block) {
      if Registered(s, t) {
        EntryOf(s, t);
        assert round in s'.cleaned;
      } else {
        assert Obsolete(s, t.block);
      }
    }
    forall id | id in s'.signalled ensures id < s'.next {
      if id !in s.signalled {
        var d :| d in s.pending && s.pending[d].1 == id;
        var t :| t in s.tasks && HoldsEntry(t, d, s.pending[d]);
      }
    }
  }

  /** A task ended: the others keep their entries, or are obsolete. */
  lemma RemainingTasks(s: Waiter, index: nat, s': Waiter)
    requires TasksOk(s) && index < |s.tasks| && s'.tasks == Remaining(s.tasks, index)
    requires s'.next == s.next && s'.signalled == s.signalled && s'.stored == s.stored
    requires forall t | t in s.tasks && t != s.tasks[index] && Registered(s, t) ::
               Registered(s', t) || Obsolete(s', t.block)
    requires forall b | Obsolete(s, b) :: Obsolete(s', b)
    ensures TasksOk(s')
  {
    RemovedTask(s.tasks, index);
    forall t | t in s'.tasks
      ensures t.id < s'.next && Asked(s', t.missing, t.block)
      ensures Registered(s', t) || Obsolete(s', t.block)
    {
      assert t in s.tasks && t != s.tasks[index];
      assert Registered(s, t) || Obsolete(s, t.block);
    }
  }

  lemma RemainingPending(s: Waiter, index: nat, s': Waiter)
    requires TasksOk(s) && PendingOk(s) && index < |s.tasks|
    requires s'.tasks == Remaining(s.tasks, index) && s'.signalled == s.signalled
    requires forall d | d in s'.pending ::
               d in s.pending && s'.pending[d] == s.pending[d] && s.pending[d].1 != s.tasks[index].id
    ensures PendingOk(s')
  {
    RemovedTask(s.tasks, index);
    forall d | d in s'.pending ensures exists t | t in s'.tasks :: HoldsEntry(t, d, s'.pending[d]) {
      var t :| t in s.tasks && HoldsEntry(t, d, s.pending[d]);
      assert t in s'.tasks;
    }
  }

  /** The entries that hold a task's channel are those of its block's digest. */
  lemma EntriesOf(s: Waiter, t: Task)
    requires TasksOk(s) && PendingOk(s) && t in s.tasks
    ensures forall d | d in s.pending && s.pending[d].1 == t.id :: d == t.block.BlockDigest()
  {
    forall d | d in s.pending && s.pending[d].1 == t.id ensures d == t.block.BlockDigest() {
      var u :| u in s.tasks && HoldsEntry(u, d, s.pending[d]);
      assert u == t;
    }
  }

  lemma HandBackKeeps(s: Waiter, index: nat)
    requires Valid(s) && index < |s.tasks| && Complete(s, s.tasks[index])
    ensures Valid(HandBack(s, index))
  {
    HandBackTasks(s, index);
    HandBackLog(s, index);
    RemovedBlock(s.tasks, index);
    assert Conserved(HandBack(s, index));
  }

  /** Another task for the same block can lose its entry here. Then one of the two had lost
      its own before, to a cleanup. */
  lemma HandBackTasks(s: Waiter, index: nat)
    requires TasksOk(s) && PendingOk(s) && index < |s.tasks|
    ensures TasksOk(HandBack(s, index)) && PendingOk(HandBack(s, index))
  {
    var t, s' := s.tasks[index], HandBack(s, index);
    assert t in s.tasks;
    forall u | u in s.tasks && u != t && Registered(s, u) ensures Registered(s', u) || Obsolete(s', u.block) {
      if u.block.BlockDigest() == t.block.BlockDigest() {
        EntryOf(s, u);
        assert !Registered(s, t) && Obsolete(s, t.block);
      }
    }
    RemainingTasks(s, index, s');
    EntriesOf(s, t);
    RemainingPending(s, index, s');
  }

  lemma HandBackLog(s: Waiter, index: nat)
    requires Valid(s) && index < |s.tasks| && Complete(s, s.tasks[index])
    ensures LogOk(HandBack(s, index))
  {
    var t, s' := s.tasks[index], HandBack(s, index);
    assert t in s.tasks && Asked(s, t.missing, t.block);
    assert PayloadStored(s, t.block);
    forall b | b in s'.looped ensures PayloadStored(s', b) {
      assert b == t.block || b in s.looped;
      assert PayloadStored(s, b);
    }
    assert forall b | b in s.dropped :: Obsolete(s, b);
  }

  lemma DropKeeps(s: Waiter, index: nat)
    requires Valid(s) && index < |s.tasks|
    requires s.tasks[index].id in s.signalled || !Registered(s, s.tasks[index])
    ensures Valid(Drop(s, index))
  {
    var t, s' := s.tasks[index], Drop(s, index);
    assert t in s.tasks;
    if Registered(s, t) {
      EntryOf(s, t);
    }
    RemovedBlock(s.tasks, index);
    RemainingTasks(s, index, s');
    EntriesOf(s, t);
    RemainingPending(s, index, s');
    assert LogOk(s') by {
      assert LogOk(s);
      assert forall b | b in s'.dropped :: b == t.block || b in s.dropped;
    }
  }

  lemma StoredKeeps(s: Waiter, stored: set<Digest>)
    requires Valid(s) && s.stored <= stored
    ensures Valid(s.(stored := stored))
  {
    var s' := s.(stored := stored);
    forall t | t in s'.tasks ensures Asked(s', t.missing, t.block) && (Registered(s', t) || Obsolete(s', t.block)) {
      assert Asked(s, t.missing, t.block) && (Registered(s, t) || Obsolete(s, t.block));
    }
    assert TasksOk(s') && PendingOk(s');
    forall b | b in s'.looped ensures PayloadStored(s', b) {
      assert PayloadStored(s, b);
    }
    forall b | b in s'.dropped ensures Obsolete(s', b) {
      assert Obsolete(s, b);
    }
  }

  /** Only the channel between driver and waiter changes. */
  lemma InboxKeeps(s: Waiter, inbox: seq<Message>, toMempool: seq<ToMempool>)
    requires Valid(s)
    requires forall m | m in inbox && m.Wait? :: m in s.inbox || Asked(s, m.missing, m.block)
    ensures Valid(s.(inbox := inbox, toMempool := toMempool))
  {
    var s' := s.(inbox := inbox, toMempool := toMempool);
    assert TasksOk(s') by {
      assert forall t | t in s.tasks :: Registered(s, t) || Obsolete(s, t.block);
    }
    assert PendingOk(s');
    assert forall b | b in s'.looped :: PayloadStored(s, b);
    assert forall b | b in s'.dropped :: Obsolete(s, b);
  }

  lemma ReceiveKeeps(s: Waiter)
    requires Valid(s) && s.inbox != []
    ensures Valid(Apply(s, Receive))
  {
    var s1 := s.(inbox := s.inbox[1..]);
    InboxKeeps(s, s.inbox[1..], s.toMempool);
    assert s.inbox[0] in s.inbox;
    match s.inbox[0] {
      case Wait(missing, block) =>
        assert Asked(s, missing, block);
        TakeInKeeps(s1, missing, block);
      case Cleanup(round) => CleanUpKeeps(s1, round);
    }
  }

  lemma ApplyKeeps(s: Waiter, event: Event)
    requires Valid(s)
    ensures Valid(Apply(s, event))
  {
    match event
    case Verify(block) => DriverVerifyKeeps(s, block);
    case SendCleanup(round) => InboxKeeps(s, s.inbox + [Cleanup(round)], s.toMempool + [CleanupMempool(round)]);
    case Receive =>
      if s.inbox != [] {
        ReceiveKeeps(s);
      }
    case Stored(digest) => StoredKeeps(s, s.stored + {digest});
    case Ready(index) =>
      if index < |s.tasks| && Complete(s, s.tasks[index]) {
        HandBackKeeps(s, index);
      }
    case Cancelled(index) =>
      if index < |s.tasks| && (s.tasks[index].id in s.signalled || !Registered(s, s.tasks[index])) {
        DropKeeps(s, index);
      }
  }

  // ---------- every sequence of events ----------

  /** A block comes back only with its whole payload in the store, so it is not suspended
      for its payload again. */
  lemma ResumedWithPayload(events: seq<Event>, block: Block)
    requires block in ApplyAll(events).looped
    ensures H.Missing(ApplyAll(events).stored, block.payload) == []
  {
    AlwaysValid(events);
    H.MissingExact(ApplyAll(events).stored, block.payload);
  }

  /** No block is lost: each one taken in was handed back, or still waits, or was dropped,
      once for each time it was taken in; and it was dropped only if its round or a later
      one was cleaned up. */
  lemma NoneLost(events: seq<Event>)
    ensures var s := ApplyAll(events);
            && s.taken == multiset(s.looped) + s.dropped + multiset(Blocks(s.tasks))
            && forall b | b in s.dropped :: exists r | r in s.cleaned :: r >= b.round
  {
    AlwaysValid(events);
    var s := ApplyAll(events);
    assert forall b | b in s.dropped :: Obsolete(s, b);
  }

  /** A block that waits for its payload, of a round never cleaned up, is still pending and
      cannot be dropped. */
  lemma WaitingIsPending(events: seq<Event>, index: nat)
    requires index < |ApplyAll(events).tasks|
    requires forall r | r in ApplyAll(events).cleaned :: r < ApplyAll(events).tasks[index].block.round
    ensures var s := ApplyAll(events); var t := s.tasks[index];
            Registered(s, t) && Apply(s, Cancelled(index)) == s
  {
    AlwaysValid(events);
    StillRegistered(ApplyAll(events), index);
  }

  lemma StillRegistered(s: Waiter, index: nat)
    requires Valid(s) && index < |s.tasks| && forall r | r in s.cleaned :: r < s.tasks[index].block.round
    ensures Registered(s, s.tasks[index]) && Apply(s, Cancelled(index)) == s
  {
    var t := s.tasks[index];
    assert t in s.tasks && !Obsolete(s, t.block);
    EntryOf(s, t);
  }

  lemma {:induction false} Droppable(s: Waiter, index: nat)
    requires TasksOk(s) && PendingOk(s) && index < |s.tasks|
    requires forall d | d in s.pending :: s.pending[d].0 > s.tasks[index].block.round
    ensures Apply(s, Cancelled(index)) == Drop(s, index)
  {
    var t := s.tasks[index];
    assert t in s.tasks;
    if Registered(s, t) {
      EntryOf(s, t);
    }
  }

  /** A cleanup reaches everything of its round and before, and nothing later: the entries go,
      every future of theirs may now be dropped, and later entries stay as they are. */
  lemma {:induction false} CleanupReaches(events: seq<Event>, round: Round, index: nat, digest: Digest)
    requires ApplyAll(events).inbox != [] && ApplyAll(events).inbox[0] == Cleanup(round)
    ensures var (s, s') := (ApplyAll(events), ApplyAll(events + [Receive]));
            && (digest in s'.pending <==> digest in s.pending && s.pending[digest].0 > round)
            && (digest in s'.pending ==> s'.pending[digest] == s.pending[digest])
            && (index < |s'.tasks| && s'.tasks[index].block.round <= round ==> Apply(s', Cancelled(index)) == Drop(s', index))
  {
    assert (events + [Receive])[..|events|] == events;
    AlwaysValid(events + [Receive]);
    var s' := ApplyAll(events + [Receive]);
    if index < |s'.tasks| && s'.tasks[index].block.round <= round {
      Droppable(s', index);
    }
  }

  /** The mempool was asked for all that is waited for, by the name of the block's author,
      and told of every round cleaned up. */
  ghost predicate MempoolAsked(s: Waiter) {
    && (forall m | m in s.inbox && m.Wait? :: Synchronize(m.missing, m.block.author) in s.toMempool)
    && (forall t | t in s.tasks :: Synchronize(t.missing, t.block.author) in s.toMempool)
    && (forall r: Round | r in s.cleaned || Cleanup(r) in s.inbox :: CleanupMempool(r) in s.toMempool)
  }

  lemma {:induction false} MempoolIsAsked(events: seq<Event>)
    ensures MempoolAsked(ApplyAll(events))
    decreases |events|
  {
    if events != [] {
      var init, event := events[..|events| - 1], events[|events| - 1];
      MempoolIsAsked(init);
      AskedAfter(ApplyAll(init), event);
    }
  }

  lemma {:induction false} AskedAfter(s: Waiter, event: Event)
    requires MempoolAsked(s)
    ensures MempoolAsked(Apply(s, event))
  {
    var s' := Apply(s, event);
    assert forall x | x in s.toMempool :: x in s'.toMempool;
    match event
    case Verify(block) =>
      var missing := H.Missing(s.stored, block.payload);
      assert missing != [] ==> s'.toMempool[|s.toMempool|] == Synchronize(missing, block.author);
    case SendCleanup(round) =>
      assert s'.toMempool[|s.toMempool|] == CleanupMempool(round);
    case Receive =>
      if s.inbox != [] {
        assert s.inbox[0] in s.inbox && forall m | m in s'.inbox :: m in s.inbox;
        if s.inbox[0].Wait? {
          assert forall t | t in s'.tasks :: t in s.tasks || t == Task(s.next, s.inbox[0].missing, s.inbox[0].block);
        }
      }
    case Ready(index) => assert forall t | t in s'.tasks :: t in s.tasks;
    case Cancelled(index) => assert forall t | t in s'.tasks :: t in s.tasks;
    case _ =>
  }

  /** The driver asks for a block's payload iff some of it is missing, and then for just the
      missing part, of mempool and waiter alike. */
  lemma VerifyExact(events: seq<Event>, block: Block)
    ensures var (s, s') := (ApplyAll(events), ApplyAll(events + [Verify(block)]));
            var missing := H.Missing(s.stored, block.payload);
            && (s' == s <==> forall x | x in block.payload :: x in s.stored)
            && (s' != s ==> s'.toMempool == s.toMempool + [Synchronize(missing, block.author)]
                            && s'.inbox == s.inbox + [Wait(missing, block)])
            && forall x :: x in missing <==> x in block.payload && x !in s.stored
  {
    assert (events + [Verify(block)])[..|events|] == events;
    H.MissingExact(ApplyAll(events).stored, block.payload);
  }
}
