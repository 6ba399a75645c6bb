/** The store's command loop and its notify-read obligations (store/src/lib.rs). */
module Store {
  import opened Messages

  /** Keys and values are byte strings. The keys in use are digests, and the values
      serialized blocks and batches. */
  type StoreKey = Digest

  datatype Value = BlockBytes(block: Block) | BatchBytes(id: Digest)

  /** The position of a command in the channel names the one-shot sender it carries. */
  datatype Command = Write(key: StoreKey, value: Value) | Read(key: StoreKey) | NotifyRead(key: StoreKey)

  datatype Reply = Reply(to: nat, value: Option<Value>)

  // ---------- what the commands promise ----------

  /** The database after the commands. */
  function Contents(commands: seq<Command>): map<StoreKey, Value> {
    if commands == [] then map[]
    else
      var before := Contents(commands[..|commands| - 1]);
      match commands[|commands| - 1]
      case Write(key, value) => before[key := value]
      case _ => before
  }

  /** `j` is the first command after `i` that writes `key`, and it writes `value`. */
  predicate FirstWriteAfter(commands: seq<Command>, i: nat, j: nat, key: StoreKey, value: Value) {
    && i < j < |commands|
    && commands[j] == Write(key, value)
    && forall l | i < l < j :: !(commands[l].Write? && commands[l].key == key)
  }

  ghost predicate WrittenAfter(commands: seq<Command>, i: nat, key: StoreKey, value: Value) {
    exists j :: FirstWriteAfter(commands, i, j, key, value)
  }

  /** The answer command `i` is owed: a read, and a notify-read of a key present, the value
      at that moment; a notify-read of an absent key, the value of the first later write. */
  ghost predicate Owed(commands: seq<Command>, i: nat, answer: Option<Value>)
    requires i < |commands|
  {
    var db := Contents(commands[..i]);
    match commands[i]
    case Write(_, _) => false
    case Read(key) => answer == if key in db then Some(db[key]) else None
    case NotifyRead(key) =>
      if key in db then answer == Some(db[key])
      else answer.Some? && WrittenAfter(commands, i, key, answer.value)
  }

  /** The notify-reads of `key`, in order of arrival. */
  function Waiting(commands: seq<Command>, key: StoreKey): seq<nat> {
    if commands == [] then []
    else
      var n := |commands| - 1;
      Waiting(commands[..n], key) + if commands[n] == NotifyRead(key) then [n] else []
  }

  // ---------- the loop ----------

  datatype StoreState = StoreState(db: map<StoreKey, Value>, obligations: map<StoreKey, seq<nat>>, replies: seq<Reply>)

  const EMPTY := StoreState(map[], map[], [])

  function Answers(senders: seq<nat>, value: Value): (replies: seq<Reply>)
    ensures |replies| == |senders|
    ensures forall i | 0 <= i < |senders| :: replies[i] == Reply(senders[i], Some(value))
  {
    seq(|senders|, i requires 0 <= i < |senders| => Reply(senders[i], Some(value)))
  }

  lemma AnswersSnoc(senders: seq<nat>, last: nat, value: Value)
    ensures Answers(senders + [last], value) == Answers(senders, value) + [Reply(last, Some(value))]
  {
  }

  function Process(s: StoreState, id: nat, command: Command): StoreState {
    match command
    case Write(key, value) =>
      var senders := if key in s.obligations then s.obligations[key] else [];
      StoreState(s.db[key := value], s.obligations - {key}, s.replies + Answers(senders, value))
    case Read(key) =>
      s.(replies := s.replies + [Reply(id, if key in s.db then Some(s.db[key]) else None)])
    case NotifyRead(key) =>
      if key in s.db then s.(replies := s.replies + [Reply(id, Some(s.db[key]))])
      else
        var senders := if key in s.obligations then s.obligations[key] else [];
        s.(obligations := s.obligations[key := senders + [id]])
  }

  function Run(commands: seq<Command>): StoreState {
    if commands == [] then EMPTY
    else
      var n := |commands| - 1;
      Process(Run(commands[..n]), n, commands[n])
  }

  class Store {
    var db: map<StoreKey, Value>
    var obligations: map<StoreKey, seq<nat>>
    var replies: seq<Reply>

    function State(): StoreState
      reads this
    {
      StoreState(db, obligations, replies)
    }

    constructor ()
      ensures State() == EMPTY
    {
      db, obligations, replies := map[], map[], [];
    }

    /** Answers the senders in the order of their queue. */
    method AnswerAll(queue: seq<nat>, value: Value)
      modifies this`replies
      ensures replies == old(replies) + Answers(queue, value)
    {
      var senders := queue;
      ghost var sent: seq<nat> := [];
      while senders != []
        invariant sent + senders == queue
        invariant replies == old(replies) + Answers(sent, value)
        decreases |senders|
      {
        AnswersSnoc(sent, senders[0], value);
        sent := sent + [senders[0]];
        replies := replies + [Reply(senders[0], Some(value))];
        senders := senders[1..];
      }
      assert sent == queue;
    }

    /** One turn of the command loop; `id` names the command's one-shot sender. */
    method Handle(id: nat, command: Command)
      modifies this
      ensures State() == Process(old(State()), id, command)
    {
      match command
      case Write(key, value) =>
        db := db[key := value];
        if key in obligations {
          var senders := obligations[key];
          obligations := obligations - {key};
          AnswerAll(senders, value);
        } else {
          assert obligations == obligations - {key};
        }
      case Read(key) =>
        var response := if key in db then Some(db[key]) else None;
        replies := replies + [Reply(id, response)];
      case NotifyRead(key) =>
        if key !in db {
          var senders := if key in obligations then obligations[key] else [];
          obligations := obligations[key := senders + [id]];
        } else {
          replies := replies + [Reply(id, Some(db[key]))];
        }
    }
  }

  // ---------- every command sequence ----------

  lemma {:induction false} Database(commands: seq<Command>)
    ensures Run(commands).db == Contents(commands)
    decreases |commands|
  {
    if commands != [] {
      Database(commands[..|commands| - 1]);
    }
  }

  /** Keys with outstanding obligations are absent from the database, and the senders that
      wait for an absent key are exactly its notify-reads, in order of arrival. */
  lemma {:induction false} Obligations(commands: seq<Command>)
    ensures forall key :: key in Run(commands).obligations <==>
                          key !in Run(commands).db && Waiting(commands, key) != []
    ensures forall key | key in Run(commands).obligations ::
              Run(commands).obligations[key] == Waiting(commands, key)
    decreases |commands|
  {
    if commands != [] {
      Obligations(commands[..|commands| - 1]);
    }
  }

  /** A key absent at first is present later exactly if there is a first write in between. */
  lemma {:induction false} PresentIfWritten(commands: seq<Command>, i: nat, key: StoreKey)
    requires i < |commands| && !commands[i].Write? && key !in Contents(commands[..i])
    ensures key in Contents(commands) <==> exists value :: WrittenAfter(commands, i, key, value)
    decreases |commands|
  {
    var n := |commands| - 1;
    var init := commands[..n];
    assert commands == init + [commands[n]];
    if i < n {
      assert init[..i] == commands[..i];
      PresentIfWritten(init, i, key);
      forall value ensures WrittenAfter(commands, i, key, value) <==>
        WrittenAfter(init, i, key, value) || (key !in Contents(init) && commands[n] == Write(key, value))
      {
        FirstWriteSnoc(init, commands[n], i, key, value);
      }
      assert commands[n].Write? ==> commands[n] == Write(commands[n].key, commands[n].value);
    } else {
      assert commands[..i] == init;
    }
  }

  lemma FirstWriteSnoc(commands: seq<Command>, command: Command, i: nat, key: StoreKey, value: Value)
    requires i < |commands| && !commands[i].Write? && key !in Contents(commands[..i])
    requires key in Contents(commands) <==> exists v :: WrittenAfter(commands, i, key, v)
    ensures WrittenAfter(commands + [command], i, key, value) <==>
            WrittenAfter(commands, i, key, value) || (key !in Contents(commands) && command == Write(key, value))
  {
    var all, n := commands + [command], |commands|;
    if WrittenAfter(commands, i, key, value) {
      var j: nat :| FirstWriteAfter(commands, i, j, key, value);
      assert FirstWriteAfter(all, i, j, key, value);
    }
    if key !in Contents(commands) && command == Write(key, value) {
      NoWriteBefore(commands, i, key);
      assert FirstWriteAfter(all, i, n, key, value);
    }
    if WrittenAfter(all, i, key, value) {
      var j: nat :| FirstWriteAfter(all, i, j, key, value);
      if j < n {
        assert forall l | i < l < j :: all[l] == commands[l];
        assert FirstWriteAfter(commands, i, j, key, value);
      } else {
        assert forall l | i < l < n :: all[l] == commands[l] && !(commands[l].Write? && commands[l].key == key);
        assert forall v, j' :: !FirstWriteAfter(commands, i, j', key, v);
      }
    }
  }

  lemma {:induction false} NoWriteBefore(commands: seq<Command>, i: nat, key: StoreKey)
    requires i < |commands| && key !in Contents(commands)
    ensures forall l | i <= l < |commands| :: !(commands[l].Write? && commands[l].key == key)
    decreases |commands|
  {
    var n := |commands| - 1;
    if i < n {
      NoWriteBefore(commands[..n], i, key);
    }
  }

  /** One more command settles exactly the answers that waited for it. */
  lemma OwedSnoc(commands: seq<Command>, command: Command, i: nat, answer: Option<Value>)
    requires i < |commands|
    ensures Owed(commands + [command], i, answer) <==>
            || Owed(commands, i, answer)
            || (commands[i].NotifyRead? && commands[i].key !in Contents(commands)
                && answer.Some? && command == Write(commands[i].key, answer.value))
  {
    assert (commands + [command])[..i] == commands[..i];
    if commands[i].NotifyRead? {
      var key := commands[i].key;
      if key in Contents(commands[..i]) {
        StaysPresent(commands, i, key);
      } else {
        PresentIfWritten(commands, i, key);
        if answer.Some? {
          FirstWriteSnoc(commands, command, i, key, answer.value);
        }
      }
    }
  }

  lemma {:induction false} StaysPresent(commands: seq<Command>, i: nat, key: StoreKey)
    requires i <= |commands| && key in Contents(commands[..i])
    ensures key in Contents(commands)
    decreases |commands|
  {
    if i < |commands| {
      var init := commands[..|commands| - 1];
      assert init[..i] == commands[..i];
      StaysPresent(init, i, key);
    } else {
      assert commands[..i] == commands;
    }
  }

  lemma {:induction false} WaitingExact(commands: seq<Command>, key: StoreKey)
    ensures forall i :: i in Waiting(commands, key) <==> 0 <= i < |commands| && commands[i] == NotifyRead(key)
    ensures forall i, j | 0 <= i < j < |Waiting(commands, key)| :: Waiting(commands, key)[i] < Waiting(commands, key)[j]
    decreases |commands|
  {
    if commands != [] {
      var earlier := Waiting(commands[..|commands| - 1], key);
      WaitingExact(commands[..|commands| - 1], key);
      assert forall p | 0 <= p < |earlier| :: earlier[p] in earlier;
    }
  }

  /** Every reply is the one owed, and every answer that is owed has been sent. */
  lemma {:induction false} RepliesAreOwed(commands: seq<Command>, i: nat, answer: Option<Value>)
    requires i < |commands|
    ensures Reply(i, answer) in Run(commands).replies <==> Owed(commands, i, answer)
    decreases |commands|
  {
    var n := |commands| - 1;
    var init, command := commands[..n], commands[n];
    var before := Run(init);
    assert commands == init + [command];
    Database(init);
    Obligations(init);
    RepliesInRange(init);
    assert commands[..n] == init;
    if i < n {
      RepliesAreOwed(init, i, answer);
      OwedSnoc(init, command, i, answer);
    }
    if command.Write? {
      WaitingExact(init, command.key);
      var senders := if command.key in before.obligations then before.obligations[command.key] else [];
      var sent := Answers(senders, command.value);
      assert Reply(i, answer) in sent <==> i in senders && answer == Some(command.value) by {
        if i in senders && answer == Some(command.value) {
          var p :| 0 <= p < |senders| && senders[p] == i;
          assert sent[p] == Reply(i, answer);
        }
      }
    }
  }

  lemma {:induction false} RepliesInRange(commands: seq<Command>)
    ensures forall r | r in Run(commands).replies :: r.to < |commands|
    decreases |commands|
  {
    if commands != [] {
      var init, command := commands[..|commands| - 1], commands[|commands| - 1];
      RepliesInRange(init);
      Obligations(init);
      if command.Write? {
        var senders := Waiting(init, command.key);
        WaitingExact(init, command.key);
        assert forall p | 0 <= p < |senders| :: senders[p] in senders;
      }
    }
  }

  /** The reply `r` leaves before `r'`: another sender, and a later one if both are
      notify-reads of one key. */
  predicate InOrder(commands: seq<Command>, r: Reply, r': Reply) {
    && r.to < |commands| && r'.to < |commands| && r.to != r'.to
    && (commands[r.to].NotifyRead? && commands[r.to] == commands[r'.to] ==> r.to < r'.to)
  }

  lemma InOrderSnoc(commands: seq<Command>, command: Command, r: Reply, r': Reply)
    requires InOrder(commands, r, r')
    ensures InOrder(commands + [command], r, r')
  {
  }

  /** The replies one command brings follow all earlier ones, and each other, in order. */
  lemma NewRepliesInOrder(commands: seq<Command>, command: Command, p: nat, q: nat)
    requires var after := Process(Run(commands), |commands|, command).replies;
             p < q < |after| && |Run(commands).replies| <= q
    ensures var after := Process(Run(commands), |commands|, command).replies;
            InOrder(commands + [command], after[p], after[q])
  {
    if command.Write? {
      SentOnWrite(commands, command);
      WritesInOrder(commands, command, p, q);
    } else {
      RepliesInRange(commands);
      assert Run(commands).replies[p] in Run(commands).replies;
    }
  }

  lemma WritesInOrder(commands: seq<Command>, command: Command, p: nat, q: nat)
    requires command.Write? && command.key !in Contents(commands)
    requires var sent, senders := Run(commands).replies, Waiting(commands, command.key);
             p < q < |sent| + |senders| && |sent| <= q
    ensures var after := Run(commands).replies + Answers(Waiting(commands, command.key), command.value);
            InOrder(commands + [command], after[p], after[q])
  {
    var sent, senders := Run(commands).replies, Waiting(commands, command.key);
    if p < |sent| {
      LateReplyInOrder(commands, command, sent[p], q - |sent|);
    } else {
      WaitingExact(commands, command.key);
      assert senders[p - |sent|] in senders && senders[q - |sent|] in senders;
    }
  }

  /** No sender is answered twice, and the notify-reads of one key are answered in the
      order in which they arrived. */
  lemma {:induction false} RepliesInOrder(commands: seq<Command>, p: nat, q: nat)
    requires p < q < |Run(commands).replies|
    ensures InOrder(commands, Run(commands).replies[p], Run(commands).replies[q])
    decreases |commands|
  {
    var n := |commands| - 1;
    var init, command := commands[..n], commands[n];
    assert commands == init + [command];
    if q < |Run(init).replies| {
      RepliesInOrder(init, p, q);
      InOrderSnoc(init, command, Run(init).replies[p], Run(init).replies[q]);
    } else {
      NewRepliesInOrder(init, command, p, q);
    }
  }

  lemma SentOnWrite(commands: seq<Command>, command: Command)
    requires command.Write?
    ensures Process(Run(commands), |commands|, command).replies ==
            Run(commands).replies + if command.key in Contents(commands) then []
                                    else Answers(Waiting(commands, command.key), command.value)
  {
    Obligations(commands);
    Database(commands);
    assert Answers([], command.value) == [];
  }

  lemma LateReplyInOrder(commands: seq<Command>, command: Command, r: Reply, w: nat)
    requires r in Run(commands).replies && command.Write? && command.key !in Contents(commands)
    requires w < |Waiting(commands, command.key)|
    ensures InOrder(commands + [command], r, Reply(Waiting(commands, command.key)[w], Some(command.value)))
  {
    var senders := Waiting(commands, command.key);
    RepliesInRange(commands);
    WaitingExact(commands, command.key);
    assert senders[w] in senders;
    AnsweredNotWaiting(commands, r, command.key);
  }

  /** Nobody who waits for an absent key has been answered. */
  lemma AnsweredNotWaiting(commands: seq<Command>, r: Reply, key: StoreKey)
    requires r in Run(commands).replies && r.to < |commands| && key !in Contents(commands)
    ensures commands[r.to] != NotifyRead(key)
  {
    RepliesAreOwed(commands, r.to, r.value);
    assert r == Reply(r.to, r.value);
    if commands[r.to] == NotifyRead(key) {
      AnsweredIsPresent(commands, r.to, r.value);
    }
  }

  /** A notify-read that was answered is of a key that is present. */
  lemma AnsweredIsPresent(commands: seq<Command>, i: nat, answer: Option<Value>)
    requires i < |commands| && commands[i].NotifyRead? && Owed(commands, i, answer)
    ensures commands[i].key in Contents(commands)
  {
    var key := commands[i].key;
    if key in Contents(commands[..i]) {
      StaysPresent(commands, i, key);
    } else {
      PresentIfWritten(commands, i, key);
    }
  }

  lemma SomethingOwed(commands: seq<Command>, i: nat) returns (answer: Option<Value>)
    requires i < |commands| && commands[i].NotifyRead? && commands[i].key in Contents(commands)
    ensures Owed(commands, i, answer)
  {
    var key, db := commands[i].key, Contents(commands[..i]);
    if key in db {
      answer := Some(db[key]);
    } else {
      PresentIfWritten(commands, i, key);
      var value :| WrittenAfter(commands, i, key, value);
      answer := Some(value);
    }
  }

  /** A notify-read has been answered exactly when its key is in the store. */
  lemma NotifiedIffPresent(commands: seq<Command>, i: nat)
    requires i < |commands| && commands[i].NotifyRead?
    ensures (exists r :: r in Run(commands).replies && r.to == i) <==> commands[i].key in Contents(commands)
  {
    var key := commands[i].key;
    if key in Contents(commands) {
      var answer := SomethingOwed(commands, i);
      RepliesAreOwed(commands, i, answer);
      assert Reply(i, answer).to == i;
    }
    forall r | r in Run(commands).replies && r.to == i ensures key in Contents(commands) {
      assert r == Reply(i, r.value);
      RepliesAreOwed(commands, i, r.value);
      AnsweredIsPresent(commands, i, r.value);
    }
  }
}
