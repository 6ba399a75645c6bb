/** One connection of the reliable sender: retransmission until acknowledged or cancelled
    (network/src/reliable_sender.rs). */
module ReliableSender {
  import opened Messages

  type Bytes = seq<bv8>

  /** A message with its one-shot handler; handlers are named by order of acceptance. */
  datatype Message = Message(data: Bytes, handler: nat)

  datatype Ack = Ack(handler: nat, reply: Bytes)

  // ---------- the connection as a value ----------

  /** `pending` was sent and awaits an acknowledgement, `buffer` is still to be sent.
      `accepted`, `cancelled` and `dropped` are the history: all messages ever accepted,
      the handlers whose owner has let go, and those whose message was thrown away. */
  datatype Link = Link(
    connected: bool,
    pending: seq<Message>,
    buffer: seq<Message>,
    resolved: seq<Ack>,
    accepted: seq<Message>,
    cancelled: set<nat>,
    dropped: set<nat>)

  const IDLE := Link(false, [], [], [], [], {}, {})

  datatype Event =
    | Connect
    | Cancel(handler: nat)
    | Accept(data: Bytes)
    | SendNext(written: bool)
    | Reply(response: Option<Bytes>)

  /** The messages whose handler is not in `gone`. */
  function Without(s: seq<Message>, gone: set<nat>): seq<Message> {
    if s == [] then []
    else if s[0].handler in gone then Without(s[1..], gone)
    else [s[0]] + Without(s[1..], gone)
  }

  function Handlers(s: seq<Message>): set<nat> {
    set m | m in s :: m.handler
  }

  function AckedHandlers(resolved: seq<Ack>): set<nat> {
    set a | a in resolved :: a.handler
  }

  /** The connection broke: everything unacknowledged goes back to the front of the buffer. */
  function Break(l: Link): Link {
    l.(connected := false, pending := [], buffer := l.pending + l.buffer)
  }

  /** A new message joins the buffer; without a connection the cancelled ones are purged. */
  function AcceptMessage(l: Link, data: Bytes): Link {
    var m := Message(data, |l.accepted|);
    var buffer := l.buffer + [m];
    if l.connected then l.(accepted := l.accepted + [m], buffer := buffer)
    else l.(accepted := l.accepted + [m], buffer := Without(buffer, l.cancelled),
            dropped := l.dropped + (Handlers(buffer) * l.cancelled))
  }

  /** One turn of the sending loop: skip a cancelled message, otherwise try to write it. */
  function SendFront(l: Link, written: bool): Link
    requires l.buffer != []
  {
    var m, rest := l.buffer[0], l.buffer[1..];
    if m.handler in l.cancelled then l.(buffer := rest, dropped := l.dropped + {m.handler})
    else if written then l.(buffer := rest, pending := l.pending + [m])
    else Break(l)
  }

  /** The peer's answer settles the oldest unacknowledged message; anything else, or an
      answer nobody waits for, breaks the connection. */
  function TakeReply(l: Link, response: Option<Bytes>): Link {
    if l.pending == [] || response.None? then Break(l)
    else l.(pending := l.pending[1..], resolved := l.resolved + [Ack(l.pending[0].handler, response.value)])
  }

  /** The loop as a whole. New messages and replies are looked at only once the buffer has
      been sent, or while there is no connection; other events are ignored. */
  function Apply(l: Link, event: Event): Link {
    match event
    case Connect => l.(connected := true)
    case Cancel(handler) => l.(cancelled := l.cancelled + {handler})
    case Accept(data) => if l.connected && l.buffer != [] then l else AcceptMessage(l, data)
    case SendNext(written) => if l.connected && l.buffer != [] then SendFront(l, written) else l
    case Reply(response) => if l.connected && l.buffer == [] then TakeReply(l, response) else l
  }

  function ApplyAll(events: seq<Event>): Link {
    if events == [] then IDLE
    else Apply(ApplyAll(events[..|events| - 1]), events[|events| - 1])
  }

  // ---------- the connection as an object ----------

  class Connection {
    var connected: bool
    var buffer: seq<Message>
    var pendingReplies: seq<Message>
    var resolved: seq<Ack>
    var next: nat
    var cancelled: set<nat>
    ghost var accepted: seq<Message>
    ghost var dropped: set<nat>

    ghost function State(): Link
      reads this
    {
      Link(connected, pendingReplies, buffer, resolved, accepted, cancelled, dropped)
    }

    constructor ()
      ensures State() == IDLE && next == 0
    {
      connected, buffer, pendingReplies, resolved, next, cancelled := false, [], [], [], 0, {};
      accepted, dropped := [], {};
    }

    /** While there is no connection the channel is drained into the buffer. */
    method AcceptWaiting(data: Bytes)
      requires !connected && next == |accepted|
      modifies this
      ensures State() == Apply(old(State()), Accept(data)) && next == |accepted|
    {
      var m := Message(data, next);
      next := next + 1;
      accepted := accepted + [m];
      buffer := buffer + [m];
      dropped := dropped + (Handlers(buffer) * cancelled);
      Retain();
    }

    /** Keeps the messages whose handler is still open. */
    method Retain()
      modifies this`buffer
      ensures buffer == Without(old(buffer), cancelled)
    {
      var kept: seq<Message> := [];
      for i := 0 to |buffer|
        invariant buffer == old(buffer)
        invariant Without(buffer, cancelled) == kept + Without(buffer[i..], cancelled)
      {
        assert buffer[i..][1..] == buffer[i + 1..];
        if buffer[i].handler !in cancelled {
          kept := kept + [buffer[i]];
        }
      }
      buffer := kept;
    }

    /** Sends the buffer; `writes` tells which of the attempts fail. Returns whether the
        connection is still good. */
    method SendBuffer(writes: nat -> bool) returns (good: bool)
      requires connected
      modifies this
      ensures State() == SendAll(old(State()), writes, 0)
      ensures good == connected && (good ==> buffer == [])
      ensures next == old(next)
    {
      ghost var start := State();
      var attempt := 0;
      while buffer != []
        invariant connected && next == old(next)
        invariant SendAll(start, writes, 0) == SendAll(State(), writes, attempt)
        decreases |buffer|
      {
        var m := buffer[0];
        buffer := buffer[1..];
        if m.handler in cancelled {
          dropped := dropped + {m.handler};
        } else if writes(attempt) {
          pendingReplies := pendingReplies + [m];
        } else {
          buffer := [m] + buffer;
          PutBack();
          return false;
        }
        attempt := attempt + 1;
      }
      return true;
    }

    /** Puts the unacknowledged messages back, last one first. */
    method PutBack()
      modifies this`pendingReplies, this`buffer, this`connected
      ensures State() == Break(old(State()))
    {
      while pendingReplies != []
        invariant pendingReplies + buffer == old(pendingReplies + buffer)
        invariant connected == old(connected)
        decreases |pendingReplies|
      {
        var message := pendingReplies[|pendingReplies| - 1];
        pendingReplies := pendingReplies[..|pendingReplies| - 1];
        buffer := [message] + buffer;
      }
      connected := false;
    }

    method AcceptConnected(data: Bytes)
      requires connected && buffer == [] && next == |accepted|
      modifies this
      ensures State() == Apply(old(State()), Accept(data)) && next == |accepted|
    {
      var m := Message(data, next);
      next := next + 1;
      accepted := accepted + [m];
      buffer := buffer + [m];
    }

    method HandleReply(response: Option<Bytes>)
      requires connected && buffer == []
      modifies this
      ensures State() == Apply(old(State()), Reply(response)) && next == old(next)
    {
      if pendingReplies == [] {
        PutBack();
        return;
      }
      var m := pendingReplies[0];
      pendingReplies := pendingReplies[1..];
      if response.Some? {
        resolved := resolved + [Ack(m.handler, response.value)];
      } else {
        pendingReplies := [m] + pendingReplies;
        PutBack();
      }
    }
  }

  /** The sending loop as a sequence of turns. */
  function SendAll(l: Link, writes: nat -> bool, attempt: nat): Link
    decreases |l.buffer|, l.connected
  {
    if !l.connected || l.buffer == [] then l
    else
      var l' := Apply(l, SendNext(writes(attempt)));
      if !l'.connected then l' else SendAll(l', writes, attempt + 1)
  }

  // ---------- nothing is lost, nothing is duplicated ----------

  /** The handlers whose message left the connection for good. */
  function Gone(l: Link): set<nat> {
    AckedHandlers(l.resolved) + l.dropped
  }

  ghost predicate Valid(l: Link) {
    && (forall i | 0 <= i < |l.accepted| :: l.accepted[i].handler == i)
    && l.pending + l.buffer == Without(l.accepted, Gone(l))
    && l.dropped <= l.cancelled
    && (!l.connected ==> l.pending == [])
    && (forall h | h in Gone(l) :: h < |l.accepted|)
    && AckedHandlers(l.resolved) !! l.dropped
    && (forall a, m | a in l.resolved && m in l.pending + l.buffer :: a.handler < m.handler)
    && (forall i, j | 0 <= i < j < |l.resolved| :: l.resolved[i].handler < l.resolved[j].handler)
  }

  lemma {:induction false} WithoutConcat(a: seq<Message>, b: seq<Message>, gone: set<nat>)
    ensures Without(a + b, gone) == Without(a, gone) + Without(b, gone)
    decreases |a|
  {
    if a == [] {
      assert a + b == b;
    } else {
      assert (a + b)[1..] == a[1..] + b;
      WithoutConcat(a[1..], b, gone);
    }
  }

  lemma {:induction false} WithoutTwice(s: seq<Message>, gone: set<nat>, more: set<nat>)
    ensures Without(Without(s, gone), more) == Without(s, gone + more)
    decreases |s|
  {
    if s != [] {
      WithoutTwice(s[1..], gone, more);
      if s[0].handler !in gone {
        assert ([s[0]] + Without(s[1..], gone))[1..] == Without(s[1..], gone);
      }
    }
  }

  lemma {:induction false} WithoutNone(s: seq<Message>, gone: set<nat>)
    requires forall m | m in s :: m.handler !in gone
    ensures Without(s, gone) == s
    decreases |s|
  {
    if s != [] {
      assert forall m | m in s[1..] :: m in s;
      WithoutNone(s[1..], gone);
    }
  }

  predicate Sorted(s: seq<Message>) {
    forall i, j | 0 <= i < j < |s| :: s[i].handler < s[j].handler
  }

  lemma {:induction false} WithoutMembers(s: seq<Message>, gone: set<nat>)
    ensures forall m :: m in Without(s, gone) <==> m in s && m.handler !in gone
    decreases |s|
  {
    if s != [] {
      WithoutMembers(s[1..], gone);
      assert forall m :: m in s <==> m == s[0] || m in s[1..];
    }
  }

  lemma {:induction false} WithoutSorted(s: seq<Message>, gone: set<nat>)
    requires Sorted(s)
    ensures Sorted(Without(s, gone))
    decreases |s|
  {
    if s != [] {
      WithoutSorted(s[1..], gone);
      WithoutMembers(s[1..], gone);
      var rest := Without(s[1..], gone);
      forall i | 0 <= i < |rest| ensures s[0].handler < rest[i].handler {
        assert rest[i] in rest;
      }
      assert Without(s, gone) == if s[0].handler in gone then rest else [s[0]] + rest;
    }
  }

  lemma ValidIsSorted(l: Link)
    requires Valid(l)
    ensures Sorted(l.pending + l.buffer)
    ensures forall m :: m in l.pending + l.buffer <==> m in l.accepted && m.handler !in Gone(l)
  {
    assert Sorted(l.accepted);
    WithoutSorted(l.accepted, Gone(l));
    WithoutMembers(l.accepted, Gone(l));
  }

  lemma {:induction false} WithoutOwn(s: seq<Message>, gone: set<nat>, own: set<nat>)
    requires Handlers(s) * gone <= own <= gone
    ensures Without(s, gone) == Without(s, own)
    decreases |s|
  {
    if s != [] {
      assert forall m | m in s[1..] :: m in s;
      assert s[0] in s && s[0].handler in Handlers(s);
      assert Handlers(s[1..]) <= Handlers(s);
      WithoutOwn(s[1..], gone, own);
    }
  }

  lemma RemoveOne(a: seq<Message>, m: Message, b: seq<Message>)
    requires Sorted(a + [m] + b)
    ensures Without(a + [m] + b, {m.handler}) == a + b
  {
    var s := a + [m] + b;
    assert s[|a|] == m;
    forall i | 0 <= i < |a| ensures a[i].handler != m.handler {
      assert s[i] == a[i];
    }
    forall i | 0 <= i < |b| ensures b[i].handler != m.handler {
      assert s[|a| + 1 + i] == b[i];
    }
    WithoutConcat(a + [m], b, {m.handler});
    WithoutConcat(a, [m], {m.handler});
    WithoutNone(a, {m.handler});
    WithoutNone(b, {m.handler});
    assert Without([m], {m.handler}) == [];
  }

  /** The message `m` leaves the queue for good. */
  lemma LeaveQueue(l: Link, a: seq<Message>, m: Message, b: seq<Message>)
    requires Valid(l) && l.pending + l.buffer == a + [m] + b
    ensures Without(l.accepted, Gone(l) + {m.handler}) == a + b
    ensures m.handler < |l.accepted| && m.handler !in Gone(l)
  {
    ValidIsSorted(l);
    RemoveOne(a, m, b);
    WithoutTwice(l.accepted, Gone(l), {m.handler});
    assert (a + [m] + b)[|a|] == m;
    assert m in l.pending + l.buffer;
  }

  lemma PurgeKeeps(l: Link)
    requires Valid(l) && !l.connected
    ensures Valid(l.(buffer := Without(l.buffer, l.cancelled),
                     dropped := l.dropped + (Handlers(l.buffer) * l.cancelled)))
  {
    var purged := Handlers(l.buffer) * l.cancelled;
    var l' := l.(buffer := Without(l.buffer, l.cancelled), dropped := l.dropped + purged);
    assert l.pending + l.buffer == l.buffer;
    PurgedQueue(l, purged);
    assert Gone(l') == Gone(l) + purged;
    assert l'.pending + l'.buffer == l'.buffer;
    WithoutMembers(l.buffer, l.cancelled);
  }

  lemma PurgedQueue(l: Link, purged: set<nat>)
    requires Valid(l) && l.pending == [] && purged == Handlers(l.buffer) * l.cancelled
    ensures Without(l.buffer, l.cancelled) == Without(l.accepted, Gone(l) + purged)
    ensures forall h | h in purged :: h < |l.accepted| && h !in AckedHandlers(l.resolved)
  {
    ValidIsSorted(l);
    assert l.pending + l.buffer == l.buffer;
    WithoutOwn(l.buffer, l.cancelled, purged);
    WithoutTwice(l.accepted, Gone(l), purged);
  }

  lemma AcceptKeeps(l: Link, data: Bytes)
    requires Valid(l)
    ensures Valid(AcceptMessage(l, data))
  {
    var n := |l.accepted|;
    var m := Message(data, n);
    var l1 := l.(accepted := l.accepted + [m], buffer := l.buffer + [m]);
    WithoutConcat(l.accepted, [m], Gone(l));
    assert Without([m], Gone(l)) == [m];
    assert l1.pending + l1.buffer == (l.pending + l.buffer) + [m];
    forall a | a in l.resolved ensures a.handler < n {
      assert a.handler in Gone(l);
    }
    if !l.connected {
      PurgeKeeps(l1);
    }
  }

  lemma BreakKeeps(l: Link)
    requires Valid(l)
    ensures Valid(Break(l))
  {
    assert Break(l).pending + Break(l).buffer == l.pending + l.buffer;
  }

  lemma SendFrontKeeps(l: Link, written: bool)
    requires Valid(l) && l.connected && l.buffer != []
    ensures Valid(SendFront(l, written))
  {
    var m, rest := l.buffer[0], l.buffer[1..];
    assert l.pending + l.buffer == l.pending + [m] + rest;
    if m.handler in l.cancelled {
      var l' := SendFront(l, written);
      LeaveQueue(l, l.pending, m, rest);
      assert Gone(l') == Gone(l) + {m.handler};
      assert forall x | x in l'.pending + l'.buffer :: x in l.pending + l.buffer;
    } else if written {
      assert l.pending + [m] + rest == (l.pending + [m]) + rest;
    } else {
      BreakKeeps(l);
    }
  }

  /** The oldest unacknowledged message is acknowledged. */
  lemma AckKeeps(l: Link, m: Message, rest: seq<Message>, reply: Bytes)
    requires Valid(l) && l.pending != [] && l.connected
    requires m == l.pending[0] && rest == l.pending[1..] + l.buffer
    ensures Valid(l.(pending := l.pending[1..], resolved := l.resolved + [Ack(m.handler, reply)]))
  {
    var l' := l.(pending := l.pending[1..], resolved := l.resolved + [Ack(m.handler, reply)]);
    var queue := l.pending + l.buffer;
    assert queue == [] + [m] + rest == [m] + rest;
    LeaveQueue(l, [], m, rest);
    assert [] + rest == rest;
    AckedSnoc(l.resolved, Ack(m.handler, reply));
    assert Gone(l') == Gone(l) + {m.handler};
    ValidIsSorted(l);
    HeadIsLeast(m, rest);
    AckOrder(l, l', m, rest);
  }

  lemma AckOrder(l: Link, l': Link, m: Message, rest: seq<Message>)
    requires forall a, x | a in l.resolved && x in [m] + rest :: a.handler < x.handler
    requires forall x | x in rest :: m.handler < x.handler
    requires forall i, j | 0 <= i < j < |l.resolved| :: l.resolved[i].handler < l.resolved[j].handler
    requires |l'.resolved| == |l.resolved| + 1 && l'.resolved[..|l.resolved|] == l.resolved
    requires l'.resolved[|l.resolved|].handler == m.handler
    ensures forall a, x | a in l'.resolved && x in rest :: a.handler < x.handler
    ensures forall i, j | 0 <= i < j < |l'.resolved| :: l'.resolved[i].handler < l'.resolved[j].handler
  {
    assert m in [m] + rest && forall x | x in rest :: x in [m] + rest;
    assert forall i | 0 <= i < |l.resolved| :: l'.resolved[i] == l.resolved[i] && l.resolved[i] in l.resolved;
  }

  lemma TakeReplyKeeps(l: Link, response: Option<Bytes>)
    requires Valid(l) && l.connected
    ensures Valid(TakeReply(l, response))
  {
    if l.pending == [] || response.None? {
      BreakKeeps(l);
    } else {
      AckKeeps(l, l.pending[0], l.pending[1..] + l.buffer, response.value);
    }
  }

  lemma AckedSnoc(resolved: seq<Ack>, ack: Ack)
    ensures AckedHandlers(resolved + [ack]) == AckedHandlers(resolved) + {ack.handler}
  {
    var all := resolved + [ack];
    assert all[|resolved|] == ack;
    assert forall a :: a in all <==> a in resolved || a == ack;
  }

  lemma HeadIsLeast(m: Message, rest: seq<Message>)
    requires Sorted([m] + rest)
    ensures forall x | x in rest :: m.handler < x.handler
  {
    forall i | 0 <= i < |rest| ensures m.handler < rest[i].handler {
      assert ([m] + rest)[0] == m && ([m] + rest)[i + 1] == rest[i];
    }
  }

  lemma ApplyKeeps(l: Link, event: Event)
    requires Valid(l)
    ensures Valid(Apply(l, event))
  {
    match event
    case Connect =>
    case Cancel(handler) =>
    case Accept(data) => AcceptKeeps(l, data);
    case SendNext(written) => if l.connected && l.buffer != [] { SendFrontKeeps(l, written); }
    case Reply(response) => if l.connected { TakeReplyKeeps(l, response); }
  }

  lemma {:induction false} AlwaysValid(events: seq<Event>)
    ensures Valid(ApplyAll(events))
    decreases |events|
  {
    if events != [] {
      AlwaysValid(events[..|events| - 1]);
      ApplyKeeps(ApplyAll(events[..|events| - 1]), events[|events| - 1]);
    }
  }

  /** Over any interleaving of sends, acknowledgements, cancellations, write failures and
      reconnects: what is pending followed by what is buffered is, up to cancelled messages,
      exactly what was accepted and not acknowledged, in order of acceptance. */
  lemma NothingLost(events: seq<Event>)
    ensures var l := ApplyAll(events);
            Without(l.pending + l.buffer, l.cancelled)
            == Without(Without(l.accepted, AckedHandlers(l.resolved)), l.cancelled)
  {
    var l := ApplyAll(events);
    AlwaysValid(events);
    var acked := AckedHandlers(l.resolved);
    WithoutTwice(l.accepted, Gone(l), l.cancelled);
    WithoutTwice(l.accepted, acked, l.cancelled);
    assert Gone(l) + l.cancelled == acked + l.cancelled;
  }

  /** Each handler is resolved at most once, only for an accepted message, in order of
      acceptance, and never while its message is still queued. */
  lemma ResolvedOnce(events: seq<Event>, i: nat, j: nat)
    requires i < j < |ApplyAll(events).resolved|
    ensures var l := ApplyAll(events);
            && l.resolved[i].handler < l.resolved[j].handler < |l.accepted|
            && forall m | m in l.pending + l.buffer :: l.resolved[j].handler < m.handler
  {
    var l := ApplyAll(events);
    AlwaysValid(events);
    assert l.resolved[j] in l.resolved && l.resolved[j].handler in Gone(l);
  }

  // ---------- what is sent ----------

  /** While no write fails, the whole buffer goes out in its order, but for the messages that
      were cancelled. */
  lemma {:induction false} AllIsSent(l: Link, writes: nat -> bool, attempt: nat)
    requires l.connected && forall n | n >= attempt :: writes(n)
    ensures var l' := SendAll(l, writes, attempt);
            l'.connected && l'.buffer == [] && l'.pending == l.pending + Without(l.buffer, l.cancelled) && l'.resolved == l.resolved
    decreases |l.buffer|
  {
    if l.buffer != [] {
      var l' := Apply(l, SendNext(writes(attempt)));
      AllIsSent(l', writes, attempt + 1);
    }
  }

  /** A failed write breaks the connection; everything not acknowledged and not cancelled is
      then in the buffer, in its order, to be sent again. */
  lemma {:induction false} NothingIsSkipped(l: Link, writes: nat -> bool, attempt: nat)
    requires l.connected
    ensures var l' := SendAll(l, writes, attempt);
            && Without(l'.pending + l'.buffer, l.cancelled) == Without(l.pending + l.buffer, l.cancelled)
            && (if l'.connected then l'.buffer == [] else l'.pending == [])
    decreases |l.buffer|
  {
    if l.buffer != [] {
      var l' := Apply(l, SendNext(writes(attempt)));
      var m, rest := l.buffer[0], l.buffer[1..];
      assert l.pending + l.buffer == l.pending + [m] + rest;
      WithoutConcat(l.pending + [m], rest, l.cancelled);
      WithoutConcat(l.pending, [m], l.cancelled);
      WithoutConcat(l.pending, rest, l.cancelled);
      if l'.connected {
        NothingIsSkipped(l', writes, attempt + 1);
        assert (l.pending + [m]) + rest == l.pending + [m] + rest;
      } else {
        assert l'.pending + l'.buffer == l.pending + l.buffer;
      }
    }
  }

  /** Without a connection, accepting a message purges the buffer of cancelled ones. */
  lemma PurgedWhileWaiting(events: seq<Event>, data: Bytes)
    requires !ApplyAll(events).connected
    ensures var (l, l') := (ApplyAll(events), ApplyAll(events + [Accept(data)]));
            && l'.buffer == Without(l.buffer + [Message(data, |l.accepted|)], l.cancelled)
            && forall m | m in l'.buffer :: m.handler !in l'.cancelled
  {
    assert (events + [Accept(data)])[..|events|] == events;
    var l := ApplyAll(events);
    WithoutMembers(l.buffer + [Message(data, |l.accepted|)], l.cancelled);
  }

  lemma OldestIsFirst(l: Link)
    requires Valid(l) && l.buffer == [] && l.pending != []
    ensures forall m | m in l.pending :: l.pending[0].handler <= m.handler
    ensures l.pending[1..] == Without(l.pending, {l.pending[0].handler})
  {
    ValidIsSorted(l);
    assert l.pending + l.buffer == l.pending;
    var m, rest := l.pending[0], l.pending[1..];
    assert l.pending == [] + [m] + rest && [] + rest == rest;
    RemoveOne([], m, rest);
  }

  /** An answer settles the oldest message in the queue, with its own bytes. Without an answer,
      or with one nobody waits for, the connection breaks, and all is to be sent again. */
  lemma {:induction false} ReplyOutcome(events: seq<Event>, response: Option<Bytes>)
    requires ApplyAll(events).connected && ApplyAll(events).buffer == []
    ensures var (l, l') := (ApplyAll(events), ApplyAll(events + [Reply(response)]));
            && (l'.connected <==> l.pending != [] && response.Some?)
            && (if l'.connected then
                  exists h: nat :: l'.resolved == l.resolved + [Ack(h, response.value)] && l'.pending == Without(l.pending, {h})
                                   && forall m | m in l.pending :: h <= m.handler
                else l'.pending == [] && l'.buffer == l.pending && l'.resolved == l.resolved)
  {
    assert (events + [Reply(response)])[..|events|] == events;
    var l := ApplyAll(events);
    AlwaysValid(events);
    if l.pending != [] {
      OldestIsFirst(l);
    }
  }
}
