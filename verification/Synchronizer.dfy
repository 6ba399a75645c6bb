/** Suspending blocks whose parent is missing and resuming them
    (consensus/src/synchronizer.rs). */
module Synchronizer {
  import opened Config
  import opened Messages

  type Time = nat

  /** What the synchronizer sends: a request for a block, to one authority or to all, and
      a block handed back to the core. */
  datatype Output =
    | Request(parent: Digest, to: Key)
    | Retry(parent: Digest)
    | Resume(block: Block)

  /** `stored` is what the store holds; a waiting block is one whose notify-read of its
      parent is outstanding. `arrived` is the history of the blocks taken in. */
  datatype Sync = Sync(
    pending: set<Digest>,
    requests: map<Digest, Time>,
    waiting: seq<Block>,
    stored: set<Digest>,
    arrived: seq<Block>,
    out: seq<Output>)

  const QUIET := Sync({}, map[], [], {}, [], [])

  datatype Event =
    | Suspended(block: Block, now: Time)
    | Stored(digest: Digest)
    | Ready(index: nat)

  function Parent(block: Block): Digest {
    block.qc.hash
  }

  /** A block arrives from the core; one that is already pending is ignored. */
  function TakeIn(s: Sync, block: Block, now: Time): Sync {
    var digest, parent := block.BlockDigest(), Parent(block);
    if digest in s.pending then s
    else
      var s1 := s.(pending := s.pending + {digest}, waiting := s.waiting + [block], arrived := s.arrived + [block]);
      if parent in s.requests then s1
      else s1.(requests := s1.requests[parent := now], out := s1.out + [Request(parent, block.author)])
  }

  /** The notify-read of the waiting block at `index` was answered. */
  function HandBack(s: Sync, index: nat): Sync
    requires index < |s.waiting|
  {
    var block := s.waiting[index];
    s.(pending := s.pending - {block.BlockDigest()},
       requests := s.requests - {Parent(block)},
       waiting := s.waiting[..index] + s.waiting[index + 1..],
       out := s.out + [Resume(block)])
  }

  /** The store answers a notify-read once it holds the key, and not before. */
  function Apply(s: Sync, event: Event): Sync {
    match event
    case Suspended(block, now) => TakeIn(s, block, now)
    case Stored(digest) => s.(stored := s.stored + {digest})
    case Ready(index) =>
      if index < |s.waiting| && Parent(s.waiting[index]) in s.stored then HandBack(s, index) else s
  }

  function ApplyAll(events: seq<Event>): Sync {
    if events == [] then QUIET
    else Apply(ApplyAll(events[..|events| - 1]), events[|events| - 1])
  }

  /** The requests older than the delay, in the order in which they are listed. */
  function Retries(requests: map<Digest, Time>, now: Time, delay: Time, listed: seq<Digest>): seq<Output>
    requires forall d | d in listed :: d in requests
  {
    if listed == [] then []
    else
      var last := listed[|listed| - 1];
      Retries(requests, now, delay, listed[..|listed| - 1])
      + if requests[last] + delay < now then [Retry(last)] else []
  }

  /** Whatever the order of the map, exactly the overdue requests are repeated, each once. */
  lemma {:induction false} RetriesExact(requests: map<Digest, Time>, now: Time, delay: Time, listed: seq<Digest>, d: Digest)
    requires forall x | x in listed :: x in requests
    requires forall i, j | 0 <= i < j < |listed| :: listed[i] != listed[j]
    ensures multiset(Retries(requests, now, delay, listed))[Retry(d)] ==
              if d in listed && requests[d] + delay < now then 1 else 0
    decreases |listed|
  {
    if listed != [] {
      var init, last := listed[..|listed| - 1], listed[|listed| - 1];
      RetriesExact(requests, now, delay, init, d);
      var added := if requests[last] + delay < now then [Retry(last)] else [];
      assert multiset(Retries(requests, now, delay, init) + added) == multiset(Retries(requests, now, delay, init)) + multiset(added);
      assert d in listed <==> d in init || d == last;
      assert d in init ==> d != last;
    }
  }

  class Synchronizer {
    var pending: set<Digest>
    var requests: map<Digest, Time>
    var waiting: seq<Block>
    var out: seq<Output>
    ghost var stored: set<Digest>
    ghost var arrived: seq<Block>

    ghost function State(): Sync
      reads this
    {
      Sync(pending, requests, waiting, stored, arrived, out)
    }

    constructor ()
      ensures State() == QUIET
    {
      pending, requests, waiting, out := {}, map[], [], [];
      stored, arrived := {}, [];
    }

    method OnBlock(block: Block, now: Time)
      modifies this
      ensures State() == TakeIn(old(State()), block, now)
    {
      if block.BlockDigest() !in pending {
        pending := pending + {block.BlockDigest()};
        var parent := block.qc.hash;
        waiting := waiting + [block];
        arrived := arrived + [block];
        if parent !in requests {
          requests := requests[parent := now];
          out := out + [Request(parent, block.author)];
        }
      }
    }

    method OnReady(index: nat)
      requires index < |waiting|
      modifies this
      ensures State() == HandBack(old(State()), index)
    {
      var block := waiting[index];
      waiting := waiting[..index] + waiting[index + 1..];
      pending := pending - {block.BlockDigest()};
      requests := requests - {block.qc.hash};
      out := out + [Resume(block)];
    }

    /** Repeats every request older than the delay; `listed` is the map's iteration order. */
    method OnTimer(now: Time, delay: Time, listed: seq<Digest>)
      requires forall d :: d in listed <==> d in requests
      modifies this`out
      ensures out == old(out) + Retries(requests, now, delay, listed)
    {
      ghost var before := out;
      for i := 0 to |listed|
        invariant requests == old(requests)
        invariant out == before + Retries(requests, now, delay, listed[..i])
      {
        assert listed[..i + 1][..i] == listed[..i];
        if requests[listed[i]] + delay < now {
          out := out + [Retry(listed[i])];
        }
      }
      assert listed[..|listed|] == listed;
    }
  }

  // ---------- suspended until the parent is there ----------

  function CountBlock(blocks: seq<Block>, digest: Digest): nat {
    if blocks == [] then 0
    else CountBlock(blocks[..|blocks| - 1], digest)
         + (if blocks[|blocks| - 1].BlockDigest() == digest then 1 else 0)
  }

  function CountResumed(out: seq<Output>, digest: Digest): nat {
    if out == [] then 0
    else
      var last := out[|out| - 1];
      CountResumed(out[..|out| - 1], digest)
      + (if last.Resume? && last.block.BlockDigest() == digest then 1 else 0)
  }

  function Digests(blocks: seq<Block>): set<Digest> {
    set b | b in blocks :: b.BlockDigest()
  }

  function Parents(blocks: seq<Block>): set<Digest> {
    set b | b in blocks :: Parent(b)
  }

  ghost predicate DistinctDigests(blocks: seq<Block>) {
    forall i, j | 0 <= i < j < |blocks| :: blocks[i].BlockDigest() != blocks[j].BlockDigest()
  }

  ghost predicate ResumedInTime(s: Sync) {
    forall b | Resume(b) in s.out :: Parent(b) in s.stored && b in s.arrived
  }

  ghost predicate CountsMatch(s: Sync) {
    forall d :: CountBlock(s.arrived, d) == CountResumed(s.out, d) + if d in s.pending then 1 else 0
  }

  /** The last word on this parent was a request for it. */
  predicate Open(out: seq<Output>, parent: Digest) {
    out != []
    && match out[|out| - 1]
       case Request(p, _) => p == parent || Open(out[..|out| - 1], parent)
       case Resume(b) => Parent(b) != parent && Open(out[..|out| - 1], parent)
       case Retry(_) => Open(out[..|out| - 1], parent)
  }

  /** The recorded requests are those sent and not yet met; each went to the author of a
      block that waits for it, and none was sent while another for the same parent was open. */
  ghost predicate RequestsOk(s: Sync) {
    && (forall p :: p in s.requests <==> Open(s.out, p))
    && (forall i | 0 <= i < |s.out| && s.out[i].Request? ::
          !Open(s.out[..i], s.out[i].parent) && AskedFor(s.arrived, s.out[i].parent, s.out[i].to))
  }

  ghost predicate AskedFor(arrived: seq<Block>, parent: Digest, author: Key) {
    exists b | b in arrived :: Parent(b) == parent && b.author == author
  }

  /** One waiting block for each pending digest; every missing parent is being asked for,
      and only parents of waiting blocks are; a block comes back once for each time it was
      taken in, and not before its parent is stored. */
  ghost predicate Valid(s: Sync) {
    && s.pending == Digests(s.waiting)
    && DistinctDigests(s.waiting)
    && Parents(s.waiting) - s.stored <= s.requests.Keys <= Parents(s.waiting)
    && (forall b | b in s.waiting :: b in s.arrived)
    && ResumedInTime(s)
    && CountsMatch(s)
    && RequestsOk(s)
  }

  lemma SnocSets(blocks: seq<Block>, block: Block)
    ensures Digests(blocks + [block]) == Digests(blocks) + {block.BlockDigest()}
    ensures Parents(blocks + [block]) == Parents(blocks) + {Parent(block)}
    ensures forall b :: b in blocks + [block] <==> b in blocks || b == block
    ensures forall d :: CountBlock(blocks + [block], d) == CountBlock(blocks, d) + if block.BlockDigest() == d then 1 else 0
  {
    var all := blocks + [block];
    assert all[|blocks|] == block && all[..|all| - 1] == blocks;
    assert forall b :: b in all <==> b in blocks || b == block;
  }

  lemma SnocOutput(out: seq<Output>, o: Output)
    ensures forall d :: CountResumed(out + [o], d) ==
                        CountResumed(out, d) + if o.Resume? && o.block.BlockDigest() == d then 1 else 0
    ensures forall x :: x in out + [o] <==> x in out || x == o
  {
    assert (out + [o])[..|out|] == out;
  }

  lemma SnocDistinct(blocks: seq<Block>, block: Block)
    requires DistinctDigests(blocks) && block.BlockDigest() !in Digests(blocks)
    ensures DistinctDigests(blocks + [block])
  {
    assert forall i | 0 <= i < |blocks| :: blocks[i] in blocks;
  }

  lemma CountsAfterTakeIn(s: Sync, block: Block, now: Time)
    requires CountsMatch(s) && block.BlockDigest() !in s.pending
    ensures CountsMatch(TakeIn(s, block, now))
  {
    var s' := TakeIn(s, block, now);
    SnocSets(s.arrived, block);
    SnocOutput(s.out, Request(Parent(block), block.author));
    forall d ensures CountBlock(s'.arrived, d) == CountResumed(s'.out, d) + if d in s'.pending then 1 else 0 {
      assert CountBlock(s.arrived, d) == CountResumed(s.out, d) + if d in s.pending then 1 else 0;
      assert CountResumed(s'.out, d) == CountResumed(s.out, d);
    }
  }

  lemma OutputSnoc(out: seq<Output>, o: Output)
    ensures (out + [o])[..|out|] == out && forall i | 0 <= i < |out| :: (out + [o])[..i] == out[..i]
  {
  }

  lemma {:induction false} RequestsAfterTakeIn(s: Sync, block: Block, now: Time)
    requires RequestsOk(s) && block.BlockDigest() !in s.pending
    ensures RequestsOk(TakeIn(s, block, now))
  {
    var s', parent := TakeIn(s, block, now), Parent(block);
    OutputSnoc(s.out, Request(parent, block.author));
    assert s'.arrived[|s.arrived|] == block;
    forall i | 0 <= i < |s'.out| && s'.out[i].Request?
      ensures !Open(s'.out[..i], s'.out[i].parent) && AskedFor(s'.arrived, s'.out[i].parent, s'.out[i].to)
    {
      if i < |s.out| {
        assert s'.out[i] == s.out[i] && s'.out[..i] == s.out[..i];
        var b :| b in s.arrived && Parent(b) == s.out[i].parent && b.author == s.out[i].to;
        assert b in s'.arrived;
      } else {
        assert s'.out[..i] == s.out && block in s'.arrived;
      }
    }
    forall p ensures p in s'.requests <==> Open(s'.out, p) {
      assert p in s.requests <==> Open(s.out, p);
    }
  }

  lemma {:induction false} RequestsAfterHandBack(s: Sync, index: nat)
    requires RequestsOk(s) && index < |s.waiting|
    ensures RequestsOk(HandBack(s, index))
  {
    var s' := HandBack(s, index);
    OutputSnoc(s.out, Resume(s.waiting[index]));
    forall p ensures p in s'.requests <==> Open(s'.out, p) {
      assert p in s.requests <==> Open(s.out, p);
    }
    forall i | 0 <= i < |s'.out| && s'.out[i].Request?
      ensures !Open(s'.out[..i], s'.out[i].parent) && AskedFor(s'.arrived, s'.out[i].parent, s'.out[i].to)
    {
      assert s'.out[i] == s.out[i] && s'.out[..i] == s.out[..i];
    }
  }

  lemma TakeInKeeps(s: Sync, block: Block, now: Time)
    requires Valid(s)
    ensures Valid(TakeIn(s, block, now))
  {
    if block.BlockDigest() !in s.pending {
      SnocSets(s.waiting, block);
      SnocDistinct(s.waiting, block);
      CountsAfterTakeIn(s, block, now);
      RequestsAfterTakeIn(s, block, now);
      assert forall b | b in s.arrived :: b in s.arrived + [block];
      assert block in s.arrived + [block];
    }
  }

  /** The waiting blocks without the one at `index`. */
  lemma RemovedSets(blocks: seq<Block>, index: nat)
    requires index < |blocks| && DistinctDigests(blocks)
    ensures var rest := blocks[..index] + blocks[index + 1..];
            && DistinctDigests(rest)
            && Digests(rest) == Digests(blocks) - {blocks[index].BlockDigest()}
            && Parents(blocks) == Parents(rest) + {Parent(blocks[index])}
            && forall b | b in rest :: b in blocks
  {
    var rest := blocks[..index] + blocks[index + 1..];
    assert forall i | 0 <= i < |rest| :: rest[i] == blocks[if i < index then i else i + 1];
    forall b | b in blocks && b != blocks[index] ensures b in rest {
      var i :| 0 <= i < |blocks| && blocks[i] == b;
      assert rest[if i < index then i else i - 1] == b;
    }
    forall b | b in rest ensures b in blocks && b.BlockDigest() != blocks[index].BlockDigest() {
      var i :| 0 <= i < |rest| && rest[i] == b;
      assert blocks[if i < index then i else i + 1] == b;
    }
    assert blocks[index] in blocks;
  }

  lemma HandBackKeeps(s: Sync, index: nat)
    requires Valid(s) && index < |s.waiting| && Parent(s.waiting[index]) in s.stored
    ensures Valid(HandBack(s, index))
  {
    var block := s.waiting[index];
    var s' := HandBack(s, index);
    assert block in s.waiting;
    RemovedSets(s.waiting, index);
    SnocOutput(s.out, Resume(block));
    assert block.BlockDigest() in s.pending;
    RequestsAfterHandBack(s, index);
    assert CountsMatch(s') by {
      assert CountsMatch(s);
    }
  }

  lemma StoredKeeps(s: Sync, stored: set<Digest>)
    requires Valid(s) && s.stored <= stored
    ensures Valid(s.(stored := stored))
  {
    assert CountsMatch(s) && RequestsOk(s);
  }

  lemma {:induction false} AlwaysValid(events: seq<Event>)
    ensures Valid(ApplyAll(events))
    decreases |events|
  {
    if events == [] {
      assert Digests([]) == {} && Parents([]) == {};
    } else {
      var s, event := ApplyAll(events[..|events| - 1]), events[|events| - 1];
      AlwaysValid(events[..|events| - 1]);
      match event
      case Suspended(block, now) => TakeInKeeps(s, block, now);
      case Stored(digest) =>
      case Ready(index) =>
        if index < |s.waiting| && Parent(s.waiting[index]) in s.stored {
          HandBackKeeps(s, index);
        }
    }
  }

  /** A pending block leaves only by being handed back. */
  lemma PendingUntilResumed(events: seq<Event>, event: Event, digest: Digest)
    requires digest in ApplyAll(events).pending && digest !in ApplyAll(events + [event]).pending
    ensures var s, s' := ApplyAll(events), ApplyAll(events + [event]);
            exists b :: b in s.waiting && b.BlockDigest() == digest && Parent(b) in s.stored
                        && s'.out == s.out + [Resume(b)]
  {
    assert (events + [event])[..|events|] == events;
    var s := ApplyAll(events);
    assert event.Ready? && s.waiting[event.index].BlockDigest() == digest;
    assert s.waiting[event.index] in s.waiting;
  }

  /** A parent is on record exactly while a request for it is open; each request went to the
      author of a block that waits for it; and none was sent while another was open. */
  lemma RequestsExact(events: seq<Event>, parent: Digest)
    ensures var s := ApplyAll(events);
            && (parent in s.requests <==> Open(s.out, parent))
            && (forall i | 0 <= i < |s.out| && s.out[i].Request? ::
                  !Open(s.out[..i], s.out[i].parent)
                  && exists b | b in s.arrived :: Parent(b) == s.out[i].parent && b.author == s.out[i].to)
  {
    AlwaysValid(events);
    var s := ApplyAll(events);
    forall i | 0 <= i < |s.out| && s.out[i].Request?
      ensures exists b | b in s.arrived :: Parent(b) == s.out[i].parent && b.author == s.out[i].to
    {
      assert AskedFor(s.arrived, s.out[i].parent, s.out[i].to);
    }
  }

  /** A request is on record with the time it was first sent, and its delay counts from then. */
  lemma RequestTimes(events: seq<Event>, block: Block, now: Time, parent: Digest)
    requires var s := ApplyAll(events); parent in s.requests || (parent == Parent(block) && block.BlockDigest() !in s.pending)
    ensures var (s, s') := (ApplyAll(events), ApplyAll(events + [Suspended(block, now)]));
            parent in s'.requests && s'.requests[parent] == if parent in s.requests then s.requests[parent] else now
  {
    assert (events + [Suspended(block, now)])[..|events|] == events;
  }
}
