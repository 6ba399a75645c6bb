/** What reaches the application: which blocks, how often, and in which order. */
module Commits {
  import opened Config
  import opened Messages
  import opened Handlers
  import opened Frames
  import opened ReplicaInvariant
  import opened System
  import opened Locking

  /** A block's place on a chain: its digest, or `Zero` for the genesis block, to which
      the genesis QC refers by the zero digest. */
  function IdOf(b: Block): Digest {
    if b == GENESIS then Zero else b.BlockDigest()
  }

  function Ids(blocks: seq<Block>): (ids: seq<Digest>)
    ensures |ids| == |blocks|
    ensures forall i | 0 <= i < |blocks| :: ids[i] == IdOf(blocks[i])
  {
    seq(|blocks|, i requires 0 <= i < |blocks| => IdOf(blocks[i]))
  }

  /** The ids of the blocks a replica sent to the application, in the order it did. */
  function Deliveries(out: seq<Effect>): seq<Digest> {
    if out == [] then []
    else
      var last := out[|out| - 1];
      Deliveries(out[..|out| - 1]) + if last.Commit? then [IdOf(last.block)] else []
  }

  function Delivered(out: seq<Effect>): set<Digest> {
    set id | id in Deliveries(out)
  }

  lemma {:induction false} DeliveriesConcat(out: seq<Effect>, more: seq<Effect>)
    ensures Deliveries(out + more) == Deliveries(out) + Deliveries(more)
    decreases |more|
  {
    if more == [] {
      assert out + more == out;
    } else {
      var init := more[..|more| - 1];
      DeliveriesConcat(out, init);
      assert (out + more)[..|out + more| - 1] == out + init;
    }
  }

  lemma {:induction false} NothingDelivered(out: seq<Effect>)
    requires forall e | e in out :: !e.Commit?
    ensures Deliveries(out) == []
    decreases |out|
  {
    if out != [] {
      assert forall e | e in out[..|out| - 1] :: e in out;
      assert out[|out| - 1] in out;
      NothingDelivered(out[..|out| - 1]);
    }
  }

  lemma {:induction false} DeliveriesOf(blocks: seq<Block>)
    ensures Deliveries(CommitEffects(blocks)) == Ids(blocks)
    decreases |blocks|
  {
    if blocks != [] {
      var init := blocks[..|blocks| - 1];
      assert blocks == init + [blocks[|blocks| - 1]];
      DeliveriesOf(init);
      assert CommitEffects(blocks)[..|blocks| - 1] == CommitEffects(init);
      assert Ids(blocks) == Ids(init) + [IdOf(blocks[|blocks| - 1])];
    }
  }

  lemma {:induction false} CommittedIsDelivered(out: seq<Effect>, b: Block)
    requires Commit(b) in out
    ensures IdOf(b) in Delivered(out)
    decreases |out|
  {
    var init := out[..|out| - 1];
    if Commit(b) in init {
      CommittedIsDelivered(init, b);
    } else {
      assert out[|out| - 1] == Commit(b);
      assert Deliveries(out)[|Deliveries(init)|] == IdOf(b);
    }
  }

  /** A block, its parent, and so on down to genesis. */
  function Ancestors(id: Digest): set<Digest> {
    {id} + if id.OfBlock? then Ancestors(id.parent) else {}
  }

  lemma {:induction false} AncestorsExact(id: Digest, ancestor: Digest)
    ensures ancestor in Ancestors(id) <==> Extends(id, ancestor)
    decreases id
  {
    if id.OfBlock? {
      AncestorsExact(id.parent, ancestor);
    }
  }

  // ---------- steps that commit nothing ----------

  predicate Quiet(r: Replica, r': Replica) {
    r'.lastCommittedRound == r.lastCommittedRound && Deliveries(r'.out) == Deliveries(r.out)
  }

  lemma FrameQuiet(r: Replica, r': Replica, allowed: set<Effect>)
    requires Frame(r, r', allowed) && forall e | e in allowed :: !e.Commit?
    ensures Quiet(r, r')
  {
    assert r'.out == r.out + Added(r, r');
    NothingDelivered(Added(r, r'));
    DeliveriesConcat(r.out, Added(r, r'));
  }

  lemma SendQuiet(r: Replica, e: Effect)
    requires !e.Commit?
    ensures Quiet(r, r.Send(e))
  {
    SendFrame(r, e, {e});
    FrameQuiet(r, r.Send(e), {e});
  }

  // ---------- chains of digests ----------

  /** Rounds fall along the chain, down to genesis. */
  predicate Falling(id: Digest) {
    if id.OfBlock? then RoundOf(id.parent) < id.round && Falling(id.parent) else id == Zero
  }

  lemma {:induction false} CertifiedFalls(c: Committee, s: System, id: Digest)
    requires Good(c, s) && (id == Zero || Certified(c, s, id))
    ensures Falling(id)
    decreases id
  {
    if id != Zero {
      ParentOfCertified(c, s, id);
      CertifiedFalls(c, s, id.parent);
    }
  }

  lemma {:induction false} FallingBelow(id: Digest, ancestor: Digest)
    requires Falling(id) && Extends(id, ancestor)
    ensures Falling(ancestor)
    ensures id != ancestor ==> RoundOf(ancestor) < RoundOf(id)
    decreases id
  {
    if id != ancestor {
      FallingBelow(id.parent, ancestor);
    }
  }

  lemma {:induction false} AncestorsWithin(id: Digest, ancestor: Digest)
    requires Extends(id, ancestor)
    ensures Ancestors(ancestor) <= Ancestors(id)
    decreases id
  {
    if id != ancestor {
      AncestorsWithin(id.parent, ancestor);
    }
  }

  /** `x` is a child of `head` of the very next round. */
  predicate FollowsAtOnce(x: Digest, head: Digest) {
    x.OfBlock? && x.parent == head && x.round == RoundOf(head) + 1
  }

  /** The chain down from `id` holds a child of `head` of the very next round. */
  ghost predicate HasNext(id: Digest, head: Digest) {
    exists x :: x in Ancestors(id) && FollowsAtOnce(x, head)
  }

  lemma NextAtOnce(id: Digest, head: Digest)
    requires FollowsAtOnce(id, head)
    ensures HasNext(id, head)
  {
    assert id in Ancestors(id);
  }

  lemma HasNextBelow(id: Digest, head: Digest)
    requires id.OfBlock? && id.parent != head
    ensures HasNext(id, head) <==> HasNext(id.parent, head)
  {
    assert Ancestors(id) == {id} + Ancestors(id.parent);
  }

  lemma NothingBelowFollows(id: Digest, head: Digest)
    requires id.OfBlock? && id.parent == head && id.round > RoundOf(head) + 1
    ensures !HasNext(id, head)
  {
    forall x | x in Ancestors(id) ensures !FollowsAtOnce(x, head) {
      if x != id {
        AncestorsExact(head, x);
        NoCycle(head, x);
      }
    }
  }

  function Height(id: Digest): nat {
    if id.OfBlock? then 1 + Height(id.parent) else 0
  }

  lemma {:induction false} ExtendsIsHigher(id: Digest, ancestor: Digest)
    requires Extends(id, ancestor)
    ensures Height(ancestor) <= Height(id)
    decreases id
  {
    if id != ancestor {
      ExtendsIsHigher(id.parent, ancestor);
    }
  }

  lemma NoCycle(id: Digest, x: Digest)
    requires Extends(id, x)
    ensures !(x.OfBlock? && x.parent == id)
  {
    ExtendsIsHigher(id, x);
  }

  // ---------- what one commit delivers ----------

  /** The ancestors the commit walk collects, nearest first: down to the first one no later
      than the round after `last`. */
  function Climb(id: Digest, last: Round): seq<Digest> {
    if RoundOf(id) <= last + 1 then [] else [id.parent] + Climb(id.parent, last)
  }

  /** What the commit of `id` delivers when `head` was committed before. */
  function Segment(head: Digest, id: Digest): seq<Digest> {
    Climb(id, RoundOf(head)) + [id]
  }

  /** How often a commit of `id` after `head` delivers `x`. */
  ghost function Times(head: Digest, id: Digest, x: Digest): nat {
    (if x in Ancestors(id) && x !in Ancestors(head) then 1 else 0) + (if x == head && !HasNext(id, head) then 1 else 0)
  }

  /** One commit delivers every block above the last committed one once, nothing below it,
      and that one itself exactly when no block of the very next round follows it. */
  lemma {:induction false} SegmentCounts(head: Digest, id: Digest, x: Digest)
    requires Falling(id) && Extends(id, head) && RoundOf(head) < RoundOf(id)
    ensures multiset(Segment(head, id))[x] == Times(head, id, x)
    decreases id
  {
    var parent, last := id.parent, RoundOf(head);
    IdAboveParent(id, head);
    if RoundOf(parent) > last {
      SegmentCounts(head, parent, x);
      OneMore(head, id, x);
    } else {
      if parent != head {
        FallingBelow(parent, head);
      }
      ChildCounts(head, id, x);
    }
  }

  lemma {:induction false} OneMore(head: Digest, id: Digest, x: Digest)
    requires id.OfBlock? && RoundOf(id.parent) > RoundOf(head) && id.round > RoundOf(head) + 1
    requires id !in Ancestors(id.parent) && id !in Ancestors(head)
    requires multiset(Segment(head, id.parent))[x] == Times(head, id.parent, x)
    ensures multiset(Segment(head, id))[x] == Times(head, id, x)
  {
    var ids := Climb(id.parent, RoundOf(head));
    HasNextBelow(id, head);
    assert Segment(head, id) == [id.parent] + ids + [id];
    assert multiset(Segment(head, id)) == multiset(ids + [id.parent]) + multiset{id};
  }

  lemma CountsOfTwo(head: Digest, id: Digest, x: Digest)
    requires head != id
    ensures multiset([id])[x] == if x == id then 1 else 0
    ensures multiset([head, id])[x] == if x == id || x == head then 1 else 0
  {
    assert multiset([head, id]) == multiset{head, id};
  }

  lemma {:induction false} SegmentOfChild(head: Digest, id: Digest)
    requires id.OfBlock? && id.parent == head && RoundOf(head) < id.round
    ensures HasNext(id, head) <==> id.round == RoundOf(head) + 1
    ensures Segment(head, id) == if HasNext(id, head) then [id] else [head, id]
  {
    if id.round <= RoundOf(head) + 1 {
      NextAtOnce(id, head);
    } else {
      NothingBelowFollows(id, head);
      assert Climb(head, RoundOf(head)) == [];
    }
  }

  lemma {:induction false} ChildCounts(head: Digest, id: Digest, x: Digest)
    requires id.OfBlock? && id.parent == head && RoundOf(head) < id.round && id !in Ancestors(head)
    ensures multiset(Segment(head, id))[x] == Times(head, id, x)
  {
    AncestorsExact(head, head);
    SegmentOfChild(head, id);
    CountsOfTwo(head, id, x);
    assert x in Ancestors(id) <==> x == id || x in Ancestors(head);
  }

  lemma IdAboveParent(id: Digest, head: Digest)
    requires Falling(id) && Extends(id, head) && id != head
    ensures id.OfBlock? && Extends(id.parent, head)
    ensures id !in Ancestors(id.parent) && id !in Ancestors(head)
  {
    AncestorsExact(id.parent, id);
    if Extends(id.parent, id) {
      FallingBelow(id.parent, id);
    }
    AncestorsWithin(id.parent, head);
  }

  // ---------- what all commits deliver ----------

  function Last(heads: seq<Digest>): Digest
    requires heads != []
  {
    heads[|heads| - 1]
  }

  /** The deliveries of a replica that committed the heads one after the other. */
  function Script(heads: seq<Digest>): seq<Digest> {
    if |heads| <= 1 then []
    else Script(heads[..|heads| - 1]) + Segment(heads[|heads| - 2], heads[|heads| - 1])
  }

  /** The heads climb one chain, from genesis on. */
  ghost predicate Climbs(heads: seq<Digest>) {
    && heads != [] && heads[0] == Zero
    && forall i, j | 0 <= i < j < |heads| :: Extends(heads[j], heads[i]) && RoundOf(heads[i]) < RoundOf(heads[j])
  }

  /** The head was followed by a gap of rounds when the next one was committed. */
  ghost predicate GapAfter(heads: seq<Digest>, id: Digest) {
    exists i :: 0 <= i < |heads| - 1 && heads[i] == id && !HasNext(heads[i + 1], id)
  }

  lemma {:induction false} ClimbOn(heads: seq<Digest>, id: Digest)
    requires Climbs(heads) && Extends(id, Last(heads)) && RoundOf(Last(heads)) < RoundOf(id)
    ensures Climbs(heads + [id])
    ensures Script(heads + [id]) == Script(heads) + Segment(Last(heads), id)
  {
    var all := heads + [id];
    assert all[..|heads|] == heads;
    forall i | 0 <= i < |heads| ensures Extends(id, heads[i]) && RoundOf(heads[i]) < RoundOf(id) {
      ExtendsTransitive(id, Last(heads), heads[i]);
    }
  }

  lemma {:induction false} GapAfterOn(heads: seq<Digest>, id: Digest, x: Digest)
    requires Climbs(heads + [id]) && heads != []
    ensures GapAfter(heads + [id], x) <==> GapAfter(heads, x) || (x == Last(heads) && !HasNext(id, x))
    ensures !(GapAfter(heads, x) && x == Last(heads))
  {
    var all := heads + [id];
    if GapAfter(heads, x) {
      var i :| 0 <= i < |heads| - 1 && heads[i] == x && !HasNext(heads[i + 1], x);
      assert all[i] == x && all[i + 1] == heads[i + 1];
      assert all[|heads| - 1] == Last(heads);
    }
    if x == Last(heads) && !HasNext(id, x) {
      assert all[|heads| - 1] == x && all[|heads|] == id;
    }
  }

  /** How often each block is delivered: the chain below the last head once, genesis aside,
      and once more a head that was followed by a gap. For genesis that is the first time. */
  lemma {:induction false} ScriptCounts(heads: seq<Digest>, x: Digest)
    requires Climbs(heads) && Falling(Last(heads))
    ensures multiset(Script(heads))[x] ==
              (if x in Ancestors(Last(heads)) && x != Zero then 1 else 0) + (if GapAfter(heads, x) then 1 else 0)
    decreases |heads|
  {
    if |heads| > 1 {
      var init, id := heads[..|heads| - 1], Last(heads);
      assert heads == init + [id] && Last(init) == heads[|heads| - 2];
      FallingBelow(id, Last(init));
      ScriptCounts(init, x);
      ScriptStep(init, id, x);
    }
  }

  lemma {:induction false} ScriptStep(heads: seq<Digest>, id: Digest, x: Digest)
    requires heads != [] && Climbs(heads + [id]) && Falling(id)
    requires Extends(id, Last(heads)) && RoundOf(Last(heads)) < RoundOf(id)
    requires Script(heads + [id]) == Script(heads) + Segment(Last(heads), id)
    requires multiset(Script(heads))[x] ==
               (if x in Ancestors(Last(heads)) && x != Zero then 1 else 0) + (if GapAfter(heads, x) then 1 else 0)
    ensures multiset(Script(heads + [id]))[x] ==
              (if x in Ancestors(id) && x != Zero then 1 else 0) + (if GapAfter(heads + [id], x) then 1 else 0)
  {
    SegmentCounts(Last(heads), id, x);
    GapAfterOn(heads, id, x);
    AncestorsWithin(id, Last(heads));
    GenesisBelow(heads + [id], |heads| - 1);
  }

  lemma GenesisBelow(heads: seq<Digest>, i: nat)
    requires Climbs(heads) && i < |heads|
    ensures Zero in Ancestors(heads[i])
  {
    assert i > 0 ==> Extends(heads[i], heads[0]);
    AncestorsExact(heads[i], Zero);
  }

  /** No commit delivers anything older than the head committed before it. */
  lemma NothingOlderAgain(heads: seq<Digest>, n: nat, x: Digest)
    requires Climbs(heads) && Falling(Last(heads)) && n < |heads| - 1
    requires x in Segment(heads[n], heads[n + 1])
    ensures x == heads[n] || x !in Ancestors(heads[n])
  {
    if n + 1 < |heads| - 1 {
      FallingBelow(Last(heads), heads[n + 1]);
    }
    SegmentCounts(heads[n], heads[n + 1], x);
    assert x in multiset(Segment(heads[n], heads[n + 1]));
  }

  /** What a replica has delivered is exactly what committing the heads in turn delivers. */
  ghost predicate DeliveredUpTo(c: Committee, s: System, r: Replica, heads: seq<Digest>) {
    && Climbs(heads)
    && (Last(heads) == Zero || TwoChain(c, s, Last(heads)))
    && RoundOf(Last(heads)) == r.lastCommittedRound
    && Deliveries(r.out) == Script(heads)
  }

  ghost predicate HasHeads(c: Committee, s: System, r: Replica) {
    exists heads :: DeliveredUpTo(c, s, r, heads)
  }

  ghost predicate CommitInv(c: Committee, s: System) {
    forall k | k in s :: HasHeads(c, s, s[k])
  }

  /** Genesis aside, the delivered blocks are exactly the chain below the last head. */
  lemma {:induction false} DeliveredExact(c: Committee, s: System, r: Replica, heads: seq<Digest>)
    requires Good(c, s) && DeliveredUpTo(c, s, r, heads)
    ensures Falling(Last(heads))
    ensures Delivered(r.out) + {Zero} == Ancestors(Last(heads))
  {
    CertifiedFalls(c, s, Last(heads));
    GenesisBelow(heads, |heads| - 1);
    forall x ensures x in Delivered(r.out) + {Zero} <==> x in Ancestors(Last(heads)) {
      InScript(heads, x);
    }
  }

  lemma {:induction false} InScript(heads: seq<Digest>, x: Digest)
    requires Climbs(heads) && Falling(Last(heads))
    ensures x in Script(heads) || x == Zero <==> x in Ancestors(Last(heads)) || x == Zero
  {
    ScriptCounts(heads, x);
    assert x in Script(heads) <==> x in multiset(Script(heads));
    if GapAfter(heads, x) {
      var i :| 0 <= i < |heads| - 1 && heads[i] == x;
      AncestorsExact(Last(heads), x);
    }
  }

  // ---------- the commit walk ----------

  /** What the walk collects, exactly: each entry is the parent of the one before, and the
      walk stops at the first entry no later than the round after the last commit. */
  lemma {:induction false} WalkExact(blocks: BlockStore, last: Round, block: Block)
    requires Walk(blocks, last, block).1.None?
    ensures var found := Walk(blocks, last, block).0;
            && (found == [] <==> block.round <= last + 1)
            && (forall i | 0 <= i < |found| ::
                  ParentOf(blocks, if i == 0 then block else found[i - 1]) == Some(found[i]))
            && (forall i | 0 <= i < |found| :: found[i].round <= last + 1 <==> i == |found| - 1)
    decreases block != GENESIS, block.BlockDigest()
  {
    if last + 1 < block.round {
      var parent := ParentOf(blocks, block).value;
      WalkExact(blocks, last, parent);
      var rest := Walk(blocks, last, parent).0;
      var found := [parent] + rest;
      assert forall i | 0 < i < |found| :: found[i] == rest[i - 1];
    }
  }

  /** The setting of a commit: the last committed block `head` lies below `block`. */
  ghost predicate CommitSetting(c: Committee, s: System, high: Round, blocks: BlockStore, head: Digest, block: Block) {
    && Good(c, s)
    && StoreInv(c, PoolOf(s), high, blocks)
    && ParentOf(blocks, block).Some? && QcHeld(c, PoolOf(s), block.qc)
    && Certified(c, s, block.BlockDigest())
    && (head == Zero || Certified(c, s, head))
    && Extends(block.BlockDigest(), head)
    && block.round > RoundOf(head)
  }

  lemma ParentAboveHead(c: Committee, s: System, high: Round, blocks: BlockStore, head: Digest, block: Block)
    requires CommitSetting(c, s, high, blocks, head, block)
    ensures var parent := ParentOf(blocks, block).value;
            && IdOf(parent) == block.qc.hash
            && parent.round == RoundOf(block.qc.hash)
            && (parent.round > RoundOf(head) ==> CommitSetting(c, s, high, blocks, head, parent))
            && (parent.round <= RoundOf(head) ==> block.qc.hash == head)
    ensures ParentOf(blocks, block).value != GENESIS ==>
              ParentOf(blocks, block).value.BlockDigest() == block.qc.hash
  {
    var id := block.BlockDigest();
    var parent := ParentOf(blocks, block).value;
    ParentCertificate(c, s, block.qc);
    if !block.qc.IsGenesis() {
      var k, b := HonestVoter(c, s, block.qc.hash);
      assert parent.BlockDigest() == block.qc.hash;
    }
    assert Extends(id.parent, head);
    if parent.round <= RoundOf(head) && id.parent != head {
      AncestorsOlder(c, s, id.parent, head);
    }
  }

  /** The walk misses no parent, and collects exactly the ancestors down to the last
      committed block. */
  lemma {:induction false} WalkClimbs(c: Committee, s: System, high: Round, blocks: BlockStore, head: Digest, block: Block)
    requires CommitSetting(c, s, high, blocks, head, block)
    ensures Walk(blocks, RoundOf(head), block).1.None?
    ensures Ids(Walk(blocks, RoundOf(head), block).0) == Climb(block.BlockDigest(), RoundOf(head))
    decreases block.BlockDigest()
  {
    var last := RoundOf(head);
    if block.round > last + 1 {
      var parent := ParentOf(blocks, block).value;
      ParentAboveHead(c, s, high, blocks, head, block);
      if parent.round > last {
        WalkClimbs(c, s, high, blocks, head, parent);
      }
      ClimbStep(blocks, last, block, parent);
    }
  }

  lemma {:induction false} ClimbStep(blocks: BlockStore, last: Round, block: Block, parent: Block)
    requires block.round > last + 1 && ParentOf(blocks, block) == Some(parent)
    requires IdOf(parent) == block.qc.hash && parent.round == RoundOf(block.qc.hash)
    requires parent.round > last ==>
               && Walk(blocks, last, parent).1.None?
               && Ids(Walk(blocks, last, parent).0) == Climb(block.qc.hash, last)
    ensures Walk(blocks, last, block).1.None?
    ensures Ids(Walk(blocks, last, block).0) == Climb(block.BlockDigest(), last)
  {
    var found := Walk(blocks, last, parent).0;
    assert parent.round <= last ==> found == [] && Climb(block.qc.hash, last) == [];
    assert Ids([parent] + found) == [IdOf(parent)] + Ids(found);
    assert Walk(blocks, last, block) == ([parent] + found, None);
  }

  lemma SettingFalls(c: Committee, s: System, high: Round, blocks: BlockStore, head: Digest, block: Block)
    requires CommitSetting(c, s, high, blocks, head, block)
    ensures Falling(block.BlockDigest())
  {
    CertifiedFalls(c, s, block.BlockDigest());
  }

  /** The walk stops at the last committed block: what it found, the block it started from
      and what was delivered before make up the whole chain. */
  lemma {:induction false} WalkCovers(c: Committee, s: System, high: Round, blocks: BlockStore, head: Digest, block: Block)
    requires CommitSetting(c, s, high, blocks, head, block)
    ensures Walk(blocks, RoundOf(head), block).1.None?
    ensures var found := set id | id in Ids(Walk(blocks, RoundOf(head), block).0);
            found + {block.BlockDigest()} + Ancestors(head) == Ancestors(block.BlockDigest())
  {
    var id := block.BlockDigest();
    WalkClimbs(c, s, high, blocks, head, block);
    SettingFalls(c, s, high, blocks, head, block);
    forall x ensures x in Climb(id, RoundOf(head)) || x == id || x in Ancestors(head) <==> x in Ancestors(id) {
      InSegment(head, id, x);
    }
  }

  lemma {:induction false} InSegment(head: Digest, id: Digest, x: Digest)
    requires Falling(id) && Extends(id, head) && RoundOf(head) < RoundOf(id)
    ensures x in Climb(id, RoundOf(head)) || x == id || x in Ancestors(head) <==> x in Ancestors(id)
  {
    SegmentCounts(head, id, x);
    AncestorsWithin(id, head);
    AncestorsExact(head, head);
    assert x in multiset(Segment(head, id)) <==> x in Climb(id, RoundOf(head)) || x == id;
  }

  /** The already committed head is delivered once more exactly when no block of the very
      next round follows it on the chain. Genesis was never delivered as a head: for it
      this is the first time. */
  lemma GapResends(c: Committee, s: System, high: Round, blocks: BlockStore, head: Digest, block: Block)
    requires CommitSetting(c, s, high, blocks, head, block)
    ensures head in Ids(Walk(blocks, RoundOf(head), block).0) <==> !HasNext(block.BlockDigest(), head)
  {
    var id := block.BlockDigest();
    WalkClimbs(c, s, high, blocks, head, block);
    SettingFalls(c, s, high, blocks, head, block);
    SegmentCounts(head, id, head);
    AncestorsExact(head, head);
    assert head in multiset(Segment(head, id)) <==> head in Climb(id, RoundOf(head));
  }

  // ---------- the order of delivery ----------

  /** Every block is delivered right after its parent. */
  predicate OldestFirst(blocks: BlockStore, delivered: seq<Block>) {
    forall i | 0 <= i < |delivered| - 1 :: ParentOf(blocks, delivered[i + 1]) == Some(delivered[i])
  }

  /** One call delivers its blocks oldest first exactly when the walk goes back no
      further than the parent of the head. Otherwise the ancestors come newest first. */
  lemma OrderOfDelivery(r: Replica, block: Block)
    requires block.round > r.lastCommittedRound
    requires Walk(r.blocks, r.lastCommittedRound, block).1.None?
    ensures var found := Walk(r.blocks, r.lastCommittedRound, block).0;
            && CommitBlock(r, block).replica.out == r.out + CommitEffects(found + [block])
            && (OldestFirst(r.blocks, found + [block]) <==>
                || block.round <= r.lastCommittedRound + 1
                || ParentOf(r.blocks, block).value.round <= r.lastCommittedRound + 1)
  {
    var blocks, last := r.blocks, r.lastCommittedRound;
    var found := Walk(blocks, last, block).0;
    WalkExact(blocks, last, block);
    var delivered := found + [block];
    if |found| <= 1 {
      assert |delivered| == 2 ==> delivered[0] == found[0] && delivered[1] == block;
    } else {
      assert found[0].round > last + 1;
      assert ParentOf(blocks, found[0]) == Some(found[1]);
      if ParentOf(blocks, found[1]) == Some(found[0]) {
        NotEachOthersParent(blocks, found[0], found[1]);
      }
      assert delivered[0] == found[0] && delivered[1] == found[1];
    }
  }

  lemma NotEachOthersParent(blocks: BlockStore, child: Block, parent: Block)
    requires child != GENESIS && ParentOf(blocks, child) == Some(parent)
    ensures ParentOf(blocks, parent) != Some(child)
  {
  }

  // ---------- a step that commits ----------

  lemma {:induction false} CommitBlockDelivers(c: Committee, s: System, r: Replica, heads: seq<Digest>, block: Block)
    requires DeliveredUpTo(c, s, r, heads) && block.round > r.lastCommittedRound
    requires CommitSetting(c, s, r.highQc.round, r.blocks, Last(heads), block)
    requires TwoChain(c, s, block.BlockDigest())
    ensures DeliveredUpTo(c, s, CommitBlock(r, block).replica, heads + [block.BlockDigest()])
  {
    WalkClimbs(c, s, r.highQc.round, r.blocks, Last(heads), block);
    CommitDelivers(r, block);
    ClimbOn(heads, block.BlockDigest());
  }

  lemma {:induction false} CommitDelivers(r: Replica, block: Block)
    requires block.round > r.lastCommittedRound && Walk(r.blocks, r.lastCommittedRound, block).1.None?
    ensures var r' := CommitBlock(r, block).replica;
            && r'.lastCommittedRound == block.round
            && Deliveries(r'.out) == Deliveries(r.out) + (Ids(Walk(r.blocks, r.lastCommittedRound, block).0) + [block.BlockDigest()])
  {
    var found := Walk(r.blocks, r.lastCommittedRound, block).0;
    DeliveriesConcat(r.out, CommitEffects(found + [block]));
    DeliveriesOf(found + [block]);
    IdsSnoc(found, block);
    assert block != GENESIS;
  }

  lemma {:induction false} IdsSnoc(found: seq<Block>, block: Block)
    ensures Ids(found + [block]) == Ids(found) + [IdOf(block)]
  {
    assert forall i | 0 <= i < |found| :: (found + [block])[i] == found[i];
  }

  /** The commit rule applied to a held block: the head it commits is that of a 2-chain
      above everything delivered so far. */
  lemma {:induction false} CommitRuleKeeps(c: Committee, s: System, r: Replica, b0: Block, b1: Block, block: Block, heads: seq<Digest>)
    returns (heads': seq<Digest>)
    requires Good(c, s) && ReplicaInv(c, PoolOf(s), r)
    requires BlockHeld(c, PoolOf(s), block) && ParentOf(r.blocks, block) == Some(b1)
    requires ParentOf(r.blocks, b1) == Some(b0) && ParentOf(r.blocks, b0).Some?
    requires DeliveredUpTo(c, s, r, heads)
    ensures DeliveredUpTo(c, s, CommitIfConsecutive(r, b0, b1).replica, heads')
    ensures heads <= heads'
    ensures r.lastCommittedRound <= CommitIfConsecutive(r, b0, b1).replica.lastCommittedRound
  {
    heads' := heads;
    if b0.round + 1 == b1.round {
      SendQuiet(r, CleanupMempool(b0.round));
      if b0.round > r.lastCommittedRound {
        var id0 := HeadAbove(c, s, r, b0, b1, block, heads);
        CommitHeadDelivers(c, s, r, b0, heads);
        heads' := heads + [id0];
      }
    }
  }

  lemma HeadAbove(c: Committee, s: System, r: Replica, b0: Block, b1: Block, block: Block, heads: seq<Digest>)
    returns (id0: Digest)
    requires Good(c, s) && ReplicaInv(c, PoolOf(s), r) && DeliveredUpTo(c, s, r, heads)
    requires BlockHeld(c, PoolOf(s), block) && ParentOf(r.blocks, block) == Some(b1)
    requires ParentOf(r.blocks, b1) == Some(b0)
    requires b0.round + 1 == b1.round && b0.round > r.lastCommittedRound
    ensures id0 == b0.BlockDigest() && TwoChain(c, s, id0) && QcHeld(c, PoolOf(s), b0.qc) && Extends(id0, Last(heads))
  {
    id0 := CommittedHead(c, s, r, b0, b1, block);
    HeadsComparable(c, s, Last(heads), id0);
  }

  lemma CommitHeadDelivers(c: Committee, s: System, r: Replica, b0: Block, heads: seq<Digest>)
    requires Good(c, s) && ReplicaInv(c, PoolOf(s), r) && DeliveredUpTo(c, s, r, heads)
    requires ParentOf(r.blocks, b0).Some? && QcHeld(c, PoolOf(s), b0.qc)
    requires TwoChain(c, s, b0.BlockDigest()) && Extends(b0.BlockDigest(), Last(heads))
    requires b0.round > r.lastCommittedRound
    ensures DeliveredUpTo(c, s, CommitBlock(r.Send(CleanupMempool(b0.round)), b0).replica, heads + [b0.BlockDigest()])
  {
    var cleanup := CleanupMempool(b0.round);
    SendQuiet(r, cleanup);
    CommitBlockDelivers(c, s, r.Send(cleanup), heads, b0);
  }

  lemma CommittedHead(c: Committee, s: System, r: Replica, b0: Block, b1: Block, block: Block) returns (id0: Digest)
    requires Good(c, s) && ReplicaInv(c, PoolOf(s), r)
    requires BlockHeld(c, PoolOf(s), block) && ParentOf(r.blocks, block) == Some(b1)
    requires ParentOf(r.blocks, b1) == Some(b0)
    requires b0.round + 1 == b1.round && b0.round > 0
    ensures id0 == b0.BlockDigest() && TwoChain(c, s, id0) && QcHeld(c, PoolOf(s), b0.qc)
  {
    var id1 := b1.BlockDigest();
    id0 := b0.BlockDigest();
    assert CertifiedBy(c, s, id1, block.qc);
    assert CertifiedBy(c, s, id0, b1.qc);
    assert IsNextChild(c, s, id0, id1);
  }
}
