/** Runs that can happen: one that delivers any number of blocks, so that the theorems about
    runs are not about nothing, and one for each thing the code does not do. */
module Witness {
  import opened Config
  import opened Messages
  import opened Leader
  import opened Handlers
  import opened Frames
  import opened ReplicaInvariant
  import opened System
  import opened Locking
  import opened Commits
  import opened Alone

  // ---------- committees ----------

  /** One authority, which holds all the stake. */
  function Solo(): (c: Committee)
    ensures c.authorities.Keys == {0} && c.authorities != map[]
  {
    assert 0 in map[0 := 1];
    Committee(map[0 := 1])
  }

  /** Two authorities; the first is a quorum by itself, and the second may be faulty. */
  function Pair(): (c: Committee)
    ensures c.authorities.Keys == {0, 1} && c.authorities != map[]
  {
    assert 0 in map[0 := 3, 1 := 1];
    Committee(map[0 := 3, 1 := 1])
  }

  lemma SoloFacts()
    ensures Setting(Solo(), {0}) && Quorum(Env(0, Solo()))
    ensures forall round :: LeaderOf(Solo(), round) == 0
  {
    var c := Solo();
    WeightRemove(c, {0}, 0);
    assert c.authorities.Keys - {0} == {};
    assert {0} - {0} == c.authorities.Keys - {0};
    forall round ensures LeaderOf(c, round) == 0 {
      assert LeaderOf(c, round) in c.authorities;
    }
  }

  lemma PairStakes()
    ensures var c := Pair();
            c.Weight({0}) == 3 && c.Weight({1}) == 1 && c.Weight({}) == 0 && c.TotalStake() == 4
  {
    var c := Pair();
    WeightRemove(c, {0}, 0);
    WeightRemove(c, {1}, 1);
    WeightRemove(c, {0, 1}, 0);
    assert {0} - {0} == {} && {1} - {1} == {} && {0, 1} - {0} == {1};
  }

  lemma PairFacts()
    ensures Setting(Pair(), {0}) && Setting(Pair(), {0, 1}) && Quorum(Env(0, Pair()))
    ensures Pair().StakeOf(1) == 1
    ensures forall round: Round :: LeaderOf(Pair(), round) == if round % 2 == 0 then 0 else 1
  {
    PairStakes();
    assert {0, 1} - {0} == {1} && {0, 1} - {0, 1} == {};
    assert Pair().authorities.Keys == {0, 1};
    forall round: Round ensures LeaderOf(Pair(), round) == if round % 2 == 0 then 0 else 1 {
      PairLeader(round);
    }
  }

  lemma PairLeader(round: Round)
    ensures LeaderOf(Pair(), round) == if round % 2 == 0 then 0 else 1
  {
    SortedKeysExact({0, 1});
    assert NameSet([0, 1]) == {0, 1};
    SortedIsUnique(SortedKeys({0, 1}), [0, 1]);
  }

  // ---------- reachable states ----------

  // ---------- authority 0, honest and a quorum ----------

  /** Authority 0 is the only honest one, and can get into this state. */
  ghost predicate Gets(c: Committee, r: Replica)
    requires c.authorities != map[]
  {
    Reachable(c, {0}, map[0 := r])
  }

  lemma RunTo(c: Committee, r: Replica) returns (run: seq<System>)
    requires c.authorities != map[] && Gets(c, r)
    ensures IsRun(c, {0}, run) && run[|run| - 1] == map[0 := r]
  {
    run :| IsRun(c, {0}, run) && run[|run| - 1] == map[0 := r];
  }

  lemma {:induction false} Does(c: Committee, r: Replica, event: Event, r': Replica)
    requires c.authorities != map[] && Gets(c, r) && EventHeld(PoolOf(map[0 := r]), r, event)
    requires r' == React(Env(0, c), r, event).replica
    ensures Gets(c, r') && r.out <= r'.out
  {
    assert map[0 := r][0 := r'] == map[0 := r'];
    Moves(c, {0}, map[0 := r], 0, event, r');
    ReactFrame(Env(0, c), r, event);
  }

  lemma Boots(c: Committee) returns (r: Replica)
    requires c.authorities != map[]
    ensures Gets(c, r) && Ready(Env(0, c), r)
    ensures ViewOf(r) == View(1, 0, 0, GENESIS_QC, map[], Asks(Env(0, c), 1, GENESIS_QC, None), 0, [])
  {
    r := Boot(Env(0, c));
    Starts(c, {0}, map[0 := r]);
    ProposeView(Env(0, c), STARTED, None);
  }

  /** The oldest request is served. */
  lemma {:induction false} Serves(c: Committee, r: Replica, n: nat, qc: QC, tc: Option<TC>) returns (r': Replica, b: Block)
    requires c.authorities != map[] && Gets(c, r) && Ready(Env(0, c), r)
    requires var v := ViewOf(r); v.served < |v.makes| && v.makes[v.served] == Make(n, qc, tc)
    ensures b == NewBlock(qc, tc, 0, n, []) && MayLoopBack(r', b)
    ensures Gets(c, r') && Ready(Env(0, c), r') && r.out <= r'.out
    ensures ViewOf(r') == ViewOf(r).(served := ViewOf(r).served + 1)
  {
    r', b := AfterServing(Env(0, c), r, n, qc, tc);
    Does(c, r, ProposerRuns([]), r');
  }

  /** The alarm goes off. */
  lemma {:induction false} Alarm(c: Committee, r: Replica) returns (r': Replica)
    requires c.authorities != map[] && Gets(c, r) && Ready(Env(0, c), r) && Quorum(Env(0, c))
    ensures Gets(c, r') && Ready(Env(0, c), r') && r.out <= r'.out
    ensures ViewOf(r') == TimedOut(Env(0, c), ViewOf(r))
  {
    r' := AfterTimeout(Env(0, c), r);
    Does(c, r, TimerFires, r');
  }

  /** A block the replica may vote for, with its two ancestors, whose commit finds all
      parents. */
  ghost predicate Votable(v: View, b0: Block, b1: Block, b: Block) {
    && b.round == v.round && RuleOne(b, v.voted) && RuleTwo(b.qc, b.tc, b.round)
    && (b.tc.Some? ==> b.tc.value.votes != [])
    && Linked(v, b0, b1, b)
  }

  ghost predicate Linked(v: View, b0: Block, b1: Block, b: Block) {
    && ParentOf(v.blocks, b) == Some(b1) && ParentOf(v.blocks, b1) == Some(b0)
    && (b0.round + 1 == b1.round ==> Walk(v.blocks[b.BlockDigest() := b], v.committed, b0).1 == None)
  }

  lemma {:induction false} Votes(env: Env, r: Replica, b0: Block, b1: Block, b: Block) returns (r': Replica)
    requires Quorum(env) && Ready(env, r) && Votable(ViewOf(r), b0, b1, b)
    ensures r' == ProcessBlock(env, r, b).replica && Ready(env, r') && SignVote(b) in r'.out
    ensures ViewOf(r') == VotedFor(env, StoredIn(ViewOf(r), b0, b1, b), b)
  {
    var stored := AfterStore(env, r, b0, b1, b);
    ProcessBlockIs(env, r, b0, b1, b, stored);
    r' := AfterVote(env, stored, b);
  }

  /** The replica's own block comes back. */
  lemma {:induction false} Own(c: Committee, r: Replica, b0: Block, b1: Block, b: Block) returns (r': Replica)
    requires c.authorities != map[] && Gets(c, r) && Ready(Env(0, c), r) && Quorum(Env(0, c))
    requires MayLoopBack(r, b) && Votable(ViewOf(r), b0, b1, b)
    ensures Gets(c, r') && Ready(Env(0, c), r') && r.out <= r'.out && SignVote(b) in r'.out
    ensures ViewOf(r') == VotedFor(Env(0, c), StoredIn(ViewOf(r), b0, b1, b), b)
  {
    r' := Votes(Env(0, c), r, b0, b1, b);
    Does(c, r, Loopback(b), r');
  }

  /** The requests not served. */
  function Queue(v: View): seq<Effect> {
    if v.served <= |v.makes| then v.makes[v.served..] else []
  }

  /** One block is asked for, of the current round, in which no vote was given. */
  predicate Asking(v: View, n: nat, qc: QC, tc: Option<TC>) {
    v.round == n && v.voted < n && v.qc == qc && v.served < |v.makes| && Queue(v) == [Make(n, qc, tc)]
  }

  ghost predicate Is(c: Committee, r: Replica, v: View)
    requires c.authorities != map[]
  {
    Gets(c, r) && Ready(Env(0, c), r) && ViewOf(r) == v
  }

  // ---------- one authority ----------

  function Me(): Env {
    Env(0, Solo())
  }

  function MyTc(n: nat, qc: QC): TC {
    OwnTc(Me(), n, qc)
  }

  /** After the request was served, and the block came back and was voted for. */
  function OwnView(v: View, b0: Block, b1: Block, b: Block): View {
    VotedFor(Me(), StoredIn(v.(served := v.served + 1), b0, b1, b), b)
  }

  lemma OwnViewAsks(v: View, n: nat, qc: QC, tc: Option<TC>, b0: Block, b1: Block, b: Block)
    requires Asking(v, n, qc, tc) && b.round == n
    ensures var v', stored := OwnView(v, b0, b1, b), StoredIn(v, b0, b1, b);
            && Asking(v', n + 1, OwnQc(Me(), b), None) && v'.blocks == stored.blocks
            && v'.committed == stored.committed && v'.delivered == stored.delivered
  {
    SoloFacts();
    assert v.makes[v.served] == Queue(v)[0] && |v.makes| == v.served + 1;
  }

  lemma {:induction false} OwnRound(r: Replica, v: View, n: nat, qc: QC, tc: Option<TC>, b0: Block, b1: Block)
    returns (r': Replica, b: Block)
    requires Is(Solo(), r, v) && Asking(v, n, qc, tc) && RuleTwo(qc, tc, n) && (tc.Some? ==> tc.value.votes != [])
    requires Linked(v, b0, b1, NewBlock(qc, tc, 0, n, []))
    ensures b == NewBlock(qc, tc, 0, n, []) && Is(Solo(), r', OwnView(v, b0, b1, b))
  {
    SoloFacts();
    assert v.makes[v.served] == Queue(v)[0];
    var r1: Replica;
    r1, b := Serves(Solo(), r, n, qc, tc);
    r' := Own(Solo(), r1, b0, b1, b);
  }

  /** After the alarm, and the request served too late. */
  function LostView(v: View): View {
    var v' := TimedOut(Me(), v);
    v'.(served := v.served + 1)
  }

  lemma LostViewAsks(v: View, n: nat, qc: QC)
    requires Asking(v, n, qc, None)
    ensures Asking(LostView(v), n + 1, qc, Some(MyTc(n, qc)))
  {
    SoloFacts();
    assert v.makes[v.served] == Queue(v)[0] && |v.makes| == v.served + 1;
  }

  lemma {:induction false} LostRound(r: Replica, v: View, n: nat, qc: QC) returns (r': Replica)
    requires Is(Solo(), r, v) && Asking(v, n, qc, None)
    ensures Is(Solo(), r', LostView(v))
  {
    SoloFacts();
    assert v.makes[v.served] == Queue(v)[0];
    var r1 := Alarm(Solo(), r);
    assert ViewOf(r1).makes[v.served] == v.makes[v.served];
    var b: Block;
    r', b := Serves(Solo(), r1, n, qc, None);
  }

  lemma SoloBoots() returns (r: Replica, v: View)
    ensures Is(Solo(), r, v) && Asking(v, 1, GENESIS_QC, None)
    ensures v.committed == 0 && v.blocks == map[] && v.delivered == []
  {
    SoloFacts();
    r := Boots(Solo());
    v := ViewOf(r);
  }

  // ---------- any number of blocks ----------

  /** After `n` rounds: the block of round n is stored, and its ancestors below it; all but
      the last two are delivered, oldest first. */
  ghost predicate Chained(v: View, n: nat) {
    && v.committed == (if n >= 2 then n - 2 else 0)
    && |v.delivered| == v.committed
    && (forall i | 0 <= i < |v.delivered| :: RoundOf(v.delivered[i]) == i + 1)
    && (n == 0 ==> v.qc == GENESIS_QC)
    && (n > 0 ==> v.qc.hash in v.blocks && v.blocks[v.qc.hash].round == n
                  && v.qc.round == n && OnChain(v.blocks, v.blocks[v.qc.hash]))
  }

  predicate OnChain(blocks: BlockStore, b: Block) {
    && (b.round == 1 ==> b.qc == GENESIS_QC)
    && (b.round > 1 ==> b.qc.round == b.round - 1
                        && b.qc.hash in blocks && blocks[b.qc.hash].round == b.round - 1)
  }

  lemma {:induction false} ChainGrows(v: View, n: nat) returns (b0: Block, b1: Block)
    requires Asking(v, n + 1, v.qc, None) && Chained(v, n)
    ensures var b := NewBlock(v.qc, None, 0, n + 1, []);
            Linked(v, b0, b1, b) && Chained(OwnView(v, b0, b1, b), n + 1)
  {
    var b := NewBlock(v.qc, None, 0, n + 1, []);
    b1 := ParentOf(v.blocks, b).value;
    b0 := ParentOf(v.blocks, b1).value;
    assert Walk(v.blocks[b.BlockDigest() := b], v.committed, b0) == ([], None);
    OwnViewAsks(v, n + 1, v.qc, None, b0, b1, b);
    if n >= 2 {
      assert Ids([] + [b0]) == [b0.BlockDigest()];
    }
  }

  lemma {:induction false} NextView(v: View, n: nat) returns (b0: Block, b1: Block, v': View)
    requires Asking(v, n + 1, v.qc, None) && Chained(v, n)
    ensures RuleTwo(v.qc, None, n + 1) && Asking(v', n + 2, v'.qc, None) && Chained(v', n + 1)
    ensures var b := NewBlock(v.qc, None, 0, n + 1, []);
            Linked(v, b0, b1, b) && v' == OwnView(v, b0, b1, b)
  {
    var b := NewBlock(v.qc, None, 0, n + 1, []);
    b0, b1 := ChainGrows(v, n);
    v' := OwnView(v, b0, b1, b);
    OwnViewAsks(v, n + 1, v.qc, None, b0, b1, b);
  }

  lemma {:induction false} NextRound(r: Replica, v: View, n: nat) returns (r': Replica, v': View)
    requires Is(Solo(), r, v) && Asking(v, n + 1, v.qc, None) && Chained(v, n)
    ensures Is(Solo(), r', v') && Asking(v', n + 2, v'.qc, None) && Chained(v', n + 1)
  {
    var b0, b1, next := NextView(v, n);
    var b: Block;
    r', b := OwnRound(r, v, n + 1, v.qc, None, b0, b1);
    v' := next;
  }

  lemma {:induction false} Rounds(n: nat) returns (r: Replica, v: View)
    ensures Is(Solo(), r, v) && Asking(v, n + 1, v.qc, None) && Chained(v, n)
  {
    r, v := SoloBoots();
    for i := 0 to n
      invariant Is(Solo(), r, v) && Asking(v, i + 1, v.qc, None) && Chained(v, i)
    {
      r, v := NextRound(r, v, i);
    }
  }

  /** For every n there is a run that goes through n rounds and delivers the blocks of the
      first n - 2, each once and in order. */
  lemma {:induction false} SoloRun(n: nat) returns (run: seq<System>)
    ensures Setting(Solo(), {0}) && IsRun(Solo(), {0}, run)
    ensures var s := run[|run| - 1]; 0 in s && s[0].round == n + 1 && Chained(ViewOf(s[0]), n)
  {
    SoloFacts();
    var r, v := Rounds(n);
    run := RunTo(Solo(), r);
  }

  // ---------- the wrong order ----------

  lemma {:induction false} FirstRound() returns (r: Replica, v: View, b1: Block)
    ensures Is(Solo(), r, v) && Asking(v, 2, OwnQc(Me(), b1), None)
    ensures b1.round == 1 && b1.qc == GENESIS_QC
    ensures v.blocks == map[b1.BlockDigest() := b1] && v.committed == 0 && v.delivered == []
  {
    var r0, v0 := SoloBoots();
    r, b1 := OwnRound(r0, v0, 1, GENESIS_QC, None, GENESIS, GENESIS);
    OwnViewAsks(v0, 1, GENESIS_QC, None, GENESIS, GENESIS, b1);
    v := OwnView(v0, GENESIS, GENESIS, b1);
  }

  lemma {:induction false} OddRounds() returns (r: Replica, v: View, b1: Block, b3: Block)
    ensures Is(Solo(), r, v) && Asking(v, 4, OwnQc(Me(), b3), None)
    ensures b1.round == 1 && b1.qc == GENESIS_QC && b3.round == 3 && b3.qc == OwnQc(Me(), b1)
    ensures v.blocks == map[b1.BlockDigest() := b1, b3.BlockDigest() := b3]
    ensures v.committed == 0 && v.delivered == []
  {
    var r1, r2: Replica, v1: View;
    r1, v1, b1 := FirstRound();
    var qc := OwnQc(Me(), b1);
    r2 := LostRound(r1, v1, 2, qc);
    LostViewAsks(v1, 2, qc);
    r, b3 := OwnRound(r2, LostView(v1), 3, qc, Some(MyTc(2, qc)), GENESIS, b1);
    OwnViewAsks(LostView(v1), 3, qc, Some(MyTc(2, qc)), GENESIS, b1, b3);
    v := OwnView(LostView(v1), GENESIS, b1, b3);
  }

  lemma {:induction false} FifthRound(b1: Block, b3: Block, r: Replica, v: View) returns (r': Replica, v': View, b5: Block)
    requires Is(Solo(), r, v) && Asking(v, 4, OwnQc(Me(), b3), None) && v.committed == 0 && v.delivered == []
    requires b1.round == 1 && b1.qc == GENESIS_QC && b3.round == 3 && b3.qc == OwnQc(Me(), b1)
    requires v.blocks == map[b1.BlockDigest() := b1, b3.BlockDigest() := b3]
    ensures Is(Solo(), r', v') && Asking(v', 6, OwnQc(Me(), b5), None) && v'.committed == 0 && v'.delivered == []
    ensures b5.round == 5 && b5.qc == OwnQc(Me(), b3)
    ensures v'.blocks == v.blocks[b5.BlockDigest() := b5]
  {
    var qc, v1 := OwnQc(Me(), b3), LostView(v);
    var r1 := LostRound(r, v, 4, qc);
    LostViewAsks(v, 4, qc);
    r', b5 := OwnRound(r1, v1, 5, qc, Some(MyTc(4, qc)), b1, b3);
    OwnViewAsks(v1, 5, qc, Some(MyTc(4, qc)), b1, b3, b5);
    v' := OwnView(v1, b1, b3, b5);
  }

  lemma {:induction false} SixthRound(b1: Block, b3: Block, b5: Block, r: Replica, v: View) returns (r': Replica, v': View, b6: Block)
    requires Is(Solo(), r, v) && Asking(v, 6, OwnQc(Me(), b5), None) && v.committed == 0 && v.delivered == []
    requires b5.round == 5 && b3.round == 3 && b5.qc == OwnQc(Me(), b3)
    requires b3.BlockDigest() in v.blocks && v.blocks[b3.BlockDigest()] == b3
    requires b5.BlockDigest() in v.blocks && v.blocks[b5.BlockDigest()] == b5
    ensures Is(Solo(), r', v') && Asking(v', 7, OwnQc(Me(), b6), None) && v'.committed == 0 && v'.delivered == []
    ensures b6.round == 6 && b6.qc == OwnQc(Me(), b5) && v'.blocks == v.blocks[b6.BlockDigest() := b6]
  {
    var qc := OwnQc(Me(), b5);
    r', b6 := OwnRound(r, v, 6, qc, None, b3, b5);
    OwnViewAsks(v, 6, qc, None, b3, b5, b6);
    v' := OwnView(v, b3, b5, b6);
  }

  lemma {:induction false} LastRound(b1: Block, b3: Block, b5: Block, b6: Block, r: Replica, v: View) returns (r': Replica)
    requires Is(Solo(), r, v) && Asking(v, 7, OwnQc(Me(), b6), None) && v.committed == 0 && v.delivered == []
    requires b1.round == 1 && b3.round == 3 && b5.round == 5 && b6.round == 6 && b6.qc == OwnQc(Me(), b5)
    requires b6.BlockDigest() in v.blocks && v.blocks[b6.BlockDigest()] == b6 && ParentOf(v.blocks, b6) == Some(b5)
    requires ParentOf(v.blocks, b5) == Some(b3) && ParentOf(v.blocks, b3) == Some(b1)
    ensures Gets(Solo(), r') && Deliveries(r'.out) == [b3.BlockDigest(), b1.BlockDigest(), b5.BlockDigest()]
  {
    var qc := OwnQc(Me(), b6);
    var b7 := NewBlock(qc, None, 0, 7, []);
    CommitsThree(b1, b3, b5, b6, b7, v);
    r', b7 := OwnRound(r, v, 7, qc, None, b5, b6);
    OwnViewAsks(v, 7, qc, None, b5, b6, b7);
  }

  lemma {:induction false} CommitsThree(b1: Block, b3: Block, b5: Block, b6: Block, b7: Block, v: View)
    requires v.committed == 0 && v.delivered == []
    requires b1.round == 1 && b3.round == 3 && b5.round == 5 && b6.round == 6 && b7.round == 7
    requires b7.qc == OwnQc(Me(), b6) && b6.qc == OwnQc(Me(), b5)
    requires b6.BlockDigest() in v.blocks && v.blocks[b6.BlockDigest()] == b6 && ParentOf(v.blocks, b6) == Some(b5)
    requires ParentOf(v.blocks, b5) == Some(b3) && ParentOf(v.blocks, b3) == Some(b1)
    ensures Linked(v, b5, b6, b7)
    ensures StoredIn(v, b5, b6, b7).delivered == [b3.BlockDigest(), b1.BlockDigest(), b5.BlockDigest()]
  {
    WalkDown(v.blocks, b1, b3, b5, b7);
    assert Ids([b3, b1] + [b5]) == [b3.BlockDigest(), b1.BlockDigest(), b5.BlockDigest()];
  }

  /** What the commit walk finds from block 5 down. */
  lemma {:induction false} WalkDown(blocks: BlockStore, b1: Block, b3: Block, b5: Block, b7: Block)
    requires b1.round == 1 && b3.round == 3 && b5.round == 5 && b7.round == 7
    requires ParentOf(blocks, b5) == Some(b3) && ParentOf(blocks, b3) == Some(b1)
    ensures Walk(blocks[b7.BlockDigest() := b7], 0, b5) == ([b3, b1], None)
  {
    var all := blocks[b7.BlockDigest() := b7];
    assert ParentOf(all, b5) == Some(b3) && ParentOf(all, b3) == Some(b1);
    assert Walk(all, 0, b1) == ([], None);
    assert [b1] + [] == [b1];
    assert Walk(all, 0, b3) == ([b1], None);
    assert [b3] + [b1] == [b3, b1];
  }

  /** The only replica loses rounds 2 and 4, so that blocks 1, 3 and 5 are on one chain
      without a commit. The block of round 7 then commits that of round 5, and the three
      are delivered as 3, 1, 5: the oldest is not the first. */
  lemma {:induction false} NewestAncestorFirst() returns (run: seq<System>, b1: Block, b3: Block, b5: Block)
    ensures Setting(Solo(), {0}) && IsRun(Solo(), {0}, run)
    ensures b1.round == 1 && b3.round == 3 && b5.round == 5
    ensures b5.BlockDigest().parent == b3.BlockDigest() && b3.BlockDigest().parent == b1.BlockDigest()
    ensures var s := run[|run| - 1];
            0 in s && Deliveries(s[0].out) == [b3.BlockDigest(), b1.BlockDigest(), b5.BlockDigest()]
  {
    SoloFacts();
    var r: Replica, v: View, b6: Block;
    r, v, b1, b3 := OddRounds();
    r, v, b5 := FifthRound(b1, b3, r, v);
    r, v, b6 := SixthRound(b1, b3, b5, r, v);
    r := LastRound(b1, b3, b5, b6, r, v);
    run := RunTo(Solo(), r);
  }
}
