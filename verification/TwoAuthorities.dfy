/** Runs of a committee of two, the first of which is a quorum by itself: a block delivered
    twice, a timeout counted in a round already left, a request nobody will vote for. */
module TwoAuthorities {
  import opened Config
  import opened Messages
  import opened Handlers
  import opened Frames
  import opened ReplicaInvariant
  import opened System
  import opened Commits
  import opened Proposing
  import opened PastRounds
  import opened Alone
  import opened Witness

  function Zeroth(): Env {
    Env(0, Pair())
  }

  /** A block of authority 1 without payload. */
  function Theirs(n: nat, qc: QC): Block {
    NewBlock(qc, None, 1, n, [])
  }

  // ---------- what authority 0 hears from authority 1 ----------

  lemma OwnQcHeld(r: Replica, b: Block)
    requires SignVote(b) in r.out
    ensures VotesHeld(PoolOf(map[0 := r]), OwnQc(Zeroth(), b).votes)
  {
    OwnSignaturesInPool(map[0 := r], 0);
    assert SignedDigest(SignVote(b)) == Some(OfVote(b.BlockDigest(), b.round));
  }

  /** Authority 1 leads the odd rounds, and can build on every block authority 0 voted for. */
  lemma TheirsAdmitted(r: Replica, n: nat, qc: QC, b: Block)
    requires n % 2 == 1
    requires qc == GENESIS_QC || (SignVote(b) in r.out && qc == OwnQc(Zeroth(), b))
    ensures Admitted(Zeroth(), Theirs(n, qc)) && BlockSignaturesHeld(PoolOf(map[0 := r]), Theirs(n, qc))
  {
    PairFacts();
    if qc != GENESIS_QC {
      OwnQcPasses(Zeroth(), b);
      OwnQcHeld(r, b);
    }
  }

  lemma {:induction false} Hears(r: Replica, b: Block) returns (r1: Replica, r': Replica)
    requires Gets(Pair(), r) && Ready(Zeroth(), r)
    requires Admitted(Zeroth(), b) && b.payload == [] && b.tc == None && BlockSignaturesHeld(PoolOf(map[0 := r]), b)
    ensures Ready(Zeroth(), r1) && r1.out == r.out && ViewOf(r1) == Caught(ViewOf(r), b.qc)
    ensures r' == ProcessBlock(Zeroth(), r1, b).replica && Gets(Pair(), r') && r.out <= r'.out
  {
    r1 := AfterProposal(Zeroth(), r, b);
    r' := ProcessBlock(Zeroth(), r1, b).replica;
    Does(Pair(), r, ReceiveProposal(b), r');
  }

  /** A proposal of the round it leads to is voted for. */
  lemma {:induction false} HearsAndVotes(r: Replica, b0: Block, b1: Block, b: Block) returns (r': Replica)
    requires Gets(Pair(), r) && Ready(Zeroth(), r)
    requires Admitted(Zeroth(), b) && b.payload == [] && b.tc == None && BlockSignaturesHeld(PoolOf(map[0 := r]), b)
    requires Votable(Caught(ViewOf(r), b.qc), b0, b1, b)
    ensures Is(Pair(), r', VotedFor(Zeroth(), StoredIn(Caught(ViewOf(r), b.qc), b0, b1, b), b))
    ensures r.out <= r'.out
  {
    PairFacts();
    var r1: Replica;
    r1, r' := Hears(r, b);
    var r2 := Votes(Zeroth(), r1, b0, b1, b);
  }

  /** A proposal of another round is only stored, though it may commit. */
  lemma {:induction false} HearsLate(r: Replica, b0: Block, b1: Block, b: Block) returns (r': Replica)
    requires Gets(Pair(), r) && Ready(Zeroth(), r)
    requires Admitted(Zeroth(), b) && b.payload == [] && b.tc == None && BlockSignaturesHeld(PoolOf(map[0 := r]), b)
    requires Linked(Caught(ViewOf(r), b.qc), b0, b1, b) && b.round != Caught(ViewOf(r), b.qc).round
    ensures Is(Pair(), r', StoredIn(Caught(ViewOf(r), b.qc), b0, b1, b))
    ensures r.out <= r'.out
  {
    var r1: Replica;
    r1, r' := Hears(r, b);
    var stored := AfterStore(Zeroth(), r1, b0, b1, b);
    ProcessBlockIs(Zeroth(), r1, b0, b1, b, stored);
  }

  /** The replica serves its request and votes for its own block. */
  lemma {:induction false} MakesAndVotes(r: Replica, n: nat, qc: QC, tc: Option<TC>, b0: Block, b1: Block)
    returns (r': Replica, b: Block)
    requires Gets(Pair(), r) && Ready(Zeroth(), r)
    requires var v := ViewOf(r); v.served < |v.makes| && v.makes[v.served] == Make(n, qc, tc)
    requires Votable(ViewOf(r), b0, b1, NewBlock(qc, tc, 0, n, []))
    ensures b == NewBlock(qc, tc, 0, n, []) && SignVote(b) in r'.out && r.out <= r'.out
    ensures var v := ViewOf(r);
            Is(Pair(), r', VotedFor(Zeroth(), StoredIn(v.(served := v.served + 1), b0, b1, b), b))
  {
    PairFacts();
    var r1: Replica;
    r1, b := Serves(Pair(), r, n, qc, tc);
    r' := Own(Pair(), r1, b0, b1, b);
  }

  // ---------- the first two rounds ----------

  function Q(b: Block): QC {
    OwnQc(Zeroth(), b)
  }

  predicate Holds(v: View, b: Block) {
    b.BlockDigest() in v.blocks && v.blocks[b.BlockDigest()] == b
  }

  /** Block 1 is certified. */
  predicate AfterOne(v: View, b1: Block) {
    && b1 == Theirs(1, GENESIS_QC) && Holds(v, b1)
    && v.round == 2 && v.voted == 1 && v.qc == Q(b1) && v.committed == 0 && v.delivered == []
    && v.served == 0 && v.makes == [Make(2, Q(b1), None)]
  }

  lemma {:induction false} FirstView(v: View, b1: Block) returns (v': View)
    requires b1 == Theirs(1, GENESIS_QC)
    requires v == View(1, 0, 0, GENESIS_QC, map[], [], 0, [])
    ensures Votable(Caught(v, GENESIS_QC), GENESIS, GENESIS, b1)
    ensures v' == VotedFor(Zeroth(), StoredIn(Caught(v, GENESIS_QC), GENESIS, GENESIS, b1), b1) && AfterOne(v', b1)
  {
    PairFacts();
    v' := VotedFor(Zeroth(), StoredIn(Caught(v, GENESIS_QC), GENESIS, GENESIS, b1), b1);
  }

  lemma {:induction false} FirstVote() returns (r: Replica, v: View, b1: Block)
    ensures Is(Pair(), r, v) && AfterOne(v, b1)
  {
    PairFacts();
    var r0 := Boots(Pair());
    b1 := Theirs(1, GENESIS_QC);
    TheirsAdmitted(r0, 1, GENESIS_QC, GENESIS);
    v := FirstView(ViewOf(r0), b1);
    r := HearsAndVotes(r0, GENESIS, GENESIS, b1);
  }

  /** Block 2 is voted for: its certificate is up to authority 1. */
  predicate AfterTwo(v: View, b1: Block, b2: Block) {
    && b1.round == 1 && b1.qc == GENESIS_QC && Holds(v, b1)
    && b2.round == 2 && b2.qc == Q(b1) && Holds(v, b2)
    && v.round == 2 && v.voted == 2 && v.qc == Q(b1) && v.committed == 0 && v.delivered == []
    && |v.makes| == v.served == 1
  }

  lemma {:induction false} SecondView(v: View, b1: Block, b2: Block) returns (v': View)
    requires AfterOne(v, b1) && b2 == NewBlock(Q(b1), None, 0, 2, [])
    ensures Votable(v, GENESIS, b1, b2)
    ensures v' == VotedFor(Zeroth(), StoredIn(v.(served := 1), GENESIS, b1, b2), b2) && AfterTwo(v', b1, b2)
  {
    PairFacts();
    v' := VotedFor(Zeroth(), StoredIn(v.(served := 1), GENESIS, b1, b2), b2);
  }

  lemma {:induction false} TwoRounds() returns (r: Replica, v: View, b1: Block, b2: Block)
    ensures Is(Pair(), r, v) && AfterTwo(v, b1, b2) && SignVote(b2) in r.out
  {
    var r1: Replica, v1: View;
    r1, v1, b1 := FirstVote();
    b2 := NewBlock(Q(b1), None, 0, 2, []);
    v := SecondView(v1, b1, b2);
    r, b2 := MakesAndVotes(r1, 2, Q(b1), None, GENESIS, b1);
  }

  // ---------- a timeout counted in a round already left ----------

  lemma {:induction false} Overtakes(r: Replica, v: View, b1: Block, b2: Block) returns (timeout: Timeout)
    requires Is(Pair(), r, v) && AfterTwo(v, b1, b2) && SignVote(b2) in r.out
    ensures EventHeld(PoolOf(map[0 := r]), r, ReceiveTimeout(timeout)) && Overtaken(Zeroth(), r, timeout)
    ensures NoPastTimeouts(r) && !NoPastTimeouts(HandleTimeout(Zeroth(), r, timeout).replica)
  {
    PairFacts();
    timeout := NewTimeout(Q(b2), 2, 1);
    OwnQcPasses(Zeroth(), b2);
    OwnQcHeld(r, b2);
    assert timeout.Check(Pair()).Pass?;
    HandleTimeoutForgets(Zeroth(), r, timeout);
  }

  /** Authority 1 gathers the certificate of block 2 and, without proposing on it, times
      out in round 2. Authority 0, still in round 2, moves to round 3 on the certificate
      inside the timeout and then counts the timeout for round 2. */
  lemma {:induction false} PastTimeoutCounted() returns (run: seq<System>, r: Replica, timeout: Timeout)
    ensures Setting(Pair(), {0}) && IsRun(Pair(), {0}, run) && run[|run| - 1] == map[0 := r]
    ensures EventHeld(PoolOf(map[0 := r]), r, ReceiveTimeout(timeout)) && Overtaken(Zeroth(), r, timeout)
    ensures NoPastTimeouts(r) && !NoPastTimeouts(HandleTimeout(Zeroth(), r, timeout).replica)
  {
    var v: View, b1: Block, b2: Block;
    r, v, b1, b2 := TwoRounds();
    timeout := Overtakes(r, v, b1, b2);
    run := RunTo(Pair(), r);
    ZerothHonest();
  }

  lemma ZerothHonest()
    ensures Setting(Pair(), {0})
  {
    PairFacts();
  }

  // ---------- a block delivered twice ----------

  /** Authority 0 has lost rounds 2 and 3, and built block 4 on block 1. */
  predicate AfterFour(v: View, b1: Block, b2: Block, b4: Block) {
    && b1.round == 1 && b1.qc == GENESIS_QC && Holds(v, b1)
    && b2.round == 2 && b2.qc == Q(b1) && Holds(v, b2)
    && b4.round == 4 && b4.qc == Q(b1) && Holds(v, b4)
    && v.round == 4 && v.voted == 4 && v.qc == Q(b1) && v.committed == 0 && v.delivered == []
    && |v.makes| == v.served == 2
  }

  lemma {:induction false} FourthView(v: View, b1: Block, b2: Block, b4: Block) returns (v2: View, v': View)
    requires AfterTwo(v, b1, b2)
    requires b4 == NewBlock(Q(b1), Some(OwnTc(Zeroth(), 3, Q(b1))), 0, 4, [])
    ensures v2 == TimedOut(Zeroth(), TimedOut(Zeroth(), v))
    ensures v2.served == 1 && |v2.makes| == 2 && v2.makes[1] == Make(4, Q(b1), b4.tc) && Votable(v2, GENESIS, b1, b4)
    ensures v' == VotedFor(Zeroth(), StoredIn(v2.(served := 2), GENESIS, b1, b4), b4) && AfterFour(v', b1, b2, b4)
  {
    PairFacts();
    v2 := TimedOut(Zeroth(), TimedOut(Zeroth(), v));
    v' := VotedFor(Zeroth(), StoredIn(v2.(served := 2), GENESIS, b1, b4), b4);
  }

  lemma {:induction false} FourRounds() returns (r: Replica, v: View, b1: Block, b2: Block, b4: Block)
    ensures Is(Pair(), r, v) && AfterFour(v, b1, b2, b4) && SignVote(b2) in r.out && SignVote(b4) in r.out
  {
    PairQuorum();
    var v1, v2: View;
    r, v1, b1, b2 := TwoRounds();
    var tc := Some(OwnTc(Zeroth(), 3, Q(b1)));
    b4 := NewBlock(Q(b1), tc, 0, 4, []);
    v2, v := FourthView(v1, b1, b2, b4);
    r := Alarm(Pair(), r);
    r := Alarm(Pair(), r);
    r, b4 := MakesAndVotes(r, 4, Q(b1), tc, GENESIS, b1);
  }

  lemma PairQuorum()
    ensures Quorum(Zeroth())
  {
    PairFacts();
  }

  /** Block 3 arrives late. With it block 1 has a certified child of the next round, and is
      committed. */
  predicate AfterThree(v: View, b1: Block, b4: Block) {
    && b1.round == 1 && b1.qc == GENESIS_QC && Holds(v, b1)
    && b4.round == 4 && b4.qc == Q(b1) && Holds(v, b4)
    && v.round == 4 && v.voted == 4 && v.qc.round == 2 && v.committed == 1 && v.delivered == [b1.BlockDigest()]
    && |v.makes| == v.served == 2
  }

  lemma {:induction false} ThirdView(v: View, b1: Block, b2: Block, b4: Block, b3: Block) returns (v': View)
    requires AfterFour(v, b1, b2, b4) && b3.round == 3 && b3.qc == Q(b2)
    ensures Linked(Caught(v, b3.qc), b1, b2, b3) && Caught(v, b3.qc).round == 4
    ensures v' == StoredIn(Caught(v, b3.qc), b1, b2, b3) && AfterThree(v', b1, b4)
  {
    var blocks := v.blocks[b3.BlockDigest() := b3];
    assert ParentOf(v.blocks, b3) == Some(b2) && ParentOf(v.blocks, b2) == Some(b1);
    assert Walk(blocks, 0, b1) == ([], None);
    assert Ids([] + [b1]) == [b1.BlockDigest()];
    v' := StoredIn(Caught(v, b3.qc), b1, b2, b3);
  }

  lemma {:induction false} BlockOne() returns (r: Replica, v: View, b1: Block, b4: Block)
    ensures Is(Pair(), r, v) && AfterThree(v, b1, b4) && SignVote(b4) in r.out
  {
    var r4: Replica, v4: View, b2: Block;
    r4, v4, b1, b2, b4 := FourRounds();
    var b3 := Theirs(3, Q(b2));
    TheirsAdmitted(r4, 3, Q(b2), b2);
    v := ThirdView(v4, b1, b2, b4, b3);
    r := HearsLate(r4, b1, b2, b3);
  }

  predicate AfterFive(v: View, b1: Block, b4: Block, b5: Block) {
    && b1.round == 1 && b1.qc == GENESIS_QC && Holds(v, b1)
    && b4.round == 4 && b4.qc == Q(b1) && Holds(v, b4)
    && b5.round == 5 && b5.qc == Q(b4) && Holds(v, b5)
    && v.round == 6 && v.voted == 5 && v.qc == Q(b5) && v.committed == 1 && v.delivered == [b1.BlockDigest()]
    && v.served == 2 && |v.makes| == 3 && v.makes[2] == Make(6, Q(b5), None)
  }

  lemma {:induction false} FifthView(v: View, b1: Block, b4: Block, b5: Block) returns (v': View)
    requires AfterThree(v, b1, b4) && b5 == Theirs(5, Q(b4))
    ensures Votable(Caught(v, b5.qc), b1, b4, b5)
    ensures v' == VotedFor(Zeroth(), StoredIn(Caught(v, b5.qc), b1, b4, b5), b5) && AfterFive(v', b1, b4, b5)
  {
    PairFacts();
    assert ParentOf(v.blocks, b5) == Some(b4) && ParentOf(v.blocks, b4) == Some(b1);
    v' := VotedFor(Zeroth(), StoredIn(Caught(v, b5.qc), b1, b4, b5), b5);
  }

  lemma {:induction false} BlockFive() returns (r: Replica, v: View, b1: Block, b4: Block, b5: Block)
    ensures Is(Pair(), r, v) && AfterFive(v, b1, b4, b5)
  {
    var r3: Replica, v3: View;
    r3, v3, b1, b4 := BlockOne();
    b5 := Theirs(5, Q(b4));
    TheirsAdmitted(r3, 5, Q(b4), b4);
    v := FifthView(v3, b1, b4, b5);
    r := HearsAndVotes(r3, b1, b4, b5);
  }

  lemma {:induction false} WalkFromFour(blocks: BlockStore, b1: Block, b4: Block)
    requires ParentOf(blocks, b4) == Some(b1) && b1.round == 1 && b4.round == 4
    ensures Walk(blocks, 1, b4) == ([b1], None)
  {
    assert Walk(blocks, 1, b1) == ([], None);
    assert [b1] + [] == [b1];
  }

  lemma {:induction false} SixthView(v: View, b1: Block, b4: Block, b5: Block, b6: Block)
    requires AfterFive(v, b1, b4, b5) && b6 == NewBlock(Q(b5), None, 0, 6, [])
    ensures Votable(v, b4, b5, b6)
    ensures StoredIn(v, b4, b5, b6).delivered == [b1.BlockDigest(), b1.BlockDigest(), b4.BlockDigest()]
  {
    var blocks := v.blocks[b6.BlockDigest() := b6];
    assert ParentOf(v.blocks, b6) == Some(b5) && ParentOf(v.blocks, b5) == Some(b4);
    assert ParentOf(blocks, b4) == Some(b1);
    WalkFromFour(blocks, b1, b4);
    assert Ids([b1] + [b4]) == [b1.BlockDigest(), b4.BlockDigest()];
  }

  /** Block 1 is committed after block 4 was already built on it in place of its certified
      child: no block of round 2 lies between them. When block 4 is committed, block 1 is
      delivered a second time. */
  lemma {:induction false} DeliveredTwice() returns (run: seq<System>, r: Replica, b1: Block, b4: Block)
    ensures Setting(Pair(), {0}) && IsRun(Pair(), {0}, run) && run[|run| - 1] == map[0 := r]
    ensures b1.round == 1 && b4.round == 4 && b4.qc.hash == b1.BlockDigest()
    ensures Deliveries(r.out) == [b1.BlockDigest(), b1.BlockDigest(), b4.BlockDigest()]
  {
    var r5: Replica, v: View, b5: Block, b6: Block;
    r5, v, b1, b4, b5 := BlockFive();
    SixthView(v, b1, b4, b5, NewBlock(Q(b5), None, 0, 6, []));
    r, b6 := MakesAndVotes(r5, 6, Q(b5), None, b4, b5);
    run := RunTo(Pair(), r);
    ZerothHonest();
  }

  // ---------- a request nobody will vote for ----------

  function First(): Env {
    Env(1, Pair())
  }

  const B1 := Theirs(1, GENESIS_QC)

  const T2 := OwnTc(Zeroth(), 2, Q(B1))

  lemma {:induction false} FirstProposes() returns (q: Replica)
    ensures q == ServeMake(First(), Boot(First()), [])
    ensures Propose(B1) in q.out && q.round == 1 && q.highQc == GENESIS_QC
  {
    PairFacts();
    var r := Boot(First());
    assert r.out == [] + [Make(1, GENESIS_QC, None)];
    SendView(STARTED, Make(1, GENESIS_QC, None));
    var b: Block;
    q, b := AfterServing(First(), r, 1, GENESIS_QC, None);
  }

  /** What authority 0 does in the meantime: it votes for block 1, certifies it, and times
      out in round 2. */
  lemma {:induction false} TimesOutInTwo() returns (r1: Replica, r2: Replica)
    ensures r1 == HandleProposal(Zeroth(), Boot(Zeroth()), B1).replica
    ensures r2 == LocalTimeout(Zeroth(), r1).replica
    ensures BroadcastTC(T2) in r2.out && SignTimeout(NewTimeout(Q(B1), 2, 0)) in r2.out
  {
    PairFacts();
    var r := Boot(Zeroth());
    ProposeView(Zeroth(), STARTED, None);
    TheirsAdmitted(r, 1, GENESIS_QC, GENESIS);
    var v := FirstView(ViewOf(r), B1);
    var r0 := AfterProposal(Zeroth(), r, B1);
    r1 := Votes(Zeroth(), r0, GENESIS, GENESIS, B1);
    r2 := AfterTimeout(Zeroth(), r1);
  }

  function BothAt(r: Replica, q: Replica): System {
    map[0 := r, 1 := q]
  }

  lemma {:induction false} FirstMoves(c: Committee, r: Replica, q: Replica, q': Replica)
    requires c.authorities != map[] && Reachable(c, {0, 1}, BothAt(r, q)) && q' == ServeMake(Env(1, c), q, [])
    ensures Reachable(c, {0, 1}, BothAt(r, q'))
  {
    assert BothAt(r, q)[1] == q && BothAt(r, q)[1 := q'] == BothAt(r, q');
    Moves(c, {0, 1}, BothAt(r, q), 1, ProposerRuns([]), q');
  }

  lemma {:induction false} BothUpdate(r: Replica, q: Replica, r': Replica)
    ensures BothAt(r, q)[0] == r && BothAt(r, q)[0 := r'] == BothAt(r', q)
  {
  }

  lemma {:induction false} ZerothMoves(c: Committee, r: Replica, q: Replica, event: Event, r': Replica)
    requires c.authorities != map[] && Reachable(c, {0, 1}, BothAt(r, q)) && r' == React(Env(0, c), r, event).replica
    requires EventHeld(PoolOf(BothAt(r, q)), r, event)
    ensures Reachable(c, {0, 1}, BothAt(r', q))
  {
    BothUpdate(r, q, r');
    Moves(c, {0, 1}, BothAt(r, q), 0, event, r');
  }

  lemma {:induction false} ZerothHears(c: Committee, r: Replica, q: Replica, b: Block, r': Replica)
    requires c.authorities != map[] && Reachable(c, {0, 1}, BothAt(r, q)) && r' == HandleProposal(Env(0, c), r, b).replica
    requires BlockSignaturesHeld(PoolOf(BothAt(r, q)), b)
    ensures Reachable(c, {0, 1}, BothAt(r', q))
  {
    ZerothMoves(c, r, q, ReceiveProposal(b), r');
  }

  lemma {:induction false} ZerothTimesOut(c: Committee, r: Replica, q: Replica, r': Replica)
    requires c.authorities != map[] && Reachable(c, {0, 1}, BothAt(r, q)) && r' == LocalTimeout(Env(0, c), r).replica
    ensures Reachable(c, {0, 1}, BothAt(r', q))
  {
    ZerothMoves(c, r, q, TimerFires, r');
  }

  lemma {:induction false} BothStart(r: Replica, q: Replica)
    requires r == Boot(Zeroth()) && q == Boot(First())
    ensures Reachable(Pair(), {0, 1}, BothAt(r, q))
  {
    Starts(Pair(), {0, 1}, BothAt(r, q));
  }

  lemma {:induction false} ProposalHeld(r: Replica, q: Replica)
    requires Propose(B1) in q.out
    ensures BlockSignaturesHeld(PoolOf(BothAt(r, q)), B1)
  {
    OwnSignaturesInPool(BothAt(r, q), 1);
    assert SignedDigest(Propose(B1)) == Some(B1.BlockDigest());
  }

  /** The three steps, with both authorities honest. */
  lemma {:induction false} StaleState() returns (r: Replica, q: Replica)
    ensures Reachable(Pair(), {0, 1}, BothAt(r, q)) && q.round == 1 && q.highQc == GENESIS_QC
    ensures BroadcastTC(T2) in r.out && SignTimeout(NewTimeout(Q(B1), 2, 0)) in r.out
  {
    q := FirstProposes();
    var r1: Replica;
    r1, r := TimesOutInTwo();
    BothStart(Boot(Zeroth()), Boot(First()));
    FirstMoves(Pair(), Boot(Zeroth()), Boot(First()), q);
    ProposalHeld(Boot(Zeroth()), q);
    ZerothHears(Pair(), Boot(Zeroth()), q, B1, r1);
    ZerothTimesOut(Pair(), r1, q, r);
  }

  lemma {:induction false} TcArrives(r: Replica, q: Replica)
    requires SignTimeout(NewTimeout(Q(B1), 2, 0)) in r.out
    ensures EventHeld(PoolOf(BothAt(r, q)), q, ReceiveTC(T2))
  {
    OwnSignaturesInPool(BothAt(r, q), 0);
    assert SignedDigest(SignTimeout(NewTimeout(Q(B1), 2, 0))) == Some(OfTimeout(2, 1));
  }

  /** On this TC the replica makes a request, which breaks the second voting rule. */
  ghost predicate AsksInVain(env: Env, r: Replica, tc: TC)
    requires env.committee.authorities != map[]
  {
    var r' := HandleTc(env, r, tc).replica;
    |Makes(r'.out)| == |Makes(r.out)| + 1 && !NewMakesVotable(r, r')
  }

  lemma {:induction false} NotVotable(q: Replica)
    requires q.round == 1 && q.highQc == GENESIS_QC
    ensures AsksInVain(First(), q, T2)
  {
    PairFacts();
    OwnTcPasses(Zeroth(), 2, Q(B1));
    HandleTcVotableExactly(First(), q, T2);
    assert T2.votes[0].1.1 == 1;
  }

  lemma StaleRun() returns (run: seq<System>, r: Replica, q: Replica)
    ensures IsRun(Pair(), {0, 1}, run) && run[|run| - 1] == BothAt(r, q) && q.round == 1 && q.highQc == GENESIS_QC
    ensures BroadcastTC(T2) in r.out && SignTimeout(NewTimeout(Q(B1), 2, 0)) in r.out
  {
    r, q := StaleState();
    run :| IsRun(Pair(), {0, 1}, run) && run[|run| - 1] == BothAt(r, q);
  }

  lemma BothHonest()
    ensures Setting(Pair(), {0, 1})
  {
    PairFacts();
  }

  /** Both authorities are honest. Authority 1 has proposed block 1 and heard nothing since;
      authority 0 has certified it and lost round 2. The TC it sends reports round 1, and
      authority 1, as the leader of round 3, asks for a block on the genesis QC, which
      breaks the second voting rule. */
  lemma {:induction false} StaleRequest() returns (run: seq<System>, r: Replica, q: Replica)
    ensures Setting(Pair(), {0, 1}) && IsRun(Pair(), {0, 1}, run) && run[|run| - 1] == map[0 := r, 1 := q]
    ensures BroadcastTC(T2) in r.out && EventHeld(PoolOf(map[0 := r, 1 := q]), q, ReceiveTC(T2))
    ensures AsksInVain(First(), q, T2)
  {
    run, r, q := StaleRun();
    BothHonest();
    TcArrives(r, q);
    NotVotable(q);
  }
}
