/** Why two certified chains cannot part: quorums, one vote per round, and the lock. */
module Locking {
  import opened Config
  import opened Messages
  import opened Handlers
  import opened ReplicaInvariant
  import opened System

  /** The round in a block's digest; genesis, whose id is `Zero`, is of round 0. */
  function RoundOf(id: Digest): Round {
    if id.OfBlock? then id.round else 0
  }

  /** `id` is `ancestor` or one of its descendants. */
  predicate Extends(id: Digest, ancestor: Digest) {
    id == ancestor || (id.OfBlock? && Extends(id.parent, ancestor))
  }

  /** A certificate for `id`, made of existing signatures, is around. */
  ghost predicate CertifiedBy(c: Committee, s: System, id: Digest, qc: QC) {
    qc.hash == id && !qc.IsGenesis() && QcHeld(c, PoolOf(s), qc)
  }

  ghost predicate Certified(c: Committee, s: System, id: Digest) {
    exists qc :: CertifiedBy(c, s, id, qc)
  }

  /** `id` and its certified child of the very next round: the head of a 2-chain. */
  ghost predicate TwoChain(c: Committee, s: System, id: Digest) {
    Certified(c, s, id) && exists child :: IsNextChild(c, s, id, child)
  }

  ghost predicate IsNextChild(c: Committee, s: System, id: Digest, child: Digest) {
    Certified(c, s, child) && child.OfBlock? && child.parent == id && child.round == RoundOf(id) + 1
  }

  ghost predicate Good(c: Committee, s: System) {
    Setting(c, s.Keys) && SystemInv(c, s)
  }

  // ---------- who stands behind a certificate ----------

  lemma VoterOf(c: Committee, s: System, qc: QC, k: Key) returns (b: Block)
    requires Good(c, s) && CertifiedBy(c, s, qc.hash, qc)
    requires k in s && k in NameSet(Names(qc.votes))
    ensures SignVote(b) in s[k].out && b.BlockDigest() == qc.hash && b.round == qc.round
    ensures EffectOk(c, PoolOf(s), s[k].highQc.round, s[k].lastVotedRound, SignVote(b))
  {
    var i :| 0 <= i < |qc.votes| && qc.votes[i].0 == k;
    assert Signed(k, qc.VoteDigest()) in PoolOf(s);
    var e :| e in s[k].out && SignedDigest(e) == Some(qc.VoteDigest());
    b := e.block;
    assert ReplicaInv(c, PoolOf(s), s[k]);
  }

  lemma ReporterOf(c: Committee, s: System, tc: TC, k: Key) returns (t: Timeout)
    requires Good(c, s) && TcHeld(c, PoolOf(s), tc)
    requires k in s && k in NameSet(Names(tc.votes))
    ensures SignTimeout(t) in s[k].out && t.round == tc.round
    ensures forall high | tc.AtMost(high) :: t.highQc.round <= high
  {
    var i :| 0 <= i < |tc.votes| && tc.votes[i].0 == k;
    assert tc.SignatureChecks(i);
    var digest := OfTimeout(tc.round, tc.votes[i].1.1);
    assert Signed(k, digest) in PoolOf(s);
    var e :| e in s[k].out && SignedDigest(e) == Some(digest);
    t := e.timeout;
  }

  /** Behind every certificate stands an honest voter; its round is the one in the digest,
      whatever the certificate's carrier claims. */
  lemma HonestVoter(c: Committee, s: System, id: Digest) returns (k: Key, b: Block)
    requires Good(c, s) && Certified(c, s, id)
    ensures k in s && SignVote(b) in s[k].out && b.BlockDigest() == id
    ensures EffectOk(c, PoolOf(s), s[k].highQc.round, s[k].lastVotedRound, SignVote(b))
    ensures id.OfBlock? && id.round == b.round
    ensures forall qc | CertifiedBy(c, s, id, qc) :: qc.round == id.round
  {
    var qc0 :| CertifiedBy(c, s, id, qc0);
    k := QuorumHasHonest(c, s.Keys, NameSet(Names(qc0.votes)));
    b := VoterOf(c, s, qc0, k);
    forall qc | CertifiedBy(c, s, id, qc) ensures qc.round == id.round {
      var k' := QuorumHasHonest(c, s.Keys, NameSet(Names(qc.votes)));
      var b' := VoterOf(c, s, qc, k');
    }
  }

  /** At most one block is certified in each round. */
  lemma OneCertifiedPerRound(c: Committee, s: System, id: Digest, id': Digest)
    requires Good(c, s) && Certified(c, s, id) && Certified(c, s, id')
    requires RoundOf(id) == RoundOf(id')
    ensures id == id'
  {
    var qc :| CertifiedBy(c, s, id, qc);
    var qc' :| CertifiedBy(c, s, id', qc');
    var k := QuorumsShareHonest(c, s.Keys, NameSet(Names(qc.votes)), NameSet(Names(qc'.votes)));
    var b := VoterOf(c, s, qc, k);
    var b' := VoterOf(c, s, qc', k);
    assert ReplicaInv(c, PoolOf(s), s[k]);
    assert SignVote(b) in s[k].out && SignVote(b') in s[k].out;
  }

  /** The parent of a certified block is genesis or certified, and of a lower round. */
  lemma ParentOfCertified(c: Committee, s: System, id: Digest)
    requires Good(c, s) && Certified(c, s, id)
    ensures id.OfBlock?
    ensures id.parent == Zero || Certified(c, s, id.parent)
    ensures RoundOf(id.parent) < id.round
  {
    var k, b := HonestVoter(c, s, id);
    ParentCertificate(c, s, b.qc);
  }

  lemma ParentCertificate(c: Committee, s: System, qc: QC)
    requires Good(c, s) && QcHeld(c, PoolOf(s), qc)
    ensures qc.hash == Zero || Certified(c, s, qc.hash)
    ensures RoundOf(qc.hash) == qc.round
  {
    if !qc.IsGenesis() {
      assert CertifiedBy(c, s, qc.hash, qc);
      var k, b := HonestVoter(c, s, qc.hash);
    }
  }

  // ---------- the lock ----------

  /** A voter for a block of a later round whose QC is older than the previous round has
      seen a TC that holds the report of somebody locked on the 2-chain. */
  lemma TimeoutQuorumKnowsLock(c: Committee, s: System, id: Digest, child: Digest, tc: TC, high: Round)
    requires Good(c, s) && Certified(c, s, id) && IsNextChild(c, s, id, child)
    requires TcHeld(c, PoolOf(s), tc) && tc.round >= child.round && tc.AtMost(high)
    ensures high >= RoundOf(id)
  {
    var qc :| CertifiedBy(c, s, child, qc);
    var k := QuorumsShareHonest(c, s.Keys, NameSet(Names(qc.votes)), NameSet(Names(tc.votes)));
    var b := VoterOf(c, s, qc, k);
    var t := ReporterOf(c, s, tc, k);
    ParentCertificate(c, s, b.qc);
    assert ReplicaInv(c, PoolOf(s), s[k]);
    assert b.qc.round <= t.highQc.round;
  }

  /** Once the head of a 2-chain is there, every certified block of its round or a later
      one is that head or descends from it. */
  lemma {:induction false} Lock(c: Committee, s: System, id: Digest, later: Digest)
    requires Good(c, s) && TwoChain(c, s, id)
    requires Certified(c, s, later) && RoundOf(later) >= RoundOf(id)
    ensures Extends(later, id)
    decreases later
  {
    var child :| IsNextChild(c, s, id, child);
    ParentOfCertified(c, s, id);
    if RoundOf(later) == RoundOf(id) {
      OneCertifiedPerRound(c, s, later, id);
    } else if RoundOf(later) == child.round {
      OneCertifiedPerRound(c, s, later, child);
    } else {
      var k, b := HonestVoter(c, s, later);
      ParentCertificate(c, s, b.qc);
      ParentOfCertified(c, s, later);
      if b.qc.round + 1 != b.round {
        TimeoutQuorumKnowsLock(c, s, id, child, b.tc.value, b.qc.round);
      }
      assert RoundOf(id) >= 1;
      Lock(c, s, id, later.parent);
    }
  }

  // ---------- chains ----------

  lemma {:induction false} ExtendsTransitive(a: Digest, b: Digest, d: Digest)
    requires Extends(a, b) && Extends(b, d)
    ensures Extends(a, d)
    decreases a
  {
    if a != b {
      ExtendsTransitive(a.parent, b, d);
    }
  }

  /** The ancestors of one block form a chain. */
  lemma {:induction false} AncestorsComparable(d: Digest, a: Digest, b: Digest)
    requires Extends(d, a) && Extends(d, b)
    ensures Extends(a, b) || Extends(b, a)
    decreases d
  {
    if d != a && d != b {
      AncestorsComparable(d.parent, a, b);
    }
  }

  /** Every proper ancestor of a certified block is genesis or certified, and older. */
  lemma {:induction false} AncestorsOlder(c: Committee, s: System, id: Digest, ancestor: Digest)
    requires Good(c, s) && Certified(c, s, id)
    requires Extends(id, ancestor) && id != ancestor
    ensures RoundOf(ancestor) < RoundOf(id)
    ensures ancestor == Zero || Certified(c, s, ancestor)
    decreases id
  {
    ParentOfCertified(c, s, id);
    if id.parent != ancestor {
      assert id.parent != Zero;
      AncestorsOlder(c, s, id.parent, ancestor);
    }
  }

  /** Every certified block descends from genesis. */
  lemma {:induction false} ReachesGenesis(c: Committee, s: System, id: Digest)
    requires Good(c, s) && (id == Zero || Certified(c, s, id))
    ensures Extends(id, Zero)
    decreases id
  {
    if id != Zero {
      ParentOfCertified(c, s, id);
      ReachesGenesis(c, s, id.parent);
    }
  }

  /** Two heads of 2-chains lie on one chain. */
  lemma HeadsComparable(c: Committee, s: System, a: Digest, b: Digest)
    requires Good(c, s)
    requires a == Zero || TwoChain(c, s, a)
    requires b == Zero || TwoChain(c, s, b)
    ensures RoundOf(a) <= RoundOf(b) ==> Extends(b, a)
    ensures RoundOf(b) <= RoundOf(a) ==> Extends(a, b)
  {
    if a != Zero {
      ReachesGenesis(c, s, a);
      ParentOfCertified(c, s, a);
    }
    if b != Zero {
      ReachesGenesis(c, s, b);
      ParentOfCertified(c, s, b);
    }
    if a != Zero && b != Zero {
      if RoundOf(a) <= RoundOf(b) {
        Lock(c, s, a, b);
      }
      if RoundOf(b) <= RoundOf(a) {
        Lock(c, s, b, a);
      }
    }
  }
}
