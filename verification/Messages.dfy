/** Blocks, votes, timeouts and their certificates (consensus/src/messages.rs). */
module Messages {
  import opened Config

  datatype Option<+T> = None | Some(value: T)

  datatype Result<+T> = Success(value: T) | Failure(error: Error)

  /** The errors a handler can return. `Panicked` stands for a failed `expect`. */
  datatype Error =
    | UnknownAuthority(name: Key)
    | AuthorityReuse(name: Key)
    | InvalidSignature
    | QCRequiresQuorum
    | TCRequiresQuorum
    | WrongLeader(digest: Digest, leader: Key, round: Round)
    | Panicked

  datatype Outcome = Pass | Fail(error: Error)

  /** A digest is the term that was hashed: equal digests mean equal hashed fields.
      A block digest covers author, round, payload and the parent's digest, and nothing
      else of the block: neither the round nor the votes of its QC, nor its TC. */
  datatype Digest =
    | Zero
    | OfBlock(author: Key, round: Round, payload: seq<Digest>, parent: Digest)
    | OfVote(hash: Digest, round: Round)
    | OfTimeout(round: Round, qcRound: Round)
    | OfBatch(id: nat)

  datatype Signature = Signed(signer: Key, digest: Digest) | Garbage {
    /** True if this is the signature of `signer` over `digest`. */
    predicate Checks(digest: Digest, signer: Key) {
      this == Signed(signer, digest)
    }
  }

  const DEFAULT_KEY: Key := 0

  // ---------- certificates ----------

  predicate Distinct(names: seq<Key>) {
    forall i, j | 0 <= i < j < |names| :: names[i] != names[j]
  }

  /** The names of the authors of a list of ballots. */
  function Names<V>(votes: seq<(Key, V)>): (names: seq<Key>)
    ensures |names| == |votes|
    ensures forall i | 0 <= i < |votes| :: names[i] == votes[i].0
  {
    seq(|votes|, i requires 0 <= i < |votes| => votes[i].0)
  }

  function NameSet(names: seq<Key>): set<Key> {
    set k | k in names
  }

  /** The names are those of distinct authorities that together reach the threshold. */
  predicate Quorate(c: Committee, names: seq<Key>) {
    && Distinct(names)
    && (forall k | k in names :: c.StakeOf(k) > 0)
    && c.Weight(NameSet(names)) >= c.QuorumThreshold()
  }

  /** The tally of a certificate's voters: the first reused or unknown name is an error. */
  function TallyVoters(c: Committee, names: seq<Key>, used: set<Key>, weight: Stake): Result<Stake> {
    if names == [] then Success(weight)
    else if names[0] in used then Failure(AuthorityReuse(names[0]))
    else if c.StakeOf(names[0]) == 0 then Failure(UnknownAuthority(names[0]))
    else TallyVoters(c, names[1..], used + {names[0]}, weight + c.StakeOf(names[0]))
  }

  lemma {:induction false} TallyExact(c: Committee, names: seq<Key>, used: set<Key>, weight: Stake)
    ensures TallyVoters(c, names, used, weight).Success? <==>
            Distinct(names) && forall k | k in names :: k !in used && c.StakeOf(k) > 0
    ensures TallyVoters(c, names, used, weight).Success? ==>
              TallyVoters(c, names, used, weight).value == weight + c.Weight(NameSet(names))
    decreases names
  {
    if names == [] {
      assert NameSet(names) == {};
    } else {
      var k, rest := names[0], names[1..];
      if k !in used && c.StakeOf(k) > 0 {
        TallyExact(c, rest, used + {k}, weight + c.StakeOf(k));
        if k !in rest {
          WeightAdd(c, NameSet(rest), k);
          assert NameSet(names) == NameSet(rest) + {k};
        }
        assert forall j | j in names :: j == k || j in rest;
      }
    }
  }

  /** The first of the names that is a repetition or without stake. */
  predicate FirstOffence(c: Committee, names: seq<Key>, i: nat) {
    && i < |names|
    && (forall j | 0 <= j < i :: names[j] !in names[..j] && c.StakeOf(names[j]) > 0)
    && (names[i] in names[..i] || c.StakeOf(names[i]) == 0)
  }

  lemma {:induction false} Offender(c: Committee, names: seq<Key>, used: set<Key>, weight: Stake) returns (i: nat)
    requires TallyVoters(c, names, used, weight).Failure?
    ensures i < |names|
    ensures forall j | 0 <= j < i :: names[j] !in used && names[j] !in names[..j] && c.StakeOf(names[j]) > 0
    ensures TallyVoters(c, names, used, weight).error ==
              if names[i] in used || names[i] in names[..i] then AuthorityReuse(names[i]) else UnknownAuthority(names[i])
    ensures names[i] in used || names[i] in names[..i] || c.StakeOf(names[i]) == 0
    decreases |names|
  {
    var k, rest := names[0], names[1..];
    if k in used || c.StakeOf(k) == 0 {
      i := 0;
    } else {
      var i' := Offender(c, rest, used + {k}, weight + c.StakeOf(k));
      i := i' + 1;
      assert forall j | 0 < j <= i :: names[..j] == [k] + rest[..j - 1];
      forall j | 0 < j < i ensures names[j] !in used && names[j] !in names[..j] && c.StakeOf(names[j]) > 0 {
        assert names[j] == rest[j - 1];
      }
    }
  }

  lemma DistinctHasNoOffence(c: Committee, names: seq<Key>, i: nat)
    requires FirstOffence(c, names, i)
    ensures !(Distinct(names) && forall k | k in names :: c.StakeOf(k) > 0)
  {
    if names[i] in names[..i] {
      var j :| 0 <= j < i && names[j] == names[i];
    } else {
      assert names[i] in names;
    }
  }

  lemma OneFirstOffence(c: Committee, names: seq<Key>, i: nat, i': nat)
    requires FirstOffence(c, names, i) && FirstOffence(c, names, i')
    ensures i == i'
  {
  }

  /** The tally fails iff some name is repeated or without stake, and the error tells which
      came first. */
  lemma TallyErrorExact(c: Committee, names: seq<Key>, i: nat)
    requires FirstOffence(c, names, i)
    ensures TallyVoters(c, names, {}, 0) ==
              Failure(if names[i] in names[..i] then AuthorityReuse(names[i]) else UnknownAuthority(names[i]))
  {
    DistinctHasNoOffence(c, names, i);
    TallyExact(c, names, {}, 0);
    var i' := Offender(c, names, {}, 0);
    OneFirstOffence(c, names, i, i');
  }

  datatype QC = QC(hash: Digest, round: Round, votes: seq<(Key, Signature)>) {
    /** Equality with the genesis QC looks at hash and round only. */
    predicate IsGenesis() {
      hash == Zero && round == 0
    }

    function VoteDigest(): Digest {
      OfVote(hash, round)
    }

    predicate SignaturesCheck() {
      forall i | 0 <= i < |votes| :: votes[i].1.Checks(VoteDigest(), votes[i].0)
    }

    function Check(c: Committee): Outcome {
      match TallyVoters(c, Names(votes), {}, 0)
      case Failure(e) => Fail(e)
      case Success(weight) =>
        if weight < c.QuorumThreshold() then Fail(QCRequiresQuorum)
        else if SignaturesCheck() then Pass
        else Fail(InvalidSignature)
    }

    /** What a certificate that passes `Check` is. */
    predicate Valid(c: Committee) {
      Quorate(c, Names(votes)) && SignaturesCheck()
    }

    method Verify(c: Committee) returns (r: Outcome)
      ensures r == Check(c)
    {
      var weight: Stake := 0;
      var used: set<Key> := {};
      ghost var names := Names(votes);
      for i := 0 to |votes|
        invariant TallyVoters(c, names, {}, 0) == TallyVoters(c, names[i..], used, weight)
      {
        var name := votes[i].0;
        assert names[i..][0] == name && names[i..][1..] == names[i + 1..];
        if name in used {
          return Fail(AuthorityReuse(name));
        }
        var votingRights := c.StakeOf(name);
        if votingRights == 0 {
          return Fail(UnknownAuthority(name));
        }
        used := used + {name};
        weight := weight + votingRights;
      }
      if weight < c.QuorumThreshold() {
        return Fail(QCRequiresQuorum);
      }
      return if SignaturesCheck() then Pass else Fail(InvalidSignature);
    }
  }

  const GENESIS_QC := QC(Zero, 0, [])

  lemma QCCheckExact(c: Committee, qc: QC)
    ensures qc.Check(c).Pass? <==> qc.Valid(c)
  {
    TallyExact(c, Names(qc.votes), {}, 0);
  }

  /** Which error a QC that does not pass brings: the first bad name, too little stake, or
      else a bad signature. */
  lemma QCCheckErrors(c: Committee, qc: QC)
    ensures var names := Names(qc.votes);
            && (forall i: nat | FirstOffence(c, names, i) ::
                  qc.Check(c) == Fail(if names[i] in names[..i] then AuthorityReuse(names[i]) else UnknownAuthority(names[i])))
            && (qc.Check(c) == Fail(QCRequiresQuorum) <==>
                  Distinct(names) && (forall k | k in names :: c.StakeOf(k) > 0) && c.Weight(NameSet(names)) < c.QuorumThreshold())
            && (qc.Check(c) == Fail(InvalidSignature) <==> Quorate(c, names) && !qc.SignaturesCheck())
  {
    var names := Names(qc.votes);
    TallyExact(c, names, {}, 0);
    if TallyVoters(c, names, {}, 0).Failure? {
      var i := Offender(c, names, {}, 0);
    }
    forall i: nat | FirstOffence(c, names, i)
      ensures qc.Check(c) == Fail(if names[i] in names[..i] then AuthorityReuse(names[i]) else UnknownAuthority(names[i]))
    {
      TallyErrorExact(c, names, i);
    }
  }

  /** A ballot of a timeout certificate: a signature and the reported high-QC round. */
  type Report = (Signature, Round)

  datatype TC = TC(round: Round, votes: seq<(Key, Report)>) {
    predicate SignatureChecks(i: nat)
      requires i < |votes|
    {
      votes[i].1.0.Checks(OfTimeout(round, votes[i].1.1), votes[i].0)
    }

    predicate SignaturesCheck() {
      forall i | 0 <= i < |votes| :: SignatureChecks(i)
    }

    /** `r` is at least every high-QC round reported in the certificate. */
    predicate AtMost(r: Round) {
      forall i | 0 <= i < |votes| :: votes[i].1.1 <= r
    }

    function Check(c: Committee): Outcome {
      match TallyVoters(c, Names(votes), {}, 0)
      case Failure(e) => Fail(e)
      case Success(weight) =>
        if weight < c.QuorumThreshold() then Fail(TCRequiresQuorum)
        else if SignaturesCheck() then Pass
        else Fail(InvalidSignature)
    }

    predicate Valid(c: Committee) {
      Quorate(c, Names(votes)) && SignaturesCheck()
    }

    method Verify(c: Committee) returns (r: Outcome)
      ensures r == Check(c)
    {
      var weight: Stake := 0;
      var used: set<Key> := {};
      ghost var names := Names(votes);
      for i := 0 to |votes|
        invariant TallyVoters(c, names, {}, 0) == TallyVoters(c, names[i..], used, weight)
      {
        var name := votes[i].0;
        assert names[i..][0] == name && names[i..][1..] == names[i + 1..];
        if name in used {
          return Fail(AuthorityReuse(name));
        }
        var votingRights := c.StakeOf(name);
        if votingRights == 0 {
          return Fail(UnknownAuthority(name));
        }
        used := used + {name};
        weight := weight + votingRights;
      }
      if weight < c.QuorumThreshold() {
        return Fail(TCRequiresQuorum);
      }
      for i := 0 to |votes|
        invariant forall j | 0 <= j < i :: SignatureChecks(j)
      {
        if !SignatureChecks(i) {
          return Fail(InvalidSignature);
        }
      }
      return Pass;
    }
  }

  lemma TCCheckExact(c: Committee, tc: TC)
    ensures tc.Check(c).Pass? <==> tc.Valid(c)
  {
    TallyExact(c, Names(tc.votes), {}, 0);
  }

  lemma TCCheckErrors(c: Committee, tc: TC)
    ensures var names := Names(tc.votes);
            && (forall i: nat | FirstOffence(c, names, i) ::
                  tc.Check(c) == Fail(if names[i] in names[..i] then AuthorityReuse(names[i]) else UnknownAuthority(names[i])))
            && (tc.Check(c) == Fail(TCRequiresQuorum) <==>
                  Distinct(names) && (forall k | k in names :: c.StakeOf(k) > 0) && c.Weight(NameSet(names)) < c.QuorumThreshold())
            && (tc.Check(c) == Fail(InvalidSignature) <==> Quorate(c, names) && !tc.SignaturesCheck())
  {
    var names := Names(tc.votes);
    TallyExact(c, names, {}, 0);
    if TallyVoters(c, names, {}, 0).Failure? {
      var i := Offender(c, names, {}, 0);
    }
    forall i: nat | FirstOffence(c, names, i)
      ensures tc.Check(c) == Fail(if names[i] in names[..i] then AuthorityReuse(names[i]) else UnknownAuthority(names[i]))
    {
      TallyErrorExact(c, names, i);
    }
  }

  /** A quorum is never empty, so a valid certificate names a voter. */
  lemma QuorateNotEmpty(c: Committee, names: seq<Key>)
    requires Quorate(c, names)
    ensures names != []
  {
    assert names == [] ==> NameSet(names) == {};
  }

  // ---------- votes, timeouts, blocks ----------

  datatype Vote = Vote(hash: Digest, round: Round, author: Key, signature: Signature) {
    function VoteDigest(): Digest {
      OfVote(hash, round)
    }

    function Check(c: Committee): Outcome {
      if c.StakeOf(author) == 0 then Fail(UnknownAuthority(author))
      else if !signature.Checks(VoteDigest(), author) then Fail(InvalidSignature)
      else Pass
    }
  }

  datatype Timeout = Timeout(highQc: QC, round: Round, author: Key, signature: Signature) {
    function TimeoutDigest(): Digest {
      OfTimeout(round, highQc.round)
    }

    function Check(c: Committee): Outcome {
      if c.StakeOf(author) == 0 then Fail(UnknownAuthority(author))
      else if !signature.Checks(TimeoutDigest(), author) then Fail(InvalidSignature)
      else if highQc.IsGenesis() then Pass
      else highQc.Check(c)
    }
  }

  datatype Block = Block(
    qc: QC, tc: Option<TC>, author: Key, round: Round, payload: seq<Digest>, signature: Signature)
  {
    function BlockDigest(): Digest {
      OfBlock(author, round, payload, qc.hash)
    }

    function Check(c: Committee): Outcome {
      if c.StakeOf(author) == 0 then Fail(UnknownAuthority(author))
      else if !signature.Checks(BlockDigest(), author) then Fail(InvalidSignature)
      else
        var qcCheck := if qc.IsGenesis() then Pass else qc.Check(c);
        if qcCheck.Fail? then qcCheck
        else if tc.Some? then tc.value.Check(c)
        else Pass
    }
  }

  /** What signatures bind their signers to: all of a vote, the rounds of a timeout, and of a
      block its author, round, payload and parent. */
  lemma DigestsBind(v: Vote, v': Vote, t: Timeout, t': Timeout, b: Block, b': Block)
    ensures v.VoteDigest() == v'.VoteDigest() <==> v.hash == v'.hash && v.round == v'.round
    ensures t.TimeoutDigest() == t'.TimeoutDigest() <==> t.round == t'.round && t.highQc.round == t'.highQc.round
    ensures b.BlockDigest() == b'.BlockDigest() <==>
              b.author == b'.author && b.round == b'.round && b.payload == b'.payload && b.qc.hash == b'.qc.hash
    ensures v.VoteDigest() != t.TimeoutDigest() && v.VoteDigest() != b.BlockDigest() && t.TimeoutDigest() != b.BlockDigest()
  {
  }

  const GENESIS := Block(GENESIS_QC, None, DEFAULT_KEY, 0, [], Garbage)

  function NewVote(block: Block, author: Key): Vote {
    var hash, round := block.BlockDigest(), block.round;
    Vote(hash, round, author, Signed(author, OfVote(hash, round)))
  }

  function NewTimeout(highQc: QC, round: Round, author: Key): Timeout {
    Timeout(highQc, round, author, Signed(author, OfTimeout(round, highQc.round)))
  }

  function NewBlock(qc: QC, tc: Option<TC>, author: Key, round: Round, payload: seq<Digest>): Block {
    var block := Block(qc, tc, author, round, payload, Garbage);
    block.(signature := Signed(author, block.BlockDigest()))
  }
}
