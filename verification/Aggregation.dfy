/** Collecting votes and timeouts into certificates (consensus/src/aggregator.rs).
    `QCMaker` and `TCMaker` differ only in their ballots: a signature for the one, a
    signature with a high-QC round for the other. They are one generic maker here. */
module Aggregation {
  import opened Config
  import opened Messages

  // ---------- makers and the aggregator as values ----------

  datatype Tally<V> = Tally(weight: Stake, votes: seq<(Key, V)>, used: set<Key>)

  function EmptyTally<V>(): Tally<V> {
    Tally(0, [], {})
  }

  /** Adds a ballot. The ballots are returned once the weight reaches the threshold;
      the weight then restarts from zero. */
  function Append<V>(c: Committee, t: Tally<V>, author: Key, ballot: V): (Tally<V>, Result<Option<seq<(Key, V)>>>)
  {
    if author in t.used then (t, Failure(AuthorityReuse(author)))
    else
      var votes := t.votes + [(author, ballot)];
      var weight := t.weight + c.StakeOf(author);
      var full := weight >= c.QuorumThreshold();
      (Tally(if full then 0 else weight, votes, t.used + {author}), Success(if full then Some(votes) else None))
  }

  datatype Tallies = Tallies(
    votes: map<Round, map<Digest, Tally<Signature>>>,
    timeouts: map<Round, Tally<Report>>)

  const NO_TALLIES := Tallies(map[], map[])

  function VoteTally(ts: Tallies, round: Round, digest: Digest): Tally<Signature> {
    if round in ts.votes && digest in ts.votes[round] then ts.votes[round][digest] else EmptyTally()
  }

  function TimeoutTally(ts: Tallies, round: Round): Tally<Report> {
    if round in ts.timeouts then ts.timeouts[round] else EmptyTally()
  }

  function PutVoteTally(ts: Tallies, round: Round, digest: Digest, t: Tally<Signature>): Tallies {
    var ofRound := if round in ts.votes then ts.votes[round] else map[];
    ts.(votes := ts.votes[round := ofRound[digest := t]])
  }

  function AddVote(c: Committee, ts: Tallies, vote: Vote): (Tallies, Result<Option<QC>>) {
    var (t, made) := Append(c, VoteTally(ts, vote.round, vote.VoteDigest()), vote.author, vote.signature);
    var qc := match made
      case Failure(e) => Failure(e)
      case Success(None) => Success(None)
      case Success(Some(votes)) => Success(Some(QC(vote.hash, vote.round, votes)));
    (PutVoteTally(ts, vote.round, vote.VoteDigest(), t), qc)
  }

  function AddTimeout(c: Committee, ts: Tallies, timeout: Timeout): (Tallies, Result<Option<TC>>) {
    var (t, made) := Append(c, TimeoutTally(ts, timeout.round), timeout.author,
                            (timeout.signature, timeout.highQc.round));
    var tc := match made
      case Failure(e) => Failure(e)
      case Success(None) => Success(None)
      case Success(Some(votes)) => Success(Some(TC(timeout.round, votes)));
    (ts.(timeouts := ts.timeouts[timeout.round := t]), tc)
  }

  function Cleanup(ts: Tallies, round: Round): Tallies {
    Tallies(map k | k in ts.votes && k >= round :: ts.votes[k],
            map k | k in ts.timeouts && k >= round :: ts.timeouts[k])
  }

  // ---------- what one maker returns over its whole life ----------

  /** The voters are distinct authorities, and the weight is either all their stake or,
      once a certificate was returned, at least a quorum less than that. */
  ghost predicate TallyInv<V>(c: Committee, t: Tally<V>) {
    && Distinct(Names(t.votes))
    && NameSet(Names(t.votes)) == t.used
    && (forall k | k in t.used :: c.StakeOf(k) > 0)
    && t.weight < c.QuorumThreshold()
    && (t.weight == c.Weight(t.used) || t.weight + c.QuorumThreshold() <= c.Weight(t.used))
  }

  /** A certificate was already returned by this maker. */
  ghost predicate Spent<V>(c: Committee, t: Tally<V>) {
    t.weight != c.Weight(t.used)
  }

  lemma NamesSnoc<V>(votes: seq<(Key, V)>, author: Key, ballot: V)
    ensures Names(votes + [(author, ballot)]) == Names(votes) + [author]
    ensures NameSet(Names(votes + [(author, ballot)])) == NameSet(Names(votes)) + {author}
  {
    assert Names(votes + [(author, ballot)]) == Names(votes) + [author];
    var names := Names(votes);
    assert (names + [author])[|names|] == author;
    assert forall k :: k in names + [author] <==> k in names || k == author;
  }

  lemma AppendKeepsInv<V>(c: Committee, t: Tally<V>, author: Key, ballot: V)
    requires TallyInv(c, t) && c.StakeOf(author) > 0
    ensures TallyInv(c, Append(c, t, author, ballot).0)
    ensures Spent(c, t) ==> Spent(c, Append(c, t, author, ballot).0)
    ensures var (t', made) := Append(c, t, author, ballot);
            made.Success? && made.value.Some? ==>
              Quorate(c, Names(made.value.value)) && !Spent(c, t) && Spent(c, t')
    ensures var (t', made) := Append(c, t, author, ballot);
            made.Success? && made.value.None? && !Spent(c, t) ==> !Spent(c, t')
  {
    if author !in t.used {
      NamesSnoc(t.votes, author, ballot);
      WeightAdd(c, t.used, author);
      WeightAtMostTotal(c, t.used + {author});
    }
  }

  /** All the certificates a maker returns for a sequence of ballots. */
  function AppendAll<V>(c: Committee, t: Tally<V>, ballots: seq<(Key, V)>): (Tally<V>, seq<seq<(Key, V)>>)
    decreases |ballots|
  {
    if ballots == [] then (t, []) else
      var (t', made) := Append(c, t, ballots[0].0, ballots[0].1);
      var (t'', later) := AppendAll(c, t', ballots[1..]);
      (t'', (if made.Success? && made.value.Some? then [made.value.value] else []) + later)
  }

  lemma {:induction false} AppendAllKeepsInv<V>(c: Committee, t: Tally<V>, ballots: seq<(Key, V)>)
    requires TallyInv(c, t)
    requires forall i | 0 <= i < |ballots| :: c.StakeOf(ballots[i].0) > 0
    ensures TallyInv(c, AppendAll(c, t, ballots).0)
    ensures AppendAll(c, t, ballots).0.used == t.used + NameSet(Names(ballots))
    decreases |ballots|
  {
    if ballots == [] {
      assert NameSet(Names(ballots)) == {};
    } else {
      AppendKeepsInv(c, t, ballots[0].0, ballots[0].1);
      AppendAllKeepsInv(c, Append(c, t, ballots[0].0, ballots[0].1).0, ballots[1..]);
      NamesCons(ballots);
    }
  }

  /** A maker fed any ballots of authorities returns at most one certificate, and it
      does return one exactly when the voters' joint stake reaches the threshold. */
  lemma {:induction false} AtMostOneCertificate<V>(c: Committee, t: Tally<V>, ballots: seq<(Key, V)>)
    requires TallyInv(c, t)
    requires forall i | 0 <= i < |ballots| :: c.StakeOf(ballots[i].0) > 0
    ensures var voters := t.used + NameSet(Names(ballots));
            |AppendAll(c, t, ballots).1| ==
              if !Spent(c, t) && c.Weight(voters) >= c.QuorumThreshold() then 1 else 0
    ensures forall made | made in AppendAll(c, t, ballots).1 :: Quorate(c, Names(made))
    decreases |ballots|
  {
    SpentIsHeavy(c, t);
    if ballots == [] {
      assert t.used + NameSet(Names(ballots)) == t.used;
    } else {
      var author, ballot := ballots[0].0, ballots[0].1;
      var (t', made) := Append(c, t, author, ballot);
      AppendKeepsInv(c, t, author, ballot);
      AtMostOneCertificate(c, t', ballots[1..]);
      NamesCons(ballots);
      var voters := t.used + NameSet(Names(ballots));
      assert t'.used + NameSet(Names(ballots[1..])) == voters;
      SpentIsHeavy(c, t');
      WeightMonotone(c, t'.used, voters);
    }
  }

  lemma SpentIsHeavy<V>(c: Committee, t: Tally<V>)
    requires TallyInv(c, t)
    ensures Spent(c, t) <==> c.Weight(t.used) >= c.QuorumThreshold()
  {
  }

  lemma NamesCons<V>(ballots: seq<(Key, V)>)
    requires ballots != []
    ensures NameSet(Names(ballots)) == {ballots[0].0} + NameSet(Names(ballots[1..]))
  {
    var names, rest := Names(ballots), Names(ballots[1..]);
    assert names == [ballots[0].0] + rest;
    assert names[0] == ballots[0].0;
    assert forall k :: k in names <==> k == ballots[0].0 || k in rest;
  }

  lemma EmptyTallyInv<V>(c: Committee)
    ensures TallyInv(c, EmptyTally<V>()) && !Spent(c, EmptyTally<V>())
  {
    assert NameSet(Names<V>([])) == {};
  }

  lemma {:induction false} CertificatesFromBallots<V>(c: Committee, t: Tally<V>, ballots: seq<(Key, V)>)
    ensures forall made, b | made in AppendAll(c, t, ballots).1 && b in made :: b in t.votes || b in ballots
    decreases |ballots|
  {
    if ballots != [] {
      CertificatesFromBallots(c, Append(c, t, ballots[0].0, ballots[0].1).0, ballots[1..]);
      assert forall b | b in ballots[1..] :: b in ballots;
    }
  }

  // ---------- the aggregator as a whole ----------

  /** A vote touches one tally, and a timeout one. */
  lemma OthersUntouched(c: Committee, ts: Tallies, vote: Vote, timeout: Timeout)
    ensures var ts' := AddVote(c, ts, vote).0;
            && ts'.timeouts == ts.timeouts
            && forall round, digest | round != vote.round || digest != vote.VoteDigest() ::
                 VoteTally(ts', round, digest) == VoteTally(ts, round, digest)
    ensures var ts' := AddTimeout(c, ts, timeout).0;
            && ts'.votes == ts.votes
            && forall round | round != timeout.round :: TimeoutTally(ts', round) == TimeoutTally(ts, round)
  {
  }

  /** What is left after a cleanup: every tally of the given round and later, and no other. */
  lemma CleanupExact(ts: Tallies, before: Round, round: Round, digest: Digest)
    ensures VoteTally(Cleanup(ts, before), round, digest) ==
              if round >= before then VoteTally(ts, round, digest) else EmptyTally()
    ensures TimeoutTally(Cleanup(ts, before), round) ==
              if round >= before then TimeoutTally(ts, round) else EmptyTally()
  {
  }

  datatype Input = VoteIn(vote: Vote) | TimeoutIn(timeout: Timeout) | Forget(before: Round)

  datatype Certificate = MadeQC(qc: QC) | MadeTC(tc: TC)

  function FeedOne(c: Committee, ts: Tallies, input: Input): (Tallies, seq<Certificate>) {
    match input
    case VoteIn(vote) =>
      var (ts', made) := AddVote(c, ts, vote);
      (ts', if made.Success? && made.value.Some? then [MadeQC(made.value.value)] else [])
    case TimeoutIn(timeout) =>
      var (ts', made) := AddTimeout(c, ts, timeout);
      (ts', if made.Success? && made.value.Some? then [MadeTC(made.value.value)] else [])
    case Forget(before) => (Cleanup(ts, before), [])
  }

  /** The aggregator fed votes, timeouts and cleanups in any order: its state at the end and
      all the certificates it returned. */
  function Feed(c: Committee, ts: Tallies, inputs: seq<Input>): (Tallies, seq<Certificate>)
    decreases |inputs|
  {
    if inputs == [] then (ts, []) else
      var (ts', made) := FeedOne(c, ts, inputs[0]);
      var (ts'', later) := Feed(c, ts', inputs[1..]);
      (ts'', made + later)
  }

  /** The ballots among the inputs that are for this block and round, in order. */
  function VotesFor(inputs: seq<Input>, hash: Digest, round: Round): seq<(Key, Signature)> {
    if inputs == [] then []
    else (match inputs[0]
          case VoteIn(vote) => if vote.hash == hash && vote.round == round then [(vote.author, vote.signature)] else []
          case _ => [])
         + VotesFor(inputs[1..], hash, round)
  }

  function TimeoutsFor(inputs: seq<Input>, round: Round): seq<(Key, Report)> {
    if inputs == [] then []
    else (match inputs[0]
          case TimeoutIn(t) => if t.round == round then [(t.author, (t.signature, t.highQc.round))] else []
          case _ => [])
         + TimeoutsFor(inputs[1..], round)
  }

  /** The votes of the QCs for this block and round among the certificates, in order. */
  function QCsFor(made: seq<Certificate>, hash: Digest, round: Round): seq<seq<(Key, Signature)>> {
    if made == [] then []
    else (match made[0]
          case MadeQC(qc) => if qc.hash == hash && qc.round == round then [qc.votes] else []
          case MadeTC(_) => [])
         + QCsFor(made[1..], hash, round)
  }

  function TCsFor(made: seq<Certificate>, round: Round): seq<seq<(Key, Report)>> {
    if made == [] then []
    else (match made[0]
          case MadeTC(tc) => if tc.round == round then [tc.votes] else []
          case MadeQC(_) => [])
         + TCsFor(made[1..], round)
  }

  ghost predicate ForgetsUpTo(inputs: seq<Input>, round: Round) {
    forall i | 0 <= i < |inputs| && inputs[i].Forget? :: inputs[i].before <= round
  }

  lemma CertificatesCons(made: seq<Certificate>, later: seq<Certificate>, hash: Digest, round: Round)
    requires |made| <= 1
    ensures QCsFor(made + later, hash, round) == QCsFor(made, hash, round) + QCsFor(later, hash, round)
    ensures TCsFor(made + later, round) == TCsFor(made, round) + TCsFor(later, round)
  {
    if made == [] {
      assert made + later == later;
    } else {
      assert (made + later)[1..] == later && made[1..] == [];
    }
  }

  function CertificateOf<V>(made: Result<Option<seq<(Key, V)>>>): seq<seq<(Key, V)>> {
    if made.Success? && made.value.Some? then [made.value.value] else []
  }

  lemma AppendAllCons<V>(c: Committee, t: Tally<V>, ballot: (Key, V), rest: seq<(Key, V)>)
    ensures var (t1, made) := Append(c, t, ballot.0, ballot.1);
            AppendAll(c, t, [ballot] + rest) == (AppendAll(c, t1, rest).0, CertificateOf(made) + AppendAll(c, t1, rest).1)
  {
    assert ([ballot] + rest)[1..] == rest;
  }

  lemma {:induction false} OneForQC(c: Committee, ts: Tallies, input: Input, hash: Digest, round: Round)
    requires input.Forget? ==> input.before <= round
    ensures var (t, ts1, made) := (VoteTally(ts, round, OfVote(hash, round)), FeedOne(c, ts, input).0, FeedOne(c, ts, input).1);
            if input.VoteIn? && input.vote.hash == hash && input.vote.round == round then
              var (t1, votes) := Append(c, t, input.vote.author, input.vote.signature);
              VoteTally(ts1, round, OfVote(hash, round)) == t1 && QCsFor(made, hash, round) == CertificateOf(votes)
            else VoteTally(ts1, round, OfVote(hash, round)) == t && QCsFor(made, hash, round) == []
  {
    var made := FeedOne(c, ts, input).1;
    if input.VoteIn? && made != [] {
      assert made[1..] == [];
    }
  }

  /** The certificates for one block and round are those of a maker of their own, fed just
      the votes for them: other votes, timeouts and cleanups of earlier rounds, whatever
      their order, change nothing. */
  lemma {:induction false} FedLikeOneQCMaker(c: Committee, ts: Tallies, inputs: seq<Input>, hash: Digest, round: Round)
    requires ForgetsUpTo(inputs, round)
    ensures var (ts', made) := Feed(c, ts, inputs);
            var (t, certificates) := AppendAll(c, VoteTally(ts, round, OfVote(hash, round)), VotesFor(inputs, hash, round));
            VoteTally(ts', round, OfVote(hash, round)) == t && QCsFor(made, hash, round) == certificates
    decreases |inputs|
  {
    if inputs != [] {
      var input, rest := inputs[0], inputs[1..];
      var (ts1, made) := FeedOne(c, ts, input);
      OneForQC(c, ts, input, hash, round);
      FedLikeOneQCMaker(c, ts1, rest, hash, round);
      CertificatesCons(made, Feed(c, ts1, rest).1, hash, round);
      if input.VoteIn? && input.vote.hash == hash && input.vote.round == round {
        AppendAllCons(c, VoteTally(ts, round, OfVote(hash, round)), (input.vote.author, input.vote.signature), VotesFor(rest, hash, round));
      } else {
        assert VotesFor(inputs, hash, round) == VotesFor(rest, hash, round);
      }
    }
  }

  lemma {:induction false} OneForTC(c: Committee, ts: Tallies, input: Input, round: Round)
    requires input.Forget? ==> input.before <= round
    ensures var (t, ts1, made) := (TimeoutTally(ts, round), FeedOne(c, ts, input).0, FeedOne(c, ts, input).1);
            if input.TimeoutIn? && input.timeout.round == round then
              var timeout := input.timeout;
              var (t1, votes) := Append(c, t, timeout.author, (timeout.signature, timeout.highQc.round));
              TimeoutTally(ts1, round) == t1 && TCsFor(made, round) == CertificateOf(votes)
            else TimeoutTally(ts1, round) == t && TCsFor(made, round) == []
  {
    var made := FeedOne(c, ts, input).1;
    if input.TimeoutIn? && made != [] {
      assert made[1..] == [];
    }
  }

  lemma {:induction false} FedLikeOneTCMaker(c: Committee, ts: Tallies, inputs: seq<Input>, round: Round)
    requires ForgetsUpTo(inputs, round)
    ensures var (ts', made) := Feed(c, ts, inputs);
            var (t, certificates) := AppendAll(c, TimeoutTally(ts, round), TimeoutsFor(inputs, round));
            TimeoutTally(ts', round) == t && TCsFor(made, round) == certificates
    decreases |inputs|
  {
    if inputs != [] {
      var input, rest := inputs[0], inputs[1..];
      var (ts1, made) := FeedOne(c, ts, input);
      OneForTC(c, ts, input, round);
      FedLikeOneTCMaker(c, ts1, rest, round);
      CertificatesCons(made, Feed(c, ts1, rest).1, Zero, round);
      if input.TimeoutIn? && input.timeout.round == round {
        AppendAllCons(c, TimeoutTally(ts, round), TimeoutsFor(inputs, round)[0], TimeoutsFor(rest, round));
      } else {
        assert TimeoutsFor(inputs, round) == TimeoutsFor(rest, round);
      }
    }
  }

  lemma {:induction false} VotesForChecked(c: Committee, inputs: seq<Input>, hash: Digest, round: Round)
    requires forall v | VoteIn(v) in inputs && v.hash == hash && v.round == round :: v.Check(c).Pass?
    ensures forall b | b in VotesFor(inputs, hash, round) :: c.StakeOf(b.0) > 0 && b.1.Checks(OfVote(hash, round), b.0)
    decreases |inputs|
  {
    if inputs != [] {
      assert inputs[0] in inputs && forall x | x in inputs[1..] :: x in inputs;
      VotesForChecked(c, inputs[1..], hash, round);
    }
  }

  /** An aggregator fed anything in any order, in which the votes for one block and round
      are well signed: it returns at most one QC for them, which passes `QC.Check`, and it
      does return one iff the voters form a quorum. */
  lemma VotesMakeOneValidQC(c: Committee, inputs: seq<Input>, hash: Digest, round: Round)
    requires ForgetsUpTo(inputs, round)
    requires forall v | VoteIn(v) in inputs && v.hash == hash && v.round == round :: v.Check(c).Pass?
    ensures var voters := NameSet(Names(VotesFor(inputs, hash, round)));
            var made := QCsFor(Feed(c, NO_TALLIES, inputs).1, hash, round);
            && (|made| == if c.Weight(voters) >= c.QuorumThreshold() then 1 else 0)
            && forall i | 0 <= i < |made| :: QC(hash, round, made[i]).Check(c).Pass?
  {
    var ballots, made := VotesFor(inputs, hash, round), QCsFor(Feed(c, NO_TALLIES, inputs).1, hash, round);
    FedLikeOneQCMaker(c, NO_TALLIES, inputs, hash, round);
    VotesForChecked(c, inputs, hash, round);
    EmptyTallyInv<Signature>(c);
    AtMostOneCertificate(c, EmptyTally(), ballots);
    CertificatesFromBallots(c, EmptyTally(), ballots);
    assert {} + NameSet(Names(ballots)) == NameSet(Names(ballots));
    forall i | 0 <= i < |made| ensures QC(hash, round, made[i]).Check(c).Pass? {
      var qc := QC(hash, round, made[i]);
      forall j | 0 <= j < |qc.votes| ensures qc.votes[j].1.Checks(qc.VoteDigest(), qc.votes[j].0) {
        assert made[i] in made && made[i][j] in made[i];
      }
      QCCheckExact(c, qc);
    }
  }

  lemma {:induction false} TimeoutsForChecked(c: Committee, inputs: seq<Input>, round: Round)
    requires forall t | TimeoutIn(t) in inputs && t.round == round :: t.Check(c).Pass?
    ensures forall b | b in TimeoutsFor(inputs, round) :: c.StakeOf(b.0) > 0 && b.1.0.Checks(OfTimeout(round, b.1.1), b.0)
    decreases |inputs|
  {
    if inputs != [] {
      assert inputs[0] in inputs && forall x | x in inputs[1..] :: x in inputs;
      TimeoutsForChecked(c, inputs[1..], round);
    }
  }

  /** The same for the timeouts of one round and `TC.Check`. */
  lemma TimeoutsMakeOneValidTC(c: Committee, inputs: seq<Input>, round: Round)
    requires ForgetsUpTo(inputs, round)
    requires forall t | TimeoutIn(t) in inputs && t.round == round :: t.Check(c).Pass?
    ensures var voters := NameSet(Names(TimeoutsFor(inputs, round)));
            var made := TCsFor(Feed(c, NO_TALLIES, inputs).1, round);
            && (|made| == if c.Weight(voters) >= c.QuorumThreshold() then 1 else 0)
            && forall i | 0 <= i < |made| :: TC(round, made[i]).Check(c).Pass?
  {
    var ballots, made := TimeoutsFor(inputs, round), TCsFor(Feed(c, NO_TALLIES, inputs).1, round);
    FedLikeOneTCMaker(c, NO_TALLIES, inputs, round);
    TimeoutsForChecked(c, inputs, round);
    EmptyTallyInv<Report>(c);
    AtMostOneCertificate(c, EmptyTally(), ballots);
    CertificatesFromBallots(c, EmptyTally(), ballots);
    assert {} + NameSet(Names(ballots)) == NameSet(Names(ballots));
    forall i | 0 <= i < |made| ensures TC(round, made[i]).Check(c).Pass? {
      var tc := TC(round, made[i]);
      forall j | 0 <= j < |tc.votes| ensures tc.SignatureChecks(j) {
        assert made[i] in made && made[i][j] in made[i];
      }
      TCCheckExact(c, tc);
    }
  }

  lemma {:induction false} UsedByAll<V>(c: Committee, t: Tally<V>, ballots: seq<(Key, V)>)
    ensures AppendAll(c, t, ballots).0.used == t.used + NameSet(Names(ballots))
    decreases |ballots|
  {
    if ballots == [] {
      assert NameSet(Names(ballots)) == {};
    } else {
      UsedByAll(c, Append(c, t, ballots[0].0, ballots[0].1).0, ballots[1..]);
      NamesCons(ballots);
    }
  }

  /** A vote is refused iff its author already voted for that block and round, and a timeout
      iff its author already timed out in that round, whatever came in between. */
  lemma RefusedIffRepeated(c: Committee, inputs: seq<Input>, vote: Vote, timeout: Timeout)
    ensures ForgetsUpTo(inputs, vote.round) ==>
              (AddVote(c, Feed(c, NO_TALLIES, inputs).0, vote).1 == Failure(AuthorityReuse(vote.author)) <==>
               vote.author in Names(VotesFor(inputs, vote.hash, vote.round)))
    ensures ForgetsUpTo(inputs, timeout.round) ==>
              (AddTimeout(c, Feed(c, NO_TALLIES, inputs).0, timeout).1 == Failure(AuthorityReuse(timeout.author)) <==>
               timeout.author in Names(TimeoutsFor(inputs, timeout.round)))
  {
    if ForgetsUpTo(inputs, vote.round) {
      FedLikeOneQCMaker(c, NO_TALLIES, inputs, vote.hash, vote.round);
      UsedByAll(c, EmptyTally(), VotesFor(inputs, vote.hash, vote.round));
    }
    if ForgetsUpTo(inputs, timeout.round) {
      FedLikeOneTCMaker(c, NO_TALLIES, inputs, timeout.round);
      UsedByAll(c, EmptyTally(), TimeoutsFor(inputs, timeout.round));
    }
  }
}
