/** The committee and its stake arithmetic (consensus/src/config.rs). */
module Config {
  /** A public key. The byte order on keys is the order on naturals. */
  type Key = nat
  type Stake = nat
  type Round = nat

  datatype Committee = Committee(authorities: map<Key, Stake>) {
    function StakeOf(name: Key): Stake {
      if name in authorities then authorities[name] else 0
    }

    /** The stake held together by the members of `names`. */
    function Weight(names: set<Key>): Stake {
      if names == {} then 0 else
        HasLeast(names);
        var least :| IsLeast(least, names);
        StakeOf(least) + Weight(names - {least})
    }

    function TotalStake(): Stake {
      Weight(authorities.Keys)
    }

    function QuorumThreshold(): Stake {
      2 * TotalStake() / 3 + 1
    }

    /** The largest faulty stake the protocol tolerates. */
    function FaultBound(): int {
      (TotalStake() - 1) / 3
    }
  }

  predicate IsLeast(least: Key, names: set<Key>) {
    least in names && forall k | k in names :: least <= k
  }

  lemma {:induction false} HasLeast(names: set<Key>)
    requires names != {}
    ensures exists least :: IsLeast(least, names)
    decreases names
  {
    var k :| k in names;
    var rest := names - {k};
    assert names == rest + {k};
    if rest == {} {
      assert IsLeast(k, names);
    } else {
      HasLeast(rest);
      var m :| IsLeast(m, rest);
      assert IsLeast(if k <= m then k else m, names);
    }
  }

  // ---------- sums of stake ----------

  lemma {:induction false} WeightRemove(c: Committee, names: set<Key>, k: Key)
    requires k in names
    ensures c.Weight(names) == c.StakeOf(k) + c.Weight(names - {k})
    decreases names
  {
    HasLeast(names);
    var least :| IsLeast(least, names)
      && c.Weight(names) == c.StakeOf(least) + c.Weight(names - {least});
    if k != least {
      WeightRemove(c, names - {least}, k);
      WeightRemove(c, names - {k}, least);
      assert names - {least} - {k} == names - {k} - {least};
    }
  }

  lemma {:induction false} WeightAdd(c: Committee, names: set<Key>, k: Key)
    requires k !in names
    ensures c.Weight(names + {k}) == c.Weight(names) + c.StakeOf(k)
  {
    WeightRemove(c, names + {k}, k);
    assert names + {k} - {k} == names;
  }

  lemma {:induction false} WeightSplit(c: Committee, a: set<Key>, b: set<Key>)
    ensures c.Weight(a) == c.Weight(a * b) + c.Weight(a - b)
    decreases a
  {
    if a == {} {
      assert a * b == {} && a - b == {};
    } else {
      var k :| k in a;
      WeightRemove(c, a, k);
      WeightSplit(c, a - {k}, b);
      if k in b {
        WeightRemove(c, a * b, k);
        assert (a - {k}) * b == a * b - {k} && a - {k} - b == a - b;
      } else {
        WeightRemove(c, a - b, k);
        assert (a - {k}) * b == a * b && a - {k} - b == a - b - {k};
      }
    }
  }

  lemma {:induction false} WeightMonotone(c: Committee, a: set<Key>, b: set<Key>)
    requires a <= b
    ensures c.Weight(a) <= c.Weight(b)
  {
    WeightSplit(c, b, a);
    assert b * a == a;
  }

  lemma {:induction false} WeightOfStrangers(c: Committee, names: set<Key>)
    requires names !! c.authorities.Keys
    ensures c.Weight(names) == 0
    decreases names
  {
    if names != {} {
      var k :| k in names;
      WeightRemove(c, names, k);
      WeightOfStrangers(c, names - {k});
    }
  }

  /** No set of names, authorities or not, outweighs the committee. */
  lemma {:induction false} WeightAtMostTotal(c: Committee, names: set<Key>)
    ensures c.Weight(names) <= c.TotalStake()
  {
    var known := c.authorities.Keys;
    WeightSplit(c, names, known);
    WeightOfStrangers(c, names - known);
    WeightMonotone(c, names * known, known);
  }

  lemma {:induction false} InclusionExclusion(c: Committee, a: set<Key>, b: set<Key>)
    ensures c.Weight(a) + c.Weight(b) == c.Weight(a + b) + c.Weight(a * b)
  {
    WeightSplit(c, a, b);
    WeightSplit(c, a + b, b);
    assert (a + b) * b == b && a + b - b == a - b;
  }

  // ---------- quorums ----------

  /** The threshold is exactly the total stake less the tolerated faulty stake. */
  lemma QuorumIsTotalLessFaults(c: Committee)
    requires c.TotalStake() > 0
    ensures c.QuorumThreshold() == c.TotalStake() - c.FaultBound()
    ensures c.TotalStake() >= 3 * c.FaultBound() + 1
  {
  }

  /** Any two quorums share more stake than can be faulty. */
  lemma QuorumsIntersect(c: Committee, a: set<Key>, b: set<Key>)
    requires c.TotalStake() > 0
    requires c.Weight(a) >= c.QuorumThreshold() && c.Weight(b) >= c.QuorumThreshold()
    ensures c.Weight(a * b) > c.FaultBound()
  {
    InclusionExclusion(c, a, b);
    WeightAtMostTotal(c, a + b);
    QuorumIsTotalLessFaults(c);
  }

  /** The authorities outside `honest` hold no more than the tolerated stake. */
  ghost predicate FaultsBounded(c: Committee, honest: set<Key>) {
    && c.TotalStake() > 0
    && honest <= c.authorities.Keys
    && c.Weight(c.authorities.Keys - honest) <= c.FaultBound()
  }

  /** A set heavier than the fault bound has an honest member. */
  lemma HeavySetHasHonest(c: Committee, honest: set<Key>, a: set<Key>) returns (k: Key)
    requires FaultsBounded(c, honest)
    requires c.Weight(a) > c.FaultBound()
    ensures k in a && k in honest
  {
    var known := c.authorities.Keys;
    if a * honest == {} {
      WeightSplit(c, a, known);
      WeightOfStrangers(c, a - known);
      forall k | k in a * known ensures k in known - honest {
        assert k !in a * honest;
      }
      WeightMonotone(c, a * known, known - honest);
    }
    k :| k in a * honest;
  }

  lemma QuorumHasHonest(c: Committee, honest: set<Key>, a: set<Key>) returns (k: Key)
    requires FaultsBounded(c, honest)
    requires c.Weight(a) >= c.QuorumThreshold()
    ensures k in a && k in honest
  {
    QuorumIsTotalLessFaults(c);
    k := HeavySetHasHonest(c, honest, a);
  }

  lemma QuorumsShareHonest(c: Committee, honest: set<Key>, a: set<Key>, b: set<Key>) returns (k: Key)
    requires FaultsBounded(c, honest)
    requires c.Weight(a) >= c.QuorumThreshold() && c.Weight(b) >= c.QuorumThreshold()
    ensures k in a && k in b && k in honest
  {
    QuorumsIntersect(c, a, b);
    k := HeavySetHasHonest(c, honest, a * b);
  }
}
