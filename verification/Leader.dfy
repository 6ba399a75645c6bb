/** Round-robin leader election (consensus/src/leader.rs). */
module Leader {
  import opened Config
  import opened Messages

  predicate StrictlySorted(s: seq<Key>) {
    forall i, j | 0 <= i < j < |s| :: s[i] < s[j]
  }

  /** The keys of `names` in increasing order. */
  function SortedKeys(names: set<Key>): seq<Key> {
    if names == {} then [] else
      HasLeast(names);
      var least :| IsLeast(least, names);
      [least] + SortedKeys(names - {least})
  }

  lemma {:induction false} SortedKeysExact(names: set<Key>)
    ensures StrictlySorted(SortedKeys(names))
    ensures NameSet(SortedKeys(names)) == names && |SortedKeys(names)| == |names|
    decreases names
  {
    if names != {} {
      HasLeast(names);
      var least :| IsLeast(least, names) && SortedKeys(names) == [least] + SortedKeys(names - {least});
      SortedKeysExact(names - {least});
      LeastFirst(least, SortedKeys(names - {least}), names);
    }
  }

  lemma LeastFirst(least: Key, rest: seq<Key>, names: set<Key>)
    requires IsLeast(least, names) && StrictlySorted(rest) && NameSet(rest) == names - {least}
    ensures StrictlySorted([least] + rest) && NameSet([least] + rest) == names
  {
    var s := [least] + rest;
    forall i | 0 < i < |s| ensures least < s[i] {
      assert rest[i - 1] in NameSet(rest);
    }
    assert NameSet(s) == {least} + NameSet(rest) by {
      assert least == s[0];
      assert forall k :: k in s <==> k == least || k in rest;
    }
  }

  /** The leader of a round: the entry at `round` modulo the committee's size. */
  function LeaderOf(c: Committee, round: Round): (leader: Key)
    requires c.authorities != map[]
    ensures leader in c.authorities
  {
    var keys := SortedKeys(c.authorities.Keys);
    SortedKeysExact(c.authorities.Keys);
    assert |c.authorities.Keys| == |c.authorities|;
    assert keys[round % |keys|] in NameSet(keys);
    keys[round % |keys|]
  }

  function Smaller(names: set<Key>, key: Key): set<Key> {
    set k | k in names && k < key
  }

  lemma {:induction false} SmallerAreBefore(keys: seq<Key>, i: nat)
    requires StrictlySorted(keys) && i < |keys|
    ensures |Smaller(NameSet(keys), keys[i])| == i
  {
    var before := keys[..i];
    assert forall k :: k in keys && k < keys[i] <==> k in before;
    assert Smaller(NameSet(keys), keys[i]) == NameSet(before);
    DistinctSize(before);
  }

  lemma LeaderAt(c: Committee, round: Round) returns (keys: seq<Key>, i: nat)
    requires c.authorities != map[]
    ensures StrictlySorted(keys) && NameSet(keys) == c.authorities.Keys
    ensures i == round % |c.authorities| && i < |keys| && LeaderOf(c, round) == keys[i]
  {
    keys := SortedKeys(c.authorities.Keys);
    SortedKeysExact(c.authorities.Keys);
    assert |c.authorities.Keys| == |c.authorities|;
    i := round % |keys|;
  }

  /** The leader of a round is the authority with as many smaller keys beside it as the
      round counts modulo the committee's size. */
  lemma LeaderRank(c: Committee, round: Round)
    requires c.authorities != map[]
    ensures |Smaller(c.authorities.Keys, LeaderOf(c, round))| == round % |c.authorities|
  {
    var keys, i := LeaderAt(c, round);
    SmallerAreBefore(keys, i);
  }

  lemma {:induction false} SortedIsUnique(s: seq<Key>, t: seq<Key>)
    requires StrictlySorted(s) && StrictlySorted(t) && NameSet(s) == NameSet(t)
    ensures s == t
    decreases |s|
  {
    DistinctSize(s);
    DistinctSize(t);
    if s != [] {
      assert s[0] in NameSet(t) && t[0] in NameSet(s);
      var i :| 0 <= i < |t| && t[i] == s[0];
      var j :| 0 <= j < |s| && s[j] == t[0];
      assert s[0] == t[0];
      assert NameSet(s[1..]) == NameSet(s) - {s[0]};
      assert NameSet(t[1..]) == NameSet(t) - {t[0]};
      SortedIsUnique(s[1..], t[1..]);
    }
  }

  predicate SortedUpTo(s: seq<Key>, n: nat)
    requires n <= |s|
  {
    forall i, j | 0 <= i < j < n :: s[i] <= s[j]
  }

  /** Sorts the local vector of keys in place. */
  method Sort(keys: array<Key>)
    modifies keys
    ensures SortedUpTo(keys[..], keys.Length)
    ensures multiset(keys[..]) == multiset(old(keys[..]))
  {
    for n := 0 to keys.Length
      invariant SortedUpTo(keys[..], n)
      invariant multiset(keys[..]) == multiset(old(keys[..]))
    {
      var j := n;
      while j > 0 && keys[j] < keys[j - 1]
        invariant 0 <= j <= n
        invariant forall a, b | 0 <= a < b <= n && b != j :: keys[a] <= keys[b]
        invariant multiset(keys[..]) == multiset(old(keys[..]))
      {
        ghost var before := keys[..];
        keys[j - 1], keys[j] := keys[j], keys[j - 1];
        assert keys[..] == before[j - 1 := before[j]][j := before[j - 1]];
        j := j - 1;
      }
    }
  }

  lemma SameElements(s: seq<Key>, t: seq<Key>)
    requires multiset(s) == multiset(t)
    ensures NameSet(s) == NameSet(t) && |s| == |t|
  {
    assert |multiset(s)| == |s| && |multiset(t)| == |t|;
    forall k ensures k in NameSet(s) <==> k in NameSet(t) {
      assert k in s <==> k in multiset(s);
      assert k in t <==> k in multiset(t);
    }
  }

  lemma {:induction false} DistinctSize(s: seq<Key>)
    ensures |NameSet(s)| <= |s|
    ensures |NameSet(s)| == |s| <==> Distinct(s)
    decreases |s|
  {
    if s == [] {
      assert NameSet(s) == {};
    } else {
      var init, last := s[..|s| - 1], s[|s| - 1];
      DistinctSize(init);
      assert NameSet(s) == NameSet(init) + {last};
      assert last in NameSet(init) <==> exists i | 0 <= i < |init| :: s[i] == last;
      if Distinct(init) && last !in NameSet(init) {
        assert Distinct(s);
      }
    }
  }

  /** The leader does not depend on the order in which the hash map of authorities
      happens to list its keys. */
  method GetLeader(c: Committee, listed: seq<Key>, round: Round) returns (leader: Key)
    requires c.authorities != map[]
    requires Distinct(listed) && NameSet(listed) == c.authorities.Keys
    ensures leader == LeaderOf(c, round)
    ensures leader in c.authorities && |Smaller(c.authorities.Keys, leader)| == round % |c.authorities|
  {
    var keys := new Key[|listed|](i requires 0 <= i < |listed| => listed[i]);
    assert keys[..] == listed;
    Sort(keys);
    ghost var sorted := keys[..];
    SameElements(sorted, listed);
    DistinctSize(listed);
    DistinctSize(sorted);
    forall i, j | 0 <= i < j < |sorted| ensures sorted[i] < sorted[j] {
      assert sorted[i] <= sorted[j] && sorted[i] != sorted[j];
    }
    SortedKeysExact(c.authorities.Keys);
    SortedIsUnique(sorted, SortedKeys(c.authorities.Keys));
    leader := keys[round % |c.authorities|];
    LeaderRank(c, round);
  }

  /** Among any n consecutive rounds of a committee of size n, each authority leads
      exactly one. */
  lemma EachLeadsOnce(c: Committee, start: Round, k: Key)
    requires k in c.authorities
    ensures exists r :: start <= r < start + |c.authorities| && LeaderOf(c, r) == k
    ensures forall r, r' | start <= r < r' < start + |c.authorities| ::
              !(LeaderOf(c, r) == k && LeaderOf(c, r') == k)
  {
    var keys := SortedKeys(c.authorities.Keys);
    var n := |keys|;
    SortedKeysExact(c.authorities.Keys);
    assert |c.authorities.Keys| == |c.authorities|;
    assert k in NameSet(keys);
    var i :| 0 <= i < n && keys[i] == k;
    var r := start + (i - start % n + n) % n;
    OffsetHits(start, n, i);
    assert LeaderOf(c, r) == k;
    forall r, r' | start <= r < r' < start + n
      ensures !(LeaderOf(c, r) == k && LeaderOf(c, r') == k)
    {
      OffsetsDiffer(r, r', n);
      assert keys[r % n] != keys[r' % n];
    }
  }

  lemma OffsetHits(start: nat, n: nat, i: nat)
    requires i < n
    ensures (start + (i - start % n + n) % n) % n == i
  {
    var q, s := start / n, start % n;
    var d := if i >= s then i - s else i - s + n;
    assert (i - s + n) % n == d by {
      if i >= s {
        ModUnique(i - s + n, n, 1, d);
      } else {
        ModUnique(i - s + n, n, 0, d);
      }
    }
    assert start == q * n + s;
    if i >= s {
      ModUnique(start + d, n, q, i);
    } else {
      assert (q + 1) * n == q * n + n;
      ModUnique(start + d, n, q + 1, i);
    }
  }

  lemma MulGrows(a: int, n: nat)
    requires a >= 1
    ensures a * n >= n
  {
  }

  lemma ModUnique(x: int, n: nat, q: int, r: int)
    requires 0 <= r < n && x == q * n + r
    ensures x % n == r
  {
    var q', r' := x / n, x % n;
    assert (q - q') * n == r' - r && (q' - q) * n == r - r';
    if q > q' {
      MulGrows(q - q', n);
    } else if q < q' {
      MulGrows(q' - q, n);
    }
  }

  lemma OffsetsDiffer(r: nat, r': nat, n: nat)
    requires r < r' < r + n
    ensures r % n != r' % n
  {
    var q, s, d := r / n, r % n, r' - r;
    if s + d < n {
      ModUnique(r', n, q, s + d);
    } else {
      assert (q + 1) * n == q * n + n;
      ModUnique(r', n, q + 1, s + d - n);
    }
  }
}
