/** The tally shown on a poll's page: the number of votes for each value. */
module Tally {
  import opened Poll

  /** Number of votes in `votes` whose value is `value`. */
  function CountOf(votes: seq<Vote>, value: string): nat
    decreases |votes|
  {
    if votes == [] then 0
    else CountOf(votes[..|votes| - 1], value) + (if votes[|votes| - 1].value == value then 1 else 0)
  }

  /** The values that occur in `votes`. */
  function VoteValues(votes: seq<Vote>): set<string>
  {
    set i | 0 <= i < |votes| :: votes[i].value
  }

  /** Appending a vote adds its value to the values voted for, and nothing else. */
  lemma VoteValuesSnoc(prefix: seq<Vote>, v: Vote)
    ensures VoteValues(prefix + [v]) == VoteValues(prefix) + {v.value}
  {
    var votes := prefix + [v];
    assert votes[|prefix|] == v;
    forall x
      ensures x in VoteValues(votes) <==> x in VoteValues(prefix) + {v.value}
    {
      if x in VoteValues(votes) {
        var i :| 0 <= i < |votes| && votes[i].value == x;
        if i < |prefix| {
          assert prefix[i] == votes[i];
        }
      }
      if x in VoteValues(prefix) {
        var i :| 0 <= i < |prefix| && prefix[i].value == x;
        assert votes[i] == prefix[i];
      }
    }
  }

  /** A value is counted at least once exactly when some vote carries it. */
  lemma {:induction false} CountOfPositive(votes: seq<Vote>, value: string)
    ensures CountOf(votes, value) > 0 <==> value in VoteValues(votes)
    ensures CountOf(votes, value) <= |votes|
    decreases |votes|
  {
    if votes != [] {
      var init := votes[..|votes| - 1];
      CountOfPositive(init, value);
      assert votes == init + [votes[|votes| - 1]];
      VoteValuesSnoc(init, votes[|votes| - 1]);
    }
  }

  /** Sum of the counts held in a map. */
  ghost function MapSum(m: map<string, int>): int
    decreases |m|
  {
    if m == map[] then 0
    else
      assert m.Keys != {};
      var k :| k in m;
      assert (m - {k}).Keys == m.Keys - {k};
      m[k] + MapSum(m - {k})
  }

  /** The sum may be taken by removing any key first, not only the one MapSum picks. */
  lemma {:induction false} MapSumRemove(m: map<string, int>, k: string)
    requires k in m
    ensures MapSum(m) == m[k] + MapSum(m - {k})
    decreases |m|
  {
    assert m != map[];
    var j :| j in m && MapSum(m) == m[j] + MapSum(m - {j});
    if j != k {
      assert (m - {j}).Keys == m.Keys - {j};
      assert (m - {k}).Keys == m.Keys - {k};
      MapSumRemove(m - {j}, k);
      MapSumRemove(m - {k}, j);
      assert (m - {j}) - {k} == (m - {k}) - {j};
    }
  }

  /** Counting one more vote for `k` raises the sum by one. */
  lemma MapSumIncrement(m: map<string, int>, k: string)
    ensures MapSum(m[k := (if k in m then m[k] else 0) + 1]) == MapSum(m) + 1
  {
    var m' := m[k := (if k in m then m[k] else 0) + 1];
    MapSumRemove(m', k);
    assert m' - {k} == m - {k};
    if k in m {
      MapSumRemove(m, k);
    } else {
      assert m - {k} == m;
    }
  }

  /** `counts` is the tally of `votes`: its keys are exactly the values voted for,
      each key maps to the number of votes for it, and the counts add up to the
      number of votes. */
  ghost predicate IsTallyOf(counts: map<string, int>, votes: seq<Vote>)
  {
    && counts.Keys == VoteValues(votes)
    && (forall v :: v in counts ==> counts[v] == CountOf(votes, v))
    && MapSum(counts) == |votes|
  }

  /** A list of votes has only one tally. */
  lemma TallyUnique(c1: map<string, int>, c2: map<string, int>, votes: seq<Vote>)
    requires IsTallyOf(c1, votes) && IsTallyOf(c2, votes)
    ensures c1 == c2
  {
  }

  /** Counting one more vote extends the tally of the votes before it. */
  lemma {:induction false} TallyStep(counts: map<string, int>, prefix: seq<Vote>, v: Vote)
    requires IsTallyOf(counts, prefix)
    ensures IsTallyOf(counts[v.value := (if v.value in counts then counts[v.value] else 0) + 1], prefix + [v])
  {
    var votes := prefix + [v];
    var counts' := counts[v.value := (if v.value in counts then counts[v.value] else 0) + 1];
    MapSumIncrement(counts, v.value);
    assert votes[..|votes| - 1] == prefix;
    VoteValuesSnoc(prefix, v);
    assert counts'.Keys == VoteValues(votes);
    forall x | x in counts'
      ensures counts'[x] == CountOf(votes, x)
    {
      if x != v.value {
        assert counts'[x] == counts[x];
      } else if v.value !in counts {
        CountOfPositive(prefix, x);
      }
    }
  }

  /** Counts votes grouped by value, one vote at a time, starting each new value at zero. */
  method TallyVotes(votes: seq<Vote>) returns (counts: map<string, int>)
    ensures IsTallyOf(counts, votes)
  {
    counts := map[];
    var i := 0;
    while i < |votes|
      invariant 0 <= i <= |votes|
      invariant IsTallyOf(counts, votes[..i])
    {
      var v := votes[i].value;
      TallyStep(counts, votes[..i], votes[i]);
      assert votes[..i + 1] == votes[..i] + [votes[i]];
      counts := counts[v := (if v in counts then counts[v] else 0) + 1];
      i := i + 1;
    }
    assert votes[..i] == votes;
  }
}
