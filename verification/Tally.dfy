/** Counting who said what. */
module Tallies {
  import opened Messages

  /** The nodes that said exactly this. */
  function Voters<V(==)>(votes: map<Name, V>, v: V): set<Name> {
    set s | s in votes && votes[s] == v
  }

  function CountOf<V(==)>(counts: map<V, nat>, v: V): nat { if v in counts then counts[v] else 0 }

  /** The counts are those of the voters. */
  ghost predicate Counts<V(!new)>(counts: map<V, nat>, votes: map<Name, V>) {
    forall v :: CountOf(counts, v) == |Voters(votes, v)|
  }

  /** Nothing was said by more nodes than this. */
  ghost predicate MostCommon<V(!new)>(votes: map<Name, V>, best: V) {
    Voters(votes, best) != {} && forall v :: |Voters(votes, v)| <= |Voters(votes, best)|
  }

  lemma NoVoters<V(!new)>()
    ensures Counts<V>(map[], map[])
  {
    forall v: V ensures |Voters(map[], v)| == 0 {
      assert Voters(map[], v) == {};
    }
  }

  lemma VotersAfter<V>(votes: map<Name, V>, s: Name, said: V, v: V)
    requires s !in votes
    ensures |Voters(votes[s := said], v)| == |Voters(votes, v)| + if v == said then 1 else 0
  {
    if v == said {
      assert Voters(votes[s := said], v) == Voters(votes, v) + {s};
    } else {
      assert Voters(votes[s := said], v) == Voters(votes, v);
    }
  }

  lemma OneVoterMore<V(!new)>(counts: map<V, nat>, votes: map<Name, V>, s: Name, said: V)
    requires s !in votes && Counts(counts, votes)
    ensures Counts(counts[said := CountOf(counts, said) + 1], votes[s := said])
  {
    hide Voters;
    var counts' := counts[said := CountOf(counts, said) + 1];
    forall v ensures CountOf(counts', v) == |Voters(votes[s := said], v)| {
      VotersAfter(votes, s, said, v);
      assert CountOf(counts, v) == |Voters(votes, v)|;
    }
  }

  method CountItems<V(==, !new)>(votes: map<Name, V>) returns (counts: map<V, nat>)
    ensures Counts(counts, votes)
  {
    hide Voters;
    counts := map[];
    var left := votes.Keys;
    ghost var done: map<Name, V> := map[];
    NoVoters<V>();
    while left != {}
      invariant left <= votes.Keys && done.Keys == votes.Keys - left
      invariant forall s :: s in done ==> done[s] == votes[s]
      invariant Counts(counts, done)
      decreases |left|
    {
      var s :| s in left;
      OneVoterMore(counts, done, s, votes[s]);
      counts := counts[votes[s] := CountOf(counts, votes[s]) + 1];
      done := done[s := votes[s]];
      left := left - {s};
      assert done.Keys == votes.Keys - left;
    }
    assert done == votes;
  }

  /** Something that most nodes said, and how many of them. */
  method MostFrequent<V(==, !new)>(votes: map<Name, V>) returns (best: Option<(V, nat)>)
    ensures best == None ==> forall v :: Voters(votes, v) == {}
    ensures best.Some? ==>
      |Voters(votes, best.value.0)| == best.value.1 && forall v :: |Voters(votes, v)| <= best.value.1
  {
    hide Voters;
    var counts := CountItems(votes);
    var left := counts.Keys;
    best := None;
    while left != {}
      invariant left <= counts.Keys
      invariant best.Some? ==> best.value.0 in counts && counts[best.value.0] == best.value.1
      invariant forall v :: v in counts.Keys - left ==> best.Some? && counts[v] <= best.value.1
      decreases |left|
    {
      var v :| v in left;
      if best == None || counts[v] > best.value.1 {
        best := Some((v, counts[v]));
      }
      left := left - {v};
    }
    forall v ensures |Voters(votes, v)| <= if best.Some? then best.value.1 else 0 {
      assert CountOf(counts, v) == |Voters(votes, v)|;
      assert v in counts ==> v in counts.Keys - left;
    }
    if best.Some? {
      assert CountOf(counts, best.value.0) == |Voters(votes, best.value.0)|;
    }
  }
}
