/** What becomes of a reply that does not verify: who is blacklisted, what is dropped, and what is left to do. */
module CatchupFailures {
  import opened Messages
  import opened Ledgers
  import opened Catchup
  import opened CatchupGaps

  // ----- how a pass ends -----

  /** The next number is at the head of the list, and the reply found for it does not verify. */
  ghost predicate Fails<T, P>(env: Env<T, P>, till: Till<T>, txns: seq<T>, from: map<Name, seq<Rep<T, P>>>,
                              rest: seq<Entry<T>>, w: Name, i: nat)
  {
    && |rest| > 0 && rest[0].seqNo == |txns| + 1 && Find(env.order, from, |txns| + 1) == Some((w, i))
    && var tree := txns + TxnsOf(BatchFor(rest, from[w][i]));
       !env.verify(|tree|, till.seqNoEnd, MerkleRoot(tree), till.root, from[w][i].proof)
  }

  /** The stored replies differ only by some that are gone. */
  ghost predicate SomeGone<T, P>(from: map<Name, seq<Rep<T, P>>>, from': map<Name, seq<Rep<T, P>>>) {
    from'.Keys == from.Keys && forall name :: name in from ==> multiset(from'[name]) <= multiset(from[name])
  }

  lemma WithoutGone<T, P>(from: map<Name, seq<Rep<T, P>>>, name: Name, i: nat, from': map<Name, seq<Rep<T, P>>>)
    requires name in from && i < |from[name]| && SomeGone(Without(from, name, i), from')
    ensures SomeGone(from, from')
  {
    OneLess(from[name], i);
    forall who | who in from ensures multiset(from'[who]) <= multiset(from[who]) {
      assert who in Without(from, name, i);
      assert multiset(from'[who]) <= multiset(Without(from, name, i)[who]);
    }
  }

  lemma OneLess<T>(s: seq<T>, i: nat)
    requires i < |s|
    ensures multiset(s[..i] + s[i + 1..]) <= multiset(s)
  {
    assert s == s[..i] + [s[i]] + s[i + 1..];
  }

  /** How a pass ends. `rest` is the part of the sorted list that is left when the last reply has been taken in, and
      `from'` what is stored then. Someone is blacklisted exactly if the manager belongs to a node and the next reply
      there does not verify: its sender and nobody else, that one reply goes, and with it the entries it accounts for.
      Otherwise nothing more changes. And the pass goes on as long as it can: it ends only where the next number has not
      come, is in no stored reply, or does not verify. */
  ghost predicate EndsWith<T, P>(env: Env<T, P>, till: Till<T>, replies: seq<Entry<T>>, p: Pass<T, P>,
                                 from': map<Name, seq<Rep<T, P>>>, rest: seq<Entry<T>>, w: Name, i: nat)
  {
    var next := |p.txns| + 1;
    && |rest| <= |replies| && rest == replies[|replies| - |rest|..] && AllFrom(next, rest) && p.count <= |replies|
    && (p.blacklisted != {} <==> env.ownedByNode && Fails(env, till, p.txns, from', rest, w, i))
    && (p.blacklisted != {} ==>
          && p.blacklisted == {w} && !p.raised && p.from == Without(from', w, i)
          && replies[p.count..] == rest[|BatchFor(rest, from'[w][i])|..])
    && (p.blacklisted == {} ==>
          && p.from == from' && replies[p.count..] == rest
          && (p.raised <==> |rest| > 0 && rest[0].seqNo == next && Find(env.order, from', next) == None)
          && (|rest| > 0 && rest[0].seqNo == next && !p.raised ==>
                !env.ownedByNode && Fails(env, till, p.txns, from', rest, w, i)))
  }

  lemma {:induction false} PassEnds<T, P>(env: Env<T, P>, till: Till<T>, txns: seq<T>, from: map<Name, seq<Rep<T, P>>>,
                                         replies: seq<Entry<T>>)
    returns (from': map<Name, seq<Rep<T, P>>>, rest: seq<Entry<T>>, w: Name, i: nat)
    requires Sorted(replies)
    ensures SomeGone(from, from')
    ensures EndsWith(env, till, replies, ProcessReplies(env, till, txns, from, replies), from', rest, w, i)
    decreases |replies|
  {
    hide BatchFor, Find, CountAtMost, TxnsOf, EndsWith, SomeGone, ProcessReplies, Without;
    SameGone(from);
    var n := CountAtMost(replies, |txns|);
    from', rest, w, i := from, replies[n..], Name(""), 0;
    var next := Find(env.order, from, |txns| + 1);
    if |rest| > 0 && rest[0].seqNo == |txns| + 1 && next.Some? {
      w, i := next.value.0, next.value.1;
      var batch := BatchFor(rest, from[w][i]);
      if Fails(env, till, txns, from, rest, w, i) {
        EndsHere(env, till, txns, from, replies, w, i);
      } else {
        var from1, rest1, txns1 := Without(from, w, i), rest[|batch|..], txns + TxnsOf(rest[..|batch|]);
        var w1, i1 := w, i;
        from', rest, w, i := PassEnds(env, till, txns1, from1, rest1);
        WithoutGone(from, w1, i1, from');
        var p1 := ProcessReplies(env, till, txns1, from1, rest1);
        SuffixOf(replies, n, |batch|);
        TakesReply(env, till, txns, from, replies, w1, i1);
        EndsLater(env, till, replies, n + |batch|, p1, from', rest, w, i);
      }
    } else {
      EndsHere(env, till, txns, from, replies, w, i);
    }
  }

  /** A reply that verifies is taken in, and the pass goes on. */
  lemma TakesReply<T, P>(env: Env<T, P>, till: Till<T>, txns: seq<T>, from: map<Name, seq<Rep<T, P>>>,
                         replies: seq<Entry<T>>, w: Name, i: nat)
    requires
      var rest := replies[CountAtMost(replies, |txns|)..];
      && |rest| > 0 && rest[0].seqNo == |txns| + 1 && Find(env.order, from, |txns| + 1) == Some((w, i))
      && !Fails(env, till, txns, from, rest, w, i)
    ensures w in from && i < |from[w]|
    ensures
      var n := CountAtMost(replies, |txns|);
      var rest := replies[n..];
      var k := |BatchFor(rest, from[w][i])|;
      var p := ProcessReplies(env, till, txns + TxnsOf(rest[..k]), Without(from, w, i), rest[k..]);
      0 < k <= |rest| && ProcessReplies(env, till, txns, from, replies) == p.(count := n + k + p.count)
  {
    hide BatchFor, Find, CountAtMost, TxnsOf;
  }

  lemma SameGone<T, P>(from: map<Name, seq<Rep<T, P>>>)
    ensures SomeGone(from, from)
  {}

  /** The pass ends without taking anything in. */
  lemma EndsHere<T, P>(env: Env<T, P>, till: Till<T>, txns: seq<T>, from: map<Name, seq<Rep<T, P>>>,
                       replies: seq<Entry<T>>, w: Name, i: nat)
    requires Sorted(replies)
    requires
      var rest := replies[CountAtMost(replies, |txns|)..];
      || Fails(env, till, txns, from, rest, w, i)
      || (!(|rest| > 0 && rest[0].seqNo == |txns| + 1 && Find(env.order, from, |txns| + 1).Some?))
    ensures
      var rest := replies[CountAtMost(replies, |txns|)..];
      EndsWith(env, till, replies, ProcessReplies(env, till, txns, from, replies), from, rest, w, i)
  {
    hide BatchFor, Find, CountAtMost, TxnsOf;
    var n := CountAtMost(replies, |txns|);
    SkippedComeFirst(replies, |txns|);
    var rest := replies[n..];
    if Fails(env, till, txns, from, rest, w, i) {
      SuffixOf(replies, n, |BatchFor(rest, from[w][i])|);
    }
  }

  /** What comes after a reply that was taken in. */
  lemma EndsLater<T, P>(env: Env<T, P>, till: Till<T>, replies: seq<Entry<T>>, k: nat, p: Pass<T, P>,
                        from': map<Name, seq<Rep<T, P>>>, rest: seq<Entry<T>>, w: Name, i: nat)
    requires k <= |replies| && EndsWith(env, till, replies[k..], p, from', rest, w, i)
    ensures EndsWith(env, till, replies, p.(count := k + p.count), from', rest, w, i)
  {
    hide BatchFor, Find, Fails;
    SuffixOf(replies, k, |replies| - k - |rest|);
    SuffixOf(replies, k, p.count);
  }

  lemma SuffixOf<T>(s: seq<T>, a: nat, b: nat)
    requires a + b <= |s|
    ensures s[a..][b..] == s[a + b..]
  {}

  /** A pass of a node that blacklists nobody and does not break off has used all it could: what is left is beyond the
      next number. */
  lemma PassIsThorough<T, P>(env: Env<T, P>, till: Till<T>, txns: seq<T>, from: map<Name, seq<Rep<T, P>>>,
                             replies: seq<Entry<T>>)
    requires Sorted(replies) && env.ownedByNode
    ensures
      var p := ProcessReplies(env, till, txns, from, replies);
      p.blacklisted == {} && !p.raised ==>
        forall j :: p.count <= j < |replies| ==> replies[j].seqNo > |p.txns| + 1
  {
    hide ProcessReplies, BatchFor, Find;
    var from', rest, w, i := PassEnds(env, till, txns, from, replies);
    var p := ProcessReplies(env, till, txns, from, replies);
    if p.blacklisted == {} && !p.raised {
      forall j | p.count <= j < |replies| ensures replies[j].seqNo > |p.txns| + 1 {
        assert replies[j] == rest[j - p.count];
        assert replies[p.count] == rest[0];
      }
    }
  }

  /** What a reply that is used leads to, given how the pass over the merged list ends. What is left of the list is
      kept, unless the pass breaks off: then the list from before is kept, without the reply's own entries. Catch-up
      is over exactly if the pass did not break off and the ledger has the size it is to have. */
  lemma ReplyOutcome<T, P>(env: Env<T, P>, c: Info<T, P>, rep: Rep<T, P>, frm: Name)
    requires c.phase == Syncing && c.till.Some? && |Usable(c, rep)| > 0
    ensures
      var merged := Merge(c.received, Usable(c, rep));
      var p := ProcessReplies(env, c.till.value, c.txns, Stored(c.from, frm, rep), merged);
      var c' := ProcessRep(env, c, rep, frm);
      && c'.txns == p.txns && c'.from == p.from && c'.blacklisted == c.blacklisted + p.blacklisted
      && c'.received == (if p.raised then c.received else merged[p.count..])
      && (c'.phase == Synced <==> !p.raised && |p.txns| == c.till.value.seqNoEnd)
      && c'.till == (if c'.phase == Synced then None else c.till)
  {
    hide ProcessReplies, Merge, Usable;
  }

  // ----- an honest sender on the blacklist -----

  /** A reply with one transaction. */
  function Single(seqNo: nat, txn: int): Rep<int, int> { Rep([Item(Spelling(seqNo, 0), txn)], 0) }

  lemma SingleIs(seqNo: nat, txn: int, s: int)
    ensures Single(seqNo, txn).Entries() == [Entry(seqNo, txn)]
    ensures Single(seqNo, txn).Has(s) <==> s == seqNo
  {
    assert Single(seqNo, txn).items[0].key == Spelling(seqNo, 0);
  }

  /** Beta claims that transaction 2 is 99, Alpha says truly that it is 20; both wait for transaction 1. When that
      comes, Alpha's reply is looked at together with Beta's entry, does not verify, and Alpha is blacklisted. */
  lemma HonestBlacklisted()
    ensures
      var target := [10, 20];
      var events := [Reply(Single(2, 99), B, [B]), Reply(Single(2, 20), A, [A, B]), Reply(Single(1, 10), A, [A, B])];
      var c := Process(AnyEnv([]), Fresh(target), events);
      && Sound(AnyEnv([]).verify)
      && c.txns == [10] && c.blacklisted == {A} && c.phase == Syncing && c.received == [Entry(2, 20)]
  {
    hide ProcessRep;
    PrefixesSound<int, int>();
    var target := [10, 20];
    var events := [Reply(Single(2, 99), B, [B]), Reply(Single(2, 20), A, [A, B]), Reply(Single(1, 10), A, [A, B])];
    assert events[..2][..1] == events[..1] && events[..1][..0] == [] && events[..3] == events;
    assert AnyEnv([]).(order := [B]) == AnyEnv([B]) && AnyEnv([]).(order := [A, B]) == AnyEnv([A, B]);
    var c1 := Fresh(target).(received := [Entry(2, 99)], from := map[B := [Single(2, 99)]]);
    var c2 := c1.(received := [Entry(2, 99), Entry(2, 20)],
                  from := map[A := [Single(2, 20)], B := [Single(2, 99)]]);
    FirstWaits();
    assert Process(AnyEnv([]), Fresh(target), events[..1]) == c1;
    SecondWaits();
    assert Process(AnyEnv([]), Fresh(target), events[..2]) == c2;
    ThirdFails();
  }

  lemma FirstWaits()
    ensures
      var c := Fresh([10, 20]);
      ProcessRep(AnyEnv([B]), c, Single(2, 99), B)
        == c.(received := [Entry(2, 99)], from := map[B := [Single(2, 99)]])
  {
    hide ProcessReplies, ProcessRep;
    var c, es := Fresh([10, 20]), [Entry(2, 99)];
    SingleIs(2, 99, 2);
    TakenIn(AnyEnv([B]), c, Single(2, 99), B, es);
    StoredFirst(c.from, B, Single(2, 99));
    PassStops(AnyEnv([B]), c.till.value, c.txns, map[B := [Single(2, 99)]], es);
    assert es[0..] == es && c.blacklisted + {} == c.blacklisted;
  }

  lemma SecondWaits()
    ensures
      var c := Fresh([10, 20]).(received := [Entry(2, 99)], from := map[B := [Single(2, 99)]]);
      ProcessRep(AnyEnv([A, B]), c, Single(2, 20), A)
        == c.(received := [Entry(2, 99), Entry(2, 20)], from := map[A := [Single(2, 20)], B := [Single(2, 99)]])
  {
    hide ProcessReplies, ProcessRep;
    var c := Fresh([10, 20]).(received := [Entry(2, 99)], from := map[B := [Single(2, 99)]]);
    var merged := [Entry(2, 99), Entry(2, 20)];
    var from := map[A := [Single(2, 20)], B := [Single(2, 99)]];
    SingleIs(2, 20, 2);
    assert Merge(c.received, [Entry(2, 20)]) == [Entry(2, 99)] + Merge([], [Entry(2, 20)]);
    TakenIn(AnyEnv([A, B]), c, Single(2, 20), A, merged);
    DistinctNames();
    StoredFirst(c.from, A, Single(2, 20));
    assert c.from[A := [Single(2, 20)]] == from;
    PassStops(AnyEnv([A, B]), c.till.value, c.txns, from, merged);
    assert merged[0..] == merged && c.blacklisted + {} == c.blacklisted;
  }

  lemma ThirdFails()
    ensures
      var c := Fresh([10, 20]).(received := [Entry(2, 99), Entry(2, 20)],
                                from := map[A := [Single(2, 20)], B := [Single(2, 99)]]);
      var c' := ProcessRep(AnyEnv([A, B]), c, Single(1, 10), A);
      c'.txns == [10] && c'.blacklisted == {A} && c'.phase == Syncing && c'.received == [Entry(2, 20)]
  {
    hide ProcessReplies, ProcessRep;
    var c := Fresh([10, 20]).(received := [Entry(2, 99), Entry(2, 20)],
                              from := map[A := [Single(2, 20)], B := [Single(2, 99)]]);
    var merged := [Entry(1, 10), Entry(2, 99), Entry(2, 20)];
    SingleIs(1, 10, 1);
    assert Merge(c.received, [Entry(1, 10)]) == [Entry(1, 10)] + Merge(c.received, []);
    TakenIn(AnyEnv([A, B]), c, Single(1, 10), A, merged);
    var from := map[A := [Single(2, 20), Single(1, 10)], B := [Single(2, 99)]];
    DistinctNames();
    assert [Single(2, 20)] + [Single(1, 10)] == [Single(2, 20), Single(1, 10)];
    assert Stored(c.from, A, Single(1, 10)) == from;
    PassOfThird(c.till.value, from, merged);
    assert merged[2..] == [Entry(2, 20)];
  }

  lemma PassOfThird(till: Till<int>, from: map<Name, seq<Rep<int, int>>>, merged: seq<Entry<int>>)
    requires till == Till(2, MerkleRoot([10, 20])) && merged == [Entry(1, 10), Entry(2, 99), Entry(2, 20)]
    requires from == map[A := [Single(2, 20), Single(1, 10)], B := [Single(2, 99)]]
    ensures
      var p := ProcessReplies(AnyEnv([A, B]), till, [], from, merged);
      p.txns == [10] && p.blacklisted == {A} && p.count == 2 && !p.raised
  {
    hide ProcessReplies, BatchFor, Find;
    var env := AnyEnv([A, B]);
    DistinctNames();
    assert from[A] == [Single(2, 20)] + [Single(1, 10)];
    FindsSecond(from);
    BatchOfOne(merged, 1, 10);
    var from1 := Without(from, A, 1);
    assert from1[A] == [Single(2, 20)];
    assert merged[1..] == [Entry(2, 99), Entry(2, 20)];
    TakesOne(env, till, from, merged);
    FindsOnly(from1);
    BatchOfOne(merged[1..], 2, 20);
    StopsAtBad(env, till, from1, merged[1..]);
  }

  lemma FindsSecond(from: map<Name, seq<Rep<int, int>>>)
    requires A in from && from[A] == [Single(2, 20), Single(1, 10)]
    ensures Find([A, B], from, 1) == Some((A, 1))
  {
    SingleIs(2, 20, 1);
    SingleIs(1, 10, 1);
    assert from[A][1..] == [Single(1, 10)];
    assert FindIn([Single(1, 10)], 1) == Some(0);
    assert FindIn(from[A], 1) == Some(1);
  }

  lemma FindsOnly(from: map<Name, seq<Rep<int, int>>>)
    requires A in from && from[A] == [Single(2, 20)]
    ensures Find([A, B], from, 2) == Some((A, 0))
  {
    SingleIs(2, 20, 2);
    assert FindIn(from[A], 2) == Some(0);
  }

  /** A reply with one transaction accounts for the first entry, whatever that holds. */
  lemma BatchOfOne(rest: seq<Entry<int>>, seqNo: nat, txn: int)
    requires |rest| > 0 && rest[0].seqNo == seqNo
    ensures BatchFor(rest, Single(seqNo, txn)) == [rest[0]]
  {
    SingleIs(seqNo, txn, seqNo);
    assert Take(rest, 1) == [rest[0]];
    assert [rest[0]][..0] == [];
    assert Known([rest[0]], Single(seqNo, txn)) == Known([], Single(seqNo, txn)) + [rest[0]];
  }

  lemma TakesOne(env: Env<int, int>, till: Till<int>, from: map<Name, seq<Rep<int, int>>>, replies: seq<Entry<int>>)
    requires env == AnyEnv([A, B]) && till == Till(2, MerkleRoot([10, 20]))
    requires |replies| == 3 && AllFrom(1, replies) && replies[0] == Entry(1, 10)
    requires A in from && |from[A]| == 2 && from[A][1] == Single(1, 10) && Find(env.order, from, 1) == Some((A, 1))
    requires BatchFor(replies, Single(1, 10)) == [replies[0]]
    ensures
      var q := ProcessReplies(env, till, [10], Without(from, A, 1), replies[1..]);
      ProcessReplies(env, till, [], from, replies) == q.(count := 1 + q.count)
  {
    hide BatchFor, Find;
    NoneCounted(replies, 0);
    assert replies[0..] == replies && replies[..1] == [replies[0]];
    assert TxnsOf([replies[0]]) == [10] && [] + [10] == [10];
    assert [10] <= [10, 20];
  }

  lemma StopsAtBad(env: Env<int, int>, till: Till<int>, from: map<Name, seq<Rep<int, int>>>, replies: seq<Entry<int>>)
    requires env == AnyEnv([A, B]) && till == Till(2, MerkleRoot([10, 20]))
    requires |replies| == 2 && AllFrom(2, replies) && replies[0] == Entry(2, 99)
    requires A in from && from[A] == [Single(2, 20)] && Find(env.order, from, 2) == Some((A, 0))
    requires BatchFor(replies, Single(2, 20)) == [replies[0]]
    ensures
      var p := ProcessReplies(env, till, [10], from, replies);
      p.txns == [10] && p.blacklisted == {A} && p.count == 1 && !p.raised
  {
    hide BatchFor, Find;
    NoneCounted(replies, 1);
    assert replies[0..] == replies;
    assert TxnsOf([replies[0]]) == [99];
    assert ([10] + [99])[1] != [10, 20][1];
  }
}
