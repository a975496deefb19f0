/** Where catch-up is not safe: replies that pass the test for gaps and duplicates and still leave a number out.

    The test compares the number of keys with the span of the numbers they read as, but a transaction is looked up under
    the plain decimal form of its number. So a number under two spellings, or one that is misspelled, can hide a gap.
 */
module CatchupGaps {
  import opened Messages
  import opened Ledgers
  import opened Catchup

  // ----- what is appended is what was verified, exactly for contiguous replies -----

  /** Whatever sorted list begins with a number of the reply, the entries verified are those appended. */
  ghost predicate AppendsWhatIsVerified<T(!new), P(!new)>(rep: Rep<T, P>) {
    forall rest: seq<Entry<T>> | Begins(rest, rep) :: BatchFor(rest, rep) == rest[..|BatchFor(rest, rep)|]
  }

  ghost predicate Begins<T, P>(rest: seq<Entry<T>>, rep: Rep<T, P>) {
    Sorted(rest) && |rest| > 0 && 1 <= rest[0].seqNo && rep.Has(rest[0].seqNo)
  }

  /** Between two plain numbers of the reply there is a first one after which one is missing. */
  lemma {:induction false} FirstGap<T, P>(rep: Rep<T, P>, a: int, b: int, s: int) returns (g: int)
    requires 1 <= a && rep.Has(a) && rep.Has(b) && a <= s <= b && !rep.Has(s)
    ensures a <= g < s && rep.Has(g) && !rep.Has(g + 1)
    decreases s - a
  {
    if rep.Has(a + 1) {
      g := FirstGap(rep, a + 1, b, s);
    } else {
      g := a;
    }
  }

  /** A reply that passes the test and has two plain numbers that are not neighbours has at least three items. */
  lemma EnoughItems<T, P>(rep: Rep<T, P>, a: int, b: int)
    requires NoGapsOrDups(rep) && rep.Has(a) && rep.Has(b) && a + 2 <= b
    ensures |rep.items| >= 3
  {
    hide SortedItems;
    var es := SortedItems(rep.Entries());
    SortOk(rep.Entries());
    HasEntry(rep, a);
    HasEntry(rep, b);
    var i := Position(rep.Entries(), es, a);
    var j := Position(rep.Entries(), es, b);
    assert es[0].seqNo <= es[i].seqNo && es[j].seqNo <= es[|es| - 1].seqNo;
  }

  lemma HasEntry<T, P>(rep: Rep<T, P>, s: int)
    requires rep.Has(s)
    ensures exists k :: 0 <= k < |rep.Entries()| && rep.Entries()[k].seqNo == s
  {
    var i :| 0 <= i < |rep.items| && rep.items[i].key == Spelling(s, 0);
    assert rep.Entries()[i].seqNo == s;
  }

  /** The list that shows a gap after `g`: the entry at `g + 1` is skipped by the verification. */
  lemma GapIsSkipped<T, P>(rep: Rep<T, P>, g: int, b: int, x: T, y: T, z: T)
    requires rep.Has(g) && !rep.Has(g + 1) && rep.Has(b) && g + 2 <= b && |rep.items| >= 3
    ensures BatchFor([Entry(g, x), Entry(g + 1, y), Entry(b, z)], rep) == [Entry(g, x), Entry(b, z)]
  {
    var rest := [Entry(g, x), Entry(g + 1, y), Entry(b, z)];
    assert Take(rest, |rep.items|) == rest;
    assert rest[..2] == [rest[0], rest[1]] && rest[..2][..1] == [rest[0]] && rest[..2][..1][..0] == [];
    assert Known([rest[0]], rep) == [rest[0]];
    assert Known(rest[..2], rep) == [rest[0]];
  }

  /** Among the replies that pass the test, the contiguous ones are exactly those for which what is appended is always
      what was verified. */
  lemma AppendedIffContiguous<T(!new), P(!new)>(rep: Rep<T, P>)
    requires NoGapsOrDups(rep)
    ensures Contiguous(rep) <==> AppendsWhatIsVerified(rep)
  {
    hide BatchFor, NoGapsOrDups;
    if Contiguous(rep) {
      forall rest: seq<Entry<T>> | Begins(rest, rep)
        ensures BatchFor(rest, rep) == rest[..|BatchFor(rest, rep)|]
      {
        BatchIsPrefix(rest, rep);
      }
    } else {
      var a, b, s :| 1 <= a && rep.Has(a) && rep.Has(b) && a <= s <= b && !rep.Has(s);
      var g := FirstGap(rep, a, b, s);
      EnoughItems(rep, g, b);
      var t := rep.items[0].txn;
      var rest := [Entry(g, t), Entry(g + 1, t), Entry(b, t)];
      GapIsSkipped(rep, g, b, t, t, t);
      assert Begins(rest, rep);
      assert rest[..2][1] == rest[1];
    }
  }

  // ----- a pass that leaves the target -----

  /** A verifier that accepts exactly the prefixes. */
  ghost function Prefixes<T, P>(): (nat, nat, Root<T>, Root<T>, P) -> bool {
    (m: nat, n: nat, old_: Root<T>, new_: Root<T>, proof: P) => old_.leaves <= new_.leaves
  }

  lemma PrefixesSound<T(!new), P(!new)>()
    ensures Sound(Prefixes<T, P>())
  {}

  /** Every reply that passes the test and leaves a number out can make a pass append what is not in the target: with a
      sound verifier, from a ledger that is a prefix of the target, and with a sorted list of received entries. */
  lemma GapLeavesTarget<T(!new), P(!new)>(rep: Rep<T, P>, name: Name, good: T, junk: T)
    returns (env: Env<T, P>, target: seq<T>, txns: seq<T>, replies: seq<Entry<T>>)
    requires NoGapsOrDups(rep) && !Contiguous(rep) && good != junk
    ensures Sound(env.verify) && txns <= target && Sorted(replies)
    ensures
      var till := Till(|target|, MerkleRoot(target));
      var p := ProcessReplies(env, till, txns, map[name := [rep]], replies);
      txns < p.txns && !(p.txns <= target)
  {
    hide ProcessReplies, NoGapsOrDups, BatchFor;
    var a, b, s :| 1 <= a && rep.Has(a) && rep.Has(b) && a <= s <= b && !rep.Has(s);
    var g := FirstGap(rep, a, b, s);
    EnoughItems(rep, g, b);
    env := Env(Prefixes(), true, [name]);
    PrefixesSound<T, P>();
    txns := seq(g - 1, i => good);
    target := txns + [good, good];
    replies := [Entry(g, good), Entry(g + 1, junk), Entry(b, good)];
    GapIsSkipped(rep, g, b, good, junk, good);
    FoundAlone(env.order, name, rep, g);
    var till, from := Till(|target|, MerkleRoot(target)), map[name := [rep]];
    TakesTwo(env, till, txns, from, replies, name, 0, good, junk, good);
    var from' := Without(from, name, 0);
    assert from'[name] == [] && Find(env.order, from', b) == None;
    PassStops(env, till, txns + [good, junk], from', replies[2..]);
    assert (txns + [good, junk])[g] == junk && target[g] == good;
  }

  /** A pass that verifies the first and the third entry appends the first two. */
  lemma TakesTwo<T, P>(env: Env<T, P>, till: Till<T>, txns: seq<T>, from: map<Name, seq<Rep<T, P>>>,
                       replies: seq<Entry<T>>, name: Name, i: nat, x: T, y: T, z: T)
    requires |replies| >= 3 && AllFrom(|txns| + 1, replies) && replies[0].seqNo == |txns| + 1
    requires replies[0].txn == x && replies[1].txn == y && replies[2].txn == z
    requires Find(env.order, from, |txns| + 1) == Some((name, i)) && name in from && i < |from[name]|
    requires BatchFor(replies, from[name][i]) == [replies[0], replies[2]]
    requires
      var tree := txns + [x, z];
      env.verify(|tree|, till.seqNoEnd, MerkleRoot(tree), till.root, from[name][i].proof)
    ensures
      var q := ProcessReplies(env, till, txns + [x, y], Without(from, name, i), replies[2..]);
      ProcessReplies(env, till, txns, from, replies) == q.(count := 2 + q.count)
  {
    hide BatchFor, Find;
    NoneCounted(replies, |txns|);
    assert replies[0..] == replies;
    assert TxnsOf([replies[0], replies[2]]) == [x, z];
    assert TxnsOf(replies[..2]) == [x, y];
  }

  /** A pass stops where the next number has not come, and breaks off where it is in no stored reply. */
  lemma PassStops<T, P>(env: Env<T, P>, till: Till<T>, txns: seq<T>, from: map<Name, seq<Rep<T, P>>>,
                        replies: seq<Entry<T>>)
    requires |replies| > 0 && AllFrom(|txns| + 1, replies)
    requires replies[0].seqNo > |txns| + 1 || Find(env.order, from, |txns| + 1) == None
    ensures ProcessReplies(env, till, txns, from, replies)
         == Pass(txns, from, {}, 0, replies[0].seqNo == |txns| + 1)
  {
    hide Find;
    NoneCounted(replies, |txns|);
    assert replies[0..] == replies;
  }

  lemma {:induction false} NoneCounted<T>(es: seq<Entry<T>>, size: nat)
    requires AllFrom(size + 1, es)
    ensures CountAtMost(es, size) == 0
    decreases |es|
  {
    if |es| > 0 {
      NoneCounted(es[..|es| - 1], size);
    }
  }

  lemma FoundAlone<T, P>(order: seq<Name>, name: Name, rep: Rep<T, P>, g: int)
    requires order == [name] && rep.Has(g)
    ensures Find(order, map[name := [rep]], g) == Some((name, 0))
  {
    assert FindIn([rep], g) == Some(0);
  }

  // ----- two runs -----

  const A := Name("Alpha")
  const B := Name("Beta")

  /** A ledger that has nothing yet and catches up to `target`. */
  ghost function Fresh(target: seq<int>): Info<int, int> {
    Info([], Syncing, Some(Till(|target|, MerkleRoot(target))), [], map[], {})
  }

  ghost function AnyEnv(order: seq<Name>): Env<int, int> { Env(Prefixes(), true, order) }

  /** What a reply with plain or other keys is worth: its entries are sorted as given. */
  ghost predicate InOrder(rep: Rep<int, int>) {
    |rep.items| > 0 && Sorted(rep.Entries())
  }

  lemma {:induction false} SortedStays<T>(es: seq<Entry<T>>)
    requires Sorted(es)
    ensures SortedItems(es) == es
    decreases |es|
  {
    if |es| > 0 {
      var n := |es| - 1;
      SortedStays(es[..n]);
      InsertAtEnd(es[n], es[..n]);
      assert es == es[..n] + [es[n]];
    }
  }

  lemma {:induction false} InsertAtEnd<T>(e: Entry<T>, es: seq<Entry<T>>)
    requires forall i :: 0 <= i < |es| ==> es[i].seqNo <= e.seqNo
    ensures Insert(e, es) == es + [e]
    decreases |es|
  {
    if |es| > 0 {
      InsertAtEnd(e, es[1..]);
      assert es == [es[0]] + es[1..];
    }
  }

  lemma StoredFirst(from: map<Name, seq<Rep<int, int>>>, frm: Name, rep: Rep<int, int>)
    requires frm !in from || from[frm] == []
    ensures Stored(from, frm, rep) == from[frm := [rep]]
  {
    assert [] + [rep] == [rep];
  }

  lemma DistinctNames()
    ensures A != B
  {
    assert A.text[0] != B.text[0];
  }

  /** What a reply leads to, given the outcome of the pass. */
  lemma TakenIn(env: Env<int, int>, c: Info<int, int>, rep: Rep<int, int>, frm: Name, merged: seq<Entry<int>>)
    requires c.phase == Syncing && c.till.Some? && InOrder(rep)
    requires rep.Entries()[|rep.items| - 1].seqNo > |c.txns|
    requires |rep.items| == rep.Entries()[|rep.items| - 1].seqNo - rep.Entries()[0].seqNo + 1
    requires Merge(c.received, rep.Entries()) == merged
    ensures
      var p := ProcessReplies(env, c.till.value, c.txns, Stored(c.from, frm, rep), merged);
      var c' := c.(txns := p.txns, from := p.from, blacklisted := c.blacklisted + p.blacklisted);
      ProcessRep(env, c, rep, frm)
        == if p.raised then c'
           else if c.till.value.seqNoEnd == |p.txns|
           then c'.(received := merged[p.count..], till := None, phase := Synced)
           else c'.(received := merged[p.count..])
  {
    hide ProcessReplies, SortedItems, Merge;
    SortedStays(rep.Entries());
    assert Usable(c, rep) == rep.Entries();
  }

  /** One number under two keys. Beta sends something else as number 2. Alpha's reply has 1 and, twice, 3: as many keys
      as the span asks for. The proof covers 1 and what it calls 3, and Beta's number 2 is appended. */
  lemma TwoSpellings()
    ensures
      var target := [10, 20, 30];
      var early := Reply(Rep([Item(Spelling(2, 0), 99)], 0), B, [B]);
      var twice := Reply(
        Rep([Item(Spelling(1, 0), 10), Item(Spelling(3, 0), 20), Item(Spelling(3, 1), 20)], 0), A, [A, B]);
      var c := Process(AnyEnv([]), Fresh(target), [early, twice]);
      && Sound(AnyEnv([]).verify) && early.rep.IsDict() && twice.rep.IsDict()
      && c.txns == [10, 99] && !(c.txns <= target)
  {
    hide ProcessRep;
    PrefixesSound<int, int>();
    DistinctNames();
    var target := [10, 20, 30];
    var early := Rep([Item(Spelling(2, 0), 99)], 0);
    var twice := Rep([Item(Spelling(1, 0), 10), Item(Spelling(3, 0), 20), Item(Spelling(3, 1), 20)], 0);
    var events := [Reply(early, B, [B]), Reply(twice, A, [A, B])];
    assert events[..1] == [events[0]] && events[..1][..0] == [];
    assert AnyEnv([]).(order := [B]) == AnyEnv([B]) && AnyEnv([]).(order := [A, B]) == AnyEnv([A, B]);
    EarlyWaits(target, early);
    assert Process(AnyEnv([]), Fresh(target), events[..1])
        == Fresh(target).(received := [Entry(2, 99)], from := map[B := [early]]);
    TwiceAppends(target, early, twice);
    assert [10, 99][1] != target[1];
  }

  lemma EarlyWaits(target: seq<int>, early: Rep<int, int>)
    requires early == Rep([Item(Spelling(2, 0), 99)], 0) && |target| == 3
    ensures ProcessRep(AnyEnv([B]), Fresh(target), early, B)
         == Fresh(target).(received := [Entry(2, 99)], from := map[B := [early]])
  {
    hide ProcessReplies, ProcessRep;
    var c := Fresh(target);
    var es := [Entry(2, 99)];
    assert early.Entries() == es;
    TakenIn(AnyEnv([B]), c, early, B, es);
    StoredFirst(c.from, B, early);
    PassStops(AnyEnv([B]), c.till.value, c.txns, map[B := [early]], es);
    assert es[0..] == es && c.blacklisted + {} == c.blacklisted;
  }

  lemma TwiceAppends(target: seq<int>, early: Rep<int, int>, twice: Rep<int, int>)
    requires target == [10, 20, 30] && early == Rep([Item(Spelling(2, 0), 99)], 0)
    requires twice == Rep([Item(Spelling(1, 0), 10), Item(Spelling(3, 0), 20), Item(Spelling(3, 1), 20)], 0)
    ensures
      var c := Fresh(target).(received := [Entry(2, 99)], from := map[B := [early]]);
      ProcessRep(AnyEnv([A, B]), c, twice, A).txns == [10, 99]
  {
    hide ProcessReplies, ProcessRep;
    var c := Fresh(target).(received := [Entry(2, 99)], from := map[B := [early]]);
    var merged := [Entry(1, 10), Entry(2, 99), Entry(3, 20), Entry(3, 20)];
    var es := [Entry(1, 10), Entry(3, 20), Entry(3, 20)];
    assert twice.Entries() == es;
    MergedTwice();
    TakenIn(AnyEnv([A, B]), c, twice, A, merged);
    var from := map[A := [twice], B := [early]];
    StoredFirst(c.from, A, twice);
    DistinctNames();
    assert c.from[A := [twice]] == from;
    PassOfTwice(target, early, twice, merged);
  }

  lemma PassOfTwice(target: seq<int>, early: Rep<int, int>, twice: Rep<int, int>, merged: seq<Entry<int>>)
    requires target == [10, 20, 30] && early == Rep([Item(Spelling(2, 0), 99)], 0)
    requires twice == Rep([Item(Spelling(1, 0), 10), Item(Spelling(3, 0), 20), Item(Spelling(3, 1), 20)], 0)
    requires merged == [Entry(1, 10), Entry(2, 99), Entry(3, 20), Entry(3, 20)]
    ensures
      var from := map[A := [twice], B := [early]];
      ProcessReplies(AnyEnv([A, B]), Till(3, MerkleRoot(target)), [], from, merged).txns == [10, 99]
  {
    hide ProcessReplies, BatchFor;
    DistinctNames();
    var env, till, from := AnyEnv([A, B]), Till(3, MerkleRoot(target)), map[A := [twice], B := [early]];
    assert twice.items[0].key == Spelling(1, 0) && twice.items[1].key == Spelling(3, 0);
    assert twice.Has(1) && !twice.Has(2) && twice.Has(3);
    assert FindIn(from[A], 1) == Some(0) && Find(env.order, from, 1) == Some((A, 0));
    GapIsSkipped(twice, 1, 3, 10, 99, 20);
    OnlyTheFirst(merged, [Entry(1, 10), Entry(2, 99), Entry(3, 20)], twice);
    assert [] + [10, 20] == [10, 20] <= target && [] + [10, 99] == [10, 99];
    TakesTwo(env, till, [], from, merged, A, 0, 10, 99, 20);
    var from' := Without(from, A, 0);
    assert from'[A] == [] && from'[B] == [early] && !early.Has(3);
    assert FindIn(from'[A], 3) == None && FindIn(from'[B], 3) == None;
    NotFound(from', 3);
    PassStops(env, till, [10, 99], from', merged[2..]);
  }

  lemma NotFound(from: map<Name, seq<Rep<int, int>>>, s: int)
    requires A in from && B in from && FindIn(from[A], s) == None && FindIn(from[B], s) == None
    ensures Find([A, B], from, s) == None
  {
    assert [A, B][1..] == [B] && [B][1..] == [];
    assert Find([B], from, s) == None;
  }

  lemma OnlyTheFirst(rest: seq<Entry<int>>, first: seq<Entry<int>>, rep: Rep<int, int>)
    requires |first| == |rep.items| && first <= rest
    ensures BatchFor(rest, rep) == BatchFor(first, rep)
  {
    assert Take(rest, |rep.items|) == first == Take(first, |rep.items|);
  }

  lemma MergedTwice()
    ensures Merge([Entry(2, 99)], [Entry(1, 10), Entry(3, 20), Entry(3, 20)])
         == [Entry(1, 10), Entry(2, 99), Entry(3, 20), Entry(3, 20)]
  {
    var a, b := [Entry(2, 99)], [Entry(1, 10), Entry(3, 20), Entry(3, 20)];
    assert b[1..] == [Entry(3, 20), Entry(3, 20)] && a[1..] == [];
    assert Merge(a, b[1..]) == [a[0]] + Merge(a[1..], b[1..]);
  }

  /** One number misspelled, and catch-up completes. A reply has 1, 2 with a leading zero, and 3: the proof covers 1 and
      what it calls 3, and the other transaction is appended. The next reply finds the ledger long enough. */
  lemma MisspelledCompletes()
    ensures
      var target := [10, 20];
      var misspelled := Reply(
        Rep([Item(Spelling(1, 0), 10), Item(Spelling(2, 1), 99), Item(Spelling(3, 0), 20)], 0), A, [A]);
      var last := Reply(Rep([Item(Spelling(3, 0), 0)], 0), A, [A]);
      var c := Process(AnyEnv([]), Fresh(target), [misspelled, last]);
      && Sound(AnyEnv([]).verify) && misspelled.rep.IsDict() && last.rep.IsDict()
      && c.phase == Synced && c.txns == [10, 99] != target
  {
    hide ProcessRep;
    PrefixesSound<int, int>();
    var target := [10, 20];
    var misspelled := Rep([Item(Spelling(1, 0), 10), Item(Spelling(2, 1), 99), Item(Spelling(3, 0), 20)], 0);
    var last := Rep([Item(Spelling(3, 0), 0)], 0);
    var events := [Reply(misspelled, A, [A]), Reply(last, A, [A])];
    assert events[..1] == [events[0]] && events[..1][..0] == [];
    assert AnyEnv([]).(order := [A]) == AnyEnv([A]);
    MisspelledAppends(target, misspelled);
    assert Process(AnyEnv([]), Fresh(target), events[..1]) == Fresh(target).(txns := [10, 99], from := map[A := []]);
    LastCompletes(target, last);
  }

  lemma MisspelledAppends(target: seq<int>, misspelled: Rep<int, int>)
    requires target == [10, 20]
    requires misspelled == Rep([Item(Spelling(1, 0), 10), Item(Spelling(2, 1), 99), Item(Spelling(3, 0), 20)], 0)
    ensures ProcessRep(AnyEnv([A]), Fresh(target), misspelled, A)
         == Fresh(target).(txns := [10, 99], from := map[A := []])
  {
    hide ProcessReplies, ProcessRep;
    var c := Fresh(target);
    var es := [Entry(1, 10), Entry(2, 99), Entry(3, 20)];
    assert misspelled.Entries() == es;
    TakenIn(AnyEnv([A]), c, misspelled, A, es);
    StoredFirst(c.from, A, misspelled);
    PassOfMisspelled(target, misspelled, es);
    assert c.blacklisted + {} == c.blacklisted;
  }

  lemma PassOfMisspelled(target: seq<int>, misspelled: Rep<int, int>, es: seq<Entry<int>>)
    requires target == [10, 20] && es == [Entry(1, 10), Entry(2, 99), Entry(3, 20)]
    requires misspelled == Rep([Item(Spelling(1, 0), 10), Item(Spelling(2, 1), 99), Item(Spelling(3, 0), 20)], 0)
    ensures ProcessReplies(AnyEnv([A]), Till(2, MerkleRoot(target)), [], map[A := [misspelled]], es)
         == Pass([10, 99], map[A := []], {}, 2, true)
  {
    hide ProcessReplies, BatchFor;
    var env, till, from := AnyEnv([A]), Till(2, MerkleRoot(target)), map[A := [misspelled]];
    assert misspelled.items[0].key == Spelling(1, 0) && misspelled.items[2].key == Spelling(3, 0);
    assert misspelled.Has(1) && !misspelled.Has(2) && misspelled.Has(3);
    FoundAlone([A], A, misspelled, 1);
    GapIsSkipped(misspelled, 1, 3, 10, 99, 20);
    assert [] + [10, 20] == [10, 20] && [] + [10, 99] == [10, 99];
    TakesTwo(env, till, [], from, es, A, 0, 10, 99, 20);
    var from': map<Name, seq<Rep<int, int>>> := map[A := []];
    assert Without(from, A, 0) == from';
    assert Find([A], from', 3) == None by { assert [A][1..] == []; }
    PassStops(env, till, [10, 99], from', es[2..]);
  }

  lemma LastCompletes(target: seq<int>, last: Rep<int, int>)
    requires target == [10, 20] && last == Rep([Item(Spelling(3, 0), 0)], 0)
    ensures
      var c := ProcessRep(AnyEnv([A]), Fresh(target).(txns := [10, 99], from := map[A := []]), last, A);
      c.phase == Synced && c.txns == [10, 99]
  {
    hide ProcessRep, ProcessReplies;
    var c := Fresh(target).(txns := [10, 99], from := map[A := []]);
    var es := [Entry(3, 0)];
    assert last.Entries() == es;
    TakenIn(AnyEnv([A]), c, last, A, es);
    StoredFirst(c.from, A, last);
    assert c.from[A := [last]] == map[A := [last]];
    PassOfLast(target, last, es);
  }

  lemma PassOfLast(target: seq<int>, last: Rep<int, int>, es: seq<Entry<int>>)
    requires target == [10, 20] && last == Rep([Item(Spelling(3, 0), 0)], 0) && es == [Entry(3, 0)]
    ensures
      var p := ProcessReplies(AnyEnv([A]), Till(2, MerkleRoot(target)), [10, 99], map[A := [last]], es);
      p.txns == [10, 99] && !p.raised
  {
    assert last.items[0].key == Spelling(3, 0);
    FoundAlone([A], A, last, 3);
    NoneCounted(es, 2);
    assert es[0..] == es && Take(es, 1) == es && es[..0] == [];
    assert BatchFor(es, last) == es;
    assert TxnsOf(es) == [0] && [10, 99] + [0] == [10, 99, 0];
    assert !([10, 99, 0] <= target);
  }
}
