/** How a lagging ledger takes in the replies of other nodes.

    The verifier of consistency proofs is a parameter: what it is relied on for is the soundness of section 2.1.2 of
    RFC 6962. A root is an injective function of the list of transactions.
 */
module Catchup {
  import opened Messages
  import opened Ledgers

  datatype Entry<T> = Entry(seqNo: int, txn: T)

  /** A key of a reply: a string that reads as a number. Variant 0 is the plain decimal form, `str(number)`; the others
      are the other strings that `int` takes for the same number, such as one with a leading zero. */
  datatype Spelling = Spelling(number: int, variant: nat)

  datatype Item<T> = Item(key: Spelling, txn: T)

  /** A CATCHUP_REP: the items of a dictionary of transactions, in its own order, and a proof that a ledger that ends
      with the last of them is a prefix of the target. */
  datatype Rep<T, P> = Rep(items: seq<Item<T>>, proof: P)
  {
    /** `str(seqNo) in txns`. */
    predicate Has(seqNo: int) { exists i :: 0 <= i < |items| && items[i].key == Spelling(seqNo, 0) }

    /** The items with their keys read as numbers. */
    function Entries(): seq<Entry<T>> {
      seq(|items|, i requires 0 <= i < |items| => Entry(items[i].key.number, items[i].txn))
    }

    /** A dictionary has no key twice. */
    predicate IsDict() { forall i, j :: 0 <= i < j < |items| ==> items[i].key != items[j].key }

    /** Every number is spelled plainly. */
    predicate IsPlain() { forall i :: 0 <= i < |items| ==> items[i].key.variant == 0 }
  }

  /** The target: the part of a CONSISTENCY_PROOF that catch-up goes by. */
  datatype Till<T> = Till(seqNoEnd: nat, root: Root<T>)

  datatype Phase = NotSynced | Syncing | Synced

  datatype Info<T, P> =
    Info(txns: seq<T>, phase: Phase, till: Option<Till<T>>, received: seq<Entry<T>>,
         from: map<Name, seq<Rep<T, P>>>, blacklisted: set<Name>)

  /** What lies outside: the verifier, who owns the manager, and the order in which the senders are looked through. */
  datatype Env<!T, !P> =
    Env(verify: (nat, nat, Root<T>, Root<T>, P) -> bool, ownedByNode: bool, order: seq<Name>)

  ghost predicate Sound<T(!new), P(!new)>(verify: (nat, nat, Root<T>, Root<T>, P) -> bool) {
    forall a: seq<T>, b: seq<T>, proof ::
      verify(|a|, |b|, MerkleRoot(a), MerkleRoot(b), proof) ==> a <= b
  }

  // ----- sorting -----

  predicate Sorted<T>(es: seq<Entry<T>>) {
    forall i, j :: 0 <= i < j < |es| ==> es[i].seqNo <= es[j].seqNo
  }

  predicate AllFrom<T>(seqNo: int, es: seq<Entry<T>>) {
    forall i :: 0 <= i < |es| ==> seqNo <= es[i].seqNo
  }

  function Insert<T>(e: Entry<T>, es: seq<Entry<T>>): seq<Entry<T>>
    decreases |es|
  {
    if |es| == 0 || e.seqNo < es[0].seqNo then [e] + es else [es[0]] + Insert(e, es[1..])
  }

  /** `sorted(..., key=itemgetter(0))`. */
  function SortedItems<T>(items: seq<Entry<T>>): seq<Entry<T>>
    decreases |items|
  {
    if |items| == 0 then [] else Insert(items[|items| - 1], SortedItems(items[..|items| - 1]))
  }

  lemma SortedCons<T>(e: Entry<T>, es: seq<Entry<T>>)
    requires Sorted(es) && AllFrom(e.seqNo, es)
    ensures Sorted([e] + es)
  {}

  lemma {:induction false} InsertElements<T>(e: Entry<T>, es: seq<Entry<T>>)
    ensures multiset(Insert(e, es)) == multiset(es) + multiset{e}
    ensures |Insert(e, es)| == |es| + 1
    decreases |es|
  {
    if |es| > 0 && e.seqNo >= es[0].seqNo {
      InsertElements(e, es[1..]);
      assert es == [es[0]] + es[1..];
    }
  }

  lemma {:induction false} InsertFrom<T>(k: int, e: Entry<T>, es: seq<Entry<T>>)
    requires k <= e.seqNo && AllFrom(k, es)
    ensures AllFrom(k, Insert(e, es))
    decreases |es|
  {
    if |es| > 0 && e.seqNo >= es[0].seqNo {
      InsertFrom(k, e, es[1..]);
    }
  }

  lemma {:induction false} InsertSorted<T>(e: Entry<T>, es: seq<Entry<T>>)
    requires Sorted(es)
    ensures Sorted(Insert(e, es))
    decreases |es|
  {
    if |es| > 0 && e.seqNo >= es[0].seqNo {
      InsertSorted(e, es[1..]);
      InsertFrom(es[0].seqNo, e, es[1..]);
      SortedCons(es[0], Insert(e, es[1..]));
    } else {
      SortedCons(e, es);
    }
  }

  lemma {:induction false} SortOk<T>(items: seq<Entry<T>>)
    ensures multiset(SortedItems(items)) == multiset(items)
    ensures |SortedItems(items)| == |items|
    ensures Sorted(SortedItems(items))
    decreases |items|
  {
    if |items| > 0 {
      var n := |items| - 1;
      SortOk(items[..n]);
      InsertElements(items[n], SortedItems(items[..n]));
      InsertSorted(items[n], SortedItems(items[..n]));
      assert items == items[..n] + [items[n]];
    }
  }

  /** `heapq.merge`: of equal sequence numbers those of the first list come first. */
  function Merge<T>(a: seq<Entry<T>>, b: seq<Entry<T>>): seq<Entry<T>>
    decreases |a| + |b|
  {
    if |a| == 0 then b
    else if |b| == 0 then a
    else if b[0].seqNo < a[0].seqNo then [b[0]] + Merge(a, b[1..])
    else [a[0]] + Merge(a[1..], b)
  }

  lemma {:induction false} MergeElements<T>(a: seq<Entry<T>>, b: seq<Entry<T>>)
    ensures multiset(Merge(a, b)) == multiset(a) + multiset(b)
    decreases |a| + |b|
  {
    if |a| > 0 && |b| > 0 {
      if b[0].seqNo < a[0].seqNo {
        MergeElements(a, b[1..]);
        assert b == [b[0]] + b[1..];
      } else {
        MergeElements(a[1..], b);
        assert a == [a[0]] + a[1..];
      }
    }
  }

  lemma {:induction false} MergeFrom<T>(k: int, a: seq<Entry<T>>, b: seq<Entry<T>>)
    requires AllFrom(k, a) && AllFrom(k, b)
    ensures AllFrom(k, Merge(a, b))
    decreases |a| + |b|
  {
    if |a| > 0 && |b| > 0 {
      if b[0].seqNo < a[0].seqNo {
        MergeFrom(k, a, b[1..]);
      } else {
        MergeFrom(k, a[1..], b);
      }
    }
  }

  lemma {:induction false} MergeSorted<T>(a: seq<Entry<T>>, b: seq<Entry<T>>)
    requires Sorted(a) && Sorted(b)
    ensures Sorted(Merge(a, b))
    decreases |a| + |b|
  {
    if |a| > 0 && |b| > 0 {
      if b[0].seqNo < a[0].seqNo {
        MergeSorted(a, b[1..]);
        MergeFrom(b[0].seqNo, a, b[1..]);
        SortedCons(b[0], Merge(a, b[1..]));
      } else {
        MergeSorted(a[1..], b);
        MergeFrom(a[0].seqNo, a[1..], b);
        SortedCons(a[0], Merge(a[1..], b));
      }
    }
  }

  /** The entries with one number, in order. */
  function OfNumber<T>(es: seq<Entry<T>>, s: int): seq<Entry<T>>
    decreases |es|
  {
    if |es| == 0 then [] else OfNumber(es[..|es| - 1], s) + if es[|es| - 1].seqNo == s then [es[|es| - 1]] else []
  }

  lemma {:induction false} OfNumberAppend<T>(a: seq<Entry<T>>, b: seq<Entry<T>>, s: int)
    ensures OfNumber(a + b, s) == OfNumber(a, s) + OfNumber(b, s)
    decreases |b|
  {
    if |b| == 0 {
      assert a + b == a;
    } else {
      OfNumberAppend(a, b[..|b| - 1], s);
      assert (a + b)[..|a + b| - 1] == a + b[..|b| - 1];
    }
  }

  lemma {:induction false} NoneOfNumber<T>(es: seq<Entry<T>>, s: int)
    requires forall i :: 0 <= i < |es| ==> es[i].seqNo != s
    ensures OfNumber(es, s) == []
    decreases |es|
  {
    if |es| > 0 {
      NoneOfNumber(es[..|es| - 1], s);
    }
  }

  lemma {:induction false} InsertStable<T>(e: Entry<T>, es: seq<Entry<T>>, s: int)
    requires Sorted(es)
    ensures OfNumber(Insert(e, es), s) == OfNumber(es, s) + OfNumber([e], s)
    decreases |es|
  {
    hide OfNumber;
    if |es| == 0 || e.seqNo < es[0].seqNo {
      OfNumberAppend([e], es, s);
      if e.seqNo == s {
        NoneOfNumber(es, s);
      } else {
        NoneOfNumber([e], s);
      }
    } else {
      InsertStable(e, es[1..], s);
      assert es == [es[0]] + es[1..];
      OfNumberAppend([es[0]], es[1..], s);
      OfNumberAppend([es[0]], Insert(e, es[1..]), s);
    }
  }

  /** Sorting leaves entries with equal numbers in their order. */
  lemma {:induction false} SortIsStable<T>(items: seq<Entry<T>>, s: int)
    ensures OfNumber(SortedItems(items), s) == OfNumber(items, s)
    decreases |items|
  {
    hide OfNumber, Insert;
    if |items| > 0 {
      var n := |items| - 1;
      SortIsStable(items[..n], s);
      SortOk(items[..n]);
      InsertStable(items[n], SortedItems(items[..n]), s);
      assert items == items[..n] + [items[n]];
      OfNumberAppend(items[..n], [items[n]], s);
    }
  }

  /** Merging puts those of the first list before those of the second with the same number. */
  lemma {:induction false} MergeIsStable<T>(a: seq<Entry<T>>, b: seq<Entry<T>>, s: int)
    requires Sorted(a) && Sorted(b)
    ensures OfNumber(Merge(a, b), s) == OfNumber(a, s) + OfNumber(b, s)
    decreases |a| + |b|
  {
    hide OfNumber;
    NoneOfNumber<T>([], s);
    if |a| > 0 && |b| > 0 {
      if b[0].seqNo < a[0].seqNo {
        MergeIsStable(a, b[1..], s);
        assert b == [b[0]] + b[1..];
        OfNumberAppend([b[0]], b[1..], s);
        OfNumberAppend([b[0]], Merge(a, b[1..]), s);
        if b[0].seqNo == s {
          NoneOfNumber(a, s);
        } else {
          NoneOfNumber([b[0]], s);
        }
      } else {
        MergeIsStable(a[1..], b, s);
        assert a == [a[0]] + a[1..];
        OfNumberAppend([a[0]], a[1..], s);
        OfNumberAppend([a[0]], Merge(a[1..], b), s);
      }
    }
  }

  // ----- what the operations compute -----

  /** The transactions of a reply in order, or nothing when the reply is not used. */
  function Usable<T, P>(c: Info<T, P>, rep: Rep<T, P>): seq<Entry<T>> {
    var es := SortedItems(rep.Entries());
    if c.phase != Syncing then []
    else if (exists i :: 0 <= i < |es| && es[i].seqNo > |c.txns|) && NoGapsOrDups(rep) then es
    else []
  }

  /** The test of that name: there are as many keys as numbers from the first to the last. */
  predicate NoGapsOrDups<T, P>(rep: Rep<T, P>) {
    var es := SortedItems(rep.Entries());
    |es| == 0 || |es| == es[|es| - 1].seqNo - es[0].seqNo + 1
  }

  function FindIn<T, P>(reps: seq<Rep<T, P>>, seqNo: int): (r: Option<nat>)
    ensures r.Some? ==> r.value < |reps| && reps[r.value].Has(seqNo)
    decreases |reps|
  {
    if |reps| == 0 then None
    else if reps[0].Has(seqNo) then Some(0)
    else
      var r := FindIn(reps[1..], seqNo);
      if r == None then None else Some(r.value + 1)
  }

  function Find<T, P>(order: seq<Name>, from: map<Name, seq<Rep<T, P>>>, seqNo: int): (r: Option<(Name, nat)>)
    ensures r.Some? ==>
      r.value.0 in from && r.value.1 < |from[r.value.0]| && from[r.value.0][r.value.1].Has(seqNo)
    decreases |order|
  {
    if |order| == 0 then None
    else if order[0] in from && FindIn(from[order[0]], seqNo).Some?
    then Some((order[0], FindIn(from[order[0]], seqNo).value))
    else Find(order[1..], from, seqNo)
  }

  lemma {:induction false} FirstIn<T, P>(reps: seq<Rep<T, P>>, seqNo: int)
    ensures
      match FindIn(reps, seqNo)
      case None => forall k :: 0 <= k < |reps| ==> !reps[k].Has(seqNo)
      case Some(i) => forall k :: 0 <= k < i ==> !reps[k].Has(seqNo)
    decreases |reps|
  {
    if |reps| > 0 && !reps[0].Has(seqNo) {
      FirstIn(reps[1..], seqNo);
      assert reps == [reps[0]] + reps[1..];
    }
  }

  ghost predicate NoneHas<T, P>(from: map<Name, seq<Rep<T, P>>>, name: Name, seqNo: int) {
    name in from ==> forall k :: 0 <= k < |from[name]| ==> !from[name][k].Has(seqNo)
  }

  /** The reply that is found is the first one with the number of the first sender that has one. */
  lemma {:induction false} FindIsFirst<T, P>(order: seq<Name>, from: map<Name, seq<Rep<T, P>>>, seqNo: int)
    ensures
      match Find(order, from, seqNo)
      case None => forall j :: 0 <= j < |order| ==> NoneHas(from, order[j], seqNo)
      case Some((name, i)) =>
        && (forall k :: 0 <= k < i ==> !from[name][k].Has(seqNo))
        && exists j :: 0 <= j < |order| && order[j] == name && forall l :: 0 <= l < j ==> NoneHas(from, order[l], seqNo)
    decreases |order|
  {
    if |order| > 0 {
      if order[0] in from {
        FirstIn(from[order[0]], seqNo);
      }
      if order[0] in from && FindIn(from[order[0]], seqNo).Some? {
        assert order[0] == Find(order, from, seqNo).value.0;
      } else {
        FindIsFirst(order[1..], from, seqNo);
        assert NoneHas(from, order[0], seqNo);
        FindLater(order, from, seqNo);
      }
    }
  }

  lemma FindLater<T, P>(order: seq<Name>, from: map<Name, seq<Rep<T, P>>>, seqNo: int)
    requires |order| > 0 && NoneHas(from, order[0], seqNo)
    requires Find(order, from, seqNo) == Find(order[1..], from, seqNo)
    requires
      match Find(order[1..], from, seqNo)
      case None => forall j :: 0 <= j < |order| - 1 ==> NoneHas(from, order[1..][j], seqNo)
      case Some((name, i)) =>
        exists j :: 0 <= j < |order| - 1 && order[1..][j] == name &&
          forall l :: 0 <= l < j ==> NoneHas(from, order[1..][l], seqNo)
    ensures
      match Find(order, from, seqNo)
      case None => forall j :: 0 <= j < |order| ==> NoneHas(from, order[j], seqNo)
      case Some((name, i)) =>
        exists j :: 0 <= j < |order| && order[j] == name && forall l :: 0 <= l < j ==> NoneHas(from, order[l], seqNo)
  {
    hide Find, NoneHas;
    match Find(order[1..], from, seqNo)
    case None =>
      forall j | 0 <= j < |order| ensures NoneHas(from, order[j], seqNo) {
        assert j > 0 ==> order[j] == order[1..][j - 1];
      }
    case Some((name, i)) =>
      var j :| 0 <= j < |order| - 1 && order[1..][j] == name &&
               forall l :: 0 <= l < j ==> NoneHas(from, order[1..][l], seqNo);
      forall l | 0 <= l < j + 1 ensures NoneHas(from, order[l], seqNo) {
        assert l > 0 ==> order[l] == order[1..][l - 1];
      }
      assert order[j + 1] == name;
  }

  function CountAtMost<T>(es: seq<Entry<T>>, size: nat): (n: nat)
    ensures n <= |es|
    decreases |es|
  {
    if |es| == 0 then 0 else CountAtMost(es[..|es| - 1], size) + if es[|es| - 1].seqNo <= size then 1 else 0
  }

  /** The entries whose number is in the reply. */
  function Known<T, P>(es: seq<Entry<T>>, rep: Rep<T, P>): (r: seq<Entry<T>>)
    ensures |r| <= |es|
    ensures |es| > 0 && rep.Has(es[0].seqNo) ==> |r| > 0
    decreases |es|
  {
    if |es| == 0 then []
    else Known(es[..|es| - 1], rep) + if rep.Has(es[|es| - 1].seqNo) then [es[|es| - 1]] else []
  }

  /** The entries at the head of the list that the reply accounts for. */
  function BatchFor<T, P>(rest: seq<Entry<T>>, rep: Rep<T, P>): (batch: seq<Entry<T>>)
    ensures |batch| <= |rest|
    ensures |rest| > 0 && rep.Has(rest[0].seqNo) ==> |batch| > 0
  {
    Known(Take(rest, |rep.items|), rep)
  }

  function TxnsOf<T>(es: seq<Entry<T>>): seq<T> {
    seq(|es|, i requires 0 <= i < |es| => es[i].txn)
  }

  function Without<T, P>(from: map<Name, seq<Rep<T, P>>>, name: Name, i: nat): map<Name, seq<Rep<T, P>>>
    requires name in from && i < |from[name]|
  {
    from[name := from[name][..i] + from[name][i + 1..]]
  }

  /** The outcome of a pass over the sorted replies: how many of them are done with, and whether the pass broke off
      because a number was in no stored reply. */
  datatype Pass<T, P> =
    Pass(txns: seq<T>, from: map<Name, seq<Rep<T, P>>>, blacklisted: set<Name>, count: nat, raised: bool)

  function ProcessReplies<T, P>(env: Env<T, P>, till: Till<T>, txns: seq<T>, from: map<Name, seq<Rep<T, P>>>,
                                replies: seq<Entry<T>>): (p: Pass<T, P>)
    ensures p.count <= |replies|
    decreases |replies|
  {
    var n := CountAtMost(replies, |txns|);
    var rest := replies[n..];
    if |rest| == 0 || rest[0].seqNo - |txns| != 1 then Pass(txns, from, {}, n, false)
    else
      match Find(env.order, from, rest[0].seqNo)
      case None => Pass(txns, from, {}, n, true)
      case Some((name, i)) =>
        var rep := from[name][i];
        var batch := BatchFor(rest, rep);
        var tree := txns + TxnsOf(batch);
        if env.verify(|tree|, till.seqNoEnd, MerkleRoot(tree), till.root, rep.proof) then
          var p := ProcessReplies(env, till, txns + TxnsOf(rest[..|batch|]), Without(from, name, i),
                                  rest[|batch|..]);
          p.(count := n + |batch| + p.count)
        else if env.ownedByNode then Pass(txns, Without(from, name, i), {name}, n + |batch|, false)
        else Pass(txns, from, {}, n, false)
  }

  function Stored<T, P>(from: map<Name, seq<Rep<T, P>>>, frm: Name, rep: Rep<T, P>): map<Name, seq<Rep<T, P>>> {
    from[frm := (if frm in from then from[frm] else []) + [rep]]
  }

  function ProcessRep<T, P>(env: Env<T, P>, c: Info<T, P>, rep: Rep<T, P>, frm: Name): Info<T, P>
    requires c.phase == Syncing ==> c.till.Some?
  {
    var es := Usable(c, rep);
    if |es| == 0 then c
    else
      var merged := Merge(c.received, es);
      var p := ProcessReplies(env, c.till.value, c.txns, Stored(c.from, frm, rep), merged);
      var c' := c.(txns := p.txns, from := p.from, blacklisted := c.blacklisted + p.blacklisted);
      if p.raised then c'
      else if c.till.value.seqNoEnd == |p.txns|
      then c'.(received := merged[p.count..], till := None, phase := Synced)
      else c'.(received := merged[p.count..])
  }

  // ----- what is verified is what is appended -----

  /** Of the numbers that the reply has plainly, from 1 on, none between two is left out. */
  ghost predicate Contiguous<T, P>(rep: Rep<T, P>) {
    forall a, b, s :: 1 <= a && rep.Has(a) && rep.Has(b) && a <= s <= b ==> rep.Has(s)
  }

  ghost predicate AllContiguous<T, P>(from: map<Name, seq<Rep<T, P>>>) {
    forall name, i :: name in from && 0 <= i < |from[name]| ==> Contiguous(from[name][i])
  }

  predicate Increasing<T>(es: seq<Entry<T>>) {
    forall i, j :: 0 <= i < j < |es| ==> es[i].seqNo < es[j].seqNo
  }

  /** Strictly growing numbers that are as many as the span from first to last leave no number out. */
  lemma {:induction false} NoGaps<T>(es: seq<Entry<T>>, i: nat)
    requires Increasing(es)
    requires |es| > 0 && |es| == es[|es| - 1].seqNo - es[0].seqNo + 1
    requires i < |es|
    ensures es[i].seqNo == es[0].seqNo + i
  {
    var k := 0;
    while k < i
      invariant 0 <= k <= i && es[k].seqNo >= es[0].seqNo + k
    {
      k := k + 1;
    }
    while k < |es| - 1
      invariant i <= k < |es| && es[k].seqNo >= es[i].seqNo + (k - i)
    {
      k := k + 1;
    }
  }

  /** No number of a plainly spelled dictionary comes twice when its items are sorted. */
  lemma SortedDict<T, P>(rep: Rep<T, P>)
    requires rep.IsDict() && rep.IsPlain()
    ensures Increasing(SortedItems(rep.Entries()))
  {
    hide SortedItems;
    var es := SortedItems(rep.Entries());
    SortOk(rep.Entries());
    forall i, j | 0 <= i < j < |es| ensures es[i].seqNo < es[j].seqNo {
      Twice(rep.Entries(), es, i, j);
    }
  }

  lemma Twice<T>(items: seq<Entry<T>>, es: seq<Entry<T>>, i: nat, j: nat)
    requires forall i, j :: 0 <= i < j < |items| ==> items[i].seqNo != items[j].seqNo
    requires multiset(es) == multiset(items)
    requires i < j < |es|
    ensures es[i].seqNo != es[j].seqNo
  {
    if es[i] == es[j] {
      assert es == es[..i] + [es[i]] + es[i + 1..j] + [es[j]] + es[j + 1..];
      assert multiset(es)[es[i]] >= 2;
      OnlyOnce(items, es[i]);
      assert false;
    } else {
      assert es[i] in multiset(es) && es[j] in multiset(es);
      assert es[i] in items && es[j] in items;
    }
  }

  lemma {:induction false} OnlyOnce<T>(items: seq<Entry<T>>, e: Entry<T>)
    requires forall i, j :: 0 <= i < j < |items| ==> items[i].seqNo != items[j].seqNo
    ensures multiset(items)[e] <= 1
    decreases |items|
  {
    if |items| > 0 {
      var n := |items| - 1;
      OnlyOnce(items[..n], e);
      assert items == items[..n] + [items[n]];
      if items[n] == e {
        assert e !in items[..n];
      }
    }
  }

  lemma UsableIsSorted<T, P>(c: Info<T, P>, rep: Rep<T, P>)
    ensures Sorted(Usable(c, rep))
    ensures |Usable(c, rep)| > 0 ==> c.phase == Syncing && NoGapsOrDups(rep)
  {
    hide SortedItems;
    SortOk(rep.Entries());
  }

  /** The test in terms of the keys: there are as many as numbers from the least to the greatest of them. */
  lemma GapTestIs<T, P>(rep: Rep<T, P>, lo: int, hi: int)
    requires exists i :: 0 <= i < |rep.items| && rep.items[i].key.number == lo
    requires exists i :: 0 <= i < |rep.items| && rep.items[i].key.number == hi
    requires forall i :: 0 <= i < |rep.items| ==> lo <= rep.items[i].key.number <= hi
    ensures NoGapsOrDups(rep) <==> |rep.items| == hi - lo + 1
  {
    hide SortedItems;
    var items, es := rep.Entries(), SortedItems(rep.Entries());
    SortOk(items);
    var i :| 0 <= i < |rep.items| && rep.items[i].key.number == lo;
    var j :| 0 <= j < |rep.items| && rep.items[j].key.number == hi;
    assert items[i].seqNo == lo && items[j].seqNo == hi;
    var a := Position(items, es, lo);
    var b := Position(items, es, hi);
    forall k | 0 <= k < |es| ensures lo <= es[k].seqNo <= hi {
      assert es[k] in multiset(es);
      assert es[k] in items;
    }
  }

  /** A reply is used exactly if catch-up is on, the test passes and some number in it is new: all its entries are then,
      in order. One that is not used changes nothing. */
  lemma UsedIff<T, P>(env: Env<T, P>, c: Info<T, P>, rep: Rep<T, P>, frm: Name)
    requires c.phase == Syncing ==> c.till.Some?
    ensures
      var used := c.phase == Syncing && NoGapsOrDups(rep)
                  && exists i :: 0 <= i < |rep.items| && rep.items[i].key.number > |c.txns|;
      if used then Sorted(Usable(c, rep)) && multiset(Usable(c, rep)) == multiset(rep.Entries()) && |rep.items| > 0
      else ProcessRep(env, c, rep, frm) == c
  {
    hide SortedItems, NoGapsOrDups, ProcessReplies;
    var items, es := rep.Entries(), SortedItems(rep.Entries());
    SortOk(items);
    if i :| 0 <= i < |rep.items| && rep.items[i].key.number > |c.txns| {
      assert items[i].seqNo > |c.txns|;
      var k := Position(items, es, items[i].seqNo);
    }
    if k :| 0 <= k < |es| && es[k].seqNo > |c.txns| {
      var i := Position(es, items, es[k].seqNo);
      assert rep.items[i].key.number > |c.txns|;
    }
  }

  /** A reply with plain keys that passes the test leaves no number out. */
  lemma PlainIsContiguous<T, P>(rep: Rep<T, P>)
    requires rep.IsDict() && rep.IsPlain() && NoGapsOrDups(rep)
    ensures Contiguous(rep)
  {
    hide SortedItems;
    SortOk(rep.Entries());
    SortedDict(rep);
    forall a, b, s | 1 <= a && rep.Has(a) && rep.Has(b) && a <= s <= b ensures rep.Has(s) {
      Between(rep, SortedItems(rep.Entries()), a, b, s);
    }
  }

  lemma PlainHas<T, P>(rep: Rep<T, P>, s: int)
    requires rep.IsPlain()
    ensures rep.Has(s) <==> exists k :: 0 <= k < |rep.Entries()| && rep.Entries()[k].seqNo == s
  {
    if k :| 0 <= k < |rep.Entries()| && rep.Entries()[k].seqNo == s {
      assert rep.items[k].key == Spelling(s, 0);
    }
    if i :| 0 <= i < |rep.items| && rep.items[i].key == Spelling(s, 0) {
      assert rep.Entries()[i].seqNo == s;
    }
  }

  lemma Between<T, P>(rep: Rep<T, P>, es: seq<Entry<T>>, a: int, b: int, s: int)
    requires rep.IsPlain() && Increasing(es) && multiset(es) == multiset(rep.Entries())
    requires |es| > 0 && |es| == es[|es| - 1].seqNo - es[0].seqNo + 1
    requires rep.Has(a) && rep.Has(b) && a <= s <= b
    ensures rep.Has(s)
  {
    PlainHas(rep, a);
    PlainHas(rep, b);
    PlainHas(rep, s);
    var i := Position(rep.Entries(), es, a);
    var j := Position(rep.Entries(), es, b);
    NoGaps(es, i);
    NoGaps(es, j);
    NoGaps(es, i + (s - a));
    assert es[i + (s - a)].seqNo == s;
    var k := Position(es, rep.Entries(), s);
  }

  lemma Position<T>(items: seq<Entry<T>>, es: seq<Entry<T>>, s: int) returns (i: nat)
    requires multiset(es) == multiset(items)
    requires exists k :: 0 <= k < |items| && items[k].seqNo == s
    ensures i < |es| && es[i].seqNo == s
  {
    var k :| 0 <= k < |items| && items[k].seqNo == s;
    assert items[k] in multiset(items);
    assert items[k] in es;
    i :| 0 <= i < |es| && es[i] == items[k];
  }

  /** In a sorted list the entries to skip come first. */
  lemma {:induction false} SkippedComeFirst<T>(es: seq<Entry<T>>, size: nat)
    requires Sorted(es)
    ensures
      var n := CountAtMost(es, size);
      && (forall i :: 0 <= i < n ==> es[i].seqNo <= size)
      && (forall i :: n <= i < |es| ==> es[i].seqNo > size)
    decreases |es|
  {
    if |es| > 0 {
      SkippedComeFirst(es[..|es| - 1], size);
      var n := CountAtMost(es[..|es| - 1], size);
      if n < |es| - 1 {
        assert es[..|es| - 1][n].seqNo > size;
      }
    }
  }

  /** In a sorted list that begins inside a contiguous reply, the entries of the reply come first. */
  lemma {:induction false} KnownIsPrefix<T, P>(es: seq<Entry<T>>, rep: Rep<T, P>)
    requires Sorted(es) && Contiguous(rep)
    requires |es| > 0 ==> 1 <= es[0].seqNo && rep.Has(es[0].seqNo)
    ensures Known(es, rep) == es[..|Known(es, rep)|]
    ensures forall i :: |Known(es, rep)| <= i < |es| ==> !rep.Has(es[i].seqNo)
    decreases |es|
  {
    if |es| > 0 {
      var n := |es| - 1;
      KnownIsPrefix(es[..n], rep);
      var k := |Known(es[..n], rep)|;
      if k < n {
        assert !rep.Has(es[..n][k].seqNo);
        assert es[0].seqNo <= es[k].seqNo <= es[n].seqNo;
      }
    }
  }

  ghost predicate Aims<T>(till: Till<T>, target: seq<T>) {
    till == Till(|target|, MerkleRoot(target))
  }

  /** A pass over the replies never loses a transaction, and what it appends leaves a prefix of the target: each
      single append, and so all of them. */
  lemma {:induction false} PassIsSafe<T(!new), P(!new)>(env: Env<T, P>, till: Till<T>, target: seq<T>, txns: seq<T>,
                                                      from: map<Name, seq<Rep<T, P>>>, replies: seq<Entry<T>>)
    requires Sound(env.verify) && Aims(till, target)
    requires Sorted(replies) && AllContiguous(from)
    ensures
      var p := ProcessReplies(env, till, txns, from, replies);
      txns <= p.txns && AllContiguous(p.from) && (p.txns == txns || p.txns <= target)
    decreases |replies|
  {
    hide Contiguous, AllContiguous, BatchFor, CountAtMost, Find, Sound, TxnsOf;
    var n := CountAtMost(replies, |txns|);
    var rest := replies[n..];
    if |rest| > 0 && rest[0].seqNo - |txns| == 1 {
      match Find(env.order, from, rest[0].seqNo)
      case None =>
      case Some((name, i)) =>
        var rep := from[name][i];
        AllContiguousWithout(from, name, i);
        OneContiguous(from, name, i);
        var batch := BatchFor(rest, rep);
        BatchIsPrefix(rest, rep);
        var tree := txns + TxnsOf(batch);
        if env.verify(|tree|, till.seqNoEnd, MerkleRoot(tree), till.root, rep.proof) {
          VerifiedIsPrefix(env.verify, tree, target, rep.proof);
          PassIsSafe(env, till, target, tree, Without(from, name, i), rest[|batch|..]);
        }
    }
  }

  lemma BatchIsPrefix<T, P>(rest: seq<Entry<T>>, rep: Rep<T, P>)
    requires Sorted(rest) && Contiguous(rep) && |rest| > 0 && 1 <= rest[0].seqNo && rep.Has(rest[0].seqNo)
    ensures BatchFor(rest, rep) == rest[..|BatchFor(rest, rep)|]
  {
    hide Contiguous, Known;
    KnownIsPrefix(Take(rest, |rep.items|), rep);
  }

  lemma VerifiedIsPrefix<T(!new), P(!new)>(verify: (nat, nat, Root<T>, Root<T>, P) -> bool, tree: seq<T>,
                                           target: seq<T>, proof: P)
    requires Sound(verify) && verify(|tree|, |target|, MerkleRoot(tree), MerkleRoot(target), proof)
    ensures tree <= target
  {}

  lemma OneContiguous<T, P>(from: map<Name, seq<Rep<T, P>>>, name: Name, i: nat)
    requires AllContiguous(from) && name in from && i < |from[name]|
    ensures Contiguous(from[name][i])
  {}

  lemma AllContiguousWithout<T, P>(from: map<Name, seq<Rep<T, P>>>, name: Name, i: nat)
    requires AllContiguous(from) && name in from && i < |from[name]|
    ensures AllContiguous(Without(from, name, i))
  {
    var from': map<Name, seq<Rep<T, P>>> := Without(from, name, i);
    forall who, j | who in from' && 0 <= j < |from'[who]| ensures Contiguous(from'[who][j]) {
      if who == name {
        assert from'[who][j] == from[who][if j < i then j else j + 1];
      } else {
        assert from'[who][j] == from[who][j];
      }
    }
  }

  // ----- every run -----

  /** `base` is the ledger when the catch-up began. */
  ghost predicate InfoOk<T, P>(c: Info<T, P>, base: seq<T>, target: seq<T>) {
    && Sorted(c.received) && AllContiguous(c.from)
    && (c.phase == Syncing ==>
          && c.till.Some? && Aims(c.till.value, target)
          && ((c.txns == base && |base| < |target|) || c.txns <= target))
  }

  /** A reply that, if it passes the test, leaves no number out. */
  ghost predicate Wholesome<T, P>(rep: Rep<T, P>) { NoGapsOrDups(rep) ==> Contiguous(rep) }

  /** Catch-up safety, one reply: from whomever it is and whatever is in it, if it leaves no number out the ledger only
      grows, it stays as it was or becomes a prefix of the target, and catch-up completes only when the ledger is the
      target. */
  lemma ReplyIsSafe<T(!new), P(!new)>(env: Env<T, P>, c: Info<T, P>, rep: Rep<T, P>, frm: Name, base: seq<T>,
                                      target: seq<T>)
    requires Sound(env.verify) && InfoOk(c, base, target) && Wholesome(rep)
    ensures
      var c' := ProcessRep(env, c, rep, frm);
      && c.txns <= c'.txns
      && InfoOk(c', base, target)
      && (c'.txns == c.txns || c'.txns <= target)
      && (c.phase == Syncing && c'.phase != Syncing ==> c'.txns == target && c'.phase == Synced)
  {
    hide Usable, ProcessReplies, Merge, Contiguous, NoGapsOrDups;
    var es := Usable(c, rep);
    UsableIsSorted(c, rep);
    if |es| > 0 {
      var from := Stored(c.from, frm, rep);
      StoredContiguous(c.from, frm, rep);
      var merged := Merge(c.received, es);
      MergeSorted(c.received, es);
      PassIsSafe(env, c.till.value, target, c.txns, from, merged);
      var p := ProcessReplies(env, c.till.value, c.txns, from, merged);
      assert Sorted(merged[p.count..]);
    }
  }

  lemma StoredContiguous<T, P>(from: map<Name, seq<Rep<T, P>>>, frm: Name, rep: Rep<T, P>)
    requires AllContiguous(from) && Contiguous(rep)
    ensures AllContiguous(Stored(from, frm, rep))
  {}

  datatype Event<T, P> = Reply(rep: Rep<T, P>, frm: Name, order: seq<Name>)

  function Process<T, P>(env: Env<T, P>, c: Info<T, P>, events: seq<Event<T, P>>): Info<T, P>
    requires c.phase == Syncing ==> c.till.Some?
    decreases |events|
  {
    if |events| == 0 then c
    else
      var c' := Process(env, c, events[..|events| - 1]);
      var e := events[|events| - 1];
      if c'.phase == Syncing && c'.till == None then c' else ProcessRep(env.(order := e.order), c', e.rep, e.frm)
  }

  /** Catch-up safety: after any sequence of replies, bad, overlapping, repeated or out of order, none of which passes
      the test while leaving a number out, the ledger is as it was at the start or a prefix of the target, and when
      catch-up has completed it is the target. */
  lemma {:induction false} CatchupIsSafe<T(!new), P(!new)>(env: Env<T, P>, c: Info<T, P>, events: seq<Event<T, P>>,
                                                         target: seq<T>)
    requires Sound(env.verify)
    requires Sorted(c.received) && AllContiguous(c.from)
    requires forall i :: 0 <= i < |events| ==> Wholesome(events[i].rep)
    requires c.phase == Syncing && c.till == Some(Till(|target|, MerkleRoot(target))) && |c.txns| < |target|
    ensures
      var c' := Process(env, c, events);
      && c.txns <= c'.txns
      && InfoOk(c', c.txns, target)
      && (c'.txns == c.txns || c'.txns <= target)
      && (c'.phase != Syncing ==> c'.txns == target && c'.phase == Synced)
    decreases |events|
  {
    hide ProcessRep, Sound;
    if |events| > 0 {
      CatchupIsSafe(env, c, events[..|events| - 1], target);
      var c' := Process(env, c, events[..|events| - 1]);
      var e := events[|events| - 1];
      var env' := env.(order := e.order);
      ReplyIsSafe(env', c', e.rep, e.frm, c.txns, target);
      if c'.phase != Syncing {
        LateReply(env', c', e.rep, e.frm);
      }
    }
  }

  lemma LateReply<T, P>(env: Env<T, P>, c: Info<T, P>, rep: Rep<T, P>, frm: Name)
    requires c.phase != Syncing
    ensures ProcessRep(env, c, rep, frm) == c
  {}
}
