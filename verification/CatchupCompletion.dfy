/** Honest replies to the requests of one catch-up complete it, in whatever order they arrive. */
module CatchupCompletion {
  import opened Messages
  import opened Ledgers
  import opened Catchup

  /** The target, the numbers at which the requests cut what is missing, and the reply to each request. */
  datatype Plan<T, P> = Plan(target: seq<T>, cuts: seq<nat>, reps: seq<Rep<T, P>>)
  {
    ghost predicate CutsOk() {
      && |cuts| == |reps| + 1
      && cuts[|reps|] == |target|
      && forall i, j :: 0 <= i < j < |cuts| ==> cuts[i] < cuts[j]
    }

    /** What the reply to request `j` holds, in order. */
    ghost function Slice(j: nat): seq<Entry<T>>
      requires CutsOk() && j < |reps|
    {
      seq(cuts[j + 1] - cuts[j], i requires 0 <= i < cuts[j + 1] - cuts[j] =>
        Entry(cuts[j] + 1 + i, target[cuts[j] + i]))
    }

    /** The replies of `arrived` from request `m` on, in order. */
    ghost function Waiting(arrived: set<nat>, m: nat): seq<Entry<T>>
      requires CutsOk() && m <= |reps|
      decreases |reps| - m
    {
      if m == |reps| then []
      else (if m in arrived then Slice(m) else []) + Waiting(arrived, m + 1)
    }

    /** The first request from `m` on whose reply is not there. */
    ghost function Reached(arrived: set<nat>, m: nat): (r: nat)
      requires CutsOk() && m <= |reps|
      ensures m <= r <= |reps|
      ensures r < |reps| ==> r !in arrived
      ensures forall j :: m <= j < r ==> j in arrived
      decreases |reps| - m
    {
      if m == |reps| || m !in arrived then m else Reached(arrived, m + 1)
    }
  }

  /** A reply of a correct node to the request for `lo + 1` to `hi`: those transactions, in any order, and a proof that
      the verifier accepts. */
  ghost predicate Honest<T, P>(rep: Rep<T, P>, target: seq<T>, lo: nat, hi: nat,
                               verify: (nat, nat, Root<T>, Root<T>, P) -> bool)
  {
    && lo < hi <= |target|
    && rep.IsDict() && rep.IsPlain() && |rep.items| == hi - lo
    && (forall i :: 0 <= i < |rep.items| ==>
          lo < rep.items[i].key.number <= hi && rep.items[i].txn == target[rep.items[i].key.number - 1])
    && verify(hi, |target|, MerkleRoot(target[..hi]), MerkleRoot(target), rep.proof)
  }

  ghost predicate PlanOk<T, P>(p: Plan<T, P>, verify: (nat, nat, Root<T>, Root<T>, P) -> bool) {
    && p.CutsOk()
    && forall j :: 0 <= j < |p.reps| ==> Honest(p.reps[j], p.target, p.cuts[j], p.cuts[j + 1], verify)
  }

  // ----- an honest reply, sorted -----

  lemma {:induction false} Squeezed<T>(es: seq<Entry<T>>, lo: nat, i: nat)
    requires Increasing(es) && i < |es|
    requires forall k :: 0 <= k < |es| ==> lo < es[k].seqNo <= lo + |es|
    ensures es[i].seqNo == lo + 1 + i
  {
    var k := 0;
    while k < i
      invariant 0 <= k <= i && es[k].seqNo >= lo + 1 + k
    {
      k := k + 1;
    }
    while k < |es| - 1
      invariant i <= k < |es| && es[k].seqNo >= es[i].seqNo + (k - i)
    {
      k := k + 1;
    }
  }

  lemma SortedHonest<T, P>(p: Plan<T, P>, j: nat, verify: (nat, nat, Root<T>, Root<T>, P) -> bool)
    requires PlanOk(p, verify) && j < |p.reps|
    ensures SortedItems(p.reps[j].Entries()) == p.Slice(j)
  {
    hide SortedItems;
    var rep := p.reps[j];
    var es := SortedItems(rep.Entries());
    assert Honest(rep, p.target, p.cuts[j], p.cuts[j + 1], verify);
    SortOk(rep.Entries());
    SortedDict(rep);
    forall k | 0 <= k < |es|
      ensures p.cuts[j] < es[k].seqNo <= p.cuts[j + 1] && es[k].txn == p.target[es[k].seqNo - 1]
    {
      assert es[k] in multiset(es);
      assert es[k] in rep.Entries();
    }
    forall k | 0 <= k < |es| ensures es[k] == p.Slice(j)[k] {
      Squeezed(es, p.cuts[j], k);
    }
  }

  lemma HonestHas<T, P>(p: Plan<T, P>, j: nat, verify: (nat, nat, Root<T>, Root<T>, P) -> bool, s: int)
    requires PlanOk(p, verify) && j < |p.reps|
    ensures p.reps[j].Has(s) <==> p.cuts[j] < s <= p.cuts[j + 1]
  {
    var rep := p.reps[j];
    assert Honest(rep, p.target, p.cuts[j], p.cuts[j + 1], verify);
    SortedHonest(p, j, verify);
    SortOk(rep.Entries());
    PlainHas(rep, s);
    if p.cuts[j] < s <= p.cuts[j + 1] {
      var e := p.Slice(j)[s - p.cuts[j] - 1];
      assert e in p.Slice(j);
      assert e in multiset(rep.Entries());
      assert e in rep.Entries();
    }
  }

  // ----- merging -----

  /** All numbers of a list are above `k`. */
  ghost predicate Beyond<T>(k: int, es: seq<Entry<T>>) {
    forall i :: 0 <= i < |es| ==> k < es[i].seqNo
  }

  lemma {:induction false} MergeBefore<T>(a: seq<Entry<T>>, b: seq<Entry<T>>, k: int)
    requires Beyond(k, a) && forall i :: 0 <= i < |b| ==> b[i].seqNo <= k
    ensures Merge(a, b) == b + a
    decreases |b|
  {
    if |a| > 0 && |b| > 0 {
      MergeBefore(a, b[1..], k);
      assert b == [b[0]] + b[1..];
    }
  }

  lemma {:induction false} MergeAfter<T>(x: seq<Entry<T>>, a: seq<Entry<T>>, b: seq<Entry<T>>, k: int)
    requires Beyond(k, b) && forall i :: 0 <= i < |x| ==> x[i].seqNo <= k
    ensures Merge(x + a, b) == x + Merge(a, b)
    decreases |x|
  {
    if |x| == 0 {
      assert x + a == a;
    } else {
      MergeAfter(x[1..], a, b, k);
      assert (x + a)[1..] == x[1..] + a;
      assert x == [x[0]] + x[1..];
    }
  }

  lemma {:induction false} WaitingBeyond<T, P>(p: Plan<T, P>, arrived: set<nat>, m: nat)
    requires p.CutsOk() && m <= |p.reps|
    ensures Beyond(p.cuts[m], p.Waiting(arrived, m))
    decreases |p.reps| - m
  {
    if m < |p.reps| {
      WaitingBeyond(p, arrived, m + 1);
    }
  }

  lemma {:induction false} WaitingLater<T, P>(p: Plan<T, P>, arrived: set<nat>, m: nat, j: nat)
    requires p.CutsOk() && j < m <= |p.reps|
    ensures p.Waiting(arrived + {j}, m) == p.Waiting(arrived, m)
    decreases |p.reps| - m
  {
    if m < |p.reps| {
      WaitingLater(p, arrived, m + 1, j);
    }
  }

  lemma {:induction false} MergeWaiting<T, P>(p: Plan<T, P>, arrived: set<nat>, m: nat, j: nat)
    requires p.CutsOk() && m <= j < |p.reps| && j !in arrived
    ensures Merge(p.Waiting(arrived, m), p.Slice(j)) == p.Waiting(arrived + {j}, m)
    decreases |p.reps| - m
  {
    var rest := p.Waiting(arrived, m + 1);
    if m == j {
      WaitingBeyond(p, arrived, j + 1);
      assert p.Waiting(arrived, m) == rest;
      MergeBefore(rest, p.Slice(j), p.cuts[j + 1]);
      WaitingLater(p, arrived, j + 1, j);
    } else {
      MergeWaiting(p, arrived, m + 1, j);
      if m in arrived {
        MergeAfter(p.Slice(m), rest, p.Slice(j), p.cuts[m + 1]);
      } else {
        assert p.Waiting(arrived, m) == rest;
      }
    }
  }

  // ----- one pass -----

  ghost predicate Holds<T, P>(from: map<Name, seq<Rep<T, P>>>, name: Name, i: int, rep: Rep<T, P>) {
    name in from && 0 <= i < |from[name]| && from[name][i] == rep
  }

  /** What is stored are the replies of `arrived` from request `m` on, each once. */
  ghost predicate StoredOk<T, P>(p: Plan<T, P>, from: map<Name, seq<Rep<T, P>>>, arrived: set<nat>, m: nat) {
    && (forall name, i :: name in from && 0 <= i < |from[name]| ==> Expected(p, arrived, m, from[name][i]))
    && (forall j :: j in arrived && m <= j < |p.reps| ==> exists name, i :: Holds(from, name, i, p.reps[j]))
    && (forall a, i, b, k :: IsAt(from, a, i) && IsAt(from, b, k) && from[a][i] == from[b][k] ==> a == b && i == k)
  }

  predicate IsAt<T, P>(from: map<Name, seq<Rep<T, P>>>, name: Name, i: int) {
    name in from && 0 <= i < |from[name]|
  }

  /** The reply to a request of `arrived` from request `m` on. */
  ghost predicate Expected<T, P>(p: Plan<T, P>, arrived: set<nat>, m: nat, rep: Rep<T, P>) {
    exists j :: j in arrived && m <= j < |p.reps| && p.reps[j] == rep
  }

  lemma {:induction false} FindsIn<T, P>(reps: seq<Rep<T, P>>, seqNo: int, i: nat)
    requires i < |reps| && reps[i].Has(seqNo)
    ensures FindIn(reps, seqNo).Some?
    decreases |reps|
  {
    if i > 0 && !reps[0].Has(seqNo) {
      FindsIn(reps[1..], seqNo, i - 1);
    }
  }

  lemma {:induction false} Finds<T, P>(order: seq<Name>, from: map<Name, seq<Rep<T, P>>>, seqNo: int, name: Name,
                                       i: nat)
    requires name in order && name in from && i < |from[name]| && from[name][i].Has(seqNo)
    ensures Find(order, from, seqNo).Some?
    decreases |order|
  {
    FindsIn(from[name], seqNo, i);
    if order[0] != name {
      Finds(order[1..], from, seqNo, name, i);
    }
  }

  /** The reply that is found for the next number is the one to the request it falls into. */
  lemma FindsTheReply<T, P>(p: Plan<T, P>, env: Env<T, P>, from: map<Name, seq<Rep<T, P>>>, arrived: set<nat>, m: nat)
    requires PlanOk(p, env.verify) && m < |p.reps| && m in arrived
    requires StoredOk(p, from, arrived, m) && forall name :: name in from ==> name in env.order
    ensures
      var r := Find(env.order, from, p.cuts[m] + 1);
      r.Some? && from[r.value.0][r.value.1] == p.reps[m]
  {
    hide Find, Honest;
    var s := p.cuts[m] + 1;
    var name, i :| Holds(from, name, i, p.reps[m]);
    HonestHas(p, m, env.verify, s);
    Finds(env.order, from, s, name, i);
    var r := Find(env.order, from, s);
    var rep := from[r.value.0][r.value.1];
    assert Expected(p, arrived, m, rep);
    var j :| j in arrived && m <= j < |p.reps| && p.reps[j] == rep;
    HonestHas(p, j, env.verify, s);
  }

  /** Where a reply was before the one at place `i` of `name` was taken out. */
  function Origin(name: Name, i: nat, who: Name, k: int): int { if who == name && k >= i then k + 1 else k }

  lemma WithoutAt<T, P>(from: map<Name, seq<Rep<T, P>>>, name: Name, i: nat, who: Name, k: int)
    requires name in from && i < |from[name]| && IsAt(Without(from, name, i), who, k)
    ensures
      var k0 := Origin(name, i, who, k);
      && IsAt(from, who, k0) && Without(from, name, i)[who][k] == from[who][k0] && !(who == name && k0 == i)
  {}

  lemma WithoutHolds<T, P>(from: map<Name, seq<Rep<T, P>>>, name: Name, i: nat, who: Name, k: int, rep: Rep<T, P>)
    requires name in from && i < |from[name]| && Holds(from, who, k, rep) && from[name][i] != rep
    ensures Holds(Without(from, name, i), who, if who == name && k > i then k - 1 else k, rep)
  {}

  lemma StoredWithout<T, P>(p: Plan<T, P>, from: map<Name, seq<Rep<T, P>>>, arrived: set<nat>, m: nat, name: Name,
                            i: nat)
    requires p.CutsOk() && m < |p.reps| && StoredOk(p, from, arrived, m)
    requires name in from && i < |from[name]| && from[name][i] == p.reps[m]
    requires forall j, k :: 0 <= j < k < |p.reps| ==> p.reps[j] != p.reps[k]
    ensures StoredOk(p, Without(from, name, i), arrived, m + 1)
  {
    hide Without;
    var from': map<Name, seq<Rep<T, P>>> := Without(from, name, i);
    forall who, k | who in from' && 0 <= k < |from'[who]| ensures Expected(p, arrived, m + 1, from'[who][k]) {
      WithoutAt(from, name, i, who, k);
      var k0 := Origin(name, i, who, k);
      assert Expected(p, arrived, m, from[who][k0]);
      assert IsAt(from, who, k0) && IsAt(from, name, i);
    }
    forall a, k, b, l | IsAt(from', a, k) && IsAt(from', b, l) && from'[a][k] == from'[b][l] ensures a == b && k == l {
      WithoutAt(from, name, i, a, k);
      WithoutAt(from, name, i, b, l);
    }
    forall j | j in arrived && m + 1 <= j < |p.reps| ensures exists who, k :: Holds(from', who, k, p.reps[j]) {
      var who, k :| Holds(from, who, k, p.reps[j]);
      WithoutHolds(from, name, i, who, k, p.reps[j]);
    }
  }

  lemma DistinctReps<T, P>(p: Plan<T, P>, verify: (nat, nat, Root<T>, Root<T>, P) -> bool, j: nat, k: nat)
    requires PlanOk(p, verify) && j < k < |p.reps|
    ensures p.reps[j] != p.reps[k]
  {
    HonestHas(p, j, verify, p.cuts[j + 1]);
    HonestHas(p, k, verify, p.cuts[j + 1]);
    assert p.cuts[j + 1] <= p.cuts[k];
  }

  lemma {:induction false} NoneAtMost<T>(es: seq<Entry<T>>, size: nat)
    requires Beyond(size, es)
    ensures CountAtMost(es, size) == 0
    decreases |es|
  {
    if |es| > 0 {
      NoneAtMost(es[..|es| - 1], size);
    }
  }

  lemma {:induction false} AllKnown<T, P>(es: seq<Entry<T>>, rep: Rep<T, P>)
    requires forall i :: 0 <= i < |es| ==> rep.Has(es[i].seqNo)
    ensures Known(es, rep) == es
    decreases |es|
  {
    if |es| > 0 {
      AllKnown(es[..|es| - 1], rep);
      assert es == es[..|es| - 1] + [es[|es| - 1]];
    }
  }

  /** The reply to request `m` brings the ledger from one cut to the next. */
  lemma SliceExtends<T, P>(p: Plan<T, P>, m: nat)
    requires p.CutsOk() && m < |p.reps|
    ensures p.target[..p.cuts[m]] + TxnsOf(p.Slice(m)) == p.target[..p.cuts[m + 1]]
  {
    assert p.cuts[m + 1] <= |p.target|;
  }

  ghost predicate PassReaches<T, P>(p: Plan<T, P>, pass: Pass<T, P>, arrived: set<nat>, m: nat)
    requires p.CutsOk() && m <= |p.reps|
  {
    var r := p.Reached(arrived, m);
    && !pass.raised && pass.blacklisted == {}
    && pass.txns == p.target[..p.cuts[r]]
    && StoredOk(p, pass.from, arrived, r)
    && pass.count <= |p.Waiting(arrived, m)|
    && p.Waiting(arrived, m)[pass.count..] == p.Waiting(arrived, r)
  }

  lemma {:induction false} PassCompletes<T, P>(p: Plan<T, P>, env: Env<T, P>, from: map<Name, seq<Rep<T, P>>>,
                                              arrived: set<nat>, m: nat)
    requires PlanOk(p, env.verify) && m <= |p.reps|
    requires StoredOk(p, from, arrived, m) && forall name :: name in from ==> name in env.order
    ensures
      var till := Till(|p.target|, MerkleRoot(p.target));
      PassReaches(p, ProcessReplies(env, till, p.target[..p.cuts[m]], from, p.Waiting(arrived, m)), arrived, m)
    decreases |p.reps| - m
  {
    hide StoredOk, Find, Honest, PassReaches, ProcessReplies, PlanOk;
    PlanHasCuts(p, env.verify);
    if m < |p.reps| && m in arrived {
      FindsTheReply(p, env, from, arrived, m);
      var found := Find(env.order, from, p.cuts[m] + 1).value;
      forall j, k | 0 <= j < k < |p.reps| ensures p.reps[j] != p.reps[k] { DistinctReps(p, env.verify, j, k); }
      StoredWithout(p, from, arrived, m, found.0, found.1);
      PassCompletes(p, env, Without(from, found.0, found.1), arrived, m + 1);
      var till := Till(|p.target|, MerkleRoot(p.target));
      OneSlice(p, env, till, from, arrived, m, found.0, found.1);
      ReachesFurther(p, ProcessReplies(env, till, p.target[..p.cuts[m + 1]], Without(from, found.0, found.1),
                                       p.Waiting(arrived, m + 1)), arrived, m);
    } else {
      PassStops(p, env, from, arrived, m);
    }
  }

  lemma ReachesFurther<T, P>(p: Plan<T, P>, pass: Pass<T, P>, arrived: set<nat>, m: nat)
    requires p.CutsOk() && m < |p.reps| && m in arrived && PassReaches(p, pass, arrived, m + 1)
    ensures PassReaches(p, pass.(count := |p.Slice(m)| + pass.count), arrived, m)
  {
    hide StoredOk;
    var later := p.Waiting(arrived, m + 1);
    assert p.Waiting(arrived, m)[|p.Slice(m)| + pass.count..] == later[pass.count..];
  }

  /** The pass stops where a reply is not there. */
  lemma PassStops<T, P>(p: Plan<T, P>, env: Env<T, P>, from: map<Name, seq<Rep<T, P>>>, arrived: set<nat>, m: nat)
    requires p.CutsOk() && m <= |p.reps| && !(m < |p.reps| && m in arrived)
    requires StoredOk(p, from, arrived, m)
    ensures
      var till := Till(|p.target|, MerkleRoot(p.target));
      PassReaches(p, ProcessReplies(env, till, p.target[..p.cuts[m]], from, p.Waiting(arrived, m)), arrived, m)
  {
    hide StoredOk, Find, Known;
    var replies := p.Waiting(arrived, m);
    WaitingBeyond(p, arrived, m);
    NoneAtMost(replies, p.cuts[m]);
    assert replies[0..] == replies;
    if m < |p.reps| {
      assert replies == p.Waiting(arrived, m + 1);
      WaitingBeyond(p, arrived, m + 1);
    }
  }

  /** The step of the pass that takes the reply to request `m`. */
  lemma OneSlice<T, P>(p: Plan<T, P>, env: Env<T, P>, till: Till<T>, from: map<Name, seq<Rep<T, P>>>,
                       arrived: set<nat>, m: nat, name: Name, i: nat)
    requires PlanOk(p, env.verify) && m < |p.reps| && m in arrived
    requires till == Till(|p.target|, MerkleRoot(p.target))
    requires name in from && i < |from[name]| && from[name][i] == p.reps[m]
    requires Find(env.order, from, p.cuts[m] + 1) == Some((name, i))
    ensures
      var pass := ProcessReplies(env, till, p.target[..p.cuts[m + 1]], Without(from, name, i),
                                 p.Waiting(arrived, m + 1));
      ProcessReplies(env, till, p.target[..p.cuts[m]], from, p.Waiting(arrived, m))
        == pass.(count := |p.Slice(m)| + pass.count)
  {
    hide Find, BatchFor, CountAtMost;
    var replies := p.Waiting(arrived, m);
    var txns := p.target[..p.cuts[m]];
    var slice := p.Slice(m);
    WaitingBeyond(p, arrived, m);
    NoneAtMost(replies, |txns|);
    assert replies[0..] == replies;
    assert replies[..|slice|] == slice && replies[|slice|..] == p.Waiting(arrived, m + 1);
    assert replies[0] == slice[0];
    assert Honest(p.reps[m], p.target, p.cuts[m], p.cuts[m + 1], env.verify);
    SliceIsBatch(p, env.verify, m, replies);
    SliceExtends(p, m);
  }

  lemma SliceIsBatch<T, P>(p: Plan<T, P>, verify: (nat, nat, Root<T>, Root<T>, P) -> bool, m: nat,
                           replies: seq<Entry<T>>)
    requires PlanOk(p, verify) && m < |p.reps| && p.Slice(m) <= replies
    ensures BatchFor(replies, p.reps[m]) == p.Slice(m)
  {
    hide Known;
    var slice := p.Slice(m);
    assert Honest(p.reps[m], p.target, p.cuts[m], p.cuts[m + 1], verify);
    assert Take(replies, |p.reps[m].items|) == slice;
    forall k | 0 <= k < |slice| ensures p.reps[m].Has(slice[k].seqNo) { HonestHas(p, m, verify, slice[k].seqNo); }
    AllKnown(slice, p.reps[m]);
  }

  // ----- every order of arrival -----

  ghost predicate Progress<T, P>(p: Plan<T, P>, c: Info<T, P>, arrived: set<nat>)
    requires p.CutsOk()
  {
    var r := p.Reached(arrived, 0);
    && c.txns == p.target[..p.cuts[r]]
    && c.received == p.Waiting(arrived, r)
    && StoredOk(p, c.from, arrived, r)
    && if r == |p.reps| then c.phase == Synced
       else c.phase == Syncing && c.till == Some(Till(|p.target|, MerkleRoot(p.target)))
  }

  lemma UsableHonest<T, P>(p: Plan<T, P>, verify: (nat, nat, Root<T>, Root<T>, P) -> bool, c: Info<T, P>, j: nat)
    requires PlanOk(p, verify) && j < |p.reps| && c.phase == Syncing && |c.txns| <= p.cuts[j]
    ensures Usable(c, p.reps[j]) == p.Slice(j) && |p.Slice(j)| > 0
  {
    hide SortedItems;
    SortedHonest(p, j, verify);
    var es := p.Slice(j);
    assert p.cuts[j] < p.cuts[j + 1];
    assert es[0].seqNo > |c.txns|;
  }

  lemma StoredMore<T, P>(p: Plan<T, P>, from: map<Name, seq<Rep<T, P>>>, arrived: set<nat>, m: nat, j: nat, frm: Name)
    requires m <= j < |p.reps| && j !in arrived && StoredOk(p, from, arrived, m)
    requires forall j, k :: 0 <= j < k < |p.reps| ==> p.reps[j] != p.reps[k]
    ensures StoredOk(p, Stored(from, frm, p.reps[j]), arrived + {j}, m)
  {
    var from' := Stored(from, frm, p.reps[j]);
    var last := |from'[frm]| - 1;
    forall who, k | who in from' && 0 <= k < |from'[who]| ensures Expected(p, arrived + {j}, m, from'[who][k]) {
      if who != frm || k < last {
        assert Expected(p, arrived, m, from[who][k]);
      }
    }
    forall a, k, b, l | IsAt(from', a, k) && IsAt(from', b, l) && from'[a][k] == from'[b][l] ensures a == b && k == l {
      NotStoredTwice(p, from, arrived, m, j, frm, a, k);
      NotStoredTwice(p, from, arrived, m, j, frm, b, l);
    }
    forall k | k in arrived + {j} && m <= k < |p.reps| ensures exists name, i :: Holds(from', name, i, p.reps[k]) {
      if k == j {
        assert Holds(from', frm, |from'[frm]| - 1, p.reps[j]);
      } else {
        var name, i :| Holds(from, name, i, p.reps[k]);
        assert Holds(from', name, i, p.reps[k]);
      }
    }
  }

  /** What was stored before is not the new reply. */
  lemma NotStoredTwice<T, P>(p: Plan<T, P>, from: map<Name, seq<Rep<T, P>>>, arrived: set<nat>, m: nat, j: nat,
                             frm: Name, a: Name, k: int)
    requires m <= j < |p.reps| && j !in arrived && StoredOk(p, from, arrived, m)
    requires forall j, k :: 0 <= j < k < |p.reps| ==> p.reps[j] != p.reps[k]
    requires IsAt(Stored(from, frm, p.reps[j]), a, k)
    ensures
      var from' := Stored(from, frm, p.reps[j]);
      if from'[a][k] == p.reps[j] then a == frm && k == |from'[frm]| - 1
      else IsAt(from, a, k) && from[a][k] == from'[a][k]
  {
    if a != frm || k < |Stored(from, frm, p.reps[j])[frm]| - 1 {
      assert IsAt(from, a, k);
      assert Expected(p, arrived, m, from[a][k]);
    }
  }

  lemma {:induction false} ReachedFrom<T, P>(p: Plan<T, P>, arrived: set<nat>, m: nat, j: nat)
    requires p.CutsOk() && m <= |p.reps|
    ensures p.Reached(arrived + {j}, p.Reached(arrived, m)) == p.Reached(arrived + {j}, m)
    decreases |p.reps| - m
  {
    if m < |p.reps| && m in arrived {
      ReachedFrom(p, arrived, m + 1, j);
    }
  }

  lemma Arrival<T, P>(p: Plan<T, P>, env: Env<T, P>, c: Info<T, P>, arrived: set<nat>, j: nat, frm: Name)
    requires PlanOk(p, env.verify) && Progress(p, c, arrived)
    requires j < |p.reps| && j !in arrived
    requires frm in env.order && forall name :: name in c.from ==> name in env.order
    ensures Progress(p, ProcessRep(env, c, p.reps[j], frm), arrived + {j})
    ensures ProcessRep(env, c, p.reps[j], frm).blacklisted == c.blacklisted
  {
    hide ProcessReplies, Merge, Usable, StoredOk, PlanOk;
    PlanHasCuts(p, env.verify);
    var r := p.Reached(arrived, 0);
    assert r <= j;
    assert p.cuts[r] <= p.cuts[j];
    UsableHonest(p, env.verify, c, j);
    MergeWaiting(p, arrived, r, j);
    var from := Stored(c.from, frm, p.reps[j]);
    forall j, k | 0 <= j < k < |p.reps| ensures p.reps[j] != p.reps[k] { DistinctReps(p, env.verify, j, k); }
    StoredMore(p, c.from, arrived, r, j, frm);
    PassCompletes(p, env, from, arrived + {j}, r);
    ReachedFrom(p, arrived, 0, j);
  }

  // ----- a reply that does not verify -----

  /** The entries of a reply, in order, that are beyond a ledger of this size. */
  function NewEntries<T, P>(rep: Rep<T, P>, size: nat): seq<Entry<T>> {
    var es := SortedItems(rep.Entries());
    es[CountAtMost(es, size)..]
  }

  /** A reply to the request that is next, with something in it for which the proof does not hold. */
  ghost predicate Bad<T, P>(p: Plan<T, P>, verify: (nat, nat, Root<T>, Root<T>, P) -> bool, r: nat, rep: Rep<T, P>)
    requires p.CutsOk() && r < |p.reps|
  {
    var tree := p.target[..p.cuts[r]] + TxnsOf(NewEntries(rep, p.cuts[r]));
    && rep.IsDict() && rep.IsPlain() && NoGapsOrDups(rep) && rep.Has(p.cuts[r] + 1)
    && (forall i :: 0 <= i < |rep.items| ==> rep.items[i].key.number <= p.cuts[r + 1])
    && !verify(|tree|, |p.target|, MerkleRoot(tree), MerkleRoot(p.target), rep.proof)
  }

  lemma {:induction false} CountAppend<T>(a: seq<Entry<T>>, b: seq<Entry<T>>, size: nat)
    ensures CountAtMost(a + b, size) == CountAtMost(a, size) + CountAtMost(b, size)
    decreases |b|
  {
    if |b| == 0 {
      assert a + b == a;
    } else {
      CountAppend(a, b[..|b| - 1], size);
      assert (a + b)[..|a + b| - 1] == a + b[..|b| - 1];
    }
  }

  lemma {:induction false} KnownAppend<T, P>(a: seq<Entry<T>>, b: seq<Entry<T>>, rep: Rep<T, P>)
    ensures Known(a + b, rep) == Known(a, rep) + Known(b, rep)
    decreases |b|
  {
    if |b| == 0 {
      assert a + b == a;
    } else {
      KnownAppend(a, b[..|b| - 1], rep);
      assert (a + b)[..|a + b| - 1] == a + b[..|b| - 1];
    }
  }

  lemma {:induction false} NoneKnown<T, P>(es: seq<Entry<T>>, rep: Rep<T, P>)
    requires forall i :: 0 <= i < |es| ==> !rep.Has(es[i].seqNo)
    ensures Known(es, rep) == []
    decreases |es|
  {
    if |es| > 0 {
      NoneKnown(es[..|es| - 1], rep);
    }
  }

  /** The sorted entries of a plainly spelled reply are those it has. */
  lemma EntriesAre<T, P>(rep: Rep<T, P>, hi: int)
    requires rep.IsDict() && rep.IsPlain() && forall i :: 0 <= i < |rep.items| ==> rep.items[i].key.number <= hi
    ensures
      var es := SortedItems(rep.Entries());
      && |es| == |rep.items| && Increasing(es) && Sorted(es)
      && (forall i :: 0 <= i < |es| ==> es[i].seqNo <= hi && rep.Has(es[i].seqNo))
      && (forall s :: rep.Has(s) ==> s <= hi)
  {
    hide SortedItems;
    var es := SortedItems(rep.Entries());
    SortOk(rep.Entries());
    SortedDict(rep);
    forall i | 0 <= i < |es| ensures es[i].seqNo <= hi && rep.Has(es[i].seqNo) {
      assert es[i] in multiset(es);
      assert es[i] in rep.Entries();
      PlainHas(rep, es[i].seqNo);
    }
  }

  lemma HasEntry<T, P>(rep: Rep<T, P>, s: int) returns (i: nat)
    requires rep.IsPlain() && rep.Has(s)
    ensures i < |SortedItems(rep.Entries())| && SortedItems(rep.Entries())[i].seqNo == s
  {
    SortOk(rep.Entries());
    PlainHas(rep, s);
    i := Position(rep.Entries(), SortedItems(rep.Entries()), s);
  }

  /** What the pass sees of a bad reply: its new entries come first, begin with the next number, and are what it
      accounts for. */
  lemma BadIsFirst<T, P>(p: Plan<T, P>, verify: (nat, nat, Root<T>, Root<T>, P) -> bool, r: nat, rep: Rep<T, P>,
                         waiting: seq<Entry<T>>)
    requires p.CutsOk() && r < |p.reps| && Bad(p, verify, r, rep) && Beyond(p.cuts[r + 1], waiting)
    ensures
      var es := SortedItems(rep.Entries());
      var n := CountAtMost(es, p.cuts[r]);
      && Merge(waiting, es) == es + waiting && CountAtMost(es + waiting, p.cuts[r]) == n < |es|
      && es[n].seqNo == p.cuts[r] + 1
      && BatchFor((es + waiting)[n..], rep) == es[n..]
  {
    hide SortedItems, NoGapsOrDups, Known, Merge, CountAtMost;
    var es := SortedItems(rep.Entries());
    var n := CountAtMost(es, p.cuts[r]);
    EntriesAre(rep, p.cuts[r + 1]);
    MergeBefore(waiting, es, p.cuts[r + 1]);
    assert p.cuts[r] < p.cuts[r + 1];
    NoneAtMost(waiting, p.cuts[r]);
    CountAppend(es, waiting, p.cuts[r]);
    SkippedComeFirst(es, p.cuts[r]);
    var i := HasEntry(rep, p.cuts[r] + 1);
    assert es[n].seqNo <= es[i].seqNo;
    BatchIsNew(es, waiting, n, rep, p.cuts[r + 1]);
  }

  lemma BatchIsNew<T, P>(es: seq<Entry<T>>, waiting: seq<Entry<T>>, n: nat, rep: Rep<T, P>, hi: int)
    requires n <= |es| == |rep.items| && Beyond(hi, waiting)
    requires forall i :: 0 <= i < |es| ==> rep.Has(es[i].seqNo)
    requires forall s :: rep.Has(s) ==> s <= hi
    ensures BatchFor((es + waiting)[n..], rep) == es[n..]
  {
    hide Known;
    var rest := (es + waiting)[n..];
    var k := if |es| <= |rest| then n else |rest| - (|es| - n);
    var more := waiting[..k];
    assert Take(rest, |es|) == es[n..] + more;
    KnownAppend(es[n..], more, rep);
    AllKnown(es[n..], rep);
    NoneKnown(more, rep);
  }

  lemma {:induction false} FindInLast<T, P>(reps: seq<Rep<T, P>>, rep: Rep<T, P>, seqNo: int)
    requires rep.Has(seqNo) && forall i :: 0 <= i < |reps| ==> !reps[i].Has(seqNo)
    ensures FindIn(reps + [rep], seqNo) == Some(|reps|)
    decreases |reps|
  {
    if |reps| > 0 {
      assert (reps + [rep])[1..] == reps[1..] + [rep];
      FindInLast(reps[1..], rep, seqNo);
    }
  }

  lemma {:induction false} FindInNone<T, P>(reps: seq<Rep<T, P>>, seqNo: int)
    requires forall i :: 0 <= i < |reps| ==> !reps[i].Has(seqNo)
    ensures FindIn(reps, seqNo) == None
    decreases |reps|
  {
    if |reps| > 0 {
      FindInNone(reps[1..], seqNo);
    }
  }

  /** The reply that is found is the one just stored, when no other has the number. */
  lemma {:induction false} FindsStored<T, P>(order: seq<Name>, from: map<Name, seq<Rep<T, P>>>, frm: Name,
                                            rep: Rep<T, P>, seqNo: int)
    requires frm in order && rep.Has(seqNo)
    requires forall name, i :: name in from && 0 <= i < |from[name]| ==> !from[name][i].Has(seqNo)
    ensures
      var from' := Stored(from, frm, rep);
      Find(order, from', seqNo) == Some((frm, |from'[frm]| - 1))
    decreases |order|
  {
    var from' := Stored(from, frm, rep);
    var before := if frm in from then from[frm] else [];
    if order[0] == frm {
      FindInLast(before, rep, seqNo);
    } else {
      if order[0] in from' {
        FindInNone(from'[order[0]], seqNo);
      }
      FindsStored(order[1..], from, frm, rep, seqNo);
    }
  }

  /** A bad reply to the request that is next leaves no trace but its sender on the blacklist. */
  lemma BadArrival<T, P>(p: Plan<T, P>, env: Env<T, P>, c: Info<T, P>, arrived: set<nat>, rep: Rep<T, P>, frm: Name)
    requires PlanOk(p, env.verify) && Progress(p, c, arrived) && env.ownedByNode
    requires p.Reached(arrived, 0) < |p.reps| && Bad(p, env.verify, p.Reached(arrived, 0), rep)
    requires frm in env.order
    ensures
      var c' := ProcessRep(env, c, rep, frm);
      && Progress(p, c', arrived) && c'.blacklisted == c.blacklisted + {frm}
      && c'.txns == c.txns && c'.received == c.received && c'.phase == Syncing
  {
    hide Merge, StoredOk, PlanOk, Find, BatchFor, SortedItems, CountAtMost, NoGapsOrDups;
    PlanHasCuts(p, env.verify);
    var r := p.Reached(arrived, 0);
    var es := SortedItems(rep.Entries());
    var n := CountAtMost(es, p.cuts[r]);
    WaitingBeyond(p, arrived, r + 1);
    assert c.received == p.Waiting(arrived, r + 1);
    BadIsFirst(p, env.verify, r, rep, c.received);
    assert Usable(c, rep) == es;
    NoneHasNext(p, env.verify, c.from, arrived, r);
    FindsStored(env.order, c.from, frm, rep, p.cuts[r] + 1);
    var from := Stored(c.from, frm, rep);
    var merged := es + c.received;
    assert merged[n..][0] == es[n];
    var pass := ProcessReplies(env, c.till.value, c.txns, from, merged);
    assert pass == Pass(c.txns, Without(from, frm, |from[frm]| - 1), {frm}, |es|, false);
    assert merged[|es|..] == c.received;
    StoredThenWithout(p, c.from, arrived, r, frm, rep);
  }

  lemma NoneHasNext<T, P>(p: Plan<T, P>, verify: (nat, nat, Root<T>, Root<T>, P) -> bool,
                          from: map<Name, seq<Rep<T, P>>>, arrived: set<nat>, r: nat)
    requires PlanOk(p, verify) && r < |p.reps| && r !in arrived && StoredOk(p, from, arrived, r)
    ensures forall name, i :: name in from && 0 <= i < |from[name]| ==> !from[name][i].Has(p.cuts[r] + 1)
  {
    hide Honest;
    forall name, i | name in from && 0 <= i < |from[name]| ensures !from[name][i].Has(p.cuts[r] + 1) {
      assert Expected(p, arrived, r, from[name][i]);
      var j :| j in arrived && r <= j < |p.reps| && p.reps[j] == from[name][i];
      HonestHas(p, j, verify, p.cuts[r] + 1);
      assert p.cuts[r] < p.cuts[r + 1] <= p.cuts[j];
    }
  }

  lemma StoredThenWithout<T, P>(p: Plan<T, P>, from: map<Name, seq<Rep<T, P>>>, arrived: set<nat>, m: nat, frm: Name,
                                rep: Rep<T, P>)
    requires StoredOk(p, from, arrived, m)
    ensures
      var from' := Stored(from, frm, rep);
      StoredOk(p, Without(from', frm, |from'[frm]| - 1), arrived, m)
  {
    var stored := Stored(from, frm, rep);
    var from' := Without(stored, frm, |stored[frm]| - 1);
    assert from'[frm] == if frm in from then from[frm] else [];
    forall who, k ensures IsAt(from', who, k) <==> IsAt(from, who, k) {}
    forall j | j in arrived && m <= j < |p.reps| ensures exists name, i :: Holds(from', name, i, p.reps[j]) {
      var name, i :| Holds(from, name, i, p.reps[j]);
      assert Holds(from', name, i, p.reps[j]);
    }
    forall name, i | name in from' && 0 <= i < |from'[name]| ensures Expected(p, arrived, m, from'[name][i]) {
      assert from'[name][i] == from[name][i];
    }
    forall a, i, b, k | IsAt(from', a, i) && IsAt(from', b, k) && from'[a][i] == from'[b][k] ensures a == b && i == k {
      assert IsAt(from, a, i) && IsAt(from, b, k);
    }
  }

  lemma PlanHasCuts<T, P>(p: Plan<T, P>, verify: (nat, nat, Root<T>, Root<T>, P) -> bool)
    requires PlanOk(p, verify)
    ensures p.CutsOk()
  {}

  lemma {:induction false} PassKeys<T, P>(env: Env<T, P>, till: Till<T>, txns: seq<T>, from: map<Name, seq<Rep<T, P>>>,
                                         replies: seq<Entry<T>>)
    ensures ProcessReplies(env, till, txns, from, replies).from.Keys == from.Keys
    decreases |replies|
  {
    hide Find, BatchFor, CountAtMost;
    var n := CountAtMost(replies, |txns|);
    var rest := replies[n..];
    if |rest| > 0 && rest[0].seqNo - |txns| == 1 {
      match Find(env.order, from, rest[0].seqNo)
      case None =>
      case Some((name, i)) =>
        var rep := from[name][i];
        var batch := BatchFor(rest, rep);
        PassKeys(env, till, txns + TxnsOf(rest[..|batch|]), Without(from, name, i), rest[|batch|..]);
    }
  }

  lemma RepKeys<T, P>(env: Env<T, P>, c: Info<T, P>, rep: Rep<T, P>, frm: Name)
    requires c.phase == Syncing && c.till.Some?
    ensures ProcessRep(env, c, rep, frm).from.Keys <= c.from.Keys + {frm}
  {
    hide ProcessReplies, Merge, Usable;
    var es := Usable(c, rep);
    if |es| > 0 {
      PassKeys(env, c.till.value, c.txns, Stored(c.from, frm, rep), Merge(c.received, es));
    }
  }

  ghost function Senders<T, P>(events: seq<Event<T, P>>): set<Name> {
    set i | 0 <= i < |events| :: events[i].frm
  }

  /** Which requests have been answered: a delivery brings the reply to a request, or a bad one. */
  ghost function Arrived(which: seq<Option<nat>>): set<nat> {
    set i | 0 <= i < |which| && which[i].Some? :: which[i].value
  }

  /** Delivery `i` is the honest reply to the request named, which was not answered before, or a bad reply to the
      request that is next then. */
  ghost predicate DeliveryOk<T, P>(p: Plan<T, P>, env: Env<T, P>, which: seq<Option<nat>>, i: nat, rep: Rep<T, P>)
    requires p.CutsOk() && i < |which|
  {
    var arrived := Arrived(which[..i]);
    match which[i]
    case Some(j) => j < |p.reps| && j !in arrived && rep == p.reps[j]
    case None =>
      var r := p.Reached(arrived, 0);
      env.ownedByNode && r < |p.reps| && Bad(p, env.verify, r, rep)
  }

  /** The deliveries of a catch-up; the senders so far are all looked through. */
  ghost predicate Deliveries<T, P>(p: Plan<T, P>, env: Env<T, P>, which: seq<Option<nat>>, events: seq<Event<T, P>>)
    requires p.CutsOk()
  {
    && |events| == |which|
    && (forall i :: 0 <= i < |which| ==> DeliveryOk(p, env, which, i, events[i].rep))
    && (forall i, j :: 0 <= i <= j < |events| ==> events[i].frm in events[j].order)
  }

  /** Who sent something bad. */
  ghost function BadSenders<T, P>(which: seq<Option<nat>>, events: seq<Event<T, P>>): set<Name>
    requires |events| == |which|
  {
    set i | 0 <= i < |which| && which[i] == None :: events[i].frm
  }

  ghost predicate Begun<T, P>(p: Plan<T, P>, c: Info<T, P>) {
    && p.CutsOk() && |p.reps| > 0
    && c.phase == Syncing && c.till == Some(Till(|p.target|, MerkleRoot(p.target)))
    && c.txns == p.target[..p.cuts[0]] && c.received == [] && c.from == map[]
  }

  lemma {:induction false} NothingWaiting<T, P>(p: Plan<T, P>, m: nat)
    requires p.CutsOk() && m <= |p.reps|
    ensures p.Waiting({}, m) == []
    decreases |p.reps| - m
  {
    if m < |p.reps| {
      NothingWaiting(p, m + 1);
    }
  }

  /** After any deliveries the ledger has got to the first request without an honest reply, exactly the later replies
      wait, and exactly the senders of bad ones are blacklisted. */
  lemma {:induction false} DeliveriesProgress<T, P>(p: Plan<T, P>, env: Env<T, P>, c: Info<T, P>,
                                                   which: seq<Option<nat>>, events: seq<Event<T, P>>)
    requires PlanOk(p, env.verify) && Begun(p, c) && Deliveries(p, env, which, events)
    ensures
      var c' := Process(env, c, events);
      && Progress(p, c', Arrived(which)) && c'.blacklisted == c.blacklisted + BadSenders(which, events)
      && c'.from.Keys <= Senders(events)
    decreases |events|
  {
    hide PlanOk, ProcessRep, Progress, Deliveries, Bad, Arrived, BadSenders, Senders;
    PlanHasCuts(p, env.verify);
    if |events| == 0 {
      BegunProgress(p, env, c, which, events);
    } else {
      var n := |events| - 1;
      DeliveriesBefore(p, env, which, events, n);
      DeliveriesProgress(p, env, c, which[..n], events[..n]);
      var c' := Process(env, c, events[..n]);
      match which[n]
      case Some(j) => OneDelivery(p, env, c', Arrived(which[..n]), j, events[n]);
      case None => OneBadDelivery(p, env, c', Arrived(which[..n]), events[n]);
    }
  }

  lemma BegunProgress<T, P>(p: Plan<T, P>, env: Env<T, P>, c: Info<T, P>, which: seq<Option<nat>>,
                            events: seq<Event<T, P>>)
    requires Begun(p, c) && Deliveries(p, env, which, events) && |events| == 0
    ensures Progress(p, c, Arrived(which)) && BadSenders(which, events) == {}
  {
    NothingWaiting(p, 0);
    assert Arrived(which) == {};
  }

  lemma DeliveriesBefore<T, P>(p: Plan<T, P>, env: Env<T, P>, which: seq<Option<nat>>, events: seq<Event<T, P>>, n: nat)
    requires p.CutsOk() && Deliveries(p, env, which, events) && |events| == n + 1
    ensures |which| == n + 1 && Deliveries(p, env, which[..n], events[..n])
    ensures DeliveryOk(p, env, which, n, events[n].rep)
    ensures Arrived(which) == if which[n].Some? then Arrived(which[..n]) + {which[n].value} else Arrived(which[..n])
    ensures
      var before := BadSenders(which[..n], events[..n]);
      BadSenders(which, events) == if which[n].Some? then before else before + {events[n].frm}
    ensures Senders(events[..n]) + {events[n].frm} <= Senders(events)
    ensures forall name :: name in Senders(events[..n]) + {events[n].frm} ==> name in events[n].order
  {
    hide DeliveryOk;
    forall i | 0 <= i < n ensures DeliveryOk(p, env, which[..n], i, events[..n][i].rep) {
      assert DeliveryOk(p, env, which, i, events[i].rep);
      SameDelivery(p, env, which, n, i, events[i].rep);
    }
    forall name | name in Senders(events[..n]) ensures name in events[n].order && name in Senders(events) {
      var i :| 0 <= i < n && events[..n][i].frm == name;
      assert events[i].frm == name;
    }
    ArrivedMore(which, n);
    forall name ensures name in BadSenders(which, events) <==>
      name in BadSenders(which[..n], events[..n]) || (which[n] == None && name == events[n].frm)
    {
      if i :| 0 <= i < n && which[i] == None && events[i].frm == name {
        assert which[..n][i] == None && events[..n][i].frm == name;
      }
    }
  }

  lemma ArrivedMore(which: seq<Option<nat>>, n: nat)
    requires |which| == n + 1
    ensures Arrived(which) == if which[n].Some? then Arrived(which[..n]) + {which[n].value} else Arrived(which[..n])
  {
    forall j: nat ensures j in Arrived(which) <==> j in Arrived(which[..n]) || which[n] == Some(j) {
      if i :| 0 <= i < n && which[i].Some? && which[i].value == j {
        assert which[..n][i] == Some(j);
      }
    }
  }

  lemma SameDelivery<T, P>(p: Plan<T, P>, env: Env<T, P>, which: seq<Option<nat>>, n: nat, i: nat, rep: Rep<T, P>)
    requires p.CutsOk() && i < n <= |which| && DeliveryOk(p, env, which, i, rep)
    ensures DeliveryOk(p, env, which[..n], i, rep)
  {
    assert which[..n][..i] == which[..i];
  }

  lemma OneDelivery<T, P>(p: Plan<T, P>, env: Env<T, P>, c: Info<T, P>, arrived: set<nat>, j: nat, e: Event<T, P>)
    requires PlanOk(p, env.verify) && p.CutsOk() && Progress(p, c, arrived)
    requires j < |p.reps| && j !in arrived && e.rep == p.reps[j]
    requires e.frm in e.order && forall name :: name in c.from.Keys ==> name in e.order
    ensures c.phase == Syncing && c.till.Some?
    ensures
      var c' := ProcessRep(env.(order := e.order), c, e.rep, e.frm);
      Progress(p, c', arrived + {j}) && c'.blacklisted == c.blacklisted && c'.from.Keys <= c.from.Keys + {e.frm}
  {
    hide PlanOk, ProcessRep, StoredOk;
    assert p.Reached(arrived, 0) <= j;
    assert PlanOk(p, env.(order := e.order).verify);
    Arrival(p, env.(order := e.order), c, arrived, j, e.frm);
    RepKeys(env.(order := e.order), c, e.rep, e.frm);
  }

  lemma OneBadDelivery<T, P>(p: Plan<T, P>, env: Env<T, P>, c: Info<T, P>, arrived: set<nat>, e: Event<T, P>)
    requires PlanOk(p, env.verify) && p.CutsOk() && Progress(p, c, arrived) && env.ownedByNode
    requires p.Reached(arrived, 0) < |p.reps| && Bad(p, env.verify, p.Reached(arrived, 0), e.rep)
    requires e.frm in e.order
    ensures c.phase == Syncing && c.till.Some?
    ensures
      var c' := ProcessRep(env.(order := e.order), c, e.rep, e.frm);
      Progress(p, c', arrived) && c'.blacklisted == c.blacklisted + {e.frm} && c'.from.Keys <= c.from.Keys + {e.frm}
  {
    hide PlanOk, ProcessRep, StoredOk, Bad;
    assert PlanOk(p, env.(order := e.order).verify);
    BadArrival(p, env.(order := e.order), c, arrived, e.rep, e.frm);
    RepKeys(env.(order := e.order), c, e.rep, e.frm);
  }

  /** Catch-up completes: the replies to all requests of a catch-up arrive, in any order, with bad replies in between
      that claim to answer the request that is next. However they interleave, the ledger ends as the target, nothing
      is left over, and exactly the senders of bad replies are blacklisted. */
  lemma CatchupCompletes<T, P>(p: Plan<T, P>, env: Env<T, P>, c: Info<T, P>, which: seq<Option<nat>>,
                               events: seq<Event<T, P>>)
    requires PlanOk(p, env.verify) && Begun(p, c) && Deliveries(p, env, which, events)
    requires forall j: nat :: j < |p.reps| ==> Some(j) in which
    ensures
      var c' := Process(env, c, events);
      && c'.txns == p.target && c'.phase == Synced && c'.received == []
      && c'.blacklisted == c.blacklisted + BadSenders(which, events)
  {
    hide PlanOk, StoredOk, Process, Deliveries;
    DeliveriesProgress(p, env, c, which, events);
    forall j: nat | j < |p.reps| ensures j in Arrived(which) {
      var i :| 0 <= i < |which| && which[i] == Some(j);
    }
    assert p.Reached(Arrived(which), 0) == |p.reps|;
    assert p.target[..|p.target|] == p.target;
  }
}
