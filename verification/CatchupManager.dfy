/** The catch-up part of the ledger manager for one ledger, as an object. */
module CatchupObject {
  import opened Messages
  import opened Ledgers
  import opened Catchup

  class CatchupManager<T, P> {
    var txns: seq<T>
    var phase: Phase
    var till: Option<Till<T>>
    var received: seq<Entry<T>>
    var from: map<Name, seq<Rep<T, P>>>
    var blacklisted: set<Name>

    function Value(): Info<T, P>
      reads this
    {
      Info(txns, phase, till, received, from, blacklisted)
    }

    constructor (txns: seq<T>)
      ensures Value() == Info(txns, NotSynced, None, [], map[], {})
    {
      this.txns, phase, till, received, from, blacklisted := txns, NotSynced, None, [], map[], {};
    }

    /** `startCatchUpProcess`, without the requests it sends. */
    method Start(target: Till<T>)
      modifies this`phase, this`till
      ensures Value() == old(Value()).(phase := Syncing, till := Some(target))
    {
      phase, till := Syncing, Some(target);
    }

    method GetCatchupReplyForSeqNo(order: seq<Name>, seqNo: int) returns (r: Option<(Name, nat)>)
      ensures r == Find(order, from, seqNo)
    {
      for k := 0 to |order|
        invariant Find(order, from, seqNo) == Find(order[k..], from, seqNo)
      {
        if order[k] in from {
          var reps := from[order[k]];
          for i := 0 to |reps|
            invariant FindIn(reps, seqNo)
                   == var r := FindIn(reps[i..], seqNo); if r == None then None else Some(r.value + i)
          {
            if reps[i].Has(seqNo) {
              return Some((order[k], i));
            }
          }
        }
      }
      return None;
    }

    /** Takes out the first reply of the node that has the number, or the last one when none has it. */
    method RemovePrcdCatchupReply(node: Name, seqNo: int)
      requires node in from && |from[node]| > 0
      modifies this`from
      ensures
        var reps := old(from)[node];
        var i := if FindIn(reps, seqNo) == None then |reps| - 1 else FindIn(reps, seqNo).value;
        from == Without(old(from), node, i)
    {
      var reps := from[node];
      var i := 0;
      while i < |reps| - 1 && !reps[i].Has(seqNo)
        invariant 0 <= i < |reps|
        invariant FindIn(reps, seqNo)
               == var r := FindIn(reps[i..], seqNo); if r == None then None else Some(r.value + i)
      {
        i := i + 1;
      }
      from := from[node := reps[..i] + reps[i + 1..]];
    }

    method AddToLedger(es: seq<Entry<T>>)
      modifies this`txns
      ensures txns == old(txns) + TxnsOf(es)
    {
      for i := 0 to |es|
        invariant txns == old(txns) + TxnsOf(es[..i])
      {
        assert TxnsOf(es[..i + 1]) == TxnsOf(es[..i]) + [es[i].txn];
        txns := txns + [es[i].txn];
      }
      assert es[..|es|] == es;
    }

    method ProcessCatchupReplies(env: Env<T, P>, replies: seq<Entry<T>>) returns (count: nat, raised: bool)
      requires till.Some?
      modifies this`txns, this`from, this`blacklisted
      ensures
        var p := ProcessReplies(env, till.value, old(txns), old(from), replies);
        && count == p.count && raised == p.raised && txns == p.txns && from == p.from
        && blacklisted == old(blacklisted) + p.blacklisted
      decreases |replies|
    {
      hide Find, FindIn, BatchFor, CountAtMost, TxnsOf;
      var numProcessed := CountAtMost(replies, |txns|);
      var rest := replies[numProcessed..];
      if |rest| == 0 || rest[0].seqNo - |txns| != 1 {
        return numProcessed, false;
      }
      var found := GetCatchupReplyForSeqNo(env.order, rest[0].seqNo);
      if found == None {
        return numProcessed, true;
      }
      var (nodeName, i) := found.value;
      var rep := from[nodeName][i];
      var batch := BatchFor(rest, rep);
      var tree := txns + TxnsOf(batch);
      FoundIsFirst(env.order, from, rest[0].seqNo);
      if env.verify(|tree|, till.value.seqNoEnd, MerkleRoot(tree), till.value.root, rep.proof) {
        AddToLedger(rest[..|batch|]);
        RemovePrcdCatchupReply(nodeName, rest[0].seqNo);
        var more;
        more, raised := ProcessCatchupReplies(env, rest[|batch|..]);
        count := numProcessed + |batch| + more;
      } else if env.ownedByNode {
        blacklisted := blacklisted + {nodeName};
        RemovePrcdCatchupReply(nodeName, rest[0].seqNo);
        return numProcessed + |batch|, false;
      } else {
        return numProcessed, false;
      }
    }

    method ProcessCatchupRep(env: Env<T, P>, rep: Rep<T, P>, frm: Name)
      requires phase == Syncing ==> till.Some?
      modifies this
      ensures Value() == ProcessRep(env, old(Value()), rep, frm)
    {
      hide ProcessReplies, Merge;
      var es := Usable(Value(), rep);
      if |es| == 0 {
        return;
      }
      if frm !in from {
        from := from[frm := []];
      }
      from := from[frm := from[frm] + [rep]];
      assert from == Stored(old(from), frm, rep);
      var merged := Merge(received, es);
      var numProcessed, raised := ProcessCatchupReplies(env, merged);
      if raised {
        return;
      }
      received := merged[numProcessed..];
      if till.value.seqNoEnd == |txns| {
        till := None;
        phase := Synced;
      }
    }
  }

  lemma {:induction false} FoundIsFirst<T, P>(order: seq<Name>, from: map<Name, seq<Rep<T, P>>>, seqNo: int)
    ensures
      var r := Find(order, from, seqNo);
      r.Some? ==> r.value.0 in from && FindIn(from[r.value.0], seqNo) == Some(r.value.1)
    decreases |order|
  {
    if |order| > 0 {
      FoundIsFirst(order[1..], from, seqNo);
    }
  }
}
