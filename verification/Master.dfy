/** The master replica's work on a ledger and its state, as an object. */
module MasterObject {
  import opened Messages
  import opened Ledgers
  import opened Batches

  class Master<S(==), R(==), T(==)> {
    const handler: Handler<S, R, T>
    const ledger: Ledger<T>
    var head: S
    var committedHead: S

    constructor (handler: Handler<S, R, T>, ledger: Ledger<T>)
      ensures this.handler == handler && this.ledger == ledger
      ensures Value() == Book(ledger.Value(), handler.genesis, handler.genesis)
    {
      this.handler, this.ledger := handler, ledger;
      head, committedHead := handler.genesis, handler.genesis;
    }

    function Value(): Book<S, T>
      reads this, ledger
    {
      Book(ledger.Value(), head, committedHead)
    }

    method ApplyRequest(req: R)
      modifies this`head, ledger
      ensures Value() == ApplyReq(handler, old(Value()), req)
    {
      var txn := handler.toTxn(req);
      var start, end := ledger.AppendTxns([txn]);
      head := handler.update(head, txn, start);
    }

    method ProcessReqDuringBatch(req: R, validReqs: seq<R>, inValidReqs: seq<R>)
      returns (validReqs': seq<R>, inValidReqs': seq<R>)
      modifies this`head, ledger
      ensures Split(Value(), validReqs', inValidReqs')
           == ProcessReq(handler, Split(old(Value()), validReqs, inValidReqs), req)
    {
      validReqs', inValidReqs' := validReqs, inValidReqs;
      if handler.valid(head, ledger.txns, req) {
        ApplyRequest(req);
        validReqs' := validReqs + [req];
      } else {
        inValidReqs' := inValidReqs + [req];
      }
    }

    /** Takes requests from the front of the queue until the batch is full or the queue is empty. */
    method Create3PCBatch(queue: seq<ReqKey>, requests: map<ReqKey, R>, maxSize: nat)
      returns (batch: Batch<S, R, T>, rest: seq<ReqKey>)
      requires forall k :: k in queue ==> k in requests
      modifies this`head, ledger
      ensures
        var taken := Take(queue, maxSize);
        var s := ProcessReqs(handler, old(Value()), Lookup(requests, taken));
        Value() == s.book && batch == BatchOf(handler, s) && queue == taken + rest
    {
      hide ApplyReq;
      var validReqs: seq<R>, inValidReqs: seq<R> := [], [];
      rest := queue;
      ghost var n := 0;
      while |validReqs| + |inValidReqs| < maxSize && rest != []
        invariant n == |validReqs| + |inValidReqs| <= maxSize && n <= |queue| && rest == queue[n..]
        invariant Split(Value(), validReqs, inValidReqs)
               == ProcessReqs(handler, old(Value()), Lookup(requests, queue[..n]))
        decreases |rest|
      {
        var key := rest[0];
        rest := rest[1..];
        LookupNext(requests, queue, n);
        validReqs, inValidReqs := ProcessReqDuringBatch(requests[key], validReqs, inValidReqs);
        n := n + 1;
      }
      assert Take(queue, maxSize) == queue[..n];
      var reqs := validReqs + inValidReqs;
      batch := Batch(Keys(handler, reqs), |validReqs|, Digest(reqs), head, ledger.Value().SeenRoot());
    }

    method Revert(oldHead: S, count: nat)
      modifies this`head, ledger
      ensures Value() == Reverted(old(Value()), oldHead, count)
    {
      head := oldHead;
      ledger.DiscardTxns(count);
    }

    method Replay(requests: map<ReqKey, R>, reqIdr: seq<ReqKey>) returns (validReqs: seq<R>, inValidReqs: seq<R>)
      requires forall k :: k in reqIdr ==> k in requests
      modifies this`head, ledger
      ensures Split(Value(), validReqs, inValidReqs)
           == ProcessReqs(handler, old(Value()), Lookup(requests, reqIdr))
    {
      validReqs, inValidReqs := [], [];
      for i := 0 to |reqIdr|
        invariant Split(Value(), validReqs, inValidReqs)
               == ProcessReqs(handler, old(Value()), Lookup(requests, reqIdr[..i]))
      {
        LookupNext(requests, reqIdr, i);
        validReqs, inValidReqs := ProcessReqDuringBatch(requests[reqIdr[i]], validReqs, inValidReqs);
      }
      assert reqIdr[..|reqIdr|] == reqIdr;
    }

    method ValidatePrePrepare(requests: map<ReqKey, R>, pp: Batch<S, R, T>) returns (verdict: Verdict)
      requires forall k :: k in pp.reqIdr ==> k in requests
      modifies this`head, ledger
      ensures (Value(), verdict) == Validated(handler, old(Value()), Lookup(requests, pp.reqIdr), pp)
    {
      hide ProcessReqs, Discarded, Lookup;
      var oldHead := head;
      var validReqs, inValidReqs := Replay(requests, pp.reqIdr);
      if |validReqs| != pp.discarded {
        Revert(oldHead, |validReqs|);
        return RejectWrong;
      }
      if Digest(validReqs + inValidReqs) != pp.digest {
        Revert(oldHead, |validReqs|);
        return DigestWrong;
      }
      if pp.stateRoot != head {
        Revert(oldHead, |validReqs|);
        return StateWrong;
      }
      if pp.txnRoot != ledger.Value().SeenRoot() {
        Revert(oldHead, |validReqs|);
        return TxnWrong;
      }
      return Accepted;
    }

    /** `RequestHandler.commit`; `held` is the outcome of its root assertion. */
    method Commit(count: nat, stateRoot: S, txnRoot: Root<T>) returns (held: bool, committed: seq<T>)
      modifies this`committedHead, ledger
      ensures (Value(), held) == Executed(old(Value()), count, stateRoot, txnRoot)
      ensures committed == Take(old(ledger.uncommittedTxns), count)
    {
      var start, end;
      start, end, committed := ledger.CommitTxns(count);
      held := MerkleRoot(ledger.txns) == txnRoot;
      if held {
        committedHead := stateRoot;
      }
    }
  }

  lemma LookupNext<R>(requests: map<ReqKey, R>, keys: seq<ReqKey>, i: nat)
    requires forall k :: k in keys ==> k in requests
    requires i < |keys|
    ensures |Lookup(requests, keys[..i + 1])| == i + 1
    ensures Lookup(requests, keys[..i + 1])[..i] == Lookup(requests, keys[..i])
    ensures Lookup(requests, keys[..i + 1])[i] == requests[keys[i]]
  {}

  /** When every request is stored under its own key, the batch lists each of the keys taken from the queue once. */
  lemma BatchKeysAreTaken<S, R, T>(h: Handler<S, R, T>, b: Book<S, T>, taken: seq<ReqKey>, requests: map<ReqKey, R>)
    requires forall k :: k in taken ==> k in requests && h.keyOf(requests[k]) == k
    ensures multiset(BatchOf(h, ProcessReqs(h, b, Lookup(requests, taken))).reqIdr) == multiset(taken)
  {
    hide ProcessReqs;
    var reqs := Lookup(requests, taken);
    var s := ProcessReqs(h, b, reqs);
    SplitKeys(h, b, reqs);
    assert Keys(h, reqs) == taken;
  }

  lemma {:induction false} SplitKeys<S, R, T>(h: Handler<S, R, T>, b: Book<S, T>, reqs: seq<R>)
    ensures
      var s := ProcessReqs(h, b, reqs);
      multiset(Keys(h, s.accepted + s.rejected)) == multiset(Keys(h, reqs))
    decreases |reqs|
  {
    hide ApplyReq, Keys;
    if |reqs| > 0 {
      var n := |reqs| - 1;
      SplitKeys(h, b, reqs[..n]);
      var s := ProcessReqs(h, b, reqs[..n]);
      assert reqs == reqs[..n] + [reqs[n]];
      KeysOfBoth(h, reqs[..n], [reqs[n]]);
      KeysOfBoth(h, s.accepted, s.rejected);
      KeysOfBoth(h, s.accepted + [reqs[n]], s.rejected);
      KeysOfBoth(h, s.accepted, s.rejected + [reqs[n]]);
      KeysOfBoth(h, s.accepted, [reqs[n]]);
      KeysOfBoth(h, s.rejected, [reqs[n]]);
    } else {
      assert [] + [] == reqs;
    }
  }

  lemma KeysOfBoth<S, R, T>(h: Handler<S, R, T>, a: seq<R>, b: seq<R>)
    ensures Keys(h, a + b) == Keys(h, a) + Keys(h, b)
  {}
}
