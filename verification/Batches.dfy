/** Batches on one ledger of the master instance: applied when they are created or received, taken back when a check
    fails, committed when they are ordered.

    A state root, a batch digest and a transaction root are injective functions of the state, of the list of requests
    and of the list of transactions, so the model uses those in their place.
 */
module Batches {
  import opened Messages
  import opened Ledgers

  /** What a request handler brings: dynamic validation against the uncommitted state and the committed transactions,
      the transaction of a request, and the state after a transaction with a given sequence number. */
  datatype Handler<!S, !R, !T> =
    Handler(genesis: S, valid: (S, seq<T>, R) -> bool, toTxn: R -> T, update: (S, T, nat) -> S, keyOf: R -> ReqKey)
  {
    predicate Allows(b: Book<S, T>, r: R) { valid(b.head, b.ledger.txns, r) }
  }

  /** A ledger and its state: the head, and the head last committed. */
  datatype Book<S, T> = Book(ledger: LedgerState<T>, head: S, committedHead: S)

  datatype Digest<R> = Digest(reqs: seq<R>)

  /** The part of a PRE-PREPARE that the replay of its requests is checked against. */
  datatype Batch<S, R, T> =
    Batch(reqIdr: seq<ReqKey>, discarded: nat, digest: Digest<R>, stateRoot: S, txnRoot: Root<T>)

  /** The state of the loop over the requests of a batch. */
  datatype Split<S, R, T> = Split(book: Book<S, T>, accepted: seq<R>, rejected: seq<R>)

  datatype Verdict = Accepted | RejectWrong | DigestWrong | StateWrong | TxnWrong

  // ----- what the operations compute -----

  function ApplyReq<S, R, T>(h: Handler<S, R, T>, b: Book<S, T>, r: R): Book<S, T> {
    var txn := h.toTxn(r);
    b.(ledger := Applied(b.ledger, [txn]), head := h.update(b.head, txn, b.ledger.UncommittedSize() + 1))
  }

  function ProcessReq<S, R, T>(h: Handler<S, R, T>, s: Split<S, R, T>, r: R): Split<S, R, T> {
    if h.Allows(s.book, r)
    then Split(ApplyReq(h, s.book, r), s.accepted + [r], s.rejected)
    else s.(rejected := s.rejected + [r])
  }

  function ProcessReqs<S, R, T>(h: Handler<S, R, T>, b: Book<S, T>, reqs: seq<R>): Split<S, R, T>
    decreases |reqs|
  {
    if |reqs| == 0 then Split(b, [], [])
    else ProcessReq(h, ProcessReqs(h, b, reqs[..|reqs| - 1]), reqs[|reqs| - 1])
  }

  function Keys<S, R, T>(h: Handler<S, R, T>, reqs: seq<R>): seq<ReqKey> {
    seq(|reqs|, i requires 0 <= i < |reqs| => h.keyOf(reqs[i]))
  }

  function BatchOf<S, R, T>(h: Handler<S, R, T>, s: Split<S, R, T>): Batch<S, R, T> {
    var reqs := s.accepted + s.rejected;
    Batch(Keys(h, reqs), |s.accepted|, Digest(reqs), s.book.head, s.book.ledger.SeenRoot())
  }

  function Reverted<S, T>(b: Book<S, T>, oldHead: S, count: nat): Book<S, T> {
    b.(head := oldHead, ledger := Discarded(b.ledger, count))
  }

  function Lookup<R>(requests: map<ReqKey, R>, keys: seq<ReqKey>): seq<R>
    requires forall k :: k in keys ==> k in requests
  {
    seq(|keys|, i requires 0 <= i < |keys| => requests[keys[i]])
  }

  function Judge<S(==), R(==), T(==)>(s: Split<S, R, T>, pp: Batch<S, R, T>): Verdict {
    if |s.accepted| != pp.discarded then RejectWrong
    else if Digest(s.accepted + s.rejected) != pp.digest then DigestWrong
    else if pp.stateRoot != s.book.head then StateWrong
    else if pp.txnRoot != s.book.ledger.SeenRoot() then TxnWrong
    else Accepted
  }

  function Validated<S(==), R(==), T(==)>(h: Handler<S, R, T>, b: Book<S, T>, reqs: seq<R>, pp: Batch<S, R, T>)
    : (Book<S, T>, Verdict)
  {
    var s := ProcessReqs(h, b, reqs);
    var v := Judge(s, pp);
    (if v == Accepted then s.book else Reverted(s.book, b.head, |s.accepted|), v)
  }

  /** The flag says whether the root assertion held; when it fails, the state is not committed. */
  function Executed<S, T(==)>(b: Book<S, T>, count: nat, stateRoot: S, txnRoot: Root<T>): (Book<S, T>, bool) {
    var ledger := Committed(b.ledger, count);
    if MerkleRoot(ledger.txns) == txnRoot then (b.(ledger := ledger, committedHead := stateRoot), true)
    else (b.(ledger := ledger), false)
  }

  // ----- state and ledger agree -----

  /** The state that a list of transactions leads to. */
  function StateOf<S, R, T>(h: Handler<S, R, T>, txns: seq<T>): S
    decreases |txns|
  {
    if |txns| == 0 then h.genesis
    else h.update(StateOf(h, txns[..|txns| - 1]), txns[|txns| - 1], |txns|)
  }

  function Pending<S, T>(b: Book<S, T>): seq<T> { b.ledger.txns + b.ledger.uncommittedTxns }

  ghost predicate BookOk<S, R, T>(h: Handler<S, R, T>, b: Book<S, T>) {
    && b.ledger.CacheOk()
    && b.head == StateOf(h, Pending(b))
    && b.committedHead == StateOf(h, b.ledger.txns)
  }

  function Txns<S, R, T>(h: Handler<S, R, T>, reqs: seq<R>): seq<T> {
    seq(|reqs|, i requires 0 <= i < |reqs| => h.toTxn(reqs[i]))
  }

  lemma SeenRootIs<S, R, T>(h: Handler<S, R, T>, b: Book<S, T>)
    requires BookOk(h, b)
    ensures b.ledger.SeenRoot() == MerkleRoot(Pending(b))
  {
    if b.ledger.uncommittedTree == None {
      assert Pending(b) == b.ledger.txns;
    }
  }

  lemma StateOfMore<S, R, T>(h: Handler<S, R, T>, txns: seq<T>, txn: T)
    ensures StateOf(h, txns + [txn]) == h.update(StateOf(h, txns), txn, |txns| + 1)
  {
    assert (txns + [txn])[..|txns|] == txns;
  }

  lemma ApplyReqOk<S, R, T>(h: Handler<S, R, T>, b: Book<S, T>, r: R)
    requires BookOk(h, b)
    ensures BookOk(h, ApplyReq(h, b, r))
    ensures
      var l := ApplyReq(h, b, r).ledger;
      l.txns == b.ledger.txns && l.uncommittedTxns == b.ledger.uncommittedTxns + [h.toTxn(r)]
  {
    hide StateOf;
    var txn := h.toTxn(r);
    CacheStaysOk(b.ledger, Op.Apply([txn]));
    assert b.ledger.txns + (b.ledger.uncommittedTxns + [txn]) == Pending(b) + [txn];
    StateOfMore(h, Pending(b), txn);
  }

  lemma TxnsOfNone<S, R, T>(h: Handler<S, R, T>)
    ensures Txns(h, []) == []
  {}

  lemma TxnsOfMore<S, R, T>(h: Handler<S, R, T>, pending: seq<T>, reqs: seq<R>, r: R)
    ensures pending + Txns(h, reqs + [r]) == pending + Txns(h, reqs) + [h.toTxn(r)]
  {
    assert Txns(h, reqs + [r]) == Txns(h, reqs) + [h.toTxn(r)];
  }

  /** Whatever the requests are, the loop over them splits them into the two lists, keeps state and ledger in step and
      puts exactly the accepted ones, in order, after what was pending. */
  lemma {:induction false} ProcessReqsOk<S, R, T>(h: Handler<S, R, T>, b: Book<S, T>, reqs: seq<R>)
    requires BookOk(h, b)
    ensures
      var s := ProcessReqs(h, b, reqs);
      && BookOk(h, s.book)
      && multiset(s.accepted) + multiset(s.rejected) == multiset(reqs)
      && s.book.ledger.txns == b.ledger.txns
      && s.book.ledger.uncommittedTxns == b.ledger.uncommittedTxns + Txns(h, s.accepted)
      && s.book.committedHead == b.committedHead
    decreases |reqs|
  {
    hide BookOk, StateOf, Applied, Txns;
    if |reqs| == 0 {
      TxnsOfNone(h);
    } else {
      var n := |reqs| - 1;
      ProcessReqsOk(h, b, reqs[..n]);
      var s := ProcessReqs(h, b, reqs[..n]);
      assert reqs == reqs[..n] + [reqs[n]];
      if h.Allows(s.book, reqs[n]) {
        ApplyReqOk(h, s.book, reqs[n]);
        TxnsOfMore(h, b.ledger.uncommittedTxns, s.accepted, reqs[n]);
      }
    }
  }

  // ----- a refused PRE-PREPARE leaves nothing behind -----

  /** What can be seen of a book. */
  function Seen<S, T>(b: Book<S, T>): (seq<T>, seq<T>, Root<T>, S, S) {
    (b.ledger.txns, b.ledger.uncommittedTxns, b.ledger.SeenRoot(), b.head, b.committedHead)
  }

  lemma RevertUndoes<S, R, T>(h: Handler<S, R, T>, b: Book<S, T>, reqs: seq<R>)
    requires BookOk(h, b)
    ensures
      var s := ProcessReqs(h, b, reqs);
      var b' := Reverted(s.book, b.head, |s.accepted|);
      && (Seen(b') == Seen(b) <==> s.accepted != [] || b.ledger.uncommittedTxns == [])
      && (s.accepted == [] ==> b'.ledger == LedgerState(b.ledger.txns, [], None, None))
      && (s.accepted != [] || b.ledger.uncommittedTxns == [] ==> BookOk(h, b'))
  {
    hide ProcessReqs, StateOf, Txns;
    ProcessReqsOk(h, b, reqs);
    var s := ProcessReqs(h, b, reqs);
    TxnsLength(h, s.accepted);
    DiscardAfter(b.ledger, s.book.ledger, Txns(h, s.accepted));
  }

  lemma TxnsLength<S, R, T>(h: Handler<S, R, T>, reqs: seq<R>)
    ensures |Txns(h, reqs)| == |reqs|
  {}

  /** Discarding what was added to the pending list of a ledger. */
  lemma DiscardAfter<T>(l: LedgerState<T>, l': LedgerState<T>, more: seq<T>)
    requires l.CacheOk() && l'.CacheOk() && l'.txns == l.txns && l'.uncommittedTxns == l.uncommittedTxns + more
    ensures
      var r := Discarded(l', |more|);
      && r.CacheOk() && r.txns == l.txns
      && (r.uncommittedTxns == l.uncommittedTxns <==> more != [] || l.uncommittedTxns == [])
      && (r.uncommittedTxns == l.uncommittedTxns ==> r.SeenRoot() == l.SeenRoot())
      && (more == [] ==> r == LedgerState(l.txns, [], None, None))
  {
    if more != [] {
      assert (l.uncommittedTxns + more)[..|l.uncommittedTxns|] == l.uncommittedTxns;
    }
    if l.uncommittedTxns == [] {
      assert l.txns + l.uncommittedTxns == l.txns;
    }
    CacheStaysOk(l', Op.Discard(|more|));
  }

  /** Atomic rejection: whichever check fails, the ledger, its pending list and root and the state are as they were
      before, with the batches in flight untouched, exactly when at least one request was applied or nothing was in
      flight. */
  lemma AtomicRejection<S, R, T>(h: Handler<S, R, T>, b: Book<S, T>, reqs: seq<R>, pp: Batch<S, R, T>)
    requires BookOk(h, b)
    requires Validated(h, b, reqs, pp).1 != Accepted
    ensures Seen(Validated(h, b, reqs, pp).0) == Seen(b)
       <==> ProcessReqs(h, b, reqs).accepted != [] || b.ledger.uncommittedTxns == []
  {
    RevertUndoes(h, b, reqs);
  }

  // ----- a replica replays what the primary did -----

  /** Replaying the accepted requests alone goes through the same states. */
  lemma {:induction false} ReplayAccepted<S, R, T>(h: Handler<S, R, T>, b: Book<S, T>, reqs: seq<R>)
    ensures
      var s := ProcessReqs(h, b, reqs);
      ProcessReqs(h, b, s.accepted) == Split(s.book, s.accepted, [])
    decreases |reqs|
  {
    if |reqs| > 0 {
      var n := |reqs| - 1;
      ReplayAccepted(h, b, reqs[..n]);
      var s := ProcessReqs(h, b, reqs[..n]);
      if h.Allows(s.book, reqs[n]) {
        assert (s.accepted + [reqs[n]])[..|s.accepted|] == s.accepted;
      }
    }
  }

  /** Requests that are all invalid are all rejected and change nothing. */
  lemma {:induction false} AllRejected<S, R, T>(h: Handler<S, R, T>, b: Book<S, T>, first: seq<R>, reqs: seq<R>)
    requires ProcessReqs(h, b, first).rejected == []
    requires forall r :: r in reqs ==> !h.Allows(ProcessReqs(h, b, first).book, r)
    ensures ProcessReqs(h, b, first + reqs) == ProcessReqs(h, b, first).(rejected := reqs)
    decreases |reqs|
  {
    if |reqs| == 0 {
      assert first + reqs == first;
    } else {
      var n := |reqs| - 1;
      AllRejected(h, b, first, reqs[..n]);
      assert (first + reqs)[..|first + reqs| - 1] == first + reqs[..n];
      assert reqs == reqs[..n] + [reqs[n]];
    }
  }

  /** The accepted list only grows. */
  lemma {:induction false} AcceptedGrows<S, R, T>(h: Handler<S, R, T>, b: Book<S, T>, reqs: seq<R>, more: seq<R>)
    ensures |ProcessReqs(h, b, reqs + more).accepted| >= |ProcessReqs(h, b, reqs).accepted|
    decreases |more|
  {
    if |more| == 0 {
      assert reqs + more == reqs;
    } else {
      AcceptedGrows(h, b, reqs, more[..|more| - 1]);
      assert (reqs + more)[..|reqs + more| - 1] == reqs + more[..|more| - 1];
    }
  }

  /** The first request of a list that is valid is accepted in addition. */
  lemma {:induction false} OneMoreAccepted<S, R, T>(h: Handler<S, R, T>, b: Book<S, T>, first: seq<R>, reqs: seq<R>,
                                                    i: nat)
    requires ProcessReqs(h, b, first).rejected == []
    requires i < |reqs| && h.Allows(ProcessReqs(h, b, first).book, reqs[i])
    requires forall j :: 0 <= j < i ==> !h.Allows(ProcessReqs(h, b, first).book, reqs[j])
    ensures |ProcessReqs(h, b, first + reqs).accepted| > |ProcessReqs(h, b, first).accepted|
  {
    hide ProcessReqs, ApplyReq;
    AllRejected(h, b, first, reqs[..i]);
    var upTo := first + reqs[..i + 1];
    assert upTo == first + reqs[..i] + [reqs[i]];
    ProcessNext(h, b, first + reqs[..i], reqs[i]);
    AcceptedGrows(h, b, upTo, reqs[i + 1..]);
    assert upTo + reqs[i + 1..] == first + reqs;
  }

  lemma ProcessNext<S, R, T>(h: Handler<S, R, T>, b: Book<S, T>, reqs: seq<R>, r: R)
    ensures ProcessReqs(h, b, reqs + [r]) == ProcessReq(h, ProcessReqs(h, b, reqs), r)
  {
    assert (reqs + [r])[..|reqs|] == reqs;
  }

  lemma {:induction false} FirstValid<S, R, T>(h: Handler<S, R, T>, b: Book<S, T>, reqs: seq<R>) returns (i: nat)
    requires exists r :: r in reqs && h.Allows(b, r)
    ensures i < |reqs| && h.Allows(b, reqs[i])
    ensures forall j :: 0 <= j < i ==> !h.Allows(b, reqs[j])
    decreases |reqs|
  {
    if h.Allows(b, reqs[0]) {
      i := 0;
    } else {
      var rest := FirstValid(h, b, reqs[1..]);
      i := rest + 1;
    }
  }

  /** The replica replays the primary's list, accepted ones first. */
  lemma ListReplay<S, R, T>(h: Handler<S, R, T>, b: Book<S, T>, reqs: seq<R>)
    ensures
      var s := ProcessReqs(h, b, reqs);
      var replay := Validated(h, b, s.accepted + s.rejected, BatchOf(h, s));
      if forall r :: r in s.rejected ==> !h.Allows(s.book, r)
      then replay == (s.book, Accepted)
      else replay.1 == RejectWrong
  {
    var s := ProcessReqs(h, b, reqs);
    ReplayAccepted(h, b, reqs);
    if forall r :: r in s.rejected ==> !h.Allows(s.book, r) {
      AllRejected(h, b, s.accepted, s.rejected);
    } else {
      var i := FirstValid(h, s.book, s.rejected);
      OneMoreAccepted(h, b, s.accepted, s.rejected, i);
    }
  }

  // ----- the keys of a batch -----

  /** The node has these requests under their keys. */
  ghost predicate Knows<S, R, T>(h: Handler<S, R, T>, requests: map<ReqKey, R>, reqs: seq<R>) {
    forall r :: r in reqs ==> h.keyOf(r) in requests && requests[h.keyOf(r)] == r
  }

  /** A batch lists the keys of the accepted requests, `discarded` of them, and then those of the rejected ones, each
      in the order in which they were looked at. A node that knows the requests gets them back from the keys in that
      order. */
  lemma KeysLookedUp<S, R, T>(h: Handler<S, R, T>, b: Book<S, T>, reqs: seq<R>, requests: map<ReqKey, R>)
    requires Knows(h, requests, reqs)
    ensures
      var s := ProcessReqs(h, b, reqs);
      var pp := BatchOf(h, s);
      && pp.discarded == |s.accepted| && |pp.reqIdr| == |s.accepted| + |s.rejected|
      && (forall i :: 0 <= i < |s.accepted| ==> pp.reqIdr[i] == h.keyOf(s.accepted[i]))
      && (forall i :: 0 <= i < |s.rejected| ==> pp.reqIdr[|s.accepted| + i] == h.keyOf(s.rejected[i]))
      && (forall k :: k in pp.reqIdr ==> k in requests)
      && Lookup(requests, pp.reqIdr) == s.accepted + s.rejected
  {
    hide ProcessReqs;
    var s := ProcessReqs(h, b, reqs);
    var list := s.accepted + s.rejected;
    var pp := BatchOf(h, s);
    forall i | 0 <= i < |list| ensures pp.reqIdr[i] in requests && requests[pp.reqIdr[i]] == list[i] {
      SplitIsFromList(h, b, reqs, list[i]);
    }
    forall k | k in pp.reqIdr ensures k in requests {
      var i :| 0 <= i < |pp.reqIdr| && pp.reqIdr[i] == k;
    }
  }

  /** The loop makes up no request. */
  lemma {:induction false} SplitIsFromList<S, R, T>(h: Handler<S, R, T>, b: Book<S, T>, reqs: seq<R>, r: R)
    ensures
      var s := ProcessReqs(h, b, reqs);
      r in s.accepted + s.rejected <==> r in reqs
    decreases |reqs|
  {
    hide ApplyReq;
    if |reqs| > 0 {
      SplitIsFromList(h, b, reqs[..|reqs| - 1], r);
      assert reqs == reqs[..|reqs| - 1] + [reqs[|reqs| - 1]];
    }
  }

  /** Batch replay: the replica that starts from the primary's book and replays what it finds under the keys of the
      batch accepts it and ends in the primary's book exactly when every request that the primary rejected is still
      invalid after the accepted ones. Otherwise it counts too many valid requests. */
  lemma BatchReplay<S, R, T>(h: Handler<S, R, T>, b: Book<S, T>, reqs: seq<R>, requests: map<ReqKey, R>)
    requires Knows(h, requests, reqs)
    ensures
      var s := ProcessReqs(h, b, reqs);
      var pp := BatchOf(h, s);
      && (forall k :: k in pp.reqIdr ==> k in requests)
      && var replay := Validated(h, b, Lookup(requests, pp.reqIdr), pp);
         if forall r :: r in s.rejected ==> !h.Allows(s.book, r)
         then replay == (s.book, Accepted)
         else replay.1 == RejectWrong
  {
    hide ProcessReqs, Validated;
    ListReplay(h, b, reqs);
    KeysLookedUp(h, b, reqs, requests);
  }

  /** A rejected request stays rejected after any accepted one. */
  ghost predicate Persistent<S(!new), R(!new), T(!new)>(h: Handler<S, R, T>) {
    forall state, txns, r, r', n ::
      !h.valid(state, txns, r) && h.valid(state, txns, r') ==> !h.valid(h.update(state, h.toTxn(r'), n), txns, r)
  }

  /** With such a handler every batch replays. */
  lemma PersistentReplay<S(!new), R(!new), T(!new)>(h: Handler<S, R, T>, b: Book<S, T>, reqs: seq<R>,
                                                    requests: map<ReqKey, R>)
    requires Persistent(h) && Knows(h, requests, reqs)
    ensures
      var s := ProcessReqs(h, b, reqs);
      var pp := BatchOf(h, s);
      && (forall k :: k in pp.reqIdr ==> k in requests)
      && Validated(h, b, Lookup(requests, pp.reqIdr), pp) == (s.book, Accepted)
  {
    StillInvalid(h, b, reqs);
    BatchReplay(h, b, reqs, requests);
  }

  lemma {:induction false} StillInvalid<S(!new), R(!new), T(!new)>(h: Handler<S, R, T>, b: Book<S, T>, reqs: seq<R>)
    requires Persistent(h)
    ensures forall r :: r in ProcessReqs(h, b, reqs).rejected ==> !h.Allows(ProcessReqs(h, b, reqs).book, r)
    decreases |reqs|
  {
    if |reqs| > 0 {
      StillInvalid(h, b, reqs[..|reqs| - 1]);
    }
  }

  /** What an accepted PRE-PREPARE vouches for: the replica's requests are those of the digest, in the order of the
      digest, and the roots are those of its own book. */
  lemma AcceptedMeansSame<S, R, T>(h: Handler<S, R, T>, b: Book<S, T>, reqs: seq<R>, primary: Split<S, R, T>)
    requires BookOk(h, b)
    requires Validated(h, b, reqs, BatchOf(h, primary)).1 == Accepted
    ensures
      var s := ProcessReqs(h, b, reqs);
      && s.accepted == primary.accepted && s.rejected == primary.rejected
      && multiset(reqs) == multiset(primary.accepted) + multiset(primary.rejected)
      && s.book.head == primary.book.head
      && MerkleRoot(Pending(s.book)) == primary.book.ledger.SeenRoot()
  {
    ProcessReqsOk(h, b, reqs);
    var s := ProcessReqs(h, b, reqs);
    SeenRootIs(h, s.book);
    assert s.accepted == (s.accepted + s.rejected)[..|s.accepted|];
    assert primary.accepted == (primary.accepted + primary.rejected)[..|primary.accepted|];
    assert s.rejected == (s.accepted + s.rejected)[|s.accepted|..];
    assert primary.rejected == (primary.accepted + primary.rejected)[|primary.accepted|..];
  }

  /** What each verdict says about the replica's outcome and the primary's: they accepted a different number of
      requests; as many, but not the same in the same order; the same, but their states differ; the same with the same
      state, but their transactions differ. */
  lemma VerdictMeans<S, R, T>(h: Handler<S, R, T>, b: Book<S, T>, reqs: seq<R>, primary: Split<S, R, T>)
    requires BookOk(h, b) && BookOk(h, primary.book)
    ensures
      var s := ProcessReqs(h, b, reqs);
      var same := s.accepted == primary.accepted && s.rejected == primary.rejected;
      match Validated(h, b, reqs, BatchOf(h, primary)).1
      case RejectWrong => |s.accepted| != |primary.accepted|
      case DigestWrong => |s.accepted| == |primary.accepted| && !same
      case StateWrong => same && s.book.head != primary.book.head
      case TxnWrong => same && s.book.head == primary.book.head && Pending(s.book) != Pending(primary.book)
      case Accepted => same && s.book.head == primary.book.head && Pending(s.book) == Pending(primary.book)
  {
    hide ProcessReqs, StateOf;
    ProcessReqsOk(h, b, reqs);
    var s := ProcessReqs(h, b, reqs);
    SeenRootIs(h, s.book);
    SeenRootIs(h, primary.book);
    if s.accepted + s.rejected == primary.accepted + primary.rejected && |s.accepted| == |primary.accepted| {
      assert s.accepted == (s.accepted + s.rejected)[..|s.accepted|];
      assert primary.accepted == (primary.accepted + primary.rejected)[..|primary.accepted|];
      assert s.rejected == (s.accepted + s.rejected)[|s.accepted|..];
      assert primary.rejected == (primary.accepted + primary.rejected)[|primary.accepted|..];
    }
  }

  // ----- a replica that has committed more or less than the primary -----

  /** The same transactions, wherever the line between committed and pending is. */
  ghost predicate SamePending<S, R, T>(h: Handler<S, R, T>, b: Book<S, T>, b': Book<S, T>) {
    BookOk(h, b) && BookOk(h, b') && Pending(b) == Pending(b')
  }

  /** Every one of the requests is valid when its turn comes. */
  ghost predicate ValidInTurn<S, R, T>(h: Handler<S, R, T>, b: Book<S, T>, reqs: seq<R>) {
    forall i :: 0 <= i < |reqs| ==> h.valid(StateOf(h, Pending(b) + Txns(h, reqs[..i])), b.ledger.txns, reqs[i])
  }

  /** Which requests were accepted says which transactions and which state there are. */
  lemma ProcessedBook<S, R, T>(h: Handler<S, R, T>, b: Book<S, T>, reqs: seq<R>)
    requires BookOk(h, b)
    ensures
      var s := ProcessReqs(h, b, reqs);
      && s.book.ledger.txns == b.ledger.txns && BookOk(h, s.book)
      && Pending(s.book) == Pending(b) + Txns(h, s.accepted)
      && s.book.head == StateOf(h, Pending(b) + Txns(h, s.accepted))
  {
    hide ProcessReqs, StateOf, Txns;
    ProcessReqsOk(h, b, reqs);
    var s := ProcessReqs(h, b, reqs);
    assert Pending(s.book) == Pending(b) + Txns(h, s.accepted);
  }

  lemma {:induction false} TurnByTurn<S, R, T>(h: Handler<S, R, T>, b: Book<S, T>, reqs: seq<R>)
    requires BookOk(h, b) && ValidInTurn(h, b, reqs)
    ensures ProcessReqs(h, b, reqs).accepted == reqs && ProcessReqs(h, b, reqs).rejected == []
    decreases |reqs|
  {
    hide StateOf, Txns;
    if |reqs| > 0 {
      var n := |reqs| - 1;
      forall i | 0 <= i < n
        ensures h.valid(StateOf(h, Pending(b) + Txns(h, reqs[..n][..i])), b.ledger.txns, reqs[..n][i])
      {
        assert reqs[..n][..i] == reqs[..i];
      }
      TurnByTurn(h, b, reqs[..n]);
      ProcessedBook(h, b, reqs[..n]);
      assert h.Allows(ProcessReqs(h, b, reqs[..n]).book, reqs[n]);
      assert reqs == reqs[..n] + [reqs[n]];
    }
  }

  /** Requests that are rejected are rejected by what was accepted before them. So a list of which the accepted ones, in
      their order, are the head is accepted without a rejection in between. */
  lemma {:induction false} HeadInTurn<S, R, T>(h: Handler<S, R, T>, b: Book<S, T>, list: seq<R>, n: nat, k: nat)
    requires BookOk(h, b) && k <= n <= |list|
    requires ProcessReqs(h, b, list).accepted == list[..n]
    ensures ProcessReqs(h, b, list[..k]).accepted == list[..k] && ProcessReqs(h, b, list[..k]).rejected == []
    decreases k
  {
    hide BookOk, ProcessReqs, ApplyReq;
    if k > 0 {
      HeadInTurn(h, b, list, n, k - 1);
      var before := ProcessReqs(h, b, list[..k - 1]);
      assert list[..k] == list[..k - 1] + [list[k - 1]];
      ProcessNext(h, b, list[..k - 1], list[k - 1]);
      if !h.Allows(before.book, list[k - 1]) {
        NeverAccepted(h, b, list, k, |list|);
        NotInHead(list, n, k);
      }
    } else {
      NothingProcessed(h, b, list);
    }
  }

  lemma NothingProcessed<S, R, T>(h: Handler<S, R, T>, b: Book<S, T>, list: seq<R>)
    ensures ProcessReqs(h, b, list[..0]) == Split(b, [], [])
  {}

  lemma NotInHead<R>(list: seq<R>, n: nat, k: nat)
    requires 1 <= k <= n <= |list|
    ensures list[..|list|] == list && list[..n][k - 1] == list[k - 1]
  {}

  /** When a request is refused after others, the next one accepted is a different one. */
  lemma {:induction false} NeverAccepted<S, R, T>(h: Handler<S, R, T>, b: Book<S, T>, list: seq<R>, k: nat, m: nat)
    requires 1 <= k <= m <= |list|
    requires ProcessReqs(h, b, list[..k - 1]).accepted == list[..k - 1]
    requires !h.Allows(ProcessReqs(h, b, list[..k - 1]).book, list[k - 1])
    ensures
      var s := ProcessReqs(h, b, list[..m]);
      && |s.accepted| >= k - 1
      && (|s.accepted| == k - 1 ==> s.book == ProcessReqs(h, b, list[..k - 1]).book)
      && (|s.accepted| >= k ==> s.accepted[k - 1] != list[k - 1])
    decreases m
  {
    assert list[..m][..m - 1] == list[..m - 1];
    if m > k {
      NeverAccepted(h, b, list, k, m - 1);
    }
  }

  /** Batch replay on another node: the replica holds the same transactions as the primary did, but has committed more
      or fewer of them. It accepts the batch exactly when every accepted request is valid in its turn, and every
      rejected one invalid after them, against the replica's own committed transactions. */
  lemma ReplayElsewhere<S, R, T>(h: Handler<S, R, T>, b: Book<S, T>, b': Book<S, T>, reqs: seq<R>,
                                 requests: map<ReqKey, R>)
    requires SamePending(h, b, b') && Knows(h, requests, reqs)
    ensures
      var s := ProcessReqs(h, b, reqs);
      var pp := BatchOf(h, s);
      && (forall k :: k in pp.reqIdr ==> k in requests)
      && (Validated(h, b', Lookup(requests, pp.reqIdr), pp).1 == Accepted
          <==> ValidInTurn(h, b', s.accepted)
               && forall r :: r in s.rejected ==> !h.valid(s.book.head, b'.ledger.txns, r))
  {
    hide ProcessReqs, ValidInTurn, Validated;
    ListReplayElsewhere(h, b, b', reqs);
    KeysLookedUp(h, b, reqs, requests);
  }

  lemma ListReplayElsewhere<S, R, T>(h: Handler<S, R, T>, b: Book<S, T>, b': Book<S, T>, reqs: seq<R>)
    requires SamePending(h, b, b')
    ensures
      var s := ProcessReqs(h, b, reqs);
      Validated(h, b', s.accepted + s.rejected, BatchOf(h, s)).1 == Accepted
      <==> ValidInTurn(h, b', s.accepted)
           && forall r :: r in s.rejected ==> !h.valid(s.book.head, b'.ledger.txns, r)
  {
    hide ProcessReqs, StateOf, Txns, BookOk, ValidInTurn;
    var s := ProcessReqs(h, b, reqs);
    var list := s.accepted + s.rejected;
    var s' := ProcessReqs(h, b', list);
    ProcessedBook(h, b, reqs);
    ProcessedBook(h, b', list);
    ProcessedBook(h, b', s.accepted);
    assert list[..|s.accepted|] == s.accepted;
    if ValidInTurn(h, b', s.accepted) {
      TurnByTurn(h, b', s.accepted);
      var t := ProcessReqs(h, b', s.accepted);
      assert t.book.head == s.book.head;
      if forall r :: r in s.rejected ==> !h.valid(s.book.head, b'.ledger.txns, r) {
        AllRejected(h, b', s.accepted, s.rejected);
        SeenRootIs(h, s.book);
        SeenRootIs(h, s'.book);
      } else {
        var i := FirstValid(h, t.book, s.rejected);
        OneMoreAccepted(h, b', s.accepted, s.rejected, i);
      }
    } else if Judge(s', BatchOf(h, s)) == Accepted {
      assert s'.accepted == (s'.accepted + s'.rejected)[..|s'.accepted|] == list[..|s.accepted|];
      InTurn(h, b', list, |s.accepted|);
      assert false;
    }
  }

  lemma InTurn<S, R, T>(h: Handler<S, R, T>, b: Book<S, T>, list: seq<R>, n: nat)
    requires BookOk(h, b) && n <= |list| && ProcessReqs(h, b, list).accepted == list[..n]
    ensures ValidInTurn(h, b, list[..n])
  {
    hide StateOf, Txns, BookOk, ProcessReqs, ApplyReq;
    var acc := list[..n];
    forall i | 0 <= i < |acc|
      ensures h.valid(StateOf(h, Pending(b) + Txns(h, acc[..i])), b.ledger.txns, acc[i])
    {
      assert acc[..i] == list[..i] && list[..i + 1] == list[..i] + [list[i]];
      HeadInTurn(h, b, list, n, i);
      HeadInTurn(h, b, list, n, i + 1);
      ProcessNext(h, b, list[..i], list[i]);
      ProcessedBook(h, b, list[..i]);
    }
  }

  // ----- stewards: a handler whose batches do not all replay -----

  datatype Role = Steward | OtherRole

  /** A request for an identity; a request that names no role leaves that of a known identity alone. */
  datatype Nym = Nym(key: ReqKey, origin: Name, target: Name, role: Option<Role>)

  function StewardCount(txns: seq<Nym>): nat {
    if |txns| == 0 then 0
    else StewardCount(txns[..|txns| - 1]) + if txns[|txns| - 1].role == Some(Steward) then 1 else 0
  }

  /** The rule of the domain ledger: only a steward may add an identity, and a steward only while the committed
      transactions hold no more than `limit` stewards. The state is the set of stewards. */
  function DomainHandler(first: Name, limit: nat): Handler<set<Name>, Nym, Nym> {
    Handler({first},
            (stewards, txns, r: Nym) =>
              r.origin in stewards && (r.role == Some(Steward) ==> StewardCount(txns) <= limit),
            r => r,
            (stewards: set<Name>, r: Nym, n) =>
              match r.role
              case None => stewards
              case Some(Steward) => stewards + {r.target}
              case Some(OtherRole) => stewards - {r.target},
            (r: Nym) => r.key)
  }

  /** A request of someone whom a later request of the same batch makes a steward: the primary rejects it, the
      replicas, which replay it last, find it valid and refuse the batch of a correct primary. */
  lemma CorrectPrimaryRefused(a: Name, x: Name, y: Name, limit: nat, k1: ReqKey, k2: ReqKey)
    requires a != x && x != y && a != y
    ensures
      var h := DomainHandler(a, limit);
      var b := Book(LedgerState([], [], None, None), h.genesis, h.genesis);
      var early, grant := Nym(k1, x, y, None), Nym(k2, a, x, Some(Steward));
      var s := ProcessReqs(h, b, [early, grant]);
      && s.accepted == [grant] && s.rejected == [early]
      && Validated(h, b, [grant, early], BatchOf(h, s)).1 == RejectWrong
  {
    var h := DomainHandler(a, limit);
    var b := Book(LedgerState([], [], None, None), h.genesis, h.genesis);
    var early, grant := Nym(k1, x, y, None), Nym(k2, a, x, Some(Steward));
    assert [early, grant][..1] == [early] && [early][..0] == [];
    var s := ProcessReqs(h, b, [early, grant]);
    assert ProcessReqs(h, b, [early]) == Split(b, [], [early]);
    assert s.book.head == {a, x};
    ListReplay(h, b, [early, grant]);
    assert early in s.rejected && h.Allows(s.book, early);
    assert s.accepted + s.rejected == [grant, early];
  }

  /** The steward limit counts committed transactions only. So when a steward asks for a new steward while, of the same
      transactions, the one node has committed more than the limit allows and the other has not, the replica refuses the
      batch of a correct primary, whichever of the two is ahead. */
  lemma LimitSplitsNodes(a: Name, limit: nat, b: Book<set<Name>, Nym>, b': Book<set<Name>, Nym>, grant: Nym)
    requires SamePending(DomainHandler(a, limit), b, b')
    requires grant.origin in b.head && grant.role == Some(Steward)
    requires StewardCount(b.ledger.txns) <= limit <==> StewardCount(b'.ledger.txns) > limit
    ensures
      var h := DomainHandler(a, limit);
      Validated(h, b', [grant], BatchOf(h, ProcessReqs(h, b, [grant]))).1 == RejectWrong
  {
    hide StateOf;
    var h := DomainHandler(a, limit);
    assert [grant][..0] == [];
    assert ProcessReqs(h, b, []) == Split(b, [], []) && ProcessReqs(h, b', []) == Split(b', [], []);
    assert b'.head == b.head;
  }

  // ----- every run of created, refused and ordered batches -----

  /** A batch that is applied and not yet executed: what the Ordered message will carry. */
  datatype InFlight<S, T> = InFlight(count: nat, stateRoot: S, txnRoot: Root<T>)

  /** `asserted` says that no root assertion has failed. */
  datatype Run<S, T> = Run(book: Book<S, T>, inFlight: seq<InFlight<S, T>>, asserted: bool)

  /** A batch is created or received and accepted; a received batch is refused; the oldest batch is ordered. */
  datatype Event<R> = Keep(reqs: seq<R>) | Refuse(reqs: seq<R>) | Execute

  function After<S, R, T(==)>(h: Handler<S, R, T>, n: Run<S, T>, e: Event<R>): Run<S, T> {
    match e
    case Keep(reqs) =>
      var s := ProcessReqs(h, n.book, reqs);
      n.(book := s.book,
         inFlight := n.inFlight + [InFlight(|s.accepted|, s.book.head, s.book.ledger.SeenRoot())])
    case Refuse(reqs) =>
      var s := ProcessReqs(h, n.book, reqs);
      n.(book := Reverted(s.book, n.book.head, |s.accepted|))
    case Execute =>
      if |n.inFlight| == 0 then n
      else
        var first := n.inFlight[0];
        var (book, held) := Executed(n.book, first.count, first.stateRoot, first.txnRoot);
        Run(book, n.inFlight[1..], n.asserted && held)
  }

  function AfterAll<S, R, T(==)>(h: Handler<S, R, T>, n: Run<S, T>, events: seq<Event<R>>): Run<S, T>
    decreases |events|
  {
    if |events| == 0 then n else After(h, AfterAll(h, n, events[..|events| - 1]), events[|events| - 1])
  }

  function Start<S, R, T>(h: Handler<S, R, T>): Run<S, T> {
    Run(Book(LedgerState([], [], None, None), h.genesis, h.genesis), [], true)
  }

  /** A refusal that applied something, or found nothing in flight. */
  ghost predicate SafeEvent<S, R, T>(h: Handler<S, R, T>, n: Run<S, T>, e: Event<R>) {
    e.Refuse? ==> ProcessReqs(h, n.book, e.reqs).accepted != [] || n.book.ledger.uncommittedTxns == []
  }

  ghost predicate SafeEvents<S, R, T>(h: Handler<S, R, T>, n: Run<S, T>, events: seq<Event<R>>) {
    forall i :: 0 <= i < |events| ==> SafeEvent(h, AfterAll(h, n, events[..i]), events[i])
  }

  /** The pending transactions are those of the batches in flight, in order, and every batch carries the roots that
      the ledger and the state will have when it is committed. */
  ghost predicate Matches<S, R, T>(h: Handler<S, R, T>, txns: seq<T>, pending: seq<T>, inFlight: seq<InFlight<S, T>>)
    decreases |inFlight|
  {
    if |inFlight| == 0 then pending == []
    else
      var first := inFlight[0];
      && first.count <= |pending|
      && first.txnRoot == MerkleRoot(txns + pending[..first.count])
      && first.stateRoot == StateOf(h, txns + pending[..first.count])
      && Matches(h, txns + pending[..first.count], pending[first.count..], inFlight[1..])
  }

  ghost predicate RunOk<S, R, T>(h: Handler<S, R, T>, n: Run<S, T>) {
    && BookOk(h, n.book)
    && Matches(h, n.book.ledger.txns, n.book.ledger.uncommittedTxns, n.inFlight)
    && n.asserted
  }

  lemma SplitAt<T>(txns: seq<T>, pending: seq<T>, more: seq<T>, c: nat)
    requires c <= |pending|
    ensures (pending + more)[..c] == pending[..c]
    ensures (pending + more)[c..] == pending[c..] + more
    ensures txns + (pending + more) == (txns + pending[..c]) + (pending[c..] + more)
  {
    assert pending + more == pending[..c] + (pending[c..] + more);
  }

  lemma {:induction false} MatchesGrow<S, R, T>(h: Handler<S, R, T>, txns: seq<T>, pending: seq<T>, more: seq<T>,
                                               inFlight: seq<InFlight<S, T>>, last: InFlight<S, T>)
    requires Matches(h, txns, pending, inFlight)
    requires last == InFlight(|more|, StateOf(h, txns + (pending + more)), MerkleRoot(txns + (pending + more)))
    ensures Matches(h, txns, pending + more, inFlight + [last])
    decreases |inFlight|
  {
    hide StateOf;
    var all := inFlight + [last];
    if |inFlight| == 0 {
      assert pending + more == more && more[..|more|] == more && more[|more|..] == [];
      assert all[1..] == [];
    } else {
      var c := inFlight[0].count;
      SplitAt(txns, pending, more, c);
      MatchesGrow(h, txns + pending[..c], pending[c..], more, inFlight[1..], last);
      assert all[1..] == inFlight[1..] + [last];
    }
  }

  lemma KeepOk<S, R, T>(h: Handler<S, R, T>, n: Run<S, T>, reqs: seq<R>)
    requires RunOk(h, n)
    ensures RunOk(h, After(h, n, Keep(reqs)))
  {
    var s := ProcessReqs(h, n.book, reqs);
    ProcessReqsOk(h, n.book, reqs);
    SeenRootIs(h, s.book);
    var txns := Txns(h, s.accepted);
    MatchesGrow(h, n.book.ledger.txns, n.book.ledger.uncommittedTxns, txns, n.inFlight,
                InFlight(|txns|, s.book.head, s.book.ledger.SeenRoot()));
  }

  lemma RefuseOk<S, R, T>(h: Handler<S, R, T>, n: Run<S, T>, reqs: seq<R>)
    requires RunOk(h, n) && SafeEvent(h, n, Refuse(reqs))
    ensures RunOk(h, After(h, n, Refuse(reqs)))
    ensures Seen(After(h, n, Refuse(reqs)).book) == Seen(n.book)
  {
    RevertUndoes(h, n.book, reqs);
  }

  lemma ExecuteOk<S, R, T>(h: Handler<S, R, T>, n: Run<S, T>)
    requires RunOk(h, n)
    ensures RunOk(h, After(h, n, Execute))
    ensures Pending(After(h, n, Execute).book) == Pending(n.book)
  {
    if |n.inFlight| > 0 {
      var c := n.inFlight[0].count;
      CacheStaysOk(n.book.ledger, Op.Commit(c));
      CommittedRange(n.book.ledger, c);
    }
  }

  /** The root assertion never fails: in every run in which each refused batch applied something or found nothing in
      flight, every executed batch finds the transaction root that was recorded when it was applied, however many
      later batches are in flight, and the committed state is that of the committed transactions. */
  lemma {:induction false} RootAssertionHolds<S, R, T>(h: Handler<S, R, T>, events: seq<Event<R>>)
    requires SafeEvents(h, Start(h), events)
    ensures AfterAll(h, Start(h), events).asserted
    ensures RunOk(h, AfterAll(h, Start(h), events))
    decreases |events|
  {
    if |events| > 0 {
      var k := |events| - 1;
      var before := events[..k];
      forall i | 0 <= i < |before| ensures SafeEvent(h, AfterAll(h, Start(h), before[..i]), before[i]) {
        assert before[..i] == events[..i];
      }
      RootAssertionHolds(h, before);
      var n := AfterAll(h, Start(h), before);
      assert SafeEvent(h, n, events[k]);
      match events[k]
      case Keep(reqs) => KeepOk(h, n, reqs);
      case Refuse(reqs) => RefuseOk(h, n, reqs);
      case Execute => ExecuteOk(h, n);
    }
  }

  /** And exactly so: one refused batch with nothing applied while batches are in flight drops their transactions,
      and the next execution then fails its assertion if and only if its batch has a transaction; the state is not
      committed then. */
  lemma WipedThenExecuted<S, R, T>(h: Handler<S, R, T>, n: Run<S, T>, reqs: seq<R>)
    requires RunOk(h, n) && |n.inFlight| > 0
    requires !SafeEvent(h, n, Refuse(reqs))
    ensures
      var n' := After(h, After(h, n, Refuse(reqs)), Execute);
      && (n'.asserted <==> n.inFlight[0].count == 0)
      && (!n'.asserted ==> n'.book.committedHead == n.book.committedHead)
  {
    ProcessReqsOk(h, n.book, reqs);
    RevertUndoes(h, n.book, reqs);
    var n' := After(h, n, Refuse(reqs));
    var c := n.inFlight[0].count;
    assert |n.book.ledger.txns + n.book.ledger.uncommittedTxns[..c]| == |n.book.ledger.txns| + c;
    assert Committed(n'.book.ledger, c).txns == n.book.ledger.txns;
    assert c == 0 ==> n.book.ledger.txns + n.book.ledger.uncommittedTxns[..c] == n.book.ledger.txns;
  }
}
