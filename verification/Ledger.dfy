/** A ledger with optimistically applied transactions.

    A compact Merkle tree is the list of its leaves, and a root hash is an injective function of that list.
 */
module Ledgers {
  import opened Messages

  datatype Root<T> = MerkleRoot(leaves: seq<T>)

  datatype LedgerState<T> = LedgerState(txns: seq<T>, uncommittedTxns: seq<T>, uncommittedTree: Option<seq<T>>,
                                        uncommittedRootHash: Option<Root<T>>)
  {
    function UncommittedSize(): nat { |txns| + |uncommittedTxns| }

    /** `txnRootHash` of the replica: the root of the cached tree, or of the ledger when there is none. */
    function SeenRoot(): Root<T> {
      if uncommittedRootHash.Some? then uncommittedRootHash.value else MerkleRoot(txns)
    }

    /** The cached tree, when there is one, is that of all transactions, committed or not;
        there is none only when nothing is pending. */
    ghost predicate CacheOk() {
      match uncommittedTree
      case None => uncommittedTxns == [] && uncommittedRootHash == None
      case Some(tree) => tree == txns + uncommittedTxns && uncommittedRootHash == Some(MerkleRoot(tree))
    }

    /** What is left of a ledger when the cache is looked through. */
    function View(): (seq<T>, seq<T>, Root<T>) { (txns, uncommittedTxns, SeenRoot()) }
  }

  // ----- what the operations compute -----

  function Applied<T>(l: LedgerState<T>, txns: seq<T>): LedgerState<T> {
    var tree := (if l.uncommittedTree.Some? then l.uncommittedTree.value else l.txns) + txns;
    l.(uncommittedTree := Some(tree), uncommittedRootHash := Some(MerkleRoot(tree)),
       uncommittedTxns := l.uncommittedTxns + txns)
  }

  function Committed<T>(l: LedgerState<T>, count: nat): LedgerState<T> {
    var rest := if count <= |l.uncommittedTxns| then l.uncommittedTxns[count..] else [];
    l.(txns := l.txns + Take(l.uncommittedTxns, count),
       uncommittedTxns := rest,
       uncommittedTree := if |rest| == 0 then None else l.uncommittedTree,
       uncommittedRootHash := if |rest| == 0 then None else l.uncommittedRootHash)
  }

  /** The Python slice `s[:-count]`; for 0 it is `s[:0]`, the empty list. */
  function DropLast<T>(s: seq<T>, count: nat): seq<T> {
    if count == 0 || count > |s| then [] else s[..|s| - count]
  }

  function Discarded<T>(l: LedgerState<T>, count: nat): LedgerState<T> {
    var rest := DropLast(l.uncommittedTxns, count);
    l.(uncommittedTxns := rest,
       uncommittedTree := if |rest| == 0 then None else Some(l.txns + rest),
       uncommittedRootHash := if |rest| == 0 then None else Some(MerkleRoot(l.txns + rest)))
  }

  /** Transactions that come committed from other nodes. */
  function Extended<T>(l: LedgerState<T>, txns: seq<T>): LedgerState<T> {
    l.(txns := l.txns + txns)
  }

  // ----- the object -----

  class Ledger<T(==)> {
    var txns: seq<T>
    var uncommittedTxns: seq<T>
    var uncommittedTree: Option<seq<T>>
    var uncommittedRootHash: Option<Root<T>>

    function Value(): LedgerState<T>
      reads this
    {
      LedgerState(txns, uncommittedTxns, uncommittedTree, uncommittedRootHash)
    }

    constructor ()
      ensures Value() == LedgerState([], [], None, None) && Value().CacheOk()
    {
      txns, uncommittedTxns, uncommittedTree, uncommittedRootHash := [], [], None, None;
    }

    method TreeWithAppliedTxns(newTxns: seq<T>, currentTree: Option<seq<T>>) returns (tree: seq<T>)
      ensures tree == (if currentTree.Some? then currentTree.value else txns) + newTxns
    {
      tree := if currentTree.Some? then currentTree.value else txns;
      for i := 0 to |newTxns|
        invariant tree == (if currentTree.Some? then currentTree.value else txns) + newTxns[..i]
      {
        tree := tree + [newTxns[i]];
      }
    }

    method AppendTxns(newTxns: seq<T>) returns (start: nat, end: nat)
      modifies this
      ensures Value() == Applied(old(Value()), newTxns)
      ensures start == old(Value()).UncommittedSize() + (if newTxns == [] then 0 else 1)
      ensures end == Value().UncommittedSize()
    {
      var size := |txns| + |uncommittedTxns|;
      var tree := TreeWithAppliedTxns(newTxns, uncommittedTree);
      uncommittedTree := Some(tree);
      uncommittedRootHash := Some(MerkleRoot(tree));
      uncommittedTxns := uncommittedTxns + newTxns;
      start := if newTxns == [] then size else size + 1;
      end := size + |newTxns|;
    }

    method CommitTxns(count: nat) returns (start: nat, end: nat, committed: seq<T>)
      modifies this
      ensures Value() == Committed(old(Value()), count)
      ensures start == |old(txns)| + 1 && end == |old(txns)| + count && committed == Take(old(uncommittedTxns), count)
    {
      start, end := |txns| + 1, |txns| + count;
      committed := Take(uncommittedTxns, count);
      for i := 0 to |committed|
        invariant txns == old(txns) + committed[..i]
        invariant uncommittedTxns == old(uncommittedTxns)
        invariant uncommittedTree == old(uncommittedTree) && uncommittedRootHash == old(uncommittedRootHash)
      {
        txns := txns + [committed[i]];
      }
      uncommittedTxns := if count <= |uncommittedTxns| then uncommittedTxns[count..] else [];
      if uncommittedTxns == [] {
        uncommittedTree := None;
        uncommittedRootHash := None;
      }
    }

    method AppendCommittedTxns(newTxns: seq<T>)
      modifies this`txns
      ensures Value() == Extended(old(Value()), newTxns)
    {
      for i := 0 to |newTxns|
        invariant txns == old(txns) + newTxns[..i]
      {
        txns := txns + [newTxns[i]];
      }
    }

    method DiscardTxns(count: nat)
      modifies this`uncommittedTxns, this`uncommittedTree, this`uncommittedRootHash
      ensures Value() == Discarded(old(Value()), count)
    {
      uncommittedTxns := DropLast(uncommittedTxns, count);
      if uncommittedTxns == [] {
        uncommittedTree := None;
        uncommittedRootHash := None;
      } else {
        var tree := TreeWithAppliedTxns(uncommittedTxns, None);
        uncommittedTree := Some(tree);
        uncommittedRootHash := Some(MerkleRoot(tree));
      }
    }
  }

  // ----- every interleaving -----

  datatype Op<T> = Apply(txns: seq<T>) | Commit(count: nat) | Discard(count: nat)

  function Do<T>(l: LedgerState<T>, op: Op<T>): LedgerState<T> {
    match op
    case Apply(txns) => Applied(l, txns)
    case Commit(count) => Committed(l, count)
    case Discard(count) => Discarded(l, count)
  }

  function DoAll<T>(l: LedgerState<T>, ops: seq<Op<T>>): LedgerState<T>
    decreases |ops|
  {
    if |ops| == 0 then l else DoAll(Do(l, ops[0]), ops[1..])
  }

  /** Whatever is applied, committed and discarded in whatever order and number, the cached tree is right. */
  lemma {:induction false} CacheAlwaysOk<T>(l: LedgerState<T>, ops: seq<Op<T>>)
    requires l.CacheOk()
    ensures DoAll(l, ops).CacheOk()
    decreases |ops|
  {
    if ops != [] {
      CacheStaysOk(l, ops[0]);
      CacheAlwaysOk(Do(l, ops[0]), ops[1..]);
    }
  }

  lemma CacheStaysOk<T>(l: LedgerState<T>, op: Op<T>)
    requires l.CacheOk()
    ensures Do(l, op).CacheOk()
  {
    match op
    case Apply(txns) =>
      assert l.uncommittedTree == None ==> l.txns + txns == l.txns + (l.uncommittedTxns + txns);
      assert l.txns + l.uncommittedTxns + txns == l.txns + (l.uncommittedTxns + txns);
    case Commit(count) =>
      if count <= |l.uncommittedTxns| {
        assert l.txns + l.uncommittedTxns == l.txns + l.uncommittedTxns[..count] + l.uncommittedTxns[count..];
      }
    case Discard(count) =>
  }

  /** The sequence numbers that `appendTxns` returns are those of the new transactions in the pending view. */
  lemma AppendedRange<T>(l: LedgerState<T>, txns: seq<T>)
    ensures
      var l' := Applied(l, txns);
      (l'.txns + l'.uncommittedTxns)[l.UncommittedSize()..l'.UncommittedSize()] == txns
  {
    assert l.txns + (l.uncommittedTxns + txns) == (l.txns + l.uncommittedTxns) + txns;
  }

  /** The sequence numbers that `commitTxns` returns are those of the committed transactions exactly when no more is
      committed than is pending; the order of all transactions stays. */
  lemma CommittedRange<T>(l: LedgerState<T>, count: nat)
    ensures
      var l' := Committed(l, count);
      && (|l'.txns| == |l.txns| + count <==> count <= |l.uncommittedTxns|)
      && l'.txns[|l.txns|..] == Take(l.uncommittedTxns, count)
      && l'.txns + l'.uncommittedTxns == l.txns + l.uncommittedTxns
  {
    if count <= |l.uncommittedTxns| {
      assert l.txns + l.uncommittedTxns == (l.txns + l.uncommittedTxns[..count]) + l.uncommittedTxns[count..];
    }
  }

  /** Discarding keeps the committed transactions and the oldest pending ones: all but as many as said, none if that
      is as many as there are or more, and none for 0. */
  lemma DiscardKeepsOldest<T>(l: LedgerState<T>, count: nat)
    ensures
      var l' := Discarded(l, count);
      var n := |l.uncommittedTxns|;
      && l'.txns == l.txns && l'.uncommittedTxns <= l.uncommittedTxns
      && |l'.uncommittedTxns| == (if 0 < count < n then n - count else 0)
  {}

  /** Discarding as many transactions as were just applied brings the ledger back exactly when there was at least
      one, or nothing was pending before: with 0 the whole pending list goes. */
  lemma DiscardUndoesApply<T>(l: LedgerState<T>, txns: seq<T>)
    requires l.CacheOk()
    ensures Discarded(Applied(l, txns), |txns|).View() == l.View() <==> txns != [] || l.uncommittedTxns == []
  {
    var l' := Discarded(Applied(l, txns), |txns|);
    if txns != [] {
      assert (l.uncommittedTxns + txns)[..|l.uncommittedTxns|] == l.uncommittedTxns;
    }
    if l.uncommittedTxns == [] {
      assert l.txns + l.uncommittedTxns == l.txns;
    }
  }

  /** Transactions from other nodes are appended to the committed ones; that leaves the cache right exactly when there
      is no cached tree or there are no such transactions. */
  lemma CatchupAndCache<T>(l: LedgerState<T>, txns: seq<T>)
    requires l.CacheOk()
    ensures
      var l' := Extended(l, txns);
      && (l'.CacheOk() <==> l.uncommittedTree == None || txns == [])
      && l.txns <= l'.txns && l'.txns[|l.txns|..] == txns
      && l'.uncommittedTxns == l.uncommittedTxns && l'.uncommittedTree == l.uncommittedTree
  {
    if l.uncommittedTree.Some? {
      assert |l.uncommittedTree.value| == |l.txns| + |l.uncommittedTxns|;
      assert txns == [] ==> l.txns + txns == l.txns;
    }
  }
}
