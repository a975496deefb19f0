/** Which ranges of sequence numbers a lagging ledger asks the other nodes for. */
module CatchupRanges {
  /** A CATCHUP_REQ: the inclusive range of sequence numbers it asks for. */
  datatype Range = Range(start: int, end: int)

  predicate Covers(r: Range, s: int) { r.start <= s <= r.end }

  /** `math.ceil(a / b)`. */
  function CeilDiv(a: int, b: int): (q: int)
    requires b != 0
    ensures b > 0 ==> q * b - b < a <= q * b
    ensures b > 0 && a > 0 ==> q > 0
    ensures b > 0 && a <= 0 ==> q <= 0
    ensures b < 0 && a >= 0 ==> q <= 0
  {
    if b > 0 then -((-a) / b) else -(a / -b)
  }

  /** The ranges are not empty and follow each other without gap from `lo + 1` to `hi`. */
  predicate Tiling(reqs: seq<Range>, lo: int, hi: int) {
    && |reqs| > 0
    && reqs[0].start == lo + 1
    && reqs[|reqs| - 1].end == hi
    && (forall i :: 0 <= i < |reqs| ==> reqs[i].start <= reqs[i].end)
    && (forall i, j :: 0 <= i && j == i + 1 < |reqs| ==> reqs[j].start == reqs[i].end + 1)
  }

  /** Every number of the set, and no other, is in a range, and in one only. */
  ghost predicate CoversOnce(reqs: seq<Range>, wanted: iset<int>) {
    && (forall s :: s in wanted <==> exists i :: 0 <= i < |reqs| && Covers(reqs[i], s))
    && (forall i, j, s :: 0 <= i < j < |reqs| && Covers(reqs[i], s) ==> !Covers(reqs[j], s))
  }

  /** All ranges but the last are of this size, and the last is no larger. */
  predicate InBatchesOf(reqs: seq<Range>, size: int) {
    && (forall i :: 0 <= i < |reqs| ==> AtMost(reqs[i], size))
    && (forall i :: 0 <= i < |reqs| - 1 ==> reqs[i].end - reqs[i].start + 1 == size)
  }

  predicate AtMost(r: Range, size: int) { r.end - r.start + 1 <= size }

  predicate Inside(s: int, lo: int, hi: int) { lo < s <= hi }

  ghost function Above(lo: int, hi: int): iset<int> { iset s | Inside(s, lo, hi) }

  lemma {:induction false} TilingBefore(reqs: seq<Range>, lo: int, hi: int, i: nat, j: nat)
    requires Tiling(reqs, lo, hi) && i < j < |reqs|
    ensures lo < reqs[i].start && reqs[i].end < reqs[j].start && reqs[j].end <= hi
    decreases j - i, i, |reqs| - j
  {
    if j > i + 1 {
      TilingBefore(reqs, lo, hi, i, j - 1);
    }
    TilingInside(reqs, lo, hi, i);
    TilingInside(reqs, lo, hi, j);
  }

  lemma {:induction false} TilingInside(reqs: seq<Range>, lo: int, hi: int, i: nat)
    requires Tiling(reqs, lo, hi) && i < |reqs|
    ensures lo < reqs[i].start && reqs[i].end <= hi
  {
    var k: nat := i;
    while k > 0
      invariant k <= i && reqs[k].start <= reqs[i].start
    {
      k := k - 1;
    }
    k := i;
    while k < |reqs| - 1
      invariant i <= k < |reqs| && reqs[i].end <= reqs[k].end
    {
      k := k + 1;
    }
  }

  lemma {:induction false} TilingReaches(reqs: seq<Range>, lo: int, hi: int, s: int) returns (i: nat)
    requires Tiling(reqs, lo, hi) && lo < s <= hi
    ensures i < |reqs| && Covers(reqs[i], s)
  {
    i := 0;
    while reqs[i].end < s
      invariant i < |reqs| && reqs[i].start <= s
      decreases |reqs| - i
    {
      i := i + 1;
    }
  }

  /** A tiling covers its interval, each number once. */
  lemma TilingCoversOnce(reqs: seq<Range>, lo: int, hi: int)
    requires Tiling(reqs, lo, hi)
    ensures CoversOnce(reqs, Above(lo, hi))
  {
    forall s ensures s in Above(lo, hi) <==> exists i :: 0 <= i < |reqs| && Covers(reqs[i], s) {
      if s in Above(lo, hi) {
        var i := TilingReaches(reqs, lo, hi, s);
      }
      if i :| 0 <= i < |reqs| && Covers(reqs[i], s) {
        TilingInside(reqs, lo, hi, i);
      }
    }
    forall i, j, s | 0 <= i < j < |reqs| && Covers(reqs[i], s) ensures !Covers(reqs[j], s) {
      TilingBefore(reqs, lo, hi, i, j);
    }
  }

  // ----- the first requests -----

  /** With something to catch up on, the requests split what is missing into ranges, one for each of at most
      `nodeCount` nodes, of equal size but for the last, and ask for every missing transaction once. With nothing to
      catch up on there is one empty range. Without a connected node the division fails. */
  method GetCatchupReqs(start: int, end: int, nodeCount: nat) returns (reqs: seq<Range>, failed: bool)
    ensures failed <==> nodeCount == 0
    ensures |reqs| <= nodeCount
    ensures !failed && start < end ==>
      && Tiling(reqs, start, end) && CoversOnce(reqs, Above(start, end))
      && InBatchesOf(reqs, CeilDiv(end - start, nodeCount))
    ensures !failed && start >= end ==> reqs == [Range(start + 1, end)]
  {
    hide CoversOnce, Above, CeilDiv, Times;
    reqs, failed := [], nodeCount == 0;
    if failed {
      return;
    }
    var batchLength := CeilDiv(end - start, nodeCount);
    EnoughBatches(end - start, nodeCount);
    NoBatches(batchLength);
    var s := start + 1;
    var e := Min(s + batchLength - 1, end);
    ghost var asked := 0;
    for i := 0 to nodeCount
      invariant |reqs| == i && asked == Times(i, batchLength)
      invariant s == start + 1 + asked && e == Min(s + batchLength - 1, end)
      invariant i > 0 ==> Tiling(reqs, start, s - 1) && s <= end + 1
      invariant 0 < i < nodeCount ==> s <= end
      invariant start >= end ==> i == 0
      invariant forall k :: 0 <= k < |reqs| ==> reqs[k].end - reqs[k].start + 1 == batchLength
    {
      reqs := reqs + [Range(s, e)];
      s := e + 1;
      e := Min(s + batchLength - 1, end);
      if s > end {
        break;
      }
      OneMoreBatch(i, batchLength);
      asked := asked + batchLength;
    }
    if start < end {
      TilingCoversOnce(reqs, start, end);
    }
  }

  function Times(i: int, n: int): int { i * n }

  lemma NoBatches(n: int)
    ensures Times(0, n) == 0
  {}

  lemma OneMoreBatch(i: int, n: int)
    ensures Times(i + 1, n) == Times(i, n) + n
  {}

  lemma EnoughBatches(total: int, nodeCount: nat)
    requires nodeCount > 0
    ensures total >= 0 ==> Times(nodeCount, CeilDiv(total, nodeCount)) >= total && CeilDiv(total, nodeCount) >= 0
    ensures total > 0 ==> CeilDiv(total, nodeCount) > 0
    ensures total <= 0 ==> total <= CeilDiv(total, nodeCount) <= 0
  {
    if total <= 0 {
      Multiple(CeilDiv(total, nodeCount), nodeCount);
    }
  }

  /** A multiple of a number that is not positive is no larger. */
  lemma {:induction false} Multiple(q: int, n: nat)
    requires q <= 0 && n > 0
    ensures q * n <= q
  {
    if n > 1 {
      Multiple(q, n - 1);
      assert q * n == q * (n - 1) + q;
    }
  }

  function Min(a: int, b: int): int { if a <= b then a else b }

  // ----- asking again for what did not come -----

  datatype Answer =
    | Nothing
    | NoNodes
    | DivisionByZero
    | Requests(reqs: seq<Range>, leftMissing: int)

  method AddReqsForMissing(frm: int, to: int, batchSize: int) returns (reqs: seq<Range>, missing: int)
    requires batchSize != 0
    ensures missing == to - frm + 1
    ensures batchSize > 0 && frm <= to ==> Tiling(reqs, frm - 1, to) && InBatchesOf(reqs, batchSize)
    ensures batchSize > 0 && frm > to ==> reqs == []
    ensures batchSize < 0 ==> forall i :: 0 <= i < |reqs| ==> reqs[i].end < reqs[i].start
  {
    hide Times, CeilDiv;
    missing := to - frm + 1;
    var numBatches := CeilDiv(missing, batchSize);
    BatchCount(missing, batchSize);
    NoBatches(batchSize);
    reqs := [];
    var i := 0;
    while i < numBatches
      invariant 0 <= i && |reqs| == i
      invariant batchSize > 0 && numBatches > 0 ==> i <= numBatches
      invariant batchSize > 0 && frm > to ==> i == 0
      invariant batchSize > 0 && i > 0 ==> Tiling(reqs, frm - 1, Min(to, frm + Times(i, batchSize) - 1))
      invariant batchSize > 0 ==> InBatchesOf(reqs, batchSize)
      invariant batchSize > 0 && 0 < i < numBatches ==> FullRange(reqs[i - 1], batchSize)
      invariant batchSize < 0 ==> forall k :: 0 <= k < |reqs| ==> reqs[k].end < reqs[k].start
    {
      var s := frm + Times(i, batchSize);
      var e := Min(to, frm + Times(i + 1, batchSize) - 1);
      OneMoreBatch(i, batchSize);
      if batchSize > 0 {
        FullBatch(missing, batchSize, numBatches, i);
        if i + 1 < numBatches {
          FullBatch(missing, batchSize, numBatches, i + 1);
        }
      }
      reqs := reqs + [Range(s, e)];
      i := i + 1;
    }
  }

  lemma BatchCount(missing: int, batchSize: int)
    requires batchSize != 0
    ensures
      var n := CeilDiv(missing, batchSize);
      && (batchSize > 0 ==> Times(n, batchSize) - batchSize < missing <= Times(n, batchSize))
      && (batchSize > 0 && missing > 0 ==> n > 0)
      && (batchSize > 0 && missing <= 0 ==> n <= 0)
  {}

  predicate FullRange(r: Range, size: int) { r.end - r.start + 1 == size }

  lemma FullBatch(missing: int, batchSize: int, numBatches: int, i: int)
    requires batchSize > 0 && 0 <= i < numBatches && Times(numBatches, batchSize) - batchSize < missing
    ensures Times(i, batchSize) < missing
  {
    assert i * batchSize <= (numBatches - 1) * batchSize;
  }

  /** The replies kept so far: in order, a number possibly several times, and none that the ledger has already. */
  predicate SortedAbove(received: seq<int>, size: int) {
    && (forall i :: 0 <= i < |received| ==> size < received[i])
    && (forall i, j :: 0 <= i < j < |received| ==> received[i] <= received[j])
  }

  function Last(received: seq<int>, size: int): int { if |received| == 0 then size else received[|received| - 1] }

  function Max(a: int, b: int): int { if a <= b then b else a }

  /** The sequence numbers up to `hi` that no reply brought. */
  ghost function MissingUpTo(received: seq<int>, size: int, hi: int): iset<int> {
    iset s | size < s <= hi && s !in received
  }

  lemma CoverMore(reqs: seq<Range>, wanted: iset<int>, more: seq<Range>, lo: int, hi: int)
    requires CoversOnce(reqs, wanted) && Tiling(more, lo, hi)
    requires forall s :: s in wanted ==> s <= lo
    ensures CoversOnce(reqs + more, wanted + Above(lo, hi))
  {
    hide Tiling, Covers;
    TilingCoversOnce(more, lo, hi);
    var all := reqs + more;
    forall s ensures s in wanted + Above(lo, hi) <==> exists i :: 0 <= i < |all| && Covers(all[i], s) {
      if s in wanted {
        var i :| 0 <= i < |reqs| && Covers(reqs[i], s);
        assert all[i] == reqs[i];
      } else if s in Above(lo, hi) {
        var i :| 0 <= i < |more| && Covers(more[i], s);
        assert all[|reqs| + i] == more[i];
      }
    }
    forall i, j, s | 0 <= i < j < |all| && Covers(all[i], s) ensures !Covers(all[j], s) {
      if j < |reqs| {
      } else if i < |reqs| {
        assert s in wanted;
        assert Covers(more[j - |reqs|], s) ==> s in Above(lo, hi);
      } else {
        assert all[i] == more[i - |reqs|] && all[j] == more[j - |reqs|];
      }
    }
  }

  /** Numbers between two neighbours of a sorted list are missing. */
  lemma MissingBetween(received: seq<int>, size: int, end: int, i: nat, last: int)
    requires SortedAbove(received, size) && i <= |received|
    requires last == if i == 0 then size else received[i - 1]
    ensures i < |received| ==>
      MissingUpTo(received, size, received[i]) == MissingUpTo(received, size, last) + Above(last, received[i] - 1)
    ensures i < |received| && received[i] <= last + 1 ==>
      MissingUpTo(received, size, received[i]) == MissingUpTo(received, size, last)
    ensures i == |received| && last <= end ==>
      MissingUpTo(received, size, end) == MissingUpTo(received, size, last) + Above(last, end)
  {
    forall s | s in received && s > last ensures i < |received| && received[i] <= s {
      var j :| 0 <= j < |received| && received[j] == s;
    }
  }

  ghost predicate AllEmpty(reqs: seq<Range>) {
    forall i :: 0 <= i < |reqs| ==> reqs[i].end < reqs[i].start
  }

  lemma NothingCovered(received: seq<int>, size: int)
    ensures CoversOnce([], MissingUpTo(received, size, size))
    ensures forall lo, hi, s :: s in MissingUpTo(received, lo, hi) ==> lo < s <= hi
  {}

  /** The loop over the replies, and the rest up to `end`. What it asks for reaches as far as the last reply. */
  method GapRequests(size: int, end: int, received: seq<int>, totalMissing: int, batchSize: int) returns (a: Answer)
    requires SortedAbove(received, size) && size <= end
    requires totalMissing == end - size - |received| && (totalMissing > 0 <==> batchSize > 0)
    ensures batchSize > 0 ==>
      && a.Requests? && a.leftMissing == Min(0, end - Last(received, size))
      && CoversOnce(a.reqs, MissingUpTo(received, size, Max(end, Last(received, size))))
      && forall i :: 0 <= i < |a.reqs| ==> AtMost(a.reqs[i], batchSize)
    ensures batchSize <= 0 ==> a.DivisionByZero? || (a.Requests? && AllEmpty(a.reqs))
  {
    hide CoversOnce, Tiling, MissingUpTo, Above;
    NothingCovered(received, size);
    var reqs: seq<Range> := [];
    var lastSeenSeqNo := size;
    var leftMissing := totalMissing;
    for i := 0 to |received|
      invariant lastSeenSeqNo == if i == 0 then size else received[i - 1]
      invariant leftMissing == end - lastSeenSeqNo - (|received| - i)
      invariant batchSize > 0 ==> CoversOnce(reqs, MissingUpTo(received, size, lastSeenSeqNo))
      invariant batchSize <= 0 ==> AllEmpty(reqs)
      invariant batchSize > 0 ==> forall k :: 0 <= k < |reqs| ==> AtMost(reqs[k], batchSize)
    {
      var seqNo := received[i];
      MissingBetween(received, size, end, i, lastSeenSeqNo);
      if seqNo - lastSeenSeqNo != 1 {
        if batchSize == 0 {
          return DivisionByZero;
        }
        var more, missing := AddReqsForMissing(lastSeenSeqNo + 1, seqNo - 1, batchSize);
        if batchSize > 0 && lastSeenSeqNo + 1 <= seqNo - 1 {
          CoverMore(reqs, MissingUpTo(received, size, lastSeenSeqNo), more, lastSeenSeqNo, seqNo - 1);
        } else if batchSize > 0 {
          assert more == [] && reqs + more == reqs;
        }
        reqs := reqs + more;
        leftMissing := leftMissing - missing;
      }
      lastSeenSeqNo := seqNo;
    }
    MissingBetween(received, size, end, |received|, lastSeenSeqNo);
    if leftMissing > 0 && lastSeenSeqNo != end {
      if batchSize == 0 {
        return DivisionByZero;
      }
      var more, missing := AddReqsForMissing(lastSeenSeqNo + 1, end, batchSize);
      if batchSize > 0 {
        CoverMore(reqs, MissingUpTo(received, size, lastSeenSeqNo), more, lastSeenSeqNo, end);
      }
      reqs := reqs + more;
      leftMissing := leftMissing - missing;
    }
    return Requests(reqs, leftMissing);
  }

  /** A reply further beyond the end than the first follows another one. */
  ghost predicate NoGapBeyond(received: seq<int>, end: int) {
    forall s {:trigger Follows(received, s, end)} :: s in received ==> Follows(received, s, end)
  }

  predicate Follows(received: seq<int>, s: int, end: int) { s > end + 1 ==> s - 1 in received }

  /** Without such a gap nothing is missing beyond the end, and with one something is. */
  lemma BeyondEnd(received: seq<int>, size: int, end: int)
    requires SortedAbove(received, size) && size <= end
    ensures MissingUpTo(received, size, Max(end, Last(received, size))) == MissingUpTo(received, size, end)
       <==> NoGapBeyond(received, end)
  {
    hide NoGapBeyond;
    var last := Last(received, size);
    LastIsLargest(received, size);
    if NoGapBeyond(received, end) {
      forall s | end < s <= last ensures s in received {
        FilledBeyond(received, end, last, s);
      }
    } else {
      var s := GapBeyond(received, end);
      assert s - 1 in MissingUpTo(received, size, Max(end, last));
      assert s - 1 !in MissingUpTo(received, size, end);
    }
  }

  lemma GapBeyond(received: seq<int>, end: int) returns (s: int)
    requires !NoGapBeyond(received, end)
    ensures s in received && s > end + 1 && s - 1 !in received
  {
    s :| s in received && !Follows(received, s, end);
  }

  lemma {:induction false} FilledBeyond(received: seq<int>, end: int, last: int, s: int)
    requires NoGapBeyond(received, end) && last in received && end < s <= last
    ensures s in received
    decreases last - s
  {
    if s < last {
      FilledBeyond(received, end, last, s + 1);
      assert Follows(received, s + 1, end);
    }
  }

  /** Exact gap cover, for any replies received so far; some number is missing. The requests ask for exactly the missing
      numbers, each once, if and only if there are fewer replies than numbers to catch up and no gap between replies
      beyond the end. No request asks one node for more than its share. Nothing is counted as left over if and only if
      no reply is beyond the end. */
  method CheckIfTxnsNeeded(size: int, end: int, received: seq<int>, nodeCount: nat) returns (a: Answer)
    requires SortedAbove(received, size) && size <= end
    ensures a.NoNodes? <==> nodeCount == 0 && |received| != end - size
    ensures a.Nothing? <==> |received| == end - size
    ensures nodeCount > 0 && (exists s :: s in MissingUpTo(received, size, end)) ==>
      (a.Requests? && CoversOnce(a.reqs, MissingUpTo(received, size, end))
       <==> |received| < end - size && NoGapBeyond(received, end))
    ensures nodeCount > 0 && |received| < end - size ==>
      && a.Requests? && (a.leftMissing == 0 <==> forall s :: s in received ==> s <= end)
      && forall i :: 0 <= i < |a.reqs| ==> AtMost(a.reqs[i], CeilDiv(end - size - |received|, nodeCount))
  {
    var totalMissing := (end - size) - |received|;
    if totalMissing == 0 {
      return Nothing;
    }
    if nodeCount == 0 {
      return NoNodes;
    }
    var batchSize := CeilDiv(totalMissing, nodeCount);
    a := GapRequests(size, end, received, totalMissing, batchSize);
    BeyondEnd(received, size, end);
    LastIsLargest(received, size);
  }

  lemma LastIsLargest(received: seq<int>, size: int)
    requires SortedAbove(received, size)
    ensures forall s :: s in received ==> s <= Last(received, size)
    ensures |received| > 0 ==> Last(received, size) in received
  {}

  /** One number that came twice hides one that did not come: nothing is asked for, though 2 is missing. */
  method DuplicateHidesGap(nodeCount: nat) returns (a: Answer)
    ensures a == Nothing && 2 in MissingUpTo([1, 1], 0, 2)
  {
    a := CheckIfTxnsNeeded(0, 2, [1, 1], nodeCount);
  }

  /** A reply far beyond the end makes the node ask for what it does not need. */
  method AsksBeyondEnd(nodeCount: nat) returns (a: Answer)
    requires nodeCount > 0
    ensures a.Requests? && a.leftMissing != 0 && !CoversOnce(a.reqs, MissingUpTo([4], 0, 2))
  {
    a := CheckIfTxnsNeeded(0, 2, [4], nodeCount);
    assert 1 in MissingUpTo([4], 0, 2) && [4][0] == 4;
    assert 4 in [4] && !Follows([4], 4, 2);
  }

  /** When no number came twice and none beyond the end, the condition is met whenever something is missing. */
  lemma FewerThanMissing(received: seq<int>, size: int, end: int, s: int)
    requires SortedAbove(received, size) && Last(received, size) <= end
    requires forall i, j :: 0 <= i < j < |received| ==> received[i] != received[j]
    requires s in MissingUpTo(received, size, end)
    ensures |received| < end - size && NoGapBeyond(received, end)
  {
    var i := 0;
    while i < |received|
      invariant 0 <= i <= |received|
      invariant i > 0 ==> received[i - 1] >= size + i
      invariant i > 0 && received[i - 1] > s ==> received[i - 1] > size + i
    {
      i := i + 1;
    }
    LastIsLargest(received, size);
  }
}
