/** The CHECKPOINTs of other nodes are counted: at once when the own checkpoint is closed, and when it is closed if they
    came before. */
module Announcing {
  import opened Messages
  import opened ReplicaSpec
  import opened ReplicaInvariant
  import opened ReplicaCoreProof

  /** The announcement of `w` is counted for the checkpoint with this key. */
  ghost predicate Received(k: Core, start: nat, end: nat, w: Name) {
    exists i :: HasReceived(k.checkpoints, i, start, end, w)
  }

  ghost predicate HasReceived(cks: seq<CheckpointState>, i: int, start: nat, end: nat, w: Name) {
    0 <= i < |cks| && cks[i].start == start && cks[i].end == end && w in cks[i].received
  }

  /** The announcement is counted, or its range is below the low water mark. */
  ghost predicate Heeded(k: Core, start: nat, end: nat, w: Name) { end <= k.h || Received(k, start, end, w) }

  /** What making a checkpoint stable does to the announcements counted. */
  lemma StableKeepsReceived(x: Context, k: Core, i: nat, start: nat, end: nat, w: Name)
    requires CheckpointsOk(x, k.h, |k.ordered|, k.checkpoints) && i < |k.checkpoints| && Received(k, start, end, w)
    ensures Heeded(MarkStable(k, k.checkpoints[i].end), start, end, w)
  {
    hide CheckpointOk, Gc, MarkStable;
    MarkStableIs(x, k, |k.ordered|, i);
    var j :| HasReceived(k.checkpoints, j, start, end, w);
    var k' := MarkStable(k, k.checkpoints[i].end);
    if j < i {
      assert k.checkpoints[j].end < k.checkpoints[i].start;
    } else {
      assert HasReceived(k'.checkpoints, j - i, start, end, w);
    }
  }

  /** A matching announcement for a closed checkpoint is counted, and those counted before stay. */
  lemma MatchingHeeded(x: Context, k: Core, i: nat, digest: Hash, v: Name, start: nat, end: nat, w: Name)
    requires CoreOk(x, k) && i < |k.checkpoints| && k.checkpoints[i].digest == Some(digest)
    requires !k.checkpoints[i].isStable
    requires SaysCheckpoint(x, k.checkpoints[i].start, k.checkpoints[i].end, digest, v)
    requires Received(k, start, end, w) ||
             (start == k.checkpoints[i].start && end == k.checkpoints[i].end && w == v)
    ensures
      var ck := k.checkpoints[i].(received := k.checkpoints[i].received[v := digest]);
      Heeded(CheckIfStable(x.c, k.(checkpoints := k.checkpoints[i := ck]), ck), start, end, w)
  {
    hide ContextOk, OrderOk, HeldOk, PreparesOk, CommitsOk, StashOk, CheckpointsOk, StashedCheckpointsOk, MessagesOk,
         BoxOk, OrderedBoxOk, AnnouncedOk, SaysCheckpoint, MarkStable;
    var ck := k.checkpoints[i].(received := k.checkpoints[i].received[v := digest]);
    var k1 := k.(checkpoints := k.checkpoints[i := ck]);
    MatchingListOk(x, k.h, |k.ordered|, k.checkpoints, i, digest, v);
    OpenAboveMark(x, k, i);
    if Received(k, start, end, w) {
      var j :| HasReceived(k.checkpoints, j, start, end, w);
      assert HasReceived(k1.checkpoints, j, start, end, w);
    } else {
      assert HasReceived(k1.checkpoints, i, start, end, w);
    }
    if |ck.received| == 2 * x.c.f {
      StableKeepsReceived(x, k1, i, start, end, w);
    }
  }

  /** Announcements that are counted stay counted until their range is below the low water mark. */
  lemma ReceivedStays(x: Context, k: Core, start: nat, end: nat, digest: Hash, v: Name, s: nat, e: nat, w: Name)
    requires CoreOk(x, k) && SaysCheckpoint(x, start, end, digest, v) && Heeded(k, s, e, w)
    ensures Heeded(ProcessCheckpoint(x.c, k, start, end, digest, v), s, e, w)
  {
    hide ContextOk, OrderOk, HeldOk, PreparesOk, CommitsOk, StashOk, CheckpointsOk, StashedCheckpointsOk, MessagesOk,
         BoxOk, OrderedBoxOk, AnnouncedOk, SaysCheckpoint, CheckIfStable, PutStashed, HasReceived;
    ProcessCheckpointOk(x, k, start, end, digest, v);
    var i := KeyIndex(k.checkpoints, start, end);
    if e > k.h && !IsStable(k, end) && i < |k.checkpoints| && k.checkpoints[i].digest == Some(digest) {
      if k.checkpoints[i].isStable {
        StableIsBelow(x, k.h, |k.ordered|, k, i);
      } else {
        MatchingHeeded(x, k, i, digest, v, s, e, w);
      }
    }
  }

  /** The own checkpoint with this key is closed and not yet stable. */
  ghost predicate Closed(k: Core, i: int, start: nat, end: nat) {
    0 <= i < |k.checkpoints| && k.checkpoints[i].start == start && k.checkpoints[i].end == end &&
    k.checkpoints[i].digest.Some? && !k.checkpoints[i].isStable
  }

  /** A CHECKPOINT with the own digest for a closed checkpoint is counted. */
  lemma AnnouncementCounted(x: Context, k: Core, start: nat, end: nat, digest: Hash, w: Name, i: nat)
    requires CoreOk(x, k) && SaysCheckpoint(x, start, end, digest, w)
    requires Closed(k, i, start, end) && k.checkpoints[i].digest == Some(digest)
    ensures Heeded(ProcessCheckpoint(x.c, k, start, end, digest, w), start, end, w)
  {
    hide ContextOk, OrderOk, HeldOk, PreparesOk, CommitsOk, StashOk, CheckpointsOk, StashedCheckpointsOk, MessagesOk,
         BoxOk, OrderedBoxOk, AnnouncedOk, SaysCheckpoint, CheckIfStable, KeyIndex, IsStable;
    OpenAboveMark(x, k, i);
    MatchingHeeded(x, k, i, digest, w, start, end, w);
  }

  /** A CHECKPOINT for a range that is neither closed nor below the low water mark waits, in the place of an earlier
      one of the same sender; those of other senders stay. */
  lemma AnnouncementWaits(x: Context, k: Core, start: nat, end: nat, digest: Hash, w: Name)
    requires CoreOk(x, k) && end > k.h && OnePerSender(StashedFor(k, start, end))
    requires forall i :: 0 <= i < |k.checkpoints| && k.checkpoints[i].start == start && k.checkpoints[i].end == end ==>
      k.checkpoints[i].digest == None
    ensures
      var k' := ProcessCheckpoint(x.c, k, start, end, digest, w);
      var stash, stash' := StashedFor(k, start, end), StashedFor(k', start, end);
      && OnePerSender(stash')
      && forall v, d :: (v, d) in stash' <==> if v == w then d == digest else (v, d) in stash
  {
    hide CoreOkAt, IsStable, PutStashed, OnePerSender;
    StableIffBelowLowMark(x, k, |k.ordered|, end);
    var stash := StashedFor(k, start, end);
    PutStashedIs(stash, w, digest);
    assert StashedFor(ProcessCheckpoint(x.c, k, start, end, digest, w), start, end) == PutStashed(stash, w, digest);
  }

  ghost predicate OnePerSender(stash: seq<(Name, Hash)>) {
    forall i, j :: 0 <= i < j < |stash| ==> stash[i].0 != stash[j].0
  }

  lemma {:induction false} PutStashedIs(stash: seq<(Name, Hash)>, w: Name, digest: Hash)
    requires OnePerSender(stash)
    ensures
      var stash' := PutStashed(stash, w, digest);
      && OnePerSender(stash')
      && forall v, d :: (v, d) in stash' <==> if v == w then d == digest else (v, d) in stash
  {
    if stash != [] {
      assert stash == [stash[0]] + stash[1..];
      if stash[0].0 == w {
        assert forall e :: e in stash[1..] ==> e.0 != w;
      } else {
        PutStashedIs(stash[1..], w, digest);
        var rest := PutStashed(stash[1..], w, digest);
        assert forall e :: e in rest ==> (e.0, e.1) in rest;
        assert forall e :: e in rest ==> e.0 != stash[0].0;
      }
    }
  }

  /** The stashed CHECKPOINTs with the own digest are counted when the checkpoint is closed. */
  lemma {:induction false} ReplayHeeds(x: Context, k: Core, start: nat, end: nat, todo: seq<(Name, Hash)>, digest: Hash)
    requires CoreOk(x, k) && StashedFromOk(x, start, end, todo)
    requires end <= k.h || exists i: nat :: Closed(k, i, start, end) && k.checkpoints[i].digest == Some(digest)
    ensures
      var k' := ReplayCheckpoints(x.c, k, start, end, todo);
      && (forall w :: Heeded(k, start, end, w) ==> Heeded(k', start, end, w))
      && (forall w :: (w, digest) in todo ==> Heeded(k', start, end, w))
    decreases |todo|
  {
    hide CoreOkAt, SaysCheckpoint, ProcessCheckpoint, Heeded;
    if todo != [] {
      assert todo[0] in todo;
      var (v, d) := todo[0];
      var k1 := ProcessCheckpoint(x.c, k, start, end, d, v);
      ProcessCheckpointOk(x, k, start, end, d, v);
      OneReplayed(x, k, start, end, d, v, digest);
      assert todo == [todo[0]] + todo[1..];
      ReplayHeeds(x, k1, start, end, todo[1..], digest);
    }
  }

  lemma OneReplayed(x: Context, k: Core, start: nat, end: nat, d: Hash, v: Name, digest: Hash)
    requires CoreOk(x, k) && SaysCheckpoint(x, start, end, d, v)
    requires end <= k.h || exists i: nat :: Closed(k, i, start, end) && k.checkpoints[i].digest == Some(digest)
    ensures
      var k1 := ProcessCheckpoint(x.c, k, start, end, d, v);
      && (end <= k1.h || exists i: nat :: Closed(k1, i, start, end) && k1.checkpoints[i].digest == Some(digest))
      && (forall w :: Heeded(k, start, end, w) ==> Heeded(k1, start, end, w))
      && (d == digest ==> Heeded(k1, start, end, v))
  {
    hide ContextOk, OrderOk, HeldOk, PreparesOk, CommitsOk, StashOk, CheckpointsOk, StashedCheckpointsOk, MessagesOk,
         BoxOk, OrderedBoxOk, AnnouncedOk, SaysCheckpoint, Received, KeyIndex, MarkStable, PutStashed, IsStable;
    ProcessCheckpointOk(x, k, start, end, d, v);
    var k1 := ProcessCheckpoint(x.c, k, start, end, d, v);
    forall w | Heeded(k, start, end, w) ensures Heeded(k1, start, end, w) {
      ReceivedStays(x, k, start, end, d, v, start, end, w);
    }
    if end > k.h {
      var i: nat :| Closed(k, i, start, end) && k.checkpoints[i].digest == Some(digest);
      OpenAboveMark(x, k, i);
      if d == digest {
        AnnouncementCounted(x, k, start, end, digest, v, i);
        var ck := k.checkpoints[i].(received := k.checkpoints[i].received[v := digest]);
        var k2 := k.(checkpoints := k.checkpoints[i := ck]);
        if |ck.received| == 2 * x.c.f {
          MatchingListOk(x, k.h, |k.ordered|, k.checkpoints, i, digest, v);
          MarkStableIs(x, k2, |k.ordered|, i);
        } else {
          assert Closed(k1, i, start, end);
        }
      }
    }
  }

  /** The checkpoint that batch `p` completes, when it starts at `start`. */
  lemma CompletedStart(x: Context, n: nat, ck: CheckpointState, start: nat)
    requires Open(x, n, ck) && IsStart(start, x.c.chkFreq) && start + x.c.chkFreq - 1 == n + 1
    ensures ck.start == start && ck.end == n + 1 && |ck.digests| == x.c.chkFreq
  {
    hide IsStart;
    if start < ck.start {
      StartsApart(start, ck.start, x.c.chkFreq);
    } else if ck.start < start {
      StartsApart(ck.start, start, x.c.chkFreq);
    }
  }

  lemma CloseHeeds(x: Context, k: Core, cks: seq<CheckpointState>, i: nat, w: Name)
    requires |k.ordered| > 0 && CoreOkAt(x, k, |k.ordered| - 1)
    requires i < |cks| && Open(x, |k.ordered| - 1, cks[i]) && cks[i].end == |k.ordered|
    requires CheckpointsOk(x, k.h, |k.ordered|,
                           cks[i := cks[i].(digest := Some(x.c.hash(cks[i].digests)), digests := [])])
    requires (w, x.c.hash(cks[i].digests)) in StashedFor(k, cks[i].start, cks[i].end)
    ensures Heeded(CloseCheckpoint(x.c, k, cks, i), cks[i].start, cks[i].end, w)
  {
    hide ContextOk, OrderOk, HeldOk, PreparesOk, CommitsOk, StashOk, CheckpointsOk, StashedCheckpointsOk, MessagesOk,
         BoxOk, OrderedBoxOk, AnnouncedOk, MessageOk, StashedFromOk, ReplayCheckpoints, IsStart, Heeded;
    var ck := cks[i];
    var d := x.c.hash(ck.digests);
    var m := OutCheckpoint(Checkpoint(x.c.viewNo, ck.start, ck.end, d));
    var closed := cks[i := ck.(digest := Some(d), digests := [])];
    var k2 := k.(checkpoints := closed, outBox := k.outBox + [m]);
    AnnouncementOk(x, |k.ordered|, k.outBox + [m], ck);
    NowAnnounced(x, |k.ordered| - 1, k.outBox, ck);
    AnnounceOk(x, k, |k.ordered| - 1, closed, m);
    StashedForOk(x, k2, ck.start, ck.end);
    assert Closed(k2, i, ck.start, ck.end);
    ReplayHeeds(x, k2, ck.start, ck.end, StashedFor(k2, ck.start, ck.end), d);
  }

  /** The batch that completes a range closes its checkpoint, and the CHECKPOINTs with the digest of the batches
      accepted that came before are counted then. */
  lemma EarlyAnnouncementsCounted(x: Context, k: Core, p: nat, start: nat, w: Name)
    requires CoreOk(x, k) && CanOrder(x.c, k, p) && IsStart(start, x.c.chkFreq) && start + x.c.chkFreq - 1 == p
    requires 1 <= start && p <= |x.admitted|
    requires (w, x.c.hash(Digests(x.admitted, start, p))) in StashedFor(k, start, p)
    ensures Heeded(DoOrder(x.c, k, p), start, p, w)
  {
    hide CoreOkAt, AllPrevOrdered, Committed, IsStart, Heeded, CloseCheckpoint, RecordInCheckpoint, Digests,
         CheckpointOk;
    CanOrderOnlyNext(x, k, p);
    BeforeOrdering(x, k, p);
    OrderedStepOk(x, k, p);
    var m := OutOrdered(OrderedFor(x.admitted[p - 1]));
    var k1 := k.(ordered := k.ordered + [p], lastOrdered := p, outBox := k.outBox + [m]);
    CompletingHeeds(x, k1, start, w);
  }

  lemma CompletingHeeds(x: Context, k: Core, start: nat, w: Name)
    requires |k.ordered| > 0 && CoreOkAt(x, k, |k.ordered| - 1) && |k.ordered| <= |x.admitted|
    requires IsStart(start, x.c.chkFreq) && start + x.c.chkFreq - 1 == |k.ordered| && 1 <= start
    requires (w, x.c.hash(Digests(x.admitted, start, |k.ordered|))) in StashedFor(k, start, |k.ordered|)
    ensures
      var n := |k.ordered|;
      Heeded(AddToCheckpoint(x.c, k, n, x.admitted[n - 1].cert.digest), start, n, w)
  {
    hide ContextOk, OrderOk, HeldOk, PreparesOk, CommitsOk, StashOk, CheckpointsOk, StashedCheckpointsOk, MessagesOk,
         BoxOk, OrderedBoxOk, AnnouncedOk, CheckpointOk, RecordInCheckpoint, CloseCheckpoint, IsStart, Heeded;
    var n := |k.ordered| - 1;
    var cks := RecordInCheckpoint(x.c, k.checkpoints, n + 1, x.admitted[n].cert.digest);
    RecordShape(x, k.h, n, k.checkpoints);
    var i := |cks| - 1;
    var ck := cks[i];
    OpenOk(x, n, ck);
    CompletedStart(x, n, ck, start);
    RecordedOk(x, k.h, n, k.checkpoints, ck.(digest := Some(x.c.hash(ck.digests)), digests := []));
    CloseHeeds(x, k, cks, i, w);
  }
}
