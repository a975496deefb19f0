/** Each operation on votes and checkpoints keeps the invariant of the voting part. */
module ReplicaCoreProof {
  import opened Messages
  import opened ReplicaSpec
  import opened ReplicaInvariant
  import Quorums

  // ----- sending -----

  lemma PreparedGrows(x: Context, box: seq<Out>, m: Out, p: nat)
    requires Prepared(x, box, p)
    ensures Prepared(x, box + [m], p)
  {
    var q :| PrepareQuorum(x, box, p, q);
    assert PrepareQuorum(x, box + [m], p, q);
  }

  lemma CommittedGrows(x: Context, box: seq<Out>, m: Out, p: nat)
    requires Committed(x, box, p)
    ensures Committed(x, box + [m], p)
  {
    var q :| CommitQuorum(x, box, p, q);
    assert CommitQuorum(x, box + [m], p, q);
  }

  lemma MessageStaysOk(x: Context, n: nat, n': nat, box: seq<Out>, m: Out, old_: Out)
    requires MessageOk(x, n, box, old_) && n <= n' <= |x.admitted|
    ensures MessageOk(x, n', box + [m], old_)
  {
    match old_
    case OutThreePhase(CommitMsg(cm)) => PreparedGrows(x, box, m, cm.ppSeqNo);
    case OutOrdered(o) => CommittedGrows(x, box, m, o.ppSeqNo);
    case _ =>
  }

  lemma BoxGrows(x: Context, n: nat, n': nat, box: seq<Out>, m: Out)
    requires BoxOk(x, n, box) && n <= n' <= |x.admitted|
    requires MessageOk(x, n', box + [m], m)
    ensures BoxOk(x, n', box + [m])
  {
    forall o | o in box + [m] ensures MessageOk(x, n', box + [m], o) {
      if o in box {
        MessageStaysOk(x, n, n', box, m, o);
      }
    }
  }

  lemma OrderedMsgsOfAppend(box: seq<Out>, m: Out)
    ensures OrderedMsgs(box + [m]) == OrderedMsgs(box) + (if m.OutOrdered? then [m.ordered] else [])
  {
    assert (box + [m])[..|box|] == box;
  }

  lemma VotesBackedAfterSend(x: Context, k: Core, m: Out)
    requires PreparesOk(x, k.h, k.outBox, k.prepares) && CommitsOk(x, k.h, k.outBox, k.commits)
    ensures PreparesOk(x, k.h, k.outBox + [m], k.prepares) && CommitsOk(x, k.h, k.outBox + [m], k.commits)
  {
    forall p, w | p in k.prepares && w in k.prepares[p] ensures BacksPrepare(x, k.outBox + [m], p, w) {
      assert BacksPrepare(x, k.outBox, p, w);
    }
    forall p, w | p in k.commits && w in k.commits[p] ensures BacksCommit(x, k.outBox + [m], p, w) {
      assert BacksCommit(x, k.outBox, p, w);
    }
  }

  lemma OrderedBoxAfterSend(x: Context, n: nat, box: seq<Out>, m: Out)
    requires OrderedBoxOk(x, n, box)
    ensures !m.OutOrdered? ==> OrderedBoxOk(x, n, box + [m])
    ensures n < |x.admitted| && m == OutOrdered(OrderedFor(x.admitted[n])) ==> OrderedBoxOk(x, n + 1, box + [m])
  {
    OrderedMsgsOfAppend(box, m);
  }

  lemma CheckpointMsgsOfAppend(box: seq<Out>, m: Out)
    ensures CheckpointMsgs(box + [m]) == CheckpointMsgs(box) + (if m.OutCheckpoint? then [m.ck] else [])
  {
    assert (box + [m])[..|box|] == box;
  }

  lemma AnnouncedAfterSend(x: Context, n: nat, box: seq<Out>, m: Out)
    requires AnnouncedOk(x, n, box) && !m.OutCheckpoint?
    ensures AnnouncedOk(x, n, box + [m])
  {
    CheckpointMsgsOfAppend(box, m);
  }

  lemma SendOk(x: Context, k: Core, n: nat, m: Out)
    requires CoreOkAt(x, k, n) && !m.OutOrdered? && !m.OutCheckpoint?
    requires MessageOk(x, |k.ordered|, k.outBox + [m], m)
    ensures CoreOkAt(x, k.(outBox := k.outBox + [m]), n) && Extends(k, k.(outBox := k.outBox + [m]))
  {
    hide ContextOk, OrderOk, HeldOk, PreparesOk, CommitsOk, StashOk, CheckpointsOk, StashedCheckpointsOk, MessagesOk,
         BoxOk, OrderedBoxOk, AnnouncedOk, MessageOk;
    VotesBackedAfterSend(x, k, m);
    BoxGrows(x, |k.ordered|, |k.ordered|, k.outBox, m);
    OrderedBoxAfterSend(x, |k.ordered|, k.outBox, m);
    AnnouncedAfterSend(x, n, k.outBox, m);
  }

  // ----- stable checkpoints and garbage collection -----

  lemma StableIffBelowLowMark(x: Context, k: Core, n: nat, p: nat)
    requires CoreOkAt(x, k, n)
    ensures IsStable(k, p) <==> k.h > 0 && p <= k.h
  {
    if k.h > 0 {
      assert CheckpointOk(x, n, k.checkpoints[0]);
    }
  }

  lemma GcHeld(x: Context, k: Core, till: nat)
    requires HeldOk(x, k.h, k.sentPrePrepares, k.prePrepares) && k.h <= till
    ensures HeldOk(x, till, Gc(k, till).sentPrePrepares, Gc(k, till).prePrepares)
  {
  }

  lemma GcVotes(x: Context, k: Core, till: nat)
    requires HeldOk(x, k.h, k.sentPrePrepares, k.prePrepares) && k.h <= till <= |k.ordered| <= |x.admitted|
    requires PreparesOk(x, k.h, k.outBox, k.prepares) && CommitsOk(x, k.h, k.outBox, k.commits)
    requires StashOk(|k.ordered|, k.commits, k.stashedCommits)
    ensures PreparesOk(x, till, k.outBox, Gc(k, till).prepares) && CommitsOk(x, till, k.outBox, Gc(k, till).commits)
    ensures StashOk(|k.ordered|, Gc(k, till).commits, k.stashedCommits)
    ensures forall p :: p in k.commits ==> p in Gc(k, till).commits || p <= till
  {
    var keys := set p | p in k.sentPrePrepares.Keys + k.prePrepares.Keys && p <= till;
    assert forall p :: p in keys <==> k.h < p <= till;
    assert Gc(k, till).prepares == k.prepares - keys;
    assert Gc(k, till).commits == k.commits - keys;
  }

  lemma StableCheckpointOk(x: Context, n: nat, ck: CheckpointState)
    requires CheckpointOk(x, n, ck) && ck.end <= n && |ck.received| == 2 * x.c.f
    ensures CheckpointOk(x, n, ck.(isStable := true))
  {
  }

  lemma EndIndexIs(h: nat, n: nat, cks: seq<CheckpointState>, i: nat)
    requires ShapeOk(h, n, cks) && i < |cks|
    ensures EndIndex(cks, cks[i].end) == i && h <= cks[i].end
  {
  }

  lemma MarkStableShape(h: nat, n: nat, cks: seq<CheckpointState>, i: nat)
    requires ShapeOk(h, n, cks) && i < |cks|
    ensures ShapeOk(cks[i].end, n, cks[i := cks[i].(isStable := true)][i..])
  {
    hide ShapeOk, OpenAfter;
    var first := cks[i].(isStable := true);
    OpenTail(h, n, cks, i);
    StableThenOpen(n, first, cks[i + 1..]);
    assert cks[i := first][i..] == [first] + cks[i + 1..];
  }

  /** Checkpoints above `low`, disjoint and in order, none of them stable. */
  ghost predicate OpenAfter(low: nat, rest: seq<CheckpointState>) {
    (forall j :: 0 <= j < |rest| ==> !rest[j].isStable && low < rest[j].start <= rest[j].end) &&
    (forall j, l :: 0 <= j < l < |rest| ==> rest[j].end < rest[l].start)
  }

  lemma OpenTail(h: nat, n: nat, cks: seq<CheckpointState>, i: nat)
    requires ShapeOk(h, n, cks) && i < |cks|
    ensures OpenAfter(cks[i].end, cks[i + 1..]) && 0 < cks[i].start <= cks[i].end && n > 0
    ensures
      var last := if cks[i + 1..] == [] then cks[i] else cks[i + 1..][|cks[i + 1..]| - 1];
      last.start <= n <= last.end
  {
    var rest := cks[i + 1..];
    forall j | 0 <= j < |rest| ensures !rest[j].isStable && cks[i].end < rest[j].start <= rest[j].end {
      assert rest[j] == cks[i + 1 + j];
    }
    forall j, l | 0 <= j < l < |rest| ensures rest[j].end < rest[l].start {
      assert rest[j] == cks[i + 1 + j] && rest[l] == cks[i + 1 + l];
    }
  }

  lemma StableThenOpen(n: nat, first: CheckpointState, rest: seq<CheckpointState>)
    requires first.isStable && 0 < first.start <= first.end && OpenAfter(first.end, rest) && n > 0
    requires
      var last := if rest == [] then first else rest[|rest| - 1];
      last.start <= n <= last.end
    ensures ShapeOk(first.end, n, [first] + rest)
  {
    var all := [first] + rest;
    forall j | 0 < j < |all| ensures all[j] == rest[j - 1] {
    }
  }

  lemma MarkStableCheckpoints(x: Context, h: nat, n: nat, cks: seq<CheckpointState>, i: nat)
    requires CheckpointsOk(x, h, n, cks) && i < |cks| && cks[i].end <= n && |cks[i].received| == 2 * x.c.f
    ensures CheckpointsOk(x, cks[i].end, n, cks[i := cks[i].(isStable := true)][i..])
  {
    var cks' := cks[i := cks[i].(isStable := true)][i..];
    MarkStableShape(h, n, cks, i);
    forall j | 0 <= j < |cks'| ensures CheckpointOk(x, n, cks'[j]) {
      if j == 0 {
        StableCheckpointOk(x, n, cks[i]);
      } else {
        assert cks'[j] == cks[i + j];
      }
    }
  }

  lemma MessagesConcat(x: Context, a: seq<(ThreePhaseMsg, Name)>, b: seq<(ThreePhaseMsg, Name)>)
    requires MessagesOk(x, a) && MessagesOk(x, b)
    ensures MessagesOk(x, a + b) && MessagesOk(x, [])
  {
  }

  lemma MarkStableIs(x: Context, k: Core, n: nat, i: nat)
    requires CheckpointsOk(x, k.h, n, k.checkpoints) && i < |k.checkpoints|
    ensures
      var till := k.checkpoints[i].end;
      var gone := Gc(k, till);
      k.h <= till &&
      MarkStable(k, till) ==
        k.(checkpoints := k.checkpoints[i := k.checkpoints[i].(isStable := true)][i..],
           h := till, replay := k.replay + k.outside, outside := [],
           sentPrePrepares := gone.sentPrePrepares, prePrepares := gone.prePrepares,
           prepares := gone.prepares, commits := gone.commits)
  {
    EndIndexIs(k.h, n, k.checkpoints, i);
  }

  lemma MarkStableOk(x: Context, k: Core, i: nat)
    requires CoreOk(x, k) && x.c.f > 0
    requires i < |k.checkpoints| && k.checkpoints[i].end <= |k.ordered| &&
             |k.checkpoints[i].received| == 2 * x.c.f
    ensures
      var k' := MarkStable(k, k.checkpoints[i].end);
      Keeps(x, k, k') && k'.ordered == k.ordered
  {
    hide ContextOk, OrderOk, HeldOk, PreparesOk, CommitsOk, StashOk, CheckpointsOk, StashedCheckpointsOk, MessagesOk,
         BoxOk, OrderedBoxOk, AnnouncedOk, MarkStable, Gc;
    var n := |k.ordered|;
    var till := k.checkpoints[i].end;
    MarkStableIs(x, k, n, i);
    MarkStableCheckpoints(x, k.h, n, k.checkpoints, i);
    GcHeld(x, k, till);
    GcVotes(x, k, till);
    MessagesConcat(x, k.replay, k.outside);
  }

  // ----- CHECKPOINT -----

  lemma ReceiveOk(x: Context, n: nat, ck: CheckpointState, w: Name, digest: Hash)
    requires CheckpointOk(x, n, ck) && !ck.isStable && ck.digest == Some(digest)
    requires SaysCheckpoint(x, ck.start, ck.end, digest, w)
    ensures CheckpointOk(x, n, ck.(received := ck.received[w := digest]))
  {
  }

  lemma ReplaceShape(h: nat, n: nat, cks: seq<CheckpointState>, i: nat, ck: CheckpointState)
    requires ShapeOk(h, n, cks) && i < |cks|
    requires ck.start == cks[i].start && ck.end == cks[i].end && ck.isStable == cks[i].isStable
    ensures ShapeOk(h, n, cks[i := ck])
  {
  }

  lemma ReplaceCheckpointOk(x: Context, h: nat, n: nat, cks: seq<CheckpointState>, i: nat, ck: CheckpointState)
    requires CheckpointsOk(x, h, n, cks) && i < |cks| && CheckpointOk(x, n, ck)
    requires ck.start == cks[i].start && ck.end == cks[i].end && ck.isStable == cks[i].isStable
    ensures CheckpointsOk(x, h, n, cks[i := ck])
  {
    ReplaceShape(h, n, cks, i, ck);
    var cks' := cks[i := ck];
    forall j | 0 <= j < |cks'| ensures CheckpointOk(x, n, cks'[j]) {
      assert j != i ==> cks'[j] == cks[j];
    }
  }

  lemma {:induction false} PutStashedOk(x: Context, start: nat, end: nat, stash: seq<(Name, Hash)>, w: Name,
                                        digest: Hash)
    requires StashedFromOk(x, start, end, stash) && SaysCheckpoint(x, start, end, digest, w)
    ensures StashedFromOk(x, start, end, PutStashed(stash, w, digest))
  {
    if stash != [] && stash[0].0 != w {
      PutStashedOk(x, start, end, stash[1..], w, digest);
    }
  }

  lemma StashedMapOk(x: Context, k: Core, start: nat, end: nat, digest: Hash, w: Name)
    requires StashedCheckpointsOk(x, k.stashedCheckpoints) && SaysCheckpoint(x, start, end, digest, w)
    ensures StashedCheckpointsOk(x, StashCheckpoint(k, start, end, digest, w).stashedCheckpoints)
  {
    PutStashedOk(x, start, end, StashedFor(k, start, end), w, digest);
  }

  lemma StashCheckpointOk(x: Context, k: Core, start: nat, end: nat, digest: Hash, w: Name)
    requires CoreOk(x, k) && SaysCheckpoint(x, start, end, digest, w)
    ensures
      var k' := StashCheckpoint(k, start, end, digest, w);
      Keeps(x, k, k') && k'.ordered == k.ordered
  {
    hide ContextOk, OrderOk, HeldOk, PreparesOk, CommitsOk, StashOk, CheckpointsOk, StashedCheckpointsOk, MessagesOk,
         BoxOk, OrderedBoxOk, AnnouncedOk, SaysCheckpoint;
    StashedMapOk(x, k, start, end, digest, w);
  }

  lemma MatchingListOk(x: Context, h: nat, n: nat, cks: seq<CheckpointState>, i: nat, digest: Hash, w: Name)
    requires CheckpointsOk(x, h, n, cks) && i < |cks| && cks[i].digest == Some(digest) && !cks[i].isStable
    requires SaysCheckpoint(x, cks[i].start, cks[i].end, digest, w)
    ensures
      var cks' := cks[i := cks[i].(received := cks[i].received[w := digest])];
      CheckpointsOk(x, h, n, cks') && cks'[i].end <= n && cks'[i].seqNo == cks'[i].end && |cks'[i].received| > 0
  {
    var ck := cks[i].(received := cks[i].received[w := digest]);
    ReceiveOk(x, n, cks[i], w, digest);
    ReplaceCheckpointOk(x, h, n, cks, i, ck);
    assert w in ck.received.Keys;
  }

  lemma StableIsBelow(x: Context, h: nat, n: nat, k: Core, i: nat)
    requires CheckpointsOk(x, h, n, k.checkpoints) && i < |k.checkpoints| && k.checkpoints[i].isStable
    ensures IsStable(k, k.checkpoints[i].end)
  {
    assert CheckpointOk(x, n, k.checkpoints[i]);
  }

  lemma CheckpointListOk(x: Context, k: Core, n: nat, n': nat, cks: seq<CheckpointState>)
    requires CoreOkAt(x, k, n) && n <= n' <= |k.ordered| && CheckpointsOk(x, k.h, n', cks)
    requires AnnouncedOk(x, n', k.outBox)
    ensures CoreOkAt(x, k.(checkpoints := cks), n')
  {
    hide ContextOk, OrderOk, HeldOk, PreparesOk, CommitsOk, StashOk, CheckpointsOk, StashedCheckpointsOk, MessagesOk,
         BoxOk, OrderedBoxOk, AnnouncedOk;
  }

  lemma MatchingCheckpointOk(x: Context, k: Core, i: nat, digest: Hash, w: Name)
    requires CoreOk(x, k) && i < |k.checkpoints| && k.checkpoints[i].digest == Some(digest)
    requires !k.checkpoints[i].isStable
    requires SaysCheckpoint(x, k.checkpoints[i].start, k.checkpoints[i].end, digest, w)
    ensures
      var ck := k.checkpoints[i].(received := k.checkpoints[i].received[w := digest]);
      var k' := CheckIfStable(x.c, k.(checkpoints := k.checkpoints[i := ck]), ck);
      Keeps(x, k, k') && k'.ordered == k.ordered
  {
    hide ContextOk, OrderOk, HeldOk, PreparesOk, CommitsOk, StashOk, CheckpointsOk, StashedCheckpointsOk, MessagesOk,
         BoxOk, OrderedBoxOk, AnnouncedOk, SaysCheckpoint, MarkStable;
    var ck := k.checkpoints[i].(received := k.checkpoints[i].received[w := digest]);
    var k1 := k.(checkpoints := k.checkpoints[i := ck]);
    MatchingListOk(x, k.h, |k.ordered|, k.checkpoints, i, digest, w);
    CheckpointListOk(x, k, |k.ordered|, |k.ordered|, k1.checkpoints);
    if |ck.received| == 2 * x.c.f {
      MarkStableOk(x, k1, i);
    }
  }

  lemma ProcessCheckpointOk(x: Context, k: Core, start: nat, end: nat, digest: Hash, w: Name)
    requires CoreOk(x, k) && SaysCheckpoint(x, start, end, digest, w)
    ensures
      var k' := ProcessCheckpoint(x.c, k, start, end, digest, w);
      Keeps(x, k, k') && k'.ordered == k.ordered
  {
    hide ContextOk, OrderOk, HeldOk, PreparesOk, CommitsOk, StashOk, CheckpointsOk, StashedCheckpointsOk, MessagesOk,
         BoxOk, OrderedBoxOk, AnnouncedOk, SaysCheckpoint, CheckIfStable, StashCheckpoint;
    var i := KeyIndex(k.checkpoints, start, end);
    if !IsStable(k, end) {
      if i < |k.checkpoints| && k.checkpoints[i].digest.Some? {
        if k.checkpoints[i].isStable {
          StableIsBelow(x, k.h, |k.ordered|, k, i);
        } else if k.checkpoints[i].digest.value == digest {
          MatchingCheckpointOk(x, k, i, digest, w);
        }
      } else {
        StashCheckpointOk(x, k, start, end, digest, w);
      }
    }
  }

  /** The last of 2f announcements with the right digest makes a closed checkpoint stable: the low water mark rises to
      its end, it becomes the first checkpoint, and no PRE-PREPARE or COMMIT at or below the mark is left. */
  lemma StableAtQuorum(x: Context, k: Core, i: nat, digest: Hash, w: Name)
    requires CoreOk(x, k) && i < |k.checkpoints| && !k.checkpoints[i].isStable
    requires k.checkpoints[i].digest == Some(digest) && w !in k.checkpoints[i].received
    requires |k.checkpoints[i].received| + 1 == 2 * x.c.f
    requires SaysCheckpoint(x, k.checkpoints[i].start, k.checkpoints[i].end, digest, w)
    ensures
      var end := k.checkpoints[i].end;
      var k' := ProcessCheckpoint(x.c, k, k.checkpoints[i].start, end, digest, w);
      && k.h < k'.h == end
      && k'.checkpoints != [] && k'.checkpoints[0].isStable && k'.checkpoints[0].end == end
      && (forall p: nat :: p <= end ==> p !in k'.sentPrePrepares && p !in k'.prePrepares && p !in k'.commits)
      && k'.replay == k.replay + k.outside
  {
    hide ContextOk, OrderOk, PreparesOk, StashOk, StashedCheckpointsOk, MessagesOk, BoxOk, OrderedBoxOk, AnnouncedOk,
         SaysCheckpoint, MarkStable, HeldOk, CommitsOk, CheckpointsOk, Gc, IsStable, KeyIndex;
    var ck := k.checkpoints[i];
    var ck' := ck.(received := ck.received[w := digest]);
    OneMoreAnnouncement(ck.received, w, digest);
    var k1 := k.(checkpoints := k.checkpoints[i := ck']);
    OpenAboveMark(x, k, i);
    MatchingCheckpointOk(x, k, i, digest, w);
    MatchingListOk(x, k.h, |k.ordered|, k.checkpoints, i, digest, w);
    MarkStableIs(x, k1, |k.ordered|, i);
    assert ProcessCheckpoint(x.c, k, ck.start, ck.end, digest, w) == MarkStable(k1, ck.end);
    NothingBelowMark(x, MarkStable(k1, ck.end));
  }

  lemma OneMoreAnnouncement(received: map<Name, Hash>, w: Name, digest: Hash)
    requires w !in received
    ensures |received[w := digest]| == |received| + 1
  {
    assert received[w := digest].Keys == received.Keys + {w};
    assert |received| == |received.Keys|;
  }

  lemma NothingBelowMark(x: Context, k: Core)
    requires CoreOk(x, k)
    ensures forall p: nat :: p <= k.h ==> p !in k.sentPrePrepares && p !in k.prePrepares && p !in k.commits
  {
    hide ContextOk, OrderOk, PreparesOk, StashOk, CheckpointsOk, StashedCheckpointsOk, MessagesOk, BoxOk,
         OrderedBoxOk, AnnouncedOk;
  }

  /** A checkpoint that is not stable lies above the low water mark; its position is found by its key. */
  lemma OpenAboveMark(x: Context, k: Core, i: nat)
    requires CoreOk(x, k) && i < |k.checkpoints| && !k.checkpoints[i].isStable && k.checkpoints[i].digest.Some?
    ensures KeyIndex(k.checkpoints, k.checkpoints[i].start, k.checkpoints[i].end) == i
    ensures !IsStable(k, k.checkpoints[i].end) && k.h < k.checkpoints[i].end == k.checkpoints[i].seqNo
  {
    hide ContextOk, OrderOk, HeldOk, PreparesOk, CommitsOk, StashOk, StashedCheckpointsOk, MessagesOk, BoxOk,
         OrderedBoxOk, AnnouncedOk;
    assert CheckpointOk(x, |k.ordered|, k.checkpoints[i]);
    assert CheckpointOk(x, |k.ordered|, k.checkpoints[0]);
  }

  lemma KeepsTransitive(x: Context, k0: Core, k1: Core, k2: Core)
    requires Extends(k0, k1) && Keeps(x, k1, k2)
    ensures Keeps(x, k0, k2)
  {
    hide CoreOk;
  }

  lemma {:induction false} ReplayCheckpointsOk(x: Context, k: Core, start: nat, end: nat, todo: seq<(Name, Hash)>)
    requires CoreOk(x, k) && StashedFromOk(x, start, end, todo)
    ensures
      var k' := ReplayCheckpoints(x.c, k, start, end, todo);
      Keeps(x, k, k') && k'.ordered == k.ordered
    decreases |todo|
  {
    hide CoreOk, SaysCheckpoint, ProcessCheckpoint;
    if todo != [] {
      assert todo[0] in todo;
      var k1 := ProcessCheckpoint(x.c, k, start, end, todo[0].1, todo[0].0);
      ProcessCheckpointOk(x, k, start, end, todo[0].1, todo[0].0);
      ReplayCheckpointsOk(x, k1, start, end, todo[1..]);
      KeepsTransitive(x, k, k1, ReplayCheckpoints(x.c, k1, start, end, todo[1..]));
    }
  }

  // ----- one more batch in the current checkpoint -----

  lemma DigestsStep(admitted: seq<PrePrepare>, start: nat, n: nat)
    requires 1 <= start <= n + 1 && n < |admitted|
    ensures Digests(admitted, start, n + 1) == Digests(admitted, start, n) + [admitted[n].cert.digest]
  {
  }

  lemma {:induction false} InsertLast(cks: seq<CheckpointState>, ck: CheckpointState)
    requires forall i :: 0 <= i < |cks| ==> cks[i].start <= ck.start
    ensures InsertCheckpoint(cks, ck) == cks + [ck]
  {
    if cks != [] {
      InsertLast(cks[1..], ck);
      assert cks == [cks[0]] + cks[1..];
    }
  }

  /** The checkpoint that takes batch `n + 1`, before it is closed. */
  ghost predicate Open(x: Context, n: nat, ck: CheckpointState) {
    1 <= ck.start <= n + 1 <= ck.end && n + 1 <= |x.admitted| && ck.end == ck.start + x.c.chkFreq - 1 &&
    IsStart(ck.start, x.c.chkFreq) && !ck.isStable && ck.received == map[] &&
    ck.digest == None && ck.digests == Digests(x.admitted, ck.start, n + 1) && ck.seqNo == n + 1
  }

  lemma FreshIsOpen(x: Context, h: nat, n: nat, cks: seq<CheckpointState>)
    requires CheckpointsOk(x, h, n, cks) && n < |x.admitted|
    requires cks != [] ==> cks[|cks| - 1].end == n
    ensures Open(x, n, NewCheckpoint(x.c, n + 1, x.admitted[n].cert.digest))
  {
    if cks != [] {
      var last := cks[|cks| - 1];
      assert CheckpointOk(x, n, last);
      assert n + 1 == last.start + x.c.chkFreq;
    }
    assert Digests(x.admitted, n + 1, n + 1) == [x.admitted[n].cert.digest];
  }

  lemma CoveredIsOpen(x: Context, n: nat, ck: CheckpointState)
    requires CheckpointOk(x, n, ck) && n < |x.admitted| && n < ck.end
    ensures Open(x, n, ck.(seqNo := n + 1, digests := ck.digests + [x.admitted[n].cert.digest]))
  {
    DigestsStep(x.admitted, ck.start, n);
  }

  lemma CoveredByLast(h: nat, n: nat, cks: seq<CheckpointState>)
    requires ShapeOk(h, n, cks)
    ensures
      var i := CoverIndex(cks, n + 1);
      (i < |cks| ==> i == |cks| - 1 && n < cks[i].end) &&
      (i == |cks| && cks != [] ==> cks[i - 1].end == n)
  {
  }

  lemma CoverOfLast(cks: seq<CheckpointState>, n: nat)
    requires cks != [] && cks[|cks| - 1].start <= n + 1 <= cks[|cks| - 1].end
    requires forall i :: 0 <= i < |cks| - 1 ==> cks[i].end <= n
    ensures CoverIndex(cks, n + 1) == |cks| - 1
  {
  }

  /** Batch `n + 1` lands in the last checkpoint, which is a new one when the previous one is full. */
  ghost predicate RecordedAs(x: Context, n: nat, cks: seq<CheckpointState>, cks': seq<CheckpointState>) {
    |cks| <= |cks'| <= |cks| + 1 && cks' != [] && Open(x, n, cks'[|cks'| - 1]) &&
    (forall i :: 0 <= i < |cks'| - 1 ==> cks'[i] == cks[i] && cks[i].end <= n) &&
    (|cks'| == |cks| ==> !cks[|cks| - 1].isStable && cks'[|cks| - 1].start == cks[|cks| - 1].start) &&
    (|cks'| > |cks| ==> cks'[|cks|].start == n + 1)
  }

  lemma RecordCovered(x: Context, h: nat, n: nat, cks: seq<CheckpointState>)
    requires CheckpointsOk(x, h, n, cks) && n < |x.admitted| && CoverIndex(cks, n + 1) < |cks|
    ensures RecordedAs(x, n, cks, RecordInCheckpoint(x.c, cks, n + 1, x.admitted[n].cert.digest))
  {
    hide CheckpointOk, Open;
    var i := CoverIndex(cks, n + 1);
    CoveredByLast(h, n, cks);
    assert CheckpointOk(x, n, cks[i]);
    CoveredIsOpen(x, n, cks[i]);
  }

  lemma AppendedIsRecorded(x: Context, h: nat, n: nat, cks: seq<CheckpointState>, ck: CheckpointState)
    requires ShapeOk(h, n, cks) && (cks != [] ==> cks[|cks| - 1].end == n)
    requires Open(x, n, ck) && ck.start == n + 1
    ensures RecordedAs(x, n, cks, cks + [ck]) && InsertCheckpoint(cks, ck) == cks + [ck]
  {
    InsertLast(cks, ck);
  }

  lemma RecordFresh(x: Context, h: nat, n: nat, cks: seq<CheckpointState>)
    requires CheckpointsOk(x, h, n, cks) && n < |x.admitted| && CoverIndex(cks, n + 1) == |cks|
    ensures RecordedAs(x, n, cks, RecordInCheckpoint(x.c, cks, n + 1, x.admitted[n].cert.digest))
  {
    hide Open, RecordedAs, CheckpointOk;
    CoveredByLast(h, n, cks);
    FreshIsOpen(x, h, n, cks);
    NewStarts(x.c, n + 1, x.admitted[n].cert.digest);
    AppendedIsRecorded(x, h, n, cks, NewCheckpoint(x.c, n + 1, x.admitted[n].cert.digest));
  }

  lemma NewStarts(c: Config, p: nat, digest: Hash)
    ensures NewCheckpoint(c, p, digest).start == p
  {
  }

  lemma RecordShape(x: Context, h: nat, n: nat, cks: seq<CheckpointState>)
    requires CheckpointsOk(x, h, n, cks) && n < |x.admitted|
    ensures
      var cks' := RecordInCheckpoint(x.c, cks, n + 1, x.admitted[n].cert.digest);
      RecordedAs(x, n, cks, cks') && CoverIndex(cks', n + 1) == |cks'| - 1
  {
    hide CheckpointsOk, RecordInCheckpoint, RecordedAs, CoverIndex;
    CoverBound(cks, n + 1);
    if CoverIndex(cks, n + 1) < |cks| {
      RecordCovered(x, h, n, cks);
    } else {
      RecordFresh(x, h, n, cks);
    }
    RecordedCovers(x, n, cks, RecordInCheckpoint(x.c, cks, n + 1, x.admitted[n].cert.digest));
  }

  lemma CoverBound(cks: seq<CheckpointState>, p: nat)
    ensures CoverIndex(cks, p) <= |cks|
  {
  }

  lemma RecordedCovers(x: Context, n: nat, cks: seq<CheckpointState>, cks': seq<CheckpointState>)
    requires RecordedAs(x, n, cks, cks')
    ensures cks' != [] && CoverIndex(cks', n + 1) == |cks'| - 1
  {
    hide CoverIndex;
    CoverOfLast(cks', n);
  }

  lemma LaterCheckpointOk(x: Context, n: nat, ck: CheckpointState)
    requires CheckpointOk(x, n, ck) && ck.end <= n < |x.admitted|
    ensures CheckpointOk(x, n + 1, ck)
  {
  }

  lemma OpenOk(x: Context, n: nat, ck: CheckpointState)
    requires Open(x, n, ck)
    ensures |ck.digests| < x.c.chkFreq ==> CheckpointOk(x, n + 1, ck)
    ensures |ck.digests| == x.c.chkFreq ==>
      ck.end == n + 1 && CheckpointOk(x, n + 1, ck.(digest := Some(x.c.hash(ck.digests)), digests := []))
    ensures |ck.digests| <= x.c.chkFreq
  {
  }

  /** With the last checkpoint settled, the list accounts for `n + 1` batches. */
  lemma RecordedOk(x: Context, h: nat, n: nat, cks: seq<CheckpointState>, last: CheckpointState)
    requires CheckpointsOk(x, h, n, cks) && n < |x.admitted|
    requires
      var cks' := RecordInCheckpoint(x.c, cks, n + 1, x.admitted[n].cert.digest);
      cks' != [] && last.start == cks'[|cks'| - 1].start
    requires last.end >= n + 1 && CheckpointOk(x, n + 1, last) && !last.isStable
    ensures
      var cks' := RecordInCheckpoint(x.c, cks, n + 1, x.admitted[n].cert.digest);
      CheckpointsOk(x, h, n + 1, cks'[|cks'| - 1 := last])
  {
    hide RecordInCheckpoint, CoverIndex, RecordedAs, CheckpointOk, ShapeOk;
    RecordShape(x, h, n, cks);
    var cks' := RecordInCheckpoint(x.c, cks, n + 1, x.admitted[n].cert.digest);
    var m := |cks'| - 1;
    RecordedLater(x, h, n, cks, cks', last);
    RecordedStarts(x, n, cks, cks', last);
    RecordedShape(h, n, cks, cks'[m := last], last);
  }

  lemma RecordedLater(x: Context, h: nat, n: nat, cks: seq<CheckpointState>, cks': seq<CheckpointState>,
                      last: CheckpointState)
    requires CheckpointsOk(x, h, n, cks) && n < |x.admitted| && RecordedAs(x, n, cks, cks')
    requires CheckpointOk(x, n + 1, last)
    ensures
      var res := cks'[|cks'| - 1 := last];
      forall i :: 0 <= i < |res| ==> CheckpointOk(x, n + 1, res[i])
  {
    hide CheckpointOk, Open;
    var res := cks'[|cks'| - 1 := last];
    forall i | 0 <= i < |res| ensures CheckpointOk(x, n + 1, res[i]) {
      if i < |cks'| - 1 {
        assert res[i] == cks[i];
        LaterCheckpointOk(x, n, cks[i]);
      }
    }
  }

  lemma RecordedStarts(x: Context, n: nat, cks: seq<CheckpointState>, cks': seq<CheckpointState>,
                       last: CheckpointState)
    requires RecordedAs(x, n, cks, cks') && last.start == cks'[|cks'| - 1].start
    ensures
      var res := cks'[|cks'| - 1 := last];
      && |cks| <= |res| <= |cks| + 1 && res[|res| - 1] == last
      && (forall i :: 0 <= i < |res| - 1 ==> res[i] == cks[i] && cks[i].end <= n)
      && 0 < last.start <= n + 1
      && (|res| == |cks| ==> !cks[|cks| - 1].isStable && last.start == cks[|cks| - 1].start)
      && (|res| > |cks| ==> last.start == n + 1)
  {
  }

  lemma RecordedShape(h: nat, n: nat, cks: seq<CheckpointState>, res: seq<CheckpointState>, last: CheckpointState)
    requires ShapeOk(h, n, cks) && |cks| <= |res| <= |cks| + 1 && |res| > 0 && res[|res| - 1] == last
    requires forall i :: 0 <= i < |res| - 1 ==> res[i] == cks[i] && cks[i].end <= n
    requires 0 < last.start <= n + 1 <= last.end && !last.isStable
    requires |res| == |cks| ==> !cks[|cks| - 1].isStable && last.start == cks[|cks| - 1].start
    requires |res| > |cks| ==> last.start == n + 1
    ensures ShapeOk(h, n + 1, res)
  {
  }

  lemma AnnouncementOk(x: Context, n: nat, box: seq<Out>, ck: CheckpointState)
    requires 1 <= ck.start <= ck.end <= n <= |x.admitted| && ck.digests == Digests(x.admitted, ck.start, ck.end)
    ensures MessageOk(x, n, box, OutCheckpoint(Checkpoint(x.c.viewNo, ck.start, ck.end, x.c.hash(ck.digests))))
  {
  }

  lemma StashedForOk(x: Context, k: Core, start: nat, end: nat)
    requires StashedCheckpointsOk(x, k.stashedCheckpoints)
    ensures StashedFromOk(x, start, end, StashedFor(k, start, end))
  {
  }

  /** Starts of checkpoints are a whole checkpoint apart. */
  lemma {:induction false} StartsApart(a: nat, b: nat, freq: Pos)
    requires IsStart(a, freq) && IsStart(b, freq) && a < b
    ensures a + freq <= b
    decreases b
  {
    if b - freq != a && a != 1 {
      if a < b - freq {
        StartsApart(a, b - freq, freq);
      } else {
        StartsApart(a - freq, b - freq, freq);
      }
    }
  }

  lemma NextStart(x: Context, n: nat, box: seq<Out>)
    requires AnnouncedOk(x, n, box)
    ensures IsStart(AnnouncedUpTo(CheckpointMsgs(box)) + 1, x.c.chkFreq)
  {
    var sent := CheckpointMsgs(box);
    if sent != [] {
      assert AnnouncementIs(x, n, sent[|sent| - 1]);
    }
  }

  /** The checkpoint that batch `n + 1` lands in is the first one not announced. */
  lemma OpenIsNext(x: Context, n: nat, box: seq<Out>, ck: CheckpointState)
    requires AnnouncedOk(x, n, box) && Open(x, n, ck)
    ensures ck.start == AnnouncedUpTo(CheckpointMsgs(box)) + 1
  {
    hide IsStart, AnnouncementIs;
    var next := AnnouncedUpTo(CheckpointMsgs(box)) + 1;
    NextStart(x, n, box);
    if next < ck.start {
      StartsApart(next, ck.start, x.c.chkFreq);
    } else if ck.start < next {
      StartsApart(ck.start, next, x.c.chkFreq);
    }
  }

  lemma AnnouncementStays(x: Context, n: nat, ck: Checkpoint)
    requires AnnouncementIs(x, n, ck) && n < |x.admitted|
    ensures AnnouncementIs(x, n + 1, ck)
  {
  }

  lemma NotYetAnnounced(x: Context, n: nat, box: seq<Out>, ck: CheckpointState)
    requires AnnouncedOk(x, n, box) && Open(x, n, ck) && n + 1 < ck.end
    ensures AnnouncedOk(x, n + 1, box)
  {
    hide IsStart, AnnouncementIs;
    OpenIsNext(x, n, box, ck);
    var sent := CheckpointMsgs(box);
    forall i | 0 <= i < |sent| ensures AnnouncementIs(x, n + 1, sent[i]) {
      AnnouncementStays(x, n, sent[i]);
    }
  }

  lemma NowAnnounced(x: Context, n: nat, box: seq<Out>, ck: CheckpointState)
    requires AnnouncedOk(x, n, box) && Open(x, n, ck) && n + 1 == ck.end
    ensures
      var m := OutCheckpoint(Checkpoint(x.c.viewNo, ck.start, ck.end, x.c.hash(ck.digests)));
      AnnouncedOk(x, n + 1, box + [m])
  {
    hide IsStart;
    OpenIsNext(x, n, box, ck);
    var m := OutCheckpoint(Checkpoint(x.c.viewNo, ck.start, ck.end, x.c.hash(ck.digests)));
    CheckpointMsgsOfAppend(box, m);
    var sent := CheckpointMsgs(box);
    var sent' := sent + [m.ck];
    forall i | 0 <= i < |sent'|
      ensures AnnouncementIs(x, n + 1, sent'[i]) && sent'[i].seqNoStart == AnnouncedUpTo(sent'[..i]) + 1
    {
      if i < |sent| {
        AnnouncementStays(x, n, sent[i]);
        assert sent'[..i] == sent[..i];
      } else {
        assert sent'[..i] == sent;
      }
    }
  }

  /** Closing a checkpoint and announcing it are one step. */
  lemma AnnounceOk(x: Context, k: Core, n: nat, cks: seq<CheckpointState>, m: Out)
    requires CoreOkAt(x, k, n) && n + 1 == |k.ordered| && CheckpointsOk(x, k.h, n + 1, cks) && m.OutCheckpoint?
    requires MessageOk(x, |k.ordered|, k.outBox + [m], m) && AnnouncedOk(x, n + 1, k.outBox + [m])
    ensures
      var k' := k.(checkpoints := cks, outBox := k.outBox + [m]);
      CoreOk(x, k') && Extends(k, k')
  {
    hide ContextOk, OrderOk, HeldOk, PreparesOk, CommitsOk, StashOk, CheckpointsOk, StashedCheckpointsOk,
         MessagesOk, BoxOk, OrderedBoxOk, AnnouncedOk, MessageOk;
    VotesBackedAfterSend(x, k, m);
    BoxGrows(x, |k.ordered|, |k.ordered|, k.outBox, m);
    OrderedBoxAfterSend(x, |k.ordered|, k.outBox, m);
  }

  lemma CloseCheckpointOk(x: Context, k: Core, cks: seq<CheckpointState>, i: nat)
    requires |k.ordered| > 0 && CoreOkAt(x, k, |k.ordered| - 1)
    requires i < |cks| && Open(x, |k.ordered| - 1, cks[i]) && cks[i].end == |k.ordered|
    requires CheckpointsOk(x, k.h, |k.ordered|,
                           cks[i := cks[i].(digest := Some(x.c.hash(cks[i].digests)), digests := [])])
    ensures
      var k' := CloseCheckpoint(x.c, k, cks, i);
      Keeps(x, k, k') && k'.ordered == k.ordered
  {
    hide ContextOk, OrderOk, HeldOk, PreparesOk, CommitsOk, StashOk, CheckpointsOk, StashedCheckpointsOk,
         MessagesOk, BoxOk, OrderedBoxOk, AnnouncedOk, MessageOk, StashedFromOk, ReplayCheckpoints, StashedFor,
         IsStart;
    var ck := cks[i];
    var d := x.c.hash(ck.digests);
    var m := OutCheckpoint(Checkpoint(x.c.viewNo, ck.start, ck.end, d));
    var closed := cks[i := ck.(digest := Some(d), digests := [])];
    var k2 := k.(checkpoints := closed, outBox := k.outBox + [m]);
    AnnouncementOk(x, |k.ordered|, k.outBox + [m], ck);
    NowAnnounced(x, |k.ordered| - 1, k.outBox, ck);
    AnnounceOk(x, k, |k.ordered| - 1, closed, m);
    StashedForOk(x, k2, ck.start, ck.end);
    ReplayCheckpointsOk(x, k2, ck.start, ck.end, StashedFor(k2, ck.start, ck.end));
    KeepsTransitive(x, k, k2, CloseCheckpoint(x.c, k, cks, i));
  }

  lemma AddToCheckpointOk(x: Context, k: Core, n: nat)
    requires CoreOkAt(x, k, n) && |k.ordered| == n + 1
    ensures
      var k' := AddToCheckpoint(x.c, k, n + 1, x.admitted[n].cert.digest);
      Keeps(x, k, k') && k'.ordered == k.ordered
  {
    hide ContextOk, OrderOk, HeldOk, PreparesOk, CommitsOk, StashOk, CheckpointsOk, StashedCheckpointsOk,
         MessagesOk, BoxOk, OrderedBoxOk, AnnouncedOk, CheckpointOk, RecordInCheckpoint, CloseCheckpoint, IsStart;
    var cks := RecordInCheckpoint(x.c, k.checkpoints, n + 1, x.admitted[n].cert.digest);
    RecordShape(x, k.h, n, k.checkpoints);
    var i := |cks| - 1;
    var ck := cks[i];
    OpenOk(x, n, ck);
    if |ck.digests| == x.c.chkFreq {
      RecordedOk(x, k.h, n, k.checkpoints, ck.(digest := Some(x.c.hash(ck.digests)), digests := []));
      CloseCheckpointOk(x, k, cks, i);
    } else {
      RecordedOk(x, k.h, n, k.checkpoints, ck);
      assert cks[i := ck] == cks;
      NotYetAnnounced(x, n, k.outBox, ck);
      CheckpointListOk(x, k, n, n + 1, cks);
    }
  }

  // ----- ordering -----

  lemma HeldIs(x: Context, k: Core, p: nat)
    requires HeldOk(x, k.h, k.sentPrePrepares, k.prePrepares)
    ensures GetPrePrepare(k, p).Some? <==> k.h < p <= |x.admitted|
    ensures k.h < p <= |x.admitted| ==>
      GetPrePrepare(k, p) == Some(x.admitted[p - 1]) && p in k.sentPrePrepares.Keys + k.prePrepares.Keys
  {
  }

  lemma CommitQuorumIs(x: Context, k: Core, p: nat)
    requires CommitsOk(x, k.h, k.outBox, k.commits) && HasVotes(k.commits, p, 2 * x.c.f + 1)
    ensures Committed(x, k.outBox, p) && k.h < p <= |x.admitted|
  {
    assert CommitQuorum(x, k.outBox, p, k.commits[p]);
  }

  lemma OrderedAre(ordered: seq<nat>, lastOrdered: nat, p: nat)
    requires OrderOk(ordered, lastOrdered)
    ensures p in ordered <==> 1 <= p <= |ordered|
    ensures ordered != [] ==> ordered[|ordered| - 1] == |ordered|
  {
    if 1 <= p <= |ordered| {
      assert ordered[p - 1] == p;
    }
  }

  /** A batch can be ordered exactly when it has a quorum of COMMITs and is right after the last ordered one,
      whatever garbage collection has removed. */
  lemma CanOrderOnlyNext(x: Context, k: Core, p: nat)
    requires CoreOk(x, k)
    ensures CanOrder(x.c, k, p) <==> HasVotes(k.commits, p, 2 * x.c.f + 1) && p == |k.ordered| + 1
    ensures CanOrder(x.c, k, p) ==> k.h < p <= |x.admitted|
  {
    hide ContextOk, OrderOk, HeldOk, PreparesOk, CommitsOk, StashOk, CheckpointsOk, StashedCheckpointsOk, MessagesOk,
         BoxOk, OrderedBoxOk, AnnouncedOk;
    if HasVotes(k.commits, p, 2 * x.c.f + 1) {
      CommitQuorumIs(x, k, p);
    }
    OrderedAre(k.ordered, k.lastOrdered, p);
    OrderedAre(k.ordered, k.lastOrdered, |k.ordered| + 1);
    HeldIs(x, k, |k.ordered| + 1);
    KeysAreNumbers(x, k);
  }

  lemma KeysAreNumbers(x: Context, k: Core)
    requires CoreOk(x, k)
    ensures forall q :: q in k.sentPrePrepares.Keys + k.prePrepares.Keys + k.prepares.Keys + k.commits.Keys ==> q >= 1
  {
    hide ContextOk, OrderOk, StashOk, CheckpointsOk, StashedCheckpointsOk, MessagesOk, BoxOk, OrderedBoxOk,
         AnnouncedOk;
  }

  lemma OrderedGrows(x: Context, k: Core, p: nat)
    requires OrderOk(k.ordered, k.lastOrdered) && StashOk(|k.ordered|, k.commits, k.stashedCommits)
    requires p == |k.ordered| + 1
    ensures OrderOk(k.ordered + [p], p) && StashOk(p, k.commits, k.stashedCommits)
  {
  }

  lemma OrderedMessageOk(x: Context, box: seq<Out>, p: nat)
    requires ContextOk(x) && 1 <= p <= |x.admitted| && Committed(x, box, p)
    ensures
      var m := OutOrdered(OrderedFor(x.admitted[p - 1]));
      MessageOk(x, p, box + [m], m) && x.admitted[p - 1].ppSeqNo == p
  {
    CommittedGrows(x, box, OutOrdered(OrderedFor(x.admitted[p - 1])), p);
    assert AdmittedOk(x, p - 1);
  }

  lemma OrderedStepOk(x: Context, k: Core, p: nat)
    requires CoreOk(x, k) && p == |k.ordered| + 1 <= |x.admitted| && Committed(x, k.outBox, p)
    ensures
      var m := OutOrdered(OrderedFor(x.admitted[p - 1]));
      CoreOkAt(x, k.(ordered := k.ordered + [p], lastOrdered := p, outBox := k.outBox + [m]), p - 1) &&
      x.admitted[p - 1].ppSeqNo == p
  {
    hide ContextOk, OrderOk, HeldOk, PreparesOk, CommitsOk, StashOk, CheckpointsOk, StashedCheckpointsOk, MessagesOk,
         BoxOk, OrderedBoxOk, AnnouncedOk, MessageOk, Committed;
    var m := OutOrdered(OrderedFor(x.admitted[p - 1]));
    OrderedMessageOk(x, k.outBox, p);
    BoxGrows(x, p - 1, p, k.outBox, m);
    OrderedBoxAfterSend(x, p - 1, k.outBox, m);
    AnnouncedAfterSend(x, p - 1, k.outBox, m);
    VotesBackedAfterSend(x, k, m);
    OrderedGrows(x, k, p);
  }

  lemma DoOrderOk(x: Context, k: Core, p: nat)
    requires CoreOk(x, k) && CanOrder(x.c, k, p)
    ensures
      var k' := DoOrder(x.c, k, p);
      Keeps(x, k, k') && k'.ordered == k.ordered + [p]
  {
    hide CoreOkAt, AddToCheckpoint, AllPrevOrdered, Committed;
    CanOrderOnlyNext(x, k, p);
    BeforeOrdering(x, k, p);
    OrderedStepOk(x, k, p);
    var m := OutOrdered(OrderedFor(x.admitted[p - 1]));
    var k1 := k.(ordered := k.ordered + [p], lastOrdered := p, outBox := k.outBox + [m]);
    AddToCheckpointOk(x, k1, p - 1);
    KeepsTransitive(x, k, k1, AddToCheckpoint(x.c, k1, p, x.admitted[p - 1].cert.digest));
  }

  lemma BeforeOrdering(x: Context, k: Core, p: nat)
    requires CoreOk(x, k) && HasVotes(k.commits, p, 2 * x.c.f + 1)
    ensures k.h < p <= |x.admitted| && GetPrePrepare(k, p) == Some(x.admitted[p - 1])
    ensures Committed(x, k.outBox, p) && k.lastOrdered == |k.ordered|
  {
    CommitQuorumIs(x, k, p);
    HeldIs(x, k, p);
  }

  lemma StashCommitOk(x: Context, k: Core, p: nat)
    requires CoreOk(x, k) && p in k.commits
    ensures Keeps(x, k, k.(stashedCommits := k.stashedCommits + [p]))
  {
    hide ContextOk, OrderOk, HeldOk, PreparesOk, CommitsOk, CheckpointsOk, StashedCheckpointsOk, MessagesOk, BoxOk,
         OrderedBoxOk, AnnouncedOk;
  }

  lemma TryOrderOk(x: Context, k: Core, p: nat)
    requires CoreOk(x, k)
    ensures
      var k' := TryOrder(x.c, k, p);
      && Keeps(x, k, k')
      && k'.ordered
         == if HasVotes(k.commits, p, 2 * x.c.f + 1) && p == |k.ordered| + 1 then k.ordered + [p] else k.ordered
  {
    hide CoreOkAt, DoOrder, AllPrevOrdered;
    CanOrderOnlyNext(x, k, p);
    if CanOrder(x.c, k, p) {
      DoOrderOk(x, k, p);
    } else if HasVotes(k.commits, p, 2 * x.c.f + 1) {
      StashCommitOk(x, k, p);
    }
  }

  lemma StashStaysOk(x: Context, k: Core, k': Core, stash: seq<nat>)
    requires CoreOk(x, k') && Extends(k, k') && StashOk(|k.ordered|, k.commits, stash)
    ensures StashOk(|k'.ordered|, k'.commits, stash)
  {
    hide ContextOk, OrderOk, HeldOk, PreparesOk, CommitsOk, CheckpointsOk, StashedCheckpointsOk, MessagesOk, BoxOk,
         OrderedBoxOk, AnnouncedOk;
  }

  lemma {:induction false} OrderStashedOk(x: Context, k: Core, todo: seq<nat>, last: nat, kept: seq<nat>)
    requires CoreOk(x, k)
    requires StashOk(|k.ordered|, k.commits, todo) && StashOk(|k.ordered|, k.commits, kept)
    ensures Keeps(x, k, OrderStashed(x.c, k, todo, last, kept))
    decreases |todo|
  {
    hide CoreOkAt, TryOrder, CanOrder;
    if todo == [] {
      NewStashOk(x, k, kept);
    } else {
      var p := todo[0];
      if p in k.ordered {
        OrderStashedOk(x, k, todo[1..], last, kept);
      } else {
        var k1 := if last + 1 == p then TryOrder(x.c, k, p) else k;
        TryOrderOk(x, k, p);
        StashStaysOk(x, k, k1, todo + kept);
        if last + 1 == p && CanOrder(x.c, k, p) {
          OrderStashedOk(x, k1, todo[1..], p, kept);
          KeepsTransitive(x, k, k1, OrderStashed(x.c, k1, todo[1..], p, kept));
        } else {
          OrderStashedOk(x, k1, todo[1..], last, kept + [p]);
          KeepsTransitive(x, k, k1, OrderStashed(x.c, k1, todo[1..], last, kept + [p]));
        }
      }
    }
  }

  lemma NewStashOk(x: Context, k: Core, stash: seq<nat>)
    requires CoreOk(x, k) && StashOk(|k.ordered|, k.commits, stash)
    ensures Keeps(x, k, k.(stashedCommits := stash))
  {
    hide ContextOk, OrderOk, HeldOk, PreparesOk, CommitsOk, StashOk, CheckpointsOk, StashedCheckpointsOk, MessagesOk,
         BoxOk, OrderedBoxOk, AnnouncedOk;
  }

  /** The periodic pass over out-of-order COMMITs. */
  lemma ProcessStashedCommitsOk(x: Context, k: Core)
    requires CoreOk(x, k)
    ensures Keeps(x, k, ProcessStashedCommits(x.c, k))
  {
    hide OrderStashed;
    if k.ordered != [] {
      OrderStashedOk(x, k, k.stashedCommits, k.ordered[|k.ordered| - 1], []);
    }
  }

  // ----- votes -----

  lemma CommitVoteOk(x: Context, h: nat, box: seq<Out>, commits: map<nat, set<Name>>, p: nat, w: Name)
    requires CommitsOk(x, h, box, commits) && h < p <= |x.admitted| && w in x.net.nodes && BacksCommit(x, box, p, w)
    ensures CommitsOk(x, h, box, AddVote(commits, p, w))
  {
  }

  lemma PrepareVoteOk(x: Context, h: nat, box: seq<Out>, prepares: map<nat, set<Name>>, p: nat, w: Name)
    requires PreparesOk(x, h, box, prepares) && w in x.net.nodes - {x.c.primary} && BacksPrepare(x, box, p, w)
    requires p <= h ==> w == x.c.self
    ensures PreparesOk(x, h, box, AddVote(prepares, p, w))
  {
  }

  lemma StashAfterVote(n: nat, commits: map<nat, set<Name>>, stash: seq<nat>, p: nat, w: Name)
    requires StashOk(n, commits, stash)
    ensures StashOk(n, AddVote(commits, p, w), stash)
  {
  }

  lemma AddToCommitsOk(x: Context, k: Core, p: nat, w: Name)
    requires CoreOk(x, k) && k.h < p <= |x.admitted| && w in x.net.nodes && BacksCommit(x, k.outBox, p, w)
    ensures Keeps(x, k, AddToCommits(x.c, k, p, w))
  {
    hide ContextOk, OrderOk, HeldOk, PreparesOk, CommitsOk, StashOk, CheckpointsOk, StashedCheckpointsOk, MessagesOk,
         BoxOk, OrderedBoxOk, AnnouncedOk, TryOrder, BacksCommit;
    CommitVoteOk(x, k.h, k.outBox, k.commits, p, w);
    StashAfterVote(|k.ordered|, k.commits, k.stashedCommits, p, w);
    var k1 := k.(commits := AddVote(k.commits, p, w));
    TryOrderOk(x, k1, p);
    KeepsTransitive(x, k, k1, TryOrder(x.c, k1, p));
  }

  /** A replica has 2f PREPAREs only for a batch above its low water mark. */
  lemma PrepareQuorumIs(x: Context, k: Core, p: nat)
    requires PreparesOk(x, k.h, k.outBox, k.prepares) && HasVotes(k.prepares, p, 2 * x.c.f)
    requires k.h > 0 ==> x.c.f > 0
    ensures Prepared(x, k.outBox, p) && k.h < p <= |x.admitted|
  {
    assert PrepareQuorum(x, k.outBox, p, k.prepares[p]);
    if p <= k.h {
      assert |{x.c.self}| == 1;
      Quorums.Subset(k.prepares[p], {x.c.self});
    }
  }

  lemma CommitMessageOk(x: Context, n: nat, box: seq<Out>, p: nat)
    requires 1 <= p <= |x.admitted| && Prepared(x, box, p)
    ensures
      var m := OutThreePhase(CommitMsg(Commit(x.c.viewNo, p)));
      MessageOk(x, n, box + [m], m) && BacksCommit(x, box + [m], p, x.c.self)
  {
    PreparedGrows(x, box, OutThreePhase(CommitMsg(Commit(x.c.viewNo, p))), p);
  }

  lemma TryCommitOk(x: Context, k: Core, p: nat)
    requires CoreOk(x, k)
    ensures Keeps(x, k, TryCommit(x.c, k, p))
  {
    hide HeldOk, PreparesOk, CommitsOk, StashOk, CheckpointsOk, StashedCheckpointsOk, MessagesOk, BoxOk, OrderedBoxOk,
         AnnouncedOk, OrderOk, MessageOk, AddToCommits, BacksCommit, Prepared;
    if HasVotes(k.prepares, p, 2 * x.c.f) {
      var m := OutThreePhase(CommitMsg(Commit(x.c.viewNo, p)));
      PrepareQuorumIs(x, k, p);
      CommitMessageOk(x, |k.ordered|, k.outBox, p);
      SendOk(x, k, |k.ordered|, m);
      var k1 := k.(outBox := k.outBox + [m]);
      AddToCommitsOk(x, k1, p, x.c.self);
      KeepsTransitive(x, k, k1, AddToCommits(x.c, k1, p, x.c.self));
    }
  }

  lemma AddToPreparesOk(x: Context, k: Core, p: nat, w: Name)
    requires CoreOk(x, k) && w in x.net.nodes - {x.c.primary} && BacksPrepare(x, k.outBox, p, w)
    requires p <= k.h ==> w == x.c.self
    ensures Keeps(x, k, AddToPrepares(x.c, k, p, w))
  {
    hide ContextOk, OrderOk, HeldOk, PreparesOk, CommitsOk, StashOk, CheckpointsOk, StashedCheckpointsOk, MessagesOk,
         BoxOk, OrderedBoxOk, AnnouncedOk, TryCommit, BacksPrepare;
    PrepareVoteOk(x, k.h, k.outBox, k.prepares, p, w);
    var k1 := k.(prepares := AddVote(k.prepares, p, w));
    TryCommitOk(x, k1, p);
    KeepsTransitive(x, k, k1, TryCommit(x.c, k1, p));
  }

  lemma PrepareMessageOk(x: Context, n: nat, box: seq<Out>, p: nat)
    requires ContextOk(x) && 1 <= p <= |x.admitted| && !x.c.IsPrimary()
    ensures
      var m := OutThreePhase(PrepareMsg(PrepareFor(x.admitted[p - 1])));
      MessageOk(x, n, box + [m], m) && BacksPrepare(x, box + [m], p, x.c.self) &&
      x.admitted[p - 1].ppSeqNo == p && x.c.self in x.net.nodes - {x.c.primary}
  {
    assert AdmittedOk(x, p - 1);
  }

  lemma TryPrepareOk(x: Context, k: Core, p: nat)
    requires CoreOk(x, k) && 1 <= p <= |x.admitted| && !x.c.IsPrimary()
    ensures Keeps(x, k, TryPrepare(x.c, k, x.admitted[p - 1]))
  {
    hide ContextOk, OrderOk, HeldOk, PreparesOk, CommitsOk, StashOk, CheckpointsOk, StashedCheckpointsOk, MessagesOk,
         BoxOk, OrderedBoxOk, AnnouncedOk, MessageOk, AddToPrepares, BacksPrepare;
    PrepareMessageOk(x, |k.ordered|, k.outBox, p);
    if x.c.self !in Voters(k.prepares, p) {
      var m := OutThreePhase(PrepareMsg(PrepareFor(x.admitted[p - 1])));
      SendOk(x, k, |k.ordered|, m);
      var k1 := k.(outBox := k.outBox + [m]);
      AddToPreparesOk(x, k1, p, x.c.self);
      KeepsTransitive(x, k, k1, AddToPrepares(x.c, k1, p, x.c.self));
    }
  }
}
