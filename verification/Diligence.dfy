/** A replica does what it owes: it counts the votes that come, sends COMMIT at 2f PREPAREs, orders at 2f + 1 COMMITs,
    and keeps what it cannot take yet.

    The invariant of ReplicaInvariant.dfy says that nothing is done without reason; here it is the other way round. */
module Diligence {
  import opened Messages
  import opened ReplicaSpec
  import opened ReplicaInvariant
  import opened ReplicaCoreProof
  import opened ReplicaProof

  // ----- what has been sent, by kind -----

  /** The PRE-PREPAREs and PREPAREs among the messages sent, in order. */
  function OwnMsgs(box: seq<Out>): seq<ThreePhaseMsg> {
    if box == [] then []
    else
      var last := box[|box| - 1];
      OwnMsgs(box[..|box| - 1]) + (if last.OutThreePhase? && !last.msg.CommitMsg? then [last.msg] else [])
  }

  /** The numbers of the COMMITs sent, in order. */
  function CommitNos(box: seq<Out>): seq<nat> {
    if box == [] then []
    else
      var last := box[|box| - 1];
      CommitNos(box[..|box| - 1]) +
      (if last.OutThreePhase? && last.msg.CommitMsg? then [last.msg.commit.ppSeqNo] else [])
  }

  lemma SentOneMore(box: seq<Out>, m: Out)
    ensures OwnMsgs(box + [m])
         == OwnMsgs(box) + (if m.OutThreePhase? && !m.msg.CommitMsg? then [m.msg] else [])
    ensures CommitNos(box + [m])
         == CommitNos(box) + (if m.OutThreePhase? && m.msg.CommitMsg? then [m.msg.commit.ppSeqNo] else [])
  {
    assert (box + [m])[..|box|] == box;
  }

  lemma {:induction false} CommitNosAre(box: seq<Out>, viewNo: nat, p: nat)
    requires forall m :: m in box && m.OutThreePhase? && m.msg.CommitMsg? ==> m.msg.commit.viewNo == viewNo
    ensures p in CommitNos(box) <==> OutThreePhase(CommitMsg(Commit(viewNo, p))) in box
  {
    if box != [] {
      var n := |box| - 1;
      assert box == box[..n] + [box[n]];
      CommitNosAre(box[..n], viewNo, p);
    }
  }

  lemma {:induction false} OwnMsgsAre(box: seq<Out>, m: ThreePhaseMsg)
    requires !m.CommitMsg?
    ensures m in OwnMsgs(box) <==> OutThreePhase(m) in box
  {
    if box != [] {
      var n := |box| - 1;
      assert box == box[..n] + [box[n]];
      OwnMsgsAre(box[..n], m);
    }
  }

  /** The messages that wait for the water marks to move, oldest first. */
  function Backlog(k: Core): seq<(ThreePhaseMsg, Name)> { k.replay + k.outside }

  // ----- what ordering leaves alone -----

  ghost predicate SameAt<V>(a: map<nat, V>, b: map<nat, V>, p: nat) {
    (p in a <==> p in b) && (p in a ==> a[p] == b[p])
  }

  ghost predicate Cleared(k: Core, p: nat) {
    p !in k.sentPrePrepares && p !in k.prePrepares && p !in k.prepares && p !in k.commits
  }

  /** What is recorded for a number is as before, or all of it is gone. */
  ghost predicate KeptAt(k: Core, k': Core, p: nat) {
    || Cleared(k', p)
    || (SameAt(k.sentPrePrepares, k'.sentPrePrepares, p) && SameAt(k.prePrepares, k'.prePrepares, p)
        && SameAt(k.prepares, k'.prepares, p) && SameAt(k.commits, k'.commits, p))
  }

  /** Nothing is sent in the vote phases, nothing is taken from the backlog, and votes go only with their batch. */
  ghost predicate Still(k: Core, k': Core) {
    && OwnMsgs(k'.outBox) == OwnMsgs(k.outBox) && CommitNos(k'.outBox) == CommitNos(k.outBox)
    && Backlog(k') == Backlog(k) && k'.stashedCommits == k.stashedCommits
    && forall p: nat :: KeptAt(k, k', p)
  }

  lemma StillTrans(k0: Core, k1: Core, k2: Core)
    requires Still(k0, k1) && Still(k1, k2)
    ensures Still(k0, k2)
  {
    hide Backlog, OwnMsgs, CommitNos;
    forall p: nat ensures KeptAt(k0, k2, p) {
      assert KeptAt(k0, k1, p) && KeptAt(k1, k2, p);
    }
  }

  lemma GcKeeps(k: Core, till: nat, p: nat)
    ensures KeptAt(k, Gc(k, till), p)
  {
  }

  lemma GcStill(k: Core, till: nat)
    ensures Still(k, Gc(k, till))
  {
    hide KeptAt, OwnMsgs, CommitNos;
    forall p: nat ensures KeptAt(k, Gc(k, till), p) {
      GcKeeps(k, till, p);
    }
  }

  /** Cores that differ in nothing that `Still` looks at. */
  lemma SameIsStill(k: Core, k': Core)
    requires k' == k.(checkpoints := k'.checkpoints, h := k'.h, replay := k'.replay, outside := k'.outside,
                      stashedCheckpoints := k'.stashedCheckpoints, ordered := k'.ordered,
                      lastOrdered := k'.lastOrdered)
    requires k'.replay + k'.outside == k.replay + k.outside
    ensures Still(k, k')
  {
    hide OwnMsgs, CommitNos;
  }

  lemma MarkStableStill(k: Core, seqNo: nat)
    ensures Still(k, MarkStable(k, seqNo))
  {
    hide Gc, Still;
    var i := EndIndex(k.checkpoints, seqNo);
    SameIsStill(k, k);
    if i < |k.checkpoints| {
      var k1 := k.(checkpoints := k.checkpoints[i := k.checkpoints[i].(isStable := true)][i..], h := seqNo,
                   replay := k.replay + k.outside, outside := []);
      SameIsStill(k, k1);
      GcStill(k1, seqNo);
      StillTrans(k, k1, Gc(k1, seqNo));
    }
  }

  lemma CheckpointStill(c: Config, k: Core, start: nat, end: nat, digest: Hash, w: Name)
    ensures Still(k, ProcessCheckpoint(c, k, start, end, digest, w))
  {
    hide MarkStable, IsStable, Still, PutStashed;
    var i := KeyIndex(k.checkpoints, start, end);
    SameIsStill(k, k);
    SameIsStill(k, StashCheckpoint(k, start, end, digest, w));
    if i < |k.checkpoints| {
      var ck' := k.checkpoints[i].(received := k.checkpoints[i].received[w := digest]);
      var k1 := k.(checkpoints := k.checkpoints[i := ck']);
      SameIsStill(k, k1);
      MarkStableStill(k1, ck'.seqNo);
      StillTrans(k, k1, MarkStable(k1, ck'.seqNo));
    }
  }

  lemma {:induction false} ReplayStill(c: Config, k: Core, start: nat, end: nat, todo: seq<(Name, Hash)>)
    ensures Still(k, ReplayCheckpoints(c, k, start, end, todo))
    decreases |todo|
  {
    hide ProcessCheckpoint, Still;
    if todo == [] {
      SameIsStill(k, k);
    } else {
      var k1 := ProcessCheckpoint(c, k, start, end, todo[0].1, todo[0].0);
      CheckpointStill(c, k, start, end, todo[0].1, todo[0].0);
      ReplayStill(c, k1, start, end, todo[1..]);
      StillTrans(k, k1, ReplayCheckpoints(c, k1, start, end, todo[1..]));
    }
  }

  /** Sending something that is not of the vote phases. */
  lemma SendStill(k: Core, m: Out)
    requires !m.OutThreePhase?
    ensures Still(k, k.(outBox := k.outBox + [m]))
  {
    hide OwnMsgs, CommitNos;
    SentOneMore(k.outBox, m);
  }

  lemma AddToCheckpointStill(c: Config, k: Core, p: nat, digest: Hash)
    ensures Still(k, AddToCheckpoint(c, k, p, digest))
  {
    hide ReplayCheckpoints, RecordInCheckpoint, Still, StashedFor;
    var cks := RecordInCheckpoint(c, k.checkpoints, p, digest);
    var i := CoverIndex(cks, p);
    if i < |cks| && |cks[i].digests| == c.chkFreq {
      var ck := cks[i];
      var d := c.hash(ck.digests);
      var k1 := k.(checkpoints := cks[i := ck.(digest := Some(d), digests := [])]);
      var m := OutCheckpoint(Checkpoint(c.viewNo, ck.start, ck.end, d));
      var k2 := k1.(outBox := k.outBox + [m]);
      SameIsStill(k, k1);
      SendStill(k1, m);
      StillTrans(k, k1, k2);
      ReplayStill(c, k2, ck.start, ck.end, StashedFor(k2, ck.start, ck.end));
      StillTrans(k, k2, AddToCheckpoint(c, k, p, digest));
    } else {
      SameIsStill(k, k.(checkpoints := cks));
    }
  }

  lemma DoOrderStill(c: Config, k: Core, p: nat)
    requires GetPrePrepare(k, p).Some?
    ensures Still(k, DoOrder(c, k, p))
  {
    hide AddToCheckpoint, Still;
    var pp := GetPrePrepare(k, p).value;
    var k1 := k.(ordered := if p in k.ordered then k.ordered else k.ordered + [p],
                 lastOrdered := if p > k.lastOrdered then p else k.lastOrdered);
    var m := OutOrdered(OrderedFor(pp));
    var k2 := k1.(outBox := k.outBox + [m]);
    SameIsStill(k, k1);
    SendStill(k1, m);
    StillTrans(k, k1, k2);
    AddToCheckpointStill(c, k2, pp.ppSeqNo, pp.cert.digest);
    StillTrans(k, k2, AddToCheckpoint(c, k2, pp.ppSeqNo, pp.cert.digest));
  }

  // ----- nothing is left undone -----

  predicate CommitDue(c: Config, k: Core, p: nat) { HasVotes(k.prepares, p, 2 * c.f) }

  predicate OrderDue(c: Config, k: Core, p: nat) { HasVotes(k.commits, p, 2 * c.f + 1) && p > |k.ordered| }

  /** With 2f PREPAREs the replica's own COMMIT is counted. */
  ghost predicate CommitsDone(c: Config, k: Core, p: nat) { CommitDue(c, k, p) ==> c.self in Voters(k.commits, p) }

  /** With 2f + 1 COMMITs the number is ordered or stashed, and number 1 is not stashed. */
  ghost predicate OrdersDone(c: Config, k: Core, p: nat) { OrderDue(c, k, p) ==> p in k.stashedCommits && p > 1 }

  /** The COMMITs sent are for different numbers, and those for batches that are held are counted. */
  ghost predicate CommitsOnce(c: Config, k: Core) {
    var nos := CommitNos(k.outBox);
    && (forall i, j :: 0 <= i < j < |nos| ==> nos[i] != nos[j])
    && forall p :: p in nos && GetPrePrepare(k, p).Some? ==> c.self in Voters(k.commits, p)
  }

  ghost predicate Eager(c: Config, k: Core) {
    && (forall p: nat :: CommitsDone(c, k, p))
    && (forall p: nat :: OrdersDone(c, k, p))
    && CommitsOnce(c, k)
  }

  lemma StillCommits(c: Config, k: Core, k': Core)
    requires Still(k, k') && CommitsOnce(c, k)
    ensures CommitsOnce(c, k')
    ensures forall p: nat :: CommitsDone(c, k, p) ==> CommitsDone(c, k', p)
  {
    hide OwnMsgs, CommitNos, Backlog;
    forall p: nat ensures CommitsDone(c, k, p) ==> CommitsDone(c, k', p) {
      assert KeptAt(k, k', p);
    }
    forall p | p in CommitNos(k'.outBox) && GetPrePrepare(k', p).Some? ensures c.self in Voters(k'.commits, p) {
      assert KeptAt(k, k', p);
    }
  }

  lemma StillOrders(c: Config, k: Core, k': Core, p: nat)
    requires Still(k, k') && OrdersDone(c, k, p) && |k.ordered| <= |k'.ordered|
    ensures OrdersDone(c, k', p)
  {
    hide OwnMsgs, CommitNos, Backlog;
    assert KeptAt(k, k', p);
  }

  lemma StillEager(c: Config, k: Core, k': Core)
    requires Still(k, k') && Eager(c, k) && |k.ordered| <= |k'.ordered|
    ensures Eager(c, k')
  {
    hide Still, CommitsOnce, OrdersDone, CommitsDone;
    StillCommits(c, k, k');
    forall p: nat ensures OrdersDone(c, k', p) {
      StillOrders(c, k, k', p);
    }
  }

  /** All but the ordering of one number is done. */
  ghost predicate EagerButOrder(c: Config, k: Core, p: nat) {
    && (forall q: nat :: CommitsDone(c, k, q))
    && (forall q: nat :: q != p ==> OrdersDone(c, k, q))
    && CommitsOnce(c, k)
  }

  /** Nothing of the vote phases is sent except perhaps a COMMIT, and the backlog stays. */
  ghost predicate Quiet(k: Core, k': Core) {
    OwnMsgs(k'.outBox) == OwnMsgs(k.outBox) && Backlog(k') == Backlog(k)
  }

  lemma StillIsQuiet(k: Core, k': Core)
    requires Still(k, k')
    ensures Quiet(k, k')
  {
  }

  /** After a vote for a number it is ordered or stashed when it should be. */
  lemma TryOrderEager(x: Context, k: Core, p: nat)
    requires CoreOk(x, k) && EagerButOrder(x.c, k, p)
    ensures
      var k' := TryOrder(x.c, k, p);
      && Eager(x.c, k') && Quiet(k, k') && Kept(k, k')
      && (p in k.stashedCommits ==> k'.stashedCommits == k.stashedCommits)
  {
    hide CoreOkAt, DoOrder, AllPrevOrdered, Still, Quiet, CommitsOnce, CommitsDone, OrdersDone, Kept;
    CanOrderOnlyNext(x, k, p);
    TryOrderOk(x, k, p);
    var k' := TryOrder(x.c, k, p);
    OrderedNumbers(x, k, p);
    if CanOrder(x.c, k, p) {
      BeforeOrdering(x, k, p);
      DoOrderStill(x.c, k, p);
      StillIsQuiet(k, k');
      StillCommits(x.c, k, k');
      StillKeeps(k, k');
      forall q: nat ensures OrdersDone(x.c, k', q) {
        if q == p {
          OrderedIsDone(x.c, k', p);
        } else {
          StillOrders(x.c, k, k', q);
        }
      }
    } else {
      Stashed(x.c, k, k', p);
    }
  }

  ghost predicate Kept(k: Core, k': Core) { forall p: nat :: KeptAt(k, k', p) }

  lemma StillKeeps(k: Core, k': Core)
    requires Still(k, k')
    ensures Kept(k, k') && k'.stashedCommits == k.stashedCommits
  {
  }

  lemma OrderedNumbers(x: Context, k: Core, p: nat)
    requires CoreOk(x, k)
    ensures p in k.ordered <==> 1 <= p <= |k.ordered|
    ensures p in k.commits ==> p >= 1
  {
    hide ContextOk, HeldOk, PreparesOk, StashOk, CheckpointsOk, StashedCheckpointsOk, MessagesOk, BoxOk,
         OrderedBoxOk, AnnouncedOk;
    OrderedAre(k.ordered, k.lastOrdered, p);
  }

  lemma OrderedIsDone(c: Config, k: Core, p: nat)
    requires p <= |k.ordered|
    ensures OrdersDone(c, k, p)
  {
  }

  lemma Stashed(c: Config, k: Core, k': Core, p: nat)
    requires EagerButOrder(c, k, p)
    requires p in k.ordered <==> 1 <= p <= |k.ordered|
    requires p in k.commits ==> p >= 1
    requires !(HasVotes(k.commits, p, 2 * c.f + 1) && p == |k.ordered| + 1)
    requires
      k' == if HasVotes(k.commits, p, 2 * c.f + 1) && p !in k.ordered && p !in k.stashedCommits
            then k.(stashedCommits := k.stashedCommits + [p]) else k
    ensures Eager(c, k') && Quiet(k, k') && Kept(k, k')
  {
    hide OwnMsgs, CommitNos;
    forall q: nat ensures OrdersDone(c, k', q) && CommitsDone(c, k', q) {
      assert CommitsDone(c, k, q);
      assert q != p ==> OrdersDone(c, k, q);
    }
  }

  lemma VoteIsEager(c: Config, k: Core, p: nat, w: Name)
    requires Eager(c, k)
    ensures EagerButOrder(c, k.(commits := AddVote(k.commits, p, w)), p)
  {
    hide OwnMsgs, CommitNos;
    var k1 := k.(commits := AddVote(k.commits, p, w));
    forall q: nat ensures CommitsDone(c, k1, q) && (q != p ==> OrdersDone(c, k1, q)) {
      assert CommitsDone(c, k, q) && OrdersDone(c, k, q);
    }
  }

  lemma AddToCommitsEager(x: Context, k: Core, p: nat, w: Name)
    requires CoreOk(x, k) && k.h < p <= |x.admitted| && w in x.net.nodes && BacksCommit(x, k.outBox, p, w)
    requires Eager(x.c, k)
    ensures
      var k' := AddToCommits(x.c, k, p, w);
      Eager(x.c, k') && Quiet(k, k') && Kept(k.(commits := AddVote(k.commits, p, w)), k')
  {
    hide ContextOk, OrderOk, HeldOk, PreparesOk, CommitsOk, StashOk, CheckpointsOk, StashedCheckpointsOk,
         MessagesOk, BoxOk, OrderedBoxOk, AnnouncedOk, TryOrder, BacksCommit, Eager, EagerButOrder, Kept, OwnMsgs;
    CommitVoteOk(x, k.h, k.outBox, k.commits, p, w);
    StashAfterVote(|k.ordered|, k.commits, k.stashedCommits, p, w);
    var k1 := k.(commits := AddVote(k.commits, p, w));
    VoteIsEager(x.c, k, p, w);
    TryOrderEager(x, k1, p);
  }

  /** All but the own COMMIT for one number is done. */
  ghost predicate EagerButCommit(c: Config, k: Core, p: nat) {
    && (forall q: nat :: q != p ==> CommitsDone(c, k, q))
    && (forall q: nat :: OrdersDone(c, k, q))
    && CommitsOnce(c, k)
  }

  /** The own COMMIT, sent and counted, with the ordering that may be due now. */
  lemma OwnCommitEager(x: Context, k: Core, p: nat)
    requires EagerButCommit(x.c, k, p) && x.c.self !in Voters(k.commits, p) && GetPrePrepare(k, p).Some?
    ensures
      var m := OutThreePhase(CommitMsg(Commit(x.c.viewNo, p)));
      var k1 := k.(outBox := k.outBox + [m], commits := AddVote(k.commits, p, x.c.self));
      EagerButOrder(x.c, k1, p) && Quiet(k, k1)
  {
    hide OwnMsgs, CommitNos;
    var m := OutThreePhase(CommitMsg(Commit(x.c.viewNo, p)));
    var k1 := k.(outBox := k.outBox + [m], commits := AddVote(k.commits, p, x.c.self));
    SentOneMore(k.outBox, m);
    assert p !in CommitNos(k.outBox);
    forall q: nat ensures CommitsDone(x.c, k1, q) && (q != p ==> OrdersDone(x.c, k1, q)) {
      assert q != p ==> CommitsDone(x.c, k, q);
      assert OrdersDone(x.c, k, q);
    }
  }

  /** PREPAREs are as before and COMMITs no fewer, or all that was recorded is gone. */
  ghost predicate GrewAt(k: Core, k': Core, p: nat) {
    Cleared(k', p) || (SameAt(k.prepares, k'.prepares, p) && Voters(k.commits, p) <= Voters(k'.commits, p))
  }

  ghost predicate Grew(k: Core, k': Core) { forall p: nat :: GrewAt(k, k', p) }

  lemma KeptGrew(k: Core, k1: Core, k': Core)
    requires Kept(k1, k') && k1.prepares == k.prepares
    requires forall p: nat :: Voters(k.commits, p) <= Voters(k1.commits, p)
    ensures Grew(k, k')
  {
    forall p: nat ensures GrewAt(k, k', p) {
      assert KeptAt(k1, k', p);
    }
  }

  lemma TryCommitEager(x: Context, k: Core, p: nat)
    requires CoreOk(x, k) && EagerButCommit(x.c, k, p)
    ensures
      var k' := TryCommit(x.c, k, p);
      Eager(x.c, k') && Quiet(k, k') && Grew(k, k')
  {
    hide HeldOk, PreparesOk, CommitsOk, StashOk, CheckpointsOk, StashedCheckpointsOk, MessagesOk, BoxOk,
         OrderedBoxOk, AnnouncedOk, OrderOk, MessageOk, TryOrder, BacksCommit, Prepared, CommitsOnce, OrdersDone,
         OwnMsgs, Backlog, ContextOk, EagerButOrder, Kept, Grew;
    SameGrew(k);
    if HasVotes(k.prepares, p, 2 * x.c.f) && x.c.self !in Voters(k.commits, p) {
      var m := OutThreePhase(CommitMsg(Commit(x.c.viewNo, p)));
      PrepareQuorumIs(x, k, p);
      CommitMessageOk(x, |k.ordered|, k.outBox, p);
      SendOk(x, k, |k.ordered|, m);
      HeldIs(x, k, p);
      SelfIsNode(x);
      OwnCommitEager(x, k, p);
      var k1 := k.(outBox := k.outBox + [m]);
      CommitVoteOk(x, k.h, k1.outBox, k.commits, p, x.c.self);
      StashAfterVote(|k.ordered|, k.commits, k.stashedCommits, p, x.c.self);
      var k2 := k1.(commits := AddVote(k.commits, p, x.c.self));
      TryOrderEager(x, k2, p);
      KeptGrew(k, k2, TryOrder(x.c, k2, p));
    }
  }

  lemma SameGrew(k: Core)
    ensures Grew(k, k)
  {
  }

  lemma SelfIsNode(x: Context)
    requires ContextOk(x)
    ensures x.c.self in x.net.nodes
  {
  }

  lemma PrepareIsEager(c: Config, k: Core, p: nat, w: Name)
    requires Eager(c, k)
    ensures EagerButCommit(c, k.(prepares := AddVote(k.prepares, p, w)), p)
  {
    hide OwnMsgs, CommitNos;
    var k1 := k.(prepares := AddVote(k.prepares, p, w));
    forall q: nat ensures OrdersDone(c, k1, q) && (q != p ==> CommitsDone(c, k1, q)) {
      assert CommitsDone(c, k, q) && OrdersDone(c, k, q);
    }
  }

  lemma AddToPreparesEager(x: Context, k: Core, p: nat, w: Name)
    requires CoreOk(x, k) && w in x.net.nodes - {x.c.primary} && BacksPrepare(x, k.outBox, p, w)
    requires p <= k.h ==> w == x.c.self
    requires Eager(x.c, k)
    ensures
      var k' := AddToPrepares(x.c, k, p, w);
      Eager(x.c, k') && Quiet(k, k') && Grew(k.(prepares := AddVote(k.prepares, p, w)), k')
  {
    hide ContextOk, OrderOk, HeldOk, PreparesOk, CommitsOk, StashOk, CheckpointsOk, StashedCheckpointsOk,
         MessagesOk, BoxOk, OrderedBoxOk, AnnouncedOk, TryCommit, BacksPrepare, Eager, EagerButCommit, OwnMsgs, Grew;
    PrepareVoteOk(x, k.h, k.outBox, k.prepares, p, w);
    var k1 := k.(prepares := AddVote(k.prepares, p, w));
    PrepareIsEager(x.c, k, p, w);
    TryCommitEager(x, k1, p);
  }

  /** The own PREPARE goes out unless it did before. */
  lemma TryPrepareEager(x: Context, k: Core, p: nat)
    requires CoreOk(x, k) && 1 <= p <= |x.admitted| && !x.c.IsPrimary() && Eager(x.c, k)
    ensures
      var k' := TryPrepare(x.c, k, x.admitted[p - 1]);
      && Eager(x.c, k') && Backlog(k') == Backlog(k)
      && OwnMsgs(k'.outBox)
         == OwnMsgs(k.outBox)
            + (if x.c.self in Voters(k.prepares, p) then [] else [PrepareMsg(PrepareFor(x.admitted[p - 1]))])
      && Grew(k.(prepares := AddVote(k.prepares, p, x.c.self)), k')
  {
    hide ContextOk, OrderOk, HeldOk, PreparesOk, CommitsOk, StashOk, CheckpointsOk, StashedCheckpointsOk,
         MessagesOk, BoxOk, OrderedBoxOk, AnnouncedOk, MessageOk, AddToPrepares, BacksPrepare, Eager, OwnMsgs, Grew;
    PrepareMessageOk(x, |k.ordered|, k.outBox, p);
    if x.c.self in Voters(k.prepares, p) {
      VotedGrew(x, k, p);
    } else {
      var m := OutThreePhase(PrepareMsg(PrepareFor(x.admitted[p - 1])));
      SendOk(x, k, |k.ordered|, m);
      SentOneMore(k.outBox, m);
      var k1 := k.(outBox := k.outBox + [m]);
      SendEager(x.c, k, m);
      AddToPreparesEager(x, k1, p, x.c.self);
      BoxGrew(k1.(prepares := AddVote(k.prepares, p, x.c.self)), k.outBox, AddToPrepares(x.c, k1, p, x.c.self));
    }
  }

  lemma VotedGrew(x: Context, k: Core, p: nat)
    requires x.c.self in Voters(k.prepares, p)
    ensures Grew(k.(prepares := AddVote(k.prepares, p, x.c.self)), k)
  {
    var k1 := k.(prepares := AddVote(k.prepares, p, x.c.self));
    assert Voters(k.prepares, p) + {x.c.self} == Voters(k.prepares, p);
    forall q: nat ensures GrewAt(k1, k, q) {}
  }

  lemma BoxGrew(k: Core, box: seq<Out>, k': Core)
    requires Grew(k, k')
    ensures Grew(k.(outBox := box), k')
  {
    forall p: nat ensures GrewAt(k.(outBox := box), k', p) {
      assert GrewAt(k, k', p);
    }
  }

  lemma SendEager(c: Config, k: Core, m: Out)
    requires Eager(c, k) && !(m.OutThreePhase? && m.msg.CommitMsg?)
    ensures Eager(c, k.(outBox := k.outBox + [m]))
  {
    hide OwnMsgs, CommitNos;
    SentOneMore(k.outBox, m);
    var k1 := k.(outBox := k.outBox + [m]);
    forall p: nat ensures CommitsDone(c, k1, p) && OrdersDone(c, k1, p) {
      assert CommitsDone(c, k, p) && OrdersDone(c, k, p);
    }
  }

  // ----- the periodic pass over stashed COMMITs -----

  /** How far a pass gets that looks at the stashed numbers in this order, from `n` on. */
  function Greedy(c: Config, commits: map<nat, set<Name>>, todo: seq<nat>, n: nat): (m: nat)
    ensures m >= n
    decreases |todo|
  {
    if todo == [] then n
    else if todo[0] == n + 1 && HasVotes(commits, n + 1, 2 * c.f + 1) then Greedy(c, commits, todo[1..], n + 1)
    else Greedy(c, commits, todo[1..], n)
  }

  lemma {:induction false} GreedySame(c: Config, a: map<nat, set<Name>>, b: map<nat, set<Name>>, todo: seq<nat>, n: nat)
    requires forall p: nat :: p > n ==> SameAt(a, b, p)
    ensures Greedy(c, a, todo, n) == Greedy(c, b, todo, n)
    decreases |todo|
  {
    if todo != [] {
      assert SameAt(a, b, n + 1);
      GreedySame(c, a, b, todo[1..], n + 1);
      GreedySame(c, a, b, todo[1..], n);
    }
  }

  lemma {:induction false} GreedyMoves(c: Config, commits: map<nat, set<Name>>, todo: seq<nat>, n: nat)
    requires n + 1 in todo && HasVotes(commits, n + 1, 2 * c.f + 1)
    ensures Greedy(c, commits, todo, n) > n
    decreases |todo|
  {
    if todo[0] != n + 1 {
      GreedyMoves(c, commits, todo[1..], n);
    }
  }

  /** The COMMITs for what is not ordered yet stay. */
  lemma CommitsAbove(x: Context, k: Core, k': Core, p: nat)
    requires CoreOk(x, k) && CoreOk(x, k') && Kept(k, k') && p > |k'.ordered|
    ensures SameAt(k.commits, k'.commits, p)
  {
    hide ContextOk, OrderOk, PreparesOk, StashOk, CheckpointsOk, StashedCheckpointsOk, MessagesOk, BoxOk,
         OrderedBoxOk, AnnouncedOk;
    assert KeptAt(k, k', p);
    HeldIs(x, k', p);
  }

  lemma TryOrderStep(x: Context, k: Core, p: nat)
    requires CoreOk(x, k) && Eager(x.c, k) && p in k.stashedCommits
    ensures
      var k' := TryOrder(x.c, k, p);
      && Keeps(x, k, k') && Eager(x.c, k') && Quiet(k, k') && Kept(k, k') && k'.stashedCommits == k.stashedCommits
      && (forall q: nat :: q > |k'.ordered| ==> SameAt(k.commits, k'.commits, q))
      && |k'.ordered| == |k.ordered| + if CanOrder(x.c, k, p) then 1 else 0
  {
    hide CoreOkAt, TryOrder, CommitsDone, OrdersDone, CommitsOnce, Quiet, SameAt, CanOrder, Kept;
    TryOrderOk(x, k, p);
    CanOrderOnlyNext(x, k, p);
    TryOrderEager(x, k, p);
    var k' := TryOrder(x.c, k, p);
    forall q: nat | q > |k'.ordered| ensures SameAt(k.commits, k'.commits, q) {
      CommitsAbove(x, k, k', q);
    }
  }

  lemma QuietTrans(k0: Core, k1: Core, k2: Core)
    requires Quiet(k0, k1) && Quiet(k1, k2)
    ensures Quiet(k0, k2)
  {
  }

  /** Everything stashed that is not ordered is still to be looked at or kept. */
  ghost predicate Covered(k: Core, todo: seq<nat>, kept: seq<nat>) {
    && (forall p :: p in todo ==> p in k.stashedCommits)
    && (forall p :: p in k.stashedCommits && p > |k.ordered| ==> p in todo || p in kept)
  }

  lemma {:induction false} OrderStashedEager(x: Context, k: Core, todo: seq<nat>, last: nat, kept: seq<nat>)
    requires CoreOk(x, k) && Eager(x.c, k) && last == |k.ordered| && Covered(k, todo, kept)
    ensures
      var k' := OrderStashed(x.c, k, todo, last, kept);
      && Eager(x.c, k') && Quiet(k, k') && Kept(k, k')
      && |k'.ordered| == Greedy(x.c, k.commits, todo, |k.ordered|)
    decreases |todo|
  {
    hide CoreOkAt, TryOrder, CanOrder, Eager, Quiet, SameAt, Kept;
    if todo == [] {
      NewStashEager(x.c, k, kept);
    } else {
      var p := todo[0];
      assert p in todo;
      OrderedNumbers(x, k, p);
      CanOrderOnlyNext(x, k, p);
      if p in k.ordered {
        OrderStashedEager(x, k, todo[1..], last, kept);
      } else if last + 1 == p && CanOrder(x.c, k, p) {
        var k1 := TryOrder(x.c, k, p);
        TryOrderStep(x, k, p);
        OrderStashedEager(x, k1, todo[1..], p, kept);
        QuietTrans(k, k1, OrderStashed(x.c, k1, todo[1..], p, kept));
        KeptTrans(k, k1, OrderStashed(x.c, k1, todo[1..], p, kept));
        GreedySame(x.c, k.commits, k1.commits, todo[1..], p);
      } else {
        var k1 := if last + 1 == p then TryOrder(x.c, k, p) else k;
        TryOrderStep(x, k, p);
        QuietSame(k);
        OrderStashedEager(x, k1, todo[1..], last, kept + [p]);
        QuietTrans(k, k1, OrderStashed(x.c, k1, todo[1..], last, kept + [p]));
        KeptTrans(k, k1, OrderStashed(x.c, k1, todo[1..], last, kept + [p]));
        if last + 1 == p {
          GreedySame(x.c, k.commits, k1.commits, todo[1..], last);
        }
      }
    }
  }

  lemma KeptTrans(k0: Core, k1: Core, k2: Core)
    requires Kept(k0, k1) && Kept(k1, k2)
    ensures Kept(k0, k2)
  {
    forall p: nat ensures KeptAt(k0, k2, p) {
      assert KeptAt(k0, k1, p) && KeptAt(k1, k2, p);
    }
  }

  lemma QuietSame(k: Core)
    ensures Quiet(k, k) && Kept(k, k)
  {
  }

  lemma NewStashEager(c: Config, k: Core, kept: seq<nat>)
    requires Eager(c, k) && Covered(k, [], kept)
    ensures
      var k' := k.(stashedCommits := kept);
      Eager(c, k') && Quiet(k, k') && Kept(k, k')
  {
    hide OwnMsgs, CommitNos;
    var k' := k.(stashedCommits := kept);
    forall p: nat ensures CommitsDone(c, k', p) && OrdersDone(c, k', p) {
      assert CommitsDone(c, k, p) && OrdersDone(c, k, p);
    }
  }

  /** The pass orders the stashed numbers with a quorum that follow each other, as it comes to them; in particular the
      number after the last ordered one is ordered whenever it has its COMMITs. */
  lemma PassOrders(x: Context, k: Core)
    requires CoreOk(x, k) && Eager(x.c, k)
    ensures
      var k' := ProcessStashedCommits(x.c, k);
      && Eager(x.c, k') && Quiet(k, k') && Kept(k, k')
      && (k.ordered != [] ==> |k'.ordered| == Greedy(x.c, k.commits, k.stashedCommits, |k.ordered|))
      && (OrderDue(x.c, k, |k.ordered| + 1) ==> |k'.ordered| > |k.ordered|)
  {
    hide CoreOkAt, OrderStashed, Quiet, CommitsDone, CommitsOnce, Greedy, Kept;
    QuietSame(k);
    assert OrdersDone(x.c, k, |k.ordered| + 1);
    if k.ordered != [] {
      LastIsCount(x, k);
      OrderStashedEager(x, k, k.stashedCommits, |k.ordered|, []);
      if OrderDue(x.c, k, |k.ordered| + 1) {
        GreedyMoves(x.c, k.commits, k.stashedCommits, |k.ordered|);
      }
    }
  }

  lemma LastIsCount(x: Context, k: Core)
    requires CoreOk(x, k) && k.ordered != []
    ensures k.ordered[|k.ordered| - 1] == |k.ordered|
  {
    hide ContextOk, HeldOk, PreparesOk, CommitsOk, StashOk, CheckpointsOk, StashedCheckpointsOk, MessagesOk, BoxOk,
         OrderedBoxOk, AnnouncedOk;
  }
}
