/** What happens when a replica accepts a PRE-PREPARE: the PREPAREs and COMMITs that came before it are taken in, and
    exactly when that ends in an exception. */
module Acceptance {
  import opened Messages
  import opened ReplicaSpec
  import opened ReplicaInvariant
  import opened ReplicaCoreProof
  import opened ReplicaProof

  // ----- what is recorded for a number stays until garbage collection takes all of it -----

  ghost predicate SameRecord(k: Core, k': Core, p: nat) {
    && (p in k'.sentPrePrepares <==> p in k.sentPrePrepares) && (p in k'.prePrepares <==> p in k.prePrepares)
    && (p in k'.prepares <==> p in k.prepares) && Voters(k'.commits, p) == Voters(k.commits, p)
  }

  ghost predicate Gone(k: Core, p: nat) {
    p !in k.sentPrePrepares && p !in k.prePrepares && Voters(k.commits, p) == {}
  }

  ghost predicate KeptOrGone(k: Core, k': Core, p: nat) { SameRecord(k, k', p) || Gone(k', p) }

  lemma GcKept(k: Core, till: nat, p: nat)
    ensures KeptOrGone(k, Gc(k, till), p)
  {
  }

  lemma MarkStableKept(k: Core, seqNo: nat, p: nat)
    ensures KeptOrGone(k, MarkStable(k, seqNo), p)
  {
    hide Gc;
    var i := EndIndex(k.checkpoints, seqNo);
    if i < |k.checkpoints| {
      GcKept(k.(checkpoints := k.checkpoints[i := k.checkpoints[i].(isStable := true)][i..], h := seqNo,
                replay := k.replay + k.outside, outside := []), seqNo, p);
    }
  }

  lemma CheckpointKept(c: Config, k: Core, start: nat, end: nat, digest: Hash, v: Name, p: nat)
    ensures KeptOrGone(k, ProcessCheckpoint(c, k, start, end, digest, v), p)
  {
    hide MarkStable, IsStable, PutStashed;
    var i := KeyIndex(k.checkpoints, start, end);
    if i < |k.checkpoints| {
      var ck := k.checkpoints[i].(received := k.checkpoints[i].received[v := digest]);
      MarkStableKept(k.(checkpoints := k.checkpoints[i := ck]), ck.seqNo, p);
    }
  }

  lemma {:induction false} ReplayKept(c: Config, k: Core, start: nat, end: nat, todo: seq<(Name, Hash)>, p: nat)
    ensures KeptOrGone(k, ReplayCheckpoints(c, k, start, end, todo), p)
    decreases |todo|
  {
    hide ProcessCheckpoint;
    if todo != [] {
      CheckpointKept(c, k, start, end, todo[0].1, todo[0].0, p);
      ReplayKept(c, ProcessCheckpoint(c, k, start, end, todo[0].1, todo[0].0), start, end, todo[1..], p);
    }
  }

  lemma AddToCheckpointKept(c: Config, k: Core, n: nat, digest: Hash, p: nat)
    ensures KeptOrGone(k, AddToCheckpoint(c, k, n, digest), p)
  {
    hide ReplayCheckpoints, RecordInCheckpoint;
    var cks := RecordInCheckpoint(c, k.checkpoints, n, digest);
    var i := CoverIndex(cks, n);
    if i < |cks| && |cks[i].digests| == c.chkFreq {
      var ck := cks[i];
      var d := c.hash(ck.digests);
      var k1 := k.(checkpoints := cks[i := ck.(digest := Some(d), digests := [])],
                   outBox := k.outBox + [OutCheckpoint(Checkpoint(c.viewNo, ck.start, ck.end, d))]);
      ReplayKept(c, k1, ck.start, ck.end, StashedFor(k1, ck.start, ck.end), p);
    }
  }

  lemma TryOrderKept(c: Config, k: Core, n: nat, p: nat)
    ensures KeptOrGone(k, TryOrder(c, k, n), p)
  {
    hide AddToCheckpoint, AllPrevOrdered;
    var pp := GetPrePrepare(k, n);
    if pp.Some? {
      AddToCheckpointKept(c,
        k.(ordered := if n in k.ordered then k.ordered else k.ordered + [n],
           lastOrdered := if n > k.lastOrdered then n else k.lastOrdered,
           outBox := k.outBox + [OutOrdered(OrderedFor(pp.value))]),
        pp.value.ppSeqNo, pp.value.cert.digest, p);
    }
  }

  lemma AddToCommitsKept(c: Config, k: Core, p: nat, w: Name)
    ensures KeptOrGone(k.(commits := AddVote(k.commits, p, w)), AddToCommits(c, k, p, w), p)
  {
    hide TryOrder;
    TryOrderKept(c, k.(commits := AddVote(k.commits, p, w)), p, p);
  }

  /** Only the replica's own COMMIT is new, and the PREPAREs for `p` are there as before. */
  ghost predicate OwnVoteOnly(c: Config, k: Core, k': Core, p: nat) {
    || Gone(k', p)
    || ((p in k'.prepares <==> p in k.prepares) && Voters(k'.commits, p) <= Voters(k.commits, p) + {c.self})
  }

  lemma AddToPreparesKept(c: Config, k: Core, p: nat, w: Name)
    ensures OwnVoteOnly(c, k.(prepares := AddVote(k.prepares, p, w)), AddToPrepares(c, k, p, w), p)
  {
    hide AddToCommits;
    var k1 := k.(prepares := AddVote(k.prepares, p, w));
    AddToCommitsKept(c, k1.(outBox := k1.outBox + [OutThreePhase(CommitMsg(Commit(c.viewNo, p)))]), p, c.self);
  }

  // ----- in a reachable state a number that is gone is stable -----

  lemma StableIs(c: Config, net: Net, s: State, p: nat)
    requires Good(c, net, s)
    ensures IsStable(s.core, p) <==> s.core.h > 0 && p <= s.core.h
  {
    hide ContextOk, OrderOk, HeldOk, PreparesOk, CommitsOk, StashOk, StashedCheckpointsOk, MessagesOk, BoxOk,
         OrderedBoxOk, AnnouncedOk, QueuesOk;
    StableIffBelowLowMark(ContextOf(c, net, s), s.core, |s.core.ordered|, p);
  }

  lemma GoneIsStable(c: Config, net: Net, s: State, p: nat)
    requires Good(c, net, s) && 1 <= p <= |s.admitted| && Gone(s.core, p)
    ensures IsStable(s.core, p)
  {
    hide Good;
    HeldInGood(c, net, s, p);
    StableIs(c, net, s, p);
  }

  lemma NotStableIsHeld(c: Config, net: Net, s: State, p: nat)
    requires Good(c, net, s) && 1 <= p <= |s.admitted| && !IsStable(s.core, p)
    ensures GetPrePrepare(s.core, p) == Some(s.admitted[p - 1])
  {
    hide Good;
    HeldInGood(c, net, s, p);
    StableIs(c, net, s, p);
  }

  lemma StaysStable(c: Config, net: Net, s: State, s': State, p: nat)
    requires Good(c, net, s) && IsStable(s.core, p) && GoodStep(c, net, s, s')
    ensures IsStable(s'.core, p)
  {
    hide Good;
    StableIs(c, net, s, p);
    StableIs(c, net, s', p);
  }

  // ----- the PREPAREs that came early -----

  function Queue<T>(queues: map<nat, seq<T>>, p: nat): seq<T> { if p in queues then queues[p] else [] }

  /** A PREPARE of a backup for this certificate. */
  predicate Matches(c: Config, cert: Cert, e: (Prepare, Name)) { e.1 != c.primary && e.0.cert == cert }

  ghost predicate AnyMatches(c: Config, cert: Cert, todo: seq<(Prepare, Name)>) {
    exists e :: e in todo && Matches(c, cert, e)
  }

  /** What taking in PREPAREs for `p` does: unless `p` becomes stable, it has a PREPARE exactly if it had one or one of
      them matches, and no COMMIT but the replica's own is added. */
  ghost predicate PreparesTaken(c: Config, s: State, s': State, p: nat, cert: Cert, todo: seq<(Prepare, Name)>) {
    || IsStable(s'.core, p)
    || ((p in s'.core.prepares <==> p in s.core.prepares || AnyMatches(c, cert, todo))
        && Voters(s'.core.commits, p) <= Voters(s.core.commits, p) + {c.self})
  }

  lemma OnePrepareTaken(c: Config, net: Net, s: State, p: nat, e: (Prepare, Name))
    requires Good(c, net, s) && !c.IsPrimary() && 1 <= p <= |s.admitted|
    requires PrepareWaitingOk(ContextOf(c, net, s), p, e)
    ensures
      var s' := ProcessPrepare(c, s, e.0, e.1);
      GoodStep(c, net, s, s') && PreparesTaken(c, s, s', p, s.admitted[p - 1].cert, [e])
  {
    hide Good, AddToPrepares, IsStable;
    PrepareEntryIs(ContextOf(c, net, s), p, e);
    ProcessPrepareOk(c, net, s, e.0, e.1);
    var s' := ProcessPrepare(c, s, e.0, e.1);
    if !IsStable(s'.core, p) {
      if IsStable(s.core, p) {
        StaysStable(c, net, s, s', p);
      }
      NotStableIsHeld(c, net, s, p);
      assert e in [e];
      AddToPreparesKept(c, s.core, p, e.1);
      if Gone(s'.core, p) {
        GoneIsStable(c, net, s', p);
      }
    }
  }

  lemma {:induction false} DequeuePreparesTaken(c: Config, net: Net, s: State, p: nat, todo: seq<(Prepare, Name)>)
    requires Good(c, net, s) && !c.IsPrimary() && 1 <= p <= |s.admitted|
    requires forall e :: e in todo ==> PrepareWaitingOk(ContextOf(c, net, s), p, e)
    ensures PreparesTaken(c, s, DequeuePrepares(c, s, p, todo), p, s.admitted[p - 1].cert, todo)
    decreases |todo|
  {
    hide Good, IsStable, ProcessPrepare, Matches, PrepareWaitingOk;
    if todo != [] {
      var s1 := s.(preparesWaiting := s.preparesWaiting[p := todo[1..]]);
      PoppedGood(c, net, s, p, todo);
      assert todo[0] in todo;
      OnePrepareTaken(c, net, s1, p, todo[0]);
      var s2 := ProcessPrepare(c, s1, todo[0].0, todo[0].1);
      ProcessPrepareFrame(c, s1, todo[0].0, todo[0].1);
      DequeuePreparesTaken(c, net, s2, p, todo[1..]);
      DequeuePreparesOk(c, net, s2, p, todo[1..]);
      if IsStable(s2.core, p) {
        StaysStable(c, net, s2, DequeuePrepares(c, s2, p, todo[1..]), p);
      }
      MatchesSplit(c, s.admitted[p - 1].cert, todo);
    }
  }

  lemma PoppedGood(c: Config, net: Net, s: State, p: nat, todo: seq<(Prepare, Name)>)
    requires Good(c, net, s) && todo != []
    requires forall e :: e in todo ==> PrepareWaitingOk(ContextOf(c, net, s), p, e)
    ensures Good(c, net, s.(preparesWaiting := s.preparesWaiting[p := todo[1..]]))
  {
    hide CoreOk, CommitsWaitingOk, PendingFinOk, PendingPrevOk, PreparesWaitingOk, PrepareWaitingOk;
    PreparesQueued(ContextOf(c, net, s), s.preparesWaiting, p, todo[1..]);
    PreparesPopped(c, net, s, s.preparesWaiting[p := todo[1..]]);
  }

  lemma MatchesSplit(c: Config, cert: Cert, todo: seq<(Prepare, Name)>)
    requires todo != []
    ensures AnyMatches(c, cert, todo) <==> AnyMatches(c, cert, [todo[0]]) || AnyMatches(c, cert, todo[1..])
  {
    hide Matches;
    if AnyMatches(c, cert, todo) {
      var e :| e in todo && Matches(c, cert, e);
      if e != todo[0] {
        var i :| 0 <= i < |todo| && todo[i] == e;
        assert todo[1..][i - 1] == e;
      } else {
        assert e in [todo[0]];
      }
    }
    if AnyMatches(c, cert, todo[1..]) {
      var e :| e in todo[1..] && Matches(c, cert, e);
      assert e in todo;
    }
  }

  // ----- the COMMITs that came early -----

  function OneVote(c: Config, k: Core, p: nat, w: Name): Core {
    if IsStable(k, p) then k else AddToCommits(c, k, p, w)
  }

  /** The voting part after the COMMITs have been counted, up to where `p` becomes stable. */
  function Votes(c: Config, k: Core, p: nat, todo: seq<(Commit, Name)>): Core
    decreases |todo|
  {
    if todo == [] then k else Votes(c, OneVote(c, k, p, todo[0].1), p, todo[1..])
  }

  /** The sender of entry `j` is in `seen` or has an earlier entry. */
  ghost predicate Again(seen: set<Name>, todo: seq<(Commit, Name)>, j: int) {
    0 <= j < |todo| && (todo[j].1 in seen || exists i :: 0 <= i < j && todo[i].1 == todo[j].1)
  }

  ghost predicate TripsOn(c: Config, k: Core, p: nat, seen: set<Name>, todo: seq<(Commit, Name)>, j: int) {
    Again(seen, todo, j) && !IsStable(Votes(c, k, p, todo[..j]), p)
  }

  /** The votes counted so far are those of `seen`, and perhaps the replica's own. */
  ghost predicate Counting(c: Config, s: State, p: nat, seen: set<Name>) {
    !IsStable(s.core, p) ==>
      p in s.core.prepares && seen <= Voters(s.core.commits, p) <= seen + {c.self}
  }

  lemma CommitPopped(c: Config, net: Net, s: State, p: nat, todo: seq<(Commit, Name)>)
    requires Good(c, net, s) && todo != []
    requires forall e :: e in todo ==> CommitWaitingOk(ContextOf(c, net, s), p, e)
    ensures Good(c, net, s.(commitsWaiting := s.commitsWaiting[p := todo[1..]]))
    ensures todo[0].0.ppSeqNo == p && todo[0].1 != c.self
  {
    hide CoreOk, CommitsWaitingOk, PendingFinOk, PendingPrevOk, PreparesWaitingOk;
    assert todo[0] in todo;
    CommitsQueued(ContextOf(c, net, s), s.commitsWaiting, p, todo[1..]);
    CommitsPopped(c, net, s, s.commitsWaiting[p := todo[1..]]);
  }

  /** One queued COMMIT: nothing if the number is stable, an exception if its sender has voted, a vote otherwise. */
  lemma OneCommitTaken(c: Config, net: Net, s: State, p: nat, seen: set<Name>, e: (Commit, Name))
    requires Good(c, net, s) && 1 <= p <= |s.admitted| && Counting(c, s, p, seen)
    requires CommitWaitingOk(ContextOf(c, net, s), p, e) && e.1 != c.self
    ensures
      var r := ProcessCommit(c, s, e.0, e.1);
      && (r.raised <==> !IsStable(s.core, p) && e.1 in seen)
      && GoodStep(c, net, s, r.state)
      && (!r.raised ==> r.state == s.(core := OneVote(c, s.core, p, e.1)) && Counting(c, r.state, p, seen + {e.1}))
  {
    hide Good, AddToCommits, IsStable;
    CommitEntryIs(ContextOf(c, net, s), p, e);
    ProcessCommitOk(c, net, s, e.0, e.1);
    var r := ProcessCommit(c, s, e.0, e.1);
    if IsStable(s.core, p) {
      assert r.state == s;
    } else {
      NotStableIsHeld(c, net, s, p);
      AddToCommitsKept(c, s.core, p, e.1);
      if !r.raised && Gone(r.state.core, p) {
        GoneIsStable(c, net, r.state, p);
      }
    }
  }

  lemma {:induction false} StableVotes(c: Config, k: Core, p: nat, todo: seq<(Commit, Name)>)
    requires IsStable(k, p)
    ensures Votes(c, k, p, todo) == k
    decreases |todo|
  {
    if todo != [] {
      StableVotes(c, k, p, todo[1..]);
    }
  }

  /** Queued COMMITs end in an exception exactly when one comes from a sender that has been counted before the number
      is stable. */
  lemma {:induction false} DequeueCommitsRaises(c: Config, net: Net, s: State, p: nat, seen: set<Name>,
                                               todo: seq<(Commit, Name)>)
    requires Good(c, net, s) && 1 <= p <= |s.admitted| && Counting(c, s, p, seen)
    requires forall e :: e in todo ==> CommitWaitingOk(ContextOf(c, net, s), p, e)
    ensures DequeueCommits(c, s, p, todo).raised <==> exists j :: TripsOn(c, s.core, p, seen, todo, j)
    decreases |todo|
  {
    hide Good, IsStable, ProcessCommit, CommitWaitingOk, AddToCommits;
    if todo != [] {
      var s1 := s.(commitsWaiting := s.commitsWaiting[p := todo[1..]]);
      CommitPopped(c, net, s, p, todo);
      assert todo[0] in todo;
      OneCommitTaken(c, net, s1, p, seen, todo[0]);
      var r := ProcessCommit(c, s1, todo[0].0, todo[0].1);
      if r.raised {
        assert todo[..0] == [];
        assert TripsOn(c, s.core, p, seen, todo, 0);
      } else {
        DequeueCommitsRaises(c, net, r.state, p, seen + {todo[0].1}, todo[1..]);
        TripsLater(c, s.core, p, seen, todo);
      }
    }
  }

  lemma TripsLater(c: Config, k: Core, p: nat, seen: set<Name>, todo: seq<(Commit, Name)>)
    requires todo != [] && !(todo[0].1 in seen && !IsStable(k, p))
    ensures (exists j :: TripsOn(c, k, p, seen, todo, j))
       <==> exists j :: TripsOn(c, OneVote(c, k, p, todo[0].1), p, seen + {todo[0].1}, todo[1..], j)
  {
    hide IsStable, OneVote;
    var k', seen' := OneVote(c, k, p, todo[0].1), seen + {todo[0].1};
    if j :| TripsOn(c, k, p, seen, todo, j) {
      assert todo[..0] == [];
      assert j > 0;
      VotesFirst(c, k, p, todo, j);
      AgainFirst(seen, todo, j - 1);
      assert TripsOn(c, k', p, seen', todo[1..], j - 1);
    }
    if j :| TripsOn(c, k', p, seen', todo[1..], j) {
      VotesFirst(c, k, p, todo, j + 1);
      AgainFirst(seen, todo, j);
      assert TripsOn(c, k, p, seen, todo, j + 1);
    }
  }

  lemma VotesFirst(c: Config, k: Core, p: nat, todo: seq<(Commit, Name)>, j: int)
    requires 0 < j <= |todo|
    ensures Votes(c, k, p, todo[..j]) == Votes(c, OneVote(c, k, p, todo[0].1), p, todo[1..][..j - 1])
  {
    hide OneVote;
    assert todo[..j][1..] == todo[1..][..j - 1];
  }

  lemma AgainFirst(seen: set<Name>, todo: seq<(Commit, Name)>, j: int)
    requires todo != [] && 0 <= j < |todo| - 1
    ensures Again(seen, todo, j + 1) <==> Again(seen + {todo[0].1}, todo[1..], j)
  {
    if i :| 0 <= i < j + 1 && todo[i].1 == todo[j + 1].1 {
      if i > 0 {
        assert todo[1..][i - 1].1 == todo[1..][j].1;
      }
    }
    if i :| 0 <= i < j && todo[1..][i].1 == todo[1..][j].1 {
      assert todo[i + 1].1 == todo[j + 1].1;
    }
  }

  /** Without a PREPARE the COMMITs are passed over. */
  lemma {:induction false} DequeueCommitsIgnores(c: Config, net: Net, s: State, p: nat, todo: seq<(Commit, Name)>)
    requires Good(c, net, s) && 1 <= p <= |s.admitted| && p !in s.core.prepares && p !in s.preparesWaiting
    requires forall e :: e in todo ==> CommitWaitingOk(ContextOf(c, net, s), p, e)
    ensures !DequeueCommits(c, s, p, todo).raised
    decreases |todo|
  {
    hide Good, IsStable, CommitWaitingOk;
    if todo != [] {
      var s1 := s.(commitsWaiting := s.commitsWaiting[p := todo[1..]]);
      CommitPopped(c, net, s, p, todo);
      if !IsStable(s.core, p) {
        NotStableIsHeld(c, net, s1, p);
      }
      assert ProcessCommit(c, s1, todo[0].0, todo[0].1) == Outcome(s1, false);
      assert forall e :: e in todo[1..] ==> e in todo;
      assert ContextOf(c, net, s1) == ContextOf(c, net, s);
      DequeueCommitsIgnores(c, net, s1, p, todo[1..]);
    }
  }

  // ----- accepting -----

  /** A PREPARE for the batch waits. */
  ghost predicate PrepareWaits(c: Config, s: State, pp: PrePrepare) {
    AnyMatches(c, pp.cert, Queue(s.preparesWaiting, pp.ppSeqNo))
  }

  /** The voting part when the PREPAREs for the batch have been taken in. */
  function AfterPrepares(c: Config, s: State, pp: PrePrepare): Core {
    TakePrepares(c, RecordPrePrepare(s, pp), pp.ppSeqNo).core
  }

  /** A sender repeats itself among the waiting COMMITs before the number is stable. */
  ghost predicate RepeatsInTime(c: Config, s: State, pp: PrePrepare) {
    exists j :: TripsOn(c, AfterPrepares(c, s, pp), pp.ppSeqNo, {}, Queue(s.commitsWaiting, pp.ppSeqNo), j)
  }

  /** Accepting the batch ends in an exception. */
  ghost predicate Trips(c: Config, s: State, pp: PrePrepare) {
    PrepareWaits(c, s, pp) && RepeatsInTime(c, s, pp)
  }

  ghost predicate CanAccept(c: Config, net: Net, s: State, pp: PrePrepare) {
    && Good(c, net, s) && !c.IsPrimary() && pp.ppSeqNo == |s.admitted| + 1 && pp.viewNo == c.viewNo
    && Says(net, c.primary, OutThreePhase(PrePrepareMsg(pp)))
  }

  lemma PreparesTakenIn(c: Config, net: Net, s: State, pp: PrePrepare)
    requires CanAccept(c, net, s, pp)
    ensures
      var p := pp.ppSeqNo;
      var s2 := TakePrepares(c, RecordPrePrepare(s, pp), p);
      && Good(c, net, s2) && s2.admitted == s.admitted + [pp] && s2.commitsWaiting == s.commitsWaiting
      && p !in s2.preparesWaiting
      && (IsStable(s2.core, p) || ((p in s2.core.prepares <==> PrepareWaits(c, s, pp)) &&
                                   Voters(s2.core.commits, p) <= {c.self}))
  {
    hide Good, Says, IsStable, DequeuePrepares, AnyMatches;
    var p := pp.ppSeqNo;
    var s1 := RecordPrePrepare(s, pp);
    RecordPrePrepareOk(c, net, s, pp);
    TakePreparesOk(c, net, s1, p);
    NothingYet(c, net, s, p);
    if p in s1.preparesWaiting {
      var todo := s1.preparesWaiting[p];
      QueuedPrepares(c, net, s1, p);
      DequeuePreparesTaken(c, net, s1, p, todo);
      DequeuePreparesFrame(c, s1, p, todo);
      QueueRemoved(c, s1, p, todo);
    } else {
      NoMatches(c, pp.cert);
    }
  }

  lemma NoMatches(c: Config, cert: Cert)
    ensures !AnyMatches(c, cert, [])
  {
  }

  lemma {:induction false} QueueRemoved(c: Config, s: State, p: nat, todo: seq<(Prepare, Name)>)
    ensures p !in DequeuePrepares(c, s, p, todo).preparesWaiting
    decreases |todo|
  {
    hide ProcessPrepare;
    if todo != [] {
      QueueRemoved(c, ProcessPrepare(c, s.(preparesWaiting := s.preparesWaiting[p := todo[1..]]), todo[0].0, todo[0].1),
                   p, todo[1..]);
    }
  }

  /** Nothing is counted for a number before its PRE-PREPARE is accepted. */
  lemma NothingYet(c: Config, net: Net, s: State, p: nat)
    requires Good(c, net, s) && p > |s.admitted|
    ensures p !in s.core.prepares && p !in s.core.commits
  {
    hide ContextOk, OrderOk, HeldOk, StashOk, CheckpointsOk, StashedCheckpointsOk, MessagesOk, BoxOk, OrderedBoxOk,
         AnnouncedOk, QueuesOk;
  }

  lemma QueuedPrepares(c: Config, net: Net, s: State, p: nat)
    requires Good(c, net, s) && p in s.preparesWaiting
    ensures forall e :: e in s.preparesWaiting[p] ==> PrepareWaitingOk(ContextOf(c, net, s), p, e)
  {
    hide CoreOk, CommitsWaitingOk, PendingFinOk, PendingPrevOk, PrepareWaitingOk;
  }

  lemma QueuedCommits(c: Config, net: Net, s: State, p: nat)
    requires Good(c, net, s) && p in s.commitsWaiting
    ensures forall e :: e in s.commitsWaiting[p] ==> CommitWaitingOk(ContextOf(c, net, s), p, e)
  {
    hide CoreOk, PreparesWaitingOk, PendingFinOk, PendingPrevOk, CommitWaitingOk;
  }

  /** Accepting a PRE-PREPARE ends in an exception exactly when a PREPARE for it waits and a sender repeats itself among
      the waiting COMMITs before the number is stable. */
  lemma AcceptRaisesIff(c: Config, net: Net, s: State, pp: PrePrepare)
    requires CanAccept(c, net, s, pp)
    ensures AddToPrePrepares(c, s, pp).raised <==> Trips(c, s, pp)
  {
    hide Good, Says, IsStable, TakePrepares, DequeueCommits, TryPrepare, PrepareWaits, Votes;
    var p := pp.ppSeqNo;
    var s2 := TakePrepares(c, RecordPrePrepare(s, pp), p);
    PreparesTakenIn(c, net, s, pp);
    assert AfterPrepares(c, s, pp) == s2.core;
    assert AddToPrePrepares(c, s, pp).raised == TakeCommits(c, s2, p).raised;
    if p in s2.commitsWaiting {
      var todo := s2.commitsWaiting[p];
      QueuedCommits(c, net, s2, p);
      assert Queue(s.commitsWaiting, p) == todo;
      if IsStable(s2.core, p) || PrepareWaits(c, s, pp) {
        DequeueCommitsRaises(c, net, s2, p, {}, todo);
        if !PrepareWaits(c, s, pp) {
          StableNeverTrips(c, s2.core, p, todo);
        }
      } else {
        DequeueCommitsIgnores(c, net, s2, p, todo);
      }
    }
  }

  lemma StableNeverTrips(c: Config, k: Core, p: nat, todo: seq<(Commit, Name)>)
    requires IsStable(k, p)
    ensures !exists j :: TripsOn(c, k, p, {}, todo, j)
  {
    hide Votes, IsStable;
    forall j | 0 <= j < |todo| ensures !TripsOn(c, k, p, {}, todo, j) {
      StableVotes(c, k, p, todo[..j]);
    }
  }

  // ----- without announcements of checkpoints nothing becomes stable -----

  /** No CHECKPOINT for a range that holds `p` waits. */
  ghost predicate Uncovered(k: Core, p: nat) {
    forall key :: key in k.stashedCheckpoints ==> !(key.0 <= p <= key.1)
  }

  /** CHECKPOINTs wait for the same ranges. */
  ghost predicate SameRanges(k: Core, k': Core) { k'.stashedCheckpoints.Keys == k.stashedCheckpoints.Keys }

  ghost predicate SameMark(k: Core, k': Core) {
    k'.h == k.h && k'.sentPrePrepares == k.sentPrePrepares && k'.prePrepares == k.prePrepares
  }

  lemma {:induction false} ReplayRanges(c: Config, k: Core, start: nat, end: nat, todo: seq<(Name, Hash)>)
    requires todo == [] || (start, end) in k.stashedCheckpoints
    ensures SameRanges(k, ReplayCheckpoints(c, k, start, end, todo))
    decreases |todo|
  {
    hide MarkStable, IsStable, PutStashed;
    if todo != [] {
      var k1 := ProcessCheckpoint(c, k, start, end, todo[0].1, todo[0].0);
      CheckpointRanges(c, k, start, end, todo[0].1, todo[0].0);
      ReplayRanges(c, k1, start, end, todo[1..]);
    }
  }

  lemma CheckpointRanges(c: Config, k: Core, start: nat, end: nat, digest: Hash, w: Name)
    requires (start, end) in k.stashedCheckpoints
    ensures SameRanges(k, ProcessCheckpoint(c, k, start, end, digest, w))
  {
    hide IsStable, PutStashed, Gc;
    var i := KeyIndex(k.checkpoints, start, end);
    if i < |k.checkpoints| {
      var ck := k.checkpoints[i].(received := k.checkpoints[i].received[w := digest]);
      MarkStableRanges(k.(checkpoints := k.checkpoints[i := ck]), ck.seqNo);
    }
    assert StashCheckpoint(k, start, end, digest, w).stashedCheckpoints.Keys
        == k.stashedCheckpoints.Keys + {(start, end)};
  }

  lemma MarkStableRanges(k: Core, seqNo: nat)
    ensures SameRanges(k, MarkStable(k, seqNo))
  {
  }

  lemma AddToCheckpointMark(c: Config, k: Core, n: nat, digest: Hash)
    ensures SameRanges(k, AddToCheckpoint(c, k, n, digest))
    ensures Uncovered(k, n) ==> SameMark(k, AddToCheckpoint(c, k, n, digest))
  {
    hide RecordInCheckpoint, ProcessCheckpoint;
    var cks := RecordInCheckpoint(c, k.checkpoints, n, digest);
    var i := CoverIndex(cks, n);
    if i < |cks| && |cks[i].digests| == c.chkFreq {
      var ck := cks[i];
      var d := c.hash(ck.digests);
      var k1 := k.(checkpoints := cks[i := ck.(digest := Some(d), digests := [])],
                   outBox := k.outBox + [OutCheckpoint(Checkpoint(c.viewNo, ck.start, ck.end, d))]);
      ReplayRanges(c, k1, ck.start, ck.end, StashedFor(k1, ck.start, ck.end));
      if Uncovered(k, n) {
        assert (ck.start, ck.end) !in k1.stashedCheckpoints;
      }
    }
  }

  /** The batch looked up under a number has that number. */
  ghost predicate NumberedRight(k: Core, p: nat) {
    GetPrePrepare(k, p).Some? ==> GetPrePrepare(k, p).value.ppSeqNo == p
  }

  lemma TryOrderMark(c: Config, k: Core, p: nat)
    ensures SameRanges(k, TryOrder(c, k, p))
    ensures Uncovered(k, p) && NumberedRight(k, p) ==> SameMark(k, TryOrder(c, k, p))
  {
    hide AddToCheckpoint, AllPrevOrdered, Uncovered;
    var pp := GetPrePrepare(k, p);
    if pp.Some? {
      var k1 := k.(ordered := if p in k.ordered then k.ordered else k.ordered + [p],
                   lastOrdered := if p > k.lastOrdered then p else k.lastOrdered,
                   outBox := k.outBox + [OutOrdered(OrderedFor(pp.value))]);
      UncoveredToo(k, k1, p);
      AddToCheckpointMark(c, k1, pp.value.ppSeqNo, pp.value.cert.digest);
    }
  }

  lemma UncoveredToo(k: Core, k': Core, p: nat)
    requires SameRanges(k, k')
    ensures Uncovered(k, p) <==> Uncovered(k', p)
  {
    forall key ensures key in k.stashedCheckpoints <==> key in k'.stashedCheckpoints {
      assert key in k.stashedCheckpoints.Keys <==> key in k'.stashedCheckpoints.Keys;
    }
  }

  lemma AddToCommitsMark(c: Config, k: Core, p: nat, w: Name)
    ensures SameRanges(k, AddToCommits(c, k, p, w))
    ensures Uncovered(k, p) && NumberedRight(k, p) ==> SameMark(k, AddToCommits(c, k, p, w))
  {
    hide TryOrder, Uncovered;
    var k1 := k.(commits := AddVote(k.commits, p, w));
    UncoveredToo(k, k1, p);
    TryOrderMark(c, k1, p);
  }

  lemma AddToPreparesMark(c: Config, k: Core, p: nat, w: Name)
    ensures SameRanges(k, AddToPrepares(c, k, p, w))
    ensures Uncovered(k, p) && NumberedRight(k, p) ==> SameMark(k, AddToPrepares(c, k, p, w))
  {
    hide AddToCommits;
    var k1 := k.(prepares := AddVote(k.prepares, p, w));
    AddToCommitsMark(c, k1.(outBox := k1.outBox + [OutThreePhase(CommitMsg(Commit(c.viewNo, p)))]), p, c.self);
  }

  lemma {:induction false} DequeuePreparesMark(c: Config, s: State, p: nat, todo: seq<(Prepare, Name)>)
    requires forall e :: e in todo ==> e.0.ppSeqNo == p
    ensures SameRanges(s.core, DequeuePrepares(c, s, p, todo).core)
    ensures Uncovered(s.core, p) && NumberedRight(s.core, p) ==> SameMark(s.core, DequeuePrepares(c, s, p, todo).core)
    decreases |todo|
  {
    hide AddToPrepares, IsStable;
    if todo != [] {
      assert todo[0] in todo;
      AddToPreparesMark(c, s.core, p, todo[0].1);
      DequeuePreparesMark(c,
        ProcessPrepare(c, s.(preparesWaiting := s.preparesWaiting[p := todo[1..]]), todo[0].0, todo[0].1),
        p, todo[1..]);
    }
  }

  lemma {:induction false} DequeueCommitsRanges(c: Config, s: State, p: nat, todo: seq<(Commit, Name)>)
    ensures SameRanges(s.core, DequeueCommits(c, s, p, todo).state.core)
    decreases |todo|
  {
    hide AddToCommits, IsStable;
    if todo != [] {
      var r := ProcessCommit(c, s.(commitsWaiting := s.commitsWaiting[p := todo[1..]]), todo[0].0, todo[0].1);
      AddToCommitsMark(c, s.core, todo[0].0.ppSeqNo, todo[0].1);
      if !r.raised {
        DequeueCommitsRanges(c, r.state, p, todo[1..]);
      }
    }
  }

  /** Accepting a batch leaves the ranges for which CHECKPOINTs wait. */
  lemma AcceptRanges(c: Config, net: Net, s: State, pp: PrePrepare)
    requires Good(c, net, s)
    ensures SameRanges(s.core, AddToPrePrepares(c, s, pp).state.core)
  {
    hide Good, DequeuePrepares, DequeueCommits, AddToPrepares;
    var p := pp.ppSeqNo;
    var s1 := RecordPrePrepare(s, pp);
    if p in s1.preparesWaiting {
      QueueNumbers(c, net, s, p);
      DequeuePreparesMark(c, s1, p, s1.preparesWaiting[p]);
    }
    var s2 := TakePrepares(c, s1, p);
    if p in s2.commitsWaiting {
      DequeueCommitsRanges(c, s2, p, s2.commitsWaiting[p]);
    }
    var k := TakeCommits(c, s2, p).state.core;
    AddToPreparesMark(c, k.(outBox := k.outBox + [OutThreePhase(PrepareMsg(PrepareFor(pp)))]), p, c.self);
  }

  lemma QueueNumbers(c: Config, net: Net, s: State, p: nat)
    requires Good(c, net, s) && p in s.preparesWaiting
    ensures forall e :: e in s.preparesWaiting[p] ==> e.0.ppSeqNo == p
  {
    hide Good;
    QueuedPrepares(c, net, s, p);
  }

  lemma {:induction false} VotesUncovered(c: Config, net: Net, s: State, p: nat, todo: seq<(Commit, Name)>)
    requires Good(c, net, s) && 1 <= p <= |s.admitted| && s.core.h < p && Uncovered(s.core, p)
    requires forall e :: e in todo ==> CommitWaitingOk(ContextOf(c, net, s), p, e)
    ensures !IsStable(Votes(c, s.core, p, todo), p)
    decreases |todo|
  {
    hide CoreOk, IsStable, AddToCommits, QueuesOk;
    StableIs(c, net, s, p);
    if todo != [] {
      assert todo[0] in todo;
      var x, w := ContextOf(c, net, s), todo[0].1;
      HeldInGood(c, net, s, p);
      AddToCommitsMark(c, s.core, p, w);
      AddToCommitsOk(x, s.core, p, w);
      var s1 := s.(core := AddToCommits(c, s.core, p, w));
      NewCoreOk(c, net, s, s1.core);
      assert ContextOf(c, net, s1) == x;
      assert forall e :: e in todo[1..] ==> e in todo;
      VotesUncovered(c, net, s1, p, todo[1..]);
    }
  }

  /** Where no CHECKPOINT for its range waits, accepting a batch ends in an exception exactly when a PREPARE for it
      waits and some sender has two COMMITs for it waiting. */
  lemma AcceptRaisesPlainly(c: Config, net: Net, s: State, pp: PrePrepare)
    requires CanAccept(c, net, s, pp) && Uncovered(s.core, pp.ppSeqNo)
    ensures AddToPrePrepares(c, s, pp).raised
       <==> PrepareWaits(c, s, pp) && Repeated(Queue(s.commitsWaiting, pp.ppSeqNo))
  {
    hide Good, Says, IsStable, AddToPrePrepares, TakePrepares, PrepareWaits, Votes;
    AcceptRaisesIff(c, net, s, pp);
    var p := pp.ppSeqNo;
    var q := Queue(s.commitsWaiting, p);
    var s2 := TakePrepares(c, RecordPrePrepare(s, pp), p);
    PreparesTakenIn(c, net, s, pp);
    MarkAfterPrepares(c, net, s, pp);
    forall j | Again({}, q, j) ensures TripsOn(c, s2.core, p, {}, q, j) {
      QueuedCommits(c, net, s2, p);
      VotesUncovered(c, net, s2, p, q[..j]);
    }
  }

  ghost predicate Repeated(q: seq<(Commit, Name)>) { exists j :: Again({}, q, j) }

  lemma MarkAfterPrepares(c: Config, net: Net, s: State, pp: PrePrepare)
    requires CanAccept(c, net, s, pp) && Uncovered(s.core, pp.ppSeqNo)
    ensures
      var k := AfterPrepares(c, s, pp);
      k.h < pp.ppSeqNo && Uncovered(k, pp.ppSeqNo)
  {
    hide Good, Says, DequeuePrepares;
    var p := pp.ppSeqNo;
    var s1 := RecordPrePrepare(s, pp);
    RecordPrePrepareOk(c, net, s, pp);
    MarkBelow(c, net, s);
    HeldInGood(c, net, s1, p);
    if p in s1.preparesWaiting {
      QueueNumbers(c, net, s1, p);
      DequeuePreparesMark(c, s1, p, s1.preparesWaiting[p]);
    }
  }

  lemma MarkBelow(c: Config, net: Net, s: State)
    requires Good(c, net, s)
    ensures s.core.h <= |s.admitted|
  {
    hide ContextOk, OrderOk, HeldOk, PreparesOk, CommitsOk, StashOk, CheckpointsOk, StashedCheckpointsOk, MessagesOk,
         BoxOk, OrderedBoxOk, AnnouncedOk, QueuesOk;
  }
}
