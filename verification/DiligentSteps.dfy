/** Every step of a replica leaves nothing undone and loses nothing that came. */
module DiligentSteps {
  import opened Messages
  import opened ReplicaSpec
  import opened ReplicaInvariant
  import opened ReplicaCoreProof
  import opened ReplicaProof
  import opened Acceptance
  import opened Diligence

  // ----- votes stay counted -----

  /** The votes for a number are still counted, or the number is below the low water mark. */
  ghost predicate CountedAt(s: State, s': State, p: nat) {
    || p <= s'.core.h
    || (Voters(s.core.prepares, p) <= Voters(s'.core.prepares, p)
        && Voters(s.core.commits, p) <= Voters(s'.core.commits, p))
  }

  ghost predicate Counts(s: State, s': State) {
    forall p: nat :: 1 <= p <= |s.admitted| ==> CountedAt(s, s', p)
  }

  /** What a step does that accepts no PRE-PREPARE: what is due is done, no PREPARE is sent, the backlog stays, and
      votes stay counted. */
  ghost predicate Works(c: Config, s: State, s': State) {
    Eager(c, s'.core) && Quiet(s.core, s'.core) && Counts(s, s')
  }

  lemma SameWorks(c: Config, s: State, s': State)
    requires Eager(c, s.core) && s'.core == s.core
    ensures Works(c, s, s')
  {
  }

  lemma CountsTrans(s0: State, s1: State, s2: State)
    requires Counts(s0, s1) && Counts(s1, s2) && s1.core.h <= s2.core.h && |s0.admitted| <= |s1.admitted|
    ensures Counts(s0, s2)
  {
    forall p: nat | 1 <= p <= |s0.admitted| ensures CountedAt(s0, s2, p) {
      assert CountedAt(s0, s1, p) && CountedAt(s1, s2, p);
    }
  }

  lemma WorksTrans(c: Config, net: Net, s0: State, s1: State, s2: State)
    requires Works(c, s0, s1) && Works(c, s1, s2) && GoodStep(c, net, s1, s2) && |s0.admitted| <= |s1.admitted|
    ensures Works(c, s0, s2)
  {
    hide Good, Eager, Quiet, Counts;
    QuietTrans(s0.core, s1.core, s2.core);
    CountsTrans(s0, s1, s2);
  }

  /** A number that is cleared in a reachable state is below the mark. */
  lemma ClearedIsBelow(c: Config, net: Net, s: State, p: nat)
    requires Good(c, net, s) && 1 <= p <= |s.admitted| && Cleared(s.core, p)
    ensures p <= s.core.h
  {
    hide Good;
    HeldInGood(c, net, s, p);
  }

  lemma GrewCounts(c: Config, net: Net, s: State, k: Core, s': State)
    requires Good(c, net, s') && s'.admitted == s.admitted && Grew(k, s'.core)
    requires forall p: nat ::
      Voters(s.core.prepares, p) <= Voters(k.prepares, p) && Voters(s.core.commits, p) <= Voters(k.commits, p)
    ensures Counts(s, s')
    ensures forall p: nat :: 1 <= p <= |s.admitted| ==>
      || p <= s'.core.h
      || (Voters(s'.core.prepares, p) == Voters(k.prepares, p) && Voters(k.commits, p) <= Voters(s'.core.commits, p))
  {
    hide Good;
    forall p: nat | 1 <= p <= |s.admitted|
      ensures CountedAt(s, s', p)
      ensures
        || p <= s'.core.h
        || (Voters(s'.core.prepares, p) == Voters(k.prepares, p) && Voters(k.commits, p) <= Voters(s'.core.commits, p))
    {
      assert GrewAt(k, s'.core, p);
      if Cleared(s'.core, p) {
        ClearedIsBelow(c, net, s', p);
      }
    }
  }

  /** The replica's own PREPARE is not added. */
  ghost predicate NoneOfIts(c: Config, s: State, s': State) {
    forall p: nat :: c.self !in Voters(s.core.prepares, p) ==> c.self !in Voters(s'.core.prepares, p)
  }

  lemma GrewNoneOfIts(c: Config, s: State, k: Core, s': State)
    requires Grew(k, s'.core)
    requires forall p: nat :: c.self !in Voters(s.core.prepares, p) ==> c.self !in Voters(k.prepares, p)
    ensures NoneOfIts(c, s, s')
  {
    forall p: nat | c.self !in Voters(s.core.prepares, p) ensures c.self !in Voters(s'.core.prepares, p) {
      assert GrewAt(k, s'.core, p);
    }
  }

  // ----- PREPARE -----

  /** A matching PREPARE of a backup for a batch that is held is counted, and one that does not match changes nothing.
      One of a backup for a batch to come waits at the end of its queue, unless the replica is the primary. One for a
      number below the low water mark changes nothing. */
  ghost predicate PrepareHeeded(c: Config, s: State, s': State, m: Prepare, w: Name) {
    var p := m.ppSeqNo;
    && (s.core.h < p <= |s.admitted| ==>
          if w != c.primary && m.cert == s.admitted[p - 1].cert
          then p <= s'.core.h || w in Voters(s'.core.prepares, p)
          else s' == s)
    && (p > |s.admitted| ==>
          s' == if w == c.primary || c.IsPrimary() then s
                else s.(preparesWaiting := s.preparesWaiting[p := Queue(s.preparesWaiting, p) + [(m, w)]]))
    && (s.core.h > 0 && p <= s.core.h ==> s' == s)
  }

  lemma ProcessPrepareWorks(c: Config, net: Net, s: State, m: Prepare, w: Name)
    requires Good(c, net, s) && PrepareWaitingOk(ContextOf(c, net, s), m.ppSeqNo, (m, w)) && Eager(c, s.core)
    ensures
      var s' := ProcessPrepare(c, s, m, w);
      && Works(c, s, s') && PrepareHeeded(c, s, s', m, w)
      && NoneOfIts(c, s, s')
  {
    hide CoreOk, AddToPrepares, PreparesWaitingOk, CommitsWaitingOk, PendingFinOk, PendingPrevOk, Eager, Quiet, Grew;
    var p := m.ppSeqNo;
    var s' := ProcessPrepare(c, s, m, w);
    HeldInGood(c, net, s, p);
    MarkIsBelow(c, net, s);
    if p > |s.admitted| {
      NothingYet(c, net, s, p);
    }
    StableIs(c, net, s, p);
    ProcessPrepareOk(c, net, s, m, w);
    if IsStable(s.core, p) || w == c.primary || w in Voters(s.core.prepares, p) || GetPrePrepare(s.core, p).None?
       || m.cert != s.admitted[p - 1].cert {
      SameWorks(c, s, s');
    } else {
      PrepareCounted(c, net, s, m, w);
    }
  }

  lemma MarkIsBelow(c: Config, net: Net, s: State)
    requires Good(c, net, s)
    ensures s.core.h <= |s.admitted|
  {
    hide ContextOk, OrderOk, HeldOk, PreparesOk, CommitsOk, StashOk, CheckpointsOk, StashedCheckpointsOk, MessagesOk,
         BoxOk, OrderedBoxOk, AnnouncedOk, QueuesOk;
  }

  lemma PrepareCounted(c: Config, net: Net, s: State, m: Prepare, w: Name)
    requires Good(c, net, s) && PrepareWaitingOk(ContextOf(c, net, s), m.ppSeqNo, (m, w)) && Eager(c, s.core)
    requires s.core.h < m.ppSeqNo <= |s.admitted| && m.cert == s.admitted[m.ppSeqNo - 1].cert && w != c.primary
    requires Good(c, net, s.(core := AddToPrepares(c, s.core, m.ppSeqNo, w)))
    ensures
      var s' := s.(core := AddToPrepares(c, s.core, m.ppSeqNo, w));
      && Works(c, s, s') && (m.ppSeqNo <= s'.core.h || w in Voters(s'.core.prepares, m.ppSeqNo))
      && NoneOfIts(c, s, s')
  {
    hide CoreOk, AddToPrepares, PreparesWaitingOk, CommitsWaitingOk, PendingFinOk, PendingPrevOk, Eager, Quiet, Grew,
         Counts;
    var x := ContextOf(c, net, s);
    var p := m.ppSeqNo;
    HeldInGood(c, net, s, p);
    assert m == PrepareFor(s.admitted[p - 1]);
    AddToPreparesEager(x, s.core, p, w);
    var k := s.core.(prepares := AddVote(s.core.prepares, p, w));
    GrewCounts(c, net, s, k, s.(core := AddToPrepares(c, s.core, p, w)));
    GrewNoneOfIts(c, s, k, s.(core := AddToPrepares(c, s.core, p, w)));
  }

  /** All PREPAREs of the queue are taken in, none of them the replica's own. */
  lemma {:induction false} DequeuePreparesWorks(c: Config, net: Net, s: State, p: nat, todo: seq<(Prepare, Name)>)
    requires Good(c, net, s) && (forall e :: e in todo ==> PrepareWaitingOk(ContextOf(c, net, s), p, e))
    requires Eager(c, s.core) && 1 <= p <= |s.admitted|
    ensures
      var s' := DequeuePrepares(c, s, p, todo);
      && Works(c, s, s')
      && NoneOfIts(c, s, s')
      && (p <= s'.core.h || forall e :: e in todo && Matches(c, s.admitted[p - 1].cert, e) ==>
            e.1 in Voters(s'.core.prepares, p))
    decreases |todo|
  {
    hide Good, ProcessPrepare, Eager, Quiet, Counts, PrepareWaitingOk;
    if todo == [] {
      SameWorks(c, s, DequeuePrepares(c, s, p, todo));
    } else {
      var s1 := s.(preparesWaiting := s.preparesWaiting[p := todo[1..]]);
      PoppedGood(c, net, s, p, todo);
      assert todo[0] in todo;
      PrepareEntryIs(ContextOf(c, net, s), p, todo[0]);
      ProcessPrepareWorks(c, net, s1, todo[0].0, todo[0].1);
      ProcessPrepareOk(c, net, s1, todo[0].0, todo[0].1);
      ProcessPrepareFrame(c, s1, todo[0].0, todo[0].1);
      var s2 := ProcessPrepare(c, s1, todo[0].0, todo[0].1);
      DequeuePreparesWorks(c, net, s2, p, todo[1..]);
      DequeuePreparesOk(c, net, s2, p, todo[1..]);
      var s' := DequeuePrepares(c, s, p, todo);
      SameWorks(c, s, s1);
      WorksTrans(c, net, s, s1, s2);
      WorksTrans(c, net, s, s2, s');
      FirstCounted(c, s, s1, s2, s', p, todo);
    }
  }

  lemma FirstCounted(c: Config, s: State, s1: State, s2: State, s': State, p: nat, todo: seq<(Prepare, Name)>)
    requires todo != [] && 1 <= p <= |s.admitted| && s1.admitted == s.admitted && s1.core == s.core
    requires s2.admitted == s.admitted && todo[0].0.ppSeqNo == p && s.core.h <= s2.core.h <= s'.core.h
    requires PrepareHeeded(c, s1, s2, todo[0].0, todo[0].1) && Counts(s2, s')
    requires p <= s'.core.h || forall e :: e in todo[1..] && Matches(c, s.admitted[p - 1].cert, e) ==>
               e.1 in Voters(s'.core.prepares, p)
    ensures p <= s'.core.h || forall e :: e in todo && Matches(c, s.admitted[p - 1].cert, e) ==>
              e.1 in Voters(s'.core.prepares, p)
  {
    assert CountedAt(s2, s', p);
    assert todo == [todo[0]] + todo[1..];
  }

  // ----- COMMIT -----

  /** A COMMIT for a batch that is held is counted if the batch has a PREPARE, and changes nothing if not. One for a
      batch to come waits at the end of its queue. One for a number below the low water mark changes nothing. */
  ghost predicate CommitHeeded(s: State, s': State, cm: Commit, w: Name) {
    var p := cm.ppSeqNo;
    && (s.core.h < p <= |s.admitted| ==>
          if p in s.core.prepares || p in s.preparesWaiting
          then p <= s'.core.h || w in Voters(s'.core.commits, p)
          else s' == s)
    && (p > |s.admitted| ==>
          s' == s.(commitsWaiting := s.commitsWaiting[p := Queue(s.commitsWaiting, p) + [(cm, w)]]))
    && (s.core.h > 0 && p <= s.core.h ==> s' == s)
  }

  /** A second COMMIT of one sender for a batch that is held and has a PREPARE ends in an exception, and nothing else.
      */
  ghost predicate CommitRaises(s: State, cm: Commit, w: Name) {
    var p := cm.ppSeqNo;
    && s.core.h < p <= |s.admitted| && (p in s.core.prepares || p in s.preparesWaiting)
    && w in Voters(s.core.commits, p)
  }

  lemma ProcessCommitWorks(c: Config, net: Net, s: State, cm: Commit, w: Name)
    requires Good(c, net, s) && CommitWaitingOk(ContextOf(c, net, s), cm.ppSeqNo, (cm, w)) && Eager(c, s.core)
    ensures
      var s' := ProcessCommit(c, s, cm, w).state;
      && Works(c, s, s') && CommitHeeded(s, s', cm, w)
      && (ProcessCommit(c, s, cm, w).raised <==> CommitRaises(s, cm, w))
      && NoneOfIts(c, s, s')
      && (forall p: nat :: 1 <= p <= |s.admitted| && p in s.core.prepares ==> p <= s'.core.h || p in s'.core.prepares)
  {
    hide CoreOk, AddToCommits, PreparesWaitingOk, CommitsWaitingOk, PendingFinOk, PendingPrevOk, Eager, Quiet;
    var p := cm.ppSeqNo;
    var s' := ProcessCommit(c, s, cm, w).state;
    HeldInGood(c, net, s, p);
    MarkIsBelow(c, net, s);
    StableIs(c, net, s, p);
    ProcessCommitOk(c, net, s, cm, w);
    if IsStable(s.core, p) || GetPrePrepare(s.core, p).None? || (p !in s.core.prepares && p !in s.preparesWaiting)
       || w in Voters(s.core.commits, p) {
      SameWorks(c, s, s');
    } else {
      CommitCounted(c, net, s, cm, w);
    }
  }

  lemma CommitCounted(c: Config, net: Net, s: State, cm: Commit, w: Name)
    requires Good(c, net, s) && CommitWaitingOk(ContextOf(c, net, s), cm.ppSeqNo, (cm, w)) && Eager(c, s.core)
    requires s.core.h < cm.ppSeqNo <= |s.admitted|
    requires Good(c, net, s.(core := AddToCommits(c, s.core, cm.ppSeqNo, w)))
    ensures
      var s' := s.(core := AddToCommits(c, s.core, cm.ppSeqNo, w));
      && Works(c, s, s') && (cm.ppSeqNo <= s'.core.h || w in Voters(s'.core.commits, cm.ppSeqNo))
      && NoneOfIts(c, s, s')
      && (forall p: nat :: 1 <= p <= |s.admitted| && p in s.core.prepares ==> p <= s'.core.h || p in s'.core.prepares)
  {
    hide CoreOk, AddToCommits, PreparesWaitingOk, CommitsWaitingOk, PendingFinOk, PendingPrevOk, Eager, Quiet, Grew,
         Counts, Kept;
    var x := ContextOf(c, net, s);
    var p := cm.ppSeqNo;
    var k := s.core.(commits := AddVote(s.core.commits, p, w));
    var s' := s.(core := AddToCommits(c, s.core, p, w));
    assert cm == Commit(c.viewNo, p);
    AddToCommitsEager(x, s.core, p, w);
    KeptGrew(k, k, s'.core);
    GrewCounts(c, net, s, k, s');
    GrewNoneOfIts(c, s, k, s');
    forall q: nat | 1 <= q <= |s.admitted| && q in s.core.prepares ensures q <= s'.core.h || q in s'.core.prepares {
      GrewHas(k, s'.core, q);
      if Cleared(s'.core, q) {
        ClearedIsBelow(c, net, s', q);
      }
    }
  }

  lemma GrewHas(k: Core, k': Core, p: nat)
    requires Grew(k, k') && p in k.prepares
    ensures Cleared(k', p) || p in k'.prepares
  {
    assert GrewAt(k, k', p);
  }

  /** All COMMITs of the queue are counted, if the batch has a PREPARE and no exception ends the loop. */
  lemma {:induction false} DequeueCommitsWorks(c: Config, net: Net, s: State, p: nat, todo: seq<(Commit, Name)>)
    requires Good(c, net, s) && (forall e :: e in todo ==> CommitWaitingOk(ContextOf(c, net, s), p, e))
    requires Eager(c, s.core) && 1 <= p <= |s.admitted|
    ensures
      var r := DequeueCommits(c, s, p, todo);
      && Works(c, s, r.state)
      && NoneOfIts(c, s, r.state)
      && (p in s.core.prepares && !r.raised ==>
            p <= r.state.core.h || forall e :: e in todo ==> e.1 in Voters(r.state.core.commits, p))
    decreases |todo|
  {
    hide Good, ProcessCommit, Eager, Quiet, Counts, CommitWaitingOk;
    if todo == [] {
      SameWorks(c, s, DequeueCommits(c, s, p, todo).state);
    } else {
      var s1 := s.(commitsWaiting := s.commitsWaiting[p := todo[1..]]);
      CommitPoppedGood(c, net, s, p, todo);
      assert todo[0] in todo;
      CommitEntryIs(ContextOf(c, net, s), p, todo[0]);
      ProcessCommitWorks(c, net, s1, todo[0].0, todo[0].1);
      ProcessCommitOk(c, net, s1, todo[0].0, todo[0].1);
      ProcessCommitFrame(c, s1, todo[0].0, todo[0].1);
      var r := ProcessCommit(c, s1, todo[0].0, todo[0].1);
      SameWorks(c, s, s1);
      WorksTrans(c, net, s, s1, r.state);
      if !r.raised {
        DequeueCommitsWorks(c, net, r.state, p, todo[1..]);
        DequeueCommitsOk(c, net, r.state, p, todo[1..]);
        var r' := DequeueCommits(c, r.state, p, todo[1..]);
        WorksTrans(c, net, s, r.state, r'.state);
        if p in s.core.prepares && !r'.raised {
          FirstCommitCounted(c, s1, r.state, r'.state, p, todo);
        }
      }
    }
  }

  lemma FirstCommitCounted(c: Config, s: State, s1: State, s': State, p: nat, todo: seq<(Commit, Name)>)
    requires todo != [] && 1 <= p <= |s.admitted| == |s1.admitted| && p in s.core.prepares
    requires todo[0].0.ppSeqNo == p && s.core.h <= s1.core.h <= s'.core.h
    requires CommitHeeded(s, s1, todo[0].0, todo[0].1) && Counts(s1, s')
    requires p <= s1.core.h || p in s1.core.prepares
    requires p in s1.core.prepares ==>
      p <= s'.core.h || forall e :: e in todo[1..] ==> e.1 in Voters(s'.core.commits, p)
    ensures p <= s'.core.h || forall e :: e in todo ==> e.1 in Voters(s'.core.commits, p)
  {
    assert CountedAt(s1, s', p);
    assert todo == [todo[0]] + todo[1..];
  }

  lemma CommitPoppedGood(c: Config, net: Net, s: State, p: nat, todo: seq<(Commit, Name)>)
    requires Good(c, net, s) && todo != []
    requires forall e :: e in todo ==> CommitWaitingOk(ContextOf(c, net, s), p, e)
    ensures Good(c, net, s.(commitsWaiting := s.commitsWaiting[p := todo[1..]]))
  {
    hide CoreOk, CommitsWaitingOk, PendingFinOk, PendingPrevOk, PreparesWaitingOk, CommitWaitingOk;
    CommitsQueued(ContextOf(c, net, s), s.commitsWaiting, p, todo[1..]);
    CommitsPopped(c, net, s, s.commitsWaiting[p := todo[1..]]);
  }

  // ----- PRE-PREPARE -----

  lemma CommitNosBelow(c: Config, net: Net, s: State, p: nat)
    requires Good(c, net, s) && p in CommitNos(s.core.outBox)
    ensures p <= |s.admitted|
  {
    hide ContextOk, OrderOk, HeldOk, PreparesOk, CommitsOk, StashOk, CheckpointsOk, StashedCheckpointsOk, MessagesOk,
         OrderedBoxOk, AnnouncedOk, QueuesOk;
    var x := ContextOf(c, net, s);
    forall m | m in s.core.outBox && m.OutThreePhase? && m.msg.CommitMsg? ensures m.msg.commit.viewNo == c.viewNo {
      assert MessageOk(x, |s.core.ordered|, s.core.outBox, m);
    }
    CommitNosAre(s.core.outBox, c.viewNo, p);
    assert MessageOk(x, |s.core.ordered|, s.core.outBox, OutThreePhase(CommitMsg(Commit(c.viewNo, p))));
  }

  lemma RecordWorks(c: Config, net: Net, s: State, pp: PrePrepare)
    requires Good(c, net, s) && Eager(c, s.core) && pp.ppSeqNo == |s.admitted| + 1
    ensures
      var s' := RecordPrePrepare(s, pp);
      Works(c, s, s') && c.self !in Voters(s'.core.prepares, pp.ppSeqNo)
  {
    hide Good, OwnMsgs, CommitNos;
    var s' := RecordPrePrepare(s, pp);
    NothingYet(c, net, s, pp.ppSeqNo);
    forall p: nat ensures CommitsDone(c, s'.core, p) && OrdersDone(c, s'.core, p) {
      assert CommitsDone(c, s.core, p) && OrdersDone(c, s.core, p);
    }
    forall p | p in CommitNos(s'.core.outBox) && GetPrePrepare(s'.core, p).Some?
      ensures c.self in Voters(s'.core.commits, p)
    {
      CommitNosBelow(c, net, s, p);
    }
  }

  lemma TakePreparesWorks(c: Config, net: Net, s: State, p: nat)
    requires Good(c, net, s) && Eager(c, s.core) && 1 <= p <= |s.admitted|
    ensures
      var s' := TakePrepares(c, s, p);
      && Works(c, s, s') && NoneOfIts(c, s, s')
      && (p <= s'.core.h || forall e :: e in Queue(s.preparesWaiting, p) && Matches(c, s.admitted[p - 1].cert, e) ==>
            e.1 in Voters(s'.core.prepares, p))
  {
    hide Good, DequeuePrepares, Works, PrepareWaitingOk, Eager;
    SameWorks(c, s, s);
    if p in s.preparesWaiting {
      QueuedPrepares(c, net, s, p);
      DequeuePreparesWorks(c, net, s, p, s.preparesWaiting[p]);
    }
  }

  lemma TakeCommitsWorks(c: Config, net: Net, s: State, p: nat)
    requires Good(c, net, s) && Eager(c, s.core) && 1 <= p <= |s.admitted|
    ensures
      var r := TakeCommits(c, s, p);
      && Works(c, s, r.state) && NoneOfIts(c, s, r.state)
      && (p in s.core.prepares && !r.raised ==>
            || p <= r.state.core.h
            || forall e :: e in Queue(s.commitsWaiting, p) ==> e.1 in Voters(r.state.core.commits, p))
  {
    hide Good, DequeueCommits, Works, CommitWaitingOk, Eager;
    SameWorks(c, s, s);
    if p in s.commitsWaiting {
      QueuedCommits(c, net, s, p);
      DequeueCommitsWorks(c, net, s, p, s.commitsWaiting[p]);
    }
  }

  /** Everything that waited for the batch is counted now, if no exception came: the matching PREPAREs, the replica's
      own PREPARE, and, if there was a PREPARE, the COMMITs. */
  ghost predicate AllHeeded(c: Config, s: State, pp: PrePrepare, k: Core) {
    var p := pp.ppSeqNo;
    && c.self in Voters(k.prepares, p)
    && (forall e :: e in Queue(s.preparesWaiting, p) && Matches(c, pp.cert, e) ==> e.1 in Voters(k.prepares, p))
    && (PrepareWaits(c, s, pp) ==> forall e :: e in Queue(s.commitsWaiting, p) ==> e.1 in Voters(k.commits, p))
  }

  /** Accepting a batch: the PREPARE goes out exactly if no exception comes, and then all that waited is counted. */
  lemma AcceptWorks(c: Config, net: Net, s: State, pp: PrePrepare)
    requires CanAccept(c, net, s, pp) && Eager(c, s.core)
    ensures
      var r := AddToPrePrepares(c, s, pp);
      && Eager(c, r.state.core) && Backlog(r.state.core) == Backlog(s.core) && Counts(s, r.state)
      && OwnMsgs(r.state.core.outBox)
         == OwnMsgs(s.core.outBox) + (if r.raised then [] else [PrepareMsg(PrepareFor(pp))])
      && (r.raised || pp.ppSeqNo <= r.state.core.h || AllHeeded(c, s, pp, r.state.core))
  {
    hide Good, Says, TakePrepares, TakeCommits, TryPrepare, Eager, Counts, OwnMsgs, Backlog, AnyMatches, Matches;
    var p := pp.ppSeqNo;
    var s1 := RecordPrePrepare(s, pp);
    RecordPrePrepareOk(c, net, s, pp);
    RecordWorks(c, net, s, pp);
    var s2 := TakePrepares(c, s1, p);
    TakePreparesOk(c, net, s1, p);
    TakePreparesWorks(c, net, s1, p);
    PreparesTakenIn(c, net, s, pp);
    var r := TakeCommits(c, s2, p);
    TakeCommitsOk(c, net, s2, p);
    TakeCommitsWorks(c, net, s2, p);
    WorksTrans(c, net, s, s1, s2);
    WorksTrans(c, net, s, s2, r.state);
    if !r.raised {
      StableIs(c, net, s2, p);
      OwnPrepare(c, net, s, pp, s2, r.state);
    }
  }

  /** The last part of accepting a batch: the own PREPARE. */
  lemma OwnPrepare(c: Config, net: Net, s: State, pp: PrePrepare, s2: State, s3: State)
    requires CanAccept(c, net, s, pp) && Good(c, net, s2) && GoodStep(c, net, s2, s3) && Works(c, s, s3)
    requires s3.admitted == s2.admitted == s.admitted + [pp] && s2.commitsWaiting == s.commitsWaiting
    requires c.self !in Voters(s3.core.prepares, pp.ppSeqNo) && Counts(s2, s3)
    requires pp.ppSeqNo <= s2.core.h || forall e ::
      e in Queue(s.preparesWaiting, pp.ppSeqNo) && Matches(c, pp.cert, e) ==>
        e.1 in Voters(s2.core.prepares, pp.ppSeqNo)
    requires pp.ppSeqNo <= s2.core.h || (pp.ppSeqNo in s2.core.prepares <==> PrepareWaits(c, s, pp))
    requires pp.ppSeqNo in s2.core.prepares ==> pp.ppSeqNo <= s3.core.h || forall e ::
      e in Queue(s2.commitsWaiting, pp.ppSeqNo) ==> e.1 in Voters(s3.core.commits, pp.ppSeqNo)
    ensures
      var k := TryPrepare(c, s3.core, pp);
      && Eager(c, k) && Backlog(k) == Backlog(s.core) && Counts(s, s3.(core := k))
      && OwnMsgs(k.outBox) == OwnMsgs(s.core.outBox) + [PrepareMsg(PrepareFor(pp))]
      && (pp.ppSeqNo <= k.h || AllHeeded(c, s, pp, k))
  {
    hide CoreOk, QueuesOk, Says, TryPrepare, Eager, OwnMsgs, Backlog, Grew, AnyMatches, Matches, Counts;
    var p := pp.ppSeqNo;
    var x := ContextOf(c, net, s3);
    assert s3.admitted[p - 1] == pp;
    TryPrepareEager(x, s3.core, p);
    TryPrepareStep(c, net, s3, p);
    var k1 := s3.core.(prepares := AddVote(s3.core.prepares, p, c.self));
    var s4 := s3.(core := TryPrepare(c, s3.core, pp));
    GrewCounts(c, net, s3, k1, s4);
    CountsTrans(s, s3, s4);
    CountsAt(s2, s3, p);
  }

  lemma CountsAt(s: State, s': State, p: nat)
    requires Counts(s, s') && 1 <= p <= |s.admitted|
    ensures CountedAt(s, s', p)
  {
  }

  /** What becomes of a PRE-PREPARE. From anyone but the primary, at the primary itself, or with a number that is held
      it is refused. Otherwise it waits for the requests that are not final, or, when its turn has not come, for those
      before it; it is refused if it is not valid, and accepted as the next one if it is. */
  lemma PrePrepareFate(c: Config, net: Net, s: State, env: Env, pp: PrePrepare, w: Name)
    requires Good(c, net, s)
    ensures
      var r := ProcessPrePrepare(c, s, env, pp, w);
      var p, missing := pp.ppSeqNo, set k | k in pp.reqIdr && k !in env.finalised;
      if w != c.primary || c.self == c.primary || s.core.h < p <= |s.admitted| then r == Outcome(s, true)
      else if missing != {} then
        r == Outcome(s.(pendingFin := s.pendingFin + [PendingFin(pp, w, missing)]), false)
      else if p != |s.admitted| + 1 then
        && !r.raised && r.state == s.(pendingPrev := r.state.pendingPrev)
        && SortedPending(r.state.pendingPrev) && PendingPrev(pp, w) in r.state.pendingPrev
        && (forall e :: e in r.state.pendingPrev && e.pp.ppSeqNo != p <==> e in s.pendingPrev && e.pp.ppSeqNo != p)
      else if !env.valid(pp) then r == Outcome(s, true)
      else r.state.admitted == s.admitted + [pp] && (r.raised <==> AddToPrePrepares(c, s, pp).raised)
  {
    hide Good, AddToPrePrepares, IsNext;
    HeldInGood(c, net, s, pp.ppSeqNo);
    if !c.IsPrimary() {
      BackupHolds(c, net, s, pp.ppSeqNo);
    }
    NextIs(c, net, s, pp.ppSeqNo);
    AddToPrePreparesFrame(c, s, pp);
    QueueIsSorted(c, net, s);
    PutPendingIs(s.pendingPrev, PendingPrev(pp, w));
  }

  lemma QueueIsSorted(c: Config, net: Net, s: State)
    requires Good(c, net, s)
    ensures SortedPending(s.pendingPrev)
  {
    hide CoreOk, PreparesWaitingOk, CommitsWaitingOk, SaysMsg, PendingFinOk;
  }

  lemma BackupHolds(c: Config, net: Net, s: State, p: nat)
    requires Good(c, net, s) && !c.IsPrimary()
    ensures p in s.core.prePrepares <==> s.core.h < p <= |s.admitted|
  {
    hide ContextOk, OrderOk, PreparesOk, CommitsOk, StashOk, CheckpointsOk, StashedCheckpointsOk, MessagesOk, BoxOk,
         OrderedBoxOk, AnnouncedOk, QueuesOk;
  }

  // ----- every step -----

  /** What is sent in the first two phases is PREPAREs, in order, for batches accepted on the way, and counted. */
  ghost predicate AnswersOnly(c: Config, s: State, s': State) {
    var own, own' := OwnMsgs(s.core.outBox), OwnMsgs(s'.core.outBox);
    && own <= own'
    && (forall i :: |own| <= i < |own'| ==> own'[i].PrepareMsg? && |s.admitted| < own'[i].PpSeqNo() <= |s'.admitted|)
    && (forall i, j :: |own| <= i < j < |own'| ==> own'[i].PpSeqNo() < own'[j].PpSeqNo())
    && (forall i :: |own| <= i < |own'| ==> OwnCounted(c, s', own'[i].PpSeqNo()))
  }

  /** The replica's own PREPARE for a number is counted, or the number is below the low water mark. */
  ghost predicate OwnCounted(c: Config, s: State, p: nat) {
    p <= s.core.h || c.self in Voters(s.core.prepares, p)
  }

  /** What an operation of a backup does: what is due is done, only batches accepted on the way are answered, the
      backlog stays, and votes stay counted. */
  ghost predicate Advances(c: Config, s: State, s': State) {
    Eager(c, s'.core) && Counts(s, s') && Backlog(s'.core) == Backlog(s.core) && AnswersOnly(c, s, s')
  }

  lemma WorksAdvances(c: Config, s: State, s': State)
    requires Works(c, s, s') && |s.admitted| <= |s'.admitted|
    ensures Advances(c, s, s')
  {
    hide Eager, Counts, OwnMsgs, Backlog;
  }

  lemma AdvancesTrans(c: Config, net: Net, s0: State, s1: State, s2: State)
    requires Advances(c, s0, s1) && Advances(c, s1, s2) && GoodStep(c, net, s1, s2) && |s0.admitted| <= |s1.admitted|
    ensures Advances(c, s0, s2)
  {
    hide Good, Eager, Counts, OwnMsgs, Backlog;
    CountsTrans(s0, s1, s2);
    var own, own1, own2 := OwnMsgs(s0.core.outBox), OwnMsgs(s1.core.outBox), OwnMsgs(s2.core.outBox);
    forall i | |own| <= i < |own2| ensures OwnCounted(c, s2, own2[i].PpSeqNo()) {
      if i < |own1| {
        assert own2[i] == own1[i];
        CountsAt(s1, s2, own1[i].PpSeqNo());
      }
    }
  }

  lemma AcceptAdvances(c: Config, net: Net, s: State, pp: PrePrepare)
    requires CanAccept(c, net, s, pp) && Eager(c, s.core)
    ensures Advances(c, s, AddToPrePrepares(c, s, pp).state)
  {
    hide Good, Eager, Counts, OwnMsgs, Backlog, AddToPrePrepares;
    AcceptWorks(c, net, s, pp);
    AddToPrePreparesFrame(c, s, pp);
  }

  lemma ProcessPrePrepareAdvances(c: Config, net: Net, s: State, env: Env, pp: PrePrepare, w: Name)
    requires Good(c, net, s) && SaysMsg(ContextOf(c, net, s), PrePrepareMsg(pp), w) && pp.viewNo == c.viewNo
    requires Eager(c, s.core)
    ensures Advances(c, s, ProcessPrePrepare(c, s, env, pp, w).state)
  {
    hide Good, AddToPrePrepares, IsNext, Advances, Works, Eager;
    NextIs(c, net, s, pp.ppSeqNo);
    var s' := ProcessPrePrepare(c, s, env, pp, w).state;
    if w == c.primary && !c.IsPrimary() && pp.ppSeqNo !in s.core.prePrepares && NonFinalised(env, pp) == {} &&
       IsNext(s.core, pp.ppSeqNo) && env.valid(pp) {
      AcceptAdvances(c, net, s, pp);
    } else {
      SameWorks(c, s, s');
      WorksAdvances(c, s, s');
    }
  }

  lemma {:induction false} DrainAdvances(c: Config, net: Net, s: State, env: Env)
    requires Good(c, net, s) && Eager(c, s.core)
    ensures Advances(c, s, DrainPending(c, s, env).state)
    decreases |s.pendingPrev|
  {
    hide CoreOk, ProcessPrePrepare, IsNext, PreparesWaitingOk, CommitsWaitingOk, SaysMsg, Eager, Works, Counts, Backlog,
         AnswersOnly;
    SameWorks(c, s, s);
    WorksAdvances(c, s, s);
    if s.pendingPrev != [] && IsNext(s.core, s.pendingPrev[0].pp.ppSeqNo) {
      var e := s.pendingPrev[0];
      var s1 := s.(pendingPrev := s.pendingPrev[1..]);
      assert e in s.pendingPrev;
      PendingChanged(c, net, s, s.pendingFin, s.pendingPrev[1..]);
      SameWorks(c, s, s1);
      WorksAdvances(c, s, s1);
      if e.pp.viewNo != c.viewNo {
        DrainAdvances(c, net, s1, env);
        DrainPendingOk(c, net, s1, env);
        AdvancesTrans(c, net, s, s1, DrainPending(c, s1, env).state);
      } else {
        var r := ProcessPrePrepare(c, s1, env, e.pp, e.sender);
        ProcessPrePrepareOk(c, net, s1, env, e.pp, e.sender);
        ProcessPrePrepareAdvances(c, net, s1, env, e.pp, e.sender);
        PendingAfter(c, s1, env, e.pp, e.sender);
        AdvancesTrans(c, net, s, s1, r.state);
        if !r.raised {
          DrainAdvances(c, net, r.state, env);
          DrainPendingOk(c, net, r.state, env);
          AdvancesTrans(c, net, s, r.state, DrainPending(c, r.state, env).state);
        }
      }
    }
  }

  lemma ServiceAdvances(c: Config, net: Net, s: State, env: Env)
    requires Good(c, net, s) && Eager(c, s.core)
    ensures Advances(c, s, DequeuePrePrepares(c, s, env).state)
  {
    hide CoreOk, DrainPending, PreparesWaitingOk, CommitsWaitingOk, PendingFinOk, PendingPrevOk, Eager, Works, Advances;
    var (fin, prev) := ReleaseFinalised(env, s.pendingFin, s.pendingPrev);
    ReleaseFinalisedOk(ContextOf(c, net, s), env, s.pendingFin, s.pendingPrev);
    PendingChanged(c, net, s, fin, prev);
    var s1 := s.(pendingFin := fin, pendingPrev := prev);
    SameWorks(c, s, s1);
    WorksAdvances(c, s, s1);
    DrainAdvances(c, net, s1, env);
    DrainPendingOk(c, net, s1, env);
    AdvancesTrans(c, net, s, s1, DrainPending(c, s1, env).state);
  }

  lemma RouteAdvances(c: Config, net: Net, s: State, env: Env, m: ThreePhaseMsg, w: Name)
    requires Good(c, net, s) && SaysMsg(ContextOf(c, net, s), m, w) && m.ViewNo() == c.viewNo && Eager(c, s.core)
    ensures Advances(c, s, Route(c, s, env, m, w))
  {
    hide Good, ProcessPrePrepare, ProcessPrepare, ProcessCommit, Eager, Works, Advances;
    match m
    case PrePrepareMsg(pp) => ProcessPrePrepareAdvances(c, net, s, env, pp, w);
    case PrepareMsg(p) =>
      ProcessPrepareWorks(c, net, s, p, w);
      ProcessPrepareFrame(c, s, p, w);
      WorksAdvances(c, s, ProcessPrepare(c, s, p, w));
    case CommitMsg(cm) =>
      ProcessCommitWorks(c, net, s, cm, w);
      ProcessCommitFrame(c, s, cm, w);
      WorksAdvances(c, s, ProcessCommit(c, s, cm, w).state);
  }

  /** The number is too high for the water marks, or 0 when they are still where they began. */
  predicate IsOutside(c: Config, s: State, m: ThreePhaseMsg) {
    m.PpSeqNo() > s.core.h + c.logSize || (s.core.h == 0 && m.PpSeqNo() == 0)
  }

  /** As `Advances`, with the message at the end of the backlog if it is outside the water marks. */
  ghost predicate Receives(c: Config, s: State, s': State, m: ThreePhaseMsg, w: Name) {
    && Eager(c, s'.core) && Counts(s, s') && AnswersOnly(c, s, s')
    && Backlog(s'.core) == Backlog(s.core) + if IsOutside(c, s, m) then [(m, w)] else []
  }

  lemma DispatchReceives(c: Config, net: Net, s: State, env: Env, m: ThreePhaseMsg, w: Name)
    requires Good(c, net, s) && SaysMsg(ContextOf(c, net, s), m, w) && Eager(c, s.core)
    ensures Receives(c, s, Dispatch(c, s, env, m, w), m, w)
  {
    hide Good, Route, Eager, Works, Counts, AnswersOnly, IsStable, SaysMsg;
    StableIs(c, net, s, m.PpSeqNo());
    var s' := Dispatch(c, s, env, m, w);
    if !IsStable(s.core, m.PpSeqNo()) && BetweenWaterMarks(c, s.core, m.PpSeqNo()) && m.ViewNo() == c.viewNo {
      RouteAdvances(c, net, s, env, m, w);
      assert Backlog(s.core) + [] == Backlog(s.core);
    } else if IsOutside(c, s, m) {
      OutsideEager(c, s.core, s.core.replay, s.core.outside + [(m, w)]);
      OutsideWorks(c, s, s.core.replay, s.core.outside + [(m, w)]);
      assert s.core.replay + (s.core.outside + [(m, w)]) == s.core.replay + s.core.outside + [(m, w)];
    } else {
      SameWorks(c, s, s);
      WorksAdvances(c, s, s);
      assert Backlog(s.core) + [] == Backlog(s.core);
    }
  }

  lemma OutsideEager(c: Config, k: Core, replay: seq<(ThreePhaseMsg, Name)>, outside: seq<(ThreePhaseMsg, Name)>)
    requires Eager(c, k)
    ensures Eager(c, k.(replay := replay, outside := outside))
  {
    hide CommitNos;
    var k' := k.(replay := replay, outside := outside);
    forall p: nat ensures CommitsDone(c, k', p) && OrdersDone(c, k', p) {
      assert CommitsDone(c, k, p) && OrdersDone(c, k, p);
    }
  }

  lemma OutsideWorks(c: Config, s: State, replay: seq<(ThreePhaseMsg, Name)>, outside: seq<(ThreePhaseMsg, Name)>)
    ensures
      var s' := s.(core := s.core.(replay := replay, outside := outside));
      Counts(s, s') && AnswersOnly(c, s, s')
  {
    hide OwnMsgs;
  }

  // ----- what has been sent -----

  /** A primary has sent the PRE-PREPAREs of all batches it numbered, in order, and nothing else in the first two
      phases; a backup has sent PREPAREs for batches it accepted, in order, no number twice, and counts them. */
  ghost predicate OwnOk(c: Config, s: State) {
    var own := OwnMsgs(s.core.outBox);
    if c.IsPrimary() then
      |own| == |s.admitted| && forall i :: 0 <= i < |own| ==> own[i] == PrePrepareMsg(s.admitted[i])
    else
      && (forall i :: 0 <= i < |own| ==> own[i].PrepareMsg? && own[i].PpSeqNo() <= |s.admitted|)
      && (forall i, j :: 0 <= i < j < |own| ==> own[i].PpSeqNo() < own[j].PpSeqNo())
      && (forall i :: 0 <= i < |own| ==> own[i].PpSeqNo() >= 1 && OwnCounted(c, s, own[i].PpSeqNo()))
  }

  ghost predicate Diligent(c: Config, s: State) { Eager(c, s.core) && OwnOk(c, s) }

  lemma AnswersOwnOk(c: Config, s: State, s': State)
    requires OwnOk(c, s) && AnswersOnly(c, s, s') && |s.admitted| <= |s'.admitted| && Counts(s, s')
    requires s.core.h <= s'.core.h
    requires c.IsPrimary() ==> s'.admitted == s.admitted
    ensures OwnOk(c, s')
  {
    hide OwnMsgs, Counts;
    var own, own' := OwnMsgs(s.core.outBox), OwnMsgs(s'.core.outBox);
    assert forall i :: 0 <= i < |own| ==> own'[i] == own[i];
    forall i | 0 <= i < |own| && !c.IsPrimary() ensures OwnCounted(c, s', own'[i].PpSeqNo()) {
      CountsAt(s, s', own[i].PpSeqNo());
    }
    assert |own| < |own'| ==> |s.admitted| < own'[|own|].PpSeqNo() <= |s'.admitted|;
  }

  lemma SendBatchDiligent(c: Config, net: Net, s: State, body: PrePrepare)
    requires Good(c, net, s) && Diligent(c, s) && c.IsPrimary()
    ensures
      var s' := SendBatch(c, s, body);
      Diligent(c, s') && Counts(s, s') && Backlog(s'.core) == Backlog(s.core)
  {
    hide Good, OwnMsgs, CommitNos;
    var p := s.lastPrePrepare + 1;
    var pp := body.(viewNo := c.viewNo, ppSeqNo := p);
    var s' := SendBatch(c, s, body);
    SentOneMore(s.core.outBox, OutThreePhase(PrePrepareMsg(pp)));
    NumberIsNext(c, net, s);
    NothingYet(c, net, s, p);
    forall q: nat ensures CommitsDone(c, s'.core, q) && OrdersDone(c, s'.core, q) {
      assert CommitsDone(c, s.core, q) && OrdersDone(c, s.core, q);
    }
    forall q | q in CommitNos(s'.core.outBox) && GetPrePrepare(s'.core, q).Some?
      ensures c.self in Voters(s'.core.commits, q)
    {
      CommitNosBelow(c, net, s, q);
    }
  }

  lemma NumberIsNext(c: Config, net: Net, s: State)
    requires Good(c, net, s)
    ensures s.lastPrePrepare == |s.admitted|
  {
  }

  /** What a step does to the backlog: a message outside the water marks goes to its end, a replayed one is taken from
      its front, and nothing else changes. */
  ghost predicate BacklogMoves(c: Config, s: State, e: Event, s': State) {
    var before, after := Backlog(s.core), Backlog(s'.core);
    match e
    case Deliver(m, w, env) => after == before + if IsOutside(c, s, m) then [(m, w)] else []
    case Replay(env) =>
      if s.core.replay == [] then after == before
      else before != [] && after == before[1..] + if IsOutside(c, s, before[0].0) then [before[0]] else []
    case _ => after == before
  }

  lemma ReplayStep(c: Config, net: Net, s: State, env: Env)
    requires Good(c, net, s) && Diligent(c, s) && s.core.replay != []
    ensures
      var s' := Step(c, s, Replay(env));
      Eager(c, s'.core) && Counts(s, s') && AnswersOnly(c, s, s') && BacklogMoves(c, s, Replay(env), s')
  {
    hide Good, Dispatch, Eager, Counts, AnswersOnly, OwnOk;
    var e := s.core.replay[0];
    var s1 := s.(core := s.core.(replay := s.core.replay[1..]));
    ReplayPopsGood(c, net, s);
    OutsideEager(c, s.core, s.core.replay[1..], s.core.outside);
    OutsideWorks(c, s, s.core.replay[1..], s.core.outside);
    DispatchReceives(c, net, s1, env, e.0, e.1);
    DispatchOk(c, net, s1, env, e.0, e.1);
    var s' := Dispatch(c, s1, env, e.0, e.1);
    CountsTrans(s, s1, s');
    AnswersFrom(c, s, s1, s');
    assert Backlog(s.core)[1..] == Backlog(s1.core);
  }

  lemma AnswersFrom(c: Config, s: State, s1: State, s': State)
    requires s1.core.outBox == s.core.outBox && s1.admitted == s.admitted && AnswersOnly(c, s1, s')
    ensures AnswersOnly(c, s, s')
  {
    hide OwnMsgs;
  }

  lemma ReplayPopsGood(c: Config, net: Net, s: State)
    requires Good(c, net, s) && s.core.replay != []
    ensures
      var s1 := s.(core := s.core.(replay := s.core.replay[1..]));
      Good(c, net, s1) && SaysMsg(ContextOf(c, net, s1), s.core.replay[0].0, s.core.replay[0].1)
  {
    hide ContextOk, OrderOk, HeldOk, PreparesOk, CommitsOk, StashOk, CheckpointsOk, StashedCheckpointsOk, BoxOk,
         OrderedBoxOk, AnnouncedOk, QueuesOk, SaysMsg;
    var e := s.core.replay[0];
    assert e in s.core.replay;
    OutsideOk(c, net, s, s.core.outside, s.core.replay[1..]);
    var s1 := s.(core := s.core.(replay := s.core.replay[1..]));
    assert s1 == s.(core := s.core.(outside := s.core.outside, replay := s.core.replay[1..]));
  }

  lemma CoreWorks(c: Config, net: Net, s: State, k: Core)
    requires Eager(c, k) && Quiet(s.core, k) && Good(c, net, s.(core := k)) && Grew(s.core, k)
    ensures Works(c, s, s.(core := k))
  {
    hide Good, Eager, Quiet, Grew;
    GrewCounts(c, net, s, s.core, s.(core := k));
  }

  lemma CheckpointWorks(c: Config, net: Net, s: State, ck: Checkpoint, w: Name)
    requires Good(c, net, s) && Eager(c, s.core)
    requires SaysCheckpoint(ContextOf(c, net, s), ck.seqNoStart, ck.seqNoEnd, ck.digest, w)
    ensures Works(c, s, Step(c, s, DeliverCheckpoint(ck, w)))
  {
    hide CoreOk, QueuesOk, SaysCheckpoint, ProcessCheckpoint, Eager, Quiet, Still, Kept, Grew, Works;
    var k := ProcessCheckpoint(c, s.core, ck.seqNoStart, ck.seqNoEnd, ck.digest, w);
    ProcessCheckpointOk(ContextOf(c, net, s), s.core, ck.seqNoStart, ck.seqNoEnd, ck.digest, w);
    NewCoreOk(c, net, s, k);
    CheckpointStill(c, s.core, ck.seqNoStart, ck.seqNoEnd, ck.digest, w);
    StillEager(c, s.core, k);
    StillIsQuiet(s.core, k);
    StillKeeps(s.core, k);
    KeptGrew(s.core, s.core, k);
    CoreWorks(c, net, s, k);
  }

  lemma TickWorks(c: Config, net: Net, s: State)
    requires Good(c, net, s) && Eager(c, s.core)
    ensures
      var s' := Step(c, s, Tick);
      Works(c, s, s') && (OrderDue(c, s.core, |s.core.ordered| + 1) ==> |s'.core.ordered| > |s.core.ordered|)
  {
    hide CoreOk, QueuesOk, ProcessStashedCommits, Eager, Quiet, Kept, Grew, Works, Greedy;
    var k := ProcessStashedCommits(c, s.core);
    ProcessStashedCommitsOk(ContextOf(c, net, s), s.core);
    NewCoreOk(c, net, s, k);
    PassOrders(ContextOf(c, net, s), s.core);
    KeptGrew(s.core, s.core, k);
    CoreWorks(c, net, s, k);
  }

  /** Every step of a replica: nothing that is due is left undone, votes stay counted, only batches that the step
      accepts or makes are answered or announced, and no message is lost from the backlog. */
  lemma StepIsDiligent(c: Config, net: Net, s: State, e: Event)
    requires Good(c, net, s) && Legal(ContextOf(c, net, s), e) && Diligent(c, s)
    ensures
      var s' := Step(c, s, e);
      && Diligent(c, s') && Counts(s, s') && BacklogMoves(c, s, e, s')
      && (AnswersOnly(c, s, s') || (e.Batch? && c.IsPrimary()))
  {
    hide Good, Eager, Counts, AnswersOnly, SaysMsg, SaysCheckpoint, Dispatch, DequeuePrePrepares, ProcessCheckpoint,
         ProcessStashedCommits, SendBatch, OwnOk, Works, Backlog;
    var s' := Step(c, s, e);
    StepOk(c, net, s, e);
    if e.Batch? && c.IsPrimary() {
      SendBatchDiligent(c, net, s, e.body);
    } else {
      match e {
        case Deliver(m, w, env) => DispatchReceives(c, net, s, env, m, w);
        case DeliverCheckpoint(ck, w) =>
          CheckpointWorks(c, net, s, ck, w);
          WorksAdvances(c, s, s');
        case Service(env) => ServiceAdvances(c, net, s, env);
        case Batch(body) =>
          SameWorks(c, s, s');
          WorksAdvances(c, s, s');
        case Tick =>
          TickWorks(c, net, s);
          WorksAdvances(c, s, s');
        case Replay(env) =>
          if s.core.replay == [] {
            SameWorks(c, s, s');
            WorksAdvances(c, s, s');
          } else {
            ReplayStep(c, net, s, env);
          }
      }
      if c.IsPrimary() {
        PrimaryAccepts(c, net, s, e);
      }
      AnswersOwnOk(c, s, s');
    }
  }

  /** A primary accepts nothing: what it numbers it makes itself. */
  lemma PrimaryAccepts(c: Config, net: Net, s: State, e: Event)
    requires Good(c, net, s) && Legal(ContextOf(c, net, s), e) && c.IsPrimary() && !e.Batch?
    ensures Step(c, s, e).admitted == s.admitted
  {
    hide Good, ProcessPrepare, ProcessCommit, IsStable, DrainPending, ProcessCheckpoint, ProcessStashedCommits, SaysMsg,
         SaysCheckpoint;
    match e
    case Deliver(m, w, env) => PrimaryDispatches(c, s, env, m, w);
    case Service(env) =>
      var (fin, prev) := ReleaseFinalised(env, s.pendingFin, s.pendingPrev);
      PrimaryDrains(c, s.(pendingFin := fin, pendingPrev := prev), env);
    case Replay(env) =>
      if s.core.replay != [] {
        PrimaryDispatches(c, s.(core := s.core.(replay := s.core.replay[1..])), env, s.core.replay[0].0,
                          s.core.replay[0].1);
      }
    case _ =>
  }

  lemma PrimaryDispatches(c: Config, s: State, env: Env, m: ThreePhaseMsg, w: Name)
    requires c.IsPrimary()
    ensures Dispatch(c, s, env, m, w).admitted == s.admitted
  {
    hide ProcessPrepare, ProcessCommit, IsStable;
    match m
    case PrePrepareMsg(pp) =>
    case PrepareMsg(p) => ProcessPrepareFrame(c, s, p, w);
    case CommitMsg(cm) => ProcessCommitFrame(c, s, cm, w);
  }

  lemma {:induction false} PrimaryDrains(c: Config, s: State, env: Env)
    requires c.IsPrimary()
    ensures DrainPending(c, s, env).state.admitted == s.admitted
    decreases |s.pendingPrev|
  {
    hide IsNext;
    if s.pendingPrev != [] && IsNext(s.core, s.pendingPrev[0].pp.ppSeqNo) && s.pendingPrev[0].pp.viewNo != c.viewNo {
      PrimaryDrains(c, s.(pendingPrev := s.pendingPrev[1..]), env);
    }
  }

  lemma InitDiligent(c: Config)
    ensures Diligent(c, Init)
  {
  }
}
