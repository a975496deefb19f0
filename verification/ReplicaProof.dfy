/** Every step of a replica keeps the invariant, and what the invariant gives about one replica:
    batches are ordered 1, 2, 3, ... without gap or repeat, the low water mark never falls and
    nothing below it is kept. */
module ReplicaProof {
  import opened Messages
  import opened ReplicaSpec
  import opened ReplicaInvariant
  import opened ReplicaCoreProof

  // ----- the invariant survives more messages in the pool and more accepted PRE-PREPAREs -----

  ghost predicate NetGrows(net: Net, net': Net) {
    net'.nodes == net.nodes && net'.faulty == net.faulty &&
    forall w :: w in net.boxes ==> w in net'.boxes && net.boxes[w] <= net'.boxes[w]
  }

  ghost predicate Grows(x: Context, x': Context) {
    x'.c == x.c && x.admitted <= x'.admitted && NetGrows(x.net, x'.net)
  }

  lemma SaysGrows(net: Net, net': Net, w: Name, m: Out)
    requires NetGrows(net, net') && Says(net, w, m)
    ensures Says(net', w, m)
  {
  }

  lemma BacksGrows(x: Context, x': Context, box: seq<Out>, w: Name, m: Out)
    requires Grows(x, x') && Backs(x, box, w, m)
    ensures Backs(x', box, w, m)
  {
    if w != x.c.self {
      SaysGrows(x.net, x'.net, w, m);
    }
  }

  lemma BacksPrepareGrows(x: Context, x': Context, box: seq<Out>, p: nat, w: Name)
    requires Grows(x, x') && BacksPrepare(x, box, p, w)
    ensures BacksPrepare(x', box, p, w)
  {
    BacksGrows(x, x', box, w, OutThreePhase(PrepareMsg(PrepareFor(x.admitted[p - 1]))));
  }

  lemma BacksCommitGrows(x: Context, x': Context, box: seq<Out>, p: nat, w: Name)
    requires Grows(x, x') && BacksCommit(x, box, p, w)
    ensures BacksCommit(x', box, p, w)
  {
    BacksGrows(x, x', box, w, OutThreePhase(CommitMsg(Commit(x.c.viewNo, p))));
  }

  lemma VotesGrow(x: Context, x': Context, k: Core)
    requires Grows(x, x') && PreparesOk(x, k.h, k.outBox, k.prepares) && CommitsOk(x, k.h, k.outBox, k.commits)
    ensures PreparesOk(x', k.h, k.outBox, k.prepares) && CommitsOk(x', k.h, k.outBox, k.commits)
  {
    hide BacksPrepare, BacksCommit;
    forall p, w | p in k.prepares && w in k.prepares[p] ensures BacksPrepare(x', k.outBox, p, w) {
      BacksPrepareGrows(x, x', k.outBox, p, w);
    }
    forall p, w | p in k.commits && w in k.commits[p] ensures BacksCommit(x', k.outBox, p, w) {
      BacksCommitGrows(x, x', k.outBox, p, w);
    }
  }

  lemma CertificatesGrow(x: Context, x': Context, box: seq<Out>, p: nat)
    requires Grows(x, x')
    ensures Prepared(x, box, p) ==> Prepared(x', box, p)
    ensures Committed(x, box, p) ==> Committed(x', box, p)
  {
    hide BacksPrepare, BacksCommit;
    if Prepared(x, box, p) {
      var q :| PrepareQuorum(x, box, p, q);
      forall w | w in q ensures BacksPrepare(x', box, p, w) {
        BacksPrepareGrows(x, x', box, p, w);
      }
      assert PrepareQuorum(x', box, p, q);
    }
    if Committed(x, box, p) {
      var q :| CommitQuorum(x, box, p, q);
      forall w | w in q ensures BacksCommit(x', box, p, w) {
        BacksCommitGrows(x, x', box, p, w);
      }
      assert CommitQuorum(x', box, p, q);
    }
  }

  lemma DigestsOfPrefix(a: seq<PrePrepare>, b: seq<PrePrepare>, start: nat, end: nat)
    requires a <= b && 1 <= start <= end + 1 && end <= |a|
    ensures Digests(a, start, end) == Digests(b, start, end)
  {
  }

  lemma MessageGrows(x: Context, x': Context, n: nat, box: seq<Out>, m: Out)
    requires Grows(x, x') && MessageOk(x, n, box, m)
    ensures MessageOk(x', n, box, m)
  {
    hide Prepared, Committed;
    match m
    case OutThreePhase(CommitMsg(cm)) => CertificatesGrow(x, x', box, cm.ppSeqNo);
    case OutOrdered(o) => CertificatesGrow(x, x', box, o.ppSeqNo);
    case OutCheckpoint(ck) => DigestsOfPrefix(x.admitted, x'.admitted, ck.seqNoStart, ck.seqNoEnd);
    case _ =>
  }

  lemma BoxOkGrows(x: Context, x': Context, n: nat, box: seq<Out>)
    requires Grows(x, x') && BoxOk(x, n, box) && OrderedBoxOk(x, n, box)
    ensures BoxOk(x', n, box) && OrderedBoxOk(x', n, box)
  {
    forall m | m in box ensures MessageOk(x', n, box, m) {
      MessageGrows(x, x', n, box, m);
    }
  }

  lemma AnnouncedGrows(x: Context, x': Context, n: nat, box: seq<Out>)
    requires Grows(x, x') && AnnouncedOk(x, n, box)
    ensures AnnouncedOk(x', n, box)
  {
    var sent := CheckpointMsgs(box);
    forall i | 0 <= i < |sent| ensures AnnouncementIs(x', n, sent[i]) {
      assert AnnouncementIs(x, n, sent[i]);
      DigestsOfPrefix(x.admitted, x'.admitted, sent[i].seqNoStart, sent[i].seqNoEnd);
    }
  }

  lemma CheckpointGrows(x: Context, x': Context, n: nat, ck: CheckpointState)
    requires Grows(x, x') && CheckpointOk(x, n, ck)
    ensures CheckpointOk(x', n, ck)
  {
    hide Says;
    forall w | w in ck.received
      ensures Says(x'.net, w, OutCheckpoint(Checkpoint(x.c.viewNo, ck.start, ck.end, ck.received[w])))
    {
      SaysGrows(x.net, x'.net, w, OutCheckpoint(Checkpoint(x.c.viewNo, ck.start, ck.end, ck.received[w])));
    }
    DigestsOfPrefix(x.admitted, x'.admitted, ck.start, if ck.end <= n then ck.end else n);
  }

  lemma CheckpointsGrow(x: Context, x': Context, h: nat, n: nat, cks: seq<CheckpointState>)
    requires Grows(x, x') && CheckpointsOk(x, h, n, cks)
    ensures CheckpointsOk(x', h, n, cks)
  {
    hide CheckpointOk;
    forall i | 0 <= i < |cks| ensures CheckpointOk(x', n, cks[i]) {
      CheckpointGrows(x, x', n, cks[i]);
    }
  }

  lemma SaysMsgGrows(x: Context, x': Context, m: ThreePhaseMsg, w: Name)
    requires Grows(x, x') && SaysMsg(x, m, w)
    ensures SaysMsg(x', m, w)
  {
    SaysGrows(x.net, x'.net, w, OutThreePhase(m));
  }

  lemma StashesGrow(x: Context, x': Context, k: Core)
    requires Grows(x, x')
    requires StashedCheckpointsOk(x, k.stashedCheckpoints) && MessagesOk(x, k.outside) && MessagesOk(x, k.replay)
    ensures StashedCheckpointsOk(x', k.stashedCheckpoints) && MessagesOk(x', k.outside) && MessagesOk(x', k.replay)
  {
    hide Says, SaysMsg;
    forall key, e | key in k.stashedCheckpoints && e in k.stashedCheckpoints[key]
      ensures SaysCheckpoint(x', key.0, key.1, e.1, e.0)
    {
      assert SaysCheckpoint(x, key.0, key.1, e.1, e.0);
      SaysGrows(x.net, x'.net, e.0, OutCheckpoint(Checkpoint(x.c.viewNo, key.0, key.1, e.1)));
    }
    forall e | e in k.outside + k.replay ensures SaysMsg(x', e.0, e.1) {
      SaysMsgGrows(x, x', e.0, e.1);
    }
  }

  /** `sent` and `received` are the PRE-PREPARE stores after the change of context. */
  lemma CoreGrows(x: Context, x': Context, k: Core, n: nat, sent: map<nat, PrePrepare>, received: map<nat, PrePrepare>)
    requires CoreOkAt(x, k, n) && Grows(x, x') && ContextOk(x') && HeldOk(x', k.h, sent, received)
    ensures CoreOkAt(x', k.(sentPrePrepares := sent, prePrepares := received), n)
  {
    hide ContextOk, OrderOk, HeldOk, PreparesOk, CommitsOk, StashOk, CheckpointsOk, StashedCheckpointsOk, MessagesOk,
         BoxOk, OrderedBoxOk, AnnouncedOk;
    VotesGrow(x, x', k);
    BoxOkGrows(x, x', |k.ordered|, k.outBox);
    AnnouncedGrows(x, x', n, k.outBox);
    CheckpointsGrow(x, x', k.h, n, k.checkpoints);
    StashesGrow(x, x', k);
  }

  lemma ContextOkGrows(x: Context, net': Net)
    requires ContextOk(x) && NetGrows(x.net, net')
    ensures ContextOk(x.(net := net'))
  {
    hide Says;
    var x' := x.(net := net');
    forall i | 0 <= i < |x.admitted| ensures AdmittedOk(x', i) {
      assert AdmittedOk(x, i);
      if !x.c.IsPrimary() {
        SaysGrows(x.net, net', x.c.primary, OutThreePhase(PrePrepareMsg(x.admitted[i])));
      }
    }
  }

  lemma QueuesGrow(x: Context, x': Context, s: State)
    requires Grows(x, x') && QueuesOk(x, s)
    ensures QueuesOk(x', s)
  {
    hide SaysMsg;
    forall p, e | p in s.preparesWaiting && e in s.preparesWaiting[p] ensures PrepareWaitingOk(x', p, e) {
      assert PrepareWaitingOk(x, p, e);
      SaysMsgGrows(x, x', PrepareMsg(e.0), e.1);
    }
    forall p, e | p in s.commitsWaiting && e in s.commitsWaiting[p] ensures CommitWaitingOk(x', p, e) {
      assert CommitWaitingOk(x, p, e);
      SaysMsgGrows(x, x', CommitMsg(e.0), e.1);
    }
    forall e | e in s.pendingFin ensures SaysMsg(x', PrePrepareMsg(e.pp), e.sender) {
      SaysMsgGrows(x, x', PrePrepareMsg(e.pp), e.sender);
    }
    forall e | e in s.pendingPrev ensures SaysMsg(x', PrePrepareMsg(e.pp), e.sender) {
      SaysMsgGrows(x, x', PrePrepareMsg(e.pp), e.sender);
    }
  }

  /** A replica that did nothing is still fine when others have said more. */
  lemma GoodGrows(c: Config, net: Net, net': Net, s: State)
    requires Good(c, net, s) && NetGrows(net, net')
    ensures Good(c, net', s)
  {
    hide ContextOk, OrderOk, PreparesOk, CommitsOk, StashOk, CheckpointsOk, StashedCheckpointsOk, MessagesOk, BoxOk,
         OrderedBoxOk, AnnouncedOk, QueuesOk;
    var x, x' := ContextOf(c, net, s), ContextOf(c, net', s);
    ContextOkGrows(x, net');
    QueuesGrow(x, x', s);
    CoreGrows(x, x', s.core, |s.core.ordered|, s.core.sentPrePrepares, s.core.prePrepares);
  }

  // ----- PREPARE -----

  ghost predicate GoodStep(c: Config, net: Net, s: State, s': State) {
    Good(c, net, s') && Extends(s.core, s'.core) && s.admitted <= s'.admitted
  }

  lemma GoodStepTransitive(c: Config, net: Net, s0: State, s1: State, s2: State)
    requires GoodStep(c, net, s0, s1) && GoodStep(c, net, s1, s2)
    ensures GoodStep(c, net, s0, s2)
  {
    hide Good;
  }

  lemma NewCoreOk(c: Config, net: Net, s: State, k: Core)
    requires Good(c, net, s) && Keeps(ContextOf(c, net, s), s.core, k)
    ensures GoodStep(c, net, s, s.(core := k))
  {
    hide CoreOk, PreparesWaitingOk, CommitsWaitingOk, PendingFinOk, PendingPrevOk;
  }

  /** A PRE-PREPARE is there exactly for the numbers between the low water mark and the last one accepted. */
  lemma HeldInGood(c: Config, net: Net, s: State, p: nat)
    requires Good(c, net, s)
    ensures GetPrePrepare(s.core, p).Some? <==> s.core.h < p <= |s.admitted|
    ensures s.core.h < p <= |s.admitted| ==>
      GetPrePrepare(s.core, p) == Some(s.admitted[p - 1]) && s.admitted[p - 1].ppSeqNo == p &&
      s.admitted[p - 1].viewNo == c.viewNo
  {
    var x := ContextOf(c, net, s);
    HeldIs(x, s.core, p);
    if s.core.h < p <= |s.admitted| {
      assert AdmittedOk(x, p - 1);
    }
  }

  lemma PreparesQueued(x: Context, waiting: map<nat, seq<(Prepare, Name)>>, p: nat, todo: seq<(Prepare, Name)>)
    requires PreparesWaitingOk(x, waiting) && forall e :: e in todo ==> PrepareWaitingOk(x, p, e)
    ensures PreparesWaitingOk(x, waiting[p := todo]) && PreparesWaitingOk(x, waiting - {p})
  {
  }

  lemma ProcessPrepareOk(c: Config, net: Net, s: State, m: Prepare, w: Name)
    requires Good(c, net, s) && PrepareWaitingOk(ContextOf(c, net, s), m.ppSeqNo, (m, w))
    ensures GoodStep(c, net, s, ProcessPrepare(c, s, m, w))
    ensures s.core.h < m.ppSeqNo <= |s.admitted| || IsStable(s.core, m.ppSeqNo) ==>
      ProcessPrepare(c, s, m, w).preparesWaiting == s.preparesWaiting
  {
    hide CoreOk, AddToPrepares, PreparesWaitingOk, CommitsWaitingOk, PendingFinOk, PendingPrevOk;
    var x := ContextOf(c, net, s);
    var p := m.ppSeqNo;
    HeldInGood(c, net, s, p);
    var r := ProcessPrepare(c, s, m, w);
    if r == s {
    } else if GetPrePrepare(s.core, p).None? {
      PreparesQueuedMore(x, s.preparesWaiting, p, (m, w));
    } else {
      assert m == PrepareFor(s.admitted[p - 1]);
      AddToPreparesOk(x, s.core, p, w);
      NewCoreOk(c, net, s, AddToPrepares(c, s.core, p, w));
    }
  }

  lemma PreparesQueuedMore(x: Context, waiting: map<nat, seq<(Prepare, Name)>>, p: nat, e: (Prepare, Name))
    requires PreparesWaitingOk(x, waiting) && PrepareWaitingOk(x, p, e)
    ensures PreparesWaitingOk(x, Append(waiting, p, e))
  {
  }

  lemma PreparesPopped(c: Config, net: Net, s: State, waiting: map<nat, seq<(Prepare, Name)>>)
    requires Good(c, net, s) && PreparesWaitingOk(ContextOf(c, net, s), waiting)
    ensures GoodStep(c, net, s, s.(preparesWaiting := waiting))
  {
    hide CoreOk, PreparesWaitingOk, CommitsWaitingOk, PendingFinOk, PendingPrevOk;
  }

  lemma {:induction false} DequeuePreparesOk(c: Config, net: Net, s: State, p: nat, todo: seq<(Prepare, Name)>)
    requires Good(c, net, s) && forall e :: e in todo ==> PrepareWaitingOk(ContextOf(c, net, s), p, e)
    ensures GoodStep(c, net, s, DequeuePrepares(c, s, p, todo))
    decreases |todo|
  {
    hide CoreOk, CommitsWaitingOk, PendingFinOk, PendingPrevOk, PreparesWaitingOk, PrepareWaitingOk;
    var x := ContextOf(c, net, s);
    if todo == [] {
      PreparesQueued(x, s.preparesWaiting, p, todo);
      PreparesPopped(c, net, s, s.preparesWaiting - {p});
    } else {
      PreparesQueued(x, s.preparesWaiting, p, todo[1..]);
      PreparesPopped(c, net, s, s.preparesWaiting[p := todo[1..]]);
      var s1 := s.(preparesWaiting := s.preparesWaiting[p := todo[1..]]);
      assert todo[0] in todo;
      PrepareEntryIs(x, p, todo[0]);
      ProcessPrepareOk(c, net, s1, todo[0].0, todo[0].1);
      var s2 := ProcessPrepare(c, s1, todo[0].0, todo[0].1);
      ProcessPrepareFrame(c, s1, todo[0].0, todo[0].1);
      hide ProcessPrepare, Good;
      DequeuePreparesOk(c, net, s2, p, todo[1..]);
      GoodStepTransitive(c, net, s, s1, s2);
      GoodStepTransitive(c, net, s, s2, DequeuePrepares(c, s, p, todo));
    }
  }

  lemma PrepareEntryIs(x: Context, p: nat, e: (Prepare, Name))
    requires PrepareWaitingOk(x, p, e)
    ensures e.0.ppSeqNo == p && (e.0, e.1) == e
  {
  }

  lemma ProcessPrepareFrame(c: Config, s: State, m: Prepare, w: Name)
    ensures
      var r := ProcessPrepare(c, s, m, w);
      r == s.(core := r.core, preparesWaiting := r.preparesWaiting)
  {
  }

  // ----- COMMIT -----

  lemma CommitsQueued(x: Context, waiting: map<nat, seq<(Commit, Name)>>, p: nat, todo: seq<(Commit, Name)>)
    requires CommitsWaitingOk(x, waiting) && forall e :: e in todo ==> CommitWaitingOk(x, p, e)
    ensures CommitsWaitingOk(x, waiting[p := todo]) && CommitsWaitingOk(x, waiting - {p})
  {
  }

  lemma CommitsQueuedMore(x: Context, waiting: map<nat, seq<(Commit, Name)>>, p: nat, e: (Commit, Name))
    requires CommitsWaitingOk(x, waiting) && CommitWaitingOk(x, p, e)
    ensures CommitsWaitingOk(x, Append(waiting, p, e))
  {
  }

  lemma CommitsPopped(c: Config, net: Net, s: State, waiting: map<nat, seq<(Commit, Name)>>)
    requires Good(c, net, s) && CommitsWaitingOk(ContextOf(c, net, s), waiting)
    ensures GoodStep(c, net, s, s.(commitsWaiting := waiting))
  {
    hide CoreOk, PreparesWaitingOk, CommitsWaitingOk, PendingFinOk, PendingPrevOk;
  }

  lemma ProcessCommitOk(c: Config, net: Net, s: State, cm: Commit, w: Name)
    requires Good(c, net, s) && CommitWaitingOk(ContextOf(c, net, s), cm.ppSeqNo, (cm, w))
    ensures GoodStep(c, net, s, ProcessCommit(c, s, cm, w).state)
  {
    hide CoreOk, AddToCommits, PreparesWaitingOk, CommitsWaitingOk, PendingFinOk, PendingPrevOk;
    var x := ContextOf(c, net, s);
    var p := cm.ppSeqNo;
    HeldInGood(c, net, s, p);
    var r := ProcessCommit(c, s, cm, w).state;
    if r == s {
    } else if GetPrePrepare(s.core, p).None? {
      CommitsQueuedMore(x, s.commitsWaiting, p, (cm, w));
      CommitsPopped(c, net, s, r.commitsWaiting);
    } else {
      assert cm == Commit(c.viewNo, p);
      AddToCommitsOk(x, s.core, p, w);
      NewCoreOk(c, net, s, AddToCommits(c, s.core, p, w));
    }
  }

  lemma ProcessCommitFrame(c: Config, s: State, cm: Commit, w: Name)
    ensures
      var r := ProcessCommit(c, s, cm, w).state;
      r == s.(core := r.core, commitsWaiting := r.commitsWaiting)
  {
  }

  lemma CommitEntryIs(x: Context, p: nat, e: (Commit, Name))
    requires CommitWaitingOk(x, p, e)
    ensures e.0.ppSeqNo == p && (e.0, e.1) == e
  {
  }

  lemma {:induction false} DequeueCommitsOk(c: Config, net: Net, s: State, p: nat, todo: seq<(Commit, Name)>)
    requires Good(c, net, s) && forall e :: e in todo ==> CommitWaitingOk(ContextOf(c, net, s), p, e)
    ensures GoodStep(c, net, s, DequeueCommits(c, s, p, todo).state)
    decreases |todo|
  {
    hide CoreOk, CommitsWaitingOk, PendingFinOk, PendingPrevOk, PreparesWaitingOk, CommitWaitingOk;
    var x := ContextOf(c, net, s);
    if todo == [] {
      CommitsQueued(x, s.commitsWaiting, p, todo);
      CommitsPopped(c, net, s, s.commitsWaiting - {p});
    } else {
      CommitsQueued(x, s.commitsWaiting, p, todo[1..]);
      CommitsPopped(c, net, s, s.commitsWaiting[p := todo[1..]]);
      var s1 := s.(commitsWaiting := s.commitsWaiting[p := todo[1..]]);
      assert todo[0] in todo;
      CommitEntryIs(x, p, todo[0]);
      ProcessCommitOk(c, net, s1, todo[0].0, todo[0].1);
      var r := ProcessCommit(c, s1, todo[0].0, todo[0].1);
      ProcessCommitFrame(c, s1, todo[0].0, todo[0].1);
      hide ProcessCommit, Good;
      GoodStepTransitive(c, net, s, s1, r.state);
      if !r.raised {
        DequeueCommitsOk(c, net, r.state, p, todo[1..]);
        GoodStepTransitive(c, net, s, r.state, DequeueCommits(c, s, p, todo).state);
      }
    }
  }

  // ----- PRE-PREPARE -----

  /** The replica waits for exactly one number: the one after the last PRE-PREPARE it accepted. */
  lemma NextIs(c: Config, net: Net, s: State, p: nat)
    requires Good(c, net, s)
    ensures IsNext(s.core, p) <==> p == |s.admitted| + 1
  {
    hide ContextOk, PreparesOk, CommitsOk, StashOk, CheckpointsOk, StashedCheckpointsOk, MessagesOk, BoxOk,
         OrderedBoxOk, AnnouncedOk, QueuesOk;
    var x := ContextOf(c, net, s);
    var k := s.core;
    var keys := k.sentPrePrepares.Keys + k.prePrepares.Keys;
    forall q: nat ensures q in keys <==> k.h < q <= |s.admitted| {
      HeldIs(x, k, q);
    }
    if |s.admitted| > k.h {
      assert |s.admitted| in keys;
      assert MaxKey(keys) == |s.admitted|;
    } else {
      assert keys == {};
    }
  }

  lemma AdmittedContextOk(x: Context, pp: PrePrepare)
    requires ContextOk(x) && pp.ppSeqNo == |x.admitted| + 1 && pp.viewNo == x.c.viewNo
    requires !x.c.IsPrimary() ==> Says(x.net, x.c.primary, OutThreePhase(PrePrepareMsg(pp)))
    ensures ContextOk(x.(admitted := x.admitted + [pp])) && Grows(x, x.(admitted := x.admitted + [pp]))
  {
    var x' := x.(admitted := x.admitted + [pp]);
    forall i | 0 <= i < |x'.admitted| ensures AdmittedOk(x', i) {
      if i < |x.admitted| {
        assert AdmittedOk(x, i);
      }
    }
  }

  lemma HeldAfterAdmission(x: Context, k: Core, pp: PrePrepare)
    requires HeldOk(x, k.h, k.sentPrePrepares, k.prePrepares) && k.h <= |x.admitted|
    requires pp.ppSeqNo == |x.admitted| + 1
    ensures
      var x' := x.(admitted := x.admitted + [pp]);
      if x.c.IsPrimary() then HeldOk(x', k.h, k.sentPrePrepares[pp.ppSeqNo := pp], k.prePrepares)
      else HeldOk(x', k.h, k.sentPrePrepares, k.prePrepares[pp.ppSeqNo := pp])
  {
  }

  lemma AdmitCoreOk(x: Context, k: Core, pp: PrePrepare)
    requires CoreOk(x, k) && pp.ppSeqNo == |x.admitted| + 1 && pp.viewNo == x.c.viewNo
    requires !x.c.IsPrimary() ==> Says(x.net, x.c.primary, OutThreePhase(PrePrepareMsg(pp)))
    ensures
      var x' := x.(admitted := x.admitted + [pp]);
      Grows(x, x') &&
      (if x.c.IsPrimary() then CoreOk(x', k.(sentPrePrepares := k.sentPrePrepares[pp.ppSeqNo := pp]))
       else CoreOk(x', k.(prePrepares := k.prePrepares[pp.ppSeqNo := pp])))
  {
    hide ContextOk, OrderOk, HeldOk, PreparesOk, CommitsOk, StashOk, CheckpointsOk, StashedCheckpointsOk, MessagesOk,
         BoxOk, OrderedBoxOk, AnnouncedOk, Says;
    AdmittedContextOk(x, pp);
    HeldAfterAdmission(x, k, pp);
    var x' := x.(admitted := x.admitted + [pp]);
    if x.c.IsPrimary() {
      CoreGrows(x, x', k, |k.ordered|, k.sentPrePrepares[pp.ppSeqNo := pp], k.prePrepares);
    } else {
      CoreGrows(x, x', k, |k.ordered|, k.sentPrePrepares, k.prePrepares[pp.ppSeqNo := pp]);
    }
  }

  lemma RecordPrePrepareOk(c: Config, net: Net, s: State, pp: PrePrepare)
    requires Good(c, net, s) && !c.IsPrimary() && pp.ppSeqNo == |s.admitted| + 1 && pp.viewNo == c.viewNo
    requires Says(net, c.primary, OutThreePhase(PrePrepareMsg(pp)))
    ensures GoodStep(c, net, s, RecordPrePrepare(s, pp))
  {
    hide CoreOk, Says, PreparesWaitingOk, CommitsWaitingOk, PendingFinOk, PendingPrevOk;
    var x := ContextOf(c, net, s);
    var x' := x.(admitted := x.admitted + [pp]);
    AdmitCoreOk(x, s.core, pp);
    QueuesGrow(x, x', s);
  }

  lemma TakePreparesOk(c: Config, net: Net, s: State, p: nat)
    requires Good(c, net, s)
    ensures GoodStep(c, net, s, TakePrepares(c, s, p)) && TakePrepares(c, s, p).admitted == s.admitted
  {
    hide CoreOk, CommitsWaitingOk, PendingFinOk, PendingPrevOk, PrepareWaitingOk;
    if p in s.preparesWaiting {
      DequeuePreparesOk(c, net, s, p, s.preparesWaiting[p]);
      DequeuePreparesFrame(c, s, p, s.preparesWaiting[p]);
    }
  }

  lemma TakeCommitsOk(c: Config, net: Net, s: State, p: nat)
    requires Good(c, net, s)
    ensures GoodStep(c, net, s, TakeCommits(c, s, p).state) && TakeCommits(c, s, p).state.admitted == s.admitted
  {
    hide CoreOk, PreparesWaitingOk, PendingFinOk, PendingPrevOk, CommitWaitingOk;
    if p in s.commitsWaiting {
      DequeueCommitsOk(c, net, s, p, s.commitsWaiting[p]);
      DequeueCommitsFrame(c, s, p, s.commitsWaiting[p]);
    }
  }

  lemma TryPrepareStep(c: Config, net: Net, s: State, p: nat)
    requires Good(c, net, s) && !c.IsPrimary() && 1 <= p <= |s.admitted|
    ensures GoodStep(c, net, s, s.(core := TryPrepare(c, s.core, s.admitted[p - 1])))
  {
    hide CoreOk, QueuesOk, TryPrepare;
    TryPrepareOk(ContextOf(c, net, s), s.core, p);
    NewCoreOk(c, net, s, TryPrepare(c, s.core, s.admitted[p - 1]));
  }

  lemma AddToPrePreparesOk(c: Config, net: Net, s: State, pp: PrePrepare)
    requires Good(c, net, s) && !c.IsPrimary() && pp.ppSeqNo == |s.admitted| + 1 && pp.viewNo == c.viewNo
    requires Says(net, c.primary, OutThreePhase(PrePrepareMsg(pp)))
    ensures GoodStep(c, net, s, AddToPrePrepares(c, s, pp).state)
  {
    hide Good, Says, TakePrepares, TakeCommits, TryPrepare, Extends;
    var p := pp.ppSeqNo;
    var s1 := RecordPrePrepare(s, pp);
    RecordPrePrepareOk(c, net, s, pp);
    var s2 := TakePrepares(c, s1, p);
    TakePreparesOk(c, net, s1, p);
    var r := TakeCommits(c, s2, p);
    TakeCommitsOk(c, net, s2, p);
    GoodStepTransitive(c, net, s, s1, s2);
    GoodStepTransitive(c, net, s, s2, r.state);
    if !r.raised {
      assert r.state.admitted[p - 1] == pp;
      TryPrepareStep(c, net, r.state, p);
      GoodStepTransitive(c, net, s, r.state, r.state.(core := TryPrepare(c, r.state.core, pp)));
    }
  }

  lemma {:induction false} PutPendingElements(pending: seq<PendingPrev>, e: PendingPrev)
    ensures e in PutPending(pending, e)
    ensures forall d :: d in PutPending(pending, e) ==> d == e || d in pending
    ensures forall d :: d in pending ==> d in PutPending(pending, e) || d.pp.ppSeqNo == e.pp.ppSeqNo
  {
    if pending != [] {
      assert pending == [pending[0]] + pending[1..];
      if pending[0].pp.ppSeqNo < e.pp.ppSeqNo {
        PutPendingElements(pending[1..], e);
      }
    }
  }

  lemma {:induction false} PutPendingSorted(pending: seq<PendingPrev>, e: PendingPrev)
    requires SortedPending(pending)
    ensures SortedPending(PutPending(pending, e))
  {
    if pending != [] && pending[0].pp.ppSeqNo < e.pp.ppSeqNo {
      var rest := PutPending(pending[1..], e);
      PutPendingSorted(pending[1..], e);
      PutPendingElements(pending[1..], e);
      forall i | 0 <= i < |rest| ensures pending[0].pp.ppSeqNo < rest[i].pp.ppSeqNo {
        assert rest[i] in rest;
      }
      SortedPendingCons(pending[0], rest);
    } else if pending != [] && pending[0].pp.ppSeqNo == e.pp.ppSeqNo {
      SortedPendingCons(e, pending[1..]);
    } else {
      SortedPendingCons(e, pending);
    }
  }

  lemma SortedPendingCons(e: PendingPrev, rest: seq<PendingPrev>)
    requires SortedPending(rest) && forall i :: 0 <= i < |rest| ==> e.pp.ppSeqNo < rest[i].pp.ppSeqNo
    ensures SortedPending([e] + rest)
  {
  }

  /** The sorted queue after an entry is put in: the entry replaces one with its number or is inserted. */
  lemma PutPendingIs(pending: seq<PendingPrev>, e: PendingPrev)
    requires SortedPending(pending)
    ensures SortedPending(PutPending(pending, e)) && e in PutPending(pending, e)
    ensures forall d :: d in PutPending(pending, e) ==> d == e || d in pending
    ensures forall d :: d in pending ==> d in PutPending(pending, e) || d.pp.ppSeqNo == e.pp.ppSeqNo
  {
    hide PutPending, SortedPending;
    PutPendingSorted(pending, e);
    PutPendingElements(pending, e);
  }

  lemma PutPendingOk(x: Context, pending: seq<PendingPrev>, e: PendingPrev)
    requires PendingPrevOk(x, pending) && SaysMsg(x, PrePrepareMsg(e.pp), e.sender)
    ensures PendingPrevOk(x, PutPending(pending, e))
  {
    hide SaysMsg, SortedPending;
    PutPendingIs(pending, e);
  }

  lemma PendingChanged(c: Config, net: Net, s: State, fin: seq<PendingFin>, prev: seq<PendingPrev>)
    requires Good(c, net, s)
    requires PendingFinOk(ContextOf(c, net, s), fin) && PendingPrevOk(ContextOf(c, net, s), prev)
    ensures GoodStep(c, net, s, s.(pendingFin := fin, pendingPrev := prev))
  {
    hide CoreOk, PreparesWaitingOk, CommitsWaitingOk, PendingFinOk, PendingPrevOk;
  }

  lemma ProcessPrePrepareOk(c: Config, net: Net, s: State, env: Env, pp: PrePrepare, w: Name)
    requires Good(c, net, s) && SaysMsg(ContextOf(c, net, s), PrePrepareMsg(pp), w) && pp.viewNo == c.viewNo
    ensures GoodStep(c, net, s, ProcessPrePrepare(c, s, env, pp, w).state)
  {
    hide CoreOk, AddToPrePrepares, IsNext, PreparesWaitingOk, CommitsWaitingOk;
    var x := ContextOf(c, net, s);
    var missing := NonFinalised(env, pp);
    NextIs(c, net, s, pp.ppSeqNo);
    if w != c.primary || c.IsPrimary() || pp.ppSeqNo in s.core.prePrepares {
    } else if missing != {} {
      PendingChanged(c, net, s, s.pendingFin + [PendingFin(pp, w, missing)], s.pendingPrev);
    } else if !IsNext(s.core, pp.ppSeqNo) {
      PutPendingOk(x, s.pendingPrev, PendingPrev(pp, w));
      PendingChanged(c, net, s, s.pendingFin, PutPending(s.pendingPrev, PendingPrev(pp, w)));
    } else if env.valid(pp) {
      AddToPrePreparesOk(c, net, s, pp);
    }
  }

  lemma {:induction false} ReleaseFinalisedOk(x: Context, env: Env, fin: seq<PendingFin>, prev: seq<PendingPrev>)
    requires PendingFinOk(x, fin) && PendingPrevOk(x, prev)
    ensures
      var (fin', prev') := ReleaseFinalised(env, fin, prev);
      PendingFinOk(x, fin') && PendingPrevOk(x, prev')
  {
    hide SaysMsg;
    if fin != [] {
      var n := |fin| - 1;
      var e := fin[n];
      assert e in fin;
      PutPendingOk(x, prev, PendingPrev(e.pp, e.sender));
      if e.missing - env.finalised == {} {
        ReleaseFinalisedOk(x, env, fin[..n], PutPending(prev, PendingPrev(e.pp, e.sender)));
      } else {
        ReleaseFinalisedOk(x, env, fin[..n], prev);
      }
    }
  }

  lemma {:induction false} DrainPendingOk(c: Config, net: Net, s: State, env: Env)
    requires Good(c, net, s)
    ensures GoodStep(c, net, s, DrainPending(c, s, env).state)
    decreases |s.pendingPrev|
  {
    hide CoreOk, ProcessPrePrepare, IsNext, PreparesWaitingOk, CommitsWaitingOk, SaysMsg;
    if s.pendingPrev != [] && IsNext(s.core, s.pendingPrev[0].pp.ppSeqNo) {
      var e := s.pendingPrev[0];
      var s1 := s.(pendingPrev := s.pendingPrev[1..]);
      assert e in s.pendingPrev;
      PendingChanged(c, net, s, s.pendingFin, s.pendingPrev[1..]);
      if e.pp.viewNo != c.viewNo {
        DrainPendingOk(c, net, s1, env);
        GoodStepTransitive(c, net, s, s1, DrainPending(c, s1, env).state);
      } else {
        var r := ProcessPrePrepare(c, s1, env, e.pp, e.sender);
        ProcessPrePrepareOk(c, net, s1, env, e.pp, e.sender);
        PendingAfter(c, s1, env, e.pp, e.sender);
        GoodStepTransitive(c, net, s, s1, r.state);
        if !r.raised {
          DrainPendingOk(c, net, r.state, env);
          GoodStepTransitive(c, net, s, r.state, DrainPending(c, r.state, env).state);
        }
      }
    }
  }

  lemma DequeuePrePreparesOk(c: Config, net: Net, s: State, env: Env)
    requires Good(c, net, s)
    ensures GoodStep(c, net, s, DequeuePrePrepares(c, s, env).state)
  {
    hide CoreOk, DrainPending, PreparesWaitingOk, CommitsWaitingOk, PendingFinOk, PendingPrevOk;
    var x := ContextOf(c, net, s);
    var (fin, prev) := ReleaseFinalised(env, s.pendingFin, s.pendingPrev);
    ReleaseFinalisedOk(x, env, s.pendingFin, s.pendingPrev);
    PendingChanged(c, net, s, fin, prev);
    var s1 := s.(pendingFin := fin, pendingPrev := prev);
    DrainPendingOk(c, net, s1, env);
    GoodStepTransitive(c, net, s, s1, DrainPending(c, s1, env).state);
  }

  // ----- steps -----

  lemma OutsideOk(c: Config, net: Net, s: State, outside: seq<(ThreePhaseMsg, Name)>,
                  replay: seq<(ThreePhaseMsg, Name)>)
    requires Good(c, net, s)
    requires MessagesOk(ContextOf(c, net, s), outside) && MessagesOk(ContextOf(c, net, s), replay)
    ensures GoodStep(c, net, s, s.(core := s.core.(outside := outside, replay := replay)))
  {
    hide ContextOk, OrderOk, HeldOk, PreparesOk, CommitsOk, StashOk, CheckpointsOk, StashedCheckpointsOk, MessagesOk,
         BoxOk, OrderedBoxOk, AnnouncedOk, QueuesOk;
    var k := s.core.(outside := outside, replay := replay);
    assert Keeps(ContextOf(c, net, s), s.core, k);
    NewCoreOk(c, net, s, k);
  }

  lemma RouteOk(c: Config, net: Net, s: State, env: Env, m: ThreePhaseMsg, w: Name)
    requires Good(c, net, s) && SaysMsg(ContextOf(c, net, s), m, w) && m.ViewNo() == c.viewNo
    ensures GoodStep(c, net, s, Route(c, s, env, m, w))
  {
    hide Good, SaysMsg, ProcessPrePrepare, ProcessPrepare, ProcessCommit;
    match m
    case PrePrepareMsg(pp) => ProcessPrePrepareOk(c, net, s, env, pp, w);
    case PrepareMsg(p) => ProcessPrepareOk(c, net, s, p, w);
    case CommitMsg(cm) => ProcessCommitOk(c, net, s, cm, w);
  }

  lemma DispatchOk(c: Config, net: Net, s: State, env: Env, m: ThreePhaseMsg, w: Name)
    requires Good(c, net, s) && SaysMsg(ContextOf(c, net, s), m, w)
    ensures GoodStep(c, net, s, Dispatch(c, s, env, m, w))
  {
    hide ContextOk, OrderOk, HeldOk, PreparesOk, CommitsOk, StashOk, CheckpointsOk, StashedCheckpointsOk, BoxOk,
         OrderedBoxOk, AnnouncedOk, QueuesOk, SaysMsg, Route;
    if IsStable(s.core, m.PpSeqNo()) {
    } else if BetweenWaterMarks(c, s.core, m.PpSeqNo()) {
      if m.ViewNo() == c.viewNo {
        RouteOk(c, net, s, env, m, w);
      }
    } else {
      OutsideOk(c, net, s, s.core.outside + [(m, w)], s.core.replay);
    }
  }

  lemma SendBatchOk(c: Config, net: Net, s: State, body: PrePrepare)
    requires Good(c, net, s) && c.IsPrimary()
    ensures GoodStep(c, net, s, SendBatch(c, s, body))
  {
    hide CoreOkAt, PreparesWaitingOk, CommitsWaitingOk, PendingFinOk, PendingPrevOk;
    var x := ContextOf(c, net, s);
    var p := s.lastPrePrepare + 1;
    var pp := body.(viewNo := c.viewNo, ppSeqNo := p);
    var x' := x.(admitted := x.admitted + [pp]);
    var k := s.core.(sentPrePrepares := s.core.sentPrePrepares[p := pp]);
    AdmitCoreOk(x, s.core, pp);
    QueuesGrow(x, x', s);
    SendOk(x', k, |k.ordered|, OutThreePhase(PrePrepareMsg(pp)));
  }

  /** What a step may deliver: a message that its sender, another node, has said. */
  predicate Legal(x: Context, e: Event) {
    match e
    case Deliver(m, w, env) => SaysMsg(x, m, w)
    case DeliverCheckpoint(ck, w) => SaysCheckpoint(x, ck.seqNoStart, ck.seqNoEnd, ck.digest, w)
    case _ => true
  }

  /** Every step keeps the invariant and takes nothing back, whatever messages arrive in whatever order. */
  lemma StepOk(c: Config, net: Net, s: State, e: Event)
    requires Good(c, net, s) && Legal(ContextOf(c, net, s), e)
    ensures GoodStep(c, net, s, Step(c, s, e))
  {
    hide CoreOk, SaysMsg, SaysCheckpoint, QueuesOk, Dispatch, ProcessCheckpoint, DequeuePrePrepares, SendBatch,
         ProcessStashedCommits;
    var x := ContextOf(c, net, s);
    match e
    case Deliver(m, w, env) => DispatchOk(c, net, s, env, m, w);
    case DeliverCheckpoint(ck, w) =>
      ProcessCheckpointOk(x, s.core, ck.seqNoStart, ck.seqNoEnd, ck.digest, w);
      NewCoreOk(c, net, s, ProcessCheckpoint(c, s.core, ck.seqNoStart, ck.seqNoEnd, ck.digest, w));
    case Service(env) => DequeuePrePreparesOk(c, net, s, env);
    case Batch(body) => if c.IsPrimary() { SendBatchOk(c, net, s, body); }
    case Tick =>
      ProcessStashedCommitsOk(x, s.core);
      NewCoreOk(c, net, s, ProcessStashedCommits(c, s.core));
    case Replay(env) => if s.core.replay != [] { ReplayOk(c, net, s, env); }
  }

  lemma ReplayOk(c: Config, net: Net, s: State, env: Env)
    requires Good(c, net, s) && s.core.replay != []
    ensures GoodStep(c, net, s, Step(c, s, Replay(env)))
  {
    hide ContextOk, OrderOk, HeldOk, PreparesOk, CommitsOk, StashOk, CheckpointsOk, StashedCheckpointsOk, BoxOk,
         OrderedBoxOk, AnnouncedOk, QueuesOk, SaysMsg, Dispatch;
    var e := s.core.replay[0];
    assert e in s.core.replay;
    OutsideOk(c, net, s, s.core.outside, s.core.replay[1..]);
    var s1 := s.(core := s.core.(replay := s.core.replay[1..]));
    assert s1 == s.(core := s.core.(outside := s.core.outside, replay := s.core.replay[1..]));
    DispatchOk(c, net, s1, env, e.0, e.1);
    GoodStepTransitive(c, net, s, s1, Dispatch(c, s1, env, e.0, e.1));
  }

  lemma InitGood(c: Config, net: Net)
    requires c.self in net.nodes && c.primary in net.nodes
    ensures Good(c, net, Init)
  {
  }
}
