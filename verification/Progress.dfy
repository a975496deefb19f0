/** What the replicas of a pool owe each other is done, in every run, and a pool in which everything has been
    delivered has ordered everything. */
module Progress {
  import opened Messages
  import opened ReplicaSpec
  import opened ReplicaInvariant
  import opened ReplicaProof
  import opened Pool
  import opened Diligence
  import opened DiligentSteps
  import Quorums

  // ----- every run -----

  ghost predicate PoolDiligent(m: Params, pool: PoolState) {
    forall r :: r in pool ==> Diligent(m.ConfigOf(r), pool[r])
  }

  lemma {:induction false} RunIsDiligent(m: Params, run: seq<PoolState>, i: nat)
    requires m.Valid() && IsRun(m, run) && i < |run|
    ensures PoolDiligent(m, run[i])
    decreases i
  {
    hide Diligent, PoolGood, PoolStep;
    if i == 0 {
      forall r | r in run[0] ensures Diligent(m.ConfigOf(r), run[0][r]) {
        InitDiligent(m.ConfigOf(r));
      }
    } else {
      RunIsDiligent(m, run, i - 1);
      RunIsGood(m, run, i - 1);
      PoolStepDiligent(m, run[i - 1], run[i]);
    }
  }

  lemma PoolStepDiligent(m: Params, pool: PoolState, pool': PoolState)
    requires PoolGood(m, pool) && PoolDiligent(m, pool) && PoolStep(m, pool, pool')
    ensures PoolDiligent(m, pool')
  {
    hide Good, Step, Legal, CanHappen, Diligent, Counts, BacklogMoves, AnswersOnly;
    var r, e :| StepBy(m, pool, pool', r, e);
    HappeningIsLegal(m, pool, r, e);
    StepIsDiligent(m.ConfigOf(r), NetOf(m, pool), pool[r], e);
  }

  lemma {:induction false} CommitCount(box: seq<Out>, viewNo: nat, p: nat)
    ensures multiset(box)[OutThreePhase(CommitMsg(Commit(viewNo, p)))] <= multiset(CommitNos(box))[p]
  {
    if box != [] {
      var n := |box| - 1;
      CommitCount(box[..n], viewNo, p);
      assert box == box[..n] + [box[n]];
    }
  }

  lemma {:induction false} DistinctOnce(nos: seq<nat>, p: nat)
    requires forall i, j :: 0 <= i < j < |nos| ==> nos[i] != nos[j]
    ensures multiset(nos)[p] <= 1
  {
    if nos != [] {
      var n := |nos| - 1;
      DistinctOnce(nos[..n], p);
      assert nos == nos[..n] + [nos[n]];
      if nos[n] == p {
        assert p !in nos[..n];
      }
    }
  }

  function CommitOut(m: Params, p: nat): Out { OutThreePhase(CommitMsg(Commit(m.viewNo, p))) }

  /** What a correct replica has sent, in every state of a run. A primary has sent the PRE-PREPAREs of exactly the
      batches it numbered, in order. A COMMIT has been sent for every number with 2f PREPAREs counted, and for no
      number twice. A number with 2f + 1 COMMITs counted is ordered or waits in the stash for the numbers before it,
      and the next pass over the stash orders it when it is the next. */
  lemma NothingOwed(m: Params, run: seq<PoolState>, i: nat, r: Name)
    requires m.Valid() && IsRun(m, run) && i < |run| && m.Correct(r)
    ensures r in run[i]
    ensures
      var s := run[i][r];
      var own := OwnMsgs(s.core.outBox);
      && (r == m.primary ==>
            |own| == |s.admitted| && forall j :: 0 <= j < |own| ==> own[j] == PrePrepareMsg(s.admitted[j]))
      && (r != m.primary ==> forall j, l :: 0 <= j < l < |own| ==>
            own[j].PrepareMsg? && own[l].PrepareMsg? && own[j].PpSeqNo() < own[l].PpSeqNo())
      && (forall p: nat :: HasVotes(s.core.prepares, p, 2 * m.f) ==> CommitOut(m, p) in s.core.outBox)
      && (forall p: nat :: multiset(s.core.outBox)[CommitOut(m, p)] <= 1)
      && (forall p: nat :: HasVotes(s.core.commits, p, 2 * m.f + 1) ==>
            p <= |s.core.ordered| || p in s.core.stashedCommits)
      && (HasVotes(s.core.commits, |s.core.ordered| + 1, 2 * m.f + 1) ==>
            |Step(m.ConfigOf(r), s, Tick).core.ordered| > |s.core.ordered|)
  {
    hide IsRun, Good, Works, Step, OwnMsgs, CommitNos;
    RunIsGood(m, run, i);
    RunIsDiligent(m, run, i);
    var c, s := m.ConfigOf(r), run[i][r];
    assert Good(c, NetOf(m, run[i]), s) && Diligent(c, s);
    forall p: nat
      ensures HasVotes(s.core.prepares, p, 2 * m.f) ==> CommitOut(m, p) in s.core.outBox
      ensures multiset(s.core.outBox)[CommitOut(m, p)] <= 1
      ensures HasVotes(s.core.commits, p, 2 * m.f + 1) ==> p <= |s.core.ordered| || p in s.core.stashedCommits
    {
      assert CommitsDone(c, s.core, p) && OrdersDone(c, s.core, p);
      if c.self in Voters(s.core.commits, p) {
        OwnCommitSent(c, NetOf(m, run[i]), s, p);
      }
      CommitCount(s.core.outBox, m.viewNo, p);
      DistinctOnce(CommitNos(s.core.outBox), p);
    }
    TickWorks(c, NetOf(m, run[i]), s);
  }

  lemma OwnCommitSent(c: Config, net: Net, s: State, p: nat)
    requires Good(c, net, s) && c.self in Voters(s.core.commits, p)
    ensures OutThreePhase(CommitMsg(Commit(c.viewNo, p))) in s.core.outBox
  {
    hide ContextOk, OrderOk, HeldOk, PreparesOk, StashOk, CheckpointsOk, StashedCheckpointsOk, MessagesOk, BoxOk,
         OrderedBoxOk, AnnouncedOk, QueuesOk;
    assert BacksCommit(ContextOf(c, net, s), s.core.outBox, p, c.self);
  }

  // ----- a pool at rest -----

  /** All correct replicas have accepted the same first `n` batches and answered them. */
  ghost predicate AllAnswered(m: Params, pool: PoolState, n: nat) {
    && (forall r :: r in pool ==> n <= |pool[r].admitted|)
    && (forall r, w, p :: r in pool && w in pool && 0 <= p < n ==> pool[r].admitted[p].cert == pool[w].admitted[p].cert)
    && (forall w, p :: w in pool && w != m.primary && 0 <= p < n ==>
          PrepareMsg(PrepareFor(pool[w].admitted[p])) in OwnMsgs(pool[w].core.outBox))
  }

  /** What replica `w` sent for number `p` is counted by replica `r`. */
  ghost predicate DeliveredAt(m: Params, pool: PoolState, r: Name, w: Name, p: nat)
    requires r in pool && w in pool
  {
    && (w != m.primary ==> w in Voters(pool[r].core.prepares, p))
    && (CommitOut(m, p) in pool[w].core.outBox ==> w in Voters(pool[r].core.commits, p))
  }

  /** The PREPAREs and COMMITs of correct replicas for these batches are counted by every other one that still holds the
      batch. */
  ghost predicate AllDelivered(m: Params, pool: PoolState, n: nat) {
    forall r, w, p: nat :: r in pool && w in pool && r != w && pool[r].core.h < p <= n ==> DeliveredAt(m, pool, r, w, p)
  }

  /** Nobody has collected what another has not ordered, and no pass over stashed COMMITs orders anything. */
  ghost predicate Idle(m: Params, pool: PoolState) {
    && (forall r, w :: r in pool && w in pool ==> pool[w].core.h <= |pool[r].core.ordered|)
    && (forall r :: r in pool ==> |Step(m.ConfigOf(r), pool[r], Tick).core.ordered| == |pool[r].core.ordered|)
  }

  /** Progress: a pool of more than one node in which everything has been delivered has ordered everything. In any
      state of any run in which the correct replicas have accepted and answered the same `n` batches, have counted
      each other's votes and are idle, every one of them has ordered all `n`. */
  lemma AtRestAllOrdered(m: Params, run: seq<PoolState>, i: nat, n: nat, r: Name)
    requires m.Valid() && IsRun(m, run) && i < |run| && m.Correct(r) && |m.nodes| > 1
    requires AllAnswered(m, run[i], n) && AllDelivered(m, run[i], n) && Idle(m, run[i])
    ensures r in run[i] && |run[i][r].core.ordered| >= n
  {
    hide IsRun, Good, Diligent, Step, AllAnswered, AllDelivered;
    RunIsGood(m, run, i);
    RunIsDiligent(m, run, i);
    var pool := run[i];
    var p := |pool[r].core.ordered| + 1;
    if p <= n {
      forall w | w in pool ensures CommitOut(m, p) in pool[w].core.outBox {
        AllCommit(m, pool, n, p, w);
      }
      OrdersIt(m, pool, n, p, r);
    }
  }

  /** Every correct replica that holds the batch has 2f PREPAREs for it and has sent COMMIT. */
  lemma AllCommit(m: Params, pool: PoolState, n: nat, p: nat, w: Name)
    requires m.Valid() && |m.nodes| > 1 && PoolGood(m, pool) && PoolDiligent(m, pool) && w in pool
    requires AllAnswered(m, pool, n) && AllDelivered(m, pool, n) && pool[w].core.h < p <= n
    ensures CommitOut(m, p) in pool[w].core.outBox
  {
    hide Good, OrdersDone, CommitsOnce, AllAnswered, AllDelivered, OwnOk;
    var c, s := m.ConfigOf(w), pool[w];
    assert Good(c, NetOf(m, pool), s) && Diligent(c, s);
    var backups := m.nodes - m.faulty - {m.primary};
    CorrectBackups(m);
    forall v | v in backups ensures v in Voters(s.core.prepares, p) {
      CountsPrepare(m, pool, n, p, w, v);
    }
    Quorums.Subset(backups, Voters(s.core.prepares, p));
    assert CommitsDone(c, s.core, p);
    OwnCommitSent(c, NetOf(m, pool), s, p);
  }

  lemma CountsPrepare(m: Params, pool: PoolState, n: nat, p: nat, w: Name, v: Name)
    requires PoolGood(m, pool) && PoolDiligent(m, pool) && w in pool && v in pool && v != m.primary
    requires AllAnswered(m, pool, n) && AllDelivered(m, pool, n) && pool[w].core.h < p <= n
    ensures v in Voters(pool[w].core.prepares, p)
  {
    hide Good, Diligent, OwnMsgs;
    if v == w {
      var c, s := m.ConfigOf(w), pool[w];
      assert Good(c, NetOf(m, pool), s) && Diligent(c, s);
      assert PrepareMsg(PrepareFor(s.admitted[p - 1])) in OwnMsgs(s.core.outBox);
      OwnIsCounted(c, NetOf(m, pool), s, p);
    } else {
      assert DeliveredAt(m, pool, w, v, p);
    }
  }

  lemma OwnIsCounted(c: Config, net: Net, s: State, p: nat)
    requires Good(c, net, s) && Diligent(c, s) && !c.IsPrimary() && s.core.h < p <= |s.admitted|
    requires PrepareMsg(PrepareFor(s.admitted[p - 1])) in OwnMsgs(s.core.outBox)
    ensures c.self in Voters(s.core.prepares, p)
  {
    hide Good, Eager, OwnMsgs;
    HeldInGood(c, net, s, p);
    var own := OwnMsgs(s.core.outBox);
    var i :| 0 <= i < |own| && own[i] == PrepareMsg(PrepareFor(s.admitted[p - 1]));
    assert OwnCounted(c, s, own[i].PpSeqNo());
  }

  lemma CorrectBackups(m: Params)
    requires m.Valid() && |m.nodes| > 1
    ensures |m.nodes - m.faulty - {m.primary}| >= 2 * m.f && m.nodes - m.faulty - {m.primary} != {}
    ensures |m.nodes - m.faulty| >= 2 * m.f + 1
  {
    assert |m.nodes - m.faulty| == |m.nodes| - |m.faulty|;
    var correct := m.nodes - m.faulty;
    if m.primary in correct {
      assert |correct - {m.primary}| == |correct| - 1;
    } else {
      assert correct - {m.primary} == correct;
    }
  }

  lemma OrdersIt(m: Params, pool: PoolState, n: nat, p: nat, r: Name)
    requires m.Valid() && |m.nodes| > 1 && PoolGood(m, pool) && PoolDiligent(m, pool) && r in pool
    requires AllDelivered(m, pool, n) && p == |pool[r].core.ordered| + 1 <= n && pool[r].core.h < p
    requires forall w :: w in pool ==> CommitOut(m, p) in pool[w].core.outBox
    requires CommitOut(m, p) in pool[r].core.outBox
    ensures |Step(m.ConfigOf(r), pool[r], Tick).core.ordered| > |pool[r].core.ordered|
  {
    hide Good, OwnMsgs, OrdersDone, CommitsDone, Step, Works;
    var c, s := m.ConfigOf(r), pool[r];
    assert Good(c, NetOf(m, pool), s) && Diligent(c, s);
    CorrectBackups(m);
    OwnCommitCounted(c, NetOf(m, pool), s, p);
    forall w | w in m.nodes - m.faulty ensures w in Voters(s.core.commits, p) {
      assert w != r ==> DeliveredAt(m, pool, r, w, p);
    }
    Quorums.Subset(m.nodes - m.faulty, Voters(s.core.commits, p));
    TickWorks(c, NetOf(m, pool), s);
  }

  lemma OwnCommitCounted(c: Config, net: Net, s: State, p: nat)
    requires Good(c, net, s) && Eager(c, s.core) && s.core.h < p
    requires OutThreePhase(CommitMsg(Commit(c.viewNo, p))) in s.core.outBox
    ensures c.self in Voters(s.core.commits, p)
  {
    hide Good, CommitNos, CommitsDone, OrdersDone;
    CommitInNos(c, net, s, p);
    CommitNosBelow(c, net, s, p);
    HeldInGood(c, net, s, p);
  }

  lemma CommitInNos(c: Config, net: Net, s: State, p: nat)
    requires Good(c, net, s) && OutThreePhase(CommitMsg(Commit(c.viewNo, p))) in s.core.outBox
    ensures p in CommitNos(s.core.outBox)
  {
    hide ContextOk, OrderOk, HeldOk, PreparesOk, CommitsOk, StashOk, CheckpointsOk, StashedCheckpointsOk, MessagesOk,
         OrderedBoxOk, AnnouncedOk, QueuesOk;
    forall o | o in s.core.outBox && o.OutThreePhase? && o.msg.CommitMsg? ensures o.msg.commit.viewNo == c.viewNo {
      assert MessageOk(ContextOf(c, net, s), |s.core.ordered|, s.core.outBox, o);
    }
    CommitNosAre(s.core.outBox, c.viewNo, p);
  }
}
