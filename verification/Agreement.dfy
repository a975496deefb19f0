/** What holds over every run of the pool. */
module Agreement {
  import opened Messages
  import opened ReplicaSpec
  import opened ReplicaInvariant
  import opened ReplicaCoreProof
  import opened ReplicaProof
  import opened Pool
  import Quorums

  function AdmittedBy(pool: PoolState, r: Name): seq<PrePrepare>
    requires r in pool
  {
    pool[r].admitted
  }

  function BoxOf(pool: PoolState, r: Name): seq<Out>
    requires r in pool
  {
    pool[r].core.outBox
  }

  function ContextIn(m: Params, pool: PoolState, r: Name): Context
    requires r in pool
  {
    ContextOf(m.ConfigOf(r), NetOf(m, pool), pool[r])
  }

  predicate SentCommit(m: Params, pool: PoolState, r: Name, p: nat)
    requires r in pool
  {
    OutThreePhase(CommitMsg(Commit(m.viewNo, p))) in BoxOf(pool, r)
  }

  predicate HoldsStable(pool: PoolState, r: Name, start: nat, end: nat)
    requires r in pool
  {
    exists ck :: ck in pool[r].core.checkpoints && ck.isStable && ck.start == start && ck.end == end
  }

  // ----- one replica -----

  /** In every state of a run, the Ordered messages a correct replica has sent are those of the first
      PRE-PREPAREs it accepted, numbered 1, 2, 3, ... with no gap, repeat or inversion; each carries the roots, the time
      and the ledger of its PRE-PREPARE and as many of its leading requests as that counts as valid; and `assert pp` in
      `doOrder` has never failed. */
  lemma OrderedInSequence(m: Params, run: seq<PoolState>, i: nat, r: Name)
    requires m.Valid() && IsRun(m, run) && i < |run| && m.Correct(r)
    ensures r in run[i]
    ensures
      var s := run[i][r];
      var sent := OrderedMsgs(s.core.outBox);
      |sent| <= |s.admitted| && |sent| == |s.core.ordered| && !s.core.failed &&
      forall j :: 0 <= j < |sent| ==>
        && sent[j] == OrderedFor(s.admitted[j]) && sent[j].ppSeqNo == j + 1 && Carries(sent[j], s.admitted[j])
  {
    hide IsRun, HeldOk, PreparesOk, CommitsOk, StashOk, CheckpointsOk, StashedCheckpointsOk, MessagesOk, BoxOk,
         QueuesOk, AnnouncedOk;
    RunIsGood(m, run, i);
    var s := run[i][r];
    var x := ContextIn(m, run[i], r);
    assert Good(m.ConfigOf(r), NetOf(m, run[i]), s);
    forall j | 0 <= j < |s.core.ordered| ensures OrderedMsgs(s.core.outBox)[j].ppSeqNo == j + 1 {
      assert AdmittedOk(x, j);
    }
  }

  /** What an Ordered message takes from its PRE-PREPARE. The requests are the leading ones, as many as `discarded`
      says, or all when there are fewer. */
  ghost predicate Carries(o: Ordered, pp: PrePrepare) {
    && o.viewNo == pp.viewNo && o.ppTime == pp.ppTime && o.ledgerId == pp.ledgerId
    && o.stateRoot == pp.cert.stateRoot && o.txnRoot == pp.cert.txnRoot
    && o.reqIdr <= pp.reqIdr
    && |o.reqIdr| <= pp.discarded && (|o.reqIdr| < pp.discarded ==> o.reqIdr == pp.reqIdr)
  }

  // ----- announcements -----

  /** In every state of a run, for each of the ranges 1..freq, freq + 1..2 * freq and so on that a correct replica has
      ordered it has sent one CHECKPOINT, with the digest of the batches it accepted for them, and no other. */
  lemma Announcements(m: Params, run: seq<PoolState>, i: nat, r: Name)
    requires m.Valid() && IsRun(m, run) && i < |run| && m.Correct(r)
    ensures r in run[i]
    ensures OneForEachRange(m.ConfigOf(r), run[i][r].admitted, |run[i][r].core.ordered|, run[i][r].core.outBox)
  {
    hide IsRun, ContextOk, OrderOk, HeldOk, PreparesOk, CommitsOk, StashOk, CheckpointsOk, StashedCheckpointsOk,
         MessagesOk, BoxOk, OrderedBoxOk, AnnouncedOk, QueuesOk, OneForEachRange;
    RunIsGood(m, run, i);
    var s := run[i][r];
    assert Good(m.ConfigOf(r), NetOf(m, run[i]), s);
    OneAnnouncementEach(ContextIn(m, run[i], r), |s.core.ordered|, s.core.outBox);
  }

  /** Of `n` ordered batches, each full range has one CHECKPOINT in the box, and there is no other. */
  ghost predicate OneForEachRange(c: Config, admitted: seq<PrePrepare>, n: nat, box: seq<Out>) {
    && n <= |admitted|
    && (forall start: nat :: IsStart(start, c.chkFreq) && start + c.chkFreq - 1 <= n ==>
          multiset(box)[AnnouncementOf(c, admitted, start)] == 1)
    && forall ck :: OutCheckpoint(ck) in box ==>
         && IsStart(ck.seqNoStart, c.chkFreq) && ck.seqNoStart + c.chkFreq - 1 <= n
         && OutCheckpoint(ck) == AnnouncementOf(c, admitted, ck.seqNoStart)
  }

  function AnnouncementOf(c: Config, admitted: seq<PrePrepare>, start: nat): Out
    requires IsStart(start, c.chkFreq) && start + c.chkFreq - 1 <= |admitted|
  {
    StartIsPositive(start, c.chkFreq);
    var end := start + c.chkFreq - 1;
    OutCheckpoint(Checkpoint(c.viewNo, start, end, c.hash(Digests(admitted, start, end))))
  }

  lemma OneAnnouncementEach(x: Context, n: nat, box: seq<Out>)
    requires AnnouncedOk(x, n, box) && n <= |x.admitted|
    ensures OneForEachRange(x.c, x.admitted, n, box)
  {
    hide AnnouncedOk, IsStart, Digests;
    forall start: nat | IsStart(start, x.c.chkFreq) && start + x.c.chkFreq - 1 <= n
      ensures multiset(box)[AnnouncementOf(x.c, x.admitted, start)] == 1
    {
      StartIsPositive(start, x.c.chkFreq);
      AnnouncedOnce(x, n, box, start);
    }
    forall ck | OutCheckpoint(ck) in box
      ensures IsStart(ck.seqNoStart, x.c.chkFreq) && ck.seqNoStart + x.c.chkFreq - 1 <= n
      ensures OutCheckpoint(ck) == AnnouncementOf(x.c, x.admitted, ck.seqNoStart)
    {
      AnnouncementCount(box, ck);
      SentIsAnnouncement(x, n, box, ck);
    }
  }

  lemma StartIsPositive(start: nat, freq: Pos)
    requires IsStart(start, freq)
    ensures start >= 1
  {
  }

  lemma {:induction false} AnnouncementCount(box: seq<Out>, ck: Checkpoint)
    ensures multiset(box)[OutCheckpoint(ck)] == multiset(CheckpointMsgs(box))[ck]
  {
    if box != [] {
      var n := |box| - 1;
      AnnouncementCount(box[..n], ck);
      assert box == box[..n] + [box[n]];
    }
  }

  lemma SentIsAnnouncement(x: Context, n: nat, box: seq<Out>, ck: Checkpoint)
    requires AnnouncedOk(x, n, box) && ck in multiset(CheckpointMsgs(box))
    ensures AnnouncementIs(x, n, ck)
  {
    hide AnnouncementIs;
    var sent := CheckpointMsgs(box);
    assert ck in sent;
    var i :| 0 <= i < |sent| && sent[i] == ck;
  }

  /** A list of CHECKPOINTs for ranges that follow each other. */
  ghost predicate Consecutive(sent: seq<Checkpoint>, freq: Pos) {
    forall i :: 0 <= i < |sent| ==>
      && sent[i].seqNoStart == AnnouncedUpTo(sent[..i]) + 1 && sent[i].seqNoEnd == sent[i].seqNoStart + freq - 1
      && IsStart(sent[i].seqNoStart, freq)
  }

  lemma ConsecutiveBefore(sent: seq<Checkpoint>, freq: Pos)
    requires Consecutive(sent, freq) && sent != []
    ensures
      var n := |sent| - 1;
      Consecutive(sent[..n], freq) && sent[n].seqNoStart == AnnouncedUpTo(sent[..n]) + 1
  {
    hide IsStart;
    var before := sent[..|sent| - 1];
    forall i | 0 <= i < |before| ensures before[i].seqNoStart == AnnouncedUpTo(before[..i]) + 1 {
      assert before[..i] == sent[..i];
    }
  }

  lemma {:induction false} FindAnnounced(sent: seq<Checkpoint>, freq: Pos, start: nat) returns (i: nat)
    requires Consecutive(sent, freq) && IsStart(start, freq) && start <= AnnouncedUpTo(sent)
    ensures i < |sent| && sent[i].seqNoStart == start
  {
    hide IsStart;
    StartIsPositive(start, freq);
    var n := |sent| - 1;
    ConsecutiveBefore(sent, freq);
    if start <= AnnouncedUpTo(sent[..n]) {
      i := FindAnnounced(sent[..n], freq, start);
    } else {
      i := n;
      if sent[n].seqNoStart < start {
        StartsApart(sent[n].seqNoStart, start, freq);
      }
    }
  }

  lemma {:induction false} AnnouncedAtMostOnce(sent: seq<Checkpoint>, freq: Pos, ck: Checkpoint)
    requires Consecutive(sent, freq)
    ensures multiset(sent)[ck] <= 1
    ensures ck in sent ==> ck.seqNoStart <= AnnouncedUpTo(sent)
  {
    hide IsStart;
    if sent != [] {
      var n := |sent| - 1;
      ConsecutiveBefore(sent, freq);
      AnnouncedAtMostOnce(sent[..n], freq, ck);
      assert sent == sent[..n] + [sent[n]];
      assert AnnouncedUpTo(sent[..n]) < sent[n].seqNoStart <= sent[n].seqNoEnd;
    }
  }

  lemma AnnouncedOnce(x: Context, n: nat, box: seq<Out>, start: nat)
    requires AnnouncedOk(x, n, box) && IsStart(start, x.c.chkFreq) && 1 <= start && start + x.c.chkFreq - 1 <= n
    ensures start + x.c.chkFreq - 1 <= |x.admitted|
    ensures
      var end := start + x.c.chkFreq - 1;
      multiset(box)[OutCheckpoint(Checkpoint(x.c.viewNo, start, end, x.c.hash(Digests(x.admitted, start, end))))] == 1
  {
    hide IsStart, Digests, AnnouncedOk, Consecutive, CheckpointMsgs;
    var sent := CheckpointMsgs(box);
    AnnouncedConsecutively(x, n, box);
    var i := FindAnnounced(sent, x.c.chkFreq, start);
    assert sent[i] in multiset(sent);
    SentIsAnnouncement(x, n, box, sent[i]);
    AnnouncementCount(box, sent[i]);
    AnnouncedAtMostOnce(sent, x.c.chkFreq, sent[i]);
  }

  lemma AnnouncedConsecutively(x: Context, n: nat, box: seq<Out>)
    requires AnnouncedOk(x, n, box)
    ensures Consecutive(CheckpointMsgs(box), x.c.chkFreq)
    ensures n < AnnouncedUpTo(CheckpointMsgs(box)) + x.c.chkFreq
  {
    hide IsStart, Digests, CheckpointMsgs;
    var sent := CheckpointMsgs(box);
    forall i | 0 <= i < |sent|
      ensures sent[i].seqNoStart == AnnouncedUpTo(sent[..i]) + 1 && IsStart(sent[i].seqNoStart, x.c.chkFreq)
      ensures sent[i].seqNoEnd == sent[i].seqNoStart + x.c.chkFreq - 1
    {
      assert AnnouncementIs(x, n, sent[i]);
    }
  }

  /** Between two points of a run the low water mark of a correct replica does not fall. At each of them it
      is the end of the first checkpoint, which is stable, unless it is 0; everything up to it has been
      ordered; the PRE-PREPAREs held are exactly those accepted above it, and no COMMIT vote below it is kept. In a
      pool that tolerates no fault it stays 0. */
  lemma WaterMarks(m: Params, run: seq<PoolState>, i: nat, j: nat, r: Name)
    requires m.Valid() && IsRun(m, run) && i <= j < |run| && m.Correct(r)
    ensures r in run[i] && r in run[j]
    ensures
      var k := run[j][r].core;
      run[i][r].core.h <= k.h &&
      (k.h > 0 ==> k.checkpoints != [] && k.checkpoints[0].isStable && k.checkpoints[0].seqNo == k.h) &&
      (forall p :: 1 <= p <= k.h ==> p in k.ordered) &&
      (forall p: nat :: GetPrePrepare(k, p).Some? <==> k.h < p <= |run[j][r].admitted|) &&
      (forall p :: p in k.commits ==> p > k.h) &&
      (m.f == 0 ==> k.h == 0)
  {
    hide CoreOk, QueuesOk, IsRun;
    RunIsGood(m, run, i);
    RunIsGood(m, run, j);
    RunExtends(m, run, i, j);
    assert Good(m.ConfigOf(r), NetOf(m, run[j]), run[j][r]);
    LocalWaterMarks(ContextIn(m, run[j], r), run[j][r].core);
  }

  lemma LocalWaterMarks(x: Context, k: Core)
    requires CoreOk(x, k)
    ensures k.h > 0 ==> k.checkpoints != [] && k.checkpoints[0].isStable && k.checkpoints[0].seqNo == k.h
    ensures forall p :: 1 <= p <= k.h ==> p in k.ordered
    ensures forall p: nat :: GetPrePrepare(k, p).Some? <==> k.h < p <= |x.admitted|
    ensures forall p :: p in k.commits ==> p > k.h
    ensures x.c.f == 0 ==> k.h == 0
  {
    hide ContextOk, PreparesOk, StashOk, StashedCheckpointsOk, MessagesOk, BoxOk, OrderedBoxOk, AnnouncedOk;
    if k.h > 0 {
      assert CheckpointOk(x, |k.ordered|, k.checkpoints[0]);
    }
    forall p: nat ensures GetPrePrepare(k, p).Some? <==> k.h < p <= |x.admitted| {
      HeldAbove(x, k, p);
    }
    forall p | 1 <= p <= k.h ensures p in k.ordered {
      assert k.ordered[p - 1] == p;
    }
  }

  lemma HeldAbove(x: Context, k: Core, p: nat)
    requires HeldOk(x, k.h, k.sentPrePrepares, k.prePrepares)
    ensures GetPrePrepare(k, p).Some? <==> k.h < p <= |x.admitted|
  {
  }

  // ----- a correct primary -----

  lemma AcceptedFromPrimary(m: Params, pool: PoolState, r: Name, p: nat)
    requires PoolGood(m, pool) && r in pool && m.primary in pool && 1 <= p <= |AdmittedBy(pool, r)|
    ensures p <= |AdmittedBy(pool, m.primary)| && AdmittedBy(pool, r)[p - 1] == AdmittedBy(pool, m.primary)[p - 1]
  {
    hide OrderOk, HeldOk, PreparesOk, CommitsOk, StashOk, CheckpointsOk, StashedCheckpointsOk, MessagesOk, BoxOk,
         OrderedBoxOk, AnnouncedOk, QueuesOk;
    var x := ContextIn(m, pool, r);
    assert Good(m.ConfigOf(r), NetOf(m, pool), pool[r]);
    assert AdmittedOk(x, p - 1);
    if r != m.primary {
      SaidIsOk(m, pool, m.primary, OutThreePhase(PrePrepareMsg(pool[r].admitted[p - 1])));
    }
  }

  /** Under a correct primary, of any two correct replicas one has accepted, and so ordered, exactly the first
      part of what the other has. */
  lemma CorrectPrimaryAgreement(m: Params, run: seq<PoolState>, i: nat, r1: Name, r2: Name)
    requires m.Valid() && IsRun(m, run) && i < |run| && m.Correct(r1) && m.Correct(r2) && m.Correct(m.primary)
    ensures r1 in run[i] && r2 in run[i]
    ensures |AdmittedBy(run[i], r1)| <= |AdmittedBy(run[i], r2)| ==> AdmittedBy(run[i], r1) <= AdmittedBy(run[i], r2)
    ensures
      var o1 := OrderedMsgs(BoxOf(run[i], r1));
      var o2 := OrderedMsgs(BoxOf(run[i], r2));
      |o1| <= |o2| ==> o1 <= o2
  {
    hide Good, IsRun, OrderedMsgs, OrderedFor;
    RunIsGood(m, run, i);
    var a1, a2 := AdmittedBy(run[i], r1), AdmittedBy(run[i], r2);
    OrderedInSequence(m, run, i, r1);
    OrderedInSequence(m, run, i, r2);
    forall j: nat | j < |a1| && j < |a2| ensures a1[j] == a2[j] {
      AcceptedFromPrimary(m, run[i], r1, j + 1);
      AcceptedFromPrimary(m, run[i], r2, j + 1);
    }
  }

  // ----- prepared certificates -----

  lemma PreparedFor(m: Params, pool: PoolState, r: Name, p: nat) returns (q: set<Name>)
    requires PoolGood(m, pool) && r in pool && SentCommit(m, pool, r, p)
    ensures 1 <= p <= |AdmittedBy(pool, r)| && PrepareQuorum(ContextIn(m, pool, r), BoxOf(pool, r), p, q)
  {
    hide Good, PrepareQuorum;
    SaidIsOk(m, pool, r, OutThreePhase(CommitMsg(Commit(m.viewNo, p))));
    q :| PrepareQuorum(ContextIn(m, pool, r), BoxOf(pool, r), p, q);
  }

  /** A correct node prepares one certificate per number. */
  lemma OnePreparePerNumber(m: Params, pool: PoolState, r: Name, p: nat, w: Name)
    requires PoolGood(m, pool) && r in pool && w in pool && 1 <= p <= |AdmittedBy(pool, r)|
    requires BacksPrepare(ContextIn(m, pool, r), BoxOf(pool, r), p, w)
    ensures p <= |AdmittedBy(pool, w)| && AdmittedBy(pool, r)[p - 1].cert == AdmittedBy(pool, w)[p - 1].cert
  {
    hide OrderOk, HeldOk, PreparesOk, CommitsOk, StashOk, CheckpointsOk, StashedCheckpointsOk, MessagesOk, BoxOk,
         OrderedBoxOk, AnnouncedOk, QueuesOk;
    var o := OutThreePhase(PrepareMsg(PrepareFor(pool[r].admitted[p - 1])));
    SaidIsOk(m, pool, w, o);
    assert Good(m.ConfigOf(r), NetOf(m, pool), pool[r]);
    assert AdmittedOk(ContextIn(m, pool, r), p - 1);
  }

  /** The usual size of a pool. */
  lemma MeetAtThreeF(m: Params)
    requires m.Valid()
    ensures |m.nodes| == 3 * m.f + 1 ==> m.QuorumsMeet()
    ensures |m.faulty| == m.f && m.f > 0 ==> (m.QuorumsMeet() <==> |m.nodes| == 3 * m.f + 1)
  {
  }

  lemma PreparedAgreementIn(m: Params, pool: PoolState, p: nat, r1: Name, r2: Name)
    requires m.Valid() && m.QuorumsMeet() && PoolGood(m, pool) && r1 in pool && r2 in pool
    requires SentCommit(m, pool, r1, p) && SentCommit(m, pool, r2, p)
    ensures 1 <= p <= |AdmittedBy(pool, r1)| && p <= |AdmittedBy(pool, r2)|
    ensures AdmittedBy(pool, r1)[p - 1].cert == AdmittedBy(pool, r2)[p - 1].cert
  {
    hide Good;
    var q1 := PreparedFor(m, pool, r1, p);
    var q2 := PreparedFor(m, pool, r2, p);
    if m.primary in pool {
      AcceptedFromPrimary(m, pool, r1, p);
      AcceptedFromPrimary(m, pool, r2, p);
    } else {
      var backups := m.nodes - {m.primary};
      var faulty := m.faulty - {m.primary};
      assert |backups| == |m.nodes| - 1;
      assert |faulty| == |m.faulty| - 1;
      var w := Quorums.CommonCorrect(backups, q1, q2, faulty);
      assert w in pool;
      OnePreparePerNumber(m, pool, r1, p, w);
      OnePreparePerNumber(m, pool, r2, p, w);
    }
  }

  /** When quorums meet, any two correct replicas that have both sent COMMIT for a number hold PRE-PREPAREs with the
      same digest, state root and transaction root for it, even when the primary sent different ones to different
      replicas. */
  lemma PreparedAgreement(m: Params, run: seq<PoolState>, i: nat, p: nat, r1: Name, r2: Name)
    requires m.Valid() && m.QuorumsMeet() && IsRun(m, run) && i < |run| && m.Correct(r1) && m.Correct(r2)
    ensures r1 in run[i] && r2 in run[i]
    ensures SentCommit(m, run[i], r1, p) && SentCommit(m, run[i], r2, p) ==>
      1 <= p <= |AdmittedBy(run[i], r1)| && p <= |AdmittedBy(run[i], r2)| &&
      AdmittedBy(run[i], r1)[p - 1].cert == AdmittedBy(run[i], r2)[p - 1].cert
  {
    hide Good, IsRun;
    RunIsGood(m, run, i);
    if SentCommit(m, run[i], r1, p) && SentCommit(m, run[i], r2, p) {
      PreparedAgreementIn(m, run[i], p, r1, r2);
    }
  }

  // ----- ordering -----

  lemma CommittedFor(m: Params, pool: PoolState, r: Name, p: nat) returns (q: set<Name>)
    requires PoolGood(m, pool) && r in pool && 1 <= p <= |pool[r].core.ordered|
    ensures CommitQuorum(ContextIn(m, pool, r), BoxOf(pool, r), p, q)
  {
    hide OrderOk, HeldOk, PreparesOk, CommitsOk, StashOk, CheckpointsOk, StashedCheckpointsOk, MessagesOk, BoxOk,
         QueuesOk, CommitQuorum;
    assert Good(m.ConfigOf(r), NetOf(m, pool), pool[r]);
    var box := pool[r].core.outBox;
    OrderedIsSent(box, p - 1);
    assert AdmittedOk(ContextIn(m, pool, r), p - 1);
    SaidIsOk(m, pool, r, OutOrdered(OrderedMsgs(box)[p - 1]));
    q :| CommitQuorum(ContextIn(m, pool, r), box, p, q);
  }

  lemma {:induction false} OrderedIsSent(box: seq<Out>, j: nat)
    requires j < |OrderedMsgs(box)|
    ensures OutOrdered(OrderedMsgs(box)[j]) in box
  {
    if box != [] {
      var rest := box[..|box| - 1];
      if j < |OrderedMsgs(rest)| {
        OrderedIsSent(rest, j);
        assert forall o :: o in rest ==> o in box;
      }
    }
  }

  /** Behind every ordered number stand more than f correct nodes that sent COMMIT for it; when quorums meet they all
      hold the same certificate, and so does every correct replica that ordered the number after sending COMMIT. */
  lemma OrderedIsCommitted(m: Params, run: seq<PoolState>, i: nat, r: Name, p: nat) returns (correct: set<Name>)
    requires m.Valid() && IsRun(m, run) && i < |run| && m.Correct(r)
    requires r in run[i] && 1 <= p <= |run[i][r].core.ordered|
    ensures |correct| >= m.f + 1 && correct <= run[i].Keys
    ensures forall w :: w in correct ==> SentCommit(m, run[i], w, p)
    ensures m.QuorumsMeet() && SentCommit(m, run[i], r, p) ==>
      p <= |AdmittedBy(run[i], r)| &&
      forall w :: w in correct ==>
        p <= |AdmittedBy(run[i], w)| && AdmittedBy(run[i], w)[p - 1].cert == AdmittedBy(run[i], r)[p - 1].cert
  {
    hide Good, IsRun;
    RunIsGood(m, run, i);
    var q := CommittedFor(m, run[i], r, p);
    Quorums.CorrectMembers(q, m.faulty);
    correct := q - m.faulty;
    assert forall w :: w in correct ==> BacksCommit(ContextIn(m, run[i], r), BoxOf(run[i], r), p, w);
    if m.QuorumsMeet() && SentCommit(m, run[i], r, p) {
      var w0 :| w0 in correct;
      PreparedAgreementIn(m, run[i], p, w0, r);
      forall w | w in correct
        ensures p <= |AdmittedBy(run[i], w)| && AdmittedBy(run[i], w)[p - 1].cert == AdmittedBy(run[i], r)[p - 1].cert
      {
        PreparedAgreementIn(m, run[i], p, w, r);
      }
    }
  }

  /** Two correct replicas that have both ordered a number ordered the same batch under it, and say so with the same
      roots, if the primary is correct, or if quorums meet and both sent their own COMMIT. */
  lemma OrderingAgreement(m: Params, run: seq<PoolState>, i: nat, r1: Name, r2: Name, p: nat)
    requires m.Valid() && IsRun(m, run) && i < |run| && m.Correct(r1) && m.Correct(r2)
    requires r1 in run[i] && 1 <= p <= |OrderedMsgs(BoxOf(run[i], r1))|
    requires r2 in run[i] && p <= |OrderedMsgs(BoxOf(run[i], r2))|
    requires m.Correct(m.primary) ||
      (m.QuorumsMeet() && SentCommit(m, run[i], r1, p) && SentCommit(m, run[i], r2, p))
    ensures p <= |AdmittedBy(run[i], r1)| && p <= |AdmittedBy(run[i], r2)|
    ensures AdmittedBy(run[i], r1)[p - 1].cert == AdmittedBy(run[i], r2)[p - 1].cert
    ensures
      var o1, o2 := OrderedMsgs(BoxOf(run[i], r1))[p - 1], OrderedMsgs(BoxOf(run[i], r2))[p - 1];
      o1.ppSeqNo == o2.ppSeqNo == p && o1.stateRoot == o2.stateRoot && o1.txnRoot == o2.txnRoot
  {
    hide IsRun, PoolGood;
    OrderedInSequence(m, run, i, r1);
    OrderedInSequence(m, run, i, r2);
    if m.Correct(m.primary) {
      CorrectPrimaryAgreement(m, run, i, r1, r2);
      CorrectPrimaryAgreement(m, run, i, r2, r1);
    } else {
      PreparedAgreement(m, run, i, p, r1, r2);
    }
  }

  // ----- stable checkpoints -----

  ghost predicate Injective(hash: seq<Hash> -> Hash) {
    forall a, b :: hash(a) == hash(b) ==> a == b
  }

  /** A checkpoint that a replica holds as stable was announced, with its digest, by 2f other nodes. */
  lemma StableFor(m: Params, pool: PoolState, r: Name, start: nat, end: nat) returns (ck: CheckpointState)
    requires PoolGood(m, pool) && r in pool && HoldsStable(pool, r, start, end)
    ensures ck in pool[r].core.checkpoints && ck.start == start && ck.end == end && ck.isStable
    ensures ck.end <= |pool[r].core.ordered|
    ensures CheckpointOk(ContextIn(m, pool, r), |pool[r].core.ordered|, ck)
  {
    hide ContextOk, OrderOk, HeldOk, PreparesOk, CommitsOk, StashOk, StashedCheckpointsOk, MessagesOk, BoxOk,
         OrderedBoxOk, AnnouncedOk, QueuesOk;
    assert Good(m.ConfigOf(r), NetOf(m, pool), pool[r]);
    ck :| ck in pool[r].core.checkpoints && ck.isStable && ck.start == start && ck.end == end;
  }

  /** Those who announced a stable checkpoint, with the replica that holds it. */
  lemma Announcers(m: Params, pool: PoolState, r: Name, n: nat, ck: CheckpointState) returns (q: set<Name>)
    requires PoolGood(m, pool) && r in pool && ck.isStable && ck.end <= n <= |pool[r].admitted|
    requires CheckpointOk(ContextIn(m, pool, r), n, ck)
    ensures q <= m.nodes && |q| == 2 * m.f + 1 && 1 <= ck.start <= ck.end
    ensures forall w :: w in q && w in pool ==> AnnouncedOrHeld(m, pool, r, w, ck)
  {
    hide Good;
    assert r in m.nodes;
    q := ck.received.Keys + {r};
    assert ck.received.Keys !! {r};
    forall w | w in q && w in pool ensures AnnouncedOrHeld(m, pool, r, w, ck) {
      if w != r {
        assert w in ck.received;
        assert Says(NetOf(m, pool), w, OutCheckpoint(Checkpoint(m.viewNo, ck.start, ck.end, ck.received[w])));
        SaidIsOk(m, pool, w, OutCheckpoint(Checkpoint(m.viewNo, ck.start, ck.end, ck.received[w])));
      }
    }
  }

  /** The digest that `w` computes for the range of the checkpoint is the one `r` computes. */
  predicate AnnouncedOrHeld(m: Params, pool: PoolState, r: Name, w: Name, ck: CheckpointState)
    requires r in pool && w in pool
  {
    1 <= ck.start <= ck.end <= |AdmittedBy(pool, w)| && ck.end <= |AdmittedBy(pool, r)| &&
    m.hash(Digests(AdmittedBy(pool, w), ck.start, ck.end)) == m.hash(Digests(AdmittedBy(pool, r), ck.start, ck.end))
  }

  lemma StableAgreementIn(m: Params, pool: PoolState, r1: Name, r2: Name, n1: nat, n2: nat,
                          ck1: CheckpointState, ck2: CheckpointState)
    requires m.Valid() && m.QuorumsMeet() && PoolGood(m, pool) && r1 in pool && r2 in pool
    requires ck1.isStable && ck2.isStable && ck1.start == ck2.start && ck1.end == ck2.end
    requires ck1.end <= n1 <= |pool[r1].admitted| && CheckpointOk(ContextIn(m, pool, r1), n1, ck1)
    requires ck2.end <= n2 <= |pool[r2].admitted| && CheckpointOk(ContextIn(m, pool, r2), n2, ck2)
    ensures 1 <= ck1.start <= ck1.end
    ensures m.hash(Digests(AdmittedBy(pool, r1), ck1.start, ck1.end)) ==
            m.hash(Digests(AdmittedBy(pool, r2), ck1.start, ck1.end))
  {
    hide Good, CheckpointOk;
    var q1 := Announcers(m, pool, r1, n1, ck1);
    var q2 := Announcers(m, pool, r2, n2, ck2);
    var w := Quorums.CommonCorrect(m.nodes, q1, q2, m.faulty);
    assert w in pool;
    assert AnnouncedOrHeld(m, pool, r1, w, ck1) && AnnouncedOrHeld(m, pool, r2, w, ck2);
  }

  lemma StableBounds(m: Params, pool: PoolState, r: Name)
    requires PoolGood(m, pool) && r in pool
    ensures |pool[r].core.ordered| <= |pool[r].admitted|
  {
    hide ContextOk, OrderOk, HeldOk, PreparesOk, CommitsOk, StashOk, CheckpointsOk, StashedCheckpointsOk, MessagesOk,
         BoxOk, OrderedBoxOk, AnnouncedOk, QueuesOk;
    assert Good(m.ConfigOf(r), NetOf(m, pool), pool[r]);
  }

  lemma StableLater(m: Params, run: seq<PoolState>, i: nat, j: nat, r: Name, start: nat, end: nat)
    returns (n: nat, ck: CheckpointState)
    requires m.Valid() && IsRun(m, run) && i <= j < |run|
    requires r in run[i] && HoldsStable(run[i], r, start, end)
    ensures r in run[j] && ck.isStable && ck.start == start && ck.end == end
    ensures end <= n <= |run[i][r].admitted| && n <= |run[j][r].admitted|
    ensures run[i][r].admitted <= run[j][r].admitted
    ensures CheckpointOk(ContextIn(m, run[j], r), n, ck)
  {
    hide Good, IsRun, CheckpointOk;
    RunIsGood(m, run, i);
    RunIsGood(m, run, j);
    RunExtends(m, run, i, j);
    StableBounds(m, run[i], r);
    ck := StableFor(m, run[i], r, start, end);
    n := |run[i][r].core.ordered|;
    CheckpointGrows(ContextIn(m, run[i], r), ContextIn(m, run[j], r), n, ck);
  }

  /** When quorums meet and the digest is injective, two correct replicas that hold checkpoint (start, end) as stable,
      each at some point of a run, have accepted exactly the same batch digests for start..end; and these batches are
      ordered. It holds whether or not the replicas sent COMMIT for them, and whoever the primary is. */
  lemma StableCheckpointAgreement(m: Params, run: seq<PoolState>, i: nat, j: nat, r1: Name, r2: Name,
                                  start: nat, end: nat)
    requires m.Valid() && m.QuorumsMeet() && Injective(m.hash) && IsRun(m, run) && i < |run| && j < |run|
    requires r1 in run[i] && HoldsStable(run[i], r1, start, end)
    requires r2 in run[j] && HoldsStable(run[j], r2, start, end)
    ensures 1 <= start <= end <= |AdmittedBy(run[i], r1)| && end <= |AdmittedBy(run[j], r2)|
    ensures Digests(AdmittedBy(run[i], r1), start, end) == Digests(AdmittedBy(run[j], r2), start, end)
    ensures forall p :: start <= p <= end ==> p in run[i][r1].core.ordered && p in run[j][r2].core.ordered
  {
    hide PoolGood, CheckpointOk, IsRun;
    var last := if i < j then j else i;
    var n1, ck1 := StableLater(m, run, i, last, r1, start, end);
    var n2, ck2 := StableLater(m, run, j, last, r2, start, end);
    StableIsOrdered(m, run, i, r1, start, end);
    StableIsOrdered(m, run, j, r2, start, end);
    RunIsGood(m, run, last);
    StableAgreementIn(m, run[last], r1, r2, n1, n2, ck1, ck2);
    DigestsOfPrefix(AdmittedBy(run[i], r1), AdmittedBy(run[last], r1), start, end);
    DigestsOfPrefix(AdmittedBy(run[j], r2), AdmittedBy(run[last], r2), start, end);
  }

  lemma StableIsOrdered(m: Params, run: seq<PoolState>, i: nat, r: Name, start: nat, end: nat)
    requires m.Valid() && IsRun(m, run) && i < |run| && r in run[i] && HoldsStable(run[i], r, start, end)
    ensures 1 <= start <= end && forall p :: start <= p <= end ==> p in run[i][r].core.ordered
  {
    hide IsRun, ContextOk, HeldOk, PreparesOk, CommitsOk, StashOk, CheckpointsOk, StashedCheckpointsOk, MessagesOk,
         BoxOk, OrderedBoxOk, AnnouncedOk, QueuesOk;
    RunIsGood(m, run, i);
    var ck := StableFor(m, run[i], r, start, end);
    assert Good(m.ConfigOf(r), NetOf(m, run[i]), run[i][r]);
    var ordered := run[i][r].core.ordered;
    forall p | start <= p <= end ensures p in ordered {
      assert ordered[p - 1] == p;
    }
  }
}
