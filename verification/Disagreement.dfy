/** Where agreement stops.

    A COMMIT carries no digest, and a replica orders on 2f + 1 COMMITs without having sent its own. So in every pool
    with a faulty primary a correct replica may order a batch that no correct replica committed. And in every pool in
    which quorums need not meet, a faulty primary can have different batches prepared under one number.
 */
module Disagreement {
  import opened Messages
  import opened ReplicaSpec
  import opened ReplicaInvariant
  import opened Pool
  import opened Agreement
  import Quorums

  const AnyEnv := Env({}, (pp: PrePrepare) => true)

  /** Batch number 1 with no requests and the given digest. */
  function BatchWith(viewNo: nat, digest: Hash): PrePrepare {
    PrePrepare(viewNo, 1, 0, [], 0, 0, Cert(digest, Hash(""), Hash("")))
  }

  function One(m: Params): PrePrepare { BatchWith(m.viewNo, Hash("1")) }
  function Two(m: Params): PrePrepare { BatchWith(m.viewNo, Hash("2")) }

  lemma Distinct(m: Params)
    ensures One(m).cert != Two(m).cert
  {
    assert One(m).cert.digest.hex[0] != Two(m).cert.digest.hex[0];
  }

  // ----- a replica that has only seen batch 1 -----

  /** A backup that accepted `pp` as number 1 and holds these votes for it. */
  predicate Holds(c: Config, s: State, pp: PrePrepare, prepared: set<Name>, committed: set<Name>) {
    s.core.h == 0 && s.core.checkpoints == [] && s.core.stashedCheckpoints == map[] &&
    s.core.ordered == [] && s.core.lastOrdered == 0 &&
    s.core.sentPrePrepares == map[] && s.core.prePrepares == map[1 := pp] && s.core.prepares == map[1 := prepared] &&
    s.core.commits == (if committed == {} then map[] else map[1 := committed]) &&
    s.preparesWaiting == map[] && s.commitsWaiting == map[] && s.admitted == [pp] &&
    PrepareOut(pp) in s.core.outBox && (c.self in committed ==> CommitOut(c.viewNo) in s.core.outBox)
  }

  function PrepareOut(pp: PrePrepare): Out { OutThreePhase(PrepareMsg(PrepareFor(pp))) }
  function CommitOut(viewNo: nat): Out { OutThreePhase(CommitMsg(Commit(viewNo, 1))) }

  function GetPP(c: Config, pp: PrePrepare): Event { Deliver(PrePrepareMsg(pp), c.primary, AnyEnv) }
  function GetPrepare(pp: PrePrepare, w: Name): Event { Deliver(PrepareMsg(PrepareFor(pp)), w, AnyEnv) }
  function GetCommit(viewNo: nat, w: Name): Event { Deliver(CommitMsg(Commit(viewNo, 1)), w, AnyEnv) }

  predicate Setting(c: Config, pp: PrePrepare) {
    c.f > 0 && !c.IsPrimary() && c.logSize > 0 && pp.viewNo == c.viewNo && pp.ppSeqNo == 1 && pp.reqIdr == []
  }

  lemma Accepts(c: Config, pp: PrePrepare)
    requires Setting(c, pp)
    ensures Holds(c, Step(c, Init, GetPP(c, pp)), pp, {c.self}, {})
  {
    assert NonFinalised(AnyEnv, pp) == {};
    assert IsNext(Init.core, 1) by { assert Init.core.sentPrePrepares.Keys + Init.core.prePrepares.Keys == {}; }
    var s1 := RecordPrePrepare(Init, pp);
    assert ProcessPrePrepare(c, Init, AnyEnv, pp, c.primary) == AddToPrePrepares(c, Init, pp);
    assert TakeCommits(c, TakePrepares(c, s1, 1), 1) == Outcome(s1, false);
    var k := s1.core.(outBox := [PrepareOut(pp)], prepares := map[1 := {c.self}]);
    assert AddVote(s1.core.prepares, 1, c.self) == map[1 := {c.self}];
    assert TryPrepare(c, s1.core, pp) == TryCommit(c, k, 1) == k;
  }

  /** A replica commits with 2f PREPAREs. */
  function Own(c: Config, prepared: set<Name>): set<Name> { if |prepared| >= 2 * c.f then {c.self} else {} }

  lemma CountsPrepare(c: Config, s: State, pp: PrePrepare, prepared: set<Name>, w: Name)
    requires Setting(c, pp) && Holds(c, s, pp, prepared, Own(c, prepared))
    requires w !in prepared && w != c.self && w != c.primary
    ensures Holds(c, Step(c, s, GetPrepare(pp, w)), pp, prepared + {w}, Own(c, prepared + {w}))
  {
    var k := s.core;
    assert GetPrePrepare(k, 1) == Some(pp);
    var k1 := k.(prepares := map[1 := prepared + {w}]);
    assert AddVote(k.prepares, 1, w) == map[1 := prepared + {w}];
    assert Step(c, s, GetPrepare(pp, w)) == s.(core := TryCommit(c, k1, 1));
    if |prepared + {w}| >= 2 * c.f && c.self !in Voters(k.commits, 1) {
      var k2 := k1.(outBox := k.outBox + [CommitOut(c.viewNo)], commits := map[1 := {c.self}]);
      assert AddVote(k.commits, 1, c.self) == map[1 := {c.self}];
      assert TryCommit(c, k1, 1) == TryOrder(c, k2, 1) == k2;
    } else {
      assert TryCommit(c, k1, 1) == k1;
    }
  }

  lemma CountsCommit(c: Config, s: State, pp: PrePrepare, prepared: set<Name>, committed: set<Name>, w: Name)
    requires Setting(c, pp) && Holds(c, s, pp, prepared, committed)
    requires w !in committed && w != c.self && |committed| < 2 * c.f
    ensures Holds(c, Step(c, s, GetCommit(c.viewNo, w)), pp, prepared, committed + {w})
  {
    var k := s.core;
    assert GetPrePrepare(k, 1) == Some(pp);
    var k1 := k.(commits := map[1 := committed + {w}]);
    assert AddVote(k.commits, 1, w) == map[1 := committed + {w}];
    assert TryOrder(c, k1, 1) == k1;
    assert Step(c, s, GetCommit(c.viewNo, w)) == s.(core := AddToCommits(c, k, 1, w));
  }

  lemma OrdersNow(c: Config, s: State, pp: PrePrepare, prepared: set<Name>, committed: set<Name>, w: Name)
    requires Setting(c, pp) && Holds(c, s, pp, prepared, committed)
    requires w !in committed && w != c.self && |committed| == 2 * c.f
    ensures
      var s' := Step(c, s, GetCommit(c.viewNo, w));
      s'.core.ordered == [1] && s'.admitted == [pp]
  {
    var k := s.core;
    assert GetPrePrepare(k, 1) == Some(pp);
    var k1 := k.(commits := map[1 := committed + {w}]);
    assert AddVote(k.commits, 1, w) == map[1 := committed + {w}];
    assert |committed + {w}| == 2 * c.f + 1;
    assert Step(c, s, GetCommit(c.viewNo, w)) == s.(core := AddToCommits(c, k, 1, w));
    assert CanOrder(c, k1, 1);
    var k2 := k1.(ordered := [1], lastOrdered := 1, outBox := k.outBox + [OutOrdered(OrderedFor(pp))]);
    assert DoOrder(c, k1, 1) == AddToCheckpoint(c, k2, 1, pp.cert.digest);
    FirstCheckpoint(c, k2, pp.cert.digest);
  }

  lemma FirstCheckpoint(c: Config, k: Core, digest: Hash)
    requires k.checkpoints == [] && k.stashedCheckpoints == map[]
    ensures AddToCheckpoint(c, k, 1, digest).ordered == k.ordered
  {
    assert RecordInCheckpoint(c, [], 1, digest) == [NewCheckpoint(c, 1, digest)];
  }

  // ----- building a run -----

  function Last(run: seq<PoolState>): PoolState
    requires run != []
  {
    run[|run| - 1]
  }

  /** The run one step longer: `r` takes event `e`. */
  function Then(m: Params, run: seq<PoolState>, r: Name, e: Event): seq<PoolState>
    requires run != [] && r in Last(run)
  {
    run + [Last(run)[r := Step(m.ConfigOf(r), Last(run)[r], e)]]
  }

  lemma ThenIsRun(m: Params, run: seq<PoolState>, r: Name, e: Event)
    requires IsRun(m, run) && r in Last(run) && CanHappen(m, Last(run), r, e)
    ensures IsRun(m, Then(m, run, r, e))
  {
    hide Step, CanHappen;
    var run' := Then(m, run, r, e);
    assert StepBy(m, Last(run), Last(run'), r, e);
    forall i | 0 < i < |run'| ensures PoolStep(m, run'[i - 1], run'[i]) {
      if i < |run| {
        assert run'[i - 1] == run[i - 1] && run'[i] == run[i];
      }
    }
  }

  function Begin(correct: set<Name>): PoolState { map r | r in correct :: Init }

  lemma BeginIsRun(m: Params)
    ensures IsRun(m, [Begin(m.nodes - m.faulty)])
  {
  }

  /** A pool whose primary is faulty. */
  ghost predicate FaultyPrimary(m: Params) { m.Valid() && m.primary in m.faulty && m.logSize > 0 }

  /** The replicas of `changed` aside, nothing is different. */
  ghost predicate OnlyIn(pool: PoolState, pool': PoolState, changed: set<Name>) {
    pool'.Keys == pool.Keys && forall r :: r in pool && r !in changed ==> pool'[r] == pool[r]
  }

  lemma OnlyInTrans(pool0: PoolState, pool1: PoolState, pool2: PoolState, a: set<Name>, b: set<Name>)
    requires OnlyIn(pool0, pool1, a) && OnlyIn(pool1, pool2, b)
    ensures OnlyIn(pool0, pool2, a + b)
  {
  }

  ghost predicate HeldBy(m: Params, pool: PoolState, r: Name, pp: PrePrepare, prepared: set<Name>,
                         committed: set<Name>)
  {
    r in pool && Holds(m.ConfigOf(r), pool[r], pp, prepared, committed)
  }

  lemma HeldStays(m: Params, pool: PoolState, pool': PoolState, changed: set<Name>, r: Name, pp: PrePrepare,
                  prepared: set<Name>, committed: set<Name>)
    requires HeldBy(m, pool, r, pp, prepared, committed) && OnlyIn(pool, pool', changed) && r !in changed
    ensures HeldBy(m, pool', r, pp, prepared, committed)
  {
  }

  /** All of `done`, members of the group, have committed `pp`. */
  ghost predicate Committed(m: Params, pool: PoolState, group: set<Name>, done: set<Name>, pp: PrePrepare) {
    forall r :: r in done ==> HeldBy(m, pool, r, pp, group + Helpers(m), {r})
  }

  lemma CommittedStays(m: Params, pool: PoolState, pool': PoolState, group: set<Name>, done: set<Name>, pp: PrePrepare,
                       changed: set<Name>)
    requires Committed(m, pool, group, done, pp) && OnlyIn(pool, pool', changed) && done !! changed
    ensures Committed(m, pool', group, done, pp)
  {
    hide HeldBy, Helpers, OnlyIn;
    forall r | r in done ensures HeldBy(m, pool', r, pp, group + Helpers(m), {r}) {
      HeldStays(m, pool, pool', changed, r, pp, group + Helpers(m), {r});
    }
  }

  /** `pp` is a batch for number 1 that the faulty primary may send. */
  ghost predicate FirstBatch(m: Params, pp: PrePrepare) {
    pp.viewNo == m.viewNo && pp.ppSeqNo == 1 && pp.reqIdr == []
  }

  lemma {:induction false} AllAccept(m: Params, run0: seq<PoolState>, group: set<Name>, pp: PrePrepare)
    returns (run: seq<PoolState>)
    requires FaultyPrimary(m) && FirstBatch(m, pp) && IsRun(m, run0)
    requires Last(run0).Keys == m.nodes - m.faulty && group <= Last(run0).Keys
    requires forall r :: r in group ==> Last(run0)[r] == Init
    ensures IsRun(m, run) && OnlyIn(Last(run0), Last(run), group)
    ensures forall r :: r in group ==> HeldBy(m, Last(run), r, pp, {r}, {})
    decreases group
  {
    hide Step, IsRun, Holds, CanHappen;
    run := run0;
    IsRunNonEmpty(m, run0);
    if group != {} {
      var r :| r in group;
      run := AllAccept(m, run0, group - {r}, pp);
      IsRunNonEmpty(m, run);
      var c := m.ConfigOf(r);
      FaultySends(m, Last(run), r, m.primary, PrePrepareMsg(pp));
      ThenIsRun(m, run, r, GetPP(c, pp));
      Accepts(c, pp);
      run := Then(m, run, r, GetPP(c, pp));
    }
  }

  lemma IsRunNonEmpty(m: Params, run: seq<PoolState>)
    requires IsRun(m, run)
    ensures run != []
  {
  }

  lemma FaultySends(m: Params, pool: PoolState, r: Name, w: Name, msg: ThreePhaseMsg)
    requires m.Valid() && w in m.faulty && r != w
    ensures CanHappen(m, pool, r, Deliver(msg, w, AnyEnv))
  {
  }

  lemma CorrectSends(m: Params, pool: PoolState, r: Name, w: Name, msg: ThreePhaseMsg)
    requires w in pool && w in m.nodes && r != w && OutThreePhase(msg) in pool[w].core.outBox
    ensures CanHappen(m, pool, r, Deliver(msg, w, AnyEnv))
  {
  }

  /** Who can send `r` a PREPARE for `pp`. */
  ghost predicate CanPrepare(m: Params, pool: PoolState, r: Name, pp: PrePrepare, w: Name) {
    w != r && w != m.primary && CanHappen(m, pool, r, GetPrepare(pp, w))
  }

  lemma {:induction false} TakesPrepares(m: Params, run0: seq<PoolState>, r: Name, pp: PrePrepare, prepared: set<Name>,
                                         ws: set<Name>) returns (run: seq<PoolState>)
    requires FaultyPrimary(m) && FirstBatch(m, pp) && IsRun(m, run0) && m.Correct(r)
    requires HeldBy(m, Last(run0), r, pp, prepared, Own(m.ConfigOf(r), prepared)) && prepared !! ws
    requires forall w :: w in ws ==> CanPrepare(m, Last(run0), r, pp, w)
    ensures IsRun(m, run) && OnlyIn(Last(run0), Last(run), {r})
    ensures HeldBy(m, Last(run), r, pp, prepared + ws, Own(m.ConfigOf(r), prepared + ws))
    decreases ws
  {
    hide Step, IsRun, Holds, Own;
    run := run0;
    IsRunNonEmpty(m, run0);
    if ws == {} {
      assert prepared + ws == prepared;
    } else {
      var w :| w in ws;
      var c := m.ConfigOf(r);
      assert CanPrepare(m, Last(run0), r, pp, w);
      ThenIsRun(m, run0, r, GetPrepare(pp, w));
      CountsPrepare(c, Last(run0)[r], pp, prepared, w);
      var run1 := Then(m, run0, r, GetPrepare(pp, w));
      forall v | v in ws - {w} ensures CanPrepare(m, Last(run1), r, pp, v) {
        assert CanPrepare(m, Last(run0), r, pp, v);
      }
      run := TakesPrepares(m, run1, r, pp, prepared + {w}, ws - {w});
      assert prepared + {w} + (ws - {w}) == prepared + ws;
    }
  }

  /** The faulty backups. */
  function Helpers(m: Params): set<Name> { m.faulty - {m.primary} }

  /** All members of the group have sent PREPARE for `pp`. */
  ghost predicate AllPrepared(pool: PoolState, group: set<Name>, pp: PrePrepare) {
    forall r :: r in group ==> r in pool && PrepareOut(pp) in pool[r].core.outBox
  }

  lemma CommitsOne(m: Params, run0: seq<PoolState>, group: set<Name>, r: Name, pp: PrePrepare)
    returns (run: seq<PoolState>)
    requires FaultyPrimary(m) && FirstBatch(m, pp) && IsRun(m, run0) && run0 != []
    requires r in group && group <= m.nodes - m.faulty && |group + Helpers(m)| >= 2 * m.f
    requires AllPrepared(Last(run0), group, pp) && HeldBy(m, Last(run0), r, pp, {r}, {})
    ensures IsRun(m, run) && run != [] && OnlyIn(Last(run0), Last(run), {r})
    ensures HeldBy(m, Last(run), r, pp, group + Helpers(m), {r})
  {
    hide Step, IsRun, Holds, CanHappen;
    var ws := group + Helpers(m) - {r};
    forall w | w in ws ensures CanPrepare(m, Last(run0), r, pp, w) {
      if w in group {
        CorrectSends(m, Last(run0), r, w, PrepareMsg(PrepareFor(pp)));
      } else {
        FaultySends(m, Last(run0), r, w, PrepareMsg(PrepareFor(pp)));
      }
    }
    assert Own(m.ConfigOf(r), {r}) == {};
    run := TakesPrepares(m, run0, r, pp, {r}, ws);
    IsRunNonEmpty(m, run);
    assert {r} + ws == group + Helpers(m);
  }

  /** A group that accepted `pp` and, with the faulty backups, has 2f members prepares and commits it. */
  lemma {:induction false} AllCommit(m: Params, run0: seq<PoolState>, group: set<Name>, todo: set<Name>, pp: PrePrepare)
    returns (run: seq<PoolState>)
    requires FaultyPrimary(m) && FirstBatch(m, pp) && IsRun(m, run0) && run0 != []
    requires todo <= group <= m.nodes - m.faulty && |group + Helpers(m)| >= 2 * m.f
    requires AllPrepared(Last(run0), group, pp)
    requires forall r :: r in todo ==> HeldBy(m, Last(run0), r, pp, {r}, {})
    ensures IsRun(m, run) && run != [] && OnlyIn(Last(run0), Last(run), todo)
    ensures Committed(m, Last(run), group, todo, pp)
    decreases todo
  {
    hide Step, IsRun, HeldBy, CanHappen, Helpers, FaultyPrimary, FirstBatch, AllPrepared, OnlyIn;
    if todo == {} {
      run := run0;
      Unchanged(Last(run0));
    } else {
      var r :| r in todo;
      var run1 := AllCommit(m, run0, group, todo - {r}, pp);
      StillPrepared(m, Last(run0), Last(run1), group, todo - {r}, pp);
      HeldStays(m, Last(run0), Last(run1), todo - {r}, r, pp, {r}, {});
      run := CommitsOne(m, run1, group, r, pp);
      CommittedStays(m, Last(run1), Last(run), group, todo - {r}, pp, {r});
      OnlyInTrans(Last(run0), Last(run1), Last(run), todo - {r}, {r});
      assert todo - {r} + {r} == todo;
    }
  }

  lemma Unchanged(pool: PoolState)
    ensures OnlyIn(pool, pool, {})
  {
  }

  lemma StillPrepared(m: Params, pool: PoolState, pool': PoolState, group: set<Name>, done: set<Name>, pp: PrePrepare)
    requires AllPrepared(pool, group, pp) && OnlyIn(pool, pool', done) && Committed(m, pool', group, done, pp)
    ensures AllPrepared(pool', group, pp)
  {
    hide Holds, Helpers;
    forall q | q in group ensures q in pool' && PrepareOut(pp) in pool'[q].core.outBox {
      if q in done {
        HoldsPrepare(m.ConfigOf(q), pool'[q], pp, group + Helpers(m), {q});
      }
    }
  }

  lemma HoldsPrepare(c: Config, s: State, pp: PrePrepare, prepared: set<Name>, committed: set<Name>)
    requires Holds(c, s, pp, prepared, committed)
    ensures PrepareOut(pp) in s.core.outBox && s.admitted == [pp]
    ensures c.self in committed ==> CommitOut(c.viewNo) in s.core.outBox
  {
  }

  ghost predicate CanCommit(m: Params, pool: PoolState, r: Name, w: Name) {
    w != r && CanHappen(m, pool, r, GetCommit(m.viewNo, w))
  }

  /** 2f + 1 COMMITs for number 1 make a replica order what it holds for number 1. */
  lemma {:induction false} TakesCommits(m: Params, run0: seq<PoolState>, r: Name, pp: PrePrepare, prepared: set<Name>,
                                        committed: set<Name>, ws: set<Name>) returns (run: seq<PoolState>)
    requires FaultyPrimary(m) && FirstBatch(m, pp) && IsRun(m, run0) && m.Correct(r)
    requires HeldBy(m, Last(run0), r, pp, prepared, committed) && committed !! ws
    requires |committed| + |ws| == 2 * m.f + 1 && ws != {}
    requires forall w :: w in ws ==> CanCommit(m, Last(run0), r, w)
    ensures IsRun(m, run) && OnlyIn(Last(run0), Last(run), {r})
    ensures r in Last(run) && Last(run)[r].core.ordered == [1] && Last(run)[r].admitted == [pp]
    decreases ws
  {
    hide Step, IsRun, Holds;
    IsRunNonEmpty(m, run0);
    var w :| w in ws;
    var c := m.ConfigOf(r);
    assert CanCommit(m, Last(run0), r, w);
    ThenIsRun(m, run0, r, GetCommit(m.viewNo, w));
    var run1 := Then(m, run0, r, GetCommit(m.viewNo, w));
    assert |ws - {w}| == |ws| - 1;
    if ws == {w} {
      OrdersNow(c, Last(run0)[r], pp, prepared, committed, w);
      run := run1;
    } else {
      assert ws - {w} != {};
      assert |ws - {w}| > 0;
      CountsCommit(c, Last(run0)[r], pp, prepared, committed, w);
      assert |committed + {w}| == |committed| + 1;
      forall v | v in ws - {w} ensures CanCommit(m, Last(run1), r, v) {
        assert CanCommit(m, Last(run0), r, v);
      }
      run := TakesCommits(m, run1, r, pp, prepared, committed + {w}, ws - {w});
    }
  }

  // ----- the runs -----

  lemma {:induction false} SubsetOf(s: set<Name>, k: nat) returns (a: set<Name>)
    requires k <= |s|
    ensures a <= s && |a| == k
    decreases k
  {
    if k == 0 {
      a := {};
    } else {
      var x :| x in s;
      var rest := SubsetOf(s - {x}, k - 1);
      a := rest + {x};
    }
  }

  /** A group of the size that, with the faulty backups, makes a quorum. */
  ghost predicate Enough(m: Params, group: set<Name>) {
    group <= m.nodes - m.faulty && |group| == 2 * m.f + 1 - |m.faulty|
  }

  lemma EnoughWithHelpers(m: Params, group: set<Name>)
    requires FaultyPrimary(m) && Enough(m, group)
    ensures |group + Helpers(m)| == 2 * m.f && |group + m.faulty| == 2 * m.f + 1
    ensures forall r :: r in group ==> |group - {r} + m.faulty| == 2 * m.f
  {
    Quorums.Union(group, Helpers(m));
    Quorums.Union(group, m.faulty);
    assert group * Helpers(m) == {} && group * m.faulty == {};
    forall r | r in group ensures |group - {r} + m.faulty| == 2 * m.f {
      Quorums.Union(group - {r}, m.faulty);
      assert (group - {r}) * m.faulty == {};
    }
  }

  /** Such a group accepts, prepares and commits a batch. */
  lemma GroupCommits(m: Params, run0: seq<PoolState>, group: set<Name>, pp: PrePrepare) returns (run: seq<PoolState>)
    requires FaultyPrimary(m) && FirstBatch(m, pp) && IsRun(m, run0) && run0 != [] && Enough(m, group)
    requires Last(run0).Keys == m.nodes - m.faulty && forall r :: r in group ==> Last(run0)[r] == Init
    ensures IsRun(m, run) && run != [] && OnlyIn(Last(run0), Last(run), group)
    ensures Committed(m, Last(run), group, group, pp)
  {
    hide Step, IsRun, Holds, CanHappen, Helpers, FaultyPrimary, FirstBatch, Committed;
    var run1 := AllAccept(m, run0, group, pp);
    IsRunNonEmpty(m, run1);
    forall r | r in group ensures PrepareOut(pp) in Last(run1)[r].core.outBox {
      HoldsPrepare(m.ConfigOf(r), Last(run1)[r], pp, {r}, {});
    }
    EnoughWithHelpers(m, group);
    run := AllCommit(m, run1, group, group, pp);
    OnlyInTrans(Last(run0), Last(run1), Last(run), group, group);
    assert group + group == group;
  }

  /** Both replicas have ordered number `p`, with different certificates. */
  ghost predicate OrderedDiffer(m: Params, run: seq<PoolState>, r1: Name, r2: Name, p: nat) {
    && IsRun(m, run) && run != [] && m.Correct(r1) && m.Correct(r2) && r1 in Last(run) && r2 in Last(run)
    && 1 <= p <= |Last(run)[r1].core.ordered| && p <= |Last(run)[r2].core.ordered|
    && p <= |AdmittedBy(Last(run), r1)| && p <= |AdmittedBy(Last(run), r2)|
    && AdmittedBy(Last(run), r1)[p - 1].cert != AdmittedBy(Last(run), r2)[p - 1].cert
  }

  /** Both replicas have sent COMMIT for number `p`, with different certificates. */
  ghost predicate PreparedDiffer(m: Params, run: seq<PoolState>, r1: Name, r2: Name, p: nat) {
    && IsRun(m, run) && run != [] && m.Correct(r1) && m.Correct(r2) && r1 in Last(run) && r2 in Last(run)
    && SentCommit(m, Last(run), r1, p) && SentCommit(m, Last(run), r2, p)
    && 1 <= p <= |AdmittedBy(Last(run), r1)| && p <= |AdmittedBy(Last(run), r2)|
    && AdmittedBy(Last(run), r1)[p - 1].cert != AdmittedBy(Last(run), r2)[p - 1].cert
  }

  lemma CorrectSize(m: Params)
    requires m.Valid()
    ensures |m.nodes - m.faulty| == |m.nodes| - |m.faulty|
  {
    Quorums.Union(m.nodes - m.faulty, m.faulty);
    assert (m.nodes - m.faulty) * m.faulty == {} && m.nodes - m.faulty + m.faulty == m.nodes;
  }

  /** The members of a group that committed, other than the receiver, and the faulty nodes can send COMMIT. */
  lemma GroupCanCommit(m: Params, pool: PoolState, group: set<Name>, r: Name, pp: PrePrepare)
    requires FaultyPrimary(m) && m.Correct(r) && group <= m.nodes
    requires Committed(m, pool, group, group - {r}, pp)
    ensures forall w :: w in group - {r} + m.faulty ==> CanCommit(m, pool, r, w)
  {
    hide Holds, CanHappen;
    forall w | w in group - {r} + m.faulty ensures CanCommit(m, pool, r, w) {
      if w in m.faulty {
        FaultySends(m, pool, r, w, CommitMsg(Commit(m.viewNo, 1)));
      } else {
        HoldsPrepare(m.ConfigOf(w), pool[w], pp, group + Helpers(m), {w});
        CorrectSends(m, pool, r, w, CommitMsg(Commit(m.viewNo, 1)));
      }
    }
  }

  /** Two groups of correct replicas: the first is large enough to commit with the faulty nodes' help. */
  lemma SplitCorrect(m: Params) returns (group: set<Name>, rest: set<Name>)
    requires FaultyPrimary(m)
    ensures group + rest == m.nodes - m.faulty && group !! rest && group != {} && rest != {}
    ensures Enough(m, group) && |rest| == |m.nodes| - 2 * m.f - 1
  {
    CorrectSize(m);
    var correct := m.nodes - m.faulty;
    group := SubsetOf(correct, 2 * m.f + 1 - |m.faulty|);
    rest := correct - group;
    Quorums.Union(group, rest);
    assert group * rest == {} && group + rest == correct;
  }

  /** One group has committed One, a replica outside it has accepted Two. */
  ghost predicate SplitPool(m: Params, pool: PoolState, group: set<Name>, r: Name) {
    && pool.Keys == m.nodes - m.faulty && Enough(m, group) && r !in group && r in pool
    && Committed(m, pool, group, group, One(m))
    && HeldBy(m, pool, r, Two(m), {r}, {})
  }

  lemma Splits(m: Params) returns (run: seq<PoolState>, group: set<Name>, r: Name)
    requires FaultyPrimary(m)
    ensures IsRun(m, run) && run != [] && group != {} && SplitPool(m, Last(run), group, r)
  {
    hide Step, IsRun, CanHappen, HeldBy, Helpers, FaultyPrimary, Enough, Committed;
    var rest;
    group, rest := SplitCorrect(m);
    r :| r in rest;
    BeginIsRun(m);
    GroupIsCorrect(m, group);
    var run1 := GroupCommits(m, [Begin(m.nodes - m.faulty)], group, One(m));
    run := AllAccept(m, run1, {r}, Two(m));
    IsRunNonEmpty(m, run);
    CommittedStays(m, Last(run1), Last(run), group, group, One(m), {r});
  }

  lemma GroupIsCorrect(m: Params, group: set<Name>)
    requires Enough(m, group)
    ensures group <= m.nodes - m.faulty
  {
  }

  /** The replica outside the group orders Two on the COMMITs of the group and the faulty nodes. */
  lemma OutsiderOrders(m: Params, run0: seq<PoolState>, group: set<Name>, r: Name) returns (run: seq<PoolState>)
    requires FaultyPrimary(m) && IsRun(m, run0) && run0 != [] && Enough(m, group) && r !in group && m.Correct(r)
    requires Committed(m, Last(run0), group, group, One(m)) && HeldBy(m, Last(run0), r, Two(m), {r}, {})
    ensures IsRun(m, run) && run != [] && Committed(m, Last(run), group, group, One(m))
    ensures r in Last(run) && Last(run)[r].core.ordered == [1] && Last(run)[r].admitted == [Two(m)]
  {
    hide Step, IsRun, CanHappen, CanCommit, Helpers, HeldBy, Committed, OnlyIn, FaultyPrimary, FirstBatch, Enough,
         One, Two;
    EnoughWithHelpers(m, group);
    GroupIsCorrect(m, group);
    FirstBatches(m);
    assert group - {r} == group;
    GroupCanCommit(m, Last(run0), group, r, One(m));
    var ws := group + m.faulty;
    assert |ws| > 0;
    run := TakesCommits(m, run0, r, Two(m), {r}, {}, ws);
    IsRunNonEmpty(m, run);
    CommittedStays(m, Last(run0), Last(run), group, group, One(m), {r});
  }

  lemma FirstBatches(m: Params)
    ensures FirstBatch(m, One(m)) && FirstBatch(m, Two(m))
  {
  }

  /** A member of the group orders One on the same COMMITs. */
  lemma MemberOrders(m: Params, run0: seq<PoolState>, group: set<Name>, r: Name) returns (run: seq<PoolState>)
    requires FaultyPrimary(m) && IsRun(m, run0) && run0 != [] && Enough(m, group) && r in group
    requires Committed(m, Last(run0), group, group, One(m))
    ensures IsRun(m, run) && run != [] && OnlyIn(Last(run0), Last(run), {r})
    ensures r in Last(run) && Last(run)[r].core.ordered == [1] && Last(run)[r].admitted == [One(m)]
  {
    hide Step, IsRun, CanHappen, CanCommit, Helpers, HeldBy, Committed, OnlyIn, FaultyPrimary, FirstBatch, Enough,
         One, Two;
    EnoughWithHelpers(m, group);
    GroupIsCorrect(m, group);
    FirstBatches(m);
    MemberCommitted(m, Last(run0), group, r, One(m));
    GroupCanCommit(m, Last(run0), group, r, One(m));
    run := TakesCommits(m, run0, r, One(m), group + Helpers(m), {r}, group - {r} + m.faulty);
    IsRunNonEmpty(m, run);
  }

  /** In every pool with a faulty primary two correct replicas can order different batches under number 1: one group
      prepares and commits One with the help of the faulty backups, and a replica outside it, which accepted Two,
      orders that on the same COMMITs. */
  lemma FaultyPrimarySplitsOrder(m: Params) returns (run: seq<PoolState>, r1: Name, r2: Name)
    requires FaultyPrimary(m)
    ensures OrderedDiffer(m, run, r1, r2, 1)
  {
    hide Step, IsRun, HeldBy, Committed, OnlyIn, FaultyPrimary;
    var run1, group;
    run1, group, r2 := Splits(m);
    r1 :| r1 in group;
    var run2 := OutsiderOrders(m, run1, group, r2);
    run := MemberOrders(m, run2, group, r1);
    StaysAsIs(Last(run2), Last(run), r1, r2);
    Distinct(m);
  }

  lemma MemberCommitted(m: Params, pool: PoolState, group: set<Name>, r: Name, pp: PrePrepare)
    requires Committed(m, pool, group, group, pp) && r in group
    ensures HeldBy(m, pool, r, pp, group + Helpers(m), {r}) && Committed(m, pool, group, group - {r}, pp)
  {
    hide HeldBy, Helpers;
  }

  lemma StaysAsIs(pool: PoolState, pool': PoolState, r1: Name, r2: Name)
    requires OnlyIn(pool, pool', {r1}) && r2 in pool && r1 != r2
    ensures r2 in pool' && pool'[r2] == pool[r2]
  {
  }

  /** In every pool with a faulty primary in which quorums need not meet, two correct replicas can commit different
      batches under number 1. */
  lemma FaultyPrimarySplitsPrepares(m: Params) returns (run: seq<PoolState>, r1: Name, r2: Name)
    requires FaultyPrimary(m) && !m.QuorumsMeet()
    ensures PreparedDiffer(m, run, r1, r2, 1)
  {
    hide Step, IsRun, CanHappen, Helpers, HeldBy, Committed;
    var group, rest := SplitCorrect(m);
    var other := SubsetOf(rest, 2 * m.f + 1 - |m.faulty|);
    assert Enough(m, other) && |other| > 0;
    r1 :| r1 in group;
    r2 :| r2 in other;
    BeginIsRun(m);
    var run1 := GroupCommits(m, [Begin(m.nodes - m.faulty)], group, One(m));
    run := GroupCommits(m, run1, other, Two(m));
    CommittedStays(m, Last(run1), Last(run), group, group, One(m), other);
    CommittedSent(m, Last(run), group, r1, One(m));
    CommittedSent(m, Last(run), other, r2, Two(m));
    Distinct(m);
  }

  lemma CommittedSent(m: Params, pool: PoolState, group: set<Name>, r: Name, pp: PrePrepare)
    requires Committed(m, pool, group, group, pp) && r in group
    ensures r in pool && SentCommit(m, pool, r, 1) && pool[r].admitted == [pp]
  {
    hide Holds, Helpers;
    HoldsPrepare(m.ConfigOf(r), pool[r], pp, group + Helpers(m), {r});
  }

  // ----- exactly when agreement holds -----

  /** All runs of a pool agree on what is ordered if and only if its primary is correct. */
  lemma OrderingAgreesIff(m: Params)
    requires m.Valid() && m.logSize > 0
    ensures (forall run, r1, r2, p :: !OrderedDiffer(m, run, r1, r2, p)) <==> m.Correct(m.primary)
  {
    hide IsRun;
    if m.Correct(m.primary) {
      forall run, r1, r2, p ensures !OrderedDiffer(m, run, r1, r2, p) {
        if OrderedDiffer(m, run, r1, r2, p) {
          CorrectPrimaryAgreement(m, run, |run| - 1, r1, r2);
          CorrectPrimaryAgreement(m, run, |run| - 1, r2, r1);
        }
      }
    } else {
      var run, r1, r2 := FaultyPrimarySplitsOrder(m);
    }
  }

  /** All runs of a pool agree on what is committed under a number if and only if its primary is correct or quorums
      meet. */
  lemma PreparedAgreesIff(m: Params)
    requires m.Valid() && m.logSize > 0
    ensures (forall run, r1, r2, p :: !PreparedDiffer(m, run, r1, r2, p))
       <==> m.Correct(m.primary) || m.QuorumsMeet()
  {
    hide IsRun;
    if m.Correct(m.primary) {
      forall run, r1, r2, p ensures !PreparedDiffer(m, run, r1, r2, p) {
        if PreparedDiffer(m, run, r1, r2, p) {
          CorrectPrimaryAgreement(m, run, |run| - 1, r1, r2);
          CorrectPrimaryAgreement(m, run, |run| - 1, r2, r1);
        }
      }
    } else if m.QuorumsMeet() {
      forall run, r1, r2, p ensures !PreparedDiffer(m, run, r1, r2, p) {
        if PreparedDiffer(m, run, r1, r2, p) {
          PreparedAgreement(m, run, |run| - 1, p, r1, r2);
        }
      }
    } else {
      var run, r1, r2 := FaultyPrimarySplitsPrepares(m);
    }
  }
}
