/** The pool of one protocol instance in one view: correct replicas, at most f faulty nodes that may
    say anything to anyone, and a network that may delay, repeat, reorder and lose messages. */
module Pool {
  import opened Messages
  import opened ReplicaSpec
  import opened ReplicaInvariant
  import opened ReplicaCoreProof
  import opened ReplicaProof
  import Quorums

  datatype Params = Params(nodes: set<Name>, faulty: set<Name>, primary: Name, viewNo: nat, f: nat,
                           chkFreq: Pos, logSize: nat, hash: seq<Hash> -> Hash)
  {
    function ConfigOf(r: Name): Config { Config(r, primary, viewNo, f, chkFreq, logSize, hash) }

    predicate Correct(r: Name) { r in nodes && r !in faulty }

    /** Two sets of 2f backups, or of 2f + 1 nodes, always share a correct node. With as many faults as are tolerated
        that is n = 3f + 1. */
    predicate QuorumsMeet() { |nodes| + |faulty| < 4 * f + 2 }

    /** The fault bound the nodes compute from the size of the pool, and no more faults than that. */
    predicate Valid() {
      primary in nodes && faulty <= nodes && f == Quorums.MaxFailures(|nodes|) && |faulty| <= f
    }
  }

  /** The state of each correct replica. */
  type PoolState = map<Name, State>

  function NetOf(m: Params, pool: PoolState): Net {
    Net(m.nodes, m.faulty, map r | r in pool :: pool[r].core.outBox)
  }

  predicate Sent(m: Params, pool: PoolState, w: Name, o: Out) {
    w in m.nodes && (w in m.faulty || (w in pool && o in pool[w].core.outBox))
  }

  /** A delivery carries what its sender, another node, has sent. */
  predicate CanHappen(m: Params, pool: PoolState, r: Name, e: Event) {
    match e
    case Deliver(msg, w, env) => w != r && Sent(m, pool, w, OutThreePhase(msg))
    case DeliverCheckpoint(ck, w) => w != r && Sent(m, pool, w, OutCheckpoint(ck))
    case _ => true
  }

  ghost predicate PoolStep(m: Params, pool: PoolState, pool': PoolState) {
    exists r: Name, e: Event :: StepBy(m, pool, pool', r, e)
  }

  ghost predicate StepBy(m: Params, pool: PoolState, pool': PoolState, r: Name, e: Event) {
    r in pool && CanHappen(m, pool, r, e) && pool' == pool[r := Step(m.ConfigOf(r), pool[r], e)]
  }

  ghost predicate Starts(m: Params, pool: PoolState) {
    pool.Keys == m.nodes - m.faulty && forall r :: r in pool ==> pool[r] == Init
  }

  ghost predicate IsRun(m: Params, run: seq<PoolState>) {
    |run| > 0 && Starts(m, run[0]) && forall i :: 0 < i < |run| ==> PoolStep(m, run[i - 1], run[i])
  }

  // ----- the invariant of the pool -----

  ghost predicate PoolGood(m: Params, pool: PoolState) {
    pool.Keys == m.nodes - m.faulty &&
    forall r :: r in pool ==> Good(m.ConfigOf(r), NetOf(m, pool), pool[r])
  }

  /** What a pool never takes back. */
  ghost predicate PoolExtends(pool: PoolState, pool': PoolState) {
    pool'.Keys == pool.Keys &&
    forall r :: r in pool ==> Extends(pool[r].core, pool'[r].core) && pool[r].admitted <= pool'[r].admitted
  }

  lemma SaidIsOk(m: Params, pool: PoolState, w: Name, o: Out)
    requires PoolGood(m, pool) && w in pool && o in pool[w].core.outBox
    ensures MessageOk(ContextOf(m.ConfigOf(w), NetOf(m, pool), pool[w]), |pool[w].core.ordered|, pool[w].core.outBox, o)
  {
    hide ContextOk, OrderOk, HeldOk, PreparesOk, CommitsOk, StashOk, CheckpointsOk, StashedCheckpointsOk, MessagesOk,
         OrderedBoxOk, AnnouncedOk, MessageOk, QueuesOk;
    assert Good(m.ConfigOf(w), NetOf(m, pool), pool[w]);
  }

  lemma HappeningIsLegal(m: Params, pool: PoolState, r: Name, e: Event)
    requires PoolGood(m, pool) && r in pool && CanHappen(m, pool, r, e)
    ensures Legal(ContextOf(m.ConfigOf(r), NetOf(m, pool), pool[r]), e)
  {
    hide Good;
    if e.DeliverCheckpoint? && e.sender in pool {
      SaidIsOk(m, pool, e.sender, OutCheckpoint(e.ck));
    }
  }

  lemma StepExtends(m: Params, pool: PoolState, pool': PoolState, r: Name)
    requires r in pool && pool'.Keys == pool.Keys && (forall q :: q in pool && q != r ==> pool'[q] == pool[q])
    requires Extends(pool[r].core, pool'[r].core) && pool[r].admitted <= pool'[r].admitted
    ensures PoolExtends(pool, pool') && NetGrows(NetOf(m, pool), NetOf(m, pool'))
  {
  }

  lemma PoolStepOk(m: Params, pool: PoolState, pool': PoolState)
    requires PoolGood(m, pool) && PoolStep(m, pool, pool')
    ensures PoolGood(m, pool') && PoolExtends(pool, pool') && NetGrows(NetOf(m, pool), NetOf(m, pool'))
  {
    hide Good, Step, Legal, CanHappen, Extends;
    var r, e :| StepBy(m, pool, pool', r, e);
    var net, net' := NetOf(m, pool), NetOf(m, pool');
    HappeningIsLegal(m, pool, r, e);
    StepOk(m.ConfigOf(r), net, pool[r], e);
    assert GoodStep(m.ConfigOf(r), net, pool[r], pool'[r]);
    StepExtends(m, pool, pool', r);
    forall q | q in pool' ensures Good(m.ConfigOf(q), net', pool'[q]) {
      GoodGrows(m.ConfigOf(q), net, net', pool'[q]);
    }
  }

  lemma StartsGood(m: Params, pool: PoolState)
    requires m.Valid() && Starts(m, pool)
    ensures PoolGood(m, pool)
  {
    hide Good;
    forall r | r in pool ensures Good(m.ConfigOf(r), NetOf(m, pool), pool[r]) {
      InitGood(m.ConfigOf(r), NetOf(m, pool));
    }
  }

  /** Every state of every run is good. */
  lemma {:induction false} RunIsGood(m: Params, run: seq<PoolState>, i: nat)
    requires m.Valid() && IsRun(m, run) && i < |run|
    ensures PoolGood(m, run[i])
    decreases i
  {
    hide PoolGood, PoolStep;
    if i == 0 {
      StartsGood(m, run[0]);
    } else {
      RunIsGood(m, run, i - 1);
      PoolStepOk(m, run[i - 1], run[i]);
    }
  }

  lemma PoolExtendsTransitive(m: Params, a: PoolState, b: PoolState, c: PoolState)
    requires PoolExtends(a, b) && NetGrows(NetOf(m, a), NetOf(m, b))
    requires PoolExtends(b, c) && NetGrows(NetOf(m, b), NetOf(m, c))
    ensures PoolExtends(a, c) && NetGrows(NetOf(m, a), NetOf(m, c))
  {
    forall r | r in a ensures Extends(a[r].core, c[r].core) && a[r].admitted <= c[r].admitted {
      assert r in b;
      ExtendsTrans(a[r].core, b[r].core, c[r].core);
    }
  }

  lemma ExtendsTrans(k0: Core, k1: Core, k2: Core)
    requires Extends(k0, k1) && Extends(k1, k2)
    ensures Extends(k0, k2)
  {
  }

  /** Nothing is taken back between two points of a run. */
  lemma {:induction false} RunExtends(m: Params, run: seq<PoolState>, i: nat, j: nat)
    requires m.Valid() && IsRun(m, run) && i <= j < |run|
    ensures PoolExtends(run[i], run[j]) && NetGrows(NetOf(m, run[i]), NetOf(m, run[j]))
    decreases j - i
  {
    hide PoolGood, PoolStep;
    if i < j {
      RunExtends(m, run, i, j - 1);
      RunIsGood(m, run, j - 1);
      PoolStepOk(m, run[j - 1], run[j]);
      PoolExtendsTransitive(m, run[i], run[j - 1], run[j]);
    }
  }
}
