/** The replica as the program has it: an object whose methods update its fields. The fields that votes work
    on are the components of `core`; an assignment to one of them replaces that component. Each method is proved
    to do what the function of ReplicaSpec.dfy says, so what ReplicaProof.dfy and Agreement.dfy prove
    about the functions holds of the object. */
module ReplicaObject {
  import opened Messages
  import opened ReplicaSpec

  class Replica {
    const c: Config

    var core: Core
    var preparesWaiting: map<nat, seq<(Prepare, Name)>>
    var commitsWaiting: map<nat, seq<(Commit, Name)>>
    var pendingFin: seq<PendingFin>
    var pendingPrev: seq<PendingPrev>
    var lastPrePrepare: nat
    var admitted: seq<PrePrepare>

    /** All fields. */
    function S(): State
      reads this
    {
      State(core, preparesWaiting, commitsWaiting, pendingFin, pendingPrev, lastPrePrepare, admitted)
    }

    constructor (c: Config)
      ensures this.c == c && S() == Init
    {
      this.c := c;
      core := InitCore;
      preparesWaiting, commitsWaiting, pendingFin, pendingPrev := map[], map[], [], [];
      lastPrePrepare, admitted := 0, [];
    }

    // ----- checkpoints -----

    method CollectGarbage(till: nat)
      modifies this`core
      ensures core == Gc(old(core), till)
    {
      var keys := set p | p in core.sentPrePrepares.Keys + core.prePrepares.Keys && p <= till;
      core := core.(sentPrePrepares := core.sentPrePrepares - keys);
      core := core.(prePrepares := core.prePrepares - keys);
      core := core.(prepares := core.prepares - keys);
      core := core.(commits := core.commits - keys);
    }

    method MarkCheckPointStable(seqNo: nat)
      modifies this`core
      ensures core == MarkStable(old(core), seqNo)
    {
      hide Gc;
      var i := 0;
      while i < |core.checkpoints| && core.checkpoints[i].end != seqNo
        invariant 0 <= i <= |core.checkpoints|
        invariant forall j :: 0 <= j < i ==> core.checkpoints[j].end != seqNo
      {
        i := i + 1;
      }
      assert EndIndex(core.checkpoints, seqNo) == i;
      if i == |core.checkpoints| {
        return;
      }
      core := core.(checkpoints := core.checkpoints[i := core.checkpoints[i].(isStable := true)]);
      core := core.(h := seqNo);
      core := core.(checkpoints := core.checkpoints[i..]);
      core := core.(replay := core.replay + core.outside);
      core := core.(outside := []);
      CollectGarbage(seqNo);
    }

    method CheckCheckpointStable(ck: CheckpointState)
      modifies this`core
      ensures core == CheckIfStable(c, old(core), ck)
    {
      hide MarkStable;
      if |ck.received| == 2 * c.f {
        MarkCheckPointStable(ck.seqNo);
      }
    }

    method OnCheckpoint(start: nat, end: nat, digest: Hash, w: Name)
      modifies this`core
      ensures core == ProcessCheckpoint(c, old(core), start, end, digest, w)
    {
      hide CheckIfStable, PutStashed;
      if IsStable(core, end) {
        return;
      }
      var i := KeyIndex(core.checkpoints, start, end);
      if i < |core.checkpoints| && core.checkpoints[i].digest.Some? {
        var ck := core.checkpoints[i];
        if ck.digest.value == digest {
          ck := ck.(received := ck.received[w := digest]);
          core := core.(checkpoints := core.checkpoints[i := ck]);
          CheckCheckpointStable(ck);
        }
      } else {
        var stash := if (start, end) in core.stashedCheckpoints then core.stashedCheckpoints[(start, end)] else [];
        core := core.(stashedCheckpoints := core.stashedCheckpoints[(start, end) := PutStashed(stash, w, digest)]);
      }
    }

    method OnStashedCheckpoints(start: nat, end: nat)
      modifies this`core
      ensures core == ReplayCheckpoints(c, old(core), start, end, StashedFor(old(core), start, end))
    {
      var todo := if (start, end) in core.stashedCheckpoints then core.stashedCheckpoints[(start, end)] else [];
      while todo != []
        invariant ReplayCheckpoints(c, core, start, end, todo) ==
                  ReplayCheckpoints(c, old(core), start, end, StashedFor(old(core), start, end))
        decreases |todo|
      {
        OnCheckpoint(start, end, todo[0].1, todo[0].0);
        todo := todo[1..];
      }
    }

    method RecordOrdered(p: nat, digest: Hash)
      modifies this`core
      ensures core == AddToCheckpoint(c, old(core), p, digest)
    {
      hide ReplayCheckpoints, InsertCheckpoint, NewCheckpoint;
      var i := 0;
      while i < |core.checkpoints| && !(core.checkpoints[i].start <= p <= core.checkpoints[i].end)
        invariant 0 <= i <= |core.checkpoints|
        invariant forall j :: 0 <= j < i ==> !(core.checkpoints[j].start <= p <= core.checkpoints[j].end)
      {
        i := i + 1;
      }
      assert CoverIndex(core.checkpoints, p) == i;
      if i < |core.checkpoints| {
        var ck := core.checkpoints[i];
        core := core.(checkpoints := core.checkpoints[i := ck.(seqNo := p, digests := ck.digests + [digest])]);
      } else {
        core := core.(checkpoints := InsertCheckpoint(core.checkpoints, NewCheckpoint(c, p, digest)));
      }
      i := CoverIndex(core.checkpoints, p);
      if i < |core.checkpoints| && |core.checkpoints[i].digests| == c.chkFreq {
        var ck := core.checkpoints[i];
        var d := c.hash(ck.digests);
        core := core.(checkpoints := core.checkpoints[i := ck.(digest := Some(d), digests := [])]);
        core := core.(outBox := core.outBox + [OutCheckpoint(Checkpoint(c.viewNo, ck.start, ck.end, d))]);
        OnStashedCheckpoints(ck.start, ck.end);
      }
    }

    // ----- ordering -----

    method Order(p: nat)
      modifies this`core
      ensures core == DoOrder(c, old(core), p)
    {
      hide AddToCheckpoint;
      var pp := GetPrePrepare(core, p);
      if pp.None? {
        core := core.(failed := true);
        return;
      }
      if p !in core.ordered {
        core := core.(ordered := core.ordered + [p]);
      }
      if p > core.lastOrdered {
        core := core.(lastOrdered := p);
      }
      core := core.(outBox := core.outBox + [OutOrdered(OrderedFor(pp.value))]);
      RecordOrdered(pp.value.ppSeqNo, pp.value.cert.digest);
    }

    method PreviousOrdered(p: nat) returns (yes: bool)
      ensures yes == AllPrevOrdered(core, p)
    {
      if core.ordered != [] && core.ordered[|core.ordered| - 1] + 1 == p {
        return true;
      }
      var toCheck := core.sentPrePrepares.Keys + core.prePrepares.Keys + core.prepares.Keys + core.commits.Keys;
      ghost var seen: set<nat> := {};
      while toCheck != {}
        invariant seen + toCheck
               == core.sentPrePrepares.Keys + core.prePrepares.Keys + core.prepares.Keys + core.commits.Keys
        invariant forall q :: q in seen && q < p ==> q in core.ordered
        decreases toCheck
      {
        var q :| q in toCheck;
        if q < p && q !in core.ordered {
          return false;
        }
        toCheck := toCheck - {q};
        seen := seen + {q};
      }
      return true;
    }

    method TryToOrder(p: nat) returns (done: bool)
      modifies this`core
      ensures core == TryOrder(c, old(core), p) && done == CanOrder(c, old(core), p)
    {
      hide DoOrder, AllPrevOrdered;
      if !HasVotes(core.commits, p, 2 * c.f + 1) || p in core.ordered {
        return false;
      }
      done := PreviousOrdered(p);
      if done {
        Order(p);
      } else if p !in core.stashedCommits {
        core := core.(stashedCommits := core.stashedCommits + [p]);
      }
    }

    method OrderStashedCommits()
      modifies this`core
      ensures core == ProcessStashedCommits(c, old(core))
    {
      hide TryOrder, CanOrder;
      if core.ordered == [] {
        return;
      }
      var last := core.ordered[|core.ordered| - 1];
      var todo := core.stashedCommits;
      var kept := [];
      while todo != []
        invariant OrderStashed(c, core, todo, last, kept) == ProcessStashedCommits(c, old(core))
        decreases |todo|
      {
        var p := todo[0];
        if p !in core.ordered {
          if last + 1 == p {
            var done := TryToOrder(p);
            if done {
              last := p;
            } else {
              kept := kept + [p];
            }
          } else {
            kept := kept + [p];
          }
        }
        todo := todo[1..];
      }
      core := core.(stashedCommits := kept);
    }

    // ----- votes -----

    method TakeCommitVote(p: nat, w: Name)
      modifies this`core
      ensures core == AddToCommits(c, old(core), p, w)
    {
      hide TryOrder;
      core := core.(commits := AddVote(core.commits, p, w));
      var done := TryToOrder(p);
    }

    method TryToCommit(p: nat)
      modifies this`core
      ensures core == TryCommit(c, old(core), p)
    {
      hide AddToCommits;
      if HasVotes(core.prepares, p, 2 * c.f) && c.self !in Voters(core.commits, p) {
        core := core.(outBox := core.outBox + [OutThreePhase(CommitMsg(Commit(c.viewNo, p)))]);
        TakeCommitVote(p, c.self);
      }
    }

    method TakePrepareVote(p: nat, w: Name)
      modifies this`core
      ensures core == AddToPrepares(c, old(core), p, w)
    {
      hide TryCommit;
      core := core.(prepares := AddVote(core.prepares, p, w));
      TryToCommit(p);
    }

    method TryToPrepare(pp: PrePrepare)
      modifies this`core
      ensures core == TryPrepare(c, old(core), pp)
    {
      hide AddToPrepares;
      if c.self !in Voters(core.prepares, pp.ppSeqNo) {
        core := core.(outBox := core.outBox + [OutThreePhase(PrepareMsg(PrepareFor(pp)))]);
        TakePrepareVote(pp.ppSeqNo, c.self);
      }
    }

    // ----- COMMIT and PREPARE -----

    method OnCommit(cm: Commit, w: Name) returns (raised: bool)
      modifies this
      ensures Outcome(S(), raised) == ProcessCommit(c, old(S()), cm, w)
    {
      hide AddToCommits, IsStable;
      raised := false;
      var p := cm.ppSeqNo;
      if IsStable(core, p) {
      } else if GetPrePrepare(core, p).None? {
        commitsWaiting := commitsWaiting[p := (if p in commitsWaiting then commitsWaiting[p] else []) + [(cm, w)]];
      } else if p !in core.prepares && p !in preparesWaiting {
      } else if w in Voters(core.commits, p) {
        raised := true;
      } else {
        TakeCommitVote(p, w);
      }
    }

    method OnQueuedCommits(p: nat) returns (raised: bool)
      modifies this
      ensures Outcome(S(), raised) == TakeCommits(c, old(S()), p)
    {
      hide ProcessCommit;
      raised := false;
      if p in commitsWaiting {
        var todo := commitsWaiting[p];
        while todo != []
          invariant !raised && DequeueCommits(c, S(), p, todo) == TakeCommits(c, old(S()), p)
          decreases |todo|
        {
          commitsWaiting := commitsWaiting[p := todo[1..]];
          raised := OnCommit(todo[0].0, todo[0].1);
          if raised {
            return;
          }
          todo := todo[1..];
        }
        commitsWaiting := commitsWaiting - {p};
      }
    }

    method OnPrepare(m: Prepare, w: Name)
      modifies this
      ensures S() == ProcessPrepare(c, old(S()), m, w)
    {
      hide AddToPrepares, IsStable;
      var p := m.ppSeqNo;
      var pp := GetPrePrepare(core, p);
      if IsStable(core, p) || w == c.primary || w in Voters(core.prepares, p) {
        return;
      }
      if pp.None? {
        if !c.IsPrimary() {
          preparesWaiting := preparesWaiting[p := (if p in preparesWaiting then preparesWaiting[p] else []) + [(m, w)]];
        }
      } else if m.cert == pp.value.cert {
        TakePrepareVote(p, w);
      }
    }

    method OnQueuedPrepares(p: nat)
      modifies this
      ensures S() == TakePrepares(c, old(S()), p)
    {
      hide ProcessPrepare;
      if p in preparesWaiting {
        var todo := preparesWaiting[p];
        while todo != []
          invariant DequeuePrepares(c, S(), p, todo) == TakePrepares(c, old(S()), p)
          decreases |todo|
        {
          preparesWaiting := preparesWaiting[p := todo[1..]];
          OnPrepare(todo[0].0, todo[0].1);
          todo := todo[1..];
        }
        preparesWaiting := preparesWaiting - {p};
      }
    }

    // ----- PRE-PREPARE -----

    method Accept(pp: PrePrepare) returns (raised: bool)
      modifies this
      ensures Outcome(S(), raised) == AddToPrePrepares(c, old(S()), pp)
    {
      hide TakePrepares, TakeCommits, TryPrepare;
      core := core.(prePrepares := core.prePrepares[pp.ppSeqNo := pp]);
      if pp.ppSeqNo > lastPrePrepare {
        lastPrePrepare := pp.ppSeqNo;
      }
      admitted := admitted + [pp];
      OnQueuedPrepares(pp.ppSeqNo);
      raised := OnQueuedCommits(pp.ppSeqNo);
      if !raised {
        TryToPrepare(pp);
      }
    }

    method OnPrePrepare(env: Env, pp: PrePrepare, w: Name) returns (raised: bool)
      modifies this
      ensures Outcome(S(), raised) == ProcessPrePrepare(c, old(S()), env, pp, w)
    {
      hide AddToPrePrepares, IsNext, PutPending;
      var missing := NonFinalised(env, pp);
      raised := false;
      if w != c.primary || c.IsPrimary() || pp.ppSeqNo in core.prePrepares {
        raised := true;
      } else if missing != {} {
        pendingFin := pendingFin + [PendingFin(pp, w, missing)];
      } else if !IsNext(core, pp.ppSeqNo) {
        pendingPrev := PutPending(pendingPrev, PendingPrev(pp, w));
      } else if !env.valid(pp) {
        raised := true;
      } else {
        raised := Accept(pp);
      }
    }

    method ReleasePending(env: Env)
      modifies this`pendingFin, this`pendingPrev
      ensures pendingFin == ReleaseFinalised(env, old(pendingFin), old(pendingPrev)).0
      ensures pendingPrev == ReleaseFinalised(env, old(pendingFin), old(pendingPrev)).1
    {
      hide PutPending;
      var kept := [];
      var n := |pendingFin|;
      ghost var goal := ReleaseFinalised(env, pendingFin, pendingPrev);
      assert pendingFin[..n] == pendingFin && goal.0 + kept == goal.0;
      while n > 0
        invariant 0 <= n <= |pendingFin| && pendingFin == old(pendingFin)
        invariant ReleaseFinalised(env, pendingFin[..n], pendingPrev).0 + kept == goal.0
        invariant ReleaseFinalised(env, pendingFin[..n], pendingPrev).1 == goal.1
      {
        var e := pendingFin[n - 1];
        var missing := e.missing - env.finalised;
        assert pendingFin[..n][..n - 1] == pendingFin[..n - 1];
        if missing == {} {
          pendingPrev := PutPending(pendingPrev, PendingPrev(e.pp, e.sender));
        } else {
          ghost var fin := ReleaseFinalised(env, pendingFin[..n - 1], pendingPrev).0;
          assert fin + [e.(missing := missing)] + kept == fin + ([e.(missing := missing)] + kept);
          kept := [e.(missing := missing)] + kept;
        }
        n := n - 1;
      }
      assert pendingFin[..0] == [] && [] + kept == kept;
      pendingFin := kept;
    }

    method ServicePending(env: Env) returns (raised: bool)
      modifies this
      ensures Outcome(S(), raised) == DequeuePrePrepares(c, old(S()), env)
    {
      hide ProcessPrePrepare, IsNext, ReleaseFinalised;
      ReleasePending(env);
      raised := false;
      while pendingPrev != [] && IsNext(core, pendingPrev[0].pp.ppSeqNo)
        invariant !raised && DrainPending(c, S(), env) == DequeuePrePrepares(c, old(S()), env)
        decreases |pendingPrev|
      {
        var e := pendingPrev[0];
        pendingPrev := pendingPrev[1..];
        if e.pp.viewNo == c.viewNo {
          PendingAfter(c, S(), env, e.pp, e.sender);
          raised := OnPrePrepare(env, e.pp, e.sender);
          if raised {
            return;
          }
        }
      }
    }

    // ----- entry points -----

    /** `failed` is the outcome of the assertion that the message is of no later view. */
    method DispatchMsg(env: Env, m: ThreePhaseMsg, w: Name) returns (failed: bool)
      modifies this
      ensures S() == Dispatch(c, old(S()), env, m, w)
      ensures failed <==> LaterView(c, old(S()), m)
    {
      hide IsStable, ProcessPrePrepare, ProcessPrepare, ProcessCommit;
      failed := false;
      if IsStable(core, m.PpSeqNo()) {
      } else if BetweenWaterMarks(c, core, m.PpSeqNo()) {
        failed := m.ViewNo() > c.viewNo;
        if m.ViewNo() == c.viewNo {
          var raised := false;
          match m
          case PrePrepareMsg(pp) => raised := OnPrePrepare(env, pp, w);
          case PrepareMsg(p) => OnPrepare(p, w);
          case CommitMsg(cm) => raised := OnCommit(cm, w);
        }
      } else {
        core := core.(outside := core.outside + [(m, w)]);
      }
    }

    method MakeBatch(body: PrePrepare)
      requires c.IsPrimary()
      modifies this`lastPrePrepare, this`core, this`admitted
      ensures S() == SendBatch(c, old(S()), body)
    {
      var p := lastPrePrepare + 1;
      var pp := body.(viewNo := c.viewNo, ppSeqNo := p);
      lastPrePrepare := p;
      core := core.(sentPrePrepares := core.sentPrePrepares[p := pp]);
      core := core.(outBox := core.outBox + [OutThreePhase(PrePrepareMsg(pp))]);
      admitted := admitted + [pp];
    }

    /** One step: what the object does is what the step function says. */
    method Take(e: Event)
      modifies this
      ensures S() == Step(c, old(S()), e)
    {
      hide Dispatch, ProcessCheckpoint, DequeuePrePrepares, SendBatch, ProcessStashedCommits;
      match e
      case Deliver(m, w, env) =>
        var failed := DispatchMsg(env, m, w);
      case DeliverCheckpoint(ck, w) => OnCheckpoint(ck.seqNoStart, ck.seqNoEnd, ck.digest, w);
      case Service(env) =>
        var raised := ServicePending(env);
      case Batch(body) =>
        if c.IsPrimary() {
          MakeBatch(body);
        }
      case Tick => OrderStashedCommits();
      case Replay(env) =>
        if core.replay != [] {
          var (m, w) := core.replay[0];
          core := core.(replay := core.replay[1..]);
          var failed := DispatchMsg(env, m, w);
        }
    }
  }
}
