/** PRE-PREPAREs that came too early are accepted in order once the gap before them closes, and exactly when not. */
module Resequencing {
  import opened Messages
  import opened ReplicaSpec
  import opened ReplicaInvariant
  import opened ReplicaCoreProof
  import opened ReplicaProof
  import opened Acceptance

  // ----- the queue -----

  /** A waiting PRE-PREPARE that will be accepted when its turn comes. */
  predicate Acceptable(c: Config, env: Env, pp: PrePrepare, sender: Name) {
    sender == c.primary && pp.viewNo == c.viewNo && env.valid(pp) && NonFinalised(env, pp) == {}
  }

  ghost predicate Waiting(pending: seq<PendingPrev>, p: nat) {
    exists e :: e in pending && e.pp.ppSeqNo == p
  }

  /** Nothing stale waits, and every number from the next one up to `upTo` does. */
  ghost predicate QueueReady(c: Config, s: State, env: Env, upTo: nat) {
    && (forall e :: e in s.pendingPrev ==> Acceptable(c, env, e.pp, e.sender) && e.pp.ppSeqNo > |s.admitted|)
    && (forall p: nat :: |s.admitted| < p <= upTo ==> Waiting(s.pendingPrev, p))
  }

  lemma HeadIsNext(s: State, upTo: nat)
    requires SortedPending(s.pendingPrev) && |s.admitted| < upTo
    requires forall e :: e in s.pendingPrev ==> e.pp.ppSeqNo > |s.admitted|
    requires Waiting(s.pendingPrev, |s.admitted| + 1)
    ensures s.pendingPrev != [] && s.pendingPrev[0].pp.ppSeqNo == |s.admitted| + 1
  {
    var e :| e in s.pendingPrev && e.pp.ppSeqNo == |s.admitted| + 1;
    var i :| 0 <= i < |s.pendingPrev| && s.pendingPrev[i] == e;
    assert s.pendingPrev[0] in s.pendingPrev;
  }

  lemma NotYetHeld(c: Config, net: Net, s: State)
    requires Good(c, net, s)
    ensures |s.admitted| + 1 !in s.core.prePrepares
  {
    HeldInGood(c, net, s, |s.admitted| + 1);
  }

  function Popped(s: State): State
    requires s.pendingPrev != []
  {
    s.(pendingPrev := s.pendingPrev[1..])
  }

  /** The state after the head of the queue has been accepted. */
  function AfterOne(c: Config, s: State): State
    requires s.pendingPrev != []
  {
    AddToPrePrepares(c, Popped(s), s.pendingPrev[0].pp).state
  }

  /** The state after the first `n` of the queue have been accepted. */
  function Reach(c: Config, s: State, n: nat): State
    decreases n
  {
    if n == 0 || s.pendingPrev == [] then s else Reach(c, AfterOne(c, s), n - 1)
  }

  /** Accepting entry `n` of the queue, when its turn comes, ends in an exception. */
  ghost predicate TripsIn(c: Config, s: State, n: nat) {
    var st := Reach(c, s, n);
    st.pendingPrev != [] && Trips(c, Popped(st), st.pendingPrev[0].pp)
  }

  lemma ReadyHead(c: Config, net: Net, s: State, env: Env, upTo: nat)
    requires Good(c, net, s) && !c.IsPrimary() && QueueReady(c, s, env, upTo) && |s.admitted| < upTo
    ensures s.pendingPrev != [] && s.pendingPrev[0].pp.ppSeqNo == |s.admitted| + 1
    ensures CanAccept(c, net, Popped(s), s.pendingPrev[0].pp)
    ensures Acceptable(c, env, s.pendingPrev[0].pp, s.pendingPrev[0].sender)
  {
    hide CoreOk, PreparesWaitingOk, CommitsWaitingOk, PendingFinOk, Acceptable;
    assert Waiting(s.pendingPrev, |s.admitted| + 1);
    HeadIsNext(s, upTo);
    var e := s.pendingPrev[0];
    assert e in s.pendingPrev;
    AcceptableIs(c, env, e.pp, e.sender);
    PendingChanged(c, net, s, s.pendingFin, s.pendingPrev[1..]);
  }

  lemma AcceptableIs(c: Config, env: Env, pp: PrePrepare, sender: Name)
    requires Acceptable(c, env, pp, sender)
    ensures sender == c.primary && pp.viewNo == c.viewNo && env.valid(pp) && NonFinalised(env, pp) == {}
  {
  }

  /** After the head has been accepted the rest of the queue is still ready. */
  lemma StaysReady(c: Config, net: Net, s: State, env: Env, upTo: nat)
    requires Good(c, net, s) && !c.IsPrimary() && QueueReady(c, s, env, upTo) && |s.admitted| < upTo
    ensures s.pendingPrev != []
    ensures
      var s' := AfterOne(c, s);
      && GoodStep(c, net, Popped(s), s') && |s'.admitted| == |s.admitted| + 1
      && s'.pendingPrev == s.pendingPrev[1..] && QueueReady(c, s', env, upTo)
  {
    hide CoreOk, AddToPrePrepares, PreparesWaitingOk, CommitsWaitingOk, PendingFinOk, SaysMsg, Acceptable;
    ReadyHead(c, net, s, env, upTo);
    var e := s.pendingPrev[0];
    AddToPrePreparesFrame(c, Popped(s), e.pp);
    AddToPrePreparesOk(c, net, Popped(s), e.pp);
    var s' := AfterOne(c, s);
    forall d | d in s'.pendingPrev ensures Acceptable(c, env, d.pp, d.sender) && d.pp.ppSeqNo > |s'.admitted| {
      assert d in s.pendingPrev;
      var i :| 0 <= i < |s.pendingPrev| - 1 && s.pendingPrev[1..][i] == d;
      assert s.pendingPrev[0].pp.ppSeqNo < s.pendingPrev[i + 1].pp.ppSeqNo;
    }
    forall p: nat | |s'.admitted| < p <= upTo ensures Waiting(s'.pendingPrev, p) {
      assert Waiting(s.pendingPrev, p);
      var d :| d in s.pendingPrev && d.pp.ppSeqNo == p;
      assert d in s'.pendingPrev;
    }
  }

  /** Processing the head of a ready queue is accepting it. */
  lemma HeadIsAccepted(c: Config, net: Net, s: State, env: Env, upTo: nat)
    requires Good(c, net, s) && !c.IsPrimary() && QueueReady(c, s, env, upTo) && |s.admitted| < upTo
    ensures s.pendingPrev != [] && IsNext(s.core, s.pendingPrev[0].pp.ppSeqNo)
    ensures
      var e := s.pendingPrev[0];
      && e.pp.viewNo == c.viewNo
      && ProcessPrePrepare(c, Popped(s), env, e.pp, e.sender) == AddToPrePrepares(c, Popped(s), e.pp)
  {
    hide Good, AddToPrePrepares, IsNext;
    ReadyHead(c, net, s, env, upTo);
    NextIs(c, net, s, s.pendingPrev[0].pp.ppSeqNo);
    NotYetHeld(c, net, Popped(s));
  }

  /** The drain of a ready queue gets to `upTo` exactly when accepting none of the entries before the last ends in an
      exception. */
  lemma {:induction false} DrainIff(c: Config, net: Net, s: State, env: Env, upTo: nat)
    requires Good(c, net, s) && !c.IsPrimary() && QueueReady(c, s, env, upTo) && |s.admitted| < upTo
    ensures |DrainPending(c, s, env).state.admitted| >= upTo
       <==> forall n: nat :: n < upTo - |s.admitted| - 1 ==> !TripsIn(c, s, n)
    decreases |s.pendingPrev|
  {
    hide Good, AddToPrePrepares, IsNext, ProcessPrePrepare, Trips, QueueReady;
    ReadyHead(c, net, s, env, upTo);
    HeadIsAccepted(c, net, s, env, upTo);
    StaysReady(c, net, s, env, upTo);
    AcceptRaisesIff(c, net, Popped(s), s.pendingPrev[0].pp);
    var r := AddToPrePrepares(c, Popped(s), s.pendingPrev[0].pp);
    assert TripsIn(c, s, 0) <==> r.raised;
    if r.raised {
    } else if |s.admitted| + 1 == upTo {
      DrainPendingOk(c, net, r.state, env);
    } else {
      DrainIff(c, net, r.state, env, upTo);
      TripsShift(c, s, upTo);
    }
  }

  lemma TripsShift(c: Config, s: State, upTo: nat)
    requires s.pendingPrev != [] && |s.admitted| + 1 < upTo && |AfterOne(c, s).admitted| == |s.admitted| + 1
    requires !TripsIn(c, s, 0)
    ensures (forall n: nat :: n < upTo - |s.admitted| - 1 ==> !TripsIn(c, s, n))
       <==> forall n: nat :: n < upTo - |AfterOne(c, s).admitted| - 1 ==> !TripsIn(c, AfterOne(c, s), n)
  {
    hide Trips, AfterOne;
    forall n: nat ensures TripsIn(c, s, n + 1) <==> TripsIn(c, AfterOne(c, s), n) {
    }
    if forall n: nat :: n < upTo - |AfterOne(c, s).admitted| - 1 ==> !TripsIn(c, AfterOne(c, s), n) {
      forall n: nat | n < upTo - |s.admitted| - 1 ensures !TripsIn(c, s, n) {
        if n > 0 {
          assert TripsIn(c, s, (n - 1) + 1) <==> TripsIn(c, AfterOne(c, s), n - 1);
        }
      }
    }
  }

  ghost predicate WaitingFin(pending: seq<PendingFin>, p: nat) {
    exists e :: e in pending && e.pp.ppSeqNo == p
  }

  lemma PutKeepsWaiting(pending: seq<PendingPrev>, e: PendingPrev, p: nat)
    requires SortedPending(pending) && (Waiting(pending, p) || e.pp.ppSeqNo == p)
    ensures Waiting(PutPending(pending, e), p)
  {
    PutPendingIs(pending, e);
    if Waiting(pending, p) && e.pp.ppSeqNo != p {
      var d :| d in pending && d.pp.ppSeqNo == p;
      assert d in PutPending(pending, e);
    }
  }

  /** Moving the finalised ones over loses no number and brings in nothing else. */
  lemma {:induction false} ReleaseKeeps(env: Env, fin: seq<PendingFin>, prev: seq<PendingPrev>, p: nat)
    requires SortedPending(prev)
    ensures
      var (fin', prev') := ReleaseFinalised(env, fin, prev);
      SortedPending(prev') && (Waiting(prev, p) ==> Waiting(prev', p)) &&
      (forall e :: e in prev' ==> e in prev || exists d :: d in fin && e == PendingPrev(d.pp, d.sender)) &&
      ((forall e :: e in fin ==> e.missing <= env.finalised) ==>
         fin' == [] && (WaitingFin(fin, p) ==> Waiting(prev', p)))
  {
    if fin != [] {
      var n := |fin| - 1;
      var e := fin[n];
      assert e in fin;
      assert forall d :: d in fin[..n] ==> d in fin;
      PutPendingIs(prev, PendingPrev(e.pp, e.sender));
      if e.missing - env.finalised == {} {
        var prev1 := PutPending(prev, PendingPrev(e.pp, e.sender));
        if Waiting(prev, p) || e.pp.ppSeqNo == p {
          PutKeepsWaiting(prev, PendingPrev(e.pp, e.sender), p);
        }
        ReleaseKeeps(env, fin[..n], prev1, p);
        assert WaitingFin(fin, p) ==> e.pp.ppSeqNo == p || WaitingFin(fin[..n], p);
      } else {
        ReleaseKeeps(env, fin[..n], prev, p);
        assert !(e.missing <= env.finalised);
      }
    }
  }

  /** The first entry with this number all of whose requests are final. */
  function FirstReady(env: Env, fin: seq<PendingFin>, p: nat): (r: Option<nat>)
    ensures r.Some? ==> r.value < |fin| && fin[r.value].pp.ppSeqNo == p && fin[r.value].missing <= env.finalised
    ensures forall i :: 0 <= i < (if r.Some? then r.value else |fin|) ==>
      !(fin[i].pp.ppSeqNo == p && fin[i].missing <= env.finalised)
    decreases |fin|
  {
    if fin == [] then None
    else
      var n := |fin| - 1;
      var before := FirstReady(env, fin[..n], p);
      if before.Some? then before
      else if fin[n].pp.ppSeqNo == p && fin[n].missing <= env.finalised then Some(n)
      else None
  }

  /** What is released: an entry stays exactly if one of its requests is not final, with those that are final struck
      out, and the others stay in order. Of several released with one number the first to have come goes to the queue,
      in place of what was there. */
  lemma {:induction false} ReleasedExactly(env: Env, fin: seq<PendingFin>, prev: seq<PendingPrev>, p: nat)
    requires SortedPending(prev)
    ensures
      var (fin', prev') := ReleaseFinalised(env, fin, prev);
      && fin' == StillMissing(env, fin) && SortedPending(prev')
      && match FirstReady(env, fin, p)
         case Some(i) => forall d :: d in prev' && d.pp.ppSeqNo == p <==> d == PendingPrev(fin[i].pp, fin[i].sender)
         case None => forall d :: d in prev' && d.pp.ppSeqNo == p <==> d in prev && d.pp.ppSeqNo == p
    decreases |fin|
  {
    if fin != [] {
      var n := |fin| - 1;
      var e := fin[n];
      var d := PendingPrev(e.pp, e.sender);
      PutPendingIs(prev, d);
      NoneMissing(e.missing, env.finalised);
      if e.missing - env.finalised == {} {
        ReleasedExactly(env, fin[..n], PutPending(prev, d), p);
        OnlyOne(PutPending(prev, d), d);
      } else {
        ReleasedExactly(env, fin[..n], prev, p);
      }
    }
  }

  lemma NoneMissing(missing: set<ReqKey>, finalised: set<ReqKey>)
    ensures missing - finalised == {} <==> missing <= finalised
  {
    if missing - finalised == {} {
      forall k | k in missing ensures k in finalised {
        assert k !in missing - finalised;
      }
    }
  }

  ghost function StillMissing(env: Env, fin: seq<PendingFin>): seq<PendingFin>
    decreases |fin|
  {
    if fin == [] then []
    else
      var n := |fin| - 1;
      StillMissing(env, fin[..n]) +
      if fin[n].missing <= env.finalised then [] else [fin[n].(missing := fin[n].missing - env.finalised)]
  }

  lemma OnlyOne(pending: seq<PendingPrev>, d: PendingPrev)
    requires SortedPending(pending) && d in pending
    ensures forall e :: e in pending && e.pp.ppSeqNo == d.pp.ppSeqNo ==> e == d
  {
    var i :| 0 <= i < |pending| && pending[i] == d;
    forall e | e in pending && e.pp.ppSeqNo == d.pp.ppSeqNo ensures e == d {
      var j :| 0 <= j < |pending| && pending[j] == e;
    }
  }

  // ----- one call -----

  /** No waiting PRE-PREPARE has a number that is already taken. */
  ghost predicate NoneStale(s: State) {
    && (forall e :: e in s.pendingFin ==> e.pp.ppSeqNo > |s.admitted|)
    && (forall e :: e in s.pendingPrev ==> e.pp.ppSeqNo > |s.admitted|)
  }

  /** The requests of all waiting PRE-PREPAREs are final, and all are valid ones of the primary. */
  ghost predicate AllAcceptable(c: Config, s: State, env: Env) {
    && (forall e :: e in s.pendingFin ==> Acceptable(c, env, e.pp, e.sender) && e.missing <= env.finalised)
    && (forall e :: e in s.pendingPrev ==> Acceptable(c, env, e.pp, e.sender))
  }

  ghost predicate AllWaiting(s: State, upTo: nat) {
    forall p: nat :: |s.admitted| < p <= upTo ==> Waiting(s.pendingPrev, p) || WaitingFin(s.pendingFin, p)
  }

  /** The state when those with final requests have been moved to the queue. */
  function Released(s: State, env: Env): State {
    var r := ReleaseFinalised(env, s.pendingFin, s.pendingPrev);
    s.(pendingFin := r.0, pendingPrev := r.1)
  }

  lemma ReleasedReady(c: Config, net: Net, s: State, env: Env, upTo: nat)
    requires Good(c, net, s) && AllAcceptable(c, s, env) && AllWaiting(s, upTo) && NoneStale(s)
    ensures Good(c, net, Released(s, env)) && QueueReady(c, Released(s, env), env, upTo)
  {
    hide CoreOk, PreparesWaitingOk, CommitsWaitingOk, SaysMsg, Acceptable;
    ReleaseFinalisedOk(ContextOf(c, net, s), env, s.pendingFin, s.pendingPrev);
    var s1 := Released(s, env);
    PendingChanged(c, net, s, s1.pendingFin, s1.pendingPrev);
    forall p: nat | |s.admitted| < p <= upTo ensures Waiting(s1.pendingPrev, p) {
      ReleaseKeeps(env, s.pendingFin, s.pendingPrev, p);
    }
    ReleaseKeeps(env, s.pendingFin, s.pendingPrev, 0);
  }

  /** One waiting PRE-PREPARE whose number is already taken keeps every other one waiting. */
  lemma StaleEntryBlocks(c: Config, net: Net, s: State, env: Env)
    requires Good(c, net, s) && AllAcceptable(c, s, env) && !NoneStale(s)
    ensures DequeuePrePrepares(c, s, env).state.admitted == s.admitted
  {
    hide CoreOk, PreparesWaitingOk, CommitsWaitingOk, SaysMsg, IsNext, ProcessPrePrepare, Acceptable;
    var p := StaleNumber(s);
    ReleaseKeeps(env, s.pendingFin, s.pendingPrev, p);
    var prev := Released(s, env).pendingPrev;
    var e :| e in prev && e.pp.ppSeqNo == p;
    var i :| 0 <= i < |prev| && prev[i] == e;
    assert prev[0].pp.ppSeqNo <= p;
    NextIs(c, net, s, prev[0].pp.ppSeqNo);
  }

  lemma StaleNumber(s: State) returns (p: nat)
    requires !NoneStale(s)
    ensures p <= |s.admitted| && (Waiting(s.pendingPrev, p) || WaitingFin(s.pendingFin, p))
  {
    if e :| e in s.pendingFin && e.pp.ppSeqNo <= |s.admitted| {
      p := e.pp.ppSeqNo;
    } else {
      var d :| d in s.pendingPrev && d.pp.ppSeqNo <= |s.admitted|;
      p := d.pp.ppSeqNo;
    }
  }

  /** Every PRE-PREPARE from the next number up to `upTo` waits, whatever the order in which they came, and all are
      valid ones of the primary with final requests. Then one call of `dequeuePrePrepares` accepts all of them if and
      only if nothing stale waits and accepting none before the last ends in an exception; what it accepts is in
      order. */
  lemma Resequenced(c: Config, net: Net, s: State, env: Env, upTo: nat)
    requires Good(c, net, s) && !c.IsPrimary() && |s.admitted| < upTo
    requires AllAcceptable(c, s, env) && AllWaiting(s, upTo)
    ensures
      var s' := DequeuePrePrepares(c, s, env).state;
      && (|s'.admitted| >= upTo
          <==> NoneStale(s) && forall n: nat :: n < upTo - |s.admitted| - 1 ==> !TripsIn(c, Released(s, env), n))
      && s.admitted <= s'.admitted
      && forall i :: 0 <= i < |s'.admitted| ==> s'.admitted[i].ppSeqNo == i + 1
  {
    hide Good, DrainPending, TripsIn, AllAcceptable, AllWaiting, NoneStale;
    assert DequeuePrePrepares(c, s, env) == DrainPending(c, Released(s, env), env);
    DequeuePrePreparesOk(c, net, s, env);
    AdmittedNumbers(c, net, DequeuePrePrepares(c, s, env).state);
    if NoneStale(s) {
      ReleasedReady(c, net, s, env, upTo);
      DrainIff(c, net, Released(s, env), env, upTo);
    } else {
      StaleEntryBlocks(c, net, s, env);
    }
  }

  lemma AdmittedNumbers(c: Config, net: Net, s: State)
    requires Good(c, net, s)
    ensures forall i :: 0 <= i < |s.admitted| ==> s.admitted[i].ppSeqNo == i + 1
  {
    forall i | 0 <= i < |s.admitted| ensures s.admitted[i].ppSeqNo == i + 1 {
      assert AdmittedOk(ContextOf(c, net, s), i);
    }
  }

  // ----- the condition in terms of what waits -----

  lemma {:induction false} DequeueCommitsQueues(c: Config, s: State, p: nat, todo: seq<(Commit, Name)>)
    requires forall e :: e in todo ==> e.0.ppSeqNo == p
    ensures
      var r := DequeueCommits(c, s, p, todo);
      !r.raised ==> r.state.commitsWaiting == s.commitsWaiting - {p}
    decreases |todo|
  {
    hide AddToCommits;
    if todo != [] {
      assert todo[0] in todo;
      var r := ProcessCommit(c, s.(commitsWaiting := s.commitsWaiting[p := todo[1..]]), todo[0].0, todo[0].1);
      assert r.state.commitsWaiting - {p} == s.commitsWaiting - {p};
      if !r.raised {
        DequeueCommitsQueues(c, r.state, p, todo[1..]);
      }
    }
  }

  lemma CommitQueuesAfter(c: Config, net: Net, s: State, pp: PrePrepare)
    requires Good(c, net, s)
    ensures
      var r := AddToPrePrepares(c, s, pp);
      !r.raised ==> r.state.commitsWaiting == s.commitsWaiting - {pp.ppSeqNo}
  {
    hide CoreOk, PreparesWaitingOk, PendingFinOk, PendingPrevOk, SaysMsg, TryPrepare, DequeuePrepares, DequeueCommits;
    var p := pp.ppSeqNo;
    var s1 := RecordPrePrepare(s, pp);
    var s2 := TakePrepares(c, s1, p);
    if p in s1.preparesWaiting {
      DequeuePreparesFrame(c, s1, p, s1.preparesWaiting[p]);
    }
    if p in s2.commitsWaiting {
      var todo := s2.commitsWaiting[p];
      assert forall e :: e in todo ==> CommitWaitingOk(ContextOf(c, net, s), p, e);
      OthersOnly(ContextOf(c, net, s), p, todo);
      DequeueCommitsQueues(c, s2, p, todo);
    }
  }

  lemma {:induction false} DequeuePreparesQueues(c: Config, s: State, p: nat, todo: seq<(Prepare, Name)>)
    requires forall e :: e in todo ==> e.0.ppSeqNo == p
    ensures DequeuePrepares(c, s, p, todo).preparesWaiting == s.preparesWaiting - {p}
    decreases |todo|
  {
    hide AddToPrepares;
    if todo != [] {
      assert todo[0] in todo;
      var s1 := ProcessPrepare(c, s.(preparesWaiting := s.preparesWaiting[p := todo[1..]]), todo[0].0, todo[0].1);
      assert s1.preparesWaiting - {p} == s.preparesWaiting - {p};
      DequeuePreparesQueues(c, s1, p, todo[1..]);
    }
  }

  lemma PrepareQueuesAfter(c: Config, net: Net, s: State, pp: PrePrepare)
    requires Good(c, net, s)
    ensures AddToPrePrepares(c, s, pp).state.preparesWaiting == s.preparesWaiting - {pp.ppSeqNo}
  {
    hide Good, TryPrepare, DequeuePrepares, DequeueCommits;
    var p := pp.ppSeqNo;
    var s1 := RecordPrePrepare(s, pp);
    if p in s1.preparesWaiting {
      QueueNumbers(c, net, s, p);
      DequeuePreparesQueues(c, s1, p, s1.preparesWaiting[p]);
    } else {
      assert s.preparesWaiting - {p} == s.preparesWaiting;
    }
    var s2 := TakePrepares(c, s1, p);
    if p in s2.commitsWaiting {
      DequeueCommitsFrame(c, s2, p, s2.commitsWaiting[p]);
    }
  }

  lemma OthersOnly(x: Context, p: nat, todo: seq<(Commit, Name)>)
    requires forall e :: e in todo ==> CommitWaitingOk(x, p, e)
    ensures forall e :: e in todo ==> e.1 != x.c.self && e.0.ppSeqNo == p
  {
  }

  /** A PREPARE for the batch and two COMMITs of one sender for its number wait. */
  ghost predicate Blocked(c: Config, s: State, pp: PrePrepare) {
    PrepareWaits(c, s, pp) && Repeated(Queue(s.commitsWaiting, pp.ppSeqNo))
  }

  /** Accepting one batch leaves what waits for another. */
  lemma OtherQueuesStay(c: Config, net: Net, s: State, pp: PrePrepare, other: PrePrepare)
    requires CanAccept(c, net, s, pp) && !AddToPrePrepares(c, s, pp).raised && other.ppSeqNo != pp.ppSeqNo
    ensures
      var s' := AddToPrePrepares(c, s, pp).state;
      && (Blocked(c, s', other) <==> Blocked(c, s, other))
      && (Uncovered(s'.core, other.ppSeqNo) <==> Uncovered(s.core, other.ppSeqNo))
  {
    hide Good, AddToPrePrepares, AnyMatches, Repeated, Uncovered;
    CommitQueuesAfter(c, net, s, pp);
    PrepareQueuesAfter(c, net, s, pp);
    AcceptRanges(c, net, s, pp);
    UncoveredToo(s.core, AddToPrePrepares(c, s, pp).state.core, other.ppSeqNo);
  }

  /** Where no CHECKPOINTs wait for the numbers concerned, the entries that end in an exception are, up to the first of
      them, those that are blocked from the start. */
  lemma {:induction false} TripsPlainly(c: Config, net: Net, s: State, env: Env, upTo: nat, n: nat)
    requires Good(c, net, s) && !c.IsPrimary() && QueueReady(c, s, env, upTo) && n < upTo - |s.admitted| - 1
    requires forall p: nat :: |s.admitted| < p < upTo ==> Uncovered(s.core, p)
    requires forall i: nat :: i < n ==> !TripsIn(c, s, i)
    ensures n < |s.pendingPrev| && s.pendingPrev[n].pp.ppSeqNo == |s.admitted| + 1 + n
    ensures TripsIn(c, s, n) <==> Blocked(c, s, s.pendingPrev[n].pp)
    decreases n
  {
    hide Good, AddToPrePrepares, Trips, QueueReady, Blocked, Uncovered;
    ReadyHead(c, net, s, env, upTo);
    var pp := s.pendingPrev[0].pp;
    AcceptRaisesIff(c, net, Popped(s), pp);
    if n == 0 {
      BlockedHead(c, net, s, pp);
    } else {
      StaysReady(c, net, s, env, upTo);
      assert !TripsIn(c, s, 0);
      var s' := AfterOne(c, s);
      forall p: nat | |s'.admitted| < p < upTo ensures Uncovered(s'.core, p) {
        AcceptRanges(c, net, Popped(s), pp);
        UncoveredToo(Popped(s).core, s'.core, p);
      }
      forall i: nat | i < n - 1 ensures !TripsIn(c, s', i) {
        assert !TripsIn(c, s, i + 1);
      }
      TripsPlainly(c, net, s', env, upTo, n - 1);
      OtherQueuesStay(c, net, Popped(s), pp, s.pendingPrev[n].pp);
      BlockedPopped(c, s, s.pendingPrev[n].pp);
    }
  }

  lemma BlockedHead(c: Config, net: Net, s: State, pp: PrePrepare)
    requires s.pendingPrev != [] && CanAccept(c, net, Popped(s), pp) && Uncovered(s.core, pp.ppSeqNo)
    ensures Trips(c, Popped(s), pp) <==> Blocked(c, s, pp)
  {
    hide Good, AddToPrePrepares, Trips, AnyMatches, Repeated;
    AcceptRaisesIff(c, net, Popped(s), pp);
    AcceptRaisesPlainly(c, net, Popped(s), pp);
  }

  lemma BlockedPopped(c: Config, s: State, pp: PrePrepare)
    requires s.pendingPrev != []
    ensures Blocked(c, Popped(s), pp) <==> Blocked(c, s, pp)
  {
  }

  /** The same in terms of what waits, where no CHECKPOINTs wait for the numbers concerned: one call accepts everything
      up to `upTo` if and only if nothing stale waits and no number before `upTo` has both a PREPARE for its batch and
      two COMMITs of one sender waiting. */
  lemma ResequencedPlainly(c: Config, net: Net, s: State, env: Env, upTo: nat)
    requires Good(c, net, s) && !c.IsPrimary() && |s.admitted| < upTo
    requires AllAcceptable(c, s, env) && AllWaiting(s, upTo)
    requires forall p: nat :: |s.admitted| < p < upTo ==> Uncovered(s.core, p)
    ensures |DequeuePrePrepares(c, s, env).state.admitted| >= upTo
       <==> NoneStale(s)
            && forall e :: e in Released(s, env).pendingPrev && e.pp.ppSeqNo < upTo ==> !Blocked(c, s, e.pp)
  {
    hide Good, DequeuePrePrepares, TripsIn, AllAcceptable, AllWaiting, NoneStale, Released, QueueReady, Uncovered,
         Blocked;
    Resequenced(c, net, s, env, upTo);
    if NoneStale(s) {
      ReleasedReady(c, net, s, env, upTo);
      var s1 := Released(s, env);
      ReleasedSame(c, s, env);
      if forall n: nat :: n < upTo - |s.admitted| - 1 ==> !TripsIn(c, s1, n) {
        forall e | e in s1.pendingPrev && e.pp.ppSeqNo < upTo ensures !Blocked(c, s, e.pp) {
          var n := EntryAt(c, net, s1, env, upTo, e);
          TripsPlainly(c, net, s1, env, upTo, n);
        }
      } else {
        var n: nat :| n < upTo - |s.admitted| - 1 && TripsIn(c, s1, n);
        var first := FirstTrip(c, s1, n);
        TripsPlainly(c, net, s1, env, upTo, first);
        assert s1.pendingPrev[first] in s1.pendingPrev;
      }
    }
  }

  lemma ReleasedSame(c: Config, s: State, env: Env)
    ensures
      var s1 := Released(s, env);
      && s1.core == s.core && s1.admitted == s.admitted
      && forall pp :: Blocked(c, s1, pp) <==> Blocked(c, s, pp)
  {
  }

  lemma {:induction false} FirstTrip(c: Config, s: State, n: nat) returns (first: nat)
    requires TripsIn(c, s, n)
    ensures first <= n && TripsIn(c, s, first) && forall i: nat :: i < first ==> !TripsIn(c, s, i)
    decreases n
  {
    if i: nat :| i < n && TripsIn(c, s, i) {
      first := FirstTrip(c, s, i);
    } else {
      first := n;
    }
  }

  /** In a ready queue the entry with a number stands at the place of that number. */
  lemma {:induction false} EntryAt(c: Config, net: Net, s: State, env: Env, upTo: nat, e: PendingPrev) returns (n: nat)
    requires Good(c, net, s) && QueueReady(c, s, env, upTo) && e in s.pendingPrev && e.pp.ppSeqNo < upTo
    ensures n < upTo - |s.admitted| - 1 && n < |s.pendingPrev| && s.pendingPrev[n] == e
  {
    hide CoreOk, PreparesWaitingOk, CommitsWaitingOk, SaysMsg, Acceptable;
    n :| 0 <= n < |s.pendingPrev| && s.pendingPrev[n] == e;
    PlaceOf(s.pendingPrev, |s.admitted|, n);
  }

  lemma {:induction false} PlaceOf(pending: seq<PendingPrev>, low: nat, n: nat)
    requires SortedPending(pending) && n < |pending| && forall e :: e in pending ==> e.pp.ppSeqNo > low
    ensures pending[n].pp.ppSeqNo >= low + 1 + n
  {
    var i := 0;
    assert pending[0] in pending;
    while i < n
      invariant 0 <= i <= n && pending[i].pp.ppSeqNo >= low + 1 + i
    {
      i := i + 1;
    }
  }

  ghost predicate Kept(s: State, pp: PrePrepare, w: Name) {
    pp in s.admitted || PendingPrev(pp, w) in s.pendingPrev ||
    exists e :: e in s.pendingFin && e.pp == pp && e.sender == w
  }

  /** A PRE-PREPARE of the primary that arrives early is not lost: after the delivery it has been accepted or waits. */
  lemma ArrivalIsKept(c: Config, net: Net, s: State, env: Env, pp: PrePrepare)
    requires Good(c, net, s) && !c.IsPrimary() && pp.viewNo == c.viewNo && env.valid(pp)
    requires |s.admitted| < pp.ppSeqNo <= s.core.h + c.logSize
    ensures Kept(Step(c, s, Deliver(PrePrepareMsg(pp), c.primary, env)), pp, c.primary)
  {
    hide ContextOk, OrderOk, PreparesOk, CommitsOk, StashOk, CheckpointsOk, StashedCheckpointsOk, MessagesOk, BoxOk,
         OrderedBoxOk, AnnouncedOk, PreparesWaitingOk, CommitsWaitingOk, PendingFinOk, SaysMsg, AddToPrePrepares,
         IsNext;
    HeldInGood(c, net, s, pp.ppSeqNo);
    StableIffBelowLowMark(ContextOf(c, net, s), s.core, |s.core.ordered|, pp.ppSeqNo);
    PutPendingIs(s.pendingPrev, PendingPrev(pp, c.primary));
    AddToPrePreparesFrame(c, s, pp);
    var missing := NonFinalised(env, pp);
    if missing != {} {
      assert PendingFin(pp, c.primary, missing) in Step(c, s, Deliver(PrePrepareMsg(pp), c.primary, env)).pendingFin;
    }
  }
}
