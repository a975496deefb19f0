/** The PRE-PREPAREs of a correct primary may arrive in any order, among any other messages and events. */
module ArrivalOrder {
  import opened Messages
  import opened ReplicaSpec
  import opened ReplicaInvariant
  import opened ReplicaCoreProof
  import opened ReplicaProof
  import opened Acceptance
  import opened Resequencing

  // ----- runs -----

  ghost predicate IsBatch(pps: seq<PrePrepare>, pp: PrePrepare) {
    1 <= pp.ppSeqNo <= |pps| && pps[pp.ppSeqNo - 1] == pp
  }

  /** Another node is primary, and all it says in this view are the batches `pps`, numbered from 1. */
  ghost predicate CorrectPrimary(c: Config, net: Net, pps: seq<PrePrepare>) {
    && c.self in net.nodes && c.primary in net.nodes && !c.IsPrimary()
    && (forall i :: 0 <= i < |pps| ==> pps[i].ppSeqNo == i + 1)
    && forall pp: PrePrepare ::
         pp.viewNo == c.viewNo && Says(net, c.primary, OutThreePhase(PrePrepareMsg(pp))) ==> IsBatch(pps, pp)
  }

  /** The batches pass validation whenever the replica looks. */
  ghost predicate ValidIn(pps: seq<PrePrepare>, env: Env) {
    forall pp: PrePrepare :: IsBatch(pps, pp) ==> env.valid(pp)
  }

  ghost predicate EventOk(c: Config, net: Net, pps: seq<PrePrepare>, s: State, e: Event) {
    && Legal(ContextOf(c, net, s), e)
    && (e.Deliver? || e.Service? || e.Replay? ==> ValidIn(pps, e.env))
  }

  function After(c: Config, events: seq<Event>): State
    decreases |events|
  {
    if events == [] then Init else Step(c, After(c, events[..|events| - 1]), events[|events| - 1])
  }

  ghost predicate IsRun(c: Config, net: Net, pps: seq<PrePrepare>, events: seq<Event>) {
    forall i :: 0 <= i < |events| ==> EventOk(c, net, pps, After(c, events[..i]), events[i])
  }

  /** The message that the event brings, if it brings one. */
  function MsgOf(s: State, e: Event): Option<(ThreePhaseMsg, Name)> {
    match e
    case Deliver(m, w, env) => Some((m, w))
    case Replay(env) => if s.core.replay == [] then None else Some(s.core.replay[0])
    case _ => None
  }

  /** The event brings the primary's PRE-PREPARE with number `p` while the number is between the water marks. */
  ghost predicate Takes(c: Config, s: State, e: Event, p: nat) {
    match MsgOf(s, e)
    case Some((PrePrepareMsg(pp), w)) => pp.ppSeqNo == p && Inside(c, s, pp, w)
    case _ => false
  }

  ghost predicate Inside(c: Config, s: State, pp: PrePrepare, w: Name) {
    && w == c.primary && pp.viewNo == c.viewNo
    && !IsStable(s.core, pp.ppSeqNo) && BetweenWaterMarks(c, s.core, pp.ppSeqNo)
  }

  /** PRE-PREPARE `p` has arrived. */
  ghost predicate Arrived(c: Config, events: seq<Event>, p: nat) {
    exists i :: 0 <= i < |events| && Takes(c, After(c, events[..i]), events[i], p)
  }

  // ----- what arrived is accepted or waits -----

  ghost predicate FinOk(c: Config, fin: seq<PendingFin>) {
    forall e :: e in fin ==>
      e.sender == c.primary && e.pp.viewNo == c.viewNo && forall k :: k in e.missing ==> k in e.pp.reqIdr
  }

  ghost predicate PrevOk(c: Config, prev: seq<PendingPrev>) {
    forall e :: e in prev ==> e.sender == c.primary && e.pp.viewNo == c.viewNo
  }

  ghost predicate InHand(s: State, p: nat) {
    p <= |s.admitted| || Waiting(s.pendingPrev, p) || WaitingFin(s.pendingFin, p)
  }

  ghost predicate Collected(c: Config, net: Net, s: State) {
    Good(c, net, s) && FinOk(c, s.pendingFin) && PrevOk(c, s.pendingPrev)
  }

  /** `s'` has accepted no less, and the waiting PRE-PREPAREs are the same. */
  ghost predicate SamePending(s: State, s': State) {
    s'.pendingFin == s.pendingFin && s'.pendingPrev == s.pendingPrev && |s.admitted| <= |s'.admitted|
  }

  /** A step keeps what it must: the invariant, and every number that was accepted or waiting. */
  ghost predicate StepKeepsAll(c: Config, net: Net, s: State, s': State) {
    Collected(c, net, s') && forall p: nat :: InHand(s, p) ==> InHand(s', p)
  }

  lemma SamePendingKeeps(c: Config, net: Net, s: State, s': State)
    requires Collected(c, net, s) && Good(c, net, s') && SamePending(s, s')
    ensures StepKeepsAll(c, net, s, s')
  {
    hide Good, Waiting, WaitingFin;
  }

  lemma KeepsTrans(c: Config, net: Net, s0: State, s1: State, s2: State)
    requires StepKeepsAll(c, net, s0, s1) && StepKeepsAll(c, net, s1, s2)
    ensures StepKeepsAll(c, net, s0, s2)
  {
    hide Collected, InHand;
  }

  lemma WaitsForRequests(c: Config, net: Net, s: State, pp: PrePrepare, missing: set<ReqKey>)
    requires Collected(c, net, s) && pp.viewNo == c.viewNo && (forall k :: k in missing ==> k in pp.reqIdr)
    requires Good(c, net, s.(pendingFin := s.pendingFin + [PendingFin(pp, c.primary, missing)]))
    ensures
      var s' := s.(pendingFin := s.pendingFin + [PendingFin(pp, c.primary, missing)]);
      StepKeepsAll(c, net, s, s') && InHand(s', pp.ppSeqNo)
  {
    hide Good, Waiting;
    var e := PendingFin(pp, c.primary, missing);
    var s' := s.(pendingFin := s.pendingFin + [e]);
    assert e in s'.pendingFin;
    forall p: nat | InHand(s, p) ensures InHand(s', p) {
      if WaitingFin(s.pendingFin, p) {
        var d :| d in s.pendingFin && d.pp.ppSeqNo == p;
        assert d in s'.pendingFin;
      }
    }
  }

  lemma WaitsForTurn(c: Config, net: Net, s: State, pp: PrePrepare)
    requires Collected(c, net, s) && pp.viewNo == c.viewNo && SortedPending(s.pendingPrev)
    requires Good(c, net, s.(pendingPrev := PutPending(s.pendingPrev, PendingPrev(pp, c.primary))))
    ensures
      var s' := s.(pendingPrev := PutPending(s.pendingPrev, PendingPrev(pp, c.primary)));
      StepKeepsAll(c, net, s, s') && InHand(s', pp.ppSeqNo)
  {
    hide Good, WaitingFin, PutPending, SortedPending;
    var e := PendingPrev(pp, c.primary);
    var s' := s.(pendingPrev := PutPending(s.pendingPrev, e));
    PutPendingIs(s.pendingPrev, e);
    forall p: nat | InHand(s, p) || p == pp.ppSeqNo ensures InHand(s', p) {
      if p == pp.ppSeqNo || Waiting(s.pendingPrev, p) {
        PutKeepsWaiting(s.pendingPrev, e, p);
      }
    }
  }

  lemma AcceptedKeeps(c: Config, net: Net, s: State, pp: PrePrepare)
    requires Collected(c, net, s) && Good(c, net, AddToPrePrepares(c, s, pp).state) && pp.ppSeqNo == |s.admitted| + 1
    ensures
      var s' := AddToPrePrepares(c, s, pp).state;
      StepKeepsAll(c, net, s, s') && InHand(s', pp.ppSeqNo)
  {
    hide Good, AddToPrePrepares, Waiting, WaitingFin;
    AddToPrePreparesFrame(c, s, pp);
    SamePendingKeeps(c, net, s, AddToPrePrepares(c, s, pp).state);
  }

  /** A PRE-PREPARE of the primary that is looked at is accepted or waits, whatever the outcome. */
  lemma ProcessKeeps(c: Config, net: Net, pps: seq<PrePrepare>, s: State, env: Env, pp: PrePrepare, w: Name)
    requires CorrectPrimary(c, net, pps) && Collected(c, net, s) && ValidIn(pps, env)
    requires SaysMsg(ContextOf(c, net, s), PrePrepareMsg(pp), w) && pp.viewNo == c.viewNo
    requires pp.ppSeqNo > s.core.h
    ensures
      var s' := ProcessPrePrepare(c, s, env, pp, w).state;
      StepKeepsAll(c, net, s, s') && (w == c.primary ==> InHand(s', pp.ppSeqNo))
  {
    hide Good, AddToPrePrepares, IsNext, PutPending, IsBatch;
    ProcessPrePrepareOk(c, net, s, env, pp, w);
    HeldInGood(c, net, s, pp.ppSeqNo);
    NextIs(c, net, s, pp.ppSeqNo);
    PendingSorted(c, net, s);
    var missing := NonFinalised(env, pp);
    if w != c.primary || pp.ppSeqNo in s.core.prePrepares {
      SamePendingKeeps(c, net, s, s);
    } else if missing != {} {
      WaitsForRequests(c, net, s, pp, missing);
    } else if !IsNext(s.core, pp.ppSeqNo) {
      WaitsForTurn(c, net, s, pp);
    } else {
      assert IsBatch(pps, pp) by { assert Says(net, c.primary, OutThreePhase(PrePrepareMsg(pp))); }
      AcceptedKeeps(c, net, s, pp);
    }
  }

  lemma PendingSorted(c: Config, net: Net, s: State)
    requires Good(c, net, s)
    ensures SortedPending(s.pendingPrev)
    ensures forall e :: e in s.pendingPrev ==> SaysMsg(ContextOf(c, net, s), PrePrepareMsg(e.pp), e.sender)
    ensures forall e :: e in s.pendingFin ==> SaysMsg(ContextOf(c, net, s), PrePrepareMsg(e.pp), e.sender)
  {
    hide CoreOk, PreparesWaitingOk, CommitsWaitingOk, SaysMsg;
  }

  // ----- every event -----

  lemma RouteKeeps(c: Config, net: Net, pps: seq<PrePrepare>, s: State, env: Env, m: ThreePhaseMsg, w: Name)
    requires CorrectPrimary(c, net, pps) && Collected(c, net, s) && ValidIn(pps, env)
    requires SaysMsg(ContextOf(c, net, s), m, w)
    ensures
      var s' := Dispatch(c, s, env, m, w);
      && StepKeepsAll(c, net, s, s')
      && (m.PrePrepareMsg? && Inside(c, s, m.pp, w) ==> InHand(s', m.pp.ppSeqNo))
  {
    hide Good, ProcessPrePrepare, ProcessPrepare, ProcessCommit, IsStable, SaysMsg;
    var s' := Dispatch(c, s, env, m, w);
    DispatchOk(c, net, s, env, m, w);
    if IsStable(s.core, m.PpSeqNo()) || !BetweenWaterMarks(c, s.core, m.PpSeqNo()) || m.ViewNo() != c.viewNo {
      SamePendingKeeps(c, net, s, s');
    } else {
      match m
      case PrePrepareMsg(pp) => ProcessKeeps(c, net, pps, s, env, pp, w);
      case PrepareMsg(p) =>
        ProcessPrepareFrame(c, s, p, w);
        SamePendingKeeps(c, net, s, s');
      case CommitMsg(cm) =>
        ProcessCommitFrame(c, s, cm, w);
        SamePendingKeeps(c, net, s, s');
    }
  }

  lemma {:induction false} ReleaseKeepsAll(c: Config, env: Env, fin: seq<PendingFin>, prev: seq<PendingPrev>, p: nat)
    requires SortedPending(prev) && FinOk(c, fin) && PrevOk(c, prev)
    ensures
      var r := ReleaseFinalised(env, fin, prev);
      && FinOk(c, r.0) && PrevOk(c, r.1)
      && (Waiting(prev, p) || WaitingFin(fin, p) ==> Waiting(r.1, p) || WaitingFin(r.0, p))
    decreases |fin|
  {
    if fin != [] {
      var n := |fin| - 1;
      var e := fin[n];
      assert e in fin && forall d :: d in fin[..n] ==> d in fin;
      assert WaitingFin(fin, p) ==> e.pp.ppSeqNo == p || WaitingFin(fin[..n], p);
      if e.missing - env.finalised == {} {
        var d := PendingPrev(e.pp, e.sender);
        PutPendingIs(prev, d);
        if Waiting(prev, p) || e.pp.ppSeqNo == p {
          PutKeepsWaiting(prev, d, p);
        }
        ReleaseKeepsAll(c, env, fin[..n], PutPending(prev, d), p);
      } else {
        ReleaseKeepsAll(c, env, fin[..n], prev, p);
        var r := ReleaseFinalised(env, fin[..n], prev);
        var e' := e.(missing := e.missing - env.finalised);
        assert ReleaseFinalised(env, fin, prev) == (r.0 + [e'], r.1);
        assert e' in r.0 + [e'];
        if WaitingFin(r.0, p) {
          var d :| d in r.0 && d.pp.ppSeqNo == p;
          assert d in r.0 + [e'];
        }
      }
    }
  }

  lemma ReleasedKeeps(c: Config, net: Net, s: State, env: Env)
    requires Collected(c, net, s)
    ensures StepKeepsAll(c, net, s, Released(s, env))
  {
    hide CoreOk, PreparesWaitingOk, CommitsWaitingOk, SaysMsg, ReleaseFinalised, FinOk, PrevOk, Waiting, WaitingFin;
    var s' := Released(s, env);
    ReleaseFinalisedOk(ContextOf(c, net, s), env, s.pendingFin, s.pendingPrev);
    PendingChanged(c, net, s, s'.pendingFin, s'.pendingPrev);
    ReleaseKeepsAll(c, env, s.pendingFin, s.pendingPrev, 0);
    forall p: nat | InHand(s, p) ensures InHand(s', p) {
      ReleaseKeepsAll(c, env, s.pendingFin, s.pendingPrev, p);
    }
  }

  /** The head of the queue, when it is next, is taken off and accepted or put to those that wait for requests. */
  lemma HeadKeeps(c: Config, net: Net, pps: seq<PrePrepare>, s: State, env: Env)
    requires CorrectPrimary(c, net, pps) && Collected(c, net, s) && ValidIn(pps, env)
    requires s.pendingPrev != [] && s.pendingPrev[0].pp.ppSeqNo == |s.admitted| + 1
    ensures s.pendingPrev[0].pp.viewNo == c.viewNo
    ensures
      var e := s.pendingPrev[0];
      StepKeepsAll(c, net, s, ProcessPrePrepare(c, Popped(s), env, e.pp, e.sender).state)
  {
    hide Good, ProcessPrePrepare, ValidIn, WaitingFin, SaysMsg;
    var e := s.pendingPrev[0];
    assert e in s.pendingPrev;
    PendingSorted(c, net, s);
    PoppedGoodToo(c, net, s);
    MarkBelow(c, net, s);
    ProcessKeeps(c, net, pps, Popped(s), env, e.pp, e.sender);
    var s' := ProcessPrePrepare(c, Popped(s), env, e.pp, e.sender).state;
    forall p: nat | InHand(s, p) ensures InHand(s', p) {
      if p != e.pp.ppSeqNo && Waiting(s.pendingPrev, p) {
        var d :| d in s.pendingPrev && d.pp.ppSeqNo == p;
        assert d in s.pendingPrev[1..];
      }
      assert p != e.pp.ppSeqNo ==> InHand(Popped(s), p);
    }
  }

  lemma PoppedGoodToo(c: Config, net: Net, s: State)
    requires Collected(c, net, s) && s.pendingPrev != []
    ensures Collected(c, net, Popped(s))
  {
    hide CoreOk, PreparesWaitingOk, CommitsWaitingOk, SaysMsg, PendingFinOk;
    PendingChanged(c, net, s, s.pendingFin, s.pendingPrev[1..]);
  }

  lemma {:induction false} DrainKeeps(c: Config, net: Net, pps: seq<PrePrepare>, s: State, env: Env)
    requires CorrectPrimary(c, net, pps) && Collected(c, net, s) && ValidIn(pps, env)
    ensures StepKeepsAll(c, net, s, DrainPending(c, s, env).state)
    decreases |s.pendingPrev|
  {
    hide Good, ProcessPrePrepare, ValidIn, IsNext, InHand;
    SamePendingKeeps(c, net, s, s);
    if s.pendingPrev != [] && IsNext(s.core, s.pendingPrev[0].pp.ppSeqNo) {
      NextIs(c, net, s, s.pendingPrev[0].pp.ppSeqNo);
      HeadKeeps(c, net, pps, s, env);
      var e := s.pendingPrev[0];
      var r := ProcessPrePrepare(c, Popped(s), env, e.pp, e.sender);
      PendingAfter(c, Popped(s), env, e.pp, e.sender);
      if !r.raised {
        DrainKeeps(c, net, pps, r.state, env);
        KeepsTrans(c, net, s, r.state, DrainPending(c, r.state, env).state);
      }
    }
  }

  lemma ServiceKeeps(c: Config, net: Net, pps: seq<PrePrepare>, s: State, env: Env)
    requires CorrectPrimary(c, net, pps) && Collected(c, net, s) && ValidIn(pps, env)
    ensures StepKeepsAll(c, net, s, DequeuePrePrepares(c, s, env).state)
  {
    hide Good, DrainPending, ValidIn, InHand;
    var s1 := Released(s, env);
    ReleasedKeeps(c, net, s, env);
    DrainKeeps(c, net, pps, s1, env);
    KeepsTrans(c, net, s, s1, DrainPending(c, s1, env).state);
  }

  /** Every event keeps every number that was accepted or waiting, and the number it brings. */
  lemma StepKeeps(c: Config, net: Net, pps: seq<PrePrepare>, s: State, e: Event, p: nat)
    requires CorrectPrimary(c, net, pps) && Collected(c, net, s) && EventOk(c, net, pps, s, e)
    ensures StepKeepsAll(c, net, s, Step(c, s, e)) && (Takes(c, s, e, p) ==> InHand(Step(c, s, e), p))
  {
    hide Good, DequeuePrePrepares, Dispatch, ProcessCheckpoint, ProcessStashedCommits, SendBatch, SaysMsg, ValidIn,
         CorrectPrimary, InHand, Inside, SaysCheckpoint;
    var s' := Step(c, s, e);
    StepOk(c, net, s, e);
    match e
    case Deliver(m, w, env) => RouteKeeps(c, net, pps, s, env, m, w);
    case DeliverCheckpoint(ck, w) => SamePendingKeeps(c, net, s, s');
    case Service(env) => ServiceKeeps(c, net, pps, s, env);
    case Batch(body) =>
      NotPrimary(c, net, pps);
      SamePendingKeeps(c, net, s, s');
    case Tick => SamePendingKeeps(c, net, s, s');
    case Replay(env) =>
      if s.core.replay == [] {
        SamePendingKeeps(c, net, s, s');
      } else {
        ReplayKeeps(c, net, pps, s, env, p);
      }
  }

  lemma NotPrimary(c: Config, net: Net, pps: seq<PrePrepare>)
    requires CorrectPrimary(c, net, pps)
    ensures !c.IsPrimary()
  {
  }

  lemma ReplayKeeps(c: Config, net: Net, pps: seq<PrePrepare>, s: State, env: Env, p: nat)
    requires CorrectPrimary(c, net, pps) && Collected(c, net, s) && ValidIn(pps, env) && s.core.replay != []
    ensures
      var s' := Step(c, s, Replay(env));
      StepKeepsAll(c, net, s, s') && (Takes(c, s, Replay(env), p) ==> InHand(s', p))
  {
    hide Good, Dispatch, ValidIn, CorrectPrimary, InHand, SaysMsg;
    var e := s.core.replay[0];
    var s1 := s.(core := s.core.(replay := s.core.replay[1..]));
    ReplayPopped(c, net, s);
    SamePendingKeeps(c, net, s, s1);
    RouteKeeps(c, net, pps, s1, env, e.0, e.1);
    KeepsTrans(c, net, s, s1, Dispatch(c, s1, env, e.0, e.1));
  }

  lemma ReplayPopped(c: Config, net: Net, s: State)
    requires Good(c, net, s) && s.core.replay != []
    ensures
      var s1 := s.(core := s.core.(replay := s.core.replay[1..]));
      Good(c, net, s1) && SaysMsg(ContextOf(c, net, s1), s.core.replay[0].0, s.core.replay[0].1)
  {
    hide ContextOk, OrderOk, HeldOk, PreparesOk, CommitsOk, StashOk, CheckpointsOk, StashedCheckpointsOk, BoxOk,
         OrderedBoxOk, AnnouncedOk, QueuesOk, SaysMsg;
    var e := s.core.replay[0];
    assert e in s.core.replay;
    OutsideOk(c, net, s, s.core.outside, s.core.replay[1..]);
    var s1 := s.(core := s.core.(replay := s.core.replay[1..]));
    assert s1 == s.(core := s.core.(outside := s.core.outside, replay := s.core.replay[1..]));
  }

  /** In every run, what has arrived is accepted or waits. */
  lemma {:induction false} RunKeeps(c: Config, net: Net, pps: seq<PrePrepare>, events: seq<Event>, p: nat)
    requires CorrectPrimary(c, net, pps) && IsRun(c, net, pps, events)
    ensures Collected(c, net, After(c, events)) && (Arrived(c, events, p) ==> InHand(After(c, events), p))
    decreases |events|
  {
    hide Step, Good, InHand, Takes, EventOk, CorrectPrimary;
    if events == [] {
      InitCollected(c, net, pps);
    } else {
      var n := |events| - 1;
      var before := events[..n];
      forall i | 0 <= i < |before| ensures EventOk(c, net, pps, After(c, before[..i]), before[i]) {
        assert before[..i] == events[..i];
      }
      RunKeeps(c, net, pps, before, p);
      assert EventOk(c, net, pps, After(c, events[..n]), events[n]);
      StepKeeps(c, net, pps, After(c, before), events[n], p);
      if Arrived(c, events, p) {
        var i :| 0 <= i < |events| && Takes(c, After(c, events[..i]), events[i], p);
        if i < n {
          assert before[..i] == events[..i];
          assert Takes(c, After(c, before[..i]), before[i], p);
        }
      }
    }
  }

  lemma InitCollected(c: Config, net: Net, pps: seq<PrePrepare>)
    requires CorrectPrimary(c, net, pps)
    ensures Collected(c, net, Init)
  {
    hide Good;
    InitGood(c, net);
  }

  // ----- what one call then accepts -----

  lemma AdmittedAreBatches(c: Config, net: Net, pps: seq<PrePrepare>, s: State)
    requires CorrectPrimary(c, net, pps) && Good(c, net, s)
    ensures s.admitted <= pps
  {
    hide OrderOk, HeldOk, PreparesOk, CommitsOk, StashOk, CheckpointsOk, StashedCheckpointsOk, MessagesOk, BoxOk,
         OrderedBoxOk, AnnouncedOk, QueuesOk;
    forall i | 0 <= i < |s.admitted| ensures i < |pps| && s.admitted[i] == pps[i] {
      assert AdmittedOk(ContextOf(c, net, s), i);
      assert IsBatch(pps, s.admitted[i]);
    }
    if |s.admitted| > 0 {
      assert AdmittedOk(ContextOf(c, net, s), |s.admitted| - 1);
      assert IsBatch(pps, s.admitted[|s.admitted| - 1]);
    }
  }

  /** The batches pass validation and all their requests are final. */
  ghost predicate Settled(env: Env, pps: seq<PrePrepare>) {
    ValidIn(pps, env) && forall pp: PrePrepare, k :: IsBatch(pps, pp) && k in pp.reqIdr ==> k in env.finalised
  }

  lemma CollectedAcceptable(c: Config, net: Net, pps: seq<PrePrepare>, s: State, env: Env)
    requires CorrectPrimary(c, net, pps) && Collected(c, net, s) && Settled(env, pps)
    ensures AllAcceptable(c, s, env)
    ensures forall e :: e in s.pendingPrev ==> IsBatch(pps, e.pp)
    ensures forall e :: e in s.pendingFin ==> IsBatch(pps, e.pp)
  {
    hide Good, IsBatch;
    PendingSorted(c, net, s);
    forall e | e in s.pendingPrev ensures IsBatch(pps, e.pp) && Acceptable(c, env, e.pp, e.sender) {
      SaidIsBatch(c, net, pps, s, e.pp, e.sender);
      assert NonFinalised(env, e.pp) == {};
    }
    forall e | e in s.pendingFin
      ensures IsBatch(pps, e.pp) && Acceptable(c, env, e.pp, e.sender) && e.missing <= env.finalised
    {
      SaidIsBatch(c, net, pps, s, e.pp, e.sender);
      assert NonFinalised(env, e.pp) == {};
    }
  }

  lemma SaidIsBatch(c: Config, net: Net, pps: seq<PrePrepare>, s: State, pp: PrePrepare, w: Name)
    requires CorrectPrimary(c, net, pps) && SaysMsg(ContextOf(c, net, s), PrePrepareMsg(pp), w)
    requires w == c.primary && pp.viewNo == c.viewNo
    ensures IsBatch(pps, pp)
  {
    assert Says(net, c.primary, OutThreePhase(PrePrepareMsg(pp)));
  }

  /** All batches up to `upTo` have arrived, at whatever times and among whatever else, and their requests are final. */
  ghost predicate AllThere(c: Config, net: Net, pps: seq<PrePrepare>, events: seq<Event>, env: Env, upTo: nat) {
    && CorrectPrimary(c, net, pps) && IsRun(c, net, pps, events) && Settled(env, pps) && upTo <= |pps|
    && forall p: nat :: 1 <= p <= upTo ==> Arrived(c, events, p)
  }

  lemma ThereIsReady(c: Config, net: Net, pps: seq<PrePrepare>, events: seq<Event>, env: Env, upTo: nat)
    requires AllThere(c, net, pps, events, env, upTo)
    ensures
      var s := After(c, events);
      Collected(c, net, s) && s.admitted <= pps && AllAcceptable(c, s, env) && AllWaiting(s, upTo)
  {
    hide Good, After, IsRun, CorrectPrimary, Arrived, Waiting, WaitingFin, Settled, AllAcceptable;
    var s := After(c, events);
    RunKeeps(c, net, pps, events, 0);
    AdmittedAreBatches(c, net, pps, s);
    CollectedAcceptable(c, net, pps, s, env);
    forall p: nat | |s.admitted| < p <= upTo ensures Waiting(s.pendingPrev, p) || WaitingFin(s.pendingFin, p) {
      RunKeeps(c, net, pps, events, p);
    }
  }

  /** PRE-PREPARE resequencing. In every run of a replica under a correct primary, whatever else happens, the batches
      are accepted in order. And when batches 1..k have all arrived and their requests are final, one
      `dequeuePrePrepares` call leaves them all accepted if and only if no waiting PRE-PREPARE has a number that is
      taken and accepting none before the last ends in an exception. */
  lemma AnyArrivalOrder(c: Config, net: Net, pps: seq<PrePrepare>, events: seq<Event>, env: Env, upTo: nat)
    requires AllThere(c, net, pps, events, env, upTo)
    ensures
      var s := After(c, events);
      var s' := DequeuePrePrepares(c, s, env).state;
      && s.admitted <= s'.admitted <= pps
      && (|s.admitted| < upTo ==>
            (pps[..upTo] <= s'.admitted
             <==> NoneStale(s) && forall n: nat :: n < upTo - |s.admitted| - 1 ==> !TripsIn(c, Released(s, env), n)))
  {
    hide Good, After, DequeuePrePrepares, TripsIn, NoneStale, AllAcceptable, AllWaiting, Released;
    var s := After(c, events);
    ThereIsReady(c, net, pps, events, env, upTo);
    DequeuePrePreparesOk(c, net, s, env);
    AdmittedAreBatches(c, net, pps, DequeuePrePrepares(c, s, env).state);
    if |s.admitted| < upTo {
      Resequenced(c, net, s, env, upTo);
    }
  }

  /** The same in terms of what waits, where no CHECKPOINTs wait for the numbers concerned: the call accepts everything
      up to `upTo` if and only if no waiting PRE-PREPARE has a number that is taken and no number before `upTo` has both
      a PREPARE for its batch and two COMMITs of one sender waiting. */
  lemma AnyArrivalOrderPlainly(c: Config, net: Net, pps: seq<PrePrepare>, events: seq<Event>, env: Env, upTo: nat)
    requires AllThere(c, net, pps, events, env, upTo) && |After(c, events).admitted| < upTo
    requires forall p: nat :: |After(c, events).admitted| < p < upTo ==> Uncovered(After(c, events).core, p)
    ensures
      var s := After(c, events);
      pps[..upTo] <= DequeuePrePrepares(c, s, env).state.admitted
      <==> NoneStale(s) && forall i :: |s.admitted| <= i < upTo - 1 ==> !Blocked(c, s, pps[i])
  {
    hide Good, After, DequeuePrePrepares, NoneStale, AllAcceptable, AllWaiting, Blocked, Uncovered, Released,
         QueueReady;
    var s := After(c, events);
    AnyArrivalOrder(c, net, pps, events, env, upTo);
    ThereIsReady(c, net, pps, events, env, upTo);
    ResequencedPlainly(c, net, s, env, upTo);
    if NoneStale(s) {
      ReleasedBatches(c, net, pps, s, env, upTo);
    }
  }

  /** The queue, once those with final requests are moved to it, holds exactly the batches up to `upTo`. */
  lemma ReleasedBatches(c: Config, net: Net, pps: seq<PrePrepare>, s: State, env: Env, upTo: nat)
    requires CorrectPrimary(c, net, pps) && Collected(c, net, s) && Settled(env, pps) && upTo <= |pps|
    requires AllAcceptable(c, s, env) && AllWaiting(s, upTo) && NoneStale(s)
    ensures (forall e :: e in Released(s, env).pendingPrev && e.pp.ppSeqNo < upTo ==> !Blocked(c, s, e.pp))
       <==> forall i :: |s.admitted| <= i < upTo - 1 ==> !Blocked(c, s, pps[i])
  {
    hide Good, AllAcceptable, AllWaiting, NoneStale, Blocked, ReleaseFinalised, Acceptable;
    var s1 := Released(s, env);
    ReleasedReady(c, net, s, env, upTo);
    ReleasedKeeps(c, net, s, env);
    CollectedAcceptable(c, net, pps, s1, env);
    if forall e :: e in s1.pendingPrev && e.pp.ppSeqNo < upTo ==> !Blocked(c, s, e.pp) {
      forall i | |s.admitted| <= i < upTo - 1 ensures !Blocked(c, s, pps[i]) {
        assert Waiting(s1.pendingPrev, i + 1);
        var e :| e in s1.pendingPrev && e.pp.ppSeqNo == i + 1;
        assert IsBatch(pps, e.pp);
      }
    }
    if forall i :: |s.admitted| <= i < upTo - 1 ==> !Blocked(c, s, pps[i]) {
      forall e | e in s1.pendingPrev && e.pp.ppSeqNo < upTo ensures !Blocked(c, s, e.pp) {
        assert IsBatch(pps, e.pp);
      }
    }
  }
}
