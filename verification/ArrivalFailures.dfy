/** How the acceptance of PRE-PREPAREs gets stuck, in runs that one faulty node or one repeated message is enough for.
    */
module ArrivalFailures {
  import opened Messages
  import opened ReplicaSpec
  import opened ReplicaInvariant
  import opened ReplicaCoreProof
  import opened ReplicaProof
  import opened Acceptance
  import opened Resequencing
  import opened ArrivalOrder
  import opened Diligence
  import opened DiligentSteps

  // ----- PREPAREs are sent on acceptance only -----

  /** No PREPARE numbered up to `n` is new. */
  ghost predicate NoneUpTo(n: nat, box: seq<Out>, box': seq<Out>) {
    forall m: Prepare :: m.ppSeqNo <= n && OutThreePhase(PrepareMsg(m)) in box' ==> OutThreePhase(PrepareMsg(m)) in box
  }

  lemma AnswersAreLater(c: Config, s: State, s': State, n: nat)
    requires AnswersOnly(c, s, s') && n <= |s.admitted|
    ensures NoneUpTo(n, s.core.outBox, s'.core.outBox)
  {
    hide OwnMsgs;
    forall m: Prepare | m.ppSeqNo <= n && OutThreePhase(PrepareMsg(m)) in s'.core.outBox
      ensures OutThreePhase(PrepareMsg(m)) in s.core.outBox
    {
      OwnMsgsAre(s'.core.outBox, PrepareMsg(m));
      OwnMsgsAre(s.core.outBox, PrepareMsg(m));
    }
  }

  /** A number that was accepted gets its PREPARE in the call that accepted it or never. */
  lemma NoLatePrepare(c: Config, net: Net, s: State, e: Event, n: nat)
    requires Good(c, net, s) && Legal(ContextOf(c, net, s), e) && Diligent(c, s) && n <= |s.admitted|
    requires !c.IsPrimary()
    ensures NoneUpTo(n, s.core.outBox, Step(c, s, e).core.outBox)
  {
    hide Good, Legal, Diligent, AnswersOnly, Counts, BacklogMoves, Step;
    StepIsDiligent(c, net, s, e);
    AnswersAreLater(c, s, Step(c, s, e), n);
  }

  lemma {:induction false} RunIsDiligent(c: Config, net: Net, pps: seq<PrePrepare>, events: seq<Event>)
    requires CorrectPrimary(c, net, pps) && IsRun(c, net, pps, events)
    ensures Diligent(c, After(c, events))
    decreases |events|
  {
    hide Step, Good, Legal, CorrectPrimary, IsRun, Diligent, Counts, BacklogMoves, AnswersOnly;
    if events == [] {
      InitDiligent(c);
    } else {
      var before := events[..|events| - 1];
      LastEvent(c, net, pps, events);
      RunIsDiligent(c, net, pps, before);
      StepIsDiligent(c, net, After(c, before), events[|events| - 1]);
    }
  }

  lemma ReleasedIsGood(c: Config, net: Net, s: State, env: Env)
    requires Good(c, net, s)
    ensures Good(c, net, Released(s, env))
  {
    hide CoreOk, PreparesWaitingOk, CommitsWaitingOk, SaysMsg, ReleaseFinalised;
    var s' := Released(s, env);
    ReleaseFinalisedOk(ContextOf(c, net, s), env, s.pendingFin, s.pendingPrev);
    PendingChanged(c, net, s, s'.pendingFin, s'.pendingPrev);
  }

  lemma {:induction false} NeverPrepared(c: Config, net: Net, pps: seq<PrePrepare>, events: seq<Event>,
                                         more: seq<Event>, n: nat)
    requires CorrectPrimary(c, net, pps) && IsRun(c, net, pps, events + more) && n <= |After(c, events).admitted|
    ensures NoneUpTo(n, After(c, events).core.outBox, After(c, events + more).core.outBox)
    ensures n <= |After(c, events + more).admitted|
    decreases |more|
  {
    hide Step, Good, Legal, CorrectPrimary, IsRun, NoneUpTo, Diligent;
    if more == [] {
      assert events + more == events;
      Reflexive(n, After(c, events).core.outBox);
    } else {
      var all := events + more;
      var k := |more| - 1;
      var before := events + more[..k];
      assert all[..|all| - 1] == before;
      LastEvent(c, net, pps, all);
      NotPrimary(c, net, pps);
      NeverPrepared(c, net, pps, events, more[..k], n);
      RunIsDiligent(c, net, pps, before);
      var s := After(c, before);
      NoLatePrepare(c, net, s, all[|all| - 1], n);
      StepOk(c, net, s, all[|all| - 1]);
      Chain(n, After(c, events).core.outBox, s.core.outBox, After(c, all).core.outBox);
    }
  }

  lemma Reflexive(n: nat, box: seq<Out>)
    ensures NoneUpTo(n, box, box)
  {
  }

  lemma Chain(n: nat, box: seq<Out>, box': seq<Out>, box'': seq<Out>)
    requires NoneUpTo(n, box, box') && NoneUpTo(n, box', box'')
    ensures NoneUpTo(n, box, box'')
  {
  }

  lemma LastEvent(c: Config, net: Net, pps: seq<PrePrepare>, events: seq<Event>)
    requires CorrectPrimary(c, net, pps) && IsRun(c, net, pps, events) && events != []
    ensures
      var before := events[..|events| - 1];
      && IsRun(c, net, pps, before) && Good(c, net, After(c, before))
      && Legal(ContextOf(c, net, After(c, before)), events[|events| - 1])
  {
    hide Step, Good, Legal, CorrectPrimary, ValidIn, Arrived;
    var before := events[..|events| - 1];
    forall i | 0 <= i < |before| ensures EventOk(c, net, pps, After(c, before[..i]), before[i]) {
      assert before[..i] == events[..i];
    }
    RunKeeps(c, net, pps, before, 0);
    assert EventOk(c, net, pps, After(c, before), events[|events| - 1]);
  }

  // ----- a COMMIT sent twice -----

  const First := ReqKey("", 1)
  const Second := ReqKey("", 2)

  /** Batch `p` with one request. */
  function BatchOf(c: Config, p: nat, req: ReqKey): PrePrepare {
    PrePrepare(c.viewNo, p, 0, [req], 0, 0, Cert(Hash(""), Hash(""), Hash("")))
  }

  function One(c: Config): PrePrepare { BatchOf(c, 1, First) }
  function Two(c: Config): PrePrepare { BatchOf(c, 2, Second) }

  /** All batches are valid and these requests are final. */
  function Final(keys: set<ReqKey>): Env { Env(keys, (pp: PrePrepare) => true) }

  function Get(c: Config, pp: PrePrepare, keys: set<ReqKey>): Event {
    Deliver(PrePrepareMsg(pp), c.primary, Final(keys))
  }

  function ServiceAll(): Event { Service(Final({First, Second})) }

  /** PRE-PREPARE 1, whose request is not final, PRE-PREPARE 2, a PREPARE for 1 and COMMIT 1 twice from one node. */
  function CommitTwice(c: Config, w: Name, b: Name): seq<Event> {
    [Get(c, One(c), {Second}),
     Get(c, Two(c), {Second}),
     Deliver(PrepareMsg(PrepareFor(One(c))), w, Final({Second})),
     Deliver(CommitMsg(Commit(c.viewNo, 1)), b, Final({Second})),
     Deliver(CommitMsg(Commit(c.viewNo, 1)), b, Final({Second}))]
  }

  /** The primary of another node is correct and makes the two batches. */
  ghost predicate TwoMade(c: Config, net: Net) {
    && c.self in net.nodes && c.primary in net.nodes - net.faulty && c.self != c.primary && c.primary in net.boxes
    && net.boxes[c.primary] == [OutThreePhase(PrePrepareMsg(One(c))), OutThreePhase(PrePrepareMsg(Two(c)))]
    && c.f >= 1 && c.logSize >= 2
  }

  /** Node `w` answers the first batch, and node `b` is faulty. */
  ghost predicate OneFaulty(c: Config, net: Net, w: Name, b: Name) {
    && TwoMade(c, net) && c.self != w && c.self != b && c.primary != w && b in net.nodes && b in net.faulty
    && Says(net, w, OutThreePhase(PrepareMsg(PrepareFor(One(c)))))
  }

  function TwoBatches(c: Config): seq<PrePrepare> { [One(c), Two(c)] }

  lemma PrimaryIsCorrect(c: Config, net: Net)
    requires TwoMade(c, net)
    ensures CorrectPrimary(c, net, TwoBatches(c))
  {
  }

  function FinEntry(c: Config, pp: PrePrepare, req: ReqKey): PendingFin { PendingFin(pp, c.primary, {req}) }

  /** The state before the service call, with this many COMMITs. */
  function Waits(c: Config, w: Name, commits: nat, b: Name): State {
    var cm := (Commit(c.viewNo, 1), b);
    Init.(pendingFin := [FinEntry(c, One(c), First)],
          pendingPrev := [PendingPrev(Two(c), c.primary)],
          preparesWaiting := map[1 := [(PrepareFor(One(c)), w)]],
          commitsWaiting := if commits == 0 then map[] else map[1 := if commits == 1 then [cm] else [cm, cm]])
  }

  /** A batch whose request is not final waits for it. */
  lemma WaitsForIt(c: Config, s: State, p: nat, req: ReqKey, keys: set<ReqKey>)
    requires !c.IsPrimary() && 1 <= p <= c.logSize && req !in keys
    requires s.core.h == 0 && s.core.checkpoints == [] && p !in s.core.prePrepares
    ensures Step(c, s, Get(c, BatchOf(c, p, req), keys))
         == s.(pendingFin := s.pendingFin + [FinEntry(c, BatchOf(c, p, req), req)])
  {
    var pp := BatchOf(c, p, req);
    assert NonFinalised(Final(keys), pp) == {req} by { assert pp.reqIdr[0] == req; }
  }

  lemma NothingHeld(k: Core, p: nat)
    requires k.sentPrePrepares == map[] && k.prePrepares == map[] && k.lastOrdered == 0
    ensures IsNext(k, p) <==> p == 1
  {
    assert k.sentPrePrepares.Keys + k.prePrepares.Keys == {};
  }

  lemma SecondWaits(c: Config, s: State)
    requires !c.IsPrimary() && c.logSize >= 2 && s.core == InitCore && s.pendingPrev == []
    ensures Step(c, s, Get(c, Two(c), {Second})) == s.(pendingPrev := [PendingPrev(Two(c), c.primary)])
  {
    hide IsNext;
    NothingHeld(s.core, 2);
    assert NonFinalised(Final({Second}), Two(c)) == {};
  }

  lemma CommitTwiceReaches(c: Config, net: Net, w: Name, b: Name)
    requires OneFaulty(c, net, w, b)
    ensures After(c, CommitTwice(c, w, b)) == Waits(c, w, 2, b)
    ensures IsRun(c, net, TwoBatches(c), CommitTwice(c, w, b))
  {
    hide Step;
    var es := CommitTwice(c, w, b);
    var s1 := Init.(pendingFin := [FinEntry(c, One(c), First)]);
    WaitsForIt(c, Init, 1, First, {Second});
    assert [] + s1.pendingFin == s1.pendingFin;
    SecondWaits(c, s1);
    VotesWait(c, w, b);
    assert es[..1][..0] == [] && es[..2][..1] == es[..1] && es[..3][..2] == es[..2] && es[..4][..3] == es[..3];
    assert es[..5] == es;
    assert After(c, es[..1]) == s1;
    assert After(c, es[..2]) == s1.(pendingPrev := [PendingPrev(Two(c), c.primary)]);
    assert After(c, es[..3]) == Waits(c, w, 0, b);
    assert After(c, es[..4]) == Waits(c, w, 1, b);
  }

  lemma VotesWait(c: Config, w: Name, b: Name)
    requires !c.IsPrimary() && c.logSize >= 2 && w != c.primary
    ensures
      var cm := Deliver(CommitMsg(Commit(c.viewNo, 1)), b, Final({Second}));
      var s2 := Waits(c, w, 0, b).(preparesWaiting := map[]);
      && Step(c, s2, Deliver(PrepareMsg(PrepareFor(One(c))), w, Final({Second}))) == Waits(c, w, 0, b)
      && Step(c, Waits(c, w, 0, b), cm) == Waits(c, w, 1, b)
      && Step(c, Waits(c, w, 1, b), cm) == Waits(c, w, 2, b)
  {
    var m := (PrepareFor(One(c)), w);
    var cm := (Commit(c.viewNo, 1), b);
    AppendFirst(m);
    AppendFirst(cm);
    assert [cm] + [cm] == [cm, cm];
    assert Append(map[1 := [cm]], 1, cm) == map[1 := [cm, cm]];
  }

  lemma AppendFirst<T>(x: T)
    ensures Append(map[], 1, x) == map[1 := [x]]
  {
    assert [] + [x] == [x];
  }

  /** The service call takes PRE-PREPARE 1, counts the PREPARE, counts the COMMIT, fails at its repetition and stops. */
  lemma ServiceStops(c: Config, net: Net, w: Name, b: Name)
    requires OneFaulty(c, net, w, b)
    ensures
      var s' := Step(c, Waits(c, w, 2, b), ServiceAll());
      s'.admitted == [One(c)] && s'.core.outBox == []
  {
    var env := Final({First, Second});
    var s := Waits(c, w, 2, b);
    var s1 := s.(pendingFin := [], pendingPrev := [PendingPrev(One(c), c.primary), PendingPrev(Two(c), c.primary)]);
    assert Released(s, env) == s1 by {
      assert {First} - env.finalised == {};
      assert s.pendingFin[..0] == [];
      assert PutPending(s.pendingPrev, PendingPrev(One(c), c.primary)) == s1.pendingPrev;
      assert ReleaseFinalised(env, s.pendingFin, s.pendingPrev) == ReleaseFinalised(env, [], s1.pendingPrev);
    }
    var r := AddToPrePrepares(c, Popped(s1), One(c));
    FirstTrips(c, Popped(s1), w, b);
    assert IsNext(s1.core, 1) by { NothingHeld(s1.core, 1); }
    assert NonFinalised(env, One(c)) == {};
    assert ProcessPrePrepare(c, Popped(s1), env, One(c), c.primary) == r;
    assert DrainPending(c, s1, env) == r;
  }

  lemma FirstTrips(c: Config, s: State, w: Name, b: Name)
    requires c.f >= 1 && w != c.primary && !c.IsPrimary()
    requires s.core == InitCore && s.admitted == [] && s.preparesWaiting == Waits(c, w, 2, b).preparesWaiting
    requires s.commitsWaiting == Waits(c, w, 2, b).commitsWaiting
    ensures
      var r := AddToPrePrepares(c, s, One(c));
      r.raised && r.state.admitted == [One(c)] && r.state.core.outBox == []
  {
    var s1 := RecordPrePrepare(s, One(c));
    AddToPrePreparesFrame(c, s, One(c));
    CountsPrepare(c, s1, w);
    CountsCommits(c, TakePrepares(c, s1, 1), b);
  }

  lemma CountsPrepare(c: Config, s: State, w: Name)
    requires c.f >= 1 && w != c.primary && s.preparesWaiting == map[1 := [(PrepareFor(One(c)), w)]]
    requires s.core == InitCore.(prePrepares := map[1 := One(c)])
    ensures TakePrepares(c, s, 1) == s.(core := s.core.(prepares := map[1 := {w}]), preparesWaiting := map[])
  {
    var m := PrepareFor(One(c));
    var k := s.core.(prepares := map[1 := {w}]);
    assert {} + {w} == {w};
    assert AddVote(s.core.prepares, 1, w) == map[1 := {w}];
    assert AddToPrepares(c, s.core, 1, w) == k;
    var s1 := s.(preparesWaiting := s.preparesWaiting[1 := []]);
    assert s.preparesWaiting[1][1..] == [];
    assert ProcessPrepare(c, s1, m, w) == s1.(core := k);
    assert s1.preparesWaiting - {1} == map[];
    assert DequeuePrepares(c, s, 1, s.preparesWaiting[1]) == DequeuePrepares(c, s1.(core := k), 1, []);
  }

  lemma CountsCommits(c: Config, s: State, b: Name)
    requires c.f >= 1 && s.commitsWaiting == map[1 := [(Commit(c.viewNo, 1), b), (Commit(c.viewNo, 1), b)]]
    requires s.core.checkpoints == [] && s.core.sentPrePrepares == map[] && 1 in s.core.prePrepares
    requires 1 in s.core.prepares && s.core.commits == map[] && s.core.outBox == []
    ensures TakeCommits(c, s, 1).raised && TakeCommits(c, s, 1).state.core.outBox == []
  {
    var cm := Commit(c.viewNo, 1);
    var k := s.core.(commits := map[1 := {b}]);
    assert {} + {b} == {b};
    assert AddVote(s.core.commits, 1, b) == map[1 := {b}];
    assert AddToCommits(c, s.core, 1, b) == k;
    var s1 := s.(commitsWaiting := s.commitsWaiting[1 := [(cm, b)]]);
    assert s.commitsWaiting[1][1..] == [(cm, b)];
    assert ProcessCommit(c, s1, cm, b) == Outcome(s1.(core := k), false);
    var s2 := s1.(core := k, commitsWaiting := s1.commitsWaiting[1 := []]);
    assert ProcessCommit(c, s2, cm, b) == Outcome(s2, true);
    assert DequeueCommits(c, s, 1, s.commitsWaiting[1]) == DequeueCommits(c, s1.(core := k), 1, [(cm, b)]);
  }

  /** One faulty node sends its COMMIT twice before the batch can be accepted. Everything has arrived and is final, but
      the service call accepts only the first of the two batches, and in no continuation does the replica send its
      PREPARE for that one. */
  lemma RepeatedCommitBlocks(c: Config, net: Net, w: Name, b: Name)
    requires OneFaulty(c, net, w, b)
    ensures
      var pps, es := TwoBatches(c), CommitTwice(c, w, b);
      && AllThere(c, net, pps, es, Final({First, Second}), 2)
      && Step(c, After(c, es), ServiceAll()).admitted == pps[..1]
      && forall more, m: Prepare :: IsRun(c, net, pps, es + [ServiceAll()] + more) && m.ppSeqNo <= 1
           ==> OutThreePhase(PrepareMsg(m)) !in After(c, es + [ServiceAll()] + more).core.outBox
  {
    hide Step;
    var pps, es := TwoBatches(c), CommitTwice(c, w, b);
    PrimaryIsCorrect(c, net);
    CommitTwiceReaches(c, net, w, b);
    ServiceStops(c, net, w, b);
    BothArrived(c, net, w, b);
    var all := es + [ServiceAll()];
    assert all[..|all| - 1] == es;
    forall more, m: Prepare | IsRun(c, net, pps, all + more) && m.ppSeqNo <= 1
      ensures OutThreePhase(PrepareMsg(m)) !in After(c, all + more).core.outBox
    {
      NeverPrepared(c, net, pps, all, more, 1);
    }
  }

  lemma BothArrived(c: Config, net: Net, w: Name, b: Name)
    requires OneFaulty(c, net, w, b)
    ensures Arrived(c, CommitTwice(c, w, b), 1) && Arrived(c, CommitTwice(c, w, b), 2)
  {
    hide Step;
    var es := CommitTwice(c, w, b);
    WaitsForIt(c, Init, 1, First, {Second});
    assert es[..1][..0] == [];
    assert Takes(c, After(c, es[..0]), es[0], 1);
    assert Takes(c, After(c, es[..1]), es[1], 2);
  }

  // ----- a PRE-PREPARE that comes twice -----

  /** A number that is taken heads the queue. */
  ghost predicate Stuck(s: State) { s.pendingPrev != [] && s.pendingPrev[0].pp.ppSeqNo <= |s.admitted| }

  lemma PutHead(pending: seq<PendingPrev>, e: PendingPrev)
    ensures PutPending(pending, e) != []
    ensures pending != [] ==> PutPending(pending, e)[0].pp.ppSeqNo <= pending[0].pp.ppSeqNo
    ensures PutPending(pending, e)[0].pp.ppSeqNo <= e.pp.ppSeqNo
  {
  }

  lemma {:induction false} ReleaseHead(env: Env, fin: seq<PendingFin>, prev: seq<PendingPrev>, n: nat)
    requires prev != [] && prev[0].pp.ppSeqNo <= n
    ensures
      var r := ReleaseFinalised(env, fin, prev).1;
      r != [] && r[0].pp.ppSeqNo <= n
    decreases |fin|
  {
    if fin != [] {
      var e := fin[|fin| - 1];
      PutHead(prev, PendingPrev(e.pp, e.sender));
      ReleaseHead(env, fin[..|fin| - 1], PutPending(prev, PendingPrev(e.pp, e.sender)), n);
      ReleaseHead(env, fin[..|fin| - 1], prev, n);
    }
  }

  lemma ServiceStuck(c: Config, net: Net, s: State, env: Env)
    requires Good(c, net, s) && Stuck(s)
    ensures DequeuePrePrepares(c, s, env).state == Released(s, env) && Stuck(Released(s, env))
  {
    hide Good, IsNext, ReleaseFinalised;
    var s1 := Released(s, env);
    ReleaseHead(env, s.pendingFin, s.pendingPrev, |s.admitted|);
    ReleasedIsGood(c, net, s, env);
    NextIs(c, net, s1, s1.pendingPrev[0].pp.ppSeqNo);
  }

  lemma DispatchStuck(c: Config, s: State, env: Env, m: ThreePhaseMsg, w: Name)
    requires Stuck(s)
    ensures Stuck(Dispatch(c, s, env, m, w))
  {
    hide IsStable, AddToPrePrepares, ProcessPrepare, ProcessCommit, IsNext, PutPending;
    match m
    case PrePrepareMsg(pp) =>
      PutHead(s.pendingPrev, PendingPrev(pp, w));
      AddToPrePreparesFrame(c, s, pp);
    case PrepareMsg(p) => ProcessPrepareFrame(c, s, p, w);
    case CommitMsg(cm) => ProcessCommitFrame(c, s, cm, w);
  }

  /** Once a taken number heads the queue it does so in every later state, and no service call accepts anything again.
      */
  lemma StuckStays(c: Config, net: Net, s: State, e: Event)
    requires Good(c, net, s) && Legal(ContextOf(c, net, s), e) && Stuck(s)
    ensures Stuck(Step(c, s, e)) && (e.Service? ==> Step(c, s, e).admitted == s.admitted)
  {
    hide Good, Dispatch, DequeuePrePrepares, ReleaseFinalised, ProcessCheckpoint, ProcessStashedCommits, SaysMsg,
         SaysCheckpoint;
    match e
    case Deliver(m, w, env) => DispatchStuck(c, s, env, m, w);
    case Service(env) => ServiceStuck(c, net, s, env);
    case Replay(env) =>
      if s.core.replay != [] {
        DispatchStuck(c, s.(core := s.core.(replay := s.core.replay[1..])), env, s.core.replay[0].0,
                      s.core.replay[0].1);
      }
    case _ =>
  }

  lemma {:induction false} StuckForever(c: Config, net: Net, pps: seq<PrePrepare>, events: seq<Event>, more: seq<Event>)
    requires CorrectPrimary(c, net, pps) && IsRun(c, net, pps, events + more) && Stuck(After(c, events))
    ensures Stuck(After(c, events + more))
    decreases |more|
  {
    hide Step, Good, Legal, CorrectPrimary, IsRun, Stuck;
    if more == [] {
      assert events + more == events;
    } else {
      var all := events + more;
      var k := |more| - 1;
      var before := events + more[..k];
      assert all[..|all| - 1] == before;
      LastEvent(c, net, pps, all);
      StuckForever(c, net, pps, events, more[..k]);
      StuckStays(c, net, After(c, before), all[|all| - 1]);
    }
  }

  /** PRE-PREPARE 1 comes while its request is not final and again when it is; then PRE-PREPARE 2, not final yet. */
  function ComesTwice(c: Config): seq<Event> {
    [Get(c, One(c), {}), Get(c, One(c), {First}), Get(c, Two(c), {First})]
  }

  /** PRE-PREPARE 1 is accepted when it comes again, and the first copy stays behind. */
  lemma AcceptsCopy(c: Config, s: State)
    requires c.f >= 1 && !c.IsPrimary() && c.logSize >= 2
    requires s == Init.(pendingFin := [FinEntry(c, One(c), First)])
    ensures
      var s' := Step(c, s, Get(c, One(c), {First}));
      && s'.admitted == [One(c)] && s'.pendingFin == s.pendingFin && s'.pendingPrev == []
      && s'.core.h == 0 && s'.core.checkpoints == [] && s'.core.prePrepares == map[1 := One(c)]
  {
    var pp, env := One(c), Final({First});
    assert NonFinalised(env, pp) == {};
    NothingHeld(s.core, 1);
    var s1 := RecordPrePrepare(s, pp);
    assert ProcessPrePrepare(c, s, env, pp, c.primary) == AddToPrePrepares(c, s, pp);
    assert TakeCommits(c, TakePrepares(c, s1, 1), 1) == Outcome(s1, false);
    assert {} + {c.self} == {c.self};
    assert AddVote(s1.core.prepares, 1, c.self) == map[1 := {c.self}];
    var k := s1.core.(outBox := s1.core.outBox + [OutThreePhase(PrepareMsg(PrepareFor(pp)))],
                      prepares := map[1 := {c.self}]);
    assert TryPrepare(c, s1.core, pp) == TryCommit(c, k, 1) == k;
  }

  lemma ComesTwiceReaches(c: Config, net: Net)
    requires TwoMade(c, net)
    ensures IsRun(c, net, TwoBatches(c), ComesTwice(c))
    ensures Arrived(c, ComesTwice(c), 1) && Arrived(c, ComesTwice(c), 2)
    ensures
      var s := After(c, ComesTwice(c));
      && s.admitted == [One(c)] && s.pendingPrev == []
      && s.pendingFin == [FinEntry(c, One(c), First), FinEntry(c, Two(c), Second)]
  {
    hide Step;
    var es := ComesTwice(c);
    var s1 := Init.(pendingFin := [FinEntry(c, One(c), First)]);
    WaitsForIt(c, Init, 1, First, {});
    assert [] + s1.pendingFin == s1.pendingFin;
    AcceptsCopy(c, s1);
    var s2 := Step(c, s1, Get(c, One(c), {First}));
    WaitsForIt(c, s2, 2, Second, {First});
    assert es[..1][..0] == [] && es[..2][..1] == es[..1] && es[..3] == es;
    assert After(c, es[..1]) == s1;
    assert After(c, es[..2]) == s2;
    assert Takes(c, After(c, es[..0]), es[0], 1);
    assert Takes(c, After(c, es[..2]), es[2], 2);
  }

  /** PRE-PREPARE 1 comes twice. Everything has arrived and is final, but the service call accepts nothing more: the
      copy of PRE-PREPARE 1 heads the queue then and in every continuation, so no later service call accepts anything.
      */
  lemma RepeatedPrePrepareBlocks(c: Config, net: Net)
    requires TwoMade(c, net)
    ensures
      var pps, es := TwoBatches(c), ComesTwice(c);
      && AllThere(c, net, pps, es, Final({First, Second}), 2)
      && Step(c, After(c, es), ServiceAll()).admitted == After(c, es).admitted == pps[..1]
      && forall more, env :: IsRun(c, net, pps, es + [ServiceAll()] + more)
           ==> var s := After(c, es + [ServiceAll()] + more); Step(c, s, Service(env)).admitted == s.admitted
  {
    hide Step, Stuck, Good;
    var pps, es := TwoBatches(c), ComesTwice(c);
    PrimaryIsCorrect(c, net);
    ComesTwiceReaches(c, net);
    var s := After(c, es);
    RunKeeps(c, net, pps, es, 0);
    CopyHeads(c, net, s);
    var all := es + [ServiceAll()];
    assert all[..|all| - 1] == es;
    forall more, env | IsRun(c, net, pps, all + more)
      ensures Step(c, After(c, all + more), Service(env)).admitted == After(c, all + more).admitted
    {
      StuckForever(c, net, pps, all, more);
      RunKeeps(c, net, pps, all + more, 0);
      StuckStays(c, net, After(c, all + more), Service(env));
    }
  }

  lemma CopyHeads(c: Config, net: Net, s: State)
    requires Good(c, net, s) && s.admitted == [One(c)] && s.pendingPrev == []
    requires s.pendingFin == [FinEntry(c, One(c), First), FinEntry(c, Two(c), Second)]
    ensures
      var s' := Step(c, s, ServiceAll());
      Stuck(s') && s'.admitted == s.admitted
  {
    hide Good, IsNext, ProcessPrePrepare;
    var env := Final({First, Second});
    var one, two := PendingPrev(One(c), c.primary), PendingPrev(Two(c), c.primary);
    assert s.pendingFin[..1] == [FinEntry(c, One(c), First)] && s.pendingFin[..1][..0] == [];
    assert {First} - env.finalised == {} && {Second} - env.finalised == {};
    assert PutPending([], two) == [two] && PutPending([two], one) == [one, two];
    assert ReleaseFinalised(env, s.pendingFin, []) == ReleaseFinalised(env, s.pendingFin[..1], [two]);
    assert ReleaseFinalised(env, s.pendingFin[..1], [two]) == ReleaseFinalised(env, [], [one, two]);
    assert Released(s, env).pendingPrev == [one, two];
    ReleasedIsGood(c, net, s, env);
    NextIs(c, net, Released(s, env), 1);
  }
}
