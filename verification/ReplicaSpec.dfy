/** One replica of one protocol instance as a value, and each of its operations
    as a function from state to state.

    The view is fixed, the primary is known and the node participates, so the
    program's (viewNo, ppSeqNo) keys are sequence numbers here. `Replica`
    (Replica.dfy) runs the same operations in place.
 */
module ReplicaSpec {
  import opened Messages

  datatype Config = Config(self: Name, primary: Name, viewNo: nat, f: nat, chkFreq: Pos, logSize: nat,
                           hash: seq<Hash> -> Hash)
  {
    predicate IsPrimary() { self == primary }
  }

  /** A checkpoint with its key (start, end). */
  datatype CheckpointState = CheckpointState(start: nat, end: nat, seqNo: nat, digests: seq<Hash>,
                                             digest: Option<Hash>, received: map<Name, Hash>,
                                             isStable: bool)

  /** The part of the state that votes work on, once a PRE-PREPARE is there.
      `checkpoints` is a sorted dictionary, kept as a list in key order.
      `replay` is the work list of messages that a raised low water mark released.
      `failed` records that `assert pp` in `doOrder` did not hold. */
  datatype Core = Core(
    sentPrePrepares: map<nat, PrePrepare>,
    prePrepares: map<nat, PrePrepare>,
    prepares: map<nat, set<Name>>,
    commits: map<nat, set<Name>>,
    ordered: seq<nat>,
    lastOrdered: nat,
    stashedCommits: seq<nat>,
    checkpoints: seq<CheckpointState>,
    stashedCheckpoints: map<(nat, nat), seq<(Name, Hash)>>,
    h: nat,
    outside: seq<(ThreePhaseMsg, Name)>,
    replay: seq<(ThreePhaseMsg, Name)>,
    outBox: seq<Out>,
    failed: bool)

  datatype PendingFin = PendingFin(pp: PrePrepare, sender: Name, missing: set<ReqKey>)
  datatype PendingPrev = PendingPrev(pp: PrePrepare, sender: Name)

  /** The whole state. `pendingPrev` is a sorted dictionary, kept as a list in key order. `admitted` is a
      history of the PRE-PREPAREs sent (primary) or accepted (others), in order. */
  datatype State = State(
    core: Core,
    preparesWaiting: map<nat, seq<(Prepare, Name)>>,
    commitsWaiting: map<nat, seq<(Commit, Name)>>,
    pendingFin: seq<PendingFin>,
    pendingPrev: seq<PendingPrev>,
    lastPrePrepare: nat,
    admitted: seq<PrePrepare>)

  /** What the node tells the replica during one call: which requests are finalised,
      and which PRE-PREPAREs pass `validatePrePrepare`. */
  datatype Env = Env(finalised: set<ReqKey>, valid: PrePrepare -> bool)

  /** The state after a call, and whether the call ended with a SuspiciousNode exception. */
  datatype Outcome = Outcome(state: State, raised: bool)

  const InitCore: Core := Core(map[], map[], map[], map[], [], 0, [], [], map[], 0, [], [], [], false)
  const Init: State := State(InitCore, map[], map[], [], [], 0, [])

  // ----- vote stores -----

  function Voters(votes: map<nat, set<Name>>, p: nat): set<Name> {
    if p in votes then votes[p] else {}
  }

  function AddVote(votes: map<nat, set<Name>>, p: nat, w: Name): map<nat, set<Name>> {
    votes[p := Voters(votes, p) + {w}]
  }

  predicate HasVotes(votes: map<nat, set<Name>>, p: nat, count: nat) {
    p in votes && |votes[p]| >= count
  }

  // ----- looking things up -----

  function GetPrePrepare(k: Core, p: nat): Option<PrePrepare> {
    if p in k.sentPrePrepares then Some(k.sentPrePrepares[p])
    else if p in k.prePrepares then Some(k.prePrepares[p])
    else None
  }

  function MaxKey(keys: set<nat>): (m: nat)
    ensures forall k :: k in keys ==> k <= m
    ensures keys != {} ==> m in keys
    ensures keys == {} ==> m == 0
  {
    if keys == {} then 0
    else
      MaxKeyExists(keys);
      var m :| m in keys && forall k :: k in keys ==> k <= m;
      m
  }

  lemma MaxKeyExists(keys: set<nat>)
    requires keys != {}
    ensures exists m :: m in keys && forall k :: k in keys ==> k <= m
  {
    var k :| k in keys;
    var rest := keys - {k};
    if rest == {} {
      assert keys == {k};
    } else {
      MaxKeyExists(rest);
      var m :| m in rest && forall j :: j in rest ==> j <= m;
      var top := if m < k then k else m;
      assert forall j :: j in keys ==> j == k || j in rest;
      assert top in keys && forall j :: j in keys ==> j <= top;
    }
  }

  /** `isNextPrePrepare`: the number right after the last PRE-PREPARE held and the last one ordered. */
  predicate IsNext(k: Core, p: nat) {
    var lastPp := MaxKey(k.sentPrePrepares.Keys + k.prePrepares.Keys);
    p == (if lastPp > k.lastOrdered then lastPp else k.lastOrdered) + 1
  }

  predicate IsStable(k: Core, p: nat) {
    k.checkpoints != [] && k.checkpoints[0].isStable && k.checkpoints[0].seqNo >= p
  }

  predicate BetweenWaterMarks(c: Config, k: Core, p: nat) {
    k.h < p <= k.h + c.logSize
  }

  // Positions in the list of checkpoints; the length when there is no such checkpoint.

  function EndIndex(cks: seq<CheckpointState>, end: nat): (i: nat)
    ensures i <= |cks|
    ensures i < |cks| ==> cks[i].end == end
    ensures forall j :: 0 <= j < i ==> cks[j].end != end
  {
    if cks == [] || cks[0].end == end then 0 else 1 + EndIndex(cks[1..], end)
  }

  function KeyIndex(cks: seq<CheckpointState>, start: nat, end: nat): (i: nat)
    ensures i <= |cks|
    ensures i < |cks| ==> cks[i].start == start && cks[i].end == end
    ensures forall j :: 0 <= j < i ==> !(cks[j].start == start && cks[j].end == end)
  {
    if cks == [] || (cks[0].start == start && cks[0].end == end) then 0 else 1 + KeyIndex(cks[1..], start, end)
  }

  function CoverIndex(cks: seq<CheckpointState>, p: nat): (i: nat)
    ensures i <= |cks|
    ensures i < |cks| ==> cks[i].start <= p <= cks[i].end
    ensures forall j :: 0 <= j < i ==> !(cks[j].start <= p <= cks[j].end)
  {
    if cks == [] || cks[0].start <= p <= cks[0].end then 0 else 1 + CoverIndex(cks[1..], p)
  }

  // ----- checkpoints -----

  function Gc(k: Core, till: nat): Core {
    var keys := set p | p in k.sentPrePrepares.Keys + k.prePrepares.Keys && p <= till;
    k.(sentPrePrepares := k.sentPrePrepares - keys,
       prePrepares := k.prePrepares - keys,
       prepares := k.prepares - keys,
       commits := k.commits - keys)
  }

  function MarkStable(k: Core, seqNo: nat): Core {
    var cks := k.checkpoints;
    var i := EndIndex(cks, seqNo);
    if i == |cks| then k
    else
      Gc(k.(checkpoints := cks[i := cks[i].(isStable := true)][i..],
            h := seqNo,
            replay := k.replay + k.outside,
            outside := []), seqNo)
  }

  function CheckIfStable(c: Config, k: Core, ck: CheckpointState): Core {
    if |ck.received| == 2 * c.f then MarkStable(k, ck.seqNo) else k
  }

  function PutStashed(stash: seq<(Name, Hash)>, w: Name, digest: Hash): seq<(Name, Hash)> {
    if stash == [] then [(w, digest)]
    else if stash[0].0 == w then [(w, digest)] + stash[1..]
    else [stash[0]] + PutStashed(stash[1..], w, digest)
  }

  function StashedFor(k: Core, start: nat, end: nat): seq<(Name, Hash)> {
    if (start, end) in k.stashedCheckpoints then k.stashedCheckpoints[(start, end)] else []
  }

  function StashCheckpoint(k: Core, start: nat, end: nat, digest: Hash, w: Name): Core {
    k.(stashedCheckpoints :=
      k.stashedCheckpoints[(start, end) := PutStashed(StashedFor(k, start, end), w, digest)])
  }

  function ProcessCheckpoint(c: Config, k: Core, start: nat, end: nat, digest: Hash, w: Name): Core {
    var i := KeyIndex(k.checkpoints, start, end);
    if IsStable(k, end) then k
    else if i < |k.checkpoints| && k.checkpoints[i].digest.Some? then
      var ck := k.checkpoints[i];
      if ck.digest.value != digest then k
      else
        var ck' := ck.(received := ck.received[w := digest]);
        CheckIfStable(c, k.(checkpoints := k.checkpoints[i := ck']), ck')
    else StashCheckpoint(k, start, end, digest, w)
  }

  /** `processStashedCheckpoints`. */
  function ReplayCheckpoints(c: Config, k: Core, start: nat, end: nat, todo: seq<(Name, Hash)>): Core
    decreases |todo|
  {
    if todo == [] then k
    else ReplayCheckpoints(c, ProcessCheckpoint(c, k, start, end, todo[0].1, todo[0].0), start, end, todo[1..])
  }

  function InsertCheckpoint(cks: seq<CheckpointState>, ck: CheckpointState): seq<CheckpointState> {
    if cks == [] || ck.start < cks[0].start then [ck] + cks
    else [cks[0]] + InsertCheckpoint(cks[1..], ck)
  }

  function NewCheckpoint(c: Config, p: nat, digest: Hash): CheckpointState {
    CheckpointState(p, p + c.chkFreq - 1, p, [digest], None, map[], false)
  }

  /** Records one more ordered batch in the checkpoint that covers it. */
  function RecordInCheckpoint(c: Config, cks: seq<CheckpointState>, p: nat, digest: Hash): seq<CheckpointState> {
    var i := CoverIndex(cks, p);
    if i < |cks| then cks[i := cks[i].(seqNo := p, digests := cks[i].digests + [digest])]
    else InsertCheckpoint(cks, NewCheckpoint(c, p, digest))
  }

  /** Closes the checkpoint at position `i`, announces it and takes the announcements that came early. */
  function CloseCheckpoint(c: Config, k: Core, cks: seq<CheckpointState>, i: nat): Core
    requires i < |cks|
  {
    var ck := cks[i];
    var d := c.hash(ck.digests);
    var k' := k.(checkpoints := cks[i := ck.(digest := Some(d), digests := [])],
                 outBox := k.outBox + [OutCheckpoint(Checkpoint(c.viewNo, ck.start, ck.end, d))]);
    ReplayCheckpoints(c, k', ck.start, ck.end, StashedFor(k', ck.start, ck.end))
  }

  function AddToCheckpoint(c: Config, k: Core, p: nat, digest: Hash): Core {
    var cks := RecordInCheckpoint(c, k.checkpoints, p, digest);
    var i := CoverIndex(cks, p);
    if i < |cks| && |cks[i].digests| == c.chkFreq then CloseCheckpoint(c, k, cks, i)
    else k.(checkpoints := cks)
  }

  // ----- ordering -----

  predicate AllPrevOrdered(k: Core, p: nat) {
    (k.ordered != [] && k.ordered[|k.ordered| - 1] + 1 == p) ||
    (forall q :: q in k.sentPrePrepares.Keys + k.prePrepares.Keys + k.prepares.Keys + k.commits.Keys && q < p
       ==> q in k.ordered)
  }

  function DoOrder(c: Config, k: Core, p: nat): Core {
    var pp := GetPrePrepare(k, p);
    if pp.None? then k.(failed := true)
    else
      AddToCheckpoint(c,
        k.(ordered := if p in k.ordered then k.ordered else k.ordered + [p],
           lastOrdered := if p > k.lastOrdered then p else k.lastOrdered,
           outBox := k.outBox + [OutOrdered(OrderedFor(pp.value))]),
        pp.value.ppSeqNo, pp.value.cert.digest)
  }

  predicate CanOrder(c: Config, k: Core, p: nat) {
    HasVotes(k.commits, p, 2 * c.f + 1) && p !in k.ordered && AllPrevOrdered(k, p)
  }

  function TryOrder(c: Config, k: Core, p: nat): Core {
    if CanOrder(c, k, p) then DoOrder(c, k, p)
    else if HasVotes(k.commits, p, 2 * c.f + 1) && p !in k.ordered && p !in k.stashedCommits then
      k.(stashedCommits := k.stashedCommits + [p])
    else k
  }

  /** The loop of `process_stashed_out_of_order_commits`: `kept` collects what stays stashed. */
  function OrderStashed(c: Config, k: Core, todo: seq<nat>, last: nat, kept: seq<nat>): Core
    decreases |todo|
  {
    if todo == [] then k.(stashedCommits := kept)
    else
      var p := todo[0];
      if p in k.ordered then OrderStashed(c, k, todo[1..], last, kept)
      else if last + 1 == p && CanOrder(c, k, p) then OrderStashed(c, TryOrder(c, k, p), todo[1..], p, kept)
      else OrderStashed(c, if last + 1 == p then TryOrder(c, k, p) else k, todo[1..], last, kept + [p])
  }

  function ProcessStashedCommits(c: Config, k: Core): Core {
    if k.ordered == [] then k
    else OrderStashed(c, k, k.stashedCommits, k.ordered[|k.ordered| - 1], [])
  }

  // ----- votes -----

  function AddToCommits(c: Config, k: Core, p: nat, w: Name): Core {
    TryOrder(c, k.(commits := AddVote(k.commits, p, w)), p)
  }

  function TryCommit(c: Config, k: Core, p: nat): Core {
    if HasVotes(k.prepares, p, 2 * c.f) && c.self !in Voters(k.commits, p) then
      AddToCommits(c, k.(outBox := k.outBox + [OutThreePhase(CommitMsg(Commit(c.viewNo, p)))]), p, c.self)
    else k
  }

  function AddToPrepares(c: Config, k: Core, p: nat, w: Name): Core {
    TryCommit(c, k.(prepares := AddVote(k.prepares, p, w)), p)
  }

  function TryPrepare(c: Config, k: Core, pp: PrePrepare): Core {
    if c.self in Voters(k.prepares, pp.ppSeqNo) then k
    else AddToPrepares(c, k.(outBox := k.outBox + [OutThreePhase(PrepareMsg(PrepareFor(pp)))]),
                       pp.ppSeqNo, c.self)
  }

  // ----- COMMIT -----

  function Append<T>(queues: map<nat, seq<T>>, p: nat, x: T): map<nat, seq<T>> {
    queues[p := (if p in queues then queues[p] else []) + [x]]
  }

  /** `processCommit` with `validateCommit`. */
  function ProcessCommit(c: Config, s: State, cm: Commit, w: Name): Outcome {
    var p := cm.ppSeqNo;
    if IsStable(s.core, p) then Outcome(s, false)
    else if GetPrePrepare(s.core, p).None? then
      Outcome(s.(commitsWaiting := Append(s.commitsWaiting, p, (cm, w))), false)
    else if p !in s.core.prepares && p !in s.preparesWaiting then Outcome(s, false)
    else if w in Voters(s.core.commits, p) then Outcome(s, true)
    else Outcome(s.(core := AddToCommits(c, s.core, p, w)), false)
  }

  function DequeueCommits(c: Config, s: State, p: nat, todo: seq<(Commit, Name)>): Outcome
    decreases |todo|
  {
    if todo == [] then Outcome(s.(commitsWaiting := s.commitsWaiting - {p}), false)
    else
      var r := ProcessCommit(c, s.(commitsWaiting := s.commitsWaiting[p := todo[1..]]), todo[0].0, todo[0].1);
      if r.raised then r else DequeueCommits(c, r.state, p, todo[1..])
  }

  // ----- PREPARE -----

  /** `processPrepare` with `validatePrepare`; the exceptions of the latter are caught here. */
  function ProcessPrepare(c: Config, s: State, m: Prepare, w: Name): State {
    var p := m.ppSeqNo;
    var pp := GetPrePrepare(s.core, p);
    if IsStable(s.core, p) || w == c.primary || w in Voters(s.core.prepares, p) then s
    else if pp.None? then
      if c.IsPrimary() then s else s.(preparesWaiting := Append(s.preparesWaiting, p, (m, w)))
    else if m.cert != pp.value.cert then s
    else s.(core := AddToPrepares(c, s.core, p, w))
  }

  function DequeuePrepares(c: Config, s: State, p: nat, todo: seq<(Prepare, Name)>): State
    decreases |todo|
  {
    if todo == [] then s.(preparesWaiting := s.preparesWaiting - {p})
    else DequeuePrepares(c,
           ProcessPrepare(c, s.(preparesWaiting := s.preparesWaiting[p := todo[1..]]), todo[0].0, todo[0].1),
           p, todo[1..])
  }

  // ----- PRE-PREPARE -----

  function RecordPrePrepare(s: State, pp: PrePrepare): State {
    var p := pp.ppSeqNo;
    s.(core := s.core.(prePrepares := s.core.prePrepares[p := pp]),
       lastPrePrepare := if p > s.lastPrePrepare then p else s.lastPrePrepare,
       admitted := s.admitted + [pp])
  }

  function TakePrepares(c: Config, s: State, p: nat): State {
    if p in s.preparesWaiting then DequeuePrepares(c, s, p, s.preparesWaiting[p]) else s
  }

  function TakeCommits(c: Config, s: State, p: nat): Outcome {
    if p in s.commitsWaiting then DequeueCommits(c, s, p, s.commitsWaiting[p]) else Outcome(s, false)
  }

  function AddToPrePrepares(c: Config, s: State, pp: PrePrepare): Outcome {
    var r := TakeCommits(c, TakePrepares(c, RecordPrePrepare(s, pp), pp.ppSeqNo), pp.ppSeqNo);
    if r.raised then r else Outcome(r.state.(core := TryPrepare(c, r.state.core, pp)), false)
  }

  function PutPending(pending: seq<PendingPrev>, e: PendingPrev): seq<PendingPrev> {
    if pending == [] || e.pp.ppSeqNo < pending[0].pp.ppSeqNo then [e] + pending
    else if e.pp.ppSeqNo == pending[0].pp.ppSeqNo then [e] + pending[1..]
    else [pending[0]] + PutPending(pending[1..], e)
  }

  function NonFinalised(env: Env, pp: PrePrepare): set<ReqKey> {
    set k | k in pp.reqIdr && k !in env.finalised
  }

  function ProcessPrePrepare(c: Config, s: State, env: Env, pp: PrePrepare, w: Name): Outcome {
    var missing := NonFinalised(env, pp);
    if w != c.primary || c.IsPrimary() || pp.ppSeqNo in s.core.prePrepares then Outcome(s, true)
    else if missing != {} then Outcome(s.(pendingFin := s.pendingFin + [PendingFin(pp, w, missing)]), false)
    else if !IsNext(s.core, pp.ppSeqNo) then
      Outcome(s.(pendingPrev := PutPending(s.pendingPrev, PendingPrev(pp, w))), false)
    else if !env.valid(pp) then Outcome(s, true)
    else AddToPrePrepares(c, s, pp)
  }

  /** The first two loops of `dequeuePrePrepares`: entries whose requests are all finalised move to the
      sorted queue, the last one first. */
  function ReleaseFinalised(env: Env, pendingFin: seq<PendingFin>, pendingPrev: seq<PendingPrev>)
    : (seq<PendingFin>, seq<PendingPrev>)
  {
    if pendingFin == [] then ([], pendingPrev)
    else
      var n := |pendingFin| - 1;
      var e := pendingFin[n];
      var missing := e.missing - env.finalised;
      if missing == {} then
        ReleaseFinalised(env, pendingFin[..n], PutPending(pendingPrev, PendingPrev(e.pp, e.sender)))
      else
        var (fin, prev) := ReleaseFinalised(env, pendingFin[..n], pendingPrev);
        (fin + [e.(missing := missing)], prev)
  }

  /** The last loop of `dequeuePrePrepares`. Each pass takes the head of the queue off. */
  function DrainPending(c: Config, s: State, env: Env): Outcome
    decreases |s.pendingPrev|
  {
    if s.pendingPrev == [] || !IsNext(s.core, s.pendingPrev[0].pp.ppSeqNo) then Outcome(s, false)
    else
      var e := s.pendingPrev[0];
      var s' := s.(pendingPrev := s.pendingPrev[1..]);
      if e.pp.viewNo != c.viewNo then DrainPending(c, s', env)
      else
        var r := ProcessPrePrepare(c, s', env, e.pp, e.sender);
        PendingAfter(c, s', env, e.pp, e.sender);
        if r.raised then r else DrainPending(c, r.state, env)
  }

  function DequeuePrePrepares(c: Config, s: State, env: Env): Outcome {
    var (fin, prev) := ReleaseFinalised(env, s.pendingFin, s.pendingPrev);
    DrainPending(c, s.(pendingFin := fin, pendingPrev := prev), env)
  }

  // ----- entry points -----

  function Route(c: Config, s: State, env: Env, m: ThreePhaseMsg, w: Name): State {
    match m
    case PrePrepareMsg(pp) => ProcessPrePrepare(c, s, env, pp, w).state
    case PrepareMsg(p) => ProcessPrepare(c, s, p, w)
    case CommitMsg(cm) => ProcessCommit(c, s, cm, w).state
  }

  /** The assertion of `can_pp_seq_no_be_in_view` fails: a message of a later view, with a number between the marks. */
  predicate LaterView(c: Config, s: State, m: ThreePhaseMsg) {
    !IsStable(s.core, m.PpSeqNo()) && BetweenWaterMarks(c, s.core, m.PpSeqNo()) && m.ViewNo() > c.viewNo
  }

  /** `dispatchThreePhaseMsg`. A message of an earlier view is dropped: no earlier view has a recorded end. One of a
      later view ends the call with an AssertionError, which changes nothing either. */
  function Dispatch(c: Config, s: State, env: Env, m: ThreePhaseMsg, w: Name): State {
    if IsStable(s.core, m.PpSeqNo()) then s
    else if BetweenWaterMarks(c, s.core, m.PpSeqNo()) then
      if m.ViewNo() == c.viewNo then Route(c, s, env, m, w) else s
    else s.(core := s.core.(outside := s.core.outside + [(m, w)]))
  }

  /** `create3PCBatch` and `sendPrePrepare`: the primary numbers the batch, `body` is its content. */
  function SendBatch(c: Config, s: State, body: PrePrepare): State {
    var p := s.lastPrePrepare + 1;
    var pp := body.(viewNo := c.viewNo, ppSeqNo := p);
    s.(core := s.core.(sentPrePrepares := s.core.sentPrePrepares[p := pp],
                       outBox := s.core.outBox + [OutThreePhase(PrePrepareMsg(pp))]),
       lastPrePrepare := p,
       admitted := s.admitted + [pp])
  }

  datatype Event =
    | Deliver(msg: ThreePhaseMsg, sender: Name, env: Env)
    | DeliverCheckpoint(ck: Checkpoint, sender: Name)
    | Service(env: Env)
    | Batch(body: PrePrepare)
    | Tick
    | Replay(env: Env)

  /** One step of the replica. Only a primary makes batches. */
  function Step(c: Config, s: State, e: Event): State {
    match e
    case Deliver(m, w, env) => Dispatch(c, s, env, m, w)
    case DeliverCheckpoint(ck, w) =>
      s.(core := ProcessCheckpoint(c, s.core, ck.seqNoStart, ck.seqNoEnd, ck.digest, w))
    case Service(env) => DequeuePrePrepares(c, s, env).state
    case Batch(body) => if c.IsPrimary() then SendBatch(c, s, body) else s
    case Tick => s.(core := ProcessStashedCommits(c, s.core))
    case Replay(env) =>
      if s.core.replay == [] then s
      else Dispatch(c, s.(core := s.core.(replay := s.core.replay[1..])), env,
                    s.core.replay[0].0, s.core.replay[0].1)
  }

  // ----- what the operations leave alone -----

  lemma {:induction false} DequeuePreparesFrame(c: Config, s: State, p: nat, todo: seq<(Prepare, Name)>)
    ensures
      var r := DequeuePrepares(c, s, p, todo);
      r == s.(core := r.core, preparesWaiting := r.preparesWaiting)
    decreases |todo|
  {
    if todo != [] {
      var s' := ProcessPrepare(c, s.(preparesWaiting := s.preparesWaiting[p := todo[1..]]), todo[0].0, todo[0].1);
      DequeuePreparesFrame(c, s', p, todo[1..]);
    }
  }

  lemma {:induction false} DequeueCommitsFrame(c: Config, s: State, p: nat, todo: seq<(Commit, Name)>)
    ensures
      var r := DequeueCommits(c, s, p, todo).state;
      r == s.(core := r.core, commitsWaiting := r.commitsWaiting)
    decreases |todo|
  {
    if todo != [] {
      var r := ProcessCommit(c, s.(commitsWaiting := s.commitsWaiting[p := todo[1..]]), todo[0].0, todo[0].1);
      if !r.raised {
        DequeueCommitsFrame(c, r.state, p, todo[1..]);
      }
    }
  }

  /** Accepting a PRE-PREPARE extends the history by it and leaves the waiting PRE-PREPAREs alone. */
  lemma AddToPrePreparesFrame(c: Config, s: State, pp: PrePrepare)
    ensures
      var r := AddToPrePrepares(c, s, pp).state;
      r == RecordPrePrepare(s, pp).(core := r.core, preparesWaiting := r.preparesWaiting,
                                    commitsWaiting := r.commitsWaiting)
  {
    var s1 := RecordPrePrepare(s, pp);
    var s2 := TakePrepares(c, s1, pp.ppSeqNo);
    if pp.ppSeqNo in s1.preparesWaiting {
      DequeuePreparesFrame(c, s1, pp.ppSeqNo, s1.preparesWaiting[pp.ppSeqNo]);
    }
    if pp.ppSeqNo in s2.commitsWaiting {
      DequeueCommitsFrame(c, s2, pp.ppSeqNo, s2.commitsWaiting[pp.ppSeqNo]);
    }
  }

  lemma PendingAfter(c: Config, s: State, env: Env, pp: PrePrepare, w: Name)
    requires IsNext(s.core, pp.ppSeqNo)
    ensures ProcessPrePrepare(c, s, env, pp, w).state.pendingPrev == s.pendingPrev
  {
    AddToPrePreparesFrame(c, s, pp);
  }
}
