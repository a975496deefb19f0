/** What holds of a replica in every state it can reach, whatever its peers send.

    `Good` is the invariant. It has a part about the replica alone (order, water marks,
    checkpoints, garbage collection) and a part that ties each recorded vote to what its
    sender said; the second part is what agreement in Pool.dfy rests on.
 */
module ReplicaInvariant {
  import opened Messages
  import opened ReplicaSpec

  /** The pool as one replica sees it: a faulty node may say anything, another node has said
      what is in its out box. */
  datatype Net = Net(nodes: set<Name>, faulty: set<Name>, boxes: map<Name, seq<Out>>)

  predicate Says(net: Net, w: Name, m: Out) {
    w in net.nodes && (w in net.faulty || (w in net.boxes && m in net.boxes[w]))
  }

  /** Where the replica stands: its configuration, the pool and the PRE-PREPAREs it accepted. */
  datatype Context = Context(c: Config, net: Net, admitted: seq<PrePrepare>)

  /** The replica itself backs `m` by its own out box, everyone else by what they said. */
  predicate Backs(x: Context, box: seq<Out>, w: Name, m: Out) {
    if w == x.c.self then m in box else Says(x.net, w, m)
  }

  predicate BacksPrepare(x: Context, box: seq<Out>, p: nat, w: Name) {
    1 <= p <= |x.admitted| && Backs(x, box, w, OutThreePhase(PrepareMsg(PrepareFor(x.admitted[p - 1]))))
  }

  predicate BacksCommit(x: Context, box: seq<Out>, p: nat, w: Name) {
    Backs(x, box, w, OutThreePhase(CommitMsg(Commit(x.c.viewNo, p))))
  }

  /** A quorum of 2f backups prepared the batch that this replica accepted as number `p`. */
  ghost predicate Prepared(x: Context, box: seq<Out>, p: nat) {
    exists q: set<Name> :: PrepareQuorum(x, box, p, q)
  }

  ghost predicate PrepareQuorum(x: Context, box: seq<Out>, p: nat, q: set<Name>) {
    q <= x.net.nodes - {x.c.primary} && |q| >= 2 * x.c.f && forall w :: w in q ==> BacksPrepare(x, box, p, w)
  }

  /** A quorum of 2f+1 nodes committed number `p`. */
  ghost predicate Committed(x: Context, box: seq<Out>, p: nat) {
    exists q: set<Name> :: CommitQuorum(x, box, p, q)
  }

  ghost predicate CommitQuorum(x: Context, box: seq<Out>, p: nat, q: set<Name>) {
    q <= x.net.nodes && |q| >= 2 * x.c.f + 1 && forall w :: w in q ==> BacksCommit(x, box, p, w)
  }

  function Digests(admitted: seq<PrePrepare>, start: nat, end: nat): (ds: seq<Hash>)
    requires 1 <= start <= end + 1 && end <= |admitted|
    ensures |ds| == end - start + 1
  {
    seq(end - start + 1, i requires 0 <= i < end - start + 1 => admitted[start - 1 + i].cert.digest)
  }

  // ----- the parts of the invariant -----

  ghost predicate ContextOk(x: Context) {
    x.c.self in x.net.nodes && x.c.primary in x.net.nodes &&
    forall i :: 0 <= i < |x.admitted| ==> AdmittedOk(x, i)
  }

  predicate AdmittedOk(x: Context, i: nat)
    requires i < |x.admitted|
  {
    x.admitted[i].ppSeqNo == i + 1 && x.admitted[i].viewNo == x.c.viewNo &&
    (!x.c.IsPrimary() ==> Says(x.net, x.c.primary, OutThreePhase(PrePrepareMsg(x.admitted[i]))))
  }

  ghost predicate OrderOk(ordered: seq<nat>, lastOrdered: nat) {
    lastOrdered == |ordered| && forall i :: 0 <= i < |ordered| ==> ordered[i] == i + 1
  }

  /** The PRE-PREPAREs still held are exactly those above the low water mark. */
  ghost predicate HeldOk(x: Context, h: nat, sent: map<nat, PrePrepare>, received: map<nat, PrePrepare>) {
    var held := if x.c.IsPrimary() then sent else received;
    (if x.c.IsPrimary() then received else sent) == map[] &&
    (forall p :: p in held <==> h < p <= |x.admitted|) &&
    (forall p :: p in held ==> held[p] == x.admitted[p - 1])
  }

  ghost predicate PreparesOk(x: Context, h: nat, box: seq<Out>, prepares: map<nat, set<Name>>) {
    forall p :: p in prepares ==>
      1 <= p <= |x.admitted| && prepares[p] <= x.net.nodes - {x.c.primary} &&
      (p <= h ==> prepares[p] <= {x.c.self}) &&
      (forall w :: w in prepares[p] ==> BacksPrepare(x, box, p, w))
  }

  ghost predicate CommitsOk(x: Context, h: nat, box: seq<Out>, commits: map<nat, set<Name>>) {
    forall p :: p in commits ==>
      h < p <= |x.admitted| && commits[p] <= x.net.nodes &&
      (forall w :: w in commits[p] ==> BacksCommit(x, box, p, w))
  }

  ghost predicate StashOk(n: nat, commits: map<nat, set<Name>>, stash: seq<nat>) {
    forall p :: p in stash ==> p <= n || p in commits
  }

  /** Checkpoints start at 1, 1 + freq, 1 + 2 * freq and so on. */
  predicate IsStart(start: nat, freq: Pos) {
    start == 1 || (start > freq && IsStart(start - freq, freq))
  }

  /** A checkpoint of a replica that has ordered `n` batches. */
  ghost predicate CheckpointOk(x: Context, n: nat, ck: CheckpointState) {
    1 <= ck.start <= n <= |x.admitted| && ck.end == ck.start + x.c.chkFreq - 1 &&
    IsStart(ck.start, x.c.chkFreq) &&
    (ck.isStable ==> |ck.received| == 2 * x.c.f) &&
    (forall w :: w in ck.received ==>
       w != x.c.self && ck.digest == Some(ck.received[w]) &&
       Says(x.net, w, OutCheckpoint(Checkpoint(x.c.viewNo, ck.start, ck.end, ck.received[w])))) &&
    if ck.end <= n then
      ck.digest == Some(x.c.hash(Digests(x.admitted, ck.start, ck.end))) && ck.digests == [] && ck.seqNo == ck.end
    else
      ck.digest == None && ck.digests == Digests(x.admitted, ck.start, n) && ck.seqNo == n && !ck.isStable &&
      ck.received == map[]
  }

  /** The checkpoints are disjoint and in order, the last one holds the last ordered batch, and a stable
      one is the first and ends at the low water mark. */
  ghost predicate ShapeOk(h: nat, n: nat, cks: seq<CheckpointState>) {
    (cks == [] <==> n == 0) &&
    (h > 0 <==> cks != [] && cks[0].isStable) &&
    (h > 0 ==> cks[0].end == h) &&
    (forall i :: 0 < i < |cks| ==> !cks[i].isStable) &&
    (forall i :: 0 <= i < |cks| ==> 0 < cks[i].start <= cks[i].end) &&
    (forall i, j :: 0 <= i < j < |cks| ==> cks[i].end < cks[j].start) &&
    (cks != [] ==> cks[|cks| - 1].start <= n <= cks[|cks| - 1].end)
  }

  ghost predicate CheckpointsOk(x: Context, h: nat, n: nat, cks: seq<CheckpointState>) {
    ShapeOk(h, n, cks) && forall i :: 0 <= i < |cks| ==> CheckpointOk(x, n, cks[i])
  }

  ghost predicate StashedCheckpointsOk(x: Context, stash: map<(nat, nat), seq<(Name, Hash)>>) {
    forall key :: key in stash ==> StashedFromOk(x, key.0, key.1, stash[key])
  }

  ghost predicate StashedFromOk(x: Context, start: nat, end: nat, stash: seq<(Name, Hash)>) {
    forall e :: e in stash ==> SaysCheckpoint(x, start, end, e.1, e.0)
  }

  predicate SaysCheckpoint(x: Context, start: nat, end: nat, digest: Hash, w: Name) {
    w != x.c.self && Says(x.net, w, OutCheckpoint(Checkpoint(x.c.viewNo, start, end, digest)))
  }

  predicate SaysMsg(x: Context, m: ThreePhaseMsg, w: Name) {
    w != x.c.self && Says(x.net, w, OutThreePhase(m))
  }

  ghost predicate MessagesOk(x: Context, msgs: seq<(ThreePhaseMsg, Name)>) {
    forall e :: e in msgs ==> SaysMsg(x, e.0, e.1)
  }

  /** Everything a replica with `n` ordered batches has sent is determined by what it accepted. */
  ghost predicate MessageOk(x: Context, n: nat, box: seq<Out>, m: Out) {
    match m
    case OutThreePhase(PrePrepareMsg(pp)) =>
      x.c.IsPrimary() && 1 <= pp.ppSeqNo <= |x.admitted| && pp == x.admitted[pp.ppSeqNo - 1]
    case OutThreePhase(PrepareMsg(p)) =>
      !x.c.IsPrimary() && 1 <= p.ppSeqNo <= |x.admitted| && p == PrepareFor(x.admitted[p.ppSeqNo - 1])
    case OutThreePhase(CommitMsg(cm)) =>
      1 <= cm.ppSeqNo <= |x.admitted| && cm.viewNo == x.c.viewNo && Prepared(x, box, cm.ppSeqNo)
    case OutCheckpoint(ck) =>
      1 <= ck.seqNoStart <= ck.seqNoEnd <= n <= |x.admitted| && ck.viewNo == x.c.viewNo &&
      ck.digest == x.c.hash(Digests(x.admitted, ck.seqNoStart, ck.seqNoEnd))
    case OutOrdered(o) =>
      1 <= o.ppSeqNo <= n <= |x.admitted| && o == OrderedFor(x.admitted[o.ppSeqNo - 1]) &&
      Committed(x, box, o.ppSeqNo)
  }

  ghost predicate BoxOk(x: Context, n: nat, box: seq<Out>) {
    forall m :: m in box ==> MessageOk(x, n, box, m)
  }

  /** The Ordered messages among those sent, in order. */
  function OrderedMsgs(box: seq<Out>): seq<Ordered> {
    if box == [] then []
    else
      var last := box[|box| - 1];
      OrderedMsgs(box[..|box| - 1]) + (if last.OutOrdered? then [last.ordered] else [])
  }

  ghost predicate OrderedBoxOk(x: Context, n: nat, box: seq<Out>) {
    |OrderedMsgs(box)| == n <= |x.admitted| &&
    forall i :: 0 <= i < n ==> OrderedMsgs(box)[i] == OrderedFor(x.admitted[i])
  }

  /** The CHECKPOINTs among the messages sent, in order. */
  function CheckpointMsgs(box: seq<Out>): seq<Checkpoint> {
    if box == [] then []
    else
      var last := box[|box| - 1];
      CheckpointMsgs(box[..|box| - 1]) + (if last.OutCheckpoint? then [last.ck] else [])
  }

  function AnnouncedUpTo(sent: seq<Checkpoint>): nat { if sent == [] then 0 else sent[|sent| - 1].seqNoEnd }

  /** A CHECKPOINT for `chkFreq` numbers, all among the first `n`, with the digest of the batches accepted for them. */
  ghost predicate AnnouncementIs(x: Context, n: nat, ck: Checkpoint) {
    1 <= ck.seqNoStart && ck.seqNoEnd == ck.seqNoStart + x.c.chkFreq - 1 <= n <= |x.admitted| &&
    ck.viewNo == x.c.viewNo && IsStart(ck.seqNoStart, x.c.chkFreq) &&
    ck.digest == x.c.hash(Digests(x.admitted, ck.seqNoStart, ck.seqNoEnd))
  }

  /** The CHECKPOINTs sent follow each other without gap from number 1, and as many were sent as fit into `n`. */
  ghost predicate AnnouncedOk(x: Context, n: nat, box: seq<Out>) {
    var sent := CheckpointMsgs(box);
    (forall i :: 0 <= i < |sent| ==> AnnouncementIs(x, n, sent[i])) &&
    (forall i :: 0 <= i < |sent| ==> sent[i].seqNoStart == AnnouncedUpTo(sent[..i]) + 1) &&
    AnnouncedUpTo(sent) <= n < AnnouncedUpTo(sent) + x.c.chkFreq
  }

  /** The invariant of the voting part. `n` is the number of batches that the checkpoints account for:
      one less than the number ordered while a batch is being ordered. */
  ghost predicate CoreOkAt(x: Context, k: Core, n: nat) {
    ContextOk(x) && !k.failed && OrderOk(k.ordered, k.lastOrdered) &&
    k.h <= n <= |k.ordered| <= |x.admitted| && (k.h > 0 ==> x.c.f > 0) &&
    HeldOk(x, k.h, k.sentPrePrepares, k.prePrepares) &&
    PreparesOk(x, k.h, k.outBox, k.prepares) &&
    CommitsOk(x, k.h, k.outBox, k.commits) &&
    StashOk(|k.ordered|, k.commits, k.stashedCommits) &&
    CheckpointsOk(x, k.h, n, k.checkpoints) &&
    StashedCheckpointsOk(x, k.stashedCheckpoints) &&
    MessagesOk(x, k.outside) && MessagesOk(x, k.replay) &&
    BoxOk(x, |k.ordered|, k.outBox) && OrderedBoxOk(x, |k.ordered|, k.outBox) &&
    AnnouncedOk(x, n, k.outBox)
  }

  ghost predicate CoreOk(x: Context, k: Core) { CoreOkAt(x, k, |k.ordered|) }

  ghost predicate PreparesWaitingOk(x: Context, waiting: map<nat, seq<(Prepare, Name)>>) {
    forall p :: p in waiting ==> forall e :: e in waiting[p] ==> PrepareWaitingOk(x, p, e)
  }

  predicate PrepareWaitingOk(x: Context, p: nat, e: (Prepare, Name)) {
    e.0.ppSeqNo == p && e.0.viewNo == x.c.viewNo && SaysMsg(x, PrepareMsg(e.0), e.1)
  }

  ghost predicate CommitsWaitingOk(x: Context, waiting: map<nat, seq<(Commit, Name)>>) {
    forall p :: p in waiting ==> forall e :: e in waiting[p] ==> CommitWaitingOk(x, p, e)
  }

  predicate CommitWaitingOk(x: Context, p: nat, e: (Commit, Name)) {
    e.0.ppSeqNo == p && e.0.viewNo == x.c.viewNo && SaysMsg(x, CommitMsg(e.0), e.1)
  }

  ghost predicate PendingFinOk(x: Context, pending: seq<PendingFin>) {
    forall e :: e in pending ==> SaysMsg(x, PrePrepareMsg(e.pp), e.sender)
  }

  ghost predicate SortedPending(pending: seq<PendingPrev>) {
    forall i, j :: 0 <= i < j < |pending| ==> pending[i].pp.ppSeqNo < pending[j].pp.ppSeqNo
  }

  ghost predicate PendingPrevOk(x: Context, pending: seq<PendingPrev>) {
    SortedPending(pending) && forall e :: e in pending ==> SaysMsg(x, PrePrepareMsg(e.pp), e.sender)
  }

  function ContextOf(c: Config, net: Net, s: State): Context { Context(c, net, s.admitted) }

  ghost predicate QueuesOk(x: Context, s: State) {
    PreparesWaitingOk(x, s.preparesWaiting) && CommitsWaitingOk(x, s.commitsWaiting) &&
    PendingFinOk(x, s.pendingFin) && PendingPrevOk(x, s.pendingPrev)
  }

  ghost predicate Good(c: Config, net: Net, s: State) {
    var x := ContextOf(c, net, s);
    CoreOk(x, s.core) && s.lastPrePrepare == |s.admitted| && QueuesOk(x, s)
  }

  /** What never goes back: messages sent, batches ordered, the low water mark, and a COMMIT store that
      loses an entry only below that mark. */
  ghost predicate Extends(k: Core, k': Core) {
    k.outBox <= k'.outBox && k.ordered <= k'.ordered && k.h <= k'.h &&
    forall p :: p in k.commits ==> p in k'.commits || p <= k'.h
  }

  /** What every operation on the voting part does to it. */
  ghost predicate Keeps(x: Context, k: Core, k': Core) { CoreOk(x, k') && Extends(k, k') }
}
