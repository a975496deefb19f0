# Plenum, modelled and verified in Dafny

Plenum orders client requests on a pool of nodes with RBFT: several instances of a PBFT-like three-phase protocol,
of which one, the master, changes the ledgers. This project models the parts of Plenum that carry its guarantees and
proves what they promise:

- **Three-phase commit in one view.** `ReplicaSpec.dfy` gives each operation of a replica as a function of its state;
  `Replica.dfy` is the same replica as an object whose methods update its fields, each proved equal to its function.
  `ReplicaInvariant.dfy` states what holds of every state a replica can reach in any network, `ReplicaCoreProof.dfy`
  and `ReplicaProof.dfy` prove that every step keeps it. `Pool.dfy` puts correct replicas, at most f faulty nodes that
  may say anything to anyone, and a network that delays, repeats, reorders and loses messages into one step relation.
  `Agreement.dfy` proves what holds over all runs of the pool. `Disagreement.dfy` builds, for every pool that does not
  meet the hypotheses, a run in which agreement fails, and so says exactly which pools agree. `Acceptance.dfy` says when
  accepting a PRE-PREPARE ends in an exception, `Resequencing.dfy` and `ArrivalOrder.dfy` what becomes of PRE-PREPAREs
  that come early, in runs with any other messages between them, and `ArrivalFailures.dfy` has the runs in which they
  get stuck. `Diligence.dfy`, `DiligentSteps.dfy` and `Announcing.dfy` are the other half of the invariant: what a replica
  owes it does, votes that come are counted, and what cannot be taken yet is kept. `Progress.dfy` draws that together
  over all runs: a pool in which everything has been delivered has ordered everything.
- **Optimistic application.** `Ledger.dfy` has a ledger with uncommitted transactions, `Batches.dfy` the creation,
  replay, rejection and execution of batches on a ledger and its state, over all runs; `Master.dfy` is the object.
- **Catch-up.** `CatchupRanges.dfy` has the arithmetic of the requested ranges, `Catchup.dfy` the verified appending of
  replies (safety for all replies that leave no number out), `CatchupGaps.dfy` what the others do,
  `CatchupCompletion.dfy` its progress (honest replies in any order, with bad ones in between), `CatchupFailures.dfy` how
  a pass ends and who is blacklisted, `CatchupManager.dfy` the object.
- **Pool-level decisions.** `Propagator.dfy` (request finalisation), `ViewChange.dfy` (instance-change quorum, over all
  runs of the pool), `Election.dfy` (primary declarations), with `Quorums.dfy` and `Tally.dfy`.
- **Two algorithms.** `Primes.dfy` (the incremental sieve) and `ActionQueue.dfy` (the deadline queue).

`dafny verify dfyconfig.toml` checks everything. Proofs that combine other lemmas begin with a `hide` of the
definitions they do not need.

## Conventions

- Hashes, Merkle roots and state roots are injective functions of what they stand for. In `Pool.dfy` the checkpoint
  digest is a parameter and its injectivity a hypothesis of the one theorem that needs it.
- Senders are authenticated: a message delivered in the name of a correct node was sent by it.
- f is what the nodes compute from the size of the pool, `floor((n - 1) / 3)`. Theorems that need two quorums to share a
  correct node say that quorums meet: n + t < 4f + 2 for t faulty nodes, which for t = f is n = 3f + 1.
  `Disagreement.PreparedAgreesIff` shows that under a faulty primary the condition is exact.
- A call that ends in an exception is modelled with the state it leaves behind.

## Where the code and its words part

- A COMMIT names only view and number (`plenum/common/types.py:290-296`), and a replica orders on 2f + 1 COMMITs without
  having sent one. So all runs of a pool agree on what is ordered under a number if and only if the primary is correct
  (`Disagreement.OrderingAgreesIff`, with the failing run for every pool in `Disagreement.FaultyPrimarySplitsOrder`).
  Whoever the primary is, two correct replicas agree if both sent COMMIT and quorums meet (`Agreement.OrderingAgreement`),
  and below a checkpoint that both hold as stable (`Agreement.StableCheckpointAgreement`).
- A COMMIT that one node sends twice before its PRE-PREPARE can be accepted raises an exception while the queued COMMITs
  are taken in, if a PREPARE for the batch waits as well (`plenum/server/replica.py:1071-1093` and `:1550-1564`). The
  batch is then accepted without the replica's own PREPARE, which no later step sends, and the loop of
  `dequeuePrePrepares` stops (`Acceptance.AcceptRaisesIff`, `ArrivalFailures.RepeatedCommitBlocks`).
- A PRE-PREPARE that comes twice, first with a request that is not final, leaves a copy behind. Once the copy is in the
  queue, a number that is taken heads the queue for ever, and no call of `dequeuePrePrepares` accepts anything more
  (`Resequencing.StaleEntryBlocks`,
  `ArrivalFailures.StuckStays`, `ArrivalFailures.RepeatedPrePrepareBlocks`). These two cases are the only ones: early
  PRE-PREPAREs of a correct primary are accepted in one call if and only if neither is present
  (`ArrivalOrder.AnyArrivalOrder`).
- The keys of a catch-up reply are strings and the test for gaps and duplicates compares only their number with the span
  (`plenum/common/ledger_manager.py:585-613`). A reply with one number under two keys, such as "3" and "03", or with a key
  that is not spelled as `str` spells it, passes with a number missing. What is verified is then not what is appended: one
  faulty sender can make the ledger leave the target (`CatchupGaps.TwoSpellings`) and the catch-up complete with it
  (`CatchupGaps.MisspelledCompletes`). Among the replies that pass, those that leave no number out are exactly those for
  which the two are the same (`CatchupGaps.AppendedIffContiguous`, `CatchupGaps.GapLeavesTarget`), and with them
  catch-up is safe (`Catchup.CatchupIsSafe`).
- `discardTxns(0)` drops the whole pending list (`plenum/common/ledger.py:83`). A PRE-PREPARE is therefore rejected
  without a trace exactly when at least one of its requests was applied or nothing was in flight
  (`Batches.AtomicRejection`), and a rejection outside that condition makes the next execution fail its root assertion
  unless that batch is empty (`Batches.WipedThenExecuted`).
- A replica replays a batch with the rejected requests last. It accepts the batch of a correct primary exactly when
  every rejected request is still invalid after the accepted ones (`Batches.BatchReplay`); with the rule for adding
  identities that fails when a batch makes someone a steward after that one's own request
  (`Batches.CorrectPrimaryRefused`).
- The limit on stewards counts committed transactions only (`plenum/server/domain_req_handler.py:75-90`), and nodes commit
  at different times. `Batches.ReplayElsewhere` says exactly when a replica that holds the same transactions as the
  primary, but has committed more or fewer of them, accepts its batch; at the limit it does not
  (`Batches.LimitSplitsNodes`).
- A reply that does not verify puts its sender on the blacklist, but what is verified are the entries at the head of the
  merged list, whoever sent them. So an honest sender can be blacklisted for the entry of another that came before and
  waited (`CatchupFailures.HonestBlacklisted`); a bad reply that claims to answer the request that is next does no harm
  (`CatchupCompletion.CatchupCompletes`).
- `checkPerformance` looks for a quorum for the view after the one it is in once it has voted. That look never finds one:
  votes change the view as soon as there are enough (`ViewChanges.QuorumChangesView`, `ViewChanges.JudgementChangesIff`).
- The comment on `canForward` speaks of f + 1 PROPAGATEs; the test is strict, so a request is final only with f + 2
  (`Propagation.FinalisedWhen`).
- `checkIfTxnsNeeded` counts a transaction that came twice as two, and does not stop at the end of the catch-up. Its
  requests cover exactly what is missing if and only if fewer replies came than there are numbers to catch up and there
  is no gap between replies beyond the end (`CatchupRanges.CheckIfTxnsNeeded`, with failing inputs in
  `CatchupRanges.DuplicateHidesGap` and `CatchupRanges.AsksBeyondEnd`).
- `_serviceActions` promises the number of actions executed; it counts them before the first one runs, so the number is
  right exactly when none of them schedules another to be run at once (`ActionQueues.CountIs`).
- A checkpoint becomes stable when an announcement arrives and there are then 2f of them
  (`plenum/server/replica.py:1343-1351`). In a pool of fewer than four nodes that never happens, so the low water mark
  stays 0 (`Agreement.WaterMarks`).
- A node whose own PRIMARY declaration completes the quorum does not choose; only the next declaration that comes in
  makes it choose (`Elections.ChoosesAtQuorum`, `Elections.PrimaryElector.SendPrimary`).

## Model

| member | source | states |
|---|---|---|
| Agreement.StableCheckpointAgreement | plenum/server/replica.py:1265-1351 | in any run in which quorums meet (n = 3f + 1 at f faults) and the digest is injective, two correct replicas that hold checkpoint (s, e) as stable, at whatever points of the run, accepted the same batch digests for s..e and ordered all of s..e |
| Agreement.PreparedAgreement | plenum/server/replica.py:960-1069 | in any run in which quorums meet (n = 3f + 1 at f faults), two correct replicas that both sent COMMIT for a number hold PRE-PREPAREs with equal digest, state root and txn root, even under a primary that sends different ones |
| Agreement.OrderedInSequence | plenum/server/replica.py:1225-1262 | in any run the Ordered messages of a correct replica carry 1, 2, 3, ... with no gap, repeat or inversion; each carries view, time, ledger and roots of the PRE-PREPARE accepted and as many of its leading requests as it counts as valid; `assert pp` never failed |
| Agreement.Announcements | plenum/server/replica.py:1291-1320 | in any run a correct replica has sent exactly one CHECKPOINT for each full range it ordered, with the digest of the batches accepted, and no other |
| Agreement.WaterMarks | plenum/server/replica.py:1299-1393 | in any run h never falls; h > 0 means the first checkpoint is stable and ends at h; everything up to h is ordered; PRE-PREPAREs are held exactly above h and no COMMIT entry at or below h remains; h stays 0 in a pool that tolerates no fault |
| Agreement.OrderedIsCommitted | plenum/server/replica.py:1109-1140 | behind every ordered number stand at least f + 1 correct nodes that sent COMMIT for it, holding the certificate of a replica that also sent one |
| Agreement.OrderingAgreement | plenum/server/replica.py:1225-1262 | two correct replicas that ordered a number sent the same roots for it if the primary is correct, or quorums meet and both sent COMMIT |
| Agreement.CorrectPrimaryAgreement | plenum/server/replica.py:882-943 | under a correct primary, what one correct replica accepted and ordered is a prefix of what the other did |
| Progress.AtRestAllOrdered | plenum/server/replica.py:947-1140 | in any state of any run in which the correct replicas have accepted and answered the same n batches, have counted each other's votes and are idle, every one of them has ordered all n |
| Progress.NothingOwed | plenum/server/replica.py:750-773 | in any run a correct primary has sent exactly the PRE-PREPAREs it numbered, in order; a correct replica has sent one COMMIT for every number with 2f PREPAREs counted and none twice; a number with 2f + 1 COMMITs is ordered or stashed, and the next pass orders it when it is next |
| Progress.RunIsDiligent | plenum/server/replica.py:576-760 | in every state of every run no correct replica has left a due COMMIT or ordering undone |
| DiligentSteps.StepIsDiligent | plenum/server/replica.py:576-760 | every step does all that is due, keeps votes counted, answers only batches it accepts, and moves the messages that wait for the water marks without loss |
| DiligentSteps.AcceptWorks | plenum/server/replica.py:929-958 | accepting a batch sends its PREPARE exactly if no exception comes; then all matching PREPAREs that waited are counted, the own one, and, if there was one, all COMMITs that waited |
| DiligentSteps.PrePrepareFate | plenum/server/replica.py:657-686 | which PRE-PREPAREs are refused, which wait for requests, which for their turn, and which are accepted, from what was accepted before |
| DiligentSteps.ProcessPrepareWorks | plenum/server/replica.py:698-727 | a matching PREPARE of a backup for a batch held is counted; one for a batch to come waits, except at the primary; any other changes nothing |
| DiligentSteps.ProcessCommitWorks | plenum/server/replica.py:728-749 | a COMMIT for a batch held with a PREPARE is counted, one for a batch to come waits, any other changes nothing; a second one of a sender, and only that, ends in an exception |
| DiligentSteps.DispatchReceives | plenum/server/replica.py:611-638 | a message above the high water mark goes to the end of those that wait, and no other does |
| DiligentSteps.SendBatchDiligent | plenum/server/replica.py:567-569 | a batch the primary numbers is sent, after those before it |
| Diligence.TryCommitEager | plenum/server/replica.py:750-760 | after a PREPARE is counted no COMMIT is due that was not sent |
| Diligence.TryOrderEager | plenum/server/replica.py:762-773 | after a COMMIT is counted no number with a quorum is neither ordered nor stashed |
| Diligence.PassOrders | plenum/server/replica.py:1171-1206 | the pass over stashed COMMITs gets exactly as far as the stashed numbers with a quorum follow each other in its order, and at least one further if the next has a quorum |
| Announcing.AnnouncementCounted | plenum/server/replica.py:1265-1289 | a CHECKPOINT with the own digest for a closed checkpoint is counted |
| Announcing.AnnouncementWaits | plenum/server/replica.py:1265-1289 | a CHECKPOINT for a range not yet closed waits, in place of an earlier one of its sender, and those of others stay |
| Announcing.EarlyAnnouncementsCounted | plenum/server/replica.py:1299-1367 | ordering the last batch of a range counts the CHECKPOINTs with the right digest that came before |
| Disagreement.OrderingAgreesIff | plenum/server/replica.py:1109-1140 | for every pool: all runs agree on what is ordered under a number if and only if the primary is correct |
| Disagreement.PreparedAgreesIff | plenum/server/replica.py:1049-1069 | for every pool: all runs agree on the certificates held by those that sent COMMIT if and only if the primary is correct or quorums meet |
| Disagreement.FaultyPrimarySplitsOrder | plenum/server/replica.py:1123-1140 | for every pool with a faulty primary, a run in which two correct replicas order different batches under number 1 |
| Disagreement.FaultyPrimarySplitsPrepares | plenum/server/models.py:78-85 | for every pool with a faulty primary in which quorums need not meet, a run in which two correct replicas send COMMIT for number 1 holding different batches |
| Pool.RunIsGood | plenum/server/replica.py:576-656 | every state of every run of the pool satisfies the invariant of all its correct replicas |
| Pool.RunExtends | plenum/server/replica.py:1463-1467 | between two points of a run no correct replica takes back a message, an accepted batch, an ordered number or its low water mark |
| ReplicaProof.StepOk | plenum/server/replica.py:576-760 | every step of a replica, for any message that its network can bring, keeps the invariant and takes nothing back |
| ReplicaProof.ProcessPrePrepareOk | plenum/server/replica.py:657-686 | receiving a PRE-PREPARE keeps the invariant: accepted ones are numbered without gap and were said by the primary |
| ReplicaProof.ProcessPrepareOk | plenum/server/replica.py:698-727 | receiving a PREPARE keeps the invariant: every counted vote is for the certificate held and was said by its voter |
| ReplicaProof.ProcessCommitOk | plenum/server/replica.py:728-749 | receiving a COMMIT keeps the invariant: every counted vote was said by its voter |
| ReplicaProof.NextIs | plenum/server/replica.py:809-825 | the test for the next PRE-PREPARE, from what is held and ordered, is exactly that its number follows those accepted, also after garbage collection |
| ReplicaProof.HeldInGood | plenum/server/replica.py:1023-1043 | a PRE-PREPARE can be looked up exactly between the low water mark and the last one accepted, and is the one accepted |
| ReplicaProof.DrainPendingOk | plenum/server/replica.py:1498-1516 | the loop over waiting PRE-PREPAREs keeps the invariant, exceptions included |
| ReplicaProof.PutPendingIs | plenum/server/replica.py:1468-1481 | the sorted queue of early PRE-PREPAREs stays sorted, takes the new one and loses only one with its number |
| ReplicaCoreProof.CanOrderOnlyNext | plenum/server/replica.py:1109-1169 | in every reachable state the tests before ordering pass exactly for the number after the last ordered one with a quorum of COMMITs, whatever garbage collection removed |
| ReplicaCoreProof.TryOrderOk | plenum/server/replica.py:762-773 | trying to order keeps the invariant and orders the number exactly when it is the next and has a quorum, and no other |
| ReplicaCoreProof.StableAtQuorum | plenum/server/replica.py:1265-1351 | the last of 2f matching announcements raises the low water mark to the end of the checkpoint, makes it the first, leaves nothing at or below the mark and releases the messages stashed above the old one |
| ReplicaCoreProof.DoOrderOk | plenum/server/replica.py:1225-1262 | ordering the next number keeps the invariant, with the checkpoint bookkeeping and garbage collection it may set off |
| ReplicaCoreProof.OrderStashedOk | plenum/server/replica.py:1171-1206 | the periodic pass over stashed COMMITs keeps the invariant |
| ReplicaCoreProof.AddToCheckpointOk | plenum/server/replica.py:1291-1320 | recording an ordered batch keeps the checkpoints disjoint, in order and with the digests of exactly the batches ordered |
| ReplicaCoreProof.ProcessCheckpointOk | plenum/server/replica.py:1265-1289 | receiving a CHECKPOINT keeps the invariant: a stable checkpoint was announced with its digest by 2f others |
| ReplicaCoreProof.MarkStableOk | plenum/server/replica.py:1322-1341 | making a checkpoint stable and collecting garbage keeps the invariant and leaves what was ordered |
| ReplicaCoreProof.GcVotes | plenum/server/replica.py:1369-1400 | after garbage collection the votes left are backed, and none for a COMMIT at or below the mark is left |
| ReplicaCoreProof.TryCommitOk | plenum/server/replica.py:1049-1069 | sending COMMIT keeps the invariant: a COMMIT is sent only with a prepared certificate |
| ReplicaCoreProof.TryPrepareOk | plenum/server/replica.py:947-958 | sending PREPARE keeps the invariant: one certificate for each number |
| ArrivalOrder.AnyArrivalOrder | plenum/server/replica.py:1468-1516 | in every run with any PREPAREs, COMMITs, CHECKPOINTs and service calls between them, the batches of a correct primary are accepted in order whatever order they come in; once 1..k are there with final requests, one `dequeuePrePrepares` call leaves them all accepted if and only if no waiting PRE-PREPARE has a taken number and accepting none before the last ends in an exception |
| ArrivalOrder.AnyArrivalOrderPlainly | plenum/server/replica.py:1482-1564 | the same in terms of what waits, where no CHECKPOINTs wait for these numbers: if and only if none has a taken number, and no number before k has both a PREPARE for its batch and two COMMITs of one sender waiting |
| ArrivalOrder.RunKeeps | plenum/server/replica.py:657-686 | in every such run, each PRE-PREPARE that arrived between the water marks is accepted or waits, whatever came in between |
| ArrivalFailures.RepeatedCommitBlocks | plenum/server/replica.py:1550-1564 | a run from the start in which one faulty node sends COMMIT 1 twice: the service call accepts batch 1 only, though 2 is there and final, and in no continuation is a PREPARE for 1 sent |
| ArrivalFailures.RepeatedPrePrepareBlocks | plenum/server/replica.py:1482-1516 | a run from the start in which PRE-PREPARE 1 comes twice: the service call accepts nothing, though 2 is there and final, nor does any service call in any continuation |
| ArrivalFailures.NoLatePrepare | plenum/server/replica.py:929-958 | no step of a backup sends a PREPARE for a number accepted before it |
| ArrivalFailures.StuckStays | plenum/server/replica.py:1498-1516 | once a taken number heads the queue, it does after every step, and no service call accepts anything |
| Acceptance.AcceptRaisesIff | plenum/server/replica.py:929-942 | accepting a PRE-PREPARE ends in an exception if and only if a PREPARE for it waits and a sender repeats a waiting COMMIT before the number becomes stable |
| Acceptance.AcceptRaisesPlainly | plenum/server/replica.py:1071-1093 | where no CHECKPOINT for the number waits: if and only if a PREPARE for it and two COMMITs of one sender wait |
| Resequencing.Resequenced | plenum/server/replica.py:1482-1516 | from any reachable state in which all numbers up to k wait, valid and final, one `dequeuePrePrepares` call accepts all of them, in order, if and only if no waiting number is taken and accepting none before the last ends in an exception |
| Resequencing.ResequencedPlainly | plenum/server/replica.py:1482-1564 | the same with the exceptions said in terms of the queued PREPAREs and COMMITs, where no CHECKPOINTs wait for these numbers |
| Resequencing.DrainIff | plenum/server/replica.py:1498-1516 | the loop over a sorted queue without stale entries gets to k if and only if accepting none before the last ends in an exception |
| Resequencing.ReleasedExactly | plenum/server/replica.py:1482-1497 | which entries are released, what stays missing for the others, and which of several with one number goes to the queue |
| Resequencing.ArrivalIsKept | plenum/server/replica.py:657-686 | an early PRE-PREPARE of the primary is accepted or kept waiting, never lost |
| Resequencing.StaleEntryBlocks | plenum/server/replica.py:1498-1516 | a waiting PRE-PREPARE whose number is taken keeps every other one waiting |
| ReplicaObject.Replica.constructor | plenum/server/replica.py:75-257 | a replica starts with nothing sent, accepted, voted, ordered or stashed |
| ReplicaObject.Replica.CollectGarbage | plenum/server/replica.py:1369-1400 | removes all four kinds of entries up to the mark, as the specification does |
| ReplicaObject.Replica.MarkCheckPointStable | plenum/server/replica.py:1322-1341 | the loop finds the checkpoint with that end, makes it stable, drops those before and releases the stash |
| ReplicaObject.Replica.CheckCheckpointStable | plenum/server/replica.py:1343-1351 | refines the specification's test for 2f announcements |
| ReplicaObject.Replica.OnCheckpoint | plenum/server/replica.py:1265-1289 | refines the specification of receiving a CHECKPOINT, stashing included |
| ReplicaObject.Replica.OnStashedCheckpoints | plenum/server/replica.py:1359-1367 | the loop over stashed CHECKPOINTs refines the specification |
| ReplicaObject.Replica.RecordOrdered | plenum/server/replica.py:1299-1320 | the loop that finds or makes the checkpoint for a batch refines the specification |
| ReplicaObject.Replica.Order | plenum/server/replica.py:1225-1262 | ordering refines the specification |
| ReplicaObject.Replica.PreviousOrdered | plenum/server/replica.py:1142-1169 | the search for an earlier batch that is not ordered decides what the specification says |
| ReplicaObject.Replica.TryToOrder | plenum/server/replica.py:762-773 | trying to order refines the specification, stashing included |
| ReplicaObject.Replica.OrderStashedCommits | plenum/server/replica.py:1171-1206 | the pass over stashed COMMITs refines the specification |
| ReplicaObject.Replica.TakeCommitVote | plenum/server/replica.py:1095-1104 | counting a COMMIT refines the specification |
| ReplicaObject.Replica.TryToCommit | plenum/server/replica.py:750-760 | trying to commit refines the specification |
| ReplicaObject.Replica.TakePrepareVote | plenum/server/replica.py:1013-1021 | counting a PREPARE refines the specification |
| ReplicaObject.Replica.TryToPrepare | plenum/server/replica.py:687-696 | trying to prepare refines the specification |
| ReplicaObject.Replica.OnCommit | plenum/server/replica.py:728-749 | receiving a COMMIT refines the specification, exception included |
| ReplicaObject.Replica.OnQueuedCommits | plenum/server/replica.py:1550-1564 | the loop over queued COMMITs refines the specification, and stops at an exception |
| ReplicaObject.Replica.OnPrepare | plenum/server/replica.py:698-727 | receiving a PREPARE refines the specification |
| ReplicaObject.Replica.OnQueuedPrepares | plenum/server/replica.py:1526-1540 | the loop over queued PREPAREs refines the specification |
| ReplicaObject.Replica.Accept | plenum/server/replica.py:929-942 | accepting a PRE-PREPARE refines the specification |
| ReplicaObject.Replica.OnPrePrepare | plenum/server/replica.py:657-686 | receiving a PRE-PREPARE refines the specification |
| ReplicaObject.Replica.ReleasePending | plenum/server/replica.py:1482-1497 | the loops that move PRE-PREPAREs with final requests refine the specification |
| ReplicaObject.Replica.ServicePending | plenum/server/replica.py:1482-1516 | `dequeuePrePrepares` as a whole refines the specification |
| ReplicaObject.Replica.DispatchMsg | plenum/server/replica.py:611-655 | dispatch by stability, water marks and view refines the specification; a message of a later view fails the assertion exactly between the marks |
| ReplicaObject.Replica.MakeBatch | plenum/server/replica.py:567-569 | sending a batch refines the specification |
| ReplicaObject.Replica.Take | plenum/server/replica.py:576-591 | any event of a run, taken by the object, is the step of the specification |
| Ledgers.Ledger.constructor | plenum/common/ledger.py:25-31 | a new ledger has nothing pending and no cached tree |
| Ledgers.Ledger.TreeWithAppliedTxns | plenum/common/ledger.py:91-104 | the tree is the given one, or that of the ledger, with the transactions appended |
| Ledgers.Ledger.AppendTxns | plenum/common/ledger.py:37-48 | extends the pending list and the cached tree; the returned range |
| Ledgers.Ledger.CommitTxns | plenum/common/ledger.py:50-69 | moves the oldest pending transactions to the ledger and keeps the cached tree while something is pending |
| Ledgers.Ledger.AppendCommittedTxns | plenum/common/ledger.py:71-74 | extends the ledger and nothing else |
| Ledgers.Ledger.DiscardTxns | plenum/common/ledger.py:76-89 | drops the newest pending transactions, all of them for 0, and rebuilds the cached tree |
| Ledgers.CacheAlwaysOk | plenum/common/ledger.py:37-104 | for every interleaving of the three operations with any counts, the cached tree is that of committed and pending transactions and absent only when nothing is pending |
| Ledgers.AppendedRange | plenum/common/ledger.py:37-48 | the range returned by `appendTxns` is where the new transactions are among all |
| Ledgers.CommittedRange | plenum/common/ledger.py:50-69 | the range returned by `commitTxns` is where the committed ones are exactly when no more is committed than is pending; the order of all transactions stays |
| Ledgers.DiscardKeepsOldest | plenum/common/ledger.py:76-89 | discarding keeps the committed transactions and all but the newest so many pending ones, none for 0 or too many |
| Ledgers.DiscardUndoesApply | plenum/common/ledger.py:76-89 | discarding as many as were applied restores the ledger if and only if that is at least one or nothing was pending |
| Ledgers.CatchupAndCache | plenum/common/ledger.py:71-74 | transactions from catch-up go to the end of the committed ones; they leave the cached tree right if and only if there is none or no transaction came |
| Batches.RootAssertionHolds | plenum/server/req_handler.py:44-62 | in every run of applied, refused and in-order executed batches in which each refusal applied something or found nothing in flight, no root assertion fails, and the committed state is that of the committed transactions |
| Batches.WipedThenExecuted | plenum/server/req_handler.py:54-61 | after one refusal outside that condition the next execution passes its assertion if and only if its batch has no transaction; if it fails, the state is not committed |
| Batches.AtomicRejection | plenum/server/replica.py:827-880 | whichever check fails, ledger, pending list, root and state are as before if and only if a request was applied or nothing was in flight |
| Batches.RevertUndoes | plenum/server/replica.py:827-835 | when revert restores everything, and what is left when it does not |
| Batches.BatchReplay | plenum/server/replica.py:530-565 | replaying what is stored under the keys of the primary's batch, from its book, ends in its book and is accepted if and only if the rejected requests are still invalid; otherwise too many are counted valid |
| Batches.KeysLookedUp | plenum/server/replica.py:530-565 | a batch lists the keys of the accepted requests, `discarded` of them, then those of the rejected ones; a node that knows the requests gets them back from the keys in that order |
| Batches.VerdictMeans | plenum/server/replica.py:837-880 | what each of the five verdicts says about the replica's requests, state and transactions against the primary's |
| Batches.PersistentReplay | plenum/server/replica.py:837-880 | with a handler under which rejected requests stay rejected, every batch replays |
| Batches.ReplayElsewhere | plenum/server/replica.py:837-880 | a replica with the same transactions, of which it committed more or fewer than the primary, accepts the batch, looked up by its keys, if and only if each accepted request is valid in its turn, and each rejected one invalid after them, against its own committed transactions |
| Batches.CorrectPrimaryRefused | plenum/server/domain_req_handler.py:24-41 | a batch of a correct primary that the replicas refuse, under the steward rule |
| Batches.LimitSplitsNodes | plenum/server/domain_req_handler.py:75-90 | if of the same transactions one node has committed more stewards than the limit and the other has not, the replica refuses a batch with a new steward, whichever is ahead |
| Batches.AcceptedMeansSame | plenum/server/replica.py:837-880 | an accepted PRE-PREPARE means the same requests in the same split and order, and the same state and transactions |
| Batches.ProcessReqsOk | plenum/server/replica.py:512-528 | the loop over requests splits them, keeps state and ledger in step and appends exactly the accepted ones in order |
| MasterObject.Master.constructor | plenum/server/req_handler.py:21-23 | a handler starts at the genesis state of its ledger |
| MasterObject.Master.ApplyRequest | plenum/server/domain_req_handler.py:49-53 | appends the transaction and updates the state with its sequence number |
| MasterObject.Master.ProcessReqDuringBatch | plenum/server/replica.py:512-528 | validates against the uncommitted state and the committed transactions, then applies or rejects |
| MasterObject.Master.Create3PCBatch | plenum/server/replica.py:530-565 | takes requests from the front of the queue up to the batch size and describes what they led to |
| MasterObject.BatchKeysAreTaken | plenum/server/replica.py:530-565 | the batch lists each key taken from the queue once |
| MasterObject.Master.Replay | plenum/server/replica.py:854-856 | the loop over the requests of a PRE-PREPARE computes the specified split |
| MasterObject.Master.Revert | plenum/server/replica.py:827-835 | restores the head and discards that many transactions |
| MasterObject.Master.ValidatePrePrepare | plenum/server/replica.py:837-880 | the four checks in order, each failing one with a revert, refine the specification |
| MasterObject.Master.Commit | plenum/server/req_handler.py:44-62 | commits that many transactions and, if the root is as recorded, the state |
| Catchup.CatchupIsSafe | plenum/common/ledger_manager.py:406-490 | for any sequence of replies, bad, overlapping, repeated or out of order, of which those that pass the test leave no number out, the ledger stays or becomes a prefix of the target, and catch-up completes only with the ledger equal to the target, given a sound verifier |
| Catchup.ReplyIsSafe | plenum/common/ledger_manager.py:406-450 | the same for one reply, exceptions included |
| Catchup.PassIsSafe | plenum/common/ledger_manager.py:452-490 | every append of a pass leaves a prefix of the target |
| Catchup.KnownIsPrefix | plenum/common/ledger_manager.py:507-551 | what the verifier is asked about is what is appended, because replies are contiguous and the list is sorted |
| Catchup.PlainIsContiguous | plenum/common/ledger_manager.py:585-613 | a reply that passes the test with every key spelled as `str` spells it leaves no number out |
| Catchup.UsedIff | plenum/common/ledger_manager.py:585-613 | a reply is used exactly if catch-up is on, the test passes and a number in it is new, then with all its entries in order; one that is not used changes nothing |
| Catchup.GapTestIs | plenum/common/ledger_manager.py:600-602 | the test passes exactly if there are as many keys as numbers from the least to the greatest |
| Catchup.SortIsStable | plenum/common/ledger_manager.py:595-598 | entries with equal numbers stay in the order of the reply |
| Catchup.MergeIsStable | plenum/common/ledger_manager.py:430-432 | of equal numbers, those that waited come before those of the new reply |
| Catchup.FindIsFirst | plenum/common/ledger_manager.py:553-563 | the reply found is the first with the number of the first sender that has one |
| CatchupGaps.AppendedIffContiguous | plenum/common/ledger_manager.py:467-551 | among the replies that pass the test, those that leave no number out are exactly those for which what is appended is always what was verified |
| CatchupGaps.GapLeavesTarget | plenum/common/ledger_manager.py:452-490 | every reply that passes the test and leaves a number out can make a pass append what is not in the target, with a sound verifier |
| CatchupGaps.TwoSpellings | plenum/common/ledger_manager.py:585-613 | one number under two keys passes the test, and the ledger leaves the target |
| CatchupGaps.MisspelledCompletes | plenum/common/ledger_manager.py:446-450 | one misspelled key, and catch-up completes with a ledger that is not the target |
| CatchupFailures.PassEnds | plenum/common/ledger_manager.py:452-490 | how a pass ends: someone is blacklisted exactly if a node's next reply does not verify, its sender only, with that reply and the entries it accounts for dropped; otherwise it ends only where the next number has not come or is in no stored reply |
| CatchupFailures.PassIsThorough | plenum/common/ledger_manager.py:452-490 | a pass that blacklists nobody and does not break off leaves only what is beyond the next number |
| CatchupFailures.ReplyOutcome | plenum/common/ledger_manager.py:406-450 | what is kept of the merged list, also when the pass breaks off, and exactly when catch-up is over |
| CatchupFailures.HonestBlacklisted | plenum/common/ledger_manager.py:479-489 | a run in which an honest sender is blacklisted for the entry of another |
| Catchup.SkippedComeFirst | plenum/common/ledger_manager.py:454-459 | the transactions counted as already present are the first of the list |
| CatchupCompletion.CatchupCompletes | plenum/common/ledger_manager.py:406-490 | honest replies to all requests of a catch-up, in any order of arrival and with any bad replies to the request that is next in between, complete it with the ledger equal to the target, nothing left over, and exactly the senders of bad replies blacklisted |
| CatchupCompletion.DeliveriesProgress | plenum/common/ledger_manager.py:406-490 | after any part of these replies the ledger has got to the first request without an honest one, exactly the later ones wait, and exactly the senders of bad ones are blacklisted |
| CatchupCompletion.BadArrival | plenum/common/ledger_manager.py:476-490 | a bad reply to the request that is next leaves no trace but its sender on the blacklist |
| CatchupObject.CatchupManager.constructor | plenum/common/ledger_info.py:7-62 | nothing received and nobody blacklisted at first |
| CatchupObject.CatchupManager.Start | plenum/common/ledger_manager.py:718-748 | fixes the target |
| CatchupObject.CatchupManager.GetCatchupReplyForSeqNo | plenum/common/ledger_manager.py:553-563 | the nested search finds what the specification says |
| CatchupObject.CatchupManager.RemovePrcdCatchupReply | plenum/common/ledger_manager.py:492-497 | removes the first reply of the node with that number, or its last one |
| CatchupObject.CatchupManager.AddToLedger | plenum/common/ledger_manager.py:467-470 | appends the transactions in order |
| CatchupObject.CatchupManager.ProcessCatchupReplies | plenum/common/ledger_manager.py:452-490 | the recursive pass refines the specification |
| CatchupObject.CatchupManager.ProcessCatchupRep | plenum/common/ledger_manager.py:406-450 | merging, passing and completing refine the specification |
| CatchupRanges.GetCatchupReqs | plenum/common/ledger_manager.py:781-796 | the requests are at most one for each node, not empty, of equal size but for the last, and ask for every number of (start, end] once; one empty range if there is nothing to ask for, and a failed division without a node |
| CatchupRanges.CheckIfTxnsNeeded | plenum/common/ledger_manager.py:110-201 | for any replies kept: the requests ask for exactly the missing numbers, each once, if and only if fewer replies came than there are numbers to catch up and no gap is beyond the end; no request exceeds the share of one node; nothing is counted as left over if and only if no reply is beyond the end |
| CatchupRanges.DuplicateHidesGap | plenum/common/ledger_manager.py:121-125 | replies 1, 1 of 1..2: nothing is asked for, though 2 is missing |
| CatchupRanges.AsksBeyondEnd | plenum/common/ledger_manager.py:166-170 | reply 4 of 1..2: more is asked for than is missing |
| CatchupRanges.GapRequests | plenum/common/ledger_manager.py:166-196 | the loop over the replies and the rest to the end cover exactly the gaps up to the end or the last reply |
| CatchupRanges.AddReqsForMissing | plenum/common/ledger_manager.py:152-164 | a gap is cut into ranges of the batch size without gap or overlap; an unusable batch size gives only empty ranges |
| CatchupRanges.FewerThanMissing | plenum/common/ledger_manager.py:110-124 | when no number came twice and none beyond the end, the condition of the exact cover is met whenever something is missing |
| CatchupRanges.TilingCoversOnce | plenum/common/ledger_manager.py:781-796 | ranges that follow each other cover their interval, each number once |
| Propagation.FinalisedWhen | plenum/server/propagator.py:88-100 | a request becomes final in a step exactly when some request with its key has at least f + 2 propagators, and is one with the most |
| Propagation.PropagateCounted | plenum/server/propagator.py:67-76 | after a PROPAGATE its sender counts for that request and no other with the key, the node itself counts if it did not before, and nobody else changes |
| Propagation.ClientCounted | plenum/server/propagator.py:123-142 | a client's request makes the node itself count, if it did not before |
| Propagation.TwoCorrectPropagators | plenum/server/propagator.py:27-33 | at least two of the propagators of a request that becomes final are not faulty |
| Propagation.FinalisedOnce | plenum/server/propagator.py:163-220 | in every run, from the moment a request is final until it is freed its final version is the same and its key is on every replica's queue exactly once |
| Propagation.StepKeepsOk | plenum/server/propagator.py:182-220 | every step keeps: final exactly if forwarded, and queued once for each time it was final |
| Propagation.FinalisedStays | plenum/server/propagator.py:27-33 | no step changes a final request |
| Propagation.CheckIfMoreThanFSameItems | plenum/common/util.py:342-350 | returns an item that more than maxF nodes sent and no other more often, or none if there is none |
| Propagation.Propagator.constructor | plenum/server/propagator.py:119-120 | no requests and empty queues at first |
| Propagation.Propagator.AddPropagate | plenum/server/propagator.py:67-76 | records the request of a sender, in place of an earlier one of that sender |
| Propagation.Propagator.PropagateOwn | plenum/server/propagator.py:123-142 | a node counts itself once for each key |
| Propagation.Propagator.Forward | plenum/server/propagator.py:182-195 | puts the key on every queue and flags the request |
| Propagation.Propagator.TryForwarding | plenum/server/propagator.py:210-225 | forwards exactly when the request is not forwarded and is, or now becomes, final |
| Propagation.Propagator.ProcessPropagate | plenum/server/node.py:1569-1594 | receiving a PROPAGATE is the specified step |
| Propagation.Propagator.RecordAndPropagate | plenum/server/propagator.py:197-208 | receiving a client's REQUEST is the specified step |
| ViewChanges.ViewChangeSafety | plenum/server/node.py:1654-1703 | in every run of the pool the view of a correct node never falls; when it grows, at least 2f + 1 distinct nodes voted for exactly the new view, at least f + 1 of them correct, each having broadcast that vote |
| ViewChanges.VotesAreItsOwn | plenum/server/node.py:1759-1784 | a correct node votes only in a step of its own in which it judged the master, and for a view above its own |
| ViewChanges.AdoptedWithQuorum | plenum/server/node.py:1809-1820 | a step raises the view only to one with a quorum of votes, also when it raises it twice |
| ViewChanges.QuorumChangesView | plenum/server/models.py:147-148 | in every state of every run a node that counts 2f + 1 votes for a view is in it or a later one |
| ViewChanges.DeliveryChangesIff | plenum/server/node.py:1654-1703 | a vote for a later view is counted, with the node's own exactly if it joins; the view is the new one exactly if these voters are at least 2f + 1 |
| ViewChanges.JudgementChangesIff | plenum/server/node.py:1705-1727 | a vote of its own is counted exactly if the throttle allows; the view is the next exactly if that makes 2f + 1, however the node looks afterwards |
| ViewChanges.RunKeepsVotes | plenum/server/models.py:119-148 | in every run, every correct voter counted for a view broadcast a vote for that view |
| ViewChanges.ViewChanger.constructor | plenum/server/node.py:236 | no votes and view 0 at first |
| ViewChanges.ViewChanger.AddVote | plenum/server/models.py:25-29 | adds the voter to the votes for that view |
| ViewChanges.ViewChanger.DoViewChangeIfPossible | plenum/server/node.py:1693-1703 | changes to the view exactly with a quorum and if it is above the own |
| ViewChanges.ViewChanger.RecordInstChangeMsg | plenum/server/node.py:1753-1757 | records the vote, then changes the view if possible |
| ViewChanges.ViewChanger.SendInstanceChange | plenum/server/node.py:1759-1784 | votes itself if the throttle allows |
| ViewChanges.ViewChanger.ProcessInstanceChange | plenum/server/node.py:1654-1691 | records a new vote and joins it if the master is degraded |
| ViewChanges.ViewChanger.AskForNextView | plenum/server/node.py:1705-1727 | votes for the next view and then looks for a quorum not at all, for that view, or for the one after the view it is in by then |
| ViewChanges.ViewChanger.OnViewChangeComplete | plenum/server/node.py:1870-1876 | forgets the votes for the view before |
| Elections.PrimaryChoice | plenum/server/primary_elector.py:333-409 | in every run, if in each view all correct declarers name the same, the primary an elector holds is that one, whatever up to f faulty nodes declare, across re-elections and view changes |
| Elections.ElectorsAgree | plenum/server/primary_elector.py:333-409 | two electors with a primary in the same view hold the same one |
| Elections.ChoiceStays | plenum/server/primary_elector.py:734-759 | a choice does not change until the view number grows |
| Elections.ChoosesAtQuorum | plenum/server/primary_elector.py:525-540 | after a declaration comes in an elector has chosen exactly when it had before or the declaration counts and completes a quorum; the bar on the last primary of the master falls exactly then |
| Elections.RecordedUnlessBarred | plenum/server/primary_elector.py:344-362 | a declaration is recorded unless its sender has one or it names the last primary of the master; then nothing changes |
| Elections.NotChosenAgain | plenum/server/primary_elector.py:344-352 | in every run the elector of the master never holds the primary that the last view change left behind, if the node itself does not declare it |
| Elections.OwnSteps | plenum/server/primary_elector.py:648-664 | the own declaration replaces an earlier one and chooses nothing; a re-election forgets declarations only, a later view also the choice |
| Elections.MajorityIsCorrect | plenum/common/util.py:66-73 | in a quorum whose correct members agree the most frequent declaration is theirs |
| Elections.PrimaryElector.constructor | plenum/server/primary_elector.py:93-102 | no declarations and no primary at first |
| Elections.PrimaryElector.MostCommonElement | plenum/common/util.py:66-73 | returns a declaration that no other exceeds |
| Elections.PrimaryElector.ProcessPrimary | plenum/server/primary_elector.py:333-409 | records a first declaration that is not barred, and chooses at the quorum |
| Elections.PrimaryElector.SendPrimary | plenum/server/primary_elector.py:648-664 | records the own declaration and chooses nothing |
| Elections.PrimaryElector.SetElectionDefaults | plenum/server/primary_elector.py:271-279 | forgets the declarations and keeps the choice |
| Elections.PrimaryElector.ViewChange | plenum/server/primary_elector.py:734-759 | for a larger view, forgets declarations and choice and bars the last primary of the master |
| Tallies.CountItems | plenum/common/util.py:342-347 | counts for each item how many nodes sent it |
| Tallies.MostFrequent | plenum/common/util.py:66-73 | an item that most nodes sent, and how many |
| Quorums.MaxFailures | plenum/common/util.py:164-175 | 3f + 1 <= n <= 3f + 3 from four nodes on |
| Quorums.CommonCorrect | plenum/common/util.py:178-191 | two quorums that together exceed the pool by more than the faulty share a member that is not faulty |
| Quorums.CorrectMembers | plenum/common/util.py:178-191 | a quorum has at least its size less the faulty as correct members |
| Primes.PrimeGen.Next | plenum/common/util.py:218-234 | yields the least prime above all yielded before, so every prime once in increasing order and nothing else, and terminates |
| Primes.PrimeGen.SkipComposite | plenum/common/util.py:230-234 | moves the cursor off a composite number to the next free odd multiple |
| Primes.PrimeGen.constructor | plenum/common/util.py:223-225 | an empty dictionary is a valid sieve |
| Primes.KeyIffComposite | plenum/common/util.py:225-227 | when the counter reaches an odd number, it is a key exactly when it is composite |
| Primes.PrimeStep | plenum/common/util.py:227-229 | starting the multiples of a prime at its square keeps the invariant and overwrites no cursor |
| Primes.CompositeStep | plenum/common/util.py:230-234 | moving a cursor over occupied slots keeps every composite to come a key |
| Primes.LargerPrime | plenum/common/util.py:218-234 | there is a larger prime, so the generator never runs dry |
| Primes.Euclid | plenum/common/util.py:227-229 | a prime that divides a product divides a factor: no cursor of a smaller prime stands on the square of a prime |
| ActionQueues.SkippingIsSafe | plenum/server/has_action_queue.py:18-63 | over every run of scheduling and service calls, with actions that schedule others, skipping scans by the next check runs the same actions in the same order as always scanning; the next check stays a lower bound of all stashed deadlines |
| ActionQueues.RunsWhatIsDue | plenum/server/has_action_queue.py:39-63 | a service call runs, in this order, the actions whose deadline has passed, those to be run at once, and those that actions of this call schedule to be run at once, in the order of scheduling; exactly the others wait |
| ActionQueues.ScanSplits | plenum/server/has_action_queue.py:47-56 | due actions come in reverse order of scheduling, kept ones in order, each decided by its deadline |
| ActionQueues.OneOrder | plenum/server/has_action_queue.py:18-37 | an action without delay runs at once, any other when its delay is over |
| ActionQueues.CountIs | plenum/server/has_action_queue.py:57-63 | the returned count is the number of actions run exactly when none of them scheduled one to be run at once |
| ActionQueues.NothingLostOrRepeated | plenum/server/has_action_queue.py:18-63 | over every run, what was scheduled is what was run together with what waits |
| ActionQueues.RunsAtMostOnce | plenum/server/has_action_queue.py:18-63 | no scheduled action runs twice |
| ActionQueues.HasActionQueue.constructor | plenum/server/has_action_queue.py:11-16 | nothing to do and no next check at first |
| ActionQueues.HasActionQueue.Schedule | plenum/server/has_action_queue.py:18-37 | stashes with a deadline, lowering the next check, or queues at once |
| ActionQueues.HasActionQueue.Scan | plenum/server/has_action_queue.py:47-56 | moves due actions to the front, last first, and takes the earliest deadline seen |
| ActionQueues.HasActionQueue.ServiceActions | plenum/server/has_action_queue.py:39-63 | scans if the next check has passed and runs all that is queued, also what the actions schedule while they run |

## Left out

- Three-phase state across views and during catch-up (`view_ends_at`, `stashingWhileCatchingUp`,
  `caught_up_till_pp_seq_no`, `process3PhaseState`): partly unfinished in the code. The replica model is for one view, with
  the primary known and the node participating throughout.
- The nested replay of stashed messages inside `markCheckPointStable` (plenum/server/replica.py:1405-1422): the messages
  released go to a work list and are taken as separate steps.
- Backup instances in `Batches.dfy` and `Master.dfy`: they apply nothing, so only the count and digest checks are left.
- Request queues, `trackBatches`, timers, statistics and the release of executed requests by `gc` in the replica.
- Validity of a PRE-PREPARE in the replica model: an input of the step there (`Env.valid`), modelled by itself in
  `Batches.dfy`.
- Aliasing of the replica's collections: the fields that votes work on are one record, replaced part by part.
- ReplicaObject.Replica.CollectGarbage: does not free the executed requests of a collected batch, which are not part of
  the replica model.
- ReplicaObject.Replica.MarkCheckPointStable: puts the released messages on the work list instead of dispatching them
  inside the call.
- ReplicaObject.Replica.MakeBatch: the content of a batch is an input; `Batches.dfy` has how it is made.
- CatchupObject.CatchupManager.Start: sends no requests and starts no timer; the requests are in `CatchupRanges.dfy`.
- Items of a catch-up reply whose keys are no numbers, on which `int` raises.
- Choice of the catch-up target from consistency proofs, ledger statuses and their timers; the target is the list of a
  correct node.
- Merkle tree, trie state and stores, which are other packages: abstract here, with soundness of consistency proofs as in
  section 2.1.2 of RFC 6962 as a hypothesis.
- Floating-point division in `math.ceil((end - start) / nodeCount)`: exact here.
- Repeating actions: an action that schedules itself again is one that schedules another. A service call that never ends
  is not modelled, only every one that does.
- Nomination, re-election rounds and random delays of the elector; the performance figures of the monitor and the
  throttle of instance changes, which are inputs of a step.
- Message schemas, signatures, network stacks, clients, plug-ins, command line and pool membership.
