/** The messages of one protocol instance, for one fixed view.

    A node and its replica of the instance share one name here.
 */
module Messages {
  datatype Name = Name(text: string)

  /** A digest or a root, as the program prints it. */
  datatype Hash = Hash(hex: string)

  datatype ReqKey = ReqKey(identifier: string, reqId: nat)

  type Pos = x: nat | x > 0 witness 1

  datatype Option<+T> = None | Some(value: T)

  /** What a PREPARE repeats of the PRE-PREPARE it answers. */
  datatype Cert = Cert(digest: Hash, stateRoot: Hash, txnRoot: Hash)

  datatype PrePrepare = PrePrepare(viewNo: nat, ppSeqNo: nat, ppTime: int, reqIdr: seq<ReqKey>,
                                   discarded: nat, ledgerId: nat, cert: Cert)

  datatype Prepare = Prepare(viewNo: nat, ppSeqNo: nat, cert: Cert)

  /** A COMMIT names the batch by view and sequence number only. */
  datatype Commit = Commit(viewNo: nat, ppSeqNo: nat)

  datatype Checkpoint = Checkpoint(viewNo: nat, seqNoStart: nat, seqNoEnd: nat, digest: Hash)

  datatype Ordered = Ordered(viewNo: nat, reqIdr: seq<ReqKey>, ppSeqNo: nat, ppTime: int,
                             ledgerId: nat, stateRoot: Hash, txnRoot: Hash)

  datatype ThreePhaseMsg =
    | PrePrepareMsg(pp: PrePrepare)
    | PrepareMsg(prepare: Prepare)
    | CommitMsg(commit: Commit)
  {
    function ViewNo(): nat {
      match this
      case PrePrepareMsg(pp) => pp.viewNo
      case PrepareMsg(p) => p.viewNo
      case CommitMsg(cm) => cm.viewNo
    }

    function PpSeqNo(): nat {
      match this
      case PrePrepareMsg(pp) => pp.ppSeqNo
      case PrepareMsg(p) => p.ppSeqNo
      case CommitMsg(cm) => cm.ppSeqNo
    }
  }

  /** Everything a replica hands to its node for sending. */
  datatype Out =
    | OutThreePhase(msg: ThreePhaseMsg)
    | OutCheckpoint(ck: Checkpoint)
    | OutOrdered(ordered: Ordered)

  /** The first `n` elements, or all of them when there are fewer: a Python slice `s[:n]`. */
  function Take<T>(s: seq<T>, n: nat): seq<T> {
    if n <= |s| then s[..n] else s
  }

  function PrepareFor(pp: PrePrepare): Prepare {
    Prepare(pp.viewNo, pp.ppSeqNo, pp.cert)
  }

  function OrderedFor(pp: PrePrepare): Ordered {
    Ordered(pp.viewNo, Take(pp.reqIdr, pp.discarded), pp.ppSeqNo, pp.ppTime, pp.ledgerId,
            pp.cert.stateRoot, pp.cert.txnRoot)
  }
}
