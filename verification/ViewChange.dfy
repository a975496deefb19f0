/** How a pool decides to change the view: INSTANCE_CHANGE votes.

    A node judges the master, from its monitor or from a lost connection or a suspicion: that judgement, and whether
    its throttle lets it send, are inputs of a step.
 */
module ViewChanges {
  import opened Messages
  import opened Quorums

  /** The votes of `InstanceChanges`, by view. */
  datatype NodeState = NodeState(viewNo: nat, votes: map<nat, set<Name>>)

  function VotersFor(n: NodeState, v: nat): set<Name> { if v in n.votes then n.votes[v] else {} }

  function WithVote(n: NodeState, v: nat, voter: Name): NodeState {
    n.(votes := n.votes[v := VotersFor(n, v) + {voter}])
  }

  /** `do_view_change_if_possible`. */
  function Changed(n: NodeState, f: nat, v: nat): NodeState {
    if |VotersFor(n, v)| >= 2 * f + 1 && v > n.viewNo then n.(viewNo := v) else n
  }

  /** `_record_inst_change_msg`. */
  function Recorded(n: NodeState, f: nat, v: nat, voter: Name): NodeState {
    var n' := WithVote(n, v, voter);
    if v > n.viewNo then Changed(n', f, v) else n'
  }

  /** `sendInstanceChange`: the second component says whether the message went out. */
  function Sent(n: NodeState, f: nat, self: Name, v: nat, canSend: bool): (NodeState, bool) {
    if canSend then (Recorded(n, f, v, self), true) else (n, false)
  }

  /** `processInstanceChange`, for a view number that is a number. */
  function Processed(n: NodeState, f: nat, self: Name, v: nat, frm: Name, degraded: bool, canSend: bool)
    : (NodeState, bool)
  {
    if v <= n.viewNo then (n, false)
    else
      var n1 := if frm in VotersFor(n, v) then n else Recorded(n, f, v, frm);
      if degraded && self !in VotersFor(n1, v) then Sent(n1, f, self, v, canSend) else (n1, false)
  }

  /** Whether a node that asked for the next view looks for a quorum afterwards: not at all (the reaction to a wrong
      PRE-PREPARE), for the view it asked for (`propose_view_change`), or for the view after the one it is in by then
      (`checkPerformance`). */
  datatype Look = NoLook | AtAsked | AtNext

  /** The node judges the master and asks for the next view. */
  function Judged(n: NodeState, f: nat, self: Name, canSend: bool, look: Look): (NodeState, bool) {
    var s := Sent(n, f, self, n.viewNo + 1, canSend);
    match look
    case NoLook => s
    case AtAsked => (Changed(s.0, f, n.viewNo + 1), s.1)
    case AtNext => (Changed(s.0, f, s.0.viewNo + 1), s.1)
  }

  /** `on_view_change_complete` forgets the votes for the view before. */
  function Completed(n: NodeState): NodeState {
    if n.viewNo == 0 then n else n.(votes := n.votes - {n.viewNo - 1})
  }

  // ----- the object -----

  class ViewChanger {
    const name: Name
    const f: nat
    var viewNo: nat
    var instanceChanges: map<nat, set<Name>>

    function Value(): NodeState
      reads this
    {
      NodeState(viewNo, instanceChanges)
    }

    constructor (name: Name, f: nat)
      ensures this.name == name && this.f == f && Value() == NodeState(0, map[])
    {
      this.name, this.f, viewNo, instanceChanges := name, f, 0, map[];
    }

    /** `TrackedMsgs.addMsg`. */
    method AddVote(v: nat, voter: Name)
      modifies this`instanceChanges
      ensures Value() == WithVote(old(Value()), v, voter)
    {
      if v !in instanceChanges {
        instanceChanges := instanceChanges[v := {}];
      }
      instanceChanges := instanceChanges[v := instanceChanges[v] + {voter}];
    }

    method DoViewChangeIfPossible(v: nat) returns (done: bool)
      modifies this`viewNo
      ensures Value() == Changed(old(Value()), f, v) && (done <==> viewNo != old(viewNo))
    {
      done := v in instanceChanges && |instanceChanges[v]| >= 2 * f + 1 && v > viewNo;
      if done {
        viewNo := v;
      }
    }

    method RecordInstChangeMsg(v: nat, frm: Name)
      modifies this
      ensures Value() == Recorded(old(Value()), f, v, frm)
    {
      AddVote(v, frm);
      if v > viewNo {
        var _ := DoViewChangeIfPossible(v);
      }
    }

    method SendInstanceChange(v: nat, canSend: bool) returns (sent: bool)
      modifies this
      ensures (Value(), sent) == Sent(old(Value()), f, name, v, canSend)
    {
      if canSend {
        RecordInstChangeMsg(v, name);
      }
      sent := canSend;
    }

    method ProcessInstanceChange(v: nat, frm: Name, degraded: bool, canSend: bool) returns (sent: bool)
      modifies this
      ensures (Value(), sent) == Processed(old(Value()), f, name, v, frm, degraded, canSend)
    {
      sent := false;
      if v <= viewNo {
        return;
      }
      if !(v in instanceChanges && frm in instanceChanges[v]) {
        RecordInstChangeMsg(v, frm);
      }
      if degraded && !(v in instanceChanges && name in instanceChanges[v]) {
        sent := SendInstanceChange(v, canSend);
      }
    }

    method AskForNextView(canSend: bool, look: Look) returns (sent: bool)
      modifies this
      ensures (Value(), sent) == Judged(old(Value()), f, name, canSend, look)
    {
      hide Recorded, Changed;
      var v := viewNo + 1;
      sent := SendInstanceChange(v, canSend);
      match look
      case NoLook =>
      case AtAsked =>
        var _ := DoViewChangeIfPossible(v);
      case AtNext =>
        var _ := DoViewChangeIfPossible(viewNo + 1);
    }

    method OnViewChangeComplete()
      modifies this`instanceChanges
      ensures Value() == Completed(old(Value()))
    {
      if viewNo > 0 {
        instanceChanges := instanceChanges - {viewNo - 1};
      }
    }
  }

  // ----- the pool -----

  /** `sent` holds every INSTANCE_CHANGE that a correct node has broadcast. */
  datatype Pool = Pool(nodes: map<Name, NodeState>, sent: set<(Name, nat)>)

  datatype Params = Params(names: set<Name>, faulty: set<Name>)
  {
    function F(): nat { MaxFailures(|names|) }

    predicate Correct(a: Name) { a in names && a !in faulty }

    ghost predicate Valid() { faulty <= names && |faulty| <= F() }
  }

  /** A vote is delivered to a correct node; a correct node judges the master; a correct node ends a view change. */
  datatype Event =
    | Deliver(to: Name, v: nat, frm: Name, degraded: bool, canSend: bool)
    | Judge(to: Name, canSend: bool, look: Look)
    | Complete(to: Name)

  /** Only faulty nodes can have votes delivered that they did not send. */
  ghost predicate CanHappen(par: Params, p: Pool, e: Event) {
    && par.Correct(e.to) && e.to in p.nodes
    && (e.Deliver? ==> e.frm in par.names && (par.Correct(e.frm) ==> (e.frm, e.v) in p.sent))
  }

  function NodeAfter(par: Params, n: NodeState, e: Event): (NodeState, bool) {
    match e
    case Deliver(to, v, frm, degraded, canSend) => Processed(n, par.F(), to, v, frm, degraded, canSend)
    case Judge(to, canSend, look) => Judged(n, par.F(), to, canSend, look)
    case Complete(to) => (Completed(n), false)
  }

  /** The view that a node which sends asks for. */
  function Asked(n: NodeState, e: Event): nat { if e.Deliver? then e.v else n.viewNo + 1 }

  function PoolAfter(par: Params, p: Pool, e: Event): Pool
    requires e.to in p.nodes
  {
    var n := p.nodes[e.to];
    var r := NodeAfter(par, n, e);
    Pool(p.nodes[e.to := r.0], if r.1 then p.sent + {(e.to, Asked(n, e))} else p.sent)
  }

  ghost predicate IsRun(par: Params, trace: seq<Pool>, events: seq<Event>) {
    && par.Valid()
    && |trace| == |events| + 1
    && (forall a :: a in trace[0].nodes ==> a in par.names && trace[0].nodes[a] == NodeState(0, map[]))
    && trace[0].sent == {}
    && forall i :: 0 <= i < |events| ==>
         CanHappen(par, trace[i], events[i]) && trace[i + 1] == PoolAfter(par, trace[i], events[i])
  }

  // ----- every vote was sent -----

  /** Whom a correct node counts for a view: pool members, the correct ones of which voted for that very view. */
  ghost predicate VotesOk(par: Params, p: Pool, a: Name, v: nat)
    requires a in p.nodes
  {
    forall s :: s in VotersFor(p.nodes[a], v) ==> s in par.names && (par.Correct(s) ==> (s, v) in p.sent)
  }

  ghost predicate PoolOk(par: Params, p: Pool) {
    forall a, v: nat :: a in p.nodes && par.Correct(a) ==> VotesOk(par, p, a, v)
  }

  lemma RecordedIs(n: NodeState, f: nat, v: nat, voter: Name)
    ensures forall w: nat ::
      VotersFor(Recorded(n, f, v, voter), w) == if w == v then VotersFor(n, v) + {voter} else VotersFor(n, w)
    ensures
      var n' := Recorded(n, f, v, voter);
      n'.viewNo == n.viewNo || (n'.viewNo == v > n.viewNo && |VotersFor(n', v)| >= 2 * f + 1)
  {}

  lemma ChangedIs(n: NodeState, f: nat, v: nat)
    ensures forall w: nat :: VotersFor(Changed(n, f, v), w) == VotersFor(n, w)
    ensures
      var n' := Changed(n, f, v);
      n'.viewNo == n.viewNo || (n'.viewNo == v > n.viewNo && |VotersFor(n', v)| >= 2 * f + 1)
  {}

  lemma ProcessedIs(n: NodeState, f: nat, self: Name, v: nat, frm: Name, degraded: bool, canSend: bool)
    ensures
      var r := Processed(n, f, self, v, frm, degraded, canSend);
      && (forall w: nat, s :: s in VotersFor(r.0, w) && s !in VotersFor(n, w) ==>
            w == v && (s == frm || (r.1 && s == self)))
      && (r.1 ==> v > n.viewNo && degraded)
      && (r.0.viewNo == n.viewNo || (r.0.viewNo == v > n.viewNo && |VotersFor(r.0, v)| >= 2 * f + 1))
  {
    hide Recorded, VotersFor;
    if v > n.viewNo {
      RecordedIs(n, f, v, frm);
      var n1 := if frm in VotersFor(n, v) then n else Recorded(n, f, v, frm);
      RecordedIs(n1, f, v, self);
      Subset(VotersFor(n1, v), VotersFor(Recorded(n1, f, v, self), v));
    }
  }

  /** From the judgement alone the view may grow by two: the vote completes one quorum, and another waits for the view
      after. `JudgementChangesIff` says that it does not. */
  lemma JudgedIs(n: NodeState, f: nat, self: Name, canSend: bool, look: Look)
    ensures
      var r, v := Judged(n, f, self, canSend, look), n.viewNo + 1;
      && (forall w: nat, s :: s in VotersFor(r.0, w) && s !in VotersFor(n, w) ==> w == v && r.1 && s == self)
      && n.viewNo <= r.0.viewNo <= n.viewNo + (if look.AtNext? then 2 else 1)
      && (r.0.viewNo == n.viewNo || |VotersFor(r.0, r.0.viewNo)| >= 2 * f + 1)
      && var seen := Sent(n, f, self, v, canSend).0.viewNo;
         && (look.AtAsked? && |VotersFor(r.0, v)| >= 2 * f + 1 ==> r.0.viewNo == v)
         && (look.AtNext? && |VotersFor(r.0, seen + 1)| >= 2 * f + 1 ==> r.0.viewNo == seen + 1)
  {
    hide Recorded, VotersFor;
    var v := n.viewNo + 1;
    RecordedIs(n, f, v, self);
    var s := Sent(n, f, self, v, canSend).0;
    ChangedIs(s, f, v);
    ChangedIs(s, f, s.viewNo + 1);
  }

  /** What a step adds to the votes of the node it happens at. */
  lemma NewVotes(par: Params, n: NodeState, e: Event, v: nat, s: Name)
    requires s in VotersFor(NodeAfter(par, n, e).0, v) && s !in VotersFor(n, v)
    ensures (e.Deliver? && s == e.frm && v == e.v) || (NodeAfter(par, n, e).1 && s == e.to && v == Asked(n, e))
  {
    hide Processed, Judged;
    StepIs(par, n, e);
  }

  lemma StepIs(par: Params, n: NodeState, e: Event)
    ensures
      var r, v := NodeAfter(par, n, e), Asked(n, e);
      && (forall w: nat, s :: s in VotersFor(r.0, w) && s !in VotersFor(n, w) ==>
            w == v && ((e.Deliver? && s == e.frm) || (r.1 && s == e.to)))
      && (r.1 ==> v > n.viewNo && (e.Judge? || (e.Deliver? && e.degraded)))
      && r.0.viewNo >= n.viewNo
      && (r.0.viewNo == n.viewNo || |VotersFor(r.0, r.0.viewNo)| >= 2 * par.F() + 1)
  {
    hide Processed, Judged;
    match e
    case Deliver(to, v, frm, degraded, canSend) => ProcessedIs(n, par.F(), to, v, frm, degraded, canSend);
    case Judge(to, canSend, look) => JudgedIs(n, par.F(), to, canSend, look);
    case Complete(to) =>
  }

  lemma StepKeepsVotes(par: Params, p: Pool, e: Event)
    requires PoolOk(par, p) && CanHappen(par, p, e)
    ensures PoolOk(par, PoolAfter(par, p, e))
  {
    hide NodeAfter;
    var p' := PoolAfter(par, p, e);
    forall a, v: nat | a in p'.nodes && par.Correct(a) ensures VotesOk(par, p', a, v) {
      assert VotesOk(par, p, a, v);
      forall s | s in VotersFor(p'.nodes[a], v) ensures s in par.names && (par.Correct(s) ==> (s, v) in p'.sent) {
        if s !in VotersFor(p.nodes[a], v) {
          NewVotes(par, p.nodes[a], e, v, s);
        }
      }
    }
  }

  lemma {:induction false} RunKeepsVotes(par: Params, trace: seq<Pool>, events: seq<Event>, k: nat)
    requires IsRun(par, trace, events) && k <= |events|
    ensures PoolOk(par, trace[k])
  {
    hide PoolAfter;
    if k > 0 {
      RunKeepsVotes(par, trace, events, k - 1);
      StepKeepsVotes(par, trace[k - 1], events[k - 1]);
    } else {
      NoVotes(par, trace[0]);
    }
  }

  lemma NoVotes(par: Params, p: Pool)
    requires forall a :: a in p.nodes ==> p.nodes[a] == NodeState(0, map[])
    ensures PoolOk(par, p)
  {}

  // ----- a view is adopted for a reason -----

  /** A step changes the view of a node only upwards, and only to a view with a quorum of votes for exactly it. */
  lemma AdoptedWithQuorum(par: Params, n: NodeState, e: Event)
    ensures
      var n' := NodeAfter(par, n, e).0;
      && n'.viewNo >= n.viewNo
      && (n'.viewNo != n.viewNo ==> |VotersFor(n', n'.viewNo)| >= 2 * par.F() + 1)
  {
    hide NodeAfter;
    StepIs(par, n, e);
  }

  /** View-change safety: in every run, at every step, the view number of a correct node stays or grows; when it
      grows, at least `2f + 1` distinct nodes voted for exactly the new view, and at least `f + 1` correct ones
      had broadcast their vote for it. */
  lemma ViewChangeSafety(par: Params, trace: seq<Pool>, events: seq<Event>, k: nat, a: Name)
    requires IsRun(par, trace, events) && k < |events|
    requires par.Correct(a) && a in trace[k].nodes
    ensures a in trace[k + 1].nodes
    ensures
      var before, after := trace[k].nodes[a].viewNo, trace[k + 1].nodes[a].viewNo;
      && before <= after
      && (before != after ==>
            var voters := VotersFor(trace[k + 1].nodes[a], after);
            && |voters| >= 2 * par.F() + 1 && voters <= par.names
            && |voters - par.faulty| >= par.F() + 1
            && forall s :: s in voters - par.faulty ==> (s, after) in trace[k + 1].sent)
  {
    hide NodeAfter;
    AdoptedWithQuorum(par, trace[k].nodes[a], events[k]);
    RunKeepsVotes(par, trace, events, k + 1);
    var v := trace[k + 1].nodes[a].viewNo;
    assert VotesOk(par, trace[k + 1], a, v);
    CorrectMembers(VotersFor(trace[k + 1].nodes[a], v), par.faulty);
  }

  /** A correct node votes only in a step of its own, and then for a view above its own. */
  lemma VotesAreItsOwn(par: Params, p: Pool, e: Event, s: Name, v: nat)
    requires CanHappen(par, p, e)
    requires (s, v) in PoolAfter(par, p, e).sent && (s, v) !in p.sent
    ensures s == e.to && p.nodes[s].viewNo < v && (e.Judge? || (e.Deliver? && e.degraded))
  {
    hide NodeAfter;
    StepIs(par, p.nodes[e.to], e);
  }

  // ----- a quorum changes the view -----

  /** A view with a quorum of votes is not above the node's own. */
  ghost predicate Settled(n: NodeState, f: nat) {
    forall v: nat :: |VotersFor(n, v)| >= 2 * f + 1 ==> v <= n.viewNo
  }

  /** One more vote: it is counted, and the view is the new one if that makes a quorum for a later view. */
  lemma RecordedExactly(n: NodeState, f: nat, v: nat, voter: Name)
    requires Settled(n, f)
    ensures
      var n' := Recorded(n, f, v, voter);
      && Settled(n', f)
      && VotersFor(n', v) == VotersFor(n, v) + {voter}
      && (forall w: nat :: w != v ==> VotersFor(n', w) == VotersFor(n, w))
      && n'.viewNo == (if v > n.viewNo && |VotersFor(n, v) + {voter}| >= 2 * f + 1 then v else n.viewNo)
  {
    var n' := Recorded(n, f, v, voter);
    forall w: nat | |VotersFor(n', w)| >= 2 * f + 1 ensures w <= n'.viewNo {
      assert w != v ==> VotersFor(n', w) == VotersFor(n, w);
    }
  }

  lemma NoQuorumAbove(n: NodeState, f: nat, v: nat)
    requires Settled(n, f) && v > n.viewNo
    ensures |VotersFor(n, v)| < 2 * f + 1
  {}

  /** A vote for a later view that comes in: the sender is counted, and the node itself exactly if it joins, which it
      does if it finds the master slow, may send, and has not voted yet. No other vote changes. The view is the new
      one exactly if these voters are at least 2f + 1, and stays otherwise. A vote for any other view changes nothing.
      */
  lemma DeliveryChangesIff(n: NodeState, f: nat, self: Name, v: nat, frm: Name, degraded: bool, canSend: bool)
    requires Settled(n, f)
    ensures
      var (n', joined) := Processed(n, f, self, v, frm, degraded, canSend);
      var voters := VotersFor(n, v) + {frm} + if joined then {self} else {};
      && Settled(n', f)
      && (v <= n.viewNo ==> n' == n && !joined)
      && (v > n.viewNo ==>
            && (joined <==> degraded && canSend && self !in VotersFor(n, v) + {frm})
            && VotersFor(n', v) == voters
            && (forall w: nat :: w != v ==> VotersFor(n', w) == VotersFor(n, w))
            && n'.viewNo == (if |voters| >= 2 * f + 1 then v else n.viewNo))
  {
    hide Settled, VotersFor, Recorded;
    if v > n.viewNo {
      NoQuorumAbove(n, f, v);
      RecordedExactly(n, f, v, frm);
      var n1 := if frm in VotersFor(n, v) then n else Recorded(n, f, v, frm);
      assert VotersFor(n1, v) == VotersFor(n, v) + {frm};
      RecordedExactly(n1, f, v, self);
      Subset(VotersFor(n1, v), VotersFor(n1, v) + {self});
      assert VotersFor(n1, v) + {} == VotersFor(n1, v);
    }
  }

  /** A node that judges the master slow: its vote for the next view is counted exactly if it may send. The view is
      the next one exactly if that makes 2f + 1 voters, however the node looks for a quorum afterwards. */
  lemma JudgementChangesIff(n: NodeState, f: nat, self: Name, canSend: bool, look: Look)
    requires Settled(n, f)
    ensures
      var (n', sent) := Judged(n, f, self, canSend, look);
      var v := n.viewNo + 1;
      var voters := VotersFor(n, v) + if canSend then {self} else {};
      && Settled(n', f) && sent == canSend
      && VotersFor(n', v) == voters
      && (forall w: nat :: w != v ==> VotersFor(n', w) == VotersFor(n, w))
      && n'.viewNo == (if |voters| >= 2 * f + 1 then v else n.viewNo)
  {
    hide Settled, VotersFor, Recorded;
    var v := n.viewNo + 1;
    NoQuorumAbove(n, f, v);
    RecordedExactly(n, f, v, self);
    var s := Sent(n, f, self, v, canSend).0;
    assert VotersFor(n, v) + {} == VotersFor(n, v);
    NoQuorumAbove(s, f, s.viewNo + 1);
  }

  lemma CompletedSettled(n: NodeState, f: nat)
    requires Settled(n, f)
    ensures Settled(Completed(n), f)
    ensures forall w: nat :: VotersFor(Completed(n), w) == if w + 1 == n.viewNo then {} else VotersFor(n, w)
  {
    var n' := Completed(n);
    forall w: nat | |VotersFor(n', w)| >= 2 * f + 1 ensures w <= n'.viewNo {
      assert VotersFor(n', w) == VotersFor(n, w);
    }
  }

  lemma StepSettled(par: Params, n: NodeState, e: Event)
    requires Settled(n, par.F())
    ensures Settled(NodeAfter(par, n, e).0, par.F())
  {
    hide Settled, Processed, Judged;
    match e
    case Deliver(to, v, frm, degraded, canSend) => DeliveryChangesIff(n, par.F(), to, v, frm, degraded, canSend);
    case Judge(to, canSend, look) => JudgementChangesIff(n, par.F(), to, canSend, look);
    case Complete(to) => CompletedSettled(n, par.F());
  }

  /** In every state of every run, a node that counts 2f + 1 votes for a view is in that view or a later one. */
  lemma {:induction false} QuorumChangesView(par: Params, trace: seq<Pool>, events: seq<Event>, k: nat, a: Name)
    requires IsRun(par, trace, events) && k <= |events| && a in trace[k].nodes
    ensures Settled(trace[k].nodes[a], par.F())
    decreases k
  {
    hide NodeAfter, Settled;
    if k == 0 {
      StartsSettled(par.F());
    } else {
      assert a in trace[k - 1].nodes;
      QuorumChangesView(par, trace, events, k - 1, a);
      StepSettled(par, trace[k - 1].nodes[a], events[k - 1]);
    }
  }

  lemma StartsSettled(f: nat)
    ensures Settled(NodeState(0, map[]), f)
  {}
}
