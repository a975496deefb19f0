/** When a client request is final: PROPAGATEs of the same request from enough nodes. */
module Propagation {
  import opened Messages
  import opened Quorums
  import opened Tallies

  datatype Request = Request(key: ReqKey, payload: Hash)

  datatype ReqState = ReqState(propagates: map<Name, Request>, finalised: Option<Request>, forwarded: bool)

  /** One node: its requests, and the keys put on the queue of each of its replicas so far. */
  datatype Node = Node(name: Name, f: nat, requests: map<ReqKey, ReqState>, queues: seq<seq<ReqKey>>)

  // ----- the most frequent item -----

  /** The outcome of `checkIfMoreThanFSameItems`: an item held by more than `maxF` nodes and by no fewer than any
      other, or none when no item is. */
  ghost predicate MoreThanFSame(propagates: map<Name, Request>, maxF: nat, out: Option<Request>) {
    match out
    case None => forall r :: |Voters(propagates, r)| <= maxF
    case Some(best) =>
      && |Voters(propagates, best)| > maxF
      && forall r :: |Voters(propagates, r)| <= |Voters(propagates, best)|
  }

  method CheckIfMoreThanFSameItems(propagates: map<Name, Request>, maxF: nat) returns (out: Option<Request>)
    ensures MoreThanFSame(propagates, maxF, out)
  {
    hide Voters;
    var best := MostFrequent(propagates);
    if best.Some? && best.value.1 > maxF {
      out := Some(best.value.0);
    } else {
      out := None;
    }
  }

  // ----- what the operations compute -----

  function Entry(n: Node, key: ReqKey): ReqState {
    if key in n.requests then n.requests[key] else ReqState(map[], None, false)
  }

  function WithPropagate(n: Node, r: Request, sender: Name): Node {
    var e := Entry(n, r.key);
    n.(requests := n.requests[r.key := e.(propagates := e.propagates[sender := r])])
  }

  /** The node counts itself, once for each key. */
  function WithOwn(n: Node, r: Request): Node {
    if n.name in Entry(n, r.key).propagates then n else WithPropagate(n, r, n.name)
  }

  function Queued(queues: seq<seq<ReqKey>>, key: ReqKey): seq<seq<ReqKey>> {
    seq(|queues|, i requires 0 <= i < |queues| => queues[i] + [key])
  }

  function Forwarded(n: Node, key: ReqKey, r: Request): Node {
    n.(requests := n.requests[key := Entry(n, key).(finalised := Some(r), forwarded := true)],
       queues := Queued(n.queues, key))
  }

  /** The request is forwarded if `out`, what the most frequent item turned out to be, is one. */
  ghost predicate ForwardsIf(n: Node, key: ReqKey, out: Option<Request>, n': Node)
    requires key in n.requests
  {
    && MoreThanFSame(n.requests[key].propagates, n.f + 1, out)
    && n' == if out == None then n else Forwarded(n, key, out.value)
  }

  ghost predicate TriesForwarding(n: Node, key: ReqKey, n': Node) {
    if key !in n.requests || n.requests[key].forwarded then n' == n
    else if n.requests[key].finalised.Some? then n' == Forwarded(n, key, n.requests[key].finalised.value)
    else exists out :: ForwardsIf(n, key, out, n')
  }

  /** A PROPAGATE comes in, a client's REQUEST comes in, or the last replica is done with a request. */
  datatype Event = Propagate(r: Request, frm: Name) | Client(r: Request) | Free(key: ReqKey)

  ghost predicate Step(n: Node, e: Event, n': Node) {
    match e
    case Propagate(r, frm) => TriesForwarding(WithOwn(WithPropagate(n, r, frm), r), r.key, n')
    case Client(r) => TriesForwarding(WithOwn(n, r), r.key, n')
    case Free(key) =>
      && key in n.requests && n.requests[key].forwarded
      && n' == n.(requests := n.requests - {key})
  }

  // ----- the object -----

  class Propagator {
    const name: Name
    const f: nat
    var requests: map<ReqKey, ReqState>
    var msgsToReplicas: seq<seq<ReqKey>>

    function Value(): Node
      reads this
    {
      Node(name, f, requests, msgsToReplicas)
    }

    constructor (name: Name, f: nat, replicas: nat)
      ensures Value() == Node(name, f, map[], seq(replicas, i => []))
    {
      this.name, this.f, requests := name, f, map[];
      msgsToReplicas := seq(replicas, i => []);
    }

    method AddPropagate(r: Request, sender: Name)
      modifies this`requests
      ensures Value() == WithPropagate(old(Value()), r, sender)
    {
      if r.key !in requests {
        requests := requests[r.key := ReqState(map[], None, false)];
      }
      var e := requests[r.key];
      requests := requests[r.key := e.(propagates := e.propagates[sender := r])];
    }

    method PropagateOwn(r: Request)
      modifies this`requests
      ensures Value() == WithOwn(old(Value()), r)
    {
      if !(r.key in requests && name in requests[r.key].propagates) {
        AddPropagate(r, name);
      }
    }

    method Forward(key: ReqKey)
      requires key in requests && requests[key].finalised.Some?
      modifies this
      ensures Value() == Forwarded(old(Value()), key, old(requests)[key].finalised.value)
    {
      var i := 0;
      var queues := msgsToReplicas;
      while i < |queues|
        invariant 0 <= i <= |queues| == |msgsToReplicas|
        invariant requests == old(requests)
        invariant forall k :: 0 <= k < i ==> msgsToReplicas[k] == old(msgsToReplicas)[k] + [key]
        invariant forall k :: i <= k < |queues| ==> msgsToReplicas[k] == old(msgsToReplicas)[k]
      {
        msgsToReplicas := msgsToReplicas[i := msgsToReplicas[i] + [key]];
        i := i + 1;
      }
      assert msgsToReplicas == Queued(old(msgsToReplicas), key);
      requests := requests[key := requests[key].(forwarded := true)];
    }

    method TryForwarding(key: ReqKey)
      requires key in requests
      modifies this
      ensures TriesForwarding(old(Value()), key, Value())
    {
      hide MoreThanFSame;
      if requests[key].forwarded {
        return;
      }
      if requests[key].finalised == None {
        var out := CheckIfMoreThanFSameItems(requests[key].propagates, f + 1);
        if out == None {
          assert ForwardsIf(old(Value()), key, out, Value());
          return;
        }
        requests := requests[key := requests[key].(finalised := out)];
        Forward(key);
        assert ForwardsIf(old(Value()), key, out, Value());
      } else {
        Forward(key);
      }
    }

    method ProcessPropagate(r: Request, frm: Name)
      modifies this
      ensures Step(old(Value()), Propagate(r, frm), Value())
    {
      AddPropagate(r, frm);
      PropagateOwn(r);
      TryForwarding(r.key);
    }

    method RecordAndPropagate(r: Request)
      modifies this
      ensures Step(old(Value()), Client(r), Value())
    {
      PropagateOwn(r);
      TryForwarding(r.key);
    }
  }

  // ----- every run -----

  /** How often a key was put on a queue, and how often its request was freed. */
  ghost predicate EntryOk(n: Node, freed: multiset<ReqKey>, key: ReqKey) {
    && (key in n.requests ==>
          && (n.requests[key].finalised.Some? <==> n.requests[key].forwarded)
          && (forall s :: s in n.requests[key].propagates ==> n.requests[key].propagates[s].key == key)
          && (n.requests[key].finalised.Some? ==> n.requests[key].finalised.value.key == key))
    && forall i :: 0 <= i < |n.queues| ==>
         multiset(n.queues[i])[key] == freed[key] + if key in n.requests && n.requests[key].forwarded then 1 else 0
  }

  ghost predicate NodeOk(n: Node, freed: multiset<ReqKey>) {
    forall key :: EntryOk(n, freed, key)
  }

  ghost function FreedBy(freed: multiset<ReqKey>, e: Event): multiset<ReqKey> {
    if e.Free? then freed + multiset{e.key} else freed
  }

  lemma AddingKeepsOk(n: Node, freed: multiset<ReqKey>, r: Request, sender: Name)
    requires NodeOk(n, freed)
    ensures NodeOk(WithPropagate(n, r, sender), freed)
  {
    forall key ensures EntryOk(WithPropagate(n, r, sender), freed, key) {
      assert EntryOk(n, freed, key);
    }
  }

  lemma ForwardKeepsOk(n: Node, freed: multiset<ReqKey>, key: ReqKey, r: Request)
    requires NodeOk(n, freed)
    requires key in n.requests && !n.requests[key].forwarded && r.key == key
    ensures NodeOk(Forwarded(n, key, r), freed)
  {
    forall k ensures EntryOk(Forwarded(n, key, r), freed, k) {
      assert EntryOk(n, freed, k);
      forall i | 0 <= i < |n.queues|
        ensures multiset(n.queues[i] + [key])[k] == multiset(n.queues[i])[k] + if k == key then 1 else 0
      {
      }
    }
  }

  lemma VoterHasKey(n: Node, freed: multiset<ReqKey>, key: ReqKey, r: Request)
    requires NodeOk(n, freed) && key in n.requests && |Voters(n.requests[key].propagates, r)| > 0
    ensures r.key == key
  {
    assert EntryOk(n, freed, key);
    var s :| s in Voters(n.requests[key].propagates, r);
  }

  lemma FreeKeepsOk(n: Node, freed: multiset<ReqKey>, key: ReqKey)
    requires NodeOk(n, freed) && key in n.requests && n.requests[key].forwarded
    ensures NodeOk(n.(requests := n.requests - {key}), freed + multiset{key})
  {
    forall k ensures EntryOk(n.(requests := n.requests - {key}), freed + multiset{key}, k) {
      assert EntryOk(n, freed, k);
    }
  }

  lemma TryKeepsOk(n: Node, freed: multiset<ReqKey>, key: ReqKey, n': Node)
    requires NodeOk(n, freed) && TriesForwarding(n, key, n')
    ensures NodeOk(n', freed)
  {
    hide NodeOk, Forwarded, Voters;
    if key in n.requests && !n.requests[key].forwarded {
      NotYetFinal(n, freed, key);
      var out :| ForwardsIf(n, key, out, n');
      if out.Some? {
        VoterHasKey(n, freed, key, out.value);
        ForwardKeepsOk(n, freed, key, out.value);
      }
    }
  }

  lemma NotYetFinal(n: Node, freed: multiset<ReqKey>, key: ReqKey)
    requires NodeOk(n, freed) && key in n.requests && !n.requests[key].forwarded
    ensures n.requests[key].finalised == None
  {
    assert EntryOk(n, freed, key);
  }

  /** Every step keeps the invariant: the key of a request is on each replica's queue exactly once for each time the
      request was finalised, and while the request is stored exactly once if it is finalised. */
  lemma StepKeepsOk(n: Node, freed: multiset<ReqKey>, e: Event, n': Node)
    requires NodeOk(n, freed) && Step(n, e, n')
    ensures NodeOk(n', FreedBy(freed, e))
  {
    hide NodeOk, TriesForwarding, WithPropagate;
    match e
    case Propagate(r, frm) =>
      AddingKeepsOk(n, freed, r, frm);
      var n1 := WithPropagate(n, r, frm);
      AddingKeepsOk(n1, freed, r, n1.name);
      TryKeepsOk(WithOwn(n1, r), freed, r.key, n');
    case Client(r) =>
      AddingKeepsOk(n, freed, r, n.name);
      TryKeepsOk(WithOwn(n, r), freed, r.key, n');
    case Free(key) =>
      FreeKeepsOk(n, freed, key);
  }

  /** A request becomes final in a step exactly when, its PROPAGATE counted, some request with its key was propagated
      by at least `f + 2` nodes; it is one that most of them propagated. */
  lemma FinalisedWhen(n: Node, freed: multiset<ReqKey>, e: Event, n': Node, key: ReqKey)
    requires NodeOk(n, freed) && Step(n, e, n') && Entry(n, key).finalised == None && !e.Free? && e.r.key == key
    ensures
      var votes := Entry(n', key).propagates;
      match Entry(n', key).finalised {
        case None => forall r :: |Voters(votes, r)| < n.f + 2
        case Some(final) =>
          |Voters(votes, final)| >= n.f + 2 && forall r :: |Voters(votes, r)| <= |Voters(votes, final)|
      }
  {
    hide Voters;
    assert EntryOk(n, freed, key);
  }

  /** A PROPAGATE is counted: its sender is a propagator of that request then and of no other with the key, whatever the
      sender propagated before; the node itself becomes one if it was none of any request with the key; all others stay
      what they were. */
  lemma PropagateCounted(n: Node, r: Request, frm: Name, n': Node, other: Request)
    requires Step(n, Propagate(r, frm), n') && other != r
    ensures
      var before, after := Entry(n, r.key).propagates, Entry(n', r.key).propagates;
      && after.Keys == before.Keys + {frm, n.name}
      && Voters(after, r) == Voters(before, r) + {frm} + (if n.name in before then {} else {n.name})
      && Voters(after, other) == Voters(before, other) - {frm}
  {
    hide MoreThanFSame;
    var n2 := WithOwn(WithPropagate(n, r, frm), r);
    TriesKeepsVotes(n2, r.key, n');
    assert Entry(n', r.key).propagates == Entry(n2, r.key).propagates;
  }

  /** A client's request makes the node itself a propagator, if it was none of any request with the key. */
  lemma ClientCounted(n: Node, r: Request, n': Node, other: Request)
    requires Step(n, Client(r), n') && other != r
    ensures
      var before, after := Entry(n, r.key).propagates, Entry(n', r.key).propagates;
      && after.Keys == before.Keys + {n.name}
      && Voters(after, r) == Voters(before, r) + (if n.name in before then {} else {n.name})
      && Voters(after, other) == Voters(before, other)
  {
    hide MoreThanFSame;
    var n2 := WithOwn(n, r);
    TriesKeepsVotes(n2, r.key, n');
    assert Entry(n', r.key).propagates == Entry(n2, r.key).propagates;
  }

  lemma TriesKeepsVotes(n: Node, key: ReqKey, n': Node)
    requires TriesForwarding(n, key, n')
    ensures Entry(n', key).propagates == Entry(n, key).propagates
  {
    hide MoreThanFSame;
  }

  /** Of the nodes that propagated a request when it became final at least two are not faulty. */
  lemma TwoCorrectPropagators(n: Node, freed: multiset<ReqKey>, e: Event, n': Node, key: ReqKey, faulty: set<Name>)
    requires NodeOk(n, freed) && Step(n, e, n') && Entry(n, key).finalised == None
    requires Entry(n', key).finalised.Some? && |faulty| <= n.f
    ensures |Voters(Entry(n', key).propagates, Entry(n', key).finalised.value) - faulty| >= 2
  {
    OnlyItsOwnKey(n, e, n', key);
    FinalisedWhen(n, freed, e, n', key);
    CorrectMembers(Voters(Entry(n', key).propagates, Entry(n', key).finalised.value), faulty);
  }

  lemma OnlyItsOwnKey(n: Node, e: Event, n': Node, key: ReqKey)
    requires Step(n, e, n')
    ensures !e.Free? && e.r.key != key ==> Entry(n', key) == Entry(n, key)
    ensures e.Free? && e.key != key ==> Entry(n', key) == Entry(n, key)
    ensures e.Free? && e.key == key ==> Entry(n', key).finalised == None
    ensures n'.f == n.f
  {
    hide Voters, MoreThanFSame;
  }

  /** Once set, the final request never changes while it is stored. */
  lemma FinalisedStays(n: Node, freed: multiset<ReqKey>, e: Event, n': Node, key: ReqKey)
    requires NodeOk(n, freed) && Step(n, e, n') && key in n.requests && n.requests[key].finalised.Some?
    ensures e == Free(key) || (key in n'.requests && n'.requests[key].finalised == n.requests[key].finalised)
  {
    hide MoreThanFSame;
    assert EntryOk(n, freed, key);
  }

  // ----- runs -----

  ghost predicate IsRun(trace: seq<Node>, events: seq<Event>) {
    && |trace| == |events| + 1
    && trace[0].requests == map[] && (forall i :: 0 <= i < |trace[0].queues| ==> trace[0].queues[i] == [])
    && forall i :: 0 <= i < |events| ==> Step(trace[i], events[i], trace[i + 1])
  }

  ghost function FreedUpTo(events: seq<Event>, k: nat): multiset<ReqKey>
    requires k <= |events|
  {
    if k == 0 then multiset{} else FreedBy(FreedUpTo(events, k - 1), events[k - 1])
  }

  lemma {:induction false} RunOk(trace: seq<Node>, events: seq<Event>, k: nat)
    requires IsRun(trace, events) && k <= |events|
    ensures NodeOk(trace[k], FreedUpTo(events, k))
  {
    hide Step;
    if k > 0 {
      RunOk(trace, events, k - 1);
      StepKeepsOk(trace[k - 1], FreedUpTo(events, k - 1), events[k - 1], trace[k]);
    }
  }

  lemma {:induction false} FinalisedAlong(trace: seq<Node>, events: seq<Event>, i: nat, k: nat, key: ReqKey)
    requires IsRun(trace, events) && i <= k <= |events|
    requires key in trace[i].requests && trace[i].requests[key].finalised.Some?
    requires forall j :: i <= j < k ==> events[j] != Free(key)
    ensures key in trace[k].requests && trace[k].requests[key].finalised == trace[i].requests[key].finalised
    ensures FreedUpTo(events, k)[key] == FreedUpTo(events, i)[key]
    decreases k - i
  {
    hide Step;
    if i < k {
      FinalisedAlong(trace, events, i, k - 1, key);
      RunOk(trace, events, k - 1);
      FinalisedStays(trace[k - 1], FreedUpTo(events, k - 1), events[k - 1], trace[k], key);
    }
  }

  /** Over every run: from the moment a request is final until it is freed, its final version is the same, and its key
      is on the queue of every replica once, besides once for each time it was final and freed before. */
  lemma FinalisedOnce(trace: seq<Node>, events: seq<Event>, i: nat, k: nat, key: ReqKey, q: nat)
    requires IsRun(trace, events) && i <= k <= |events|
    requires key in trace[i].requests && trace[i].requests[key].finalised.Some?
    requires forall j :: i <= j < k ==> events[j] != Free(key)
    requires q < |trace[k].queues|
    ensures key in trace[k].requests && trace[k].requests[key].finalised == trace[i].requests[key].finalised
    ensures multiset(trace[k].queues[q])[key] == FreedUpTo(events, i)[key] + 1
  {
    hide Step, FreedUpTo;
    FinalisedAlong(trace, events, i, k, key);
    RunOk(trace, events, k);
    assert EntryOk(trace[k], FreedUpTo(events, k), key);
  }
}
