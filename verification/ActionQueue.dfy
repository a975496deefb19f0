/** Actions to be run now or after a delay, kept by every node and replica. */
module ActionQueues {
  import opened Messages

  datatype Act<A> = Act(action: A, aid: nat)

  datatype Timed<A> = Timed(deadline: real, act: Act<A>)

  /** `nextCheck` is None for infinity. */
  datatype Queue<A> = Queue(now: seq<Act<A>>, stash: seq<Timed<A>>, nextCheck: Option<real>, aid: nat)

  predicate Before(tm: real, bound: Option<real>) { bound == None || tm < bound.value }

  // ----- what the operations compute -----

  function Scheduled<A>(q: Queue<A>, tm: real, action: A, seconds: real): Queue<A> {
    var act := Act(action, q.aid + 1);
    if seconds > 0.0 then
      var next := tm + seconds;
      q.(aid := act.aid, nextCheck := if Before(next, q.nextCheck) then Some(next) else q.nextCheck,
         stash := q.stash + [Timed(next, act)])
    else q.(aid := act.aid, now := q.now + [act])
  }

  /** The actions whose deadline has passed, last first: each goes to the front of the queue. */
  function Due<A>(stash: seq<Timed<A>>, tm: real): seq<Act<A>>
    decreases |stash|
  {
    if |stash| == 0 then []
    else
      var last := stash[|stash| - 1];
      (if tm > last.deadline then [last.act] else []) + Due(stash[..|stash| - 1], tm)
  }

  function Kept<A>(stash: seq<Timed<A>>, tm: real): seq<Timed<A>>
    decreases |stash|
  {
    if |stash| == 0 then []
    else
      var last := stash[|stash| - 1];
      Kept(stash[..|stash| - 1], tm) + if tm > last.deadline then [] else [last]
  }

  /** The earliest deadline, those that are passed included. */
  function Earliest<A>(stash: seq<Timed<A>>): Option<real>
    decreases |stash|
  {
    if |stash| == 0 then None
    else
      var e := Earliest(stash[..|stash| - 1]);
      var last := stash[|stash| - 1];
      if Before(last.deadline, e) then Some(last.deadline) else e
  }

  function Scanned<A>(q: Queue<A>, tm: real): Queue<A> {
    q.(now := Due(q.stash, tm) + q.now, stash := Kept(q.stash, tm), nextCheck := Earliest(q.stash))
  }

  /** A call of `_schedule` at time `tm`. */
  datatype Order<A> = Order(tm: real, action: A, seconds: real)

  /** A run so far: the queue, what was scheduled with its time, and what was run. */
  datatype Run<A> = Run(queue: Queue<A>, scheduled: seq<Timed<A>>, ran: seq<Act<A>>)

  function Placed<A>(r: Run<A>, o: Order<A>): Run<A> {
    Run(Scheduled(r.queue, o.tm, o.action, o.seconds),
        r.scheduled + [Timed(if o.seconds > 0.0 then o.tm + o.seconds else o.tm, Act(o.action, r.queue.aid + 1))],
        r.ran)
  }

  function PlacedAll<A>(r: Run<A>, orders: seq<Order<A>>): Run<A>
    decreases |orders|
  {
    if |orders| == 0 then r else Placed(PlacedAll(r, orders[..|orders| - 1]), orders[|orders| - 1])
  }

  /** The start of a service call: due actions move to the queue. A scan that would find nothing is skipped, or, in the
      simple form, the whole stash is looked at in every call. */
  function Opened<A>(r: Run<A>, tm: real, always: bool): Run<A> {
    if always then
      r.(queue := r.queue.(now := Due(r.queue.stash, tm) + r.queue.now, stash := Kept(r.queue.stash, tm)))
    else if |r.queue.stash| > 0 && r.queue.nextCheck.Some? && tm > r.queue.nextCheck.value then
      r.(queue := Scanned(r.queue, tm))
    else r
  }

  function FirstRun<A>(r: Run<A>): Run<A>
    requires |r.queue.now| > 0
  {
    r.(queue := r.queue.(now := r.queue.now[1..]), ran := r.ran + [r.queue.now[0]])
  }

  /** The loop of a service call. The i-th action that runs makes the i-th calls of `_schedule`; an action beyond the
      list makes none. */
  function Drained<A>(r: Run<A>, orders: seq<seq<Order<A>>>): Run<A>
    decreases |orders|, |r.queue.now|
  {
    if |r.queue.now| == 0 then r
    else if |orders| == 0 then Drained(FirstRun(r), [])
    else Drained(PlacedAll(FirstRun(r), orders[0]), orders[1..])
  }

  function Serviced<A>(r: Run<A>, tm: real, orders: seq<seq<Order<A>>>, always: bool): Run<A> {
    Drained(Opened(r, tm, always), orders)
  }

  // ----- the object -----

  class HasActionQueue<A(==)> {
    var actionQueue: seq<Act<A>>
    var aqStash: seq<Timed<A>>
    var aqNextCheck: Option<real>
    var aid: nat

    function Value(): Queue<A>
      reads this
    {
      Queue(actionQueue, aqStash, aqNextCheck, aid)
    }

    constructor ()
      ensures Value() == Queue([], [], None, 0)
    {
      actionQueue, aqStash, aqNextCheck, aid := [], [], None, 0;
    }

    method Schedule(tm: real, action: A, seconds: real) returns (id: nat)
      modifies this
      ensures Value() == Scheduled(old(Value()), tm, action, seconds) && id == aid
    {
      aid := aid + 1;
      if seconds > 0.0 {
        var next := tm + seconds;
        if Before(next, aqNextCheck) {
          aqNextCheck := Some(next);
        }
        aqStash := aqStash + [Timed(next, Act(action, aid))];
      } else {
        actionQueue := actionQueue + [Act(action, aid)];
      }
      id := aid;
    }

    method Scan(tm: real)
      modifies this
      ensures Value() == Scanned(old(Value()), tm)
    {
      hide Due, Kept, Earliest, Removed, Partial;
      var earliest: Option<real> := None;
      var copy := aqStash;
      PartialStart(copy, tm, actionQueue);
      for i := 0 to |copy|
        invariant Partial(copy, i, tm, old(actionQueue), actionQueue, aqStash, earliest)
        invariant unchanged(`aid)
      {
        var d := copy[i];
        PartialStep(copy, i, tm, old(actionQueue), actionQueue, aqStash, earliest);
        if tm > d.deadline {
          actionQueue := [d.act] + actionQueue;
          aqStash := Removed(aqStash, d);
        }
        if Before(d.deadline, earliest) {
          earliest := Some(d.deadline);
        }
      }
      PartialEnd(copy, tm, old(actionQueue), actionQueue, aqStash, earliest);
      aqNextCheck := earliest;
    }

    /** Runs what is due and what the actions themselves schedule; `ran` lists the calls, and `orders` what they
        schedule in turn. The count that is returned is taken before the first action runs. */
    method ServiceActions(tm: real, orders: seq<seq<Order<A>>>) returns (count: nat, ran: seq<Act<A>>)
      modifies this
      ensures
        var before := Run(old(Value()), [], []);
        var after := Serviced(before, tm, orders, false);
        && Value() == after.queue && ran == after.ran
        && count == |Opened(before, tm, false).queue.now|
    {
      hide Due, Kept, Earliest, Scanned, PlacedAll;
      if |aqStash| > 0 && aqNextCheck.Some? && tm > aqNextCheck.value {
        Scan(tm);
      }
      count := |actionQueue|;
      ran := [];
      var left := orders;
      ghost var r := Run(Value(), [], []);
      while |actionQueue| > 0
        invariant r.queue == Value() && r.ran == ran
        invariant Drained(r, left) == Serviced(Run(old(Value()), [], []), tm, orders, false)
        decreases |left|, |actionQueue|
      {
        ran := ran + [actionQueue[0]];
        actionQueue := actionQueue[1..];
        r := FirstRun(r);
        if |left| > 0 {
          r := ScheduleAll(left[0], r);
          left := left[1..];
        }
      }
    }

    /** What one action schedules. */
    method ScheduleAll(orders: seq<Order<A>>, ghost r: Run<A>) returns (ghost r': Run<A>)
      requires r.queue == Value()
      modifies this
      ensures r' == PlacedAll(r, orders) && Value() == r'.queue && r'.ran == r.ran
    {
      r' := r;
      for i := 0 to |orders|
        invariant r' == PlacedAll(r, orders[..i]) && Value() == r'.queue && r'.ran == r.ran
      {
        assert orders[..i + 1][..i] == orders[..i];
        var _ := Schedule(orders[i].tm, orders[i].action, orders[i].seconds);
        r' := Placed(r', orders[i]);
      }
      assert orders[..|orders|] == orders;
    }
  }

  /** `deque.remove`: the first equal element goes. */
  function Removed<A(==)>(s: seq<Timed<A>>, d: Timed<A>): seq<Timed<A>>
    decreases |s|
  {
    if |s| == 0 then [] else if s[0] == d then s[1..] else [s[0]] + Removed(s[1..], d)
  }

  lemma {:induction false} RemovesFirst<A>(a: seq<Timed<A>>, d: Timed<A>, b: seq<Timed<A>>)
    requires d !in a
    ensures Removed(a + ([d] + b), d) == a + b
    decreases |a|
  {
    if |a| == 0 {
      assert a + ([d] + b) == [d] + b;
      assert a + b == b;
    } else {
      RemovesFirst(a[1..], d, b);
      assert (a + ([d] + b))[1..] == a[1..] + ([d] + b);
      assert a == [a[0]] + a[1..];
    }
  }

  /** The scan has seen the first `i` of the stash, which was `copy`; the queue was `rest`. */
  ghost predicate Partial<A>(copy: seq<Timed<A>>, i: nat, tm: real, rest: seq<Act<A>>, queue: seq<Act<A>>,
                             stash: seq<Timed<A>>, earliest: Option<real>)
    requires i <= |copy|
  {
    && stash == Kept(copy[..i], tm) + copy[i..]
    && queue == Due(copy[..i], tm) + rest
    && earliest == Earliest(copy[..i])
  }

  lemma PartialStart<A>(copy: seq<Timed<A>>, tm: real, rest: seq<Act<A>>)
    ensures Partial(copy, 0, tm, rest, rest, copy, None)
  {
    assert Due(copy[..0], tm) + rest == rest;
  }

  lemma PartialStep<A>(copy: seq<Timed<A>>, i: nat, tm: real, rest: seq<Act<A>>, queue: seq<Act<A>>,
                       stash: seq<Timed<A>>, earliest: Option<real>)
    requires i < |copy| && Partial(copy, i, tm, rest, queue, stash, earliest)
    ensures
      var d := copy[i];
      Partial(copy, i + 1, tm, rest, if tm > d.deadline then [d.act] + queue else queue,
              if tm > d.deadline then Removed(stash, d) else stash,
              if Before(d.deadline, earliest) then Some(d.deadline) else earliest)
  {
    hide Due, Kept, Earliest, Removed;
    OneMoreScanned(copy, i, tm, queue, rest);
  }

  lemma PartialEnd<A>(copy: seq<Timed<A>>, tm: real, rest: seq<Act<A>>, queue: seq<Act<A>>, stash: seq<Timed<A>>,
                      earliest: Option<real>)
    requires Partial(copy, |copy|, tm, rest, queue, stash, earliest)
    ensures stash == Kept(copy, tm) && queue == Due(copy, tm) + rest && earliest == Earliest(copy)
  {
    assert copy[..|copy|] == copy && copy[|copy|..] == [];
  }

  lemma OneMoreScanned<A>(copy: seq<Timed<A>>, i: nat, tm: real, queue: seq<Act<A>>, rest: seq<Act<A>>)
    requires i < |copy| && queue == Due(copy[..i], tm) + rest
    ensures
      var d, stash := copy[i], Kept(copy[..i], tm) + copy[i..];
      && Kept(copy[..i + 1], tm) + copy[i + 1..] == (if tm > d.deadline then Removed(stash, d) else stash)
      && Due(copy[..i + 1], tm) + rest == (if tm > d.deadline then [d.act] + queue else queue)
      && Earliest(copy[..i + 1])
         == (if Before(d.deadline, Earliest(copy[..i])) then Some(d.deadline) else Earliest(copy[..i]))
  {
    hide Due, Kept, Earliest, Removed;
    var d := copy[i];
    LastOf(copy, i, tm);
    if tm > d.deadline {
      RemovesDue(copy, i, tm);
    } else {
      Regrouped(Kept(copy[..i], tm), d, copy, i);
    }
  }

  lemma LastOf<A>(copy: seq<Timed<A>>, i: nat, tm: real)
    requires i < |copy|
    ensures
      var d := copy[i];
      && Kept(copy[..i + 1], tm) == Kept(copy[..i], tm) + (if tm > d.deadline then [] else [d])
      && Due(copy[..i + 1], tm) == (if tm > d.deadline then [d.act] else []) + Due(copy[..i], tm)
      && Earliest(copy[..i + 1])
         == (if Before(d.deadline, Earliest(copy[..i])) then Some(d.deadline) else Earliest(copy[..i]))
  {
    assert copy[..i + 1][..i] == copy[..i];
  }

  lemma Regrouped<A>(kept: seq<Timed<A>>, d: Timed<A>, copy: seq<Timed<A>>, i: nat)
    requires i < |copy| && copy[i] == d
    ensures kept + [d] + copy[i + 1..] == kept + copy[i..]
  {}

  lemma RemovesDue<A>(copy: seq<Timed<A>>, i: nat, tm: real)
    requires i < |copy| && tm > copy[i].deadline
    ensures Removed(Kept(copy[..i], tm) + copy[i..], copy[i]) == Kept(copy[..i], tm) + copy[i + 1..]
  {
    hide Kept, Removed;
    assert copy[i..] == [copy[i]] + copy[i + 1..];
    KeptIsLater(copy[..i], tm);
    RemovesFirst(Kept(copy[..i], tm), copy[i], copy[i + 1..]);
  }

  // ----- skipping the scan changes nothing -----

  predicate NotBefore<A>(check: Option<real>, d: Timed<A>) { check.Some? && check.value <= d.deadline }

  /** No action is stashed for a time before the next check. */
  ghost predicate LowerBound<A>(q: Queue<A>) {
    forall d :: d in q.stash ==> NotBefore(q.nextCheck, d)
  }

  /** What remains after a scan is not due. */
  lemma {:induction false} KeptIsLater<A>(stash: seq<Timed<A>>, tm: real)
    ensures forall d :: d in Kept(stash, tm) ==> d in stash && d.deadline >= tm
    ensures forall d :: d in stash && d.deadline >= tm ==> d in Kept(stash, tm)
    decreases |stash|
  {
    if |stash| > 0 {
      KeptIsLater(stash[..|stash| - 1], tm);
      assert stash == stash[..|stash| - 1] + [stash[|stash| - 1]];
    }
  }

  lemma {:induction false} EarliestIsBound<A>(stash: seq<Timed<A>>)
    ensures forall d :: d in stash ==> NotBefore(Earliest(stash), d)
    decreases |stash|
  {
    if |stash| > 0 {
      var n := |stash| - 1;
      EarliestIsBound(stash[..n]);
      assert stash == stash[..n] + [stash[n]];
    }
  }

  lemma {:induction false} NothingDue<A>(stash: seq<Timed<A>>, tm: real)
    requires forall d :: d in stash ==> tm <= d.deadline
    ensures Due(stash, tm) == [] && Kept(stash, tm) == stash
    decreases |stash|
  {
    if |stash| > 0 {
      NothingDue(stash[..|stash| - 1], tm);
      assert stash == stash[..|stash| - 1] + [stash[|stash| - 1]];
    }
  }

  datatype Event<A> = Schedule(order: Order<A>) | Service(tm: real, orders: seq<seq<Order<A>>>)

  function Next<A>(r: Run<A>, e: Event<A>, always: bool): Run<A> {
    match e
    case Schedule(order) => Placed(r, order)
    case Service(tm, orders) => Serviced(r, tm, orders, always)
  }

  function Runs<A>(events: seq<Event<A>>, always: bool): Run<A>
    decreases |events|
  {
    if |events| == 0 then Run(Queue([], [], None, 0), [], [])
    else Next(Runs(events[..|events| - 1], always), events[|events| - 1], always)
  }

  function Fast<A>(events: seq<Event<A>>): Run<A> { Runs(events, false) }

  function Simple<A>(events: seq<Event<A>>): Run<A> { Runs(events, true) }

  /** The same in everything but the time of the next check. */
  ghost predicate SameButCheck<A>(r: Run<A>, r': Run<A>) {
    && r.queue.now == r'.queue.now && r.queue.stash == r'.queue.stash && r.queue.aid == r'.queue.aid
    && r.scheduled == r'.scheduled && r.ran == r'.ran
  }

  ghost predicate Alike<A>(r: Run<A>, r': Run<A>) { LowerBound(r.queue) && SameButCheck(r, r') }

  lemma OpenedAlike<A>(r: Run<A>, r': Run<A>, tm: real)
    requires Alike(r, r')
    ensures Alike(Opened(r, tm, false), Opened(r', tm, true))
  {
    var q := r.queue;
    if |q.stash| > 0 && q.nextCheck.Some? && tm > q.nextCheck.value {
      EarliestIsBound(q.stash);
      KeptIsLater(q.stash, tm);
    } else {
      forall d | d in q.stash ensures tm <= d.deadline {
        assert NotBefore(q.nextCheck, d);
      }
      NothingDue(q.stash, tm);
      assert [] + q.now == q.now;
    }
  }

  lemma PlacedAlike<A>(r: Run<A>, r': Run<A>, o: Order<A>)
    requires Alike(r, r')
    ensures Alike(Placed(r, o), Placed(r', o))
  {
    hide LowerBound;
    ScheduleKeepsBound(r.queue, o.tm, o.action, o.seconds);
  }

  lemma {:induction false} PlacedAllAlike<A>(r: Run<A>, r': Run<A>, orders: seq<Order<A>>)
    requires Alike(r, r')
    ensures Alike(PlacedAll(r, orders), PlacedAll(r', orders))
    decreases |orders|
  {
    hide Alike, Placed;
    if |orders| > 0 {
      var n := |orders| - 1;
      PlacedAllAlike(r, r', orders[..n]);
      PlacedAlike(PlacedAll(r, orders[..n]), PlacedAll(r', orders[..n]), orders[n]);
    }
  }

  lemma FirstRunAlike<A>(r: Run<A>, r': Run<A>)
    requires Alike(r, r') && |r.queue.now| > 0
    ensures Alike(FirstRun(r), FirstRun(r'))
  {
    assert FirstRun(r).queue.stash == r.queue.stash;
  }

  lemma AlikeNow<A>(r: Run<A>, r': Run<A>)
    requires Alike(r, r')
    ensures r.queue.now == r'.queue.now
  {}

  lemma {:induction false} DrainedAlike<A>(r: Run<A>, r': Run<A>, orders: seq<seq<Order<A>>>)
    requires Alike(r, r')
    ensures Alike(Drained(r, orders), Drained(r', orders))
    decreases |orders|, |r.queue.now|
  {
    hide Alike, PlacedAll;
    AlikeNow(r, r');
    if |r.queue.now| > 0 {
      FirstRunAlike(r, r');
      if |orders| == 0 {
        DrainedAlike(FirstRun(r), FirstRun(r'), []);
      } else {
        PlacedAllAlike(FirstRun(r), FirstRun(r'), orders[0]);
        DrainedAlike(PlacedAll(FirstRun(r), orders[0]), PlacedAll(FirstRun(r'), orders[0]), orders[1..]);
      }
    }
  }

  lemma EmptyBound<A>()
    ensures var empty: Queue<A> := Queue([], [], None, 0); LowerBound(empty)
  {}

  lemma ScheduleKeepsBound<A>(q: Queue<A>, tm: real, action: A, seconds: real)
    requires LowerBound(q)
    ensures LowerBound(Scheduled(q, tm, action, seconds))
  {
    var q' := Scheduled(q, tm, action, seconds);
    forall d | d in q'.stash ensures NotBefore(q'.nextCheck, d) {
      if d in q.stash {
        assert NotBefore(q.nextCheck, d);
      }
    }
  }

  /** Deadline-queue refinement: over every run, whatever is scheduled, by whom and when, and whenever it is serviced,
      the queue that skips scans runs the same actions in the same order as the one that always scans. */
  lemma {:induction false} SkippingIsSafe<A>(events: seq<Event<A>>)
    ensures LowerBound(Fast(events).queue)
    ensures Fast(events).ran == Simple(events).ran && Fast(events).scheduled == Simple(events).scheduled
    ensures SameButCheck(Fast(events), Simple(events))
    decreases |events|
  {
    hide LowerBound, Opened, Drained, Placed;
    if |events| == 0 {
      EmptyBound<A>();
    } else {
      var before := events[..|events| - 1];
      SkippingIsSafe(before);
      assert Alike(Fast(before), Simple(before));
      match events[|events| - 1]
      case Schedule(order) => PlacedAlike(Fast(before), Simple(before), order);
      case Service(tm, orders) =>
        OpenedAlike(Fast(before), Simple(before), tm);
        DrainedAlike(Opened(Fast(before), tm, false), Opened(Simple(before), tm, true), orders);
        assert Alike(Fast(events), Simple(events));
    }
  }

  // ----- what a service call runs -----

  /** The actions among the orders that are to run at once, and those that are not; numbering starts after `aid`. */
  function Immediate<A>(aid: nat, orders: seq<Order<A>>): seq<Act<A>>
    decreases |orders|
  {
    if |orders| == 0 then [] else Immediate(aid, orders[..|orders| - 1]) + LastNow(aid, orders)
  }

  function LastNow<A>(aid: nat, orders: seq<Order<A>>): seq<Act<A>>
    requires |orders| > 0
  {
    var o := orders[|orders| - 1];
    if o.seconds > 0.0 then [] else [Act(o.action, aid + |orders|)]
  }

  function LastLater<A>(aid: nat, orders: seq<Order<A>>): seq<Timed<A>>
    requires |orders| > 0
  {
    var o := orders[|orders| - 1];
    if o.seconds > 0.0 then [Timed(o.tm + o.seconds, Act(o.action, aid + |orders|))] else []
  }

  function Delayed<A>(aid: nat, orders: seq<Order<A>>): seq<Timed<A>>
    decreases |orders|
  {
    if |orders| == 0 then [] else Delayed(aid, orders[..|orders| - 1]) + LastLater(aid, orders)
  }

  function Flat<A>(orders: seq<seq<Order<A>>>): seq<Order<A>>
    decreases |orders|
  {
    if |orders| == 0 then [] else orders[0] + Flat(orders[1..])
  }

  lemma {:induction false} PlacedAllIs<A>(r: Run<A>, orders: seq<Order<A>>)
    ensures
      var r' := PlacedAll(r, orders);
      && r'.ran == r.ran && r'.queue.aid == r.queue.aid + |orders|
      && r'.queue.now == r.queue.now + Immediate(r.queue.aid, orders)
      && r'.queue.stash == r.queue.stash + Delayed(r.queue.aid, orders)
    decreases |orders|
  {
    if |orders| > 0 {
      PlacedAllIs(r, orders[..|orders| - 1]);
    }
  }

  lemma {:induction false} Appended<A>(aid: nat, a: seq<Order<A>>, b: seq<Order<A>>)
    ensures Immediate(aid, a + b) == Immediate(aid, a) + Immediate(aid + |a|, b)
    ensures Delayed(aid, a + b) == Delayed(aid, a) + Delayed(aid + |a|, b)
    decreases |b|
  {
    hide LastNow, LastLater;
    if |b| == 0 {
      assert a + b == a;
    } else {
      var n := |b| - 1;
      Appended(aid, a, b[..n]);
      assert (a + b)[..|a + b| - 1] == a + b[..n];
      LastOfBoth(aid, a, b);
      Joined(Immediate(aid, a), Immediate(aid + |a|, b[..n]), LastNow(aid + |a|, b));
      Joined(Delayed(aid, a), Delayed(aid + |a|, b[..n]), LastLater(aid + |a|, b));
    }
  }

  lemma LastOfBoth<A>(aid: nat, a: seq<Order<A>>, b: seq<Order<A>>)
    requires |b| > 0
    ensures LastNow(aid, a + b) == LastNow(aid + |a|, b) && LastLater(aid, a + b) == LastLater(aid + |a|, b)
  {}

  /** The loop ends with an empty queue. It runs what was in it and then, in the order in which they were scheduled, the
      actions that were to run at once; the others wait. */
  lemma {:induction false} DrainedIs<A>(r: Run<A>, orders: seq<seq<Order<A>>>)
    ensures
      var r' := Drained(r, orders);
      && r'.queue.now == [] && |r'.ran| >= |r.ran|
      && var given := Flat(Take(orders, |r'.ran| - |r.ran|));
         && r'.ran == r.ran + r.queue.now + Immediate(r.queue.aid, given)
         && r'.queue.stash == r.queue.stash + Delayed(r.queue.aid, given)
    decreases |orders|, |r.queue.now|
  {
    hide PlacedAll, Immediate, Delayed, Flat;
    if |r.queue.now| == 0 {
      NoneGiven(r, orders);
    } else if |orders| == 0 {
      DrainedIs(FirstRun(r), []);
      NoneGiven(r, orders);
      Regroup(r.ran, r.queue.now, [], []);
    } else {
      var r1 := PlacedAll(FirstRun(r), orders[0]);
      var r' := Drained(r1, orders[1..]);
      PlacedAllIs(FirstRun(r), orders[0]);
      DrainedIs(r1, orders[1..]);
      var k := |r'.ran| - |r.ran|;
      MoreGiven(r.queue.aid, orders, k);
      var rest := Flat(Take(orders[1..], k - 1));
      Regroup(r.ran, r.queue.now, Immediate(r.queue.aid, orders[0]), Immediate(r1.queue.aid, rest));
      Joined(r.queue.stash, Delayed(r.queue.aid, orders[0]), Delayed(r1.queue.aid, rest));
    }
  }

  lemma Regroup<T>(ran: seq<T>, now: seq<T>, a: seq<T>, b: seq<T>)
    requires |now| > 0
    ensures ran + [now[0]] + (now[1..] + a) + b == ran + now + (a + b)
    ensures ran + [now[0]] + now[1..] == ran + now
  {
    assert now == [now[0]] + now[1..];
  }

  lemma Joined<T>(a: seq<T>, b: seq<T>, c: seq<T>)
    ensures a + b + c == a + (b + c)
  {}

  lemma NoneGiven<A>(r: Run<A>, orders: seq<seq<Order<A>>>)
    ensures Immediate(r.queue.aid, Flat(Take(orders, 0))) == [] && Delayed(r.queue.aid, Flat(Take(orders, 0))) == []
    ensures |orders| == 0 ==> forall k: nat :: Take(orders, k) == Take(orders, 0)
  {}

  lemma MoreGiven<A>(aid: nat, orders: seq<seq<Order<A>>>, k: nat)
    requires |orders| > 0 && k > 0
    ensures
      var given, rest := Flat(Take(orders, k)), Flat(Take(orders[1..], k - 1));
      && Immediate(aid, given) == Immediate(aid, orders[0]) + Immediate(aid + |orders[0]|, rest)
      && Delayed(aid, given) == Delayed(aid, orders[0]) + Delayed(aid + |orders[0]|, rest)
  {
    var some := Take(orders, k);
    assert some[0] == orders[0] && some[1..] == Take(orders[1..], k - 1);
    Appended(aid, orders[0], Flat(Take(orders[1..], k - 1)));
  }

  /** A service call runs the actions whose deadline has passed, the latest scheduled first, then those to be run at
      once, then those that actions of this very call schedule to be run at once, each in the order of scheduling. It
      leaves no other action behind than those whose time has not come. */
  lemma RunsWhatIsDue<A>(r: Run<A>, tm: real, orders: seq<seq<Order<A>>>)
    requires LowerBound(r.queue)
    ensures
      var r' := Serviced(r, tm, orders, false);
      && r'.queue.now == [] && |r'.ran| >= |r.ran|
      && var given := Flat(Take(orders, |r'.ran| - |r.ran|));
         && r'.ran == r.ran + (Due(r.queue.stash, tm) + r.queue.now) + Immediate(r.queue.aid, given)
         && r'.queue.stash == Kept(r.queue.stash, tm) + Delayed(r.queue.aid, given)
  {
    hide Drained, Due, Kept, Earliest, Immediate, Delayed, Flat;
    OpenedAlike(r, r, tm);
    DrainedIs(Opened(r, tm, false), orders);
  }

  /** The number that a service call returns is the number of actions it ran exactly when none of them scheduled an
      action to be run at once. */
  lemma CountIs<A>(r: Run<A>, tm: real, orders: seq<seq<Order<A>>>)
    ensures
      var ran := |Serviced(r, tm, orders, false).ran| - |r.ran|;
      ran >= 0 &&
      (|Opened(r, tm, false).queue.now| == ran <==> Immediate(r.queue.aid, Flat(Take(orders, ran))) == [])
  {
    hide Drained, Immediate, Flat;
    DrainedIs(Opened(r, tm, false), orders);
  }

  // ----- every action once, none early -----

  ghost predicate IsDue<A>(d: Timed<A>, act: Act<A>, tm: real) { d.act == act && d.deadline < tm }

  /** What is due comes in the reverse order of scheduling, what is kept in the order of scheduling, and each action
      is one or the other by its deadline. */
  lemma {:induction false} ScanSplits<A>(a: seq<Timed<A>>, b: seq<Timed<A>>, d: Timed<A>, tm: real)
    ensures Due(a + b, tm) == Due(b, tm) + Due(a, tm) && Kept(a + b, tm) == Kept(a, tm) + Kept(b, tm)
    ensures Due([d], tm) == (if tm > d.deadline then [d.act] else [])
    ensures Kept([d], tm) == (if tm > d.deadline then [] else [d])
    decreases |b|
  {
    assert [d][..0] == [];
    if |b| == 0 {
      assert a + b == a;
    } else {
      var n := |b| - 1;
      ScanSplits(a, b[..n], d, tm);
      assert (a + b)[..|a + b| - 1] == a + b[..n];
    }
  }

  /** An action is to run at once exactly if its delay is not positive, and otherwise when the delay is over; the
      numbers are given out in the order of scheduling. */
  lemma OneOrder<A>(aid: nat, o: Order<A>)
    ensures Immediate(aid, [o]) == (if o.seconds > 0.0 then [] else [Act(o.action, aid + 1)])
    ensures Delayed(aid, [o]) == (if o.seconds > 0.0 then [Timed(o.tm + o.seconds, Act(o.action, aid + 1))] else [])
  {
    assert [o][..0] == [];
  }

  /** What is due are exactly the actions whose deadline has passed. */
  lemma {:induction false} DueIs<A>(stash: seq<Timed<A>>, tm: real, act: Act<A>)
    ensures act in Due(stash, tm) <==> exists i :: 0 <= i < |stash| && IsDue(stash[i], act, tm)
    decreases |stash|
  {
    if |stash| > 0 {
      var n := |stash| - 1;
      DueIs(stash[..n], tm, act);
      if act in Due(stash[..n], tm) {
        var i :| 0 <= i < n && IsDue(stash[..n][i], act, tm);
        assert IsDue(stash[i], act, tm);
      }
      if i :| 0 <= i < n && IsDue(stash[i], act, tm) {
        assert IsDue(stash[..n][i], act, tm);
      }
    }
  }

  ghost function Bag<A>(stash: seq<Timed<A>>): multiset<Act<A>>
    decreases |stash|
  {
    if |stash| == 0 then multiset{} else Bag(stash[..|stash| - 1]) + multiset{stash[|stash| - 1].act}
  }

  lemma BagOfMore<A>(stash: seq<Timed<A>>, d: Timed<A>)
    ensures Bag(stash + [d]) == Bag(stash) + multiset{d.act}
  {
    assert (stash + [d])[..|stash|] == stash;
  }

  lemma ScanStep<A>(stash: seq<Timed<A>>, tm: real)
    requires |stash| > 0
    ensures
      var before, last := stash[..|stash| - 1], stash[|stash| - 1];
      && Bag(stash) == Bag(before) + multiset{last.act}
      && (tm > last.deadline ==>
            Kept(stash, tm) == Kept(before, tm) &&
            multiset(Due(stash, tm)) == multiset{last.act} + multiset(Due(before, tm)))
      && (tm <= last.deadline ==>
            Due(stash, tm) == Due(before, tm) && Bag(Kept(stash, tm)) == Bag(Kept(before, tm)) + multiset{last.act})
  {
    var before, last := stash[..|stash| - 1], stash[|stash| - 1];
    if tm > last.deadline {
      assert Due(stash, tm) == [last.act] + Due(before, tm);
    } else {
      BagOfMore(Kept(before, tm), last);
    }
  }

  lemma {:induction false} ScanConserves<A>(stash: seq<Timed<A>>, tm: real)
    ensures multiset(Due(stash, tm)) + Bag(Kept(stash, tm)) == Bag(stash)
    decreases |stash|, 1
  {
    if |stash| == 0 {
    } else {
      ScanStepConserves(stash, tm);
    }
  }

  lemma {:induction false} ScanStepConserves<A>(stash: seq<Timed<A>>, tm: real)
    requires |stash| > 0
    ensures multiset(Due(stash, tm)) + Bag(Kept(stash, tm)) == Bag(stash)
    decreases |stash|, 0
  {
    hide Due, Kept, Bag;
    ScanConserves(stash[..|stash| - 1], tm);
    ScanStep(stash, tm);
  }

  /** What was scheduled is what was run together with what still waits: nothing is lost, nothing runs twice. */
  ghost predicate Conserved<A>(r: Run<A>) {
    Bag(r.scheduled) == multiset(r.ran) + multiset(r.queue.now) + Bag(r.queue.stash)
  }

  /** Action identifiers are given out in order. */
  ghost predicate Numbered<A>(r: Run<A>) {
    && r.queue.aid == |r.scheduled|
    && forall i :: 0 <= i < |r.scheduled| ==> r.scheduled[i].act.aid == i + 1
  }

  ghost predicate Sound<A>(r: Run<A>) { Conserved(r) && Numbered(r) }

  lemma PlacedSound<A>(r: Run<A>, o: Order<A>)
    requires Sound(r)
    ensures Sound(Placed(r, o))
  {
    hide Bag;
    var d := Timed(if o.seconds > 0.0 then o.tm + o.seconds else o.tm, Act(o.action, r.queue.aid + 1));
    var x, ran, now, stash := multiset{d.act}, multiset(r.ran), multiset(r.queue.now), Bag(r.queue.stash);
    BagOfMore(r.scheduled, d);
    if o.seconds > 0.0 {
      BagOfMore(r.queue.stash, d);
      assert (ran + now + stash) + x == ran + now + (stash + x);
    } else {
      QueueOfMore(r.queue.now, d.act);
      assert (ran + now + stash) + x == ran + (now + x) + stash;
    }
  }

  lemma {:induction false} PlacedAllSound<A>(r: Run<A>, orders: seq<Order<A>>)
    requires Sound(r)
    ensures Sound(PlacedAll(r, orders))
    decreases |orders|
  {
    hide Sound, Placed;
    if |orders| > 0 {
      PlacedAllSound(r, orders[..|orders| - 1]);
      PlacedSound(PlacedAll(r, orders[..|orders| - 1]), orders[|orders| - 1]);
    }
  }

  lemma FirstRunSound<A>(r: Run<A>)
    requires Sound(r) && |r.queue.now| > 0
    ensures Sound(FirstRun(r))
  {
    hide Bag;
    var first, rest := r.queue.now[0], r.queue.now[1..];
    assert r.queue.now == [first] + rest;
    MultisetOfRan([first], rest);
    QueueOfMore(r.ran, first);
    assert multiset([first]) == multiset{first};
    assert multiset(r.ran) + (multiset{first} + multiset(rest)) == multiset(r.ran) + multiset{first} + multiset(rest);
  }

  lemma OpenedSound<A>(r: Run<A>, tm: real)
    requires Sound(r)
    ensures Sound(Opened(r, tm, false))
  {
    hide Due, Kept, Bag, Earliest;
    var due, kept := Due(r.queue.stash, tm), Bag(Kept(r.queue.stash, tm));
    var ran, now := multiset(r.ran), multiset(r.queue.now);
    ScanConserves(r.queue.stash, tm);
    MultisetOfRan(due, r.queue.now);
    assert ran + now + (multiset(due) + kept) == ran + (multiset(due) + now) + kept;
  }

  lemma {:induction false} DrainedSound<A>(r: Run<A>, orders: seq<seq<Order<A>>>)
    requires Sound(r)
    ensures Sound(Drained(r, orders))
    decreases |orders|, |r.queue.now|
  {
    hide Sound, PlacedAll;
    if |r.queue.now| > 0 {
      FirstRunSound(r);
      if |orders| == 0 {
        DrainedSound(FirstRun(r), []);
      } else {
        PlacedAllSound(FirstRun(r), orders[0]);
        DrainedSound(PlacedAll(FirstRun(r), orders[0]), orders[1..]);
      }
    }
  }

  lemma {:induction false} NothingLostOrRepeated<A>(events: seq<Event<A>>)
    ensures Conserved(Fast(events)) && Numbered(Fast(events))
    decreases |events|
  {
    hide Conserved, Numbered, Placed, Opened, Drained;
    if |events| == 0 {
      NothingYet<A>();
    } else {
      var before := events[..|events| - 1];
      NothingLostOrRepeated(before);
      match events[|events| - 1]
      case Schedule(order) => PlacedSound(Fast(before), order);
      case Service(tm, orders) =>
        OpenedSound(Fast(before), tm);
        DrainedSound(Opened(Fast(before), tm, false), orders);
    }
  }

  lemma QueueOfMore<A>(now: seq<Act<A>>, act: Act<A>)
    ensures multiset(now + [act]) == multiset(now) + multiset{act}
  {}

  lemma MultisetOfRan<A>(a: seq<Act<A>>, b: seq<Act<A>>)
    ensures multiset(a + b) == multiset(a) + multiset(b)
  {}

  lemma NothingYet<A>()
    ensures var r: Run<A> := Run(Queue([], [], None, 0), [], []); Conserved(r) && Numbered(r)
  {}

  /** Each scheduled action runs at most once. */
  lemma RunsAtMostOnce<A>(events: seq<Event<A>>, act: Act<A>)
    ensures multiset(Fast(events).ran)[act] <= 1
  {
    hide Fast, Bag;
    var r := Fast(events);
    NothingLostOrRepeated(events);
    DistinctOnce(r.scheduled, act);
  }

  lemma {:induction false} DistinctOnce<A>(s: seq<Timed<A>>, act: Act<A>)
    requires forall i :: 0 <= i < |s| ==> s[i].act.aid == i + 1
    ensures Bag(s)[act] <= (if 0 < act.aid <= |s| then 1 else 0)
    decreases |s|
  {
    if |s| > 0 {
      DistinctOnce(s[..|s| - 1], act);
    }
  }
}
