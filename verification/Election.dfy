/** How a node settles on the primary of one protocol instance: PRIMARY declarations. */
module Elections {
  import opened Messages
  import opened Quorums
  import opened Tallies

  /** Whom a node declares primary, and the last batch that one has ordered. */
  datatype Declaration = Declaration(name: Name, ordSeqNo: nat)

  /** The elector of one node for one instance; `previousMaster` is the primary of the master instance in the view
      before, as long as no new one is found. */
  datatype Elector = Elector(viewNo: nat, declarations: map<Name, Declaration>, primary: Option<Declaration>,
                             previousMaster: Option<Name>)

  datatype Params = Params(self: Name, f: nat, isMaster: bool)

  /** A PRIMARY comes in; the node makes its own declaration; a re-election starts the declarations afresh; the view
      changes. */
  datatype Event =
    | Declare(d: Declaration, sender: Name)
    | Own(d: Declaration)
    | Reelection
    | NewView(v: nat, masterPrimary: Option<Name>)

  // ----- what the operations compute -----

  predicate Barred(par: Params, e: Elector, d: Declaration) {
    par.isMaster && e.previousMaster == Some(d.name)
  }

  /** The declaration is recorded. */
  predicate Counted(par: Params, e: Elector, d: Declaration, sender: Name) {
    !Barred(par, e, d) && sender !in e.declarations
  }

  function Recorded(e: Elector, d: Declaration, sender: Name): Elector {
    e.(declarations := e.declarations[sender := d])
  }

  /** The primary is chosen now. */
  predicate Decides(par: Params, e: Elector) {
    e.primary == None && |e.declarations| >= 2 * par.f + 1
  }

  function Chosen(par: Params, e: Elector, best: Declaration): Elector {
    e.(primary := Some(best), previousMaster := if par.isMaster then None else e.previousMaster)
  }

  /** `processPrimary`; which of several most frequent declarations is taken is left open. */
  ghost predicate ProcessesPrimary(par: Params, e: Elector, d: Declaration, sender: Name, e': Elector) {
    if !Counted(par, e, d, sender) then e' == e
    else
      var e1 := Recorded(e, d, sender);
      if Decides(par, e1) then exists best :: MostCommon(e1.declarations, best) && e' == Chosen(par, e1, best)
      else e' == e1
  }

  function ViewChanged(e: Elector, v: nat, masterPrimary: Option<Name>): Elector {
    if v > e.viewNo then Elector(v, map[], None, masterPrimary) else e
  }

  ghost predicate Step(par: Params, e: Elector, ev: Event, e': Elector) {
    match ev
    case Declare(d, sender) => ProcessesPrimary(par, e, d, sender, e')
    case Own(d) => e' == Recorded(e, d, par.self)
    case Reelection => e' == e.(declarations := map[])
    case NewView(v, masterPrimary) => e' == ViewChanged(e, v, masterPrimary)
  }

  // ----- the object -----

  class PrimaryElector {
    const par: Params
    var viewNo: nat
    var primaryDeclarations: map<Name, Declaration>
    var primary: Option<Declaration>
    var previousMasterPrimary: Option<Name>

    function Value(): Elector
      reads this
    {
      Elector(viewNo, primaryDeclarations, primary, previousMasterPrimary)
    }

    constructor (par: Params)
      ensures this.par == par && Value() == Elector(0, map[], None, None)
    {
      this.par := par;
      viewNo, primaryDeclarations, primary, previousMasterPrimary := 0, map[], None, None;
    }

    method MostCommonElement() returns (best: Declaration)
      requires |primaryDeclarations| > 0
      ensures MostCommon(primaryDeclarations, best)
    {
      var m := MostFrequent(primaryDeclarations);
      SomebodyVoted(primaryDeclarations);
      best := m.value.0;
    }

    method ProcessPrimary(d: Declaration, sender: Name)
      modifies this
      ensures ProcessesPrimary(par, old(Value()), d, sender, Value())
    {
      if par.isMaster && previousMasterPrimary == Some(d.name) {
        return;
      }
      if sender !in primaryDeclarations {
        primaryDeclarations := primaryDeclarations[sender := d];
        if primary.Some? {
          return;
        }
        if |primaryDeclarations| >= 2 * par.f + 1 {
          var best := MostCommonElement();
          primary := Some(best);
          if par.isMaster {
            previousMasterPrimary := None;
          }
        }
      }
    }

    method SendPrimary(d: Declaration)
      modifies this`primaryDeclarations
      ensures Step(par, old(Value()), Own(d), Value())
    {
      primaryDeclarations := primaryDeclarations[par.self := d];
    }

    method SetElectionDefaults()
      modifies this`primaryDeclarations
      ensures Step(par, old(Value()), Reelection, Value())
    {
      primaryDeclarations := map[];
    }

    method ViewChange(v: nat, masterPrimary: Option<Name>)
      modifies this
      ensures Step(par, old(Value()), NewView(v, masterPrimary), Value())
    {
      if v > viewNo {
        previousMasterPrimary, viewNo, primary, primaryDeclarations := masterPrimary, v, None, map[];
      }
    }
  }

  lemma SomebodyVoted(votes: map<Name, Declaration>)
    requires |votes| > 0
    ensures exists d :: Voters(votes, d) != {}
  {
    assert votes.Keys != {};
    var s :| s in votes.Keys;
    assert s in Voters(votes, votes[s]);
  }

  // ----- the choice -----

  /** All that nodes outside `faulty` have declared to this elector is `agreed`. */
  ghost predicate Agree(votes: map<Name, Declaration>, faulty: set<Name>, agreed: Declaration) {
    forall s :: s in votes && s !in faulty ==> votes[s] == agreed
  }

  /** In a quorum whose correct members agree, what they declared is the only most frequent declaration. */
  lemma MajorityIsCorrect(votes: map<Name, Declaration>, f: nat, faulty: set<Name>, agreed: Declaration,
                          best: Declaration)
    requires |votes| >= 2 * f + 1 && |faulty| <= f && Agree(votes, faulty, agreed) && MostCommon(votes, best)
    ensures best == agreed
  {
    assert |votes.Keys| == |votes|;
    CorrectMembers(votes.Keys, faulty);
    Subset(votes.Keys - faulty, Voters(votes, agreed));
    assert |Voters(votes, agreed)| <= |Voters(votes, best)|;
    if best != agreed {
      Subset(Voters(votes, best), faulty);
    }
  }

  /** The elector of a correct node in a view in which the correct nodes agree. */
  ghost predicate ElectorOk(e: Elector, faulty: set<Name>, agreed: Declaration) {
    && Agree(e.declarations, faulty, agreed)
    && (e.primary.Some? ==> e.primary.value == agreed)
  }

  lemma DeclareKeepsOk(par: Params, e: Elector, d: Declaration, sender: Name, e': Elector, faulty: set<Name>,
                       agreed: Declaration)
    requires |faulty| <= par.f && ElectorOk(e, faulty, agreed) && ProcessesPrimary(par, e, d, sender, e')
    requires sender !in faulty ==> d == agreed
    ensures ElectorOk(e', faulty, agreed) && e'.viewNo == e.viewNo
  {
    hide MostCommon;
    var e1 := Recorded(e, d, sender);
    if Counted(par, e, d, sender) && Decides(par, e1) {
      var best :| MostCommon(e1.declarations, best) && e' == Chosen(par, e1, best);
      MajorityIsCorrect(e1.declarations, par.f, faulty, agreed, best);
    }
  }

  /** Whoever declares to it, an elector has chosen after a declaration exactly when it had chosen before or the
      declaration is recorded and completes a quorum. */
  lemma ChoosesAtQuorum(par: Params, e: Elector, d: Declaration, sender: Name, e': Elector)
    requires ProcessesPrimary(par, e, d, sender, e')
    ensures e'.primary.Some? <==>
      e.primary.Some? || (Counted(par, e, d, sender) && |e.declarations| + 1 >= 2 * par.f + 1)
    ensures e'.previousMaster == if par.isMaster && e'.primary != e.primary then None else e.previousMaster
  {
    hide MostCommon;
    assert sender !in e.declarations ==> e.declarations[sender := d].Keys == e.declarations.Keys + {sender};
  }

  /** A declaration that comes in is recorded unless its sender has one recorded, or it names the node that was
      primary of the master instance in the view before; then nothing changes at all. */
  lemma RecordedUnlessBarred(par: Params, e: Elector, d: Declaration, sender: Name, e': Elector)
    requires ProcessesPrimary(par, e, d, sender, e')
    ensures
      if sender in e.declarations || (par.isMaster && e.previousMaster == Some(d.name)) then e' == e
      else e'.declarations == e.declarations[sender := d]
  {
    hide MostCommon;
  }

  /** The steps of the node itself: its own declaration takes the place of one it made before, and only an incoming one
      chooses; a re-election forgets all declarations and no choice; a later view forgets both. */
  lemma OwnSteps(par: Params, e: Elector, ev: Event, e': Elector)
    requires Step(par, e, ev, e') && !ev.Declare?
    ensures ev.Own? ==>
      && e'.primary == e.primary && par.self in e'.declarations && e'.declarations[par.self] == ev.d
      && e'.declarations - {par.self} == e.declarations - {par.self}
    ensures ev.Reelection? ==> e'.declarations == map[] && e'.primary == e.primary
    ensures ev.NewView? && ev.v > e.viewNo ==> e'.declarations == map[] && e'.primary == None
    ensures e'.viewNo == if ev.NewView? && ev.v > e.viewNo then ev.v else e.viewNo
  {}

  ghost predicate IsRun(par: Params, trace: seq<Elector>, events: seq<Event>) {
    && |trace| == |events| + 1
    && trace[0] == Elector(0, map[], None, None)
    && forall i :: 0 <= i < |events| ==> Step(par, trace[i], events[i], trace[i + 1])
  }

  /** In every view the correct nodes, this one included, declare the same: `agreed` of the view. */
  ghost predicate CorrectAgree(par: Params, trace: seq<Elector>, events: seq<Event>, faulty: set<Name>,
                               agreed: nat -> Declaration)
    requires |trace| == |events| + 1
  {
    forall i :: 0 <= i < |events| ==> SaysAgreed(par, trace[i], events[i], faulty, agreed)
  }

  ghost predicate SaysAgreed(par: Params, e: Elector, ev: Event, faulty: set<Name>, agreed: nat -> Declaration) {
    && (ev.Declare? && ev.sender !in faulty ==> ev.d == agreed(e.viewNo))
    && (ev.Own? ==> ev.d == agreed(e.viewNo))
  }

  /** Primary choice: with at most `f` faulty nodes, whatever they declare, however declarations interleave with
      re-elections and view changes, the primary that an elector holds is the one on which the correct nodes agree in
      its view. */
  lemma {:induction false} PrimaryChoice(par: Params, trace: seq<Elector>, events: seq<Event>, faulty: set<Name>,
                                         agreed: nat -> Declaration, k: nat)
    requires IsRun(par, trace, events) && |faulty| <= par.f && CorrectAgree(par, trace, events, faulty, agreed)
    requires k <= |events|
    ensures ElectorOk(trace[k], faulty, agreed(trace[k].viewNo))
  {
    hide ProcessesPrimary;
    if k > 0 {
      PrimaryChoice(par, trace, events, faulty, agreed, k - 1);
      var e := trace[k - 1];
      assert Step(par, e, events[k - 1], trace[k]);
      assert SaysAgreed(par, e, events[k - 1], faulty, agreed);
      match events[k - 1]
      case Declare(d, sender) => DeclareKeepsOk(par, e, d, sender, trace[k], faulty, agreed(e.viewNo));
      case Own(d) =>
      case Reelection =>
      case NewView(v, masterPrimary) =>
    }
  }

  /** Two electors with a primary in the same view hold the same one. */
  lemma ElectorsAgree(par1: Params, trace1: seq<Elector>, events1: seq<Event>, k1: nat,
                      par2: Params, trace2: seq<Elector>, events2: seq<Event>, k2: nat,
                      faulty: set<Name>, agreed: nat -> Declaration)
    requires IsRun(par1, trace1, events1) && k1 <= |events1| && |faulty| <= par1.f
    requires IsRun(par2, trace2, events2) && k2 <= |events2| && |faulty| <= par2.f
    requires CorrectAgree(par1, trace1, events1, faulty, agreed) && CorrectAgree(par2, trace2, events2, faulty, agreed)
    requires trace1[k1].viewNo == trace2[k2].viewNo && trace1[k1].primary.Some? && trace2[k2].primary.Some?
    ensures trace1[k1].primary == trace2[k2].primary
  {
    hide IsRun;
    PrimaryChoice(par1, trace1, events1, faulty, agreed, k1);
    PrimaryChoice(par2, trace2, events2, faulty, agreed, k2);
  }

  /** A choice is not changed until the view number grows. */
  lemma {:induction false} ChoiceStays(par: Params, trace: seq<Elector>, events: seq<Event>, i: nat, k: nat)
    requires IsRun(par, trace, events) && i <= k <= |events| && trace[i].primary.Some?
    ensures trace[i].viewNo <= trace[k].viewNo
    ensures trace[k].viewNo == trace[i].viewNo ==> trace[k].primary == trace[i].primary
    decreases k - i
  {
    hide MostCommon;
    if i < k {
      ChoiceStays(par, trace, events, i, k - 1);
      assert Step(par, trace[k - 1], events[k - 1], trace[k]);
    }
  }

  // ----- the last primary of the master is not chosen again -----

  /** The primary of the master instance that the last change of the view left behind. */
  ghost function LastMaster(trace: seq<Elector>, events: seq<Event>, k: nat): Option<Name>
    requires |trace| == |events| + 1 && k <= |events|
  {
    if k == 0 then None
    else if events[k - 1].NewView? && events[k - 1].v > trace[k - 1].viewNo then events[k - 1].masterPrimary
    else LastMaster(trace, events, k - 1)
  }

  /** Nobody has declared `barred` as long as none is chosen, and it is not the one chosen. */
  ghost predicate NotAgain(e: Elector, barred: Option<Name>) {
    && (e.primary == None ==> e.previousMaster == barred)
    && (e.primary == None ==> forall s :: s in e.declarations ==> Some(e.declarations[s].name) != barred)
    && (e.primary.Some? ==> Some(e.primary.value.name) != barred)
  }

  lemma DeclareNotAgain(par: Params, e: Elector, d: Declaration, sender: Name, e': Elector, barred: Option<Name>)
    requires par.isMaster && NotAgain(e, barred) && ProcessesPrimary(par, e, d, sender, e')
    ensures NotAgain(e', barred)
  {
    hide MostCommon;
    var e1 := Recorded(e, d, sender);
    if Counted(par, e, d, sender) && Decides(par, e1) {
      var best :| MostCommon(e1.declarations, best) && e' == Chosen(par, e1, best);
      MostCommonIsDeclared(e1.declarations, best, sender);
    }
  }

  lemma MostCommonIsDeclared(votes: map<Name, Declaration>, best: Declaration, sender: Name)
    requires MostCommon(votes, best) && sender in votes
    ensures exists s :: s in votes && votes[s] == best
  {
    assert sender in Voters(votes, votes[sender]);
    assert |Voters(votes, votes[sender])| > 0;
    assert |Voters(votes, best)| > 0;
    var s :| s in Voters(votes, best);
  }

  /** In every run of the master instance's elector, the primary it holds is not the one that the last change of the
      view left behind, whatever others declare, if the node itself does not declare that one. */
  lemma {:induction false} NotChosenAgain(par: Params, trace: seq<Elector>, events: seq<Event>, k: nat)
    requires IsRun(par, trace, events) && par.isMaster && k <= |events|
    requires forall i :: 0 <= i < k && events[i].Own? ==> Some(events[i].d.name) != LastMaster(trace, events, i)
    ensures NotAgain(trace[k], LastMaster(trace, events, k))
  {
    hide ProcessesPrimary;
    if k > 0 {
      NotChosenAgain(par, trace, events, k - 1);
      assert Step(par, trace[k - 1], events[k - 1], trace[k]);
      if events[k - 1].Declare? {
        DeclareNotAgain(par, trace[k - 1], events[k - 1].d, events[k - 1].sender, trace[k],
                        LastMaster(trace, events, k - 1));
      }
    }
  }
}
