/** A parallel group executed as a batch, and the same nodes executed one by one. */
module Groups {
  import opened Ids
  import opened Graphs
  import opened TaskPlans
  import opened PlanChecks
  import opened Batches
  import opened Workflows
  import opened Passes
  import opened PassSafety
  import opened Histories
  import opened Resumption

  // ----- When the two agree -----

  /** The nodes visited one after the other, up to the first visit that does not go on. */
  function OneByOne(v: View, u: Unit, fates: Fates): Move
    decreases |u|
  {
    if u == [] then Move(v, true)
    else
      var move := VisitNew(v, u[0], fates(u[0].id));
      if move.goes then OneByOne(move.view, u[1..], fates) else move
  }

  /** Each member that ended without success is marked to continue, and has failed or been cancelled. */
  predicate ExcusedAll(u: Unit, fates: Fates)
  {
    forall n :: n in u && FallsShort(n, fates(n.id)) ==> ContinuesPast(n, PositionAfter(n, fates(n.id).endings).status)
  }

  /** The first member that its condition does not skip raises before it has started a child, and nothing new is reported. */
  predicate RaisesAtOnce(outputs: set<string>, u: Unit, fates: Fates)
  {
    u != [] && var fate := fates(u[0].id);
      if Skipped(u[0], fate) then u[0].id in outputs && RaisesAtOnce(outputs, u[1..], fates)
      else fate.endings == [] && (fate.reports ==> u[0].id in outputs)
  }

  lemma NewGoes(v: View, node: WorkflowNode, fate: Fate)
    ensures VisitNew(v, node, fate).goes
      <==> !Raises(node, fate) && (FallsShort(node, fate) ==> ContinuesPast(node, PositionAfter(node, fate.endings).status))
    ensures v.outputs <= VisitNew(v, node, fate).view.outputs && v.recorded.Keys <= VisitNew(v, node, fate).view.recorded.Keys
    ensures !Skipped(node, fate) && fate.endings != [] ==> node.id in VisitNew(v, node, fate).view.recorded
    ensures VisitNew(v, node, fate).goes || FallsShort(node, fate) ==> Skipped(node, fate) || fate.endings != []
  {
  }

  lemma {:induction false} OneByOneGrows(v: View, u: Unit, fates: Fates)
    ensures v.outputs <= OneByOne(v, u, fates).view.outputs && v.recorded.Keys <= OneByOne(v, u, fates).view.recorded.Keys
    decreases |u|
  {
    hide VisitNew, Skipped, PositionAfter;
    if u != [] {
      NewGoes(v, u[0], fates(u[0].id));
      OneByOneGrows(VisitNew(v, u[0], fates(u[0].id)).view, u[1..], fates);
    }
  }

  /** What a batch makes of a task when all of its members go on. */
  function AllDone(v: View, u: Unit, fates: Fates): View
  {
    v.(recorded := RecordAll(v.recorded, u, fates), outputs := v.outputs + IdSet(u), continued := v.continued + ContinuedIn(u, fates))
  }

  lemma NewIs(v: View, node: WorkflowNode, fate: Fate)
    requires VisitNew(v, node, fate).goes
    ensures VisitNew(v, node, fate).view ==
      v.(recorded := Recorded(v.recorded, node, fate), outputs := v.outputs + {node.id},
         continued := v.continued + if FallsShort(node, fate) then {node.id} else {})
  {
    assert v.continued + {} == v.continued;
    if Skipped(node, fate) {
      assert Recorded(v.recorded, node, fate) == v.recorded;
    }
  }

  lemma FirstContinued(u: Unit, fates: Fates)
    requires u != [] && (FallsShort(u[0], fates(u[0].id)) ==> u[0].continueOnFailure)
    ensures ContinuedIn(u, fates) == ContinuedIn(u[1..], fates) + if FallsShort(u[0], fates(u[0].id)) then {u[0].id} else {}
    ensures IdSet(u) == {u[0].id} + IdSet(u[1..])
  {
    hide FallsShort;
    assert u == [u[0]] + u[1..];
    AppendedIds([u[0]], u[1..]);
    SingleId(u[0]);
  }

  lemma NothingDone(v: View, fates: Fates)
    ensures AllDone(v, [], fates) == v
  {
    assert IdSet([]) == {} && ContinuedIn([], fates) == {};
    assert v.outputs + {} == v.outputs && v.continued + {} == v.continued;
  }

  lemma OneDone(v: View, u: Unit, fates: Fates)
    requires u != [] && VisitNew(v, u[0], fates(u[0].id)).goes
    requires FallsShort(u[0], fates(u[0].id)) ==> u[0].continueOnFailure
    ensures AllDone(VisitNew(v, u[0], fates(u[0].id)).view, u[1..], fates) == AllDone(v, u, fates)
  {
    hide VisitNew, FallsShort, ContinuedIn, IdSet, Recorded;
    NewIs(v, u[0], fates(u[0].id));
    FirstContinued(u, fates);
    var one := if FallsShort(u[0], fates(u[0].id)) then {u[0].id} else {};
    assert (v.outputs + {u[0].id}) + IdSet(u[1..]) == v.outputs + IdSet(u);
    assert (v.continued + one) + ContinuedIn(u[1..], fates) == v.continued + ContinuedIn(u, fates);
  }

  lemma {:induction false} OneByOneGoes(v: View, u: Unit, fates: Fates)
    requires !SomeRaises(u, fates) && ExcusedAll(u, fates)
    ensures OneByOne(v, u, fates) == Move(AllDone(v, u, fates), true)
    decreases |u|
  {
    hide VisitNew, FallsShort, Raises, PositionAfter, AllDone;
    if u == [] {
      NothingDone(v, fates);
    } else {
      assert u[0] in u;
      NewGoes(v, u[0], fates(u[0].id));
      OneDone(v, u, fates);
      OneByOneGoes(VisitNew(v, u[0], fates(u[0].id)).view, u[1..], fates);
    }
  }

  lemma BatchGoesOn(v: View, u: Unit, fates: Fates)
    requires !SomeRaises(u, fates) && forall n :: n in u ==> FallsShort(n, fates(n.id)) ==> n.continueOnFailure
    ensures VisitBatch(v, u, fates) == Move(AllDone(v, u, fates), true)
  {
    hide FallsShort, RecordAll, ContinuedIn, IdSet;
    MarkedGoOn(u, fates);
  }

  /** One by one, the first member that stops the task has left a record. */
  lemma {:induction false} OneByOneStops(v: View, u: Unit, fates: Fates)
    requires !SomeRaises(u, fates) && !ExcusedAll(u, fates)
    ensures !OneByOne(v, u, fates).goes && exists n :: n in u && n.id in OneByOne(v, u, fates).view.recorded
    decreases |u|
  {
    hide VisitNew, FallsShort, Raises, PositionAfter, ContinuesPast, Skipped;
    NewGoes(v, u[0], fates(u[0].id));
    FallsAreStarted(u[0], fates(u[0].id));
    assert u[0] in u;
    if VisitNew(v, u[0], fates(u[0].id)).goes {
      var w := VisitNew(v, u[0], fates(u[0].id)).view;
      OneByOneStops(w, u[1..], fates);
      var n :| n in u[1..] && n.id in OneByOne(w, u[1..], fates).view.recorded;
      assert n in u;
    }
  }

  lemma FallsAreStarted(node: WorkflowNode, fate: Fate)
    ensures FallsShort(node, fate) ==> !Skipped(node, fate) && fate.endings != []
    ensures fate.endings == [] && !Skipped(node, fate) ==> Raises(node, fate)
    ensures Raises(node, fate) ==> !Skipped(node, fate)
  {
  }

  lemma RaisedOutcome(v: View, node: WorkflowNode, fate: Fate)
    requires Raises(node, fate) && node.id !in v.recorded
    ensures !VisitNew(v, node, fate).goes
    ensures VisitNew(v, node, fate).view == Raised(v) <==> fate.endings == [] && (fate.reports ==> node.id in v.outputs)
  {
    var w := VisitNew(v, node, fate).view;
    assert w.outputs == Reported(v.outputs, node.id, fate.reports);
    if fate.endings != [] {
      assert node.id in w.recorded && node.id !in Raised(v).recorded;
    } else {
      assert w.recorded == AllCancelled(v.recorded);
      if fate.reports && node.id in v.outputs {
        assert v.outputs + {node.id} == v.outputs;
      }
    }
  }

  lemma SkippedMove(v: View, node: WorkflowNode, fate: Fate)
    requires Skipped(node, fate)
    ensures VisitNew(v, node, fate) == Move(v.(outputs := v.outputs + {node.id}), true)
  {
  }

  /** If some member raises, the task fails in the same way exactly if nothing has happened before that. */
  lemma {:induction false} OneByOneRaises(v: View, u: Unit, fates: Fates)
    requires SomeRaises(u, fates) && Intact(u, v.recorded.Keys)
    ensures OneByOne(v, u, fates) == Move(Raised(v), false) <==> RaisesAtOnce(v.outputs, u, fates)
    decreases |u|
  {
    hide VisitNew, PositionAfter, ContinuesPast, Skipped, Raises, FallsShort;
    var node, fate := u[0], fates(u[0].id);
    NewGoes(v, node, fate);
    FallsAreStarted(node, fate);
    assert node in u;
    assert Raised(v).recorded.Keys == v.recorded.Keys;
    if Skipped(node, fate) {
      SkippedMove(v, node, fate);
      var w := v.(outputs := v.outputs + {node.id});
      assert SomeRaises(u[1..], fates);
      OneByOneRaises(w, u[1..], fates);
      OneByOneGrows(w, u[1..], fates);
      if node.id in v.outputs {
        assert w == v;
      }
    } else if Raises(node, fate) {
      RaisedOutcome(v, node, fate);
    } else if VisitNew(v, node, fate).goes {
      OneByOneGrows(VisitNew(v, node, fate).view, u[1..], fates);
    }
  }

  /** Executing untouched nodes as a batch does to the task what executing them one by one does, in every detail, if and
      only if each member that ends without success has failed or been cancelled and is marked to continue; where some
      member raises, if and only if it does so before anything else has happened. */
  lemma BatchIsOneByOne(v: View, u: Unit, fates: Fates)
    requires Intact(u, v.recorded.Keys)
    ensures VisitBatch(v, u, fates) == OneByOne(v, u, fates)
      <==> if SomeRaises(u, fates) then RaisesAtOnce(v.outputs, u, fates) else ExcusedAll(u, fates)
  {
    hide OneByOne, Raised, RaisesAtOnce, RecordAll, ContinuedIn, ReportedIn, FallsShort, PositionAfter;
    if SomeRaises(u, fates) {
      OneByOneRaises(v, u, fates);
    } else if ExcusedAll(u, fates) {
      OneByOneGoes(v, u, fates);
      BatchGoesOn(v, u, fates);
    } else {
      OneByOneStops(v, u, fates);
      hide FirstFailure, ExcusedAll;
    }
  }

  // ----- A child that waits -----

  /** A member marked to continue whose child waits for a decision: a batch goes on past it, one by one the task stops. */
  lemma WaitingMember(v: View, u: Unit, fates: Fates, a: WorkflowNode)
    requires Intact(u, v.recorded.Keys) && UniqueIds(u) && !SomeRaises(u, fates)
    requires forall n :: n in u ==> Likely(n, fates(n.id)) && (FallsShort(n, fates(n.id)) ==> n.continueOnFailure)
    requires a in u && FallsShort(a, fates(a.id)) && PositionAfter(a, fates(a.id).endings).status == WaitingDecision
    ensures !OneByOne(v, u, fates).goes
    ensures var move := VisitBatch(v, u, fates);
      move.goes && a.id in move.view.continued && a.id in move.view.recorded && move.view.recorded[a.id] == WaitingDecision
  {
    assert !ExcusedAll(u, fates);
    LastOf(v, u, fates, a);
    hide *;
    OneByOneStops(v, u, fates);
    BatchGoesOn(v, u, fates);
  }

  lemma LastOf(v: View, u: Unit, fates: Fates, a: WorkflowNode)
    requires UniqueIds(u) && a in u && a.continueOnFailure && Likely(a, fates(a.id))
    requires FallsShort(a, fates(a.id)) && PositionAfter(a, fates(a.id).endings).status == WaitingDecision
    ensures var w := AllDone(v, u, fates); a.id in w.continued && a.id in w.recorded && w.recorded[a.id] == WaitingDecision
  {
    hide RecordAll, Proper, PositionAfter, UniqueIds;
    LastEnding(a, fates(a.id).endings);
    RecordAllAt(v.recorded, u, fates, a.id);
  }

  lemma {:induction false} MarkedGoOn(u: Unit, fates: Fates)
    requires forall n :: n in u ==> FallsShort(n, fates(n.id)) ==> n.continueOnFailure
    ensures FirstFailure(u, fates) == None
  {
    hide FallsShort;
    if u != [] {
      MarkedGoOn(u[1..], fates);
    }
  }

  // ----- A first pass that succeeds beside a live child -----

  /** A pass of a new task that makes it succeed although a recorded child is live. */
  ghost predicate SucceedsBesideLive(order: seq<WorkflowNode>, heads: map<string, Unit>, states: seq<PassState>)
  {
    IsPass(order, heads, FRESH, states) && Outcome(states).status == TaskSucceeded && !NoneLive(Outcome(states))
  }

  ghost predicate NoneMarked(heads: map<string, Unit>)
  {
    forall h, m :: h in heads && m in heads[h] ==> !m.continueOnFailure
  }

  lemma NewEnds(v: View, node: WorkflowNode, fate: Fate)
    requires NoneLive(v) && Likely(node, fate) && VisitNew(v, node, fate).goes
    ensures NoneLive(VisitNew(v, node, fate).view)
  {
    if !Skipped(node, fate) {
      LastEnding(node, fate.endings);
      hide PositionAfter, Proper;
    }
  }

  lemma BatchEnds(v: View, u: Unit, fates: Fates)
    requires NoneLive(v) && UniqueIds(u) && VisitBatch(v, u, fates).goes
    requires forall n :: n in u ==> Likely(n, fates(n.id)) && !n.continueOnFailure
    ensures NoneLive(VisitBatch(v, u, fates).view)
  {
    hide PositionAfter, Proper, RecordAll, FirstFailure;
    var recorded := RecordAll(v.recorded, u, fates);
    forall x | x in recorded ensures Terminal(recorded[x]) {
      RecordAllAt(v.recorded, u, fates, x);
      if n: WorkflowNode :| n in u && n.id == x {
        MemberEnds(u, fates, n);
      }
    }
  }

  /** An unmarked member of a batch that goes on has succeeded, unless it was skipped. */
  lemma MemberEnds(u: Unit, fates: Fates, n: WorkflowNode)
    requires n in u && !n.continueOnFailure && Likely(n, fates(n.id)) && !SomeRaises(u, fates) && FirstFailure(u, fates) == None
    ensures Skipped(n, fates(n.id)) || (fates(n.id).endings != [] && fates(n.id).endings[|fates(n.id).endings| - 1] == Succeeded)
  {
    if !Skipped(n, fates(n.id)) {
      if FallsShort(n, fates(n.id)) {
        NoFailure(u, fates, n);
      }
      assert !Raises(n, fates(n.id));
      LastEnding(n, fates(n.id).endings);
    }
  }

  /** In a first pass over a plan without marked members, nothing recorded is live while the pass goes on. */
  lemma {:induction false} UnmarkedStaysEnded(order: seq<WorkflowNode>, heads: map<string, Unit>, states: seq<PassState>, k: nat)
    requires HeadsFit(order, heads) && HeadsApart(order, heads) && IsPass(order, heads, FRESH, states) && NoneMarked(heads)
    requires k < |states| && states[k].running
    ensures NoneLive(states[k].view)
  {
    if k > 0 {
      assert MovesAt(order, heads, states, k - 1);
      assert order[k - 1] in order;
      hide HeadsFit, HeadsApart, IsPass, VisitAt, NoneLive, AllLikely;
      UnmarkedStaysEnded(order, heads, states, k - 1);
      PassFollows(order, heads, FRESH, states, k - 1);
      FreshFacts();
      var fates: Fates :| AllLikely(order, fates) && states[k] == VisitAt(states[k - 1], order[k - 1], heads, fates);
      UnmarkedVisit(order, heads, states[k - 1], k - 1, fates);
    }
  }

  lemma UnmarkedVisit(order: seq<WorkflowNode>, heads: map<string, Unit>, s: PassState, k: nat, fates: Fates)
    requires HeadsFit(order, heads) && NoneMarked(heads) && k < |order| && AllLikely(order, fates)
    requires Ahead(order, heads, k, {}, s) && NoneLive(s.view) && VisitAt(s, order[k], heads, fates).running
    ensures NoneLive(VisitAt(s, order[k], heads, fates).view)
  {
    var node := order[k];
    FitIsUnique(order, heads);
    if node.id !in s.skip {
      NotVisited(order, heads, s, k);
    }
    if node.id in heads {
      FitSays(order, heads, node.id);
      forall m | m in heads[node.id] ensures m in order {
        UnitWithin(order, heads, node, m);
      }
    }
    hide HeadsFit, Ahead, NoneLive, VisitBatch, VisitNew, VisitRecorded, UniqueIds, Likely, HeadsWithin, Intact;
    if node.id !in s.skip {
      if node.id in heads && Intact(heads[node.id], s.view.recorded.Keys) {
        BatchEnds(s.view, heads[node.id], fates);
      } else {
        NewEnds(s.view, node, fates(node.id));
      }
    }
  }

  /** What this pass has not skipped it has not recorded either, before its position. */
  lemma NotVisited(order: seq<WorkflowNode>, heads: map<string, Unit>, s: PassState, k: nat)
    requires UniqueIds(order) && k < |order| && Ahead(order, heads, k, {}, s) && order[k].id !in s.skip
    ensures order[k].id !in s.view.recorded
  {
    assert order[k].id !in IdSet(order[..k]);
  }

  lemma UnmarkedIsIdle(order: seq<WorkflowNode>, heads: map<string, Unit>, states: seq<PassState>)
    requires HeadsFit(order, heads) && HeadsApart(order, heads) && NoneMarked(heads)
    ensures !SucceedsBesideLive(order, heads, states)
  {
    if SucceedsBesideLive(order, heads, states) {
      SuccessIsRunning(order, heads, states);
      hide HeadsFit, HeadsApart, IsPass, NoneMarked;
      UnmarkedStaysEnded(order, heads, states, |states| - 1);
      assert false;
    }
  }

  lemma SuccessIsRunning(order: seq<WorkflowNode>, heads: map<string, Unit>, states: seq<PassState>)
    requires IsPass(order, heads, FRESH, states) && Outcome(states).status == TaskSucceeded
    ensures states[|states| - 1].running && Outcome(states).recorded == states[|states| - 1].view.recorded
  {
    var last := |states| - 1;
    if !states[last].running {
      assert MovesAt(order, heads, states, last - 1);
      hide Moves;
      StillRunning(order, heads, states[last - 1], order[last - 1], states[last]);
      assert false;
    }
  }

  // ----- The pass in which it happens -----

  /** A child that asks for a decision. */
  function Asking(node: WorkflowNode): Fate
  {
    Fate(false, Succeeded, [WaitingDecision], false)
  }

  lemma AskingIsLikely(node: WorkflowNode)
    ensures Likely(node, Asking(node)) && FallsShort(node, Asking(node))
    ensures PositionAfter(node, Asking(node).endings) == Stopped(WaitingDecision)
  {
    assert [WaitingDecision][..0] == [];
  }

  /** All succeed but one, which asks for a decision. */
  ghost function AllButOne(order: seq<WorkflowNode>, a: WorkflowNode): Fates
  {
    id => if id == a.id then Asking(a) else Succeeds(order, {})(id)
  }

  lemma AllButOneAt(order: seq<WorkflowNode>, a: WorkflowNode, n: WorkflowNode)
    requires UniqueIds(order) && n in order && a in order
    ensures Likely(n, AllButOne(order, a)(n.id))
    ensures if n.id == a.id then n == a && AllButOne(order, a)(n.id) == Asking(a)
            else PositionAfter(n, AllButOne(order, a)(n.id).endings) == Finished && !AllButOne(order, a)(n.id).skips
  {
    AskingIsLikely(a);
    SucceedsAt(order, {}, n);
    SucceedingIsLikely(n);
    if n.id == a.id {
      SameId(order, n, a);
    }
  }

  /** Two nodes on which it happens: the first is marked to continue and asks for a decision, the second succeeds. */
  lemma WaitingPair(a: WorkflowNode, b: WorkflowNode)
    requires a.id != b.id && a.continueOnFailure
    ensures var u, fates := [a, b], AllButOne([a, b], a);
      && !OneByOne(FRESH, u, fates).goes && VisitBatch(FRESH, u, fates).goes
      && Live(VisitBatch(FRESH, u, fates).view, a.id) && a.id in VisitBatch(FRESH, u, fates).view.continued
  {
    var u, fates := [a, b], AllButOne([a, b], a);
    assert u[0] == a && u[1] == b;
    AskingIsLikely(a);
    forall n | n in u ensures Likely(n, fates(n.id)) && !Raises(n, fates(n.id)) && (FallsShort(n, fates(n.id)) ==> n == a) {
      AllButOneAt(u, a, n);
    }
    AllButOneAt(u, a, a);
    assert FRESH.recorded == map[];
    hide OneByOne, VisitBatch, FallsShort, PositionAfter, Likely, Raises, AllButOne;
    WaitingMember(FRESH, u, fates, a);
  }

  /** The pass is past position p, where the batch of a was visited: a waits and is passed over. */
  ghost predicate PastBatch(a: WorkflowNode, s: PassState)
  {
    a.id in s.skip && a.id in s.view.recorded && s.view.recorded[a.id] == WaitingDecision
  }

  lemma BatchGoes(order: seq<WorkflowNode>, v: View, u: Unit, a: WorkflowNode)
    requires UniqueIds(order) && UniqueIds(u) && a in order && a.continueOnFailure && forall m :: m in u ==> m in order
    ensures var move := VisitBatch(v, u, AllButOne(order, a));
      && move.goes && (a in u ==> a.id in move.view.recorded && move.view.recorded[a.id] == WaitingDecision)
      && (a.id !in IdSet(u) && a.id in v.recorded ==> a.id in move.view.recorded && move.view.recorded[a.id] == v.recorded[a.id])
  {
    var fates := AllButOne(order, a);
    forall m | m in u ensures !Raises(m, fates(m.id)) && (FallsShort(m, fates(m.id)) ==> m.continueOnFailure) {
      AllButOneAt(order, a, m);
      AskingIsLikely(a);
    }
    AllButOneAt(order, a, a);
    hide AllButOne, UniqueIds, Raises, FallsShort, IdSet, PositionAfter, FirstFailure, RecordAll, Likely;
    assert !SomeRaises(u, fates);
    MarkedGoOn(u, fates);
    RecordOf(v, u, fates, a);
  }

  lemma RecordOf(v: View, u: Unit, fates: Fates, a: WorkflowNode)
    requires UniqueIds(u) && fates(a.id) == Asking(a)
    ensures var r := RecordAll(v.recorded, u, fates);
      && (a in u ==> a.id in r && r[a.id] == WaitingDecision)
      && (a.id !in IdSet(u) && a.id in v.recorded ==> a.id in r && r[a.id] == v.recorded[a.id])
  {
    RecordAllAt(v.recorded, u, fates, a.id);
    hide RecordAll, UniqueIds;
    if a.id !in IdSet(u) {
      forall n | n in u ensures n.id != a.id {
        MemberId(u, n);
      }
    }
  }

  lemma NewSucceeded(v: View, node: WorkflowNode, fate: Fate, x: string)
    requires PositionAfter(node, fate.endings) == Finished && x != node.id
    ensures var move := VisitNew(v, node, fate);
      move.goes && (x in v.recorded ==> x in move.view.recorded && move.view.recorded[x] == v.recorded[x])
  {
  }

  /** The batch of a, headed at position p. */
  ghost predicate Marked(order: seq<WorkflowNode>, heads: map<string, Unit>, a: WorkflowNode, p: nat)
  {
    && HeadsFit(order, heads) && HeadsApart(order, heads) && p < |order|
    && order[p].id in heads && a in heads[order[p].id] && a in order && a.continueOnFailure
  }

  lemma MarkedSays(order: seq<WorkflowNode>, heads: map<string, Unit>, a: WorkflowNode, p: nat)
    requires Marked(order, heads, a, p)
    ensures HeadsFit(order, heads) && HeadsApart(order, heads) && UniqueIds(order) && HeadsWithin(order, heads) && a in order && a.continueOnFailure
    ensures p < |order| && order[p].id in heads && a in heads[order[p].id]
  {
  }

  /** Before its batch is visited a has no position, and it is in no other batch. */
  lemma OnlyBatch(order: seq<WorkflowNode>, heads: map<string, Unit>, a: WorkflowNode, p: nat, k: nat)
    requires Marked(order, heads, a, p) && k < |order|
    ensures k < p ==> order[k].id != a.id
    ensures k != p && order[k].id in heads ==> a.id !in IdSet(heads[order[k].id])
    ensures k == p ==> order[k].id in heads
    ensures order[k].id == a.id && order[k].id !in heads ==> k > p
  {
    MemberId(heads[order[p].id], a);
    hide HeadsFit, IdSet;
    MarkedSays(order, heads, a, p);
    if k < p {
      assert order[..p][k] == order[k];
      MemberId(order[..p], order[k]);
    }
    assert k != p ==> order[k].id != order[p].id;
  }

  /** One position further. */
  lemma OneFurther(order: seq<WorkflowNode>, heads: map<string, Unit>, a: WorkflowNode, p: nat, s: PassState, k: nat)
    requires Marked(order, heads, a, p) && k < |order| && s.running && Ahead(order, heads, k, {}, s)
    requires order[k].id in heads ==> order[k].id !in s.skip && Intact(heads[order[k].id], s.view.recorded.Keys)
    requires k > p ==> PastBatch(a, s)
    ensures var t := VisitAt(s, order[k], heads, AllButOne(order, a)); t.running && (k >= p ==> PastBatch(a, t))
  {
    var node, fates := order[k], AllButOne(order, a);
    MarkedSays(order, heads, a, p);
    OnlyBatch(order, heads, a, p, k);
    MemberId(heads[order[p].id], a);
    if node.id in heads {
      var u := heads[node.id];
      FitSays(order, heads, node.id);
      forall m | m in u ensures m in order {
        UnitWithin(order, heads, node, m);
      }
      BatchGoes(order, s.view, u, a);
      hide Marked, HeadsFit, HeadsApart, HeadsWithin, Intact, Ahead, VisitBatch, VisitNew, VisitRecorded, UniqueIds, IdSet, AllButOne;
    } else if node.id !in s.skip {
      NotVisited(order, heads, s, k);
      AllButOneAt(order, a, node);
      NewSucceeded(s.view, node, fates(node.id), a.id);
      hide Marked, HeadsFit, HeadsApart, HeadsWithin, Intact, Ahead, VisitBatch, VisitNew, VisitRecorded, UniqueIds, IdSet, AllButOne;
    }
  }

  lemma {:induction false} PassesBatch(order: seq<WorkflowNode>, heads: map<string, Unit>, a: WorkflowNode, p: nat, k: nat)
    requires Marked(order, heads, a, p) && k <= |order|
    ensures forall i :: 0 <= i <= k ==> Under(order, heads, FRESH, AllButOne(order, a), i).running
    ensures k > p ==> PastBatch(a, Under(order, heads, FRESH, AllButOne(order, a), k))
  {
    hide *;
    var fates := AllButOne(order, a);
    if k == 0 {
      StartsRunning(order, heads, fates);
    } else {
      PassesBatch(order, heads, a, p, k - 1);
      MarkedSays(order, heads, a, p);
      FreshFacts();
      UnderFollows(order, heads, FRESH, fates, k - 1);
      if order[k - 1].id in heads {
        HeadNow(order, heads, fates, k - 1);
      }
      OneFurther(order, heads, a, p, Under(order, heads, FRESH, fates, k - 1), k - 1);
      UnderNext(order, heads, FRESH, fates, k - 1);
    }
  }

  lemma StartsRunning(order: seq<WorkflowNode>, heads: map<string, Unit>, fates: Fates)
    ensures Under(order, heads, FRESH, fates, 0).running
  {
  }

  lemma AllButOneLikely(order: seq<WorkflowNode>, a: WorkflowNode)
    requires UniqueIds(order) && a in order
    ensures AllLikely(order, AllButOne(order, a))
  {
    hide AllButOne, UniqueIds, Likely;
    forall n | n in order ensures Likely(n, AllButOne(order, a)(n.id)) {
      AllButOneAt(order, a, n);
    }
  }

  lemma SucceedsAnyway(order: seq<WorkflowNode>, heads: map<string, Unit>, a: WorkflowNode, p: nat) returns (states: seq<PassState>)
    requires Marked(order, heads, a, p)
    ensures SucceedsBesideLive(order, heads, states)
  {
    hide *;
    var fates := AllButOne(order, a);
    MarkedSays(order, heads, a, p);
    AllButOneLikely(order, a);
    PassesBatch(order, heads, a, p, |order|);
    UnderIsPass(order, heads, FRESH, fates, |order|);
    states := StatesUnder(order, heads, FRESH, fates, |order|);
    StillLive(order, heads, a, states);
  }

  lemma StillLive(order: seq<WorkflowNode>, heads: map<string, Unit>, a: WorkflowNode, states: seq<PassState>)
    requires IsPass(order, heads, FRESH, states) && states[|states| - 1].running && PastBatch(a, states[|states| - 1])
    ensures SucceedsBesideLive(order, heads, states)
  {
    hide IsPass;
  }

  /** A first pass over a plan can succeed while a child is live if and only if some member of a batch of several nodes is
      marked to continue after a failure. */
  lemma FirstPassBesideLive(nodes: seq<WorkflowNode>, order: seq<WorkflowNode>)
    requires IsDepthOrder(nodes, order) && Closed(DependencyGraph(nodes)) && Acyclic(DependencyGraph(nodes))
    ensures BatchesFrom(order, {}).Some? && NonEmpty(BatchesFrom(order, {}).value)
    ensures var batches := BatchesFrom(order, {}).value;
      (exists states :: SucceedsBesideLive(order, HeadMap(batches), states))
      <==> exists u: Unit, a :: u in batches && |u| > 1 && a in u && a.continueOnFailure
  {
    hide *;
    HeadsOfPlan(nodes, order);
    PlanIsArranged(nodes, order);
    var batches := BatchesFrom(order, {}).value;
    ArrangedSays(nodes, order, batches);
    if u: Unit, a :| u in batches && |u| > 1 && a in u && a.continueOnFailure {
      var p := MarkedInPlan(order, batches, u, a);
      var states := SucceedsAnyway(order, HeadMap(batches), a, p);
    } else {
      NoneMarkedInPlan(batches);
      forall states ensures !SucceedsBesideLive(order, HeadMap(batches), states) {
        UnmarkedIsIdle(order, HeadMap(batches), states);
      }
    }
  }

  lemma MarkedInPlan(order: seq<WorkflowNode>, batches: seq<Unit>, u: Unit, a: WorkflowNode) returns (p: nat)
    requires NonEmpty(batches) && HeadsMatch(HeadMap(batches), batches)
    requires HeadsFit(order, HeadMap(batches)) && HeadsApart(order, HeadMap(batches))
    requires u in batches && |u| > 1 && a in u && a.continueOnFailure
    ensures Marked(order, HeadMap(batches), a, p)
  {
    hide HeadsApart, HeadMap;
    var heads, h := HeadMap(batches), u[0].id;
    assert h in heads && heads[h] == u;
    FitSays(order, heads, h);
    FitIsUnique(order, heads);
    UnitWithin(order, heads, u[0], a);
    hide HeadsFit;
    p :| 0 <= p < |order| && order[p] == u[0];
  }

  lemma NoneMarkedInPlan(batches: seq<Unit>)
    requires NonEmpty(batches)
    requires !exists u: Unit, a :: u in batches && |u| > 1 && a in u && a.continueOnFailure
    ensures NoneMarked(HeadMap(batches))
  {
    forall h | h in HeadMap(batches) ensures HeadMap(batches)[h] in batches && |HeadMap(batches)[h]| > 1 {
      HeadMapHolds(batches, h);
    }
    hide HeadMap;
  }
}
