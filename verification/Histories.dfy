/** Whole histories of a task over a plan without parallel groups: when it has at most one live child, and when a task
    that is over has none. */
module Histories {
  import opened Ids
  import opened Graphs
  import opened Workflows
  import opened TaskPlans
  import opened PlanChecks
  import opened Batches
  import opened Passes
  import opened PassSafety

  // ----- Calls on a task, seen from its plan -----

  predicate Live(v: View, n: string)
  {
    n in v.recorded && !Terminal(v.recorded[n])
  }

  predicate NoneLive(v: View)
  {
    forall n :: n in v.recorded ==> Terminal(v.recorded[n])
  }

  /** Executing the plan: a pass, if its input references are in order, and a failure otherwise. */
  ghost predicate Executed(order: seq<WorkflowNode>, heads: map<string, Unit>, upstream: bool, v: View, w: View)
  {
    if !upstream then w == Raised(v)
    else exists states :: IsPass(order, heads, v, states) && w == Outcome(states)
  }

  /** The active child, if there is one, now has this status; nothing else about the children changes. */
  ghost predicate ActiveBecomes(v: View, s: RunStatus, recorded: map<string, RunStatus>)
  {
    if NoneLive(v) then recorded == v.recorded
    else exists n :: Live(v, n) && recorded == v.recorded[n := s]
  }

  ghost predicate PausedTask(v: View, w: View)
  {
    if Over(v.status) then w == v
    else w == v.(recorded := w.recorded, status := ReconcilePending) && ActiveBecomes(v, Paused, w.recorded)
  }

  ghost predicate CancelledTask(v: View, w: View)
  {
    if Over(v.status) then w == v
    else w == v.(recorded := w.recorded, status := TaskCancelled) && ActiveBecomes(v, Cancelled, w.recorded)
  }

  /** Resuming leaves the status of the active child alone or sets it running or recovering. */
  ghost predicate ResumedTask(v: View, w: View)
  {
    && w == v.(recorded := w.recorded, status := TaskRunning)
    && (w.recorded == v.recorded || ActiveBecomes(v, Running, w.recorded) || ActiveBecomes(v, Recovering, w.recorded))
  }

  /** A decision moves the active child on; one that makes it run or succeed lets the task go on. */
  ghost predicate DecidedTask(v: View, w: View)
  {
    exists n, s, reports ::
      && Live(v, n)
      && w == v.(recorded := v.recorded[n := s], outputs := Reported(v.outputs, n, reports),
                 status := if s == Running || s == Succeeded then TaskRunning else Aggregate(s))
  }

  /** A live child changes on its own account. */
  ghost predicate ChildMoved(v: View, w: View)
  {
    exists s :: !NoneLive(v) && ActiveBecomes(v, s, w.recorded) && w == v.(recorded := w.recorded)
  }

  /** Nothing changes, except that a forgotten child may end on its own account. */
  ghost predicate LeftAlone(v: View, w: View)
  {
    w == v.(stray := w.stray) && (w.stray ==> v.stray)
  }

  /** The nodes that a restart drops: the step and all that depends on it. */
  ghost function Downstream(nodes: seq<WorkflowNode>, step: string): set<string>
  {
    set a | a in IdSet(nodes) && Reaches(EdgeGraph(nodes), a, step)
  }

  /** Restarting cancels the active child and forgets the children and outputs of the dropped nodes, but not which
      failures have been continued past. A live child that is dropped becomes stray. */
  ghost predicate RestartedWith(v: View, dropped: set<string>, recorded: map<string, RunStatus>, w: View)
  {
    && ActiveBecomes(v, Cancelled, recorded)
    && w == v.(recorded := recorded - dropped, outputs := v.outputs - dropped, status := TaskRunning, stray := w.stray)
    && (v.stray ==> w.stray) && (w.stray ==> v.stray || SomeDroppedLive(recorded, dropped))
  }

  ghost predicate SomeDroppedLive(recorded: map<string, RunStatus>, dropped: set<string>)
  {
    exists n :: n in recorded && n in dropped && !Terminal(recorded[n])
  }

  ghost predicate RestartedFrom(nodes: seq<WorkflowNode>, step: string, v: View, w: View)
  {
    step in IdSet(nodes) && exists recorded :: RestartedWith(v, Downstream(nodes, step), recorded, w)
  }

  ghost predicate RestartedTask(nodes: seq<WorkflowNode>, v: View, w: View)
  {
    exists step :: RestartedFrom(nodes, step, v, w)
  }

  /** What the condition of a node says, whenever it is asked: whether it is skipped, from the keys of the outputs. */
  type Answers = (string, set<string>) -> bool

  /** A condition that was asked at this position was answered so. */
  ghost predicate FollowsAt(answers: Answers, order: seq<WorkflowNode>, states: seq<PassState>, k: int)
    requires 0 <= k < |states| - 1 <= |order|
  {
    var s, t, node := states[k], states[k + 1], order[k];
    node.conditional && node.id !in s.view.recorded ==>
      ((t.running && node.id !in t.view.recorded) <==> answers(node.id, s.view.outputs))
  }

  /** All conditions were answered so, if it is given how they are answered. */
  ghost predicate Follows(answers: Option<Answers>, order: seq<WorkflowNode>, states: seq<PassState>)
  {
    answers.Some? ==>
      && |states| <= |order| + 1
      && forall k {:trigger FollowsAt(answers.value, order, states, k)} :: 0 <= k < |states| - 1 ==> FollowsAt(answers.value, order, states, k)
  }

  /** Executing a plan without parallel groups, with conditions answered so. */
  ghost predicate ExecutedBy(answers: Option<Answers>, order: seq<WorkflowNode>, upstream: bool, v: View, w: View)
  {
    if !upstream then w == Raised(v)
    else exists states :: IsPass(order, map[], v, states) && Follows(answers, order, states) && w == Outcome(states)
  }

  ghost predicate TaskStep(answers: Option<Answers>, nodes: seq<WorkflowNode>, order: seq<WorkflowNode>, v: View, w: View)
  {
    || ExecutedBy(answers, order, InputsUpstream(nodes), v, w)
    || PausedTask(v, w) || ResumedTask(v, w) || CancelledTask(v, w) || DecidedTask(v, w) || ChildMoved(v, w)
    || RestartedTask(nodes, v, w) || LeftAlone(v, w)
  }

  const FRESH := View(map[], false, {}, {}, TaskRunning)

  ghost predicate StepAt(answers: Option<Answers>, nodes: seq<WorkflowNode>, order: seq<WorkflowNode>, vs: seq<View>, i: int)
    requires 0 <= i < |vs| - 1
  {
    TaskStep(answers, nodes, order, vs[i], vs[i + 1])
  }

  /** What a task goes through from its start on, under any calls in any order. If no answers are given, a condition may
      say something else each time it is asked. */
  ghost predicate IsHistory(answers: Option<Answers>, nodes: seq<WorkflowNode>, order: seq<WorkflowNode>, vs: seq<View>)
  {
    && vs != [] && vs[0] == FRESH
    && forall i {:trigger StepAt(answers, nodes, order, vs, i)} :: 0 <= i < |vs| - 1 ==> StepAt(answers, nodes, order, vs, i)
  }

  /** No child is live but forgotten, and no two recorded ones are live. */
  ghost predicate AtMostOneLive(v: View)
  {
    !v.stray && forall m, n :: Live(v, m) && Live(v, n) ==> m == n
  }

  // ----- Plans on which nothing goes wrong -----

  /** Only the last node may have a condition or continue after a failure. */
  predicate OnlyLastSpecial(order: seq<WorkflowNode>)
  {
    forall i :: 0 <= i < |order| - 1 ==> !order[i].conditional && !order[i].continueOnFailure
  }

  /** No node continues after a failure, and only the last one may have a condition. */
  predicate NoneContinues(order: seq<WorkflowNode>)
  {
    OnlyLastSpecial(order) && forall i :: 0 <= i < |order| ==> !order[i].continueOnFailure
  }

  predicate Done(v: View, n: string)
  {
    n in v.recorded && v.recorded[n] == Succeeded
  }

  /** A live child belongs to a node before which every node has succeeded. */
  ghost predicate Orderly(order: seq<WorkflowNode>, v: View)
  {
    && !v.stray && v.recorded.Keys <= IdSet(order) && ContinuedMarked(order, v.continued)
    && forall i, j :: 0 <= j < i < |order| && Live(v, order[i].id) ==> Done(v, order[j].id)
  }

  lemma OrderlyIsSingle(order: seq<WorkflowNode>, v: View)
    requires UniqueIds(order) && Orderly(order, v)
    ensures AtMostOneLive(v)
  {
    forall m, n | Live(v, m) && Live(v, n) ensures m == n {
      assert m in IdSet(order) && n in IdSet(order);
      var i :| 0 <= i < |order| && order[i].id == m;
      var j :| 0 <= j < |order| && order[j].id == n;
      var p, q := Done(v, order[i].id), Done(v, order[j].id);
    }
  }

  /** A pass under way after k positions: the nodes before have succeeded, those ahead are as they were. */
  ghost predicate Underway(order: seq<WorkflowNode>, v: View, k: nat, s: PassState)
    requires k <= |order|
  {
    && s.running && s.skip == {} && !s.view.stray && s.view.recorded.Keys <= IdSet(order)
    && ContinuedMarked(order, s.view.continued)
    && (forall j :: 0 <= j < k && j < |order| - 1 ==> Done(s.view, order[j].id))
    && (forall i {:trigger order[i]} :: k <= i < |order| ==> SameAt(v, s.view, order[i].id))
  }

  ghost predicate SameAt(v: View, w: View, n: string)
  {
    (n in v.recorded <==> n in w.recorded) && (n in v.recorded ==> v.recorded[n] == w.recorded[n])
  }

  /** What a pass leaves behind when it stops at position k. */
  ghost predicate Halted(order: seq<WorkflowNode>, v: View, k: nat, w: View)
    requires k < |order|
  {
    && !w.stray && w.recorded.Keys <= IdSet(order) && ContinuedMarked(order, w.continued)
    && w.status != TaskSucceeded
    && (NoneLive(w) ||
         (&& (forall j :: 0 <= j < k ==> Done(w, order[j].id))
          && (forall i {:trigger order[i]} :: k < i < |order| ==> SameAt(v, w, order[i].id))
          && !Done(v, order[k].id)
          && (Over(w.status) ==> !Live(w, order[k].id))))
  }

  /** Only the record of one node differs. */
  ghost predicate ChangedAt(v: View, w: View, n: string)
  {
    (forall x :: x != n ==> SameAt(v, w, x)) && v.stray == w.stray
  }

  function Visiting(v: View, node: WorkflowNode, fate: Fate): Move
  {
    if node.id in v.recorded then VisitRecorded(v, node, fate) else VisitNew(v, node, fate)
  }

  lemma GoingOn(v: View, node: WorkflowNode, fate: Fate)
    requires Likely(node, fate) && Visiting(v, node, fate).goes && (node.id in v.continued ==> node.continueOnFailure)
    ensures var w := Visiting(v, node, fate).view;
      && ChangedAt(v, w, node.id) && w.continued <= v.continued + (if node.continueOnFailure then {node.id} else {})
      && (!node.conditional && !node.continueOnFailure ==> Done(w, node.id))
      && (!node.continueOnFailure ==> !Live(w, node.id))
  {
    if node.id !in v.recorded && !Skipped(node, fate) {
      LastEnding(node, fate.endings);
    }
    hide Proper, PositionAfter;
  }

  lemma Halting(v: View, node: WorkflowNode, fate: Fate)
    requires Likely(node, fate) && !Visiting(v, node, fate).goes
    ensures var w := Visiting(v, node, fate).view;
      && v.stray == w.stray && w.continued == v.continued && w.status != TaskSucceeded
      && w.recorded.Keys <= v.recorded.Keys + {node.id} && !Done(v, node.id)
      && (NoneLive(w) || (ChangedAt(v, w, node.id) && (Over(w.status) ==> !Live(w, node.id))))
  {
    if node.id !in v.recorded && !PositionAfter(node, fate.endings).At? {
      LastEnding(node, fate.endings);
    }
    hide Proper, PositionAfter;
  }

  lemma VisitIsVisiting(s: PassState, node: WorkflowNode, fates: Fates)
    requires s.skip == {}
    ensures var t, m := VisitAt(s, node, map[], fates), Visiting(s.view, node, fates(node.id));
      t.skip == {} && t.view == m.view && t.running == m.goes
  {
  }

  lemma VisitGoesOn(order: seq<WorkflowNode>, v: View, k: nat, s: PassState, fates: Fates)
    requires k < |order| && UniqueIds(order) && OnlyLastSpecial(order) && Underway(order, v, k, s) && AllLikely(order, fates)
    requires VisitAt(s, order[k], map[], fates).running
    ensures Underway(order, v, k + 1, VisitAt(s, order[k], map[], fates))
    ensures NoneContinues(order) ==> !Live(VisitAt(s, order[k], map[], fates).view, order[k].id)
    ensures forall j :: 0 <= j < k ==> SameAt(s.view, VisitAt(s, order[k], map[], fates).view, order[j].id)
  {
    var node, t := order[k], VisitAt(s, order[k], map[], fates);
    assert node in order && node.id in IdSet(order) && Likely(node, fates(node.id));
    VisitIsVisiting(s, node, fates);
    GoingOn(s.view, node, fates(node.id));
    hide VisitAt, Visiting, Likely, AllLikely, IdSet, VisitNew, VisitRecorded;
    forall n | n in order && n.id in t.view.continued ensures n.continueOnFailure {
      if n.id !in s.view.continued {
        SameId(order, n, node);
      }
    }
    assert forall i :: 0 <= i < |order| && i != k ==> order[i].id != node.id;
    forall x | x in t.view.recorded ensures x in IdSet(order) {
      if x != node.id {
        assert SameAt(s.view, t.view, x);
      }
    }
    forall i {:trigger order[i]} | k + 1 <= i < |order| ensures SameAt(v, t.view, order[i].id) {
      assert SameAt(v, s.view, order[i].id) && SameAt(s.view, t.view, order[i].id);
    }
    forall j | 0 <= j < k ensures SameAt(s.view, t.view, order[j].id) {
    }
  }

  lemma VisitHalts(order: seq<WorkflowNode>, v: View, k: nat, s: PassState, fates: Fates)
    requires k < |order| && UniqueIds(order) && OnlyLastSpecial(order) && Underway(order, v, k, s) && AllLikely(order, fates)
    requires !VisitAt(s, order[k], map[], fates).running
    ensures Halted(order, v, k, VisitAt(s, order[k], map[], fates).view)
  {
    var node, t := order[k], VisitAt(s, order[k], map[], fates);
    assert node in order && node.id in IdSet(order) && Likely(node, fates(node.id));
    VisitIsVisiting(s, node, fates);
    Halting(s.view, node, fates(node.id));
    assert SameAt(v, s.view, node.id);
    hide VisitAt, Visiting, Likely, AllLikely, IdSet, VisitNew, VisitRecorded;
    assert forall i :: 0 <= i < |order| && i != k ==> order[i].id != node.id;
    if !NoneLive(t.view) {
      forall i {:trigger order[i]} | k < i < |order| ensures SameAt(v, t.view, order[i].id) {
        assert SameAt(v, s.view, order[i].id) && SameAt(s.view, t.view, order[i].id);
      }
      forall j | 0 <= j < k ensures Done(t.view, order[j].id) {
        assert SameAt(s.view, t.view, order[j].id);
      }
    }
  }

  lemma {:induction false} PassStaysOrderly(order: seq<WorkflowNode>, v: View, states: seq<PassState>, k: nat)
    requires UniqueIds(order) && OnlyLastSpecial(order) && Orderly(order, v) && IsPass(order, map[], v, states) && k < |states|
    ensures states[k].running ==> Underway(order, v, k, states[k])
    ensures !states[k].running ==> k > 0 && Halted(order, v, k - 1, states[k].view)
    ensures states[k].running && NoneContinues(order) ==> forall j :: 0 <= j < k ==> !Live(states[k].view, order[j].id)
  {
    if k > 0 {
      assert MovesAt(order, map[], states, k - 1);
      assert states[k - 1].running;
      PassStaysOrderly(order, v, states, k - 1);
      var fates: Fates :| AllLikely(order, fates) && states[k] == VisitAt(states[k - 1], order[k - 1], map[], fates);
      hide VisitAt, AllLikely, IsPass, UniqueIds, Orderly;
      if states[k].running {
        VisitGoesOn(order, v, k - 1, states[k - 1], fates);
      } else {
        VisitHalts(order, v, k - 1, states[k - 1], fates);
      }
    }
  }

  lemma PassKeepsOrderly(order: seq<WorkflowNode>, v: View, states: seq<PassState>)
    requires UniqueIds(order) && OnlyLastSpecial(order) && Orderly(order, v) && IsPass(order, map[], v, states)
    ensures Orderly(order, Outcome(states))
    ensures NoneContinues(order) && Over(Outcome(states).status) ==> NoneLive(Outcome(states))
  {
    var last := |states| - 1;
    PassStaysOrderly(order, v, states, last);
    if states[last].running {
      hide IsPass, OnlyLastSpecial;
      SweptIsOrderly(order, v, states[last]);
    } else {
      hide IsPass, OnlyLastSpecial;
      HaltedIsOrderly(order, v, last - 1, states[last].view);
    }
  }

  lemma SweptIsOrderly(order: seq<WorkflowNode>, v: View, s: PassState)
    requires Underway(order, v, |order|, s)
    ensures Orderly(order, s.view.(status := TaskSucceeded))
    ensures (forall j :: 0 <= j < |order| ==> !Live(s.view, order[j].id)) ==> NoneLive(s.view.(status := TaskSucceeded))
  {
    if forall j :: 0 <= j < |order| ==> !Live(s.view, order[j].id) {
      forall n | n in s.view.recorded ensures Terminal(s.view.recorded[n]) {
        assert n in IdSet(order);
        var j :| 0 <= j < |order| && order[j].id == n;
        assert !Live(s.view, order[j].id);
      }
    }
  }

  lemma HaltedIsOrderly(order: seq<WorkflowNode>, v: View, k: nat, w: View)
    requires k < |order| && Orderly(order, v) && Halted(order, v, k, w)
    ensures Orderly(order, w) && (Over(w.status) ==> NoneLive(w))
  {
    if !NoneLive(w) {
      forall i | 0 <= i < |order| && i != k ensures !Live(w, order[i].id) {
        if i < k {
          assert Done(w, order[i].id);
        } else {
          assert SameAt(v, w, order[i].id) && !Done(v, order[k].id);
        }
      }
      if Over(w.status) {
        forall n | n in w.recorded ensures Terminal(w.recorded[n]) {
          assert n in IdSet(order);
          var j :| 0 <= j < |order| && order[j].id == n;
          assert !Live(w, order[j].id);
        }
      }
    }
  }

  /** Whatever the one live child becomes, the task stays orderly; once it has ended nothing is live. */
  lemma ActiveKeepsOrderly(order: seq<WorkflowNode>, v: View, s: RunStatus, recorded: map<string, RunStatus>, w: View)
    requires UniqueIds(order) && Orderly(order, v) && ActiveBecomes(v, s, recorded)
    requires w.recorded == recorded && w.stray == v.stray && w.continued == v.continued
    ensures Orderly(order, w) && (Terminal(s) ==> NoneLive(w))
  {
    OrderlyIsSingle(order, v);
    if !NoneLive(v) {
      var n :| Live(v, n) && recorded == v.recorded[n := s];
      forall i, j | 0 <= j < i < |order| && Live(w, order[i].id) ensures Done(w, order[j].id) {
        assert Live(v, order[i].id) && Done(v, order[j].id);
      }
      forall x | x in w.recorded && Terminal(s) ensures Terminal(w.recorded[x]) {
        assert x != n ==> !Live(v, x);
      }
    }
  }

  lemma RestartKeepsOrderly(order: seq<WorkflowNode>, v: View, dropped: set<string>, recorded: map<string, RunStatus>, w: View)
    requires UniqueIds(order) && Orderly(order, v) && RestartedWith(v, dropped, recorded, w)
    ensures Orderly(order, w) && NoneLive(w)
  {
    ActiveKeepsOrderly(order, v, Cancelled, recorded, v.(recorded := recorded));
    hide ContinuedMarked, IdSet;
    assert NoneLive(v.(recorded := recorded));
    assert forall n :: n in recorded ==> Terminal(recorded[n]);
  }

  /** A task that is over has no live child. */
  ghost predicate OverMeansIdle(v: View)
  {
    Over(v.status) ==> NoneLive(v)
  }

  lemma StepKeepsOrderly(answers: Option<Answers>, nodes: seq<WorkflowNode>, order: seq<WorkflowNode>, v: View, w: View)
    requires UniqueIds(order) && OnlyLastSpecial(order) && Orderly(order, v) && TaskStep(answers, nodes, order, v, w)
    ensures Orderly(order, w)
    ensures NoneContinues(order) && OverMeansIdle(v) ==> OverMeansIdle(w)
  {
    hide Orderly, UniqueIds, OnlyLastSpecial, RestartedWith, InputsUpstream, AllCancelled;
    if ExecutedBy(answers, order, InputsUpstream(nodes), v, w) {
      if !InputsUpstream(nodes) {
        RaisedKeepsOrderly(order, v);
        return;
      }
      var states :| IsPass(order, map[], v, states) && Follows(answers, order, states) && w == Outcome(states);
      hide NoneContinues, Outcome, Follows;
      PassKeepsOrderly(order, v, states);
    } else if RestartedTask(nodes, v, w) {
      var step :| RestartedFrom(nodes, step, v, w);
      var recorded :| RestartedWith(v, Downstream(nodes, step), recorded, w);
      RestartKeepsOrderly(order, v, Downstream(nodes, step), recorded, w);
      assert NoneLive(w);
    } else if LeftAlone(v, w) {
      NotStray(order, v);
      assert w == v;
    } else {
      CallKeepsOrderly(order, v, w);
    }
  }

  lemma NotStray(order: seq<WorkflowNode>, v: View)
    requires Orderly(order, v)
    ensures !v.stray
  {
  }

  lemma RaisedKeepsOrderly(order: seq<WorkflowNode>, v: View)
    requires Orderly(order, v)
    ensures Orderly(order, Raised(v)) && NoneLive(Raised(v))
  {
  }

  lemma CallKeepsOrderly(order: seq<WorkflowNode>, v: View, w: View)
    requires UniqueIds(order) && Orderly(order, v)
    requires PausedTask(v, w) || ResumedTask(v, w) || CancelledTask(v, w) || DecidedTask(v, w) || ChildMoved(v, w)
    ensures Orderly(order, w) && (OverMeansIdle(v) ==> OverMeansIdle(w))
  {
    hide UniqueIds, ContinuedMarked, IdSet;
    if w.recorded != v.recorded {
      var s := BecameOf(v, w);
      ActiveKeepsOrderly(order, v, s, w.recorded, w);
      assert NoneLive(v) ==> w.recorded == v.recorded;
    } else if CancelledTask(v, w) && !Over(v.status) {
      ActiveKeepsOrderly(order, v, Cancelled, w.recorded, w);
    } else if DecidedTask(v, w) {
      var n, s, reports :| Live(v, n) && w == v.(recorded := v.recorded[n := s], outputs := Reported(v.outputs, n, reports),
                 status := if s == Running || s == Succeeded then TaskRunning else Aggregate(s));
      assert w.recorded[n] == v.recorded[n];
    }
  }

  lemma BecameOf(v: View, w: View) returns (s: RunStatus)
    requires PausedTask(v, w) || ResumedTask(v, w) || CancelledTask(v, w) || DecidedTask(v, w) || ChildMoved(v, w)
    requires w.recorded != v.recorded
    ensures ActiveBecomes(v, s, w.recorded) && !NoneLive(v)
    ensures OverMeansIdle(v) && Over(w.status) ==> Terminal(s)
  {
    if PausedTask(v, w) {
      s := Paused;
    } else if ResumedTask(v, w) {
      s := if ActiveBecomes(v, Running, w.recorded) then Running else Recovering;
    } else if CancelledTask(v, w) {
      s := Cancelled;
    } else if DecidedTask(v, w) {
      var n, t, reports :| Live(v, n) && w == v.(recorded := v.recorded[n := t], outputs := Reported(v.outputs, n, reports),
                 status := if t == Running || t == Succeeded then TaskRunning else Aggregate(t));
      s := t;
    } else {
      s :| !NoneLive(v) && ActiveBecomes(v, s, w.recorded) && w == v.(recorded := w.recorded);
    }
  }

  lemma {:induction false} HistoryStaysOrderly(answers: Option<Answers>, nodes: seq<WorkflowNode>, order: seq<WorkflowNode>, vs: seq<View>, i: nat)
    requires UniqueIds(order) && OnlyLastSpecial(order) && IsHistory(answers, nodes, order, vs) && i < |vs|
    ensures Orderly(order, vs[i])
    ensures NoneContinues(order) ==> OverMeansIdle(vs[i])
  {
    hide TaskStep, UniqueIds, OnlyLastSpecial, NoneContinues, InputsUpstream;
    if i > 0 {
      HistoryStaysOrderly(answers, nodes, order, vs, i - 1);
      assert StepAt(answers, nodes, order, vs, i - 1);
      hide Orderly, OverMeansIdle;
      StepKeepsOrderly(answers, nodes, order, vs[i - 1], vs[i]);
    }
  }

  // ----- Plans on which something can go wrong -----

  /** A pass that has not stopped yet. */
  ghost predicate Partial(answers: Answers, order: seq<WorkflowNode>, v: View, states: seq<PassState>)
  {
    && 1 <= |states| <= |order| + 1
    && states[0] == PassState(v, {}, [], true)
    && (forall k {:trigger MovesAt(order, map[], states, k)} :: 0 <= k < |states| - 1 ==> MovesAt(order, map[], states, k))
    && states[|states| - 1].running && states[|states| - 1].skip == {}
    && Follows(Some(answers), order, states)
  }

  const IDLE := Fate(false, Succeeded, [], false)

  /** One node meets this fate; the others are not visited. */
  function Only(id: string, fate: Fate): Fates
  {
    x => if x == id then fate else IDLE
  }

  lemma OnlyIsLikely(order: seq<WorkflowNode>, node: WorkflowNode, fate: Fate)
    requires UniqueIds(order) && node in order && Likely(node, fate)
    ensures AllLikely(order, Only(node.id, fate))
  {
    forall n | n in order ensures Likely(n, Only(node.id, fate)(n.id)) {
      if n.id == node.id {
        SameId(order, n, node);
      }
    }
  }

  /** A visit of a new node with a condition skips it exactly if its fate says so. */
  lemma SkippingShows(v: View, node: WorkflowNode, fate: Fate)
    requires node.id !in v.recorded && node.conditional && Likely(node, fate)
    ensures var move := Visiting(v, node, fate); (move.goes && node.id !in move.view.recorded) <==> fate.skips
  {
    if !fate.skips && PositionAfter(node, fate.endings).Finished? {
      LastEnding(node, fate.endings);
    }
    if !fate.skips && PositionAfter(node, fate.endings).Stopped? {
      LastEnding(node, fate.endings);
    }
  }

  /** Lets a pass visit its next node. */
  lemma Visits(answers: Answers, order: seq<WorkflowNode>, v: View, states: seq<PassState>, fate: Fate) returns (longer: seq<PassState>)
    requires UniqueIds(order) && Partial(answers, order, v, states) && |states| <= |order|
    requires Likely(order[|states| - 1], fate)
    requires var view, node := states[|states| - 1].view, order[|states| - 1];
      node.conditional && node.id !in view.recorded ==> fate.skips == answers(node.id, view.outputs)
    ensures |longer| == |states| + 1
    ensures var move := Visiting(states[|states| - 1].view, order[|states| - 1], fate);
      && longer[|states|].view == move.view && longer[|states|].running == move.goes
      && (move.goes ==> Partial(answers, order, v, longer))
      && (!move.goes || |states| == |order| ==> IsPass(order, map[], v, longer) && Follows(Some(answers), order, longer))
  {
    var s, node := states[|states| - 1], order[|states| - 1];
    var fates := Only(node.id, fate);
    OnlyIsLikely(order, node, fate);
    VisitIsVisiting(s, node, fates);
    if node.conditional && node.id !in s.view.recorded {
      SkippingShows(s.view, node, fate);
    }
    var t := VisitAt(s, node, map[], fates);
    longer := states + [t];
    hide VisitAt, Visiting, AllLikely, Likely;
    assert Moves(order, map[], s, node, t);
    forall k {:trigger MovesAt(order, map[], longer, k)} | 0 <= k < |longer| - 1 ensures MovesAt(order, map[], longer, k) {
      if k < |states| - 1 {
        assert MovesAt(order, map[], states, k);
      }
    }
    forall k {:trigger FollowsAt(answers, order, longer, k)} | 0 <= k < |longer| - 1 ensures FollowsAt(answers, order, longer, k) {
      if k < |states| - 1 {
        assert FollowsAt(answers, order, states, k);
      }
    }
  }

  /** However the outputs grow, the node is not skipped. */
  ghost predicate RunsFrom(answers: Answers, id: string, outputs: set<string>)
  {
    forall keys :: outputs <= keys ==> !answers(id, keys)
  }

  function Repeated(s: RunStatus, k: nat): seq<RunStatus>
  {
    seq(k, _ => s)
  }

  lemma {:induction false} RepeatedPosition(node: WorkflowNode, k: nat)
    requires k <= IterationLimit(node)
    ensures PositionAfter(node, Repeated(Succeeded, k)) == if k == IterationLimit(node) then Finished else At(k, 0)
  {
    if k > 0 {
      RepeatedPosition(node, k - 1);
      assert Repeated(Succeeded, k)[..k - 1] == Repeated(Succeeded, k - 1);
    }
  }

  lemma {:induction false} FailedPosition(node: WorkflowNode, k: nat)
    requires k <= AttemptLimit(node)
    ensures PositionAfter(node, Repeated(Failed, k)) == if k == AttemptLimit(node) then Stopped(Failed) else At(0, k)
  {
    if k > 0 {
      FailedPosition(node, k - 1);
      assert Repeated(Failed, k)[..k - 1] == Repeated(Failed, k - 1);
    }
  }

  /** The fate of a node whose children all succeed. */
  function Succeeding(node: WorkflowNode): Fate
  {
    Fate(false, Succeeded, Repeated(Succeeded, IterationLimit(node)), false)
  }

  lemma SucceedingIsLikely(node: WorkflowNode)
    ensures Likely(node, Succeeding(node)) && PositionAfter(node, Succeeding(node).endings) == Finished
  {
    var limit := IterationLimit(node);
    RepeatedPosition(node, limit);
    forall k {:trigger Repeated(Succeeded, limit)[..k]} | 0 <= k < limit ensures PositionAfter(node, Repeated(Succeeded, limit)[..k]).At? {
      RepeatedPosition(node, k);
      assert Repeated(Succeeded, limit)[..k] == Repeated(Succeeded, k);
    }
  }

  lemma SucceedingGoesOn(v: View, node: WorkflowNode)
    requires node.id in v.recorded ==> v.recorded[node.id] == Succeeded
    ensures Likely(node, Succeeding(node))
    ensures var move := Visiting(v, node, Succeeding(node));
      && move.goes && Done(move.view, node.id) && ChangedAt(v, move.view, node.id) && move.view.continued == v.continued
      && v.outputs <= move.view.outputs
  {
    SucceedingIsLikely(node);
    hide PositionAfter, Proper;
  }

  /** The fate of a node whose child comes to wait for a decision, or whose children fail as often as they may. */
  function Ending(node: WorkflowNode, s: RunStatus): Fate
  {
    Fate(false, Succeeded, if s == Failed then Repeated(Failed, AttemptLimit(node)) else [s], false)
  }

  lemma EndingIsLikely(node: WorkflowNode, s: RunStatus)
    requires s == WaitingDecision || s == Failed
    ensures Likely(node, Ending(node, s)) && PositionAfter(node, Ending(node, s).endings) == Stopped(s)
    ensures Ending(node, s).endings != [] && Ending(node, s).endings[|Ending(node, s).endings| - 1] == s
  {
    if s == Failed {
      var limit := AttemptLimit(node);
      FailedPosition(node, limit);
      forall k {:trigger Repeated(Failed, limit)[..k]} | 0 <= k < limit ensures PositionAfter(node, Repeated(Failed, limit)[..k]).At? {
        FailedPosition(node, k);
        assert Repeated(Failed, limit)[..k] == Repeated(Failed, k);
      }
    } else {
      assert [s][..0] == [];
      assert PositionAfter(node, [s]) == Moved(node, PositionAfter(node, [s][..0]), s);
    }
  }

  lemma EndingStops(v: View, node: WorkflowNode, s: RunStatus)
    requires node.id !in v.recorded && (s == WaitingDecision || s == Failed)
    ensures Likely(node, Ending(node, s)) && !Ending(node, s).skips
    ensures var move := Visiting(v, node, Ending(node, s));
      && ChangedAt(v, move.view, node.id) && node.id in move.view.recorded && move.view.recorded[node.id] == s
      && (move.goes <==> s == Failed && node.continueOnFailure)
      && (!move.goes ==> move.view.status == Aggregate(s))
      && move.view.continued == (if move.goes then v.continued + {node.id} else v.continued)
      && v.outputs <= move.view.outputs
  {
    EndingIsLikely(node, s);
    hide PositionAfter, Proper;
  }

  ghost predicate InOrder(order: seq<WorkflowNode>, x: string, a: nat, b: nat)
    requires a <= b <= |order|
  {
    exists j :: a <= j < b && order[j].id == x
  }

  /** Between two views only the nodes at these positions differ, and they have succeeded. */
  ghost predicate Swept(order: seq<WorkflowNode>, v: View, w: View, a: nat, b: nat)
    requires a <= b <= |order|
  {
    && (forall j :: a <= j < b ==> Done(w, order[j].id))
    && (forall x :: !InOrder(order, x, a, b) ==> SameAt(v, w, x))
    && w.continued == v.continued && w.stray == v.stray && v.outputs <= w.outputs
  }

  /** Lets a pass go on to position k, with every node on the way succeeding. */
  lemma {:induction false} Sweeps(answers: Answers, order: seq<WorkflowNode>, v: View, states: seq<PassState>, k: nat)
    returns (longer: seq<PassState>)
    requires UniqueIds(order) && Partial(answers, order, v, states) && |states| - 1 <= k <= |order|
    requires forall j :: |states| - 1 <= j < k && order[j].id in states[|states| - 1].view.recorded ==>
      Done(states[|states| - 1].view, order[j].id)
    requires forall j :: |states| - 1 <= j < k ==> RunsFrom(answers, order[j].id, {})
    ensures Partial(answers, order, v, longer) && |longer| == k + 1
    ensures Swept(order, states[|states| - 1].view, longer[k].view, |states| - 1, k)
    decreases k - |states|
  {
    var a := |states| - 1;
    if a == k {
      longer := states;
    } else {
      var node, view := order[a], states[a].view;
      SucceedingGoesOn(view, node);
      assert RunsFrom(answers, node.id, {});
      var next := Visits(answers, order, v, states, Succeeding(node));
      var after := next[a + 1].view;
      forall j | a + 1 <= j < k && order[j].id in after.recorded ensures Done(after, order[j].id) {
        assert order[j].id != node.id && SameAt(view, after, order[j].id);
      }
      hide Visiting, Succeeding, IsPass, Partial, RunsFrom;
      longer := Sweeps(answers, order, v, next, k);
      SweptOne(order, view, after, longer[k].view, a, k);
    }
  }

  lemma SweptOne(order: seq<WorkflowNode>, v: View, w: View, z: View, a: nat, k: nat)
    requires UniqueIds(order) && a < k <= |order| && ChangedAt(v, w, order[a].id) && Done(w, order[a].id) && w.continued == v.continued
    requires Swept(order, w, z, a + 1, k) && v.outputs <= w.outputs
    ensures Swept(order, v, z, a, k)
  {
    forall j | a <= j < k ensures Done(z, order[j].id) {
      if j == a {
        assert !InOrder(order, order[a].id, a + 1, k);
        assert SameAt(w, z, order[a].id);
      }
    }
    forall x | !InOrder(order, x, a, k) ensures SameAt(v, z, x) {
      assert x != order[a].id && !InOrder(order, x, a + 1, k);
      assert SameAt(v, w, x) && SameAt(w, z, x);
    }
  }

  lemma SweepTo(answers: Answers, order: seq<WorkflowNode>, v: View, i: nat) returns (states: seq<PassState>)
    requires UniqueIds(order) && i <= |order|
    requires forall j :: 0 <= j < i && order[j].id in v.recorded ==> Done(v, order[j].id)
    requires forall j :: 0 <= j < i ==> RunsFrom(answers, order[j].id, {})
    ensures Partial(answers, order, v, states) && |states| == i + 1 && Swept(order, v, states[i].view, 0, i)
  {
    hide RunsFrom;
    states := Sweeps(answers, order, v, [PassState(v, {}, [], true)], i);
  }

  /** A pass on which everything before node i succeeds and node i's child ends so. */
  ghost predicate StoppedAt(order: seq<WorkflowNode>, v: View, w: View, i: nat, s: RunStatus)
    requires i < |order|
  {
    && (forall j :: 0 <= j < i ==> Done(w, order[j].id))
    && order[i].id in w.recorded && w.recorded[order[i].id] == s
    && (forall x :: !InOrder(order, x, 0, i + 1) ==> SameAt(v, w, x))
    && w.continued == v.continued && w.stray == v.stray && w.status == Aggregate(s)
  }

  lemma StopsAt(answers: Answers, order: seq<WorkflowNode>, v: View, i: nat, s: RunStatus) returns (w: View)
    requires UniqueIds(order) && i < |order| && order[i].id !in v.recorded
    requires forall j :: 0 <= j < i && order[j].id in v.recorded ==> Done(v, order[j].id)
    requires forall j :: 0 <= j < i ==> RunsFrom(answers, order[j].id, {})
    requires RunsFrom(answers, order[i].id, v.outputs)
    requires s == WaitingDecision || (s == Failed && !order[i].continueOnFailure)
    ensures ExecutedBy(Some(answers), order, true, v, w) && StoppedAt(order, v, w, i, s)
  {
    var states := SweepTo(answers, order, v, i);
    NotInOrder(order, i, 0, i);
    assert SameAt(v, states[i].view, order[i].id);
    EndingStops(states[i].view, order[i], s);
    hide Partial, IsPass, Follows, Visiting, Ending;
    var all := Visits(answers, order, v, states, Ending(order[i], s));
    w := Outcome(all);
    SweptThenChanged(order, v, states[i].view, w, i);
  }

  lemma NotInOrder(order: seq<WorkflowNode>, i: nat, a: nat, b: nat)
    requires UniqueIds(order) && i < |order| && a <= b <= |order| && (i < a || b <= i)
    ensures !InOrder(order, order[i].id, a, b)
  {
  }

  /** A sweep up to position i, then a change at i. */
  lemma SweptThenChanged(order: seq<WorkflowNode>, v: View, w: View, z: View, i: nat)
    requires UniqueIds(order) && i < |order| && Swept(order, v, w, 0, i) && ChangedAt(w, z, order[i].id)
    ensures forall j :: 0 <= j < i ==> Done(z, order[j].id)
    ensures forall x :: !InOrder(order, x, 0, i + 1) ==> SameAt(v, z, x)
    ensures z.stray == v.stray
  {
    forall j | 0 <= j < i ensures Done(z, order[j].id) {
      assert order[j].id != order[i].id && SameAt(w, z, order[j].id);
    }
    forall x | !InOrder(order, x, 0, i + 1) ensures SameAt(v, z, x) {
      assert x != order[i].id && !InOrder(order, x, 0, i);
      assert SameAt(v, w, x) && SameAt(w, z, x);
    }
  }

  // ----- A condition before the end -----

  /** A condition that asks whether its own node has a key in the outputs yet; no other node is ever skipped. */
  function SkippedOnce(id: string): Answers
  {
    (x, keys) => x == id && id !in keys
  }

  lemma SkippedOnceSays(order: seq<WorkflowNode>, i: nat)
    requires UniqueIds(order) && i < |order|
    ensures forall j :: 0 <= j < |order| && j != i ==> RunsFrom(SkippedOnce(order[i].id), order[j].id, {})
    ensures RunsFrom(SkippedOnce(order[i].id), order[i].id, {order[i].id})
  {
    forall j | 0 <= j < |order| && j != i ensures order[j].id != order[i].id {
    }
  }

  /** A first pass that skips node i and is stopped by node i + 1. */
  lemma SkipsThenStops(order: seq<WorkflowNode>, i: nat) returns (w: View)
    requires UniqueIds(order) && i + 1 < |order| && order[i].conditional
    ensures ExecutedBy(Some(SkippedOnce(order[i].id)), order, true, FRESH, w)
    ensures forall j :: 0 <= j < i ==> Done(w, order[j].id)
    ensures order[i].id !in w.recorded && order[i].id in w.outputs && Live(w, order[i + 1].id)
  {
    var answers := SkippedOnce(order[i].id);
    SkippedOnceSays(order, i);
    var states := SweepTo(answers, order, FRESH, i);
    NotInOrder(order, i, 0, i);
    NotInOrder(order, i + 1, 0, i);
    var skipping := Fate(true, Succeeded, [], false);
    assert SameAt(FRESH, states[i].view, order[i].id) && SameAt(FRESH, states[i].view, order[i + 1].id);
    NoKeyBefore(answers, order, states, i);
    var next := Visits(answers, order, FRESH, states, skipping);
    assert next[i + 1].view.recorded == states[i].view.recorded;
    EndingStops(next[i + 1].view, order[i + 1], WaitingDecision);
    assert RunsFrom(answers, order[i + 1].id, {});
    w := SkipsOn(answers, order, next, i);
  }

  lemma SkipsOn(answers: Answers, order: seq<WorkflowNode>, next: seq<PassState>, i: nat) returns (w: View)
    requires UniqueIds(order) && i + 1 < |order| && Partial(answers, order, FRESH, next) && |next| == i + 2
    requires order[i + 1].id !in next[i + 1].view.recorded && RunsFrom(answers, order[i + 1].id, {})
    requires order[i].id !in next[i + 1].view.recorded && order[i].id in next[i + 1].view.outputs
    requires forall j :: 0 <= j < i ==> Done(next[i + 1].view, order[j].id)
    ensures ExecutedBy(Some(answers), order, true, FRESH, w)
    ensures forall j :: 0 <= j < i ==> Done(w, order[j].id)
    ensures order[i].id !in w.recorded && order[i].id in w.outputs && Live(w, order[i + 1].id)
  {
    hide Partial, IsPass, Follows, Visiting, Ending;
    EndingStops(next[i + 1].view, order[i + 1], WaitingDecision);
    var all := Visits(answers, order, FRESH, next, Ending(order[i + 1], WaitingDecision));
    w := Outcome(all);
    assert order[i].id != order[i + 1].id && SameAt(next[i + 1].view, w, order[i].id);
    forall j | 0 <= j < i ensures Done(w, order[j].id) {
      assert order[j].id != order[i + 1].id && SameAt(next[i + 1].view, w, order[j].id);
    }
  }

  /** A first pass gives no node a key before its visit. */
  lemma {:induction false} NoKeyBefore(answers: Answers, order: seq<WorkflowNode>, states: seq<PassState>, i: nat)
    requires UniqueIds(order) && Partial(answers, order, FRESH, states) && i < |order| && |states| <= i + 1
    ensures order[i].id !in states[|states| - 1].view.outputs
    decreases |states|
  {
    var last := |states| - 1;
    if last > 0 {
      assert MovesAt(order, map[], states, last - 1);
      var fates: Fates :| AllLikely(order, fates) && states[last] == VisitAt(states[last - 1], order[last - 1], map[], fates);
      assert order[last - 1].id != order[i].id;
      ShorterPass(answers, order, states);
      NoKeyBefore(answers, order, states[..last], i);
      KeyOfVisit(states[last - 1], order[last - 1], fates, order[i].id);
    }
  }

  lemma ShorterPass(answers: Answers, order: seq<WorkflowNode>, states: seq<PassState>)
    requires Partial(answers, order, FRESH, states) && |states| > 1
    ensures Partial(answers, order, FRESH, states[..|states| - 1])
  {
    var shorter := states[..|states| - 1];
    assert MovesAt(order, map[], states, |states| - 2);
    hide AllLikely, Visiting, VisitNew, VisitRecorded;
    forall k {:trigger MovesAt(order, map[], shorter, k)} | 0 <= k < |shorter| - 1 ensures MovesAt(order, map[], shorter, k) {
      assert MovesAt(order, map[], states, k);
    }
    forall k {:trigger FollowsAt(answers, order, shorter, k)} | 0 <= k < |shorter| - 1 ensures FollowsAt(answers, order, shorter, k) {
      assert FollowsAt(answers, order, states, k);
    }
  }

  lemma KeyOfVisit(s: PassState, node: WorkflowNode, fates: Fates, x: string)
    requires x != node.id && x !in s.view.outputs
    ensures x !in VisitAt(s, node, map[], fates).view.outputs
  {
  }

  /** Once a later child is live, the skipped node is started after all, and ends so. */
  lemma SkippedNodeStartsLate(nodes: seq<WorkflowNode>, order: seq<WorkflowNode>, i: nat, s: RunStatus) returns (vs: seq<View>)
    requires InputsUpstream(nodes) && UniqueIds(order) && i + 1 < |order| && order[i].conditional
    requires s == WaitingDecision || (s == Failed && !order[i].continueOnFailure)
    ensures IsHistory(Some(SkippedOnce(order[i].id)), nodes, order, vs) && |vs| == 3 && vs[2].status == Aggregate(s)
    ensures order[i].id in vs[2].recorded && vs[2].recorded[order[i].id] == s && Live(vs[2], order[i + 1].id)
  {
    hide *;
    var answers := SkippedOnce(order[i].id);
    SkippedOnceSays(order, i);
    var v := SkipsThenStops(order, i);
    MoreKeys(answers, order[i].id, v.outputs);
    DoneIfRecorded(order, v, i);
    var w := StopsAt(answers, order, v, i, s);
    StoppedSays(order, v, w, i, s);
    vs := [FRESH, v, w];
    ExecutedIsStep(Some(answers), nodes, order, FRESH, v);
    ExecutedIsStep(Some(answers), nodes, order, v, w);
    TwoSteps(Some(answers), nodes, order, v, w);
    StillLive(order, v, w, i);
  }

  lemma StillLive(order: seq<WorkflowNode>, v: View, w: View, i: nat)
    requires i + 1 < |order| && SameAt(v, w, order[i + 1].id) && Live(v, order[i + 1].id)
    ensures Live(w, order[i + 1].id)
  {
  }

  lemma MoreKeys(answers: Answers, id: string, outputs: set<string>)
    requires RunsFrom(answers, id, {id}) && id in outputs
    ensures RunsFrom(answers, id, outputs)
  {
  }

  lemma DoneIfRecorded(order: seq<WorkflowNode>, v: View, i: nat)
    requires i < |order| && forall j :: 0 <= j < i ==> Done(v, order[j].id)
    ensures forall j :: 0 <= j < i && order[j].id in v.recorded ==> Done(v, order[j].id)
  {
  }

  lemma TwoSteps(answers: Option<Answers>, nodes: seq<WorkflowNode>, order: seq<WorkflowNode>, v: View, w: View)
    requires TaskStep(answers, nodes, order, FRESH, v) && TaskStep(answers, nodes, order, v, w)
    ensures IsHistory(answers, nodes, order, [FRESH, v, w])
  {
    hide TaskStep;
    var vs := [FRESH, v, w];
    assert StepAt(answers, nodes, order, vs, 0) && StepAt(answers, nodes, order, vs, 1);
  }

  // ----- A failure that is continued past -----

  /** No node is ever skipped. */
  const NEVER: Answers := (x, keys) => false

  /** The task has continued past node i; everything before has succeeded and nothing after has been started. */
  ghost predicate ContinuedAt(order: seq<WorkflowNode>, v: View, i: nat)
    requires i < |order|
  {
    && order[i].id in v.continued && !v.stray
    && (forall x :: x in v.recorded ==> InOrder(order, x, 0, i + 1))
    && (forall j :: 0 <= j < i && order[j].id in v.recorded ==> Done(v, order[j].id))
  }

  /** A first pass on which node i fails as often as it may and the next one cannot be prepared. */
  lemma ContinuesAt(order: seq<WorkflowNode>, i: nat) returns (w: View)
    requires UniqueIds(order) && i < |order| && order[i].continueOnFailure
    ensures ExecutedBy(Some(NEVER), order, true, FRESH, w) && ContinuedAt(order, w, i) && NoneLive(w)
  {
    var states := SweepTo(NEVER, order, FRESH, i);
    NotInOrder(order, i, 0, i);
    assert SameAt(FRESH, states[i].view, order[i].id);
    EndingStops(states[i].view, order[i], Failed);
    hide Partial, IsPass, Follows, Ending;
    var next := Visits(NEVER, order, FRESH, states, Ending(order[i], Failed));
    var after := next[i + 1].view;
    SweptThenChanged(order, FRESH, states[i].view, after, i);
    if i + 1 < |order| {
      NotInOrder(order, i + 1, 0, i + 1);
      assert SameAt(FRESH, after, order[i + 1].id);
      NoEndings(order[i + 1]);
      var all := Visits(NEVER, order, FRESH, next, IDLE);
      w := Outcome(all);
      RaisedKeeps(order, after, w, i);
    } else {
      w := Outcome(next);
    }
    FreshlyContinued(order, after, w, i);
  }

  lemma NoEndings(node: WorkflowNode)
    ensures Proper(node, []) && PositionAfter(node, []) == At(0, 0)
  {
  }

  lemma RaisedKeeps(order: seq<WorkflowNode>, v: View, w: View, i: nat)
    requires w.recorded == AllCancelled(v.recorded)
    ensures w.recorded.Keys == v.recorded.Keys && forall x :: Done(v, x) ==> Done(w, x)
    ensures NoneLive(w)
  {
  }

  lemma FreshlyContinued(order: seq<WorkflowNode>, v: View, w: View, i: nat)
    requires i < |order| && (forall j :: 0 <= j < i ==> Done(v, order[j].id))
    requires forall x :: !InOrder(order, x, 0, i + 1) ==> SameAt(FRESH, v, x)
    requires order[i].id in v.recorded && v.recorded[order[i].id] == Failed && order[i].id in v.continued && !v.stray
    requires w.recorded.Keys == v.recorded.Keys && (forall x :: Done(v, x) ==> Done(w, x)) && w.continued == v.continued && !w.stray
    requires w.recorded == v.recorded || NoneLive(w)
    ensures ContinuedAt(order, w, i) && NoneLive(w)
  {
    forall x | x in w.recorded ensures InOrder(order, x, 0, i + 1) {
      assert InOrder(order, x, 0, i + 1) || SameAt(FRESH, v, x);
    }
    forall x | x in v.recorded ensures Terminal(v.recorded[x]) {
      assert InOrder(order, x, 0, i + 1) || SameAt(FRESH, v, x);
      var j :| 0 <= j < i + 1 && order[j].id == x;
      assert j < i ==> Done(v, order[j].id);
    }
  }

  /** Restarting at node i forgets its child, but not that its failure was continued past. */
  lemma RestartsAt(nodes: seq<WorkflowNode>, order: seq<WorkflowNode>, v: View, i: nat) returns (w: View)
    requires UniqueIds(order) && i < |order| && IdSet(order) == IdSet(nodes) && ContinuedAt(order, v, i) && NoneLive(v)
    ensures RestartedTask(nodes, v, w) && ContinuedAt(order, w, i) && order[i].id !in w.recorded
  {
    var step := order[i].id;
    assert step in IdSet(order);
    var dropped := Downstream(nodes, step);
    ReachesItself(EdgeGraph(nodes), step);
    w := v.(recorded := v.recorded - dropped, outputs := v.outputs - dropped, status := TaskRunning);
    assert RestartedWith(v, dropped, v.recorded, w);
    assert RestartedFrom(nodes, step, v, w);
  }

  /** A pass that goes past the live child of node i, up to the position behind it. */
  lemma PassesLive(order: seq<WorkflowNode>, v: View, i: nat) returns (states: seq<PassState>)
    requires UniqueIds(order) && i < |order| && order[i].id in v.continued && order[i].id in v.recorded
    requires v.recorded[order[i].id] == WaitingDecision
    requires forall j :: 0 <= j < i ==> Done(v, order[j].id)
    ensures Partial(NEVER, order, v, states) && |states| == i + 2 && Live(states[i + 1].view, order[i].id)
    ensures forall j {:trigger order[j]} :: i < j < |order| ==> SameAt(v, states[i + 1].view, order[j].id)
  {
    var swept := SweepTo(NEVER, order, v, i);
    NotInOrder(order, i, 0, i);
    assert SameAt(v, swept[i].view, order[i].id);
    states := Visits(NEVER, order, v, swept, IDLE);
    SweptThenChanged(order, v, swept[i].view, states[i + 1].view, i);
    forall j {:trigger order[j]} | i < j < |order| ensures SameAt(v, states[i + 1].view, order[j].id) {
      NotInOrder(order, j, 0, i + 1);
    }
  }

  /** The history up to the moment before the pass that goes wrong. */
  lemma ContinuedHistory(nodes: seq<WorkflowNode>, order: seq<WorkflowNode>, i: nat) returns (vs: seq<View>)
    requires InputsUpstream(nodes) && UniqueIds(order) && i < |order| && IdSet(order) == IdSet(nodes) && order[i].continueOnFailure
    ensures IsHistory(Some(NEVER), nodes, order, vs) && |vs| == 4
    ensures order[i].id in vs[3].continued && order[i].id in vs[3].recorded && vs[3].recorded[order[i].id] == WaitingDecision
    ensures forall j :: 0 <= j < i ==> Done(vs[3], order[j].id)
    ensures forall j :: i < j < |order| ==> order[j].id !in vs[3].recorded
  {
    hide *;
    var u := ContinuesAt(order, i);
    var v := RestartsAt(nodes, order, u, i);
    ContinuedSays(order, v, i);
    NeverSkips(order, v.outputs);
    var w := StopsAt(NEVER, order, v, i, WaitingDecision);
    StoppedSays(order, v, w, i, WaitingDecision);
    vs := [FRESH, u, v, w];
    ExecutedIsStep(Some(NEVER), nodes, order, FRESH, u);
    RestartedIsStep(Some(NEVER), nodes, order, u, v);
    ExecutedIsStep(Some(NEVER), nodes, order, v, w);
    ThreeSteps(Some(NEVER), nodes, order, u, v, w);
  }

  lemma NeverSkips(order: seq<WorkflowNode>, outputs: set<string>)
    ensures forall j :: 0 <= j < |order| ==> RunsFrom(NEVER, order[j].id, {}) && RunsFrom(NEVER, order[j].id, outputs)
  {
  }

  lemma ThreeSteps(answers: Option<Answers>, nodes: seq<WorkflowNode>, order: seq<WorkflowNode>, u: View, v: View, w: View)
    requires TaskStep(answers, nodes, order, FRESH, u) && TaskStep(answers, nodes, order, u, v) && TaskStep(answers, nodes, order, v, w)
    ensures IsHistory(answers, nodes, order, [FRESH, u, v, w])
  {
    hide TaskStep;
    var vs := [FRESH, u, v, w];
    assert StepAt(answers, nodes, order, vs, 0) && StepAt(answers, nodes, order, vs, 1) && StepAt(answers, nodes, order, vs, 2);
  }

  lemma ExecutedIsStep(answers: Option<Answers>, nodes: seq<WorkflowNode>, order: seq<WorkflowNode>, v: View, w: View)
    requires ExecutedBy(answers, order, InputsUpstream(nodes), v, w)
    ensures TaskStep(answers, nodes, order, v, w)
  {
    hide ExecutedBy, InputsUpstream;
  }

  lemma RestartedIsStep(answers: Option<Answers>, nodes: seq<WorkflowNode>, order: seq<WorkflowNode>, v: View, w: View)
    requires RestartedTask(nodes, v, w)
    ensures TaskStep(answers, nodes, order, v, w)
  {
    hide RestartedTask;
  }

  lemma ContinuedSays(order: seq<WorkflowNode>, v: View, i: nat)
    requires UniqueIds(order) && i < |order| && ContinuedAt(order, v, i)
    ensures order[i].id in v.continued
    ensures forall j :: 0 <= j < i && order[j].id in v.recorded ==> Done(v, order[j].id)
    ensures forall j :: i < j < |order| ==> order[j].id !in v.recorded
  {
    forall j | i < j < |order| ensures order[j].id !in v.recorded {
      NotInOrder(order, j, 0, i + 1);
    }
  }

  lemma StoppedSays(order: seq<WorkflowNode>, v: View, w: View, i: nat, s: RunStatus)
    requires UniqueIds(order) && i < |order| && StoppedAt(order, v, w, i, s)
    ensures order[i].id in w.recorded && w.recorded[order[i].id] == s && w.continued == v.continued
    ensures forall j :: 0 <= j < i ==> Done(w, order[j].id)
    ensures forall j :: i < j < |order| ==> SameAt(v, w, order[j].id)
    ensures (forall j :: i < j < |order| ==> order[j].id !in v.recorded) ==> forall j :: i < j < |order| ==> order[j].id !in w.recorded
    ensures w.status == Aggregate(s)
  {
    forall j | i < j < |order| ensures SameAt(v, w, order[j].id) {
      NotInOrder(order, j, 0, i + 1);
    }
  }

  /** One call more. */
  lemma HistoryGrows(answers: Option<Answers>, nodes: seq<WorkflowNode>, order: seq<WorkflowNode>, vs: seq<View>, w: View)
    requires IsHistory(answers, nodes, order, vs) && TaskStep(answers, nodes, order, vs[|vs| - 1], w)
    ensures IsHistory(answers, nodes, order, vs + [w])
  {
    hide TaskStep;
    var longer := vs + [w];
    forall i {:trigger StepAt(answers, nodes, order, longer, i)} | 0 <= i < |longer| - 1 ensures StepAt(answers, nodes, order, longer, i) {
      if i < |vs| - 1 {
        assert StepAt(answers, nodes, order, vs, i);
      }
    }
  }

  lemma OneMoreStep(answers: Option<Answers>, nodes: seq<WorkflowNode>, order: seq<WorkflowNode>, vs: seq<View>, w: View)
    requires InputsUpstream(nodes) && IsHistory(answers, nodes, order, vs) && ExecutedBy(answers, order, true, vs[|vs| - 1], w)
    ensures IsHistory(answers, nodes, order, vs + [w])
  {
    hide *;
    HistoryNotEmpty(answers, nodes, order, vs);
    ExecutedIsStep(answers, nodes, order, vs[|vs| - 1], w);
    HistoryGrows(answers, nodes, order, vs, w);
  }

  lemma NextNodeStartsToo(nodes: seq<WorkflowNode>, order: seq<WorkflowNode>, i: nat) returns (vs: seq<View>)
    requires InputsUpstream(nodes) && UniqueIds(order) && i + 1 < |order| && IdSet(order) == IdSet(nodes) && order[i].continueOnFailure
    ensures IsHistory(Some(NEVER), nodes, order, vs) && Live(vs[|vs| - 1], order[i].id) && Live(vs[|vs| - 1], order[i + 1].id)
  {
    hide *;
    var before := ContinuedHistory(nodes, order, i);
    var states := PassesLive(order, before[3], i);
    var w := StartsNext(order, before[3], states, i);
    OneMoreStep(Some(NEVER), nodes, order, before, w);
    vs := before + [w];
  }

  lemma StartsNext(order: seq<WorkflowNode>, v: View, states: seq<PassState>, i: nat) returns (w: View)
    requires UniqueIds(order) && i + 1 < |order| && |states| == i + 2 && Partial(NEVER, order, v, states) && order[i + 1].id !in v.recorded
    requires Live(states[i + 1].view, order[i].id) && SameAt(v, states[i + 1].view, order[i + 1].id)
    ensures ExecutedBy(Some(NEVER), order, true, v, w) && Live(w, order[i].id) && Live(w, order[i + 1].id)
  {
    hide Partial, IsPass, UniqueIds, Follows, Ending, Visiting;
    EndingStops(states[i + 1].view, order[i + 1], WaitingDecision);
    var all := Visits(NEVER, order, v, states, Ending(order[i + 1], WaitingDecision));
    w := Outcome(all);
    DifferentIds(order, i);
    assert SameAt(states[i + 1].view, w, order[i].id);
  }

  lemma DifferentIds(order: seq<WorkflowNode>, i: nat)
    requires UniqueIds(order) && i + 1 < |order|
    ensures order[i].id != order[i + 1].id
  {
  }

  lemma SucceedsWithLiveChild(nodes: seq<WorkflowNode>, order: seq<WorkflowNode>, i: nat) returns (vs: seq<View>)
    requires InputsUpstream(nodes) && UniqueIds(order) && i < |order| && IdSet(order) == IdSet(nodes) && order[i].continueOnFailure
    ensures IsHistory(Some(NEVER), nodes, order, vs) && vs[|vs| - 1].status == TaskSucceeded && Live(vs[|vs| - 1], order[i].id)
  {
    hide *;
    var before := ContinuedHistory(nodes, order, i);
    var states := PassesLive(order, before[3], i);
    var w := SweepsOut(order, before[3], states, i);
    OneMoreStep(Some(NEVER), nodes, order, before, w);
    vs := before + [w];
  }

  lemma SweepsOut(order: seq<WorkflowNode>, v: View, states: seq<PassState>, i: nat) returns (w: View)
    requires UniqueIds(order) && i < |order| && |states| == i + 2 && Partial(NEVER, order, v, states) && Live(states[i + 1].view, order[i].id)
    requires forall j {:trigger order[j]} :: i < j < |order| ==> SameAt(v, states[i + 1].view, order[j].id)
    requires forall j :: i < j < |order| ==> order[j].id !in v.recorded
    ensures ExecutedBy(Some(NEVER), order, true, v, w) && w.status == TaskSucceeded && Live(w, order[i].id)
  {
    forall j | i < j < |order| ensures order[j].id !in states[i + 1].view.recorded {
      assert SameAt(v, states[i + 1].view, order[j].id);
    }
    NeverSkips(order, {});
    var all := Sweeps(NEVER, order, v, states, |order|);
    NotInOrder(order, i, i + 1, |order|);
    assert SameAt(states[i + 1].view, all[|order|].view, order[i].id);
    PartialIsPass(NEVER, order, v, all);
    w := Outcome(all);
  }

  lemma PartialIsPass(answers: Answers, order: seq<WorkflowNode>, v: View, states: seq<PassState>)
    requires Partial(answers, order, v, states) && |states| == |order| + 1
    ensures IsPass(order, map[], v, states) && Follows(Some(answers), order, states) && Outcome(states) == states[|order|].view.(status := TaskSucceeded)
  {
  }

  // ----- The two theorems -----

  /** A plan whose input references are out of order never gets to start a child. */
  lemma {:induction false} RefusedStartsNothing(answers: Option<Answers>, nodes: seq<WorkflowNode>, order: seq<WorkflowNode>, vs: seq<View>, i: nat)
    requires !InputsUpstream(nodes) && IsHistory(answers, nodes, order, vs) && i < |vs|
    ensures vs[i].recorded == map[] && !vs[i].stray
  {
    hide InputsUpstream, TaskStep;
    if i > 0 {
      RefusedStartsNothing(answers, nodes, order, vs, i - 1);
      assert StepAt(answers, nodes, order, vs, i - 1);
      RefusedStep(answers, nodes, order, vs[i - 1], vs[i]);
    }
  }

  lemma RefusedStep(answers: Option<Answers>, nodes: seq<WorkflowNode>, order: seq<WorkflowNode>, v: View, w: View)
    requires !InputsUpstream(nodes) && TaskStep(answers, nodes, order, v, w) && v.recorded == map[] && !v.stray
    ensures w.recorded == map[] && !w.stray
  {
    hide InputsUpstream, Downstream;
    if RestartedTask(nodes, v, w) {
      var step :| RestartedFrom(nodes, step, v, w);
      var recorded :| RestartedWith(v, Downstream(nodes, step), recorded, w);
    }
  }

  /** Over all histories, a task on a plan without parallel groups never has two live children if and only if no node but
      the last in order has a condition or continues after a failure, or the plan is refused for its input references.
      That it never happens holds even if a condition says something else each time; that it can happen does not need
      more than conditions which depend on the keys of the outputs. */
  lemma SingleChild(nodes: seq<WorkflowNode>, order: seq<WorkflowNode>)
    requires IsDepthOrder(nodes, order) && Closed(DependencyGraph(nodes)) && Acyclic(DependencyGraph(nodes))
    ensures (InputsUpstream(nodes) ==> OnlyLastSpecial(order)) ==>
      forall answers, vs, i :: IsHistory(answers, nodes, order, vs) && 0 <= i < |vs| ==> AtMostOneLive(vs[i])
    ensures (InputsUpstream(nodes) ==> OnlyLastSpecial(order)) <==>
      forall answers: Answers, vs, i :: IsHistory(Some(answers), nodes, order, vs) && 0 <= i < |vs| ==> AtMostOneLive(vs[i])
  {
    hide *;
    OrderOfPlan(nodes, order);
    if InputsUpstream(nodes) ==> OnlyLastSpecial(order) {
      forall answers, vs, i | IsHistory(answers, nodes, order, vs) && 0 <= i < |vs| ensures AtMostOneLive(vs[i]) {
        HistoryIsSingle(answers, nodes, order, vs, i);
      }
    } else {
      var i := SpecialNode(order);
      var vs: seq<View>;
      var answers: Answers := NEVER;
      if order[i].conditional {
        answers := SkippedOnce(order[i].id);
        vs := SkippedNodeStartsLate(nodes, order, i, WaitingDecision);
        AlsoLive(vs[2], order[i].id);
      } else {
        vs := NextNodeStartsToo(nodes, order, i);
      }
      HistoryNotEmpty(Some(answers), nodes, order, vs);
      TwoLive(order, vs[|vs| - 1], i, i + 1);
      assert IsHistory(Some(answers), nodes, order, vs) && !AtMostOneLive(vs[|vs| - 1]);
    }
  }

  lemma HistoryIsSingle(answers: Option<Answers>, nodes: seq<WorkflowNode>, order: seq<WorkflowNode>, vs: seq<View>, i: nat)
    requires UniqueIds(order) && IsHistory(answers, nodes, order, vs) && i < |vs| && (InputsUpstream(nodes) ==> OnlyLastSpecial(order))
    ensures AtMostOneLive(vs[i])
    ensures (InputsUpstream(nodes) ==> NoneContinues(order)) ==> OverMeansIdle(vs[i])
  {
    hide *;
    if InputsUpstream(nodes) {
      HistoryStaysOrderly(answers, nodes, order, vs, i);
      OrderlyIsSingle(order, vs[i]);
    } else {
      RefusedStartsNothing(answers, nodes, order, vs, i);
      NothingRecorded(vs[i]);
    }
  }

  lemma OrderOfPlan(nodes: seq<WorkflowNode>, order: seq<WorkflowNode>)
    requires IsDepthOrder(nodes, order) && Closed(DependencyGraph(nodes)) && Acyclic(DependencyGraph(nodes))
    ensures UniqueIds(order) && IdSet(order) == IdSet(nodes)
  {
    DepthOrderIsLayered(nodes, order);
  }

  lemma SpecialNode(order: seq<WorkflowNode>) returns (i: nat)
    requires !OnlyLastSpecial(order)
    ensures i + 1 < |order| && (order[i].conditional || order[i].continueOnFailure)
  {
    i :| 0 <= i < |order| - 1 && (order[i].conditional || order[i].continueOnFailure);
  }

  lemma AlsoLive(v: View, n: string)
    requires n in v.recorded && v.recorded[n] == WaitingDecision
    ensures Live(v, n)
  {
  }

  lemma HistoryNotEmpty(answers: Option<Answers>, nodes: seq<WorkflowNode>, order: seq<WorkflowNode>, vs: seq<View>)
    requires IsHistory(answers, nodes, order, vs)
    ensures vs != []
  {
  }

  lemma NothingRecorded(v: View)
    requires v.recorded == map[] && !v.stray
    ensures AtMostOneLive(v) && OverMeansIdle(v)
  {
  }

  lemma TwoLive(order: seq<WorkflowNode>, v: View, i: nat, j: nat)
    requires UniqueIds(order) && i < j < |order| && Live(v, order[i].id) && Live(v, order[j].id)
    ensures !AtMostOneLive(v)
  {
  }

  /** Over all histories, a task that is over has no live child if and only if no node continues after a failure and only
      the last in order has a condition, or the plan is refused for its input references. */
  lemma OverHasNoLiveChild(nodes: seq<WorkflowNode>, order: seq<WorkflowNode>)
    requires IsDepthOrder(nodes, order) && Closed(DependencyGraph(nodes)) && Acyclic(DependencyGraph(nodes))
    ensures (InputsUpstream(nodes) ==> NoneContinues(order)) ==>
      forall answers, vs, i :: IsHistory(answers, nodes, order, vs) && 0 <= i < |vs| ==> OverMeansIdle(vs[i])
    ensures (InputsUpstream(nodes) ==> NoneContinues(order)) <==>
      forall answers: Answers, vs, i :: IsHistory(Some(answers), nodes, order, vs) && 0 <= i < |vs| ==> OverMeansIdle(vs[i])
  {
    hide *;
    OrderOfPlan(nodes, order);
    if InputsUpstream(nodes) ==> NoneContinues(order) {
      if InputsUpstream(nodes) {
        ContinuesOrLast(order);
      }
      forall answers, vs, i | IsHistory(answers, nodes, order, vs) && 0 <= i < |vs| ensures OverMeansIdle(vs[i]) {
        HistoryIsSingle(answers, nodes, order, vs, i);
      }
    } else {
      var i := ContinuingNode(order);
      var vs: seq<View>;
      var answers: Answers := NEVER;
      if order[i].continueOnFailure {
        vs := SucceedsWithLiveChild(nodes, order, i);
        HistoryNotEmpty(Some(answers), nodes, order, vs);
        OverButLive(vs[|vs| - 1], order[i].id);
      } else {
        answers := SkippedOnce(order[i].id);
        vs := SkippedNodeStartsLate(nodes, order, i, Failed);
        OverButLive(vs[2], order[i + 1].id);
      }
      HistoryNotEmpty(Some(answers), nodes, order, vs);
      assert IsHistory(Some(answers), nodes, order, vs) && !OverMeansIdle(vs[|vs| - 1]);
    }
  }

  lemma ContinuesOrLast(order: seq<WorkflowNode>)
    requires NoneContinues(order)
    ensures OnlyLastSpecial(order)
  {
  }

  lemma ContinuingNode(order: seq<WorkflowNode>) returns (i: nat)
    requires !NoneContinues(order)
    ensures i < |order| && (order[i].continueOnFailure || (order[i].conditional && i + 1 < |order|))
  {
    if j :| 0 <= j < |order| && order[j].continueOnFailure {
      i := j;
    } else {
      i := SpecialNode(order);
    }
  }

  lemma OverButLive(v: View, n: string)
    requires Live(v, n) && (v.status == TaskSucceeded || v.status == Aggregate(Failed))
    ensures !OverMeansIdle(v)
  {
  }
}
