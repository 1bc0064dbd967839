/** One pass of a task over its plan, seen from the plan: what each visit of a node does to the task. */
module Passes {
  import opened Ids
  import opened Graphs
  import opened Workflows
  import opened TaskPlans
  import opened PlanChecks
  import opened Batches

  datatype TaskStatus =
    | TaskRunning | WaitingChild | DecisionPending | ReconcilePending | TaskSucceeded | TaskFailed | TaskCancelled

  predicate Over(s: TaskStatus)
  {
    s == TaskSucceeded || s == TaskFailed || s == TaskCancelled
  }

  function Aggregate(s: RunStatus): TaskStatus
  {
    match s
    case WaitingDecision => DecisionPending
    case WaitingReconcile => ReconcilePending
    case Recovering => ReconcilePending
    case Paused => ReconcilePending
    case Cancelled => TaskCancelled
    case Failed => TaskFailed
    case _ => WaitingChild
  }

  // ----- The attempts of one node -----

  const MOST_ATTEMPTS := 5
  const MOST_ITERATIONS := 20

  function Clamped(x: int, most: nat): nat
    requires most >= 1
  {
    if x < 1 then 1 else if x > most then most else x
  }

  function AttemptLimit(node: WorkflowNode): nat
  {
    Clamped(node.maxAttempts, MOST_ATTEMPTS)
  }

  function IterationLimit(node: WorkflowNode): nat
  {
    Clamped(node.maxIterations, MOST_ITERATIONS)
  }

  /** Where the loops over iterations and attempts are. */
  datatype Position = At(iteration: nat, attempt: nat) | Finished | Stopped(status: RunStatus)

  /** After a child ended so: on to the next iteration, the next attempt, or out of the loops. */
  function Moved(node: WorkflowNode, p: Position, ending: RunStatus): Position
  {
    match p
    case At(i, a) =>
      if ending == Succeeded then (if i + 1 >= IterationLimit(node) then Finished else At(i + 1, 0))
      else if ending != Failed || a + 1 >= AttemptLimit(node) then Stopped(ending)
      else At(i, a + 1)
    case _ => p
  }

  function PositionAfter(node: WorkflowNode, endings: seq<RunStatus>): Position
  {
    if endings == [] then At(0, 0)
    else Moved(node, PositionAfter(node, endings[..|endings| - 1]), endings[|endings| - 1])
  }

  /** The endings of the children that one visit of a node starts: a drive can end so, and the visit starts no more once it
      is out of the loops. */
  ghost predicate Proper(node: WorkflowNode, endings: seq<RunStatus>)
  {
    && (forall k {:trigger endings[..k]} :: 0 <= k < |endings| ==> PositionAfter(node, endings[..k]).At?)
    && (forall k :: 0 <= k < |endings| ==> Blocked(endings[k]))
  }

  lemma ProperPrefix(node: WorkflowNode, endings: seq<RunStatus>)
    requires Proper(node, endings) && endings != []
    ensures Proper(node, endings[..|endings| - 1]) && PositionAfter(node, endings[..|endings| - 1]).At?
  {
    var front := endings[..|endings| - 1];
    forall k | 0 <= k < |front| ensures PositionAfter(node, front[..k]).At? {
      assert front[..k] == endings[..k];
    }
  }

  lemma {:induction false} AttemptsFit(node: WorkflowNode, endings: seq<RunStatus>)
    requires Proper(node, endings)
    ensures var p := PositionAfter(node, endings);
      && (p.At? ==> p.iteration < IterationLimit(node) && p.attempt < AttemptLimit(node))
      && (p.At? ==> |endings| <= p.iteration * AttemptLimit(node) + p.attempt)
      && |endings| <= IterationLimit(node) * AttemptLimit(node)
  {
    var i, a := IterationLimit(node), AttemptLimit(node);
    if endings == [] {
      assert i * a >= 0;
    } else {
      ProperPrefix(node, endings);
      AttemptsFit(node, endings[..|endings| - 1]);
      var before := PositionAfter(node, endings[..|endings| - 1]);
      assert (before.iteration + 1) * a == before.iteration * a + a;
      RowFits(before.iteration, i, a);
    }
  }

  lemma RowFits(row: nat, rows: nat, width: nat)
    requires row < rows
    ensures (row + 1) * width <= rows * width
  {
  }

  lemma {:induction false} EndingsBeforeLast(node: WorkflowNode, endings: seq<RunStatus>, k: nat)
    requires Proper(node, endings) && k + 1 < |endings|
    ensures endings[k] == Succeeded || endings[k] == Failed
  {
    assert endings[..k + 1][..k] == endings[..k];
    assert PositionAfter(node, endings[..k + 1]).At?;
  }

  /** One visit starts at most attempts times iterations children, never more than 100, and each but the last of them
      has ended succeeded or failed. */
  lemma AttemptsBounded(node: WorkflowNode, endings: seq<RunStatus>)
    requires Proper(node, endings)
    ensures |endings| <= AttemptLimit(node) * IterationLimit(node) <= 100
    ensures forall k :: 0 <= k < |endings| - 1 ==> endings[k] == Succeeded || endings[k] == Failed
  {
    AttemptsFit(node, endings);
    var i, a := IterationLimit(node), AttemptLimit(node);
    assert i * a <= 20 * a <= 20 * 5 by {
      RowsFit(i, 20, a);
    }
    forall k | 0 <= k < |endings| - 1 ensures endings[k] == Succeeded || endings[k] == Failed {
      EndingsBeforeLast(node, endings, k);
    }
  }

  lemma RowsFit(few: nat, many: nat, width: nat)
    requires few <= many
    ensures few * width <= many * width
  {
  }

  /** A visit that got through its loops ended with a success; one that stopped ended as it says. */
  lemma LastEnding(node: WorkflowNode, endings: seq<RunStatus>)
    requires Proper(node, endings) && !PositionAfter(node, endings).At?
    ensures endings != [] && var last := endings[|endings| - 1];
      && (PositionAfter(node, endings).Finished? ==> last == Succeeded)
      && (PositionAfter(node, endings).Stopped? ==> last == PositionAfter(node, endings).status && last != Succeeded)
  {
    ProperPrefix(node, endings);
  }

  // ----- Visits -----

  /** What the outside contributes to the visit of one node: what its condition says, how a child that is still running
      ends, how the children it starts end (a further start would raise), and whether they report outputs. */
  datatype Fate = Fate(skips: bool, driven: RunStatus, endings: seq<RunStatus>, reports: bool)

  type Fates = string -> Fate

  ghost predicate Likely(node: WorkflowNode, fate: Fate)
  {
    Proper(node, fate.endings) && Blocked(fate.driven)
  }

  ghost predicate AllLikely(nodes: seq<WorkflowNode>, fates: Fates)
  {
    forall n :: n in nodes ==> Likely(n, fates(n.id))
  }

  /** A task as its plan sees it: the status of each node's recorded child, whether a live child is no longer recorded,
      the keys of its outputs, the nodes whose failure it has continued past, and its status. */
  datatype View = View(
    recorded: map<string, RunStatus>, stray: bool, outputs: set<string>, continued: set<string>, status: TaskStatus)

  datatype Move = Move(view: View, goes: bool)

  function Reported(outputs: set<string>, id: string, reports: bool): set<string>
  {
    if reports then outputs + {id} else outputs
  }

  function AllCancelled(recorded: map<string, RunStatus>): map<string, RunStatus>
  {
    map n | n in recorded :: if Terminal(recorded[n]) then recorded[n] else Cancelled
  }

  /** What an exception does: every recorded live child is cancelled, and the task fails. */
  function Raised(v: View): View
  {
    v.(recorded := AllCancelled(v.recorded), status := TaskFailed)
  }

  predicate ContinuesPast(node: WorkflowNode, ending: RunStatus)
  {
    node.continueOnFailure && (ending == Failed || ending == Cancelled)
  }

  /** A node with a recorded child. A child that is still running is driven first. */
  function VisitRecorded(v: View, node: WorkflowNode, fate: Fate): Move
    requires node.id in v.recorded
  {
    var status := if Drivable(v.recorded[node.id]) then fate.driven else v.recorded[node.id];
    var seen := v.(recorded := v.recorded[node.id := status]);
    if status == Succeeded then Move(seen.(outputs := v.outputs + {node.id}), true)
    else if node.id in v.continued || ContinuesPast(node, status) then
      Move(seen.(outputs := v.outputs + {node.id}, continued := v.continued + {node.id}), true)
    else
      Move(seen.(outputs := Reported(v.outputs, node.id, fate.reports), status := Aggregate(status)), false)
  }

  predicate Skipped(node: WorkflowNode, fate: Fate)
  {
    node.conditional && fate.skips
  }

  function Recorded(recorded: map<string, RunStatus>, node: WorkflowNode, fate: Fate): map<string, RunStatus>
  {
    if Skipped(node, fate) || fate.endings == [] then recorded
    else recorded[node.id := fate.endings[|fate.endings| - 1]]
  }

  /** A node without a recorded child: skipped by its condition, or started, retried and repeated. */
  function VisitNew(v: View, node: WorkflowNode, fate: Fate): Move
  {
    if Skipped(node, fate) then Move(v.(outputs := v.outputs + {node.id}), true)
    else
      var started := v.(recorded := Recorded(v.recorded, node, fate));
      match PositionAfter(node, fate.endings)
      case At(_, _) => Move(Raised(started.(outputs := Reported(v.outputs, node.id, fate.reports))), false)
      case Finished => Move(started.(outputs := v.outputs + {node.id}), true)
      case Stopped(ending) =>
        if ContinuesPast(node, ending) then
          Move(started.(outputs := v.outputs + {node.id}, continued := v.continued + {node.id}), true)
        else
          Move(started.(outputs := Reported(v.outputs, node.id, fate.reports), status := Aggregate(ending)), false)
  }

  // ----- Visits of a parallel batch -----

  predicate Raises(node: WorkflowNode, fate: Fate)
  {
    !Skipped(node, fate) && PositionAfter(node, fate.endings).At?
  }

  /** The member ended without success, and in a batch that counts as a failure whatever it ended with. */
  predicate FallsShort(node: WorkflowNode, fate: Fate)
  {
    !Skipped(node, fate) && PositionAfter(node, fate.endings).Stopped?
  }

  predicate SomeRaises(u: Unit, fates: Fates)
  {
    exists n :: n in u && Raises(n, fates(n.id))
  }

  /** How the first member that stops the batch ended. */
  function FirstFailure(u: Unit, fates: Fates): Option<RunStatus>
  {
    if u == [] then None
    else if FallsShort(u[0], fates(u[0].id)) && !u[0].continueOnFailure then
      Some(PositionAfter(u[0], fates(u[0].id).endings).status)
    else FirstFailure(u[1..], fates)
  }

  function RecordAll(recorded: map<string, RunStatus>, u: Unit, fates: Fates): map<string, RunStatus>
    decreases |u|
  {
    if u == [] then recorded
    else RecordAll(Recorded(recorded, u[0], fates(u[0].id)), u[1..], fates)
  }

  function ContinuedIn(u: Unit, fates: Fates): set<string>
  {
    set n | n in u && n.continueOnFailure && FallsShort(n, fates(n.id)) :: n.id
  }

  function ReportedIn(u: Unit, fates: Fates): set<string>
  {
    set n | n in u && (Skipped(n, fates(n.id)) || fates(n.id).reports || n.id in ContinuedIn(u, fates)) :: n.id
  }

  /** All members are started. If one raises or falls short the children of this visit are cancelled and forgotten. */
  function VisitBatch(v: View, u: Unit, fates: Fates): Move
  {
    if SomeRaises(u, fates) then Move(Raised(v), false)
    else
      match FirstFailure(u, fates)
      case Some(ending) =>
        Move(v.(outputs := v.outputs + ReportedIn(u, fates), status := Aggregate(ending)), false)
      case None =>
        Move(v.(recorded := RecordAll(v.recorded, u, fates), outputs := v.outputs + IdSet(u),
                continued := v.continued + ContinuedIn(u, fates)), true)
  }

  // ----- A pass -----

  /** A visited unit, the keys of the outputs that its inputs were resolved against, and the members that were skipped. */
  datatype Visit = Visit(unit: Unit, outputs: set<string>, skipped: set<string>)

  function SkippedIn(u: Unit, fates: Fates): set<string>
  {
    set n | n in u && Skipped(n, fates(n.id)) :: n.id
  }

  /** A condition has skipped the node in this pass. */
  ghost predicate WasSkipped(visits: seq<Visit>, id: string)
  {
    exists j :: 0 <= j < |visits| && id in visits[j].skipped
  }

  /** skip holds the members of the batches that this pass has completed. */
  datatype PassState = PassState(view: View, skip: set<string>, visits: seq<Visit>, running: bool)

  function VisitAt(s: PassState, node: WorkflowNode, heads: map<string, Unit>, fates: Fates): PassState
  {
    if node.id in s.skip then s
    else if node.id in heads && Intact(heads[node.id], s.view.recorded.Keys) then
      var u := heads[node.id];
      var move := VisitBatch(s.view, u, fates);
      PassState(move.view, s.skip + IdSet(u), s.visits + [Visit(u, s.view.outputs, SkippedIn(u, fates))], move.goes)
    else
      var move := if node.id in s.view.recorded then VisitRecorded(s.view, node, fates(node.id))
                  else VisitNew(s.view, node, fates(node.id));
      var skipped := if node.id in s.view.recorded then {} else SkippedIn([node], fates);
      PassState(move.view, s.skip, s.visits + [Visit([node], s.view.outputs, skipped)], move.goes)
  }

  ghost predicate Moves(order: seq<WorkflowNode>, heads: map<string, Unit>, s: PassState, node: WorkflowNode, t: PassState)
  {
    s.running && exists fates: Fates :: AllLikely(order, fates) && t == VisitAt(s, node, heads, fates)
  }

  ghost predicate MovesAt(order: seq<WorkflowNode>, heads: map<string, Unit>, states: seq<PassState>, k: int)
    requires 0 <= k < |states| - 1 && |states| <= |order| + 1
  {
    Moves(order, heads, states[k], order[k], states[k + 1])
  }

  /** The states a pass goes through: one after each position of the order, until it stops. */
  ghost predicate IsPass(order: seq<WorkflowNode>, heads: map<string, Unit>, v: View, states: seq<PassState>)
  {
    && 1 <= |states| <= |order| + 1
    && states[0] == PassState(v, {}, [], true)
    && (forall k {:trigger MovesAt(order, heads, states, k)} :: 0 <= k < |states| - 1 ==> MovesAt(order, heads, states, k))
    && (states[|states| - 1].running ==> |states| == |order| + 1)
  }

  /** A pass that got through the whole order has succeeded. */
  function Outcome(states: seq<PassState>): View
    requires states != []
  {
    var last := states[|states| - 1];
    if last.running then last.view.(status := TaskSucceeded) else last.view
  }

  function Units(visits: seq<Visit>): seq<Unit>
  {
    seq(|visits|, i requires 0 <= i < |visits| => visits[i].unit)
  }

  // ----- Success is sound -----

  /** The node has succeeded, was skipped by its condition, or may fail without stopping the task. */
  predicate EndsWell(node: WorkflowNode, recorded: map<string, RunStatus>, skipped: bool)
  {
    || (node.id in recorded && recorded[node.id] == Succeeded)
    || (node.id !in recorded && skipped)
    || node.continueOnFailure
  }

  /** Only nodes marked to continue have been continued past. */
  ghost predicate ContinuedMarked(order: seq<WorkflowNode>, continued: set<string>)
  {
    forall n :: n in order && n.id in continued ==> n.continueOnFailure
  }

  ghost predicate HeadsWithin(order: seq<WorkflowNode>, heads: map<string, Unit>)
  {
    forall h, n :: h in heads && n in heads[h] ==> n in order
  }

  lemma VisitRecordedEndsWell(v: View, node: WorkflowNode, fate: Fate, n: WorkflowNode, skipped: bool)
    requires node.id in v.recorded && VisitRecorded(v, node, fate).goes
    requires node.id in v.continued ==> node.continueOnFailure
    requires n.id == node.id ==> n == node
    ensures n == node || EndsWell(n, v.recorded, skipped) ==> EndsWell(n, VisitRecorded(v, node, fate).view.recorded, skipped)
  {
  }

  lemma VisitNewEndsWell(v: View, node: WorkflowNode, fate: Fate, n: WorkflowNode, skipped: bool)
    requires node.id !in v.recorded && Likely(node, fate) && VisitNew(v, node, fate).goes
    requires n.id == node.id ==> n == node
    ensures n == node || EndsWell(n, v.recorded, skipped) ==>
      EndsWell(n, VisitNew(v, node, fate).view.recorded, skipped || (n == node && Skipped(node, fate)))
  {
    if !Skipped(node, fate) {
      LastEnding(node, fate.endings);
    }
  }

  lemma {:induction false} RecordAllAt(recorded: map<string, RunStatus>, u: Unit, fates: Fates, x: string)
    requires UniqueIds(u)
    ensures var r := RecordAll(recorded, u, fates);
      (forall n :: n in u ==> n.id != x) ==> (x in r <==> x in recorded) && (x in r ==> r[x] == recorded[x])
    ensures forall n :: n in u && n.id == x ==>
      var r, fate := RecordAll(recorded, u, fates), fates(x);
      if Skipped(n, fate) || fate.endings == [] then (x in r <==> x in recorded) && (x in r ==> r[x] == recorded[x])
      else x in r && r[x] == fate.endings[|fate.endings| - 1]
    decreases |u|
  {
    if u != [] {
      assert UniqueIds(u[1..]);
      RecordAllAt(Recorded(recorded, u[0], fates(u[0].id)), u[1..], fates, x);
      forall n | n in u && n.id == x ensures n == u[0] || n in u[1..] {
      }
      if u[0].id == x {
        forall n | n in u[1..] ensures n.id != x {
          var i :| 0 <= i < |u[1..]| && u[1..][i] == n;
          assert u[i + 1].id != u[0].id;
        }
      }
    }
  }

  lemma {:induction false} NoFailure(u: Unit, fates: Fates, n: WorkflowNode)
    requires n in u && FirstFailure(u, fates) == None && FallsShort(n, fates(n.id))
    ensures n.continueOnFailure
  {
    if n != u[0] {
      NoFailure(u[1..], fates, n);
    }
  }

  lemma VisitBatchEndsWell(v: View, u: Unit, fates: Fates, n: WorkflowNode, skipped: bool)
    requires UniqueIds(u) && Intact(u, v.recorded.Keys) && VisitBatch(v, u, fates).goes
    requires forall m :: m in u ==> Likely(m, fates(m.id)) && (m.id == n.id ==> m == n)
    ensures n in u || EndsWell(n, v.recorded, skipped) ==>
      EndsWell(n, VisitBatch(v, u, fates).view.recorded, skipped || (n in u && Skipped(n, fates(n.id))))
  {
    RecordAllAt(v.recorded, u, fates, n.id);
    if n in u && !Skipped(n, fates(n.id)) {
      LastEnding(n, fates(n.id).endings);
      if FallsShort(n, fates(n.id)) {
        NoFailure(u, fates, n);
      }
    }
  }

  ghost predicate AllEndWell(nodes: seq<WorkflowNode>, done: set<string>, s: PassState)
  {
    forall n :: n in nodes && n.id in done ==> EndsWell(n, s.view.recorded, WasSkipped(s.visits, n.id))
  }

  /** What the head map must be like: batches of nodes of the order, none with an id twice. */
  ghost predicate HeadsFit(order: seq<WorkflowNode>, heads: map<string, Unit>)
  {
    UniqueIds(order) && HeadsWithin(order, heads) && HeadsNamed(heads) && forall h :: h in heads ==> UniqueIds(heads[h])
  }

  /** After a visit that goes on, its own nodes end well and all others as well as before. */
  lemma VisitEndsWell(order: seq<WorkflowNode>, heads: map<string, Unit>, s: PassState, node: WorkflowNode, fates: Fates, n: WorkflowNode)
    requires HeadsFit(order, heads) && node in order && n in order && AllLikely(order, fates) && node.id !in s.skip
    requires node.id in s.view.continued ==> node.continueOnFailure
    requires VisitAt(s, node, heads, fates).running
    requires n.id == node.id || n.id in VisitAt(s, node, heads, fates).skip - s.skip
      || EndsWell(n, s.view.recorded, WasSkipped(s.visits, n.id))
    ensures var t := VisitAt(s, node, heads, fates); EndsWell(n, t.view.recorded, WasSkipped(t.visits, n.id))
  {
    hide EndsWell, VisitBatch, VisitNew, VisitRecorded, Likely, Skipped, WasSkipped;
    var skipped := WasSkipped(s.visits, n.id);
    if n.id == node.id {
      SameId(order, n, node);
    }
    if node.id in heads && Intact(heads[node.id], s.view.recorded.Keys) {
      var u := heads[node.id];
      assert u[0].id == node.id && u[0] in u;
      forall m | m in u ensures Likely(m, fates(m.id)) && (m.id == n.id ==> m == n) {
        if m.id == n.id {
          SameId(order, m, n);
        }
      }
      VisitBatchEndsWell(s.view, u, fates, n, skipped);
      LogsSkip(s.visits, Visit(u, s.view.outputs, SkippedIn(u, fates)), n.id);
      MoreSkipped(n, VisitBatch(s.view, u, fates).view.recorded, skipped || (n in u && Skipped(n, fates(n.id))),
                  WasSkipped(s.visits + [Visit(u, s.view.outputs, SkippedIn(u, fates))], n.id));
    } else if node.id in s.view.recorded {
      VisitRecordedEndsWell(s.view, node, fates(node.id), n, skipped);
      LogsSkip(s.visits, Visit([node], s.view.outputs, {}), n.id);
    } else {
      VisitNewEndsWell(s.view, node, fates(node.id), n, skipped);
      LogsSkip(s.visits, Visit([node], s.view.outputs, SkippedIn([node], fates)), n.id);
      assert node in [node];
      MoreSkipped(n, VisitNew(s.view, node, fates(node.id)).view.recorded, skipped || (n == node && Skipped(node, fates(node.id))),
                  WasSkipped(s.visits + [Visit([node], s.view.outputs, SkippedIn([node], fates))], n.id));
    }
  }

  lemma LogsSkip(visits: seq<Visit>, v: Visit, id: string)
    ensures WasSkipped(visits + [v], id) <==> WasSkipped(visits, id) || id in v.skipped
  {
    if WasSkipped(visits, id) {
      var j :| 0 <= j < |visits| && id in visits[j].skipped;
      assert (visits + [v])[j] == visits[j];
    }
    if id in v.skipped {
      assert (visits + [v])[|visits|] == v;
    }
  }

  lemma MoreSkipped(n: WorkflowNode, recorded: map<string, RunStatus>, less: bool, more: bool)
    requires EndsWell(n, recorded, less) && (less ==> more)
    ensures EndsWell(n, recorded, more)
  {
  }

  lemma MoveEndsWell(order: seq<WorkflowNode>, heads: map<string, Unit>, s: PassState, k: nat, t: PassState)
    requires k < |order| && HeadsFit(order, heads) && Moves(order, heads, s, order[k], t) && t.running
    requires ContinuedMarked(order, s.view.continued)
    requires AllEndWell(order, IdSet(order[..k]) + s.skip, s)
    ensures ContinuedMarked(order, t.view.continued)
    ensures AllEndWell(order, IdSet(order[..k + 1]) + t.skip, t)
  {
    var node := order[k];
    var fates: Fates :| AllLikely(order, fates) && t == VisitAt(s, node, heads, fates);
    OneMoreId(order, k);
    forall n | n in order && n.id in t.view.continued ensures n.continueOnFailure {
      MoveContinues(order, heads, s, k, fates, n);
    }
    if node.id !in s.skip {
      hide VisitAt, EndsWell, AllLikely, HeadsFit, WasSkipped;
      forall n | n in order && n.id in IdSet(order[..k + 1]) + t.skip
        ensures EndsWell(n, t.view.recorded, WasSkipped(t.visits, n.id))
      {
        VisitEndsWell(order, heads, s, node, fates, n);
      }
    }
  }

  lemma MoveContinues(order: seq<WorkflowNode>, heads: map<string, Unit>, s: PassState, k: nat, fates: Fates, n: WorkflowNode)
    requires k < |order| && HeadsFit(order, heads) && ContinuedMarked(order, s.view.continued) && n in order
    requires n.id in VisitAt(s, order[k], heads, fates).view.continued
    ensures n.continueOnFailure
  {
    var node := order[k];
    if n.id !in s.view.continued {
      if node.id in heads && Intact(heads[node.id], s.view.recorded.Keys) {
        var m :| m in heads[node.id] && m.continueOnFailure && m.id == n.id;
        SameId(order, m, n);
      } else {
        SameId(order, node, n);
      }
    }
  }

  lemma OneMoreId(order: seq<WorkflowNode>, k: nat)
    requires k < |order|
    ensures IdSet(order[..k + 1]) == IdSet(order[..k]) + {order[k].id}
  {
    assert order[..k + 1] == order[..k] + [order[k]];
    AppendedIds(order[..k], [order[k]]);
    assert IdSet([order[k]]) == {order[k].id} by {
      assert [order[k]][0].id in IdSet([order[k]]);
    }
  }

  lemma {:induction false} RunningEndsWell(order: seq<WorkflowNode>, heads: map<string, Unit>, v: View, states: seq<PassState>, k: nat)
    requires HeadsFit(order, heads) && IsPass(order, heads, v, states) && ContinuedMarked(order, v.continued)
    requires k < |states| && states[k].running
    ensures ContinuedMarked(order, states[k].view.continued)
    ensures AllEndWell(order, IdSet(order[..k]) + states[k].skip, states[k])
  {
    hide HeadsFit, ContinuedMarked, Moves, WasSkipped;
    if k > 0 {
      assert MovesAt(order, heads, states, k - 1);
      assert states[k - 1].running by {
        StillRunning(order, heads, states[k - 1], order[k - 1], states[k]);
      }
      RunningEndsWell(order, heads, v, states, k - 1);
      MoveEndsWell(order, heads, states[k - 1], k - 1, states[k]);
    }
  }

  lemma StillRunning(order: seq<WorkflowNode>, heads: map<string, Unit>, s: PassState, node: WorkflowNode, t: PassState)
    requires Moves(order, heads, s, node, t)
    ensures s.running && (!t.running ==> t.view.status != TaskSucceeded)
  {
  }

  /** A task succeeds only if each node has a succeeded child, has none because this pass has skipped it by its condition,
      or may fail. */
  lemma SuccessIsSound(order: seq<WorkflowNode>, heads: map<string, Unit>, v: View, states: seq<PassState>, n: WorkflowNode)
    requires HeadsFit(order, heads) && IsPass(order, heads, v, states) && ContinuedMarked(order, v.continued)
    requires Outcome(states).status == TaskSucceeded && n in order
    ensures EndsWell(n, Outcome(states).recorded, WasSkipped(states[|states| - 1].visits, n.id))
  {
    hide HeadsFit, ContinuedMarked, Moves, EndsWell, WasSkipped;
    var last := |states| - 1;
    if !states[last].running {
      assert MovesAt(order, heads, states, last - 1);
      StillRunning(order, heads, states[last - 1], order[last - 1], states[last]);
      assert false;
    }
    RunningEndsWell(order, heads, v, states, last);
    assert order[..last] == order;
    var i :| 0 <= i < |order| && order[i] == n;
    assert n.id in IdSet(order);
  }

  /** Only a condition skips. */
  lemma {:induction false} OnlyConditionsSkip(order: seq<WorkflowNode>, heads: map<string, Unit>, v: View, states: seq<PassState>, k: nat, n: WorkflowNode)
    requires HeadsFit(order, heads) && IsPass(order, heads, v, states) && k < |states| && n in order && WasSkipped(states[k].visits, n.id)
    ensures n.conditional
  {
    hide HeadsWithin, HeadsNamed, VisitBatch, VisitNew, VisitRecorded, WasSkipped;
    if k == 0 {
      NothingSkipped(n.id);
    } else {
      assert MovesAt(order, heads, states, k - 1);
      var s, node := states[k - 1], order[k - 1];
      var fates: Fates :| AllLikely(order, fates) && states[k] == VisitAt(s, node, heads, fates);
      if WasSkipped(s.visits, n.id) {
        OnlyConditionsSkip(order, heads, v, states, k - 1, n);
      } else {
        var u := if node.id in heads && Intact(heads[node.id], s.view.recorded.Keys) then heads[node.id] else [node];
        LogsSkip(s.visits, states[k].visits[|s.visits|], n.id);
        var m :| m in u && Skipped(m, fates(m.id)) && m.id == n.id;
        UnitWithin(order, heads, node, m);
        SameId(order, m, n);
      }
    }
  }

  lemma NothingSkipped(id: string)
    ensures !WasSkipped([], id)
  {
  }

  lemma UnitWithin(order: seq<WorkflowNode>, heads: map<string, Unit>, node: WorkflowNode, m: WorkflowNode)
    requires HeadsWithin(order, heads) && node in order && ((node.id in heads && m in heads[node.id]) || m == node)
    ensures m in order
  {
  }

  /** Only nodes marked so are ever continued past; a task whose record of such nodes is right succeeds only if each node
      has succeeded, has a condition and no child, or may fail. */
  lemma PassIsSound(order: seq<WorkflowNode>, heads: map<string, Unit>, v: View, states: seq<PassState>)
    requires HeadsFit(order, heads) && IsPass(order, heads, v, states) && ContinuedMarked(order, v.continued)
    ensures ContinuedMarked(order, Outcome(states).continued)
    ensures Outcome(states).status == TaskSucceeded ==> forall n :: n in order ==> EndsWell(n, Outcome(states).recorded, n.conditional)
  {
    hide HeadsFit, Moves, EndsWell, WasSkipped, ContinuedMarked;
    var last := |states| - 1;
    if states[last].running {
      RunningEndsWell(order, heads, v, states, last);
    } else {
      assert MovesAt(order, heads, states, last - 1);
      StillRunning(order, heads, states[last - 1], order[last - 1], states[last]);
      RunningEndsWell(order, heads, v, states, last - 1);
      MoveKeepsMarks(order, heads, states[last - 1], last - 1, states[last]);
    }
    if Outcome(states).status == TaskSucceeded {
      forall n | n in order ensures EndsWell(n, Outcome(states).recorded, n.conditional) {
        SuccessIsSound(order, heads, v, states, n);
        if WasSkipped(states[last].visits, n.id) {
          OnlyConditionsSkip(order, heads, v, states, last, n);
        }
        MoreSkipped(n, Outcome(states).recorded, WasSkipped(states[last].visits, n.id), n.conditional);
      }
    }
  }

  lemma MoveKeepsMarks(order: seq<WorkflowNode>, heads: map<string, Unit>, s: PassState, k: nat, t: PassState)
    requires k < |order| && HeadsFit(order, heads) && Moves(order, heads, s, order[k], t) && ContinuedMarked(order, s.view.continued)
    ensures ContinuedMarked(order, t.view.continued)
  {
    var fates: Fates :| AllLikely(order, fates) && t == VisitAt(s, order[k], heads, fates);
    hide VisitAt, HeadsFit, AllLikely;
    forall n | n in order && n.id in t.view.continued ensures n.continueOnFailure {
      MoveContinues(order, heads, s, k, fates, n);
    }
  }
}
