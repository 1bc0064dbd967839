/** What a pass visits, in which order, and what is there when a node's inputs are resolved. */
module PassSafety {
  import opened Ids
  import opened Graphs
  import opened TaskPlans
  import opened PlanChecks
  import opened Batches
  import opened Workflows
  import opened Passes

  // ----- The shape of the head map -----

  /** The batches lie at or after their first nodes and share no node. */
  ghost predicate HeadsApart(order: seq<WorkflowNode>, heads: map<string, Unit>)
  {
    && (forall k, n :: 0 <= k < |order| && order[k].id in heads && n in heads[order[k].id] ==> n.id !in IdSet(order[..k]))
    && (forall g, h, x :: g in heads && h in heads && x in IdSet(heads[g]) && x in IdSet(heads[h]) ==> g == h)
  }

  /** The first node of a batch comes first in the order. */
  lemma {:induction false} HeadComesFirst(pending: seq<WorkflowNode>, done: set<string>, batches: seq<Unit>, b: nat, n: WorkflowNode)
    requires Layered(pending, done) && UniqueIds(pending) && BatchesFrom(pending, done) == Some(batches)
    requires b < |batches| && n in batches[b]
    ensures batches[b] != [] && (n == batches[b][0] || ComesBefore(pending, batches[b][0], n))
    decreases |pending|
  {
    hide *;
    HasBatches(pending, done, batches);
    var batch, left := FirstBatch(pending, done);
    BatchesAreSafe(left, done + IdSet(batch));
    var rest := BatchesFrom(left, done + IdSet(batch)).value;
    assert batches == [batch] + rest;
    if b == 0 {
      FirstOfPart(batch, pending, n);
    } else {
      assert rest[b - 1] == batches[b];
      PartIsUnique(left, pending);
      HeadComesFirst(left, done + IdSet(batch), rest, b - 1, n);
      if n != batches[b][0] {
        WithoutKeepsOrder(pending, IdSet(batch), batches[b][0], n);
      }
    }
  }

  lemma FirstOfPart(some: seq<WorkflowNode>, nodes: seq<WorkflowNode>, n: WorkflowNode)
    requires Part(some, nodes) && n in some && nodes != []
    ensures n == nodes[0] || ComesBefore(nodes, nodes[0], n)
  {
  }

  lemma {:induction false} UniqueUnit(units: seq<Unit>, u: Unit)
    requires Distinct(units) && u in units
    ensures UniqueIds(u)
  {
    TailDistinct(units);
    if u == units[0] {
      forall i, j | 0 <= i < j < |u| ensures u[i].id != u[j].id {
        assert Flatten(units)[i].id != Flatten(units)[j].id;
      }
    } else {
      UniqueUnit(units[1..], u);
    }
  }

  /** Nothing of a batch comes before its first node. */
  lemma NothingAhead(order: seq<WorkflowNode>, batches: seq<Unit>, k: nat, n: WorkflowNode)
    requires Layered(order, {}) && UniqueIds(order) && BatchesFrom(order, {}) == Some(batches) && NonEmpty(batches)
    requires k < |order| && order[k].id in HeadMap(batches) && n in HeadMap(batches)[order[k].id]
    requires forall u: Unit, m :: u in batches && m in u ==> m in order
    ensures n.id !in IdSet(order[..k])
  {
    HeadMapHolds(batches, order[k].id);
    var u := HeadMap(batches)[order[k].id];
    var b :| 0 <= b < |batches| && batches[b] == u;
    HeadComesFirst(order, {}, batches, b, n);
    assert u[0] in u;
    SameId(order, u[0], order[k]);
    var p := k;
    if n != u[0] {
      var x, y := PositionsInOrder(order, u[0], n);
      assert x == k;
      p := y;
    }
    forall i | 0 <= i < k ensures order[i].id != n.id {
      assert order[i].id != order[p].id;
    }
  }

  lemma HeadsShape(order: seq<WorkflowNode>, batches: seq<Unit>)
    requires Distinct(batches) && UniqueIds(order) && forall n :: n in Flatten(batches) <==> n in order
    ensures HeadsFit(order, HeadMap(batches))
    ensures forall u: Unit, m :: u in batches && m in u ==> m in order
  {
    var heads := HeadMap(batches);
    forall u: Unit, m | u in batches && m in u ensures m in order {
      MemberOfFlatten(batches, u, m);
    }
    hide Flatten, Distinct;
    forall h | h in heads ensures UniqueIds(heads[h]) && heads[h] != [] && heads[h][0].id == h && heads[h] in batches {
      HeadMapHolds(batches, h);
      UniqueUnit(batches, heads[h]);
    }
  }

  lemma HeadsShareNothing(batches: seq<Unit>, g: string, h: string, x: string)
    requires Distinct(batches) && g in HeadMap(batches) && h in HeadMap(batches)
    requires x in IdSet(HeadMap(batches)[g]) && x in IdSet(HeadMap(batches)[h])
    ensures g == h
  {
    HeadMapHolds(batches, g);
    HeadMapHolds(batches, h);
    var a :| 0 <= a < |batches| && batches[a] == HeadMap(batches)[g];
    var b :| 0 <= b < |batches| && batches[b] == HeadMap(batches)[h];
    SameUnit(batches, a, b, x);
  }

  /** The batches of an acceptable plan have the shape that a pass relies on. */
  lemma HeadsOfPlan(nodes: seq<WorkflowNode>, order: seq<WorkflowNode>)
    requires IsDepthOrder(nodes, order) && Closed(DependencyGraph(nodes)) && Acyclic(DependencyGraph(nodes))
    ensures BatchesFrom(order, {}).Some? && NonEmpty(BatchesFrom(order, {}).value)
    ensures HeadsFit(order, HeadMap(BatchesFrom(order, {}).value))
    ensures HeadsApart(order, HeadMap(BatchesFrom(order, {}).value))
  {
    DepthOrderIsLayered(nodes, order);
    BatchesPartition(order, {});
    var batches := BatchesFrom(order, {}).value;
    var heads := HeadMap(batches);
    HeadsShape(order, batches);
    hide BatchesFrom, HeadMap, Layered, UniqueIds, HeadsFit, IdSet, IsDepthOrder, Closed, Acyclic;
    forall k, n: WorkflowNode | 0 <= k < |order| && order[k].id in heads && n in heads[order[k].id] ensures n.id !in IdSet(order[..k]) {
      NothingAhead(order, batches, k, n);
    }
    forall g, h, x | g in heads && h in heads && x in IdSet(heads[g]) && x in IdSet(heads[h]) ensures g == h {
      HeadsShareNothing(batches, g, h, x);
    }
  }

  lemma {:induction false} UngroupedBatches(pending: seq<WorkflowNode>, done: set<string>)
    requires Layered(pending, done) && forall n :: n in pending ==> n.parallelGroup == ""
    ensures BatchesFrom(pending, done).Some?
    ensures forall u :: u in BatchesFrom(pending, done).value ==> |u| == 1
    decreases |pending|
  {
    if pending != [] {
      var batch, left := FirstBatch(pending, done);
      ReadyMembers(pending, done);
      assert ReadyNodes(pending, done)[0] in pending;
      WithoutMembers(pending, IdSet(batch));
      UngroupedBatches(left, done + IdSet(batch));
    }
  }

  lemma {:induction false} SingleBatchesHaveNoHeads(batches: seq<Unit>)
    requires forall u :: u in batches ==> |u| == 1
    ensures NonEmpty(batches) && HeadMap(batches) == map[]
  {
    assert NonEmpty(batches) by {
      forall i | 0 <= i < |batches| ensures |batches[i]| > 0 {
        assert batches[i] in batches;
      }
    }
    if batches != [] {
      SingleBatchesHaveNoHeads(batches[1..]);
      assert batches[0] in batches;
    }
  }

  /** A plan without parallel groups is executed node by node. */
  lemma UngroupedHasNoHeads(nodes: seq<WorkflowNode>, order: seq<WorkflowNode>)
    requires IsDepthOrder(nodes, order) && Closed(DependencyGraph(nodes)) && Acyclic(DependencyGraph(nodes))
    requires forall n :: n in order ==> n.parallelGroup == ""
    ensures BatchesFrom(order, {}).Some? && NonEmpty(BatchesFrom(order, {}).value)
    ensures HeadMap(BatchesFrom(order, {}).value) == map[]
  {
    DepthOrderIsLayered(nodes, order);
    UngroupedBatches(order, {});
    SingleBatchesHaveNoHeads(BatchesFrom(order, {}).value);
  }

  // ----- A pass follows the walk -----

  /** After k positions: the nodes still ahead are recorded as at the start, and what is skipped are members of batches
      headed so far. */
  ghost predicate Ahead(order: seq<WorkflowNode>, heads: map<string, Unit>, k: nat, recorded: set<string>, s: PassState)
    requires k <= |order|
  {
    && (forall x :: x !in IdSet(order[..k]) && x !in s.skip ==> (x in s.view.recorded <==> x in recorded))
    && (forall x :: x in s.skip ==> SkippedBy(order, heads, k, x))
  }

  ghost predicate SkippedBy(order: seq<WorkflowNode>, heads: map<string, Unit>, k: nat, x: string)
    requires k <= |order|
  {
    exists j :: 0 <= j < k && order[j].id in heads && x in IdSet(heads[order[j].id])
  }

  lemma NewAt(v: View, node: WorkflowNode, fate: Fate, x: string)
    requires x != node.id
    ensures x in VisitNew(v, node, fate).view.recorded <==> x in v.recorded
  {
  }

  lemma BatchAt(v: View, u: Unit, fates: Fates, x: string)
    requires UniqueIds(u) && x !in IdSet(u)
    ensures x in VisitBatch(v, u, fates).view.recorded <==> x in v.recorded
  {
    forall n | n in u ensures n.id != x {
      var i :| 0 <= i < |u| && u[i] == n;
    }
    RecordAllAt(v.recorded, u, fates, x);
  }

  /** The batch at this position is untouched now if and only if it was at the start of the pass. */
  lemma IntactNow(order: seq<WorkflowNode>, heads: map<string, Unit>, k: nat, recorded: set<string>, s: PassState)
    requires k < |order| && HeadsApart(order, heads) && UniqueIds(order) && Ahead(order, heads, k, recorded, s)
    requires order[k].id !in s.skip && order[k].id in heads
    ensures Intact(heads[order[k].id], s.view.recorded.Keys) <==> Intact(heads[order[k].id], recorded)
  {
    var u := heads[order[k].id];
    forall n | n in u ensures n.id in s.view.recorded <==> n.id in recorded {
      assert n.id in IdSet(u) by {
        var i :| 0 <= i < |u| && u[i] == n;
      }
      assert !SkippedBy(order, heads, k, n.id) by {
        forall j | 0 <= j < k && order[j].id in heads ensures n.id !in IdSet(heads[order[j].id]) {
          assert order[j].id != order[k].id;
        }
      }
    }
  }

  lemma StaysAhead(order: seq<WorkflowNode>, heads: map<string, Unit>, k: nat, recorded: set<string>, s: PassState, fates: Fates)
    requires k < |order| && HeadsFit(order, heads) && Ahead(order, heads, k, recorded, s)
    ensures Ahead(order, heads, k + 1, recorded, VisitAt(s, order[k], heads, fates))
  {
    var node, t := order[k], VisitAt(s, order[k], heads, fates);
    OneMoreId(order, k);
    forall x | x !in IdSet(order[..k + 1]) && x !in t.skip ensures x in t.view.recorded <==> x in recorded {
      if node.id !in s.skip {
        if node.id in heads && Intact(heads[node.id], s.view.recorded.Keys) {
          StoppedBatch(s.view, heads[node.id], fates);
          if x !in IdSet(heads[node.id]) {
            BatchAt(s.view, heads[node.id], fates, x);
          }
        } else {
          NewAt(s.view, node, fates(node.id), x);
        }
      }
    }
    forall x | x in t.skip ensures SkippedBy(order, heads, k + 1, x) {
      if x in s.skip {
        var j :| 0 <= j < k && order[j].id in heads && x in IdSet(heads[order[j].id]);
        assert j < k + 1;
      } else {
        assert order[k].id in heads && x in IdSet(heads[order[k].id]);
      }
    }
  }

  lemma StoppedBatch(v: View, u: Unit, fates: Fates)
    ensures !VisitBatch(v, u, fates).goes ==> VisitBatch(v, u, fates).view.recorded.Keys == v.recorded.Keys
  {
  }

  lemma UnitsGrow(visits: seq<Visit>, v: Visit)
    ensures Units(visits + [v]) == Units(visits) + [v.unit]
  {
  }

  /** What is left to visit from position k on. */
  ghost predicate Following(order: seq<WorkflowNode>, heads: map<string, Unit>, k: nat, recorded: set<string>, s: PassState)
    requires k <= |order|
  {
    var walk := Walk(order, heads, recorded, {});
    if s.running then walk == Units(s.visits) + Walk(order[k..], heads, recorded, s.skip) else Units(s.visits) <= walk
  }

  /** How the walk goes on from one node. */
  lemma WalkOnce(tail: seq<WorkflowNode>, heads: map<string, Unit>, recorded: set<string>, skip: set<string>)
    requires tail != []
    ensures var node, rest := tail[0], tail[1..];
      Walk(tail, heads, recorded, skip) ==
        if node.id in skip then Walk(rest, heads, recorded, skip)
        else if node.id in heads && Intact(heads[node.id], recorded) then
          [heads[node.id]] + Walk(rest, heads, recorded, skip + IdSet(heads[node.id]))
        else [[node]] + Walk(rest, heads, recorded, skip)
  {
  }

  /** The unit that a visit covers. */
  function UnitAt(s: PassState, node: WorkflowNode, heads: map<string, Unit>): Unit
  {
    if node.id in heads && Intact(heads[node.id], s.view.recorded.Keys) then heads[node.id] else [node]
  }

  lemma VisitAdds(s: PassState, node: WorkflowNode, heads: map<string, Unit>, fates: Fates)
    ensures var t, u := VisitAt(s, node, heads, fates), UnitAt(s, node, heads);
      if node.id in s.skip then t == s
      else
        && |t.visits| == |s.visits| + 1 && t.visits == s.visits + [t.visits[|s.visits|]]
        && t.visits[|s.visits|].unit == u && t.visits[|s.visits|].outputs == s.view.outputs
        && (t.running ==> t.skip == if node.id in heads && Intact(heads[node.id], s.view.recorded.Keys) then s.skip + IdSet(u) else s.skip)
  {
    hide VisitBatch, VisitNew, VisitRecorded, IdSet;
  }

  lemma Regrouped(walk: seq<Unit>, units: seq<Unit>, u: Unit, rest: seq<Unit>)
    requires walk == units + ([u] + rest)
    ensures walk == (units + [u]) + rest && units + [u] <= walk
  {
  }

  lemma MoveFollows(order: seq<WorkflowNode>, heads: map<string, Unit>, k: nat, recorded: set<string>, s: PassState, fates: Fates)
    requires k < |order| && HeadsFit(order, heads) && HeadsApart(order, heads) && Ahead(order, heads, k, recorded, s)
    requires s.running && Following(order, heads, k, recorded, s)
    ensures Following(order, heads, k + 1, recorded, VisitAt(s, order[k], heads, fates))
  {
    var node, t := order[k], VisitAt(s, order[k], heads, fates);
    VisitAdds(s, node, heads, fates);
    if node.id !in s.skip && node.id in heads {
      assert UniqueIds(order);
      IntactNow(order, heads, k, recorded, s);
    }
    hide VisitAt, HeadsFit, HeadsApart, Ahead, Intact, IdSet, Walk, Units;
    assert order[k..][0] == node && order[k..][1..] == order[k + 1..];
    WalkOnce(order[k..], heads, recorded, s.skip);
    if node.id !in s.skip {
      var u := UnitAt(s, node, heads);
      UnitsGrow(s.visits, t.visits[|s.visits|]);
      var skip := if node.id in heads && Intact(heads[node.id], s.view.recorded.Keys) then s.skip + IdSet(u) else s.skip;
      Regrouped(Walk(order, heads, recorded, {}), Units(s.visits), u, Walk(order[k + 1..], heads, recorded, skip));
    }
  }

  lemma {:induction false} PassFollows(order: seq<WorkflowNode>, heads: map<string, Unit>, v: View, states: seq<PassState>, k: nat)
    requires HeadsFit(order, heads) && HeadsApart(order, heads) && IsPass(order, heads, v, states) && k < |states|
    ensures Ahead(order, heads, k, v.recorded.Keys, states[k]) && Following(order, heads, k, v.recorded.Keys, states[k])
  {
    if k == 0 {
      assert order[0..] == order;
    } else {
      PassFollows(order, heads, v, states, k - 1);
      assert MovesAt(order, heads, states, k - 1);
      var fates: Fates :| states[k] == VisitAt(states[k - 1], order[k - 1], heads, fates);
      hide *;
      StaysAhead(order, heads, k - 1, v.recorded.Keys, states[k - 1], fates);
      assert states[k - 1].running;
      MoveFollows(order, heads, k - 1, v.recorded.Keys, states[k - 1], fates);
    }
  }

  /** A pass visits what the walk over the batches visits, until it stops. */
  lemma PassFollowsWalk(order: seq<WorkflowNode>, heads: map<string, Unit>, v: View, states: seq<PassState>)
    requires HeadsFit(order, heads) && HeadsApart(order, heads) && IsPass(order, heads, v, states)
    ensures Units(states[|states| - 1].visits) <= Walk(order, heads, v.recorded.Keys, {})
  {
    PassFollows(order, heads, v, states, |states| - 1);
  }

  // ----- No node is started before its dependencies -----

  lemma {:induction false} SafePrefix(units: seq<Unit>, all: seq<Unit>, done: set<string>)
    requires units <= all && SafeUnits(all, done)
    ensures SafeUnits(units, done)
    decreases |units|
  {
    if units != [] {
      SafePrefix(units[1..], all[1..], done + IdSet(units[0]));
    }
  }

  /** The units of a pass, in the order visited. */
  ghost function Visited(states: seq<PassState>): seq<Unit>
    requires states != []
  {
    Units(states[|states| - 1].visits)
  }

  /** A first pass visits no node before all of its dependencies have been visited and passed. */
  lemma FreshPassIsSafe(nodes: seq<WorkflowNode>, order: seq<WorkflowNode>, v: View, states: seq<PassState>)
    requires IsDepthOrder(nodes, order) && Closed(DependencyGraph(nodes)) && Acyclic(DependencyGraph(nodes))
    requires BatchesFrom(order, {}).Some? && NonEmpty(BatchesFrom(order, {}).value) && v.recorded == map[]
    requires IsPass(order, HeadMap(BatchesFrom(order, {}).value), v, states)
    ensures Visited(states) <= BatchesFrom(order, {}).value
    ensures SafeUnits(Visited(states), {})
  {
    var batches := BatchesFrom(order, {}).value;
    HeadsOfPlan(nodes, order);
    FreshWalkIsBatches(nodes, order);
    hide *;
    PassFollowsWalk(order, HeadMap(batches), v, states);
    assert v.recorded.Keys == {};
    VisitedAre(states);
    SafePrefix(Visited(states), batches, {});
  }

  lemma VisitedAre(states: seq<PassState>)
    requires states != []
    ensures Visited(states) == Units(states[|states| - 1].visits)
  {
  }

  /** Neither does a later pass over a resume-safe plan, whatever is recorded. */
  lemma ResumedPassIsSafe(nodes: seq<WorkflowNode>, order: seq<WorkflowNode>, v: View, states: seq<PassState>)
    requires IsDepthOrder(nodes, order) && Closed(DependencyGraph(nodes)) && Acyclic(DependencyGraph(nodes))
    requires BatchesFrom(order, {}).Some? && NonEmpty(BatchesFrom(order, {}).value) && ResumeSafe(order, BatchesFrom(order, {}).value)
    requires IsPass(order, HeadMap(BatchesFrom(order, {}).value), v, states)
    ensures SafeUnits(Visited(states), {})
  {
    var batches := BatchesFrom(order, {}).value;
    HeadsOfPlan(nodes, order);
    ResumeSafeWalk(nodes, order, v.recorded.Keys);
    hide *;
    PassFollowsWalk(order, HeadMap(batches), v, states);
    VisitedAre(states);
    SafePrefix(Visited(states), Walk(order, HeadMap(batches), v.recorded.Keys, {}), {});
  }

  // ----- Inputs are there when they are resolved -----

  /** Every unit visited earlier has put its nodes' keys into the outputs. */
  ghost predicate KeysThere(s: PassState)
  {
    && (forall i, j :: 0 <= i < j < |s.visits| ==> IdSet(s.visits[i].unit) <= s.visits[j].outputs)
    && (s.running ==> forall i :: 0 <= i < |s.visits| ==> IdSet(s.visits[i].unit) <= s.view.outputs)
  }

  lemma SingleId(node: WorkflowNode)
    ensures IdSet([node]) == {node.id}
  {
    assert [node][0].id in IdSet([node]);
  }

  lemma VisitKeepsKeys(s: PassState, node: WorkflowNode, heads: map<string, Unit>, fates: Fates)
    requires s.running && KeysThere(s)
    ensures KeysThere(VisitAt(s, node, heads, fates))
  {
    hide IdSet, Skipped, PositionAfter, ContinuesPast, Raised, RecordAll, ContinuedIn, ReportedIn, FirstFailure, SomeRaises, Recorded;
    SingleId(node);
  }

  lemma {:induction false} PassKeepsKeys(order: seq<WorkflowNode>, heads: map<string, Unit>, v: View, states: seq<PassState>, k: nat)
    requires IsPass(order, heads, v, states) && k < |states|
    ensures KeysThere(states[k])
  {
    if k > 0 {
      PassKeepsKeys(order, heads, v, states, k - 1);
      assert MovesAt(order, heads, states, k - 1);
      var fates: Fates :| states[k] == VisitAt(states[k - 1], order[k - 1], heads, fates);
      hide KeysThere, VisitAt;
      VisitKeepsKeys(states[k - 1], order[k - 1], heads, fates);
    }
  }

  ghost predicate UnitsWithin(units: seq<Unit>, order: seq<WorkflowNode>)
  {
    forall u: Unit, m :: u in units && m in u ==> m in order
  }

  lemma WithinOrder(units: seq<Unit>, order: seq<WorkflowNode>, j: nat, n: WorkflowNode)
    requires UnitsWithin(units, order) && j < |units| && n in units[j]
    ensures n in order
  {
    assert units[j] in units;
  }

  /** In safe units, whatever a node of unit j depends on, directly or not, is in an earlier unit. */
  lemma {:induction false} AncestorEarlier(nodes: seq<WorkflowNode>, order: seq<WorkflowNode>, units: seq<Unit>, j: nat, n: WorkflowNode, p: seq<string>)
    returns (i: nat)
    requires SameNodes(Latest(nodes), order) && SafeUnits(units, {}) && j < |units| && n in units[j]
    requires UnitsWithin(units, order)
    requires IsChain(DependencyGraph(nodes), p) && |p| > 1 && p[0] == n.id
    ensures i < j && p[|p| - 1] in IdSet(units[i])
    decreases |p|
  {
    var g := DependencyGraph(nodes);
    assert Link(g, p, 0);
    WithinOrder(units, order, j, n);
    assert Latest(nodes)[n.id] == n by {
      var x :| 0 <= x < |order| && order[x] == n;
    }
    assert p[1] in n.dependsOn;
    i := EarlierUnit(units, {}, j, n, p[1]);
    if |p| > 2 {
      var x :| 0 <= x < |units[i]| && units[i][x].id == p[1];
      TailIsChain(g, p);
      i := AncestorEarlier(nodes, order, units, i, units[i][x], p[1..]);
    }
  }

  lemma {:induction false} WalkWithin(order: seq<WorkflowNode>, tail: seq<WorkflowNode>, heads: map<string, Unit>, recorded: set<string>, skip: set<string>)
    requires HeadsWithin(order, heads) && forall n :: n in tail ==> n in order
    ensures UnitsWithin(Walk(tail, heads, recorded, skip), order)
    decreases |tail|
  {
    if tail != [] {
      WalkOnce(tail, heads, recorded, skip);
      WalkWithin(order, tail[1..], heads, recorded, skip);
      if tail[0].id in heads {
        WalkWithin(order, tail[1..], heads, recorded, skip + IdSet(heads[tail[0].id]));
      }
    }
  }

  /** The visited units hold nodes of the order only. */
  lemma VisitedWithin(order: seq<WorkflowNode>, heads: map<string, Unit>, v: View, states: seq<PassState>)
    requires HeadsFit(order, heads) && HeadsApart(order, heads) && IsPass(order, heads, v, states)
    ensures UnitsWithin(Visited(states), order)
  {
    PassFollowsWalk(order, heads, v, states);
    WalkWithin(order, order, heads, v.recorded.Keys, {});
    VisitedAre(states);
    hide *;
    UnitsOfWalk(order, heads, v.recorded.Keys, Visited(states));
  }

  /** Whatever a visited node depends on, directly or not, is a key of the outputs at that time. */
  lemma AncestorsAvailable(nodes: seq<WorkflowNode>, order: seq<WorkflowNode>, heads: map<string, Unit>, v: View,
                           states: seq<PassState>, j: nat, n: WorkflowNode, a: string)
    requires IsDepthOrder(nodes, order) && HeadsFit(order, heads) && HeadsApart(order, heads) && IsPass(order, heads, v, states)
    requires SafeUnits(Visited(states), {}) && j < |states[|states| - 1].visits| && n in states[|states| - 1].visits[j].unit
    requires ReachesProperly(DependencyGraph(nodes), n.id, a)
    ensures n in order && a in states[|states| - 1].visits[j].outputs
  {
    hide *;
    PassHasStates(order, heads, v, states);
    var p := ProperChain(DependencyGraph(nodes), n.id, a);
    PassKeepsKeys(order, heads, v, states, |states| - 1);
    VisitedWithin(order, heads, v, states);
    OrderHoldsNodes(nodes, order);
    VisitIsVisited(states, j);
    WithinOrder(Visited(states), order, j, n);
    var i := AncestorEarlier(nodes, order, Visited(states), j, n, p);
    KeysAt(states, i, j);
  }

  lemma PassHasStates(order: seq<WorkflowNode>, heads: map<string, Unit>, v: View, states: seq<PassState>)
    requires IsPass(order, heads, v, states)
    ensures states != []
  {
  }

  lemma ProperChain(g: Graph, a: string, b: string) returns (p: seq<string>)
    requires ReachesProperly(g, a, b)
    ensures IsChain(g, p) && |p| > 1 && p[0] == a && p[|p| - 1] == b
  {
    p :| IsChain(g, p) && |p| > 1 && p[0] == a && p[|p| - 1] == b;
  }

  lemma KeysAt(states: seq<PassState>, i: nat, j: nat)
    requires states != [] && KeysThere(states[|states| - 1]) && i < j < |states[|states| - 1].visits|
    ensures |Visited(states)| == |states[|states| - 1].visits|
    ensures IdSet(Visited(states)[i]) <= states[|states| - 1].visits[j].outputs
  {
    assert Visited(states)[i] == states[|states| - 1].visits[i].unit;
  }

  /** In a pass that visits no node too early, every plan node that an input of a visited node refers to is a key of the
      outputs when that input is resolved. */
  lemma InputsAvailable(nodes: seq<WorkflowNode>, order: seq<WorkflowNode>, heads: map<string, Unit>, v: View,
                        states: seq<PassState>, j: nat, n: WorkflowNode, r: nat)
    requires IsDepthOrder(nodes, order) && InputsUpstream(nodes)
    requires HeadsFit(order, heads) && HeadsApart(order, heads) && IsPass(order, heads, v, states) && SafeUnits(Visited(states), {})
    requires j < |states[|states| - 1].visits| && n in states[|states| - 1].visits[j].unit && r < |n.references|
    ensures var source := ReferencedSource(n.references[r]);
      source.Some? && source.value in IdSet(nodes) ==> source.value in states[|states| - 1].visits[j].outputs
  {
    hide *;
    PassHasStates(order, heads, v, states);
    var source := ReferencedSource(n.references[r]);
    if source.Some? && source.value in IdSet(nodes) {
      VisitedWithin(order, heads, v, states);
      VisitIsVisited(states, j);
      WithinOrder(Visited(states), order, j, n);
      ReferenceUpstream(nodes, order, n, r);
      AncestorsAvailable(nodes, order, heads, v, states, j, n, source.value);
    }
  }

  lemma VisitIsVisited(states: seq<PassState>, j: nat)
    requires states != [] && j < |states[|states| - 1].visits|
    ensures |Visited(states)| == |states[|states| - 1].visits| && Visited(states)[j] == states[|states| - 1].visits[j].unit
    ensures states[|states| - 1].visits[j].unit in Visited(states)
  {
    assert Visited(states)[j] == states[|states| - 1].visits[j].unit;
  }

  lemma OrderHoldsNodes(nodes: seq<WorkflowNode>, order: seq<WorkflowNode>)
    requires IsDepthOrder(nodes, order)
    ensures SameNodes(Latest(nodes), order)
  {
  }

  lemma UnitsOfWalk(order: seq<WorkflowNode>, heads: map<string, Unit>, recorded: set<string>, units: seq<Unit>)
    requires units <= Walk(order, heads, recorded, {})
    requires UnitsWithin(Walk(order, heads, recorded, {}), order)
    ensures UnitsWithin(units, order)
  {
  }

  lemma ReferenceUpstream(nodes: seq<WorkflowNode>, order: seq<WorkflowNode>, n: WorkflowNode, r: nat)
    requires IsDepthOrder(nodes, order) && InputsUpstream(nodes) && n in order && r < |n.references|
    ensures var source := ReferencedSource(n.references[r]);
      source.Some? && source.value in IdSet(nodes) ==> ReachesProperly(DependencyGraph(nodes), n.id, source.value)
  {
    var x :| 0 <= x < |order| && order[x] == n;
    hide ReferencedSource;
    assert Latest(nodes)[n.id] == n && n in nodes;
    var i :| 0 <= i < |nodes| && nodes[i] == n;
    assert NodeUpstream(DependencyGraph(nodes), IdSet(nodes), ReferencedSource, nodes[i]);
    assert SourceUpstream(DependencyGraph(nodes), IdSet(nodes), n.id, ReferencedSource(n.references[r]));
  }
}
